/**
 * The `Modes` transforms. Each converts the frame to gray with `Preprocess.toGray`,
 * runs a fixed chain of OpenCV calls over freshly allocated Mats, deletes every
 * intermediate, and returns one new single-channel Mat.
 *
 * For each mode, `XRun(log, src, base)` is the log after the mode ran on top of
 * `log` with `base` as the next free handle; the method `X` appends exactly that.
 */
module Modes {
  import Cv
  import Preprocess

  /**
   * What every mode promises, run on top of a valid `log` with `src` live: the
   * mode leaves exactly one more buffer live, its result `r`, having deleted every
   * other buffer it allocated; `src` is read exactly once, by the gray conversion,
   * and never written or deleted; the result is allocated, written exactly once by
   * `fill`, and not touched again before it is returned.
   */
  predicate ModeContract(log: seq<Cv.Event>, run: seq<Cv.Event>, src: Cv.Handle, base: Cv.Handle, r: Cv.Handle, fill: Cv.Op) {
    && Cv.Replay({}, log).Some?
    && base <= r
    && Cv.Replay({}, run) == Cv.Some(Cv.LiveAfter(log) + {r})
    && Cv.History(run, src) == Cv.History(log, src) + [Cv.Read(Cv.CvtColor(Cv.RgbaToGray), 0)]
    && Cv.History(run, r) == Cv.History(log, r) + [Cv.Alloc(Cv.Mat), Cv.Write(fill)]
  }

  /** `Modes.canny`: hysteresis edges of the gray image, thresholds 50 and 150. */
  function CannyRun(log: seq<Cv.Event>, src: Cv.Handle, base: Cv.Handle): seq<Cv.Event> {
    var gray, edges := base, base + 1;
    Preprocess.ToGrayRun(log, src, gray)
    + [Cv.New(edges, Cv.Mat)]
    + [Cv.Call(Cv.Canny(50, 150), [gray], [edges])]
    + [Cv.Delete(gray)]
  }

  /**
   * The life of `h` after `Modes.canny`, given its life `before`: what the mode does to
   * it, event by event, appended.
   */
  function CannyLife(before: seq<Cv.Use>, src: Cv.Handle, base: Cv.Handle, h: Cv.Handle): seq<Cv.Use> {
    var gray, edges := base, base + 1;
    Preprocess.ProducerLife(before, Cv.CvtColor(Cv.RgbaToGray), src, gray, h)
    + Cv.UsesOf(Cv.New(edges, Cv.Mat), h)
    + Cv.UsesOf(Cv.Call(Cv.Canny(50, 150), [gray], [edges]), h)
    + Cv.UsesOf(Cv.Delete(gray), h)
  }

  /**
   * The life of any buffer across `Modes.canny` is its life before, followed by what the
   * mode does to it.
   */
  lemma {:induction false} CannyHistory(log: seq<Cv.Event>, src: Cv.Handle, base: Cv.Handle, h: Cv.Handle)
    ensures Cv.History(CannyRun(log, src, base), h) == CannyLife(Cv.History(log, h), src, base, h)
  {
    calc {
      Cv.History(CannyRun(log, src, base), h);
      == { Cv.HistorySnoc(Preprocess.ToGrayRun(log, src, base) + [Cv.New(base + 1, Cv.Mat)] + [Cv.Call(Cv.Canny(50, 150), [base], [base + 1])], Cv.Delete(base), h); }
      Cv.History(Preprocess.ToGrayRun(log, src, base) + [Cv.New(base + 1, Cv.Mat)] + [Cv.Call(Cv.Canny(50, 150), [base], [base + 1])], h) + Cv.UsesOf(Cv.Delete(base), h);
      == { Cv.HistorySnoc(Preprocess.ToGrayRun(log, src, base) + [Cv.New(base + 1, Cv.Mat)], Cv.Call(Cv.Canny(50, 150), [base], [base + 1]), h); }
      Cv.History(Preprocess.ToGrayRun(log, src, base) + [Cv.New(base + 1, Cv.Mat)], h) + Cv.UsesOf(Cv.Call(Cv.Canny(50, 150), [base], [base + 1]), h) + Cv.UsesOf(Cv.Delete(base), h);
      == { Cv.HistorySnoc(Preprocess.ToGrayRun(log, src, base), Cv.New(base + 1, Cv.Mat), h); }
      Cv.History(Preprocess.ToGrayRun(log, src, base), h) + Cv.UsesOf(Cv.New(base + 1, Cv.Mat), h) + Cv.UsesOf(Cv.Call(Cv.Canny(50, 150), [base], [base + 1]), h) + Cv.UsesOf(Cv.Delete(base), h);
      == { Preprocess.ProducerHistory(log, Cv.CvtColor(Cv.RgbaToGray), src, base, h); }
      Preprocess.ProducerLife(Cv.History(log, h), Cv.CvtColor(Cv.RgbaToGray), src, base, h) + Cv.UsesOf(Cv.New(base + 1, Cv.Mat), h) + Cv.UsesOf(Cv.Call(Cv.Canny(50, 150), [base], [base + 1]), h) + Cv.UsesOf(Cv.Delete(base), h);
    }
  }

  lemma CannyLifeOfSrc(before: seq<Cv.Use>, src: Cv.Handle, base: Cv.Handle)
    requires src < base
    ensures CannyLife(before, src, base, src) == before + [Cv.Read(Cv.CvtColor(Cv.RgbaToGray), 0)]
  {
    Preprocess.ProducerLifeOfInput(before, Cv.CvtColor(Cv.RgbaToGray), src, base);
  }

  lemma CannyLifeOfGray(before: seq<Cv.Use>, src: Cv.Handle, base: Cv.Handle)
    requires src < base
    ensures CannyLife(before, src, base, base) == before + [Cv.Alloc(Cv.Mat), Cv.Write(Cv.CvtColor(Cv.RgbaToGray)), Cv.Read(Cv.Canny(50, 150), 0), Cv.Free]
  {
    Preprocess.ProducerLifeOfResult(before, Cv.CvtColor(Cv.RgbaToGray), src, base);
  }

  lemma CannyLifeOfEdges(before: seq<Cv.Use>, src: Cv.Handle, base: Cv.Handle)
    requires src < base
    ensures CannyLife(before, src, base, base + 1) == before + [Cv.Alloc(Cv.Mat), Cv.Write(Cv.Canny(50, 150))]
  {
    Preprocess.ProducerLifeOfOther(before, Cv.CvtColor(Cv.RgbaToGray), src, base, base + 1);
  }

  lemma CannyHistoryOfSrc(log: seq<Cv.Event>, src: Cv.Handle, base: Cv.Handle)
    requires src < base
    ensures Cv.History(CannyRun(log, src, base), src) == Cv.History(log, src) + [Cv.Read(Cv.CvtColor(Cv.RgbaToGray), 0)]
  {
    CannyHistory(log, src, base, src);
    CannyLifeOfSrc(Cv.History(log, src), src, base);
  }

  lemma CannyHistoryOfGray(log: seq<Cv.Event>, src: Cv.Handle, base: Cv.Handle)
    requires src < base
    ensures Cv.History(CannyRun(log, src, base), base) == Cv.History(log, base) + [Cv.Alloc(Cv.Mat), Cv.Write(Cv.CvtColor(Cv.RgbaToGray)), Cv.Read(Cv.Canny(50, 150), 0), Cv.Free]
  {
    CannyHistory(log, src, base, base);
    CannyLifeOfGray(Cv.History(log, base), src, base);
  }

  lemma CannyHistoryOfEdges(log: seq<Cv.Event>, src: Cv.Handle, base: Cv.Handle)
    requires src < base
    ensures Cv.History(CannyRun(log, src, base), base + 1) == Cv.History(log, base + 1) + [Cv.Alloc(Cv.Mat), Cv.Write(Cv.Canny(50, 150))]
  {
    CannyHistory(log, src, base, base + 1);
    CannyLifeOfEdges(Cv.History(log, base + 1), src, base);
  }

  /**
   * What `Modes.canny` does to every buffer it names: the gray image is written once by
   * the conversion, read once by `cv.Canny` and then deleted.
   */
  lemma CannyLifetimes(log: seq<Cv.Event>, src: Cv.Handle, base: Cv.Handle)
    requires src < base
    ensures var run := CannyRun(log, src, base);
      && Cv.History(run, src) == Cv.History(log, src) + [Cv.Read(Cv.CvtColor(Cv.RgbaToGray), 0)]
      && Cv.History(run, base) == Cv.History(log, base) + [Cv.Alloc(Cv.Mat), Cv.Write(Cv.CvtColor(Cv.RgbaToGray)), Cv.Read(Cv.Canny(50, 150), 0), Cv.Free]
      && Cv.History(run, base + 1) == Cv.History(log, base + 1) + [Cv.Alloc(Cv.Mat), Cv.Write(Cv.Canny(50, 150))]
  {
    CannyHistoryOfSrc(log, src, base);
    CannyHistoryOfGray(log, src, base);
    CannyHistoryOfEdges(log, src, base);
  }

  /**
   * The events of `Modes.canny` after the gray conversion, applied one by one to a
   * replay outcome.
   */
  function CannySteps(o: Cv.Option<set<Cv.Handle>>, src: Cv.Handle, base: Cv.Handle): Cv.Option<set<Cv.Handle>> {
    var gray, edges := base, base + 1;
    var o1 := Cv.Step(o, Cv.New(edges, Cv.Mat));
    var o2 := Cv.Step(o1, Cv.Call(Cv.Canny(50, 150), [gray], [edges]));
    var o3 := Cv.Step(o2, Cv.Delete(gray));
    o3
  }

  lemma {:induction false} CannyReplay(log: seq<Cv.Event>, src: Cv.Handle, base: Cv.Handle)
    ensures Cv.Replay({}, CannyRun(log, src, base)) == CannySteps(Cv.Replay({}, Preprocess.ToGrayRun(log, src, base)), src, base)
  {
    calc {
      Cv.Replay({}, CannyRun(log, src, base));
      == { Cv.ReplaySnoc({}, Preprocess.ToGrayRun(log, src, base) + [Cv.New(base + 1, Cv.Mat)] + [Cv.Call(Cv.Canny(50, 150), [base], [base + 1])], Cv.Delete(base)); }
      Cv.Step(Cv.Replay({}, Preprocess.ToGrayRun(log, src, base) + [Cv.New(base + 1, Cv.Mat)] + [Cv.Call(Cv.Canny(50, 150), [base], [base + 1])]), Cv.Delete(base));
      == { Cv.ReplaySnoc({}, Preprocess.ToGrayRun(log, src, base) + [Cv.New(base + 1, Cv.Mat)], Cv.Call(Cv.Canny(50, 150), [base], [base + 1])); }
      Cv.Step(Cv.Step(Cv.Replay({}, Preprocess.ToGrayRun(log, src, base) + [Cv.New(base + 1, Cv.Mat)]), Cv.Call(Cv.Canny(50, 150), [base], [base + 1])), Cv.Delete(base));
      == { Cv.ReplaySnoc({}, Preprocess.ToGrayRun(log, src, base), Cv.New(base + 1, Cv.Mat)); }
      Cv.Step(Cv.Step(Cv.Step(Cv.Replay({}, Preprocess.ToGrayRun(log, src, base)), Cv.New(base + 1, Cv.Mat)), Cv.Call(Cv.Canny(50, 150), [base], [base + 1])), Cv.Delete(base));
    }
  }

  /**
   * From a live set below `base` holding `src`, plus the gray image, the mode's events
   * leave just the result added.
   */
  lemma CannyStepsFrom(live: set<Cv.Handle>, src: Cv.Handle, base: Cv.Handle)
    requires src in live && Cv.Below(live, base)
    ensures CannySteps(Cv.Some(live + {base}), src, base) == Cv.Some(live + {base + 1})
  {
    var l0 := live + {base};
    var l1 := l0 + {base + 1};
    assert Cv.Step(Cv.Some(l0), Cv.New(base + 1, Cv.Mat)) == Cv.Some(l1);
    assert Cv.Step(Cv.Some(l1), Cv.Call(Cv.Canny(50, 150), [base], [base + 1])) == Cv.Some(l1);
    var l2 := l1 - {base};
    assert Cv.Step(Cv.Some(l1), Cv.Delete(base)) == Cv.Some(l2);
    assert l2 == live + {base + 1};
  }

  lemma CannyReturnsOne(log: seq<Cv.Event>, src: Cv.Handle, base: Cv.Handle)
    requires Cv.Ready(log, base) && src in Cv.LiveAfter(log)
    ensures ModeContract(log, CannyRun(log, src, base), src, base, base + 1, Cv.Canny(50, 150))
    ensures Cv.Ready(CannyRun(log, src, base), base + 2)
  {
    Preprocess.ProducerReturnsOne(log, Cv.CvtColor(Cv.RgbaToGray), src, base);
    CannyReplay(log, src, base);
    CannyStepsFrom(Cv.LiveAfter(log), src, base);
    CannyLifetimes(log, src, base);
  }

  method Canny(a: Cv.Arena, src: Cv.Handle) returns (edges: Cv.Handle)
    requires a.Valid() && src in a.Live()
    modifies a
    ensures edges == old(a.next) + 1 && a.next == edges + 1
    ensures a.log == CannyRun(old(a.log), src, old(a.next))
    ensures a.Valid() && edges !in old(a.Live()) && a.Live() == old(a.Live()) + {edges}
  {
    CannyReturnsOne(a.log, src, a.next);
    var gray := Preprocess.ToGray(a, src);
    edges := a.Alloc(Cv.Mat);
    a.Invoke(Cv.Canny(50, 150), [gray], [edges]);
    a.Delete(gray);
  }

  /** `Modes.sobel`: the 8-bit Sobel derivative of the gray image, orders 1 and 1. */
  function SobelRun(log: seq<Cv.Event>, src: Cv.Handle, base: Cv.Handle): seq<Cv.Event> {
    var gray, grad := base, base + 1;
    Preprocess.ToGrayRun(log, src, gray)
    + [Cv.New(grad, Cv.Mat)]
    + [Cv.Call(Cv.Sobel(Cv.Depth8U, 1, 1), [gray], [grad])]
    + [Cv.Delete(gray)]
  }

  /**
   * The life of `h` after `Modes.sobel`, given its life `before`: what the mode does to
   * it, event by event, appended.
   */
  function SobelLife(before: seq<Cv.Use>, src: Cv.Handle, base: Cv.Handle, h: Cv.Handle): seq<Cv.Use> {
    var gray, grad := base, base + 1;
    Preprocess.ProducerLife(before, Cv.CvtColor(Cv.RgbaToGray), src, gray, h)
    + Cv.UsesOf(Cv.New(grad, Cv.Mat), h)
    + Cv.UsesOf(Cv.Call(Cv.Sobel(Cv.Depth8U, 1, 1), [gray], [grad]), h)
    + Cv.UsesOf(Cv.Delete(gray), h)
  }

  /**
   * The life of any buffer across `Modes.sobel` is its life before, followed by what the
   * mode does to it.
   */
  lemma {:induction false} SobelHistory(log: seq<Cv.Event>, src: Cv.Handle, base: Cv.Handle, h: Cv.Handle)
    ensures Cv.History(SobelRun(log, src, base), h) == SobelLife(Cv.History(log, h), src, base, h)
  {
    calc {
      Cv.History(SobelRun(log, src, base), h);
      == { Cv.HistorySnoc(Preprocess.ToGrayRun(log, src, base) + [Cv.New(base + 1, Cv.Mat)] + [Cv.Call(Cv.Sobel(Cv.Depth8U, 1, 1), [base], [base + 1])], Cv.Delete(base), h); }
      Cv.History(Preprocess.ToGrayRun(log, src, base) + [Cv.New(base + 1, Cv.Mat)] + [Cv.Call(Cv.Sobel(Cv.Depth8U, 1, 1), [base], [base + 1])], h) + Cv.UsesOf(Cv.Delete(base), h);
      == { Cv.HistorySnoc(Preprocess.ToGrayRun(log, src, base) + [Cv.New(base + 1, Cv.Mat)], Cv.Call(Cv.Sobel(Cv.Depth8U, 1, 1), [base], [base + 1]), h); }
      Cv.History(Preprocess.ToGrayRun(log, src, base) + [Cv.New(base + 1, Cv.Mat)], h) + Cv.UsesOf(Cv.Call(Cv.Sobel(Cv.Depth8U, 1, 1), [base], [base + 1]), h) + Cv.UsesOf(Cv.Delete(base), h);
      == { Cv.HistorySnoc(Preprocess.ToGrayRun(log, src, base), Cv.New(base + 1, Cv.Mat), h); }
      Cv.History(Preprocess.ToGrayRun(log, src, base), h) + Cv.UsesOf(Cv.New(base + 1, Cv.Mat), h) + Cv.UsesOf(Cv.Call(Cv.Sobel(Cv.Depth8U, 1, 1), [base], [base + 1]), h) + Cv.UsesOf(Cv.Delete(base), h);
      == { Preprocess.ProducerHistory(log, Cv.CvtColor(Cv.RgbaToGray), src, base, h); }
      Preprocess.ProducerLife(Cv.History(log, h), Cv.CvtColor(Cv.RgbaToGray), src, base, h) + Cv.UsesOf(Cv.New(base + 1, Cv.Mat), h) + Cv.UsesOf(Cv.Call(Cv.Sobel(Cv.Depth8U, 1, 1), [base], [base + 1]), h) + Cv.UsesOf(Cv.Delete(base), h);
    }
  }

  lemma SobelLifeOfSrc(before: seq<Cv.Use>, src: Cv.Handle, base: Cv.Handle)
    requires src < base
    ensures SobelLife(before, src, base, src) == before + [Cv.Read(Cv.CvtColor(Cv.RgbaToGray), 0)]
  {
    Preprocess.ProducerLifeOfInput(before, Cv.CvtColor(Cv.RgbaToGray), src, base);
  }

  lemma SobelLifeOfGray(before: seq<Cv.Use>, src: Cv.Handle, base: Cv.Handle)
    requires src < base
    ensures SobelLife(before, src, base, base) == before + [Cv.Alloc(Cv.Mat), Cv.Write(Cv.CvtColor(Cv.RgbaToGray)), Cv.Read(Cv.Sobel(Cv.Depth8U, 1, 1), 0), Cv.Free]
  {
    Preprocess.ProducerLifeOfResult(before, Cv.CvtColor(Cv.RgbaToGray), src, base);
  }

  lemma SobelLifeOfGrad(before: seq<Cv.Use>, src: Cv.Handle, base: Cv.Handle)
    requires src < base
    ensures SobelLife(before, src, base, base + 1) == before + [Cv.Alloc(Cv.Mat), Cv.Write(Cv.Sobel(Cv.Depth8U, 1, 1))]
  {
    Preprocess.ProducerLifeOfOther(before, Cv.CvtColor(Cv.RgbaToGray), src, base, base + 1);
  }

  lemma SobelHistoryOfSrc(log: seq<Cv.Event>, src: Cv.Handle, base: Cv.Handle)
    requires src < base
    ensures Cv.History(SobelRun(log, src, base), src) == Cv.History(log, src) + [Cv.Read(Cv.CvtColor(Cv.RgbaToGray), 0)]
  {
    SobelHistory(log, src, base, src);
    SobelLifeOfSrc(Cv.History(log, src), src, base);
  }

  lemma SobelHistoryOfGray(log: seq<Cv.Event>, src: Cv.Handle, base: Cv.Handle)
    requires src < base
    ensures Cv.History(SobelRun(log, src, base), base) == Cv.History(log, base) + [Cv.Alloc(Cv.Mat), Cv.Write(Cv.CvtColor(Cv.RgbaToGray)), Cv.Read(Cv.Sobel(Cv.Depth8U, 1, 1), 0), Cv.Free]
  {
    SobelHistory(log, src, base, base);
    SobelLifeOfGray(Cv.History(log, base), src, base);
  }

  lemma SobelHistoryOfGrad(log: seq<Cv.Event>, src: Cv.Handle, base: Cv.Handle)
    requires src < base
    ensures Cv.History(SobelRun(log, src, base), base + 1) == Cv.History(log, base + 1) + [Cv.Alloc(Cv.Mat), Cv.Write(Cv.Sobel(Cv.Depth8U, 1, 1))]
  {
    SobelHistory(log, src, base, base + 1);
    SobelLifeOfGrad(Cv.History(log, base + 1), src, base);
  }

  /**
   * What `Modes.sobel` does to every buffer it names: the gray image is read once, by
   * the 8-bit `cv.Sobel`, and then deleted.
   */
  lemma SobelLifetimes(log: seq<Cv.Event>, src: Cv.Handle, base: Cv.Handle)
    requires src < base
    ensures var run := SobelRun(log, src, base);
      && Cv.History(run, src) == Cv.History(log, src) + [Cv.Read(Cv.CvtColor(Cv.RgbaToGray), 0)]
      && Cv.History(run, base) == Cv.History(log, base) + [Cv.Alloc(Cv.Mat), Cv.Write(Cv.CvtColor(Cv.RgbaToGray)), Cv.Read(Cv.Sobel(Cv.Depth8U, 1, 1), 0), Cv.Free]
      && Cv.History(run, base + 1) == Cv.History(log, base + 1) + [Cv.Alloc(Cv.Mat), Cv.Write(Cv.Sobel(Cv.Depth8U, 1, 1))]
  {
    SobelHistoryOfSrc(log, src, base);
    SobelHistoryOfGray(log, src, base);
    SobelHistoryOfGrad(log, src, base);
  }

  /**
   * The events of `Modes.sobel` after the gray conversion, applied one by one to a
   * replay outcome.
   */
  function SobelSteps(o: Cv.Option<set<Cv.Handle>>, src: Cv.Handle, base: Cv.Handle): Cv.Option<set<Cv.Handle>> {
    var gray, grad := base, base + 1;
    var o1 := Cv.Step(o, Cv.New(grad, Cv.Mat));
    var o2 := Cv.Step(o1, Cv.Call(Cv.Sobel(Cv.Depth8U, 1, 1), [gray], [grad]));
    var o3 := Cv.Step(o2, Cv.Delete(gray));
    o3
  }

  lemma {:induction false} SobelReplay(log: seq<Cv.Event>, src: Cv.Handle, base: Cv.Handle)
    ensures Cv.Replay({}, SobelRun(log, src, base)) == SobelSteps(Cv.Replay({}, Preprocess.ToGrayRun(log, src, base)), src, base)
  {
    calc {
      Cv.Replay({}, SobelRun(log, src, base));
      == { Cv.ReplaySnoc({}, Preprocess.ToGrayRun(log, src, base) + [Cv.New(base + 1, Cv.Mat)] + [Cv.Call(Cv.Sobel(Cv.Depth8U, 1, 1), [base], [base + 1])], Cv.Delete(base)); }
      Cv.Step(Cv.Replay({}, Preprocess.ToGrayRun(log, src, base) + [Cv.New(base + 1, Cv.Mat)] + [Cv.Call(Cv.Sobel(Cv.Depth8U, 1, 1), [base], [base + 1])]), Cv.Delete(base));
      == { Cv.ReplaySnoc({}, Preprocess.ToGrayRun(log, src, base) + [Cv.New(base + 1, Cv.Mat)], Cv.Call(Cv.Sobel(Cv.Depth8U, 1, 1), [base], [base + 1])); }
      Cv.Step(Cv.Step(Cv.Replay({}, Preprocess.ToGrayRun(log, src, base) + [Cv.New(base + 1, Cv.Mat)]), Cv.Call(Cv.Sobel(Cv.Depth8U, 1, 1), [base], [base + 1])), Cv.Delete(base));
      == { Cv.ReplaySnoc({}, Preprocess.ToGrayRun(log, src, base), Cv.New(base + 1, Cv.Mat)); }
      Cv.Step(Cv.Step(Cv.Step(Cv.Replay({}, Preprocess.ToGrayRun(log, src, base)), Cv.New(base + 1, Cv.Mat)), Cv.Call(Cv.Sobel(Cv.Depth8U, 1, 1), [base], [base + 1])), Cv.Delete(base));
    }
  }

  /**
   * From a live set below `base` holding `src`, plus the gray image, the mode's events
   * leave just the result added.
   */
  lemma SobelStepsFrom(live: set<Cv.Handle>, src: Cv.Handle, base: Cv.Handle)
    requires src in live && Cv.Below(live, base)
    ensures SobelSteps(Cv.Some(live + {base}), src, base) == Cv.Some(live + {base + 1})
  {
    var l0 := live + {base};
    var l1 := l0 + {base + 1};
    assert Cv.Step(Cv.Some(l0), Cv.New(base + 1, Cv.Mat)) == Cv.Some(l1);
    assert Cv.Step(Cv.Some(l1), Cv.Call(Cv.Sobel(Cv.Depth8U, 1, 1), [base], [base + 1])) == Cv.Some(l1);
    var l2 := l1 - {base};
    assert Cv.Step(Cv.Some(l1), Cv.Delete(base)) == Cv.Some(l2);
    assert l2 == live + {base + 1};
  }

  lemma SobelReturnsOne(log: seq<Cv.Event>, src: Cv.Handle, base: Cv.Handle)
    requires Cv.Ready(log, base) && src in Cv.LiveAfter(log)
    ensures ModeContract(log, SobelRun(log, src, base), src, base, base + 1, Cv.Sobel(Cv.Depth8U, 1, 1))
    ensures Cv.Ready(SobelRun(log, src, base), base + 2)
  {
    Preprocess.ProducerReturnsOne(log, Cv.CvtColor(Cv.RgbaToGray), src, base);
    SobelReplay(log, src, base);
    SobelStepsFrom(Cv.LiveAfter(log), src, base);
    SobelLifetimes(log, src, base);
  }

  method Sobel(a: Cv.Arena, src: Cv.Handle) returns (grad: Cv.Handle)
    requires a.Valid() && src in a.Live()
    modifies a
    ensures grad == old(a.next) + 1 && a.next == grad + 1
    ensures a.log == SobelRun(old(a.log), src, old(a.next))
    ensures a.Valid() && grad !in old(a.Live()) && a.Live() == old(a.Live()) + {grad}
  {
    SobelReturnsOne(a.log, src, a.next);
    var gray := Preprocess.ToGray(a, src);
    grad := a.Alloc(Cv.Mat);
    a.Invoke(Cv.Sobel(Cv.Depth8U, 1, 1), [gray], [grad]);
    a.Delete(gray);
  }

  /** `Modes.log`: a 3x3 Gaussian blur with sigma 0, then the 8-bit Laplacian. */
  function LogRun(log: seq<Cv.Event>, src: Cv.Handle, base: Cv.Handle): seq<Cv.Event> {
    var gray, blur, lap := base, base + 1, base + 2;
    Preprocess.ToGrayRun(log, src, gray)
    + [Cv.New(blur, Cv.Mat)]
    + [Cv.Call(Cv.GaussianBlur(3, 0), [gray], [blur])]
    + [Cv.New(lap, Cv.Mat)]
    + [Cv.Call(Cv.Laplacian(Cv.Depth8U), [blur], [lap])]
    + [Cv.Delete(gray)]
    + [Cv.Delete(blur)]
  }

  /**
   * The life of `h` after `Modes.log`, given its life `before`: what the mode does to
   * it, event by event, appended.
   */
  function LogLife(before: seq<Cv.Use>, src: Cv.Handle, base: Cv.Handle, h: Cv.Handle): seq<Cv.Use> {
    var gray, blur, lap := base, base + 1, base + 2;
    Preprocess.ProducerLife(before, Cv.CvtColor(Cv.RgbaToGray), src, gray, h)
    + Cv.UsesOf(Cv.New(blur, Cv.Mat), h)
    + Cv.UsesOf(Cv.Call(Cv.GaussianBlur(3, 0), [gray], [blur]), h)
    + Cv.UsesOf(Cv.New(lap, Cv.Mat), h)
    + Cv.UsesOf(Cv.Call(Cv.Laplacian(Cv.Depth8U), [blur], [lap]), h)
    + Cv.UsesOf(Cv.Delete(gray), h)
    + Cv.UsesOf(Cv.Delete(blur), h)
  }

  /**
   * The life of any buffer across `Modes.log` is its life before, followed by what the
   * mode does to it.
   */
  lemma {:induction false} LogHistory(log: seq<Cv.Event>, src: Cv.Handle, base: Cv.Handle, h: Cv.Handle)
    ensures Cv.History(LogRun(log, src, base), h) == LogLife(Cv.History(log, h), src, base, h)
  {
    calc {
      Cv.History(LogRun(log, src, base), h);
      == { Cv.HistorySnoc(Preprocess.ToGrayRun(log, src, base) + [Cv.New(base + 1, Cv.Mat)] + [Cv.Call(Cv.GaussianBlur(3, 0), [base], [base + 1])] + [Cv.New(base + 2, Cv.Mat)] + [Cv.Call(Cv.Laplacian(Cv.Depth8U), [base + 1], [base + 2])] + [Cv.Delete(base)], Cv.Delete(base + 1), h); }
      Cv.History(Preprocess.ToGrayRun(log, src, base) + [Cv.New(base + 1, Cv.Mat)] + [Cv.Call(Cv.GaussianBlur(3, 0), [base], [base + 1])] + [Cv.New(base + 2, Cv.Mat)] + [Cv.Call(Cv.Laplacian(Cv.Depth8U), [base + 1], [base + 2])] + [Cv.Delete(base)], h) + Cv.UsesOf(Cv.Delete(base + 1), h);
      == { Cv.HistorySnoc(Preprocess.ToGrayRun(log, src, base) + [Cv.New(base + 1, Cv.Mat)] + [Cv.Call(Cv.GaussianBlur(3, 0), [base], [base + 1])] + [Cv.New(base + 2, Cv.Mat)] + [Cv.Call(Cv.Laplacian(Cv.Depth8U), [base + 1], [base + 2])], Cv.Delete(base), h); }
      Cv.History(Preprocess.ToGrayRun(log, src, base) + [Cv.New(base + 1, Cv.Mat)] + [Cv.Call(Cv.GaussianBlur(3, 0), [base], [base + 1])] + [Cv.New(base + 2, Cv.Mat)] + [Cv.Call(Cv.Laplacian(Cv.Depth8U), [base + 1], [base + 2])], h) + Cv.UsesOf(Cv.Delete(base), h) + Cv.UsesOf(Cv.Delete(base + 1), h);
      == { Cv.HistorySnoc(Preprocess.ToGrayRun(log, src, base) + [Cv.New(base + 1, Cv.Mat)] + [Cv.Call(Cv.GaussianBlur(3, 0), [base], [base + 1])] + [Cv.New(base + 2, Cv.Mat)], Cv.Call(Cv.Laplacian(Cv.Depth8U), [base + 1], [base + 2]), h); }
      Cv.History(Preprocess.ToGrayRun(log, src, base) + [Cv.New(base + 1, Cv.Mat)] + [Cv.Call(Cv.GaussianBlur(3, 0), [base], [base + 1])] + [Cv.New(base + 2, Cv.Mat)], h) + Cv.UsesOf(Cv.Call(Cv.Laplacian(Cv.Depth8U), [base + 1], [base + 2]), h) + Cv.UsesOf(Cv.Delete(base), h) + Cv.UsesOf(Cv.Delete(base + 1), h);
      == { Cv.HistorySnoc(Preprocess.ToGrayRun(log, src, base) + [Cv.New(base + 1, Cv.Mat)] + [Cv.Call(Cv.GaussianBlur(3, 0), [base], [base + 1])], Cv.New(base + 2, Cv.Mat), h); }
      Cv.History(Preprocess.ToGrayRun(log, src, base) + [Cv.New(base + 1, Cv.Mat)] + [Cv.Call(Cv.GaussianBlur(3, 0), [base], [base + 1])], h) + Cv.UsesOf(Cv.New(base + 2, Cv.Mat), h) + Cv.UsesOf(Cv.Call(Cv.Laplacian(Cv.Depth8U), [base + 1], [base + 2]), h) + Cv.UsesOf(Cv.Delete(base), h) + Cv.UsesOf(Cv.Delete(base + 1), h);
      == { Cv.HistorySnoc(Preprocess.ToGrayRun(log, src, base) + [Cv.New(base + 1, Cv.Mat)], Cv.Call(Cv.GaussianBlur(3, 0), [base], [base + 1]), h); }
      Cv.History(Preprocess.ToGrayRun(log, src, base) + [Cv.New(base + 1, Cv.Mat)], h) + Cv.UsesOf(Cv.Call(Cv.GaussianBlur(3, 0), [base], [base + 1]), h) + Cv.UsesOf(Cv.New(base + 2, Cv.Mat), h) + Cv.UsesOf(Cv.Call(Cv.Laplacian(Cv.Depth8U), [base + 1], [base + 2]), h) + Cv.UsesOf(Cv.Delete(base), h) + Cv.UsesOf(Cv.Delete(base + 1), h);
      == { Cv.HistorySnoc(Preprocess.ToGrayRun(log, src, base), Cv.New(base + 1, Cv.Mat), h); }
      Cv.History(Preprocess.ToGrayRun(log, src, base), h) + Cv.UsesOf(Cv.New(base + 1, Cv.Mat), h) + Cv.UsesOf(Cv.Call(Cv.GaussianBlur(3, 0), [base], [base + 1]), h) + Cv.UsesOf(Cv.New(base + 2, Cv.Mat), h) + Cv.UsesOf(Cv.Call(Cv.Laplacian(Cv.Depth8U), [base + 1], [base + 2]), h) + Cv.UsesOf(Cv.Delete(base), h) + Cv.UsesOf(Cv.Delete(base + 1), h);
      == { Preprocess.ProducerHistory(log, Cv.CvtColor(Cv.RgbaToGray), src, base, h); }
      Preprocess.ProducerLife(Cv.History(log, h), Cv.CvtColor(Cv.RgbaToGray), src, base, h) + Cv.UsesOf(Cv.New(base + 1, Cv.Mat), h) + Cv.UsesOf(Cv.Call(Cv.GaussianBlur(3, 0), [base], [base + 1]), h) + Cv.UsesOf(Cv.New(base + 2, Cv.Mat), h) + Cv.UsesOf(Cv.Call(Cv.Laplacian(Cv.Depth8U), [base + 1], [base + 2]), h) + Cv.UsesOf(Cv.Delete(base), h) + Cv.UsesOf(Cv.Delete(base + 1), h);
    }
  }

  lemma LogLifeOfSrc(before: seq<Cv.Use>, src: Cv.Handle, base: Cv.Handle)
    requires src < base
    ensures LogLife(before, src, base, src) == before + [Cv.Read(Cv.CvtColor(Cv.RgbaToGray), 0)]
  {
    Preprocess.ProducerLifeOfInput(before, Cv.CvtColor(Cv.RgbaToGray), src, base);
  }

  lemma LogLifeOfGray(before: seq<Cv.Use>, src: Cv.Handle, base: Cv.Handle)
    requires src < base
    ensures LogLife(before, src, base, base) == before + [Cv.Alloc(Cv.Mat), Cv.Write(Cv.CvtColor(Cv.RgbaToGray)), Cv.Read(Cv.GaussianBlur(3, 0), 0), Cv.Free]
  {
    Preprocess.ProducerLifeOfResult(before, Cv.CvtColor(Cv.RgbaToGray), src, base);
  }

  lemma LogLifeOfBlur(before: seq<Cv.Use>, src: Cv.Handle, base: Cv.Handle)
    requires src < base
    ensures LogLife(before, src, base, base + 1) == before + [Cv.Alloc(Cv.Mat), Cv.Write(Cv.GaussianBlur(3, 0)), Cv.Read(Cv.Laplacian(Cv.Depth8U), 0), Cv.Free]
  {
    Preprocess.ProducerLifeOfOther(before, Cv.CvtColor(Cv.RgbaToGray), src, base, base + 1);
  }

  lemma LogLifeOfLap(before: seq<Cv.Use>, src: Cv.Handle, base: Cv.Handle)
    requires src < base
    ensures LogLife(before, src, base, base + 2) == before + [Cv.Alloc(Cv.Mat), Cv.Write(Cv.Laplacian(Cv.Depth8U))]
  {
    Preprocess.ProducerLifeOfOther(before, Cv.CvtColor(Cv.RgbaToGray), src, base, base + 2);
  }

  lemma LogHistoryOfSrc(log: seq<Cv.Event>, src: Cv.Handle, base: Cv.Handle)
    requires src < base
    ensures Cv.History(LogRun(log, src, base), src) == Cv.History(log, src) + [Cv.Read(Cv.CvtColor(Cv.RgbaToGray), 0)]
  {
    LogHistory(log, src, base, src);
    LogLifeOfSrc(Cv.History(log, src), src, base);
  }

  lemma LogHistoryOfGray(log: seq<Cv.Event>, src: Cv.Handle, base: Cv.Handle)
    requires src < base
    ensures Cv.History(LogRun(log, src, base), base) == Cv.History(log, base) + [Cv.Alloc(Cv.Mat), Cv.Write(Cv.CvtColor(Cv.RgbaToGray)), Cv.Read(Cv.GaussianBlur(3, 0), 0), Cv.Free]
  {
    LogHistory(log, src, base, base);
    LogLifeOfGray(Cv.History(log, base), src, base);
  }

  lemma LogHistoryOfBlur(log: seq<Cv.Event>, src: Cv.Handle, base: Cv.Handle)
    requires src < base
    ensures Cv.History(LogRun(log, src, base), base + 1) == Cv.History(log, base + 1) + [Cv.Alloc(Cv.Mat), Cv.Write(Cv.GaussianBlur(3, 0)), Cv.Read(Cv.Laplacian(Cv.Depth8U), 0), Cv.Free]
  {
    LogHistory(log, src, base, base + 1);
    LogLifeOfBlur(Cv.History(log, base + 1), src, base);
  }

  lemma LogHistoryOfLap(log: seq<Cv.Event>, src: Cv.Handle, base: Cv.Handle)
    requires src < base
    ensures Cv.History(LogRun(log, src, base), base + 2) == Cv.History(log, base + 2) + [Cv.Alloc(Cv.Mat), Cv.Write(Cv.Laplacian(Cv.Depth8U))]
  {
    LogHistory(log, src, base, base + 2);
    LogLifeOfLap(Cv.History(log, base + 2), src, base);
  }

  /**
   * What `Modes.log` does to every buffer it names: the gray image is read only by the
   * 3x3 blur; the blurred image is written by that blur, read only by `cv.Laplacian`,
   * and deleted.
   */
  lemma LogLifetimes(log: seq<Cv.Event>, src: Cv.Handle, base: Cv.Handle)
    requires src < base
    ensures var run := LogRun(log, src, base);
      && Cv.History(run, src) == Cv.History(log, src) + [Cv.Read(Cv.CvtColor(Cv.RgbaToGray), 0)]
      && Cv.History(run, base) == Cv.History(log, base) + [Cv.Alloc(Cv.Mat), Cv.Write(Cv.CvtColor(Cv.RgbaToGray)), Cv.Read(Cv.GaussianBlur(3, 0), 0), Cv.Free]
      && Cv.History(run, base + 1) == Cv.History(log, base + 1) + [Cv.Alloc(Cv.Mat), Cv.Write(Cv.GaussianBlur(3, 0)), Cv.Read(Cv.Laplacian(Cv.Depth8U), 0), Cv.Free]
      && Cv.History(run, base + 2) == Cv.History(log, base + 2) + [Cv.Alloc(Cv.Mat), Cv.Write(Cv.Laplacian(Cv.Depth8U))]
  {
    LogHistoryOfSrc(log, src, base);
    LogHistoryOfGray(log, src, base);
    LogHistoryOfBlur(log, src, base);
    LogHistoryOfLap(log, src, base);
  }

  /**
   * The events of `Modes.log` after the gray conversion, applied one by one to a replay
   * outcome.
   */
  function LogSteps(o: Cv.Option<set<Cv.Handle>>, src: Cv.Handle, base: Cv.Handle): Cv.Option<set<Cv.Handle>> {
    var gray, blur, lap := base, base + 1, base + 2;
    var o1 := Cv.Step(o, Cv.New(blur, Cv.Mat));
    var o2 := Cv.Step(o1, Cv.Call(Cv.GaussianBlur(3, 0), [gray], [blur]));
    var o3 := Cv.Step(o2, Cv.New(lap, Cv.Mat));
    var o4 := Cv.Step(o3, Cv.Call(Cv.Laplacian(Cv.Depth8U), [blur], [lap]));
    var o5 := Cv.Step(o4, Cv.Delete(gray));
    var o6 := Cv.Step(o5, Cv.Delete(blur));
    o6
  }

  lemma {:induction false} LogReplay(log: seq<Cv.Event>, src: Cv.Handle, base: Cv.Handle)
    ensures Cv.Replay({}, LogRun(log, src, base)) == LogSteps(Cv.Replay({}, Preprocess.ToGrayRun(log, src, base)), src, base)
  {
    calc {
      Cv.Replay({}, LogRun(log, src, base));
      == { Cv.ReplaySnoc({}, Preprocess.ToGrayRun(log, src, base) + [Cv.New(base + 1, Cv.Mat)] + [Cv.Call(Cv.GaussianBlur(3, 0), [base], [base + 1])] + [Cv.New(base + 2, Cv.Mat)] + [Cv.Call(Cv.Laplacian(Cv.Depth8U), [base + 1], [base + 2])] + [Cv.Delete(base)], Cv.Delete(base + 1)); }
      Cv.Step(Cv.Replay({}, Preprocess.ToGrayRun(log, src, base) + [Cv.New(base + 1, Cv.Mat)] + [Cv.Call(Cv.GaussianBlur(3, 0), [base], [base + 1])] + [Cv.New(base + 2, Cv.Mat)] + [Cv.Call(Cv.Laplacian(Cv.Depth8U), [base + 1], [base + 2])] + [Cv.Delete(base)]), Cv.Delete(base + 1));
      == { Cv.ReplaySnoc({}, Preprocess.ToGrayRun(log, src, base) + [Cv.New(base + 1, Cv.Mat)] + [Cv.Call(Cv.GaussianBlur(3, 0), [base], [base + 1])] + [Cv.New(base + 2, Cv.Mat)] + [Cv.Call(Cv.Laplacian(Cv.Depth8U), [base + 1], [base + 2])], Cv.Delete(base)); }
      Cv.Step(Cv.Step(Cv.Replay({}, Preprocess.ToGrayRun(log, src, base) + [Cv.New(base + 1, Cv.Mat)] + [Cv.Call(Cv.GaussianBlur(3, 0), [base], [base + 1])] + [Cv.New(base + 2, Cv.Mat)] + [Cv.Call(Cv.Laplacian(Cv.Depth8U), [base + 1], [base + 2])]), Cv.Delete(base)), Cv.Delete(base + 1));
      == { Cv.ReplaySnoc({}, Preprocess.ToGrayRun(log, src, base) + [Cv.New(base + 1, Cv.Mat)] + [Cv.Call(Cv.GaussianBlur(3, 0), [base], [base + 1])] + [Cv.New(base + 2, Cv.Mat)], Cv.Call(Cv.Laplacian(Cv.Depth8U), [base + 1], [base + 2])); }
      Cv.Step(Cv.Step(Cv.Step(Cv.Replay({}, Preprocess.ToGrayRun(log, src, base) + [Cv.New(base + 1, Cv.Mat)] + [Cv.Call(Cv.GaussianBlur(3, 0), [base], [base + 1])] + [Cv.New(base + 2, Cv.Mat)]), Cv.Call(Cv.Laplacian(Cv.Depth8U), [base + 1], [base + 2])), Cv.Delete(base)), Cv.Delete(base + 1));
      == { Cv.ReplaySnoc({}, Preprocess.ToGrayRun(log, src, base) + [Cv.New(base + 1, Cv.Mat)] + [Cv.Call(Cv.GaussianBlur(3, 0), [base], [base + 1])], Cv.New(base + 2, Cv.Mat)); }
      Cv.Step(Cv.Step(Cv.Step(Cv.Step(Cv.Replay({}, Preprocess.ToGrayRun(log, src, base) + [Cv.New(base + 1, Cv.Mat)] + [Cv.Call(Cv.GaussianBlur(3, 0), [base], [base + 1])]), Cv.New(base + 2, Cv.Mat)), Cv.Call(Cv.Laplacian(Cv.Depth8U), [base + 1], [base + 2])), Cv.Delete(base)), Cv.Delete(base + 1));
      == { Cv.ReplaySnoc({}, Preprocess.ToGrayRun(log, src, base) + [Cv.New(base + 1, Cv.Mat)], Cv.Call(Cv.GaussianBlur(3, 0), [base], [base + 1])); }
      Cv.Step(Cv.Step(Cv.Step(Cv.Step(Cv.Step(Cv.Replay({}, Preprocess.ToGrayRun(log, src, base) + [Cv.New(base + 1, Cv.Mat)]), Cv.Call(Cv.GaussianBlur(3, 0), [base], [base + 1])), Cv.New(base + 2, Cv.Mat)), Cv.Call(Cv.Laplacian(Cv.Depth8U), [base + 1], [base + 2])), Cv.Delete(base)), Cv.Delete(base + 1));
      == { Cv.ReplaySnoc({}, Preprocess.ToGrayRun(log, src, base), Cv.New(base + 1, Cv.Mat)); }
      Cv.Step(Cv.Step(Cv.Step(Cv.Step(Cv.Step(Cv.Step(Cv.Replay({}, Preprocess.ToGrayRun(log, src, base)), Cv.New(base + 1, Cv.Mat)), Cv.Call(Cv.GaussianBlur(3, 0), [base], [base + 1])), Cv.New(base + 2, Cv.Mat)), Cv.Call(Cv.Laplacian(Cv.Depth8U), [base + 1], [base + 2])), Cv.Delete(base)), Cv.Delete(base + 1));
    }
  }

  /**
   * From a live set below `base` holding `src`, plus the gray image, the mode's events
   * leave just the result added.
   */
  lemma LogStepsFrom(live: set<Cv.Handle>, src: Cv.Handle, base: Cv.Handle)
    requires src in live && Cv.Below(live, base)
    ensures LogSteps(Cv.Some(live + {base}), src, base) == Cv.Some(live + {base + 2})
  {
    var l0 := live + {base};
    var l1 := l0 + {base + 1};
    assert Cv.Step(Cv.Some(l0), Cv.New(base + 1, Cv.Mat)) == Cv.Some(l1);
    assert Cv.Step(Cv.Some(l1), Cv.Call(Cv.GaussianBlur(3, 0), [base], [base + 1])) == Cv.Some(l1);
    var l2 := l1 + {base + 2};
    assert Cv.Step(Cv.Some(l1), Cv.New(base + 2, Cv.Mat)) == Cv.Some(l2);
    assert Cv.Step(Cv.Some(l2), Cv.Call(Cv.Laplacian(Cv.Depth8U), [base + 1], [base + 2])) == Cv.Some(l2);
    var l3 := l2 - {base};
    assert Cv.Step(Cv.Some(l2), Cv.Delete(base)) == Cv.Some(l3);
    var l4 := l3 - {base + 1};
    assert Cv.Step(Cv.Some(l3), Cv.Delete(base + 1)) == Cv.Some(l4);
    assert l4 == live + {base + 2};
  }

  lemma LogReturnsOne(log: seq<Cv.Event>, src: Cv.Handle, base: Cv.Handle)
    requires Cv.Ready(log, base) && src in Cv.LiveAfter(log)
    ensures ModeContract(log, LogRun(log, src, base), src, base, base + 2, Cv.Laplacian(Cv.Depth8U))
    ensures Cv.Ready(LogRun(log, src, base), base + 3)
  {
    Preprocess.ProducerReturnsOne(log, Cv.CvtColor(Cv.RgbaToGray), src, base);
    LogReplay(log, src, base);
    LogStepsFrom(Cv.LiveAfter(log), src, base);
    LogLifetimes(log, src, base);
  }

  method Log(a: Cv.Arena, src: Cv.Handle) returns (lap: Cv.Handle)
    requires a.Valid() && src in a.Live()
    modifies a
    ensures lap == old(a.next) + 2 && a.next == lap + 1
    ensures a.log == LogRun(old(a.log), src, old(a.next))
    ensures a.Valid() && lap !in old(a.Live()) && a.Live() == old(a.Live()) + {lap}
  {
    LogReturnsOne(a.log, src, a.next);
    var gray := Preprocess.ToGray(a, src);
    var blur := a.Alloc(Cv.Mat);
    a.Invoke(Cv.GaussianBlur(3, 0), [gray], [blur]);
    lap := a.Alloc(Cv.Mat);
    a.Invoke(Cv.Laplacian(Cv.Depth8U), [blur], [lap]);
    a.Delete(gray);
    a.Delete(blur);
  }

  /** `Modes.dog`: the difference of a 3x3 blur with sigma 1 and one with sigma 2. */
  function DogRun(log: seq<Cv.Event>, src: Cv.Handle, base: Cv.Handle): seq<Cv.Event> {
    var gray, g1, g2, dst := base, base + 1, base + 2, base + 3;
    Preprocess.ToGrayRun(log, src, gray)
    + [Cv.New(g1, Cv.Mat)]
    + [Cv.New(g2, Cv.Mat)]
    + [Cv.Call(Cv.GaussianBlur(3, 1), [gray], [g1])]
    + [Cv.Call(Cv.GaussianBlur(3, 2), [gray], [g2])]
    + [Cv.New(dst, Cv.Mat)]
    + [Cv.Call(Cv.Subtract, [g1, g2], [dst])]
    + [Cv.Delete(gray)]
    + [Cv.Delete(g1)]
    + [Cv.Delete(g2)]
  }

  /**
   * The life of `h` after `Modes.dog`, given its life `before`: what the mode does to
   * it, event by event, appended.
   */
  function DogLife(before: seq<Cv.Use>, src: Cv.Handle, base: Cv.Handle, h: Cv.Handle): seq<Cv.Use> {
    var gray, g1, g2, dst := base, base + 1, base + 2, base + 3;
    Preprocess.ProducerLife(before, Cv.CvtColor(Cv.RgbaToGray), src, gray, h)
    + Cv.UsesOf(Cv.New(g1, Cv.Mat), h)
    + Cv.UsesOf(Cv.New(g2, Cv.Mat), h)
    + Cv.UsesOf(Cv.Call(Cv.GaussianBlur(3, 1), [gray], [g1]), h)
    + Cv.UsesOf(Cv.Call(Cv.GaussianBlur(3, 2), [gray], [g2]), h)
    + Cv.UsesOf(Cv.New(dst, Cv.Mat), h)
    + Cv.UsesOf(Cv.Call(Cv.Subtract, [g1, g2], [dst]), h)
    + Cv.UsesOf(Cv.Delete(gray), h)
    + Cv.UsesOf(Cv.Delete(g1), h)
    + Cv.UsesOf(Cv.Delete(g2), h)
  }

  /**
   * The life of any buffer across `Modes.dog` is its life before, followed by what the
   * mode does to it.
   */
  lemma {:induction false} DogHistory(log: seq<Cv.Event>, src: Cv.Handle, base: Cv.Handle, h: Cv.Handle)
    ensures Cv.History(DogRun(log, src, base), h) == DogLife(Cv.History(log, h), src, base, h)
  {
    calc {
      Cv.History(DogRun(log, src, base), h);
      == { Cv.HistorySnoc(Preprocess.ToGrayRun(log, src, base) + [Cv.New(base + 1, Cv.Mat)] + [Cv.New(base + 2, Cv.Mat)] + [Cv.Call(Cv.GaussianBlur(3, 1), [base], [base + 1])] + [Cv.Call(Cv.GaussianBlur(3, 2), [base], [base + 2])] + [Cv.New(base + 3, Cv.Mat)] + [Cv.Call(Cv.Subtract, [base + 1, base + 2], [base + 3])] + [Cv.Delete(base)] + [Cv.Delete(base + 1)], Cv.Delete(base + 2), h); }
      Cv.History(Preprocess.ToGrayRun(log, src, base) + [Cv.New(base + 1, Cv.Mat)] + [Cv.New(base + 2, Cv.Mat)] + [Cv.Call(Cv.GaussianBlur(3, 1), [base], [base + 1])] + [Cv.Call(Cv.GaussianBlur(3, 2), [base], [base + 2])] + [Cv.New(base + 3, Cv.Mat)] + [Cv.Call(Cv.Subtract, [base + 1, base + 2], [base + 3])] + [Cv.Delete(base)] + [Cv.Delete(base + 1)], h) + Cv.UsesOf(Cv.Delete(base + 2), h);
      == { Cv.HistorySnoc(Preprocess.ToGrayRun(log, src, base) + [Cv.New(base + 1, Cv.Mat)] + [Cv.New(base + 2, Cv.Mat)] + [Cv.Call(Cv.GaussianBlur(3, 1), [base], [base + 1])] + [Cv.Call(Cv.GaussianBlur(3, 2), [base], [base + 2])] + [Cv.New(base + 3, Cv.Mat)] + [Cv.Call(Cv.Subtract, [base + 1, base + 2], [base + 3])] + [Cv.Delete(base)], Cv.Delete(base + 1), h); }
      Cv.History(Preprocess.ToGrayRun(log, src, base) + [Cv.New(base + 1, Cv.Mat)] + [Cv.New(base + 2, Cv.Mat)] + [Cv.Call(Cv.GaussianBlur(3, 1), [base], [base + 1])] + [Cv.Call(Cv.GaussianBlur(3, 2), [base], [base + 2])] + [Cv.New(base + 3, Cv.Mat)] + [Cv.Call(Cv.Subtract, [base + 1, base + 2], [base + 3])] + [Cv.Delete(base)], h) + Cv.UsesOf(Cv.Delete(base + 1), h) + Cv.UsesOf(Cv.Delete(base + 2), h);
      == { Cv.HistorySnoc(Preprocess.ToGrayRun(log, src, base) + [Cv.New(base + 1, Cv.Mat)] + [Cv.New(base + 2, Cv.Mat)] + [Cv.Call(Cv.GaussianBlur(3, 1), [base], [base + 1])] + [Cv.Call(Cv.GaussianBlur(3, 2), [base], [base + 2])] + [Cv.New(base + 3, Cv.Mat)] + [Cv.Call(Cv.Subtract, [base + 1, base + 2], [base + 3])], Cv.Delete(base), h); }
      Cv.History(Preprocess.ToGrayRun(log, src, base) + [Cv.New(base + 1, Cv.Mat)] + [Cv.New(base + 2, Cv.Mat)] + [Cv.Call(Cv.GaussianBlur(3, 1), [base], [base + 1])] + [Cv.Call(Cv.GaussianBlur(3, 2), [base], [base + 2])] + [Cv.New(base + 3, Cv.Mat)] + [Cv.Call(Cv.Subtract, [base + 1, base + 2], [base + 3])], h) + Cv.UsesOf(Cv.Delete(base), h) + Cv.UsesOf(Cv.Delete(base + 1), h) + Cv.UsesOf(Cv.Delete(base + 2), h);
      == { Cv.HistorySnoc(Preprocess.ToGrayRun(log, src, base) + [Cv.New(base + 1, Cv.Mat)] + [Cv.New(base + 2, Cv.Mat)] + [Cv.Call(Cv.GaussianBlur(3, 1), [base], [base + 1])] + [Cv.Call(Cv.GaussianBlur(3, 2), [base], [base + 2])] + [Cv.New(base + 3, Cv.Mat)], Cv.Call(Cv.Subtract, [base + 1, base + 2], [base + 3]), h); }
      Cv.History(Preprocess.ToGrayRun(log, src, base) + [Cv.New(base + 1, Cv.Mat)] + [Cv.New(base + 2, Cv.Mat)] + [Cv.Call(Cv.GaussianBlur(3, 1), [base], [base + 1])] + [Cv.Call(Cv.GaussianBlur(3, 2), [base], [base + 2])] + [Cv.New(base + 3, Cv.Mat)], h) + Cv.UsesOf(Cv.Call(Cv.Subtract, [base + 1, base + 2], [base + 3]), h) + Cv.UsesOf(Cv.Delete(base), h) + Cv.UsesOf(Cv.Delete(base + 1), h) + Cv.UsesOf(Cv.Delete(base + 2), h);
      == { Cv.HistorySnoc(Preprocess.ToGrayRun(log, src, base) + [Cv.New(base + 1, Cv.Mat)] + [Cv.New(base + 2, Cv.Mat)] + [Cv.Call(Cv.GaussianBlur(3, 1), [base], [base + 1])] + [Cv.Call(Cv.GaussianBlur(3, 2), [base], [base + 2])], Cv.New(base + 3, Cv.Mat), h); }
      Cv.History(Preprocess.ToGrayRun(log, src, base) + [Cv.New(base + 1, Cv.Mat)] + [Cv.New(base + 2, Cv.Mat)] + [Cv.Call(Cv.GaussianBlur(3, 1), [base], [base + 1])] + [Cv.Call(Cv.GaussianBlur(3, 2), [base], [base + 2])], h) + Cv.UsesOf(Cv.New(base + 3, Cv.Mat), h) + Cv.UsesOf(Cv.Call(Cv.Subtract, [base + 1, base + 2], [base + 3]), h) + Cv.UsesOf(Cv.Delete(base), h) + Cv.UsesOf(Cv.Delete(base + 1), h) + Cv.UsesOf(Cv.Delete(base + 2), h);
      == { Cv.HistorySnoc(Preprocess.ToGrayRun(log, src, base) + [Cv.New(base + 1, Cv.Mat)] + [Cv.New(base + 2, Cv.Mat)] + [Cv.Call(Cv.GaussianBlur(3, 1), [base], [base + 1])], Cv.Call(Cv.GaussianBlur(3, 2), [base], [base + 2]), h); }
      Cv.History(Preprocess.ToGrayRun(log, src, base) + [Cv.New(base + 1, Cv.Mat)] + [Cv.New(base + 2, Cv.Mat)] + [Cv.Call(Cv.GaussianBlur(3, 1), [base], [base + 1])], h) + Cv.UsesOf(Cv.Call(Cv.GaussianBlur(3, 2), [base], [base + 2]), h) + Cv.UsesOf(Cv.New(base + 3, Cv.Mat), h) + Cv.UsesOf(Cv.Call(Cv.Subtract, [base + 1, base + 2], [base + 3]), h) + Cv.UsesOf(Cv.Delete(base), h) + Cv.UsesOf(Cv.Delete(base + 1), h) + Cv.UsesOf(Cv.Delete(base + 2), h);
      == { Cv.HistorySnoc(Preprocess.ToGrayRun(log, src, base) + [Cv.New(base + 1, Cv.Mat)] + [Cv.New(base + 2, Cv.Mat)], Cv.Call(Cv.GaussianBlur(3, 1), [base], [base + 1]), h); }
      Cv.History(Preprocess.ToGrayRun(log, src, base) + [Cv.New(base + 1, Cv.Mat)] + [Cv.New(base + 2, Cv.Mat)], h) + Cv.UsesOf(Cv.Call(Cv.GaussianBlur(3, 1), [base], [base + 1]), h) + Cv.UsesOf(Cv.Call(Cv.GaussianBlur(3, 2), [base], [base + 2]), h) + Cv.UsesOf(Cv.New(base + 3, Cv.Mat), h) + Cv.UsesOf(Cv.Call(Cv.Subtract, [base + 1, base + 2], [base + 3]), h) + Cv.UsesOf(Cv.Delete(base), h) + Cv.UsesOf(Cv.Delete(base + 1), h) + Cv.UsesOf(Cv.Delete(base + 2), h);
      == { Cv.HistorySnoc(Preprocess.ToGrayRun(log, src, base) + [Cv.New(base + 1, Cv.Mat)], Cv.New(base + 2, Cv.Mat), h); }
      Cv.History(Preprocess.ToGrayRun(log, src, base) + [Cv.New(base + 1, Cv.Mat)], h) + Cv.UsesOf(Cv.New(base + 2, Cv.Mat), h) + Cv.UsesOf(Cv.Call(Cv.GaussianBlur(3, 1), [base], [base + 1]), h) + Cv.UsesOf(Cv.Call(Cv.GaussianBlur(3, 2), [base], [base + 2]), h) + Cv.UsesOf(Cv.New(base + 3, Cv.Mat), h) + Cv.UsesOf(Cv.Call(Cv.Subtract, [base + 1, base + 2], [base + 3]), h) + Cv.UsesOf(Cv.Delete(base), h) + Cv.UsesOf(Cv.Delete(base + 1), h) + Cv.UsesOf(Cv.Delete(base + 2), h);
      == { Cv.HistorySnoc(Preprocess.ToGrayRun(log, src, base), Cv.New(base + 1, Cv.Mat), h); }
      Cv.History(Preprocess.ToGrayRun(log, src, base), h) + Cv.UsesOf(Cv.New(base + 1, Cv.Mat), h) + Cv.UsesOf(Cv.New(base + 2, Cv.Mat), h) + Cv.UsesOf(Cv.Call(Cv.GaussianBlur(3, 1), [base], [base + 1]), h) + Cv.UsesOf(Cv.Call(Cv.GaussianBlur(3, 2), [base], [base + 2]), h) + Cv.UsesOf(Cv.New(base + 3, Cv.Mat), h) + Cv.UsesOf(Cv.Call(Cv.Subtract, [base + 1, base + 2], [base + 3]), h) + Cv.UsesOf(Cv.Delete(base), h) + Cv.UsesOf(Cv.Delete(base + 1), h) + Cv.UsesOf(Cv.Delete(base + 2), h);
      == { Preprocess.ProducerHistory(log, Cv.CvtColor(Cv.RgbaToGray), src, base, h); }
      Preprocess.ProducerLife(Cv.History(log, h), Cv.CvtColor(Cv.RgbaToGray), src, base, h) + Cv.UsesOf(Cv.New(base + 1, Cv.Mat), h) + Cv.UsesOf(Cv.New(base + 2, Cv.Mat), h) + Cv.UsesOf(Cv.Call(Cv.GaussianBlur(3, 1), [base], [base + 1]), h) + Cv.UsesOf(Cv.Call(Cv.GaussianBlur(3, 2), [base], [base + 2]), h) + Cv.UsesOf(Cv.New(base + 3, Cv.Mat), h) + Cv.UsesOf(Cv.Call(Cv.Subtract, [base + 1, base + 2], [base + 3]), h) + Cv.UsesOf(Cv.Delete(base), h) + Cv.UsesOf(Cv.Delete(base + 1), h) + Cv.UsesOf(Cv.Delete(base + 2), h);
    }
  }

  lemma DogLifeOfSrc(before: seq<Cv.Use>, src: Cv.Handle, base: Cv.Handle)
    requires src < base
    ensures DogLife(before, src, base, src) == before + [Cv.Read(Cv.CvtColor(Cv.RgbaToGray), 0)]
  {
    Preprocess.ProducerLifeOfInput(before, Cv.CvtColor(Cv.RgbaToGray), src, base);
  }

  lemma DogLifeOfGray(before: seq<Cv.Use>, src: Cv.Handle, base: Cv.Handle)
    requires src < base
    ensures DogLife(before, src, base, base) == before + [Cv.Alloc(Cv.Mat), Cv.Write(Cv.CvtColor(Cv.RgbaToGray)), Cv.Read(Cv.GaussianBlur(3, 1), 0), Cv.Read(Cv.GaussianBlur(3, 2), 0), Cv.Free]
  {
    Preprocess.ProducerLifeOfResult(before, Cv.CvtColor(Cv.RgbaToGray), src, base);
  }

  lemma DogLifeOfG1(before: seq<Cv.Use>, src: Cv.Handle, base: Cv.Handle)
    requires src < base
    ensures DogLife(before, src, base, base + 1) == before + [Cv.Alloc(Cv.Mat), Cv.Write(Cv.GaussianBlur(3, 1)), Cv.Read(Cv.Subtract, 0), Cv.Free]
  {
    Preprocess.ProducerLifeOfOther(before, Cv.CvtColor(Cv.RgbaToGray), src, base, base + 1);
  }

  lemma DogLifeOfG2(before: seq<Cv.Use>, src: Cv.Handle, base: Cv.Handle)
    requires src < base
    ensures DogLife(before, src, base, base + 2) == before + [Cv.Alloc(Cv.Mat), Cv.Write(Cv.GaussianBlur(3, 2)), Cv.Read(Cv.Subtract, 1), Cv.Free]
  {
    assert Cv.IndexOf([base + 1, base + 2], base + 2) == 1;
    Preprocess.ProducerLifeOfOther(before, Cv.CvtColor(Cv.RgbaToGray), src, base, base + 2);
  }

  lemma DogLifeOfDst(before: seq<Cv.Use>, src: Cv.Handle, base: Cv.Handle)
    requires src < base
    ensures DogLife(before, src, base, base + 3) == before + [Cv.Alloc(Cv.Mat), Cv.Write(Cv.Subtract)]
  {
    Preprocess.ProducerLifeOfOther(before, Cv.CvtColor(Cv.RgbaToGray), src, base, base + 3);
  }

  lemma DogHistoryOfSrc(log: seq<Cv.Event>, src: Cv.Handle, base: Cv.Handle)
    requires src < base
    ensures Cv.History(DogRun(log, src, base), src) == Cv.History(log, src) + [Cv.Read(Cv.CvtColor(Cv.RgbaToGray), 0)]
  {
    DogHistory(log, src, base, src);
    DogLifeOfSrc(Cv.History(log, src), src, base);
  }

  lemma DogHistoryOfGray(log: seq<Cv.Event>, src: Cv.Handle, base: Cv.Handle)
    requires src < base
    ensures Cv.History(DogRun(log, src, base), base) == Cv.History(log, base) + [Cv.Alloc(Cv.Mat), Cv.Write(Cv.CvtColor(Cv.RgbaToGray)), Cv.Read(Cv.GaussianBlur(3, 1), 0), Cv.Read(Cv.GaussianBlur(3, 2), 0), Cv.Free]
  {
    DogHistory(log, src, base, base);
    DogLifeOfGray(Cv.History(log, base), src, base);
  }

  lemma DogHistoryOfG1(log: seq<Cv.Event>, src: Cv.Handle, base: Cv.Handle)
    requires src < base
    ensures Cv.History(DogRun(log, src, base), base + 1) == Cv.History(log, base + 1) + [Cv.Alloc(Cv.Mat), Cv.Write(Cv.GaussianBlur(3, 1)), Cv.Read(Cv.Subtract, 0), Cv.Free]
  {
    DogHistory(log, src, base, base + 1);
    DogLifeOfG1(Cv.History(log, base + 1), src, base);
  }

  lemma DogHistoryOfG2(log: seq<Cv.Event>, src: Cv.Handle, base: Cv.Handle)
    requires src < base
    ensures Cv.History(DogRun(log, src, base), base + 2) == Cv.History(log, base + 2) + [Cv.Alloc(Cv.Mat), Cv.Write(Cv.GaussianBlur(3, 2)), Cv.Read(Cv.Subtract, 1), Cv.Free]
  {
    DogHistory(log, src, base, base + 2);
    DogLifeOfG2(Cv.History(log, base + 2), src, base);
  }

  lemma DogHistoryOfDst(log: seq<Cv.Event>, src: Cv.Handle, base: Cv.Handle)
    requires src < base
    ensures Cv.History(DogRun(log, src, base), base + 3) == Cv.History(log, base + 3) + [Cv.Alloc(Cv.Mat), Cv.Write(Cv.Subtract)]
  {
    DogHistory(log, src, base, base + 3);
    DogLifeOfDst(Cv.History(log, base + 3), src, base);
  }

  /**
   * What `Modes.dog` does to every buffer it names: the gray image is read by the two
   * 3x3 blurs, sigma 1 then sigma 2; the narrow blur is the minuend and the wide one the
   * subtrahend of `cv.subtract`, and both are deleted after it.
   */
  lemma DogLifetimes(log: seq<Cv.Event>, src: Cv.Handle, base: Cv.Handle)
    requires src < base
    ensures var run := DogRun(log, src, base);
      && Cv.History(run, src) == Cv.History(log, src) + [Cv.Read(Cv.CvtColor(Cv.RgbaToGray), 0)]
      && Cv.History(run, base) == Cv.History(log, base) + [Cv.Alloc(Cv.Mat), Cv.Write(Cv.CvtColor(Cv.RgbaToGray)), Cv.Read(Cv.GaussianBlur(3, 1), 0), Cv.Read(Cv.GaussianBlur(3, 2), 0), Cv.Free]
      && Cv.History(run, base + 1) == Cv.History(log, base + 1) + [Cv.Alloc(Cv.Mat), Cv.Write(Cv.GaussianBlur(3, 1)), Cv.Read(Cv.Subtract, 0), Cv.Free]
      && Cv.History(run, base + 2) == Cv.History(log, base + 2) + [Cv.Alloc(Cv.Mat), Cv.Write(Cv.GaussianBlur(3, 2)), Cv.Read(Cv.Subtract, 1), Cv.Free]
      && Cv.History(run, base + 3) == Cv.History(log, base + 3) + [Cv.Alloc(Cv.Mat), Cv.Write(Cv.Subtract)]
  {
    DogHistoryOfSrc(log, src, base);
    DogHistoryOfGray(log, src, base);
    DogHistoryOfG1(log, src, base);
    DogHistoryOfG2(log, src, base);
    DogHistoryOfDst(log, src, base);
  }

  /**
   * The events of `Modes.dog` after the gray conversion, applied one by one to a replay
   * outcome.
   */
  function DogSteps(o: Cv.Option<set<Cv.Handle>>, src: Cv.Handle, base: Cv.Handle): Cv.Option<set<Cv.Handle>> {
    var gray, g1, g2, dst := base, base + 1, base + 2, base + 3;
    var o1 := Cv.Step(o, Cv.New(g1, Cv.Mat));
    var o2 := Cv.Step(o1, Cv.New(g2, Cv.Mat));
    var o3 := Cv.Step(o2, Cv.Call(Cv.GaussianBlur(3, 1), [gray], [g1]));
    var o4 := Cv.Step(o3, Cv.Call(Cv.GaussianBlur(3, 2), [gray], [g2]));
    var o5 := Cv.Step(o4, Cv.New(dst, Cv.Mat));
    var o6 := Cv.Step(o5, Cv.Call(Cv.Subtract, [g1, g2], [dst]));
    var o7 := Cv.Step(o6, Cv.Delete(gray));
    var o8 := Cv.Step(o7, Cv.Delete(g1));
    var o9 := Cv.Step(o8, Cv.Delete(g2));
    o9
  }

  lemma {:induction false} DogReplay(log: seq<Cv.Event>, src: Cv.Handle, base: Cv.Handle)
    ensures Cv.Replay({}, DogRun(log, src, base)) == DogSteps(Cv.Replay({}, Preprocess.ToGrayRun(log, src, base)), src, base)
  {
    calc {
      Cv.Replay({}, DogRun(log, src, base));
      == { Cv.ReplaySnoc({}, Preprocess.ToGrayRun(log, src, base) + [Cv.New(base + 1, Cv.Mat)] + [Cv.New(base + 2, Cv.Mat)] + [Cv.Call(Cv.GaussianBlur(3, 1), [base], [base + 1])] + [Cv.Call(Cv.GaussianBlur(3, 2), [base], [base + 2])] + [Cv.New(base + 3, Cv.Mat)] + [Cv.Call(Cv.Subtract, [base + 1, base + 2], [base + 3])] + [Cv.Delete(base)] + [Cv.Delete(base + 1)], Cv.Delete(base + 2)); }
      Cv.Step(Cv.Replay({}, Preprocess.ToGrayRun(log, src, base) + [Cv.New(base + 1, Cv.Mat)] + [Cv.New(base + 2, Cv.Mat)] + [Cv.Call(Cv.GaussianBlur(3, 1), [base], [base + 1])] + [Cv.Call(Cv.GaussianBlur(3, 2), [base], [base + 2])] + [Cv.New(base + 3, Cv.Mat)] + [Cv.Call(Cv.Subtract, [base + 1, base + 2], [base + 3])] + [Cv.Delete(base)] + [Cv.Delete(base + 1)]), Cv.Delete(base + 2));
      == { Cv.ReplaySnoc({}, Preprocess.ToGrayRun(log, src, base) + [Cv.New(base + 1, Cv.Mat)] + [Cv.New(base + 2, Cv.Mat)] + [Cv.Call(Cv.GaussianBlur(3, 1), [base], [base + 1])] + [Cv.Call(Cv.GaussianBlur(3, 2), [base], [base + 2])] + [Cv.New(base + 3, Cv.Mat)] + [Cv.Call(Cv.Subtract, [base + 1, base + 2], [base + 3])] + [Cv.Delete(base)], Cv.Delete(base + 1)); }
      Cv.Step(Cv.Step(Cv.Replay({}, Preprocess.ToGrayRun(log, src, base) + [Cv.New(base + 1, Cv.Mat)] + [Cv.New(base + 2, Cv.Mat)] + [Cv.Call(Cv.GaussianBlur(3, 1), [base], [base + 1])] + [Cv.Call(Cv.GaussianBlur(3, 2), [base], [base + 2])] + [Cv.New(base + 3, Cv.Mat)] + [Cv.Call(Cv.Subtract, [base + 1, base + 2], [base + 3])] + [Cv.Delete(base)]), Cv.Delete(base + 1)), Cv.Delete(base + 2));
      == { Cv.ReplaySnoc({}, Preprocess.ToGrayRun(log, src, base) + [Cv.New(base + 1, Cv.Mat)] + [Cv.New(base + 2, Cv.Mat)] + [Cv.Call(Cv.GaussianBlur(3, 1), [base], [base + 1])] + [Cv.Call(Cv.GaussianBlur(3, 2), [base], [base + 2])] + [Cv.New(base + 3, Cv.Mat)] + [Cv.Call(Cv.Subtract, [base + 1, base + 2], [base + 3])], Cv.Delete(base)); }
      Cv.Step(Cv.Step(Cv.Step(Cv.Replay({}, Preprocess.ToGrayRun(log, src, base) + [Cv.New(base + 1, Cv.Mat)] + [Cv.New(base + 2, Cv.Mat)] + [Cv.Call(Cv.GaussianBlur(3, 1), [base], [base + 1])] + [Cv.Call(Cv.GaussianBlur(3, 2), [base], [base + 2])] + [Cv.New(base + 3, Cv.Mat)] + [Cv.Call(Cv.Subtract, [base + 1, base + 2], [base + 3])]), Cv.Delete(base)), Cv.Delete(base + 1)), Cv.Delete(base + 2));
      == { Cv.ReplaySnoc({}, Preprocess.ToGrayRun(log, src, base) + [Cv.New(base + 1, Cv.Mat)] + [Cv.New(base + 2, Cv.Mat)] + [Cv.Call(Cv.GaussianBlur(3, 1), [base], [base + 1])] + [Cv.Call(Cv.GaussianBlur(3, 2), [base], [base + 2])] + [Cv.New(base + 3, Cv.Mat)], Cv.Call(Cv.Subtract, [base + 1, base + 2], [base + 3])); }
      Cv.Step(Cv.Step(Cv.Step(Cv.Step(Cv.Replay({}, Preprocess.ToGrayRun(log, src, base) + [Cv.New(base + 1, Cv.Mat)] + [Cv.New(base + 2, Cv.Mat)] + [Cv.Call(Cv.GaussianBlur(3, 1), [base], [base + 1])] + [Cv.Call(Cv.GaussianBlur(3, 2), [base], [base + 2])] + [Cv.New(base + 3, Cv.Mat)]), Cv.Call(Cv.Subtract, [base + 1, base + 2], [base + 3])), Cv.Delete(base)), Cv.Delete(base + 1)), Cv.Delete(base + 2));
      == { Cv.ReplaySnoc({}, Preprocess.ToGrayRun(log, src, base) + [Cv.New(base + 1, Cv.Mat)] + [Cv.New(base + 2, Cv.Mat)] + [Cv.Call(Cv.GaussianBlur(3, 1), [base], [base + 1])] + [Cv.Call(Cv.GaussianBlur(3, 2), [base], [base + 2])], Cv.New(base + 3, Cv.Mat)); }
      Cv.Step(Cv.Step(Cv.Step(Cv.Step(Cv.Step(Cv.Replay({}, Preprocess.ToGrayRun(log, src, base) + [Cv.New(base + 1, Cv.Mat)] + [Cv.New(base + 2, Cv.Mat)] + [Cv.Call(Cv.GaussianBlur(3, 1), [base], [base + 1])] + [Cv.Call(Cv.GaussianBlur(3, 2), [base], [base + 2])]), Cv.New(base + 3, Cv.Mat)), Cv.Call(Cv.Subtract, [base + 1, base + 2], [base + 3])), Cv.Delete(base)), Cv.Delete(base + 1)), Cv.Delete(base + 2));
      == { Cv.ReplaySnoc({}, Preprocess.ToGrayRun(log, src, base) + [Cv.New(base + 1, Cv.Mat)] + [Cv.New(base + 2, Cv.Mat)] + [Cv.Call(Cv.GaussianBlur(3, 1), [base], [base + 1])], Cv.Call(Cv.GaussianBlur(3, 2), [base], [base + 2])); }
      Cv.Step(Cv.Step(Cv.Step(Cv.Step(Cv.Step(Cv.Step(Cv.Replay({}, Preprocess.ToGrayRun(log, src, base) + [Cv.New(base + 1, Cv.Mat)] + [Cv.New(base + 2, Cv.Mat)] + [Cv.Call(Cv.GaussianBlur(3, 1), [base], [base + 1])]), Cv.Call(Cv.GaussianBlur(3, 2), [base], [base + 2])), Cv.New(base + 3, Cv.Mat)), Cv.Call(Cv.Subtract, [base + 1, base + 2], [base + 3])), Cv.Delete(base)), Cv.Delete(base + 1)), Cv.Delete(base + 2));
      == { Cv.ReplaySnoc({}, Preprocess.ToGrayRun(log, src, base) + [Cv.New(base + 1, Cv.Mat)] + [Cv.New(base + 2, Cv.Mat)], Cv.Call(Cv.GaussianBlur(3, 1), [base], [base + 1])); }
      Cv.Step(Cv.Step(Cv.Step(Cv.Step(Cv.Step(Cv.Step(Cv.Step(Cv.Replay({}, Preprocess.ToGrayRun(log, src, base) + [Cv.New(base + 1, Cv.Mat)] + [Cv.New(base + 2, Cv.Mat)]), Cv.Call(Cv.GaussianBlur(3, 1), [base], [base + 1])), Cv.Call(Cv.GaussianBlur(3, 2), [base], [base + 2])), Cv.New(base + 3, Cv.Mat)), Cv.Call(Cv.Subtract, [base + 1, base + 2], [base + 3])), Cv.Delete(base)), Cv.Delete(base + 1)), Cv.Delete(base + 2));
      == { Cv.ReplaySnoc({}, Preprocess.ToGrayRun(log, src, base) + [Cv.New(base + 1, Cv.Mat)], Cv.New(base + 2, Cv.Mat)); }
      Cv.Step(Cv.Step(Cv.Step(Cv.Step(Cv.Step(Cv.Step(Cv.Step(Cv.Step(Cv.Replay({}, Preprocess.ToGrayRun(log, src, base) + [Cv.New(base + 1, Cv.Mat)]), Cv.New(base + 2, Cv.Mat)), Cv.Call(Cv.GaussianBlur(3, 1), [base], [base + 1])), Cv.Call(Cv.GaussianBlur(3, 2), [base], [base + 2])), Cv.New(base + 3, Cv.Mat)), Cv.Call(Cv.Subtract, [base + 1, base + 2], [base + 3])), Cv.Delete(base)), Cv.Delete(base + 1)), Cv.Delete(base + 2));
      == { Cv.ReplaySnoc({}, Preprocess.ToGrayRun(log, src, base), Cv.New(base + 1, Cv.Mat)); }
      Cv.Step(Cv.Step(Cv.Step(Cv.Step(Cv.Step(Cv.Step(Cv.Step(Cv.Step(Cv.Step(Cv.Replay({}, Preprocess.ToGrayRun(log, src, base)), Cv.New(base + 1, Cv.Mat)), Cv.New(base + 2, Cv.Mat)), Cv.Call(Cv.GaussianBlur(3, 1), [base], [base + 1])), Cv.Call(Cv.GaussianBlur(3, 2), [base], [base + 2])), Cv.New(base + 3, Cv.Mat)), Cv.Call(Cv.Subtract, [base + 1, base + 2], [base + 3])), Cv.Delete(base)), Cv.Delete(base + 1)), Cv.Delete(base + 2));
    }
  }

  /**
   * From a live set below `base` holding `src`, plus the gray image, the mode's events
   * leave just the result added.
   */
  lemma DogStepsFrom(live: set<Cv.Handle>, src: Cv.Handle, base: Cv.Handle)
    requires src in live && Cv.Below(live, base)
    ensures DogSteps(Cv.Some(live + {base}), src, base) == Cv.Some(live + {base + 3})
  {
    var l0 := live + {base};
    var l1 := l0 + {base + 1};
    assert Cv.Step(Cv.Some(l0), Cv.New(base + 1, Cv.Mat)) == Cv.Some(l1);
    var l2 := l1 + {base + 2};
    assert Cv.Step(Cv.Some(l1), Cv.New(base + 2, Cv.Mat)) == Cv.Some(l2);
    assert Cv.Step(Cv.Some(l2), Cv.Call(Cv.GaussianBlur(3, 1), [base], [base + 1])) == Cv.Some(l2);
    assert Cv.Step(Cv.Some(l2), Cv.Call(Cv.GaussianBlur(3, 2), [base], [base + 2])) == Cv.Some(l2);
    var l3 := l2 + {base + 3};
    assert Cv.Step(Cv.Some(l2), Cv.New(base + 3, Cv.Mat)) == Cv.Some(l3);
    assert Cv.Step(Cv.Some(l3), Cv.Call(Cv.Subtract, [base + 1, base + 2], [base + 3])) == Cv.Some(l3);
    var l4 := l3 - {base};
    assert Cv.Step(Cv.Some(l3), Cv.Delete(base)) == Cv.Some(l4);
    var l5 := l4 - {base + 1};
    assert Cv.Step(Cv.Some(l4), Cv.Delete(base + 1)) == Cv.Some(l5);
    var l6 := l5 - {base + 2};
    assert Cv.Step(Cv.Some(l5), Cv.Delete(base + 2)) == Cv.Some(l6);
    assert l6 == live + {base + 3};
  }

  lemma DogReturnsOne(log: seq<Cv.Event>, src: Cv.Handle, base: Cv.Handle)
    requires Cv.Ready(log, base) && src in Cv.LiveAfter(log)
    ensures ModeContract(log, DogRun(log, src, base), src, base, base + 3, Cv.Subtract)
    ensures Cv.Ready(DogRun(log, src, base), base + 4)
  {
    Preprocess.ProducerReturnsOne(log, Cv.CvtColor(Cv.RgbaToGray), src, base);
    DogReplay(log, src, base);
    DogStepsFrom(Cv.LiveAfter(log), src, base);
    DogLifetimes(log, src, base);
  }

  method Dog(a: Cv.Arena, src: Cv.Handle) returns (dst: Cv.Handle)
    requires a.Valid() && src in a.Live()
    modifies a
    ensures dst == old(a.next) + 3 && a.next == dst + 1
    ensures a.log == DogRun(old(a.log), src, old(a.next))
    ensures a.Valid() && dst !in old(a.Live()) && a.Live() == old(a.Live()) + {dst}
  {
    DogReturnsOne(a.log, src, a.next);
    var gray := Preprocess.ToGray(a, src);
    var g1 := a.Alloc(Cv.Mat);
    var g2 := a.Alloc(Cv.Mat);
    a.Invoke(Cv.GaussianBlur(3, 1), [gray], [g1]);
    a.Invoke(Cv.GaussianBlur(3, 2), [gray], [g2]);
    dst := a.Alloc(Cv.Mat);
    a.Invoke(Cv.Subtract, [g1, g2], [dst]);
    a.Delete(gray);
    a.Delete(g1);
    a.Delete(g2);
  }

  /**
   * `Modes.depthLike`: the gradient magnitude, the mean of the absolute 16-bit x- and
   * y-derivatives.
   */
  function DepthLikeRun(log: seq<Cv.Event>, src: Cv.Handle, base: Cv.Handle): seq<Cv.Event> {
    var gray, gx, gy, dst := base, base + 1, base + 2, base + 3;
    Preprocess.ToGrayRun(log, src, gray)
    + [Cv.New(gx, Cv.Mat)]
    + [Cv.New(gy, Cv.Mat)]
    + [Cv.Call(Cv.Sobel(Cv.Depth16S, 1, 0), [gray], [gx])]
    + [Cv.Call(Cv.Sobel(Cv.Depth16S, 0, 1), [gray], [gy])]
    + [Cv.Call(Cv.ConvertScaleAbs, [gx], [gx])]
    + [Cv.Call(Cv.ConvertScaleAbs, [gy], [gy])]
    + [Cv.New(dst, Cv.Mat)]
    + [Cv.Call(Cv.AddWeighted(50, 50, 0), [gx, gy], [dst])]
    + [Cv.Delete(gray)]
    + [Cv.Delete(gx)]
    + [Cv.Delete(gy)]
  }

  /**
   * The life of `h` after `Modes.depthLike`, given its life `before`: what the mode does
   * to it, event by event, appended.
   */
  function DepthLikeLife(before: seq<Cv.Use>, src: Cv.Handle, base: Cv.Handle, h: Cv.Handle): seq<Cv.Use> {
    var gray, gx, gy, dst := base, base + 1, base + 2, base + 3;
    Preprocess.ProducerLife(before, Cv.CvtColor(Cv.RgbaToGray), src, gray, h)
    + Cv.UsesOf(Cv.New(gx, Cv.Mat), h)
    + Cv.UsesOf(Cv.New(gy, Cv.Mat), h)
    + Cv.UsesOf(Cv.Call(Cv.Sobel(Cv.Depth16S, 1, 0), [gray], [gx]), h)
    + Cv.UsesOf(Cv.Call(Cv.Sobel(Cv.Depth16S, 0, 1), [gray], [gy]), h)
    + Cv.UsesOf(Cv.Call(Cv.ConvertScaleAbs, [gx], [gx]), h)
    + Cv.UsesOf(Cv.Call(Cv.ConvertScaleAbs, [gy], [gy]), h)
    + Cv.UsesOf(Cv.New(dst, Cv.Mat), h)
    + Cv.UsesOf(Cv.Call(Cv.AddWeighted(50, 50, 0), [gx, gy], [dst]), h)
    + Cv.UsesOf(Cv.Delete(gray), h)
    + Cv.UsesOf(Cv.Delete(gx), h)
    + Cv.UsesOf(Cv.Delete(gy), h)
  }

  /**
   * The life of any buffer across `Modes.depthLike` is its life before, followed by what
   * the mode does to it.
   */
  lemma {:induction false} DepthLikeHistory(log: seq<Cv.Event>, src: Cv.Handle, base: Cv.Handle, h: Cv.Handle)
    ensures Cv.History(DepthLikeRun(log, src, base), h) == DepthLikeLife(Cv.History(log, h), src, base, h)
  {
    calc {
      Cv.History(DepthLikeRun(log, src, base), h);
      == { Cv.HistorySnoc(Preprocess.ToGrayRun(log, src, base) + [Cv.New(base + 1, Cv.Mat)] + [Cv.New(base + 2, Cv.Mat)] + [Cv.Call(Cv.Sobel(Cv.Depth16S, 1, 0), [base], [base + 1])] + [Cv.Call(Cv.Sobel(Cv.Depth16S, 0, 1), [base], [base + 2])] + [Cv.Call(Cv.ConvertScaleAbs, [base + 1], [base + 1])] + [Cv.Call(Cv.ConvertScaleAbs, [base + 2], [base + 2])] + [Cv.New(base + 3, Cv.Mat)] + [Cv.Call(Cv.AddWeighted(50, 50, 0), [base + 1, base + 2], [base + 3])] + [Cv.Delete(base)] + [Cv.Delete(base + 1)], Cv.Delete(base + 2), h); }
      Cv.History(Preprocess.ToGrayRun(log, src, base) + [Cv.New(base + 1, Cv.Mat)] + [Cv.New(base + 2, Cv.Mat)] + [Cv.Call(Cv.Sobel(Cv.Depth16S, 1, 0), [base], [base + 1])] + [Cv.Call(Cv.Sobel(Cv.Depth16S, 0, 1), [base], [base + 2])] + [Cv.Call(Cv.ConvertScaleAbs, [base + 1], [base + 1])] + [Cv.Call(Cv.ConvertScaleAbs, [base + 2], [base + 2])] + [Cv.New(base + 3, Cv.Mat)] + [Cv.Call(Cv.AddWeighted(50, 50, 0), [base + 1, base + 2], [base + 3])] + [Cv.Delete(base)] + [Cv.Delete(base + 1)], h) + Cv.UsesOf(Cv.Delete(base + 2), h);
      == { Cv.HistorySnoc(Preprocess.ToGrayRun(log, src, base) + [Cv.New(base + 1, Cv.Mat)] + [Cv.New(base + 2, Cv.Mat)] + [Cv.Call(Cv.Sobel(Cv.Depth16S, 1, 0), [base], [base + 1])] + [Cv.Call(Cv.Sobel(Cv.Depth16S, 0, 1), [base], [base + 2])] + [Cv.Call(Cv.ConvertScaleAbs, [base + 1], [base + 1])] + [Cv.Call(Cv.ConvertScaleAbs, [base + 2], [base + 2])] + [Cv.New(base + 3, Cv.Mat)] + [Cv.Call(Cv.AddWeighted(50, 50, 0), [base + 1, base + 2], [base + 3])] + [Cv.Delete(base)], Cv.Delete(base + 1), h); }
      Cv.History(Preprocess.ToGrayRun(log, src, base) + [Cv.New(base + 1, Cv.Mat)] + [Cv.New(base + 2, Cv.Mat)] + [Cv.Call(Cv.Sobel(Cv.Depth16S, 1, 0), [base], [base + 1])] + [Cv.Call(Cv.Sobel(Cv.Depth16S, 0, 1), [base], [base + 2])] + [Cv.Call(Cv.ConvertScaleAbs, [base + 1], [base + 1])] + [Cv.Call(Cv.ConvertScaleAbs, [base + 2], [base + 2])] + [Cv.New(base + 3, Cv.Mat)] + [Cv.Call(Cv.AddWeighted(50, 50, 0), [base + 1, base + 2], [base + 3])] + [Cv.Delete(base)], h) + Cv.UsesOf(Cv.Delete(base + 1), h) + Cv.UsesOf(Cv.Delete(base + 2), h);
      == { Cv.HistorySnoc(Preprocess.ToGrayRun(log, src, base) + [Cv.New(base + 1, Cv.Mat)] + [Cv.New(base + 2, Cv.Mat)] + [Cv.Call(Cv.Sobel(Cv.Depth16S, 1, 0), [base], [base + 1])] + [Cv.Call(Cv.Sobel(Cv.Depth16S, 0, 1), [base], [base + 2])] + [Cv.Call(Cv.ConvertScaleAbs, [base + 1], [base + 1])] + [Cv.Call(Cv.ConvertScaleAbs, [base + 2], [base + 2])] + [Cv.New(base + 3, Cv.Mat)] + [Cv.Call(Cv.AddWeighted(50, 50, 0), [base + 1, base + 2], [base + 3])], Cv.Delete(base), h); }
      Cv.History(Preprocess.ToGrayRun(log, src, base) + [Cv.New(base + 1, Cv.Mat)] + [Cv.New(base + 2, Cv.Mat)] + [Cv.Call(Cv.Sobel(Cv.Depth16S, 1, 0), [base], [base + 1])] + [Cv.Call(Cv.Sobel(Cv.Depth16S, 0, 1), [base], [base + 2])] + [Cv.Call(Cv.ConvertScaleAbs, [base + 1], [base + 1])] + [Cv.Call(Cv.ConvertScaleAbs, [base + 2], [base + 2])] + [Cv.New(base + 3, Cv.Mat)] + [Cv.Call(Cv.AddWeighted(50, 50, 0), [base + 1, base + 2], [base + 3])], h) + Cv.UsesOf(Cv.Delete(base), h) + Cv.UsesOf(Cv.Delete(base + 1), h) + Cv.UsesOf(Cv.Delete(base + 2), h);
      == { Cv.HistorySnoc(Preprocess.ToGrayRun(log, src, base) + [Cv.New(base + 1, Cv.Mat)] + [Cv.New(base + 2, Cv.Mat)] + [Cv.Call(Cv.Sobel(Cv.Depth16S, 1, 0), [base], [base + 1])] + [Cv.Call(Cv.Sobel(Cv.Depth16S, 0, 1), [base], [base + 2])] + [Cv.Call(Cv.ConvertScaleAbs, [base + 1], [base + 1])] + [Cv.Call(Cv.ConvertScaleAbs, [base + 2], [base + 2])] + [Cv.New(base + 3, Cv.Mat)], Cv.Call(Cv.AddWeighted(50, 50, 0), [base + 1, base + 2], [base + 3]), h); }
      Cv.History(Preprocess.ToGrayRun(log, src, base) + [Cv.New(base + 1, Cv.Mat)] + [Cv.New(base + 2, Cv.Mat)] + [Cv.Call(Cv.Sobel(Cv.Depth16S, 1, 0), [base], [base + 1])] + [Cv.Call(Cv.Sobel(Cv.Depth16S, 0, 1), [base], [base + 2])] + [Cv.Call(Cv.ConvertScaleAbs, [base + 1], [base + 1])] + [Cv.Call(Cv.ConvertScaleAbs, [base + 2], [base + 2])] + [Cv.New(base + 3, Cv.Mat)], h) + Cv.UsesOf(Cv.Call(Cv.AddWeighted(50, 50, 0), [base + 1, base + 2], [base + 3]), h) + Cv.UsesOf(Cv.Delete(base), h) + Cv.UsesOf(Cv.Delete(base + 1), h) + Cv.UsesOf(Cv.Delete(base + 2), h);
      == { Cv.HistorySnoc(Preprocess.ToGrayRun(log, src, base) + [Cv.New(base + 1, Cv.Mat)] + [Cv.New(base + 2, Cv.Mat)] + [Cv.Call(Cv.Sobel(Cv.Depth16S, 1, 0), [base], [base + 1])] + [Cv.Call(Cv.Sobel(Cv.Depth16S, 0, 1), [base], [base + 2])] + [Cv.Call(Cv.ConvertScaleAbs, [base + 1], [base + 1])] + [Cv.Call(Cv.ConvertScaleAbs, [base + 2], [base + 2])], Cv.New(base + 3, Cv.Mat), h); }
      Cv.History(Preprocess.ToGrayRun(log, src, base) + [Cv.New(base + 1, Cv.Mat)] + [Cv.New(base + 2, Cv.Mat)] + [Cv.Call(Cv.Sobel(Cv.Depth16S, 1, 0), [base], [base + 1])] + [Cv.Call(Cv.Sobel(Cv.Depth16S, 0, 1), [base], [base + 2])] + [Cv.Call(Cv.ConvertScaleAbs, [base + 1], [base + 1])] + [Cv.Call(Cv.ConvertScaleAbs, [base + 2], [base + 2])], h) + Cv.UsesOf(Cv.New(base + 3, Cv.Mat), h) + Cv.UsesOf(Cv.Call(Cv.AddWeighted(50, 50, 0), [base + 1, base + 2], [base + 3]), h) + Cv.UsesOf(Cv.Delete(base), h) + Cv.UsesOf(Cv.Delete(base + 1), h) + Cv.UsesOf(Cv.Delete(base + 2), h);
      == { Cv.HistorySnoc(Preprocess.ToGrayRun(log, src, base) + [Cv.New(base + 1, Cv.Mat)] + [Cv.New(base + 2, Cv.Mat)] + [Cv.Call(Cv.Sobel(Cv.Depth16S, 1, 0), [base], [base + 1])] + [Cv.Call(Cv.Sobel(Cv.Depth16S, 0, 1), [base], [base + 2])] + [Cv.Call(Cv.ConvertScaleAbs, [base + 1], [base + 1])], Cv.Call(Cv.ConvertScaleAbs, [base + 2], [base + 2]), h); }
      Cv.History(Preprocess.ToGrayRun(log, src, base) + [Cv.New(base + 1, Cv.Mat)] + [Cv.New(base + 2, Cv.Mat)] + [Cv.Call(Cv.Sobel(Cv.Depth16S, 1, 0), [base], [base + 1])] + [Cv.Call(Cv.Sobel(Cv.Depth16S, 0, 1), [base], [base + 2])] + [Cv.Call(Cv.ConvertScaleAbs, [base + 1], [base + 1])], h) + Cv.UsesOf(Cv.Call(Cv.ConvertScaleAbs, [base + 2], [base + 2]), h) + Cv.UsesOf(Cv.New(base + 3, Cv.Mat), h) + Cv.UsesOf(Cv.Call(Cv.AddWeighted(50, 50, 0), [base + 1, base + 2], [base + 3]), h) + Cv.UsesOf(Cv.Delete(base), h) + Cv.UsesOf(Cv.Delete(base + 1), h) + Cv.UsesOf(Cv.Delete(base + 2), h);
      == { Cv.HistorySnoc(Preprocess.ToGrayRun(log, src, base) + [Cv.New(base + 1, Cv.Mat)] + [Cv.New(base + 2, Cv.Mat)] + [Cv.Call(Cv.Sobel(Cv.Depth16S, 1, 0), [base], [base + 1])] + [Cv.Call(Cv.Sobel(Cv.Depth16S, 0, 1), [base], [base + 2])], Cv.Call(Cv.ConvertScaleAbs, [base + 1], [base + 1]), h); }
      Cv.History(Preprocess.ToGrayRun(log, src, base) + [Cv.New(base + 1, Cv.Mat)] + [Cv.New(base + 2, Cv.Mat)] + [Cv.Call(Cv.Sobel(Cv.Depth16S, 1, 0), [base], [base + 1])] + [Cv.Call(Cv.Sobel(Cv.Depth16S, 0, 1), [base], [base + 2])], h) + Cv.UsesOf(Cv.Call(Cv.ConvertScaleAbs, [base + 1], [base + 1]), h) + Cv.UsesOf(Cv.Call(Cv.ConvertScaleAbs, [base + 2], [base + 2]), h) + Cv.UsesOf(Cv.New(base + 3, Cv.Mat), h) + Cv.UsesOf(Cv.Call(Cv.AddWeighted(50, 50, 0), [base + 1, base + 2], [base + 3]), h) + Cv.UsesOf(Cv.Delete(base), h) + Cv.UsesOf(Cv.Delete(base + 1), h) + Cv.UsesOf(Cv.Delete(base + 2), h);
      == { Cv.HistorySnoc(Preprocess.ToGrayRun(log, src, base) + [Cv.New(base + 1, Cv.Mat)] + [Cv.New(base + 2, Cv.Mat)] + [Cv.Call(Cv.Sobel(Cv.Depth16S, 1, 0), [base], [base + 1])], Cv.Call(Cv.Sobel(Cv.Depth16S, 0, 1), [base], [base + 2]), h); }
      Cv.History(Preprocess.ToGrayRun(log, src, base) + [Cv.New(base + 1, Cv.Mat)] + [Cv.New(base + 2, Cv.Mat)] + [Cv.Call(Cv.Sobel(Cv.Depth16S, 1, 0), [base], [base + 1])], h) + Cv.UsesOf(Cv.Call(Cv.Sobel(Cv.Depth16S, 0, 1), [base], [base + 2]), h) + Cv.UsesOf(Cv.Call(Cv.ConvertScaleAbs, [base + 1], [base + 1]), h) + Cv.UsesOf(Cv.Call(Cv.ConvertScaleAbs, [base + 2], [base + 2]), h) + Cv.UsesOf(Cv.New(base + 3, Cv.Mat), h) + Cv.UsesOf(Cv.Call(Cv.AddWeighted(50, 50, 0), [base + 1, base + 2], [base + 3]), h) + Cv.UsesOf(Cv.Delete(base), h) + Cv.UsesOf(Cv.Delete(base + 1), h) + Cv.UsesOf(Cv.Delete(base + 2), h);
      == { Cv.HistorySnoc(Preprocess.ToGrayRun(log, src, base) + [Cv.New(base + 1, Cv.Mat)] + [Cv.New(base + 2, Cv.Mat)], Cv.Call(Cv.Sobel(Cv.Depth16S, 1, 0), [base], [base + 1]), h); }
      Cv.History(Preprocess.ToGrayRun(log, src, base) + [Cv.New(base + 1, Cv.Mat)] + [Cv.New(base + 2, Cv.Mat)], h) + Cv.UsesOf(Cv.Call(Cv.Sobel(Cv.Depth16S, 1, 0), [base], [base + 1]), h) + Cv.UsesOf(Cv.Call(Cv.Sobel(Cv.Depth16S, 0, 1), [base], [base + 2]), h) + Cv.UsesOf(Cv.Call(Cv.ConvertScaleAbs, [base + 1], [base + 1]), h) + Cv.UsesOf(Cv.Call(Cv.ConvertScaleAbs, [base + 2], [base + 2]), h) + Cv.UsesOf(Cv.New(base + 3, Cv.Mat), h) + Cv.UsesOf(Cv.Call(Cv.AddWeighted(50, 50, 0), [base + 1, base + 2], [base + 3]), h) + Cv.UsesOf(Cv.Delete(base), h) + Cv.UsesOf(Cv.Delete(base + 1), h) + Cv.UsesOf(Cv.Delete(base + 2), h);
      == { Cv.HistorySnoc(Preprocess.ToGrayRun(log, src, base) + [Cv.New(base + 1, Cv.Mat)], Cv.New(base + 2, Cv.Mat), h); }
      Cv.History(Preprocess.ToGrayRun(log, src, base) + [Cv.New(base + 1, Cv.Mat)], h) + Cv.UsesOf(Cv.New(base + 2, Cv.Mat), h) + Cv.UsesOf(Cv.Call(Cv.Sobel(Cv.Depth16S, 1, 0), [base], [base + 1]), h) + Cv.UsesOf(Cv.Call(Cv.Sobel(Cv.Depth16S, 0, 1), [base], [base + 2]), h) + Cv.UsesOf(Cv.Call(Cv.ConvertScaleAbs, [base + 1], [base + 1]), h) + Cv.UsesOf(Cv.Call(Cv.ConvertScaleAbs, [base + 2], [base + 2]), h) + Cv.UsesOf(Cv.New(base + 3, Cv.Mat), h) + Cv.UsesOf(Cv.Call(Cv.AddWeighted(50, 50, 0), [base + 1, base + 2], [base + 3]), h) + Cv.UsesOf(Cv.Delete(base), h) + Cv.UsesOf(Cv.Delete(base + 1), h) + Cv.UsesOf(Cv.Delete(base + 2), h);
      == { Cv.HistorySnoc(Preprocess.ToGrayRun(log, src, base), Cv.New(base + 1, Cv.Mat), h); }
      Cv.History(Preprocess.ToGrayRun(log, src, base), h) + Cv.UsesOf(Cv.New(base + 1, Cv.Mat), h) + Cv.UsesOf(Cv.New(base + 2, Cv.Mat), h) + Cv.UsesOf(Cv.Call(Cv.Sobel(Cv.Depth16S, 1, 0), [base], [base + 1]), h) + Cv.UsesOf(Cv.Call(Cv.Sobel(Cv.Depth16S, 0, 1), [base], [base + 2]), h) + Cv.UsesOf(Cv.Call(Cv.ConvertScaleAbs, [base + 1], [base + 1]), h) + Cv.UsesOf(Cv.Call(Cv.ConvertScaleAbs, [base + 2], [base + 2]), h) + Cv.UsesOf(Cv.New(base + 3, Cv.Mat), h) + Cv.UsesOf(Cv.Call(Cv.AddWeighted(50, 50, 0), [base + 1, base + 2], [base + 3]), h) + Cv.UsesOf(Cv.Delete(base), h) + Cv.UsesOf(Cv.Delete(base + 1), h) + Cv.UsesOf(Cv.Delete(base + 2), h);
      == { Preprocess.ProducerHistory(log, Cv.CvtColor(Cv.RgbaToGray), src, base, h); }
      Preprocess.ProducerLife(Cv.History(log, h), Cv.CvtColor(Cv.RgbaToGray), src, base, h) + Cv.UsesOf(Cv.New(base + 1, Cv.Mat), h) + Cv.UsesOf(Cv.New(base + 2, Cv.Mat), h) + Cv.UsesOf(Cv.Call(Cv.Sobel(Cv.Depth16S, 1, 0), [base], [base + 1]), h) + Cv.UsesOf(Cv.Call(Cv.Sobel(Cv.Depth16S, 0, 1), [base], [base + 2]), h) + Cv.UsesOf(Cv.Call(Cv.ConvertScaleAbs, [base + 1], [base + 1]), h) + Cv.UsesOf(Cv.Call(Cv.ConvertScaleAbs, [base + 2], [base + 2]), h) + Cv.UsesOf(Cv.New(base + 3, Cv.Mat), h) + Cv.UsesOf(Cv.Call(Cv.AddWeighted(50, 50, 0), [base + 1, base + 2], [base + 3]), h) + Cv.UsesOf(Cv.Delete(base), h) + Cv.UsesOf(Cv.Delete(base + 1), h) + Cv.UsesOf(Cv.Delete(base + 2), h);
    }
  }

  lemma DepthLikeLifeOfSrc(before: seq<Cv.Use>, src: Cv.Handle, base: Cv.Handle)
    requires src < base
    ensures DepthLikeLife(before, src, base, src) == before + [Cv.Read(Cv.CvtColor(Cv.RgbaToGray), 0)]
  {
    Preprocess.ProducerLifeOfInput(before, Cv.CvtColor(Cv.RgbaToGray), src, base);
  }

  lemma DepthLikeLifeOfGray(before: seq<Cv.Use>, src: Cv.Handle, base: Cv.Handle)
    requires src < base
    ensures DepthLikeLife(before, src, base, base) == before + [Cv.Alloc(Cv.Mat), Cv.Write(Cv.CvtColor(Cv.RgbaToGray)), Cv.Read(Cv.Sobel(Cv.Depth16S, 1, 0), 0), Cv.Read(Cv.Sobel(Cv.Depth16S, 0, 1), 0), Cv.Free]
  {
    Preprocess.ProducerLifeOfResult(before, Cv.CvtColor(Cv.RgbaToGray), src, base);
  }

  lemma DepthLikeLifeOfGx(before: seq<Cv.Use>, src: Cv.Handle, base: Cv.Handle)
    requires src < base
    ensures DepthLikeLife(before, src, base, base + 1) == before + [Cv.Alloc(Cv.Mat), Cv.Write(Cv.Sobel(Cv.Depth16S, 1, 0)), Cv.Update(Cv.ConvertScaleAbs), Cv.Read(Cv.AddWeighted(50, 50, 0), 0), Cv.Free]
  {
    Preprocess.ProducerLifeOfOther(before, Cv.CvtColor(Cv.RgbaToGray), src, base, base + 1);
  }

  lemma DepthLikeLifeOfGy(before: seq<Cv.Use>, src: Cv.Handle, base: Cv.Handle)
    requires src < base
    ensures DepthLikeLife(before, src, base, base + 2) == before + [Cv.Alloc(Cv.Mat), Cv.Write(Cv.Sobel(Cv.Depth16S, 0, 1)), Cv.Update(Cv.ConvertScaleAbs), Cv.Read(Cv.AddWeighted(50, 50, 0), 1), Cv.Free]
  {
    assert Cv.IndexOf([base + 1, base + 2], base + 2) == 1;
    Preprocess.ProducerLifeOfOther(before, Cv.CvtColor(Cv.RgbaToGray), src, base, base + 2);
  }

  lemma DepthLikeLifeOfDst(before: seq<Cv.Use>, src: Cv.Handle, base: Cv.Handle)
    requires src < base
    ensures DepthLikeLife(before, src, base, base + 3) == before + [Cv.Alloc(Cv.Mat), Cv.Write(Cv.AddWeighted(50, 50, 0))]
  {
    Preprocess.ProducerLifeOfOther(before, Cv.CvtColor(Cv.RgbaToGray), src, base, base + 3);
  }

  lemma DepthLikeHistoryOfSrc(log: seq<Cv.Event>, src: Cv.Handle, base: Cv.Handle)
    requires src < base
    ensures Cv.History(DepthLikeRun(log, src, base), src) == Cv.History(log, src) + [Cv.Read(Cv.CvtColor(Cv.RgbaToGray), 0)]
  {
    DepthLikeHistory(log, src, base, src);
    DepthLikeLifeOfSrc(Cv.History(log, src), src, base);
  }

  lemma DepthLikeHistoryOfGray(log: seq<Cv.Event>, src: Cv.Handle, base: Cv.Handle)
    requires src < base
    ensures Cv.History(DepthLikeRun(log, src, base), base) == Cv.History(log, base) + [Cv.Alloc(Cv.Mat), Cv.Write(Cv.CvtColor(Cv.RgbaToGray)), Cv.Read(Cv.Sobel(Cv.Depth16S, 1, 0), 0), Cv.Read(Cv.Sobel(Cv.Depth16S, 0, 1), 0), Cv.Free]
  {
    DepthLikeHistory(log, src, base, base);
    DepthLikeLifeOfGray(Cv.History(log, base), src, base);
  }

  lemma DepthLikeHistoryOfGx(log: seq<Cv.Event>, src: Cv.Handle, base: Cv.Handle)
    requires src < base
    ensures Cv.History(DepthLikeRun(log, src, base), base + 1) == Cv.History(log, base + 1) + [Cv.Alloc(Cv.Mat), Cv.Write(Cv.Sobel(Cv.Depth16S, 1, 0)), Cv.Update(Cv.ConvertScaleAbs), Cv.Read(Cv.AddWeighted(50, 50, 0), 0), Cv.Free]
  {
    DepthLikeHistory(log, src, base, base + 1);
    DepthLikeLifeOfGx(Cv.History(log, base + 1), src, base);
  }

  lemma DepthLikeHistoryOfGy(log: seq<Cv.Event>, src: Cv.Handle, base: Cv.Handle)
    requires src < base
    ensures Cv.History(DepthLikeRun(log, src, base), base + 2) == Cv.History(log, base + 2) + [Cv.Alloc(Cv.Mat), Cv.Write(Cv.Sobel(Cv.Depth16S, 0, 1)), Cv.Update(Cv.ConvertScaleAbs), Cv.Read(Cv.AddWeighted(50, 50, 0), 1), Cv.Free]
  {
    DepthLikeHistory(log, src, base, base + 2);
    DepthLikeLifeOfGy(Cv.History(log, base + 2), src, base);
  }

  lemma DepthLikeHistoryOfDst(log: seq<Cv.Event>, src: Cv.Handle, base: Cv.Handle)
    requires src < base
    ensures Cv.History(DepthLikeRun(log, src, base), base + 3) == Cv.History(log, base + 3) + [Cv.Alloc(Cv.Mat), Cv.Write(Cv.AddWeighted(50, 50, 0))]
  {
    DepthLikeHistory(log, src, base, base + 3);
    DepthLikeLifeOfDst(Cv.History(log, base + 3), src, base);
  }

  /**
   * What `Modes.depthLike` does to every buffer it names: the gray image feeds the
   * 16-bit x- and y-derivatives; each derivative is made absolute in place, blended with
   * weight 0.5 into the result, and deleted.
   */
  lemma DepthLikeLifetimes(log: seq<Cv.Event>, src: Cv.Handle, base: Cv.Handle)
    requires src < base
    ensures var run := DepthLikeRun(log, src, base);
      && Cv.History(run, src) == Cv.History(log, src) + [Cv.Read(Cv.CvtColor(Cv.RgbaToGray), 0)]
      && Cv.History(run, base) == Cv.History(log, base) + [Cv.Alloc(Cv.Mat), Cv.Write(Cv.CvtColor(Cv.RgbaToGray)), Cv.Read(Cv.Sobel(Cv.Depth16S, 1, 0), 0), Cv.Read(Cv.Sobel(Cv.Depth16S, 0, 1), 0), Cv.Free]
      && Cv.History(run, base + 1) == Cv.History(log, base + 1) + [Cv.Alloc(Cv.Mat), Cv.Write(Cv.Sobel(Cv.Depth16S, 1, 0)), Cv.Update(Cv.ConvertScaleAbs), Cv.Read(Cv.AddWeighted(50, 50, 0), 0), Cv.Free]
      && Cv.History(run, base + 2) == Cv.History(log, base + 2) + [Cv.Alloc(Cv.Mat), Cv.Write(Cv.Sobel(Cv.Depth16S, 0, 1)), Cv.Update(Cv.ConvertScaleAbs), Cv.Read(Cv.AddWeighted(50, 50, 0), 1), Cv.Free]
      && Cv.History(run, base + 3) == Cv.History(log, base + 3) + [Cv.Alloc(Cv.Mat), Cv.Write(Cv.AddWeighted(50, 50, 0))]
  {
    DepthLikeHistoryOfSrc(log, src, base);
    DepthLikeHistoryOfGray(log, src, base);
    DepthLikeHistoryOfGx(log, src, base);
    DepthLikeHistoryOfGy(log, src, base);
    DepthLikeHistoryOfDst(log, src, base);
  }

  /**
   * The events of `Modes.depthLike` after the gray conversion, applied one by one to a
   * replay outcome.
   */
  function DepthLikeSteps(o: Cv.Option<set<Cv.Handle>>, src: Cv.Handle, base: Cv.Handle): Cv.Option<set<Cv.Handle>> {
    var gray, gx, gy, dst := base, base + 1, base + 2, base + 3;
    var o1 := Cv.Step(o, Cv.New(gx, Cv.Mat));
    var o2 := Cv.Step(o1, Cv.New(gy, Cv.Mat));
    var o3 := Cv.Step(o2, Cv.Call(Cv.Sobel(Cv.Depth16S, 1, 0), [gray], [gx]));
    var o4 := Cv.Step(o3, Cv.Call(Cv.Sobel(Cv.Depth16S, 0, 1), [gray], [gy]));
    var o5 := Cv.Step(o4, Cv.Call(Cv.ConvertScaleAbs, [gx], [gx]));
    var o6 := Cv.Step(o5, Cv.Call(Cv.ConvertScaleAbs, [gy], [gy]));
    var o7 := Cv.Step(o6, Cv.New(dst, Cv.Mat));
    var o8 := Cv.Step(o7, Cv.Call(Cv.AddWeighted(50, 50, 0), [gx, gy], [dst]));
    var o9 := Cv.Step(o8, Cv.Delete(gray));
    var o10 := Cv.Step(o9, Cv.Delete(gx));
    var o11 := Cv.Step(o10, Cv.Delete(gy));
    o11
  }

  lemma {:induction false} DepthLikeReplay(log: seq<Cv.Event>, src: Cv.Handle, base: Cv.Handle)
    ensures Cv.Replay({}, DepthLikeRun(log, src, base)) == DepthLikeSteps(Cv.Replay({}, Preprocess.ToGrayRun(log, src, base)), src, base)
  {
    calc {
      Cv.Replay({}, DepthLikeRun(log, src, base));
      == { Cv.ReplaySnoc({}, Preprocess.ToGrayRun(log, src, base) + [Cv.New(base + 1, Cv.Mat)] + [Cv.New(base + 2, Cv.Mat)] + [Cv.Call(Cv.Sobel(Cv.Depth16S, 1, 0), [base], [base + 1])] + [Cv.Call(Cv.Sobel(Cv.Depth16S, 0, 1), [base], [base + 2])] + [Cv.Call(Cv.ConvertScaleAbs, [base + 1], [base + 1])] + [Cv.Call(Cv.ConvertScaleAbs, [base + 2], [base + 2])] + [Cv.New(base + 3, Cv.Mat)] + [Cv.Call(Cv.AddWeighted(50, 50, 0), [base + 1, base + 2], [base + 3])] + [Cv.Delete(base)] + [Cv.Delete(base + 1)], Cv.Delete(base + 2)); }
      Cv.Step(Cv.Replay({}, Preprocess.ToGrayRun(log, src, base) + [Cv.New(base + 1, Cv.Mat)] + [Cv.New(base + 2, Cv.Mat)] + [Cv.Call(Cv.Sobel(Cv.Depth16S, 1, 0), [base], [base + 1])] + [Cv.Call(Cv.Sobel(Cv.Depth16S, 0, 1), [base], [base + 2])] + [Cv.Call(Cv.ConvertScaleAbs, [base + 1], [base + 1])] + [Cv.Call(Cv.ConvertScaleAbs, [base + 2], [base + 2])] + [Cv.New(base + 3, Cv.Mat)] + [Cv.Call(Cv.AddWeighted(50, 50, 0), [base + 1, base + 2], [base + 3])] + [Cv.Delete(base)] + [Cv.Delete(base + 1)]), Cv.Delete(base + 2));
      == { Cv.ReplaySnoc({}, Preprocess.ToGrayRun(log, src, base) + [Cv.New(base + 1, Cv.Mat)] + [Cv.New(base + 2, Cv.Mat)] + [Cv.Call(Cv.Sobel(Cv.Depth16S, 1, 0), [base], [base + 1])] + [Cv.Call(Cv.Sobel(Cv.Depth16S, 0, 1), [base], [base + 2])] + [Cv.Call(Cv.ConvertScaleAbs, [base + 1], [base + 1])] + [Cv.Call(Cv.ConvertScaleAbs, [base + 2], [base + 2])] + [Cv.New(base + 3, Cv.Mat)] + [Cv.Call(Cv.AddWeighted(50, 50, 0), [base + 1, base + 2], [base + 3])] + [Cv.Delete(base)], Cv.Delete(base + 1)); }
      Cv.Step(Cv.Step(Cv.Replay({}, Preprocess.ToGrayRun(log, src, base) + [Cv.New(base + 1, Cv.Mat)] + [Cv.New(base + 2, Cv.Mat)] + [Cv.Call(Cv.Sobel(Cv.Depth16S, 1, 0), [base], [base + 1])] + [Cv.Call(Cv.Sobel(Cv.Depth16S, 0, 1), [base], [base + 2])] + [Cv.Call(Cv.ConvertScaleAbs, [base + 1], [base + 1])] + [Cv.Call(Cv.ConvertScaleAbs, [base + 2], [base + 2])] + [Cv.New(base + 3, Cv.Mat)] + [Cv.Call(Cv.AddWeighted(50, 50, 0), [base + 1, base + 2], [base + 3])] + [Cv.Delete(base)]), Cv.Delete(base + 1)), Cv.Delete(base + 2));
      == { Cv.ReplaySnoc({}, Preprocess.ToGrayRun(log, src, base) + [Cv.New(base + 1, Cv.Mat)] + [Cv.New(base + 2, Cv.Mat)] + [Cv.Call(Cv.Sobel(Cv.Depth16S, 1, 0), [base], [base + 1])] + [Cv.Call(Cv.Sobel(Cv.Depth16S, 0, 1), [base], [base + 2])] + [Cv.Call(Cv.ConvertScaleAbs, [base + 1], [base + 1])] + [Cv.Call(Cv.ConvertScaleAbs, [base + 2], [base + 2])] + [Cv.New(base + 3, Cv.Mat)] + [Cv.Call(Cv.AddWeighted(50, 50, 0), [base + 1, base + 2], [base + 3])], Cv.Delete(base)); }
      Cv.Step(Cv.Step(Cv.Step(Cv.Replay({}, Preprocess.ToGrayRun(log, src, base) + [Cv.New(base + 1, Cv.Mat)] + [Cv.New(base + 2, Cv.Mat)] + [Cv.Call(Cv.Sobel(Cv.Depth16S, 1, 0), [base], [base + 1])] + [Cv.Call(Cv.Sobel(Cv.Depth16S, 0, 1), [base], [base + 2])] + [Cv.Call(Cv.ConvertScaleAbs, [base + 1], [base + 1])] + [Cv.Call(Cv.ConvertScaleAbs, [base + 2], [base + 2])] + [Cv.New(base + 3, Cv.Mat)] + [Cv.Call(Cv.AddWeighted(50, 50, 0), [base + 1, base + 2], [base + 3])]), Cv.Delete(base)), Cv.Delete(base + 1)), Cv.Delete(base + 2));
      == { Cv.ReplaySnoc({}, Preprocess.ToGrayRun(log, src, base) + [Cv.New(base + 1, Cv.Mat)] + [Cv.New(base + 2, Cv.Mat)] + [Cv.Call(Cv.Sobel(Cv.Depth16S, 1, 0), [base], [base + 1])] + [Cv.Call(Cv.Sobel(Cv.Depth16S, 0, 1), [base], [base + 2])] + [Cv.Call(Cv.ConvertScaleAbs, [base + 1], [base + 1])] + [Cv.Call(Cv.ConvertScaleAbs, [base + 2], [base + 2])] + [Cv.New(base + 3, Cv.Mat)], Cv.Call(Cv.AddWeighted(50, 50, 0), [base + 1, base + 2], [base + 3])); }
      Cv.Step(Cv.Step(Cv.Step(Cv.Step(Cv.Replay({}, Preprocess.ToGrayRun(log, src, base) + [Cv.New(base + 1, Cv.Mat)] + [Cv.New(base + 2, Cv.Mat)] + [Cv.Call(Cv.Sobel(Cv.Depth16S, 1, 0), [base], [base + 1])] + [Cv.Call(Cv.Sobel(Cv.Depth16S, 0, 1), [base], [base + 2])] + [Cv.Call(Cv.ConvertScaleAbs, [base + 1], [base + 1])] + [Cv.Call(Cv.ConvertScaleAbs, [base + 2], [base + 2])] + [Cv.New(base + 3, Cv.Mat)]), Cv.Call(Cv.AddWeighted(50, 50, 0), [base + 1, base + 2], [base + 3])), Cv.Delete(base)), Cv.Delete(base + 1)), Cv.Delete(base + 2));
      == { Cv.ReplaySnoc({}, Preprocess.ToGrayRun(log, src, base) + [Cv.New(base + 1, Cv.Mat)] + [Cv.New(base + 2, Cv.Mat)] + [Cv.Call(Cv.Sobel(Cv.Depth16S, 1, 0), [base], [base + 1])] + [Cv.Call(Cv.Sobel(Cv.Depth16S, 0, 1), [base], [base + 2])] + [Cv.Call(Cv.ConvertScaleAbs, [base + 1], [base + 1])] + [Cv.Call(Cv.ConvertScaleAbs, [base + 2], [base + 2])], Cv.New(base + 3, Cv.Mat)); }
      Cv.Step(Cv.Step(Cv.Step(Cv.Step(Cv.Step(Cv.Replay({}, Preprocess.ToGrayRun(log, src, base) + [Cv.New(base + 1, Cv.Mat)] + [Cv.New(base + 2, Cv.Mat)] + [Cv.Call(Cv.Sobel(Cv.Depth16S, 1, 0), [base], [base + 1])] + [Cv.Call(Cv.Sobel(Cv.Depth16S, 0, 1), [base], [base + 2])] + [Cv.Call(Cv.ConvertScaleAbs, [base + 1], [base + 1])] + [Cv.Call(Cv.ConvertScaleAbs, [base + 2], [base + 2])]), Cv.New(base + 3, Cv.Mat)), Cv.Call(Cv.AddWeighted(50, 50, 0), [base + 1, base + 2], [base + 3])), Cv.Delete(base)), Cv.Delete(base + 1)), Cv.Delete(base + 2));
      == { Cv.ReplaySnoc({}, Preprocess.ToGrayRun(log, src, base) + [Cv.New(base + 1, Cv.Mat)] + [Cv.New(base + 2, Cv.Mat)] + [Cv.Call(Cv.Sobel(Cv.Depth16S, 1, 0), [base], [base + 1])] + [Cv.Call(Cv.Sobel(Cv.Depth16S, 0, 1), [base], [base + 2])] + [Cv.Call(Cv.ConvertScaleAbs, [base + 1], [base + 1])], Cv.Call(Cv.ConvertScaleAbs, [base + 2], [base + 2])); }
      Cv.Step(Cv.Step(Cv.Step(Cv.Step(Cv.Step(Cv.Step(Cv.Replay({}, Preprocess.ToGrayRun(log, src, base) + [Cv.New(base + 1, Cv.Mat)] + [Cv.New(base + 2, Cv.Mat)] + [Cv.Call(Cv.Sobel(Cv.Depth16S, 1, 0), [base], [base + 1])] + [Cv.Call(Cv.Sobel(Cv.Depth16S, 0, 1), [base], [base + 2])] + [Cv.Call(Cv.ConvertScaleAbs, [base + 1], [base + 1])]), Cv.Call(Cv.ConvertScaleAbs, [base + 2], [base + 2])), Cv.New(base + 3, Cv.Mat)), Cv.Call(Cv.AddWeighted(50, 50, 0), [base + 1, base + 2], [base + 3])), Cv.Delete(base)), Cv.Delete(base + 1)), Cv.Delete(base + 2));
      == { Cv.ReplaySnoc({}, Preprocess.ToGrayRun(log, src, base) + [Cv.New(base + 1, Cv.Mat)] + [Cv.New(base + 2, Cv.Mat)] + [Cv.Call(Cv.Sobel(Cv.Depth16S, 1, 0), [base], [base + 1])] + [Cv.Call(Cv.Sobel(Cv.Depth16S, 0, 1), [base], [base + 2])], Cv.Call(Cv.ConvertScaleAbs, [base + 1], [base + 1])); }
      Cv.Step(Cv.Step(Cv.Step(Cv.Step(Cv.Step(Cv.Step(Cv.Step(Cv.Replay({}, Preprocess.ToGrayRun(log, src, base) + [Cv.New(base + 1, Cv.Mat)] + [Cv.New(base + 2, Cv.Mat)] + [Cv.Call(Cv.Sobel(Cv.Depth16S, 1, 0), [base], [base + 1])] + [Cv.Call(Cv.Sobel(Cv.Depth16S, 0, 1), [base], [base + 2])]), Cv.Call(Cv.ConvertScaleAbs, [base + 1], [base + 1])), Cv.Call(Cv.ConvertScaleAbs, [base + 2], [base + 2])), Cv.New(base + 3, Cv.Mat)), Cv.Call(Cv.AddWeighted(50, 50, 0), [base + 1, base + 2], [base + 3])), Cv.Delete(base)), Cv.Delete(base + 1)), Cv.Delete(base + 2));
      == { Cv.ReplaySnoc({}, Preprocess.ToGrayRun(log, src, base) + [Cv.New(base + 1, Cv.Mat)] + [Cv.New(base + 2, Cv.Mat)] + [Cv.Call(Cv.Sobel(Cv.Depth16S, 1, 0), [base], [base + 1])], Cv.Call(Cv.Sobel(Cv.Depth16S, 0, 1), [base], [base + 2])); }
      Cv.Step(Cv.Step(Cv.Step(Cv.Step(Cv.Step(Cv.Step(Cv.Step(Cv.Step(Cv.Replay({}, Preprocess.ToGrayRun(log, src, base) + [Cv.New(base + 1, Cv.Mat)] + [Cv.New(base + 2, Cv.Mat)] + [Cv.Call(Cv.Sobel(Cv.Depth16S, 1, 0), [base], [base + 1])]), Cv.Call(Cv.Sobel(Cv.Depth16S, 0, 1), [base], [base + 2])), Cv.Call(Cv.ConvertScaleAbs, [base + 1], [base + 1])), Cv.Call(Cv.ConvertScaleAbs, [base + 2], [base + 2])), Cv.New(base + 3, Cv.Mat)), Cv.Call(Cv.AddWeighted(50, 50, 0), [base + 1, base + 2], [base + 3])), Cv.Delete(base)), Cv.Delete(base + 1)), Cv.Delete(base + 2));
      == { Cv.ReplaySnoc({}, Preprocess.ToGrayRun(log, src, base) + [Cv.New(base + 1, Cv.Mat)] + [Cv.New(base + 2, Cv.Mat)], Cv.Call(Cv.Sobel(Cv.Depth16S, 1, 0), [base], [base + 1])); }
      Cv.Step(Cv.Step(Cv.Step(Cv.Step(Cv.Step(Cv.Step(Cv.Step(Cv.Step(Cv.Step(Cv.Replay({}, Preprocess.ToGrayRun(log, src, base) + [Cv.New(base + 1, Cv.Mat)] + [Cv.New(base + 2, Cv.Mat)]), Cv.Call(Cv.Sobel(Cv.Depth16S, 1, 0), [base], [base + 1])), Cv.Call(Cv.Sobel(Cv.Depth16S, 0, 1), [base], [base + 2])), Cv.Call(Cv.ConvertScaleAbs, [base + 1], [base + 1])), Cv.Call(Cv.ConvertScaleAbs, [base + 2], [base + 2])), Cv.New(base + 3, Cv.Mat)), Cv.Call(Cv.AddWeighted(50, 50, 0), [base + 1, base + 2], [base + 3])), Cv.Delete(base)), Cv.Delete(base + 1)), Cv.Delete(base + 2));
      == { Cv.ReplaySnoc({}, Preprocess.ToGrayRun(log, src, base) + [Cv.New(base + 1, Cv.Mat)], Cv.New(base + 2, Cv.Mat)); }
      Cv.Step(Cv.Step(Cv.Step(Cv.Step(Cv.Step(Cv.Step(Cv.Step(Cv.Step(Cv.Step(Cv.Step(Cv.Replay({}, Preprocess.ToGrayRun(log, src, base) + [Cv.New(base + 1, Cv.Mat)]), Cv.New(base + 2, Cv.Mat)), Cv.Call(Cv.Sobel(Cv.Depth16S, 1, 0), [base], [base + 1])), Cv.Call(Cv.Sobel(Cv.Depth16S, 0, 1), [base], [base + 2])), Cv.Call(Cv.ConvertScaleAbs, [base + 1], [base + 1])), Cv.Call(Cv.ConvertScaleAbs, [base + 2], [base + 2])), Cv.New(base + 3, Cv.Mat)), Cv.Call(Cv.AddWeighted(50, 50, 0), [base + 1, base + 2], [base + 3])), Cv.Delete(base)), Cv.Delete(base + 1)), Cv.Delete(base + 2));
      == { Cv.ReplaySnoc({}, Preprocess.ToGrayRun(log, src, base), Cv.New(base + 1, Cv.Mat)); }
      Cv.Step(Cv.Step(Cv.Step(Cv.Step(Cv.Step(Cv.Step(Cv.Step(Cv.Step(Cv.Step(Cv.Step(Cv.Step(Cv.Replay({}, Preprocess.ToGrayRun(log, src, base)), Cv.New(base + 1, Cv.Mat)), Cv.New(base + 2, Cv.Mat)), Cv.Call(Cv.Sobel(Cv.Depth16S, 1, 0), [base], [base + 1])), Cv.Call(Cv.Sobel(Cv.Depth16S, 0, 1), [base], [base + 2])), Cv.Call(Cv.ConvertScaleAbs, [base + 1], [base + 1])), Cv.Call(Cv.ConvertScaleAbs, [base + 2], [base + 2])), Cv.New(base + 3, Cv.Mat)), Cv.Call(Cv.AddWeighted(50, 50, 0), [base + 1, base + 2], [base + 3])), Cv.Delete(base)), Cv.Delete(base + 1)), Cv.Delete(base + 2));
    }
  }

  /**
   * From a live set below `base` holding `src`, plus the gray image, the mode's events
   * leave just the result added.
   */
  lemma DepthLikeStepsFrom(live: set<Cv.Handle>, src: Cv.Handle, base: Cv.Handle)
    requires src in live && Cv.Below(live, base)
    ensures DepthLikeSteps(Cv.Some(live + {base}), src, base) == Cv.Some(live + {base + 3})
  {
    var l0 := live + {base};
    var l1 := l0 + {base + 1};
    assert Cv.Step(Cv.Some(l0), Cv.New(base + 1, Cv.Mat)) == Cv.Some(l1);
    var l2 := l1 + {base + 2};
    assert Cv.Step(Cv.Some(l1), Cv.New(base + 2, Cv.Mat)) == Cv.Some(l2);
    assert Cv.Step(Cv.Some(l2), Cv.Call(Cv.Sobel(Cv.Depth16S, 1, 0), [base], [base + 1])) == Cv.Some(l2);
    assert Cv.Step(Cv.Some(l2), Cv.Call(Cv.Sobel(Cv.Depth16S, 0, 1), [base], [base + 2])) == Cv.Some(l2);
    assert Cv.Step(Cv.Some(l2), Cv.Call(Cv.ConvertScaleAbs, [base + 1], [base + 1])) == Cv.Some(l2);
    assert Cv.Step(Cv.Some(l2), Cv.Call(Cv.ConvertScaleAbs, [base + 2], [base + 2])) == Cv.Some(l2);
    var l3 := l2 + {base + 3};
    assert Cv.Step(Cv.Some(l2), Cv.New(base + 3, Cv.Mat)) == Cv.Some(l3);
    assert Cv.Step(Cv.Some(l3), Cv.Call(Cv.AddWeighted(50, 50, 0), [base + 1, base + 2], [base + 3])) == Cv.Some(l3);
    var l4 := l3 - {base};
    assert Cv.Step(Cv.Some(l3), Cv.Delete(base)) == Cv.Some(l4);
    var l5 := l4 - {base + 1};
    assert Cv.Step(Cv.Some(l4), Cv.Delete(base + 1)) == Cv.Some(l5);
    var l6 := l5 - {base + 2};
    assert Cv.Step(Cv.Some(l5), Cv.Delete(base + 2)) == Cv.Some(l6);
    assert l6 == live + {base + 3};
  }

  lemma DepthLikeReturnsOne(log: seq<Cv.Event>, src: Cv.Handle, base: Cv.Handle)
    requires Cv.Ready(log, base) && src in Cv.LiveAfter(log)
    ensures ModeContract(log, DepthLikeRun(log, src, base), src, base, base + 3, Cv.AddWeighted(50, 50, 0))
    ensures Cv.Ready(DepthLikeRun(log, src, base), base + 4)
  {
    Preprocess.ProducerReturnsOne(log, Cv.CvtColor(Cv.RgbaToGray), src, base);
    DepthLikeReplay(log, src, base);
    DepthLikeStepsFrom(Cv.LiveAfter(log), src, base);
    DepthLikeLifetimes(log, src, base);
  }

  method DepthLike(a: Cv.Arena, src: Cv.Handle) returns (dst: Cv.Handle)
    requires a.Valid() && src in a.Live()
    modifies a
    ensures dst == old(a.next) + 3 && a.next == dst + 1
    ensures a.log == DepthLikeRun(old(a.log), src, old(a.next))
    ensures a.Valid() && dst !in old(a.Live()) && a.Live() == old(a.Live()) + {dst}
  {
    DepthLikeReturnsOne(a.log, src, a.next);
    var gray := Preprocess.ToGray(a, src);
    var gx := a.Alloc(Cv.Mat);
    var gy := a.Alloc(Cv.Mat);
    a.Invoke(Cv.Sobel(Cv.Depth16S, 1, 0), [gray], [gx]);
    a.Invoke(Cv.Sobel(Cv.Depth16S, 0, 1), [gray], [gy]);
    a.Invoke(Cv.ConvertScaleAbs, [gx], [gx]);
    a.Invoke(Cv.ConvertScaleAbs, [gy], [gy]);
    dst := a.Alloc(Cv.Mat);
    a.Invoke(Cv.AddWeighted(50, 50, 0), [gx, gy], [dst]);
    a.Delete(gray);
    a.Delete(gx);
    a.Delete(gy);
  }

  /** `Modes.segment`: Otsu's threshold of the gray image, to 0 or 255. */
  function SegmentRun(log: seq<Cv.Event>, src: Cv.Handle, base: Cv.Handle): seq<Cv.Event> {
    var gray, dst := base, base + 1;
    Preprocess.ToGrayRun(log, src, gray)
    + [Cv.New(dst, Cv.Mat)]
    + [Cv.Call(Cv.Threshold(0, 255, Cv.ThreshOtsu), [gray], [dst])]
    + [Cv.Delete(gray)]
  }

  /**
   * The life of `h` after `Modes.segment`, given its life `before`: what the mode does
   * to it, event by event, appended.
   */
  function SegmentLife(before: seq<Cv.Use>, src: Cv.Handle, base: Cv.Handle, h: Cv.Handle): seq<Cv.Use> {
    var gray, dst := base, base + 1;
    Preprocess.ProducerLife(before, Cv.CvtColor(Cv.RgbaToGray), src, gray, h)
    + Cv.UsesOf(Cv.New(dst, Cv.Mat), h)
    + Cv.UsesOf(Cv.Call(Cv.Threshold(0, 255, Cv.ThreshOtsu), [gray], [dst]), h)
    + Cv.UsesOf(Cv.Delete(gray), h)
  }

  /**
   * The life of any buffer across `Modes.segment` is its life before, followed by what
   * the mode does to it.
   */
  lemma {:induction false} SegmentHistory(log: seq<Cv.Event>, src: Cv.Handle, base: Cv.Handle, h: Cv.Handle)
    ensures Cv.History(SegmentRun(log, src, base), h) == SegmentLife(Cv.History(log, h), src, base, h)
  {
    calc {
      Cv.History(SegmentRun(log, src, base), h);
      == { Cv.HistorySnoc(Preprocess.ToGrayRun(log, src, base) + [Cv.New(base + 1, Cv.Mat)] + [Cv.Call(Cv.Threshold(0, 255, Cv.ThreshOtsu), [base], [base + 1])], Cv.Delete(base), h); }
      Cv.History(Preprocess.ToGrayRun(log, src, base) + [Cv.New(base + 1, Cv.Mat)] + [Cv.Call(Cv.Threshold(0, 255, Cv.ThreshOtsu), [base], [base + 1])], h) + Cv.UsesOf(Cv.Delete(base), h);
      == { Cv.HistorySnoc(Preprocess.ToGrayRun(log, src, base) + [Cv.New(base + 1, Cv.Mat)], Cv.Call(Cv.Threshold(0, 255, Cv.ThreshOtsu), [base], [base + 1]), h); }
      Cv.History(Preprocess.ToGrayRun(log, src, base) + [Cv.New(base + 1, Cv.Mat)], h) + Cv.UsesOf(Cv.Call(Cv.Threshold(0, 255, Cv.ThreshOtsu), [base], [base + 1]), h) + Cv.UsesOf(Cv.Delete(base), h);
      == { Cv.HistorySnoc(Preprocess.ToGrayRun(log, src, base), Cv.New(base + 1, Cv.Mat), h); }
      Cv.History(Preprocess.ToGrayRun(log, src, base), h) + Cv.UsesOf(Cv.New(base + 1, Cv.Mat), h) + Cv.UsesOf(Cv.Call(Cv.Threshold(0, 255, Cv.ThreshOtsu), [base], [base + 1]), h) + Cv.UsesOf(Cv.Delete(base), h);
      == { Preprocess.ProducerHistory(log, Cv.CvtColor(Cv.RgbaToGray), src, base, h); }
      Preprocess.ProducerLife(Cv.History(log, h), Cv.CvtColor(Cv.RgbaToGray), src, base, h) + Cv.UsesOf(Cv.New(base + 1, Cv.Mat), h) + Cv.UsesOf(Cv.Call(Cv.Threshold(0, 255, Cv.ThreshOtsu), [base], [base + 1]), h) + Cv.UsesOf(Cv.Delete(base), h);
    }
  }

  lemma SegmentLifeOfSrc(before: seq<Cv.Use>, src: Cv.Handle, base: Cv.Handle)
    requires src < base
    ensures SegmentLife(before, src, base, src) == before + [Cv.Read(Cv.CvtColor(Cv.RgbaToGray), 0)]
  {
    Preprocess.ProducerLifeOfInput(before, Cv.CvtColor(Cv.RgbaToGray), src, base);
  }

  lemma SegmentLifeOfGray(before: seq<Cv.Use>, src: Cv.Handle, base: Cv.Handle)
    requires src < base
    ensures SegmentLife(before, src, base, base) == before + [Cv.Alloc(Cv.Mat), Cv.Write(Cv.CvtColor(Cv.RgbaToGray)), Cv.Read(Cv.Threshold(0, 255, Cv.ThreshOtsu), 0), Cv.Free]
  {
    Preprocess.ProducerLifeOfResult(before, Cv.CvtColor(Cv.RgbaToGray), src, base);
  }

  lemma SegmentLifeOfDst(before: seq<Cv.Use>, src: Cv.Handle, base: Cv.Handle)
    requires src < base
    ensures SegmentLife(before, src, base, base + 1) == before + [Cv.Alloc(Cv.Mat), Cv.Write(Cv.Threshold(0, 255, Cv.ThreshOtsu))]
  {
    Preprocess.ProducerLifeOfOther(before, Cv.CvtColor(Cv.RgbaToGray), src, base, base + 1);
  }

  lemma SegmentHistoryOfSrc(log: seq<Cv.Event>, src: Cv.Handle, base: Cv.Handle)
    requires src < base
    ensures Cv.History(SegmentRun(log, src, base), src) == Cv.History(log, src) + [Cv.Read(Cv.CvtColor(Cv.RgbaToGray), 0)]
  {
    SegmentHistory(log, src, base, src);
    SegmentLifeOfSrc(Cv.History(log, src), src, base);
  }

  lemma SegmentHistoryOfGray(log: seq<Cv.Event>, src: Cv.Handle, base: Cv.Handle)
    requires src < base
    ensures Cv.History(SegmentRun(log, src, base), base) == Cv.History(log, base) + [Cv.Alloc(Cv.Mat), Cv.Write(Cv.CvtColor(Cv.RgbaToGray)), Cv.Read(Cv.Threshold(0, 255, Cv.ThreshOtsu), 0), Cv.Free]
  {
    SegmentHistory(log, src, base, base);
    SegmentLifeOfGray(Cv.History(log, base), src, base);
  }

  lemma SegmentHistoryOfDst(log: seq<Cv.Event>, src: Cv.Handle, base: Cv.Handle)
    requires src < base
    ensures Cv.History(SegmentRun(log, src, base), base + 1) == Cv.History(log, base + 1) + [Cv.Alloc(Cv.Mat), Cv.Write(Cv.Threshold(0, 255, Cv.ThreshOtsu))]
  {
    SegmentHistory(log, src, base, base + 1);
    SegmentLifeOfDst(Cv.History(log, base + 1), src, base);
  }

  /**
   * What `Modes.segment` does to every buffer it names: the gray image is read once, by
   * the Otsu threshold, and then deleted.
   */
  lemma SegmentLifetimes(log: seq<Cv.Event>, src: Cv.Handle, base: Cv.Handle)
    requires src < base
    ensures var run := SegmentRun(log, src, base);
      && Cv.History(run, src) == Cv.History(log, src) + [Cv.Read(Cv.CvtColor(Cv.RgbaToGray), 0)]
      && Cv.History(run, base) == Cv.History(log, base) + [Cv.Alloc(Cv.Mat), Cv.Write(Cv.CvtColor(Cv.RgbaToGray)), Cv.Read(Cv.Threshold(0, 255, Cv.ThreshOtsu), 0), Cv.Free]
      && Cv.History(run, base + 1) == Cv.History(log, base + 1) + [Cv.Alloc(Cv.Mat), Cv.Write(Cv.Threshold(0, 255, Cv.ThreshOtsu))]
  {
    SegmentHistoryOfSrc(log, src, base);
    SegmentHistoryOfGray(log, src, base);
    SegmentHistoryOfDst(log, src, base);
  }

  /**
   * The events of `Modes.segment` after the gray conversion, applied one by one to a
   * replay outcome.
   */
  function SegmentSteps(o: Cv.Option<set<Cv.Handle>>, src: Cv.Handle, base: Cv.Handle): Cv.Option<set<Cv.Handle>> {
    var gray, dst := base, base + 1;
    var o1 := Cv.Step(o, Cv.New(dst, Cv.Mat));
    var o2 := Cv.Step(o1, Cv.Call(Cv.Threshold(0, 255, Cv.ThreshOtsu), [gray], [dst]));
    var o3 := Cv.Step(o2, Cv.Delete(gray));
    o3
  }

  lemma {:induction false} SegmentReplay(log: seq<Cv.Event>, src: Cv.Handle, base: Cv.Handle)
    ensures Cv.Replay({}, SegmentRun(log, src, base)) == SegmentSteps(Cv.Replay({}, Preprocess.ToGrayRun(log, src, base)), src, base)
  {
    calc {
      Cv.Replay({}, SegmentRun(log, src, base));
      == { Cv.ReplaySnoc({}, Preprocess.ToGrayRun(log, src, base) + [Cv.New(base + 1, Cv.Mat)] + [Cv.Call(Cv.Threshold(0, 255, Cv.ThreshOtsu), [base], [base + 1])], Cv.Delete(base)); }
      Cv.Step(Cv.Replay({}, Preprocess.ToGrayRun(log, src, base) + [Cv.New(base + 1, Cv.Mat)] + [Cv.Call(Cv.Threshold(0, 255, Cv.ThreshOtsu), [base], [base + 1])]), Cv.Delete(base));
      == { Cv.ReplaySnoc({}, Preprocess.ToGrayRun(log, src, base) + [Cv.New(base + 1, Cv.Mat)], Cv.Call(Cv.Threshold(0, 255, Cv.ThreshOtsu), [base], [base + 1])); }
      Cv.Step(Cv.Step(Cv.Replay({}, Preprocess.ToGrayRun(log, src, base) + [Cv.New(base + 1, Cv.Mat)]), Cv.Call(Cv.Threshold(0, 255, Cv.ThreshOtsu), [base], [base + 1])), Cv.Delete(base));
      == { Cv.ReplaySnoc({}, Preprocess.ToGrayRun(log, src, base), Cv.New(base + 1, Cv.Mat)); }
      Cv.Step(Cv.Step(Cv.Step(Cv.Replay({}, Preprocess.ToGrayRun(log, src, base)), Cv.New(base + 1, Cv.Mat)), Cv.Call(Cv.Threshold(0, 255, Cv.ThreshOtsu), [base], [base + 1])), Cv.Delete(base));
    }
  }

  /**
   * From a live set below `base` holding `src`, plus the gray image, the mode's events
   * leave just the result added.
   */
  lemma SegmentStepsFrom(live: set<Cv.Handle>, src: Cv.Handle, base: Cv.Handle)
    requires src in live && Cv.Below(live, base)
    ensures SegmentSteps(Cv.Some(live + {base}), src, base) == Cv.Some(live + {base + 1})
  {
    var l0 := live + {base};
    var l1 := l0 + {base + 1};
    assert Cv.Step(Cv.Some(l0), Cv.New(base + 1, Cv.Mat)) == Cv.Some(l1);
    assert Cv.Step(Cv.Some(l1), Cv.Call(Cv.Threshold(0, 255, Cv.ThreshOtsu), [base], [base + 1])) == Cv.Some(l1);
    var l2 := l1 - {base};
    assert Cv.Step(Cv.Some(l1), Cv.Delete(base)) == Cv.Some(l2);
    assert l2 == live + {base + 1};
  }

  lemma SegmentReturnsOne(log: seq<Cv.Event>, src: Cv.Handle, base: Cv.Handle)
    requires Cv.Ready(log, base) && src in Cv.LiveAfter(log)
    ensures ModeContract(log, SegmentRun(log, src, base), src, base, base + 1, Cv.Threshold(0, 255, Cv.ThreshOtsu))
    ensures Cv.Ready(SegmentRun(log, src, base), base + 2)
  {
    Preprocess.ProducerReturnsOne(log, Cv.CvtColor(Cv.RgbaToGray), src, base);
    SegmentReplay(log, src, base);
    SegmentStepsFrom(Cv.LiveAfter(log), src, base);
    SegmentLifetimes(log, src, base);
  }

  method Segment(a: Cv.Arena, src: Cv.Handle) returns (dst: Cv.Handle)
    requires a.Valid() && src in a.Live()
    modifies a
    ensures dst == old(a.next) + 1 && a.next == dst + 1
    ensures a.log == SegmentRun(old(a.log), src, old(a.next))
    ensures a.Valid() && dst !in old(a.Live()) && a.Live() == old(a.Live()) + {dst}
  {
    SegmentReturnsOne(a.log, src, a.next);
    var gray := Preprocess.ToGray(a, src);
    dst := a.Alloc(Cv.Mat);
    a.Invoke(Cv.Threshold(0, 255, Cv.ThreshOtsu), [gray], [dst]);
    a.Delete(gray);
  }
}
