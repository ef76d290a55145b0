/**
 * The `Preprocess` helpers: each allocates one new `cv.Mat`, fills it from its
 * input with one OpenCV call, and hands it to the caller, who must delete it.
 */
module Preprocess {
  import Cv

  /** The log after a producer ran on top of `log`: Mat `base` allocated, then filled by `op`. */
  function ProducerRun(log: seq<Cv.Event>, op: Cv.Op, input: Cv.Handle, base: Cv.Handle): seq<Cv.Event> {
    log + [Cv.New(base, Cv.Mat)] + [Cv.Call(op, [input], [base])]
  }

  /** The life of `h` after a producer, given its life `before`. */
  function ProducerLife(before: seq<Cv.Use>, op: Cv.Op, input: Cv.Handle, base: Cv.Handle, h: Cv.Handle): seq<Cv.Use> {
    before + Cv.UsesOf(Cv.New(base, Cv.Mat), h) + Cv.UsesOf(Cv.Call(op, [input], [base]), h)
  }

  lemma ProducerHistory(log: seq<Cv.Event>, op: Cv.Op, input: Cv.Handle, base: Cv.Handle, h: Cv.Handle)
    ensures Cv.History(ProducerRun(log, op, input, base), h) == ProducerLife(Cv.History(log, h), op, input, base, h)
  {
    Cv.HistorySnoc(log, Cv.New(base, Cv.Mat), h);
    Cv.HistorySnoc(log + [Cv.New(base, Cv.Mat)], Cv.Call(op, [input], [base]), h);
  }

  /** Replaying a producer is replaying its two steps after the log. */
  lemma ProducerReplay(log: seq<Cv.Event>, op: Cv.Op, input: Cv.Handle, base: Cv.Handle)
    ensures Cv.Replay({}, ProducerRun(log, op, input, base)) ==
      Cv.Step(Cv.Step(Cv.Replay({}, log), Cv.New(base, Cv.Mat)), Cv.Call(op, [input], [base]))
  {
    Cv.ReplaySnoc({}, log, Cv.New(base, Cv.Mat));
    Cv.ReplaySnoc({}, log + [Cv.New(base, Cv.Mat)], Cv.Call(op, [input], [base]));
  }

  /** The input is read once, as the producing call's only argument. */
  lemma ProducerLifeOfInput(before: seq<Cv.Use>, op: Cv.Op, input: Cv.Handle, base: Cv.Handle)
    requires input != base
    ensures ProducerLife(before, op, input, base, input) == before + [Cv.Read(op, 0)]
  {
    assert Cv.IndexOf([input], input) == 0;
  }

  /** The result is allocated, then written by the producing call. */
  lemma ProducerLifeOfResult(before: seq<Cv.Use>, op: Cv.Op, input: Cv.Handle, base: Cv.Handle)
    requires input != base
    ensures ProducerLife(before, op, input, base, base) == before + [Cv.Alloc(Cv.Mat), Cv.Write(op)]
  {
  }

  /** No other buffer is touched. */
  lemma ProducerLifeOfOther(before: seq<Cv.Use>, op: Cv.Op, input: Cv.Handle, base: Cv.Handle, h: Cv.Handle)
    requires h != input && h != base
    ensures ProducerLife(before, op, input, base, h) == before
  {
  }

  /**
   * Run on a ready log with `input` live, a producer leaves exactly one more buffer
   * live, the fresh `base`. The input is only read, once, by the producing call; the
   * result is allocated and then written by that call.
   */
  lemma ProducerReturnsOne(log: seq<Cv.Event>, op: Cv.Op, input: Cv.Handle, base: Cv.Handle)
    requires Cv.Ready(log, base) && input in Cv.LiveAfter(log)
    ensures var run := ProducerRun(log, op, input, base);
      && Cv.Replay({}, run) == Cv.Some(Cv.LiveAfter(log) + {base})
      && base !in Cv.LiveAfter(log)
      && Cv.Ready(run, base + 1)
      && Cv.History(run, input) == Cv.History(log, input) + [Cv.Read(op, 0)]
      && Cv.History(run, base) == Cv.History(log, base) + [Cv.Alloc(Cv.Mat), Cv.Write(op)]
  {
    Cv.ReplaySnoc({}, log, Cv.New(base, Cv.Mat));
    Cv.ReplaySnoc({}, log + [Cv.New(base, Cv.Mat)], Cv.Call(op, [input], [base]));
    ProducerHistory(log, op, input, base, input);
    ProducerLifeOfInput(Cv.History(log, input), op, input, base);
    ProducerHistory(log, op, input, base, base);
    ProducerLifeOfResult(Cv.History(log, base), op, input, base);
  }

  /** `toGray`: RGBA to one-channel gray. */
  function ToGrayRun(log: seq<Cv.Event>, src: Cv.Handle, base: Cv.Handle): seq<Cv.Event> {
    ProducerRun(log, Cv.CvtColor(Cv.RgbaToGray), src, base)
  }

  /** `denoise`: a 5x5 Gaussian blur with sigma 0. */
  function DenoiseRun(log: seq<Cv.Event>, gray: Cv.Handle, base: Cv.Handle): seq<Cv.Event> {
    ProducerRun(log, Cv.GaussianBlur(5, 0), gray, base)
  }

  /** `equalize`: histogram equalisation. */
  function EqualizeRun(log: seq<Cv.Event>, gray: Cv.Handle, base: Cv.Handle): seq<Cv.Event> {
    ProducerRun(log, Cv.EqualizeHist, gray, base)
  }

  method ToGray(a: Cv.Arena, src: Cv.Handle) returns (gray: Cv.Handle)
    requires a.Valid() && src in a.Live()
    modifies a
    ensures gray == old(a.next) && a.next == gray + 1
    ensures a.log == ToGrayRun(old(a.log), src, gray)
    ensures a.Valid() && gray !in old(a.Live()) && a.Live() == old(a.Live()) + {gray}
  {
    ProducerReturnsOne(a.log, Cv.CvtColor(Cv.RgbaToGray), src, a.next);
    gray := a.Alloc(Cv.Mat);
    a.Invoke(Cv.CvtColor(Cv.RgbaToGray), [src], [gray]);
  }

  method Denoise(a: Cv.Arena, gray: Cv.Handle) returns (dst: Cv.Handle)
    requires a.Valid() && gray in a.Live()
    modifies a
    ensures dst == old(a.next) && a.next == dst + 1
    ensures a.log == DenoiseRun(old(a.log), gray, dst)
    ensures a.Valid() && dst !in old(a.Live()) && a.Live() == old(a.Live()) + {dst}
  {
    ProducerReturnsOne(a.log, Cv.GaussianBlur(5, 0), gray, a.next);
    dst := a.Alloc(Cv.Mat);
    a.Invoke(Cv.GaussianBlur(5, 0), [gray], [dst]);
  }

  method Equalize(a: Cv.Arena, gray: Cv.Handle) returns (dst: Cv.Handle)
    requires a.Valid() && gray in a.Live()
    modifies a
    ensures dst == old(a.next) && a.next == dst + 1
    ensures a.log == EqualizeRun(old(a.log), gray, dst)
    ensures a.Valid() && dst !in old(a.Live()) && a.Live() == old(a.Live()) + {dst}
  {
    ProducerReturnsOne(a.log, Cv.EqualizeHist, gray, a.next);
    dst := a.Alloc(Cv.Mat);
    a.Invoke(Cv.EqualizeHist, [gray], [dst]);
  }
}
