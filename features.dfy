/**
 * `Features.detectORB`: converts the frame to gray, runs an ORB detector over it,
 * deletes the gray image and the detector, and hands the keypoint vector to the
 * caller, who must delete it.
 */
module Features {
  import Cv
  import Preprocess

  /**
   * `Features.detectORB`: the ORB keypoints of the gray image, in a fresh
   * `cv.KeyPointVector`.
   */
  function DetectOrbRun(log: seq<Cv.Event>, src: Cv.Handle, base: Cv.Handle): seq<Cv.Event> {
    var gray, orb, keypoints := base, base + 1, base + 2;
    Preprocess.ToGrayRun(log, src, gray)
    + [Cv.New(orb, Cv.Orb)]
    + [Cv.New(keypoints, Cv.KeyPointVector)]
    + [Cv.Call(Cv.OrbDetect, [orb, gray], [keypoints])]
    + [Cv.Delete(gray)]
    + [Cv.Delete(orb)]
  }

  /**
   * The life of `h` after `Features.detectORB`, given its life `before`: what the mode
   * does to it, event by event, appended.
   */
  function DetectOrbLife(before: seq<Cv.Use>, src: Cv.Handle, base: Cv.Handle, h: Cv.Handle): seq<Cv.Use> {
    var gray, orb, keypoints := base, base + 1, base + 2;
    Preprocess.ProducerLife(before, Cv.CvtColor(Cv.RgbaToGray), src, gray, h)
    + Cv.UsesOf(Cv.New(orb, Cv.Orb), h)
    + Cv.UsesOf(Cv.New(keypoints, Cv.KeyPointVector), h)
    + Cv.UsesOf(Cv.Call(Cv.OrbDetect, [orb, gray], [keypoints]), h)
    + Cv.UsesOf(Cv.Delete(gray), h)
    + Cv.UsesOf(Cv.Delete(orb), h)
  }

  /**
   * The life of any buffer across `Features.detectORB` is its life before, followed by
   * what the mode does to it.
   */
  lemma {:induction false} DetectOrbHistory(log: seq<Cv.Event>, src: Cv.Handle, base: Cv.Handle, h: Cv.Handle)
    ensures Cv.History(DetectOrbRun(log, src, base), h) == DetectOrbLife(Cv.History(log, h), src, base, h)
  {
    calc {
      Cv.History(DetectOrbRun(log, src, base), h);
      == { Cv.HistorySnoc(Preprocess.ToGrayRun(log, src, base) + [Cv.New(base + 1, Cv.Orb)] + [Cv.New(base + 2, Cv.KeyPointVector)] + [Cv.Call(Cv.OrbDetect, [base + 1, base], [base + 2])] + [Cv.Delete(base)], Cv.Delete(base + 1), h); }
      Cv.History(Preprocess.ToGrayRun(log, src, base) + [Cv.New(base + 1, Cv.Orb)] + [Cv.New(base + 2, Cv.KeyPointVector)] + [Cv.Call(Cv.OrbDetect, [base + 1, base], [base + 2])] + [Cv.Delete(base)], h) + Cv.UsesOf(Cv.Delete(base + 1), h);
      == { Cv.HistorySnoc(Preprocess.ToGrayRun(log, src, base) + [Cv.New(base + 1, Cv.Orb)] + [Cv.New(base + 2, Cv.KeyPointVector)] + [Cv.Call(Cv.OrbDetect, [base + 1, base], [base + 2])], Cv.Delete(base), h); }
      Cv.History(Preprocess.ToGrayRun(log, src, base) + [Cv.New(base + 1, Cv.Orb)] + [Cv.New(base + 2, Cv.KeyPointVector)] + [Cv.Call(Cv.OrbDetect, [base + 1, base], [base + 2])], h) + Cv.UsesOf(Cv.Delete(base), h) + Cv.UsesOf(Cv.Delete(base + 1), h);
      == { Cv.HistorySnoc(Preprocess.ToGrayRun(log, src, base) + [Cv.New(base + 1, Cv.Orb)] + [Cv.New(base + 2, Cv.KeyPointVector)], Cv.Call(Cv.OrbDetect, [base + 1, base], [base + 2]), h); }
      Cv.History(Preprocess.ToGrayRun(log, src, base) + [Cv.New(base + 1, Cv.Orb)] + [Cv.New(base + 2, Cv.KeyPointVector)], h) + Cv.UsesOf(Cv.Call(Cv.OrbDetect, [base + 1, base], [base + 2]), h) + Cv.UsesOf(Cv.Delete(base), h) + Cv.UsesOf(Cv.Delete(base + 1), h);
      == { Cv.HistorySnoc(Preprocess.ToGrayRun(log, src, base) + [Cv.New(base + 1, Cv.Orb)], Cv.New(base + 2, Cv.KeyPointVector), h); }
      Cv.History(Preprocess.ToGrayRun(log, src, base) + [Cv.New(base + 1, Cv.Orb)], h) + Cv.UsesOf(Cv.New(base + 2, Cv.KeyPointVector), h) + Cv.UsesOf(Cv.Call(Cv.OrbDetect, [base + 1, base], [base + 2]), h) + Cv.UsesOf(Cv.Delete(base), h) + Cv.UsesOf(Cv.Delete(base + 1), h);
      == { Cv.HistorySnoc(Preprocess.ToGrayRun(log, src, base), Cv.New(base + 1, Cv.Orb), h); }
      Cv.History(Preprocess.ToGrayRun(log, src, base), h) + Cv.UsesOf(Cv.New(base + 1, Cv.Orb), h) + Cv.UsesOf(Cv.New(base + 2, Cv.KeyPointVector), h) + Cv.UsesOf(Cv.Call(Cv.OrbDetect, [base + 1, base], [base + 2]), h) + Cv.UsesOf(Cv.Delete(base), h) + Cv.UsesOf(Cv.Delete(base + 1), h);
      == { Preprocess.ProducerHistory(log, Cv.CvtColor(Cv.RgbaToGray), src, base, h); }
      Preprocess.ProducerLife(Cv.History(log, h), Cv.CvtColor(Cv.RgbaToGray), src, base, h) + Cv.UsesOf(Cv.New(base + 1, Cv.Orb), h) + Cv.UsesOf(Cv.New(base + 2, Cv.KeyPointVector), h) + Cv.UsesOf(Cv.Call(Cv.OrbDetect, [base + 1, base], [base + 2]), h) + Cv.UsesOf(Cv.Delete(base), h) + Cv.UsesOf(Cv.Delete(base + 1), h);
    }
  }

  lemma DetectOrbLifeOfSrc(before: seq<Cv.Use>, src: Cv.Handle, base: Cv.Handle)
    requires src < base
    ensures DetectOrbLife(before, src, base, src) == before + [Cv.Read(Cv.CvtColor(Cv.RgbaToGray), 0)]
  {
    Preprocess.ProducerLifeOfInput(before, Cv.CvtColor(Cv.RgbaToGray), src, base);
  }

  lemma DetectOrbLifeOfGray(before: seq<Cv.Use>, src: Cv.Handle, base: Cv.Handle)
    requires src < base
    ensures DetectOrbLife(before, src, base, base) == before + [Cv.Alloc(Cv.Mat), Cv.Write(Cv.CvtColor(Cv.RgbaToGray)), Cv.Read(Cv.OrbDetect, 1), Cv.Free]
  {
    assert Cv.IndexOf([base + 1, base], base) == 1;
    Preprocess.ProducerLifeOfResult(before, Cv.CvtColor(Cv.RgbaToGray), src, base);
  }

  lemma DetectOrbLifeOfOrb(before: seq<Cv.Use>, src: Cv.Handle, base: Cv.Handle)
    requires src < base
    ensures DetectOrbLife(before, src, base, base + 1) == before + [Cv.Alloc(Cv.Orb), Cv.Read(Cv.OrbDetect, 0), Cv.Free]
  {
    Preprocess.ProducerLifeOfOther(before, Cv.CvtColor(Cv.RgbaToGray), src, base, base + 1);
  }

  lemma DetectOrbLifeOfKeypoints(before: seq<Cv.Use>, src: Cv.Handle, base: Cv.Handle)
    requires src < base
    ensures DetectOrbLife(before, src, base, base + 2) == before + [Cv.Alloc(Cv.KeyPointVector), Cv.Write(Cv.OrbDetect)]
  {
    Preprocess.ProducerLifeOfOther(before, Cv.CvtColor(Cv.RgbaToGray), src, base, base + 2);
  }

  lemma DetectOrbHistoryOfSrc(log: seq<Cv.Event>, src: Cv.Handle, base: Cv.Handle)
    requires src < base
    ensures Cv.History(DetectOrbRun(log, src, base), src) == Cv.History(log, src) + [Cv.Read(Cv.CvtColor(Cv.RgbaToGray), 0)]
  {
    DetectOrbHistory(log, src, base, src);
    DetectOrbLifeOfSrc(Cv.History(log, src), src, base);
  }

  lemma DetectOrbHistoryOfGray(log: seq<Cv.Event>, src: Cv.Handle, base: Cv.Handle)
    requires src < base
    ensures Cv.History(DetectOrbRun(log, src, base), base) == Cv.History(log, base) + [Cv.Alloc(Cv.Mat), Cv.Write(Cv.CvtColor(Cv.RgbaToGray)), Cv.Read(Cv.OrbDetect, 1), Cv.Free]
  {
    DetectOrbHistory(log, src, base, base);
    DetectOrbLifeOfGray(Cv.History(log, base), src, base);
  }

  lemma DetectOrbHistoryOfOrb(log: seq<Cv.Event>, src: Cv.Handle, base: Cv.Handle)
    requires src < base
    ensures Cv.History(DetectOrbRun(log, src, base), base + 1) == Cv.History(log, base + 1) + [Cv.Alloc(Cv.Orb), Cv.Read(Cv.OrbDetect, 0), Cv.Free]
  {
    DetectOrbHistory(log, src, base, base + 1);
    DetectOrbLifeOfOrb(Cv.History(log, base + 1), src, base);
  }

  lemma DetectOrbHistoryOfKeypoints(log: seq<Cv.Event>, src: Cv.Handle, base: Cv.Handle)
    requires src < base
    ensures Cv.History(DetectOrbRun(log, src, base), base + 2) == Cv.History(log, base + 2) + [Cv.Alloc(Cv.KeyPointVector), Cv.Write(Cv.OrbDetect)]
  {
    DetectOrbHistory(log, src, base, base + 2);
    DetectOrbLifeOfKeypoints(Cv.History(log, base + 2), src, base);
  }

  /**
   * What `Features.detectORB` does to every buffer it names: the gray image and the
   * detector are read once, by `orb.detect`, and then deleted; the keypoint vector is
   * allocated, written by the detector and handed to the caller, who owns it from then
   * on.
   */
  lemma DetectOrbLifetimes(log: seq<Cv.Event>, src: Cv.Handle, base: Cv.Handle)
    requires src < base
    ensures var run := DetectOrbRun(log, src, base);
      && Cv.History(run, src) == Cv.History(log, src) + [Cv.Read(Cv.CvtColor(Cv.RgbaToGray), 0)]
      && Cv.History(run, base) == Cv.History(log, base) + [Cv.Alloc(Cv.Mat), Cv.Write(Cv.CvtColor(Cv.RgbaToGray)), Cv.Read(Cv.OrbDetect, 1), Cv.Free]
      && Cv.History(run, base + 1) == Cv.History(log, base + 1) + [Cv.Alloc(Cv.Orb), Cv.Read(Cv.OrbDetect, 0), Cv.Free]
      && Cv.History(run, base + 2) == Cv.History(log, base + 2) + [Cv.Alloc(Cv.KeyPointVector), Cv.Write(Cv.OrbDetect)]
  {
    DetectOrbHistoryOfSrc(log, src, base);
    DetectOrbHistoryOfGray(log, src, base);
    DetectOrbHistoryOfOrb(log, src, base);
    DetectOrbHistoryOfKeypoints(log, src, base);
  }

  /**
   * The events of `Features.detectORB` after the gray conversion, applied one by one to
   * a replay outcome.
   */
  function DetectOrbSteps(o: Cv.Option<set<Cv.Handle>>, src: Cv.Handle, base: Cv.Handle): Cv.Option<set<Cv.Handle>> {
    var gray, orb, keypoints := base, base + 1, base + 2;
    var o1 := Cv.Step(o, Cv.New(orb, Cv.Orb));
    var o2 := Cv.Step(o1, Cv.New(keypoints, Cv.KeyPointVector));
    var o3 := Cv.Step(o2, Cv.Call(Cv.OrbDetect, [orb, gray], [keypoints]));
    var o4 := Cv.Step(o3, Cv.Delete(gray));
    var o5 := Cv.Step(o4, Cv.Delete(orb));
    o5
  }

  lemma {:induction false} DetectOrbReplay(log: seq<Cv.Event>, src: Cv.Handle, base: Cv.Handle)
    ensures Cv.Replay({}, DetectOrbRun(log, src, base)) == DetectOrbSteps(Cv.Replay({}, Preprocess.ToGrayRun(log, src, base)), src, base)
  {
    calc {
      Cv.Replay({}, DetectOrbRun(log, src, base));
      == { Cv.ReplaySnoc({}, Preprocess.ToGrayRun(log, src, base) + [Cv.New(base + 1, Cv.Orb)] + [Cv.New(base + 2, Cv.KeyPointVector)] + [Cv.Call(Cv.OrbDetect, [base + 1, base], [base + 2])] + [Cv.Delete(base)], Cv.Delete(base + 1)); }
      Cv.Step(Cv.Replay({}, Preprocess.ToGrayRun(log, src, base) + [Cv.New(base + 1, Cv.Orb)] + [Cv.New(base + 2, Cv.KeyPointVector)] + [Cv.Call(Cv.OrbDetect, [base + 1, base], [base + 2])] + [Cv.Delete(base)]), Cv.Delete(base + 1));
      == { Cv.ReplaySnoc({}, Preprocess.ToGrayRun(log, src, base) + [Cv.New(base + 1, Cv.Orb)] + [Cv.New(base + 2, Cv.KeyPointVector)] + [Cv.Call(Cv.OrbDetect, [base + 1, base], [base + 2])], Cv.Delete(base)); }
      Cv.Step(Cv.Step(Cv.Replay({}, Preprocess.ToGrayRun(log, src, base) + [Cv.New(base + 1, Cv.Orb)] + [Cv.New(base + 2, Cv.KeyPointVector)] + [Cv.Call(Cv.OrbDetect, [base + 1, base], [base + 2])]), Cv.Delete(base)), Cv.Delete(base + 1));
      == { Cv.ReplaySnoc({}, Preprocess.ToGrayRun(log, src, base) + [Cv.New(base + 1, Cv.Orb)] + [Cv.New(base + 2, Cv.KeyPointVector)], Cv.Call(Cv.OrbDetect, [base + 1, base], [base + 2])); }
      Cv.Step(Cv.Step(Cv.Step(Cv.Replay({}, Preprocess.ToGrayRun(log, src, base) + [Cv.New(base + 1, Cv.Orb)] + [Cv.New(base + 2, Cv.KeyPointVector)]), Cv.Call(Cv.OrbDetect, [base + 1, base], [base + 2])), Cv.Delete(base)), Cv.Delete(base + 1));
      == { Cv.ReplaySnoc({}, Preprocess.ToGrayRun(log, src, base) + [Cv.New(base + 1, Cv.Orb)], Cv.New(base + 2, Cv.KeyPointVector)); }
      Cv.Step(Cv.Step(Cv.Step(Cv.Step(Cv.Replay({}, Preprocess.ToGrayRun(log, src, base) + [Cv.New(base + 1, Cv.Orb)]), Cv.New(base + 2, Cv.KeyPointVector)), Cv.Call(Cv.OrbDetect, [base + 1, base], [base + 2])), Cv.Delete(base)), Cv.Delete(base + 1));
      == { Cv.ReplaySnoc({}, Preprocess.ToGrayRun(log, src, base), Cv.New(base + 1, Cv.Orb)); }
      Cv.Step(Cv.Step(Cv.Step(Cv.Step(Cv.Step(Cv.Replay({}, Preprocess.ToGrayRun(log, src, base)), Cv.New(base + 1, Cv.Orb)), Cv.New(base + 2, Cv.KeyPointVector)), Cv.Call(Cv.OrbDetect, [base + 1, base], [base + 2])), Cv.Delete(base)), Cv.Delete(base + 1));
    }
  }

  /**
   * From a live set below `base` holding `src`, plus the gray image, the mode's events
   * leave just the result added.
   */
  lemma DetectOrbStepsFrom(live: set<Cv.Handle>, src: Cv.Handle, base: Cv.Handle)
    requires src in live && Cv.Below(live, base)
    ensures DetectOrbSteps(Cv.Some(live + {base}), src, base) == Cv.Some(live + {base + 2})
  {
    var l0 := live + {base};
    var l1 := l0 + {base + 1};
    assert Cv.Step(Cv.Some(l0), Cv.New(base + 1, Cv.Orb)) == Cv.Some(l1);
    var l2 := l1 + {base + 2};
    assert Cv.Step(Cv.Some(l1), Cv.New(base + 2, Cv.KeyPointVector)) == Cv.Some(l2);
    assert Cv.Step(Cv.Some(l2), Cv.Call(Cv.OrbDetect, [base + 1, base], [base + 2])) == Cv.Some(l2);
    var l3 := l2 - {base};
    assert Cv.Step(Cv.Some(l2), Cv.Delete(base)) == Cv.Some(l3);
    var l4 := l3 - {base + 1};
    assert Cv.Step(Cv.Some(l3), Cv.Delete(base + 1)) == Cv.Some(l4);
    assert l4 == live + {base + 2};
  }

  lemma DetectOrbReturnsOne(log: seq<Cv.Event>, src: Cv.Handle, base: Cv.Handle)
    requires Cv.Ready(log, base) && src in Cv.LiveAfter(log)
    ensures Cv.Replay({}, DetectOrbRun(log, src, base)) == Cv.Some(Cv.LiveAfter(log) + {base + 2})
    ensures Cv.Ready(DetectOrbRun(log, src, base), base + 3)
  {
    Preprocess.ProducerReturnsOne(log, Cv.CvtColor(Cv.RgbaToGray), src, base);
    DetectOrbReplay(log, src, base);
    DetectOrbStepsFrom(Cv.LiveAfter(log), src, base);
  }

  method DetectOrb(a: Cv.Arena, src: Cv.Handle) returns (keypoints: Cv.Handle)
    requires a.Valid() && src in a.Live()
    modifies a
    ensures keypoints == old(a.next) + 2 && a.next == keypoints + 1
    ensures a.log == DetectOrbRun(old(a.log), src, old(a.next))
    ensures a.Valid() && keypoints !in old(a.Live()) && a.Live() == old(a.Live()) + {keypoints}
  {
    DetectOrbReturnsOne(a.log, src, a.next);
    var gray := Preprocess.ToGray(a, src);
    var orb := a.Alloc(Cv.Orb);
    keypoints := a.Alloc(Cv.KeyPointVector);
    a.Invoke(Cv.OrbDetect, [orb, gray], [keypoints]);
    a.Delete(gray);
    a.Delete(orb);
  }
}
