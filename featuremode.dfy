/**
 * `featureMode`: ORB keypoints drawn as green circles on a clone of the frame. The
 * gray image, the detector and the keypoint vector are deleted before returning;
 * only the annotated clone survives.
 *
 * The keypoints themselves are what `orb.detect` found, which OpenCV computes; they
 * are a parameter here, `detected`, read back one by one with `keypoints.get(i)`.
 */
module FeatureMode {
  import Cv
  import Preprocess

  /** A keypoint as ORB reports it: its centre and its diameter, in pixels. */
  datatype KeyPoint = KeyPoint(x: real, y: real, size: real)

  const Green := Cv.Color(0, 255, 0, 255)

  /** `Math.round`: the nearest integer, a half rounded up. */
  function Round(v: real): (r: int)
    ensures r as real - 0.5 <= v < r as real + 0.5
  {
    (v + 0.5).Floor
  }

  /** Only one integer lies that close to `v`, so `Round` is the nearest one. */
  lemma RoundUnique(v: real, n: int)
    requires n as real - 0.5 <= v < n as real + 0.5
    ensures n == Round(v)
  {
    var r := Round(v);
    assert n as real - 1.0 < r as real < n as real + 1.0;
  }

  /** `Math.max(2, Math.round(kp.size/2))`: half the diameter, rounded, and never below 2. */
  function Radius(kp: KeyPoint): (r: int)
    ensures r >= 2 && r >= Round(kp.size / 2.0)
    ensures r == 2 || r == Round(kp.size / 2.0)
  {
    var half := Round(kp.size / 2.0);
    if 2 >= half then 2 else half
  }

  /** The circle `featureMode` draws for one keypoint: centred on the rounded point, of the keypoint's radius, 2 pixels thick. */
  function CircleOf(kp: KeyPoint): (op: Cv.Op)
    ensures op.Circle? && op.center == Cv.Point(Round(kp.x), Round(kp.y))
    ensures op.radius == Radius(kp) && op.radius >= 2 && op.color == Green && op.thickness == 2
  {
    Cv.Circle(Cv.Point(Round(kp.x), Round(kp.y)), Radius(kp), Green, 2)
  }

  // ---- the log ----

  /**
   * Everything before the loop: the gray conversion (written out inline, the same two
   * steps as `Preprocess.toGray`), the detector, the detection, and the clone of the
   * frame that the circles go on.
   */
  function SetupRun(log: seq<Cv.Event>, src: Cv.Handle, base: Cv.Handle): seq<Cv.Event> {
    var gray, orb, keypoints, out := base, base + 1, base + 2, base + 3;
    Preprocess.ProducerRun(log, Cv.CvtColor(Cv.RgbaToGray), src, gray)
    + [Cv.New(orb, Cv.Orb)]
    + [Cv.New(keypoints, Cv.KeyPointVector)]
    + [Cv.Call(Cv.OrbDetect, [orb, gray], [keypoints])]
    + [Cv.New(out, Cv.Mat)]
    + [Cv.Call(Cv.Clone, [src], [out])]
  }

  /** The loop over the first `|kps|` keypoints: fetch keypoint `i`, then draw its circle into `out`. */
  function CirclesRun(t: seq<Cv.Event>, keypoints: Cv.Handle, out: Cv.Handle, kps: seq<KeyPoint>): seq<Cv.Event>
    decreases |kps|
  {
    if |kps| == 0 then t
    else
      var i := |kps| - 1;
      CirclesRun(t, keypoints, out, kps[..i])
      + [Cv.Call(Cv.VectorGet(i), [keypoints], [])]
      + [Cv.Call(CircleOf(kps[i]), [out], [out])]
  }

  /** The whole of `featureMode(src)` on top of `log`, given the keypoints the detector finds. */
  function FeatureModeRun(log: seq<Cv.Event>, src: Cv.Handle, detected: seq<KeyPoint>, base: Cv.Handle): seq<Cv.Event> {
    var gray, orb, keypoints, out := base, base + 1, base + 2, base + 3;
    CirclesRun(SetupRun(log, src, base), keypoints, out, detected)
    + [Cv.Delete(gray)]
    + [Cv.Delete(orb)]
    + [Cv.Delete(keypoints)]
  }

  // ---- what happens to each buffer ----

  /** The circles the loop draws, one per keypoint, in order. */
  function Circles(kps: seq<KeyPoint>): seq<Cv.Use>
    decreases |kps|
  {
    if |kps| == 0 then [] else Circles(kps[..|kps| - 1]) + [Cv.Update(CircleOf(kps[|kps| - 1]))]
  }

  /** Exactly one circle per keypoint, the `j`-th for keypoint `j`. */
  lemma {:induction false} CirclesOnePerKeypoint(kps: seq<KeyPoint>)
    ensures |Circles(kps)| == |kps|
    ensures forall j :: 0 <= j < |kps| ==> Circles(kps)[j] == Cv.Update(CircleOf(kps[j]))
    decreases |kps|
  {
    if kps != [] {
      var i := |kps| - 1;
      CirclesOnePerKeypoint(kps[..i]);
      assert forall j :: 0 <= j < i ==> kps[..i][j] == kps[j];
    }
  }

  /** The life of `h` after the setup, given its life `before`. */
  function SetupLife(before: seq<Cv.Use>, src: Cv.Handle, base: Cv.Handle, h: Cv.Handle): seq<Cv.Use> {
    var gray, orb, keypoints, out := base, base + 1, base + 2, base + 3;
    Preprocess.ProducerLife(before, Cv.CvtColor(Cv.RgbaToGray), src, gray, h)
    + Cv.UsesOf(Cv.New(orb, Cv.Orb), h)
    + Cv.UsesOf(Cv.New(keypoints, Cv.KeyPointVector), h)
    + Cv.UsesOf(Cv.Call(Cv.OrbDetect, [orb, gray], [keypoints]), h)
    + Cv.UsesOf(Cv.New(out, Cv.Mat), h)
    + Cv.UsesOf(Cv.Call(Cv.Clone, [src], [out]), h)
  }

  lemma {:induction false} SetupHistory(log: seq<Cv.Event>, src: Cv.Handle, base: Cv.Handle, h: Cv.Handle)
    ensures Cv.History(SetupRun(log, src, base), h) == SetupLife(Cv.History(log, h), src, base, h)
  {
    var p0 := Preprocess.ProducerRun(log, Cv.CvtColor(Cv.RgbaToGray), src, base);
    var p1 := p0 + [Cv.New(base + 1, Cv.Orb)];
    var p2 := p1 + [Cv.New(base + 2, Cv.KeyPointVector)];
    var p3 := p2 + [Cv.Call(Cv.OrbDetect, [base + 1, base], [base + 2])];
    var p4 := p3 + [Cv.New(base + 3, Cv.Mat)];
    Preprocess.ProducerHistory(log, Cv.CvtColor(Cv.RgbaToGray), src, base, h);
    Cv.HistorySnoc(p0, Cv.New(base + 1, Cv.Orb), h);
    Cv.HistorySnoc(p1, Cv.New(base + 2, Cv.KeyPointVector), h);
    Cv.HistorySnoc(p2, Cv.Call(Cv.OrbDetect, [base + 1, base], [base + 2]), h);
    Cv.HistorySnoc(p3, Cv.New(base + 3, Cv.Mat), h);
    Cv.HistorySnoc(p4, Cv.Call(Cv.Clone, [src], [base + 3]), h);
  }

  lemma SetupLifeOfSrc(before: seq<Cv.Use>, src: Cv.Handle, base: Cv.Handle)
    requires src < base
    ensures SetupLife(before, src, base, src) == before + [Cv.Read(Cv.CvtColor(Cv.RgbaToGray), 0), Cv.Read(Cv.Clone, 0)]
  {
    Preprocess.ProducerLifeOfInput(before, Cv.CvtColor(Cv.RgbaToGray), src, base);
  }

  lemma SetupLifeOfGray(before: seq<Cv.Use>, src: Cv.Handle, base: Cv.Handle)
    requires src < base
    ensures SetupLife(before, src, base, base) == before + [Cv.Alloc(Cv.Mat), Cv.Write(Cv.CvtColor(Cv.RgbaToGray)), Cv.Read(Cv.OrbDetect, 1)]
  {
    assert Cv.IndexOf([base + 1, base], base) == 1;
    Preprocess.ProducerLifeOfResult(before, Cv.CvtColor(Cv.RgbaToGray), src, base);
  }

  lemma SetupLifeOfOrb(before: seq<Cv.Use>, src: Cv.Handle, base: Cv.Handle)
    requires src < base
    ensures SetupLife(before, src, base, base + 1) == before + [Cv.Alloc(Cv.Orb), Cv.Read(Cv.OrbDetect, 0)]
  {
    Preprocess.ProducerLifeOfOther(before, Cv.CvtColor(Cv.RgbaToGray), src, base, base + 1);
  }

  lemma SetupLifeOfKeypoints(before: seq<Cv.Use>, src: Cv.Handle, base: Cv.Handle)
    requires src < base
    ensures SetupLife(before, src, base, base + 2) == before + [Cv.Alloc(Cv.KeyPointVector), Cv.Write(Cv.OrbDetect)]
  {
    Preprocess.ProducerLifeOfOther(before, Cv.CvtColor(Cv.RgbaToGray), src, base, base + 2);
  }

  lemma SetupLifeOfOut(before: seq<Cv.Use>, src: Cv.Handle, base: Cv.Handle)
    requires src < base
    ensures SetupLife(before, src, base, base + 3) == before + [Cv.Alloc(Cv.Mat), Cv.Write(Cv.Clone)]
  {
    Preprocess.ProducerLifeOfOther(before, Cv.CvtColor(Cv.RgbaToGray), src, base, base + 3);
  }

  /** The life of `h` after the loop over `kps`, given its life `before`. */
  function CirclesLife(before: seq<Cv.Use>, keypoints: Cv.Handle, out: Cv.Handle, kps: seq<KeyPoint>, h: Cv.Handle): seq<Cv.Use>
    decreases |kps|
  {
    if |kps| == 0 then before
    else
      var i := |kps| - 1;
      CirclesLife(before, keypoints, out, kps[..i], h)
      + Cv.UsesOf(Cv.Call(Cv.VectorGet(i), [keypoints], []), h)
      + Cv.UsesOf(Cv.Call(CircleOf(kps[i]), [out], [out]), h)
  }

  lemma {:induction false} CirclesHistory(t: seq<Cv.Event>, keypoints: Cv.Handle, out: Cv.Handle, kps: seq<KeyPoint>, h: Cv.Handle)
    ensures Cv.History(CirclesRun(t, keypoints, out, kps), h) == CirclesLife(Cv.History(t, h), keypoints, out, kps, h)
    decreases |kps|
  {
    if kps != [] {
      var i := |kps| - 1;
      var before := CirclesRun(t, keypoints, out, kps[..i]);
      var fetch := Cv.Call(Cv.VectorGet(i), [keypoints], []);
      CirclesHistory(t, keypoints, out, kps[..i], h);
      Cv.HistorySnoc(before, fetch, h);
      Cv.HistorySnoc(before + [fetch], Cv.Call(CircleOf(kps[i]), [out], [out]), h);
    }
  }

  /** The loop draws one circle per keypoint into `out`, in place. */
  lemma {:induction false} CirclesLifeOfOut(before: seq<Cv.Use>, keypoints: Cv.Handle, out: Cv.Handle, kps: seq<KeyPoint>)
    requires keypoints != out
    ensures CirclesLife(before, keypoints, out, kps, out) == before + Circles(kps)
    decreases |kps|
  {
    if kps != [] {
      var i := |kps| - 1;
      CirclesLifeOfOut(before, keypoints, out, kps[..i]);
      assert before + Circles(kps[..i]) + [Cv.Update(CircleOf(kps[i]))] == before + Circles(kps);
    }
  }

  /** The loop reads the keypoint vector once per keypoint. */
  lemma {:induction false} CirclesLifeOfKeypoints(before: seq<Cv.Use>, keypoints: Cv.Handle, out: Cv.Handle, kps: seq<KeyPoint>)
    requires keypoints != out
    ensures CirclesLife(before, keypoints, out, kps, keypoints) == before + Cv.Gets(|kps|)
    decreases |kps|
  {
    if kps != [] {
      var i := |kps| - 1;
      CirclesLifeOfKeypoints(before, keypoints, out, kps[..i]);
      assert Cv.IndexOf([keypoints], keypoints) == 0;
      assert before + Cv.Gets(i) + [Cv.Read(Cv.VectorGet(i), 0)] == before + Cv.Gets(|kps|);
    }
  }

  /** The loop touches no other buffer. */
  lemma {:induction false} CirclesLifeOfOther(before: seq<Cv.Use>, keypoints: Cv.Handle, out: Cv.Handle, kps: seq<KeyPoint>, h: Cv.Handle)
    requires h != keypoints && h != out
    ensures CirclesLife(before, keypoints, out, kps, h) == before
    decreases |kps|
  {
    if kps != [] {
      CirclesLifeOfOther(before, keypoints, out, kps[..|kps| - 1], h);
    }
  }

  /** The loop leaves the live set as it found it: it allocates and frees nothing. */
  lemma {:induction false} CirclesReplay(t: seq<Cv.Event>, keypoints: Cv.Handle, out: Cv.Handle, kps: seq<KeyPoint>, live: set<Cv.Handle>)
    requires Cv.Replay({}, t) == Cv.Some(live) && keypoints in live && out in live
    ensures Cv.Replay({}, CirclesRun(t, keypoints, out, kps)) == Cv.Some(live)
    decreases |kps|
  {
    if kps != [] {
      var i := |kps| - 1;
      var before := CirclesRun(t, keypoints, out, kps[..i]);
      var fetch := Cv.Call(Cv.VectorGet(i), [keypoints], []);
      CirclesReplay(t, keypoints, out, kps[..i], live);
      Cv.ReplaySnoc({}, before, fetch);
      Cv.ReplaySnoc({}, before + [fetch], Cv.Call(CircleOf(kps[i]), [out], [out]));
    }
  }

  /** The setup, applied one step at a time to a replay outcome. */
  function SetupSteps(o: Cv.Option<set<Cv.Handle>>, src: Cv.Handle, base: Cv.Handle): Cv.Option<set<Cv.Handle>> {
    var gray, orb, keypoints, out := base, base + 1, base + 2, base + 3;
    var o1 := Cv.Step(o, Cv.New(orb, Cv.Orb));
    var o2 := Cv.Step(o1, Cv.New(keypoints, Cv.KeyPointVector));
    var o3 := Cv.Step(o2, Cv.Call(Cv.OrbDetect, [orb, gray], [keypoints]));
    var o4 := Cv.Step(o3, Cv.New(out, Cv.Mat));
    Cv.Step(o4, Cv.Call(Cv.Clone, [src], [out]))
  }

  lemma SetupReplay(log: seq<Cv.Event>, src: Cv.Handle, base: Cv.Handle)
    ensures Cv.Replay({}, SetupRun(log, src, base)) == SetupSteps(Cv.Replay({}, Preprocess.ProducerRun(log, Cv.CvtColor(Cv.RgbaToGray), src, base)), src, base)
  {
    var p0 := Preprocess.ProducerRun(log, Cv.CvtColor(Cv.RgbaToGray), src, base);
    var p1 := p0 + [Cv.New(base + 1, Cv.Orb)];
    var p2 := p1 + [Cv.New(base + 2, Cv.KeyPointVector)];
    var p3 := p2 + [Cv.Call(Cv.OrbDetect, [base + 1, base], [base + 2])];
    var p4 := p3 + [Cv.New(base + 3, Cv.Mat)];
    Cv.ReplaySnoc({}, p0, Cv.New(base + 1, Cv.Orb));
    Cv.ReplaySnoc({}, p1, Cv.New(base + 2, Cv.KeyPointVector));
    Cv.ReplaySnoc({}, p2, Cv.Call(Cv.OrbDetect, [base + 1, base], [base + 2]));
    Cv.ReplaySnoc({}, p3, Cv.New(base + 3, Cv.Mat));
    Cv.ReplaySnoc({}, p4, Cv.Call(Cv.Clone, [src], [base + 3]));
  }

  lemma SetupStepsFrom(live: set<Cv.Handle>, src: Cv.Handle, base: Cv.Handle)
    requires src in live && Cv.Below(live, base)
    ensures SetupSteps(Cv.Some(live + {base}), src, base) == Cv.Some(live + {base, base + 1, base + 2, base + 3})
  {
    var l1 := live + {base} + {base + 1};
    var l2 := l1 + {base + 2};
    var l3 := l2 + {base + 3};
    assert Cv.Step(Cv.Some(live + {base}), Cv.New(base + 1, Cv.Orb)) == Cv.Some(l1);
    assert Cv.Step(Cv.Some(l1), Cv.New(base + 2, Cv.KeyPointVector)) == Cv.Some(l2);
    assert Cv.Step(Cv.Some(l2), Cv.Call(Cv.OrbDetect, [base + 1, base], [base + 2])) == Cv.Some(l2);
    assert Cv.Step(Cv.Some(l2), Cv.New(base + 3, Cv.Mat)) == Cv.Some(l3);
    assert Cv.Step(Cv.Some(l3), Cv.Call(Cv.Clone, [src], [base + 3])) == Cv.Some(l3);
    assert l3 == live + {base, base + 1, base + 2, base + 3};
  }

  /** After the setup, the four buffers it allocates are live besides those that were. */
  lemma SetupLeavesFour(log: seq<Cv.Event>, src: Cv.Handle, base: Cv.Handle)
    requires Cv.Ready(log, base) && src in Cv.LiveAfter(log)
    ensures Cv.Replay({}, SetupRun(log, src, base)) == Cv.Some(Cv.LiveAfter(log) + {base, base + 1, base + 2, base + 3})
  {
    Preprocess.ProducerReturnsOne(log, Cv.CvtColor(Cv.RgbaToGray), src, base);
    SetupReplay(log, src, base);
    SetupStepsFrom(Cv.LiveAfter(log), src, base);
  }

  /** The closing deletes free `gray`, `orb` and `keypoints`. */
  lemma TeardownReplay(t: seq<Cv.Event>, base: Cv.Handle, live: set<Cv.Handle>)
    requires Cv.Replay({}, t) == Cv.Some(live) && base in live && base + 1 in live && base + 2 in live
    ensures Cv.Replay({}, t + [Cv.Delete(base)] + [Cv.Delete(base + 1)] + [Cv.Delete(base + 2)]) == Cv.Some(live - {base, base + 1, base + 2})
  {
    Cv.ReplaySnoc({}, t, Cv.Delete(base));
    Cv.ReplaySnoc({}, t + [Cv.Delete(base)], Cv.Delete(base + 1));
    Cv.ReplaySnoc({}, t + [Cv.Delete(base)] + [Cv.Delete(base + 1)], Cv.Delete(base + 2));
    assert live - {base} - {base + 1} - {base + 2} == live - {base, base + 1, base + 2};
  }

  // ---- the whole mode ----

  /** Run on a ready log with `src` live, `featureMode` leaves exactly one more buffer live: `out`. */
  lemma FeatureModeReplay(log: seq<Cv.Event>, src: Cv.Handle, detected: seq<KeyPoint>, base: Cv.Handle)
    requires Cv.Ready(log, base) && src in Cv.LiveAfter(log)
    ensures Cv.Replay({}, FeatureModeRun(log, src, detected, base)) == Cv.Some(Cv.LiveAfter(log) + {base + 3})
    ensures Cv.Ready(FeatureModeRun(log, src, detected, base), base + 4)
  {
    var live := Cv.LiveAfter(log);
    var setup := SetupRun(log, src, base);
    var l := live + {base, base + 1, base + 2, base + 3};
    SetupLeavesFour(log, src, base);
    CirclesReplay(setup, base + 2, base + 3, detected, l);
    TeardownReplay(CirclesRun(setup, base + 2, base + 3, detected), base, l);
    assert l - {base, base + 1, base + 2} == live + {base + 3};
  }

  /** The life of `h` across the whole mode, given its life `before`. */
  function FeatureModeLife(before: seq<Cv.Use>, src: Cv.Handle, detected: seq<KeyPoint>, base: Cv.Handle, h: Cv.Handle): seq<Cv.Use> {
    CirclesLife(SetupLife(before, src, base, h), base + 2, base + 3, detected, h)
    + Cv.UsesOf(Cv.Delete(base), h)
    + Cv.UsesOf(Cv.Delete(base + 1), h)
    + Cv.UsesOf(Cv.Delete(base + 2), h)
  }

  lemma FeatureModeHistory(log: seq<Cv.Event>, src: Cv.Handle, detected: seq<KeyPoint>, base: Cv.Handle, h: Cv.Handle)
    ensures Cv.History(FeatureModeRun(log, src, detected, base), h) == FeatureModeLife(Cv.History(log, h), src, detected, base, h)
  {
    var setup := SetupRun(log, src, base);
    var t := CirclesRun(setup, base + 2, base + 3, detected);
    SetupHistory(log, src, base, h);
    CirclesHistory(setup, base + 2, base + 3, detected, h);
    Cv.HistorySnoc(t, Cv.Delete(base), h);
    Cv.HistorySnoc(t + [Cv.Delete(base)], Cv.Delete(base + 1), h);
    Cv.HistorySnoc(t + [Cv.Delete(base)] + [Cv.Delete(base + 1)], Cv.Delete(base + 2), h);
  }

  lemma FeatureModeLifeOfSrc(before: seq<Cv.Use>, src: Cv.Handle, detected: seq<KeyPoint>, base: Cv.Handle)
    requires src < base
    ensures FeatureModeLife(before, src, detected, base, src) == before + [Cv.Read(Cv.CvtColor(Cv.RgbaToGray), 0), Cv.Read(Cv.Clone, 0)]
  {
    SetupLifeOfSrc(before, src, base);
    CirclesLifeOfOther(SetupLife(before, src, base, src), base + 2, base + 3, detected, src);
  }

  lemma FeatureModeLifeOfGray(before: seq<Cv.Use>, src: Cv.Handle, detected: seq<KeyPoint>, base: Cv.Handle)
    requires src < base
    ensures FeatureModeLife(before, src, detected, base, base) ==
      before + [Cv.Alloc(Cv.Mat), Cv.Write(Cv.CvtColor(Cv.RgbaToGray)), Cv.Read(Cv.OrbDetect, 1), Cv.Free]
  {
    SetupLifeOfGray(before, src, base);
    CirclesLifeOfOther(SetupLife(before, src, base, base), base + 2, base + 3, detected, base);
  }

  lemma FeatureModeLifeOfOrb(before: seq<Cv.Use>, src: Cv.Handle, detected: seq<KeyPoint>, base: Cv.Handle)
    requires src < base
    ensures FeatureModeLife(before, src, detected, base, base + 1) == before + [Cv.Alloc(Cv.Orb), Cv.Read(Cv.OrbDetect, 0), Cv.Free]
  {
    SetupLifeOfOrb(before, src, base);
    CirclesLifeOfOther(SetupLife(before, src, base, base + 1), base + 2, base + 3, detected, base + 1);
  }

  /** From the loop on, the keypoint vector is read once per keypoint and then freed. */
  lemma KeypointsAfterSetup(setup: seq<Cv.Use>, detected: seq<KeyPoint>, base: Cv.Handle)
    ensures CirclesLife(setup, base + 2, base + 3, detected, base + 2)
      + Cv.UsesOf(Cv.Delete(base), base + 2) + Cv.UsesOf(Cv.Delete(base + 1), base + 2) + Cv.UsesOf(Cv.Delete(base + 2), base + 2)
      == setup + Cv.Gets(|detected|) + [Cv.Free]
  {
    CirclesLifeOfKeypoints(setup, base + 2, base + 3, detected);
  }

  lemma {:induction false} FeatureModeLifeOfKeypoints(before: seq<Cv.Use>, src: Cv.Handle, detected: seq<KeyPoint>, base: Cv.Handle)
    requires src < base
    ensures FeatureModeLife(before, src, detected, base, base + 2) ==
      before + [Cv.Alloc(Cv.KeyPointVector), Cv.Write(Cv.OrbDetect)] + Cv.Gets(|detected|) + [Cv.Free]
  {
    SetupLifeOfKeypoints(before, src, base);
    KeypointsAfterSetup(SetupLife(before, src, base, base + 2), detected, base);
  }

  lemma FeatureModeLifeOfOut(before: seq<Cv.Use>, src: Cv.Handle, detected: seq<KeyPoint>, base: Cv.Handle)
    requires src < base
    ensures FeatureModeLife(before, src, detected, base, base + 3) ==
      before + [Cv.Alloc(Cv.Mat), Cv.Write(Cv.Clone)] + Circles(detected)
  {
    SetupLifeOfOut(before, src, base);
    CirclesLifeOfOut(SetupLife(before, src, base, base + 3), base + 2, base + 3, detected);
  }

  lemma FeatureModeHistoryOfSrc(log: seq<Cv.Event>, src: Cv.Handle, detected: seq<KeyPoint>, base: Cv.Handle)
    requires src < base
    ensures Cv.History(FeatureModeRun(log, src, detected, base), src) == Cv.History(log, src) + [Cv.Read(Cv.CvtColor(Cv.RgbaToGray), 0), Cv.Read(Cv.Clone, 0)]
  {
    FeatureModeHistory(log, src, detected, base, src);
    FeatureModeLifeOfSrc(Cv.History(log, src), src, detected, base);
  }

  lemma FeatureModeHistoryOfGray(log: seq<Cv.Event>, src: Cv.Handle, detected: seq<KeyPoint>, base: Cv.Handle)
    requires src < base
    ensures Cv.History(FeatureModeRun(log, src, detected, base), base) == Cv.History(log, base) + [Cv.Alloc(Cv.Mat), Cv.Write(Cv.CvtColor(Cv.RgbaToGray)), Cv.Read(Cv.OrbDetect, 1), Cv.Free]
  {
    FeatureModeHistory(log, src, detected, base, base);
    FeatureModeLifeOfGray(Cv.History(log, base), src, detected, base);
  }

  lemma FeatureModeHistoryOfOrb(log: seq<Cv.Event>, src: Cv.Handle, detected: seq<KeyPoint>, base: Cv.Handle)
    requires src < base
    ensures Cv.History(FeatureModeRun(log, src, detected, base), base + 1) == Cv.History(log, base + 1) + [Cv.Alloc(Cv.Orb), Cv.Read(Cv.OrbDetect, 0), Cv.Free]
  {
    FeatureModeHistory(log, src, detected, base, base + 1);
    FeatureModeLifeOfOrb(Cv.History(log, base + 1), src, detected, base);
  }

  lemma FeatureModeHistoryOfKeypoints(log: seq<Cv.Event>, src: Cv.Handle, detected: seq<KeyPoint>, base: Cv.Handle)
    requires src < base
    ensures Cv.History(FeatureModeRun(log, src, detected, base), base + 2) == Cv.History(log, base + 2) + [Cv.Alloc(Cv.KeyPointVector), Cv.Write(Cv.OrbDetect)] + Cv.Gets(|detected|) + [Cv.Free]
  {
    FeatureModeHistory(log, src, detected, base, base + 2);
    FeatureModeLifeOfKeypoints(Cv.History(log, base + 2), src, detected, base);
  }

  lemma FeatureModeHistoryOfOut(log: seq<Cv.Event>, src: Cv.Handle, detected: seq<KeyPoint>, base: Cv.Handle)
    requires src < base
    ensures Cv.History(FeatureModeRun(log, src, detected, base), base + 3) == Cv.History(log, base + 3) + [Cv.Alloc(Cv.Mat), Cv.Write(Cv.Clone)] + Circles(detected)
  {
    FeatureModeHistory(log, src, detected, base, base + 3);
    FeatureModeLifeOfOut(Cv.History(log, base + 3), src, detected, base);
  }

  /**
   * What `featureMode` does to every buffer it names. The frame is only read: by the
   * gray conversion and by the clone, so no circle is ever drawn on it. The gray image
   * and the detector are read by `orb.detect` and deleted; the keypoint vector is
   * written by the detector, read once per keypoint in index order, and deleted. The
   * result is a clone carrying exactly one circle per keypoint, in order, and nothing
   * else; with no keypoints it is an unannotated clone.
   */
  lemma FeatureModeLifetimes(log: seq<Cv.Event>, src: Cv.Handle, detected: seq<KeyPoint>, base: Cv.Handle)
    requires src < base
    ensures var run := FeatureModeRun(log, src, detected, base);
      && Cv.History(run, src) == Cv.History(log, src) + [Cv.Read(Cv.CvtColor(Cv.RgbaToGray), 0), Cv.Read(Cv.Clone, 0)]
      && Cv.History(run, base) == Cv.History(log, base) + [Cv.Alloc(Cv.Mat), Cv.Write(Cv.CvtColor(Cv.RgbaToGray)), Cv.Read(Cv.OrbDetect, 1), Cv.Free]
      && Cv.History(run, base + 1) == Cv.History(log, base + 1) + [Cv.Alloc(Cv.Orb), Cv.Read(Cv.OrbDetect, 0), Cv.Free]
      && Cv.History(run, base + 2) == Cv.History(log, base + 2) + [Cv.Alloc(Cv.KeyPointVector), Cv.Write(Cv.OrbDetect)] + Cv.Gets(|detected|) + [Cv.Free]
      && Cv.History(run, base + 3) == Cv.History(log, base + 3) + [Cv.Alloc(Cv.Mat), Cv.Write(Cv.Clone)] + Circles(detected)
  {
    FeatureModeHistoryOfSrc(log, src, detected, base);
    FeatureModeHistoryOfGray(log, src, detected, base);
    FeatureModeHistoryOfOrb(log, src, detected, base);
    FeatureModeHistoryOfKeypoints(log, src, detected, base);
    FeatureModeHistoryOfOut(log, src, detected, base);
  }

  /** With no keypoints the result is the bare clone. */
  lemma FeatureModeNoKeypoints(log: seq<Cv.Event>, src: Cv.Handle, base: Cv.Handle)
    requires src < base
    ensures Cv.History(FeatureModeRun(log, src, [], base), base + 3) == Cv.History(log, base + 3) + [Cv.Alloc(Cv.Mat), Cv.Write(Cv.Clone)]
  {
    FeatureModeHistoryOfOut(log, src, [], base);
  }

  method FeatureMode(a: Cv.Arena, src: Cv.Handle, detected: seq<KeyPoint>) returns (out: Cv.Handle)
    requires a.Valid() && src in a.Live()
    modifies a
    ensures out == old(a.next) + 3 && a.next == out + 1
    ensures a.log == FeatureModeRun(old(a.log), src, detected, old(a.next))
    ensures a.Valid() && out !in old(a.Live()) && a.Live() == old(a.Live()) + {out}
  {
    ghost var log0, base := a.log, a.next;
    FeatureModeReplay(log0, src, detected, base);
    var gray := a.Alloc(Cv.Mat);
    a.Invoke(Cv.CvtColor(Cv.RgbaToGray), [src], [gray]);
    var orb := a.Alloc(Cv.Orb);
    var keypoints := a.Alloc(Cv.KeyPointVector);
    a.Invoke(Cv.OrbDetect, [orb, gray], [keypoints]);
    out := a.Alloc(Cv.Mat);
    a.Invoke(Cv.Clone, [src], [out]);
    ghost var setup := a.log;
    assert setup == SetupRun(log0, src, base);
    var i := 0;
    while i < |detected|
      invariant 0 <= i <= |detected|
      invariant a.next == out + 1
      invariant a.log == CirclesRun(setup, keypoints, out, detected[..i])
    {
      var kp := detected[i];
      a.Invoke(Cv.VectorGet(i), [keypoints], []);
      var x, y := Round(kp.x), Round(kp.y);
      var r := Radius(kp);
      a.Invoke(Cv.Circle(Cv.Point(x, y), r, Green, 2), [out], [out]);
      assert detected[..i + 1][..i] == detected[..i];
      i := i + 1;
    }
    assert detected[..i] == detected;
    ghost var loop := a.log;
    assert loop == CirclesRun(SetupRun(log0, src, base), base + 2, base + 3, detected);
    a.Delete(gray);
    a.Delete(orb);
    a.Delete(keypoints);
    assert a.log == FeatureModeRun(log0, src, detected, base);
  }
}
