/**
 * The frame loop of the page (`processFrame` and its helpers in `js/ui.js`).
 *
 * When OpenCV.js has loaded, a tick reads the camera frame into a fresh Mat, runs the
 * branch the mode selector names, shows the result, counts the frame for the FPS
 * display, deletes the frame and the result, and, if the screenshot button was
 * pressed since the last rendered frame, schedules one save. Before OpenCV.js has
 * loaded a tick does nothing but reschedule itself.
 */
module Ui {
  import Cv
  import Modes
  import Features
  import Overlay

  // ---- mode dispatch ----

  /** The branches of the `switch` on the selector value; `Passthrough` is its `default`. */
  datatype Mode = CannyMode | SobelMode | LogMode | DogMode | FeaturesMode | DepthMode | SegmentMode | ArMode | Passthrough

  /** The selector values the `switch` has a case for. */
  const Recognised: set<string> := {"canny", "sobel", "log", "dog", "features", "depth", "segment", "ar"}

  /** The selector value that picks a branch; for the default, one value no case names. */
  function Value(m: Mode): string {
    match m
    case CannyMode => "canny"
    case SobelMode => "sobel"
    case LogMode => "log"
    case DogMode => "dog"
    case FeaturesMode => "features"
    case DepthMode => "depth"
    case SegmentMode => "segment"
    case ArMode => "ar"
    case Passthrough => ""
  }

  /**
   * The branch the `switch` takes for the selector value `s`: the case naming `s`, and
   * the default clone for every value no case names.
   */
  function ParseMode(s: string): (m: Mode)
    ensures m == Passthrough <==> s !in Recognised
    ensures m != Passthrough ==> Value(m) == s
  {
    if s == "canny" then CannyMode
    else if s == "sobel" then SobelMode
    else if s == "log" then LogMode
    else if s == "dog" then DogMode
    else if s == "features" then FeaturesMode
    else if s == "depth" then DepthMode
    else if s == "segment" then SegmentMode
    else if s == "ar" then ArMode
    else Passthrough
  }

  /** Every branch is reached by its own selector value, so no case shadows another. */
  lemma ParseValue(m: Mode)
    ensures ParseMode(Value(m)) == m
    ensures m != Passthrough ==> Value(m) in Recognised
  {
    match m
    case CannyMode =>
    case SobelMode =>
    case LogMode =>
    case DogMode =>
    case FeaturesMode =>
    case DepthMode =>
    case SegmentMode =>
    case ArMode =>
    case Passthrough =>
  }

  // ---- the branches ----

  /** `case 'features'`: detect ORB keypoints, draw them, delete the keypoint vector. */
  function FeaturesRun(log: seq<Cv.Event>, src: Cv.Handle, base: Cv.Handle): seq<Cv.Event> {
    var kps, out := base + 2, base + 3;
    Overlay.DrawKeypointsRun(Features.DetectOrbRun(log, src, base), src, kps, out)
    + [Cv.Delete(kps)]
  }

  /** `case 'depth'`: `Modes.depthLike`, then its gray result turned to RGBA in place. */
  function DepthRun(log: seq<Cv.Event>, src: Cv.Handle, base: Cv.Handle): seq<Cv.Event> {
    var out := base + 3;
    Modes.DepthLikeRun(log, src, base) + [Cv.Call(Cv.CvtColor(Cv.GrayToRgba), [out], [out])]
  }

  /** `case 'segment'`: `Modes.segment`, then its mask turned to RGBA in place. */
  function SegmentRun(log: seq<Cv.Event>, src: Cv.Handle, base: Cv.Handle): seq<Cv.Event> {
    var out := base + 1;
    Modes.SegmentRun(log, src, base) + [Cv.Call(Cv.CvtColor(Cv.GrayToRgba), [out], [out])]
  }

  /**
   * `case 'ar'`: Canny edges turned to RGBA in place, a clone of the frame, the edges
   * blended into the clone with weights 0.7 and 0.7, and the edges deleted.
   */
  function ArRun(log: seq<Cv.Event>, src: Cv.Handle, base: Cv.Handle): seq<Cv.Event> {
    var edges, out := base + 1, base + 2;
    Modes.CannyRun(log, src, base)
    + [Cv.Call(Cv.CvtColor(Cv.GrayToRgba), [edges], [edges])]
    + [Cv.New(out, Cv.Mat)]
    + [Cv.Call(Cv.Clone, [src], [out])]
    + [Cv.Call(Cv.AddWeighted(70, 70, 0), [out, edges], [out])]
    + [Cv.Delete(edges)]
  }

  /** `default`: a clone of the frame. */
  function CloneRun(log: seq<Cv.Event>, src: Cv.Handle, base: Cv.Handle): seq<Cv.Event> {
    log + [Cv.New(base, Cv.Mat)] + [Cv.Call(Cv.Clone, [src], [base])]
  }

  /** The log after the branch for `m` ran on the frame `src`, with `base` the next free handle. */
  function BranchRun(log: seq<Cv.Event>, src: Cv.Handle, m: Mode, base: Cv.Handle): seq<Cv.Event> {
    match m
    case CannyMode => Modes.CannyRun(log, src, base)
    case SobelMode => Modes.SobelRun(log, src, base)
    case LogMode => Modes.LogRun(log, src, base)
    case DogMode => Modes.DogRun(log, src, base)
    case FeaturesMode => FeaturesRun(log, src, base)
    case DepthMode => DepthRun(log, src, base)
    case SegmentMode => SegmentRun(log, src, base)
    case ArMode => ArRun(log, src, base)
    case Passthrough => CloneRun(log, src, base)
  }

  /** The handle of `outMat` after the branch for `m`: the last one the branch allocates. */
  function Result(m: Mode, base: Cv.Handle): Cv.Handle {
    match m
    case CannyMode => base + 1
    case SobelMode => base + 1
    case LogMode => base + 2
    case DogMode => base + 3
    case FeaturesMode => base + 3
    case DepthMode => base + 3
    case SegmentMode => base + 1
    case ArMode => base + 2
    case Passthrough => base
  }

  /** The features branch leaves only the drawing live: the keypoint vector is deleted after use. */
  lemma FeaturesReturnsOne(log: seq<Cv.Event>, src: Cv.Handle, base: Cv.Handle)
    requires Cv.Ready(log, base) && src in Cv.LiveAfter(log)
    ensures Cv.Replay({}, FeaturesRun(log, src, base)) == Cv.Some(Cv.LiveAfter(log) + {base + 3})
    ensures Cv.Ready(FeaturesRun(log, src, base), base + 4)
  {
    var run1 := Features.DetectOrbRun(log, src, base);
    Features.DetectOrbReturnsOne(log, src, base);
    Overlay.DrawKeypointsReturnsOne(run1, src, base + 2, base + 3);
    DropKeypoints(Overlay.DrawKeypointsRun(run1, src, base + 2, base + 3), Cv.LiveAfter(log), base);
  }

  /** Deleting the keypoint vector once the drawing is made leaves the drawing the only new buffer. */
  lemma DropKeypoints(run: seq<Cv.Event>, live: set<Cv.Handle>, base: Cv.Handle)
    requires Cv.Below(live, base)
    requires Cv.Replay({}, run) == Cv.Some(live + {base + 2} + {base + 3})
    ensures Cv.Replay({}, run + [Cv.Delete(base + 2)]) == Cv.Some(live + {base + 3})
    ensures Cv.Ready(run + [Cv.Delete(base + 2)], base + 4)
  {
    Cv.DeleteStep(run, base + 2);
    assert live + {base + 2} + {base + 3} - {base + 2} == live + {base + 3};
  }

  /**
   * In the features branch the keypoint vector is allocated and filled by the
   * detector, read once by the drawing as its second argument, and deleted.
   */
  lemma FeaturesLifeOfKeypoints(log: seq<Cv.Event>, src: Cv.Handle, base: Cv.Handle)
    requires src < base
    ensures Cv.History(FeaturesRun(log, src, base), base + 2) ==
      Cv.History(log, base + 2) + [Cv.Alloc(Cv.KeyPointVector), Cv.Write(Cv.OrbDetect), Cv.Read(Cv.DrawKeypoints(Overlay.Green), 1), Cv.Free]
  {
    var kps, out := base + 2, base + 3;
    var run1 := Features.DetectOrbRun(log, src, base);
    Features.DetectOrbHistoryOfKeypoints(log, src, base);
    Overlay.DrawKeypointsHistory(run1, src, kps, out, kps);
    assert Cv.IndexOf([src, kps], kps) == 1;
    var run2 := Overlay.DrawKeypointsRun(run1, src, kps, out);
    Cv.HistorySnoc(run2, Cv.Delete(kps), kps);
  }

  /** The depth and segment branches: a mode's result, converted in place, stays the only new buffer. */
  lemma ConvertKeepsLive(run: seq<Cv.Event>, out: Cv.Handle)
    requires Cv.Replay({}, run).Some? && out in Cv.LiveAfter(run)
    ensures Cv.Replay({}, run + [Cv.Call(Cv.CvtColor(Cv.GrayToRgba), [out], [out])]) == Cv.Replay({}, run)
    ensures Cv.History(run + [Cv.Call(Cv.CvtColor(Cv.GrayToRgba), [out], [out])], out) == Cv.History(run, out) + [Cv.Update(Cv.CvtColor(Cv.GrayToRgba))]
  {
    Cv.CallStep(run, Cv.CvtColor(Cv.GrayToRgba), [out], [out]);
    Cv.HistoryStep(run, Cv.Call(Cv.CvtColor(Cv.GrayToRgba), [out], [out]), out);
  }

  /**
   * The ar branch leaves only the blend live. The edges are written by Canny,
   * converted in place, read once by the blend as its second argument, and deleted;
   * the result is a fresh clone of the frame, blended into in place.
   */
  lemma ArReturnsOne(log: seq<Cv.Event>, src: Cv.Handle, base: Cv.Handle)
    requires Cv.Ready(log, base) && src in Cv.LiveAfter(log)
    ensures Cv.Replay({}, ArRun(log, src, base)) == Cv.Some(Cv.LiveAfter(log) + {base + 2})
    ensures Cv.Ready(ArRun(log, src, base), base + 3)
  {
    var live := Cv.LiveAfter(log);
    var edges, out := base + 1, base + 2;
    Modes.CannyReturnsOne(log, src, base);
    var t0 := Modes.CannyRun(log, src, base);
    assert Cv.LiveAfter(t0) == live + {edges};
    var e1 := Cv.Call(Cv.CvtColor(Cv.GrayToRgba), [edges], [edges]);
    Cv.CallStep(t0, e1.op, e1.inputs, e1.outputs);
    var t1 := t0 + [e1];
    var e2 := Cv.New(out, Cv.Mat);
    Cv.NewStep(t1, out, Cv.Mat);
    var t2 := t1 + [e2];
    assert Cv.LiveAfter(t2) == live + {edges} + {out};
    var e3 := Cv.Call(Cv.Clone, [src], [out]);
    Cv.CallStep(t2, e3.op, e3.inputs, e3.outputs);
    var t3 := t2 + [e3];
    var e4 := Cv.Call(Cv.AddWeighted(70, 70, 0), [out, edges], [out]);
    Cv.CallStep(t3, e4.op, e4.inputs, e4.outputs);
    var t4 := t3 + [e4];
    Cv.DeleteStep(t4, edges);
    assert live + {edges} + {out} - {edges} == live + {out};
    assert t4 + [Cv.Delete(edges)] == ArRun(log, src, base);
  }

  /** What the ar branch does to the frame, the edges and the result, use by use. */
  lemma ArLifetimes(log: seq<Cv.Event>, src: Cv.Handle, base: Cv.Handle)
    requires src < base
    ensures var run := ArRun(log, src, base);
      && Cv.History(run, src) == Cv.History(log, src) + [Cv.Read(Cv.CvtColor(Cv.RgbaToGray), 0), Cv.Read(Cv.Clone, 0)]
      && Cv.History(run, base + 1) == Cv.History(log, base + 1) +
           [Cv.Alloc(Cv.Mat), Cv.Write(Cv.Canny(50, 150)), Cv.Update(Cv.CvtColor(Cv.GrayToRgba)), Cv.Read(Cv.AddWeighted(70, 70, 0), 1), Cv.Free]
      && Cv.History(run, base + 2) == Cv.History(log, base + 2) +
           [Cv.Alloc(Cv.Mat), Cv.Write(Cv.Clone), Cv.Update(Cv.AddWeighted(70, 70, 0))]
  {
    var edges, out := base + 1, base + 2;
    var t0 := Modes.CannyRun(log, src, base);
    Modes.CannyLifetimes(log, src, base);
    var tail := [Cv.Call(Cv.CvtColor(Cv.GrayToRgba), [edges], [edges]), Cv.New(out, Cv.Mat), Cv.Call(Cv.Clone, [src], [out]),
                 Cv.Call(Cv.AddWeighted(70, 70, 0), [out, edges], [out]), Cv.Delete(edges)];
    assert ArRun(log, src, base) == t0 + tail;
    Cv.HistoryAppend(t0, tail, src);
    Cv.HistoryAppend(t0, tail, edges);
    Cv.HistoryAppend(t0, tail, out);
    TailHistory(tail, src, edges, out);
    Modes.CannyHistory(log, src, base, out);
  }

  /** The last five events of the ar branch, use by use for each handle they name. */
  lemma TailHistory(tail: seq<Cv.Event>, src: Cv.Handle, edges: Cv.Handle, out: Cv.Handle)
    requires src < edges < out
    requires tail == [Cv.Call(Cv.CvtColor(Cv.GrayToRgba), [edges], [edges]), Cv.New(out, Cv.Mat), Cv.Call(Cv.Clone, [src], [out]),
                      Cv.Call(Cv.AddWeighted(70, 70, 0), [out, edges], [out]), Cv.Delete(edges)]
    ensures Cv.History(tail, src) == [Cv.Read(Cv.Clone, 0)]
    ensures Cv.History(tail, edges) == [Cv.Update(Cv.CvtColor(Cv.GrayToRgba)), Cv.Read(Cv.AddWeighted(70, 70, 0), 1), Cv.Free]
    ensures Cv.History(tail, out) == [Cv.Alloc(Cv.Mat), Cv.Write(Cv.Clone), Cv.Update(Cv.AddWeighted(70, 70, 0))]
  {
    var e0, e1, e2, e3, e4 := tail[0], tail[1], tail[2], tail[3], tail[4];
    assert tail == [e0] + [e1] + [e2] + [e3] + [e4];
    assert Cv.IndexOf([out, edges], edges) == 1;
    forall h | h in {src, edges, out}
      ensures Cv.History(tail, h) == Cv.UsesOf(e0, h) + Cv.UsesOf(e1, h) + Cv.UsesOf(e2, h) + Cv.UsesOf(e3, h) + Cv.UsesOf(e4, h)
    {
      Cv.HistorySingle(e0, h);
      Cv.HistorySnoc([e0], e1, h);
      Cv.HistorySnoc([e0] + [e1], e2, h);
      Cv.HistorySnoc([e0] + [e1] + [e2], e3, h);
      Cv.HistorySnoc([e0] + [e1] + [e2] + [e3], e4, h);
    }
  }

  /** The default branch: a fresh clone of the frame. */
  lemma CloneReturnsOne(log: seq<Cv.Event>, src: Cv.Handle, base: Cv.Handle)
    requires Cv.Ready(log, base) && src in Cv.LiveAfter(log)
    ensures Cv.Replay({}, CloneRun(log, src, base)) == Cv.Some(Cv.LiveAfter(log) + {base})
    ensures Cv.Ready(CloneRun(log, src, base), base + 1)
  {
    Cv.NewStep(log, base, Cv.Mat);
    Cv.CallStep(log + [Cv.New(base, Cv.Mat)], Cv.Clone, [src], [base]);
  }

  /**
   * Every branch of the `switch`, run on a ready log with the frame live, leaves
   * exactly one more buffer live: `outMat`, which is fresh (so never the frame itself)
   * and the last handle the branch takes. Everything else it allocates is deleted.
   */
  lemma BranchReturnsOne(log: seq<Cv.Event>, src: Cv.Handle, m: Mode, base: Cv.Handle)
    requires Cv.Ready(log, base) && src in Cv.LiveAfter(log)
    ensures base <= Result(m, base) && Result(m, base) != src
    ensures Cv.Replay({}, BranchRun(log, src, m, base)) == Cv.Some(Cv.LiveAfter(log) + {Result(m, base)})
    ensures Cv.Ready(BranchRun(log, src, m, base), Result(m, base) + 1)
  {
    match m
    case CannyMode => Modes.CannyReturnsOne(log, src, base);
    case SobelMode => Modes.SobelReturnsOne(log, src, base);
    case LogMode => Modes.LogReturnsOne(log, src, base);
    case DogMode => Modes.DogReturnsOne(log, src, base);
    case FeaturesMode => FeaturesReturnsOne(log, src, base);
    case DepthMode =>
      Modes.DepthLikeReturnsOne(log, src, base);
      ConvertKeepsLive(Modes.DepthLikeRun(log, src, base), base + 3);
    case SegmentMode =>
      Modes.SegmentReturnsOne(log, src, base);
      ConvertKeepsLive(Modes.SegmentRun(log, src, base), base + 1);
    case ArMode => ArReturnsOne(log, src, base);
    case Passthrough => CloneReturnsOne(log, src, base);
  }

  /** What each branch does to the frame, use by use: it only ever reads it. */
  function FrameUses(m: Mode): (us: seq<Cv.Use>)
    ensures forall u <- us :: u.Read?
    ensures |us| > 0
  {
    var toGray := Cv.Read(Cv.CvtColor(Cv.RgbaToGray), 0);
    match m
    case FeaturesMode => [toGray, Cv.Read(Cv.DrawKeypoints(Overlay.Green), 0)]
    case ArMode => [toGray, Cv.Read(Cv.Clone, 0)]
    case Passthrough => [Cv.Read(Cv.Clone, 0)]
    case _ => [toGray]
  }

  /** An in-place conversion of a later buffer leaves the frame's life as it was. */
  lemma ConvertSkipsFrame(run: seq<Cv.Event>, src: Cv.Handle, out: Cv.Handle)
    requires src < out
    ensures Cv.History(run + [Cv.Call(Cv.CvtColor(Cv.GrayToRgba), [out], [out])], src) == Cv.History(run, src)
  {
    Cv.HistoryStep(run, Cv.Call(Cv.CvtColor(Cv.GrayToRgba), [out], [out]), src);
  }

  /** In the features branch the frame is read by the gray conversion and then by the drawing, as its first argument. */
  lemma FeaturesLifeOfFrame(log: seq<Cv.Event>, src: Cv.Handle, base: Cv.Handle)
    requires src < base
    ensures Cv.History(FeaturesRun(log, src, base), src) ==
      Cv.History(log, src) + [Cv.Read(Cv.CvtColor(Cv.RgbaToGray), 0), Cv.Read(Cv.DrawKeypoints(Overlay.Green), 0)]
  {
    Features.DetectOrbHistoryOfSrc(log, src, base);
    DrawLifeOfFrame(Features.DetectOrbRun(log, src, base), src, base + 2, base + 3);
  }

  /** Drawing the keypoints and deleting them reads the frame once, as the drawing's first argument. */
  lemma DrawLifeOfFrame(run: seq<Cv.Event>, src: Cv.Handle, kps: Cv.Handle, out: Cv.Handle)
    requires src < kps < out
    ensures Cv.History(Overlay.DrawKeypointsRun(run, src, kps, out) + [Cv.Delete(kps)], src) ==
      Cv.History(run, src) + [Cv.Read(Cv.DrawKeypoints(Overlay.Green), 0)]
  {
    Cv.HistoryStep(run, Cv.New(out, Cv.Mat), src);
    Cv.HistoryStep(run + [Cv.New(out, Cv.Mat)], Cv.Call(Cv.DrawKeypoints(Overlay.Green), [src, kps], [out]), src);
    assert Cv.IndexOf([src, kps], src) == 0;
    Cv.HistoryStep(Overlay.DrawKeypointsRun(run, src, kps, out), Cv.Delete(kps), src);
  }

  /** The default branch reads the frame once, to clone it. */
  lemma CloneLifeOfFrame(log: seq<Cv.Event>, src: Cv.Handle, base: Cv.Handle)
    requires src < base
    ensures Cv.History(CloneRun(log, src, base), src) == Cv.History(log, src) + [Cv.Read(Cv.Clone, 0)]
  {
    Cv.HistoryStep(log, Cv.New(base, Cv.Mat), src);
    Cv.HistoryStep(log + [Cv.New(base, Cv.Mat)], Cv.Call(Cv.Clone, [src], [base]), src);
  }

  /** The four branches that only run a mode read the frame once, to gray it. */
  lemma ModeBranchReadsFrame(log: seq<Cv.Event>, src: Cv.Handle, m: Mode, base: Cv.Handle)
    requires src < base
    requires m.CannyMode? || m.SobelMode? || m.LogMode? || m.DogMode?
    ensures Cv.History(BranchRun(log, src, m, base), src) == Cv.History(log, src) + [Cv.Read(Cv.CvtColor(Cv.RgbaToGray), 0)]
  {
    match m
    case CannyMode => Modes.CannyHistoryOfSrc(log, src, base);
    case SobelMode => Modes.SobelHistoryOfSrc(log, src, base);
    case LogMode => Modes.LogHistoryOfSrc(log, src, base);
    case DogMode => Modes.DogHistoryOfSrc(log, src, base);
  }

  /** The depth branch reads the frame once, to gray it; the conversion after the mode touches only the result. */
  lemma DepthLifeOfFrame(log: seq<Cv.Event>, src: Cv.Handle, base: Cv.Handle)
    requires src < base
    ensures Cv.History(DepthRun(log, src, base), src) == Cv.History(log, src) + [Cv.Read(Cv.CvtColor(Cv.RgbaToGray), 0)]
  {
    Modes.DepthLikeHistoryOfSrc(log, src, base);
    ConvertSkipsFrame(Modes.DepthLikeRun(log, src, base), src, base + 3);
  }

  /** The segment branch reads the frame once, to gray it; the conversion after the mode touches only the result. */
  lemma SegmentLifeOfFrame(log: seq<Cv.Event>, src: Cv.Handle, base: Cv.Handle)
    requires src < base
    ensures Cv.History(SegmentRun(log, src, base), src) == Cv.History(log, src) + [Cv.Read(Cv.CvtColor(Cv.RgbaToGray), 0)]
  {
    Modes.SegmentHistoryOfSrc(log, src, base);
    ConvertSkipsFrame(Modes.SegmentRun(log, src, base), src, base + 1);
  }

  /**
   * No branch writes or deletes the frame: what each does to it is `FrameUses`, and
   * those are all reads.
   */
  lemma BranchReadsFrame(log: seq<Cv.Event>, src: Cv.Handle, m: Mode, base: Cv.Handle)
    requires src < base
    ensures Cv.History(BranchRun(log, src, m, base), src) == Cv.History(log, src) + FrameUses(m)
  {
    if m.FeaturesMode? {
      FeaturesLifeOfFrame(log, src, base);
    } else if m.ArMode? {
      ArLifetimes(log, src, base);
    } else if m.Passthrough? {
      CloneLifeOfFrame(log, src, base);
    } else if m.DepthMode? {
      DepthLifeOfFrame(log, src, base);
    } else if m.SegmentMode? {
      SegmentLifeOfFrame(log, src, base);
    } else {
      ModeBranchReadsFrame(log, src, m, base);
    }
  }

  /** `case 'features'`. */
  method FeaturesBranch(a: Cv.Arena, src: Cv.Handle) returns (out: Cv.Handle)
    requires a.Valid() && src in a.Live()
    modifies a
    ensures out == old(a.next) + 3 && a.next == out + 1
    ensures a.log == FeaturesRun(old(a.log), src, old(a.next))
    ensures a.Valid() && a.Live() == old(a.Live()) + {out}
  {
    FeaturesReturnsOne(a.log, src, a.next);
    var kps := Features.DetectOrb(a, src);
    out := Overlay.DrawKeypoints(a, src, kps);
    a.Delete(kps);
  }

  /** `case 'depth'`. */
  method DepthBranch(a: Cv.Arena, src: Cv.Handle) returns (out: Cv.Handle)
    requires a.Valid() && src in a.Live()
    modifies a
    ensures out == old(a.next) + 3 && a.next == out + 1
    ensures a.log == DepthRun(old(a.log), src, old(a.next))
    ensures a.Valid() && a.Live() == old(a.Live()) + {out}
  {
    out := Modes.DepthLike(a, src);
    ConvertKeepsLive(a.log, out);
    a.Invoke(Cv.CvtColor(Cv.GrayToRgba), [out], [out]);
  }

  /** `case 'segment'`. */
  method SegmentBranch(a: Cv.Arena, src: Cv.Handle) returns (out: Cv.Handle)
    requires a.Valid() && src in a.Live()
    modifies a
    ensures out == old(a.next) + 1 && a.next == out + 1
    ensures a.log == SegmentRun(old(a.log), src, old(a.next))
    ensures a.Valid() && a.Live() == old(a.Live()) + {out}
  {
    out := Modes.Segment(a, src);
    ConvertKeepsLive(a.log, out);
    a.Invoke(Cv.CvtColor(Cv.GrayToRgba), [out], [out]);
  }

  /** `case 'ar'`. */
  method ArBranch(a: Cv.Arena, src: Cv.Handle) returns (out: Cv.Handle)
    requires a.Valid() && src in a.Live()
    modifies a
    ensures out == old(a.next) + 2 && a.next == out + 1
    ensures a.log == ArRun(old(a.log), src, old(a.next))
    ensures a.Valid() && a.Live() == old(a.Live()) + {out}
  {
    ArReturnsOne(a.log, src, a.next);
    var edges := Modes.Canny(a, src);
    a.Invoke(Cv.CvtColor(Cv.GrayToRgba), [edges], [edges]);
    out := a.Alloc(Cv.Mat);
    a.Invoke(Cv.Clone, [src], [out]);
    a.Invoke(Cv.AddWeighted(70, 70, 0), [out, edges], [out]);
    a.Delete(edges);
  }

  /** `default`. */
  method CloneBranch(a: Cv.Arena, src: Cv.Handle) returns (out: Cv.Handle)
    requires a.Valid() && src in a.Live()
    modifies a
    ensures out == old(a.next) && a.next == out + 1
    ensures a.log == CloneRun(old(a.log), src, old(a.next))
    ensures a.Valid() && a.Live() == old(a.Live()) + {out}
  {
    CloneReturnsOne(a.log, src, a.next);
    out := a.Alloc(Cv.Mat);
    a.Invoke(Cv.Clone, [src], [out]);
  }

  /** `switch (modeSel.value)`: runs the branch for `m` on the frame `src` and returns `outMat`. */
  method Branch(a: Cv.Arena, src: Cv.Handle, m: Mode) returns (out: Cv.Handle)
    requires a.Valid() && src in a.Live()
    modifies a
    ensures out == Result(m, old(a.next)) && a.next == out + 1
    ensures a.log == BranchRun(old(a.log), src, m, old(a.next))
    ensures a.Valid() && out != src && out !in old(a.Live()) && a.Live() == old(a.Live()) + {out}
  {
    BranchReturnsOne(a.log, src, m, a.next);
    match m
    case CannyMode => out := Modes.Canny(a, src);
    case SobelMode => out := Modes.Sobel(a, src);
    case LogMode => out := Modes.Log(a, src);
    case DogMode => out := Modes.Dog(a, src);
    case FeaturesMode => out := FeaturesBranch(a, src);
    case DepthMode => out := DepthBranch(a, src);
    case SegmentMode => out := SegmentBranch(a, src);
    case ArMode => out := ArBranch(a, src);
    case Passthrough => out := CloneBranch(a, src);
  }

  // ---- one tick ----

  /** `cv.imread(canvas)`: a fresh Mat holding the frame, with `base` the next free handle. */
  function ReadRun(log: seq<Cv.Event>, base: Cv.Handle): seq<Cv.Event> {
    log + [Cv.New(base, Cv.Mat)] + [Cv.Call(Cv.ImRead, [], [base])]
  }

  /**
   * A rendered tick on top of `log`: read the frame, run the branch for `m`, show
   * `outMat`, then delete the frame and `outMat`.
   */
  function TickRun(log: seq<Cv.Event>, m: Mode, base: Cv.Handle): seq<Cv.Event> {
    var src, out := base, Result(m, base + 1);
    BranchRun(ReadRun(log, src), src, m, base + 1)
    + [Cv.Call(Cv.ImShow, [out], [])]
    + [Cv.Delete(src)]
    + [Cv.Delete(out)]
  }

  /** A rendered tick is the branch run on the frame just read, then the show and the two deletes. */
  lemma TickRunAfter(log: seq<Cv.Event>, m: Mode, base: Cv.Handle, branched: seq<Cv.Event>)
    requires branched == BranchRun(ReadRun(log, base), base, m, base + 1)
    ensures TickRun(log, m, base) ==
      branched + [Cv.Call(Cv.ImShow, [Result(m, base + 1)], [])] + [Cv.Delete(base)] + [Cv.Delete(Result(m, base + 1))]
  {
  }

  /** Reading the frame adds exactly the frame to the live set. */
  lemma ReadFrame(log: seq<Cv.Event>, base: Cv.Handle)
    requires Cv.Ready(log, base)
    ensures Cv.Replay({}, ReadRun(log, base)) == Cv.Some(Cv.LiveAfter(log) + {base})
    ensures Cv.Ready(ReadRun(log, base), base + 1)
  {
    Cv.NewStep(log, base, Cv.Mat);
    Cv.CallStep(log + [Cv.New(base, Cv.Mat)], Cv.ImRead, [], [base]);
  }

  /** Showing `out` and deleting the frame and `out` takes the live set back to what it was before the frame. */
  lemma ShowAndRelease(run: seq<Cv.Event>, live: set<Cv.Handle>, src: Cv.Handle, out: Cv.Handle)
    requires src !in live && out !in live && src != out
    requires Cv.Replay({}, run) == Cv.Some(live + {src} + {out})
    ensures Cv.Replay({}, run + [Cv.Call(Cv.ImShow, [out], [])] + [Cv.Delete(src)] + [Cv.Delete(out)]) == Cv.Some(live)
  {
    var t1 := run + [Cv.Call(Cv.ImShow, [out], [])];
    Cv.CallStep(run, Cv.ImShow, [out], []);
    Cv.DeleteStep(t1, src);
    assert live + {src} + {out} - {src} == live + {out};
    Cv.DeleteStep(t1 + [Cv.Delete(src)], out);
    assert live + {out} - {out} == live;
  }

  /**
   * A rendered tick leaves the live set exactly as it was: the frame, `outMat` and
   * every intermediate of the branch are deleted, and no buffer the tick allocated
   * survives it.
   */
  lemma TickKeepsLive(log: seq<Cv.Event>, m: Mode, base: Cv.Handle)
    requires Cv.Ready(log, base)
    ensures Cv.Replay({}, TickRun(log, m, base)) == Cv.Replay({}, log)
    ensures Cv.Ready(TickRun(log, m, base), Result(m, base + 1) + 1)
    ensures forall h :: base <= h ==> h !in Cv.LiveAfter(TickRun(log, m, base))
  {
    var live := Cv.LiveAfter(log);
    ReadFrame(log, base);
    BranchReturnsOne(ReadRun(log, base), base, m, base + 1);
    ShowAndRelease(BranchRun(ReadRun(log, base), base, m, base + 1), live, base, Result(m, base + 1));
  }

  /**
   * The frame's whole life within a rendered tick: allocated, filled by `imread`, read
   * by the branch and never written by it, and deleted at the end of the tick.
   */
  lemma TickFrameLife(log: seq<Cv.Event>, m: Mode, base: Cv.Handle)
    ensures Cv.History(TickRun(log, m, base), base) ==
      Cv.History(log, base) + [Cv.Alloc(Cv.Mat), Cv.Write(Cv.ImRead)] + FrameUses(m) + [Cv.Free]
  {
    var out := Result(m, base + 1);
    Cv.HistoryStep(log, Cv.New(base, Cv.Mat), base);
    Cv.HistoryStep(log + [Cv.New(base, Cv.Mat)], Cv.Call(Cv.ImRead, [], [base]), base);
    var read := ReadRun(log, base);
    assert Cv.History(read, base) == Cv.History(log, base) + [Cv.Alloc(Cv.Mat), Cv.Write(Cv.ImRead)];
    BranchReadsFrame(read, base, m, base + 1);
    var branched := BranchRun(read, base, m, base + 1);
    TickRunAfter(log, m, base, branched);
    Cv.HistoryStep(branched, Cv.Call(Cv.ImShow, [out], []), base);
    Cv.HistoryStep(branched + [Cv.Call(Cv.ImShow, [out], [])], Cv.Delete(base), base);
    Cv.HistoryStep(branched + [Cv.Call(Cv.ImShow, [out], [])] + [Cv.Delete(base)], Cv.Delete(out), base);
  }

  // ---- the FPS counter ----

  /**
   * The state of `updateFPS`: rendered frames counted since the window opened, the
   * time it opened (`performance.now()`, in milliseconds) and the last value written
   * to the FPS display, if any.
   */
  datatype Fps = Fps(frames: nat, lastTime: real, shown: Cv.Option<nat>)

  /**
   * `updateFPS()` at time `now`: count the frame; once a full second has passed since
   * the window opened, show the count and open a new window.
   */
  function FpsStep(c: Fps, now: real): Fps {
    var frames := c.frames + 1;
    if now - c.lastTime >= 1000.0 then Fps(0, now, Cv.Some(frames)) else c.(frames := frames)
  }

  /** `updateFPS()` called at each of `times` in turn. */
  function FpsRun(c: Fps, times: seq<real>): Fps
    decreases |times|
  {
    if |times| == 0 then c else FpsStep(FpsRun(c, times[..|times| - 1]), times[|times| - 1])
  }

  /**
   * Inside the window nothing is shown and the window does not move: each call only
   * counts one more frame.
   */
  lemma {:induction false} QuietWindow(c: Fps, times: seq<real>)
    requires forall i :: 0 <= i < |times| ==> times[i] - c.lastTime < 1000.0
    ensures FpsRun(c, times) == c.(frames := c.frames + |times|)
    decreases |times|
  {
    if |times| > 0 {
      QuietWindow(c, times[..|times| - 1]);
    }
  }

  /**
   * The first call a second or more after the window opened shows every frame
   * counted in the window, itself included, and opens the next window at its own
   * time with nothing counted.
   */
  lemma {:induction false} WindowCloses(c: Fps, times: seq<real>, now: real)
    requires forall i :: 0 <= i < |times| ==> times[i] - c.lastTime < 1000.0
    requires now - c.lastTime >= 1000.0
    ensures FpsRun(c, times + [now]) == Fps(0, now, Cv.Some(c.frames + |times| + 1))
  {
    QuietWindow(c, times);
    var open := FpsRun(c, times);
    assert open.lastTime == c.lastTime && open.frames == c.frames + |times|;
    FpsRunSnoc(c, times, now);
    assert FpsStep(open, now) == Fps(0, now, Cv.Some(open.frames + 1));
  }

  /** One more call steps the counter from where the calls before it left it. */
  lemma FpsRunSnoc(c: Fps, times: seq<real>, now: real)
    ensures FpsRun(c, times + [now]) == FpsStep(FpsRun(c, times), now)
  {
    assert (times + [now])[..|times|] == times;
  }

  // ---- the screenshot flag ----

  /** What can happen between two looks at the flag: a click, a tick before OpenCV.js loaded, a rendered tick. */
  datatype Input = Clicked | Skipped | Rendered

  /**
   * The flag after `i` and whether `i` scheduled a save: a click sets the flag, and a
   * rendered tick clears it, scheduling a save if it was set.
   */
  function ShotStep(flag: bool, i: Input): (bool, bool) {
    match i
    case Clicked => (true, false)
    case Skipped => (flag, false)
    case Rendered => (false, flag)
  }

  /** The number of saves scheduled over `inputs`, starting with the flag at `flag`. */
  function Saves(flag: bool, inputs: seq<Input>): nat
    decreases |inputs|
  {
    if |inputs| == 0 then 0
    else
      var (next, saved) := ShotStep(flag, inputs[0]);
      (if saved then 1 else 0) + Saves(next, inputs[1..])
  }

  /**
   * Without a further click, a set flag gives exactly one save if some later tick
   * renders, and none otherwise; a clear flag gives none.
   */
  lemma {:induction false} SavesWithoutClick(flag: bool, inputs: seq<Input>)
    requires Clicked !in inputs
    ensures Saves(flag, inputs) == if flag && Rendered in inputs then 1 else 0
    decreases |inputs|
  {
    if |inputs| > 0 {
      assert inputs == [inputs[0]] + inputs[1..];
      match inputs[0]
      case Skipped => SavesWithoutClick(flag, inputs[1..]);
      case Rendered => SavesWithoutClick(false, inputs[1..]);
    }
  }

  /** However the clicks fall, no more saves are scheduled than there were clicks (plus one for a flag already set). */
  lemma {:induction false} SavesAtMostClicks(flag: bool, inputs: seq<Input>)
    ensures Saves(flag, inputs) <= (if flag then 1 else 0) + multiset(inputs)[Clicked]
    decreases |inputs|
  {
    if |inputs| > 0 {
      assert inputs == [inputs[0]] + inputs[1..];
      var (next, _) := ShotStep(flag, inputs[0]);
      SavesAtMostClicks(next, inputs[1..]);
    }
  }

  // ---- the loop ----

  /**
   * The state `processFrame` keeps across ticks: the FPS counter (`frames`,
   * `lastTime`, and what the display shows) and the screenshot flag.
   */
  class FrameLoop {
    var frames: nat
    var lastTime: real
    var shown: Cv.Option<nat>
    var captureScreenshot: bool

    function Counter(): Fps
      reads this
    {
      Fps(frames, lastTime, shown)
    }

    /** The page starts with nothing counted, the window opened at `start`, and no screenshot pending. */
    constructor (start: real)
      ensures Counter() == Fps(0, start, Cv.None) && !captureScreenshot
    {
      frames, lastTime, shown, captureScreenshot := 0, start, Cv.None, false;
    }

    /** `screenshotBtn.onclick`. */
    method Click()
      modifies this
      ensures (captureScreenshot, false) == ShotStep(old(captureScreenshot), Clicked)
      ensures Counter() == old(Counter())
    {
      captureScreenshot := true;
    }

    /** `updateFPS()`, with `now` the value `performance.now()` returns. */
    method UpdateFps(now: real)
      modifies this
      ensures Counter() == FpsStep(old(Counter()), now)
      ensures captureScreenshot == old(captureScreenshot)
    {
      frames := frames + 1;
      if now - lastTime >= 1000.0 {
        shown := Cv.Some(frames);
        frames, lastTime := 0, now;
      }
    }

    /**
     * `processFrame`, with `cvLoaded` standing for `typeof cv !== 'undefined'`,
     * `selected` for `modeSel.value` and `now` for `performance.now()`. Returns
     * whether the tick scheduled a screenshot save.
     *
     * Before OpenCV.js loads, nothing is allocated, nothing counted and the flag is
     * kept. A rendered tick appends exactly `TickRun` for the selected branch, counts
     * one frame and consumes the flag; either way the live set is as before.
     */
    method Tick(a: Cv.Arena, cvLoaded: bool, selected: string, now: real) returns (saved: bool)
      requires a.Valid()
      modifies this, a
      ensures a.Valid() && a.Live() == old(a.Live())
      ensures !cvLoaded ==> a.log == old(a.log) && a.next == old(a.next) && Counter() == old(Counter())
      ensures !cvLoaded ==> (captureScreenshot, saved) == ShotStep(old(captureScreenshot), Skipped)
      ensures cvLoaded ==> a.log == TickRun(old(a.log), ParseMode(selected), old(a.next))
      ensures cvLoaded ==> a.next == Result(ParseMode(selected), old(a.next) + 1) + 1
      ensures cvLoaded ==> Counter() == FpsStep(old(Counter()), now)
      ensures cvLoaded ==> (captureScreenshot, saved) == ShotStep(old(captureScreenshot), Rendered)
    {
      if !cvLoaded {
        saved := false;
      } else {
        saved := Render(a, ParseMode(selected), now);
      }
    }

    /**
     * The rest of `processFrame` once OpenCV.js is there, for the branch `m`: read the
     * frame, run the branch, show `outMat`, count the frame, delete the frame and
     * `outMat`, and consume the screenshot flag.
     */
    method Render(a: Cv.Arena, m: Mode, now: real) returns (saved: bool)
      requires a.Valid()
      modifies this, a
      ensures a.log == TickRun(old(a.log), m, old(a.next))
      ensures a.next == Result(m, old(a.next) + 1) + 1
      ensures a.Valid() && a.Live() == old(a.Live())
      ensures Counter() == FpsStep(old(Counter()), now)
      ensures (captureScreenshot, saved) == ShotStep(old(captureScreenshot), Rendered)
    {
      ghost var log0, base := a.log, a.next;
      TickKeepsLive(log0, m, base);
      ReadFrame(log0, base);
      var src := a.Alloc(Cv.Mat);
      a.Invoke(Cv.ImRead, [], [src]);
      var out := Branch(a, src, m);
      TickRunAfter(log0, m, base, a.log);
      a.Invoke(Cv.ImShow, [out], []);
      UpdateFps(now);
      a.Delete(src);
      a.Delete(out);
      saved := captureScreenshot;
      if captureScreenshot {
        captureScreenshot := false;
      }
    }
  }
}
