/**
 * `Overlay.drawKeypoints`: draws a keypoint vector over the frame into a fresh
 * `cv.Mat`, in green. Both arguments stay owned by the caller.
 */
module Overlay {
  import Cv

  const Green := Cv.Color(0, 255, 0, 255)

  /** The log after `drawKeypoints(src, keypoints)` ran on top of `log`, the result being `base`. */
  function DrawKeypointsRun(log: seq<Cv.Event>, src: Cv.Handle, keypoints: Cv.Handle, base: Cv.Handle): seq<Cv.Event> {
    log + [Cv.New(base, Cv.Mat)] + [Cv.Call(Cv.DrawKeypoints(Green), [src, keypoints], [base])]
  }

  /** The life of any buffer across `drawKeypoints`: its life before, then what the two steps do to it. */
  lemma DrawKeypointsHistory(log: seq<Cv.Event>, src: Cv.Handle, keypoints: Cv.Handle, base: Cv.Handle, h: Cv.Handle)
    ensures Cv.History(DrawKeypointsRun(log, src, keypoints, base), h) ==
      Cv.History(log, h) + Cv.UsesOf(Cv.New(base, Cv.Mat), h) + Cv.UsesOf(Cv.Call(Cv.DrawKeypoints(Green), [src, keypoints], [base]), h)
  {
    Cv.HistorySnoc(log, Cv.New(base, Cv.Mat), h);
    Cv.HistorySnoc(log + [Cv.New(base, Cv.Mat)], Cv.Call(Cv.DrawKeypoints(Green), [src, keypoints], [base]), h);
  }

  /**
   * Run on a ready log with both arguments live, `drawKeypoints` leaves exactly one
   * more buffer live, the fresh result. The frame and the keypoint vector are each
   * read once, as the first and the second argument, and neither is deleted; the
   * result is allocated and then written by the drawing call.
   */
  lemma DrawKeypointsReturnsOne(log: seq<Cv.Event>, src: Cv.Handle, keypoints: Cv.Handle, base: Cv.Handle)
    requires Cv.Ready(log, base) && src in Cv.LiveAfter(log) && keypoints in Cv.LiveAfter(log)
    ensures var run := DrawKeypointsRun(log, src, keypoints, base);
      && Cv.Replay({}, run) == Cv.Some(Cv.LiveAfter(log) + {base})
      && base != src && base != keypoints
      && Cv.Ready(run, base + 1)
      && Cv.History(run, src) == Cv.History(log, src) + [Cv.Read(Cv.DrawKeypoints(Green), 0)]
      && (keypoints != src ==> Cv.History(run, keypoints) == Cv.History(log, keypoints) + [Cv.Read(Cv.DrawKeypoints(Green), 1)])
      && Cv.History(run, base) == Cv.History(log, base) + [Cv.Alloc(Cv.Mat), Cv.Write(Cv.DrawKeypoints(Green))]
  {
    Cv.ReplaySnoc({}, log, Cv.New(base, Cv.Mat));
    Cv.ReplaySnoc({}, log + [Cv.New(base, Cv.Mat)], Cv.Call(Cv.DrawKeypoints(Green), [src, keypoints], [base]));
    DrawKeypointsHistory(log, src, keypoints, base, src);
    DrawKeypointsHistory(log, src, keypoints, base, keypoints);
    DrawKeypointsHistory(log, src, keypoints, base, base);
    assert Cv.IndexOf([src, keypoints], src) == 0;
    assert keypoints != src ==> Cv.IndexOf([src, keypoints], keypoints) == 1;
  }

  method DrawKeypoints(a: Cv.Arena, src: Cv.Handle, keypoints: Cv.Handle) returns (out: Cv.Handle)
    requires a.Valid() && src in a.Live() && keypoints in a.Live()
    modifies a
    ensures out == old(a.next) && a.next == out + 1
    ensures a.log == DrawKeypointsRun(old(a.log), src, keypoints, out)
    ensures a.Valid() && out !in old(a.Live()) && a.Live() == old(a.Live()) + {out}
  {
    DrawKeypointsReturnsOne(a.log, src, keypoints, a.next);
    out := a.Alloc(Cv.Mat);
    a.Invoke(Cv.DrawKeypoints(Green), [src, keypoints], [out]);
  }
}
