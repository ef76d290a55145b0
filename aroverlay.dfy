/**
 * `arOverlayMode`: an edge heat map blended over a clone of the frame, with a green
 * box and a "Region" label on every contour of the Otsu-thresholded image that is
 * large enough. Every intermediate buffer, and every contour fetched from the
 * contour vector, is deleted before returning; only the annotated clone survives.
 *
 * What OpenCV computes stays outside the model: the bounding box of each contour
 * (`boxes`, one per contour, in the vector's order) and the frame's size (`rows`,
 * `cols`) are parameters.
 *
 * The events of the mode come in four fixed stretches, each a function of the
 * handles it names: the heat map (lines 4-7), the contour search and the blended
 * clone (lines 10-16), one turn of the loop per contour (lines 19-29), and the
 * teardown (line 31). Each stretch is described on its own, from any live set, and
 * the whole mode is their concatenation.
 */
module ArOverlay {
  import Cv
  import Preprocess

  /** `cv.boundingRect` of one contour. */
  datatype Rect = Rect(x: int, y: int, width: nat, height: nat)

  const Cvt := Cv.CvtColor(Cv.RgbaToGray)
  const EdgeCanny := Cv.Canny(50, 130)
  const Otsu := Cv.Threshold(0, 255, Cv.ThreshBinary + Cv.ThreshOtsu)
  /** `addWeighted(out, 0.6, heat, 0.5, 0, out)`. */
  const Blend := Cv.AddWeighted(60, 50, 0)
  const BoxColor := Cv.Color(0, 255, 0, 255)
  const LabelColor := Cv.Color(0, 220, 0, 255)

  // ---- the annotation rules ----

  /**
   * The area filter: a contour is kept unless its box covers less than 0.002 of the
   * frame. Scaled by 500, the comparison is between integers.
   */
  predicate Kept(r: Rect, rows: nat, cols: nat) {
    !(500 * r.width * r.height < rows * cols)
  }

  /** The integer filter is exactly the one on rationals. */
  lemma KeptMeans(r: Rect, rows: nat, cols: nat)
    ensures Kept(r, rows, cols) <==> (r.width * r.height) as real >= (rows * cols) as real * 0.002
  {
    var area, frame := r.width * r.height, rows * cols;
    assert (500 * area) as real == 500.0 * area as real;
    assert 500.0 * (frame as real * 0.002) == frame as real;
  }

  /** The `cv.rectangle` call for a kept contour. */
  function BoxOp(r: Rect): Cv.Op {
    Cv.Rectangle(Cv.Point(r.x, r.y), Cv.Point(r.x + r.width, r.y + r.height), BoxColor, 3)
  }

  /** The box is drawn 3 pixels thick in green, from the rectangle's top-left corner to its bottom-right one. */
  lemma BoxSpansRect(r: Rect)
    ensures var op := BoxOp(r);
      && op.Rectangle? && op.color == BoxColor && op.thickness == 3
      && op.p1 == Cv.Point(r.x, r.y)
      && op.p2.x - op.p1.x == r.width && op.p2.y - op.p1.y == r.height
      && op.p1.x <= op.p2.x && op.p1.y <= op.p2.y
  {
  }

  /** The `cv.putText` call for a kept contour. */
  function LabelOp(r: Rect): Cv.Op {
    Cv.PutText("Region", Cv.Point(r.x, if 10 >= r.y - 6 then 10 else r.y - 6), 60, LabelColor, 2)
  }

  /** The label reads "Region" at the box's left edge, 6 pixels above it but never above row 10. */
  lemma LabelAboveBox(r: Rect)
    ensures var op := LabelOp(r);
      && op.PutText? && op.text == "Region" && op.scalePct == 60 && op.color == LabelColor && op.thickness == 2
      && op.org.x == r.x && op.org.y >= 10 && op.org.y >= r.y - 6
      && (op.org.y == 10 || op.org.y == r.y - 6)
  {
  }

  /** What one contour adds to `out`: its box and then its label, or nothing when it is skipped. */
  function Marks(r: Rect, rows: nat, cols: nat): seq<Cv.Use> {
    if Kept(r, rows, cols) then [Cv.Update(BoxOp(r)), Cv.Update(LabelOp(r))] else []
  }

  /** What the loop adds to `out`, contour after contour. */
  function Annotations(boxes: seq<Rect>, rows: nat, cols: nat): seq<Cv.Use>
    decreases |boxes|
  {
    if |boxes| == 0 then []
    else Annotations(boxes[..|boxes| - 1], rows, cols) + Marks(boxes[|boxes| - 1], rows, cols)
  }

  /** The annotations of the first `n` boxes extend those of the first `n - 1` by the marks of box `n - 1`. */
  lemma AnnotationsPrefix(boxes: seq<Rect>, rows: nat, cols: nat, n: nat)
    requires 0 < n <= |boxes|
    ensures Annotations(boxes[..n], rows, cols) == Annotations(boxes[..n - 1], rows, cols) + Marks(boxes[n - 1], rows, cols)
  {
    assert boxes[..n][..n - 1] == boxes[..n - 1];
  }

  /** The boxes that pass the filter, in the order their contours come. */
  function KeptBoxes(boxes: seq<Rect>, rows: nat, cols: nat): seq<Rect>
    decreases |boxes|
  {
    if |boxes| == 0 then []
    else
      var n := |boxes| - 1;
      KeptBoxes(boxes[..n], rows, cols) + if Kept(boxes[n], rows, cols) then [boxes[n]] else []
  }

  /** `KeptBoxes` holds every box that passes the filter, as often as it occurs, and no other. */
  lemma {:induction false} KeptBoxesFilter(boxes: seq<Rect>, rows: nat, cols: nat)
    ensures forall r :: multiset(KeptBoxes(boxes, rows, cols))[r] == if Kept(r, rows, cols) then multiset(boxes)[r] else 0
    decreases |boxes|
  {
    if boxes != [] {
      var n := |boxes| - 1;
      KeptBoxesFilter(boxes[..n], rows, cols);
      assert boxes == boxes[..n] + [boxes[n]];
    }
  }

  /**
   * The annotations come in pairs, one pair per kept contour and in the contours'
   * order: its box, then its label. So as many boxes as labels are drawn, and as many
   * of each as there are contours passing the filter.
   */
  lemma {:induction false} AnnotationsPairs(boxes: seq<Rect>, rows: nat, cols: nat)
    ensures |Annotations(boxes, rows, cols)| == 2 * |KeptBoxes(boxes, rows, cols)|
    ensures forall k :: 0 <= k < |KeptBoxes(boxes, rows, cols)| ==>
      && Annotations(boxes, rows, cols)[2 * k] == Cv.Update(BoxOp(KeptBoxes(boxes, rows, cols)[k]))
      && Annotations(boxes, rows, cols)[2 * k + 1] == Cv.Update(LabelOp(KeptBoxes(boxes, rows, cols)[k]))
    decreases |boxes|
  {
    if boxes != [] {
      var n := |boxes| - 1;
      AnnotationsPairs(boxes[..n], rows, cols);
      var before, kept := Annotations(boxes[..n], rows, cols), KeptBoxes(boxes[..n], rows, cols);
      forall k | 0 <= k < |kept|
        ensures Annotations(boxes, rows, cols)[2 * k] == before[2 * k]
        ensures Annotations(boxes, rows, cols)[2 * k + 1] == before[2 * k + 1]
        ensures KeptBoxes(boxes, rows, cols)[k] == kept[k]
      {
      }
    }
  }

  // ---- the events ----

  /** Lines 4-7: `gray`, its Canny edges, their 8-bit normalisation `norm` and its jet colouring `heat`, each a fresh Mat. */
  function HeatEvents(src: Cv.Handle, gray: Cv.Handle, edges: Cv.Handle, norm: Cv.Handle, heat: Cv.Handle): seq<Cv.Event> {
    [Cv.New(gray, Cv.Mat)] + [Cv.Call(Cvt, [src], [gray])]
    + [Cv.New(edges, Cv.Mat)] + [Cv.Call(EdgeCanny, [gray], [edges])]
    + [Cv.New(norm, Cv.Mat)] + [Cv.Call(Cv.NormalizeTo8U, [edges], [norm])]
    + [Cv.New(heat, Cv.Mat)] + [Cv.Call(Cv.ApplyJet, [norm], [heat])]
  }

  /**
   * Lines 10-16: the Otsu threshold of `gray` into `th`, the contour vector and the
   * hierarchy filled from it, and `out`, a clone of the frame with `heat` blended in.
   */
  function SearchEvents(src: Cv.Handle, gray: Cv.Handle, heat: Cv.Handle, th: Cv.Handle, contours: Cv.Handle, hierarchy: Cv.Handle, out: Cv.Handle): seq<Cv.Event> {
    [Cv.New(th, Cv.Mat)] + [Cv.Call(Otsu, [gray], [th])]
    + [Cv.New(contours, Cv.MatVector)] + [Cv.New(hierarchy, Cv.Mat)]
    + [Cv.Call(Cv.FindContours, [th], [contours, hierarchy])] + [Cv.New(out, Cv.Mat)]
    + [Cv.Call(Cv.Clone, [src], [out])] + [Cv.Call(Blend, [out, heat], [out])]
  }

  /**
   * Lines 20-28: one turn of the loop, for contour `i` fetched into the fresh Mat `cnt`
   * and measured; a kept contour is boxed and labelled on `out`, and either way `cnt`
   * is deleted.
   */
  function ContourEvents(i: nat, r: Rect, contours: Cv.Handle, out: Cv.Handle, cnt: Cv.Handle, rows: nat, cols: nat): seq<Cv.Event> {
    if Kept(r, rows, cols) then
      [Cv.New(cnt, Cv.Mat), Cv.Call(Cv.VectorGet(i), [contours], [cnt]), Cv.Call(Cv.BoundingRect, [cnt], []),
       Cv.Call(BoxOp(r), [out], [out]), Cv.Call(LabelOp(r), [out], [out]), Cv.Delete(cnt)]
    else
      [Cv.New(cnt, Cv.Mat), Cv.Call(Cv.VectorGet(i), [contours], [cnt]), Cv.Call(Cv.BoundingRect, [cnt], []), Cv.Delete(cnt)]
  }

  /** The first `n` turns of the loop over the contours whose boxes are `boxes`; contour `i` is fetched into handle `cnt0 + i`. */
  function BoxesEvents(contours: Cv.Handle, out: Cv.Handle, cnt0: Cv.Handle, rows: nat, cols: nat, boxes: seq<Rect>, n: nat): seq<Cv.Event>
    requires n <= |boxes|
    decreases n
  {
    if n == 0 then []
    else BoxesEvents(contours, out, cnt0, rows, cols, boxes, n - 1) + ContourEvents(n - 1, boxes[n - 1], contours, out, cnt0 + n - 1, rows, cols)
  }

  /** One more turn of the loop, run after the first `n`, gives the first `n + 1`. */
  lemma BoxesExtend(log: seq<Cv.Event>, contours: Cv.Handle, out: Cv.Handle, cnt0: Cv.Handle, rows: nat, cols: nat, boxes: seq<Rect>, n: nat)
    requires n < |boxes|
    ensures log + BoxesEvents(contours, out, cnt0, rows, cols, boxes, n) + ContourEvents(n, boxes[n], contours, out, cnt0 + n, rows, cols)
      == log + BoxesEvents(contours, out, cnt0, rows, cols, boxes, n + 1)
  {
    Cv.AppendRegroup(log, BoxesEvents(contours, out, cnt0, rows, cols, boxes, n), ContourEvents(n, boxes[n], contours, out, cnt0 + n, rows, cols));
  }

  /** Line 31: the seven intermediates are deleted, in the order the source names them. */
  function TeardownEvents(gray: Cv.Handle, edges: Cv.Handle, norm: Cv.Handle, heat: Cv.Handle, th: Cv.Handle, contours: Cv.Handle, hierarchy: Cv.Handle): seq<Cv.Event> {
    [Cv.Delete(gray)] + [Cv.Delete(edges)]
    + [Cv.Delete(norm)] + [Cv.Delete(heat)]
    + [Cv.Delete(th)] + [Cv.Delete(contours)]
    + [Cv.Delete(hierarchy)]
  }

  /**
   * The buffers `arOverlayMode` allocates, under the names the source gives them;
   * `cnt0` is the first of the Mats the loop fetches contours into, contour `i`
   * going into `cnt0 + i`.
   */
  datatype Bufs = Bufs(gray: Cv.Handle, edges: Cv.Handle, norm: Cv.Handle, heat: Cv.Handle,
                       th: Cv.Handle, contours: Cv.Handle, hierarchy: Cv.Handle, out: Cv.Handle, cnt0: Cv.Handle)

  /**
   * The buffers are fresh and handed out in the order the source creates them: all
   * after the frame, the contours last.
   */
  predicate Ascending(src: Cv.Handle, b: Bufs) {
    src < b.gray < b.edges < b.norm < b.heat < b.th < b.contours < b.hierarchy < b.out < b.cnt0
  }

  /** The handles of a run that starts allocating at `base`, the arena handing them out one after another. */
  function Layout(base: Cv.Handle): Bufs {
    Bufs(base, base + 1, base + 2, base + 3, base + 4, base + 5, base + 6, base + 7, base + 8)
  }

  /** The whole of `arOverlayMode(src)` on top of `log`, with buffers `b`. */
  function ArOverlayRun(log: seq<Cv.Event>, src: Cv.Handle, rows: nat, cols: nat, boxes: seq<Rect>, b: Bufs): seq<Cv.Event> {
    log + HeatEvents(src, b.gray, b.edges, b.norm, b.heat)
    + SearchEvents(src, b.gray, b.heat, b.th, b.contours, b.hierarchy, b.out)
    + BoxesEvents(b.contours, b.out, b.cnt0, rows, cols, boxes, |boxes|)
    + TeardownEvents(b.gray, b.edges, b.norm, b.heat, b.th, b.contours, b.hierarchy)
  }

  // ---- the live set, stretch by stretch ----

  /** From a live set holding the frame, all of it below `gray`, the heat map adds its four fresh Mats. */
  lemma HeatReplay(live: set<Cv.Handle>, src: Cv.Handle, gray: Cv.Handle, edges: Cv.Handle, norm: Cv.Handle, heat: Cv.Handle)
    requires src in live && Cv.Below(live, gray) && gray < edges < norm < heat
    ensures Cv.Replay(live, HeatEvents(src, gray, edges, norm, heat)) == Cv.Some(live + {gray, edges, norm, heat})
  {
    var e0, e1, e2, e3 := Cv.New(gray, Cv.Mat), Cv.Call(Cvt, [src], [gray]), Cv.New(edges, Cv.Mat), Cv.Call(EdgeCanny, [gray], [edges]);
    var e4, e5, e6, e7 := Cv.New(norm, Cv.Mat), Cv.Call(Cv.NormalizeTo8U, [edges], [norm]), Cv.New(heat, Cv.Mat), Cv.Call(Cv.ApplyJet, [norm], [heat]);
    Cv.ReplaySingle(live, e0);
    Cv.ReplaySnoc(live, [e0], e1);
    Cv.ReplaySnoc(live, [e0] + [e1], e2);
    Cv.ReplaySnoc(live, [e0] + [e1] + [e2], e3);
    Cv.ReplaySnoc(live, [e0] + [e1] + [e2] + [e3], e4);
    Cv.ReplaySnoc(live, [e0] + [e1] + [e2] + [e3] + [e4], e5);
    Cv.ReplaySnoc(live, [e0] + [e1] + [e2] + [e3] + [e4] + [e5], e6);
    Cv.ReplaySnoc(live, [e0] + [e1] + [e2] + [e3] + [e4] + [e5] + [e6], e7);
    assert Cv.Replay(live, [e0]) == Cv.Some(live + {gray});
    assert Cv.Replay(live, [e0] + [e1]) == Cv.Some(live + {gray});
    assert Cv.Replay(live, [e0] + [e1] + [e2]) == Cv.Some(live + {gray} + {edges});
    assert Cv.Replay(live, [e0] + [e1] + [e2] + [e3]) == Cv.Some(live + {gray} + {edges});
    assert Cv.Replay(live, [e0] + [e1] + [e2] + [e3] + [e4]) == Cv.Some(live + {gray} + {edges} + {norm});
    assert Cv.Replay(live, [e0] + [e1] + [e2] + [e3] + [e4] + [e5]) == Cv.Some(live + {gray} + {edges} + {norm});
    assert Cv.Replay(live, [e0] + [e1] + [e2] + [e3] + [e4] + [e5] + [e6]) == Cv.Some(live + {gray} + {edges} + {norm} + {heat});
    assert live + {gray} + {edges} + {norm} + {heat} == live + {gray, edges, norm, heat};
  }

  /** With the frame, `gray` and `heat` live and `th` above every live handle, the search and the clone add four more buffers. */
  lemma SearchReplay(live: set<Cv.Handle>, src: Cv.Handle, gray: Cv.Handle, heat: Cv.Handle, th: Cv.Handle, contours: Cv.Handle, hierarchy: Cv.Handle, out: Cv.Handle)
    requires src in live && gray in live && heat in live && Cv.Below(live, th) && th < contours < hierarchy < out
    ensures Cv.Replay(live, SearchEvents(src, gray, heat, th, contours, hierarchy, out)) == Cv.Some(live + {th, contours, hierarchy, out})
  {
    var e0, e1, e2, e3 := Cv.New(th, Cv.Mat), Cv.Call(Otsu, [gray], [th]), Cv.New(contours, Cv.MatVector), Cv.New(hierarchy, Cv.Mat);
    var e4, e5, e6, e7 := Cv.Call(Cv.FindContours, [th], [contours, hierarchy]), Cv.New(out, Cv.Mat), Cv.Call(Cv.Clone, [src], [out]), Cv.Call(Blend, [out, heat], [out]);
    Cv.ReplaySingle(live, e0);
    Cv.ReplaySnoc(live, [e0], e1);
    Cv.ReplaySnoc(live, [e0] + [e1], e2);
    Cv.ReplaySnoc(live, [e0] + [e1] + [e2], e3);
    Cv.ReplaySnoc(live, [e0] + [e1] + [e2] + [e3], e4);
    Cv.ReplaySnoc(live, [e0] + [e1] + [e2] + [e3] + [e4], e5);
    Cv.ReplaySnoc(live, [e0] + [e1] + [e2] + [e3] + [e4] + [e5], e6);
    Cv.ReplaySnoc(live, [e0] + [e1] + [e2] + [e3] + [e4] + [e5] + [e6], e7);
    assert Cv.Replay(live, [e0]) == Cv.Some(live + {th});
    assert Cv.Replay(live, [e0] + [e1]) == Cv.Some(live + {th});
    assert Cv.Replay(live, [e0] + [e1] + [e2]) == Cv.Some(live + {th} + {contours});
    assert Cv.Replay(live, [e0] + [e1] + [e2] + [e3]) == Cv.Some(live + {th} + {contours} + {hierarchy});
    assert Cv.Replay(live, [e0] + [e1] + [e2] + [e3] + [e4]) == Cv.Some(live + {th} + {contours} + {hierarchy});
    assert Cv.Replay(live, [e0] + [e1] + [e2] + [e3] + [e4] + [e5]) == Cv.Some(live + {th} + {contours} + {hierarchy} + {out});
    assert Cv.Replay(live, [e0] + [e1] + [e2] + [e3] + [e4] + [e5] + [e6]) == Cv.Some(live + {th} + {contours} + {hierarchy} + {out});
    assert live + {th} + {contours} + {hierarchy} + {out} == live + {th, contours, hierarchy, out};
  }

  /** A turn of the loop allocates `cnt` and deletes it again, whether the contour is drawn or skipped. */
  lemma ContourReplay(live: set<Cv.Handle>, i: nat, r: Rect, contours: Cv.Handle, out: Cv.Handle, cnt: Cv.Handle, rows: nat, cols: nat)
    requires contours in live && out in live && cnt !in live
    ensures Cv.Replay(live, ContourEvents(i, r, contours, out, cnt, rows, cols)) == Cv.Some(live)
  {
    var e0, e1, e2, e3 := Cv.New(cnt, Cv.Mat), Cv.Call(Cv.VectorGet(i), [contours], [cnt]), Cv.Call(Cv.BoundingRect, [cnt], []), Cv.Call(BoxOp(r), [out], [out]);
    var e4, e5 := Cv.Call(LabelOp(r), [out], [out]), Cv.Delete(cnt);
    Cv.ReplaySingle(live, e0);
    Cv.ReplaySnoc(live, [e0], e1);
    Cv.ReplaySnoc(live, [e0] + [e1], e2);
    if Kept(r, rows, cols) {
      Cv.ReplaySnoc(live, [e0] + [e1] + [e2], e3);
      Cv.ReplaySnoc(live, [e0] + [e1] + [e2] + [e3], e4);
      Cv.ReplaySnoc(live, [e0] + [e1] + [e2] + [e3] + [e4], e5);
      assert [e0, e1, e2, e3, e4, e5] == [e0] + [e1] + [e2] + [e3] + [e4] + [e5];
    } else {
      Cv.ReplaySnoc(live, [e0] + [e1] + [e2], e5);
      assert [e0, e1, e2, e5] == [e0] + [e1] + [e2] + [e5];
    }
    assert live + {cnt} - {cnt} == live;
  }

  /** The loop leaves the live set as it found it: every contour it fetches it deletes. */
  lemma {:induction false} BoxesReplay(live: set<Cv.Handle>, contours: Cv.Handle, out: Cv.Handle, cnt0: Cv.Handle, rows: nat, cols: nat, boxes: seq<Rect>, n: nat)
    requires n <= |boxes| && contours in live && out in live && Cv.Below(live, cnt0)
    ensures Cv.Replay(live, BoxesEvents(contours, out, cnt0, rows, cols, boxes, n)) == Cv.Some(live)
    decreases n
  {
    if n > 0 {
      var prefix := BoxesEvents(contours, out, cnt0, rows, cols, boxes, n - 1);
      assert cnt0 + n - 1 !in live;
      Cv.ReplayAppend(live, prefix, ContourEvents(n - 1, boxes[n - 1], contours, out, cnt0 + n - 1, rows, cols));
      BoxesReplay(live, contours, out, cnt0, rows, cols, boxes, n - 1);
      ContourReplay(live, n - 1, boxes[n - 1], contours, out, cnt0 + n - 1, rows, cols);
    }
  }

  /** With the seven intermediates live, line 31 leaves the live set without them. */
  lemma TeardownReplay(live: set<Cv.Handle>, gray: Cv.Handle, edges: Cv.Handle, norm: Cv.Handle, heat: Cv.Handle, th: Cv.Handle, contours: Cv.Handle, hierarchy: Cv.Handle)
    requires gray in live && edges in live && norm in live && heat in live && th in live && contours in live && hierarchy in live
    requires gray < edges < norm < heat < th < contours < hierarchy
    ensures Cv.Replay(live, TeardownEvents(gray, edges, norm, heat, th, contours, hierarchy)) == Cv.Some(live - {gray, edges, norm, heat, th, contours, hierarchy})
  {
    var e0, e1, e2, e3 := Cv.Delete(gray), Cv.Delete(edges), Cv.Delete(norm), Cv.Delete(heat);
    var e4, e5, e6 := Cv.Delete(th), Cv.Delete(contours), Cv.Delete(hierarchy);
    Cv.ReplaySingle(live, e0);
    Cv.ReplaySnoc(live, [e0], e1);
    Cv.ReplaySnoc(live, [e0] + [e1], e2);
    Cv.ReplaySnoc(live, [e0] + [e1] + [e2], e3);
    Cv.ReplaySnoc(live, [e0] + [e1] + [e2] + [e3], e4);
    Cv.ReplaySnoc(live, [e0] + [e1] + [e2] + [e3] + [e4], e5);
    Cv.ReplaySnoc(live, [e0] + [e1] + [e2] + [e3] + [e4] + [e5], e6);
    assert Cv.Replay(live, [e0]) == Cv.Some(live - {gray});
    assert Cv.Replay(live, [e0] + [e1]) == Cv.Some(live - {gray} - {edges});
    assert Cv.Replay(live, [e0] + [e1] + [e2]) == Cv.Some(live - {gray} - {edges} - {norm});
    assert Cv.Replay(live, [e0] + [e1] + [e2] + [e3]) == Cv.Some(live - {gray} - {edges} - {norm} - {heat});
    assert Cv.Replay(live, [e0] + [e1] + [e2] + [e3] + [e4]) == Cv.Some(live - {gray} - {edges} - {norm} - {heat} - {th});
    assert Cv.Replay(live, [e0] + [e1] + [e2] + [e3] + [e4] + [e5]) == Cv.Some(live - {gray} - {edges} - {norm} - {heat} - {th} - {contours});
    assert live - {gray} - {edges} - {norm} - {heat} - {th} - {contours} - {hierarchy}
      == live - {gray, edges, norm, heat, th, contours, hierarchy};
  }

  /** Fresh buffers above every live handle stay fresh one stretch after another, and the teardown leaves only `out` of them live. */
  lemma LiveStages(live: set<Cv.Handle>, src: Cv.Handle, b: Bufs)
    requires Cv.Below(live, b.gray) && Ascending(src, b)
    ensures Cv.Below(live + {b.gray, b.edges, b.norm, b.heat}, b.th)
    ensures Cv.Below(live + {b.gray, b.edges, b.norm, b.heat} + {b.th, b.contours, b.hierarchy, b.out}, b.cnt0)
    ensures live + {b.gray, b.edges, b.norm, b.heat} + {b.th, b.contours, b.hierarchy, b.out}
      - {b.gray, b.edges, b.norm, b.heat, b.th, b.contours, b.hierarchy} == live + {b.out}
    ensures Cv.Below(live + {b.out}, b.cnt0)
  {
  }

  /**
   * Run on a ready log with `src` live and fresh buffers, `arOverlayMode` leaves exactly
   * one more buffer live: `out`. Every intermediate and every fetched contour is
   * deleted, and no call touches a handle that is not live.
   */
  lemma ArOverlayReplay(log: seq<Cv.Event>, src: Cv.Handle, rows: nat, cols: nat, boxes: seq<Rect>, b: Bufs)
    requires Cv.Ready(log, b.gray) && src in Cv.LiveAfter(log) && Ascending(src, b)
    ensures Cv.Replay({}, ArOverlayRun(log, src, rows, cols, boxes, b)) == Cv.Some(Cv.LiveAfter(log) + {b.out})
    ensures Cv.Ready(ArOverlayRun(log, src, rows, cols, boxes, b), b.cnt0 + |boxes|)
  {
    var live := Cv.LiveAfter(log);
    var l1 := live + {b.gray, b.edges, b.norm, b.heat};
    var l2 := l1 + {b.th, b.contours, b.hierarchy, b.out};
    LiveStages(live, src, b);
    HeatReplay(live, src, b.gray, b.edges, b.norm, b.heat);
    SearchReplay(l1, src, b.gray, b.heat, b.th, b.contours, b.hierarchy, b.out);
    BoxesReplay(l2, b.contours, b.out, b.cnt0, rows, cols, boxes, |boxes|);
    TeardownReplay(l2, b.gray, b.edges, b.norm, b.heat, b.th, b.contours, b.hierarchy);
    Cv.ReplayOfStretches(log, HeatEvents(src, b.gray, b.edges, b.norm, b.heat),
      SearchEvents(src, b.gray, b.heat, b.th, b.contours, b.hierarchy, b.out),
      BoxesEvents(b.contours, b.out, b.cnt0, rows, cols, boxes, |boxes|),
      TeardownEvents(b.gray, b.edges, b.norm, b.heat, b.th, b.contours, b.hierarchy),
      l1, l2, l2, live + {b.out});
  }

  // ---- what each stretch does to each buffer ----

  /** What the heat map does to any handle, event by event. */
  lemma HeatHistory(src: Cv.Handle, gray: Cv.Handle, edges: Cv.Handle, norm: Cv.Handle, heat: Cv.Handle, h: Cv.Handle)
    ensures Cv.History(HeatEvents(src, gray, edges, norm, heat), h) ==
      Cv.UsesOf(Cv.New(gray, Cv.Mat), h) + Cv.UsesOf(Cv.Call(Cvt, [src], [gray]), h)
      + Cv.UsesOf(Cv.New(edges, Cv.Mat), h) + Cv.UsesOf(Cv.Call(EdgeCanny, [gray], [edges]), h)
      + Cv.UsesOf(Cv.New(norm, Cv.Mat), h) + Cv.UsesOf(Cv.Call(Cv.NormalizeTo8U, [edges], [norm]), h)
      + Cv.UsesOf(Cv.New(heat, Cv.Mat), h) + Cv.UsesOf(Cv.Call(Cv.ApplyJet, [norm], [heat]), h)
  {
    var e0, e1, e2, e3 := Cv.New(gray, Cv.Mat), Cv.Call(Cvt, [src], [gray]), Cv.New(edges, Cv.Mat), Cv.Call(EdgeCanny, [gray], [edges]);
    var e4, e5, e6, e7 := Cv.New(norm, Cv.Mat), Cv.Call(Cv.NormalizeTo8U, [edges], [norm]), Cv.New(heat, Cv.Mat), Cv.Call(Cv.ApplyJet, [norm], [heat]);
    Cv.HistorySingle(e0, h);
    Cv.HistorySnoc([e0], e1, h);
    Cv.HistorySnoc([e0] + [e1], e2, h);
    Cv.HistorySnoc([e0] + [e1] + [e2], e3, h);
    Cv.HistorySnoc([e0] + [e1] + [e2] + [e3], e4, h);
    Cv.HistorySnoc([e0] + [e1] + [e2] + [e3] + [e4], e5, h);
    Cv.HistorySnoc([e0] + [e1] + [e2] + [e3] + [e4] + [e5], e6, h);
    Cv.HistorySnoc([e0] + [e1] + [e2] + [e3] + [e4] + [e5] + [e6], e7, h);
  }

  /** The heat map reads the frame once, to convert it to gray. */
  lemma HeatOfSrc(src: Cv.Handle, gray: Cv.Handle, edges: Cv.Handle, norm: Cv.Handle, heat: Cv.Handle)
    requires src < gray < edges < norm < heat
    ensures Cv.History(HeatEvents(src, gray, edges, norm, heat), src) == [Cv.Read(Cvt, 0)]
  {
    HeatHistory(src, gray, edges, norm, heat, src);
  }

  /** `gray` is allocated, written by the conversion and read by Canny. */
  lemma HeatOfGray(src: Cv.Handle, gray: Cv.Handle, edges: Cv.Handle, norm: Cv.Handle, heat: Cv.Handle)
    requires src < gray < edges < norm < heat
    ensures Cv.History(HeatEvents(src, gray, edges, norm, heat), gray) == [Cv.Alloc(Cv.Mat), Cv.Write(Cvt), Cv.Read(EdgeCanny, 0)]
  {
    HeatHistory(src, gray, edges, norm, heat, gray);
  }

  /** `edges` is allocated, written by Canny and read by the normalisation. */
  lemma HeatOfEdges(src: Cv.Handle, gray: Cv.Handle, edges: Cv.Handle, norm: Cv.Handle, heat: Cv.Handle)
    requires src < gray < edges < norm < heat
    ensures Cv.History(HeatEvents(src, gray, edges, norm, heat), edges) == [Cv.Alloc(Cv.Mat), Cv.Write(EdgeCanny), Cv.Read(Cv.NormalizeTo8U, 0)]
  {
    HeatHistory(src, gray, edges, norm, heat, edges);
  }

  /** `norm` is allocated, written by the normalisation and read by the colouring. */
  lemma HeatOfNorm(src: Cv.Handle, gray: Cv.Handle, edges: Cv.Handle, norm: Cv.Handle, heat: Cv.Handle)
    requires src < gray < edges < norm < heat
    ensures Cv.History(HeatEvents(src, gray, edges, norm, heat), norm) == [Cv.Alloc(Cv.Mat), Cv.Write(Cv.NormalizeTo8U), Cv.Read(Cv.ApplyJet, 0)]
  {
    HeatHistory(src, gray, edges, norm, heat, norm);
  }

  /** `heat` is allocated and written by the colouring. */
  lemma HeatOfHeat(src: Cv.Handle, gray: Cv.Handle, edges: Cv.Handle, norm: Cv.Handle, heat: Cv.Handle)
    requires src < gray < edges < norm < heat
    ensures Cv.History(HeatEvents(src, gray, edges, norm, heat), heat) == [Cv.Alloc(Cv.Mat), Cv.Write(Cv.ApplyJet)]
  {
    HeatHistory(src, gray, edges, norm, heat, heat);
  }

  /** No other handle is touched. */
  lemma HeatOfOther(src: Cv.Handle, gray: Cv.Handle, edges: Cv.Handle, norm: Cv.Handle, heat: Cv.Handle, h: Cv.Handle)
    requires h != src && h != gray && h != edges && h != norm && h != heat
    ensures Cv.History(HeatEvents(src, gray, edges, norm, heat), h) == []
  {
    HeatHistory(src, gray, edges, norm, heat, h);
  }

  /** What the contour search and the blended clone do to any handle. */
  lemma SearchHistory(src: Cv.Handle, gray: Cv.Handle, heat: Cv.Handle, th: Cv.Handle, contours: Cv.Handle, hierarchy: Cv.Handle, out: Cv.Handle, h: Cv.Handle)
    ensures Cv.History(SearchEvents(src, gray, heat, th, contours, hierarchy, out), h) ==
      Cv.UsesOf(Cv.New(th, Cv.Mat), h) + Cv.UsesOf(Cv.Call(Otsu, [gray], [th]), h)
      + Cv.UsesOf(Cv.New(contours, Cv.MatVector), h) + Cv.UsesOf(Cv.New(hierarchy, Cv.Mat), h)
      + Cv.UsesOf(Cv.Call(Cv.FindContours, [th], [contours, hierarchy]), h) + Cv.UsesOf(Cv.New(out, Cv.Mat), h)
      + Cv.UsesOf(Cv.Call(Cv.Clone, [src], [out]), h) + Cv.UsesOf(Cv.Call(Blend, [out, heat], [out]), h)
  {
    var e0, e1, e2, e3 := Cv.New(th, Cv.Mat), Cv.Call(Otsu, [gray], [th]), Cv.New(contours, Cv.MatVector), Cv.New(hierarchy, Cv.Mat);
    var e4, e5, e6, e7 := Cv.Call(Cv.FindContours, [th], [contours, hierarchy]), Cv.New(out, Cv.Mat), Cv.Call(Cv.Clone, [src], [out]), Cv.Call(Blend, [out, heat], [out]);
    Cv.HistorySingle(e0, h);
    Cv.HistorySnoc([e0], e1, h);
    Cv.HistorySnoc([e0] + [e1], e2, h);
    Cv.HistorySnoc([e0] + [e1] + [e2], e3, h);
    Cv.HistorySnoc([e0] + [e1] + [e2] + [e3], e4, h);
    Cv.HistorySnoc([e0] + [e1] + [e2] + [e3] + [e4], e5, h);
    Cv.HistorySnoc([e0] + [e1] + [e2] + [e3] + [e4] + [e5], e6, h);
    Cv.HistorySnoc([e0] + [e1] + [e2] + [e3] + [e4] + [e5] + [e6], e7, h);
  }

  /** The frame is read once more, by the clone. */
  lemma SearchOfSrc(src: Cv.Handle, gray: Cv.Handle, heat: Cv.Handle, th: Cv.Handle, contours: Cv.Handle, hierarchy: Cv.Handle, out: Cv.Handle)
    requires src != gray && src != heat && gray != heat && src < th && gray < th && heat < th && th < contours < hierarchy < out
    ensures Cv.History(SearchEvents(src, gray, heat, th, contours, hierarchy, out), src) == [Cv.Read(Cv.Clone, 0)]
  {
    SearchHistory(src, gray, heat, th, contours, hierarchy, out, src);
  }

  /** `gray` is read by the threshold. */
  lemma SearchOfGray(src: Cv.Handle, gray: Cv.Handle, heat: Cv.Handle, th: Cv.Handle, contours: Cv.Handle, hierarchy: Cv.Handle, out: Cv.Handle)
    requires src != gray && src != heat && gray != heat && src < th && gray < th && heat < th && th < contours < hierarchy < out
    ensures Cv.History(SearchEvents(src, gray, heat, th, contours, hierarchy, out), gray) == [Cv.Read(Otsu, 0)]
  {
    SearchHistory(src, gray, heat, th, contours, hierarchy, out, gray);
  }

  /** `heat` is read as the second input of the blend. */
  lemma SearchOfHeat(src: Cv.Handle, gray: Cv.Handle, heat: Cv.Handle, th: Cv.Handle, contours: Cv.Handle, hierarchy: Cv.Handle, out: Cv.Handle)
    requires src != gray && src != heat && gray != heat && src < th && gray < th && heat < th && th < contours < hierarchy < out
    ensures Cv.History(SearchEvents(src, gray, heat, th, contours, hierarchy, out), heat) == [Cv.Read(Blend, 1)]
  {
    SearchHistory(src, gray, heat, th, contours, hierarchy, out, heat);
    assert Cv.IndexOf([out, heat], heat) == 1;
  }

  /** `th` is allocated, written by the threshold and read by the contour search. */
  lemma SearchOfTh(src: Cv.Handle, gray: Cv.Handle, heat: Cv.Handle, th: Cv.Handle, contours: Cv.Handle, hierarchy: Cv.Handle, out: Cv.Handle)
    requires src != gray && src != heat && gray != heat && src < th && gray < th && heat < th && th < contours < hierarchy < out
    ensures Cv.History(SearchEvents(src, gray, heat, th, contours, hierarchy, out), th) == [Cv.Alloc(Cv.Mat), Cv.Write(Otsu), Cv.Read(Cv.FindContours, 0)]
  {
    SearchHistory(src, gray, heat, th, contours, hierarchy, out, th);
  }

  /** The contour vector is allocated and filled by the search. */
  lemma SearchOfContours(src: Cv.Handle, gray: Cv.Handle, heat: Cv.Handle, th: Cv.Handle, contours: Cv.Handle, hierarchy: Cv.Handle, out: Cv.Handle)
    requires src != gray && src != heat && gray != heat && src < th && gray < th && heat < th && th < contours < hierarchy < out
    ensures Cv.History(SearchEvents(src, gray, heat, th, contours, hierarchy, out), contours) == [Cv.Alloc(Cv.MatVector), Cv.Write(Cv.FindContours)]
  {
    SearchHistory(src, gray, heat, th, contours, hierarchy, out, contours);
  }

  /** So is the hierarchy, which nothing reads. */
  lemma SearchOfHierarchy(src: Cv.Handle, gray: Cv.Handle, heat: Cv.Handle, th: Cv.Handle, contours: Cv.Handle, hierarchy: Cv.Handle, out: Cv.Handle)
    requires src != gray && src != heat && gray != heat && src < th && gray < th && heat < th && th < contours < hierarchy < out
    ensures Cv.History(SearchEvents(src, gray, heat, th, contours, hierarchy, out), hierarchy) == [Cv.Alloc(Cv.Mat), Cv.Write(Cv.FindContours)]
  {
    SearchHistory(src, gray, heat, th, contours, hierarchy, out, hierarchy);
  }

  /** `out` is allocated, written by the clone and blended in place. */
  lemma SearchOfOut(src: Cv.Handle, gray: Cv.Handle, heat: Cv.Handle, th: Cv.Handle, contours: Cv.Handle, hierarchy: Cv.Handle, out: Cv.Handle)
    requires src != gray && src != heat && gray != heat && src < th && gray < th && heat < th && th < contours < hierarchy < out
    ensures Cv.History(SearchEvents(src, gray, heat, th, contours, hierarchy, out), out) == [Cv.Alloc(Cv.Mat), Cv.Write(Cv.Clone), Cv.Update(Blend)]
  {
    SearchHistory(src, gray, heat, th, contours, hierarchy, out, out);
  }

  /** No other handle is touched. */
  lemma SearchOfOther(src: Cv.Handle, gray: Cv.Handle, heat: Cv.Handle, th: Cv.Handle, contours: Cv.Handle, hierarchy: Cv.Handle, out: Cv.Handle, h: Cv.Handle)
    requires h != src && h != gray && h != heat && h != th && h != contours && h != hierarchy && h != out
    ensures Cv.History(SearchEvents(src, gray, heat, th, contours, hierarchy, out), h) == []
  {
    SearchHistory(src, gray, heat, th, contours, hierarchy, out, h);
  }

  lemma ContourHistory(i: nat, r: Rect, contours: Cv.Handle, out: Cv.Handle, cnt: Cv.Handle, rows: nat, cols: nat, h: Cv.Handle)
    ensures Cv.History(ContourEvents(i, r, contours, out, cnt, rows, cols), h) ==
      if Kept(r, rows, cols) then
        Cv.UsesOf(Cv.New(cnt, Cv.Mat), h) + Cv.UsesOf(Cv.Call(Cv.VectorGet(i), [contours], [cnt]), h)
        + Cv.UsesOf(Cv.Call(Cv.BoundingRect, [cnt], []), h) + Cv.UsesOf(Cv.Call(BoxOp(r), [out], [out]), h)
        + Cv.UsesOf(Cv.Call(LabelOp(r), [out], [out]), h) + Cv.UsesOf(Cv.Delete(cnt), h)
      else
        Cv.UsesOf(Cv.New(cnt, Cv.Mat), h) + Cv.UsesOf(Cv.Call(Cv.VectorGet(i), [contours], [cnt]), h)
        + Cv.UsesOf(Cv.Call(Cv.BoundingRect, [cnt], []), h) + Cv.UsesOf(Cv.Delete(cnt), h)
  {
    var e0, e1, e2, e3 := Cv.New(cnt, Cv.Mat), Cv.Call(Cv.VectorGet(i), [contours], [cnt]), Cv.Call(Cv.BoundingRect, [cnt], []), Cv.Call(BoxOp(r), [out], [out]);
    var e4, e5 := Cv.Call(LabelOp(r), [out], [out]), Cv.Delete(cnt);
    Cv.HistorySingle(e0, h);
    Cv.HistorySnoc([e0], e1, h);
    Cv.HistorySnoc([e0] + [e1], e2, h);
    if Kept(r, rows, cols) {
      Cv.HistorySnoc([e0] + [e1] + [e2], e3, h);
      Cv.HistorySnoc([e0] + [e1] + [e2] + [e3], e4, h);
      Cv.HistorySnoc([e0] + [e1] + [e2] + [e3] + [e4], e5, h);
      assert [e0, e1, e2, e3, e4, e5] == [e0] + [e1] + [e2] + [e3] + [e4] + [e5];
    } else {
      Cv.HistorySnoc([e0] + [e1] + [e2], e5, h);
      assert [e0, e1, e2, e5] == [e0] + [e1] + [e2] + [e5];
    }
  }


  lemma ContourOfContours(i: nat, r: Rect, contours: Cv.Handle, out: Cv.Handle, cnt: Cv.Handle, rows: nat, cols: nat)
    requires contours != out && contours != cnt
    ensures Cv.History(ContourEvents(i, r, contours, out, cnt, rows, cols), contours) == [Cv.Read(Cv.VectorGet(i), 0)]
  {
    ContourHistory(i, r, contours, out, cnt, rows, cols, contours);
  }

  lemma ContourOfOut(i: nat, r: Rect, contours: Cv.Handle, out: Cv.Handle, cnt: Cv.Handle, rows: nat, cols: nat)
    requires out != contours && out != cnt
    ensures Cv.History(ContourEvents(i, r, contours, out, cnt, rows, cols), out) == Marks(r, rows, cols)
  {
    ContourHistory(i, r, contours, out, cnt, rows, cols, out);
  }

  lemma ContourOfCnt(i: nat, r: Rect, contours: Cv.Handle, out: Cv.Handle, cnt: Cv.Handle, rows: nat, cols: nat)
    requires cnt != contours && cnt != out
    ensures Cv.History(ContourEvents(i, r, contours, out, cnt, rows, cols), cnt) ==
      [Cv.Alloc(Cv.Mat), Cv.Write(Cv.VectorGet(i)), Cv.Read(Cv.BoundingRect, 0), Cv.Free]
  {
    ContourHistory(i, r, contours, out, cnt, rows, cols, cnt);
  }

  lemma ContourOfOther(i: nat, r: Rect, contours: Cv.Handle, out: Cv.Handle, cnt: Cv.Handle, rows: nat, cols: nat, h: Cv.Handle)
    requires h != contours && h != out && h != cnt
    ensures Cv.History(ContourEvents(i, r, contours, out, cnt, rows, cols), h) == []
  {
    ContourHistory(i, r, contours, out, cnt, rows, cols, h);
  }

  /** The loop touches no buffer but the contour vector, `out` and the contours it fetches. */
  lemma {:induction false} BoxesOfOther(contours: Cv.Handle, out: Cv.Handle, cnt0: Cv.Handle, rows: nat, cols: nat, boxes: seq<Rect>, n: nat, h: Cv.Handle)
    requires n <= |boxes| && h != contours && h != out && (h < cnt0 || cnt0 + n <= h)
    ensures Cv.History(BoxesEvents(contours, out, cnt0, rows, cols, boxes, n), h) == []
    decreases n
  {
    if n > 0 {
      BoxesOfOther(contours, out, cnt0, rows, cols, boxes, n - 1, h);
      ContourOfOther(n - 1, boxes[n - 1], contours, out, cnt0 + n - 1, rows, cols, h);
      Cv.HistoryAppendUntouched(BoxesEvents(contours, out, cnt0, rows, cols, boxes, n - 1), ContourEvents(n - 1, boxes[n - 1], contours, out, cnt0 + n - 1, rows, cols), h);
    }
  }

  /** The loop reads the contour vector once per contour, in index order. */
  lemma {:induction false} BoxesOfContours(contours: Cv.Handle, out: Cv.Handle, cnt0: Cv.Handle, rows: nat, cols: nat, boxes: seq<Rect>, n: nat)
    requires n <= |boxes| && contours != out && contours < cnt0
    ensures Cv.History(BoxesEvents(contours, out, cnt0, rows, cols, boxes, n), contours) == Cv.Gets(n)
    decreases n
  {
    if n > 0 {
      Cv.HistoryAppend(BoxesEvents(contours, out, cnt0, rows, cols, boxes, n - 1), ContourEvents(n - 1, boxes[n - 1], contours, out, cnt0 + n - 1, rows, cols), contours);
      BoxesOfContours(contours, out, cnt0, rows, cols, boxes, n - 1);
      ContourOfContours(n - 1, boxes[n - 1], contours, out, cnt0 + n - 1, rows, cols);
    }
  }

  /** The loop draws into `out` exactly the annotations of the kept contours among the first `n`. */
  lemma {:induction false} BoxesOfOut(contours: Cv.Handle, out: Cv.Handle, cnt0: Cv.Handle, rows: nat, cols: nat, boxes: seq<Rect>, n: nat)
    requires n <= |boxes| && contours != out && out < cnt0
    ensures Cv.History(BoxesEvents(contours, out, cnt0, rows, cols, boxes, n), out) == Annotations(boxes[..n], rows, cols)
    decreases n
  {
    if n > 0 {
      Cv.HistoryAppend(BoxesEvents(contours, out, cnt0, rows, cols, boxes, n - 1), ContourEvents(n - 1, boxes[n - 1], contours, out, cnt0 + n - 1, rows, cols), out);
      BoxesOfOut(contours, out, cnt0, rows, cols, boxes, n - 1);
      ContourOfOut(n - 1, boxes[n - 1], contours, out, cnt0 + n - 1, rows, cols);
      AnnotationsPrefix(boxes, rows, cols, n);
    } else {
      assert boxes[..0] == [];
    }
  }

  /** The turn that fetches contour `j` is the last of the first `j + 1`. */
  lemma BoxesOfLast(contours: Cv.Handle, out: Cv.Handle, cnt0: Cv.Handle, rows: nat, cols: nat, boxes: seq<Rect>, j: nat)
    requires j < |boxes| && contours < cnt0 && out < cnt0
    ensures Cv.History(BoxesEvents(contours, out, cnt0, rows, cols, boxes, j + 1), cnt0 + j) ==
      [Cv.Alloc(Cv.Mat), Cv.Write(Cv.VectorGet(j)), Cv.Read(Cv.BoundingRect, 0), Cv.Free]
  {
    BoxesOfOther(contours, out, cnt0, rows, cols, boxes, j, cnt0 + j);
    ContourOfCnt(j, boxes[j], contours, out, cnt0 + j, rows, cols);
    Cv.HistoryAppendFresh(BoxesEvents(contours, out, cnt0, rows, cols, boxes, j), ContourEvents(j, boxes[j], contours, out, cnt0 + j, rows, cols), cnt0 + j);
  }

  /** Contour `j` is fetched, measured and deleted, whether it is drawn or skipped. */
  lemma {:induction false} BoxesOfContour(contours: Cv.Handle, out: Cv.Handle, cnt0: Cv.Handle, rows: nat, cols: nat, boxes: seq<Rect>, n: nat, j: nat)
    requires n <= |boxes| && contours < cnt0 && out < cnt0 && j < n
    ensures Cv.History(BoxesEvents(contours, out, cnt0, rows, cols, boxes, n), cnt0 + j) ==
      [Cv.Alloc(Cv.Mat), Cv.Write(Cv.VectorGet(j)), Cv.Read(Cv.BoundingRect, 0), Cv.Free]
    decreases n
  {
    if j < n - 1 {
      BoxesOfContour(contours, out, cnt0, rows, cols, boxes, n - 1, j);
      ContourOfOther(n - 1, boxes[n - 1], contours, out, cnt0 + n - 1, rows, cols, cnt0 + j);
      Cv.HistoryAppendUntouched(BoxesEvents(contours, out, cnt0, rows, cols, boxes, n - 1), ContourEvents(n - 1, boxes[n - 1], contours, out, cnt0 + n - 1, rows, cols), cnt0 + j);
    } else {
      BoxesOfLast(contours, out, cnt0, rows, cols, boxes, j);
    }
  }

  /** What line 31 does to any handle. */
  lemma TeardownHistory(gray: Cv.Handle, edges: Cv.Handle, norm: Cv.Handle, heat: Cv.Handle, th: Cv.Handle, contours: Cv.Handle, hierarchy: Cv.Handle, h: Cv.Handle)
    ensures Cv.History(TeardownEvents(gray, edges, norm, heat, th, contours, hierarchy), h) ==
      Cv.UsesOf(Cv.Delete(gray), h) + Cv.UsesOf(Cv.Delete(edges), h)
      + Cv.UsesOf(Cv.Delete(norm), h) + Cv.UsesOf(Cv.Delete(heat), h)
      + Cv.UsesOf(Cv.Delete(th), h) + Cv.UsesOf(Cv.Delete(contours), h)
      + Cv.UsesOf(Cv.Delete(hierarchy), h)
  {
    var e0, e1, e2, e3 := Cv.Delete(gray), Cv.Delete(edges), Cv.Delete(norm), Cv.Delete(heat);
    var e4, e5, e6 := Cv.Delete(th), Cv.Delete(contours), Cv.Delete(hierarchy);
    Cv.HistorySingle(e0, h);
    Cv.HistorySnoc([e0], e1, h);
    Cv.HistorySnoc([e0] + [e1], e2, h);
    Cv.HistorySnoc([e0] + [e1] + [e2], e3, h);
    Cv.HistorySnoc([e0] + [e1] + [e2] + [e3], e4, h);
    Cv.HistorySnoc([e0] + [e1] + [e2] + [e3] + [e4], e5, h);
    Cv.HistorySnoc([e0] + [e1] + [e2] + [e3] + [e4] + [e5], e6, h);
  }

  /** Each of the seven intermediates is deleted, once. */
  lemma TeardownOfFreed(gray: Cv.Handle, edges: Cv.Handle, norm: Cv.Handle, heat: Cv.Handle, th: Cv.Handle, contours: Cv.Handle, hierarchy: Cv.Handle, h: Cv.Handle)
    requires gray < edges < norm < heat < th < contours < hierarchy
    requires h == gray || h == edges || h == norm || h == heat || h == th || h == contours || h == hierarchy
    ensures Cv.History(TeardownEvents(gray, edges, norm, heat, th, contours, hierarchy), h) == [Cv.Free]
  {
    TeardownHistory(gray, edges, norm, heat, th, contours, hierarchy, h);
  }

  /** No other handle is touched. */
  lemma TeardownOfOther(gray: Cv.Handle, edges: Cv.Handle, norm: Cv.Handle, heat: Cv.Handle, th: Cv.Handle, contours: Cv.Handle, hierarchy: Cv.Handle, h: Cv.Handle)
    requires h != gray && h != edges && h != norm && h != heat && h != th && h != contours && h != hierarchy
    ensures Cv.History(TeardownEvents(gray, edges, norm, heat, th, contours, hierarchy), h) == []
  {
    TeardownHistory(gray, edges, norm, heat, th, contours, hierarchy, h);
  }

  // ---- what the whole mode does to each buffer ----
  //
  // Each contract lists the uses stretch by stretch, heat map, search, loop and teardown,
  // leaving out the stretches that do not name the buffer.

  /** The frame is read by the gray conversion and by the clone, and by nothing else. */
  lemma ArOverlayHistoryOfSrc(log: seq<Cv.Event>, src: Cv.Handle, rows: nat, cols: nat, boxes: seq<Rect>, b: Bufs)
    requires Ascending(src, b)
    ensures Cv.History(ArOverlayRun(log, src, rows, cols, boxes, b), src) ==
      Cv.History(log, src) + [Cv.Read(Cvt, 0)] + [Cv.Read(Cv.Clone, 0)]
  {
    HeatOfSrc(src, b.gray, b.edges, b.norm, b.heat);
    SearchOfSrc(src, b.gray, b.heat, b.th, b.contours, b.hierarchy, b.out);
    BoxesOfOther(b.contours, b.out, b.cnt0, rows, cols, boxes, |boxes|, src);
    TeardownOfOther(b.gray, b.edges, b.norm, b.heat, b.th, b.contours, b.hierarchy, src);
    Cv.HistoryOfStretches(log, HeatEvents(src, b.gray, b.edges, b.norm, b.heat), SearchEvents(src, b.gray, b.heat, b.th, b.contours, b.hierarchy, b.out),
      BoxesEvents(b.contours, b.out, b.cnt0, rows, cols, boxes, |boxes|), TeardownEvents(b.gray, b.edges, b.norm, b.heat, b.th, b.contours, b.hierarchy), src);
    Cv.JoinEmpty(Cv.History(log, src) + [Cv.Read(Cvt, 0)] + [Cv.Read(Cv.Clone, 0)]);
  }

  /** `gray` is written by the conversion, read by Canny and by the threshold, and deleted. */
  lemma ArOverlayHistoryOfGray(log: seq<Cv.Event>, src: Cv.Handle, rows: nat, cols: nat, boxes: seq<Rect>, b: Bufs)
    requires Ascending(src, b)
    ensures Cv.History(ArOverlayRun(log, src, rows, cols, boxes, b), b.gray) ==
      Cv.History(log, b.gray) + [Cv.Alloc(Cv.Mat), Cv.Write(Cvt), Cv.Read(EdgeCanny, 0)] + [Cv.Read(Otsu, 0)] + [Cv.Free]
  {
    HeatOfGray(src, b.gray, b.edges, b.norm, b.heat);
    SearchOfGray(src, b.gray, b.heat, b.th, b.contours, b.hierarchy, b.out);
    BoxesOfOther(b.contours, b.out, b.cnt0, rows, cols, boxes, |boxes|, b.gray);
    TeardownOfFreed(b.gray, b.edges, b.norm, b.heat, b.th, b.contours, b.hierarchy, b.gray);
    Cv.HistoryOfStretches(log, HeatEvents(src, b.gray, b.edges, b.norm, b.heat), SearchEvents(src, b.gray, b.heat, b.th, b.contours, b.hierarchy, b.out),
      BoxesEvents(b.contours, b.out, b.cnt0, rows, cols, boxes, |boxes|), TeardownEvents(b.gray, b.edges, b.norm, b.heat, b.th, b.contours, b.hierarchy), b.gray);
    Cv.JoinEmpty(Cv.History(log, b.gray) + [Cv.Alloc(Cv.Mat), Cv.Write(Cvt), Cv.Read(EdgeCanny, 0)] + [Cv.Read(Otsu, 0)]);
  }

  /** `edges` is written by Canny, read by the normalisation, and deleted. */
  lemma ArOverlayHistoryOfEdges(log: seq<Cv.Event>, src: Cv.Handle, rows: nat, cols: nat, boxes: seq<Rect>, b: Bufs)
    requires Ascending(src, b)
    ensures Cv.History(ArOverlayRun(log, src, rows, cols, boxes, b), b.edges) ==
      Cv.History(log, b.edges) + [Cv.Alloc(Cv.Mat), Cv.Write(EdgeCanny), Cv.Read(Cv.NormalizeTo8U, 0)] + [Cv.Free]
  {
    HeatOfEdges(src, b.gray, b.edges, b.norm, b.heat);
    SearchOfOther(src, b.gray, b.heat, b.th, b.contours, b.hierarchy, b.out, b.edges);
    BoxesOfOther(b.contours, b.out, b.cnt0, rows, cols, boxes, |boxes|, b.edges);
    TeardownOfFreed(b.gray, b.edges, b.norm, b.heat, b.th, b.contours, b.hierarchy, b.edges);
    Cv.HistoryOfStretches(log, HeatEvents(src, b.gray, b.edges, b.norm, b.heat), SearchEvents(src, b.gray, b.heat, b.th, b.contours, b.hierarchy, b.out),
      BoxesEvents(b.contours, b.out, b.cnt0, rows, cols, boxes, |boxes|), TeardownEvents(b.gray, b.edges, b.norm, b.heat, b.th, b.contours, b.hierarchy), b.edges);
    Cv.JoinEmpty(Cv.History(log, b.edges) + [Cv.Alloc(Cv.Mat), Cv.Write(EdgeCanny), Cv.Read(Cv.NormalizeTo8U, 0)]);
  }

  /** `norm` is written by the normalisation, read by the colouring, and deleted. */
  lemma ArOverlayHistoryOfNorm(log: seq<Cv.Event>, src: Cv.Handle, rows: nat, cols: nat, boxes: seq<Rect>, b: Bufs)
    requires Ascending(src, b)
    ensures Cv.History(ArOverlayRun(log, src, rows, cols, boxes, b), b.norm) ==
      Cv.History(log, b.norm) + [Cv.Alloc(Cv.Mat), Cv.Write(Cv.NormalizeTo8U), Cv.Read(Cv.ApplyJet, 0)] + [Cv.Free]
  {
    HeatOfNorm(src, b.gray, b.edges, b.norm, b.heat);
    SearchOfOther(src, b.gray, b.heat, b.th, b.contours, b.hierarchy, b.out, b.norm);
    BoxesOfOther(b.contours, b.out, b.cnt0, rows, cols, boxes, |boxes|, b.norm);
    TeardownOfFreed(b.gray, b.edges, b.norm, b.heat, b.th, b.contours, b.hierarchy, b.norm);
    Cv.HistoryOfStretches(log, HeatEvents(src, b.gray, b.edges, b.norm, b.heat), SearchEvents(src, b.gray, b.heat, b.th, b.contours, b.hierarchy, b.out),
      BoxesEvents(b.contours, b.out, b.cnt0, rows, cols, boxes, |boxes|), TeardownEvents(b.gray, b.edges, b.norm, b.heat, b.th, b.contours, b.hierarchy), b.norm);
    Cv.JoinEmpty(Cv.History(log, b.norm) + [Cv.Alloc(Cv.Mat), Cv.Write(Cv.NormalizeTo8U), Cv.Read(Cv.ApplyJet, 0)]);
  }

  /** `heat` is written by the colouring, blended into `out`, and deleted. */
  lemma ArOverlayHistoryOfHeat(log: seq<Cv.Event>, src: Cv.Handle, rows: nat, cols: nat, boxes: seq<Rect>, b: Bufs)
    requires Ascending(src, b)
    ensures Cv.History(ArOverlayRun(log, src, rows, cols, boxes, b), b.heat) ==
      Cv.History(log, b.heat) + [Cv.Alloc(Cv.Mat), Cv.Write(Cv.ApplyJet)] + [Cv.Read(Blend, 1)] + [Cv.Free]
  {
    HeatOfHeat(src, b.gray, b.edges, b.norm, b.heat);
    SearchOfHeat(src, b.gray, b.heat, b.th, b.contours, b.hierarchy, b.out);
    BoxesOfOther(b.contours, b.out, b.cnt0, rows, cols, boxes, |boxes|, b.heat);
    TeardownOfFreed(b.gray, b.edges, b.norm, b.heat, b.th, b.contours, b.hierarchy, b.heat);
    Cv.HistoryOfStretches(log, HeatEvents(src, b.gray, b.edges, b.norm, b.heat), SearchEvents(src, b.gray, b.heat, b.th, b.contours, b.hierarchy, b.out),
      BoxesEvents(b.contours, b.out, b.cnt0, rows, cols, boxes, |boxes|), TeardownEvents(b.gray, b.edges, b.norm, b.heat, b.th, b.contours, b.hierarchy), b.heat);
    Cv.JoinEmpty(Cv.History(log, b.heat) + [Cv.Alloc(Cv.Mat), Cv.Write(Cv.ApplyJet)] + [Cv.Read(Blend, 1)]);
  }

  /** `th` is written by the threshold, read by the contour search, and deleted. */
  lemma ArOverlayHistoryOfTh(log: seq<Cv.Event>, src: Cv.Handle, rows: nat, cols: nat, boxes: seq<Rect>, b: Bufs)
    requires Ascending(src, b)
    ensures Cv.History(ArOverlayRun(log, src, rows, cols, boxes, b), b.th) ==
      Cv.History(log, b.th) + [Cv.Alloc(Cv.Mat), Cv.Write(Otsu), Cv.Read(Cv.FindContours, 0)] + [Cv.Free]
  {
    HeatOfOther(src, b.gray, b.edges, b.norm, b.heat, b.th);
    SearchOfTh(src, b.gray, b.heat, b.th, b.contours, b.hierarchy, b.out);
    BoxesOfOther(b.contours, b.out, b.cnt0, rows, cols, boxes, |boxes|, b.th);
    TeardownOfFreed(b.gray, b.edges, b.norm, b.heat, b.th, b.contours, b.hierarchy, b.th);
    Cv.HistoryOfStretches(log, HeatEvents(src, b.gray, b.edges, b.norm, b.heat), SearchEvents(src, b.gray, b.heat, b.th, b.contours, b.hierarchy, b.out),
      BoxesEvents(b.contours, b.out, b.cnt0, rows, cols, boxes, |boxes|), TeardownEvents(b.gray, b.edges, b.norm, b.heat, b.th, b.contours, b.hierarchy), b.th);
    Cv.JoinEmpty(Cv.History(log, b.th));
    Cv.JoinEmpty(Cv.History(log, b.th) + [Cv.Alloc(Cv.Mat), Cv.Write(Otsu), Cv.Read(Cv.FindContours, 0)]);
  }

  /** The contour vector is filled by the search, read once per contour in index order, and deleted. */
  lemma {:induction false} ArOverlayHistoryOfContours(log: seq<Cv.Event>, src: Cv.Handle, rows: nat, cols: nat, boxes: seq<Rect>, b: Bufs)
    requires Ascending(src, b)
    ensures Cv.History(ArOverlayRun(log, src, rows, cols, boxes, b), b.contours) ==
      Cv.History(log, b.contours) + [Cv.Alloc(Cv.MatVector), Cv.Write(Cv.FindContours)] + Cv.Gets(|boxes|) + [Cv.Free]
  {
    HeatOfOther(src, b.gray, b.edges, b.norm, b.heat, b.contours);
    SearchOfContours(src, b.gray, b.heat, b.th, b.contours, b.hierarchy, b.out);
    BoxesOfContours(b.contours, b.out, b.cnt0, rows, cols, boxes, |boxes|);
    TeardownOfFreed(b.gray, b.edges, b.norm, b.heat, b.th, b.contours, b.hierarchy, b.contours);
    Cv.HistoryOfStretches(log, HeatEvents(src, b.gray, b.edges, b.norm, b.heat), SearchEvents(src, b.gray, b.heat, b.th, b.contours, b.hierarchy, b.out),
      BoxesEvents(b.contours, b.out, b.cnt0, rows, cols, boxes, |boxes|), TeardownEvents(b.gray, b.edges, b.norm, b.heat, b.th, b.contours, b.hierarchy), b.contours);
    Cv.JoinEmpty(Cv.History(log, b.contours));
  }

  /** The hierarchy is filled by the search, never read, and deleted. */
  lemma ArOverlayHistoryOfHierarchy(log: seq<Cv.Event>, src: Cv.Handle, rows: nat, cols: nat, boxes: seq<Rect>, b: Bufs)
    requires Ascending(src, b)
    ensures Cv.History(ArOverlayRun(log, src, rows, cols, boxes, b), b.hierarchy) ==
      Cv.History(log, b.hierarchy) + [Cv.Alloc(Cv.Mat), Cv.Write(Cv.FindContours)] + [Cv.Free]
  {
    HeatOfOther(src, b.gray, b.edges, b.norm, b.heat, b.hierarchy);
    SearchOfHierarchy(src, b.gray, b.heat, b.th, b.contours, b.hierarchy, b.out);
    BoxesOfOther(b.contours, b.out, b.cnt0, rows, cols, boxes, |boxes|, b.hierarchy);
    TeardownOfFreed(b.gray, b.edges, b.norm, b.heat, b.th, b.contours, b.hierarchy, b.hierarchy);
    Cv.HistoryOfStretches(log, HeatEvents(src, b.gray, b.edges, b.norm, b.heat), SearchEvents(src, b.gray, b.heat, b.th, b.contours, b.hierarchy, b.out),
      BoxesEvents(b.contours, b.out, b.cnt0, rows, cols, boxes, |boxes|), TeardownEvents(b.gray, b.edges, b.norm, b.heat, b.th, b.contours, b.hierarchy), b.hierarchy);
    Cv.JoinEmpty(Cv.History(log, b.hierarchy));
    Cv.JoinEmpty(Cv.History(log, b.hierarchy) + [Cv.Alloc(Cv.Mat), Cv.Write(Cv.FindContours)]);
  }

  /** `out` is the blended clone carrying exactly the annotations of the kept contours; it is not deleted. */
  lemma ArOverlayHistoryOfOut(log: seq<Cv.Event>, src: Cv.Handle, rows: nat, cols: nat, boxes: seq<Rect>, b: Bufs)
    requires Ascending(src, b)
    ensures Cv.History(ArOverlayRun(log, src, rows, cols, boxes, b), b.out) ==
      Cv.History(log, b.out) + [Cv.Alloc(Cv.Mat), Cv.Write(Cv.Clone), Cv.Update(Blend)] + Annotations(boxes, rows, cols)
  {
    HeatOfOther(src, b.gray, b.edges, b.norm, b.heat, b.out);
    SearchOfOut(src, b.gray, b.heat, b.th, b.contours, b.hierarchy, b.out);
    BoxesOfOut(b.contours, b.out, b.cnt0, rows, cols, boxes, |boxes|);
    TeardownOfOther(b.gray, b.edges, b.norm, b.heat, b.th, b.contours, b.hierarchy, b.out);
    assert boxes[..|boxes|] == boxes;
    Cv.HistoryOfStretches(log, HeatEvents(src, b.gray, b.edges, b.norm, b.heat), SearchEvents(src, b.gray, b.heat, b.th, b.contours, b.hierarchy, b.out),
      BoxesEvents(b.contours, b.out, b.cnt0, rows, cols, boxes, |boxes|), TeardownEvents(b.gray, b.edges, b.norm, b.heat, b.th, b.contours, b.hierarchy), b.out);
    Cv.JoinEmpty(Cv.History(log, b.out));
    Cv.JoinEmpty(Cv.History(log, b.out) + [Cv.Alloc(Cv.Mat), Cv.Write(Cv.Clone), Cv.Update(Blend)] + Annotations(boxes, rows, cols));
  }

  /** Contour `j` is fetched into its own Mat, measured and deleted, whether it is drawn or skipped. */
  lemma ArOverlayHistoryOfContour(log: seq<Cv.Event>, src: Cv.Handle, rows: nat, cols: nat, boxes: seq<Rect>, b: Bufs, j: nat)
    requires Ascending(src, b) && j < |boxes|
    ensures Cv.History(ArOverlayRun(log, src, rows, cols, boxes, b), b.cnt0 + j) ==
      Cv.History(log, b.cnt0 + j) + [Cv.Alloc(Cv.Mat), Cv.Write(Cv.VectorGet(j)), Cv.Read(Cv.BoundingRect, 0), Cv.Free]
  {
    HeatOfOther(src, b.gray, b.edges, b.norm, b.heat, b.cnt0 + j);
    SearchOfOther(src, b.gray, b.heat, b.th, b.contours, b.hierarchy, b.out, b.cnt0 + j);
    BoxesOfContour(b.contours, b.out, b.cnt0, rows, cols, boxes, |boxes|, j);
    TeardownOfOther(b.gray, b.edges, b.norm, b.heat, b.th, b.contours, b.hierarchy, b.cnt0 + j);
    Cv.HistoryOfThirdStretch(log, HeatEvents(src, b.gray, b.edges, b.norm, b.heat), SearchEvents(src, b.gray, b.heat, b.th, b.contours, b.hierarchy, b.out),
      BoxesEvents(b.contours, b.out, b.cnt0, rows, cols, boxes, |boxes|), TeardownEvents(b.gray, b.edges, b.norm, b.heat, b.th, b.contours, b.hierarchy), b.cnt0 + j);
  }

  /**
   * What `arOverlayMode` does to every buffer it names. The frame is only read, by the
   * gray conversion and by the clone. Each intermediate is written once, read by the
   * steps the source names, and deleted; the contour vector is read once per contour,
   * in index order. Every contour fetched into its own Mat is measured and deleted,
   * on the skip path as on the draw path. The result is the blended clone carrying
   * exactly the annotations of the kept contours, and nothing else.
   */
  lemma ArOverlayLifetimes(log: seq<Cv.Event>, src: Cv.Handle, rows: nat, cols: nat, boxes: seq<Rect>, b: Bufs)
    requires Ascending(src, b)
    ensures var run := ArOverlayRun(log, src, rows, cols, boxes, b);
      && Cv.History(run, src) == Cv.History(log, src) + [Cv.Read(Cvt, 0)] + [Cv.Read(Cv.Clone, 0)]
      && Cv.History(run, b.gray) == Cv.History(log, b.gray) + [Cv.Alloc(Cv.Mat), Cv.Write(Cvt), Cv.Read(EdgeCanny, 0)] + [Cv.Read(Otsu, 0)] + [Cv.Free]
      && Cv.History(run, b.edges) == Cv.History(log, b.edges) + [Cv.Alloc(Cv.Mat), Cv.Write(EdgeCanny), Cv.Read(Cv.NormalizeTo8U, 0)] + [Cv.Free]
      && Cv.History(run, b.norm) == Cv.History(log, b.norm) + [Cv.Alloc(Cv.Mat), Cv.Write(Cv.NormalizeTo8U), Cv.Read(Cv.ApplyJet, 0)] + [Cv.Free]
      && Cv.History(run, b.heat) == Cv.History(log, b.heat) + [Cv.Alloc(Cv.Mat), Cv.Write(Cv.ApplyJet)] + [Cv.Read(Blend, 1)] + [Cv.Free]
      && Cv.History(run, b.th) == Cv.History(log, b.th) + [Cv.Alloc(Cv.Mat), Cv.Write(Otsu), Cv.Read(Cv.FindContours, 0)] + [Cv.Free]
      && Cv.History(run, b.contours) == Cv.History(log, b.contours) + [Cv.Alloc(Cv.MatVector), Cv.Write(Cv.FindContours)] + Cv.Gets(|boxes|) + [Cv.Free]
      && Cv.History(run, b.hierarchy) == Cv.History(log, b.hierarchy) + [Cv.Alloc(Cv.Mat), Cv.Write(Cv.FindContours)] + [Cv.Free]
      && Cv.History(run, b.out) == Cv.History(log, b.out) + [Cv.Alloc(Cv.Mat), Cv.Write(Cv.Clone), Cv.Update(Blend)] + Annotations(boxes, rows, cols)
      && (forall j :: 0 <= j < |boxes| ==> Cv.History(run, b.cnt0 + j) == Cv.History(log, b.cnt0 + j) + [Cv.Alloc(Cv.Mat), Cv.Write(Cv.VectorGet(j)), Cv.Read(Cv.BoundingRect, 0), Cv.Free])
  {
    ArOverlayHistoryOfSrc(log, src, rows, cols, boxes, b);
    ArOverlayHistoryOfGray(log, src, rows, cols, boxes, b);
    ArOverlayHistoryOfEdges(log, src, rows, cols, boxes, b);
    ArOverlayHistoryOfNorm(log, src, rows, cols, boxes, b);
    ArOverlayHistoryOfHeat(log, src, rows, cols, boxes, b);
    ArOverlayHistoryOfTh(log, src, rows, cols, boxes, b);
    ArOverlayHistoryOfContours(log, src, rows, cols, boxes, b);
    ArOverlayHistoryOfHierarchy(log, src, rows, cols, boxes, b);
    ArOverlayHistoryOfOut(log, src, rows, cols, boxes, b);
    forall j | 0 <= j < |boxes|
      ensures Cv.History(ArOverlayRun(log, src, rows, cols, boxes, b), b.cnt0 + j) == Cv.History(log, b.cnt0 + j) + [Cv.Alloc(Cv.Mat), Cv.Write(Cv.VectorGet(j)), Cv.Read(Cv.BoundingRect, 0), Cv.Free]
    {
      ArOverlayHistoryOfContour(log, src, rows, cols, boxes, b, j);
    }
  }

  /** With no contours, `out` is the blended clone and carries no annotation. */
  lemma ArOverlayNoContours(log: seq<Cv.Event>, src: Cv.Handle, rows: nat, cols: nat, b: Bufs)
    requires Ascending(src, b)
    ensures Cv.History(ArOverlayRun(log, src, rows, cols, [], b), b.out) ==
      Cv.History(log, b.out) + [Cv.Alloc(Cv.Mat), Cv.Write(Cv.Clone), Cv.Update(Blend)]
  {
    ArOverlayHistoryOfOut(log, src, rows, cols, [], b);
    Cv.JoinEmpty(Cv.History(log, b.out) + [Cv.Alloc(Cv.Mat), Cv.Write(Cv.Clone), Cv.Update(Blend)]);
  }

  // ---- the code ----

  /**
   * `normalizeTo8U(m)`, which no file of this model defines: modelled as allocating one
   * fresh Mat and filling it from `m`, as the producers of `Preprocess` do.
   */
  method NormalizeTo8U(a: Cv.Arena, m: Cv.Handle) returns (r: Cv.Handle)
    modifies a
    ensures r == old(a.next) && a.next == r + 1
    ensures a.log == Preprocess.ProducerRun(old(a.log), Cv.NormalizeTo8U, m, r)
  {
    r := a.Alloc(Cv.Mat);
    a.Invoke(Cv.NormalizeTo8U, [m], [r]);
  }

  /** `applyJet(m)`, defined in no file of this model either, modelled the same way. */
  method ApplyJet(a: Cv.Arena, m: Cv.Handle) returns (r: Cv.Handle)
    modifies a
    ensures r == old(a.next) && a.next == r + 1
    ensures a.log == Preprocess.ProducerRun(old(a.log), Cv.ApplyJet, m, r)
  {
    r := a.Alloc(Cv.Mat);
    a.Invoke(Cv.ApplyJet, [m], [r]);
  }

  /** Lines 4-7. */
  method EdgeHeatMap(a: Cv.Arena, src: Cv.Handle) returns (gray: Cv.Handle, edges: Cv.Handle, norm: Cv.Handle, heat: Cv.Handle)
    modifies a
    ensures gray == old(a.next) && edges == gray + 1 && norm == gray + 2 && heat == gray + 3 && a.next == gray + 4
    ensures a.log == old(a.log) + HeatEvents(src, gray, edges, norm, heat)
  {
    gray := a.Alloc(Cv.Mat);
    a.Invoke(Cvt, [src], [gray]);
    edges := a.Alloc(Cv.Mat);
    a.Invoke(EdgeCanny, [gray], [edges]);
    norm := NormalizeTo8U(a, edges);
    heat := ApplyJet(a, norm);
  }

  /** Lines 10-16. */
  method FindRegions(a: Cv.Arena, src: Cv.Handle, gray: Cv.Handle, heat: Cv.Handle) returns (th: Cv.Handle, contours: Cv.Handle, hierarchy: Cv.Handle, out: Cv.Handle)
    modifies a
    ensures th == old(a.next) && contours == th + 1 && hierarchy == th + 2 && out == th + 3 && a.next == th + 4
    ensures a.log == old(a.log) + SearchEvents(src, gray, heat, th, contours, hierarchy, out)
  {
    th := a.Alloc(Cv.Mat);
    a.Invoke(Otsu, [gray], [th]);
    contours := a.Alloc(Cv.MatVector);
    hierarchy := a.Alloc(Cv.Mat);
    a.Invoke(Cv.FindContours, [th], [contours, hierarchy]);
    out := a.Alloc(Cv.Mat);
    a.Invoke(Cv.Clone, [src], [out]);
    a.Invoke(Blend, [out, heat], [out]);
  }

  /** Lines 20-28, for contour `i` whose bounding box is `rect`. */
  method AnnotateContour(a: Cv.Arena, contours: Cv.Handle, out: Cv.Handle, i: nat, rect: Rect, rows: nat, cols: nat)
    modifies a
    ensures a.next == old(a.next) + 1
    ensures a.log == old(a.log) + ContourEvents(i, rect, contours, out, old(a.next), rows, cols)
  {
    var cnt := a.Alloc(Cv.Mat);
    a.Invoke(Cv.VectorGet(i), [contours], [cnt]);
    a.Invoke(Cv.BoundingRect, [cnt], []);
    if 500 * rect.width * rect.height < rows * cols {
      a.Delete(cnt);
      return;
    }
    a.Invoke(Cv.Rectangle(Cv.Point(rect.x, rect.y), Cv.Point(rect.x + rect.width, rect.y + rect.height), BoxColor, 3), [out], [out]);
    var labelY := if 10 >= rect.y - 6 then 10 else rect.y - 6;
    a.Invoke(Cv.PutText("Region", Cv.Point(rect.x, labelY), 60, LabelColor, 2), [out], [out]);
    a.Delete(cnt);
  }

  /** Lines 19-29: the loop over the contours, the `i`-th fetched into handle `old(a.next) + i`. */
  method AnnotateAll(a: Cv.Arena, contours: Cv.Handle, out: Cv.Handle, rows: nat, cols: nat, boxes: seq<Rect>)
    modifies a
    ensures a.next == old(a.next) + |boxes|
    ensures a.log == old(a.log) + BoxesEvents(contours, out, old(a.next), rows, cols, boxes, |boxes|)
  {
    ghost var setup, cnt0 := a.log, a.next;
    for i := 0 to |boxes|
      invariant a.next == cnt0 + i
      invariant a.log == setup + BoxesEvents(contours, out, cnt0, rows, cols, boxes, i)
    {
      AnnotateContour(a, contours, out, i, boxes[i], rows, cols);
      BoxesExtend(setup, contours, out, cnt0, rows, cols, boxes, i);
    }
  }

  /** Line 31. */
  method Release(a: Cv.Arena, gray: Cv.Handle, edges: Cv.Handle, norm: Cv.Handle, heat: Cv.Handle, th: Cv.Handle, contours: Cv.Handle, hierarchy: Cv.Handle)
    modifies a
    ensures a.next == old(a.next)
    ensures a.log == old(a.log) + TeardownEvents(gray, edges, norm, heat, th, contours, hierarchy)
  {
    a.Delete(gray);
    a.Delete(edges);
    a.Delete(norm);
    a.Delete(heat);
    a.Delete(th);
    a.Delete(contours);
    a.Delete(hierarchy);
  }

  method ArOverlayMode(a: Cv.Arena, src: Cv.Handle, rows: nat, cols: nat, boxes: seq<Rect>) returns (out: Cv.Handle)
    requires a.Valid() && src in a.Live()
    modifies a
    ensures out == old(a.next) + 7 && a.next == out + 1 + |boxes|
    ensures a.log == ArOverlayRun(old(a.log), src, rows, cols, boxes, Layout(old(a.next)))
    ensures a.Valid() && out !in old(a.Live()) && a.Live() == old(a.Live()) + {out}
  {
    ghost var log0, base := a.log, a.next;
    var gray, edges, norm, heat := EdgeHeatMap(a, src);
    var th, contours, hierarchy;
    th, contours, hierarchy, out := FindRegions(a, src, gray, heat);
    AnnotateAll(a, contours, out, rows, cols, boxes);
    Release(a, gray, edges, norm, heat, th, contours, hierarchy);
    ghost var b := Bufs(gray, edges, norm, heat, th, contours, hierarchy, out, out + 1);
    assert b == Layout(base);
    assert a.log == ArOverlayRun(log0, src, rows, cols, boxes, b);
    ArOverlayReplay(log0, src, rows, cols, boxes, b);
  }
}
