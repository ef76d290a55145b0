/**
 * The OpenCV.js objects the pipeline allocates by hand (`cv.Mat`, `cv.MatVector`,
 * `cv.KeyPointVector`, `cv.ORB`), seen only as handles into an arena.
 *
 * Every `cv.*` routine is an opaque call that reads some handles and writes others;
 * the pixels it computes are not modelled. What is modelled is the ownership
 * discipline: which handles are live, which are created, which are deleted, and
 * which are read or written by each call.
 */
module Cv {

  datatype Option<+T> = None | Some(value: T)

  /** A native object, named by the order in which it was allocated. */
  type Handle = nat

  datatype Kind = Mat | MatVector | KeyPointVector | Orb

  datatype ColorCode = RgbaToGray | GrayToRgba

  datatype Depth = Depth8U | Depth16S

  datatype Point = Point(x: int, y: int)

  datatype Color = Color(r: nat, g: nat, b: nat, a: nat)

  /** OpenCV's threshold flags, as the integers they combine to. */
  const ThreshBinary: nat := 0
  const ThreshOtsu: nat := 8

  /**
   * The `cv.*` routines the core calls, with the constants it passes.
   * Floating-point weights are recorded in hundredths (0.7 is 70).
   */
  datatype Op =
    | ImRead
    | ImShow
    | Clone
    | CvtColor(code: ColorCode)
    | Canny(low: nat, high: nat)
    | Sobel(depth: Depth, dx: nat, dy: nat)
    | GaussianBlur(ksize: nat, sigma: nat)
    | Laplacian(depth: Depth)
    | Subtract
    | ConvertScaleAbs
    | AddWeighted(alphaPct: nat, betaPct: nat, gamma: int)
    | Threshold(thresh: nat, maxval: nat, flags: nat)
    | EqualizeHist
    | NormalizeTo8U
    | ApplyJet
    | FindContours
    | VectorGet(index: nat)
    | BoundingRect
    | OrbDetect
    | DrawKeypoints(color: Color)
    | Rectangle(p1: Point, p2: Point, color: Color, thickness: nat)
    | PutText(text: string, org: Point, scalePct: nat, color: Color, thickness: nat)
    | Circle(center: Point, radius: int, color: Color, thickness: nat)

  /** One step on the arena: an allocation, a `.delete()`, or a `cv.*` call. */
  datatype Event =
    | New(h: Handle, kind: Kind)
    | Delete(h: Handle)
    | Call(op: Op, inputs: seq<Handle>, outputs: seq<Handle>)

  predicate AllLive(hs: seq<Handle>, live: set<Handle>) {
    forall h <- hs :: h in live
  }

  /** Every live handle was allocated before `base`, so `base` and above are fresh. */
  predicate Below(live: set<Handle>, base: Handle) {
    forall h <- live :: h < base
  }

  /**
   * The effect of one event on the live set; None when the event allocates a live
   * handle, deletes a dead one, or passes a dead handle to a call.
   */
  function Apply(live: set<Handle>, e: Event): Option<set<Handle>> {
    match e
    case New(h, _) => if h in live then None else Some(live + {h})
    case Delete(h) => if h in live then Some(live - {h}) else None
    case Call(_, ins, outs) => if AllLive(ins, live) && AllLive(outs, live) then Some(live) else None
  }

  /** One event applied to the outcome of the events before it; a misuse, once made, persists. */
  function Step(o: Option<set<Handle>>, e: Event): Option<set<Handle>> {
    match o
    case None => None
    case Some(l) => Apply(l, e)
  }

  /** The live set after a sequence of events, or None if one of them misuses a handle. */
  function Replay(live: set<Handle>, t: seq<Event>): Option<set<Handle>>
    decreases |t|
  {
    if |t| == 0 then Some(live) else Step(Replay(live, t[..|t| - 1]), t[|t| - 1])
  }

  function Continue(o: Option<set<Handle>>, t: seq<Event>): Option<set<Handle>> {
    match o
    case None => None
    case Some(l) => Replay(l, t)
  }

  /** A trace extended by one event replays one more step from where the shorter one left off. */
  lemma ReplaySnoc(live: set<Handle>, t: seq<Event>, e: Event)
    ensures Replay(live, t + [e]) == Step(Replay(live, t), e)
  {
    assert (t + [e])[..|t + [e]| - 1] == t;
  }

  /** Replaying two event sequences one after the other is replaying their concatenation. */
  lemma {:induction false} ReplayAppend(live: set<Handle>, t1: seq<Event>, t2: seq<Event>)
    ensures Replay(live, t1 + t2) == Continue(Replay(live, t1), t2)
    decreases |t2|
  {
    if t2 == [] {
      assert t1 + t2 == t1;
    } else {
      var n := |t2| - 1;
      assert (t1 + t2)[..|t1 + t2| - 1] == t1 + t2[..n];
      assert (t1 + t2)[|t1 + t2| - 1] == t2[n];
      ReplayAppend(live, t1, t2[..n]);
    }
  }

  /** Concatenation regrouped: a trace extended by two stretches in turn. */
  lemma AppendRegroup(t: seq<Event>, t1: seq<Event>, t2: seq<Event>)
    ensures t + (t1 + t2) == t + t1 + t2
  {
  }

  /** The event allocates, deletes, reads or writes `h`. */
  predicate Touches(e: Event, h: Handle) {
    match e
    case New(g, _) => g == h
    case Delete(g) => g == h
    case Call(_, ins, outs) => h in ins || h in outs
  }

  /** What one event does to a handle it names. */
  datatype Use =
    | Alloc(kind: Kind)
    | Read(op: Op, arg: nat)  // passed as the input at position `arg`
    | Write(op: Op)           // written, not read
    | Update(op: Op)          // read and written in place
    | Free

  function IndexOf(s: seq<Handle>, h: Handle): nat
    requires h in s
  {
    if s[0] == h then 0 else 1 + IndexOf(s[1..], h)
  }

  function UseOf(e: Event, h: Handle): Use
    requires Touches(e, h)
  {
    match e
    case New(_, kind) => Alloc(kind)
    case Delete(_) => Free
    case Call(op, ins, outs) =>
      if h !in outs then Read(op, IndexOf(ins, h))
      else if h in ins then Update(op)
      else Write(op)
  }

  /** What `e` does to `h`: nothing, or one use. */
  function UsesOf(e: Event, h: Handle): seq<Use> {
    if Touches(e, h) then [UseOf(e, h)] else []
  }

  /** The life of `h` within `t`: what each event naming it does to it, in order. */
  function History(t: seq<Event>, h: Handle): seq<Use>
    decreases |t|
  {
    if |t| == 0 then []
    else if Touches(t[|t| - 1], h) then History(t[..|t| - 1], h) + [UseOf(t[|t| - 1], h)]
    else History(t[..|t| - 1], h)
  }

  /** One more event adds its use of `h`, if any. */
  lemma HistoryStep(t: seq<Event>, e: Event, h: Handle)
    ensures History(t + [e], h) == if Touches(e, h) then History(t, h) + [UseOf(e, h)] else History(t, h)
  {
    assert (t + [e])[..|t + [e]| - 1] == t;
  }

  lemma HistorySnoc(t: seq<Event>, e: Event, h: Handle)
    ensures History(t + [e], h) == History(t, h) + UsesOf(e, h)
  {
    HistoryStep(t, e, h);
    assert History(t, h) + [] == History(t, h);
  }

  lemma {:induction false} HistoryAppend(t1: seq<Event>, t2: seq<Event>, h: Handle)
    ensures History(t1 + t2, h) == History(t1, h) + History(t2, h)
    decreases |t2|
  {
    if t2 == [] {
      assert t1 + t2 == t1;
    } else {
      var n := |t2| - 1;
      assert (t1 + t2)[..|t1 + t2| - 1] == t1 + t2[..n];
      assert (t1 + t2)[|t1 + t2| - 1] == t2[n];
      HistoryAppend(t1, t2[..n], h);
    }
  }

  /** A single event replays as one step. */
  lemma ReplaySingle(live: set<Handle>, e: Event)
    ensures Replay(live, [e]) == Apply(live, e)
  {
    assert [e][..0] == [];
  }

  lemma HistorySingle(e: Event, h: Handle)
    ensures History([e], h) == UsesOf(e, h)
  {
    assert [e][..0] == [];
    assert [] + UsesOf(e, h) == UsesOf(e, h);
  }

  /** The history over four stretches run one after another on top of `log` is theirs joined in order. */
  lemma HistoryOfStretches(log: seq<Event>, a: seq<Event>, b: seq<Event>, c: seq<Event>, d: seq<Event>, h: Handle)
    ensures History(log + a + b + c + d, h) == History(log, h) + History(a, h) + History(b, h) + History(c, h) + History(d, h)
  {
    HistoryAppend(log, a, h);
    HistoryAppend(log + a, b, h);
    HistoryAppend(log + a + b, c, h);
    HistoryAppend(log + a + b + c, d, h);
  }

  /** When only the third of four stretches names `h`, the life of `h` across all four is its life before plus that stretch's. */
  lemma HistoryOfThirdStretch(log: seq<Event>, a: seq<Event>, b: seq<Event>, c: seq<Event>, d: seq<Event>, h: Handle)
    requires History(a, h) == [] && History(b, h) == [] && History(d, h) == []
    ensures History(log + a + b + c + d, h) == History(log, h) + History(c, h)
  {
    HistoryOfStretches(log, a, b, c, d, h);
    assert History(log, h) + [] + [] == History(log, h);
    assert History(log, h) + History(c, h) + [] == History(log, h) + History(c, h);
  }

  /** Appending no use leaves a history as it was. */
  lemma JoinEmpty(x: seq<Use>)
    ensures x + [] == x
  {
  }

  /** Events that do not name `h` leave its life as it was. */
  lemma HistoryAppendUntouched(t1: seq<Event>, t2: seq<Event>, h: Handle)
    requires History(t2, h) == []
    ensures History(t1 + t2, h) == History(t1, h)
  {
    HistoryAppend(t1, t2, h);
    assert History(t1, h) + [] == History(t1, h);
  }

  lemma HistoryAppendFresh(t1: seq<Event>, t2: seq<Event>, h: Handle)
    requires History(t1, h) == []
    ensures History(t1 + t2, h) == History(t2, h)
  {
    HistoryAppend(t1, t2, h);
    assert [] + History(t2, h) == History(t2, h);
  }

  /** A vector read element by element: `get(0)`, `get(1)`, ..., `get(n - 1)`. */
  function Gets(n: nat): seq<Use>
    decreases n
  {
    if n == 0 then [] else Gets(n - 1) + [Read(VectorGet(n - 1), 0)]
  }

  /** Each element is fetched once, in index order. */
  lemma {:induction false} GetsInOrder(n: nat)
    ensures |Gets(n)| == n
    ensures forall j :: 0 <= j < n ==> Gets(n)[j] == Read(VectorGet(j), 0)
    decreases n
  {
    if n > 0 {
      GetsInOrder(n - 1);
    }
  }

  /** Only `Read` uses: no event of `t` writes, updates, deletes or allocates `h`. */
  predicate Untouched(t: seq<Event>, h: Handle) {
    forall u <- History(t, h) :: u.Read?
  }

  /** An event that names `h` but only as an input leaves it as it was. */
  predicate ReadOnly(e: Event, h: Handle) {
    e.Call? && h in e.inputs && h !in e.outputs
  }

  /** Every use in the life of `h` comes from an event of `t` naming it, and back. */
  lemma {:induction false} HistoryMembers(t: seq<Event>, h: Handle)
    ensures forall e <- t :: Touches(e, h) ==> UseOf(e, h) in History(t, h)
    ensures forall u <- History(t, h) :: exists e <- t :: Touches(e, h) && u == UseOf(e, h)
    decreases |t|
  {
    if t != [] {
      var n := |t| - 1;
      HistoryMembers(t[..n], h);
      assert t == t[..n] + [t[n]];
    }
  }

  /** Hence `Untouched` says that every event of the trace naming `h` only reads it. */
  lemma UntouchedMeans(t: seq<Event>, h: Handle)
    ensures Untouched(t, h) <==> forall e <- t :: Touches(e, h) ==> ReadOnly(e, h)
  {
    HistoryMembers(t, h);
  }

  /** Four stretches that each replay from where the one before left off replay, run in order on top of `log`, to where the last one ends. */
  lemma ReplayOfStretches(log: seq<Event>, a: seq<Event>, b: seq<Event>, c: seq<Event>, d: seq<Event>,
                          l1: set<Handle>, l2: set<Handle>, l3: set<Handle>, l4: set<Handle>)
    requires Replay({}, log).Some?
    requires Replay(Replay({}, log).value, a) == Some(l1) && Replay(l1, b) == Some(l2)
    requires Replay(l2, c) == Some(l3) && Replay(l3, d) == Some(l4)
    ensures Replay({}, log + a + b + c + d) == Some(l4)
  {
    ReplayAppend({}, log, a);
    ReplayAppend({}, log + a, b);
    ReplayAppend({}, log + a + b, c);
    ReplayAppend({}, log + a + b + c, d);
  }

  /** Allocating `h` on top of a log that replays adds it, unless it is already live. */
  lemma NewStep(log: seq<Event>, h: Handle, kind: Kind)
    requires Replay({}, log).Some?
    ensures Replay({}, log + [New(h, kind)]) == if h in Replay({}, log).value then None else Some(Replay({}, log).value + {h})
  {
    ReplaySnoc({}, log, New(h, kind));
  }

  /** Deleting `h` on top of a log that replays removes it, and is a misuse once it is dead. */
  lemma DeleteStep(log: seq<Event>, h: Handle)
    requires Replay({}, log).Some?
    ensures Replay({}, log + [Delete(h)]) == if h in Replay({}, log).value then Some(Replay({}, log).value - {h}) else None
  {
    ReplaySnoc({}, log, Delete(h));
  }

  /** A call on top of a log that replays leaves the live set as it was, and is a misuse if it names a dead handle. */
  lemma CallStep(log: seq<Event>, op: Op, ins: seq<Handle>, outs: seq<Handle>)
    requires Replay({}, log).Some?
    ensures Replay({}, log + [Call(op, ins, outs)]) ==
      if (forall h <- ins :: h in Replay({}, log).value) && (forall h <- outs :: h in Replay({}, log).value) then Replay({}, log) else None
  {
    ReplaySnoc({}, log, Call(op, ins, outs));
  }

  /** The log replays without a misuse and every handle it leaves live lies below `base`. */
  predicate Ready(log: seq<Event>, base: Handle) {
    Replay({}, log).Some? && Below(Replay({}, log).value, base)
  }

  /** The handles live after `log`, for a log that replays. */
  function LiveAfter(log: seq<Event>): set<Handle>
    requires Replay({}, log).Some?
  {
    Replay({}, log).value
  }

  /**
   * The arena of native objects. `log` records every allocation, `.delete()` and
   * `cv.*` call in order; `next` is the next handle to hand out. The arena is valid
   * when its log replays without misusing a handle and every live handle lies below
   * `next`; the live set is then what the replay leaves.
   *
   * The three operations only record what they are asked to do. Whether a sequence
   * of them is legal (no double `.delete()`, no call on a freed Mat) is the validity
   * of the log, and every caller that starts from a valid arena proves it ends in one.
   */
  class Arena {
    ghost var log: seq<Event>
    var next: Handle

    ghost predicate Valid()
      reads this
    {
      Ready(log, next)
    }

    ghost function Live(): set<Handle>
      reads this
      requires Valid()
    {
      LiveAfter(log)
    }

    constructor ()
      ensures Valid() && Live() == {} && log == [] && next == 0
    {
      log, next := [], 0;
    }

    /** `new cv.Mat()` and the like: the next handle. */
    method Alloc(kind: Kind) returns (h: Handle)
      modifies this
      ensures h == old(next) && next == h + 1
      ensures log == old(log) + [New(h, kind)]
    {
      h := next;
      log, next := log + [New(h, kind)], next + 1;
    }

    /** `.delete()`. */
    method Delete(h: Handle)
      modifies this
      ensures next == old(next)
      ensures log == old(log) + [Event.Delete(h)]
    {
      log := log + [Event.Delete(h)];
    }

    /** An opaque `cv.*` call that reads `ins` and writes `outs`. */
    method Invoke(op: Op, ins: seq<Handle>, outs: seq<Handle>)
      modifies this
      ensures next == old(next)
      ensures log == old(log) + [Call(op, ins, outs)]
    {
      log := log + [Call(op, ins, outs)];
    }
  }
}
