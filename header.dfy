/** The fixed page header whose visibility reacts to scrolling.

    A scroll event asks the browser for one animation frame unless one is
    already pending; the frame reads the scroll position and puts the header
    into one of three regimes: at the top (shown, opaque), scrolled down by
    more than the threshold (hidden, opaque), scrolled up by more than the
    threshold (shown, see-through). Smaller movements leave it as it is.
 */
module Header {

  /** Movement, in pixels between two frames, that must be exceeded to count as a scroll. */
  const Threshold: int := 15

  /** What the header shows: whether it is on screen, and whether its background is see-through. */
  datatype View = View(visible: bool, transparent: bool)

  /** The view on first render: on screen, opaque. */
  const InitialView: View := View(true, false)

  /** A hidden header is never see-through. */
  predicate Coherent(v: View) {
    v.visible || !v.transparent
  }

  /** The view a frame leaves behind, given the view before it, the position
      read by the previous frame and the position read now. */
  function NextView(v: View, last: int, y: int): (r: View)
    ensures y == 0 ==> r == View(true, false)
    ensures y != 0 && y > last + Threshold ==> r == View(false, false)
    ensures y != 0 && y < last - Threshold ==> r == View(true, true)
    ensures y != 0 && last - Threshold <= y <= last + Threshold ==> r == v
    ensures Coherent(v) ==> Coherent(r)
    ensures r != v ==> Coherent(r)
  {
    if y == 0 then View(true, false)
    else if y > last + Threshold then View(false, false)
    else if y < last - Threshold then View(true, true)
    else v
  }

  /** Everything the component keeps between events: the view, the position
      the last frame read, and whether a frame is pending. */
  datatype Snapshot = Snapshot(view: View, lastScrollY: int, ticking: bool)

  /** The state on mount. */
  const Initial: Snapshot := Snapshot(InitialView, 0, false)

  /** What the browser delivers: a scroll event, or the animation frame
      callback together with the scroll position it reads. */
  datatype Event = Scroll | Frame(scrollY: int)

  /** The effect of one event. A scroll only raises the pending flag, so a
      scroll while a frame is pending changes nothing; a frame runs the
      transition, records the position it read and clears the flag. */
  function Step(s: Snapshot, e: Event): (r: Snapshot)
    ensures r.ticking <==> e.Scroll?
    ensures e.Scroll? ==> r.view == s.view && r.lastScrollY == s.lastScrollY
    ensures e.Scroll? && s.ticking ==> r == s
    ensures e.Frame? ==> r.view == NextView(s.view, s.lastScrollY, e.scrollY) && r.lastScrollY == e.scrollY
  {
    match e
    case Scroll => s.(ticking := true)
    case Frame(y) => Snapshot(NextView(s.view, s.lastScrollY, y), y, false)
  }

  /** The state after a whole sequence of events. */
  function Run(s: Snapshot, trace: seq<Event>): Snapshot
    decreases |trace|
  {
    if trace == [] then s else Run(Step(s, trace[0]), trace[1..])
  }

  /** The browser only runs a frame callback that was requested: every frame
      in the trace finds the pending flag raised. */
  predicate Feasible(ticking: bool, trace: seq<Event>)
    decreases |trace|
  {
    if trace == [] then true
    else match trace[0]
      case Scroll => Feasible(true, trace[1..])
      case Frame(_) => ticking && Feasible(false, trace[1..])
  }

  /** How many scroll events in the trace actually request a frame. */
  function Requests(ticking: bool, trace: seq<Event>): nat
    decreases |trace|
  {
    if trace == [] then 0
    else match trace[0]
      case Scroll => (if ticking then 0 else 1) + Requests(true, trace[1..])
      case Frame(_) => Requests(false, trace[1..])
  }

  /** How many frame callbacks run in the trace. */
  function Frames(trace: seq<Event>): nat
    decreases |trace|
  {
    if trace == [] then 0
    else (if trace[0].Frame? then 1 else 0) + Frames(trace[1..])
  }

  /** Every frame in the trace reads a non-zero position within the threshold
      of the position the frame before it read (the first one: of `last`). */
  predicate SmallMoves(last: int, trace: seq<Event>)
    decreases |trace|
  {
    if trace == [] then true
    else match trace[0]
      case Scroll => SmallMoves(last, trace[1..])
      case Frame(y) => y != 0 && last - Threshold <= y <= last + Threshold && SmallMoves(y, trace[1..])
  }

  /** The position read by the last frame of the trace; `last` when the trace has no frame. */
  function LastRead(last: int, trace: seq<Event>): int
    decreases |trace|
  {
    if trace == [] then last
    else match trace[0]
      case Scroll => LastRead(last, trace[1..])
      case Frame(y) => LastRead(y, trace[1..])
  }

  /** Whichever branch each frame took, the recorded position is the one the
      latest frame read. */
  lemma {:induction false} RunRecordsLastRead(s: Snapshot, trace: seq<Event>)
    ensures Run(s, trace).lastScrollY == LastRead(s.lastScrollY, trace)
    decreases |trace|
  {
    if trace != [] {
      RunRecordsLastRead(Step(s, trace[0]), trace[1..]);
    }
  }

  /** Reachable-state invariant: from a coherent state, no sequence of events
      produces a hidden see-through header. */
  lemma {:induction false} RunKeepsCoherent(s: Snapshot, trace: seq<Event>)
    requires Coherent(s.view)
    ensures Coherent(Run(s, trace).view)
    decreases |trace|
  {
    if trace != [] {
      RunKeepsCoherent(Step(s, trace[0]), trace[1..]);
    }
  }

  /** Every state reachable from the initial one is coherent. */
  lemma ReachableCoherent(trace: seq<Event>)
    ensures Coherent(Run(Initial, trace).view)
  {
    RunKeepsCoherent(Initial, trace);
  }

  /** The threshold is measured from the previous frame, not from the last
      change of regime: frames that each move by at most the threshold never
      change the view, however far they move in total. */
  lemma {:induction false} SmallMovesKeepView(s: Snapshot, trace: seq<Event>)
    requires SmallMoves(s.lastScrollY, trace)
    ensures Run(s, trace).view == s.view
    decreases |trace|
  {
    if trace != [] {
      SmallMovesKeepView(Step(s, trace[0]), trace[1..]);
    }
  }

  /** Scrolling down 60 pixels in four frames of 15 keeps the header shown,
      while the same 60 pixels in one frame hide it. */
  lemma ThresholdIsPerFrame()
    ensures Run(Initial, [Scroll, Frame(15), Scroll, Frame(30), Scroll, Frame(45), Scroll, Frame(60)]).view == InitialView
    ensures Run(Initial, [Scroll, Frame(60)]).view == View(false, false)
  {
  }

  /** At most one frame is ever pending: in a feasible trace the frames
      requested equal the frames run, plus one if a frame is still pending at
      the end, minus one if a frame was already pending at the start. */
  lemma {:induction false} AtMostOnePending(s: Snapshot, trace: seq<Event>)
    requires Feasible(s.ticking, trace)
    ensures Requests(s.ticking, trace) + (if s.ticking then 1 else 0) == Frames(trace) + (if Run(s, trace).ticking then 1 else 0)
    decreases |trace|
  {
    if trace != [] {
      AtMostOnePending(Step(s, trace[0]), trace[1..]);
    }
  }

  /** The header component's state as its hooks hold it. */
  class HeaderState {
    var isHeaderVisible: bool
    var isHeaderTransparent: bool
    var lastScrollY: int
    var ticking: bool
    /** Frame callbacks requested from the browser and not yet run. */
    ghost var pendingFrames: nat

    ghost predicate Valid()
      reads this
    {
      pendingFrames == (if ticking then 1 else 0) &&
      Coherent(View(isHeaderVisible, isHeaderTransparent))
    }

    /** The abstract state the fields stand for. */
    function Current(): Snapshot
      reads this
    {
      Snapshot(View(isHeaderVisible, isHeaderTransparent), lastScrollY, ticking)
    }

    /** Mounting: shown, opaque, last position 0, no frame pending. */
    constructor ()
      ensures Valid()
      ensures isHeaderVisible && !isHeaderTransparent && lastScrollY == 0 && !ticking
      ensures Current() == Initial && pendingFrames == 0
    {
      isHeaderVisible := true;
      isHeaderTransparent := false;
      lastScrollY := 0;
      ticking := false;
      pendingFrames := 0;
    }

    /** The scroll listener: requests a frame only when none is pending. */
    method OnScroll() returns (scheduled: bool)
      requires Valid()
      modifies this
      ensures Valid()
      ensures scheduled == !old(ticking)
      ensures ticking && pendingFrames == 1
      ensures old(ticking) ==> pendingFrames == old(pendingFrames)
      ensures isHeaderVisible == old(isHeaderVisible) && isHeaderTransparent == old(isHeaderTransparent)
      ensures lastScrollY == old(lastScrollY)
      ensures Current() == Step(old(Current()), Scroll)
    {
      scheduled := !ticking;
      if scheduled {
        pendingFrames := pendingFrames + 1;
        ticking := true;
      }
    }

    /** The frame callback, given the scroll position it reads. */
    method OnFrame(scrollY: int)
      requires Valid() && ticking
      modifies this
      ensures Valid()
      ensures View(isHeaderVisible, isHeaderTransparent) == NextView(View(old(isHeaderVisible), old(isHeaderTransparent)), old(lastScrollY), scrollY)
      ensures lastScrollY == scrollY
      ensures !ticking && pendingFrames == old(pendingFrames) - 1
      ensures Current() == Step(old(Current()), Frame(scrollY))
    {
      if scrollY == 0 {
        isHeaderVisible := true;
        isHeaderTransparent := false;
      } else if scrollY > lastScrollY + Threshold {
        isHeaderVisible := false;
        isHeaderTransparent := false;
      } else if scrollY < lastScrollY - Threshold {
        isHeaderVisible := true;
        isHeaderTransparent := true;
      }
      lastScrollY := scrollY;
      ticking := false;
      pendingFrames := pendingFrames - 1;
    }
  }
}
