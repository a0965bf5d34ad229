/**
 * The area-selection overlay of the content script: the drag rectangle, the one-shot task that
 * resolves with the selected bounds or a cancellation, and the message handler that keeps at
 * most one selection overlay on the page.
 *
 * Pointer coordinates are CSS pixels relative to the viewport, taken as exact reals.
 */
module AreaSelection {
  import opened Wrappers
  import opened Geometry

  datatype Point = Point(x: real, y: real)

  function Abs(v: real): real { if v < 0.0 then -v else v }
  function Lesser(a: real, b: real): real { if a <= b then a else b }

  /** The smallest side, in CSS pixels, of a selection the overlay accepts. */
  const MinSelectionSide: real := 8.0

  /**
   * `normalizeRect`: the axis-aligned rectangle with `start` and `end` at opposite corners,
   * carrying `window.devicePixelRatio || 1` (`dpr` is `0.0` when the window reports none).
   */
  function NormalizeRect(start: Point, end: Point, dpr: real): (b: Bounds)
    ensures b.width >= 0.0 && b.height >= 0.0
    ensures (b.x == start.x && b.x + b.width == end.x) || (b.x == end.x && b.x + b.width == start.x)
    ensures (b.y == start.y && b.y + b.height == end.y) || (b.y == end.y && b.y + b.height == start.y)
    ensures b.dpr == RatioOrOne(dpr) && b.dpr != 0.0
  {
    Bounds(Lesser(start.x, end.x), Lesser(start.y, end.y),
           Abs(end.x - start.x), Abs(end.y - start.y), RatioOrOne(dpr))
  }

  /** Dragging from either corner selects the same rectangle. */
  lemma NormalizeRectSymmetric(a: Point, b: Point, dpr: real)
    ensures NormalizeRect(a, b, dpr) == NormalizeRect(b, a, dpr)
  {
  }

  /** Both corners of the drag lie inside the rectangle it selects. */
  lemma NormalizeRectContains(a: Point, b: Point, dpr: real)
    ensures var r := NormalizeRect(a, b, dpr);
      r.x <= a.x <= r.x + r.width && r.y <= a.y <= r.y + r.height &&
      r.x <= b.x <= r.x + r.width && r.y <= b.y <= r.y + r.height
  {
  }

  /**
   * What releasing the pointer answers: a rectangle narrower or shorter than 8 CSS pixels
   * cancels with "Selection is too small.", any other is the selected area.
   */
  function ReleaseReply(start: Point, end: Point, dpr: real): (r: SelectionReply)
    ensures r.Canceled? <==>
      (Abs(end.x - start.x) < MinSelectionSide || Abs(end.y - start.y) < MinSelectionSide)
    ensures r.Canceled? ==> r.error == "Selection is too small."
    ensures r.Selected? ==>
      r.bounds == NormalizeRect(start, end, dpr) &&
      r.bounds.width >= MinSelectionSide && r.bounds.height >= MinSelectionSide
  {
    var rect := NormalizeRect(start, end, dpr);
    if rect.width < MinSelectionSide || rect.height < MinSelectionSide then
      Canceled("Selection is too small.")
    else
      Selected(rect)
  }

  /** Every area the overlay accepts passes the background's own size check when it is cropped. */
  lemma AcceptedSelectionCrops(start: Point, end: Point, dpr: real, bw: int, bh: int)
    requires ReleaseReply(start, end, dpr).Selected?
    ensures CropRect(Some(ReleaseReply(start, end, dpr).bounds), bw, bh).Ok?
  {
  }

  /** `cancelWithMessage`: an empty message falls back to "Selection canceled.". */
  function CancelReply(message: string): (r: SelectionReply)
    ensures r.Canceled? && r.error != ""
    ensures message != "" ==> r.error == message
  {
    Canceled(if message == "" then "Selection canceled." else message)
  }

  /**
   * One run of `createAreaSelectionTask`. The overlay and its listeners stay attached until the
   * task finishes; `finish` removes them and resolves the promise with `result`, once.
   */
  class SelectionTask {
    var dragStart: Option<Point>
    var latest: Option<Point>
    var isDone: bool
    var attached: bool
    var result: Option<SelectionReply>

    ghost predicate Valid()
      reads this
    {
      (isDone <==> result.Some?) && attached == !isDone && (dragStart.Some? <==> latest.Some?)
    }

    constructor()
      ensures Valid()
      ensures dragStart.None? && !isDone && attached && result.None?
    {
      dragStart := None;
      latest := None;
      isDone := false;
      attached := true;
      result := None;
    }

    /** `finish`: the first call removes the overlay and settles the task; later calls do nothing. */
    method Finish(reply: SelectionReply)
      requires Valid()
      modifies this
      ensures Valid()
      ensures old(isDone) ==> unchanged(this)
      ensures !old(isDone) ==> isDone && !attached && result == Some(reply)
      ensures dragStart == old(dragStart) && latest == old(latest)
    {
      if isDone {
        return;
      }
      isDone := true;
      attached := false;
      result := Some(reply);
    }

    method CancelWithMessage(message: string)
      requires Valid()
      modifies this
      ensures Valid()
      ensures old(isDone) ==> unchanged(this)
      ensures !old(isDone) ==> isDone && !attached && result == Some(CancelReply(message))
      ensures dragStart == old(dragStart) && latest == old(latest)
    {
      Finish(CancelReply(message));
    }

    /** The `cancel` the handler calls when a new selection replaces this one. */
    method Cancel()
      requires Valid()
      modifies this
      ensures Valid()
      ensures old(isDone) ==> unchanged(this)
      ensures !old(isDone) ==> isDone && !attached && result == Some(Canceled("Selection restarted."))
    {
      CancelWithMessage("Selection restarted.");
    }

    /** Escape cancels; other keys are left to the page. Once finished, the listener is gone. */
    method KeyDown(key: string)
      requires Valid()
      modifies this
      ensures Valid()
      ensures old(isDone) || key != "Escape" ==> unchanged(this)
      ensures !old(isDone) && key == "Escape" ==>
        isDone && !attached && result == Some(Canceled("Selection canceled."))
    {
      if !isDone && key == "Escape" {
        CancelWithMessage("Selection canceled.");
      }
    }

    /** Pressing starts (or restarts) the drag at `p`. */
    method PointerDown(p: Point)
      requires Valid()
      modifies this
      ensures Valid()
      ensures old(isDone) ==> unchanged(this)
      ensures !old(isDone) ==> dragStart == Some(p) && latest == Some(p) && !isDone && attached
    {
      if isDone {
        return;
      }
      dragStart := Some(p);
      latest := Some(p);
    }

    /** Moving extends the drag; before any press it is ignored. */
    method PointerMove(p: Point)
      requires Valid()
      modifies this
      ensures Valid()
      ensures old(isDone) || old(dragStart).None? ==> unchanged(this)
      ensures !old(isDone) && old(dragStart).Some? ==>
        latest == Some(p) && dragStart == old(dragStart) && !isDone && attached
    {
      if isDone || dragStart.None? {
        return;
      }
      latest := Some(p);
    }

    /**
     * Releasing ends the task with `ReleaseReply`, at the ratio `dpr` the window reports at
     * release; before any press it is ignored.
     */
    method PointerUp(p: Point, dpr: real)
      requires Valid()
      modifies this
      ensures Valid()
      ensures old(isDone) || old(dragStart).None? ==> unchanged(this)
      ensures !old(isDone) && old(dragStart).Some? ==>
        latest == Some(p) && dragStart == old(dragStart) && isDone && !attached &&
        result == Some(ReleaseReply(old(dragStart).value, p, dpr))
    {
      if isDone || dragStart.None? {
        return;
      }
      latest := Some(p);
      var reply := ReleaseReply(dragStart.value, p, dpr);
      if reply.Canceled? {
        CancelWithMessage("Selection is too small.");
      } else {
        Finish(reply);
      }
    }

    /** A cancelled pointer stream cancels the selection. */
    method PointerCancel()
      requires Valid()
      modifies this
      ensures Valid()
      ensures old(isDone) ==> unchanged(this)
      ensures !old(isDone) ==> isDone && !attached && result == Some(Canceled("Selection canceled."))
    {
      if !isDone {
        CancelWithMessage("Selection canceled.");
      }
    }
  }

  // ---------------------------------------------------------------------------
  // The "start-area-selection" handler
  // ---------------------------------------------------------------------------

  /**
   * The handler's view of the tasks it created, numbered in creation order: `active` is the
   * value of `activeSelectionTask`, `open[i]` says whether task `i` still has its overlay on the
   * page, and `settled` queues, in order, the tasks whose promise has resolved and whose
   * `.finally` callback has not yet run.
   */
  datatype Handler = Handler(active: Option<nat>, open: seq<bool>, settled: seq<nat>)

  const NoSelection := Handler(None, [], [])

  ghost predicate WellFormed(h: Handler) {
    (h.active.Some? ==> h.active.value < |h.open|) &&
    forall k :: 0 <= k < |h.settled| ==> h.settled[k] < |h.open| && !h.open[h.settled[k]]
  }

  /** Task `i` finishes (by the user or by `cancel`): its overlay goes and its `.finally` is queued. */
  function Settle(h: Handler, i: nat): (r: Handler)
    requires WellFormed(h) && i < |h.open|
    ensures WellFormed(r) && |r.open| == |h.open| && r.active == h.active && !r.open[i]
    ensures forall j :: 0 <= j < |h.open| && j != i ==> r.open[j] == h.open[j]
  {
    if h.open[i] then h.(open := h.open[i := false], settled := h.settled + [i]) else h
  }

  /** The synchronous part of the handler: cancel the active task, then create and store a new one. */
  function Start(h: Handler): (r: Handler)
    requires WellFormed(h)
    ensures WellFormed(r) && |r.open| == |h.open| + 1 && r.active == Some(|h.open|) && r.open[|h.open|]
    ensures h.active.Some? ==> !r.open[h.active.value]
    ensures forall j :: 0 <= j < |h.open| && Some(j) != h.active ==> r.open[j] == h.open[j]
  {
    var cleared := if h.active.Some? then Settle(h, h.active.value).(active := None) else h;
    cleared.(active := Some(|cleared.open|), open := cleared.open + [true])
  }

  /** The first queued `.finally` as written: it clears `activeSelectionTask` whatever it holds. */
  function RunFinallyAsWritten(h: Handler): (r: Handler)
    requires WellFormed(h)
    ensures WellFormed(r) && r.open == h.open
  {
    if h.settled == [] then h else h.(active := None, settled := h.settled[1..])
  }

  /** The first queued `.finally`, clearing `activeSelectionTask` only while it still holds that task. */
  function RunFinally(h: Handler): (r: Handler)
    requires WellFormed(h)
    ensures WellFormed(r) && r.open == h.open
    ensures h.settled != [] && h.active != Some(h.settled[0]) ==> r.active == h.active
  {
    if h.settled == [] then h
    else h.(active := if h.active == Some(h.settled[0]) then None else h.active, settled := h.settled[1..])
  }

  /** What can happen on the page: a new request, task `i` finishing by itself, a microtask turn. */
  datatype Happening = Request | Finished(task: nat) | Microtask

  function StepAsWritten(h: Handler, e: Happening): (r: Handler)
    requires WellFormed(h)
    ensures WellFormed(r)
  {
    match e
    case Request => Start(h)
    case Finished(i) => if i < |h.open| then Settle(h, i) else h
    case Microtask => RunFinallyAsWritten(h)
  }

  function Step(h: Handler, e: Happening): (r: Handler)
    requires WellFormed(h)
    ensures WellFormed(r)
  {
    match e
    case Request => Start(h)
    case Finished(i) => if i < |h.open| then Settle(h, i) else h
    case Microtask => RunFinally(h)
  }

  function RunAsWritten(h: Handler, es: seq<Happening>): (r: Handler)
    requires WellFormed(h)
    ensures WellFormed(r)
    decreases |es|
  {
    if es == [] then h else RunAsWritten(StepAsWritten(h, es[0]), es[1..])
  }

  function Run(h: Handler, es: seq<Happening>): (r: Handler)
    requires WellFormed(h)
    ensures WellFormed(r)
    decreases |es|
  {
    if es == [] then h else Run(Step(h, es[0]), es[1..])
  }

  /** The property the handler is written for: only the active task can still have an overlay. */
  ghost predicate SingleOverlay(h: Handler) {
    forall i :: 0 <= i < |h.open| && h.open[i] ==> h.active == Some(i)
  }

  /** Two requests with the first one's `.finally` in between leave two overlays on the page. */
  lemma AsWrittenLeavesTwoOverlays()
    ensures var h := RunAsWritten(NoSelection, [Request, Request, Microtask, Request]);
      |h.open| == 3 && h.open[1] && h.open[2] && !SingleOverlay(h)
  {
    var h1 := Start(NoSelection);
    var h2 := Start(h1);
    assert h2 == Handler(Some(1), [false, true], [0]);
    var h3 := RunFinallyAsWritten(h2);
    assert h3 == Handler(None, [false, true], []);
    var h4 := Start(h3);
    assert h4 == Handler(Some(2), [false, true, true], []);
    assert [Request, Request, Microtask, Request][1..] == [Request, Microtask, Request];
    assert [Request, Microtask, Request][1..] == [Microtask, Request];
    assert [Microtask, Request][1..] == [Request];
  }

  /** After a request, every task created before it has lost its overlay. */
  lemma StartClosesEarlier(h: Handler)
    requires WellFormed(h) && SingleOverlay(h)
    ensures forall j :: 0 <= j < |h.open| ==> !Start(h).open[j]
  {
    forall j | 0 <= j < |h.open|
      ensures !Start(h).open[j]
    {
      if Some(j) != h.active {
        assert h.open[j] ==> h.active == Some(j);
      }
    }
  }

  lemma StepKeepsSingleOverlay(h: Handler, e: Happening)
    requires WellFormed(h) && SingleOverlay(h)
    ensures SingleOverlay(Step(h, e))
  {
    match e
    case Request => StartClosesEarlier(h);
    case Finished(i) =>
    case Microtask =>
  }

  /** With the guarded `.finally`, no sequence of happenings ever leaves two overlays. */
  lemma {:induction false} RunKeepsSingleOverlay(h: Handler, es: seq<Happening>)
    requires WellFormed(h) && SingleOverlay(h)
    ensures SingleOverlay(Run(h, es))
    decreases |es|
  {
    if es != [] {
      StepKeepsSingleOverlay(h, es[0]);
      RunKeepsSingleOverlay(Step(h, es[0]), es[1..]);
    }
  }

  /**
   * The content script's `activeSelectionTask` together with the tasks it has started, with the
   * guarded `.finally` callback.
   */
  class SelectionHandler {
    var active: Option<nat>
    var open: seq<bool>
    var settled: seq<nat>

    function State(): Handler
      reads this
    {
      Handler(active, open, settled)
    }

    ghost predicate Valid()
      reads this
    {
      WellFormed(State()) && SingleOverlay(State())
    }

    constructor()
      ensures Valid() && State() == NoSelection
    {
      active := None;
      open := [];
      settled := [];
    }

    /** A "start-area-selection" message: the previous overlay goes, a new one becomes active. */
    method StartAreaSelection() returns (task: nat)
      requires Valid()
      modifies this
      ensures Valid() && State() == Step(old(State()), Request)
      ensures task == |old(open)| && active == Some(task)
      ensures forall i :: 0 <= i < |open| && open[i] ==> i == task
    {
      var h := Step(State(), Request);
      StepKeepsSingleOverlay(State(), Request);
      task := |open|;
      active, open, settled := h.active, h.open, h.settled;
    }

    /** Task `i` resolved from its own overlay (a drag, Escape, a cancelled pointer). */
    method TaskFinished(i: nat)
      requires Valid()
      modifies this
      ensures Valid() && State() == Step(old(State()), Finished(i))
    {
      var h := Step(State(), Finished(i));
      StepKeepsSingleOverlay(State(), Finished(i));
      active, open, settled := h.active, h.open, h.settled;
    }

    /** The oldest pending `.finally` callback runs. */
    method RunPendingFinally()
      requires Valid()
      modifies this
      ensures Valid() && State() == Step(old(State()), Microtask)
    {
      var h := Step(State(), Microtask);
      StepKeepsSingleOverlay(State(), Microtask);
      active, open, settled := h.active, h.open, h.settled;
    }
  }
}
