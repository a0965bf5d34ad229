/**
 * The content script's sidebar: hiding it around a capture, choosing the selected capture after
 * a refresh, and the annotation modal's list of drawn shapes.
 */
module Sidebar {
  import opened Wrappers
  import opened Text
  import opened Db
  import opened AreaSelection

  // ---------------------------------------------------------------------------
  // Hiding the sidebar for a capture
  // ---------------------------------------------------------------------------

  /**
   * The flags `prepareUiForCapture` and `restoreUiAfterCapture` work on: `state.panelOpen`,
   * `uiHiddenForCapture`, `uiHiddenWasOpen`, and whether the host element is displayed.
   */
  datatype CaptureUi = CaptureUi(panelOpen: bool, hidden: bool, wasOpen: bool, hostShown: bool)

  /** While the sidebar is not hidden for a capture, the host is shown and nothing is recorded. */
  predicate AtRest(u: CaptureUi) {
    !u.hidden ==> !u.wasOpen && u.hostShown
  }

  /** `prepareUiForCapture`: without a host, or when already hidden, nothing changes. */
  function PrepareUi(u: CaptureUi, hasHost: bool): (r: CaptureUi)
    ensures !hasHost || u.hidden ==> r == u
    ensures hasHost && !u.hidden ==>
      r.hidden && !r.hostShown && r.wasOpen == u.panelOpen && r.panelOpen == u.panelOpen
  {
    if !hasHost || u.hidden then u
    else u.(wasOpen := u.panelOpen, hidden := true, hostShown := false)
  }

  /** `restoreUiAfterCapture`: without a host, or when not hidden, nothing changes. */
  function RestoreUi(u: CaptureUi, hasHost: bool): (r: CaptureUi)
    ensures !hasHost || !u.hidden ==> r == u
    ensures hasHost && u.hidden ==> r == CaptureUi(u.wasOpen, false, false, true)
  {
    if !hasHost || !u.hidden then u
    else CaptureUi(u.wasOpen, false, false, true)
  }

  /** Preparing twice records the first state only. */
  lemma PrepareIdempotent(u: CaptureUi, hasHost: bool)
    ensures PrepareUi(PrepareUi(u, hasHost), hasHost) == PrepareUi(u, hasHost)
  {
  }

  /** A restore after a prepare gives back the sidebar exactly as it was. */
  lemma RestoreUndoesPrepare(u: CaptureUi, hasHost: bool)
    requires AtRest(u) && !u.hidden
    ensures RestoreUi(PrepareUi(u, hasHost), hasHost) == u
  {
  }

  /** Both operations keep the flags consistent. */
  lemma PrepareRestoreAtRest(u: CaptureUi, hasHost: bool)
    requires AtRest(u)
    ensures AtRest(PrepareUi(u, hasHost)) && AtRest(RestoreUi(u, hasHost))
  {
  }

  // ---------------------------------------------------------------------------
  // The capture list after a refresh
  // ---------------------------------------------------------------------------

  predicate NewestFirst(s: seq<Capture>) {
    forall i, j :: 0 <= i < j < |s| ==> s[i].createdAt >= s[j].createdAt
  }

  /** Insert `x` before the first capture that is not newer than it. */
  function InsertNewest(x: Capture, s: seq<Capture>): (r: seq<Capture>)
    ensures multiset(r) == multiset(s) + multiset{x}
  {
    assert s != [] ==> s == [s[0]] + s[1..];
    if s == [] then [x]
    else if s[0].createdAt <= x.createdAt then [x] + s
    else [s[0]] + InsertNewest(x, s[1..])
  }

  lemma {:induction false} InsertNewestSorted(x: Capture, s: seq<Capture>)
    requires NewestFirst(s)
    ensures NewestFirst(InsertNewest(x, s))
  {
    if s != [] && s[0].createdAt > x.createdAt {
      var rest := InsertNewest(x, s[1..]);
      InsertNewestSorted(x, s[1..]);
      forall y | y in rest ensures s[0].createdAt >= y.createdAt {
        assert y in multiset(rest);
        if y != x {
          assert y in multiset(s[1..]);
        }
      }
    }
  }

  /** The `sort((a, b) => b.createdAt - a.createdAt)` of the fetched list. */
  function SortNewestFirst(s: seq<Capture>): (r: seq<Capture>)
    ensures multiset(r) == multiset(s)
    ensures NewestFirst(r)
  {
    if s == [] then [] else
      assert multiset(s) == multiset{s[0]} + multiset(s[1..]) by { assert s == [s[0]] + s[1..]; }
      InsertNewestSorted(s[0], SortNewestFirst(s[1..]));
      InsertNewest(s[0], SortNewestFirst(s[1..]))
  }

  function Ids(s: seq<Capture>): (r: seq<string>)
    ensures |r| == |s| && forall i :: 0 <= i < |s| ==> r[i] == s[i].id
  {
    seq(|s|, i requires 0 <= i < |s| => s[i].id)
  }

  /** A present, non-empty id (JavaScript's truthiness of a string or `null`). */
  predicate Given(id: Option<string>) {
    id.Some? && id.value != ""
  }

  /**
   * The selection after a refresh: none for an empty list; else the requested id when it is
   * listed; else the current id when it is still listed; else the newest capture.
   */
  function SelectAfterRefresh(ids: seq<string>, requested: Option<string>, current: Option<string>): (r: Option<string>)
    ensures r.None? <==> ids == []
    ensures r.Some? ==> r.value in ids
    ensures ids != [] && Given(requested) && requested.value in ids ==> r == requested
    ensures ids != [] && !(Given(requested) && requested.value in ids) && Given(current) && current.value in ids
      ==> r == current
    ensures ids != [] && !(Given(requested) && requested.value in ids) && !(Given(current) && current.value in ids)
      ==> r == Some(ids[0])
  {
    if ids == [] then None
    else if Given(requested) && requested.value in ids then requested
    else if Given(current) && current.value in ids then current
    else Some(ids[0])
  }

  /** Refreshing again without a request keeps whatever the last refresh selected. */
  lemma RefreshSelectionStable(ids: seq<string>, requested: Option<string>, current: Option<string>)
    ensures var s := SelectAfterRefresh(ids, requested, current);
      SelectAfterRefresh(ids, None, s) == s
  {
  }

  /** The sidebar's share of the content script's state. */
  class SidebarState {
    var hasHost: bool
    var ui: CaptureUi
    var captures: seq<Capture>
    var selected: Option<string>

    ghost predicate Valid()
      reads this
    {
      AtRest(ui) && (selected.Some? ==> selected.value in Ids(captures))
    }

    constructor(hasHost: bool)
      ensures Valid() && this.hasHost == hasHost
      ensures ui == CaptureUi(false, false, false, true) && captures == [] && selected == None
    {
      this.hasHost := hasHost;
      ui := CaptureUi(false, false, false, true);
      captures := [];
      selected := None;
    }

    /** `togglePanel`. */
    method TogglePanel()
      requires Valid()
      modifies this
      ensures Valid() && ui == old(ui).(panelOpen := !old(ui).panelOpen)
      ensures hasHost == old(hasHost) && captures == old(captures) && selected == old(selected)
    {
      ui := ui.(panelOpen := !ui.panelOpen);
    }

    method PrepareUiForCapture()
      requires Valid()
      modifies this
      ensures Valid() && ui == PrepareUi(old(ui), hasHost)
      ensures hasHost == old(hasHost) && captures == old(captures) && selected == old(selected)
    {
      PrepareRestoreAtRest(ui, hasHost);
      ui := PrepareUi(ui, hasHost);
    }

    method RestoreUiAfterCapture()
      requires Valid()
      modifies this
      ensures Valid() && ui == RestoreUi(old(ui), hasHost)
      ensures hasHost == old(hasHost) && captures == old(captures) && selected == old(selected)
    {
      PrepareRestoreAtRest(ui, hasHost);
      ui := RestoreUi(ui, hasHost);
    }

    /** `refreshCaptures` once the background has answered with `fetched`. */
    method RefreshCaptures(fetched: seq<Capture>, requested: Option<string>)
      requires Valid()
      modifies this
      ensures Valid()
      ensures captures == SortNewestFirst(fetched)
      ensures selected == SelectAfterRefresh(Ids(captures), requested, old(selected))
      ensures hasHost == old(hasHost) && ui == old(ui)
    {
      captures := SortNewestFirst(fetched);
      var ids := Ids(captures);
      if |ids| == 0 {
        selected := None;
      } else if Given(requested) && requested.value in ids {
        selected := requested;
      } else if Given(selected) && selected.value in ids {
      } else {
        selected := Some(ids[0]);
      }
    }
  }

  // ---------------------------------------------------------------------------
  // Annotation shapes
  // ---------------------------------------------------------------------------

  datatype Tool = PenTool | RectTool | ArrowTool | TextTool

  /** A drawn annotation, in canvas pixels; the stroke colour and width are not modelled. */
  datatype Shape =
    | Pen(points: seq<Point>)
    | Box(start: Point, end: Point)
    | Arrow(start: Point, end: Point)
    | Label(text: string, at: Point)

  /** `isMeaningfulShape`: what is worth keeping once the pointer is released. */
  predicate IsMeaningfulShape(s: Shape) {
    match s
    case Label(text, _) => Trim(text) != ""
    case Pen(points) => |points| > 1
    case Box(a, b) => Abs(b.x - a.x) >= 4.0 || Abs(b.y - a.y) >= 4.0
    case Arrow(a, b) => Abs(b.x - a.x) >= 4.0 || Abs(b.y - a.y) >= 4.0
  }

  /** A click that does not move adds nothing, whatever the drawing tool. */
  lemma ClickIsNotMeaningful(p: Point)
    ensures !IsMeaningfulShape(Pen([p])) && !IsMeaningfulShape(Box(p, p)) && !IsMeaningfulShape(Arrow(p, p))
  {
  }

  /** `distance(a, b) >= 1.2`, compared on squares so that no root is taken. */
  predicate FarEnough(a: Point, b: Point) {
    (b.x - a.x) * (b.x - a.x) + (b.y - a.y) * (b.y - a.y) >= 1.44
  }

  /** The shape a pointer move or release to `p` leaves: a pen gains a point, others move their end. */
  function Extend(s: Shape, p: Point): (r: Shape)
    ensures r.Pen? <==> s.Pen?
    ensures r.Pen? ==> r.points == s.points || r.points == s.points + [p]
    ensures s.Pen? ==> (r.points == s.points + [p] <==> s.points == [] || FarEnough(s.points[|s.points| - 1], p))
    ensures s.Box? ==> r == Box(s.start, p)
    ensures s.Arrow? ==> r == Arrow(s.start, p)
    ensures s.Label? ==> r == s
  {
    match s
    case Pen(points) => if points == [] || FarEnough(points[|points| - 1], p) then Pen(points + [p]) else s
    case Box(a, _) => Box(a, p)
    case Arrow(a, _) => Arrow(a, p)
    case Label(_, _) => s
  }

  /** Every point of a pen stroke lies at least 1.2 from the one before it. */
  ghost predicate Spaced(points: seq<Point>) {
    forall i :: 0 < i < |points| ==> FarEnough(points[i - 1], points[i])
  }

  /** A pointer move or release keeps a pen stroke's points spaced. */
  lemma ExtendKeepsSpaced(s: Shape, p: Point)
    requires s.Pen? && Spaced(s.points)
    ensures Extend(s, p).Pen? && Spaced(Extend(s, p).points)
  {
  }

  /** The shape pressing the pointer at `p` starts with `tool` (the text tool draws no stroke). */
  function StartShape(tool: Tool, p: Point): Shape
    requires tool != TextTool
  {
    match tool
    case PenTool => Pen([p])
    case RectTool => Box(p, p)
    case ArrowTool => Arrow(p, p)
  }

  predicate AllMeaningful(shapes: seq<Shape>) {
    forall i :: 0 <= i < |shapes| ==> IsMeaningfulShape(shapes[i])
  }

  /** What the text tool commits for a `window.prompt` reply: its trimmed text, when that is not empty. */
  function PromptedLabel(promptReply: Option<string>, p: Point): (r: seq<Shape>)
    ensures AllMeaningful(r)
    ensures r != [] <==> promptReply.Some? && Trim(promptReply.value) != ""
    ensures r != [] ==> r == [Label(Trim(promptReply.value), p)]
  {
    if promptReply.None? || Trim(promptReply.value) == "" then []
    else
      TrimmedLabelMeaningful(promptReply.value, p);
      [Label(Trim(promptReply.value), p)]
  }

  lemma TrimmedLabelMeaningful(s: string, p: Point)
    requires Trim(s) != ""
    ensures IsMeaningfulShape(Label(Trim(s), p))
  {
    var t := Trim(s);
    TrimOfTrimmed(t);
    assert Trim(t) == t;
  }

  /** The annotation modal: its committed shapes, the stroke in progress and its pointer. */
  class AnnotationModal {
    var isOpen: bool
    var hasImage: bool
    var busy: bool
    var tool: Tool
    var shapes: seq<Shape>
    var active: Option<Shape>
    var pointer: Option<int>

    ghost predicate Valid()
      reads this
    {
      AllMeaningful(shapes) && (active.Some? ==> pointer.Some?) && (active.Some? ==> !active.value.Label?)
    }

    constructor()
      ensures Valid() && !isOpen && !hasImage && !busy && tool == PenTool
      ensures shapes == [] && active == None && pointer == None
    {
      isOpen := false;
      hasImage := false;
      busy := false;
      tool := PenTool;
      shapes := [];
      active := None;
      pointer := None;
    }

    /**
     * `onModalPointerDown`; `promptReply` is what `window.prompt` returned for the text tool
     * (`None` when it was dismissed). A trimmed, non-empty reply is committed at once.
     */
    method PointerDown(id: int, p: Point, promptReply: Option<string>)
      requires Valid()
      modifies this
      ensures Valid()
      ensures isOpen == old(isOpen) && hasImage == old(hasImage) && busy == old(busy) && tool == old(tool)
      ensures !isOpen || !hasImage || busy ==> unchanged(this)
      ensures isOpen && hasImage && !busy && tool == TextTool ==>
        active == old(active) && pointer == old(pointer) &&
        shapes == old(shapes) + PromptedLabel(promptReply, p)
      ensures isOpen && hasImage && !busy && tool != TextTool ==>
        shapes == old(shapes) && active == Some(StartShape(tool, p)) && pointer == Some(id)
    {
      if !isOpen || !hasImage || busy {
        return;
      }
      if tool == TextTool {
        var added := PromptedLabel(promptReply, p);
        assert AllMeaningful(shapes + added) by {
          assert forall i :: |shapes| <= i < |shapes + added| ==> (shapes + added)[i] == added[i - |shapes|];
        }
        shapes := shapes + added;
        return;
      }
      pointer := Some(id);
      active := Some(StartShape(tool, p));
    }

    /** `onModalPointerMove`: only the pointer that started the stroke extends it. */
    method PointerMove(id: int, p: Point)
      requires Valid()
      modifies this
      ensures Valid()
      ensures old(active).None? || old(pointer) != Some(id) ==> unchanged(this)
      ensures old(active).Some? && old(pointer) == Some(id) ==>
        active == Some(Extend(old(active).value, p)) && shapes == old(shapes) && pointer == old(pointer)
      ensures isOpen == old(isOpen) && hasImage == old(hasImage) && busy == old(busy) && tool == old(tool)
    {
      if active.None? || pointer != Some(id) {
        return;
      }
      active := Some(Extend(active.value, p));
    }

    /** `onModalPointerUp`: the finished stroke is kept only when it is meaningful. */
    method PointerUp(id: int, p: Point)
      requires Valid()
      modifies this
      ensures Valid()
      ensures old(active).None? || old(pointer) != Some(id) ==> unchanged(this)
      ensures old(active).Some? && old(pointer) == Some(id) ==>
        var s := Extend(old(active).value, p);
        active == None && pointer == None &&
        shapes == old(shapes) + (if IsMeaningfulShape(s) then [s] else [])
      ensures isOpen == old(isOpen) && hasImage == old(hasImage) && busy == old(busy) && tool == old(tool)
    {
      if active.None? || pointer != Some(id) {
        return;
      }
      var s := Extend(active.value, p);
      if IsMeaningfulShape(s) {
        shapes := shapes + [s];
      }
      active := None;
      pointer := None;
    }

    /** `undoModalShape`: drops the last shape, unless there is none or the modal is busy. */
    method Undo()
      requires Valid()
      modifies this
      ensures Valid()
      ensures old(shapes) == [] || busy ==> unchanged(this)
      ensures old(shapes) != [] && !busy ==> old(shapes) == shapes + [old(shapes)[|old(shapes)| - 1]]
      ensures active == old(active) && pointer == old(pointer)
      ensures isOpen == old(isOpen) && hasImage == old(hasImage) && busy == old(busy) && tool == old(tool)
    {
      if |shapes| == 0 || busy {
        return;
      }
      assert shapes == shapes[..|shapes| - 1] + [shapes[|shapes| - 1]];
      shapes := shapes[..|shapes| - 1];
    }

    /**
     * `clearModalShapes`: empties the list and forgets the stroke in progress; the pointer id
     * is kept, as written.
     */
    method Clear()
      requires Valid()
      modifies this
      ensures Valid()
      ensures old(shapes) == [] || busy ==> unchanged(this)
      ensures old(shapes) != [] && !busy ==> shapes == [] && active == None && pointer == old(pointer)
      ensures isOpen == old(isOpen) && hasImage == old(hasImage) && busy == old(busy) && tool == old(tool)
    {
      if |shapes| == 0 || busy {
        return;
      }
      shapes := [];
      active := None;
    }
  }
}
