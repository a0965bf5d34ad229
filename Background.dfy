/**
 * The capture pipeline of the background service worker: tab validation, the three
 * capture kinds, hiding the extension's own UI around a capture, and the full-page
 * stitch with its scroll restore.
 *
 * The browser is a scripted `Host`: every call it serves is appended to `log`, and the call
 * with index `i` (its position in `log`) throws `failing[i]` when `i` is a key of `failing`.
 * The page is fixed for the run: `page` gives its measurements and `render(r, c)` its pixel at
 * device position (r, c); a captured frame shows the viewport at the current scroll offset.
 * Data URLs are `encode(grid)` for a host-chosen `encode`; decoding is its inverse and is
 * not modelled separately.
 */
module Background {
  import opened Wrappers
  import opened Json
  import opened Text
  import opened Geometry
  import opened Raster
  import opened Db

  /** What `chrome.tabs.get` reports about a tab; a missing url or title is `""`. */
  datatype Tab = Tab(url: string, title: string)

  /** The messages the background sends to the content script of a tab. */
  datatype UiMessage = PrepareCaptureUi | RestoreCaptureUi | StartAreaSelection

  /** The scripts `chrome.scripting.executeScript` runs in the page. */
  datatype Script = ReadMetrics | ScrollTo(x: int, y: int) | InjectContentScript

  /** One call into the browser. */
  datatype Event =
    | Message(tabId: Value, kind: UiMessage)
    | LookupTab(id: int)
    | RunScript(tab: int, script: Script)
    | CaptureTab(windowId: Value)

  /** The answer to a capture request: the new capture, a cancelled selection, or a thrown error. */
  datatype Outcome = Done(capture: Capture) | SelectionCanceled(reason: string) | Failed(error: string)

  const CaptureFailedMessage := "Failed to capture screenshot. Make sure this tab is a standard webpage."

  predicate IsUiToggle(e: Event) {
    e.Message? && e.kind != StartAreaSelection
  }

  /** A call that scrolls the page or captures it. */
  predicate IsPageStep(e: Event) {
    e.CaptureTab? || (e.RunScript? && e.script.ScrollTo?)
  }

  ghost predicate IsPrefix<T>(a: seq<T>, b: seq<T>) {
    |a| <= |b| && b[..|a|] == a
  }

  /** `after` is `before` followed by more calls. */
  ghost predicate Extends<T>(before: seq<T>, after: seq<T>) {
    |before| <= |after| && after[..|before|] == before
  }

  /** `after` is `before` followed by a prefix of `allowed`. */
  ghost predicate Appended<T>(before: seq<T>, after: seq<T>, allowed: seq<T>) {
    |before| <= |after| && after[..|before|] == before && IsPrefix(after[|before|..], allowed)
  }

  /** The page's measurements as `getPageMetrics` reports them with the page scrolled to (x, y). */
  function Viewed(page: Metrics, x: int, y: int): Metrics {
    page.(originalX := x, originalY := y)
  }

  class Host {
    const failing: map<nat, string>
    const tabs: map<int, Tab>
    const page: Metrics
    const render: (int, int) -> Pixel
    const encode: Grid -> string
    const selection: Option<SelectionReply>
    var scrollX: int
    var scrollY: int
    var log: seq<Event>

    constructor (failing: map<nat, string>, tabs: map<int, Tab>, page: Metrics, render: (int, int) -> Pixel,
                 encode: Grid -> string, selection: Option<SelectionReply>, scrollX: int, scrollY: int)
      requires Measured(page)
      ensures this.failing == failing && this.tabs == tabs && this.page == page && this.render == render
      ensures this.encode == encode && this.selection == selection
      ensures this.scrollX == scrollX && this.scrollY == scrollY && log == []
    {
      this.failing := failing;
      this.tabs := tabs;
      this.page := page;
      this.render := render;
      this.encode := encode;
      this.selection := selection;
      this.scrollX := scrollX;
      this.scrollY := scrollY;
      log := [];
    }

    /** The scripted failure of the call with index `i`, if any. */
    function FailureAt(i: nat): Option<string> {
      if i in failing then Some(failing[i]) else None
    }

    function Lookup(tabId: int): Option<Tab> {
      if tabId in tabs then Some(tabs[tabId]) else None
    }

    /** The frame `captureVisibleTab` returns with the page scrolled to (x, y). */
    function FrameAt(x: int, y: int): Grid {
      Frame(render, page.viewportWidth, page.viewportHeight, page.dpr, x, y)
    }

    /** `chrome.tabs.sendMessage`: only "start-area-selection" has an answer the caller reads. */
    method SendMessage(tabId: Value, kind: UiMessage) returns (r: Result<Option<SelectionReply>, string>)
      modifies this
      ensures log == old(log) + [Message(tabId, kind)]
      ensures scrollX == old(scrollX) && scrollY == old(scrollY)
      ensures r == match FailureAt(|old(log)|)
                   case Some(e) => Err(e)
                   case None => Ok(if kind == StartAreaSelection then selection else None)
    {
      var f := FailureAt(|log|);
      log := log + [Message(tabId, kind)];
      if f.Some? {
        return Err(f.value);
      }
      r := Ok(if kind == StartAreaSelection then selection else None);
    }

    /** `chrome.tabs.get`: an unknown tab reads as no tab. */
    method GetTab(tabId: int) returns (r: Result<Option<Tab>, string>)
      modifies this
      ensures log == old(log) + [LookupTab(tabId)]
      ensures scrollX == old(scrollX) && scrollY == old(scrollY)
      ensures r == match FailureAt(|old(log)|)
                   case Some(e) => Err(e)
                   case None => Ok(Lookup(tabId))
    {
      var f := FailureAt(|log|);
      log := log + [LookupTab(tabId)];
      if f.Some? {
        return Err(f.value);
      }
      r := Ok(Lookup(tabId));
    }

    /**
     * `executeInTab`: runs `script` and answers with the page's measurements at the current
     * scroll offset (only `ReadMetrics` has its answer read). A successful `ScrollTo` moves
     * the page; a failure, including an empty result list, throws.
     */
    method ExecuteScript(tab: int, script: Script) returns (r: Result<Metrics, string>)
      modifies this
      ensures log == old(log) + [RunScript(tab, script)]
      ensures r == match FailureAt(|old(log)|)
                   case Some(e) => Err(e)
                   case None => Ok(Viewed(page, old(scrollX), old(scrollY)))
      ensures if r.Ok? && script.ScrollTo? then scrollX == script.x && scrollY == script.y
              else scrollX == old(scrollX) && scrollY == old(scrollY)
    {
      var f := FailureAt(|log|);
      log := log + [RunScript(tab, script)];
      if f.Some? {
        return Err(f.value);
      }
      r := Ok(Viewed(page, scrollX, scrollY));
      if script.ScrollTo? {
        scrollX, scrollY := script.x, script.y;
      }
    }

    /** `chrome.tabs.captureVisibleTab`: the viewport at the current scroll offset. */
    method CaptureVisibleTab(windowId: Value) returns (r: Result<Grid, string>)
      modifies this
      ensures log == old(log) + [CaptureTab(windowId)]
      ensures scrollX == old(scrollX) && scrollY == old(scrollY)
      ensures r == match FailureAt(|old(log)|)
                   case Some(e) => Err(e)
                   case None => Ok(FrameAt(scrollX, scrollY))
    {
      var f := FailureAt(|log|);
      log := log + [CaptureTab(windowId)];
      if f.Some? {
        return Err(f.value);
      }
      r := Ok(FrameAt(scrollX, scrollY));
    }
  }

  // ---------------------------------------------------------------------------
  // Tab validation
  // ---------------------------------------------------------------------------

  /** `chrome://`, `edge://` and `about:` pages cannot be captured. */
  predicate RestrictedUrl(url: string) {
    StartsWith(url, "chrome://") || StartsWith(url, "edge://") || StartsWith(url, "about:")
  }

  /** The first check of `getValidTab`: the tab id must be a non-zero number. */
  function CheckTabId(tabId: Value): (r: Result<int, string>)
    ensures r.Ok? <==> tabId.Num? && tabId.n != 0
    ensures r.Ok? ==> r.value == tabId.n
    ensures r.Err? ==> r.error == "No active tab detected."
  {
    if !Truthy(tabId) || !tabId.Num? then Err("No active tab detected.") else Ok(tabId.n)
  }

  /** The checks of `getValidTab` on the tab `chrome.tabs.get` found. */
  function CheckTab(found: Option<Tab>): (r: Result<Tab, string>)
    ensures r.Ok? <==> found.Some? && found.value.url != "" && !RestrictedUrl(found.value.url)
    ensures r.Ok? ==> r.value == found.value
    ensures (found.None? || found.value.url == "") ==> r == Err("Unable to access current tab.")
    ensures found.Some? && found.value.url != "" && RestrictedUrl(found.value.url) ==>
      r == Err("Chrome internal pages cannot be captured.")
  {
    if found.None? || found.value.url == "" then Err("Unable to access current tab.")
    else if RestrictedUrl(found.value.url) then Err("Chrome internal pages cannot be captured.")
    else Ok(found.value)
  }

  /** A browser page is never captured, whatever follows the scheme. */
  lemma RestrictedPagesRejected(rest: string, title: string)
    ensures CheckTab(Some(Tab("chrome://" + rest, title))) == Err("Chrome internal pages cannot be captured.")
    ensures CheckTab(Some(Tab("edge://" + rest, title))) == Err("Chrome internal pages cannot be captured.")
    ensures CheckTab(Some(Tab("about:" + rest, title))) == Err("Chrome internal pages cannot be captured.")
  {
    assert ("chrome://" + rest)[..9] == "chrome://";
    assert ("edge://" + rest)[..7] == "edge://";
    assert ("about:" + rest)[..6] == "about:";
  }

  /** What `getValidTab` settles to, given the failure of the lookup call (if any) and the browser's tabs. */
  function ValidTab(tabId: Value, failure: Option<string>, tabs: map<int, Tab>): Result<Tab, string> {
    match CheckTabId(tabId)
    case Err(e) => Err(e)
    case Ok(n) => if failure.Some? then Err(failure.value) else CheckTab(if n in tabs then Some(tabs[n]) else None)
  }

  /** `getValidTab`: the lookup is made only for a usable tab id. */
  method GetValidTab(host: Host, tabId: Value) returns (r: Result<Tab, string>)
    modifies host
    ensures host.scrollX == old(host.scrollX) && host.scrollY == old(host.scrollY)
    ensures CheckTabId(tabId).Err? ==> host.log == old(host.log)
    ensures CheckTabId(tabId).Ok? ==> host.log == old(host.log) + [LookupTab(tabId.n)]
    ensures r == ValidTab(tabId, host.FailureAt(|old(host.log)|), host.tabs)
  {
    var n := CheckTabId(tabId);
    if n.Err? {
      return Err(n.error);
    }
    var found := host.GetTab(n.value);
    if found.Err? {
      return Err(found.error);
    }
    r := CheckTab(found.value);
  }

  /** `tab.title || "Untitled Page"`. */
  function TitleOr(title: string): string {
    if title == "" then "Untitled Page" else title
  }

  /** The record `createCapture` stores for a capture of `tab`. */
  function NewRecord(id: string, tab: Tab, imageData: string, captureType: string, now: int): Stored {
    Stored(id, tab.url, TitleOr(tab.title), imageData, Some(""), Null, captureType, now, now, now)
  }

  /**
   * What saving a capture of `tab` does to the records: a taken id fails with the store's
   * constraint error and changes nothing; a fresh id stores the new record and answers with it.
   */
  ghost predicate Saved(before: map<string, Stored>, id: string, tab: Tab, imageData: string, captureType: string,
                        now: int, r: Outcome, after: map<string, Stored>) {
    if id in before then r == Failed(ErrorMessage(ConstraintError)) && after == before
    else
      var s := NewRecord(id, tab, imageData, captureType, now);
      after == before[id := s] && r == Done(Normalize(s))
  }

  /** `createCapture` from the background: a store error becomes the thrown error. */
  method Save(store: CaptureStore, id: string, tab: Tab, imageData: string, captureType: string, now: int)
    returns (r: Outcome)
    requires store.Valid()
    modifies store
    ensures store.Valid()
    ensures id in old(store.records) ==> r == Failed(ErrorMessage(ConstraintError)) && store.records == old(store.records)
    ensures id !in old(store.records) ==>
      var s := NewRecord(id, tab, imageData, captureType, now);
      store.records == old(store.records)[id := s] && r == Done(Normalize(s))
    ensures Saved(old(store.records), id, tab, imageData, captureType, now, r, store.records)
  {
    var c := store.Create(id, tab.url, TitleOr(tab.title), imageData, captureType, "", now);
    if c.Err? {
      return Failed(ErrorMessage(c.error));
    }
    r := Done(c.value);
  }

  // ---------------------------------------------------------------------------
  // Capture kinds
  // ---------------------------------------------------------------------------

  /** The calls of a capture never include a UI hide or restore message. */
  ghost predicate NoUiToggle(log: seq<Event>, from: nat) {
    forall i :: from <= i < |log| ==> !IsUiToggle(log[i])
  }

  /** `captureVisibleData`: any failure is reported with one fixed message. */
  method CaptureVisibleData(host: Host, windowId: Value) returns (r: Result<Grid, string>)
    modifies host
    ensures host.log == old(host.log) + [CaptureTab(windowId)]
    ensures host.scrollX == old(host.scrollX) && host.scrollY == old(host.scrollY)
    ensures r == if |old(host.log)| in host.failing then Err(CaptureFailedMessage)
                 else Ok(host.FrameAt(host.scrollX, host.scrollY))
  {
    r := host.CaptureVisibleTab(windowId);
    if r.Err? {
      r := Err(CaptureFailedMessage);
    }
  }

  /**
   * The outcome of `captureVisible` whose first call has index `i0`, with the page scrolled to
   * (sx, sy): the tab check's error, the capture's fixed message, or the saved viewport.
   */
  ghost predicate VisibleCaptured(host: Host, tabId: Value, id: string, now: int, i0: nat, sx: int, sy: int,
                                  before: map<string, Stored>, r: Outcome, after: map<string, Stored>) {
    match ValidTab(tabId, host.FailureAt(i0), host.tabs)
    case Err(e) => r == Failed(e) && after == before
    case Ok(tab) =>
      if i0 + 1 in host.failing then r == Failed(CaptureFailedMessage) && after == before
      else Saved(before, id, tab, host.encode(host.FrameAt(sx, sy)), "visible", now, r, after)
  }

  /** `captureVisible`: the visible viewport, stored only when the tab is valid and the capture succeeds. */
  method CaptureVisible(host: Host, store: CaptureStore, tabId: Value, windowId: Value, id: string, now: int)
    returns (r: Outcome)
    requires store.Valid()
    modifies host, store
    ensures store.Valid() && NoUiToggle(host.log, |old(host.log)|) && Extends(old(host.log), host.log)
    ensures host.scrollX == old(host.scrollX) && host.scrollY == old(host.scrollY)
    ensures !r.Done? ==> store.records == old(store.records)
    ensures r.Done? ==>
      && ValidTab(tabId, host.FailureAt(|old(host.log)|), host.tabs).Ok?
      && var s := NewRecord(id, host.tabs[tabId.n], host.encode(host.FrameAt(host.scrollX, host.scrollY)), "visible", now);
         store.records == old(store.records)[id := s] && r == Done(Normalize(s))
    ensures VisibleCaptured(host, tabId, id, now, |old(host.log)|, old(host.scrollX), old(host.scrollY),
                            old(store.records), r, store.records)
  {
    var tab := GetValidTab(host, tabId);
    if tab.Err? {
      return Failed(tab.error);
    }
    var image := CaptureVisibleData(host, windowId);
    if image.Err? {
      return Failed(image.error);
    }
    r := Save(store, id, tab.value, host.encode(image.value), "visible", now);
  }

  /** The answer of `requestAreaSelection` whose first call has index `i`. */
  function AreaReply(host: Host, i: nat): Result<Option<SelectionReply>, string> {
    match host.FailureAt(i)
    case None => Ok(host.selection)
    case Some(e) =>
      if !Contains(e, "Receiving end does not exist") then Err("Unable to start area selection on this page.")
      else if i + 1 in host.failing then Err(host.failing[i + 1])
      else if i + 2 in host.failing then Err(host.failing[i + 2])
      else Ok(host.selection)
  }

  /** The calls `requestAreaSelection` makes when its first call has index `i`. */
  function AreaCalls(host: Host, tab: int, i: nat): seq<Event> {
    var ask := Message(Num(tab), StartAreaSelection);
    match host.FailureAt(i)
    case None => [ask]
    case Some(e) =>
      if !Contains(e, "Receiving end does not exist") then [ask]
      else if i + 1 in host.failing then [ask, RunScript(tab, InjectContentScript)]
      else [ask, RunScript(tab, InjectContentScript), ask]
  }

  /** `requestAreaSelection`: a missing content script is injected once and asked again. */
  method RequestAreaSelection(host: Host, tab: int) returns (r: Result<Option<SelectionReply>, string>)
    modifies host
    ensures host.scrollX == old(host.scrollX) && host.scrollY == old(host.scrollY)
    ensures NoUiToggle(host.log, |old(host.log)|) && !(exists i :: |old(host.log)| <= i < |host.log| && IsPageStep(host.log[i]))
    ensures var i := |old(host.log)|;
      match host.FailureAt(i)
      case None => host.log == old(host.log) + [Message(Num(tab), StartAreaSelection)] && r == Ok(host.selection)
      case Some(e) =>
        if !Contains(e, "Receiving end does not exist") then
          host.log == old(host.log) + [Message(Num(tab), StartAreaSelection)]
          && r == Err("Unable to start area selection on this page.")
        else if i + 1 in host.failing then
          host.log == old(host.log) + [Message(Num(tab), StartAreaSelection), RunScript(tab, InjectContentScript)]
          && r == Err(host.failing[i + 1])
        else
          host.log == old(host.log) + [Message(Num(tab), StartAreaSelection), RunScript(tab, InjectContentScript),
                                       Message(Num(tab), StartAreaSelection)]
          && r == (if i + 2 in host.failing then Err(host.failing[i + 2]) else Ok(host.selection))
    ensures host.log == old(host.log) + AreaCalls(host, tab, |old(host.log)|)
    ensures r == AreaReply(host, |old(host.log)|)
  {
    r := host.SendMessage(Num(tab), StartAreaSelection);
    if r.Ok? {
      return;
    }
    if !Contains(r.error, "Receiving end does not exist") {
      return Err("Unable to start area selection on this page.");
    }
    var injected := host.ExecuteScript(tab, InjectContentScript);
    if injected.Err? {
      return Err(injected.error);
    }
    r := host.SendMessage(Num(tab), StartAreaSelection);
  }

  /** `selection?.error || "Area selection was canceled."`. */
  function CancelReason(reply: Option<SelectionReply>): string {
    if reply.Some? && reply.value.Canceled? && reply.value.error != "" then reply.value.error
    else "Area selection was canceled."
  }

  /** The crop `captureSelection` stores, taken from the frame captured after the selection. */
  function SelectionImage(frame: Grid, b: Bounds, vw: int, vh: int, dpr: real): Result<Grid, string> {
    match CropRect(Some(b), FrameEdge(vw, dpr), FrameEdge(vh, dpr))
    case Err(e) => Err(e)
    case Ok(rect) => Ok(Crop(frame, rect))
  }

  /**
   * The end of `captureSelection` whose capture call has index `c`, with the page scrolled
   * to (sx, sy): the capture's fixed message, the crop's error, or the saved crop.
   */
  ghost predicate SelectionStored(host: Host, tab: Tab, b: Bounds, id: string, now: int, c: nat, sx: int, sy: int,
                                  before: map<string, Stored>, r: Outcome, after: map<string, Stored>) {
    if c in host.failing then r == Failed(CaptureFailedMessage) && after == before
    else
      match SelectionImage(host.FrameAt(sx, sy), b, host.page.viewportWidth, host.page.viewportHeight, host.page.dpr)
      case Err(e) => r == Failed(e) && after == before
      case Ok(image) => Saved(before, id, tab, host.encode(image), "selection", now, r, after)
  }

  /**
   * The outcome of `captureSelection` whose first call has index `i0`, with the page scrolled
   * to (sx, sy): the tab check's error, the request's error, a cancellation with its reason,
   * or the stored end of the capture.
   */
  ghost predicate SelectionCaptured(host: Host, tabId: Value, id: string, now: int, i0: nat, sx: int, sy: int,
                                    before: map<string, Stored>, r: Outcome, after: map<string, Stored>) {
    match ValidTab(tabId, host.FailureAt(i0), host.tabs)
    case Err(e) => r == Failed(e) && after == before
    case Ok(tab) =>
      match AreaReply(host, i0 + 1)
      case Err(e) => r == Failed(e) && after == before
      case Ok(reply) =>
        if reply.None? || reply.value.Canceled? then r == SelectionCanceled(CancelReason(reply)) && after == before
        else
          var c := i0 + 1 + |AreaCalls(host, tabId.n, i0 + 1)|;
          SelectionStored(host, tab, reply.value.bounds, id, now, c, sx, sy, before, r, after)
  }

  /**
   * `captureSelection`: the user's rectangle cut out of the visible viewport. A cancelled
   * selection stores nothing and reports the content script's reason.
   */
  method CaptureSelection(host: Host, store: CaptureStore, tabId: Value, windowId: Value, id: string, now: int)
    returns (r: Outcome)
    requires store.Valid()
    modifies host, store
    ensures store.Valid() && NoUiToggle(host.log, |old(host.log)|) && Extends(old(host.log), host.log)
    ensures host.scrollX == old(host.scrollX) && host.scrollY == old(host.scrollY)
    ensures !r.Done? ==> store.records == old(store.records)
    ensures r.SelectionCanceled? ==> host.selection.None? || host.selection.value.Canceled?
    ensures r.SelectionCanceled? ==> r.reason == CancelReason(host.selection)
    ensures r.Done? ==>
      && ValidTab(tabId, host.FailureAt(|old(host.log)|), host.tabs).Ok?
      && host.selection.Some? && host.selection.value.Selected?
      && var p := host.page;
         var image := SelectionImage(host.FrameAt(host.scrollX, host.scrollY), host.selection.value.bounds,
           p.viewportWidth, p.viewportHeight, p.dpr);
         image.Ok?
         && var s := NewRecord(id, host.tabs[tabId.n], host.encode(image.value), "selection", now);
            store.records == old(store.records)[id := s] && r == Done(Normalize(s))
    ensures SelectionCaptured(host, tabId, id, now, |old(host.log)|, old(host.scrollX), old(host.scrollY),
                              old(store.records), r, store.records)
  {
    var tab := GetValidTab(host, tabId);
    if tab.Err? {
      return Failed(tab.error);
    }
    var reply := RequestAreaSelection(host, tabId.n);
    if reply.Err? {
      return Failed(reply.error);
    }
    if reply.value.None? || reply.value.value.Canceled? {
      return SelectionCanceled(CancelReason(reply.value));
    }
    r := StoreSelection(host, store, tab.value, reply.value.value.bounds, windowId, id, now);
  }

  /** The end of `captureSelection`: the visible viewport captured, cropped to `b` and stored. */
  method StoreSelection(host: Host, store: CaptureStore, tab: Tab, b: Bounds, windowId: Value, id: string, now: int)
    returns (r: Outcome)
    requires store.Valid()
    modifies host, store
    ensures store.Valid() && host.log == old(host.log) + [CaptureTab(windowId)]
    ensures host.scrollX == old(host.scrollX) && host.scrollY == old(host.scrollY)
    ensures !r.Done? ==> r.Failed? && store.records == old(store.records)
    ensures r.Done? ==>
      var p := host.page;
      var image := SelectionImage(host.FrameAt(host.scrollX, host.scrollY), b, p.viewportWidth, p.viewportHeight, p.dpr);
      image.Ok?
      && var s := NewRecord(id, tab, host.encode(image.value), "selection", now);
         store.records == old(store.records)[id := s] && r == Done(Normalize(s))
    ensures SelectionStored(host, tab, b, id, now, |old(host.log)|, old(host.scrollX), old(host.scrollY),
                            old(store.records), r, store.records)
  {
    var visible := CaptureVisibleData(host, windowId);
    if visible.Err? {
      return Failed(visible.error);
    }
    var p := host.page;
    var cropped := SelectionImage(visible.value, b, p.viewportWidth, p.viewportHeight, p.dpr);
    if cropped.Err? {
      return Failed(cropped.error);
    }
    r := Save(store, id, tab, host.encode(cropped.value), "selection", now);
  }

  /**
   * A selection that lies inside the viewport at the page's ratio is stored pixel for pixel:
   * pixel (r, c) of the crop is the page's pixel under the selection's corner plus (r, c).
   */
  lemma SelectionShowsSelectedArea(render: (int, int) -> Pixel, p: Metrics, sx: int, sy: int, b: Bounds)
    requires b.width >= 4.0 && b.height >= 4.0 && b.dpr > 0.0 && p.dpr == b.dpr
    requires 0 <= Scaled(b.x, b.dpr) && 1 <= Scaled(b.width, b.dpr)
    requires Scaled(b.x, b.dpr) + Scaled(b.width, b.dpr) <= FrameEdge(p.viewportWidth, p.dpr)
    requires 0 <= Scaled(b.y, b.dpr) && 1 <= Scaled(b.height, b.dpr)
    requires Scaled(b.y, b.dpr) + Scaled(b.height, b.dpr) <= FrameEdge(p.viewportHeight, p.dpr)
    ensures var frame := Frame(render, p.viewportWidth, p.viewportHeight, p.dpr, sx, sy);
      var image := SelectionImage(frame, b, p.viewportWidth, p.viewportHeight, p.dpr);
      && image.Ok?
      && IsGrid(image.value, Scaled(b.width, b.dpr), Scaled(b.height, b.dpr))
      && forall r, c :: 0 <= r < Scaled(b.height, b.dpr) && 0 <= c < Scaled(b.width, b.dpr) ==>
        image.value[r][c] == render(Device(sy, p.dpr) + Scaled(b.y, b.dpr) + r, Device(sx, p.dpr) + Scaled(b.x, b.dpr) + c)
  {
    CropRectExact(b, FrameEdge(p.viewportWidth, p.dpr), FrameEdge(p.viewportHeight, p.dpr));
  }

  // ---------------------------------------------------------------------------
  // Full-page stitch
  // ---------------------------------------------------------------------------

  /** The calls for one row of tiles: scroll, then capture, for each x in turn. */
  function RowTrace(tab: int, windowId: Value, xs: seq<int>, y: int): (t: seq<Event>)
    ensures |t| == 2 * |xs|
  {
    if xs == [] then []
    else RowTrace(tab, windowId, xs[..|xs| - 1], y) + [RunScript(tab, ScrollTo(xs[|xs| - 1], y)), CaptureTab(windowId)]
  }

  /** The calls of the tile loop: the rows in order of `ys`, each row in order of `xs`. */
  function GridTrace(tab: int, windowId: Value, xs: seq<int>, ys: seq<int>): (t: seq<Event>)
    ensures |t| == 2 * |xs| * |ys|
  {
    if ys == [] then []
    else GridTrace(tab, windowId, xs, ys[..|ys| - 1]) + RowTrace(tab, windowId, xs, ys[|ys| - 1])
  }

  lemma RowTraceStep(tab: int, windowId: Value, xs: seq<int>, j: nat, y: int)
    requires j < |xs|
    ensures RowTrace(tab, windowId, xs[..j + 1], y)
      == RowTrace(tab, windowId, xs[..j], y) + [RunScript(tab, ScrollTo(xs[j], y)), CaptureTab(windowId)]
  {
    assert xs[..j + 1][..j] == xs[..j];
  }

  lemma {:induction false} RowTracePrefix(tab: int, windowId: Value, xs: seq<int>, j: nat, y: int)
    requires j <= |xs|
    ensures IsPrefix(RowTrace(tab, windowId, xs[..j], y), RowTrace(tab, windowId, xs, y))
    decreases |xs| - j
  {
    if j < |xs| {
      RowTracePrefix(tab, windowId, xs, j + 1, y);
      RowTraceStep(tab, windowId, xs, j, y);
    } else {
      assert xs[..j] == xs;
    }
  }

  lemma GridTraceStep(tab: int, windowId: Value, xs: seq<int>, ys: seq<int>, i: nat)
    requires i < |ys|
    ensures GridTrace(tab, windowId, xs, ys[..i + 1]) == GridTrace(tab, windowId, xs, ys[..i]) + RowTrace(tab, windowId, xs, ys[i])
  {
    assert ys[..i + 1][..i] == ys[..i];
  }

  lemma {:induction false} GridTracePrefix(tab: int, windowId: Value, xs: seq<int>, ys: seq<int>, i: nat)
    requires i <= |ys|
    ensures IsPrefix(GridTrace(tab, windowId, xs, ys[..i]), GridTrace(tab, windowId, xs, ys))
    decreases |ys| - i
  {
    if i < |ys| {
      GridTracePrefix(tab, windowId, xs, ys, i + 1);
      GridTraceStep(tab, windowId, xs, ys, i);
    } else {
      assert ys[..i] == ys;
    }
  }

  /** A prefix of a prefix is a prefix. */
  lemma PrefixTrans<T>(a: seq<T>, b: seq<T>, c: seq<T>)
    requires IsPrefix(a, b) && IsPrefix(b, c)
    ensures IsPrefix(a, c)
  {
    assert c[..|a|] == c[..|b|][..|a|];
  }

  /** A partial row appended to finished rows is a prefix of the whole trace. */
  lemma PartialRowPrefix(tab: int, windowId: Value, xs: seq<int>, ys: seq<int>, i: nat, part: seq<Event>)
    requires i < |ys| && IsPrefix(part, RowTrace(tab, windowId, xs, ys[i]))
    ensures IsPrefix(GridTrace(tab, windowId, xs, ys[..i]) + part, GridTrace(tab, windowId, xs, ys))
  {
    var done := GridTrace(tab, windowId, xs, ys[..i]);
    var row := RowTrace(tab, windowId, xs, ys[i]);
    GridTraceStep(tab, windowId, xs, ys, i);
    GridTracePrefix(tab, windowId, xs, ys, i + 1);
    assert (done + row)[..|done + part|] == done + part;
    PrefixTrans(done + part, done + row, GridTrace(tab, windowId, xs, ys));
  }

  /** A row that fails part way leaves the calls made so far a prefix of the grid's calls. */
  lemma FailedRowAppended(start: seq<Event>, log: seq<Event>, tab: int, windowId: Value, xs: seq<int>, ys: seq<int>, i: nat)
    requires i < |ys|
    requires Appended(start + GridTrace(tab, windowId, xs, ys[..i]), log, RowTrace(tab, windowId, xs, ys[i]))
    ensures Appended(start, log, GridTrace(tab, windowId, xs, ys))
  {
    var done := GridTrace(tab, windowId, xs, ys[..i]);
    var rest := log[|start + done|..];
    assert log == start + done + rest;
    PartialRowPrefix(tab, windowId, xs, ys, i, rest);
    assert log[|start|..] == done + rest;
  }

  /** Rows already painted stay painted when later drawing keeps every correct pixel. */
  lemma RowsKept(a: Grid, b: Grid, render: (int, int) -> Pixel, m: Metrics, xs: seq<int>, ys: seq<int>, i: nat)
    requires Keeps(a, b, render) && RowsPainted(a, render, m, xs, ys, i)
    ensures RowsPainted(b, render, m, xs, ys, i)
  {
    forall p, q | 0 <= p < i && p < |ys| && 0 <= q < |xs| ensures PaintedBy(b, render, m, xs[q], ys[p]) {
      PaintedKept(a, b, render, m, xs[q], ys[p]);
    }
  }

  /** A row stitched onto a canvas whose first `i` rows were painted leaves `i + 1` rows painted. */
  lemma RowAdded(canvas: Grid, painted: Grid, render: (int, int) -> Pixel, m: Metrics, xs: seq<int>, ys: seq<int>,
                 i: nat, w: int, h: int)
    requires i < |ys| && IsGrid(canvas, w, h) && Keeps(canvas, painted, render)
    requires RowsPainted(canvas, render, m, xs, ys, i)
    requires forall q :: 0 <= q < |xs| ==> PaintedBy(painted, render, m, xs[q], ys[i])
    ensures IsGrid(painted, w, h) && RowsPainted(painted, render, m, xs, ys, i + 1)
  {
    RowsKept(canvas, painted, render, m, xs, ys, i);
  }

  /** The viewport measurements of `m` are those of the host's page. */
  predicate SameViewport(host: Host, m: Metrics) {
    m.viewportWidth == host.page.viewportWidth && m.viewportHeight == host.page.viewportHeight && m.dpr == host.page.dpr
  }

  /** No call with an index in [lo, hi) fails. */
  ghost predicate NoFailure(host: Host, lo: nat, hi: nat) {
    forall k :: lo <= k < hi ==> k !in host.failing
  }

  /** Two adjacent ranges without failing calls make one. */
  lemma NoFailureJoin(host: Host, lo: nat, mid: nat, hi: nat)
    requires lo <= mid <= hi && NoFailure(host, lo, mid) && NoFailure(host, mid, hi)
    ensures NoFailure(host, lo, hi)
  {
  }

  /** The error a failing tile call `e` with index `k` throws: a capture fails with the fixed message. */
  function TileError(host: Host, e: Event, k: nat): string {
    if e.CaptureTab? then CaptureFailedMessage else if k in host.failing then host.failing[k] else ""
  }

  /**
   * A tile loop that failed stopped at its first failing call, the last call in `log`,
   * after calls from `lo` on that all succeeded; `error` is what that call threw.
   */
  ghost predicate StoppedAt(host: Host, log: seq<Event>, lo: nat, error: string) {
    && lo < |log|
    && |log| - 1 in host.failing
    && NoFailure(host, lo, |log| - 1)
    && error == TileError(host, log[|log| - 1], |log| - 1)
  }

  /** One step of the tile loop: scroll to (x, y), capture the viewport, draw it onto the canvas. */
  method CaptureTile(host: Host, tab: int, windowId: Value, m: Metrics, canvas: Grid, x: int, y: int)
    returns (r: Result<Grid, string>)
    requires SameViewport(host, m)
    modifies host
    ensures var i := |old(host.log)|;
      if i in host.failing then
        host.log == old(host.log) + [RunScript(tab, ScrollTo(x, y))] && r == Err(host.failing[i])
      else
        && host.log == old(host.log) + [RunScript(tab, ScrollTo(x, y)), CaptureTab(windowId)]
        && host.scrollX == x && host.scrollY == y
        && r == if i + 1 in host.failing then Err(CaptureFailedMessage) else Ok(DrawTile(canvas, host.render, m, x, y))
  {
    var scrolled := host.ExecuteScript(tab, ScrollTo(x, y));
    if scrolled.Err? {
      return Err(scrolled.error);
    }
    var frame := CaptureVisibleData(host, windowId);
    if frame.Err? {
      return Err(frame.error);
    }
    var sx := TileSpan(m.pageWidth, m.viewportWidth, x, m.dpr);
    var sy := TileSpan(m.pageHeight, m.viewportHeight, y, m.dpr);
    r := Ok(Blit(canvas, frame.value, sx.start, sy.start, sx.size, sy.size));
  }

  /** Every tile of the row at `y` taken at the first `j` offsets of `xs` has been drawn on `g`. */
  ghost predicate RowPainted(g: Grid, render: (int, int) -> Pixel, m: Metrics, xs: seq<int>, j: nat, y: int) {
    forall b :: 0 <= b < j && b < |xs| ==> PaintedBy(g, render, m, xs[b], y)
  }

  /** Drawing the next tile of a row keeps what was painted and paints that tile too. */
  lemma TileDrawn(canvas: Grid, current: Grid, render: (int, int) -> Pixel, m: Metrics, xs: seq<int>, j: nat, y: int)
    requires j < |xs| && Sound(current, render) && Keeps(canvas, current, render)
    requires RowPainted(current, render, m, xs, j, y)
    ensures var g := DrawTile(current, render, m, xs[j], y);
      Sound(g, render) && Keeps(canvas, g, render) && RowPainted(g, render, m, xs, j + 1, y)
  {
    var g := DrawTile(current, render, m, xs[j], y);
    DrawTileStep(current, render, m, xs[j], y);
    forall b | 0 <= b < j ensures PaintedBy(g, render, m, xs[b], y) {
      PaintedKept(current, g, render, m, xs[b], y);
    }
    KeepsTrans(canvas, current, g, render);
  }

  /** A tile that fails after the tiles before it leaves a prefix of the row's calls. */
  lemma TileFailed(start: seq<Event>, log: seq<Event>, tab: int, windowId: Value, xs: seq<int>, j: nat, y: int)
    requires j < |xs|
    requires var done := start + RowTrace(tab, windowId, xs[..j], y);
      log == done + [RunScript(tab, ScrollTo(xs[j], y))] ||
      log == done + [RunScript(tab, ScrollTo(xs[j], y)), CaptureTab(windowId)]
    ensures Appended(start, log, RowTrace(tab, windowId, xs, y)) && |log| > |start|
  {
    var next := RowTrace(tab, windowId, xs[..j + 1], y);
    RowTraceStep(tab, windowId, xs, j, y);
    RowTracePrefix(tab, windowId, xs, j + 1, y);
    var part := log[|start|..];
    assert log == start + part;
    assert part == next[..|part|];
    PrefixTrans(part, next, RowTrace(tab, windowId, xs, y));
  }

  /** The inner loop of `stitchPageGrid`: one row of tiles at scroll offset `y`. */
  method StitchRow(host: Host, tab: int, windowId: Value, m: Metrics, canvas: Grid, xs: seq<int>, y: int)
    returns (r: Result<Grid, string>)
    requires SameViewport(host, m) && Sound(canvas, host.render)
    modifies host
    ensures Appended(old(host.log), host.log, RowTrace(tab, windowId, xs, y))
    ensures r.Err? ==> |host.log| > |old(host.log)|
    ensures r.Err? ==> StoppedAt(host, host.log, |old(host.log)|, r.error)
    ensures r.Ok? ==> NoFailure(host, |old(host.log)|, |host.log|)
    ensures r.Ok? ==>
      && host.log == old(host.log) + RowTrace(tab, windowId, xs, y)
      && Sound(r.value, host.render) && Keeps(canvas, r.value, host.render)
      && forall b :: 0 <= b < |xs| ==> PaintedBy(r.value, host.render, m, xs[b], y)
  {
    ghost var start := host.log;
    var current := canvas;
    KeepsRefl(canvas, host.render);
    var j := 0;
    while j < |xs|
      invariant 0 <= j <= |xs|
      invariant host.log == start + RowTrace(tab, windowId, xs[..j], y)
      invariant Sound(current, host.render) && Keeps(canvas, current, host.render)
      invariant RowPainted(current, host.render, m, xs, j, y)
      invariant NoFailure(host, |start|, |host.log|)
    {
      RowTraceStep(tab, windowId, xs, j, y);
      var step := CaptureTile(host, tab, windowId, m, current, xs[j], y);
      if step.Err? {
        TileFailed(start, host.log, tab, windowId, xs, j, y);
        return Err(step.error);
      }
      TileDrawn(canvas, current, host.render, m, xs, j, y);
      current := step.value;
      j := j + 1;
    }
    assert xs[..j] == xs;
    r := Ok(current);
  }

  /**
   * `stitchPageGrid`: a white canvas of the page's device size, then every tile of the grid
   * in row-major order, y outer and x inner.
   */
  method StitchPageGrid(host: Host, tab: int, windowId: Value, m: Metrics, xs: seq<int>, ys: seq<int>)
    returns (r: Result<Grid, string>)
    requires SameViewport(host, m)
    modifies host
    ensures Appended(old(host.log), host.log, GridTrace(tab, windowId, xs, ys))
    ensures r.Err? ==> StoppedAt(host, host.log, |old(host.log)|, r.error)
    ensures r.Ok? ==> NoFailure(host, |old(host.log)|, |host.log|)
    ensures r.Ok? ==>
      && host.log == old(host.log) + GridTrace(tab, windowId, xs, ys)
      && IsGrid(r.value, CanvasEdge(m.pageWidth, m.dpr), CanvasEdge(m.pageHeight, m.dpr))
      && Sound(r.value, host.render)
      && RowsPainted(r.value, host.render, m, xs, ys, |ys|)
  {
    ghost var start := host.log;
    var w, h := CanvasEdge(m.pageWidth, m.dpr), CanvasEdge(m.pageHeight, m.dpr);
    var canvas := Fill(w, h, White);
    var i := 0;
    while i < |ys|
      invariant 0 <= i <= |ys|
      invariant host.log == start + GridTrace(tab, windowId, xs, ys[..i])
      invariant IsGrid(canvas, w, h) && Sound(canvas, host.render)
      invariant RowsPainted(canvas, host.render, m, xs, ys, i)
      invariant NoFailure(host, |start|, |host.log|)
    {
      ghost var before := |host.log|;
      var row := StitchNextRow(host, tab, windowId, m, canvas, xs, ys, i, start, w, h);
      if row.Err? {
        NoFailureJoin(host, |start|, before, |host.log| - 1);
        return Err(row.error);
      }
      NoFailureJoin(host, |start|, before, |host.log|);
      canvas := row.value;
      i := i + 1;
    }
    assert ys[..i] == ys;
    GridTracePrefix(tab, windowId, xs, ys, i);
    r := Ok(canvas);
  }

  /** One pass of the row loop of `stitchPageGrid`: the row at `ys[i]` stitched onto the canvas. */
  method StitchNextRow(host: Host, tab: int, windowId: Value, m: Metrics, canvas: Grid, xs: seq<int>, ys: seq<int>,
                       i: nat, ghost start: seq<Event>, w: int, h: int)
    returns (r: Result<Grid, string>)
    requires i < |ys| && SameViewport(host, m)
    requires host.log == start + GridTrace(tab, windowId, xs, ys[..i])
    requires IsGrid(canvas, w, h) && Sound(canvas, host.render) && RowsPainted(canvas, host.render, m, xs, ys, i)
    modifies host
    ensures r.Err? ==> Appended(start, host.log, GridTrace(tab, windowId, xs, ys))
    ensures r.Err? ==> StoppedAt(host, host.log, |old(host.log)|, r.error)
    ensures r.Ok? ==> NoFailure(host, |old(host.log)|, |host.log|)
    ensures r.Ok? ==>
      && host.log == start + GridTrace(tab, windowId, xs, ys[..i + 1])
      && IsGrid(r.value, w, h) && Sound(r.value, host.render) && RowsPainted(r.value, host.render, m, xs, ys, i + 1)
  {
    r := StitchRow(host, tab, windowId, m, canvas, xs, ys[i]);
    if r.Err? {
      FailedRowAppended(start, host.log, tab, windowId, xs, ys, i);
      return;
    }
    RowAdded(canvas, r.value, host.render, m, xs, ys, i, w, h);
    GridTraceStep(tab, windowId, xs, ys, i);
  }

  lemma {:induction false} RowTraceNoMessage(tab: int, windowId: Value, xs: seq<int>, y: int)
    ensures forall i :: 0 <= i < |RowTrace(tab, windowId, xs, y)| ==> !RowTrace(tab, windowId, xs, y)[i].Message?
  {
    if xs != [] {
      RowTraceNoMessage(tab, windowId, xs[..|xs| - 1], y);
    }
  }

  /** The tile loop calls scroll and capture only. */
  lemma {:induction false} GridTraceNoMessage(tab: int, windowId: Value, xs: seq<int>, ys: seq<int>)
    ensures forall i :: 0 <= i < |GridTrace(tab, windowId, xs, ys)| ==> !GridTrace(tab, windowId, xs, ys)[i].Message?
  {
    if ys != [] {
      GridTraceNoMessage(tab, windowId, xs, ys[..|ys| - 1]);
      RowTraceNoMessage(tab, windowId, xs, ys[|ys| - 1]);
    }
  }

  /** The calls a tile loop made after `start`: a prefix of the grid's calls, none of them a message. */
  lemma TilesOf(start: seq<Event>, log: seq<Event>, tab: int, windowId: Value, xs: seq<int>, ys: seq<int>)
    requires Appended(start, log, GridTrace(tab, windowId, xs, ys))
    ensures var tiles := log[|start|..];
      && log == start + tiles && IsPrefix(tiles, GridTrace(tab, windowId, xs, ys))
      && forall i :: 0 <= i < |tiles| ==> !tiles[i].Message?
  {
    var tiles := log[|start|..];
    GridTraceNoMessage(tab, windowId, xs, ys);
    assert forall i :: 0 <= i < |tiles| ==> tiles[i] == GridTrace(tab, windowId, xs, ys)[i];
    assert log == start + tiles;
  }

  /**
   * The `try`/`finally` of `captureFullPage`: the tile loop over the axis positions, then one
   * best-effort scroll back to the offset read with the metrics, whether the loop threw or not.
   */
  method StitchAndRestore(host: Host, tab: int, windowId: Value, m: Metrics)
    returns (r: Result<Grid, string>, ghost tiles: seq<Event>)
    requires SameViewport(host, m) && Measured(m)
    modifies host
    ensures var xs, ys := AxisPositions(m.pageWidth, m.viewportWidth), AxisPositions(m.pageHeight, m.viewportHeight);
      && host.log == old(host.log) + tiles + [RunScript(tab, ScrollTo(m.originalX, m.originalY))]
      && IsPrefix(tiles, GridTrace(tab, windowId, xs, ys))
      && (forall i :: 0 <= i < |tiles| ==> !tiles[i].Message?)
      && (|host.log| - 1 !in host.failing ==> host.scrollX == m.originalX && host.scrollY == m.originalY)
      && (r.Err? ==> StoppedAt(host, old(host.log) + tiles, |old(host.log)|, r.error))
      && (r.Ok? ==>
        && NoFailure(host, |old(host.log)|, |old(host.log)| + |tiles|)
        && tiles == GridTrace(tab, windowId, xs, ys)
        && IsGrid(r.value, CanvasEdge(m.pageWidth, m.dpr), CanvasEdge(m.pageHeight, m.dpr))
        && Sound(r.value, host.render)
        && RowsPainted(r.value, host.render, m, xs, ys, |ys|))
  {
    var xs := BuildPositions(m.pageWidth, m.viewportWidth);
    var ys := BuildPositions(m.pageHeight, m.viewportHeight);
    ghost var start := host.log;
    r := StitchPageGrid(host, tab, windowId, m, xs, ys);
    tiles := host.log[|start|..];
    TilesOf(start, host.log, tab, windowId, xs, ys);
    assert r.Err? ==> StoppedAt(host, start + tiles, |start|, r.error);
    assert r.Ok? ==> NoFailure(host, |start|, |start| + |tiles|);
    var _ := host.ExecuteScript(tab, ScrollTo(m.originalX, m.originalY));
  }

  /** The full-page capture reaches the tile loop: valid tab, measured page, canvas within limits. */
  predicate StitchEntered(host: Host, tabId: Value, i: nat, m: Metrics) {
    && CheckTabId(tabId).Ok?
    && i !in host.failing
    && CheckTab(host.Lookup(tabId.n)).Ok?
    && i + 1 !in host.failing
    && ValidateCanvasBounds(m).Ok?
  }

  /**
   * The error `captureFullPage` throws before its tile loop: the tab check's, the metrics
   * script's, or the canvas bounds'.
   */
  function BeginError(host: Host, tabId: Value, i: nat, m: Metrics): string {
    match ValidTab(tabId, host.FailureAt(i), host.tabs)
    case Err(e) => e
    case Ok(_) =>
      if i + 1 in host.failing then host.failing[i + 1]
      else
        match ValidateCanvasBounds(m)
        case Err(e) => BoundsMessage(e)
        case Ok(_) => ""
  }

  /**
   * The checks of `captureFullPage` before its tile loop: a valid tab, the page's metrics,
   * and canvas bounds within the limits.
   */
  method BeginFullPage(host: Host, tabId: Value) returns (r: Result<(Tab, Metrics), string>)
    modifies host
    ensures host.scrollX == old(host.scrollX) && host.scrollY == old(host.scrollY)
    ensures Extends(old(host.log), host.log)
    ensures forall i :: |old(host.log)| <= i < |host.log| ==> !host.log[i].Message? && !IsPageStep(host.log[i])
    ensures var i0, m := |old(host.log)|, Viewed(host.page, old(host.scrollX), old(host.scrollY));
      r.Ok? <==> StitchEntered(host, tabId, i0, m)
    ensures r.Err? ==> r.error == BeginError(host, tabId, |old(host.log)|, Viewed(host.page, old(host.scrollX), old(host.scrollY)))
    ensures r.Ok? ==>
      && host.log == old(host.log) + [LookupTab(tabId.n), RunScript(tabId.n, ReadMetrics)]
      && r.value == (host.tabs[tabId.n], Viewed(host.page, old(host.scrollX), old(host.scrollY)))
  {
    var tab := GetValidTab(host, tabId);
    if tab.Err? {
      return Err(tab.error);
    }
    var measured := host.ExecuteScript(tabId.n, ReadMetrics);
    if measured.Err? {
      return Err(measured.error);
    }
    var bounds := ValidateCanvasBounds(measured.value);
    if bounds.Err? {
      return Err(BoundsMessage(bounds.error));
    }
    r := Ok((tab.value, measured.value));
  }

  /**
   * The calls of a full-page capture that entered its tile loop, after the calls `start`:
   * the tab lookup and the metrics script, a prefix of the tile calls, and the restore scroll.
   */
  ghost predicate EnteredLog(start: seq<Event>, log: seq<Event>, n: int, windowId: Value, m: Metrics)
    requires Measured(m)
  {
    var i0, xs, ys := |start|, AxisPositions(m.pageWidth, m.viewportWidth), AxisPositions(m.pageHeight, m.viewportHeight);
    && |log| >= i0 + 3
    && log[..i0 + 2] == start + [LookupTab(n), RunScript(n, ReadMetrics)]
    && IsPrefix(log[i0 + 2..|log| - 1], GridTrace(n, windowId, xs, ys))
    && log[|log| - 1] == RunScript(n, ScrollTo(m.originalX, m.originalY))
  }

  /** The log of a full-page capture that entered the tile loop, in its four parts. */
  lemma FullPageLog(start: seq<Event>, read: seq<Event>, tiles: seq<Event>, last: Event)
    requires forall i :: 0 <= i < |read| ==> !read[i].Message?
    requires forall i :: 0 <= i < |tiles| ==> !tiles[i].Message?
    requires !last.Message?
    ensures var log := start + read + tiles + [last];
      && log[..|start| + |read|] == start + read && log[|start| + |read|..|log| - 1] == tiles
      && log[|log| - 1] == last && NoUiToggle(log, |start|) && Extends(start, log)
  {
    var log := start + read + tiles + [last];
    assert log[..|start|] == start;
    assert log[..|start| + |read|] == start + read;
    assert log[|start| + |read|..|log| - 1] == tiles;
    forall i | |start| <= i < |log| ensures !log[i].Message? {
      if i < |start| + |read| {
        assert log[i] == read[i - |start|];
      } else if i < |log| - 1 {
        assert log[i] == tiles[i - |start| - |read|];
      }
    }
  }

  /** The calls of a full-page capture past its checks: its two checking calls, tile calls, one restore. */
  lemma EnteredLogOf(start: seq<Event>, n: int, windowId: Value, m: Metrics, tiles: seq<Event>)
    requires Measured(m)
    requires IsPrefix(tiles, GridTrace(n, windowId, AxisPositions(m.pageWidth, m.viewportWidth),
                                       AxisPositions(m.pageHeight, m.viewportHeight)))
    requires forall i :: 0 <= i < |tiles| ==> !tiles[i].Message?
    ensures var log := start + [LookupTab(n), RunScript(n, ReadMetrics)] + tiles + [RunScript(n, ScrollTo(m.originalX, m.originalY))];
      NoUiToggle(log, |start|) && Extends(start, log) && EnteredLog(start, log, n, windowId, m)
  {
    FullPageLog(start, [LookupTab(n), RunScript(n, ReadMetrics)], tiles, RunScript(n, ScrollTo(m.originalX, m.originalY)));
  }

  /** A device pixel ratio that is a whole number. */
  predicate WholeRatio(d: real) {
    d >= 1.0 && d == d.Floor as real
  }

  /**
   * The outcome of `captureFullPage` past its checks, on tab `n` (found as `tab`) measured as
   * `m`, whose first call had index `i0` and which left the calls `log`: when no tile call
   * fails, the stitched image saved; otherwise the error of the first failing tile call,
   * after which no tile call is made.
   */
  ghost predicate StitchedCaptured(host: Host, n: int, tab: Tab, windowId: Value, id: string, now: int, i0: nat,
                                   m: Metrics, log: seq<Event>, image: Grid,
                                   before: map<string, Stored>, r: Outcome, after: map<string, Stored>)
    requires Measured(m)
  {
    var xs, ys := AxisPositions(m.pageWidth, m.viewportWidth), AxisPositions(m.pageHeight, m.viewportHeight);
    var w, h := CanvasEdge(m.pageWidth, m.dpr), CanvasEdge(m.pageHeight, m.dpr);
    if NoFailure(host, i0 + 2, i0 + 2 + |GridTrace(n, windowId, xs, ys)|) then
      && |log| >= i0 + 3 && log[i0 + 2..|log| - 1] == GridTrace(n, windowId, xs, ys)
      && IsGrid(image, w, h) && Sound(image, host.render) && RowsPainted(image, host.render, m, xs, ys, |ys|)
      && (WholeRatio(m.dpr) ==> image == PageImage(host.render, w, h))
      && Saved(before, id, tab, host.encode(image), "fullpage", now, r, after)
    else
      && r.Failed? && after == before
      && |log| >= 1 && StoppedAt(host, log[..|log| - 1], i0 + 2, r.error)
  }

  /**
   * The outcome of `captureFullPage` whose first call has index `i0`, on the page measured as
   * `m`, leaving the calls `log`: the error of the checks before the tile loop, or the
   * outcome past them.
   */
  ghost predicate FullPageCaptured(host: Host, tabId: Value, windowId: Value, id: string, now: int, i0: nat,
                                   m: Metrics, log: seq<Event>, image: Grid,
                                   before: map<string, Stored>, r: Outcome, after: map<string, Stored>)
    requires Measured(m)
  {
    if !StitchEntered(host, tabId, i0, m) then r == Failed(BeginError(host, tabId, i0, m)) && after == before
    else StitchedCaptured(host, tabId.n, host.tabs[tabId.n], windowId, id, now, i0, m, log, image, before, r, after)
  }

  /**
   * A stored full-page capture came from a tile loop over the whole grid: its image is the
   * stitched canvas, the page itself at a whole-number ratio, and it is the one record added.
   */
  lemma FullPageDone(host: Host, tabId: Value, windowId: Value, id: string, now: int, i0: nat, m: Metrics,
                     log: seq<Event>, image: Grid, before: map<string, Stored>, r: Outcome, after: map<string, Stored>)
    requires Measured(m) && FullPageCaptured(host, tabId, windowId, id, now, i0, m, log, image, before, r, after)
    requires r.Done?
    ensures var xs, ys := AxisPositions(m.pageWidth, m.viewportWidth), AxisPositions(m.pageHeight, m.viewportHeight);
      var w, h := CanvasEdge(m.pageWidth, m.dpr), CanvasEdge(m.pageHeight, m.dpr);
      && StitchEntered(host, tabId, i0, m)
      && |log| >= i0 + 3 && log[i0 + 2..|log| - 1] == GridTrace(tabId.n, windowId, xs, ys)
      && IsGrid(image, w, h) && Sound(image, host.render) && RowsPainted(image, host.render, m, xs, ys, |ys|)
      && (WholeRatio(m.dpr) ==> image == PageImage(host.render, w, h))
      && var s := NewRecord(id, host.tabs[tabId.n], host.encode(image), "fullpage", now);
         after == before[id := s] && r == Done(Normalize(s))
  {
  }

  /** A full-page capture that stores nothing leaves the records as they were. */
  lemma FullPageUnsaved(host: Host, tabId: Value, windowId: Value, id: string, now: int, i0: nat, m: Metrics,
                        log: seq<Event>, image: Grid, before: map<string, Stored>, r: Outcome, after: map<string, Stored>)
    requires Measured(m) && FullPageCaptured(host, tabId, windowId, id, now, i0, m, log, image, before, r, after)
    requires !r.Done?
    ensures after == before
  {
  }

  /** A full-page capture whose tile loop stopped at a failing call reports that call's error. */
  lemma TilesFailedCaptured(host: Host, n: int, tab: Tab, windowId: Value, id: string, now: int, i0: nat, m: Metrics,
                            read: seq<Event>, tiles: seq<Event>, last: Event, image: Grid,
                            before: map<string, Stored>, r: Outcome)
    requires Measured(m) && |read| == i0 + 2 && r.Failed?
    requires IsPrefix(tiles, GridTrace(n, windowId, AxisPositions(m.pageWidth, m.viewportWidth),
                                       AxisPositions(m.pageHeight, m.viewportHeight)))
    requires StoppedAt(host, read + tiles, i0 + 2, r.error)
    ensures StitchedCaptured(host, n, tab, windowId, id, now, i0, m, read + tiles + [last], image, before, r, before)
  {
    var log := read + tiles + [last];
    assert log[..|log| - 1] == read + tiles;
  }

  /** A full-page capture whose tile loop finished saves the stitched image. */
  lemma TilesDoneCaptured(host: Host, n: int, tab: Tab, windowId: Value, id: string, now: int, i0: nat, m: Metrics,
                          read: seq<Event>, tiles: seq<Event>, last: Event, image: Grid,
                          before: map<string, Stored>, r: Outcome, after: map<string, Stored>)
    requires Measured(m) && |read| == i0 + 2
    requires var xs, ys := AxisPositions(m.pageWidth, m.viewportWidth), AxisPositions(m.pageHeight, m.viewportHeight);
      var w, h := CanvasEdge(m.pageWidth, m.dpr), CanvasEdge(m.pageHeight, m.dpr);
      && tiles == GridTrace(n, windowId, xs, ys) && NoFailure(host, i0 + 2, i0 + 2 + |tiles|)
      && IsGrid(image, w, h) && Sound(image, host.render) && RowsPainted(image, host.render, m, xs, ys, |ys|)
      && (WholeRatio(m.dpr) ==> image == PageImage(host.render, w, h))
      && Saved(before, id, tab, host.encode(image), "fullpage", now, r, after)
    ensures StitchedCaptured(host, n, tab, windowId, id, now, i0, m, read + tiles + [last], image, before, r, after)
  {
    var log := read + tiles + [last];
    assert log[i0 + 2..|log| - 1] == tiles;
  }

  /**
   * `captureFullPage`. Bounds are validated before any scroll or capture; once the tile loop
   * is entered, the scroll offset read with the metrics is restored by exactly one last call,
   * whether the loop finished or threw; and the capture is stored only after the loop
   * finished. With a whole-number ratio the stored image is the page itself.
   */
  method CaptureFullPage(host: Host, store: CaptureStore, tabId: Value, windowId: Value, id: string, now: int)
    returns (r: Outcome, ghost image: Grid)
    requires store.Valid() && Measured(host.page)
    modifies host, store
    ensures store.Valid() && NoUiToggle(host.log, |old(host.log)|) && Extends(old(host.log), host.log)
    ensures var m := Viewed(host.page, old(host.scrollX), old(host.scrollY));
      !StitchEntered(host, tabId, |old(host.log)|, m) ==>
        && r.Failed? && store.records == old(store.records)
        && host.scrollX == old(host.scrollX) && host.scrollY == old(host.scrollY)
        && forall i :: |old(host.log)| <= i < |host.log| ==> !IsPageStep(host.log[i])
    ensures var m := Viewed(host.page, old(host.scrollX), old(host.scrollY));
      StitchEntered(host, tabId, |old(host.log)|, m) ==>
        && EnteredLog(old(host.log), host.log, tabId.n, windowId, m)
        && (|host.log| - 1 !in host.failing ==> host.scrollX == old(host.scrollX) && host.scrollY == old(host.scrollY))
    ensures FullPageCaptured(host, tabId, windowId, id, now, |old(host.log)|,
                             Viewed(host.page, old(host.scrollX), old(host.scrollY)), host.log, image,
                             old(store.records), r, store.records)
  {
    image := [];
    var begun := BeginFullPage(host, tabId);
    if begun.Err? {
      return Failed(begun.error), image;
    }
    var (tab, m) := begun.value;
    r, image := StitchAndSave(host, store, tabId.n, windowId, id, now, tab, m, old(host.log));
  }

  /**
   * The part of `captureFullPage` after its checks on tab `n`, found as `tab`, which made the
   * calls after `start`: the tile loop with its scroll restore, then the save once the loop
   * finished.
   */
  method StitchAndSave(host: Host, store: CaptureStore, n: int, windowId: Value, id: string, now: int,
                       tab: Tab, m: Metrics, ghost start: seq<Event>)
    returns (r: Outcome, ghost image: Grid)
    requires store.Valid() && Measured(m) && SameViewport(host, m)
    requires host.log == start + [LookupTab(n), RunScript(n, ReadMetrics)]
    modifies host, store
    ensures store.Valid() && NoUiToggle(host.log, |start|) && Extends(start, host.log)
    ensures EnteredLog(start, host.log, n, windowId, m)
    ensures |host.log| - 1 !in host.failing ==> host.scrollX == m.originalX && host.scrollY == m.originalY
    ensures StitchedCaptured(host, n, tab, windowId, id, now, |start|, m, host.log, image, old(store.records), r, store.records)
  {
    image := [];
    ghost var read := host.log;
    ghost var tiles;
    ghost var last := RunScript(n, ScrollTo(m.originalX, m.originalY));
    var stitched;
    stitched, tiles := StitchAndRestore(host, n, windowId, m);
    EnteredLogOf(start, n, windowId, m, tiles);
    assert host.log == read + tiles + [last];
    if stitched.Err? {
      r := Failed(stitched.error);
      TilesFailedCaptured(host, n, tab, windowId, id, now, |start|, m, read, tiles, last, image, store.records, r);
      return;
    }
    image := stitched.value;
    r := SaveStitched(host, store, n, windowId, id, now, tab, m, read, tiles, last, stitched.value);
  }

  /** The save of a finished tile loop: the stitched canvas `image`, encoded, as a "fullpage" capture. */
  method SaveStitched(host: Host, store: CaptureStore, n: int, windowId: Value, id: string, now: int,
                      tab: Tab, m: Metrics, ghost read: seq<Event>, ghost tiles: seq<Event>, ghost last: Event,
                      image: Grid)
    returns (r: Outcome)
    requires store.Valid() && Measured(m)
    requires var xs, ys := AxisPositions(m.pageWidth, m.viewportWidth), AxisPositions(m.pageHeight, m.viewportHeight);
      && tiles == GridTrace(n, windowId, xs, ys) && NoFailure(host, |read|, |read| + |tiles|)
      && IsGrid(image, CanvasEdge(m.pageWidth, m.dpr), CanvasEdge(m.pageHeight, m.dpr))
      && Sound(image, host.render) && RowsPainted(image, host.render, m, xs, ys, |ys|)
    requires |read| >= 2
    modifies store
    ensures store.Valid()
    ensures StitchedCaptured(host, n, tab, windowId, id, now, |read| - 2, m, read + tiles + [last], image,
                             old(store.records), r, store.records)
  {
    if WholeRatio(m.dpr) {
      StitchedIsPage(image, host.render, m, m.dpr.Floor);
    }
    r := Save(store, id, tab, host.encode(image), "fullpage", now);
    TilesDoneCaptured(host, n, tab, windowId, id, now, |read| - 2, m, read, tiles, last, image,
                      old(store.records), r, store.records);
  }

  // ---------------------------------------------------------------------------
  // Hiding the extension's UI around a capture
  // ---------------------------------------------------------------------------

  datatype CaptureKind = Visible | Selection | FullPage

  /** `sendTabMessageSafe`: nothing is sent without a tab id, and a failed delivery is ignored. */
  method SendTabMessageSafe(host: Host, tabId: Value, kind: UiMessage)
    modifies host
    ensures host.log == old(host.log) + (if Truthy(tabId) then [Message(tabId, kind)] else [])
    ensures host.scrollX == old(host.scrollX) && host.scrollY == old(host.scrollY)
  {
    if !Truthy(tabId) {
      return;
    }
    var _ := host.SendMessage(tabId, kind);
  }

  /**
   * `withExtensionUiHidden`: the hide message goes first and the restore message last, once
   * each, whatever the capture's outcome; without a tab id neither is sent. Between them the
   * capture of `kind` runs from the call after the hide message, with the scroll offset it
   * found.
   */
  method WithExtensionUiHidden(host: Host, store: CaptureStore, tabId: Value, windowId: Value, kind: CaptureKind,
                               id: string, now: int)
    returns (r: Outcome, ghost image: Grid)
    requires store.Valid() && Measured(host.page)
    modifies host, store
    ensures store.Valid()
    ensures !r.Done? ==> store.records == old(store.records)
    ensures var i0 := |old(host.log)|;
      if Truthy(tabId) then
        && |host.log| >= i0 + 2 && Extends(old(host.log), host.log)
        && host.log[i0] == Message(tabId, PrepareCaptureUi)
        && host.log[|host.log| - 1] == Message(tabId, RestoreCaptureUi)
        && NoUiToggle(host.log[..|host.log| - 1], i0 + 1)
      else
        Extends(old(host.log), host.log) && NoUiToggle(host.log, i0)
    ensures var sent := if Truthy(tabId) then 1 else 0;
      var i, sx, sy := |old(host.log)| + sent, old(host.scrollX), old(host.scrollY);
      match kind
      case Visible => VisibleCaptured(host, tabId, id, now, i, sx, sy, old(store.records), r, store.records)
      case Selection => SelectionCaptured(host, tabId, id, now, i, sx, sy, old(store.records), r, store.records)
      case FullPage =>
        FullPageCaptured(host, tabId, windowId, id, now, i, Viewed(host.page, sx, sy),
                         host.log[..|host.log| - sent], image, old(store.records), r, store.records)
  {
    image := [];
    SendTabMessageSafe(host, tabId, PrepareCaptureUi);
    ghost var hidden := |host.log|;
    match kind {
      case Visible => r := CaptureVisible(host, store, tabId, windowId, id, now);
      case Selection => r := CaptureSelection(host, store, tabId, windowId, id, now);
      case FullPage => r, image := CaptureFullPage(host, store, tabId, windowId, id, now);
    }
    ghost var inner := host.log;
    SendTabMessageSafe(host, tabId, RestoreCaptureUi);
    assert host.log[..|inner|] == inner;
    assert host.log[..|host.log| - (if Truthy(tabId) then 1 else 0)] == inner;
  }
}
