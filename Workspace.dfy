/**
 * The workspace document of the review page (src/review/App.jsx): one EditorJS document in which
 * every capture appears as an image block whose caption carries the capture marker. This module
 * covers which captures are hidden, which are attached to the document, and the order in which
 * the workspace exports them.
 */
module Workspace {
  import opened Wrappers
  import opened ListOps
  import opened Text
  import opened Json
  import opened EditorData
  import opened CaptureMarker
  import Db

  type Capture = Db.Capture

  /** `new Set(captures.map((capture) => capture.id))`. */
  function AllowedIds(captures: seq<Capture>): (r: set<string>)
    ensures forall x :: x in r <==> x in CaptureIds(captures)
  {
    set c | c in captures :: c.id
  }

  lemma AllowedIdsEmpty(captures: seq<Capture>)
    ensures AllowedIds(captures) == {} <==> captures == []
  {
    if captures != [] {
      assert CaptureIds(captures)[0] in AllowedIds(captures);
    }
  }

  function CaptureIds(captures: seq<Capture>): (r: seq<string>)
    ensures |r| == |captures| && forall k :: 0 <= k < |captures| ==> r[k] == captures[k].id
  {
    seq(|captures|, k requires 0 <= k < |captures| => captures[k].id)
  }

  /**
   * `parseCaptureIdFromCaption(block.data.caption || "")` for a block of type "image": the capture
   * an image block is attached to, `None` for every other block.
   */
  function CaptionId(block: Value): (r: Option<string>)
    ensures r.Some? ==> Get(block, "type") == Str("image")
    ensures r.Some? ==> r == ParseCaptureId(TextOr(Get(Get(block, "data"), "caption")))
  {
    if Get(block, "type") == Str("image") then ParseCaptureId(TextOr(Get(Get(block, "data"), "caption")))
    else None
  }

  // ---------------------------------------------------------------------------
  // normalizeHiddenCaptureIds
  // ---------------------------------------------------------------------------

  /** `Array.isArray(raw) ? raw : []`. */
  function RawList(raw: Value): seq<Value> {
    if raw.Arr? then raw.items else []
  }

  /**
   * One stored entry: `String(rawId || "").trim()`, dropped when empty or, while there are
   * captures, when it names none of them.
   */
  function HiddenCandidate(rawId: Value, allowed: set<string>): Option<string> {
    var id := Trim(TextOr(rawId));
    if id == "" || (allowed != {} && id !in allowed) then None else Some(id)
  }

  function HiddenPick(allowed: set<string>): Value -> Option<string> {
    rawId => HiddenCandidate(rawId, allowed)
  }

  /** The hidden ids `normalizeHiddenCaptureIds(raw, captures)` returns. */
  function HiddenIds(raw: Value, captures: seq<Capture>): seq<string> {
    Dedup(FilterMap(RawList(raw), HiddenPick(AllowedIds(captures))))
  }

  /**
   * The normalized hidden list holds every stored entry that survives, once each, trimmed and
   * non-empty, and only ids of the given captures when there are any.
   */
  lemma HiddenIdsMembers(raw: Value, captures: seq<Capture>, x: string)
    ensures x in HiddenIds(raw, captures) <==>
      exists k :: 0 <= k < |RawList(raw)| && HiddenCandidate(RawList(raw)[k], AllowedIds(captures)) == Some(x)
    ensures x in HiddenIds(raw, captures) ==> x != "" && IsTrimmed(x) && (captures != [] ==> x in CaptureIds(captures))
    ensures NoDups(HiddenIds(raw, captures))
  {
    var pick := HiddenPick(AllowedIds(captures));
    DedupMembers(FilterMap(RawList(raw), pick), x);
    FilterMapMembers(RawList(raw), pick, x);
    AllowedIdsEmpty(captures);
  }

  /** `normalizeHiddenCaptureIds`: one pass over the stored list, adding to an insertion-ordered set. */
  method NormalizeHiddenCaptureIds(raw: Value, captures: seq<Capture>) returns (hidden: seq<string>)
    ensures hidden == HiddenIds(raw, captures)
  {
    var allowedIds := AllowedIds(captures);
    var rawList := RawList(raw);
    hidden := [];
    var i := 0;
    while i < |rawList|
      invariant 0 <= i <= |rawList|
      invariant hidden == Dedup(FilterMap(rawList[..i], HiddenPick(allowedIds)))
    {
      DedupFilterMapStep(rawList, i, HiddenPick(allowedIds));
      var captureId := HiddenCandidate(rawList[i], allowedIds);
      if captureId.Some? && captureId.value !in hidden {
        hidden := hidden + [captureId.value];
      }
      i := i + 1;
    }
    assert rawList[..i] == rawList;
  }

  // ---------------------------------------------------------------------------
  // collectAttachedCaptureIds and buildHiddenCaptureIds
  // ---------------------------------------------------------------------------

  /** The ids the image blocks of `blocks` are attached to, in document order. */
  function AttachedIds(blocks: seq<Value>): seq<string> {
    FilterMap(blocks, CaptionId)
  }

  /** An id is attached exactly when some image block's caption names it. */
  lemma AttachedIdsMembers(blocks: seq<Value>, x: string)
    ensures x in AttachedIds(blocks) <==> exists k :: 0 <= k < |blocks| && CaptionId(blocks[k]) == Some(x)
  {
    FilterMapMembers(blocks, CaptionId, x);
  }

  /** `collectAttachedCaptureIds(workspaceBlocks)`: the document is normalized, then scanned. */
  method CollectAttachedCaptureIds(raw: Value, parse: string -> Option<Value>) returns (attached: set<string>)
    ensures forall x :: x in attached <==> x in AttachedIds(BlocksOf(NormalizeEditorData(raw, "", parse)))
  {
    attached := CollectAttached(BlocksOf(NormalizeEditorData(raw, "", parse)));
  }

  /** The scan of `collectAttachedCaptureIds` over the normalized blocks. */
  method CollectAttached(blocks: seq<Value>) returns (attached: set<string>)
    ensures forall x :: x in attached <==> x in AttachedIds(blocks)
  {
    attached := {};
    var i := 0;
    while i < |blocks|
      invariant 0 <= i <= |blocks|
      invariant forall x :: x in attached <==> x in AttachedIds(blocks[..i])
    {
      assert blocks[..i + 1] == blocks[..i] + [blocks[i]];
      FilterMapSnoc(blocks[..i], blocks[i], CaptionId);
      var captureId := CaptionId(blocks[i]);
      if captureId.Some? {
        attached := attached + {captureId.value};
      }
      i := i + 1;
    }
    assert blocks[..i] == blocks;
  }

  /**
   * `hidden.add(id)` or `hidden.delete(id)` on the insertion-ordered set `hidden`: only `id`'s
   * membership changes.
   */
  method SetHidden(hidden: seq<string>, id: string, keepHidden: bool) returns (r: seq<string>)
    requires NoDups(hidden)
    ensures NoDups(r)
    ensures forall x :: x in r <==> (if x == id then keepHidden else x in hidden)
  {
    if !keepHidden {
      WithoutNoDups(hidden, id);
      forall y ensures y in Without(hidden, id) <==> y in hidden && y != id {
        WithoutMembers(hidden, id, y);
      }
      r := Without(hidden, id);
    } else if id !in hidden {
      r := hidden + [id];
    } else {
      r := hidden;
    }
  }

  /**
   * `buildHiddenCaptureIds`: starting from the normalized stored list, every capture is shown
   * when attached and hidden otherwise, so while there are captures the stored list decides only
   * the order.
   */
  method BuildHiddenCaptureIds(captures: seq<Capture>, attached: set<string>, existing: Value)
    returns (hidden: seq<string>)
    ensures NoDups(hidden)
    ensures forall x :: x in hidden <==>
      if x in CaptureIds(captures) then x !in attached else x in HiddenIds(existing, captures)
    ensures captures != [] ==> forall x :: x in hidden <==> x in CaptureIds(captures) && x !in attached
  {
    hidden := NormalizeHiddenCaptureIds(existing, captures);
    forall x | x in hidden ensures captures != [] ==> x in CaptureIds(captures) {
      HiddenIdsMembers(existing, captures, x);
    }
    ghost var stored := hidden;
    var j := 0;
    while j < |captures|
      invariant 0 <= j <= |captures|
      invariant NoDups(hidden)
      invariant forall x :: x in hidden <==>
        if x in CaptureIds(captures[..j]) then x !in attached else x in stored
    {
      var id := captures[j].id;
      assert CaptureIds(captures[..j + 1]) == CaptureIds(captures[..j]) + [id];
      hidden := SetHidden(hidden, id, id !in attached);
      j := j + 1;
    }
    assert captures[..j] == captures;
    assert CaptureIds(captures[..j]) == CaptureIds(captures);
  }

  // ---------------------------------------------------------------------------
  // buildExportCapturesFromWorkspace
  // ---------------------------------------------------------------------------

  /** `new Map(captures.map((capture) => [capture.id, capture]))`: a later capture replaces an earlier one. */
  function ById(captures: seq<Capture>): (m: map<string, Capture>)
    ensures forall x :: x in m <==> x in CaptureIds(captures)
    ensures forall x :: x in m ==> m[x].id == x && m[x] in captures
  {
    if captures == [] then map[]
    else
      var p := captures[..|captures| - 1];
      var c := captures[|captures| - 1];
      assert captures == p + [c];
      ById(p)[c.id := c]
  }

  /** With distinct ids every capture is found under its own id. */
  lemma {:induction false} ByIdFindsEach(captures: seq<Capture>, k: nat)
    requires NoDups(CaptureIds(captures)) && k < |captures|
    ensures ById(captures)[captures[k].id] == captures[k]
  {
    var n := |captures| - 1;
    var p := captures[..n];
    if k < n {
      assert CaptureIds(p) == CaptureIds(captures)[..n];
      assert CaptureIds(captures)[k] != CaptureIds(captures)[n];
      ByIdFindsEach(p, k);
    }
  }

  /** An image block's capture, kept when it is known and not hidden. */
  function ExportRef(block: Value, known: set<string>, hidden: seq<string>): Option<string> {
    match CaptionId(block)
    case Some(id) => if id in known && id !in hidden then Some(id) else None
    case None => None
  }

  function RefPick(known: set<string>, hidden: seq<string>): Value -> Option<string> {
    block => ExportRef(block, known, hidden)
  }

  /** The ids the image blocks name, in document order, that are known captures and not hidden. */
  function Referenced(blocks: seq<Value>, known: set<string>, hidden: seq<string>): seq<string> {
    FilterMap(blocks, RefPick(known, hidden))
  }

  /** The referenced ids are exactly the known, shown ids some image block names. */
  lemma ReferencedMembers(blocks: seq<Value>, known: set<string>, hidden: seq<string>, x: string)
    ensures x in Referenced(blocks, known, hidden) <==>
      x in known && x !in hidden && exists k :: 0 <= k < |blocks| && CaptionId(blocks[k]) == Some(x)
  {
    FilterMapMembers(blocks, RefPick(known, hidden), x);
    if exists k :: 0 <= k < |blocks| && CaptionId(blocks[k]) == Some(x) {
      var k :| 0 <= k < |blocks| && CaptionId(blocks[k]) == Some(x);
      assert x in known && x !in hidden ==> RefPick(known, hidden)(blocks[k]) == Some(x);
    }
  }

  function ShownPick(hidden: seq<string>): Capture -> Option<string> {
    (c: Capture) => if c.id !in hidden then Some(c.id) else None
  }

  /** The ids of the captures that are not hidden, in capture order. */
  function Shown(captures: seq<Capture>, hidden: seq<string>): seq<string> {
    FilterMap(captures, ShownPick(hidden))
  }

  lemma ShownMembers(captures: seq<Capture>, hidden: seq<string>, x: string)
    ensures x in Shown(captures, hidden) <==> x in CaptureIds(captures) && x !in hidden
  {
    FilterMapMembers(captures, ShownPick(hidden), x);
    if x in CaptureIds(captures) && x !in hidden {
      var k :| 0 <= k < |captures| && CaptureIds(captures)[k] == x;
      assert ShownPick(hidden)(captures[k]) == Some(x);
    }
  }

  /**
   * The export order: first the captures the document's image blocks are attached to, in
   * document order, then every other shown capture in capture order, each id once.
   */
  function ExportIds(captures: seq<Capture>, blocks: seq<Value>, hidden: seq<string>): seq<string> {
    Dedup(Referenced(blocks, ById(captures).Keys, hidden) + Shown(captures, hidden))
  }

  /**
   * Exported ids are distinct, never hidden, and name captures; every shown capture is exported;
   * and the document's own order comes first.
   */
  lemma ExportIdsProperties(captures: seq<Capture>, blocks: seq<Value>, hidden: seq<string>)
    ensures NoDups(ExportIds(captures, blocks, hidden))
    ensures forall x :: x in ExportIds(captures, blocks, hidden) ==> x !in hidden && x in CaptureIds(captures)
    ensures forall k :: 0 <= k < |captures| && captures[k].id !in hidden ==> captures[k].id in ExportIds(captures, blocks, hidden)
    ensures var lead := Dedup(Referenced(blocks, ById(captures).Keys, hidden));
      |lead| <= |ExportIds(captures, blocks, hidden)| && ExportIds(captures, blocks, hidden)[..|lead|] == lead
  {
    var refs := Referenced(blocks, ById(captures).Keys, hidden);
    var shown := Shown(captures, hidden);
    DedupPrefix(refs, shown);
    forall x | x in ExportIds(captures, blocks, hidden) ensures x !in hidden && x in CaptureIds(captures) {
      DedupMembers(refs + shown, x);
      ReferencedMembers(blocks, ById(captures).Keys, hidden, x);
      ShownMembers(captures, hidden, x);
    }
    forall k | 0 <= k < |captures| && captures[k].id !in hidden ensures captures[k].id in ExportIds(captures, blocks, hidden) {
      DedupMembers(refs + shown, captures[k].id);
      ShownMembers(captures, hidden, captures[k].id);
    }
  }

  /** `buildExportCapturesFromWorkspace`: the two passes over blocks and captures, then the lookups. */
  method BuildExportCapturesFromWorkspace(captures: seq<Capture>, raw: Value, hiddenRaw: Value, parse: string -> Option<Value>)
    returns (exported: seq<Capture>)
    ensures var ids := ExportIds(captures, BlocksOf(NormalizeEditorData(raw, "", parse)), HiddenIds(hiddenRaw, captures));
      |exported| == |ids| && forall k :: 0 <= k < |ids| ==> ids[k] in ById(captures) && exported[k] == ById(captures)[ids[k]]
  {
    var hiddenSet := NormalizeHiddenCaptureIds(hiddenRaw, captures);
    exported := ExportCaptures(captures, BlocksOf(NormalizeEditorData(raw, "", parse)), hiddenSet);
  }

  /** The two passes of `buildExportCapturesFromWorkspace` over the normalized blocks and the captures. */
  method ExportCaptures(captures: seq<Capture>, blocks: seq<Value>, hiddenSet: seq<string>) returns (exported: seq<Capture>)
    ensures var ids := ExportIds(captures, blocks, hiddenSet);
      |exported| == |ids| && forall k :: 0 <= k < |ids| ==> ids[k] in ById(captures) && exported[k] == ById(captures)[ids[k]]
  {
    var captureMap := ById(captures);
    var orderedIds := ExportOrder(captures, blocks, hiddenSet, captureMap);
    forall x | x in orderedIds ensures x in captureMap {
      ExportIdsKnown(captures, blocks, hiddenSet, x);
    }
    exported := seq(|orderedIds|, k requires 0 <= k < |orderedIds| => captureMap[orderedIds[k]]);
  }

  /** The ids `buildExportCapturesFromWorkspace` collects: the referenced ones, then the other shown ones. */
  method ExportOrder(captures: seq<Capture>, blocks: seq<Value>, hiddenSet: seq<string>, captureMap: map<string, Capture>)
    returns (orderedIds: seq<string>)
    requires captureMap == ById(captures)
    ensures orderedIds == ExportIds(captures, blocks, hiddenSet)
  {
    var seenIds;
    orderedIds, seenIds := OrderReferenced(blocks, captureMap, hiddenSet);
    ghost var refs := Referenced(blocks, captureMap.Keys, hiddenSet);
    var j := 0;
    assert Shown(captures[..0], hiddenSet) == [] by { assert captures[..0] == []; }
    assert refs + Shown(captures[..0], hiddenSet) == refs;
    while j < |captures|
      invariant 0 <= j <= |captures|
      invariant orderedIds == Dedup(refs + Shown(captures[..j], hiddenSet))
      invariant forall x :: x in seenIds <==> x in orderedIds
    {
      ShownStep(refs, captures, j, hiddenSet);
      var id := captures[j].id;
      if id !in hiddenSet && id !in seenIds {
        orderedIds := orderedIds + [id];
        seenIds := seenIds + {id};
      }
      j := j + 1;
    }
    assert captures[..j] == captures;
  }

  /** Every exported id names a capture. */
  lemma ExportIdsKnown(captures: seq<Capture>, blocks: seq<Value>, hidden: seq<string>, x: string)
    requires x in Dedup(Referenced(blocks, ById(captures).Keys, hidden) + Shown(captures, hidden))
    ensures x in ById(captures)
  {
    DedupMembers(Referenced(blocks, ById(captures).Keys, hidden) + Shown(captures, hidden), x);
    ReferencedMembers(blocks, ById(captures).Keys, hidden, x);
    ShownMembers(captures, hidden, x);
  }

  /** The first pass of `buildExportCapturesFromWorkspace`: the captures the image blocks name, once each. */
  method OrderReferenced(blocks: seq<Value>, captureMap: map<string, Capture>, hiddenSet: seq<string>)
    returns (orderedIds: seq<string>, seenIds: set<string>)
    ensures orderedIds == Dedup(Referenced(blocks, captureMap.Keys, hiddenSet))
    ensures forall x :: x in seenIds <==> x in orderedIds
  {
    orderedIds := [];
    seenIds := {};
    var i := 0;
    while i < |blocks|
      invariant 0 <= i <= |blocks|
      invariant orderedIds == Dedup(Referenced(blocks[..i], captureMap.Keys, hiddenSet))
      invariant forall x :: x in seenIds <==> x in orderedIds
    {
      ReferencedStep(blocks, i, captureMap.Keys, hiddenSet);
      var named := ExportRef(blocks[i], captureMap.Keys, hiddenSet);
      var admitted := named.Some? && named.value !in seenIds;
      orderedIds := orderedIds + (if admitted then [named.value] else []);
      seenIds := seenIds + (if admitted then {named.value} else {});
      i := i + 1;
    }
    assert blocks[..i] == blocks;
  }

  /** One more block adds the capture it names, when that capture is exported and not yet listed. */
  lemma ReferencedStep(blocks: seq<Value>, i: nat, known: set<string>, hidden: seq<string>)
    requires i < |blocks|
    ensures var before := Dedup(Referenced(blocks[..i], known, hidden));
      var named := ExportRef(blocks[i], known, hidden);
      Dedup(Referenced(blocks[..i + 1], known, hidden)) ==
        if named.Some? && named.value !in before then before + [named.value] else before
  {
    DedupFilterMapStep(blocks, i, RefPick(known, hidden));
  }

  lemma ShownStep(refs: seq<string>, captures: seq<Capture>, j: nat, hidden: seq<string>)
    requires j < |captures|
    ensures var before := Dedup(refs + Shown(captures[..j], hidden));
      var id := captures[j].id;
      Dedup(refs + Shown(captures[..j + 1], hidden)) ==
        if id !in hidden && id !in before then before + [id] else before
  {
    var p := refs + Shown(captures[..j], hidden);
    var id := captures[j].id;
    assert captures[..j + 1] == captures[..j] + [captures[j]];
    FilterMapSnoc(captures[..j], captures[j], ShownPick(hidden));
    if id !in hidden {
      assert p + [id] == refs + Shown(captures[..j + 1], hidden);
      DedupSnoc(p, id);
      DedupMembers(p, id);
    }
  }
}
