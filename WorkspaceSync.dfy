/**
 * Keeping the workspace document in step with the capture list (`syncWorkspaceBlocksWithCaptures`
 * in src/review/App.jsx): image blocks of deleted or hidden captures are dropped, the surviving
 * ones get the capture's current image and caption, and every capture not yet in the document is
 * appended as a heading, an image and a note paragraph.
 *
 * `formatDateTime` is the caller's `dateText` function.
 */
module WorkspaceSync {
  import opened Wrappers
  import opened ListOps
  import opened Text
  import opened Json
  import opened Html
  import opened EditorData
  import opened CaptureMarker
  import opened Templates
  import opened Workspace

  /** `escapeHtml(text).replace(/\n/g, "<br />")`. */
  function BrText(text: string): string {
    ReplaceAll(EscapeHtml(text), '\n', "<br />")
  }

  /** `buildInitialWorkspaceBlocks(overview).blocks`: an "Overview" heading and the overview text. */
  function InitialBlocks(overview: string): (r: seq<Value>)
    ensures |r| == 2 && forall k :: 0 <= k < 2 ==> CaptionId(r[k]).None?
  {
    var r := [ParagraphBlock("<b>Overview</b>"), ParagraphBlock(BrText(overview))];
    assert Get(r[0], "type") == Str("paragraph") && Get(r[1], "type") == Str("paragraph");
    r
  }

  /** The bold metadata line: type label, address (or title, or "Page") and date, joined by " • ". */
  function MetadataLine(c: Capture, dateText: int -> string): string {
    var place := if c.url != "" then c.url else if c.title != "" then c.title else "Page";
    Join([EscapeHtml(CaptureTypeLabel(c.captureType)), EscapeHtml(place), EscapeHtml(dateText(c.createdAt))], " • ")
  }

  /** The display flags of a new capture image, all off. */
  const ImageFlags: seq<Field> := [Field("withBorder", Bool(false)), Field("withBackground", Bool(false)), Field("stretched", Bool(false))]

  /** The `data` of a new capture image block: its file, its caption, then the flags. */
  function NewImageData(c: Capture): Value {
    Obj([Field("file", Obj([Field("url", Str(c.imageData))])), Field("caption", Str(BuildCaptureImageCaption(c.id, c.title, "")))] + ImageFlags)
  }

  /** `buildCaptureEditorBlocks(capture)`. */
  function CaptureEditorBlocks(c: Capture, dateText: int -> string): seq<Value> {
    [
      ParagraphBlock("<b>" + MetadataLine(c, dateText) + "</b>"),
      Block("image", NewImageData(c)),
      ParagraphBlock(BrText(c.note))
    ]
  }

  /** An image block with data laid out as `NewImageData` lays it out names what its caption names. */
  lemma ImageBlockCaption(file: Value, caption: string, rest: seq<Field>)
    ensures CaptionId(Block("image", Obj([Field("file", file), Field("caption", Str(caption))] + rest))) == ParseCaptureId(caption)
  {
    var fields := [Field("file", file), Field("caption", Str(caption))] + rest;
    assert fields[0].key[0] != "caption"[0];
    assert Lookup(fields, "caption") == Lookup(fields[1..], "caption");
    assert fields[1..][0] == Field("caption", Str(caption));
    assert Lookup(fields[1..], "caption") == Str(caption);
  }

  /** A block whose type is not "image" carries no marker. */
  lemma NonImageBlock(kind: string, data: Value)
    requires kind != "image"
    ensures CaptionId(Block(kind, data)).None?
  {
  }

  /** Of the three blocks a capture gets, only the image carries a marker, and it is the capture's own. */
  lemma CaptureEditorBlocksCaption(c: Capture, dateText: int -> string)
    requires c.id != [] && ']' !in c.id
    ensures var bs := CaptureEditorBlocks(c, dateText);
      |bs| == 3 && CaptionId(bs[0]).None? && CaptionId(bs[1]) == Some(c.id) && CaptionId(bs[2]).None?
  {
    ImageBlockCaption(Obj([Field("url", Str(c.imageData))]), BuildCaptureImageCaption(c.id, c.title, ""), ImageFlags);
    BuildCaptionNamesCapture(c.id, c.title, "");
    NonImageBlock("paragraph", Obj([Field("text", Str("<b>" + MetadataLine(c, dateText) + "</b>"))]));
    NonImageBlock("paragraph", Obj([Field("text", Str(BrText(c.note)))]));
  }

  /**
   * An attached image block brought up to date: `file.url` becomes the capture's image and the
   * caption is rebuilt around the capture's marker; every other property is kept.
   */
  function RefreshedImage(block: Value, c: Capture): Value {
    var data := Get(block, "data");
    var file := Put(Obj(SpreadFields(Get(data, "file"))), "url", Str(c.imageData));
    var caption := BuildCaptureImageCaption(c.id, c.title, TextOr(Get(data, "caption")));
    Put(Obj(SpreadFields(block)), "data", Put(Put(Obj(SpreadFields(data)), "file", file), "caption", Str(caption)))
  }

  /** A refreshed image block is still an image and names the same capture. */
  lemma RefreshedImageCaption(block: Value, c: Capture)
    requires c.id != [] && ']' !in c.id
    requires Get(block, "type") == Str("image")
    ensures CaptionId(RefreshedImage(block, c)) == Some(c.id)
  {
    RefreshedImageFields(block, c);
    BuildCaptionNamesCapture(c.id, c.title, TextOr(Get(Get(block, "data"), "caption")));
  }

  /** Refreshing keeps the block's type and gives it the rebuilt caption. */
  lemma RefreshedImageFields(block: Value, c: Capture)
    requires block.Obj?
    ensures var r := RefreshedImage(block, c);
      Get(r, "type") == Get(block, "type") &&
      Get(Get(r, "data"), "caption") == Str(BuildCaptureImageCaption(c.id, c.title, TextOr(Get(Get(block, "data"), "caption"))))
  {
    var data := Get(block, "data");
    var file := Put(Obj(SpreadFields(Get(data, "file"))), "url", Str(c.imageData));
    var caption := BuildCaptureImageCaption(c.id, c.title, TextOr(Get(data, "caption")));
    var newData := Put(Put(Obj(SpreadFields(data)), "file", file), "caption", Str(caption));
    var r := Put(Obj(SpreadFields(block)), "data", newData);
    assert r == RefreshedImage(block, c);
    assert "type" != "data" by { assert "type"[0] != "data"[0]; }
    assert Get(r, "type") == Get(Obj(SpreadFields(block)), "type");
    assert Get(r, "data") == newData;
  }

  /** What the first pass does with one block: keep, drop, or keep refreshed. */
  function KeepBlock(block: Value, byId: map<string, Capture>, hidden: seq<string>): Option<Value> {
    match CaptionId(block)
    case None => Some(block)
    case Some(id) => if id !in byId || id in hidden then None else Some(RefreshedImage(block, byId[id]))
  }

  function KeepPick(byId: map<string, Capture>, hidden: seq<string>): Value -> Option<Value> {
    block => KeepBlock(block, byId, hidden)
  }

  /** The blocks the first pass keeps. */
  function KeptBlocks(blocks: seq<Value>, byId: map<string, Capture>, hidden: seq<string>): seq<Value> {
    FilterMap(blocks, KeepPick(byId, hidden))
  }

  /** The blocks appended for the captures that are neither attached nor hidden, in capture order. */
  function AppendedBlocks(captures: seq<Capture>, attached: seq<string>, hidden: seq<string>, dateText: int -> string): seq<Value> {
    FlatMap(captures, AppendPick(attached, hidden, dateText))
  }

  /** The blocks one capture contributes: none when it is attached or hidden, else its three. */
  function AppendChunk(c: Capture, attached: seq<string>, hidden: seq<string>, dateText: int -> string): seq<Value> {
    if c.id in attached || c.id in hidden then [] else CaptureEditorBlocks(c, dateText)
  }

  function AppendPick(attached: seq<string>, hidden: seq<string>, dateText: int -> string): Capture -> seq<Value> {
    (c: Capture) => AppendChunk(c, attached, hidden, dateText)
  }

  /** The blocks of the synced document. */
  function SyncedBlocks(blocks: seq<Value>, captures: seq<Capture>, overview: string, hidden: seq<string>, dateText: int -> string): seq<Value> {
    var byId := ById(captures);
    var kept := KeptBlocks(blocks, byId, hidden);
    var attached := Referenced(blocks, byId.Keys, hidden);
    (if kept == [] then InitialBlocks(overview) else kept) + AppendedBlocks(captures, attached, hidden, dateText)
  }

  /** `syncWorkspaceBlocksWithCaptures`: the normalized document with its blocks replaced. */
  method SyncWorkspaceBlocksWithCaptures(raw: Value, captures: seq<Capture>, overview: string, hiddenRaw: Value,
                                         parse: string -> Option<Value>, dateText: int -> string)
    returns (doc: Value)
    ensures var normalized := NormalizeEditorData(raw, "", parse);
      doc == Put(normalized, "blocks", Arr(SyncedBlocks(BlocksOf(normalized), captures, overview, HiddenIds(hiddenRaw, captures), dateText)))
  {
    var normalized := NormalizeEditorData(raw, "", parse);
    var hiddenSet := NormalizeHiddenCaptureIds(hiddenRaw, captures);
    var nextBlocks := SyncBlocks(BlocksOf(normalized), captures, overview, hiddenSet, dateText);
    doc := Put(normalized, "blocks", Arr(nextBlocks));
  }

  /** The passes of `syncWorkspaceBlocksWithCaptures` over the normalized blocks and the captures. */
  method SyncBlocks(blocks: seq<Value>, captures: seq<Capture>, overview: string, hiddenSet: seq<string>, dateText: int -> string)
    returns (nextBlocks: seq<Value>)
    ensures nextBlocks == SyncedBlocks(blocks, captures, overview, hiddenSet, dateText)
  {
    var capturesById := ById(captures);
    var keptBlocks, attachedCaptureIds := KeepAttached(blocks, capturesById, hiddenSet);
    nextBlocks := keptBlocks;
    if |nextBlocks| == 0 {
      nextBlocks := InitialBlocks(overview);
    }
    ghost var seeded := nextBlocks;
    ghost var attached := Referenced(blocks, capturesById.Keys, hiddenSet);
    assert captures[..|captures|] == captures;
    assert seeded + AppendedBlocks(captures[..0], attached, hiddenSet, dateText) == seeded by {
      assert captures[..0] == [];
    }
    var j := 0;
    while j < |captures|
      invariant 0 <= j <= |captures|
      invariant nextBlocks == seeded + AppendedBlocks(captures[..j], attached, hiddenSet, dateText)
    {
      var c := captures[j];
      AppendedStep(captures, j, attached, hiddenSet, dateText);
      ElemsMembers(attached, c.id);
      var chunk := if c.id in attachedCaptureIds || c.id in hiddenSet then [] else CaptureEditorBlocks(c, dateText);
      assert chunk == AppendChunk(c, attached, hiddenSet, dateText);
      ConcatAssoc(seeded, AppendedBlocks(captures[..j], attached, hiddenSet, dateText), chunk);
      nextBlocks := nextBlocks + chunk;
      j := j + 1;
    }
  }

  /** The first pass: the kept blocks, and the set of captures whose image blocks were kept. */
  method KeepAttached(blocks: seq<Value>, capturesById: map<string, Capture>, hiddenSet: seq<string>)
    returns (keptBlocks: seq<Value>, attached: set<string>)
    ensures keptBlocks == KeptBlocks(blocks, capturesById, hiddenSet)
    ensures attached == Elems(Referenced(blocks, capturesById.Keys, hiddenSet))
  {
    keptBlocks := [];
    attached := {};
    assert blocks[..|blocks|] == blocks;
    var i := 0;
    while i < |blocks|
      invariant 0 <= i <= |blocks|
      invariant keptBlocks == KeptBlocks(blocks[..i], capturesById, hiddenSet)
      invariant attached == Elems(Referenced(blocks[..i], capturesById.Keys, hiddenSet))
    {
      KeepStep(blocks, i, capturesById, hiddenSet);
      var kept := KeepBlock(blocks[i], capturesById, hiddenSet);
      var named := ExportRef(blocks[i], capturesById.Keys, hiddenSet);
      ElemsSnoc(Referenced(blocks[..i], capturesById.Keys, hiddenSet), named);
      attached := attached + (if named.Some? then {named.value} else {});
      keptBlocks := keptBlocks + (if kept.Some? then [kept.value] else []);
      i := i + 1;
    }
  }

  /** One more block: its kept form, if any, joins the kept blocks, and its capture, if kept, the attached ones. */
  lemma KeepStep(blocks: seq<Value>, i: nat, byId: map<string, Capture>, hidden: seq<string>)
    requires i < |blocks|
    ensures var kept := KeepBlock(blocks[i], byId, hidden);
      KeptBlocks(blocks[..i + 1], byId, hidden) == KeptBlocks(blocks[..i], byId, hidden) + (if kept.Some? then [kept.value] else [])
    ensures var named := ExportRef(blocks[i], byId.Keys, hidden);
      Referenced(blocks[..i + 1], byId.Keys, hidden) == Referenced(blocks[..i], byId.Keys, hidden) + (if named.Some? then [named.value] else [])
  {
    assert blocks[..i + 1] == blocks[..i] + [blocks[i]];
    FilterMapSnoc(blocks[..i], blocks[i], KeepPick(byId, hidden));
    FilterMapSnoc(blocks[..i], blocks[i], RefPick(byId.Keys, hidden));
  }

  lemma AppendedStep(captures: seq<Capture>, j: nat, attached: seq<string>, hidden: seq<string>, dateText: int -> string)
    requires j < |captures|
    ensures AppendedBlocks(captures[..j + 1], attached, hidden, dateText) ==
      AppendedBlocks(captures[..j], attached, hidden, dateText) + AppendChunk(captures[j], attached, hidden, dateText)
  {
    assert captures[..j + 1] == captures[..j] + [captures[j]];
    FlatMapSnoc(captures[..j], captures[j], AppendPick(attached, hidden, dateText));
  }

  // ---------------------------------------------------------------------------
  // What syncing guarantees
  // ---------------------------------------------------------------------------

  /** Capture ids as the store makes them (UUIDs): non-empty and free of `]`. */
  predicate MarkableIds(captures: seq<Capture>) {
    forall k :: 0 <= k < |captures| ==> captures[k].id != [] && ']' !in captures[k].id
  }

  /** The only marker among one capture's appended blocks is that capture's own. */
  lemma ChunkCaption(c: Capture, attached: seq<string>, hidden: seq<string>, dateText: int -> string, b: Value)
    requires c.id != [] && ']' !in c.id
    requires b in AppendChunk(c, attached, hidden, dateText) && CaptionId(b).Some?
    ensures CaptionId(b) == Some(c.id) && c.id !in attached && c.id !in hidden
  {
    CaptureEditorBlocksCaption(c, dateText);
    OnlyMarker(CaptureEditorBlocks(c, dateText), c.id, b);
  }

  lemma OnlyMarker(bs: seq<Value>, id: string, b: Value)
    requires |bs| == 3 && CaptionId(bs[0]).None? && CaptionId(bs[1]) == Some(id) && CaptionId(bs[2]).None?
    requires b in bs && CaptionId(b).Some?
    ensures CaptionId(b) == Some(id)
  {
    assert bs[0] != b && bs[2] != b by {
      assert CaptionId(bs[0]) != CaptionId(b) && CaptionId(bs[2]) != CaptionId(b);
    }
    var i :| 0 <= i < |bs| && bs[i] == b;
    assert i != 0 && i != 2;
  }

  /** Every appended image names an appended capture; nothing else appended carries a marker. */
  lemma AppendedCaptions(captures: seq<Capture>, attached: seq<string>, hidden: seq<string>, dateText: int -> string, b: Value)
    requires MarkableIds(captures)
    requires b in AppendedBlocks(captures, attached, hidden, dateText) && CaptionId(b).Some?
    ensures CaptionId(b).value in CaptureIds(captures) && CaptionId(b).value !in hidden && CaptionId(b).value !in attached
  {
    FlatMapMembers(captures, AppendPick(attached, hidden, dateText), b);
    var k :| 0 <= k < |captures| && b in AppendPick(attached, hidden, dateText)(captures[k]);
    ChunkCaption(captures[k], attached, hidden, dateText, b);
    assert CaptureIds(captures)[k] == captures[k].id;
  }

  /** A capture that is neither attached nor hidden gets its three blocks appended. */
  lemma AppendedHasCapture(captures: seq<Capture>, attached: seq<string>, hidden: seq<string>, dateText: int -> string, k: nat)
    requires k < |captures| && captures[k].id !in attached && captures[k].id !in hidden
    ensures CaptureEditorBlocks(captures[k], dateText)[1] in AppendedBlocks(captures, attached, hidden, dateText)
  {
    var b := CaptureEditorBlocks(captures[k], dateText)[1];
    assert b in AppendChunk(captures[k], attached, hidden, dateText);
    FlatMapMembers(captures, AppendPick(attached, hidden, dateText), b);
  }

  /** A kept block either carries no marker or names a known capture that is not hidden. */
  lemma KeptCaption(blocks: seq<Value>, captures: seq<Capture>, hidden: seq<string>, b: Value)
    requires MarkableIds(captures)
    requires b in KeptBlocks(blocks, ById(captures), hidden) && CaptionId(b).Some?
    ensures CaptionId(b).value in CaptureIds(captures) && CaptionId(b).value !in hidden
  {
    var byId := ById(captures);
    FilterMapMembers(blocks, KeepPick(byId, hidden), b);
    var k :| 0 <= k < |blocks| && KeepPick(byId, hidden)(blocks[k]) == Some(b);
    var id := CaptionId(blocks[k]).value;
    assert b == RefreshedImage(blocks[k], byId[id]);
    var i :| 0 <= i < |captures| && captures[i] == byId[id];
    RefreshedImageCaption(blocks[k], byId[id]);
  }

  /**
   * After syncing, every image block with a marker names one of the captures, and never a hidden
   * one: the images of deleted and hidden captures are gone.
   */
  lemma SyncDropsDeletedAndHidden(blocks: seq<Value>, captures: seq<Capture>, overview: string, hidden: seq<string>, dateText: int -> string, b: Value)
    requires MarkableIds(captures)
    requires b in SyncedBlocks(blocks, captures, overview, hidden, dateText) && CaptionId(b).Some?
    ensures CaptionId(b).value in CaptureIds(captures) && CaptionId(b).value !in hidden
  {
    var byId := ById(captures);
    var kept := KeptBlocks(blocks, byId, hidden);
    var attached := Referenced(blocks, byId.Keys, hidden);
    var head := if kept == [] then InitialBlocks(overview) else kept;
    if b in head {
      if kept != [] {
        KeptCaption(blocks, captures, hidden, b);
      }
    } else {
      AppendedCaptions(captures, attached, hidden, dateText, b);
    }
  }

  /** After syncing, every capture that is not hidden has an image block naming it. */
  lemma SyncShowsEveryCapture(blocks: seq<Value>, captures: seq<Capture>, overview: string, hidden: seq<string>, dateText: int -> string, k: nat)
    requires MarkableIds(captures)
    requires k < |captures| && captures[k].id !in hidden
    ensures exists b :: b in SyncedBlocks(blocks, captures, overview, hidden, dateText) && CaptionId(b) == Some(captures[k].id)
  {
    var byId := ById(captures);
    var id := captures[k].id;
    var kept := KeptBlocks(blocks, byId, hidden);
    var attached := Referenced(blocks, byId.Keys, hidden);
    var synced := SyncedBlocks(blocks, captures, overview, hidden, dateText);
    var head := if kept == [] then InitialBlocks(overview) else kept;
    assert synced == head + AppendedBlocks(captures, attached, hidden, dateText);
    ReferencedMembers(blocks, byId.Keys, hidden, id);
    if id in attached {
      var q :| 0 <= q < |blocks| && CaptionId(blocks[q]) == Some(id);
      var c := byId[id];
      var i :| 0 <= i < |captures| && captures[i] == c;
      var b := RefreshedImage(blocks[q], c);
      assert KeepPick(byId, hidden)(blocks[q]) == Some(b);
      FilterMapMembers(blocks, KeepPick(byId, hidden), b);
      RefreshedImageCaption(blocks[q], c);
      assert b in synced;
    } else {
      AppendedHasCapture(captures, attached, hidden, dateText, k);
      CaptureEditorBlocksCaption(captures[k], dateText);
      assert CaptureEditorBlocks(captures[k], dateText)[1] in synced;
    }
  }

  /** Blocks without a marker survive syncing unchanged. */
  lemma SyncKeepsUnmarkedBlocks(blocks: seq<Value>, captures: seq<Capture>, overview: string, hidden: seq<string>, dateText: int -> string, k: nat)
    requires k < |blocks| && CaptionId(blocks[k]).None?
    ensures blocks[k] in SyncedBlocks(blocks, captures, overview, hidden, dateText)
  {
    var byId := ById(captures);
    assert KeepPick(byId, hidden)(blocks[k]) == Some(blocks[k]);
    FilterMapMembers(blocks, KeepPick(byId, hidden), blocks[k]);
  }

  /** A document left without blocks is seeded with the overview before the captures are appended. */
  lemma SyncSeedsEmptyDocument(blocks: seq<Value>, captures: seq<Capture>, overview: string, hidden: seq<string>, dateText: int -> string)
    requires KeptBlocks(blocks, ById(captures), hidden) == []
    ensures var synced := SyncedBlocks(blocks, captures, overview, hidden, dateText);
      |synced| >= 2 && synced[..2] == InitialBlocks(overview)
  {
  }
}
