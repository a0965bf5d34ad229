/**
 * Reading the workspace document back (`extractWorkspaceSummaryAndNotes` in src/review/App.jsx):
 * the text before the first capture image becomes the overview, and the text after each capture
 * image, up to the next one, becomes that capture's note.
 */
module WorkspaceNotes {
  import opened Wrappers
  import opened ListOps
  import opened Text
  import opened Json
  import opened EditorData
  import opened Workspace

  /** An image block whose caption carries a capture marker. */
  predicate IsCaptureImage(block: Value) {
    CaptionId(block).Some?
  }

  function CaptureImagePick(): Value -> bool {
    block => IsCaptureImage(block)
  }

  /** The first capture image at or after `from`; `|blocks|` when there is none. */
  function NextCaptureImage(blocks: seq<Value>, from: nat): (r: nat)
    requires from <= |blocks|
    ensures from <= r <= |blocks|
  {
    FirstFrom(blocks, from, CaptureImagePick())
  }

  /** Between `from` and what `NextCaptureImage` finds there is no capture image, and it is one. */
  lemma NextCaptureImageFinds(blocks: seq<Value>, from: nat)
    requires from <= |blocks|
    ensures forall k :: from <= k < NextCaptureImage(blocks, from) ==> !IsCaptureImage(blocks[k])
    ensures NextCaptureImage(blocks, from) < |blocks| ==> IsCaptureImage(blocks[NextCaptureImage(blocks, from)])
  {
    var r := NextCaptureImage(blocks, from);
    forall k | from <= k < r
      ensures !IsCaptureImage(blocks[k])
    {
      assert !CaptureImagePick()(blocks[k]);
    }
    if r < |blocks| {
      assert CaptureImagePick()(blocks[r]);
    }
  }

  /** A block that is not a capture image does not stop the search. */
  lemma NextCaptureImageSkips(blocks: seq<Value>, i: nat)
    requires i < |blocks| && !IsCaptureImage(blocks[i])
    ensures NextCaptureImage(blocks, i) == NextCaptureImage(blocks, i + 1)
  {
    assert !CaptureImagePick()(blocks[i]);
  }

  /** The search stops at a capture image, or at the end. */
  lemma NextCaptureImageStops(blocks: seq<Value>, i: nat)
    requires i <= |blocks| && (i == |blocks| || IsCaptureImage(blocks[i]))
    ensures NextCaptureImage(blocks, i) == i
  {
    if i < |blocks| {
      assert CaptureImagePick()(blocks[i]);
    }
  }

  /** `editorDataToPlainText({ blocks: [block] })`: the text of the block once copied by normalization. */
  function BlockText(block: Value): string {
    PlainText([NormalizeBlock(block)])
  }

  /** The plain text of a one-block document, whatever `parse` is, is that block's text. */
  lemma SingleBlockText(block: Value, parse: string -> Option<Value>)
    ensures PlainText(BlocksOf(NormalizeEditorData(Document([block]), "", parse))) == BlockText(block)
  {
    var doc := Document([block]);
    assert Get(doc, "blocks") == Arr([block]);
    var r := NormalizeEditorData(doc, "", parse);
    assert BlocksOf(r) == [NormalizeBlock(block)];
  }

  function TextPick(): Value -> Option<string> {
    block => if BlockText(block) != "" then Some(BlockText(block)) else None
  }

  /** The non-empty texts of some blocks, in order (`if (text) parts.push(text)`). */
  function Parts(blocks: seq<Value>): seq<string> {
    FilterMap(blocks, TextPick())
  }

  /** `parts.join("\n\n").trim()`. */
  function SectionText(blocks: seq<Value>): string {
    Trim(Join(Parts(blocks), "\n\n"))
  }

  /** The overview: the text of every block before the first capture image. */
  function Overview(blocks: seq<Value>): string {
    SectionText(blocks[0..NextCaptureImage(blocks, 0)])
  }

  /** The note of the capture image at `index`: the text of the blocks up to the next capture image. */
  function Note(blocks: seq<Value>, index: nat): string
    requires index < |blocks|
  {
    SectionText(blocks[index + 1..NextCaptureImage(blocks, index + 1)])
  }

  /** The capture each block's image names, position by position. */
  function Markers(blocks: seq<Value>): (r: seq<Option<string>>)
    ensures |r| == |blocks| && forall k :: 0 <= k < |blocks| ==> r[k] == CaptionId(blocks[k])
  {
    seq(|blocks|, k requires 0 <= k < |blocks| => CaptionId(blocks[k]))
  }

  /** The note each block would start, position by position. */
  function Notes(blocks: seq<Value>): (r: seq<string>)
    ensures |r| == |blocks| && forall k :: 0 <= k < |blocks| ==> r[k] == Note(blocks, k)
  {
    seq(|blocks|, k requires 0 <= k < |blocks| => Note(blocks, k))
  }

  /** `captureNotes` after the first `n` blocks: each capture image sets its capture's note. */
  function NotesUpTo(blocks: seq<Value>, n: nat): map<string, string>
    requires n <= |blocks|
  {
    LastWins(Markers(blocks), Notes(blocks), n)
  }

  // ---------------------------------------------------------------------------
  // The extraction, loop by loop
  // ---------------------------------------------------------------------------

  /** `extractWorkspaceSummaryAndNotes(workspaceBlocks)` on the normalized document. */
  method ExtractWorkspaceSummaryAndNotes(raw: Value, parse: string -> Option<Value>)
    returns (overviewText: string, captureNotes: map<string, string>)
    ensures var blocks := BlocksOf(NormalizeEditorData(raw, "", parse));
      overviewText == Overview(blocks) && captureNotes == NotesUpTo(blocks, |blocks|)
  {
    var normalizedWorkspaceData := NormalizeEditorData(raw, "", parse);
    var blocks := BlocksOf(normalizedWorkspaceData);
    overviewText, captureNotes := ExtractFrom(blocks, parse);
  }

  /** The three passes over the blocks. */
  method ExtractFrom(blocks: seq<Value>, parse: string -> Option<Value>)
    returns (overviewText: string, captureNotes: map<string, string>)
    ensures overviewText == Overview(blocks)
    ensures captureNotes == NotesUpTo(blocks, |blocks|)
  {
    var firstCaptureImageIndex := 0;
    while firstCaptureImageIndex < |blocks| && !IsCaptureImage(blocks[firstCaptureImageIndex])
      invariant 0 <= firstCaptureImageIndex <= |blocks|
      invariant NextCaptureImage(blocks, firstCaptureImageIndex) == NextCaptureImage(blocks, 0)
    {
      NextCaptureImageSkips(blocks, firstCaptureImageIndex);
      firstCaptureImageIndex := firstCaptureImageIndex + 1;
    }
    NextCaptureImageStops(blocks, firstCaptureImageIndex);
    var overviewTextParts := CollectParts(blocks, firstCaptureImageIndex, parse);

    captureNotes := CollectNotes(blocks, parse);
    overviewText := Trim(Join(overviewTextParts, "\n\n"));
  }

  /** The third pass: every capture image sets the note of the capture it names. */
  method CollectNotes(blocks: seq<Value>, parse: string -> Option<Value>) returns (captureNotes: map<string, string>)
    ensures captureNotes == NotesUpTo(blocks, |blocks|)
  {
    captureNotes := map[];
    var index := 0;
    while index < |blocks|
      invariant 0 <= index <= |blocks|
      invariant captureNotes == NotesUpTo(blocks, index)
    {
      NotesStep(blocks, index);
      var captureId := CaptionId(blocks[index]);
      if captureId.Some? {
        var noteParts := SectionParts(blocks, index + 1, parse);
        captureNotes := captureNotes[captureId.value := Trim(Join(noteParts, "\n\n"))];
      }
      index := index + 1;
    }
  }

  lemma NotesStep(blocks: seq<Value>, index: nat)
    requires index < |blocks|
    ensures var id := CaptionId(blocks[index]);
      NotesUpTo(blocks, index + 1) ==
        if id.Some? then NotesUpTo(blocks, index)[id.value := Note(blocks, index)] else NotesUpTo(blocks, index)
  {
    var markers, notes := Markers(blocks), Notes(blocks);
    LastWinsStep(markers, notes, index);
    assert markers[index] == CaptionId(blocks[index]);
    assert notes[index] == Note(blocks, index);
  }

  /** `editorDataToPlainText({ blocks: [block] })`. */
  method BlockPlainText(block: Value, parse: string -> Option<Value>) returns (text: string)
    ensures text == BlockText(block)
  {
    text := EditorDataToPlainText(Document([block]), parse);
    SingleBlockText(block, parse);
  }

  /**
   * The inner loop of a note: the non-empty texts from `from` on, stopping (`break`) at the next
   * capture image.
   */
  method SectionParts(blocks: seq<Value>, from: nat, parse: string -> Option<Value>) returns (noteParts: seq<string>)
    requires from <= |blocks|
    ensures noteParts == Parts(blocks[from..NextCaptureImage(blocks, from)])
  {
    var rest := blocks[from..];
    noteParts := [];
    var k := 0;
    assert rest[..0] == [];
    while k < |rest|
      invariant k <= |rest|
      invariant NextCaptureImage(blocks, from + k) == NextCaptureImage(blocks, from)
      invariant noteParts == Parts(rest[..k])
    {
      var stop;
      stop, noteParts := NoteStep(blocks, from, k, noteParts, parse);
      if stop {
        break;
      }
      k := k + 1;
    }
    assert rest[..k] == blocks[from..from + k];
  }

  /**
   * One block after a capture image: a capture image ends the note (`break`); any other block's
   * text joins the note's parts when it is not empty.
   */
  method NoteStep(blocks: seq<Value>, from: nat, k: nat, parts: seq<string>, parse: string -> Option<Value>)
    returns (stop: bool, r: seq<string>)
    requires from + k < |blocks| && parts == Parts(blocks[from..][..k])
    ensures stop == IsCaptureImage(blocks[from + k])
    ensures stop ==> NextCaptureImage(blocks, from + k) == from + k && r == parts
    ensures !stop ==> NextCaptureImage(blocks, from + k + 1) == NextCaptureImage(blocks, from + k)
    ensures !stop ==> r == Parts(blocks[from..][..k + 1])
  {
    if IsCaptureImage(blocks[from + k]) {
      NextCaptureImageStops(blocks, from + k);
      return true, parts;
    }
    NextCaptureImageSkips(blocks, from + k);
    stop := false;
    r := AddPart(blocks[from..], k, parts, parse);
  }

  /** The non-empty texts of the first `hi` blocks, one `editorDataToPlainText` call per block. */
  method CollectParts(blocks: seq<Value>, hi: nat, parse: string -> Option<Value>) returns (parts: seq<string>)
    requires hi <= |blocks|
    ensures parts == Parts(blocks[..hi])
  {
    parts := [];
    var i := 0;
    assert blocks[..0] == [];
    while i < hi
      invariant i <= hi
      invariant parts == Parts(blocks[..i])
    {
      var text := BlockPlainText(blocks[i], parse);
      PartsPrefixStep(blocks, i);
      if text != "" {
        parts := parts + [text];
      }
      i := i + 1;
    }
  }

  /** One block of a section: its text joins the parts when it is not empty. */
  method AddPart(blocks: seq<Value>, i: nat, parts: seq<string>, parse: string -> Option<Value>) returns (r: seq<string>)
    requires i < |blocks| && parts == Parts(blocks[..i])
    ensures r == Parts(blocks[..i + 1])
  {
    var text := BlockPlainText(blocks[i], parse);
    PartsPrefixStep(blocks, i);
    r := parts + (if text != "" then [text] else []);
  }

  lemma PartsPrefixStep(blocks: seq<Value>, i: nat)
    requires i < |blocks|
    ensures Parts(blocks[..i + 1]) == Parts(blocks[..i]) + (if BlockText(blocks[i]) != "" then [BlockText(blocks[i])] else [])
  {
    assert blocks[..i + 1] == blocks[..i] + [blocks[i]];
    FilterMapSnoc(blocks[..i], blocks[i], TextPick());
  }

  // ---------------------------------------------------------------------------
  // What the extraction gives back
  // ---------------------------------------------------------------------------

  /** Notes are kept for exactly the attached captures: those some capture image names. */
  lemma NotesKeysAreAttached(blocks: seq<Value>, x: string)
    ensures x in NotesUpTo(blocks, |blocks|) <==> x in AttachedIds(blocks)
  {
    var markers := Markers(blocks);
    LastWinsKeys(markers, Notes(blocks), |blocks|, x);
    AttachedIdsMembers(blocks, x);
    if x in AttachedIds(blocks) {
      var k :| 0 <= k < |blocks| && CaptionId(blocks[k]) == Some(x);
      assert markers[k] == Some(x);
    }
  }

  /** When several images name one capture, the last of them decides its note. */
  lemma LastImageDecides(blocks: seq<Value>, k: nat, x: string)
    requires k < |blocks| && CaptionId(blocks[k]) == Some(x)
    requires forall j :: k < j < |blocks| ==> CaptionId(blocks[j]) != Some(x)
    ensures x in NotesUpTo(blocks, |blocks|) && NotesUpTo(blocks, |blocks|)[x] == Note(blocks, k)
  {
    var markers := Markers(blocks);
    assert forall j :: k < j < |blocks| ==> markers[j] != Some(x);
    LastWinsLast(markers, Notes(blocks), |blocks|, k, x);
  }

  /** A block's text is its plain text once its `data` is an object. */
  lemma BlockTextIsBlockPlainText(block: Value)
    ensures BlockText(block) == GetBlockPlainText(NormalizeBlock(block))
  {
    var b := NormalizeBlock(block);
    var t := GetBlockPlainText(b);
    assert BlockTexts([b]) == [t] by {
      assert [b][..0] == [];
    }
    var texts := [t];
    assert LinesOf(texts) == (if t != "" then [t] else []) by {
      assert texts[..0] == [];
    }
    TrimOfTrimmed(t);
  }

  /** Over blocks that normalization has already copied, the parts are the plain-text lines. */
  lemma {:induction false} PartsAreLines(blocks: seq<Value>)
    requires Normalized(blocks)
    ensures Parts(blocks) == Lines(blocks)
  {
    if blocks != [] {
      var init := blocks[..|blocks| - 1];
      var last := blocks[|blocks| - 1];
      assert blocks == init + [last];
      PartsAreLines(init);
      FilterMapSnoc(init, last, TextPick());
      BlockTextIsBlockPlainText(last);
      NormalizeBlockTwice(last);
      BlockTextsConcat(init, [last]);
      var texts := BlockTexts(blocks);
      assert texts[..|texts| - 1] == BlockTexts(init);
    }
  }

  /** Over blocks as normalization leaves them, a run of blocks has the plain text of that run. */
  lemma SectionIsPlainText(blocks: seq<Value>, lo: nat, hi: nat)
    requires lo <= hi <= |blocks|
    requires Normalized(blocks)
    ensures SectionText(blocks[lo..hi]) == PlainText(blocks[lo..hi])
  {
    var run := blocks[lo..hi];
    assert forall k :: 0 <= k < |run| ==> run[k] == blocks[lo + k];
    PartsAreLines(run);
  }

  /** Blocks as the normalized document holds them. */
  predicate Normalized(blocks: seq<Value>) {
    forall k :: 0 <= k < |blocks| ==> blocks[k].Obj? && Get(blocks[k], "data").Obj?
  }

  /** The extraction always reads normalized blocks. */
  lemma ExtractedBlocksNormalized(raw: Value, parse: string -> Option<Value>)
    ensures Normalized(BlocksOf(NormalizeEditorData(raw, "", parse)))
  {
    assert NormalBlocks(NormalizeEditorData(raw, "", parse));
  }

  /** The overview is what `editorDataToPlainText` makes of the blocks before the first capture image. */
  lemma OverviewIsPlainText(blocks: seq<Value>)
    requires Normalized(blocks)
    ensures Overview(blocks) == PlainText(blocks[..NextCaptureImage(blocks, 0)])
  {
    assert blocks[0..NextCaptureImage(blocks, 0)] == blocks[..NextCaptureImage(blocks, 0)];
    SectionIsPlainText(blocks, 0, NextCaptureImage(blocks, 0));
  }

  /** Each note is what `editorDataToPlainText` makes of the blocks of its section. */
  lemma NoteIsPlainText(blocks: seq<Value>, index: nat)
    requires Normalized(blocks) && index < |blocks|
    ensures Note(blocks, index) == PlainText(blocks[index + 1..NextCaptureImage(blocks, index + 1)])
  {
    SectionIsPlainText(blocks, index + 1, NextCaptureImage(blocks, index + 1));
  }

  /** Without any capture image the whole document is the overview and there are no notes. */
  lemma NoCaptureImages(blocks: seq<Value>)
    requires forall k :: 0 <= k < |blocks| ==> !IsCaptureImage(blocks[k])
    ensures Overview(blocks) == SectionText(blocks)
    ensures NotesUpTo(blocks, |blocks|) == map[]
  {
    var end := NextCaptureImage(blocks, 0);
    assert end == |blocks| by {
      NextCaptureImageFinds(blocks, 0);
    }
    assert blocks[0..|blocks|] == blocks;
    var markers := Markers(blocks);
    forall x | true
      ensures x !in NotesUpTo(blocks, |blocks|)
    {
      LastWinsKeys(markers, Notes(blocks), |blocks|, x);
    }
  }
}
