/**
 * EditorJS documents as the review page handles them (src/review/editorjs-utils.js): turning
 * plain text into paragraph blocks, normalizing stored documents, and reading the plain text
 * back out of blocks, lists included.
 *
 * A document is a `Json.Value`; `JSON.parse` is the caller's `parse` function, `None` standing
 * for a string it rejects.
 */
module EditorData {
  import opened Wrappers
  import opened Text
  import opened Json
  import opened Html

  // ---------------------------------------------------------------------------
  // Block shapes
  // ---------------------------------------------------------------------------

  function Block(kind: string, data: Value): (r: Value)
    ensures r.Obj? && Get(r, "type") == Str(kind) && Get(r, "data") == data
  {
    var fields := [Field("type", Str(kind)), Field("data", data)];
    assert "type"[0] != "data"[0];
    assert fields[1..] == [Field("data", data)];
    assert Lookup(fields, "type") == Str(kind);
    assert Lookup(fields[1..], "data") == data;
    assert Lookup(fields, "data") == data;
    Obj(fields)
  }

  function ParagraphBlock(text: string): Value {
    Block("paragraph", Obj([Field("text", Str(text))]))
  }

  function Document(blocks: seq<Value>): Value {
    Obj([Field("blocks", Arr(blocks))])
  }

  const EmptyDocument: Value := Document([])

  /** `rawData && typeof rawData === "object" && Array.isArray(rawData.blocks)`. */
  predicate IsDocument(v: Value) {
    v.Obj? && Get(v, "blocks").Arr?
  }

  /** Every block is an object whose `data` is an object, as normalization leaves them. */
  predicate NormalBlocks(doc: Value) {
    forall k :: 0 <= k < |BlocksOf(doc)| ==> BlocksOf(doc)[k].Obj? && Get(BlocksOf(doc)[k], "data").Obj?
  }

  /** The `blocks` array of a normalized document; anything else has none. */
  function BlocksOf(doc: Value): seq<Value> {
    match Get(doc, "blocks")
    case Arr(items) => items
    case _ => []
  }

  // ---------------------------------------------------------------------------
  // textToEditorData
  // ---------------------------------------------------------------------------

  /** A match of `/\n{2,}/` starts at `i`. */
  predicate BreakAt(s: string, i: int) {
    0 <= i && i + 1 < |s| && s[i] == '\n' && s[i + 1] == '\n'
  }

  predicate NoBreak(s: string) {
    forall i :: 0 <= i < |s| ==> !BreakAt(s, i)
  }

  /** The first `i >= from` where a break starts, `|s|` when there is none. */
  function FirstBreak(s: string, from: nat): (i: nat)
    requires from <= |s|
    ensures from <= i <= |s|
    ensures i < |s| ==> BreakAt(s, i)
    ensures forall k :: from <= k < i ==> !BreakAt(s, k)
    decreases |s| - from
  {
    if from == |s| then |s| else if BreakAt(s, from) then from else FirstBreak(s, from + 1)
  }

  /** The end of the run of newlines starting at `i` (the greedy `\n{2,}`). */
  function RunEnd(s: string, i: nat): (j: nat)
    requires i <= |s|
    ensures i <= j <= |s| && (j < |s| ==> s[j] != '\n')
    ensures forall k :: i <= k < j ==> s[k] == '\n'
    decreases |s| - i
  {
    if i == |s| || s[i] != '\n' then i else RunEnd(s, i + 1)
  }

  /** `s.split(/\n{2,}/)`. */
  function SplitOnBlankLines(s: string): (parts: seq<string>)
    ensures |parts| >= 1
    ensures forall k :: 0 <= k < |parts| ==> NoBreak(parts[k])
    decreases |s|
  {
    var i := FirstBreak(s, 0);
    if i == |s| then [s]
    else
      var j := RunEnd(s, i);
      assert NoBreak(s[..i]) by {
        forall k | 0 <= k < i ensures !BreakAt(s[..i], k) {
          assert !BreakAt(s, k);
        }
      }
      [s[..i]] + SplitOnBlankLines(s[j..])
  }

  /** A text without a blank line is a single part. */
  lemma SplitWithoutBreak(s: string)
    requires NoBreak(s)
    ensures SplitOnBlankLines(s) == [s]
  {
  }

  /** Splitting keeps the parts in text order: a first part, a run of newlines, then the rest. */
  lemma SplitAtBreak(a: string, run: nat, b: string)
    requires NoBreak(a) && (a == [] || a[|a| - 1] != '\n')
    requires run >= 2 && (b == [] || b[0] != '\n')
    ensures SplitOnBlankLines(a + seq(run, _ => '\n') + b) == [a] + SplitOnBlankLines(b)
  {
    var nl := seq(run, _ => '\n');
    var s := a + nl + b;
    assert BreakAt(s, |a|);
    forall k | 0 <= k < |a|
      ensures !BreakAt(s, k)
    {
      if k + 1 < |a| {
        assert !BreakAt(a, k);
      }
    }
    assert FirstBreak(s, 0) == |a|;
    assert RunEnd(s, |a|) == |a| + run by {
      RunEndAt(s, |a|, |a| + run);
    }
    assert s[..|a|] == a;
    assert s[|a| + run..] == b;
  }

  lemma RunEndAt(s: string, i: nat, j: nat)
    requires i <= j <= |s| && (j < |s| ==> s[j] != '\n')
    requires forall k :: i <= k < j ==> s[k] == '\n'
    ensures RunEnd(s, i) == j
    decreases j - i
  {
    if i < j {
      RunEndAt(s, i + 1, j);
    }
  }

  /** The trimmed parts of `parts` that are not empty, in order. */
  function NonEmptyTrimmed(parts: seq<string>): (r: seq<string>)
    ensures forall k :: 0 <= k < |r| ==> r[k] != "" && IsTrimmed(r[k])
    ensures |r| <= |parts|
  {
    if parts == [] then []
    else (if Trim(parts[0]) != "" then [Trim(parts[0])] else []) + NonEmptyTrimmed(parts[1..])
  }

  /** The paragraphs `textToEditorData` makes blocks of. */
  function Paragraphs(text: string): seq<string> {
    var normalized := Trim(text);
    if normalized == "" then [] else NonEmptyTrimmed(SplitOnBlankLines(normalized))
  }

  /**
   * `textToEditorData`: one paragraph block per paragraph, holding its HTML-escaped text; a
   * blank text gives a document without blocks.
   */
  function TextToEditorData(text: string): (r: Value)
    ensures Trim(text) == "" ==> r == EmptyDocument
    ensures r == Document(BlocksOf(r)) && |BlocksOf(r)| == |Paragraphs(text)| && NormalBlocks(r)
    ensures forall k :: 0 <= k < |BlocksOf(r)| ==> BlocksOf(r)[k] == ParagraphBlock(EscapeHtml(Paragraphs(text)[k]))
  {
    var ps := Paragraphs(text);
    var blocks := ParagraphBlocks(ps);
    assert BlocksOf(Document(blocks)) == blocks;
    assert NormalBlocks(Document(blocks));
    Document(blocks)
  }

  function ParagraphBlocks(ps: seq<string>): (r: seq<Value>)
    ensures |r| == |ps| && forall k :: 0 <= k < |ps| ==> r[k] == ParagraphBlock(EscapeHtml(ps[k]))
    ensures forall k :: 0 <= k < |r| ==> r[k].Obj? && Get(r[k], "data").Obj?
  {
    seq(|ps|, k requires 0 <= k < |ps| => ParagraphBlock(EscapeHtml(ps[k])))
  }

  /** A trimmed, non-empty text starts a first part that is not blank. */
  lemma FirstPartNotBlank(s: string)
    requires s != "" && IsTrimmed(s)
    ensures Trim(SplitOnBlankLines(s)[0]) != ""
  {
    var p := SplitOnBlankLines(s)[0];
    var i := FirstBreak(s, 0);
    assert p == s[..i];
    assert !BreakAt(s, 0) by { assert IsWhitespace('\n'); }
    assert p[0] == s[0] && !IsWhitespace(p[0]);
    TrimEmptyIffBlank(p);
  }

  /** Blocks come out of a text exactly when it is not all white space. */
  lemma TextToEditorDataBlank(text: string)
    ensures BlocksOf(TextToEditorData(text)) == [] <==> AllWhitespace(text)
  {
    TrimEmptyIffBlank(text);
    var normalized := Trim(text);
    if normalized != "" {
      FirstPartNotBlank(normalized);
      var parts := SplitOnBlankLines(normalized);
      assert NonEmptyTrimmed(parts) == [Trim(parts[0])] + NonEmptyTrimmed(parts[1..]);
    }
  }

  // ---------------------------------------------------------------------------
  // normalizeEditorData
  // ---------------------------------------------------------------------------

  /** `{ ...block, data: { ...(block.data || {}) } }`. */
  function NormalizeBlock(block: Value): (r: Value)
    ensures r.Obj? && Get(r, "data").Obj?
    ensures forall k :: k != "data" ==> Get(r, k) == Get(block, k)
    ensures Get(block, "data").Obj? ==> Get(r, "data") == Get(block, "data")
  {
    Put(Obj(SpreadFields(block)), "data", Obj(SpreadFields(Get(block, "data"))))
  }

  /** The object branch: the same document, every block copied with an object `data`. */
  function NormalizeDocument(doc: Value): (r: Value)
    requires doc.Obj? && Get(doc, "blocks").Arr?
    ensures r.Obj? && |BlocksOf(r)| == |BlocksOf(doc)|
    ensures forall k :: 0 <= k < |BlocksOf(r)| ==> BlocksOf(r)[k] == NormalizeBlock(BlocksOf(doc)[k])
    ensures forall key :: key != "blocks" ==> Get(r, key) == Get(doc, key)
    ensures IsDocument(r) && NormalBlocks(r)
  {
    var blocks := BlocksOf(doc);
    Put(doc, "blocks", Arr(seq(|blocks|, k requires 0 <= k < |blocks| => NormalizeBlock(blocks[k]))))
  }


  /** `normalizeEditorData(rawData, fallbackText)`. */
  function NormalizeEditorData(raw: Value, fallback: string, parse: string -> Option<Value>): (r: Value)
    ensures IsDocument(raw) ==> r == NormalizeDocument(raw)
    ensures !IsDocument(raw) && !(raw.Str? && Trim(raw.s) != "") ==> r == TextToEditorData(fallback)
    ensures raw.Str? && Trim(raw.s) != "" && parse(raw.s).None? ==> r == TextToEditorData(raw.s)
    ensures IsDocument(r) && NormalBlocks(r)
  {
    if IsDocument(raw) then NormalizeDocument(raw)
    else if raw.Str? && Trim(raw.s) != "" then
      match parse(raw.s)
      case None => TextToEditorData(raw.s)
      case Some(parsed) => if IsDocument(parsed) then NormalizeDocument(parsed) else TextToEditorData(fallback)
    else TextToEditorData(fallback)
  }

  /** Normalizing keeps every block's type and puts an object `data` on each. */
  lemma NormalizeKeepsBlockTypes(raw: Value, fallback: string, parse: string -> Option<Value>)
    requires IsDocument(raw)
    ensures var r := NormalizeEditorData(raw, fallback, parse);
      |BlocksOf(r)| == |BlocksOf(raw)| &&
      forall k :: 0 <= k < |BlocksOf(r)| ==>
        Get(BlocksOf(r)[k], "type") == Get(BlocksOf(raw)[k], "type") && Get(BlocksOf(r)[k], "data").Obj?
  {
  }

  /** A normalized document normalizes to itself. */
  lemma NormalizeIdempotent(raw: Value, fallback: string, parse: string -> Option<Value>)
    ensures var r := NormalizeEditorData(raw, fallback, parse);
      NormalizeEditorData(r, fallback, parse) == r
  {
    var r := NormalizeEditorData(raw, fallback, parse);
    var blocks := BlocksOf(r);
    var again := seq(|blocks|, k requires 0 <= k < |blocks| => NormalizeBlock(blocks[k]));
    forall k | 0 <= k < |blocks|
      ensures again[k] == blocks[k]
    {
      NormalizeBlockTwice(blocks[k]);
    }
    assert again == blocks;
    UpdateUnchanged(r.fields, "blocks");
  }

  /** Copying a block that already has object `data` gives it back unchanged. */
  lemma NormalizeBlockTwice(b: Value)
    requires b.Obj? && Get(b, "data").Obj?
    ensures NormalizeBlock(b) == b
  {
    UpdateUnchanged(b.fields, "data");
  }

  // ---------------------------------------------------------------------------
  // Plain text of blocks
  // ---------------------------------------------------------------------------

  /** The position of the first field named `key`, `|fields|` when there is none. */
  function FieldIndex(fields: seq<Field>, key: string): (i: nat)
    ensures i <= |fields|
    ensures i < |fields| ==> fields[i].key == key && Lookup(fields, key) == fields[i].value
    ensures i == |fields| ==> Lookup(fields, key) == Null
  {
    if fields == [] then 0
    else if fields[0].key == key then 0
    else 1 + FieldIndex(fields[1..], key)
  }

  /** The concatenation of `parts`, in order. */
  function Concat(parts: seq<seq<string>>): seq<string> {
    if parts == [] then [] else parts[0] + Concat(parts[1..])
  }

  lemma {:induction false} ConcatSnoc(parts: seq<seq<string>>, last: seq<string>)
    ensures Concat(parts + [last]) == Concat(parts) + last
  {
    if parts != [] {
      assert (parts + [last])[1..] == parts[1..] + [last];
      ConcatSnoc(parts[1..], last);
    }
  }

  /** What `stripHtml` leaves that `.filter(Boolean)` keeps: non-empty, tag-free, single-spaced, trimmed. */
  predicate Clean(t: string) {
    t != "" && NoTag(t) && SingleSpaced(t) && IsTrimmed(t)
  }

  /** `stripHtml(text)`, kept only when it is not empty. */
  function Kept(text: string): (r: seq<string>)
    ensures |r| <= 1
    ensures r == [] <==> StripHtml(text) == ""
  {
    var t := StripHtml(text);
    if t != "" then [t] else []
  }

  lemma KeptClean(text: string)
    ensures forall k :: 0 <= k < |Kept(text)| ==> Clean(Kept(text)[k])
  {
    StripHtmlClean(text);
  }

  /**
   * What `walk` pushes for one list item, depth first: a string item's own text; an object
   * item's `content` before the entries of its `items`; nothing for anything else.
   */
  function FlattenItem(v: Value): (r: seq<string>)
    ensures v.Str? ==> r == Kept(v.s)
    ensures !v.Str? && !v.Obj? ==> r == []
    decreases v
  {
    match v
    case Str(s) => Kept(s)
    case Obj(fields) =>
      var content := Lookup(fields, "content");
      var idx := FieldIndex(fields, "items");
      (if content.Str? then Kept(content.s) else []) +
      (if idx < |fields| && fields[idx].value.Arr? then
         assert fields[idx] in fields;
         FlattenFrom(fields[idx].value, 0)
       else [])
    case _ => []
  }

  /** The items of the array `list` from position `i` on, each walked in turn. */
  function FlattenFrom(list: Value, i: nat): (r: seq<string>)
    requires list.Arr? && i <= |list.items|
    decreases list, |list.items| - i
  {
    if i == |list.items| then [] else FlattenItem(list.items[i]) + FlattenFrom(list, i + 1)
  }

  /** `flattenListItems(items)`: every item walked in turn. */
  function FlattenItems(items: seq<Value>): seq<string> {
    FlattenFrom(Arr(items), 0)
  }

  /** Every entry the walk pushes is a non-empty, clean `stripHtml` result. */
  lemma {:induction false} FlattenItemClean(v: Value)
    ensures forall k :: 0 <= k < |FlattenItem(v)| ==> Clean(FlattenItem(v)[k])
    decreases v
  {
    match v
    case Str(s) => KeptClean(s);
    case Obj(fields) =>
      var content := Lookup(fields, "content");
      var idx := FieldIndex(fields, "items");
      var head := if content.Str? then Kept(content.s) else [];
      if content.Str? { KeptClean(content.s); }
      if idx < |fields| && fields[idx].value.Arr? {
        assert fields[idx] in fields;
        FlattenFromClean(fields[idx].value, 0);
        CleanConcat(head, FlattenFrom(fields[idx].value, 0));
      } else {
        assert FlattenItem(v) == head + [];
      }
    case _ =>
  }

  lemma {:induction false} FlattenFromClean(list: Value, i: nat)
    requires list.Arr? && i <= |list.items|
    ensures forall k :: 0 <= k < |FlattenFrom(list, i)| ==> Clean(FlattenFrom(list, i)[k])
    decreases list, |list.items| - i
  {
    if i < |list.items| {
      FlattenItemClean(list.items[i]);
      FlattenFromClean(list, i + 1);
      CleanConcat(FlattenItem(list.items[i]), FlattenFrom(list, i + 1));
    }
  }

  lemma CleanConcat(a: seq<string>, b: seq<string>)
    requires forall k :: 0 <= k < |a| ==> Clean(a[k])
    requires forall k :: 0 <= k < |b| ==> Clean(b[k])
    ensures forall k :: 0 <= k < |a + b| ==> Clean((a + b)[k])
  {
    forall k | 0 <= k < |a + b| ensures Clean((a + b)[k]) {
      if k < |a| { assert (a + b)[k] == a[k]; } else { assert (a + b)[k] == b[k - |a|]; }
    }
  }

  lemma LinesAssoc(x: seq<string>, y: seq<string>, z: seq<string>)
    ensures x + (y + z) == (x + y) + z
  {
  }

  /** Two arrays that agree from some position on walk alike from there. */
  lemma {:induction false} FlattenFromSuffix(l1: Value, i1: nat, l2: Value, i2: nat)
    requires l1.Arr? && l2.Arr? && i1 <= |l1.items| && i2 <= |l2.items|
    requires l1.items[i1..] == l2.items[i2..]
    ensures FlattenFrom(l1, i1) == FlattenFrom(l2, i2)
    decreases |l1.items| - i1
  {
    if i1 < |l1.items| {
      assert l1.items[i1] == l1.items[i1..][0] == l2.items[i2];
      assert l1.items[i1 + 1..] == l1.items[i1..][1..];
      assert l2.items[i2 + 1..] == l2.items[i2..][1..];
      FlattenFromSuffix(l1, i1 + 1, l2, i2 + 1);
    }
  }

  /** Walking the tail of `a + b` from inside `a` walks the rest of `a`, then all of `b`. */
  lemma {:induction false} FlattenFromConcat(a: seq<Value>, b: seq<Value>, i: nat)
    requires i <= |a|
    ensures FlattenFrom(Arr(a + b), i) == FlattenFrom(Arr(a), i) + FlattenItems(b)
    decreases |a| - i
  {
    if i == |a| {
      assert (a + b)[|a|..] == b[0..];
      FlattenFromSuffix(Arr(a + b), |a|, Arr(b), 0);
    } else {
      var x, y, z := FlattenItem(a[i]), FlattenFrom(Arr(a), i + 1), FlattenItems(b);
      FlattenFromConcat(a, b, i + 1);
      assert (a + b)[i] == a[i];
      calc {
        FlattenFrom(Arr(a + b), i);
        x + FlattenFrom(Arr(a + b), i + 1);
        x + (y + z);
        { LinesAssoc(x, y, z); }
        (x + y) + z;
        FlattenFrom(Arr(a), i) + z;
      }
    }
  }

  /** The items are flattened in order: the entries of `a` come before those of `b`. */
  lemma FlattenItemsConcat(a: seq<Value>, b: seq<Value>)
    ensures FlattenItems(a + b) == FlattenItems(a) + FlattenItems(b)
  {
    FlattenFromConcat(a, b, 0);
  }

  /** A list item with `content` and nested `items`: its own text first, then its children's. */
  lemma FlattenNodePreOrder(content: string, children: seq<Value>)
    ensures FlattenItem(Obj([Field("content", Str(content)), Field("items", Arr(children))]))
      == Kept(content) + FlattenItems(children)
  {
    var fields := [Field("content", Str(content)), Field("items", Arr(children))];
    assert "content"[0] != "items"[0];
    assert fields[1..] == [Field("items", Arr(children))];
    assert FieldIndex(fields, "items") == 1;
  }

  /** `walk(value)` with `output` holding what is already pushed. */
  method Walk(v: Value, output: seq<string>) returns (out: seq<string>)
    ensures out == output + FlattenItem(v)
    decreases v, 1
  {
    if v.Str? {
      out := output + Kept(v.s);
    } else if v.Obj? {
      out := WalkObject(v, output);
    } else {
      out := output;
    }
  }

  /** The object case of `walk`: its `content`, then each of its `items`. */
  method WalkObject(v: Value, output: seq<string>) returns (out: seq<string>)
    requires v.Obj?
    ensures out == output + FlattenItem(v)
    decreases v, 0
  {
    var content := Lookup(v.fields, "content");
    var idx := FieldIndex(v.fields, "items");
    var head := if content.Str? then Kept(content.s) else [];
    ghost var tail := if idx < |v.fields| && v.fields[idx].value.Arr? then FlattenFrom(v.fields[idx].value, 0) else [];
    FlattenObj(v);
    out := output + head;
    if idx < |v.fields| && v.fields[idx].value.Arr? {
      assert v.fields[idx] in v.fields;
      out := WalkAll(v.fields[idx].value, out);
    } else {
      AppendEmpty(out);
    }
    AppendAssoc(output, head, tail);
  }

  lemma AppendAssoc(a: seq<string>, b: seq<string>, c: seq<string>)
    ensures (a + b) + c == a + (b + c)
  {
  }

  lemma AppendEmpty(a: seq<string>)
    ensures a + [] == a
  {
  }

  /** An object item's entries: its `content`, then its `items`. */
  lemma FlattenObj(v: Value)
    requires v.Obj?
    ensures var content := Lookup(v.fields, "content");
      var idx := FieldIndex(v.fields, "items");
      FlattenItem(v) == (if content.Str? then Kept(content.s) else []) +
        (if idx < |v.fields| && v.fields[idx].value.Arr? then FlattenFrom(v.fields[idx].value, 0) else [])
  {
  }

  /** `list.forEach((item) => walk(item))`. */
  method WalkAll(list: Value, output: seq<string>) returns (out: seq<string>)
    requires list.Arr?
    ensures out == output + FlattenFrom(list, 0)
    decreases list
  {
    out := output;
    var i := 0;
    while i < |list.items|
      invariant 0 <= i <= |list.items|
      invariant out + FlattenFrom(list, i) == output + FlattenFrom(list, 0)
    {
      StepFlatten(out, list, i);
      out := Walk(list.items[i], out);
      i := i + 1;
    }
  }

  /** One more item walked: what is pushed plus what is left stays the same. */
  lemma StepFlatten(out: seq<string>, list: Value, i: nat)
    requires list.Arr? && i < |list.items|
    ensures out + FlattenFrom(list, i) == (out + FlattenItem(list.items[i])) + FlattenFrom(list, i + 1)
  {
  }

  /** `flattenListItems(items)`: `walk` over each item, into one output list. */
  method FlattenListItems(items: seq<Value>) returns (output: seq<string>)
    ensures output == FlattenItems(items)
  {
    output := WalkAll(Arr(items), []);
  }

  /** The checklist texts: each item's stripped `text`, the empty ones dropped. */
  function ChecklistTexts(items: seq<Value>): seq<string> {
    if items == [] then [] else Kept(TextOr(Get(items[0], "text"))) + ChecklistTexts(items[1..])
  }

  lemma {:induction false} ChecklistTextsClean(items: seq<Value>)
    ensures forall k :: 0 <= k < |ChecklistTexts(items)| ==> Clean(ChecklistTexts(items)[k])
  {
    if items != [] {
      KeptClean(TextOr(Get(items[0], "text")));
      ChecklistTextsClean(items[1..]);
      CleanConcat(Kept(TextOr(Get(items[0], "text"))), ChecklistTexts(items[1..]));
    }
  }

  lemma ListTextsClean(items: Value)
    ensures var texts := if items.Arr? then FlattenItems(items.items) else [];
      forall k :: 0 <= k < |texts| ==> Clean(texts[k])
  {
    if items.Arr? { FlattenFromClean(Arr(items.items), 0); }
  }

  lemma CheckTextsClean(items: Value)
    ensures var texts := if items.Arr? then ChecklistTexts(items.items) else [];
      forall k :: 0 <= k < |texts| ==> Clean(texts[k])
  {
    if items.Arr? { ChecklistTextsClean(items.items); }
  }

  /** Texts that are all clean join into a trimmed text. */
  lemma JoinClean(texts: seq<string>, sep: string)
    requires forall k :: 0 <= k < |texts| ==> Clean(texts[k])
    ensures IsTrimmed(Join(texts, sep))
  {
    JoinTrimmed(texts, sep);
  }

  /** The `text` of a paragraph, header or quote, with its markup stripped. */
  function TextOfData(data: Value): (r: string)
    ensures IsTrimmed(r) && NoTag(r) && SingleSpaced(r)
  {
    StripHtmlClean(TextOr(Get(data, "text")));
    StripHtml(TextOr(Get(data, "text")))
  }

  /** The flattened items of a list, one per line. */
  function ListText(data: Value): (r: string)
    ensures IsTrimmed(r)
  {
    var items := Get(data, "items");
    var texts := if items.Arr? then FlattenItems(items.items) else [];
    ListTextsClean(items);
    JoinClean(texts, "\n");
    Join(texts, "\n")
  }

  /** The item texts of a checklist, one per line. */
  function ChecklistText(data: Value): (r: string)
    ensures IsTrimmed(r)
  {
    var items := Get(data, "items");
    var texts := if items.Arr? then ChecklistTexts(items.items) else [];
    CheckTextsClean(items);
    JoinClean(texts, "\n");
    Join(texts, "\n")
  }

  /** `getBlockPlainText(block)`: a block's text by its type, trimmed. */
  function GetBlockPlainText(block: Value): (r: string)
    ensures IsTrimmed(r)
    ensures !IsObjectLike(block) ==> r == ""
    ensures Get(block, "type") == Str("delimiter") ==> r == "---"
    ensures Get(block, "type") in {Str("paragraph"), Str("header"), Str("quote")} ==> NoTag(r) && SingleSpaced(r)
  {
    if !IsObjectLike(block) then ""
    else
      var kind := Get(block, "type");
      var data := Get(block, "data");
      if kind == Str("paragraph") || kind == Str("header") || kind == Str("quote") then TextOfData(data)
      else if kind == Str("list") then ListText(data)
      else if kind == Str("checklist") then ChecklistText(data)
      else if kind == Str("code") then Trim(TextOr(Get(data, "code")))
      else if kind == Str("delimiter") then "---"
      else if Truthy(Get(data, "text")) then TextOfData(data)
      else ""
  }

  /** The text of every block, in order. */
  function BlockTexts(blocks: seq<Value>): (r: seq<string>)
    ensures |r| == |blocks|
    ensures forall k :: 0 <= k < |blocks| ==> r[k] == GetBlockPlainText(blocks[k]) && IsTrimmed(r[k])
  {
    if blocks == [] then [] else BlockTexts(blocks[..|blocks| - 1]) + [GetBlockPlainText(blocks[|blocks| - 1])]
  }

  lemma BlockTextsConcat(a: seq<Value>, b: seq<Value>)
    ensures BlockTexts(a + b) == BlockTexts(a) + BlockTexts(b)
  {
    var l, r := BlockTexts(a + b), BlockTexts(a) + BlockTexts(b);
    forall k | 0 <= k < |l|
      ensures l[k] == r[k]
    {
      if k < |a| { assert (a + b)[k] == a[k]; } else { assert (a + b)[k] == b[k - |a|]; }
    }
  }

  /**
   * The `lines` collected from block texts: each non-empty text. `value.trim()` is left out
   * because every block text is already trimmed (see `EditorDataToPlainText`).
   */
  function LinesOf(texts: seq<string>): seq<string> {
    if texts == [] then []
    else
      var value := texts[|texts| - 1];
      LinesOf(texts[..|texts| - 1]) + (if value != "" then [value] else [])
  }

  /** Lines of trimmed texts are non-empty and trimmed. */
  lemma {:induction false} LinesOfTrimmed(texts: seq<string>)
    requires forall k :: 0 <= k < |texts| ==> IsTrimmed(texts[k])
    ensures forall k :: 0 <= k < |LinesOf(texts)| ==> LinesOf(texts)[k] != "" && IsTrimmed(LinesOf(texts)[k])
  {
    if texts != [] {
      var init := texts[..|texts| - 1];
      assert forall k :: 0 <= k < |init| ==> init[k] == texts[k];
      LinesOfTrimmed(init);
    }
  }

  /** One more text adds its line when it is not empty. */
  lemma LinesOfStep(texts: seq<string>, i: nat)
    requires i < |texts|
    ensures LinesOf(texts[..i + 1]) == LinesOf(texts[..i]) + (if texts[i] != "" then [texts[i]] else [])
  {
    assert texts[..i + 1][..i] == texts[..i];
  }

  /** The lines of consecutive texts follow each other. */
  lemma {:induction false} LinesOfConcat(a: seq<string>, b: seq<string>)
    ensures LinesOf(a + b) == LinesOf(a) + LinesOf(b)
    decreases |b|
  {
    if b != [] {
      var c := b[..|b| - 1];
      assert (a + b)[..|a + b| - 1] == a + c;
      assert (a + b)[|a + b| - 1] == b[|b| - 1];
      LinesOfConcat(a, c);
    } else {
      assert a + b == a;
    }
  }

  /** An empty text adds no line. */
  lemma LinesOfSkipsEmpty(a: seq<string>, c: seq<string>)
    ensures LinesOf(a + [""] + c) == LinesOf(a + c)
  {
    var e: seq<string> := [""];
    assert LinesOf(e) == [] by {
      assert e[..0] == [];
    }
    LinesOfConcat(a, e);
    LinesOfConcat(a + e, c);
    LinesOfConcat(a, c);
  }

  /** The `lines` `editorDataToPlainText` collects, block by block. */
  function Lines(blocks: seq<Value>): seq<string> {
    LinesOf(BlockTexts(blocks))
  }

  /** The plain text of a block list: the lines joined by blank lines, trimmed. */
  function PlainText(blocks: seq<Value>): string {
    Trim(Join(Lines(blocks), "\n\n"))
  }

  /** Every line is non-empty and trimmed, so the final `trim()` never removes anything. */
  lemma PlainTextIsJoin(blocks: seq<Value>)
    ensures forall k :: 0 <= k < |Lines(blocks)| ==> Lines(blocks)[k] != "" && IsTrimmed(Lines(blocks)[k])
    ensures PlainText(blocks) == Join(Lines(blocks), "\n\n")
  {
    LinesOfTrimmed(BlockTexts(blocks));
    JoinTrimmed(Lines(blocks), "\n\n");
    TrimOfTrimmed(Join(Lines(blocks), "\n\n"));
  }

  /** A block without text leaves the plain text as it was. */
  lemma PlainTextSkipsBlank(a: seq<Value>, b: Value, c: seq<Value>)
    requires GetBlockPlainText(b) == ""
    ensures PlainText(a + [b] + c) == PlainText(a + c)
  {
    var e: seq<Value> := [b];
    var ta, tc := BlockTexts(a), BlockTexts(c);
    BlockTextsConcat(a, e);
    BlockTextsConcat(a + e, c);
    BlockTextsConcat(a, c);
    assert BlockTexts(e) == [""];
    LinesOfSkipsEmpty(ta, tc);
  }

  /** `editorDataToPlainText(rawData)`: the blocks of the normalized document, line by line. */
  method EditorDataToPlainText(raw: Value, parse: string -> Option<Value>) returns (r: string)
    ensures r == PlainText(BlocksOf(NormalizeEditorData(raw, "", parse)))
  {
    var data := NormalizeEditorData(raw, "", parse);
    r := BlocksPlainText(BlocksOf(data));
  }

  /** The loop of `editorDataToPlainText` over the normalized blocks. */
  method BlocksPlainText(blocks: seq<Value>) returns (r: string)
    ensures r == PlainText(blocks)
  {
    ghost var texts := BlockTexts(blocks);
    var lines: seq<string> := [];
    var i := 0;
    while i < |blocks|
      invariant 0 <= i <= |blocks|
      invariant lines == LinesOf(texts[..i])
    {
      var value := GetBlockPlainText(blocks[i]);
      assert value == texts[i];
      LinesOfStep(texts, i);
      lines := PushLine(lines, value);
      i := i + 1;
    }
    assert texts[..i] == texts;
    r := Trim(Join(lines, "\n\n"));
  }

  /** `if (value) lines.push(value.trim())` for a text that is already trimmed. */
  method PushLine(lines: seq<string>, value: string) returns (r: seq<string>)
    requires IsTrimmed(value)
    ensures r == lines + (if value != "" then [value] else [])
  {
    r := lines;
    if value != "" {
      TrimOfTrimmed(value);
      r := r + [Trim(value)];
    }
  }
}
