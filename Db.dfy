/**
 * The capture store: an IndexedDB object store keyed by `id`, modelled as a map from
 * key to stored record. The clock (`Date.now()`) and the generated id
 * (`crypto.randomUUID()`) are parameters of the operations that read them.
 */
module Db {
  import opened Wrappers
  import opened Json
  import opened ListOps

  /** A record as it sits in the store; `note` is `None` when the property was never written. */
  datatype Stored = Stored(
    id: string, url: string, title: string, imageData: string,
    note: Option<string>, noteBlocks: Value, captureType: string,
    createdAt: int, updatedAt: int, order: int)

  /** A record as the store hands it out, after `normalizeCapture`. */
  datatype Capture = Capture(
    id: string, url: string, title: string, imageData: string,
    note: string, noteBlocks: Value, captureType: string,
    createdAt: int, updatedAt: int, order: int)

  /** The properties an `updates` object may carry; `None` is a property it leaves out. */
  datatype Patch = Patch(
    id: Option<string>, url: Option<string>, title: Option<string>, imageData: Option<string>,
    note: Option<string>, noteBlocks: Option<Value>, captureType: Option<string>,
    createdAt: Option<int>, order: Option<int>)

  datatype DbError = ConstraintError | NotFound(id: string)

  function ErrorMessage(e: DbError): string {
    match e
    case ConstraintError => "Key already exists in the object store."
    case NotFound(id) => "Capture with id " + id + " not found."
  }

  /** `normalizeCapture`: a falsy note reads as `""`, a falsy `noteBlocks` as `null`. */
  function Normalize(s: Stored): (c: Capture)
    ensures c.id == s.id && c.order == s.order && c.createdAt == s.createdAt && c.updatedAt == s.updatedAt
    ensures c.note == (if s.note.Some? then s.note.value else "")
    ensures c.noteBlocks == (if Truthy(s.noteBlocks) then s.noteBlocks else Null)
  {
    Capture(s.id, s.url, s.title, s.imageData,
      if s.note.Some? && s.note.value != "" then s.note.value else "",
      if Truthy(s.noteBlocks) then s.noteBlocks else Null,
      s.captureType, s.createdAt, s.updatedAt, s.order)
  }

  /** Writing a normalized capture back stores it with the note present. */
  function Denormalize(c: Capture): (s: Stored)
    ensures s.id == c.id
    ensures Normalize(s) == c <==> (!Truthy(c.noteBlocks) ==> c.noteBlocks == Null)
  {
    Stored(c.id, c.url, c.title, c.imageData, Some(c.note), c.noteBlocks,
      c.captureType, c.createdAt, c.updatedAt, c.order)
  }

  /** `{ ...current, ...updates, updatedAt: now }`. */
  function Merge(current: Stored, p: Patch, now: int): (s: Stored)
    ensures s.updatedAt == now
    ensures s.id == p.id.GetOr(current.id) && s.order == p.order.GetOr(current.order)
    ensures s.url == p.url.GetOr(current.url) && s.title == p.title.GetOr(current.title)
    ensures s.imageData == p.imageData.GetOr(current.imageData)
    ensures s.note == (if p.note.Some? then p.note else current.note)
    ensures s.noteBlocks == p.noteBlocks.GetOr(current.noteBlocks)
    ensures s.captureType == p.captureType.GetOr(current.captureType)
    ensures s.createdAt == p.createdAt.GetOr(current.createdAt)
    ensures p == NoChange() ==> s == current.(updatedAt := now)
  {
    Stored(
      p.id.GetOr(current.id), p.url.GetOr(current.url), p.title.GetOr(current.title),
      p.imageData.GetOr(current.imageData),
      if p.note.Some? then p.note else current.note,
      p.noteBlocks.GetOr(current.noteBlocks), p.captureType.GetOr(current.captureType),
      p.createdAt.GetOr(current.createdAt), now, p.order.GetOr(current.order))
  }

  function NoChange(): Patch {
    Patch(None, None, None, None, None, None, None, None, None)
  }

  /** The listing order of `getAllCaptures`: by `order`, then by `createdAt`. */
  predicate ListedBefore(a: Capture, b: Capture) {
    a.order < b.order || (a.order == b.order && a.createdAt <= b.createdAt)
  }

  predicate SortedForListing(s: seq<Capture>) {
    forall i, j :: 0 <= i < j < |s| ==> ListedBefore(s[i], s[j])
  }

  function InsertByOrder(x: Capture, s: seq<Capture>): (r: seq<Capture>)
    ensures multiset(r) == multiset(s) + multiset{x}
  {
    assert s != [] ==> s == [s[0]] + s[1..];
    if s == [] then [x]
    else if ListedBefore(x, s[0]) then [x] + s
    else [s[0]] + InsertByOrder(x, s[1..])
  }

  lemma {:induction false} InsertByOrderSorted(x: Capture, s: seq<Capture>)
    requires SortedForListing(s)
    ensures SortedForListing(InsertByOrder(x, s))
  {
    if s != [] && !ListedBefore(x, s[0]) {
      var rest := InsertByOrder(x, s[1..]);
      InsertByOrderSorted(x, s[1..]);
      forall y | y in rest ensures ListedBefore(s[0], y) {
        assert y in multiset(rest);
        if y != x {
          assert y in multiset(s[1..]);
        }
      }
    }
  }

  /** `Array.prototype.sort` with the listing comparator: same elements, listing order. */
  function SortForListing(s: seq<Capture>): (r: seq<Capture>)
    ensures multiset(r) == multiset(s)
    ensures SortedForListing(r)
  {
    if s == [] then [] else
      assert multiset(s) == multiset{s[0]} + multiset(s[1..]) by { assert s == [s[0]] + s[1..]; }
      InsertByOrderSorted(s[0], SortForListing(s[1..]));
      InsertByOrder(s[0], SortForListing(s[1..]))
  }

  /** `list` holds the normalized record of every stored id, and nothing else. */
  predicate Lists(list: seq<Capture>, records: map<string, Stored>) {
    && (forall i :: 0 <= i < |list| ==> list[i].id in records && list[i] == Normalize(records[list[i].id]))
    && (forall id :: id in records ==> exists i :: 0 <= i < |list| && list[i].id == id)
  }

  lemma ListsPermutation(a: seq<Capture>, b: seq<Capture>, records: map<string, Stored>)
    requires Lists(a, records) && NoDups(a) && multiset(a) == multiset(b)
    ensures Lists(b, records) && NoDups(b) && |b| == |a|
  {
    NoDupsMultiset(a, b);
    assert |b| == |multiset(b)|;
    forall i | 0 <= i < |b| ensures b[i] in a {
      assert b[i] in multiset(b);
    }
    forall id | id in records ensures exists i :: 0 <= i < |b| && b[i].id == id {
      var j :| 0 <= j < |a| && a[j].id == id;
      assert a[j] in multiset(b);
      var i :| 0 <= i < |b| && b[i] == a[j];
    }
  }

  /** The object store: every record sits under its own `id`. */
  class CaptureStore {
    var records: map<string, Stored>

    ghost predicate Valid()
      reads this
    {
      forall k :: k in records ==> records[k].id == k
    }

    constructor ()
      ensures Valid() && records == map[]
    {
      records := map[];
    }

    /**
     * `createCapture`: a new record whose creation time, update time and order are all `now`;
     * `store.add` refuses an id that is already present.
     */
    method Create(id: string, url: string, title: string, imageData: string, captureType: string, note: string, now: int)
      returns (r: Result<Capture, DbError>)
      requires Valid()
      modifies this
      ensures Valid()
      ensures id in old(records) ==> r == Err(ConstraintError) && records == old(records)
      ensures id !in old(records) ==>
        var s := Stored(id, url, title, imageData, Some(note), Null, captureType, now, now, now);
        records == old(records)[id := s] && r == Ok(Normalize(s))
    {
      if id in records {
        return Err(ConstraintError);
      }
      var s := Stored(id, url, title, imageData, Some(note), Null, captureType, now, now, now);
      records := records[id := s];
      r := Ok(Normalize(s));
    }

    /** `getCapture`: the normalized record, `null` when the id is absent. */
    method Get(id: string) returns (r: Option<Capture>)
      ensures r == if id in records then Some(Normalize(records[id])) else None
    {
      if id in records {
        r := Some(Normalize(records[id]));
      } else {
        r := None;
      }
    }

    /** `store.getAll()`: every record once, normalized, in an order the model leaves open. */
    method ScanAll() returns (scanned: seq<Capture>)
      requires Valid()
      ensures |scanned| == |records| && NoDups(scanned)
      ensures Lists(scanned, records)
    {
      var keys := records.Keys;
      scanned := [];
      while keys != {}
        invariant keys <= records.Keys
        invariant |scanned| + |keys| == |records|
        invariant NoDups(scanned)
        invariant forall i :: 0 <= i < |scanned| ==>
          scanned[i].id in records && scanned[i].id !in keys && scanned[i] == Normalize(records[scanned[i].id])
        invariant forall id :: id in records && id !in keys ==> exists i :: 0 <= i < |scanned| && scanned[i].id == id
        decreases |keys|
      {
        var k :| k in keys;
        ghost var before := scanned;
        scanned := scanned + [Normalize(records[k])];
        keys := keys - {k};
        forall id | id in records && id !in keys ensures exists i :: 0 <= i < |scanned| && scanned[i].id == id {
          if id == k {
            assert scanned[|before|].id == id;
          } else {
            var j :| 0 <= j < |before| && before[j].id == id;
            assert scanned[j].id == id;
          }
        }
      }
    }

    /** `getAllCaptures`: every record exactly once, normalized, in listing order. */
    method GetAll() returns (list: seq<Capture>)
      requires Valid()
      ensures |list| == |records| && NoDups(list) && SortedForListing(list)
      ensures Lists(list, records)
    {
      var scanned := ScanAll();
      list := SortForListing(scanned);
      ListsPermutation(scanned, list, records);
    }

    /**
     * `updateCapture` as written: the merged object is put under its own `id`, so an `id`
     * inside `updates` writes a second record and leaves the old one in place.
     */
    method UpdateAsWritten(id: string, p: Patch, now: int) returns (r: Result<Capture, DbError>)
      requires Valid()
      modifies this
      ensures Valid()
      ensures id !in old(records) ==> r == Err(NotFound(id)) && records == old(records)
      ensures id in old(records) ==>
        records == PutMerged(old(records), id, p, now) && r == Ok(Normalize(Merge(old(records)[id], p, now)))
    {
      if id !in records {
        return Err(NotFound(id));
      }
      var next := Merge(records[id], p, now);
      records := records[next.id := next];
      r := Ok(Normalize(next));
    }

    /** `updateCapture` with the record kept under the id it was asked for. */
    method Update(id: string, p: Patch, now: int) returns (r: Result<Capture, DbError>)
      requires Valid()
      modifies this
      ensures Valid()
      ensures id !in old(records) ==> r == Err(NotFound(id)) && records == old(records)
      ensures id in old(records) ==>
        records == UpdatedRecords(old(records), id, p, now) && r == Ok(Normalize(Merge(old(records)[id], p.(id := None), now)))
    {
      if id !in records {
        return Err(NotFound(id));
      }
      var next := Merge(records[id], p.(id := None), now);
      records := records[id := next];
      r := Ok(Normalize(next));
    }

    /** `deleteCapture`: removes that id, and succeeds whether or not it was present. */
    method Delete(id: string)
      requires Valid()
      modifies this
      ensures Valid() && records == old(records) - {id}
    {
      records := records - {id};
    }

    /** `clearCaptures`. */
    method Clear()
      modifies this
      ensures Valid() && records == map[]
    {
      records := map[];
    }

    /**
     * `reorderCaptures`: each listed id that is stored is put again, normalized, with
     * `order = clock[i] + i` and `updatedAt = clock[i]`, where `clock[i]` is the time read
     * while mapping position `i`; ids that are not stored are skipped.
     */
    method Reorder(orderedIds: seq<string>, clock: seq<int>)
      requires Valid() && |clock| == |orderedIds|
      modifies this
      ensures Valid()
      ensures records == Reordered(old(records), orderedIds, clock, |orderedIds|)
    {
      var list := GetAll();
      var byId := IndexById(list, records);
      PutReordered(byId, orderedIds, clock);
    }

    /** The puts of `reorderCaptures`, one per listed id that is stored, in the listed order. */
    method PutReordered(byId: map<string, Capture>, orderedIds: seq<string>, clock: seq<int>)
      requires Valid() && |clock| == |orderedIds|
      requires byId.Keys == records.Keys && forall k :: k in byId ==> byId[k] == Normalize(records[k])
      modifies this
      ensures Valid()
      ensures records == Reordered(old(records), orderedIds, clock, |orderedIds|)
    {
      ghost var start := records;
      var i := 0;
      while i < |orderedIds|
        invariant 0 <= i <= |orderedIds|
        invariant records == Reordered(start, orderedIds, clock, i)
        invariant Valid()
      {
        var id := orderedIds[i];
        ReorderedStep(start, orderedIds, clock, i);
        if id in byId {
          var c := byId[id].(order := clock[i] + i, updatedAt := clock[i]);
          records := records[id := Denormalize(c)];
        }
        i := i + 1;
      }
    }
  }

  /** `new Map(captures.map((c) => [c.id, c]))` over a full listing of the store. */
  method IndexById(list: seq<Capture>, records: map<string, Stored>) returns (byId: map<string, Capture>)
    requires Lists(list, records)
    ensures byId.Keys == records.Keys
    ensures forall k :: k in byId ==> byId[k] == Normalize(records[k])
  {
    byId := map[];
    var i := 0;
    while i < |list|
      invariant 0 <= i <= |list|
      invariant forall k :: k in byId ==> k in records && byId[k] == Normalize(records[k])
      invariant forall j :: 0 <= j < i ==> list[j].id in byId
    {
      byId := byId[list[i].id := list[i]];
      i := i + 1;
    }
    forall k | k in records ensures k in byId {
      var j :| 0 <= j < |list| && list[j].id == k;
    }
  }

  /** The store after the first `n` puts of a reorder. */
  function Reordered(records: map<string, Stored>, ids: seq<string>, clock: seq<int>, n: nat): (r: map<string, Stored>)
    requires n <= |ids| && |clock| == |ids|
    ensures r.Keys == records.Keys
  {
    if n == 0 then records
    else
      var prev := Reordered(records, ids, clock, n - 1);
      var id := ids[n - 1];
      if id in records then
        prev[id := Denormalize(Normalize(records[id]).(order := clock[n - 1] + n - 1, updatedAt := clock[n - 1]))]
      else prev
  }

  lemma ReorderedStep(records: map<string, Stored>, ids: seq<string>, clock: seq<int>, i: nat)
    requires i < |ids| && |clock| == |ids|
    requires forall k :: k in records ==> records[k].id == k
    ensures Reordered(records, ids, clock, i + 1)
      == if ids[i] in records
         then Reordered(records, ids, clock, i)[ids[i] := Denormalize(Normalize(records[ids[i]]).(order := clock[i] + i, updatedAt := clock[i]))]
         else Reordered(records, ids, clock, i)
    ensures ids[i] in records ==> Normalize(records[ids[i]]).id == ids[i]
  {
  }

  /** The store after `updateCapture` as written: the merged record is put under the `id` it carries. */
  function PutMerged(records: map<string, Stored>, id: string, p: Patch, now: int): map<string, Stored>
    requires id in records
  {
    var next := Merge(records[id], p, now);
    records[next.id := next]
  }

  /** The store after the corrected `updateCapture`: the record keeps its key. */
  function UpdatedRecords(records: map<string, Stored>, id: string, p: Patch, now: int): map<string, Stored>
    requires id in records
  {
    records[id := Merge(records[id], p.(id := None), now)]
  }

  /** The corrected update changes that one record, keeps every key and keeps each record under its own id. */
  lemma UpdateTouchesOnlyItsRecord(records: map<string, Stored>, id: string, p: Patch, now: int)
    requires id in records && forall k :: k in records ==> records[k].id == k
    ensures var after := UpdatedRecords(records, id, p, now);
      && after.Keys == records.Keys
      && (forall k :: k in after ==> after[k].id == k)
      && (forall k :: k in records && k != id ==> after[k] == records[k])
      && after[id].updatedAt == now && after[id].createdAt == p.createdAt.GetOr(records[id].createdAt)
  {
  }

  /** As written, an update whose `updates` carry another id leaves the old record and adds a second one. */
  lemma UpdateAsWrittenDuplicates()
    ensures var before := Stored("a", "u", "t", "img", None, Null, "visible", 1, 1, 1);
      var after := PutMerged(map["a" := before], "a", NoChange().(id := Some("b"), title := Some("renamed")), 2);
      after.Keys == {"a", "b"} && after["a"] == before && after["b"].title == "renamed"
  {
  }

  predicate NonDecreasing(clock: seq<int>) {
    forall a, b :: 0 <= a <= b < |clock| ==> clock[a] <= clock[b]
  }

  /** After a reorder each stored, listed id carries the order of its position; the rest are as they were. */
  lemma {:induction false} ReorderedAt(records: map<string, Stored>, ids: seq<string>, clock: seq<int>, n: nat, k: string)
    requires n <= |ids| && |clock| == |ids| && NoDups(ids) && k in records
    ensures var i := IndexOf(ids, k);
      Reordered(records, ids, clock, n)[k]
        == if 0 <= i < n
           then Denormalize(Normalize(records[k]).(order := clock[i] + i, updatedAt := clock[i]))
           else records[k]
  {
    if n > 0 {
      ReorderedAt(records, ids, clock, n - 1, k);
      if ids[n - 1] == k {
        IndexOfNoDups(ids, n - 1);
      } else {
        assert IndexOf(ids, k) != n - 1;
      }
    }
  }

  /**
   * Listed ids that are stored get strictly increasing `order` values in the listed order,
   * so every later listing shows them in that order.
   */
  lemma ReorderRanksListedIds(records: map<string, Stored>, ids: seq<string>, clock: seq<int>, i: nat, j: nat)
    requires |clock| == |ids| && NoDups(ids) && NonDecreasing(clock)
    requires i < j < |ids| && ids[i] in records && ids[j] in records
    ensures var after := Reordered(records, ids, clock, |ids|);
      after[ids[i]].order == clock[i] + i < clock[j] + j == after[ids[j]].order
  {
    ReorderedAt(records, ids, clock, |ids|, ids[i]);
    ReorderedAt(records, ids, clock, |ids|, ids[j]);
    IndexOfNoDups(ids, i);
    IndexOfNoDups(ids, j);
  }

  /** In a listing sorted by `order`, a smaller `order` comes first. */
  lemma ListingRespectsOrder(list: seq<Capture>, p: nat, q: nat)
    requires SortedForListing(list) && p < |list| && q < |list|
    requires list[p].order < list[q].order
    ensures p < q
  {
  }

  /** A reorder followed by a listing shows the stored listed ids in the listed order. */
  lemma ReorderThenList(records: map<string, Stored>, ids: seq<string>, clock: seq<int>, list: seq<Capture>, i: nat, j: nat, p: nat, q: nat)
    requires |clock| == |ids| && NoDups(ids) && NonDecreasing(clock)
    requires SortedForListing(list) && Lists(list, Reordered(records, ids, clock, |ids|))
    requires i < j < |ids| && ids[i] in records && ids[j] in records
    requires p < |list| && q < |list| && list[p].id == ids[i] && list[q].id == ids[j]
    ensures p < q
  {
    ReorderRanksListedIds(records, ids, clock, i, j);
    ListingRespectsOrder(list, p, q);
  }
}
