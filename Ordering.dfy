/**
 * Reordering the capture list from the review pages: dragging one capture onto another
 * (`reorderFromSidebarDrag`, written identically in src/review/App.jsx and review.js) and the
 * up/down buttons (`handleMoveByIndex` in src/review/App.jsx, the "move-up"/"move-down" actions
 * of review.js). Each builds the new id order that is then handed to the store's reorder.
 */
module Ordering {
  import opened Wrappers
  import opened ListOps

  /**
   * `reorderFromSidebarDrag(movingId, targetId, position)` on the ids of the listed captures.
   * `None` is the early return that leaves the order alone; otherwise the dragged id is spliced
   * out and spliced back in next to the target, after it when `position` is "after".
   */
  method ReorderFromSidebarDrag(ids: seq<string>, moving: string, target: string, position: string)
    returns (r: Option<seq<string>>)
    ensures r.None? <==> moving == "" || target == "" || moving == target || moving !in ids || target !in ids
    ensures r.Some? ==> multiset(r.value) == multiset(ids)
    ensures r.Some? && position == "after" ==>
      exists p :: 0 < p < |r.value| && r.value[p] == moving && r.value[p - 1] == target
    ensures r.Some? && position != "after" ==>
      exists p :: 0 <= p < |r.value| - 1 && r.value[p] == moving && r.value[p + 1] == target
    ensures r.Some? ==> Without(r.value, moving) == Without(RemoveAt(ids, IndexOf(ids, moving)), moving)
    ensures r.Some? && NoDups(ids) ==> NoDups(r.value) && Without(r.value, moving) == Without(ids, moving)
  {
    if moving == "" || target == "" || moving == target {
      return None;
    }
    var fromIndex := IndexOf(ids, moving);
    var targetIndex := IndexOf(ids, target);
    if fromIndex == -1 || targetIndex == -1 {
      return None;
    }
    var ordered := RemoveAt(ids, fromIndex);
    // The target is not the dragged id, so it survives the first splice; the source's
    // `insertIndex === -1` branch cannot be taken.
    if targetIndex < fromIndex {
      assert ordered[targetIndex] == target;
    } else {
      assert ordered[targetIndex - 1] == target;
    }
    var insertIndex := IndexOf(ordered, target);
    ghost var at := insertIndex;
    assert 0 <= at < |ordered| && ordered[at] == target;
    if position == "after" {
      insertIndex := insertIndex + 1;
    }
    var result := InsertAt(ordered, insertIndex, moving);
    if position == "after" {
      assert result[at + 1] == moving && result[at] == target;
    } else {
      assert result[at] == moving && result[at + 1] == target;
    }
    WithoutInsertAt(ordered, insertIndex, moving);
    if NoDups(ids) {
      NoDupsMultiset(ids, result);
      WithoutRemoveAt(ids, fromIndex);
    }
    r := Some(result);
  }

  datatype Direction = Up | Down

  /** The position the button swaps with: one before for "up", one after for "down". */
  function TargetIndex(index: nat, direction: Direction): int {
    if direction == Up then index - 1 else index + 1
  }

  /**
   * The new order after the up or down button at `index`: `None` when the neighbour is out of
   * range, otherwise the two positions exchanged and nothing else changed.
   */
  function Moved(ids: seq<string>, index: nat, direction: Direction): (r: Option<seq<string>>)
    requires index < |ids|
    ensures r.None? <==> (direction == Up && index == 0) || (direction == Down && index == |ids| - 1)
    ensures r.Some? ==> var t := TargetIndex(index, direction);
      0 <= t < |ids| && |r.value| == |ids| && r.value[index] == ids[t] && r.value[t] == ids[index] &&
      (forall k :: 0 <= k < |ids| && k != index && k != t ==> r.value[k] == ids[k]) &&
      multiset(r.value) == multiset(ids)
  {
    var t := TargetIndex(index, direction);
    if t < 0 || t >= |ids| then None else Some(Swapped(ids, index, t))
  }

  /**
   * `handleMoveByIndex(index, direction)`: the ids copied into a fresh array whose two cells are
   * exchanged in place.
   */
  method MoveByIndex(ids: seq<string>, index: nat, direction: Direction) returns (r: Option<seq<string>>)
    requires index < |ids|
    ensures r == Moved(ids, index, direction)
  {
    var targetIndex := TargetIndex(index, direction);
    if targetIndex < 0 || targetIndex >= |ids| {
      return None;
    }
    var orderedIds := new string[|ids|](k requires 0 <= k < |ids| => ids[k]);
    assert orderedIds[..] == ids;
    orderedIds[index], orderedIds[targetIndex] := orderedIds[targetIndex], orderedIds[index];
    r := Some(orderedIds[..]);
  }

  /** Moving a capture down and then moving it back up restores the order. */
  lemma MoveDownThenUp(ids: seq<string>, index: nat)
    requires index + 1 < |ids|
    ensures Moved(ids, index, Down).Some?
    ensures Moved(Moved(ids, index, Down).value, index + 1, Up) == Some(ids)
  {
    var once := Moved(ids, index, Down).value;
    assert once == Swapped(ids, index, index + 1);
    SwappedTwice(ids, index, index + 1);
  }

  /** Each button only ever exchanges neighbours, so the moved capture ends up one place further. */
  lemma MovedCaptureShifts(ids: seq<string>, index: nat, direction: Direction)
    requires index < |ids| && Moved(ids, index, direction).Some?
    ensures Moved(ids, index, direction).value[TargetIndex(index, direction)] == ids[index]
    ensures TargetIndex(index, direction) == if direction == Up then index - 1 else index + 1
  {
  }
}
