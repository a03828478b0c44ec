/** The queue's writes on the slot table. */
module GameQueueServices {
  import opened Common
  import opened Games
  import opened GameQueue
  import opened Databases

  class GameQueueService {
    const db: Database

    constructor (db: Database)
      ensures this.db == db
    {
      this.db := db;
    }

    method AssignSortOrderOnCreate(ruleId: nat) returns (order: int)
      modifies db`slots
      ensures (db.slots, order) == GameQueue.AssignSortOrderOnCreate(old(db.slots), ruleId)
    {
      var listing := ListQueue(db.slots, |db.slots|);
      if listing == [] || !ShouldDeferDuplicateRule(db.slots, listing, ruleId) {
        return BackOrder(db.slots);
      }
      var anchor := InsertAfterSortOrder(db.slots, listing);
      IncrementSortOrdersAfter(anchor);
      return anchor + 1;
    }

    /** `updateMany`: NEXT slots ordered after the anchor move one down. */
    method IncrementSortOrdersAfter(anchor: int)
      modifies db`slots
      ensures db.slots == ShiftAllAfter(old(db.slots), anchor)
    {
      ghost var before := db.slots;
      for i := 0 to |db.slots|
        invariant |db.slots| == |before|
        invariant forall k | 0 <= k < i :: db.slots[k] == ShiftAfter(before[k], anchor)
        invariant forall k | i <= k < |before| :: db.slots[k] == before[k]
      {
        var slot := db.slots[i];
        if slot.status == NEXT && slot.sortOrder.Some? && slot.sortOrder.value > anchor {
          db.UpdateSlot(i, slot.(sortOrder := Some(slot.sortOrder.value + 1)));
        }
      }
      assert db.slots == ShiftAllAfter(before, anchor);
    }

    method UpdateQueueOrder(slotIds: seq<nat>)
      requires forall i | 0 <= i < |slotIds| :: slotIds[i] < |db.slots|
      modifies db`slots
      ensures db.slots == Reorder(old(db.slots), slotIds)
    {
      ghost var before := db.slots;
      var i := 0;
      while i < |slotIds|
        invariant 0 <= i <= |slotIds|
        invariant db.slots == Reorder(before, slotIds[..i])
      {
        assert slotIds[..i + 1][..i] == slotIds[..i];
        db.UpdateSlot(slotIds[i], db.slots[slotIds[i]].(sortOrder := Some(i + 1)));
        i := i + 1;
      }
      assert slotIds[..i] == slotIds;
    }

    method MoveSlotToBack(slotId: nat)
      requires slotId < |db.slots|
      modifies db`slots
      ensures db.slots == GameQueue.MoveSlotToBack(old(db.slots), slotId)
    {
      var max := MaxSortOrder(db.slots);
      db.UpdateSlot(slotId,
                    db.slots[slotId].(status := NEXT, sortOrder := Some((if max.Some? then max.value else 0) + 1)));
    }

    method RestoreSlotAfterSession(slotId: nat) returns (removed: bool)
      requires slotId < |db.slots|
      modifies db`slots
      ensures removed == old(db.slots)[slotId].removeAfterFinish
      ensures db.slots == GameQueue.RestoreSlotAfterSession(old(db.slots), slotId)
    {
      removed := db.slots[slotId].removeAfterFinish;
      if removed {
        db.UpdateSlot(slotId, db.slots[slotId].(status := CANCELLED));
      } else {
        MoveSlotToBack(slotId);
      }
    }
  }
}
