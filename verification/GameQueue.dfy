/** The slot queue: integer sort orders that stand for a sequence of slots. */
module GameQueue {
  import opened Common
  import opened Games

  const QUEUE_RULE_DIVERSITY_WINDOW: nat := 5

  predicate Queued(slot: Slot) {
    slot.status == NEXT
  }

  predicate QueuedStandard(slot: Slot) {
    slot.status == NEXT && !slot.category.BIG_GAME?
  }

  /** Missing orders sort last, as `compareSortOrder` puts them. */
  predicate OrderedBefore(a: Option<int>, b: Option<int>) {
    a.Some? && (b.None? || a.value < b.value)
  }

  // ---- Reading the queue ----

  /** Insert a slot id into a listing ordered by sort order, after its equals. */
  function InsertByOrder(slots: seq<Slot>, listing: seq<nat>, id: nat): (longer: seq<nat>)
    requires id < |slots| && forall i | 0 <= i < |listing| :: listing[i] < |slots|
    ensures forall i | 0 <= i < |longer| :: longer[i] < |slots|
    ensures forall x :: x in longer <==> x in listing || x == id
  {
    if listing == [] then [id]
    else
      var last := listing[|listing| - 1];
      assert listing == listing[..|listing| - 1] + [last];
      if OrderedBefore(slots[id].sortOrder, slots[last].sortOrder)
      then InsertByOrder(slots, listing[..|listing| - 1], id) + [last]
      else listing + [id]
  }

  /** `listQueueOrderingSlots`: the queued standard slots by sort order. */
  function ListQueue(slots: seq<Slot>, upTo: nat): (listing: seq<nat>)
    requires upTo <= |slots|
    ensures forall i | 0 <= i < |listing| :: listing[i] < |slots|
    ensures forall x :: x in listing <==> 0 <= x < upTo && QueuedStandard(slots[x])
  {
    if upTo == 0 then []
    else
      var listing := ListQueue(slots, upTo - 1);
      if QueuedStandard(slots[upTo - 1]) then InsertByOrder(slots, listing, upTo - 1) else listing
  }

  /** `orderBy: { sortOrder: 'desc' }`: PostgreSQL lists a missing order before all others. */
  function MaxSortOrder(slots: seq<Slot>): Option<int> {
    if slots == [] then None
    else
      var rest, last := MaxSortOrder(slots[..|slots| - 1]), slots[|slots| - 1].sortOrder;
      if |slots| == 1 || last.None? then last
      else if rest.None? || rest.value > last.value then rest
      else last
  }

  function BackOrder(slots: seq<Slot>): int {
    var max := MaxSortOrder(slots);
    (if max.Some? then max.value else 0) + 1
  }

  // ---- Writing the queue ----

  function TopFive(listing: seq<nat>): seq<nat> {
    if |listing| <= QUEUE_RULE_DIVERSITY_WINDOW then listing else listing[..QUEUE_RULE_DIVERSITY_WINDOW]
  }

  predicate ShouldDeferDuplicateRule(slots: seq<Slot>, listing: seq<nat>, ruleId: nat)
    requires forall i | 0 <= i < |listing| :: listing[i] < |slots|
  {
    exists i | 0 <= i < |TopFive(listing)| :: slots[TopFive(listing)[i]].ruleId == Some(ruleId)
  }

  function InsertAfterSortOrder(slots: seq<Slot>, listing: seq<nat>): int
    requires forall i | 0 <= i < |listing| :: listing[i] < |slots|
  {
    if listing == [] then 0
    else
      var anchor := if |listing| < QUEUE_RULE_DIVERSITY_WINDOW then |listing| - 1 else QUEUE_RULE_DIVERSITY_WINDOW - 1;
      var order := slots[listing[anchor]].sortOrder;
      if order.Some? then order.value else anchor + 1
  }

  function ShiftAfter(slot: Slot, anchor: int): Slot {
    if slot.status == NEXT && slot.sortOrder.Some? && slot.sortOrder.value > anchor
    then slot.(sortOrder := Some(slot.sortOrder.value + 1))
    else slot
  }

  function ShiftAllAfter(slots: seq<Slot>, anchor: int): seq<Slot> {
    seq(|slots|, i requires 0 <= i < |slots| => ShiftAfter(slots[i], anchor))
  }

  /** `assignSortOrderOnCreate`: the shifted table and the order of the slot to be created. */
  function AssignSortOrderOnCreate(slots: seq<Slot>, ruleId: nat): (seq<Slot>, int) {
    var listing := ListQueue(slots, |slots|);
    if listing == [] || !ShouldDeferDuplicateRule(slots, listing, ruleId) then (slots, BackOrder(slots))
    else
      var anchor := InsertAfterSortOrder(slots, listing);
      (ShiftAllAfter(slots, anchor), anchor + 1)
  }

  function CreateInQueue(slots: seq<Slot>, slot: Slot, ruleId: nat): seq<Slot> {
    var (shifted, order) := AssignSortOrderOnCreate(slots, ruleId);
    shifted + [slot.(ruleId := Some(ruleId), sortOrder := Some(order))]
  }

  function MoveSlotToBack(slots: seq<Slot>, id: nat): seq<Slot>
    requires id < |slots|
  {
    slots[id := slots[id].(status := NEXT, sortOrder := Some(BackOrder(slots)))]
  }

  function RestoreSlotAfterSession(slots: seq<Slot>, id: nat): seq<Slot>
    requires id < |slots|
  {
    if slots[id].removeAfterFinish then slots[id := slots[id].(status := CANCELLED)]
    else MoveSlotToBack(slots, id)
  }

  function Reorder(slots: seq<Slot>, ids: seq<nat>): (after: seq<Slot>)
    requires forall i | 0 <= i < |ids| :: ids[i] < |slots|
    ensures |after| == |slots|
  {
    if ids == [] then slots
    else
      var before := Reorder(slots, ids[..|ids| - 1]);
      var id := ids[|ids| - 1];
      before[id := before[id].(sortOrder := Some(|ids|))]
  }

  /** No rule twice among the first five known ones. */
  predicate TopFiveDiverse(ruleIds: seq<Option<nat>>) {
    forall i, j | 0 <= i < j < |ruleIds| && j < QUEUE_RULE_DIVERSITY_WINDOW ::
        ruleIds[i].None? || ruleIds[i] != ruleIds[j]
  }

  function RulesOf(slots: seq<Slot>, ids: seq<nat>): seq<Option<nat>>
    requires forall i | 0 <= i < |ids| :: ids[i] < |slots|
  {
    seq(|ids|, i requires 0 <= i < |ids| => slots[ids[i]].ruleId)
  }

  /** What `updateQueueOrder` checks: every slot once, no Big Game, and diverse rules at the top. */
  predicate ReorderAllowed(slots: seq<Slot>, ids: seq<nat>)
    requires forall i | 0 <= i < |ids| :: ids[i] < |slots|
  {
    && (forall i, j | 0 <= i < j < |ids| :: ids[i] != ids[j])
    && (forall i | 0 <= i < |ids| :: !slots[ids[i]].category.BIG_GAME?)
    && TopFiveDiverse(RulesOf(slots, ids))
  }

  /** Handing out 1..n gives no queued slot an order that another queued slot keeps. */
  predicate ReorderIsHarmless(slots: seq<Slot>, ids: seq<nat>)
    requires forall i | 0 <= i < |ids| :: ids[i] < |slots|
  {
    forall x, i | 0 <= x < |slots| && x !in ids && Queued(slots[x]) && 0 <= i < |ids| && Queued(slots[ids[i]]) ::
      slots[x].sortOrder != Some(i + 1)
  }

  // ---- The sequence behind the orders ----

  ghost predicate AllOrdersSet(slots: seq<Slot>) {
    forall i | 0 <= i < |slots| :: slots[i].sortOrder.Some?
  }

  ghost predicate DistinctQueueOrders(slots: seq<Slot>) {
    forall i, j | 0 <= i < j < |slots| && Queued(slots[i]) && Queued(slots[j]) ::
      slots[i].sortOrder != slots[j].sortOrder
  }

  function OrderOf(slots: seq<Slot>, id: nat): int {
    if id < |slots| && slots[id].sortOrder.Some? then slots[id].sortOrder.value else 0
  }

  ghost predicate Ascending(slots: seq<Slot>, listing: seq<nat>) {
    forall i, j | 0 <= i < j < |listing| :: OrderOf(slots, listing[i]) < OrderOf(slots, listing[j])
  }

  /** `queue` lists exactly the queued standard slots, in strictly increasing order. */
  ghost predicate Represents(slots: seq<Slot>, queue: seq<nat>) {
    && (forall x :: x in queue <==> 0 <= x < |slots| && QueuedStandard(slots[x]))
    && Ascending(slots, queue)
  }

  lemma {:induction false} InsertByOrderSorts(slots: seq<Slot>, listing: seq<nat>, id: nat)
    requires id < |slots| && (forall i | 0 <= i < |listing| :: listing[i] < |slots|)
    requires AllOrdersSet(slots) && Ascending(slots, listing)
    requires forall x | x in listing :: OrderOf(slots, x) != OrderOf(slots, id)
    ensures Ascending(slots, InsertByOrder(slots, listing, id))
  {
    if listing != [] {
      var front, last := listing[..|listing| - 1], listing[|listing| - 1];
      assert forall x | x in front :: x in listing && OrderOf(slots, x) < OrderOf(slots, last);
      if OrderedBefore(slots[id].sortOrder, slots[last].sortOrder) {
        InsertByOrderSorts(slots, front, id);
        AppendAscends(slots, InsertByOrder(slots, front, id), last);
      } else {
        assert last in listing;
        assert forall x | x in listing :: OrderOf(slots, x) <= OrderOf(slots, last);
        AppendAscends(slots, listing, id);
      }
    }
  }

  lemma {:induction false} AppendAscends(slots: seq<Slot>, listing: seq<nat>, last: nat)
    requires Ascending(slots, listing) && forall x | x in listing :: OrderOf(slots, x) < OrderOf(slots, last)
    ensures Ascending(slots, listing + [last])
  {
  }

  lemma {:induction false} OneMoreQueued(slots: seq<Slot>, listing: seq<nat>, id: nat)
    requires AllOrdersSet(slots) && DistinctQueueOrders(slots) && id < |slots| && QueuedStandard(slots[id])
    requires forall i | 0 <= i < |listing| :: listing[i] < |slots|
    requires forall x | x in listing :: x < id && QueuedStandard(slots[x])
    requires Ascending(slots, listing)
    ensures Ascending(slots, InsertByOrder(slots, listing, id))
  {
    forall x | x in listing
      ensures OrderOf(slots, x) != OrderOf(slots, id)
    {
      assert slots[x].sortOrder != slots[id].sortOrder;
    }
    InsertByOrderSorts(slots, listing, id);
  }

  lemma {:induction false} ListQueueSorts(slots: seq<Slot>, upTo: nat)
    requires upTo <= |slots| && AllOrdersSet(slots) && DistinctQueueOrders(slots)
    ensures Ascending(slots, ListQueue(slots, upTo))
  {
    if upTo > 0 {
      ListQueueSorts(slots, upTo - 1);
      if QueuedStandard(slots[upTo - 1]) {
        OneMoreQueued(slots, ListQueue(slots, upTo - 1), upTo - 1);
      }
    }
  }

  /** With distinct orders the listing of the source is the represented sequence. */
  lemma {:induction false} ListingRepresents(slots: seq<Slot>)
    requires AllOrdersSet(slots) && DistinctQueueOrders(slots)
    ensures Represents(slots, ListQueue(slots, |slots|))
  {
    ListQueueSorts(slots, |slots|);
  }

  /** ... and there is no other. */
  lemma {:induction false} RepresentationIsUnique(slots: seq<Slot>, a: seq<nat>, b: seq<nat>)
    requires Represents(slots, a) && Represents(slots, b)
    ensures a == b
  {
    PrefixesAgree(slots, a, b, |a|);
    PrefixesAgree(slots, b, a, |b|);
  }

  lemma {:induction false} PrefixesAgree(slots: seq<Slot>, a: seq<nat>, b: seq<nat>, k: nat)
    requires Represents(slots, a) && Represents(slots, b) && k <= |a|
    ensures k <= |b| && a[..k] == b[..k]
  {
    if k > 0 {
      PrefixesAgree(slots, a, b, k - 1);
      assert a[k - 1] in a;
      var j :| 0 <= j < |b| && b[j] == a[k - 1];
      SamePosition(slots, a, b, k - 1, j);
      assert a[..k] == a[..k - 1] + [a[k - 1]] && b[..k] == b[..k - 1] + [b[k - 1]];
    }
  }

  /** Listings that agree on their first `k` slots hold the next slot of the one at the same place. */
  lemma {:induction false} SamePosition(slots: seq<Slot>, a: seq<nat>, b: seq<nat>, k: nat, j: nat)
    requires Represents(slots, a) && Represents(slots, b)
    requires k < |a| && k <= |b| && a[..k] == b[..k] && j < |b| && b[j] == a[k]
    ensures j == k
  {
    assert forall i | 0 <= i < k :: a[i] == a[..k][i] == b[..k][i] == b[i];
    if k <= j {
      assert b[k] in b;
      var i :| 0 <= i < |a| && a[i] == b[k];
    }
  }

  lemma {:induction false} MaxIsUpperBound(slots: seq<Slot>)
    requires AllOrdersSet(slots)
    ensures slots != [] ==> MaxSortOrder(slots).Some?
    ensures forall i | 0 <= i < |slots| :: slots[i].sortOrder.value <= MaxSortOrder(slots).value
  {
    if slots != [] {
      MaxIsUpperBound(slots[..|slots| - 1]);
    }
  }

  lemma {:induction false} MissingOrderWins(slots: seq<Slot>, i: nat)
    requires i < |slots| && slots[i].sortOrder.None?
    ensures MaxSortOrder(slots).None?
  {
    if i < |slots| - 1 {
      MissingOrderWins(slots[..|slots| - 1], i);
    }
  }

  /** The order given to a requeued slot is behind every order exactly when no order is missing
      (or, with one missing, when all others are at most zero): a missing order reads as the maximum,
      counts as 0, and sends the slot to position 1. */
  lemma {:induction false} BackIsLastIff(slots: seq<Slot>)
    ensures (forall i | 0 <= i < |slots| && slots[i].sortOrder.Some? :: slots[i].sortOrder.value < BackOrder(slots))
       <==> AllOrdersSet(slots) || forall i | 0 <= i < |slots| && slots[i].sortOrder.Some? ::
            slots[i].sortOrder.value <= 0
  {
    if AllOrdersSet(slots) {
      MaxIsUpperBound(slots);
    } else {
      var i :| 0 <= i < |slots| && slots[i].sortOrder.None?;
      MissingOrderWins(slots, i);
    }
  }

  function Without(queue: seq<nat>, id: nat): (rest: seq<nat>)
    ensures forall x :: x in rest <==> x in queue && x != id
  {
    if queue == [] then []
    else
      assert queue == queue[..|queue| - 1] + [queue[|queue| - 1]];
      Without(queue[..|queue| - 1], id)
      + if queue[|queue| - 1] == id then [] else [queue[|queue| - 1]]
  }

  lemma {:induction false} WithoutIsAscending(slots: seq<Slot>, queue: seq<nat>, id: nat)
    requires Ascending(slots, queue)
    ensures Ascending(slots, Without(queue, id))
  {
    if queue != [] {
      var front, last := queue[..|queue| - 1], queue[|queue| - 1];
      WithoutIsAscending(slots, front, id);
      var rest := Without(front, id);
      forall i | 0 <= i < |rest|
        ensures OrderOf(slots, rest[i]) < OrderOf(slots, last)
      {
        assert rest[i] in front;
      }
    }
  }

  lemma AscendingReads(slots: seq<Slot>, slots': seq<Slot>, queue: seq<nat>)
    requires Ascending(slots, queue)
    requires forall x, y | x in queue && y in queue ::
      OrderOf(slots, x) < OrderOf(slots, y) ==> OrderOf(slots', x) < OrderOf(slots', y)
    ensures Ascending(slots', queue)
  {
  }

  /** Requeueing is "remove, then append": nobody else's position changes. */
  lemma {:induction false} MoveToBackRefines(slots: seq<Slot>, queue: seq<nat>, id: nat)
    requires AllOrdersSet(slots) && DistinctQueueOrders(slots) && Represents(slots, queue)
    requires id < |slots| && !slots[id].category.BIG_GAME?
    ensures var after := MoveSlotToBack(slots, id);
      && AllOrdersSet(after) && DistinctQueueOrders(after)
      && Represents(after, Without(queue, id) + [id])
  {
    var after, rest := MoveSlotToBack(slots, id), Without(queue, id);
    MaxIsUpperBound(slots);
    WithoutIsAscending(slots, queue, id);
    AscendingReads(slots, after, rest);
    assert forall x | x in rest :: OrderOf(after, x) < OrderOf(after, id);
    assert forall i | 0 <= i < |rest| :: rest[i] in rest;
  }

  /** A finished slot leaves the queue or goes to its end, as its removal flag says. */
  lemma {:induction false} RestoreRefines(slots: seq<Slot>, queue: seq<nat>, id: nat)
    requires AllOrdersSet(slots) && DistinctQueueOrders(slots) && Represents(slots, queue)
    requires id < |slots| && !slots[id].category.BIG_GAME?
    ensures var after := RestoreSlotAfterSession(slots, id);
      && AllOrdersSet(after) && DistinctQueueOrders(after)
      && Represents(after, Without(queue, id) + if slots[id].removeAfterFinish then [] else [id])
  {
    if slots[id].removeAfterFinish {
      WithoutIsAscending(slots, queue, id);
      var after, rest := RestoreSlotAfterSession(slots, id), Without(queue, id);
      AscendingReads(slots, after, rest);
      assert rest + [] == rest;
    } else {
      MoveToBackRefines(slots, queue, id);
    }
  }

  /** The shift of the insertion keeps the order of all queued slots, Big Games included. */
  lemma {:induction false} ShiftKeepsOrder(slots: seq<Slot>, anchor: int)
    requires AllOrdersSet(slots) && DistinctQueueOrders(slots)
    ensures var after := ShiftAllAfter(slots, anchor);
      && AllOrdersSet(after) && DistinctQueueOrders(after)
      && (forall x, y | 0 <= x < |slots| && 0 <= y < |slots| && Queued(slots[x]) && Queued(slots[y]) ::
            OrderOf(slots, x) < OrderOf(slots, y) ==> OrderOf(after, x) < OrderOf(after, y))
      && (forall x | 0 <= x < |slots| && Queued(slots[x]) :: OrderOf(after, x) != anchor + 1)
  {
    var after := ShiftAllAfter(slots, anchor);
    forall x, y | 0 <= x < y < |after| && Queued(after[x]) && Queued(after[y])
      ensures after[x].sortOrder != after[y].sortOrder
    {
      assert slots[x].sortOrder != slots[y].sortOrder;
    }
  }

  /** Where a new slot of a rule lands: at the end, or at index min(5, n) when one of the first five
      queued games already plays that rule. */
  function InsertionIndex(slots: seq<Slot>, queue: seq<nat>, ruleId: nat): (index: nat)
    requires forall i | 0 <= i < |queue| :: queue[i] < |slots|
    ensures index <= |queue|
  {
    if ShouldDeferDuplicateRule(slots, queue, ruleId) && |queue| > QUEUE_RULE_DIVERSITY_WINDOW
    then QUEUE_RULE_DIVERSITY_WINDOW
    else |queue|
  }

  lemma {:induction false} CreateRefines(slots: seq<Slot>, queue: seq<nat>, slot: Slot, ruleId: nat)
    requires AllOrdersSet(slots) && DistinctQueueOrders(slots) && Represents(slots, queue)
    requires QueuedStandard(slot)
    ensures forall i | 0 <= i < |queue| :: queue[i] < |slots|
    ensures var after := CreateInQueue(slots, slot, ruleId);
      var index := InsertionIndex(slots, queue, ruleId);
      && AllOrdersSet(after) && DistinctQueueOrders(after)
      && Represents(after, queue[..index] + [|slots|] + queue[index..])
  {
    assert forall i | 0 <= i < |queue| :: queue[i] in queue;
    CreatedSlots(slots, queue, slot, ruleId);
    CreatedRefines(slots, queue, slot, ruleId, CreateInQueue(slots, slot, ruleId));
  }

  function AnchorIndex(queue: seq<nat>): nat
    requires queue != []
  {
    if |queue| < QUEUE_RULE_DIVERSITY_WINDOW then |queue| - 1 else QUEUE_RULE_DIVERSITY_WINDOW - 1
  }

  /** The table after a creation, by the branch taken. */
  ghost predicate Created(slots: seq<Slot>, queue: seq<nat>, slot: Slot, ruleId: nat, after: seq<Slot>)
    requires forall i | 0 <= i < |queue| :: queue[i] < |slots|
  {
    if ShouldDeferDuplicateRule(slots, queue, ruleId) then
      var pivot := OrderOf(slots, queue[AnchorIndex(queue)]);
      after == ShiftAllAfter(slots, pivot) + [slot.(ruleId := Some(ruleId), sortOrder := Some(pivot + 1))]
    else
      after == slots + [slot.(ruleId := Some(ruleId), sortOrder := Some(BackOrder(slots)))]
  }

  lemma {:induction false} CreatedSlots(slots: seq<Slot>, queue: seq<nat>, slot: Slot, ruleId: nat)
    requires AllOrdersSet(slots) && DistinctQueueOrders(slots) && Represents(slots, queue)
    requires forall i | 0 <= i < |queue| :: queue[i] < |slots|
    ensures Created(slots, queue, slot, ruleId, CreateInQueue(slots, slot, ruleId))
  {
    ListingRepresents(slots);
    RepresentationIsUnique(slots, queue, ListQueue(slots, |slots|));
  }

  lemma {:induction false} CreatedRefines(slots: seq<Slot>, queue: seq<nat>, slot: Slot, ruleId: nat, after: seq<Slot>)
    requires AllOrdersSet(slots) && DistinctQueueOrders(slots) && Represents(slots, queue) && QueuedStandard(slot)
    requires forall i | 0 <= i < |queue| :: queue[i] < |slots|
    requires Created(slots, queue, slot, ruleId, after)
    ensures var index := InsertionIndex(slots, queue, ruleId);
      && AllOrdersSet(after) && DistinctQueueOrders(after)
      && Represents(after, queue[..index] + [|slots|] + queue[index..])
  {
    var index := InsertionIndex(slots, queue, ruleId);
    var created := after[|slots|];
    if ShouldDeferDuplicateRule(slots, queue, ruleId) {
      assert index == AnchorIndex(queue) + 1;
      CreateInserts(slots, queue, created, index - 1);
    } else {
      assert queue[..index] + [|slots|] + queue[index..] == queue + [|slots|];
      CreateAppends(slots, queue, created);
    }
  }

  lemma {:induction false} CreateAppends(slots: seq<Slot>, queue: seq<nat>, created: Slot)
    requires AllOrdersSet(slots) && DistinctQueueOrders(slots) && Represents(slots, queue)
    requires QueuedStandard(created) && created.sortOrder == Some(BackOrder(slots))
    ensures var after := slots + [created];
      AllOrdersSet(after) && DistinctQueueOrders(after) && Represents(after, queue + [|slots|])
  {
    var after := slots + [created];
    MaxIsUpperBound(slots);
    assert forall x | x in queue :: OrderOf(after, x) == OrderOf(slots, x) < OrderOf(after, |slots|);
    AscendingReads(slots, after, queue);
    assert forall i | 0 <= i < |queue| :: queue[i] in queue;
  }

  lemma {:induction false} CreateInserts(slots: seq<Slot>, queue: seq<nat>, created: Slot, anchor: nat)
    requires AllOrdersSet(slots) && DistinctQueueOrders(slots) && Represents(slots, queue)
    requires anchor < |queue|
    requires QueuedStandard(created) && created.sortOrder == Some(OrderOf(slots, queue[anchor]) + 1)
    ensures var after := ShiftAllAfter(slots, OrderOf(slots, queue[anchor])) + [created];
      && AllOrdersSet(after) && DistinctQueueOrders(after)
      && Represents(after, queue[..anchor + 1] + [|slots|] + queue[anchor + 1..])
  {
    var pivot := OrderOf(slots, queue[anchor]);
    var shifted := ShiftAllAfter(slots, pivot);
    var front, back := queue[..anchor + 1], queue[anchor + 1..];
    ShiftKeepsOrder(slots, pivot);
    InsertedIsAscending(slots, queue, shifted, created, anchor);
    assert queue == front + back;
    var after, longer := shifted + [created], front + [|slots|] + back;
    assert forall x :: x in longer <==> x in queue || x == |slots|;
  }

  lemma {:induction false} InsertedIsAscending(slots: seq<Slot>, queue: seq<nat>, shifted: seq<Slot>, created: Slot,
                                               anchor: nat)
    requires AllOrdersSet(slots) && Represents(slots, queue) && anchor < |queue|
    requires shifted == ShiftAllAfter(slots, OrderOf(slots, queue[anchor]))
    requires created.sortOrder == Some(OrderOf(slots, queue[anchor]) + 1)
    ensures Ascending(shifted + [created], queue[..anchor + 1] + [|slots|] + queue[anchor + 1..])
  {
    var after := shifted + [created];
    var front, back := queue[..anchor + 1], queue[anchor + 1..];
    assert queue == front + back;
    AroundPivot(slots, queue, anchor);
    forall x | x in queue
      ensures OrderOf(after, x) == OrderOf(slots, x) + if OrderOf(slots, x) > OrderOf(slots, queue[anchor]) then 1
        else 0
    {
      assert 0 <= x < |slots| && QueuedStandard(slots[x]);
    }
    AscendingReads(slots, after, queue);
    AscendingInsert(after, front, |slots|, back);
  }

  lemma AroundPivot(slots: seq<Slot>, queue: seq<nat>, anchor: nat)
    requires Ascending(slots, queue) && anchor < |queue|
    ensures forall x | x in queue[..anchor + 1] :: OrderOf(slots, x) <= OrderOf(slots, queue[anchor])
    ensures forall x | x in queue[anchor + 1..] :: OrderOf(slots, x) > OrderOf(slots, queue[anchor])
  {
  }

  lemma {:induction false} AscendingInsert(slots: seq<Slot>, front: seq<nat>, x: nat, back: seq<nat>)
    requires Ascending(slots, front + back)
    requires forall y | y in front :: OrderOf(slots, y) < OrderOf(slots, x)
    requires forall y | y in back :: OrderOf(slots, x) < OrderOf(slots, y)
    ensures Ascending(slots, front + [x] + back)
  {
    var both, all := front + back, front + [x] + back;
    forall i, j | 0 <= i < j < |all|
      ensures OrderOf(slots, all[i]) < OrderOf(slots, all[j])
    {
      var i' := if i <= |front| then i else i - 1;
      var j' := if j <= |front| then j else j - 1;
      assert i != |front| ==> all[i] == both[i'];
      assert j != |front| ==> all[j] == both[j'];
    }
  }

  // ---- Reordering by an administrator ----

  lemma {:induction false} ReorderReads(slots: seq<Slot>, ids: seq<nat>, x: nat)
    requires forall i | 0 <= i < |ids| :: ids[i] < |slots|
    requires forall i, j | 0 <= i < j < |ids| :: ids[i] != ids[j]
    requires x < |slots|
    ensures x !in ids ==> Reorder(slots, ids)[x] == slots[x]
    ensures forall i | 0 <= i < |ids| && ids[i] == x :: Reorder(slots, ids)[x] == slots[x].(sortOrder := Some(i + 1))
  {
    if ids != [] {
      var front := ids[..|ids| - 1];
      assert ids == front + [ids[|ids| - 1]];
      ReorderReads(slots, front, x);
      if ids[|ids| - 1] == x {
        assert x !in front;
      }
    }
  }

  /** A reorder leaves the queue without ties exactly when no queued slot that the request leaves out
      holds one of the orders 1..n that it hands to queued slots. */
  lemma {:induction false} ReorderDistinctIff(slots: seq<Slot>, ids: seq<nat>)
    requires DistinctQueueOrders(slots)
    requires forall i | 0 <= i < |ids| :: ids[i] < |slots|
    requires forall i, j | 0 <= i < j < |ids| :: ids[i] != ids[j]
    ensures DistinctQueueOrders(Reorder(slots, ids)) <==> ReorderIsHarmless(slots, ids)
  {
    var after := Reorder(slots, ids);
    forall x: nat | x < |slots|
      ensures x !in ids ==> after[x] == slots[x]
      ensures forall i | 0 <= i < |ids| && ids[i] == x :: after[x] == slots[x].(sortOrder := Some(i + 1))
    {
      ReorderReads(slots, ids, x);
    }
    if DistinctQueueOrders(after) {
      forall x, i | 0 <= x < |slots| && x !in ids && Queued(slots[x]) && 0 <= i < |ids| && Queued(slots[ids[i]])
        ensures slots[x].sortOrder != Some(i + 1)
      {
        assert after[ids[i]].sortOrder == Some(i + 1) && after[x] == slots[x];
        assert Queued(after[ids[i]]) && ids[i] != x;
      }
    }
  }

  method AssertTopFiveQueueRuleDiversity(ruleIds: seq<Option<nat>>) returns (diverse: bool)
    ensures diverse <==> TopFiveDiverse(ruleIds)
  {
    var topFive := if |ruleIds| <= QUEUE_RULE_DIVERSITY_WINDOW then ruleIds else ruleIds[..QUEUE_RULE_DIVERSITY_WINDOW];
    var seen: set<nat> := {};
    for k := 0 to |topFive|
      invariant forall id :: id in seen <==> exists i | 0 <= i < k :: topFive[i] == Some(id)
      invariant forall i, j | 0 <= i < j < k :: topFive[i].None? || topFive[i] != topFive[j]
    {
      if topFive[k].None? {
        continue;
      }
      if topFive[k].value in seen {
        return false;
      }
      seen := seen + {topFive[k].value};
    }
    return true;
  }

  // ---- Which slot may start ----

  predicate Candidate(slot: Slot) {
    slot.status == NEXT || slot.status == READY
  }

  /** `scheduledStartAt` of the newest READY session of a slot. */
  function ReadyScheduledAt(sessions: seq<Session>, slotId: nat): Option<int> {
    if sessions == [] then None
    else
      var last := sessions[|sessions| - 1];
      if last.slotId == slotId && last.status == READY then last.scheduledStartAt
      else ReadyScheduledAt(sessions[..|sessions| - 1], slotId)
  }

  predicate DueBigGame(slots: seq<Slot>, sessions: seq<Session>, now: int, id: nat)
    requires id < |slots|
  {
    && Candidate(slots[id]) && slots[id].category.BIG_GAME?
    && ReadyScheduledAt(sessions, id).Some? && ReadyScheduledAt(sessions, id).value <= now
  }

  /** The due Big Game that must start first: earliest schedule, then lowest order, then table order. */
  function FirstDueBigGame(slots: seq<Slot>, sessions: seq<Session>, now: int, upTo: nat): (id: Option<nat>)
    requires upTo <= |slots|
    ensures id.Some? ==> id.value < upTo && DueBigGame(slots, sessions, now, id.value)
    ensures id.None? ==> forall x | 0 <= x < upTo :: !DueBigGame(slots, sessions, now, x)
  {
    if upTo == 0 then None
    else
      var best, x := FirstDueBigGame(slots, sessions, now, upTo - 1), upTo - 1;
      if !DueBigGame(slots, sessions, now, x) then best
      else if best.None? then Some(x)
      else
        var mine, theirs := ReadyScheduledAt(sessions, x).value, ReadyScheduledAt(sessions, best.value).value;
        if mine < theirs || (mine == theirs && OrderedBefore(slots[x].sortOrder, slots[best.value].sortOrder))
        then Some(x)
        else best
  }

  function FirstStandard(slots: seq<Slot>, upTo: nat): (id: Option<nat>)
    requires upTo <= |slots|
    ensures id.Some? ==> id.value < upTo && Candidate(slots[id.value]) && !slots[id.value].category.BIG_GAME?
    ensures id.None? ==> forall x | 0 <= x < upTo :: !Candidate(slots[x]) || slots[x].category.BIG_GAME?
    ensures id.Some? ==> forall x | 0 <= x < upTo && Candidate(slots[x]) && !slots[x].category.BIG_GAME? ::
      !OrderedBefore(slots[x].sortOrder, slots[id.value].sortOrder)
  {
    if upTo == 0 then None
    else
      var best, x := FirstStandard(slots, upTo - 1), upTo - 1;
      if !Candidate(slots[x]) || slots[x].category.BIG_GAME? then best
      else if best.None? || OrderedBefore(slots[x].sortOrder, slots[best.value].sortOrder) then Some(x)
      else best
  }

  /** `assertSlotReady`: true when it does not throw. */
  predicate SlotReady(slots: seq<Slot>, sessions: seq<Session>, now: int, id: nat)
    requires id < |slots|
  {
    && Candidate(slots[id])
    && var due := FirstDueBigGame(slots, sessions, now, |slots|);
       if due.Some? then due.value == id
       else !slots[id].category.BIG_GAME? && FirstStandard(slots, |slots|) == Some(id)
  }

  /** Without a due Big Game, the head of the queue is the only slot that may start. */
  lemma {:induction false} OnlyHeadStarts(slots: seq<Slot>, sessions: seq<Session>, now: int, queue: seq<nat>, id: nat)
    requires AllOrdersSet(slots) && DistinctQueueOrders(slots) && Represents(slots, queue)
    requires forall x | 0 <= x < |slots| && slots[x].status == READY :: slots[x].category.BIG_GAME?
    requires forall x | 0 <= x < |slots| :: !DueBigGame(slots, sessions, now, x)
    requires id < |slots|
    ensures SlotReady(slots, sessions, now, id) <==> queue != [] && id == queue[0]
  {
    var first := FirstStandard(slots, |slots|);
    assert forall i | 0 <= i < |queue| :: queue[i] in queue;
    if first.Some? {
      assert first.value in queue;
      var k :| 0 <= k < |queue| && queue[k] == first.value;
      assert OrderOf(slots, queue[0]) <= OrderOf(slots, queue[k]);
    }
  }
}
