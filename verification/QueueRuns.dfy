/** What runs keep of the slot table: the queue's orders stay a sequence, and Big Games stay out of it. */
module QueueRuns {
  import opened Common
  import opened Games
  import opened GameQueue
  import opened Registering
  import opened Rounds
  import opened Opening
  import opened Platform
  import opened Invariants
  import opened Safety
  import opened AccountSteps
  import opened Runs
  import opened EarnedWins
  import Bulk
  import OpenerProofs

  // ---- Orders ----

  /** The orders of the queue are all there and pairwise distinct, so they describe a sequence. */
  ghost predicate QueueOk(slots: seq<Slot>) {
    AllOrdersSet(slots) && DistinctQueueOrders(slots)
  }

  lemma {:induction false} MoveToBackKeeps(slots: seq<Slot>, id: nat)
    requires QueueOk(slots) && id < |slots|
    ensures QueueOk(MoveSlotToBack(slots, id))
  {
    MaxIsUpperBound(slots);
  }

  lemma {:induction false} RestoreKeeps(slots: seq<Slot>, id: nat)
    requires QueueOk(slots) && id < |slots|
    ensures QueueOk(RestoreSlotAfterSession(slots, id))
  {
    MoveToBackKeeps(slots, id);
  }

  lemma {:induction false} CreateKeeps(slots: seq<Slot>, slot: Slot, ruleId: nat)
    requires QueueOk(slots)
    ensures QueueOk(CreateInQueue(slots, slot, ruleId))
  {
    var listing := ListQueue(slots, |slots|);
    var (shifted, order) := AssignSortOrderOnCreate(slots, ruleId);
    if listing == [] || !ShouldDeferDuplicateRule(slots, listing, ruleId) {
      MaxIsUpperBound(slots);
      AppendKeeps(slots, slot.(ruleId := Some(ruleId), sortOrder := Some(order)));
    } else {
      ShiftKeepsOrder(slots, InsertAfterSortOrder(slots, listing));
      assert forall x | 0 <= x < |shifted| :: Queued(shifted[x]) <==> Queued(slots[x]);
      AppendKeeps(shifted, slot.(ruleId := Some(ruleId), sortOrder := Some(order)));
    }
  }

  lemma {:induction false} AppendKeeps(slots: seq<Slot>, slot: Slot)
    requires QueueOk(slots) && slot.sortOrder.Some?
    requires forall x | 0 <= x < |slots| && Queued(slots[x]) :: slots[x].sortOrder != slot.sortOrder
    ensures QueueOk(slots + [slot])
  {
  }

  lemma {:induction false} ReorderKeeps(slots: seq<Slot>, ids: seq<nat>)
    requires QueueOk(slots) && (forall i | 0 <= i < |ids| :: ids[i] < |slots|)
    requires ReorderAllowed(slots, ids) && ReorderIsHarmless(slots, ids)
    ensures QueueOk(Reorder(slots, ids))
  {
    ReorderDistinctIff(slots, ids);
    forall x | 0 <= x < |slots|
      ensures Reorder(slots, ids)[x].sortOrder.Some?
    {
      ReorderReads(slots, ids, x);
      if x in ids {
        var i :| 0 <= i < |ids| && ids[i] == x;
      }
    }
  }

  /** The queue columns of every slot, apart from a slot leaving the queue. */
  ghost predicate OnlyLeaves(slots: seq<Slot>, slots': seq<Slot>) {
    && |slots'| == |slots|
    && forall i | 0 <= i < |slots| ::
      slots'[i].sortOrder == slots[i].sortOrder && (Queued(slots'[i]) ==> Queued(slots[i]))
  }

  lemma {:induction false} LeavingKeeps(slots: seq<Slot>, slots': seq<Slot>)
    requires QueueOk(slots) && OnlyLeaves(slots, slots')
    ensures QueueOk(slots')
  {
  }

  /** Every reorder that is carried out is harmless. */
  ghost predicate IsTidy(st: State, e: Event) {
    e.ReorderQueue? && (forall i | 0 <= i < |e.slotIds| :: e.slotIds[i] < |st.slots|)
      && ReorderAllowed(st.slots, e.slotIds) ==>
      ReorderIsHarmless(st.slots, e.slotIds)
  }

  ghost predicate TidyRun(start: State, events: seq<Event>) {
    events == [] || (TidyRun(start, events[..|events| - 1])
                     && IsTidy(After(start, events[..|events| - 1]), events[|events| - 1]))
  }

  /** The events that write the slot table in a way that matters to the queue. */
  predicate WritesSlots(e: Event) {
    e.CreateSlot? || e.Start? || e.FinalizeWindow? || e.Approve? || e.EndWithoutWinner? || e.Cancel? || e.UpdateFee?
    || e.SwitchMode? || e.ReorderQueue?
  }

  lemma {:induction false} OthersKeepSlots(st: State, e: Event)
    requires References(st) && Addressed(st, e) && !WritesSlots(e)
    ensures Apply(st, e).slots == st.slots
  {
    if e.Register? || e.RegisterChunk? || e.Confirm? {
      RegistrationKeepsSlots(st, e);
    }
  }

  lemma {:induction false} RegistrationKeepsSlots(st: State, e: Event)
    requires References(st) && Addressed(st, e) && (e.Register? || e.RegisterChunk? || e.Confirm?)
    ensures Apply(st, e).slots == st.slots
  {
    match e
    case Register(sid, user, cartelaId) => RegisterShape(st, sid, user, cartelaId, true);
    case RegisterChunk(sid, user, cartelaIds) =>
    case Confirm(sid, hold, user) => ConfirmShape(st, sid, hold, user);
  }

  predicate SlotKeptOrRestored(st: State, after: State, sid: nat)
    requires References(st) && sid < |st.sessions|
  {
    after.slots == st.slots || after.slots == RestoreSlotAfterSession(st.slots, st.sessions[sid].slotId)
  }

  /** An ending transaction restores the slot of its session or leaves the table; its opener leaves it. */
  lemma {:induction false} EndSlots(st: State, ended: Option<State>, sid: nat, deferred: bool, opener: Option<int>)
    requires References(st) && sid < |st.sessions|
    requires ended.Some? ==> SlotKeptOrRestored(st, ended.value, sid)
    ensures SlotKeptOrRestored(st, ThenOpen(st, ended, deferred, opener), sid)
  {
  }

  predicate IsEnd(e: Event) {
    e.FinalizeWindow? || e.Approve? || e.EndWithoutWinner? || e.Cancel?
  }

  lemma {:induction false} EndEventSlots(st: State, e: Event)
    requires References(st) && Addressed(st, e) && IsEnd(e)
    ensures SlotKeptOrRestored(st, Apply(st, e), e.sid)
  {
    if e.FinalizeWindow? {
      assert Apply(st, e) == ThenOpen(st, FinalizeNow(st, e.sid, e.graceMs, e.clock), false, e.opener);
      WindowSlots(st, e.sid, e.graceMs, e.clock, e.opener);
    } else if e.Approve? {
      assert Apply(st, e) == ThenOpen(st, ApproveClaim(st, e.sid, e.claim, e.checkedAt), false, e.opener);
      ApprovalSlots(st, e.sid, e.claim, e.checkedAt, e.opener);
    } else {
      UnpaidEndSlots(st, e);
    }
  }

  lemma {:induction false} UnpaidEndSlots(st: State, e: Event)
    requires References(st) && Addressed(st, e) && (e.EndWithoutWinner? || e.Cancel?)
    ensures SlotKeptOrRestored(st, Apply(st, e), e.sid)
  {
    if e.EndWithoutWinner? {
      assert Apply(st, e) == ThenOpen(st, EndWithoutWinnerNow(st, e.sid), false, e.opener);
      EndSlots(st, EndWithoutWinnerNow(st, e.sid), e.sid, false, e.opener);
    } else {
      var opener := if e.requeueSlot then e.opener else None;
      assert Apply(st, e) == ThenOpen(st, CancelSession(st, e.sid, e.requeueSlot, e.abortIfPlayers), true, opener);
      EndSlots(st, CancelSession(st, e.sid, e.requeueSlot, e.abortIfPlayers), e.sid, true, opener);
    }
  }

  lemma {:induction false} WindowSlots(st: State, sid: nat, graceMs: int, clock: int, opener: Option<int>)
    requires References(st) && sid < |st.sessions|
    ensures SlotKeptOrRestored(st, ThenOpen(st, FinalizeNow(st, sid, graceMs, clock), false, opener), sid)
  {
    EndSlots(st, FinalizeNow(st, sid, graceMs, clock), sid, false, opener);
  }

  lemma {:induction false} ApprovalSlots(st: State, sid: nat, claim: nat, checkedAt: int, opener: Option<int>)
    requires References(st) && sid < |st.sessions|
    ensures SlotKeptOrRestored(st, ThenOpen(st, ApproveClaim(st, sid, claim, checkedAt), false, opener), sid)
  {
    EndSlots(st, ApproveClaim(st, sid, claim, checkedAt), sid, false, opener);
  }

  lemma {:induction false} EventKeepsQueue(st: State, e: Event)
    requires References(st) && Addressed(st, e) && QueueOk(st.slots) && IsTidy(st, e)
    ensures QueueOk(Apply(st, e).slots)
  {
    if !WritesSlots(e) {
      OthersKeepSlots(st, e);
    } else if IsEnd(e) {
      EndEventSlots(st, e);
      RestoreKeeps(st.slots, st.sessions[e.sid].slotId);
    } else {
      WriteKeepsQueue(st, e);
    }
  }

  lemma {:induction false} WriteKeepsQueue(st: State, e: Event)
    requires References(st) && Addressed(st, e) && QueueOk(st.slots) && IsTidy(st, e)
    requires e.CreateSlot? || e.Start? || e.UpdateFee? || e.SwitchMode? || e.ReorderQueue?
    ensures QueueOk(Apply(st, e).slots)
  {
    if e.CreateSlot? {
      CreateKeeps(st.slots, RequestedSlot(e.request), e.request.ruleId);
    } else if e.ReorderQueue? {
      if ReorderAllowed(st.slots, e.slotIds) {
        ReorderKeeps(st.slots, e.slotIds);
      }
    } else {
      LeaversKeepQueue(st, e);
    }
  }

  lemma {:induction false} LeaversKeepQueue(st: State, e: Event)
    requires References(st) && Addressed(st, e) && QueueOk(st.slots) && (e.Start? || e.UpdateFee? || e.SwitchMode?)
    ensures QueueOk(Apply(st, e).slots)
  {
    LeavingKeeps(st.slots, Apply(st, e).slots);
  }

  lemma {:induction false} QueueStaysOrdered(start: State, events: seq<Event>)
    requires Initial(start) && QueueOk(start.slots) && TidyRun(start, events)
    ensures QueueOk(After(start, events).slots)
    ensures Represents(After(start, events).slots, ListQueue(After(start, events).slots, |After(start, events).slots|))
  {
    if events != [] {
      QueueStaysOrdered(start, events[..|events| - 1]);
      EveryRunIsSafe(start, events[..|events| - 1]);
      var before := After(start, events[..|events| - 1]);
      if Addressed(before, events[|events| - 1]) {
        EventKeepsQueue(before, events[|events| - 1]);
      }
    }
    ListingRepresents(After(start, events).slots);
  }

  /** In every run whose reorders are harmless: when no Big Game is due, the one slot that can start is the
      head of the queue. */
  lemma {:induction false} OnlyHeadStartsInRuns(start: State, events: seq<Event>, id: nat)
    requires Initial(start) && QueueOk(start.slots) && TidyRun(start, events) && id < |After(start, events).slots|
    requires var st := After(start, events);
      forall x | 0 <= x < |st.slots| :: !DueBigGame(st.slots, st.sessions, st.now, x)
    ensures var st := After(start, events);
      var queue := ListQueue(st.slots, |st.slots|);
      SlotReady(st.slots, st.sessions, st.now, id) <==> queue != [] && id == queue[0]
  {
    var st := After(start, events);
    QueueStaysOrdered(start, events);
    EveryRunIsSafe(start, events);
    assert forall x | 0 <= x < |st.slots| && st.slots[x].status == READY :: StandardSlot(st.slots[x]);
    OnlyHeadStarts(st.slots, st.sessions, st.now, ListQueue(st.slots, |st.slots|), id);
  }

  // ---- Inputs on which the orders fail ----

  const FIRST := Slot(NEXT, NORMAL, AUTO, Some(1), false, 1000, 800, None, None, false, Some(1))
  const SECOND := Slot(NEXT, NORMAL, AUTO, Some(2), false, 1000, 800, None, None, false, Some(2))

  const TWO_QUEUED := State(0, 100, [FIRST, SECOND], [], Books([], map[]), multiset{})

  /** Reordering only the second of two slots gives both the order 1. */
  lemma {:induction false} PartialReorderCollides()
    ensures Initial(TWO_QUEUED) && QueueOk(TWO_QUEUED.slots)
    ensures After(TWO_QUEUED, [ReorderQueue([1])]).slots == [FIRST, SECOND.(sortOrder := Some(1))]
    ensures !QueueOk(After(TWO_QUEUED, [ReorderQueue([1])]).slots)
  {
    OneMoreEvent(TWO_QUEUED, [], ReorderQueue([1]));
    assert [] + [ReorderQueue([1])] == [ReorderQueue([1])];
    assert ReorderAllowed(TWO_QUEUED.slots, [1]);
    assert Reorder(TWO_QUEUED.slots, [1]) == [FIRST, SECOND.(sortOrder := Some(1))] by {
      var none: seq<nat> := [];
      assert [1][..0] == none;
      assert Reorder(TWO_QUEUED.slots, none) == TWO_QUEUED.slots;
    }
    var slots := After(TWO_QUEUED, [ReorderQueue([1])]).slots;
    assert Queued(slots[0]) && Queued(slots[1]) && slots[0].sortOrder == slots[1].sortOrder;
  }

  /** A slot whose order is missing sends a requeued slot to order 1, before the others; a queue that starts
      ordered and is reordered without collisions never gets there (`QueueStaysOrdered`). */
  lemma {:induction false} MissingOrderSendsToFront()
    ensures var slots := [SECOND, FIRST.(sortOrder := None), FIRST];
      MoveSlotToBack(slots, 2)[2].sortOrder == Some(1) && slots[0].sortOrder == Some(2)
  {
    MissingOrderWins([SECOND, FIRST.(sortOrder := None), FIRST], 1);
  }

  // ---- Big Games ----

  /** Big Game slots are never queued and leave after one round, and registration for one is open only while
      its slot is READY. */
  ghost predicate BigGamesApart(slots: seq<Slot>, sessions: seq<Session>) {
    && (forall i | 0 <= i < |slots| && slots[i].category.BIG_GAME? ::
        slots[i].removeAfterFinish && slots[i].status != NEXT)
    && (forall i | 0 <= i < |sessions| && sessions[i].status == READY && sessions[i].slotId < |slots|
                   && slots[sessions[i].slotId].category.BIG_GAME? :: slots[sessions[i].slotId].status == READY)
  }

  /** Slots that keep what matters to Big Games. */
  ghost predicate SameApart(slots: seq<Slot>, slots': seq<Slot>) {
    && |slots| <= |slots'|
    && forall i | 0 <= i < |slots| ::
         && slots'[i].category == slots[i].category && slots'[i].removeAfterFinish == slots[i].removeAfterFinish
         && (slots[i].category.BIG_GAME? ==> slots'[i].status == slots[i].status)
  }

  /** No session becomes READY. */
  ghost predicate NoneOpens(st: State, st': State) {
    && |st'.sessions| == |st.sessions|
    && forall i | 0 <= i < |st.sessions| ::
         st'.sessions[i].slotId == st.sessions[i].slotId
           && (st'.sessions[i].status == READY ==> st.sessions[i].status == READY)
  }

  lemma {:induction false} QuietKeepsApart(st: State, st': State)
    requires References(st) && BigGamesApart(st.slots, st.sessions) && SameApart(st.slots, st'.slots)
    requires |st'.slots| == |st.slots|
    requires NoneOpens(st, st')
    ensures BigGamesApart(st'.slots, st'.sessions)
  {
    forall i | 0 <= i < |st'.sessions| && st'.sessions[i].status == READY && st'.sessions[i].slotId < |st'.slots|
               && st'.slots[st'.sessions[i].slotId].category.BIG_GAME?
      ensures st'.slots[st'.sessions[i].slotId].status == READY
    {
      assert st.sessions[i].status == READY;
    }
  }

  /** A session opens on a queued slot, which is no Big Game's. */
  lemma {:induction false} OpenedKeepsApart(st: State, session: Session)
    requires BigGamesApart(st.slots, st.sessions)
    requires session.slotId < |st.slots| && st.slots[session.slotId].status == NEXT
    ensures BigGamesApart(st.slots, st.sessions + [session])
  {
  }

  lemma {:induction false} OpenNextKeepsApart(st: State, options: OpenerOptions, recentlyFinished: bool,
                                              durationMs: int)
    requires References(st) && BigGamesApart(st.slots, st.sessions)
    ensures var after := OpenNext(st, options, recentlyFinished, durationMs); BigGamesApart(after.slots, after.sessions)
  {
    if OpenerProofs.MayOpen(st, options, recentlyFinished) {
      if HeadReady(st.slots, st.sessions).Some? {
        OpenerProofs.RunWithHead(st, options, recentlyFinished, durationMs);
        QuietKeepsApart(st, OpenNext(st, options, recentlyFinished, durationMs));
      } else {
        OpenerProofs.RunWithoutHead(st, options, recentlyFinished, durationMs);
        var head := QueueHead(st.slots);
        if head.Some? {
          OpenedKeepsApart(st,
                           ReadySession(st.slots, head.value,
                                        if AnyLive(st.sessions) then None else Some(st.now + durationMs)));
        }
      }
    }
  }

  lemma {:induction false} CreateKeepsApart(st: State, request: SlotRequest)
    requires References(st) && BigGamesApart(st.slots, st.sessions) && SlotsOk(st.slots)
    requires CreateGameSlot(st, request).Some?
    ensures var after := CreateGameSlot(st, request).value; BigGamesApart(after.slots, after.sessions)
  {
    var slots := CreateInQueue(st.slots, RequestedSlot(request), request.ruleId);
    CreatedSlotFacts(st.slots, RequestedSlot(request), request.ruleId);
    CreatedKeepsColumns(st.slots, RequestedSlot(request), request.ruleId);
    forall i | 0 <= i < |st.sessions| && st.sessions[i].status == READY
        && slots[st.sessions[i].slotId].category.BIG_GAME?
      ensures slots[st.sessions[i].slotId].status == READY
    {
      assert st.slots[st.sessions[i].slotId].category.BIG_GAME?;
    }
  }

  lemma {:induction false} CreatedKeepsColumns(slots: seq<Slot>, slot: Slot, ruleId: nat)
    ensures SameApart(slots, CreateInQueue(slots, slot, ruleId))
  {
    var (shifted, order) := AssignSortOrderOnCreate(slots, ruleId);
    assert |shifted| == |slots|;
    assert forall i | 0 <= i < |slots| :: shifted[i] == slots[i].(sortOrder := shifted[i].sortOrder);
  }

  lemma {:induction false} StartKeepsApart(st: State, slotId: nat, config: StartConfig)
    requires Safe(st) && BigGamesApart(st.slots, st.sessions) && slotId < |st.slots|
    requires StartGame(st, slotId, config).Some?
    ensures var after := StartGame(st, slotId, config).value; BigGamesApart(after.slots, after.sessions)
  {
    var after := StartGame(st, slotId, config).value;
    forall i | 0 <= i < |after.sessions| && after.sessions[i].status == READY
        && after.sessions[i].slotId < |after.slots|
               && after.slots[after.sessions[i].slotId].category.BIG_GAME?
      ensures after.slots[after.sessions[i].slotId].status == READY
    {
      assert i < |st.sessions| && st.sessions[i].status == READY && st.sessions[i].slotId == after.sessions[i].slotId;
      assert st.sessions[i].slotId != slotId;
    }
  }

  lemma {:induction false} EndKeepsApart(st: State, ended: State, sid: nat)
    requires Safe(st) && References(st) && BigGamesApart(st.slots, st.sessions) && sid < |st.sessions|
    requires EndsOnly(st, ended, sid)
    requires IsOpen(st.sessions[sid].status)
    requires forall i | 0 <= i < |st.sessions| :: ended.sessions[i].slotId == st.sessions[i].slotId
    requires ended.slots == st.slots || ended.slots == RestoreSlotAfterSession(st.slots, st.sessions[sid].slotId)
    ensures BigGamesApart(ended.slots, ended.sessions)
  {
    forall i | 0 <= i < |ended.sessions| && ended.sessions[i].status == READY
        && ended.sessions[i].slotId < |ended.slots|
               && ended.slots[ended.sessions[i].slotId].category.BIG_GAME?
      ensures ended.slots[ended.sessions[i].slotId].status == READY
    {
      assert i != sid && IsOpen(st.sessions[i].status);
      assert st.sessions[i].slotId != st.sessions[sid].slotId;
    }
  }

  lemma {:induction false} EndEventKeepsApart(st: State, ended: Option<State>, sid: nat, deferred: bool,
                                              opener: Option<int>)
    requires Safe(st) && References(st) && BigGamesApart(st.slots, st.sessions) && sid < |st.sessions|
    requires ended.Some? ==>
      && Good(st, ended.value) && EndsOnly(st, ended.value, sid) && IsOpen(st.sessions[sid].status)
      && (ended.value.slots == st.slots
          || ended.value.slots == RestoreSlotAfterSession(st.slots, st.sessions[sid].slotId))
    ensures var after := ThenOpen(st, ended, deferred, opener); BigGamesApart(after.slots, after.sessions)
  {
    if ended.Some? {
      assert forall i | 0 <= i < |st.sessions| :: SessionGrows(st.sessions[i], ended.value.sessions[i]);
      EndKeepsApart(st, ended.value, sid);
      if opener.Some? {
        OpenNextKeepsApart(ended.value, OpenerOptions(true, deferred), false, opener.value);
      }
    }
  }

  lemma {:induction false} WindowKeepsApart(st: State, sid: nat, graceMs: int, clock: int, opener: Option<int>)
    requires Safe(st) && References(st) && sid < |st.sessions| && BigGamesApart(st.slots, st.sessions)
    ensures var after := ThenOpen(st, FinalizeNow(st, sid, graceMs, clock), false, opener);
      BigGamesApart(after.slots, after.sessions)
  {
    if FinalizeNow(st, sid, graceMs, clock).Some? {
      FinalizeIsGood(st, sid, graceMs, clock);
    }
    EndEventKeepsApart(st, FinalizeNow(st, sid, graceMs, clock), sid, false, opener);
  }

  lemma {:induction false} ApprovalKeepsApart(st: State, sid: nat, claim: nat, checkedAt: int, opener: Option<int>)
    requires Safe(st) && References(st) && sid < |st.sessions| && BigGamesApart(st.slots, st.sessions)
    requires claim < |st.sessions[sid].claims| && st.sessions[sid].claims[claim].createdAt <= checkedAt <= st.now
    ensures var after := ThenOpen(st, ApproveClaim(st, sid, claim, checkedAt), false, opener);
      BigGamesApart(after.slots, after.sessions)
  {
    if ApproveClaim(st, sid, claim, checkedAt).Some? {
      ApproveIsGood(st, sid, claim, checkedAt);
    }
    EndEventKeepsApart(st, ApproveClaim(st, sid, claim, checkedAt), sid, false, opener);
  }

  lemma {:induction false} NoWinnerKeepsApart(st: State, sid: nat, opener: Option<int>)
    requires Safe(st) && References(st) && sid < |st.sessions| && BigGamesApart(st.slots, st.sessions)
    ensures var after := ThenOpen(st, EndWithoutWinnerNow(st, sid), false, opener);
      BigGamesApart(after.slots, after.sessions)
  {
    if EndWithoutWinnerNow(st, sid).Some? {
      NoWinnerIsGood(st, sid);
    }
    EndEventKeepsApart(st, EndWithoutWinnerNow(st, sid), sid, false, opener);
  }

  lemma {:induction false} CancelKeepsApart(st: State, sid: nat, requeueSlot: bool, abortIfPlayers: bool,
                                            opener: Option<int>)
    requires Safe(st) && References(st) && sid < |st.sessions| && BigGamesApart(st.slots, st.sessions)
    ensures var after := ThenOpen(st, CancelSession(st, sid, requeueSlot, abortIfPlayers), true, opener);
      BigGamesApart(after.slots, after.sessions)
  {
    if CancelSession(st, sid, requeueSlot, abortIfPlayers).Some? {
      CancelIsGood(st, sid, requeueSlot, abortIfPlayers);
    }
    EndEventKeepsApart(st, CancelSession(st, sid, requeueSlot, abortIfPlayers), sid, true, opener);
  }

  lemma {:induction false} PayoutKeepsApart(st: State, e: Event)
    requires Safe(st) && References(st) && Addressed(st, e) && BigGamesApart(st.slots, st.sessions)
    requires e.FinalizeWindow? || e.Approve?
    ensures BigGamesApart(Apply(st, e).slots, Apply(st, e).sessions)
  {
    match e
    case FinalizeWindow(sid, graceMs, clock, opener) => WindowKeepsApart(st, sid, graceMs, clock, opener);
    case Approve(sid, claim, checkedAt, opener) => ApprovalKeepsApart(st, sid, claim, checkedAt, opener);
  }

  lemma {:induction false} EndingKeepsApart(st: State, e: Event)
    requires Safe(st) && References(st) && Addressed(st, e) && BigGamesApart(st.slots, st.sessions)
    requires e.EndWithoutWinner? || e.Cancel?
    ensures BigGamesApart(Apply(st, e).slots, Apply(st, e).sessions)
  {
    match e
    case EndWithoutWinner(sid, opener) => NoWinnerKeepsApart(st, sid, opener);
    case Cancel(sid, requeueSlot, abortIfPlayers, opener) =>
      CancelKeepsApart(st, sid, requeueSlot, abortIfPlayers, if requeueSlot then opener else None);
  }

  predicate Creates(e: Event) {
    e.CreateSlot? || e.FirstRegistration? || e.OpenRegistration? || e.Start?
  }

  lemma {:induction false} CreatingKeepsApart(st: State, e: Event)
    requires Safe(st) && References(st) && Addressed(st, e) && BigGamesApart(st.slots, st.sessions) && Creates(e)
    ensures BigGamesApart(Apply(st, e).slots, Apply(st, e).sessions)
  {
    match e
    case CreateSlot(request) =>
      if CreateGameSlot(st, request).Some? { CreateKeepsApart(st, request); }
    case FirstRegistration(slotId) =>
      if CreateForFirstRegistration(st, slotId).Some? { OpenedKeepsApart(st, ReadySession(st.slots, slotId, None)); }
    case OpenRegistration(options, recentlyFinished, durationMs) =>
      OpenNextKeepsApart(st, options, recentlyFinished, durationMs);
    case Start(slotId, config) =>
      if StartGame(st, slotId, config).Some? { StartKeepsApart(st, slotId, config); }
  }

  lemma {:induction false} RegistrationKeepsCount(st: State, e: Event)
    requires References(st) && Addressed(st, e) && (e.Register? || e.RegisterChunk? || e.Confirm?)
    ensures |Apply(st, e).sessions| == |st.sessions|
  {
    match e
    case Register(sid, user, cartelaId) => RegisterShape(st, sid, user, cartelaId, true);
    case RegisterChunk(sid, user, cartelaIds) =>
    case Confirm(sid, hold, user) => ConfirmShape(st, sid, hold, user);
  }

  lemma {:induction false} RoundKeepsCount(st: State, e: Event)
    requires References(st) && Addressed(st, e)
    requires e.CallBall? || e.PickNumber? || e.DrawPicked? || e.SubmitClaim? || e.Reject?
    ensures |Apply(st, e).sessions| == |st.sessions|
  {
  }

  lemma {:induction false} TimerKeepsCount(st: State, e: Event)
    requires References(st) && Addressed(st, e) && (e.BeginGrace? || e.CloseEarly? || e.Reschedule?)
    ensures |Apply(st, e).sessions| == |st.sessions|
  {
  }

  lemma {:induction false} SlotKeepsApart(st: State, e: Event)
    requires References(st) && Addressed(st, e) && (e.UpdateFee? || e.SwitchMode? || e.ReorderQueue?)
    ensures |Apply(st, e).sessions| == |st.sessions| && SameApart(st.slots, Apply(st, e).slots)
    ensures |Apply(st, e).slots| == |st.slots|
  {
    if e.ReorderQueue? {
      ReorderKeepsSlots(st.slots, e.slotIds);
    }
  }

  lemma {:induction false} OthersKeepCount(st: State, e: Event)
    requires References(st) && Addressed(st, e) && !Creates(e) && !IsEnd(e)
    ensures |Apply(st, e).sessions| == |st.sessions| && SameApart(st.slots, Apply(st, e).slots)
    ensures |Apply(st, e).slots| == |st.slots|
  {
    if e.UpdateFee? || e.SwitchMode? || e.ReorderQueue? {
      SlotKeepsApart(st, e);
    } else {
      OthersKeepSlots(st, e);
      if IsHoldEvent(e) {
        HoldsShape(st, e);
      } else if e.Register? || e.RegisterChunk? || e.Confirm? {
        RegistrationKeepsCount(st, e);
      } else if e.BeginGrace? || e.CloseEarly? || e.Reschedule? {
        TimerKeepsCount(st, e);
      } else if e.Tick? || e.CheckFee? {
        SlotShape(st, e);
      } else {
        RoundKeepsCount(st, e);
      }
    }
  }

  lemma {:induction false} EventKeepsApart(st: State, e: Event)
    requires Safe(st) && References(st) && Addressed(st, e) && BigGamesApart(st.slots, st.sessions)
    ensures BigGamesApart(Apply(st, e).slots, Apply(st, e).sessions)
  {
    if Creates(e) {
      CreatingKeepsApart(st, e);
    } else if e.FinalizeWindow? || e.Approve? {
      PayoutKeepsApart(st, e);
    } else if e.EndWithoutWinner? || e.Cancel? {
      EndingKeepsApart(st, e);
    } else {
      OthersKeepCount(st, e);
      EventIsGood(st, e);
      GoodOpensNone(st, Apply(st, e));
      QuietKeepsApart(st, Apply(st, e));
    }
  }

  lemma {:induction false} GoodOpensNone(st: State, st': State)
    requires Safe(st) && Good(st, st') && |st'.sessions| == |st.sessions|
    ensures NoneOpens(st, st')
  {
    assert forall i | 0 <= i < |st.sessions| :: SessionGrows(st.sessions[i], st'.sessions[i]);
  }

  lemma {:induction false} BigGamesStayApart(start: State, events: seq<Event>)
    requires Initial(start) && BigGamesApart(start.slots, [])
    ensures BigGamesApart(After(start, events).slots, After(start, events).sessions)
  {
    if events != [] {
      BigGamesStayApart(start, events[..|events| - 1]);
      EveryRunIsSafe(start, events[..|events| - 1]);
      var before := After(start, events[..|events| - 1]);
      if Addressed(before, events[|events| - 1]) {
        EventKeepsApart(before, events[|events| - 1]);
      }
    }
  }

  /** `resolveRegistrationSessionForSlot` where it finds a session: the newest one of a NEXT or PLAYING slot
      that registration is open for. Bulk registration has no other way in. */
  function ResolveForSlot(st: State, slotId: nat): Option<nat>
    requires References(st) && slotId < |st.slots|
  {
    if st.slots[slotId].status != NEXT && st.slots[slotId].status != PLAYING then None
    else
      var sid := NewestFor(st.sessions, slotId);
      if sid.Some? && RegistrationRefusal(st, sid.value).None? then sid else None
  }

  function NewestFor(sessions: seq<Session>, slotId: nat): (sid: Option<nat>)
    ensures sid.Some? ==>
      && sid.value < |sessions| && sessions[sid.value].slotId == slotId
      && sessions[sid.value].status in {READY, PLAYING, CHECKING}
  {
    if sessions == [] then None
    else
      var last := sessions[|sessions| - 1];
      if last.slotId == slotId && last.status in {READY, PLAYING, CHECKING} then Some(|sessions| - 1)
      else NewestFor(sessions[..|sessions| - 1], slotId)
  }

  /** A bulk request never gets to a Big Game, so it never misses the limit it does not look at: in every
      run, from the session it resolved, whatever comes in between, each of its chunks registers exactly what
      single registrations, limits included, would. */
  lemma {:induction false} BulkNeverMeetsBigGames(start: State, events: seq<Event>, slotId: nat, more: seq<Event>,
                                                  user: nat, ids: seq<nat>)
    requires Initial(start) && BigGamesApart(start.slots, [])
    requires var st := After(start, events);
      References(st) && slotId < |st.slots| && ResolveForSlot(st, slotId).Some?
    requires user < |After(start, events + more).books.wallets|
    ensures var sid := ResolveForSlot(After(start, events), slotId).value;
      var now := After(start, events + more);
      && sid < |now.sessions| && References(now) && !now.slots[now.sessions[sid].slotId].category.BIG_GAME?
      && RegisterAll(now, sid, user, ids, false) == RegisterAll(now, sid, user, ids, true)
  {
    var st, now := After(start, events), After(start, events + more);
    var sid := ResolveForSlot(st, slotId).value;
    EveryRunIsSafe(start, events);
    EveryRunIsSafe(start, events + more);
    BigGamesStayApart(start, events);
    RunsGrow(start, events, more);
    Bulk.SameWithoutBigGames(now, sid, user, ids);
  }
}
