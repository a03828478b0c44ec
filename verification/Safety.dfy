/** Every event keeps the safety invariant, lets nothing go back, and moves session statuses only
    along the transition table. */
module Safety {
  import opened Common
  import opened Games
  import opened GameQueue
  import opened Registering
  import opened WinningBalls
  import opened Rounds
  import opened Opening
  import opened Platform
  import opened Invariants
  import opened SessionSteps
  import OpenerProofs

  ghost predicate EdgesOnly(st: State, st': State) {
    && |st.sessions| <= |st'.sessions|
    && forall i | 0 <= i < |st.sessions| ::
         st'.sessions[i].status == st.sessions[i].status || CanTransition(st.sessions[i].status, st'.sessions[i].status)
  }

  ghost predicate Good(st: State, st': State) {
    Safe(st') && Grows(st, st') && EdgesOnly(st, st')
  }

  lemma {:induction false} NothingHappens(st: State)
    requires Safe(st)
    ensures Good(st, st)
  {
  }

  /** One session takes a safe step; slots stay, tasks may be dropped. */
  lemma {:induction false} SessionStep(st: State, st': State, sid: nat)
    requires Safe(st) && sid < |st.sessions|
    requires |st'.sessions| == |st.sessions| && st'.sessions == st.sessions[sid := st'.sessions[sid]]
    requires st'.now == st.now && st'.slots == st.slots && st'.tasks <= st.tasks
    requires StepOk(st.sessions[sid], st'.sessions[sid], KindOf(st.slots[st.sessions[sid].slotId]), st.now)
    requires st'.sessions[sid].status == st.sessions[sid].status
          || CanTransition(st.sessions[sid].status, st'.sessions[sid].status)
    ensures Good(st, st')
  {
    QuietUpdateIsSafe(st, st', sid);
  }

  lemma {:induction false} AddedTask(st: State, task: Task)
    requires Safe(st) && TaskOk(st, task)
    ensures Good(st, AddTask(st, task))
  {
    TasksStayOk(st, AddTask(st, task));
  }

  lemma {:induction false} GoodThenTask(st: State, st': State, task: Task)
    requires Good(st, st') && TaskOk(st', task)
    ensures Good(st, AddTask(st', task))
  {
    AddedTask(st', task);
  }

  // ---- Time and slots ----

  lemma {:induction false} TickIsGood(st: State, ms: nat)
    requires Safe(st)
    ensures Good(st, st.(now := st.now + ms))
  {
    var st' := st.(now := st.now + ms);
    forall i | 0 <= i < |st.sessions|
      ensures SessionOk(st.sessions[i], KindOf(st.slots[st.sessions[i].slotId]), st'.now)
    {
      TimePasses(st.sessions[i], KindOf(st.slots[st.sessions[i].slotId]), st.now, st'.now);
    }
    TasksStayOk(st, st');
  }

  lemma {:induction false} SlotsChangeIsGood(st: State, slots': seq<Slot>)
    requires Safe(st) && |slots'| == |st.slots|
    requires forall i | 0 <= i < |slots'| ::
      KindOf(slots'[i]) == KindOf(st.slots[i]) && slots'[i].status == st.slots[i].status && StandardSlot(slots'[i])
    ensures Good(st, st.(slots := slots'))
  {
    SlotChangeIsSafe(st, slots');
  }

  lemma {:induction false} ReorderKeepsSlots(slots: seq<Slot>, ids: seq<nat>)
    requires forall i | 0 <= i < |ids| :: ids[i] < |slots|
    ensures forall i | 0 <= i < |slots| ::
      Reorder(slots, ids)[i] == slots[i].(sortOrder := Reorder(slots, ids)[i].sortOrder)
  {
    if ids != [] {
      ReorderKeepsSlots(slots, ids[..|ids| - 1]);
    }
  }

  // ---- New sessions ----

  lemma {:induction false} CreatedSlotFacts(slots: seq<Slot>, slot: Slot, ruleId: nat)
    requires SlotsOk(slots) && StandardSlot(slot)
    ensures var after := CreateInQueue(slots, slot, ruleId);
      && |after| == |slots| + 1 && SlotsOk(after) && KindsKept(slots, after)
      && (forall i | 0 <= i < |slots| :: after[i].status == slots[i].status)
      && after[|slots|] == slot.(ruleId := Some(ruleId), sortOrder := after[|slots|].sortOrder)
  {
    var (shifted, order) := AssignSortOrderOnCreate(slots, ruleId);
    assert |shifted| == |slots|;
    assert forall i | 0 <= i < |slots| :: shifted[i] == slots[i].(sortOrder := shifted[i].sortOrder);
  }

  lemma {:induction false} SlotAddedIsGood(st: State, slots': seq<Slot>)
    requires Safe(st) && SlotsOk(slots') && KindsKept(st.slots, slots')
    requires forall i | 0 <= i < |st.slots| :: slots'[i].status == st.slots[i].status
    ensures Good(st, st.(slots := slots'))
  {
    TasksStayOk(st, st.(slots := slots'));
  }

  lemma {:induction false} CreateSlotIsGood(st: State, request: SlotRequest)
    requires Safe(st) && CreateGameSlot(st, request).Some?
    ensures Good(st, CreateGameSlot(st, request).value)
  {
    var slots := CreateInQueue(st.slots, RequestedSlot(request), request.ruleId);
    CreatedSlotFacts(st.slots, RequestedSlot(request), request.ruleId);
    SlotAddedIsGood(st, slots);
    if request.category.BIG_GAME? {
      BigGameSessionIsGood(st, slots, request);
    }
  }

  lemma {:induction false} BigGameSessionIsGood(st: State, slots: seq<Slot>, request: SlotRequest)
    requires Safe(st) && Good(st, st.(slots := slots)) && |slots| == |st.slots| + 1
    requires var slot := slots[|st.slots|]; slot.category.BIG_GAME? && slot.entryFee > 0 && slot.prizePerCartela == 0
    ensures var fees := SessionMoneyConfig(slots[|st.slots|]);
      Good(st, st.(slots := slots, sessions := st.sessions
           + [NewSession(|st.slots|, fees, fees.prizeAmount, READY, Some(request.opensAt), Some(request.startsAt))]))
  {
    var slotId := |st.slots|;
    var fees := SessionMoneyConfig(slots[slotId]);
    var session := NewSession(slotId, fees, fees.prizeAmount, READY, Some(request.opensAt), Some(request.startsAt));
    FreshSessionOk(slotId, slots[slotId], fees, fees.prizeAmount, READY, Some(request.opensAt), Some(request.startsAt),
                   st.now);
    NewSessionIsSafe(st, st.(slots := slots, sessions := st.sessions + [session]), session);
  }

  lemma {:induction false} NewReadyIsGood(st: State, slotId: nat, startsAt: Option<int>)
    requires Safe(st) && slotId < |st.slots| && st.slots[slotId].status == NEXT && !AnyReadyOn(st.sessions, slotId)
    ensures Good(st, st.(sessions := st.sessions + [ReadySession(st.slots, slotId, startsAt)]))
  {
    var fees := SessionMoneyConfig(st.slots[slotId]);
    var session := ReadySession(st.slots, slotId, startsAt);
    FreshSessionOk(slotId, st.slots[slotId], fees, fees.prizeAmount, READY, None, startsAt, st.now);
    NewSessionIsSafe(st, st.(sessions := st.sessions + [session]), session);
  }

  lemma {:induction false} FirstRegistrationIsGood(st: State, slotId: nat)
    requires Safe(st) && slotId < |st.slots| && CreateForFirstRegistration(st, slotId).Some?
    ensures Good(st, CreateForFirstRegistration(st, slotId).value)
  {
    NewReadyIsGood(st, slotId, None);
  }

  lemma {:induction false} StartIsGood(st: State, slotId: nat, config: StartConfig)
    requires Safe(st) && slotId < |st.slots| && StartGame(st, slotId, config).Some?
    ensures Good(st, StartGame(st, slotId, config).value)
  {
    var st' := StartGame(st, slotId, config).value;
    var ready := FindReady(st.sessions, slotId);
    assert KindsKept(st.slots, st'.slots) && SlotsOk(st'.slots);
    if ready.Some? {
      StartReadyIsGood(st, st', slotId, ready.value);
    } else {
      var session := st'.sessions[|st.sessions|];
      var slot := st.slots[slotId];
      var fees := if slot.category.BONUS? then Some(SessionMoneyConfig(slot)) else ResolveFeeConfig(config, slot);
      FreshSessionOk(slotId, slot, fees.value, 0, PLAYING, None, None, st.now);
      NewSessionIsSafe(st, st', session);
    }
  }

  lemma {:induction false} StartReadyIsGood(st: State, st': State, slotId: nat, sid: nat)
    requires Safe(st) && slotId < |st.slots| && sid < |st.sessions| && !AnyLive(st.sessions)
    requires st.sessions[sid].slotId == slotId && st.sessions[sid].status == READY
    requires st' == st.(slots := st.slots[slotId := st.slots[slotId].(status := PLAYING)],
                        sessions := st.sessions[sid := st.sessions[sid].(status := PLAYING)])
    ensures Good(st, st')
  {
    Started(st.sessions[sid], KindOf(st.slots[slotId]), st.now);
    assert Grows(st, st') by {
      assert forall i | 0 <= i < |st.sessions| :: SessionGrows(st.sessions[i], st'.sessions[i]);
    }
    assert TasksOk(st') by {
      TasksStayOk(st, st');
    }
  }

  // ---- The opener ----

  lemma {:induction false} OpenNextIsGood(st: State, options: OpenerOptions, recentlyFinished: bool, durationMs: int)
    requires Safe(st)
    ensures Good(st, OpenNext(st, options, recentlyFinished, durationMs))
  {
    if OpenerProofs.MayOpen(st, options, recentlyFinished) {
      if HeadReady(st.slots, st.sessions).Some? {
        OpenerProofs.RunWithHead(st, options, recentlyFinished, durationMs);
        ManyQuietSteps(st, OpenNext(st, options, recentlyFinished, durationMs), HeadReady(st.slots, st.sessions).value);
      } else {
        OpenAtHeadIsGood(st, options, recentlyFinished, durationMs);
      }
    }
  }

  lemma {:induction false} OpenAtHeadIsGood(st: State, options: OpenerOptions, recentlyFinished: bool, durationMs: int)
    requires Safe(st) && OpenerProofs.MayOpen(st, options, recentlyFinished) && HeadReady(st.slots, st.sessions).None?
    ensures Good(st, OpenNext(st, options, recentlyFinished, durationMs))
  {
    var head := QueueHead(st.slots);
    OpenerProofs.RunWithoutHead(st, options, recentlyFinished, durationMs);
    if head.Some? && !AnyReadyOn(st.sessions, head.value) {
      NewReadyIsGood(st, head.value, if AnyLive(st.sessions) then None else Some(st.now + durationMs));
    }
  }

  /** Any number of sessions take safe steps at once. */
  lemma {:induction false} AllStepsAreGood(st: State, st': State)
    requires Safe(st) && |st'.sessions| == |st.sessions| && st'.now == st.now && st'.tasks <= st.tasks
    requires |st'.slots| == |st.slots| && SlotsOk(st'.slots)
    requires forall i | 0 <= i < |st.slots| ::
        KindOf(st'.slots[i]) == KindOf(st.slots[i]) && st'.slots[i].status == st.slots[i].status
    requires forall i | 0 <= i < |st.sessions| ::
      StepOk(st.sessions[i], st'.sessions[i], KindOf(st.slots[st.sessions[i].slotId]), st.now)
    requires forall i | 0 <= i < |st.sessions| ::
      st'.sessions[i].status == st.sessions[i].status || CanTransition(st.sessions[i].status, st'.sessions[i].status)
    ensures Good(st, st')
  {
    TasksStayOk(st, st');
  }

  lemma {:induction false} ManyQuietSteps(st: State, st': State, head: nat)
    requires Safe(st) && head < |st.sessions| && |st'.sessions| == |st.sessions|
    requires st' == st.(sessions := st'.sessions)
    requires forall i | 0 <= i < |st.sessions| ::
      st'.sessions[i] == SoftRetire(st.slots, st.sessions[i], i == head)
      || st'.sessions[i] == st.sessions[i].(scheduledStartAt := st'.sessions[i].scheduledStartAt)
    ensures Good(st, st')
  {
    forall i | 0 <= i < |st.sessions|
      ensures StepOk(st.sessions[i], st'.sessions[i], KindOf(st.slots[st.sessions[i].slotId]), st.now)
      ensures st'.sessions[i].status == st.sessions[i].status
        || CanTransition(st.sessions[i].status, st'.sessions[i].status)
    {
      var s := st.sessions[i];
      Retired(s, st.slots, i == head, KindOf(st.slots[s.slotId]), st.now);
      Rescheduled(s, s.registrationOpensAt, st'.sessions[i].scheduledStartAt, KindOf(st.slots[s.slotId]), st.now);
    }
    AllStepsAreGood(st, st');
  }

  // ---- Registration ----

  lemma {:induction false} TakeIsGood(st: State, sid: nat, user: nat, cartelaId: nat, hold: Option<nat>,
                                      plan: Accounting, books: Books)
    requires Safe(st) && sid < |st.sessions| && st.sessions[sid].slotId < |st.slots|
    requires st.sessions[sid].status == READY || st.sessions[sid].status == PLAYING
    requires FindRegistration(st.sessions[sid].registrations, cartelaId).None?
    requires hold.Some? ==> hold.value < |st.sessions[sid].holds|
    requires hold.Some? ==> IsCurrent(st.sessions[sid].holds[hold.value], st.now)
    requires hold.Some? ==> st.sessions[sid].holds[hold.value].cartelaId == cartelaId
    requires hold.None? ==> FindHold(st.sessions[sid].holds, cartelaId, st.now).None?
    requires exists bonus ::
        plan == ResolveAccounting(st.sessions[sid], st.slots[st.sessions[sid].slotId].category, bonus)
    ensures var s, slot := st.sessions[sid], st.slots[st.sessions[sid].slotId];
      var seated := AddToPot(ConfirmHold(Seat(s, user, cartelaId, plan), hold), slot.category, 1);
      Good(st, st.(sessions := st.sessions[sid := seated], books := books))
  {
    var s, slot := st.sessions[sid], st.slots[st.sessions[sid].slotId];
    OneCurrentHold(s, cartelaId, hold, st.now);
    Seated(s, user, cartelaId, plan, hold, KindOf(slot), st.now);
    var seated := AddToPot(ConfirmHold(Seat(s, user, cartelaId, plan), hold), slot.category, 1);
    SessionStep(st, st.(sessions := st.sessions[sid := seated], books := books), sid);
  }

  lemma {:induction false} OneCurrentHold(s: Session, cartelaId: nat, hold: Option<nat>, now: int)
    requires HoldsOk(s, now)
    requires hold.Some? ==>
        hold.value < |s.holds| && IsCurrent(s.holds[hold.value], now) && s.holds[hold.value].cartelaId == cartelaId
    requires hold.None? ==> FindHold(s.holds, cartelaId, now).None?
    ensures forall i | 0 <= i < |s.holds| && s.holds[i].cartelaId == cartelaId && IsCurrent(s.holds[i], now) ::
      hold == Some(i)
  {
  }

  lemma {:induction false} OpenForRegistration(st: State, sid: nat)
    requires References(st) && sid < |st.sessions| && RegistrationRefusal(st, sid).None?
    ensures st.sessions[sid].status == READY || st.sessions[sid].status == PLAYING
  {
  }

  /** What a registration that goes through has passed, and what it leaves. */
  lemma {:induction false} RegisterShape(st: State, sid: nat, user: nat, cartelaId: nat, limitBigGames: bool)
    requires References(st) && sid < |st.sessions| && user < |st.books.wallets|
    ensures var (st', result) := RegisterOne(st, sid, user, cartelaId, limitBigGames);
      var s, category := st.sessions[sid], st.slots[st.sessions[sid].slotId].category;
      var plan := ResolveAccounting(s, category, st.books.wallets[user].bonus);
      var hold := FindHold(s.holds, cartelaId, st.now);
      if result.Registered? then
        && RegistrationRefusal(st, sid).None? && FindRegistration(s.registrations, cartelaId).None?
        && ApplyPayment(st.books, user, sid, |s.registrations|, s, plan.source).Success?
        && st'.books == ApplyPayment(st.books, user, sid, |s.registrations|, s, plan.source).value
        && var seated := ConfirmHold(Seat(s, user, cartelaId, plan), hold);
           st' == st.(sessions := st.sessions[sid := AddToPot(seated, category, 1)], books := st'.books)
      else st' == st
  {
  }

  lemma {:induction false} RegisterOneIsGood(st: State, sid: nat, user: nat, cartelaId: nat, limitBigGames: bool)
    requires Safe(st) && References(st) && sid < |st.sessions| && user < |st.books.wallets|
    ensures Good(st, RegisterOne(st, sid, user, cartelaId, limitBigGames).0)
  {
    var (st', result) := RegisterOne(st, sid, user, cartelaId, limitBigGames);
    RegisterShape(st, sid, user, cartelaId, limitBigGames);
    if result.Registered? {
      var session := st.sessions[sid];
      OpenForRegistration(st, sid);
      TakeIsGood(st, sid, user, cartelaId, FindHold(session.holds, cartelaId, st.now),
                 ResolveAccounting(session, st.slots[session.slotId].category, st.books.wallets[user].bonus),
                   st'.books);
    } else {
      NothingHappens(st);
    }
  }

  lemma {:induction false} GoodTransitive(a: State, b: State, c: State)
    requires Good(a, b) && Good(b, c)
    requires forall i | 0 <= i < |a.sessions| :: b.sessions[i].status == a.sessions[i].status
    requires a.now == b.now
    ensures Good(a, c)
  {
    forall i | 0 <= i < |a.sessions|
      ensures SessionGrows(a.sessions[i], c.sessions[i])
    {
      assert SessionGrows(a.sessions[i], b.sessions[i]) && SessionGrows(b.sessions[i], c.sessions[i]);
    }
  }

  lemma {:induction false} RegisterAllIsGood(st: State, sid: nat, user: nat, cartelaIds: seq<nat>, limitBigGames: bool)
    requires Safe(st) && References(st) && sid < |st.sessions| && user < |st.books.wallets|
    ensures Good(st, RegisterAll(st, sid, user, cartelaIds, limitBigGames))
  {
    if cartelaIds != [] {
      var front := cartelaIds[..|cartelaIds| - 1];
      RegisterAllIsGood(st, sid, user, front, limitBigGames);
      var before := RegisterAll(st, sid, user, front, limitBigGames);
      RegisterOneIsGood(before, sid, user, cartelaIds[|cartelaIds| - 1], limitBigGames);
      GoodTransitive(st, before, RegisterAll(st, sid, user, cartelaIds, limitBigGames));
    }
  }

  lemma {:induction false} ConfirmShape(st: State, sid: nat, hold: nat, user: nat)
    requires References(st) && sid < |st.sessions| && user < |st.books.wallets|
    ensures var (st', result) := ConfirmReservation(st, sid, hold, user);
      var s, category := st.sessions[sid], st.slots[st.sessions[sid].slotId].category;
      var plan := ResolveAccounting(s, category, st.books.wallets[user].bonus);
      if result.Registered? then
        && hold < |s.holds| && IsCurrent(s.holds[hold], st.now)
        && RegistrationRefusal(st, sid).None? && FindRegistration(s.registrations, s.holds[hold].cartelaId).None?
        && ApplyPayment(st.books, user, sid, |s.registrations|, s, plan.source).Success?
        && st'.books == ApplyPayment(st.books, user, sid, |s.registrations|, s, plan.source).value
        && var seated := ConfirmHold(Seat(s, user, s.holds[hold].cartelaId, plan), Some(hold));
           st' == st.(sessions := st.sessions[sid := AddToPot(seated, category, 1)], books := st'.books)
      else st' == st
  {
  }

  lemma {:induction false} ConfirmIsGood(st: State, sid: nat, hold: nat, user: nat)
    requires Safe(st) && References(st) && sid < |st.sessions| && user < |st.books.wallets|
    ensures Good(st, ConfirmReservation(st, sid, hold, user).0)
  {
    var (st', result) := ConfirmReservation(st, sid, hold, user);
    ConfirmShape(st, sid, hold, user);
    if result.Registered? {
      var session := st.sessions[sid];
      OpenForRegistration(st, sid);
      TakeIsGood(st, sid, user, session.holds[hold].cartelaId, Some(hold),
                 ResolveAccounting(session, st.slots[session.slotId].category, st.books.wallets[user].bonus),
                   st'.books);
    } else {
      NothingHappens(st);
    }
  }

  // ---- Holds ----

  lemma {:induction false} HoldsEndIsGood(st: State, st': State, sid: nat, holds: seq<Hold>)
    requires Safe(st) && sid < |st.sessions| && |holds| == |st.sessions[sid].holds|
    requires st' == st.(sessions := st.sessions[sid := WithHolds(st.sessions[sid], holds)], tasks := st'.tasks)
    requires st'.tasks <= st.tasks
    requires forall i | 0 <= i < |holds| ::
      holds[i] == st.sessions[sid].holds[i]
      || (holds[i].status in {EXPIRED, RELEASED} && holds[i] == st.sessions[sid].holds[i].(status := holds[i].status))
    ensures Good(st, st')
  {
    HoldsEnd(st.sessions[sid], holds, KindOf(st.slots[st.sessions[sid].slotId]), st.now);
    SessionStep(st, st', sid);
  }

  /** The holds a single reservation starts from, once due and unwanted ones have ended. */
  function ClearedHolds(holds: seq<Hold>, user: nat, cartelaId: nat, keepOthers: bool, now: int): seq<Hold> {
    var expired := ExpireCartela(holds, cartelaId, now);
    if FindHold(expired, cartelaId, now).None? && !keepOthers then ReleaseOthers(expired, user) else expired
  }

  lemma {:induction false} ReserveShape(st: State, sid: nat, user: nat, cartelaId: nat, keepOthers: bool, holdMs: int)
    requires References(st) && sid < |st.sessions|
    requires ReserveCartela(st, sid, user, cartelaId, keepOthers, holdMs).Some?
    ensures ReserveCartela(st, sid, user, cartelaId, keepOthers, holdMs)
         == PlaceHold(ClearedHolds(st.sessions[sid].holds, user, cartelaId, keepOthers, st.now), cartelaId, user,
                      st.now, st.now + holdMs)
    ensures RegistrationRefusal(st, sid).None?
    ensures !exists r | 0 <= r < |st.sessions[sid].registrations| ::
      st.sessions[sid].registrations[r].cartelaId == cartelaId && st.sessions[sid].registrations[r].status != VOID
  {
  }

  lemma {:induction false} ClearedEnds(s: Session, user: nat, cartelaId: nat, keepOthers: bool, kind: SlotKind,
                                       clock: int, now: int)
    requires SessionOk(s, kind, now)
    ensures StepOk(s, WithHolds(s, ClearedHolds(s.holds, user, cartelaId, keepOthers, clock)), kind, now)
  {
    HoldsEnd(s, ClearedHolds(s.holds, user, cartelaId, keepOthers, clock), kind, now);
  }

  /** Clearing and placing a hold, on the session alone. */
  lemma {:induction false} ClearAndPlace(s: Session, cleared: seq<Hold>, user: nat, cartelaId: nat, clock: int,
                                         expiresAt: int, kind: SlotKind, now: int)
    requires StepOk(s, WithHolds(s, cleared), kind, now) && s.status != CANCELLED && RegistrationsOk(s)
    requires !exists r | 0 <= r < |s.registrations| ::
      s.registrations[r].cartelaId == cartelaId && s.registrations[r].status != VOID
    requires PlaceHold(cleared, cartelaId, user, clock, expiresAt).Some?
    ensures StepOk(s, WithHolds(s, PlaceHold(cleared, cartelaId, user, clock, expiresAt).value), kind, now)
  {
    var placed := WithHolds(s, PlaceHold(cleared, cartelaId, user, clock, expiresAt).value);
    NotTaken(s, cartelaId);
    PlacedHold(WithHolds(s, cleared), cartelaId, user, kind, now, clock, expiresAt);
    GrowsTwice(s, WithHolds(s, cleared), placed);
  }

  /** A reservation that commits with the clock its request sampled earlier. */
  lemma {:induction false} ReserveIsGood(st: State, st': State, sid: nat, user: nat, cartelaId: nat, keepOthers: bool,
                                         holdMs: int, clock: int, holds: seq<Hold>)
    requires Safe(st) && References(st) && sid < |st.sessions|
    requires ReserveCartela(st.(now := clock), sid, user, cartelaId, keepOthers, holdMs) == Some(holds)
    requires st' == WithSession(st.(tasks := st'.tasks), sid, WithHolds(st.sessions[sid], holds))
    requires st'.tasks <= st.tasks
    ensures Good(st, st')
  {
    ReserveShape(st.(now := clock), sid, user, cartelaId, keepOthers, holdMs);
    OpenForRegistration(st.(now := clock), sid);
    HoldPlacedIsGood(st, st', sid, user, cartelaId,
                     ClearedHolds(st.sessions[sid].holds, user, cartelaId, keepOthers, clock), keepOthers,
                     clock, clock + holdMs, holds);
  }

  lemma {:induction false} HoldPlacedIsGood(st: State, st': State, sid: nat, user: nat, cartelaId: nat,
                                            cleared: seq<Hold>,
                                            keepOthers: bool, clock: int, expiresAt: int, holds: seq<Hold>)
    requires Safe(st) && sid < |st.sessions| && st.sessions[sid].status != CANCELLED
    requires !exists r | 0 <= r < |st.sessions[sid].registrations| ::
      st.sessions[sid].registrations[r].cartelaId == cartelaId && st.sessions[sid].registrations[r].status != VOID
    requires cleared == ClearedHolds(st.sessions[sid].holds, user, cartelaId, keepOthers, clock)
    requires PlaceHold(cleared, cartelaId, user, clock, expiresAt) == Some(holds)
    requires st' == WithSession(st.(tasks := st'.tasks), sid, WithHolds(st.sessions[sid], holds))
    requires st'.tasks <= st.tasks
    ensures Good(st, st')
  {
    var s, kind := st.sessions[sid], KindOf(st.slots[st.sessions[sid].slotId]);
    ClearedEnds(s, user, cartelaId, keepOthers, kind, clock, st.now);
    ClearAndPlace(s, cleared, user, cartelaId, clock, expiresAt, kind, st.now);
    SessionStep(st, st', sid);
  }

  lemma {:induction false} NotTaken(s: Session, cartelaId: nat)
    requires RegistrationsOk(s) && s.status != CANCELLED
    requires !exists r | 0 <= r < |s.registrations| ::
      s.registrations[r].cartelaId == cartelaId && s.registrations[r].status != VOID
    ensures forall r | 0 <= r < |s.registrations| :: s.registrations[r].cartelaId != cartelaId
  {
    forall r | 0 <= r < |s.registrations|
      ensures s.registrations[r].cartelaId != cartelaId
    {
      assert s.registrations[r].status != VOID;
    }
  }

  lemma {:induction false} GrowsTwice(a: Session, b: Session, c: Session)
    requires SessionGrows(a, b) && SessionGrows(b, c)
    ensures SessionGrows(a, c)
  {
  }

  lemma {:induction false} BulkShape(st: State, sid: nat, holds: seq<Hold>, user: nat, cartelaId: nat, holdMs: int)
    requires References(st) && sid < |st.sessions|
    ensures var after := ReserveInBulk(st, sid, holds, user, cartelaId, holdMs);
      after == holds
      || (PlaceHold(holds, cartelaId, user, st.now, st.now + holdMs) == Some(after)
          && !exists r | 0 <= r < |st.sessions[sid].registrations| ::
               st.sessions[sid].registrations[r].cartelaId == cartelaId
                 && st.sessions[sid].registrations[r].status != VOID)
  {
  }

  lemma {:induction false} ReserveEachIsOk(st: State, sid: nat, holds: seq<Hold>, user: nat, cartelaIds: seq<nat>,
                                           holdMs: int, kind: SlotKind, now: int)
    requires References(st) && sid < |st.sessions| && st.sessions[sid].status != CANCELLED
    requires RegistrationsOk(st.sessions[sid])
    requires StepOk(st.sessions[sid], WithHolds(st.sessions[sid], holds), kind, now)
    ensures StepOk(st.sessions[sid],
                   WithHolds(st.sessions[sid], ReserveEach(st, sid, holds, user, cartelaIds, holdMs)), kind, now)
  {
    if cartelaIds != [] {
      var front, cartelaId := cartelaIds[..|cartelaIds| - 1], cartelaIds[|cartelaIds| - 1];
      ReserveEachIsOk(st, sid, holds, user, front, holdMs, kind, now);
      BulkStepIsOk(st, sid, ReserveEach(st, sid, holds, user, front, holdMs), user, cartelaId, holdMs, kind, now);
    }
  }

  lemma {:induction false} BulkStepIsOk(st: State, sid: nat, before: seq<Hold>, user: nat, cartelaId: nat, holdMs: int,
                                        kind: SlotKind, now: int)
    requires References(st) && sid < |st.sessions| && st.sessions[sid].status != CANCELLED
    requires RegistrationsOk(st.sessions[sid])
    requires StepOk(st.sessions[sid], WithHolds(st.sessions[sid], before), kind, now)
    ensures StepOk(st.sessions[sid],
                   WithHolds(st.sessions[sid], ReserveInBulk(st, sid, before, user, cartelaId, holdMs)), kind, now)
  {
    BulkShape(st, sid, before, user, cartelaId, holdMs);
    if ReserveInBulk(st, sid, before, user, cartelaId, holdMs) != before {
      ClearAndPlace(st.sessions[sid], before, user, cartelaId, st.now, st.now + holdMs, kind, now);
    }
  }

  lemma {:induction false} ReserveBulkIsGood(st: State, st': State, sid: nat, user: nat, cartelaIds: seq<nat>,
                                             holdMs: int, clock: int)
    requires Safe(st) && References(st) && sid < |st.sessions|
    requires ReserveCartelas(st.(now := clock), sid, user, cartelaIds, holdMs).Some?
    requires st' == WithSession(st.(tasks := st'.tasks), sid,
                                WithHolds(st.sessions[sid],
                                          ReserveCartelas(st.(now := clock), sid, user, cartelaIds, holdMs).value))
    requires st'.tasks <= st.tasks
    ensures Good(st, st')
  {
    var s := st.sessions[sid];
    OpenForRegistration(st.(now := clock), sid);
    var expired := ExpireCartelas(s.holds, cartelaIds, clock);
    HoldsEnd(s, expired, KindOf(st.slots[s.slotId]), st.now);
    ReserveEachIsOk(st.(now := clock), sid, expired, user, cartelaIds, holdMs, KindOf(st.slots[s.slotId]), st.now);
    SessionStep(st, st', sid);
  }

  // ---- Draws ----

  lemma {:induction false} CallIsGood(st: State, tasks: multiset<Task>, sid: nat, result: Option<Session>, isLast: bool)
    requires Safe(st) && sid < |st.sessions| && tasks <= st.tasks
    requires isLast ==> result.Some? && |result.value.calls| >= ALL_NUMBERS
    requires result.Some? ==>
      StepOk(st.sessions[sid], result.value, KindOf(st.slots[st.sessions[sid].slotId]), st.now)
      && result.value.status == st.sessions[sid].status
    ensures Good(st, AfterCall(TrySession(st.(tasks := tasks), sid, result), sid, isLast))
  {
    var called := TrySession(st.(tasks := tasks), sid, result);
    if result.Some? {
      SessionStep(st, called, sid);
    } else {
      TasksStayOk(st, called);
    }
    if isLast {
      GoodThenTask(st, called, GraceTask(sid));
    }
  }

  /** When all other numbers are called and this one is called now, 75 balls are out. */
  lemma {:induction false} LastNumberMeansAll(calls: seq<Call>, number: int, now: int)
    requires CallsOk(calls, now) && 1 <= number <= ALL_NUMBERS
    requires forall n | 1 <= n <= ALL_NUMBERS && n != number :: IsCalled(calls, n)
    ensures |calls| >= ALL_NUMBERS - 1
  {
    var numbers := CalledNumbers(calls);
    CalledCount(calls);
    var others := Range(ALL_NUMBERS) - {number};
    forall n | n in others
      ensures n in numbers
    {
      assert IsCalled(calls, n);
    }
    SubsetSize(others, numbers);
  }

  function CalledNumbers(calls: seq<Call>): set<int> {
    set i | 0 <= i < |calls| :: calls[i].ball.number
  }

  function Range(n: nat): (range: set<int>)
    ensures forall k :: k in range <==> 1 <= k <= n
    ensures |range| == n
  {
    if n == 0 then {} else Range(n - 1) + {n}
  }

  lemma {:induction false} SubsetSize(a: set<int>, b: set<int>)
    requires a <= b
    ensures |a| <= |b|
  {
    assert b == a + (b - a);
  }

  lemma {:induction false} CalledCount(calls: seq<Call>)
    ensures |CalledNumbers(calls)| <= |calls|
  {
    if calls != [] {
      var front := calls[..|calls| - 1];
      CalledCount(front);
      assert CalledNumbers(calls) == CalledNumbers(front) + {calls[|calls| - 1].ball.number};
    }
  }

  lemma {:induction false} PickIsGood(st: State, sid: nat, number: int)
    requires Safe(st) && sid < |st.sessions| && number in Remaining(st.sessions[sid].calls)
    ensures Good(st, AddTask(st, DrawTask(sid, number, |Remaining(st.sessions[sid].calls)| <= 1)))
  {
    var remaining := Remaining(st.sessions[sid].calls);
    if |remaining| <= 1 {
      forall n | 1 <= n <= ALL_NUMBERS && n != number
        ensures IsCalled(st.sessions[sid].calls, n)
      {
        if n in remaining {
          SubsetSize({number, n}, remaining);
        }
      }
    }
    AddedTask(st, DrawTask(sid, number, |remaining| <= 1));
  }

  lemma {:induction false} CommittedDraw(s: Session, number: int, isLastNumber: bool, kind: SlotKind, now: int)
    requires SessionOk(s, kind, now) && 1 <= number <= ALL_NUMBERS && CommitDraw(s, number, now).Some?
    requires isLastNumber ==> forall n | 1 <= n <= ALL_NUMBERS && n != number :: IsCalled(s.calls, n)
    ensures StepOk(s, CommitDraw(s, number, now).value, kind, now)
    ensures isLastNumber ==> |CommitDraw(s, number, now).value.calls| >= ALL_NUMBERS
  {
    CommitDrawOk(s, number, kind, now);
    if isLastNumber {
      LastNumberMeansAll(s.calls, number, now);
    }
  }

  lemma {:induction false} DrawTaskIsGood(st: State, sid: nat, number: int, isLastNumber: bool)
    requires Safe(st) && sid < |st.sessions| && DrawTask(sid, number, isLastNumber) in st.tasks
    ensures var result := CommitDraw(st.sessions[sid], number, st.now);
      var dropped := DropTask(st, DrawTask(sid, number, isLastNumber));
      Good(st, AfterCall(TrySession(dropped, sid, result), sid, result.Some? && isLastNumber))
  {
    var task := DrawTask(sid, number, isLastNumber);
    var result := CommitDraw(st.sessions[sid], number, st.now);
    assert TaskOk(st, task);
    if result.Some? {
      CommittedDraw(st.sessions[sid], number, isLastNumber, KindOf(st.slots[st.sessions[sid].slotId]), st.now);
    }
    CallIsGood(st, DropTask(st, task).tasks, sid, result, result.Some? && isLastNumber);
  }

  lemma {:induction false} DrawIsGood(st: State, sid: nat, number: int, isLastNumber: bool)
    requires Safe(st) && References(st) && sid < |st.sessions|
    ensures Good(st, RunDrawTask(st, sid, number, isLastNumber))
  {
    if DrawTask(sid, number, isLastNumber) in st.tasks {
      var result := CommitDraw(st.sessions[sid], number, st.now);
      var dropped := DropTask(st, DrawTask(sid, number, isLastNumber));
      assert RunDrawTask(st, sid, number, isLastNumber)
          == AfterCall(TrySession(dropped, sid, result), sid, result.Some? && isLastNumber);
      DrawTaskIsGood(st, sid, number, isLastNumber);
    } else {
      NothingHappens(st);
    }
  }

  lemma {:induction false} CallBallIsGood(st: State, sid: nat, ball: Ball)
    requires Safe(st) && References(st) && sid < |st.sessions|
    ensures Good(st, CallBallNow(st, sid, ball))
  {
    var result := CallNumber(st.sessions[sid], ball, st.now);
    if result.Some? {
      CallNumberOk(st.sessions[sid], ball, KindOf(st.slots[st.sessions[sid].slotId]), st.now);
    }
    CallIsGood(st, st.tasks, sid, result, result.Some? && |result.value.calls| >= ALL_NUMBERS);
  }

  lemma {:induction false} GraceIsGood(st: State, sid: nat, graceMs: int)
    requires Safe(st) && References(st) && sid < |st.sessions|
    ensures Good(st, RunGraceTask(st, sid, graceMs))
  {
    if GraceTask(sid) in st.tasks {
      assert TaskOk(st, GraceTask(sid));
      GraceStarted(st.sessions[sid], KindOf(st.slots[st.sessions[sid].slotId]), st.now, graceMs);
      SessionStep(st, RunGraceTask(st, sid, graceMs), sid);
    }
  }

  // ---- Claims and ends ----

  lemma {:induction false} ClaimIsGood(st: State, sid: nat, user: nat, r: nat, verdict: Verdict, windowMs: int,
                                       graceMs: int)
    requires Safe(st) && References(st) && sid < |st.sessions|
    ensures Good(st, ClaimNow(st, sid, user, r, verdict, windowMs, graceMs))
  {
    var s := st.sessions[sid];
    var result := ClaimBingo(s, st.slots[s.slotId].manualRule, user, r, verdict, st.now, windowMs, graceMs);
    if result.Some? {
      ClaimOk(s, user, r, verdict, KindOf(st.slots[s.slotId]), st.now, windowMs, graceMs);
      SessionStep(st, WithSession(st, sid, result.value), sid);
    }
  }

  /** A round that ends: its session is no longer open, its slot restored or left. */
  lemma {:induction false} EndIsGood(st: State, st': State, sid: nat)
    requires Safe(st) && sid < |st.sessions| && st.sessions[sid].slotId < |st.slots|
    requires st' == st.(sessions := st'.sessions, slots := st'.slots, books := st'.books)
    requires |st'.sessions| == |st.sessions| && st'.sessions == st.sessions[sid := st'.sessions[sid]]
    requires st'.slots == st.slots || st'.slots == RestoreSlotAfterSession(st.slots, st.sessions[sid].slotId)
    requires StepOk(st.sessions[sid], st'.sessions[sid], KindOf(st.slots[st.sessions[sid].slotId]), st.now)
    requires IsOpen(st.sessions[sid].status) && !IsOpen(st'.sessions[sid].status)
    requires CanTransition(st.sessions[sid].status, st'.sessions[sid].status)
    ensures Good(st, st')
  {
    RestoredSlot(st.slots, st.sessions[sid].slotId);
    EndIsSafe(st, st', sid);
  }

  /** Ended sessions and the opener never change the same session. */
  lemma {:induction false} ThenOpenIsGood(st: State, ended: Option<State>, deferred: bool, opener: Option<int>)
    requires Safe(st) && (ended.Some? ==> Good(st, ended.value) && ended.value.now == st.now)
    requires ended.Some? ==> forall i | 0 <= i < |st.sessions| ::
      ended.value.sessions[i].status == st.sessions[i].status || !IsOpen(ended.value.sessions[i].status)
    ensures Good(st, ThenOpen(st, ended, deferred, opener))
  {
    if ended.None? {
      NothingHappens(st);
    } else if opener.Some? {
      var options := OpenerOptions(true, deferred);
      OpenNextIsGood(ended.value, options, false, opener.value);
      OpenNextMovesOnlyReady(ended.value, options, false, opener.value);
      GoodThenGood(st, ended.value, OpenNext(ended.value, options, false, opener.value));
    }
  }

  lemma {:induction false} OpenNextMovesOnlyReady(st: State, options: OpenerOptions, recentlyFinished: bool,
                                                  durationMs: int)
    ensures var after := OpenNext(st, options, recentlyFinished, durationMs);
      && |st.sessions| <= |after.sessions|
      && (forall i | 0 <= i < |st.sessions| ::
            after.sessions[i].status == st.sessions[i].status || st.sessions[i].status == READY)
  {
    if OpenerProofs.MayOpen(st, options, recentlyFinished) {
      if HeadReady(st.slots, st.sessions).Some? {
        OpenerProofs.RunWithHead(st, options, recentlyFinished, durationMs);
      } else {
        OpenerProofs.RunWithoutHead(st, options, recentlyFinished, durationMs);
      }
    }
  }

  lemma {:induction false} GoodThenGood(a: State, b: State, c: State)
    requires Good(a, b) && Good(b, c) && a.now == b.now
    requires forall i | 0 <= i < |a.sessions| ::
      b.sessions[i].status == a.sessions[i].status || c.sessions[i].status == b.sessions[i].status
    ensures Good(a, c)
  {
    forall i | 0 <= i < |a.sessions|
      ensures SessionGrows(a.sessions[i], c.sessions[i])
    {
      GrowsTwice(a.sessions[i], b.sessions[i], c.sessions[i]);
    }
  }

  /** Only the session named moves, and it ends. */
  ghost predicate EndsOnly(st: State, ended: State, sid: nat) {
    && |ended.sessions| == |st.sessions| && ended.now == st.now
    && forall i | 0 <= i < |st.sessions| ::
         if i == sid then !IsOpen(ended.sessions[i].status) else ended.sessions[i].status == st.sessions[i].status
  }

  lemma {:induction false} FinalizeIsGood(st: State, sid: nat, graceMs: int, clock: int)
    requires Safe(st) && References(st) && sid < |st.sessions| && FinalizeNow(st, sid, graceMs, clock).Some?
    ensures var ended := FinalizeNow(st, sid, graceMs, clock).value; Good(st, ended) && EndsOnly(st, ended, sid)
  {
    var s := st.sessions[sid];
    WindowFinished(s, Winners(s)[0], KindOf(st.slots[s.slotId]), st.now);
    EndIsGood(st, FinalizeNow(st, sid, graceMs, clock).value, sid);
  }

  lemma {:induction false} ApproveIsGood(st: State, sid: nat, c: nat, checkedAt: int)
    requires Safe(st) && References(st) && sid < |st.sessions| && ApproveClaim(st, sid, c, checkedAt).Some?
    requires c < |st.sessions[sid].claims| && st.sessions[sid].claims[c].createdAt <= checkedAt <= st.now
    ensures var ended := ApproveClaim(st, sid, c, checkedAt).value; Good(st, ended) && EndsOnly(st, ended, sid)
  {
    var s := st.sessions[sid];
    Approved(s, c, KindOf(st.slots[s.slotId]), st.now, checkedAt);
    EndIsGood(st, ApproveClaim(st, sid, c, checkedAt).value, sid);
  }

  lemma {:induction false} RejectIsGood(st: State, sid: nat, c: nat)
    requires Safe(st) && References(st) && sid < |st.sessions|
    ensures Good(st, RejectNow(st, sid, c))
  {
    var s := st.sessions[sid];
    var kind := KindOf(st.slots[s.slotId]);
    if RejectClaim(s, kind.manualRule, c, st.now).Some? {
      Rejected(s, c, kind, st.now);
      SessionStep(st, RejectNow(st, sid, c), sid);
    }
  }

  lemma {:induction false} NoWinnerIsGood(st: State, sid: nat)
    requires Safe(st) && References(st) && sid < |st.sessions| && EndWithoutWinnerNow(st, sid).Some?
    ensures var ended := EndWithoutWinnerNow(st, sid).value; Good(st, ended) && EndsOnly(st, ended, sid)
  {
    var s := st.sessions[sid];
    EndedWithoutWinner(s, KindOf(st.slots[s.slotId]), st.now);
    EndIsGood(st, EndWithoutWinnerNow(st, sid).value, sid);
  }

  lemma {:induction false} CancelIsGood(st: State, sid: nat, requeueSlot: bool, abortIfPlayers: bool)
    requires Safe(st) && sid < |st.sessions| && st.sessions[sid].slotId < |st.slots|
    requires CancelSession(st, sid, requeueSlot, abortIfPlayers).Some?
    ensures var ended := CancelSession(st, sid, requeueSlot, abortIfPlayers).value;
      Good(st, ended) && EndsOnly(st, ended, sid)
  {
    var s := st.sessions[sid];
    Cancelled(s, KindOf(st.slots[s.slotId]), st.now);
    EndIsGood(st, CancelSession(st, sid, requeueSlot, abortIfPlayers).value, sid);
  }

  // ---- Fees ----

  lemma {:induction false} CommitFeeIsGood(st: State, slotId: nat, entryFee: nat)
    requires Safe(st) && slotId < |st.slots| && FeeTask(slotId, entryFee) in st.tasks
    ensures Good(st, CommitFee(DropTask(st, FeeTask(slotId, entryFee)), slotId, entryFee))
  {
    var dropped := DropTask(st, FeeTask(slotId, entryFee));
    var st' := CommitFee(dropped, slotId, entryFee);
    assert TaskOk(st, FeeTask(slotId, entryFee));
    forall i | 0 <= i < |st.sessions|
      ensures StepOk(st.sessions[i], st'.sessions[i], KindOf(st.slots[st.sessions[i].slotId]), st.now)
      ensures st'.sessions[i].status == st.sessions[i].status
    {
      RepricedStep(st, slotId, entryFee, i);
      assert st'.sessions[i] == CommitFee(st, slotId, entryFee).sessions[i];
    }
    AllStepsAreGood(st, st');
  }

  lemma {:induction false} RepricedStep(st: State, slotId: nat, entryFee: nat, i: nat)
    requires SessionsOk(st) && slotId < |st.slots| && TaskOk(st, FeeTask(slotId, entryFee)) && i < |st.sessions|
    ensures var s' := CommitFee(st, slotId, entryFee).sessions[i];
      StepOk(st.sessions[i], s', KindOf(st.slots[st.sessions[i].slotId]), st.now) && s'.status == st.sessions[i].status
  {
    var kind := KindOf(st.slots[st.sessions[i].slotId]);
    if st.sessions[i].slotId == slotId {
      Repriced(st.sessions[i], slotId, entryFee, kind, st.now);
    }
  }

  // ---- All events ----

  lemma {:induction false} ReserveTaskIsGood(st: State, sid: nat, user: nat, cartelaId: nat, keepOthers: bool,
                                             holdMs: int, clock: int)
    requires Safe(st) && References(st) && sid < |st.sessions|
    ensures Good(st, RunReserveTask(st, sid, user, cartelaId, keepOthers, holdMs, clock))
  {
    var task := ReserveTask(sid, user, cartelaId, keepOthers, holdMs, clock);
    if task in st.tasks {
      var holds := ReserveCartela(st.(now := clock), sid, user, cartelaId, keepOthers, holdMs);
      if holds.Some? {
        ReserveIsGood(st, RunReserveTask(st, sid, user, cartelaId, keepOthers, holdMs, clock), sid, user, cartelaId,
                      keepOthers, holdMs, clock, holds.value);
      } else {
        DroppedIsGood(st, task);
      }
    } else {
      NothingHappens(st);
    }
  }

  lemma {:induction false} ReserveBulkTaskIsGood(st: State, sid: nat, user: nat, cartelaIds: seq<nat>, holdMs: int,
                                                 clock: int)
    requires Safe(st) && References(st) && sid < |st.sessions|
    ensures Good(st, RunReserveBulkTask(st, sid, user, cartelaIds, holdMs, clock))
  {
    var task := ReserveBulkTask(sid, user, cartelaIds, holdMs, clock);
    if task in st.tasks {
      if ReserveCartelas(st.(now := clock), sid, user, cartelaIds, holdMs).Some? {
        ReserveBulkIsGood(st, RunReserveBulkTask(st, sid, user, cartelaIds, holdMs, clock), sid, user, cartelaIds,
                          holdMs, clock);
      } else {
        DroppedIsGood(st, task);
      }
    } else {
      NothingHappens(st);
    }
  }

  lemma {:induction false} DroppedIsGood(st: State, task: Task)
    requires Safe(st)
    ensures Good(st, DropTask(st, task))
  {
    TasksStayOk(st, DropTask(st, task));
  }

  lemma {:induction false} ExpireEventIsGood(st: State, sid: nat, ids: set<nat>)
    requires Safe(st) && References(st) && sid < |st.sessions|
    ensures Good(st, RunExpireTask(st, sid, ids))
  {
    if ExpireTask(sid, ids) in st.tasks {
      HoldsEndIsGood(st, RunExpireTask(st, sid, ids), sid, ExpireByIds(st.sessions[sid].holds, ids));
    } else {
      NothingHappens(st);
    }
  }

  lemma {:induction false} ReserveEventIsGood(st: State, e: Event)
    requires Safe(st) && References(st) && Addressed(st, e)
    requires e.SampleReserve? || e.Reserve? || e.SampleReserveBulk? || e.ReserveBulk?
    ensures Good(st, Apply(st, e))
  {
    match e
    case SampleReserve(sid, user, cartelaId, keepOthers, holdMs) =>
      AddedTask(st, ReserveTask(sid, user, cartelaId, keepOthers, holdMs, st.now));
    case Reserve(sid, user, cartelaId, keepOthers, holdMs, clock) =>
      ReserveTaskIsGood(st, sid, user, cartelaId, keepOthers, holdMs, clock);
    case SampleReserveBulk(sid, user, cartelaIds, holdMs) =>
      AddedTask(st, ReserveBulkTask(sid, user, cartelaIds, holdMs, st.now));
    case ReserveBulk(sid, user, cartelaIds, holdMs, clock) =>
      ReserveBulkTaskIsGood(st, sid, user, cartelaIds, holdMs, clock);
  }

  lemma {:induction false} HoldEventIsGood(st: State, e: Event)
    requires Safe(st) && References(st) && Addressed(st, e)
    requires e.ReleaseHold? || e.FindDueHolds? || e.ExpireHolds?
    ensures Good(st, Apply(st, e))
  {
    if e.ReleaseHold? {
      assert Apply(st, e) == WithNewHolds(st, e.sid, Some(CancelHold(st.sessions[e.sid].holds, e.hold, e.user)));
      ReleaseEventIsGood(st, e.sid, e.hold, e.user);
    } else if e.FindDueHolds? {
      assert Apply(st, e) == AddTask(st, ExpireTask(e.sid, DueHolds(st.sessions[e.sid].holds, e.clock)));
      AddedTask(st, ExpireTask(e.sid, DueHolds(st.sessions[e.sid].holds, e.clock)));
    } else {
      assert Apply(st, e) == RunExpireTask(st, e.sid, e.ids);
      ExpireEventIsGood(st, e.sid, e.ids);
    }
  }

  lemma {:induction false} ReleaseEventIsGood(st: State, sid: nat, hold: nat, user: nat)
    requires Safe(st) && References(st) && sid < |st.sessions|
    ensures Good(st, WithNewHolds(st, sid, Some(CancelHold(st.sessions[sid].holds, hold, user))))
  {
    HoldsEndIsGood(st, WithNewHolds(st, sid, Some(CancelHold(st.sessions[sid].holds, hold, user))), sid,
                   CancelHold(st.sessions[sid].holds, hold, user));
  }

  lemma {:induction false} TryIsGood(st: State, result: Option<State>)
    requires Safe(st) && (result.Some? ==> Good(st, result.value))
    ensures Good(st, Try(st, result))
  {
  }

  lemma {:induction false} FeeEventIsGood(st: State, e: Event)
    requires Safe(st) && References(st) && Addressed(st, e) && (e.CheckFee? || e.UpdateFee?)
    ensures Good(st, Apply(st, e))
  {
    NothingHappens(st);
    match e
    case CheckFee(slotId, entryFee) =>
      if FeeUpdateAllowed(st, slotId, entryFee) { AddedTask(st, FeeTask(slotId, entryFee)); }
    case UpdateFee(slotId, entryFee) =>
      if FeeTask(slotId, entryFee) in st.tasks { CommitFeeIsGood(st, slotId, entryFee); }
  }

  lemma {:induction false} OpeningEventIsGood(st: State, e: Event)
    requires Safe(st) && References(st) && Addressed(st, e)
    requires e.CreateSlot? || e.FirstRegistration? || e.OpenRegistration? || e.Start?
    ensures Good(st, Apply(st, e))
  {
    match e
    case CreateSlot(request) =>
      if CreateGameSlot(st, request).Some? { CreateSlotIsGood(st, request); }
      TryIsGood(st, CreateGameSlot(st, request));
    case FirstRegistration(slotId) =>
      if CreateForFirstRegistration(st, slotId).Some? { FirstRegistrationIsGood(st, slotId); }
      TryIsGood(st, CreateForFirstRegistration(st, slotId));
    case OpenRegistration(options, recentlyFinished, durationMs) =>
      OpenNextIsGood(st, options, recentlyFinished, durationMs);
    case Start(slotId, config) =>
      if StartGame(st, slotId, config).Some? { StartIsGood(st, slotId, config); }
      TryIsGood(st, StartGame(st, slotId, config));
  }

  lemma {:induction false} SwitchModeIsGood(st: State, slotId: nat, mode: OperationMode)
    requires Safe(st) && slotId < |st.slots|
    ensures Good(st, st.(slots := st.slots[slotId := st.slots[slotId].(mode := mode)]))
  {
    SlotsChangeIsGood(st, st.slots[slotId := st.slots[slotId].(mode := mode)]);
  }

  lemma {:induction false} ReorderIsGood(st: State, slotIds: seq<nat>)
    requires Safe(st) && forall i | 0 <= i < |slotIds| :: slotIds[i] < |st.slots|
    ensures Good(st, ReorderNow(st, slotIds))
  {
    NothingHappens(st);
    ReorderKeepsSlots(st.slots, slotIds);
    SlotsChangeIsGood(st, Reorder(st.slots, slotIds));
  }

  lemma {:induction false} SlotEventIsGood(st: State, e: Event)
    requires Safe(st) && References(st) && Addressed(st, e)
    requires e.Tick? || e.SwitchMode? || e.ReorderQueue?
    ensures Good(st, Apply(st, e))
  {
    match e
    case Tick(ms) =>
      TickIsGood(st, ms);
      assert Apply(st, e) == st.(now := st.now + ms);
    case SwitchMode(slotId, mode) =>
      SwitchModeIsGood(st, slotId, mode);
      assert Apply(st, e) == st.(slots := st.slots[slotId := st.slots[slotId].(mode := mode)]);
    case ReorderQueue(slotIds) =>
      ReorderIsGood(st, slotIds);
  }

  lemma {:induction false} RegistrationEventIsGood(st: State, e: Event)
    requires Safe(st) && References(st) && Addressed(st, e) && (e.Register? || e.RegisterChunk? || e.Confirm?)
    ensures Good(st, Apply(st, e))
  {
    match e
    case Register(sid, user, cartelaId) => RegisterOneIsGood(st, sid, user, cartelaId, true);
    case RegisterChunk(sid, user, cartelaIds) => RegisterAllIsGood(st, sid, user, cartelaIds, false);
    case Confirm(sid, hold, user) => ConfirmIsGood(st, sid, hold, user);
  }

  lemma {:induction false} PickEventIsGood(st: State, sid: nat, number: int)
    requires Safe(st) && References(st) && sid < |st.sessions|
    ensures Good(st, PickNow(st, sid, number))
  {
    if number in Remaining(st.sessions[sid].calls) {
      PickIsGood(st, sid, number);
    } else {
      NothingHappens(st);
    }
  }

  lemma {:induction false} CloseEarlyIsGood(st: State, sid: nat)
    requires Safe(st) && sid < |st.sessions|
    ensures Good(st, CloseEarlyNow(st, sid))
  {
    ClosedEarly(st.sessions[sid], KindOf(st.slots[st.sessions[sid].slotId]), st.now);
    SessionStep(st, CloseEarlyNow(st, sid), sid);
  }

  lemma {:induction false} RescheduleIsGood(st: State, sid: nat, opensAt: Option<int>, startsAt: Option<int>)
    requires Safe(st) && sid < |st.sessions|
    ensures Good(st, RescheduleNow(st, sid, opensAt, startsAt))
  {
    Rescheduled(st.sessions[sid], opensAt, startsAt, KindOf(st.slots[st.sessions[sid].slotId]), st.now);
    SessionStep(st, RescheduleNow(st, sid, opensAt, startsAt), sid);
  }

  lemma {:induction false} CallEventIsGood(st: State, e: Event)
    requires Safe(st) && References(st) && Addressed(st, e) && (e.CallBall? || e.PickNumber? || e.DrawPicked?)
    ensures Good(st, Apply(st, e))
  {
    if e.CallBall? {
      assert Apply(st, e) == CallBallNow(st, e.sid, e.ball);
      CallBallIsGood(st, e.sid, e.ball);
    } else if e.PickNumber? {
      assert Apply(st, e) == PickNow(st, e.sid, e.number);
      PickEventIsGood(st, e.sid, e.number);
    } else {
      assert Apply(st, e) == RunDrawTask(st, e.sid, e.number, e.isLastNumber);
      DrawIsGood(st, e.sid, e.number, e.isLastNumber);
    }
  }

  lemma {:induction false} TimerEventIsGood(st: State, e: Event)
    requires Safe(st) && References(st) && Addressed(st, e) && (e.BeginGrace? || e.CloseEarly? || e.Reschedule?)
    ensures Good(st, Apply(st, e))
  {
    if e.BeginGrace? {
      assert Apply(st, e) == RunGraceTask(st, e.sid, e.graceMs);
      GraceIsGood(st, e.sid, e.graceMs);
    } else if e.CloseEarly? {
      assert Apply(st, e) == CloseEarlyNow(st, e.sid);
      CloseEarlyIsGood(st, e.sid);
    } else {
      assert Apply(st, e) == RescheduleNow(st, e.sid, e.opensAt, e.startsAt);
      RescheduleIsGood(st, e.sid, e.opensAt, e.startsAt);
    }
  }

  lemma {:induction false} ClaimEventIsGood(st: State, e: Event)
    requires Safe(st) && References(st) && Addressed(st, e) && (e.SubmitClaim? || e.Reject?)
    ensures Good(st, Apply(st, e))
  {
    if e.SubmitClaim? {
      assert Apply(st, e) == ClaimNow(st, e.sid, e.user, e.registration, e.verdict, e.windowMs, e.graceMs);
      ClaimIsGood(st, e.sid, e.user, e.registration, e.verdict, e.windowMs, e.graceMs);
    } else {
      assert Apply(st, e) == RejectNow(st, e.sid, e.claim);
      RejectIsGood(st, e.sid, e.claim);
    }
  }

  lemma {:induction false} PayoutEventIsGood(st: State, e: Event)
    requires Safe(st) && References(st) && Addressed(st, e) && (e.FinalizeWindow? || e.Approve?)
    ensures Good(st, Apply(st, e))
  {
    if e.FinalizeWindow? {
      assert Apply(st, e) == ThenOpen(st, FinalizeNow(st, e.sid, e.graceMs, e.clock), false, e.opener);
      WindowThenOpenIsGood(st, e.sid, e.graceMs, e.clock, e.opener);
    } else {
      assert Apply(st, e) == ThenOpen(st, ApproveClaim(st, e.sid, e.claim, e.checkedAt), false, e.opener);
      ApprovalThenOpenIsGood(st, e.sid, e.claim, e.checkedAt, e.opener);
    }
  }

  lemma {:induction false} WindowThenOpenIsGood(st: State, sid: nat, graceMs: int, clock: int, opener: Option<int>)
    requires Safe(st) && References(st) && sid < |st.sessions|
    ensures Good(st, ThenOpen(st, FinalizeNow(st, sid, graceMs, clock), false, opener))
  {
    if FinalizeNow(st, sid, graceMs, clock).Some? {
      FinalizeIsGood(st, sid, graceMs, clock);
    }
    ThenOpenIsGood(st, FinalizeNow(st, sid, graceMs, clock), false, opener);
  }

  lemma {:induction false} ApprovalThenOpenIsGood(st: State, sid: nat, claim: nat, checkedAt: int, opener: Option<int>)
    requires Safe(st) && References(st) && sid < |st.sessions|
    requires claim < |st.sessions[sid].claims| && st.sessions[sid].claims[claim].createdAt <= checkedAt <= st.now
    ensures Good(st, ThenOpen(st, ApproveClaim(st, sid, claim, checkedAt), false, opener))
  {
    if ApproveClaim(st, sid, claim, checkedAt).Some? {
      ApproveIsGood(st, sid, claim, checkedAt);
    }
    ThenOpenIsGood(st, ApproveClaim(st, sid, claim, checkedAt), false, opener);
  }

  lemma {:induction false} NoWinnerThenOpenIsGood(st: State, sid: nat, opener: Option<int>)
    requires Safe(st) && References(st) && sid < |st.sessions|
    ensures Good(st, ThenOpen(st, EndWithoutWinnerNow(st, sid), false, opener))
  {
    if EndWithoutWinnerNow(st, sid).Some? {
      NoWinnerIsGood(st, sid);
    }
    ThenOpenIsGood(st, EndWithoutWinnerNow(st, sid), false, opener);
  }

  lemma {:induction false} CancelThenOpenIsGood(st: State, sid: nat, requeueSlot: bool, abortIfPlayers: bool,
                                                opener: Option<int>)
    requires Safe(st) && References(st) && sid < |st.sessions|
    ensures Good(st, ThenOpen(st, CancelSession(st, sid, requeueSlot, abortIfPlayers), true, opener))
  {
    if CancelSession(st, sid, requeueSlot, abortIfPlayers).Some? {
      CancelIsGood(st, sid, requeueSlot, abortIfPlayers);
    }
    ThenOpenIsGood(st, CancelSession(st, sid, requeueSlot, abortIfPlayers), true, opener);
  }

  lemma {:induction false} EndEventIsGood(st: State, e: Event)
    requires Safe(st) && References(st) && Addressed(st, e) && (e.EndWithoutWinner? || e.Cancel?)
    ensures Good(st, Apply(st, e))
  {
    if e.EndWithoutWinner? {
      assert Apply(st, e) == ThenOpen(st, EndWithoutWinnerNow(st, e.sid), false, e.opener);
      NoWinnerThenOpenIsGood(st, e.sid, e.opener);
    } else {
      var opener := if e.requeueSlot then e.opener else None;
      assert Apply(st, e) == ThenOpen(st, CancelSession(st, e.sid, e.requeueSlot, e.abortIfPlayers), true, opener);
      CancelThenOpenIsGood(st, e.sid, e.requeueSlot, e.abortIfPlayers, opener);
    }
  }

  lemma {:induction false} EventIsGood(st: State, e: Event)
    requires Safe(st) && References(st) && Addressed(st, e)
    ensures Good(st, Apply(st, e))
  {
    if e.SampleReserve? || e.Reserve? || e.SampleReserveBulk? || e.ReserveBulk? {
      ReserveEventIsGood(st, e);
    } else if e.ReleaseHold? || e.FindDueHolds? || e.ExpireHolds? {
      HoldEventIsGood(st, e);
    } else if e.SubmitClaim? || e.Reject? {
      ClaimEventIsGood(st, e);
    } else if e.FinalizeWindow? || e.Approve? {
      PayoutEventIsGood(st, e);
    } else if e.EndWithoutWinner? || e.Cancel? {
      EndEventIsGood(st, e);
    } else if e.Register? || e.RegisterChunk? || e.Confirm? {
      RegistrationEventIsGood(st, e);
    } else if e.CallBall? || e.PickNumber? || e.DrawPicked? {
      CallEventIsGood(st, e);
    } else if e.BeginGrace? || e.CloseEarly? || e.Reschedule? {
      TimerEventIsGood(st, e);
    } else if e.CreateSlot? || e.FirstRegistration? || e.OpenRegistration? || e.Start? {
      OpeningEventIsGood(st, e);
    } else if e.CheckFee? || e.UpdateFee? {
      FeeEventIsGood(st, e);
    } else {
      SlotEventIsGood(st, e);
    }
  }
}
