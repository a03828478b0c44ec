/** What the expirer's late write can hit. A reservation samples its clock before its transaction, so it may
    extend a hold whose time is already over and which the expirer has listed. */
module HoldRuns {
  import opened Common
  import opened Games
  import opened Registering
  import opened Rounds
  import opened Opening
  import opened Platform
  import opened Invariants
  import opened Safety
  import opened AccountSteps
  import opened Runs
  import opened EarnedWins

  /** A hold that still means something: unexpired, or turned into a registration. */
  predicate IsAlive(hold: Hold, now: int) {
    IsCurrent(hold, now) || hold.status == CONFIRMED
  }

  ghost predicate AliveAt(st: State, sid: nat, i: nat) {
    sid < |st.sessions| && i < |st.sessions[sid].holds| && IsAlive(st.sessions[sid].holds[i], st.now)
  }

  /** Nothing at the given clock keeps the user from holding on to hold `i`. */
  predicate Refreshable(st: State, sid: nat, user: nat, i: nat)
    requires References(st) && sid < |st.sessions| && i < |st.sessions[sid].holds|
  {
    var s := st.sessions[sid];
    var hold := s.holds[i];
    && hold.status == ACTIVE && st.now < hold.expiresAt && hold.userId == user
    && RegistrationRefusal(st, sid).None? && hold.cartelaId < st.catalog
    && !(ShouldLockAgainstLiveRound(s, st.slots[s.slotId]) && LockedByLiveRound(st, sid, hold.cartelaId))
    && !exists r | 0 <= r < |s.registrations| ::
      s.registrations[r].cartelaId == hold.cartelaId && s.registrations[r].status != VOID
  }

  /** The events that bring a hold back to life: a waiting reservation of its owner whose clock was sampled
      before the hold's time was over, committing now. */
  predicate Revives(st: State, e: Event, sid: nat, i: nat)
    requires References(st) && sid < |st.sessions| && i < |st.sessions[sid].holds|
  {
    var hold := st.sessions[sid].holds[i];
    match e
    case Reserve(session, user, cartelaId, keepOthers, holdMs, clock) =>
      && session == sid && cartelaId == hold.cartelaId
      && ReserveTask(sid, user, cartelaId, keepOthers, holdMs, clock) in st.tasks
      && Refreshable(st.(now := clock), sid, user, i)
      && !AtLimit(st.sessions[sid], st.slots[st.sessions[sid].slotId], user, true)
      && st.now < clock + holdMs
    case ReserveBulk(session, user, cartelaIds, holdMs, clock) =>
      && session == sid && hold.cartelaId in cartelaIds
      && ReserveBulkTask(sid, user, cartelaIds, holdMs, clock) in st.tasks
      && Refreshable(st.(now := clock), sid, user, i)
      && st.now < clock + holdMs
    case _ => false
  }

  // ---- One reservation ----

  ghost predicate OneActive(holds: seq<Hold>) {
    forall i, j | 0 <= i < j < |holds| && holds[i].status == ACTIVE && holds[j].status == ACTIVE ::
      holds[i].cartelaId != holds[j].cartelaId
  }

  lemma {:induction false} FindsTheActive(holds: seq<Hold>, i: nat, clock: int)
    requires OneActive(holds) && i < |holds| && IsCurrent(holds[i], clock)
    ensures FindHold(holds, holds[i].cartelaId, clock) == Some(i)
  {
  }

  /** What placing a hold does to hold `i`. */
  lemma {:induction false} PlacingOn(holds: seq<Hold>, cartelaId: nat, user: nat, clock: int, expiresAt: int, i: nat)
    requires OneActive(holds) && i < |holds|
    ensures var placed := PlaceHold(holds, cartelaId, user, clock, expiresAt);
      var refreshes := holds[i].cartelaId == cartelaId && IsCurrent(holds[i], clock) && holds[i].userId == user;
      && (refreshes ==> placed.Some?)
      && (placed.Some? ==> i < |placed.value| && OneActive(placed.value)
                           && placed.value[i] == if refreshes then holds[i].(expiresAt := expiresAt) else holds[i])
  {
    if holds[i].cartelaId == cartelaId && IsCurrent(holds[i], clock) {
      FindsTheActive(holds, i, clock);
    }
  }

  lemma {:induction false} ClearedIsActive(holds: seq<Hold>, user: nat, cartelaId: nat, keepOthers: bool, clock: int,
                                           i: nat)
    requires OneActive(holds) && i < |holds|
    ensures var cleared := ClearedHolds(holds, user, cartelaId, keepOthers, clock);
      && OneActive(cleared) && |cleared| == |holds|
      && (cleared[i] == holds[i] || (cleared[i].status in {EXPIRED, RELEASED} && holds[i].status == ACTIVE))
      && (holds[i].cartelaId == cartelaId && IsCurrent(holds[i], clock) ==> cleared[i] == holds[i])
      && (IsCurrent(cleared[i], clock) ==> cleared[i] == holds[i])
  {
    var expired := ExpireCartela(holds, cartelaId, clock);
    if holds[i].cartelaId == cartelaId && IsCurrent(holds[i], clock) {
      FindsTheActive(expired, i, clock);
    }
  }

  lemma {:induction false} CommitOn(st: State, sid: nat, user: nat, cartelaId: nat, keepOthers: bool, holdMs: int,
                                    i: nat, now: int)
    requires References(st) && sid < |st.sessions| && i < |st.sessions[sid].holds| && OneActive(st.sessions[sid].holds)
    requires !IsAlive(st.sessions[sid].holds[i], now)
    ensures var holds := ReserveCartela(st, sid, user, cartelaId, keepOthers, holdMs);
      var refreshes := cartelaId == st.sessions[sid].holds[i].cartelaId && Refreshable(st, sid, user, i)
                       && !AtLimit(st.sessions[sid], st.slots[st.sessions[sid].slotId], user, true);
      && (refreshes ==> holds.Some?)
      && (holds.Some? ==> i < |holds.value| && (IsAlive(holds.value[i], now) <==> refreshes && now < st.now + holdMs))
  {
    var s := st.sessions[sid];
    var cleared := ClearedHolds(s.holds, user, cartelaId, keepOthers, st.now);
    ClearedIsActive(s.holds, user, cartelaId, keepOthers, st.now, i);
    PlacingOn(cleared, cartelaId, user, st.now, st.now + holdMs, i);
    if ReserveCartela(st, sid, user, cartelaId, keepOthers, holdMs).Some? {
      ReserveShape(st, sid, user, cartelaId, keepOthers, holdMs);
    }
  }

  // ---- Reservations in bulk ----

  /** What the bulk makes of hold `i`: a new deadline when its cartela is asked for and may be held. */
  lemma {:induction false} EachOn(st: State, sid: nat, holds: seq<Hold>, user: nat, ids: seq<nat>, holdMs: int, i: nat)
    requires References(st) && sid < |st.sessions| && RegistrationRefusal(st, sid).None? && i < |st.sessions[sid].holds|
    requires |holds| == |st.sessions[sid].holds| && OneActive(holds)
    requires holds[i].cartelaId == st.sessions[sid].holds[i].cartelaId
    requires IsCurrent(st.sessions[sid].holds[i], st.now) ==> holds[i] == st.sessions[sid].holds[i]
    requires IsCurrent(holds[i], st.now) ==> holds[i] == st.sessions[sid].holds[i]
    ensures var after := ReserveEach(st, sid, holds, user, ids, holdMs);
      && i < |after| && OneActive(after)
      && after[i] == if st.sessions[sid].holds[i].cartelaId in ids && Refreshable(st, sid, user, i)
                     then holds[i].(expiresAt := st.now + holdMs) else holds[i]
  {
    if ids != [] {
      var front, last := ids[..|ids| - 1], ids[|ids| - 1];
      EachOn(st, sid, holds, user, front, holdMs, i);
      assert ids == front + [last];
      OneOn(st, sid, ReserveEach(st, sid, holds, user, front, holdMs), user, last, holdMs, i,
            st.sessions[sid].holds[i].cartelaId in front && Refreshable(st, sid, user, i));
    }
  }

  lemma {:induction false} OneOn(st: State, sid: nat, before: seq<Hold>, user: nat, cartelaId: nat, holdMs: int,
                                 i: nat, refreshed: bool)
    requires References(st) && sid < |st.sessions| && RegistrationRefusal(st, sid).None? && i < |st.sessions[sid].holds|
    requires i < |before| && OneActive(before)
    requires refreshed ==> Refreshable(st, sid, user, i)
                           && before[i] == st.sessions[sid].holds[i].(expiresAt := st.now + holdMs)
    requires !refreshed && (IsCurrent(st.sessions[sid].holds[i], st.now) || IsCurrent(before[i], st.now)) ==>
      before[i] == st.sessions[sid].holds[i]
    requires before[i].cartelaId == st.sessions[sid].holds[i].cartelaId
    ensures var after := ReserveInBulk(st, sid, before, user, cartelaId, holdMs);
      && i < |after| && OneActive(after)
      && after[i] == if cartelaId == st.sessions[sid].holds[i].cartelaId && Refreshable(st, sid, user, i)
                     then before[i].(expiresAt := st.now + holdMs) else before[i]
  {
    PlacingOn(before, cartelaId, user, st.now, st.now + holdMs, i);
  }

  lemma {:induction false} CommitBulkOn(st: State, sid: nat, user: nat, ids: seq<nat>, holdMs: int, i: nat, now: int)
    requires References(st) && sid < |st.sessions| && i < |st.sessions[sid].holds| && OneActive(st.sessions[sid].holds)
    requires !IsAlive(st.sessions[sid].holds[i], now) && ReserveCartelas(st, sid, user, ids, holdMs).Some?
    ensures var holds := ReserveCartelas(st, sid, user, ids, holdMs).value;
      var refreshes := st.sessions[sid].holds[i].cartelaId in ids && Refreshable(st, sid, user, i);
      i < |holds| && (IsAlive(holds[i], now) <==> refreshes && now < st.now + holdMs)
  {
    EachOn(st, sid, ExpireCartelas(st.sessions[sid].holds, ids, st.now), user, ids, holdMs, i);
  }

  // ---- One event ----

  lemma {:induction false} ReserveRevivesIff(st: State, e: Event, sid: nat, i: nat)
    requires Safe(st) && References(st) && Addressed(st, e) && (e.Reserve? || e.ReserveBulk?)
    requires sid < |st.sessions| && i < |st.sessions[sid].holds| && !IsAlive(st.sessions[sid].holds[i], st.now)
    ensures AliveAt(Apply(st, e), sid, i) <==> Revives(st, e, sid, i)
  {
    assert HoldsOk(st.sessions[sid], st.now);
    if e.Reserve? {
      if e.sid == sid {
        CommitOn(st.(now := e.clock), sid, e.user, e.cartelaId, e.keepOthers, e.holdMs, i, st.now);
      }
    } else {
      BulkRevivesIff(st, e, sid, i);
    }
  }

  lemma {:induction false} BulkRevivesIff(st: State, e: Event, sid: nat, i: nat)
    requires Safe(st) && References(st) && Addressed(st, e) && e.ReserveBulk?
    requires sid < |st.sessions| && i < |st.sessions[sid].holds| && !IsAlive(st.sessions[sid].holds[i], st.now)
    ensures AliveAt(Apply(st, e), sid, i) <==> Revives(st, e, sid, i)
  {
    assert HoldsOk(st.sessions[sid], st.now);
    if e.sid == sid && ReserveCartelas(st.(now := e.clock), sid, e.user, e.cartelaIds, e.holdMs).Some? {
      CommitBulkOn(st.(now := e.clock), sid, e.user, e.cartelaIds, e.holdMs, i, st.now);
    }
  }

  lemma {:induction false} RegisterRevivesNone(st: State, sid: nat, user: nat, cartelaId: nat, limitBigGames: bool,
                                               k: nat, i: nat)
    requires References(st) && sid < |st.sessions| && user < |st.books.wallets|
    requires k < |st.sessions| && i < |st.sessions[k].holds| && !IsAlive(st.sessions[k].holds[i], st.now)
    ensures var after := RegisterOne(st, sid, user, cartelaId, limitBigGames).0;
      after.now == st.now && |after.sessions| == |st.sessions| && |after.sessions[k].holds| == |st.sessions[k].holds|
      && !AliveAt(after, k, i)
  {
    RegisterShape(st, sid, user, cartelaId, limitBigGames);
  }

  lemma {:induction false} RegisterAllRevivesNone(st: State, sid: nat, user: nat, ids: seq<nat>, limitBigGames: bool,
                                                  k: nat, i: nat)
    requires References(st) && sid < |st.sessions| && user < |st.books.wallets|
    requires k < |st.sessions| && i < |st.sessions[k].holds| && !IsAlive(st.sessions[k].holds[i], st.now)
    ensures var after := RegisterAll(st, sid, user, ids, limitBigGames);
      |after.sessions[k].holds| == |st.sessions[k].holds| && !AliveAt(after, k, i)
  {
    if ids != [] {
      RegisterAllRevivesNone(st, sid, user, ids[..|ids| - 1], limitBigGames, k, i);
      RegisterRevivesNone(RegisterAll(st, sid, user, ids[..|ids| - 1], limitBigGames), sid, user, ids[|ids| - 1],
                          limitBigGames, k, i);
    }
  }

  lemma {:induction false} RegistrationRevivesNone(st: State, e: Event, k: nat, i: nat)
    requires References(st) && Addressed(st, e) && (e.Register? || e.RegisterChunk? || e.Confirm?)
    requires k < |st.sessions| && i < |st.sessions[k].holds| && !IsAlive(st.sessions[k].holds[i], st.now)
    ensures !AliveAt(Apply(st, e), k, i)
  {
    match e
    case Register(sid, user, cartelaId) => RegisterRevivesNone(st, sid, user, cartelaId, true, k, i);
    case RegisterChunk(sid, user, cartelaIds) => RegisterAllRevivesNone(st, sid, user, cartelaIds, false, k, i);
    case Confirm(sid, hold, user) => ConfirmShape(st, sid, hold, user);
  }

  lemma {:induction false} HoldEventRevivesNone(st: State, e: Event, k: nat, i: nat)
    requires References(st) && Addressed(st, e)
    requires e.SampleReserve? || e.SampleReserveBulk? || e.ReleaseHold? || e.FindDueHolds? || e.ExpireHolds?
    requires k < |st.sessions| && i < |st.sessions[k].holds| && !IsAlive(st.sessions[k].holds[i], st.now)
    ensures !AliveAt(Apply(st, e), k, i)
  {
  }

  /** All other events keep every hold as it is. */
  lemma {:induction false} OthersKeepHolds(st: State, e: Event)
    requires References(st) && Addressed(st, e)
    requires !IsHoldEvent(e) && !e.Register? && !e.RegisterChunk? && !e.Confirm?
    ensures HoldsKept(st, Apply(st, e)) && st.now <= Apply(st, e).now
  {
    if e.SubmitClaim? || e.Approve? || e.Reject? {
      ClaimsKeepHolds(st, e);
    } else if e.FinalizeWindow? || e.EndWithoutWinner? || e.Cancel? {
      EndsMakeNobody(st, e);
    } else {
      QuietKeepHolds(st, e);
    }
  }

  lemma {:induction false} ClaimsKeepHolds(st: State, e: Event)
    requires References(st) && Addressed(st, e) && (e.SubmitClaim? || e.Approve? || e.Reject?)
    ensures HoldsKept(st, Apply(st, e)) && st.now <= Apply(st, e).now
  {
    if e.SubmitClaim? {
      assert Apply(st, e) == ClaimNow(st, e.sid, e.user, e.registration, e.verdict, e.windowMs, e.graceMs);
      ClaimKeepsHolds(st, e.sid, e.user, e.registration, e.verdict, e.windowMs, e.graceMs);
    } else if e.Approve? {
      assert Apply(st, e) == ThenOpen(st, ApproveClaim(st, e.sid, e.claim, e.checkedAt), false, e.opener);
      ApprovalKeepsHolds(st, e.sid, e.claim, e.checkedAt, e.opener);
    } else {
      assert Apply(st, e) == RejectNow(st, e.sid, e.claim);
      RejectMakesNobody(st, e.sid, e.claim);
    }
  }

  lemma {:induction false} ClaimKeepsHolds(st: State, sid: nat, user: nat, registration: nat, verdict: Verdict,
                                           windowMs: int, graceMs: int)
    requires References(st) && sid < |st.sessions|
    ensures var after := ClaimNow(st, sid, user, registration, verdict, windowMs, graceMs);
      HoldsKept(st, after) && st.now == after.now
  {
    OneSessionHolds(st, ClaimNow(st, sid, user, registration, verdict, windowMs, graceMs), sid);
  }

  lemma {:induction false} QuietKeepHolds(st: State, e: Event)
    requires References(st) && Addressed(st, e)
    requires !IsHoldEvent(e) && !e.Register? && !e.RegisterChunk? && !e.Confirm?
    requires !e.SubmitClaim? && !e.Approve? && !e.Reject? && !e.FinalizeWindow? && !e.EndWithoutWinner? && !e.Cancel?
    ensures HoldsKept(st, Apply(st, e)) && st.now <= Apply(st, e).now
  {
    if e.CreateSlot? || e.FirstRegistration? || e.OpenRegistration? || e.Start? {
      OpeningMakesNobody(st, e);
    } else if e.CallBall? || e.PickNumber? || e.DrawPicked? {
      CallsMakeNobody(st, e);
    } else if e.BeginGrace? || e.CloseEarly? || e.Reschedule? {
      TimersMakeNobody(st, e);
    } else {
      SlotsMakeNobody(st, e);
    }
  }

  lemma {:induction false} OneSessionHolds(st: State, st': State, sid: nat)
    requires sid < |st.sessions| && |st'.sessions| == |st.sessions|
    requires st'.sessions == st.sessions[sid := st'.sessions[sid]]
    requires st'.sessions[sid].holds == st.sessions[sid].holds
    ensures HoldsKept(st, st')
  {
  }

  lemma {:induction false} ApprovalKeepsHolds(st: State, sid: nat, c: nat, checkedAt: int, opener: Option<int>)
    requires References(st) && sid < |st.sessions|
    ensures HoldsKept(st, ThenOpen(st, ApproveClaim(st, sid, c, checkedAt), false, opener))
  {
    var approved := ApproveClaim(st, sid, c, checkedAt);
    if approved.Some? && opener.Some? {
      OpenerMakesNobody(approved.value, OpenerOptions(true, false), false, opener.value);
    }
  }

  /** The only events that bring a dead hold back are refreshes with a clock from before its deadline. */
  lemma {:induction false} RevivedIff(st: State, e: Event, sid: nat, i: nat)
    requires Safe(st) && References(st) && Addressed(st, e)
    requires sid < |st.sessions| && i < |st.sessions[sid].holds| && !IsAlive(st.sessions[sid].holds[i], st.now)
    ensures AliveAt(Apply(st, e), sid, i) <==> Revives(st, e, sid, i)
  {
    if e.Reserve? || e.ReserveBulk? {
      ReserveRevivesIff(st, e, sid, i);
    } else if IsHoldEvent(e) {
      HoldEventRevivesNone(st, e, sid, i);
    } else if e.Register? || e.RegisterChunk? || e.Confirm? {
      RegistrationRevivesNone(st, e, sid, i);
    } else {
      OthersKeepHolds(st, e);
    }
  }

  // ---- Between the expirer's read and its write ----

  ghost predicate RevivedBy(st: State, e: Event, sid: nat, i: nat) {
    References(st) && Addressed(st, e) && sid < |st.sessions| && i < |st.sessions[sid].holds| && Revives(st, e, sid, i)
  }

  ghost predicate NeverAlive(start: State, events: seq<Event>, between: seq<Event>, sid: nat, i: nat) {
    forall j | 0 <= j <= |between| :: !AliveAt(After(start, events + between[..j]), sid, i)
  }

  ghost predicate NeverRevived(start: State, events: seq<Event>, between: seq<Event>, sid: nat, i: nat) {
    forall j | 0 <= j < |between| :: !RevivedBy(After(start, events + between[..j]), between[j], sid, i)
  }

  lemma {:induction false} StepBetween(start: State, events: seq<Event>, between: seq<Event>, j: nat)
    requires j < |between|
    ensures After(start, events + between[..j + 1]) == Happen(After(start, events + between[..j]), between[j])
  {
    assert events + between[..j + 1] == events + between[..j] + [between[j]];
    OneMoreEvent(start, events + between[..j], between[j]);
  }

  lemma {:induction false} StaysDead(st: State, e: Event, sid: nat, i: nat)
    requires Safe(st) && References(st) && sid < |st.sessions| && i < |st.sessions[sid].holds|
    requires !AliveAt(st, sid, i) && !RevivedBy(st, e, sid, i)
    ensures var now := Happen(st, e); sid < |now.sessions| && i < |now.sessions[sid].holds| && !AliveAt(now, sid, i)
  {
    if Addressed(st, e) {
      RevivedIff(st, e, sid, i);
      EventIsGood(st, e);
    }
  }

  lemma {:induction false} DeadUntil(start: State, events: seq<Event>, between: seq<Event>, sid: nat, i: nat, upTo: nat)
    requires Initial(start) && upTo <= |between|
    requires sid < |After(start, events).sessions| && i < |After(start, events).sessions[sid].holds|
    requires !AliveAt(After(start, events), sid, i)
    requires forall j | 0 <= j < upTo :: !RevivedBy(After(start, events + between[..j]), between[j], sid, i)
    ensures var now := After(start, events + between[..upTo]);
      sid < |now.sessions| && i < |now.sessions[sid].holds| && !AliveAt(now, sid, i)
  {
    if upTo == 0 {
      assert events + between[..0] == events;
    } else {
      DeadUntil(start, events, between, sid, i, upTo - 1);
      StepBetween(start, events, between, upTo - 1);
      EveryRunIsSafe(start, events + between[..upTo - 1]);
      StaysDead(After(start, events + between[..upTo - 1]), between[upTo - 1], sid, i);
    }
  }

  /** From the moment the expirer has listed a due hold, the hold stays dead exactly as long as no reservation
      of its owner with a clock from before its deadline commits on it: then the write finds nothing to spare. */
  lemma {:induction false} ListedHoldStaysDeadIff(start: State, events: seq<Event>, sid: nat, clock: int,
                                                  between: seq<Event>, i: nat)
    requires Initial(start)
    requires var st := After(start, events);
      && sid < |st.sessions| && clock <= st.now && i in DueHolds(st.sessions[sid].holds, clock)
    ensures var found := events + [FindDueHolds(sid, clock)];
      NeverAlive(start, found, between, sid, i) <==> NeverRevived(start, found, between, sid, i)
  {
    var found := events + [FindDueHolds(sid, clock)];
    EveryRunIsSafe(start, events);
    OneMoreEvent(start, events, FindDueHolds(sid, clock));
    assert !AliveAt(After(start, found), sid, i);
    if NeverRevived(start, found, between, sid, i) {
      forall j | 0 <= j <= |between|
        ensures !AliveAt(After(start, found + between[..j]), sid, i)
      {
        DeadUntil(start, found, between, sid, i, j);
      }
    } else {
      RevivedMeansAlive(start, found, between, sid, i);
    }
  }

  lemma {:induction false} RevivedMeansAlive(start: State, found: seq<Event>, between: seq<Event>, sid: nat, i: nat)
    requires Initial(start) && !NeverRevived(start, found, between, sid, i)
    ensures !NeverAlive(start, found, between, sid, i)
  {
    var j :| 0 <= j < |between| && RevivedBy(After(start, found + between[..j]), between[j], sid, i);
    var before := After(start, found + between[..j]);
    EveryRunIsSafe(start, found + between[..j]);
    StepBetween(start, found, between, j);
    if !AliveAt(before, sid, i) {
      RevivedIff(before, between[j], sid, i);
      assert AliveAt(After(start, found + between[..j + 1]), sid, i);
    }
  }

  /** The states from the expirer's read to its write. */
  ghost function History(start: State, found: seq<Event>, between: seq<Event>): (h: seq<State>)
    ensures |h| == |between| + 1 && forall k | 0 <= k <= |between| :: h[k] == After(start, found + between[..k])
  {
    seq(|between| + 1, k requires 0 <= k <= |between| => After(start, found + between[..k]))
  }

  /** Event `j` is a late refresh, and nothing has ended the hold since. */
  ghost predicate AliveSince(h: seq<State>, between: seq<Event>, sid: nat, i: nat, j: nat) {
    && |h| == |between| + 1 && j < |between|
    && RevivedBy(h[j], between[j], sid, i) && forall k | j < k <= |between| :: AliveAt(h[k], sid, i)
  }

  /** So the write meets a live hold exactly when a late refresh has brought the hold back and it has stayed
      alive since. */
  lemma {:induction false} WriteMeetsLiveHoldIff(start: State, events: seq<Event>, sid: nat, clock: int,
                                                 between: seq<Event>, i: nat)
    requires Initial(start)
    requires var st := After(start, events);
      && sid < |st.sessions| && clock <= st.now && i in DueHolds(st.sessions[sid].holds, clock)
    ensures var h := History(start, events + [FindDueHolds(sid, clock)], between);
      AliveAt(h[|between|], sid, i) <==> exists j: nat :: AliveSince(h, between, sid, i, j)
  {
    var found := events + [FindDueHolds(sid, clock)];
    var h := History(start, found, between);
    if AliveAt(h[|between|], sid, i) {
      assert !AliveAt(h[0], sid, i) by {
        OneMoreEvent(start, events, FindDueHolds(sid, clock));
        assert found + between[..0] == found;
      }
      forall k | 0 <= k < |between| && !AliveAt(h[k], sid, i) && AliveAt(h[k + 1], sid, i)
        ensures RevivedBy(h[k], between[k], sid, i)
      {
        OneMoreEvent(start, events, FindDueHolds(sid, clock));
        RevivedHere(start, found, between, sid, i, k);
      }
      var j := LastTurn(h, between, sid, i);
    }
  }

  /** Where the last stretch of a history begins. */
  lemma {:induction false} LastTurn(h: seq<State>, between: seq<Event>, sid: nat, i: nat) returns (j: nat)
    requires |h| == |between| + 1 && !AliveAt(h[0], sid, i) && AliveAt(h[|between|], sid, i)
    requires forall k | 0 <= k < |between| && !AliveAt(h[k], sid, i) && AliveAt(h[k + 1], sid, i) ::
        RevivedBy(h[k], between[k], sid, i)
    ensures AliveSince(h, between, sid, i, j)
  {
    j := |between| - 1;
    if AliveAt(h[j], sid, i) {
      j := LastTurn(h[..j + 1], between[..j], sid, i);
    }
  }

  lemma {:induction false} RevivedHere(start: State, found: seq<Event>, between: seq<Event>, sid: nat, i: nat, j: nat)
    requires Initial(start) && j < |between|
    requires sid < |After(start, found).sessions| && i < |After(start, found).sessions[sid].holds|
    requires !AliveAt(After(start, found + between[..j]), sid, i)
    requires AliveAt(After(start, found + between[..j + 1]), sid, i)
    ensures RevivedBy(After(start, found + between[..j]), between[j], sid, i)
  {
    EveryRunIsSafe(start, found + between[..j]);
    RunsGrow(start, found, between[..j]);
    StepBetween(start, found, between, j);
    if !RevivedBy(After(start, found + between[..j]), between[j], sid, i) {
      StaysDead(After(start, found + between[..j]), between[j], sid, i);
    }
  }

  /** The write itself never looks: whatever a listed hold has become, it is EXPIRED afterwards. */
  lemma {:induction false} WriteExpires(start: State, events: seq<Event>, sid: nat, ids: set<nat>, i: nat)
    requires Initial(start)
    requires var st := After(start, events); ExpireTask(sid, ids) in st.tasks && i in ids
    ensures References(After(start, events))
    ensures var st := After(start, events);
      && sid < |st.sessions| && i < |st.sessions[sid].holds|
      && Apply(st, ExpireHolds(sid, ids)).sessions[sid].holds[i] == st.sessions[sid].holds[i].(status := EXPIRED)
  {
    EveryRunIsSafe(start, events);
    WriteOnState(After(start, events), sid, ids, i);
  }

  lemma {:induction false} WriteOnState(st: State, sid: nat, ids: set<nat>, i: nat)
    requires References(st) && TasksOk(st) && ExpireTask(sid, ids) in st.tasks && i in ids
    ensures sid < |st.sessions| && i < |st.sessions[sid].holds|
    ensures Apply(st, ExpireHolds(sid, ids)).sessions[sid].holds[i] == st.sessions[sid].holds[i].(status := EXPIRED)
  {
    assert TaskOk(st, ExpireTask(sid, ids));
  }

  // ---- A run in which the write hits a live hold ----

  const QUEUED := Slot(NEXT, NORMAL, AUTO, None, false, 1000, 800, None, None, false, Some(1))

  const QUIET := State(0, 100, [QUEUED], [], Books([Wallet(0, 0)], map[]), multiset{})

  /** The hold of cartela 7 is over at time 10. Its owner asks for it again at 9, the expirer lists it at 10,
      the owner's transaction extends it to 19, and the expirer writes. */
  const LATE_WRITE := [
    FirstRegistration(0), SampleReserve(0, 0, 7, true, 10), Reserve(0, 0, 7, true, 10, 0), Tick(9),
    SampleReserve(0, 0, 7, true, 10), Tick(1), FindDueHolds(0, 10), Reserve(0, 0, 7, true, 10, 9), ExpireHolds(0, {0})]

  function Waiting(): Session {
    NewSession(0, Fees(1000, 800, 200, 0), 0, READY, None, None)
  }

  function WithHold(hold: Hold): Session {
    Waiting().(holds := [hold])
  }

  lemma {:induction false} MayHold(st: State)
    requires st.catalog == 100 && st.slots == [QUEUED] && |st.sessions| == 1
    requires st.sessions[0] == Waiting().(holds := st.sessions[0].holds)
    ensures References(st) && !MayNotReserve(st, 0, 0, 7)
  {
    assert !AnyLive(st.sessions);
    assert UserCount(st.sessions[0].registrations, 0) == 0;
  }

  lemma {:induction false} FirstHold(st: State)
    requires st == QUIET.(sessions := [Waiting()], tasks := multiset{ReserveTask(0, 0, 7, true, 10, 0)})
    ensures Happen(st, Reserve(0, 0, 7, true, 10, 0)) == QUIET.(sessions := [WithHold(Hold(7, 0, 10, ACTIVE))])
  {
    assert st.(now := 0) == st;
    MayHold(st);
    var none: seq<Hold> := [];
    assert ExpireCartela(none, 7, 0) == none && none + [Hold(7, 0, 10, ACTIVE)] == [Hold(7, 0, 10, ACTIVE)];
    assert PlaceHold(none, 7, 0, 0, 10) == Some([Hold(7, 0, 10, ACTIVE)]);
    assert ReserveCartela(st, 0, 0, 7, true, 10) == Some([Hold(7, 0, 10, ACTIVE)]);
    assert st.tasks - multiset{ReserveTask(0, 0, 7, true, 10, 0)} == multiset{};
  }

  lemma {:induction false} LateRefresh(st: State)
    requires st == QUIET.(now := 10, sessions := [WithHold(Hold(7, 0, 10, ACTIVE))],
                          tasks := multiset{ReserveTask(0, 0, 7, true, 10, 9), ExpireTask(0, {0})})
    ensures Happen(st, Reserve(0, 0, 7, true, 10, 9))
         == QUIET.(now := 10, sessions := [WithHold(Hold(7, 0, 19, ACTIVE))], tasks := multiset{ExpireTask(0, {0})})
  {
    var sampled := st.(now := 9);
    MayHold(sampled);
    assert ExpireCartela([Hold(7, 0, 10, ACTIVE)], 7, 9) == [Hold(7, 0, 10, ACTIVE)];
    assert FindHold([Hold(7, 0, 10, ACTIVE)], 7, 9) == Some(0);
    assert [Hold(7, 0, 10, ACTIVE)][0 := Hold(7, 0, 19, ACTIVE)] == [Hold(7, 0, 19, ACTIVE)];
    assert PlaceHold([Hold(7, 0, 10, ACTIVE)], 7, 0, 9, 19) == Some([Hold(7, 0, 19, ACTIVE)]);
    assert ReserveCartela(sampled, 0, 0, 7, true, 10) == Some([Hold(7, 0, 19, ACTIVE)]);
    assert st.tasks - multiset{ReserveTask(0, 0, 7, true, 10, 9)} == multiset{ExpireTask(0, {0})};
  }

  lemma {:induction false} OpenAndSample()
    ensures Happen(QUIET, FirstRegistration(0)) == QUIET.(sessions := [Waiting()])
    ensures Happen(QUIET.(sessions := [Waiting()]), SampleReserve(0, 0, 7, true, 10))
         == QUIET.(sessions := [Waiting()], tasks := multiset{ReserveTask(0, 0, 7, true, 10, 0)})
  {
  }

  lemma {:induction false} SampleAndList(st: State)
    requires st == QUIET.(sessions := [WithHold(Hold(7, 0, 10, ACTIVE))])
    ensures var late := Happen(st, Tick(9));
      && late == st.(now := 9)
      && Happen(late, SampleReserve(0, 0, 7, true, 10)) == late.(tasks := multiset{ReserveTask(0, 0, 7, true, 10, 9)})
  {
  }

  lemma {:induction false} ListDue(st: State)
    requires st
        == QUIET.(now := 10, sessions := [WithHold(Hold(7, 0, 10, ACTIVE))],
                  tasks := multiset{ReserveTask(0, 0, 7, true, 10, 9)})
    ensures Happen(st, FindDueHolds(0, 10))
      == st.(tasks := multiset{ReserveTask(0, 0, 7, true, 10, 9), ExpireTask(0, {0})})
  {
    assert DueHolds(st.sessions[0].holds, 10) == {0};
  }

  lemma {:induction false} Prefixes(n: nat)
    requires n < |LATE_WRITE|
    ensures After(QUIET, LATE_WRITE[..n + 1]) == Happen(After(QUIET, LATE_WRITE[..n]), LATE_WRITE[n])
  {
    OneMoreEvent(QUIET, LATE_WRITE[..n], LATE_WRITE[n]);
    assert LATE_WRITE[..n] + [LATE_WRITE[n]] == LATE_WRITE[..n + 1];
  }

  lemma {:induction false} UntilHeld()
    ensures After(QUIET, LATE_WRITE[..3]) == QUIET.(sessions := [WithHold(Hold(7, 0, 10, ACTIVE))])
  {
    assert LATE_WRITE[..0] == [];
    Prefixes(0);
    Prefixes(1);
    OpenAndSample();
    Prefixes(2);
    FirstHold(After(QUIET, LATE_WRITE[..2]));
  }

  lemma {:induction false} UntilSampled()
    ensures After(QUIET, LATE_WRITE[..5])
         == QUIET.(now := 9, sessions := [WithHold(Hold(7, 0, 10, ACTIVE))],
                   tasks := multiset{ReserveTask(0, 0, 7, true, 10, 9)})
  {
    UntilHeld();
    Prefixes(3);
    Prefixes(4);
    SampleAndList(After(QUIET, LATE_WRITE[..3]));
  }

  lemma {:induction false} UntilLate()
    ensures After(QUIET, LATE_WRITE[..6])
         == QUIET.(now := 10, sessions := [WithHold(Hold(7, 0, 10, ACTIVE))],
                   tasks := multiset{ReserveTask(0, 0, 7, true, 10, 9)})
  {
    UntilSampled();
    Prefixes(5);
  }

  lemma {:induction false} UntilListed()
    ensures After(QUIET, LATE_WRITE[..7])
         == QUIET.(now := 10, sessions := [WithHold(Hold(7, 0, 10, ACTIVE))],
                   tasks := multiset{ReserveTask(0, 0, 7, true, 10, 9), ExpireTask(0, {0})})
  {
    UntilLate();
    Prefixes(6);
    ListDue(After(QUIET, LATE_WRITE[..6]));
  }

  lemma {:induction false} UntilRefreshed()
    ensures After(QUIET, LATE_WRITE[..8])
         == QUIET.(now := 10, sessions := [WithHold(Hold(7, 0, 19, ACTIVE))], tasks := multiset{ExpireTask(0, {0})})
  {
    UntilListed();
    Prefixes(7);
    LateRefresh(After(QUIET, LATE_WRITE[..7]));
  }

  lemma {:induction false} UntilWritten()
    ensures After(QUIET, LATE_WRITE).sessions == [WithHold(Hold(7, 0, 19, EXPIRED))]
      && After(QUIET, LATE_WRITE).now == 10
  {
    UntilRefreshed();
    Prefixes(8);
    LastWrite(After(QUIET, LATE_WRITE[..8]));
    assert LATE_WRITE[..9] == LATE_WRITE;
  }

  /** Before the write the hold runs until 19 and it is only 10; after it the hold is EXPIRED. */
  lemma {:induction false} LateWriteHitsLiveHold()
    ensures Initial(QUIET)
    ensures After(QUIET, LATE_WRITE[..8]).sessions == [WithHold(Hold(7, 0, 19, ACTIVE))]
      && After(QUIET, LATE_WRITE[..8]).now == 10
    ensures AliveAt(After(QUIET, LATE_WRITE[..8]), 0, 0)
    ensures After(QUIET, LATE_WRITE).sessions == [WithHold(Hold(7, 0, 19, EXPIRED))]
      && After(QUIET, LATE_WRITE).now == 10
  {
    UntilRefreshed();
    UntilWritten();
  }

  lemma {:induction false} LastWrite(st: State)
    requires st
        == QUIET.(now := 10, sessions := [WithHold(Hold(7, 0, 19, ACTIVE))], tasks := multiset{ExpireTask(0, {0})})
    ensures Happen(st, ExpireHolds(0, {0})).sessions == [WithHold(Hold(7, 0, 19, EXPIRED))]
    ensures Happen(st, ExpireHolds(0, {0})).now == 10
  {
    assert ExpireByIds([Hold(7, 0, 19, ACTIVE)], {0}) == [Hold(7, 0, 19, EXPIRED)];
  }
}
