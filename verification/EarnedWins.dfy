/** Who can become a winner: only the owner of a winning board who claims in time, or an approved claim. */
module EarnedWins {
  import opened Common
  import opened Games
  import opened GameQueue
  import opened Registering
  import opened Rounds
  import opened Opening
  import opened Platform
  import opened Invariants
  import opened SessionSteps
  import opened Safety
  import opened AccountSteps
  import opened Runs
  import OpenerProofs

  /** The claim, or the review, that makes cartela `r` of a session a winner. */
  ghost predicate Earned(st: State, e: Event, sid: nat, r: nat)
    requires References(st) && sid < |st.sessions| && r < |st.sessions[sid].registrations|
  {
    var s := st.sessions[sid];
    var manualRule := st.slots[s.slotId].manualRule;
    && s.registrations[r].status == REGISTERED
    && match e
       case SubmitClaim(session, user, registration, verdict, _, graceMs) =>
         && session == sid && registration == r && s.registrations[r].userId == user
         && verdict == WINNING && !manualRule
         && (s.status == PLAYING
             || (s.status == WINNER_WINDOW && s.winnerWindowEndsAt.Some?
                 && st.now <= s.winnerWindowEndsAt.value + graceMs))
       case Approve(session, claim, _, _) =>
         && session == sid && manualRule && s.status == CHECKING
         && claim < |s.claims| && s.claims[claim].status == PENDING && s.claims[claim].registration == r
       case _ => false
  }

  ghost predicate IsWinner(sessions: seq<Session>, sid: nat, r: nat) {
    sid < |sessions| && r < |sessions[sid].registrations| && sessions[sid].registrations[r].isWinner
  }

  ghost predicate NoNewWinners(s: Session, s': Session) {
    forall r | 0 <= r < |s'.registrations| && s'.registrations[r].isWinner ::
      r < |s.registrations| && s.registrations[r].isWinner
  }

  ghost predicate NobodyWins(st: State, st': State) {
    && |st.sessions| <= |st'.sessions|
    && (forall i | 0 <= i < |st.sessions| :: NoNewWinners(st.sessions[i], st'.sessions[i]))
    && (forall i | |st.sessions| <= i < |st'.sessions| :: st'.sessions[i].registrations == [])
  }

  /** Besides, no hold changes. */
  ghost predicate Calm(st: State, st': State) {
    NobodyWins(st, st') && HoldsKept(st, st')
  }

  ghost predicate HoldsKept(st: State, st': State) {
    && |st.sessions| <= |st'.sessions|
    && forall i | 0 <= i < |st.sessions| :: st'.sessions[i].holds == st.sessions[i].holds
  }

  // ---- Events that make nobody a winner ----

  lemma {:induction false} OneSession(st: State, st': State, sid: nat)
    requires sid < |st.sessions| && |st'.sessions| == |st.sessions|
    requires st'.sessions == st.sessions[sid := st'.sessions[sid]]
    requires NoNewWinners(st.sessions[sid], st'.sessions[sid])
    ensures NobodyWins(st, st')
  {
  }

  lemma {:induction false} OneCalmSession(st: State, st': State, sid: nat)
    requires sid < |st.sessions| && |st'.sessions| == |st.sessions|
    requires st'.sessions == st.sessions[sid := st'.sessions[sid]]
    requires NoNewWinners(st.sessions[sid], st'.sessions[sid]) && st'.sessions[sid].holds == st.sessions[sid].holds
    ensures Calm(st, st')
  {
  }

  lemma {:induction false} TryCalm(st: State, st': State, sid: nat, result: Option<Session>)
    requires sid < |st.sessions|
    requires st'.sessions == (if result.Some? then st.sessions[sid := result.value] else st.sessions)
    requires result.Some? ==>
        NoNewWinners(st.sessions[sid], result.value) && result.value.holds == st.sessions[sid].holds
    ensures Calm(st, st')
  {
  }

  predicate IsHoldEvent(e: Event) {
    e.SampleReserve? || e.Reserve? || e.SampleReserveBulk? || e.ReserveBulk? || e.ReleaseHold? || e.FindDueHolds?
      || e.ExpireHolds?
  }

  lemma {:induction false} HoldsMakeNobody(st: State, e: Event)
    requires References(st) && Addressed(st, e)
    requires IsHoldEvent(e)
    ensures NobodyWins(st, Apply(st, e))
  {
    HoldsShape(st, e);
    OneSession(st, Apply(st, e), e.sid);
  }

  lemma {:induction false} CallsMakeNobody(st: State, e: Event)
    requires References(st) && Addressed(st, e) && (e.CallBall? || e.PickNumber? || e.DrawPicked?)
    ensures Calm(st, Apply(st, e))
  {
    if e.CallBall? {
      assert Apply(st, e) == CallBallNow(st, e.sid, e.ball);
      TryCalm(st, CallBallNow(st, e.sid, e.ball), e.sid, CallNumber(st.sessions[e.sid], e.ball, st.now));
    } else if e.PickNumber? {
      assert Apply(st, e) == PickNow(st, e.sid, e.number);
      TryCalm(st, PickNow(st, e.sid, e.number), e.sid, None);
    } else {
      assert Apply(st, e) == RunDrawTask(st, e.sid, e.number, e.isLastNumber);
      DrawMakesNobody(st, e.sid, e.number, e.isLastNumber);
    }
  }

  lemma {:induction false} DrawMakesNobody(st: State, sid: nat, number: int, isLastNumber: bool)
    requires References(st) && sid < |st.sessions|
    ensures Calm(st, RunDrawTask(st, sid, number, isLastNumber))
  {
    TryCalm(st, RunDrawTask(st, sid, number, isLastNumber), sid,
            if DrawTask(sid, number, isLastNumber) in st.tasks then CommitDraw(st.sessions[sid], number, st.now)
                else None);
  }

  lemma {:induction false} TimersMakeNobody(st: State, e: Event)
    requires References(st) && Addressed(st, e) && (e.BeginGrace? || e.CloseEarly? || e.Reschedule?)
    ensures Calm(st, Apply(st, e))
  {
    OneCalmSession(st, Apply(st, e), e.sid);
  }

  lemma {:induction false} SlotsMakeNobody(st: State, e: Event)
    requires References(st) && Addressed(st, e)
    requires e.Tick? || e.CheckFee? || e.UpdateFee? || e.SwitchMode? || e.ReorderQueue?
    ensures Calm(st, Apply(st, e))
  {
    if !e.UpdateFee? {
      SlotShape(st, e);
    }
  }

  lemma {:induction false} OpeningMakesNobody(st: State, e: Event)
    requires References(st) && Addressed(st, e)
    requires e.CreateSlot? || e.FirstRegistration? || e.OpenRegistration? || e.Start?
    ensures Calm(st, Apply(st, e))
  {
    if e.CreateSlot? {
      assert Apply(st, e) == Try(st, CreateGameSlot(st, e.request));
    } else if e.FirstRegistration? {
      assert Apply(st, e) == Try(st, CreateForFirstRegistration(st, e.slotId));
    } else if e.OpenRegistration? {
      OpenerMakesNobody(st, e.options, e.recentlyFinished, e.durationMs);
    } else {
      StartMakesNobody(st, e.slotId, e.config);
    }
  }

  lemma {:induction false} StartMakesNobody(st: State, slotId: nat, config: StartConfig)
    requires slotId < |st.slots|
    ensures Calm(st, Try(st, StartGame(st, slotId, config)))
  {
  }

  lemma {:induction false} OpenerMakesNobody(st: State, options: OpenerOptions, recentlyFinished: bool, durationMs: int)
    ensures Calm(st, OpenNext(st, options, recentlyFinished, durationMs))
  {
    if OpenerProofs.MayOpen(st, options, recentlyFinished) {
      if HeadReady(st.slots, st.sessions).Some? {
        OpenerProofs.RunWithHead(st, options, recentlyFinished, durationMs);
      } else {
        OpenerProofs.RunWithoutHead(st, options, recentlyFinished, durationMs);
      }
    }
  }

  lemma {:induction false} RegisterMakesNobody(st: State, sid: nat, user: nat, cartelaId: nat, limitBigGames: bool)
    requires References(st) && sid < |st.sessions| && user < |st.books.wallets|
    ensures NobodyWins(st, RegisterOne(st, sid, user, cartelaId, limitBigGames).0)
  {
    RegisterShape(st, sid, user, cartelaId, limitBigGames);
  }

  lemma {:induction false} RegisterAllMakesNobody(st: State, sid: nat, user: nat, ids: seq<nat>, limitBigGames: bool)
    requires References(st) && sid < |st.sessions| && user < |st.books.wallets|
    ensures NobodyWins(st, RegisterAll(st, sid, user, ids, limitBigGames))
  {
    if ids != [] {
      var before := RegisterAll(st, sid, user, ids[..|ids| - 1], limitBigGames);
      RegisterAllMakesNobody(st, sid, user, ids[..|ids| - 1], limitBigGames);
      RegisterMakesNobody(before, sid, user, ids[|ids| - 1], limitBigGames);
      NobodyTwice(st, before, RegisterAll(st, sid, user, ids, limitBigGames));
    }
  }

  lemma {:induction false} NobodyTwice(a: State, b: State, c: State)
    requires NobodyWins(a, b) && NobodyWins(b, c) && |b.sessions| == |a.sessions|
    ensures NobodyWins(a, c)
  {
    forall i | 0 <= i < |a.sessions|
      ensures NoNewWinners(a.sessions[i], c.sessions[i])
    {
      assert NoNewWinners(a.sessions[i], b.sessions[i]) && NoNewWinners(b.sessions[i], c.sessions[i]);
    }
  }

  lemma {:induction false} RegistrationMakesNobody(st: State, e: Event)
    requires References(st) && Addressed(st, e) && (e.Register? || e.RegisterChunk? || e.Confirm?)
    ensures NobodyWins(st, Apply(st, e))
  {
    if e.Register? {
      RegisterMakesNobody(st, e.sid, e.user, e.cartelaId, true);
    } else if e.RegisterChunk? {
      RegisterAllMakesNobody(st, e.sid, e.user, e.cartelaIds, false);
    } else {
      ConfirmMakesNobody(st, e.sid, e.hold, e.user);
    }
  }

  lemma {:induction false} ConfirmMakesNobody(st: State, sid: nat, hold: nat, user: nat)
    requires References(st) && sid < |st.sessions| && user < |st.books.wallets|
    ensures NobodyWins(st, Registering.ConfirmReservation(st, sid, hold, user).0)
  {
    ConfirmShape(st, sid, hold, user);
  }

  lemma {:induction false} RejectMakesNobody(st: State, sid: nat, claim: nat)
    requires References(st) && sid < |st.sessions|
    ensures Calm(st, RejectNow(st, sid, claim))
  {
    OneCalmSession(st, RejectNow(st, sid, claim), sid);
  }

  lemma {:induction false} FinalizeMakesNobody(st: State, sid: nat, graceMs: int, clock: int)
    requires References(st) && sid < |st.sessions| && FinalizeNow(st, sid, graceMs, clock).Some?
    ensures Calm(st, FinalizeNow(st, sid, graceMs, clock).value)
  {
    OneCalmSession(st, FinalizeNow(st, sid, graceMs, clock).value, sid);
  }

  lemma {:induction false} NoWinnerMakesNobody(st: State, sid: nat)
    requires References(st) && sid < |st.sessions| && EndWithoutWinnerNow(st, sid).Some?
    ensures Calm(st, EndWithoutWinnerNow(st, sid).value)
  {
    OneCalmSession(st, EndWithoutWinnerNow(st, sid).value, sid);
  }

  lemma {:induction false} CancelMakesNobody(st: State, sid: nat, requeueSlot: bool, abortIfPlayers: bool)
    requires References(st) && sid < |st.sessions| && CancelSession(st, sid, requeueSlot, abortIfPlayers).Some?
    ensures Calm(st, CancelSession(st, sid, requeueSlot, abortIfPlayers).value)
  {
    OneCalmSession(st, CancelSession(st, sid, requeueSlot, abortIfPlayers).value, sid);
  }

  lemma {:induction false} ThenOpenMakesNobody(st: State, ended: Option<State>, deferred: bool, opener: Option<int>)
    requires ended.Some? ==> Calm(st, ended.value) && |ended.value.sessions| == |st.sessions|
    ensures Calm(st, ThenOpen(st, ended, deferred, opener))
  {
    if ended.Some? && opener.Some? {
      OpenerMakesNobody(ended.value, OpenerOptions(true, deferred), false, opener.value);
      NobodyTwice(st, ended.value, ThenOpen(st, ended, deferred, opener));
    }
  }

  lemma {:induction false} WindowThenOpenMakesNobody(st: State, sid: nat, graceMs: int, clock: int, opener: Option<int>)
    requires References(st) && sid < |st.sessions|
    ensures Calm(st, ThenOpen(st, FinalizeNow(st, sid, graceMs, clock), false, opener))
  {
    if FinalizeNow(st, sid, graceMs, clock).Some? {
      FinalizeMakesNobody(st, sid, graceMs, clock);
    }
    ThenOpenMakesNobody(st, FinalizeNow(st, sid, graceMs, clock), false, opener);
  }

  lemma {:induction false} NoWinnerThenOpenMakesNobody(st: State, sid: nat, opener: Option<int>)
    requires References(st) && sid < |st.sessions|
    ensures Calm(st, ThenOpen(st, EndWithoutWinnerNow(st, sid), false, opener))
  {
    if EndWithoutWinnerNow(st, sid).Some? {
      NoWinnerMakesNobody(st, sid);
    }
    ThenOpenMakesNobody(st, EndWithoutWinnerNow(st, sid), false, opener);
  }

  lemma {:induction false} CancelThenOpenMakesNobody(st: State, sid: nat, requeueSlot: bool, abortIfPlayers: bool,
                                                     opener: Option<int>)
    requires References(st) && sid < |st.sessions|
    ensures Calm(st, ThenOpen(st, CancelSession(st, sid, requeueSlot, abortIfPlayers), true, opener))
  {
    if CancelSession(st, sid, requeueSlot, abortIfPlayers).Some? {
      CancelMakesNobody(st, sid, requeueSlot, abortIfPlayers);
    }
    ThenOpenMakesNobody(st, CancelSession(st, sid, requeueSlot, abortIfPlayers), true, opener);
  }

  lemma {:induction false} EndsMakeNobody(st: State, e: Event)
    requires References(st) && Addressed(st, e) && (e.FinalizeWindow? || e.EndWithoutWinner? || e.Cancel?)
    ensures Calm(st, Apply(st, e))
  {
    if e.FinalizeWindow? {
      assert Apply(st, e) == ThenOpen(st, FinalizeNow(st, e.sid, e.graceMs, e.clock), false, e.opener);
      WindowThenOpenMakesNobody(st, e.sid, e.graceMs, e.clock, e.opener);
    } else if e.EndWithoutWinner? {
      assert Apply(st, e) == ThenOpen(st, EndWithoutWinnerNow(st, e.sid), false, e.opener);
      NoWinnerThenOpenMakesNobody(st, e.sid, e.opener);
    } else {
      var opener := if e.requeueSlot then e.opener else None;
      assert Apply(st, e) == ThenOpen(st, CancelSession(st, e.sid, e.requeueSlot, e.abortIfPlayers), true, opener);
      CancelThenOpenMakesNobody(st, e.sid, e.requeueSlot, e.abortIfPlayers, opener);
    }
  }

  // ---- Events that can ----

  lemma {:induction false} ClaimMakesOnly(s: Session, manualRule: bool, user: nat, r: nat, verdict: Verdict, now: int,
                                          windowMs: int, graceMs: int, k: nat)
    requires k < |s.registrations| && (s.registrations[k].isWinner <==> s.registrations[k].status == WINNER)
    ensures var result := ClaimBingo(s, manualRule, user, r, verdict, now, windowMs, graceMs);
      var won := result.Some? && k < |result.value.registrations| && result.value.registrations[k].isWinner;
      && (result.Some? ==> |result.value.registrations| == |s.registrations|)
      && (s.registrations[k].isWinner && result.Some? ==> won)
      && (!s.registrations[k].isWinner ==>
            (won <==> k == r && s.registrations[r].userId == user && s.registrations[r].status == REGISTERED
                      && verdict == WINNING && !manualRule
                      && (s.status == PLAYING
                          || (s.status == WINNER_WINDOW && s.winnerWindowEndsAt.Some?
                              && now <= s.winnerWindowEndsAt.value + graceMs))))
  {
  }

  /** A claim makes its cartela a winner exactly when it is earned, and no other. */
  lemma {:induction false} ClaimWinsIff(st: State, e: Event, sid: nat, r: nat)
    requires Safe(st) && References(st) && Addressed(st, e) && e.SubmitClaim?
    requires sid < |st.sessions| && r < |st.sessions[sid].registrations| && !st.sessions[sid].registrations[r].isWinner
    ensures IsWinner(Apply(st, e).sessions, sid, r) <==> Earned(st, e, sid, r)
  {
    var s := st.sessions[sid];
    if e.sid == sid {
      ClaimMakesOnly(s, st.slots[s.slotId].manualRule, e.user, e.registration, e.verdict, st.now, e.windowMs,
                     e.graceMs, r);
    }
  }

  lemma {:induction false} ApprovalMakesOnly(st: State, sid: nat, c: nat, checkedAt: int, k: nat, r: nat)
    requires Safe(st) && References(st) && sid < |st.sessions| && k < |st.sessions|
    requires r < |st.sessions[k].registrations|
    requires ApproveClaim(st, sid, c, checkedAt).Some?
    requires !st.sessions[k].registrations[r].isWinner
    requires IsWinner(ApproveClaim(st, sid, c, checkedAt).value.sessions, k, r)
    ensures Earned(st, Approve(sid, c, checkedAt, None), k, r)
  {
    ApproveShape(st, sid, c, checkedAt);
    PendingMeansChecking(st.sessions[sid], c);
  }

  // ---- Every run ----

  lemma {:induction false} OnlyClaimsMakeWinners(st: State, e: Event)
    requires References(st) && Addressed(st, e) && !e.SubmitClaim? && !e.Approve?
    ensures NobodyWins(st, Apply(st, e))
  {
    if IsHoldEvent(e) {
      HoldsMakeNobody(st, e);
    } else if e.Register? || e.RegisterChunk? || e.Confirm? {
      RegistrationMakesNobody(st, e);
    } else if e.Reject? {
      RejectMakesNobody(st, e.sid, e.claim);
    } else if e.FinalizeWindow? || e.EndWithoutWinner? || e.Cancel? {
      EndsMakeNobody(st, e);
    } else if e.CreateSlot? || e.FirstRegistration? || e.OpenRegistration? || e.Start? {
      OpeningMakesNobody(st, e);
    } else if e.CallBall? || e.PickNumber? || e.DrawPicked? {
      CallsMakeNobody(st, e);
    } else if e.BeginGrace? || e.CloseEarly? || e.Reschedule? {
      TimersMakeNobody(st, e);
    } else {
      SlotsMakeNobody(st, e);
    }
  }

  /** In every run, the event that makes a cartela a winner has earned it: its owner claimed a winning
      board while the round was playing or its window (with grace) was open, or its pending claim was
      approved by hand. */
  lemma {:induction false} WinnersAreEarned(start: State, events: seq<Event>, e: Event, sid: nat, r: nat)
    requires Initial(start)
    requires IsWinner(After(start, events + [e]).sessions, sid, r) && !IsWinner(After(start, events).sessions, sid, r)
    ensures References(After(start, events)) && sid < |After(start, events).sessions|
    ensures r < |After(start, events).sessions[sid].registrations| && Earned(After(start, events), e, sid, r)
  {
    EveryRunIsSafe(start, events);
    assert (events + [e])[..|events|] == events;
    WinnerIsEarned(After(start, events), e, sid, r);
  }

  lemma {:induction false} WinnerIsEarned(st: State, e: Event, sid: nat, r: nat)
    requires Safe(st) && References(st)
    requires IsWinner(Happen(st, e).sessions, sid, r) && !IsWinner(st.sessions, sid, r)
    ensures sid < |st.sessions| && r < |st.sessions[sid].registrations| && Earned(st, e, sid, r)
  {
    if !e.SubmitClaim? && !e.Approve? {
      OnlyClaimsMakeWinners(st, e);
    } else if e.SubmitClaim? {
      ClaimedWinIsEarned(st, e, sid, r);
    } else {
      ApprovedWinIsEarned(st, e.sid, e.claim, e.checkedAt, e.opener, sid, r);
    }
  }

  lemma {:induction false} ClaimedWinIsEarned(st: State, e: Event, sid: nat, r: nat)
    requires Safe(st) && References(st) && Addressed(st, e) && e.SubmitClaim?
    requires IsWinner(Apply(st, e).sessions, sid, r) && !IsWinner(st.sessions, sid, r)
    ensures sid < |st.sessions| && r < |st.sessions[sid].registrations| && Earned(st, e, sid, r)
  {
    ClaimKeepsRows(st, e.sid, e.user, e.registration, e.verdict, e.windowMs, e.graceMs);
    ClaimWinsIff(st, e, sid, r);
  }

  lemma {:induction false} ApprovedWinIsEarned(st: State, session: nat, claim: nat, checkedAt: int,
                                               opener: Option<int>, sid: nat, r: nat)
    requires Safe(st) && References(st) && session < |st.sessions|
    requires IsWinner(ThenOpen(st, ApproveClaim(st, session, claim, checkedAt), false, opener).sessions, sid, r)
    requires !IsWinner(st.sessions, sid, r)
    ensures sid < |st.sessions| && r < |st.sessions[sid].registrations|
    ensures Earned(st, Approve(session, claim, checkedAt, opener), sid, r)
  {
    var approved := ApproveClaim(st, session, claim, checkedAt);
    if approved.Some? && opener.Some? {
      OpenerMakesNobody(approved.value, OpenerOptions(true, false), false, opener.value);
    }
    ApprovalKeepsRows(st, session, claim, checkedAt);
    ApprovalMakesOnly(st, session, claim, checkedAt, sid, r);
  }

  ghost predicate SameRowCounts(st: State, st': State) {
    |st'.sessions| == |st.sessions|
    && forall i | 0 <= i < |st.sessions| :: |st'.sessions[i].registrations| == |st.sessions[i].registrations|
  }

  lemma {:induction false} ClaimKeepsRows(st: State, sid: nat, user: nat, r: nat, verdict: Verdict, windowMs: int,
                                          graceMs: int)
    requires References(st) && sid < |st.sessions|
    ensures SameRowCounts(st, ClaimNow(st, sid, user, r, verdict, windowMs, graceMs))
  {
  }

  lemma {:induction false} ApprovalKeepsRows(st: State, sid: nat, c: nat, checkedAt: int)
    requires References(st) && sid < |st.sessions| && ApproveClaim(st, sid, c, checkedAt).Some?
    ensures SameRowCounts(st, ApproveClaim(st, sid, c, checkedAt).value)
  {
    ApproveShape(st, sid, c, checkedAt);
  }
}
