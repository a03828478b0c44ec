/** Every transaction on a session keeps what one session must satisfy. */
module SessionSteps {
  import opened Common
  import opened Games
  import opened Registering
  import opened WinningBalls
  import opened Rounds
  import opened Opening
  import opened Platform
  import opened Invariants

  /** What an event may do to the status, for the rules between sessions. */
  ghost predicate StatusQuiet(s: Session, s': Session) {
    (IsLive(s'.status) ==> IsLive(s.status)) && (IsOpen(s'.status) ==> IsOpen(s.status))
  }

  ghost predicate StepOk(s: Session, s': Session, kind: SlotKind, now: int) {
    SessionOk(s', kind, now) && SessionGrows(s, s') && StatusQuiet(s, s')
  }

  // ---- Time ----

  lemma {:induction false} TimePasses(s: Session, kind: SlotKind, now: int, later: int)
    requires SessionOk(s, kind, now) && now <= later
    ensures SessionOk(s, kind, later)
  {
    assert forall i | 0 <= i < |s.holds| && IsCurrent(s.holds[i], later) :: IsCurrent(s.holds[i], now);
  }

  // ---- Holds ----

  /** Holds that only leave the ACTIVE status. */
  lemma {:induction false} HoldsEnd(s: Session, holds: seq<Hold>, kind: SlotKind, now: int)
    requires SessionOk(s, kind, now) && |holds| == |s.holds|
    requires forall i | 0 <= i < |holds| ::
      holds[i] == s.holds[i]
        || (holds[i].status in {EXPIRED, RELEASED} && holds[i] == s.holds[i].(status := holds[i].status))
    ensures StepOk(s, WithHolds(s, holds), kind, now)
  {
  }

  /** A hold placed with whatever clock the request sampled. */
  lemma {:induction false} PlacedHold(s: Session, cartelaId: nat, user: nat, kind: SlotKind, now: int, clock: int,
                                      expiresAt: int)
    requires SessionOk(s, kind, now) && PlaceHold(s.holds, cartelaId, user, clock, expiresAt).Some?
    requires forall r | 0 <= r < |s.registrations| :: s.registrations[r].cartelaId != cartelaId
    ensures StepOk(s, WithHolds(s, PlaceHold(s.holds, cartelaId, user, clock, expiresAt).value), kind, now)
  {
  }

  // ---- Registration ----

  lemma {:induction false} Seated(s: Session, user: nat, cartelaId: nat, plan: Accounting, hold: Option<nat>,
                                  kind: SlotKind, now: int)
    requires SessionOk(s, kind, now) && (s.status == READY || s.status == PLAYING)
    requires FindRegistration(s.registrations, cartelaId).None?
    requires plan.source == NoPayment <==> kind.category.BONUS?
    requires plan.source == BonusCartela ==> kind.category.NORMAL?
    requires hold.Some? ==> hold.value < |s.holds| && IsCurrent(s.holds[hold.value], now)
    requires forall i | 0 <= i < |s.holds| && s.holds[i].cartelaId == cartelaId && IsCurrent(s.holds[i], now) ::
        hold == Some(i)
    ensures StepOk(s, AddToPot(ConfirmHold(Seat(s, user, cartelaId, plan), hold), kind.category, 1), kind, now)
  {
    var s' := AddToPot(ConfirmHold(Seat(s, user, cartelaId, plan), hold), kind.category, 1);
    assert s'.registrations[..|s.registrations|] == s.registrations;
    SeatedHolds(s, s', cartelaId, hold, now);
    SeatedPrices(s, user, cartelaId, plan, hold, kind);
    SeatedRows(s, s', cartelaId);
  }

  lemma {:induction false} SeatedRows(s: Session, s': Session, cartelaId: nat)
    requires RegistrationsOk(s) && (s.status == READY || s.status == PLAYING) && s'.status == s.status
    requires WindowOk(s) && FindRegistration(s.registrations, cartelaId).None?
    requires |s'.registrations| == |s.registrations| + 1 && s'.registrations[..|s.registrations|] == s.registrations
    requires var last := s'.registrations[|s.registrations|];
      last.cartelaId == cartelaId && last.status == REGISTERED && !last.isWinner
    ensures RegistrationsOk(s') && !HasWinner(s'.registrations)
  {
    assert forall i | 0 <= i < |s.registrations| :: s'.registrations[i] == s'.registrations[..|s.registrations|][i];
  }

  lemma {:induction false} SeatedPrices(s: Session, user: nat, cartelaId: nat, plan: Accounting, hold: Option<nat>,
                                        kind: SlotKind)
    requires PricesOk(s, kind)
    requires plan.source == NoPayment <==> kind.category.BONUS?
    requires plan.source == BonusCartela ==> kind.category.NORMAL?
    ensures PricesOk(AddToPot(ConfirmHold(Seat(s, user, cartelaId, plan), hold), kind.category, 1), kind)
  {
    Distribute(s.prizePerCartela, |s.registrations|, 1);
  }

  lemma {:induction false} SeatedHolds(s: Session, s': Session, cartelaId: nat, hold: Option<nat>, now: int)
    requires HoldsOk(s, now)
    requires hold.Some? ==> hold.value < |s.holds| && IsCurrent(s.holds[hold.value], now)
    requires forall i | 0 <= i < |s.holds| && s.holds[i].cartelaId == cartelaId && IsCurrent(s.holds[i], now) ::
        hold == Some(i)
    requires s'.holds
        == if hold.Some? then s.holds[hold.value := s.holds[hold.value].(status := CONFIRMED)] else s.holds
    requires |s'.registrations| == |s.registrations| + 1 && s'.registrations[|s.registrations|].cartelaId == cartelaId
    requires s'.registrations[..|s.registrations|] == s.registrations
    ensures HoldsOk(s', now)
  {
    forall i, r | 0 <= i < |s'.holds| && IsCurrent(s'.holds[i], now) && 0 <= r < |s'.registrations|
      ensures s'.holds[i].cartelaId != s'.registrations[r].cartelaId
    {
      if r < |s.registrations| {
        assert s'.registrations[r] == s'.registrations[..|s.registrations|][r];
      }
    }
  }

  // ---- Draws ----

  lemma {:induction false} OrdersAreCounts(calls: seq<Call>, now: int)
    requires CallsOk(calls, now)
    ensures LatestOrder(calls) == |calls| && !OrderTaken(calls, |calls| + 1)
  {
    if calls != [] {
      var front := calls[..|calls| - 1];
      assert forall i | 0 <= i < |front| :: front[i] == calls[i];
      OrdersAreCounts(front, now);
    }
  }

  lemma {:induction false} Called(s: Session, ball: Ball, kind: SlotKind, now: int)
    requires SessionOk(s, kind, now) && s.status == PLAYING
    requires 1 <= ball.number <= ALL_NUMBERS && !IsCalled(s.calls, ball.number)
    ensures StepOk(s, s.(calls := s.calls + [Call(ball, |s.calls| + 1, now)]), kind, now)
  {
  }

  lemma {:induction false} CallNumberOk(s: Session, ball: Ball, kind: SlotKind, now: int)
    requires SessionOk(s, kind, now) && CallNumber(s, ball, now).Some?
    ensures StepOk(s, CallNumber(s, ball, now).value, kind, now)
  {
    OrdersAreCounts(s.calls, now);
    Called(s, ball, kind, now);
  }

  lemma {:induction false} CommitDrawOk(s: Session, number: int, kind: SlotKind, now: int)
    requires SessionOk(s, kind, now) && 1 <= number <= ALL_NUMBERS && CommitDraw(s, number, now).Some?
    ensures StepOk(s, CommitDraw(s, number, now).value, kind, now)
  {
    Called(s, Ball(LetterForNumber(number), number), kind, now);
  }

  lemma {:induction false} GraceStarted(s: Session, kind: SlotKind, now: int, graceMs: int)
    requires SessionOk(s, kind, now) && |s.calls| >= ALL_NUMBERS
    ensures StepOk(s, StartNoWinnerGrace(s, now, graceMs), kind, now)
  {
  }

  // ---- Claims ----

  /** Adding a claim that is neither pending nor valid. */
  lemma {:induction false} InvalidClaimAdded(s: Session, claim: Claim, kind: SlotKind, now: int)
    requires SessionOk(s, kind, now) && claim.status == INVALID
    ensures StepOk(s, s.(claims := s.claims + [claim]), kind, now)
  {
    var s' := s.(claims := s.claims + [claim]);
    if s.status == CHECKING {
      var i :| 0 <= i < |s.claims| && s.claims[i].status == PENDING && s.claims[i].registration < |s.registrations|
        && s.registrations[s.claims[i].registration].status == REGISTERED;
      assert s'.claims[i] == s.claims[i];
    }
  }

  lemma {:induction false} AlreadyResolvedOk(s: Session, r: nat, kind: SlotKind, now: int)
    requires SessionOk(s, kind, now) && r < |s.registrations|
    ensures StepOk(s, AlreadyResolvedClaim(s, r, now), kind, now)
  {
    InvalidClaimAdded(s, Claim(r, INVALID, now, Some(now), None), kind, now);
  }

  lemma {:induction false} ManualPendingOk(s: Session, r: nat, kind: SlotKind, now: int)
    requires SessionOk(s, kind, now) && r < |s.registrations| && ManualPendingClaim(s, r, now).Some?
    ensures StepOk(s, ManualPendingClaim(s, r, now).value, kind, now)
  {
    var s' := ManualPendingClaim(s, r, now).value;
    assert s'.claims[|s.claims|] == Claim(r, PENDING, now, None, None);
  }

  /** Blocking a registered cartela of a session that is not reviewing it. */
  lemma {:induction false} Blocked(s: Session, r: nat, kind: SlotKind, now: int)
    requires SessionOk(s, kind, now) && r < |s.registrations| && s.registrations[r].status == REGISTERED
    requires s.status == PLAYING || s.status == WINNER_WINDOW
    ensures StepOk(s, s.(registrations := s.registrations[r := s.registrations[r].(status := BLOCKED)]), kind, now)
  {
    var s' := s.(registrations := s.registrations[r := s.registrations[r].(status := BLOCKED)]);
    WinnersKept(s.registrations, s'.registrations);
  }

  /** Registrations that change no winner. */
  lemma {:induction false} WinnersKept(a: seq<Registration>, b: seq<Registration>)
    requires |a| == |b| && forall i | 0 <= i < |a| :: a[i].status == WINNER <==> b[i].status == WINNER
    ensures HasWinner(a) <==> HasWinner(b)
  {
    if HasWinner(a) {
      var i :| 0 <= i < |a| && a[i].status == WINNER;
      assert b[i].status == WINNER;
    }
  }

  lemma {:induction false} BlockWithClaimOk(s: Session, r: nat, kind: SlotKind, now: int)
    requires SessionOk(s, kind, now) && r < |s.registrations| && s.registrations[r].status == REGISTERED
    requires s.status == PLAYING || s.status == WINNER_WINDOW
    ensures StepOk(s, BlockWithClaim(s, r, now), kind, now)
  {
    Blocked(s, r, kind, now);
    var blocked := s.(registrations := s.registrations[r := s.registrations[r].(status := BLOCKED)]);
    InvalidClaimAdded(blocked, Claim(r, INVALID, now, Some(now), SnapshotBall(s.calls)), kind, now);
  }

  /** Winning, from an open window or by opening it. */
  lemma {:induction false} WinOk(s: Session, r: nat, endsAt: Option<int>, kind: SlotKind, now: int)
    requires SessionOk(s, kind, now) && r < |s.registrations| && s.registrations[r].status == REGISTERED
    requires s.status == PLAYING || s.status == WINNER_WINDOW
    requires endsAt.Some? && !kind.manualRule
    ensures StepOk(s,
                   WinWithClaim(s.(status := WINNER_WINDOW, winnerWindowEndsAt := endsAt, noWinnerGraceEndsAt := None),
                                r, now),
                   kind, now)
  {
    var s' :=
      WinWithClaim(s.(status := WINNER_WINDOW, winnerWindowEndsAt := endsAt, noWinnerGraceEndsAt := None), r, now);
    assert s'.registrations[r].status == WINNER;
    assert forall i | 0 <= i < |s.claims| :: s'.claims[i] == s.claims[i];
  }

  lemma {:induction false} ClaimOk(s: Session, user: nat, r: nat, verdict: Verdict, kind: SlotKind, now: int,
                                   windowMs: int, graceMs: int)
    requires SessionOk(s, kind, now)
    requires ClaimBingo(s, kind.manualRule, user, r, verdict, now, windowMs, graceMs).Some?
    ensures StepOk(s, ClaimBingo(s, kind.manualRule, user, r, verdict, now, windowMs, graceMs).value, kind, now)
  {
    if Resolved(s.registrations[r]) {
      AlreadyResolvedOk(s, r, kind, now);
    } else if kind.manualRule {
      ManualPendingOk(s, r, kind, now);
    } else if !verdict.WINNING? {
      BlockWithClaimOk(s, r, kind, now);
    } else if s.status == WINNER_WINDOW {
      JoinOk(s, r, kind, now, graceMs);
    } else {
      WinOk(s, r, Some(now + windowMs), kind, now);
    }
  }

  lemma {:induction false} JoinOk(s: Session, r: nat, kind: SlotKind, now: int, graceMs: int)
    requires SessionOk(s, kind, now) && r < |s.registrations| && s.status == WINNER_WINDOW && !kind.manualRule
    requires JoinWindow(s, r, now, graceMs).Some?
    ensures StepOk(s, JoinWindow(s, r, now, graceMs).value, kind, now)
  {
    var s' := JoinWindow(s, r, now, graceMs).value;
    assert s'.registrations[r].status == WINNER;
    assert forall i | 0 <= i < |s.claims| :: s'.claims[i] == s.claims[i];
  }

  // ---- Ends ----

  lemma {:induction false} WinnersNonEmpty(s: Session)
    requires RegistrationsOk(s) && HasWinner(s.registrations)
    ensures Winners(s) != []
  {
    var r :| 0 <= r < |s.registrations| && s.registrations[r].status == WINNER;
    assert r in Winners(s);
  }

  lemma {:induction false} WindowFinished(s: Session, winner: nat, kind: SlotKind, now: int)
    requires SessionOk(s, kind, now) && s.status == WINNER_WINDOW
    ensures StepOk(s, s.(status := FINISHED, prizeFinalizedAt := Some(now), winnerRegistration := Some(winner),
                         noWinnerGraceEndsAt := None), kind, now)
  {
  }

  lemma {:induction false} ClosedEarly(s: Session, kind: SlotKind, now: int)
    requires SessionOk(s, kind, now)
    ensures StepOk(s, CloseWindowEarly(s, now), kind, now)
  {
  }

  /** A claim that is PENDING on a REGISTERED cartela belongs to a session that is CHECKING. */
  lemma {:induction false} PendingMeansChecking(s: Session, c: nat)
    requires RegistrationsOk(s) && PendingOk(s)
    requires c < |s.claims| && s.claims[c].status == PENDING
    requires s.claims[c].registration < |s.registrations|
          && s.registrations[s.claims[c].registration].status == REGISTERED
    ensures s.status == CHECKING
  {
  }

  lemma {:induction false} Approved(s: Session, c: nat, kind: SlotKind, now: int, checkedAt: int)
    requires SessionOk(s, kind, now) && kind.manualRule
    requires c < |s.claims| && s.claims[c].status == PENDING && s.claims[c].registration < |s.registrations|
    requires s.registrations[s.claims[c].registration].status == REGISTERED
    requires s.claims[c].createdAt <= checkedAt <= now
    ensures s.status == CHECKING
    ensures var r := s.claims[c].registration;
      var claim := s.claims[c].(status := VALID, checkedAt := Some(checkedAt));
      StepOk(s, MarkWinner(s, r).(status := FINISHED, winnerRegistration := Some(r), noWinnerGraceEndsAt := None,
                                  claims := s.claims[c := claim]), kind, now)
  {
    PendingMeansChecking(s, c);
    var r := s.claims[c].registration;
    var s' := MarkWinner(s, r).(status := FINISHED, winnerRegistration := Some(r), noWinnerGraceEndsAt := None,
                                claims := s.claims[c := s.claims[c].(status := VALID, checkedAt := Some(checkedAt))]);
    assert s'.registrations[r].status == WINNER;
  }

  lemma {:induction false} Rejected(s: Session, c: nat, kind: SlotKind, now: int)
    requires SessionOk(s, kind, now) && RejectClaim(s, kind.manualRule, c, now).Some?
    ensures s.status == CHECKING && StepOk(s, RejectClaim(s, kind.manualRule, c, now).value, kind, now)
  {
    PendingMeansChecking(s, c);
    var s' := RejectClaim(s, kind.manualRule, c, now).value;
    WinnersKept(s.registrations, s'.registrations);
  }

  lemma {:induction false} EndedWithoutWinner(s: Session, kind: SlotKind, now: int)
    requires SessionOk(s, kind, now) && FinalizeNoWinner(s, now).Some?
    ensures StepOk(s, FinalizeNoWinner(s, now).value, kind, now)
  {
    var s' := FinalizeNoWinner(s, now).value;
    WinnersKept(s.registrations, s'.registrations);
  }

  lemma {:induction false} Cancelled(s: Session, kind: SlotKind, now: int)
    requires SessionOk(s, kind, now) && s.status in {READY, PLAYING, CHECKING}
    ensures StepOk(s, s.(status := CANCELLED, scheduledStartAt := None, registrations := VoidAll(s.registrations)),
                   kind, now)
  {
  }

  lemma {:induction false} Retired(s: Session, slots: seq<Slot>, isHead: bool, kind: SlotKind, now: int)
    requires SessionOk(s, kind, now)
    ensures StepOk(s, SoftRetire(slots, s, isHead), kind, now)
  {
    if s.registrations != [] && s.status == READY {
      assert s.registrations[0].status == REGISTERED;
    }
  }

  // ---- Before play ----

  lemma {:induction false} Started(s: Session, kind: SlotKind, now: int)
    requires SessionOk(s, kind, now) && s.status == READY
    ensures SessionOk(s.(status := PLAYING), kind, now)
  {
  }

  lemma {:induction false} Rescheduled(s: Session, opensAt: Option<int>, startsAt: Option<int>, kind: SlotKind,
                                       now: int)
    requires SessionOk(s, kind, now)
    ensures StepOk(s, s.(registrationOpensAt := opensAt, scheduledStartAt := startsAt), kind, now)
  {
  }

  lemma {:induction false} Repriced(s: Session, slotId: nat, entryFee: nat, kind: SlotKind, now: int)
    requires SessionOk(s, kind, now)
    requires s.slotId == slotId ==> !kind.category.BONUS? && entryFee > 0
    ensures StepOk(s, WithFee(s, slotId, entryFee, entryFee - kind.prizePerCartela), kind, now)
  {
  }
}
