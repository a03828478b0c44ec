/** What holds over whole runs of the system: any number of events, in any order, from any start. */
module Runs {
  import opened Common
  import opened Games
  import opened PrizeSplit
  import opened Registering
  import opened WinningBalls
  import opened Rounds
  import opened Platform
  import opened Invariants
  import opened SessionSteps
  import opened Safety
  import opened Accounts
  import opened AccountSteps

  /** An event that names rows which do not exist is refused and changes nothing. */
  ghost function Happen(st: State, e: Event): State {
    if References(st) && Addressed(st, e) then Apply(st, e) else st
  }

  ghost function After(start: State, events: seq<Event>): State {
    if events == [] then start else Happen(After(start, events[..|events| - 1]), events[|events| - 1])
  }

  /** No entry fee is changed under a registered cartela anywhere in the run: every fee update is committed
      while nobody is registered in the READY session, or leaves the fee as it was. */
  ghost predicate SteadyRun(start: State, events: seq<Event>) {
    events == [] || (SteadyRun(start, events[..|events| - 1])
                     && IsSteady(After(start, events[..|events| - 1]), events[|events| - 1]))
  }

  lemma {:induction false} OneMoreEvent(start: State, events: seq<Event>, e: Event)
    ensures After(start, events + [e]) == Happen(After(start, events), e)
    ensures SteadyRun(start, events + [e]) <==> SteadyRun(start, events) && IsSteady(After(start, events), e)
  {
    assert (events + [e])[..|events|] == events;
  }

  // ---- Invariants of every run ----

  lemma {:induction false} EveryRunIsSafe(start: State, events: seq<Event>)
    requires Initial(start)
    ensures Safe(After(start, events)) && References(After(start, events))
  {
    if events != [] {
      EveryRunIsSafe(start, events[..|events| - 1]);
      var before := After(start, events[..|events| - 1]);
      if Addressed(before, events[|events| - 1]) {
        EventIsGood(before, events[|events| - 1]);
      }
      SafeHasReferences(After(start, events));
    }
  }

  /** The accounts after every run; with `steady`, what steady runs keep besides. */
  lemma {:induction false} EveryRunIsSound(start: State, events: seq<Event>, steady: bool)
    requires Initial(start) && (steady ==> SteadyRun(start, events))
    ensures Sound(After(start, events), start.books.wallets, steady)
  {
    if events == [] {
      NothingAccounted(start, steady);
    } else {
      EveryRunIsSound(start, events[..|events| - 1], steady);
      EveryRunIsSafe(start, events[..|events| - 1]);
      var before := After(start, events[..|events| - 1]);
      if Addressed(before, events[|events| - 1]) {
        EventIsSound(before, events[|events| - 1], start.books.wallets, steady);
      }
    }
  }

  lemma {:induction false} NothingAccounted(start: State, steady: bool)
    requires Initial(start)
    ensures Sound(start, start.books.wallets, steady)
  {
    forall u | 0 <= u < |start.books.wallets|
      ensures Balances(start.sessions, start.books.ledger, u) == [] && BonusUses(start.sessions, u) == []
    {
    }
  }

  // ---- Statuses ----

  /** Every change of a session's status, in every run, is an edge of the transition table; sessions
      never disappear. */
  lemma {:induction false} StatusesFollowTheTable(start: State, events: seq<Event>, e: Event)
    requires Initial(start)
    ensures EdgesOnly(After(start, events), After(start, events + [e]))
    ensures forall i | 0 <= i < |After(start, events).sessions| ::
      SessionGrows(After(start, events).sessions[i], After(start, events + [e]).sessions[i])
  {
    EveryRunIsSafe(start, events);
    assert (events + [e])[..|events|] == events;
    var before := After(start, events);
    if Addressed(before, e) {
      EventIsGood(before, e);
    } else {
      NothingHappens(before);
    }
  }

  ghost predicate IsTerminal(status: GameStatus) {
    AllowedTransitions(status) == {}
  }

  /** A finished, winnerless or cancelled session stays so; and from the opening of the winner window on
      its balls, its cartelas and its pot no longer move. */
  lemma {:induction false} SettledStaysSettled(start: State, events: seq<Event>, more: seq<Event>, sid: nat)
    requires Initial(start) && sid < |After(start, events).sessions|
    ensures sid < |After(start, events + more).sessions|
    ensures var s, s' := After(start, events).sessions[sid], After(start, events + more).sessions[sid];
      && (IsTerminal(s.status) ==> s'.status == s.status)
      && (IsSettled(s.status) ==>
            && IsSettled(s'.status) && s'.calls == s.calls && |s'.registrations| == |s.registrations|
            && s'.prizeAmount == s.prizeAmount && s'.companyRevenue == s.companyRevenue && s'.entryFee == s.entryFee)
  {
    RunsGrow(start, events, more);
    TerminalForEver(start, events, more, sid);
  }

  ghost predicate KeepsTerminal(st: State, st': State, sid: nat) {
    sid < |st.sessions| && sid < |st'.sessions|
    && (IsTerminal(st.sessions[sid].status) ==> st'.sessions[sid].status == st.sessions[sid].status)
  }

  lemma {:induction false} TerminalForEver(start: State, events: seq<Event>, more: seq<Event>, sid: nat)
    requires Initial(start) && sid < |After(start, events).sessions|
    ensures KeepsTerminal(After(start, events), After(start, events + more), sid)
  {
    if more == [] {
      assert events + more == events;
    } else {
      var front, e := more[..|more| - 1], more[|more| - 1];
      TerminalForEver(start, events, front, sid);
      assert events + front + [e] == events + more;
      StatusesFollowTheTable(start, events + front, e);
    }
  }

  lemma {:induction false} RunsGrow(start: State, events: seq<Event>, more: seq<Event>)
    requires Initial(start)
    ensures Grows(After(start, events), After(start, events + more))
  {
    if more == [] {
      assert events + more == events;
      EveryRunIsSafe(start, events);
      NothingHappens(After(start, events));
    } else {
      var front, e := more[..|more| - 1], more[|more| - 1];
      RunsGrow(start, events, front);
      assert events + front + [e] == events + more;
      OneEventGrows(start, events + front, e);
      GrowsThenGrows(After(start, events), After(start, events + front), After(start, events + front + [e]));
    }
  }

  lemma {:induction false} OneEventGrows(start: State, events: seq<Event>, e: Event)
    requires Initial(start)
    ensures Grows(After(start, events), After(start, events + [e]))
  {
    EveryRunIsSafe(start, events);
    OneMoreEvent(start, events, e);
    var before := After(start, events);
    if Addressed(before, e) {
      EventIsGood(before, e);
    } else {
      NothingHappens(before);
    }
  }

  lemma {:induction false} GrowsThenGrows(a: State, b: State, c: State)
    requires Grows(a, b) && Grows(b, c)
    ensures Grows(a, c)
  {
    forall i | 0 <= i < |a.sessions|
      ensures SessionGrows(a.sessions[i], c.sessions[i])
    {
      GrowsTwice(a.sessions[i], b.sessions[i], c.sessions[i]);
    }
  }

  /** Nothing that came later takes a registration away: it stays in its place, with its cartela, its
      player and what was paid. */
  lemma {:induction false} RegistrationsStay(start: State, events: seq<Event>, more: seq<Event>, sid: nat)
    requires Initial(start) && sid < |After(start, events).sessions|
    ensures sid < |After(start, events + more).sessions|
    ensures SessionGrows(After(start, events).sessions[sid], After(start, events + more).sessions[sid])
  {
    RunsGrow(start, events, more);
  }

  // ---- One live round ----

  /** Never two rounds at once; the live round's slot is PLAYING; a slot never has two open sessions. */
  lemma {:induction false} OneRoundAtATime(start: State, events: seq<Event>, i: nat, j: nat)
    requires Initial(start)
    ensures var st := After(start, events);
      i < j < |st.sessions| ==>
        && !(IsLive(st.sessions[i].status) && IsLive(st.sessions[j].status))
        && (IsLive(st.sessions[i].status) ==>
              st.sessions[i].slotId < |st.slots| && st.slots[st.sessions[i].slotId].status == PLAYING)
        && (IsOpen(st.sessions[i].status) && IsOpen(st.sessions[j].status) ==>
            st.sessions[i].slotId != st.sessions[j].slotId)
  {
    EveryRunIsSafe(start, events);
  }

  // ---- Manual review ----

  predicate AwaitsReview(s: Session, c: nat) {
    && c < |s.claims| && s.claims[c].status == PENDING
    && s.claims[c].registration < |s.registrations| && s.registrations[s.claims[c].registration].status == REGISTERED
  }

  /** A claim on a REGISTERED cartela is pending exactly while its session is CHECKING, and then it is the
      only pending one; this is what keeps the unguarded writes of the review within the table. */
  lemma {:induction false} PendingIffChecking(start: State, events: seq<Event>, sid: nat)
    requires Initial(start) && sid < |After(start, events).sessions|
    ensures var s := After(start, events).sessions[sid];
      && (s.status == CHECKING <==> exists c: nat :: AwaitsReview(s, c))
      && (forall i, j | 0 <= i < j < |s.claims| :: s.claims[i].status != PENDING || s.claims[j].status != PENDING)
  {
    EveryRunIsSafe(start, events);
    var s := After(start, events).sessions[sid];
    if s.status == CHECKING {
      var c :| 0 <= c < |s.claims| && s.claims[c].status == PENDING && s.claims[c].registration < |s.registrations|
        && s.registrations[s.claims[c].registration].status == REGISTERED;
      assert AwaitsReview(s, c);
    }
    if c: nat :| AwaitsReview(s, c) {
      PendingMeansChecking(s, c);
    }
  }

  // ---- Draws ----

  lemma {:induction false} AllNumbersCalled(calls: seq<Call>, now: int, number: int)
    requires CallsOk(calls, now) && |calls| >= ALL_NUMBERS && 1 <= number <= ALL_NUMBERS
    ensures IsCalled(calls, number)
  {
    DistinctCount(calls);
    var numbers := CalledNumbers(calls);
    assert numbers <= Range(ALL_NUMBERS);
    if !IsCalled(calls, number) {
      assert number !in numbers;
      assert |Range(ALL_NUMBERS) - {number}| == ALL_NUMBERS - 1;
      SubsetSize(numbers, Range(ALL_NUMBERS) - {number});
    }
  }

  lemma {:induction false} DistinctCount(calls: seq<Call>)
    requires DistinctNumbers(calls)
    ensures |CalledNumbers(calls)| == |calls|
  {
    if calls != [] {
      var front := calls[..|calls| - 1];
      DistinctCount(front);
      assert CalledNumbers(calls) == CalledNumbers(front) + {calls[|calls| - 1].ball.number};
      assert forall i | 0 <= i < |front| :: front[i].ball.number != calls[|calls| - 1].ball.number;
    }
  }

  /** A round ends without a winner only after all 75 balls, each called once, in orders 1..75; the two
      ways of numbering the next ball agree. */
  lemma {:induction false} NoWinnerMeansAllCalled(start: State, events: seq<Event>, sid: nat)
    requires Initial(start) && sid < |After(start, events).sessions|
    ensures var s := After(start, events).sessions[sid];
      && LatestOrder(s.calls) == |s.calls| && |s.calls| <= ALL_NUMBERS
      && (forall i | 0 <= i < |s.calls| :: s.calls[i].order == i + 1)
      && (s.status == NO_WINNER || s.noWinnerGraceEndsAt.Some? ==>
            forall n | 1 <= n <= ALL_NUMBERS :: IsCalled(s.calls, n))
  {
    EveryRunIsSafe(start, events);
    var st := After(start, events);
    var s := st.sessions[sid];
    OrdersAreCounts(s.calls, st.now);
    DistinctCount(s.calls);
    SubsetSize(CalledNumbers(s.calls), Range(ALL_NUMBERS));
    if |s.calls| >= ALL_NUMBERS {
      forall n | 1 <= n <= ALL_NUMBERS
        ensures IsCalled(s.calls, n)
      {
        AllNumbersCalled(s.calls, st.now, n);
      }
    }
  }

  // ---- Holds ----

  /** At most one ACTIVE hold per cartela, none unexpired on a registered cartela; so a confirmation
      never meets a cartela that is already registered. */
  lemma {:induction false} HoldsAreExclusive(start: State, events: seq<Event>, sid: nat, hold: nat, user: nat)
    requires Initial(start)
    requires var st := After(start, events); sid < |st.sessions| && user < |st.books.wallets|
    ensures References(After(start, events))
    ensures var st := After(start, events);
      var s := st.sessions[sid];
      && (forall i, j | 0 <= i < j < |s.holds| && s.holds[i].cartelaId == s.holds[j].cartelaId ::
            s.holds[i].status != ACTIVE || s.holds[j].status != ACTIVE)
      && (hold < |s.holds| && IsCurrent(s.holds[hold], st.now) ==>
          FindRegistration(s.registrations, s.holds[hold].cartelaId).None?)
      && !ConfirmReservation(st, sid, hold, user).1.AlreadyMine?
      && ConfirmReservation(st, sid, hold, user).1 != Refused(AlreadyTaken)
  {
    EveryRunIsSafe(start, events);
  }

  // ---- Winning balls ----

  /** All winners of an automatic session won on the same ball, the last one called: every VALID claim
      stores it, the balls at claim time are all the balls, and the results page shows it. */
  lemma {:induction false} AllWonOnTheSameBall(start: State, events: seq<Event>, sid: nat, c: nat)
    requires Initial(start) && sid < |After(start, events).sessions|
    requires c < |After(start, events).sessions[sid].claims|
    requires After(start, events).sessions[sid].claims[c].status == VALID
    ensures References(After(start, events))
    ensures var st := After(start, events);
      var s := st.sessions[sid];
      var last := if s.calls == [] then None else Some(s.calls[|s.calls| - 1].ball);
      && s.claims[c].checkedAt.Some?
      && FilterCalledNumbersAtClaimTime(s.calls, s.claims[c].checkedAt.value) == s.calls
      && s.claims[c].winningBall == (if st.slots[s.slotId].manualRule then None else last)
      && ResultBall(s.calls, s.claims[c].winningBall, s.claims[c].checkedAt) == last
      && (s.status == WINNER_WINDOW || s.status == FINISHED)
  {
    EveryRunIsSafe(start, events);
    var st := After(start, events);
    var s := st.sessions[sid];
    assert ValidClaimOk(s, s.claims[c], st.slots[s.slotId].manualRule, st.now);
    FilterKeepsAll(s.calls, s.claims[c].checkedAt.value);
    SnapshotIsLastCall(s.calls);
    assert HasWinner(s.registrations);
  }

  // ---- Pot ----

  /** In every run the pot of a session is its opening prize and the prize part of every live cartela, and
      the two parts of the fee make the fee. */
  lemma {:induction false} PotIdentity(start: State, events: seq<Event>, sid: nat)
    requires Initial(start) && sid < |After(start, events).sessions|
    ensures var s := After(start, events).sessions[sid];
      && s.entryFee == s.prizePerCartela + s.companyFeePerCartela
      && (s.status != CANCELLED ==>
            && LiveCount(s.registrations) == |s.registrations|
            && s.prizeAmount == s.openingPrize + s.prizePerCartela * LiveCount(s.registrations))
  {
    EveryRunIsSafe(start, events);
    var s := After(start, events).sessions[sid];
    if s.status != CANCELLED {
      AllLive(s.registrations);
    }
  }

  /** ... and in steady runs the company has the rest of every live cartela. */
  lemma {:induction false} RevenueIdentity(start: State, events: seq<Event>, sid: nat)
    requires Initial(start) && SteadyRun(start, events) && sid < |After(start, events).sessions|
    ensures var s := After(start, events).sessions[sid];
      s.status != CANCELLED ==> s.companyRevenue == s.companyFeePerCartela * LiveCount(s.registrations)
  {
    EveryRunIsSafe(start, events);
    EveryRunIsSound(start, events, true);
    var s := After(start, events).sessions[sid];
    assert SessionSound(s, |start.books.wallets|, true);
    if s.status != CANCELLED {
      AllLive(s.registrations);
    }
  }

  function LiveCount(registrations: seq<Registration>): nat {
    if registrations == [] then 0
    else LiveCount(registrations[..|registrations| - 1]) + if registrations[|registrations| - 1].status != VOID then 1
      else 0
  }

  lemma {:induction false} AllLive(registrations: seq<Registration>)
    requires forall r | 0 <= r < |registrations| :: registrations[r].status != VOID
    ensures LiveCount(registrations) == |registrations|
  {
    if registrations != [] {
      AllLive(registrations[..|registrations| - 1]);
    }
  }
}
