/** Players who claim at the same moment, the admin who closes the window, the finalizer who pays and the
    caller who draws. Each claimer reads first and commits later, so a commit may rest on a stale read. */
module WindowRace {
  import opened Common
  import opened Games
  import opened WinningBalls
  import opened Rounds

  /** `Seen` is what a claimer read, and when; the clocks of its commit are sampled no earlier. */
  datatype Memory =
    | Unread
    | Seen(status: GameStatus, windowEnd: Option<int>, calls: seq<Call>, at: int)
    | OpenedIt(endsAt: int)
    | JoinedIt(endsAt: int)
    | TurnedDown

  datatype Claimer = Claimer(registration: nat, memory: Memory)

  /** `paid` lists the cartelas the finalizer has paid. */
  datatype Race = Race(session: Session, now: int, claimers: seq<Claimer>, paid: seq<nat>)

  datatype Timing = Timing(windowMs: int, graceMs: int)

  datatype Move =
    | Pause(ms: nat)
    | Draw(ball: Ball)
    | ReadBy(i: nat)
    | CommitBy(i: nat, clock: int)
    | CloseEarly
    | Finalize(clock: int)

  /** What a claimer with a winning board sees before its transaction writes. */
  function ReadClaim(session: Session, r: nat, now: int): Memory {
    if r >= |session.registrations| || session.registrations[r].status != REGISTERED then TurnedDown
    else if session.status != PLAYING && session.status != WINNER_WINDOW then TurnedDown
    else Seen(session.status, session.winnerWindowEndsAt, session.calls, now)
  }

  /** A cartela marked as winner, with a claim that stores the ball seen. */
  function WinAsSeen(session: Session, r: nat, clock: int, seen: seq<Call>): Session
    requires r < |session.registrations|
  {
    MarkWinner(session, r).(claims := session.claims + [Claim(r, VALID, clock, Some(clock), SnapshotBall(seen))])
  }

  /** The writes: a claimer that saw PLAYING tries to open the window by compare-and-set and, when that
      fails, looks again and joins; one that saw the window joins the window it saw, guarded by its cartela
      alone. */
  function CommitClaim(session: Session, r: nat, seen: Memory, clock: int, timing: Timing): (Session, Memory)
    requires seen.Seen?
  {
    if r >= |session.registrations| || session.registrations[r].status != REGISTERED
        || session.registrations[r].isWinner
    then (session, TurnedDown)
    else if seen.status == PLAYING && session.status == PLAYING then
      var endsAt := clock + timing.windowMs;
      var window := session.(status := WINNER_WINDOW, winnerWindowEndsAt := Some(endsAt), noWinnerGraceEndsAt := None);
      (WinAsSeen(window, r, clock, seen.calls), OpenedIt(endsAt))
    else if seen.status == PLAYING && (session.status != WINNER_WINDOW || session.winnerWindowEndsAt.None?)
    then (session, TurnedDown)
    else
      var endsAt := if seen.status == PLAYING then session.winnerWindowEndsAt else seen.windowEnd;
      if endsAt.None? || clock > endsAt.value + timing.graceMs then (session, TurnedDown)
      else (WinAsSeen(session, r, clock, seen.calls), JoinedIt(endsAt.value))
  }

  predicate MayCommit(race: Race, i: nat, clock: int) {
    i < |race.claimers| && race.claimers[i].memory.Seen? && race.claimers[i].memory.at <= clock <= race.now
  }

  /** The finalizer's transaction gets through: the window is due and every share is a cent at least. */
  predicate PaysOut(race: Race, clock: int, timing: Timing) {
    && clock <= race.now && WindowDue(race.session, clock, timing.graceMs) && race.session.winnerRegistration.None?
    && 0 < |Winners(race.session)| <= race.session.prizeAmount
  }

  function Play(race: Race, move: Move, timing: Timing): Race {
    match move
    case Pause(ms) => race.(now := race.now + ms)
    case Draw(ball) =>
      var drawn := CallNumber(race.session, ball, race.now);
      if drawn.Some? then race.(session := drawn.value) else race
    case ReadBy(i) =>
      if i >= |race.claimers| || !race.claimers[i].memory.Unread? then race
      else WithMemory(race, i, ReadClaim(race.session, race.claimers[i].registration, race.now))
    case CommitBy(i, clock) =>
      if !MayCommit(race, i, clock) then race
      else
        var c := race.claimers[i];
        var (session, memory) := CommitClaim(race.session, c.registration, c.memory, clock, timing);
        WithMemory(race.(session := session), i, memory)
    case CloseEarly => race.(session := CloseWindowEarly(race.session, race.now))
    case Finalize(clock) =>
      if !PaysOut(race, clock, timing) then race
      else
        var winners := Winners(race.session);
        var finished := race.session.(status := FINISHED, prizeFinalizedAt := Some(race.now),
                                      winnerRegistration := Some(winners[0]), noWinnerGraceEndsAt := None);
        race.(session := finished, paid := winners)
  }

  function WithMemory(race: Race, i: nat, memory: Memory): Race
    requires i < |race.claimers|
  {
    race.(claimers := race.claimers[i := race.claimers[i].(memory := memory)])
  }

  function PlayAll(race: Race, moves: seq<Move>, timing: Timing): Race {
    if moves == [] then race
    else Play(PlayAll(race, moves[..|moves| - 1], timing), moves[|moves| - 1], timing)
  }

  /** The start line: a PLAYING session with nobody a winner yet, and claimers who have not looked. */
  ghost predicate AtStart(race: Race) {
    && race.session.status == PLAYING && race.paid == [] && DistinctNumbers(race.session.calls)
    && (forall r | 0 <= r < |race.session.registrations| ::
          !race.session.registrations[r].isWinner && race.session.registrations[r].status != WINNER)
    && (forall c | 0 <= c < |race.session.claims| :: race.session.claims[c].status != VALID)
    && (forall i | 0 <= i < |race.claimers| :: race.claimers[i].memory.Unread?)
  }

  predicate HasWon(memory: Memory) {
    memory.OpenedIt? || memory.JoinedIt?
  }

  // ---- The guards of a commit ----

  /** The window is open at the given clock. */
  predicate OpenAt(session: Session, clock: int, timing: Timing) {
    session.status == WINNER_WINDOW && session.winnerWindowEndsAt.Some?
      && clock <= session.winnerWindowEndsAt.value + timing.graceMs
  }

  /** A claimer that saw PLAYING is judged by the session, one that saw a window by the window it saw. */
  predicate InTime(race: Race, i: nat, clock: int, timing: Timing)
    requires i < |race.claimers| && race.claimers[i].memory.Seen?
  {
    var seen := race.claimers[i].memory;
    if seen.status == PLAYING then race.session.status == PLAYING || OpenAt(race.session, clock, timing)
    else seen.windowEnd.Some? && clock <= seen.windowEnd.value + timing.graceMs
  }

  predicate StillRegistered(race: Race, i: nat)
    requires i < |race.claimers|
  {
    var r := race.claimers[i].registration;
    r < |race.session.registrations| && race.session.registrations[r].status == REGISTERED
  }

  predicate Wins(race: Race, i: nat, clock: int, timing: Timing) {
    MayCommit(race, i, clock) && StillRegistered(race, i) && InTime(race, i, clock, timing)
  }

  /** A claimer wins by a window that is no longer the session's open one: closed early, or paid. */
  predicate WinsTooLate(race: Race, i: nat, clock: int, timing: Timing) {
    Wins(race, i, clock, timing) && race.claimers[i].memory.status != PLAYING && !OpenAt(race.session, clock, timing)
  }

  /** A claimer wins with balls that were not yet all when it looked. */
  predicate WinsOnStaleBalls(race: Race, i: nat, clock: int, timing: Timing) {
    Wins(race, i, clock, timing) && |race.claimers[i].memory.calls| < |race.session.calls|
  }

  // ---- What every move keeps ----

  /** What a claimer remembers fits the session: draws are over once there is a window. */
  ghost predicate MemoryFits(session: Session, memory: Memory) {
    memory.Seen? ==>
      && memory.status in {PLAYING, WINNER_WINDOW} && memory.calls <= session.calls
      && (session.status == PLAYING ==> memory.status == PLAYING)
      && (memory.status == WINNER_WINDOW ==> memory.windowEnd.Some? && memory.calls == session.calls)
  }

  ghost predicate OneOpener(race: Race) {
    exists i | 0 <= i < |race.claimers| :: race.claimers[i].memory.OpenedIt?
      && forall j | 0 <= j < |race.claimers| && race.claimers[j].memory.OpenedIt? :: j == i
  }

  ghost predicate ClaimedBy(race: Race, r: nat, i: nat) {
    i < |race.claimers| && race.claimers[i].registration == r && HasWon(race.claimers[i].memory)
  }

  /** Every winning cartela has a claimer that won with it. */
  ghost predicate WinnersHaveClaimers(race: Race) {
    forall r: nat | r < |race.session.registrations| && race.session.registrations[r].isWinner ::
        exists i: nat :: ClaimedBy(race, r, i)
  }

  /** Every claimer that won has a winning cartela, and no two have the same. */
  ghost predicate ClaimersHaveWon(race: Race) {
    && (forall i | 0 <= i < |race.claimers| && HasWon(race.claimers[i].memory) ::
          race.claimers[i].registration < |race.session.registrations|
          && race.session.registrations[race.claimers[i].registration].isWinner)
    && (forall i,
        j | 0 <= i < j < |race.claimers| && HasWon(race.claimers[i].memory) && HasWon(race.claimers[j].memory) ::
          race.claimers[i].registration != race.claimers[j].registration)
  }

  ghost predicate SessionFits(session: Session, paid: seq<nat>) {
    && session.status in {PLAYING, WINNER_WINDOW, FINISHED} && DistinctNumbers(session.calls)
    && (forall r | 0 <= r < |session.registrations| ::
          session.registrations[r].isWinner <==> session.registrations[r].status == WINNER)
    && (session.status == PLAYING ==> forall c | 0 <= c < |session.claims| :: session.claims[c].status != VALID)
    && (session.status == WINNER_WINDOW ==> session.winnerWindowEndsAt.Some?)
    && (session.status != FINISHED ==> paid == [])
    && (forall k | 0 <= k < |paid| :: paid[k] < |session.registrations| && session.registrations[paid[k]].isWinner)
  }

  ghost predicate RaceOk(race: Race) {
    && SessionFits(race.session, race.paid)
    && (forall i | 0 <= i < |race.claimers| :: MemoryFits(race.session, race.claimers[i].memory))
    && (race.session.status == PLAYING ==> forall i | 0 <= i < |race.claimers| :: !HasWon(race.claimers[i].memory))
    && WinnersHaveClaimers(race) && ClaimersHaveWon(race)
    && (race.session.status != PLAYING ==> OneOpener(race))
  }

  // ---- One move ----

  lemma {:induction false} MoveIsOk(race: Race, move: Move, timing: Timing)
    requires RaceOk(race)
    ensures RaceOk(Play(race, move, timing))
  {
    match move
    case Pause(_) => SameClaimers(race, Play(race, move, timing));
    case Draw(ball) => DrawIsOk(race, ball, timing);
    case ReadBy(i) => ReadIsOk(race, i, timing);
    case CommitBy(i, clock) => CommitIsOk(race, i, clock, timing);
    case CloseEarly => SameClaimers(race, Play(race, move, timing));
    case Finalize(clock) => FinalizeIsOk(race, clock, timing);
  }

  /** The claimers stay, and so does every cartela. */
  lemma {:induction false} SameClaimers(race: Race, race': Race)
    requires RaceOk(race) && race'.claimers == race.claimers && SessionFits(race'.session, race'.paid)
    requires race'.session.registrations == race.session.registrations
    requires race'.session.status == PLAYING <==> race.session.status == PLAYING
    requires race.session.calls <= race'.session.calls
    requires race.session.status != PLAYING ==> race'.session.calls == race.session.calls
    ensures RaceOk(race')
  {
    assert WinnersHaveClaimers(race') by {
      forall r: nat | r < |race'.session.registrations| && race'.session.registrations[r].isWinner
        ensures exists i: nat :: ClaimedBy(race', r, i)
      {
        var i: nat :| ClaimedBy(race, r, i);
        assert ClaimedBy(race', r, i);
      }
    }
  }

  lemma {:induction false} DrawIsOk(race: Race, ball: Ball, timing: Timing)
    requires RaceOk(race)
    ensures RaceOk(Play(race, Draw(ball), timing))
  {
    var drawn := CallNumber(race.session, ball, race.now);
    if drawn.Some? {
      assert drawn.value.calls[..|race.session.calls|] == race.session.calls;
      SameClaimers(race, race.(session := drawn.value));
    }
  }

  lemma {:induction false} FinalizeIsOk(race: Race, clock: int, timing: Timing)
    requires RaceOk(race)
    ensures RaceOk(Play(race, Finalize(clock), timing))
  {
    if PaysOut(race, clock, timing) {
      SameClaimers(race, Play(race, Finalize(clock), timing));
    }
  }

  /** A claimer that has not won changes its memory without winning. */
  lemma {:induction false} MemoryIsOk(race: Race, i: nat, memory: Memory)
    requires RaceOk(race) && i < |race.claimers| && !HasWon(race.claimers[i].memory) && !HasWon(memory)
    requires MemoryFits(race.session, memory)
    ensures RaceOk(WithMemory(race, i, memory))
  {
    WinnersStay(race, WithMemory(race, i, memory), i);
    if race.session.status != PLAYING {
      OpenerStays(race, race.session, i, memory);
    }
  }

  /** Claimer `i` had not won: whoever claimed the cartelas that won before still does. */
  lemma {:induction false} WinnersStay(race: Race, race': Race, i: nat)
    requires WinnersHaveClaimers(race) && i < |race.claimers| == |race'.claimers| && !HasWon(race.claimers[i].memory)
    requires forall k | 0 <= k < |race.claimers| && k != i :: race'.claimers[k] == race.claimers[k]
    ensures forall r: nat | r < |race.session.registrations| && race.session.registrations[r].isWinner ::
      exists k: nat :: ClaimedBy(race', r, k)
  {
    forall r: nat | r < |race.session.registrations| && race.session.registrations[r].isWinner
      ensures exists k: nat :: ClaimedBy(race', r, k)
    {
      var k: nat :| ClaimedBy(race, r, k);
      assert ClaimedBy(race', r, k);
    }
  }

  lemma {:induction false} OpenerStays(race: Race, session: Session, i: nat, memory: Memory)
    requires OneOpener(race) && i < |race.claimers| && !HasWon(race.claimers[i].memory) && !memory.OpenedIt?
    ensures OneOpener(WithMemory(race.(session := session), i, memory))
  {
    var k :| 0 <= k < |race.claimers| && race.claimers[k].memory.OpenedIt?
      && forall j | 0 <= j < |race.claimers| && race.claimers[j].memory.OpenedIt? :: j == k;
    assert WithMemory(race.(session := session), i, memory).claimers[k].memory.OpenedIt?;
  }

  lemma {:induction false} ReadIsOk(race: Race, i: nat, timing: Timing)
    requires RaceOk(race)
    ensures RaceOk(Play(race, ReadBy(i), timing))
  {
    if i < |race.claimers| && race.claimers[i].memory.Unread? {
      MemoryIsOk(race, i, ReadClaim(race.session, race.claimers[i].registration, race.now));
    }
  }

  /** What a commit does: nothing but turning its claimer down, or making its cartela a winner. */
  lemma {:induction false} CommitEffect(race: Race, i: nat, clock: int, timing: Timing)
    requires RaceOk(race) && MayCommit(race, i, clock)
    ensures var after := Play(race, CommitBy(i, clock), timing);
      var seen, r := race.claimers[i].memory, race.claimers[i].registration;
      if !Wins(race, i, clock, timing) then after == WithMemory(race, i, TurnedDown)
      else
        var memory := after.claimers[i].memory;
        && HasWon(memory) && after == WithMemory(race.(session := after.session), i, memory)
        && (memory.OpenedIt? <==> race.session.status == PLAYING)
        && after.session == WinAsSeen(
             if race.session.status == PLAYING
             then race.session.(status := WINNER_WINDOW, winnerWindowEndsAt := Some(clock + timing.windowMs),
                                noWinnerGraceEndsAt := None)
             else race.session, r, clock, seen.calls)
  {
  }

  lemma {:induction false} CommitIsOk(race: Race, i: nat, clock: int, timing: Timing)
    requires RaceOk(race)
    ensures RaceOk(Play(race, CommitBy(i, clock), timing))
  {
    if MayCommit(race, i, clock) {
      CommitEffect(race, i, clock, timing);
      if Wins(race, i, clock, timing) {
        CommitWins(race, i, clock, timing);
      } else {
        MemoryIsOk(race, i, TurnedDown);
      }
    }
  }

  lemma {:induction false} CommitWins(race: Race, i: nat, clock: int, timing: Timing)
    requires RaceOk(race) && Wins(race, i, clock, timing)
    ensures RaceOk(Play(race, CommitBy(i, clock), timing))
  {
    var after, r := Play(race, CommitBy(i, clock), timing), race.claimers[i].registration;
    CommitEffect(race, i, clock, timing);
    WinnersStay(race, after, i);
    assert ClaimedBy(after, r, i);
    assert OneOpener(after) by {
      if race.session.status != PLAYING {
        OpenerStays(race, after.session, i, after.claimers[i].memory);
      } else {
        assert after.claimers[i].memory.OpenedIt?;
      }
    }
    assert ClaimersHaveWon(after) && WinnersHaveClaimers(after) && SessionFits(after.session, after.paid);
  }

  // ---- Whole races ----

  lemma {:induction false} StartIsOk(race: Race)
    requires AtStart(race)
    ensures RaceOk(race)
  {
  }

  /** The claimers are the same all along, each with the same cartela. */
  lemma {:induction false} ClaimersStay(race: Race, moves: seq<Move>, timing: Timing)
    ensures |PlayAll(race, moves, timing).claimers| == |race.claimers|
    ensures forall i | 0 <= i < |race.claimers| ::
      PlayAll(race, moves, timing).claimers[i].registration == race.claimers[i].registration
  {
    if moves != [] {
      ClaimersStay(race, moves[..|moves| - 1], timing);
    }
  }

  lemma {:induction false} RaceStaysOk(race: Race, moves: seq<Move>, timing: Timing)
    requires AtStart(race)
    ensures RaceOk(PlayAll(race, moves, timing))
  {
    if moves == [] {
      StartIsOk(race);
    } else {
      RaceStaysOk(race, moves[..|moves| - 1], timing);
      MoveIsOk(PlayAll(race, moves[..|moves| - 1], timing), moves[|moves| - 1], timing);
    }
  }

  /** However reads, commits, draws, early closing and payout interleave: as soon as anyone has won, exactly
      one claimer opened the window, and winning claimers and winning cartelas are one for one. */
  lemma {:induction false} WindowOpensOnce(race: Race, moves: seq<Move>, timing: Timing, i: nat, j: nat)
    requires AtStart(race) && i < |race.claimers| && j < |race.claimers|
    ensures var end := PlayAll(race, moves, timing);
      && |end.claimers| == |race.claimers|
      && (HasWon(end.claimers[i].memory) ==>
            && OneOpener(end) && end.session.status in {WINNER_WINDOW, FINISHED}
            && race.claimers[i].registration < |end.session.registrations|
            && end.session.registrations[race.claimers[i].registration].isWinner)
      && (HasWon(end.claimers[i].memory) && HasWon(end.claimers[j].memory) && i != j ==>
            race.claimers[i].registration != race.claimers[j].registration)
      && (forall r: nat | r < |end.session.registrations| && end.session.registrations[r].isWinner ::
            exists k: nat :: ClaimedBy(end, r, k))
  {
    RaceStaysOk(race, moves, timing);
    ClaimersStay(race, moves, timing);
  }

  /** The window every winner has been told of, as long as nobody closes it early. */
  ghost predicate OneEnd(race: Race) {
    forall i | 0 <= i < |race.claimers| ::
      match race.claimers[i].memory
      case OpenedIt(endsAt) => race.session.winnerWindowEndsAt == Some(endsAt)
      case JoinedIt(endsAt) => race.session.winnerWindowEndsAt == Some(endsAt)
      case Seen(status, endsAt, _, _) => status == PLAYING || endsAt == race.session.winnerWindowEndsAt
      case _ => true
  }

  lemma {:induction false} OneEndUnlessClosedEarly(race: Race, moves: seq<Move>, timing: Timing)
    requires AtStart(race) && CloseEarly !in moves
    ensures OneEnd(PlayAll(race, moves, timing))
  {
    if moves != [] {
      var front, last := moves[..|moves| - 1], moves[|moves| - 1];
      OneEndUnlessClosedEarly(race, front, timing);
      RaceStaysOk(race, front, timing);
      assert last in moves;
      MoveKeepsEnd(PlayAll(race, front, timing), last, timing);
    }
  }

  lemma {:induction false} MoveKeepsEnd(race: Race, move: Move, timing: Timing)
    requires RaceOk(race) && OneEnd(race) && !move.CloseEarly?
    ensures OneEnd(Play(race, move, timing))
  {
  }

  // ---- When a stale read does harm ----

  /** What a claim would do if its whole transaction ran at once, at the moment of the commit. */
  function WholeClaim(race: Race, i: nat, clock: int, timing: Timing): Option<Session>
    requires i < |race.claimers| && race.claimers[i].registration < |race.session.registrations|
  {
    AutoValidatedClaim(race.session, race.claimers[i].registration, WINNING, clock, timing.windowMs, timing.graceMs)
  }

  /** A commit does what the whole claim would do at that moment, or nothing, exactly when it does not win by a
      window that has been closed or paid meanwhile, and no ball has been drawn since it looked. */
  lemma {:induction false} CommitIsWholeClaimIff(race: Race, moves: seq<Move>, timing: Timing, i: nat, clock: int)
    requires AtStart(race)
    requires var before := PlayAll(race, moves, timing);
      MayCommit(before, i, clock) && before.claimers[i].registration < |before.session.registrations|
    ensures var before := PlayAll(race, moves, timing);
      var after := Play(before, CommitBy(i, clock), timing);
      (after.session == before.session || WholeClaim(before, i, clock, timing) == Some(after.session))
      <==> !WinsTooLate(before, i, clock, timing) && !WinsOnStaleBalls(before, i, clock, timing)
  {
    RaceStaysOk(race, moves, timing);
    CommitAgainstWhole(PlayAll(race, moves, timing), i, clock, timing);
  }

  lemma {:induction false} CommitAgainstWhole(race: Race, i: nat, clock: int, timing: Timing)
    requires RaceOk(race) && MayCommit(race, i, clock) && race.claimers[i].registration < |race.session.registrations|
    ensures var after := Play(race, CommitBy(i, clock), timing);
      (after.session == race.session || WholeClaim(race, i, clock, timing) == Some(after.session))
      <==> !WinsTooLate(race, i, clock, timing) && !WinsOnStaleBalls(race, i, clock, timing)
  {
    CommitEffect(race, i, clock, timing);
    if Wins(race, i, clock, timing) {
      var after, claims := Play(race, CommitBy(i, clock), timing), race.session.claims;
      BallsDiffer(race.claimers[i].memory.calls, race.session.calls);
      assert |after.session.claims| == |claims| + 1;
      assert after.session.claims[|claims|].winningBall == SnapshotBall(race.claimers[i].memory.calls);
      if WholeClaim(race, i, clock, timing).Some? {
        assert WholeClaim(race, i, clock, timing).value.claims[|claims|].winningBall
          == SnapshotBall(race.session.calls);
      }
    }
  }

  /** Fewer balls, another last ball. */
  lemma {:induction false} BallsDiffer(seen: seq<Call>, calls: seq<Call>)
    requires DistinctNumbers(calls) && seen <= calls
    ensures SnapshotBall(seen) == SnapshotBall(calls) <==> |seen| == |calls|
  {
    SnapshotIsLastCall(calls);
    SnapshotIsLastCall(seen);
    if |seen| == |calls| {
      assert seen == calls;
    }
  }

  /** A claimer is turned down at the commit only for its own lateness: its cartela has been decided, or the
      window is over by the end it goes by. */
  lemma {:induction false} TurnedDownIff(race: Race, moves: seq<Move>, timing: Timing, i: nat, clock: int)
    requires AtStart(race) && MayCommit(PlayAll(race, moves, timing), i, clock)
    ensures var before := PlayAll(race, moves, timing);
      Play(before, CommitBy(i, clock), timing).claimers[i].memory.TurnedDown?
      <==> !StillRegistered(before, i) || !InTime(before, i, clock, timing)
  {
    RaceStaysOk(race, moves, timing);
    CommitEffect(PlayAll(race, moves, timing), i, clock, timing);
  }

  // ---- Who is paid ----

  /** A claimer joins, by the window it saw, a round that has been paid. */
  predicate JoinsPaidRound(race: Race, move: Move, timing: Timing) {
    move.CommitBy? && race.session.status == FINISHED && Wins(race, move.i, move.clock, timing)
  }

  ghost predicate EveryWinnerPaid(race: Race) {
    race.session.status == FINISHED ==>
      forall r: nat | r < |race.session.registrations| && race.session.registrations[r].isWinner :: r in race.paid
  }

  predicate JoinsPaidRoundAt(race: Race, moves: seq<Move>, k: nat, timing: Timing)
    requires k < |moves|
  {
    JoinsPaidRound(PlayAll(race, moves[..k], timing), moves[k], timing)
  }

  ghost predicate NobodyJoinsPaidRound(race: Race, moves: seq<Move>, timing: Timing) {
    forall k | 0 <= k < |moves| :: !JoinsPaidRoundAt(race, moves, k, timing)
  }

  /** In every race: once the round is finished all its winners are paid, exactly when nobody joined by a
      stale window after the payout. */
  lemma {:induction false} EveryWinnerPaidIff(race: Race, moves: seq<Move>, timing: Timing)
    requires AtStart(race)
    ensures EveryWinnerPaid(PlayAll(race, moves, timing)) <==> NobodyJoinsPaidRound(race, moves, timing)
  {
    if moves != [] {
      var n := |moves| - 1;
      EveryWinnerPaidIff(race, moves[..n], timing);
      NextPaysIff(race, moves, timing, n);
      OneMoreJoiner(race, moves, timing, n);
    }
  }

  lemma {:induction false} NextPaysIff(race: Race, moves: seq<Move>, timing: Timing, n: nat)
    requires AtStart(race) && |moves| == n + 1
    ensures EveryWinnerPaid(PlayAll(race, moves, timing))
       <==> EveryWinnerPaid(PlayAll(race, moves[..n], timing)) && !JoinsPaidRoundAt(race, moves, n, timing)
  {
    RaceStaysOk(race, moves[..n], timing);
    MovePaysIff(PlayAll(race, moves[..n], timing), moves[n], timing);
  }

  lemma {:induction false} OneMoreJoiner(race: Race, moves: seq<Move>, timing: Timing, n: nat)
    requires |moves| == n + 1
    ensures NobodyJoinsPaidRound(race, moves, timing)
       <==> NobodyJoinsPaidRound(race, moves[..n], timing) && !JoinsPaidRoundAt(race, moves, n, timing)
  {
    forall k | 0 <= k < n
      ensures JoinsPaidRoundAt(race, moves[..n], k, timing) <==> JoinsPaidRoundAt(race, moves, k, timing)
    {
      assert moves[..n][..k] == moves[..k];
    }
  }

  lemma {:induction false} MovePaysIff(race: Race, move: Move, timing: Timing)
    requires RaceOk(race)
    ensures EveryWinnerPaid(Play(race, move, timing)) <==> EveryWinnerPaid(race) && !JoinsPaidRound(race, move, timing)
  {
    if move.CommitBy? && MayCommit(race, move.i, move.clock) {
      CommitEffect(race, move.i, move.clock, timing);
      if JoinsPaidRound(race, move, timing) {
        var r := race.claimers[move.i].registration;
        assert Play(race, move, timing).session.registrations[r].isWinner && r !in race.paid;
      }
    } else if move.Finalize? && PaysOut(race, move.clock, timing) {
      assert forall r: nat | r < |race.session.registrations| && race.session.registrations[r].isWinner ::
        r in Winners(race.session);
    }
  }

  // ---- Which ball is stored ----

  predicate StoresStaleBall(race: Race, move: Move, timing: Timing) {
    move.CommitBy? && WinsOnStaleBalls(race, move.i, move.clock, timing)
  }

  ghost predicate AllStoreLastBall(session: Session) {
    forall c | 0 <= c < |session.claims| && session.claims[c].status == VALID ::
      session.claims[c].winningBall == SnapshotBall(session.calls)
  }

  predicate StoresStaleBallAt(race: Race, moves: seq<Move>, k: nat, timing: Timing)
    requires k < |moves|
  {
    StoresStaleBall(PlayAll(race, moves[..k], timing), moves[k], timing)
  }

  ghost predicate NobodyStoresStaleBall(race: Race, moves: seq<Move>, timing: Timing) {
    forall k | 0 <= k < |moves| :: !StoresStaleBallAt(race, moves, k, timing)
  }

  /** In every race: all valid claims store the last called ball exactly when no ball was drawn between a
      winner's look and its commit. */
  lemma {:induction false} AllStoreLastBallIff(race: Race, moves: seq<Move>, timing: Timing)
    requires AtStart(race)
    ensures AllStoreLastBall(PlayAll(race, moves, timing).session) <==> NobodyStoresStaleBall(race, moves, timing)
  {
    if moves != [] {
      var n := |moves| - 1;
      AllStoreLastBallIff(race, moves[..n], timing);
      NextStoresIff(race, moves, timing, n);
      OneMoreBall(race, moves, timing, n);
    }
  }

  lemma {:induction false} NextStoresIff(race: Race, moves: seq<Move>, timing: Timing, n: nat)
    requires AtStart(race) && |moves| == n + 1
    ensures AllStoreLastBall(PlayAll(race, moves, timing).session)
       <==> AllStoreLastBall(PlayAll(race, moves[..n], timing).session) && !StoresStaleBallAt(race, moves, n, timing)
  {
    RaceStaysOk(race, moves[..n], timing);
    MoveStoresIff(PlayAll(race, moves[..n], timing), moves[n], timing);
  }

  lemma {:induction false} OneMoreBall(race: Race, moves: seq<Move>, timing: Timing, n: nat)
    requires |moves| == n + 1
    ensures NobodyStoresStaleBall(race, moves, timing)
       <==> NobodyStoresStaleBall(race, moves[..n], timing) && !StoresStaleBallAt(race, moves, n, timing)
  {
    forall k | 0 <= k < n
      ensures StoresStaleBallAt(race, moves[..n], k, timing) <==> StoresStaleBallAt(race, moves, k, timing)
    {
      assert moves[..n][..k] == moves[..k];
    }
  }

  lemma {:induction false} MoveStoresIff(race: Race, move: Move, timing: Timing)
    requires RaceOk(race)
    ensures AllStoreLastBall(Play(race, move, timing).session)
       <==> AllStoreLastBall(race.session) && !StoresStaleBall(race, move, timing)
  {
    if move.CommitBy? && MayCommit(race, move.i, move.clock) {
      CommitEffect(race, move.i, move.clock, timing);
      if Wins(race, move.i, move.clock, timing) {
        CommitStoresIff(race, move.i, move.clock, timing);
      }
    }
  }

  lemma {:induction false} CommitStoresIff(race: Race, i: nat, clock: int, timing: Timing)
    requires RaceOk(race) && Wins(race, i, clock, timing)
    ensures AllStoreLastBall(Play(race, CommitBy(i, clock), timing).session)
       <==> AllStoreLastBall(race.session) && !WinsOnStaleBalls(race, i, clock, timing)
  {
    var after, n := Play(race, CommitBy(i, clock), timing).session, |race.session.claims|;
    CommitEffect(race, i, clock, timing);
    BallsDiffer(race.claimers[i].memory.calls, race.session.calls);
    assert after.calls == race.session.calls && after.claims[..n] == race.session.claims;
    assert after.claims[n].winningBall == SnapshotBall(race.claimers[i].memory.calls);
    assert forall c | 0 <= c < n :: after.claims[c] == race.session.claims[c];
  }
}
