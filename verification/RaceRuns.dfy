/** The race of claimers and the runs of the whole system; and two races that go wrong. */
module RaceRuns {
  import opened Common
  import opened Games
  import opened WinningBalls
  import opened Rounds
  import opened WindowRace
  import Registering
  import Platform
  import Runs
  import Conservation

  // ---- The race and the runs of the system ----

  /** In every run of the system the finalizer's transaction is the move `Finalize`: it pays the same cartelas
      and leaves the same session, or nothing. */
  lemma {:induction false} FinalizeIsPayout(start: State, events: seq<Platform.Event>, sid: nat,
                                            claimers: seq<Claimer>, timing: Timing, clock: int)
    requires Platform.Initial(start) && sid < |Runs.After(start, events).sessions|
    requires clock <= Runs.After(start, events).now
    ensures Registering.References(Runs.After(start, events))
    ensures var st := Runs.After(start, events);
      var before := Race(st.sessions[sid], st.now, claimers, []);
      var after := Play(before, Finalize(clock), timing);
      match FinalizeWinnerWindow(st, sid, timing.graceMs, clock)
      case Success(done) =>
        after == before.(session := done.sessions[sid], paid := Winners(st.sessions[sid]))
      case Failure(_) => after == before
  {
    Conservation.WindowClosesIff(start, events, sid, timing.graceMs, clock);
  }

  // ---- Races that go wrong ----

  const TIMING := Timing(10, 0)

  function Player(user: nat, won: bool): Registration {
    Registration(user, user, if won then WINNER else REGISTERED, won, MoneyWallet, 1000, 800, 200)
  }

  function Round(status: GameStatus, endsAt: Option<int>, rows: seq<Registration>, calls: seq<Call>,
                 claims: seq<Claim>): Session {
    Session(0, status, 1000, 800, 200, 0, 1600, 400, None, None, endsAt, None, None, None, rows, [], calls, claims)
  }

  function TwoPlayers(): Race {
    Race(Round(PLAYING, None, [Player(0, false), Player(1, false)], [], []), 0,
         [Claimer(0, Unread), Claimer(1, Unread)], [])
  }

  /** The first player opens the window, the second looks at it, the admin closes it early and the finalizer
      pays; then the second player's claim commits. */
  const LATE_JOINER := [ReadBy(0), CommitBy(0, 0), ReadBy(1), CloseEarly, Finalize(0), CommitBy(1, 0)]

  lemma {:induction false} NextMove(race: Race, moves: seq<Move>, timing: Timing, k: nat)
    requires k < |moves|
    ensures PlayAll(race, moves[..k + 1], timing) == Play(PlayAll(race, moves[..k], timing), moves[k], timing)
  {
    assert moves[..k + 1][..k] == moves[..k];
  }

  function FirstClaim(): Claim {
    Claim(0, VALID, 0, Some(0), None)
  }

  lemma {:induction false} FirstOpens(race: Race)
    requires race == TwoPlayers()
    ensures Play(Play(race, ReadBy(0), TIMING), CommitBy(0, 0), TIMING)
         == Race(Round(WINNER_WINDOW, Some(10), [Player(0, true), Player(1, false)], [], [FirstClaim()]), 0,
                 [Claimer(0, OpenedIt(10)), Claimer(1, Unread)], [])
  {
    var none: seq<Claim> := [];
    assert none + [FirstClaim()] == [FirstClaim()];
  }

  lemma {:induction false} SecondLooks(race: Race)
    requires race == Race(Round(WINNER_WINDOW, Some(10), [Player(0, true), Player(1, false)], [], [FirstClaim()]), 0,
                          [Claimer(0, OpenedIt(10)), Claimer(1, Unread)], [])
    ensures Play(Play(race, ReadBy(1), TIMING), CloseEarly, TIMING)
         == Race(Round(WINNER_WINDOW, Some(0), [Player(0, true), Player(1, false)], [], [FirstClaim()]), 0,
                 [Claimer(0, OpenedIt(10)), Claimer(1, Seen(WINNER_WINDOW, Some(10), [], 0))], [])
  {
  }

  lemma {:induction false} FirstIsPaid(race: Race)
    requires race.session == Round(WINNER_WINDOW, Some(0), [Player(0, true), Player(1, false)], [], [FirstClaim()])
    requires race.now == 0
    ensures var paid := Play(race, Finalize(0), TIMING);
      paid.claimers == race.claimers && paid.now == 0 && paid.paid == [0] && paid.session.status == FINISHED
      && paid.session.registrations == race.session.registrations && paid.session.claims == race.session.claims
  {
    var rows := race.session.registrations;
    assert WinnersBelow(rows, 0) == [];
    assert WinnersBelow(rows, 1) == [0];
    assert WinnersBelow(rows, 2) == [0];
  }

  lemma {:induction false} SecondJoins(race: Race)
    requires race.now == 0 && race.session.status == FINISHED && race.paid == [0]
    requires race.session.registrations == [Player(0, true), Player(1, false)]
    requires race.claimers == [Claimer(0, OpenedIt(10)), Claimer(1, Seen(WINNER_WINDOW, Some(10), [], 0))]
    ensures var end := Play(race, CommitBy(1, 0), TIMING);
      end.session.status == FINISHED && end.paid == [0] && end.claimers[1].memory == JoinedIt(10)
      && end.session.registrations == [Player(0, true), Player(1, true)]
  {
  }

  /** A winner of a finished round who is not paid. */
  lemma {:induction false} LateJoinerIsNotPaid()
    ensures AtStart(TwoPlayers())
    ensures var end := PlayAll(TwoPlayers(), LATE_JOINER, TIMING);
      end.session.status == FINISHED && end.session.registrations == [Player(0, true), Player(1, true)]
        && end.paid == [0]
  {
    var race := TwoPlayers();
    assert LATE_JOINER[..0] == [] && LATE_JOINER[..6] == LATE_JOINER;
    NextMove(race, LATE_JOINER, TIMING, 0);
    NextMove(race, LATE_JOINER, TIMING, 1);
    FirstOpens(race);
    NextMove(race, LATE_JOINER, TIMING, 2);
    NextMove(race, LATE_JOINER, TIMING, 3);
    SecondLooks(PlayAll(race, LATE_JOINER[..2], TIMING));
    NextMove(race, LATE_JOINER, TIMING, 4);
    FirstIsPaid(PlayAll(race, LATE_JOINER[..4], TIMING));
    NextMove(race, LATE_JOINER, TIMING, 5);
    SecondJoins(PlayAll(race, LATE_JOINER[..5], TIMING));
  }

  /** A ball is drawn between a claimer's look and its commit. */
  const BALL_BETWEEN := [ReadBy(0), Draw(Ball('B', 1)), CommitBy(0, 0)]

  lemma {:induction false} LookThenDraw(race: Race)
    requires race == TwoPlayers()
    ensures Play(Play(race, ReadBy(0), TIMING), Draw(Ball('B', 1)), TIMING)
         == race.(session := race.session.(calls := [Call(Ball('B', 1), 1, 0)]),
                  claimers := [Claimer(0, Seen(PLAYING, None, [], 0)), Claimer(1, Unread)])
  {
    var none: seq<Call> := [];
    assert none + [Call(Ball('B', 1), 1, 0)] == [Call(Ball('B', 1), 1, 0)];
  }

  lemma {:induction false} WinWithOldBalls(race: Race)
    requires race == TwoPlayers().(session := TwoPlayers().session.(calls := [Call(Ball('B', 1), 1, 0)]),
                                   claimers := [Claimer(0, Seen(PLAYING, None, [], 0)), Claimer(1, Unread)])
    ensures var end := Play(race, CommitBy(0, 0), TIMING);
      end.session.claims == [FirstClaim()] && end.session.calls == [Call(Ball('B', 1), 1, 0)]
  {
    var none: seq<Claim> := [];
    assert none + [FirstClaim()] == [FirstClaim()];
  }

  /** A valid claim that does not store the last called ball. */
  lemma {:induction false} BallBetweenIsMissed()
    ensures AtStart(TwoPlayers())
    ensures var end := PlayAll(TwoPlayers(), BALL_BETWEEN, TIMING).session;
      end.claims == [Claim(0, VALID, 0, Some(0), None)] && SnapshotBall(end.calls) == Some(Ball('B', 1))
  {
    var race := TwoPlayers();
    assert BALL_BETWEEN[..0] == [] && BALL_BETWEEN[..3] == BALL_BETWEEN;
    NextMove(race, BALL_BETWEEN, TIMING, 0);
    NextMove(race, BALL_BETWEEN, TIMING, 1);
    LookThenDraw(race);
    NextMove(race, BALL_BETWEEN, TIMING, 2);
    WinWithOldBalls(PlayAll(race, BALL_BETWEEN[..2], TIMING));
  }
}
