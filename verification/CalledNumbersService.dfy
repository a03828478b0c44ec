/** Calling balls: by hand in one transaction, or picked at random first and written later. */
module CalledNumbersServices {
  import opened Common
  import opened Games
  import opened WinningBalls
  import opened Rounds
  import opened Platform
  import opened Databases

  /** The auto-call columns of a session. */
  datatype Schedule = Schedule(autoCallEnabled: bool, nextAutoCallAt: Option<int>)

  predicate IsDue(schedule: Schedule, now: int) {
    schedule.autoCallEnabled && schedule.nextAutoCallAt.Some? && schedule.nextAutoCallAt.value <= now
  }

  class CalledNumbersService {
    const db: Database

    constructor (db: Database)
      ensures this.db == db
    {
      this.db := db;
    }

    /** Insert a called number; the unique keys refuse a number or an order used before. */
    method CreateCalledNumber(sid: nat, call: Call) returns (created: bool)
      requires sid < |db.sessions|
      modifies db`sessions
      ensures var s := old(db.sessions)[sid];
        && created == (!IsCalled(s.calls, call.ball.number) && !OrderTaken(s.calls, call.order))
        && db.sessions == if created then old(db.sessions)[sid := s.(calls := s.calls + [call])] else old(db.sessions)
    {
      var session := db.sessions[sid];
      created := !IsCalled(session.calls, call.ball.number) && !OrderTaken(session.calls, call.order);
      if created {
        db.UpdateSession(sid, session.(calls := session.calls + [call]));
      }
    }

    method CallNumber(sid: nat, ball: Ball) returns (called: bool)
      requires sid < |db.sessions|
      modifies db
      ensures called == Rounds.CallNumber(old(db.sessions[sid]), ball, old(db.now)).Some?
      ensures db.View() == TrySession(old(db.View()), sid, Rounds.CallNumber(old(db.sessions[sid]), ball, old(db.now)))
    {
      var session := db.sessions[sid];
      if session.status != PLAYING || !(1 <= ball.number <= ALL_NUMBERS) {
        return false;
      }
      if IsCalled(session.calls, ball.number) {
        return false;
      }
      called := CreateCalledNumber(sid, Call(ball, LatestOrder(session.calls) + 1, db.now));
    }

    /** Any number not called yet, and how many there are. */
    method QueryRandomRemainingNumber(sid: nat) returns (pick: Option<(int, nat)>)
      requires sid < |db.sessions|
      ensures pick.None? <==> Remaining(db.sessions[sid].calls) == {}
      ensures pick.Some? ==>
        pick.value.0 in Remaining(db.sessions[sid].calls) && pick.value.1 == |Remaining(db.sessions[sid].calls)|
    {
      var remaining: set<int> := {};
      for candidate := 1 to ALL_NUMBERS + 1
        invariant forall n :: n in remaining <==> 1 <= n < candidate && !IsCalled(db.sessions[sid].calls, n)
      {
        if !IsCalled(db.sessions[sid].calls, candidate) {
          remaining := remaining + {candidate};
        }
      }
      assert remaining == Remaining(db.sessions[sid].calls);
      if remaining == {} {
        return None;
      }
      var number :| number in remaining;
      return Some((number, |remaining|));
    }

    /** The later transaction, with a number picked from an earlier read. It claims the schedule first; the
        schedule of the session, which the tables here do not hold, comes in and goes out. A lost claim, like a
        number taken meanwhile, throws. */
    method CommitPickedNumber(sid: nat, number: int, isLastNumber: bool, schedule: Schedule, nextAutoCallAt: int)
      returns (called: bool, schedule': Schedule)
      requires sid < |db.sessions|
      modifies db
      ensures called <==> IsDue(schedule, db.now) && CommitDraw(old(db.sessions[sid]), number, old(db.now)).Some?
      ensures db.View() == if IsDue(schedule, old(db.now))
                           then TrySession(old(db.View()), sid, CommitDraw(old(db.sessions[sid]), number, old(db.now)))
                           else old(db.View())
      ensures !called ==> schedule' == schedule
      ensures called ==>
        schedule' == if isLastNumber then Schedule(false, None) else Schedule(true, Some(nextAutoCallAt))
      ensures called && (isLastNumber || db.now < nextAutoCallAt) ==> !IsDue(schedule', db.now)
      ensures called ==> !IsCalled(old(db.sessions[sid]).calls, number) && IsCalled(db.sessions[sid].calls, number)
      ensures DistinctNumbers(old(db.sessions[sid]).calls) ==> DistinctNumbers(db.sessions[sid].calls)
    {
      var session := db.sessions[sid];
      schedule' := schedule;
      if session.status != PLAYING || !schedule.autoCallEnabled || !IsDue(schedule, db.now) {
        return false, schedule;
      }
      called := CreateCalledNumber(sid, Call(Ball(LetterForNumber(number), number), |session.calls| + 1, db.now));
      if called {
        schedule' := if isLastNumber then Schedule(false, None) else schedule.(nextAutoCallAt := Some(nextAutoCallAt));
      }
      assert called ==> db.sessions[sid].calls[|session.calls|].ball.number == number;
    }
  }
}
