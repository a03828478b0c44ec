/** Opening the next registration, once the transition lock is held. */
module PostGameRegistrationOpeners {
  import opened Common
  import opened Games
  import opened GameQueue
  import opened Registering
  import opened Rounds
  import opened Opening
  import opened Databases

  class PostGameRegistrationOpenerService {
    const db: Database

    constructor (db: Database)
      ensures this.db == db
    {
      this.db := db;
    }

    /** Cancel every empty standard READY session but the head's, slots untouched. */
    method SoftRetireEmptyNonHeadReadySessions(head: nat)
      modifies db`sessions
      ensures db.sessions == RetireNonHeads(db.slots, old(db.sessions), head)
    {
      ghost var before := db.sessions;
      for i := 0 to |db.sessions|
        invariant |db.sessions| == |before|
        invariant forall k | 0 <= k < i :: db.sessions[k] == SoftRetire(db.slots, before[k], k == head)
        invariant forall k | i <= k < |before| :: db.sessions[k] == before[k]
      {
        var session := db.sessions[i];
        if i != head && StandardReady(db.slots, session) && !HasLiveCartelas(session) {
          db.UpdateSession(i, session.(status := CANCELLED, scheduledStartAt := None));
        }
      }
      assert db.sessions == RetireNonHeads(db.slots, before, head);
    }

    method OpenNextRegistration(options: OpenerOptions, recentlyFinished: bool, durationMs: int)
      modifies db
      ensures db.View() == OpenNext(old(db.View()), options, recentlyFinished, durationMs)
    {
      var live := AnyLive(db.sessions);
      if live && !options.deferred {
        return;
      }
      if !options.ignoreReviewGrace && recentlyFinished {
        return;
      }
      if DueBigGameSession(db.View()) {
        return;
      }
      var startsAt := if live then None else Some(db.now + durationMs);
      var head := HeadReady(db.slots, db.sessions);
      if head.Some? {
        SoftRetireEmptyNonHeadReadySessions(head.value);
        var session := db.sessions[head.value];
        if !live && session.scheduledStartAt.None? && db.slots[session.slotId].mode == AUTO {
          db.UpdateSession(head.value, session.(scheduledStartAt := startsAt));
        }
        return;
      }
      var queueHead := QueueHead(db.slots);
      if queueHead.None? || db.slots[queueHead.value].mode != AUTO {
        return;
      }
      var valid := IsSlotValidForReadySession(db.slots, queueHead.value);
      if !valid || AnyReadyOn(db.sessions, queueHead.value) {
        return;
      }
      db.sessions := db.sessions + [ReadySession(db.slots, queueHead.value, startsAt)];
    }

    /** The opener as the ending transactions call it: past the review time, and not at all when it cannot take
        the transition lock. */
    method OpenAfterEnd(deferred: bool, durationMs: Option<int>)
      modifies db
      ensures db.View() == if durationMs.None? then old(db.View())
                           else OpenNext(old(db.View()), OpenerOptions(true, deferred), false, durationMs.value)
    {
      if durationMs.Some? {
        OpenNextRegistration(OpenerOptions(true, deferred), false, durationMs.value);
      }
    }
  }
}
