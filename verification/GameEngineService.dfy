/** Starting a game, and ending one that nobody won. */
module GameEngineServices {
  import opened Common
  import opened Games
  import opened GameQueue
  import opened Registering
  import opened Rounds
  import opened Platform
  import opened Opening
  import opened Databases
  import opened PostGameRegistrationOpeners

  class GameEngineService {
    const db: Database
    const opener: PostGameRegistrationOpenerService

    constructor (db: Database)
      ensures this.db == db && opener.db == db
    {
      this.db := db;
      opener := new PostGameRegistrationOpenerService(db);
    }

    method StartGame(slotId: nat, config: StartConfig) returns (started: bool)
      requires slotId < |db.slots|
      modifies db
      ensures started == Rounds.StartGame(old(db.View()), slotId, config).Some?
      ensures db.View() == Try(old(db.View()), Rounds.StartGame(old(db.View()), slotId, config))
    {
      var start := db.View();
      if AnyLive(db.sessions) {
        return false;
      }
      var ready := FindReady(db.sessions, slotId);
      if !SlotReady(db.slots, db.sessions, db.now, slotId) {
        return false;
      }
      var slot := db.slots[slotId];
      db.UpdateSlot(slotId, slot.(status := PLAYING));
      if ready.Some? {
        db.UpdateSession(ready.value, db.sessions[ready.value].(status := PLAYING));
      } else {
        var fees := if slot.category.BONUS? then Some(SessionMoneyConfig(slot)) else ResolveFeeConfig(config, slot);
        if fees.None? {
          db.Rollback(start);
          return false;
        }
        db.sessions := db.sessions + [NewSession(slotId, fees.value, 0, PLAYING, None, None)];
      }
      return true;
    }

    method StartNoWinnerGrace(sid: nat, graceMs: int) returns (started: bool)
      requires sid < |db.sessions|
      modifies db
      ensures db.View()
        == WithSession(old(db.View()), sid, Rounds.StartNoWinnerGrace(old(db.sessions[sid]), old(db.now), graceMs))
      ensures started <==> db.sessions[sid] != old(db.sessions[sid])
    {
      var session := db.sessions[sid];
      started := session.status == PLAYING && session.winnerRegistration.None? && session.noWinnerGraceEndsAt.None?;
      if started {
        db.UpdateSession(sid, session.(noWinnerGraceEndsAt := Some(db.now + graceMs)));
      }
    }

    method FinalizeNoWinner(sid: nat, durationMs: Option<int>) returns (finalized: bool)
      requires References(db.View()) && sid < |db.sessions| && opener.db == db
      modifies db
      ensures finalized == Rounds.FinalizeNoWinner(old(db.sessions[sid]), old(db.now)).Some?
      ensures db.View() == EndOne(old(db.View()), sid, durationMs)
    {
      finalized := EndWithoutWinner(sid);
      if finalized {
        opener.OpenAfterEnd(false, durationMs);
      }
    }

    method EndWithoutWinner(sid: nat) returns (ended: bool)
      requires References(db.View()) && sid < |db.sessions|
      modifies db
      ensures ended == Rounds.FinalizeNoWinner(old(db.sessions[sid]), old(db.now)).Some?
      ensures db.View() == Try(old(db.View()), EndWithoutWinnerNow(old(db.View()), sid))
    {
      var session := db.sessions[sid];
      if (session.status != PLAYING && session.status != CHECKING) || session.winnerRegistration.Some?
         || session.noWinnerGraceEndsAt.None? || session.noWinnerGraceEndsAt.value > db.now {
        return false;
      }
      db.UpdateSession(sid, session.(status := NO_WINNER));
      db.UpdateSession(sid, db.sessions[sid].(registrations := BlockUndecided(session.registrations)));
      db.UpdateSession(sid, db.sessions[sid].(claims := InvalidatePending(session.claims, db.now)));
      db.slots := RestoreSlotAfterSession(db.slots, session.slotId);
      return true;
    }

    /** The sweep: find the due sessions, end each in its own transaction, count how many were ended. */
    method FinalizeExpiredNoWinnerSessions(durationMs: Option<int>) returns (finalizedCount: nat)
      requires References(db.View()) && opener.db == db
      modifies db
      ensures db.View() == EndAll(old(db.View()), DueSessions(old(db.sessions), old(db.now)), durationMs)
      ensures finalizedCount == |DueSessions(old(db.sessions), old(db.now))|
    {
      var due := DueSessions(db.sessions, db.now);
      ghost var st := db.View();
      finalizedCount := 0;
      for k := 0 to |due|
        invariant db.View() == EndAll(st, due[..k], durationMs) && finalizedCount == k
        invariant References(db.View())
      {
        NextDue(st, due, k, durationMs);
        var finalized := FinalizeNoWinner(due[k], durationMs);
        finalizedCount := finalizedCount + if finalized then 1 else 0;
      }
      assert due[..|due|] == due;
    }
  }

  /** One ending transaction, opener included. */
  ghost function EndOne(st: State, sid: nat, durationMs: Option<int>): State {
    if References(st) && sid < |st.sessions| then ThenOpen(st, EndWithoutWinnerNow(st, sid), false, durationMs) else st
  }

  ghost function EndAll(st: State, sids: seq<nat>, durationMs: Option<int>): State {
    if sids == [] then st else EndOne(EndAll(st, sids[..|sids| - 1], durationMs), sids[|sids| - 1], durationMs)
  }

  predicate IsDue(session: Session, now: int) {
    FinalizeNoWinner(session, now).Some?
  }

  /** What the sweep finds. */
  function DueSessions(sessions: seq<Session>, now: int): (due: seq<nat>)
    ensures forall k | 0 <= k < |due| :: due[k] < |sessions| && IsDue(sessions[due[k]], now)
    ensures forall i | 0 <= i < |sessions| && IsDue(sessions[i], now) :: i in due
    ensures forall j, k | 0 <= j < k < |due| :: due[j] < due[k]
  {
    if sessions == [] then []
    else
      var front := DueSessions(sessions[..|sessions| - 1], now);
      assert forall i | 0 <= i < |sessions| - 1 :: sessions[..|sessions| - 1][i] == sessions[i];
      front + if IsDue(sessions[|sessions| - 1], now) then [|sessions| - 1] else []
  }

  lemma {:induction false} EndOneKeepsReferences(st: State, sid: nat, durationMs: Option<int>)
    requires References(st)
    ensures References(EndOne(st, sid, durationMs)) && EndOne(st, sid, durationMs).now == st.now
    ensures |EndOne(st, sid, durationMs).sessions| >= |st.sessions|
  {
  }

  /** Ending one session, and opening the next registration, leaves every other live session as it was. */
  lemma {:induction false} OthersUntouched(st: State, sid: nat, durationMs: Option<int>, i: nat)
    requires References(st) && sid < |st.sessions| && i < |st.sessions| && i != sid && IsLive(st.sessions[i].status)
    ensures i < |EndOne(st, sid, durationMs).sessions| && EndOne(st, sid, durationMs).sessions[i] == st.sessions[i]
  {
    EndOneKeepsReferences(st, sid, durationMs);
  }

  /** So every session the sweep found is still due when its turn comes. */
  lemma {:induction false} NextDue(st: State, due: seq<nat>, k: nat, durationMs: Option<int>)
    requires References(st) && k < |due| && due == DueSessions(st.sessions, st.now)
    ensures var before := EndAll(st, due[..k], durationMs);
      && References(before) && due[k] < |before.sessions| && IsDue(before.sessions[due[k]], before.now)
      && EndAll(st, due[..k + 1], durationMs) == EndOne(before, due[k], durationMs)
      && References(EndAll(st, due[..k + 1], durationMs))
  {
    assert due[..k + 1][..k] == due[..k];
    StaysUntil(st, due, k, k, durationMs);
    EndOneKeepsReferences(EndAll(st, due[..k], durationMs), due[k], durationMs);
  }

  lemma {:induction false} StaysUntil(st: State, due: seq<nat>, done: nat, k: nat, durationMs: Option<int>)
    requires References(st) && done <= k < |due| && due == DueSessions(st.sessions, st.now)
    ensures var before := EndAll(st, due[..done], durationMs);
      && References(before) && before.now == st.now && due[k] < |st.sessions| <= |before.sessions|
      && before.sessions[due[k]] == st.sessions[due[k]]
  {
    if done > 0 {
      StaysUntil(st, due, done - 1, k, durationMs);
      assert due[..done][..done - 1] == due[..done - 1];
      var before := EndAll(st, due[..done - 1], durationMs);
      EndOneKeepsReferences(before, due[done - 1], durationMs);
      assert due[done - 1] < due[k];
      OthersUntouched(before, due[done - 1], durationMs, due[k]);
    }
  }
}
