/** Holding cartelas, and the sweep that expires holds in two steps. */
module CartelaReservations {
  import opened Common
  import opened Games
  import opened Registering
  import opened Platform
  import opened Databases

  class CartelaReservationService {
    const db: Database

    constructor (db: Database)
      ensures this.db == db
    {
      this.db := db;
    }

    /** Refresh the user's own current hold or create one, unless someone else's stands in the way. */
    method PlaceReservation(sid: nat, cartelaId: nat, user: nat, clock: int, holdMs: int) returns (placed: bool)
      requires sid < |db.sessions|
      modifies db`sessions
      ensures var s := old(db.sessions)[sid];
        var result := PlaceHold(s.holds, cartelaId, user, clock, clock + holdMs);
        placed == result.Some?
        && db.sessions == if placed then old(db.sessions)[sid := WithHolds(s, result.value)] else old(db.sessions)
    {
      var session := db.sessions[sid];
      var current := FindHold(session.holds, cartelaId, clock);
      if current.Some? {
        var hold := session.holds[current.value];
        if hold.userId != user {
          return false;
        }
        db.UpdateSession(sid, session.(holds := session.holds[current.value := hold.(expiresAt := clock + holdMs)]));
        return true;
      }
      if exists i | 0 <= i < |session.holds| ::
          session.holds[i].cartelaId == cartelaId && session.holds[i].status == ACTIVE {
        return false;
      }
      db.UpdateSession(sid, session.(holds := session.holds + [Hold(cartelaId, user, clock + holdMs, ACTIVE)]));
      return true;
    }

    method AssertReservable(sid: nat, user: nat, cartelaId: nat, clock: int) returns (allowed: bool)
      requires References(db.View()) && sid < |db.sessions|
      ensures allowed == !MayNotReserve(db.View().(now := clock), sid, user, cartelaId)
    {
      var session := db.sessions[sid];
      var slot := db.slots[session.slotId];
      if RegistrationRefusal(db.View().(now := clock), sid).Some? || cartelaId >= db.catalog {
        return false;
      }
      if ShouldLockAgainstLiveRound(session, slot) && LockedByLiveRound(db.View().(now := clock), sid, cartelaId) {
        return false;
      }
      if exists r | 0 <= r < |session.registrations| ::
           session.registrations[r].cartelaId == cartelaId && session.registrations[r].status != VOID {
        return false;
      }
      return !AtLimit(session, slot, user, true);
    }

    /** The clock is the one the request sampled before its transaction. */
    method ReserveCartela(sid: nat, user: nat, cartelaId: nat, keepOthers: bool, holdMs: int, clock: int)
      returns (reserved: bool)
      requires References(db.View()) && sid < |db.sessions|
      modifies db
      ensures var sampled := old(db.View()).(now := clock);
        var result := Registering.ReserveCartela(sampled, sid, user, cartelaId, keepOthers, holdMs);
        reserved == result.Some?
        && db.View()
          == if reserved then WithSession(old(db.View()), sid, WithHolds(old(db.sessions[sid]), result.value))
            else old(db.View())
    {
      var start := db.View();
      var session := db.sessions[sid];
      var allowed := AssertReservable(sid, user, cartelaId, clock);
      if !allowed {
        return false;
      }
      db.UpdateSession(sid, session.(holds := ExpireCartela(session.holds, cartelaId, clock)));
      var holds := db.sessions[sid].holds;
      if FindHold(holds, cartelaId, clock).None? && !keepOthers {
        db.UpdateSession(sid, session.(holds := ReleaseOthers(holds, user)));
      }
      reserved := PlaceReservation(sid, cartelaId, user, clock, holdMs);
      if !reserved {
        db.Rollback(start);
      }
    }

    /** One cartela of the bulk form, checked against what was read at its start. */
    method HoldIfFree(st: State, sid: nat, user: nat, cartelaId: nat, holdMs: int, clock: int)
      requires References(st) && sid < |st.sessions| && sid < |db.sessions|
      requires st.now == clock
      requires db.View().(now := clock) == WithSession(st, sid, WithHolds(st.sessions[sid], db.sessions[sid].holds))
      modifies db
      ensures db.now == old(db.now)
      ensures db.View().(now := clock) == WithSession(st, sid, WithHolds(st.sessions[sid],
                                                          ReserveInBulk(st, sid, old(db.sessions[sid].holds), user,
                                                              cartelaId, holdMs)))
    {
      var session := st.sessions[sid];
      var taken := exists r | 0 <= r < |session.registrations| ::
        session.registrations[r].cartelaId == cartelaId && session.registrations[r].status != VOID;
      var locked :=
        ShouldLockAgainstLiveRound(session, db.slots[session.slotId]) && LockedByLiveRound(st, sid, cartelaId);
      if cartelaId < db.catalog && !taken && !locked {
        var _ := PlaceReservation(sid, cartelaId, user, clock, holdMs);
      }
    }

    /** The bulk form: what cannot be held is skipped. */
    method ReserveCartelasBulk(sid: nat, user: nat, cartelaIds: seq<nat>, holdMs: int, clock: int) returns (open: bool)
      requires References(db.View()) && sid < |db.sessions|
      modifies db
      ensures var result := Registering.ReserveCartelas(old(db.View()).(now := clock), sid, user, cartelaIds, holdMs);
        open == result.Some?
        && db.View()
          == if open then WithSession(old(db.View()), sid, WithHolds(old(db.sessions[sid]), result.value))
            else old(db.View())
    {
      var st := db.View().(now := clock);
      var session := db.sessions[sid];
      if RegistrationRefusal(st, sid).Some? {
        return false;
      }
      ghost var expired := ExpireCartelas(session.holds, cartelaIds, clock);
      db.UpdateSession(sid, session.(holds := ExpireCartelas(session.holds, cartelaIds, clock)));
      for k := 0 to |cartelaIds|
        invariant db.now == old(db.now)
        invariant db.View().(now := clock)
          == WithSession(st, sid, WithHolds(session, ReserveEach(st, sid, expired, user, cartelaIds[..k], holdMs)))
      {
        assert cartelaIds[..k + 1][..k] == cartelaIds[..k];
        HoldIfFree(st, sid, user, cartelaIds[k], holdMs, clock);
      }
      assert cartelaIds[..|cartelaIds|] == cartelaIds;
      return true;
    }
  }

  class CartelaReservationExpirerService {
    const db: Database

    constructor (db: Database)
      ensures this.db == db
    {
      this.db := db;
    }

    /** The read of a sweep. */
    method FindDueReservations(sid: nat, clock: int) returns (due: set<nat>)
      requires sid < |db.sessions|
      ensures due == DueHolds(db.sessions[sid].holds, clock)
    {
      due := {};
      var holds := db.sessions[sid].holds;
      for i := 0 to |holds|
        invariant forall k: nat :: k in due <==> k < i && holds[k].status == ACTIVE && holds[k].expiresAt <= clock
      {
        if holds[i].status == ACTIVE && holds[i].expiresAt <= clock {
          due := due + {i};
        }
      }
    }

    /** Its write, later and by id alone. */
    method ExpireReservations(sid: nat, ids: set<nat>)
      requires sid < |db.sessions|
      modifies db
      ensures db.View()
        == WithSession(old(db.View()), sid,
                       WithHolds(old(db.sessions[sid]), ExpireByIds(old(db.sessions[sid].holds), ids)))
    {
      var session := db.sessions[sid];
      ghost var before := db.View();
      for i := 0 to |session.holds|
        invariant |db.sessions| == |before.sessions| && |db.sessions[sid].holds| == |session.holds|
        invariant db.View() == WithSession(before, sid, WithHolds(session, db.sessions[sid].holds))
        invariant forall k | 0 <= k < i :: db.sessions[sid].holds[k] == ExpireByIds(session.holds, ids)[k]
        invariant forall k | i <= k < |session.holds| :: db.sessions[sid].holds[k] == session.holds[k]
      {
        if i in ids {
          var holds := db.sessions[sid].holds;
          db.UpdateSession(sid, db.sessions[sid].(holds := holds[i := holds[i].(status := EXPIRED)]));
        }
      }
      assert db.sessions[sid].holds == ExpireByIds(session.holds, ids);
    }
  }
}
