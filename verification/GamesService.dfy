/** Registering players: one cartela, a confirmed reservation, and many at once in chunks. */
module GamesServices {
  import opened Common
  import opened Games
  import opened Wallets
  import opened Registering
  import opened Rounds
  import opened Safety
  import opened Bulk
  import opened Databases

  // ---- Chunks ----

  function Flatten<T>(chunks: seq<seq<T>>): seq<T> {
    if chunks == [] then [] else Flatten(chunks[..|chunks| - 1]) + chunks[|chunks| - 1]
  }

  /** Chunks in order, full but for the last one, none empty. */
  ghost predicate IsChunking<T>(items: seq<T>, chunkSize: nat, chunks: seq<seq<T>>) {
    && Flatten(chunks) == items && (chunks == [] <==> items == [])
    && (forall i | 0 <= i < |chunks| :: 0 < |chunks[i]| <= chunkSize)
    && (forall i | 0 <= i < |chunks| - 1 :: |chunks[i]| == chunkSize)
  }

  method ChunkCartelaItems<T>(items: seq<T>, chunkSize: nat) returns (chunks: seq<seq<T>>)
    requires chunkSize > 0
    ensures IsChunking(items, chunkSize, chunks)
  {
    if |items| == 0 {
      return [];
    }
    chunks := [];
    var index := 0;
    while index < |items|
      invariant 0 <= index && (index <= |items| || chunks != [])
      invariant Flatten(chunks) == items[..if index <= |items| then index else |items|]
      invariant forall i | 0 <= i < |chunks| :: 0 < |chunks[i]| <= chunkSize
      invariant forall i | 0 <= i < |chunks| :: |chunks[i]| == chunkSize || (i == |chunks| - 1 && index >= |items|)
      decreases |items| - index
    {
      var end := if index + chunkSize <= |items| then index + chunkSize else |items|;
      ghost var before := chunks;
      chunks := chunks + [items[index..end]];
      assert chunks[..|chunks| - 1] == before;
      assert items[..index] + items[index..end] == items[..end];
      index := index + chunkSize;
    }
    assert items[..|items|] == items;
  }

  // ---- Services ----

  datatype BulkResult =
    | BulkRejected(reason: Option<Refusal>)
    | BulkReport(successes: seq<nat>, failures: seq<nat>)

  predicate IsClosedReason(refusal: Refusal) {
    refusal.RegistrationClosed?
  }

  class GamesService {
    const db: Database

    constructor (db: Database)
      ensures this.db == db
    {
      this.db := db;
    }

    method RegisterCartela(sid: nat, user: nat, cartelaId: nat) returns (result: RegisterResult)
      requires References(db.View()) && sid < |db.sessions| && user < |db.books.wallets|
      modifies db
      ensures (db.View(), result) == RegisterOne(old(db.View()), sid, user, cartelaId, true)
    {
      var start := db.View();
      var session := db.sessions[sid];
      var slot := db.slots[session.slotId];
      var existing := FindRegistration(session.registrations, cartelaId);
      if existing.Some? && session.registrations[existing.value].userId == user {
        return AlreadyMine(existing.value);
      }
      var refusal := RegistrationRefusal(start, sid);
      if refusal.Some? {
        return Refused(refusal.value);
      }
      if cartelaId >= db.catalog {
        return Refused(CartelaNotFound);
      }
      if ShouldLockAgainstLiveRound(session, slot) && LockedByLiveRound(start, sid, cartelaId) {
        return Refused(LiveLocked);
      }
      if AtLimit(session, slot, user, true) {
        return Refused(LimitReached);
      }
      var hold := FindHold(session.holds, cartelaId, db.now);
      if hold.Some? && session.holds[hold.value].userId != user {
        return Refused(HeldByOther);
      }
      var plan := ResolveAccounting(session, slot.category, db.books.wallets[user].bonus);
      if existing.Some? {
        return Refused(AlreadyTaken);
      }
      result := TakeAndPay(sid, user, cartelaId, plan, hold);
    }

    /** Insert, pay, add to the pot, confirm the hold; a failed payment rolls everything back. */
    method TakeAndPay(sid: nat, user: nat, cartelaId: nat, plan: Accounting, hold: Option<nat>)
      returns (result: RegisterResult)
      requires sid < |db.sessions| && db.sessions[sid].slotId < |db.slots|
      requires hold.Some? ==> hold.value < |db.sessions[sid].holds|
      modifies db
      ensures var st := old(db.View());
        var s, category := st.sessions[sid], st.slots[st.sessions[sid].slotId].category;
        match ApplyPayment(st.books, user, sid, |s.registrations|, s, plan.source)
        case Failure(error) => db.View() == st && result == Refused(PaymentFailed(error))
        case Success(books) =>
          var seated := AddToPot(ConfirmHold(Seat(s, user, cartelaId, plan), hold), category, 1);
          && result == Registered(|s.registrations|)
          && db.View() == st.(sessions := st.sessions[sid := seated], books := books)
    {
      var start := db.View();
      var session := db.sessions[sid];
      var index := db.CreateRegistration(sid, RowFor(user, cartelaId, plan));
      var error := db.ApplyRegistrationPayment(user, sid, index, session, plan.source);
      if error.Some? {
        db.Rollback(start);
        return Refused(PaymentFailed(error.value));
      }
      if !db.slots[session.slotId].category.BONUS? {
        var revenue := session.companyRevenue + session.companyFeePerCartela;
        db.UpdateSession(sid, db.sessions[sid].(prizeAmount := session.prizeAmount + session.prizePerCartela,
                                                companyRevenue := revenue));
      }
      if hold.Some? {
        var held := db.sessions[sid].holds[hold.value];
        db.UpdateSession(sid,
                         db.sessions[sid].(holds := db.sessions[sid].holds[hold.value := held.(status := CONFIRMED)]));
      }
      return Registered(index);
    }

    method ConfirmReservation(sid: nat, hold: nat, user: nat) returns (result: RegisterResult)
      requires References(db.View()) && sid < |db.sessions| && user < |db.books.wallets|
      modifies db
      ensures (db.View(), result) == Registering.ConfirmReservation(old(db.View()), sid, hold, user)
    {
      var start := db.View();
      var session := db.sessions[sid];
      var slot := db.slots[session.slotId];
      if hold >= |session.holds| || session.holds[hold].userId != user {
        return Refused(NotYours);
      }
      if !IsCurrent(session.holds[hold], db.now) {
        return Refused(HoldNotActive);
      }
      var cartelaId := session.holds[hold].cartelaId;
      var refusal := RegistrationRefusal(start, sid);
      if refusal.Some? {
        return Refused(refusal.value);
      }
      if ShouldLockAgainstLiveRound(session, slot) && LockedByLiveRound(start, sid, cartelaId) {
        return Refused(LiveLocked);
      }
      if AtLimit(session, slot, user, true) {
        return Refused(LimitReached);
      }
      var existing := FindRegistration(session.registrations, cartelaId);
      if existing.Some? {
        return if session.registrations[existing.value].userId == user then AlreadyMine(existing.value)
          else Refused(AlreadyTaken);
      }
      var plan := ResolveAccounting(session, slot.category, db.books.wallets[user].bonus);
      result := TakeAndPay(sid, user, cartelaId, plan, Some(hold));
    }

    /** Insert a row and pay for it; a failed payment takes the row out again. */
    method CreateAndPay(sid: nat, user: nat, cartelaId: nat, plan: Accounting, session: Session)
      returns (error: Option<WalletError>)
      requires sid < |db.sessions|
      modifies db
      ensures var s := old(db.sessions[sid]);
        match ApplyPayment(old(db.books), user, sid, |s.registrations|, session, plan.source)
        case Failure(e) => db.View() == old(db.View()) && error == Some(e)
        case Success(books) =>
          && error.None?
          && db.View() == old(db.View()).(sessions := old(db.sessions)[sid := Seat(s, user, cartelaId, plan)],
                                          books := books)
    {
      var session' := db.sessions[sid];
      var index := db.CreateRegistration(sid, RowFor(user, cartelaId, plan));
      error := db.ApplyRegistrationPayment(user, sid, index, session, plan.source);
      if error.Some? {
        db.UpdateSession(sid, db.sessions[sid].(registrations := db.sessions[sid].registrations[..index]));
      }
    }

    method ConfirmReservations(sid: nat, pending: seq<nat>)
      requires sid < |db.sessions| && forall p | 0 <= p < |pending| :: pending[p] < |db.sessions[sid].holds|
      modifies db`sessions
      ensures db.sessions == old(db.sessions)[sid := ConfirmHolds(old(db.sessions)[sid], pending)]
    {
      var session := db.sessions[sid];
      ConfirmedHolds(session, pending);
      if |pending| > 0 {
        var confirmed := seq(|session.holds|, i requires 0 <= i < |session.holds| =>
          if i in pending then session.holds[i].(status := CONFIRMED) else session.holds[i]);
        assert confirmed == ConfirmHolds(session, pending).holds;
        db.UpdateSession(sid, session.(holds := confirmed));
      }
    }

    method IncrementPot(sid: nat, registeredInTx: nat)
      requires sid < |db.sessions| && db.sessions[sid].slotId < |db.slots|
      modifies db`sessions
      ensures var s := old(db.sessions)[sid];
        db.sessions == old(db.sessions)[sid := AddToPot(s, old(db.slots)[s.slotId].category, registeredInTx)]
    {
      var session := db.sessions[sid];
      if registeredInTx > 0 && !db.slots[session.slotId].category.BONUS? {
        db.UpdateSession(sid, session.(
          prizeAmount := session.prizeAmount + session.prizePerCartela * registeredInTx,
          companyRevenue := session.companyRevenue + session.companyFeePerCartela * registeredInTx));
      }
    }

    /** The writes after the loop: confirm the holds that were used, add to the pot once. */
    method CompleteChunk(sid: nat, pending: seq<nat>, registeredInTx: nat)
      requires sid < |db.sessions| && db.sessions[sid].slotId < |db.slots|
      requires forall p | 0 <= p < |pending| :: pending[p] < |db.sessions[sid].holds|
      modifies db`sessions
      ensures var s := old(db.sessions)[sid];
        var category := old(db.slots)[s.slotId].category;
        db.sessions == old(db.sessions)[sid := AddToPot(ConfirmHolds(s, pending), category, registeredInTx)]
    {
      ConfirmedHolds(db.sessions[sid], pending);
      ConfirmReservations(sid, pending);
      IncrementPot(sid, registeredInTx);
    }

    /** What a chunk reads before its loop. */
    method ReadChunk(sid: nat, user: nat, ids: seq<nat>) returns (lookups: Lookups, progress: Progress)
      requires References(db.View()) && sid < |db.sessions| && user < |db.books.wallets|
      ensures LookupsTrue(db.View(), sid, ids, lookups)
      ensures ProgressTrue(db.View(), sid, user, ids, 0, db.sessions[sid].registrations, db.books, progress)
    {
      var st := db.View();
      var session := db.sessions[sid];
      var slot := db.slots[session.slotId];
      var locked: set<nat> := if ShouldLockAgainstLiveRound(session, slot)
        then set c: nat | c in ids && LockedByLiveRound(st, sid, c) else {};
      var known: set<nat> := set c: nat | c in ids && c < db.catalog;
      var reservations: map<nat, nat> := map c: nat | c in ids && FindHold(session.holds, c, st.now).Some?
        :: FindHold(session.holds, c, st.now).value;
      lookups := Lookups(locked, known, reservations);
      var mine: set<nat> := set c: nat | c in ids && Owns(session.registrations, user, c);
      var taken: set<nat> := set c: nat | c in ids && IsTaken(session.registrations, c);
      var slots := if IsBonusLike(slot.category)
        then BonusCartelaLimit(slot.maxCartelasPerPlayer) - UserCount(session.registrations, user) else 0;
      var balance := if slot.category.NORMAL? then Some(db.books.wallets[user].bonus) else None;
      NothingDone(st, sid, user, ids);
      progress := Progress(Caches(mine, taken, slots, balance), [], 0, Report(false, [], []));
    }

    /** One item of the loop, decided from what the chunk remembers. */
    method RegisterItem(ghost st: State, sid: nat, user: nat, ids: seq<nat>, k: nat, session: Session, lookups: Lookups,
                        before: Progress) returns (progress: Progress)
      requires References(st) && sid < |st.sessions| && user < |st.books.wallets| && k < |ids|
      requires session == st.sessions[sid]
      requires RegistrationRefusal(st, sid).None? && LookupsTrue(st, sid, ids, lookups)
      requires IsDraftOf(st, sid, db.View())
      requires ProgressTrue(st, sid, user, ids, k, db.sessions[sid].registrations, db.books, before)
      modifies db
      ensures IsDraftOf(st, sid, db.View())
      ensures ProgressTrue(st, sid, user, ids, k + 1, db.sessions[sid].registrations, db.books, progress)
    {
      var category := db.slots[session.slotId].category;
      var cartelaId, report := ids[k], before.report;
      var rows := db.sessions[sid].registrations;
      CachesDecide(st, sid, user, ids, rows, db.books, before.caches, lookups, cartelaId);
      if report.walletFailed {
        ReportedProgress(st, sid, user, ids, k, rows, db.books, before);
        return before.(report := report.(failures := report.failures + [cartelaId]));
      }
      if cartelaId in before.caches.mine {
        ReportedProgress(st, sid, user, ids, k, rows, db.books, before);
        return before.(report := report.(successes := report.successes + [cartelaId]));
      }
      if CachesRefuse(session, category, user, cartelaId, rows, before.caches, lookups) {
        ReportedProgress(st, sid, user, ids, k, rows, db.books, before);
        return before.(report := report.(failures := report.failures + [cartelaId]));
      }
      progress := RegisterFreeItem(st, sid, user, ids, k, session, lookups, before);
    }

    /** An item nothing stands in the way of but the payment. */
    method RegisterFreeItem(ghost st: State, sid: nat, user: nat, ids: seq<nat>, k: nat, session: Session,
                            lookups: Lookups, before: Progress) returns (progress: Progress)
      requires References(st) && sid < |st.sessions| && user < |st.books.wallets| && k < |ids|
      requires session == st.sessions[sid]
      requires RegistrationRefusal(st, sid).None? && LookupsTrue(st, sid, ids, lookups)
      requires IsDraftOf(st, sid, db.View()) && !before.report.walletFailed
      requires ProgressTrue(st, sid, user, ids, k, db.sessions[sid].registrations, db.books, before)
      requires !Owns(db.sessions[sid].registrations, user, ids[k])
      requires !Unavailable(st, sid, user, db.sessions[sid].registrations, ids[k])
      modifies db
      ensures IsDraftOf(st, sid, db.View())
      ensures ProgressTrue(st, sid, user, ids, k + 1, db.sessions[sid].registrations, db.books, progress)
    {
      var cartelaId := ids[k];
      var hold := if cartelaId in lookups.reservations then Some(lookups.reservations[cartelaId]) else None;
      ghost var rows, books := db.sessions[sid].registrations, db.books;
      ghost var plan := ResolveAccounting(session, db.slots[session.slotId].category, db.books.wallets[user].bonus);
      var failed;
      progress, failed := PayForItem(sid, user, cartelaId, session, hold, before);
      AfterPaying(st, sid, user, ids, k, rows, books, before, plan, failed, db.sessions[sid].registrations, db.books);
    }

    /** The part of the loop that creates the row and pays. */
    method PayForItem(sid: nat, user: nat, cartelaId: nat, session: Session, hold: Option<nat>, before: Progress)
      returns (progress: Progress, failed: bool)
      requires sid < |db.sessions| && session.slotId < |db.slots| && user < |db.books.wallets|
      requires before.caches.remainingBonusBalance
            == if db.slots[session.slotId].category.NORMAL? then Some(db.books.wallets[user].bonus) else None
      modifies db
      ensures var st := old(db.View());
        var s := st.sessions[sid];
        var plan := ResolveAccounting(session, st.slots[session.slotId].category, st.books.wallets[user].bonus);
        match ApplyPayment(st.books, user, sid, |s.registrations|, session, plan.source)
        case Failure(_) =>
          failed && db.View() == st
          && progress == before.(report := Report(true, before.report.successes, before.report.failures + [cartelaId]))
        case Success(books) =>
          !failed && progress == Remember(before, hold, cartelaId, plan.source)
          && db.View() == st.(sessions := st.sessions[sid := Seat(s, user, cartelaId, plan)], books := books)
    {
      var caches, report := before.caches, before.report;
      var bonus :=
        if caches.remainingBonusBalance.Some? then caches.remainingBonusBalance.value else db.books.wallets[user].bonus;
      var plan := ResolveAccounting(session, db.slots[session.slotId].category, bonus);
      var error := CreateAndPay(sid, user, cartelaId, plan, session);
      failed := error.Some?;
      progress := if failed then before.(report := Report(true, report.successes, report.failures + [cartelaId]))
                  else Remember(before, hold, cartelaId, plan.source);
    }

    /** One transaction of the bulk: what it reads first, it keeps up to date itself while it registers. */
    method RegisterCartelasBulkChunk(sid: nat, user: nat, ids: seq<nat>)
      returns (closed: Option<Refusal>, successes: seq<nat>, failures: seq<nat>)
      requires References(db.View()) && sid < |db.sessions| && user < |db.books.wallets|
      modifies db
      ensures closed == RegistrationRefusal(old(db.View()), sid)
      ensures db.View() == RegisterAll(old(db.View()), sid, user, ids, false)
      ensures closed.None? ==> successes == Reported(old(db.View()), sid, user, ids).successes
      ensures closed.None? ==> failures == Reported(old(db.View()), sid, user, ids).failures
    {
      var st := db.View();
      var session := db.sessions[sid];
      closed := RegistrationRefusal(st, sid);
      if closed.Some? {
        ClosedChangesNothing(st, sid, user, ids);
        return closed, [], [];
      }
      var lookups, progress := ReadChunk(sid, user, ids);
      for k := 0 to |ids|
        invariant IsDraftOf(st, sid, db.View())
        invariant ProgressTrue(st, sid, user, ids, k, db.sessions[sid].registrations, db.books, progress)
      {
        progress := RegisterItem(st, sid, user, ids, k, session, lookups, progress);
      }
      assert ids[..|ids|] == ids;
      CompleteChunk(sid, progress.pending, progress.registeredInTx);
      successes, failures := progress.report.successes, progress.report.failures;
    }

    /** The whole request. Nothing is done when it is too long or registration has not opened; everything is
        reported as failed when registration is closed; otherwise the state is the one that registering the
        items one by one would give, each item is reported once, and the report is true. */
    method RegisterCartelasBulk(sid: nat, user: nat, ids: seq<nat>) returns (result: BulkResult)
      requires References(db.View()) && sid < |db.sessions| && user < |db.books.wallets|
      modifies db
      ensures result.BulkRejected? <==>
        |ids| > MAX_BULK_CARTELAS_PER_REQUEST
          || (ids != [] && RegistrationRefusal(old(db.View()), sid) == Some(RegistrationNotOpen))
      ensures result.BulkRejected? ==> db.View() == old(db.View())
      ensures result.BulkReport? ==>
        RequestSoFar(old(db.View()), sid, user, ids, db.View(), result.successes, result.failures)
    {
      if |ids| > MAX_BULK_CARTELAS_PER_REQUEST {
        return BulkRejected(None);
      }
      var chunks := ChunkCartelaItems(ids, BULK_COMMIT_CHUNK_SIZE);
      result := RegisterChunks(sid, user, chunks);
    }

    method RegisterChunks(sid: nat, user: nat, chunks: seq<seq<nat>>) returns (result: BulkResult)
      requires References(db.View()) && sid < |db.sessions| && user < |db.books.wallets|
      modifies db
      ensures result.BulkRejected?
        <==> chunks != [] && RegistrationRefusal(old(db.View()), sid) == Some(RegistrationNotOpen)
      ensures result.BulkRejected? ==> db.View() == old(db.View())
      ensures result.BulkReport? ==>
        RequestSoFar(old(db.View()), sid, user, Flatten(chunks), db.View(), result.successes, result.failures)
    {
      ghost var st := db.View();
      ghost var refusal := RegistrationRefusal(st, sid);
      var successes: seq<nat>, failures: seq<nat>, closedReason: Option<Refusal> := [], [], None;
      ghost var done: seq<nat> := [];
      NothingRequested(st, sid, user);
      for i := 0 to |chunks|
        invariant done == Flatten(chunks[..i])
        invariant RequestSoFar(st, sid, user, done, db.View(), successes, failures)
        invariant i > 0 ==> refusal != Some(RegistrationNotOpen)
        invariant closedReason == if i > 0 then refusal else None
      {
        var chunk := chunks[i];
        assert chunks[..i + 1][..i] == chunks[..i];
        if closedReason.Some? {
          ClosedChunk(st, sid, user, done, chunk, db.View(), successes, failures);
          failures := failures + chunk;
        } else {
          closedReason, successes, failures := RegisterNextChunk(st, sid, user, done, chunk, successes, failures);
          if closedReason.Some? && !IsClosedReason(closedReason.value) {
            return BulkRejected(closedReason);
          }
        }
        done := done + chunk;
      }
      assert chunks[..|chunks|] == chunks;
      return BulkReport(successes, failures);
    }

    /** One chunk of a request, its results added to those before. */
    method RegisterNextChunk(ghost st: State, sid: nat, user: nat, ghost done: seq<nat>, chunk: seq<nat>,
                             before: seq<nat>, failed: seq<nat>)
      returns (closed: Option<Refusal>, successes: seq<nat>, failures: seq<nat>)
      requires References(st) && sid < |st.sessions| && user < |st.books.wallets|
      requires RequestSoFar(st, sid, user, done, db.View(), before, failed)
      modifies db
      ensures closed == RegistrationRefusal(st, sid)
      ensures closed.Some? ==> db.View() == st
      ensures RequestSoFar(st, sid, user, done + chunk, db.View(), successes, failures)
    {
      ghost var now := db.View();
      RefusalStays(st, sid, user, done);
      if RegistrationRefusal(st, sid).Some? {
        ClosedChunk(st, sid, user, done, chunk, now, before, failed);
      } else {
        OpenChunk(st, sid, user, done, chunk, now, before, failed);
      }
      closed, successes, failures := RegisterCartelasBulkChunk(sid, user, chunk);
      successes := before + if closed.Some? then [] else successes;
      failures := failed + if closed.Some? then chunk else failures;
    }
  }
}
