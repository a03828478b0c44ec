/** Bulk registration on values: what a chunk has to report, and why its cached facts stay true while it
    registers one cartela after another. */
module Bulk {
  import opened Common
  import opened Games
  import opened Wallets
  import opened Registering
  import opened Rounds
  import opened Safety

  const MAX_BULK_CARTELAS_PER_REQUEST: nat := 100
  const BULK_COMMIT_CHUNK_SIZE: nat := 20

  // ---- What is reported ----

  function OutcomeAt(st: State, sid: nat, user: nat, ids: seq<nat>): RegisterResult
    requires References(st) && sid < |st.sessions| && user < |st.books.wallets| && ids != []
  {
    RegisterOne(RegisterAll(st, sid, user, ids[..|ids| - 1], false), sid, user, ids[|ids| - 1], false).1
  }

  predicate IsPaymentFailure(result: RegisterResult) {
    result.Refused? && result.reason.PaymentFailed?
  }

  predicate IsOwned(result: RegisterResult) {
    result.Registered? || result.AlreadyMine?
  }

  datatype Report = Report(walletFailed: bool, successes: seq<nat>, failures: seq<nat>)

  /** One more item: a success when the player has the cartela and no payment has failed so far. */
  function NextReport(report: Report, cartelaId: nat, outcome: RegisterResult): Report {
    var ok := !report.walletFailed && IsOwned(outcome);
    Report(report.walletFailed || IsPaymentFailure(outcome),
           report.successes + (if ok then [cartelaId] else []),
           report.failures + if ok then [] else [cartelaId])
  }

  /** What the bulk reports of a list of items, and whether some item could not be paid for. */
  function Reported(st: State, sid: nat, user: nat, ids: seq<nat>): Report
    requires References(st) && sid < |st.sessions| && user < |st.books.wallets|
  {
    if ids == [] then Report(false, [], [])
    else NextReport(Reported(st, sid, user, ids[..|ids| - 1]), ids[|ids| - 1], OutcomeAt(st, sid, user, ids))
  }

  ghost predicate ReportsAll(report: Report, items: seq<nat>) {
    multiset(report.successes) + multiset(report.failures) == multiset(items)
  }

  lemma OneMoreReported(report: Report, items: seq<nat>, cartelaId: nat, outcome: RegisterResult)
    requires ReportsAll(report, items)
    ensures ReportsAll(NextReport(report, cartelaId, outcome), items + [cartelaId])
  {
  }

  lemma {:induction false} EachItemReportedOnce(st: State, sid: nat, user: nat, ids: seq<nat>)
    requires References(st) && sid < |st.sessions| && user < |st.books.wallets|
    ensures ReportsAll(Reported(st, sid, user, ids), ids)
  {
    if ids != [] {
      var front, last := ids[..|ids| - 1], ids[|ids| - 1];
      EachItemReportedOnce(st, sid, user, front);
      OneMoreReported(Reported(st, sid, user, front), front, last, OutcomeAt(st, sid, user, ids));
      assert ids == front + [last];
    }
  }

  predicate Owns(registrations: seq<Registration>, user: nat, cartelaId: nat) {
    var found := FindRegistration(registrations, cartelaId);
    found.Some? && registrations[found.value].userId == user
  }

  /** Rows are only ever appended, so what a user owns stays owned, and it is owned where it was found. */
  lemma {:induction false} FindInLonger(registrations: seq<Registration>, row: Registration, cartelaId: nat)
    ensures FindRegistration(registrations + [row], cartelaId)
         == if FindRegistration(registrations, cartelaId).Some? then FindRegistration(registrations, cartelaId)
            else if row.cartelaId == cartelaId then Some(|registrations|) else None
  {
    assert (registrations + [row])[..|registrations|] == registrations;
  }

  lemma {:induction false} OneItem(st: State, sid: nat, user: nat, cartelaId: nat, limitBigGames: bool, other: nat)
    requires References(st) && sid < |st.sessions| && user < |st.books.wallets|
    ensures var (after, result) := RegisterOne(st, sid, user, cartelaId, limitBigGames);
      && (IsOwned(result) <==> Owns(after.sessions[sid].registrations, user, cartelaId))
      && (Owns(st.sessions[sid].registrations, user, other) ==> Owns(after.sessions[sid].registrations, user, other))
      && (other != cartelaId && Owns(after.sessions[sid].registrations, user, other) ==>
            Owns(st.sessions[sid].registrations, user, other))
  {
    var (after, result) := RegisterOne(st, sid, user, cartelaId, limitBigGames);
    RegisterShape(st, sid, user, cartelaId, limitBigGames);
    if result.Registered? {
      var s, s' := st.sessions[sid], after.sessions[sid];
      assert s'.registrations == s.registrations + [s'.registrations[|s.registrations|]];
      FindInLonger(s.registrations, s'.registrations[|s.registrations|], cartelaId);
      FindInLonger(s.registrations, s'.registrations[|s.registrations|], other);
    }
  }

  /** A reported success is owned at the end; and unless the wallet failed, so are only those. */
  lemma {:induction false} ReportsAreTrue(st: State, sid: nat, user: nat, ids: seq<nat>, c: nat)
    requires References(st) && sid < |st.sessions| && user < |st.books.wallets|
    ensures var owned := Owns(RegisterAll(st, sid, user, ids, false).sessions[sid].registrations, user, c);
      && (c in Reported(st, sid, user, ids).successes ==> owned)
      && (c in ids && owned && !Reported(st, sid, user, ids).walletFailed ==>
          c in Reported(st, sid, user, ids).successes)
      && (Owns(st.sessions[sid].registrations, user, c) ==> owned)
      && (owned && !Owns(st.sessions[sid].registrations, user, c) ==> c in Reported(st, sid, user, ids).successes)
  {
    if ids != [] {
      var front, last := ids[..|ids| - 1], ids[|ids| - 1];
      ReportsAreTrue(st, sid, user, front, c);
      var before := RegisterAll(st, sid, user, front, false);
      OneItem(before, sid, user, last, false, c);
      assert ids == front + [last];
      if Reported(st, sid, user, front).walletFailed {
        FailureLasts(st, sid, user, front);
        PaymentStillFails(before, sid, user, last);
      }
    }
  }

  // ---- After a wallet failure ----

  /** The user cannot pay for any cartela of the session. */
  predicate CannotPay(st: State, sid: nat, user: nat)
    requires References(st) && sid < |st.sessions| && user < |st.books.wallets|
  {
    var s := st.sessions[sid];
    var plan := ResolveAccounting(s, st.slots[s.slotId].category, st.books.wallets[user].bonus);
    ApplyPayment(st.books, user, sid, |s.registrations|, s, plan.source).Failure?
  }

  lemma {:induction false} PaymentStillFails(st: State, sid: nat, user: nat, cartelaId: nat)
    requires References(st) && sid < |st.sessions| && user < |st.books.wallets| && CannotPay(st, sid, user)
    ensures RegisterOne(st, sid, user, cartelaId, false).0 == st
      && !RegisterOne(st, sid, user, cartelaId, false).1.Registered?
  {
    RegisterShape(st, sid, user, cartelaId, false);
  }

  lemma {:induction false} FailureMeansCannotPay(st: State, sid: nat, user: nat, cartelaId: nat)
    requires References(st) && sid < |st.sessions| && user < |st.books.wallets|
    requires IsPaymentFailure(RegisterOne(st, sid, user, cartelaId, false).1)
    ensures CannotPay(st, sid, user) && RegisterOne(st, sid, user, cartelaId, false).0 == st
  {
    RegisterShape(st, sid, user, cartelaId, false);
  }

  /** Once a payment has failed, every further item leaves the state as it is: stopping loses nothing. */
  lemma {:induction false} FailureLasts(st: State, sid: nat, user: nat, ids: seq<nat>)
    requires References(st) && sid < |st.sessions| && user < |st.books.wallets|
    requires Reported(st, sid, user, ids).walletFailed
    ensures CannotPay(RegisterAll(st, sid, user, ids, false), sid, user)
  {
    var front, last := ids[..|ids| - 1], ids[|ids| - 1];
    var before := RegisterAll(st, sid, user, front, false);
    if Reported(st, sid, user, front).walletFailed {
      FailureLasts(st, sid, user, front);
      PaymentStillFails(before, sid, user, last);
    } else {
      FailureMeansCannotPay(before, sid, user, last);
    }
  }

  /** Registering nothing while registration is closed. */
  lemma {:induction false} ClosedChangesNothing(st: State, sid: nat, user: nat, ids: seq<nat>)
    requires References(st) && sid < |st.sessions| && user < |st.books.wallets| && RegistrationRefusal(st, sid).Some?
    ensures RegisterAll(st, sid, user, ids, false) == st
  {
    if ids != [] {
      ClosedChangesNothing(st, sid, user, ids[..|ids| - 1]);
      RegisterShape(st, sid, user, ids[|ids| - 1], false);
    }
  }

  lemma RegisterAllLast(st: State, sid: nat, user: nat, ids: seq<nat>, limitBigGames: bool)
    requires References(st) && sid < |st.sessions| && user < |st.books.wallets| && ids != []
    ensures RegisterAll(st, sid, user, ids, limitBigGames)
         == RegisterOne(RegisterAll(st, sid, user, ids[..|ids| - 1], limitBigGames), sid, user, ids[|ids| - 1],
                        limitBigGames).0
  {
  }

  lemma {:induction false} RegisterAllAppends(st: State, sid: nat, user: nat, a: seq<nat>, b: seq<nat>,
                                              limitBigGames: bool)
    requires References(st) && sid < |st.sessions| && user < |st.books.wallets|
    ensures RegisterAll(RegisterAll(st, sid, user, a, limitBigGames), sid, user, b, limitBigGames)
         == RegisterAll(st, sid, user, a + b, limitBigGames)
  {
    if b == [] {
      assert a + b == a;
    } else {
      var front, last, both := b[..|b| - 1], b[|b| - 1], a + b;
      var mid := RegisterAll(st, sid, user, a, limitBigGames);
      assert both[..|both| - 1] == a + front && both[|both| - 1] == last;
      var x := RegisterAll(mid, sid, user, front, limitBigGames);
      assert x == RegisterAll(st, sid, user, both[..|both| - 1], limitBigGames) by {
        RegisterAllAppends(st, sid, user, a, front, limitBigGames);
      }
      assert RegisterAll(mid, sid, user, b, limitBigGames) == RegisterOne(x, sid, user, last, limitBigGames).0 by {
        RegisterAllLast(mid, sid, user, b, limitBigGames);
      }
      assert RegisterAll(st, sid, user, both, limitBigGames) == RegisterOne(x, sid, user, last, limitBigGames).0 by {
        RegisterAllLast(st, sid, user, both, limitBigGames);
      }
    }
  }

  // ---- The limit the bulk loop does not have ----

  /** Outside Big Games the bulk fold is the fold of single registrations. */
  lemma {:induction false} SameWithoutBigGames(st: State, sid: nat, user: nat, ids: seq<nat>)
    requires References(st) && sid < |st.sessions| && user < |st.books.wallets|
    requires !st.slots[st.sessions[sid].slotId].category.BIG_GAME?
    ensures RegisterAll(st, sid, user, ids, false) == RegisterAll(st, sid, user, ids, true)
  {
    if ids != [] {
      SameWithoutBigGames(st, sid, user, ids[..|ids| - 1]);
      LimitDecides(RegisterAll(st, sid, user, ids[..|ids| - 1], false), sid, user, ids[|ids| - 1]);
    }
  }

  function CountIn(st: State, sid: nat, user: nat): nat
    requires sid < |st.sessions|
  {
    UserCount(st.sessions[sid].registrations, user)
  }

  lemma {:induction false} CountAfterOne(st: State, sid: nat, user: nat, cartelaId: nat, limitBigGames: bool)
    requires References(st) && sid < |st.sessions| && user < |st.books.wallets|
    ensures var (after, result) := RegisterOne(st, sid, user, cartelaId, limitBigGames);
      && CountIn(after, sid, user) == CountIn(st, sid, user) + (if result.Registered? then 1 else 0)
      && (!result.Registered? ==> after == st)
      && (result.Registered? ==> !AtLimit(st.sessions[sid], st.slots[st.sessions[sid].slotId], user, limitBigGames))
  {
    var (after, result) := RegisterOne(st, sid, user, cartelaId, limitBigGames);
    RegisterShape(st, sid, user, cartelaId, limitBigGames);
    if result.Registered? {
      var s, s' := st.sessions[sid], after.sessions[sid];
      assert s'.registrations[..|s.registrations|] == s.registrations;
    }
  }

  lemma {:induction false} LimitDecides(st: State, sid: nat, user: nat, cartelaId: nat)
    requires References(st) && sid < |st.sessions| && user < |st.books.wallets|
    ensures var slot := st.slots[st.sessions[sid].slotId];
      var (free, freely) := RegisterOne(st, sid, user, cartelaId, false);
      var (limited, _) := RegisterOne(st, sid, user, cartelaId, true);
      limited == if freely.Registered? && slot.category.BIG_GAME? && slot.maxCartelasPerPlayer.Some?
                    && CountIn(st, sid, user) >= slot.maxCartelasPerPlayer.value then st else free
  {
  }

  lemma {:induction false} CountsGrow(st: State, sid: nat, user: nat, ids: seq<nat>, limitBigGames: bool)
    requires References(st) && sid < |st.sessions| && user < |st.books.wallets|
    ensures CountIn(st, sid, user) <= CountIn(RegisterAll(st, sid, user, ids, limitBigGames), sid, user)
    ensures var slot := st.slots[st.sessions[sid].slotId];
      var count := CountIn(RegisterAll(st, sid, user, ids, true), sid, user);
      slot.category.BIG_GAME? && slot.maxCartelasPerPlayer.Some? ==>
        count == CountIn(st, sid, user) || count <= slot.maxCartelasPerPlayer.value
  {
    if ids != [] {
      var front, last := ids[..|ids| - 1], ids[|ids| - 1];
      CountsGrow(st, sid, user, front, limitBigGames);
      CountAfterOne(RegisterAll(st, sid, user, front, limitBigGames), sid, user, last, limitBigGames);
      CountAfterOne(RegisterAll(st, sid, user, front, true), sid, user, last, true);
    }
  }

  /** In a Big Game, bulk and single registration agree exactly when bulk ends within the limit (or adds
      nothing): the bulk loop itself does not look at the limit. */
  lemma {:induction false} BigGameBulkAgreesIff(st: State, sid: nat, user: nat, ids: seq<nat>)
    requires References(st) && sid < |st.sessions| && user < |st.books.wallets|
    requires var slot := st.slots[st.sessions[sid].slotId]; slot.category.BIG_GAME? && slot.maxCartelasPerPlayer.Some?
    ensures var limit := st.slots[st.sessions[sid].slotId].maxCartelasPerPlayer.value;
      var bulk := RegisterAll(st, sid, user, ids, false);
      bulk == RegisterAll(st, sid, user, ids, true)
      <==> CountIn(bulk, sid, user) <= limit || CountIn(bulk, sid, user) == CountIn(st, sid, user)
  {
    CountsGrow(st, sid, user, ids, true);
    var bulk := RegisterAll(st, sid, user, ids, false);
    var limit := st.slots[st.sessions[sid].slotId].maxCartelasPerPlayer.value;
    if CountIn(bulk, sid, user) <= limit || CountIn(bulk, sid, user) == CountIn(st, sid, user) {
      WithinLimit(st, sid, user, ids);
    }
  }

  lemma {:induction false} WithinLimit(st: State, sid: nat, user: nat, ids: seq<nat>)
    requires References(st) && sid < |st.sessions| && user < |st.books.wallets|
    requires var slot := st.slots[st.sessions[sid].slotId]; slot.category.BIG_GAME? && slot.maxCartelasPerPlayer.Some?
    requires var count := CountIn(RegisterAll(st, sid, user, ids, false), sid, user);
      count <= st.slots[st.sessions[sid].slotId].maxCartelasPerPlayer.value || count == CountIn(st, sid, user)
    ensures RegisterAll(st, sid, user, ids, false) == RegisterAll(st, sid, user, ids, true)
  {
    if ids != [] {
      var front, last := ids[..|ids| - 1], ids[|ids| - 1];
      var before := RegisterAll(st, sid, user, front, false);
      CountAfterOne(before, sid, user, last, false);
      CountsGrow(st, sid, user, front, false);
      WithinLimit(st, sid, user, front);
      LimitDecides(before, sid, user, last);
    }
  }

  // ---- The state of a chunk that is under way ----

  function ConfirmHolds(session: Session, pending: seq<nat>): Session {
    if pending == [] then session
    else ConfirmHold(ConfirmHolds(session, pending[..|pending| - 1]), Some(pending[|pending| - 1]))
  }

  /** The chunk's rows and payments so far, completed by the holds to confirm and the pot to add at the end. */
  function Completed(st: State, sid: nat, registrations: seq<Registration>, books: Books, pending: seq<nat>,
                     count: nat): State
    requires References(st) && sid < |st.sessions|
  {
    var s := st.sessions[sid].(registrations := registrations);
    st.(sessions := st.sessions[sid := AddToPot(ConfirmHolds(s, pending), st.slots[s.slotId].category, count)],
        books := books)
  }

  /** Holds to confirm belong to cartelas the user has by now. */
  ghost predicate PendingOwned(s: Session, registrations: seq<Registration>, user: nat, pending: seq<nat>) {
    forall p | 0 <= p < |pending| :: pending[p] < |s.holds| && Owns(registrations, user, s.holds[pending[p]].cartelaId)
  }

  lemma {:induction false} ConfirmedHolds(session: Session, pending: seq<nat>)
    ensures var after := ConfirmHolds(session, pending);
      && after == session.(holds := after.holds) && |after.holds| == |session.holds|
      && (forall i | 0 <= i < |session.holds| ::
            after.holds[i] == if i in pending then session.holds[i].(status := CONFIRMED) else session.holds[i])
  {
    if pending != [] {
      ConfirmedHolds(session, pending[..|pending| - 1]);
      assert pending == pending[..|pending| - 1] + [pending[|pending| - 1]];
    }
  }

  /** Changing holds of other cartelas does not change which hold is found. */
  lemma {:induction false} FindHoldUnchanged(holds: seq<Hold>, holds': seq<Hold>, cartelaId: nat, now: int)
    requires |holds'| == |holds|
    requires forall i | 0 <= i < |holds| ::
      holds'[i].cartelaId == holds[i].cartelaId && (holds[i].cartelaId == cartelaId ==> holds'[i] == holds[i])
    ensures FindHold(holds', cartelaId, now) == FindHold(holds, cartelaId, now)
  {
    if holds != [] {
      FindHoldUnchanged(holds[..|holds| - 1], holds'[..|holds| - 1], cartelaId, now);
    }
  }

  /** Nothing the chunk reads beforehand changes while it registers. */
  lemma {:induction false} CachesStayTrue(st: State, sid: nat, user: nat, registrations: seq<Registration>,
                                          books: Books, pending: seq<nat>, count: nat, cartelaId: nat)
    requires References(st) && sid < |st.sessions|
    requires PendingOwned(st.sessions[sid], registrations, user, pending)
    ensures var now := Completed(st, sid, registrations, books, pending, count);
      && References(now) && |now.sessions| == |st.sessions| && now.sessions[sid].registrations == registrations
      && RegistrationRefusal(now, sid) == RegistrationRefusal(st, sid)
      && LockedByLiveRound(now, sid, cartelaId) == LockedByLiveRound(st, sid, cartelaId)
      && (!Owns(registrations, user, cartelaId) ==>
            FindHold(now.sessions[sid].holds, cartelaId, st.now) == FindHold(st.sessions[sid].holds, cartelaId, st.now))
  {
    var s := st.sessions[sid].(registrations := registrations);
    var now := Completed(st, sid, registrations, books, pending, count);
    ConfirmedHolds(s, pending);
    assert AnyLive(now.sessions) <==> AnyLive(st.sessions) by { LiveTheSame(st.sessions, now.sessions); }
    assert forall i | 0 <= i < |st.sessions| && i != sid :: now.sessions[i] == st.sessions[i];
    if !Owns(registrations, user, cartelaId) {
      FindHoldUnchanged(s.holds, now.sessions[sid].holds, cartelaId, st.now);
    }
  }

  lemma {:induction false} LiveTheSame(a: seq<Session>, b: seq<Session>)
    requires |a| == |b| && forall i | 0 <= i < |a| :: a[i].status == b[i].status
    ensures AnyLive(a) <==> AnyLive(b)
  {
    if AnyLive(a) {
      var i :| 0 <= i < |a| && IsLive(a[i].status);
      assert IsLive(b[i].status);
    }
  }

  /** One more row, one more hold to confirm, one more share of the pot. */
  lemma {:induction false} CompletedWithOneMore(st: State, sid: nat, registrations: seq<Registration>, books: Books,
                                                pending: seq<nat>, count: nat, row: Registration, hold: Option<nat>)
    requires References(st) && sid < |st.sessions|
    requires hold.Some? ==> hold.value < |st.sessions[sid].holds|
    ensures var now := Completed(st, sid, registrations, books, pending, count);
      var s, category := now.sessions[sid], st.slots[st.sessions[sid].slotId].category;
      AddToPot(ConfirmHold(s.(registrations := s.registrations + [row]), hold), category, 1)
      == Completed(st, sid, registrations + [row], books, pending + (if hold.Some? then [hold.value] else []),
                   count + 1).sessions[sid]
  {
    var s := st.sessions[sid].(registrations := registrations);
    var s' := st.sessions[sid].(registrations := registrations + [row]);
    var more := pending + if hold.Some? then [hold.value] else [];
    ConfirmedHolds(s, pending);
    ConfirmedHolds(s', pending);
    assert ConfirmHolds(s', pending).holds == ConfirmHolds(s, pending).holds;
    if hold.Some? {
      assert more[..|more| - 1] == pending;
    } else {
      assert more == pending;
    }
    Distribute(s.prizePerCartela, count, 1);
    Distribute(s.companyFeePerCartela, count, 1);
  }

  // ---- One item of the loop ----

  datatype Draft = Draft(registrations: seq<Registration>, books: Books, pending: seq<nat>, count: nat)

  /** The loop has dealt with the first `k` items: completing its draft gives what registering them one by
      one gives, and it has reported them. */
  ghost predicate InStep(st: State, sid: nat, user: nat, ids: seq<nat>, k: nat, draft: Draft, report: Report)
    requires References(st) && sid < |st.sessions| && user < |st.books.wallets| && k <= |ids|
  {
    && RegisterAll(st, sid, user, ids[..k], false)
       == Completed(st, sid, draft.registrations, draft.books, draft.pending, draft.count)
    && PendingOwned(st.sessions[sid], draft.registrations, user, draft.pending)
    && user < |draft.books.wallets|
    && report == Reported(st, sid, user, ids[..k])
  }

  lemma {:induction false} NothingDone(st: State, sid: nat, user: nat, ids: seq<nat>)
    requires References(st) && sid < |st.sessions| && user < |st.books.wallets|
    ensures InStep(st, sid, user, ids, 0, Draft(st.sessions[sid].registrations, st.books, [], 0), Report(false, [], []))
  {
    assert ids[..0] == [];
    assert st.sessions[sid] == st.sessions[sid].(registrations := st.sessions[sid].registrations);
    assert st == Completed(st, sid, st.sessions[sid].registrations, st.books, [], 0);
  }

  /** The next item on the model side. */
  lemma {:induction false} NextItem(st: State, sid: nat, user: nat, ids: seq<nat>, k: nat)
    requires References(st) && sid < |st.sessions| && user < |st.books.wallets| && k < |ids|
    ensures var before := RegisterAll(st, sid, user, ids[..k], false);
      var (after, outcome) := RegisterOne(before, sid, user, ids[k], false);
      && RegisterAll(st, sid, user, ids[..k + 1], false) == after
      && Reported(st, sid, user, ids[..k + 1]) == NextReport(Reported(st, sid, user, ids[..k]), ids[k], outcome)
  {
    assert ids[..k + 1][..k] == ids[..k];
  }

  /** An item that leaves the rows as they are. */
  lemma {:induction false} SkipItem(st: State, sid: nat, user: nat, ids: seq<nat>, k: nat, draft: Draft, report: Report)
    requires References(st) && sid < |st.sessions| && user < |st.books.wallets| && k < |ids|
    requires InStep(st, sid, user, ids, k, draft, report)
    requires var before := RegisterAll(st, sid, user, ids[..k], false);
        RegisterOne(before, sid, user, ids[k], false).0 == before
    ensures var outcome := RegisterOne(RegisterAll(st, sid, user, ids[..k], false), sid, user, ids[k], false).1;
      InStep(st, sid, user, ids, k + 1, draft, NextReport(report, ids[k], outcome))
  {
    NextItem(st, sid, user, ids, k);
  }

  lemma {:induction false} AfterFailure(st: State, sid: nat, user: nat, ids: seq<nat>, k: nat, draft: Draft,
                                        report: Report)
    requires References(st) && sid < |st.sessions| && user < |st.books.wallets| && k < |ids|
    requires InStep(st, sid, user, ids, k, draft, report) && report.walletFailed
    ensures InStep(st, sid, user, ids, k + 1, draft, report.(failures := report.failures + [ids[k]]))
  {
    FailureLasts(st, sid, user, ids[..k]);
    PaymentStillFails(RegisterAll(st, sid, user, ids[..k], false), sid, user, ids[k]);
    SkipItem(st, sid, user, ids, k, draft, report);
  }

  /** What the loop finds out from its caches before it creates a row. */
  predicate Unavailable(st: State, sid: nat, user: nat, registrations: seq<Registration>, cartelaId: nat)
    requires References(st) && sid < |st.sessions|
  {
    var s := st.sessions[sid];
    var slot := st.slots[s.slotId];
    var hold := FindHold(s.holds, cartelaId, st.now);
    || cartelaId >= st.catalog
    || (ShouldLockAgainstLiveRound(s, slot) && LockedByLiveRound(st, sid, cartelaId))
    || (IsBonusLike(slot.category) && UserCount(registrations, user) >= BonusCartelaLimit(slot.maxCartelasPerPlayer))
    || (hold.Some? && s.holds[hold.value].userId != user)
    || FindRegistration(registrations, cartelaId).Some?
  }

  /** The cases of registering one item while registration is open. */
  lemma {:induction false} RegisterCases(st: State, sid: nat, user: nat, cartelaId: nat)
    requires References(st) && sid < |st.sessions| && user < |st.books.wallets| && RegistrationRefusal(st, sid).None?
    ensures var (after, outcome) := RegisterOne(st, sid, user, cartelaId, false);
      var s, category := st.sessions[sid], st.slots[st.sessions[sid].slotId].category;
      var plan := ResolveAccounting(s, category, st.books.wallets[user].bonus);
      if Owns(s.registrations, user, cartelaId) then after == st && outcome.AlreadyMine?
      else if Unavailable(st, sid, user, s.registrations, cartelaId)
      then after == st && outcome.Refused? && !outcome.reason.PaymentFailed?
      else
        match ApplyPayment(st.books, user, sid, |s.registrations|, s, plan.source)
        case Failure(error) => after == st && outcome == Refused(PaymentFailed(error))
        case Success(books) =>
          var seated := ConfirmHold(Seat(s, user, cartelaId, plan), FindHold(s.holds, cartelaId, st.now));
          && outcome.Registered?
          && after == st.(sessions := st.sessions[sid := AddToPot(seated, category, 1)], books := books)
  {
  }

  lemma {:induction false} SameAvailability(st: State, sid: nat, user: nat, draft: Draft, cartelaId: nat)
    requires References(st) && sid < |st.sessions| && !Owns(draft.registrations, user, cartelaId)
    requires PendingOwned(st.sessions[sid], draft.registrations, user, draft.pending)
    ensures var now := Completed(st, sid, draft.registrations, draft.books, draft.pending, draft.count);
      References(now)
      && Unavailable(now, sid, user, draft.registrations, cartelaId)
        == Unavailable(st, sid, user, draft.registrations, cartelaId)
  {
    CachesStayTrue(st, sid, user, draft.registrations, draft.books, draft.pending, draft.count, cartelaId);
    CompletedKeepsColumns(st, sid, draft);
  }

  /** Registering an item at the completed draft, told from the caches. */
  lemma {:induction false} ItemOutcome(st: State, sid: nat, user: nat, draft: Draft, cartelaId: nat)
    requires References(st) && sid < |st.sessions| && user < |draft.books.wallets|
    requires RegistrationRefusal(st, sid).None?
    requires PendingOwned(st.sessions[sid], draft.registrations, user, draft.pending)
    ensures References(Completed(st, sid, draft.registrations, draft.books, draft.pending, draft.count))
    ensures var before := Completed(st, sid, draft.registrations, draft.books, draft.pending, draft.count);
      var (after, outcome) := RegisterOne(before, sid, user, cartelaId, false);
      var s := st.sessions[sid];
      var plan := ResolveAccounting(s, st.slots[s.slotId].category, draft.books.wallets[user].bonus);
      var hold := FindHold(s.holds, cartelaId, st.now);
      if Owns(draft.registrations, user, cartelaId) then after == before && outcome.AlreadyMine?
      else if Unavailable(st, sid, user, draft.registrations, cartelaId)
      then after == before && outcome.Refused? && !outcome.reason.PaymentFailed?
      else
        match ApplyPayment(draft.books, user, sid, |draft.registrations|, s, plan.source)
        case Failure(error) => after == before && outcome == Refused(PaymentFailed(error))
        case Success(books) =>
          outcome.Registered?
          && after == Completed(st, sid, draft.registrations + [RowFor(user, cartelaId, plan)], books,
                                draft.pending + (if hold.Some? then [hold.value] else []), draft.count + 1)
  {
    var before := Completed(st, sid, draft.registrations, draft.books, draft.pending, draft.count);
    CachesStayTrue(st, sid, user, draft.registrations, draft.books, draft.pending, draft.count, cartelaId);
    CompletedKeepsColumns(st, sid, draft);
    RegisterCases(before, sid, user, cartelaId);
    if !Owns(draft.registrations, user, cartelaId) {
      SameAvailability(st, sid, user, draft, cartelaId);
      var s := st.sessions[sid];
      var plan := ResolveAccounting(s, st.slots[s.slotId].category, draft.books.wallets[user].bonus);
      CompletedWithOneMore(st, sid, draft.registrations, draft.books, draft.pending, draft.count,
                           RowFor(user, cartelaId, plan), FindHold(s.holds, cartelaId, st.now));
    }
  }

  lemma {:induction false} CompletedKeepsColumns(st: State, sid: nat, draft: Draft)
    requires References(st) && sid < |st.sessions|
    requires forall p | 0 <= p < |draft.pending| :: draft.pending[p] < |st.sessions[sid].holds|
    ensures var before := Completed(st, sid, draft.registrations, draft.books, draft.pending, draft.count);
      var s := before.sessions[sid];
      && s.slotId == st.sessions[sid].slotId && s.status == st.sessions[sid].status
      && s.entryFee == st.sessions[sid].entryFee && s.prizePerCartela == st.sessions[sid].prizePerCartela
      && s.companyFeePerCartela == st.sessions[sid].companyFeePerCartela
      && |s.holds| == |st.sessions[sid].holds|
      && forall i | 0 <= i < |s.holds| :: s.holds[i].userId == st.sessions[sid].holds[i].userId
  {
    ConfirmedHolds(st.sessions[sid].(registrations := draft.registrations), draft.pending);
  }

  /** An item the caches decide. */
  lemma {:induction false} DecidedItem(st: State, sid: nat, user: nat, ids: seq<nat>, k: nat, draft: Draft,
                                       report: Report)
    requires References(st) && sid < |st.sessions| && user < |st.books.wallets| && k < |ids|
    requires InStep(st, sid, user, ids, k, draft, report) && !report.walletFailed && RegistrationRefusal(st, sid).None?
    requires Owns(draft.registrations, user, ids[k]) || Unavailable(st, sid, user, draft.registrations, ids[k])
    ensures InStep(st, sid, user, ids, k + 1, draft,
                   if Owns(draft.registrations, user, ids[k]) then report.(successes := report.successes + [ids[k]])
                   else report.(failures := report.failures + [ids[k]]))
  {
    ItemOutcome(st, sid, user, draft, ids[k]);
    SkipItem(st, sid, user, ids, k, draft, report);
  }

  /** An item that comes to paying. */
  lemma {:induction false} PaidItem(st: State, sid: nat, user: nat, ids: seq<nat>, k: nat, draft: Draft, report: Report,
                                    plan: Accounting, hold: Option<nat>, draft': Draft, report': Report)
    requires References(st) && sid < |st.sessions| && user < |st.books.wallets| && k < |ids|
    requires InStep(st, sid, user, ids, k, draft, report) && !report.walletFailed && RegistrationRefusal(st, sid).None?
    requires !Owns(draft.registrations, user, ids[k]) && !Unavailable(st, sid, user, draft.registrations, ids[k])
    requires plan
        == ResolveAccounting(st.sessions[sid], st.slots[st.sessions[sid].slotId].category,
                             draft.books.wallets[user].bonus)
    requires hold == FindHold(st.sessions[sid].holds, ids[k], st.now)
    requires ApplyPayment(draft.books, user, sid, |draft.registrations|, st.sessions[sid], plan.source).Success?
    requires draft' == Draft(draft.registrations + [RowFor(user, ids[k], plan)],
                             ApplyPayment(draft.books, user, sid, |draft.registrations|, st.sessions[sid],
                                          plan.source).value,
                             draft.pending + (if hold.Some? then [hold.value] else []), draft.count + 1)
    requires report' == report.(successes := report.successes + [ids[k]])
    ensures InStep(st, sid, user, ids, k + 1, draft', report')
  {
    ItemOutcome(st, sid, user, draft, ids[k]);
    NextItem(st, sid, user, ids, k);
    PendingGrows(st.sessions[sid], draft, user, ids[k], plan, hold, st.now);
    PaymentTakes(draft.books, user, sid, |draft.registrations|, st.sessions[sid], plan.source);
  }

  lemma {:induction false} UnpaidItem(st: State, sid: nat, user: nat, ids: seq<nat>, k: nat, draft: Draft,
                                      report: Report)
    requires References(st) && sid < |st.sessions| && user < |st.books.wallets| && k < |ids|
    requires InStep(st, sid, user, ids, k, draft, report) && !report.walletFailed && RegistrationRefusal(st, sid).None?
    requires !Owns(draft.registrations, user, ids[k]) && !Unavailable(st, sid, user, draft.registrations, ids[k])
    requires var s := st.sessions[sid];
      var plan := ResolveAccounting(s, st.slots[s.slotId].category, draft.books.wallets[user].bonus);
      ApplyPayment(draft.books, user, sid, |draft.registrations|, s, plan.source).Failure?
    ensures InStep(st, sid, user, ids, k + 1, draft, Report(true, report.successes, report.failures + [ids[k]]))
  {
    ItemOutcome(st, sid, user, draft, ids[k]);
    SkipItem(st, sid, user, ids, k, draft, report);
  }

  lemma {:induction false} PendingGrows(s: Session, draft: Draft, user: nat, cartelaId: nat, plan: Accounting,
                                        hold: Option<nat>, now: int)
    requires PendingOwned(s, draft.registrations, user, draft.pending) && hold == FindHold(s.holds, cartelaId, now)
    requires FindRegistration(draft.registrations, cartelaId).None?
    ensures PendingOwned(s, draft.registrations + [RowFor(user, cartelaId, plan)], user,
                         draft.pending + if hold.Some? then [hold.value] else [])
  {
    var row := RowFor(user, cartelaId, plan);
    var pending := draft.pending + if hold.Some? then [hold.value] else [];
    forall p | 0 <= p < |pending|
      ensures pending[p] < |s.holds| && Owns(draft.registrations + [row], user, s.holds[pending[p]].cartelaId)
    {
      FindInLonger(draft.registrations, row, s.holds[pending[p]].cartelaId);
    }
  }

  /** A registered row: found and not cancelled. */
  predicate IsTaken(registrations: seq<Registration>, cartelaId: nat) {
    var found := FindRegistration(registrations, cartelaId);
    found.Some? && registrations[found.value].status != VOID
  }

  /** What the loop knows without asking the database again. */
  datatype Caches = Caches(mine: set<nat>, taken: set<nat>, remainingBonusSlots: int,
                           remainingBonusBalance: Option<nat>)

  ghost predicate CachesTrue(slot: Slot, user: nat, ids: seq<nat>, registrations: seq<Registration>, books: Books,
                             caches: Caches) {
    && user < |books.wallets|
    && (forall c | c in ids :: c in caches.mine <==> Owns(registrations, user, c))
    && (forall c | c in ids :: c in caches.taken <==> IsTaken(registrations, c))
    && (IsBonusLike(slot.category) ==>
          caches.remainingBonusSlots == BonusCartelaLimit(slot.maxCartelasPerPlayer) - UserCount(registrations, user))
    && caches.remainingBonusBalance == if slot.category.NORMAL? then Some(books.wallets[user].bonus) else None
  }

  /** How the caches move when the user gets one more cartela. */
  lemma {:induction false} CachesAfterSeat(slot: Slot, user: nat, ids: seq<nat>, registrations: seq<Registration>,
                                           books: Books,
                                           caches: Caches, cartelaId: nat, plan: Accounting, books': Books)
    requires CachesTrue(slot, user, ids, registrations, books, caches)
    requires FindRegistration(registrations, cartelaId).None?
    requires |books'.wallets| == |books.wallets|
    requires plan.source == BonusCartela ==> slot.category.NORMAL? && books.wallets[user].bonus > 0
    requires books'.wallets[user].bonus == books.wallets[user].bonus - (if plan.source == BonusCartela then 1 else 0)
    ensures CachesTrue(slot, user, ids, registrations + [RowFor(user, cartelaId, plan)], books',
                       Caches(caches.mine + {cartelaId}, caches.taken + {cartelaId}, caches.remainingBonusSlots - 1,
                              if slot.category.NORMAL? then Some(books'.wallets[user].bonus) else None))
  {
    var after := registrations + [RowFor(user, cartelaId, plan)];
    forall c | c in ids
      ensures Owns(after, user, c) <==> c in caches.mine || c == cartelaId
      ensures IsTaken(after, c) <==> c in caches.taken || c == cartelaId
    {
      FindInLonger(registrations, RowFor(user, cartelaId, plan), c);
    }
    assert after[..|registrations|] == registrations;
  }

  /** A payment takes from one wallet, one way. */
  lemma {:induction false} PaymentTakes(books: Books, user: nat, sid: nat, index: nat, session: Session,
                                        source: PaymentSource)
    requires user < |books.wallets| && ApplyPayment(books, user, sid, index, session, source).Success?
    ensures var after := ApplyPayment(books, user, sid, index, session, source).value;
      && |after.wallets| == |books.wallets|
      && after.wallets[user].bonus == books.wallets[user].bonus - (if source == BonusCartela then 1 else 0)
  {
  }

  /** What the chunk looks up once. */
  datatype Lookups = Lookups(liveLocked: set<nat>, known: set<nat>, reservations: map<nat, nat>)

  ghost predicate LookupsTrue(st: State, sid: nat, ids: seq<nat>, lookups: Lookups)
    requires References(st) && sid < |st.sessions|
  {
    var s := st.sessions[sid];
    forall c | c in ids ::
      && (c in lookups.known <==> c < st.catalog)
      && (c in lookups.liveLocked
          <==> ShouldLockAgainstLiveRound(s, st.slots[s.slotId]) && LockedByLiveRound(st, sid, c))
      && (c in lookups.reservations <==> FindHold(s.holds, c, st.now).Some?)
      && (c in lookups.reservations ==> lookups.reservations[c] == FindHold(s.holds, c, st.now).value)
  }

  /** What the loop carries from item to item. */
  datatype Progress = Progress(caches: Caches, pending: seq<nat>, registeredInTx: nat, report: Report)

  ghost predicate ProgressTrue(st: State, sid: nat, user: nat, ids: seq<nat>, k: nat, registrations: seq<Registration>,
                               books: Books, progress: Progress)
    requires References(st) && sid < |st.sessions| && user < |st.books.wallets| && k <= |ids|
  {
    && InStep(st, sid, user, ids, k, Draft(registrations, books, progress.pending, progress.registeredInTx),
              progress.report)
    && CachesTrue(st.slots[st.sessions[sid].slotId], user, ids, registrations, books, progress.caches)
  }

  /** The transaction so far has changed only rows of the session and the books. */
  ghost predicate IsDraftOf(st: State, sid: nat, now: State)
    requires sid < |st.sessions|
  {
    && |now.sessions| == |st.sessions|
    && now == st.(sessions := st.sessions[sid := st.sessions[sid].(registrations := now.sessions[sid].registrations)],
                  books := now.books)
  }

  /** What the loop remembers after an item that was paid for. */
  function Remember(before: Progress, hold: Option<nat>, cartelaId: nat, source: PaymentSource): Progress {
    var balance := before.caches.remainingBonusBalance;
    Progress(Caches(before.caches.mine + {cartelaId}, before.caches.taken + {cartelaId},
                    before.caches.remainingBonusSlots - 1,
                    if source == BonusCartela && balance.Some? && balance.value > 0 then Some(balance.value - 1)
                        else balance),
             before.pending + (if hold.Some? then [hold.value] else []),
             before.registeredInTx + 1,
             before.report.(successes := before.report.successes + [cartelaId]))
  }

  lemma {:induction false} RememberedCaches(slot: Slot, user: nat, ids: seq<nat>, registrations: seq<Registration>,
                                            books: Books,
                                            s: Session, hold: Option<nat>, before: Progress, cartelaId: nat,
                                            plan: Accounting, books': Books)
    requires CachesTrue(slot, user, ids, registrations, books, before.caches)
    requires FindRegistration(registrations, cartelaId).None?
    requires plan == ResolveAccounting(s, slot.category, books.wallets[user].bonus)
    requires |books'.wallets| == |books.wallets|
    requires books'.wallets[user].bonus == books.wallets[user].bonus - (if plan.source == BonusCartela then 1 else 0)
    ensures CachesTrue(slot, user, ids, registrations + [RowFor(user, cartelaId, plan)], books',
                       Remember(before, hold, cartelaId, plan.source).caches)
  {
    CachesAfterSeat(slot, user, ids, registrations, books, before.caches, cartelaId, plan, books');
  }

  /** The checks of the loop before it creates a row, on what it remembers. */
  predicate CachesRefuse(session: Session, category: GameCategory, user: nat, cartelaId: nat,
                         registrations: seq<Registration>, caches: Caches, lookups: Lookups)
    requires cartelaId in lookups.reservations ==> lookups.reservations[cartelaId] < |session.holds|
  {
    || cartelaId in caches.taken || cartelaId !in lookups.known || cartelaId in lookups.liveLocked
    || (IsBonusLike(category) && caches.remainingBonusSlots <= 0)
    || (cartelaId in lookups.reservations && session.holds[lookups.reservations[cartelaId]].userId != user)
    || FindRegistration(registrations, cartelaId).Some?
  }

  /** An item that is reported without a row: after a failed payment, the player's already, or refused. */
  lemma {:induction false} ReportedProgress(st: State, sid: nat, user: nat, ids: seq<nat>, k: nat,
                                            registrations: seq<Registration>, books: Books, before: Progress)
    requires References(st) && sid < |st.sessions| && user < |st.books.wallets| && k < |ids|
    requires RegistrationRefusal(st, sid).None?
    requires ProgressTrue(st, sid, user, ids, k, registrations, books, before)
    requires before.report.walletFailed || Owns(registrations, user, ids[k])
        || Unavailable(st, sid, user, registrations, ids[k])
    ensures var report := before.report;
      ProgressTrue(st, sid, user, ids, k + 1, registrations, books,
                   before.(report := if !report.walletFailed && Owns(registrations, user, ids[k])
                                     then report.(successes := report.successes + [ids[k]])
                                     else report.(failures := report.failures + [ids[k]])))
  {
    var draft := Draft(registrations, books, before.pending, before.registeredInTx);
    if before.report.walletFailed {
      AfterFailure(st, sid, user, ids, k, draft, before.report);
    } else {
      DecidedItem(st, sid, user, ids, k, draft, before.report);
    }
  }

  lemma {:induction false} CachesDecide(st: State, sid: nat, user: nat, ids: seq<nat>, registrations: seq<Registration>,
                                        books: Books, caches: Caches, lookups: Lookups, cartelaId: nat)
    requires References(st) && sid < |st.sessions| && cartelaId in ids && LookupsTrue(st, sid, ids, lookups)
    requires CachesTrue(st.slots[st.sessions[sid].slotId], user, ids, registrations, books, caches)
    ensures cartelaId in caches.mine <==> Owns(registrations, user, cartelaId)
    ensures CachesRefuse(st.sessions[sid], st.slots[st.sessions[sid].slotId].category, user, cartelaId, registrations,
                         caches, lookups)
       <==> Unavailable(st, sid, user, registrations, cartelaId)
  {
  }

  lemma {:induction false} FailedProgress(st: State, sid: nat, user: nat, ids: seq<nat>, k: nat,
                                          registrations: seq<Registration>, books: Books, before: Progress)
    requires References(st) && sid < |st.sessions| && user < |st.books.wallets| && k < |ids|
    requires RegistrationRefusal(st, sid).None?
    requires ProgressTrue(st, sid, user, ids, k, registrations, books, before) && !before.report.walletFailed
    requires !Owns(registrations, user, ids[k]) && !Unavailable(st, sid, user, registrations, ids[k])
    requires var s := st.sessions[sid];
      var plan := ResolveAccounting(s, st.slots[s.slotId].category, books.wallets[user].bonus);
      ApplyPayment(books, user, sid, |registrations|, s, plan.source).Failure?
    ensures ProgressTrue(st, sid, user, ids, k + 1, registrations, books,
                         before.(report := Report(true, before.report.successes, before.report.failures + [ids[k]])))
  {
    UnpaidItem(st, sid, user, ids, k, Draft(registrations, books, before.pending, before.registeredInTx),
               before.report);
  }

  lemma {:induction false} PaidProgress(st: State, sid: nat, user: nat, ids: seq<nat>, k: nat,
                                        registrations: seq<Registration>, books: Books, before: Progress)
    requires References(st) && sid < |st.sessions| && user < |st.books.wallets| && k < |ids|
    requires RegistrationRefusal(st, sid).None?
    requires ProgressTrue(st, sid, user, ids, k, registrations, books, before) && !before.report.walletFailed
    requires !Owns(registrations, user, ids[k]) && !Unavailable(st, sid, user, registrations, ids[k])
    requires var s := st.sessions[sid];
      var plan := ResolveAccounting(s, st.slots[s.slotId].category, books.wallets[user].bonus);
      ApplyPayment(books, user, sid, |registrations|, s, plan.source).Success?
    ensures var s := st.sessions[sid];
      var plan := ResolveAccounting(s, st.slots[s.slotId].category, books.wallets[user].bonus);
      var after := ApplyPayment(books, user, sid, |registrations|, s, plan.source).value;
      ProgressTrue(st, sid, user, ids, k + 1, registrations + [RowFor(user, ids[k], plan)], after,
                   Remember(before, FindHold(s.holds, ids[k], st.now), ids[k], plan.source))
  {
    var s, hold := st.sessions[sid], FindHold(st.sessions[sid].holds, ids[k], st.now);
    var plan := ResolveAccounting(s, st.slots[s.slotId].category, books.wallets[user].bonus);
    var rows := registrations + [RowFor(user, ids[k], plan)];
    var after := ApplyPayment(books, user, sid, |registrations|, s, plan.source).value;
    var progress := Remember(before, hold, ids[k], plan.source);
    assert |after.wallets| == |books.wallets|
        && after.wallets[user].bonus == books.wallets[user].bonus - (if plan.source == BonusCartela then 1 else 0) by {
      PaymentTakes(books, user, sid, |registrations|, s, plan.source);
    }
    RememberedCaches(st.slots[s.slotId], user, ids, registrations, books, s, hold, before, ids[k], plan, after);
    PaidItem(st, sid, user, ids, k, Draft(registrations, books, before.pending, before.registeredInTx), before.report,
             plan, hold, Draft(rows, after, progress.pending, progress.registeredInTx), progress.report);
  }

  /** What the loop must remember, whichever way the payment went. */
  lemma {:induction false} AfterPaying(st: State, sid: nat, user: nat, ids: seq<nat>, k: nat, rows: seq<Registration>,
                                       books: Books,
                                       before: Progress, plan: Accounting, failed: bool, rows': seq<Registration>,
                                         books': Books)
    requires References(st) && sid < |st.sessions| && user < |st.books.wallets| && k < |ids|
    requires RegistrationRefusal(st, sid).None?
    requires ProgressTrue(st, sid, user, ids, k, rows, books, before) && !before.report.walletFailed
    requires !Owns(rows, user, ids[k]) && !Unavailable(st, sid, user, rows, ids[k])
    requires plan
        == ResolveAccounting(st.sessions[sid], st.slots[st.sessions[sid].slotId].category, books.wallets[user].bonus)
    requires match ApplyPayment(books, user, sid, |rows|, st.sessions[sid], plan.source)
             case Failure(_) => failed && rows' == rows && books' == books
             case Success(paid) => !failed && rows' == rows + [RowFor(user, ids[k], plan)] && books' == paid
    ensures var report := before.report;
      ProgressTrue(st, sid, user, ids, k + 1, rows', books',
                   if failed then before.(report := Report(true, report.successes, report.failures + [ids[k]]))
                   else Remember(before, FindHold(st.sessions[sid].holds, ids[k], st.now), ids[k], plan.source))
  {
    if failed {
      FailedProgress(st, sid, user, ids, k, rows, books, before);
    } else {
      PaidProgress(st, sid, user, ids, k, rows, books, before);
    }
  }

  // ---- From chunk to chunk ----

  lemma {:induction false} RefusalStays(st: State, sid: nat, user: nat, ids: seq<nat>)
    requires References(st) && sid < |st.sessions| && user < |st.books.wallets|
    ensures RegistrationRefusal(RegisterAll(st, sid, user, ids, false), sid) == RegistrationRefusal(st, sid)
  {
    if ids != [] {
      var before := RegisterAll(st, sid, user, ids[..|ids| - 1], false);
      RefusalStays(st, sid, user, ids[..|ids| - 1]);
      RegisterShape(before, sid, user, ids[|ids| - 1], false);
      LiveTheSame(before.sessions, RegisterAll(st, sid, user, ids, false).sessions);
    }
  }

  /** What a bulk request has told the player so far is true of the cartelas the player now has. */
  ghost predicate Told(start: seq<Registration>, now: seq<Registration>, user: nat, items: seq<nat>,
                       successes: seq<nat>, failures: seq<nat>)
  {
    && multiset(successes) + multiset(failures) == multiset(items)
    && (forall c: nat | c in successes :: Owns(now, user, c))
    && (forall c: nat | Owns(now, user, c) && !Owns(start, user, c) :: c in successes)
    && (forall c: nat | Owns(start, user, c) :: Owns(now, user, c))
  }

  lemma {:induction false} ChunkTold(st: State, sid: nat, user: nat, ids: seq<nat>)
    requires References(st) && sid < |st.sessions| && user < |st.books.wallets|
    ensures Told(st.sessions[sid].registrations, RegisterAll(st, sid, user, ids, false).sessions[sid].registrations,
                 user, ids, Reported(st, sid, user, ids).successes, Reported(st, sid, user, ids).failures)
  {
    EachItemReportedOnce(st, sid, user, ids);
    forall c: nat
      ensures var now := RegisterAll(st, sid, user, ids, false).sessions[sid].registrations;
        && (c in Reported(st, sid, user, ids).successes ==> Owns(now, user, c))
        && (Owns(now, user, c) && !Owns(st.sessions[sid].registrations, user, c) ==>
            c in Reported(st, sid, user, ids).successes)
        && (Owns(st.sessions[sid].registrations, user, c) ==> Owns(now, user, c))
    {
      ReportsAreTrue(st, sid, user, ids, c);
    }
  }

  lemma {:induction false} ToldTwice(a: seq<Registration>, b: seq<Registration>, c: seq<Registration>, user: nat,
                                     items: seq<nat>, successes: seq<nat>, failures: seq<nat>,
                                     items': seq<nat>, successes': seq<nat>, failures': seq<nat>)
    requires Told(a, b, user, items, successes, failures) && Told(b, c, user, items', successes', failures')
    ensures Told(a, c, user, items + items', successes + successes', failures + failures')
  {
  }

  /** The request after the items of its first chunks. */
  ghost predicate RequestSoFar(st: State, sid: nat, user: nat, done: seq<nat>, now: State, successes: seq<nat>,
                               failures: seq<nat>)
    requires References(st) && sid < |st.sessions| && user < |st.books.wallets|
  {
    && now == RegisterAll(st, sid, user, done, false)
    && Told(st.sessions[sid].registrations, now.sessions[sid].registrations, user, done, successes, failures)
    && (RegistrationRefusal(st, sid).Some? ==> now == st && successes == [] && failures == done)
  }

  lemma {:induction false} NothingRequested(st: State, sid: nat, user: nat)
    requires References(st) && sid < |st.sessions| && user < |st.books.wallets|
    ensures RequestSoFar(st, sid, user, [], st, [], [])
  {
  }

  lemma {:induction false} OpenChunk(st: State, sid: nat, user: nat, done: seq<nat>, chunk: seq<nat>, now: State,
                                     successes: seq<nat>, failures: seq<nat>)
    requires References(st) && sid < |st.sessions| && user < |st.books.wallets| && RegistrationRefusal(st, sid).None?
    requires RequestSoFar(st, sid, user, done, now, successes, failures)
    ensures RequestSoFar(st, sid, user, done + chunk, RegisterAll(now, sid, user, chunk, false),
                         successes + Reported(now, sid, user, chunk).successes, failures
                           + Reported(now, sid, user, chunk).failures)
  {
    var after := RegisterAll(now, sid, user, chunk, false);
    RegisterAllAppends(st, sid, user, done, chunk, false);
    ChunkTold(now, sid, user, chunk);
    ToldTwice(st.sessions[sid].registrations, now.sessions[sid].registrations, after.sessions[sid].registrations, user,
              done, successes, failures, chunk, Reported(now, sid, user, chunk).successes,
                Reported(now, sid, user, chunk).failures);
  }

  lemma {:induction false} ClosedChunk(st: State, sid: nat, user: nat, done: seq<nat>, chunk: seq<nat>, now: State,
                                       successes: seq<nat>, failures: seq<nat>)
    requires References(st) && sid < |st.sessions| && user < |st.books.wallets| && RegistrationRefusal(st, sid).Some?
    requires RequestSoFar(st, sid, user, done, now, successes, failures)
    ensures RegisterAll(now, sid, user, chunk, false) == now
    ensures RequestSoFar(st, sid, user, done + chunk, now, successes, failures + chunk)
  {
    ClosedChangesNothing(st, sid, user, chunk);
    ClosedChangesNothing(st, sid, user, done + chunk);
  }
}
