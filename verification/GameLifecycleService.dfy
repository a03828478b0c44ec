/** Cancelling a session: claim the status, add up what each player is owed, pay it back, release the slot. */
module GameLifecycleServices {
  import opened Common
  import opened Games
  import opened Wallets
  import opened GameQueue
  import opened Registering
  import opened Rounds
  import opened Platform
  import opened Databases
  import opened PostGameRegistrationOpeners

  datatype Totals = Totals(moneyCount: nat, bonusCount: nat)

  function TotalsOf(totals: map<nat, Totals>, user: nat): Totals {
    if user in totals then totals[user] else Totals(0, 0)
  }

  /** Each user's totals count the user's live cartelas by how they were paid. */
  ghost predicate TotalsTrue(registrations: seq<Registration>, totals: map<nat, Totals>) {
    forall u: nat :: TotalsOf(totals, u)
      == Totals(SourceCount(registrations, u, MoneyWallet), SourceCount(registrations, u, BonusCartela))
  }

  function AddRow(totals: map<nat, Totals>, row: Registration): map<nat, Totals> {
    var own := TotalsOf(totals, row.userId);
    match row.source
    case BonusCartela => totals[row.userId := own.(bonusCount := own.bonusCount + 1)]
    case MoneyWallet => totals[row.userId := own.(moneyCount := own.moneyCount + 1)]
    case NoPayment => totals[row.userId := own]
  }

  lemma {:induction false} OneMoreTotal(registrations: seq<Registration>, i: nat, totals: map<nat, Totals>)
    requires i < |registrations| && TotalsTrue(registrations[..i], totals)
    ensures TotalsTrue(registrations[..i + 1],
                       if registrations[i].status == VOID then totals else AddRow(totals, registrations[i]))
  {
    var after := if registrations[i].status == VOID then totals else AddRow(totals, registrations[i]);
    forall u: nat
      ensures TotalsOf(after, u)
        == Totals(SourceCount(registrations[..i + 1], u, MoneyWallet),
                  SourceCount(registrations[..i + 1], u, BonusCartela))
    {
      assert TotalsOf(totals, u)
        == Totals(SourceCount(registrations[..i], u, MoneyWallet), SourceCount(registrations[..i], u, BonusCartela));
      CountNext(registrations, i, u, MoneyWallet);
      CountNext(registrations, i, u, BonusCartela);
    }
  }

  lemma {:induction false} CountNext(registrations: seq<Registration>, i: nat, user: nat, source: PaymentSource)
    requires i < |registrations|
    ensures SourceCount(registrations[..i + 1], user, source)
      == SourceCount(registrations[..i], user, source)
         + if registrations[i].userId == user && registrations[i].source == source && registrations[i].status != VOID
           then 1 else 0
  {
    assert registrations[..i + 1][..i] == registrations[..i];
  }

  /** What each user is owed. */
  datatype Owed = Owed(money: nat, bonus: nat)

  function PaidWallet(wallet: Wallet, owed: Owed, already: bool): Wallet {
    Wallet(wallet.money + (if already then 0 else owed.money), wallet.bonus + owed.bonus)
  }

  ghost predicate IsDue(owed: seq<Owed>, sid: nat, done: set<nat>, key: LedgerKey) {
    key.Refund? && key.sessionId == sid && key.userId in done && key.userId < |owed| && owed[key.userId].money > 0
  }

  /** The books once the users in `done` have what they are owed. */
  ghost predicate PaidOut(before: Books, after: Books, sid: nat, owed: seq<Owed>, done: set<nat>) {
    && |owed| == |before.wallets| == |after.wallets|
    && (forall u | 0 <= u < |owed| :: after.wallets[u]
          == if u in done then PaidWallet(before.wallets[u], owed[u], Refund(u, sid) in before.ledger)
            else before.wallets[u])
    && (forall key :: key in after.ledger <==> key in before.ledger || IsDue(owed, sid, done, key))
    && (forall key | key in after.ledger :: after.ledger[key]
          == if key in before.ledger then before.ledger[key] else if IsDue(owed, sid, done, key)
            then owed[key.userId].money else 0)
  }

  /** Paying one more user: a credit under the user's refund key when money is owed, and the bonus cartelas. */
  lemma {:induction false} OneMorePaid(books: Books, before: Books, sid: nat, owed: seq<Owed>, done: set<nat>,
                                       user: nat, credited: Books)
    requires PaidOut(books, before, sid, owed, done) && user !in done && user < |owed|
    requires if owed[user].money > 0
             then CreditWallet(before, user, owed[user].money, Refund(user, sid)) == Success(credited)
             else credited == before
    ensures user < |credited.wallets|
    ensures PaidOut(books, credited.(wallets := credited.wallets[user := credited.wallets[user].(
                                       bonus := credited.wallets[user].bonus + owed[user].bonus)]),
                    sid, owed, done + {user})
  {
    assert !IsDue(owed, sid, done, Refund(user, sid));
    assert forall key ::
      IsDue(owed, sid, done + {user}, key)
      <==> IsDue(owed, sid, done, key) || (key == Refund(user, sid) && owed[user].money > 0);
  }

  function OwedTo(session: Session, users: nat): seq<Owed> {
    seq(users,
        u requires 0 <= u < users => Owed(MoneyRefund(session, u), SourceCount(session.registrations, u, BonusCartela)))
  }

  function UsersBelow(n: nat): (users: set<nat>)
    ensures forall u :: u in users <==> 0 <= u < n
  {
    if n == 0 then {} else UsersBelow(n - 1) + {n - 1}
  }

  /** Users who are owed nothing make no difference. */
  lemma {:induction false} SamePayOut(books: Books, a: Books, b: Books, sid: nat, owed: seq<Owed>, done: set<nat>)
    requires PaidOut(books, a, sid, owed, done) && PaidOut(books, b, sid, owed, UsersBelow(|owed|))
    requires forall u | 0 <= u < |owed| && u !in done :: owed[u] == Owed(0, 0)
    ensures a == b
  {
    assert a.wallets == b.wallets;
    assert forall key: LedgerKey :: IsDue(owed, sid, done, key) <==> IsDue(owed, sid, UsersBelow(|owed|), key);
    assert a.ledger == b.ledger;
  }

  lemma {:induction false} RefundAllPaysOut(books: Books, sid: nat, session: Session)
    requires session.entryFee > 0
    ensures PaidOut(books, RefundAll(books, sid, session), sid, OwedTo(session, |books.wallets|),
                    UsersBelow(|books.wallets|))
  {
    var owed, users := OwedTo(session, |books.wallets|), UsersBelow(|books.wallets|);
    var goal := RefundAll(books, sid, session);
    forall u | 0 <= u < |owed|
      ensures goal.wallets[u] == PaidWallet(books.wallets[u], owed[u], Refund(u, sid) in books.ledger)
    {
    }
    forall key: LedgerKey
      ensures key in goal.ledger <==> key in books.ledger || IsDue(owed, sid, users, key)
      ensures key in goal.ledger ==>
        goal.ledger[key]
          == if key in books.ledger then books.ledger[key] else if IsDue(owed, sid, users, key)
            then owed[key.userId].money else 0
    {
      RefundKey(books, sid, session, key);
    }
  }

  lemma RefundKey(books: Books, sid: nat, session: Session, key: LedgerKey)
    requires session.entryFee > 0
    ensures var ledger := RefundAll(books, sid, session).ledger;
      var due :=
        key.Refund? && key.sessionId == sid && key.userId < |books.wallets| && MoneyRefund(session, key.userId) > 0;
      && (key in ledger <==> key in books.ledger || due)
      && (key in ledger ==>
          ledger[key]
            == if key in books.ledger then books.ledger[key] else if due then MoneyRefund(session, key.userId) else 0)
  {
  }

  /** Users without totals are owed nothing, so paying those in the totals pays all. */
  lemma {:induction false} EveryonePaid(books: Books, after: Books, sid: nat, session: Session,
                                        totals: map<nat, Totals>)
    requires TotalsTrue(session.registrations, totals) && session.entryFee > 0
    requires PaidOut(books, after, sid, OwedTo(session, |books.wallets|), totals.Keys)
    ensures after == RefundAll(books, sid, session)
  {
    var owed := OwedTo(session, |books.wallets|);
    forall u | 0 <= u < |owed| && u !in totals
      ensures owed[u] == Owed(0, 0)
    {
      assert TotalsOf(totals, u) == Totals(0, 0);
    }
    RefundAllPaysOut(books, sid, session);
    SamePayOut(books, after, RefundAll(books, sid, session), sid, owed, totals.Keys);
  }

  lemma {:induction false} OwedByTotals(session: Session, totals: map<nat, Totals>, users: nat, user: nat)
    requires TotalsTrue(session.registrations, totals) && session.entryFee > 0 && user in totals && user < users
    ensures OwedTo(session, users)[user] == Owed(session.entryFee * totals[user].moneyCount, totals[user].bonusCount)
    ensures totals[user].moneyCount > 0 <==> OwedTo(session, users)[user].money > 0
  {
    assert TotalsOf(totals, user) == totals[user];
    if totals[user].moneyCount > 0 {
      ProductPositive(session.entryFee, totals[user].moneyCount);
    }
  }

  lemma ProductPositive(a: nat, b: nat)
    requires a > 0 && b > 0
    ensures a * b > 0
  {
  }

  datatype CancelResult = Cancelled | Aborted | NotCancellable

  class GameLifecycleService {
    const db: Database
    const opener: PostGameRegistrationOpenerService

    constructor (db: Database)
      ensures this.db == db && opener.db == db
    {
      this.db := db;
      opener := new PostGameRegistrationOpenerService(db);
    }

    method AddUp(registrations: seq<Registration>) returns (totals: map<nat, Totals>)
      ensures TotalsTrue(registrations, totals)
      ensures forall u | u in totals :: exists r | 0 <= r < |registrations| :: registrations[r].userId == u
    {
      totals := map[];
      for i := 0 to |registrations|
        invariant TotalsTrue(registrations[..i], totals)
        invariant forall u | u in totals :: exists r | 0 <= r < i :: registrations[r].userId == u
      {
        OneMoreTotal(registrations, i, totals);
        if registrations[i].status != VOID {
          totals := AddRow(totals, registrations[i]);
        }
      }
      assert registrations[..|registrations|] == registrations;
    }

    /** Pay back every user of the totals, in any order. */
    method PayRefunds(sid: nat, session: Session, totals: map<nat, Totals>)
      requires TotalsTrue(session.registrations, totals) && session.entryFee > 0
      requires forall u | u in totals :: u < |db.books.wallets|
      modifies db`books
      ensures db.books == RefundAll(old(db.books), sid, session)
    {
      ghost var books, owed := db.books, OwedTo(session, |db.books.wallets|);
      var users := totals.Keys;
      while users != {}
        invariant users <= totals.Keys
        invariant PaidOut(books, db.books, sid, owed, totals.Keys - users)
        decreases users
      {
        ghost var done, before := totals.Keys - users, db.books;
        var user :| user in users;
        OwedByTotals(session, totals, |books.wallets|, user);
        var amount := session.entryFee * totals[user].moneyCount;
        if totals[user].moneyCount > 0 {
          var _ := db.CreditWallet(user, amount, Refund(user, sid));
        }
        OneMorePaid(books, before, sid, owed, done, user, db.books);
        var wallet := db.books.wallets[user];
        var refunded := wallet.(bonus := wallet.bonus + totals[user].bonusCount);
        db.books := db.books.(wallets := db.books.wallets[user := refunded]);
        users := users - {user};
        assert totals.Keys - users == done + {user};
      }
      assert totals.Keys - {} == totals.Keys;
      EveryonePaid(books, db.books, sid, session, totals);
    }

    /** All or nothing: the cancelled state with every refund, or, for a session that is not open for it or
        has players when the caller does not want that, no change. */
    method CancelSession(sid: nat, requeueSlot: bool, abortIfPlayers: bool, durationMs: Option<int>)
      returns (result: CancelResult)
      requires References(db.View()) && sid < |db.sessions| && opener.db == db
      requires forall r | 0 <= r < |db.sessions[sid].registrations| ::
          db.sessions[sid].registrations[r].userId < |db.books.wallets|
      modifies db
      ensures result == (if old(db.sessions[sid].status) !in {READY, PLAYING, CHECKING} then NotCancellable
                         else if abortIfPlayers && HasPlayers(old(db.sessions[sid].registrations)) then Aborted
                           else Cancelled)
      ensures db.View()
        == ThenOpen(old(db.View()), Rounds.CancelSession(old(db.View()), sid, requeueSlot, abortIfPlayers), true,
                                    if requeueSlot then durationMs else None)
    {
      result := CancelAndRefund(sid, requeueSlot, abortIfPlayers);
      if result.Cancelled? && requeueSlot {
        opener.OpenAfterEnd(true, durationMs);
      }
    }

    method CancelAndRefund(sid: nat, requeueSlot: bool, abortIfPlayers: bool) returns (result: CancelResult)
      requires References(db.View()) && sid < |db.sessions|
      requires forall r | 0 <= r < |db.sessions[sid].registrations| ::
          db.sessions[sid].registrations[r].userId < |db.books.wallets|
      modifies db
      ensures result == (if old(db.sessions[sid].status) !in {READY, PLAYING, CHECKING} then NotCancellable
                         else if abortIfPlayers && HasPlayers(old(db.sessions[sid].registrations)) then Aborted
                           else Cancelled)
      ensures result.Cancelled? <==> Rounds.CancelSession(old(db.View()), sid, requeueSlot, abortIfPlayers).Some?
      ensures db.View()
        == if result.Cancelled? then Rounds.CancelSession(old(db.View()), sid, requeueSlot, abortIfPlayers).value
                           else old(db.View())
    {
      var start := db.View();
      var session := db.sessions[sid];
      if session.status !in {READY, PLAYING, CHECKING} {
        return NotCancellable;
      }
      db.UpdateSession(sid, session.(status := CANCELLED, scheduledStartAt := None));
      if abortIfPlayers && HasPlayers(session.registrations) {
        db.Rollback(start);
        return Aborted;
      }
      var totals := AddUp(session.registrations);
      if session.entryFee > 0 {
        PayRefunds(sid, session, totals);
      }
      db.UpdateSession(sid, db.sessions[sid].(registrations := VoidAll(session.registrations)));
      if requeueSlot {
        db.slots := RestoreSlotAfterSession(db.slots, session.slotId);
      }
      return Cancelled;
    }
  }
}
