/** Where the money goes over whole runs: totals, payouts, refunds. */
module Conservation {
  import opened Common
  import opened Games
  import opened Wallets
  import opened PrizeSplit
  import opened Registering
  import opened Rounds
  import opened Opening
  import opened Platform
  import opened Invariants
  import opened SessionSteps
  import opened Safety
  import opened Accounts
  import opened AccountSteps
  import opened Runs

  // ---- Totals ----

  function TotalMoney(wallets: seq<Wallet>): nat {
    if wallets == [] then 0 else TotalMoney(wallets[..|wallets| - 1]) + wallets[|wallets| - 1].money
  }

  function TotalBonus(wallets: seq<Wallet>): nat {
    if wallets == [] then 0 else TotalBonus(wallets[..|wallets| - 1]) + wallets[|wallets| - 1].bonus
  }

  /** The cartelas of a session paid one way, cancelled ones aside. */
  function PaidCount(registrations: seq<Registration>, source: PaymentSource): nat {
    if registrations == [] then 0
    else
      var last := registrations[|registrations| - 1];
      PaidCount(registrations[..|registrations| - 1], source) + if last.source == source && last.status != VOID then 1
        else 0
  }

  /** All that was ever paid from wallets for a session, cancelled cartelas included. */
  function EntriesTotal(registrations: seq<Registration>): nat {
    if registrations == [] then 0
    else
      var last := registrations[|registrations| - 1];
      EntriesTotal(registrations[..|registrations| - 1]) + if last.source == MoneyWallet then last.entryFeeCents else 0
  }

  /** The refunds the ledger records for a session. */
  function RefundsTotal(ledger: map<LedgerKey, nat>, sid: nat, users: nat): nat {
    if users == 0 then 0 else RefundsTotal(ledger, sid, users - 1) + RefundOf(ledger, sid, users - 1)
  }

  /** What a session adds to the wallets by the record: its prize when FINISHED, less all entries, plus the
      refunds recorded. */
  function RecordedMoney(s: Session, sid: nat, ledger: map<LedgerKey, nat>, users: nat): int {
    (if s.status == FINISHED then s.prizeAmount else 0) - EntriesTotal(s.registrations)
      + RefundsTotal(ledger, sid, users)
  }

  /** What it should add by its own columns: its prize when FINISHED, less its entry fees unless CANCELLED. */
  function NetMoney(s: Session): int {
    (if s.status == FINISHED then s.prizeAmount else 0)
    - (if s.status == CANCELLED then 0 else s.entryFee * PaidCount(s.registrations, MoneyWallet))
  }

  function NetBonus(s: Session): int {
    if s.status == CANCELLED then 0 else 0 - PaidCount(s.registrations, BonusCartela)
  }

  function TotalRecordedMoney(sessions: seq<Session>, ledger: map<LedgerKey, nat>, users: nat): int {
    if sessions == [] then 0
    else
      TotalRecordedMoney(sessions[..|sessions| - 1], ledger, users)
      + RecordedMoney(sessions[|sessions| - 1], |sessions| - 1, ledger, users)
  }

  function TotalNetMoney(sessions: seq<Session>): int {
    if sessions == [] then 0 else TotalNetMoney(sessions[..|sessions| - 1]) + NetMoney(sessions[|sessions| - 1])
  }

  function TotalNetBonus(sessions: seq<Session>): int {
    if sessions == [] then 0 else TotalNetBonus(sessions[..|sessions| - 1]) + NetBonus(sessions[|sessions| - 1])
  }

  // ---- Sums over users ----

  function CountOfUsers(registrations: seq<Registration>, source: PaymentSource, users: nat): nat {
    if users == 0 then 0
    else CountOfUsers(registrations, source, users - 1) + SourceCount(registrations, users - 1, source)
  }

  function WonByUsers(s: Session, count: nat, users: nat): nat
    requires count <= |Winners(s)|
  {
    if users == 0 then 0 else WonByUsers(s, count, users - 1) + WonUpTo(s, users - 1, count)
  }

  function BalanceOfUsers(s: Session, sid: nat, ledger: map<LedgerKey, nat>, users: nat): int {
    if users == 0 then 0 else BalanceOfUsers(s, sid, ledger, users - 1) + Balance(s, sid, ledger, users - 1)
  }

  function EntriesOfUsers(registrations: seq<Registration>, users: nat): nat {
    if users == 0 then 0 else EntriesOfUsers(registrations, users - 1) + EverPaidBy(registrations, users - 1)
  }

  lemma {:induction false} OneMoreEntry(registrations: seq<Registration>, users: nat)
    requires registrations != []
    ensures var last := registrations[|registrations| - 1];
      EntriesOfUsers(registrations, users)
      == EntriesOfUsers(registrations[..|registrations| - 1], users)
         + if last.userId < users && last.source == MoneyWallet then last.entryFeeCents else 0
  {
    if users > 0 {
      OneMoreEntry(registrations, users - 1);
    }
  }

  lemma {:induction false} NoEntries(users: nat)
    ensures EntriesOfUsers([], users) == 0
  {
    if users > 0 {
      NoEntries(users - 1);
    }
  }

  lemma {:induction false} AllEntriesCounted(registrations: seq<Registration>, users: nat)
    requires forall r | 0 <= r < |registrations| :: registrations[r].userId < users
    ensures EntriesOfUsers(registrations, users) == EntriesTotal(registrations)
  {
    if registrations == [] {
      NoEntries(users);
    } else {
      AllEntriesCounted(registrations[..|registrations| - 1], users);
      OneMoreEntry(registrations, users);
    }
  }

  lemma {:induction false} OneMoreRow(registrations: seq<Registration>, source: PaymentSource, users: nat)
    requires registrations != []
    ensures var last := registrations[|registrations| - 1];
      CountOfUsers(registrations, source, users)
      == CountOfUsers(registrations[..|registrations| - 1], source, users)
         + if last.userId < users && last.source == source && last.status != VOID then 1 else 0
  {
    if users > 0 {
      OneMoreRow(registrations, source, users - 1);
    }
  }

  lemma {:induction false} AllUsersCounted(registrations: seq<Registration>, source: PaymentSource, users: nat)
    requires forall r | 0 <= r < |registrations| :: registrations[r].userId < users
    ensures CountOfUsers(registrations, source, users) == PaidCount(registrations, source)
  {
    if registrations == [] {
      NoRows(source, users);
    } else {
      AllUsersCounted(registrations[..|registrations| - 1], source, users);
      OneMoreRow(registrations, source, users);
    }
  }

  lemma {:induction false} NoRows(source: PaymentSource, users: nat)
    ensures CountOfUsers([], source, users) == 0
  {
    if users > 0 {
      NoRows(source, users - 1);
    }
  }

  lemma {:induction false} OneMoreShare(s: Session, count: nat, users: nat)
    requires 0 < count <= |Winners(s)|
    ensures WonByUsers(s, count, users) == WonByUsers(s, count - 1, users)
      + if s.registrations[Winners(s)[count - 1]].userId < users then Share(s.prizeAmount, |Winners(s)|, count - 1)
        else 0
  {
    if users > 0 {
      OneMoreShare(s, count, users - 1);
    }
  }

  lemma {:induction false} AllSharesCounted(s: Session, count: nat, users: nat)
    requires count <= |Winners(s)| && Winners(s) != [] && RowsOk(s, users)
    ensures WonByUsers(s, count, users) == Sum(Shares(s.prizeAmount, |Winners(s)|)[..count])
  {
    if count == 0 {
      NothingWon(s, users);
    } else {
      AllSharesCounted(s, count - 1, users);
      OneMoreShare(s, count, users);
      NextShareSum(s.prizeAmount, |Winners(s)|, count);
    }
  }

  lemma {:induction false} NothingWon(s: Session, users: nat)
    ensures WonByUsers(s, 0, users) == 0
  {
    if users > 0 {
      NothingWon(s, users - 1);
    }
  }

  /** Over all users, the winners of a session together get exactly its prize. */
  lemma {:induction false} WholePrizeWon(s: Session, users: nat)
    requires RowsOk(s, users) && Winners(s) != []
    ensures WonByUsers(s, |Winners(s)|, users) == s.prizeAmount
  {
    var shares := Shares(s.prizeAmount, |Winners(s)|);
    AllSharesCounted(s, |Winners(s)|, users);
    assert shares[..|Winners(s)|] == shares;
    SharesAreFair(s.prizeAmount, |Winners(s)|);
  }

  lemma {:induction false} NoLiveRows(registrations: seq<Registration>, user: nat)
    requires forall r | 0 <= r < |registrations| :: registrations[r].status == VOID
    ensures PaidBy(registrations, user) == 0
    ensures forall source :: SourceCount(registrations, user, source) == 0
  {
    if registrations != [] {
      NoLiveRows(registrations[..|registrations| - 1], user);
    }
  }

  lemma {:induction false} NothingPaid(registrations: seq<Registration>, source: PaymentSource)
    requires forall r | 0 <= r < |registrations| :: registrations[r].status == VOID
    ensures PaidCount(registrations, source) == 0
  {
    if registrations != [] {
      NothingPaid(registrations[..|registrations| - 1], source);
    }
  }

  lemma {:induction false} BalanceParts(s: Session, sid: nat, ledger: map<LedgerKey, nat>, users: nat)
    ensures BalanceOfUsers(s, sid, ledger, users)
         == (if s.status == FINISHED then WonByUsers(s, |Winners(s)|, users) else 0)
            - EntriesOfUsers(s.registrations, users) + RefundsTotal(ledger, sid, users)
  {
    if users > 0 {
      BalanceParts(s, sid, ledger, users - 1);
    }
  }

  lemma {:induction false} SessionRecorded(s: Session, sid: nat, ledger: map<LedgerKey, nat>, users: nat)
    requires RegistrationsOk(s) && WindowOk(s) && RowsOk(s, users)
    ensures BalanceOfUsers(s, sid, ledger, users) == RecordedMoney(s, sid, ledger, users)
    ensures CountOfUsers(s.registrations, BonusCartela, users) == -NetBonus(s)
  {
    BalanceParts(s, sid, ledger, users);
    AllEntriesCounted(s.registrations, users);
    AllUsersCounted(s.registrations, BonusCartela, users);
    if s.status == FINISHED {
      WinnersNonEmpty(s);
      WholePrizeWon(s, users);
    }
    if s.status == CANCELLED {
      NothingPaid(s.registrations, BonusCartela);
    }
  }

  // ---- What steady runs add ----

  /** In a steady run a user's refund is all the user paid, once the session is cancelled. */
  lemma {:induction false} SteadyRefund(ledger: map<LedgerKey, nat>, sid: nat, s: Session, user: nat)
    requires RefundsOk(ledger, sid, s) && RefundAmountsOk(ledger, sid, s)
    ensures RefundOf(ledger, sid, user) == if s.status == CANCELLED then EverPaidBy(s.registrations, user) else 0
  {
  }

  lemma {:induction false} SteadyRefunds(ledger: map<LedgerKey, nat>, sid: nat, s: Session, users: nat)
    requires RefundsOk(ledger, sid, s) && RefundAmountsOk(ledger, sid, s)
    ensures RefundsTotal(ledger, sid, users)
      == if s.status == CANCELLED then EntriesOfUsers(s.registrations, users) else 0
  {
    if users > 0 {
      SteadyRefunds(ledger, sid, s, users - 1);
      SteadyRefund(ledger, sid, s, users - 1);
    }
  }

  lemma {:induction false} EntriesAtFee(registrations: seq<Registration>, fee: nat)
    requires forall r | 0 <= r < |registrations| ::
      registrations[r].status != VOID
        && (registrations[r].source == MoneyWallet ==> registrations[r].entryFeeCents == fee)
    ensures EntriesTotal(registrations) == fee * PaidCount(registrations, MoneyWallet)
  {
    if registrations != [] {
      var front := registrations[..|registrations| - 1];
      EntriesAtFee(front, fee);
      Distribute(fee, PaidCount(front, MoneyWallet), 1);
    }
  }

  lemma {:induction false} SessionNet(s: Session, sid: nat, ledger: map<LedgerKey, nat>, users: nat)
    requires RegistrationsOk(s) && RowsOk(s, users) && Frozen(s) && RefundsOk(ledger, sid, s)
    requires RefundAmountsOk(ledger, sid, s)
    ensures RecordedMoney(s, sid, ledger, users) == NetMoney(s)
  {
    SteadyRefunds(ledger, sid, s, users);
    if s.status == CANCELLED {
      AllEntriesCounted(s.registrations, users);
    } else {
      EntriesAtFee(s.registrations, s.entryFee);
    }
  }

  // ---- Sums over users and sessions ----

  function MovedByUsers(sessions: seq<Session>, ledger: map<LedgerKey, nat>, users: nat): int {
    if users == 0 then 0 else MovedByUsers(sessions, ledger, users - 1) + Sum(Balances(sessions, ledger, users - 1))
  }

  function UsedByUsers(sessions: seq<Session>, users: nat): int {
    if users == 0 then 0 else UsedByUsers(sessions, users - 1) + Sum(BonusUses(sessions, users - 1))
  }

  lemma {:induction false} OneMoreSession(sessions: seq<Session>, ledger: map<LedgerKey, nat>, users: nat)
    requires sessions != []
    ensures var front, last := sessions[..|sessions| - 1], sessions[|sessions| - 1];
      && MovedByUsers(sessions, ledger, users)
         == MovedByUsers(front, ledger, users) + BalanceOfUsers(last, |sessions| - 1, ledger, users)
      && UsedByUsers(sessions, users)
        == UsedByUsers(front, users) + CountOfUsers(last.registrations, BonusCartela, users)
  {
    if users > 0 {
      var n := |sessions| - 1;
      OneMoreSession(sessions, ledger, users - 1);
      assert Balances(sessions, ledger, users - 1)[..n] == Balances(sessions[..n], ledger, users - 1);
      assert BonusUses(sessions, users - 1)[..n] == BonusUses(sessions[..n], users - 1);
    }
  }

  lemma {:induction false} NoSessions(ledger: map<LedgerKey, nat>, users: nat)
    ensures MovedByUsers([], ledger, users) == 0 && UsedByUsers([], users) == 0
  {
    if users > 0 {
      NoSessions(ledger, users - 1);
    }
  }

  lemma {:induction false} AllSessionsRecorded(sessions: seq<Session>, ledger: map<LedgerKey, nat>, users: nat)
    requires forall i | 0 <= i < |sessions| ::
      RegistrationsOk(sessions[i]) && WindowOk(sessions[i]) && RowsOk(sessions[i], users)
    ensures MovedByUsers(sessions, ledger, users) == TotalRecordedMoney(sessions, ledger, users)
    ensures UsedByUsers(sessions, users) == -TotalNetBonus(sessions)
  {
    if sessions == [] {
      NoSessions(ledger, users);
    } else {
      AllSessionsRecorded(sessions[..|sessions| - 1], ledger, users);
      OneMoreSession(sessions, ledger, users);
      SessionRecorded(sessions[|sessions| - 1], |sessions| - 1, ledger, users);
    }
  }

  lemma {:induction false} AllSessionsNet(sessions: seq<Session>, ledger: map<LedgerKey, nat>, users: nat)
    requires forall i | 0 <= i < |sessions| ::
      && RegistrationsOk(sessions[i]) && RowsOk(sessions[i], users) && Frozen(sessions[i])
      && RefundsOk(ledger, i, sessions[i]) && RefundAmountsOk(ledger, i, sessions[i])
    ensures TotalRecordedMoney(sessions, ledger, users) == TotalNetMoney(sessions)
  {
    if sessions != [] {
      AllSessionsNet(sessions[..|sessions| - 1], ledger, users);
      SessionNet(sessions[|sessions| - 1], |sessions| - 1, ledger, users);
    }
  }

  lemma {:induction false} WalletTotals(st: State, opening: seq<Wallet>, users: nat)
    requires BooksOk(st, opening) && users <= |opening|
    ensures TotalMoney(st.books.wallets[..users])
         == TotalMoney(opening[..users]) + MovedByUsers(st.sessions, st.books.ledger, users)
    ensures TotalBonus(st.books.wallets[..users]) == TotalBonus(opening[..users]) - UsedByUsers(st.sessions, users)
  {
    if users > 0 {
      WalletTotals(st, opening, users - 1);
      assert st.books.wallets[..users][..users - 1] == st.books.wallets[..users - 1];
      assert opening[..users][..users - 1] == opening[..users - 1];
    }
  }

  /** After every run, stale fee updates included, the wallets together hold what they held at the start,
      less all recorded entries, plus the prizes of the finished sessions and the recorded refunds; and the
      bonus cartelas, less those used in sessions that were not cancelled. */
  lemma {:induction false} LedgerIsConserved(start: State, events: seq<Event>)
    requires Initial(start)
    ensures var end, users := After(start, events), |start.books.wallets|;
      && |end.books.wallets| == users
      && TotalMoney(end.books.wallets)
         == TotalMoney(start.books.wallets) + TotalRecordedMoney(end.sessions, end.books.ledger, users)
      && TotalBonus(end.books.wallets) == TotalBonus(start.books.wallets) + TotalNetBonus(end.sessions)
  {
    EveryRunIsSafe(start, events);
    EveryRunIsSound(start, events, false);
    TotalsOf(After(start, events), start.books.wallets);
  }

  lemma {:induction false} TotalsOf(end: State, opening: seq<Wallet>)
    requires Safe(end) && Sound(end, opening, false)
    ensures TotalMoney(end.books.wallets)
         == TotalMoney(opening) + TotalRecordedMoney(end.sessions, end.books.ledger, |opening|)
    ensures TotalBonus(end.books.wallets) == TotalBonus(opening) + TotalNetBonus(end.sessions)
  {
    WalletTotals(end, opening, |opening|);
    assert end.books.wallets[..|opening|] == end.books.wallets && opening[..|opening|] == opening;
    assert forall i | 0 <= i < |end.sessions| :: SessionSound(end.sessions[i], |opening|, false);
    AllSessionsRecorded(end.sessions, end.books.ledger, |opening|);
  }

  /** Money is conserved in every steady run: the wallets together hold the start total, less today's fee
      for each money-paid cartela of the sessions that were not cancelled, plus the prizes of the finished
      ones. */
  lemma {:induction false} MoneyIsConserved(start: State, events: seq<Event>)
    requires Initial(start) && SteadyRun(start, events)
    ensures var end := After(start, events);
      TotalMoney(end.books.wallets) == TotalMoney(start.books.wallets) + TotalNetMoney(end.sessions)
  {
    LedgerIsConserved(start, events);
    EveryRunIsSafe(start, events);
    EveryRunIsSound(start, events, true);
    SteadyTotals(After(start, events), start.books.wallets);
  }

  lemma {:induction false} SteadyTotals(end: State, opening: seq<Wallet>)
    requires Safe(end) && Sound(end, opening, true)
    ensures TotalRecordedMoney(end.sessions, end.books.ledger, |opening|) == TotalNetMoney(end.sessions)
  {
    assert forall i | 0 <= i < |end.sessions| ::
      SessionSound(end.sessions[i], |opening|, true) && LedgerFor(end.books.ledger, i, end.sessions[i], true);
    AllSessionsNet(end.sessions, end.books.ledger, |opening|);
  }

  // ---- Payouts ----

  /** The prize credits recorded for the winners of a session, in winner order. */
  ghost function PrizeCredits(ledger: map<LedgerKey, nat>, sid: nat, s: Session): seq<int>
    requires forall k | 0 <= k < |Winners(s)| :: PrizePaid(ledger, sid, s, k)
  {
    seq(|Winners(s)|, k requires 0 <= k < |Winners(s)| =>
      assert PrizePaid(ledger, sid, s, k); ledger[PrizeWin(s.registrations[Winners(s)[k]].userId, sid, Winners(s)[k])])
  }

  /** A session is FINISHED exactly when prizes were credited for it; each winning cartela was credited
      once, to its owner, and the credits are the fair split of the whole prize. */
  lemma {:induction false} PayoutIsExact(start: State, events: seq<Event>, sid: nat)
    requires Initial(start) && sid < |After(start, events).sessions|
    ensures var st := After(start, events);
      var s, ledger := st.sessions[sid], st.books.ledger;
      && (s.status == FINISHED <==> exists u: nat, r: nat :: PrizeWin(u, sid, r) in ledger)
      && (forall u: nat, r: nat :: PrizeWin(u, sid, r) in ledger <==> s.status == FINISHED && WinnerRow(s, r, u))
      && (s.status == FINISHED ==>
            && Winners(s) != [] && (forall k | 0 <= k < |Winners(s)| :: PrizePaid(ledger, sid, s, k))
            && FairSplit(s.prizeAmount, PrizeCredits(ledger, sid, s)))
  {
    EveryRunIsSafe(start, events);
    EveryRunIsSound(start, events, false);
    assert LedgerFor(After(start, events).books.ledger, sid, After(start, events).sessions[sid], false);
    SessionPayout(After(start, events).books.ledger, sid, After(start, events).sessions[sid]);
  }

  lemma {:induction false} SessionPayout(ledger: map<LedgerKey, nat>, sid: nat, s: Session)
    requires PrizesOk(ledger, sid, s) && RegistrationsOk(s) && WindowOk(s)
    ensures s.status == FINISHED <==> exists u: nat, r: nat :: PrizeWin(u, sid, r) in ledger
    ensures s.status == FINISHED ==>
      && Winners(s) != [] && (forall k | 0 <= k < |Winners(s)| :: PrizePaid(ledger, sid, s, k))
      && FairSplit(s.prizeAmount, PrizeCredits(ledger, sid, s))
  {
    if s.status == FINISHED {
      WinnersNonEmpty(s);
      assert PrizePaid(ledger, sid, s, 0);
      CreditsAreShares(ledger, sid, s);
    }
  }

  lemma {:induction false} CreditsAreShares(ledger: map<LedgerKey, nat>, sid: nat, s: Session)
    requires Winners(s) != [] && forall k | 0 <= k < |Winners(s)| :: PrizePaid(ledger, sid, s, k)
    ensures FairSplit(s.prizeAmount, PrizeCredits(ledger, sid, s))
  {
    var credits, shares := PrizeCredits(ledger, sid, s), Shares(s.prizeAmount, |Winners(s)|);
    forall k | 0 <= k < |Winners(s)|
      ensures credits[k] == shares[k]
    {
      assert PrizePaid(ledger, sid, s, k);
    }
    assert credits == shares;
    SharesAreFair(s.prizeAmount, |Winners(s)|);
  }

  lemma {:induction false} PaymentNeedsCents(books: Books, sid: nat, s: Session, count: nat)
    requires count <= |Winners(s)|
    ensures PayWinners(books, sid, s, count).Success? ==>
      forall k | 0 <= k < count :: Share(s.prizeAmount, |Winners(s)|, k) > 0
    ensures PayWinners(books, sid, s, count).Success? ==>
      |PayWinners(books, sid, s, count).value.wallets| == |books.wallets|
    ensures RowsOk(s, |books.wallets|) && (forall k | 0 <= k < count :: Share(s.prizeAmount, |Winners(s)|, k) > 0) ==>
      PayWinners(books, sid, s, count).Success?
  {
    if count > 0 {
      PaymentNeedsCents(books, sid, s, count - 1);
    }
  }

  /** When a window closes: never for want of winners and never twice, but exactly when it is due and the
      prize has a cent for each winner. Below that the payout rolls back, every time it is tried. */
  lemma {:induction false} WindowClosesIff(start: State, events: seq<Event>, sid: nat, graceMs: int, clock: int)
    requires Initial(start) && sid < |After(start, events).sessions|
    ensures References(After(start, events))
    ensures var st := After(start, events);
      var s := st.sessions[sid];
      var result := FinalizeWinnerWindow(st, sid, graceMs, clock);
      && (s.status == WINNER_WINDOW ==> Winners(s) != [] && s.prizeFinalizedAt.None?)
      && (result.Success? <==> WindowDue(s, clock, graceMs) && s.prizeAmount >= |Winners(s)|)
      && (result.Failure? ==> result.error.NotDue? || result.error.CreditFailed?)
  {
    EveryRunIsSafe(start, events);
    EveryRunIsSound(start, events, false);
    ClosesIff(After(start, events), sid, graceMs, clock);
  }

  lemma {:induction false} ClosesIff(st: State, sid: nat, graceMs: int, clock: int)
    requires Safe(st) && References(st) && sid < |st.sessions| && RowsOk(st.sessions[sid], |st.books.wallets|)
    ensures var s := st.sessions[sid];
      var result := FinalizeWinnerWindow(st, sid, graceMs, clock);
      && (s.status == WINNER_WINDOW ==> Winners(s) != [] && s.prizeFinalizedAt.None?)
      && (result.Success? <==> WindowDue(s, clock, graceMs) && s.prizeAmount >= |Winners(s)|)
      && (result.Failure? ==> result.error.NotDue? || result.error.CreditFailed?)
  {
    var s := st.sessions[sid];
    if s.status == WINNER_WINDOW {
      WinnersNonEmpty(s);
      PaymentNeedsCents(st.books, sid, s, |Winners(s)|);
      SharesPositiveIff(s.prizeAmount, |Winners(s)|);
    }
  }

  // ---- Rounds started without a registration session ----

  /** The part of a cartela's fee that goes into the pot of a directly started round. */
  function DirectPrizePart(slot: Slot, config: StartConfig): nat {
    if slot.category.BONUS? then 0
    else
      var fees := ResolveFeeConfig(config, slot);
      if fees.Some? then fees.value.prizePerCartela else 0
  }

  ghost predicate DirectStart(st: State, slotId: nat, config: StartConfig) {
    References(st) && slotId < |st.slots| && FindReady(st.sessions, slotId).None? && StartGame(st, slotId, config).Some?
  }

  /** A direct start opens with no prize, whatever fixed prize its slot has. So, whatever happens afterwards, a
      due window of that round can be paid exactly when the configured fee leaves a part for the prize: never
      in a bonus round, nor in a Big GOTD round at its own prices. */
  lemma {:induction false} DirectRoundPaysIff(start: State, events: seq<Event>, slotId: nat, config: StartConfig,
                                              more: seq<Event>, graceMs: int, clock: int)
    requires Initial(start) && DirectStart(After(start, events), slotId, config)
    ensures var sid := |After(start, events).sessions|;
      var st := After(start, events + [Start(slotId, config)] + more);
      && sid < |st.sessions| && References(st)
      && (DirectPrizePart(After(start, events).slots[slotId], config) == 0 ==>
            st.sessions[sid].prizeAmount == 0 && FinalizeWinnerWindow(st, sid, graceMs, clock).Failure?)
      && (WindowDue(st.sessions[sid], clock, graceMs) ==>
            (FinalizeWinnerWindow(st, sid, graceMs, clock).Success?
             <==> DirectPrizePart(After(start, events).slots[slotId], config) > 0))
  {
    var sid := |After(start, events).sessions|;
    var begun := events + [Start(slotId, config)];
    assert begun[..|events|] == events;
    DirectStartOpensEmpty(After(start, events), slotId, config);
    EveryRunIsSafe(start, begun);
    PricesStay(start, begun, more, sid);
    EveryRunIsSafe(start, begun + more);
    EveryRunIsSound(start, begun + more, false);
    assert RowsOk(After(start, begun + more).sessions[sid], |start.books.wallets|) by {
      assert SessionSound(After(start, begun + more).sessions[sid], |start.books.wallets|, false);
    }
    EmptyPotPaysIff(After(start, begun + more), sid, graceMs, clock);
  }

  lemma {:induction false} DirectStartOpensEmpty(st: State, slotId: nat, config: StartConfig)
    requires DirectStart(st, slotId, config)
    ensures var st' := Happen(st, Start(slotId, config));
      && |st'.sessions| == |st.sessions| + 1 && st'.sessions[|st.sessions|].openingPrize == 0
      && st'.sessions[|st.sessions|].prizePerCartela == DirectPrizePart(st.slots[slotId], config)
  {
  }

  /** A pot that opened empty has a cent per winner exactly when every cartela adds one. */
  lemma {:induction false} EmptyPotPaysIff(st: State, sid: nat, graceMs: int, clock: int)
    requires Safe(st) && References(st) && sid < |st.sessions| && st.sessions[sid].openingPrize == 0
    requires RowsOk(st.sessions[sid], |st.books.wallets|)
    ensures var s := st.sessions[sid];
      && (s.prizePerCartela == 0 ==> s.prizeAmount == 0 && FinalizeWinnerWindow(st, sid, graceMs, clock).Failure?)
      && (WindowDue(s, clock, graceMs) ==>
          (FinalizeWinnerWindow(st, sid, graceMs, clock).Success? <==> s.prizePerCartela > 0))
  {
    var s := st.sessions[sid];
    assert PricesOk(s, KindOf(st.slots[s.slotId]));
    ClosesIff(st, sid, graceMs, clock);
    WinnersBelowCount(s.registrations, |s.registrations|);
    if s.prizePerCartela > 0 {
      ProductAtLeast(s.prizePerCartela, |s.registrations|);
    }
  }

  lemma {:induction false} WinnersBelowCount(registrations: seq<Registration>, upTo: nat)
    requires upTo <= |registrations|
    ensures |WinnersBelow(registrations, upTo)| <= upTo
  {
    if upTo > 0 {
      WinnersBelowCount(registrations, upTo - 1);
    }
  }

  lemma ProductAtLeast(a: nat, b: nat)
    requires a > 0
    ensures a * b >= b
  {
  }

  lemma {:induction false} PricesStay(start: State, events: seq<Event>, more: seq<Event>, sid: nat)
    requires Initial(start) && sid < |After(start, events).sessions|
    ensures sid < |After(start, events + more).sessions|
    ensures After(start, events + more).sessions[sid].prizePerCartela
      == After(start, events).sessions[sid].prizePerCartela
    ensures After(start, events + more).sessions[sid].openingPrize == After(start, events).sessions[sid].openingPrize
  {
    if more == [] {
      assert events + more == events;
    } else {
      var front := more[..|more| - 1];
      PricesStay(start, events, front, sid);
      assert events + front + [more[|more| - 1]] == events + more;
      OnePriceStep(start, events + front, more[|more| - 1], sid);
    }
  }

  lemma {:induction false} OnePriceStep(start: State, events: seq<Event>, e: Event, sid: nat)
    requires Initial(start) && sid < |After(start, events).sessions|
    ensures var s := After(start, events).sessions[sid];
      var after := After(start, events + [e]);
      sid < |after.sessions| && after.sessions[sid].prizePerCartela == s.prizePerCartela
        && after.sessions[sid].openingPrize == s.openingPrize
  {
    StatusesFollowTheTable(start, events, e);
  }

  // ---- Cancelling undoes registering ----

  /** Between two moments, money moved in one session only. */
  ghost predicate MovedOnlyIn(before: State, after: State, sid: nat) {
    && |before.sessions| <= |after.sessions|
    && (forall i | 0 <= i < |before.sessions| :: SameMoney(before.sessions[i], after.sessions[i], false))
    && (forall i | |before.sessions| <= i < |after.sessions| && i != sid ::
          after.sessions[i].registrations == [] && after.sessions[i].status != FINISHED)
  }

  lemma {:induction false} SumPadded(a: seq<int>, b: seq<int>)
    requires |a| <= |b| && b[..|a|] == a && forall i | |a| <= i < |b| :: b[i] == 0
    ensures Sum(b) == Sum(a)
  {
    if |b| > |a| {
      SumPadded(a, b[..|b| - 1]);
    } else {
      assert b == a;
    }
  }

  /** Whatever registrations, bonus payments and confirmations a session saw, from any users, once it is
      cancelled every wallet is back where it was before the session existed. */
  lemma {:induction false} CancelUndoesRegistering(start: State, events: seq<Event>, more: seq<Event>, sid: nat)
    requires Initial(start) && SteadyRun(start, events) && SteadyRun(start, events + more)
    requires var before, after := After(start, events), After(start, events + more);
      && |before.sessions| <= sid < |after.sessions| && after.sessions[sid].status == CANCELLED
      && MovedOnlyIn(before, after, sid)
    ensures After(start, events + more).books.wallets == After(start, events).books.wallets
  {
    EveryRunIsSafe(start, events + more);
    EveryRunIsSound(start, events, true);
    EveryRunIsSound(start, events + more, true);
    WalletsReturn(After(start, events), After(start, events + more), start.books.wallets, sid);
  }

  lemma {:induction false} WalletsReturn(before: State, after: State, opening: seq<Wallet>, sid: nat)
    requires Sound(before, opening, true) && Sound(after, opening, true)
    requires |before.sessions| <= sid < |after.sessions| && MovedOnlyIn(before, after, sid)
    requires RegistrationsOk(after.sessions[sid]) && after.sessions[sid].status == CANCELLED
    ensures after.books.wallets == before.books.wallets
  {
    forall u | 0 <= u < |opening|
      ensures after.books.wallets[u] == before.books.wallets[u]
    {
      BalancesPadded(before, after, sid, u);
      assert after.books.wallets[u].money == before.books.wallets[u].money;
    }
  }

  /** In a steady run a session's balance depends on its own columns alone. */
  lemma {:induction false} SteadyBalance(st: State, i: nat, user: nat)
    requires LedgerOk(st, true) && i < |st.sessions|
    ensures var s := st.sessions[i];
      Balance(s, i, st.books.ledger, user) == WonBy(s, user) - if s.status == CANCELLED then 0
        else EverPaidBy(s.registrations, user)
  {
    assert LedgerFor(st.books.ledger, i, st.sessions[i], true);
    SteadyRefund(st.books.ledger, i, st.sessions[i], user);
  }

  lemma {:induction false} BalancesPadded(before: State, after: State, sid: nat, user: nat)
    requires LedgerOk(before, true) && LedgerOk(after, true)
    requires |before.sessions| <= sid < |after.sessions| && MovedOnlyIn(before, after, sid)
    requires RegistrationsOk(after.sessions[sid]) && after.sessions[sid].status == CANCELLED
    ensures Sum(Balances(after.sessions, after.books.ledger, user))
      == Sum(Balances(before.sessions, before.books.ledger, user))
    ensures Sum(BonusUses(after.sessions, user)) == Sum(BonusUses(before.sessions, user))
  {
    var a, b :=
      Balances(before.sessions, before.books.ledger, user), Balances(after.sessions, after.books.ledger, user);
    forall i | 0 <= i < |before.sessions|
      ensures b[i] == a[i] && BonusUses(after.sessions, user)[i] == BonusUses(before.sessions, user)[i]
    {
      SteadyBalance(before, i, user);
      SteadyBalance(after, i, user);
      RowsDecide(before.sessions[i].registrations, after.sessions[i].registrations, user);
      SameWon(before.sessions[i], after.sessions[i], user);
    }
    forall i | |before.sessions| <= i < |after.sessions|
      ensures b[i] == 0
    {
      SteadyBalance(after, i, user);
    }
    NoLiveRows(after.sessions[sid].registrations, user);
    SumPadded(a, b);
    SumPadded(BonusUses(before.sessions, user), BonusUses(after.sessions, user));
  }

  lemma {:induction false} SameWon(s: Session, s': Session, user: nat)
    requires SameMoney(s, s', false)
    ensures WonBy(s', user) == WonBy(s, user)
  {
    if s.status == FINISHED {
      SameWinnings(s, s', user, |Winners(s)|);
    }
  }

  /** A user has one refund for a session exactly when it was cancelled and the user had paid for it; in a
      steady run the refund is all that was paid. */
  lemma {:induction false} RefundIsExact(start: State, events: seq<Event>, sid: nat, user: nat)
    requires Initial(start) && sid < |After(start, events).sessions|
    ensures var st := After(start, events);
      var s, ledger := st.sessions[sid], st.books.ledger;
      && (Refund(user, sid) in ledger <==> s.status == CANCELLED && EverPaidBy(s.registrations, user) > 0)
      && (SteadyRun(start, events) && Refund(user, sid) in ledger ==>
            ledger[Refund(user, sid)] == EverPaidBy(s.registrations, user))
  {
    var st := After(start, events);
    EveryRunIsSound(start, events, false);
    assert LedgerFor(st.books.ledger, sid, st.sessions[sid], false);
    if SteadyRun(start, events) {
      EveryRunIsSound(start, events, true);
      assert LedgerFor(st.books.ledger, sid, st.sessions[sid], true);
    }
  }
}
