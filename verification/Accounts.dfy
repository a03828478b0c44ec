/** The money invariant: every wallet is its opening balance, less what the user's live cartelas cost,
    plus what the user won; and the ledger holds exactly the entries the sessions account for. */
module Accounts {
  import opened Common
  import opened Games
  import opened Wallets
  import opened PrizeSplit
  import opened Registering
  import opened Rounds
  import opened Opening
  import opened Platform
  import opened Invariants

  // ---- What a session accounts for ----

  /** What a user's live money-paid cartelas of a session cost when they were registered. */
  function PaidBy(registrations: seq<Registration>, user: nat): nat {
    if registrations == [] then 0
    else
      var last := registrations[|registrations| - 1];
      PaidBy(registrations[..|registrations| - 1], user)
      + if last.userId == user && last.source == MoneyWallet && last.status != VOID then last.entryFeeCents else 0
  }

  /** The same for all cartelas, cancelled ones included. */
  function EverPaidBy(registrations: seq<Registration>, user: nat): nat {
    if registrations == [] then 0
    else
      var last := registrations[|registrations| - 1];
      EverPaidBy(registrations[..|registrations| - 1], user)
      + if last.userId == user && last.source == MoneyWallet then last.entryFeeCents else 0
  }

  /** What a user wins as the owner of some of the first `count` winning cartelas. */
  function WonUpTo(s: Session, user: nat, count: nat): nat
    requires count <= |Winners(s)|
  {
    if count == 0 then 0
    else
      WonUpTo(s, user, count - 1)
      + if s.registrations[Winners(s)[count - 1]].userId == user then Share(s.prizeAmount, |Winners(s)|, count - 1)
        else 0
  }

  function WonBy(s: Session, user: nat): nat {
    if s.status == FINISHED then WonUpTo(s, user, |Winners(s)|) else 0
  }

  /** The refund the ledger records for a user of a session. */
  function RefundOf(ledger: map<LedgerKey, nat>, sid: nat, user: nat): nat {
    if Refund(user, sid) in ledger then ledger[Refund(user, sid)] else 0
  }

  /** What a session has changed in a user's wallet so far: won, less paid, plus refunded. */
  function Balance(s: Session, sid: nat, ledger: map<LedgerKey, nat>, user: nat): int {
    WonBy(s, user) - EverPaidBy(s.registrations, user) + RefundOf(ledger, sid, user)
  }

  function Balances(sessions: seq<Session>, ledger: map<LedgerKey, nat>, user: nat): seq<int> {
    seq(|sessions|, i requires 0 <= i < |sessions| => Balance(sessions[i], i, ledger, user))
  }

  function BonusUses(sessions: seq<Session>, user: nat): seq<int> {
    seq(|sessions|, i requires 0 <= i < |sessions| => SourceCount(sessions[i].registrations, user, BonusCartela))
  }

  // ---- The invariant ----

  ghost predicate BooksOk(st: State, opening: seq<Wallet>) {
    && |st.books.wallets| == |opening|
    && forall u | 0 <= u < |opening| ::
         && st.books.wallets[u].money == opening[u].money + Sum(Balances(st.sessions, st.books.ledger, u))
         && st.books.wallets[u].bonus == opening[u].bonus - Sum(BonusUses(st.sessions, u))
  }

  ghost predicate MoneyRow(s: Session, r: nat, user: nat) {
    r < |s.registrations| && s.registrations[r].userId == user && s.registrations[r].source == MoneyWallet
  }

  ghost predicate WinnerRow(s: Session, r: nat, user: nat) {
    r in Winners(s) && s.registrations[r].userId == user
  }

  /** The ledger entries of one session: an entry per money-paid cartela, a prize per winner of a
      FINISHED session, a refund per paying user of a CANCELLED one; nothing else. */
  ghost predicate EntriesOk(ledger: map<LedgerKey, nat>, sid: nat, s: Session) {
    forall u: nat, r: nat :: GameEntry(u, sid, r) in ledger <==> MoneyRow(s, r, u)
  }

  ghost predicate EntryAmountsOk(ledger: map<LedgerKey, nat>, sid: nat, s: Session) {
    forall u: nat, r: nat | GameEntry(u, sid, r) in ledger && r < |s.registrations| ::
      ledger[GameEntry(u, sid, r)] == s.registrations[r].entryFeeCents
  }

  ghost predicate PrizesOk(ledger: map<LedgerKey, nat>, sid: nat, s: Session) {
    && (forall u: nat, r: nat :: PrizeWin(u, sid, r) in ledger <==> s.status == FINISHED && WinnerRow(s, r, u))
    && (s.status == FINISHED ==>
          forall k | 0 <= k < |Winners(s)| :: PrizePaid(ledger, sid, s, k))
  }

  ghost predicate PrizePaid(ledger: map<LedgerKey, nat>, sid: nat, s: Session, k: nat)
    requires k < |Winners(s)|
  {
    var key := PrizeWin(s.registrations[Winners(s)[k]].userId, sid, Winners(s)[k]);
    key in ledger && ledger[key] == Share(s.prizeAmount, |Winners(s)|, k)
  }

  /** A refund exists for exactly the paying users of a CANCELLED session. */
  ghost predicate RefundsOk(ledger: map<LedgerKey, nat>, sid: nat, s: Session) {
    forall u: nat :: Refund(u, sid) in ledger <==> s.status == CANCELLED && EverPaidBy(s.registrations, u) > 0
  }

  /** ... and gives back everything paid. Steady runs only. */
  ghost predicate RefundAmountsOk(ledger: map<LedgerKey, nat>, sid: nat, s: Session) {
    forall u: nat | Refund(u, sid) in ledger :: ledger[Refund(u, sid)] == EverPaidBy(s.registrations, u)
  }

  ghost predicate LedgerFor(ledger: map<LedgerKey, nat>, sid: nat, s: Session, steady: bool) {
    && EntriesOk(ledger, sid, s) && EntryAmountsOk(ledger, sid, s) && PrizesOk(ledger, sid, s)
    && RefundsOk(ledger, sid, s)
    && (steady ==> RefundAmountsOk(ledger, sid, s))
  }

  ghost predicate LedgerOk(st: State, steady: bool) {
    && (forall key | key in st.books.ledger :: key.sessionId < |st.sessions|)
    && (forall i | 0 <= i < |st.sessions| :: LedgerFor(st.books.ledger, i, st.sessions[i], steady))
  }

  /** The prices have not moved since the first cartela: every cartela was bought at today's fee, and
      the company's revenue is its part of every cartela. Steady runs only. */
  ghost predicate Frozen(s: Session) {
    && s.companyRevenue == s.companyFeePerCartela * |s.registrations|
    && forall r | 0 <= r < |s.registrations| && s.registrations[r].source != NoPayment ::
         && s.registrations[r].entryFeeCents == s.entryFee
         && s.registrations[r].prizeContributionCents == s.prizePerCartela
         && s.registrations[r].companyFeeCents == s.companyFeePerCartela
  }

  /** Every registration is a user's with a wallet, and paid entries are positive. */
  ghost predicate RowsOk(s: Session, count: nat) {
    forall r | 0 <= r < |s.registrations| ::
      s.registrations[r].userId < count
        && (s.registrations[r].source == MoneyWallet ==> s.registrations[r].entryFeeCents > 0)
  }

  ghost predicate SessionSound(s: Session, count: nat, steady: bool) {
    RowsOk(s, count) && (steady ==> Frozen(s))
  }

  /** What every run keeps of the money, and, when no fee was changed under a registered cartela (`steady`),
      what those runs keep besides. */
  ghost predicate Sound(st: State, opening: seq<Wallet>, steady: bool) {
    && BooksOk(st, opening) && LedgerOk(st, steady)
    && forall i | 0 <= i < |st.sessions| :: SessionSound(st.sessions[i], |opening|, steady)
  }

  // ---- Sums over sessions ----

  ghost predicate AgreeExcept(a: map<LedgerKey, nat>, b: map<LedgerKey, nat>, sid: nat) {
    forall key: LedgerKey | key.sessionId != sid :: (key in a <==> key in b) && (key in a ==> a[key] == b[key])
  }

  lemma {:induction false} BalanceUpdate(sessions: seq<Session>, sid: nat, s': Session, a: map<LedgerKey, nat>,
                                         b: map<LedgerKey, nat>, user: nat)
    requires sid < |sessions| && AgreeExcept(a, b, sid)
    ensures Sum(Balances(sessions[sid := s'], b, user))
         == Sum(Balances(sessions, a, user)) - Balance(sessions[sid], sid, a, user) + Balance(s', sid, b, user)
    ensures Sum(BonusUses(sessions[sid := s'], user))
         == Sum(BonusUses(sessions, user)) - SourceCount(sessions[sid].registrations, user, BonusCartela)
            + SourceCount(s'.registrations, user, BonusCartela)
  {
    var before, after := Balances(sessions, a, user), Balances(sessions[sid := s'], b, user);
    forall i | 0 <= i < |sessions| && i != sid
      ensures after[i] == before[i]
    {
      assert RefundOf(a, i, user) == RefundOf(b, i, user);
    }
    assert after == before[sid := Balance(s', sid, b, user)];
    SumUpdate(before, sid, Balance(s', sid, b, user));
    var uses := SourceCount(s'.registrations, user, BonusCartela);
    assert BonusUses(sessions[sid := s'], user) == BonusUses(sessions, user)[sid := uses];
    SumUpdate(BonusUses(sessions, user), sid, uses);
  }

  lemma {:induction false} BalanceAppend(sessions: seq<Session>, s: Session, ledger: map<LedgerKey, nat>, user: nat)
    requires s.registrations == [] && s.status != FINISHED && Refund(user, |sessions|) !in ledger
    ensures Sum(Balances(sessions + [s], ledger, user)) == Sum(Balances(sessions, ledger, user))
    ensures Sum(BonusUses(sessions + [s], user)) == Sum(BonusUses(sessions, user))
  {
    assert Balances(sessions + [s], ledger, user) == Balances(sessions, ledger, user) + [0];
    SumAppend(Balances(sessions, ledger, user), 0);
    assert BonusUses(sessions + [s], user) == BonusUses(sessions, user) + [0];
    SumAppend(BonusUses(sessions, user), 0);
  }

  // ---- Sessions whose money does not move ----

  /** The columns the accounts look at; the prices only in steady runs. */
  ghost predicate SameMoney(s: Session, s': Session, steady: bool) {
    && |s'.registrations| == |s.registrations|
    && (forall r | 0 <= r < |s.registrations| ::
          && s'.registrations[r].userId == s.registrations[r].userId
          && s'.registrations[r].source == s.registrations[r].source
          && s'.registrations[r].entryFeeCents == s.registrations[r].entryFeeCents
          && s'.registrations[r].prizeContributionCents == s.registrations[r].prizeContributionCents
          && s'.registrations[r].companyFeeCents == s.registrations[r].companyFeeCents
          && (s'.registrations[r].status == VOID <==> s.registrations[r].status == VOID))
    && (s'.status == FINISHED <==> s.status == FINISHED)
    && (s.status == FINISHED ==> s'.registrations == s.registrations && s'.prizeAmount == s.prizeAmount)
    && ((s'.status == CANCELLED <==> s.status == CANCELLED) || s.registrations == [])
    && s'.companyRevenue == s.companyRevenue
    && (!steady || (s'.entryFee == s.entryFee && s'.prizePerCartela == s.prizePerCartela
         && s'.companyFeePerCartela == s.companyFeePerCartela) || s.registrations == [])
  }

  lemma {:induction false} RowsDecide(a: seq<Registration>, b: seq<Registration>, user: nat)
    requires |a| == |b|
    requires forall r | 0 <= r < |a| ::
      && b[r].userId == a[r].userId && b[r].source == a[r].source
      && b[r].entryFeeCents == a[r].entryFeeCents && (b[r].status == VOID <==> a[r].status == VOID)
    ensures PaidBy(a, user) == PaidBy(b, user) && EverPaidBy(a, user) == EverPaidBy(b, user)
    ensures forall source :: SourceCount(a, user, source) == SourceCount(b, user, source)
  {
    if a != [] {
      RowsDecide(a[..|a| - 1], b[..|b| - 1], user);
    }
  }

  lemma {:induction false} SameWinnings(s: Session, s': Session, user: nat, count: nat)
    requires s'.registrations == s.registrations && s'.prizeAmount == s.prizeAmount && count <= |Winners(s)|
    ensures Winners(s') == Winners(s) && WonUpTo(s', user, count) == WonUpTo(s, user, count)
  {
    if count > 0 {
      SameWinnings(s, s', user, count - 1);
    }
  }

  lemma {:induction false} SameBalance(s: Session, s': Session, sid: nat, ledger: map<LedgerKey, nat>, user: nat,
                                       steady: bool)
    requires SameMoney(s, s', steady)
    ensures Balance(s', sid, ledger, user) == Balance(s, sid, ledger, user)
    ensures SourceCount(s'.registrations, user, BonusCartela) == SourceCount(s.registrations, user, BonusCartela)
  {
    RowsDecide(s.registrations, s'.registrations, user);
    if s.status == FINISHED {
      SameWinnings(s, s', user, |Winners(s)|);
    }
  }

  lemma {:induction false} SameLedger(ledger: map<LedgerKey, nat>, sid: nat, s: Session, s': Session, steady: bool)
    requires SameMoney(s, s', steady) && LedgerFor(ledger, sid, s, steady)
    ensures LedgerFor(ledger, sid, s', steady)
  {
    forall u: nat, r: nat
      ensures MoneyRow(s', r, u) <==> MoneyRow(s, r, u)
    {
    }
    forall u: nat
      ensures EverPaidBy(s'.registrations, u) == EverPaidBy(s.registrations, u)
    {
      RowsDecide(s.registrations, s'.registrations, u);
    }
    if s.status == FINISHED {
      SameWinnings(s, s', 0, |Winners(s)|);
      assert forall k | 0 <= k < |Winners(s)| :: PrizePaid(ledger, sid, s, k) ==> PrizePaid(ledger, sid, s', k);
    }
  }

  lemma {:induction false} SameRows(s: Session, s': Session, count: nat, steady: bool)
    requires SameMoney(s, s', steady) && SessionSound(s, count, steady)
    ensures SessionSound(s', count, steady)
  {
  }

  /** Any number of sessions change without touching money. */
  lemma {:induction false} QuietIsSound(st: State, st': State, opening: seq<Wallet>, steady: bool)
    requires Sound(st, opening, steady) && st'.books == st.books && |st'.sessions| == |st.sessions|
    requires forall i | 0 <= i < |st.sessions| :: SameMoney(st.sessions[i], st'.sessions[i], steady)
    ensures Sound(st', opening, steady)
  {
    forall u | 0 <= u < |opening|
      ensures Balances(st'.sessions, st.books.ledger, u) == Balances(st.sessions, st.books.ledger, u)
      ensures BonusUses(st'.sessions, u) == BonusUses(st.sessions, u)
    {
      forall i | 0 <= i < |st.sessions|
        ensures Balances(st'.sessions, st.books.ledger, u)[i] == Balances(st.sessions, st.books.ledger, u)[i]
        ensures BonusUses(st'.sessions, u)[i] == BonusUses(st.sessions, u)[i]
      {
        SameBalance(st.sessions[i], st'.sessions[i], i, st.books.ledger, u, steady);
      }
    }
    forall i | 0 <= i < |st.sessions|
      ensures LedgerFor(st'.books.ledger, i, st'.sessions[i], steady)
      ensures SessionSound(st'.sessions[i], |opening|, steady)
    {
      SameLedger(st.books.ledger, i, st.sessions[i], st'.sessions[i], steady);
      SameRows(st.sessions[i], st'.sessions[i], |opening|, steady);
    }
  }

  lemma {:induction false} EmptySessionIsSound(st: State, st': State, s: Session, opening: seq<Wallet>, steady: bool)
    requires Sound(st, opening, steady) && st'.books == st.books && st'.sessions == st.sessions + [s]
    requires s.registrations == [] && s.status != FINISHED && s.companyRevenue == 0
    ensures Sound(st', opening, steady)
  {
    assert forall key | key in st.books.ledger :: key.sessionId != |st.sessions|;
    forall u | 0 <= u < |opening|
      ensures Sum(Balances(st'.sessions, st.books.ledger, u)) == Sum(Balances(st.sessions, st.books.ledger, u))
      ensures Sum(BonusUses(st'.sessions, u)) == Sum(BonusUses(st.sessions, u))
    {
      BalanceAppend(st.sessions, s, st.books.ledger, u);
    }
    EmptyLedger(st.books.ledger, |st.sessions|, s, steady);
  }

  lemma {:induction false} EmptyLedger(ledger: map<LedgerKey, nat>, sid: nat, s: Session, steady: bool)
    requires s.registrations == [] && s.status != FINISHED && forall key | key in ledger :: key.sessionId != sid
    ensures LedgerFor(ledger, sid, s, steady)
  {
  }

  // ---- Entries of other sessions ----

  lemma {:induction false} OtherSession(a: map<LedgerKey, nat>, b: map<LedgerKey, nat>, sid: nat, other: nat,
                                        s: Session, steady: bool)
    requires AgreeExcept(a, b, sid) && other != sid && LedgerFor(a, other, s, steady)
    ensures LedgerFor(b, other, s, steady)
  {
    assert forall k | 0 <= k < |Winners(s)| :: PrizePaid(a, other, s, k) ==> PrizePaid(b, other, s, k);
  }

  /** One session's money moves, and every wallet moves by exactly the same. */
  lemma {:induction false} MoveIsSound(st: State, st': State, sid: nat, opening: seq<Wallet>, steady: bool)
    requires Sound(st, opening, steady) && sid < |st.sessions|
    requires |st'.sessions| == |st.sessions| && st'.sessions == st.sessions[sid := st'.sessions[sid]]
    requires AgreeExcept(st.books.ledger, st'.books.ledger, sid)
    requires LedgerFor(st'.books.ledger, sid, st'.sessions[sid], steady)
    requires SessionSound(st'.sessions[sid], |opening|, steady)
    requires |st'.books.wallets| == |st.books.wallets|
    requires var s, s' := st.sessions[sid], st'.sessions[sid];
      forall u | 0 <= u < |opening| ::
        && st'.books.wallets[u].money - st.books.wallets[u].money
           == Balance(s', sid, st'.books.ledger, u) - Balance(s, sid, st.books.ledger, u)
        && st'.books.wallets[u].bonus - st.books.wallets[u].bonus
           == SourceCount(s.registrations, u, BonusCartela) - SourceCount(s'.registrations, u, BonusCartela)
    ensures Sound(st', opening, steady)
  {
    forall u | 0 <= u < |opening|
      ensures st'.books.wallets[u].money == opening[u].money + Sum(Balances(st'.sessions, st'.books.ledger, u))
      ensures st'.books.wallets[u].bonus == opening[u].bonus - Sum(BonusUses(st'.sessions, u))
    {
      BalanceUpdate(st.sessions, sid, st'.sessions[sid], st.books.ledger, st'.books.ledger, u);
    }
    MovedLedger(st, st', sid, steady);
  }

  lemma {:induction false} MovedLedger(st: State, st': State, sid: nat, steady: bool)
    requires LedgerOk(st, steady) && sid < |st.sessions|
    requires |st'.sessions| == |st.sessions| && st'.sessions == st.sessions[sid := st'.sessions[sid]]
    requires AgreeExcept(st.books.ledger, st'.books.ledger, sid)
    requires LedgerFor(st'.books.ledger, sid, st'.sessions[sid], steady)
    ensures LedgerOk(st', steady)
  {
    forall i | 0 <= i < |st.sessions| && i != sid
      ensures LedgerFor(st'.books.ledger, i, st'.sessions[i], steady)
    {
      OtherSession(st.books.ledger, st'.books.ledger, sid, i, st.sessions[i], steady);
    }
    forall key | key in st'.books.ledger
      ensures key.sessionId < |st'.sessions|
    {
      if key.sessionId != sid {
        assert key in st.books.ledger;
      }
    }
  }
}
