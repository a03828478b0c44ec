/** The entry-fee update looks for registrations before its transaction begins. What that costs. */
module FeeRace {
  import opened Common
  import opened Games
  import opened Wallets
  import opened Registering
  import opened Rounds
  import opened Opening
  import opened Platform
  import opened Invariants
  import opened Safety
  import opened Accounts
  import opened AccountSteps
  import opened Runs

  lemma {:induction false} RepricedIsFrozenIff(s: Session, kind: SlotKind, slotId: nat, entryFee: nat)
    requires Frozen(s) && PricesOk(s, kind) && (s.slotId == slotId ==> !kind.category.BONUS?)
    ensures Frozen(WithFee(s, slotId, entryFee, entryFee - kind.prizePerCartela))
      <==> (s.slotId == slotId && s.status == READY ==> s.registrations == [] || s.entryFee == entryFee)
  {
    var s' := WithFee(s, slotId, entryFee, entryFee - kind.prizePerCartela);
    if s.slotId == slotId && s.status == READY && s.registrations != [] {
      assert s.registrations[0].source != NoPayment && s.registrations[0].entryFeeCents == s.entryFee;
      assert s.registrations[0] == s'.registrations[0];
    }
  }

  /** The commit keeps every session's prices in step with its cartelas exactly when it is harmless. */
  lemma {:induction false} CommitKeepsPricesIff(st: State, slotId: nat, entryFee: nat)
    requires Safe(st) && slotId < |st.slots| && FeeTask(slotId, entryFee) in st.tasks
    requires forall i | 0 <= i < |st.sessions| :: Frozen(st.sessions[i])
    ensures (forall i | 0 <= i < |st.sessions| :: Frozen(CommitFee(st, slotId, entryFee).sessions[i]))
      <==> CommitIsHarmless(st, slotId, entryFee)
  {
    assert TaskOk(st, FeeTask(slotId, entryFee));
    var st' := CommitFee(st, slotId, entryFee);
    forall i | 0 <= i < |st.sessions|
      ensures Frozen(st'.sessions[i]) <==> (st.sessions[i].slotId == slotId && st.sessions[i].status == READY ==>
        st.sessions[i].registrations == [] || st.sessions[i].entryFee == entryFee)
    {
      var kind := KindOf(st.slots[st.sessions[i].slotId]);
      RepricedIsFrozenIff(st.sessions[i], kind, slotId, entryFee);
      if st.sessions[i].slotId != slotId || st.sessions[i].status != READY {
        assert st'.sessions[i] == st.sessions[i];
      } else {
        assert st'.sessions[i] == WithFee(st.sessions[i], slotId, entryFee, entryFee - kind.prizePerCartela);
      }
    }
    if CommitIsHarmless(st, slotId, entryFee) {
      assert forall i | 0 <= i < |st.sessions| :: Frozen(st'.sessions[i]);
    }
  }

  /** A later cancel gives a user back what was paid exactly when the fee did not move or the user paid
      nothing from the wallet. */
  lemma {:induction false} RefundAfterCommitIff(st: State, slotId: nat, entryFee: nat, sid: nat, user: nat)
    requires Safe(st) && slotId < |st.slots| && sid < |st.sessions| && Frozen(st.sessions[sid])
    requires st.sessions[sid].slotId == slotId && st.sessions[sid].status == READY
    ensures MoneyRefund(CommitFee(st, slotId, entryFee).sessions[sid], user)
      == PaidBy(st.sessions[sid].registrations, user)
      <==> entryFee == st.sessions[sid].entryFee || SourceCount(st.sessions[sid].registrations, user, MoneyWallet) == 0
  {
    var s := st.sessions[sid];
    RefundIsPaid(s, s.registrations, user);
    ProductsDiffer(entryFee, s.entryFee, SourceCount(s.registrations, user, MoneyWallet));
  }

  lemma {:induction false} ProductsDiffer(a: nat, b: nat, k: nat)
    ensures a * k == b * k <==> a == b || k == 0
  {
    if k > 1 {
      ProductsDiffer(a, b, k - 1);
      assert a * k == a * (k - 1) + a && b * k == b * (k - 1) + b;
      if a < b {
        assert a * (k - 1) <= b * (k - 1) by { ProductGrows(a, b, k - 1); }
      } else {
        assert b * (k - 1) <= a * (k - 1) by { ProductGrows(b, a, k - 1); }
      }
    }
  }

  lemma {:induction false} ProductGrows(a: nat, b: nat, k: nat)
    requires a <= b
    ensures a * k <= b * k
  {
    if k > 0 {
      ProductGrows(a, b, k - 1);
      assert a * k == a * (k - 1) + a && b * k == b * (k - 1) + b;
    }
  }

  // ---- A run that shows it ----

  const QUEUED := Slot(NEXT, NORMAL, AUTO, None, false, 1000, 800, None, None, false, Some(1))

  const BEFORE := State(0, 100, [QUEUED], [], Books([Wallet(5000, 0)], map[]), multiset{})

  /** The fee is checked, a player registers at the old fee, the fee is committed, the session cancelled. */
  const STALE_UPDATE :=
    [FirstRegistration(0), CheckFee(0, 2000), Register(0, 0, 7), UpdateFee(0, 2000), Cancel(0, false, false, None)]

  function Opened(): Session {
    NewSession(0, Fees(1000, 800, 200, 0), 0, READY, None, None)
  }

  function Bought(): Session {
    Opened().(prizeAmount := 800, companyRevenue := 200,
              registrations := [Registration(0, 7, REGISTERED, false, MoneyWallet, 1000, 800, 200)])
  }

  lemma {:induction false} OpenThenCheck()
    ensures Happen(BEFORE, FirstRegistration(0)) == BEFORE.(sessions := [Opened()])
    ensures Happen(BEFORE.(sessions := [Opened()]), CheckFee(0, 2000))
         == BEFORE.(sessions := [Opened()], tasks := multiset{FeeTask(0, 2000)})
  {
  }

  lemma {:induction false} RegisterBetween()
    ensures Happen(BEFORE.(sessions := [Opened()], tasks := multiset{FeeTask(0, 2000)}), Register(0, 0, 7))
         == BEFORE.(sessions := [Bought()], tasks := multiset{FeeTask(0, 2000)},
                    books := Books([Wallet(4000, 0)], map[GameEntry(0, 0, 0) := 1000]))
  {
    var st := BEFORE.(sessions := [Opened()], tasks := multiset{FeeTask(0, 2000)});
    assert !AnyLive(st.sessions);
    RegisterShape(st, 0, 0, 7, true);
    assert RegisterOne(st, 0, 0, 7, true).1 == Registered(0);
    var plan := Accounting(MoneyWallet, 1000, 800, 200);
    assert ResolveAccounting(Opened(), NORMAL, 0) == plan;
    assert AddToPot(ConfirmHold(Seat(Opened(), 0, 7, plan), None), NORMAL, 1) == Bought();
    assert [Wallet(5000, 0)][0 := Wallet(4000, 0)] == [Wallet(4000, 0)];
    assert map[][GameEntry(0, 0, 0) := 1000] == map[GameEntry(0, 0, 0) := 1000];
    assert ApplyPayment(st.books, 0, 0, 0, Opened(), MoneyWallet)
        == Success(Books([Wallet(4000, 0)], map[GameEntry(0, 0, 0) := 1000]));
    assert [Opened()][0 := Bought()] == [Bought()];
  }

  lemma {:induction false} CommitThenCancel(st: State)
    requires st == BEFORE.(sessions := [Bought()], tasks := multiset{FeeTask(0, 2000)},
                           books := Books([Wallet(4000, 0)], map[GameEntry(0, 0, 0) := 1000]))
    ensures var committed := Happen(st, UpdateFee(0, 2000));
      && committed.sessions == [Bought().(entryFee := 2000, companyFeePerCartela := 1200)]
      && committed.books == st.books && |committed.slots| == 1
      && Happen(committed, Cancel(0, false, false, None)).books.wallets == [Wallet(6000, 0)]
  {
    var committed := Happen(st, UpdateFee(0, 2000));
    var s := Bought().(entryFee := 2000, companyFeePerCartela := 1200);
    assert committed.sessions == [s];
    assert s.registrations[..0] == [];
    assert SourceCount(s.registrations, 0, MoneyWallet) == 1 && SourceCount(s.registrations, 0, BonusCartela) == 0;
  }

  lemma {:induction false} StaleBeforeCommit()
    ensures After(BEFORE, STALE_UPDATE[..3])
         == BEFORE.(sessions := [Bought()], tasks := multiset{FeeTask(0, 2000)},
                    books := Books([Wallet(4000, 0)], map[GameEntry(0, 0, 0) := 1000]))
  {
    OpenThenCheck();
    RegisterBetween();
    OneMoreEvent(BEFORE, [], STALE_UPDATE[0]);
    OneMoreEvent(BEFORE, STALE_UPDATE[..1], STALE_UPDATE[1]);
    OneMoreEvent(BEFORE, STALE_UPDATE[..2], STALE_UPDATE[2]);
    assert [] + [STALE_UPDATE[0]] == STALE_UPDATE[..1];
    assert STALE_UPDATE[..1] + [STALE_UPDATE[1]] == STALE_UPDATE[..2];
    assert STALE_UPDATE[..2] + [STALE_UPDATE[2]] == STALE_UPDATE[..3];
  }

  /** Starting with 5000, the only player ends with 6000: registering and being cancelled is not undone
      by a run whose fee update is stale. */
  lemma {:induction false} StaleFeeBreaksRefund()
    ensures Initial(BEFORE) && !SteadyRun(BEFORE, STALE_UPDATE)
    ensures After(BEFORE, STALE_UPDATE).books.wallets == [Wallet(6000, 0)] != BEFORE.books.wallets
  {
    StaleBeforeCommit();
    var bought := After(BEFORE, STALE_UPDATE[..3]);
    CommitThenCancel(bought);
    assert bought.sessions[0].slotId == 0;
    assert !IsSteady(bought, UpdateFee(0, 2000));
    OneMoreEvent(BEFORE, STALE_UPDATE[..3], STALE_UPDATE[3]);
    OneMoreEvent(BEFORE, STALE_UPDATE[..4], STALE_UPDATE[4]);
    assert STALE_UPDATE[..3] + [STALE_UPDATE[3]] == STALE_UPDATE[..4];
    assert STALE_UPDATE[..4] + [STALE_UPDATE[4]] == STALE_UPDATE;
  }
}
