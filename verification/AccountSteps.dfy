/** Every event keeps the accounts; the steady ones keep refund amounts and prices as well. */
module AccountSteps {
  import opened Common
  import opened Games
  import opened GameQueue
  import opened Wallets
  import opened PrizeSplit
  import opened Registering
  import opened WinningBalls
  import opened Rounds
  import opened Opening
  import opened Platform
  import opened Invariants
  import opened SessionSteps
  import opened Safety
  import opened Accounts
  import OpenerProofs

  /** At the commit of a fee update nobody is registered in the slot's READY session, or the fee stays. */
  predicate CommitIsHarmless(st: State, slotId: nat, entryFee: nat) {
    forall i | 0 <= i < |st.sessions| && st.sessions[i].slotId == slotId && st.sessions[i].status == READY ::
      st.sessions[i].registrations == [] || st.sessions[i].entryFee == entryFee
  }

  predicate IsSteady(st: State, e: Event) {
    e.UpdateFee? && FeeTask(e.slotId, e.entryFee) in st.tasks ==> CommitIsHarmless(st, e.slotId, e.entryFee)
  }

  // ---- Quiet events ----

  lemma {:induction false} QuietSession(st: State, st': State, sid: nat, opening: seq<Wallet>, steady: bool)
    requires Sound(st, opening, steady) && st'.books == st.books && sid < |st.sessions|
    requires |st'.sessions| == |st.sessions| && st'.sessions == st.sessions[sid := st'.sessions[sid]]
    requires SameMoney(st.sessions[sid], st'.sessions[sid], steady)
    ensures Sound(st', opening, steady)
  {
    QuietIsSound(st, st', opening, steady);
  }

  lemma {:induction false} SameSessions(st: State, st': State, opening: seq<Wallet>, steady: bool)
    requires Sound(st, opening, steady) && st'.books == st.books && st'.sessions == st.sessions
    ensures Sound(st', opening, steady)
  {
    QuietIsSound(st, st', opening, steady);
  }

  lemma {:induction false} ClaimIsQuiet(s: Session, manualRule: bool, user: nat, r: nat, verdict: Verdict, now: int,
                                        windowMs: int, graceMs: int, steady: bool)
    requires ClaimBingo(s, manualRule, user, r, verdict, now, windowMs, graceMs).Some?
    ensures SameMoney(s, ClaimBingo(s, manualRule, user, r, verdict, now, windowMs, graceMs).value, steady)
  {
  }

  lemma {:induction false} RejectIsQuiet(s: Session, manualRule: bool, c: nat, now: int, steady: bool)
    requires RegistrationsOk(s) && PendingOk(s) && RejectClaim(s, manualRule, c, now).Some?
    ensures SameMoney(s, RejectClaim(s, manualRule, c, now).value, steady)
  {
    PendingMeansChecking(s, c);
  }

  lemma {:induction false} HoldsAreQuiet(st: State, e: Event, opening: seq<Wallet>, steady: bool)
    requires Safe(st) && References(st) && Addressed(st, e) && Sound(st, opening, steady)
    requires e.SampleReserve? || e.Reserve? || e.SampleReserveBulk? || e.ReserveBulk? || e.ReleaseHold?
        || e.FindDueHolds? || e.ExpireHolds?
    ensures Sound(Apply(st, e), opening, steady)
  {
    var st' := Apply(st, e);
    assert |st'.sessions| == |st.sessions| && st'.sessions == st.sessions[e.sid := st'.sessions[e.sid]]
      && st'.books == st.books
        && st'.sessions[e.sid] == WithHolds(st.sessions[e.sid], st'.sessions[e.sid].holds) by {
      HoldsShape(st, e);
    }
    QuietSession(st, st', e.sid, opening, steady);
  }

  lemma {:induction false} HoldsShape(st: State, e: Event)
    requires References(st) && Addressed(st, e)
    requires e.SampleReserve? || e.Reserve? || e.SampleReserveBulk? || e.ReserveBulk? || e.ReleaseHold?
        || e.FindDueHolds? || e.ExpireHolds?
    ensures var st' := Apply(st, e);
      && |st'.sessions| == |st.sessions| && st'.sessions == st.sessions[e.sid := st'.sessions[e.sid]]
      && st'.books == st.books
      && st'.sessions[e.sid] == WithHolds(st.sessions[e.sid], st'.sessions[e.sid].holds)
  {
    if e.Reserve? || e.ReserveBulk? {
      ReservedShape(st, e);
    }
  }

  lemma {:induction false} ReservedShape(st: State, e: Event)
    requires References(st) && Addressed(st, e) && (e.Reserve? || e.ReserveBulk?)
    ensures var st' := Apply(st, e);
      && |st'.sessions| == |st.sessions| && st'.sessions == st.sessions[e.sid := st'.sessions[e.sid]]
      && st'.books == st.books
      && st'.sessions[e.sid] == WithHolds(st.sessions[e.sid], st'.sessions[e.sid].holds)
  {
  }

  /** A transaction on one session that leaves the money columns alone, whatever it does to the tasks. */
  lemma {:induction false} TryIsQuiet(st: State, tasks: multiset<Task>, tasks': multiset<Task>, sid: nat,
                                      result: Option<Session>, opening: seq<Wallet>, steady: bool)
    requires Sound(st, opening, steady) && sid < |st.sessions|
    requires result.Some? ==> SameMoney(st.sessions[sid], result.value, steady)
    ensures Sound(TrySession(st.(tasks := tasks), sid, result).(tasks := tasks'), opening, steady)
  {
    var st' := TrySession(st.(tasks := tasks), sid, result).(tasks := tasks');
    if result.Some? {
      QuietSession(st, st', sid, opening, steady);
    } else {
      SameSessions(st, st', opening, steady);
    }
  }

  lemma {:induction false} CallBallIsQuiet(st: State, sid: nat, ball: Ball, opening: seq<Wallet>, steady: bool)
    requires References(st) && Sound(st, opening, steady) && sid < |st.sessions|
    ensures Sound(CallBallNow(st, sid, ball), opening, steady)
  {
    TryIsQuiet(st, st.tasks, CallBallNow(st, sid, ball).tasks, sid, CallNumber(st.sessions[sid], ball, st.now),
               opening, steady);
  }

  lemma {:induction false} DrawIsQuiet(st: State, sid: nat, number: int, isLastNumber: bool, opening: seq<Wallet>,
                                       steady: bool)
    requires References(st) && Sound(st, opening, steady) && sid < |st.sessions|
    ensures Sound(RunDrawTask(st, sid, number, isLastNumber), opening, steady)
  {
    if DrawTask(sid, number, isLastNumber) in st.tasks {
      TryIsQuiet(st, DropTask(st, DrawTask(sid, number, isLastNumber)).tasks,
                 RunDrawTask(st, sid, number, isLastNumber).tasks, sid, CommitDraw(st.sessions[sid], number, st.now),
                   opening, steady);
    }
  }

  lemma {:induction false} GraceIsQuiet(st: State, sid: nat, graceMs: int, opening: seq<Wallet>, steady: bool)
    requires References(st) && Sound(st, opening, steady) && sid < |st.sessions|
    ensures Sound(RunGraceTask(st, sid, graceMs), opening, steady)
  {
    if GraceTask(sid) in st.tasks {
      QuietSession(st, RunGraceTask(st, sid, graceMs), sid, opening, steady);
    }
  }

  lemma {:induction false} CallsAreQuiet(st: State, e: Event, opening: seq<Wallet>, steady: bool)
    requires Safe(st) && References(st) && Addressed(st, e) && Sound(st, opening, steady)
    requires e.CallBall? || e.PickNumber? || e.DrawPicked?
    ensures Sound(Apply(st, e), opening, steady)
  {
    if e.CallBall? {
      assert Apply(st, e) == CallBallNow(st, e.sid, e.ball);
      CallBallIsQuiet(st, e.sid, e.ball, opening, steady);
    } else if e.PickNumber? {
      assert Apply(st, e) == PickNow(st, e.sid, e.number);
      PickIsQuiet(st, e.sid, e.number, opening, steady);
    } else {
      assert Apply(st, e) == RunDrawTask(st, e.sid, e.number, e.isLastNumber);
      DrawIsQuiet(st, e.sid, e.number, e.isLastNumber, opening, steady);
    }
  }

  lemma {:induction false} TimersAreQuiet(st: State, e: Event, opening: seq<Wallet>, steady: bool)
    requires Safe(st) && References(st) && Addressed(st, e) && Sound(st, opening, steady)
    requires e.BeginGrace? || e.CloseEarly? || e.Reschedule?
    ensures Sound(Apply(st, e), opening, steady)
  {
    if e.BeginGrace? {
      assert Apply(st, e) == RunGraceTask(st, e.sid, e.graceMs);
      GraceIsQuiet(st, e.sid, e.graceMs, opening, steady);
    } else if e.CloseEarly? {
      assert Apply(st, e) == CloseEarlyNow(st, e.sid);
      CloseEarlyIsQuiet(st, e.sid, opening, steady);
    } else {
      assert Apply(st, e) == RescheduleNow(st, e.sid, e.opensAt, e.startsAt);
      RescheduleIsQuiet(st, e.sid, e.opensAt, e.startsAt, opening, steady);
    }
  }

  lemma {:induction false} PickIsQuiet(st: State, sid: nat, number: int, opening: seq<Wallet>, steady: bool)
    requires References(st) && Sound(st, opening, steady) && sid < |st.sessions|
    ensures Sound(PickNow(st, sid, number), opening, steady)
  {
    SameSessions(st, PickNow(st, sid, number), opening, steady);
  }

  lemma {:induction false} CloseEarlyIsQuiet(st: State, sid: nat, opening: seq<Wallet>, steady: bool)
    requires References(st) && Sound(st, opening, steady) && sid < |st.sessions|
    ensures Sound(CloseEarlyNow(st, sid), opening, steady)
  {
    QuietSession(st, CloseEarlyNow(st, sid), sid, opening, steady);
  }

  lemma {:induction false} RescheduleIsQuiet(st: State, sid: nat, opensAt: Option<int>, startsAt: Option<int>,
                                             opening: seq<Wallet>, steady: bool)
    requires References(st) && Sound(st, opening, steady) && sid < |st.sessions|
    ensures Sound(RescheduleNow(st, sid, opensAt, startsAt), opening, steady)
  {
    QuietSession(st, RescheduleNow(st, sid, opensAt, startsAt), sid, opening, steady);
  }

  lemma {:induction false} FeeIsQuiet(st: State, slotId: nat, entryFee: nat, opening: seq<Wallet>, steady: bool)
    requires Safe(st) && Sound(st, opening, steady) && FeeTask(slotId, entryFee) in st.tasks
    requires steady ==> CommitIsHarmless(st, slotId, entryFee)
    ensures slotId < |st.slots| && Sound(CommitFee(st, slotId, entryFee), opening, steady)
  {
    assert TaskOk(st, FeeTask(slotId, entryFee));
    forall i | 0 <= i < |st.sessions|
      ensures SameMoney(st.sessions[i], CommitFee(st, slotId, entryFee).sessions[i], steady)
    {
      SameFee(st.sessions[i], KindOf(st.slots[st.sessions[i].slotId]), slotId, entryFee, steady);
    }
    QuietIsSound(st, CommitFee(st, slotId, entryFee), opening, steady);
  }

  lemma {:induction false} SameFee(s: Session, kind: SlotKind, slotId: nat, entryFee: nat, steady: bool)
    requires PricesOk(s, kind) && (s.slotId == slotId ==> !kind.category.BONUS?)
    requires steady && s.slotId == slotId && s.status == READY ==> s.registrations == [] || s.entryFee == entryFee
    ensures SameMoney(s, WithFee(s, slotId, entryFee, entryFee - kind.prizePerCartela), steady)
  {
  }

  // ---- Sessions that open and start ----

  lemma {:induction false} CreateIsSound(st: State, request: SlotRequest, opening: seq<Wallet>, steady: bool)
    requires Sound(st, opening, steady) && CreateGameSlot(st, request).Some?
    ensures Sound(CreateGameSlot(st, request).value, opening, steady)
  {
    var st' := CreateGameSlot(st, request).value;
    if request.category.BIG_GAME? {
      EmptySessionIsSound(st, st', st'.sessions[|st.sessions|], opening, steady);
    } else {
      SameSessions(st, st', opening, steady);
    }
  }

  lemma {:induction false} StartIsSound(st: State, slotId: nat, config: StartConfig, opening: seq<Wallet>, steady: bool)
    requires Sound(st, opening, steady) && slotId < |st.slots| && StartGame(st, slotId, config).Some?
    ensures Sound(StartGame(st, slotId, config).value, opening, steady)
  {
    var st' := StartGame(st, slotId, config).value;
    var ready := FindReady(st.sessions, slotId);
    if ready.Some? {
      QuietSession(st, st', ready.value, opening, steady);
    } else {
      EmptySessionIsSound(st, st', st'.sessions[|st.sessions|], opening, steady);
    }
  }

  lemma {:induction false} OpenNextIsSound(st: State, options: OpenerOptions, recentlyFinished: bool, durationMs: int,
                                           opening: seq<Wallet>, steady: bool)
    requires Safe(st) && Sound(st, opening, steady)
    ensures Sound(OpenNext(st, options, recentlyFinished, durationMs), opening, steady)
  {
    var st' := OpenNext(st, options, recentlyFinished, durationMs);
    if !OpenerProofs.MayOpen(st, options, recentlyFinished) {
      SameSessions(st, st', opening, steady);
    } else if HeadReady(st.slots, st.sessions).Some? {
      OpenerProofs.RunWithHead(st, options, recentlyFinished, durationMs);
      RetiringIsSound(st, st', HeadReady(st.slots, st.sessions).value, opening, steady);
    } else {
      OpenerProofs.RunWithoutHead(st, options, recentlyFinished, durationMs);
      if |st'.sessions| > |st.sessions| {
        EmptySessionIsSound(st, st', st'.sessions[|st.sessions|], opening, steady);
      } else {
        SameSessions(st, st', opening, steady);
      }
    }
  }

  lemma {:induction false} RetiringIsSound(st: State, st': State, head: nat, opening: seq<Wallet>, steady: bool)
    requires Safe(st) && Sound(st, opening, steady) && st'.books == st.books
    requires |st'.sessions| == |st.sessions| && head < |st.sessions|
    requires forall i | 0 <= i < |st.sessions| ::
      if i == head then st'.sessions[i] == st.sessions[i].(scheduledStartAt := st'.sessions[i].scheduledStartAt)
      else st'.sessions[i] == SoftRetire(st.slots, st.sessions[i], false)
    ensures Sound(st', opening, steady)
  {
    forall i | 0 <= i < |st.sessions|
      ensures SameMoney(st.sessions[i], st'.sessions[i], steady)
    {
      var s := st.sessions[i];
      if s.status == READY && s.registrations != [] {
        assert s.registrations[0].status == REGISTERED;
      }
    }
    QuietIsSound(st, st', opening, steady);
  }

  // ---- Registering ----

  lemma {:induction false} RowAdded(registrations: seq<Registration>, row: Registration, user: nat)
    ensures var cost := if row.userId == user && row.source == MoneyWallet then row.entryFeeCents else 0;
      && EverPaidBy(registrations + [row], user) == EverPaidBy(registrations, user) + cost
      && PaidBy(registrations + [row], user) == PaidBy(registrations, user) + if row.status == VOID then 0 else cost
    ensures forall source ::
      SourceCount(registrations + [row], user, source)
      == SourceCount(registrations, user, source)
         + if row.userId == user && row.source == source && row.status != VOID then 1 else 0
  {
    assert (registrations + [row])[..|registrations|] == registrations;
  }

  /** The session after a cartela is paid for and seated, whichever way it was asked for. */
  function Taken(s: Session, user: nat, cartelaId: nat, plan: Accounting, hold: Option<nat>,
                 category: GameCategory): Session {
    AddToPot(ConfirmHold(Seat(s, user, cartelaId, plan), hold), category, 1)
  }

  lemma {:induction false} TakenIsSound(s: Session, kind: SlotKind, user: nat, cartelaId: nat, bonus: nat,
                                        hold: Option<nat>,
                                         count: nat, steady: bool)
    requires SessionSound(s, count, steady) && PricesOk(s, kind) && user < count
    requires var plan := ResolveAccounting(s, kind.category, bonus);
        plan.source == MoneyWallet ==> plan.entryFeeCents > 0
    ensures var plan := ResolveAccounting(s, kind.category, bonus);
      var s' := Taken(s, user, cartelaId, plan, hold, kind.category);
      SessionSound(s', count, steady)
  {
    Distribute(s.companyFeePerCartela, |s.registrations|, 1);
  }

  lemma {:induction false} TakenLedger(ledger: map<LedgerKey, nat>, sid: nat, s: Session, s': Session,
                                       row: Registration, steady: bool)
    requires LedgerFor(ledger, sid, s, steady) && s'.registrations == s.registrations + [row] && s'.status == s.status
    requires s.status == READY || s.status == PLAYING
    ensures GameEntry(row.userId, sid, |s.registrations|) !in ledger
    ensures row.source != MoneyWallet ==> LedgerFor(ledger, sid, s', steady)
    ensures row.source == MoneyWallet ==>
      LedgerFor(ledger[GameEntry(row.userId, sid, |s.registrations|) := row.entryFeeCents], sid, s', steady)
  {
    var n := |s.registrations|;
    assert !MoneyRow(s, n, row.userId);
    assert forall u: nat, r: nat | r != n :: MoneyRow(s', r, u) <==> MoneyRow(s, r, u);
    assert forall u: nat :: MoneyRow(s', n, u) <==> row.source == MoneyWallet && u == row.userId;
    if row.source == MoneyWallet {
      var after := ledger[GameEntry(row.userId, sid, n) := row.entryFeeCents];
      forall u: nat, r: nat
        ensures GameEntry(u, sid, r) in after <==> MoneyRow(s', r, u)
      {
        assert GameEntry(u, sid, r) in ledger <==> MoneyRow(s, r, u);
        if r == n { assert !MoneyRow(s, n, u); }
      }
    } else {
      forall u: nat, r: nat
        ensures GameEntry(u, sid, r) in ledger <==> MoneyRow(s', r, u)
      {
        assert GameEntry(u, sid, r) in ledger <==> MoneyRow(s, r, u);
        if r == n { assert !MoneyRow(s, n, u); }
      }
    }
  }

  /** What a successful payment does to the books, when its ledger key is new. */
  lemma {:induction false} PaymentEffect(books: Books, user: nat, sid: nat, index: nat, s: Session,
                                         category: GameCategory)
    requires user < |books.wallets| && GameEntry(user, sid, index) !in books.ledger
    requires var plan := ResolveAccounting(s, category, books.wallets[user].bonus);
      ApplyPayment(books, user, sid, index, s, plan.source).Success?
    ensures var plan := ResolveAccounting(s, category, books.wallets[user].bonus);
      var after := ApplyPayment(books, user, sid, index, s, plan.source).value;
      && |after.wallets| == |books.wallets|
      && (forall u | 0 <= u < |books.wallets| && u != user :: after.wallets[u] == books.wallets[u])
      && after.wallets[user].money
         == books.wallets[user].money - (if plan.source == MoneyWallet then plan.entryFeeCents else 0)
      && after.wallets[user].bonus == books.wallets[user].bonus - (if plan.source == BonusCartela then 1 else 0)
      && after.ledger
        == if plan.source == MoneyWallet then books.ledger[GameEntry(user, sid, index) := plan.entryFeeCents]
                         else books.ledger
  {
  }

  lemma NoRefundYet(ledger: map<LedgerKey, nat>, sid: nat, s: Session, user: nat)
    requires RefundsOk(ledger, sid, s) && s.status != CANCELLED
    ensures RefundOf(ledger, sid, user) == 0
  {
  }

  lemma {:induction false} SeatedBalance(s: Session, s': Session, row: Registration, sid: nat,
                                         before: map<LedgerKey, nat>, after: map<LedgerKey, nat>, user: nat)
    requires s'.registrations == s.registrations + [row] && s'.status == s.status && s.status != FINISHED
    requires row.status == REGISTERED && RefundOf(before, sid, user) == RefundOf(after, sid, user)
    ensures Balance(s', sid, after, user) - Balance(s, sid, before, user)
         == if row.userId == user && row.source == MoneyWallet then 0 - row.entryFeeCents else 0
    ensures SourceCount(s'.registrations, user, BonusCartela) - SourceCount(s.registrations, user, BonusCartela)
         == if row.userId == user && row.source == BonusCartela then 1 else 0
  {
    RowAdded(s.registrations, row, user);
  }

  lemma {:induction false} TakeIsSound(st: State, sid: nat, user: nat, cartelaId: nat, hold: Option<nat>,
                                       opening: seq<Wallet>, steady: bool)
    requires Safe(st) && References(st) && Sound(st, opening, steady) && sid < |st.sessions|
    requires user < |st.books.wallets|
    requires st.sessions[sid].status == READY || st.sessions[sid].status == PLAYING
    requires var s, category := st.sessions[sid], st.slots[st.sessions[sid].slotId].category;
      ApplyPayment(st.books, user, sid, |s.registrations|, s,
                   ResolveAccounting(s, category, st.books.wallets[user].bonus).source).Success?
    ensures var s, category := st.sessions[sid], st.slots[st.sessions[sid].slotId].category;
      var plan := ResolveAccounting(s, category, st.books.wallets[user].bonus);
      var books := ApplyPayment(st.books, user, sid, |s.registrations|, s, plan.source).value;
      Sound(st.(sessions := st.sessions[sid := Taken(s, user, cartelaId, plan, hold, category)], books := books),
            opening, steady)
  {
    var s, slot := st.sessions[sid], st.slots[st.sessions[sid].slotId];
    var plan := ResolveAccounting(s, slot.category, st.books.wallets[user].bonus);
    var s' := Taken(s, user, cartelaId, plan, hold, slot.category);
    var row := RowFor(user, cartelaId, plan);
    assert s'.registrations == s.registrations + [row] && s'.status == s.status;
    TakenIsSound(s, KindOf(slot), user, cartelaId, st.books.wallets[user].bonus, hold, |opening|, steady);
    TakenLedger(st.books.ledger, sid, s, s', row, steady);
    PaymentEffect(st.books, user, sid, |s.registrations|, s, slot.category);
    SeatIsSound(st, sid, s', ApplyPayment(st.books, user, sid, |s.registrations|, s, plan.source).value, row, opening,
                steady);
  }

  lemma {:induction false} SeatIsSound(st: State, sid: nat, s': Session, books: Books, row: Registration,
                                       opening: seq<Wallet>, steady: bool)
    requires Sound(st, opening, steady) && sid < |st.sessions| && SessionSound(s', |opening|, steady)
    requires var s := st.sessions[sid];
      && s'.registrations == s.registrations + [row] && s'.status == s.status && row.status == REGISTERED
      && (s.status == READY || s.status == PLAYING)
    requires |books.wallets| == |st.books.wallets| && row.userId < |books.wallets|
    requires forall u | 0 <= u < |books.wallets| && u != row.userId :: books.wallets[u] == st.books.wallets[u]
    requires var before, after := st.books.wallets[row.userId], books.wallets[row.userId];
      && after.money == before.money - (if row.source == MoneyWallet then row.entryFeeCents else 0)
      && after.bonus == before.bonus - (if row.source == BonusCartela then 1 else 0)
    requires LedgerFor(books.ledger, sid, s', steady) && AgreeExcept(st.books.ledger, books.ledger, sid)
    ensures Sound(st.(sessions := st.sessions[sid := s'], books := books), opening, steady)
  {
    forall u | 0 <= u < |opening|
      ensures books.wallets[u].money - st.books.wallets[u].money
           == Balance(s', sid, books.ledger, u) - Balance(st.sessions[sid], sid, st.books.ledger, u)
      ensures books.wallets[u].bonus - st.books.wallets[u].bonus
           == SourceCount(st.sessions[sid].registrations, u, BonusCartela)
             - SourceCount(s'.registrations, u, BonusCartela)
    {
      NoRefundYet(st.books.ledger, sid, st.sessions[sid], u);
      NoRefundYet(books.ledger, sid, s', u);
      SeatedBalance(st.sessions[sid], s', row, sid, st.books.ledger, books.ledger, u);
    }
    MoveIsSound(st, st.(sessions := st.sessions[sid := s'], books := books), sid, opening, steady);
  }

  lemma {:induction false} RegisterOneIsSound(st: State, sid: nat, user: nat, cartelaId: nat, limitBigGames: bool,
                                              opening: seq<Wallet>, steady: bool)
    requires Safe(st) && References(st) && Sound(st, opening, steady) && sid < |st.sessions|
    requires user < |st.books.wallets|
    ensures Sound(RegisterOne(st, sid, user, cartelaId, limitBigGames).0, opening, steady)
  {
    var (st', result) := RegisterOne(st, sid, user, cartelaId, limitBigGames);
    if result.Registered? {
      OpenForRegistration(st, sid);
      TakeIsSound(st, sid, user, cartelaId, FindHold(st.sessions[sid].holds, cartelaId, st.now), opening, steady);
    }
  }

  lemma {:induction false} RegisterAllIsSound(st: State, sid: nat, user: nat, cartelaIds: seq<nat>, limitBigGames: bool,
                                              opening: seq<Wallet>, steady: bool)
    requires Safe(st) && References(st) && Sound(st, opening, steady) && sid < |st.sessions|
    requires user < |st.books.wallets|
    ensures Sound(RegisterAll(st, sid, user, cartelaIds, limitBigGames), opening, steady)
  {
    if cartelaIds != [] {
      var front := cartelaIds[..|cartelaIds| - 1];
      RegisterAllIsSound(st, sid, user, front, limitBigGames, opening, steady);
      RegisterAllIsGood(st, sid, user, front, limitBigGames);
      RegisterOneIsSound(RegisterAll(st, sid, user, front, limitBigGames), sid, user, cartelaIds[|cartelaIds| - 1],
                         limitBigGames, opening, steady);
    }
  }

  lemma {:induction false} ConfirmIsSound(st: State, sid: nat, hold: nat, user: nat, opening: seq<Wallet>, steady: bool)
    requires Safe(st) && References(st) && Sound(st, opening, steady) && sid < |st.sessions|
    requires user < |st.books.wallets|
    ensures Sound(ConfirmReservation(st, sid, hold, user).0, opening, steady)
  {
    var (st', result) := ConfirmReservation(st, sid, hold, user);
    if result.Registered? {
      OpenForRegistration(st, sid);
      TakeIsSound(st, sid, user, st.sessions[sid].holds[hold].cartelaId, Some(hold), opening, steady);
    }
  }

  // ---- Paying winners ----

  /** The ledger after the first `count` winners of a session were paid. */
  ghost predicate PaidPrizes(before: map<LedgerKey, nat>, after: map<LedgerKey, nat>, sid: nat, s: Session, count: nat)
    requires count <= |Winners(s)|
  {
    && AgreeExcept(before, after, sid)
    && (forall key: LedgerKey | !key.PrizeWin? ::
        (key in after <==> key in before) && (key in after ==> after[key] == before[key]))
    && (forall u: nat, r: nat ::
        PrizeWin(u, sid, r) in after <==> r in Winners(s)[..count] && s.registrations[r].userId == u)
    && (forall k | 0 <= k < count :: PrizePaid(after, sid, s, k))
  }

  lemma {:induction false} OneMoreKey(first: map<LedgerKey, nat>, before: map<LedgerKey, nat>, sid: nat, s: Session,
                                      k: nat)
    requires k < |Winners(s)| && PaidPrizes(first, before, sid, s, k)
    ensures PrizeWin(s.registrations[Winners(s)[k]].userId, sid, Winners(s)[k]) !in before
    ensures forall i | 0 <= i < k :: Winners(s)[i] != Winners(s)[k]
    ensures Winners(s)[..k + 1] == Winners(s)[..k] + [Winners(s)[k]]
  {
    var winners := Winners(s);
    assert winners[..k + 1] == winners[..k] + [winners[k]];
    assert forall i | 0 <= i < k :: winners[i] < winners[k];
    assert winners[k] !in winners[..k];
  }

  lemma {:induction false} OneMorePrize(first: map<LedgerKey, nat>, before: map<LedgerKey, nat>, sid: nat, s: Session,
                                        k: nat)
    requires k < |Winners(s)| && PaidPrizes(first, before, sid, s, k)
    ensures var key := PrizeWin(s.registrations[Winners(s)[k]].userId, sid, Winners(s)[k]);
      PaidPrizes(first, before[key := Share(s.prizeAmount, |Winners(s)|, k)], sid, s, k + 1)
  {
    var winners := Winners(s);
    var key := PrizeWin(s.registrations[winners[k]].userId, sid, winners[k]);
    var after := before[key := Share(s.prizeAmount, |winners|, k)];
    OneMoreKey(first, before, sid, s, k);
    OneMoreRow(before, after, sid, s, k);
    OneMoreAmount(before, after, sid, s, k);
  }

  lemma {:induction false} OneMoreRow(before: map<LedgerKey, nat>, after: map<LedgerKey, nat>, sid: nat, s: Session,
                                      k: nat)
    requires k < |Winners(s)|
    requires forall u: nat, r: nat ::
        PrizeWin(u, sid, r) in before <==> r in Winners(s)[..k] && s.registrations[r].userId == u
    requires after == before[PrizeWin(s.registrations[Winners(s)[k]].userId, sid, Winners(s)[k])
                             := Share(s.prizeAmount, |Winners(s)|, k)]
    requires Winners(s)[..k + 1] == Winners(s)[..k] + [Winners(s)[k]]
    ensures forall u: nat, r: nat ::
      PrizeWin(u, sid, r) in after <==> r in Winners(s)[..k + 1] && s.registrations[r].userId == u
  {
    var winners := Winners(s);
    forall u: nat, r: nat
      ensures PrizeWin(u, sid, r) in after <==> r in winners[..k + 1] && s.registrations[r].userId == u
    {
      assert r in winners[..k + 1] <==> r in winners[..k] || r == winners[k];
    }
  }

  lemma {:induction false} OneMoreAmount(before: map<LedgerKey, nat>, after: map<LedgerKey, nat>, sid: nat, s: Session,
                                         k: nat)
    requires k < |Winners(s)| && forall i | 0 <= i < k :: PrizePaid(before, sid, s, i)
    requires forall i | 0 <= i < k :: Winners(s)[i] != Winners(s)[k]
    requires after == before[PrizeWin(s.registrations[Winners(s)[k]].userId, sid, Winners(s)[k])
                             := Share(s.prizeAmount, |Winners(s)|, k)]
    ensures forall i | 0 <= i <= k :: PrizePaid(after, sid, s, i)
  {
    forall i | 0 <= i <= k
      ensures PrizePaid(after, sid, s, i)
    {
      assert i < k ==> PrizePaid(before, sid, s, i);
    }
  }

  lemma {:induction false} NoPrizesYet(ledger: map<LedgerKey, nat>, sid: nat, s: Session)
    requires forall u: nat, r: nat :: PrizeWin(u, sid, r) !in ledger
    ensures PaidPrizes(ledger, ledger, sid, s, 0)
  {
  }

  ghost predicate PaidWallets(before: seq<Wallet>, after: seq<Wallet>, s: Session, count: nat)
    requires count <= |Winners(s)|
  {
    && |after| == |before|
    && forall u | 0 <= u < |before| ::
         after[u].money == before[u].money + WonUpTo(s, u, count) && after[u].bonus == before[u].bonus
  }

  lemma {:induction false} PayWinnersPays(books: Books, sid: nat, s: Session, count: nat)
    requires count <= |Winners(s)| && PayWinners(books, sid, s, count).Success?
    requires forall u: nat, r: nat :: PrizeWin(u, sid, r) !in books.ledger
    ensures PaidPrizes(books.ledger, PayWinners(books, sid, s, count).value.ledger, sid, s, count)
    ensures PaidWallets(books.wallets, PayWinners(books, sid, s, count).value.wallets, s, count)
  {
    if count == 0 {
      NoPrizesYet(books.ledger, sid, s);
    } else {
      PayWinnersPays(books, sid, s, count - 1);
      OneMoreWinner(books, PayWinners(books, sid, s, count - 1).value, sid, s, count);
    }
  }

  lemma {:induction false} OneMoreWinner(books: Books, before: Books, sid: nat, s: Session, count: nat)
    requires 0 < count <= |Winners(s)|
    requires PaidPrizes(books.ledger, before.ledger, sid, s, count - 1)
    requires PaidWallets(books.wallets, before.wallets, s, count - 1)
    requires var r := Winners(s)[count - 1];
      CreditWallet(before, s.registrations[r].userId, Share(s.prizeAmount, |Winners(s)|, count - 1),
                   PrizeWin(s.registrations[r].userId, sid, r)).Success?
    ensures var r := Winners(s)[count - 1];
      var after := CreditWallet(before, s.registrations[r].userId, Share(s.prizeAmount, |Winners(s)|, count - 1),
                                PrizeWin(s.registrations[r].userId, sid, r)).value;
      PaidPrizes(books.ledger, after.ledger, sid, s, count) && PaidWallets(books.wallets, after.wallets, s, count)
  {
    var k := count - 1;
    var user := s.registrations[Winners(s)[k]].userId;
    var key, share := PrizeWin(user, sid, Winners(s)[k]), Share(s.prizeAmount, |Winners(s)|, k);
    assert key !in before.ledger by { OneMoreKey(books.ledger, before.ledger, sid, s, k); }
    OneMoreCredit(before, sid, s, count);
    assert PaidPrizes(books.ledger, before.ledger[key := share], sid, s, count) by {
      OneMorePrize(books.ledger, before.ledger, sid, s, k);
    }
  }

  lemma {:induction false} OneMoreCredit(before: Books, sid: nat, s: Session, count: nat)
    requires 0 < count <= |Winners(s)|
    requires var r := Winners(s)[count - 1];
      var key := PrizeWin(s.registrations[r].userId, sid, r);
      && key !in before.ledger
      && CreditWallet(before, s.registrations[r].userId, Share(s.prizeAmount, |Winners(s)|, count - 1), key).Success?
    ensures var r := Winners(s)[count - 1];
      var user := s.registrations[r].userId;
      var share := Share(s.prizeAmount, |Winners(s)|, count - 1);
      var after := CreditWallet(before, user, share, PrizeWin(user, sid, r)).value;
      && after.ledger == before.ledger[PrizeWin(user, sid, r) := share]
      && |after.wallets| == |before.wallets|
      && forall u | 0 <= u < |before.wallets| ::
           && after.wallets[u].money == before.wallets[u].money + WonUpTo(s, u, count) - WonUpTo(s, u, count - 1)
           && after.wallets[u].bonus == before.wallets[u].bonus
  {
  }

  lemma {:induction false} FinalizeIsSound(st: State, sid: nat, graceMs: int, clock: int, opening: seq<Wallet>,
                                           steady: bool)
    requires Safe(st) && References(st) && Sound(st, opening, steady) && sid < |st.sessions|
    requires FinalizeWinnerWindow(st, sid, graceMs, clock).Success?
    ensures Sound(FinalizeWinnerWindow(st, sid, graceMs, clock).value, opening, steady)
  {
    var s := st.sessions[sid];
    var n := |Winners(s)|;
    var st' := FinalizeWinnerWindow(st, sid, graceMs, clock).value;
    var s' := st'.sessions[sid];
    PayWinnersPays(st.books, sid, s, n);
    assert Winners(s)[..n] == Winners(s);
    SameWinnings(s, s', 0, n);
    PaidLedger(st.books.ledger, st'.books.ledger, sid, s, s', steady);
    forall u | 0 <= u < |opening|
      ensures Balance(s', sid, st'.books.ledger, u) == Balance(s, sid, st.books.ledger, u) + WonUpTo(s, u, n)
    {
      SameWinnings(s, s', u, n);
      NoRefundYet(st.books.ledger, sid, s, u);
      NoRefundYet(st'.books.ledger, sid, s', u);
    }
    MoveIsSound(st, st', sid, opening, steady);
  }

  lemma {:induction false} PaidLedger(before: map<LedgerKey, nat>, after: map<LedgerKey, nat>, sid: nat, s: Session,
                                      s': Session, steady: bool)
    requires LedgerFor(before, sid, s, steady) && PaidPrizes(before, after, sid, s, |Winners(s)|)
    requires s'.registrations == s.registrations && s'.prizeAmount == s.prizeAmount
    requires s.status == WINNER_WINDOW && s'.status == FINISHED
    ensures LedgerFor(after, sid, s', steady)
  {
    assert Winners(s') == Winners(s) && Winners(s)[..|Winners(s)|] == Winners(s);
    assert forall u: nat, r: nat :: MoneyRow(s', r, u) <==> MoneyRow(s, r, u);
    forall u: nat, r: nat
      ensures GameEntry(u, sid, r) in after <==> MoneyRow(s', r, u)
    {
      assert GameEntry(u, sid, r) in before <==> MoneyRow(s, r, u);
    }
    forall k | 0 <= k < |Winners(s')|
      ensures PrizePaid(after, sid, s', k)
    {
      assert PrizePaid(after, sid, s, k);
    }
  }

  lemma FirstTwo(s: seq<nat>)
    requires forall i, j | 0 <= i < j < |s| :: s[i] < s[j]
    ensures |s| >= 2 ==> s[0] < s[1]
  {
  }

  /** A session with one winning cartela pays all of its prize to its owner. */
  lemma {:induction false} SoleWinner(s: Session, r: nat)
    requires r < |s.registrations| && s.registrations[r].status == WINNER && s.registrations[r].isWinner
    requires forall i | 0 <= i < |s.registrations| && i != r :: s.registrations[i].status != WINNER
    ensures Winners(s) == [r]
    ensures forall u :: WonUpTo(s, u, 1) == if s.registrations[r].userId == u then s.prizeAmount else 0
  {
    var winners := Winners(s);
    assert r in winners;
    FirstTwo(winners);
    assert forall i | 0 <= i < |winners| :: winners[i] == r;
    assert Share(s.prizeAmount, 1, 0) == s.prizeAmount;
    forall u
      ensures WonUpTo(s, u, 1) == if s.registrations[r].userId == u then s.prizeAmount else 0
    {
      assert WonUpTo(s, u, 0) == 0;
    }
  }

  /** What an approval that goes through has passed, and what it leaves. */
  lemma {:induction false} ApproveShape(st: State, sid: nat, c: nat, checkedAt: int)
    requires sid < |st.sessions| && st.sessions[sid].slotId < |st.slots| && ApproveClaim(st, sid, c, checkedAt).Some?
    ensures var s := st.sessions[sid];
      && c < |s.claims| && s.claims[c].status == PENDING
      && s.claims[c].registration < |s.registrations| && s.registrations[s.claims[c].registration].status == REGISTERED
    ensures var s, s' := st.sessions[sid], ApproveClaim(st, sid, c, checkedAt).value.sessions[sid];
      var r := s.claims[c].registration;
      && s'.status == FINISHED && s'.prizeAmount == s.prizeAmount
      && s'.companyRevenue == s.companyRevenue && s'.entryFee == s.entryFee
      && s'.prizePerCartela == s.prizePerCartela && s'.companyFeePerCartela == s.companyFeePerCartela
      && s'.registrations == s.registrations[r := s.registrations[r].(status := WINNER, isWinner := true)]
    ensures var s, st' := st.sessions[sid], ApproveClaim(st, sid, c, checkedAt).value;
      var user := s.registrations[s.claims[c].registration].userId;
      && |st'.sessions| == |st.sessions| && st'.sessions == st.sessions[sid := st'.sessions[sid]]
      && CreditWallet(st.books, user, s.prizeAmount, PrizeWin(user, sid, s.claims[c].registration))
        == Success(st'.books)
  {
  }

  lemma {:induction false} ApproveIsSound(st: State, sid: nat, c: nat, checkedAt: int, opening: seq<Wallet>,
                                          steady: bool)
    requires Safe(st) && References(st) && Sound(st, opening, steady) && sid < |st.sessions|
    requires ApproveClaim(st, sid, c, checkedAt).Some?
    ensures Sound(ApproveClaim(st, sid, c, checkedAt).value, opening, steady)
  {
    ApproveShape(st, sid, c, checkedAt);
    PendingMeansChecking(st.sessions[sid], c);
    ApprovedIsSound(st, ApproveClaim(st, sid, c, checkedAt).value, sid, st.sessions[sid].claims[c].registration,
                    opening, steady);
  }

  lemma {:induction false} ApprovedIsSound(st: State, st': State, sid: nat, r: nat, opening: seq<Wallet>, steady: bool)
    requires Sound(st, opening, steady) && sid < |st.sessions| && RegistrationsOk(st.sessions[sid])
    requires WindowOk(st.sessions[sid])
    requires st.sessions[sid].status == CHECKING
    requires r < |st.sessions[sid].registrations| && st.sessions[sid].registrations[r].status == REGISTERED
    requires |st'.sessions| == |st.sessions| && st'.sessions == st.sessions[sid := st'.sessions[sid]]
    requires var s, s' := st.sessions[sid], st'.sessions[sid];
      && s'.status == FINISHED && s'.prizeAmount == s.prizeAmount
      && s'.companyRevenue == s.companyRevenue && s'.entryFee == s.entryFee
      && s'.prizePerCartela == s.prizePerCartela && s'.companyFeePerCartela == s.companyFeePerCartela
      && s'.registrations == s.registrations[r := s.registrations[r].(status := WINNER, isWinner := true)]
    requires var s := st.sessions[sid];
      var user := s.registrations[r].userId;
      CreditWallet(st.books, user, s.prizeAmount, PrizeWin(user, sid, r)) == Success(st'.books)
    ensures Sound(st', opening, steady)
  {
    var s, s' := st.sessions[sid], st'.sessions[sid];
    var user := s.registrations[r].userId;
    OnlyWinner(s, s', r);
    assert PrizeWin(user, sid, r) !in st.books.ledger;
    assert user < |opening|;
    ApprovedLedger(st.books.ledger, sid, s, s', r, steady);
    forall u | 0 <= u < |opening|
      ensures Balance(s', sid, st'.books.ledger, u) - Balance(s, sid, st.books.ledger, u)
        == if u == user then s.prizeAmount else 0
      ensures SourceCount(s.registrations, u, BonusCartela) == SourceCount(s'.registrations, u, BonusCartela)
    {
      NoRefundYet(st.books.ledger, sid, s, u);
      NoRefundYet(st'.books.ledger, sid, s', u);
      ApprovedBalance(s, s', r, sid, st.books.ledger, st'.books.ledger, u);
    }
    MoveIsSound(st, st', sid, opening, steady);
  }

  lemma {:induction false} OnlyWinner(s: Session, s': Session, r: nat)
    requires WindowOk(s) && s.status == CHECKING && r < |s.registrations|
    requires s'.registrations == s.registrations[r := s.registrations[r].(status := WINNER, isWinner := true)]
    ensures Winners(s') == [r]
    ensures forall u :: WonUpTo(s', u, 1) == if s'.registrations[r].userId == u then s'.prizeAmount else 0
  {
    SoleWinner(s', r);
  }

  lemma {:induction false} ApprovedBalance(s: Session, s': Session, r: nat, sid: nat, before: map<LedgerKey, nat>,
                                           after: map<LedgerKey, nat>, user: nat)
    requires s.status == CHECKING && s'.status == FINISHED && s'.prizeAmount == s.prizeAmount
    requires r < |s.registrations| && s.registrations[r].status == REGISTERED
    requires s'.registrations == s.registrations[r := s.registrations[r].(status := WINNER, isWinner := true)]
    requires Winners(s') == [r] && forall u ::
        WonUpTo(s', u, 1) == if s'.registrations[r].userId == u then s'.prizeAmount else 0
    requires RefundOf(before, sid, user) == RefundOf(after, sid, user)
    ensures Balance(s', sid, after, user) - Balance(s, sid, before, user)
      == if user == s.registrations[r].userId then s.prizeAmount else 0
    ensures SourceCount(s.registrations, user, BonusCartela) == SourceCount(s'.registrations, user, BonusCartela)
  {
    RowsDecide(s.registrations, s'.registrations, user);
  }

  lemma {:induction false} ApprovedLedger(ledger: map<LedgerKey, nat>, sid: nat, s: Session, s': Session, r: nat,
                                          steady: bool)
    requires LedgerFor(ledger, sid, s, steady) && s.status == CHECKING && s'.status == FINISHED
    requires r < |s.registrations| && s.registrations[r].status != VOID && s'.prizeAmount == s.prizeAmount
    requires s'.registrations == s.registrations[r := s.registrations[r].(status := WINNER, isWinner := true)]
    requires Winners(s') == [r]
    ensures LedgerFor(ledger[PrizeWin(s.registrations[r].userId, sid, r) := s.prizeAmount], sid, s', steady)
  {
    var key := PrizeWin(s.registrations[r].userId, sid, r);
    ApprovedEntries(ledger, key, s.prizeAmount, sid, s, s');
    ApprovedPrize(ledger, sid, s', r, s.registrations[r].userId);
    ApprovedRefunds(ledger, key, s.prizeAmount, sid, s, s');
  }

  lemma {:induction false} ApprovedPrize(ledger: map<LedgerKey, nat>, sid: nat, s': Session, r: nat, owner: nat)
    requires forall u: nat, i: nat :: PrizeWin(u, sid, i) !in ledger
    requires s'.status == FINISHED && Winners(s') == [r] && r < |s'.registrations|
    requires s'.registrations[r].userId == owner
    ensures PrizesOk(ledger[PrizeWin(owner, sid, r) := s'.prizeAmount], sid, s')
  {
    var after := ledger[PrizeWin(owner, sid, r) := s'.prizeAmount];
    assert Winners(s')[0] == r;
    assert Share(s'.prizeAmount, 1, 0) == s'.prizeAmount;
    assert PrizePaid(after, sid, s', 0);
    forall u: nat, i: nat
      ensures PrizeWin(u, sid, i) in after <==> WinnerRow(s', i, u)
    {
    }
  }

  lemma {:induction false} ApprovedRefunds(ledger: map<LedgerKey, nat>, key: LedgerKey, amount: nat, sid: nat,
                                           s: Session, s': Session)
    requires RefundsOk(ledger, sid, s) && key.PrizeWin? && s.status != CANCELLED && s'.status != CANCELLED
    ensures RefundsOk(ledger[key := amount], sid, s')
  {
  }

  lemma {:induction false} ApprovedEntries(ledger: map<LedgerKey, nat>, key: LedgerKey, amount: nat, sid: nat,
                                           s: Session, s': Session)
    requires EntriesOk(ledger, sid, s) && EntryAmountsOk(ledger, sid, s) && key.PrizeWin?
    requires |s'.registrations| == |s.registrations|
    requires forall r | 0 <= r < |s.registrations| ::
      && s'.registrations[r].userId == s.registrations[r].userId
      && s'.registrations[r].source == s.registrations[r].source
      && s'.registrations[r].entryFeeCents == s.registrations[r].entryFeeCents
    ensures EntriesOk(ledger[key := amount], sid, s') && EntryAmountsOk(ledger[key := amount], sid, s')
  {
    var after := ledger[key := amount];
    forall u: nat, i: nat
      ensures GameEntry(u, sid, i) in after <==> MoneyRow(s', i, u)
    {
      assert GameEntry(u, sid, i) in ledger <==> MoneyRow(s, i, u);
    }
  }

  // ---- Cancelling ----

  /** Under frozen prices the refund, computed at today's fee, is what the user paid. */
  lemma {:induction false} RefundIsPaid(s: Session, registrations: seq<Registration>, user: nat)
    requires forall r | 0 <= r < |registrations| && registrations[r].source != NoPayment ::
      registrations[r].entryFeeCents == s.entryFee
    requires forall r | 0 <= r < |registrations| :: registrations[r].status != VOID
    ensures s.entryFee * SourceCount(registrations, user, MoneyWallet) == PaidBy(registrations, user)
    ensures EverPaidBy(registrations, user) == PaidBy(registrations, user)
  {
    if registrations != [] {
      var front := registrations[..|registrations| - 1];
      RefundIsPaid(s, front, user);
      var count := SourceCount(front, user, MoneyWallet);
      Distribute(s.entryFee, count, 1);
    }
  }

  lemma {:induction false} VoidedRows(registrations: seq<Registration>, user: nat)
    ensures PaidBy(VoidAll(registrations), user) == 0
    ensures EverPaidBy(VoidAll(registrations), user) == EverPaidBy(registrations, user)
    ensures forall source :: SourceCount(VoidAll(registrations), user, source) == 0
  {
    if registrations != [] {
      var n := |registrations| - 1;
      VoidedRows(registrations[..n], user);
      assert VoidAll(registrations)[..n] == VoidAll(registrations[..n]);
    }
  }

  /** Nobody outside the wallet table has paid. */
  lemma {:induction false} StrangersPaidNothing(registrations: seq<Registration>, user: nat)
    requires forall r | 0 <= r < |registrations| :: registrations[r].userId != user
    ensures EverPaidBy(registrations, user) == 0
  {
    if registrations != [] {
      StrangersPaidNothing(registrations[..|registrations| - 1], user);
    }
  }

  /** Without an entry fee nothing was paid, and no bonus cartela was used. */
  lemma {:induction false} FreeSession(s: Session, kind: SlotKind, registrations: seq<Registration>, user: nat)
    requires s.entryFee == 0 && PricesOk(s, kind) && registrations <= s.registrations
    ensures EverPaidBy(registrations, user) == 0 && PaidBy(registrations, user) == 0
    ensures SourceCount(registrations, user, BonusCartela) == 0
  {
    if registrations != [] {
      FreeSession(s, kind, registrations[..|registrations| - 1], user);
    }
  }

  lemma {:induction false} RefundedWallets(st: State, sid: nat, user: nat, opening: seq<Wallet>, steady: bool)
    requires Safe(st) && References(st) && Sound(st, opening, steady) && sid < |st.sessions| && user < |opening|
    requires st.sessions[sid].status in {READY, PLAYING, CHECKING}
    ensures var s := st.sessions[sid];
      var before, after := st.books.wallets[user], RefundAll(st.books, sid, s).wallets[user];
      && after.money == before.money + MoneyRefund(s, user)
      && after.bonus == before.bonus + SourceCount(s.registrations, user, BonusCartela)
  {
    var s := st.sessions[sid];
    assert Refund(user, sid) !in st.books.ledger;
    if s.entryFee == 0 {
      FreeSession(s, KindOf(st.slots[s.slotId]), s.registrations, user);
    }
  }

  lemma RefundKeys(books: Books, sid: nat, s: Session, user: nat)
    requires Refund(user, sid) !in books.ledger
    ensures var ledger := RefundAll(books, sid, s).ledger;
      && (Refund(user, sid) in ledger <==> s.entryFee > 0 && user < |books.wallets| && MoneyRefund(s, user) > 0)
      && (Refund(user, sid) in ledger ==> ledger[Refund(user, sid)] == MoneyRefund(s, user))
  {
  }

  /** Whoever has live money-paid cartelas has paid something, and nobody else. */
  lemma {:induction false} PaidIffRows(registrations: seq<Registration>, user: nat)
    requires forall r | 0 <= r < |registrations| ::
      registrations[r].status != VOID && (registrations[r].source == MoneyWallet ==> registrations[r].entryFeeCents > 0)
    ensures EverPaidBy(registrations, user) > 0 <==> SourceCount(registrations, user, MoneyWallet) > 0
  {
    if registrations != [] {
      PaidIffRows(registrations[..|registrations| - 1], user);
    }
  }

  lemma ProductPositiveIff(a: nat, b: nat)
    requires a > 0
    ensures a * b > 0 <==> b > 0
  {
  }

  lemma {:induction false} RefundedEntry(st: State, sid: nat, opening: seq<Wallet>, steady: bool, user: nat)
    requires Safe(st) && References(st) && Sound(st, opening, steady) && sid < |st.sessions|
    requires st.sessions[sid].status in {READY, PLAYING, CHECKING}
    ensures var s, ledger := st.sessions[sid], RefundAll(st.books, sid, st.sessions[sid]).ledger;
      && (Refund(user, sid) in ledger <==> EverPaidBy(s.registrations, user) > 0)
      && (Refund(user, sid) in ledger ==> ledger[Refund(user, sid)] == MoneyRefund(s, user))
      && (steady && Refund(user, sid) in ledger ==> MoneyRefund(s, user) == EverPaidBy(s.registrations, user))
      && (user < |opening| ==> RefundOf(ledger, sid, user) == MoneyRefund(s, user))
  {
    var s := st.sessions[sid];
    assert Refund(user, sid) !in st.books.ledger;
    RefundKeys(st.books, sid, s, user);
    PaidIffRows(s.registrations, user);
    if steady {
      RefundIsPaid(s, s.registrations, user);
    }
    if user >= |opening| {
      StrangersPaidNothing(s.registrations, user);
    }
    if s.entryFee == 0 {
      FreeSession(s, KindOf(st.slots[s.slotId]), s.registrations, user);
    } else {
      ProductPositiveIff(s.entryFee, SourceCount(s.registrations, user, MoneyWallet));
    }
  }

  lemma RefundsAddOnly(books: Books, sid: nat, s: Session)
    ensures forall key: LedgerKey | !key.Refund? || key.sessionId != sid ::
      && (key in RefundAll(books, sid, s).ledger <==> key in books.ledger)
      && (key in books.ledger ==> RefundAll(books, sid, s).ledger[key] == books.ledger[key])
  {
  }

  lemma {:induction false} RefundedLedger(st: State, sid: nat, opening: seq<Wallet>, steady: bool, cancelled: Session)
    requires Safe(st) && References(st) && Sound(st, opening, steady) && sid < |st.sessions|
    requires st.sessions[sid].status in {READY, PLAYING, CHECKING}
    requires cancelled == st.sessions[sid].(status := CANCELLED, scheduledStartAt := None,
                                            registrations := VoidAll(st.sessions[sid].registrations))
    ensures AgreeExcept(st.books.ledger, RefundAll(st.books, sid, st.sessions[sid]).ledger, sid)
    ensures LedgerFor(RefundAll(st.books, sid, st.sessions[sid]).ledger, sid, cancelled, steady)
  {
    var s := st.sessions[sid];
    var after := RefundAll(st.books, sid, s).ledger;
    RefundsAddOnly(st.books, sid, s);
    forall u: nat
      ensures Refund(u, sid) in after <==> EverPaidBy(cancelled.registrations, u) > 0
      ensures steady && Refund(u, sid) in after ==> after[Refund(u, sid)] == EverPaidBy(cancelled.registrations, u)
    {
      RefundedEntry(st, sid, opening, steady, u);
      VoidedRows(s.registrations, u);
    }
    VoidedEntries(st.books.ledger, after, sid, s, cancelled);
  }

  lemma {:induction false} VoidedEntries(before: map<LedgerKey, nat>, after: map<LedgerKey, nat>, sid: nat, s: Session,
                                         s': Session)
    requires EntriesOk(before, sid, s) && EntryAmountsOk(before, sid, s) && PrizesOk(before, sid, s)
    requires s.status != FINISHED && s'.status == CANCELLED && s'.registrations == VoidAll(s.registrations)
    requires forall key: LedgerKey | !key.Refund? ::
        (key in after <==> key in before) && (key in before ==> after[key] == before[key])
    ensures EntriesOk(after, sid, s') && EntryAmountsOk(after, sid, s') && PrizesOk(after, sid, s')
  {
    forall u: nat, r: nat
      ensures GameEntry(u, sid, r) in after <==> MoneyRow(s', r, u)
    {
      assert GameEntry(u, sid, r) in before <==> MoneyRow(s, r, u);
    }
  }

  lemma {:induction false} CancelIsSound(st: State, sid: nat, requeueSlot: bool, abortIfPlayers: bool,
                                         opening: seq<Wallet>, steady: bool)
    requires Safe(st) && References(st) && Sound(st, opening, steady) && sid < |st.sessions|
    requires CancelSession(st, sid, requeueSlot, abortIfPlayers).Some?
    ensures Sound(CancelSession(st, sid, requeueSlot, abortIfPlayers).value, opening, steady)
  {
    var s := st.sessions[sid];
    var st' := CancelSession(st, sid, requeueSlot, abortIfPlayers).value;
    var s' := st'.sessions[sid];
    forall u | 0 <= u < |opening|
      ensures st'.books.wallets[u].money - st.books.wallets[u].money
           == Balance(s', sid, st'.books.ledger, u) - Balance(s, sid, st.books.ledger, u)
      ensures st'.books.wallets[u].bonus - st.books.wallets[u].bonus
           == SourceCount(s.registrations, u, BonusCartela) - SourceCount(s'.registrations, u, BonusCartela)
    {
      RefundedWallets(st, sid, u, opening, steady);
      RefundedEntry(st, sid, opening, steady, u);
      NoRefundYet(st.books.ledger, sid, s, u);
      VoidedRows(s.registrations, u);
    }
    RefundedLedger(st, sid, opening, steady, s');
    VoidedIsSound(s, s', |opening|, steady);
    MoveIsSound(st, st', sid, opening, steady);
  }

  lemma {:induction false} VoidedIsSound(s: Session, s': Session, count: nat, steady: bool)
    requires SessionSound(s, count, steady)
    requires s' == s.(status := CANCELLED, scheduledStartAt := None, registrations := VoidAll(s.registrations))
    ensures SessionSound(s', count, steady)
  {
  }

  // ---- All events ----

  lemma {:induction false} ClaimNowIsSound(st: State, sid: nat, user: nat, registration: nat, verdict: Verdict,
                                           windowMs: int, graceMs: int, opening: seq<Wallet>, steady: bool)
    requires References(st) && Sound(st, opening, steady) && sid < |st.sessions|
    ensures Sound(ClaimNow(st, sid, user, registration, verdict, windowMs, graceMs), opening, steady)
  {
    var s := st.sessions[sid];
    var manualRule := st.slots[s.slotId].manualRule;
    var result := ClaimBingo(s, manualRule, user, registration, verdict, st.now, windowMs, graceMs);
    if result.Some? {
      ClaimIsQuiet(s, manualRule, user, registration, verdict, st.now, windowMs, graceMs, steady);
    }
    TryIsQuiet(st, st.tasks, st.tasks, sid, result, opening, steady);
  }

  lemma {:induction false} RejectNowIsSound(st: State, sid: nat, claim: nat, opening: seq<Wallet>, steady: bool)
    requires Safe(st) && References(st) && Sound(st, opening, steady) && sid < |st.sessions|
    ensures Sound(RejectNow(st, sid, claim), opening, steady)
  {
    var s := st.sessions[sid];
    var manualRule := st.slots[s.slotId].manualRule;
    var result := RejectClaim(s, manualRule, claim, st.now);
    if result.Some? {
      RejectIsQuiet(s, manualRule, claim, st.now, steady);
    }
    TryIsQuiet(st, st.tasks, st.tasks, sid, result, opening, steady);
  }

  lemma {:induction false} ClaimEventIsSound(st: State, e: Event, opening: seq<Wallet>, steady: bool)
    requires Safe(st) && References(st) && Addressed(st, e) && Sound(st, opening, steady)
    requires e.SubmitClaim? || e.Reject?
    ensures Sound(Apply(st, e), opening, steady)
  {
    match e
    case SubmitClaim(sid, user, registration, verdict, windowMs, graceMs) =>
      ClaimNowIsSound(st, sid, user, registration, verdict, windowMs, graceMs, opening, steady);
    case Reject(sid, claim) => RejectNowIsSound(st, sid, claim, opening, steady);
  }

  /** An ending transaction, opener included. */
  lemma {:induction false} ThenOpenIsSound(st: State, ended: Option<State>, deferred: bool, opener: Option<int>,
                                           opening: seq<Wallet>, steady: bool)
    requires Sound(st, opening, steady) && (ended.Some? ==> Sound(ended.value, opening, steady) && Safe(ended.value))
    ensures Sound(ThenOpen(st, ended, deferred, opener), opening, steady)
  {
    if ended.Some? && opener.Some? {
      OpenNextIsSound(ended.value, OpenerOptions(true, deferred), false, opener.value, opening, steady);
    }
  }

  lemma {:induction false} FinalizeNowIsSound(st: State, sid: nat, graceMs: int, clock: int, opening: seq<Wallet>,
                                              steady: bool)
    requires Safe(st) && References(st) && Sound(st, opening, steady) && sid < |st.sessions|
    requires FinalizeNow(st, sid, graceMs, clock).Some?
    ensures var ended := FinalizeNow(st, sid, graceMs, clock).value; Sound(ended, opening, steady) && Safe(ended)
  {
    FinalizeIsSound(st, sid, graceMs, clock, opening, steady);
    FinalizeIsGood(st, sid, graceMs, clock);
  }

  lemma {:induction false} NoWinnerIsSound(st: State, sid: nat, opening: seq<Wallet>, steady: bool)
    requires Safe(st) && References(st) && Sound(st, opening, steady) && sid < |st.sessions|
    requires EndWithoutWinnerNow(st, sid).Some?
    ensures var ended := EndWithoutWinnerNow(st, sid).value; Sound(ended, opening, steady) && Safe(ended)
  {
    QuietSession(st, EndWithoutWinnerNow(st, sid).value, sid, opening, steady);
    NoWinnerIsGood(st, sid);
  }

  lemma {:induction false} WindowThenOpenIsSound(st: State, sid: nat, graceMs: int, clock: int, opener: Option<int>,
                                                 opening: seq<Wallet>, steady: bool)
    requires Safe(st) && References(st) && Sound(st, opening, steady) && sid < |st.sessions|
    ensures Sound(ThenOpen(st, FinalizeNow(st, sid, graceMs, clock), false, opener), opening, steady)
  {
    if FinalizeNow(st, sid, graceMs, clock).Some? {
      FinalizeNowIsSound(st, sid, graceMs, clock, opening, steady);
    }
    ThenOpenIsSound(st, FinalizeNow(st, sid, graceMs, clock), false, opener, opening, steady);
  }

  lemma {:induction false} ApprovalThenOpenIsSound(st: State, sid: nat, claim: nat, checkedAt: int, opener: Option<int>,
                                                   opening: seq<Wallet>, steady: bool)
    requires Safe(st) && References(st) && Sound(st, opening, steady) && sid < |st.sessions|
    requires claim < |st.sessions[sid].claims| && st.sessions[sid].claims[claim].createdAt <= checkedAt <= st.now
    ensures Sound(ThenOpen(st, ApproveClaim(st, sid, claim, checkedAt), false, opener), opening, steady)
  {
    if ApproveClaim(st, sid, claim, checkedAt).Some? {
      ApproveIsSound(st, sid, claim, checkedAt, opening, steady);
      ApproveIsGood(st, sid, claim, checkedAt);
    }
    ThenOpenIsSound(st, ApproveClaim(st, sid, claim, checkedAt), false, opener, opening, steady);
  }

  lemma {:induction false} PayoutIsSound(st: State, e: Event, opening: seq<Wallet>, steady: bool)
    requires Safe(st) && References(st) && Addressed(st, e) && Sound(st, opening, steady)
    requires e.FinalizeWindow? || e.Approve?
    ensures Sound(Apply(st, e), opening, steady)
  {
    if e.FinalizeWindow? {
      assert Apply(st, e) == ThenOpen(st, FinalizeNow(st, e.sid, e.graceMs, e.clock), false, e.opener);
      WindowThenOpenIsSound(st, e.sid, e.graceMs, e.clock, e.opener, opening, steady);
    } else {
      assert Apply(st, e) == ThenOpen(st, ApproveClaim(st, e.sid, e.claim, e.checkedAt), false, e.opener);
      ApprovalThenOpenIsSound(st, e.sid, e.claim, e.checkedAt, e.opener, opening, steady);
    }
  }

  lemma {:induction false} EndIsSound(st: State, e: Event, opening: seq<Wallet>, steady: bool)
    requires Safe(st) && References(st) && Addressed(st, e) && Sound(st, opening, steady)
    requires e.EndWithoutWinner? || e.Cancel?
    ensures Sound(Apply(st, e), opening, steady)
  {
    match e
    case EndWithoutWinner(sid, opener) =>
      if EndWithoutWinnerNow(st, sid).Some? { NoWinnerIsSound(st, sid, opening, steady); }
      ThenOpenIsSound(st, EndWithoutWinnerNow(st, sid), false, opener, opening, steady);
    case Cancel(sid, requeueSlot, abortIfPlayers, opener) =>
      if CancelSession(st, sid, requeueSlot, abortIfPlayers).Some? {
        CancelIsSound(st, sid, requeueSlot, abortIfPlayers, opening, steady);
        CancelIsGood(st, sid, requeueSlot, abortIfPlayers);
      }
      ThenOpenIsSound(st, CancelSession(st, sid, requeueSlot, abortIfPlayers), true,
                      if requeueSlot then opener else None, opening, steady);
  }

  lemma {:induction false} OpeningIsSound(st: State, e: Event, opening: seq<Wallet>, steady: bool)
    requires Safe(st) && References(st) && Addressed(st, e) && Sound(st, opening, steady)
    requires e.CreateSlot? || e.FirstRegistration? || e.OpenRegistration? || e.Start?
    ensures Sound(Apply(st, e), opening, steady)
  {
    match e
    case CreateSlot(request) =>
      if CreateGameSlot(st, request).Some? { CreateIsSound(st, request, opening, steady); }
    case FirstRegistration(slotId) =>
      var after := CreateForFirstRegistration(st, slotId);
      if after.Some? { EmptySessionIsSound(st, after.value, after.value.sessions[|st.sessions|], opening, steady); }
    case OpenRegistration(options, recentlyFinished, durationMs) =>
      OpenNextIsSound(st, options, recentlyFinished, durationMs, opening, steady);
    case Start(slotId, config) =>
      if StartGame(st, slotId, config).Some? { StartIsSound(st, slotId, config, opening, steady); }
  }

  lemma {:induction false} SlotEventIsSound(st: State, e: Event, opening: seq<Wallet>, steady: bool)
    requires Safe(st) && References(st) && Addressed(st, e) && Sound(st, opening, steady)
    requires steady ==> IsSteady(st, e)
    requires e.Tick? || e.CheckFee? || e.UpdateFee? || e.SwitchMode? || e.ReorderQueue?
    ensures Sound(Apply(st, e), opening, steady)
  {
    if e.UpdateFee? {
      FeeTaskIsSound(st, e.slotId, e.entryFee, opening, steady);
    } else {
      SlotShape(st, e);
      SameSessions(st, Apply(st, e), opening, steady);
    }
  }

  lemma {:induction false} FeeTaskIsSound(st: State, slotId: nat, entryFee: nat, opening: seq<Wallet>, steady: bool)
    requires Safe(st) && Sound(st, opening, steady) && slotId < |st.slots|
    requires steady && FeeTask(slotId, entryFee) in st.tasks ==> CommitIsHarmless(st, slotId, entryFee)
    ensures Sound(RunFeeTask(st, slotId, entryFee), opening, steady)
  {
    if FeeTask(slotId, entryFee) in st.tasks {
      var done := RunFeeTask(st, slotId, entryFee);
      assert Sound(CommitFee(st, slotId, entryFee), opening, steady) by {
        FeeIsQuiet(st, slotId, entryFee, opening, steady);
      }
      assert done.sessions == CommitFee(st, slotId, entryFee).sessions && done.books == st.books by {
        DroppedTask(st, slotId, entryFee);
      }
      SameSessions(CommitFee(st, slotId, entryFee), done, opening, steady);
    }
  }

  lemma DroppedTask(st: State, slotId: nat, entryFee: nat)
    requires slotId < |st.slots| && FeeTask(slotId, entryFee) in st.tasks
    ensures RunFeeTask(st, slotId, entryFee).sessions == CommitFee(st, slotId, entryFee).sessions
    ensures RunFeeTask(st, slotId, entryFee).books == st.books
  {
  }

  lemma {:induction false} SlotShape(st: State, e: Event)
    requires References(st) && Addressed(st, e)
    requires e.Tick? || e.CheckFee? || e.SwitchMode? || e.ReorderQueue?
    ensures Apply(st, e).sessions == st.sessions && Apply(st, e).books == st.books
  {
  }

  lemma {:induction false} RegistrationIsSound(st: State, e: Event, opening: seq<Wallet>, steady: bool)
    requires Safe(st) && References(st) && Addressed(st, e) && Sound(st, opening, steady)
    requires e.Register? || e.RegisterChunk? || e.Confirm?
    ensures Sound(Apply(st, e), opening, steady)
  {
    match e
    case Register(sid, user, cartelaId) => RegisterOneIsSound(st, sid, user, cartelaId, true, opening, steady);
    case RegisterChunk(sid, user, cartelaIds) => RegisterAllIsSound(st, sid, user, cartelaIds, false, opening, steady);
    case Confirm(sid, hold, user) => ConfirmIsSound(st, sid, hold, user, opening, steady);
  }

  /** The accounts hold after every event, stale fee updates included; after a steady one so do the prices. */
  lemma {:induction false} EventIsSound(st: State, e: Event, opening: seq<Wallet>, steady: bool)
    requires Safe(st) && References(st) && Addressed(st, e) && Sound(st, opening, steady)
    requires steady ==> IsSteady(st, e)
    ensures Sound(Apply(st, e), opening, steady)
  {
    if e.SampleReserve? || e.Reserve? || e.SampleReserveBulk? || e.ReserveBulk? || e.ReleaseHold? || e.FindDueHolds?
        || e.ExpireHolds? {
      HoldsAreQuiet(st, e, opening, steady);
    } else if e.Register? || e.RegisterChunk? || e.Confirm? {
      RegistrationIsSound(st, e, opening, steady);
    } else if e.SubmitClaim? || e.Reject? {
      ClaimEventIsSound(st, e, opening, steady);
    } else if e.FinalizeWindow? || e.Approve? {
      PayoutIsSound(st, e, opening, steady);
    } else if e.EndWithoutWinner? || e.Cancel? {
      EndIsSound(st, e, opening, steady);
    } else if e.CreateSlot? || e.FirstRegistration? || e.OpenRegistration? || e.Start? {
      OpeningIsSound(st, e, opening, steady);
    } else if e.CallBall? || e.PickNumber? || e.DrawPicked? {
      CallsAreQuiet(st, e, opening, steady);
    } else if e.BeginGrace? || e.CloseEarly? || e.Reschedule? {
      TimersAreQuiet(st, e, opening, steady);
    } else {
      SlotEventIsSound(st, e, opening, steady);
    }
  }
}
