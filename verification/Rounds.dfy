/** A live round: start, draws, claims, and the four ways it ends. Each function gives the effect of
    one transaction; None (or an unchanged value) is a transaction that rolled back. */
module Rounds {
  import opened Common
  import opened Games
  import opened Wallets
  import opened GameQueue
  import opened WinningBalls
  import opened PrizeSplit

  const ALL_NUMBERS: nat := 75

  // ---- Start ----

  datatype StartConfig = StartConfig(entryFee: Option<int>, prizePerCartela: Option<int>,
                                     companyFeePerCartela: Option<int>)

  datatype Fees = Fees(entryFee: nat, prizePerCartela: nat, companyFeePerCartela: int, prizeAmount: nat)

  /** `buildSessionMoneyConfig`. */
  function SessionMoneyConfig(slot: Slot): Fees {
    var fixedPrize := if slot.fixedPrizeAmount.Some? then slot.fixedPrizeAmount.value else 0;
    match slot.category
    case BONUS => Fees(0, 0, 0, fixedPrize)
    case BIG_GOTD => Fees(slot.entryFee, 0, slot.entryFee, fixedPrize)
    case BIG_GAME => Fees(slot.entryFee, 0, slot.entryFee, fixedPrize)
    case NORMAL => Fees(slot.entryFee, slot.prizePerCartela, slot.entryFee - slot.prizePerCartela, 0)
  }

  /** `resolveFeeConfig`: an error when an amount is out of range or the parts do not add up. */
  function ResolveFeeConfig(config: StartConfig, slot: Slot): Option<Fees> {
    var entryFee := if config.entryFee.Some? then config.entryFee.value else slot.entryFee;
    var prize := if config.prizePerCartela.Some? then config.prizePerCartela.value else slot.prizePerCartela;
    var company := if config.companyFeePerCartela.Some? then config.companyFeePerCartela.value else entryFee - prize;
    if entryFee <= 0 || prize < 0 || company < 0 || entryFee != prize + company then None
    else Some(Fees(entryFee, prize, company, 0))
  }

  function NewSession(slotId: nat, fees: Fees, prizeAmount: nat, status: GameStatus,
                      opensAt: Option<int>, startsAt: Option<int>): Session
  {
    Session(slotId, status, fees.entryFee, fees.prizePerCartela, fees.companyFeePerCartela,
            prizeAmount, prizeAmount, 0, opensAt, startsAt, None, None, None, None, [], [], [], [])
  }

  /** The READY session of a slot. */
  function FindReady(sessions: seq<Session>, slotId: nat): (sid: Option<nat>)
    ensures sid.Some? ==>
      sid.value < |sessions| && sessions[sid.value].slotId == slotId && sessions[sid.value].status == READY
    ensures sid.None? ==> !AnyReadyOn(sessions, slotId)
  {
    if sessions == [] then None
    else
      var front := FindReady(sessions[..|sessions| - 1], slotId);
      if front.Some? then front
      else if sessions[|sessions| - 1].slotId == slotId && sessions[|sessions| - 1].status == READY
        then Some(|sessions| - 1)
      else
        assert forall i | 0 <= i < |sessions| :: i == |sessions| - 1 || sessions[i] == sessions[..|sessions| - 1][i];
        None
  }

  /** `startGame`. A direct start opens with no prize, whatever the slot's fixed prize. */
  function StartGame(st: State, slotId: nat, config: StartConfig): Option<State>
    requires slotId < |st.slots|
  {
    if AnyLive(st.sessions) || !SlotReady(st.slots, st.sessions, st.now, slotId) then None
    else
      var slot := st.slots[slotId];
      var slots := st.slots[slotId := slot.(status := PLAYING)];
      var ready := FindReady(st.sessions, slotId);
      if ready.Some? then
        Some(st.(slots := slots, sessions := st.sessions[ready.value := st.sessions[ready.value].(status := PLAYING)]))
      else
        var fees := if slot.category.BONUS? then Some(SessionMoneyConfig(slot)) else ResolveFeeConfig(config, slot);
        if fees.None? then None
        else Some(st.(slots := slots,
                      sessions := st.sessions + [NewSession(slotId, fees.value, 0, PLAYING, None, None)]))
  }

  // ---- Draws ----

  predicate IsCalled(calls: seq<Call>, number: int) {
    exists i | 0 <= i < |calls| :: calls[i].ball.number == number
  }

  function Remaining(calls: seq<Call>): set<int> {
    set n: int | 1 <= n <= ALL_NUMBERS && !IsCalled(calls, n)
  }

  function LatestOrder(calls: seq<Call>): nat {
    if calls == [] then 0
    else
      var front, last := LatestOrder(calls[..|calls| - 1]), calls[|calls| - 1].order;
      if front > last then front else last
  }

  predicate OrderTaken(calls: seq<Call>, order: nat) {
    exists i | 0 <= i < |calls| :: calls[i].order == order
  }

  function LetterForNumber(number: int): char {
    if 1 <= number <= 15 then 'B'
    else if 16 <= number <= 30 then 'I'
    else if 31 <= number <= 45 then 'N'
    else if 46 <= number <= 60 then 'G'
    else 'O'
  }

  /** `callNumber`: (session, number) and (session, order) are unique keys. */
  function CallNumber(session: Session, ball: Ball, now: int): Option<Session> {
    var order := LatestOrder(session.calls) + 1;
    if session.status != PLAYING || !(1 <= ball.number <= ALL_NUMBERS) || IsCalled(session.calls, ball.number)
       || OrderTaken(session.calls, order) then None
    else Some(session.(calls := session.calls + [Call(ball, order, now)]))
  }

  /** The write of an automatic draw, made for a number picked earlier. */
  function CommitDraw(session: Session, number: int, now: int): Option<Session> {
    var order := |session.calls| + 1;
    if session.status != PLAYING || IsCalled(session.calls, number) || OrderTaken(session.calls, order) then None
    else Some(session.(calls := session.calls + [Call(Ball(LetterForNumber(number), number), order, now)]))
  }

  function StartNoWinnerGrace(session: Session, now: int, graceMs: int): Session {
    if session.status == PLAYING && session.winnerRegistration.None? && session.noWinnerGraceEndsAt.None?
    then session.(noWinnerGraceEndsAt := Some(now + graceMs))
    else session
  }

  // ---- Claims ----

  /** What the rule evaluator says of the board and the balls called so far. */
  datatype Verdict = NO_PATTERN | TOO_LATE | WINNING

  predicate Resolved(registration: Registration) {
    registration.status == BLOCKED || registration.status == WINNER || registration.isWinner
  }

  predicate HasClaim(claims: seq<Claim>, r: nat, statuses: set<ClaimStatus>) {
    exists i | 0 <= i < |claims| :: claims[i].registration == r && claims[i].status in statuses
  }

  /** A claim for a cartela already decided only ever adds an INVALID row, when no final row exists. */
  function AlreadyResolvedClaim(session: Session, r: nat, now: int): Session
    requires r < |session.registrations|
  {
    var statuses := if session.registrations[r].status == BLOCKED then {VALID, INVALID} else {VALID};
    if HasClaim(session.claims, r, statuses) then session
    else session.(claims := session.claims + [Claim(r, INVALID, now, Some(now), None)])
  }

  function ManualPendingClaim(session: Session, r: nat, now: int): Option<Session>
    requires r < |session.registrations|
  {
    if session.registrations[r].status != REGISTERED || session.status != PLAYING
       || HasClaim(session.claims, r, {PENDING}) then None
    else Some(session.(status := CHECKING, claims := session.claims + [Claim(r, PENDING, now, None, None)]))
  }

  function BlockWithClaim(session: Session, r: nat, now: int): Session
    requires r < |session.registrations|
  {
    session.(
      registrations := session.registrations[r := session.registrations[r].(status := BLOCKED)],
      claims := session.claims + [Claim(r, INVALID, now, Some(now), SnapshotBall(session.calls))])
  }

  function MarkWinner(session: Session, r: nat): Session
    requires r < |session.registrations|
  {
    session.(registrations := session.registrations[r := session.registrations[r].(status := WINNER, isWinner := true)])
  }

  function WinWithClaim(session: Session, r: nat, now: int): Session
    requires r < |session.registrations|
  {
    MarkWinner(session, r).(claims := session.claims + [Claim(r, VALID, now, Some(now), SnapshotBall(session.calls))])
  }

  function JoinWindow(session: Session, r: nat, now: int, graceMs: int): Option<Session>
    requires r < |session.registrations|
  {
    if session.winnerWindowEndsAt.None? || now > session.winnerWindowEndsAt.value + graceMs
       || session.registrations[r].status != REGISTERED || session.registrations[r].isWinner then None
    else Some(WinWithClaim(session, r, now))
  }

  function OpenWindow(session: Session, r: nat, now: int, windowMs: int): Option<Session>
    requires r < |session.registrations|
  {
    if session.registrations[r].status != REGISTERED || session.registrations[r].isWinner then None
    else
      Some(WinWithClaim(session.(status := WINNER_WINDOW, winnerWindowEndsAt := Some(now + windowMs),
                                 noWinnerGraceEndsAt := None), r, now))
  }

  function AutoValidatedClaim(session: Session, r: nat, verdict: Verdict, now: int, windowMs: int, graceMs: int)
    : Option<Session>
    requires r < |session.registrations|
  {
    if session.registrations[r].status != REGISTERED then None
    else if session.status != PLAYING && session.status != WINNER_WINDOW then None
    else if !verdict.WINNING? then Some(BlockWithClaim(session, r, now))
    else if session.status == WINNER_WINDOW then JoinWindow(session, r, now, graceMs)
    else OpenWindow(session, r, now, windowMs)
  }

  /** `claimBingo`. */
  function ClaimBingo(session: Session, manualRule: bool, user: nat, r: nat, verdict: Verdict, now: int,
                      windowMs: int, graceMs: int): Option<Session>
  {
    if r >= |session.registrations| || session.registrations[r].userId != user then None
    else if Resolved(session.registrations[r]) then Some(AlreadyResolvedClaim(session, r, now))
    else if manualRule then ManualPendingClaim(session, r, now)
    else AutoValidatedClaim(session, r, verdict, now, windowMs, graceMs)
  }

  // ---- Window payout ----

  function WinnersBelow(registrations: seq<Registration>, upTo: nat): (winners: seq<nat>)
    requires upTo <= |registrations|
    ensures forall i | 0 <= i < |winners| ::
      winners[i] < upTo && registrations[winners[i]].status == WINNER && registrations[winners[i]].isWinner
    ensures forall r | 0 <= r < upTo && registrations[r].status == WINNER && registrations[r].isWinner :: r in winners
    ensures forall i, j | 0 <= i < j < |winners| :: winners[i] < winners[j]
  {
    if upTo == 0 then []
    else
      var last := registrations[upTo - 1];
      WinnersBelow(registrations, upTo - 1) + if last.status == WINNER && last.isWinner then [upTo - 1] else []
  }

  /** The winners of a session in registration order. */
  function Winners(session: Session): (winners: seq<nat>)
    ensures forall i | 0 <= i < |winners| :: winners[i] < |session.registrations|
    ensures forall i, j | 0 <= i < j < |winners| :: winners[i] < winners[j]
  {
    WinnersBelow(session.registrations, |session.registrations|)
  }

  /** The payout loop: the first `count` winners get their shares. */
  function PayWinners(books: Books, sid: nat, session: Session, count: nat): Result<Books, WalletError>
    requires count <= |Winners(session)|
  {
    if count == 0 then Success(books)
    else
      var winners := Winners(session);
      match PayWinners(books, sid, session, count - 1)
      case Failure(error) => Failure(error)
      case Success(paid) =>
        var user := session.registrations[winners[count - 1]].userId;
        CreditWallet(paid, user, Share(session.prizeAmount, |winners|, count - 1),
                     PrizeWin(user, sid, winners[count - 1]))
  }

  predicate WindowDue(session: Session, now: int, graceMs: int) {
    && session.status == WINNER_WINDOW && session.prizeFinalizedAt.None?
    && session.winnerWindowEndsAt.Some? && session.winnerWindowEndsAt.value <= now - graceMs
  }

  datatype FinalizeError = NotDue | WithoutWinners | CreditFailed(error: WalletError) | AlreadyFinalized

  /** `finalizeWinnerWindow`, up to the opening of the next registration. Whether the window is due is
      judged by a clock sampled before the transaction. */
  function FinalizeWinnerWindow(st: State, sid: nat, graceMs: int, clock: int): Result<State, FinalizeError>
    requires sid < |st.sessions| && st.sessions[sid].slotId < |st.slots|
  {
    var session := st.sessions[sid];
    var winners := Winners(session);
    if !WindowDue(session, clock, graceMs) then Failure(NotDue)
    else if winners == [] then Failure(WithoutWinners)
    else
      match PayWinners(st.books, sid, session, |winners|)
      case Failure(error) => Failure(CreditFailed(error))
      case Success(books) =>
        if session.winnerRegistration.Some? then Failure(AlreadyFinalized)
        else
          var finished := session.(status := FINISHED, prizeFinalizedAt := Some(st.now),
                                   winnerRegistration := Some(winners[0]), noWinnerGraceEndsAt := None);
          Success(st.(books := books, sessions := st.sessions[sid := finished],
                      slots := RestoreSlotAfterSession(st.slots, session.slotId)))
  }

  /** The guarded write of `finalizeWinnerWindowEarly`. */
  function CloseWindowEarly(session: Session, now: int): Session {
    if session.status == WINNER_WINDOW && session.prizeFinalizedAt.None?
    then session.(winnerWindowEndsAt := Some(now))
    else session
  }

  // ---- Manual review ----

  /** `approveClaim`, up to the opening of the next registration: its status guard lets PLAYING and
      WINNER_WINDOW through too, and it notes a time sampled before the transaction. */
  function ApproveClaim(st: State, sid: nat, c: nat, checkedAt: int): Option<State>
    requires sid < |st.sessions| && st.sessions[sid].slotId < |st.slots|
  {
    var session := st.sessions[sid];
    if c >= |session.claims| || session.claims[c].status != PENDING then None
    else if session.status == FINISHED || session.status == NO_WINNER || !st.slots[session.slotId].manualRule then None
    else
      var r := session.claims[c].registration;
      if r >= |session.registrations| || session.registrations[r].status != REGISTERED
          || session.registrations[r].isWinner
      then None
      else if !IsLive(session.status) || session.winnerRegistration.Some? then None
      else
        var user := session.registrations[r].userId;
        match CreditWallet(st.books, user, session.prizeAmount, PrizeWin(user, sid, r))
        case Failure(_) => None
        case Success(books) =>
          var finished := MarkWinner(session, r).(
            status := FINISHED, winnerRegistration := Some(r), noWinnerGraceEndsAt := None,
            claims := session.claims[c := session.claims[c].(status := VALID, checkedAt := Some(checkedAt))]);
          Some(st.(books := books, sessions := st.sessions[sid := finished],
                   slots := RestoreSlotAfterSession(st.slots, session.slotId)))
  }

  /** `rejectClaim`: writes PLAYING whatever the status was. */
  function RejectClaim(session: Session, manualRule: bool, c: nat, now: int): Option<Session> {
    if c >= |session.claims| || session.claims[c].status != PENDING || !manualRule then None
    else
      var r := session.claims[c].registration;
      if r >= |session.registrations| || session.registrations[r].status != REGISTERED then None
      else
        Some(session.(
          status := PLAYING,
          registrations := session.registrations[r := session.registrations[r].(status := BLOCKED)],
          claims := session.claims[c := session.claims[c].(status := INVALID, checkedAt := Some(now),
                                                           winningBall := SnapshotBall(session.calls))]))
  }

  // ---- No winner ----

  function BlockUndecided(registrations: seq<Registration>): seq<Registration> {
    seq(|registrations|, i requires 0 <= i < |registrations| =>
      if registrations[i].status == REGISTERED && !registrations[i].isWinner
      then registrations[i].(status := BLOCKED) else registrations[i])
  }

  function InvalidatePending(claims: seq<Claim>, now: int): seq<Claim> {
    seq(|claims|, i requires 0 <= i < |claims| =>
      if claims[i].status == PENDING then claims[i].(status := INVALID, checkedAt := Some(now)) else claims[i])
  }

  /** `finalizeNoWinner`. */
  function FinalizeNoWinner(session: Session, now: int): Option<Session> {
    if session.status != PLAYING && session.status != CHECKING then None
    else if session.winnerRegistration.Some? || session.noWinnerGraceEndsAt.None?
      || session.noWinnerGraceEndsAt.value > now
    then None
    else
      Some(session.(status := NO_WINNER, registrations := BlockUndecided(session.registrations),
                    claims := InvalidatePending(session.claims, now)))
  }

  // ---- Cancel ----

  function SourceCount(registrations: seq<Registration>, user: nat, source: PaymentSource): nat {
    if registrations == [] then 0
    else
      var last := registrations[|registrations| - 1];
      SourceCount(registrations[..|registrations| - 1], user, source)
      + if last.userId == user && last.source == source && last.status != VOID then 1 else 0
  }

  function MoneyRefund(session: Session, user: nat): nat {
    session.entryFee * SourceCount(session.registrations, user, MoneyWallet)
  }

  /** Every user's refund, at today's entry fee of the session. */
  function RefundAll(books: Books, sid: nat, session: Session): Books {
    if session.entryFee == 0 then books
    else
      Books(
        seq(|books.wallets|, u requires 0 <= u < |books.wallets| =>
          Wallet(books.wallets[u].money + (if Refund(u, sid) in books.ledger then 0 else MoneyRefund(session, u)),
                 books.wallets[u].bonus + SourceCount(session.registrations, u, BonusCartela))),
        books.ledger + map u: nat | u < |books.wallets| && MoneyRefund(session, u) > 0
          && Refund(u, sid) !in books.ledger
                         :: Refund(u, sid) := MoneyRefund(session, u))
  }

  function VoidAll(registrations: seq<Registration>): seq<Registration> {
    seq(|registrations|, i requires 0 <= i < |registrations| => registrations[i].(status := VOID))
  }

  predicate HasPlayers(registrations: seq<Registration>) {
    exists i | 0 <= i < |registrations| :: registrations[i].status != VOID
  }

  /** `cancelSession`, up to the opening of the next registration. */
  function CancelSession(st: State, sid: nat, requeueSlot: bool, abortIfPlayers: bool): Option<State>
    requires sid < |st.sessions| && st.sessions[sid].slotId < |st.slots|
  {
    var session := st.sessions[sid];
    if session.status !in {READY, PLAYING, CHECKING} then None
    else if abortIfPlayers && HasPlayers(session.registrations) then None
    else
      var cancelled :=
        session.(status := CANCELLED, scheduledStartAt := None, registrations := VoidAll(session.registrations));
      Some(st.(books := RefundAll(st.books, sid, session), sessions := st.sessions[sid := cancelled],
               slots := if requeueSlot then RestoreSlotAfterSession(st.slots, session.slotId) else st.slots))
  }
}
