/** The tables of the game core. A table is a sequence of rows and a row's id is its position, so the
    insertion order is the `createdAt` order. Rows that belong to one session (registrations, holds,
    called numbers, claims) are kept inside it. Money is in cents, time in milliseconds. */
module Games {
  import opened Common

  // ---- Statuses ----

  datatype GameStatus = NEXT | READY | PLAYING | CHECKING | WINNER_WINDOW | FINISHED | NO_WINNER | CANCELLED

  function AllowedTransitions(from: GameStatus): set<GameStatus> {
    match from
    case NEXT => {READY, CANCELLED}
    case READY => {PLAYING, CANCELLED}
    case CHECKING => {PLAYING, FINISHED, NO_WINNER, CANCELLED}
    case PLAYING => {CHECKING, WINNER_WINDOW, NO_WINNER, CANCELLED}
    case WINNER_WINDOW => {FINISHED, CANCELLED}
    case FINISHED => {}
    case NO_WINNER => {}
    case CANCELLED => {}
  }

  predicate CanTransition(from: GameStatus, to: GameStatus) {
    to in AllowedTransitions(from)
  }

  /** The live statuses: at most one session may be in one of them. */
  predicate IsLive(status: GameStatus) {
    status in {PLAYING, CHECKING, WINNER_WINDOW}
  }

  predicate IsOpen(status: GameStatus) {
    status == READY || IsLive(status)
  }

  // ---- Categories ----

  datatype GameCategory = NORMAL | BONUS | BIG_GOTD | BIG_GAME

  const DEFAULT_BONUS_MAX_CARTELAS_PER_PLAYER: nat := 5

  predicate IsBonusLike(category: GameCategory) {
    category.BONUS? || category.BIG_GOTD?
  }

  function BonusCartelaLimit(limit: Option<nat>): nat {
    if limit.Some? then limit.value else DEFAULT_BONUS_MAX_CARTELAS_PER_PLAYER
  }

  /** Standard and Big Game sessions use separate pools of cartelas. */
  predicate SharesCartelaPool(left: GameCategory, right: GameCategory) {
    left.BIG_GAME? == right.BIG_GAME?
  }

  datatype OperationMode = MANUAL | AUTO

  // ---- Rows ----

  datatype Slot = Slot(
    status: GameStatus,
    category: GameCategory,
    mode: OperationMode,
    ruleId: Option<nat>,
    manualRule: bool,
    entryFee: nat,
    prizePerCartela: nat,
    fixedPrizeAmount: Option<nat>,
    maxCartelasPerPlayer: Option<nat>,
    removeAfterFinish: bool,
    sortOrder: Option<int>)

  datatype RegistrationStatus = REGISTERED | BLOCKED | WINNER | VOID

  datatype PaymentSource = NoPayment | MoneyWallet | BonusCartela

  /** A cartela registered by a player (`GameCartela`); VOID is its CANCELLED status. */
  datatype Registration = Registration(
    userId: nat,
    cartelaId: nat,
    status: RegistrationStatus,
    isWinner: bool,
    source: PaymentSource,
    entryFeeCents: nat,
    prizeContributionCents: nat,
    companyFeeCents: int)

  datatype HoldStatus = ACTIVE | CONFIRMED | EXPIRED | RELEASED

  /** A reservation of a cartela; RELEASED is its CANCELLED status. */
  datatype Hold = Hold(cartelaId: nat, userId: nat, expiresAt: int, status: HoldStatus)

  datatype Ball = Ball(letter: char, number: int)

  datatype Call = Call(ball: Ball, order: nat, createdAt: int)

  datatype ClaimStatus = PENDING | VALID | INVALID

  datatype Claim = Claim(registration: nat, status: ClaimStatus, createdAt: int, checkedAt: Option<int>,
                         winningBall: Option<Ball>)

  /** `openingPrize` is the prize the session was created with; it is not a column, only remembered. */
  datatype Session = Session(
    slotId: nat,
    status: GameStatus,
    entryFee: nat,
    prizePerCartela: nat,
    companyFeePerCartela: int,
    openingPrize: nat,
    prizeAmount: nat,
    companyRevenue: int,
    registrationOpensAt: Option<int>,
    scheduledStartAt: Option<int>,
    winnerWindowEndsAt: Option<int>,
    prizeFinalizedAt: Option<int>,
    winnerRegistration: Option<nat>,
    noWinnerGraceEndsAt: Option<int>,
    registrations: seq<Registration>,
    holds: seq<Hold>,
    calls: seq<Call>,
    claims: seq<Claim>)

  datatype Wallet = Wallet(money: nat, bonus: nat)

  /** The unique key of a wallet transaction: (user, type, reference type, reference id). */
  datatype LedgerKey =
    | GameEntry(userId: nat, sessionId: nat, registration: nat)
    | PrizeWin(userId: nat, sessionId: nat, registration: nat)
    | Refund(userId: nat, sessionId: nat)

  /** Wallets, and the ledger that makes every wallet mutation happen once. */
  datatype Books = Books(wallets: seq<Wallet>, ledger: map<LedgerKey, nat>)

  /** What a flow of several database steps carries from one step to the next. A reservation carries the
      clock it sampled before its transaction. */
  datatype Task =
    | ReserveTask(sessionId: nat, userId: nat, cartelaId: nat, keepOthers: bool, holdMs: int, clock: int)
    | ReserveBulkTask(sessionId: nat, userId: nat, cartelaIds: seq<nat>, holdMs: int, clock: int)
    | DrawTask(sessionId: nat, number: int, isLastNumber: bool)
    | GraceTask(sessionId: nat)
    | ExpireTask(sessionId: nat, holds: set<nat>)
    | FeeTask(slotId: nat, entryFee: nat)

  datatype State = State(
    now: int,
    catalog: nat,
    slots: seq<Slot>,
    sessions: seq<Session>,
    books: Books,
    tasks: multiset<Task>)

  predicate AnyLive(sessions: seq<Session>) {
    exists i | 0 <= i < |sessions| :: IsLive(sessions[i].status)
  }

  predicate AnyReadyOn(sessions: seq<Session>, slotId: nat) {
    exists i | 0 <= i < |sessions| :: sessions[i].slotId == slotId && sessions[i].status == READY
  }
}
