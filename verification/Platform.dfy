/** The whole system as events on the database state. An event is one transaction, one stand-alone
    compare-and-set, or one read that a later step relies on; a flow of several database steps leaves a
    task between them, so anything can happen in between. Parameters that the database does not decide
    (verdicts, timings, configuration) are free; a `clock` is a time sampled before the transaction. The
    four ends run the opener inside their transaction, `opener` giving the registration duration, or nothing
    when it cannot take the transition lock. */
module Platform {
  import opened Common
  import opened Games
  import opened GameQueue
  import opened Registering
  import opened Rounds
  import opened Opening

  datatype Event =
    | Tick(ms: nat)
    | CreateSlot(request: SlotRequest)
    | FirstRegistration(slotId: nat)
    | OpenRegistration(options: OpenerOptions, recentlyFinished: bool, durationMs: int)
    | Register(sid: nat, user: nat, cartelaId: nat)
    | RegisterChunk(sid: nat, user: nat, cartelaIds: seq<nat>)
    | SampleReserve(sid: nat, user: nat, cartelaId: nat, keepOthers: bool, holdMs: int)
    | Reserve(sid: nat, user: nat, cartelaId: nat, keepOthers: bool, holdMs: int, clock: int)
    | SampleReserveBulk(sid: nat, user: nat, cartelaIds: seq<nat>, holdMs: int)
    | ReserveBulk(sid: nat, user: nat, cartelaIds: seq<nat>, holdMs: int, clock: int)
    | Confirm(sid: nat, hold: nat, user: nat)
    | ReleaseHold(sid: nat, hold: nat, user: nat)
    | FindDueHolds(sid: nat, clock: int)
    | ExpireHolds(sid: nat, ids: set<nat>)
    | CheckFee(slotId: nat, entryFee: nat)
    | UpdateFee(slotId: nat, entryFee: nat)
    | Start(slotId: nat, config: StartConfig)
    | CallBall(sid: nat, ball: Ball)
    | PickNumber(sid: nat, number: int)
    | DrawPicked(sid: nat, number: int, isLastNumber: bool)
    | BeginGrace(sid: nat, graceMs: int)
    | SubmitClaim(sid: nat, user: nat, registration: nat, verdict: Verdict, windowMs: int, graceMs: int)
    | FinalizeWindow(sid: nat, graceMs: int, clock: int, opener: Option<int>)
    | CloseEarly(sid: nat)
    | Approve(sid: nat, claim: nat, checkedAt: int, opener: Option<int>)
    | Reject(sid: nat, claim: nat)
    | EndWithoutWinner(sid: nat, opener: Option<int>)
    | Cancel(sid: nat, requeueSlot: bool, abortIfPlayers: bool, opener: Option<int>)
    | Reschedule(sid: nat, opensAt: Option<int>, startsAt: Option<int>)
    | SwitchMode(slotId: nat, mode: OperationMode)
    | ReorderQueue(slotIds: seq<nat>)

  function WithSession(st: State, sid: nat, session: Session): State
    requires sid < |st.sessions|
  {
    st.(sessions := st.sessions[sid := session])
  }

  /** A transaction on one session that may roll back. */
  function TrySession(st: State, sid: nat, result: Option<Session>): State
    requires sid < |st.sessions|
  {
    if result.Some? then WithSession(st, sid, result.value) else st
  }

  function Try(st: State, result: Option<State>): State {
    if result.Some? then result.value else st
  }

  function WithHolds(session: Session, holds: seq<Hold>): Session {
    session.(holds := holds)
  }

  function AddTask(st: State, task: Task): State {
    st.(tasks := st.tasks + multiset{task})
  }

  function DropTask(st: State, task: Task): State {
    st.(tasks := st.tasks - multiset{task})
  }

  /** The events that name rows which exist, and times that have come: a clock sampled by a request is past,
      and an admin answers a claim only after it was made. */
  predicate Addressed(st: State, e: Event) {
    match e
    case Tick(_) => true
    case CreateSlot(_) => true
    case FirstRegistration(slotId) => slotId < |st.slots|
    case OpenRegistration(_, _, _) => true
    case Register(sid, user, _) => sid < |st.sessions| && user < |st.books.wallets|
    case RegisterChunk(sid, user, _) => sid < |st.sessions| && user < |st.books.wallets|
    case SampleReserve(sid, user, _, _, _) => sid < |st.sessions| && user < |st.books.wallets|
    case Reserve(sid, user, _, _, _, _) => sid < |st.sessions| && user < |st.books.wallets|
    case SampleReserveBulk(sid, user, _, _) => sid < |st.sessions| && user < |st.books.wallets|
    case ReserveBulk(sid, user, _, _, _) => sid < |st.sessions| && user < |st.books.wallets|
    case Confirm(sid, _, user) => sid < |st.sessions| && user < |st.books.wallets|
    case ReleaseHold(sid, _, _) => sid < |st.sessions|
    case FindDueHolds(sid, clock) => sid < |st.sessions| && clock <= st.now
    case ExpireHolds(sid, _) => sid < |st.sessions|
    case CheckFee(slotId, _) => slotId < |st.slots|
    case UpdateFee(slotId, _) => slotId < |st.slots|
    case Start(slotId, _) => slotId < |st.slots|
    case CallBall(sid, _) => sid < |st.sessions|
    case PickNumber(sid, _) => sid < |st.sessions|
    case DrawPicked(sid, _, _) => sid < |st.sessions|
    case BeginGrace(sid, _) => sid < |st.sessions|
    case SubmitClaim(sid, _, _, _, _, _) => sid < |st.sessions|
    case FinalizeWindow(sid, _, clock, _) => sid < |st.sessions| && clock <= st.now
    case CloseEarly(sid) => sid < |st.sessions|
    case Approve(sid, claim, checkedAt, _) =>
      && sid < |st.sessions| && claim < |st.sessions[sid].claims|
      && st.sessions[sid].claims[claim].createdAt <= checkedAt <= st.now
    case Reject(sid, _) => sid < |st.sessions|
    case EndWithoutWinner(sid, _) => sid < |st.sessions|
    case Cancel(sid, _, _, _) => sid < |st.sessions|
    case Reschedule(sid, _, _) => sid < |st.sessions|
    case SwitchMode(slotId, _) => slotId < |st.slots|
    case ReorderQueue(slotIds) => forall i | 0 <= i < |slotIds| :: slotIds[i] < |st.slots|
  }

  /** A drawn ball that was the last one is followed by the grace step. */
  function AfterCall(st: State, sid: nat, isLast: bool): State {
    if isLast then AddTask(st, GraceTask(sid)) else st
  }

  function WithNewHolds(st: State, sid: nat, holds: Option<seq<Hold>>): State
    requires sid < |st.sessions|
  {
    if holds.Some? then WithSession(st, sid, WithHolds(st.sessions[sid], holds.value)) else st
  }

  /** The transaction of `reserveCartela`, with the clock its request sampled before. */
  function RunReserveTask(st: State, sid: nat, user: nat, cartelaId: nat, keepOthers: bool, holdMs: int,
                          clock: int): State
    requires References(st) && sid < |st.sessions|
  {
    var task := ReserveTask(sid, user, cartelaId, keepOthers, holdMs, clock);
    if task !in st.tasks then st
    else WithNewHolds(DropTask(st, task), sid,
                      ReserveCartela(st.(now := clock), sid, user, cartelaId, keepOthers, holdMs))
  }

  function RunReserveBulkTask(st: State, sid: nat, user: nat, cartelaIds: seq<nat>, holdMs: int, clock: int): State
    requires References(st) && sid < |st.sessions|
  {
    var task := ReserveBulkTask(sid, user, cartelaIds, holdMs, clock);
    if task !in st.tasks then st
    else WithNewHolds(DropTask(st, task), sid, ReserveCartelas(st.(now := clock), sid, user, cartelaIds, holdMs))
  }

  function RunExpireTask(st: State, sid: nat, ids: set<nat>): State
    requires sid < |st.sessions|
  {
    if ExpireTask(sid, ids) !in st.tasks then st
    else WithSession(DropTask(st, ExpireTask(sid, ids)), sid,
                     WithHolds(st.sessions[sid], ExpireByIds(st.sessions[sid].holds, ids)))
  }

  function CheckFeeNow(st: State, slotId: nat, entryFee: nat): State {
    if FeeUpdateAllowed(st, slotId, entryFee) then AddTask(st, FeeTask(slotId, entryFee)) else st
  }

  function RunFeeTask(st: State, slotId: nat, entryFee: nat): State
    requires slotId < |st.slots|
  {
    if FeeTask(slotId, entryFee) !in st.tasks then st
    else CommitFee(DropTask(st, FeeTask(slotId, entryFee)), slotId, entryFee)
  }

  function CallBallNow(st: State, sid: nat, ball: Ball): State
    requires sid < |st.sessions|
  {
    var result := CallNumber(st.sessions[sid], ball, st.now);
    AfterCall(TrySession(st, sid, result), sid, result.Some? && |result.value.calls| >= ALL_NUMBERS)
  }

  function PickNow(st: State, sid: nat, number: int): State
    requires sid < |st.sessions|
  {
    var remaining := Remaining(st.sessions[sid].calls);
    if number in remaining then AddTask(st, DrawTask(sid, number, |remaining| <= 1)) else st
  }

  function RunDrawTask(st: State, sid: nat, number: int, isLastNumber: bool): State
    requires sid < |st.sessions|
  {
    if DrawTask(sid, number, isLastNumber) !in st.tasks then st
    else
      var result := CommitDraw(st.sessions[sid], number, st.now);
      AfterCall(TrySession(DropTask(st, DrawTask(sid, number, isLastNumber)), sid, result), sid,
                result.Some? && isLastNumber)
  }

  function RunGraceTask(st: State, sid: nat, graceMs: int): State
    requires sid < |st.sessions|
  {
    if GraceTask(sid) !in st.tasks then st
    else WithSession(DropTask(st, GraceTask(sid)), sid, StartNoWinnerGrace(st.sessions[sid], st.now, graceMs))
  }

  function ClaimNow(st: State, sid: nat, user: nat, registration: nat, verdict: Verdict, windowMs: int,
                    graceMs: int): State
    requires References(st) && sid < |st.sessions|
  {
    TrySession(st, sid, ClaimBingo(st.sessions[sid], st.slots[st.sessions[sid].slotId].manualRule, user, registration,
                                   verdict, st.now, windowMs, graceMs))
  }

  /** The opener as an ending transaction calls it. */
  function ThenOpen(st: State, ended: Option<State>, deferred: bool, opener: Option<int>): State {
    if ended.None? then st
    else if opener.None? then ended.value
    else OpenNext(ended.value, OpenerOptions(true, deferred), false, opener.value)
  }

  function FinalizeNow(st: State, sid: nat, graceMs: int, clock: int): Option<State>
    requires References(st) && sid < |st.sessions|
  {
    var result := FinalizeWinnerWindow(st, sid, graceMs, clock);
    if result.Success? then Some(result.value) else None
  }

  function RejectNow(st: State, sid: nat, claim: nat): State
    requires References(st) && sid < |st.sessions|
  {
    TrySession(st, sid, RejectClaim(st.sessions[sid], st.slots[st.sessions[sid].slotId].manualRule, claim, st.now))
  }

  function EndWithoutWinnerNow(st: State, sid: nat): Option<State>
    requires References(st) && sid < |st.sessions|
  {
    var result := FinalizeNoWinner(st.sessions[sid], st.now);
    if result.Some?
    then Some(WithSession(st, sid, result.value).(slots := RestoreSlotAfterSession(st.slots, st.sessions[sid].slotId)))
    else None
  }

  function CloseEarlyNow(st: State, sid: nat): State
    requires sid < |st.sessions|
  {
    WithSession(st, sid, CloseWindowEarly(st.sessions[sid], st.now))
  }

  function RescheduleNow(st: State, sid: nat, opensAt: Option<int>, startsAt: Option<int>): State
    requires sid < |st.sessions|
  {
    WithSession(st, sid, st.sessions[sid].(registrationOpensAt := opensAt, scheduledStartAt := startsAt))
  }

  function SwitchModeNow(st: State, slotId: nat, mode: OperationMode): State
    requires slotId < |st.slots|
  {
    st.(slots := st.slots[slotId := st.slots[slotId].(mode := mode)])
  }

  function ReorderNow(st: State, slotIds: seq<nat>): State
    requires forall i | 0 <= i < |slotIds| :: slotIds[i] < |st.slots|
  {
    if ReorderAllowed(st.slots, slotIds) then st.(slots := Reorder(st.slots, slotIds)) else st
  }

  function Apply(st: State, e: Event): State
    requires References(st) && Addressed(st, e)
  {
    match e
    case Tick(ms) => st.(now := st.now + ms)
    case CreateSlot(request) => Try(st, CreateGameSlot(st, request))
    case FirstRegistration(slotId) => Try(st, CreateForFirstRegistration(st, slotId))
    case OpenRegistration(options, recentlyFinished, durationMs) => OpenNext(st, options, recentlyFinished, durationMs)
    case Register(sid, user, cartelaId) => RegisterOne(st, sid, user, cartelaId, true).0
    case RegisterChunk(sid, user, cartelaIds) => RegisterAll(st, sid, user, cartelaIds, false)
    case SampleReserve(sid, user, cartelaId, keepOthers, holdMs) =>
      AddTask(st, ReserveTask(sid, user, cartelaId, keepOthers, holdMs, st.now))
    case Reserve(sid, user, cartelaId, keepOthers, holdMs, clock) =>
      RunReserveTask(st, sid, user, cartelaId, keepOthers, holdMs, clock)
    case SampleReserveBulk(sid, user, cartelaIds, holdMs) =>
      AddTask(st, ReserveBulkTask(sid, user, cartelaIds, holdMs, st.now))
    case ReserveBulk(sid, user, cartelaIds, holdMs, clock) =>
      RunReserveBulkTask(st, sid, user, cartelaIds, holdMs, clock)
    case Confirm(sid, hold, user) => ConfirmReservation(st, sid, hold, user).0
    case ReleaseHold(sid, hold, user) => WithNewHolds(st, sid, Some(CancelHold(st.sessions[sid].holds, hold, user)))
    case FindDueHolds(sid, clock) => AddTask(st, ExpireTask(sid, DueHolds(st.sessions[sid].holds, clock)))
    case ExpireHolds(sid, ids) => RunExpireTask(st, sid, ids)
    case CheckFee(slotId, entryFee) => CheckFeeNow(st, slotId, entryFee)
    case UpdateFee(slotId, entryFee) => RunFeeTask(st, slotId, entryFee)
    case Start(slotId, config) => Try(st, StartGame(st, slotId, config))
    case CallBall(sid, ball) => CallBallNow(st, sid, ball)
    case PickNumber(sid, number) => PickNow(st, sid, number)
    case DrawPicked(sid, number, isLastNumber) => RunDrawTask(st, sid, number, isLastNumber)
    case BeginGrace(sid, graceMs) => RunGraceTask(st, sid, graceMs)
    case SubmitClaim(sid, user, registration, verdict, windowMs, graceMs) =>
      ClaimNow(st, sid, user, registration, verdict, windowMs, graceMs)
    case FinalizeWindow(sid, graceMs, clock, opener) =>
      ThenOpen(st, FinalizeNow(st, sid, graceMs, clock), false, opener)
    case CloseEarly(sid) => CloseEarlyNow(st, sid)
    case Approve(sid, claim, checkedAt, opener) => ThenOpen(st, ApproveClaim(st, sid, claim, checkedAt), false, opener)
    case Reject(sid, claim) => RejectNow(st, sid, claim)
    case EndWithoutWinner(sid, opener) => ThenOpen(st, EndWithoutWinnerNow(st, sid), false, opener)
    case Cancel(sid, requeueSlot, abortIfPlayers, opener) =>
      ThenOpen(st, CancelSession(st, sid, requeueSlot, abortIfPlayers), true, if requeueSlot then opener else None)
    case Reschedule(sid, opensAt, startsAt) => RescheduleNow(st, sid, opensAt, startsAt)
    case SwitchMode(slotId, mode) => SwitchModeNow(st, slotId, mode)
    case ReorderQueue(slotIds) => ReorderNow(st, slotIds)
  }

  /** A start of the database: slots in their standard form, no sessions, any wallets. */
  ghost predicate Initial(st: State) {
    && st.sessions == [] && st.tasks == multiset{} && st.books.ledger == map[]
    && forall i | 0 <= i < |st.slots| :: st.slots[i].status != READY && StandardSlot(st.slots[i])
  }

  /** What slot creation and fee updates keep of a slot's prices and status. */
  predicate StandardSlot(slot: Slot) {
    && (slot.category.BIG_GOTD? || slot.category.BIG_GAME? ==> slot.prizePerCartela == 0)
    && (!slot.category.BONUS? ==> slot.entryFee > 0)
    && (slot.status == READY ==> slot.category.BIG_GAME?)
  }
}
