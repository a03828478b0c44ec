/** Registering cartelas and holding them: what one item of each transaction does. */
module Registering {
  import opened Common
  import opened Games
  import opened Wallets

  datatype Refusal =
    | RegistrationClosed | RegistrationNotOpen | CartelaNotFound | LiveLocked | LimitReached
    | HeldByOther | AlreadyTaken | PaymentFailed(error: WalletError) | HoldNotActive | NotYours

  datatype RegisterResult = Registered(index: nat) | AlreadyMine(index: nat) | Refused(reason: Refusal)

  // ---- Lookups ----

  /** The registration of a cartela in a session: (session, cartela) is a unique key. */
  function FindRegistration(registrations: seq<Registration>, cartelaId: nat): (index: Option<nat>)
    ensures index.Some? ==> index.value < |registrations| && registrations[index.value].cartelaId == cartelaId
    ensures index.None? ==> forall i | 0 <= i < |registrations| :: registrations[i].cartelaId != cartelaId
  {
    if registrations == [] then None
    else
      var front := FindRegistration(registrations[..|registrations| - 1], cartelaId);
      if front.Some? then front
      else if registrations[|registrations| - 1].cartelaId == cartelaId then Some(|registrations| - 1)
      else None
  }

  predicate IsCurrent(hold: Hold, now: int) {
    hold.status == ACTIVE && hold.expiresAt > now
  }

  /** The unexpired active hold of a cartela. */
  function FindHold(holds: seq<Hold>, cartelaId: nat, now: int): (index: Option<nat>)
    ensures index.Some? ==>
      index.value < |holds| && holds[index.value].cartelaId == cartelaId && IsCurrent(holds[index.value], now)
    ensures index.None? ==> forall i | 0 <= i < |holds| && holds[i].cartelaId == cartelaId :: !IsCurrent(holds[i], now)
  {
    if holds == [] then None
    else
      var front := FindHold(holds[..|holds| - 1], cartelaId, now);
      var last := holds[|holds| - 1];
      if front.Some? then front
      else if last.cartelaId == cartelaId && IsCurrent(last, now) then Some(|holds| - 1)
      else None
  }

  /** How many cartelas a user has in a session, cancelled ones aside. */
  function UserCount(registrations: seq<Registration>, user: nat): nat {
    if registrations == [] then 0
    else
      var last := registrations[|registrations| - 1];
      UserCount(registrations[..|registrations| - 1], user)
      + if last.userId == user && last.status != VOID then 1 else 0
  }

  // ---- When registration is open ----

  function RegistrationRefusal(st: State, sid: nat): Option<Refusal>
    requires sid < |st.sessions| && st.sessions[sid].slotId < |st.slots|
  {
    var session := st.sessions[sid];
    var slot := st.slots[session.slotId];
    if slot.category.BIG_GAME? then
      if session.status != READY then Some(RegistrationClosed)
      else if session.registrationOpensAt.None? || st.now < session.registrationOpensAt.value
        then Some(RegistrationNotOpen)
      else if session.scheduledStartAt.None? || st.now >= session.scheduledStartAt.value then Some(RegistrationClosed)
      else None
    else if AnyLive(st.sessions) && session.status == READY then None
    else if session.status == READY then
      if slot.mode == AUTO && session.scheduledStartAt.Some? && session.scheduledStartAt.value <= st.now
      then Some(RegistrationClosed)
      else None
    else if session.status == PLAYING && slot.mode == MANUAL then None
    else Some(RegistrationClosed)
  }

  predicate ShouldLockAgainstLiveRound(session: Session, slot: Slot) {
    session.status != READY || slot.category.BIG_GAME?
  }

  /** A cartela in use, or held, in another live session of the same pool. */
  predicate LockedByLiveRound(st: State, sid: nat, cartelaId: nat)
    requires forall i | 0 <= i < |st.sessions| :: st.sessions[i].slotId < |st.slots|
    requires sid < |st.sessions|
  {
    exists i | 0 <= i < |st.sessions| ::
      && i != sid && IsLive(st.sessions[i].status)
      && SharesCartelaPool(st.slots[st.sessions[i].slotId].category, st.slots[st.sessions[sid].slotId].category)
      && (|| (exists r | 0 <= r < |st.sessions[i].registrations| ::
                st.sessions[i].registrations[r].cartelaId == cartelaId
                  && st.sessions[i].registrations[r].status != VOID)
          || FindHold(st.sessions[i].holds, cartelaId, st.now).Some?)
  }

  predicate AtLimit(session: Session, slot: Slot, user: nat, limitBigGames: bool) {
    var count := UserCount(session.registrations, user);
    || (IsBonusLike(slot.category) && count >= BonusCartelaLimit(slot.maxCartelasPerPlayer))
    || (limitBigGames && slot.category.BIG_GAME? && slot.maxCartelasPerPlayer.Some?
        && count >= slot.maxCartelasPerPlayer.value)
  }

  // ---- Paying ----

  datatype Accounting = Accounting(source: PaymentSource, entryFeeCents: nat, prizeContributionCents: nat,
                                   companyFeeCents: int)

  function ResolveAccounting(session: Session, category: GameCategory, bonusBalance: nat): Accounting {
    if category.BONUS? then Accounting(NoPayment, 0, 0, 0)
    else
      Accounting(if category.NORMAL? && bonusBalance > 0 then BonusCartela else MoneyWallet,
                 session.entryFee, session.prizePerCartela, session.companyFeePerCartela)
  }

  /** `applyRegistrationPayment` for the registration that will get position `index`. */
  function ApplyPayment(books: Books, user: nat, sid: nat, index: nat, session: Session, source: PaymentSource)
    : Result<Books, WalletError>
  {
    match source
    case NoPayment => Success(books)
    case BonusCartela => ConsumeBonusCartela(books, user)
    case MoneyWallet => DebitWallet(books, user, session.entryFee, GameEntry(user, sid, index))
  }

  // ---- One registration ----

  function RowFor(user: nat, cartelaId: nat, plan: Accounting): Registration {
    Registration(user, cartelaId, REGISTERED, false, plan.source, plan.entryFeeCents, plan.prizeContributionCents,
                 plan.companyFeeCents)
  }

  function Seat(session: Session, user: nat, cartelaId: nat, plan: Accounting): Session {
    session.(registrations := session.registrations + [RowFor(user, cartelaId, plan)])
  }

  function AddToPot(session: Session, category: GameCategory, count: nat): Session {
    if category.BONUS? then session
    else session.(prizeAmount := session.prizeAmount + session.prizePerCartela * count,
                  companyRevenue := session.companyRevenue + session.companyFeePerCartela * count)
  }

  function ConfirmHold(session: Session, hold: Option<nat>): Session {
    if hold.Some? && hold.value < |session.holds|
    then session.(holds := session.holds[hold.value := session.holds[hold.value].(status := CONFIRMED)])
    else session
  }

  /** References between rows that the database keeps (foreign keys). */
  ghost predicate References(st: State) {
    forall i | 0 <= i < |st.sessions| :: st.sessions[i].slotId < |st.slots|
  }

  /** What stands in the way of a user taking a cartela, the payment aside. */
  function TakeRefusal(st: State, sid: nat, user: nat, cartelaId: nat, limitBigGames: bool): Option<Refusal>
    requires References(st) && sid < |st.sessions|
  {
    var session := st.sessions[sid];
    var slot := st.slots[session.slotId];
    var hold := FindHold(session.holds, cartelaId, st.now);
    if cartelaId >= st.catalog then Some(CartelaNotFound)
    else if ShouldLockAgainstLiveRound(session, slot) && LockedByLiveRound(st, sid, cartelaId) then Some(LiveLocked)
    else if AtLimit(session, slot, user, limitBigGames) then Some(LimitReached)
    else if hold.Some? && session.holds[hold.value].userId != user then Some(HeldByOther)
    else if FindRegistration(session.registrations, cartelaId).Some? then Some(AlreadyTaken)
    else None
  }

  /** Registering touches one session and the books; the session keeps its slot and status. */
  ghost predicate OnlyTheSession(st: State, after: State, sid: nat, user: nat)
    requires References(st) && sid < |st.sessions|
  {
    && References(after) && |after.sessions| == |st.sessions| && user < |after.books.wallets|
    && after.slots == st.slots && after.now == st.now && after.catalog == st.catalog && after.tasks == st.tasks
    && after.sessions == st.sessions[sid := after.sessions[sid]]
    && after.sessions[sid].slotId == st.sessions[sid].slotId && after.sessions[sid].status == st.sessions[sid].status
  }

  /** Take a cartela: pay, seat, add to the pot, confirm the user's own hold; or change nothing. */
  function TakeCartela(st: State, sid: nat, user: nat, cartelaId: nat,
                       limitBigGames: bool): (outcome: (State, RegisterResult))
    requires References(st) && sid < |st.sessions| && user < |st.books.wallets|
    ensures OnlyTheSession(st, outcome.0, sid, user)
  {
    var session := st.sessions[sid];
    var category := st.slots[session.slotId].category;
    var refusal := TakeRefusal(st, sid, user, cartelaId, limitBigGames);
    if refusal.Some? then (st, Refused(refusal.value))
    else
      var plan := ResolveAccounting(session, category, st.books.wallets[user].bonus);
      match ApplyPayment(st.books, user, sid, |session.registrations|, session, plan.source)
      case Failure(error) => (st, Refused(PaymentFailed(error)))
      case Success(books) =>
        var hold := FindHold(session.holds, cartelaId, st.now);
        var seated := AddToPot(ConfirmHold(Seat(session, user, cartelaId, plan), hold), category, 1);
        (st.(sessions := st.sessions[sid := seated], books := books), Registered(|session.registrations|))
  }

  /** `registerCartela` (with the Big Game limit) and one item of the bulk loop (without it). */
  function RegisterOne(st: State, sid: nat, user: nat, cartelaId: nat, limitBigGames: bool): (State, RegisterResult)
    requires References(st) && sid < |st.sessions| && user < |st.books.wallets|
  {
    var existing := FindRegistration(st.sessions[sid].registrations, cartelaId);
    if existing.Some? && st.sessions[sid].registrations[existing.value].userId == user
    then (st, AlreadyMine(existing.value))
    else
      var refusal := RegistrationRefusal(st, sid);
      if refusal.Some? then (st, Refused(refusal.value)) else TakeCartela(st, sid, user, cartelaId, limitBigGames)
  }

  /** Registering a list one by one, failures skipped. */
  function RegisterAll(st: State, sid: nat, user: nat, cartelaIds: seq<nat>, limitBigGames: bool): (after: State)
    requires References(st) && sid < |st.sessions| && user < |st.books.wallets|
    ensures OnlyTheSession(st, after, sid, user)
  {
    if cartelaIds == [] then st
    else
      var before := RegisterAll(st, sid, user, cartelaIds[..|cartelaIds| - 1], limitBigGames);
      RegisterOne(before, sid, user, cartelaIds[|cartelaIds| - 1], limitBigGames).0
  }

  /** `confirmReservation`. */
  function ConfirmReservation(st: State, sid: nat, hold: nat, user: nat): (State, RegisterResult)
    requires References(st) && sid < |st.sessions| && user < |st.books.wallets|
  {
    var session := st.sessions[sid];
    if hold >= |session.holds| || session.holds[hold].userId != user then (st, Refused(NotYours))
    else if !IsCurrent(session.holds[hold], st.now) then (st, Refused(HoldNotActive))
    else
      var slot := st.slots[session.slotId];
      var cartelaId := session.holds[hold].cartelaId;
      var refusal := RegistrationRefusal(st, sid);
      if refusal.Some? then (st, Refused(refusal.value))
      else if ShouldLockAgainstLiveRound(session, slot) && LockedByLiveRound(st, sid, cartelaId)
        then (st, Refused(LiveLocked))
      else if AtLimit(session, slot, user, true) then (st, Refused(LimitReached))
      else
        var existing := FindRegistration(session.registrations, cartelaId);
        if existing.Some? then
          (st, if session.registrations[existing.value].userId == user then AlreadyMine(existing.value)
           else Refused(AlreadyTaken))
        else
          var plan := ResolveAccounting(session, slot.category, st.books.wallets[user].bonus);
          match ApplyPayment(st.books, user, sid, |session.registrations|, session, plan.source)
          case Failure(error) => (st, Refused(PaymentFailed(error)))
          case Success(books) =>
            var seated := AddToPot(ConfirmHold(Seat(session, user, cartelaId, plan), Some(hold)), slot.category, 1);
            (st.(sessions := st.sessions[sid := seated], books := books), Registered(|session.registrations|))
  }

  // ---- Holds ----

  /** `updateMany`: active holds of a cartela whose time is over become EXPIRED. */
  function ExpireCartela(holds: seq<Hold>, cartelaId: nat, now: int): seq<Hold> {
    seq(|holds|, i requires 0 <= i < |holds| =>
      if holds[i].cartelaId == cartelaId && holds[i].status == ACTIVE && holds[i].expiresAt <= now
      then holds[i].(status := EXPIRED) else holds[i])
  }

  function ReleaseOthers(holds: seq<Hold>, user: nat): seq<Hold> {
    seq(|holds|, i requires 0 <= i < |holds| =>
      if holds[i].userId == user && holds[i].status == ACTIVE then holds[i].(status := RELEASED) else holds[i])
  }

  /** Refresh the user's own current hold, or create one; the partial unique index on
      (session, cartela) of ACTIVE holds refuses a second one. */
  function PlaceHold(holds: seq<Hold>, cartelaId: nat, user: nat, now: int, expiresAt: int): Option<seq<Hold>> {
    var current := FindHold(holds, cartelaId, now);
    if current.Some? then
      if holds[current.value].userId != user then None
      else Some(holds[current.value := holds[current.value].(expiresAt := expiresAt)])
    else if exists i | 0 <= i < |holds| :: holds[i].cartelaId == cartelaId && holds[i].status == ACTIVE then None
    else Some(holds + [Hold(cartelaId, user, expiresAt, ACTIVE)])
  }

  /** What forbids holding a cartela, whoever holds it now. */
  predicate MayNotReserve(st: State, sid: nat, user: nat, cartelaId: nat)
    requires References(st) && sid < |st.sessions|
  {
    var session := st.sessions[sid];
    var slot := st.slots[session.slotId];
    || RegistrationRefusal(st, sid).Some? || cartelaId >= st.catalog
    || (ShouldLockAgainstLiveRound(session, slot) && LockedByLiveRound(st, sid, cartelaId))
    || (exists r | 0 <= r < |session.registrations| ::
          session.registrations[r].cartelaId == cartelaId && session.registrations[r].status != VOID)
    || AtLimit(session, slot, user, true)
  }

  /** `reserveCartela`: the new hold table, or nothing when the transaction rolls back. */
  function ReserveCartela(st: State, sid: nat, user: nat, cartelaId: nat, keepOthers: bool,
                          holdMs: int): Option<seq<Hold>>
    requires References(st) && sid < |st.sessions|
  {
    if MayNotReserve(st, sid, user, cartelaId) then None
    else
      var holds := ExpireCartela(st.sessions[sid].holds, cartelaId, st.now);
      var current := FindHold(holds, cartelaId, st.now);
      var others := if current.None? && !keepOthers then ReleaseOthers(holds, user) else holds;
      PlaceHold(others, cartelaId, user, st.now, st.now + holdMs)
  }

  /** One cartela of `reserveCartelasBulk`: a refusal is reported and skipped. */
  function ReserveInBulk(st: State, sid: nat, holds: seq<Hold>, user: nat, cartelaId: nat, holdMs: int): seq<Hold>
    requires References(st) && sid < |st.sessions|
  {
    var session := st.sessions[sid];
    var slot := st.slots[session.slotId];
    if cartelaId >= st.catalog then holds
    else if exists r | 0 <= r < |session.registrations| ::
              session.registrations[r].cartelaId == cartelaId && session.registrations[r].status != VOID then holds
    else if ShouldLockAgainstLiveRound(session, slot) && LockedByLiveRound(st, sid, cartelaId) then holds
    else
      var placed := PlaceHold(holds, cartelaId, user, st.now, st.now + holdMs);
      if placed.Some? then placed.value else holds
  }

  function ExpireCartelas(holds: seq<Hold>, cartelaIds: seq<nat>, now: int): seq<Hold> {
    seq(|holds|, i requires 0 <= i < |holds| =>
      if holds[i].cartelaId in cartelaIds && holds[i].status == ACTIVE && holds[i].expiresAt <= now
      then holds[i].(status := EXPIRED) else holds[i])
  }

  function ReserveEach(st: State, sid: nat, holds: seq<Hold>, user: nat, cartelaIds: seq<nat>, holdMs: int): seq<Hold>
    requires References(st) && sid < |st.sessions|
  {
    if cartelaIds == [] then holds
    else
      ReserveInBulk(st, sid, ReserveEach(st, sid, holds, user, cartelaIds[..|cartelaIds| - 1], holdMs),
                    user, cartelaIds[|cartelaIds| - 1], holdMs)
  }

  /** `reserveCartelasBulk`. */
  function ReserveCartelas(st: State, sid: nat, user: nat, cartelaIds: seq<nat>, holdMs: int): Option<seq<Hold>>
    requires References(st) && sid < |st.sessions|
  {
    if RegistrationRefusal(st, sid).Some? then None
    else
      Some(ReserveEach(st, sid, ExpireCartelas(st.sessions[sid].holds, cartelaIds, st.now), user, cartelaIds, holdMs))
  }

  /** `cancelReservation`. */
  function CancelHold(holds: seq<Hold>, hold: nat, user: nat): seq<Hold> {
    if hold < |holds| && holds[hold].userId == user && holds[hold].status == ACTIVE
    then holds[hold := holds[hold].(status := RELEASED)]
    else holds
  }

  /** The expirer's read, and its later write by id alone. */
  function DueHolds(holds: seq<Hold>, now: int): set<nat> {
    set i: nat | i < |holds| && holds[i].status == ACTIVE && holds[i].expiresAt <= now
  }

  function ExpireByIds(holds: seq<Hold>, ids: set<nat>): seq<Hold> {
    seq(|holds|, i requires 0 <= i < |holds| => if i in ids then holds[i].(status := EXPIRED) else holds[i])
  }
}
