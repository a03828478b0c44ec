/** The safety invariant of the database state, and how an event that touches one session keeps it. */
module Invariants {
  import opened Common
  import opened Games
  import opened GameQueue
  import opened Registering
  import opened WinningBalls
  import opened Rounds
  import opened Opening
  import opened Platform

  /** The slot columns that never change. */
  datatype SlotKind = SlotKind(category: GameCategory, manualRule: bool, prizePerCartela: nat)

  function KindOf(slot: Slot): SlotKind {
    SlotKind(slot.category, slot.manualRule, slot.prizePerCartela)
  }

  // ---- One session ----

  /** Balls are distinct, within 1..75, and numbered 1..k in order. */
  ghost predicate CallsOk(calls: seq<Call>, now: int) {
    && (forall i | 0 <= i < |calls| ::
          calls[i].order == i + 1 && 1 <= calls[i].ball.number <= ALL_NUMBERS && calls[i].createdAt <= now)
    && DistinctNumbers(calls)
  }

  ghost predicate RegistrationsOk(s: Session) {
    && (forall i, j | 0 <= i < j < |s.registrations| :: s.registrations[i].cartelaId != s.registrations[j].cartelaId)
    && (forall i | 0 <= i < |s.registrations| ::
          && (s.registrations[i].isWinner <==> s.registrations[i].status == WINNER)
          && (s.registrations[i].status == VOID <==> s.status == CANCELLED)
          && (s.status == READY ==> s.registrations[i].status == REGISTERED))
  }

  ghost predicate HasWinner(registrations: seq<Registration>) {
    exists i | 0 <= i < |registrations| :: registrations[i].status == WINNER
  }

  /** Winners exist exactly from the window (or the approval) on. */
  ghost predicate WindowOk(s: Session) {
    && (HasWinner(s.registrations) <==> s.status == WINNER_WINDOW || s.status == FINISHED)
    && (s.status == WINNER_WINDOW ==> s.winnerWindowEndsAt.Some?)
    && (s.prizeFinalizedAt.Some? ==> s.status == FINISHED)
    && (s.winnerRegistration.Some? <==> s.status == FINISHED)
  }

  /** A claim awaits review exactly while the session is CHECKING, and then it is the only one. */
  ghost predicate PendingOk(s: Session) {
    && (forall i | 0 <= i < |s.claims| && s.claims[i].status == PENDING ::
          && (s.status == CHECKING || s.status == CANCELLED) && s.claims[i].winningBall.None?
          && forall k | 0 <= k < |s.calls| :: s.calls[k].createdAt <= s.claims[i].createdAt)
    && (forall i, j | 0 <= i < j < |s.claims| :: s.claims[i].status != PENDING || s.claims[j].status != PENDING)
    && (s.status == CHECKING ==>
          exists i | 0 <= i < |s.claims| :: s.claims[i].status == PENDING
            && s.claims[i].registration < |s.registrations|
            && s.registrations[s.claims[i].registration].status == REGISTERED)
  }

  /** A VALID claim is a winner's; it was checked after every call, and unless it was approved by hand
      it stores the last ball. */
  ghost predicate ValidClaimOk(s: Session, claim: Claim, manualRule: bool, now: int) {
    && claim.registration < |s.registrations| && s.registrations[claim.registration].status == WINNER
    && claim.checkedAt.Some? && claim.checkedAt.value <= now
    && (forall k | 0 <= k < |s.calls| :: s.calls[k].createdAt <= claim.checkedAt.value)
    && claim.winningBall == if manualRule then None else SnapshotBall(s.calls)
  }

  ghost predicate ValidClaimsOk(s: Session, manualRule: bool, now: int) {
    forall i | 0 <= i < |s.claims| && s.claims[i].status == VALID :: ValidClaimOk(s, s.claims[i], manualRule, now)
  }

  ghost predicate GraceOk(s: Session) {
    s.noWinnerGraceEndsAt.Some? || s.status == NO_WINNER ==> |s.calls| >= ALL_NUMBERS
  }

  /** At most one ACTIVE hold per cartela, and no unexpired one on a cartela that is taken. */
  ghost predicate HoldsOk(s: Session, now: int) {
    && (forall i, j | 0 <= i < j < |s.holds| && s.holds[i].status == ACTIVE && s.holds[j].status == ACTIVE ::
          s.holds[i].cartelaId != s.holds[j].cartelaId)
    && (forall i, r | 0 <= i < |s.holds| && IsCurrent(s.holds[i], now) && 0 <= r < |s.registrations| ::
          s.holds[i].cartelaId != s.registrations[r].cartelaId)
  }

  /** The split of the fee, the growth of the prize, and who paid how. */
  ghost predicate PricesOk(s: Session, kind: SlotKind) {
    && s.entryFee == s.prizePerCartela + s.companyFeePerCartela
    && (if kind.category.BONUS? then s.entryFee == 0 && s.prizePerCartela == 0 else s.entryFee > 0)
    && (s.status == READY && !kind.category.BONUS? ==> s.prizePerCartela == kind.prizePerCartela)
    && s.prizeAmount == s.openingPrize + s.prizePerCartela * |s.registrations|
    && (forall r | 0 <= r < |s.registrations| ::
          && (s.registrations[r].source == NoPayment <==> kind.category.BONUS?)
          && (s.registrations[r].source == BonusCartela ==> kind.category.NORMAL?))
  }

  ghost predicate SessionOk(s: Session, kind: SlotKind, now: int) {
    && CallsOk(s.calls, now) && RegistrationsOk(s) && WindowOk(s) && PendingOk(s)
    && ValidClaimsOk(s, kind.manualRule, now) && GraceOk(s) && HoldsOk(s, now) && PricesOk(s, kind) && s.status != NEXT
  }

  // ---- Between sessions and slots ----

  /** At most one live session, on a PLAYING slot; at most one READY or live session per slot. */
  ghost predicate LiveOk(slots: seq<Slot>, sessions: seq<Session>) {
    && (forall i, j | 0 <= i < j < |sessions| :: !IsLive(sessions[i].status) || !IsLive(sessions[j].status))
    && (forall i | 0 <= i < |sessions| && IsLive(sessions[i].status) ::
          sessions[i].slotId < |slots| && slots[sessions[i].slotId].status == PLAYING)
    && (forall i, j | 0 <= i < j < |sessions| && IsOpen(sessions[i].status) && IsOpen(sessions[j].status) ::
          sessions[i].slotId != sessions[j].slotId)
  }

  /** What a task may rely on when it is carried out: facts that no event undoes. */
  ghost predicate TaskOk(st: State, task: Task) {
    match task
    case DrawTask(sid, number, isLastNumber) =>
      && sid < |st.sessions| && 1 <= number <= ALL_NUMBERS
      && (isLastNumber ==> forall n | 1 <= n <= ALL_NUMBERS && n != number :: IsCalled(st.sessions[sid].calls, n))
    case GraceTask(sid) => sid < |st.sessions| && |st.sessions[sid].calls| >= ALL_NUMBERS
    case ExpireTask(sid, ids) =>
      sid < |st.sessions| && forall i | i in ids :: i < |st.sessions[sid].holds|
    case ReserveTask(sid, _, _, _, _, clock) => sid < |st.sessions| && clock <= st.now
    case ReserveBulkTask(sid, _, _, _, clock) => sid < |st.sessions| && clock <= st.now
    case FeeTask(slotId, entryFee) =>
      && slotId < |st.slots| && !st.slots[slotId].category.BONUS?
      && entryFee >= MINIMUM_ENTRY_FEE && entryFee >= st.slots[slotId].prizePerCartela
  }

  ghost predicate SlotsOk(slots: seq<Slot>) {
    forall i | 0 <= i < |slots| :: StandardSlot(slots[i])
  }

  ghost predicate SessionsOk(st: State) {
    forall i | 0 <= i < |st.sessions| ::
      st.sessions[i].slotId < |st.slots| && SessionOk(st.sessions[i], KindOf(st.slots[st.sessions[i].slotId]), st.now)
  }

  ghost predicate TasksOk(st: State) {
    forall task | task in st.tasks :: TaskOk(st, task)
  }

  ghost predicate Safe(st: State) {
    SlotsOk(st.slots) && SessionsOk(st) && LiveOk(st.slots, st.sessions) && TasksOk(st)
  }

  lemma SafeHasReferences(st: State)
    requires Safe(st)
    ensures References(st)
  {
  }

  // ---- What never goes back ----

  /** From the opening of the window on, the balls and the pot stand still. */
  predicate IsSettled(status: GameStatus) {
    status in {WINNER_WINDOW, FINISHED, NO_WINNER, CANCELLED}
  }

  /** A registration keeps its cartela, its player and what was paid for it. */
  predicate SameOwner(row: Registration, row': Registration) {
    && row'.cartelaId == row.cartelaId && row'.userId == row.userId && row'.source == row.source
    && row'.entryFeeCents == row.entryFeeCents
  }

  ghost predicate SessionGrows(s: Session, s': Session) {
    && s'.slotId == s.slotId && s'.openingPrize == s.openingPrize && s'.prizePerCartela == s.prizePerCartela
    && (IsSettled(s.status) ==>
          && IsSettled(s'.status) && s'.calls == s.calls && |s'.registrations| == |s.registrations|
          && s'.prizeAmount == s.prizeAmount && s'.companyRevenue == s.companyRevenue && s'.entryFee == s.entryFee)
    && s.calls <= s'.calls
    && |s.holds| <= |s'.holds|
    && |s.registrations| <= |s'.registrations|
    && forall r | 0 <= r < |s.registrations| :: SameOwner(s.registrations[r], s'.registrations[r])
  }

  ghost predicate KindsKept(slots: seq<Slot>, slots': seq<Slot>) {
    && |slots| <= |slots'|
    && forall i | 0 <= i < |slots| :: KindOf(slots'[i]) == KindOf(slots[i])
  }

  ghost predicate Grows(st: State, st': State) {
    && st.now <= st'.now && KindsKept(st.slots, st'.slots) && |st.sessions| <= |st'.sessions|
    && forall i | 0 <= i < |st.sessions| :: SessionGrows(st.sessions[i], st'.sessions[i])
  }

  lemma {:induction false} TaskStaysOk(st: State, st': State, task: Task)
    requires Grows(st, st') && TaskOk(st, task)
    ensures TaskOk(st', task)
  {
    match task
    case DrawTask(sid, number, isLastNumber) =>
      assert SessionGrows(st.sessions[sid], st'.sessions[sid]);
      forall n | 1 <= n <= ALL_NUMBERS && IsCalled(st.sessions[sid].calls, n)
        ensures IsCalled(st'.sessions[sid].calls, n)
      {
        var i :| 0 <= i < |st.sessions[sid].calls| && st.sessions[sid].calls[i].ball.number == n;
        assert st'.sessions[sid].calls[i] == st.sessions[sid].calls[i];
      }
    case GraceTask(sid) =>
      assert SessionGrows(st.sessions[sid], st'.sessions[sid]);
    case ExpireTask(sid, ids) =>
      assert SessionGrows(st.sessions[sid], st'.sessions[sid]);
    case ReserveTask(sid, _, _, _, _, _) =>
    case ReserveBulkTask(sid, _, _, _, _) =>
    case FeeTask(slotId, entryFee) =>
      assert KindOf(st'.slots[slotId]) == KindOf(st.slots[slotId]);
  }

  lemma {:induction false} TasksStayOk(st: State, st': State)
    requires Grows(st, st') && TasksOk(st)
    requires forall task | task in st'.tasks :: task in st.tasks || TaskOk(st', task)
    ensures TasksOk(st')
  {
    forall task | task in st'.tasks
      ensures TaskOk(st', task)
    {
      if task in st.tasks {
        TaskStaysOk(st, st', task);
      }
    }
  }

  // ---- Events on one session ----

  /** Replace one session, and perhaps its slot's status and orders: safe when the session is, when it
      becomes neither live nor open, and when every live session's slot is still PLAYING. */
  lemma {:induction false} UpdateIsSafe(st: State, st': State, sid: nat)
    requires Safe(st) && sid < |st.sessions|
    requires |st'.sessions| == |st.sessions| && st'.sessions == st.sessions[sid := st'.sessions[sid]]
    requires st'.now == st.now && |st'.slots| == |st.slots| && KindsKept(st.slots, st'.slots) && SlotsOk(st'.slots)
    requires var s, s' := st.sessions[sid], st'.sessions[sid];
      && SessionGrows(s, s') && SessionOk(s', KindOf(st.slots[s.slotId]), st.now)
      && (IsLive(s'.status) ==> IsLive(s.status)) && (IsOpen(s'.status) ==> IsOpen(s.status))
    requires forall i | 0 <= i < |st'.sessions| && IsLive(st'.sessions[i].status) ::
      st'.sessions[i].slotId < |st'.slots| && st'.slots[st'.sessions[i].slotId].status == PLAYING
    requires forall task | task in st'.tasks :: task in st.tasks || TaskOk(st', task)
    ensures Safe(st') && Grows(st, st')
  {
    forall i | 0 <= i < |st.sessions|
      ensures SessionGrows(st.sessions[i], st'.sessions[i])
    {
    }
    TasksStayOk(st, st');
  }

  /** The same with the slots untouched. */
  lemma {:induction false} QuietUpdateIsSafe(st: State, st': State, sid: nat)
    requires Safe(st) && sid < |st.sessions|
    requires |st'.sessions| == |st.sessions| && st'.sessions == st.sessions[sid := st'.sessions[sid]]
    requires st'.now == st.now && st'.slots == st.slots
    requires var s, s' := st.sessions[sid], st'.sessions[sid];
      && SessionGrows(s, s') && SessionOk(s', KindOf(st.slots[s.slotId]), st.now)
      && (IsLive(s'.status) ==> IsLive(s.status)) && (IsOpen(s'.status) ==> IsOpen(s.status))
    requires forall task | task in st'.tasks :: task in st.tasks || TaskOk(st', task)
    ensures Safe(st') && Grows(st, st')
  {
    forall i | 0 <= i < |st'.sessions| && IsLive(st'.sessions[i].status)
      ensures st'.sessions[i].slotId < |st'.slots| && st'.slots[st'.sessions[i].slotId].status == PLAYING
    {
      assert IsLive(st.sessions[i].status);
    }
    UpdateIsSafe(st, st', sid);
  }

  /** The end of a round: the session is over and its own slot may change in any way. */
  lemma {:induction false} EndIsSafe(st: State, st': State, sid: nat)
    requires Safe(st) && sid < |st.sessions|
    requires |st'.sessions| == |st.sessions| && st'.sessions == st.sessions[sid := st'.sessions[sid]]
    requires st'.now == st.now && st'.tasks == st.tasks
    requires var s, s' := st.sessions[sid], st'.sessions[sid];
      && SessionGrows(s, s') && SessionOk(s', KindOf(st.slots[s.slotId]), st.now)
      && IsOpen(s.status) && !IsOpen(s'.status)
      && |st'.slots| == |st.slots| && st'.slots == st.slots[s.slotId := st'.slots[s.slotId]]
      && KindOf(st'.slots[s.slotId]) == KindOf(st.slots[s.slotId]) && StandardSlot(st'.slots[s.slotId])
    ensures Safe(st') && Grows(st, st')
  {
    forall i | 0 <= i < |st'.sessions| && IsLive(st'.sessions[i].status)
      ensures st'.sessions[i].slotId < |st'.slots| && st'.slots[st'.sessions[i].slotId].status == PLAYING
    {
      assert i != sid && IsLive(st.sessions[i].status) && IsOpen(st.sessions[i].status);
      assert st.sessions[i].slotId != st.sessions[sid].slotId;
    }
    UpdateIsSafe(st, st', sid);
  }

  lemma RestoredSlot(slots: seq<Slot>, id: nat)
    requires id < |slots| && StandardSlot(slots[id])
    ensures var slots' := RestoreSlotAfterSession(slots, id);
      && |slots'| == |slots| && slots' == slots[id := slots'[id]]
      && KindOf(slots'[id]) == KindOf(slots[id]) && StandardSlot(slots'[id])
  {
  }

  /** Replacing a slot's mode, fee or order only. */
  lemma {:induction false} SlotChangeIsSafe(st: State, slots': seq<Slot>)
    requires Safe(st) && |slots'| == |st.slots|
    requires forall i | 0 <= i < |slots'| ::
      KindOf(slots'[i]) == KindOf(st.slots[i]) && slots'[i].status == st.slots[i].status && StandardSlot(slots'[i])
    ensures Safe(st.(slots := slots')) && Grows(st, st.(slots := slots'))
  {
    TasksStayOk(st, st.(slots := slots'));
  }

  /** A new session on a slot that has no open one; a live one needs its slot to be PLAYING and the
      house to be quiet. */
  lemma {:induction false} NewSessionIsSafe(st: State, st': State, session: Session)
    requires Safe(st) && st'.sessions == st.sessions + [session] && st'.now == st.now && st'.tasks == st.tasks
    requires KindsKept(st.slots, st'.slots) && SlotsOk(st'.slots)
    requires session.slotId < |st'.slots| && SessionOk(session, KindOf(st'.slots[session.slotId]), st.now)
    requires forall i | 0 <= i < |st.sessions| && IsOpen(st.sessions[i].status) ::
        st.sessions[i].slotId != session.slotId
    requires IsLive(session.status) ==> !AnyLive(st.sessions) && st'.slots[session.slotId].status == PLAYING
    requires forall i | 0 <= i < |st.sessions| && IsLive(st.sessions[i].status) ::
      st'.slots[st.sessions[i].slotId].status == PLAYING
    ensures Safe(st') && Grows(st, st')
  {
    forall i | 0 <= i < |st.sessions|
      ensures st'.sessions[i] == st.sessions[i] && SessionGrows(st.sessions[i], st'.sessions[i])
    {
    }
    NewSessionIsLiveOk(st, st', session);
    TasksStayOk(st, st');
  }

  lemma {:induction false} NewSessionIsLiveOk(st: State, st': State, session: Session)
    requires LiveOk(st.slots, st.sessions) && st'.sessions == st.sessions + [session]
    requires |st.slots| <= |st'.slots| && session.slotId < |st'.slots|
    requires forall i | 0 <= i < |st.sessions| && IsOpen(st.sessions[i].status) ::
        st.sessions[i].slotId != session.slotId
    requires IsLive(session.status) ==> !AnyLive(st.sessions) && st'.slots[session.slotId].status == PLAYING
    requires forall i | 0 <= i < |st.sessions| && IsLive(st.sessions[i].status) ::
      st'.slots[st.sessions[i].slotId].status == PLAYING
    ensures LiveOk(st'.slots, st'.sessions)
  {
  }

  lemma {:induction false} FreshSessionOk(slotId: nat, slot: Slot, fees: Fees, prizeAmount: nat, status: GameStatus,
                                          opensAt: Option<int>, startsAt: Option<int>, now: int)
    requires status == READY || status == PLAYING
    requires fees.entryFee == fees.prizePerCartela + fees.companyFeePerCartela
    requires if slot.category.BONUS? then fees.entryFee == 0 && fees.prizePerCartela == 0 else fees.entryFee > 0
    requires status == READY && !slot.category.BONUS? ==> fees.prizePerCartela == slot.prizePerCartela
    ensures SessionOk(NewSession(slotId, fees, prizeAmount, status, opensAt, startsAt), KindOf(slot), now)
  {
  }
}
