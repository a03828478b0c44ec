/** How sessions come to exist before they are played: slot creation, the first registration, the
    registration opener, and the two steps of an entry-fee update. */
module Opening {
  import opened Common
  import opened Games
  import opened GameQueue
  import opened Registering
  import opened Rounds

  const DEFAULT_ENTRY_FEE: nat := 1000
  const DEFAULT_PRIZE_PER_CARTELA: nat := 800
  const MINIMUM_ENTRY_FEE: nat := 800

  datatype SlotRequest = SlotRequest(category: GameCategory, mode: OperationMode, ruleId: nat, manualRule: bool,
                                     entryFee: nat, fixedPrizeAmount: nat, maxCartelasPerPlayer: Option<nat>,
                                     opensAt: int, startsAt: int)

  function RequestedSlot(request: SlotRequest): Slot {
    var big := request.category.BIG_GOTD? || request.category.BIG_GAME?;
    Slot(if request.category.BIG_GAME? then READY else NEXT, request.category, request.mode, None, request.manualRule,
         if big then request.entryFee else DEFAULT_ENTRY_FEE,
         if big then 0 else DEFAULT_PRIZE_PER_CARTELA,
         if request.category.NORMAL? then None else Some(request.fixedPrizeAmount),
         if IsBonusLike(request.category) then Some(BonusCartelaLimit(request.maxCartelasPerPlayer))
         else if request.category.BIG_GAME? then request.maxCartelasPerPlayer else None,
         true, None)
  }

  predicate OpenBigGame(slots: seq<Slot>, sessions: seq<Session>) {
    exists i | 0 <= i < |sessions| && sessions[i].slotId < |slots| ::
      && slots[sessions[i].slotId].category.BIG_GAME? && slots[sessions[i].slotId].status != CANCELLED
      && IsOpen(sessions[i].status)
  }

  predicate ValidRequest(request: SlotRequest) {
    && (!request.category.NORMAL? ==> request.fixedPrizeAmount > 0)
    && (request.category.BIG_GOTD? || request.category.BIG_GAME? ==> request.entryFee > 0)
    && (request.category.BIG_GAME? ==>
          request.maxCartelasPerPlayer.Some? && request.maxCartelasPerPlayer.value > 0
            && request.opensAt < request.startsAt)
  }

  /** `createGameSlot`: only a Big Game gets its READY session at once. */
  function CreateGameSlot(st: State, request: SlotRequest): Option<State> {
    if !ValidRequest(request) || (request.category.BIG_GAME? && OpenBigGame(st.slots, st.sessions)) then None
    else
      var slots := CreateInQueue(st.slots, RequestedSlot(request), request.ruleId);
      var slotId := |slots| - 1;
      var sessions := if !request.category.BIG_GAME? then st.sessions
        else
          var fees := SessionMoneyConfig(slots[slotId]);
          st.sessions
            + [NewSession(slotId, fees, fees.prizeAmount, READY, Some(request.opensAt), Some(request.startsAt))];
      Some(st.(slots := slots, sessions := sessions))
  }

  /** A session opened for a slot at the slot's prices. */
  function ReadySession(slots: seq<Slot>, slotId: nat, startsAt: Option<int>): Session
    requires slotId < |slots|
  {
    var fees := SessionMoneyConfig(slots[slotId]);
    NewSession(slotId, fees, fees.prizeAmount, READY, None, startsAt)
  }

  predicate HasSessionToRegister(sessions: seq<Session>, slotId: nat) {
    exists i | 0 <= i < |sessions| :: sessions[i].slotId == slotId && sessions[i].status in {READY, PLAYING, CHECKING}
  }

  /** `resolveRegistrationSessionForSlot` where it creates: a queued slot without a session gets one. */
  function CreateForFirstRegistration(st: State, slotId: nat): Option<State>
    requires slotId < |st.slots|
  {
    var slot := st.slots[slotId];
    if slot.status != NEXT || slot.category.BIG_GAME? || HasSessionToRegister(st.sessions, slotId) then None
    else
      Some(st.(sessions := st.sessions + [ReadySession(st.slots, slotId, None)]))
  }

  // ---- The opener ----

  datatype OpenerOptions = OpenerOptions(ignoreReviewGrace: bool, deferred: bool)

  predicate HasLiveCartelas(session: Session) {
    HasPlayers(session.registrations)
  }

  predicate DueBigGameSession(st: State) {
    exists i | 0 <= i < |st.sessions| && st.sessions[i].slotId < |st.slots| ::
      && st.sessions[i].status == READY && st.sessions[i].scheduledStartAt.Some?
      && st.sessions[i].scheduledStartAt.value <= st.now
      && st.slots[st.sessions[i].slotId].category.BIG_GAME? && st.slots[st.sessions[i].slotId].status != CANCELLED
  }

  predicate StandardReady(slots: seq<Slot>, session: Session) {
    && session.status == READY && session.slotId < |slots|
    && slots[session.slotId].status != CANCELLED && !slots[session.slotId].category.BIG_GAME?
  }

  function OrderKey(slots: seq<Slot>, session: Session): Option<int> {
    if session.slotId < |slots| then slots[session.slotId].sortOrder else None
  }

  /** The standard READY session whose slot comes first; ties go to the earlier session. */
  function HeadReady(slots: seq<Slot>, sessions: seq<Session>): (head: Option<nat>)
    ensures head.Some? ==> head.value < |sessions| && StandardReady(slots, sessions[head.value])
    ensures head.Some? ==> forall i | 0 <= i < |sessions| && StandardReady(slots, sessions[i]) ::
      !OrderedBefore(OrderKey(slots, sessions[i]), OrderKey(slots, sessions[head.value]))
      && (i < head.value ==> OrderedBefore(OrderKey(slots, sessions[head.value]), OrderKey(slots, sessions[i])))
    ensures head.None? ==> forall i | 0 <= i < |sessions| :: !StandardReady(slots, sessions[i])
  {
    if sessions == [] then None
    else
      var last := |sessions| - 1;
      var front := HeadReady(slots, sessions[..last]);
      assert forall i | 0 <= i < last :: sessions[..last][i] == sessions[i];
      if !StandardReady(slots, sessions[last]) then front
      else if front.None? || OrderedBefore(OrderKey(slots, sessions[last]), OrderKey(slots, sessions[front.value]))
        then Some(last)
      else front
  }

  /** The first NEXT slot by sort order, of any category. */
  function QueueHead(slots: seq<Slot>): (head: Option<nat>)
    ensures head.Some? ==> head.value < |slots| && slots[head.value].status == NEXT
    ensures head.None? ==> forall i | 0 <= i < |slots| :: slots[i].status != NEXT
  {
    if slots == [] then None
    else
      var last := |slots| - 1;
      var front := QueueHead(slots[..last]);
      if slots[last].status != NEXT then front
      else if front.None? || OrderedBefore(slots[last].sortOrder, slots[front.value].sortOrder) then Some(last)
      else front
  }

  function SoftRetire(slots: seq<Slot>, session: Session, isHead: bool): Session {
    if !isHead && StandardReady(slots, session) && !HasLiveCartelas(session)
    then session.(status := CANCELLED, scheduledStartAt := None)
    else session
  }

  /** `softRetireEmptyNonHeadReadySessions`. */
  function RetireNonHeads(slots: seq<Slot>, sessions: seq<Session>, head: nat): seq<Session> {
    seq(|sessions|, i requires 0 <= i < |sessions| => SoftRetire(slots, sessions[i], i == head))
  }

  /** The check before a session is created; the head of the queue, being NEXT, passes it. */
  predicate IsSlotValidForReadySession(slots: seq<Slot>, slotId: nat) {
    slotId < |slots| && (slots[slotId].status == NEXT || slots[slotId].status == READY)
  }

  /** `openNextAutoQueueRegistrationInTransaction` once it holds the transition lock. `recentlyFinished`
      says whether a round ended within the review time. */
  function OpenNext(st: State, options: OpenerOptions, recentlyFinished: bool, durationMs: int): State {
    var live := AnyLive(st.sessions);
    if live && !options.deferred then st
    else if !options.ignoreReviewGrace && recentlyFinished then st
    else if DueBigGameSession(st) then st
    else
      var startsAt := if live then None else Some(st.now + durationMs);
      var head := HeadReady(st.slots, st.sessions);
      if head.Some? then
        var retired := RetireNonHeads(st.slots, st.sessions, head.value);
        var session := retired[head.value];
        st.(sessions := if !live && session.scheduledStartAt.None? && st.slots[session.slotId].mode == AUTO
                        then retired[head.value := session.(scheduledStartAt := startsAt)] else retired)
      else
        var queueHead := QueueHead(st.slots);
        if queueHead.None? || st.slots[queueHead.value].mode != AUTO
           || !IsSlotValidForReadySession(st.slots, queueHead.value) || AnyReadyOn(st.sessions, queueHead.value) then st
        else
          st.(sessions := st.sessions + [ReadySession(st.slots, queueHead.value, startsAt)])
  }

  // ---- Entry fee ----

  /** The checks of `updateSlotEntryFee`, which read before its transaction begins. */
  predicate FeeUpdateAllowed(st: State, slotId: nat, entryFee: nat) {
    && slotId < |st.slots| && entryFee >= MINIMUM_ENTRY_FEE
    && (st.slots[slotId].status == NEXT || (st.slots[slotId].status == READY && st.slots[slotId].category.BIG_GAME?))
    && (forall i | 0 <= i < |st.sessions| && st.sessions[i].slotId == slotId && st.sessions[i].status == READY ::
          st.sessions[i].registrations == [])
    && !st.slots[slotId].category.BONUS? && entryFee >= st.slots[slotId].prizePerCartela
  }

  function WithFee(session: Session, slotId: nat, entryFee: nat, companyFee: int): Session {
    if session.slotId == slotId && session.status == READY
    then session.(entryFee := entryFee, companyFeePerCartela := companyFee)
    else session
  }

  /** The transaction of `updateSlotEntryFee`: it does not look at registrations again. */
  function CommitFee(st: State, slotId: nat, entryFee: nat): State
    requires slotId < |st.slots|
  {
    var companyFee := entryFee - st.slots[slotId].prizePerCartela;
    st.(slots := st.slots[slotId := st.slots[slotId].(entryFee := entryFee)],
        sessions := seq(|st.sessions|, i requires 0 <= i < |st.sessions| =>
                          WithFee(st.sessions[i], slotId, entryFee, companyFee)))
  }
}
