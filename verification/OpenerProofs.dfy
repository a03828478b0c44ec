/** What one run of the registration opener leaves behind, and why a second run does nothing. */
module OpenerProofs {
  import opened Common
  import opened Games
  import opened GameQueue
  import opened Registering
  import opened Rounds
  import opened Opening

  ghost predicate IsHead(slots: seq<Slot>, sessions: seq<Session>, head: nat) {
    && head < |sessions| && StandardReady(slots, sessions[head])
    && forall i | 0 <= i < |sessions| && StandardReady(slots, sessions[i]) ::
         && !OrderedBefore(OrderKey(slots, sessions[i]), OrderKey(slots, sessions[head]))
         && (i < head ==> OrderedBefore(OrderKey(slots, sessions[head]), OrderKey(slots, sessions[i])))
  }

  lemma {:induction false} HeadIsUnique(slots: seq<Slot>, sessions: seq<Session>, head: nat)
    requires IsHead(slots, sessions, head)
    ensures HeadReady(slots, sessions) == Some(head)
  {
    var other := HeadReady(slots, sessions).value;
    assert !OrderedBefore(OrderKey(slots, sessions[head]), OrderKey(slots, sessions[other]));
    assert !OrderedBefore(OrderKey(slots, sessions[other]), OrderKey(slots, sessions[head]));
  }

  /** The states the opener is willing to work on. */
  predicate MayOpen(st: State, options: OpenerOptions, recentlyFinished: bool) {
    && (!AnyLive(st.sessions) || options.deferred)
    && (options.ignoreReviewGrace || !recentlyFinished)
    && !DueBigGameSession(st)
  }

  /** A run over an existing standard READY session: the head stays head and READY, every other empty
      one is retired, and no slot is touched. */
  lemma {:induction false} RunWithHead(st: State, options: OpenerOptions, recentlyFinished: bool, durationMs: int)
    requires MayOpen(st, options, recentlyFinished) && HeadReady(st.slots, st.sessions).Some?
    ensures var after := OpenNext(st, options, recentlyFinished, durationMs);
      var head := HeadReady(st.slots, st.sessions).value;
      && after.slots == st.slots && |after.sessions| == |st.sessions|
      && IsHead(after.slots, after.sessions, head)
      && (forall i | 0 <= i < |after.sessions| && i != head ::
            && after.sessions[i] == SoftRetire(st.slots, st.sessions[i], false)
            && (StandardReady(after.slots, after.sessions[i]) ==> HasLiveCartelas(after.sessions[i])))
      && after.sessions[head] == st.sessions[head].(scheduledStartAt := after.sessions[head].scheduledStartAt)
      && (AnyLive(st.sessions) || st.slots[st.sessions[head].slotId].mode != AUTO
          || after.sessions[head].scheduledStartAt.Some?
          || after.sessions == st.sessions)
  {
    var after := OpenNext(st, options, recentlyFinished, durationMs);
    var head := HeadReady(st.slots, st.sessions).value;
    assert forall i | 0 <= i < |st.sessions| && i != head ::
      after.sessions[i] == SoftRetire(st.slots, st.sessions[i], false);
    assert after.sessions[head] == st.sessions[head].(scheduledStartAt := after.sessions[head].scheduledStartAt);
    HeadStays(st.slots, st.sessions, after.sessions, head);
  }

  /** Retiring others does not give the head a rival. */
  lemma {:induction false} HeadStays(slots: seq<Slot>, sessions: seq<Session>, sessions': seq<Session>, head: nat)
    requires HeadReady(slots, sessions) == Some(head) && |sessions'| == |sessions|
    requires forall i | 0 <= i < |sessions| && i != head :: sessions'[i] == SoftRetire(slots, sessions[i], false)
    requires sessions'[head].slotId == sessions[head].slotId && sessions'[head].status == sessions[head].status
    ensures IsHead(slots, sessions', head)
  {
    forall i | 0 <= i < |sessions'| && StandardReady(slots, sessions'[i])
      ensures StandardReady(slots, sessions[i]) && OrderKey(slots, sessions'[i]) == OrderKey(slots, sessions[i])
    {
    }
  }

  lemma {:induction false} RunWithoutHead(st: State, options: OpenerOptions, recentlyFinished: bool, durationMs: int)
    requires MayOpen(st, options, recentlyFinished) && HeadReady(st.slots, st.sessions).None?
    ensures var head := QueueHead(st.slots);
      OpenNext(st, options, recentlyFinished, durationMs)
      == if head.None? || st.slots[head.value].mode != AUTO || AnyReadyOn(st.sessions, head.value) then st
         else st.(sessions := st.sessions + [ReadySession(st.slots, head.value,
                                                          if AnyLive(st.sessions) then None
                                                              else Some(st.now + durationMs))])
  {
  }

  lemma {:induction false} LiveUnchanged(st: State, options: OpenerOptions, recentlyFinished: bool, durationMs: int)
    ensures AnyLive(OpenNext(st, options, recentlyFinished, durationMs).sessions) <==> AnyLive(st.sessions)
  {
    var after := OpenNext(st, options, recentlyFinished, durationMs);
    forall i | 0 <= i < |st.sessions|
      ensures i < |after.sessions| && (IsLive(after.sessions[i].status) <==> IsLive(st.sessions[i].status))
    {
    }
    if AnyLive(st.sessions) {
      var i :| 0 <= i < |st.sessions| && IsLive(st.sessions[i].status);
      assert IsLive(after.sessions[i].status);
    }
  }

  lemma {:induction false} NoBigGameBecomesDue(st: State, options: OpenerOptions, recentlyFinished: bool,
                                               durationMs: int)
    requires durationMs > 0 && !DueBigGameSession(st)
    ensures !DueBigGameSession(OpenNext(st, options, recentlyFinished, durationMs))
  {
    var after := OpenNext(st, options, recentlyFinished, durationMs);
    forall i | 0 <= i < |after.sessions| && after.sessions[i].slotId < |after.slots|
      ensures !(&& after.sessions[i].status == READY && after.sessions[i].scheduledStartAt.Some?
                && after.sessions[i].scheduledStartAt.value <= after.now
                && after.slots[after.sessions[i].slotId].category.BIG_GAME?
                && after.slots[after.sessions[i].slotId].status != CANCELLED)
    {
      if i < |st.sessions| {
        assert after.sessions[i].slotId == st.sessions[i].slotId;
      }
    }
  }

  /** Running the opener twice at the same moment, with the same options, is running it once. */
  lemma {:induction false} OpenerIsIdempotent(st: State, options: OpenerOptions, recentlyFinished: bool,
                                              durationMs: int)
    requires durationMs > 0
    ensures var after := OpenNext(st, options, recentlyFinished, durationMs);
      OpenNext(after, options, recentlyFinished, durationMs) == after
  {
    var after := OpenNext(st, options, recentlyFinished, durationMs);
    if MayOpen(st, options, recentlyFinished) {
      LiveUnchanged(st, options, recentlyFinished, durationMs);
      NoBigGameBecomesDue(st, options, recentlyFinished, durationMs);
      if HeadReady(st.slots, st.sessions).Some? {
        SecondRunWithHead(st, options, recentlyFinished, durationMs);
      } else if |after.sessions| > |st.sessions| {
        SecondRunAfterCreate(st, options, recentlyFinished, durationMs);
      }
    }
  }

  lemma {:induction false} SecondRunWithHead(st: State, options: OpenerOptions, recentlyFinished: bool, durationMs: int)
    requires MayOpen(st, options, recentlyFinished) && HeadReady(st.slots, st.sessions).Some?
    requires AnyLive(OpenNext(st, options, recentlyFinished, durationMs).sessions) <==> AnyLive(st.sessions)
    ensures var after := OpenNext(st, options, recentlyFinished, durationMs);
      OpenNext(after, options, recentlyFinished, durationMs) == after
  {
    var after := OpenNext(st, options, recentlyFinished, durationMs);
    var head := HeadReady(st.slots, st.sessions).value;
    RunWithHead(st, options, recentlyFinished, durationMs);
    HeadIsUnique(after.slots, after.sessions, head);
    assert RetireNonHeads(after.slots, after.sessions, head) == after.sessions;
  }

  /** A run that finds what the last one created. */
  lemma {:induction false} RunOnCreated(st: State, options: OpenerOptions, recentlyFinished: bool, durationMs: int,
                                        created: nat)
    requires created == |st.sessions| - 1 && forall i | 0 <= i < created :: !StandardReady(st.slots, st.sessions[i])
    requires QueueHead(st.slots) == Some(st.sessions[created].slotId) && st.sessions[created].status == READY
    requires AnyLive(st.sessions) || st.sessions[created].scheduledStartAt.Some?
    ensures OpenNext(st, options, recentlyFinished, durationMs) == st
  {
    assert AnyReadyOn(st.sessions, st.sessions[created].slotId);
    if StandardReady(st.slots, st.sessions[created]) {
      HeadIsUnique(st.slots, st.sessions, created);
      assert RetireNonHeads(st.slots, st.sessions, created) == st.sessions;
    } else {
      assert HeadReady(st.slots, st.sessions).None?;
    }
  }

  lemma {:induction false} SecondRunAfterCreate(st: State, options: OpenerOptions, recentlyFinished: bool,
                                                durationMs: int)
    requires MayOpen(st, options, recentlyFinished) && HeadReady(st.slots, st.sessions).None?
    requires |OpenNext(st, options, recentlyFinished, durationMs).sessions| > |st.sessions|
    requires AnyLive(OpenNext(st, options, recentlyFinished, durationMs).sessions) <==> AnyLive(st.sessions)
    ensures var after := OpenNext(st, options, recentlyFinished, durationMs);
      OpenNext(after, options, recentlyFinished, durationMs) == after
  {
    var after := OpenNext(st, options, recentlyFinished, durationMs);
    RunWithoutHead(st, options, recentlyFinished, durationMs);
    assert forall i | 0 <= i < |st.sessions| :: after.sessions[i] == st.sessions[i];
    RunOnCreated(after, options, recentlyFinished, durationMs, |st.sessions|);
  }

  /** A session opened behind a live round gets no countdown; any other gets the full duration. */
  lemma {:induction false} CreatedCountdown(st: State, options: OpenerOptions, recentlyFinished: bool, durationMs: int)
    ensures var after := OpenNext(st, options, recentlyFinished, durationMs);
      |st.sessions| <= |after.sessions| <= |st.sessions| + 1
      && (|after.sessions| > |st.sessions| ==>
            var created := after.sessions[|st.sessions|];
            && created.status == READY && !AnyReadyOn(st.sessions, created.slotId)
            && QueueHead(st.slots) == Some(created.slotId)
            && created.scheduledStartAt == if AnyLive(st.sessions) then None else Some(st.now + durationMs))
  {
  }
}
