/** Push deliveries as they really interleave: one request filters its users, and later, after other requests
    have done the same, writes the log rows. A broadcast writes them before it sends, a single push after. */
module PushRuns {
  import opened Common
  import opened PushGuard

  /** A request between its filter and its log rows, with the clock its filter read. */
  datatype Delivery = Delivery(users: seq<string>, payload: Payload, filteredAt: int)

  datatype PushState = PushState(log: seq<LogRow>, pending: seq<Delivery>)

  /** `Filter` begins a request; `Log` reserves the rows of a broadcast, or records a single push that was
      sent; `Drop` ends one that writes nothing (sent to no device, or failed). */
  datatype PushEvent =
    | Filter(userIds: seq<string>, payload: Payload, now: int)
    | Log(request: nat, sentAt: int)
    | Drop(request: nat)

  const NOTHING_SENT := PushState([], [])

  function Without(pending: seq<Delivery>, i: nat): seq<Delivery>
    requires i < |pending|
  {
    pending[..i] + pending[i + 1..]
  }

  function LogDelivery(log: seq<LogRow>, d: Delivery, sentAt: int): seq<LogRow> {
    InsertIgnoring(log, d.users, d.payload.category, NormalizeEntityId(d.payload.rawEntityId), sentAt)
  }

  /** Within one request the clock does not go back; between requests nothing is assumed. */
  function Step(st: PushState, e: PushEvent): PushState {
    match e
    case Filter(userIds, payload, now) =>
      var eligible := FilterUsersForPush(st.log, userIds, payload, now);
      if eligible == [] then st else st.(pending := st.pending + [Delivery(eligible, payload, now)])
    case Log(i, sentAt) =>
      if i >= |st.pending| || sentAt < st.pending[i].filteredAt then st
      else PushState(LogDelivery(st.log, st.pending[i], sentAt), Without(st.pending, i))
    case Drop(i) =>
      if i >= |st.pending| then st else st.(pending := Without(st.pending, i))
  }

  function Play(events: seq<PushEvent>): PushState {
    if events == [] then NOTHING_SENT else Step(Play(events[..|events| - 1]), events[|events| - 1])
  }

  // ---- No notification twice ----

  lemma {:induction false} InsertKeepsUnique(log: seq<LogRow>, users: seq<string>, category: string, entityId: string,
                                             sentAt: int)
    requires NoDuplicates(log)
    ensures NoDuplicates(InsertIgnoring(log, users, category, entityId, sentAt))
  {
    if users != [] {
      InsertKeepsUnique(log, users[..|users| - 1], category, entityId, sentAt);
    }
  }

  /** However requests interleave, a user has at most one row per category and entity. */
  lemma {:induction false} NoNotificationTwice(events: seq<PushEvent>)
    ensures NoDuplicates(Play(events).log)
  {
    if events != [] {
      NoNotificationTwice(events[..|events| - 1]);
      var before, e := Play(events[..|events| - 1]), events[|events| - 1];
      if e.Log? && e.request < |before.pending| {
        var d := before.pending[e.request];
        InsertKeepsUnique(before.log, d.users, d.payload.category, NormalizeEntityId(d.payload.rawEntityId), e.sentAt);
      }
    }
  }

  // ---- The caps ----

  /** The two limits: which rows, how long a window, how many of them. */
  predicate IsLimit(kind: Kind, window: int, cap: nat) {
    || (kind.NonExempt? && window == GLOBAL_PUSH_WINDOW_MS && cap == GLOBAL_PUSH_MAX_PER_WINDOW)
    || (kind.Marketing? && window == MARKETING_PUSH_WINDOW_MS && cap == MARKETING_PUSH_MAX_PER_WINDOW)
  }

  predicate Addresses(d: Delivery, user: string, kind: Kind) {
    user in d.users && kind.Covers(d.payload.category)
  }

  /** How many requests that will log a row of this kind for the user are under way. */
  function Overlap(pending: seq<Delivery>, user: string, kind: Kind): nat {
    if pending == [] then 0
    else
      Overlap(pending[..|pending| - 1], user, kind) + if Addresses(pending[|pending| - 1], user, kind) then 1 else 0
  }

  /** ... and were filtered no later than a given time. */
  function Waiting(pending: seq<Delivery>, user: string, kind: Kind, latest: int): nat {
    if pending == [] then 0
    else
      var last := pending[|pending| - 1];
      Waiting(pending[..|pending| - 1], user, kind, latest)
      + if Addresses(last, user, kind) && last.filteredAt <= latest then 1 else 0
  }

  lemma {:induction false} WaitingAppends(pending: seq<Delivery>, d: Delivery, user: string, kind: Kind, latest: int)
    ensures Waiting(pending + [d], user, kind, latest)
         == Waiting(pending, user, kind, latest) + if Addresses(d, user, kind) && d.filteredAt <= latest then 1 else 0
  {
    assert (pending + [d])[..|pending|] == pending;
  }

  lemma {:induction false} WaitingConcat(a: seq<Delivery>, b: seq<Delivery>, user: string, kind: Kind, latest: int)
    ensures Waiting(a + b, user, kind, latest) == Waiting(a, user, kind, latest) + Waiting(b, user, kind, latest)
  {
    if b == [] {
      assert a + b == a;
    } else {
      var front, last := b[..|b| - 1], b[|b| - 1];
      WaitingConcat(a, front, user, kind, latest);
      assert a + b == (a + front) + [last] && b == front + [last];
      WaitingAppends(a + front, last, user, kind, latest);
    }
  }

  lemma {:induction false} WaitingWithout(pending: seq<Delivery>, i: nat, user: string, kind: Kind, latest: int)
    requires i < |pending|
    ensures Waiting(Without(pending, i), user, kind, latest)
         == Waiting(pending, user, kind, latest)
            - if Addresses(pending[i], user, kind) && pending[i].filteredAt <= latest then 1 else 0
  {
    var before, after := pending[..i], pending[i + 1..];
    assert pending == before + [pending[i]] + after;
    WaitingConcat(before + [pending[i]], after, user, kind, latest);
    WaitingAppends(before, pending[i], user, kind, latest);
    WaitingConcat(before, after, user, kind, latest);
  }

  lemma {:induction false} WaitingOverlaps(pending: seq<Delivery>, user: string, kind: Kind, latest: int)
    ensures Waiting(pending, user, kind, latest) <= Overlap(pending, user, kind)
  {
    if pending != [] {
      WaitingOverlaps(pending[..|pending| - 1], user, kind, latest);
    }
  }

  /** One window of one user: below the cap, or what is in it and what may still come stay in bounds. */
  ghost predicate Bounded(st: PushState, user: string, kind: Kind, from: int, window: int, cap: nat, overlap: nat) {
    var count := Count(st.log, user, kind, from, from + window);
    count < cap || count + Waiting(st.pending, user, kind, from + window) < cap + overlap
  }

  /** A full window lets no further request for it through the filter. */
  lemma {:induction false} FullWindowStops(log: seq<LogRow>, userIds: seq<string>, payload: Payload, now: int,
                                           user: string, kind: Kind, from: int, window: int, cap: nat)
    requires IsLimit(kind, window, cap) && Count(log, user, kind, from, from + window) >= cap
    requires now <= from + window && kind.Covers(payload.category)
    ensures user !in FilterUsersForPush(log, userIds, payload, now)
  {
    var wider := if kind.Marketing? then kind else AnyCategory;
    CountBelowSince(log, user, kind, wider, from, from + window, now - window);
    if user in FilterUsersForPush(log, userIds, payload, now) {
      EligibleHaveRoom(log, userIds, payload, now, user);
    }
  }

  lemma {:induction false} FilterIsBounded(st: PushState, userIds: seq<string>, payload: Payload, now: int,
                                           user: string, kind: Kind, from: int, window: int, cap: nat, overlap: nat)
    requires IsLimit(kind, window, cap) && Bounded(st, user, kind, from, window, cap, overlap)
    ensures Bounded(Step(st, Filter(userIds, payload, now)), user, kind, from, window, cap, overlap)
  {
    if Count(st.log, user, kind, from, from + window) >= cap {
      if kind.Covers(payload.category) && now <= from + window {
        FullWindowStops(st.log, userIds, payload, now, user, kind, from, window, cap);
      }
      FilterAddsOne(st, userIds, payload, now, user, kind, from + window);
    }
  }

  lemma {:induction false} FilterAddsOne(st: PushState, userIds: seq<string>, payload: Payload, now: int, user: string,
                                         kind: Kind, latest: int)
    ensures var after := Step(st, Filter(userIds, payload, now));
      var d := Delivery(FilterUsersForPush(st.log, userIds, payload, now), payload, now);
      && after.log == st.log
      && Waiting(after.pending, user, kind, latest)
         == Waiting(st.pending, user, kind, latest) + if Addresses(d, user, kind) && now <= latest then 1 else 0
  {
    WaitingAppends(st.pending, Delivery(FilterUsersForPush(st.log, userIds, payload, now), payload, now), user, kind,
                   latest);
  }

  lemma {:induction false} LogIsBounded(st: PushState, i: nat, sentAt: int, user: string, kind: Kind, from: int,
                                        window: int, cap: nat, overlap: nat)
    requires IsLimit(kind, window, cap) && Bounded(st, user, kind, from, window, cap, overlap)
    requires Overlap(st.pending, user, kind) <= overlap
    ensures Bounded(Step(st, Log(i, sentAt)), user, kind, from, window, cap, overlap)
  {
    if i < |st.pending| && st.pending[i].filteredAt <= sentAt {
      LogMovesOne(st, i, sentAt, user, kind, from, from + window);
      WaitingOverlaps(st.pending, user, kind, from + window);
    }
  }

  /** What was waiting for the window is now in it, at most one row of it. */
  lemma {:induction false} LogMovesOne(st: PushState, i: nat, sentAt: int, user: string, kind: Kind, from: int, to: int)
    requires i < |st.pending| && st.pending[i].filteredAt <= sentAt
    ensures var after := Step(st, Log(i, sentAt));
      var gone := if Addresses(st.pending[i], user, kind) && st.pending[i].filteredAt <= to then 1 else 0;
      && Waiting(after.pending, user, kind, to) == Waiting(st.pending, user, kind, to) - gone
      && Count(after.log, user, kind, from, to) <= Count(st.log, user, kind, from, to) + gone
  {
    var d := st.pending[i];
    InsertCounts(st.log, d.users, d.payload.category, NormalizeEntityId(d.payload.rawEntityId), sentAt, user, kind,
                 from, to);
    WaitingWithout(st.pending, i, user, kind, to);
  }

  lemma {:induction false} DropIsBounded(st: PushState, i: nat, user: string, kind: Kind, from: int, window: int,
                                         cap: nat, overlap: nat)
    requires Bounded(st, user, kind, from, window, cap, overlap)
    ensures Bounded(Step(st, Drop(i)), user, kind, from, window, cap, overlap)
  {
    if i < |st.pending| {
      WaitingWithout(st.pending, i, user, kind, from + window);
    }
  }

  /** At every moment of the run at most `overlap` requests for the user were under way. */
  ghost predicate OverlapsAtMost(events: seq<PushEvent>, user: string, kind: Kind, overlap: nat) {
    forall k | 0 <= k <= |events| :: Overlap(Play(events[..k]).pending, user, kind) <= overlap
  }

  lemma {:induction false} RunIsBounded(events: seq<PushEvent>, user: string, kind: Kind, from: int, window: int,
                                        cap: nat, overlap: nat)
    requires IsLimit(kind, window, cap) && OverlapsAtMost(events, user, kind, overlap)
    ensures Bounded(Play(events), user, kind, from, window, cap, overlap)
  {
    if events != [] {
      var front, e := events[..|events| - 1], events[|events| - 1];
      forall k | 0 <= k <= |front|
        ensures Overlap(Play(front[..k]).pending, user, kind) <= overlap
      {
        assert front[..k] == events[..k];
      }
      RunIsBounded(front, user, kind, from, window, cap, overlap);
      var st := Play(front);
      assert Overlap(st.pending, user, kind) <= overlap by {
        assert front[..|front|] == front;
      }
      match e
      case Filter(userIds, payload, now) =>
        FilterIsBounded(st, userIds, payload, now, user, kind, from, window, cap, overlap);
      case Log(i, sentAt) => LogIsBounded(st, i, sentAt, user, kind, from, window, cap, overlap);
      case Drop(i) => DropIsBounded(st, i, user, kind, from, window, cap, overlap);
    }
  }

  /** The bound that holds in every interleaving: in any 15 minutes at most 5 non-exempt rows of a user, in any
      30 minutes at most 2 marketing rows, plus one for each request beyond the first that was under way for
      the user at the same time. */
  lemma {:induction false} EveryRunIsCapped(events: seq<PushEvent>, user: string, kind: Kind, from: int, window: int,
                                            cap: nat, overlap: nat)
    requires IsLimit(kind, window, cap) && overlap > 0 && OverlapsAtMost(events, user, kind, overlap)
    ensures WithinCap(Play(events).log, user, kind, from, window, cap + overlap - 1)
  {
    RunIsBounded(events, user, kind, from, window, cap, overlap);
  }

  // ---- When one request keeps the cap ----

  /** Each user of a delivery gets one row, unless it is there already. */
  lemma {:induction false} InsertCountsExactly(log: seq<LogRow>, users: seq<string>, category: string,
                                               entityId: string, sentAt: int,
                                               user: string, kind: Kind, from: int, to: int)
    requires forall i, j | 0 <= i < j < |users| :: users[i] != users[j]
    ensures var after := InsertIgnoring(log, users, category, entityId, sentAt);
      && Count(after, user, kind, from, to) == Count(log, user, kind, from, to)
           + (if user in users && !Delivered(log, user, category, entityId) && kind.Covers(category)
              && from <= sentAt <= to
              then 1 else 0)
      && (user !in users ==> (Delivered(after, user, category, entityId) <==> Delivered(log, user, category, entityId)))
  {
    if users != [] {
      var front, last := users[..|users| - 1], users[|users| - 1];
      assert users == front + [last];
      InsertCountsExactly(log, front, category, entityId, sentAt, user, kind, from, to);
      InsertCountsExactly(log, front, category, entityId, sentAt, last, kind, from, to);
      var before := InsertIgnoring(log, front, category, entityId, sentAt);
      var row := LogRow(last, category, entityId, sentAt);
      CountAppend(before, row, user, kind, from, to);
      if user != last && Delivered(before, user, category, entityId) {
        DeliveredStays(before, row, user, category, entityId);
      }
    }
  }

  lemma {:induction false} DeliveredStays(log: seq<LogRow>, row: LogRow, user: string, category: string,
                                          entityId: string)
    requires Delivered(log, user, category, entityId)
    ensures Delivered(log + [row], user, category, entityId)
  {
    var i :| 0 <= i < |log| && log[i].userId == user && log[i].category == category && log[i].entityId == entityId;
    assert (log + [row])[i] == log[i];
  }

  ghost predicate UserCapped(log: seq<LogRow>, user: string, kind: Kind, window: int, cap: nat) {
    forall from :: WithinCap(log, user, kind, from, window, cap)
  }

  ghost predicate RoomIn(log: seq<LogRow>, user: string, kind: Kind, from: int, window: int, cap: nat) {
    Count(log, user, kind, from, from + window) < cap
  }

  /** Every window around the time has room for one more row. */
  ghost predicate HasRoomAt(log: seq<LogRow>, user: string, kind: Kind, sentAt: int, window: int, cap: nat) {
    forall from | from <= sentAt <= from + window :: RoomIn(log, user, kind, from, window, cap)
  }

  predicate LogsNewRow(log: seq<LogRow>, d: Delivery, user: string, kind: Kind) {
    Addresses(d, user, kind) && !Delivered(log, user, d.payload.category, NormalizeEntityId(d.payload.rawEntityId))
  }

  lemma {:induction false} LogCounts(log: seq<LogRow>, d: Delivery, sentAt: int, user: string, kind: Kind, from: int,
                                     window: int, cap: nat)
    requires DistinctUsers(d) && WithinCap(log, user, kind, from, window, cap)
    ensures WithinCap(LogDelivery(log, d, sentAt), user, kind, from, window, cap)
       <==> (LogsNewRow(log, d, user, kind) && from <= sentAt <= from + window ==>
             RoomIn(log, user, kind, from, window, cap))
  {
    InsertCountsExactly(log, d.users, d.payload.category, NormalizeEntityId(d.payload.rawEntityId), sentAt, user, kind,
                        from, from + window);
  }

  /** A delivery addresses each of its users once, and somebody. */
  ghost predicate DistinctUsers(d: Delivery) {
    "" !in d.users && forall i, j | 0 <= i < j < |d.users| :: d.users[i] != d.users[j]
  }

  /** So does every request of every run, which is all that logging it exactly needs. */
  lemma {:induction false} UsersStayDistinct(events: seq<PushEvent>)
    ensures AllDistinct(Play(events).pending)
  {
    if events != [] {
      UsersStayDistinct(events[..|events| - 1]);
      StepStaysDistinct(Play(events[..|events| - 1]), events[|events| - 1]);
    }
  }

  ghost predicate AllDistinct(pending: seq<Delivery>) {
    forall k | 0 <= k < |pending| :: DistinctUsers(pending[k])
  }

  lemma {:induction false} StepStaysDistinct(st: PushState, e: PushEvent)
    requires AllDistinct(st.pending)
    ensures AllDistinct(Step(st, e).pending)
  {
    if e.Filter? {
      EligibleAreDistinct(st.log, e.userIds, e.payload, e.now);
    }
  }

  lemma EligibleAreDistinct(log: seq<LogRow>, userIds: seq<string>, payload: Payload, now: int)
    ensures DistinctUsers(Delivery(FilterUsersForPush(log, userIds, payload, now), payload, now))
  {
  }

  /** Logging a delivery keeps a user's cap exactly when it logs nothing new for the user, or the user still has
      room when it logs, whatever the filter saw. */
  lemma {:induction false} LogKeepsCapIff(log: seq<LogRow>, d: Delivery, sentAt: int, user: string, kind: Kind,
                                          window: int, cap: nat)
    requires UserCapped(log, user, kind, window, cap)
    requires DistinctUsers(d)
    ensures UserCapped(LogDelivery(log, d, sentAt), user, kind, window, cap)
       <==> !LogsNewRow(log, d, user, kind) || HasRoomAt(log, user, kind, sentAt, window, cap)
  {
    var after := LogDelivery(log, d, sentAt);
    if UserCapped(after, user, kind, window, cap) && LogsNewRow(log, d, user, kind) {
      forall from | from <= sentAt <= from + window
        ensures RoomIn(log, user, kind, from, window, cap)
      {
        assert WithinCap(log, user, kind, from, window, cap) && WithinCap(after, user, kind, from, window, cap);
        LogCounts(log, d, sentAt, user, kind, from, window, cap);
      }
    }
    if !LogsNewRow(log, d, user, kind) || HasRoomAt(log, user, kind, sentAt, window, cap) {
      forall from
        ensures WithinCap(after, user, kind, from, window, cap)
      {
        assert WithinCap(log, user, kind, from, window, cap);
        LogCounts(log, d, sentAt, user, kind, from, window, cap);
      }
    }
  }

  /** A request writes a new row for a user who has no room left. */
  ghost predicate Overfills(st: PushState, e: PushEvent, user: string, kind: Kind, window: int, cap: nat) {
    && e.Log? && e.request < |st.pending| && st.pending[e.request].filteredAt <= e.sentAt
    && LogsNewRow(st.log, st.pending[e.request], user, kind)
    && !HasRoomAt(st.log, user, kind, e.sentAt, window, cap)
  }

  /** A capped user stays capped unless the event overfills, and an uncapped one stays uncapped. */
  ghost predicate BreaksOnly(st: PushState, e: PushEvent, st': PushState, user: string, kind: Kind, window: int,
                             cap: nat) {
    UserCapped(st'.log, user, kind, window, cap)
    <==> UserCapped(st.log, user, kind, window, cap) && !Overfills(st, e, user, kind, window, cap)
  }

  /** The states a run goes through. */
  function States(events: seq<PushEvent>): (states: seq<PushState>)
    ensures |states| == |events| + 1 && forall k | 0 <= k <= |events| :: states[k] == Play(events[..k])
  {
    seq(|events| + 1, k requires 0 <= k <= |events| => Play(events[..k]))
  }

  ghost predicate NeverOverfilled(states: seq<PushState>, events: seq<PushEvent>, user: string, kind: Kind,
                                  window: int, cap: nat)
    requires |states| == |events| + 1
  {
    forall k | 0 <= k < |events| :: !Overfills(states[k], events[k], user, kind, window, cap)
  }

  /** In every interleaving: a user is within a cap exactly when no request ever wrote a new row for a user
      without room, whatever its filter had seen. */
  lemma {:induction false} RunIsCappedIff(events: seq<PushEvent>, user: string, kind: Kind, window: int, cap: nat)
    ensures var states := States(events);
      UserCapped(states[|events|].log, user, kind, window, cap)
      <==> NeverOverfilled(states, events, user, kind, window, cap)
  {
    var states := States(events);
    NothingIsCapped(events, user, kind, window, cap);
    forall k | 0 <= k < |events|
      ensures BreaksOnly(states[k], events[k], states[k + 1], user, kind, window, cap)
    {
      NextIsCappedIff(events, k, user, kind, window, cap);
    }
    CappedAlong(states, events, user, kind, window, cap);
  }

  lemma {:induction false} CappedAlong(states: seq<PushState>, events: seq<PushEvent>, user: string, kind: Kind,
                                       window: int, cap: nat)
    requires |states| == |events| + 1 && UserCapped(states[0].log, user, kind, window, cap)
    requires forall k | 0 <= k < |events| ::
      BreaksOnly(states[k], events[k], states[k + 1], user, kind, window, cap)
    ensures UserCapped(states[|events|].log, user, kind, window, cap)
       <==> NeverOverfilled(states, events, user, kind, window, cap)
  {
    if events != [] {
      var n := |events| - 1;
      CappedAlong(states[..n + 1], events[..n], user, kind, window, cap);
      assert states[..n + 1][n] == states[n];
      assert forall k | 0 <= k < n :: states[..n + 1][k] == states[k] && events[..n][k] == events[k];
    }
  }

  lemma {:induction false} NothingIsCapped(events: seq<PushEvent>, user: string, kind: Kind, window: int, cap: nat)
    ensures UserCapped(States(events)[0].log, user, kind, window, cap)
  {
    assert events[..0] == [];
  }

  lemma {:induction false} NextIsCappedIff(events: seq<PushEvent>, k: nat, user: string, kind: Kind, window: int,
                                           cap: nat)
    requires k < |events|
    ensures BreaksOnly(States(events)[k], events[k], States(events)[k + 1], user, kind, window, cap)
  {
    StepIsCappedIff(events[..k], events[k], user, kind, window, cap);
    NextStep(events, k);
  }

  lemma {:induction false} NextStep(events: seq<PushEvent>, k: nat)
    requires k < |events|
    ensures Play(events[..k + 1]) == Step(Play(events[..k]), events[k])
  {
    assert events[..k + 1][..k] == events[..k];
  }

  lemma {:induction false} StepIsCappedIff(events: seq<PushEvent>, e: PushEvent, user: string, kind: Kind, window: int,
                                           cap: nat)
    ensures BreaksOnly(Play(events), e, Step(Play(events), e), user, kind, window, cap)
  {
    var st := Play(events);
    if e.Log? && e.request < |st.pending| && st.pending[e.request].filteredAt <= e.sentAt {
      UsersStayDistinct(events);
      var d := st.pending[e.request];
      if UserCapped(st.log, user, kind, window, cap) {
        LogKeepsCapIff(st.log, d, e.sentAt, user, kind, window, cap);
      } else {
        StaysOver(st.log, d, e.sentAt, user, kind, window, cap);
      }
    }
  }

  /** Rows are never removed, so a cap once passed stays passed. */
  lemma {:induction false} StaysOver(log: seq<LogRow>, d: Delivery, sentAt: int, user: string, kind: Kind, window: int,
                                     cap: nat)
    requires DistinctUsers(d) && !UserCapped(log, user, kind, window, cap)
    ensures !UserCapped(LogDelivery(log, d, sentAt), user, kind, window, cap)
  {
    var from :| !WithinCap(log, user, kind, from, window, cap);
    InsertCountsExactly(log, d.users, d.payload.category, NormalizeEntityId(d.payload.rawEntityId), sentAt, user, kind,
                        from, from + window);
    assert !WithinCap(LogDelivery(log, d, sentAt), user, kind, from, window, cap);
  }

  /** When no row is younger, that room is one count: the filter's own question, asked again. */
  lemma {:induction false} RoomIsOneCount(log: seq<LogRow>, user: string, kind: Kind, sentAt: int, window: int,
                                          cap: nat)
    requires LoggedBy(log, sentAt) && window >= 0
    ensures HasRoomAt(log, user, kind, sentAt, window, cap) <==> CountSince(log, user, kind, sentAt - window) < cap
  {
    CountToNow(log, user, kind, sentAt - window, sentAt);
    if HasRoomAt(log, user, kind, sentAt, window, cap) {
      assert RoomIn(log, user, kind, sentAt - window, window, cap);
    } else {
      var from :| from <= sentAt <= from + window && !RoomIn(log, user, kind, from, window, cap);
      CountBelowSince(log, user, kind, kind, from, from + window, sentAt - window);
    }
  }

  lemma {:induction false} CountToNow(log: seq<LogRow>, user: string, kind: Kind, since: int, now: int)
    requires LoggedBy(log, now)
    ensures Count(log, user, kind, since, now) == CountSince(log, user, kind, since)
  {
    if log != [] {
      CountToNow(log[..|log| - 1], user, kind, since, now);
    }
  }

  // ---- A run over the cap ----

  function Reminder(entity: string): Payload {
    Payload("BIG_GAME_TODAY", Some(entity))
  }

  function Row(entity: string): LogRow {
    LogRow("u", "BIG_GAME_TODAY", entity, 0)
  }

  function To(entity: string): Delivery {
    Delivery(["u"], Reminder(entity), 0)
  }

  /** One reminder is sent; then two more are filtered before either is logged. */
  const THREE_REMINDERS := [
    Filter(["u"], Reminder("a"), 0), Log(0, 0), Filter(["u"], Reminder("b"), 0), Filter(["u"], Reminder("c"), 0),
      Log(0, 0), Log(0, 0)]

  /** A single user with room and no such row passes the filter. */
  lemma {:induction false} SingleEligible(log: seq<LogRow>, entity: string, now: int)
    requires !Delivered(log, "u", "BIG_GAME_TODAY", NormalizeEntityId(Some(entity)))
    requires CountSince(log, "u", AnyCategory, now - GLOBAL_PUSH_WINDOW_MS) < GLOBAL_PUSH_MAX_PER_WINDOW
    requires CountSince(log, "u", Marketing, now - MARKETING_PUSH_WINDOW_MS) < MARKETING_PUSH_MAX_PER_WINDOW
    ensures FilterUsersForPush(log, ["u"], Reminder(entity), now) == ["u"]
  {
    var entityId := NormalizeEntityId(Some(entity));
    OneOfOne();
    assert FilterUsers(["u"], id => !Delivered(log, id, "BIG_GAME_TODAY", entityId)) == ["u"] by {
      KeptOfOne(id => !Delivered(log, id, "BIG_GAME_TODAY", entityId));
    }
    KeptOfOne(id => CountSince(log, id, AnyCategory, now - GLOBAL_PUSH_WINDOW_MS) < GLOBAL_PUSH_MAX_PER_WINDOW);
    KeptOfOne(id => CountSince(log, id, Marketing, now - MARKETING_PUSH_WINDOW_MS) < MARKETING_PUSH_MAX_PER_WINDOW);
  }

  lemma OneOfOne()
    ensures UniqueUsers(["u"]) == ["u"]
  {
    assert ["u"][..0] == [];
  }

  lemma KeptOfOne(keep: string -> bool)
    requires keep("u")
    ensures FilterUsers(["u"], keep) == ["u"]
  {
    assert ["u"][..0] == [];
  }

  lemma {:induction false} FilterFirst(nothing: PushState, entity: string)
    requires nothing.log == [] && nothing.pending == [] && entity == "a"
    ensures Step(nothing, Filter(["u"], Reminder(entity), 0)) == PushState([], [To(entity)])
  {
    SingleEligible(nothing.log, entity, 0);
    assert nothing.pending + [To(entity)] == [To(entity)];
  }

  lemma {:induction false} LogOne(log: seq<LogRow>, pending: seq<Delivery>, entity: string)
    requires pending != [] && pending[0] == To(entity) && !Delivered(log, "u", "BIG_GAME_TODAY", entity)
    requires NormalizeEntityId(Some(entity)) == entity
    ensures Step(PushState(log, pending), Log(0, 0)) == PushState(log + [Row(entity)], pending[1..])
  {
    var users := ["u"];
    var none: seq<string> := [];
    assert users[..0] == none;
    assert InsertIgnoring(log, none, "BIG_GAME_TODAY", entity, 0) == log;
    assert LogDelivery(log, To(entity), 0) == log + [Row(entity)];
    assert Without(pending, 0) == pending[1..];
  }

  lemma {:induction false} OneRowCounts(kind: Kind, since: int)
    ensures CountSince([Row("a")], "u", kind, since) <= 1
  {
    var none: seq<LogRow> := [];
    assert [Row("a")][..0] == none;
    assert CountSince(none, "u", kind, since) == 0;
  }

  lemma {:induction false} FilterAfterFirst(st: PushState, entity: string)
    requires st.log == [Row("a")] && (entity == "b" || entity == "c")
    ensures Step(st, Filter(["u"], Reminder(entity), 0)) == PushState(st.log, st.pending + [To(entity)])
  {
    OneRowCounts(AnyCategory, 0 - GLOBAL_PUSH_WINDOW_MS);
    OneRowCounts(Marketing, 0 - MARKETING_PUSH_WINDOW_MS);
    assert NormalizeEntityId(Some(entity)) == entity != "a";
    SingleEligible(st.log, entity, 0);
  }

  /** A run that goes through these states ends in the last of them. */
  lemma {:induction false} FollowStages(events: seq<PushEvent>, stages: seq<PushState>)
    requires |stages| == |events| + 1 && stages[0] == NOTHING_SENT
    requires forall k | 0 <= k < |events| :: Step(stages[k], events[k]) == stages[k + 1]
    ensures Play(events) == stages[|events|]
  {
    if events != [] {
      FollowStages(events[..|events| - 1], stages[..|events|]);
    }
  }

  function Stages(): seq<PushState> {
    [PushState([], []), PushState([], [To("a")]), PushState([Row("a")], []), PushState([Row("a")], [To("b")]),
     PushState([Row("a")], [To("b"), To("c")]), PushState([Row("a"), Row("b")], [To("c")]),
     PushState([Row("a"), Row("b"), Row("c")], [])]
  }

  lemma {:induction false} FilterNext(before: PushState, e: PushEvent, after: PushState, entity: string)
    requires e == Filter(["u"], Reminder(entity), 0) && (entity == "b" || entity == "c")
    requires before.log == [Row("a")] && after == PushState(before.log, before.pending + [To(entity)])
    ensures Step(before, e) == after
  {
    FilterAfterFirst(before, entity);
  }

  lemma {:induction false} LogNext(before: PushState, after: PushState, entity: string)
    requires before.pending != [] && before.pending[0] == To(entity) && NormalizeEntityId(Some(entity)) == entity
    requires !Delivered(before.log, "u", "BIG_GAME_TODAY", entity)
    requires after == PushState(before.log + [Row(entity)], before.pending[1..])
    ensures Step(before, Log(0, 0)) == after
  {
    LogOne(before.log, before.pending, entity);
  }

  lemma {:induction false} LogStages(stages: seq<PushState>, k: nat)
    requires stages == Stages() && (k == 1 || k == 4 || k == 5)
    ensures Step(stages[k], Log(0, 0)) == stages[k + 1]
  {
    if k == 1 {
      assert stages[1].log + [Row("a")] == stages[2].log && stages[1].pending[1..] == stages[2].pending;
      LogNext(stages[1], stages[2], "a");
    } else if k == 4 {
      assert stages[4].log + [Row("b")] == stages[5].log && stages[4].pending[1..] == stages[5].pending;
      LogNext(stages[4], stages[5], "b");
    } else {
      assert stages[5].log + [Row("c")] == stages[6].log && stages[5].pending[1..] == stages[6].pending;
      LogNext(stages[5], stages[6], "c");
    }
  }

  lemma {:induction false} ThreeRows()
    ensures Count([Row("a"), Row("b"), Row("c")], "u", Marketing, 0, MARKETING_PUSH_WINDOW_MS) == 3
  {
    var none: seq<LogRow> := [];
    assert Count(none, "u", Marketing, 0, MARKETING_PUSH_WINDOW_MS) == 0;
    CountAppend(none, Row("a"), "u", Marketing, 0, MARKETING_PUSH_WINDOW_MS);
    CountAppend([Row("a")], Row("b"), "u", Marketing, 0, MARKETING_PUSH_WINDOW_MS);
    CountAppend([Row("a"), Row("b")], Row("c"), "u", Marketing, 0, MARKETING_PUSH_WINDOW_MS);
    assert none + [Row("a")] == [Row("a")] && [Row("a")] + [Row("b")] == [Row("a"), Row("b")];
    assert [Row("a"), Row("b")] + [Row("c")] == [Row("a"), Row("b"), Row("c")];
  }

  lemma {:induction false} FilterStages(events: seq<PushEvent>, stages: seq<PushState>, k: nat)
    requires events == THREE_REMINDERS && stages == Stages() && (k == 0 || k == 2 || k == 3)
    ensures Step(stages[k], events[k]) == stages[k + 1]
  {
    if k == 0 {
      FilterFirst(stages[0], "a");
    } else if k == 2 {
      assert stages[2].pending + [To("b")] == stages[3].pending;
      FilterNext(stages[2], events[2], stages[3], "b");
    } else {
      assert stages[3].pending + [To("c")] == stages[4].pending;
      FilterNext(stages[3], events[3], stages[4], "c");
    }
  }

  lemma {:induction false} AllLogged(events: seq<PushEvent>, stages: seq<PushState>)
    requires events == THREE_REMINDERS && stages == Stages()
    ensures Play(events) == stages[6]
  {
    forall k | 0 <= k < |events|
      ensures Step(stages[k], events[k]) == stages[k + 1]
    {
      if events[k].Filter? {
        FilterStages(events, stages, k);
      } else {
        LogStages(stages, k);
      }
    }
    FollowStages(events, stages);
  }

  /** Three marketing rows within 30 minutes, with two requests under way at once: one more than the cap, which
      is exactly what the bound allows. */
  lemma {:induction false} OverlapExceedsCap()
    ensures Play(THREE_REMINDERS).log == [Row("a"), Row("b"), Row("c")]
    ensures Count(Play(THREE_REMINDERS).log, "u", Marketing, 0, MARKETING_PUSH_WINDOW_MS)
      == MARKETING_PUSH_MAX_PER_WINDOW + 2 - 1
  {
    AllLogged(THREE_REMINDERS, Stages());
    ThreeRows();
  }

  // ---- The requests as the service makes them ----

  /** `history` is the run the service has been through so far. */
  class PushNotificationsService {
    const guard: PushDeliveryGuardService
    var pending: seq<Delivery>
    ghost var history: seq<PushEvent>

    constructor (guard: PushDeliveryGuardService)
      requires guard.log == []
      ensures this.guard == guard && Valid() && history == []
    {
      this.guard := guard;
      pending := [];
      history := [];
    }

    function View(): PushState
      reads this, guard
    {
      PushState(guard.log, pending)
    }

    ghost predicate Valid()
      reads this, guard
    {
      View() == Play(history)
    }

    /** The start of either path: filter, and go on only with someone to send to. */
    method BeginPush(userIds: seq<string>, payload: Payload, now: int) returns (begun: bool)
      requires Valid()
      modifies this
      ensures Valid() && history == old(history) + [Filter(userIds, payload, now)]
      ensures begun <==> |pending| == |old(pending)| + 1
    {
      var eligible := guard.FilterForPush(userIds, payload, now);
      PlayNext(history, Filter(userIds, payload, now));
      history := history + [Filter(userIds, payload, now)];
      begun := eligible != [];
      if begun {
        pending := pending + [Delivery(eligible, payload, now)];
      }
    }

    /** The broadcast path reserves its rows before it sends. */
    method ReserveBroadcast(i: nat, sentAt: int) returns (reservedUserIds: seq<string>)
      requires Valid() && i < |pending| && pending[i].filteredAt <= sentAt
      modifies this, guard
      ensures Valid() && history == old(history) + [Log(i, sentAt)]
      ensures |guard.log| == |old(guard.log)| + |reservedUserIds|
    {
      var d := pending[i];
      UsersStayDistinct(history);
      UniqueOfUnique(d.users);
      PlayNext(history, Log(i, sentAt));
      history := history + [Log(i, sentAt)];
      var skipped;
      reservedUserIds, skipped := guard.ReserveDeliveries(d.users, d.payload, sentAt);
      pending := pending[..i] + pending[i + 1..];
    }

    /** The single path records a push that reached a device, and forgets one that did not. */
    method FinishSinglePush(i: nat, sentCount: nat, sentAt: int)
      requires Valid() && i < |pending| && pending[i].filteredAt <= sentAt && |pending[i].users| == 1
      modifies this, guard
      ensures Valid() && history == old(history) + [if sentCount > 0 then Log(i, sentAt) else Drop(i)]
    {
      var d := pending[i];
      ghost var e := if sentCount > 0 then Log(i, sentAt) else Drop(i);
      PlayNext(history, e);
      history := history + [e];
      if sentCount > 0 {
        assert d.users == [d.users[0]];
        guard.RecordSuccessfulPush(d.users[0], d.payload, sentAt);
      }
      pending := pending[..i] + pending[i + 1..];
    }
  }

  lemma {:induction false} PlayNext(events: seq<PushEvent>, e: PushEvent)
    ensures Play(events + [e]) == Step(Play(events), e)
  {
    assert (events + [e])[..|events|] == events;
  }
}
