/** Push deduplication and the two sliding-window caps. Times are in milliseconds. */
module PushGuard {
  import opened Common

  const PUSH_RATE_EXEMPT_CATEGORIES: set<string> := {
    "DEPOSIT_APPROVED", "WITHDRAWAL_APPROVED", "WITHDRAWAL_COMPLETED", "WITHDRAWAL_REJECTED",
    "WINNER_ANNOUNCEMENT", "SYSTEM"
  }
  const PUSH_MARKETING_CATEGORIES: set<string> := {
    "BIG_GAME_REGISTRATION_OPEN", "BIG_GAME_TOMORROW", "BIG_GAME_TODAY"
  }
  const GLOBAL_PUSH_WINDOW_MS: int := 15 * 60 * 1000
  const GLOBAL_PUSH_MAX_PER_WINDOW: nat := 5
  const MARKETING_PUSH_WINDOW_MS: int := 30 * 60 * 1000
  const MARKETING_PUSH_MAX_PER_WINDOW: nat := 2

  datatype LogRow = LogRow(userId: string, category: string, entityId: string, sentAt: int)

  datatype Payload = Payload(category: string, rawEntityId: Option<string>)

  /** Which rows a count looks at. */
  datatype Kind = AnyCategory | NonExempt | Marketing {
    predicate Covers(category: string) {
      match this
      case AnyCategory => true
      case NonExempt => category !in PUSH_RATE_EXEMPT_CATEGORIES
      case Marketing => category in PUSH_MARKETING_CATEGORIES
    }
  }

  function NormalizeEntityId(entityId: Option<string>): string {
    match entityId
    case None => ""
    case Some(text) => Trim(text)
  }

  /** Rows of a user, of a kind, with from <= sentAt <= to. */
  function Count(log: seq<LogRow>, userId: string, kind: Kind, from: int, to: int): nat {
    if log == [] then 0
    else
      var row := log[|log| - 1];
      Count(log[..|log| - 1], userId, kind, from, to)
      + if row.userId == userId && kind.Covers(row.category) && from <= row.sentAt <= to then 1 else 0
  }

  /** The unbounded count of the source: rows with sentAt >= since. */
  function CountSince(log: seq<LogRow>, userId: string, kind: Kind, since: int): nat {
    if log == [] then 0
    else
      var row := log[|log| - 1];
      CountSince(log[..|log| - 1], userId, kind, since)
      + if row.userId == userId && kind.Covers(row.category) && since <= row.sentAt then 1 else 0
  }

  predicate Delivered(log: seq<LogRow>, userId: string, category: string, entityId: string) {
    exists i | 0 <= i < |log| :: log[i].userId == userId && log[i].category == category && log[i].entityId == entityId
  }

  /** Distinct non-empty ids, first occurrence first. */
  function UniqueUsers(userIds: seq<string>): (unique: seq<string>)
    ensures forall i, j | 0 <= i < j < |unique| :: unique[i] != unique[j]
    ensures forall id :: id in unique <==> id in userIds && id != ""
  {
    if userIds == [] then []
    else
      var last := userIds[|userIds| - 1];
      var front := UniqueUsers(userIds[..|userIds| - 1]);
      assert userIds == userIds[..|userIds| - 1] + [last];
      if last == "" || last in front then front else front + [last]
  }

  function FilterUsers(userIds: seq<string>, keep: string -> bool): (kept: seq<string>)
    ensures forall id :: id in kept <==> id in userIds && keep(id)
    ensures (forall i, j | 0 <= i < j < |userIds| :: userIds[i] != userIds[j])
        ==> forall i, j | 0 <= i < j < |kept| :: kept[i] != kept[j]
  {
    if userIds == [] then []
    else
      var last := userIds[|userIds| - 1];
      assert userIds == userIds[..|userIds| - 1] + [last];
      FilterUsers(userIds[..|userIds| - 1], keep) + if keep(last) then [last] else []
  }

  function FilterRateLimitedUsers(log: seq<LogRow>, userIds: seq<string>, category: string, now: int): seq<string> {
    var eligible := FilterUsers(userIds,
      id => CountSince(log, id, AnyCategory, now - GLOBAL_PUSH_WINDOW_MS) < GLOBAL_PUSH_MAX_PER_WINDOW);
    if category !in PUSH_MARKETING_CATEGORIES || eligible == [] then eligible
    else
      FilterUsers(eligible,
        id => CountSince(log, id, Marketing, now - MARKETING_PUSH_WINDOW_MS) < MARKETING_PUSH_MAX_PER_WINDOW)
  }

  function FilterUsersForPush(log: seq<LogRow>, userIds: seq<string>, payload: Payload, now: int): seq<string> {
    var entityId := NormalizeEntityId(payload.rawEntityId);
    var deduped := FilterUsers(UniqueUsers(userIds), id => !Delivered(log, id, payload.category, entityId));
    if deduped == [] then []
    else if payload.category in PUSH_RATE_EXEMPT_CATEGORIES then deduped
    else FilterRateLimitedUsers(log, deduped, payload.category, now)
  }

  /** Insert rows in order, each skipped when its (user, category, entityId) is already logged. */
  function InsertIgnoring(log: seq<LogRow>, userIds: seq<string>, category: string, entityId: string, sentAt: int)
    : seq<LogRow>
  {
    if userIds == [] then log
    else
      var before := InsertIgnoring(log, userIds[..|userIds| - 1], category, entityId, sentAt);
      var user := userIds[|userIds| - 1];
      if Delivered(before, user, category, entityId) then before
      else before + [LogRow(user, category, entityId, sentAt)]
  }

  // ---- What the log keeps ----

  /** One row ever per (user, category, entityId). */
  ghost predicate NoDuplicates(log: seq<LogRow>) {
    forall i, j | 0 <= i < j < |log| ::
      !(log[i].userId == log[j].userId && log[i].category == log[j].category && log[i].entityId == log[j].entityId)
  }

  ghost predicate WithinCap(log: seq<LogRow>, user: string, kind: Kind, from: int, window: int, cap: nat) {
    Count(log, user, kind, from, from + window) <= cap
  }

  ghost predicate LoggedBy(log: seq<LogRow>, time: int) {
    forall i | 0 <= i < |log| :: log[i].sentAt <= time
  }

  /** A bounded count never exceeds a count from an earlier time on over more categories. */
  lemma {:induction false} CountBelowSince(log: seq<LogRow>, user: string, kind: Kind, wider: Kind,
                                           from: int, to: int, since: int)
    requires since <= from && (wider == kind || wider == AnyCategory)
    ensures Count(log, user, kind, from, to) <= CountSince(log, user, wider, since)
  {
    if log != [] {
      CountBelowSince(log[..|log| - 1], user, kind, wider, from, to, since);
    }
  }

  lemma {:induction false} CountAppend(log: seq<LogRow>, row: LogRow, user: string, kind: Kind, from: int, to: int)
    ensures Count(log + [row], user, kind, from, to)
         == Count(log, user, kind, from, to)
            + if row.userId == user && kind.Covers(row.category) && from <= row.sentAt <= to then 1 else 0
  {
    assert (log + [row])[..|log|] == log;
  }

  /** Inserting for several users adds at most one row for each of them, and none for others. */
  lemma {:induction false} InsertCounts(log: seq<LogRow>, userIds: seq<string>, category: string, entityId: string,
                                        sentAt: int, user: string, kind: Kind, from: int, to: int)
    ensures var after := InsertIgnoring(log, userIds, category, entityId, sentAt);
      Count(after, user, kind, from, to)
      <= Count(log, user, kind, from, to)
         + if user in userIds && kind.Covers(category) && from <= sentAt <= to then 1 else 0
    ensures user in userIds ==>
      Delivered(InsertIgnoring(log, userIds, category, entityId, sentAt), user, category, entityId)
  {
    if userIds != [] {
      var front, last := userIds[..|userIds| - 1], userIds[|userIds| - 1];
      assert userIds == front + [last];
      InsertCounts(log, front, category, entityId, sentAt, user, kind, from, to);
      var before := InsertIgnoring(log, front, category, entityId, sentAt);
      var row := LogRow(last, category, entityId, sentAt);
      if !Delivered(before, last, category, entityId) {
        CountAppend(before, row, user, kind, from, to);
        var after := before + [row];
        assert after[|after| - 1] == row;
        if Delivered(before, user, category, entityId) {
          var i :| 0 <= i < |before| && before[i].userId == user && before[i].category == category
            && before[i].entityId == entityId;
          assert after[i] == before[i];
        }
      }
    }
  }

  /** Whoever passes the filter of a rate-limited push has room left. */
  lemma EligibleHaveRoom(log: seq<LogRow>, userIds: seq<string>, payload: Payload, now: int, user: string)
    requires user in FilterUsersForPush(log, userIds, payload, now)
    ensures payload.category !in PUSH_RATE_EXEMPT_CATEGORIES ==>
      CountSince(log, user, AnyCategory, now - GLOBAL_PUSH_WINDOW_MS) < GLOBAL_PUSH_MAX_PER_WINDOW
    ensures payload.category in PUSH_MARKETING_CATEGORIES ==>
      CountSince(log, user, Marketing, now - MARKETING_PUSH_WINDOW_MS) < MARKETING_PUSH_MAX_PER_WINDOW
  {
  }

  /** The log table behind the service. */
  class PushDeliveryGuardService {
    var log: seq<LogRow>

    constructor ()
      ensures log == []
    {
      log := [];
    }

    method FilterForPush(userIds: seq<string>, payload: Payload, now: int) returns (eligible: seq<string>)
      ensures eligible == FilterUsersForPush(log, userIds, payload, now)
    {
      return FilterUsersForPush(log, userIds, payload, now);
    }

    method ReserveDeliveries(userIds: seq<string>, payload: Payload, sentAt: int)
      returns (reservedUserIds: seq<string>, skippedDuplicates: int)
      modifies this
      ensures log == InsertIgnoring(old(log), UniqueUsers(userIds), payload.category,
                                    NormalizeEntityId(payload.rawEntityId), sentAt)
      ensures |reservedUserIds| + skippedDuplicates == |UniqueUsers(userIds)|
      ensures |log| == |old(log)| + |reservedUserIds|
      ensures forall k | 0 <= k < |reservedUserIds| :: log[|old(log)| + k].userId == reservedUserIds[k]
    {
      var unique := UniqueUsers(userIds);
      var entityId := NormalizeEntityId(payload.rawEntityId);
      reservedUserIds := [];
      var i := 0;
      while i < |unique|
        invariant 0 <= i <= |unique|
        invariant log == InsertIgnoring(old(log), unique[..i], payload.category, entityId, sentAt)
        invariant |log| == |old(log)| + |reservedUserIds| && |reservedUserIds| <= i
        invariant forall k | 0 <= k < |reservedUserIds| :: log[|old(log)| + k].userId == reservedUserIds[k]
      {
        assert unique[..i + 1][..i] == unique[..i];
        if !Delivered(log, unique[i], payload.category, entityId) {
          log := log + [LogRow(unique[i], payload.category, entityId, sentAt)];
          reservedUserIds := reservedUserIds + [unique[i]];
        }
        i := i + 1;
      }
      assert unique[..i] == unique;
      skippedDuplicates := |unique| - |reservedUserIds|;
    }

    method RecordSuccessfulPush(userId: string, payload: Payload, sentAt: int)
      modifies this
      ensures log
        == InsertIgnoring(old(log), [userId], payload.category, NormalizeEntityId(payload.rawEntityId), sentAt)
    {
      var entityId := NormalizeEntityId(payload.rawEntityId);
      if !Delivered(log, userId, payload.category, entityId) {
        log := log + [LogRow(userId, payload.category, entityId, sentAt)];
      }
    }
  }

  /** Distinct non-empty users are what a reservation would keep of them. */
  lemma {:induction false} UniqueOfUnique(userIds: seq<string>)
    requires forall i, j | 0 <= i < j < |userIds| :: userIds[i] != userIds[j]
    requires "" !in userIds
    ensures UniqueUsers(userIds) == userIds
  {
    if userIds != [] {
      UniqueOfUnique(userIds[..|userIds| - 1]);
    }
  }
}
