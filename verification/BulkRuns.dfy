/** Bulk requests within runs: every chunk is a transaction of its own, and anything may happen before it. */
module BulkRuns {
  import opened Common
  import opened Games
  import opened Registering
  import opened Rounds
  import opened Platform
  import opened Invariants
  import opened Runs
  import opened Bulk
  import opened GamesServices

  /** A chunk of a request, and what else happened since the chunk before it. */
  datatype Turn = Turn(meanwhile: seq<Event>, chunk: seq<nat>)

  /** How far a request has come: all that has happened, what it will report, whether it has found the
      registration closed, and whether it has been thrown out. */
  datatype Standing = Standing(events: seq<Event>, report: Report, closed: bool, thrown: bool)

  function Merge(a: Report, b: Report): Report {
    Report(a.walletFailed || b.walletFailed, a.successes + b.successes, a.failures + b.failures)
  }

  /** What one chunk does. A closed registration fails this chunk and, unread, all later ones; a registration
      that is not open yet throws, and leaves what earlier chunks have committed. */
  ghost function TakeTurn(start: State, before: Standing, sid: nat, user: nat, turn: Turn): Standing {
    var events := before.events + turn.meanwhile;
    var st := After(start, events);
    var failed := before.report.(failures := before.report.failures + turn.chunk);
    if before.thrown || !References(st) || sid >= |st.sessions| || user >= |st.books.wallets|
    then before.(events := events, thrown := true)
    else if before.closed then before.(events := events, report := failed)
    else
      match RegistrationRefusal(st, sid)
      case Some(reason) =>
        if IsClosedReason(reason) then Standing(events, failed, true, false)
        else before.(events := events, thrown := true)
      case None =>
        Standing(events + [RegisterChunk(sid, user, turn.chunk)],
                 Merge(before.report, Reported(st, sid, user, turn.chunk)), false, false)
  }

  ghost function Request(start: State, events: seq<Event>, sid: nat, user: nat, turns: seq<Turn>): Standing {
    if turns == [] then Standing(events, Report(false, [], []), false, false)
    else TakeTurn(start, Request(start, events, sid, user, turns[..|turns| - 1]), sid, user, turns[|turns| - 1])
  }

  function Chunks(turns: seq<Turn>): (chunks: seq<seq<nat>>)
    ensures |chunks| == |turns| && forall i | 0 <= i < |turns| :: chunks[i] == turns[i].chunk
  {
    seq(|turns|, i requires 0 <= i < |turns| => turns[i].chunk)
  }

  /** What a user owns in a session stays the user's. */
  lemma {:induction false} OwnedStays(registrations: seq<Registration>, later: seq<Registration>, user: nat, c: nat)
    requires |registrations| <= |later| && forall r | 0 <= r < |registrations| :: SameOwner(registrations[r], later[r])
    requires Owns(registrations, user, c)
    ensures Owns(later, user, c)
  {
    if |later| == |registrations| {
      if |registrations| > 0 {
        SameFound(registrations, later, c);
      }
    } else {
      OwnedStays(registrations, later[..|later| - 1], user, c);
    }
  }

  lemma {:induction false} SameFound(registrations: seq<Registration>, later: seq<Registration>, c: nat)
    requires |registrations| == |later| && forall r | 0 <= r < |registrations| :: SameOwner(registrations[r], later[r])
    ensures FindRegistration(later, c) == FindRegistration(registrations, c)
  {
    if registrations != [] {
      SameFound(registrations[..|registrations| - 1], later[..|later| - 1], c);
    }
  }

  lemma {:induction false} OwnedInLaterStates(start: State, events: seq<Event>, more: seq<Event>, sid: nat, user: nat,
                                              c: nat)
    requires Initial(start) && sid < |After(start, events).sessions|
    requires Owns(After(start, events).sessions[sid].registrations, user, c)
    ensures sid < |After(start, events + more).sessions|
    ensures Owns(After(start, events + more).sessions[sid].registrations, user, c)
  {
    RegistrationsStay(start, events, more, sid);
    OwnedStays(After(start, events).sessions[sid].registrations,
               After(start, events + more).sessions[sid].registrations, user, c);
  }

  ghost predicate OwnsAll(st: State, sid: nat, user: nat, ids: seq<nat>) {
    sid < |st.sessions| && forall c | c in ids :: Owns(st.sessions[sid].registrations, user, c)
  }

  lemma {:induction false} ChunkOwns(st: State, sid: nat, user: nat, chunk: seq<nat>)
    requires References(st) && sid < |st.sessions| && user < |st.books.wallets|
    ensures OwnsAll(RegisterAll(st, sid, user, chunk, false), sid, user, Reported(st, sid, user, chunk).successes)
  {
    forall c: nat | c in Reported(st, sid, user, chunk).successes
      ensures Owns(RegisterAll(st, sid, user, chunk, false).sessions[sid].registrations, user, c)
    {
      ReportsAreTrue(st, sid, user, chunk, c);
    }
  }

  lemma {:induction false} ChunkHappens(start: State, events: seq<Event>, sid: nat, user: nat, chunk: seq<nat>)
    requires var st := After(start, events); References(st) && sid < |st.sessions| && user < |st.books.wallets|
    ensures After(start, events + [RegisterChunk(sid, user, chunk)])
      == RegisterAll(After(start, events), sid, user, chunk, false)
  {
    OneMoreEvent(start, events, RegisterChunk(sid, user, chunk));
  }

  lemma {:induction false} AllOwnedLater(start: State, events: seq<Event>, more: seq<Event>, sid: nat, user: nat,
                                         ids: seq<nat>)
    requires Initial(start) && OwnsAll(After(start, events), sid, user, ids)
    ensures OwnsAll(After(start, events + more), sid, user, ids)
  {
    RegistrationsStay(start, events, more, sid);
    forall c: nat | c in ids
      ensures Owns(After(start, events + more).sessions[sid].registrations, user, c)
    {
      OwnedInLaterStates(start, events, more, sid, user, c);
    }
  }

  /** What a bulk request reports as registered is the user's when it answers, whatever happened between its
      chunks, and even when it is thrown out half way; unless thrown out it reports every item exactly once. */
  lemma {:induction false} InterleavedRequest(start: State, events: seq<Event>, sid: nat, user: nat, turns: seq<Turn>)
    requires Initial(start) && sid < |After(start, events).sessions|
    ensures var answer := Request(start, events, sid, user, turns);
      && events <= answer.events
      && OwnsAll(After(start, answer.events), sid, user, answer.report.successes)
      && (!answer.thrown ==> ReportsAll(answer.report, Flatten(Chunks(turns))))
  {
    if turns != [] {
      var front, turn := turns[..|turns| - 1], turns[|turns| - 1];
      InterleavedRequest(start, events, sid, user, front);
      var before := Request(start, events, sid, user, front);
      AllOwnedLater(start, before.events, turn.meanwhile, sid, user, before.report.successes);
      TurnKeeps(start, before, sid, user, turn);
      assert Chunks(turns)[..|turns| - 1] == Chunks(front);
    }
  }

  lemma {:induction false} TurnKeeps(start: State, before: Standing, sid: nat, user: nat, turn: Turn)
    requires Initial(start) && OwnsAll(After(start, before.events + turn.meanwhile), sid, user, before.report.successes)
    ensures var answer := TakeTurn(start, before, sid, user, turn);
      && before.events <= answer.events
      && OwnsAll(After(start, answer.events), sid, user, answer.report.successes)
      && (before.thrown ==> answer.thrown)
      && forall items: seq<nat> | ReportsAll(before.report, items) && !answer.thrown ::
        ReportsAll(answer.report, items + turn.chunk)
  {
    var events := before.events + turn.meanwhile;
    var st := After(start, events);
    var answer := TakeTurn(start, before, sid, user, turn);
    if answer.events != events {
      var c := RegisterChunk(sid, user, turn.chunk);
      EachItemReportedOnce(st, sid, user, turn.chunk);
      ChunkOwns(st, sid, user, turn.chunk);
      ChunkHappens(start, events, sid, user, turn.chunk);
      AllOwnedLater(start, events, [c], sid, user, before.report.successes);
    }
  }
}
