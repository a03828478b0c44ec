/** Claims and payouts as transactions on the database. */
module BingoClaimsServices {
  import opened Common
  import opened Games
  import opened Wallets
  import opened PrizeSplit
  import opened GameQueue
  import opened Registering
  import opened WinningBalls
  import opened Rounds
  import opened Platform
  import opened Databases
  import opened PostGameRegistrationOpeners

  class BingoClaimsService {
    const db: Database
    const opener: PostGameRegistrationOpenerService

    constructor (db: Database)
      ensures this.db == db && opener.db == db
    {
      this.db := db;
      opener := new PostGameRegistrationOpenerService(db);
    }

    /** Mark a cartela WINNER by compare-and-set on REGISTERED. */
    method MarkCartela(sid: nat, r: nat) returns (marked: bool)
      requires sid < |db.sessions| && r < |db.sessions[sid].registrations|
      modifies db`sessions
      ensures marked
        == (old(db.sessions)[sid].registrations[r].status == REGISTERED
            && !old(db.sessions)[sid].registrations[r].isWinner)
      ensures db.sessions
        == if marked then old(db.sessions)[sid := MarkWinner(old(db.sessions)[sid], r)] else old(db.sessions)
    {
      var session := db.sessions[sid];
      var row := session.registrations[r];
      marked := row.status == REGISTERED && !row.isWinner;
      if marked {
        var rows := session.registrations[r := row.(status := WINNER, isWinner := true)];
        db.UpdateSession(sid, session.(registrations := rows));
      }
    }

    method CreateClaim(sid: nat, claim: Claim)
      requires sid < |db.sessions|
      modifies db`sessions
      ensures var session := old(db.sessions)[sid];
        db.sessions == old(db.sessions)[sid := session.(claims := session.claims + [claim])]
    {
      db.UpdateSession(sid, db.sessions[sid].(claims := db.sessions[sid].claims + [claim]));
    }

    /** `createAutoValidOpenOrJoinWindowClaim` and, for a session already in its window, the join alone. */
    method OpenOrJoinWindow(sid: nat, r: nat, windowMs: int, graceMs: int) returns (won: bool)
      requires sid < |db.sessions| && r < |db.sessions[sid].registrations|
      requires db.sessions[sid].status == PLAYING || db.sessions[sid].status == WINNER_WINDOW
      modifies db
      ensures var result := if old(db.sessions[sid]).status == PLAYING
                            then OpenWindow(old(db.sessions[sid]), r, old(db.now), windowMs)
                            else JoinWindow(old(db.sessions[sid]), r, old(db.now), graceMs);
        won == result.Some? && db.View() == TrySession(old(db.View()), sid, result)
    {
      var start := db.View();
      var session := db.sessions[sid];
      if session.status == PLAYING {
        db.UpdateSession(sid, session.(status := WINNER_WINDOW, winnerWindowEndsAt := Some(db.now + windowMs),
                                       noWinnerGraceEndsAt := None));
      } else if session.winnerWindowEndsAt.None? || db.now > session.winnerWindowEndsAt.value + graceMs {
        return false;
      }
      var marked := MarkCartela(sid, r);
      if !marked {
        db.Rollback(start);
        return false;
      }
      CreateClaim(sid, Claim(r, VALID, db.now, Some(db.now), SnapshotBall(session.calls)));
      return true;
    }

    method ClaimBingo(sid: nat, user: nat, r: nat, verdict: Verdict, windowMs: int, graceMs: int)
      returns (accepted: bool)
      requires References(db.View()) && sid < |db.sessions|
      modifies db
      ensures var st := old(db.View());
        var result :=
          Rounds.ClaimBingo(st.sessions[sid], st.slots[st.sessions[sid].slotId].manualRule, user, r, verdict,
                                        st.now, windowMs, graceMs);
        accepted == result.Some? && db.View() == TrySession(st, sid, result)
    {
      var session := db.sessions[sid];
      if r >= |session.registrations| || session.registrations[r].userId != user {
        return false;
      }
      var row := session.registrations[r];
      if Resolved(row) {
        var statuses := if row.status == BLOCKED then {VALID, INVALID} else {VALID};
        if !HasClaim(session.claims, r, statuses) {
          CreateClaim(sid, Claim(r, INVALID, db.now, Some(db.now), None));
        }
        return true;
      }
      if db.slots[session.slotId].manualRule {
        if row.status != REGISTERED || session.status != PLAYING || HasClaim(session.claims, r, {PENDING}) {
          return false;
        }
        db.UpdateSession(sid, session.(status := CHECKING));
        CreateClaim(sid, Claim(r, PENDING, db.now, None, None));
        return true;
      }
      if row.status != REGISTERED || (session.status != PLAYING && session.status != WINNER_WINDOW) {
        return false;
      }
      if !verdict.WINNING? {
        db.UpdateSession(sid, session.(registrations := session.registrations[r := row.(status := BLOCKED)]));
        CreateClaim(sid, Claim(r, INVALID, db.now, Some(db.now), SnapshotBall(session.calls)));
        return true;
      }
      accepted := OpenOrJoinWindow(sid, r, windowMs, graceMs);
    }

    /** The payout loop; the first credit that fails stops it. */
    method PayShares(sid: nat, session: Session, winners: seq<nat>) returns (error: Option<WalletError>)
      requires winners == Winners(session) && winners != []
      modifies db`books
      ensures match PayWinners(old(db.books), sid, session, |winners|)
              case Failure(e) => error == Some(e)
              case Success(books) => error.None? && db.books == books
    {
      var split := SplitPrizeAmount(session.prizeAmount, |winners|);
      var shares := split.value;
      ghost var books := db.books;
      for index := 0 to |winners|
        invariant PayWinners(books, sid, session, index) == Success(db.books)
      {
        var user := session.registrations[winners[index]].userId;
        assert shares[index] == Share(session.prizeAmount, |winners|, index);
        NextShare(books, sid, session, index, db.books);
        error := db.CreditWallet(user, shares[index], PrizeWin(user, sid, winners[index]));
        if error.Some? {
          FirstFailureStays(books, sid, session, index + 1, |winners|);
          return;
        }
      }
      error := None;
    }

    static lemma {:induction false} NextShare(books: Books, sid: nat, session: Session, index: nat, paid: Books)
      requires index < |Winners(session)| && PayWinners(books, sid, session, index) == Success(paid)
      ensures PayWinners(books, sid, session, index + 1)
        == var r := Winners(session)[index];
           Wallets.CreditWallet(paid, session.registrations[r].userId,
                                Share(session.prizeAmount, |Winners(session)|, index),
                                PrizeWin(session.registrations[r].userId, sid, r))
    {
    }

    static lemma {:induction false} FirstFailureStays(books: Books, sid: nat, session: Session, failed: nat, count: nat)
      requires failed <= count <= |Winners(session)| && PayWinners(books, sid, session, failed).Failure?
      ensures PayWinners(books, sid, session, count) == PayWinners(books, sid, session, failed)
    {
      if failed < count {
        FirstFailureStays(books, sid, session, failed, count - 1);
      }
    }

    /** `clock` is sampled before the transaction; `durationMs` is none when the opener cannot run. */
    method FinalizeWinnerWindow(sid: nat, graceMs: int, clock: int, durationMs: Option<int>)
      returns (error: Option<FinalizeError>)
      requires References(db.View()) && sid < |db.sessions| && opener.db == db
      modifies db
      ensures match Rounds.FinalizeWinnerWindow(old(db.View()), sid, graceMs, clock)
              case Failure(e) => error == Some(e) && db.View() == old(db.View())
              case Success(ended) =>
                error.None? && db.View() == ThenOpen(old(db.View()), Some(ended), false, durationMs)
    {
      error := PayAndFinish(sid, graceMs, clock);
      if error.None? {
        opener.OpenAfterEnd(false, durationMs);
      }
    }

    /** Pay every winner and finish; a thrown error puts everything back. */
    method PayAndFinish(sid: nat, graceMs: int, clock: int) returns (error: Option<FinalizeError>)
      requires References(db.View()) && sid < |db.sessions|
      modifies db
      ensures match Rounds.FinalizeWinnerWindow(old(db.View()), sid, graceMs, clock)
              case Failure(e) => error == Some(e) && db.View() == old(db.View())
              case Success(ended) => error.None? && db.View() == ended
    {
      var start := db.View();
      var session := db.sessions[sid];
      if !(session.status == WINNER_WINDOW && session.prizeFinalizedAt.None?
           && session.winnerWindowEndsAt.Some? && session.winnerWindowEndsAt.value <= clock - graceMs) {
        return Some(NotDue);
      }
      db.UpdateSession(sid, session.(prizeFinalizedAt := Some(db.now)));
      var winners := Winners(session);
      if |winners| == 0 {
        db.Rollback(start);
        return Some(WithoutWinners);
      }
      var failed := PayShares(sid, session, winners);
      if failed.Some? {
        db.Rollback(start);
        return Some(CreditFailed(failed.value));
      }
      if session.winnerRegistration.Some? {
        db.Rollback(start);
        return Some(AlreadyFinalized);
      }
      db.UpdateSession(sid,
                       db.sessions[sid].(status := FINISHED, winnerRegistration := Some(winners[0]),
                                         noWinnerGraceEndsAt := None));
      db.slots := RestoreSlotAfterSession(db.slots, session.slotId);
      return None;
    }

    method FinalizeWinnerWindowEarly(sid: nat, graceMs: int, clock: int, durationMs: Option<int>)
      returns (error: Option<FinalizeError>)
      requires References(db.View()) && sid < |db.sessions| && opener.db == db
      modifies db
      ensures var closed := WithSession(old(db.View()), sid, CloseWindowEarly(old(db.sessions[sid]), old(db.now)));
        if old(db.sessions[sid].status) == WINNER_WINDOW && old(db.sessions[sid].prizeFinalizedAt).None? then
          match Rounds.FinalizeWinnerWindow(closed, sid, graceMs, clock)
          case Failure(e) => error == Some(e) && db.View() == closed
          case Success(ended) => error.None? && db.View() == ThenOpen(closed, Some(ended), false, durationMs)
        else error == Some(NotDue) && db.View() == old(db.View())
    {
      var session := db.sessions[sid];
      if session.status == WINNER_WINDOW && session.prizeFinalizedAt.None? {
        db.UpdateSession(sid, session.(winnerWindowEndsAt := Some(db.now)));
        error := FinalizeWinnerWindow(sid, graceMs, clock, durationMs);
      } else {
        error := Some(NotDue);
      }
    }

    /** `approveClaim` with `finishGameWithWinner`, and the opener after it, inside its transaction. */
    method ApproveClaim(sid: nat, c: nat, checkedAt: int, durationMs: Option<int>) returns (approved: bool)
      requires References(db.View()) && sid < |db.sessions| && opener.db == db
      modifies db
      ensures approved == Rounds.ApproveClaim(old(db.View()), sid, c, checkedAt).Some?
      ensures db.View()
        == ThenOpen(old(db.View()), Rounds.ApproveClaim(old(db.View()), sid, c, checkedAt), false, durationMs)
    {
      approved := FinishWithWinner(sid, c, checkedAt);
      if approved {
        opener.OpenAfterEnd(false, durationMs);
      }
    }

    method FinishWithWinner(sid: nat, c: nat, checkedAt: int) returns (finished: bool)
      requires References(db.View()) && sid < |db.sessions|
      modifies db
      ensures finished == Rounds.ApproveClaim(old(db.View()), sid, c, checkedAt).Some?
      ensures db.View() == Try(old(db.View()), Rounds.ApproveClaim(old(db.View()), sid, c, checkedAt))
    {
      var start := db.View();
      var session := db.sessions[sid];
      if c >= |session.claims| || session.claims[c].status != PENDING
         || session.status == FINISHED || session.status == NO_WINNER || !db.slots[session.slotId].manualRule {
        return false;
      }
      var r := session.claims[c].registration;
      if r >= |session.registrations| {
        return false;
      }
      var marked := MarkCartela(sid, r);
      if !marked {
        return false;
      }
      if !IsLive(session.status) || session.winnerRegistration.Some? {
        db.Rollback(start);
        return false;
      }
      db.UpdateSession(sid,
                       db.sessions[sid].(status := FINISHED, winnerRegistration := Some(r),
                                         noWinnerGraceEndsAt := None));
      db.slots := RestoreSlotAfterSession(db.slots, session.slotId);
      var user := session.registrations[r].userId;
      var error := db.CreditWallet(user, session.prizeAmount, PrizeWin(user, sid, r));
      if error.Some? {
        db.Rollback(start);
        return false;
      }
      var claim := session.claims[c].(status := VALID, checkedAt := Some(checkedAt));
      db.UpdateSession(sid, db.sessions[sid].(claims := session.claims[c := claim]));
      return true;
    }

    method RejectClaim(sid: nat, c: nat) returns (rejected: bool)
      requires References(db.View()) && sid < |db.sessions|
      modifies db
      ensures var st := old(db.View());
        var result := Rounds.RejectClaim(st.sessions[sid], st.slots[st.sessions[sid].slotId].manualRule, c, st.now);
        rejected == result.Some? && db.View() == TrySession(st, sid, result)
      ensures rejected ==>
        && c < |db.sessions[sid].claims| && db.sessions[sid].claims[c].status == INVALID
        && db.sessions[sid].claims[c].registration < |db.sessions[sid].registrations|
        && db.sessions[sid].registrations[db.sessions[sid].claims[c].registration].status == BLOCKED
        && forall i | 0 <= i < |db.sessions[sid].claims| && i != c ::
          db.sessions[sid].claims[i] == old(db.sessions[sid]).claims[i]
    {
      var session := db.sessions[sid];
      if c >= |session.claims| || session.claims[c].status != PENDING || !db.slots[session.slotId].manualRule {
        return false;
      }
      var r := session.claims[c].registration;
      if r >= |session.registrations| || session.registrations[r].status != REGISTERED {
        return false;
      }
      var rows := session.registrations[r := session.registrations[r].(status := BLOCKED)];
      db.UpdateSession(sid, session.(registrations := rows));
      var claim :=
        session.claims[c].(status := INVALID, checkedAt := Some(db.now), winningBall := SnapshotBall(session.calls));
      db.UpdateSession(sid, db.sessions[sid].(claims := session.claims[c := claim]));
      db.UpdateSession(sid, db.sessions[sid].(status := PLAYING));
      return true;
    }
  }
}
