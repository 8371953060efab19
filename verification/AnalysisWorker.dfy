/** The analysis worker's persistence branches as the code runs them: each ends in at most one fenced
    write, the one the protocol's worker decides on, and acknowledges its message. */
module AnalysisWorker {
  import opened Basics
  import opened AnalysisRows
  import opened AnalysisTiming
  import opened AnalysisProtocol
  import opened AnalysisFacts
  import AnalysisRepository

  datatype JobOutcome =
    | DeferredByBudget
    | NotEligible
    | AlreadyProcessed
    | NotClaimableNow
    | CompletedNow
    | SkippedNow
    | FailedTerminal
    | FailedRetriable
    | Stale

  class Worker {
    const repo: AnalysisRepository.CallAnalysisRepository
    var acked: set<nat>

    constructor (repo: AnalysisRepository.CallAnalysisRepository)
      ensures this.repo == repo && acked == {}
    {
      this.repo := repo;
      acked := {};
    }

    method Ack(message: nat)
      modifies this
      ensures acked == old(acked) + {message}
    {
      acked := acked + {message};
    }

    /** A delivery whose claim did not succeed. It is acknowledged whatever it meets. FAILED_TERMINAL is
        answered for every exhausted row; the row itself becomes terminal exactly when no live lease
        protects it and no other transaction has it locked. */
    method HandleUnclaimed(message: nat, id: nat, deferred: bool, now: real, locked: bool) returns (outcome: JobOutcome)
      modifies this, repo
      ensures acked == old(acked) + {message}
      ensures outcome.DeferredByBudget? <==> deferred
      ensures outcome.NotEligible? <==> !deferred && id !in old(repo.rows)
      ensures outcome.AlreadyProcessed? <==>
        !deferred && id in old(repo.rows) && old(repo.rows)[id].status in {Completed, Status.Failed, Skipped}
      ensures outcome.FailedTerminal? <==>
        (!deferred && id in old(repo.rows) && old(repo.rows)[id].status !in {Completed, Status.Failed, Skipped}
         && old(repo.rows)[id].attempts >= repo.st.maxAttempts)
      ensures !outcome.FailedTerminal? ==> repo.Contents() == old(repo.Contents())
      ensures outcome.FailedTerminal? ==>
        && SameExcept(old(repo.rows), repo.rows, id) && repo.ledger == old(repo.ledger)
        && (if Exhausted(repo.st, old(repo.rows)[id], now) && !locked
            then LetGo(old(repo.rows)[id], repo.rows[id], Status.Failed, old(repo.rows)[id].attempts, None)
                 && repo.rows[id].reserved == old(repo.rows)[id].reserved
            else repo.rows[id] == old(repo.rows)[id])
    {
      Ack(message);
      if deferred {
        return DeferredByBudget;
      }
      if id !in repo.rows {
        return NotEligible;
      }
      var row := repo.rows[id];
      if row.status.Completed? || row.status.Failed? || row.status.Skipped? {
        return AlreadyProcessed;
      }
      if row.attempts >= repo.st.maxAttempts {
        ghost var chosen;
        var count;
        count, chosen := repo.FinalizeExhausted(now, Some(id), 100, if locked then {id} else {});
        assert count < 100 by { AtMostOne(chosen, id); }
        return FailedTerminal;
      }
      outcome := NotClaimableNow;
    }

    method PersistSuccess(message: nat, id: nat, token: nat) returns (outcome: JobOutcome)
      modifies this, repo
      ensures acked == old(acked) + {message}
      ensures repo.Contents() == FencedTxn(old(repo.Contents()), id, token, Complete)
      ensures outcome == if HeldUnder(old(repo.rows), id, token) then CompletedNow else Stale
      ensures outcome == CompletedNow ==>
        && SameExcept(old(repo.rows), repo.rows, id) && repo.ledger == old(repo.ledger)
        && LetGo(old(repo.rows)[id], repo.rows[id], Completed, old(repo.rows)[id].attempts, None)
        && repo.rows[id].reserved == old(repo.rows)[id].reserved
      ensures outcome == Stale ==> repo.rows == old(repo.rows) && repo.ledger == old(repo.ledger)
    {
      var applied := repo.Complete(id, token);
      Ack(message);
      outcome := if applied then CompletedNow else Stale;
    }

    method PersistSkip(message: nat, id: nat, token: nat) returns (outcome: JobOutcome)
      requires id in repo.rows
      modifies this, repo
      ensures acked == old(acked) + {message}
      ensures repo.Contents() ==
        FencedTxn(old(repo.Contents()), id, token, Skip(true, old(repo.rows)[id].budgetDay, old(repo.rows)[id].reserved))
      ensures outcome == if HeldUnder(old(repo.rows), id, token) then SkippedNow else Stale
      ensures outcome == SkippedNow ==>
        && SameExcept(old(repo.rows), repo.rows, id) && repo.ledger == GivenBack(old(repo.ledger), old(repo.rows)[id])
        && LetGo(old(repo.rows)[id], repo.rows[id], Skipped, old(repo.rows)[id].attempts, None)
        && repo.rows[id].reserved == (if old(repo.rows)[id].reserved.Some? then Some(0) else None)
      ensures outcome == Stale ==> repo.rows == old(repo.rows) && repo.ledger == old(repo.ledger)
    {
      var applied := repo.Skip(id, token, true);
      Ack(message);
      outcome := if applied then SkippedNow else Stale;
    }

    method PersistRetry(message: nat, id: nat, token: nat, nextAt: real, refund: bool) returns (outcome: JobOutcome)
      modifies this, repo
      ensures acked == old(acked) + {message}
      ensures repo.Contents() == FencedTxn(old(repo.Contents()), id, token, Retry(nextAt, refund))
      ensures outcome == if HeldUnder(old(repo.rows), id, token) then FailedRetriable else Stale
      ensures outcome == FailedRetriable ==>
        && SameExcept(old(repo.rows), repo.rows, id) && repo.ledger == old(repo.ledger)
        && LetGo(old(repo.rows)[id], repo.rows[id], RetryWait,
                 if refund then old(repo.rows)[id].attempts - 1 else old(repo.rows)[id].attempts, Some(nextAt))
        && repo.rows[id].reserved == old(repo.rows)[id].reserved
      ensures outcome == Stale ==> repo.rows == old(repo.rows) && repo.ledger == old(repo.ledger)
    {
      var applied := repo.ScheduleRetry(id, token, nextAt, refund);
      Ack(message);
      outcome := if applied then FailedRetriable else Stale;
    }

    /** The failure branches write what the protocol's worker decides, under the same fence; a stale
        worker changes nothing at all. */
    method PersistFailure(
      message: nat, id: nat, token: nat, attempts: int, createdAt: real,
      kind: FailureKind, retryAfter: Option<int>, now: real, jitter: real)
      returns (outcome: JobOutcome)
      requires id in repo.rows
      modifies this, repo
      ensures acked == old(acked) + {message}
      ensures repo.Contents() == FencedTxn(old(repo.Contents()), id, token,
        Decide(repo.st, old(repo.rows)[id], attempts, createdAt, now, Failure(kind, retryAfter, jitter)))
      ensures outcome.Stale? <==> !HeldUnder(old(repo.rows), id, token)
      ensures outcome.Stale? ==> repo.Contents() == old(repo.Contents())
      ensures !outcome.Stale? ==> SameExcept(old(repo.rows), repo.rows, id)
      ensures !outcome.Stale? ==>
        var r, q := old(repo.rows)[id], repo.rows[id];
        if NothingToAnalyse(repo.st, kind == QaUnavailable, kind == QaNotReady, createdAt, now) then
          && outcome == SkippedNow && LetGo(r, q, Skipped, r.attempts, None)
          && q.reserved == (if r.reserved.Some? then Some(0) else None)
          && repo.ledger == GivenBack(old(repo.ledger), r)
        else
          && q.reserved == r.reserved && repo.ledger == old(repo.ledger)
          && if kind == QaNotReady then
               // A poll: the attempt is given back.
               && outcome == FailedRetriable
               && LetGo(r, q, RetryWait, r.attempts - 1,
                        Some(now + PollDelay(now - createdAt, repo.st.base as real, repo.st.cap as real, jitter)))
             else if GivesUp(repo.st, kind == Permanent, attempts) then
               outcome == FailedTerminal && LetGo(r, q, Status.Failed, r.attempts, None)
             else
               && outcome == FailedRetriable
               && LetGo(r, q, RetryWait, r.attempts,
                        Some(now + BackoffDelay(attempts, repo.st.base as real, repo.st.cap as real, retryAfter, jitter)))
    {
      if kind.QaUnavailable? {
        outcome := PersistSkip(message, id, token);
        return;
      }
      if kind.QaNotReady? {
        var elapsed := now - createdAt;
        if elapsed >= repo.st.deadline as real {
          outcome := PersistSkip(message, id, token);
          return;
        }
        var delay := PollDelay(elapsed, repo.st.base as real, repo.st.cap as real, jitter);
        outcome := PersistRetry(message, id, token, now + delay, true);
        return;
      }
      if kind.Permanent? || attempts >= repo.st.maxAttempts {
        var applied := repo.Fail(id, token);
        Ack(message);
        return if applied then FailedTerminal else Stale;
      }
      var delay := BackoffDelay(attempts, repo.st.base as real, repo.st.cap as real, retryAfter, jitter);
      outcome := PersistRetry(message, id, token, now + delay, false);
    }
  }

  lemma AtMostOne(chosen: set<nat>, id: nat)
    requires forall j :: j in chosen ==> j == id
    ensures |chosen| <= 1
  {
    SubsetSize(chosen, {id});
  }
}
