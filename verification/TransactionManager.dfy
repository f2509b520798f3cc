/**
 TransactionManagerImpl.execute of pkg/transaction-manager/manager.go. A callback is a function
 from what the transaction sees to what it leaves, an error, or a panic; the connection, the
 statement begin, rollback and commit may all fail.
 */
module TransactionManager {
  import opened Wrappers

  datatype Callback<+S, +E> = Finish(state: S) | Fail(error: E) | Panic

  // A commit that reports an error may still have taken effect.
  datatype Commit = CommitOk | CommitError(applied: bool)

  datatype TxEnv = TxEnv(hasPool: bool, acquireOk: bool, beginOk: bool, rollbackOk: bool, commit: Commit)

  datatype TxResult<+E> =
    | Done
    | NoPool
    | AcquireFailed
    | BeginFailed
    | Failed(error: E, rollbackFailed: bool)
    | CommitFailed
    | Panicked

  // Why the callback is never called, if it is not.
  function Opening<E>(env: TxEnv): Option<TxResult<E>> {
    if !env.hasPool then Some(NoPool)
    else if !env.acquireOk then Some(AcquireFailed)
    else if !env.beginOk then Some(BeginFailed)
    else None
  }

  // The committed state and the answer, for a callback that ended in `c` from state `s`.
  function Executed<S, E>(env: TxEnv, s: S, c: Callback<S, E>): (S, TxResult<E>) {
    if Opening<E>(env).Some? then (s, Opening(env).value)
    else match c
      case Panic => (s, Panicked)
      case Fail(e) => (s, Failed(e, !env.rollbackOk))
      case Finish(s') =>
        match env.commit
        case CommitOk => (s', Done)
        case CommitError(applied) => (if applied then s' else s, CommitFailed)
  }

  // All or nothing, and nil is returned only for all; an error or a panic of the callback is
  // always nothing.
  lemma AllOrNothing<S, E>(env: TxEnv, s: S, c: Callback<S, E>)
    ensures var (s', r) := Executed(env, s, c);
            && (s' == s || (c.Finish? && s' == c.state))
            && (r.Done? ==> c.Finish? && s' == c.state)
            && (!c.Finish? ==> s' == s)
            && (s' != s ==> r.Done? || r.CommitFailed?)
  {
  }

  // Which answer each fault gets, the first in the order of the call deciding, and what is
  // committed: the callback's state exactly if it finished and its commit took effect.
  lemma OutcomeIff<S, E>(env: TxEnv, s: S, c: Callback<S, E>)
    ensures var (s', r) := Executed(env, s, c);
            var begun := env.hasPool && env.acquireOk && env.beginOk;
            && (r == NoPool <==> !env.hasPool)
            && (r == AcquireFailed <==> env.hasPool && !env.acquireOk)
            && (r == BeginFailed <==> env.hasPool && env.acquireOk && !env.beginOk)
            && (r == Panicked <==> begun && c == Panic)
            && (r.Failed? <==> begun && c.Fail?)
            && (r.Failed? ==> r.error == c.error && r.rollbackFailed == !env.rollbackOk)
            && (r.CommitFailed? <==> begun && c.Finish? && env.commit != CommitOk)
            && (r.Done? <==> begun && c.Finish? && env.commit == CommitOk)
            && s' == if begun && c.Finish? && env.commit != CommitError(false) then c.state else s
  {
  }

  class Database<S> {
    var committed: S
    // Connections in use, and the gauge of running transactions.
    var connections: int
    var active: int

    constructor (initial: S)
      ensures committed == initial && connections == 0 && active == 0
    {
      committed := initial;
      connections, active := 0, 0;
    }

    // The part of execute before the callback; None when the callback is to run.
    method Begin<E>(env: TxEnv) returns (r: Option<TxResult<E>>)
      modifies this
      ensures committed == old(committed)
      ensures r == Opening(env)
      ensures var n := if r.None? then 1 else 0;
              connections == old(connections) + n && active == old(active) + n
    {
      if !env.hasPool {
        return Some(NoPool);
      }
      if !env.acquireOk {
        return Some(AcquireFailed);
      }
      connections := connections + 1;
      if !env.beginOk {
        connections := connections - 1;
        return Some(BeginFailed);
      }
      active := active + 1;
      return None;
    }

    // The part after the callback, with its deferred calls.
    method End<E>(env: TxEnv, c: Callback<S, E>) returns (r: TxResult<E>)
      requires Opening<E>(env) == None
      modifies this
      ensures (committed, r) == Executed(env, old(committed), c)
      ensures connections == old(connections) - 1 && active == old(active) - 1
    {
      match c {
        case Panic => r := Panicked;
        case Fail(e) => r := Failed(e, !env.rollbackOk);
        case Finish(after) =>
          match env.commit {
            case CommitOk =>
              committed := after;
              r := Done;
            case CommitError(applied) =>
              if applied {
                committed := after;
              }
              r := CommitFailed;
          }
      }
      active := active - 1;
      connections := connections - 1;
    }

    // On every way out, the panic included, the connection is closed and the gauge is back.
    method Do<E>(env: TxEnv, fn: S -> Callback<S, E>) returns (r: TxResult<E>)
      modifies this
      ensures (committed, r) == Executed(env, old(committed), fn(old(committed)))
      ensures connections == old(connections) && active == old(active)
    {
      var opening: Option<TxResult<E>> := Begin(env);
      if opening.Some? {
        return opening.value;
      }
      r := End(env, fn(committed));
    }
  }
}
