/** One iteration of the outbox worker, internal/application/outbox/worker.go. */
module OutboxWorker {
  import opened Wrappers
  import opened TransactionManager
  import opened OutboxRepository

  const BATCH_SIZE: nat := 50

  function RetryBackoff(attempt: int): (d: int)
    ensures 0 < d <= LEASE
  {
    if attempt <= 1 then 5_000
    else if attempt == 2 then 15_000
    else if attempt == 3 then 30_000
    else if attempt <= 5 then 60_000
    else 300_000
  }

  // The answers an iteration gets: the query, each MarkProcessing, the claim's transaction, and
  // per message the publisher, the clock, the mark's statement and its transaction.
  datatype Env = Env(
    picked: Option<seq<Id>>, stamp: nat -> int, claimOk: nat -> bool, claimTx: TxEnv,
    publishOk: nat -> bool, publishError: nat -> string, returnedAt: nat -> int,
    markAt: nat -> int, markOk: nat -> bool, markTx: nat -> TxEnv)

  datatype RunError = ClaimError(tx: TxResult<Error>) | MarkSentError(tx: TxResult<Error>)

  // A call of the publisher and its answer.
  datatype Publish = Publish(id: Id, ok: bool)

  // ---- The iteration, as functions ----

  // The first n picked rows marked as processing.
  function ClaimRows(rows: map<Id, Row>, picked: seq<Id>, stamp: nat -> int, n: nat): (r: map<Id, Row>)
    requires n <= |picked| && AllIn(picked, rows)
    ensures r.Keys == rows.Keys
  {
    if n == 0 then rows
    else
      var before := ClaimRows(rows, picked, stamp, n - 1);
      before[picked[n - 1] := AsProcessing(before[picked[n - 1]], stamp(n - 1))]
  }

  function ClaimCallback(rows: map<Id, Row>, env: Env): Callback<map<Id, Row>, Error>
    requires env.picked.Some? ==> AllIn(env.picked.value, rows)
  {
    if env.picked.None? then Fail(QueryError)
    else if exists i :: 0 <= i < |env.picked.value| && !env.claimOk(i) then Fail(QueryError)
    else Finish(ClaimRows(rows, env.picked.value, env.stamp, |env.picked.value|))
  }

  lemma ClaimStops(rows: map<Id, Row>, env: Env, i: nat)
    requires env.picked.Some? && AllIn(env.picked.value, rows) && i < |env.picked.value| && !env.claimOk(i)
    ensures ClaimCallback(rows, env) == Fail(QueryError)
  {
  }

  lemma ClaimEnds(rows: map<Id, Row>, env: Env)
    requires env.picked.Some? && AllIn(env.picked.value, rows)
    requires forall j :: 0 <= j < |env.picked.value| ==> env.claimOk(j)
    ensures ClaimCallback(rows, env) == Finish(ClaimRows(rows, env.picked.value, env.stamp, |env.picked.value|))
  {
  }

  function MarkCallback(r: Result<map<Id, Row>, Error>): Callback<map<Id, Row>, Error> {
    if r.Success? then Finish(r.value) else Fail(r.error)
  }

  // The transaction that settles message i after its publish.
  function MarkTx(rows: map<Id, Row>, m: Message, i: nat, env: Env): (map<Id, Row>, TxResult<Error>) {
    var updated :=
      if env.publishOk(i) then Updated(rows, m.id, env.markOk(i), row => AsSent(row, env.markAt(i)))
      else
        var nextAt := env.returnedAt(i) + RetryBackoff(m.attempts + 1);
        Updated(rows, m.id, env.markOk(i), row => AsFailed(row, env.publishError(i), env.markAt(i), nextAt));
    Executed(env.markTx(i), rows, MarkCallback(updated))
  }

  datatype Loop = Loop(rows: map<Id, Row>, published: seq<Publish>, err: Option<RunError>)

  // The publish loop from message i on.
  function PublishLoop(rows: map<Id, Row>, batch: seq<Message>, i: nat, env: Env): Loop
    requires i <= |batch|
    decreases |batch| - i
  {
    if i == |batch| then Loop(rows, [], None)
    else
      var call := Publish(batch[i].id, env.publishOk(i));
      var (rows', tx) := MarkTx(rows, batch[i], i, env);
      if env.publishOk(i) && !tx.Done? then Loop(rows', [call], Some(MarkSentError(tx)))
      else
        var rest := PublishLoop(rows', batch, i + 1, env);
        rest.(published := [call] + rest.published)
  }

  // The whole iteration: rows afterwards, publisher calls, returned error.
  function Iteration(rows: map<Id, Row>, env: Env): Loop
    requires env.picked.Some? ==> AllIn(env.picked.value, rows)
  {
    var (claimed, tx) := Executed(env.claimTx, rows, ClaimCallback(rows, env));
    if !tx.Done? then Loop(claimed, [], Some(ClaimError(tx)))
    else PublishLoop(claimed, Copies(rows, env.picked.value), 0, env)
  }

  // ---- The worker ----

  class Worker {
    const db: Database<map<Id, Row>>
    // Calls of the publisher, in order.
    var published: seq<Publish>

    constructor (db: Database<map<Id, Row>>)
      ensures this.db == db && published == []
    {
      this.db := db;
      published := [];
    }

    // The claim transaction's callback, statement by statement.
    method Claim(repo: Repository, env: Env) returns (c: Callback<map<Id, Row>, Error>, messages: seq<Message>)
      requires env.picked.Some? ==> AllIn(env.picked.value, repo.rows)
      modifies repo
      ensures c == ClaimCallback(old(repo.rows), env)
      ensures c.Finish? ==> messages == Copies(old(repo.rows), env.picked.value)
    {
      var picked := repo.PickPending(env.picked);
      if picked.Failure? {
        return Fail(picked.error), [];
      }
      messages := picked.value;
      ghost var rows := repo.rows;
      hide ClaimCallback;
      for i := 0 to |messages|
        invariant repo.rows == ClaimRows(rows, env.picked.value, env.stamp, i)
        invariant forall j :: 0 <= j < i ==> env.claimOk(j)
      {
        var err := repo.MarkProcessing(messages[i].id, env.stamp(i), env.claimOk(i));
        if err.Some? {
          ClaimStops(rows, env, i);
          return Fail(err.value), messages;
        }
      }
      ClaimEnds(rows, env);
      return Finish(repo.rows), messages;
    }

    method SettleSent(m: Message, i: nat, env: Env) returns (tx: TxResult<Error>)
      requires env.publishOk(i)
      modifies db
      ensures (db.committed, tx) == MarkTx(old(db.committed), m, i, env)
      ensures db.connections == old(db.connections) && db.active == old(db.active)
    {
      var opening: Option<TxResult<Error>> := db.Begin(env.markTx(i));
      if opening.Some? {
        return opening.value;
      }
      var repo := new Repository(db.committed);
      var err := repo.MarkSent(m.id, env.markAt(i), env.markOk(i));
      tx := db.End(env.markTx(i), if err.None? then Finish(repo.rows) else Fail(err.value));
    }

    method SettleFailed(m: Message, i: nat, env: Env) returns (tx: TxResult<Error>)
      requires !env.publishOk(i)
      modifies db
      ensures (db.committed, tx) == MarkTx(old(db.committed), m, i, env)
      ensures db.connections == old(db.connections) && db.active == old(db.active)
    {
      var nextAt := env.returnedAt(i) + RetryBackoff(m.attempts + 1);
      var opening: Option<TxResult<Error>> := db.Begin(env.markTx(i));
      if opening.Some? {
        return opening.value;
      }
      var repo := new Repository(db.committed);
      var err := repo.MarkFailed(m.id, env.publishError(i), env.markAt(i), nextAt, env.markOk(i));
      tx := db.End(env.markTx(i), if err.None? then Finish(repo.rows) else Fail(err.value));
    }

    method RunOnce(env: Env) returns (err: Option<RunError>)
      requires env.picked.Some? ==> AllIn(env.picked.value, db.committed)
      modifies this, db
      ensures var r := Iteration(old(db.committed), env);
              && db.committed == r.rows
              && published == old(published) + r.published
              && err == r.err
      ensures db.connections == old(db.connections) && db.active == old(db.active)
    {
      hide ClaimCallback, PublishLoop;
      var opening: Option<TxResult<Error>> := db.Begin(env.claimTx);
      if opening.Some? {
        return Some(ClaimError(opening.value));
      }
      var repo := new Repository(db.committed);
      var claim, messages := Claim(repo, env);
      var claimed := db.End(env.claimTx, claim);
      if !claimed.Done? {
        return Some(ClaimError(claimed));
      }
      err := PublishMessages(messages, env);
    }

    // The loop of RunOnce (and its early return on an empty batch).
    method PublishMessages(messages: seq<Message>, env: Env) returns (err: Option<RunError>)
      modifies this, db
      ensures var r := PublishLoop(old(db.committed), messages, 0, env);
              db.committed == r.rows && published == old(published) + r.published && err == r.err
      ensures db.connections == old(db.connections) && db.active == old(db.active)
    {
      if |messages| == 0 {
        return None;
      }
      hide MarkTx;
      ghost var all := PublishLoop(db.committed, messages, 0, env);
      for i := 0 to |messages|
        invariant LoopTail(old(published), all, published, PublishLoop(db.committed, messages, i, env))
        invariant db.connections == old(db.connections) && db.active == old(db.active)
      {
        ghost var rest := PublishLoop(db.committed, messages, i, env);
        LoopStep(old(published), all, published, rest);
        var ok := env.publishOk(i);
        published := published + [Publish(messages[i].id, ok)];
        if !ok {
          var _ := SettleFailed(messages[i], i, env);
        } else {
          var tx := SettleSent(messages[i], i, env);
          if !tx.Done? {
            return Some(MarkSentError(tx));
          }
        }
      }
      return None;
    }
  }

  // What the loop has published so far and what `rest` still does add up to `all`.
  ghost predicate LoopTail(published0: seq<Publish>, all: Loop, published: seq<Publish>, rest: Loop) {
    rest.rows == all.rows && rest.err == all.err && published + rest.published == published0 + all.published
  }

  lemma LoopStep(published0: seq<Publish>, all: Loop, published: seq<Publish>, rest: Loop)
    requires rest.published != [] && LoopTail(published0, all, published, rest)
    ensures LoopTail(published0, all, published + [rest.published[0]], rest.(published := rest.published[1..]))
  {
    assert published + rest.published == published + [rest.published[0]] + rest.published[1..];
  }

  // ---- What an iteration leaves behind ----

  // Everything a mark can have done to its row: the mark, or nothing.
  ghost predicate SettledRow(before: Row, after: Row, m: Message, i: nat, env: Env) {
    if env.publishOk(i) then after == AsSent(before, env.markAt(i))
    else
      || after == before
      || after == AsFailed(before, env.publishError(i), env.markAt(i), env.returnedAt(i) + RetryBackoff(m.attempts + 1))
  }

  ghost predicate DistinctIds(batch: seq<Message>) {
    forall i, j :: 0 <= i < j < |batch| ==> batch[i].id != batch[j].id
  }

  lemma MarkTxRow(rows: map<Id, Row>, m: Message, i: nat, env: Env)
    requires m.id in rows
    ensures var (rows', tx) := MarkTx(rows, m, i, env);
            && rows'.Keys == rows.Keys
            && (forall id <- rows :: id != m.id ==> rows'[id] == rows[id])
            && (rows'[m.id] == rows[m.id] || SettledRow(rows[m.id], rows'[m.id], m, i, env))
            && (tx.Done? ==> SettledRow(rows[m.id], rows'[m.id], m, i, env))
            && (rows' != rows ==> tx.Done? || tx.CommitFailed?)
  {
  }

  // Publishing follows the pick order without gaps, and stops early only on an error of the
  // MarkSent of the message published last.
  lemma {:induction false} PublishesInPickOrder(rows: map<Id, Row>, batch: seq<Message>, i: nat, env: Env)
    requires i <= |batch|
    ensures var r := PublishLoop(rows, batch, i, env);
            var n := i + |r.published|;
            && n <= |batch|
            && (forall k :: 0 <= k < |r.published| ==> r.published[k] == Publish(batch[i + k].id, env.publishOk(i + k)))
            && (r.err.None? ==> n == |batch|)
            && (r.err.Some? ==> n > i && env.publishOk(n - 1) && r.err.value.MarkSentError? && !r.err.value.tx.Done?)
    decreases |batch| - i
  {
    hide MarkTx;
    if i < |batch| {
      PublishesInPickOrder(MarkTx(rows, batch[i], i, env).0, batch, i + 1, env);
    }
  }

  // The iteration is past message j: it was settled and no error stopped the loop at it.
  predicate Passed(r: Loop, i: nat, j: nat) {
    i <= j < i + |r.published| && (r.err.Some? ==> j + 1 < i + |r.published|)
  }

  // A message the loop passed has been settled. A message it never reached keeps the row the
  // claim gave it. So does the message whose MarkSent failed, unless the commit that reported the
  // error had in fact taken effect.
  lemma {:induction false} PartialIteration(rows: map<Id, Row>, batch: seq<Message>, i: nat, env: Env, j: nat)
    requires i <= j < |batch| && DistinctIds(batch) && forall k :: 0 <= k < |batch| ==> batch[k].id in rows
    ensures var r, id := PublishLoop(rows, batch, i, env), batch[j].id;
            && id in r.rows
            && (Passed(r, i, j) ==> SettledRow(rows[id], r.rows[id], batch[j], j, env))
            && (j >= i + |r.published| ==> r.rows[id] == rows[id])
            && (!Passed(r, i, j) && j < i + |r.published| ==>
                r.rows[id] == rows[id] || (r.err.value.tx.CommitFailed? && r.rows[id] == AsSent(rows[id], env.markAt(j))))
    decreases |batch| - i
  {
    hide MarkTx, SettledRow;
    PublishesInPickOrder(rows, batch, i, env);
    var (rows', tx) := MarkTx(rows, batch[i], i, env);
    MarkTxRow(rows, batch[i], i, env);
    if env.publishOk(i) && !tx.Done? {
      SettledSent(rows[batch[i].id], rows'[batch[i].id], batch[i], i, env);
    } else {
      PublishesInPickOrder(rows', batch, i + 1, env);
      if j > i {
        PartialIteration(rows', batch, i + 1, env, j);
      } else {
        SettledAnyway(rows[batch[i].id], rows'[batch[i].id], batch[i], i, env);
        UnreachedRow(rows', batch, i + 1, env, batch[i].id);
      }
    }
  }

  lemma {:induction false} UnreachedRow(rows: map<Id, Row>, batch: seq<Message>, i: nat, env: Env, id: Id)
    requires i <= |batch| && forall k :: 0 <= k < |batch| ==> batch[k].id in rows
    requires id in rows && forall k :: i <= k < |batch| ==> batch[k].id != id
    ensures id in PublishLoop(rows, batch, i, env).rows && PublishLoop(rows, batch, i, env).rows[id] == rows[id]
    decreases |batch| - i
  {
    if i < |batch| {
      hide MarkTx, SettledRow;
      MarkTxRow(rows, batch[i], i, env);
      UnreachedRow(MarkTx(rows, batch[i], i, env).0, batch, i + 1, env, id);
    }
  }

  lemma SettledSent(before: Row, after: Row, m: Message, i: nat, env: Env)
    requires env.publishOk(i)
    ensures SettledRow(before, after, m, i, env) <==> after == AsSent(before, env.markAt(i))
  {
  }

  lemma SettledAnyway(before: Row, after: Row, m: Message, i: nat, env: Env)
    requires (!env.publishOk(i) && after == before) || SettledRow(before, after, m, i, env)
    ensures SettledRow(before, after, m, i, env)
  {
  }

  // A row is claimed with its own stamp and keeps everything else; other rows are not touched.
  lemma {:induction false} ClaimRowsAre(rows: map<Id, Row>, picked: seq<Id>, stamp: nat -> int, n: nat)
    requires n <= |picked| && AllIn(picked, rows)
    requires forall i, j :: 0 <= i < j < |picked| ==> picked[i] != picked[j]
    ensures var r := ClaimRows(rows, picked, stamp, n);
            && (forall i :: 0 <= i < n ==> r[picked[i]] == AsProcessing(rows[picked[i]], stamp(i)))
            && (forall id <- rows :: (forall i :: 0 <= i < n ==> id != picked[i]) ==> r[id] == rows[id])
  {
    if n > 0 {
      ClaimRowsAre(rows, picked, stamp, n - 1);
      assert forall i :: 0 <= i < n - 1 ==> picked[i] != picked[n - 1];
    }
  }

  // ---- The same of a whole iteration ----

  // What the iteration makes of picked row j: by the publisher's answer, once the loop passed it.
  ghost predicate LeftAs(row: Row, after: Row, r: Loop, j: nat, env: Env) {
    var claimed := AsProcessing(row, env.stamp(j));
    if Passed(r, 0, j) then
      if env.publishOk(j) then after == AsSent(claimed, env.markAt(j))
      else
        || (after == claimed && after.status == Processing)
        || after == AsFailed(claimed, env.publishError(j), env.markAt(j), env.returnedAt(j) + RetryBackoff(row.attempts + 1))
    else
      || (after == claimed && after.status == Processing)
      || (j + 1 == |r.published| && r.err.value.tx.CommitFailed? && after == AsSent(claimed, env.markAt(j)))
  }

  lemma CommittedClaim(rows: map<Id, Row>, env: Env)
    requires env.picked.Some? && AllIn(env.picked.value, rows)
    requires Executed(env.claimTx, rows, ClaimCallback(rows, env)).1.Done?
    ensures Iteration(rows, env) ==
            PublishLoop(ClaimRows(rows, env.picked.value, env.stamp, |env.picked.value|), Copies(rows, env.picked.value), 0, env)
  {
    hide ClaimRows, PublishLoop;
  }

  lemma PassedIsLeft(row: Row, after: Row, r: Loop, m: Message, j: nat, env: Env)
    requires m.attempts == row.attempts && (r.err.Some? ==> r.err.value.MarkSentError?)
    requires var claimed := AsProcessing(row, env.stamp(j));
             && (Passed(r, 0, j) ==> SettledRow(claimed, after, m, j, env))
             && (j >= |r.published| ==> after == claimed)
             && (!Passed(r, 0, j) && j < |r.published| ==>
                 after == claimed || (r.err.value.tx.CommitFailed? && after == AsSent(claimed, env.markAt(j))))
    ensures LeftAs(row, after, r, j, env)
  {
  }

  lemma ClaimedBatch(rows: map<Id, Row>, picked: seq<Id>, stamp: nat -> int)
    requires AllIn(picked, rows)
    requires forall i, j :: 0 <= i < j < |picked| ==> picked[i] != picked[j]
    ensures var claimed, batch := ClaimRows(rows, picked, stamp, |picked|), Copies(rows, picked);
            && DistinctIds(batch)
            && (forall k :: 0 <= k < |batch| ==> batch[k].id in claimed)
            && (forall k :: 0 <= k < |batch| ==> claimed[picked[k]] == AsProcessing(rows[picked[k]], stamp(k)))
  {
    ClaimRowsAre(rows, picked, stamp, |picked|);
  }

  // After a claim that committed, each picked row the loop passed is sent, or failed, or still
  // processing after a swallowed error; the others are processing as claimed, but for a mark that
  // took effect and reported an error.
  lemma IterationLeaves(rows: map<Id, Row>, env: Env, j: nat)
    requires env.picked.Some? && AllIn(env.picked.value, rows) && j < |env.picked.value|
    requires forall i, k :: 0 <= i < k < |env.picked.value| ==> env.picked.value[i] != env.picked.value[k]
    requires Executed(env.claimTx, rows, ClaimCallback(rows, env)).1.Done?
    ensures var r, id := Iteration(rows, env), env.picked.value[j];
            id in r.rows && (r.err.Some? ==> r.err.value.MarkSentError?) && LeftAs(rows[id], r.rows[id], r, j, env)
  {
    var picked := env.picked.value;
    CommittedClaim(rows, env);
    ClaimedBatch(rows, picked, env.stamp);
    hide *;
    var claimed, batch := ClaimRows(rows, picked, env.stamp, |picked|), Copies(rows, picked);
    PublishesInPickOrder(claimed, batch, 0, env);
    PartialIteration(claimed, batch, 0, env, j);
    var r := PublishLoop(claimed, batch, 0, env);
    PassedIsLeft(rows[picked[j]], r.rows[picked[j]], r, batch[j], j, env);
  }

  // Rows that were not picked are untouched.
  lemma IterationSpares(rows: map<Id, Row>, env: Env, id: Id)
    requires env.picked.Some? && AllIn(env.picked.value, rows) && id in rows && id !in env.picked.value
    requires forall i, k :: 0 <= i < k < |env.picked.value| ==> env.picked.value[i] != env.picked.value[k]
    requires Executed(env.claimTx, rows, ClaimCallback(rows, env)).1.Done?
    ensures id in Iteration(rows, env).rows && Iteration(rows, env).rows[id] == rows[id]
  {
    var picked := env.picked.value;
    CommittedClaim(rows, env);
    ClaimedBatch(rows, picked, env.stamp);
    ClaimRowsAre(rows, picked, env.stamp, |picked|);
    hide ClaimCallback, ClaimRows, PublishLoop, Iteration, Executed, DistinctIds;
    UnreachedRow(ClaimRows(rows, picked, env.stamp, |picked|), Copies(rows, picked), 0, env, id);
  }

  // After a claim that did not commit nothing is published, and the table is as before or, when
  // only the answer of the commit was lost, as claimed.
  lemma FailedClaimLeaves(rows: map<Id, Row>, env: Env)
    requires env.picked.Some? ==> AllIn(env.picked.value, rows)
    requires !Executed(env.claimTx, rows, ClaimCallback(rows, env)).1.Done?
    ensures var r := Iteration(rows, env);
            && r.published == [] && r.err.Some?
            && (r.rows == rows ||
                (env.picked.Some? && env.claimTx.commit == CommitError(true) &&
                 r.rows == ClaimRows(rows, env.picked.value, env.stamp, |env.picked.value|)))
  {
  }

  // The claim commits exactly if the transaction, the query and every mark do, and otherwise the
  // first of them that failed is the error of the iteration; an empty pick is no error.
  lemma ClaimErrsIff(rows: map<Id, Row>, env: Env)
    requires env.picked.Some? ==> AllIn(env.picked.value, rows)
    ensures var r := Iteration(rows, env);
            var begun := env.claimTx.hasPool && env.claimTx.acquireOk && env.claimTx.beginOk;
            var marked := env.picked.Some? && forall i :: 0 <= i < |env.picked.value| ==> env.claimOk(i);
            && (r.err.Some? && r.err.value.ClaimError? <==> !(begun && marked && env.claimTx.commit == CommitOk))
            && (r.err.Some? && r.err.value.ClaimError? ==>
                  r.err.value.tx == if !env.claimTx.hasPool then NoPool
                                    else if !env.claimTx.acquireOk then AcquireFailed
                                    else if !env.claimTx.beginOk then BeginFailed
                                    else if !marked then TxResult.Failed(QueryError, !env.claimTx.rollbackOk)
                                    else CommitFailed)
            && (begun && env.picked == Some([]) && env.claimTx.commit == CommitOk ==> r == Loop(rows, [], None))
  {
    hide ClaimRows, PublishLoop;
    var (claimed, tx) := Executed(env.claimTx, rows, ClaimCallback(rows, env));
    if tx.Done? {
      PublishesInPickOrder(claimed, Copies(rows, env.picked.value), 0, env);
      if env.picked == Some([]) { NothingToClaim(rows, env); }
    }
  }

  lemma NothingToClaim(rows: map<Id, Row>, env: Env)
    ensures ClaimRows(rows, [], env.stamp, 0) == rows && PublishLoop(rows, [], 0, env) == Loop(rows, [], None)
    ensures Copies(rows, []) == []
  {
  }
}
