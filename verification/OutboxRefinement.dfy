/**
 The iteration of the worker, answer by answer, is a path of the protocol; and a path that keeps
 no lease can bring a sent row back.
 */
module OutboxRefinement {
  import opened Wrappers
  import opened TransactionManager
  import opened OutboxRepository
  import opened OutboxWorker
  import opened OutboxProtocol

  lemma RunOne(s: State, a: Action, t: State)
    requires Step(s, a) == Some(t)
    ensures RunAll(s, [a]) == Some(t)
  {
    hide Step;
    assert [a][..0] == [];
    assert RunAll(s, []) == Some(s);
  }

  lemma {:induction false} RunAppend(s: State, a: seq<Action>, t: State, b: seq<Action>)
    requires RunAll(s, a) == Some(t)
    ensures RunAll(s, a + b) == RunAll(t, b)
    decreases |b|
  {
    hide Step;
    if b == [] {
      assert a + b == a;
    } else {
      assert (a + b)[..|a + b| - 1] == a + b[..|b| - 1];
      RunAppend(s, a, t, b[..|b| - 1]);
    }
  }

  // The clock during an iteration: query, stamps, claim commit, then publish and mark in turn.
  ghost predicate ClaimTimes(env: Env, pickNow: int, claimAt: int) {
    env.picked.Some? ==> forall k :: 0 <= k < |env.picked.value| ==> pickNow <= env.stamp(k) <= claimAt
  }

  ghost predicate LoopTimes(env: Env, clock: int, i: nat, n: nat) {
    && (i < n ==> clock <= env.returnedAt(i))
    && (forall j :: i <= j < n ==> env.returnedAt(j) <= env.markAt(j))
    && (forall j :: i <= j < n - 1 ==> env.markAt(j) <= env.returnedAt(j + 1))
  }

  function OutcomeOf(tx: TxResult<Error>, commit: Commit): Outcome {
    if tx.Done? then Applied
    else if tx.CommitFailed? && commit == CommitError(true) then AppliedUnseen
    else Lost
  }

  // Worker w is about to publish message i of the batch.
  ghost predicate AtMessage(s: State, w: nat, batch: seq<Message>, i: nat) {
    && w < |s.crews| && i < |batch|
    && s.crews[w].Busy? && s.crews[w].i == i && s.crews[w].stage == ToPublish
    && |s.crews[w].batch| == |batch|
    && forall j :: 0 <= j < |batch| ==>
         s.crews[w].batch[j].id == batch[j].id && s.crews[w].batch[j].attempts == batch[j].attempts
  }

  // ---- What an iteration does, message by message ----

  // A publisher call with its answer, and what became of the mark after it.
  datatype Settlement = Settlement(id: Id, ok: bool, outcome: Outcome)

  function SettlementOf(rows: map<Id, Row>, m: Message, i: nat, env: Env): Settlement {
    Settlement(m.id, env.publishOk(i), OutcomeOf(MarkTx(rows, m, i, env).1, env.markTx(i).commit))
  }

  // The publish loop from message i on.
  function Settlements(rows: map<Id, Row>, batch: seq<Message>, i: nat, env: Env): seq<Settlement>
    requires i <= |batch|
    decreases |batch| - i
  {
    if i == |batch| then []
    else
      var (rows', tx) := MarkTx(rows, batch[i], i, env);
      [SettlementOf(rows, batch[i], i, env)] +
      if env.publishOk(i) && !tx.Done? then [] else Settlements(rows', batch, i + 1, env)
  }

  function IterationSettlements(rows: map<Id, Row>, env: Env): seq<Settlement>
    requires env.picked.Some? ==> AllIn(env.picked.value, rows)
  {
    var (claimed, tx) := Executed(env.claimTx, rows, ClaimCallback(rows, env));
    if tx.Done? then Settlements(claimed, Copies(rows, env.picked.value), 0, env) else []
  }

  // How much the history of a row grows.
  datatype Growth = Growth(published: nat, refused: nat, failures: nat, lostMarks: nat)

  function GrowthOf(settled: seq<Settlement>, id: Id): Growth {
    if settled == [] then Growth(0, 0, 0, 0)
    else
      var x, g := settled[0], GrowthOf(settled[1..], id);
      if x.id != id then g
      else Growth(g.published + (if x.ok then 1 else 0),
                  g.refused + (if x.ok then 0 else 1),
                  g.failures + (if !x.ok && !x.outcome.Lost? then 1 else 0),
                  g.lostMarks + (if x.ok && x.outcome.Lost? then 1 else 0))
  }

  ghost predicate GrewBy(h: History, h': History, g: Growth) {
    && h'.published == h.published + g.published
    && h'.refused == h.refused + g.refused
    && |h'.failures| == |h.failures| + g.failures
    && h'.lostMarks == h.lostMarks + g.lostMarks
  }

  // From s to t the histories have grown by exactly these settlements.
  ghost predicate Grew(s: State, t: State, settled: seq<Settlement>) {
    && t.history.Keys == s.history.Keys
    && forall id <- s.history :: GrewBy(s.history[id], t.history[id], GrowthOf(settled, id))
  }

  lemma {:induction false} GrowthAppend(a: seq<Settlement>, b: seq<Settlement>, id: Id)
    ensures var g, h := GrowthOf(a, id), GrowthOf(b, id);
            GrowthOf(a + b, id) ==
            Growth(g.published + h.published, g.refused + h.refused, g.failures + h.failures, g.lostMarks + h.lostMarks)
  {
    if a == [] {
      assert a + b == b;
    } else {
      assert (a + b)[1..] == a[1..] + b;
      GrowthAppend(a[1..], b, id);
    }
  }

  lemma GrewThen(s: State, t: State, u: State, a: seq<Settlement>, b: seq<Settlement>)
    requires Grew(s, t, a) && Grew(t, u, b)
    ensures Grew(s, u, a + b)
  {
    hide GrowthOf;
    forall id | id in s.history ensures GrewBy(s.history[id], u.history[id], GrowthOf(a + b, id)) {
      GrowthAppend(a, b, id);
    }
  }

  lemma GrowthCons(x: Settlement, later: seq<Settlement>, calls: seq<Publish>, id: Id)
    ensures var g, h := GrowthOf(later, id), GrowthOf([x] + later, id);
            && h.published == g.published + (if Publish(x.id, x.ok) == Publish(id, true) then 1 else 0)
            && h.refused == g.refused + (if Publish(x.id, x.ok) == Publish(id, false) then 1 else 0)
    ensures multiset([Publish(x.id, x.ok)] + calls) == multiset{Publish(x.id, x.ok)} + multiset(calls)
  {
    assert ([x] + later)[1..] == later;
  }

  ghost predicate CallsCounted(calls: seq<Publish>, settled: seq<Settlement>, id: Id) {
    && multiset(calls)[Publish(id, true)] == GrowthOf(settled, id).published
    && multiset(calls)[Publish(id, false)] == GrowthOf(settled, id).refused
  }

  lemma CallsCons(x: Settlement, later: seq<Settlement>, calls: seq<Publish>, id: Id)
    requires CallsCounted(calls, later, id)
    ensures CallsCounted([Publish(x.id, x.ok)] + calls, [x] + later, id)
  {
    GrowthCons(x, later, calls, id);
    hide GrowthOf;
  }

  // The settlements are the publisher's calls, so what they count is what was published.
  lemma {:induction false} SettlementsAreCalls(rows: map<Id, Row>, batch: seq<Message>, i: nat, env: Env, id: Id)
    requires i <= |batch|
    ensures CallsCounted(PublishLoop(rows, batch, i, env).published, Settlements(rows, batch, i, env), id)
    decreases |batch| - i
  {
    if i < |batch| {
      hide MarkTx, CallsCounted, OutcomeOf;
      var (rows', tx) := MarkTx(rows, batch[i], i, env);
      var x := SettlementOf(rows, batch[i], i, env);
      if env.publishOk(i) && !tx.Done? {
        assert CallsCounted([], [], id) by { NoCalls(id); }
        CallsCons(x, [], [], id);
        assert [x] + [] == [x] && [Publish(x.id, x.ok)] + [] == [Publish(x.id, x.ok)];
      } else {
        SettlementsAreCalls(rows', batch, i + 1, env, id);
        CallsCons(x, Settlements(rows', batch, i + 1, env), PublishLoop(rows', batch, i + 1, env).published, id);
      }
    }
  }

  lemma NoCalls(id: Id)
    ensures CallsCounted([], [], id)
  {
  }

  // ---- Each message is a path of the protocol ----

  lemma PublishRefines(s: State, w: nat, batch: seq<Message>, i: nat, env: Env) returns (t: State)
    requires Inv(s) && AtMessage(s, w, batch, i) && s.clock <= env.returnedAt(i)
    ensures Step(s, PublishOne(w, env.publishOk(i), env.returnedAt(i))) == Some(t)
    ensures t.rows == s.rows && t.clock == env.returnedAt(i)
    ensures t.crews == s.crews[w := s.crews[w].(stage := if env.publishOk(i) then Delivered else Refused(env.returnedAt(i)))]
    ensures Called(s, t, SettlementOf(s.rows, batch[i], i, env))
  {
    assert CrewOk(s, s.crews[w]);
    t := Step(s, PublishOne(w, env.publishOk(i), env.returnedAt(i))).value;
  }

  lemma MarkSentRefines(s: State, w: nat, m: Message, i: nat, env: Env) returns (t: State)
    requires Inv(s) && w < |s.crews| && s.crews[w].Busy? && s.crews[w].i < |s.crews[w].batch|
    requires CurrentId(s.crews[w]) == m.id && s.crews[w].stage == Delivered
    requires env.publishOk(i) && s.clock <= env.markAt(i)
    ensures var (rows, tx) := MarkTx(s.rows, m, i, env);
            && Step(s, MarkDelivered(w, OutcomeOf(tx, env.markTx(i).commit), env.markAt(i))) == Some(t)
            && t.rows == rows && t.clock == env.markAt(i)
            && t.crews == s.crews[w := if tx.Done? then Advanced(s.crews[w]) else Idle]
    ensures MarkCounted(s, t, SettlementOf(s.rows, m, i, env))
  {
    assert CrewOk(s, s.crews[w]);
    var tx := MarkTx(s.rows, m, i, env).1;
    t := Step(s, MarkDelivered(w, OutcomeOf(tx, env.markTx(i).commit), env.markAt(i))).value;
  }

  lemma MarkFailedRefines(s: State, w: nat, m: Message, i: nat, env: Env) returns (t: State)
    requires Inv(s) && w < |s.crews| && s.crews[w].Busy? && s.crews[w].i < |s.crews[w].batch|
    requires CurrentId(s.crews[w]) == m.id && s.crews[w].batch[s.crews[w].i].attempts == m.attempts
    requires s.crews[w].stage == Refused(env.returnedAt(i)) && !env.publishOk(i) && s.clock <= env.markAt(i)
    ensures var (rows, tx) := MarkTx(s.rows, m, i, env);
            && Step(s, MarkRefused(w, OutcomeOf(tx, env.markTx(i).commit), env.publishError(i), env.markAt(i))) == Some(t)
            && t.rows == rows && t.clock == env.markAt(i)
            && t.crews == s.crews[w := Advanced(s.crews[w])]
    ensures MarkCounted(s, t, SettlementOf(s.rows, m, i, env))
  {
    assert CrewOk(s, s.crews[w]);
    var tx := MarkTx(s.rows, m, i, env).1;
    t := Step(s, MarkRefused(w, OutcomeOf(tx, env.markTx(i).commit), env.publishError(i), env.markAt(i))).value;
  }

  // The publisher's answer is counted, and then the outcome of the mark.
  ghost predicate Called(s: State, u: State, x: Settlement) {
    && x.id in s.history
    && var h := s.history[x.id];
       u.history == s.history[x.id := if x.ok then h.(published := h.published + 1) else h.(refused := h.refused + 1)]
  }

  ghost predicate MarkCounted(u: State, t: State, x: Settlement) {
    && t.history.Keys == u.history.Keys
    && forall id <- u.history ::
         var n := if id == x.id && (x.ok <==> x.outcome.Lost?) then 1 else 0;
         GrewBy(u.history[id], t.history[id], if x.ok then Growth(0, 0, 0, n) else Growth(0, 0, n, 0))
  }

  // The two steps of a message grow its history by its settlement and no other.
  lemma OneGrowth(s: State, u: State, t: State, x: Settlement)
    requires Called(s, u, x) && MarkCounted(u, t, x)
    ensures Grew(s, t, [x])
  {
    assert [x][1..] == [];
  }

  // The step of the mark after either answer of the publisher.
  lemma MarkRefines(s: State, w: nat, batch: seq<Message>, i: nat, env: Env) returns (mark: Action, t: State)
    requires Inv(s) && w < |s.crews| && s.crews[w].Busy? && s.crews[w].i == i < |s.crews[w].batch| == |batch|
    requires s.crews[w].stage == (if env.publishOk(i) then Delivered else Refused(env.returnedAt(i)))
    requires s.crews[w].batch[i].id == batch[i].id && s.crews[w].batch[i].attempts == batch[i].attempts
    requires s.clock <= env.markAt(i)
    ensures Step(s, mark) == Some(t)
    ensures var (rows, tx) := MarkTx(s.rows, batch[i], i, env);
            && t.rows == rows
            && t.clock == env.markAt(i)
            && t.crews == s.crews[w := if env.publishOk(i) && !tx.Done? then Idle else Advanced(s.crews[w])]
    ensures MarkCounted(s, t, SettlementOf(s.rows, batch[i], i, env))
  {
    hide Inv, Step, MarkTx, MarkCounted, SettlementOf;
    var outcome := OutcomeOf(MarkTx(s.rows, batch[i], i, env).1, env.markTx(i).commit);
    if env.publishOk(i) {
      mark := MarkDelivered(w, outcome, env.markAt(i));
      t := MarkSentRefines(s, w, batch[i], i, env);
    } else {
      mark := MarkRefused(w, outcome, env.publishError(i), env.markAt(i));
      t := MarkFailedRefines(s, w, batch[i], i, env);
    }
  }

  lemma OneMessageRefines(s: State, w: nat, batch: seq<Message>, i: nat, env: Env)
    returns (actions: seq<Action>, t: State)
    requires Inv(s) && AtMessage(s, w, batch, i) && LoopTimes(env, s.clock, i, |batch|)
    ensures RunAll(s, actions) == Some(t) && Inv(t)
    ensures var (rows, tx) := MarkTx(s.rows, batch[i], i, env);
            && t.rows == rows
            && t.clock == env.markAt(i)
            && t.crews == s.crews[w := if env.publishOk(i) && !tx.Done? then Idle else Advanced(s.crews[w])]
    ensures Grew(s, t, [SettlementOf(s.rows, batch[i], i, env)])
  {
    hide Inv, Step, MarkTx, RunAll, Grew, Called, MarkCounted, SettlementOf;
    var publish := PublishOne(w, env.publishOk(i), env.returnedAt(i));
    var u := PublishRefines(s, w, batch, i, env);
    StepKeepsInv(s, publish);
    RunOne(s, publish, u);
    var mark;
    mark, t := MarkRefines(u, w, batch, i, env);
    StepKeepsInv(u, mark);
    RunOne(u, mark, t);
    RunAppend(s, [publish], u, [mark]);
    actions := [publish] + [mark];
    OneGrowth(s, u, t, SettlementOf(s.rows, batch[i], i, env));
  }

  lemma NextMessage(s: State, t: State, w: nat, batch: seq<Message>, i: nat)
    requires AtMessage(s, w, batch, i) && i + 1 < |batch|
    requires t.crews == s.crews[w := Advanced(s.crews[w])]
    ensures AtMessage(t, w, batch, i + 1)
  {
  }

  lemma {:induction false} LoopRefines(s: State, w: nat, batch: seq<Message>, i: nat, env: Env)
    returns (actions: seq<Action>, t: State)
    requires Inv(s) && w < |s.crews| && i < |batch|
    requires AtMessage(s, w, batch, i) && LoopTimes(env, s.clock, i, |batch|)
    ensures RunAll(s, actions) == Some(t)
    ensures t.rows == PublishLoop(s.rows, batch, i, env).rows
    ensures t.crews == s.crews[w := Idle]
    ensures Grew(s, t, Settlements(s.rows, batch, i, env))
    decreases |batch| - i
  {
    hide Inv, MarkTx, RunAll, Step, Grew, SettlementOf;
    actions, t := OneMessageRefines(s, w, batch, i, env);
    var tx := MarkTx(s.rows, batch[i], i, env).1;
    var x := SettlementOf(s.rows, batch[i], i, env);
    if !(env.publishOk(i) && !tx.Done?) && i + 1 < |batch| {
      NextMessage(s, t, w, batch, i);
      hide AtMessage;
      var rest, u := LoopRefines(t, w, batch, i + 1, env);
      RunAppend(s, actions, t, rest);
      GrewThen(s, t, u, [x], Settlements(t.rows, batch, i + 1, env));
      actions, t := actions + rest, u;
      assert t.crews == s.crews[w := Idle];
    } else {
      assert Settlements(s.rows, batch, i, env) == [x];
    }
  }

  lemma ClaimEnables(s: State, w: nat, locked: set<Id>, pickNow: int, claimAt: int, env: Env)
    returns (claim: Action, t: State)
    requires w < |s.crews| && s.crews[w] == Idle && s.clock <= claimAt
    requires env.picked.Some? && IsPick(s.rows, locked, pickNow, BATCH_SIZE, env.picked.value)
    requires ClaimTimes(env, pickNow, claimAt)
    ensures AllIn(env.picked.value, s.rows)
    ensures claim == ClaimBatch(w, env.picked.value, locked, pickNow, env.stamp, env.claimTx.commit == CommitOk, claimAt)
    ensures Step(s, claim) == Some(t)
  {
    claim := ClaimBatch(w, env.picked.value, locked, pickNow, env.stamp, env.claimTx.commit == CommitOk, claimAt);
    hide ClaimRows, Eligible;
    t := Step(s, claim).value;
  }

  lemma ClaimGrowsNothing(s: State, a: Action)
    requires a.ClaimBatch? && Step(s, a).Some?
    ensures Grew(s, Step(s, a).value, [])
  {
  }

  // The claim's transaction, if it took effect, is a step of the protocol.
  lemma ClaimRefines(s: State, w: nat, locked: set<Id>, pickNow: int, claimAt: int, env: Env)
    returns (claim: Action, t: State)
    requires Inv(s) && w < |s.crews| && s.crews[w] == Idle
    requires env.picked.Some? && IsPick(s.rows, locked, pickNow, BATCH_SIZE, env.picked.value)
    requires ClaimTimes(env, pickNow, claimAt) && s.clock <= claimAt
    requires ClaimCallback(s.rows, env).Finish? && Opening<Error>(env.claimTx).None?
    requires env.claimTx.commit != CommitError(false)
    ensures RunAll(s, [claim]) == Some(t) && Inv(t)
    ensures t.rows == Executed(env.claimTx, s.rows, ClaimCallback(s.rows, env)).0 && t.clock == claimAt
    ensures |t.crews| == |s.crews| && t.crews[w := Idle] == s.crews
    ensures var batch := Copies(s.rows, env.picked.value);
            if env.claimTx.commit == CommitOk && |batch| > 0 then AtMessage(t, w, batch, 0) else t.crews == s.crews
    ensures Grew(s, t, [])
  {
    hide ClaimRows, IsPick, ClaimTimes, Step, Inv, Eligible, Grew;
    claim, t := ClaimEnables(s, w, locked, pickNow, claimAt, env);
    ClaimStep(s, claim);
    ClaimGrowsNothing(s, claim);
    StepKeepsInv(s, claim);
    RunOne(s, claim, t);
  }

  // What is counted of a row's publishes is the number of calls the publisher got for it.
  lemma PublishesAreCalls(s: State, t: State, env: Env, id: Id)
    requires env.picked.Some? ==> AllIn(env.picked.value, s.rows)
    requires Grew(s, t, IterationSettlements(s.rows, env)) && id in s.history
    ensures var calls := multiset(Iteration(s.rows, env).published);
            && t.history[id].published == s.history[id].published + calls[Publish(id, true)]
            && t.history[id].refused == s.history[id].refused + calls[Publish(id, false)]
  {
    hide Settlements, PublishLoop, GrowthOf, ClaimRows;
    var (claimed, tx) := Executed(env.claimTx, s.rows, ClaimCallback(s.rows, env));
    if tx.Done? {
      SettlementsAreCalls(claimed, Copies(s.rows, env.picked.value), 0, env, id);
    } else {
      NoCalls(id);
    }
  }

  // Every iteration, with any answers, is a run of the protocol that ends with the same rows and
  // the worker idle again. It publishes what the iteration publishes, call for call, and its
  // failures and lost marks are the marks that took effect and those that did not.
  lemma IterationRefines(s: State, w: nat, locked: set<Id>, pickNow: int, claimAt: int, env: Env)
    returns (actions: seq<Action>, t: State)
    requires Inv(s) && w < |s.crews| && s.crews[w] == Idle
    requires env.picked.Some? ==> IsPick(s.rows, locked, pickNow, BATCH_SIZE, env.picked.value)
    requires ClaimTimes(env, pickNow, claimAt) && s.clock <= claimAt
    requires env.picked.Some? ==> LoopTimes(env, claimAt, 0, |env.picked.value|)
    ensures RunAll(s, actions) == Some(t)
    ensures t.rows == Iteration(s.rows, env).rows
    ensures t.crews == s.crews
    ensures Grew(s, t, IterationSettlements(s.rows, env))
    ensures var calls := multiset(Iteration(s.rows, env).published);
            forall id <- s.history ::
              && t.history[id].published == s.history[id].published + calls[Publish(id, true)]
              && t.history[id].refused == s.history[id].refused + calls[Publish(id, false)]
  {
    actions, t := IterationReaches(s, w, locked, pickNow, claimAt, env);
    assert t.history.Keys == s.history.Keys;
    assert env.picked.Some? ==> AllIn(env.picked.value, s.rows);
    hide *;
    forall id | id in s.history
      ensures var calls := multiset(Iteration(s.rows, env).published);
              && t.history[id].published == s.history[id].published + calls[Publish(id, true)]
              && t.history[id].refused == s.history[id].refused + calls[Publish(id, false)]
    {
      PublishesAreCalls(s, t, env, id);
    }
  }

  lemma IterationReaches(s: State, w: nat, locked: set<Id>, pickNow: int, claimAt: int, env: Env)
    returns (actions: seq<Action>, t: State)
    requires Inv(s) && w < |s.crews| && s.crews[w] == Idle
    requires env.picked.Some? ==> IsPick(s.rows, locked, pickNow, BATCH_SIZE, env.picked.value)
    requires ClaimTimes(env, pickNow, claimAt) && s.clock <= claimAt
    requires env.picked.Some? ==> LoopTimes(env, claimAt, 0, |env.picked.value|)
    ensures RunAll(s, actions) == Some(t)
    ensures t.rows == Iteration(s.rows, env).rows
    ensures t.crews == s.crews
    ensures Grew(s, t, IterationSettlements(s.rows, env))
  {
    hide Inv, RunAll, Step, LoopTimes, ClaimTimes, Grew;
    var (claimed, tx) := Executed(env.claimTx, s.rows, ClaimCallback(s.rows, env));
    if tx.Done? || (tx.CommitFailed? && env.claimTx.commit == CommitError(true)) {
      var claim;
      claim, t := ClaimRefines(s, w, locked, pickNow, claimAt, env);
      actions := [claim];
      var batch := Copies(s.rows, env.picked.value);
      if tx.Done? && |batch| > 0 {
        hide AtMessage, IsPick, ClaimCallback;
        var rest, u := LoopRefines(t, w, batch, 0, env);
        RunAppend(s, actions, t, rest);
        var settled := Settlements(t.rows, batch, 0, env);
        GrewThen(s, t, u, [], settled);
        assert [] + settled == settled;
        actions, t := actions + rest, u;
      }
    } else {
      actions, t := [], s;
      assert RunAll(s, []) == Some(s) by { RunNone(s); }
      assert Grew(s, s, []) by { GrewNone(s); }
    }
  }

  lemma GrewNone(s: State)
    ensures Grew(s, s, [])
  {
  }

  lemma RunNone(s: State)
    ensures RunAll(s, []) == Some(s)
  {
  }

  // ---- A slow worker ----

  // Two workers and one row, number 7.
  ghost predicate Sole(s: State, clock: int, row: Row, first: Crew, second: Crew) {
    s.clock == clock && s.rows == map[7 := row] && s.history.Keys == {7} && s.crews == [first, second]
  }

  function SoleClaim(w: nat, at: int): Action {
    ClaimBatch(w, [7], {}, at, _ => at, true, at)
  }

  function Holding(at: int, stage: Stage): Crew {
    Busy([Claim(7, 0, at)], 0, stage)
  }

  lemma SoleInsert(s: State) returns (t: State)
    requires s == OutboxProtocol.State(0, map[], map[], [Idle, Idle])
    ensures Step(s, Insert(7, 0)) == Some(t) && Sole(t, 0, Created(0), Idle, Idle)
  {
    t := Step(s, Insert(7, 0)).value;
  }

  lemma SoleClaims(s: State, w: nat, clock: int, row: Row, at: int, first: Crew, second: Crew) returns (t: State)
    requires Sole(s, clock, row, first, second) && w < 2 && s.crews[w] == Idle && clock <= at
    requires Eligible(row, at) && row.attempts == 0
    ensures Step(s, SoleClaim(w, at)) == Some(t)
    ensures if w == 0 then Sole(t, at, AsProcessing(row, at), Holding(at, ToPublish), second)
            else Sole(t, at, AsProcessing(row, at), first, Holding(at, ToPublish))
  {
    var a := SoleClaim(w, at);
    assert IsPick(s.rows, {}, at, BATCH_SIZE, [7]);
    ClaimRowsAre(s.rows, [7], a.stamp, 1);
    assert ClaimsOf(s.rows, [7], a.stamp) == [Claim(7, 0, at)];
    t := Step(s, a).value;
    assert t.rows == map[7 := AsProcessing(row, at)];
  }

  lemma SolePublish(s: State, w: nat, clock: int, row: Row, at: int, ok: bool, first: Crew, second: Crew, stamp: int)
    returns (t: State)
    requires Sole(s, clock, row, first, second) && w < 2 && s.crews[w] == Holding(stamp, ToPublish) && clock <= at
    ensures Step(s, PublishOne(w, ok, at)) == Some(t)
    ensures var after := Holding(stamp, if ok then Delivered else Refused(at));
            if w == 0 then Sole(t, at, row, after, second) else Sole(t, at, row, first, after)
  {
    t := Step(s, PublishOne(w, ok, at)).value;
  }

  lemma SoleMarkSent(s: State, clock: int, row: Row, at: int, first: Crew, stamp: int) returns (t: State)
    requires Sole(s, clock, row, first, Holding(stamp, Delivered)) && clock <= at
    ensures Step(s, MarkDelivered(1, Applied, at)) == Some(t) && Sole(t, at, AsSent(row, at), first, Idle)
  {
    t := Step(s, MarkDelivered(1, Applied, at)).value;
  }

  lemma SoleMarkFailed(s: State, clock: int, row: Row, at: int, failedAt: int, stamp: int) returns (t: State)
    requires Sole(s, clock, row, Holding(stamp, Refused(failedAt)), Idle) && clock <= at
    ensures Step(s, MarkRefused(0, Applied, "refused", at)) == Some(t)
    ensures Sole(t, at, AsFailed(row, "refused", at, failedAt + RetryBackoff(1)), Idle, Idle)
  {
    t := Step(s, MarkRefused(0, Applied, "refused", at)).value;
  }

  ghost predicate Follows(s: State, a: seq<Action>, ts: seq<State>, k: nat)
    requires |a| == |ts|
  {
    k < |a| && Step(if k == 0 then s else ts[k - 1], a[k]) == Some(ts[k])
  }

  lemma {:induction false} RunSteps(s: State, a: seq<Action>, ts: seq<State>)
    requires |a| == |ts|
    requires forall k :: 0 <= k < |a| ==> Follows(s, a, ts, k)
    ensures RunAll(s, a) == Some(if a == [] then s else ts[|ts| - 1])
    decreases |a|
  {
    hide Step;
    if a != [] {
      var n := |a| - 1;
      forall k | 0 <= k < n ensures Follows(s, a[..n], ts[..n], k) {
        assert Follows(s, a, ts, k);
      }
      RunSteps(s, a[..n], ts[..n]);
      assert Follows(s, a, ts, n);
    }
  }

  // Worker 0 claims row 7 and its publish is refused; before it marks the failure five minutes
  // pass; worker 1 claims the row, publishes it and marks it sent; then worker 0's MarkFailed
  // commits, and the sent row is failed and due again.
  lemma {:induction false} SlowWorkerRevivesSentRow() returns (s: State, actions: seq<Action>)
    ensures Initial(s) && actions != []
    ensures var before := RunAll(s, actions[..|actions| - 1]);
            before.Some? && 7 in before.value.rows && before.value.rows[7].status == Sent
    ensures var after := RunAll(s, actions);
            after.Some? && 7 in after.value.rows && after.value.rows[7].status == Status.Failed
  {
    hide RunAll, Step, Eligible, RetryBackoff;
    s := OutboxProtocol.State(0, map[], map[], [Idle, Idle]);
    var fresh0, slow := Created(0), Holding(0, Refused(1));
    var claimed := AsProcessing(fresh0, 0);
    var reclaimed := AsProcessing(claimed, LEASE);
    assert Eligible(fresh0, 0) && Eligible(claimed, LEASE) by { DueAgain(0); }
    var t1 := SoleInsert(s);
    var t2 := SoleClaims(t1, 0, 0, fresh0, 0, Idle, Idle);
    var t3 := SolePublish(t2, 0, 0, claimed, 1, false, Holding(0, ToPublish), Idle, 0);
    var t4 := SoleClaims(t3, 1, 1, claimed, LEASE, slow, Idle);
    var t5 := SolePublish(t4, 1, LEASE, reclaimed, LEASE, true, slow, Holding(LEASE, ToPublish), LEASE);
    var t6 := SoleMarkSent(t5, LEASE, reclaimed, LEASE, slow, LEASE);
    var t7 := SoleMarkFailed(t6, LEASE, AsSent(reclaimed, LEASE), LEASE, 1, 0);
    actions := [Insert(7, 0), SoleClaim(0, 0), PublishOne(0, false, 1), SoleClaim(1, LEASE), PublishOne(1, true, LEASE),
                MarkDelivered(1, Applied, LEASE), MarkRefused(0, Applied, "refused", LEASE)];
    RunSteps(s, actions, [t1, t2, t3, t4, t5, t6, t7]);
    RunSteps(s, actions[..6], [t1, t2, t3, t4, t5, t6]);
  }

  lemma DueAgain(at: int)
    ensures Eligible(Created(at), at) && Eligible(AsProcessing(Created(at), at), at + LEASE)
  {
  }
}
