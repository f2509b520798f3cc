/**
 Exactly when a sent row stays sent, with no lease assumed. The marks carry no status guard, so
 what matters is only whether some worker still has a claim of the row that it could refuse.
 */
module OutboxRevival {
  import opened Wrappers
  import opened OutboxRepository
  import opened OutboxWorker
  import opened OutboxProtocol
  import opened OutboxLease

  // Worker w still has a claim of the row, and not as a message it has already delivered.
  ghost predicate MayRefuse(s: State, w: nat, j: nat, id: Id) {
    && Holds(s, w, j) && HeldClaim(s, w, j).id == id
    && !(j == s.crews[w].i && s.crews[w].stage.Delivered?)
  }

  ghost predicate StaysSent(s: State, actions: seq<Action>, id: Id) {
    RunAll(s, actions).Some? ==>
      id in RunAll(s, actions).value.rows && RunAll(s, actions).value.rows[id].status == Sent
  }

  // Nobody can refuse the row any more.
  ghost predicate Settled(s: State, id: Id) {
    && Inv(s) && id in s.rows && s.rows[id].status == Sent
    && forall w, j :: !MayRefuse(s, w, j, id)
  }

  // No query finds a sent row.
  lemma SentIsNotClaimed(s: State, a: Action, id: Id)
    requires a.ClaimBatch? && Step(s, a).Some? && id in s.rows && s.rows[id].status == Sent
    ensures id in Step(s, a).value.rows && Step(s, a).value.rows[id] == s.rows[id]
    ensures forall k :: 0 <= k < |a.picked| ==> a.picked[k] != id
  {
    ClaimStep(s, a);
    hide Step, ClaimRows;
    ClaimedRow(s, a.picked, a.stamp, id);
  }

  lemma ClaimKeepsSettled(s: State, a: Action, id: Id)
    requires Settled(s, id) && a.ClaimBatch? && Step(s, a).Some?
    ensures Settled(Step(s, a).value, id)
  {
    hide Step, Inv, Eligible, ClaimRows;
    var t := Step(s, a).value;
    StepKeepsInv(s, a);
    ClaimStep(s, a);
    SentIsNotClaimed(s, a, id);
    forall w, j ensures !MayRefuse(t, w, j, id) {
      assert !MayRefuse(s, w, j, id);
    }
  }

  // Of its own current message a worker with a settled row can only mark or drop the delivery.
  lemma CurrentStaysSettled(s: State, a: Action, id: Id)
    requires Settled(s, id) && ByWorker(a) && Step(s, a).Some? && CurrentId(s.crews[a.w]) == id
    ensures var t := Step(s, a).value;
            && id in t.rows && t.rows[id].status == Sent
            && |t.crews| == |s.crews| && !Holds(t, a.w, s.crews[a.w].i)
  {
    assert CrewOk(s, s.crews[a.w]);
    assert !MayRefuse(s, a.w, s.crews[a.w].i, id);
    hide Inv;
  }

  lemma WorkerKeepsSettled(s: State, a: Action, id: Id)
    requires Settled(s, id) && ByWorker(a) && Step(s, a).Some?
    ensures Settled(Step(s, a).value, id)
  {
    var t, i := Step(s, a).value, s.crews[a.w].i;
    StepKeepsInv(s, a);
    WorkerStep(s, a);
    assert CrewOk(s, s.crews[a.w]);
    if CurrentId(s.crews[a.w]) == id { CurrentStaysSettled(s, a, id); }
    hide Inv, Step;
    forall w, j ensures !MayRefuse(t, w, j, id) {
      assert !MayRefuse(s, w, j, id);
    }
  }

  lemma StepKeepsSettled(s: State, a: Action, id: Id)
    requires Settled(s, id) && Step(s, a).Some?
    ensures Settled(Step(s, a).value, id)
  {
    if a.ClaimBatch? {
      ClaimKeepsSettled(s, a, id);
    } else if ByWorker(a) {
      WorkerKeepsSettled(s, a, id);
    } else {
      StepKeepsInv(s, a);
      hide Inv;
      forall w, j ensures !MayRefuse(Step(s, a).value, w, j, id) {
        assert !MayRefuse(s, w, j, id);
      }
    }
  }

  lemma {:induction false} RunKeepsSettled(s: State, actions: seq<Action>, id: Id)
    requires Settled(s, id) && RunAll(s, actions).Some?
    ensures Settled(RunAll(s, actions).value, id)
    decreases |actions|
  {
    hide Settled, Step;
    if actions != [] {
      RunKeepsSettled(s, actions[..|actions| - 1], id);
      StepKeepsSettled(RunAll(s, actions[..|actions| - 1]).value, actions[|actions| - 1], id);
    }
  }

  // Running one more action first.
  lemma {:induction false} RunFirst(s: State, a: Action, t: State, rest: seq<Action>)
    requires Step(s, a) == Some(t)
    ensures RunAll(s, [a] + rest) == RunAll(t, rest)
    decreases |rest|
  {
    hide Step;
    if rest == [] {
      assert [a] + rest == [a] && [a][..0] == [];
      assert RunAll(s, []) == Some(s);
    } else {
      assert ([a] + rest)[..|rest|] == [a] + rest[..|rest| - 1];
      RunFirst(s, a, t, rest[..|rest| - 1]);
    }
  }

  // What worker w does next on its way to refusing claim j.
  function NextMove(s: State, w: nat, j: nat): Action
    requires Holds(s, w, j)
  {
    match s.crews[w].stage
    case ToPublish => PublishOne(w, false, s.clock)
    case Delivered => MarkDelivered(w, Applied, s.clock)
    case Refused(_) => MarkRefused(w, if j == s.crews[w].i then Applied else Lost, "refused", s.clock)
  }

  // The move either makes the row fail or leaves the worker nearer to it.
  lemma MoveOn(s: State, w: nat, j: nat, id: Id) returns (t: State)
    requires Inv(s) && MayRefuse(s, w, j, id)
    ensures Step(s, NextMove(s, w, j)) == Some(t) && Inv(t)
    ensures if j == s.crews[w].i && s.crews[w].stage.Refused? then id in t.rows && t.rows[id].status == Status.Failed
            else MayRefuse(t, w, j, id) && MovesLeft(t, w, j) < MovesLeft(s, w, j)
  {
    assert CrewOk(s, s.crews[w]);
    t := Step(s, NextMove(s, w, j)).value;
    StepKeepsInv(s, NextMove(s, w, j));
  }

  function MovesLeft(s: State, w: nat, j: nat): nat
    requires Holds(s, w, j)
  {
    2 * (j - s.crews[w].i) + if s.crews[w].stage.ToPublish? then 1 else 0
  }

  // A worker that may refuse a claim can go through its batch up to it and fail its row.
  lemma {:induction false} Refuses(s: State, w: nat, j: nat, id: Id) returns (actions: seq<Action>)
    requires Inv(s) && MayRefuse(s, w, j, id)
    ensures RunAll(s, actions).Some? && !StaysSent(s, actions, id)
    decreases MovesLeft(s, w, j)
  {
    var a := NextMove(s, w, j);
    var t := MoveOn(s, w, j, id);
    hide Step, Inv;
    if j == s.crews[w].i && s.crews[w].stage.Refused? {
      actions := [a];
      RunFirst(s, a, t, []);
      assert [a] + [] == [a];
      assert RunAll(t, []) == Some(t);
    } else {
      var rest := Refuses(t, w, j, id);
      actions := [a] + rest;
      RunFirst(s, a, t, rest);
    }
  }

  // A row that is sent stays sent in every run from here exactly if no worker holds a claim of it
  // that it has not just delivered.
  lemma SentIsFinalIff(s: State, id: Id)
    requires Inv(s) && id in s.rows && s.rows[id].status == Sent
    ensures (forall actions :: StaysSent(s, actions, id)) <==> (forall w, j :: !MayRefuse(s, w, j, id))
  {
    hide Inv, Step, RunAll;
    if w, j :| MayRefuse(s, w, j, id) {
      var actions := Refuses(s, w, j, id);
      assert !StaysSent(s, actions, id);
    } else {
      forall actions ensures StaysSent(s, actions, id) {
        if RunAll(s, actions).Some? { RunKeepsSettled(s, actions, id); }
      }
    }
  }

  // Under the lease no such claim exists: the holders of a sent row are none.
  lemma LeaseSettles(s: State, actions: seq<Action>, id: Id)
    requires Initial(s) && Respects(s, actions)
    requires id in RunAll(s, actions).value.rows && RunAll(s, actions).value.rows[id].status == Sent
    ensures Settled(RunAll(s, actions).value, id)
  {
    RunKeepsLeaseInv(s, actions);
    hide RunAll, Respects, Initial;
    var t := RunAll(s, actions).value;
    forall w, j ensures !MayRefuse(t, w, j, id) {
      if Holds(t, w, j) { assert HeldRow(t, w, j); }
    }
  }
}
