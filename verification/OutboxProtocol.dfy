/**
 The outbox with any number of workers: inserts, claims, publishes, marks, crashes and the clock
 interleave freely. A claim transaction is one action (its rows stay locked from the query to
 the commit), and so is each publish and each mark.
 */
module OutboxProtocol {
  import opened Wrappers
  import opened OutboxRepository
  import opened OutboxWorker

  // A picked message: the attempt count it was read with and its claim stamp.
  datatype Claim = Claim(id: Id, attempts: nat, stamp: int)

  // Where the worker is with its current message.
  datatype Stage = ToPublish | Delivered | Refused(failedAt: int)

  datatype Crew = Idle | Busy(batch: seq<Claim>, i: nat, stage: Stage)

  // What has happened to one row: committed claims, successful and refused publishes, claims
  // dropped before publishing, successful publishes whose mark was lost, the times and the errors
  // of the committed failures, when it was inserted and when it was last marked as sent.
  datatype History = History(
    claims: nat, published: nat, refused: nat, dropped: nat, lostMarks: nat, failures: seq<int>,
    errors: seq<string>, inserted: int, sentAt: Option<int>)

  datatype State = State(clock: int, rows: map<Id, Row>, history: map<Id, History>, crews: seq<Crew>)

  // What became of a mark's transaction: it took effect and said so, it did not take effect, or
  // it took effect and reported an error.
  datatype Outcome = Applied | Lost | AppliedUnseen

  datatype Action =
    | Insert(id: Id, at: int)
    | Wait(at: int)
    // The query ran at `pickNow`, row k was stamped stamp(k), and the commit came at `at`.
    | ClaimBatch(w: nat, picked: seq<Id>, locked: set<Id>, pickNow: int, stamp: nat -> int, seen: bool, at: int)
    | PublishOne(w: nat, ok: bool, at: int)
    | MarkDelivered(w: nat, outcome: Outcome, at: int)
    | MarkRefused(w: nat, outcome: Outcome, error: string, at: int)
    | Crash(w: nat)

  function ClaimsOf(rows: map<Id, Row>, picked: seq<Id>, stamp: nat -> int): (cs: seq<Claim>)
    requires AllIn(picked, rows)
    ensures |cs| == |picked|
    ensures forall i :: 0 <= i < |cs| ==> cs[i] == Claim(picked[i], rows[picked[i]].attempts, stamp(i))
  {
    seq(|picked|, i requires 0 <= i < |picked| => Claim(picked[i], rows[picked[i]].attempts, stamp(i)))
  }

  function Advanced(c: Crew): Crew
    requires c.Busy? && c.i < |c.batch|
  {
    if c.i + 1 == |c.batch| then Idle else Busy(c.batch, c.i + 1, ToPublish)
  }

  function CurrentId(c: Crew): Id
    requires c.Busy? && c.i < |c.batch|
  {
    c.batch[c.i].id
  }

  // Claims of `id` in the batch from position i on.
  function Waiting(batch: seq<Claim>, i: nat, id: Id): nat
    decreases |batch| - i
  {
    if i >= |batch| then 0 else (if batch[i].id == id then 1 else 0) + Waiting(batch, i + 1, id)
  }

  // Claims of `id` this worker holds and has not tried to publish.
  function Untried(c: Crew, id: Id): nat {
    if c.Idle? then 0 else Waiting(c.batch, if c.stage.ToPublish? then c.i else c.i + 1, id)
  }

  function AllUntried(crews: seq<Crew>, id: Id): nat {
    if crews == [] then 0 else Untried(crews[0], id) + AllUntried(crews[1..], id)
  }

  ghost predicate Working(s: State, w: nat, at: int) {
    && w < |s.crews| && s.crews[w].Busy? && s.crews[w].i < |s.crews[w].batch|
    && CurrentId(s.crews[w]) in s.rows && CurrentId(s.crews[w]) in s.history
    && s.clock <= at
  }

  // Histories after a worker gives up its claims from position i on.
  function Dropped(history: map<Id, History>, batch: seq<Claim>, i: nat): map<Id, History> {
    map id | id in history :: history[id].(dropped := history[id].dropped + Waiting(batch, i, id))
  }

  ghost function Step(s: State, a: Action): Option<State> {
    match a
    case Insert(id, at) =>
      if id in s.rows || at < s.clock then None
      else Some(s.(clock := at, rows := s.rows[id := Created(at)], history := s.history[id := History(0, 0, 0, 0, 0, [], [], at, None)]))
    case Wait(at) =>
      if at < s.clock then None else Some(s.(clock := at))
    case ClaimBatch(w, picked, locked, pickNow, stamp, seen, at) =>
      if w >= |s.crews| || !s.crews[w].Idle? || at < s.clock
         || !IsPick(s.rows, locked, pickNow, BATCH_SIZE, picked)
         || exists k :: 0 <= k < |picked| && !(pickNow <= stamp(k) <= at) then None
      else
        var batch := ClaimsOf(s.rows, picked, stamp);
        var history := map id | id in s.history :: s.history[id].(
          claims := s.history[id].claims + Waiting(batch, 0, id),
          dropped := s.history[id].dropped + (if seen then 0 else Waiting(batch, 0, id)));
        Some(s.(clock := at, rows := ClaimRows(s.rows, picked, stamp, |picked|), history := history,
                crews := s.crews[w := if seen && picked != [] then Busy(batch, 0, ToPublish) else Idle]))
    case PublishOne(w, ok, at) =>
      if !Working(s, w, at) || !s.crews[w].stage.ToPublish? then None
      else
        var id, h := CurrentId(s.crews[w]), s.history[CurrentId(s.crews[w])];
        Some(s.(clock := at,
                history := s.history[id := if ok then h.(published := h.published + 1) else h.(refused := h.refused + 1)],
                crews := s.crews[w := s.crews[w].(stage := if ok then Delivered else Refused(at))]))
    case MarkDelivered(w, outcome, at) =>
      if !Working(s, w, at) || !s.crews[w].stage.Delivered? then None
      else
        var c, id := s.crews[w], CurrentId(s.crews[w]);
        var h := s.history[id];
        var marked :=
          if outcome.Lost? then s.(clock := at)
          else s.(clock := at, rows := s.rows[id := AsSent(s.rows[id], at)], history := s.history[id := h.(sentAt := Some(at))]);
        if outcome.Applied? then Some(marked.(crews := s.crews[w := Advanced(c)]))
        else  // the worker returns the error: the rest of the batch is dropped
          var lost := if outcome.Lost? then s.history[id := h.(lostMarks := h.lostMarks + 1)] else marked.history;
          Some(marked.(history := Dropped(lost, c.batch, c.i + 1), crews := s.crews[w := Idle]))
    case MarkRefused(w, outcome, error, at) =>
      if !Working(s, w, at) || !s.crews[w].stage.Refused? then None
      else
        var c, id := s.crews[w], CurrentId(s.crews[w]);
        var h, failedAt := s.history[id], c.stage.failedAt;
        var nextAt := failedAt + RetryBackoff(c.batch[c.i].attempts + 1);
        var t := s.(clock := at, crews := s.crews[w := Advanced(c)]);
        Some(if outcome.Lost? then t
             else t.(rows := s.rows[id := AsFailed(s.rows[id], error, at, nextAt)],
                     history := s.history[id := h.(failures := h.failures + [failedAt], errors := h.errors + [error])]))
    case Crash(w) =>
      if w >= |s.crews| || !s.crews[w].Busy? || s.crews[w].i >= |s.crews[w].batch| || CurrentId(s.crews[w]) !in s.history then None
      else
        var c, id := s.crews[w], CurrentId(s.crews[w]);
        var h := s.history[id];
        var lost := if c.stage.Delivered? then s.history[id := h.(lostMarks := h.lostMarks + 1)] else s.history;
        Some(s.(history := Dropped(lost, c.batch, if c.stage.ToPublish? then c.i else c.i + 1),
                crews := s.crews[w := Idle]))
  }

  ghost function RunAll(s: State, actions: seq<Action>): Option<State>
    decreases |actions|
  {
    if actions == [] then Some(s)
    else
      var before := RunAll(s, actions[..|actions| - 1]);
      if before.None? then None else Step(before.value, actions[|actions| - 1])
  }

  ghost predicate Initial(s: State) {
    s.rows == map[] && s.history == map[] && forall w :: 0 <= w < |s.crews| ==> s.crews[w] == Idle
  }

  // ---- What always holds ----

  ghost predicate CrewOk(s: State, c: Crew) {
    c.Busy? ==>
      && c.i < |c.batch|
      && (forall i :: 0 <= i < |c.batch| ==> c.batch[i].id in s.rows)
      && (forall i, j :: 0 <= i < j < |c.batch| ==> c.batch[i].id != c.batch[j].id)
      && (c.stage.Delivered? ==> CurrentId(c) in s.history && s.history[CurrentId(c)].published > 0)
      && (c.stage.Refused? ==> c.stage.failedAt <= s.clock)
  }

  ghost predicate RowOk(s: State, id: Id)
    requires id in s.rows && id in s.history
  {
    var r, h := s.rows[id], s.history[id];
    && r.attempts == |h.failures|
    && (r.status == Sent ==> h.published > 0)
    && (r.status == Processing ==> r.updatedAt <= s.clock)
    && (r.status == Pending ==> r.createdAt <= s.clock)
    && (r.status == Failed ==> r.nextAt.Some? && r.nextAt.value <= s.clock + LEASE)
    && h.claims == h.published + h.refused + h.dropped + AllUntried(s.crews, id)
  }

  ghost predicate Inv(s: State) {
    && s.rows.Keys == s.history.Keys
    && (forall w :: 0 <= w < |s.crews| ==> CrewOk(s, s.crews[w]))
    && (forall id <- s.rows :: RowOk(s, id))
  }

  lemma {:induction false} UntriedUpdate(crews: seq<Crew>, w: nat, c: Crew, id: Id)
    requires w < |crews|
    ensures AllUntried(crews[w := c], id) == AllUntried(crews, id) - Untried(crews[w], id) + Untried(c, id)
  {
    if w == 0 {
      assert crews[w := c][1..] == crews[1..];
    } else {
      assert crews[w := c][1..] == crews[1..][w - 1 := c];
      UntriedUpdate(crews[1..], w - 1, c, id);
    }
  }

  lemma {:induction false} NothingWaiting(batch: seq<Claim>, i: nat, id: Id)
    ensures Waiting(batch, i, id) > 0 <==> exists j :: i <= j < |batch| && batch[j].id == id
    decreases |batch| - i
  {
    if i < |batch| { NothingWaiting(batch, i + 1, id); }
  }

  lemma {:induction false} IdleUntried(crews: seq<Crew>, id: Id)
    requires forall w :: 0 <= w < |crews| ==> CrewHasNot(crews[w], id)
    ensures AllUntried(crews, id) == 0
  {
    if crews != [] {
      assert CrewHasNot(crews[0], id);
      if crews[0].Busy? {
        NothingWaiting(crews[0].batch, if crews[0].stage.ToPublish? then crews[0].i else crews[0].i + 1, id);
      }
      IdleUntried(crews[1..], id);
    }
  }

  ghost predicate CrewHasNot(c: Crew, id: Id) {
    c.Busy? ==> forall i :: 0 <= i < |c.batch| ==> c.batch[i].id != id
  }

  lemma InitialInv(s: State)
    requires Initial(s)
    ensures Inv(s)
  {
  }

  lemma InsertKeepsInv(s: State, id: Id, at: int)
    requires Inv(s) && Step(s, Insert(id, at)).Some?
    ensures Inv(Step(s, Insert(id, at)).value)
  {
    var t := Step(s, Insert(id, at)).value;
    IdleUntried(s.crews, id);
    forall w | 0 <= w < |t.crews| ensures CrewOk(t, t.crews[w]) { assert CrewOk(s, s.crews[w]); }
    forall o | o in t.rows ensures RowOk(t, o) {
      if o != id { assert RowOk(s, o); }
    }
  }

  lemma WaitKeepsInv(s: State, at: int)
    requires Inv(s) && Step(s, Wait(at)).Some?
    ensures Inv(Step(s, Wait(at)).value)
  {
    var t := Step(s, Wait(at)).value;
    forall w | 0 <= w < |t.crews| ensures CrewOk(t, t.crews[w]) { assert CrewOk(s, s.crews[w]); }
    forall o | o in t.rows ensures RowOk(t, o) { assert RowOk(s, o); }
  }

  // Rows after a claim: picked ones are processing with their stamp, others are as they were.
  lemma ClaimedRow(s: State, picked: seq<Id>, stamp: nat -> int, id: Id)
    requires id in s.rows && AllIn(picked, s.rows)
    requires forall i, j :: 0 <= i < j < |picked| ==> picked[i] != picked[j]
    ensures var r := ClaimRows(s.rows, picked, stamp, |picked|);
            || (r[id] == s.rows[id] && forall k :: 0 <= k < |picked| ==> picked[k] != id)
            || exists k :: 0 <= k < |picked| && picked[k] == id && r[id] == AsProcessing(s.rows[id], stamp(k))
  {
    ClaimRowsAre(s.rows, picked, stamp, |picked|);
    if k :| 0 <= k < |picked| && picked[k] == id {
    }
  }

  // What a claim changes, apart from the histories.
  lemma ClaimStep(s: State, a: Action)
    requires a.ClaimBatch? && Step(s, a).Some?
    ensures a.w < |s.crews| && s.crews[a.w] == Idle && s.clock <= a.at
    ensures AllIn(a.picked, s.rows)
    ensures forall k :: 0 <= k < |a.picked| ==> Eligible(s.rows[a.picked[k]], a.pickNow) && a.pickNow <= a.stamp(k) <= a.at
    ensures forall i, j :: 0 <= i < j < |a.picked| ==> a.picked[i] != a.picked[j]
    ensures var t := Step(s, a).value;
            && t.clock == a.at && t.rows == ClaimRows(s.rows, a.picked, a.stamp, |a.picked|)
            && t.history.Keys == s.history.Keys
            && t.crews == s.crews[a.w :=
                 if a.seen && a.picked != [] then Busy(ClaimsOf(s.rows, a.picked, a.stamp), 0, ToPublish) else Idle]
  {
  }

  lemma ClaimKeepsInv(s: State, a: Action)
    requires a.ClaimBatch? && Inv(s) && Step(s, a).Some?
    ensures Inv(Step(s, a).value)
  {
    var t := Step(s, a).value;
    var batch := ClaimsOf(s.rows, a.picked, a.stamp);
    forall w | 0 <= w < |t.crews| ensures CrewOk(t, t.crews[w]) {
      if w != a.w { assert CrewOk(s, s.crews[w]); }
    }
    forall id | id in t.rows ensures RowOk(t, id) {
      assert RowOk(s, id);
      UntriedUpdate(s.crews, a.w, t.crews[a.w], id);
      ClaimedRow(s, a.picked, a.stamp, id);
    }
  }

  lemma PublishKeepsRow(s: State, w: nat, ok: bool, at: int, id: Id)
    requires Inv(s) && Step(s, PublishOne(w, ok, at)).Some? && id in s.rows
    ensures var t := Step(s, PublishOne(w, ok, at)).value; id in t.rows && id in t.history && RowOk(t, id)
  {
    assert CrewOk(s, s.crews[w]) && RowOk(s, id);
    hide Inv, CrewOk;
    UntriedUpdate(s.crews, w, Step(s, PublishOne(w, ok, at)).value.crews[w], id);
  }

  lemma PublishKeepsInv(s: State, w: nat, ok: bool, at: int)
    requires Inv(s) && Step(s, PublishOne(w, ok, at)).Some?
    ensures Inv(Step(s, PublishOne(w, ok, at)).value)
  {
    var t := Step(s, PublishOne(w, ok, at)).value;
    assert CrewOk(s, s.crews[w]);
    forall id | id in s.rows ensures id in t.rows && id in t.history && RowOk(t, id) {
      PublishKeepsRow(s, w, ok, at, id);
    }
    hide RowOk;
    forall v | 0 <= v < |t.crews| ensures CrewOk(t, t.crews[v]) { assert CrewOk(s, s.crews[v]); }
  }

  lemma MarkDeliveredKeepsRow(s: State, w: nat, outcome: Outcome, at: int, id: Id)
    requires Inv(s) && Step(s, MarkDelivered(w, outcome, at)).Some? && id in s.rows
    ensures var t := Step(s, MarkDelivered(w, outcome, at)).value; id in t.rows && id in t.history && RowOk(t, id)
  {
    assert CrewOk(s, s.crews[w]) && RowOk(s, id);
    hide Inv, CrewOk;
    UntriedUpdate(s.crews, w, Step(s, MarkDelivered(w, outcome, at)).value.crews[w], id);
  }

  lemma MarkDeliveredKeepsInv(s: State, w: nat, outcome: Outcome, at: int)
    requires Inv(s) && Step(s, MarkDelivered(w, outcome, at)).Some?
    ensures Inv(Step(s, MarkDelivered(w, outcome, at)).value)
  {
    var t := Step(s, MarkDelivered(w, outcome, at)).value;
    assert CrewOk(s, s.crews[w]);
    forall id | id in s.rows ensures id in t.rows && id in t.history && RowOk(t, id) {
      MarkDeliveredKeepsRow(s, w, outcome, at, id);
    }
    hide RowOk;
    forall v | 0 <= v < |t.crews| ensures CrewOk(t, t.crews[v]) { assert CrewOk(s, s.crews[v]); }
  }

  lemma MarkRefusedKeepsRow(s: State, w: nat, outcome: Outcome, error: string, at: int, id: Id)
    requires Inv(s) && Step(s, MarkRefused(w, outcome, error, at)).Some? && id in s.rows
    ensures var t := Step(s, MarkRefused(w, outcome, error, at)).value; id in t.rows && id in t.history && RowOk(t, id)
  {
    assert CrewOk(s, s.crews[w]) && RowOk(s, id);
    hide Inv, CrewOk;
    UntriedUpdate(s.crews, w, Step(s, MarkRefused(w, outcome, error, at)).value.crews[w], id);
  }

  lemma MarkRefusedKeepsInv(s: State, w: nat, outcome: Outcome, error: string, at: int)
    requires Inv(s) && Step(s, MarkRefused(w, outcome, error, at)).Some?
    ensures Inv(Step(s, MarkRefused(w, outcome, error, at)).value)
  {
    var t := Step(s, MarkRefused(w, outcome, error, at)).value;
    assert CrewOk(s, s.crews[w]);
    forall id | id in s.rows ensures id in t.rows && id in t.history && RowOk(t, id) {
      MarkRefusedKeepsRow(s, w, outcome, error, at, id);
    }
    hide RowOk;
    forall v | 0 <= v < |t.crews| ensures CrewOk(t, t.crews[v]) { assert CrewOk(s, s.crews[v]); }
  }

  lemma CrashKeepsInv(s: State, w: nat)
    requires Inv(s) && Step(s, Crash(w)).Some?
    ensures Inv(Step(s, Crash(w)).value)
  {
    var t := Step(s, Crash(w)).value;
    assert CrewOk(s, s.crews[w]);
    forall v | 0 <= v < |t.crews| ensures CrewOk(t, t.crews[v]) { assert CrewOk(s, s.crews[v]); }
    forall id | id in t.rows ensures RowOk(t, id) {
      assert RowOk(s, id);
      UntriedUpdate(s.crews, w, t.crews[w], id);
    }
  }

  lemma StepKeepsInv(s: State, a: Action)
    requires Inv(s) && Step(s, a).Some?
    ensures Inv(Step(s, a).value)
  {
    hide Inv, Step;
    match a
    case Insert(id, at) => InsertKeepsInv(s, id, at);
    case Wait(at) => WaitKeepsInv(s, at);
    case ClaimBatch(_, _, _, _, _, _, _) => ClaimKeepsInv(s, a);
    case PublishOne(w, ok, at) => PublishKeepsInv(s, w, ok, at);
    case MarkDelivered(w, outcome, at) => MarkDeliveredKeepsInv(s, w, outcome, at);
    case MarkRefused(w, outcome, error, at) => MarkRefusedKeepsInv(s, w, outcome, error, at);
    case Crash(w) => CrashKeepsInv(s, w);
  }

  lemma {:induction false} RunKeepsInv(s: State, actions: seq<Action>)
    requires Initial(s) && RunAll(s, actions).Some?
    ensures Inv(RunAll(s, actions).value)
    decreases |actions|
  {
    hide Inv, Step, Initial;
    if actions == [] {
      InitialInv(s);
    } else {
      RunKeepsInv(s, actions[..|actions| - 1]);
      StepKeepsInv(RunAll(s, actions[..|actions| - 1]).value, actions[|actions| - 1]);
    }
  }

  // Whatever the interleaving and however slow the workers, each committed claim of a row ends
  // in exactly one successful publish, refused publish or drop, or is still in some worker's
  // hands; so nothing is published without a claim of its own that committed before.
  lemma EveryPublishHasItsClaim(s: State, actions: seq<Action>, id: Id)
    requires Initial(s) && RunAll(s, actions).Some? && id in RunAll(s, actions).value.rows
    ensures var t := RunAll(s, actions).value;
            && id in t.history
            && t.history[id].published + t.history[id].refused + t.history[id].dropped + AllUntried(t.crews, id) ==
               t.history[id].claims
  {
    RunKeepsInv(s, actions);
    assert RowOk(RunAll(s, actions).value, id);
  }

  lemma SentMeansPublished(s: State, actions: seq<Action>, id: Id)
    requires Initial(s) && RunAll(s, actions).Some? && id in RunAll(s, actions).value.rows
    requires RunAll(s, actions).value.rows[id].status == Sent
    ensures id in RunAll(s, actions).value.history && RunAll(s, actions).value.history[id].published > 0
  {
    RunKeepsInv(s, actions);
    assert RowOk(RunAll(s, actions).value, id);
  }

  // Attempt counts are the committed failures, with or without slow workers.
  lemma AttemptsAreFailures(s: State, actions: seq<Action>, id: Id)
    requires Initial(s) && RunAll(s, actions).Some? && id in RunAll(s, actions).value.rows
    ensures var t := RunAll(s, actions).value;
            id in t.history && t.rows[id].attempts == |t.history[id].failures|
  {
    RunKeepsInv(s, actions);
    assert RowOk(RunAll(s, actions).value, id);
  }

  // Nothing gets stuck: every row that is not sent is eligible from some moment on, at most five
  // minutes from now, whatever marks were lost and whoever crashed; and it is eligible exactly
  // from that moment.
  lemma NothingGetsStuck(s: State, actions: seq<Action>, id: Id, now: int)
    requires Initial(s) && RunAll(s, actions).Some? && id in RunAll(s, actions).value.rows
    requires var t := RunAll(s, actions).value; t.rows[id].status != Sent && now >= t.clock
    ensures var t := RunAll(s, actions).value;
            && EligibleFrom(t.rows[id]) <= t.clock + LEASE
            && (Eligible(t.rows[id], now) <==> EligibleFrom(t.rows[id]) <= now)
  {
    RunKeepsInv(s, actions);
    assert RowOk(RunAll(s, actions).value, id);
  }
}
