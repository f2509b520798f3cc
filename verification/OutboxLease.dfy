/**
 What the five-minute lease buys. The marks carry no status guard, so the protocol alone lets a
 slow worker undo a sent row; if every claimed message is marked or given up within its lease,
 holders are unique, sent is final, publishes are counted exactly and retries keep their pace.
 */
module OutboxLease {
  import opened Wrappers
  import opened OutboxRepository
  import opened OutboxWorker
  import opened OutboxProtocol

  // Worker w has claim j of its batch and has not settled it.
  predicate Holds(s: State, w: nat, j: nat) {
    w < |s.crews| && s.crews[w].Busy? && s.crews[w].i <= j < |s.crews[w].batch|
  }

  function HeldClaim(s: State, w: nat, j: nat): Claim
    requires Holds(s, w, j)
  {
    s.crews[w].batch[j]
  }

  // No claim is held five minutes after its stamp.
  ghost predicate LeaseHeld(s: State) {
    forall w, j :: Holds(s, w, j) ==> s.clock < HeldClaim(s, w, j).stamp + LEASE
  }

  // Every state of the run keeps the lease.
  ghost predicate Respects(s: State, actions: seq<Action>)
    decreases |actions|
  {
    && RunAll(s, actions).Some? && LeaseHeld(RunAll(s, actions).value)
    && (actions != [] ==> Respects(s, actions[..|actions| - 1]))
  }

  // The row of a held claim is as the claim left it.
  ghost predicate HeldRow(s: State, w: nat, j: nat)
    requires Holds(s, w, j)
  {
    var c := HeldClaim(s, w, j);
    && c.id in s.rows
    && s.rows[c.id].status == Processing
    && s.rows[c.id].updatedAt == c.stamp
    && s.rows[c.id].attempts == c.attempts
    && (j == s.crews[w].i && s.crews[w].stage.Refused? ==> s.crews[w].stage.failedAt >= c.stamp)
    && c.stamp <= s.clock
  }

  ghost predicate HoldersUnique(s: State) {
    forall w, j, w', j' :: Holds(s, w, j) && Holds(s, w', j') && HeldClaim(s, w, j).id == HeldClaim(s, w', j').id ==>
      w == w' && j == j'
  }

  // Worker w has published message id and not marked it yet.
  predicate Delivering(s: State, w: nat, id: Id) {
    Holds(s, w, if w < |s.crews| && s.crews[w].Busy? then s.crews[w].i else 0)
    && s.crews[w].stage.Delivered? && CurrentId(s.crews[w]) == id
  }

  ghost predicate Delivered(s: State, id: Id) {
    exists w: nat :: Delivering(s, w, id)
  }

  // Each gap between failures is at least the backoff of its attempt.
  ghost predicate Paced(failures: seq<int>) {
    forall k :: 0 <= k < |failures| - 1 ==> failures[k] + RetryBackoff(k + 1) <= failures[k + 1]
  }

  ghost predicate Ledger(r: Row, h: History, delivered: bool) {
    var n := |h.failures|;
    && h.published == h.lostMarks + (if r.status == Sent then 1 else 0) + (if delivered then 1 else 0)
    && Paced(h.failures)
    && (r.status == Pending ==> n == 0)
    && (n > 0 && r.status == Failed ==> r.nextAt == Some(h.failures[n - 1] + RetryBackoff(n)))
    && (n > 0 && r.status == Processing ==> r.updatedAt >= h.failures[n - 1] + RetryBackoff(n))
  }

  ghost predicate LedgerOk(s: State, id: Id)
    requires id in s.rows && id in s.history
  {
    Ledger(s.rows[id], s.history[id], Delivered(s, id))
  }

  ghost predicate LeaseInv(s: State) {
    && Inv(s)
    && (forall w, j :: Holds(s, w, j) ==> HeldRow(s, w, j))
    && HoldersUnique(s)
    && (forall id <- s.rows :: LedgerOk(s, id))
  }

  // A pick finds no held row: a held row is processing and its lease has not run out.
  lemma PicksNothingHeld(s: State, a: Action, w: nat, j: nat, k: nat)
    requires LeaseInv(s) && a.ClaimBatch? && Step(s, a).Some? && LeaseHeld(Step(s, a).value)
    requires Holds(s, w, j) && k < |a.picked|
    ensures HeldClaim(s, w, j).id != a.picked[k]
  {
    var t := Step(s, a).value;
    assert HeldRow(s, w, j);
    assert t.crews[w] == s.crews[w];
    assert Holds(t, w, j);
    assert HeldClaim(t, w, j) == HeldClaim(s, w, j);
    assert a.pickNow <= a.stamp(k) <= a.at;
    assert Eligible(s.rows[a.picked[k]], a.pickNow);
    assert !Eligible(s.rows[HeldClaim(s, w, j).id], a.pickNow);
  }

  lemma ClaimKeepsHeldRows(s: State, a: Action, w: nat, j: nat)
    requires LeaseInv(s) && a.ClaimBatch? && Step(s, a).Some? && LeaseHeld(Step(s, a).value)
    requires Holds(Step(s, a).value, w, j)
    ensures HeldRow(Step(s, a).value, w, j)
  {
    ClaimStep(s, a);
    ClaimRowsAre(s.rows, a.picked, a.stamp, |a.picked|);
    if w != a.w {
      assert Holds(s, w, j) && HeldRow(s, w, j);
      forall k | 0 <= k < |a.picked| ensures HeldClaim(s, w, j).id != a.picked[k] {
        PicksNothingHeld(s, a, w, j, k);
      }
    }
    hide Step, Inv, LeaseHeld, HoldersUnique, LedgerOk, Eligible, ClaimRows, IsPick;
  }

  lemma ClaimKeepsUnique(s: State, a: Action)
    requires LeaseInv(s) && a.ClaimBatch? && Step(s, a).Some? && LeaseHeld(Step(s, a).value)
    ensures HoldersUnique(Step(s, a).value)
  {
    var t := Step(s, a).value;
    ClaimStep(s, a);
    hide Step, Inv, LeaseHeld, LedgerOk, Eligible, ClaimRows, IsPick, HeldRow;
    forall w, j, w', j' | Holds(t, w, j) && Holds(t, w', j') && HeldClaim(t, w, j).id == HeldClaim(t, w', j').id
      ensures w == w' && j == j'
    {
      if w != a.w {
        assert Holds(s, w, j);
        if w' == a.w { PicksNothingHeld(s, a, w, j, j'); } else { assert Holds(s, w', j'); }
      } else if w' != a.w {
        assert Holds(s, w', j');
        PicksNothingHeld(s, a, w', j', j);
      }
    }
  }

  lemma ClaimKeepsDelivered(s: State, a: Action, id: Id)
    requires LeaseInv(s) && a.ClaimBatch? && Step(s, a).Some? && LeaseHeld(Step(s, a).value)
    ensures Delivered(Step(s, a).value, id) <==> Delivered(s, id)
    ensures id in a.picked ==> !Delivered(s, id)
  {
    var t := Step(s, a).value;
    forall w: nat ensures Delivering(t, w, id) <==> Delivering(s, w, id) {
      if w < |s.crews| && w != a.w { assert t.crews[w] == s.crews[w]; }
    }
    if k :| 0 <= k < |a.picked| && a.picked[k] == id {
      forall w: nat ensures !Delivering(s, w, id) {
        if Delivering(s, w, id) { PicksNothingHeld(s, a, w, s.crews[w].i, k); }
      }
    }
  }

  lemma ClaimKeepsFailures(s: State, a: Action, id: Id)
    requires a.ClaimBatch? && Step(s, a).Some? && id in s.history
    ensures var h, h' := s.history[id], Step(s, a).value.history[id];
            h'.failures == h.failures && h'.published == h.published && h'.lostMarks == h.lostMarks
  {
  }

  lemma ClaimedLedger(r: Row, h: History, h': History, now: int, stamp: int)
    requires Ledger(r, h, false) && Eligible(r, now) && now <= stamp
    requires h'.failures == h.failures && h'.published == h.published && h'.lostMarks == h.lostMarks
    ensures Ledger(AsProcessing(r, stamp), h', false)
  {
  }

  lemma ClaimKeepsLedger(s: State, a: Action, id: Id)
    requires LeaseInv(s) && a.ClaimBatch? && Step(s, a).Some? && LeaseHeld(Step(s, a).value)
    requires id in s.rows
    ensures var t := Step(s, a).value; id in t.rows && id in t.history && LedgerOk(t, id)
  {
    var t := Step(s, a).value;
    assert id in s.history && LedgerOk(s, id);
    ClaimKeepsDelivered(s, a, id);
    ClaimStep(s, a);
    ClaimedRow(s, a.picked, a.stamp, id);
    ClaimKeepsFailures(s, a, id);
    hide Step, Inv, LeaseInv, LeaseHeld, Delivered, IsPick, ClaimRows, Ledger, Eligible;
    if k :| 0 <= k < |a.picked| && a.picked[k] == id && t.rows[id] == AsProcessing(s.rows[id], a.stamp(k)) {
      ClaimedLedger(s.rows[id], s.history[id], t.history[id], a.pickNow, a.stamp(k));
    } else {
      SameLedger(t.rows[id], s.history[id], t.history[id], Delivered(s, id));
    }
  }

  lemma SameLedger(r: Row, h: History, h': History, delivered: bool)
    requires Ledger(r, h, delivered)
    requires h'.failures == h.failures && h'.published == h.published && h'.lostMarks == h.lostMarks
    ensures Ledger(r, h', delivered)
  {
  }

  lemma ClaimKeepsLeaseInv(s: State, a: Action)
    requires LeaseInv(s) && a.ClaimBatch? && Step(s, a).Some? && LeaseHeld(Step(s, a).value)
    ensures LeaseInv(Step(s, a).value)
  {
    StepKeepsInv(s, a);
    ClaimKeepsUnique(s, a);
    var t := Step(s, a).value;
    forall w, j | Holds(t, w, j) ensures HeldRow(t, w, j) { ClaimKeepsHeldRows(s, a, w, j); }
    forall id | id in s.rows ensures LedgerOk(Step(s, a).value, id) { ClaimKeepsLedger(s, a, id); }
  }

  // The worker an action is by, when it is about the worker's current message.
  predicate ByWorker(a: Action) {
    a.PublishOne? || a.MarkDelivered? || a.MarkRefused? || a.Crash?
  }

  // Such an action only takes claims out of that worker's hands, and changes only the row of its
  // current message, which it then no longer holds.
  lemma WorkerStep(s: State, a: Action)
    requires Inv(s) && ByWorker(a) && Step(s, a).Some?
    ensures var t := Step(s, a).value;
            && Holds(s, a.w, s.crews[a.w].i)
            && (forall w, j :: Holds(t, w, j) ==> Holds(s, w, j) && HeldClaim(t, w, j) == HeldClaim(s, w, j))
            && |t.crews| == |s.crews| && (forall w :: 0 <= w < |s.crews| && w != a.w ==> t.crews[w] == s.crews[w])
            && (forall id <- s.rows :: id != CurrentId(s.crews[a.w]) ==> id in t.rows && t.rows[id] == s.rows[id])
            && (t.rows != s.rows ==> !Holds(t, a.w, s.crews[a.w].i))
  {
  }

  lemma WorkerKeepsHolders(s: State, a: Action)
    requires LeaseInv(s) && ByWorker(a) && Step(s, a).Some?
    ensures var t := Step(s, a).value;
            (forall w, j :: Holds(t, w, j) ==> HeldRow(t, w, j)) && HoldersUnique(t)
  {
    var t, i := Step(s, a).value, s.crews[a.w].i;
    WorkerStep(s, a);
    forall w, j | Holds(t, w, j) ensures HeldRow(t, w, j) {
      assert Holds(s, w, j) && HeldRow(s, w, j);
      if t.rows != s.rows {
        assert HeldClaim(s, w, j).id != HeldClaim(s, a.w, i).id;
      }
    }
  }

  lemma WorkerMovesDelivery(s: State, a: Action, id: Id)
    requires LeaseInv(s) && ByWorker(a) && Step(s, a).Some?
    ensures var t := Step(s, a).value;
            if id == CurrentId(s.crews[a.w])
            then (Delivered(s, id) <==> s.crews[a.w].stage.Delivered?) && (Delivered(t, id) <==> a.PublishOne? && a.ok)
            else Delivered(t, id) <==> Delivered(s, id)
  {
    var t := Step(s, a).value;
    WorkerStep(s, a);
    forall w: nat ensures w != a.w ==> (Delivering(s, w, id) <==> Delivering(t, w, id)) {}
    if id == CurrentId(s.crews[a.w]) {
      forall w: nat | Delivering(s, w, id) ensures w == a.w {
        assert Holds(s, w, s.crews[w].i);
      }
      assert Delivering(s, a.w, id) <==> s.crews[a.w].stage.Delivered?;
      assert Delivering(t, a.w, id) <==> a.PublishOne? && a.ok;
    } else {
      assert !Delivering(s, a.w, id) && !Delivering(t, a.w, id);
    }
  }

  // An entry of the ledger is unmoved when its row, delivery and counts are.
  lemma LedgerUnmoved(s: State, t: State, id: Id)
    requires id in s.rows && id in s.history && LedgerOk(s, id)
    requires id in t.rows && id in t.history && t.rows[id] == s.rows[id]
    requires var h, h' := s.history[id], t.history[id];
             h'.failures == h.failures && h'.published - h.published == h'.lostMarks - h.lostMarks +
               (if Delivered(t, id) then 1 else 0) - (if Delivered(s, id) then 1 else 0)
    ensures LedgerOk(t, id)
  {
  }

  // Publishing and crashing move no row.
  lemma PublishOrCrashKeepsLedger(s: State, a: Action, id: Id)
    requires LeaseInv(s) && (a.PublishOne? || a.Crash?) && Step(s, a).Some? && id in s.rows
    ensures var t := Step(s, a).value; id in t.rows && id in t.history && LedgerOk(t, id)
  {
    WorkerMovesDelivery(s, a, id);
    assert LedgerOk(s, id);
    hide Delivered, HoldersUnique, HeldRow, LedgerOk, RowOk, CrewOk, Paced;
    LedgerUnmoved(s, Step(s, a).value, id);
  }

  lemma MarkDeliveredKeepsLedger(s: State, a: Action, id: Id)
    requires LeaseInv(s) && a.MarkDelivered? && Step(s, a).Some? && id in s.rows
    ensures var t := Step(s, a).value; id in t.rows && id in t.history && LedgerOk(t, id)
  {
    WorkerMovesDelivery(s, a, id);
    assert LedgerOk(s, id);
    if id != CurrentId(s.crews[a.w]) || a.outcome.Lost? {
      hide Delivered, HoldersUnique, HeldRow, LedgerOk, RowOk, CrewOk, Paced;
      LedgerUnmoved(s, Step(s, a).value, id);
    } else {
      assert HeldRow(s, a.w, s.crews[a.w].i) by { WorkerStep(s, a); }
      hide Delivered, HoldersUnique, RowOk, CrewOk, Paced, LeaseInv;
    }
  }

  lemma MarkRefusedKeepsLedger(s: State, a: Action, id: Id)
    requires LeaseInv(s) && a.MarkRefused? && Step(s, a).Some? && id in s.rows
    ensures var t := Step(s, a).value; id in t.rows && id in t.history && LedgerOk(t, id)
  {
    WorkerMovesDelivery(s, a, id);
    assert LedgerOk(s, id);
    if id != CurrentId(s.crews[a.w]) || a.outcome.Lost? {
      hide Delivered, HoldersUnique, HeldRow, LedgerOk, RowOk, CrewOk, Paced;
      LedgerUnmoved(s, Step(s, a).value, id);
    } else {
      assert HeldRow(s, a.w, s.crews[a.w].i) by { WorkerStep(s, a); }
      assert s.rows[id].attempts == |s.history[id].failures| by { assert RowOk(s, id); }
      hide Delivered, HoldersUnique, RowOk, CrewOk, LeaseInv;
    }
  }

  lemma WorkerKeepsLedger(s: State, a: Action, id: Id)
    requires LeaseInv(s) && ByWorker(a) && Step(s, a).Some? && id in s.rows
    ensures var t := Step(s, a).value; id in t.rows && id in t.history && LedgerOk(t, id)
  {
    hide LeaseInv, Step, LedgerOk;
    if a.MarkDelivered? {
      MarkDeliveredKeepsLedger(s, a, id);
    } else if a.MarkRefused? {
      MarkRefusedKeepsLedger(s, a, id);
    } else {
      PublishOrCrashKeepsLedger(s, a, id);
    }
  }

  lemma QuietKeepsLeaseInv(s: State, a: Action)
    requires LeaseInv(s) && (a.Insert? || a.Wait?) && Step(s, a).Some?
    ensures LeaseInv(Step(s, a).value)
  {
    StepKeepsInv(s, a);
    var t := Step(s, a).value;
    forall w, j | Holds(t, w, j) ensures HeldRow(t, w, j) {
      assert Holds(s, w, j) && HeldRow(s, w, j);
    }
    forall w, j, w', j' | Holds(t, w, j) && Holds(t, w', j') && HeldClaim(t, w, j).id == HeldClaim(t, w', j').id
      ensures w == w' && j == j'
    {
      assert Holds(s, w, j) && Holds(s, w', j');
    }
    forall id | id in t.rows ensures LedgerOk(t, id) {
      forall w: nat ensures Delivering(t, w, id) <==> Delivering(s, w, id) {}
      forall w: nat | Delivering(s, w, id) ensures id in s.rows {
        assert HeldRow(s, w, s.crews[w].i);
      }
      if id in s.rows { assert LedgerOk(s, id); }
    }
  }

  lemma StepKeepsLeaseInv(s: State, a: Action)
    requires LeaseInv(s) && Step(s, a).Some? && LeaseHeld(Step(s, a).value)
    ensures LeaseInv(Step(s, a).value)
  {
    if a.ClaimBatch? {
      ClaimKeepsLeaseInv(s, a);
    } else if ByWorker(a) {
      StepKeepsInv(s, a);
      WorkerKeepsHolders(s, a);
      forall id | id in s.rows ensures LedgerOk(Step(s, a).value, id) { WorkerKeepsLedger(s, a, id); }
    } else {
      QuietKeepsLeaseInv(s, a);
    }
  }

  lemma {:induction false} RunKeepsLeaseInv(s: State, actions: seq<Action>)
    requires Initial(s) && Respects(s, actions)
    ensures LeaseInv(RunAll(s, actions).value)
    decreases |actions|
  {
    if actions == [] {
      InitialInv(s);
    } else {
      hide LeaseInv, Step, Initial;
      RunKeepsLeaseInv(s, actions[..|actions| - 1]);
      StepKeepsLeaseInv(RunAll(s, actions[..|actions| - 1]).value, actions[|actions| - 1]);
    }
  }

  // ---- Theorems under the lease ----

  lemma {:induction false} OneHolderPerMessage(s: State, actions: seq<Action>, w: nat, j: nat, w': nat, j': nat)
    requires Initial(s) && Respects(s, actions)
    requires var t := RunAll(s, actions).value;
             Holds(t, w, j) && Holds(t, w', j') && HeldClaim(t, w, j).id == HeldClaim(t, w', j').id
    ensures w == w' && j == j'
  {
    RunKeepsLeaseInv(s, actions);
  }

  lemma SentStays(s: State, a: Action, id: Id)
    requires LeaseInv(s) && Step(s, a).Some?
    requires id in s.rows && s.rows[id].status == Sent
    ensures id in Step(s, a).value.rows && Step(s, a).value.rows[id] == s.rows[id]
  {
    if a.ClaimBatch? {
      ClaimRowsAre(s.rows, a.picked, a.stamp, |a.picked|);
    } else if ByWorker(a) {
      WorkerStep(s, a);
      assert HeldRow(s, a.w, s.crews[a.w].i);
    }
  }

  // Once sent, a row never changes again.
  lemma {:induction false} SentIsFinal(s: State, actions: seq<Action>, k: nat, id: Id)
    requires Initial(s) && Respects(s, actions) && k <= |actions|
    requires RunAll(s, actions[..k]).Some?
    requires var t := RunAll(s, actions[..k]).value; id in t.rows && t.rows[id].status == Sent
    ensures var t, u := RunAll(s, actions[..k]).value, RunAll(s, actions).value;
            id in u.rows && u.rows[id] == t.rows[id]
    decreases |actions|
  {
    if k == |actions| {
      assert actions[..k] == actions;
    } else {
      hide LeaseInv, Step, Initial, LeaseHeld;
      var init := actions[..|actions| - 1];
      assert init[..k] == actions[..k];
      SentIsFinal(s, init, k, id);
      RunKeepsLeaseInv(s, init);
      SentStays(RunAll(s, init).value, actions[|actions| - 1], id);
    }
  }

  // Successful publishes of a row: one for each lost mark, and at most one more; once the row is
  // sent, exactly one more.
  lemma PublishesAreCounted(s: State, actions: seq<Action>, id: Id)
    requires Initial(s) && Respects(s, actions) && id in RunAll(s, actions).value.rows
    ensures var t := RunAll(s, actions).value;
            && id in t.history
            && t.history[id].lostMarks <= t.history[id].published <= t.history[id].lostMarks + 1
            && (t.rows[id].status == Sent ==> t.history[id].published == t.history[id].lostMarks + 1)
  {
    RunKeepsLeaseInv(s, actions);
    var t := RunAll(s, actions).value;
    assert LedgerOk(t, id);
    if t.rows[id].status == Sent {
      forall w: nat ensures !Delivering(t, w, id) {
        assert Holds(t, w, if w < |t.crews| && t.crews[w].Busy? then t.crews[w].i else 0) ==>
            HeldRow(t, w, t.crews[w].i);
      }
    }
  }

  function BackoffSum(from: nat, to: nat): int
    decreases to - from
  {
    if from >= to then 0 else RetryBackoff(from + 1) + BackoffSum(from + 1, to)
  }

  lemma {:induction false} PacedSpan(failures: seq<int>, i: nat, j: nat)
    requires Paced(failures) && i <= j < |failures|
    ensures failures[j] >= failures[i] + BackoffSum(i, j)
    decreases j - i
  {
    if i < j { PacedSpan(failures, i + 1, j); }
  }

  // Failure number k + 1 comes at least retryBackoff(k) after failure number k, so failures i
  // and j are at least the backoffs between them apart.
  lemma RetryPacing(s: State, actions: seq<Action>, id: Id, i: nat, j: nat)
    requires Initial(s) && Respects(s, actions) && id in RunAll(s, actions).value.rows
    requires id in RunAll(s, actions).value.history && i <= j < |RunAll(s, actions).value.history[id].failures|
    ensures var failures := RunAll(s, actions).value.history[id].failures;
            failures[j] >= failures[i] + BackoffSum(i, j)
  {
    RunKeepsLeaseInv(s, actions);
    assert LedgerOk(RunAll(s, actions).value, id);
    PacedSpan(RunAll(s, actions).value.history[id].failures, i, j);
  }

  // ---- Without the lease ----

  // A sent row leaves that status in one way only: a worker still holding it from an earlier
  // claim, refused by the publisher, commits its MarkFailed.
  lemma SentLeavesOnlyByLateFailure(s: State, a: Action, id: Id)
    requires Inv(s) && Step(s, a).Some?
    requires id in s.rows && s.rows[id].status == Sent
    ensures id in Step(s, a).value.rows
    ensures Step(s, a).value.rows[id].status != Sent <==>
            a.MarkRefused? && !a.outcome.Lost? && CurrentId(s.crews[a.w]) == id
  {
    if a.ClaimBatch? {
      ClaimRowsAre(s.rows, a.picked, a.stamp, |a.picked|);
    }
  }
}
