/**
 What every column of an outbox row says about the row's past, in every reachable state, and the
 waiting times of the outbox in milliseconds.
 */
module OutboxRecords {
  import opened Wrappers
  import opened OutboxRepository
  import opened OutboxWorker
  import opened OutboxProtocol
  import opened OutboxLease

  function LastError(h: History): string { if h.errors == [] then "" else h.errors[|h.errors| - 1] }

  // Creation and publish times are those of the insert and of the last sent mark, attempts count
  // the failure marks, the error is that of the last one unless the row is sent, and only a failed
  // row has a next attempt.
  ghost predicate RecordOk(r: Row, h: History) {
    && r.createdAt == h.inserted
    && r.publishedAt == h.sentAt
    && r.attempts == |h.errors| == |h.failures|
    && r.lastError == (if r.status == Sent then "" else LastError(h))
    && (r.nextAt.Some? <==> r.status == Status.Failed)
    && (r.status == Pending ==> r.attempts == 0 && r.publishedAt == None && r.updatedAt == r.createdAt)
    && (r.status == Sent ==> r.publishedAt == Some(r.updatedAt))
    && (r.status == Status.Failed ==> r.attempts > 0)
  }

  ghost predicate RecordsOk(s: State) {
    Inv(s) && forall id <- s.rows :: RecordOk(s.rows[id], s.history[id])
  }

  lemma ClaimKeepsRecord(s: State, a: Action, id: Id)
    requires RecordsOk(s) && a.ClaimBatch? && Step(s, a).Some? && id in s.rows
    ensures var t := Step(s, a).value; id in t.rows && id in t.history && RecordOk(t.rows[id], t.history[id])
  {
    var t := Step(s, a).value;
    assert RecordOk(s.rows[id], s.history[id]);
    ClaimStep(s, a);
    ClaimedRow(s, a.picked, a.stamp, id);
    ClaimKeepsHistory(s, a, id);
    hide Step, Inv, IsPick, ClaimRows;
  }

  lemma ClaimKeepsHistory(s: State, a: Action, id: Id)
    requires a.ClaimBatch? && Step(s, a).Some? && id in s.history
    ensures var h, h' := s.history[id], Step(s, a).value.history[id];
            h' == h.(claims := h'.claims, dropped := h'.dropped)
  {
  }

  lemma PublishOrCrashKeepsRecord(s: State, a: Action, id: Id)
    requires RecordsOk(s) && (a.PublishOne? || a.Crash?) && Step(s, a).Some? && id in s.rows
    ensures var t := Step(s, a).value; id in t.rows && id in t.history && RecordOk(t.rows[id], t.history[id])
  {
    assert RecordOk(s.rows[id], s.history[id]);
    hide Inv, RecordsOk;
  }

  // A mark leaves the row and its record alone, or writes both.
  lemma SentMarkRecords(s: State, a: Action, id: Id)
    requires a.MarkDelivered? && Step(s, a).Some? && id in s.rows && id in s.history
    ensures var t := Step(s, a).value;
            && id in t.rows && id in t.history
            && var r, h, r', h' := s.rows[id], s.history[id], t.rows[id], t.history[id];
               && h'.errors == h.errors && h'.failures == h.failures && h'.inserted == h.inserted
               && ((r' == r && h'.sentAt == h.sentAt) || (r' == AsSent(r, a.at) && h'.sentAt == Some(a.at)))
  {
  }

  lemma FailedMarkRecords(s: State, a: Action, id: Id)
    requires a.MarkRefused? && Step(s, a).Some? && id in s.rows && id in s.history
    ensures var t := Step(s, a).value;
            && id in t.rows && id in t.history
            && var r, h, r', h' := s.rows[id], s.history[id], t.rows[id], t.history[id];
               || (r' == r && h' == h)
               || (&& |h'.failures| == |h.failures| + 1
                   && h' == h.(failures := h'.failures, errors := h.errors + [a.error])
                   && exists nextAt :: r' == AsFailed(r, a.error, a.at, nextAt))
  {
  }

  lemma MarkKeepsRecord(s: State, a: Action, id: Id)
    requires RecordsOk(s) && (a.MarkDelivered? || a.MarkRefused?) && Step(s, a).Some? && id in s.rows
    ensures var t := Step(s, a).value; id in t.rows && id in t.history && RecordOk(t.rows[id], t.history[id])
  {
    assert id in s.history && RecordOk(s.rows[id], s.history[id]);
    hide Inv, RecordsOk, Step;
    if a.MarkDelivered? { SentMarkRecords(s, a, id); } else { FailedMarkRecords(s, a, id); }
  }

  lemma StepKeepsRecords(s: State, a: Action)
    requires RecordsOk(s) && Step(s, a).Some?
    ensures RecordsOk(Step(s, a).value)
  {
    StepKeepsInv(s, a);
    SameRows(s, a);
    var t := Step(s, a).value;
    forall id | id in s.rows ensures RecordOk(t.rows[id], t.history[id]) {
      StepKeepsRecord(s, a, id);
    }
    if a.Insert? { InsertedRecord(s, a); }
    hide Inv, Step, RecordOk;
  }

  lemma SameRows(s: State, a: Action)
    requires Inv(s) && Step(s, a).Some?
    ensures var t := Step(s, a).value;
            s.rows.Keys <= t.rows.Keys && t.rows.Keys == s.rows.Keys + if a.Insert? then {a.id} else {}
    ensures Inv(Step(s, a).value)
  {
    StepKeepsInv(s, a);
    if a.ClaimBatch? { ClaimStep(s, a); }
    hide Inv;
  }

  lemma InsertedRecord(s: State, a: Action)
    requires a.Insert? && Step(s, a).Some?
    ensures var t := Step(s, a).value; a.id in t.rows && a.id in t.history && RecordOk(t.rows[a.id], t.history[a.id])
  {
  }

  lemma StepKeepsRecord(s: State, a: Action, id: Id)
    requires RecordsOk(s) && Step(s, a).Some? && id in s.rows
    ensures var t := Step(s, a).value; id in t.rows && id in t.history && RecordOk(t.rows[id], t.history[id])
  {
    if a.ClaimBatch? {
      ClaimKeepsRecord(s, a, id);
    } else if a.PublishOne? || a.Crash? {
      PublishOrCrashKeepsRecord(s, a, id);
    } else if a.MarkDelivered? || a.MarkRefused? {
      MarkKeepsRecord(s, a, id);
    } else {
      assert RecordOk(s.rows[id], s.history[id]);
      hide Inv;
    }
  }

  // So in every reachable state, with or without the lease.
  lemma {:induction false} EveryRecordIsTrue(s: State, actions: seq<Action>)
    requires Initial(s) && RunAll(s, actions).Some?
    ensures RecordsOk(RunAll(s, actions).value)
    decreases |actions|
  {
    hide Inv, Step, RecordOk;
    if actions == [] {
      InitialInv(s);
    } else {
      EveryRecordIsTrue(s, actions[..|actions| - 1]);
      StepKeepsRecords(RunAll(s, actions[..|actions| - 1]).value, actions[|actions| - 1]);
    }
  }

  // ---- In milliseconds ----

  // How long a row waits after its n-th failure, and the least time from the first to the n-th.
  function WaitAfter(n: nat): int {
    match n
    case 0 => 0
    case 1 => 5_000
    case 2 => 15_000
    case 3 => 30_000
    case 4 => 60_000
    case 5 => 60_000
    case _ => 300_000
  }

  function Span(n: nat): int {
    match n
    case 0 => 0
    case 1 => 0
    case 2 => 5_000
    case 3 => 20_000
    case 4 => 50_000
    case 5 => 110_000
    case _ => 170_000 + 300_000 * (n - 6)
  }

  lemma {:induction false} BackoffSnoc(from: nat, k: nat)
    ensures BackoffSum(from, from + k + 1) == BackoffSum(from, from + k) + RetryBackoff(from + k + 1)
    decreases k
  {
    if k == 0 {
      assert BackoffSum(from + 1, from + 1) == 0;
    } else {
      BackoffSnoc(from + 1, k - 1);
    }
  }

  lemma {:induction false} BackoffsSpan(k: nat)
    ensures BackoffSum(0, k) == Span(k + 1)
  {
    if k > 0 {
      BackoffsSpan(k - 1);
      BackoffSnoc(0, k - 1);
    }
  }

  // When the row is due: never if sent, always if pending, five minutes after its claim stamp if
  // in processing, and if failed its wait after its last failure.
  predicate DueAt(r: Row, failures: seq<int>, now: int) {
    match r.status
    case Pending => true
    case Processing => now - r.updatedAt >= 300_000
    case Failed => failures != [] && now >= failures[|failures| - 1] + WaitAfter(|failures|)
    case Sent => false
  }

  lemma DueInNumbers(r: Row, h: History, delivered: bool, now: int)
    requires Ledger(r, h, delivered) && RecordOk(r, h)
    ensures Eligible(r, now) <==> DueAt(r, h.failures, now)
  {
    hide Paced;
  }

  lemma LeaseRecord(s: State, actions: seq<Action>, id: Id)
    requires Initial(s) && Respects(s, actions) && id in RunAll(s, actions).value.rows
    ensures var t := RunAll(s, actions).value;
            id in t.history && Ledger(t.rows[id], t.history[id], OutboxLease.Delivered(t, id)) && RecordOk(t.rows[id], t.history[id])
  {
    RunKeepsLeaseInv(s, actions);
    EveryRecordIsTrue(s, actions);
    hide RunAll, Respects, Initial, OutboxLease.Delivered, Ledger, RecordOk;
    assert LedgerOk(RunAll(s, actions).value, id);
  }

  // Under the lease the query finds a row exactly from these moments on, and the failures of a row
  // have taken at least the sum of the waits between them.
  lemma WaitsInNumbers(s: State, actions: seq<Action>, id: Id, now: int)
    requires Initial(s) && Respects(s, actions) && id in RunAll(s, actions).value.rows
    ensures var t := RunAll(s, actions).value;
            && id in t.history
            && var failures := t.history[id].failures;
               && (Eligible(t.rows[id], now) <==> DueAt(t.rows[id], failures, now))
               && (failures != [] ==> failures[|failures| - 1] - failures[0] >= Span(|failures|))
  {
    LeaseRecord(s, actions, id);
    hide RunAll, Respects, Initial, OutboxLease.Delivered, Ledger, RecordOk, Eligible, DueAt, Span;
    var t := RunAll(s, actions).value;
    DueInNumbers(t.rows[id], t.history[id], OutboxLease.Delivered(t, id), now);
    var n := |t.history[id].failures|;
    if n > 0 {
      RetryPacing(s, actions, id, 0, n - 1);
      BackoffsSpan(n - 1);
    }
  }

  // Without the lease too, a row that is not sent is due at most five minutes from now, and one in
  // processing exactly five minutes after its last claim.
  lemma DueWithinFiveMinutes(s: State, actions: seq<Action>, id: Id)
    requires Initial(s) && RunAll(s, actions).Some? && id in RunAll(s, actions).value.rows
    requires RunAll(s, actions).value.rows[id].status != Sent
    ensures var t := RunAll(s, actions).value;
            && Eligible(t.rows[id], t.clock + 300_000)
            && (t.rows[id].status == Processing ==>
                  forall now :: Eligible(t.rows[id], now) <==> now - t.rows[id].updatedAt >= 300_000)
  {
    NothingGetsStuck(s, actions, id, RunAll(s, actions).value.clock + 300_000);
  }

  // A worker takes at most fifty rows at a time, and leaves none due while it takes fewer.
  lemma ClaimsAtMostFifty(s: State, a: Action)
    requires a.ClaimBatch? && Step(s, a).Some?
    ensures |a.picked| <= 50
    ensures |a.picked| < 50 ==>
              forall id <- s.rows :: id !in a.locked && Eligible(s.rows[id], a.pickNow) ==> id in a.picked
  {
  }
}
