/**
 How often a failed batch is offered to the store and with what result, in terms of the configured
 retries and the store's answers; and what the counters count.
 */
module DeadLetterSaves {
  import opened Wrappers
  import opened DlqConsumer
  import opened FlushProperties

  // Save k is accepted within n attempts, every earlier one having failed with the context alive.
  ghost predicate AcceptedWithin(save: (nat, nat) -> Attempt, k: nat, n: nat) {
    exists i :: 1 <= i <= n && save(k, i) == Saved && forall j :: 1 <= j < i ==> save(k, j) == NotSaved(false)
  }

  // The events are the attempts 1, 2, ... of save k, each with its answer, up to the first that is
  // accepted or finds the context done, or up to n; the last answer is the result.
  ghost predicate Attempted(events: seq<Event>, err: Option<Error>, ms: seq<Message>, save: (nat, nat) -> Attempt, k: nat, n: nat) {
    var d := |events|;
    && 1 <= d <= n
    && (forall i :: 0 <= i < d ==> events[i] == SaveAttempt(ms, i + 1, save(k, i + 1).Saved?))
    && (forall i :: 1 <= i < d ==> save(k, i) == NotSaved(false))
    && (d == n || save(k, d) != NotSaved(false))
    && err == match save(k, d) { case Saved => None case NotSaved(done) => Some(SaveError(done)) }
  }

  lemma {:induction false} SaveRunAttempts(ms: seq<Message>, save: (nat, nat) -> Attempt, k: nat, a: nat, n: nat)
    requires 1 <= a <= n && forall i :: 1 <= i < a ==> save(k, i) == NotSaved(false)
    ensures var r := SaveRun(ms, save, k, a, n);
            var d := a - 1 + |r.events|;
            && a <= d <= n
            && (forall i :: 0 <= i < |r.events| ==> r.events[i] == SaveAttempt(ms, a + i, save(k, a + i).Saved?))
            && (forall i :: 1 <= i < d ==> save(k, i) == NotSaved(false))
            && (d == n || save(k, d) != NotSaved(false))
            && r.err == match save(k, d) { case Saved => None case NotSaved(done) => Some(SaveError(done)) }
    decreases n - a
  {
    if save(k, a) == NotSaved(false) && a < n {
      SaveRunAttempts(ms, save, k, a + 1, n);
      var rest := SaveRun(ms, save, k, a + 1, n);
      assert SaveRun(ms, save, k, a, n).events == [SaveAttempt(ms, a, false)] + rest.events;
    }
  }

  lemma AcceptedIff(events: seq<Event>, err: Option<Error>, ms: seq<Message>, save: (nat, nat) -> Attempt, k: nat, n: nat)
    requires Attempted(events, err, ms, save, k, n)
    ensures err.None? <==> AcceptedWithin(save, k, n)
  {
    if err.None? { assert save(k, |events|) == Saved; }
    if i :| 1 <= i <= n && save(k, i) == Saved && forall j :: 1 <= j < i ==> save(k, j) == NotSaved(false) {
      assert i == |events|;
    }
  }

  // The batch saver offers all failures together, as often as configured and at least once.
  lemma BatchSaveAttempts(cfg: Config, failed: seq<Message>, save: (nat, nat) -> Attempt)
    requires cfg.dlqSave && cfg.batchSaver && failed != []
    ensures var n := if cfg.dlqRetries < 1 then 1 else cfg.dlqRetries;
            var p := Persist(cfg, failed, save);
            && Attempted(p.events, p.err, failed, save, 0, n)
            && (p.err.None? <==> AcceptedWithin(save, 0, n))
            && ((forall i :: 1 <= i <= n ==> save(0, i) == NotSaved(false)) ==> |p.events| == n && p.err == Some(SaveError(false)))
  {
    var n: nat := if cfg.dlqRetries < 1 then 1 else cfg.dlqRetries;
    SaveRunAttempts(failed, save, 0, 1, n);
    var p := Persist(cfg, failed, save);
    AcceptedIff(p.events, p.err, failed, save, 0, n);
  }

  function Joined(parts: seq<seq<Event>>): seq<Event> {
    if parts == [] then [] else parts[0] + Joined(parts[1..])
  }

  // Message by message: part i belongs to message i, and only the last part may have failed.
  ghost predicate AttemptedEach(parts: seq<seq<Event>>, err: Option<Error>, failed: seq<Message>, k: nat,
                                save: (nat, nat) -> Attempt, n: nat)
  {
    && |parts| <= |failed|
    && (err.None? ==> |parts| == |failed|)
    && (err.Some? ==> parts != [])
    && forall i :: 0 <= i < |parts| ==>
         Attempted(parts[i], if i == |parts| - 1 then err else None, [failed[i]], save, k + i, n)
  }

  lemma PartsCons(one: seq<Event>, parts: seq<seq<Event>>, err: Option<Error>, failed: seq<Message>, k: nat,
                  save: (nat, nat) -> Attempt, n: nat)
    requires failed != [] && Attempted(one, None, [failed[0]], save, k, n)
    requires AttemptedEach(parts, err, failed[1..], k + 1, save, n)
    ensures AttemptedEach([one] + parts, err, failed, k, save, n) && Joined([one] + parts) == one + Joined(parts)
  {
    hide Attempted;
    var all := [one] + parts;
    assert all[1..] == parts;
    forall i | 0 <= i < |all|
      ensures Attempted(all[i], if i == |all| - 1 then err else None, [failed[i]], save, k + i, n)
    {
      if i > 0 { assert all[i] == parts[i - 1] && failed[1..][i - 1] == failed[i]; }
    }
  }

  lemma {:induction false} SaveEachAttempts(failed: seq<Message>, k: nat, save: (nat, nat) -> Attempt, n: nat)
    returns (parts: seq<seq<Event>>)
    requires 1 <= n
    ensures var p := SaveEach(failed, k, save, n);
            Joined(parts) == p.events && AttemptedEach(parts, p.err, failed, k, save, n)
    decreases |failed|
  {
    if failed == [] {
      parts := [];
    } else {
      var one := SaveRun([failed[0]], save, k, 1, n);
      SaveRunAttempts([failed[0]], save, k, 1, n);
      assert Attempted(one.events, one.err, [failed[0]], save, k, n);
      SaveEachUnfold(failed, k, save, n);
      hide Attempted, SaveRun, SaveEach, SavedMessages;
      if one.err.Some? {
        parts := [one.events];
        assert parts[1..] == [] && Joined([]) == [] && one.events + [] == one.events;
      } else {
        var rest := SaveEachAttempts(failed[1..], k + 1, save, n);
        PartsCons(one.events, rest, SaveEach(failed, k, save, n).err, failed, k, save, n);
        parts := [one.events] + rest;
      }
    }
  }

  // The sequential saver offers each failure by itself, as often as configured and at least once,
  // and goes on to the next only after it was accepted.
  lemma SequentialSaveAttempts(cfg: Config, failed: seq<Message>, save: (nat, nat) -> Attempt) returns (parts: seq<seq<Event>>)
    requires cfg.dlqSave && !cfg.batchSaver
    ensures var n := if cfg.dlqRetries < 1 then 1 else cfg.dlqRetries;
            var p := Persist(cfg, failed, save);
            && Joined(parts) == p.events && AttemptedEach(parts, p.err, failed, 0, save, n)
            && (p.err.None? <==> forall k :: 0 <= k < |failed| ==> AcceptedWithin(save, k, n))
            && (forall i :: 0 <= i < |parts| && (forall a :: 1 <= a <= n ==> save(i, a) == NotSaved(false)) ==> |parts[i]| == n)
  {
    var n: nat := if cfg.dlqRetries < 1 then 1 else cfg.dlqRetries;
    parts := SaveEachAttempts(failed, 0, save, n);
    var p := Persist(cfg, failed, save);
    forall i | 0 <= i < |parts| ensures AcceptedWithin(save, i, n) <==> (i < |parts| - 1 || p.err.None?) {
      AcceptedIff(parts[i], if i == |parts| - 1 then p.err else None, [failed[i]], save, i, n);
    }
    hide AcceptedWithin;
    if p.err.Some? { assert !AcceptedWithin(save, |parts| - 1, n); }
  }

  // ---- What a flush answers ----

  // The messages whose handling fails, in order.
  function Failing(ms: seq<Message>, handle: Message -> Handling): seq<Message> {
    if ms == [] then []
    else
      (if handle(ms[0]).Handled? && handle(ms[0]).status != Succeeded then [ms[0]] else []) + Failing(ms[1..], handle)
  }

  function FirstUncreatable(ms: seq<Message>, handle: Message -> Handling): (n: nat)
    ensures n <= |ms|
    ensures forall i :: 0 <= i < n ==> handle(ms[i]).Handled?
    ensures n < |ms| ==> handle(ms[n]) == CannotCreate
  {
    if ms == [] || handle(ms[0]) == CannotCreate then 0 else 1 + FirstUncreatable(ms[1..], handle)
  }

  // The calls of the handler for the first n messages, with its answers.
  function CallsFor(ms: seq<Message>, handle: Message -> Handling, n: nat): (events: seq<Event>)
    requires n <= |ms| && forall i :: 0 <= i < n ==> handle(ms[i]).Handled?
    ensures |events| == n && forall i :: 0 <= i < n ==> events[i] == HandlerCall(ms[i], handle(ms[i]).status)
  {
    seq(n, i requires 0 <= i < n => HandlerCall(ms[i], handle(ms[i]).status))
  }

  lemma {:induction false} HandledAs(ms: seq<Message>, handle: Message -> Handling)
    ensures var h, n := HandleAll(ms, handle), FirstUncreatable(ms, handle);
            && (h.ok <==> n == |ms|)
            && |h.events| == (if n < |ms| then n + 1 else n)
            && (forall i :: 0 <= i < n ==> h.events[i] == HandlerCall(ms[i], handle(ms[i]).status))
            && (n < |ms| ==> h.events[n] == InitFailed(ms[n]))
    decreases |ms|
  {
    if ms != [] && handle(ms[0]).Handled? {
      HandledAs(ms[1..], handle);
      var rest := HandleAll(ms[1..], handle).events;
      assert HandleAll(ms, handle).events == [HandlerCall(ms[0], handle(ms[0]).status)] + rest;
    }
  }

  lemma {:induction false} FailuresAreFailing(ms: seq<Message>, handle: Message -> Handling)
    requires HandleAll(ms, handle).ok
    ensures FailedMessages(HandleAll(ms, handle).outcomes) == Failing(ms, handle)
    decreases |ms|
  {
    if ms != [] {
      FailuresAreFailing(ms[1..], handle);
      assert HandleAll(ms, handle).outcomes[1..] == HandleAll(ms[1..], handle).outcomes;
    }
  }

  // A flush handles its messages in order up to the first that cannot be created, which is its
  // error; otherwise its error is that of saving the failures, with a store, and only a flush
  // without an error goes on to mark.
  lemma FlushAnswers(cfg: Config, ms: seq<Message>, env: Env)
    ensures var flush := FlushRun(cfg, ms, env);
            var n := FirstUncreatable(ms, env.handle);
            var calls := CallsFor(ms, env.handle, n);
            var saves := if cfg.dlqSave && Failing(ms, env.handle) != [] then Persist(cfg, Failing(ms, env.handle), env.save)
                         else Persisted([], None);
            if n < |ms| then flush == Flush(calls + [InitFailed(ms[n])], Some(InitError))
            else
              && flush.err == saves.err
              && calls + saves.events <= flush.events
              && (saves.err.Some? ==> flush.events == calls + saves.events)
              && (forall e <- flush.events[n + |saves.events|..] :: e.Marked?)
  {
    HandledAs(ms, env.handle);
    var h := HandleAll(ms, env.handle);
    var n := FirstUncreatable(ms, env.handle);
    var calls := CallsFor(ms, env.handle, n);
    if n < |ms| {
      assert h.events == calls + [InitFailed(ms[n])];
    } else {
      assert h.events == calls;
      FailuresAreFailing(ms, env.handle);
      var p := Persist(cfg, FailedMessages(h.outcomes), env.save);
      var marks := Finalize(cfg.dlqSave, h.outcomes, {});
      FinalizeOnlyMarks(cfg.dlqSave, h.outcomes, {});
      hide Finalize, HandleAll, FailedMessages, Failing, SaveRun, SaveEach;
      if p.err.None? {
        assert (calls + p.events + marks)[n + |p.events|..] == marks;
      }
    }
  }

  // ---- What the counters count ----

  function Calls(events: seq<Event>, status: Status): nat {
    if events == [] then 0
    else (if events[0].HandlerCall? && events[0].status == status then 1 else 0) + Calls(events[1..], status)
  }

  lemma {:induction false} CallsAppend(a: seq<Event>, b: seq<Event>, status: Status)
    ensures Calls(a + b, status) == Calls(a, status) + Calls(b, status)
    decreases |a|
  {
    if a == [] {
      assert a + b == b;
    } else {
      CallsAppend(a[1..], b, status);
      assert Calls(a + b, status) == Calls([a[0]] + (a[1..] + b), status) by { assert a + b == [a[0]] + (a[1..] + b); }
      assert ([a[0]] + (a[1..] + b))[1..] == a[1..] + b;
    }
  }

  lemma {:induction false} HandledCalls(ms: seq<Message>, handle: Message -> Handling, status: Status)
    ensures var h := HandleAll(ms, handle); Calls(h.events, status) == Count(h.outcomes, status)
    decreases |ms|
  {
    if ms != [] {
      HandledCalls(ms[1..], handle, status);
      var h := HandleAll(ms, handle);
      if handle(ms[0]).Handled? {
        assert h.events[1..] == HandleAll(ms[1..], handle).events;
        assert h.outcomes[1..] == HandleAll(ms[1..], handle).outcomes;
      } else {
        assert h.events[1..] == [];
      }
    }
  }

  lemma {:induction false} OtherEventsCallNothing(events: seq<Event>, status: Status)
    requires forall e <- events :: !e.HandlerCall?
    ensures Calls(events, status) == 0
    decreases |events|
  {
    if events != [] {
      assert events[0] in events && forall e <- events[1..] :: e in events;
      OtherEventsCallNothing(events[1..], status);
    }
  }

  lemma {:induction false} FinalizeOnlyMarks(dlqSave: bool, outcomes: seq<Outcome>, blocked: set<int>)
    ensures forall e <- Finalize(dlqSave, outcomes, blocked) :: e.Marked?
    decreases |outcomes|
  {
    if outcomes != [] {
      FinalizeOnlyMarks(dlqSave, outcomes[1..], Blocked(dlqSave, outcomes[0], blocked));
    }
  }

  lemma {:induction false} JoinedOnlySaves(parts: seq<seq<Event>>)
    requires forall i, e :: 0 <= i < |parts| && e in parts[i] ==> e.SaveAttempt?
    ensures forall e <- Joined(parts) :: e.SaveAttempt?
    decreases |parts|
  {
    if parts != [] { JoinedOnlySaves(parts[1..]); }
  }

  lemma PersistOnlySaves(cfg: Config, failed: seq<Message>, save: (nat, nat) -> Attempt)
    ensures forall e <- Persist(cfg, failed, save).events :: e.SaveAttempt?
  {
    if cfg.dlqSave && failed != [] {
      if cfg.batchSaver {
        BatchSaveAttempts(cfg, failed, save);
      } else {
        var parts := SequentialSaveAttempts(cfg, failed, save);
        JoinedOnlySaves(parts);
      }
    }
  }

  // A flush counts each message it takes in, each dead letter the store took, and, only if it ends
  // without an error, each handler call under the call's own status.
  lemma CountersCountCalls(c: Counters, cfg: Config, ms: seq<Message>, env: Env, status: Status)
    ensures var c', flush := CountersAfter(c, cfg, ms, env), FlushRun(cfg, ms, env);
            && c'.received == c.received + |HandleAll(ms, env.handle).events|
            && c'.dlqWrites == c.dlqWrites + |SavedMessages(flush.events)|
            && ByStatus(c', status) == ByStatus(c, status) + (if flush.err.None? then Calls(flush.events, status) else 0)
  {
    var h := HandleAll(ms, env.handle);
    HandledCalls(ms, env.handle, status);
    FlushWrites(cfg, ms, env);
    if h.ok {
      var p := Persist(cfg, FailedMessages(h.outcomes), env.save);
      var marks := Finalize(cfg.dlqSave, h.outcomes, {});
      PersistOnlySaves(cfg, FailedMessages(h.outcomes), env.save);
      FinalizeOnlyMarks(cfg.dlqSave, h.outcomes, {});
      OtherEventsCallNothing(p.events, status);
      OtherEventsCallNothing(marks, status);
      CallsAppend(h.events, p.events, status);
      CallsAppend(h.events + p.events, marks, status);
    }
  }

  function ByStatus(c: Counters, status: Status): nat {
    match status
    case Succeeded => c.success
    case DecodeFailed => c.decodeFailed
    case ProcessingFailed => c.processingFailed
  }
}
