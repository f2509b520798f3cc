/**
 One flush of the consumer in pkg/adapters/kafka/consumer/dql/base_consumer_group_of_topic.go:
 handle every message, save the failures to the dead-letter store, then finalize. What a flush
 does to the outside world is a list of events; handler and store answers are oracles.
 */
module DlqConsumer {
  import opened Wrappers

  datatype Message = Message(partition: int, offset: int)

  datatype Status = Succeeded | DecodeFailed | ProcessingFailed

  // messageProcessingResult without its log fields.
  datatype Outcome = Outcome(message: Message, status: Status)

  datatype Error = InitError | SaveError(contextDone: bool)

  datatype Event =
    | Fetched(message: Message)
    | InitFailed(message: Message)
    | HandlerCall(message: Message, status: Status)
    | SaveAttempt(messages: seq<Message>, attempt: int, saved: bool)
    | Marked(message: Message)
    | Committed
    | Stopped(failed: bool)

  // Oracles. A message object cannot be created, or is decoded and handled with a status.
  datatype Handling = CannotCreate | Handled(status: Status)

  // One call of the saver, with ctx.Err() != nil or not after a failing one.
  datatype Attempt = Saved | NotSaved(contextDone: bool)

  // save(k, a): attempt a of the k-th save of the flush.
  datatype Env = Env(handle: Message -> Handling, save: (nat, nat) -> Attempt)

  datatype Config = Config(dlqSave: bool, dlqRetries: int, batchSaver: bool)

  function Attempts(cfg: Config): (n: nat)
    ensures n >= 1
  {
    if cfg.dlqRetries < 1 then 1 else cfg.dlqRetries
  }

  // ---- What a flush does, as functions ----

  datatype HandledAll = HandledAll(events: seq<Event>, outcomes: seq<Outcome>, ok: bool)

  function HandleAll(ms: seq<Message>, handle: Message -> Handling): HandledAll {
    if ms == [] then HandledAll([], [], true)
    else match handle(ms[0])
      case CannotCreate => HandledAll([InitFailed(ms[0])], [], false)
      case Handled(status) =>
        var rest := HandleAll(ms[1..], handle);
        HandledAll([HandlerCall(ms[0], status)] + rest.events, [Outcome(ms[0], status)] + rest.outcomes, rest.ok)
  }

  function FailedMessages(outcomes: seq<Outcome>): seq<Message> {
    if outcomes == [] then []
    else (if outcomes[0].status != Succeeded then [outcomes[0].message] else []) + FailedMessages(outcomes[1..])
  }

  datatype Persisted = Persisted(events: seq<Event>, err: Option<Error>)

  // Attempts a, a+1, ..., limit of the k-th save, until one is accepted or the context is done.
  function SaveRun(ms: seq<Message>, save: (nat, nat) -> Attempt, k: nat, a: nat, limit: nat): Persisted
    requires a <= limit
    decreases limit - a
  {
    match save(k, a)
    case Saved => Persisted([SaveAttempt(ms, a, true)], None)
    case NotSaved(done) =>
      if done || a == limit then Persisted([SaveAttempt(ms, a, false)], Some(SaveError(done)))
      else
        var rest := SaveRun(ms, save, k, a + 1, limit);
        rest.(events := [SaveAttempt(ms, a, false)] + rest.events)
  }

  // The sequential saver, message k and the ones after it.
  function SaveEach(ms: seq<Message>, k: nat, save: (nat, nat) -> Attempt, limit: nat): Persisted
    requires 1 <= limit
  {
    if ms == [] then Persisted([], None)
    else
      var first := SaveRun([ms[0]], save, k, 1, limit);
      if first.err.Some? then first
      else
        var rest := SaveEach(ms[1..], k + 1, save, limit);
        rest.(events := first.events + rest.events)
  }

  function Persist(cfg: Config, failed: seq<Message>, save: (nat, nat) -> Attempt): Persisted {
    if failed == [] || !cfg.dlqSave then Persisted([], None)
    else if cfg.batchSaver then SaveRun(failed, save, 0, 1, Attempts(cfg))
    else SaveEach(failed, 0, save, Attempts(cfg))
  }

  // Whether finalizing marks the message, given the partitions blocked so far.
  predicate Marks(dlqSave: bool, o: Outcome, blocked: set<int>) {
    o.message.partition !in blocked && (o.status == Succeeded || dlqSave)
  }

  function Finalize(dlqSave: bool, outcomes: seq<Outcome>, blocked: set<int>): seq<Event> {
    if outcomes == [] then []
    else
      var o := outcomes[0];
      var marks := Marks(dlqSave, o, blocked);
      (if marks then [Marked(o.message)] else []) +
      Finalize(dlqSave, outcomes[1..],
               if o.status == Succeeded || marks then blocked else blocked + {o.message.partition})
  }

  datatype Flush = Flush(events: seq<Event>, err: Option<Error>)

  function FlushRun(cfg: Config, ms: seq<Message>, env: Env): Flush {
    var handled := HandleAll(ms, env.handle);
    if !handled.ok then Flush(handled.events, Some(InitError))
    else
      var persisted := Persist(cfg, FailedMessages(handled.outcomes), env.save);
      if persisted.err.Some? then Flush(handled.events + persisted.events, persisted.err)
      else Flush(handled.events + persisted.events + Finalize(cfg.dlqSave, handled.outcomes, {}), None)
  }

  // ---- Counters ----

  datatype Counters = Counters(received: nat, success: nat, decodeFailed: nat, processingFailed: nat, dlqWrites: nat)

  function Count(outcomes: seq<Outcome>, status: Status): nat {
    if outcomes == [] then 0
    else (if outcomes[0].status == status then 1 else 0) + Count(outcomes[1..], status)
  }

  // The messages the store has accepted, in the order it accepted them.
  function SavedMessages(events: seq<Event>): seq<Message> {
    if events == [] then []
    else
      (if events[0].SaveAttempt? && events[0].saved then events[0].messages else []) + SavedMessages(events[1..])
  }

  function CountersAfter(c: Counters, cfg: Config, ms: seq<Message>, env: Env): Counters {
    var handled := HandleAll(ms, env.handle);
    var received := c.(received := c.received + |handled.events|);
    if !handled.ok then received
    else
      var persisted := Persist(cfg, FailedMessages(handled.outcomes), env.save);
      var written := received.(dlqWrites := received.dlqWrites + |SavedMessages(persisted.events)|);
      if persisted.err.Some? then written
      else written.(
        success := written.success + Count(handled.outcomes, Succeeded),
        decodeFailed := written.decodeFailed + Count(handled.outcomes, DecodeFailed),
        processingFailed := written.processingFailed + Count(handled.outcomes, ProcessingFailed))
  }

  // ---- The consumer ----

  class DlqMessage {
    const message: Message
    var attemptNumber: int

    constructor (m: Message)
      ensures message == m && attemptNumber == 1
    {
      message := m;
      attemptNumber := 1;
    }
  }

  // messageProcessingResult: dlqMessage is null for a success.
  datatype Result = Result(message: Message, status: Status, dlqMessage: DlqMessage?)

  function Outcomes(results: seq<Result>): (os: seq<Outcome>)
    ensures |os| == |results|
    ensures forall i :: 0 <= i < |os| ==> os[i] == Outcome(results[i].message, results[i].status)
  {
    seq(|results|, i requires 0 <= i < |results| => Outcome(results[i].message, results[i].status))
  }

  function MessagesOf(objects: seq<DlqMessage>): (ms: seq<Message>)
    ensures |ms| == |objects|
    ensures forall i :: 0 <= i < |ms| ==> ms[i] == objects[i].message
  {
    seq(|objects|, i requires 0 <= i < |objects| => objects[i].message)
  }

  lemma {:induction false} FailedMessagesAppend(a: seq<Outcome>, b: seq<Outcome>)
    ensures FailedMessages(a + b) == FailedMessages(a) + FailedMessages(b)
    decreases |a|
  {
    if a == [] {
      assert a + b == b;
      assert FailedMessages(a) + FailedMessages(b) == FailedMessages(b);
    } else {
      FailedMessagesAppend(a[1..], b);
      var first := if a[0].status != Succeeded then [a[0].message] else [];
      assert FailedMessages(a + b) == first + FailedMessages(a[1..] + b) by {
        assert (a + b)[1..] == a[1..] + b;
      }
      assert FailedMessages(a) == first + FailedMessages(a[1..]);
      assert first + (FailedMessages(a[1..]) + FailedMessages(b)) == first + FailedMessages(a[1..]) + FailedMessages(b);
    }
  }

  lemma FailedMessagesSnoc(os: seq<Outcome>, o: Outcome)
    ensures FailedMessages(os + [o]) == FailedMessages(os) + (if o.status != Succeeded then [o.message] else [])
  {
    FailedMessagesAppend(os, [o]);
    assert [o][1..] == [];
  }

  lemma {:induction false} SavedMessagesAppend(a: seq<Event>, b: seq<Event>)
    ensures SavedMessages(a + b) == SavedMessages(a) + SavedMessages(b)
    decreases |a|
  {
    if a == [] {
      assert a + b == b;
      assert SavedMessages(a) + SavedMessages(b) == SavedMessages(b);
    } else {
      SavedMessagesAppend(a[1..], b);
      var first := if a[0].SaveAttempt? && a[0].saved then a[0].messages else [];
      assert SavedMessages(a + b) == first + SavedMessages(a[1..] + b) by {
        assert (a + b)[1..] == a[1..] + b;
      }
      assert SavedMessages(a) == first + SavedMessages(a[1..]);
      assert first + (SavedMessages(a[1..]) + SavedMessages(b)) == first + SavedMessages(a[1..]) + SavedMessages(b);
    }
  }

  lemma FinalizeStep(journal: seq<Event>, dlqSave: bool, os: seq<Outcome>, blocked: set<int>)
    requires os != []
    ensures var marks := Marks(dlqSave, os[0], blocked);
            journal + Finalize(dlqSave, os, blocked) ==
            journal + (if marks then [Marked(os[0].message)] else []) +
            Finalize(dlqSave, os[1..],
                     if os[0].status == Succeeded || marks then blocked else blocked + {os[0].message.partition})
  {
  }

  // What has been handled so far and what is left add up to `all`.
  ghost predicate HandlingTail(journal0: seq<Event>, all: HandledAll,
                               journal: seq<Event>, outcomes: seq<Outcome>, rest: HandledAll)
  {
    && journal + rest.events == journal0 + all.events
    && outcomes + rest.outcomes == all.outcomes
    && rest.ok == all.ok
  }

  lemma HandlingStep(journal0: seq<Event>, all: HandledAll, journal: seq<Event>, outcomes: seq<Outcome>,
                     ms: seq<Message>, handle: Message -> Handling)
    requires ms != []
    requires HandlingTail(journal0, all, journal, outcomes, HandleAll(ms, handle))
    ensures match handle(ms[0])
            case CannotCreate => journal + [InitFailed(ms[0])] == journal0 + all.events && !all.ok
            case Handled(status) =>
              HandlingTail(journal0, all, journal + [HandlerCall(ms[0], status)], outcomes + [Outcome(ms[0], status)],
                           HandleAll(ms[1..], handle))
  {
    if handle(ms[0]).Handled? {
      var status, rest := handle(ms[0]).status, HandleAll(ms[1..], handle);
      assert journal + ([HandlerCall(ms[0], status)] + rest.events) == journal + [HandlerCall(ms[0], status)] + rest.events;
      assert outcomes + ([Outcome(ms[0], status)] + rest.outcomes) == outcomes + [Outcome(ms[0], status)] + rest.outcomes;
    }
  }

  // One save writes all its messages or none.
  lemma {:induction false} SaveRunWrites(ms: seq<Message>, save: (nat, nat) -> Attempt, k: nat, a: nat, limit: nat)
    requires a <= limit
    ensures var r := SaveRun(ms, save, k, a, limit);
            SavedMessages(r.events) == if r.err.None? then ms else []
    decreases limit - a
  {
    match save(k, a)
    case Saved =>
      assert [SaveAttempt(ms, a, true)][1..] == [];
    case NotSaved(done) =>
      if !done && a < limit {
        SaveRunWrites(ms, save, k, a + 1, limit);
      } else {
        assert [SaveAttempt(ms, a, false)][1..] == [];
      }
  }

  lemma SaveEachUnfold(ms: seq<Message>, k: nat, save: (nat, nat) -> Attempt, limit: nat)
    requires 1 <= limit && ms != []
    ensures var step, rest, all :=
              SaveRun([ms[0]], save, k, 1, limit), SaveEach(ms[1..], k + 1, save, limit), SaveEach(ms, k, save, limit);
            if step.err.Some? then all == step && SavedMessages(step.events) == []
            else
              && SavedMessages(step.events) == [ms[0]]
              && all.events == step.events + rest.events
              && all.err == rest.err
              && SavedMessages(all.events) == [ms[0]] + SavedMessages(rest.events)
  {
    var step, rest := SaveRun([ms[0]], save, k, 1, limit), SaveEach(ms[1..], k + 1, save, limit);
    SaveRunWrites([ms[0]], save, k, 1, limit);
    SavedMessagesAppend(step.events, rest.events);
  }

  // What the sequential saver has done so far and what `rest` still does add up to `p`.
  ghost predicate SequentialTail(journal0: seq<Event>, writes0: nat, p: Persisted,
                                 journal: seq<Event>, writes: nat, rest: Persisted)
  {
    && journal + rest.events == journal0 + p.events
    && rest.err == p.err
    && writes + |SavedMessages(rest.events)| == writes0 + |SavedMessages(p.events)|
  }

  lemma SequentialStep(journal0: seq<Event>, writes0: nat, p: Persisted, journal: seq<Event>, writes: nat,
                       ms: seq<Message>, k: nat, save: (nat, nat) -> Attempt, limit: nat)
    requires 1 <= limit && ms != []
    requires SequentialTail(journal0, writes0, p, journal, writes, SaveEach(ms, k, save, limit))
    ensures var step, rest := SaveRun([ms[0]], save, k, 1, limit), SaveEach(ms[1..], k + 1, save, limit);
            var journal', writes' := journal + step.events, writes + |SavedMessages(step.events)|;
            if step.err.Some?
            then journal' == journal0 + p.events && step.err == p.err && writes' == writes0 + |SavedMessages(p.events)|
            else SequentialTail(journal0, writes0, p, journal', writes', rest)
  {
    SaveEachUnfold(ms, k, save, limit);
    var step, rest := SaveRun([ms[0]], save, k, 1, limit), SaveEach(ms[1..], k + 1, save, limit);
    assert journal + (step.events + rest.events) == (journal + step.events) + rest.events;
  }

  // runDLQSaveWithRetry succeeds exactly when one of the attempts is accepted and no earlier
  // one found the context done; the accepted attempt is the last one made.
  lemma {:induction false} RetrySucceedsIff(ms: seq<Message>, save: (nat, nat) -> Attempt, k: nat, a: nat, limit: nat)
    requires a <= limit
    ensures var r := SaveRun(ms, save, k, a, limit);
            && 1 <= |r.events| <= limit - a + 1
            && (r.err.None? <==>
                exists i :: a <= i <= limit && save(k, i) == Saved && forall j :: a <= j < i ==> save(k, j) == NotSaved(false))
            && r.events[|r.events| - 1] == SaveAttempt(ms, a + |r.events| - 1, r.err.None?)
    decreases limit - a
  {
    if save(k, a) == NotSaved(false) && a < limit {
      RetrySucceedsIff(ms, save, k, a + 1, limit);
      if SaveRun(ms, save, k, a + 1, limit).err.None? {
        var i :| a + 1 <= i <= limit && save(k, i) == Saved && forall j :: a + 1 <= j < i ==> save(k, j) == NotSaved(false);
        assert forall j :: a <= j < i ==> save(k, j) == NotSaved(false);
      }
    }
  }

  class Consumer {
    const cfg: Config
    var receivedCount: nat
    var successCount: nat
    var decodeFailedCount: nat
    var processingFailCount: nat
    var dlqWriteCount: nat
    // Calls made on the handler, the saver and the session, in order.
    var journal: seq<Event>

    constructor (cfg: Config)
      ensures this.cfg == cfg && journal == []
      ensures Counts() == Counters(0, 0, 0, 0, 0)
    {
      this.cfg := cfg;
      receivedCount, successCount, decodeFailedCount, processingFailCount, dlqWriteCount := 0, 0, 0, 0, 0;
      journal := [];
    }

    function Counts(): Counters
      reads this
    {
      Counters(receivedCount, successCount, decodeFailedCount, processingFailCount, dlqWriteCount)
    }

    method Record(e: Event)
      modifies this`journal
      ensures journal == old(journal) + [e]
    {
      journal := journal + [e];
    }

    method ProcessMessage(m: Message, env: Env) returns (result: Option<Result>)
      modifies this`journal, this`receivedCount
      ensures receivedCount == old(receivedCount) + 1
      ensures match env.handle(m)
              case CannotCreate => result == None && journal == old(journal) + [InitFailed(m)]
              case Handled(status) =>
                && journal == old(journal) + [HandlerCall(m, status)]
                && result.Some? && result.value.message == m && result.value.status == status
                && (status == Succeeded <==> result.value.dlqMessage == null)
                && (status != Succeeded ==> fresh(result.value.dlqMessage) && result.value.dlqMessage.message == m)
    {
      receivedCount := receivedCount + 1;
      var handling := env.handle(m);
      if handling == CannotCreate {
        Record(InitFailed(m));
        return None;
      }
      Record(HandlerCall(m, handling.status));
      if handling.status != Succeeded {
        var dlqMessage := new DlqMessage(m);
        return Some(Result(m, handling.status, dlqMessage));
      }
      return Some(Result(m, Succeeded, null));
    }

    // One turn of the retry loop: stamp the objects with the attempt and call the saver.
    method TrySave(objects: seq<DlqMessage>, k: nat, attempt: nat, env: Env) returns (answer: Attempt)
      modifies this`journal, objects
      ensures answer == env.save(k, attempt)
      ensures journal == old(journal) + [SaveAttempt(MessagesOf(objects), attempt, answer.Saved?)]
      ensures forall o <- objects :: o.attemptNumber == attempt
    {
      for j := 0 to |objects|
        invariant forall i :: 0 <= i < j ==> objects[i].attemptNumber == attempt
        invariant journal == old(journal)
      {
        objects[j].attemptNumber := attempt;
      }
      answer := env.save(k, attempt);
      Record(SaveAttempt(MessagesOf(objects), attempt, answer.Saved?));
    }

    method RunDlqSaveWithRetry(objects: seq<DlqMessage>, k: nat, env: Env) returns (err: Option<Error>)
      modifies this`journal, objects
      ensures var r := SaveRun(MessagesOf(objects), env.save, k, 1, Attempts(cfg));
              && journal == old(journal) + r.events
              && err == r.err
              && forall o <- objects :: o.attemptNumber == |r.events|
    {
      var attempts := if cfg.dlqRetries < 1 then 1 else cfg.dlqRetries;
      ghost var ms := MessagesOf(objects);
      ghost var all := SaveRun(ms, env.save, k, 1, attempts);
      var attempt := 1;
      while true
        invariant 1 <= attempt <= attempts
        invariant var rest := SaveRun(ms, env.save, k, attempt, attempts);
          journal + rest.events == old(journal) + all.events && rest.err == all.err
        invariant |journal| == |old(journal)| + attempt - 1
        decreases attempts - attempt
      {
        ghost var before, rest := journal, SaveRun(ms, env.save, k, attempt, attempts);
        var answer := TrySave(objects, k, attempt, env);
        assert before + rest.events == journal + rest.events[1..];
        if answer.Saved? {
          return None;
        }
        if answer.contextDone || attempt == attempts {
          return Some(SaveError(answer.contextDone));
        }
        attempt := attempt + 1;
      }
    }

    method LogDlqBatchSuccess(n: nat)
      modifies this`dlqWriteCount
      ensures dlqWriteCount == old(dlqWriteCount) + n
    {
      for i := 0 to n
        invariant dlqWriteCount == old(dlqWriteCount) + i
      {
        dlqWriteCount := dlqWriteCount + 1;
      }
    }

    method PersistFailedBatch(failed: seq<DlqMessage>, env: Env) returns (err: Option<Error>)
      modifies this`journal, this`dlqWriteCount, failed
      ensures var p := Persist(cfg, MessagesOf(failed), env.save);
              && journal == old(journal) + p.events
              && err == p.err
              && dlqWriteCount == old(dlqWriteCount) + |SavedMessages(p.events)|
    {
      if |failed| == 0 || !cfg.dlqSave {
        return None;
      }
      if cfg.batchSaver {
        assert |MessagesOf(failed)| == |failed|;
        err := RunDlqSaveWithRetry(failed, 0, env);
        SaveRunWrites(MessagesOf(failed), env.save, 0, 1, Attempts(cfg));
        if err.None? {
          LogDlqBatchSuccess(|failed|);
        }
        return;
      }
      err := PersistSequentially(failed, env);
    }

    method SaveOne(d: DlqMessage, k: nat, env: Env) returns (err: Option<Error>)
      modifies this`journal, this`dlqWriteCount, d
      ensures var step := SaveRun([d.message], env.save, k, 1, Attempts(cfg));
              && journal == old(journal) + step.events
              && err == step.err
              && dlqWriteCount == old(dlqWriteCount) + |SavedMessages(step.events)|
    {
      SaveRunWrites([d.message], env.save, k, 1, Attempts(cfg));
      assert MessagesOf([d]) == [d.message];
      err := RunDlqSaveWithRetry([d], k, env);
      if err.None? {
        dlqWriteCount := dlqWriteCount + 1;
      }
    }

    // The loop of PersistFailedBatch without a batch saver.
    method PersistSequentially(failed: seq<DlqMessage>, env: Env) returns (err: Option<Error>)
      modifies this`journal, this`dlqWriteCount, failed
      ensures var p := SaveEach(MessagesOf(failed), 0, env.save, Attempts(cfg));
              && journal == old(journal) + p.events
              && err == p.err
              && dlqWriteCount == old(dlqWriteCount) + |SavedMessages(p.events)|
    {
      ghost var p := SaveEach(MessagesOf(failed), 0, env.save, Attempts(cfg));
      ghost var left := MessagesOf(failed);
      for i := 0 to |failed|
        invariant left == MessagesOf(failed)[i..]
        invariant SequentialTail(old(journal), old(dlqWriteCount), p, journal, dlqWriteCount,
                                 SaveEach(left, i, env.save, Attempts(cfg)))
      {
        SequentialStep(old(journal), old(dlqWriteCount), p, journal, dlqWriteCount, left, i, env.save, Attempts(cfg));
        err := SaveOne(failed[i], i, env);
        if err.Some? {
          return;
        }
        left := left[1..];
      }
      return None;
    }

    method FinalizeMessage(r: Result, blocked: set<int>) returns (blocked': set<int>)
      modifies this`journal, this`successCount, this`decodeFailedCount, this`processingFailCount
      ensures var o := Outcome(r.message, r.status);
              var marks := Marks(cfg.dlqSave, o, blocked);
              && journal == old(journal) + (if marks then [Marked(r.message)] else [])
              && blocked' == (if r.status == Succeeded || marks then blocked else blocked + {r.message.partition})
      ensures successCount == old(successCount) + (if r.status == Succeeded then 1 else 0)
      ensures decodeFailedCount == old(decodeFailedCount) + (if r.status == DecodeFailed then 1 else 0)
      ensures processingFailCount == old(processingFailCount) + (if r.status == ProcessingFailed then 1 else 0)
    {
      blocked' := blocked;
      var partitionBlocked := r.message.partition in blocked;
      match r.status {
        case Succeeded =>
          successCount := successCount + 1;
          if !partitionBlocked {
            Record(Marked(r.message));
          }
        case DecodeFailed =>
          decodeFailedCount := decodeFailedCount + 1;
          if cfg.dlqSave && !partitionBlocked {
            Record(Marked(r.message));
          } else {
            blocked' := blocked' + {r.message.partition};
          }
        case ProcessingFailed =>
          processingFailCount := processingFailCount + 1;
          if cfg.dlqSave && !partitionBlocked {
            Record(Marked(r.message));
          } else {
            blocked' := blocked' + {r.message.partition};
          }
      }
    }

    // The first loop of ProcessBatch; err is the early return on a message that cannot be created.
    method HandleMessages(messages: seq<Message>, env: Env)
      returns (results: seq<Result>, failed: seq<DlqMessage>, err: Option<Error>)
      modifies this`journal, this`receivedCount
      ensures var handled := HandleAll(messages, env.handle);
              && journal == old(journal) + handled.events
              && receivedCount == old(receivedCount) + |handled.events|
              && err == (if handled.ok then None else Some(InitError))
              && (handled.ok ==>
                  Outcomes(results) == handled.outcomes && MessagesOf(failed) == FailedMessages(handled.outcomes))
      ensures forall i :: 0 <= i < |failed| ==> fresh(failed[i])
    {
      results, failed := [], [];
      ghost var all, left := HandleAll(messages, env.handle), messages;
      for i := 0 to |messages|
        invariant left == messages[i..]
        invariant HandlingTail(old(journal), all, journal, Outcomes(results), HandleAll(left, env.handle))
        invariant MessagesOf(failed) == FailedMessages(Outcomes(results))
        invariant receivedCount == old(receivedCount) + i && |journal| == |old(journal)| + i
        invariant forall i :: 0 <= i < |failed| ==> fresh(failed[i])
      {
        ghost var seen := Outcomes(results);
        HandlingStep(old(journal), all, journal, seen, left, env.handle);
        var result := ProcessMessage(messages[i], env);
        if result.None? {
          return results, failed, Some(InitError);
        }
        results := results + [result.value];
        if result.value.dlqMessage != null {
          failed := failed + [result.value.dlqMessage];
        }
        FailedMessagesSnoc(seen, Outcome(messages[i], result.value.status));
        assert Outcomes(results) == seen + [Outcome(messages[i], result.value.status)];
        left := left[1..];
      }
      err := None;
    }

    // The last loop of ProcessBatch.
    method FinalizeMessages(results: seq<Result>)
      modifies this`journal, this`successCount, this`decodeFailedCount, this`processingFailCount
      ensures journal == old(journal) + Finalize(cfg.dlqSave, Outcomes(results), {})
      ensures successCount == old(successCount) + Count(Outcomes(results), Succeeded)
      ensures decodeFailedCount == old(decodeFailedCount) + Count(Outcomes(results), DecodeFailed)
      ensures processingFailCount == old(processingFailCount) + Count(Outcomes(results), ProcessingFailed)
    {
      var blocked: set<int> := {};
      ghost var left := Outcomes(results);
      for i := 0 to |results|
        invariant left == Outcomes(results)[i..]
        invariant journal + Finalize(cfg.dlqSave, left, blocked) ==
                  old(journal) + Finalize(cfg.dlqSave, Outcomes(results), {})
        invariant successCount + Count(left, Succeeded) == old(successCount) + Count(Outcomes(results), Succeeded)
        invariant decodeFailedCount + Count(left, DecodeFailed) ==
                  old(decodeFailedCount) + Count(Outcomes(results), DecodeFailed)
        invariant processingFailCount + Count(left, ProcessingFailed) ==
                  old(processingFailCount) + Count(Outcomes(results), ProcessingFailed)
      {
        FinalizeStep(journal, cfg.dlqSave, left, blocked);
        blocked := FinalizeMessage(results[i], blocked);
        left := left[1..];
      }
    }

    method ProcessBatch(messages: seq<Message>, env: Env) returns (err: Option<Error>)
      modifies this
      ensures var flush := FlushRun(cfg, messages, env);
              journal == old(journal) + flush.events && err == flush.err
      ensures Counts() == CountersAfter(old(Counts()), cfg, messages, env)
    {
      hide HandleAll, FailedMessages, Persist, SaveRun, SaveEach, SavedMessages, Finalize, Count;
      var results, failed;
      results, failed, err := HandleMessages(messages, env);
      if err.Some? {
        return;
      }
      err := PersistFailedBatch(failed, env);
      if err.Some? {
        return;
      }
      FinalizeMessages(results);
    }
  }
}
