/** What one flush marks, what its counters add up to, and what marking means without a store. */
module FlushProperties {
  import opened DlqConsumer

  function MarkedMessages(events: seq<Event>): seq<Message> {
    if events == [] then []
    else (if events[0].Marked? then [events[0].message] else []) + MarkedMessages(events[1..])
  }

  lemma {:induction false} MarkedMessagesAppend(a: seq<Event>, b: seq<Event>)
    ensures MarkedMessages(a + b) == MarkedMessages(a) + MarkedMessages(b)
    decreases |a|
  {
    if a == [] {
      assert a + b == b;
      assert MarkedMessages(a) + MarkedMessages(b) == MarkedMessages(b);
    } else {
      MarkedMessagesAppend(a[1..], b);
      var first := if a[0].Marked? then [a[0].message] else [];
      assert MarkedMessages(a + b) == first + MarkedMessages(a[1..] + b) by {
        assert (a + b)[1..] == a[1..] + b;
      }
      assert MarkedMessages(a) == first + MarkedMessages(a[1..]);
      assert first + (MarkedMessages(a[1..]) + MarkedMessages(b)) == first + MarkedMessages(a[1..]) + MarkedMessages(b);
    }
  }

  function Inputs(outcomes: seq<Outcome>): seq<Message> {
    if outcomes == [] then [] else [outcomes[0].message] + Inputs(outcomes[1..])
  }

  function OfPartition(p: int, outcomes: seq<Outcome>): seq<Outcome> {
    if outcomes == [] then []
    else (if outcomes[0].message.partition == p then [outcomes[0]] else []) + OfPartition(p, outcomes[1..])
  }

  function OnPartition(p: int, ms: seq<Message>): seq<Message> {
    if ms == [] then [] else (if ms[0].partition == p then [ms[0]] else []) + OnPartition(p, ms[1..])
  }

  // The length of the longest prefix without a failure.
  function SuccessPrefix(outcomes: seq<Outcome>): (k: nat)
    ensures k <= |outcomes|
    ensures forall i :: 0 <= i < k ==> outcomes[i].status == Succeeded
    ensures k < |outcomes| ==> outcomes[k].status != Succeeded
  {
    if outcomes == [] || outcomes[0].status != Succeeded then 0 else 1 + SuccessPrefix(outcomes[1..])
  }

  // The blocked partitions after finalizing one outcome.
  function Blocked(dlqSave: bool, o: Outcome, blocked: set<int>): set<int> {
    if o.status == Succeeded || Marks(dlqSave, o, blocked) then blocked else blocked + {o.message.partition}
  }

  lemma FinalizedHead(dlqSave: bool, outcomes: seq<Outcome>, blocked: set<int>)
    requires outcomes != []
    ensures var o := outcomes[0];
            var rest := Finalize(dlqSave, outcomes[1..], Blocked(dlqSave, o, blocked));
            var all := Finalize(dlqSave, outcomes, blocked);
            && MarkedMessages(all) == (if Marks(dlqSave, o, blocked) then [o.message] else []) + MarkedMessages(rest)
            && SavedMessages(all) == SavedMessages(rest)
  {
    var o := outcomes[0];
    var rest := Finalize(dlqSave, outcomes[1..], Blocked(dlqSave, o, blocked));
    assert [] + rest == rest;
    assert ([Marked(o.message)] + rest)[1..] == rest;
  }

  lemma OnPartitionCons(p: int, m: Message, ms: seq<Message>)
    ensures OnPartition(p, [m] + ms) == (if m.partition == p then [m] else []) + OnPartition(p, ms)
  {
    assert ([m] + ms)[1..] == ms;
  }

  lemma {:induction false} MarkedPrefix(dlqSave: bool, outcomes: seq<Outcome>, p: int, blocked: set<int>)
    ensures var mine := OfPartition(p, outcomes);
            OnPartition(p, MarkedMessages(Finalize(dlqSave, outcomes, blocked))) ==
            Inputs(mine[..if p in blocked then 0 else if dlqSave then |mine| else SuccessPrefix(mine)])
  {
    if outcomes != [] {
      hide Finalize, MarkedMessages;
      var o := outcomes[0];
      var marks, blocked' := Marks(dlqSave, o, blocked), Blocked(dlqSave, o, blocked);
      MarkedPrefix(dlqSave, outcomes[1..], p, blocked');
      FinalizedHead(dlqSave, outcomes, blocked);
      var later := MarkedMessages(Finalize(dlqSave, outcomes[1..], blocked'));
      OnPartitionCons(p, o.message, later);
      assert [] + later == later;
      var mine, rest := OfPartition(p, outcomes), OfPartition(p, outcomes[1..]);
      if o.message.partition == p {
        assert mine == [o] + rest && mine[1..] == rest;
        if marks {
          var k := if dlqSave then |rest| else SuccessPrefix(rest);
          assert mine[..k + 1] == [o] + rest[..k];
          assert ([o] + rest[..k])[1..] == rest[..k];
        } else {
          assert p in blocked';
        }
      } else {
        assert mine == rest;
        assert p in blocked' <==> p in blocked;
      }
    } else {
      assert MarkedMessages([]) == [];
    }
  }

  // Per partition, whatever the interleaving: all messages with a dead-letter store, and exactly
  // the longest failure-free prefix without one.
  lemma SafePrefixMarking(dlqSave: bool, outcomes: seq<Outcome>, p: int)
    ensures var mine := OfPartition(p, outcomes);
            OnPartition(p, MarkedMessages(Finalize(dlqSave, outcomes, {}))) ==
            Inputs(if dlqSave then mine else mine[..SuccessPrefix(mine)])
  {
    MarkedPrefix(dlqSave, outcomes, p, {});
    var mine := OfPartition(p, outcomes);
    assert mine[..|mine|] == mine;
  }

  // ---- Several flushes without a store ----

  // One partition's messages, in offset order within and across flushes.
  ghost predicate InOrder(p: int, flushes: seq<seq<Outcome>>) {
    && (forall i, a :: 0 <= i < |flushes| && 0 <= a < |flushes[i]| ==> flushes[i][a].message.partition == p)
    && (forall i, a, b :: 0 <= i < |flushes| && 0 <= a < b < |flushes[i]| ==>
          flushes[i][a].message.offset < flushes[i][b].message.offset)
    && (forall i, j, a, b :: 0 <= i < j < |flushes| && 0 <= a < |flushes[i]| && 0 <= b < |flushes[j]| ==>
          flushes[i][a].message.offset < flushes[j][b].message.offset)
  }

  ghost predicate MarkedIn(flush: seq<Outcome>, m: Message) {
    m in MarkedMessages(Finalize(false, flush, {}))
  }

  // No flush marks an offset past a message that failed and was stored nowhere.
  ghost predicate NeverMarksPastFailure(flushes: seq<seq<Outcome>>) {
    forall i, j, a, m ::
      0 <= i < |flushes| && 0 <= j < |flushes| && 0 <= a < |flushes[i]| &&
      flushes[i][a].status != Succeeded && MarkedIn(flushes[j], m) ==>
        m.offset < flushes[i][a].message.offset
  }

  predicate HasFailure(flush: seq<Outcome>) {
    exists a :: 0 <= a < |flush| && flush[a].status != Succeeded
  }

  // Every flush after one with a failure is empty or starts with a failure.
  ghost predicate LaterFlushesStartFailing(flushes: seq<seq<Outcome>>) {
    forall i, j :: 0 <= i < j < |flushes| && HasFailure(flushes[i]) ==>
      flushes[j] == [] || flushes[j][0].status != Succeeded
  }

  lemma {:induction false} InputsOfPrefix(outcomes: seq<Outcome>, k: nat, m: Message)
    requires k <= |outcomes|
    ensures m in Inputs(outcomes[..k]) <==> exists a :: 0 <= a < k && outcomes[a].message == m
  {
    if k > 0 {
      InputsOfPrefix(outcomes[1..], k - 1, m);
      assert outcomes[..k][1..] == outcomes[1..][..k - 1];
      assert forall a :: 1 <= a < k ==> outcomes[a] == outcomes[1..][a - 1];
    }
  }

  lemma {:induction false} OnePartition(p: int, outcomes: seq<Outcome>)
    requires forall a :: 0 <= a < |outcomes| ==> outcomes[a].message.partition == p
    ensures OfPartition(p, outcomes) == outcomes
  {
    if outcomes != [] { OnePartition(p, outcomes[1..]); }
  }

  lemma {:induction false} AllOnPartition(p: int, dlqSave: bool, outcomes: seq<Outcome>, blocked: set<int>)
    requires forall a :: 0 <= a < |outcomes| ==> outcomes[a].message.partition == p
    ensures var ms := MarkedMessages(Finalize(dlqSave, outcomes, blocked)); OnPartition(p, ms) == ms
  {
    if outcomes != [] {
      var o := outcomes[0];
      var blocked' := Blocked(dlqSave, o, blocked);
      AllOnPartition(p, dlqSave, outcomes[1..], blocked');
      FinalizedHead(dlqSave, outcomes, blocked);
      var later := MarkedMessages(Finalize(dlqSave, outcomes[1..], blocked'));
      OnPartitionCons(p, o.message, later);
      assert [] + later == later;
    }
  }

  // One flush of one partition marks exactly the outcomes before its first failure.
  lemma {:induction false} MarkedIffBeforeFailure(p: int, flush: seq<Outcome>, m: Message)
    requires forall a :: 0 <= a < |flush| ==> flush[a].message.partition == p
    ensures MarkedIn(flush, m) <==> exists a :: 0 <= a < SuccessPrefix(flush) && flush[a].message == m
  {
    OnePartition(p, flush);
    AllOnPartition(p, false, flush, {});
    SafePrefixMarking(false, flush, p);
    InputsOfPrefix(flush, SuccessPrefix(flush), m);
  }

  lemma FailingStartsKeepMarksBehind(p: int, flushes: seq<seq<Outcome>>, i: nat, j: nat, a: nat, m: Message)
    requires InOrder(p, flushes) && LaterFlushesStartFailing(flushes)
    requires i < |flushes| && j < |flushes| && a < |flushes[i]|
    requires flushes[i][a].status != Succeeded && MarkedIn(flushes[j], m)
    ensures m.offset < flushes[i][a].message.offset
  {
    hide MarkedIn;
    MarkedIffBeforeFailure(p, flushes[j], m);
    var b :| 0 <= b < SuccessPrefix(flushes[j]) && flushes[j][b].message == m;
    assert HasFailure(flushes[i]);
    assert i == j ==> b < a;
  }

  lemma LaterSuccessMarksPast(p: int, flushes: seq<seq<Outcome>>, i: nat, j: nat)
    requires InOrder(p, flushes)
    requires i < j < |flushes| && HasFailure(flushes[i]) && flushes[j] != [] && flushes[j][0].status == Succeeded
    ensures !NeverMarksPastFailure(flushes)
  {
    var a :| 0 <= a < |flushes[i]| && flushes[i][a].status != Succeeded;
    var m := flushes[j][0].message;
    assert SuccessPrefix(flushes[j]) > 0;
    assert MarkedIn(flushes[j], m) by {
      hide MarkedIn;
      MarkedIffBeforeFailure(p, flushes[j], m);
    }
    hide MarkedIn;
    assert !(m.offset < flushes[i][a].message.offset);
  }

  // Blocking lasts one flush only. So without a store, marking stays behind every failure
  // exactly when no later flush begins with a success.
  lemma StaysBehindFailuresIff(p: int, flushes: seq<seq<Outcome>>)
    requires InOrder(p, flushes)
    ensures NeverMarksPastFailure(flushes) <==> LaterFlushesStartFailing(flushes)
  {
    hide MarkedIn, InOrder, HasFailure;
    if LaterFlushesStartFailing(flushes) {
      forall i, j, a, m |
        0 <= i < |flushes| && 0 <= j < |flushes| && 0 <= a < |flushes[i]| &&
        flushes[i][a].status != Succeeded && MarkedIn(flushes[j], m)
        ensures m.offset < flushes[i][a].message.offset
      {
        FailingStartsKeepMarksBehind(p, flushes, i, j, a, m);
      }
    } else {
      var i, j :| 0 <= i < j < |flushes| && HasFailure(flushes[i]) && flushes[j] != [] && flushes[j][0].status == Succeeded;
      LaterSuccessMarksPast(p, flushes, i, j);
    }
  }

  // A run that does mark past a failure: message 0 fails in one flush, message 1 succeeds in the next.
  lemma MarksPastFailureAcrossFlushes()
    ensures var flushes := [[Outcome(Message(0, 0), ProcessingFailed)], [Outcome(Message(0, 1), Succeeded)]];
            InOrder(0, flushes) && !NeverMarksPastFailure(flushes)
  {
    var flushes := [[Outcome(Message(0, 0), ProcessingFailed)], [Outcome(Message(0, 1), Succeeded)]];
    assert InOrder(0, flushes);
    assert HasFailure(flushes[0]) by {
      assert flushes[0][0].status != Succeeded;
    }
    assert !LaterFlushesStartFailing(flushes) by {
      assert flushes[1] != [] && flushes[1][0].status == Succeeded;
    }
    hide NeverMarksPastFailure, LaterFlushesStartFailing, InOrder;
    StaysBehindFailuresIff(0, flushes);
  }

  // ---- Counters ----

  datatype FlushCall = FlushCall(messages: seq<Message>, env: Env)

  function CountersRun(c: Counters, cfg: Config, calls: seq<FlushCall>): Counters
    decreases |calls|
  {
    if calls == [] then c
    else CountersRun(CountersAfter(c, cfg, calls[0].messages, calls[0].env), cfg, calls[1..])
  }

  // Messages received, and dead letters written, by the flushes that returned an error.
  function Abandoned(cfg: Config, calls: seq<FlushCall>): nat
    decreases |calls|
  {
    if calls == [] then 0
    else
      (if FlushRun(cfg, calls[0].messages, calls[0].env).err.None? then 0
       else |HandleAll(calls[0].messages, calls[0].env.handle).events|) +
      Abandoned(cfg, calls[1..])
  }

  function AbandonedWrites(cfg: Config, calls: seq<FlushCall>): nat
    decreases |calls|
  {
    if calls == [] then 0
    else
      (if FlushRun(cfg, calls[0].messages, calls[0].env).err.None? then 0
       else |SavedMessages(FlushRun(cfg, calls[0].messages, calls[0].env).events)|) +
      AbandonedWrites(cfg, calls[1..])
  }

  lemma {:induction false} StatusesAddUp(ms: seq<Message>, handle: Message -> Handling)
    ensures var h := HandleAll(ms, handle);
            && |h.outcomes| == Count(h.outcomes, Succeeded) + |FailedMessages(h.outcomes)|
            && |FailedMessages(h.outcomes)| == Count(h.outcomes, DecodeFailed) + Count(h.outcomes, ProcessingFailed)
            && (h.ok ==> |h.events| == |h.outcomes|)
            && SavedMessages(h.events) == []
  {
    if ms != [] {
      StatusesAddUp(ms[1..], handle);
      var h := HandleAll(ms, handle);
      if handle(ms[0]).Handled? {
        assert h.outcomes[1..] == HandleAll(ms[1..], handle).outcomes;
        assert h.events[1..] == HandleAll(ms[1..], handle).events;
      } else {
        assert h.events[1..] == [];
      }
    }
  }

  lemma {:induction false} SaveEachWrites(ms: seq<Message>, k: nat, save: (nat, nat) -> Attempt, limit: nat)
    requires 1 <= limit
    ensures var r := SaveEach(ms, k, save, limit); r.err.None? ==> SavedMessages(r.events) == ms
  {
    if ms != [] {
      SaveEachUnfold(ms, k, save, limit);
      SaveEachWrites(ms[1..], k + 1, save, limit);
    }
  }

  // A save that reports success has stored every failure of the flush, in order.
  lemma PersistWrites(cfg: Config, failed: seq<Message>, save: (nat, nat) -> Attempt)
    ensures var r := Persist(cfg, failed, save);
            && (r.err.None? ==> SavedMessages(r.events) == if cfg.dlqSave then failed else [])
            && (r.err.Some? && cfg.batchSaver ==> SavedMessages(r.events) == [])
  {
    SaveRunWrites(failed, save, 0, 1, Attempts(cfg));
    SaveEachWrites(failed, 0, save, Attempts(cfg));
  }

  lemma {:induction false} FinalizeSavesNothing(dlqSave: bool, outcomes: seq<Outcome>, blocked: set<int>)
    ensures SavedMessages(Finalize(dlqSave, outcomes, blocked)) == []
  {
    if outcomes != [] {
      FinalizeSavesNothing(dlqSave, outcomes[1..], Blocked(dlqSave, outcomes[0], blocked));
      FinalizedHead(dlqSave, outcomes, blocked);
    }
  }

  lemma FlushWrites(cfg: Config, ms: seq<Message>, env: Env)
    ensures var h := HandleAll(ms, env.handle);
            SavedMessages(FlushRun(cfg, ms, env).events) ==
            if h.ok then SavedMessages(Persist(cfg, FailedMessages(h.outcomes), env.save).events) else []
  {
    var h := HandleAll(ms, env.handle);
    StatusesAddUp(ms, env.handle);
    if h.ok {
      var p := Persist(cfg, FailedMessages(h.outcomes), env.save);
      SavedMessagesAppend(h.events, p.events);
      FinalizeSavesNothing(cfg.dlqSave, h.outcomes, {});
      SavedMessagesAppend(h.events + p.events, Finalize(cfg.dlqSave, h.outcomes, {}));
    }
  }

  function Finished(c: Counters): nat { c.success + c.decodeFailed + c.processingFailed }

  function FailedTotal(c: Counters): nat { c.decodeFailed + c.processingFailed }

  lemma OneFlushConserves(c: Counters, cfg: Config, ms: seq<Message>, env: Env)
    ensures var c', flush, h := CountersAfter(c, cfg, ms, env), FlushRun(cfg, ms, env), HandleAll(ms, env.handle);
            && c'.received - Finished(c') == c.received - Finished(c) + (if flush.err.None? then 0 else |h.events|)
            && c'.dlqWrites - (if cfg.dlqSave then FailedTotal(c') else 0) ==
               c.dlqWrites - (if cfg.dlqSave then FailedTotal(c) else 0) +
               (if flush.err.None? then 0 else |SavedMessages(flush.events)|)
            && (cfg.batchSaver && flush.err.Some? ==> SavedMessages(flush.events) == [])
  {
    var h := HandleAll(ms, env.handle);
    StatusesAddUp(ms, env.handle);
    FlushWrites(cfg, ms, env);
    if h.ok { PersistWrites(cfg, FailedMessages(h.outcomes), env.save); }
  }

  // Between flushes: what was received and not counted as finished is what erring flushes took
  // in; dead letters written are the failures counted plus what erring flushes managed to
  // write, which with the batch saver is nothing.
  lemma {:induction false} CounterConservation(c: Counters, cfg: Config, calls: seq<FlushCall>)
    ensures var c' := CountersRun(c, cfg, calls);
            && c'.received - Finished(c') == c.received - Finished(c) + Abandoned(cfg, calls)
            && c'.dlqWrites - (if cfg.dlqSave then FailedTotal(c') else 0) ==
               c.dlqWrites - (if cfg.dlqSave then FailedTotal(c) else 0) + AbandonedWrites(cfg, calls)
            && (cfg.batchSaver ==> AbandonedWrites(cfg, calls) == 0)
    decreases |calls|
  {
    if calls != [] {
      hide CountersAfter, FlushRun, SavedMessages, HandleAll;
      OneFlushConserves(c, cfg, calls[0].messages, calls[0].env);
      CounterConservation(CountersAfter(c, cfg, calls[0].messages, calls[0].env), cfg, calls[1..]);
    }
  }
}
