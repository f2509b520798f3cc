/**
 What holds over every schedule of the claim loop: nothing is lost in the buffer, the flush timer
 belongs to the oldest buffered message, and cutting the stream into batches changes nothing.
 */
module ClaimProperties {
  import opened Wrappers
  import opened DlqConsumer
  import opened FlushProperties
  import opened ClaimMode

  function Arrivals(inputs: seq<Input>): seq<Message> {
    if inputs == [] then []
    else Arrivals(inputs[..|inputs| - 1]) + (var x := inputs[|inputs| - 1]; if x.Arrival? then [x.message] else [])
  }

  function Flatten(batches: seq<seq<Message>>): seq<Message> {
    if batches == [] then [] else Flatten(batches[..|batches| - 1]) + batches[|batches| - 1]
  }

  function Pending(mode: Mode): seq<Message> {
    if mode.SingleMode? then [] else mode.messages
  }

  lemma {:induction false} ClaimRunSnoc(cfg: Config, s: Settings, mode: Mode, inputs: seq<Input>, x: Input)
    ensures var r := ClaimRun(cfg, s, mode, inputs);
            ClaimRun(cfg, s, mode, inputs + [x]) ==
            if r.verdict.Returned? then r
            else
              var step := StepClaim(cfg, s, r.mode, x);
              Run(step.mode, r.events + step.events, r.batches + step.batches, step.verdict)
    decreases |inputs|
  {
    hide StepClaim;
    if inputs == [] {
      assert [x][1..] == [];
      var step := StepClaim(cfg, s, mode, x);
      assert [] + step.events == step.events && step.events + [] == step.events;
      assert [] + step.batches == step.batches && step.batches + [] == step.batches;
    } else {
      var first := StepClaim(cfg, s, mode, inputs[0]);
      assert (inputs + [x])[1..] == inputs[1..] + [x];
      if first.verdict.Running? {
        ClaimRunSnoc(cfg, s, first.mode, inputs[1..], x);
        var r := ClaimRun(cfg, s, first.mode, inputs[1..]);
        var step := StepClaim(cfg, s, r.mode, x);
        assert first.events + r.events + step.events == first.events + (r.events + step.events);
        assert first.batches + r.batches + step.batches == first.batches + (r.batches + step.batches);
      }
    }
  }

  // The run before the last input, for proofs that follow a run from its start.
  lemma LastStep(cfg: Config, s: Settings, mode: Mode, inputs: seq<Input>)
    requires inputs != []
    ensures var init, x := inputs[..|inputs| - 1], inputs[|inputs| - 1];
            var r := ClaimRun(cfg, s, mode, init);
            if r.verdict.Returned? then ClaimRun(cfg, s, mode, inputs) == r
            else
              var step := StepClaim(cfg, s, r.mode, x);
              ClaimRun(cfg, s, mode, inputs) ==
              Run(step.mode, r.events + step.events, r.batches + step.batches, step.verdict)
  {
    var init, x := inputs[..|inputs| - 1], inputs[|inputs| - 1];
    ClaimRunSnoc(cfg, s, mode, init, x);
    assert init + [x] == inputs;
  }

  lemma {:induction false} FlattenAppend(a: seq<seq<Message>>, b: seq<seq<Message>>)
    ensures Flatten(a + b) == Flatten(a) + Flatten(b)
  {
    if b == [] {
      assert a + b == a;
      assert Flatten(a) + [] == Flatten(a);
    } else {
      assert (a + b)[..|a + b| - 1] == a + b[..|b| - 1];
      FlattenAppend(a, b[..|b| - 1]);
    }
  }

  lemma FlattenOne(batch: seq<Message>)
    ensures Flatten([batch]) == batch
  {
    assert [batch][..0] == [];
    assert [] + batch == batch;
  }

  // ---- Buffer conservation ----

  ghost predicate Sized(s: Settings, batches: seq<seq<Message>>) {
    forall i :: 0 <= i < |batches| ==> 1 <= |batches[i]| <= if s.batchSize > 1 then s.batchSize else 1
  }

  // A mode as ConsumeClaim makes it, whose buffer has room.
  ghost predicate Roomy(s: Settings, mode: Mode) {
    mode.BatchMode? ==> s.batchSize > 1 && |mode.messages| < s.batchSize
  }

  lemma FlushConserves(cfg: Config, s: Settings, mode: Mode, env: Env)
    requires mode.BatchMode? ==> s.batchSize > 1 && |mode.messages| <= s.batchSize
    ensures var r := FlushedMode(cfg, mode, env);
            && Sized(s, r.batches)
            && (r.verdict.Running? ==> Flatten(r.batches) == Pending(mode) && Pending(r.mode) == [])
            && (r.mode.BatchMode? <==> mode.BatchMode?)
  {
    hide FlushRun, Flatten;
    NothingYet();
    if mode.BatchMode? { FlattenOne(mode.messages); }
  }

  lemma OneStepConserves(cfg: Config, s: Settings, mode: Mode, x: Input)
    requires Roomy(s, mode)
    ensures var step := StepClaim(cfg, s, mode, x);
            && Sized(s, step.batches)
            && (step.verdict.Running? ==> Roomy(s, step.mode))
            && (step.verdict.Running? ==>
                Pending(mode) + Arrivals([x]) == Flatten(step.batches) + Pending(step.mode))
            && (step.verdict == Returned(None) ==> Pending(mode) == Flatten(step.batches) && Arrivals([x]) == [])
  {
    hide FlushRun, FlushedMode, Flatten, Arrivals;
    NothingYet();
    OneArrival(x);
    match x {
      case Arrival(m, now, env) =>
        if mode.SingleMode? {
          FlattenOne([m]);
        } else {
          var timer := RestartedTimer(mode.timer, s.timeout, now);
          FlushConserves(cfg, s, BatchMode([m], timer, now), env);
          FlushConserves(cfg, s, mode.(messages := mode.messages + [m]), env);
        }
      case Elapsed(_) =>
      case TimerTick(env) =>
        if TickReady(mode) {
          FlushConserves(cfg, s, mode.(timer := Some(mode.timer.value.(tick := None))), env);
        }
      case ClaimClosed(env) => FlushConserves(cfg, s, mode, env);
      case ContextDone(env) => FlushConserves(cfg, s, mode, env);
    }
  }

  lemma OneArrival(x: Input)
    ensures Arrivals([x]) == if x.Arrival? then [x.message] else []
  {
    assert [x][..0] == [];
  }

  lemma {:induction false} BufferConservation(cfg: Config, s: Settings, inputs: seq<Input>)
    ensures var r := ClaimRun(cfg, s, NewMode(s), inputs);
            && Sized(s, r.batches)
            && (r.verdict.Running? ==>
                && Arrivals(inputs) == Flatten(r.batches) + Pending(r.mode)
                && Roomy(s, r.mode))
    decreases |inputs|
  {
    hide StepClaim, Flatten, Arrivals;
    NothingYet();
    if inputs != [] {
      var init, x := inputs[..|inputs| - 1], inputs[|inputs| - 1];
      BufferConservation(cfg, s, init);
      LastStep(cfg, s, NewMode(s), inputs);
      var r := ClaimRun(cfg, s, NewMode(s), init);
      if r.verdict.Running? {
        OneStepConserves(cfg, s, r.mode, x);
        var step := StepClaim(cfg, s, r.mode, x);
        FlattenAppend(r.batches, step.batches);
        LastArrival(inputs);
        var f := Flatten(r.batches);
        assert f + Pending(r.mode) + Arrivals([x]) == f + (Pending(r.mode) + Arrivals([x]));
        assert f + (Flatten(step.batches) + Pending(step.mode)) == f + Flatten(step.batches) + Pending(step.mode);
      }
    }
  }

  lemma NothingYet()
    ensures Arrivals([]) == [] && Flatten([]) == []
  {
  }

  lemma LastArrival(inputs: seq<Input>)
    requires inputs != []
    ensures Arrivals(inputs) == Arrivals(inputs[..|inputs| - 1]) + Arrivals([inputs[|inputs| - 1]])
  {
    assert [inputs[|inputs| - 1]][..0] == [];
  }

  // ---- Timer discipline ----

  // With a timeout, the timer runs towards (or has ticked for) the deadline of the oldest
  // buffered message and no other; an empty buffer has neither deadline nor tick.
  ghost predicate TimerFitsBuffer(s: Settings, mode: Mode) {
    mode.BatchMode? ==>
      && (mode.messages == [] || s.timeout <= 0 ==> mode.timer == None || mode.timer == Some(Timer(None, None)))
      && (mode.messages != [] && s.timeout > 0 ==>
          var deadline := mode.firstAt + s.timeout;
          mode.timer == Some(Timer(Some(deadline), None)) || mode.timer == Some(Timer(None, Some(deadline))))
  }

  // The buffer is exactly what arrived from position i on, and it opened at firstAt.
  ghost predicate OpenedAt(inputs: seq<Input>, i: nat, mode: Mode)
    requires mode.BatchMode?
  {
    && i < |inputs|
    && inputs[i].Arrival? && inputs[i].now == mode.firstAt
    && mode.messages == Arrivals(inputs[i..])
  }

  lemma {:induction false} ArrivalsAppend(a: seq<Input>, x: Input)
    ensures Arrivals(a + [x]) == Arrivals(a) + (if x.Arrival? then [x.message] else [])
  {
    assert (a + [x])[..|a|] == a;
  }

  lemma OneStepKeepsTimer(cfg: Config, s: Settings, mode: Mode, x: Input)
    requires TimerFitsBuffer(s, mode)
    ensures var step := StepClaim(cfg, s, mode, x);
            && (step.verdict.Running? ==> TimerFitsBuffer(s, step.mode))
            && (step.mode.BatchMode? <==> mode.BatchMode?)
  {
    hide FlushRun;
  }

  // Deadlines count from the arrival of the oldest buffered message: later messages never move
  // them, and no tick outlives the batch it was for.
  lemma {:induction false} TimerDiscipline(cfg: Config, s: Settings, inputs: seq<Input>)
    ensures var r := ClaimRun(cfg, s, NewMode(s), inputs);
            r.verdict.Running? && r.mode.BatchMode? ==>
              && TimerFitsBuffer(s, r.mode)
              && (r.mode.messages != [] ==> exists i: nat :: OpenedAt(inputs, i, r.mode))
    decreases |inputs|
  {
    if inputs != [] {
      var init, x := inputs[..|inputs| - 1], inputs[|inputs| - 1];
      TimerDiscipline(cfg, s, init);
      LastStep(cfg, s, NewMode(s), inputs);
      var r := ClaimRun(cfg, s, NewMode(s), init);
      if r.verdict.Running? && r.mode.BatchMode? {
        OneStepKeepsTimer(cfg, s, r.mode, x);
        OneStepKeepsOpening(cfg, s, r.mode, init, x);
        assert init + [x] == inputs;
      }
      ModeIsStable(cfg, s, init);
    }
  }

  lemma {:induction false} ModeIsStable(cfg: Config, s: Settings, inputs: seq<Input>)
    ensures var r := ClaimRun(cfg, s, NewMode(s), inputs);
            r.verdict.Running? ==> (r.mode.BatchMode? <==> NewMode(s).BatchMode?)
    decreases |inputs|
  {
    if inputs != [] {
      hide FlushRun;
      ModeIsStable(cfg, s, inputs[..|inputs| - 1]);
      LastStep(cfg, s, NewMode(s), inputs);
    }
  }

  // After a step the buffer is empty, or just opened, or the same one with any new arrival.
  lemma StepBuffers(cfg: Config, s: Settings, mode: Mode, x: Input)
    requires mode.BatchMode?
    ensures var step := StepClaim(cfg, s, mode, x);
            step.verdict.Running? ==>
              && step.mode.BatchMode?
              && (|| step.mode.messages == []
                  || (mode.messages == [] && x.Arrival? && step.mode.messages == [x.message] && step.mode.firstAt == x.now)
                  || (mode.messages != [] && step.mode.firstAt == mode.firstAt &&
                      step.mode.messages == mode.messages + if x.Arrival? then [x.message] else []))
  {
    hide FlushRun, Expired, StoppedTimer, RestartedTimer;
  }

  lemma OneStepKeepsOpening(cfg: Config, s: Settings, mode: Mode, init: seq<Input>, x: Input)
    requires mode.BatchMode?
    requires mode.messages != [] ==> exists i: nat :: OpenedAt(init, i, mode)
    ensures var step := StepClaim(cfg, s, mode, x);
            step.verdict.Running? ==>
              step.mode.BatchMode? &&
              (step.mode.messages != [] ==> exists i: nat :: OpenedAt(init + [x], i, step.mode))
  {
    StepBuffers(cfg, s, mode, x);
    hide StepClaim, Arrivals;
    var step := StepClaim(cfg, s, mode, x);
    if step.verdict.Running? && step.mode.messages != [] {
      if mode.messages == [] {
        var i := |init|;
        assert (init + [x])[i..] == [x];
        OneArrival(x);
        assert OpenedAt(init + [x], i, step.mode);
      } else {
        var i: nat :| OpenedAt(init, i, mode);
        StillOpenedAt(init, x, i, mode, step.mode);
      }
    }
  }

  lemma StillOpenedAt(init: seq<Input>, x: Input, i: nat, mode: Mode, mode': Mode)
    requires mode.BatchMode? && mode'.BatchMode? && OpenedAt(init, i, mode)
    requires mode'.firstAt == mode.firstAt
    requires mode'.messages == mode.messages + if x.Arrival? then [x.message] else []
    ensures OpenedAt(init + [x], i, mode')
  {
    hide Arrivals;
    assert (init + [x])[i..] == init[i..] + [x];
    ArrivalsAppend(init[i..], x);
  }

  // So the tick branch flushes only when the current batch's own deadline has passed.
  lemma TickMeansDue(cfg: Config, s: Settings, inputs: seq<Input>)
    requires var r := ClaimRun(cfg, s, NewMode(s), inputs); r.verdict.Running? && TickReady(r.mode)
    ensures var mode := ClaimRun(cfg, s, NewMode(s), inputs).mode;
            && s.timeout > 0
            && mode.timer == Some(Timer(None, Some(mode.firstAt + s.timeout)))
            && TickCaused(inputs, s, mode)
  {
    TimerDiscipline(cfg, s, inputs);
    TickHasCause(cfg, s, inputs);
  }

  // The buffer opened at position i, and later, at j, the clock passed its deadline.
  ghost predicate OpenedThenDue(inputs: seq<Input>, i: nat, j: nat, mode: Mode, timeout: int)
    requires mode.BatchMode?
  {
    && OpenedAt(inputs, i, mode)
    && i < j < |inputs| && inputs[j].Elapsed? && inputs[j].now >= mode.firstAt + timeout
  }

  ghost predicate TickCaused(inputs: seq<Input>, s: Settings, mode: Mode)
    requires mode.BatchMode?
  {
    exists i: nat, j: nat :: OpenedThenDue(inputs, i, j, mode, s.timeout)
  }

  lemma {:induction false} TickHasCause(cfg: Config, s: Settings, inputs: seq<Input>)
    ensures var r := ClaimRun(cfg, s, NewMode(s), inputs);
            r.verdict.Running? && TickReady(r.mode) ==> TickCaused(inputs, s, r.mode)
    decreases |inputs|
  {
    hide StepClaim, TickCaused;
    if inputs != [] {
      var init, x := inputs[..|inputs| - 1], inputs[|inputs| - 1];
      LastStep(cfg, s, NewMode(s), inputs);
      TickHasCause(cfg, s, init);
      TimerDiscipline(cfg, s, init);
      ModeIsStable(cfg, s, inputs);
      ModeIsStable(cfg, s, init);
      var r := ClaimRun(cfg, s, NewMode(s), init);
      if r.verdict.Running? {
        var step := StepClaim(cfg, s, r.mode, x);
        if step.verdict.Running? && TickReady(step.mode) {
          assert init + [x] == inputs;
          OneStepTick(cfg, s, r.mode, init, x);
        }
      }
    }
  }

  // A ready tick was ready before, or the clock has just passed the deadline.
  lemma StepTicks(cfg: Config, s: Settings, mode: Mode, x: Input)
    requires mode.BatchMode? && TimerFitsBuffer(s, mode)
    requires var step := StepClaim(cfg, s, mode, x); step.verdict.Running? && TickReady(step.mode)
    ensures var step := StepClaim(cfg, s, mode, x);
            && mode.messages != [] && step.mode.BatchMode? && step.mode.messages != []
            && (TickReady(mode) || (x.Elapsed? && x.now >= mode.firstAt + s.timeout))
  {
    hide FlushRun;
  }

  lemma OneStepTick(cfg: Config, s: Settings, mode: Mode, init: seq<Input>, x: Input)
    requires mode.BatchMode? && TimerFitsBuffer(s, mode)
    requires mode.messages != [] ==> exists i: nat :: OpenedAt(init, i, mode)
    requires TickReady(mode) ==> TickCaused(init, s, mode)
    requires var step := StepClaim(cfg, s, mode, x); step.verdict.Running? && TickReady(step.mode)
    ensures TickCaused(init + [x], s, StepClaim(cfg, s, mode, x).mode)
  {
    StepBuffers(cfg, s, mode, x);
    StepTicks(cfg, s, mode, x);
    hide StepClaim, TimerFitsBuffer, TickReady, OpenedAt;
    var step := StepClaim(cfg, s, mode, x);
    var i: nat, j: nat;
    if TickReady(mode) {
      i, j :| OpenedThenDue(init, i, j, mode, s.timeout);
    } else {
      i :| OpenedAt(init, i, mode);
      j := |init|;
      assert i < |init| by { OpenedInside(init, i, mode); }
    }
    StillOpenedAt(init, x, i, mode, step.mode);
    assert OpenedThenDue(init + [x], i, j, step.mode, s.timeout);
  }

  lemma OpenedInside(inputs: seq<Input>, i: nat, mode: Mode)
    requires mode.BatchMode? && OpenedAt(inputs, i, mode)
    ensures i < |inputs|
  {
  }

  // ---- Flush-split independence ----

  function HandlerCalls(events: seq<Event>): seq<Outcome> {
    if events == [] then []
    else
      (if events[0].HandlerCall? then [Outcome(events[0].message, events[0].status)] else []) + HandlerCalls(events[1..])
  }

  lemma {:induction false} HandlerCallsAppend(a: seq<Event>, b: seq<Event>)
    ensures HandlerCalls(a + b) == HandlerCalls(a) + HandlerCalls(b)
    decreases |a|
  {
    if a == [] {
      assert a + b == b;
      assert HandlerCalls(a) + HandlerCalls(b) == HandlerCalls(b);
    } else {
      HandlerCallsAppend(a[1..], b);
      var first := if a[0].HandlerCall? then [Outcome(a[0].message, a[0].status)] else [];
      assert HandlerCalls(a + b) == first + HandlerCalls(a[1..] + b) by {
        assert (a + b)[1..] == a[1..] + b;
      }
      assert HandlerCalls(a) == first + HandlerCalls(a[1..]);
      assert first + (HandlerCalls(a[1..]) + HandlerCalls(b)) == first + HandlerCalls(a[1..]) + HandlerCalls(b);
    }
  }

  // What the outside sees of a list of events.
  datatype Effects = Effects(calls: seq<Outcome>, saved: seq<Message>, marked: seq<Message>)

  function EffectsOf(events: seq<Event>): Effects {
    Effects(HandlerCalls(events), SavedMessages(events), MarkedMessages(events))
  }

  function Then(a: Effects, b: Effects): Effects {
    Effects(a.calls + b.calls, a.saved + b.saved, a.marked + b.marked)
  }

  lemma EffectsAppend(a: seq<Event>, b: seq<Event>)
    ensures EffectsOf(a + b) == Then(EffectsOf(a), EffectsOf(b))
  {
    HandlerCallsAppend(a, b);
    SavedMessagesAppend(a, b);
    MarkedMessagesAppend(a, b);
  }

  // One-at-a-time processing of messages with a store that accepts: each is handled once, each
  // failure is saved, every message is marked, all in order.
  function OneAtATime(ms: seq<Message>, h: Message -> Status): Effects {
    if ms == [] then Effects([], [], [])
    else
      Then(Effects([Outcome(ms[0], h(ms[0]))], if h(ms[0]) == Succeeded then [] else [ms[0]], [ms[0]]),
           OneAtATime(ms[1..], h))
  }

  lemma {:induction false} OneAtATimeAppend(a: seq<Message>, b: seq<Message>, h: Message -> Status)
    ensures OneAtATime(a + b, h) == Then(OneAtATime(a, h), OneAtATime(b, h))
  {
    if a == [] {
      assert a + b == b;
      var r := OneAtATime(b, h);
      assert [] + r.calls == r.calls && [] + r.saved == r.saved && [] + r.marked == r.marked;
    } else {
      assert (a + b)[1..] == a[1..] + b;
      OneAtATimeAppend(a[1..], b, h);
      ThenAssociates(Effects([Outcome(a[0], h(a[0]))], if h(a[0]) == Succeeded then [] else [a[0]], [a[0]]),
                     OneAtATime(a[1..], h), OneAtATime(b, h));
    }
  }

  lemma ThenAssociates(a: Effects, b: Effects, c: Effects)
    ensures Then(Then(a, b), c) == Then(a, Then(b, c))
  {
    assert a.calls + b.calls + c.calls == a.calls + (b.calls + c.calls);
    assert a.saved + b.saved + c.saved == a.saved + (b.saved + c.saved);
    assert a.marked + b.marked + c.marked == a.marked + (b.marked + c.marked);
  }

  lemma {:induction false} SaveRunOnlySaves(ms: seq<Message>, save: (nat, nat) -> Attempt, k: nat, a: nat, limit: nat)
    requires a <= limit
    ensures var es := SaveRun(ms, save, k, a, limit).events; HandlerCalls(es) == [] && MarkedMessages(es) == []
    decreases limit - a
  {
    var es := SaveRun(ms, save, k, a, limit).events;
    if save(k, a) == NotSaved(false) && a < limit {
      SaveRunOnlySaves(ms, save, k, a + 1, limit);
      assert es[1..] == SaveRun(ms, save, k, a + 1, limit).events;
    } else {
      assert es[1..] == [];
    }
  }

  lemma {:induction false} SaveEachOnlySaves(ms: seq<Message>, k: nat, save: (nat, nat) -> Attempt, limit: nat)
    requires 1 <= limit
    ensures var es := SaveEach(ms, k, save, limit).events; HandlerCalls(es) == [] && MarkedMessages(es) == []
  {
    if ms != [] {
      SaveRunOnlySaves([ms[0]], save, k, 1, limit);
      SaveEachOnlySaves(ms[1..], k + 1, save, limit);
      var first, rest := SaveRun([ms[0]], save, k, 1, limit), SaveEach(ms[1..], k + 1, save, limit);
      HandlerCallsAppend(first.events, rest.events);
      MarkedMessagesAppend(first.events, rest.events);
    }
  }

  lemma {:induction false} HandlingEffects(ms: seq<Message>, handle: Message -> Handling, h: Message -> Status)
    requires forall m :: handle(m).Handled? ==> handle(m).status == h(m)
    requires HandleAll(ms, handle).ok
    ensures var r, e := HandleAll(ms, handle), OneAtATime(ms, h);
            && EffectsOf(r.events) == Effects(e.calls, [], [])
            && FailedMessages(r.outcomes) == e.saved
            && Inputs(r.outcomes) == e.marked
  {
    if ms != [] {
      HandlingEffects(ms[1..], handle, h);
      var r, rest := HandleAll(ms, handle), HandleAll(ms[1..], handle);
      assert r.events[1..] == rest.events;
      assert r.outcomes[1..] == rest.outcomes;
    }
  }

  lemma {:induction false} FinalizeWithStore(outcomes: seq<Outcome>)
    ensures EffectsOf(Finalize(true, outcomes, {})) == Effects([], [], Inputs(outcomes))
  {
    if outcomes != [] {
      FinalizeWithStore(outcomes[1..]);
      assert Finalize(true, outcomes, {})[1..] == Finalize(true, outcomes[1..], {});
    }
  }

  lemma PersistEffects(cfg: Config, failed: seq<Message>, save: (nat, nat) -> Attempt)
    requires cfg.dlqSave && Persist(cfg, failed, save).err == None
    ensures EffectsOf(Persist(cfg, failed, save).events) == Effects([], failed, [])
  {
    PersistWrites(cfg, failed, save);
    SaveRunOnlySaves(failed, save, 0, 1, Attempts(cfg));
    SaveEachOnlySaves(failed, 0, save, Attempts(cfg));
  }

  // A flush that returns nil has the effects of handling its messages one at a time.
  lemma FlushEffects(cfg: Config, ms: seq<Message>, env: Env, h: Message -> Status)
    requires cfg.dlqSave && FlushRun(cfg, ms, env).err == None
    requires forall m :: env.handle(m).Handled? ==> env.handle(m).status == h(m)
    ensures EffectsOf(FlushRun(cfg, ms, env).events) == OneAtATime(ms, h)
  {
    hide HandleAll, FailedMessages, Persist, Finalize, EffectsOf, OneAtATime, Inputs;
    var r := HandleAll(ms, env.handle);
    var failed := FailedMessages(r.outcomes);
    HandlingEffects(ms, env.handle, h);
    PersistEffects(cfg, failed, env.save);
    FinalizeWithStore(r.outcomes);
    var p := Persist(cfg, failed, env.save);
    EffectsAppend(r.events, p.events);
    EffectsAppend(r.events + p.events, Finalize(true, r.outcomes, {}));
    var e := OneAtATime(ms, h);
    assert e.calls + [] + [] == e.calls && [] + e.saved + [] == e.saved && [] + [] + e.marked == e.marked;
  }

  function EnvOf(x: Input): Option<Env> {
    if x.Elapsed? then None else Some(x.env)
  }

  // Every handler call of the schedule that gets as far as a status gets the one h gives.
  ghost predicate HandledBy(inputs: seq<Input>, h: Message -> Status) {
    forall x <- inputs :: EnvOf(x).Some? ==>
      forall m :: x.env.handle(m).Handled? ==> x.env.handle(m).status == h(m)
  }

  lemma FlushedEffects(cfg: Config, mode: Mode, env: Env, h: Message -> Status)
    requires cfg.dlqSave
    requires forall m :: env.handle(m).Handled? ==> env.handle(m).status == h(m)
    ensures var r := FlushedMode(cfg, mode, env);
            r.verdict.Running? ==> EffectsOf(r.events) == OneAtATime(Flatten(r.batches), h)
  {
    hide FlushRun, EffectsOf, OneAtATime, Flatten;
    if mode.BatchMode? && mode.messages != [] {
      FlattenOne(mode.messages);
      if FlushRun(cfg, mode.messages, env).err == None {
        FlushEffects(cfg, mode.messages, env, h);
      }
    } else {
      assert EffectsOf([]) == OneAtATime(Flatten([]), h) by { NoEffects(h); }
    }
  }

  lemma NoEffects(h: Message -> Status)
    ensures EffectsOf([]) == OneAtATime(Flatten([]), h) == Effects([], [], [])
  {
  }

  // Events that are neither handler calls, saves nor marks change no effects.
  lemma SilentEvent(e: Event, events: seq<Event>)
    requires e.Fetched? || e.Committed? || e.Stopped?
    ensures EffectsOf([e] + events) == EffectsOf(events) && EffectsOf(events + [e]) == EffectsOf(events)
  {
    assert ([e] + events)[1..] == events;
    assert [e][1..] == [];
    var e0 := EffectsOf(events);
    EffectsAppend(events, [e]);
    assert [] + e0.calls == e0.calls && [] + e0.saved == e0.saved && [] + e0.marked == e0.marked;
    assert HandlerCalls([e]) == [] && SavedMessages([e]) == [] && MarkedMessages([e]) == [] by {
      assert [e][1..] == [];
    }
    assert e0.calls + [] == e0.calls && e0.saved + [] == e0.saved && e0.marked + [] == e0.marked;
  }

  lemma StepEffects(cfg: Config, s: Settings, mode: Mode, x: Input, h: Message -> Status)
    requires cfg.dlqSave
    requires HandledBy([x], h)
    ensures var step := StepClaim(cfg, s, mode, x);
            (step.verdict.Returned? ==> step.verdict.err == None) ==>
            EffectsOf(step.events) == OneAtATime(Flatten(step.batches), h)
  {
    hide FlushRun, EffectsOf, OneAtATime, Flatten, FlushedMode;
    assert x in [x];
    NoEffects(h);
    var step := StepClaim(cfg, s, mode, x);
    match x {
      case Arrival(m, now, env) =>
        var r := HandledMessage(cfg, s, mode, m, now, env);
        SilentEvent(Fetched(m), r.events);
        if mode.SingleMode? {
          FlattenOne([m]);
          if FlushRun(cfg, [m], env).err == None { FlushEffects(cfg, [m], env, h); }
        } else {
          var buffered :=
            if mode.messages == [] then BatchMode([m], RestartedTimer(mode.timer, s.timeout, now), now)
            else mode.(messages := mode.messages + [m]);
          FlushedEffects(cfg, buffered, env, h);
        }
      case Elapsed(_) =>
      case TimerTick(env) =>
        if TickReady(mode) {
          FlushedEffects(cfg, mode.(timer := Some(mode.timer.value.(tick := None))), env, h);
        }
      case ClaimClosed(env) =>
        FlushedEffects(cfg, mode, env, h);
        var r := FlushedMode(cfg, mode, env);
        assert r.events + [] == r.events;
        SilentEvent(Event.Stopped(false), r.events);
      case ContextDone(env) =>
        FlushedEffects(cfg, mode, env, h);
        var r := FlushedMode(cfg, mode, env);
        SilentEvent(Committed, r.events);
        SilentEvent(Event.Stopped(false), r.events + [Committed]);
    }
  }

  // Up to here, any run without an error has had the effects of handling its flushed messages
  // one at a time.
  lemma {:induction false} RunEffects(cfg: Config, s: Settings, inputs: seq<Input>, h: Message -> Status)
    requires cfg.dlqSave && HandledBy(inputs, h)
    ensures var r := ClaimRun(cfg, s, NewMode(s), inputs);
            (r.verdict.Returned? ==> r.verdict.err == None) ==>
            EffectsOf(r.events) == OneAtATime(Flatten(r.batches), h)
    decreases |inputs|
  {
    hide StepClaim, EffectsOf, OneAtATime, Flatten;
    NoEffects(h);
    if inputs != [] {
      var init, x := inputs[..|inputs| - 1], inputs[|inputs| - 1];
      RunEffects(cfg, s, init, h);
      LastStep(cfg, s, NewMode(s), inputs);
      var r := ClaimRun(cfg, s, NewMode(s), init);
      if r.verdict.Running? {
        StepEffects(cfg, s, r.mode, x, h);
        var step := StepClaim(cfg, s, r.mode, x);
        EffectsAppend(r.events, step.events);
        FlattenAppend(r.batches, step.batches);
        OneAtATimeAppend(Flatten(r.batches), Flatten(step.batches), h);
      }
    }
  }

  // A claim that ends without an error by closing or cancellation flushes every arrival, so its
  // effects are those of one-at-a-time processing: batch size, timeouts, ticks, retries and
  // the kind of saver make no difference.
  lemma EndedClaimIsOneAtATime(cfg: Config, s: Settings, inputs: seq<Input>, last: Input, h: Message -> Status)
    requires cfg.dlqSave && HandledBy(inputs + [last], h)
    requires last.ClaimClosed? || last.ContextDone?
    requires ClaimRun(cfg, s, NewMode(s), inputs).verdict.Running?
    requires ClaimRun(cfg, s, NewMode(s), inputs + [last]).verdict == Returned(None)
    ensures EffectsOf(ClaimRun(cfg, s, NewMode(s), inputs + [last]).events) == OneAtATime(Arrivals(inputs), h)
  {
    hide StepClaim, EffectsOf, OneAtATime, Flatten, NewMode;
    var r := ClaimRun(cfg, s, NewMode(s), inputs);
    ClaimRunSnoc(cfg, s, NewMode(s), inputs, last);
    RunEffects(cfg, s, inputs + [last], h);
    BufferConservation(cfg, s, inputs);
    OneStepConserves(cfg, s, r.mode, last);
    FlattenAppend(r.batches, StepClaim(cfg, s, r.mode, last).batches);
  }

  lemma {:induction false} FlushSplitIndependence(
    cfg: Config, s: Settings, inputs: seq<Input>, last: Input,
    cfg': Config, s': Settings, inputs': seq<Input>, last': Input, h: Message -> Status)
    requires cfg.dlqSave && HandledBy(inputs + [last], h) && (last.ClaimClosed? || last.ContextDone?)
    requires cfg'.dlqSave && HandledBy(inputs' + [last'], h) && (last'.ClaimClosed? || last'.ContextDone?)
    requires ClaimRun(cfg, s, NewMode(s), inputs).verdict.Running?
    requires ClaimRun(cfg, s, NewMode(s), inputs + [last]).verdict == Returned(None)
    requires ClaimRun(cfg', s', NewMode(s'), inputs').verdict.Running?
    requires ClaimRun(cfg', s', NewMode(s'), inputs' + [last']).verdict == Returned(None)
    requires Arrivals(inputs) == Arrivals(inputs')
    ensures EffectsOf(ClaimRun(cfg, s, NewMode(s), inputs + [last]).events) ==
            EffectsOf(ClaimRun(cfg', s', NewMode(s'), inputs' + [last']).events)
  {
    hide ClaimRun, EffectsOf, OneAtATime, Arrivals;
    EndedClaimIsOneAtATime(cfg, s, inputs, last, h);
    EndedClaimIsOneAtATime(cfg', s', inputs', last', h);
  }

  // ---- Without a store ----

  // One message's flush without a store: the handler call, and a mark if it succeeded.
  lemma OneMessageWithoutStore(cfg: Config, m: Message, env: Env)
    requires !cfg.dlqSave && env.handle(m).Handled?
    ensures var status := env.handle(m).status;
            FlushRun(cfg, [m], env) ==
            Flush([HandlerCall(m, status)] + (if status == Succeeded then [Marked(m)] else []), None)
  {
    var o := Outcome(m, env.handle(m).status);
    assert HandleAll([m], env.handle) == HandledAll([HandlerCall(m, o.status)], [o], true) by {
      assert [m][1..] == [];
    }
    assert Finalize(false, [o], {}) == if o.status == Succeeded then [Marked(m)] else [] by {
      assert [o][1..] == [];
      assert Finalize(false, [], {}) == Finalize(false, [], {m.partition}) == [];
    }
  }

  lemma OneArrivalWithoutStore(cfg: Config, s: Settings, m: Message, now: int, env: Env)
    requires !cfg.dlqSave && env.handle(m).Handled?
    ensures var status := env.handle(m).status;
            StepClaim(cfg, s, SingleMode, Arrival(m, now, env)) ==
            Run(SingleMode, [Fetched(m), HandlerCall(m, status)] + (if status == Succeeded then [Marked(m)] else []), [[m]], Running)
  {
    OneMessageWithoutStore(cfg, m, env);
    hide FlushRun;
  }

  lemma TwoArrivals(cfg: Config, s: Settings, x0: Input, x1: Input)
    requires StepClaim(cfg, s, SingleMode, x0).verdict.Running? && StepClaim(cfg, s, SingleMode, x0).mode == SingleMode
    ensures ClaimRun(cfg, s, SingleMode, [x0, x1]).events ==
            StepClaim(cfg, s, SingleMode, x0).events + StepClaim(cfg, s, SingleMode, x1).events
  {
    hide StepClaim;
    assert [x0, x1][1..] == [x1] && [x1][1..] == [];
    var last := StepClaim(cfg, s, SingleMode, x1);
    assert ClaimRun(cfg, s, SingleMode, [x1]).events == last.events by {
      assert last.events + [] == last.events;
      assert ClaimRun(cfg, s, last.mode, []).events == [];
    }
  }

  // A claim without a store and without batches: a message that fails is stored nowhere, and the
  // next one, which succeeds, is marked past it.
  lemma MarksPastAnyFailure(cfg: Config, s: Settings, m0: Message, m1: Message, env: Env)
    requires !cfg.dlqSave && NewMode(s) == SingleMode
    requires env.handle(m0) == Handled(ProcessingFailed) && env.handle(m1) == Handled(Succeeded)
    ensures ClaimRun(cfg, s, NewMode(s), [Arrival(m0, 10, env), Arrival(m1, 20, env)]).events ==
            [Fetched(m0), HandlerCall(m0, ProcessingFailed), Fetched(m1), HandlerCall(m1, Succeeded), Marked(m1)]
  {
    OneArrivalWithoutStore(cfg, s, m0, 10, env);
    OneArrivalWithoutStore(cfg, s, m1, 20, env);
    hide StepClaim, ClaimRun;
    TwoArrivals(cfg, s, Arrival(m0, 10, env), Arrival(m1, 20, env));
  }

  function FailsAt(offset: int): Env {
    Env((m: Message) => Handled(if m.offset == offset then ProcessingFailed else Succeeded), (_, _) => Saved)
  }

  lemma MarksPastFailureInOneClaim()
    ensures var cfg, s := Config(false, 3, false), Settings(false, 1, 0);
            var m0, m1 := Message(0, 0), Message(0, 1);
            ClaimRun(cfg, s, NewMode(s), [Arrival(m0, 10, FailsAt(0)), Arrival(m1, 20, FailsAt(0))]).events ==
            [Fetched(m0), HandlerCall(m0, ProcessingFailed), Fetched(m1), HandlerCall(m1, Succeeded), Marked(m1)]
  {
    hide ClaimRun;
    MarksPastAnyFailure(Config(false, 3, false), Settings(false, 1, 0), Message(0, 0), Message(0, 1), FailsAt(0));
  }
}
