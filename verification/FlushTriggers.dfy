/**
 When the claim loop flushes, what it then hands over and how the pass ends: by size, by timeout,
 by the claim closing and by cancellation, at any point of any schedule.
 */
module FlushTriggers {
  import opened Wrappers
  import opened DlqConsumer
  import opened ClaimMode
  import opened ClaimProperties

  // How many messages a flush by size takes.
  function FlushSize(s: Settings): nat { if s.batchEnabled && s.batchSize > 1 then s.batchSize else 1 }

  // From r to r' one batch went to processBatch, after the events of `lead`; an error of the flush
  // is returned and leaves the buffer as it is, otherwise `farewell` follows and the buffer is empty.
  ghost predicate Flushed(cfg: Config, r: Run, r': Run, lead: seq<Event>, batch: seq<Message>, env: Env,
                          farewell: seq<Event>, verdict: Verdict)
  {
    var flush := FlushRun(cfg, batch, env);
    && r'.batches == r.batches + [batch]
    && r'.events == r.events + lead + flush.events + (if flush.err.Some? then [Event.Stopped(true)] else farewell)
    && r'.verdict == (if flush.err.Some? then Returned(flush.err) else verdict)
    && Pending(r'.mode) == if flush.err.Some? && r.mode.BatchMode? then batch else []
  }

  lemma ModeOf(cfg: Config, s: Settings, inputs: seq<Input>)
    requires ClaimRun(cfg, s, NewMode(s), inputs).verdict.Running?
    ensures var r := ClaimRun(cfg, s, NewMode(s), inputs);
            && (r.mode.BatchMode? <==> s.batchEnabled && s.batchSize > 1)
            && |Pending(r.mode)| < FlushSize(s)
  {
    hide ClaimRun;
    ModeIsStable(cfg, s, inputs);
    BufferConservation(cfg, s, inputs);
  }

  // The step of an arrival, for a mode with room.
  lemma ArrivalStep(cfg: Config, s: Settings, r: Run, m: Message, now: int, env: Env)
    requires (r.mode.BatchMode? <==> s.batchEnabled && s.batchSize > 1) && |Pending(r.mode)| < FlushSize(s)
    ensures var step := StepClaim(cfg, s, r.mode, Arrival(m, now, env));
            var r' := Run(step.mode, r.events + step.events, r.batches + step.batches, step.verdict);
            if |Pending(r.mode)| + 1 < FlushSize(s) then
              && r'.batches == r.batches && r'.events == r.events + [Fetched(m)] && r'.verdict == Running
              && Pending(r'.mode) == Pending(r.mode) + [m]
            else Flushed(cfg, r, r', [Fetched(m)], Pending(r.mode) + [m], env, [], Running)
  {
    hide FlushRun, RestartedTimer, StoppedTimer;
    var step := StepClaim(cfg, s, r.mode, Arrival(m, now, env));
    assert [] + [m] == [m];
    if |Pending(r.mode)| + 1 < FlushSize(s) {
      assert step.events == [Fetched(m)] && r.batches + [] == r.batches;
    } else {
      var flush := FlushRun(cfg, Pending(r.mode) + [m], env);
      var last := if flush.err.Some? then [Event.Stopped(true)] else [];
      assert step.batches == [Pending(r.mode) + [m]];
      assert step.events == [Fetched(m)] + flush.events + last;
      assert r.events + ([Fetched(m)] + flush.events + last) == r.events + [Fetched(m)] + flush.events + last;
    }
  }

  // A message is buffered while there is room for another, and the one that fills the buffer is
  // flushed with it at once: the batch has exactly the configured size.
  lemma ArrivalFlushesIff(cfg: Config, s: Settings, inputs: seq<Input>, m: Message, now: int, env: Env)
    requires ClaimRun(cfg, s, NewMode(s), inputs).verdict.Running?
    ensures var r := ClaimRun(cfg, s, NewMode(s), inputs);
            var r' := ClaimRun(cfg, s, NewMode(s), inputs + [Arrival(m, now, env)]);
            var size := if s.batchEnabled && s.batchSize > 1 then s.batchSize else 1;
            if |Pending(r.mode)| + 1 < size then
              && r'.batches == r.batches && r'.events == r.events + [Fetched(m)] && r'.verdict == Running
              && Pending(r'.mode) == Pending(r.mode) + [m]
            else
              && |Pending(r.mode) + [m]| == size
              && Flushed(cfg, r, r', [Fetched(m)], Pending(r.mode) + [m], env, [], Running)
  {
    hide ClaimRun, StepClaim, NewMode, Flushed;
    ModeOf(cfg, s, inputs);
    ClaimRunSnoc(cfg, s, NewMode(s), inputs, Arrival(m, now, env));
    ArrivalStep(cfg, s, ClaimRun(cfg, s, NewMode(s), inputs), m, now, env);
  }

  // The step of a tick, and of the two ends.
  lemma FlushStep(cfg: Config, s: Settings, r: Run, x: Input)
    requires x.TimerTick? || x.ClaimClosed? || x.ContextDone?
    ensures var step := StepClaim(cfg, s, r.mode, x);
            var r' := Run(step.mode, r.events + step.events, r.batches + step.batches, step.verdict);
            var farewell := if x.TimerTick? then [] else if x.ClaimClosed? then [Event.Stopped(false)] else [Committed, Event.Stopped(false)];
            var verdict := if x.TimerTick? then Running else Returned(None);
            if Pending(r.mode) == [] || (x.TimerTick? && !TickReady(r.mode)) then
              && r'.batches == r.batches && r'.events == r.events + farewell && r'.verdict == verdict
              && Pending(r'.mode) == Pending(r.mode)
            else Flushed(cfg, r, r', [], Pending(r.mode), x.env, farewell, verdict)
  {
    hide FlushRun, StoppedTimer;
    var step := StepClaim(cfg, s, r.mode, x);
    var farewell := if x.TimerTick? then [] else if x.ClaimClosed? then [Event.Stopped(false)] else [Committed, Event.Stopped(false)];
    if Pending(r.mode) == [] || (x.TimerTick? && !TickReady(r.mode)) {
      assert step.events == farewell && step.batches == [];
    } else {
      var flush := FlushRun(cfg, Pending(r.mode), x.env);
      var last := if flush.err.Some? then [Event.Stopped(true)] else farewell;
      assert step.batches == [Pending(r.mode)];
      assert step.events == flush.events + last;
      assert r.events + (flush.events + last) == r.events + [] + flush.events + last;
    }
  }

  // The timer branch flushes the whole buffer when there is a tick, and can do nothing without one.
  lemma TickFlushesIff(cfg: Config, s: Settings, inputs: seq<Input>, env: Env)
    requires ClaimRun(cfg, s, NewMode(s), inputs).verdict.Running?
    ensures var r := ClaimRun(cfg, s, NewMode(s), inputs);
            var r' := ClaimRun(cfg, s, NewMode(s), inputs + [TimerTick(env)]);
            if Pending(r.mode) == [] || !TickReady(r.mode) then
              r'.batches == r.batches && r'.events == r.events && r'.verdict == Running && Pending(r'.mode) == Pending(r.mode)
            else Flushed(cfg, r, r', [], Pending(r.mode), env, [], Running)
  {
    hide ClaimRun, StepClaim, NewMode, Flushed, TickReady;
    var r := ClaimRun(cfg, s, NewMode(s), inputs);
    ClaimRunSnoc(cfg, s, NewMode(s), inputs, TimerTick(env));
    FlushStep(cfg, s, r, TimerTick(env));
    assert r.events + [] == r.events;
  }

  // Closing and cancellation flush what is buffered, if anything, and end the claim without an
  // error unless the flush has one; only cancellation commits, and only after a flush without one.
  lemma EndFlushesIff(cfg: Config, s: Settings, inputs: seq<Input>, x: Input)
    requires ClaimRun(cfg, s, NewMode(s), inputs).verdict.Running? && (x.ClaimClosed? || x.ContextDone?)
    ensures var r := ClaimRun(cfg, s, NewMode(s), inputs);
            var r' := ClaimRun(cfg, s, NewMode(s), inputs + [x]);
            var farewell := if x.ClaimClosed? then [Event.Stopped(false)] else [Committed, Event.Stopped(false)];
            if Pending(r.mode) == [] then
              r'.batches == r.batches && r'.events == r.events + farewell && r'.verdict == Returned(None)
            else Flushed(cfg, r, r', [], Pending(r.mode), x.env, farewell, Returned(None))
  {
    hide ClaimRun, StepClaim, NewMode, Flushed;
    ClaimRunSnoc(cfg, s, NewMode(s), inputs, x);
    FlushStep(cfg, s, ClaimRun(cfg, s, NewMode(s), inputs), x);
  }

  // A tick appears exactly when the clock reaches the deadline of the message that opened the
  // buffer; with no timeout, or nothing buffered, never.
  lemma TickComesIff(cfg: Config, s: Settings, inputs: seq<Input>, now: int)
    requires ClaimRun(cfg, s, NewMode(s), inputs).verdict.Running?
    ensures var r := ClaimRun(cfg, s, NewMode(s), inputs);
            var r' := ClaimRun(cfg, s, NewMode(s), inputs + [Elapsed(now)]);
            && r'.verdict == Running && r'.batches == r.batches && r'.events == r.events
            && Pending(r'.mode) == Pending(r.mode)
            && (Pending(r.mode) == [] || s.timeout <= 0 ==> !TickReady(r'.mode))
            && (Pending(r.mode) != [] && s.timeout > 0 ==>
                exists i: nat :: OpenedAt(inputs, i, r.mode) &&
                  (TickReady(r'.mode) <==> TickReady(r.mode) || now >= inputs[i].now + s.timeout))
  {
    var r := ClaimRun(cfg, s, NewMode(s), inputs);
    hide ClaimRun, NewMode, OpenedAt;
    TimerDiscipline(cfg, s, inputs);
    ClaimRunSnoc(cfg, s, NewMode(s), inputs, Elapsed(now));
    assert r.events + [] == r.events && r.batches + [] == r.batches;
    if Pending(r.mode) != [] && s.timeout > 0 {
      var i: nat :| OpenedAt(inputs, i, r.mode);
      OpenedThen(inputs, i, r.mode);
    }
  }

  lemma OpenedThen(inputs: seq<Input>, i: nat, mode: Mode)
    requires mode.BatchMode? && OpenedAt(inputs, i, mode)
    ensures i < |inputs| && inputs[i].Arrival? && inputs[i].now == mode.firstAt
  {
  }

  // However a claim ends, its timer no longer runs.
  lemma {:induction false} EndedClaimHasNoTimer(cfg: Config, s: Settings, inputs: seq<Input>)
    ensures var r := ClaimRun(cfg, s, NewMode(s), inputs);
            r.verdict.Returned? && r.mode.BatchMode? && r.mode.timer.Some? ==> r.mode.timer.value.armed == None
    decreases |inputs|
  {
    hide StepClaim, NewMode;
    if inputs != [] {
      var init, x := inputs[..|inputs| - 1], inputs[|inputs| - 1];
      EndedClaimHasNoTimer(cfg, s, init);
      LastStep(cfg, s, NewMode(s), inputs);
      LeavingStops(cfg, s, ClaimRun(cfg, s, NewMode(s), init).mode, x);
    }
  }

  lemma LeavingStops(cfg: Config, s: Settings, mode: Mode, x: Input)
    ensures var step := StepClaim(cfg, s, mode, x);
            step.verdict.Returned? && step.mode.BatchMode? && step.mode.timer.Some? ==> step.mode.timer.value.armed == None
  {
    hide FlushRun;
  }
}
