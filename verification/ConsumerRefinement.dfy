/**
 Everything the claim loop does, with the dead-letter store on, is a run of the protocol: any
 mode, batch size, timeout, saver, retry count, answers of handler and store, and any way out.
 */
module ConsumerRefinement {
  import opened Wrappers
  import opened DlqConsumer
  import opened FlushProperties
  import opened ClaimMode
  import opened ClaimProperties
  import opened DlqProtocol

  function Acts(events: seq<Event>): seq<Action> {
    seq(|events|, i requires 0 <= i < |events| => Did(events[i]))
  }

  ghost predicate Reaches(s: State, events: seq<Event>, t: State) {
    RunAll(s, Acts(events)) == Some(t)
  }

  lemma ReachesNothing(s: State)
    ensures Reaches(s, [], s)
  {
  }

  lemma ReachesOne(s: State, e: Event, t: State)
    requires Step(s, Did(e)) == Some(t)
    ensures Reaches(s, [e], t)
  {
    hide Step;
    assert Acts([e])[..0] == [] && Acts([e])[0] == Did(e);
    assert RunAll(s, []) == Some(s);
  }

  lemma ReachesThen(s: State, a: seq<Event>, t: State, b: seq<Event>, u: State)
    requires Reaches(s, a, t) && Reaches(t, b, u)
    ensures Reaches(s, a + b, u)
  {
    assert Acts(a + b) == Acts(a) + Acts(b);
    RunAppend(s, Acts(a), Acts(b));
  }

  // The messages are those of the buffer from position k on.
  ghost predicate Matches(s: State, k: nat, ms: seq<Message>) {
    k + |ms| == |s.buffer| && forall i :: 0 <= i < |ms| ==> ms[i] == Message(s.partition, s.buffer[k + i])
  }

  ghost predicate SameLog(s: State, t: State) {
    t.partition == s.partition && t.log == s.log && t.next == s.next
  }

  lemma MatchesLength(s: State, k: nat, ms: seq<Message>)
    requires Matches(s, k, ms)
    ensures k + |ms| == |s.buffer|
  {
  }

  lemma InitFailureStays(s: State, m: Message)
    requires s.phase.Handling?
    ensures Step(s, Did(InitFailed(m))) == Some(s)
  {
  }

  lemma OneHandled(s: State, k: nat, ms: seq<Message>, status: Status) returns (t: State)
    requires s.phase == Handling(k) && Matches(s, k, ms) && ms != []
    ensures Reaches(s, [HandlerCall(ms[0], status)], t)
    ensures SameLog(s, t) && t.buffer == s.buffer && t.phase == Handling(k + 1)
    ensures t.pending == s.pending + (if status == Succeeded then {} else {ms[0].offset})
    ensures Matches(t, k + 1, ms[1..])
  {
    hide Reaches;
    t := Step(s, Did(HandlerCall(ms[0], status))).value;
    ReachesOne(s, HandlerCall(ms[0], status), t);
  }

  lemma {:induction false} HandlingReaches(s: State, k: nat, ms: seq<Message>, handle: Message -> Handling) returns (t: State)
    requires s.phase == Handling(k) && Matches(s, k, ms)
    ensures var r := HandleAll(ms, handle);
            && Reaches(s, r.events, t)
            && SameLog(s, t) && t.buffer == s.buffer
            && (r.ok ==>
                && t.phase == Handling(|s.buffer|)
                && t.pending == s.pending + Offsets(FailedMessages(r.outcomes))
                && Inputs(r.outcomes) == ms)
    decreases |ms|
  {
    hide Reaches, Step, RunAll, Matches;
    if ms == [] {
      assert k == |s.buffer| by { MatchesLength(s, k, ms); }
      ReachesNothing(s);
      t := s;
    } else {
      var m := ms[0];
      match handle(m) {
        case CannotCreate =>
          assert Step(s, Did(InitFailed(m))) == Some(s) by { InitFailureStays(s, m); }
          ReachesOne(s, InitFailed(m), s);
          t := s;
        case Handled(status) =>
          var one := OneHandled(s, k, ms, status);
          t := HandlingReaches(one, k + 1, ms[1..], handle);
          ReachesThen(s, [HandlerCall(m, status)], one, HandleAll(ms[1..], handle).events, t);
          var r, rest := HandleAll(ms, handle), HandleAll(ms[1..], handle);
          assert r.outcomes[1..] == rest.outcomes;
      }
    }
  }

  ghost predicate Buffered(s: State, ms: seq<Message>) {
    forall m <- ms :: m.partition == s.partition && m.offset in s.buffer
  }

  lemma {:induction false} SavingReaches(s: State, ms: seq<Message>, save: (nat, nat) -> Attempt, k: nat, a: nat, limit: nat)
    returns (t: State)
    requires a <= limit
    requires s.phase == Handling(|s.buffer|) && Buffered(s, ms)
    ensures var r := SaveRun(ms, save, k, a, limit);
            && Reaches(s, r.events, t)
            && SameLog(s, t) && t.buffer == s.buffer && t.phase == s.phase
            && t.pending == s.pending - (if r.err.None? then Offsets(ms) else {})
    decreases limit - a
  {
    var saved := save(k, a).Saved?;
    t := Step(s, Did(SaveAttempt(ms, a, saved))).value;
    ReachesOne(s, SaveAttempt(ms, a, saved), t);
    if save(k, a) == NotSaved(false) && a < limit {
      t := SavingReaches(s, ms, save, k, a + 1, limit);
      ReachesThen(s, [SaveAttempt(ms, a, false)], s, SaveRun(ms, save, k, a + 1, limit).events, t);
    }
  }

  lemma {:induction false} SavingEachReaches(s: State, ms: seq<Message>, k: nat, save: (nat, nat) -> Attempt, limit: nat)
    returns (t: State)
    requires 1 <= limit
    requires s.phase == Handling(|s.buffer|) && Buffered(s, ms)
    ensures var r := SaveEach(ms, k, save, limit);
            && Reaches(s, r.events, t)
            && SameLog(s, t) && t.buffer == s.buffer && t.phase == s.phase
            && (r.err.None? ==> t.pending == s.pending - Offsets(ms))
    decreases |ms|
  {
    if ms == [] {
      ReachesNothing(s);
      t := s;
    } else {
      t := SavingReaches(s, [ms[0]], save, k, 1, limit);
      var first := SaveRun([ms[0]], save, k, 1, limit);
      if first.err.None? {
        var u := SavingEachReaches(t, ms[1..], k + 1, save, limit);
        ReachesThen(s, first.events, t, SaveEach(ms[1..], k + 1, save, limit).events, u);
        assert Offsets(ms) == Offsets([ms[0]]) + Offsets(ms[1..]);
        t := u;
      }
    }
  }

  lemma PersistReaches(cfg: Config, s: State, failed: seq<Message>, save: (nat, nat) -> Attempt) returns (t: State)
    requires cfg.dlqSave
    requires s.phase == Handling(|s.buffer|) && Buffered(s, failed) && s.pending == Offsets(failed)
    ensures var r := Persist(cfg, failed, save);
            && Reaches(s, r.events, t)
            && SameLog(s, t) && t.buffer == s.buffer && t.phase == s.phase
            && (r.err.None? ==> t.pending == {})
  {
    hide SaveRun, SaveEach;
    if failed == [] {
      ReachesNothing(s);
      t := s;
    } else if cfg.batchSaver {
      t := SavingReaches(s, failed, save, 0, 1, Attempts(cfg));
    } else {
      t := SavingEachReaches(s, failed, 0, save, Attempts(cfg));
    }
  }

  lemma {:induction false} MarkingReaches(s: State, k: nat, outcomes: seq<Outcome>) returns (t: State)
    requires outcomes != [] && Matches(s, k, Inputs(outcomes))
    requires if k == 0 then s.phase == Handling(|s.buffer|) && s.pending == {} else s.phase == Marking(k) && s.pending == {}
    ensures Reaches(s, Finalize(true, outcomes, {}), t)
    ensures SameLog(s, t) && t.buffer == [] && t.phase == Handling(0) && t.pending == {}
    decreases |outcomes|
  {
    var m := outcomes[0].message;
    assert Inputs(outcomes)[0] == m;
    t := Step(s, Did(Marked(m))).value;
    ReachesOne(s, Marked(m), t);
    if |outcomes| == 1 {
      assert outcomes[1..] == [];
      assert Finalize(true, outcomes, {}) == [Marked(m)];
    } else {
      var rest := outcomes[1..];
      assert Inputs(outcomes)[1..] == Inputs(rest);
      assert |Inputs(rest)| > 0;
      var u := MarkingReaches(t, k + 1, rest);
      ReachesThen(s, [Marked(m)], t, Finalize(true, rest, {}), u);
      t := u;
    }
  }

  lemma {:induction false} FailuresAreInputs(outcomes: seq<Outcome>, m: Message)
    requires m in FailedMessages(outcomes)
    ensures m in Inputs(outcomes)
  {
    if m in FailedMessages(outcomes[1..]) { FailuresAreInputs(outcomes[1..], m); }
  }

  // A flush of the whole buffer: it empties the buffer or ends in an error.
  lemma FlushReaches(cfg: Config, s: State, ms: seq<Message>, env: Env) returns (t: State)
    requires cfg.dlqSave
    requires ms != [] && s.phase == Handling(0) && s.pending == {} && Matches(s, 0, ms)
    ensures var r := FlushRun(cfg, ms, env);
            && Reaches(s, r.events, t)
            && SameLog(s, t)
            && (r.err.None? ==> t.buffer == [] && t.phase == Handling(0) && t.pending == {})
  {
    hide HandleAll, FailedMessages, Persist, Finalize, Inputs, Step, RunAll;
    var r := HandleAll(ms, env.handle);
    t := HandlingReaches(s, 0, ms, env.handle);
    if r.ok {
      var failed := FailedMessages(r.outcomes);
      assert Buffered(t, failed) by {
        forall m | m in failed ensures m.partition == s.partition && m.offset in s.buffer {
          FailuresAreInputs(r.outcomes, m);
        }
      }
      var p := Persist(cfg, failed, env.save);
      var u := PersistReaches(cfg, t, failed, env.save);
      ReachesThen(s, r.events, t, p.events, u);
      t := u;
      if p.err.None? {
        NoInputs(r.outcomes);
        var v := MarkingReaches(u, 0, r.outcomes);
        ReachesThen(s, r.events + p.events, u, Finalize(true, r.outcomes, {}), v);
        t := v;
      }
    }
  }

  lemma NoInputs(outcomes: seq<Outcome>)
    ensures Inputs(outcomes) != [] ==> outcomes != []
  {
  }

  // The protocol is where the loop is: collecting, with the same buffer.
  ghost predicate Synced(s: State, mode: Mode) {
    s.phase == Handling(0) && s.pending == {} && Matches(s, 0, Pending(mode))
  }

  lemma FlushedReaches(cfg: Config, s: State, mode: Mode, env: Env) returns (t: State)
    requires cfg.dlqSave && Synced(s, mode)
    ensures var r := FlushedMode(cfg, mode, env);
            && Reaches(s, r.events, t) && SameLog(s, t)
            && (r.verdict.Running? ==> Synced(t, r.mode))
  {
    hide FlushRun, RunAll;
    if mode.SingleMode? || mode.messages == [] {
      ReachesNothing(s);
      t := s;
    } else {
      t := FlushReaches(cfg, s, mode.messages, env);
    }
  }

  lemma LeavingReaches(s: State, events: seq<Event>, t: State, failed: bool) returns (u: State)
    requires Reaches(s, events, t)
    ensures Reaches(s, events + [Event.Stopped(failed)], u) && SameLog(t, u)
  {
    u := t.(phase := Ended);
    ReachesOne(t, Event.Stopped(failed), u);
    ReachesThen(s, events, t, [Event.Stopped(failed)], u);
  }

  // Arrivals come in log order.
  ghost predicate Delivers(s: State, x: Input) {
    x.Arrival? ==> s.next < |s.log| && x.message == Message(s.partition, s.log[s.next])
  }

  lemma ArrivalReaches(cfg: Config, settings: Settings, s: State, mode: Mode, m: Message, now: int, env: Env)
    returns (t: State)
    requires cfg.dlqSave && Synced(s, mode)
    requires s.next < |s.log| && m == Message(s.partition, s.log[s.next])
    ensures var r := HandledMessage(cfg, settings, mode, m, now, env);
            && Reaches(s, [Fetched(m)] + r.events, t)
            && SameLog(s.(next := s.next + 1), t)
            && (r.verdict.Running? ==> Synced(t, r.mode))
  {
    hide FlushRun, FlushedMode, RunAll;
    var fetched := Step(s, Did(Fetched(m))).value;
    ReachesOne(s, Fetched(m), fetched);
    var r := HandledMessage(cfg, settings, mode, m, now, env);
    if mode.SingleMode? {
      t := FlushReaches(cfg, fetched, [m], env);
      ReachesThen(s, [Fetched(m)], fetched, r.events, t);
    } else {
      var buffered :=
        if mode.messages == [] then BatchMode([m], RestartedTimer(mode.timer, settings.timeout, now), now)
        else mode.(messages := mode.messages + [m]);
      if |buffered.messages| < settings.batchSize {
        assert [Fetched(m)] + [] == [Fetched(m)];
        t := fetched;
      } else {
        t := FlushedReaches(cfg, fetched, buffered, env);
        ReachesThen(s, [Fetched(m)], fetched, r.events, t);
      }
    }
  }

  lemma StepReaches(cfg: Config, settings: Settings, s: State, mode: Mode, x: Input) returns (t: State)
    requires cfg.dlqSave && Synced(s, mode) && Delivers(s, x)
    ensures var r := StepClaim(cfg, settings, mode, x);
            && Reaches(s, r.events, t)
            && SameLog(s.(next := s.next + (if x.Arrival? then 1 else 0)), t)
            && (r.verdict.Running? ==> Synced(t, r.mode))
  {
    hide FlushRun, FlushedMode, HandledMessage, RunAll, Step;
    match x {
      case Arrival(m, now, env) =>
        var r := HandledMessage(cfg, settings, mode, m, now, env);
        t := ArrivalReaches(cfg, settings, s, mode, m, now, env);
        if r.verdict.Returned? {
          assert [Fetched(m)] + r.events + [] == [Fetched(m)] + r.events;
          t := LeavingReaches(s, [Fetched(m)] + r.events, t, r.verdict.err.Some?);
        }
      case Elapsed(_) =>
        ReachesNothing(s);
        t := s;
      case TimerTick(env) =>
        if TickReady(mode) {
          var ticked := mode.(timer := Some(mode.timer.value.(tick := None)));
          var r := FlushedMode(cfg, ticked, env);
          t := FlushedReaches(cfg, s, ticked, env);
          if r.verdict.Returned? {
            assert r.events + [] == r.events;
            t := LeavingReaches(s, r.events, t, r.verdict.err.Some?);
          }
        } else {
          ReachesNothing(s);
          t := s;
        }
      case ClaimClosed(env) =>
        var r := FlushedMode(cfg, mode, env);
        t := FlushedReaches(cfg, s, mode, env);
        assert r.events + [] == r.events;
        t := LeavingReaches(s, r.events, t, r.verdict.Returned? && r.verdict.err.Some?);
      case ContextDone(env) =>
        var r := FlushedMode(cfg, mode, env);
        t := FlushedReaches(cfg, s, mode, env);
        if r.verdict.Returned? {
          assert r.events + [] == r.events;
          t := LeavingReaches(s, r.events, t, r.verdict.err.Some?);
        } else {
          t := CommitReaches(s, r.events, t);
          t := LeavingReaches(s, r.events + [Committed], t, false);
        }
    }
  }

  lemma CommitReaches(s: State, events: seq<Event>, t: State) returns (u: State)
    requires Reaches(s, events, t)
    ensures Reaches(s, events + [Committed], u) && SameLog(t, u)
  {
    u := t.(committed := t.marked);
    ReachesOne(t, Committed, u);
    ReachesThen(s, events, t, [Committed], u);
  }

  // The claim hands over the log from `next` on.
  ghost predicate DeliversLog(s: State, inputs: seq<Input>) {
    var ms := Arrivals(inputs);
    s.next + |ms| <= |s.log| && forall i :: 0 <= i < |ms| ==> ms[i] == Message(s.partition, s.log[s.next + i])
  }

  lemma {:induction false} ClaimIsProtocolRun(cfg: Config, settings: Settings, s: State, inputs: seq<Input>)
    returns (t: State)
    requires cfg.dlqSave && Synced(s, NewMode(settings)) && DeliversLog(s, inputs)
    ensures var r := ClaimRun(cfg, settings, NewMode(settings), inputs);
            && Reaches(s, r.events, t)
            && (r.verdict.Running? ==>
                Synced(t, r.mode) && SameLog(s.(next := s.next + |Arrivals(inputs)|), t))
    decreases |inputs|
  {
    hide StepClaim, RunAll, Step, Arrivals, DeliversLog, Reaches, Synced, ClaimRun;
    if inputs == [] {
      ReachesNothing(s);
      EmptySchedule(cfg, settings, NewMode(settings));
      t := s;
    } else {
      var init, x := inputs[..|inputs| - 1], inputs[|inputs| - 1];
      DeliversPrefix(s, inputs);
      t := ClaimIsProtocolRun(cfg, settings, s, init);
      LastStep(cfg, settings, NewMode(settings), inputs);
      var r := ClaimRun(cfg, settings, NewMode(settings), init);
      if r.verdict.Running? {
        var step := StepClaim(cfg, settings, r.mode, x);
        var u := StepReaches(cfg, settings, t, r.mode, x);
        ReachesThen(s, r.events, t, step.events, u);
        t := u;
      }
    }
  }

  lemma EmptySchedule(cfg: Config, settings: Settings, mode: Mode)
    ensures ClaimRun(cfg, settings, mode, []) == Run(mode, [], [], Running) && Arrivals([]) == []
  {
  }

  lemma DeliversPrefix(s: State, inputs: seq<Input>)
    requires inputs != [] && DeliversLog(s, inputs)
    ensures var init, x := inputs[..|inputs| - 1], inputs[|inputs| - 1];
            && DeliversLog(s, init)
            && |Arrivals(inputs)| == |Arrivals(init)| + (if x.Arrival? then 1 else 0)
            && Delivers(s.(next := s.next + |Arrivals(init)|), x)
  {
    var init, x := inputs[..|inputs| - 1], inputs[|inputs| - 1];
    assert Arrivals(inputs) == Arrivals(init) + (if x.Arrival? then [x.message] else []);
    assert forall i :: 0 <= i < |Arrivals(init)| ==> Arrivals(init)[i] == Arrivals(inputs)[i];
    assert x.Arrival? ==> Arrivals(inputs)[|Arrivals(init)|] == x.message;
  }

  // A session of the real loop after any history of the group: the two together are a protocol
  // run again, and whatever the loop marks had been handled without error or stored before.
  lemma SessionLosesNothing(s0: State, before: seq<Action>, cfg: Config, settings: Settings, inputs: seq<Input>)
    returns (t: State)
    requires Initial(s0) && RunAll(s0, before).Some? && cfg.dlqSave
    requires Synced(RunAll(s0, before).value, NewMode(settings)) && DeliversLog(RunAll(s0, before).value, inputs)
    ensures var events := ClaimRun(cfg, settings, NewMode(settings), inputs).events;
            && RunAll(s0, before + Acts(events)) == Some(t)
            && forall k, m :: 0 <= k < |events| && events[k] == Marked(m) ==>
                 HandledOrStored(before + Acts(events[..k]), m.offset)
  {
    hide RunAll, Step, Initial, ClaimRun, DeliversLog, Synced, HandledOrStored;
    var s := RunAll(s0, before).value;
    t := ClaimIsProtocolRun(cfg, settings, s, inputs);
    var events := ClaimRun(cfg, settings, NewMode(settings), inputs).events;
    var actions := before + Acts(events);
    RunAppend(s0, before, Acts(events));
    forall k, m | 0 <= k < |events| && events[k] == Marked(m)
      ensures HandledOrStored(before + Acts(events[..k]), m.offset)
    {
      SettledBeforeMarked(s0, actions, |before| + k, m);
      assert actions[..|before| + k] == before + Acts(events[..k]);
    }
  }

  // Such a session may start from the very first state and after every restart.
  lemma SessionsStart(s: State, settings: Settings)
    ensures Initial(s) ==> Synced(s, NewMode(settings))
    ensures Step(s, Restarted).Some? && Synced(Step(s, Restarted).value, NewMode(settings))
  {
  }
}
