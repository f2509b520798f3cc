/**
 Buffering in pkg/adapters/kafka/consumer/dql/claim_mode.go and the loop of ConsumeClaim around
 it. The select statement of the loop is a schedule: a list of inputs, each the branch taken.
 */
module ClaimMode {
  import opened Wrappers
  import opened DlqConsumer

  // time.Timer: a deadline while it runs, and the one-place channel, whose tick is named by the
  // deadline it was sent for.
  datatype Timer = Timer(armed: Option<int>, tick: Option<int>)

  // firstAt is the arrival time of the oldest buffered message.
  datatype Mode = SingleMode | BatchMode(messages: seq<Message>, timer: Option<Timer>, firstAt: int)

  datatype Settings = Settings(batchEnabled: bool, batchSize: int, timeout: int)

  datatype Input =
    | Arrival(message: Message, now: int, env: Env)
    | Elapsed(now: int)             // time passes; a due timer sends its tick
    | TimerTick(env: Env)           // <-mode.Timer()
    | ClaimClosed(env: Env)
    | ContextDone(env: Env)

  datatype Verdict = Running | Returned(err: Option<Error>)

  // ---- The loop, as functions ----

  function Expired(t: Timer, now: int): Timer {
    if t.armed.Some? && t.armed.value <= now
    then Timer(None, if t.tick.Some? then t.tick else t.armed)
    else t
  }

  // Stop, and a drain of the channel when the timer was not running any more.
  function StoppedTimer(t: Option<Timer>): Option<Timer> {
    match t
    case None => None
    case Some(timer) => Some(if timer.armed.Some? then Timer(None, timer.tick) else Timer(None, None))
  }

  function RestartedTimer(t: Option<Timer>, timeout: int, now: int): Option<Timer> {
    if timeout <= 0 then t
    else
      match StoppedTimer(t)
      case None => Some(Timer(Some(now + timeout), None))
      case Some(stopped) => Some(Timer(Some(now + timeout), stopped.tick))
  }

  // Timer() returns a channel and it holds a tick.
  predicate TickReady(mode: Mode) {
    mode.BatchMode? && mode.timer.Some? && mode.messages != [] && mode.timer.value.tick.Some?
  }

  // batches: what was handed to processBatch.
  datatype Run = Run(mode: Mode, events: seq<Event>, batches: seq<seq<Message>>, verdict: Verdict)

  function FlushedMode(cfg: Config, mode: Mode, env: Env): (r: Run)
    ensures r.verdict.Returned? ==> r.verdict.err.Some?
    ensures r.mode.BatchMode? <==> mode.BatchMode?
  {
    if mode.SingleMode? || mode.messages == [] then Run(mode, [], [], Running)
    else
      var flush := FlushRun(cfg, mode.messages, env);
      if flush.err.Some? then Run(mode, flush.events, [mode.messages], Returned(flush.err))
      else Run(mode.(messages := [], timer := StoppedTimer(mode.timer)), flush.events, [mode.messages], Running)
  }

  function HandledMessage(cfg: Config, s: Settings, mode: Mode, m: Message, now: int, env: Env): (r: Run)
    ensures r.verdict.Returned? ==> r.verdict.err.Some?
    ensures r.mode.BatchMode? <==> mode.BatchMode?
  {
    match mode
    case SingleMode =>
      var flush := FlushRun(cfg, [m], env);
      Run(mode, flush.events, [[m]], if flush.err.Some? then Returned(flush.err) else Running)
    case BatchMode(messages, timer, firstAt) =>
      var buffered :=
        if messages == [] then BatchMode([m], RestartedTimer(timer, s.timeout, now), now)
        else mode.(messages := messages + [m]);
      if |buffered.messages| < s.batchSize then Run(buffered, [], [], Running)
      else FlushedMode(cfg, buffered, env)
  }

  // The deferred mode.Stop() on the way out.
  function Leave(r: Run, farewell: seq<Event>, err: Option<Error>): Run {
    r.(mode := if r.mode.BatchMode? then r.mode.(timer := StoppedTimer(r.mode.timer)) else r.mode,
       events := r.events + farewell + [Event.Stopped(err.Some?)],
       verdict := Returned(err))
  }

  function StepClaim(cfg: Config, s: Settings, mode: Mode, input: Input): Run {
    match input
    case Arrival(m, now, env) =>
      var r := HandledMessage(cfg, s, mode, m, now, env);
      var fetched := r.(events := [Fetched(m)] + r.events);
      if r.verdict.Returned? then Leave(fetched, [], r.verdict.err) else fetched
    case Elapsed(now) =>
      Run(if mode.BatchMode? && mode.timer.Some? then mode.(timer := Some(Expired(mode.timer.value, now))) else mode,
          [], [], Running)
    case TimerTick(env) =>
      if !TickReady(mode) then Run(mode, [], [], Running)  // this branch cannot be taken
      else
        var r := FlushedMode(cfg, mode.(timer := Some(mode.timer.value.(tick := None))), env);
        if r.verdict.Returned? then Leave(r, [], r.verdict.err) else r
    case ClaimClosed(env) =>
      var r := FlushedMode(cfg, mode, env);
      Leave(r, [], if r.verdict.Returned? then r.verdict.err else None)
    case ContextDone(env) =>
      var r := FlushedMode(cfg, mode, env);
      if r.verdict.Returned? then Leave(r, [], r.verdict.err) else Leave(r, [Committed], None)
  }

  function ClaimRun(cfg: Config, s: Settings, mode: Mode, inputs: seq<Input>): Run
    decreases |inputs|
  {
    if inputs == [] then Run(mode, [], [], Running)
    else
      var first := StepClaim(cfg, s, mode, inputs[0]);
      if first.verdict.Returned? then first
      else
        var rest := ClaimRun(cfg, s, first.mode, inputs[1..]);
        Run(rest.mode, first.events + rest.events, first.batches + rest.batches, rest.verdict)
  }

  function NewMode(s: Settings): Mode {
    if s.batchEnabled && s.batchSize > 1 then BatchMode([], None, 0) else SingleMode
  }

  // ---- The objects ----

  class GoTimer {
    var armed: Option<int>
    var tick: Option<int>

    constructor (deadline: int)
      ensures View() == Timer(Some(deadline), None)
    {
      armed, tick := Some(deadline), None;
    }

    function View(): Timer
      reads this
    {
      Timer(armed, tick)
    }

    method Stop() returns (active: bool)
      modifies this
      ensures active == old(armed).Some? && armed == None && tick == old(tick)
    {
      active := armed.Some?;
      armed := None;
    }

    // select { case <-timer.C: default: }
    method Drain()
      modifies this
      ensures tick == None && armed == old(armed)
    {
      tick := None;
    }

    method Reset(deadline: int)
      modifies this
      ensures armed == Some(deadline) && tick == old(tick)
    {
      armed := Some(deadline);
    }

    method Elapse(now: int)
      modifies this
      ensures View() == Expired(old(View()), now)
    {
      if armed.Some? && armed.value <= now {
        if tick.None? {
          tick := armed;
        }
        armed := None;
      }
    }
  }

  class BatchClaimMode {
    const settings: Settings
    const consumer: Consumer
    var messages: seq<Message>
    var timer: GoTimer?
    ghost var firstAt: int

    constructor (s: Settings, consumer: Consumer)
      ensures settings == s && this.consumer == consumer
      ensures View() == BatchMode([], None, 0) && Footprint() == {this, consumer}
    {
      settings := s;
      this.consumer := consumer;
      messages := [];
      timer := null;
      firstAt := 0;
    }

    ghost function Footprint(): set<object>
      reads this
    {
      if timer == null then {this, consumer} else {this, consumer, timer}
    }

    ghost function View(): (mode: Mode)
      reads this, timer
      ensures mode.BatchMode?
    {
      BatchMode(messages, TimerView(), firstAt)
    }

    ghost function TimerView(): Option<Timer>
      reads this, timer
    {
      if timer == null then None else Some(timer.View())
    }

    method HandleMessage(m: Message, now: int, env: Env) returns (err: Option<Error>)
      modifies Footprint()
      ensures fresh(Footprint() - old(Footprint()))
      ensures var r := HandledMessage(consumer.cfg, settings, old(View()), m, now, env);
              && View() == r.mode
              && consumer.journal == old(consumer.journal) + r.events
              && err == if r.verdict.Returned? then r.verdict.err else None
    {
      hide FlushRun;
      assert messages == [] ==> messages + [m] == [m];
      messages := messages + [m];
      if |messages| == 1 {
        firstAt := now;
        ResetTimer(now);
      }
      if |messages| < settings.batchSize {
        return None;
      }
      err := HandleFlush(env);
    }

    method HandleFlush(env: Env) returns (err: Option<Error>)
      modifies Footprint()
      ensures timer == old(timer)
      ensures var r := FlushedMode(consumer.cfg, old(View()), env);
              && View() == r.mode
              && consumer.journal == old(consumer.journal) + r.events
              && err == if r.verdict.Returned? then r.verdict.err else None
    {
      if |messages| == 0 {
        return None;
      }
      err := consumer.ProcessBatch(messages, env);
      if err.Some? {
        return;
      }
      messages := [];
      StopTimer();
    }

    method ResetTimer(now: int)
      modifies this`timer, timer
      ensures fresh(timer) || timer == old(timer)
      ensures messages == old(messages) && firstAt == old(firstAt)
      ensures TimerView() == RestartedTimer(old(TimerView()), settings.timeout, now)
    {
      if settings.timeout <= 0 {
        return;
      }
      if timer == null {
        timer := new GoTimer(now + settings.timeout);
        return;
      }
      var active := timer.Stop();
      if !active {
        timer.Drain();
      }
      timer.Reset(now + settings.timeout);
    }

    method StopTimer()
      modifies timer
      ensures messages == old(messages) && firstAt == old(firstAt)
      ensures TimerView() == StoppedTimer(old(TimerView()))
    {
      if timer == null {
        return;
      }
      var active := timer.Stop();
      if !active {
        timer.Drain();
      }
    }
  }

  // The deferred Stop and the return.
  method StopAndReturn(mode: BatchClaimMode, err: Option<Error>) returns (verdict: Verdict)
    modifies mode.timer, mode.consumer`journal
    ensures mode.messages == old(mode.messages) && mode.firstAt == old(mode.firstAt)
    ensures mode.TimerView() == StoppedTimer(old(mode.TimerView()))
    ensures mode.consumer.journal == old(mode.consumer.journal) + [Event.Stopped(err.Some?)]
    ensures verdict == Returned(err)
  {
    mode.StopTimer();
    mode.consumer.Record(Event.Stopped(err.Some?));
    return Returned(err);
  }

  // case message, ok := <-claim.Messages(), with a message.
  method TakeMessage(mode: BatchClaimMode, input: Input) returns (verdict: Verdict)
    requires input.Arrival?
    modifies mode.Footprint()
    ensures fresh(mode.Footprint() - old(mode.Footprint()))
    ensures var r := StepClaim(mode.consumer.cfg, mode.settings, old(mode.View()), input);
            && mode.View() == r.mode
            && mode.consumer.journal == old(mode.consumer.journal) + r.events
            && verdict == r.verdict
  {
    hide FlushedMode, HandledMessage, Expired, StoppedTimer, RestartedTimer;
    var consumer := mode.consumer;
    consumer.Record(Fetched(input.message));
    ghost var r := HandledMessage(consumer.cfg, mode.settings, mode.View(), input.message, input.now, input.env);
    var err := mode.HandleMessage(input.message, input.now, input.env);
    assert consumer.journal == old(mode.consumer.journal) + ([Fetched(input.message)] + r.events);
    if err.None? {
      return Running;
    }
    verdict := StopAndReturn(mode, err);
  }

  // case <-mode.Timer().
  method TakeTick(mode: BatchClaimMode, input: Input) returns (verdict: Verdict)
    requires input.TimerTick?
    modifies mode.Footprint()
    ensures fresh(mode.Footprint() - old(mode.Footprint()))
    ensures var r := StepClaim(mode.consumer.cfg, mode.settings, old(mode.View()), input);
            && mode.View() == r.mode
            && mode.consumer.journal == old(mode.consumer.journal) + r.events
            && verdict == r.verdict
  {
    hide FlushedMode, HandledMessage, Expired, StoppedTimer, RestartedTimer;
    if mode.timer == null || |mode.messages| == 0 || mode.timer.tick.None? {
      return Running;
    }
    ghost var before := mode.View();
    mode.timer.Drain();
    assert mode.View() == before.(timer := Some(before.timer.value.(tick := None)));
    var err := mode.HandleFlush(input.env);
    if err.None? {
      return Running;
    }
    verdict := StopAndReturn(mode, err);
  }

  // The branches that end the claim.
  method TakeEnd(mode: BatchClaimMode, input: Input) returns (verdict: Verdict)
    requires input.ClaimClosed? || input.ContextDone?
    modifies mode.Footprint()
    ensures fresh(mode.Footprint() - old(mode.Footprint()))
    ensures var r := StepClaim(mode.consumer.cfg, mode.settings, old(mode.View()), input);
            && mode.View() == r.mode
            && mode.consumer.journal == old(mode.consumer.journal) + r.events
            && verdict == r.verdict
  {
    hide FlushedMode, HandledMessage, Expired, StoppedTimer, RestartedTimer;
    var err := mode.HandleFlush(input.env);
    if input.ContextDone? && err.None? {
      mode.consumer.Record(Committed);
    }
    verdict := StopAndReturn(mode, err);
  }

  // One pass of the loop for a batched claim.
  method TakeBranch(mode: BatchClaimMode, input: Input) returns (verdict: Verdict)
    modifies mode.Footprint()
    ensures fresh(mode.Footprint() - old(mode.Footprint()))
    ensures var r := StepClaim(mode.consumer.cfg, mode.settings, old(mode.View()), input);
            && mode.View() == r.mode
            && mode.consumer.journal == old(mode.consumer.journal) + r.events
            && verdict == r.verdict
  {
    match input {
      case Arrival(_, _, _) =>
        hide StepClaim;
        verdict := TakeMessage(mode, input);
      case Elapsed(now) =>
        if mode.timer != null {
          mode.timer.Elapse(now);
        }
        return Running;
      case TimerTick(_) =>
        hide StepClaim;
        verdict := TakeTick(mode, input);
      case _ =>
        hide StepClaim;
        verdict := TakeEnd(mode, input);
    }
  }

  // One pass of the loop for an unbatched claim, whose flush does nothing and timer never ticks.
  method TakeSingleBranch(consumer: Consumer, ghost s: Settings, input: Input) returns (verdict: Verdict)
    modifies consumer
    ensures var r := StepClaim(consumer.cfg, s, SingleMode, input);
            && r.mode == SingleMode
            && consumer.journal == old(consumer.journal) + r.events
            && verdict == r.verdict
  {
    var err: Option<Error> := None;
    match input {
      case Arrival(m, now, env) =>
        consumer.Record(Fetched(m));
        err := consumer.ProcessBatch([m], env);
        if err.None? {
          return Running;
        }
      case Elapsed(now) => return Running;
      case TimerTick(env) => return Running;
      case ClaimClosed(env) =>
      case ContextDone(env) => consumer.Record(Committed);
    }
    consumer.Record(Event.Stopped(err.Some?));
    return Returned(err);
  }

  method ConsumeClaim(consumer: Consumer, s: Settings, inputs: seq<Input>) returns (verdict: Verdict)
    modifies consumer
    ensures var r := ClaimRun(consumer.cfg, s, NewMode(s), inputs);
            consumer.journal == old(consumer.journal) + r.events && verdict == r.verdict
  {
    var batch: BatchClaimMode? := null;
    if s.batchEnabled && s.batchSize > 1 {
      batch := new BatchClaimMode(s, consumer);
    }
    ghost var mode, left := NewMode(s), inputs;
    for i := 0 to |inputs|
      invariant left == inputs[i..]
      invariant batch != null ==>
        && fresh(batch) && fresh(batch.Footprint() - {consumer})
        && batch.consumer == consumer && batch.settings == s && batch.View() == mode
      invariant batch == null ==> mode == SingleMode
      invariant var all, rest := ClaimRun(consumer.cfg, s, NewMode(s), inputs), ClaimRun(consumer.cfg, s, mode, left);
        consumer.journal + rest.events == old(consumer.journal) + all.events && rest.verdict == all.verdict
    {
      ClaimRunUnfold(consumer.journal, consumer.cfg, s, mode, left);
      ghost var step := StepClaim(consumer.cfg, s, mode, left[0]);
      if batch != null {
        verdict := TakeBranch(batch, inputs[i]);
      } else {
        verdict := TakeSingleBranch(consumer, s, inputs[i]);
      }
      if verdict.Returned? {
        return;
      }
      mode, left := step.mode, left[1..];
    }
    return Running;
  }

  lemma ClaimRunUnfold(journal: seq<Event>, cfg: Config, s: Settings, mode: Mode, inputs: seq<Input>)
    requires inputs != []
    ensures var first, all := StepClaim(cfg, s, mode, inputs[0]), ClaimRun(cfg, s, mode, inputs);
            if first.verdict.Returned? then all == first
            else
              var rest := ClaimRun(cfg, s, first.mode, inputs[1..]);
              && journal + all.events == journal + first.events + rest.events
              && all.verdict == rest.verdict && all.mode == rest.mode
              && all.batches == first.batches + rest.batches
  {
    hide StepClaim;
  }
}
