/**
 The whole life of a consumer group on one partition, with the dead-letter store on: any number of
 sessions of the real claim loop, each cut short anywhere or not, while the broker appends to the
 log and offsets are committed at any moment in between.
 */
module GroupLife {
  import opened Wrappers
  import opened DlqConsumer
  import opened ClaimMode
  import opened ClaimProperties
  import opened DlqProtocol
  import opened ConsumerRefinement

  // The actions are the events in order, with appends and automatic commits in between.
  ghost predicate Weaves(actions: seq<Action>, events: seq<Event>)
    decreases |actions|
  {
    if actions == [] then events == []
    else
      var init, a := actions[..|actions| - 1], actions[|actions| - 1];
      || ((a.Produced? || a == Did(Committed)) && Weaves(init, events))
      || (events != [] && a == Did(events[|events| - 1]) && Weaves(init, events[..|events| - 1]))
  }

  function LogAfter(log: seq<int>, actions: seq<Action>): seq<int>
    decreases |actions|
  {
    if actions == [] then log
    else
      var a := actions[|actions| - 1];
      LogAfter(log, actions[..|actions| - 1]) + (if a.Produced? then [a.offset] else [])
  }

  function EndAfter(end: int, actions: seq<Action>): int
    decreases |actions|
  {
    if actions == [] then end
    else
      var a := actions[|actions| - 1];
      if a.Produced? then a.offset + 1 else EndAfter(end, actions[..|actions| - 1])
  }

  function Fetches(actions: seq<Action>): nat
    decreases |actions|
  {
    if actions == [] then 0
    else
      var a := actions[|actions| - 1];
      Fetches(actions[..|actions| - 1]) + (if a.Did? && a.event.Fetched? then 1 else 0)
  }

  // Offsets grow, and a message is handed over only once it is in the log.
  ghost predicate BrokerOk(s: State, actions: seq<Action>)
    decreases |actions|
  {
    actions == [] ||
    (var init, a := actions[..|actions| - 1], actions[|actions| - 1];
     && BrokerOk(s, init)
     && (a.Produced? ==> a.offset >= EndAfter(s.end, init))
     && (a.Did? && a.event.Fetched? ==> s.next + Fetches(init) < |LogAfter(s.log, init)|))
  }

  // The same state for all the consumer can tell: only the log's end and the commits differ.
  ghost predicate Alike(u: State, full: State) {
    u == full.(log := u.log, end := u.end, committed := u.committed) && u.log <= full.log
  }

  lemma StepAlike(u: State, full: State, e: Event) returns (t: State)
    requires Alike(u, full) && Step(full, Did(e)).Some?
    requires e.Fetched? ==> u.next < |u.log|
    ensures Step(u, Did(e)) == Some(t) && Alike(t, Step(full, Did(e)).value)
    ensures t.log == u.log && t.end == u.end && t.next == u.next + if e.Fetched? then 1 else 0
  {
    t := Step(u, Did(e)).value;
  }

  lemma CommitAlike(u: State, full: State) returns (t: State)
    requires Alike(u, full)
    ensures Step(u, Did(Committed)) == Some(t) && Alike(t, full)
    ensures t.log == u.log && t.end == u.end && t.next == u.next
  {
    t := Step(u, Did(Committed)).value;
  }

  lemma AppendAlike(u: State, full: State, o: int) returns (t: State)
    requires Alike(u, full) && o >= u.end && u.log + [o] <= full.log
    ensures Step(u, Produced(o)) == Some(t) && Alike(t, full)
    ensures t.log == u.log + [o] && t.end == o + 1 && t.next == u.next
  {
    t := Step(u, Produced(o)).value;
  }

  lemma {:induction false} LogGrows(log: seq<int>, actions: seq<Action>)
    requires actions != []
    ensures LogAfter(log, actions[..|actions| - 1]) <= LogAfter(log, actions)
  {
  }

  // What the consumer does against the full log it can do as the log grows.
  lemma {:induction false} Woven(s: State, full: State, actions: seq<Action>, events: seq<Event>) returns (t: State)
    requires full == s.(log := full.log) && LogAfter(s.log, actions) <= full.log && s.log <= full.log
    requires Weaves(actions, events) && BrokerOk(s, actions) && RunAll(full, Acts(events)).Some?
    ensures RunAll(s, actions) == Some(t) && Alike(t, RunAll(full, Acts(events)).value)
    ensures t.log == LogAfter(s.log, actions) && t.end == EndAfter(s.end, actions) && t.next == s.next + Fetches(actions)
    decreases |actions|
  {
    hide Step, Alike;
    if actions == [] {
      t := s;
      assert Acts(events) == [];
      assert Alike(s, full) by { StartsAlike(s, full); }
    } else {
      var init, a := actions[..|actions| - 1], actions[|actions| - 1];
      LogGrows(s.log, actions);
      if (a.Produced? || a == Did(Committed)) && Weaves(init, events) {
        var u := Woven(s, full, init, events);
        var end := RunAll(full, Acts(events)).value;
        if a.Produced? {
          LogStays(full, Acts(events));
          t := AppendAlike(u, end, a.offset);
        } else {
          t := CommitAlike(u, end);
        }
      } else {
        var most, e := events[..|events| - 1], events[|events| - 1];
        assert Acts(events)[..|events| - 1] == Acts(most);
        var u := Woven(s, full, init, most);
        t := StepAlike(u, RunAll(full, Acts(most)).value, e);
      }
    }
  }

  lemma StartsAlike(s: State, full: State)
    requires full == s.(log := full.log) && s.log <= full.log
    ensures Alike(s, full)
  {
  }

  lemma {:induction false} LogStays(s: State, actions: seq<Action>)
    requires RunAll(s, actions).Some? && forall k :: 0 <= k < |actions| ==> actions[k].Did?
    ensures RunAll(s, actions).value.log == s.log
    decreases |actions|
  {
    if actions != [] {
      var init := actions[..|actions| - 1];
      LogStays(s, init);
      EventKeepsLog(RunAll(s, init).value, actions[|actions| - 1]);
      hide Step;
    }
  }

  lemma EventKeepsLog(s: State, a: Action)
    requires a.Did? && Step(s, a).Some?
    ensures Step(s, a).value.log == s.log
  {
  }

  // ---- Sessions ----

  // A session: the loop's settings and schedule, how many of its events happen before the process
  // stops, all that happens meanwhile, and how the log goes on later.
  datatype Session = Session(
    cfg: Config, settings: Settings, inputs: seq<Input>, length: nat, actions: seq<Action>, later: seq<int>)

  function EventsOf(x: Session): seq<Event> {
    ClaimRun(x.cfg, x.settings, NewMode(x.settings), x.inputs).events
  }

  // The claim hands over the log from `next` on, as far as it gets.
  ghost predicate SessionOk(s: State, x: Session) {
    && x.cfg.dlqSave && x.length <= |EventsOf(x)|
    && Weaves(x.actions, EventsOf(x)[..x.length])
    && BrokerOk(s, x.actions)
    && DeliversLog(s.(log := LogAfter(s.log, x.actions) + x.later), x.inputs)
  }

  lemma {:induction false} LogExtends(log: seq<int>, actions: seq<Action>)
    ensures log <= LogAfter(log, actions)
    decreases |actions|
  {
    if actions != [] { LogExtends(log, actions[..|actions| - 1]); }
  }

  lemma SessionRuns(s: State, x: Session) returns (t: State)
    requires Synced(s, NewMode(x.settings)) && SessionOk(s, x)
    ensures RunAll(s, x.actions) == Some(t)
  {
    LogExtends(s.log, x.actions);
    var full := s.(log := LogAfter(s.log, x.actions) + x.later);
    assert Synced(full, NewMode(x.settings));
    hide Synced, DeliversLog, ClaimRun, RunAll, Step, Weaves, BrokerOk, LogAfter;
    var end := ClaimIsProtocolRun(x.cfg, x.settings, full, x.inputs);
    PrefixRuns(full, Acts(EventsOf(x)), x.length);
    assert Acts(EventsOf(x))[..x.length] == Acts(EventsOf(x)[..x.length]);
    t := Woven(s, full, x.actions, EventsOf(x)[..x.length]);
  }

  // Every session begins with a delivery from the committed offset.
  function LifeActions(sessions: seq<Session>): seq<Action> {
    if sessions == [] then []
    else LifeActions(sessions[..|sessions| - 1]) + [Restarted] + sessions[|sessions| - 1].actions
  }

  ghost predicate LifeOk(s: State, sessions: seq<Session>)
    decreases |sessions|
  {
    sessions == [] ||
    (var init, x := sessions[..|sessions| - 1], sessions[|sessions| - 1];
     && LifeOk(s, init)
     && var before := RunAll(s, LifeActions(init) + [Restarted]);
        before.Some? ==> SessionOk(before.value, x))
  }

  lemma {:induction false} LifeIsProtocolRun(s: State, sessions: seq<Session>)
    requires LifeOk(s, sessions)
    ensures RunAll(s, LifeActions(sessions)).Some?
    decreases |sessions|
  {
    hide Step, SessionOk, Synced;
    if sessions != [] {
      var init, x := sessions[..|sessions| - 1], sessions[|sessions| - 1];
      LifeIsProtocolRun(s, init);
      var past := LifeActions(init);
      SessionsStart(RunAll(s, past).value, x.settings);
      assert (past + [Restarted])[..|past|] == past;
      var begun := RunAll(s, past + [Restarted]).value;
      var t := SessionRuns(begun, x);
      RunAppend(s, past + [Restarted], x.actions);
    }
  }

  // At any moment of such a life every message below the committed offset was handled without
  // error or is in the store, and so was each marked message at its mark.
  lemma LifeLosesNothing(s: State, sessions: seq<Session>, k: nat, o: int)
    requires Initial(s) && LifeOk(s, sessions) && k <= |LifeActions(sessions)|
    ensures var past := LifeActions(sessions)[..k];
            && RunAll(s, past).Some?
            && var now := RunAll(s, past).value;
               o in now.log && now.start <= o < now.committed ==> HandledOrStored(past, o)
    ensures var actions := LifeActions(sessions);
            forall m :: k < |actions| && actions[k] == Did(Marked(m)) ==> HandledOrStored(actions[..k], m.offset)
  {
    hide LifeOk, LifeActions, Initial, RunAll, HandledOrStored;
    var actions := LifeActions(sessions);
    LifeIsProtocolRun(s, sessions);
    PrefixRuns(s, actions, k);
    var now := RunAll(s, actions[..k]).value;
    if o in now.log && now.start <= o < now.committed {
      NoLoss(s, actions[..k], o);
    }
    forall m | k < |actions| && actions[k] == Did(Marked(m)) ensures HandledOrStored(actions[..k], m.offset) {
      SettledBeforeMarked(s, actions, k, m);
    }
  }
}
