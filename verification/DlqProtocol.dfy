/**
 One partition of the consumer with the dead-letter store on, as a protocol over whole runs:
 the broker appends to the log, the consumer acts event by event, offsets are committed at any
 moment, and a session may end at any moment and restart from the committed offset.
 */
module DlqProtocol {
  import opened Wrappers
  import opened DlqConsumer

  datatype Phase = Handling(done: nat) | Marking(done: nat) | Ended

  // Offsets of the log in order; `end` is where the next one may be. `next` counts the delivered
  // ones, the last of which are in `buffer`; `pending` failed in this flush and are not stored
  // yet. `marked` and `committed` are positions: everything below them is done with.
  datatype State = State(
    partition: int, log: seq<int>, end: int, start: int,
    next: nat, buffer: seq<int>, pending: set<int>, phase: Phase,
    marked: int, committed: int,
    handled: set<int>, stored: set<int>)

  datatype Action = Produced(offset: int) | Did(event: Event) | Restarted

  function Below(log: seq<int>, position: int): (n: nat)
    ensures n <= |log|
    ensures forall i :: 0 <= i < n ==> log[i] < position
    ensures n < |log| ==> log[n] >= position
  {
    if log == [] || log[0] >= position then 0 else 1 + Below(log[1..], position)
  }

  function Offsets(ms: seq<Message>): set<int> { set m <- ms :: m.offset }

  ghost predicate Increasing(log: seq<int>) {
    forall i, j :: 0 <= i < j < |log| ==> log[i] < log[j]
  }

  ghost predicate Initial(s: State) {
    && Increasing(s.log) && (forall o <- s.log :: o < s.end) && s.start <= s.end
    && s.next == Below(s.log, s.start)
    && s.buffer == [] && s.pending == {} && s.phase == Handling(0)
    && s.marked == s.committed == s.start
    && s.handled == {} && s.stored == {}
  }

  // One action, when the protocol allows it.
  function Step(s: State, a: Action): Option<State> {
    match a
    case Produced(o) =>
      if o < s.end then None else Some(s.(log := s.log + [o], end := o + 1))
    case Restarted =>
      Some(s.(next := Below(s.log, s.committed), buffer := [], pending := {}, phase := Handling(0), marked := s.committed))
    case Did(Fetched(m)) =>
      if s.phase != Handling(0) || s.next >= |s.log| || m != Message(s.partition, s.log[s.next]) then None
      else Some(s.(next := s.next + 1, buffer := s.buffer + [m.offset]))
    case Did(InitFailed(m)) =>
      if !s.phase.Handling? then None else Some(s)
    case Did(HandlerCall(m, status)) =>
      if !s.phase.Handling? || s.phase.done >= |s.buffer| || m != Message(s.partition, s.buffer[s.phase.done]) then None
      else
        var t := s.(phase := Handling(s.phase.done + 1));
        Some(if status == Succeeded then t.(handled := s.handled + {m.offset}) else t.(pending := s.pending + {m.offset}))
    case Did(SaveAttempt(ms, _, saved)) =>
      if s.phase != Handling(|s.buffer|) || exists m <- ms :: m.partition != s.partition || m.offset !in s.buffer then None
      else Some(if saved then s.(stored := s.stored + Offsets(ms), pending := s.pending - Offsets(ms)) else s)
    case Did(Marked(m)) =>
      var k := if s.phase == Handling(|s.buffer|) && s.pending == {} then 0
               else if s.phase.Marking? then s.phase.done else |s.buffer|;
      if k >= |s.buffer| || m != Message(s.partition, s.buffer[k]) then None
      else
        var t := s.(marked := if m.offset + 1 > s.marked then m.offset + 1 else s.marked);
        Some(if k + 1 == |s.buffer| then t.(buffer := [], phase := Handling(0)) else t.(phase := Marking(k + 1)))
    case Did(Committed) => Some(s.(committed := s.marked))
    case Did(Stopped(_)) => Some(s.(phase := Ended))
  }

  function RunAll(s: State, actions: seq<Action>): Option<State>
    decreases |actions|
  {
    if actions == [] then Some(s)
    else
      var before := RunAll(s, actions[..|actions| - 1]);
      if before.None? then None else Step(before.value, actions[|actions| - 1])
  }

  // ---- No loss ----

  ghost predicate Done(s: State, o: int) { o in s.handled || o in s.stored }

  // Index in the log of the first buffered message.
  function Base(s: State): int { s.next - |s.buffer| }

  // Buffered messages already marked, and so the position of the one that may be marked next.
  function MarkedCount(s: State): nat { if s.phase.Marking? then s.phase.done else 0 }

  ghost predicate LogOk(s: State) {
    && Increasing(s.log)
    && (forall o <- s.log :: o < s.end)
    && s.start <= s.committed <= s.marked <= s.end
  }

  ghost predicate BufferOk(s: State) {
    && |s.buffer| <= s.next <= |s.log|
    && (forall i :: 0 <= i < |s.buffer| ==> s.buffer[i] == s.log[Base(s) + i])
    && (s.phase.Handling? ==> s.phase.done <= |s.buffer|)
    && (s.phase.Marking? ==> s.phase.done < |s.buffer|)
  }

  ghost predicate MarkOk(s: State)
    requires BufferOk(s)
  {
    && (forall o <- s.log :: s.start <= o < s.marked ==> Done(s, o))
    && (!s.phase.Ended? ==> forall i :: Base(s) + MarkedCount(s) <= i < |s.log| ==> s.log[i] >= s.marked)
  }

  ghost predicate HandlingOk(s: State)
    requires BufferOk(s)
  {
    && (s.phase.Handling? ==> forall i :: 0 <= i < s.phase.done ==> Done(s, s.buffer[i]) || s.buffer[i] in s.pending)
    && (s.phase.Marking? ==> forall o <- s.buffer :: Done(s, o))
    && (!s.phase.Ended? ==> forall i :: 0 <= i < Base(s) && s.log[i] >= s.start ==> Done(s, s.log[i]))
  }

  ghost predicate Inv(s: State) {
    LogOk(s) && BufferOk(s) && MarkOk(s) && HandlingOk(s)
  }

  lemma InitialInv(s: State)
    requires Initial(s)
    ensures Inv(s)
  {
    BelowSplits(s.log, s.start);
  }

  lemma BelowSplits(log: seq<int>, position: int)
    requires Increasing(log)
    ensures forall i :: Below(log, position) <= i < |log| ==> log[i] >= position
  {
  }

  lemma ProducedKeepsShape(s: State, o: int)
    requires Inv(s) && Step(s, Produced(o)).Some?
    ensures var t := Step(s, Produced(o)).value; LogOk(t) && BufferOk(t)
  {
    hide MarkOk, HandlingOk;
    assert forall i :: 0 <= i < |s.log| ==> s.log[i] in s.log;
  }

  lemma ProducedKeepsInv(s: State, o: int)
    requires Inv(s) && Step(s, Produced(o)).Some?
    ensures Inv(Step(s, Produced(o)).value)
  {
    hide Increasing;
    ProducedKeepsShape(s, o);
  }

  lemma RestartKeepsInv(s: State)
    requires Inv(s)
    ensures Inv(Step(s, Restarted).value)
  {
    BelowSplits(s.log, s.committed);
  }

  lemma FetchKeepsInv(s: State, m: Message)
    requires Inv(s) && Step(s, Did(Fetched(m))).Some?
    ensures Inv(Step(s, Did(Fetched(m))).value)
  {
  }

  lemma HandlerKeepsShape(s: State, m: Message, status: Status)
    requires Inv(s) && Step(s, Did(HandlerCall(m, status))).Some?
    ensures var t := Step(s, Did(HandlerCall(m, status))).value; LogOk(t) && BufferOk(t) && MarkOk(t)
  {
    hide HandlingOk, Increasing;
  }

  lemma HandlerKeepsInv(s: State, m: Message, status: Status)
    requires Inv(s) && Step(s, Did(HandlerCall(m, status))).Some?
    ensures Inv(Step(s, Did(HandlerCall(m, status))).value)
  {
    hide LogOk, MarkOk;
    HandlerKeepsShape(s, m, status);
  }

  lemma SaveKeepsInv(s: State, ms: seq<Message>, attempt: int, saved: bool)
    requires Inv(s) && Step(s, Did(SaveAttempt(ms, attempt, saved))).Some?
    ensures Inv(Step(s, Did(SaveAttempt(ms, attempt, saved))).value)
  {
  }

  // A mark is allowed only when the whole buffer, and so all of the log so far, is settled.
  lemma ReadyToMark(s: State, m: Message)
    requires Inv(s) && Step(s, Did(Marked(m))).Some?
    ensures var k := MarkedCount(s);
            && k < |s.buffer|
            && m.offset == s.buffer[k] == s.log[Base(s) + k]
            && s.marked <= m.offset < s.end
            && (forall i :: 0 <= i < s.next && s.log[i] >= s.start ==> Done(s, s.log[i]))
  {
    var k := MarkedCount(s);
    assert s.buffer[k] == s.log[Base(s) + k] && s.buffer[k] in s.log;
    forall i | 0 <= i < s.next && s.log[i] >= s.start ensures Done(s, s.log[i]) {
      if i >= Base(s) {
        assert s.buffer[i - Base(s)] == s.log[i] && s.buffer[i - Base(s)] in s.buffer;
      }
    }
  }

  lemma MarkKeepsMarkOk(s: State, m: Message)
    requires Inv(s) && Step(s, Did(Marked(m))).Some?
    requires BufferOk(Step(s, Did(Marked(m))).value)
    ensures MarkOk(Step(s, Did(Marked(m))).value)
  {
    ReadyToMark(s, m);
    var t, k := Step(s, Did(Marked(m))).value, MarkedCount(s);
    forall o | o in t.log && t.start <= o < t.marked ensures Done(t, o) {
      var i :| 0 <= i < |s.log| && s.log[i] == o;
      assert i <= Base(s) + k;
    }
  }

  lemma MarkKeepsShape(s: State, m: Message)
    requires Inv(s) && Step(s, Did(Marked(m))).Some?
    ensures var t := Step(s, Did(Marked(m))).value; LogOk(t) && BufferOk(t)
  {
    hide MarkOk, HandlingOk, Increasing;
    ReadyToMark(s, m);
  }

  lemma MarkKeepsInv(s: State, m: Message)
    requires Inv(s) && Step(s, Did(Marked(m))).Some?
    ensures Inv(Step(s, Did(Marked(m))).value)
    ensures Done(s, m.offset)
  {
    ReadyToMark(s, m);
    MarkKeepsShape(s, m);
    MarkKeepsMarkOk(s, m);
    hide LogOk, MarkOk, Increasing;
    var t := Step(s, Did(Marked(m))).value;
    assert HandlingOk(t) by {
      assert t.phase.Marking? ==> forall i :: 0 <= i < |s.buffer| ==> Done(s, s.buffer[i]);
    }
  }

  lemma StepKeepsInv(s: State, a: Action)
    requires Inv(s) && Step(s, a).Some?
    ensures Inv(Step(s, a).value)
  {
    match a
    case Produced(o) => ProducedKeepsInv(s, o);
    case Restarted => RestartKeepsInv(s);
    case Did(Fetched(m)) => FetchKeepsInv(s, m);
    case Did(HandlerCall(m, status)) => HandlerKeepsInv(s, m, status);
    case Did(SaveAttempt(ms, attempt, saved)) => SaveKeepsInv(s, ms, attempt, saved);
    case Did(Marked(m)) => MarkKeepsInv(s, m);
    case Did(_) =>
  }

  lemma {:induction false} RunKeepsInv(s: State, actions: seq<Action>)
    requires Initial(s) && RunAll(s, actions).Some?
    ensures var t := RunAll(s, actions).value; Inv(t) && t.start == s.start
    decreases |actions|
  {
    if actions == [] {
      InitialInv(s);
    } else {
      RunKeepsInv(s, actions[..|actions| - 1]);
      StepKeepsInv(RunAll(s, actions[..|actions| - 1]).value, actions[|actions| - 1]);
    }
  }

  // What a run did with an offset, read off its actions alone.
  ghost predicate HandledOrStored(actions: seq<Action>, o: int) {
    exists k :: 0 <= k < |actions| && Settles(actions[k], o)
  }

  predicate Settles(a: Action, o: int) {
    match a
    case Did(HandlerCall(m, status)) => m.offset == o && status == Succeeded
    case Did(SaveAttempt(ms, _, saved)) => saved && o in Offsets(ms)
    case _ => false
  }

  lemma {:induction false} DoneIsHistory(s: State, actions: seq<Action>, o: int)
    requires Initial(s) && RunAll(s, actions).Some?
    ensures Done(RunAll(s, actions).value, o) <==> HandledOrStored(actions, o)
    decreases |actions|
  {
    if actions != [] {
      hide Step, HandledOrStored;
      var init, a := actions[..|actions| - 1], actions[|actions| - 1];
      DoneIsHistory(s, init, o);
      StepSettles(RunAll(s, init).value, a, o);
      HistorySnoc(actions, o);
    } else {
      assert !HandledOrStored([], o);
    }
  }

  lemma StepSettles(s: State, a: Action, o: int)
    requires Step(s, a).Some?
    ensures Done(Step(s, a).value, o) <==> Done(s, o) || Settles(a, o)
  {
  }

  lemma HistorySnoc(actions: seq<Action>, o: int)
    requires actions != []
    ensures HandledOrStored(actions, o) <==>
            HandledOrStored(actions[..|actions| - 1], o) || Settles(actions[|actions| - 1], o)
  {
    hide Settles;
    var init := actions[..|actions| - 1];
    assert forall k :: 0 <= k < |init| ==> init[k] == actions[k];
  }

  // In every reachable state each message below the committed offset (from where the group
  // started) was handled without error or is in the dead-letter store.
  lemma NoLoss(s: State, actions: seq<Action>, o: int)
    requires Initial(s) && RunAll(s, actions).Some?
    requires var t := RunAll(s, actions).value; o in t.log && t.start <= o < t.committed
    ensures HandledOrStored(actions, o)
  {
    RunKeepsInv(s, actions);
    DoneIsHistory(s, actions, o);
  }

  // And it was so before it was marked.
  lemma {:induction false} SettledBeforeMarked(s: State, actions: seq<Action>, k: nat, m: Message)
    requires Initial(s) && RunAll(s, actions).Some?
    requires k < |actions| && actions[k] == Did(Marked(m))
    ensures HandledOrStored(actions[..k], m.offset)
  {
    PrefixRuns(s, actions, k + 1);
    var prefix := actions[..k + 1];
    assert prefix[..k] == actions[..k];
    RunKeepsInv(s, actions[..k]);
    MarkKeepsInv(RunAll(s, actions[..k]).value, m);
    DoneIsHistory(s, actions[..k], m.offset);
  }

  lemma {:induction false} PrefixRuns(s: State, actions: seq<Action>, k: nat)
    requires RunAll(s, actions).Some? && k <= |actions|
    ensures RunAll(s, actions[..k]).Some?
    decreases |actions|
  {
    if k == |actions| {
      assert actions[..k] == actions;
    } else {
      PrefixRuns(s, actions[..|actions| - 1], k);
      assert actions[..|actions| - 1][..k] == actions[..k];
    }
  }

  lemma {:induction false} RunAppend(s: State, a: seq<Action>, b: seq<Action>)
    ensures RunAll(s, a + b) == if RunAll(s, a).None? then None else RunAll(RunAll(s, a).value, b)
    decreases |b|
  {
    if b == [] {
      assert a + b == a;
    } else {
      assert (a + b)[..|a + b| - 1] == a + b[..|b| - 1];
      RunAppend(s, a, b[..|b| - 1]);
    }
  }
}
