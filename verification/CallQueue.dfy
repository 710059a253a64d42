/** The queue of an MCP connection: calls run one at a time, in the order they were made. `drain` is
    an asynchronous loop; the code between two of its awaits is one step here. */
module CallQueue {
  import opened Collections

  datatype Outcome = Resolved(value: string) | Rejected(reason: string)

  /** Items are numbered in the order of their enqueue calls. `running` are items whose work has been
      called and has not ended; `resuming` counts drain loops whose awaited item has ended and that
      the scheduler has not resumed yet. */
  datatype State = State(
    queue: seq<nat>, draining: bool, running: set<nat>, resuming: nat,
    enqueued: seq<nat>, started: seq<nat>, settled: map<nat, Outcome>)

  /** The head of the loop in `drain`, to its next await or its end. */
  function LoopHead(s: State): State {
    if s.queue != [] then
      s.(queue := s.queue[1..], running := s.running + {s.queue[0]}, started := s.started + [s.queue[0]])
    else s.(draining := false)
  }

  function Drain(s: State): State {
    if s.draining then s else LoopHead(s.(draining := true))
  }

  datatype Event =
    | Enqueue                              // from anywhere, also from within a running item
    | WorkEnds(item: nat, outcome: Outcome) // the item's promise is settled
    | Resume                               // a drain loop goes on after its await

  predicate Enabled(s: State, e: Event) {
    match e
    case Enqueue => true
    case WorkEnds(item, _) => item in s.running
    case Resume => s.resuming > 0
  }

  function Next(s: State, e: Event): State
    requires Enabled(s, e)
  {
    match e
    case Enqueue =>
      var item := |s.enqueued|;
      Drain(s.(queue := s.queue + [item], enqueued := s.enqueued + [item]))
    case WorkEnds(item, outcome) =>
      s.(running := s.running - {item}, settled := s.settled[item := outcome], resuming := s.resuming + 1)
    case Resume => LoopHead(s.(resuming := s.resuming - 1))
  }

  const Initial: State := State([], false, {}, 0, [], [], map[])

  function Run(events: seq<Event>): Option<State> {
    if events == [] then Some(Initial)
    else
      var before := Run(events[..|events| - 1]);
      var e := events[|events| - 1];
      if before.Some? && Enabled(before.value, e) then Some(Next(before.value, e)) else None
  }

  // ---------------------------------------------------------------------------------------------
  // What every step keeps
  // ---------------------------------------------------------------------------------------------

  /** Items start in the order they were enqueued, none is skipped or started twice. */
  ghost predicate InOrder(s: State) {
    s.started + s.queue == s.enqueued &&
    forall i :: 0 <= i < |s.enqueued| ==> s.enqueued[i] == i
  }

  /** There is a drain loop exactly when the flag says so, and it either waits for the one running
      item, the last one started, or is about to go on. A waiting queue has its drainer. */
  ghost predicate OneDrainer(s: State) {
    |s.running| + s.resuming == (if s.draining then 1 else 0) &&
    (s.running != {} ==> s.started != [] && s.running == {s.started[|s.started| - 1]}) &&
    (s.queue != [] ==> s.draining)
  }

  /** What has been started and does not run has settled, and nothing else has. */
  ghost predicate SettledExactly(s: State) {
    forall i :: i in s.settled <==> i in s.started && i !in s.running
  }

  ghost predicate Inv(s: State) {
    InOrder(s) && OneDrainer(s) && SettledExactly(s)
  }

  lemma StartNext(s: State)
    requires InOrder(s) && SettledExactly(s) && s.running == {} && s.resuming == 0 && s.draining
    ensures Inv(LoopHead(s))
  {
    var t := LoopHead(s);
    if s.queue != [] {
      var n := |s.started|;
      assert s.enqueued[n] == s.queue[0] == n;
      assert forall i :: 0 <= i < n ==> s.started[i] == s.enqueued[i];
      assert t.running == {n} && t.started + t.queue == s.enqueued;
      assert t.started[|t.started| - 1] == n;
      assert forall i :: i in t.started <==> i in s.started || i == n;
    }
  }

  lemma NextKeeps(s: State, e: Event)
    requires Inv(s) && Enabled(s, e)
    ensures Inv(Next(s, e))
  {
    match e
    case Enqueue =>
      var t := s.(queue := s.queue + [|s.enqueued|], enqueued := s.enqueued + [|s.enqueued|]);
      assert t.started + t.queue == t.enqueued;
      if !s.draining { StartNext(t.(draining := true)); }
    case WorkEnds(item, _) =>
      assert s.running - {item} == {};
    case Resume =>
      StartNext(s.(resuming := s.resuming - 1));
  }

  /** In every run: at most one item's work is under way, items start in enqueue order, a waiting item
      always has an active drainer, and an item's promise, once settled, is never settled again. */
  lemma {:induction false} Serialised(events: seq<Event>)
    requires Run(events).Some?
    ensures var s := Run(events).value;
      Inv(s) && |s.running| <= 1 &&
      (s.queue != [] ==> s.draining && |s.running| + s.resuming == 1) &&
      (forall e: Event :: e.WorkEnds? && Enabled(s, e) ==> e.item !in s.settled)
  {
    if events != [] {
      var n := |events| - 1;
      Serialised(events[..n]);
      NextKeeps(Run(events[..n]).value, events[n]);
    }
  }

  /** Each promise has the outcome of its own item's work. */
  lemma {:induction false} OwnOutcome(events: seq<Event>, item: nat)
    requires Run(events).Some? && item in Run(events).value.settled
    ensures WorkEnds(item, Run(events).value.settled[item]) in events
  {
    if events != [] {
      var n := |events| - 1;
      var before := Run(events[..n]).value;
      if !(events[n].WorkEnds? && events[n].item == item) {
        OwnOutcome(events[..n], item);
        assert WorkEnds(item, before.settled[item]) in events[..n];
      } else {
        assert events[n] == WorkEnds(item, Run(events).value.settled[item]);
      }
    }
  }

  /** How much is still to happen. */
  function Pending(s: State): nat {
    3 * |s.queue| + 2 * |s.running| + s.resuming
  }

  /** Without further calls the queue empties: every step but a call brings the end nearer, and where
      no such step is possible every call made has settled. */
  lemma Drains(events: seq<Event>, e: Event)
    requires Run(events).Some? && Enabled(Run(events).value, e)
    ensures var s := Run(events).value; !e.Enqueue? ==> Pending(Next(s, e)) < Pending(s)
    ensures var s := Run(events).value;
      s.running == {} && s.resuming == 0 ==>
        s.queue == [] && !s.draining && forall i :: 0 <= i < |s.enqueued| ==> i in s.settled
  {
    Serialised(events);
    var s := Run(events).value;
    match e {
      case Enqueue =>
      case WorkEnds(item, _) =>
        assert s.running == {item} && Next(s, e).running == {};
      case Resume =>
        if s.queue != [] { assert Next(s, e).running == {s.queue[0]}; }
    }
    if s.running == {} && s.resuming == 0 {
      assert s.started == s.enqueued;
      forall i | 0 <= i < |s.enqueued| ensures i in s.settled { assert s.enqueued[i] == i; }
    }
  }

  // ---------------------------------------------------------------------------------------------
  // The queue as the program has it
  // ---------------------------------------------------------------------------------------------

  class Connection {
    var queue: seq<nat>
    var draining: bool
    var running: set<nat>
    var resuming: nat
    ghost var enqueued: seq<nat>
    ghost var started: seq<nat>
    var settled: map<nat, Outcome>
    var calls: nat

    ghost function Now(): State
      reads this
    {
      State(queue, draining, running, resuming, enqueued, started, settled)
    }

    ghost predicate Valid()
      reads this
    {
      Inv(Now()) && calls == |enqueued|
    }

    constructor ()
      ensures Valid() && Now() == Initial
    {
      queue, draining, running, resuming := [], false, {}, 0;
      enqueued, started, settled, calls := [], [], map[], 0;
    }

    /** The loop head of `drain`. */
    method GoOn()
      modifies this
      ensures Now() == LoopHead(old(Now())) && calls == old(calls)
    {
      if |queue| > 0 {
        var next := queue[0];
        queue := queue[1..];
        running := running + {next};
        started := started + [next];
      } else {
        draining := false;
      }
    }

    method EnqueueWork() returns (item: nat)
      requires Valid()
      modifies this
      ensures Valid() && Now() == Next(old(Now()), Enqueue) && item == old(calls)
    {
      NextKeeps(Now(), Enqueue);
      item := calls;
      calls := calls + 1;
      queue := queue + [item];
      enqueued := enqueued + [item];
      if draining { return; }
      draining := true;
      GoOn();
    }

    method EndWork(item: nat, outcome: Outcome)
      requires Valid() && item in running
      modifies this
      ensures Valid() && Now() == Next(old(Now()), WorkEnds(item, outcome))
      ensures item !in old(settled) && settled == old(settled)[item := outcome]
    {
      NextKeeps(Now(), WorkEnds(item, outcome));
      running := running - {item};
      settled := settled[item := outcome];
      resuming := resuming + 1;
    }

    method ResumeDrain()
      requires Valid() && resuming > 0
      modifies this
      ensures Valid() && Now() == Next(old(Now()), Resume)
    {
      NextKeeps(Now(), Resume);
      resuming := resuming - 1;
      GoOn();
    }
  }

  // ---------------------------------------------------------------------------------------------
  // A call with a time limit
  // ---------------------------------------------------------------------------------------------

  datatype Signal = TimesOut | Aborted | WorkResolves(value: string) | WorkRejects(reason: string)

  function Verdict(s: Signal, tool: string): Outcome {
    match s
    case TimesOut => Rejected("MCP tool call timed out after 60000ms: " + tool)
    case Aborted => Rejected("MCP tool call aborted: " + tool)
    case WorkResolves(value) => Resolved(value)
    case WorkRejects(reason) => Rejected(reason)
  }

  /** `withAbortTimeout`: whichever signal comes first decides, and afterwards neither the timer nor
      the abort listener is left behind. */
  class TimedCall {
    const tool: string
    var settled: bool
    var outcome: Option<Outcome>
    var timerArmed: bool
    var abortListening: bool
    ghost var seen: seq<Signal>  // every signal so far, in order

    ghost predicate Valid()
      reads this
    {
      settled == (seen != []) && outcome == (if seen == [] then None else Some(Verdict(seen[0], tool))) &&
      timerArmed == !settled && abortListening == !settled
    }

    constructor (tool: string, alreadyAborted: bool)
      ensures Valid() && this.tool == tool && seen == if alreadyAborted then [Aborted] else []
    {
      this.tool := tool;
      settled, outcome, timerArmed, abortListening, seen := false, None, true, false, [];
      new;
      if alreadyAborted {
        Settle(Aborted);
        return;
      }
      abortListening := true;
    }

    method Settle(s: Signal)
      requires settled == (seen != []) && outcome == (if seen == [] then None else Some(Verdict(seen[0], tool)))
      requires settled ==> !timerArmed && !abortListening
      modifies this
      ensures Valid() && seen == old(seen) + [s]
      ensures old(settled) ==> outcome == old(outcome)
      ensures !old(settled) && s.WorkResolves? ==> outcome == Some(Resolved(s.value))
      ensures !old(settled) && s.WorkRejects? ==> outcome == Some(Rejected(s.reason))
      ensures !old(settled) && s.TimesOut? ==>
        outcome == Some(Rejected("MCP tool call timed out after 60000ms: " + tool))
      ensures !old(settled) && s.Aborted? ==> outcome == Some(Rejected("MCP tool call aborted: " + tool))
    {
      seen := seen + [s];
      if settled { return; }
      settled := true;
      timerArmed := false;
      abortListening := false;
      outcome := Some(Verdict(s, tool));
    }
  }
}
