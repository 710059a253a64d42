/** The live side of the event bus: who listens on which channel, and what each listener hears. A handler
    here stands for one subscription, which wraps it anew, so each is subscribed once. */
module Subscribers {
  import opened Collections

  datatype Listener = Listener(handler: nat, channel: Id)

  datatype Delivery = Delivery(handler: nat, event: string)

  /** One emission: the listeners of the channel are called in the order in which they subscribed. */
  function Deliveries(listeners: seq<Listener>, channel: Id, event: string): seq<Delivery> {
    if listeners == [] then []
    else
      var last := listeners[|listeners| - 1];
      Deliveries(listeners[..|listeners| - 1], channel, event)
      + (if last.channel == channel then [Delivery(last.handler, event)] else [])
  }

  /** Nobody listens on the channel. */
  predicate Unheard(listeners: seq<Listener>, channel: Id) {
    forall i :: 0 <= i < |listeners| ==> listeners[i].channel != channel
  }

  lemma DeliveriesLast(listeners: seq<Listener>, last: Listener, channel: Id, event: string)
    ensures Deliveries(listeners + [last], channel, event) ==
      Deliveries(listeners, channel, event) + (if last.channel == channel then [Delivery(last.handler, event)] else [])
    ensures Unheard(listeners + [last], channel) <==> Unheard(listeners, channel) && last.channel != channel
  {
    var longer := listeners + [last];
    assert longer[..|longer| - 1] == listeners && longer[|listeners|] == last;
    assert forall i :: 0 <= i < |listeners| ==> longer[i] == listeners[i];
  }

  /** The listeners `at` are those of the channel, in the order in which they subscribed. */
  ghost predicate OnChannel(at: seq<nat>, listeners: seq<Listener>, channel: Id) {
    (forall k :: 0 <= k < |at| ==> at[k] < |listeners| && listeners[at[k]].channel == channel) &&
    (forall k, l :: 0 <= k < l < |at| ==> at[k] < at[l]) &&
    forall i :: 0 <= i < |listeners| && listeners[i].channel == channel ==> i in at
  }

  ghost predicate CalledInTurn(at: seq<nat>, listeners: seq<Listener>, event: string, calls: seq<Delivery>) {
    |calls| == |at| &&
    forall k :: 0 <= k < |at| ==> at[k] < |listeners| && calls[k] == Delivery(listeners[at[k]].handler, event)
  }

  lemma OneMoreListener(at: seq<nat>, front: seq<Listener>, last: Listener, channel: Id, event: string,
                        calls: seq<Delivery>, all: seq<Listener>)
    requires OnChannel(at, front, channel) && CalledInTurn(at, front, event, calls) && all == front + [last]
    ensures last.channel != channel ==> OnChannel(at, all, channel) && CalledInTurn(at, all, event, calls)
    ensures last.channel == channel ==>
      OnChannel(at + [|front|], all, channel) &&
      CalledInTurn(at + [|front|], all, event, calls + [Delivery(last.handler, event)])
  {
    var longer := at + [|front|];
    assert longer[|at|] == |front|;
    forall i | 0 <= i < |all| && all[i].channel == channel
      ensures i in (if last.channel == channel then longer else at)
    {
      if i < |front| { assert front[i] == all[i] && i in at; }
    }
  }

  /** One emission calls every listener of its channel once, in the order in which they subscribed, and
      no other. */
  lemma {:induction false} DeliveredInTurn(listeners: seq<Listener>, channel: Id, event: string) returns (at: seq<nat>)
    ensures OnChannel(at, listeners, channel)
    ensures CalledInTurn(at, listeners, event, Deliveries(listeners, channel, event))
  {
    at := [];
    if listeners != [] {
      var n := |listeners| - 1;
      assert listeners == listeners[..n] + [listeners[n]];
      at := DeliveredInTurn(listeners[..n], channel, event);
      var calls := Deliveries(listeners[..n], channel, event);
      OneMoreListener(at, listeners[..n], listeners[n], channel, event, calls, listeners);
      if listeners[n].channel == channel { at := at + [n]; }
    }
  }

  function Removed(listeners: seq<Listener>, handler: nat): seq<Listener> {
    if listeners == [] then []
    else
      var last := listeners[|listeners| - 1];
      Removed(listeners[..|listeners| - 1], handler) + (if last.handler == handler then [] else [last])
  }

  datatype Step =
    | Subscribes(handler: nat, channel: Id)
    | Unsubscribes(handler: nat)
    | Emits(channel: Id, event: string)
    | Closes

  function Listening(before: seq<Listener>, s: Step): seq<Listener> {
    match s
    case Subscribes(handler, channel) => before + [Listener(handler, channel)]
    case Unsubscribes(handler) => Removed(before, handler)
    case Emits(_, _) => before
    case Closes => []
  }

  function ListenersAfter(steps: seq<Step>): seq<Listener> {
    if steps == [] then [] else Listening(ListenersAfter(steps[..|steps| - 1]), steps[|steps| - 1])
  }

  function DeliveredAfter(steps: seq<Step>): seq<Delivery> {
    if steps == [] then []
    else
      var front, s := steps[..|steps| - 1], steps[|steps| - 1];
      DeliveredAfter(front) + (if s.Emits? then Deliveries(ListenersAfter(front), s.channel, s.event) else [])
  }

  lemma OneStep(steps: seq<Step>, s: Step)
    ensures ListenersAfter(steps + [s]) == Listening(ListenersAfter(steps), s)
    ensures DeliveredAfter(steps + [s]) ==
      if s.Emits? then DeliveredAfter(steps) + Deliveries(ListenersAfter(steps), s.channel, s.event)
      else DeliveredAfter(steps)
  {
    assert (steps + [s])[..|steps + [s]| - 1] == steps;
    assert DeliveredAfter(steps) + [] == DeliveredAfter(steps);
  }

  // ---------------------------------------------------------------------------------------------
  // What a handler hears
  // ---------------------------------------------------------------------------------------------

  /** The channel the handler listens on, by what was last done about it. */
  function Hears(steps: seq<Step>, handler: nat): Option<Id> {
    if steps == [] then None
    else
      var s := steps[|steps| - 1];
      if s.Subscribes? && s.handler == handler then Some(s.channel)
      else if s.Closes? || (s.Unsubscribes? && s.handler == handler) then None
      else Hears(steps[..|steps| - 1], handler)
  }

  /** What is emitted on that channel in the meantime. */
  function Meant(steps: seq<Step>, handler: nat): seq<string> {
    if steps == [] then []
    else
      var front, s := steps[..|steps| - 1], steps[|steps| - 1];
      Meant(front, handler) + (if s.Emits? && Hears(front, handler) == Some(s.channel) then [s.event] else [])
  }

  function Heard(deliveries: seq<Delivery>, handler: nat): seq<string> {
    if deliveries == [] then []
    else
      var last := deliveries[|deliveries| - 1];
      Heard(deliveries[..|deliveries| - 1], handler) + (if last.handler == handler then [last.event] else [])
  }

  lemma {:induction false} HeardConcat(a: seq<Delivery>, b: seq<Delivery>, handler: nat)
    ensures Heard(a + b, handler) == Heard(a, handler) + Heard(b, handler)
  {
    if b == [] {
      assert a + b == a;
    } else {
      var front := b[..|b| - 1];
      HeardConcat(a, front, handler);
      assert (a + b)[..|a + b| - 1] == a + front && (a + b)[|a + b| - 1] == b[|b| - 1];
    }
  }

  /** The handler's entry among the listeners, if it has one; one handler has at most one. */
  ghost predicate Entry(listeners: seq<Listener>, handler: nat, channel: Option<Id>) {
    (forall i :: 0 <= i < |listeners| && listeners[i].handler == handler ==> Some(listeners[i].channel) == channel) &&
    (forall i, j :: 0 <= i < j < |listeners| && listeners[i].handler == handler ==> listeners[j].handler != handler) &&
    (channel.Some? ==> Listener(handler, channel.value) in listeners)
  }

  lemma {:induction false} EmissionHeard(listeners: seq<Listener>, handler: nat, hears: Option<Id>,
                                         channel: Id, event: string)
    requires Entry(listeners, handler, hears)
    ensures Heard(Deliveries(listeners, channel, event), handler) == if hears == Some(channel) then [event] else []
  {
    if listeners != [] {
      var front, last := listeners[..|listeners| - 1], listeners[|listeners| - 1];
      var before := Deliveries(front, channel, event);
      var more := if last.channel == channel then [Delivery(last.handler, event)] else [];
      EmissionHeard(front, handler, if last.handler == handler then None else hears, channel, event);
      HeardConcat(before, more, handler);
    }
  }

  lemma {:induction false} RemovedEntry(listeners: seq<Listener>, gone: nat, handler: nat, hears: Option<Id>)
    requires Entry(listeners, handler, hears)
    ensures Entry(Removed(listeners, gone), handler, if gone == handler then None else hears)
  {
    if listeners != [] {
      var front, last := listeners[..|listeners| - 1], listeners[|listeners| - 1];
      RemovedEntry(front, gone, handler, if last.handler == handler then None else hears);
    }
  }

  /** A handler is subscribed at most once. */
  ghost predicate Once(steps: seq<Step>, handler: nat) {
    forall i, j :: 0 <= i < j < |steps| && steps[i].Subscribes? && steps[i].handler == handler ==>
      !(steps[j].Subscribes? && steps[j].handler == handler)
  }

  lemma {:induction false} NotBefore(steps: seq<Step>, handler: nat)
    requires forall i :: 0 <= i < |steps| ==> !(steps[i].Subscribes? && steps[i].handler == handler)
    ensures Hears(steps, handler) == None
  {
    if steps != [] { NotBefore(steps[..|steps| - 1], handler); }
  }

  lemma EntryAdded(listeners: seq<Listener>, handler: nat, hears: Option<Id>, added: Listener)
    requires Entry(listeners, handler, hears) && (added.handler == handler ==> hears == None)
    ensures Entry(listeners + [added], handler, if added.handler == handler then Some(added.channel) else hears)
  {
    var longer := listeners + [added];
    assert longer[|listeners|] == added && forall i :: 0 <= i < |listeners| ==> longer[i] == listeners[i];
  }

  lemma {:induction false} HasEntry(steps: seq<Step>, handler: nat)
    requires Once(steps, handler)
    ensures Entry(ListenersAfter(steps), handler, Hears(steps, handler))
  {
    if steps != [] {
      var front, s := steps[..|steps| - 1], steps[|steps| - 1];
      HasEntry(front, handler);
      match s
      case Subscribes(h, c) =>
        if h == handler { NotBefore(front, handler); }
        EntryAdded(ListenersAfter(front), handler, Hears(front, handler), Listener(h, c));
      case Unsubscribes(h) => RemovedEntry(ListenersAfter(front), h, handler, Hears(front, handler));
      case Emits(_, _) =>
      case Closes =>
    }
  }

  /** Every handler hears exactly the events emitted on its channel while it is subscribed, each once and
      in order, whoever else subscribes, unsubscribes or fails. */
  lemma {:induction false} HearsExactly(steps: seq<Step>, handler: nat)
    requires Once(steps, handler)
    ensures Heard(DeliveredAfter(steps), handler) == Meant(steps, handler)
  {
    if steps != [] {
      var front, s := steps[..|steps| - 1], steps[|steps| - 1];
      HearsExactly(front, handler);
      if s.Emits? {
        HasEntry(front, handler);
        EmissionHeard(ListenersAfter(front), handler, Hears(front, handler), s.channel, s.event);
        HeardConcat(DeliveredAfter(front), Deliveries(ListenersAfter(front), s.channel, s.event), handler);
      } else {
        assert DeliveredAfter(steps) == DeliveredAfter(front);
      }
    }
  }
}
