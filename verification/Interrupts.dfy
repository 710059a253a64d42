/** Messages that interrupt a running agent loop: read ahead when the loop is about to stop, handed
    over at the next step, and merged into the message list the loop owns. */
module Interrupts {
  import opened Collections
  import opened Sanitizer

  /** A JavaScript array of messages: a reference, so two names can mean the same list. */
  class MessageList {
    var items: seq<Message>

    constructor (items: seq<Message>)
      ensures this.items == items
    {
      this.items := items;
    }

    method Push(more: seq<Message>)
      modifies this
      ensures items == old(items) + more
    {
      items := items + more;
    }

    /** A splice over the whole list. */
    method ReplaceAll(all: seq<Message>)
      modifies this
      ensures items == all
    {
      items := all;
    }
  }

  /** `mergeInterruptMessages`: the outcome is the same whichever of the three lists coincide. */
  method MergeInterruptMessages(messages: MessageList, nextMessages: MessageList, interrupts: MessageList)
    returns (merged: MessageList)
    modifies messages
    ensures merged == messages
    ensures messages.items == if old(interrupts.items) == [] then old(messages.items)
                              else old(nextMessages.items) + old(interrupts.items)
  {
    if |interrupts.items| == 0 { return messages; }
    if nextMessages == messages {
      messages.Push(interrupts.items);
      return messages;
    }
    messages.ReplaceAll(nextMessages.items + interrupts.items);
    merged := messages;
  }

  /** The part of `prepareStep` that has interrupts to merge: the loop's own list becomes a
      well-paired history that has lost no user or system message. */
  method PrepareStep(messages: MessageList, nextMessages: MessageList, interrupts: MessageList)
    modifies messages
    ensures old(interrupts.items) == [] ==> messages.items == old(messages.items)
    ensures old(interrupts.items) != [] ==>
      messages.items == Sanitize(old(nextMessages.items) + old(interrupts.items)) &&
      WellPaired(messages.items) &&
      Plain(messages.items) == Plain(old(nextMessages.items)) + Plain(old(interrupts.items))
  {
    if |interrupts.items| == 0 { return; }
    ghost var next, more := nextMessages.items, interrupts.items;
    var merged := MergeInterruptMessages(messages, nextMessages, interrupts);
    var clean := SanitizeModelMessages(messages.items);
    messages.ReplaceAll(clean);
    SanitizePairs(next + more);
    SanitizeKeepsPlain(next + more);
    PlainConcat(next, more);
  }

  lemma {:induction false} PlainConcat(a: seq<Message>, b: seq<Message>)
    ensures Plain(a + b) == Plain(a) + Plain(b)
  {
    if a == [] {
      assert a + b == b;
    } else {
      PlainConcat(a[1..], b);
      var kept := if a[0].role == User || a[0].role == System then [a[0]] else [];
      assert (a + b)[0] == a[0] && (a + b)[1..] == a[1..] + b;
      assert kept + (Plain(a[1..]) + Plain(b)) == kept + Plain(a[1..]) + Plain(b);
    }
  }

  // ---------------------------------------------------------------------------------------------
  // Reading ahead
  // ---------------------------------------------------------------------------------------------

  /** The messages that wait to be handed over, the calls of hasInterruptsForStep and of
      loadInterruptsForStep that wait for the source, whether two looks, or any two calls, have ever waited
      at once, and what has become of the messages: all that the source has answered (sanitized), what was
      handed to the loop, and what was overwritten before it could be. */
  datatype Ledger = Ledger(pending: seq<Message>, looking: nat, loading: nat, doubled: bool, overlapped: bool,
                           taken: seq<Message>, delivered: seq<Message>, lost: seq<Message>)

  function Nothing(): Ledger {
    Ledger([], 0, 0, false, false, [], [], [])
  }

  /** The two halves of each call; between them it waits for the source. */
  datatype Step = LookBegins | LookEnds(more: seq<Message>) | LoadBegins | LoadEnds(more: seq<Message>)

  predicate Enabled(l: Ledger, s: Step) {
    match s
    case LookEnds(_) => l.looking > 0
    case LoadEnds(_) => l.loading > 0
    case _ => true
  }

  /** A call begins to wait. */
  function Waits(l: Ledger, looks: bool): Ledger {
    l.(doubled := l.doubled || (looks && l.looking > 0),
       overlapped := l.overlapped || l.looking + l.loading > 0,
       looking := l.looking + (if looks then 1 else 0), loading := l.loading + (if looks then 0 else 1))
  }

  function Next(l: Ledger, s: Step): Ledger
    requires Enabled(l, s)
  {
    match s
    case LookBegins => if l.pending != [] then l else Waits(l, true)
    case LookEnds(more) =>
      if more == [] then l.(looking := l.looking - 1)
      else l.(looking := l.looking - 1, taken := l.taken + more, pending := more, lost := l.lost + l.pending)
    case LoadBegins =>
      if l.pending != [] then l.(pending := [], delivered := l.delivered + l.pending) else Waits(l, false)
    case LoadEnds(more) =>
      l.(loading := l.loading - 1, taken := l.taken + more, delivered := l.delivered + more)
  }

  function After(steps: seq<Step>): Option<Ledger> {
    if steps == [] then Some(Nothing())
    else
      var before, s := After(steps[..|steps| - 1]), steps[|steps| - 1];
      if before.Some? && Enabled(before.value, s) then Some(Next(before.value, s)) else None
  }

  lemma AfterOne(steps: seq<Step>, s: Step)
    requires After(steps).Some? && Enabled(After(steps).value, s)
    ensures After(steps + [s]) == Some(Next(After(steps).value, s))
  {
    assert (steps + [s])[..|steps + [s]| - 1] == steps;
  }

  /** What the source has given is handed over, pending or lost. It is lost only once two looks have
      waited at once, and stands in order unless calls have overlapped. */
  ghost predicate Balanced(l: Ledger) {
    multiset(l.taken) == multiset(l.delivered) + multiset(l.pending) + multiset(l.lost) &&
    (!l.doubled ==> l.lost == [] && l.looking <= 1 && (l.looking == 1 ==> l.pending == [])) &&
    (!l.overlapped ==>
      !l.doubled && l.taken == l.delivered + l.pending && l.looking + l.loading <= 1 &&
      (l.looking + l.loading == 1 ==> l.pending == []))
  }

  lemma NextBalanced(l: Ledger, s: Step)
    requires Balanced(l) && Enabled(l, s)
    ensures Balanced(Next(l, s))
  {
    match s
    case LookBegins =>
    case LookEnds(more) => LookEndsBalanced(l, more);
    case LoadBegins => assert multiset(l.delivered + l.pending) == multiset(l.delivered) + multiset(l.pending);
    case LoadEnds(more) => LoadEndsBalanced(l, more);
  }

  lemma LookEndsBalanced(l: Ledger, more: seq<Message>)
    requires Balanced(l) && l.looking > 0
    ensures Balanced(Next(l, LookEnds(more)))
  {
    assert multiset(l.taken + more) == multiset(l.taken) + multiset(more);
    assert multiset(l.lost + l.pending) == multiset(l.lost) + multiset(l.pending);
  }

  lemma LoadEndsBalanced(l: Ledger, more: seq<Message>)
    requires Balanced(l) && l.loading > 0
    ensures Balanced(Next(l, LoadEnds(more)))
  {
    assert multiset(l.taken + more) == multiset(l.taken) + multiset(more);
    assert multiset(l.delivered + more) == multiset(l.delivered) + multiset(more);
  }

  /** The look that ends as the i-th step brings something while something is pending. */
  ghost predicate OverwritesAt(steps: seq<Step>, i: nat)
    requires i < |steps|
  {
    steps[i].LookEnds? && steps[i].more != [] && After(steps[..i]).Some? && After(steps[..i]).value.pending != []
  }

  ghost predicate Overwrote(steps: seq<Step>) {
    exists i :: 0 <= i < |steps| && OverwritesAt(steps, i)
  }

  lemma OverwroteLast(steps: seq<Step>)
    requires steps != []
    ensures Overwrote(steps) <==> Overwrote(steps[..|steps| - 1]) || OverwritesAt(steps, |steps| - 1)
  {
    var front := steps[..|steps| - 1];
    if i :| 0 <= i < |front| && OverwritesAt(front, i) {
      assert front[..i] == steps[..i] && OverwritesAt(steps, i);
    }
    if i :| 0 <= i < |front| && OverwritesAt(steps, i) {
      assert front[..i] == steps[..i] && OverwritesAt(front, i);
    }
  }

  /** In every run of the two calls: nothing is lost if and only if no look ends with something while
      something is pending; every message taken is handed over, pending or lost; nothing is lost unless
      two looks wait at once, and while no two calls do, messages stay in order. */
  lemma {:induction false} LostIff(steps: seq<Step>)
    requires After(steps).Some?
    ensures After(steps).value.lost != [] <==> Overwrote(steps)
    ensures Balanced(After(steps).value)
  {
    if steps != [] {
      var n := |steps| - 1;
      var l := After(steps[..n]).value;
      LostIff(steps[..n]);
      NextBalanced(l, steps[n]);
      LostStep(l, steps[n]);
      OverwroteLast(steps);
    }
  }

  lemma LostStep(l: Ledger, s: Step)
    requires Enabled(l, s)
    ensures Next(l, s).lost != [] <==> l.lost != [] || (s.LookEnds? && s.more != [] && l.pending != [])
  {}

  /** For instance: two looks begin, and the second to end overwrites what the first has read. */
  lemma TwoLooksLose(first: Message, second: Message)
    ensures var l := After([LookBegins, LookBegins, LookEnds([first]), LookEnds([second])]);
      l.Some? && l.value.lost == [first] && l.value.pending == [second]
  {
    var s1: seq<Step> := [LookBegins];
    var s2 := s1 + [LookBegins];
    var s3 := s2 + [LookEnds([first])];
    var s4 := s3 + [LookEnds([second])];
    assert [] + [LookBegins] == s1;
    AfterOne([], LookBegins);
    assert After(s1) == Some(Ledger([], 1, 0, false, false, [], [], []));
    AfterOne(s1, LookBegins);
    assert After(s2) == Some(Ledger([], 2, 0, true, true, [], [], []));
    AfterOne(s2, LookEnds([first]));
    var none: seq<Message> := [];
    assert none + [first] == [first] && none + none == none;
    assert After(s3) == Some(Ledger([first], 1, 0, true, true, [first], [], []));
    AfterOne(s3, LookEnds([second]));
    assert s4 == [LookBegins, LookBegins, LookEnds([first]), LookEnds([second])];
  }

  /** The closures over `pendingInterrupts`. Both ask the source of interrupts when nothing is pending,
      and go on when it has answered; while one waits for the answer, others may begin. */
  class InterruptBuffer {
    var pendingInterrupts: seq<Message>
    ghost var ledger: Ledger
    ghost var history: seq<Step>

    ghost predicate Valid()
      reads this
    {
      After(history) == Some(ledger) && Balanced(ledger) && ledger.pending == pendingInterrupts
    }

    constructor ()
      ensures Valid() && history == []
    {
      pendingInterrupts, ledger, history := [], Nothing(), [];
    }

    ghost method Record(s: Step)
      requires After(history) == Some(ledger) && Balanced(ledger) && Enabled(ledger, s)
      modifies `ledger, `history
      ensures After(history) == Some(ledger) && Balanced(ledger)
      ensures ledger == Next(old(ledger), s) && history == old(history) + [s]
    {
      AfterOne(history, s);
      NextBalanced(ledger, s);
      ledger, history := Next(ledger, s), history + [s];
    }

    /** `hasInterruptsForStep`, up to its wait. */
    method BeginHasInterrupts() returns (any: bool)
      requires Valid()
      modifies this
      ensures Valid() && history == old(history) + [LookBegins] && ledger == Next(old(ledger), LookBegins)
      ensures any <==> old(pendingInterrupts) != []
      ensures pendingInterrupts == old(pendingInterrupts) && ledger.loading == old(ledger.loading)
      ensures ledger.looking == old(ledger.looking) + if any then 0 else 1
    {
      any := |pendingInterrupts| > 0;
      Record(LookBegins);
    }

    /** Its other half. */
    method EndHasInterrupts(incoming: seq<Message>) returns (any: bool)
      requires Valid() && ledger.looking > 0
      modifies this
      ensures Valid() && history == old(history) + [LookEnds(Sanitize(incoming))]
      ensures ledger == Next(old(ledger), LookEnds(Sanitize(incoming))) && (any <==> Sanitize(incoming) != [])
      ensures pendingInterrupts == if any then Sanitize(incoming) else old(pendingInterrupts)
      ensures ledger.looking == old(ledger.looking) - 1 && ledger.loading == old(ledger.loading)
    {
      var loaded := SanitizeModelMessages(incoming);
      Record(LookEnds(loaded));
      any := |loaded| > 0;
      if any { pendingInterrupts := loaded; }
    }

    /** `loadInterruptsForStep`, up to its wait: what is pending is handed over, all of it. */
    method BeginLoadInterrupts() returns (out: Option<seq<Message>>)
      requires Valid()
      modifies this
      ensures Valid() && history == old(history) + [LoadBegins] && ledger == Next(old(ledger), LoadBegins)
      ensures out == if old(pendingInterrupts) == [] then None else Some(old(pendingInterrupts))
      ensures pendingInterrupts == [] && ledger.looking == old(ledger.looking)
      ensures ledger.loading == old(ledger.loading) + if out.None? then 1 else 0
    {
      Record(LoadBegins);
      if |pendingInterrupts| > 0 {
        out, pendingInterrupts := Some(pendingInterrupts), [];
      } else {
        out := None;
      }
    }

    /** Its other half: what the source had is handed over at once. */
    method EndLoadInterrupts(incoming: seq<Message>) returns (out: seq<Message>)
      requires Valid() && ledger.loading > 0
      modifies this
      ensures Valid() && history == old(history) + [LoadEnds(out)] && out == Sanitize(incoming)
      ensures ledger == Next(old(ledger), LoadEnds(out)) && pendingInterrupts == old(pendingInterrupts)
      ensures ledger.looking == old(ledger.looking) && ledger.loading == old(ledger.loading) - 1
    {
      out := SanitizeModelMessages(incoming);
      Record(LoadEnds(out));
    }
  }
}
