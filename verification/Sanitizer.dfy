/** Repair of a message history before it goes to a model: a tool call without its result, or a
    result without its call, is dropped. One pass, looking one message ahead and carrying the calls
    of the message before. */
module Sanitizer {
  import opened Collections

  datatype Part =
    | ToolCall(id: Id, input: string)
    | ToolResult(id: Id, output: string)
    | OtherPart(payload: string)  // text, files, and calls or results without a string id

  datatype Content = Text(text: string) | Parts(parts: seq<Part>)

  datatype Role = System | User | Assistant | Tool

  datatype Message = Message(role: Role, content: Content)

  /** `toolResultIdsFor` */
  function ResultIds(m: Option<Message>): set<Id> {
    if m.None? || m.value.role != Tool || m.value.content.Text? then {}
    else set p | p in m.value.content.parts && p.ToolResult? :: p.id
  }

  /** `toolCallIdsFor` of an assistant message; no other message makes calls. */
  function CallIds(m: Option<Message>): set<Id> {
    if m.None? || m.value.role != Assistant || m.value.content.Text? then {}
    else set p | p in m.value.content.parts && p.ToolCall? :: p.id
  }

  /** The parts without the calls that have no result. */
  function AnsweredParts(parts: seq<Part>, results: set<Id>): (kept: seq<Part>)
    ensures |kept| <= |parts| && (|kept| == |parts| ==> kept == parts)
    ensures forall p :: p in kept <==> p in parts && (p.ToolCall? ==> p.id in results)
  {
    if parts == [] then []
    else
      var p := parts[|parts| - 1];
      AnsweredParts(parts[..|parts| - 1], results) + (if p.ToolCall? && p.id !in results then [] else [p])
  }

  /** The parts that are results of one of the calls. */
  function AnsweringParts(parts: seq<Part>, calls: set<Id>): (kept: seq<Part>)
    ensures forall p :: p in kept <==> p in parts && p.ToolResult? && p.id in calls
    ensures (forall p :: p in parts ==> p.ToolResult? && p.id in calls) ==> kept == parts
  {
    if parts == [] then []
    else
      var p := parts[|parts| - 1];
      assert forall q :: q in parts <==> q in parts[..|parts| - 1] || q == p;
      AnsweringParts(parts[..|parts| - 1], calls) + (if p.ToolResult? && p.id in calls then [p] else [])
  }

  /** What is kept stays in order: what is kept of a beginning begins what is kept of the whole. */
  lemma {:induction false} AnsweredInOrder(parts: seq<Part>, results: set<Id>, n: nat)
    requires n <= |parts|
    ensures AnsweredParts(parts[..n], results) <= AnsweredParts(parts, results)
  {
    if n == |parts| {
      assert parts[..n] == parts;
    } else {
      var front := parts[..|parts| - 1];
      assert front[..n] == parts[..n];
      AnsweredInOrder(front, results, n);
    }
  }

  lemma {:induction false} AnsweringInOrder(parts: seq<Part>, calls: set<Id>, n: nat)
    requires n <= |parts|
    ensures AnsweringParts(parts[..n], calls) <= AnsweringParts(parts, calls)
  {
    if n == |parts| {
      assert parts[..n] == parts;
    } else {
      var front := parts[..|parts| - 1];
      assert front[..n] == parts[..n];
      AnsweringInOrder(front, calls, n);
    }
  }

  /** A part stays as often as it is there, or goes altogether. */
  lemma {:induction false} AnsweredCount(parts: seq<Part>, results: set<Id>, p: Part)
    ensures Occurrences(AnsweredParts(parts, results), p) ==
      if p.ToolCall? && p.id !in results then 0 else Occurrences(parts, p)
  {
    if parts != [] {
      var front, last := parts[..|parts| - 1], parts[|parts| - 1];
      AnsweredCount(front, results, p);
      if last.ToolCall? && last.id !in results {
        assert AnsweredParts(parts, results) == AnsweredParts(front, results);
      } else {
        OccursLast(AnsweredParts(front, results), last, p);
      }
    }
  }

  lemma {:induction false} AnsweringCount(parts: seq<Part>, calls: set<Id>, p: Part)
    ensures Occurrences(AnsweringParts(parts, calls), p) ==
      if p.ToolResult? && p.id in calls then Occurrences(parts, p) else 0
  {
    if parts != [] {
      var front, last := parts[..|parts| - 1], parts[|parts| - 1];
      AnsweringCount(front, calls, p);
      if last.ToolResult? && last.id in calls {
        OccursLast(AnsweringParts(front, calls), last, p);
      } else {
        assert AnsweringParts(parts, calls) == AnsweringParts(front, calls);
      }
    }
  }

  function SanitizeAssistant(m: Message, nextResults: set<Id>): Option<Message> {
    if m.content.Text? then Some(m)
    else
      var kept := AnsweredParts(m.content.parts, nextResults);
      if |kept| == |m.content.parts| then Some(m)
      else if kept == [] then None
      else Some(m.(content := Parts(kept)))
  }

  function SanitizeTool(m: Message, pending: set<Id>): Option<Message> {
    if m.content.Text? || pending == {} then None
    else
      var kept := AnsweringParts(m.content.parts, pending);
      if kept == [] then None else Some(m.(content := Parts(kept)))
  }

  function Head(ms: seq<Message>): Option<Message> {
    if ms == [] then None else Some(ms[0])
  }

  function AsSeq(m: Option<Message>): seq<Message> {
    if m.None? then [] else [m.value]
  }

  /** What is kept of a message, if anything, and the calls carried to the next one. */
  function Step(m: Message, next: Option<Message>, pending: set<Id>): (Option<Message>, set<Id>) {
    match m.role
    case Assistant => (SanitizeAssistant(m, ResultIds(next)), CallIds(SanitizeAssistant(m, ResultIds(next))))
    case Tool => (SanitizeTool(m, pending), {})
    case _ => (Some(m), {})
  }

  function Scan(ms: seq<Message>, pending: set<Id>): seq<Message> {
    if ms == [] then []
    else
      var (kept, carried) := Step(ms[0], Head(ms[1..]), pending);
      AsSeq(kept) + Scan(ms[1..], carried)
  }

  function Sanitize(ms: seq<Message>): seq<Message> {
    Scan(ms, {})
  }

  /** The loop body. */
  method SanitizeOne(message: Message, next: Option<Message>, pending: set<Id>, out: seq<Message>)
    returns (longer: seq<Message>, pendingToolCallIds: set<Id>)
    ensures longer == out + AsSeq(Step(message, next, pending).0)
    ensures pendingToolCallIds == Step(message, next, pending).1
  {
    longer := out;
    if message.role == Assistant {
      var sanitized := SanitizeAssistant(message, ResultIds(next));
      pendingToolCallIds := CallIds(sanitized);
      if sanitized.Some? { longer := longer + [sanitized.value]; }
    } else if message.role == Tool {
      var sanitized := SanitizeTool(message, pending);
      pendingToolCallIds := {};
      if sanitized.Some? { longer := longer + [sanitized.value]; }
    } else {
      pendingToolCallIds := {};
      longer := longer + [message];
    }
  }

  method SanitizeModelMessages(messages: seq<Message>) returns (out: seq<Message>)
    ensures out == Sanitize(messages)
  {
    out := [];
    var pendingToolCallIds: set<Id> := {};
    for index := 0 to |messages|
      invariant out + Scan(messages[index..], pendingToolCallIds) == Sanitize(messages)
    {
      var next := if index + 1 < |messages| then Some(messages[index + 1]) else None;
      ScanUnfold(messages, index, pendingToolCallIds, out);
      out, pendingToolCallIds := SanitizeOne(messages[index], next, pendingToolCallIds, out);
    }
  }

  lemma ScanUnfold(ms: seq<Message>, i: nat, pending: set<Id>, out: seq<Message>)
    requires i < |ms|
    ensures var (kept, carried) := Step(ms[i], At(ms, i + 1), pending);
      out + Scan(ms[i..], pending) == out + AsSeq(kept) + Scan(ms[i + 1..], carried)
  {
    assert ms[i..][1..] == ms[i + 1..];
    assert Head(ms[i + 1..]) == At(ms, i + 1);
  }

  function At(ms: seq<Message>, i: int): Option<Message> {
    if 0 <= i < |ms| then Some(ms[i]) else None
  }

  // ---------------------------------------------------------------------------------------------
  // Well-paired histories
  // ---------------------------------------------------------------------------------------------

  /** Between two neighbours: every call of the one has its result in the other, which then is a tool
      message, and a tool message consists of results of calls of the assistant message before it. */
  ghost predicate Fits(m: Option<Message>, next: Option<Message>) {
    CallIds(m) <= ResultIds(next) &&
    (next.Some? && next.value.role == Tool ==>
      next.value.content.Parts? && next.value.content.parts != [] &&
      forall p :: p in next.value.content.parts ==> p.ToolResult? && p.id in CallIds(m))
  }

  /** The boundary before message i, when `last` is the message before ms. */
  ghost predicate FitsAt(last: Option<Message>, ms: seq<Message>, i: nat)
    requires i <= |ms|
  {
    Fits(if i == 0 then last else Some(ms[i - 1]), At(ms, i))
  }

  ghost predicate PairedAfter(last: Option<Message>, ms: seq<Message>) {
    forall i :: 0 <= i <= |ms| ==> FitsAt(last, ms, i)
  }

  ghost predicate WellPaired(ms: seq<Message>) {
    PairedAfter(None, ms)
  }

  lemma PairedUnfold(last: Option<Message>, ms: seq<Message>)
    requires ms != []
    ensures PairedAfter(last, ms) <==> Fits(last, Some(ms[0])) && PairedAfter(Some(ms[0]), ms[1..])
  {
    var rest := ms[1..];
    assert forall i :: 0 <= i <= |rest| ==> FitsAt(Some(ms[0]), rest, i) == FitsAt(last, ms, i + 1);
    assert FitsAt(last, ms, 0) == Fits(last, Some(ms[0]));
    if Fits(last, Some(ms[0])) && PairedAfter(Some(ms[0]), rest) {
      forall i | 0 <= i <= |ms| ensures FitsAt(last, ms, i) {
        if i > 0 { assert FitsAt(Some(ms[0]), rest, i - 1); }
      }
    }
  }

  /** The calls carried are those of the last message kept, and the next message answers them. */
  lemma {:induction false} ScanPairs(ms: seq<Message>, last: Option<Message>, pending: set<Id>)
    requires pending == CallIds(last) && pending <= ResultIds(Head(ms))
    ensures PairedAfter(last, Scan(ms, pending))
    decreases |ms|
  {
    if ms != [] {
      var (kept, carried) := Step(ms[0], Head(ms[1..]), pending);
      StepPairs(ms[0], Head(ms[1..]), last, pending);
      ScanPairs(ms[1..], if kept.Some? then kept else last, carried);
      if kept.Some? {
        PairedUnfold(last, Scan(ms, pending));
        assert Scan(ms, pending)[1..] == Scan(ms[1..], carried);
      } else {
        assert Scan(ms, pending) == Scan(ms[1..], carried);
      }
    }
  }

  lemma StepPairs(m: Message, next: Option<Message>, last: Option<Message>, pending: set<Id>)
    requires pending == CallIds(last) && pending <= ResultIds(Some(m))
    ensures var (kept, carried) := Step(m, next, pending);
      carried == CallIds(if kept.Some? then kept else last) &&
      carried <= ResultIds(next) &&
      (kept.Some? ==> Fits(last, kept))
  {
    if m.role == Tool {
      forall id | id in pending ensures m.content.Parts? && id in ResultIds(SanitizeTool(m, pending)) {
        assert id in ResultIds(Some(m));
        var p :| p in m.content.parts && p.ToolResult? && p.id == id;
        assert p in AnsweringParts(m.content.parts, pending);
      }
    }
  }

  /** Whatever goes in, what comes out is well paired. */
  lemma SanitizePairs(ms: seq<Message>)
    ensures WellPaired(Sanitize(ms))
  {
    ScanPairs(ms, None, {});
  }

  lemma {:induction false} ScanIdentity(ms: seq<Message>, last: Option<Message>)
    requires PairedAfter(last, ms)
    ensures Scan(ms, CallIds(last)) == ms
    decreases |ms|
  {
    if ms != [] {
      PairedUnfold(last, ms);
      assert FitsAt(Some(ms[0]), ms[1..], 0);
      StepIdentity(ms[0], Head(ms[1..]), last);
      ScanIdentity(ms[1..], Some(ms[0]));
    }
  }

  lemma StepIdentity(m: Message, next: Option<Message>, last: Option<Message>)
    requires Fits(last, Some(m)) && Fits(Some(m), next)
    ensures Step(m, next, CallIds(last)) == (Some(m), CallIds(Some(m)))
  {
    if m.role == Assistant && m.content.Parts? {
      AllAnswered(m.content.parts, ResultIds(next));
    } else if m.role == Tool {
      assert m.content.parts[0] in m.content.parts;
    }
  }

  lemma {:induction false} AllAnswered(parts: seq<Part>, results: set<Id>)
    requires forall p :: p in parts && p.ToolCall? ==> p.id in results
    ensures AnsweredParts(parts, results) == parts
  {
    if parts != [] {
      AllAnswered(parts[..|parts| - 1], results);
    }
  }

  /** A well-paired history is left alone. */
  lemma SanitizeIdentity(ms: seq<Message>)
    requires WellPaired(ms)
    ensures Sanitize(ms) == ms
  {
    ScanIdentity(ms, None);
  }

  lemma SanitizeIdempotent(ms: seq<Message>)
    ensures Sanitize(Sanitize(ms)) == Sanitize(ms)
  {
    SanitizePairs(ms);
    SanitizeIdentity(Sanitize(ms));
  }

  // ---------------------------------------------------------------------------------------------
  // Exactness
  // ---------------------------------------------------------------------------------------------

  /** What is kept of the message at i, by its two neighbours in the input alone: of an assistant
      message all but the calls the next message has no result for; of a tool message the results of
      calls the previous message makes. A message that loses all its parts goes. */
  function Kept(ms: seq<Message>, i: nat): Option<Message>
    requires i < |ms|
  {
    var m := ms[i];
    if m.role == Assistant then SanitizeAssistant(m, ResultIds(At(ms, i + 1)))
    else if m.role == Tool then
      if m.content.Text? || AnsweringParts(m.content.parts, CallIds(At(ms, i - 1))) == [] then None
      else Some(m.(content := Parts(AnsweringParts(m.content.parts, CallIds(At(ms, i - 1))))))
    else Some(m)
  }

  function KeptFrom(ms: seq<Message>, i: nat): seq<Message>
    requires i <= |ms|
    decreases |ms| - i
  {
    if i == |ms| then [] else AsSeq(Kept(ms, i)) + KeptFrom(ms, i + 1)
  }

  /** Intersecting the calls with the ids a tool message has results for changes nothing for it. */
  lemma {:induction false} OnlyOwnIdsMatter(parts: seq<Part>, calls: set<Id>, pending: set<Id>)
    requires forall p :: p in parts && p.ToolResult? ==> (p.id in calls <==> p.id in pending)
    ensures AnsweringParts(parts, calls) == AnsweringParts(parts, pending)
  {
    if parts != [] {
      OnlyOwnIdsMatter(parts[..|parts| - 1], calls, pending);
    }
  }

  /** The calls carried out of an assistant message are the ones the next message answers. */
  lemma CarriedCalls(m: Message, results: set<Id>)
    requires m.role == Assistant
    ensures CallIds(SanitizeAssistant(m, results)) == CallIds(Some(m)) * results
  {
    if m.content.Parts? {
      var kept := AnsweredParts(m.content.parts, results);
      forall id ensures id in CallIds(SanitizeAssistant(m, results)) <==> id in CallIds(Some(m)) * results {
        if id in CallIds(Some(m)) * results {
          var p :| p in m.content.parts && p.ToolCall? && p.id == id;
          assert p in kept;
        }
      }
    }
  }

  /** The calls of the message before i that the message at i answers. */
  function Answered(ms: seq<Message>, i: nat): set<Id> {
    CallIds(At(ms, i - 1)) * ResultIds(At(ms, i))
  }

  lemma StepIsLocal(ms: seq<Message>, i: nat)
    requires i < |ms|
    ensures Step(ms[i], At(ms, i + 1), Answered(ms, i)) == (Kept(ms, i), Answered(ms, i + 1))
  {
    var m := ms[i];
    if m.role == Assistant {
      CarriedCalls(m, ResultIds(At(ms, i + 1)));
    } else if m.role == Tool && m.content.Parts? {
      OnlyOwnIdsMatter(m.content.parts, CallIds(At(ms, i - 1)), Answered(ms, i));
      var kept := AnsweringParts(m.content.parts, Answered(ms, i));
      assert kept != [] ==> kept[0] in kept;
    }
    assert m.role != Assistant ==> Answered(ms, i + 1) == {};
  }

  lemma {:induction false} ScanIsLocal(ms: seq<Message>, i: nat)
    requires i <= |ms|
    ensures Scan(ms[i..], Answered(ms, i)) == KeptFrom(ms, i)
    decreases |ms| - i
  {
    if i < |ms| {
      StepIsLocal(ms, i);
      ScanUnfold(ms, i, Answered(ms, i), []);
      ScanIsLocal(ms, i + 1);
    }
  }

  /** The one pass with carried state does what the neighbours say, message by message. */
  lemma SanitizeExact(ms: seq<Message>)
    ensures Sanitize(ms) == KeptFrom(ms, 0)
  {
    ScanIsLocal(ms, 0);
    assert ms[0..] == ms;
  }

  /** A message stays as what it was but for its parts. An assistant message goes exactly if it has parts
      and all of them are calls the next message has no result for; a tool message exactly if none of
      its parts is a result of a call of the message before; any other never. None is left empty. */
  lemma GoneOrKept(ms: seq<Message>, i: nat)
    requires i < |ms|
    ensures Kept(ms, i).None? <==>
      (ms[i].role == Assistant && ms[i].content.Parts? && ms[i].content.parts != [] &&
        forall p :: p in ms[i].content.parts ==> p.ToolCall? && p.id !in ResultIds(At(ms, i + 1))) ||
      (ms[i].role == Tool && (ms[i].content.Text? ||
        forall p :: p in ms[i].content.parts ==> !(p.ToolResult? && p.id in CallIds(At(ms, i - 1)))))
    ensures Kept(ms, i).Some? ==>
      var m := Kept(ms, i).value;
      m.role == ms[i].role && (m.content.Text? <==> ms[i].content.Text?) &&
      (m.content.Text? || (m.role != Assistant && m.role != Tool) ==> m == ms[i]) &&
      (m.content.Parts? && m.content.parts == [] ==> m == ms[i])
  {
    var m := ms[i];
    if m.role == Assistant && m.content.Parts? {
      var kept := AnsweredParts(m.content.parts, ResultIds(At(ms, i + 1)));
      if kept != [] { assert kept[0] in kept; }
      if m.content.parts != [] { assert m.content.parts[0] in m.content.parts; }
    } else if m.role == Tool && m.content.Parts? {
      var kept := AnsweringParts(m.content.parts, CallIds(At(ms, i - 1)));
      if kept != [] { assert kept[0] in kept; }
    }
  }

  /** In particular: a call goes only if the next message has no result for it, a result only if the
      previous message does not make the call, and other parts of assistant messages stay. */
  lemma DroppedOnlyIfUnpaired(ms: seq<Message>, i: nat, p: Part)
    requires i < |ms| && ms[i].content.Parts? && p in ms[i].content.parts
    ensures ms[i].role == Assistant ==>
      ((Kept(ms, i).Some? && Kept(ms, i).value.content.Parts? && p in Kept(ms, i).value.content.parts)
       <==> (p.ToolCall? ==> p.id in ResultIds(At(ms, i + 1))))
    ensures ms[i].role == Tool ==>
      ((Kept(ms, i).Some? && Kept(ms, i).value.content.Parts? && p in Kept(ms, i).value.content.parts)
       <==> p.ToolResult? && p.id in CallIds(At(ms, i - 1)))
  {
    if ms[i].role == Assistant {
      var kept := AnsweredParts(ms[i].content.parts, ResultIds(At(ms, i + 1)));
      assert p in kept <==> (p.ToolCall? ==> p.id in ResultIds(At(ms, i + 1)));
    } else {
      var kept := AnsweringParts(ms[i].content.parts, CallIds(At(ms, i - 1)));
      assert p in kept <==> p.ToolResult? && p.id in CallIds(At(ms, i - 1));
    }
  }

  /** The user and system messages, in order. */
  function Plain(ms: seq<Message>): seq<Message> {
    if ms == [] then []
    else (if ms[0].role == User || ms[0].role == System then [ms[0]] else []) + Plain(ms[1..])
  }

  lemma {:induction false} ScanKeepsPlain(ms: seq<Message>, pending: set<Id>)
    ensures Plain(Scan(ms, pending)) == Plain(ms)
  {
    if ms != [] {
      var (kept, carried) := Step(ms[0], Head(ms[1..]), pending);
      ScanKeepsPlain(ms[1..], carried);
      if kept.Some? { assert Scan(ms, pending)[1..] == Scan(ms[1..], carried); }
      else { assert Scan(ms, pending) == Scan(ms[1..], carried); }
    }
  }

  lemma SanitizeKeepsPlain(ms: seq<Message>)
    ensures Plain(Sanitize(ms)) == Plain(ms)
  {
    ScanKeepsPlain(ms, {});
  }
}
