/** The adapter from the editor's language-model stream to the SDK's stream parts, and the collector
    that turns such a stream into one result. */
module StreamAdapter {
  import opened Collections

  datatype Delta =
    | Text(text: string)
    | ToolCall(id: Id, name: string, arguments: string)
    | Finish(reason: string)
    | OtherDelta

  datatype Reason = ToolCalls | ErrorReason | Stop

  datatype Part =
    | StreamStart
    | TextStart
    | TextDelta(text: string)
    | TextEnd
    | ToolCallPart(id: Id, name: string, input: string)
    | FinishPart(unified: Reason, raw: string)
    | ErrorPart

  function Unified(reason: string): Reason {
    if reason == "tool_use" then ToolCalls else if reason == "error" then ErrorReason else Stop
  }

  /** What one delta adds, and whether a text block is open afterwards. */
  function Emit(open: bool, d: Delta): (seq<Part>, bool) {
    match d
    case Text(text) =>
      if text == "" then ([], open) else ((if open then [] else [TextStart]) + [TextDelta(text)], true)
    case ToolCall(id, name, arguments) =>
      ((if open then [TextEnd] else []) + [ToolCallPart(id, name, arguments)], false)
    case Finish(reason) => ((if open then [TextEnd] else []) + [FinishPart(Unified(reason), reason)], false)
    case OtherDelta => ([], open)
  }

  function Transduce(deltas: seq<Delta>): (seq<Part>, bool) {
    if deltas == [] then ([StreamStart], false)
    else
      var (parts, open) := Transduce(deltas[..|deltas| - 1]);
      var (more, after) := Emit(open, deltas[|deltas| - 1]);
      (parts + more, after)
  }

  /** The whole stream; `throws` says that the provider's iterator fails after these deltas. */
  function Stream(deltas: seq<Delta>, throws: bool): seq<Part> {
    Transduce(deltas).0 + if throws then [ErrorPart] else []
  }

  method DoStream(deltas: seq<Delta>, throws: bool) returns (parts: seq<Part>)
    ensures parts == Stream(deltas, throws)
  {
    parts := [StreamStart];
    var textOpen := false;
    for n := 0 to |deltas|
      invariant (parts, textOpen) == Transduce(deltas[..n])
    {
      var d := deltas[n];
      assert deltas[..n + 1][..n] == deltas[..n];
      ghost var before, open := parts, textOpen;
      if d.Text? && d.text != "" {
        if !textOpen {
          parts := parts + [TextStart];
          textOpen := true;
        }
        parts := parts + [TextDelta(d.text)];
      } else if d.ToolCall? {
        if textOpen {
          parts := parts + [TextEnd];
          textOpen := false;
        }
        parts := parts + [ToolCallPart(d.id, d.name, d.arguments)];
      } else if d.Finish? {
        if textOpen {
          parts := parts + [TextEnd];
          textOpen := false;
        }
        parts := parts + [FinishPart(Unified(d.reason), d.reason)];
      }
      assert parts == before + Emit(open, d).0;
    }
    assert deltas[..|deltas|] == deltas;
    if throws { parts := parts + [ErrorPart]; }
  }

  // ---------------------------------------------------------------------------------------------
  // Text blocks
  // ---------------------------------------------------------------------------------------------

  /** Reading the parts: is a text block open at the end? None once a block is opened twice, text or
      an end comes outside a block, or a tool call or finish inside one. */
  function Reader(parts: seq<Part>): Option<bool> {
    if parts == [] then Some(false)
    else
      var before := Reader(parts[..|parts| - 1]);
      if before.None? then None
      else
        match parts[|parts| - 1]
        case TextStart => if before.value then None else Some(true)
        case TextDelta(_) => if before.value then Some(true) else None
        case TextEnd => if before.value then Some(false) else None
        case ToolCallPart(_, _, _) => if before.value then None else Some(false)
        case FinishPart(_, _) => if before.value then None else Some(false)
        case _ => before
  }

  lemma ReadOne(parts: seq<Part>, p: Part)
    ensures Reader(parts + [p]) ==
      var before := Reader(parts);
      if before.None? then None
      else
        match p
        case TextStart => if before.value then None else Some(true)
        case TextDelta(_) => if before.value then Some(true) else None
        case TextEnd => if before.value then Some(false) else None
        case ToolCallPart(_, _, _) => if before.value then None else Some(false)
        case FinishPart(_, _) => if before.value then None else Some(false)
        case _ => before
  {
    assert (parts + [p])[..|parts + [p]| - 1] == parts;
  }

  /** The last delta that shows is text. */
  predicate EndsInText(deltas: seq<Delta>) {
    if deltas == [] then false
    else
      var d := deltas[|deltas| - 1];
      if d.OtherDelta? || d == Text("") then EndsInText(deltas[..|deltas| - 1]) else d.Text?
  }

  lemma ReadTwo(parts: seq<Part>, first: Part, second: Part)
    ensures Reader(parts + [first, second]) == Reader((parts + [first]) + [second])
  {
    assert parts + [first, second] == (parts + [first]) + [second];
  }

  lemma ReadEmitted(parts: seq<Part>, open: bool, d: Delta)
    requires Reader(parts) == Some(open)
    ensures Reader(parts + Emit(open, d).0) == Some(Emit(open, d).1)
  {
    var more := Emit(open, d).0;
    if |more| == 2 {
      assert more == [more[0], more[1]];
      ReadTwo(parts, more[0], more[1]);
      ReadOne(parts, more[0]);
      ReadOne(parts + [more[0]], more[1]);
    } else if |more| == 1 {
      assert more == [more[0]];
      ReadOne(parts, more[0]);
    } else {
      assert parts + more == parts;
    }
  }

  lemma {:induction false} TransduceReads(deltas: seq<Delta>)
    ensures Reader(Transduce(deltas).0) == Some(Transduce(deltas).1)
    ensures Transduce(deltas).1 == EndsInText(deltas)
  {
    if deltas == [] {
      ReadOne([], StreamStart);
      assert [] + [StreamStart] == [StreamStart];
    } else {
      var n := |deltas| - 1;
      TransduceReads(deltas[..n]);
      var (parts, open) := Transduce(deltas[..n]);
      ReadEmitted(parts, open, deltas[n]);
    }
  }

  /** Whatever the provider sends, text is only ever inside a block and tool calls and finishes only
      outside; and the last block is closed exactly when the last delta that shows is not text, which
      a stream that ends in a finish makes sure of. */
  lemma Bracketed(deltas: seq<Delta>, throws: bool)
    ensures Reader(Stream(deltas, throws)) == Some(EndsInText(deltas))
    ensures deltas != [] && deltas[|deltas| - 1].Finish? ==> Reader(Stream(deltas, throws)) == Some(false)
  {
    TransduceReads(deltas);
    var parts := Transduce(deltas).0;
    ReadOne(parts, ErrorPart);
    assert parts + [] == parts;
  }

  /** For instance: a provider that fails after some text leaves the error part inside the block. */
  lemma ErrorInsideBlock()
    ensures Stream([Text("x")], true) == [StreamStart, TextStart, TextDelta("x"), ErrorPart]
    ensures Reader(Stream([Text("x")], true)) == Some(true)
  {
    Bracketed([Text("x")], true);
    assert [Text("x")][..0] == [];
    assert Transduce([Text("x")]).0 == [StreamStart] + [TextStart] + [TextDelta("x")];
  }

  // ---------------------------------------------------------------------------------------------
  // What shows
  // ---------------------------------------------------------------------------------------------

  /** The parts that carry something, without the marks around them. */
  function Visible(parts: seq<Part>): seq<Part> {
    if parts == [] then []
    else
      var p := parts[|parts| - 1];
      Visible(parts[..|parts| - 1]) + (if p.TextDelta? || p.ToolCallPart? || p.FinishPart? then [p] else [])
  }

  /** What the deltas have to show, in order: non-empty text, calls, and finishes with their reason. */
  function Shown(deltas: seq<Delta>): seq<Part> {
    if deltas == [] then []
    else Shown(deltas[..|deltas| - 1]) + Shows(deltas[|deltas| - 1])
  }

  function Shows(d: Delta): seq<Part> {
    match d
    case Text(text) => if text == "" then [] else [TextDelta(text)]
    case ToolCall(id, name, arguments) => [ToolCallPart(id, name, arguments)]
    case Finish(reason) =>
      if reason == "tool_use" then [FinishPart(ToolCalls, reason)]
      else if reason == "error" then [FinishPart(ErrorReason, reason)]
      else [FinishPart(Stop, reason)]
    case OtherDelta => []
  }

  lemma {:induction false} VisibleConcat(a: seq<Part>, b: seq<Part>)
    ensures Visible(a + b) == Visible(a) + Visible(b)
  {
    if b == [] {
      assert a + b == a;
    } else {
      VisibleConcat(a, b[..|b| - 1]);
      assert (a + b)[..|a + b| - 1] == a + b[..|b| - 1];
    }
  }

  /** The marks stand where they must and nowhere else: the first part alone begins the stream, a block
      has text at once, and none begins where one has just ended. */
  ghost predicate Tight(parts: seq<Part>) {
    parts != [] && parts[0] == StreamStart && forall i :: 0 < i < |parts| ==> Meets(parts[i - 1], parts[i])
  }

  ghost predicate Meets(p: Part, next: Part) {
    next != StreamStart && p != ErrorPart &&
    (p == TextStart ==> next.TextDelta?) && (p == TextEnd ==> next != TextStart)
  }

  /** No mark of a block, nor an error. */
  ghost predicate Settles(p: Part) {
    p != TextStart && p != TextEnd && p != ErrorPart
  }

  /** Parts that may follow any part that settles. */
  ghost predicate Continues(more: seq<Part>) {
    |more| <= 2 && (more != [] ==> more[0] != StreamStart && Settles(more[|more| - 1])) &&
    (|more| == 2 ==> Meets(more[0], more[1]))
  }

  lemma EmittedContinues(open: bool, d: Delta)
    ensures Continues(Emit(open, d).0)
  {}

  lemma TightLonger(parts: seq<Part>, more: seq<Part>, all: seq<Part>)
    requires Tight(parts) && Settles(parts[|parts| - 1]) && Continues(more) && all == parts + more
    ensures Tight(all) && Settles(all[|all| - 1])
  {
    forall i | 0 < i < |all| ensures Meets(all[i - 1], all[i]) {
      if i < |parts| { assert Meets(parts[i - 1], parts[i]); }
    }
  }

  lemma TightEmitted(parts: seq<Part>, open: bool, d: Delta, all: seq<Part>)
    requires Tight(parts) && Settles(parts[|parts| - 1]) && all == parts + Emit(open, d).0
    ensures Tight(all) && Settles(all[|all| - 1])
    ensures Visible(all) == Visible(parts) + Shows(d)
  {
    EmittedContinues(open, d);
    TightLonger(parts, Emit(open, d).0, all);
    VisibleConcat(parts, Emit(open, d).0);
    VisibleEmitted(open, d);
  }

  lemma VisibleOne(p: Part)
    ensures Visible([p]) == if p.TextDelta? || p.ToolCallPart? || p.FinishPart? then [p] else []
  {
    assert [p][..0] == [];
  }

  lemma VisibleMarked(marked: bool, mark: Part, p: Part)
    requires mark == TextStart || mark == TextEnd
    requires p.TextDelta? || p.ToolCallPart? || p.FinishPart?
    ensures Visible((if marked then [mark] else []) + [p]) == [p]
  {
    VisibleOne(p);
    if marked {
      VisibleConcat([mark], [p]);
      VisibleOne(mark);
    } else {
      assert [] + [p] == [p];
    }
  }

  lemma VisibleEmitted(open: bool, d: Delta)
    ensures Visible(Emit(open, d).0) == Shows(d)
  {
    match d
    case Text(text) => VisibleMarked(!open, TextStart, TextDelta(text));
    case ToolCall(id, name, arguments) => VisibleMarked(open, TextEnd, ToolCallPart(id, name, arguments));
    case Finish(reason) => VisibleMarked(open, TextEnd, FinishPart(Unified(reason), reason));
    case OtherDelta =>
  }

  lemma {:induction false} TransduceTight(deltas: seq<Delta>)
    ensures var parts := Transduce(deltas).0;
      Tight(parts) && Settles(parts[|parts| - 1]) && Visible(parts) == Shown(deltas)
  {
    if deltas != [] {
      var n := |deltas| - 1;
      TransduceTight(deltas[..n]);
      var (parts, open) := Transduce(deltas[..n]);
      TightEmitted(parts, open, deltas[n], Transduce(deltas).0);
    } else {
      assert [StreamStart][..0] == [];
    }
  }

  /** The stream shows what the provider sent and nothing else, in order, with no idle marks, and ends in
      an error part exactly if the provider fails. With Bracketed this leaves one stream only. */
  lemma ShowsAll(deltas: seq<Delta>, throws: bool)
    ensures var parts := Stream(deltas, throws);
      Tight(parts) && Visible(parts) == Shown(deltas) && (parts[|parts| - 1] == ErrorPart <==> throws)
  {
    TransduceTight(deltas);
    var parts := Transduce(deltas).0;
    if throws {
      VisibleConcat(parts, [ErrorPart]);
      assert [ErrorPart][..0] == [] && Visible(parts) + [] == Visible(parts);
    } else {
      assert parts + [] == parts;
    }
  }

  // ---------------------------------------------------------------------------------------------
  // Collecting
  // ---------------------------------------------------------------------------------------------

  datatype Result = Result(text: string, toolCalls: seq<Part>, finish: Option<(Reason, string)>)

  function Collect(parts: seq<Part>): Result {
    if parts == [] then Result("", [], None)
    else
      var r := Collect(parts[..|parts| - 1]);
      var p := parts[|parts| - 1];
      Result(if p.TextDelta? then r.text + p.text else r.text,
             if p.ToolCallPart? then r.toolCalls + [p] else r.toolCalls,
             if p.FinishPart? then Some((p.unified, p.raw)) else r.finish)
  }

  /** `collectGenerateFromStream`: the content is the text, if there is any, and then the tool calls. */
  method CollectGenerateFromStream(parts: seq<Part>) returns (content: seq<Part>, finishReason: (Reason, string))
    ensures var r := Collect(parts);
      content == (if r.text == "" then [] else [TextDelta(r.text)]) + r.toolCalls &&
      finishReason == if r.finish.Some? then r.finish.value else (Stop, "stop")
  {
    var text := "";
    var toolCalls: seq<Part> := [];
    finishReason := (Stop, "stop");
    for n := 0 to |parts|
      invariant var r := Collect(parts[..n]);
        text == r.text && toolCalls == r.toolCalls &&
        finishReason == if r.finish.Some? then r.finish.value else (Stop, "stop")
    {
      var value := parts[n];
      assert parts[..n + 1][..n] == parts[..n];
      if value.TextDelta? { text := text + value.text; }
      if value.ToolCallPart? { toolCalls := toolCalls + [value]; }
      if value.FinishPart? { finishReason := (value.unified, value.raw); }
    }
    assert parts[..|parts|] == parts;
    content := (if text == "" then [] else [TextDelta(text)]) + toolCalls;
  }

  /** All the text the provider sent. */
  function AllText(deltas: seq<Delta>): string {
    if deltas == [] then ""
    else AllText(deltas[..|deltas| - 1]) + (if deltas[|deltas| - 1].Text? then deltas[|deltas| - 1].text else "")
  }

  function AllCalls(deltas: seq<Delta>): seq<Part> {
    if deltas == [] then []
    else
      var d := deltas[|deltas| - 1];
      AllCalls(deltas[..|deltas| - 1]) + (if d.ToolCall? then [ToolCallPart(d.id, d.name, d.arguments)] else [])
  }

  function LastFinish(deltas: seq<Delta>): Option<(Reason, string)> {
    if deltas == [] then None
    else
      var d := deltas[|deltas| - 1];
      if d.Finish? then Some((Unified(d.reason), d.reason)) else LastFinish(deltas[..|deltas| - 1])
  }

  lemma CollectOne(parts: seq<Part>, p: Part)
    ensures Collect(parts + [p]) ==
      var r := Collect(parts);
      Result(if p.TextDelta? then r.text + p.text else r.text,
             if p.ToolCallPart? then r.toolCalls + [p] else r.toolCalls,
             if p.FinishPart? then Some((p.unified, p.raw)) else r.finish)
  {
    assert (parts + [p])[..|parts + [p]| - 1] == parts;
  }

  lemma EdgeCollects(parts: seq<Part>, edge: Part)
    requires edge == TextStart || edge == TextEnd
    ensures Collect(parts + [edge]) == Collect(parts)
  {
    CollectOne(parts, edge);
  }

  lemma CollectPast(parts: seq<Part>, edge: Part, p: Part)
    requires edge == TextStart || edge == TextEnd
    ensures Collect(parts + [edge] + [p]) == Collect(parts + [p])
  {
    EdgeCollects(parts, edge);
    CollectOne(parts + [edge], p);
    CollectOne(parts, p);
  }

  lemma CollectAfterBoundary(parts: seq<Part>, boundary: bool, edge: Part, p: Part)
    requires edge == TextStart || edge == TextEnd
    ensures Collect(parts + ((if boundary then [edge] else []) + [p])) == Collect(parts + [p])
  {
    if boundary {
      assert parts + ([edge] + [p]) == parts + [edge] + [p];
      CollectPast(parts, edge, p);
    } else {
      assert [] + [p] == [p];
    }
  }

  lemma CollectEmitted(parts: seq<Part>, open: bool, d: Delta)
    ensures var r, all := Collect(parts), Collect(parts + Emit(open, d).0);
      all.text == r.text + (if d.Text? then d.text else "") &&
      all.toolCalls == r.toolCalls + (if d.ToolCall? then [ToolCallPart(d.id, d.name, d.arguments)] else []) &&
      all.finish == if d.Finish? then Some((Unified(d.reason), d.reason)) else r.finish
  {
    if d.Text? && d.text != "" {
      CollectAfterBoundary(parts, !open, TextStart, TextDelta(d.text));
      CollectOne(parts, TextDelta(d.text));
    } else if d.ToolCall? {
      CollectAfterBoundary(parts, open, TextEnd, ToolCallPart(d.id, d.name, d.arguments));
      CollectOne(parts, ToolCallPart(d.id, d.name, d.arguments));
    } else if d.Finish? {
      CollectAfterBoundary(parts, open, TextEnd, FinishPart(Unified(d.reason), d.reason));
      CollectOne(parts, FinishPart(Unified(d.reason), d.reason));
    } else {
      assert parts + [] == parts;
    }
  }

  lemma {:induction false} CollectTransduced(deltas: seq<Delta>)
    ensures Collect(Transduce(deltas).0) == Result(AllText(deltas), AllCalls(deltas), LastFinish(deltas))
  {
    if deltas == [] {
      CollectOne([], StreamStart);
      assert [] + [StreamStart] == [StreamStart];
    } else {
      var n := |deltas| - 1;
      CollectTransduced(deltas[..n]);
      var (parts, open) := Transduce(deltas[..n]);
      CollectEmitted(parts, open, deltas[n]);
    }
  }

  /** Collecting the adapted stream loses and reorders nothing: all text, all tool calls in order, and
      the last finish. */
  lemma CollectStream(deltas: seq<Delta>, throws: bool)
    ensures Collect(Stream(deltas, throws)) == Result(AllText(deltas), AllCalls(deltas), LastFinish(deltas))
  {
    CollectTransduced(deltas);
    var parts := Transduce(deltas).0;
    CollectOne(parts, ErrorPart);
    assert parts + [] == parts;
  }
}
