/** What one agent run leaves behind for the agents that run after it. */
module RunState {
  import opened Collections

  datatype ExitReason = Completed | Escalated | TokenCapExceeded | Killed | Errored

  datatype Browser = Browser(url: string, title: string, screenshotRef: string, mcpId: string, observedAt: string)

  /** What a result's error text says. */
  datatype Failure =
    | Reported(text: string)
    | SpawnFailed(reason: string)
    | UnknownAgent(id: Id)
    | UnknownSequence(ids: seq<Id>)

  datatype Result = Result(agentId: Id, exit: ExitReason, finalText: string, browser: Option<Browser>,
                           error: Option<Failure>)

  function Line(title: string, value: string): seq<string> {
    if value == "" then [] else ["- " + title + ": " + value]
  }

  /** The fields of a browser state that are set, one line each. */
  function BrowserLines(b: Browser): seq<string> {
    Line("URL", b.url) + Line("Title", b.title) + Line("Screenshot", b.screenshotRef)
    + Line("Source MCP", b.mcpId) + Line("Observed at", b.observedAt)
  }

  lemma JoinStarts(parts: seq<string>, separator: string)
    requires parts != []
    ensures parts[0] <= Join(parts, separator)
  {
    if |parts| > 1 {
      assert Join(parts, separator) == parts[0] + (separator + Join(parts[1..], separator));
    }
  }

  ghost predicate Dashed(parts: seq<string>) {
    forall i :: 0 <= i < |parts| ==> "-" <= parts[i]
  }

  lemma DashedConcat(a: seq<string>, title: string, value: string)
    requires Dashed(a)
    ensures Dashed(a + Line(title, value))
  {
    assert value != "" ==> ("- " + title + ": " + value)[0] == '-';
  }

  lemma LinesStart(b: Browser)
    ensures BrowserLines(b) != [] ==> "-" <= Join(BrowserLines(b), "\n")
  {
    var lines := BrowserLines(b);
    var url, title, screenshot := Line("URL", b.url), Line("Title", b.title), Line("Screenshot", b.screenshotRef);
    DashedConcat([], "URL", b.url);
    assert [] + url == url;
    DashedConcat(url, "Title", b.title);
    DashedConcat(url + title, "Screenshot", b.screenshotRef);
    DashedConcat(url + title + screenshot, "Source MCP", b.mcpId);
    DashedConcat(url + title + screenshot + Line("Source MCP", b.mcpId), "Observed at", b.observedAt);
    if lines != [] {
      JoinStarts(lines, "\n");
      assert "-" <= lines[0] <= Join(lines, "\n");
    }
  }

  /** It is never empty, and says so exactly when no field is set. */
  function FormatBrowser(b: Browser): (text: string)
    ensures text != ""
    ensures text == "(empty)" <==>
      b.url == "" && b.title == "" && b.screenshotRef == "" && b.mcpId == "" && b.observedAt == ""
    ensures text != "(empty)" ==> text == Join(BrowserLines(b), "\n")
  {
    LinesStart(b);
    var text := Join(BrowserLines(b), "\n");
    if text == "" then "(empty)" else text
  }

  /** The line of a field is there exactly if the field is set. */
  lemma FieldLines(b: Browser, line: string)
    ensures line in BrowserLines(b) <==>
      (b.url != "" && line == "- URL: " + b.url) || (b.title != "" && line == "- Title: " + b.title) ||
      (b.screenshotRef != "" && line == "- Screenshot: " + b.screenshotRef) ||
      (b.mcpId != "" && line == "- Source MCP: " + b.mcpId) ||
      (b.observedAt != "" && line == "- Observed at: " + b.observedAt)
  {
    assert "- " + "URL" + ": " == "- URL: " && "- " + "Title" + ": " == "- Title: ";
    assert "- " + "Screenshot" + ": " == "- Screenshot: " && "- " + "Source MCP" + ": " == "- Source MCP: ";
    assert "- " + "Observed at" + ": " == "- Observed at: ";
  }

  lemma JoinNext(part: string, rest: seq<string>, parts: seq<string>)
    requires rest != [] && parts == [part] + rest
    ensures Join(parts, "\n") == part + "\n" + Join(rest, "\n")
  {
    assert parts[1..] == rest;
  }

  /** With all fields set, for instance. */
  lemma FullBrowser(b: Browser)
    requires b.url != "" && b.title != "" && b.screenshotRef != "" && b.mcpId != "" && b.observedAt != ""
    ensures FormatBrowser(b) ==
      "- URL: " + b.url + "\n" + ("- Title: " + b.title + "\n" + ("- Screenshot: " + b.screenshotRef + "\n" +
      ("- Source MCP: " + b.mcpId + "\n" + ("- Observed at: " + b.observedAt))))
  {
    assert "- " + "URL" + ": " == "- URL: " && "- " + "Title" + ": " == "- Title: ";
    assert "- " + "Screenshot" + ": " == "- Screenshot: " && "- " + "Source MCP" + ": " == "- Source MCP: ";
    assert "- " + "Observed at" + ": " == "- Observed at: ";
    var last := ["- Observed at: " + b.observedAt];
    var fourth := ["- Source MCP: " + b.mcpId] + last;
    var third := ["- Screenshot: " + b.screenshotRef] + fourth;
    var second := ["- Title: " + b.title] + third;
    JoinNext("- Source MCP: " + b.mcpId, last, fourth);
    JoinNext("- Screenshot: " + b.screenshotRef, fourth, third);
    JoinNext("- Title: " + b.title, third, second);
    JoinNext("- URL: " + b.url, second, ["- URL: " + b.url] + second);
    assert BrowserLines(b) == ["- URL: " + b.url] + second;
  }

  /** `completedOutputs` and `completedBrowserState`. The text kept of a browser state is a function of
      the snapshot, FormatBrowser, and never empty: the snapshot stands for it here. */
  datatype ExecutionState = ExecutionState(outputs: JsMap<string>, browsers: JsMap<Browser>)

  function Fresh(): ExecutionState {
    ExecutionState(EmptyMap(), EmptyMap())
  }

  function RecordOne(st: ExecutionState, r: Result): ExecutionState
  {
    ExecutionState(
      if r.finalText != "" then st.outputs.Put(r.agentId, r.finalText) else st.outputs,
      if r.browser.Some? then st.browsers.Put(r.agentId, r.browser.value) else st.browsers)
  }

  function Record(st: ExecutionState, results: seq<Result>): ExecutionState
  {
    if results == [] then st
    else RecordOne(Record(st, results[..|results| - 1]), results[|results| - 1])
  }

  /** `recordCompletedStageOutputs` */
  method RecordCompletedStageOutputs(before: ExecutionState, results: seq<Result>) returns (st: ExecutionState)
    ensures st == Record(before, results)
  {
    st := before;
    for i := 0 to |results|
      invariant st == Record(before, results[..i])
    {
      var r := results[i];
      assert results[..i + 1][..i] == results[..i];
      if r.finalText != "" {
        st := st.(outputs := st.outputs.Put(r.agentId, r.finalText));
      }
      if r.browser.Some? {
        st := st.(browsers := st.browsers.Put(r.agentId, r.browser.value));
      }
    }
    assert results[..|results|] == results;
  }

  lemma FrontOfConcat(a: seq<Result>, b: seq<Result>, all: seq<Result>)
    requires b != [] && all == a + b
    ensures all != [] && all[..|all| - 1] == a + b[..|b| - 1] && all[|all| - 1] == b[|b| - 1]
  {}

  lemma {:induction false} RecordConcat(st: ExecutionState, a: seq<Result>, b: seq<Result>)
    ensures Record(st, a + b) == Record(Record(st, a), b)
  {
    if b == [] {
      assert a + b == a;
    } else {
      RecordConcat(st, a, b[..|b| - 1]);
      FrontOfConcat(a, b, a + b);
    }
  }

  /** One predecessor block of a prompt. */
  datatype Block = OutputBlock(id: Id, output: string) | BrowserBlock(id: Id, state: Browser)

  /** A prompt: an agent's own text under the blocks of its predecessors. */
  datatype Prompt = Prompt(context: seq<Block>, base: string)

  function BlockText(b: Block): string {
    match b
    case OutputBlock(id, output) => "[Output from " + id.text + "]:\n" + output
    case BrowserBlock(id, state) => "[Browser state left by " + id.text + "]:\n" + FormatBrowser(state)
  }

  function BlockTexts(blocks: seq<Block>): seq<string> {
    if blocks == [] then [] else [BlockText(blocks[0])] + BlockTexts(blocks[1..])
  }

  /** The prompt as the agent reads it. */
  function Text(p: Prompt): string {
    if p.context == [] then p.base else Join(BlockTexts(p.context), "\n\n") + "\n\n---\n\n" + p.base
  }

  lemma RegroupBlock(block: string, separator: string, others: string, rule: string, base: string)
    ensures (block + separator + others) + rule + base == block + (separator + (others + rule + base))
  {}

  /** One block after the other, a blank line between two, and a rule before the agent's own text. */
  lemma TextFromBlocks(b: Block, rest: seq<Block>, base: string)
    ensures Text(Prompt([], base)) == base
    ensures Text(Prompt([b] + rest, base)) ==
      BlockText(b) + if rest == [] then "\n\n---\n\n" + base else "\n\n" + Text(Prompt(rest, base))
  {
    var texts := BlockTexts([b] + rest);
    assert ([b] + rest)[1..] == rest;
    assert texts == [BlockText(b)] + BlockTexts(rest) && texts[1..] == BlockTexts(rest);
    if rest == [] {
      assert BlockText(b) + "\n\n---\n\n" + base == BlockText(b) + ("\n\n---\n\n" + base);
    } else {
      RegroupBlock(BlockText(b), "\n\n", Join(BlockTexts(rest), "\n\n"), "\n\n---\n\n", base);
    }
  }

  /** What the state offers about one predecessor. */
  function BlocksOf(st: ExecutionState, id: Id): seq<Block> {
    (if id in st.outputs.vals && st.outputs.vals[id] != "" then [OutputBlock(id, st.outputs.vals[id])] else [])
    + (if id in st.browsers.vals then [BrowserBlock(id, st.browsers.vals[id])] else [])
  }

  function Blocks(st: ExecutionState, deps: seq<Id>): seq<Block> {
    if deps == [] then []
    else Blocks(st, deps[..|deps| - 1]) + BlocksOf(st, deps[|deps| - 1])
  }

  /** `applyPredecessorContext` */
  method ApplyPredecessorContext(prompt: string, dependsOn: seq<Id>, st: ExecutionState) returns (r: Prompt)
    ensures r == Prompt(Blocks(st, dependsOn), prompt)
  {
    var blocks: seq<Block> := [];
    for i := 0 to |dependsOn|
      invariant blocks == Blocks(st, dependsOn[..i])
    {
      var depId := dependsOn[i];
      assert dependsOn[..i + 1][..i] == dependsOn[..i];
      if depId in st.outputs.vals && st.outputs.vals[depId] != "" {
        blocks := blocks + [OutputBlock(depId, st.outputs.vals[depId])];
      }
      if depId in st.browsers.vals {
        blocks := blocks + [BrowserBlock(depId, st.browsers.vals[depId])];
      }
    }
    assert dependsOn[..|dependsOn|] == dependsOn;
    r := Prompt(blocks, prompt);
  }

  /** The keys of both maps, each once: outputs first. */
  function Contributors(st: ExecutionState): seq<Id> {
    st.outputs.keys + Without(st.browsers.keys, Elems(st.outputs.keys))
  }

  /** The prompt `spawnAgentRun` builds. */
  function SpawnPrompt(base: string, dependsOn: seq<Id>, st: ExecutionState): Prompt {
    if dependsOn != [] then Prompt(Blocks(st, dependsOn), base)
    else if st.outputs.keys != [] || st.browsers.keys != [] then Prompt(Blocks(st, Contributors(st)), base)
    else Prompt([], base)
  }

  method BuildPrompt(base: string, dependsOn: seq<Id>, st: ExecutionState) returns (prompt: Prompt)
    ensures prompt == SpawnPrompt(base, dependsOn, st)
  {
    prompt := Prompt([], base);
    if |dependsOn| > 0 {
      prompt := ApplyPredecessorContext(base, dependsOn, st);
    } else if |st.outputs.keys| > 0 || |st.browsers.keys| > 0 {
      prompt := ApplyPredecessorContext(base, Contributors(st), st);
    }
  }

  function FailedSpawn(id: Id, failure: Failure): Result {
    Result(id, Errored, "", None, Some(failure))
  }

  // ---------------------------------------------------------------------------------------------
  // What a prompt inherits, read off the results
  // ---------------------------------------------------------------------------------------------

  /** The last text the agent left, if any. */
  function LastOutput(results: seq<Result>, id: Id): string {
    if results == [] then ""
    else
      var r := results[|results| - 1];
      if r.agentId == id && r.finalText != "" then r.finalText else LastOutput(results[..|results| - 1], id)
  }

  function LastBrowser(results: seq<Result>, id: Id): Option<Browser> {
    if results == [] then None
    else
      var r := results[|results| - 1];
      if r.agentId == id && r.browser.Some? then r.browser else LastBrowser(results[..|results| - 1], id)
  }

  /** What one predecessor contributes to a prompt, read off the results. */
  function Contribution(results: seq<Result>, id: Id): seq<Block> {
    (if LastOutput(results, id) == "" then [] else [OutputBlock(id, LastOutput(results, id))])
    + (if LastBrowser(results, id).None? then []
       else [BrowserBlock(id, LastBrowser(results, id).value)])
  }

  /** The recorded state says, of each agent, what the results say. */
  lemma {:induction false} RecordMirrors(results: seq<Result>, id: Id)
    ensures var st := Record(Fresh(), results);
      (id in st.outputs.vals <==> LastOutput(results, id) != "") &&
      (id in st.outputs.vals ==> st.outputs.vals[id] == LastOutput(results, id)) &&
      (id in st.browsers.vals <==> LastBrowser(results, id).Some?) &&
      (id in st.browsers.vals ==> st.browsers.vals[id] == LastBrowser(results, id).value)
  {
    if results != [] {
      RecordMirrors(results[..|results| - 1], id);
    }
  }

  lemma BlocksMirror(results: seq<Result>, id: Id)
    ensures BlocksOf(Record(Fresh(), results), id) == Contribution(results, id)
  {
    RecordMirrors(results, id);
  }

  /** The agents that left text, and those that left a browser state, in order, with repetitions. */
  function WithText(results: seq<Result>): seq<Id> {
    if results == [] then []
    else
      var r := results[|results| - 1];
      WithText(results[..|results| - 1]) + (if r.finalText != "" then [r.agentId] else [])
  }

  function WithBrowser(results: seq<Result>): seq<Id> {
    if results == [] then []
    else
      var r := results[|results| - 1];
      WithBrowser(results[..|results| - 1]) + (if r.browser.Some? then [r.agentId] else [])
  }

  /** The keys of a recorded state stand in the order in which the agents first left something. */
  lemma {:induction false} TextOrder(results: seq<Result>)
    ensures Record(Fresh(), results).outputs.keys == Firsts(WithText(results))
  {
    if results != [] {
      var n := |results| - 1;
      TextOrder(results[..n]);
      RecordMirrors(results[..n], results[n].agentId);
      WithTextMembers(results[..n], results[n].agentId);
      AddLast(WithText(results[..n]), results[n].agentId);
      assert results[n].finalText == "" ==> WithText(results) == WithText(results[..n]);
      var before := Record(Fresh(), results[..n]).outputs;
      assert Record(Fresh(), results).outputs ==
        if results[n].finalText != "" then before.Put(results[n].agentId, results[n].finalText) else before;
    }
  }

  lemma {:induction false} BrowserOrder(results: seq<Result>)
    ensures Record(Fresh(), results).browsers.keys == Firsts(WithBrowser(results))
  {
    if results != [] {
      var n := |results| - 1;
      BrowserOrder(results[..n]);
      RecordMirrors(results[..n], results[n].agentId);
      WithTextMembers(results[..n], results[n].agentId);
      AddLast(WithBrowser(results[..n]), results[n].agentId);
      assert results[n].browser.None? ==> WithBrowser(results) == WithBrowser(results[..n]);
      var before := Record(Fresh(), results[..n]).browsers;
      assert Record(Fresh(), results).browsers ==
        if results[n].browser.Some? then before.Put(results[n].agentId, results[n].browser.value) else before;
    }
  }

  lemma {:induction false} WithTextMembers(results: seq<Result>, id: Id)
    ensures id in WithText(results) <==> LastOutput(results, id) != ""
    ensures id in WithBrowser(results) <==> LastBrowser(results, id).Some?
  {
    if results != [] { WithTextMembers(results[..|results| - 1], id); }
  }

  lemma AddLast(s: seq<Id>, id: Id)
    ensures Firsts(s + [id]) == Firsts(s) + (if id in s then [] else [id])
  {
    assert (s + [id])[..|s + [id]| - 1] == s;
  }

  function Contributions(results: seq<Result>, ids: seq<Id>): seq<Block> {
    if ids == [] then []
    else Contributions(results, ids[..|ids| - 1]) + Contribution(results, ids[|ids| - 1])
  }

  lemma {:induction false} BlocksMirrorAll(results: seq<Result>, ids: seq<Id>)
    ensures Blocks(Record(Fresh(), results), ids) == Contributions(results, ids)
  {
    if ids != [] {
      BlocksMirrorAll(results, ids[..|ids| - 1]);
      BlocksMirror(results, ids[|ids| - 1]);
    }
  }

  /** An agent that names no dependencies gets its own prompt under what everyone before it left: first
      the agents that left text, in the order in which they first did, then those that left a browser
      state only. */
  lemma InheritsAll(base: string, results: seq<Result>)
    ensures var texts, browsers := Firsts(WithText(results)), Firsts(WithBrowser(results));
      SpawnPrompt(base, [], Record(Fresh(), results)) ==
      Prompt(Contributions(results, texts + Without(browsers, Elems(texts))), base)
  {
    TextOrder(results);
    BrowserOrder(results);
    BlocksMirrorAll(results, Contributors(Record(Fresh(), results)));
  }
}
