/** Whether a Codex response can mix what two sources deliver: it cannot, unless a send callback reports
    an error at one particular moment, and then it can. */
module CodexSource {
  import opened Collections
  import opened CodexStream

  /** A send callback that reports an error while another opening is already under way. Callbacks that
      report late but find the response done, aborted or cancelled, or its next socket attached, are
      not among these. */
  predicate Harmful(s: State, e: Event) {
    e.SendCallbackFails? && !s.done && !s.aborted && s.controller.Streaming? && s.opening != {}
  }

  predicate Harmless(s: State, events: seq<Event>)
    ensures Harmless(s, events) ==> Run(s, events).Some?
    decreases |events|
  {
    events == [] ||
    (Enabled(s, events[0]) && !Harmful(s, events[0]) && Harmless(Next(s, events[0]), events[1..]))
  }

  lemma {:induction false} HarmlessAppend(s: State, events: seq<Event>, e: Event)
    requires Run(s, events).Some? && Enabled(Run(s, events).value, e)
    ensures Harmless(s, events + [e]) <==> Harmless(s, events) && !Harmful(Run(s, events).value, e)
    decreases |events|
  {
    if events == [] {
      assert [] + [e] == [e] && [e][1..] == [];
    } else {
      HarmlessAppend(Next(s, events[0]), events[1..], e);
      assert (events + [e])[1..] == events[1..] + [e];
    }
  }

  /** Frames of one socket in order of arrival, then perhaps the end mark. */
  ghost predicate SocketBody(body: seq<Chunk>, id: nat) {
    forall i :: 0 <= i < |body| ==>
      (body[i].Frame? && body[i].socket == id) || (body[i].DoneMark? && i == |body| - 1)
  }

  ghost predicate OnlyFrames(body: seq<Chunk>, id: nat) {
    forall i :: 0 <= i < |body| ==> body[i].Frame? && body[i].socket == id
  }

  ghost predicate FallbackBody(body: seq<Chunk>) {
    forall i :: 0 <= i < |body| ==> body[i].FallbackBytes?
  }

  /** The body has one source. */
  ghost predicate Pure(body: seq<Chunk>) {
    FallbackBody(body) || exists id :: SocketBody(body, id)
  }

  /** It is the fallback's exactly once the fallback has started, which it does only on an empty body. */
  ghost predicate Whole(s: State) {
    if s.fallback.NotStarted? then (exists id :: SocketBody(s.body, id)) && (s.frameCount == 0 ==> s.body == [])
    else FallbackBody(s.body)
  }

  ghost predicate NoHandlers(s: State) {
    s.listening == {} && !s.idleArmed && !s.abortListening
  }

  /** One send() waits for the socket created last, or for a rejection, and nothing else goes on. */
  ghost predicate Waiting(s: State) {
    !s.done && s.fallback.NotStarted? && NoHandlers(s) && s.frameCount == 0 && s.attempts <= CODEX_WS_OPEN_RETRIES &&
    ((s.rejecting == 0 && s.created > 0 && s.opening == {s.created - 1}) ||
     (s.rejecting == 1 && s.opening == {} && s.aborted))
  }

  /** The current socket delivers, guarded by the idle timer and the caller's signal. */
  ghost predicate Attached(s: State) {
    !s.done && s.fallback.NotStarted? && s.opening == {} && s.rejecting == 0 &&
    s.socket.Some? && s.listening == {s.socket.value} && s.idleArmed && s.abortListening &&
    OnlyFrames(s.body, s.socket.value)
  }

  /** The socket side is over: nothing of it can touch the response any more. What was still to be
      opened when the response was given up on an aborted signal stays without effect. */
  ghost predicate Over(s: State) {
    s.done && NoHandlers(s) &&
    ((s.opening == {} && s.rejecting == 0) || (s.aborted && s.fallback.NotStarted? && s.controller.ControllerErrored?))
  }

  /** One of three phases, until the consumer cancels. */
  ghost predicate Flight(s: State) {
    Whole(s) && (!s.controller.Cancelled? ==> !s.misused && (Waiting(s) || Attached(s) || Over(s)))
  }

  /** Nothing is under way, and nothing has arrived. */
  ghost predicate AtRest(s: State) {
    !s.done && s.fallback.NotStarted? && NoHandlers(s) && s.frameCount == 0 && s.body == [] &&
    s.rejecting == 0 && s.opening == {} && !s.misused && s.controller.Streaming?
  }

  lemma OpenSocketFlies(s: State)
    requires AtRest(s) && s.attempts <= CODEX_WS_OPEN_RETRIES
    ensures Flight(OpenSocket(s))
  {
    assert SocketBody(s.body, 0);
  }

  /** With the handlers gone, giving the response up, or over to the fallback, is safe. */
  lemma GiveUpFlies(s: State)
    requires !s.misused && s.controller.Streaming? && s.fallback.NotStarted? && Whole(s)
    requires Cleanup(s).listening == {} && ((s.opening == {} && s.rejecting == 0) || s.aborted)
    ensures Flight(GiveUp(s)) && GiveUp(s).done
  {}

  /** Failing out of the attached phase, whether or not the idle timer has just gone off. */
  lemma AttachedFails(s: State)
    requires Attached(s.(idleArmed := true)) && Whole(s) && !s.misused && s.controller.Streaming?
    ensures Flight(Fail(s))
  {
    FailForm(s);
    assert Cleanup(s).listening == {};
    if MayRetry(s) && s.attempts < CODEX_WS_OPEN_RETRIES { OpenSocketFlies(Retried(s)); }
    else if MayRetry(s) { assert Cleanup(Retried(s)).listening == {}; GiveUpFlies(Retried(s)); }
    else { GiveUpFlies(s); }
  }

  lemma RejectedFlies(s: State)
    requires AtRest(s) && s.attempts <= CODEX_WS_OPEN_RETRIES
    ensures Flight(OpenRejected(s))
  {
    RejectedForm(s);
    if s.attempts < CODEX_WS_OPEN_RETRIES {
      OpenSocketFlies(s.(attempts := s.attempts + 1));
    } else {
      FailForm(s);
      assert SocketBody(s.body, 0) && Cleanup(s).listening == {};
      if MayRetry(s) { GiveUpFlies(Retried(s)); } else { GiveUpFlies(s); }
    }
  }

  lemma OpenedFlies(s: State, id: nat)
    requires AtRest(s)
    ensures Flight(OpenResolved(s, id))
  {
    assert SocketBody(s.body, id);
  }

  lemma WaitingNext(s: State, e: Event)
    requires Enabled(s, e) && Waiting(s) && Flight(s) && SettledOnce(s) && s.controller.Streaming? && !Harmful(s, e)
    ensures Flight(Next(s, e))
  {
    match e
    case Opens(id) => OpenedFlies(s.(opening := s.opening - {id}), id);
    case OpenFails(id) => RejectedFlies(s.(opening := s.opening - {id}));
    case OpenRefused => RejectedFlies(s.(rejecting := s.rejecting - 1));
    case SendCallbackFails(id) =>
      var t := s.(callbacks := s.callbacks - {id});
      FailForm(t);
      assert Cleanup(t).listening == {};
      GiveUpFlies(t);
    case _ =>
  }

  lemma AttachedText(s: State, text: string, meaning: Meaning)
    requires Attached(s) && Flight(s) && s.controller.Streaming?
    ensures Flight(OnText(s, s.socket.value, text, meaning))
  {
    var id := s.socket.value;
    var t := Received(s, id, text);
    assert OnlyFrames(t.body, id);
    assert SocketBody(t.body, id);
    match meaning
    case Ordinary =>
    case TerminalError => AttachedFails(t);
    case DoneEvent => assert SocketBody(t.body + [DoneMark], id); assert Cleanup(t.(done := true)).listening == {};
  }

  lemma AttachedNext(s: State, e: Event)
    requires Enabled(s, e) && Attached(s) && Flight(s) && SettledOnce(s) && s.controller.Streaming?
    ensures Flight(Next(s, e))
  {
    match e
    case TextFrame(id, text, meaning) => AttachedText(s, text, meaning);
    case SocketFails(_) => AttachedFails(s);
    case IdleTimeout => AttachedFails(s.(idleArmed := false));
    case SendCallbackFails(id) => AttachedFails(s.(callbacks := s.callbacks - {id}));
    case SignalAborts => assert Cleanup(s.(done := true)).listening == {};
    case _ =>
  }

  lemma OverNext(s: State, e: Event)
    requires Enabled(s, e) && Over(s) && Flight(s) && SettledOnce(s) && !s.controller.Cancelled?
    ensures Flight(Next(s, e))
  {
    match e
    case OpenFails(id) => OverRejected(s.(opening := s.opening - {id}));
    case OpenRefused => OverRejected(s.(rejecting := s.rejecting - 1));
    case _ =>
  }

  lemma OverRejected(s: State)
    requires s.done && s.aborted && s.fallback.NotStarted? && s.controller.ControllerErrored?
    requires NoHandlers(s) && !s.misused && Whole(s)
    ensures Flight(OpenRejected(s))
  {
    RejectedForm(s);
  }

  /** After a cancel nothing is written, whatever happens. */
  lemma CancelledNext(s: State, e: Event)
    requires Enabled(s, e) && Kept(s) && Whole(s) && s.controller.Cancelled?
    ensures Whole(Next(s, e)) && Next(s, e).controller.Cancelled?
  {
    if Failure(e) {
      FailureOutcome(s, e);
      NextKeeps(s, e);
    }
  }

  lemma NextFlies(s: State, e: Event)
    requires Enabled(s, e) && Kept(s) && Flight(s) && !Harmful(s, e)
    ensures Flight(Next(s, e))
  {
    if s.controller.Cancelled? { CancelledNext(s, e); }
    else if Waiting(s) { WaitingNext(s, e); }
    else if Attached(s) { AttachedNext(s, e); }
    else { OverNext(s, e); }
  }

  lemma InitialFlies(aborted: bool)
    ensures Kept(Initial(aborted)) && Flight(Initial(aborted))
  {
    InitialKept(aborted);
    OpenSocketFlies(Outset(aborted));
  }

  lemma {:induction false} RunFlies(s: State, events: seq<Event>)
    requires Kept(s) && Flight(s) && Harmless(s, events)
    ensures Kept(Run(s, events).value) && Flight(Run(s, events).value)
    decreases |events|
  {
    if events != [] {
      NextKeeps(s, events[0]);
      NextFlies(s, events[0]);
      RunFlies(Next(s, events[0]), events[1..]);
    }
  }

  /** What can still feed the response. */
  function Sources(s: State): nat {
    |s.opening| + s.rejecting + |s.listening| + (if s.fallback.Fetching? || s.fallback.Reading? then 1 else 0)
  }

  /** As long as no harmful callback reports: the body is frames of one single socket, possibly ended by
      the end mark, or all fallback bytes, and the fallback only ever starts when no frame has arrived;
      until the controller is settled exactly one source feeds it, so the response neither hangs nor is
      written to after its end. */
  lemma NeverMixed(aborted: bool, events: seq<Event>)
    requires Harmless(Initial(aborted), events)
    ensures var s := Run(Initial(aborted), events).value;
      if s.fallback.NotStarted? then exists id :: SocketBody(s.body, id) else FallbackBody(s.body)
    ensures var s := Run(Initial(aborted), events).value;
      !s.controller.Cancelled? ==>
        !s.misused &&
        (Sources(s) == (if s.controller.Streaming? then 1 else 0) || (s.aborted && s.controller.ControllerErrored?))
  {
    InitialFlies(aborted);
    RunFlies(Initial(aborted), events);
  }

  // ---------------------------------------------------------------------------------------------
  // The other half
  // ---------------------------------------------------------------------------------------------

  /** The response goes to its fallback while another opening is still under way. */
  ghost predicate Doubled(s: State, id: nat) {
    !s.aborted && s.controller.Streaming? && s.body == [] && id in s.opening && s.done && s.fallback.Fetching?
  }

  /** Two openings are under way, the one of id and the one begun last. */
  ghost predicate Doubling(s: State, id: nat) {
    !s.done && !s.aborted && s.controller.Streaming? && s.fallback.NotStarted? && s.body == [] && s.frameCount == 0 &&
    s.attempts <= CODEX_WS_OPEN_RETRIES && id in s.opening && id + 1 < s.created && s.created - 1 in s.opening
  }

  lemma RunStep(s: State, e: Event, rest: seq<Event>)
    requires Enabled(s, e)
    ensures Run(s, [e] + rest) == Run(Next(s, e), rest)
    ensures Harmless(s, [e] + rest) <==> !Harmful(s, e) && Harmless(Next(s, e), rest)
  {
    assert ([e] + rest)[1..] == rest;
  }

  /** The socket that opens now goes on to deliver frames into the response of the fallback. */
  lemma DoubledMixes(s: State, id: nat, text: string, bytes: string) returns (more: seq<Event>)
    requires Doubled(s, id)
    ensures Harmless(s, more) && Run(s, more).value.body == [Frame(id, text), FallbackBytes(bytes)]
  {
    var s1 := Next(s, Opens(id));
    var s2 := Next(s1, TextFrame(id, text, Ordinary));
    var s3 := Next(s2, FallbackResponds(true));
    var s4 := Next(s3, FallbackChunk(bytes));
    assert s4.body == [Frame(id, text), FallbackBytes(bytes)];
    assert Run(s4, []) == Some(s4);
    RunStep(s3, FallbackChunk(bytes), []);
    RunStep(s2, FallbackResponds(true), [FallbackChunk(bytes)] + []);
    RunStep(s1, TextFrame(id, text, Ordinary), [FallbackResponds(true)] + ([FallbackChunk(bytes)] + []));
    more := [TextFrame(id, text, Ordinary)] + ([FallbackResponds(true)] + ([FallbackChunk(bytes)] + []));
    RunStep(s, Opens(id), more);
    more := [Opens(id)] + more;
  }

  /** While the newer openings fail one after the other, the older one stays under way. */
  lemma {:induction false} DoublingMixes(s: State, id: nat, text: string, bytes: string) returns (more: seq<Event>)
    requires Doubling(s, id)
    ensures Harmless(s, more) && Run(s, more).value.body == [Frame(id, text), FallbackBytes(bytes)]
    decreases Left(s)
  {
    var e := OpenFails(s.created - 1);
    var rest := s.(opening := s.opening - {s.created - 1});
    RejectedForm(rest);
    FailForm(rest);
    if s.attempts < CODEX_WS_OPEN_RETRIES {
      more := DoublingMixes(Next(s, e), id, text, bytes);
    } else {
      more := DoubledMixes(Next(s, e), id, text, bytes);
    }
    RunStep(s, e, more);
    more := [e] + more;
  }

  lemma HarmMixes(s: State, e: Event, text: string, bytes: string) returns (more: seq<Event>)
    requires Kept(s) && Flight(s) && Enabled(s, e) && Harmful(s, e)
    ensures var t := Next(s, e);
      Harmless(t, more) && Run(t, more).value.body == [Frame(s.created - 1, text), FallbackBytes(bytes)]
  {
    FailForm(s.(callbacks := s.callbacks - {e.id}));
    if s.attempts < CODEX_WS_OPEN_RETRIES {
      more := DoublingMixes(Next(s, e), s.created - 1, text, bytes);
    } else {
      more := DoubledMixes(Next(s, e), s.created - 1, text, bytes);
    }
  }

  lemma MixIsMixed(id: nat, text: string, bytes: string)
    ensures !Pure([Frame(id, text), FallbackBytes(bytes)])
  {
    var body := [Frame(id, text), FallbackBytes(bytes)];
    assert body[0].Frame? && body[1].FallbackBytes?;
  }

  ghost predicate Mixes(s: State, events: seq<Event>) {
    Harmless(s, events) && !Pure(Run(s, events).value.body)
  }

  /** Which callbacks do the harm: after any run so far without harm, an event makes a mixed body
      possible, with nothing harmful after it, if and only if it is a send callback that reports an
      error while the response streams, is not done or aborted, and waits for another socket. */
  lemma MixesIff(aborted: bool, events: seq<Event>, e: Event)
    requires Harmless(Initial(aborted), events)
    requires Enabled(Run(Initial(aborted), events).value, e)
    ensures var s := Run(Initial(aborted), events).value;
      Harmful(s, e) <==> exists more :: Mixes(Next(s, e), more)
  {
    InitialFlies(aborted);
    RunFlies(Initial(aborted), events);
    var s := Run(Initial(aborted), events).value;
    if Harmful(s, e) {
      var more := HarmMixes(s, e, "", "");
      MixIsMixed(s.created - 1, "", "");
      assert Mixes(Next(s, e), more);
    } else {
      NextKeeps(s, e);
      NextFlies(s, e);
      forall more ensures !Mixes(Next(s, e), more) {
        if Harmless(Next(s, e), more) { RunFlies(Next(s, e), more); }
      }
    }
  }

  ghost predicate Harmed(events: seq<Event>, body: seq<Chunk>) {
    Run(Initial(false), events).Some? && Run(Initial(false), events).value.body == body
  }

  /** For instance: the socket fails, its replacement is being opened, and then the callback of the
      first send reports an error. */
  lemma LateCallbackMixes(text: string, bytes: string)
    ensures exists events :: Harmed(events, [Frame(1, text), FallbackBytes(bytes)])
  {
    InitialFlies(false);
    var s0 := Initial(false);
    assert s0.opening == {0} && s0.created == 1 && s0.attempts == 0;
    var s1 := Next(s0, Opens(0));
    FailForm(s1);
    var s2 := Next(s1, SocketFails(0));
    assert s2.opening == {1} && s2.created == 2;
    NextKeeps(s0, Opens(0));
    NextFlies(s0, Opens(0));
    NextKeeps(s1, SocketFails(0));
    NextFlies(s1, SocketFails(0));
    var e := SendCallbackFails(0);
    var more := HarmMixes(s2, e, text, bytes);
    RunStep(s2, e, more);
    RunStep(s1, SocketFails(0), [e] + more);
    RunStep(s0, Opens(0), [SocketFails(0)] + ([e] + more));
    assert Harmed([Opens(0)] + ([SocketFails(0)] + ([e] + more)), [Frame(1, text), FallbackBytes(bytes)]);
  }
}
