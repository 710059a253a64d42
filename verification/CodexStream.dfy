/** One streamed Codex response: a socket that is opened, reopened a bounded number of times, and
    given up for a plain HTTP fallback, all feeding one stream controller. Every function here is one
    uninterrupted stretch of event-handler code. */
module CodexStream {
  import opened Collections

  const CODEX_WS_OPEN_RETRIES := 2

  datatype Chunk = Frame(socket: nat, text: string) | DoneMark | FallbackBytes(bytes: string)

  datatype Controller = Streaming | Closed | ControllerErrored | Cancelled

  datatype Fallback = NotStarted | Fetching | Reading | Ended

  /** The closure variables, then what they act upon. Sockets are numbered as they are created. */
  datatype State = State(
    done: bool,
    socket: Option<nat>,
    idleArmed: bool,
    frameCount: nat,
    attempts: nat,
    opening: set<nat>,     // sockets some send() is waiting for
    rejecting: nat,        // send() calls whose openSocket rejects without a socket
    listening: set<nat>,   // sockets with our message, error and close listeners
    callbacks: set<nat>,   // sockets whose send callback has not reported yet
    created: nat,
    aborted: bool,         // the caller's signal
    abortListening: bool,
    controller: Controller,
    body: seq<Chunk>,
    fallback: Fallback,
    fallbackStarts: nat,
    settles: nat,          // calls of controller.close() and controller.error()
    misused: bool          // a controller call threw because the stream was over
  )

  // ---------------------------------------------------------------------------------------------
  // The controller
  // ---------------------------------------------------------------------------------------------

  function Enqueue(s: State, c: Chunk): State {
    if s.controller.Streaming? then s.(body := s.body + [c]) else s.(misused := true)
  }

  function Close(s: State): State {
    if s.controller.Streaming? then s.(controller := Closed, settles := s.settles + 1)
    else s.(settles := s.settles + 1, misused := true)
  }

  /** `controller.error` has no effect on a stream that is over. */
  function Error(s: State): State {
    s.(settles := s.settles + 1, controller := if s.controller.Streaming? then ControllerErrored else s.controller)
  }

  // ---------------------------------------------------------------------------------------------
  // The handlers
  // ---------------------------------------------------------------------------------------------

  function Cleanup(s: State): State {
    s.(idleArmed := false, abortListening := false,
       listening := if s.socket.Some? then s.listening - {s.socket.value} else s.listening)
  }

  function Finish(s: State): State {
    if s.done then s
    else
      var t := Enqueue(Cleanup(s.(done := true)), DoneMark);
      if s.controller.Streaming? then Close(t) else t
  }

  function Abort(s: State): State {
    if s.done then s else Error(Cleanup(s.(done := true)))
  }

  function Left(s: State): nat {
    if s.attempts <= CODEX_WS_OPEN_RETRIES then CODEX_WS_OPEN_RETRIES + 1 - s.attempts else 0
  }

  /** Another attempt is allowed: nothing has arrived, and the attempts are not used up. */
  predicate MayRetry(s: State) {
    !s.aborted && s.frameCount == 0 && s.attempts <= CODEX_WS_OPEN_RETRIES
  }

  function Retried(s: State): State {
    Cleanup(s).(attempts := s.attempts + 1)
  }

  function GiveUp(s: State): State {
    var t := Cleanup(s.(done := true));
    if s.frameCount == 0 && !s.aborted then t.(fallback := Fetching, fallbackStarts := s.fallbackStarts + 1)
    else Error(t)
  }

  /** `fail`: try again while nothing has arrived, else fall back, else give up. */
  function Fail(s: State): State
    decreases Left(s), 0
  {
    if s.done then s else if MayRetry(s) then Send(Retried(s)) else GiveUp(s)
  }

  /** `send`, up to the wait for the socket. */
  function Send(s: State): State
    decreases Left(s), 1
  {
    if s.attempts <= CODEX_WS_OPEN_RETRIES then OpenSocket(s) else Fail(s)
  }

  function OpenSocket(s: State): State {
    if s.aborted then s.(rejecting := s.rejecting + 1)
    else s.(opening := s.opening + {s.created}, created := s.created + 1)
  }

  /** The rest of `send` when openSocket rejects. */
  function OpenRejected(s: State): State {
    if s.frameCount > 0 || s.attempts == CODEX_WS_OPEN_RETRIES then Fail(s)
    else Send(s.(attempts := s.attempts + 1))
  }

  /** The rest of `send` when openSocket resolves. */
  function OpenResolved(s: State, id: nat): State {
    var t := s.(socket := Some(id));
    if s.aborted then Abort(t)
    else t.(listening := s.listening + {id}, abortListening := true, idleArmed := true, callbacks := s.callbacks + {id})
  }

  /** What the parser makes of a text frame. */
  datatype Meaning = Ordinary | TerminalError | DoneEvent

  function Received(s: State, id: nat, text: string): State {
    Enqueue(s.(frameCount := s.frameCount + 1, idleArmed := true), Frame(id, text))
  }

  function OnText(s: State, id: nat, text: string, meaning: Meaning): State {
    var t := Received(s, id, text);
    if !s.controller.Streaming? then t
    else
      match meaning
      case Ordinary => t
      case TerminalError => Fail(t)
      case DoneEvent => Finish(t)
  }

  /** A chunk of the fallback response; a controller that refuses it ends the reading. */
  function OnFallbackChunk(s: State, bytes: string): State {
    if s.controller.Streaming? then Enqueue(s, FallbackBytes(bytes))
    else Error(Enqueue(s, FallbackBytes(bytes))).(fallback := Ended)
  }

  function OnFallbackEnd(s: State): State {
    if s.controller.Streaming? then Close(s).(fallback := Ended) else Error(Close(s)).(fallback := Ended)
  }

  // ---------------------------------------------------------------------------------------------
  // Runs
  // ---------------------------------------------------------------------------------------------

  datatype Event =
    | Opens(id: nat)
    | OpenFails(id: nat)
    | OpenRefused                 // openSocket found the signal already aborted
    | TextFrame(id: nat, text: string, meaning: Meaning)
    | SocketFails(id: nat)        // a binary frame, an error, or a close
    | IdleTimeout
    | SendCallbackFails(id: nat)
    | SignalAborts
    | ConsumerCancels
    | FallbackResponds(ok: bool)
    | FallbackChunk(bytes: string)
    | FallbackEnds(ok: bool)

  predicate Enabled(s: State, e: Event) {
    match e
    case Opens(id) => id in s.opening
    case OpenFails(id) => id in s.opening
    case OpenRefused => s.rejecting > 0
    case TextFrame(id, _, _) => id in s.listening
    case SocketFails(id) => id in s.listening
    case IdleTimeout => s.idleArmed
    case SendCallbackFails(id) => id in s.callbacks
    case SignalAborts => !s.aborted
    case ConsumerCancels => s.controller.Streaming?
    case FallbackResponds(_) => s.fallback.Fetching?
    case FallbackChunk(_) => s.fallback.Reading?
    case FallbackEnds(_) => s.fallback.Reading?
  }

  function Next(s: State, e: Event): State
    requires Enabled(s, e)
  {
    match e
    case Opens(id) => OpenResolved(s.(opening := s.opening - {id}), id)
    case OpenFails(id) => OpenRejected(s.(opening := s.opening - {id}))
    case OpenRefused => OpenRejected(s.(rejecting := s.rejecting - 1))
    case TextFrame(id, text, meaning) => OnText(s, id, text, meaning)
    case SocketFails(_) => Fail(s)
    case IdleTimeout => Fail(s.(idleArmed := false))
    case SendCallbackFails(id) => Fail(s.(callbacks := s.callbacks - {id}))
    case SignalAborts =>
      var t := s.(aborted := true, abortListening := false);
      if s.abortListening then Abort(t) else t
    case ConsumerCancels => s.(controller := Cancelled)
    case FallbackResponds(ok) => if ok then s.(fallback := Reading) else Error(s).(fallback := Ended)
    case FallbackChunk(bytes) => OnFallbackChunk(s, bytes)
    case FallbackEnds(ok) => if ok then OnFallbackEnd(s) else Error(s).(fallback := Ended)
  }

  function Outset(aborted: bool): State {
    State(false, None, false, 0, 0, {}, 0, {}, {}, 0, aborted, false, Streaming, [], NotStarted, 0, 0, false)
  }

  /** The stream has been started, which sends at once. */
  function Initial(aborted: bool): State {
    Send(Outset(aborted))
  }

  /** Where the events lead from s, if they can happen in this order. */
  function Run(s: State, events: seq<Event>): Option<State>
    decreases |events|
  {
    if events == [] then Some(s)
    else if Enabled(s, events[0]) then Run(Next(s, events[0]), events[1..])
    else None
  }

  lemma {:induction false} RunAppend(s: State, events: seq<Event>, e: Event)
    requires Run(s, events).Some? && Enabled(Run(s, events).value, e)
    ensures Run(s, events + [e]) == Some(Next(Run(s, events).value, e))
    decreases |events|
  {
    if events == [] {
      assert [] + [e] == [e];
    } else {
      RunAppend(Next(s, events[0]), events[1..], e);
      assert (events + [e])[1..] == events[1..] + [e];
    }
  }

  lemma RunFirst(s: State, e: Event, rest: seq<Event>)
    requires Enabled(s, e)
    ensures Run(s, [e] + rest) == Run(Next(s, e), rest)
  {
    assert ([e] + rest)[1..] == rest;
  }

  /** What `fail` comes to: the recursion through `send` is at most one level deep. */
  lemma FailForm(s: State)
    ensures Fail(s) ==
      if s.done then s
      else if MayRetry(s) && s.attempts < CODEX_WS_OPEN_RETRIES then OpenSocket(Retried(s))
      else if MayRetry(s) then GiveUp(Retried(s))
      else GiveUp(s)
  {
    if !s.done && MayRetry(s) && s.attempts == CODEX_WS_OPEN_RETRIES {
      var t := Retried(s);
      assert Send(t) == Fail(t) == GiveUp(t);
    }
  }

  /** What is left of `send` when openSocket rejects comes to. */
  lemma RejectedForm(s: State)
    ensures OpenRejected(s) ==
      if s.frameCount == 0 && s.attempts < CODEX_WS_OPEN_RETRIES then OpenSocket(s.(attempts := s.attempts + 1))
      else if s.frameCount == 0 && s.attempts > CODEX_WS_OPEN_RETRIES then Fail(s.(attempts := s.attempts + 1))
      else Fail(s)
  {}

  // ---------------------------------------------------------------------------------------------
  // The same handlers as a table, field by field
  // ---------------------------------------------------------------------------------------------

  /** Who still listens when the socket in use no longer does. */
  function OtherListeners(s: State): set<nat> {
    s.listening - (if s.socket.Some? then {s.socket.value} else {})
  }

  /** The response is over: no timer runs, the caller's signal and the socket in use have no listener. */
  function Concluded(s: State, controller: Controller, body: seq<Chunk>): State {
    s.(done := true, idleArmed := false, abortListening := false, listening := OtherListeners(s),
       controller := controller, body := body, settles := s.settles + 1)
  }

  function Errored(s: State): Controller {
    if s.controller.Streaming? then ControllerErrored else s.controller
  }

  /** A failure: of a response that is done, nothing comes; after an abort or a frame, the controller is
      errored; else another socket is opened while attempts are left, and the fallback is called after
      the last. */
  function Failed(s: State): State {
    if s.done then s
    else if s.aborted || s.frameCount > 0 then Concluded(s, Errored(s), s.body)
    else
      var off := s.(idleArmed := false, abortListening := false, listening := OtherListeners(s));
      if s.attempts < CODEX_WS_OPEN_RETRIES then
        off.(attempts := s.attempts + 1, opening := s.opening + {s.created}, created := s.created + 1)
      else
        off.(attempts := if s.attempts == CODEX_WS_OPEN_RETRIES then s.attempts + 1 else s.attempts,
             done := true, fallback := Fetching, fallbackStarts := s.fallbackStarts + 1)
  }

  /** A socket that does not open is followed by another before the first frame, done or not. */
  function NotOpened(s: State): State {
    if s.frameCount == 0 && s.attempts < CODEX_WS_OPEN_RETRIES then
      if s.aborted then s.(attempts := s.attempts + 1, rejecting := s.rejecting + 1)
      else s.(attempts := s.attempts + 1, opening := s.opening + {s.created}, created := s.created + 1)
    else if s.frameCount == 0 && s.attempts > CODEX_WS_OPEN_RETRIES then Failed(s.(attempts := s.attempts + 1))
    else Failed(s)
  }

  /** A frame is passed on while the controller takes it, also after the response is done. Until then a
      done event adds the end mark and closes, and a terminal error errors. */
  function Passed(s: State, id: nat, text: string, meaning: Meaning): State {
    var t := s.(frameCount := s.frameCount + 1, idleArmed := true);
    if !s.controller.Streaming? then t.(misused := true)
    else if s.done || meaning.Ordinary? then t.(body := s.body + [Frame(id, text)])
    else if meaning.DoneEvent? then Concluded(t, Closed, s.body + [Frame(id, text), DoneMark])
    else Concluded(t, ControllerErrored, s.body + [Frame(id, text)])
  }

  /** An opened socket is attached, unless the signal is aborted, which ends the response. */
  function Opened(s: State, id: nat): State {
    var t := s.(opening := s.opening - {id}, socket := Some(id));
    if !s.aborted then
      t.(listening := s.listening + {id}, callbacks := s.callbacks + {id}, abortListening := true, idleArmed := true)
    else if s.done then t
    else Concluded(t, Errored(s), s.body)
  }

  function FallbackOver(s: State, controller: Controller): State {
    s.(fallback := Ended, controller := controller, settles := s.settles + 1)
  }

  /** What each event does to the fields. */
  function Effect(s: State, e: Event): State
    requires Enabled(s, e)
  {
    match e
    case Opens(id) => Opened(s, id)
    case OpenFails(id) => NotOpened(s.(opening := s.opening - {id}))
    case OpenRefused => NotOpened(s.(rejecting := s.rejecting - 1))
    case TextFrame(id, text, meaning) => Passed(s, id, text, meaning)
    case SocketFails(_) => Failed(s)
    case IdleTimeout => Failed(s.(idleArmed := false))
    case SendCallbackFails(id) => Failed(s.(callbacks := s.callbacks - {id}))
    case SignalAborts =>
      var t := s.(aborted := true, abortListening := false);
      if s.abortListening && !s.done then Concluded(t, Errored(s), s.body) else t
    case ConsumerCancels => s.(controller := Cancelled)
    case FallbackResponds(ok) => if ok then s.(fallback := Reading) else FallbackOver(s, Errored(s))
    case FallbackChunk(bytes) =>
      if s.controller.Streaming? then s.(body := s.body + [FallbackBytes(bytes)])
      else FallbackOver(s, s.controller).(misused := true)
    case FallbackEnds(ok) =>
      if !ok then FallbackOver(s, Errored(s))
      else if s.controller.Streaming? then FallbackOver(s, Closed)
      else FallbackOver(s, s.controller).(misused := true, settles := s.settles + 2)
  }

  lemma FailIsFailed(s: State)
    ensures Fail(s) == Failed(s)
  {
    FailForm(s);
    assert Cleanup(s).listening == OtherListeners(s);
  }

  lemma AbortConcludes(s: State)
    ensures Abort(s) == if s.done then s else Concluded(s, Errored(s), s.body)
  {
    assert Cleanup(s).listening == OtherListeners(s);
  }

  lemma FinishConcludes(s: State)
    requires !s.done && s.controller.Streaming?
    ensures Finish(s) == Concluded(s, Closed, s.body + [DoneMark])
  {
    assert Cleanup(s).listening == OtherListeners(s);
  }

  lemma TextIsPassed(s: State, id: nat, text: string, meaning: Meaning)
    ensures OnText(s, id, text, meaning) == Passed(s, id, text, meaning)
  {
    var t := Received(s, id, text);
    if s.controller.Streaming? && !s.done {
      FailIsFailed(t);
      FinishConcludes(t);
      assert s.body + [Frame(id, text)] + [DoneMark] == s.body + [Frame(id, text), DoneMark];
    }
  }

  lemma RejectedIsNotOpened(s: State)
    ensures OpenRejected(s) == NotOpened(s)
  {
    RejectedForm(s);
    FailIsFailed(s);
    FailIsFailed(s.(attempts := s.attempts + 1));
  }

  lemma SignalEffect(s: State)
    requires !s.aborted
    ensures Next(s, SignalAborts) == Effect(s, SignalAborts)
  {
    AbortConcludes(s.(aborted := true, abortListening := false));
  }

  lemma ChunkEffect(s: State, bytes: string)
    requires s.fallback.Reading?
    ensures OnFallbackChunk(s, bytes) == Effect(s, FallbackChunk(bytes))
  {}

  lemma EndEffect(s: State)
    requires s.fallback.Reading?
    ensures OnFallbackEnd(s) == Effect(s, FallbackEnds(true))
  {}

  lemma AnswerEffect(s: State, e: Event)
    requires Enabled(s, e) && (e.FallbackResponds? || e == FallbackEnds(false))
    ensures Next(s, e) == Effect(s, e)
  {}

  lemma FailuresEffect(s: State, e: Event)
    requires Enabled(s, e)
    requires e.SocketFails? || e.IdleTimeout? || e.SendCallbackFails? || e.OpenFails? || e.OpenRefused?
    ensures Next(s, e) == Effect(s, e)
  {
    match e
    case OpenFails(id) => RejectedIsNotOpened(s.(opening := s.opening - {id}));
    case OpenRefused => RejectedIsNotOpened(s.(rejecting := s.rejecting - 1));
    case SocketFails(_) => FailIsFailed(s);
    case IdleTimeout => FailIsFailed(s.(idleArmed := false));
    case SendCallbackFails(id) => FailIsFailed(s.(callbacks := s.callbacks - {id}));
  }

  /** The handlers, which call one another and recur, do what the table says, whatever the state. */
  lemma HandlersEffect(s: State, e: Event)
    requires Enabled(s, e)
    ensures Next(s, e) == Effect(s, e)
  {
    match e
    case Opens(id) => AbortConcludes(s.(opening := s.opening - {id}, socket := Some(id)));
    case TextFrame(id, text, meaning) => TextIsPassed(s, id, text, meaning);
    case SignalAborts => SignalEffect(s);
    case ConsumerCancels =>
    case FallbackResponds(_) => AnswerEffect(s, e);
    case FallbackChunk(bytes) => ChunkEffect(s, bytes);
    case FallbackEnds(ok) => if ok { EndEffect(s); } else { AnswerEffect(s, e); }
    case _ => FailuresEffect(s, e);
  }

  /** What a text frame does to a response that is under way. */
  ghost predicate FrameOutcome(s: State, t: State, id: nat, text: string, meaning: Meaning) {
    match meaning
    case Ordinary =>
      t.controller.Streaming? && !t.done && t.body == s.body + [Frame(id, text)] && t.settles == s.settles
    case DoneEvent =>
      t.controller.Closed? && t.done && t.body == s.body + [Frame(id, text), DoneMark] && t.settles == s.settles + 1
    case TerminalError =>
      t.controller.ControllerErrored? && t.done && t.body == s.body + [Frame(id, text)] && t.settles == s.settles + 1
  }

  /** If the event is one. */
  ghost predicate FramePassed(s: State, e: Event, t: State) {
    e.TextFrame? && s.controller.Streaming? && !s.done ==> FrameOutcome(s, t, e.id, e.text, e.meaning)
  }

  lemma FrameEffect(s: State, e: Event, t: State)
    requires Enabled(s, e) && t == Next(s, e)
    ensures FramePassed(s, e, t)
  {
    if e.TextFrame? { TextIsPassed(s, e.id, e.text, e.meaning); }
  }

  // ---------------------------------------------------------------------------------------------
  // In every run
  // ---------------------------------------------------------------------------------------------

  /** No more sockets than attempts, counting the first. */
  ghost predicate Bounded(s: State) {
    s.created <= s.attempts + 1 && s.created <= CODEX_WS_OPEN_RETRIES + 1
  }

  /** How often the controller has been settled: by whoever set `done`, or by the fallback it started,
      and by no one else, except that a fallback that ends well after a cancel settles it in vain and
      then once more for the failure of that. */
  ghost predicate SettledOnce(s: State) {
    s.fallbackStarts <= 1 &&
    (s.fallback.NotStarted? <==> s.fallbackStarts == 0) &&
    (!s.fallback.NotStarted? ==> s.done) &&
    (if s.controller.Cancelled? then
       s.settles <= (if !s.done || s.fallback.Fetching? || s.fallback.Reading? then 0
                     else if s.fallback.NotStarted? then 1 else 2)
     else
       s.settles == (if s.controller.Streaming? then 0 else 1) &&
       (s.controller.Streaming? <==> !s.done || s.fallback.Fetching? || s.fallback.Reading?))
  }

  /** A response that is not done is waiting for a socket or listening to one; one that is done has a
      reason not to try again. */
  ghost predicate Lively(s: State) {
    if s.done then s.aborted || s.frameCount > 0 || s.attempts > CODEX_WS_OPEN_RETRIES
    else s.opening != {} || s.rejecting > 0 || s.listening != {}
  }

  ghost predicate Kept(s: State) {
    Bounded(s) && SettledOnce(s) && Lively(s)
  }

  lemma OpenSocketKeeps(s: State)
    requires s.created <= s.attempts <= CODEX_WS_OPEN_RETRIES && SettledOnce(s) && (s.done ==> s.aborted)
    ensures Kept(OpenSocket(s))
  {
    assert s.created in s.opening + {s.created};
  }

  lemma GiveUpKeeps(s: State)
    requires Bounded(s) && SettledOnce(s) && !s.done
    requires s.aborted || s.frameCount > 0 || s.attempts > CODEX_WS_OPEN_RETRIES
    ensures Kept(GiveUp(s))
  {}

  lemma FailKeeps(s: State)
    requires Bounded(s) && SettledOnce(s) && (s.done ==> Lively(s))
    ensures Kept(Fail(s))
  {
    FailForm(s);
    if !s.done {
      if MayRetry(s) && s.attempts < CODEX_WS_OPEN_RETRIES { OpenSocketKeeps(Retried(s)); }
      else if MayRetry(s) { GiveUpKeeps(Retried(s)); }
      else { GiveUpKeeps(s); }
    }
  }

  lemma OpenRejectedKeeps(s: State)
    requires Bounded(s) && SettledOnce(s) && (s.done ==> Lively(s))
    ensures Kept(OpenRejected(s))
  {
    RejectedForm(s);
    var t := s.(attempts := s.attempts + 1);
    if s.frameCount > 0 || s.attempts == CODEX_WS_OPEN_RETRIES { FailKeeps(s); }
    else if s.attempts < CODEX_WS_OPEN_RETRIES { OpenSocketKeeps(t); }
    else { FailKeeps(t); }
  }

  lemma OpenResolvedKeeps(s: State, id: nat)
    requires Bounded(s) && SettledOnce(s) && (s.done ==> Lively(s))
    ensures Kept(OpenResolved(s, id))
  {
    assert id in s.listening + {id};
  }

  lemma ReceivedKeeps(s: State, id: nat, text: string)
    requires Kept(s)
    ensures Kept(Received(s, id, text)) && Received(s, id, text).frameCount > 0
  {}

  lemma OnTextKeeps(s: State, id: nat, text: string, meaning: Meaning)
    requires Kept(s)
    ensures Kept(OnText(s, id, text, meaning))
  {
    var t := Received(s, id, text);
    ReceivedKeeps(s, id, text);
    if s.controller.Streaming? {
      match meaning
      case Ordinary =>
      case TerminalError => FailKeeps(t);
      case DoneEvent => FinishKeeps(t);
    }
  }

  lemma FinishKeeps(s: State)
    requires Kept(s) && s.frameCount > 0
    ensures Kept(Finish(s))
  {}

  lemma NextKeeps(s: State, e: Event)
    requires Enabled(s, e) && Kept(s)
    ensures Kept(Next(s, e))
  {
    match e
    case Opens(id) => OpenResolvedKeeps(s.(opening := s.opening - {id}), id);
    case OpenFails(id) => OpenRejectedKeeps(s.(opening := s.opening - {id}));
    case OpenRefused => OpenRejectedKeeps(s.(rejecting := s.rejecting - 1));
    case TextFrame(id, text, meaning) => OnTextKeeps(s, id, text, meaning);
    case SocketFails(_) => FailKeeps(s);
    case IdleTimeout => FailKeeps(s.(idleArmed := false));
    case SendCallbackFails(id) => FailKeeps(s.(callbacks := s.callbacks - {id}));
    case SignalAborts =>
    case ConsumerCancels =>
    case FallbackResponds(ok) => RespondsKeeps(s, ok);
    case FallbackChunk(bytes) => ChunkKeeps(s, bytes);
    case FallbackEnds(ok) => EndsKeeps(s, ok);
  }

  lemma RespondsKeeps(s: State, ok: bool)
    requires s.fallback.Fetching? && Kept(s)
    ensures Kept(Next(s, FallbackResponds(ok)))
  {}

  lemma ChunkKeeps(s: State, bytes: string)
    requires s.fallback.Reading? && Kept(s)
    ensures Kept(OnFallbackChunk(s, bytes))
  {}

  lemma EndsKeeps(s: State, ok: bool)
    requires s.fallback.Reading? && Kept(s)
    ensures Kept(Next(s, FallbackEnds(ok)))
  {}

  lemma InitialKept(aborted: bool)
    ensures Kept(Initial(aborted))
  {
    OpenSocketKeeps(Outset(aborted));
  }

  lemma {:induction false} RunKeeps(s: State, events: seq<Event>)
    requires Kept(s) && Run(s, events).Some?
    ensures Kept(Run(s, events).value)
    decreases |events|
  {
    if events != [] {
      NextKeeps(s, events[0]);
      RunKeeps(Next(s, events[0]), events[1..]);
    }
  }

  /** In every run, whatever arrives and in whatever order: at most CODEX_WS_OPEN_RETRIES + 1 sockets
      are created, the fallback is started at most once, and the controller is closed or errored at
      most once in all, or at most twice when the consumer has cancelled. */
  lemma RunBounded(aborted: bool, events: seq<Event>)
    requires Run(Initial(aborted), events).Some?
    ensures var s := Run(Initial(aborted), events).value;
      s.created <= CODEX_WS_OPEN_RETRIES + 1 && s.fallbackStarts <= 1 && s.settles <= 2 &&
      (!s.controller.Cancelled? ==> s.settles <= 1)
  {
    InitialKept(aborted);
    RunKeeps(Initial(aborted), events);
  }

  // ---------------------------------------------------------------------------------------------
  // What a failure leads to
  // ---------------------------------------------------------------------------------------------

  /** A socket that cannot be opened, or one that fails: the events that lead to another attempt. */
  predicate Failure(e: Event) {
    e.SocketFails? || e.IdleTimeout? || e.SendCallbackFails? || e.OpenFails? || e.OpenRefused?
  }

  /** Another socket may still be opened. */
  predicate MayOpenMore(s: State) {
    !s.aborted && s.frameCount == 0 && s.attempts < CODEX_WS_OPEN_RETRIES
  }

  /** One more socket while nothing has arrived and attempts are left; the fallback when nothing has
      arrived and none are. Nothing is written, and a done response is left alone. */
  ghost predicate Outcome(s: State, t: State) {
    t.created == s.created + (if MayOpenMore(s) then 1 else 0) &&
    t.fallbackStarts ==
      s.fallbackStarts + (if !s.done && !s.aborted && s.frameCount == 0 && !MayOpenMore(s) then 1 else 0) &&
    (t.fallback.Ended? <==> s.fallback.Ended?) && (t.controller.Cancelled? <==> s.controller.Cancelled?) &&
    t.body == s.body && t.frameCount == s.frameCount &&
    t.aborted == s.aborted && t.attempts >= s.attempts && (s.done ==> t.done && t.settles == s.settles)
  }

  /** What happens exactly on a failure of the socket in use, when the response is not done: it stays
      open while another socket may be tried; else it goes to the fallback or is errored. */
  ghost predicate FailedOutcome(s: State, t: State) {
    Outcome(s, t) &&
    (!s.done ==>
      (t.done <==> !MayOpenMore(s)) && t.settles == s.settles + (if s.aborted || s.frameCount > 0 then 1 else 0))
  }

  lemma FailOutcome(s: State)
    requires (s.done ==> Lively(s)) && (!s.done ==> s.fallback.NotStarted?)
    ensures FailedOutcome(s, Fail(s))
  {
    FailForm(s);
  }

  lemma RejectedOutcome(s: State)
    requires (s.done ==> Lively(s)) && (!s.done ==> s.fallback.NotStarted?)
    ensures Outcome(s, OpenRejected(s))
  {
    RejectedForm(s);
    FailForm(s);
    FailForm(s.(attempts := s.attempts + 1));
  }

  /** Every failure has one of these effects and no other. */
  lemma FailureOutcome(s: State, e: Event)
    requires Kept(s) && Enabled(s, e) && Failure(e)
    ensures Outcome(s, Next(s, e))
    ensures e.SocketFails? || e.IdleTimeout? || e.SendCallbackFails? ==> FailedOutcome(s, Next(s, e))
  {
    match e
    case OpenFails(id) => RejectedOutcome(s.(opening := s.opening - {id}));
    case OpenRefused => RejectedOutcome(s.(rejecting := s.rejecting - 1));
    case SocketFails(_) => FailOutcome(s);
    case IdleTimeout => FailOutcome(s.(idleArmed := false));
    case SendCallbackFails(id) => FailOutcome(s.(callbacks := s.callbacks - {id}));
    case _ =>
  }

  /** The controller is settled a second time exactly when a fallback ends well after a cancel. */
  lemma SettledTwiceIff(s: State, e: Event)
    requires Kept(s) && Enabled(s, e)
    ensures Next(s, e).settles == 2 <==> s.settles == 2 || (s.controller.Cancelled? && e == FallbackEnds(true))
  {
    NextKeeps(s, e);
    if Failure(e) { FailureOutcome(s, e); }
    else if e.TextFrame? { TextSettles(s, e.id, e.text, e.meaning); }
    else if e.FallbackChunk? { ChunkSettles(s, e.bytes); }
    else if e == FallbackEnds(true) { EndSettles(s); }
  }

  lemma CancelledFallback(s: State) returns (events: seq<Event>)
    requires s.controller.Streaming? && s.fallback.Fetching? && s.settles == 0
    ensures Run(s, events).Some? && Run(s, events).value.settles == 2
  {
    var s1 := Next(s, ConsumerCancels);
    var s2 := Next(s1, FallbackResponds(true));
    var s3 := Next(s2, FallbackEnds(true));
    assert Run(s3, []) == Some(s3);
    RunFirst(s2, FallbackEnds(true), []);
    events := [FallbackEnds(true)] + [];
    RunFirst(s1, FallbackResponds(true), events);
    events := [FallbackResponds(true)] + events;
    RunFirst(s, ConsumerCancels, events);
    events := [ConsumerCancels] + events;
  }

  /** For instance: no socket opens, the consumer cancels, and then the fallback answers. */
  lemma {:induction false} OpeningsFail(s: State) returns (events: seq<Event>)
    requires !s.done && s.controller.Streaming? && s.fallback.NotStarted? && s.settles == 0
    requires !s.aborted && s.frameCount == 0 && s.attempts <= CODEX_WS_OPEN_RETRIES
    requires s.created > 0 && s.created - 1 in s.opening
    ensures Run(s, events).Some? && Run(s, events).value.settles == 2
    decreases Left(s)
  {
    var e, rest := OpenFails(s.created - 1), s.(opening := s.opening - {s.created - 1});
    RejectedForm(rest);
    FailForm(rest);
    if s.attempts < CODEX_WS_OPEN_RETRIES { events := OpeningsFail(Next(s, e)); }
    else { events := CancelledFallback(Next(s, e)); }
    RunFirst(s, e, events);
    events := [e] + events;
  }

  lemma CancelledFallbackSettlesTwice()
    ensures exists events :: Run(Initial(false), events).Some? && Run(Initial(false), events).value.settles == 2
  {
    var events := OpeningsFail(Initial(false));
  }

  lemma ChunkSettles(s: State, bytes: string)
    requires Kept(s) && s.fallback.Reading?
    ensures OnFallbackChunk(s, bytes).settles <= 1
  {}

  lemma EndSettles(s: State)
    requires Kept(s) && s.fallback.Reading?
    ensures OnFallbackEnd(s).settles == if s.controller.Cancelled? then 2 else 1
  {}

  lemma TextSettles(s: State, id: nat, text: string, meaning: Meaning)
    requires Kept(s)
    ensures var t := OnText(s, id, text, meaning); t.settles == 2 <==> s.settles == 2
  {
    OnTextKeeps(s, id, text, meaning);
    FailForm(Received(s, id, text));
  }

  /** Events that are not failures open no socket, and none takes back what stands in the way of one. */
  lemma OtherOutcome(s: State, e: Event)
    requires Kept(s) && Enabled(s, e) && !Failure(e)
    ensures Next(s, e).created == s.created
    ensures MayOpenMore(Next(s, e)) ==> MayOpenMore(s)
  {
    match e
    case TextFrame(id, text, meaning) => TextOutcome(s, id, text, meaning);
    case _ =>
  }

  lemma FailAfterFrame(s: State)
    requires s.frameCount > 0
    ensures Fail(s).created == s.created && Fail(s).frameCount == s.frameCount
  {
    FailForm(s);
  }

  lemma FinishOutcome(s: State)
    ensures Finish(s).created == s.created && Finish(s).frameCount == s.frameCount
  {}

  lemma TextOutcome(s: State, id: nat, text: string, meaning: Meaning)
    ensures var t := OnText(s, id, text, meaning); t.created == s.created && t.frameCount == s.frameCount + 1
  {
    FailAfterFrame(Received(s, id, text));
    FinishOutcome(Received(s, id, text));
  }

  lemma {:induction false} NoMoreOpened(s: State, events: seq<Event>)
    requires Kept(s) && Run(s, events).Some? && !MayOpenMore(s)
    ensures Run(s, events).value.created == s.created
    decreases |events|
  {
    if events != [] {
      NextKeeps(s, events[0]);
      if Failure(events[0]) { FailureOutcome(s, events[0]); } else { OtherOutcome(s, events[0]); }
      NoMoreOpened(Next(s, events[0]), events[1..]);
    }
  }

  /** Some failure can still happen to a response that is not done. */
  lemma FailurePossible(s: State) returns (e: Event)
    requires Kept(s) && !s.done
    ensures Enabled(s, e) && Failure(e)
  {
    if s.rejecting > 0 { e := OpenRefused; }
    else if id :| id in s.opening { e := OpenFails(id); }
    else {
      var id :| id in s.listening;
      e := SocketFails(id);
    }
  }

  ghost predicate OpensMore(s: State, events: seq<Event>) {
    Run(s, events).Some? && Run(s, events).value.created > s.created
  }

  lemma OpensMoreIff(s: State)
    requires Kept(s)
    ensures MayOpenMore(s) <==> exists more :: OpensMore(s, more)
  {
    if MayOpenMore(s) {
      var e := FailurePossible(s);
      FailureOutcome(s, e);
      assert Run(s, [e]) == Run(Next(s, e), [e][1..]) == Some(Next(s, e));
      assert OpensMore(s, [e]);
    } else {
      forall more ensures !OpensMore(s, more) {
        if Run(s, more).Some? { NoMoreOpened(s, more); }
      }
    }
  }

  /** Whether another socket can still be opened, in every run and whether or not the consumer has
      cancelled, depends on three things only: it can exactly while the caller's signal is not aborted,
      no frame has arrived and attempts are left. */
  lemma ReopensIff(aborted: bool, events: seq<Event>)
    requires Run(Initial(aborted), events).Some?
    ensures var s := Run(Initial(aborted), events).value;
      !s.aborted && s.frameCount == 0 && s.attempts < CODEX_WS_OPEN_RETRIES <==> exists more :: OpensMore(s, more)
  {
    InitialKept(aborted);
    RunKeeps(Initial(aborted), events);
    OpensMoreIff(Run(Initial(aborted), events).value);
  }

  /** For instance: a socket that closes before its first frame is replaced although the response has
      been cancelled. */
  lemma CancelStillReopens()
    ensures var run := Run(Initial(false), [Opens(0), ConsumerCancels, SocketFails(0)]);
      run.Some? && run.value.controller.Cancelled? && run.value.created == 2
  {
    var s0 := Initial(false);
    assert s0.opening == {0} && s0.created == 1;
    var s1 := Next(s0, Opens(0));
    var s2 := Next(s1, ConsumerCancels);
    FailForm(s2);
    var events := [Opens(0), ConsumerCancels, SocketFails(0)];
    assert events[1..] == [ConsumerCancels, SocketFails(0)] && events[1..][1..] == [SocketFails(0)];
    assert events[1..][1..][1..] == [];
    assert Run(s2, [SocketFails(0)]) == Run(Fail(s2), [SocketFails(0)][1..]) == Some(Fail(s2));
  }
}
