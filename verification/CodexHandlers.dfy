/** The event handlers of the Codex stream in the form the program has them: closures over shared
    variables that call one another. An object is driven by its events, one at a time, and remembers
    them; whatever has happened to it, it is where the run of these events leads, so its variables obey
    the bounds of every run and its body has one source unless harm has been done. */
module CodexHandlers {
  import opened Collections
  import opened CodexStream
  import opened CodexSource

  /** A controller that is over is written to no more. */
  lemma Sealed(s: State, e: Event)
    requires Kept(s) && Enabled(s, e) && s.controller != Streaming
    ensures Next(s, e).body == s.body
  {
    if Failure(e) { FailureOutcome(s, e); }
  }

  class SocketStream {
    var done: bool
    var socket: Option<nat>
    var idleArmed: bool
    var frameCount: nat
    var attempts: nat
    var opening: set<nat>
    var rejecting: nat
    var listening: set<nat>
    var callbacks: set<nat>
    var created: nat
    var aborted: bool
    var abortListening: bool
    var controller: Controller
    var body: seq<Chunk>
    var fallback: Fallback
    var fallbackStarts: nat
    var settles: nat
    var misused: bool
    ghost const beganAborted: bool
    ghost var history: seq<Event>

    function Now(): State
      reads this
    {
      State(done, socket, idleArmed, frameCount, attempts, opening, rejecting, listening, callbacks, created,
            aborted, abortListening, controller, body, fallback, fallbackStarts, settles, misused)
    }

    ghost predicate Valid()
      reads this
    {
      Run(Initial(beganAborted), history) == Some(Now()) && Kept(Now()) &&
      (Harmless(Initial(beganAborted), history) ==> Flight(Now()))
    }

    constructor (aborted: bool)
      ensures Valid() && history == [] && beganAborted == aborted
      ensures Now() == State(false, None, false, 0, 0, if aborted then {} else {0}, if aborted then 1 else 0, {}, {},
                             if aborted then 0 else 1, aborted, false, Streaming, [], NotStarted, 0, 0, false)
    {
      done, socket, idleArmed, frameCount, attempts := false, None, false, 0, 0;
      opening, rejecting, listening, callbacks, created := {}, 0, {}, {}, 0;
      this.aborted, abortListening := aborted, false;
      controller, body := Streaming, [];
      fallback, fallbackStarts, settles, misused := NotStarted, 0, 0, false;
      beganAborted := aborted;
      new;
      SendRequest();
      assert Now() == Initial(aborted);
      history := [];
      InitialFlies(aborted);
    }

    method EnqueueChunk(c: Chunk) returns (threw: bool)
      modifies this
      ensures Now() == Enqueue(old(Now()), c) && threw == !old(controller).Streaming?
    {
      threw := !controller.Streaming?;
      if threw { misused := true; } else { body := body + [c]; }
    }

    method CloseController()
      modifies this
      ensures Now() == Close(old(Now()))
    {
      settles := settles + 1;
      if controller.Streaming? { controller := Closed; } else { misused := true; }
    }

    method ErrorController()
      modifies this
      ensures Now() == Error(old(Now()))
    {
      settles := settles + 1;
      if controller.Streaming? { controller := ControllerErrored; }
    }

    method CleanUp()
      modifies this
      ensures Now() == Cleanup(old(Now()))
    {
      idleArmed := false;
      if socket.Some? { listening := listening - {socket.value}; }
      abortListening := false;
    }

    method FinishResponse()
      modifies this
      ensures Now() == Finish(old(Now()))
    {
      if done { return; }
      done := true;
      CleanUp();
      var threw := EnqueueChunk(DoneMark);
      if threw { return; }
      CloseController();
    }

    method AbortResponse()
      modifies this
      ensures Now() == Abort(old(Now()))
    {
      if done { return; }
      done := true;
      CleanUp();
      ErrorController();
    }

    method FailResponse()
      modifies this
      ensures Now() == Fail(old(Now()))
      decreases Left(Now()), 0
    {
      if done { return; }
      if !aborted && frameCount == 0 && attempts <= CODEX_WS_OPEN_RETRIES {
        CleanUp();
        attempts := attempts + 1;
        SendRequest();
        return;
      }
      GiveUpResponse();
    }

    /** The end of `fail`, without another attempt. */
    method GiveUpResponse()
      modifies this
      ensures Now() == GiveUp(old(Now()))
    {
      done := true;
      CleanUp();
      if frameCount == 0 && !aborted {
        fallback := Fetching;
        fallbackStarts := fallbackStarts + 1;
        return;
      }
      ErrorController();
    }

    method SendRequest()
      modifies this
      ensures Now() == Send(old(Now()))
      decreases Left(Now()), 1
    {
      if attempts <= CODEX_WS_OPEN_RETRIES {
        if aborted {
          rejecting := rejecting + 1;
        } else {
          opening := opening + {created};
          created := created + 1;
        }
      } else {
        FailResponse();
      }
    }

    /** The catch clause of `send`, and what follows it. */
    method OnOpenRejected()
      modifies this
      ensures Now() == OpenRejected(old(Now()))
    {
      if frameCount > 0 || attempts == CODEX_WS_OPEN_RETRIES {
        FailResponse();
      } else {
        attempts := attempts + 1;
        SendRequest();
      }
    }

    method OnOpen(id: nat)
      modifies this
      ensures Now() == OpenResolved(old(Now()).(opening := old(opening) - {id}), id)
    {
      opening := opening - {id};
      socket := Some(id);
      if aborted { AbortResponse(); } else { Attach(id); }
    }

    method Attach(id: nat)
      modifies this
      ensures Now() == old(Now()).(listening := old(listening) + {id}, abortListening := true, idleArmed := true,
                                   callbacks := old(callbacks) + {id})
    {
      listening := listening + {id};
      abortListening := true;
      idleArmed := true;
      callbacks := callbacks + {id};
    }

    method Receive(id: nat, text: string) returns (threw: bool)
      modifies this
      ensures Now() == Received(old(Now()), id, text) && threw == !old(controller).Streaming?
    {
      frameCount := frameCount + 1;
      idleArmed := true;
      threw := EnqueueChunk(Frame(id, text));
    }

    method OnMessage(id: nat, text: string, meaning: Meaning)
      modifies this
      ensures Now() == OnText(old(Now()), id, text, meaning)
    {
      var threw := Receive(id, text);
      if threw { return; }
      match meaning
      case Ordinary =>
      case TerminalError => FailResponse();
      case DoneEvent => FinishResponse();
    }

    method OnSignalAbort()
      requires !aborted
      modifies this
      ensures Now() == Next(old(Now()), SignalAborts)
    {
      var listener := abortListening;
      aborted := true;
      abortListening := false;
      if listener { AbortResponse(); }
    }

    method OnResponse(ok: bool)
      requires fallback.Fetching?
      modifies this
      ensures Now() == Next(old(Now()), FallbackResponds(ok))
    {
      if ok {
        fallback := Reading;
      } else {
        ErrorController();
        fallback := Ended;
      }
    }

    /** One turn of the loop that copies the fallback response. */
    method OnChunk(bytes: string)
      modifies this
      ensures Now() == OnFallbackChunk(old(Now()), bytes)
    {
      var threw := EnqueueChunk(FallbackBytes(bytes));
      if threw {
        ErrorController();
        fallback := Ended;
      }
    }

    method OnEnd(ok: bool)
      requires fallback.Reading?
      modifies this
      ensures Now() == Next(old(Now()), FallbackEnds(ok))
    {
      if ok {
        var threw := !controller.Streaming?;
        CloseController();
        if threw { ErrorController(); }
      } else {
        ErrorController();
      }
      fallback := Ended;
    }

    method OnOpenFailure(id: nat)
      modifies this
      ensures Now() == OpenRejected(old(Now()).(opening := old(opening) - {id}))
    {
      opening := opening - {id};
      OnOpenRejected();
    }

    method OnOpenRefused()
      requires rejecting > 0
      modifies this
      ensures Now() == OpenRejected(old(Now()).(rejecting := old(rejecting) - 1))
    {
      rejecting := rejecting - 1;
      OnOpenRejected();
    }

    method OnIdle()
      modifies this
      ensures Now() == Fail(old(Now()).(idleArmed := false))
    {
      idleArmed := false;
      FailResponse();
    }

    method OnSendError(id: nat)
      modifies this
      ensures Now() == Fail(old(Now()).(callbacks := old(callbacks) - {id}))
    {
      callbacks := callbacks - {id};
      FailResponse();
    }

    method Dispatch(e: Event)
      requires Enabled(Now(), e)
      modifies this
      ensures Now() == Next(old(Now()), e)
    {
      match e
      case Opens(id) => OnOpen(id);
      case OpenFails(id) => OnOpenFailure(id);
      case OpenRefused => OnOpenRefused();
      case TextFrame(id, text, meaning) => OnMessage(id, text, meaning);
      case SocketFails(_) => FailResponse();
      case IdleTimeout => OnIdle();
      case SendCallbackFails(id) => OnSendError(id);
      case SignalAborts => OnSignalAbort();
      case ConsumerCancels => controller := Cancelled;
      case FallbackResponds(ok) => OnResponse(ok);
      case FallbackChunk(bytes) => OnChunk(bytes);
      case FallbackEnds(ok) => OnEnd(ok);
    }

    /** The object is where the longer run leads. */
    lemma Recorded(s: State, events: seq<Event>, e: Event)
      requires Run(Initial(beganAborted), events) == Some(s) && Kept(s) && Enabled(s, e)
      requires Harmless(Initial(beganAborted), events) ==> Flight(s)
      requires Now() == Next(s, e)
      ensures var longer := events + [e];
        Run(Initial(beganAborted), longer) == Some(Now()) && Kept(Now()) &&
        (Harmless(Initial(beganAborted), longer) ==> Flight(Now()) && Pure(body)) &&
        (s.controller != Streaming ==> body == s.body) && FramePassed(s, e, Now())
    {
      FrameEffect(s, e, Now());
      RunAppend(Initial(beganAborted), events, e);
      HarmlessAppend(Initial(beganAborted), events, e);
      NextKeeps(s, e);
      if !Harmful(s, e) && Flight(s) { NextFlies(s, e); }
      if s.controller != Streaming { Sealed(s, e); }
    }

    /** One event, whichever it is. At every point: at most CODEX_WS_OPEN_RETRIES + 1 sockets, one
        fallback, and one source for the body unless a harmful callback has reported. */
    method Handle(e: Event)
      requires Valid() && Enabled(Now(), e)
      modifies this
      ensures Valid() && history == old(history) + [e] && Now() == Next(old(Now()), e)
      ensures created <= CODEX_WS_OPEN_RETRIES + 1 && fallbackStarts <= 1 && settles <= 2
      ensures !controller.Cancelled? ==> settles <= 1
      ensures Harmless(Initial(beganAborted), history) ==> Pure(body)
      ensures old(controller) != Streaming ==> body == old(body)
      ensures FramePassed(old(Now()), e, Now())
    {
      ghost var s, before := Now(), history;
      Dispatch(e);
      history := before + [e];
      Recorded(s, before, e);
    }
  }
}
