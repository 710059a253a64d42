/** A slim task run: one stage after another, each completed stage checkpointed, so that a later run
    of the same task and session replays what is stored and goes on from there. Any number of runs
    may share the checkpoint store, one after the other or at once, and any of them may stop or
    crash anywhere. */
module SlimRun {
  import opened Collections
  import opened RunState

  datatype Checkpoint = Checkpoint(stage: nat, agentId: Id, sequence: seq<Id>, team: seq<Id>, result: Result,
                                   browserState: Option<Browser>)

  /** The checkpoints of one task and session, by stage: the last one written wins. */
  type Store = map<nat, Checkpoint>

  datatype Output = Output(text: string, browser: Option<Browser>)

  /** What the runs have in common: each agent's own prompt, and what an agent that completes makes
      of a prompt. */
  datatype World = World(base: Id -> string, complete: (Id, Prompt) -> Output) {
    function Completion(id: Id, prompt: Prompt): Result {
      Result(id, Completed, complete(id, prompt).text, complete(id, prompt).browser, None)
    }
  }

  // ---------------------------------------------------------------------------------------------
  // The sequence of stages
  // ---------------------------------------------------------------------------------------------

  /** `resolveSlimSequence`; None stands for the error that lists unknown agents. */
  function Resolve(team: seq<Id>, requested: seq<Id>): (r: Option<seq<Id>>)
    ensures requested == [] ==> r == Some(team)
    ensures r.Some? ==> Elems(r.value) <= Elems(team)
    ensures requested != [] ==> (r.None? <==> exists id :: id in requested && id !in team)
    ensures requested != [] && r.Some? ==>
      r.value == Firsts(requested) && NoDups(r.value) && Elems(r.value) == Elems(requested)
  {
    if requested == [] then Some(team)
    else
      var s := Firsts(requested);
      assert forall id :: id in requested <==> id in Elems(s);
      if exists id | id in s :: id !in team then None else Some(s)
  }

  // ---------------------------------------------------------------------------------------------
  // One run as atomic steps
  // ---------------------------------------------------------------------------------------------

  datatype Phase =
    | AtStage                  // about to look for the checkpoint of the stage
    | Running(prompt: Prompt)  // the agent of the stage is at work
    | Finished                 // the loop ran to its end
    | Stopped                  // the loop was left by a break

  datatype Proc = Proc(sequence: seq<Id>, team: seq<Id>, stage: nat, st: ExecutionState, results: seq<Result>,
                       phase: Phase)

  function Start(sequence: seq<Id>, team: seq<Id>): Proc {
    Proc(sequence, team, 0, Fresh(), [], AtStage)
  }

  /** `readSlimCheckpoint` */
  function ReadCheckpoint(store: Store, stage: nat, agentId: Id, sequence: seq<Id>, team: seq<Id>): Option<Checkpoint> {
    if stage !in store then None
    else
      var record := store[stage];
      if record.stage != stage || record.agentId != agentId || record.sequence != sequence || record.team != team
      then None
      else Some(record)
  }

  /** A checkpoint put back into the in-memory state. */
  function Replay(st: ExecutionState, cp: Checkpoint): ExecutionState {
    ExecutionState(
      if cp.result.finalText != "" then st.outputs.Put(cp.result.agentId, cp.result.finalText) else st.outputs,
      if cp.browserState.Some? then st.browsers.Put(cp.result.agentId, cp.browserState.value)
      else st.browsers)
  }

  /** From the top of the loop body to the agent's run. `aborted` is the state of the session signal
      and `spawnError` what goes wrong while spawning, if anything. */
  function Arrive(w: World, store: Store, p: Proc, aborted: bool, spawnError: Option<string>): Proc
    requires p.phase.AtStage?
  {
    if p.stage >= |p.sequence| then p.(phase := Finished)
    else
      var id := p.sequence[p.stage];
      if id == Id("") then p.(stage := p.stage + 1)
      else
        var cp := ReadCheckpoint(store, p.stage, id, p.sequence, p.team);
        if cp.Some? then
          p.(stage := p.stage + 1, results := p.results + [cp.value.result], st := Replay(p.st, cp.value))
        else Spawn(w, p, aborted, spawnError)
  }

  /** A stage without a checkpoint. */
  function Spawn(w: World, p: Proc, aborted: bool, spawnError: Option<string>): Proc
    requires p.stage < |p.sequence|
  {
    var id := p.sequence[p.stage];
    if aborted then p.(phase := Stopped)
    else if id !in p.team then
      p.(phase := Stopped, results := p.results + [FailedSpawn(id, UnknownAgent(id))])
    else if spawnError.Some? then
      p.(phase := Stopped, results := p.results + [FailedSpawn(id, SpawnFailed(spawnError.value))])
    else p.(phase := Running(SpawnPrompt(w.base(id), [], p.st)))
  }

  /** How the agent's run ends: completed, with the output that is a function of agent and prompt, or
      in any other result. */
  datatype Ending =
    | Completes
    | EndsOtherwise(exit: ExitReason, text: string, browser: Option<Browser>, error: Option<Failure>)

  function EndResult(w: World, id: Id, prompt: Prompt, e: Ending): Result {
    if e.Completes? || e.exit == Completed then w.Completion(id, prompt)
    else Result(id, e.exit, e.text, e.browser, e.error)
  }

  /** `writeSlimCheckpoint`, the record it stores */
  function NewCheckpoint(p: Proc, st: ExecutionState, r: Result): Checkpoint {
    Checkpoint(p.stage, r.agentId, p.sequence, p.team, r,
               if r.agentId in st.browsers.vals then Some(st.browsers.vals[r.agentId]) else None)
  }

  /** From the end of the agent's run to the bottom of the loop body. */
  function Settle(w: World, store: Store, p: Proc, e: Ending): (Store, Proc)
    requires p.phase.Running? && p.stage < |p.sequence|
  {
    var r := EndResult(w, p.sequence[p.stage], p.phase.prompt, e);
    var st := RecordOne(p.st, r);
    var q := p.(st := st, results := p.results + [r]);
    if r.exit == Completed then (store[p.stage := NewCheckpoint(p, st, r)], q.(stage := p.stage + 1, phase := AtStage))
    else (store, q.(phase := Stopped))
  }

  // ---------------------------------------------------------------------------------------------
  // The run nobody interrupts
  // ---------------------------------------------------------------------------------------------

  /** The result of stage k when everything before it completed and nothing was stored. */
  function IdealResult(w: World, sequence: seq<Id>, k: nat): Result
    requires k < |sequence|
    decreases k, 2
  {
    w.Completion(sequence[k], SpawnPrompt(w.base(sequence[k]), [], IdealState(w, sequence, k)))
  }

  function IdealState(w: World, sequence: seq<Id>, k: nat): ExecutionState
    requires k <= |sequence|
    decreases k, 1
  {
    Record(Fresh(), IdealResults(w, sequence, k))
  }

  function IdealResults(w: World, sequence: seq<Id>, k: nat): seq<Result>
    requires k <= |sequence|
    decreases k, 0
  {
    if k == 0 then []
    else
      IdealResults(w, sequence, k - 1)
      + (if sequence[k - 1] == Id("") then [] else [IdealResult(w, sequence, k - 1)])
  }

  /** Stage k of that run gives its agent what every earlier stage left. */
  lemma IdealPrompt(w: World, sequence: seq<Id>, k: nat)
    requires k < |sequence|
    ensures var results := IdealResults(w, sequence, k);
      var texts, browsers := Firsts(WithText(results)), Firsts(WithBrowser(results));
      IdealResult(w, sequence, k) == w.Completion(sequence[k],
        Prompt(Contributions(results, texts + Without(browsers, Elems(texts))), w.base(sequence[k])))
  {
    InheritsAll(w.base(sequence[k]), IdealResults(w, sequence, k));
  }

  // ---------------------------------------------------------------------------------------------
  // What every step keeps
  // ---------------------------------------------------------------------------------------------

  /** The checkpoint is what the uninterrupted run of its own sequence and team yields at its stage. */
  ghost predicate Genuine(w: World, cp: Checkpoint) {
    cp.stage < |cp.sequence| && cp.sequence[cp.stage] != Id("") &&
    cp.agentId == cp.sequence[cp.stage] &&
    cp.result == IdealResult(w, cp.sequence, cp.stage) &&
    cp.browserState == Lookup(IdealState(w, cp.sequence, cp.stage + 1).browsers, cp.agentId)
  }

  function Lookup(m: JsMap<Browser>, id: Id): Option<Browser> {
    if id in m.vals then Some(m.vals[id]) else None
  }

  ghost predicate GenuineStore(w: World, store: Store) {
    forall k :: k in store ==> store[k].stage == k && Genuine(w, store[k])
  }

  /** A run is where the uninterrupted run of its sequence is at the same stage; once it has stopped,
      it may have one failure to report on top. */
  ghost predicate OnTrack(w: World, p: Proc) {
    p.stage <= |p.sequence| &&
    match p.phase
    case AtStage => p.results == IdealResults(w, p.sequence, p.stage) && p.st == IdealState(w, p.sequence, p.stage)
    case Running(prompt) =>
      p.stage < |p.sequence| && p.sequence[p.stage] != Id("") &&
      prompt == SpawnPrompt(w.base(p.sequence[p.stage]), [], p.st) &&
      p.results == IdealResults(w, p.sequence, p.stage) && p.st == IdealState(w, p.sequence, p.stage)
    case Finished =>
      p.stage == |p.sequence| &&
      p.results == IdealResults(w, p.sequence, p.stage) && p.st == IdealState(w, p.sequence, p.stage)
    case Stopped =>
      p.results == IdealResults(w, p.sequence, p.stage) ||
      (|p.results| > 0 && p.results[..|p.results| - 1] == IdealResults(w, p.sequence, p.stage) &&
       p.results[|p.results| - 1].exit != Completed)
  }

  /** One more stage of the uninterrupted run. */
  lemma IdealStep(w: World, sequence: seq<Id>, k: nat)
    requires k < |sequence|
    ensures sequence[k] == Id("") ==>
      IdealResults(w, sequence, k + 1) == IdealResults(w, sequence, k) &&
      IdealState(w, sequence, k + 1) == IdealState(w, sequence, k)
    ensures sequence[k] != Id("") ==>
      IdealResults(w, sequence, k + 1) == IdealResults(w, sequence, k) + [IdealResult(w, sequence, k)] &&
      IdealState(w, sequence, k + 1) == RecordOne(IdealState(w, sequence, k), IdealResult(w, sequence, k))
  {
    var results := IdealResults(w, sequence, k);
    if sequence[k] != Id("") {
      assert (results + [IdealResult(w, sequence, k)])[..|results|] == results;
    } else {
      assert results + [] == results;
    }
  }

  lemma ReplayAsRecord(st: ExecutionState, cp: Checkpoint)
    requires cp.browserState == Lookup(RecordOne(st, cp.result).browsers, cp.result.agentId)
    ensures Replay(st, cp) == RecordOne(st, cp.result)
  {
    var id := cp.result.agentId;
    if cp.result.browser.None? && id in st.browsers.vals {
      assert st.browsers.vals[id := st.browsers.vals[id]] == st.browsers.vals;
    }
  }

  /** Replaying a genuine checkpoint has the effect the run it stands for had. */
  lemma ReplayIsRecord(w: World, cp: Checkpoint)
    requires Genuine(w, cp)
    ensures Replay(IdealState(w, cp.sequence, cp.stage), cp) == IdealState(w, cp.sequence, cp.stage + 1)
  {
    IdealStep(w, cp.sequence, cp.stage);
    ReplayAsRecord(IdealState(w, cp.sequence, cp.stage), cp);
  }

  /** A run goes on from a stored checkpoint as from the stage itself. */
  lemma CheckpointKeeps(w: World, store: Store, p: Proc, cp: Checkpoint, q: Proc)
    requires GenuineStore(w, store) && OnTrack(w, p) && p.phase.AtStage? && p.stage < |p.sequence|
    requires p.sequence[p.stage] != Id("")
    requires ReadCheckpoint(store, p.stage, p.sequence[p.stage], p.sequence, p.team) == Some(cp)
    requires q == p.(stage := p.stage + 1, results := p.results + [cp.result], st := Replay(p.st, cp))
    ensures OnTrack(w, q)
  {
    IdealStep(w, p.sequence, p.stage);
    ReplayIsRecord(w, cp);
  }

  /** The run spawns the agent of its stage, or stops instead. */
  lemma SpawnKeeps(w: World, p: Proc, aborted: bool, spawnError: Option<string>, q: Proc)
    requires OnTrack(w, p) && p.phase.AtStage? && p.stage < |p.sequence| && p.sequence[p.stage] != Id("")
    requires q == Spawn(w, p, aborted, spawnError)
    ensures OnTrack(w, q)
  {
    var id := p.sequence[p.stage];
    if aborted {
    } else if id !in p.team {
      FailureKeeps(w, p, FailedSpawn(id, UnknownAgent(id)), p.st);
    } else if spawnError.Some? {
      FailureKeeps(w, p, FailedSpawn(id, SpawnFailed(spawnError.value)), p.st);
    }
  }

  /** Stages without an agent are passed over. */
  lemma SkipKeeps(w: World, p: Proc)
    requires OnTrack(w, p) && p.phase.AtStage? && p.stage < |p.sequence| && p.sequence[p.stage] == Id("")
    ensures OnTrack(w, p.(stage := p.stage + 1))
  {
    IdealStep(w, p.sequence, p.stage);
  }

  lemma ArriveKeeps(w: World, store: Store, p: Proc, aborted: bool, spawnError: Option<string>)
    requires GenuineStore(w, store) && OnTrack(w, p) && p.phase.AtStage?
    ensures OnTrack(w, Arrive(w, store, p, aborted, spawnError))
  {
    if p.stage < |p.sequence| {
      var cp := ReadCheckpoint(store, p.stage, p.sequence[p.stage], p.sequence, p.team);
      var q := Arrive(w, store, p, aborted, spawnError);
      if p.sequence[p.stage] == Id("") {
        SkipKeeps(w, p);
      } else if cp.Some? {
        CheckpointKeeps(w, store, p, cp.value, q);
      } else {
        SpawnKeeps(w, p, aborted, spawnError, q);
      }
    }
  }

  lemma SettleKeeps(w: World, store: Store, p: Proc, e: Ending)
    requires GenuineStore(w, store) && OnTrack(w, p) && p.phase.Running?
    ensures var (store', p') := Settle(w, store, p, e); GenuineStore(w, store') && OnTrack(w, p')
  {
    var r := EndResult(w, p.sequence[p.stage], p.phase.prompt, e);
    if r.exit == Completed {
      CompletionKeeps(w, p, r);
      StoreKeeps(w, store, NewCheckpoint(p, RecordOne(p.st, r), r));
    } else {
      FailureKeeps(w, p, r, RecordOne(p.st, r));
    }
  }

  /** A run may stop with one failure on top of what it has. */
  lemma FailureKeeps(w: World, p: Proc, r: Result, st: ExecutionState)
    requires OnTrack(w, p) && (p.phase.AtStage? || p.phase.Running?) && r.exit != Completed
    ensures OnTrack(w, p.(phase := Stopped, results := p.results + [r], st := st))
  {
    assert (p.results + [r])[..|p.results|] == p.results;
  }

  lemma StoreKeeps(w: World, store: Store, cp: Checkpoint)
    requires GenuineStore(w, store) && Genuine(w, cp)
    ensures GenuineStore(w, store[cp.stage := cp])
  {}

  /** A completed stage takes the run one stage further, and its checkpoint is genuine. */
  lemma CompletionKeeps(w: World, p: Proc, r: Result)
    requires OnTrack(w, p) && p.phase.Running? && r == w.Completion(p.sequence[p.stage], p.phase.prompt)
    ensures r == IdealResult(w, p.sequence, p.stage)
    ensures p.results + [r] == IdealResults(w, p.sequence, p.stage + 1)
    ensures RecordOne(p.st, r) == IdealState(w, p.sequence, p.stage + 1)
    ensures Genuine(w, NewCheckpoint(p, RecordOne(p.st, r), r))
  {
    IdealStep(w, p.sequence, p.stage);
  }

  // ---------------------------------------------------------------------------------------------
  // Any number of runs, interleaved in any way
  // ---------------------------------------------------------------------------------------------

  datatype Sys = Sys(store: Store, procs: map<nat, Proc>)

  datatype Event =
    | Begin(pid: nat, team: seq<Id>, requested: seq<Id>)
    | Top(pid: nat, aborted: bool, spawnError: Option<string>)
    | AgentEnds(pid: nat, ending: Ending)
    | Crash(pid: nat)

  /** An event that is not enabled changes nothing. */
  function Next(w: World, s: Sys, e: Event): Sys {
    match e
    case Begin(pid, team, requested) =>
      var sequence := Resolve(team, requested);
      if pid in s.procs || sequence.None? then s
      else s.(procs := s.procs[pid := Start(sequence.value, team)])
    case Top(pid, aborted, spawnError) =>
      if pid in s.procs && s.procs[pid].phase.AtStage? then
        s.(procs := s.procs[pid := Arrive(w, s.store, s.procs[pid], aborted, spawnError)])
      else s
    case AgentEnds(pid, ending) =>
      if pid in s.procs && s.procs[pid].phase.Running? && s.procs[pid].stage < |s.procs[pid].sequence| then
        var (store, p) := Settle(w, s.store, s.procs[pid], ending);
        Sys(store, s.procs[pid := p])
      else s
    case Crash(pid) => s.(procs := s.procs - {pid})
  }

  function After(w: World, history: seq<Event>): Sys {
    if history == [] then Sys(map[], map[])
    else Next(w, After(w, history[..|history| - 1]), history[|history| - 1])
  }

  ghost predicate Inv(w: World, s: Sys) {
    GenuineStore(w, s.store) && forall pid :: pid in s.procs ==> OnTrack(w, s.procs[pid])
  }

  lemma NextKeeps(w: World, s: Sys, e: Event)
    requires Inv(w, s)
    ensures Inv(w, Next(w, s, e))
  {
    match e
    case Begin(_, _, _) =>
    case Top(pid, aborted, spawnError) =>
      if pid in s.procs && s.procs[pid].phase.AtStage? {
        ArriveKeeps(w, s.store, s.procs[pid], aborted, spawnError);
      }
    case AgentEnds(pid, ending) =>
      if pid in s.procs && s.procs[pid].phase.Running? {
        SettleKeeps(w, s.store, s.procs[pid], ending);
      }
    case Crash(_) =>
  }

  /** Crash and resume: whatever runs there have been, under whatever sequences, wherever they
      crashed, were aborted or failed, and however they were interleaved, every stored checkpoint is
      what the uninterrupted run of its own sequence and team yields at its stage, and a run that
      finishes has the results and the outputs and browser states, in the same insertion order, of
      the run nobody interrupts. */
  lemma {:induction false} CrashAndResume(w: World, history: seq<Event>)
    ensures var s := After(w, history);
      Inv(w, s) &&
      forall pid :: pid in s.procs && s.procs[pid].phase.Finished? ==>
        var p := s.procs[pid];
        p.results == IdealResults(w, p.sequence, |p.sequence|) && p.st == IdealState(w, p.sequence, |p.sequence|)
  {
    if history != [] {
      var n := |history| - 1;
      CrashAndResume(w, history[..n]);
      NextKeeps(w, After(w, history[..n]), history[n]);
    }
  }

  // ---------------------------------------------------------------------------------------------
  // The loop of one run
  // ---------------------------------------------------------------------------------------------

  /** What befalls the run at one stage; an ending of None means that the process dies while the
      agent is at work. */
  datatype Fate = Fate(aborted: bool, spawnError: Option<string>, ending: Option<Ending>)

  /** One pass through the loop body, or the end of the loop. */
  function Pass(w: World, store: Store, p: Proc, f: Fate): (r: (Store, Proc))
    requires p.phase.AtStage? && p.stage <= |p.sequence|
    ensures p.stage <= r.1.stage <= |p.sequence| && r.1.sequence == p.sequence && r.1.team == p.team
    ensures r.1.phase.AtStage? ==> r.1.stage == p.stage + 1
  {
    var q := Arrive(w, store, p, f.aborted, f.spawnError);
    if q.phase.Running? && f.ending.Some? then Settle(w, store, q, f.ending.value) else (store, q)
  }

  function Loop(w: World, store: Store, p: Proc, fate: nat -> Fate): (Store, Proc)
    requires p.stage <= |p.sequence|
    decreases |p.sequence| - p.stage, p.phase.AtStage?
  {
    if !p.phase.AtStage? then (store, p)
    else
      var (store', q) := Pass(w, store, p, fate(p.stage));
      Loop(w, store', q, fate)
  }

  lemma PassKeeps(w: World, store: Store, p: Proc, f: Fate)
    requires GenuineStore(w, store) && OnTrack(w, p) && p.phase.AtStage?
    ensures var (store', q) := Pass(w, store, p, f); GenuineStore(w, store') && OnTrack(w, q)
  {
    ArriveKeeps(w, store, p, f.aborted, f.spawnError);
    var q := Arrive(w, store, p, f.aborted, f.spawnError);
    if q.phase.Running? && f.ending.Some? {
      SettleKeeps(w, store, q, f.ending.value);
    }
  }

  lemma {:induction false} LoopKeeps(w: World, store: Store, p: Proc, fate: nat -> Fate)
    requires GenuineStore(w, store) && OnTrack(w, p)
    ensures var (store', p') := Loop(w, store, p, fate); GenuineStore(w, store') && OnTrack(w, p')
    decreases |p.sequence| - p.stage, p.phase.AtStage?
  {
    if p.phase.AtStage? {
      PassKeeps(w, store, p, fate(p.stage));
      var (store', q) := Pass(w, store, p, fate(p.stage));
      LoopKeeps(w, store', q, fate);
    }
  }

  /** A run that nothing befalls finishes. */
  lemma {:induction false} LoopFinishes(w: World, store: Store, p: Proc, fate: nat -> Fate)
    requires p.stage <= |p.sequence| && p.phase.AtStage? && Elems(p.sequence) <= Elems(p.team)
    requires forall k :: fate(k) == Fate(false, None, Some(Completes))
    ensures Loop(w, store, p, fate).1.phase.Finished? && Loop(w, store, p, fate).1.sequence == p.sequence
    decreases |p.sequence| - p.stage
  {
    if p.stage < |p.sequence| {
      assert p.sequence[p.stage] in Elems(p.sequence);
      var (store', q) := Pass(w, store, p, fate(p.stage));
      LoopFinishes(w, store', q, fate);
    }
  }

  /** And on any genuine store, the empty one included, it ends as the uninterrupted run. */
  lemma UndisturbedIsIdeal(w: World, store: Store, sequence: seq<Id>, team: seq<Id>, fate: nat -> Fate)
    requires GenuineStore(w, store)
    requires Elems(sequence) <= Elems(team) && forall k :: fate(k) == Fate(false, None, Some(Completes))
    ensures var p := Loop(w, store, Start(sequence, team), fate).1;
      p.phase.Finished? &&
      p.results == IdealResults(w, sequence, |sequence|) && p.st == IdealState(w, sequence, |sequence|)
  {
    LoopKeeps(w, store, Start(sequence, team), fate);
    LoopFinishes(w, store, Start(sequence, team), fate);
  }

  /** So whatever has happened before, a rerun that nothing befalls ends as if nothing had. */
  lemma RerunEndsIdeally(w: World, history: seq<Event>, team: seq<Id>, requested: seq<Id>, fate: nat -> Fate)
    requires Resolve(team, requested).Some? && forall k :: fate(k) == Fate(false, None, Some(Completes))
    ensures var sequence := Resolve(team, requested).value;
      var p := Loop(w, After(w, history).store, Start(sequence, team), fate).1;
      p.phase.Finished? &&
      p.results == IdealResults(w, sequence, |sequence|) && p.st == IdealState(w, sequence, |sequence|)
  {
    CrashAndResume(w, history);
    UndisturbedIsIdeal(w, After(w, history).store, Resolve(team, requested).value, team, fate);
  }

  /** Every stage before n has its checkpoint, or no agent. */
  ghost predicate Stored(store: Store, sequence: seq<Id>, team: seq<Id>, n: nat)
    requires n <= |sequence|
  {
    forall k :: 0 <= k < n ==> sequence[k] == Id("") || ReadCheckpoint(store, k, sequence[k], sequence, team).Some?
  }

  lemma {:induction false} LoopStores(w: World, store: Store, p: Proc, fate: nat -> Fate)
    requires p.stage <= |p.sequence| && Stored(store, p.sequence, p.team, p.stage)
    ensures var (store', p') := Loop(w, store, p, fate);
      p'.sequence == p.sequence && p'.team == p.team &&
      p'.stage <= |p.sequence| && Stored(store', p.sequence, p.team, p'.stage)
    decreases |p.sequence| - p.stage, p.phase.AtStage?
  {
    if p.phase.AtStage? {
      var (store', q) := Pass(w, store, p, fate(p.stage));
      LoopStores(w, store', q, fate);
    }
  }

  /** With the checkpoints in place, even a run whose session is already aborted gets that far. */
  lemma {:induction false} ReplayReaches(w: World, store: Store, p: Proc, n: nat, fate: nat -> Fate)
    requires p.stage <= n <= |p.sequence| && p.phase.AtStage? && Stored(store, p.sequence, p.team, n)
    requires forall k :: fate(k).aborted
    ensures Loop(w, store, p, fate).0 == store && Loop(w, store, p, fate).1.stage >= n
    decreases |p.sequence| - p.stage
  {
    var (store', q) := Pass(w, store, p, fate(p.stage));
    if p.stage < n {
      ReplayReaches(w, store, q, n, fate);
    } else if q.phase.AtStage? {
      ReplayReaches(w, store, q, q.stage, fate) by { assert Stored(store, p.sequence, p.team, q.stage); }
    }
  }

  /** A rerun resumes after the last completed stage: it gets there without starting any agent. */
  lemma Resumes(w: World, store: Store, team: seq<Id>, sequence: seq<Id>, first: nat -> Fate, second: nat -> Fate)
    requires forall k :: second(k).aborted
    ensures var (stored, p) := Loop(w, store, Start(sequence, team), first);
      Loop(w, stored, Start(sequence, team), second).0 == stored &&
      Loop(w, stored, Start(sequence, team), second).1.stage >= p.stage
  {
    LoopStores(w, store, Start(sequence, team), first);
    var (stored, p) := Loop(w, store, Start(sequence, team), first);
    ReplayReaches(w, stored, Start(sequence, team), p.stage, second);
  }

  // ---------------------------------------------------------------------------------------------
  // What a run reports and stores
  // ---------------------------------------------------------------------------------------------

  /** The record stored for stage k is of this very stage, agent, sequence and team. */
  ghost predicate OwnRecord(store: Store, sequence: seq<Id>, team: seq<Id>, k: nat)
    requires k < |sequence|
  {
    k in store && store[k].stage == k && store[k].agentId == sequence[k] &&
    store[k].sequence == sequence && store[k].team == team
  }

  /** A run gets past stage k: there is no agent, or a record of its own, or the agent completes. */
  ghost predicate Passes(store: Store, sequence: seq<Id>, team: seq<Id>, k: nat, f: Fate)
    requires k < |sequence|
  {
    sequence[k] == Id("") || OwnRecord(store, sequence, team, k) ||
    (!f.aborted && sequence[k] in team && f.spawnError.None? &&
     f.ending.Some? && (f.ending.value.Completes? || f.ending.value.exit == Completed))
  }

  /** Stage k is one the run completed itself. */
  ghost predicate Ran(store: Store, sequence: seq<Id>, team: seq<Id>, n: nat, k: nat) {
    k < n <= |sequence| && sequence[k] != Id("") && !OwnRecord(store, sequence, team, k)
  }

  /** The record of a completed stage, in the uninterrupted run. */
  function IdealCheckpoint(w: World, sequence: seq<Id>, team: seq<Id>, k: nat): Checkpoint
    requires k < |sequence|
  {
    Checkpoint(k, sequence[k], sequence, team, IdealResult(w, sequence, k),
               Lookup(IdealState(w, sequence, k + 1).browsers, sequence[k]))
  }

  ghost predicate WrittenAt(w: World, before: Store, after: Store, sequence: seq<Id>, team: seq<Id>, n: nat, k: nat) {
    if Ran(before, sequence, team, n, k) then k in after && after[k] == IdealCheckpoint(w, sequence, team, k)
    else (k in after <==> k in before) && (k in after ==> after[k] == before[k])
  }

  /** After n stages: exactly those the run completed itself have been stored, over what was there. */
  ghost predicate Written(w: World, before: Store, after: Store, sequence: seq<Id>, team: seq<Id>, n: nat) {
    forall k: nat :: WrittenAt(w, before, after, sequence, team, n, k)
  }

  /** How a run ends at its last stage, after the ideal results of those before: by an abort without a
      further result, else with the one that says what went wrong there; the process may also die while
      the agent is at work. */
  ghost predicate EndsAs(done: seq<Result>, id: Id, team: seq<Id>, f: Fate, p: Proc) {
    if f.aborted then p.phase.Stopped? && p.results == done
    else if id !in team then
      p.phase.Stopped? && p.results == done + [Result(id, Errored, "", None, Some(UnknownAgent(id)))]
    else if f.spawnError.Some? then
      p.phase.Stopped? && p.results == done + [Result(id, Errored, "", None, Some(SpawnFailed(f.spawnError.value)))]
    else
      match f.ending
      case None => p.phase.Running? && p.results == done
      case Some(Completes) => false
      case Some(EndsOtherwise(exit, text, browser, error)) =>
        p.phase.Stopped? && p.results == done + [Result(id, exit, text, browser, error)]
  }

  /** What a run of the sequence reports, by what befalls it and what was stored before. */
  ghost predicate Reports(w: World, store: Store, sequence: seq<Id>, team: seq<Id>, fate: nat -> Fate, p: Proc) {
    p.sequence == sequence && p.team == team && p.stage <= |sequence| &&
    (forall k :: 0 <= k < p.stage ==> Passes(store, sequence, team, k, fate(k))) &&
    if p.stage == |sequence| then p.phase.Finished? && p.results == IdealResults(w, sequence, p.stage)
    else
      !Passes(store, sequence, team, p.stage, fate(p.stage)) &&
      EndsAs(IdealResults(w, sequence, p.stage), sequence[p.stage], team, fate(p.stage), p)
  }

  /** Where the run has got to. */
  ghost predicate Reached(w: World, before: Store, store: Store, p: Proc, fate: nat -> Fate) {
    GenuineStore(w, store) && OnTrack(w, p) && p.phase.AtStage? &&
    Written(w, before, store, p.sequence, p.team, p.stage) &&
    forall k :: 0 <= k < p.stage ==> Passes(before, p.sequence, p.team, k, fate(k))
  }

  /** Stage n is still as it was. */
  lemma NotYetWritten(w: World, before: Store, store: Store, sequence: seq<Id>, team: seq<Id>, n: nat)
    requires n < |sequence| && Written(w, before, store, sequence, team, n)
    ensures OwnRecord(store, sequence, team, n) <==> OwnRecord(before, sequence, team, n)
  {
    assert WrittenAt(w, before, store, sequence, team, n, n);
  }

  /** A stage the run does not complete itself leaves the store. */
  lemma WrittenOver(w: World, before: Store, store: Store, sequence: seq<Id>, team: seq<Id>, n: nat, next: nat)
    requires n < |sequence| && Written(w, before, store, sequence, team, n)
    requires next == n + 1 && !Ran(before, sequence, team, next, n)
    ensures Written(w, before, store, sequence, team, next)
  {
    forall k: nat ensures WrittenAt(w, before, store, sequence, team, next, k) {
      assert WrittenAt(w, before, store, sequence, team, n, k);
    }
  }

  lemma WrittenOne(w: World, before: Store, store: Store, sequence: seq<Id>, team: seq<Id>, n: nat, next: nat,
                   after: Store)
    requires n < |sequence| && Written(w, before, store, sequence, team, n)
    requires next == n + 1 && Ran(before, sequence, team, next, n)
    requires after == store[n := IdealCheckpoint(w, sequence, team, n)]
    ensures Written(w, before, after, sequence, team, next)
  {
    forall k: nat ensures WrittenAt(w, before, after, sequence, team, next, k) {
      assert WrittenAt(w, before, store, sequence, team, n, k);
    }
  }

  lemma ReachedNext(w: World, before: Store, p: Proc, fate: nat -> Fate, after: Store, q: Proc)
    requires p.stage < |p.sequence| && Passes(before, p.sequence, p.team, p.stage, fate(p.stage))
    requires forall k :: 0 <= k < p.stage ==> Passes(before, p.sequence, p.team, k, fate(k))
    requires GenuineStore(w, after) && OnTrack(w, q) && q.phase.AtStage?
    requires q.sequence == p.sequence && q.team == p.team && q.stage == p.stage + 1
    requires Written(w, before, after, p.sequence, p.team, p.stage + 1)
    ensures Reached(w, before, after, q, fate)
  {}

  lemma PassedOver(w: World, store: Store, p: Proc, f: Fate)
    requires p.phase.AtStage? && p.stage < |p.sequence|
    requires p.sequence[p.stage] == Id("") || OwnRecord(store, p.sequence, p.team, p.stage)
    ensures var (store', q) := Pass(w, store, p, f); store' == store && q.phase.AtStage? && q.stage == p.stage + 1
  {}

  lemma OverReached(w: World, before: Store, store: Store, p: Proc, fate: nat -> Fate, q: Proc)
    requires Reached(w, before, store, p, fate) && p.stage < |p.sequence|
    requires Passes(before, p.sequence, p.team, p.stage, fate(p.stage))
    requires !Ran(before, p.sequence, p.team, p.stage + 1, p.stage)
    requires OnTrack(w, q) && q.phase.AtStage? && q.sequence == p.sequence && q.team == p.team && q.stage == p.stage + 1
    ensures Reached(w, before, store, q, fate)
  {
    WrittenOver(w, before, store, p.sequence, p.team, p.stage, p.stage + 1);
    ReachedNext(w, before, p, fate, store, q);
  }

  /** A stage without an agent, or with a record of its own, takes the run a stage further. */
  lemma OverReports(w: World, before: Store, store: Store, p: Proc, fate: nat -> Fate)
    requires Reached(w, before, store, p, fate) && p.stage < |p.sequence|
    requires p.sequence[p.stage] == Id("") || OwnRecord(store, p.sequence, p.team, p.stage)
    requires Passes(before, p.sequence, p.team, p.stage, fate(p.stage))
    requires !Ran(before, p.sequence, p.team, p.stage + 1, p.stage)
    ensures var (store', q) := Pass(w, store, p, fate(p.stage));
      q.phase.AtStage? && q.sequence == p.sequence && q.team == p.team && Reached(w, before, store', q, fate)
  {
    PassedOver(w, store, p, fate(p.stage));
    PassKeeps(w, store, p, fate(p.stage));
    OverReached(w, before, store, p, fate, Pass(w, store, p, fate(p.stage)).1);
  }

  /** What a stage that completes computes. */
  lemma PassCompletes(w: World, store: Store, p: Proc, f: Fate, running: Proc, r: Result)
    requires p.phase.AtStage? && p.stage < |p.sequence| && p.sequence[p.stage] != Id("")
    requires !OwnRecord(store, p.sequence, p.team, p.stage) && Passes(store, p.sequence, p.team, p.stage, f)
    requires running == p.(phase := Running(SpawnPrompt(w.base(p.sequence[p.stage]), [], p.st)))
    requires r == w.Completion(p.sequence[p.stage], running.phase.prompt)
    ensures Pass(w, store, p, f) ==
      (store[p.stage := NewCheckpoint(running, RecordOne(p.st, r), r)],
       p.(stage := p.stage + 1, results := p.results + [r], st := RecordOne(p.st, r)))
  {
    assert Arrive(w, store, p, f.aborted, f.spawnError) == running;
  }

  lemma StoredIdeal(w: World, p: Proc, r: Result)
    requires OnTrack(w, p) && p.phase.Running? && r == w.Completion(p.sequence[p.stage], p.phase.prompt)
    ensures NewCheckpoint(p, RecordOne(p.st, r), r) == IdealCheckpoint(w, p.sequence, p.team, p.stage)
  {
    CompletionKeeps(w, p, r);
  }

  lemma RanWritten(w: World, before: Store, store: Store, p: Proc, f: Fate, running: Proc, r: Result)
    requires OnTrack(w, running) && p.phase.AtStage? && p.stage < |p.sequence| && p.sequence[p.stage] != Id("")
    requires !OwnRecord(store, p.sequence, p.team, p.stage) && Passes(store, p.sequence, p.team, p.stage, f)
    requires Ran(before, p.sequence, p.team, p.stage + 1, p.stage)
    requires Written(w, before, store, p.sequence, p.team, p.stage)
    requires running == p.(phase := Running(SpawnPrompt(w.base(p.sequence[p.stage]), [], p.st)))
    requires r == w.Completion(p.sequence[p.stage], running.phase.prompt)
    ensures var (after, q) := Pass(w, store, p, f);
      q == p.(stage := p.stage + 1, results := p.results + [r], st := RecordOne(p.st, r)) &&
      Written(w, before, after, p.sequence, p.team, p.stage + 1)
  {
    PassCompletes(w, store, p, f, running, r);
    StoredIdeal(w, running, r);
    WrittenOne(w, before, store, p.sequence, p.team, p.stage, p.stage + 1, Pass(w, store, p, f).0);
  }

  /** So does one that completes, which is stored. */
  lemma RanReports(w: World, before: Store, store: Store, p: Proc, fate: nat -> Fate)
    requires Reached(w, before, store, p, fate) && p.stage < |p.sequence| && p.sequence[p.stage] != Id("")
    requires !OwnRecord(store, p.sequence, p.team, p.stage) && !OwnRecord(before, p.sequence, p.team, p.stage)
    requires Passes(before, p.sequence, p.team, p.stage, fate(p.stage))
    ensures var (after, q) := Pass(w, store, p, fate(p.stage));
      q.phase.AtStage? && q.sequence == p.sequence && q.team == p.team && Reached(w, before, after, q, fate)
  {
    var running := p.(phase := Running(SpawnPrompt(w.base(p.sequence[p.stage]), [], p.st)));
    var r := w.Completion(p.sequence[p.stage], running.phase.prompt);
    RanWritten(w, before, store, p, fate(p.stage), running, r);
    PassKeeps(w, store, p, fate(p.stage));
    ReachedNext(w, before, p, fate, Pass(w, store, p, fate(p.stage)).0, Pass(w, store, p, fate(p.stage)).1);
  }

  /** A stage the run cannot get past ends it. */
  lemma EndReports(w: World, before: Store, store: Store, p: Proc, fate: nat -> Fate)
    requires Reached(w, before, store, p, fate) && p.stage < |p.sequence|
    requires !OwnRecord(store, p.sequence, p.team, p.stage)
    requires !Passes(before, p.sequence, p.team, p.stage, fate(p.stage))
    ensures var (store', q) := Pass(w, store, p, fate(p.stage));
      !q.phase.AtStage? && store' == store && Reports(w, before, p.sequence, p.team, fate, q)
  {}

  /** One pass takes the run a stage further, or ends it as its fate says. */
  lemma PassReports(w: World, before: Store, store: Store, p: Proc, fate: nat -> Fate)
    requires Reached(w, before, store, p, fate) && p.stage < |p.sequence|
    ensures var (store', q) := Pass(w, store, p, fate(p.stage));
      if q.phase.AtStage? then q.sequence == p.sequence && q.team == p.team && Reached(w, before, store', q, fate)
      else store' == store && Reports(w, before, p.sequence, p.team, fate, q)
  {
    NotYetWritten(w, before, store, p.sequence, p.team, p.stage);
    if p.sequence[p.stage] == Id("") || OwnRecord(before, p.sequence, p.team, p.stage) {
      OverReports(w, before, store, p, fate);
    } else if Passes(before, p.sequence, p.team, p.stage, fate(p.stage)) {
      RanReports(w, before, store, p, fate);
    } else {
      EndReports(w, before, store, p, fate);
    }
  }

  lemma {:induction false} LoopReports(w: World, before: Store, store: Store, p: Proc, fate: nat -> Fate)
    requires Reached(w, before, store, p, fate)
    ensures var (store', q) := Loop(w, store, p, fate);
      Reports(w, before, p.sequence, p.team, fate, q) && Written(w, before, store', p.sequence, p.team, q.stage)
    decreases |p.sequence| - p.stage
  {
    var (store', q) := Pass(w, store, p, fate(p.stage));
    if p.stage < |p.sequence| {
      PassReports(w, before, store, p, fate);
      if q.phase.AtStage? { LoopReports(w, before, store', q, fate); }
    }
  }

  /** A run from a genuine store reports, by its fate alone, the ideal results of the stages it gets past
      and how it ends; it gets past a stage only without an agent, by a record of its own stage, agent,
      sequence and team, or by completing it; and what it completes, and nothing else, is stored. */
  lemma RunReports(w: World, store: Store, sequence: seq<Id>, team: seq<Id>, fate: nat -> Fate)
    requires GenuineStore(w, store)
    ensures var (store', p) := Loop(w, store, Start(sequence, team), fate);
      Reports(w, store, sequence, team, fate, p) && Written(w, store, store', sequence, team, p.stage)
  {
    LoopReports(w, store, store, Start(sequence, team), fate);
  }

  /** The stored entries of one task and session in the context store. */
  class ContextStore {
    var entries: Store

    constructor ()
      ensures entries == map[]
    {
      entries := map[];
    }

    method Put(stage: nat, record: Checkpoint)
      modifies this
      ensures entries == old(entries)[stage := record]
    {
      entries := entries[stage := record];
    }
  }

  /** The loop body for a stage that has an agent. */
  method RunStage(w: World, context: ContextStore, p: Proc, f: Fate) returns (q: Proc)
    requires p.phase.AtStage? && p.stage < |p.sequence| && p.sequence[p.stage] != Id("")
    modifies context
    ensures (context.entries, q) == Pass(w, old(context.entries), p, f)
  {
    var agentId := p.sequence[p.stage];
    q := p;
    var checkpoint := ReadCheckpoint(context.entries, p.stage, agentId, p.sequence, p.team);
    if checkpoint.Some? {
      var cp := checkpoint.value;
      q := q.(results := q.results + [cp.result], stage := q.stage + 1);
      if cp.result.finalText != "" {
        q := q.(st := q.st.(outputs := q.st.outputs.Put(cp.result.agentId, cp.result.finalText)));
      }
      if cp.browserState.Some? {
        q := q.(st := q.st.(browsers := q.st.browsers.Put(cp.result.agentId, cp.browserState.value)));
      }
      return;
    }
    if f.aborted { return q.(phase := Stopped); }
    if agentId !in p.team {
      return q.(phase := Stopped, results := q.results + [FailedSpawn(agentId, UnknownAgent(agentId))]);
    }
    if f.spawnError.Some? {
      return q.(phase := Stopped, results := q.results + [FailedSpawn(agentId, SpawnFailed(f.spawnError.value))]);
    }
    var prompt := BuildPrompt(w.base(agentId), [], p.st);
    if f.ending.None? { return q.(phase := Running(prompt)); }
    q := FinishStage(w, context, q, prompt, f.ending.value);
  }

  /** The end of the agent's run: record, and checkpoint what completed. */
  method FinishStage(w: World, context: ContextStore, p: Proc, prompt: Prompt, ending: Ending) returns (q: Proc)
    requires p.stage < |p.sequence|
    modifies context
    ensures (context.entries, q) == Settle(w, old(context.entries), p.(phase := Running(prompt)), ending)
  {
    var agentId := p.sequence[p.stage];
    var result := EndResult(w, agentId, prompt, ending);
    var st := RecordCompletedStageOutputs(p.st, [result]);
    q := p.(results := p.results + [result], st := st);
    if result.exit == Completed {
      var browserState := if agentId in st.browsers.vals then Some(st.browsers.vals[agentId]) else None;
      context.Put(p.stage, Checkpoint(p.stage, agentId, p.sequence, p.team, result, browserState));
      q := q.(stage := p.stage + 1, phase := AtStage);
    } else {
      q := q.(phase := Stopped);
    }
  }

  /** The stage loop. */
  method RunStages(w: World, context: ContextStore, start: Proc, fate: nat -> Fate) returns (p: Proc)
    requires start.stage <= |start.sequence|
    modifies context
    ensures (context.entries, p) == Loop(w, old(context.entries), start, fate)
  {
    p := start;
    while p.phase == AtStage
      invariant p.stage <= |p.sequence|
      invariant Loop(w, context.entries, p, fate) == Loop(w, old(context.entries), start, fate)
      decreases |p.sequence| - p.stage, p.phase.AtStage?
    {
      if p.stage == |p.sequence| {
        p := p.(phase := Finished);
      } else if p.sequence[p.stage] == Id("") {
        p := p.(stage := p.stage + 1);
      } else {
        p := RunStage(w, context, p, fate(p.stage));
      }
    }
  }

  /** The requested agents that are not in the team, each once, in order. */
  function Unknown(team: seq<Id>, requested: seq<Id>): seq<Id> {
    Without(Firsts(requested), Elems(team))
  }

  /** `runSlimTask`: the results, and how far the run came; None when the sequence does not resolve, which
      is reported as the failure of a stand-in. */
  method RunSlimTask(w: World, context: ContextStore, team: seq<Id>, requested: seq<Id>, fate: nat -> Fate)
    returns (results: seq<Result>, r: Option<Proc>)
    modifies context
    ensures Resolve(team, requested).None? ==>
      r == None && context.entries == old(context.entries) &&
      results == [Result(Id("slim-sequence"), Errored, "", None, Some(UnknownSequence(Unknown(team, requested))))]
    ensures Resolve(team, requested).Some? ==>
      r.Some? && results == r.value.results && (context.entries, r.value) ==
        Loop(w, old(context.entries), Start(Resolve(team, requested).value, team), fate)
    ensures GenuineStore(w, old(context.entries)) ==> GenuineStore(w, context.entries)
    ensures GenuineStore(w, old(context.entries)) && r.Some? ==>
      OnTrack(w, r.value) &&
      Reports(w, old(context.entries), Resolve(team, requested).value, team, fate, r.value) &&
      Written(w, old(context.entries), context.entries, Resolve(team, requested).value, team, r.value.stage)
  {
    var resolved := Resolve(team, requested);
    if resolved.None? {
      results := [FailedSpawn(Id("slim-sequence"), UnknownSequence(Unknown(team, requested)))];
      return results, None;
    }
    var p := Start(resolved.value, team);
    if GenuineStore(w, context.entries) {
      LoopKeeps(w, context.entries, p, fate);
      RunReports(w, context.entries, resolved.value, team, fate);
    }
    p := RunStages(w, context, p, fate);
    results, r := p.results, Some(p);
  }
}
