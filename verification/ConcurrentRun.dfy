/** A concurrent task run: the planner's assignments, the waves, and what flows between them. */
module ConcurrentRun {
  import opened Collections
  import opened RunState
  import opened Waves

  // ---------------------------------------------------------------------------------------------
  // The planner's answer
  // ---------------------------------------------------------------------------------------------

  /** One entry of the planner's JSON; a field that is absent or not of the expected type is None. */
  datatype RawAssignment = RawAssignment(agentId: Option<Id>, subprompt: Option<string>,
                                         dependsOn: Option<seq<Option<Id>>>)

  /** The entries of a raw dependency list that name team members. */
  function KnownDeps(raw: seq<Option<Id>>, team: seq<Id>): (deps: seq<Id>)
    ensures forall d :: d in deps <==> d in team && Some(d) in raw
  {
    if raw == [] then []
    else
      var last := raw[|raw| - 1];
      assert raw == raw[..|raw| - 1] + [last];
      KnownDeps(raw[..|raw| - 1], team) + (if last.Some? && last.value in team then [last.value] else [])
  }

  /** The names of a list come out in the order of the list: what survives of a beginning begins what
      survives of the whole. */
  lemma {:induction false} KnownDepsInOrder(raw: seq<Option<Id>>, team: seq<Id>, n: nat)
    requires n <= |raw|
    ensures KnownDeps(raw[..n], team) <= KnownDeps(raw, team)
  {
    if n == |raw| {
      assert raw[..n] == raw;
    } else {
      var front := raw[..|raw| - 1];
      assert front[..n] == raw[..n];
      KnownDepsInOrder(front, team, n);
    }
  }

  /** And each as often as it is there. */
  lemma {:induction false} KnownDepsCount(raw: seq<Option<Id>>, team: seq<Id>, d: Id)
    ensures Occurrences(KnownDeps(raw, team), d) == if d in team then Occurrences(raw, Some(d)) else 0
  {
    if raw != [] {
      var front, last := raw[..|raw| - 1], raw[|raw| - 1];
      KnownDepsCount(front, team, d);
      if last.Some? && last.value in team {
        OccursLast(KnownDeps(front, team), last.value, d);
      } else {
        assert KnownDeps(raw, team) == KnownDeps(front, team);
      }
    }
  }

  /** What becomes of one entry: it is accepted exactly if its agent is in the team and it has a
      subprompt. */
  function Cleaned(raw: RawAssignment, team: seq<Id>, taskPrompt: string): (a: Option<Assignment>)
    ensures a.Some? <==> raw.agentId.Some? && raw.subprompt.Some? && raw.agentId.value in team
    ensures a.Some? ==> Some(a.value.agentId) == raw.agentId && a.value.dependsOn != Some([])
    ensures a.Some? ==>
      a.value.subprompt == if raw.subprompt == Some("") then taskPrompt else raw.subprompt.value
    ensures a.Some? ==> a.value.Deps() == if raw.dependsOn.Some? then KnownDeps(raw.dependsOn.value, team) else []
  {
    if raw.agentId.None? || raw.subprompt.None? || raw.agentId.value !in team then None
    else
      var deps := if raw.dependsOn.Some? then KnownDeps(raw.dependsOn.value, team) else [];
      Some(Assignment(raw.agentId.value, if raw.subprompt.value == "" then taskPrompt else raw.subprompt.value,
                      if deps == [] then None else Some(deps)))
  }

  function CleanedAll(parsed: seq<RawAssignment>, team: seq<Id>, taskPrompt: string): (as': seq<Assignment>)
    ensures forall a :: a in as' ==> a.agentId in team
  {
    if parsed == [] then []
    else
      var last := Cleaned(parsed[|parsed| - 1], team, taskPrompt);
      CleanedAll(parsed[..|parsed| - 1], team, taskPrompt) + (if last.Some? then [last.value] else [])
  }

  /** The places of the entries that are accepted, in order. */
  ghost predicate Accepts(at: seq<nat>, parsed: seq<RawAssignment>, team: seq<Id>, taskPrompt: string) {
    (forall k :: 0 <= k < |at| ==> at[k] < |parsed| && Cleaned(parsed[at[k]], team, taskPrompt).Some?) &&
    (forall k, l :: 0 <= k < l < |at| ==> at[k] < at[l]) &&
    forall i :: 0 <= i < |parsed| && Cleaned(parsed[i], team, taskPrompt).Some? ==> i in at
  }

  ghost predicate AcceptedAs(at: seq<nat>, parsed: seq<RawAssignment>, team: seq<Id>, taskPrompt: string,
                            assignments: seq<Assignment>)
  {
    Accepts(at, parsed, team, taskPrompt) && |assignments| == |at| &&
    forall k :: 0 <= k < |at| ==> Some(assignments[k]) == Cleaned(parsed[at[k]], team, taskPrompt)
  }

  lemma AcceptedNext(before: seq<nat>, front: seq<RawAssignment>, raw: RawAssignment, team: seq<Id>, taskPrompt: string,
                     assignments: seq<Assignment>, at: seq<nat>, all: seq<Assignment>)
    requires AcceptedAs(before, front, team, taskPrompt, assignments)
    requires at == before + if Cleaned(raw, team, taskPrompt).Some? then [|front|] else []
    requires all == assignments +
      if Cleaned(raw, team, taskPrompt).Some? then [Cleaned(raw, team, taskPrompt).value] else []
    ensures AcceptedAs(at, front + [raw], team, taskPrompt, all)
  {
    var parsed := front + [raw];
    forall i | 0 <= i < |parsed| && Cleaned(parsed[i], team, taskPrompt).Some? ensures i in at {
      if i < |front| { assert front[i] == parsed[i] && i in before; } else { assert at[|before|] == i; }
    }
  }

  /** The assignments are what becomes of the accepted entries, in their order. */
  lemma {:induction false} CleanedInOrder(parsed: seq<RawAssignment>, team: seq<Id>, taskPrompt: string)
    returns (at: seq<nat>)
    ensures AcceptedAs(at, parsed, team, taskPrompt, CleanedAll(parsed, team, taskPrompt))
  {
    at := [];
    if parsed != [] {
      var n := |parsed| - 1;
      var front := parsed[..n];
      assert parsed == front + [parsed[n]];
      var before := CleanedInOrder(front, team, taskPrompt);
      at := before + (if Cleaned(parsed[n], team, taskPrompt).Some? then [n] else []);
      AcceptedNext(before, front, parsed[n], team, taskPrompt, CleanedAll(front, team, taskPrompt), at,
                   CleanedAll(parsed, team, taskPrompt));
    }
  }

  method FilterDeps(list: seq<Option<Id>>, team: seq<Id>) returns (dependsOn: seq<Id>)
    ensures dependsOn == KnownDeps(list, team)
  {
    dependsOn := [];
    for j := 0 to |list|
      invariant dependsOn == KnownDeps(list[..j], team)
    {
      assert list[..j + 1][..j] == list[..j];
      if list[j].Some? && list[j].value in team { dependsOn := dependsOn + [list[j].value]; }
    }
    assert list[..|list|] == list;
  }

  /** The validation loop of `planAssignments`; a subprompt is already trimmed. */
  method ValidateAssignments(parsed: seq<RawAssignment>, team: seq<Id>, taskPrompt: string)
    returns (assignments: seq<Assignment>)
    ensures assignments == CleanedAll(parsed, team, taskPrompt)
  {
    assignments := [];
    for i := 0 to |parsed|
      invariant assignments == CleanedAll(parsed[..i], team, taskPrompt)
    {
      var raw := parsed[i];
      assert parsed[..i + 1][..i] == parsed[..i];
      if raw.agentId.None? || raw.subprompt.None? { continue; }
      if raw.agentId.value !in team { continue; }
      var dependsOn: seq<Id> := [];
      if raw.dependsOn.Some? { dependsOn := FilterDeps(raw.dependsOn.value, team); }
      assignments := assignments + [Assignment(raw.agentId.value,
                                               if raw.subprompt.value == "" then taskPrompt else raw.subprompt.value,
                                               if |dependsOn| > 0 then Some(dependsOn) else None)];
    }
    assert parsed[..|parsed|] == parsed;
  }

  // ---------------------------------------------------------------------------------------------
  // The run
  // ---------------------------------------------------------------------------------------------

  /** What happens to one agent of a wave: it cannot be spawned, its run ends in a result, or the run
      itself throws, which makes the whole task throw. */
  datatype Outcome =
    | SpawnFails(reason: string)
    | Ends(exit: ExitReason, finalText: string, browser: Option<Browser>, error: Option<Failure>)
    | Throws

  /** The environment: what an agent does with its prompt. */
  type Env = (Id, Prompt) -> Outcome

  /** One agent spawned, in which wave, with which prompt. */
  datatype Spawn = Spawn(wave: nat, id: Id, prompt: Prompt)

  /** What is observable of a run: every spawn, the results it returns, and whether it threw instead. */
  datatype Log = Log(spawns: seq<Spawn>, results: seq<Result>, threw: bool)

  /** `assignments` is empty for a team run without a planner. */
  datatype Plan = Plan(team: seq<Id>, assignments: seq<Assignment>, taskPrompt: string) {
    function PlanWaves(): seq<seq<Id>> {
      if assignments != [] then WavesOf(assignments) else [team]
    }

    /** The maps the run looks agents up in, and `agentDefs` once the planner has chosen. */
    function PlanCrew(): Crew {
      var m := Index(assignments);
      Crew(if assignments == [] then team else Without(team, Elems(team) - m.vals.Keys),
           map id | id in m.vals :: m.vals[id].subprompt,
           map id | id in m.vals :: m.vals[id].Deps(),
           taskPrompt)
    }
  }

  datatype Crew = Crew(agents: seq<Id>, subprompts: map<Id, string>, dependencies: map<Id, seq<Id>>,
                       taskPrompt: string) {
    function Base(id: Id): string {
      if id in subprompts then subprompts[id] else taskPrompt
    }

    function DependsOn(id: Id): seq<Id> {
      if id in dependencies then dependencies[id] else []
    }

    function PromptFor(id: Id, st: ExecutionState): Prompt {
      SpawnPrompt(Base(id), DependsOn(id), st)
    }
  }

  /** One wave so far: who was spawned, the results of those that could not be, the live results. */
  datatype WaveRun = WaveRun(spawns: seq<Spawn>, failed: seq<Result>, live: seq<Result>, threw: bool)

  function Member(acc: WaveRun, k: nat, id: Id, prompt: Prompt, o: Outcome): WaveRun {
    var spawned := acc.(spawns := acc.spawns + [Spawn(k, id, prompt)]);
    match o
    case SpawnFails(reason) => spawned.(failed := acc.failed + [FailedSpawn(id, SpawnFailed(reason))])
    case Ends(exit, text, browser, error) => spawned.(live := acc.live + [Result(id, exit, text, browser, error)])
    case Throws => spawned.(threw := true)
  }

  function Members(c: Crew, env: Env, k: nat, ids: seq<Id>, st: ExecutionState): WaveRun {
    if ids == [] then WaveRun([], [], [], false)
    else
      var id := ids[|ids| - 1];
      var prompt := c.PromptFor(id, st);
      Member(Members(c, env, k, ids[..|ids| - 1], st), k, id, prompt, env(id, prompt))
  }

  /** The members of a wave that are agents of the run. */
  function Known(ids: seq<Id>, agents: seq<Id>): seq<Id> {
    Without(ids, Elems(ids) - Elems(agents))
  }

  /** How far the run has come. */
  datatype Progress = Progress(st: ExecutionState, log: Log)

  /** One wave: all members are spawned with prompts from the same state, then run together. */
  function Advance(c: Crew, env: Env, k: nat, ids: seq<Id>, s: Progress): Progress {
    var wave := Members(c, env, k, ids, s.st);
    var spawns := s.log.spawns + wave.spawns;
    if wave.threw then Progress(s.st, Log(spawns, s.log.results, true))
    else
      var results := wave.failed + wave.live;
      Progress(Record(s.st, results), Log(spawns, s.log.results + results, false))
  }

  /** What comes of wave k; `aborted(k)` is what the abort check before it sees. */
  function Turn(c: Crew, env: Env, aborted: nat -> bool, waves: seq<seq<Id>>, k: nat, s: Progress): Progress
    requires k < |waves|
  {
    if s.log.threw || aborted(k) then s else Advance(c, env, k, Known(waves[k], c.agents), s)
  }

  /** The waves from k on. */
  function RunFrom(c: Crew, env: Env, aborted: nat -> bool, waves: seq<seq<Id>>, k: nat, s: Progress): Progress
    requires k <= |waves|
    decreases |waves| - k
  {
    if k == |waves| then s else RunFrom(c, env, aborted, waves, k + 1, Turn(c, env, aborted, waves, k, s))
  }

  function Outset(): Progress {
    Progress(Fresh(), Log([], [], false))
  }

  function Run(p: Plan, env: Env, aborted: nat -> bool): Log {
    RunFrom(p.PlanCrew(), env, aborted, p.PlanWaves(), 0, Outset()).log
  }

  method RunWave(c: Crew, env: Env, k: nat, ids: seq<Id>, s: Progress) returns (next: Progress)
    ensures next == Advance(c, env, k, ids, s)
  {
    var wave := WaveRun([], [], [], false);
    for i := 0 to |ids|
      invariant wave == Members(c, env, k, ids[..i], s.st)
    {
      var id := ids[i];
      assert ids[..i + 1][..i] == ids[..i];
      var prompt := BuildPrompt(c.Base(id), c.DependsOn(id), s.st);
      wave := Member(wave, k, id, prompt, env(id, prompt));
    }
    assert ids[..|ids|] == ids;
    if wave.threw {
      return Progress(s.st, Log(s.log.spawns + wave.spawns, s.log.results, true));
    }
    var waveResults := wave.failed + wave.live;
    var st := RecordCompletedStageOutputs(s.st, waveResults);
    next := Progress(st, Log(s.log.spawns + wave.spawns, s.log.results + waveResults, false));
  }

  method RunWaves(c: Crew, env: Env, aborted: nat -> bool, waves: seq<seq<Id>>) returns (s: Progress)
    ensures s == RunFrom(c, env, aborted, waves, 0, Outset())
  {
    s := Progress(Fresh(), Log([], [], false));
    var k := 0;
    while k < |waves|
      invariant k <= |waves|
      invariant RunFrom(c, env, aborted, waves, k, s) == RunFrom(c, env, aborted, waves, 0, Outset())
    {
      if !s.log.threw && !aborted(k) {
        s := RunWave(c, env, k, Known(waves[k], c.agents), s);
      }
      k := k + 1;
    }
  }

  method RunConcurrentTask(p: Plan, env: Env, aborted: nat -> bool) returns (log: Log)
    ensures log == Run(p, env, aborted)
  {
    var waves: seq<seq<Id>> := [p.team];
    if |p.assignments| > 0 {
      waves := TopoSortWaves(p.assignments);
    }
    var s := RunWaves(p.PlanCrew(), env, aborted, waves);
    log := s.log;
  }

  // ---------------------------------------------------------------------------------------------
  // One result for each agent
  // ---------------------------------------------------------------------------------------------

  function AgentsOf(results: seq<Result>): seq<Id> {
    if results == [] then []
    else AgentsOf(results[..|results| - 1]) + [results[|results| - 1].agentId]
  }

  lemma {:induction false} AgentsConcat(a: seq<Result>, b: seq<Result>)
    ensures AgentsOf(a + b) == AgentsOf(a) + AgentsOf(b)
  {
    if b == [] {
      assert a + b == a;
    } else {
      AgentsConcat(a, b[..|b| - 1]);
      assert (a + b)[..|a + b| - 1] == a + b[..|b| - 1];
    }
  }

  /** Each member of `ids` has exactly one result. */
  ghost predicate Answers(wave: WaveRun, ids: seq<Id>) {
    !wave.threw ==> multiset(AgentsOf(wave.failed)) + multiset(AgentsOf(wave.live)) == multiset(ids)
  }

  lemma MemberAnswers(acc: WaveRun, ids: seq<Id>, k: nat, id: Id, prompt: Prompt, o: Outcome)
    requires Answers(acc, ids)
    ensures Answers(Member(acc, k, id, prompt, o), ids + [id])
  {
    var wave := Member(acc, k, id, prompt, o);
    match o
    case SpawnFails(_) => AgentsConcat(acc.failed, wave.failed[|acc.failed|..]);
    case Ends(_, _, _, _) => AgentsConcat(acc.live, wave.live[|acc.live|..]);
    case Throws =>
  }

  lemma MembersLast(c: Crew, env: Env, k: nat, ids: seq<Id>, id: Id, st: ExecutionState)
    ensures Members(c, env, k, ids + [id], st) ==
      Member(Members(c, env, k, ids, st), k, id, c.PromptFor(id, st), env(id, c.PromptFor(id, st)))
  {
    assert (ids + [id])[..|ids + [id]| - 1] == ids;
  }

  lemma MembersStep(c: Crew, env: Env, k: nat, done: seq<Id>, id: Id, st: ExecutionState)
    requires Answers(Members(c, env, k, done, st), done)
    ensures Answers(Members(c, env, k, done + [id], st), done + [id])
  {
    MembersLast(c, env, k, done, id, st);
    MemberAnswers(Members(c, env, k, done, st), done, k, id, c.PromptFor(id, st), env(id, c.PromptFor(id, st)));
  }

  lemma MembersAnswer(c: Crew, env: Env, k: nat, ids: seq<Id>, st: ExecutionState)
    ensures Answers(Members(c, env, k, ids, st), ids)
  {
    var done: seq<Id> := [];
    for n := 0 to |ids|
      invariant done == ids[..n] && Answers(Members(c, env, k, done, st), done)
    {
      MembersStep(c, env, k, done, ids[n], st);
      done := done + [ids[n]];
    }
    assert done == ids;
  }

  /** The agents of those of the first k waves that are started. */
  function Started(aborted: nat -> bool, waves: seq<seq<Id>>, k: nat): seq<Id>
    requires k <= |waves|
  {
    if k == 0 then [] else Started(aborted, waves, k - 1) + (if aborted(k - 1) then [] else waves[k - 1])
  }

  ghost predicate AllKnown(waves: seq<seq<Id>>, agents: seq<Id>) {
    forall k :: 0 <= k < |waves| ==> Known(waves[k], agents) == waves[k]
  }

  /** The run threw, or its results are one for each of `ids`. */
  ghost predicate Answered(log: Log, ids: seq<Id>) {
    log.threw || multiset(AgentsOf(log.results)) == multiset(ids)
  }

  lemma TurnAnswers(c: Crew, env: Env, aborted: nat -> bool, waves: seq<seq<Id>>, k: nat, s: Progress, started: seq<Id>,
                    next: Progress, further: seq<Id>)
    requires k < |waves| && Known(waves[k], c.agents) == waves[k] && Answered(s.log, started)
    requires next == Turn(c, env, aborted, waves, k, s) && further == started + (if aborted(k) then [] else waves[k])
    ensures Answered(next.log, further)
  {
    if !s.log.threw {
      if aborted(k) {
        assert further == started;
      } else {
        AdvanceAnswers(c, env, k, waves[k], s, started);
      }
    }
  }

  /** What every wave keeps holds at the end. */
  lemma {:induction false} RunKeeps(c: Crew, env: Env, aborted: nat -> bool, waves: seq<seq<Id>>, k: nat, s: Progress,
                                    inv: (nat, Progress) -> bool)
    requires k <= |waves| && inv(k, s)
    requires forall j: nat, t :: j < |waves| && inv(j, t) ==> inv(j + 1, Turn(c, env, aborted, waves, j, t))
    ensures inv(|waves|, RunFrom(c, env, aborted, waves, k, s))
    decreases |waves| - k
  {
    if k < |waves| {
      RunKeeps(c, env, aborted, waves, k + 1, Turn(c, env, aborted, waves, k, s), inv);
    }
  }

  lemma RunAnswers(c: Crew, env: Env, aborted: nat -> bool, waves: seq<seq<Id>>)
    requires AllKnown(waves, c.agents)
    ensures Answered(RunFrom(c, env, aborted, waves, 0, Outset()).log, Started(aborted, waves, |waves|))
  {
    var k, s, started := 0, Outset(), Started(aborted, waves, 0);
    while k < |waves|
      invariant k <= |waves| && Answered(s.log, started) && started == Started(aborted, waves, k)
      invariant RunFrom(c, env, aborted, waves, k, s) == RunFrom(c, env, aborted, waves, 0, Outset())
    {
      var next, further := Turn(c, env, aborted, waves, k, s), started + (if aborted(k) then [] else waves[k]);
      TurnAnswers(c, env, aborted, waves, k, s, started, next, further);
      k, s, started := k + 1, next, further;
    }
  }

  lemma KnownAll(ids: seq<Id>, agents: seq<Id>)
    requires Elems(ids) <= Elems(agents)
    ensures Known(ids, agents) == ids
  {
    WithoutNone(ids, Elems(ids) - Elems(agents));
  }

  lemma AdvanceAnswers(c: Crew, env: Env, k: nat, ids: seq<Id>, s: Progress, started: seq<Id>)
    requires Answered(s.log, started)
    ensures !s.log.threw ==> Answered(Advance(c, env, k, ids, s).log, started + ids)
  {
    MembersAnswer(c, env, k, ids, s.st);
    var wave := Members(c, env, k, ids, s.st);
    AgentsConcat(wave.failed, wave.live);
    AgentsConcat(s.log.results, wave.failed + wave.live);
  }

  /** Every agent the waves name is among the agents of the run. */
  lemma WaveAgentsKnown(p: Plan)
    requires forall a :: a in p.assignments ==> a.agentId in p.team
    ensures AllKnown(p.PlanWaves(), p.PlanCrew().agents)
  {
    var waves := p.PlanWaves();
    forall k | 0 <= k < |waves| ensures Known(waves[k], p.PlanCrew().agents) == waves[k] {
      if p.assignments != [] {
        WithoutFacts(p.team, Elems(p.team) - Index(p.assignments).vals.Keys);
        forall id | id in Elems(waves[k]) ensures id in Elems(p.PlanCrew().agents) {
          WavesPartition(p.assignments);
          PlacedMembers(waves, id);
          IndexMembers(p.assignments, id);
          var i :| 0 <= i < |p.assignments| && p.assignments[i].agentId == id;
          assert p.assignments[i] in p.assignments;
        }
      }
      KnownAll(waves[k], p.PlanCrew().agents);
    }
  }

  lemma {:induction false} AllStarted(aborted: nat -> bool, waves: seq<seq<Id>>, k: nat)
    requires k <= |waves| && forall j :: !aborted(j)
    ensures Started(aborted, waves, k) == Flatten(waves[..k])
  {
    if k > 0 {
      AllStarted(aborted, waves, k - 1);
      assert waves[..k] == waves[..k - 1] + [waves[k - 1]];
      FlattenConcat(waves[..k - 1], [waves[k - 1]]);
      assert Flatten([waves[k - 1]]) == waves[k - 1] + Flatten([]);
    }
  }

  /** Some agent that is spawned makes its run throw. */
  ghost predicate SomeThrows(env: Env, spawns: seq<Spawn>) {
    exists i :: 0 <= i < |spawns| && env(spawns[i].id, spawns[i].prompt).Throws?
  }

  lemma SomeThrowsConcat(env: Env, a: seq<Spawn>, b: seq<Spawn>)
    ensures SomeThrows(env, a + b) <==> SomeThrows(env, a) || SomeThrows(env, b)
  {
    if SomeThrows(env, a) {
      var i :| 0 <= i < |a| && env(a[i].id, a[i].prompt).Throws?;
      assert (a + b)[i] == a[i];
    }
    if SomeThrows(env, b) {
      var i :| 0 <= i < |b| && env(b[i].id, b[i].prompt).Throws?;
      assert (a + b)[|a| + i] == b[i];
    }
  }

  lemma {:induction false} MembersThrow(c: Crew, env: Env, k: nat, ids: seq<Id>, st: ExecutionState)
    ensures Members(c, env, k, ids, st).threw <==> SomeThrows(env, Members(c, env, k, ids, st).spawns)
  {
    if ids != [] {
      var n := |ids| - 1;
      MembersThrow(c, env, k, ids[..n], st);
      var prompt := c.PromptFor(ids[n], st);
      var one := [Spawn(k, ids[n], prompt)];
      assert one[0] == Spawn(k, ids[n], prompt);
      SomeThrowsConcat(env, Members(c, env, k, ids[..n], st).spawns, one);
    }
  }

  ghost predicate ThrowsExactly(env: Env, log: Log) {
    log.threw <==> SomeThrows(env, log.spawns)
  }

  lemma TurnThrows(c: Crew, env: Env, aborted: nat -> bool, waves: seq<seq<Id>>, k: nat, s: Progress)
    requires k < |waves| && ThrowsExactly(env, s.log)
    ensures ThrowsExactly(env, Turn(c, env, aborted, waves, k, s).log)
  {
    var ids := Known(waves[k], c.agents);
    MembersThrow(c, env, k, ids, s.st);
    SomeThrowsConcat(env, s.log.spawns, Members(c, env, k, ids, s.st).spawns);
  }

  lemma RunThrows(c: Crew, env: Env, aborted: nat -> bool, waves: seq<seq<Id>>)
    ensures ThrowsExactly(env, RunFrom(c, env, aborted, waves, 0, Outset()).log)
  {
    var inv := (j: nat, t: Progress) => ThrowsExactly(env, t.log);
    forall j: nat, t | j < |waves| && inv(j, t) ensures inv(j + 1, Turn(c, env, aborted, waves, j, t)) {
      TurnThrows(c, env, aborted, waves, j, t);
    }
    RunKeeps(c, env, aborted, waves, 0, Outset(), inv);
  }

  /** A run returns exactly one result for each agent of the waves it started before aborts stopped it,
      counting failed spawns, unless the run of some agent it spawned throws: then, and only then, it
      throws itself. */
  lemma OneResultEachStarted(p: Plan, env: Env, aborted: nat -> bool)
    requires forall a :: a in p.assignments ==> a.agentId in p.team
    ensures var log := Run(p, env, aborted);
      (log.threw <==> SomeThrows(env, log.spawns)) &&
      (!SomeThrows(env, log.spawns) ==>
        multiset(AgentsOf(log.results)) == multiset(Started(aborted, p.PlanWaves(), |p.PlanWaves()|)))
  {
    WaveAgentsKnown(p);
    RunAnswers(p.PlanCrew(), env, aborted, p.PlanWaves());
    RunThrows(p.PlanCrew(), env, aborted, p.PlanWaves());
  }

  lemma AllWavesStarted(p: Plan, aborted: nat -> bool)
    requires p.assignments != [] && forall k :: !aborted(k)
    ensures multiset(Started(aborted, p.PlanWaves(), |p.PlanWaves()|)) == multiset(Index(p.assignments).keys)
  {
    var waves := p.PlanWaves();
    AllStarted(aborted, waves, |waves|);
    assert waves[..|waves|] == waves;
    WavesPartition(p.assignments);
  }

  /** A planned run that is never aborted returns exactly one result for each distinct planned agent,
      with the same exception. */
  lemma OneResultEach(parsed: seq<RawAssignment>, team: seq<Id>, taskPrompt: string, env: Env, aborted: nat -> bool)
    requires CleanedAll(parsed, team, taskPrompt) != []
    requires forall k :: !aborted(k)
    ensures var p := Plan(team, CleanedAll(parsed, team, taskPrompt), taskPrompt);
      var log := Run(p, env, aborted);
      (log.threw <==> SomeThrows(env, log.spawns)) &&
      (!SomeThrows(env, log.spawns) ==> multiset(AgentsOf(log.results)) == multiset(Index(p.assignments).keys))
  {
    var p := Plan(team, CleanedAll(parsed, team, taskPrompt), taskPrompt);
    OneResultEachStarted(p, env, aborted);
    AllWavesStarted(p, aborted);
  }

  /** For instance: a team of one whose run throws. */
  lemma OneThrows(id: Id, failing: Env)
    requires forall who, prompt :: failing(who, prompt).Throws?
    ensures Run(Plan([id], [], "task"), failing, (k: nat) => false) ==
      Log([Spawn(0, id, Prompt([], "task"))], [], true)
  {
    var p, never := Plan([id], [], "task"), (k: nat) => false;
    var c, waves := p.PlanCrew(), p.PlanWaves();
    assert waves == [[id]] && c.agents == [id] && c.PromptFor(id, Fresh()) == Prompt([], "task");
    KnownAll([id], [id]);
    assert [id][..0] == [] && Members(c, failing, 0, [], Fresh()) == WaveRun([], [], [], false);
    var next := Turn(c, failing, never, waves, 0, Outset());
    assert next.log == Log([Spawn(0, id, Prompt([], "task"))], [], true);
    assert RunFrom(c, failing, never, waves, 0, Outset()) == RunFrom(c, failing, never, waves, 1, next) == next;
  }

  // ---------------------------------------------------------------------------------------------
  // What a prompt contains
  // ---------------------------------------------------------------------------------------------

  /** The contributions of those dependencies that are among `earlier`, in the order of `deps`. */
  function Inherited(results: seq<Result>, earlier: set<Id>, deps: seq<Id>): seq<Block> {
    if deps == [] then []
    else
      var d := deps[|deps| - 1];
      Inherited(results, earlier, deps[..|deps| - 1]) + (if d in earlier then Contribution(results, d) else [])
  }

  lemma {:induction false} NoResultNoContribution(results: seq<Result>, id: Id)
    requires forall i :: 0 <= i < |results| ==> results[i].agentId != id
    ensures Contribution(results, id) == []
  {
    if results != [] {
      NoResultNoContribution(results[..|results| - 1], id);
    }
  }

  lemma {:induction false} OthersDoNotContribute(results: seq<Result>, more: seq<Result>, id: Id)
    requires forall i :: 0 <= i < |more| ==> more[i].agentId != id
    ensures Contribution(results + more, id) == Contribution(results, id)
  {
    if more == [] {
      assert results + more == results;
    } else {
      var n := |more| - 1;
      OthersDoNotContribute(results, more[..n], id);
      assert (results + more)[..|results + more| - 1] == results + more[..n];
    }
  }

  /** Results of agents that are not among `earlier` change nothing. */
  lemma {:induction false} InheritedStable(results: seq<Result>, more: seq<Result>, earlier: set<Id>, deps: seq<Id>)
    requires forall i :: 0 <= i < |more| ==> more[i].agentId !in earlier
    ensures Inherited(results + more, earlier, deps) == Inherited(results, earlier, deps)
  {
    if deps != [] {
      var d := deps[|deps| - 1];
      InheritedStable(results, more, earlier, deps[..|deps| - 1]);
      if d in earlier { OthersDoNotContribute(results, more, d); }
    }
  }

  /** The blocks of the recorded state are the contributions of earlier agents. */
  lemma {:induction false} BlocksAreInherited(results: seq<Result>, earlier: set<Id>, deps: seq<Id>)
    requires forall i :: 0 <= i < |results| ==> results[i].agentId in earlier
    ensures Blocks(Record(Fresh(), results), deps) == Inherited(results, earlier, deps)
  {
    if deps != [] {
      var d := deps[|deps| - 1];
      BlocksAreInherited(results, earlier, deps[..|deps| - 1]);
      BlocksMirror(results, d);
      if d !in earlier { NoResultNoContribution(results, d); }
    }
  }

  /** The prompt of a spawn is the agent's own prompt under what its dependencies of earlier waves
      left, and nothing else. */
  ghost predicate PromptFaithful(c: Crew, waves: seq<seq<Id>>, results: seq<Result>, sp: Spawn) {
    sp.wave <= |waves| &&
    sp.prompt == Prompt(Inherited(results, Placed(waves[..sp.wave]), c.DependsOn(sp.id)), c.Base(sp.id))
  }

  /** Faithful spawns, all of the first k waves. */
  ghost predicate AllFaithful(c: Crew, waves: seq<seq<Id>>, k: nat, results: seq<Result>, spawns: seq<Spawn>) {
    forall i :: 0 <= i < |spawns| ==> spawns[i].wave < k && PromptFaithful(c, waves, results, spawns[i])
  }

  /** All results are of agents of the set. */
  ghost predicate Within(results: seq<Result>, ids: set<Id>) {
    forall i :: 0 <= i < |results| ==> results[i].agentId in ids
  }

  /** The state reached after k waves. */
  ghost predicate Sound(c: Crew, waves: seq<seq<Id>>, k: nat, s: Progress)
    requires k <= |waves|
  {
    s.st == Record(Fresh(), s.log.results) &&
    Within(s.log.results, Placed(waves[..k])) &&
    AllFaithful(c, waves, k, s.log.results, s.log.spawns)
  }

  /** What the run relies on: waves share no agent, and one that waits for none is in the first. */
  ghost predicate GoodWaves(c: Crew, waves: seq<seq<Id>>) {
    (forall k :: 0 <= k < |waves| ==> Elems(waves[k]) !! Placed(waves[..k])) &&
    (forall k, id :: 0 <= k < |waves| && id in waves[k] && c.DependsOn(id) == [] ==> k == 0)
  }

  lemma PlanWavesGood(p: Plan)
    ensures GoodWaves(p.PlanCrew(), p.PlanWaves())
  {
    var waves := p.PlanWaves();
    if p.assignments != [] {
      var m := Index(p.assignments);
      forall k | 0 <= k < |waves| ensures Elems(waves[k]) !! Placed(waves[..k]) {
        WaveIsNew(m.keys, GraphOf(m), {}, k);
      }
      forall k, id | 0 <= k < |waves| && id in waves[k] && p.PlanCrew().DependsOn(id) == [] ensures k == 0 {
        NoDepsFirst(p.assignments, k, id);
      }
    }
  }

  /** An agent without dependencies is in the first wave. */
  lemma NoDepsFirst(assignments: seq<Assignment>, k: nat, id: Id)
    requires k < |WavesOf(assignments)| && id in WavesOf(assignments)[k]
    requires id in Index(assignments).vals ==> Index(assignments).vals[id].Deps() == []
    ensures k == 0
  {
    if k > 0 {
      var m := Index(assignments);
      WaveIsNew(m.keys, GraphOf(m), {}, k);
      WavesPartition(assignments);
      PlacedMembers(WavesOf(assignments), id);
      FirstWaveTakes(assignments, id);
      PlacedEarlier(WavesOf(assignments), 0, k, id);
    }
  }

  lemma FirstWaveTakes(assignments: seq<Assignment>, id: Id)
    requires id in Index(assignments).vals && Index(assignments).vals[id].Deps() == []
    ensures WavesOf(assignments) != [] && id in WavesOf(assignments)[0]
  {
    var m := Index(assignments);
    assert id in Elems(m.keys);
    assert DepsPlaced(GraphOf(m)[id], {});
    assert id in Ready(m.keys, GraphOf(m), {});
  }

  ghost predicate Spawned(spawns: seq<Spawn>, c: Crew, k: nat, ids: seq<Id>, st: ExecutionState) {
    forall i :: 0 <= i < |spawns| ==>
      spawns[i].id in ids && spawns[i] == Spawn(k, spawns[i].id, c.PromptFor(spawns[i].id, st))
  }

  lemma {:induction false} MembersSpawned(c: Crew, env: Env, k: nat, ids: seq<Id>, st: ExecutionState)
    ensures var wave := Members(c, env, k, ids, st);
      Spawned(wave.spawns, c, k, ids, st) && Within(wave.failed, Elems(ids)) && Within(wave.live, Elems(ids))
  {
    if ids != [] {
      var n := |ids| - 1;
      MembersSpawned(c, env, k, ids[..n], st);
      var acc, prompt := Members(c, env, k, ids[..n], st), c.PromptFor(ids[n], st);
      assert ids == ids[..n] + [ids[n]];
      MemberSpawned(c, k, ids[..n], st, acc, ids[n], env(ids[n], prompt));
    }
  }

  lemma MemberSpawned(c: Crew, k: nat, ids: seq<Id>, st: ExecutionState, acc: WaveRun, id: Id, o: Outcome)
    requires Spawned(acc.spawns, c, k, ids, st) && Within(acc.failed, Elems(ids)) && Within(acc.live, Elems(ids))
    ensures var wave := Member(acc, k, id, c.PromptFor(id, st), o);
      Spawned(wave.spawns, c, k, ids + [id], st) &&
      Within(wave.failed, Elems(ids + [id])) && Within(wave.live, Elems(ids + [id]))
  {
    assert Elems(ids + [id]) == Elems(ids) + {id};
  }

  /** The prompt of a member of wave k, in terms of the results so far. */
  lemma PromptSound(c: Crew, waves: seq<seq<Id>>, k: nat, s: Progress, id: Id)
    requires k < |waves| && GoodWaves(c, waves) && Sound(c, waves, k, s) && id in waves[k]
    ensures PromptFaithful(c, waves, s.log.results, Spawn(k, id, c.PromptFor(id, s.st)))
  {
    var earlier := Placed(waves[..k]);
    if c.DependsOn(id) == [] {
      assert k == 0 && waves[..0] == [];
      assert s.log.results == [];
    } else {
      BlocksAreInherited(s.log.results, earlier, c.DependsOn(id));
    }
  }

  /** The agents of wave k are none of those of the first w waves. */
  lemma NotEarlier(c: Crew, waves: seq<seq<Id>>, w: nat, k: nat, id: Id)
    requires w <= k < |waves| && GoodWaves(c, waves) && id in waves[k]
    ensures id !in Placed(waves[..w])
  {
    assert id in Elems(waves[k]);
    PlacedMembers(waves[..w], id);
    if i :| 0 <= i < |waves[..w]| && id in waves[..w][i] { PlacedEarlier(waves, i, k, id); }
  }

  /** What was faithful stays so when the results of wave k are added. */
  lemma StaysFaithful(c: Crew, waves: seq<seq<Id>>, k: nat, results: seq<Result>, more: seq<Result>, sp: Spawn)
    requires k < |waves| && GoodWaves(c, waves) && sp.wave <= k && PromptFaithful(c, waves, results, sp)
    requires Within(more, Elems(waves[k]))
    ensures PromptFaithful(c, waves, results + more, sp)
  {
    forall i | 0 <= i < |more| ensures more[i].agentId !in Placed(waves[..sp.wave]) {
      NotEarlier(c, waves, sp.wave, k, more[i].agentId);
    }
    InheritedStable(results, more, Placed(waves[..sp.wave]), c.DependsOn(sp.id));
  }

  /** The spawns of wave k are faithful, and those before stay so. */
  lemma SpawnsSound(c: Crew, waves: seq<seq<Id>>, k: nat, s: Progress, spawns: seq<Spawn>, more: seq<Result>)
    requires k < |waves| && GoodWaves(c, waves) && Sound(c, waves, k, s)
    requires Spawned(spawns, c, k, waves[k], s.st) && Within(more, Elems(waves[k]))
    ensures AllFaithful(c, waves, k + 1, s.log.results + more, s.log.spawns + spawns)
  {
    var all := s.log.spawns + spawns;
    forall i | 0 <= i < |all|
      ensures all[i].wave < k + 1 && PromptFaithful(c, waves, s.log.results + more, all[i])
    {
      if i >= |s.log.spawns| {
        NewSpawnSound(c, waves, k, s, spawns, i - |s.log.spawns|);
      }
      StaysFaithful(c, waves, k, s.log.results, more, all[i]);
    }
  }

  lemma NewSpawnSound(c: Crew, waves: seq<seq<Id>>, k: nat, s: Progress, spawns: seq<Spawn>, i: nat)
    requires k < |waves| && GoodWaves(c, waves) && Sound(c, waves, k, s)
    requires i < |spawns| && Spawned(spawns, c, k, waves[k], s.st)
    ensures spawns[i].wave == k && PromptFaithful(c, waves, s.log.results, spawns[i])
  {
    PromptSound(c, waves, k, s, spawns[i].id);
  }

  lemma ResultsSound(waves: seq<seq<Id>>, k: nat, results: seq<Result>, more: seq<Result>)
    requires k < |waves| && Within(results, Placed(waves[..k])) && Within(more, Elems(waves[k]))
    ensures Within(results + more, Placed(waves[..k + 1]))
  {
    assert waves[..k + 1] == waves[..k] + [waves[k]];
    PlacedAppend(waves[..k], waves[k]);
  }

  /** What a wave adds to the results. */
  function Added(wave: WaveRun): seq<Result> {
    if wave.threw then [] else wave.failed + wave.live
  }

  lemma AdvanceAdds(c: Crew, env: Env, k: nat, ids: seq<Id>, s: Progress)
    ensures var wave := Members(c, env, k, ids, s.st);
      Advance(c, env, k, ids, s) ==
      Progress(Record(s.st, Added(wave)), Log(s.log.spawns + wave.spawns, s.log.results + Added(wave), wave.threw))
  {
    assert s.log.results + [] == s.log.results;
  }

  /** The members of a wave are among the agents it names. */
  lemma WaveSpawned(c: Crew, env: Env, k: nat, named: seq<Id>, st: ExecutionState)
    ensures var wave := Members(c, env, k, Known(named, c.agents), st);
      Spawned(wave.spawns, c, k, named, st) && Within(Added(wave), Elems(named))
  {
    var ids := Known(named, c.agents);
    WithoutFacts(named, Elems(named) - Elems(c.agents));
    MembersSpawned(c, env, k, ids, st);
    assert forall id :: id in ids ==> id in Elems(ids);
  }

  lemma AdvanceSound(c: Crew, env: Env, waves: seq<seq<Id>>, k: nat, s: Progress)
    requires k < |waves| && GoodWaves(c, waves) && Sound(c, waves, k, s)
    ensures Sound(c, waves, k + 1, Advance(c, env, k, Known(waves[k], c.agents), s))
  {
    WaveSpawned(c, env, k, waves[k], s.st);
    AdvanceAdds(c, env, k, Known(waves[k], c.agents), s);
    var wave := Members(c, env, k, Known(waves[k], c.agents), s.st);
    StepSound(c, waves, k, s, wave.spawns, Added(wave), wave.threw);
  }

  lemma StepSound(c: Crew, waves: seq<seq<Id>>, k: nat, s: Progress, spawns: seq<Spawn>, more: seq<Result>, threw: bool)
    requires k < |waves| && GoodWaves(c, waves) && Sound(c, waves, k, s)
    requires Spawned(spawns, c, k, waves[k], s.st) && Within(more, Elems(waves[k]))
    ensures Sound(c, waves, k + 1,
      Progress(Record(s.st, more), Log(s.log.spawns + spawns, s.log.results + more, threw)))
  {
    RecordConcat(Fresh(), s.log.results, more);
    ResultsSound(waves, k, s.log.results, more);
    SpawnsSound(c, waves, k, s, spawns, more);
  }

  lemma TurnSound(c: Crew, env: Env, aborted: nat -> bool, waves: seq<seq<Id>>, k: nat, s: Progress)
    requires k < |waves| && GoodWaves(c, waves) && Sound(c, waves, k, s)
    ensures Sound(c, waves, k + 1, Turn(c, env, aborted, waves, k, s))
  {
    if s.log.threw || aborted(k) {
      StepSound(c, waves, k, s, [], [], s.log.threw);
      assert s.log.spawns + [] == s.log.spawns && s.log.results + [] == s.log.results;
    } else {
      AdvanceSound(c, env, waves, k, s);
    }
  }

  lemma RunSound(c: Crew, env: Env, aborted: nat -> bool, waves: seq<seq<Id>>)
    requires GoodWaves(c, waves)
    ensures Sound(c, waves, |waves|, RunFrom(c, env, aborted, waves, 0, Outset()))
  {
    var inv := (j: nat, t: Progress) => j <= |waves| && Sound(c, waves, j, t);
    forall j: nat, t | j < |waves| && inv(j, t) ensures inv(j + 1, Turn(c, env, aborted, waves, j, t)) {
      TurnSound(c, env, aborted, waves, j, t);
    }
    RunKeeps(c, env, aborted, waves, 0, Outset(), inv);
  }

  // ---------------------------------------------------------------------------------------------
  // What a run spawns and reports, read off the assignments and the environment
  // ---------------------------------------------------------------------------------------------

  /** The prompt an agent is due by its last assignment, and without one. */
  ghost predicate PromptDue(p: Plan, waves: seq<seq<Id>>, results: seq<Result>, sp: Spawn) {
    sp.wave < |waves| &&
    (forall j: nat :: Counts(p.assignments, j, sp.id) ==>
      sp.prompt == Prompt(Inherited(results, Placed(waves[..sp.wave]), p.assignments[j].Deps()),
                          p.assignments[j].subprompt)) &&
    ((forall j :: 0 <= j < |p.assignments| ==> p.assignments[j].agentId != sp.id) ==>
      sp.prompt == Prompt([], p.taskPrompt))
  }

  lemma FaithfulIsDue(p: Plan, waves: seq<seq<Id>>, results: seq<Result>, sp: Spawn)
    requires sp.wave < |waves| && PromptFaithful(p.PlanCrew(), waves, results, sp)
    ensures PromptDue(p, waves, results, sp)
  {
    IndexMembers(p.assignments, sp.id);
    forall j: nat | Counts(p.assignments, j, sp.id)
      ensures p.PlanCrew().DependsOn(sp.id) == p.assignments[j].Deps()
      ensures p.PlanCrew().Base(sp.id) == p.assignments[j].subprompt
    {
      LastCounts(p.assignments, j, sp.id);
    }
  }

  /** Data flow of a concurrent run, aborted or not: the prompt of every agent spawned is the subprompt
      of its last assignment under exactly what those of that assignment's dependencies that are in
      earlier waves left, in the order it names them, and the bare task prompt if nothing is assigned to
      it. So the branch that would hand it every recorded output is never taken. */
  lemma DataFlow(p: Plan, env: Env, aborted: nat -> bool, i: nat)
    requires i < |Run(p, env, aborted).spawns|
    ensures var log := Run(p, env, aborted);
      PromptDue(p, if p.assignments == [] then [p.team] else WavesOf(p.assignments), log.results, log.spawns[i])
  {
    PlanWavesGood(p);
    RunSound(p.PlanCrew(), env, aborted, p.PlanWaves());
    FaithfulIsDue(p, p.PlanWaves(), Run(p, env, aborted).results, Run(p, env, aborted).spawns[i]);
  }

  /** The result a spawn comes to, unless its run throws. */
  function ResultOf(env: Env, sp: Spawn): Option<Result> {
    match env(sp.id, sp.prompt)
    case SpawnFails(reason) => Some(Result(sp.id, Errored, "", None, Some(SpawnFailed(reason))))
    case Ends(exit, text, browser, error) => Some(Result(sp.id, exit, text, browser, error))
    case Throws => None
  }

  /** The results of those that could not be spawned, or of those that could, in the order of spawning. */
  function Come(env: Env, spawns: seq<Spawn>, spawned: bool): seq<Result> {
    if spawns == [] then []
    else
      var sp := spawns[|spawns| - 1];
      var r := ResultOf(env, sp);
      Come(env, spawns[..|spawns| - 1], spawned)
      + (if r.Some? && env(sp.id, sp.prompt).Ends? == spawned then [r.value] else [])
  }

  function OfWave(spawns: seq<Spawn>, k: nat): seq<Spawn> {
    if spawns == [] then []
    else
      var sp := spawns[|spawns| - 1];
      OfWave(spawns[..|spawns| - 1], k) + (if sp.wave == k then [sp] else [])
  }

  /** Of one wave, failed spawns before live results. */
  function WaveReport(env: Env, spawns: seq<Spawn>): seq<Result> {
    Come(env, spawns, false) + Come(env, spawns, true)
  }

  /** Wave by wave. */
  function Report(env: Env, spawns: seq<Spawn>, k: nat): seq<Result> {
    if k == 0 then [] else Report(env, spawns, k - 1) + WaveReport(env, OfWave(spawns, k - 1))
  }

  function IdsOf(spawns: seq<Spawn>): seq<Id> {
    if spawns == [] then [] else IdsOf(spawns[..|spawns| - 1]) + [spawns[|spawns| - 1].id]
  }

  ghost predicate InWave(spawns: seq<Spawn>, k: nat) {
    forall i :: 0 <= i < |spawns| ==> spawns[i].wave == k
  }

  ghost predicate Before(spawns: seq<Spawn>, k: nat) {
    forall i :: 0 <= i < |spawns| ==> spawns[i].wave < k
  }

  /** What one wave comes to. */
  ghost predicate Accounts(env: Env, k: nat, ids: seq<Id>, wave: WaveRun) {
    wave.failed == Come(env, wave.spawns, false) && wave.live == Come(env, wave.spawns, true) &&
    IdsOf(wave.spawns) == ids && InWave(wave.spawns, k)
  }

  lemma ComeLast(env: Env, before: seq<Spawn>, sp: Spawn, spawned: bool)
    ensures Come(env, before + [sp], spawned) ==
      if ResultOf(env, sp).Some? && env(sp.id, sp.prompt).Ends? == spawned
      then Come(env, before, spawned) + [ResultOf(env, sp).value]
      else Come(env, before, spawned)
  {
    assert (before + [sp])[..|before + [sp]| - 1] == before;
  }

  lemma MemberAccounts(env: Env, k: nat, ids: seq<Id>, acc: WaveRun, id: Id, prompt: Prompt)
    requires Accounts(env, k, ids, acc)
    ensures Accounts(env, k, ids + [id], Member(acc, k, id, prompt, env(id, prompt)))
  {
    var sp := Spawn(k, id, prompt);
    ComeLast(env, acc.spawns, sp, false);
    ComeLast(env, acc.spawns, sp, true);
    IdsLast(acc.spawns, sp);
    assert InWave(acc.spawns + [sp], k);
  }

  lemma IdsLast(before: seq<Spawn>, sp: Spawn)
    ensures IdsOf(before + [sp]) == IdsOf(before) + [sp.id]
  {
    assert (before + [sp])[..|before + [sp]| - 1] == before;
  }

  lemma MembersStepAccounts(c: Crew, env: Env, k: nat, done: seq<Id>, id: Id, st: ExecutionState)
    requires Accounts(env, k, done, Members(c, env, k, done, st))
    ensures Accounts(env, k, done + [id], Members(c, env, k, done + [id], st))
  {
    MembersLast(c, env, k, done, id, st);
    MemberAccounts(env, k, done, Members(c, env, k, done, st), id, c.PromptFor(id, st));
  }

  lemma MembersAccount(c: Crew, env: Env, k: nat, ids: seq<Id>, st: ExecutionState)
    ensures Accounts(env, k, ids, Members(c, env, k, ids, st))
  {
    var done: seq<Id> := [];
    for n := 0 to |ids|
      invariant done == ids[..n] && Accounts(env, k, done, Members(c, env, k, done, st))
    {
      MembersStepAccounts(c, env, k, done, ids[n], st);
      done := done + [ids[n]];
    }
    assert done == ids;
  }

  lemma {:induction false} OfWaveConcat(a: seq<Spawn>, b: seq<Spawn>, k: nat)
    ensures OfWave(a + b, k) == OfWave(a, k) + OfWave(b, k)
  {
    if b == [] {
      assert a + b == a;
    } else {
      OfWaveConcat(a, b[..|b| - 1], k);
      assert (a + b)[..|a + b| - 1] == a + b[..|b| - 1];
    }
  }

  lemma {:induction false} OfItsWave(spawns: seq<Spawn>, w: nat, k: nat)
    requires InWave(spawns, w)
    ensures OfWave(spawns, k) == if w == k then spawns else []
  {
    if spawns != [] { OfItsWave(spawns[..|spawns| - 1], w, k); }
  }

  lemma {:induction false} NoneOfLaterWave(spawns: seq<Spawn>, w: nat, k: nat)
    requires Before(spawns, w) && w <= k
    ensures OfWave(spawns, k) == []
  {
    if spawns != [] { NoneOfLaterWave(spawns[..|spawns| - 1], w, k); }
  }

  lemma OtherWave(spawns: seq<Spawn>, more: seq<Spawn>, w: nat, k: nat)
    requires InWave(more, w) && k != w
    ensures OfWave(spawns + more, k) == OfWave(spawns, k)
  {
    OfWaveConcat(spawns, more, k);
    OfItsWave(more, w, k);
  }

  lemma {:induction false} ReportStable(env: Env, spawns: seq<Spawn>, more: seq<Spawn>, w: nat, k: nat)
    requires InWave(more, w) && k <= w
    ensures Report(env, spawns + more, k) == Report(env, spawns, k)
  {
    if k > 0 {
      ReportStable(env, spawns, more, w, k - 1);
      OtherWave(spawns, more, w, k - 1);
    }
  }

  lemma {:induction false} IdsConcat(a: seq<Spawn>, b: seq<Spawn>)
    ensures IdsOf(a + b) == IdsOf(a) + IdsOf(b)
  {
    if b == [] {
      assert a + b == a;
    } else {
      IdsConcat(a, b[..|b| - 1]);
      assert (a + b)[..|a + b| - 1] == a + b[..|b| - 1];
    }
  }

  /** After k waves: who was spawned, in order, and what was reported. */
  ghost predicate Tally(env: Env, k: nat, ids: seq<Id>, spawns: seq<Spawn>, results: seq<Result>) {
    Before(spawns, k) && IdsOf(spawns) == ids && results == Report(env, spawns, k)
  }

  /** A run that threw did so in the last wave it spawned, which has reported nothing. */
  ghost predicate CutOff(env: Env, last: nat, ids: seq<Id>, spawns: seq<Spawn>, results: seq<Result>) {
    spawns != [] && spawns[|spawns| - 1].wave == last && Before(spawns, last + 1) &&
    IdsOf(spawns) == ids && results == Report(env, spawns, last)
  }

  ghost predicate AccountsFor(env: Env, aborted: nat -> bool, waves: seq<seq<Id>>, k: nat, log: Log)
    requires k <= |waves|
  {
    if log.threw then exists last: nat :: CutOffAt(env, aborted, waves, k, last, log)
    else Tally(env, k, Started(aborted, waves, k), log.spawns, log.results)
  }

  ghost predicate CutOffAt(env: Env, aborted: nat -> bool, waves: seq<seq<Id>>, k: nat, last: nat, log: Log)
    requires k <= |waves|
  {
    last < k && !aborted(last) &&
    CutOff(env, last, Started(aborted, waves, last) + waves[last], log.spawns, log.results)
  }

  /** One more wave reports its own. */
  lemma ReportWave(env: Env, spawns: seq<Spawn>, more: seq<Spawn>, k: nat, next: nat, all: seq<Spawn>)
    requires Before(spawns, k) && InWave(more, k) && next == k + 1 && all == spawns + more
    ensures Report(env, all, k) == Report(env, spawns, k)
    ensures Report(env, all, next) == Report(env, spawns, k) + WaveReport(env, more)
  {
    ReportStable(env, spawns, more, k, k);
    OnlyItsWave(spawns, more, k);
    assert Report(env, all, next) == Report(env, all, k) + WaveReport(env, OfWave(all, k));
  }

  lemma OnlyItsWave(spawns: seq<Spawn>, more: seq<Spawn>, k: nat)
    requires Before(spawns, k) && InWave(more, k)
    ensures OfWave(spawns + more, k) == more
  {
    OfWaveConcat(spawns, more, k);
    NoneOfLaterWave(spawns, k, k);
    OfItsWave(more, k, k);
    assert [] + more == more;
  }

  /** What a wave adds, unless it throws. */
  lemma WaveAdds(env: Env, k: nat, ids: seq<Id>, spawns: seq<Spawn>, results: seq<Result>, named: seq<Id>,
                 wave: WaveRun, next: nat)
    requires Tally(env, k, ids, spawns, results) && Accounts(env, k, named, wave) && next == k + 1
    ensures Tally(env, next, ids + named, spawns + wave.spawns, results + (wave.failed + wave.live))
  {
    ReportWave(env, spawns, wave.spawns, k, next, spawns + wave.spawns);
    IdsConcat(spawns, wave.spawns);
  }

  lemma WaveCuts(env: Env, k: nat, ids: seq<Id>, spawns: seq<Spawn>, results: seq<Result>, named: seq<Id>,
                 wave: WaveRun)
    requires Tally(env, k, ids, spawns, results) && Accounts(env, k, named, wave) && wave.spawns != []
    ensures CutOff(env, k, ids + named, spawns + wave.spawns, results)
  {
    ReportWave(env, spawns, wave.spawns, k, k + 1, spawns + wave.spawns);
    IdsConcat(spawns, wave.spawns);
  }

  lemma AdvanceAccounts(c: Crew, env: Env, aborted: nat -> bool, waves: seq<seq<Id>>, k: nat, s: Progress)
    requires k < |waves| && !aborted(k) && !s.log.threw && AccountsFor(env, aborted, waves, k, s.log)
    ensures AccountsFor(env, aborted, waves, k + 1, Advance(c, env, k, waves[k], s).log)
  {
    var wave, started := Members(c, env, k, waves[k], s.st), Started(aborted, waves, k);
    MembersAccount(c, env, k, waves[k], s.st);
    MembersThrow(c, env, k, waves[k], s.st);
    if wave.threw {
      WaveCuts(env, k, started, s.log.spawns, s.log.results, waves[k], wave);
      assert CutOffAt(env, aborted, waves, k + 1, k, Advance(c, env, k, waves[k], s).log);
    } else {
      WaveAdds(env, k, started, s.log.spawns, s.log.results, waves[k], wave, k + 1);
    }
  }

  lemma TurnAccounts(c: Crew, env: Env, aborted: nat -> bool, waves: seq<seq<Id>>, k: nat, s: Progress, next: Progress,
                     n: nat)
    requires k < |waves| && Known(waves[k], c.agents) == waves[k] && AccountsFor(env, aborted, waves, k, s.log)
    requires next == Turn(c, env, aborted, waves, k, s) && n == k + 1
    ensures AccountsFor(env, aborted, waves, n, next.log)
  {
    if !s.log.threw && aborted(k) {
      NoneOfLaterWave(s.log.spawns, k, k);
      assert Report(env, s.log.spawns, k + 1) == Report(env, s.log.spawns, k);
      assert Started(aborted, waves, k + 1) == Started(aborted, waves, k);
    } else if !s.log.threw {
      AdvanceAccounts(c, env, aborted, waves, k, s);
    } else {
      var last: nat :| CutOffAt(env, aborted, waves, k, last, s.log);
      assert CutOffAt(env, aborted, waves, n, last, s.log);
    }
  }

  /** The states of a run between its waves, which name its agents only. */
  ghost predicate Stations(c: Crew, env: Env, aborted: nat -> bool, waves: seq<seq<Id>>, states: seq<Progress>) {
    |states| == |waves| + 1 && states[0] == Outset() &&
    forall j :: 0 <= j < |waves| ==> StationAfter(c, env, aborted, waves, states, j)
  }

  ghost predicate StationAfter(c: Crew, env: Env, aborted: nat -> bool, waves: seq<seq<Id>>,
                               states: seq<Progress>, j: nat)
    requires j < |waves| && j + 1 < |states|
  {
    states[j + 1] == Turn(c, env, aborted, waves, j, states[j]) && Known(waves[j], c.agents) == waves[j]
  }

  lemma {:induction false} StationsFrom(c: Crew, env: Env, aborted: nat -> bool, waves: seq<seq<Id>>, k: nat,
                                        s: Progress)
    returns (states: seq<Progress>)
    requires k <= |waves|
    ensures |states| == |waves| - k + 1 && states[0] == s
    ensures states[|states| - 1] == RunFrom(c, env, aborted, waves, k, s)
    ensures forall j: nat :: j + 1 < |states| ==> states[j + 1] == Turn(c, env, aborted, waves, k + j, states[j])
    decreases |waves| - k
  {
    states := [s];
    if k < |waves| {
      var next := Turn(c, env, aborted, waves, k, s);
      var later := StationsFrom(c, env, aborted, waves, k + 1, next);
      states := [s] + later;
      forall j: nat | j + 1 < |states| ensures states[j + 1] == Turn(c, env, aborted, waves, k + j, states[j]) {
        if j > 0 { assert later[j - 1 + 1] == Turn(c, env, aborted, waves, k + 1 + (j - 1), later[j - 1]); }
      }
    }
  }

  lemma RunStations(c: Crew, env: Env, aborted: nat -> bool, waves: seq<seq<Id>>) returns (states: seq<Progress>)
    requires AllKnown(waves, c.agents)
    ensures Stations(c, env, aborted, waves, states)
    ensures states[|waves|] == RunFrom(c, env, aborted, waves, 0, Outset())
  {
    states := StationsFrom(c, env, aborted, waves, 0, Outset());
    forall j | 0 <= j < |waves| ensures StationAfter(c, env, aborted, waves, states, j) {
      assert states[j + 1] == Turn(c, env, aborted, waves, 0 + j, states[j]);
    }
  }

  lemma StationsAccount(c: Crew, env: Env, aborted: nat -> bool, waves: seq<seq<Id>>, states: seq<Progress>)
    requires Stations(c, env, aborted, waves, states)
    ensures AccountsFor(env, aborted, waves, |waves|, states[|waves|].log)
  {
    for j := 0 to |waves|
      invariant AccountsFor(env, aborted, waves, j, states[j].log)
    {
      assert StationAfter(c, env, aborted, waves, states, j);
      TurnAccounts(c, env, aborted, waves, j, states[j], states[j + 1], j + 1);
    }
  }

  lemma RunAccounts(c: Crew, env: Env, aborted: nat -> bool, waves: seq<seq<Id>>)
    requires AllKnown(waves, c.agents)
    ensures AccountsFor(env, aborted, waves, |waves|, RunFrom(c, env, aborted, waves, 0, Outset()).log)
  {
    var states := RunStations(c, env, aborted, waves);
    StationsAccount(c, env, aborted, waves, states);
  }

  /** A run spawns exactly the agents of the waves it starts, wave by wave and in the order of the wave,
      and its results are, wave by wave, those of the agents that could not be spawned and then those of
      the others, each as the environment gave it. If it throws, it does so in the last wave it spawned. */
  lemma SpawnsAndResults(p: Plan, env: Env, aborted: nat -> bool)
    requires forall a :: a in p.assignments ==> a.agentId in p.team
    ensures var waves := if p.assignments == [] then [p.team] else WavesOf(p.assignments);
      AccountsFor(env, aborted, waves, |waves|, Run(p, env, aborted))
  {
    WaveAgentsKnown(p);
    RunAccounts(p.PlanCrew(), env, aborted, p.PlanWaves());
  }

  lemma {:induction false} Comes(env: Env, spawns: seq<Spawn>, spawned: bool, i: nat)
    requires i < |spawns| && ResultOf(env, spawns[i]).Some?
    requires env(spawns[i].id, spawns[i].prompt).Ends? == spawned
    ensures ResultOf(env, spawns[i]).value in Come(env, spawns, spawned)
  {
    if i < |spawns| - 1 { Comes(env, spawns[..|spawns| - 1], spawned, i); }
  }

  lemma {:induction false} OfWaveHas(spawns: seq<Spawn>, i: nat) returns (at: nat)
    requires i < |spawns|
    ensures at < |OfWave(spawns, spawns[i].wave)| && OfWave(spawns, spawns[i].wave)[at] == spawns[i]
  {
    if i < |spawns| - 1 {
      at := OfWaveHas(spawns[..|spawns| - 1], i);
    } else {
      at := |OfWave(spawns, spawns[i].wave)| - 1;
    }
  }

  lemma {:induction false} ReportHas(env: Env, spawns: seq<Spawn>, k: nat, i: nat)
    requires i < |spawns| && spawns[i].wave < k && ResultOf(env, spawns[i]).Some?
    ensures ResultOf(env, spawns[i]).value in Report(env, spawns, k)
  {
    if spawns[i].wave < k - 1 {
      ReportHas(env, spawns, k - 1, i);
    } else {
      var at := OfWaveHas(spawns, i);
      var wave, r := OfWave(spawns, k - 1), ResultOf(env, spawns[i]).value;
      Comes(env, wave, env(spawns[i].id, spawns[i].prompt).Ends?, at);
      assert r in WaveReport(env, wave);
    }
  }

  /** In particular a run that does not throw has, for every agent whose run ended, a result with that
      agent's exit, text, browser state and error, and for every agent that could not be spawned one
      with the reason. */
  lemma EndsReported(p: Plan, env: Env, aborted: nat -> bool, i: nat)
    requires forall a :: a in p.assignments ==> a.agentId in p.team
    requires !Run(p, env, aborted).threw && i < |Run(p, env, aborted).spawns|
    ensures var log := Run(p, env, aborted);
      var sp := log.spawns[i];
      match env(sp.id, sp.prompt)
      case Ends(exit, text, browser, error) => Result(sp.id, exit, text, browser, error) in log.results
      case SpawnFails(reason) => Result(sp.id, Errored, "", None, Some(SpawnFailed(reason))) in log.results
      case Throws => false
  {
    var log := Run(p, env, aborted);
    SpawnsAndResults(p, env, aborted);
    RunThrows(p.PlanCrew(), env, aborted, p.PlanWaves());
    ReportHas(env, log.spawns, |p.PlanWaves()|, i);
  }
}
