/** The wave scheduler of a concurrent run (`topoSortWaves`): agents are placed in waves, each wave
    holding every agent whose dependencies are all placed; when no agent qualifies, all that remain
    are forced into one last wave. */
module Waves {
  import opened Collections

  datatype Assignment = Assignment(agentId: Id, subprompt: string, dependsOn: Option<seq<Id>>) {
    /** `a.dependsOn ?? []` */
    function Deps(): seq<Id> {
      if dependsOn.Some? then dependsOn.value else []
    }
  }

  /** The assignments as a map by agent: a repeated agent keeps its first place and
      its last assignment. */
  function Index(assignments: seq<Assignment>): (m: JsMap<Assignment>)
    ensures m.Valid()
    ensures forall id :: id in m.vals ==> m.vals[id].agentId == id
  {
    if assignments == [] then EmptyMap()
    else
      var last := assignments[|assignments| - 1];
      var before := Index(assignments[..|assignments| - 1]);
      before.PutValid(last.agentId, last);
      before.Put(last.agentId, last)
  }

  lemma {:induction false} IndexMembers(assignments: seq<Assignment>, id: Id)
    ensures id in Index(assignments).vals <==> exists i :: 0 <= i < |assignments| && assignments[i].agentId == id
  {
    if assignments != [] {
      var n := |assignments| - 1;
      IndexMembers(assignments[..n], id);
      if i :| 0 <= i < n && assignments[..n][i].agentId == id { assert assignments[i].agentId == id; }
      if i :| 0 <= i < |assignments| && assignments[i].agentId == id {
        if i < n { assert assignments[..n][i].agentId == id; }
      }
    }
  }

  function AgentIds(assignments: seq<Assignment>): (ids: seq<Id>)
    ensures |ids| == |assignments|
  {
    if assignments == [] then []
    else AgentIds(assignments[..|assignments| - 1]) + [assignments[|assignments| - 1].agentId]
  }

  /** Distinct agents all keep their places. */
  lemma {:induction false} DistinctIndex(assignments: seq<Assignment>)
    requires NoDups(AgentIds(assignments))
    ensures Index(assignments).keys == AgentIds(assignments)
  {
    if assignments != [] {
      var n := |assignments| - 1;
      var ids := AgentIds(assignments);
      assert ids[..n] == AgentIds(assignments[..n]);
      DistinctIndex(assignments[..n]);
      assert Elems(Index(assignments[..n]).keys) == Index(assignments[..n]).vals.Keys;
      assert ids[n] !in ids[..n];
    }
  }

  /** The map stands in the order in which the agents are first assigned. */
  lemma {:induction false} IndexOrder(assignments: seq<Assignment>)
    ensures Index(assignments).keys == Firsts(AgentIds(assignments))
  {
    if assignments != [] {
      var n := |assignments| - 1;
      var before := Index(assignments[..n]);
      IndexOrder(assignments[..n]);
      assert AgentIds(assignments)[..n] == AgentIds(assignments[..n]);
      assert assignments[n].agentId in before.vals <==> assignments[n].agentId in Elems(before.keys);
      assert assignments[n].agentId in AgentIds(assignments[..n]) <==>
        assignments[n].agentId in Elems(AgentIds(assignments[..n]));
    }
  }

  /** The assignment that counts for an agent: the last that names it. */
  ghost predicate Counts(assignments: seq<Assignment>, i: nat, id: Id) {
    i < |assignments| && assignments[i].agentId == id &&
    forall j :: i < j < |assignments| ==> assignments[j].agentId != id
  }

  lemma FrontCounts(assignments: seq<Assignment>, front: seq<Assignment>, i: nat, id: Id)
    requires Counts(assignments, i, id) && i < |assignments| - 1 && front == assignments[..|assignments| - 1]
    ensures Counts(front, i, id) && front[i] == assignments[i]
  {}

  lemma {:induction false} LastCounts(assignments: seq<Assignment>, i: nat, id: Id)
    requires Counts(assignments, i, id)
    ensures id in Index(assignments).vals && Index(assignments).vals[id] == assignments[i]
  {
    var n := |assignments| - 1;
    if i < n {
      assert assignments[n].agentId != id;
      FrontCounts(assignments, assignments[..n], i, id);
      LastCounts(assignments[..n], i, id);
    }
  }

  /** What each agent waits for. */
  type Graph = map<Id, seq<Id>>

  function GraphOf(m: JsMap<Assignment>): (g: Graph)
    ensures g.Keys == m.vals.Keys
  {
    map id | id in m.vals :: m.vals[id].Deps()
  }

  predicate DepsPlaced(deps: seq<Id>, placed: set<Id>) {
    forall d | d in deps :: d in placed
  }

  /** The agents of `keys`, in order, whose dependencies are all placed. */
  function Ready(keys: seq<Id>, g: Graph, placed: set<Id>): (wave: seq<Id>)
    requires Elems(keys) <= g.Keys
    ensures forall id :: id in wave <==> id in keys && DepsPlaced(g[id], placed)
    ensures NoDups(keys) ==> NoDups(wave)
  {
    if keys == [] then []
    else
      var k := keys[|keys| - 1];
      Ready(keys[..|keys| - 1], g, placed) + (if DepsPlaced(g[k], placed) then [k] else [])
  }

  lemma ReadyUnfold(keys: seq<Id>, i: nat, g: Graph, placed: set<Id>)
    requires i < |keys| && Elems(keys[..i]) <= g.Keys && keys[i] in g
    ensures Elems(keys[..i + 1]) <= g.Keys
    ensures Ready(keys[..i + 1], g, placed) ==
      Ready(keys[..i], g, placed) + (if DepsPlaced(g[keys[i]], placed) then [keys[i]] else [])
  {
    ElemsTake(keys, i);
    assert keys[..i + 1][..i] == keys[..i];
  }

  /** No remaining agent has all its dependencies placed: the next wave is the forced one. */
  predicate Stuck(keys: seq<Id>, g: Graph, placed: set<Id>)
    requires Elems(keys) <= g.Keys
  {
    keys != [] && Ready(keys, g, placed) == []
  }

  function NextWave(keys: seq<Id>, g: Graph, placed: set<Id>): (wave: seq<Id>)
    requires Elems(keys) <= g.Keys
    ensures keys != [] ==> wave != []
    ensures Elems(wave) <= Elems(keys)
    ensures NoDups(keys) ==> NoDups(wave)
  {
    var ready := Ready(keys, g, placed);
    if ready == [] then keys else ready
  }

  /** What remains once the next wave is taken out. */
  function Rest(keys: seq<Id>, g: Graph, placed: set<Id>): (rest: seq<Id>)
    requires Elems(keys) <= g.Keys
    ensures Elems(rest) == Elems(keys) - Elems(NextWave(keys, g, placed))
    ensures keys != [] ==> |rest| < |keys|
    ensures NoDups(keys) ==> NoDups(rest)
  {
    var wave := NextWave(keys, g, placed);
    WithoutFacts(keys, Elems(wave));
    assert keys != [] ==> wave[0] in Elems(wave);
    Without(keys, Elems(wave))
  }

  function Layers(keys: seq<Id>, g: Graph, placed: set<Id>): (waves: seq<seq<Id>>)
    requires Elems(keys) <= g.Keys
    decreases |keys|
  {
    if keys == [] then []
    else
      [NextWave(keys, g, placed)] + Layers(Rest(keys, g, placed), g, placed + Elems(NextWave(keys, g, placed)))
  }

  function WavesOf(assignments: seq<Assignment>): seq<seq<Id>> {
    var m := Index(assignments);
    Layers(m.keys, GraphOf(m), {})
  }

  /** `remaining` holds, for each of its agents, the dependencies g lists. */
  ghost predicate Agrees(remaining: JsMap<Assignment>, g: Graph) {
    remaining.Valid() && forall id :: id in remaining.vals ==> id in g && g[id] == remaining.vals[id].Deps()
  }

  /** One pass over the remaining agents. */
  method SelectWave(remaining: JsMap<Assignment>, placed: set<Id>, ghost g: Graph) returns (wave: seq<Id>)
    requires Agrees(remaining, g)
    ensures Elems(remaining.keys) <= g.Keys && wave == NextWave(remaining.keys, g, placed)
  {
    wave := [];
    var ids := remaining.keys;
    assert forall i :: 0 <= i < |ids| ==> ids[i] in Elems(ids);
    for i := 0 to |ids|
      invariant Elems(ids[..i]) <= g.Keys && wave == Ready(ids[..i], g, placed)
    {
      var id := ids[i];
      ReadyUnfold(ids, i, g, placed);
      var a := remaining.vals[id];
      if forall d | d in a.Deps() :: d in placed {
        wave := wave + [id];
      }
    }
    assert ids[..|ids|] == ids;
    if |wave| == 0 {
      wave := ids;
    }
  }

  method TopoSortWaves(assignments: seq<Assignment>) returns (waves: seq<seq<Id>>)
    ensures waves == WavesOf(assignments)
  {
    waves := [];
    var placed: set<Id> := {};
    var remaining := Index(assignments);
    ghost var g := GraphOf(remaining);
    while |remaining.keys| > 0
      invariant Agrees(remaining, g) && Elems(remaining.keys) <= g.Keys
      invariant waves + Layers(remaining.keys, g, placed) == WavesOf(assignments)
      decreases |remaining.keys|
    {
      var wave := SelectWave(remaining, placed, g);
      LayersUnfold(waves, remaining.keys, g, placed);
      remaining, placed := Take(remaining, placed, wave);
      waves := waves + [wave];
    }
  }

  lemma LayersUnfold(waves: seq<seq<Id>>, keys: seq<Id>, g: Graph, placed: set<Id>)
    requires Elems(keys) <= g.Keys && keys != []
    ensures var wave := NextWave(keys, g, placed);
      Elems(Without(keys, Elems(wave))) <= g.Keys &&
      |Without(keys, Elems(wave))| < |keys| &&
      waves + Layers(keys, g, placed) ==
      (waves + [wave]) + Layers(Without(keys, Elems(wave)), g, placed + Elems(wave))
  {
    var wave, rest := NextWave(keys, g, placed), Rest(keys, g, placed);
    assert Layers(keys, g, placed) == [wave] + Layers(rest, g, placed + Elems(wave));
    Regroup(waves, wave, Layers(rest, g, placed + Elems(wave)));
  }

  lemma Regroup(waves: seq<seq<Id>>, wave: seq<Id>, later: seq<seq<Id>>)
    ensures waves + ([wave] + later) == (waves + [wave]) + later
  {}

  /** The agents of the wave leave the map and are placed. */
  method Take(before: JsMap<Assignment>, placedBefore: set<Id>, wave: seq<Id>)
    returns (remaining: JsMap<Assignment>, placed: set<Id>)
    requires before.Valid()
    ensures remaining.Valid()
    ensures remaining.keys == Without(before.keys, Elems(wave)) && remaining.vals == before.vals - Elems(wave)
    ensures placed == placedBefore + Elems(wave)
  {
    remaining, placed := before, placedBefore;
    ghost var taken: set<Id> := {};
    WithoutNone(before.keys, taken);
    for j := 0 to |wave|
      invariant taken == Elems(wave[..j]) && Remains(before, remaining, taken)
      invariant placed == placedBefore + taken
    {
      TakenOne(before, remaining, taken, wave[j]);
      ElemsTake(wave, j);
      taken := taken + {wave[j]};
      remaining := remaining.Delete(wave[j]);
      placed := placed + {wave[j]};
    }
    assert wave[..|wave|] == wave;
  }

  ghost predicate Remains(before: JsMap<Assignment>, remaining: JsMap<Assignment>, taken: set<Id>) {
    remaining.Valid() && remaining.keys == Without(before.keys, taken) && remaining.vals == before.vals - taken
  }

  lemma TakenOne(before: JsMap<Assignment>, remaining: JsMap<Assignment>, taken: set<Id>, id: Id)
    requires Remains(before, remaining, taken)
    ensures Remains(before, remaining.Delete(id), taken + {id})
  {
    WithoutTwice(before.keys, taken, {id});
  }

  // ---------------------------------------------------------------------------------------------
  // Whatever the dependencies
  // ---------------------------------------------------------------------------------------------

  /** The agents in some wave. */
  function Placed(waves: seq<seq<Id>>): set<Id> {
    if waves == [] then {} else Elems(waves[0]) + Placed(waves[1..])
  }

  lemma {:induction false} PlacedMembers(waves: seq<seq<Id>>, id: Id)
    ensures id in Placed(waves) <==> exists i :: 0 <= i < |waves| && id in waves[i]
  {
    if waves != [] {
      PlacedMembers(waves[1..], id);
      if id in Placed(waves[1..]) {
        var i :| 0 <= i < |waves[1..]| && id in waves[1..][i];
        assert id in waves[i + 1];
      }
      if i :| 0 <= i < |waves| && id in waves[i] {
        if i > 0 { assert id in waves[1..][i - 1]; }
      }
    }
  }

  lemma {:induction false} PlacedAppend(waves: seq<seq<Id>>, wave: seq<Id>)
    ensures Placed(waves + [wave]) == Placed(waves) + Elems(wave)
  {
    if waves == [] {
      assert waves + [wave] == [wave];
    } else {
      PlacedAppend(waves[1..], wave);
      assert (waves + [wave])[1..] == waves[1..] + [wave];
    }
  }

  lemma PlacedEarlier(waves: seq<seq<Id>>, i: nat, k: nat, id: Id)
    requires i < k <= |waves| && id in waves[i]
    ensures id in Placed(waves[..k])
  {
    PlacedMembers(waves[..k], id);
    assert waves[..k][i] == waves[i];
  }

  /** The wave was forced: one of its agents has a dependency outside `before`. */
  ghost predicate Forced(wave: seq<Id>, g: Graph, before: set<Id>) {
    exists id :: id in wave && id in g && !DepsPlaced(g[id], before)
  }

  ghost predicate ForcedAt(waves: seq<seq<Id>>, g: Graph, i: nat)
    requires i < |waves|
  {
    Forced(waves[i], g, Placed(waves[..i]))
  }

  lemma {:induction false} LayersPartition(keys: seq<Id>, g: Graph, placed: set<Id>)
    requires NoDups(keys) && Elems(keys) <= g.Keys
    ensures multiset(Flatten(Layers(keys, g, placed))) == multiset(keys)
    ensures forall i :: 0 <= i < |Layers(keys, g, placed)| ==> Layers(keys, g, placed)[i] != []
    decreases |keys|
  {
    if keys != [] {
      var wave, rest := NextWave(keys, g, placed), Rest(keys, g, placed);
      LayersPartition(rest, g, placed + Elems(wave));
      WithoutMultiset(keys, wave);
    }
  }

  /** The waves are non-empty and hold every assigned agent exactly once. */
  lemma WavesPartition(assignments: seq<Assignment>)
    ensures forall i :: 0 <= i < |WavesOf(assignments)| ==> WavesOf(assignments)[i] != []
    ensures multiset(Flatten(WavesOf(assignments))) == multiset(Index(assignments).keys)
    ensures Placed(WavesOf(assignments)) == Index(assignments).vals.Keys
  {
    var m := Index(assignments);
    LayersPartition(m.keys, GraphOf(m), {});
    var waves := WavesOf(assignments);
    forall id ensures id in Placed(waves) <==> id in m.vals.Keys {
      FlattenMembers(waves, id);
      PlacedMembers(waves, id);
      assert id in Flatten(waves) <==> id in multiset(Flatten(waves));
      assert id in m.keys <==> id in multiset(m.keys);
      assert id in m.keys <==> id in Elems(m.keys);
    }
  }

  lemma WithoutLast(s: seq<Id>, last: Id, gone: set<Id>, all: seq<Id>)
    requires all == s + [last]
    ensures Without(all, gone) == Without(s, gone) + (if last in gone then [] else [last])
    decreases |s|
  {
    if s != [] {
      WithoutLast(s[1..], last, gone, all[1..]);
    }
  }

  /** The elements of s that are in the set, in the order of s. */
  function Restricted(s: seq<Id>, to: set<Id>): seq<Id> {
    Without(s, Elems(s) - to)
  }

  lemma {:induction false} ReadyInOrder(keys: seq<Id>, g: Graph, placed: set<Id>, gone: set<Id>)
    requires Elems(keys) <= g.Keys
    requires forall id :: id in keys ==> (id in gone <==> !DepsPlaced(g[id], placed))
    ensures Ready(keys, g, placed) == Without(keys, gone)
  {
    if keys != [] {
      var n := |keys| - 1;
      ReadyInOrder(keys[..n], g, placed, gone);
      WithoutLast(keys[..n], keys[n], gone, keys);
    }
  }

  lemma NextWaveInOrder(keys: seq<Id>, g: Graph, placed: set<Id>)
    requires Elems(keys) <= g.Keys
    ensures NextWave(keys, g, placed) == Restricted(keys, Elems(NextWave(keys, g, placed)))
  {
    var wave := NextWave(keys, g, placed);
    if Ready(keys, g, placed) == [] {
      WithoutNone(keys, Elems(keys) - Elems(wave));
    } else {
      ReadyInOrder(keys, g, placed, Elems(keys) - Elems(wave));
    }
  }

  lemma RestrictedRest(keys: seq<Id>, taken: set<Id>, wave: set<Id>)
    requires wave !! taken
    ensures Restricted(Without(keys, taken), wave) == Restricted(keys, wave)
  {
    WithoutFacts(keys, taken);
    var rest := Without(keys, taken);
    WithoutTwice(keys, taken, Elems(rest) - wave);
    WithoutSame(keys, taken + (Elems(rest) - wave), Elems(keys) - wave);
  }

  lemma {:induction false} WithoutSame(s: seq<Id>, a: set<Id>, b: set<Id>)
    requires forall id :: id in s ==> (id in a <==> id in b)
    ensures Without(s, a) == Without(s, b)
  {
    if s != [] { WithoutSame(s[1..], a, b); }
  }

  /** The wave takes its agents from the keys, in their order. */
  ghost predicate Ordered(wave: seq<Id>, keys: seq<Id>) {
    wave == Restricted(keys, Elems(wave)) && Elems(wave) <= Elems(keys)
  }

  lemma LaterInOrder(keys: seq<Id>, wave: seq<Id>, rest: seq<Id>, later: seq<Id>)
    requires rest == Without(keys, Elems(wave)) && Ordered(later, rest)
    ensures Ordered(later, keys)
  {
    WithoutFacts(keys, Elems(wave));
    RestrictedRest(keys, Elems(wave), Elems(later));
  }

  lemma {:induction false} LayersInOrder(keys: seq<Id>, g: Graph, placed: set<Id>)
    requires Elems(keys) <= g.Keys
    ensures forall i :: 0 <= i < |Layers(keys, g, placed)| ==> Ordered(Layers(keys, g, placed)[i], keys)
    decreases |keys|
  {
    if keys != [] {
      var wave, rest := NextWave(keys, g, placed), Rest(keys, g, placed);
      var later := Layers(rest, g, placed + Elems(wave));
      LayersInOrder(rest, g, placed + Elems(wave));
      NextWaveInOrder(keys, g, placed);
      forall i | 0 <= i < |later| ensures Ordered(later[i], keys) {
        LaterInOrder(keys, wave, rest, later[i]);
      }
    }
  }

  /** Within a wave the agents stand in the order in which they are first assigned. */
  lemma WaveOrder(assignments: seq<Assignment>, k: nat)
    requires k < |WavesOf(assignments)|
    ensures WavesOf(assignments)[k] == Restricted(Firsts(AgentIds(assignments)), Elems(WavesOf(assignments)[k]))
  {
    var m := Index(assignments);
    LayersInOrder(m.keys, GraphOf(m), {});
    IndexOrder(assignments);
  }

  /** The agents placed before the scheduler gets stuck, if it ever does. */
  function Core(keys: seq<Id>, g: Graph, placed: set<Id>): set<Id>
    requires Elems(keys) <= g.Keys
    decreases |keys|
  {
    if keys == [] || Stuck(keys, g, placed) then placed
    else Core(Rest(keys, g, placed), g, placed + Elems(NextWave(keys, g, placed)))
  }

  /** s contains every agent all of whose dependencies it contains. */
  ghost predicate ClosedUnderReady(s: set<Id>, g: Graph) {
    forall id :: id in g && DepsPlaced(g[id], s) ==> id in s
  }

  lemma {:induction false} CoreIsLeast(keys: seq<Id>, g: Graph, placed: set<Id>)
    requires Elems(keys) <= g.Keys && g.Keys <= placed + Elems(keys)
    ensures ClosedUnderReady(Core(keys, g, placed), g)
    ensures forall s :: placed <= s && ClosedUnderReady(s, g) ==> Core(keys, g, placed) <= s
    decreases |keys|
  {
    if keys == [] {
    } else if Stuck(keys, g, placed) {
      assert forall id :: id in keys ==> id !in Ready(keys, g, placed);
    } else {
      var wave := NextWave(keys, g, placed);
      CoreIsLeast(Rest(keys, g, placed), g, placed + Elems(wave));
      forall s | placed <= s && ClosedUnderReady(s, g) ensures Core(keys, g, placed) <= s {
        forall id | id in wave ensures id in s { assert DepsPlaced(g[id], placed); }
      }
    }
  }

  /** The waves from a later point of the run on, seen from the point before. */
  lemma PlacedStep(keys: seq<Id>, g: Graph, placed: set<Id>, i: nat)
    requires Elems(keys) <= g.Keys && 0 < i <= |Layers(keys, g, placed)|
    ensures var wave, later := NextWave(keys, g, placed), Layers(keys, g, placed)[1..];
      later == Layers(Rest(keys, g, placed), g, placed + Elems(wave)) &&
      placed + Placed(Layers(keys, g, placed)[..i]) == placed + Elems(wave) + Placed(later[..i - 1])
  {
    PlacedPrefix(Layers(keys, g, placed), placed, i);
  }

  lemma PlacedPrefix(waves: seq<seq<Id>>, placed: set<Id>, i: nat)
    requires 0 < i <= |waves|
    ensures placed + Placed(waves[..i]) == placed + Elems(waves[0]) + Placed(waves[1..][..i - 1])
  {
    assert waves[..i][1..] == waves[1..][..i - 1];
  }

  /** A forced wave is the last one, and exactly the core is placed before it. */
  lemma {:induction false} ForcedIsLast(keys: seq<Id>, g: Graph, placed: set<Id>, i: nat)
    requires Elems(keys) <= g.Keys && i < |Layers(keys, g, placed)|
    requires Forced(Layers(keys, g, placed)[i], g, placed + Placed(Layers(keys, g, placed)[..i]))
    ensures i == |Layers(keys, g, placed)| - 1
    ensures placed + Placed(Layers(keys, g, placed)[..i]) == Core(keys, g, placed)
    decreases i
  {
    var waves, wave, rest := Layers(keys, g, placed), NextWave(keys, g, placed), Rest(keys, g, placed);
    if i == 0 {
      assert placed + Placed(waves[..0]) == placed;
      ForcedMeansStuck(keys, g, placed);
    } else {
      PlacedStep(keys, g, placed, i);
      assert waves[i] == waves[1..][i - 1];
      if Stuck(keys, g, placed) { StuckTakesAll(keys, g, placed); }
      ForcedIsLast(rest, g, placed + Elems(wave), i - 1);
    }
  }

  lemma StuckTakesAll(keys: seq<Id>, g: Graph, placed: set<Id>)
    requires Elems(keys) <= g.Keys && Stuck(keys, g, placed)
    ensures Rest(keys, g, placed) == []
  {
    EmptyElems(Rest(keys, g, placed));
  }

  lemma ForcedMeansStuck(keys: seq<Id>, g: Graph, placed: set<Id>)
    requires Elems(keys) <= g.Keys && keys != [] && Forced(NextWave(keys, g, placed), g, placed)
    ensures Stuck(keys, g, placed) && Layers(keys, g, placed) == [NextWave(keys, g, placed)]
  {
    assert Ready(keys, g, placed) == [];
    StuckTakesAll(keys, g, placed);
  }

  /** If more than the core is placed in the end, some wave was forced. */
  lemma {:induction false} ForcedExists(keys: seq<Id>, g: Graph, placed: set<Id>) returns (i: nat)
    requires Elems(keys) <= g.Keys
    requires placed + Placed(Layers(keys, g, placed)) != Core(keys, g, placed)
    ensures i < |Layers(keys, g, placed)|
    ensures Forced(Layers(keys, g, placed)[i], g, placed + Placed(Layers(keys, g, placed)[..i]))
    decreases |keys|
  {
    var waves := Layers(keys, g, placed);
    var wave, rest := NextWave(keys, g, placed), Rest(keys, g, placed);
    if Stuck(keys, g, placed) {
      i := 0;
      assert placed + Placed(waves[..0]) == placed;
      assert wave[0] in Elems(keys) && wave[0] !in Ready(keys, g, placed);
    } else {
      PlacedStep(keys, g, placed, |waves|);
      assert waves[1..][..|waves| - 1] == waves[1..] && waves[..|waves|] == waves;
      var later := ForcedExists(rest, g, placed + Elems(wave));
      i := later + 1;
      PlacedStep(keys, g, placed, i);
      assert waves[i] == waves[1..][later];
    }
  }

  /** The fallback never fires exactly when all that is placed is the core. */
  lemma FreeMeansCore(assignments: seq<Assignment>)
    ensures FallbackFree(assignments) <==>
      Placed(WavesOf(assignments)) == Core(Index(assignments).keys, GraphOf(Index(assignments)), {})
  {
    var m := Index(assignments);
    var g, waves := GraphOf(m), WavesOf(assignments);
    assert forall j :: 0 <= j < |waves| ==> {} + Placed(waves[..j]) == Placed(waves[..j]);
    assert {} + Placed(waves) == Placed(waves);
    if Placed(waves) != Core(m.keys, g, {}) {
      var j := ForcedExists(m.keys, g, {});
      assert ForcedAt(waves, g, j);
    } else if j :| 0 <= j < |waves| && ForcedAt(waves, g, j) {
      ForcedIsLast(m.keys, g, {}, j);
      WaveIsNew(m.keys, g, {}, j);
      PlacedMembers(waves, waves[j][0]);
      assert false;
    }
  }

  /** The fallback fires at most once, as the last wave, and what is placed before it is exactly the
      least set that contains each agent whose dependencies it contains. */
  lemma FallbackShape(assignments: seq<Assignment>, i: nat)
    requires i < |WavesOf(assignments)| && ForcedAt(WavesOf(assignments), GraphOf(Index(assignments)), i)
    ensures i == |WavesOf(assignments)| - 1
    ensures IsLeastClosed(Placed(WavesOf(assignments)[..i]), GraphOf(Index(assignments)))
  {
    var m := Index(assignments);
    var g, waves := GraphOf(m), WavesOf(assignments);
    CoreIsLeast(m.keys, g, {});
    assert {} + Placed(waves[..i]) == Placed(waves[..i]);
    ForcedIsLast(m.keys, g, {}, i);
  }

  /** It never fires exactly when that least set holds every assigned agent. */
  lemma FallbackFreeIff(assignments: seq<Assignment>)
    ensures FallbackFree(assignments) <==> IsLeastClosed(Index(assignments).vals.Keys, GraphOf(Index(assignments)))
  {
    var m := Index(assignments);
    var core := Core(m.keys, GraphOf(m), {});
    FreeMeansCore(assignments);
    AllPlaced(assignments);
    CoreLeastClosed(m.keys, GraphOf(m));
    LeastIsOne(core, m.vals.Keys, GraphOf(m));
  }

  lemma AllPlaced(assignments: seq<Assignment>)
    ensures Placed(WavesOf(assignments)) == Index(assignments).vals.Keys
  {
    WavesPartition(assignments);
  }

  lemma CoreLeastClosed(keys: seq<Id>, g: Graph)
    requires Elems(keys) == g.Keys
    ensures IsLeastClosed(Core(keys, g, {}), g)
  {
    CoreIsLeast(keys, g, {});
  }

  lemma LeastIsOne(a: set<Id>, b: set<Id>, g: Graph)
    requires IsLeastClosed(a, g)
    ensures IsLeastClosed(b, g) <==> a == b
  {}

  ghost predicate IsLeastClosed(s: set<Id>, g: Graph) {
    ClosedUnderReady(s, g) && forall t :: ClosedUnderReady(t, g) ==> s <= t
  }

  ghost predicate FallbackFree(assignments: seq<Assignment>) {
    var waves := WavesOf(assignments);
    forall i :: 0 <= i < |waves| ==> !ForcedAt(waves, GraphOf(Index(assignments)), i)
  }

  /** No wave is empty or repeats an agent of an earlier one. */
  lemma {:induction false} WaveIsNew(keys: seq<Id>, g: Graph, placed: set<Id>, i: nat)
    requires Elems(keys) <= g.Keys && i < |Layers(keys, g, placed)|
    ensures var waves := Layers(keys, g, placed);
      waves[i] != [] && Elems(waves[i]) <= Elems(keys) && Placed(waves[..i]) !! Elems(waves[i])
    decreases i
  {
    var waves := Layers(keys, g, placed);
    var wave, rest := NextWave(keys, g, placed), Rest(keys, g, placed);
    if i > 0 {
      PlacedPrefix(waves, {}, i);
      WaveIsNew(rest, g, placed + Elems(wave), i - 1);
      assert waves[i] == waves[1..][i - 1];
    }
  }

  // ---------------------------------------------------------------------------------------------
  // Acyclic dependencies
  // ---------------------------------------------------------------------------------------------

  /** A schedule gives every agent a slot after the slots of all its dependencies. */
  ghost predicate ValidSchedule(slot: map<Id, nat>, g: Graph) {
    slot.Keys == g.Keys &&
    forall id, d :: id in g && d in g[id] ==> d in slot && slot[d] < slot[id]
  }

  /** With a valid schedule the scheduler is not stuck, and once every agent of slot n or less that
      remains is taken out, what is left has slots above n. */
  lemma SlotStep(keys: seq<Id>, g: Graph, placed: set<Id>, slot: map<Id, nat>, n: nat, id: Id)
    requires Elems(keys) <= g.Keys && g.Keys <= placed + Elems(keys)
    requires ValidSchedule(slot, g)
    requires forall k :: k in Elems(keys) ==> slot[k] >= n
    requires id in Elems(keys)
    ensures !Stuck(keys, g, placed)
    ensures id in Elems(Rest(keys, g, placed)) ==> slot[id] >= n + 1
  {
    if Stuck(keys, g, placed) { StuckDescends(keys, g, placed, slot, keys[0]); }
    if slot[id] == n { LowestIsReady(keys, g, placed, slot, id); }
  }

  /** An agent of the lowest slot that remains can be placed. */
  lemma LowestIsReady(keys: seq<Id>, g: Graph, placed: set<Id>, slot: map<Id, nat>, id: Id)
    requires Elems(keys) <= g.Keys && g.Keys <= placed + Elems(keys) && ValidSchedule(slot, g)
    requires id in Elems(keys) && forall k :: k in Elems(keys) ==> slot[k] >= slot[id]
    ensures id in Ready(keys, g, placed)
  {
    forall d | d in g[id] ensures d in placed {
      assert slot[d] < slot[id];
    }
    assert DepsPlaced(g[id], placed);
  }

  lemma {:induction false} LayersEarliest(keys: seq<Id>, g: Graph, placed: set<Id>, slot: map<Id, nat>, n: nat, i: nat,
                                          id: Id)
    requires Elems(keys) <= g.Keys && g.Keys <= placed + Elems(keys)
    requires ValidSchedule(slot, g)
    requires forall k :: k in Elems(keys) ==> slot[k] >= n
    requires i < |Layers(keys, g, placed)| && id in Layers(keys, g, placed)[i]
    ensures id in slot && slot[id] >= n + i
    decreases i
  {
    var wave, rest := NextWave(keys, g, placed), Rest(keys, g, placed);
    if i == 0 {
      assert id in Elems(wave);
    } else {
      forall k | k in Elems(rest) ensures slot[k] >= n + 1 { SlotStep(keys, g, placed, slot, n, k); }
      PlacedStep(keys, g, placed, i);
      LayersEarliest(rest, g, placed + Elems(wave), slot, n + 1, i - 1, id);
    }
  }

  lemma {:induction false} ScheduleMeansCore(keys: seq<Id>, g: Graph, placed: set<Id>, slot: map<Id, nat>)
    requires Elems(keys) <= g.Keys && g.Keys <= placed + Elems(keys)
    requires ValidSchedule(slot, g)
    ensures Core(keys, g, placed) == placed + Elems(keys)
    decreases |keys|
  {
    if keys != [] {
      var wave, rest := NextWave(keys, g, placed), Rest(keys, g, placed);
      assert keys[0] in Elems(keys);
      SlotStep(keys, g, placed, slot, 0, keys[0]);
      ScheduleMeansCore(rest, g, placed + Elems(wave), slot);
      assert placed + Elems(wave) + Elems(rest) == placed + Elems(keys);
    }
  }

  /** A stuck scheduler needs slots that descend for ever. */
  lemma {:induction false} StuckDescends(keys: seq<Id>, g: Graph, placed: set<Id>, slot: map<Id, nat>, id: Id)
    requires Elems(keys) <= g.Keys && g.Keys <= placed + Elems(keys)
    requires ValidSchedule(slot, g) && Stuck(keys, g, placed) && id in keys
    ensures false
    decreases slot[id]
  {
    assert id !in Ready(keys, g, placed);
    var d :| d in g[id] && d !in placed;
    StuckDescends(keys, g, placed, slot, d);
  }

  /** With a valid schedule the fallback never fires. */
  lemma ScheduleMeansFree(assignments: seq<Assignment>, slot: map<Id, nat>)
    requires ValidSchedule(slot, GraphOf(Index(assignments)))
    ensures FallbackFree(assignments)
  {
    var m := Index(assignments);
    WavesPartition(assignments);
    ScheduleMeansCore(m.keys, GraphOf(m), {}, slot);
    FreeMeansCore(assignments);
  }

  /** No valid schedule gives an agent an earlier slot than the wave it is placed in. */
  lemma Earliest(assignments: seq<Assignment>, slot: map<Id, nat>, i: nat, id: Id)
    requires ValidSchedule(slot, GraphOf(Index(assignments)))
    requires i < |WavesOf(assignments)| && id in WavesOf(assignments)[i]
    ensures id in slot && i <= slot[id]
  {
    var m := Index(assignments);
    LayersEarliest(m.keys, GraphOf(m), {}, slot, 0, i, id);
  }

  /** So no valid schedule has fewer slots than there are waves. */
  lemma FewestWaves(assignments: seq<Assignment>, slot: map<Id, nat>, slots: nat)
    requires ValidSchedule(slot, GraphOf(Index(assignments)))
    requires forall id :: id in slot ==> slot[id] < slots
    ensures |WavesOf(assignments)| <= slots
  {
    var waves := WavesOf(assignments);
    if waves != [] {
      var i := |waves| - 1;
      WavesNotEmpty(assignments, i);
      var id := waves[i][0];
      Earliest(assignments, slot, i, id);
      assert slot[id] < slots;
    }
  }

  lemma WavesNotEmpty(assignments: seq<Assignment>, i: nat)
    requires i < |WavesOf(assignments)|
    ensures WavesOf(assignments)[i] != []
  {
    WavesPartition(assignments);
  }

  /** An agent outside a forced wave comes strictly after all its dependencies. */
  lemma InOrder(assignments: seq<Assignment>, i: nat, id: Id, d: Id)
    requires i < |WavesOf(assignments)| && id in WavesOf(assignments)[i]
    requires !ForcedAt(WavesOf(assignments), GraphOf(Index(assignments)), i)
    ensures id in Index(assignments).vals
    ensures d in Index(assignments).vals[id].Deps() ==> exists j :: 0 <= j < i && d in WavesOf(assignments)[j]
  {
    var waves := WavesOf(assignments);
    WavesPartition(assignments);
    PlacedMembers(waves, id);
    if d in Index(assignments).vals[id].Deps() {
      assert d in Placed(waves[..i]);
      PlacedMembers(waves[..i], d);
      var j :| 0 <= j < i && d in waves[..i][j];
      assert d in waves[j];
    }
  }

  /** A cycle: each agent of p waits for the next one, and the last is the first. */
  ghost predicate Cycle(p: seq<Id>, g: Graph) {
    |p| >= 2 && p[0] == p[|p| - 1] && Path(p, g)
  }

  ghost predicate Path(p: seq<Id>, g: Graph) {
    forall i {:trigger p[i]} :: 0 <= i < |p| - 1 ==> p[i] in g && p[i + 1] in g[p[i]]
  }

  ghost predicate Acyclic(g: Graph) {
    forall p :: !Cycle(p, g)
  }

  /** Dependencies name assigned agents only. */
  ghost predicate Closed(g: Graph) {
    forall id, d :: id in g && d in g[id] ==> d in g
  }

  /** An acyclic, closed dependency relation is one the scheduler finishes without forcing. */
  lemma FallbackFreeIffAcyclic(assignments: seq<Assignment>)
    ensures FallbackFree(assignments) <==>
      Closed(GraphOf(Index(assignments))) && Acyclic(GraphOf(Index(assignments)))
  {
    var g := GraphOf(Index(assignments));
    if FallbackFree(assignments) {
      FreeMeansAcyclic(assignments);
    } else if Closed(g) {
      var cycle := StuckHasCycle(assignments);
    }
  }

  /** Without the fallback, dependencies are assigned, and lie in earlier waves. */
  lemma FreeMeansAcyclic(assignments: seq<Assignment>)
    requires FallbackFree(assignments)
    ensures Closed(GraphOf(Index(assignments))) && Acyclic(GraphOf(Index(assignments)))
  {
    forall p ensures !Cycle(p, GraphOf(Index(assignments))) {
      if Cycle(p, GraphOf(Index(assignments))) { WavesFall(assignments, p); }
    }
    FreeMeansClosed(assignments);
  }

  lemma FreeMeansClosed(assignments: seq<Assignment>)
    requires FallbackFree(assignments)
    ensures Closed(GraphOf(Index(assignments)))
  {
    var g := GraphOf(Index(assignments));
    if id, d :| id in g && d in g[id] && d !in g { DependencyFirst(assignments, id, d); }
  }

  /** From one agent of a path to the next, the wave falls. */
  lemma StepFalls(assignments: seq<Assignment>, p: seq<Id>, i: nat)
    requires FallbackFree(assignments) && i + 1 < |p| && Path(p, GraphOf(Index(assignments)))
    ensures FirstWave(WavesOf(assignments), p[i + 1]) < FirstWave(WavesOf(assignments), p[i])
  {
    assert p[i] in GraphOf(Index(assignments));
    DependencyFirst(assignments, p[i], p[i + 1]);
  }

  lemma WavesFall(assignments: seq<Assignment>, p: seq<Id>)
    requires FallbackFree(assignments) && |p| >= 2 && Path(p, GraphOf(Index(assignments)))
    ensures FirstWave(WavesOf(assignments), p[|p| - 1]) < FirstWave(WavesOf(assignments), p[0])
  {
    StepFalls(assignments, p, 0);
    for k := 1 to |p| - 1
      invariant FirstWave(WavesOf(assignments), p[k]) < FirstWave(WavesOf(assignments), p[0])
    {
      StepFalls(assignments, p, k);
    }
  }

  lemma DependencyFirst(assignments: seq<Assignment>, id: Id, d: Id)
    requires FallbackFree(assignments) && id in Index(assignments).vals
    requires d in Index(assignments).vals[id].Deps()
    ensures d in Index(assignments).vals && FirstWave(WavesOf(assignments), d) < FirstWave(WavesOf(assignments), id)
  {
    var waves := WavesOf(assignments);
    WavesPartition(assignments);
    PlacedMembers(waves, id);
    FirstWaveFound(waves, id);
    InOrder(assignments, FirstWave(waves, id), id, d);
    PlacedMembers(waves, d);
    FirstWaveFound(waves, d);
  }

  /** The earliest of the waves that hold the agent. */
  function FirstWave(waves: seq<seq<Id>>, id: Id): (i: nat)
    ensures i <= |waves|
  {
    if waves == [] || id in waves[0] then 0 else 1 + FirstWave(waves[1..], id)
  }

  lemma {:induction false} FirstWaveFound(waves: seq<seq<Id>>, id: Id)
    requires id in Placed(waves)
    ensures FirstWave(waves, id) < |waves| && id in waves[FirstWave(waves, id)]
    ensures forall j :: 0 <= j < |waves| && id in waves[j] ==> FirstWave(waves, id) <= j
  {
    if id !in waves[0] {
      FirstWaveFound(waves[1..], id);
      forall j | 0 <= j < |waves| && id in waves[j] ensures FirstWave(waves, id) <= j {
        if j > 0 { assert id in waves[1..][j - 1]; }
      }
    }
  }

  /** If the scheduler is forced, the least closed set misses an agent, and following unplaced
      dependencies from there runs into a cycle. */
  lemma StuckHasCycle(assignments: seq<Assignment>) returns (cycle: seq<Id>)
    requires !FallbackFree(assignments) && Closed(GraphOf(Index(assignments)))
    ensures Cycle(cycle, GraphOf(Index(assignments)))
  {
    var core := CoreMisses(assignments);
    cycle := FindCycle(GraphOf(Index(assignments)), core);
  }

  lemma CoreMisses(assignments: seq<Assignment>) returns (core: set<Id>)
    requires !FallbackFree(assignments)
    ensures ClosedUnderReady(core, GraphOf(Index(assignments)))
    ensures GraphOf(Index(assignments)).Keys - core != {}
  {
    var m := Index(assignments);
    core := Core(m.keys, GraphOf(m), {});
    CoreIsLeast(m.keys, GraphOf(m), {});
    FreeMeansCore(assignments);
    WavesPartition(assignments);
    LeastMisses(core, GraphOf(m));
  }

  lemma LeastMisses(core: set<Id>, g: Graph)
    requires IsLeastClosed(core, g) && core != g.Keys
    ensures g.Keys - core != {}
  {
    assert ClosedUnderReady(g.Keys, g) && core <= g.Keys;
    var id :| id in g.Keys && id !in core;
    assert id in g.Keys - core;
  }

  lemma FindCycle(g: Graph, core: set<Id>) returns (cycle: seq<Id>)
    requires ClosedUnderReady(core, g) && Closed(g) && g.Keys - core != {}
    ensures Cycle(cycle, g)
  {
    var p := Wander(g, core, |g.Keys - core|);
    Pigeonhole(p, g.Keys - core);
    var i, j :| 0 <= i < j < |p| && p[i] == p[j];
    cycle := p[i..j + 1];
    ReturnIsCycle(p, g, i, j);
  }

  lemma ReturnIsCycle(p: seq<Id>, g: Graph, i: nat, j: nat)
    requires i < j < |p| && Path(p, g) && p[i] == p[j]
    ensures Cycle(p[i..j + 1], g)
  {
    SubPath(p, g, i, j + 1);
  }

  lemma SubPath(p: seq<Id>, g: Graph, i: nat, j: nat)
    requires i <= j <= |p| && Path(p, g)
    ensures Path(p[i..j], g)
  {
    var q := p[i..j];
    forall k {:trigger q[k]} | 0 <= k < |q| - 1 ensures q[k] in g && q[k + 1] in g[q[k]] {
      assert q[k] == p[i + k] && q[k + 1] == p[i + k + 1];
    }
  }

  /** A walk of n steps through agents outside the core. */
  lemma Wander(g: Graph, core: set<Id>, n: nat) returns (p: seq<Id>)
    requires ClosedUnderReady(core, g) && Closed(g) && g.Keys - core != {}
    ensures |p| == n + 1 && Path(p, g) && Elems(p) <= g.Keys - core
  {
    var id :| id in g.Keys - core;
    p := [id];
    for k := 0 to n
      invariant |p| == k + 1 && Path(p, g) && Elems(p) <= g.Keys - core
    {
      p := Further(g, core, p);
    }
  }

  lemma Further(g: Graph, core: set<Id>, p: seq<Id>) returns (q: seq<Id>)
    requires ClosedUnderReady(core, g) && Closed(g) && p != [] && Path(p, g) && Elems(p) <= g.Keys - core
    ensures |q| == |p| + 1 && Path(q, g) && Elems(q) <= g.Keys - core
  {
    var last := p[|p| - 1];
    assert last in Elems(p);
    var d := Unplaced(g, core, last);
    q := p + [d];
    PathExtend(p, d, g);
    assert Elems(q) == Elems(p) + {d};
  }

  lemma Unplaced(g: Graph, core: set<Id>, id: Id) returns (d: Id)
    requires ClosedUnderReady(core, g) && Closed(g) && id in g && id !in core
    ensures d in g[id] && d in g && d !in core
  {
    d :| d in g[id] && d !in core;
  }

  lemma PathExtend(p: seq<Id>, d: Id, g: Graph)
    requires p != [] && Path(p, g) && p[|p| - 1] in g && d in g[p[|p| - 1]]
    ensures Path(p + [d], g)
  {
    var q := p + [d];
    forall i {:trigger q[i]} | 0 <= i < |q| - 1 ensures q[i] in g && q[i + 1] in g[q[i]] {
      assert q[i] == p[i];
      assert i < |p| - 1 ==> q[i + 1] == p[i + 1];
    }
  }
}
