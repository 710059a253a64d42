/** The tree of abort controllers of a concurrent run. Session 0 is followed by one controller for
    every agent spawned and one for every group run concurrently; each member of a group has a
    controller that follows both its group and its agent's controller, and the run of the member has
    one that follows the member's. Abort events are dispatched synchronously. */
module AbortChain {
  import opened Collections

  datatype Kind = Session | Agent(id: Id) | Group | Member | Runner

  /** All controllers, numbered as they are created; `parent` is the controller whose signal was
      checked when a controller was created, `listeners` what an abort event triggers. */
  datatype Net = Net(kinds: seq<Kind>, parent: seq<nat>, listeners: seq<seq<nat>>, aborted: set<nat>) {
    function Size(): nat { |kinds| }
  }

  ghost predicate ParentFits(n: Net, v: nat)
    requires 0 < v < |n.kinds| && |n.parent| == |n.kinds|
  {
    n.parent[v] < v &&
    match n.kinds[v]
    case Session => false
    case Agent(_) => n.parent[v] == 0
    case Group => n.parent[v] == 0
    case Member => n.kinds[n.parent[v]].Agent?
    case Runner => n.kinds[n.parent[v]].Member?
  }

  ghost predicate Shape(n: Net) {
    |n.kinds| > 0 && |n.parent| == |n.kinds| && |n.listeners| == |n.kinds| &&
    n.kinds[0] == Session &&
    (forall v :: v in n.aborted ==> v < |n.kinds|) &&
    (forall v :: 0 < v < |n.kinds| ==> ParentFits(n, v)) &&
    (forall u, v :: 0 <= u < |n.kinds| && v in n.listeners[u] ==> ListenerFits(n, u, v))
  }

  ghost predicate ListenerFits(n: Net, u: nat, v: nat)
    requires u < |n.kinds| == |n.parent|
  {
    u < v < |n.kinds| && (n.parent[v] == u || (n.kinds[u].Group? && n.kinds[v].Member?))
  }

  lemma ShapeWithAborted(n: Net, aborted: set<nat>)
    requires Shape(n) && forall v :: v in aborted ==> v < n.Size()
    ensures Shape(n.(aborted := aborted))
  {
    var m := n.(aborted := aborted);
    forall v | 0 < v < |m.kinds| ensures ParentFits(m, v) { assert ParentFits(n, v); }
    forall u, v | 0 <= u < |m.kinds| && v in m.listeners[u] ensures ListenerFits(m, u, v) {
      assert ListenerFits(n, u, v);
    }
  }

  /** The abort of the parent has arrived or will arrive. */
  ghost predicate Linked(n: Net, v: nat)
    requires 0 < v < |n.kinds| && |n.parent| == |n.kinds| == |n.listeners| && n.parent[v] < v
  {
    if n.parent[v] in n.aborted then v in n.aborted else v in n.listeners[n.parent[v]]
  }

  ghost predicate ValidNet(n: Net) {
    Shape(n) && forall v :: 0 < v < |n.kinds| ==> ParentFits(n, v) && Linked(n, v)
  }

  /** s contains what the abort of any of its own controllers triggers. */
  ghost predicate Closed(n: Net, s: set<nat>, except: set<nat>) {
    forall u, v :: u in s - except && u < |n.listeners| && v in n.listeners[u] ==> v in s
  }

  /** `controller.abort()`, as a relation: `after` are the aborted controllers in the end. It adds the
      least set that contains c and, of each controller not aborted before, all listeners. */
  ghost predicate Aborts(n: Net, c: nat, after: set<nat>) {
    n.aborted + {c} <= after &&
    Closed(n, after, n.aborted) &&
    forall s :: c in s && Closed(n, s, n.aborted) ==> after <= n.aborted + s
  }

  /** The controllers of one member of a group. */
  ghost predicate MemberOf(n: Net, agent: nat, member: nat, runner: nat) {
    |n.parent| == |n.kinds| && member < runner < |n.kinds| &&
    n.kinds[member] == Member && n.parent[member] == agent &&
    n.kinds[runner] == Runner && n.parent[runner] == member
  }

  lemma AbortsUnique(n: Net, c: nat, one: set<nat>, two: set<nat>)
    requires Aborts(n, c, one) && Aborts(n, c, two)
    ensures one == two
  {}

  // ---------------------------------------------------------------------------------------------
  // What aborts reach
  // ---------------------------------------------------------------------------------------------

  lemma AbortKeepsValid(n: Net, c: nat, after: set<nat>)
    requires ValidNet(n) && c < n.Size() && Aborts(n, c, after)
    requires forall v :: v in after ==> v < n.Size()
    ensures ValidNet(n.(aborted := after))
  {
    var m := n.(aborted := after);
    ShapeWithAborted(n, after);
    forall v | 0 < v < |m.kinds| ensures ParentFits(m, v) && Linked(m, v) {
      assert ParentFits(n, v) && Linked(n, v);
    }
  }

  /** Once the session is aborted, every controller there is, whenever it was created, is aborted. */
  lemma {:induction false} SessionReachesAll(n: Net, v: nat)
    requires ValidNet(n) && 0 in n.aborted && v < n.Size()
    ensures v in n.aborted
  {
    if v > 0 {
      assert ParentFits(n, v) && Linked(n, v);
      SessionReachesAll(n, n.parent[v]);
    }
  }

  /** The controllers of one spawned agent: its own, its members', and their runs'. */
  function Chain(n: Net, agent: nat): set<nat> {
    var members := set v | 0 < v < |n.kinds| && v < |n.parent| && n.parent[v] == agent;
    {agent} + members + (set v | 0 < v < |n.kinds| && v < |n.parent| && n.parent[v] in members)
  }

  /** Aborting an agent's controller aborts its chain and nothing else. */
  lemma AgentAbortExact(n: Net, agent: nat, after: set<nat>)
    requires ValidNet(n) && agent < n.Size() && n.kinds[agent].Agent?
    requires Aborts(n, agent, after)
    ensures after == n.aborted + Chain(n, agent)
  {
    var chain := Chain(n, agent);
    forall u, v | u in chain - n.aborted && u < |n.listeners| && v in n.listeners[u] ensures v in chain {
      ChainStep(n, agent, u, v);
    }
    assert Closed(n, chain, n.aborted);
    forall v | v in chain ensures v in after {
      if v != agent {
        assert ParentFits(n, v) && Linked(n, v);
        if n.parent[v] != agent {
          assert ParentFits(n, n.parent[v]) && Linked(n, n.parent[v]);
        }
      }
    }
  }

  lemma ChainKinds(n: Net, agent: nat, u: nat)
    requires ValidNet(n) && agent < n.Size() && n.kinds[agent].Agent?
    requires u in Chain(n, agent) && u != agent
    ensures u < n.Size() && ((n.kinds[u].Member? && n.parent[u] == agent) || n.kinds[u].Runner?)
  {
    assert ParentFits(n, u);
    if n.parent[u] != agent { assert ParentFits(n, n.parent[u]); }
  }

  lemma ChainStep(n: Net, agent: nat, u: nat, v: nat)
    requires ValidNet(n) && agent < n.Size() && n.kinds[agent].Agent?
    requires u in Chain(n, agent) && u < n.Size() && v in n.listeners[u]
    ensures v in Chain(n, agent)
  {
    assert ListenerFits(n, u, v) && ParentFits(n, v);
    if u != agent { ChainKinds(n, agent, u); }
  }

  /** The chains of two agents have nothing in common. */
  lemma ChainsDisjoint(n: Net, one: nat, two: nat)
    requires ValidNet(n) && one < n.Size() && two < n.Size() && one != two
    requires n.kinds[one].Agent? && n.kinds[two].Agent?
    ensures Chain(n, one) !! Chain(n, two)
  {
    forall v | v in Chain(n, one) ensures v !in Chain(n, two) {
      if v > 0 {
        assert ParentFits(n, v);
        if n.parent[v] > 0 { assert ParentFits(n, n.parent[v]); }
      }
    }
  }

  // ---------------------------------------------------------------------------------------------
  // The operations
  // ---------------------------------------------------------------------------------------------

  /** A controller is created; it is aborted at once or listens to its parent. */
  function Created(n: Net, kind: Kind, parent: nat): Net
    requires Shape(n) && parent < n.Size()
  {
    var v := n.Size();
    Net(n.kinds + [kind], n.parent + [parent],
        (if parent in n.aborted then n.listeners else n.listeners[parent := n.listeners[parent] + [v]]) + [[]],
        if parent in n.aborted then n.aborted + {v} else n.aborted)
  }

  predicate KindFits(n: Net, kind: Kind, parent: nat)
    requires parent < n.Size()
  {
    match kind
    case Session => false
    case Agent(_) => parent == 0
    case Group => parent == 0
    case Member => n.kinds[parent].Agent?
    case Runner => n.kinds[parent].Member?
  }

  lemma CreatedValid(n: Net, kind: Kind, parent: nat)
    requires ValidNet(n) && parent < n.Size()
    requires KindFits(n, kind, parent)
    ensures ValidNet(Created(n, kind, parent))
  {
    var m, v := Created(n, kind, parent), n.Size();
    forall u | 0 < u < |m.kinds| ensures ParentFits(m, u) && Linked(m, u) {
      if u < v { assert ParentFits(n, u) && Linked(n, u); }
    }
    forall u, w | 0 <= u < |m.kinds| && w in m.listeners[u] ensures ListenerFits(m, u, w) {
      if u < v && w in n.listeners[u] { assert ListenerFits(n, u, w); }
    }
  }

  /** A further listener on a group, registered without looking at its signal. */
  function GroupListener(n: Net, group: nat, member: nat): Net
    requires group < |n.listeners|
  {
    n.(listeners := n.listeners[group := n.listeners[group] + [member]])
  }

  lemma GroupListenerValid(n: Net, group: nat, member: nat)
    requires ValidNet(n) && group < member < n.Size() && n.kinds[group].Group? && n.kinds[member].Member?
    ensures ValidNet(GroupListener(n, group, member))
  {
    var m := GroupListener(n, group, member);
    forall u, w | 0 <= u < |m.kinds| && w in m.listeners[u] ensures ListenerFits(m, u, w) {
      if w in n.listeners[u] { assert ListenerFits(n, u, w); }
    }
    forall u | 0 < u < |m.kinds| ensures ParentFits(m, u) && Linked(m, u) {
      assert ParentFits(n, u) && Linked(n, u);
    }
  }

  // ---------------------------------------------------------------------------------------------
  // Who is aborted, read off what has been done
  // ---------------------------------------------------------------------------------------------

  datatype Op = Registers(id: Id) | Runs(agents: seq<nat>) | KillsSession | KillsAgent(id: Id)

  /** How many controllers there are after the operations. */
  function Count(ops: seq<Op>): nat {
    if ops == [] then 1
    else
      Count(ops[..|ops| - 1]) + match ops[|ops| - 1]
      case Registers(_) => 1
      case Runs(agents) => 1 + 2 * |agents|
      case _ => 0
  }

  /** The controller registered last for each agent. */
  function Registered(ops: seq<Op>): map<Id, nat> {
    if ops == [] then map[]
    else
      var before, op := ops[..|ops| - 1], ops[|ops| - 1];
      if op.Registers? then Registered(before)[op.id := Count(before)] else Registered(before)
  }

  /** The controllers that were registered when their agents were killed. */
  function Killed(ops: seq<Op>): set<nat> {
    if ops == [] then {}
    else
      var before, op := ops[..|ops| - 1], ops[|ops| - 1];
      Killed(before) + (if op.KillsAgent? && op.id in Registered(before) then {Registered(before)[op.id]} else {})
  }

  /** The agent's controller that a controller serves, if it serves one. */
  function AgentOf(n: Net, v: nat): Option<nat>
    requires Shape(n) && v < n.Size()
  {
    match n.kinds[v]
    case Session => None
    case Agent(_) => Some(v)
    case Group => None
    case Member => Some(n.parent[v])
    case Runner =>
      assert v > 0 && ParentFits(n, v);
      Some(n.parent[n.parent[v]])
  }

  /** Aborted are all controllers once the session was killed, and those that serve a killed agent. */
  ghost predicate AsKilled(n: Net, session: bool, killed: set<nat>)
    requires Shape(n)
  {
    (forall a :: a in killed ==> a < n.Size()) &&
    forall v: nat :: v < n.Size() ==>
      (v in n.aborted <==> session || (AgentOf(n, v).Some? && AgentOf(n, v).value in killed))
  }

  lemma ServesParent(n: Net, kind: Kind, parent: nat)
    requires ValidNet(n) && parent < n.Size() && KindFits(n, kind, parent)
    requires var m := Created(n, kind, parent); ValidNet(m)
    ensures var m, v := Created(n, kind, parent), n.Size();
      AgentOf(m, v) == if kind.Agent? then Some(v) else AgentOf(n, parent)
    ensures forall u: nat :: u < n.Size() ==> AgentOf(Created(n, kind, parent), u) == AgentOf(n, u)
  {
    var m := Created(n, kind, parent);
    forall u: nat | u < n.Size() ensures AgentOf(m, u) == AgentOf(n, u) {
      if u > 0 { assert ParentFits(n, u); }
    }
  }

  lemma CreatedAsKilled(n: Net, kind: Kind, parent: nat, session: bool, killed: set<nat>)
    requires ValidNet(n) && parent < n.Size() && KindFits(n, kind, parent) && AsKilled(n, session, killed)
    ensures ValidNet(Created(n, kind, parent)) && AsKilled(Created(n, kind, parent), session, killed)
  {
    CreatedValid(n, kind, parent);
    ServesParent(n, kind, parent);
  }

  lemma GroupListenerAsKilled(n: Net, group: nat, member: nat, session: bool, killed: set<nat>)
    requires ValidNet(n) && group < member < n.Size() && n.kinds[group].Group? && n.kinds[member].Member?
    requires AsKilled(n, session, killed)
    ensures ValidNet(GroupListener(n, group, member)) && AsKilled(GroupListener(n, group, member), session, killed)
  {
    GroupListenerValid(n, group, member);
    forall v: nat | v < n.Size() ensures AgentOf(GroupListener(n, group, member), v) == AgentOf(n, v) {
      if v > 0 { assert ParentFits(n, v); }
    }
  }

  /** An agent's chain are the controllers that serve it. */
  lemma ChainServes(n: Net, agent: nat, v: nat)
    requires ValidNet(n) && agent < n.Size() && n.kinds[agent].Agent? && v < n.Size()
    ensures v in Chain(n, agent) <==> AgentOf(n, v) == Some(agent)
  {
    if v > 0 {
      assert ParentFits(n, v);
      if n.parent[v] > 0 { assert ParentFits(n, n.parent[v]); }
    }
  }

  lemma AbortedAsKilled(n: Net, agent: nat, after: set<nat>, session: bool, killed: set<nat>)
    requires ValidNet(n) && agent < n.Size() && n.kinds[agent].Agent? && AsKilled(n, session, killed)
    requires after == n.aborted + Chain(n, agent)
    requires Shape(n.(aborted := after))
    ensures AsKilled(n.(aborted := after), session, killed + {agent})
  {
    var m := n.(aborted := after);
    forall v: nat | v < n.Size()
      ensures v in after <==> session || (AgentOf(m, v).Some? && AgentOf(m, v).value in killed + {agent})
    {
      ChainServes(n, agent, v);
      assert AgentOf(m, v) == AgentOf(n, v);
    }
  }

  ghost predicate Serves(n: Net, v: nat, id: Id) {
    v < n.Size() && n.kinds[v] == Agent(id)
  }

  /** The tree is connected, and exactly those controllers are aborted that the operations so far call
      for, whenever they were created. */
  ghost predicate Consistent(n: Net, perAgent: map<Id, nat>, ops: seq<Op>) {
    ValidNet(n) && (forall id :: id in perAgent ==> Serves(n, perAgent[id], id)) &&
    AsKilled(n, KillsSession in ops, Killed(ops))
  }

  ghost predicate Recorded(n: Net, perAgent: map<Id, nat>, ops: seq<Op>) {
    Consistent(n, perAgent, ops) && n.Size() == Count(ops) && perAgent == Registered(ops)
  }

  /** Operation k kills the agent whose controller then was a. */
  ghost predicate KillsAt(ops: seq<Op>, k: nat, a: nat) {
    k < |ops| && ops[k].KillsAgent? && ops[k].id in Registered(ops[..k]) && Registered(ops[..k])[ops[k].id] == a
  }

  lemma {:induction false} KilledIff(ops: seq<Op>, a: nat)
    ensures a in Killed(ops) <==> exists k: nat :: KillsAt(ops, k, a)
  {
    if ops != [] {
      var n := |ops| - 1;
      KilledIff(ops[..n], a);
      if k: nat :| KillsAt(ops[..n], k, a) {
        assert ops[..n][..k] == ops[..k];
        assert KillsAt(ops, k, a);
      }
      if k: nat :| KillsAt(ops, k, a) {
        if k < n {
          assert ops[..n][..k] == ops[..k];
          assert KillsAt(ops[..n], k, a);
        }
      }
      if a in Killed(ops) && a !in Killed(ops[..n]) { assert KillsAt(ops, n, a); }
    }
  }

  /** After any operations, in any order: a controller is aborted if and only if the session was killed
      or the agent it serves was, at whatever time, by the controller registered for it then. */
  lemma AbortedIff(n: Net, perAgent: map<Id, nat>, ops: seq<Op>, v: nat)
    requires Recorded(n, perAgent, ops) && v < n.Size()
    ensures v in n.aborted <==>
      KillsSession in ops || (AgentOf(n, v).Some? && exists k: nat :: KillsAt(ops, k, AgentOf(n, v).value))
  {
    if AgentOf(n, v).Some? { KilledIff(ops, AgentOf(n, v).value); }
  }

  lemma NextOp(ops: seq<Op>, op: Op, longer: seq<Op>)
    requires longer == ops + [op]
    ensures longer != [] && longer[..|longer| - 1] == ops && longer[|longer| - 1] == op
    ensures KillsSession in longer <==> KillsSession in ops || op == KillsSession
  {}

  lemma CreatedConsistent(n: Net, perAgent: map<Id, nat>, ops: seq<Op>, kind: Kind, parent: nat)
    requires Consistent(n, perAgent, ops) && parent < n.Size() && KindFits(n, kind, parent)
    ensures Consistent(Created(n, kind, parent), perAgent, ops)
  {
    CreatedAsKilled(n, kind, parent, KillsSession in ops, Killed(ops));
  }

  lemma RegisterRecorded(n: Net, perAgent: map<Id, nat>, ops: seq<Op>, id: Id, longer: seq<Op>)
    requires Recorded(n, perAgent, ops) && longer == ops + [Registers(id)]
    ensures Recorded(Created(n, Agent(id), 0), perAgent[id := n.Size()], longer)
  {
    CreatedConsistent(n, perAgent, ops, Agent(id), 0);
    NextOp(ops, Registers(id), longer);
  }

  lemma RunsRecorded(n: Net, perAgent: map<Id, nat>, ops: seq<Op>, agents: seq<nat>, longer: seq<Op>)
    requires Consistent(n, perAgent, ops) && perAgent == Registered(ops) && longer == ops + [Runs(agents)]
    requires n.Size() == Count(ops) + 1 + 2 * |agents|
    ensures Recorded(n, perAgent, longer)
  {
    NextOp(ops, Runs(agents), longer);
  }

  lemma SessionRecorded(n: Net, perAgent: map<Id, nat>, ops: seq<Op>, after: set<nat>, longer: seq<Op>)
    requires Recorded(n, perAgent, ops) && longer == ops + [KillsSession]
    requires Aborts(n, 0, after) && forall v :: v in after ==> v < n.Size()
    ensures Recorded(n.(aborted := after), perAgent, longer)
    ensures forall v :: 0 <= v < n.Size() ==> v in after
  {
    var m := n.(aborted := after);
    AbortKeepsValid(n, 0, after);
    forall v | 0 <= v < n.Size() ensures v in after { SessionReachesAll(m, v); }
    NextOp(ops, KillsSession, longer);
  }

  lemma KillRecorded(n: Net, perAgent: map<Id, nat>, ops: seq<Op>, id: Id, after: set<nat>, longer: seq<Op>)
    requires Recorded(n, perAgent, ops) && longer == ops + [KillsAgent(id)] && id in perAgent
    requires Aborts(n, perAgent[id], after) && forall v :: v in after ==> v < n.Size()
    ensures Recorded(n.(aborted := after), perAgent, longer)
    ensures after == n.aborted + Chain(n, perAgent[id])
  {
    assert Serves(n, perAgent[id], id);
    AbortKeepsValid(n, perAgent[id], after);
    AgentAbortExact(n, perAgent[id], after);
    AbortedAsKilled(n, perAgent[id], after, KillsSession in ops, Killed(ops));
    NextOp(ops, KillsAgent(id), longer);
  }

  lemma NoKillRecorded(n: Net, perAgent: map<Id, nat>, ops: seq<Op>, id: Id, longer: seq<Op>)
    requires Recorded(n, perAgent, ops) && longer == ops + [KillsAgent(id)] && id !in perAgent
    ensures Recorded(n, perAgent, longer)
  {
    NextOp(ops, KillsAgent(id), longer);
    assert Killed(ops) + {} == Killed(ops);
  }

  /** No listener has gone. */
  ghost predicate Grown(n: Net, next: Net) {
    |n.listeners| <= |next.listeners| && forall u :: 0 <= u < |n.listeners| ==> n.listeners[u] <= next.listeners[u]
  }

  /** Member i of a group created in `before` has its controllers, aborted if its agent's was, and listens
      to the group. */
  ghost predicate Joined(n: Net, before: Net, agent: nat, i: nat, member: nat, runner: nat) {
    member == before.Size() + 1 + 2 * i && runner == member + 1 && MemberOf(n, agent, member, runner) &&
    (member in n.aborted <==> agent in before.aborted) && (runner in n.aborted <==> agent in before.aborted) &&
    before.Size() < |n.listeners| && member in n.listeners[before.Size()]
  }

  /** The group and its first i members have been created. */
  ghost predicate Assembled(n: Net, before: Net, i: nat, agents: seq<nat>, members: seq<nat>, runners: seq<nat>) {
    before.kinds + [Group] <= n.kinds && before.parent + [0] <= n.parent &&
    n.Size() == before.Size() + 1 + 2 * i && i <= |agents| && |members| == |runners| == i &&
    (forall v: nat :: v < before.Size() ==> (v in n.aborted <==> v in before.aborted)) &&
    (before.Size() in n.aborted <==> 0 in before.aborted) &&
    forall j :: 0 <= j < i ==> Joined(n, before, agents[j], j, members[j], runners[j])
  }

  lemma GroupCreated(before: Net, agents: seq<nat>)
    requires Shape(before)
    ensures Assembled(Created(before, Group, 0), before, 0, agents, [], [])
  {}

  /** The group and the agents are where they were. */
  lemma Unmoved(n: Net, before: Net, i: nat, agents: seq<nat>, members: seq<nat>, runners: seq<nat>, agent: nat)
    requires Assembled(n, before, i, agents, members, runners) && agent < before.Size()
    ensures before.Size() < n.Size() && n.kinds[before.Size()] == Group && n.kinds[agent] == before.kinds[agent]
  {
    var group := before.kinds + [Group];
    assert group[before.Size()] == Group && group[agent] == before.kinds[agent];
  }

  /** So aborting a group reaches its members and their runs. */
  lemma GroupReaches(n: Net, before: Net, i: nat, agents: seq<nat>, members: seq<nat>, runners: seq<nat>,
                     after: set<nat>, j: nat)
    requires ValidNet(n) && Assembled(n, before, i, agents, members, runners) && j < i
    requires before.Size() !in n.aborted && Aborts(n, before.Size(), after)
    ensures members[j] in after && runners[j] in after
  {
    assert Joined(n, before, agents[j], j, members[j], runners[j]);
    var group, member, runner := before.Size(), members[j], runners[j];
    assert group in after - n.aborted && member in n.listeners[group];
    assert ParentFits(n, runner) && Linked(n, runner) && n.parent[runner] == member;
  }

  lemma OneMore(n: Net, before: Net, i: nat, agents: seq<nat>, members: seq<nat>, runners: seq<nat>, next: Net)
    requires Shape(n) && Assembled(n, before, i, agents, members, runners) && i < |agents| && agents[i] < before.Size()
    requires next.kinds == n.kinds + [Member, Runner] && next.parent == n.parent + [agents[i], n.Size()]
    requires next.aborted == n.aborted + if agents[i] in n.aborted then {n.Size(), n.Size() + 1} else {}
    requires Grown(n, next) && before.Size() < |next.listeners| && n.Size() in next.listeners[before.Size()]
    ensures Assembled(next, before, i + 1, agents, members + [n.Size()], runners + [n.Size() + 1])
  {
    var ms, rs := members + [n.Size()], runners + [n.Size() + 1];
    forall j | 0 <= j < i + 1 ensures Joined(next, before, agents[j], j, ms[j], rs[j]) {
      if j < i { assert Joined(n, before, agents[j], j, members[j], runners[j]); }
    }
  }

  class RunSignals {
    var net: Net
    var perAgent: map<Id, nat>  // the controller killAgent finds
    ghost var history: seq<Op>

    /** The tree is connected; a controller is aborted if and only if the session was killed or the agent
        it serves was, before or after it was created. */
    ghost predicate Valid()
      reads this
    {
      Recorded(net, perAgent, history)
    }

    constructor ()
      ensures Valid() && net == Net([Session], [0], [[]], {}) && perAgent == map[] && history == []
    {
      net := Net([Session], [0], [[]], {});
      perAgent := map[];
      history := [];
    }

    /** `abort()` of any controller: marks it and dispatches to its listeners, depth first. */
    method Abort(c: nat)
      requires Shape(net) && c < net.Size()
      modifies this`net
      ensures net == old(net).(aborted := net.aborted) && Shape(net)
      ensures Aborts(old(net), c, net.aborted)
      decreases net.Size() - c
    {
      ghost var n := net;
      if c in net.aborted { return; }
      ShapeWithAborted(net, net.aborted + {c});
      net := net.(aborted := net.aborted + {c});
      var i := 0;
      while i < |net.listeners[c]|
        invariant net == n.(aborted := net.aborted) && Shape(net) && i <= |net.listeners[c]|
        invariant PartlyDispatched(n, c, i, net.aborted)
      {
        ghost var before := net;
        assert ListenerFits(net, c, net.listeners[c][i]);
        Abort(net.listeners[c][i]);
        Deeper(n, c, i, before, net.aborted);
        i := i + 1;
      }
      AllDispatched(n, c, net.aborted);
    }

    /** `spawnAgentRun`, between the connection and the prompt. */
    method RegisterAgent(id: Id)
      requires Valid()
      modifies this
      ensures Valid() && history == old(history) + [Registers(id)]
      ensures net == Created(old(net), Agent(id), 0)
      ensures net.kinds == old(net.kinds) + [Agent(id)] && net.parent == old(net.parent) + [0]
      ensures net.aborted == old(net.aborted) + (if 0 in old(net.aborted) then {old(net).Size()} else {})
      ensures perAgent == old(perAgent)[id := old(net).Size()]
    {
      RegisterRecorded(net, perAgent, history, id, history + [Registers(id)]);
      Create(Agent(id), 0);
      perAgent := perAgent[id := net.Size() - 1];
      history := history + [Registers(id)];
    }

    /** Check, then listen. */
    method Create(kind: Kind, parent: nat)
      requires Shape(net) && parent < net.Size()
      modifies this`net
      ensures net == Created(old(net), kind, parent)
    {
      var v := net.Size();
      var abortNow := parent in net.aborted;
      net := Net(net.kinds + [kind], net.parent + [parent],
                 (if abortNow then net.listeners else net.listeners[parent := net.listeners[parent] + [v]]) + [[]],
                 if abortNow then net.aborted + {v} else net.aborted);
    }

    /** `runConcurrent` for members whose agents' controllers are given: one group, and for each
        member a controller and the controller of its run. */
    method RunConcurrent(agents: seq<nat>) returns (members: seq<nat>, runners: seq<nat>)
      requires Valid() && forall i :: 0 <= i < |agents| ==> agents[i] < net.Size() && net.kinds[agents[i]].Agent?
      modifies this`net, this`history
      ensures Valid() && history == old(history) + [Runs(agents)]
      ensures Assembled(net, old(net), |agents|, agents, members, runners)
    {
      ghost var before := net;
      var group := net.Size();
      CreatedConsistent(net, perAgent, history, Group, 0);
      GroupCreated(net, agents);
      Create(Group, 0);
      members, runners := AddMembers(group, agents, before);
      RunsRecorded(net, perAgent, history, agents, history + [Runs(agents)]);
      history := history + [Runs(agents)];
    }

    method AddMembers(group: nat, agents: seq<nat>, ghost before: Net) returns (members: seq<nat>, runners: seq<nat>)
      requires Consistent(net, perAgent, history) && Assembled(net, before, 0, agents, [], []) && group == before.Size()
      requires forall i :: 0 <= i < |agents| ==> agents[i] < before.Size() && before.kinds[agents[i]].Agent?
      modifies this`net
      ensures Consistent(net, perAgent, history) && Assembled(net, before, |agents|, agents, members, runners)
    {
      members, runners := [], [];
      for i := 0 to |agents|
        invariant Consistent(net, perAgent, history) && Assembled(net, before, i, agents, members, runners)
      {
        ghost var n := net;
        Unmoved(net, before, i, agents, members, runners, agents[i]);
        var member, runner := AddMember(group, agents[i]);
        OneMore(n, before, i, agents, members, runners, net);
        members, runners := members + [member], runners + [runner];
      }
    }

    method AddMember(group: nat, agent: nat) returns (member: nat, runner: nat)
      requires Consistent(net, perAgent, history) && group < net.Size() && net.kinds[group].Group?
      requires agent < net.Size() && net.kinds[agent].Agent?
      modifies this`net
      ensures Consistent(net, perAgent, history) && net.kinds == old(net.kinds) + [Member, Runner]
      ensures net.parent == old(net.parent) + [agent, old(net).Size()]
      ensures member == old(net).Size() && runner == member + 1
      ensures net.aborted == old(net.aborted) +
        (if agent in old(net.aborted) then {old(net).Size(), old(net).Size() + 1} else {})
      ensures Grown(old(net), net) && group < |net.listeners| && member in net.listeners[group]
    {
      member := net.Size();
      CreatedConsistent(net, perAgent, history, Member, agent);
      Create(Member, agent);
      GroupListenerAsKilled(net, group, member, KillsSession in history, Killed(history));
      net := GroupListener(net, group, member);
      CreatedConsistent(net, perAgent, history, Runner, member);
      Create(Runner, member);
      runner := member + 1;
    }

    method KillSession()
      requires Valid()
      modifies this`net, this`history
      ensures Valid() && history == old(history) + [KillsSession] && net == old(net).(aborted := net.aborted)
      ensures forall v :: 0 <= v < net.Size() ==> v in net.aborted
    {
      ghost var n := net;
      Abort(0);
      SessionRecorded(n, perAgent, history, net.aborted, history + [KillsSession]);
      history := history + [KillsSession];
    }

    /** An agent that has not been registered yet cannot be killed. */
    method KillAgent(id: Id)
      requires Valid()
      modifies this`net, this`history
      ensures Valid() && history == old(history) + [KillsAgent(id)] && net == old(net).(aborted := net.aborted)
      ensures net.aborted == old(net.aborted) + if id in perAgent then Chain(net, perAgent[id]) else {}
    {
      ghost var n, longer := net, history + [KillsAgent(id)];
      if id in perAgent {
        Abort(perAgent[id]);
        KillRecorded(n, perAgent, history, id, net.aborted, longer);
      } else {
        NoKillRecorded(net, perAgent, history, id, longer);
      }
      history := longer;
    }
  }

  /** c is marked, and its first i listeners have been called. */
  ghost predicate PartlyDispatched(n: Net, c: nat, i: nat, aborted: set<nat>)
    requires c < |n.listeners| && i <= |n.listeners[c]|
  {
    n.aborted + {c} <= aborted &&
    (forall j :: 0 <= j < i ==> n.listeners[c][j] in aborted) &&
    Closed(n, aborted, n.aborted + {c}) &&
    forall s :: c in s && Closed(n, s, n.aborted) ==> aborted <= n.aborted + s
  }

  lemma Deeper(n: Net, c: nat, i: nat, before: Net, after: set<nat>)
    requires Shape(n) && c < n.Size() && c !in n.aborted && i < |n.listeners[c]|
    requires before == n.(aborted := before.aborted) && PartlyDispatched(n, c, i, before.aborted)
    requires Aborts(before, n.listeners[c][i], after)
    ensures PartlyDispatched(n, c, i + 1, after)
  {
    forall s | c in s && Closed(n, s, n.aborted) ensures after <= n.aborted + s {
      DeeperLeast(n, c, i, before, after, s);
    }
    DeeperClosed(n, c, before, n.listeners[c][i], after);
  }

  lemma DeeperLeast(n: Net, c: nat, i: nat, before: Net, after: set<nat>, s: set<nat>)
    requires c < |n.listeners| && c !in n.aborted && i < |n.listeners[c]|
    requires before == n.(aborted := before.aborted) && PartlyDispatched(n, c, i, before.aborted)
    requires Aborts(before, n.listeners[c][i], after) && c in s && Closed(n, s, n.aborted)
    ensures after <= n.aborted + s
  {
    assert c in s - n.aborted && n.listeners[c][i] in s;
    assert Closed(before, s, before.aborted);
    assert before.aborted <= n.aborted + s && after <= before.aborted + s;
  }

  lemma DeeperClosed(n: Net, c: nat, before: Net, next: nat, after: set<nat>)
    requires before == n.(aborted := before.aborted) && Closed(n, before.aborted, n.aborted + {c})
    requires Aborts(before, next, after)
    ensures Closed(n, after, n.aborted + {c})
  {
    forall u, v | u in after - (n.aborted + {c}) && u < |n.listeners| && v in n.listeners[u] ensures v in after {
      if u in before.aborted { assert v in before.aborted; } else { assert v in before.listeners[u]; }
    }
  }

  lemma AllDispatched(n: Net, c: nat, aborted: set<nat>)
    requires c < |n.listeners| && PartlyDispatched(n, c, |n.listeners[c]|, aborted)
    ensures Aborts(n, c, aborted)
  {
    forall u, v | u in aborted - n.aborted && u < |n.listeners| && v in n.listeners[u] ensures v in aborted {
      if u == c {
        var j :| 0 <= j < |n.listeners[c]| && n.listeners[c][j] == v;
      }
    }
  }
}
