/** The rewrite of tool ids in stored team configurations that migrations 055 to 058 run. */
module ToolRewrite {
  import opened Collections

  /** Old ids, with what replaces them, if anything. */
  const TOOL_ID_REWRITES: map<Id, Option<Id>> := map[
    Id("channel.pass") := Some(Id("channel.close")),
    Id("channel.ack") := Some(Id("channel.close")),
    Id("channel.post") := None,
    Id("channel.dm") := None,
    Id("channel.handoff") := None,
    Id("message") := None
  ]

  /** Names every object inherits: `in` finds them in the table as well, with values that are not
      strings. */
  const INHERITED: set<Id> := {
    Id("constructor"), Id("__defineGetter__"), Id("__defineSetter__"), Id("hasOwnProperty"),
    Id("__lookupGetter__"), Id("__lookupSetter__"), Id("isPrototypeOf"), Id("propertyIsEnumerable"),
    Id("toString"), Id("valueOf"), Id("__proto__"), Id("toLocaleString")
  }

  const BASELINE_AGENT_TOOL_IDS: set<Id> := {
    Id("procedure"), Id("channel.close"), Id("channel.reply"), Id("channel.recall"), Id("channel.read"),
    Id("channel.list"), Id("channel.set_member_mode"), Id("view"), Id("ls"), Id("glob"), Id("grep"),
    Id("write"), Id("edit"), Id("multiedit"), Id("shell"), Id("download"), Id("fetch"), Id("web_search"),
    Id("goal.start"), Id("goal.task.update"), Id("question.ask"), Id("memory.write"), Id("memory.recall"),
    Id("memory.forget"), Id("schedule"), Id("agent.delegate"), Id("skill.read"), Id("mcp")
  }

  /** The id after the rewrite; None where no string comes out. */
  function Renamed(tool: Id): Option<Id> {
    if tool in TOOL_ID_REWRITES then TOOL_ID_REWRITES[tool]
    else if tool in INHERITED then None
    else Some(tool)
  }

  /** In literals: two old names become a new one, four go, inherited names go, all others stay. */
  lemma RenamedExactly(tool: Id)
    ensures Renamed(tool) ==
      if tool == Id("channel.pass") || tool == Id("channel.ack") then Some(Id("channel.close"))
      else if tool.text in {"channel.post", "channel.dm", "channel.handoff", "message"} || tool in INHERITED then None
      else Some(tool)
  {
    if tool in TOOL_ID_REWRITES.Keys {
      assert tool in {Id("channel.pass"), Id("channel.ack"), Id("channel.post"), Id("channel.dm"),
                      Id("channel.handoff"), Id("message")};
    }
    assert Id(tool.text) == tool;
  }

  datatype Json = Str(value: Id) | Arr(items: seq<Json>) | Obj(fields: JsMap<Json>) | Scalar(text: string)

  // ---------------------------------------------------------------------------------------------
  // The tool list of a role
  // ---------------------------------------------------------------------------------------------

  /** The filters and maps of `rewriteToolList`, before duplicates are removed. */
  function KeptTools(items: seq<Json>): seq<Id> {
    if items == [] then []
    else
      var item := items[|items| - 1];
      var tool := if item.Str? then Renamed(item.value) else None;
      KeptTools(items[..|items| - 1])
      + (if tool.Some? && tool.value != Id("") && tool.value !in BASELINE_AGENT_TOOL_IDS then [tool.value] else [])
  }

  /** `rewriteToolList`; an absent property is None. */
  function RewriteToolList(value: Option<Json>): seq<Id> {
    if value.Some? && value.value.Arr? then Firsts(KeptTools(value.value.items)) else []
  }

  /** An id the rewrite leaves alone. */
  predicate Plain(tool: Id) {
    tool != Id("") && tool !in TOOL_ID_REWRITES && tool !in INHERITED && tool !in BASELINE_AGENT_TOOL_IDS
  }

  /** The plain ids among the items, in order, with repetitions. */
  function PlainTools(items: seq<Json>): seq<Id> {
    if items == [] then []
    else
      var item := items[|items| - 1];
      PlainTools(items[..|items| - 1]) + (if item.Str? && Plain(item.value) then [item.value] else [])
  }

  lemma KeptIsPlain(tool: Id)
    ensures var r := Renamed(tool);
      (r.Some? && r.value != Id("") && r.value !in BASELINE_AGENT_TOOL_IDS) <==> Plain(tool)
    ensures Plain(tool) ==> Renamed(tool) == Some(tool)
  {
    if tool in TOOL_ID_REWRITES {
      assert TOOL_ID_REWRITES[tool] == None || TOOL_ID_REWRITES[tool] == Some(Id("channel.close"));
    }
  }

  /** Nothing old, inherited, empty or baseline is left, and every other id stays. */
  lemma {:induction false} KeptAreThePlain(items: seq<Json>)
    ensures KeptTools(items) == PlainTools(items)
  {
    if items != [] {
      KeptAreThePlain(items[..|items| - 1]);
      if items[|items| - 1].Str? { KeptIsPlain(items[|items| - 1].value); }
    }
  }

  lemma {:induction false} PlainToolsMembers(items: seq<Json>, tool: Id)
    ensures tool in PlainTools(items) <==> Str(tool) in items && Plain(tool)
  {
    if items != [] {
      PlainToolsMembers(items[..|items| - 1], tool);
      assert items == items[..|items| - 1] + [items[|items| - 1]];
    }
  }

  /** A role's list comes out as the plain ids it had, each once, at its first occurrence. */
  lemma RoleToolsExact(items: seq<Json>)
    ensures var tools := RewriteToolList(Some(Arr(items)));
      tools == Firsts(PlainTools(items)) && NoDups(tools) &&
      forall tool :: tool in tools <==> Str(tool) in items && Plain(tool)
  {
    KeptAreThePlain(items);
    var tools := RewriteToolList(Some(Arr(items)));
    forall tool ensures tool in tools <==> Str(tool) in items && Plain(tool) {
      PlainToolsMembers(items, tool);
      assert tool in tools <==> tool in Elems(tools);
      assert tool in PlainTools(items) <==> tool in Elems(PlainTools(items));
    }
  }

  /** A tool that happens to have an inherited name is lost, as a retired one is. */
  lemma InheritedNameLost(tool: Id)
    requires tool in INHERITED
    ensures RewriteToolList(Some(Arr([Str(tool)]))) == []
  {
    RoleToolsExact([Str(tool)]);
    var tools := RewriteToolList(Some(Arr([Str(tool)])));
    assert Elems(tools) == {};
    EmptyElems(tools);
  }

  function AsItems(tools: seq<Id>): seq<Json> {
    if tools == [] then [] else AsItems(tools[..|tools| - 1]) + [Str(tools[|tools| - 1])]
  }

  lemma {:induction false} PlainItems(tools: seq<Id>)
    requires forall t :: t in tools ==> Plain(t)
    ensures PlainTools(AsItems(tools)) == tools
  {
    if tools != [] {
      var n := |tools| - 1;
      PlainItems(tools[..n]);
      assert AsItems(tools)[..|AsItems(tools)| - 1] == AsItems(tools[..n]);
    }
  }

  /** Rewriting a list that has been rewritten changes nothing. */
  lemma RewriteToolListIdempotent(value: Option<Json>)
    ensures var once := RewriteToolList(value); RewriteToolList(Some(Arr(AsItems(once)))) == once
  {
    var once := RewriteToolList(value);
    if value.Some? && value.value.Arr? {
      RoleToolsExact(value.value.items);
    }
    PlainItems(once);
    KeptAreThePlain(AsItems(once));
    FirstsOfDistinct(once);
  }

  // ---------------------------------------------------------------------------------------------
  // The tools record
  // ---------------------------------------------------------------------------------------------

  /** `Object.fromEntries` of the renamed entries of the first n keys: the last of several entries
      with one name decides the value, the first the place. */
  function RenameKeys(m: JsMap<Json>, n: nat): JsMap<Json>
    requires m.Valid() && n <= |m.keys|
  {
    if n == 0 then EmptyMap()
    else
      var k := m.keys[n - 1];
      assert k in Elems(m.keys);
      var renamed := Renamed(k);
      var before := RenameKeys(m, n - 1);
      if renamed.Some? then before.Put(renamed.value, m.vals[k]) else before
  }

  lemma {:induction false} RenameKeysValid(m: JsMap<Json>, n: nat)
    requires m.Valid() && n <= |m.keys|
    ensures RenameKeys(m, n).Valid()
  {
    if n > 0 {
      RenameKeysValid(m, n - 1);
      var k := m.keys[n - 1];
      assert k in Elems(m.keys);
      if Renamed(k).Some? { RenameKeys(m, n - 1).PutValid(Renamed(k).value, m.vals[k]); }
    }
  }

  function RewriteRecord(m: JsMap<Json>): (r: JsMap<Json>)
    requires m.Valid()
    ensures r.Valid()
  {
    RenameKeysValid(m, |m.keys|);
    RenameKeys(m, |m.keys|)
  }

  /** Keys that a further rewrite leaves alone. */
  ghost predicate Settled(m: JsMap<Json>) {
    forall k :: k in m.vals ==> Renamed(k) == Some(k)
  }

  lemma RenamedIsSettled(k: Id)
    requires Renamed(k).Some?
    ensures Renamed(Renamed(k).value) == Renamed(k)
  {
    if k in TOOL_ID_REWRITES {
      assert TOOL_ID_REWRITES[k] == Some(Id("channel.close"));
      assert Id("channel.close") !in TOOL_ID_REWRITES && Id("channel.close") !in INHERITED;
    }
  }

  lemma {:induction false} RenameKeysSettled(m: JsMap<Json>, n: nat)
    requires m.Valid() && n <= |m.keys|
    ensures Settled(RenameKeys(m, n))
  {
    if n > 0 {
      RenameKeysSettled(m, n - 1);
      if Renamed(m.keys[n - 1]).Some? { RenamedIsSettled(m.keys[n - 1]); }
    }
  }

  lemma NotAmongEarlier(m: JsMap<Json>, n: nat)
    requires m.Valid() && n < |m.keys|
    ensures m.keys[n] in m.vals && m.keys[n] !in Elems(m.keys[..n])
  {
    assert m.keys[n] in Elems(m.keys);
  }

  /** The entries of a settled record, put together again, are the record. */
  lemma {:induction false} RebuildKeys(m: JsMap<Json>, n: nat)
    requires m.Valid() && Settled(m) && n <= |m.keys|
    ensures RenameKeys(m, n).keys == m.keys[..n]
  {
    if n > 0 {
      RebuildKeys(m, n - 1);
      RenameKeysValid(m, n - 1);
      RebuildStep(m, n - 1, RenameKeys(m, n - 1));
    }
  }

  lemma RebuildStep(m: JsMap<Json>, n: nat, before: JsMap<Json>)
    requires m.Valid() && Settled(m) && n < |m.keys|
    requires before == RenameKeys(m, n) && before.keys == m.keys[..n] && before.Valid()
    ensures RenameKeys(m, n + 1).keys == m.keys[..n + 1]
  {
    var k := m.keys[n];
    NotAmongEarlier(m, n);
    assert RenameKeys(m, n + 1) == before.Put(k, m.vals[k]) by { assert Renamed(k) == Some(k); }
    PutAbsent(before, k, m.vals[k]);
    assert m.keys[..n] + [k] == m.keys[..n + 1];
  }

  lemma PutAbsent(m: JsMap<Json>, k: Id, v: Json)
    requires m.Valid() && k !in Elems(m.keys)
    ensures m.Put(k, v).keys == m.keys + [k]
  {}

  lemma {:induction false} RebuildValue(m: JsMap<Json>, n: nat, k: Id)
    requires m.Valid() && Settled(m) && n <= |m.keys| && k in RenameKeys(m, n).vals
    ensures k in m.vals && RenameKeys(m, n).vals[k] == m.vals[k]
  {
    NotAmongEarlier(m, n - 1);
    assert Renamed(m.keys[n - 1]) == Some(m.keys[n - 1]);
    if k != m.keys[n - 1] { RebuildValue(m, n - 1, k); }
  }

  lemma RewriteRecordIdempotent(m: JsMap<Json>)
    requires m.Valid()
    ensures RewriteRecord(RewriteRecord(m)) == RewriteRecord(m)
  {
    RenameKeysSettled(m, |m.keys|);
    SettledRecordStays(RewriteRecord(m));
  }

  lemma SettledRecordStays(m: JsMap<Json>)
    requires m.Valid() && Settled(m)
    ensures RewriteRecord(m) == m
  {
    var r := RewriteRecord(m);
    RebuildKeys(m, |m.keys|);
    assert r.keys == m.keys;
    assert r.vals.Keys == Elems(r.keys) == m.vals.Keys;
    forall k | k in r.vals ensures r.vals[k] == m.vals[k] { RebuildValue(m, |m.keys|, k); }
    assert r.vals == m.vals;
  }

  /** The last of the first n keys that is renamed to k. */
  function LastRenamed(m: JsMap<Json>, k: Id, n: nat): Option<nat>
    requires n <= |m.keys|
  {
    if n == 0 then None
    else if Renamed(m.keys[n - 1]) == Some(k) then Some(n - 1)
    else LastRenamed(m, k, n - 1)
  }

  /** A collision leaves the value of the last entry, and no entry comes from nowhere. */
  lemma {:induction false} LastEntryWins(m: JsMap<Json>, k: Id, n: nat)
    requires m.Valid() && n <= |m.keys|
    ensures k in RenameKeys(m, n).vals <==> LastRenamed(m, k, n).Some?
    ensures LastRenamed(m, k, n).Some? ==>
      (LastRenamed(m, k, n).value < n &&
       m.keys[LastRenamed(m, k, n).value] in m.vals &&
       RenameKeys(m, n).vals[k] == m.vals[m.keys[LastRenamed(m, k, n).value]])
  {
    if n > 0 {
      LastEntryWins(m, k, n - 1);
      NotAmongEarlier(m, n - 1);
    }
  }

  /** The names the first n keys get, with repetitions. */
  function NewNames(m: JsMap<Json>, n: nat): seq<Id>
    requires n <= |m.keys|
  {
    if n == 0 then []
    else NewNames(m, n - 1) + (if Renamed(m.keys[n - 1]).Some? then [Renamed(m.keys[n - 1]).value] else [])
  }

  /** And it leaves the place of the first: the keys are the new names, each where it first occurs. */
  lemma {:induction false} FirstEntryPlaces(m: JsMap<Json>, n: nat)
    requires m.Valid() && n <= |m.keys|
    ensures RenameKeys(m, n).keys == Firsts(NewNames(m, n))
  {
    if n > 0 {
      FirstEntryPlaces(m, n - 1);
      NotAmongEarlier(m, n - 1);
      var before, names, renamed := RenameKeys(m, n - 1), NewNames(m, n - 1), Renamed(m.keys[n - 1]);
      if renamed.Some? {
        RenameKeysValid(m, n - 1);
        assert renamed.value in before.vals <==> renamed.value in Elems(names);
        assert (names + [renamed.value])[..|names|] == names;
        assert RenameKeys(m, n) == before.Put(renamed.value, m.vals[m.keys[n - 1]]);
      } else {
        assert names + [] == names;
      }
    }
  }

  // ---------------------------------------------------------------------------------------------
  // A whole stored configuration
  // ---------------------------------------------------------------------------------------------

  function Decimal(n: nat): (s: string)
    ensures s != "" && forall i :: 0 <= i < |s| ==> '0' <= s[i] <= '9'
  {
    (if n < 10 then "" else Decimal(n / 10)) + [('0' as int + n % 10) as char]
  }

  lemma {:induction false} DecimalInjective(a: nat, b: nat)
    requires Decimal(a) == Decimal(b)
    ensures a == b
  {
    var last := |Decimal(a)| - 1;
    assert Decimal(a)[last] == ('0' as int + a % 10) as char && Decimal(b)[last] == ('0' as int + b % 10) as char;
    assert a % 10 == b % 10;
    assert a >= 10 ==> Decimal(a)[..last] == Decimal(a / 10);
    assert b >= 10 ==> Decimal(b)[..last] == Decimal(b / 10);
    if a >= 10 && b >= 10 { DecimalInjective(a / 10, b / 10); }
  }

  /** An array spread into an object: its keys are the indices. */
  function Spread(items: seq<Json>): (m: JsMap<Json>)
    ensures m.Valid() && |m.keys| == |items|
    ensures forall i :: 0 <= i < |items| ==> m.keys[i] == Id(Decimal(i))
  {
    if items == [] then EmptyMap()
    else
      var n := |items| - 1;
      var before, k := Spread(items[..n]), Id(Decimal(n));
      NewIndex(before, n);
      before.PutValid(k, items[n]);
      before.Put(k, items[n])
  }

  lemma NewIndex(m: JsMap<Json>, n: nat)
    requires m.Valid() && |m.keys| == n && forall i :: 0 <= i < n ==> m.keys[i] == Id(Decimal(i))
    ensures Id(Decimal(n)) !in m.vals
  {
    if Id(Decimal(n)) in m.vals {
      assert Id(Decimal(n)) in Elems(m.keys);
      var i :| 0 <= i < n && m.keys[i] == Id(Decimal(n));
      DecimalInjective(i, n);
    }
  }

  /** An index is not the name of a property the rewrite looks at. */
  lemma SpreadHasNoNames(items: seq<Json>, name: Id)
    requires name.text != "" && !('0' <= name.text[0] <= '9')
    ensures name !in Spread(items).vals
  {
    var m := Spread(items);
    forall i | 0 <= i < |items| ensures m.keys[i] != name {
      assert m.keys[i].text[0] != name.text[0];
    }
    assert name !in Elems(m.keys);
  }

  /** Under each index stands the item. */
  lemma {:induction false} SpreadItems(items: seq<Json>, i: nat)
    requires i < |items|
    ensures Id(Decimal(i)) in Spread(items).vals && Spread(items).vals[Id(Decimal(i))] == items[i]
  {
    var n := |items| - 1;
    if i < n {
      SpreadItems(items[..n], i);
      if Decimal(i) == Decimal(n) { DecimalInjective(i, n); }
    }
  }

  /** The role spread into an object, an array too, with its tool list rewritten; what is not an object
      stays. */
  function RewriteRole(role: Json): Json {
    match role
    case Obj(fields) =>
      var tools := if Id("tools") in fields.vals then Some(fields.vals[Id("tools")]) else None;
      Obj(fields.Put(Id("tools"), Arr(AsItems(RewriteToolList(tools)))))
    case Arr(items) => Obj(Spread(items).Put(Id("tools"), Arr([])))
    case _ => role
  }

  function RewriteRoles(roles: seq<Json>): (r: seq<Json>)
    ensures |r| == |roles| && forall i :: 0 <= i < |r| ==> r[i] == RewriteRole(roles[i])
  {
    if roles == [] then [] else RewriteRoles(roles[..|roles| - 1]) + [RewriteRole(roles[|roles| - 1])]
  }

  /** The objects of a parsed configuration the rewrite looks into have their keys in order. */
  ghost predicate WellFormed(config: Json) {
    config.Obj? ==>
      (config.fields.Valid() &&
       (Id("tools") in config.fields.vals && config.fields.vals[Id("tools")].Obj? ==>
          config.fields.vals[Id("tools")].fields.Valid()))
  }

  function RewriteField(k: Id, v: Json): Json
    requires k == Id("tools") && v.Obj? ==> v.fields.Valid()
  {
    if k == Id("roles") && v.Arr? then Arr(RewriteRoles(v.items))
    else if k == Id("tools") && v.Obj? then Obj(RewriteRecord(v.fields))
    else v
  }

  /** The configuration `migrateStoredTeamConfigTools` writes back. A property that is absent stays
      absent; an array has none of those looked at. */
  function RewriteConfig(config: Json): Json
    requires WellFormed(config)
  {
    match config
    case Obj(fields) =>
      Obj(JsMap(fields.keys, map k | k in fields.vals :: RewriteField(k, fields.vals[k])))
    case Arr(items) => Obj(Spread(items))
    case _ => config
  }

  /** A property of an object. */
  function Field(json: Json, name: Id): Option<Json> {
    if json.Obj? && name in json.fields.vals then Some(json.fields.vals[name]) else None
  }

  /** The role with its tool list rewritten: every other property is as it was, and the list has the
      plain ids of the old one, each once, in order; without an old list it is empty. */
  ghost predicate RoleRewritten(role: Json, r: Json) {
    role.Obj? && r.Obj? &&
    (forall name :: name != Id("tools") ==> Field(r, name) == Field(role, name)) &&
    r.fields.keys == role.fields.keys + (if Id("tools") in role.fields.vals then [] else [Id("tools")]) &&
    exists tools: seq<Id> :: Field(r, Id("tools")) == Some(Arr(AsItems(tools))) && ToolsOf(role, tools)
  }

  ghost predicate ToolsOf(role: Json, tools: seq<Id>) {
    var before := Field(role, Id("tools"));
    tools == if before.Some? && before.value.Arr? then Firsts(PlainTools(before.value.items)) else []
  }

  lemma RoleExact(role: Json)
    requires role.Obj?
    ensures RoleRewritten(role, RewriteRole(role))
  {
    var before, r := Field(role, Id("tools")), RewriteRole(role);
    var tools := RewriteToolList(before);
    if before.Some? && before.value.Arr? { RoleToolsExact(before.value.items); }
    assert ToolsOf(role, tools) && Field(r, Id("tools")) == Some(Arr(AsItems(tools)));
    forall name | name != Id("tools") ensures Field(r, name) == Field(role, name) {}
  }

  /** The configuration as it is written back: in place of its roles stand the rewritten ones, those
      that are objects as said above, in place of its tools record the rewritten record, and everything
      else is as it was. */
  lemma ConfigExact(config: Json)
    requires WellFormed(config) && config.Obj?
    ensures var r := RewriteConfig(config);
      r.Obj? && r.fields.keys == config.fields.keys &&
      (forall name :: name != Id("roles") && name != Id("tools") ==> Field(r, name) == Field(config, name)) &&
      RolesExact(Field(config, Id("roles")), Field(r, Id("roles"))) &&
      ToolsExact(Field(config, Id("tools")), Field(r, Id("tools")))
  {
    var r, roles := RewriteConfig(config), Field(config, Id("roles"));
    if roles.Some? && roles.value.Arr? {
      var before, after := roles.value.items, RewriteRoles(roles.value.items);
      assert Field(r, Id("roles")) == Some(Arr(after));
      forall i | 0 <= i < |before| ensures RoleAfter(before[i], after[i]) {
        if before[i].Obj? { RoleExact(before[i]); }
      }
    }
    var tools := Field(config, Id("tools"));
    if tools.Some? && tools.value.Obj? { RecordExact(tools.value.fields); }
  }

  ghost predicate RolesExact(before: Option<Json>, after: Option<Json>) {
    if before.Some? && before.value.Arr? then
      after.Some? && after.value.Arr? && |after.value.items| == |before.value.items| &&
      forall i :: 0 <= i < |before.value.items| ==> RoleAfter(before.value.items[i], after.value.items[i])
    else after == before
  }

  /** An array among the roles becomes the object of its items, and an empty tool list beside them. */
  ghost predicate RoleAfter(before: Json, after: Json) {
    match before
    case Obj(_) => RoleRewritten(before, after)
    case Arr(items) => after == Obj(Spread(items).Put(Id("tools"), Arr([])))
    case _ => after == before
  }

  ghost predicate ToolsExact(before: Option<Json>, after: Option<Json>)
    requires before.Some? && before.value.Obj? ==> before.value.fields.Valid()
  {
    if before.Some? && before.value.Obj? then
      after.Some? && after.value.Obj? && Renames(before.value.fields, after.value.fields)
    else after == before
  }

  /** Each key has its new name, where the first of its kind stood and with the value of the last. */
  ghost predicate Renames(m: JsMap<Json>, r: JsMap<Json>)
    requires m.Valid()
  {
    var n := |m.keys|;
    r.keys == Firsts(NewNames(m, n)) &&
    forall k :: (k in r.vals <==> LastRenamed(m, k, n).Some?) && (k in r.vals ==> ValueFrom(m, r, k, n))
  }

  ghost predicate ValueFrom(m: JsMap<Json>, r: JsMap<Json>, k: Id, n: nat)
    requires n <= |m.keys| && k in r.vals && LastRenamed(m, k, n).Some?
  {
    var at := LastRenamed(m, k, n).value;
    at < |m.keys| && m.keys[at] in m.vals && r.vals[k] == m.vals[m.keys[at]]
  }

  lemma RecordExact(m: JsMap<Json>)
    requires m.Valid()
    ensures Renames(m, RewriteRecord(m))
  {
    FirstEntryPlaces(m, |m.keys|);
    forall k { LastEntryWins(m, k, |m.keys|); }
  }

  lemma RoleIdempotent(role: Json)
    ensures RewriteRole(RewriteRole(role)) == RewriteRole(role)
  {
    if role.Obj? {
      var tools := if Id("tools") in role.fields.vals then Some(role.fields.vals[Id("tools")]) else None;
      RewriteToolListIdempotent(tools);
      var once := RewriteRole(role).fields;
      assert once.vals[Id("tools") := once.vals[Id("tools")]] == once.vals;
    } else if role.Arr? {
      var once := RewriteRole(role).fields;
      assert AsItems(RewriteToolList(Some(Arr([])))) == [];
      assert once.vals[Id("tools") := Arr([])] == once.vals;
    }
  }

  lemma FieldIdempotent(k: Id, v: Json)
    requires k == Id("tools") && v.Obj? ==> v.fields.Valid()
    ensures var once := RewriteField(k, v);
      (k == Id("tools") && once.Obj? ==> once.fields.Valid()) && RewriteField(k, once) == once
  {
    if k == Id("roles") && v.Arr? {
      forall i | 0 <= i < |v.items| ensures RewriteRole(RewriteRole(v.items[i])) == RewriteRole(v.items[i]) {
        RoleIdempotent(v.items[i]);
      }
      assert RewriteRoles(RewriteRoles(v.items)) == RewriteRoles(v.items);
    } else if k == Id("tools") && v.Obj? {
      RewriteRecordIdempotent(v.fields);
    }
  }

  /** Running the rewrite again, as each of the four migrations does, changes nothing. */
  lemma RewriteConfigIdempotent(config: Json)
    requires WellFormed(config)
    ensures WellFormed(RewriteConfig(config)) && RewriteConfig(RewriteConfig(config)) == RewriteConfig(config)
  {
    if config.Obj? {
      ObjectIdempotent(config);
    } else if config.Arr? {
      SpreadIsFinal(config.items, Spread(config.items));
    }
  }

  /** An object that has none of the properties looked at stays. */
  lemma SpreadIsFinal(items: seq<Json>, fields: JsMap<Json>)
    requires fields == Spread(items)
    ensures WellFormed(Obj(fields)) && RewriteConfig(Obj(fields)) == Obj(fields)
  {
    SpreadHasNoNames(items, Id("tools"));
    SpreadHasNoNames(items, Id("roles"));
    NamelessStays(fields);
  }

  lemma NamelessStays(fields: JsMap<Json>)
    requires fields.Valid() && Id("tools") !in fields.vals && Id("roles") !in fields.vals
    ensures WellFormed(Obj(fields)) && RewriteConfig(Obj(fields)) == Obj(fields)
  {
    var rewritten := map k | k in fields.vals :: RewriteField(k, fields.vals[k]);
    forall k | k in fields.vals ensures rewritten[k] == fields.vals[k] {
      assert k != Id("tools") && k != Id("roles");
    }
    assert rewritten == fields.vals;
  }

  lemma ObjectIdempotent(config: Json)
    requires WellFormed(config) && config.Obj?
    ensures WellFormed(RewriteConfig(config)) && RewriteConfig(RewriteConfig(config)) == RewriteConfig(config)
  {
    forall k | k in config.fields.vals
      ensures var v := config.fields.vals[k]; var once := RewriteField(k, v);
        (k == Id("tools") && once.Obj? ==> once.fields.Valid()) && RewriteField(k, once) == once
    {
      FieldIdempotent(k, config.fields.vals[k]);
    }
  }

  /** The rows of `workspace_settings` with key `team.config`; None is a value that does not parse. */
  class TeamConfigs {
    var rows: seq<Option<Json>>

    /** `migrateStoredTeamConfigTools` */
    method Migrate()
      requires forall i :: 0 <= i < |rows| && rows[i].Some? ==> WellFormed(rows[i].value)
      modifies this
      ensures |rows| == |old(rows)|
      ensures forall i :: 0 <= i < |rows| ==>
        rows[i] == if old(rows)[i].None? then None else Some(RewriteConfig(old(rows)[i].value))
    {
      for n := 0 to |rows|
        invariant |rows| == |old(rows)|
        invariant forall i :: n <= i < |rows| ==> rows[i] == old(rows)[i]
        invariant forall i :: 0 <= i < n ==>
          rows[i] == if old(rows)[i].None? then None else Some(RewriteConfig(old(rows)[i].value))
      {
        if rows[n].None? || rows[n].value.Str? || rows[n].value.Scalar? { continue; }
        rows := rows[n := Some(RewriteConfig(rows[n].value))];
      }
    }
  }
}
