/** The migration runner of the context store. A migration is an abstract change of the schema with a
    guard that may find it already made; the record of what has been applied is part of the database,
    so a run that was stopped is picked up by the next one. */
module Migrations {
  import opened Collections

  /** `skip` is the guard that records a migration without running it; `up` is its body, None when it
      throws. */
  datatype Migration<!S> = Migration(id: Id, skip: S -> bool, up: S -> Option<S>)

  /** `effects` lists, by position in the migration list, the bodies that took effect, in order. */
  datatype Db<S> = Db(schema: S, applied: set<Id>, effects: seq<nat>)

  datatype End = Completed | Crashed | Threw

  ghost predicate UniqueIds<S(!new)>(ms: seq<Migration<S>>) {
    forall i, j :: 0 <= i < j < |ms| ==> ms[i].id != ms[j].id
  }

  /** One migration that is not recorded yet. The body and its record are one transaction; recording
      an id twice violates the key of the table. */
  function Apply<S>(ms: seq<Migration<S>>, k: nat, db: Db<S>): Option<Db<S>>
    requires k < |ms|
  {
    var m := ms[k];
    if m.skip(db.schema) then
      if m.id in db.applied then None else Some(db.(applied := db.applied + {m.id}))
    else
      var schema := m.up(db.schema);
      if schema.None? || m.id in db.applied then None
      else Some(Db(schema.value, db.applied + {m.id}, db.effects + [k]))
  }

  /** A run from migration k on, with the ids loaded when it began; it is stopped from outside before
      it applies more than `budget` migrations. */
  function RunFrom<S>(ms: seq<Migration<S>>, k: nat, loaded: set<Id>, db: Db<S>, budget: nat): (Db<S>, End)
    requires k <= |ms|
    decreases |ms| - k
  {
    if k == |ms| then (db, Completed)
    else if ms[k].id in loaded then RunFrom(ms, k + 1, loaded, db, budget)
    else if budget == 0 then (db, Crashed)
    else
      var next := Apply(ms, k, db);
      if next.None? then (db, Threw) else RunFrom(ms, k + 1, loaded, next.value, budget - 1)
  }

  function Run<S>(ms: seq<Migration<S>>, db: Db<S>, budget: nat): (Db<S>, End) {
    RunFrom(ms, 0, db.applied, db, budget)
  }

  class Database<S> {
    var db: Db<S>

    constructor (db: Db<S>)
      ensures this.db == db
    {
      this.db := db;
    }

    /** `runMigrations`, stopped after `budget` migrations if it gets that far. */
    method RunMigrations(ms: seq<Migration<S>>, budget: nat) returns (end: End)
      modifies this
      ensures (db, end) == Run(ms, old(db), budget)
    {
      var applied := db.applied;
      var left := budget;
      var k := 0;
      while k < |ms|
        invariant k <= |ms|
        invariant RunFrom(ms, k, applied, db, left) == Run(ms, old(db), budget)
      {
        var m := ms[k];
        if m.id in applied { k := k + 1; continue; }
        if left == 0 { return Crashed; }
        if m.skip(db.schema) {
          if m.id in db.applied { return Threw; }
          db := db.(applied := db.applied + {m.id});
        } else {
          var schema := m.up(db.schema);
          if schema.None? || m.id in db.applied { return Threw; }
          db := Db(schema.value, db.applied + {m.id}, db.effects + [k]);
        }
        left := left - 1;
        k := k + 1;
      }
      end := Completed;
    }
  }

  // ---------------------------------------------------------------------------------------------
  // What one run does
  // ---------------------------------------------------------------------------------------------

  /** What becomes of the schema at a migration, and whether its body takes effect. */
  ghost predicate Turns<S>(m: Migration<S>, recorded: bool, schema: S, next: S, effect: bool) {
    if recorded || m.skip(schema) then next == schema && !effect
    else m.up(schema) == Some(next) && effect
  }

  ghost predicate TurnAt<S>(ms: seq<Migration<S>>, recorded: set<Id>, schemas: seq<S>, took: seq<nat>, k: nat)
    requires k < |ms| && k < |schemas| - 1
  {
    Turns(ms[k], ms[k].id in recorded, schemas[k], schemas[k + 1], k in took)
  }

  ghost predicate Increasing(took: seq<nat>, below: nat) {
    (forall i, j :: 0 <= i < j < |took| ==> took[i] < took[j]) && forall k :: k in took ==> k < below
  }

  /** The first migrations of the list, one schema between any two: `took` are those whose bodies took
      effect. */
  ghost predicate Followed<S>(ms: seq<Migration<S>>, before: Db<S>, schemas: seq<S>, took: seq<nat>, after: Db<S>) {
    0 < |schemas| <= |ms| + 1 && schemas[0] == before.schema && schemas[|schemas| - 1] == after.schema &&
    after.effects == before.effects + took && Increasing(took, |schemas| - 1) &&
    (forall k: nat :: k < |schemas| - 1 ==> TurnAt(ms, before.applied, schemas, took, k)) &&
    forall id :: id in after.applied <==> id in before.applied || Listed(ms, |schemas| - 1, id)
  }

  /** One of the first n migrations has the id. */
  ghost predicate Listed<S>(ms: seq<Migration<S>>, n: nat, id: Id) {
    exists k :: 0 <= k < n && k < |ms| && ms[k].id == id
  }

  /** How many of the first n migrations were not recorded. */
  function Pending<S>(ms: seq<Migration<S>>, recorded: set<Id>, n: nat): nat
    requires n <= |ms|
  {
    if n == 0 then 0 else Pending(ms, recorded, n - 1) + (if ms[n - 1].id in recorded then 0 else 1)
  }

  /** Why the run ended before migration n: there is none, it was stopped, or the migration cannot be
      applied, because its body throws or because its id has just been recorded. */
  ghost predicate EndsAt<S>(ms: seq<Migration<S>>, recorded: set<Id>, n: nat, schema: S, budget: nat, end: End)
    requires n <= |ms|
  {
    Pending(ms, recorded, n) <= budget &&
    if n == |ms| then end == Completed
    else
      ms[n].id !in recorded &&
      if Pending(ms, recorded, n) == budget then end == Crashed
      else end == Threw && ((!ms[n].skip(schema) && ms[n].up(schema).None?) || Listed(ms, n, ms[n].id))
  }

  /** A whole run: how the list was followed, and why it ended there. */
  ghost predicate Told<S>(ms: seq<Migration<S>>, before: Db<S>, schemas: seq<S>, took: seq<nat>, after: Db<S>,
                          budget: nat, end: End)
  {
    Followed(ms, before, schemas, took, after) &&
    EndsAt(ms, before.applied, |schemas| - 1, after.schema, budget, end)
  }

  lemma ListedNext<S>(ms: seq<Migration<S>>, n: nat, next: nat, id: Id)
    requires n < |ms| && next == n + 1
    ensures Listed(ms, next, id) <==> Listed(ms, n, id) || ms[n].id == id
  {
    if Listed(ms, next, id) {
      var k :| 0 <= k < next && k < |ms| && ms[k].id == id;
    }
  }

  lemma IncreasingNext(took: seq<nat>, n: nat, effect: bool, further: seq<nat>)
    requires Increasing(took, n) && further == took + if effect then [n] else []
    ensures Increasing(further, n + 1) && (n in further <==> effect)
    ensures forall k: nat :: k < n ==> (k in further <==> k in took)
  {
    forall i | 0 <= i < |took| ensures took[i] < n { assert took[i] in took; }
    if effect { assert further[|took|] == n; }
  }

  lemma TurnsNext<S>(ms: seq<Migration<S>>, recorded: set<Id>, schemas: seq<S>, took: seq<nat>, n: nat, effect: bool,
                     all: seq<S>, further: seq<nat>)
    requires 0 < |schemas| && n == |schemas| - 1 < |ms| && |all| == |schemas| + 1 && all[..|schemas|] == schemas
    requires Increasing(took, n) && further == took + if effect then [n] else []
    requires forall k: nat :: k < n ==> TurnAt(ms, recorded, schemas, took, k)
    requires Turns(ms[n], ms[n].id in recorded, all[n], all[n + 1], effect)
    ensures Increasing(further, n + 1) && forall k: nat :: k < n + 1 ==> TurnAt(ms, recorded, all, further, k)
  {
    IncreasingNext(took, n, effect, further);
    forall k: nat | k < n + 1 ensures TurnAt(ms, recorded, all, further, k) {
      if k < n {
        assert TurnAt(ms, recorded, schemas, took, k) && all[k] == schemas[k] && all[k + 1] == schemas[k + 1];
      } else {
        assert (k in further) == effect;
      }
    }
  }

  /** One more migration has been dealt with. */
  lemma FollowedNext<S>(ms: seq<Migration<S>>, before: Db<S>, schemas: seq<S>, took: seq<nat>, db: Db<S>,
                        n: nat, effect: bool, next: Db<S>, all: seq<S>, further: seq<nat>)
    requires Followed(ms, before, schemas, took, db) && n == |schemas| - 1 < |ms|
    requires Turns(ms[n], ms[n].id in before.applied, db.schema, next.schema, effect)
    requires all == schemas + [next.schema] && further == took + if effect then [n] else []
    requires next.effects == db.effects + if effect then [n] else []
    requires forall id :: id in next.applied <==> id in db.applied || id == ms[n].id
    ensures Followed(ms, before, all, further, next)
  {
    TurnsNext(ms, before.applied, schemas, took, n, effect, all, further);
    forall id { ListedNext(ms, n, n + 1, id); }
  }

  /** What the step of an unrecorded migration comes to. */
  lemma ApplyTurns<S>(ms: seq<Migration<S>>, k: nat, db: Db<S>, next: Db<S>, effect: bool, recorded: bool)
    requires k < |ms| && Apply(ms, k, db) == Some(next) && effect == !ms[k].skip(db.schema) && !recorded
    ensures Turns(ms[k], recorded, db.schema, next.schema, effect)
    ensures next.effects == db.effects + if effect then [k] else []
    ensures next.applied == db.applied + {ms[k].id}
  {}

  /** Where a run is before migration k. */
  ghost predicate Follows<S>(ms: seq<Migration<S>>, before: Db<S>, schemas: seq<S>, took: seq<nat>, k: nat, db: Db<S>,
                             left: nat, budget: nat)
  {
    Followed(ms, before, schemas, took, db) && k == |schemas| - 1 && Pending(ms, before.applied, k) + left == budget
  }

  lemma SkippedFollows<S>(ms: seq<Migration<S>>, before: Db<S>, schemas: seq<S>, took: seq<nat>, k: nat, db: Db<S>,
                          left: nat, budget: nat)
    requires Follows(ms, before, schemas, took, k, db, left, budget) && k < |ms| && ms[k].id in before.applied
    ensures Follows(ms, before, schemas + [db.schema], took, k + 1, db, left, budget)
  {
    FollowedNext(ms, before, schemas, took, db, k, false, db, schemas + [db.schema], took);
  }

  lemma AppliedFollows<S>(ms: seq<Migration<S>>, before: Db<S>, schemas: seq<S>, took: seq<nat>, k: nat, db: Db<S>,
                          left: nat, budget: nat, next: Db<S>, further: seq<nat>)
    requires Follows(ms, before, schemas, took, k, db, left, budget) && k < |ms| && ms[k].id !in before.applied
    requires left > 0 && Apply(ms, k, db) == Some(next)
    requires further == took + if ms[k].skip(db.schema) then [] else [k]
    ensures Follows(ms, before, schemas + [next.schema], further, k + 1, next, left - 1, budget)
  {
    var effect := !ms[k].skip(db.schema);
    ApplyTurns(ms, k, db, next, effect, false);
    FollowedNext(ms, before, schemas, took, db, k, effect, next, schemas + [next.schema], further);
  }

  lemma StuckTold<S>(ms: seq<Migration<S>>, before: Db<S>, schemas: seq<S>, took: seq<nat>, k: nat, db: Db<S>,
                     left: nat, budget: nat)
    requires Follows(ms, before, schemas, took, k, db, left, budget) && k < |ms| && ms[k].id !in before.applied
    requires left == 0 || Apply(ms, k, db).None?
    ensures Told(ms, before, schemas, took, db, budget, if left == 0 then Crashed else Threw)
  {}

  lemma AllTold<S>(ms: seq<Migration<S>>, before: Db<S>, schemas: seq<S>, took: seq<nat>, k: nat, db: Db<S>,
                   left: nat, budget: nat)
    requires Follows(ms, before, schemas, took, k, db, left, budget) && k == |ms|
    ensures Told(ms, before, schemas, took, db, budget, Completed)
  {}

  lemma {:induction false} FollowedTo<S>(ms: seq<Migration<S>>, before: Db<S>, schemas: seq<S>, took: seq<nat>,
                                         k: nat, db: Db<S>, left: nat, budget: nat)
    returns (all: seq<S>, further: seq<nat>)
    requires k <= |ms| && Follows(ms, before, schemas, took, k, db, left, budget)
    ensures var (after, end) := RunFrom(ms, k, before.applied, db, left);
      Told(ms, before, all, further, after, budget, end)
    decreases |ms| - k
  {
    all, further := schemas, took;
    if k < |ms| {
      if ms[k].id in before.applied {
        SkippedFollows(ms, before, schemas, took, k, db, left, budget);
        all, further := FollowedTo(ms, before, schemas + [db.schema], took, k + 1, db, left, budget);
      } else if left > 0 && Apply(ms, k, db).Some? {
        var next := Apply(ms, k, db).value;
        further := took + if ms[k].skip(db.schema) then [] else [k];
        AppliedFollows(ms, before, schemas, took, k, db, left, budget, next, further);
        all, further := FollowedTo(ms, before, schemas + [next.schema], further, k + 1, next, left - 1, budget);
      } else {
        StuckTold(ms, before, schemas, took, k, db, left, budget);
      }
    } else {
      AllTold(ms, before, schemas, took, k, db, left, budget);
    }
  }

  /** A run, stopped or not, goes through the list from its beginning: a migration that was recorded or
      whose guard holds leaves the schema as it is, any other changes it by its body, which takes effect
      then and only then; all are recorded. It completes at the end of the list, is stopped when its
      budget is used up, and else throws before a migration that cannot be applied. */
  lemma RunFollowed<S>(ms: seq<Migration<S>>, db: Db<S>, budget: nat) returns (schemas: seq<S>, took: seq<nat>)
    ensures var (after, end) := Run(ms, db, budget);
      Told(ms, db, schemas, took, after, budget, end)
  {
    assert db.effects + [] == db.effects;
    schemas, took := FollowedTo(ms, db, [db.schema], [], 0, db, budget, budget);
  }

  // ---------------------------------------------------------------------------------------------
  // Stopping and running again
  // ---------------------------------------------------------------------------------------------

  /** The run nobody stops, by what is recorded in the database at each point. */
  function Full<S>(ms: seq<Migration<S>>, k: nat, db: Db<S>): (Db<S>, End)
    requires k <= |ms|
    decreases |ms| - k
  {
    if k == |ms| then (db, Completed)
    else if ms[k].id in db.applied then Full(ms, k + 1, db)
    else
      var next := Apply(ms, k, db);
      if next.None? then (db, Threw) else Full(ms, k + 1, next.value)
  }

  /** The ids loaded at the start are, from k on, those recorded now. */
  ghost predicate UpToDate<S(!new)>(ms: seq<Migration<S>>, k: nat, loaded: set<Id>, db: Db<S>) {
    forall j :: k <= j < |ms| ==> (ms[j].id in loaded <==> ms[j].id in db.applied)
  }

  lemma ApplyRecords<S(!new)>(ms: seq<Migration<S>>, k: nat, loaded: set<Id>, db: Db<S>)
    requires UniqueIds(ms) && k < |ms| && UpToDate(ms, k, loaded, db) && Apply(ms, k, db).Some?
    ensures var next := Apply(ms, k, db).value;
      next.applied == db.applied + {ms[k].id} && UpToDate(ms, k + 1, loaded, next)
  {}

  lemma {:induction false} UnstoppedIsFull<S(!new)>(ms: seq<Migration<S>>, k: nat, loaded: set<Id>, db: Db<S>,
                                                    budget: nat)
    requires UniqueIds(ms) && k <= |ms| && UpToDate(ms, k, loaded, db) && budget >= |ms| - k
    ensures RunFrom(ms, k, loaded, db, budget) == Full(ms, k, db)
    decreases |ms| - k
  {
    if k < |ms| {
      if ms[k].id in loaded {
        UnstoppedIsFull(ms, k + 1, loaded, db, budget);
      } else if Apply(ms, k, db).Some? {
        ApplyRecords(ms, k, loaded, db);
        UnstoppedIsFull(ms, k + 1, loaded, Apply(ms, k, db).value, budget - 1);
      }
    }
  }

  /** A run, wherever it ends, leaves a database from which the unstopped run ends as it would have
      without it. */
  lemma {:induction false} RunAbsorbed<S(!new)>(ms: seq<Migration<S>>, k: nat, loaded: set<Id>, db: Db<S>, budget: nat)
    requires UniqueIds(ms) && k <= |ms| && UpToDate(ms, k, loaded, db)
    ensures var (after, _) := RunFrom(ms, k, loaded, db, budget);
      db.applied <= after.applied && Full(ms, k, after) == Full(ms, k, db)
    decreases |ms| - k
  {
    if k < |ms| {
      if ms[k].id in loaded {
        RunAbsorbed(ms, k + 1, loaded, db, budget);
      } else if budget > 0 && Apply(ms, k, db).Some? {
        ApplyRecords(ms, k, loaded, db);
        RunAbsorbed(ms, k + 1, loaded, Apply(ms, k, db).value, budget - 1);
      }
    }
  }

  /** Any number of runs, each stopped wherever it is stopped. */
  function Series<S>(ms: seq<Migration<S>>, db: Db<S>, budgets: seq<nat>): Db<S> {
    if budgets == [] then db else Run(ms, Series(ms, db, budgets[..|budgets| - 1]), budgets[|budgets| - 1]).0
  }

  /** Crash and resume: after any number of stopped runs, a run that nobody stops ends in the same
      database, with the same record and the same bodies having taken effect in the same order, and in
      the same way, as one uninterrupted run of the original database. */
  lemma {:induction false} CrashAndResume<S(!new)>(ms: seq<Migration<S>>, db: Db<S>, budgets: seq<nat>, enough: nat)
    requires UniqueIds(ms) && enough >= |ms|
    ensures Run(ms, Series(ms, db, budgets), enough) == Run(ms, db, enough)
  {
    UnstoppedIsFull(ms, 0, Series(ms, db, budgets).applied, Series(ms, db, budgets), enough);
    UnstoppedIsFull(ms, 0, db.applied, db, enough);
    if budgets != [] {
      var n := |budgets| - 1;
      CrashAndResume(ms, db, budgets[..n], enough);
      var before := Series(ms, db, budgets[..n]);
      UnstoppedIsFull(ms, 0, before.applied, before, enough);
      RunAbsorbed(ms, 0, before.applied, before, budgets[n]);
    }
  }

  // ---------------------------------------------------------------------------------------------
  // Each body at most once, in list order
  // ---------------------------------------------------------------------------------------------

  /** The bodies took effect in list order, and everything up to the last of them is recorded. */
  ghost predicate Orderly<S(!new)>(ms: seq<Migration<S>>, db: Db<S>) {
    (forall i, j :: 0 <= i < j < |db.effects| ==> db.effects[i] < db.effects[j]) &&
    (forall i, k :: 0 <= i < |db.effects| && 0 <= k <= db.effects[i] ==> k < |ms| && ms[k].id in db.applied)
  }

  lemma {:induction false} RunOrderly<S(!new)>(ms: seq<Migration<S>>, k: nat, loaded: set<Id>, db: Db<S>, budget: nat)
    requires UniqueIds(ms) && k <= |ms| && UpToDate(ms, k, loaded, db) && Orderly(ms, db)
    requires forall j :: 0 <= j < k ==> ms[j].id in db.applied
    ensures Orderly(ms, RunFrom(ms, k, loaded, db, budget).0)
    decreases |ms| - k
  {
    if k < |ms| {
      if ms[k].id in loaded {
        RunOrderly(ms, k + 1, loaded, db, budget);
      } else if budget > 0 && Apply(ms, k, db).Some? {
        var next := Apply(ms, k, db).value;
        ApplyRecords(ms, k, loaded, db);
        assert ms[k].id !in db.applied;
        assert forall i :: 0 <= i < |db.effects| ==> db.effects[i] < k;
        RunOrderly(ms, k + 1, loaded, next, budget - 1);
      }
    }
  }

  /** Over any number of stopped runs each body takes effect at most once, in list order. */
  lemma {:induction false} AtMostOnce<S(!new)>(ms: seq<Migration<S>>, db: Db<S>, budgets: seq<nat>)
    requires UniqueIds(ms) && db.effects == []
    ensures Orderly(ms, Series(ms, db, budgets))
  {
    if budgets != [] {
      var n := |budgets| - 1;
      AtMostOnce(ms, db, budgets[..n]);
      var before := Series(ms, db, budgets[..n]);
      RunOrderly(ms, 0, before.applied, before, budgets[n]);
    }
  }

  /** From k on, a run comes to the second of two migrations with one id, unless it throws before. */
  lemma {:induction false} SecondThrows<S(!new)>(ms: seq<Migration<S>>, k: nat, i: nat, j: nat,
                                                 loaded: set<Id>, db: Db<S>, budget: nat)
    requires k <= j && i < j < |ms| && ms[i].id == ms[j].id && budget >= |ms| - k
    requires ms[i].id !in loaded && (k > i ==> ms[i].id in db.applied)
    ensures RunFrom(ms, k, loaded, db, budget).1 == Threw
    decreases j - k
  {
    if ms[k].id in loaded {
      SecondThrows(ms, k + 1, i, j, loaded, db, budget);
    } else if Apply(ms, k, db).Some? {
      SecondThrows(ms, k + 1, i, j, loaded, Apply(ms, k, db).value, budget - 1);
    }
  }

  /** Ids must be unique: a list that repeats one throws, on any database that lacks it. */
  lemma RepeatedIdThrows<S(!new)>(ms: seq<Migration<S>>, i: nat, j: nat, db: Db<S>, enough: nat)
    requires i < j < |ms| && ms[i].id == ms[j].id && ms[i].id !in db.applied && enough >= |ms|
    ensures Run(ms, db, enough).1 == Threw
  {
    SecondThrows(ms, 0, i, j, db.applied, db, enough);
  }
}
