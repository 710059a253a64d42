/** The searches the agent loop makes before it classifies an error: for a pending approval, then for
    pending input. Each follows `cause` and then `error` without a record of what it has seen, so it does
    not come back from every error. */
module ErrorSearch {
  import opened Collections
  import opened ErrorWalk

  datatype Answer = Hit(id: nat) | Nothing | Deeper

  /** The search, cut off at a depth; `hits` are the objects it looks for. */
  function Search(h: Heap, hits: set<nat>, v: Value, depth: nat): Answer
    requires WellFormed(h) && Known(h, v)
    decreases depth
  {
    if v.Primitive? then Nothing
    else if v.id in hits then Hit(v.id)
    else if depth == 0 then Deeper
    else
      var nested := Search(h, hits, h[v.id].cause, depth - 1);
      if nested.Nothing? then Search(h, hits, h[v.id].error, depth - 1) else nested
  }

  lemma {:induction false} SearchSettles(h: Heap, hits: set<nat>, v: Value, depth: nat, more: nat)
    requires WellFormed(h) && Known(h, v) && depth <= more && !Search(h, hits, v, depth).Deeper?
    ensures Search(h, hits, v, more) == Search(h, hits, v, depth)
    decreases depth
  {
    if v.Ref? && v.id !in hits {
      SearchSettles(h, hits, h[v.id].cause, depth - 1, more - 1);
      if Search(h, hits, h[v.id].cause, depth - 1).Nothing? {
        SearchSettles(h, hits, h[v.id].error, depth - 1, more - 1);
      }
    }
  }

  /** The search comes back. */
  ghost predicate Returns(h: Heap, hits: set<nat>, v: Value)
    requires WellFormed(h) && Known(h, v)
  {
    exists depth: nat :: !Search(h, hits, v, depth).Deeper?
  }

  /** It comes back empty-handed. */
  ghost predicate Empty(h: Heap, hits: set<nat>, v: Value)
    requires WellFormed(h) && Known(h, v)
  {
    exists depth: nat :: Search(h, hits, v, depth).Nothing?
  }

  /** The search of x goes on to y: it always looks at the cause, and at the error once the cause has
      led to nothing. */
  ghost predicate GoesOn(h: Heap, hits: set<nat>, x: nat, y: nat)
    requires WellFormed(h)
  {
    x in h && x !in hits && (h[x].cause == Ref(y) || (h[x].error == Ref(y) && Empty(h, hits, h[x].cause)))
  }

  ghost predicate Trail(h: Heap, hits: set<nat>, p: seq<nat>)
    requires WellFormed(h)
  {
    (forall i :: 0 <= i < |p| ==> p[i] in h) && forall i :: 0 < i < |p| ==> GoesOn(h, hits, p[i - 1], p[i])
  }

  /** A trail from the object comes back to where it has been. */
  ghost predicate Circles(h: Heap, hits: set<nat>, root: nat)
    requires WellFormed(h)
  {
    exists p: seq<nat> :: |p| > 0 && p[0] == root && Trail(h, hits, p) && !NoDups(p)
  }

  lemma TrailLength(h: Heap, hits: set<nat>, p: seq<nat>)
    requires WellFormed(h) && Trail(h, hits, p) && NoDups(p)
    ensures |p| <= |h|
  {
    DistinctCount(p);
    assert Elems(p) <= h.Keys;
    SubsetSize(Elems(p), h.Keys);
  }

  /** Where no trail circles, the number of objects is depth enough. */
  lemma {:induction false} StraightReturns(h: Heap, hits: set<nat>, p: seq<nat>)
    requires WellFormed(h) && |p| > 0 && Trail(h, hits, p) && !Circles(h, hits, p[0])
    ensures |p| <= |h| && !Search(h, hits, Ref(p[|p| - 1]), |h| + 1 - |p|).Deeper?
    decreases |h| - |p|, 1
  {
    assert NoDups(p);
    TrailLength(h, hits, p);
    var x, depth := p[|p| - 1], |h| + 1 - |p|;
    if x !in hits {
      if h[x].cause.Ref? { StraightNext(h, hits, p, h[x].cause.id); }
      if Search(h, hits, h[x].cause, depth - 1).Nothing? && h[x].error.Ref? { StraightNext(h, hits, p, h[x].error.id); }
    }
  }

  lemma StraightNext(h: Heap, hits: set<nat>, p: seq<nat>, y: nat)
    requires WellFormed(h) && |p| > 0 && Trail(h, hits, p) && !Circles(h, hits, p[0]) && |p| <= |h|
    requires GoesOn(h, hits, p[|p| - 1], y) && y in h
    ensures !Search(h, hits, Ref(y), |h| - |p|).Deeper?
    decreases |h| - |p|, 0
  {
    var longer: seq<nat> := p + [y];
    assert Trail(h, hits, longer);
    assert NoDups(longer);
    TrailLength(h, hits, longer);
    StraightReturns(h, hits, longer);
  }

  /** A search that comes back has less far to go from where it goes on. */
  lemma GoesOnShallower(h: Heap, hits: set<nat>, x: nat, y: nat, depth: nat)
    requires WellFormed(h) && x in h && y in h && GoesOn(h, hits, x, y) && !Search(h, hits, Ref(x), depth).Deeper?
    ensures depth > 0 && !Search(h, hits, Ref(y), depth - 1).Deeper?
  {
    if h[x].cause != Ref(y) {
      var d: nat :| Search(h, hits, h[x].cause, d).Nothing?;
      SearchSettles(h, hits, h[x].cause, d, d + depth);
      SearchSettles(h, hits, h[x].cause, depth - 1, d + depth);
    }
  }

  lemma {:induction false} TrailShallower(h: Heap, hits: set<nat>, p: seq<nat>, i: nat, j: nat, depth: nat)
    requires WellFormed(h) && Trail(h, hits, p) && i <= j < |p| && !Search(h, hits, Ref(p[i]), depth).Deeper?
    ensures j - i <= depth && !Search(h, hits, Ref(p[j]), depth - (j - i)).Deeper?
    decreases j - i
  {
    if i < j {
      GoesOnShallower(h, hits, p[i], p[i + 1], depth);
      TrailShallower(h, hits, p, i + 1, j, depth - 1);
    }
  }

  /** So it does not come back to where it has been. */
  lemma {:induction false} NoReturnFromCircle(h: Heap, hits: set<nat>, p: seq<nat>, i: nat, j: nat, depth: nat)
    requires WellFormed(h) && Trail(h, hits, p) && i < j < |p| && p[i] == p[j]
    ensures Search(h, hits, Ref(p[i]), depth).Deeper?
    decreases depth
  {
    if !Search(h, hits, Ref(p[i]), depth).Deeper? {
      TrailShallower(h, hits, p, i, j, depth);
      NoReturnFromCircle(h, hits, p, i, j, depth - (j - i));
    }
  }

  /** A search comes back if and only if no trail from where it begins circles. */
  lemma CirclesIff(h: Heap, hits: set<nat>, root: nat)
    requires WellFormed(h) && root in h
    ensures Returns(h, hits, Ref(root)) <==> !Circles(h, hits, root)
  {
    if Circles(h, hits, root) {
      var p: seq<nat> :| |p| > 0 && p[0] == root && Trail(h, hits, p) && !NoDups(p);
      var i, j :| 0 <= i < j < |p| && p[i] == p[j];
      forall depth: nat ensures Search(h, hits, Ref(root), depth).Deeper? {
        if !Search(h, hits, Ref(root), depth).Deeper? {
          TrailShallower(h, hits, p, 0, i, depth);
          NoReturnFromCircle(h, hits, p, i, j, depth - i);
        }
      }
    } else {
      assert Trail(h, hits, [root]);
      StraightReturns(h, hits, [root]);
    }
  }

  // ---------------------------------------------------------------------------------------------
  // In terms of the graph
  // ---------------------------------------------------------------------------------------------

  /** A cycle can be reached. */
  ghost predicate Cyclic(h: Heap, root: nat) {
    exists p: seq<nat> :: |p| > 0 && p[0] == root && Path(h, p) && !NoDups(p)
  }

  ghost predicate NoneReachable(h: Heap, hits: set<nat>, root: nat) {
    forall id :: Reachable(h, root, id) ==> id !in hits
  }

  /** What a search finds is one of the objects it looks for, and can be reached. */
  lemma {:induction false} HitReachable(h: Heap, hits: set<nat>, v: Value, depth: nat)
    requires WellFormed(h) && Known(h, v) && Search(h, hits, v, depth).Hit?
    ensures v.Ref? && Search(h, hits, v, depth).id in hits && Reachable(h, v.id, Search(h, hits, v, depth).id)
    decreases depth
  {
    var id := Search(h, hits, v, depth).id;
    if v.id in hits {
      assert Path(h, [v.id]);
    } else if Search(h, hits, h[v.id].cause, depth - 1).Nothing? {
      HitReachable(h, hits, h[v.id].error, depth - 1);
      ReachableFrom(h, v.id, h[v.id].error.id, id);
    } else {
      HitReachable(h, hits, h[v.id].cause, depth - 1);
      ReachableFrom(h, v.id, h[v.id].cause.id, id);
    }
  }

  /** A search that comes back empty-handed has gone everywhere. */
  lemma EmptyGoesOn(h: Heap, hits: set<nat>, x: nat, y: nat)
    requires WellFormed(h) && x in h && Empty(h, hits, Ref(x)) && Step(h, x, y)
    ensures y in h && GoesOn(h, hits, x, y) && Empty(h, hits, Ref(y)) && x !in hits
  {
    var depth: nat :| Search(h, hits, Ref(x), depth).Nothing?;
    assert Search(h, hits, h[x].cause, depth - 1).Nothing? && Search(h, hits, h[x].error, depth - 1).Nothing?;
  }

  lemma {:induction false} EmptyPath(h: Heap, hits: set<nat>, p: seq<nat>, n: nat)
    requires WellFormed(h) && Path(h, p) && n < |p| && p[0] in h && Empty(h, hits, Ref(p[0]))
    ensures Trail(h, hits, p[..n + 1]) && p[n] in h && Empty(h, hits, Ref(p[n])) && p[n] !in hits
  {
    if n > 0 {
      EmptyPath(h, hits, p, n - 1);
      EmptyGoesOn(h, hits, p[n - 1], p[n]);
      assert p[..n + 1] == p[..n] + [p[n]];
    }
  }

  /** It comes back empty-handed if and only if no cycle and none of the objects it looks for can be
      reached. */
  lemma EmptyIff(h: Heap, hits: set<nat>, root: nat)
    requires WellFormed(h) && root in h
    ensures Empty(h, hits, Ref(root)) <==> !Cyclic(h, root) && NoneReachable(h, hits, root)
  {
    if Empty(h, hits, Ref(root)) {
      forall id | Reachable(h, root, id) ensures id !in hits {
        var p: seq<nat> :| |p| > 0 && p[0] == root && p[|p| - 1] == id && Path(h, p);
        EmptyPath(h, hits, p, |p| - 1);
      }
      CirclesIff(h, hits, root);
      forall p: seq<nat> | |p| > 0 && p[0] == root && Path(h, p) ensures NoDups(p) {
        EmptyPath(h, hits, p, |p| - 1);
        assert p[..|p|] == p;
      }
    } else if !Cyclic(h, root) && NoneReachable(h, hits, root) {
      TrailsArePaths(h, hits, root);
      CirclesIff(h, hits, root);
      var depth: nat :| !Search(h, hits, Ref(root), depth).Deeper?;
      if Search(h, hits, Ref(root), depth).Hit? { HitReachable(h, hits, Ref(root), depth); }
    }
  }

  lemma TrailsArePaths(h: Heap, hits: set<nat>, root: nat)
    requires WellFormed(h) && !Cyclic(h, root)
    ensures !Circles(h, hits, root)
  {
    forall p: seq<nat> | |p| > 0 && p[0] == root && Trail(h, hits, p) ensures NoDups(p) {
      assert Path(h, p);
    }
  }

  /** Nothing the search looks for lies there, and no cycle. */
  ghost predicate Barren(h: Heap, hits: set<nat>, v: Value) {
    v.Ref? ==> !Cyclic(h, v.id) && NoneReachable(h, hits, v.id)
  }

  lemma EmptyIsBarren(h: Heap, hits: set<nat>, v: Value)
    requires WellFormed(h) && Known(h, v)
    ensures Empty(h, hits, v) <==> Barren(h, hits, v)
  {
    if v.Ref? {
      EmptyIff(h, hits, v.id);
    } else {
      assert Search(h, hits, v, 0).Nothing?;
    }
  }

  /** An object leads the search on to its cause, and to its error if its cause is barren. */
  ghost predicate LeadsOn(h: Heap, hits: set<nat>, x: nat, y: nat) {
    x in h && x !in hits && (h[x].cause == Ref(y) || (h[x].error == Ref(y) && Barren(h, hits, h[x].cause)))
  }

  ghost predicate Course(h: Heap, hits: set<nat>, p: seq<nat>) {
    forall i :: 0 < i < |p| ==> LeadsOn(h, hits, p[i - 1], p[i])
  }

  lemma CourseIsTrail(h: Heap, hits: set<nat>, p: seq<nat>)
    requires WellFormed(h) && |p| > 0 && p[0] in h
    ensures Course(h, hits, p) <==> Trail(h, hits, p)
  {
    forall x, y | x in h ensures LeadsOn(h, hits, x, y) <==> GoesOn(h, hits, x, y) {
      EmptyIsBarren(h, hits, h[x].cause);
    }
    if Course(h, hits, p) {
      for n := 1 to |p|
        invariant forall i :: 0 <= i < n ==> p[i] in h
      {
        assert LeadsOn(h, hits, p[n - 1], p[n]);
      }
    }
  }

  /** In terms of the error graph alone: a search comes back if and only if no course from where it
      begins meets an object twice. */
  lemma ReturnsIff(h: Heap, hits: set<nat>, root: nat)
    requires WellFormed(h) && root in h
    ensures Returns(h, hits, Ref(root)) <==>
      forall p: seq<nat> :: |p| > 0 && p[0] == root && Course(h, hits, p) ==> NoDups(p)
  {
    CirclesIff(h, hits, root);
    forall p: seq<nat> | |p| > 0 && p[0] == root ensures Course(h, hits, p) <==> Trail(h, hits, p) {
      CourseIsTrail(h, hits, p);
    }
  }

  ghost predicate CourseTo(h: Heap, hits: set<nat>, p: seq<nat>, root: nat, id: nat) {
    |p| > 0 && p[0] == root && p[|p| - 1] == id && Course(h, hits, p)
  }

  lemma CourseFrom(h: Heap, hits: set<nat>, x: nat, y: nat, p: seq<nat>, id: nat)
    requires LeadsOn(h, hits, x, y) && CourseTo(h, hits, p, y, id)
    ensures CourseTo(h, hits, [x] + p, x, id)
  {
    var q := [x] + p;
    assert q[|q| - 1] == p[|p| - 1];
    forall i | 0 < i < |q| ensures LeadsOn(h, hits, q[i - 1], q[i]) {
      if i > 1 { assert q[i - 1] == p[i - 2] && q[i] == p[i - 1]; }
    }
  }

  /** Of several objects it looks for, a search finds the one a course leads to: that of the cause comes
      before that of the error. */
  lemma {:induction false} HitOnCourse(h: Heap, hits: set<nat>, v: Value, depth: nat) returns (p: seq<nat>)
    requires WellFormed(h) && Known(h, v) && Search(h, hits, v, depth).Hit?
    ensures v.Ref? && CourseTo(h, hits, p, v.id, Search(h, hits, v, depth).id)
    ensures Search(h, hits, v, depth).id in hits
    decreases depth
  {
    var id := Search(h, hits, v, depth).id;
    if v.id in hits {
      p := [v.id];
    } else if Search(h, hits, h[v.id].cause, depth - 1).Nothing? {
      EmptyIsBarren(h, hits, h[v.id].cause);
      var q := HitOnCourse(h, hits, h[v.id].error, depth - 1);
      CourseFrom(h, hits, v.id, h[v.id].error.id, q, id);
      p := [v.id] + q;
    } else {
      var q := HitOnCourse(h, hits, h[v.id].cause, depth - 1);
      CourseFrom(h, hits, v.id, h[v.id].cause.id, q, id);
      p := [v.id] + q;
    }
  }

  /** And there is only one such object. */
  lemma {:induction false} OneCourse(h: Heap, hits: set<nat>, p: seq<nat>, q: seq<nat>, root: nat, one: nat, two: nat)
    requires CourseTo(h, hits, p, root, one) && CourseTo(h, hits, q, root, two) && one in hits && two in hits
    ensures p == q
    decreases |p|
  {
    if |p| > 1 { assert LeadsOn(h, hits, p[0], p[1]); }
    if |q| > 1 { assert LeadsOn(h, hits, q[0], q[1]); }
    if |p| > 1 && |q| > 1 {
      CourseReaches(h, hits, p[1..], p[1], one);
      CourseReaches(h, hits, q[1..], q[1], two);
      OneCourse(h, hits, p[1..], q[1..], p[1], one, two);
      assert p == [p[0]] + p[1..] && q == [q[0]] + q[1..];
    }
  }

  lemma CourseReaches(h: Heap, hits: set<nat>, p: seq<nat>, root: nat, id: nat)
    requires |p| > 0 && p[0] == root && p[|p| - 1] == id && forall i :: 0 < i < |p| ==> LeadsOn(h, hits, p[i - 1], p[i])
    ensures CourseTo(h, hits, p, root, id) && Reachable(h, root, id)
  {
    forall i | 0 < i < |p| ensures Step(h, p[i - 1], p[i]) { assert LeadsOn(h, hits, p[i - 1], p[i]); }
    assert Path(h, p);
  }

  /** Which errors the agent loop gets to classify: those for which both searches come back
      empty-handed, and these are exactly the errors that lead neither into a cycle nor to an approval or
      input entry. From one that leads into a cycle and to no entry neither search comes back. */
  lemma ClassifierReachedIff(h: Heap, approvals: set<nat>, inputs: set<nat>, root: nat)
    requires WellFormed(h) && root in h
    ensures Empty(h, approvals, Ref(root)) && Empty(h, inputs, Ref(root)) <==>
      !Cyclic(h, root) && NoneReachable(h, approvals + inputs, root)
    ensures Cyclic(h, root) && NoneReachable(h, approvals + inputs, root) ==>
      !Returns(h, approvals, Ref(root)) && !Returns(h, inputs, Ref(root))
  {
    EmptyIff(h, approvals, root);
    EmptyIff(h, inputs, root);
    if Cyclic(h, root) && NoneReachable(h, approvals + inputs, root) {
      NoHitNoReturn(h, approvals, root);
      NoHitNoReturn(h, inputs, root);
    }
  }

  lemma NoHitNoReturn(h: Heap, hits: set<nat>, root: nat)
    requires WellFormed(h) && root in h && Cyclic(h, root) && NoneReachable(h, hits, root)
    ensures !Returns(h, hits, Ref(root))
  {
    EmptyIff(h, hits, root);
    forall depth: nat ensures Search(h, hits, Ref(root), depth).Deeper? {
      if Search(h, hits, Ref(root), depth).Hit? { HitReachable(h, hits, Ref(root), depth); }
    }
  }

  /** For instance: an error that is its own cause. */
  lemma OwnCauseNeverReturns(e: Object)
    requires e.cause == Ref(0) && e.error == Primitive
    ensures var h := map[0 := e]; WellFormed(h) && !Returns(h, {}, Ref(0))
  {
    var h := map[0 := e];
    var p: seq<nat> := [0, 0];
    assert Path(h, p) && p[0] == p[1];
    assert Cyclic(h, 0);
    NoHitNoReturn(h, {}, 0);
  }
}
