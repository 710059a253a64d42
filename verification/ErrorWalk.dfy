/** Classification of provider errors: a walk over the objects an error leads to through `cause` and
    `error`, which may form cycles, then a decision on what was collected; and the retry it feeds. */
module ErrorWalk {
  import opened Collections

  datatype Value = Primitive | Ref(id: nat)

  /** The properties the classifier reads; one of another type than expected is None. */
  datatype Object = Object(
    name: Option<string>, message: Option<string>, url: Option<string>, statusCode: Option<int>, code: Option<string>,
    cause: Value, error: Value)

  type Heap = map<nat, Object>

  ghost predicate Known(h: Heap, v: Value) {
    v.Ref? ==> v.id in h
  }

  ghost predicate WellFormed(h: Heap) {
    forall id :: id in h ==> Known(h, h[id].cause) && Known(h, h[id].error)
  }

  // ---------------------------------------------------------------------------------------------
  // The walk
  // ---------------------------------------------------------------------------------------------

  /** `visit`, on the layers collected so far. */
  function Visit(h: Heap, v: Value, layers: seq<nat>): (r: seq<nat>)
    requires WellFormed(h) && Known(h, v) && Elems(layers) <= h.Keys && NoDups(layers)
    ensures layers <= r && Elems(r) <= h.Keys && NoDups(r)
    ensures v.Ref? ==> v.id in r
    decreases |h.Keys - Elems(layers)|
  {
    if v.Primitive? || v.id in layers then layers
    else
      var longer := layers + [v.id];
      Shrinks(h, layers, v.id, longer);
      var afterCause := Visit(h, h[v.id].cause, longer);
      Narrower(h, layers, v.id, afterCause);
      var r := Visit(h, h[v.id].error, afterCause);
      assert layers <= longer <= afterCause <= r && r[|layers|] == v.id;
      r
  }

  lemma Shrinks(h: Heap, layers: seq<nat>, id: nat, longer: seq<nat>)
    requires id in h && id !in layers && longer == layers + [id]
    ensures Elems(longer) == Elems(layers) + {id}
    ensures |h.Keys - Elems(longer)| < |h.Keys - Elems(layers)|
  {
    assert h.Keys - Elems(longer) == (h.Keys - Elems(layers)) - {id};
  }

  lemma Narrower(h: Heap, layers: seq<nat>, id: nat, r: seq<nat>)
    requires id in h && id !in layers && layers + [id] <= r
    ensures |h.Keys - Elems(r)| < |h.Keys - Elems(layers)|
  {
    assert r[|layers|] == id;
    forall x | x in layers ensures x in r {
      var i :| 0 <= i < |layers| && layers[i] == x;
      assert r[i] == (layers + [id])[i];
    }
    SubsetSize(h.Keys - Elems(r), (h.Keys - Elems(layers)) - {id});
  }

  class Walk {
    var layers: seq<nat>
    var seen: set<nat>

    constructor ()
      ensures layers == [] && seen == {}
    {
      layers, seen := [], {};
    }

    method VisitValue(h: Heap, v: Value)
      requires WellFormed(h) && Known(h, v)
      requires seen == Elems(layers) && seen <= h.Keys && NoDups(layers)
      modifies this
      ensures layers == Visit(h, v, old(layers)) && seen == Elems(layers)
      decreases |h.Keys - seen|
    {
      if v.Primitive? || v.id in seen { return; }
      ghost var before := layers;
      Shrinks(h, layers, v.id, layers + [v.id]);
      seen := seen + {v.id};
      layers := layers + [v.id];
      VisitValue(h, h[v.id].cause);
      Narrower(h, before, v.id, layers);
      VisitValue(h, h[v.id].error);
    }
  }

  /** The object leads to the other in one step. */
  ghost predicate Step(h: Heap, from: nat, to: nat) {
    from in h && (h[from].cause == Ref(to) || h[from].error == Ref(to))
  }

  ghost predicate Path(h: Heap, p: seq<nat>) {
    forall i :: 0 < i < |p| ==> Step(h, p[i - 1], p[i])
  }

  ghost predicate Reachable(h: Heap, root: nat, id: nat) {
    exists p :: |p| > 0 && p[0] == root && p[|p| - 1] == id && Path(h, p)
  }

  /** All that is new after a visit is closed under steps, and reachable from where it began. */
  lemma {:induction false} VisitClosed(h: Heap, v: Value, layers: seq<nat>, x: nat, y: nat)
    requires WellFormed(h) && Known(h, v) && Elems(layers) <= h.Keys && NoDups(layers)
    requires x in Visit(h, v, layers) && x !in layers && Step(h, x, y)
    ensures y in Visit(h, v, layers)
    decreases |h.Keys - Elems(layers)|
  {
    var longer := layers + [v.id];
    Shrinks(h, layers, v.id, longer);
    var afterCause := Visit(h, h[v.id].cause, longer);
    Narrower(h, layers, v.id, afterCause);
    var r := Visit(h, h[v.id].error, afterCause);
    assert forall k :: k in afterCause ==> k in r;
    if x == v.id {
    } else if x in afterCause {
      VisitClosed(h, h[v.id].cause, longer, x, y);
    } else {
      VisitClosed(h, h[v.id].error, afterCause, x, y);
    }
  }

  lemma {:induction false} VisitReachable(h: Heap, v: Value, layers: seq<nat>, x: nat)
    requires WellFormed(h) && Known(h, v) && Elems(layers) <= h.Keys && NoDups(layers)
    requires x in Visit(h, v, layers) && x !in layers
    ensures v.Ref? && Reachable(h, v.id, x)
    decreases |h.Keys - Elems(layers)|
  {
    var longer := layers + [v.id];
    Shrinks(h, layers, v.id, longer);
    var afterCause := Visit(h, h[v.id].cause, longer);
    Narrower(h, layers, v.id, afterCause);
    if x == v.id {
      assert Path(h, [v.id]);
    } else if x in afterCause {
      VisitReachable(h, h[v.id].cause, longer, x);
      ReachableFrom(h, v.id, h[v.id].cause.id, x);
    } else {
      VisitReachable(h, h[v.id].error, afterCause, x);
      ReachableFrom(h, v.id, h[v.id].error.id, x);
    }
  }

  lemma ReachableFrom(h: Heap, from: nat, next: nat, x: nat)
    requires Step(h, from, next) && Reachable(h, next, x)
    ensures Reachable(h, from, x)
  {
    var p :| |p| > 0 && p[0] == next && p[|p| - 1] == x && Path(h, p);
    var q := [from] + p;
    assert Path(h, q);
    assert q[|q| - 1] == x;
  }

  /** The layers collected for an error object. */
  function Layers(h: Heap, root: nat): seq<nat>
    requires WellFormed(h) && root in h
  {
    Visit(h, Ref(root), [])
  }

  lemma {:induction false} PathCollected(h: Heap, root: nat, p: seq<nat>)
    requires WellFormed(h) && root in h && |p| > 0 && p[0] == root && Path(h, p)
    ensures p[|p| - 1] in Layers(h, root)
    decreases |p|
  {
    if |p| > 1 {
      var n := |p| - 1;
      assert Path(h, p[..n]);
      PathCollected(h, root, p[..n]);
      assert p[..n][n - 1] == p[n - 1];
      assert Step(h, p[n - 1], p[n]);
      VisitClosed(h, Ref(root), [], p[n - 1], p[n]);
    }
  }

  /** The walk ends on every graph, cyclic or not, with exactly the reachable objects, each once and
      the error itself first. */
  lemma WalkCollects(h: Heap, root: nat)
    requires WellFormed(h) && root in h
    ensures NoDups(Layers(h, root)) && |Layers(h, root)| > 0 && Layers(h, root)[0] == root
    ensures forall id :: id in Layers(h, root) <==> Reachable(h, root, id)
  {
    var layers := Layers(h, root);
    forall id ensures id in layers <==> Reachable(h, root, id) {
      if id in layers { VisitReachable(h, Ref(root), [], id); }
      if Reachable(h, root, id) {
        var p :| |p| > 0 && p[0] == root && p[|p| - 1] == id && Path(h, p);
        PathCollected(h, root, p);
      }
    }
    var longer: seq<nat> := [] + [root];
    Shrinks(h, [], root, longer);
    assert longer <= Visit(h, h[root].cause, longer) <= layers;
  }

  // ---------------------------------------------------------------------------------------------
  // The order of the walk
  // ---------------------------------------------------------------------------------------------

  /** The object leads to nothing that has not been collected. */
  ghost predicate Exhausted(h: Heap, id: nat, collected: seq<nat>) {
    forall y :: Step(h, id, y) ==> y in collected
  }

  /** Next comes what the object leads to: its cause unless that has been collected, else its error. */
  ghost predicate LeadsTo(h: Heap, id: nat, collected: seq<nat>, next: nat) {
    id in h && next !in collected &&
    if h[id].cause == Ref(next) then true
    else h[id].error == Ref(next) && (h[id].cause.Ref? ==> h[id].cause.id in collected)
  }

  /** The layer after i is what the latest layer with anything new leads to. */
  ghost predicate Follows(h: Heap, layers: seq<nat>, i: nat)
    requires i + 1 < |layers|
  {
    exists j: nat :: j <= i && FollowsFrom(h, layers, i, j)
  }

  ghost predicate FollowsFrom(h: Heap, layers: seq<nat>, i: nat, j: nat)
    requires j <= i && i + 1 < |layers|
  {
    LeadsTo(h, layers[j], layers[..i + 1], layers[i + 1]) &&
    forall k :: j < k <= i ==> Exhausted(h, layers[k], layers[..i + 1])
  }

  /** What follows in the beginning of a list follows in the list. */
  lemma FollowsLonger(h: Heap, front: seq<nat>, layers: seq<nat>, i: nat)
    requires front <= layers && i + 1 < |front| && Follows(h, front, i)
    ensures Follows(h, layers, i)
  {
    var j: nat :| j <= i && FollowsFrom(h, front, i, j);
    assert front[..i + 1] == layers[..i + 1] && front[i + 1] == layers[i + 1];
    forall k | j < k <= i ensures Exhausted(h, layers[k], layers[..i + 1]) {
      assert Exhausted(h, front[k], front[..i + 1]) && front[k] == layers[k];
    }
    assert FollowsFrom(h, layers, i, j);
  }

  /** An error comes once the cause has led nowhere new. */
  lemma ErrorFollows(h: Heap, id: nat, longer: seq<nat>, afterCause: seq<nat>, r: seq<nat>, i: nat)
    requires WellFormed(h) && id in h && longer != [] && longer[|longer| - 1] == id
    requires Elems(longer) <= h.Keys && NoDups(longer) && afterCause == Visit(h, h[id].cause, longer)
    requires |afterCause| < |r| && afterCause <= r && h[id].error == Ref(r[|afterCause|]) && NoDups(r)
    requires longer <= afterCause && i == |afterCause| - 1
    ensures Follows(h, r, i)
  {
    var j := |longer| - 1;
    Fresh(afterCause, r, |afterCause|);
    assert r[..i + 1] == afterCause && r[j] == afterCause[j] == longer[j];
    forall k | j < k <= i ensures Exhausted(h, r[k], afterCause) {
      Fresh(longer, afterCause, k);
      forall y | Step(h, r[k], y) ensures y in afterCause { VisitClosed(h, h[id].cause, longer, r[k], y); }
    }
    assert FollowsFrom(h, r, i, j);
  }

  lemma Fresh(front: seq<nat>, all: seq<nat>, k: nat)
    requires front <= all && NoDups(all) && |front| <= k < |all|
    ensures all[k] !in front
  {
    forall i | 0 <= i < |front| ensures front[i] != all[k] { assert front[i] == all[i]; }
  }

  /** The two parts of a visit that adds anything. */
  lemma VisitParts(h: Heap, v: Value, layers: seq<nat>) returns (longer: seq<nat>, afterCause: seq<nat>)
    requires WellFormed(h) && Known(h, v) && Elems(layers) <= h.Keys && NoDups(layers)
    requires v.Ref? && v.id !in layers
    ensures longer == layers + [v.id] && Elems(longer) <= h.Keys && NoDups(longer)
    ensures |h.Keys - Elems(longer)| < |h.Keys - Elems(layers)|
    ensures afterCause == Visit(h, h[v.id].cause, longer)
    ensures |h.Keys - Elems(afterCause)| < |h.Keys - Elems(layers)|
    ensures Visit(h, v, layers) == Visit(h, h[v.id].error, afterCause)
    ensures longer <= afterCause <= Visit(h, v, layers)
  {
    longer := layers + [v.id];
    Shrinks(h, layers, v.id, longer);
    afterCause := Visit(h, h[v.id].cause, longer);
    Narrower(h, layers, v.id, afterCause);
  }

  /** Everything a visit adds follows. */
  lemma {:induction false} VisitFollows(h: Heap, v: Value, layers: seq<nat>, i: nat, r: seq<nat>)
    requires WellFormed(h) && Known(h, v) && Elems(layers) <= h.Keys && NoDups(layers)
    requires r == Visit(h, v, layers) && |layers| <= i && i + 1 < |r|
    ensures Follows(h, r, i)
    decreases |h.Keys - Elems(layers)|
  {
    var longer, afterCause := VisitParts(h, v, layers);
    if i + 1 < |afterCause| {
      if i == |layers| { CauseFollows(h, v.id, longer, afterCause, i); }
      else { VisitFollows(h, h[v.id].cause, longer, i, afterCause); }
      FollowsLonger(h, afterCause, r, i);
    } else if i + 1 == |afterCause| {
      VisitStarts(h, h[v.id].error, afterCause, r);
      ErrorFollows(h, v.id, longer, afterCause, r, i);
    } else {
      VisitFollows(h, h[v.id].error, afterCause, i, r);
    }
  }

  /** A visit that adds anything adds the object first. */
  lemma VisitStarts(h: Heap, v: Value, layers: seq<nat>, r: seq<nat>)
    requires WellFormed(h) && Known(h, v) && Elems(layers) <= h.Keys && NoDups(layers)
    requires r == Visit(h, v, layers) && |layers| < |r|
    ensures v == Ref(r[|layers|])
  {
    var longer, afterCause := VisitParts(h, v, layers);
  }

  lemma CauseFollows(h: Heap, id: nat, longer: seq<nat>, afterCause: seq<nat>, i: nat)
    requires WellFormed(h) && id in h && longer != [] && longer[|longer| - 1] == id && i == |longer| - 1
    requires Elems(longer) <= h.Keys && NoDups(longer) && afterCause == Visit(h, h[id].cause, longer)
    requires |longer| < |afterCause|
    ensures Follows(h, afterCause, i)
  {
    VisitStarts(h, h[id].cause, longer, afterCause);
    Fresh(longer, afterCause, |longer|);
    assert afterCause[..i + 1] == longer && FollowsFrom(h, afterCause, i, i);
  }

  /** The order of the layers: after the error itself, each next one is what the latest layer that leads
      to anything new leads to, its cause before its error. */
  lemma WalkOrder(h: Heap, root: nat, i: nat)
    requires WellFormed(h) && root in h && i + 1 < |Layers(h, root)|
    ensures Follows(h, Layers(h, root), i)
  {
    VisitFollows(h, Ref(root), [], i, Layers(h, root));
  }

  // ---------------------------------------------------------------------------------------------
  // The decision
  // ---------------------------------------------------------------------------------------------

  /** The patterns matched against the joined messages. */
  datatype Patterns = Patterns(
    notFound: string -> bool,       // "is not found for API version" or "is not supported for generateContent"
    tooManyStates: string -> bool,  // "too many states for serving"
    contextCode: string -> bool,    // "context_length_exceeded"
    maxContext: string -> bool,     // "maximum context length"
    reduceLength: string -> bool)   // "reduce the length of the messages" or "... prompt"
  {
    predicate ContextPhrase(message: string) {
      contextCode(message) || maxContext(message) || reduceLength(message)
    }
  }

  datatype Class =
    | Unclassified
    | ModelNotFound(message: string, url: string)
    | SchemaTooLarge(message: string)
    | ContextLengthExceeded(message: string)

  /** The messages of the layers, joined by spaces. */
  function Messages(h: Heap, layers: seq<nat>): string
    requires Elems(layers) <= h.Keys
  {
    Join(MessageParts(h, layers), " ")
  }

  function MessageParts(h: Heap, layers: seq<nat>): seq<string>
    requires Elems(layers) <= h.Keys
  {
    if layers == [] then []
    else
      var n := |layers| - 1;
      ElemsTake(layers, n);
      assert layers[..n + 1] == layers;
      MessageParts(h, layers[..n])
      + (if h[layers[n]].message.Some? then [h[layers[n]].message.value] else [])
  }

  /** `at` are the places of the layers that have a message, in order, and `parts` their messages. */
  ghost predicate Collected(h: Heap, layers: seq<nat>, at: seq<nat>, parts: seq<string>)
    requires Elems(layers) <= h.Keys
  {
    |parts| == |at| && (forall k, l :: 0 <= k < l < |at| ==> at[k] < at[l]) &&
    (forall k :: 0 <= k < |at| ==> at[k] < |layers| && MessageAt(h, layers, at[k]) == Some(parts[k])) &&
    forall i :: 0 <= i < |layers| && MessageAt(h, layers, i).Some? ==> i in at
  }

  function MessageAt(h: Heap, layers: seq<nat>, i: nat): Option<string>
    requires Elems(layers) <= h.Keys && i < |layers|
  {
    assert layers[i] in Elems(layers);
    h[layers[i]].message
  }

  lemma CollectedNext(h: Heap, front: seq<nat>, layers: seq<nat>, at: seq<nat>, parts: seq<string>,
                      at': seq<nat>, parts': seq<string>)
    requires Elems(layers) <= h.Keys && Elems(front) <= h.Keys && layers != [] && front == layers[..|layers| - 1]
    requires Collected(h, front, at, parts)
    requires var last := MessageAt(h, layers, |front|);
      at' == at + (if last.Some? then [|front|] else []) && parts' == parts + if last.Some? then [last.value] else []
    ensures Collected(h, layers, at', parts')
  {
    forall i | 0 <= i < |layers| && MessageAt(h, layers, i).Some? ensures i in at' {
      if i < |front| { assert MessageAt(h, front, i) == MessageAt(h, layers, i) && i in at; }
      else { assert at'[|at|] == i; }
    }
    forall k | 0 <= k < |at'| ensures at'[k] < |layers| && MessageAt(h, layers, at'[k]) == Some(parts'[k]) {
      if k < |at| { assert MessageAt(h, front, at[k]) == MessageAt(h, layers, at[k]); }
    }
  }

  /** Every message of the layers is among the parts, in the order of the layers. */
  lemma {:induction false} AllMessages(h: Heap, layers: seq<nat>) returns (at: seq<nat>)
    requires Elems(layers) <= h.Keys
    ensures Collected(h, layers, at, MessageParts(h, layers))
  {
    at := [];
    if layers != [] {
      var n := |layers| - 1;
      var front := layers[..n];
      ElemsTake(layers, n);
      assert layers[..n + 1] == layers;
      var before := AllMessages(h, front);
      at := before + (if MessageAt(h, layers, n).Some? then [n] else []);
      CollectedNext(h, front, layers, before, MessageParts(h, front), at, MessageParts(h, layers));
    }
  }

  /** The first of the layers' values that is there. */
  function FirstOf<T>(h: Heap, layers: seq<nat>, get: Object -> Option<T>): Option<T>
    requires Elems(layers) <= h.Keys
  {
    if layers == [] then None
    else
      assert layers[0] in Elems(layers) && Elems(layers[1..]) <= Elems(layers);
      if get(h[layers[0]]).Some? then get(h[layers[0]]) else FirstOf(h, layers[1..], get)
  }

  ghost predicate NoneBefore<T>(h: Heap, layers: seq<nat>, get: Object -> Option<T>, n: nat) {
    forall i :: 0 <= i < n && i < |layers| && layers[i] in h ==> get(h[layers[i]]).None?
  }

  ghost predicate FirstAt<T>(h: Heap, layers: seq<nat>, get: Object -> Option<T>, value: Option<T>, i: nat) {
    i < |layers| && layers[i] in h && get(h[layers[i]]) == value && NoneBefore(h, layers, get, i)
  }

  /** The value is that of the first layer that has one; there is none if no layer has one. */
  ghost predicate First<T>(h: Heap, layers: seq<nat>, get: Object -> Option<T>, value: Option<T>) {
    if value.None? then NoneBefore(h, layers, get, |layers|)
    else exists i: nat :: FirstAt(h, layers, get, value, i)
  }

  lemma NoneAhead<T>(h: Heap, layers: seq<nat>, get: Object -> Option<T>, rest: seq<nat>, n: nat, next: nat)
    requires layers != [] && rest == layers[1..] && layers[0] in h && get(h[layers[0]]).None? && next == n + 1
    requires NoneBefore(h, rest, get, n)
    ensures NoneBefore(h, layers, get, next)
  {
    forall j | 0 <= j < next && j < |layers| && layers[j] in h ensures get(h[layers[j]]).None? {
      if j > 0 { assert layers[j] == rest[j - 1]; }
    }
  }

  lemma {:induction false} FirstFound<T>(h: Heap, layers: seq<nat>, get: Object -> Option<T>)
    requires Elems(layers) <= h.Keys
    ensures First(h, layers, get, FirstOf(h, layers, get))
  {
    if layers != [] {
      assert layers[0] in Elems(layers) && Elems(layers[1..]) <= Elems(layers);
      var rest, value := layers[1..], FirstOf(h, layers, get);
      if get(h[layers[0]]).Some? {
        assert FirstAt(h, layers, get, value, 0);
      } else {
        FirstFound(h, rest, get);
        if value.None? {
          NoneAhead(h, layers, get, rest, |rest|, |layers|);
        } else {
          var i: nat :| FirstAt(h, rest, get, value, i);
          NoneAhead(h, layers, get, rest, i, i + 1);
          assert layers[i + 1] == rest[i] && FirstAt(h, layers, get, value, i + 1);
        }
      }
    }
  }

  /** Some layer passes the test. */
  predicate AnyLayer(h: Heap, layers: seq<nat>, test: Object -> bool)
    requires Elems(layers) <= h.Keys
  {
    assert forall id :: id in layers ==> id in Elems(layers);
    exists id | id in layers :: test(h[id])
  }

  /** `classifyModelError` */
  function Classify(h: Heap, v: Value, ps: Patterns): Class
    requires WellFormed(h) && Known(h, v)
  {
    if v.Primitive? then Unclassified
    else
      var layers := Layers(h, v.id);
      var message := Messages(h, layers);
      var url := FirstOf(h, layers, (o: Object) => o.url);
      var status := FirstOf(h, layers, (o: Object) => o.statusCode);
      var hasApiShape := AnyLayer(h, layers, (o: Object) => o.name == Some("AI_APICallError")) || status.Some?;
      var hasKnownProviderMessage := ps.ContextPhrase(message) || ps.tooManyStates(message) || ps.notFound(message);
      var hasKnownProviderCode := AnyLayer(h, layers, (o: Object) => o.code == Some("context_length_exceeded"));
      var hasClassifiedName := AnyLayer(h, layers, (o: Object) => o.name == Some("ContextLengthExceededError"));
      if !hasApiShape && !hasKnownProviderMessage && !hasKnownProviderCode && !hasClassifiedName then Unclassified
      else if status == Some(404) && ps.notFound(message) then
        ModelNotFound(message, if url.Some? then url.value else "")
      else if status == Some(400) && ps.tooManyStates(message) then SchemaTooLarge(message)
      else if hasClassifiedName || hasKnownProviderCode || ps.ContextPhrase(message) then ContextLengthExceeded(message)
      else Unclassified
  }

  /** The object, or one it leads to, says that the context length was exceeded. */
  ghost predicate SaysContextLength(h: Heap, root: nat) {
    exists id :: id in h && Reachable(h, root, id) &&
      (h[id].code == Some("context_length_exceeded") || h[id].name == Some("ContextLengthExceededError"))
  }

  /** The status the decision goes by: the first one met. */
  function Status(h: Heap, root: nat): Option<int>
    requires WellFormed(h) && root in h
  {
    FirstOf(h, Layers(h, root), (o: Object) => o.statusCode)
  }

  /** The status and the address are those of the first layers that have one, in the order of the walk. */
  lemma FirstsDecide(h: Heap, root: nat, ps: Patterns)
    requires WellFormed(h) && root in h
    ensures First(h, Layers(h, root), (o: Object) => o.statusCode, Status(h, root))
    ensures Classify(h, Ref(root), ps).ModelNotFound? ==>
      exists url: Option<string> :: First(h, Layers(h, root), (o: Object) => o.url, url) &&
        Classify(h, Ref(root), ps).url == if url.Some? then url.value else ""
  {
    FirstFound(h, Layers(h, root), (o: Object) => o.statusCode);
    FirstFound(h, Layers(h, root), (o: Object) => o.url);
  }

  /** A context-length failure is recognised at whatever depth it is hidden: the class is
      ContextLengthExceeded exactly when a reachable object has the code or the name, or the joined
      messages have one of the phrasings, and neither the 404 nor the 400 rule comes first. */
  lemma ContextLengthFound(h: Heap, root: nat, ps: Patterns)
    requires WellFormed(h) && root in h
    ensures var message := Messages(h, Layers(h, root));
      Classify(h, Ref(root), ps).ContextLengthExceeded? <==>
        (SaysContextLength(h, root) || ps.ContextPhrase(message)) &&
        !(Status(h, root) == Some(404) && ps.notFound(message)) &&
        !(Status(h, root) == Some(400) && ps.tooManyStates(message))
    ensures !Classify(h, Ref(root), ps).Unclassified? ==>
      Classify(h, Ref(root), ps).message == Messages(h, Layers(h, root))
    ensures Classify(h, Ref(root), ps).ModelNotFound? <==>
      Status(h, root) == Some(404) && ps.notFound(Messages(h, Layers(h, root)))
    ensures Classify(h, Ref(root), ps).SchemaTooLarge? <==>
      Status(h, root) == Some(400) && ps.tooManyStates(Messages(h, Layers(h, root)))
  {
    WalkCollects(h, root);
    var layers := Layers(h, root);
    var byCode := (o: Object) => o.code == Some("context_length_exceeded");
    var byName := (o: Object) => o.name == Some("ContextLengthExceededError");
    assert forall id :: id in layers ==> id in Elems(layers);
    assert SaysContextLength(h, root) <==> AnyLayer(h, layers, byCode) || AnyLayer(h, layers, byName) by {
      if SaysContextLength(h, root) {
        var id :| id in h && Reachable(h, root, id) &&
          (h[id].code == Some("context_length_exceeded") || h[id].name == Some("ContextLengthExceededError"));
        assert id in layers && (byCode(h[id]) || byName(h[id]));
      }
    }
  }

  /** The error the classifier throws in place of what it was given. */
  function Thrown(message: string): Object {
    Object(Some("ContextLengthExceededError"), Some(message), None, None, None, Primitive, Primitive)
  }

  lemma OnlyLayer(h: Heap, id: nat)
    requires WellFormed(h) && id in h && h[id].cause == h[id].error == Primitive
    ensures Layers(h, id) == [id]
  {
    var longer: seq<nat> := [] + [id];
    Shrinks(h, [], id, longer);
    assert Visit(h, Primitive, longer) == longer;
  }

  lemma OnlyMessage(h: Heap, id: nat, message: string)
    requires id in h && h[id].message == Some(message)
    ensures Elems([id]) <= h.Keys && Messages(h, [id]) == message
  {
    assert [id][..0] == [] && Elems([id]) == {id};
    assert MessageParts(h, [id]) == [message];
  }

  /** Classifying it again gives the same class with the same message. */
  lemma Reclassified(h: Heap, id: nat, message: string, ps: Patterns)
    requires WellFormed(h) && id in h && h[id] == Thrown(message)
    ensures Classify(h, Ref(id), ps) == ContextLengthExceeded(message)
  {
    OnlyLayer(h, id);
    OnlyMessage(h, id, message);
    var byName := (o: Object) => o.name == Some("ContextLengthExceededError");
    assert id in [id] && byName(h[id]);
    assert FirstOf(h, [id], (o: Object) => o.statusCode).None?;
  }

  // ---------------------------------------------------------------------------------------------
  // The retry
  // ---------------------------------------------------------------------------------------------

  /** How one call of the agent loop ends. */
  datatype Attempt<R> = Returns(result: R) | Throws(error: Value)

  /** What the compaction hook makes of a context-length error. */
  datatype Hook = NoHook | Declines | Reduces | HookThrows(hookError: Value)

  predicate IsContextLength(h: Heap, v: Value, ps: Patterns)
    requires WellFormed(h) && Known(h, v)
  {
    Classify(h, v, ps).ContextLengthExceeded?
  }

  /** `runAgentLoopWithRetry`: the loop runs a second time only after a context-length failure that
      the hook could reduce; it never runs a third time and the hook is never asked twice, so a second
      context-length failure surfaces. */
  method RunAgentLoopWithRetry<R>(h: Heap, ps: Patterns, attempt: nat -> Attempt<R>, hook: Hook)
    returns (outcome: Attempt<R>, calls: nat, hookCalls: nat)
    requires WellFormed(h) && forall k :: attempt(k).Throws? ==> Known(h, attempt(k).error)
    ensures var retryable := attempt(0).Throws? && !hook.NoHook? && IsContextLength(h, attempt(0).error, ps);
      (!retryable ==> outcome == attempt(0) && calls == 1 && hookCalls == 0) &&
      (retryable ==> hookCalls == 1) &&
      (retryable && hook.Declines? ==> outcome == attempt(0) && calls == 1) &&
      (retryable && hook.HookThrows? ==> outcome == Throws(hook.hookError) && calls == 1) &&
      (retryable && hook.Reduces? ==> outcome == attempt(1) && calls == 2)
  {
    var contextReduced := false;
    calls, hookCalls := 0, 0;
    while true
      invariant calls == hookCalls == if contextReduced then 1 else 0
      invariant contextReduced ==>
        attempt(0).Throws? && hook.Reduces? && IsContextLength(h, attempt(0).error, ps)
      decreases !contextReduced
    {
      outcome := attempt(calls);
      calls := calls + 1;
      if outcome.Returns? { return; }
      if !contextReduced && !hook.NoHook? && IsContextLength(h, outcome.error, ps) {
        contextReduced := true;
        hookCalls := hookCalls + 1;
        if hook.HookThrows? { return Throws(hook.hookError), calls, hookCalls; }
        if hook.Reduces? { continue; }
      }
      return;
    }
  }
}
