/** Values the rest of the project shares: an optional value, facts about sequences without
    repetition, and a JavaScript `Map`, which remembers the order in which keys were first inserted. */
module Collections {

  datatype Option<+T> = None | Some(value: T)

  ghost predicate NoDups<T>(s: seq<T>) {
    forall i, j :: 0 <= i < j < |s| ==> s[i] != s[j]
  }

  function Elems<T>(s: seq<T>): set<T> {
    set x | x in s
  }

  lemma EmptyElems<T>(s: seq<T>)
    ensures Elems(s) == {} ==> s == []
  {
    if s != [] { assert s[0] in Elems(s); }
  }

  lemma ElemsTake<T>(s: seq<T>, n: nat)
    requires n < |s|
    ensures Elems(s[..n + 1]) == Elems(s[..n]) + {s[n]}
  {
    assert s[..n + 1] == s[..n] + [s[n]];
  }

  function Flatten<T>(ss: seq<seq<T>>): seq<T> {
    if ss == [] then [] else ss[0] + Flatten(ss[1..])
  }

  lemma {:induction false} FlattenConcat<T>(a: seq<seq<T>>, b: seq<seq<T>>)
    ensures Flatten(a + b) == Flatten(a) + Flatten(b)
  {
    if a == [] {
      assert a + b == b;
    } else {
      var whole := a + b;
      assert whole[0] == a[0] && whole[1..] == a[1..] + b;
      FlattenConcat(a[1..], b);
      assert a[0] + (Flatten(a[1..]) + Flatten(b)) == (a[0] + Flatten(a[1..])) + Flatten(b);
    }
  }

  /** `parts.join(separator)` */
  function Join(parts: seq<string>, separator: string): string {
    if parts == [] then ""
    else if |parts| == 1 then parts[0]
    else parts[0] + separator + Join(parts[1..], separator)
  }

  /** Two lists joined, with one separator between them. */
  lemma {:induction false} JoinConcat(a: seq<string>, b: seq<string>, separator: string)
    requires a != [] && b != []
    ensures Join(a + b, separator) == Join(a, separator) + separator + Join(b, separator)
  {
    var whole := a + b;
    if |a| == 1 {
      assert whole[0] == a[0] && whole[1..] == b;
    } else {
      JoinConcat(a[1..], b, separator);
      assert whole[0] == a[0] && whole[1..] == a[1..] + b;
      Grouped(a[0] + separator, Join(a[1..], separator), separator, Join(b, separator));
    }
  }

  lemma Grouped(a: string, b: string, c: string, d: string)
    ensures a + (b + c + d) == (a + b) + c + d
  {}

  /** Each element of one of the parts is an element of the whole, and nothing else is. */
  lemma {:induction false} FlattenMembers<T>(ss: seq<seq<T>>, x: T)
    ensures x in Flatten(ss) <==> exists i :: 0 <= i < |ss| && x in ss[i]
  {
    if ss != [] {
      FlattenMembers(ss[1..], x);
      if x in Flatten(ss[1..]) {
        var i :| 0 <= i < |ss[1..]| && x in ss[1..][i];
        assert x in ss[i + 1];
      }
      if i :| 0 <= i < |ss| && x in ss[i] {
        if i > 0 { assert x in ss[1..][i - 1]; }
      }
    }
  }

  /** A sequence whose elements all lie in a smaller set repeats one of them. */
  lemma {:induction false} Pigeonhole<T>(s: seq<T>, bound: set<T>)
    requires Elems(s) <= bound && |s| > |bound|
    ensures exists i, j :: 0 <= i < j < |s| && s[i] == s[j]
  {
    if NoDups(s) {
      DistinctCount(s);
      SubsetSize(Elems(s), bound);
    }
  }

  lemma {:induction false} DistinctCount<T>(s: seq<T>)
    requires NoDups(s)
    ensures |Elems(s)| == |s|
  {
    if s != [] {
      DistinctCount(s[1..]);
      assert Elems(s) == {s[0]} + Elems(s[1..]);
    }
  }

  lemma {:induction false} SubsetSize<T>(a: set<T>, b: set<T>)
    requires a <= b
    ensures |a| <= |b|
  {
    if a != {} {
      var x :| x in a;
      SubsetSize(a - {x}, b - {x});
    }
  }

  lemma DistinctMultiset<T>(s: seq<T>, x: T)
    requires NoDups(s)
    ensures multiset(s)[x] == if x in s then 1 else 0
    decreases |s|
  {
    if s != [] {
      assert s == [s[0]] + s[1..];
      DistinctMultiset(s[1..], x);
    }
  }

  /** An identifier: of an agent, a tool call, an event channel. */
  datatype Id = Id(text: string)

  /** A JavaScript `Map` keyed by identifiers. */
  datatype JsMap<V> = JsMap(keys: seq<Id>, vals: map<Id, V>) {

    ghost predicate Valid() {
      NoDups(keys) && Elems(keys) == vals.Keys
    }

    /** `map.set(k, v)`: a key that is already there keeps its place. */
    function Put(k: Id, v: V): JsMap<V> {
      JsMap(if k in vals then keys else keys + [k], vals[k := v])
    }

    lemma PutValid(k: Id, v: V)
      requires Valid()
      ensures Put(k, v).Valid()
    {
      assert Elems(keys + [k]) == Elems(keys) + {k};
    }

    /** `map.delete(k)`. */
    function Delete(k: Id): (m: JsMap<V>)
      requires Valid()
      ensures m.Valid() && m.vals == vals - {k}
      ensures m.keys == Without(keys, {k})
    {
      WithoutFacts(keys, {k});
      JsMap(Without(keys, {k}), vals - {k})
    }
  }

  function EmptyMap<V>(): JsMap<V> {
    JsMap([], map[])
  }

  /** The elements of s, each at its first place. */
  function Firsts<T(==)>(s: seq<T>): (r: seq<T>)
    ensures Elems(r) == Elems(s) && NoDups(r)
  {
    if s == [] then []
    else
      var n := |s| - 1;
      assert s == s[..n] + [s[n]];
      assert Elems(s) == Elems(s[..n]) + {s[n]};
      assert s[n] in s[..n] <==> s[n] in Elems(s[..n]);
      Firsts(s[..n]) + (if s[n] in s[..n] then [] else [s[n]])
  }

  lemma {:induction false} FirstsOfDistinct<T>(s: seq<T>)
    requires NoDups(s)
    ensures Firsts(s) == s
  {
    if s != [] {
      var n := |s| - 1;
      FirstsOfDistinct(s[..n]);
      assert s[n] !in s[..n];
      assert s == s[..n] + [s[n]];
    }
  }

  /** What `Firsts` keeps of a beginning of the list begins what it keeps of the list, so elements stand
      in the order of their first occurrences. */
  lemma {:induction false} FirstsInOrder<T>(s: seq<T>, n: nat)
    requires n <= |s|
    ensures Firsts(s[..n]) <= Firsts(s)
  {
    if n < |s| {
      FirstsInOrder(s[..|s| - 1], n);
      assert s[..|s| - 1][..n] == s[..n];
    } else {
      assert s[..n] == s;
    }
  }

  /** How often x stands in s. */
  function Occurrences<T(==)>(s: seq<T>, x: T): nat {
    if s == [] then 0 else Occurrences(s[..|s| - 1], x) + (if s[|s| - 1] == x then 1 else 0)
  }

  lemma OccursLast<T>(s: seq<T>, last: T, x: T)
    ensures Occurrences(s + [last], x) == Occurrences(s, x) + if last == x then 1 else 0
  {
    assert (s + [last])[..|s + [last]| - 1] == s;
  }

  /** The elements of s outside the set gone, in order. */
  function Without<T(==)>(s: seq<T>, gone: set<T>): seq<T> {
    if s == [] then []
    else (if s[0] in gone then [] else [s[0]]) + Without(s[1..], gone)
  }

  lemma {:induction false} WithoutFacts<T>(s: seq<T>, gone: set<T>)
    ensures Elems(Without(s, gone)) == Elems(s) - gone
    ensures NoDups(s) ==> NoDups(Without(s, gone))
    ensures |Without(s, gone)| <= |s|
    ensures (exists x :: x in s && x in gone) ==> |Without(s, gone)| < |s|
  {
    if s != [] {
      WithoutFacts(s[1..], gone);
      assert s == [s[0]] + s[1..];
      var rest := Without(s[1..], gone);
      assert Elems(s) == {s[0]} + Elems(s[1..]);
      assert Elems(Without(s, gone)) == (if s[0] in gone then {} else {s[0]}) + Elems(rest);
      if NoDups(s) && s[0] !in gone {
        assert s[0] !in Elems(s[1..]);
        assert s[0] !in rest;
      }
      if x :| x in s && x in gone {
        assert x == s[0] || x in s[1..];
      }
    }
  }

  lemma {:induction false} WithoutTwice<T>(s: seq<T>, a: set<T>, b: set<T>)
    ensures Without(Without(s, a), b) == Without(s, a + b)
  {
    if s != [] {
      WithoutTwice(s[1..], a, b);
      assert s[0] in a ==> Without(s, a) == Without(s[1..], a);
      assert s[0] !in a ==> Without(s, a)[1..] == Without(s[1..], a);
    }
  }

  lemma {:induction false} WithoutNone<T>(s: seq<T>, gone: set<T>)
    requires Elems(s) !! gone
    ensures Without(s, gone) == s
  {
    if s != [] {
      assert s[0] in Elems(s) && Elems(s[1..]) <= Elems(s);
      WithoutNone(s[1..], gone);
    }
  }

  lemma {:induction false} WithoutCount<T>(s: seq<T>, gone: set<T>, x: T)
    ensures multiset(Without(s, gone))[x] == if x in gone then 0 else multiset(s)[x]
  {
    if s != [] {
      WithoutCount(s[1..], gone, x);
      assert s == [s[0]] + s[1..];
    }
  }

  lemma SplitCount<T>(s: seq<T>, part: seq<T>, x: T)
    requires NoDups(s) && NoDups(part) && Elems(part) <= Elems(s)
    ensures multiset(s)[x] == multiset(part)[x] + multiset(Without(s, Elems(part)))[x]
  {
    WithoutCount(s, Elems(part), x);
    DistinctMultiset(s, x);
    DistinctMultiset(part, x);
    assert x in part <==> x in Elems(part);
    assert x in s <==> x in Elems(s);
  }

  lemma MultisetEqual<T>(a: multiset<T>, b: multiset<T>)
    requires forall x :: a[x] == b[x]
    ensures a == b
  {}

  lemma WithoutMultiset<T>(s: seq<T>, part: seq<T>)
    requires NoDups(s) && NoDups(part) && Elems(part) <= Elems(s)
    ensures multiset(part) + multiset(Without(s, Elems(part))) == multiset(s)
  {
    var whole := multiset(part) + multiset(Without(s, Elems(part)));
    forall x ensures whole[x] == multiset(s)[x] { SplitCount(s, part, x); }
    MultisetEqual(whole, multiset(s));
  }
}
