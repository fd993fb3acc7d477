/** Collection facts shared by the models: ordered iteration over a set of keys,
    sums over maps, and the `swap_remove` of a growable vector. */
module Collections {

  datatype Option<+T> = None | Some(value: T)

  ghost predicate Ascending(s: seq<nat>) {
    forall i, j :: 0 <= i < j < |s| ==> s[i] < s[j]
  }

  predicate IsLeast(m: nat, s: set<nat>) {
    m in s && forall k :: k in s ==> m <= k
  }

  lemma {:induction false} LeastExists(s: set<nat>)
    requires s != {}
    ensures exists m :: IsLeast(m, s)
  {
    var x :| x in s;
    var rest := s - {x};
    assert s == rest + {x};
    if rest == {} {
      assert IsLeast(x, s);
    } else {
      LeastExists(rest);
      var m :| IsLeast(m, rest);
      assert IsLeast(if x <= m then x else m, s);
    }
  }

  /** The keys of an ordered map in iteration order. */
  function SortedKeys(s: set<nat>): (r: seq<nat>)
    ensures Ascending(r)
    ensures forall k :: k in r <==> k in s
  {
    if s == {} then [] else
      LeastExists(s);
      var m :| IsLeast(m, s);
      [m] + SortedKeys(s - {m})
  }

  lemma {:induction false} GreatestExists(s: set<nat>)
    requires s != {}
    ensures exists m :: IsGreatest(m, s)
  {
    var x :| x in s;
    var rest := s - {x};
    assert s == rest + {x};
    if rest == {} {
      assert IsGreatest(x, s);
    } else {
      GreatestExists(rest);
      var m :| IsGreatest(m, rest);
      assert IsGreatest(if x >= m then x else m, s);
    }
  }

  predicate IsGreatest(m: nat, s: set<nat>) {
    m in s && forall k :: k in s ==> k <= m
  }

  /** The first key of a reverse iteration. */
  function Greatest(s: set<nat>): (m: nat)
    requires s != {}
    ensures IsGreatest(m, s)
  {
    GreatestExists(s);
    var m :| IsGreatest(m, s);
    m
  }

  /** The key that a reverse iteration visits after `bound`, if any. */
  function Below(s: set<nat>, bound: nat): (r: Option<nat>)
    ensures r.None? ==> forall k :: k in s ==> k >= bound
    ensures r.Some? ==> r.value in s && r.value < bound && forall k :: k in s && k < bound ==> k <= r.value
  {
    var lower := set k | k in s && k < bound;
    assert forall k :: k in s && k < bound ==> k in lower;
    if lower == {} then None else Some(Greatest(lower))
  }

  lemma OneMore(a: nat, n: nat)
    ensures a * (n + 1) == a * n + a
  {
  }

  ghost function SumMap(m: map<nat, nat>): nat
    decreases m.Keys
  {
    if m == map[] then 0 else
      var k :| k in m;
      m[k] + SumMap(m - {k})
  }

  lemma {:induction false} SumMapSplit(m: map<nat, nat>, k: nat)
    requires k in m
    ensures SumMap(m) == m[k] + SumMap(m - {k})
    decreases m.Keys
  {
    var j :| j in m && SumMap(m) == m[j] + SumMap(m - {j});
    if j != k {
      SumMapSplit(m - {j}, k);
      SumMapSplit(m - {k}, j);
      assert m - {j} - {k} == m - {k} - {j};
    }
  }

  lemma SumMapUpdate(m: map<nat, nat>, k: nat, v: nat)
    ensures SumMap(m[k := v]) == SumMap(m) - (if k in m then m[k] else 0) + v
  {
    SumMapSplit(m[k := v], k);
    if k in m {
      SumMapSplit(m, k);
      assert m[k := v] - {k} == m - {k};
    } else {
      assert m[k := v] - {k} == m;
    }
  }

  lemma {:induction false} SumMapZero(m: map<nat, nat>)
    requires forall k :: k in m ==> m[k] == 0
    ensures SumMap(m) == 0
    decreases m.Keys
  {
    if m != map[] {
      var k :| k in m;
      SumMapSplit(m, k);
      SumMapZero(m - {k});
    }
  }

  lemma EmptyExactly<T>(s: seq<T>)
    ensures s == [] <==> forall x :: x !in s
  {
    if s != [] {
      assert s[0] in s;
    }
  }

  /** `Vec::swap_remove`: the last element takes the place of the removed one. */
  function SwapRemove<T>(s: seq<T>, i: nat): (r: seq<T>)
    requires i < |s|
    ensures |r| == |s| - 1
    ensures r[..i] == s[..i]
    ensures i < |r| ==> r[i] == s[|s| - 1] && r[i + 1..] == s[i + 1..|s| - 1]
  {
    s[i := s[|s| - 1]][..|s| - 1]
  }

  lemma SwapRemoveMultiset<T>(s: seq<T>, i: nat)
    requires i < |s|
    ensures multiset(SwapRemove(s, i)) == multiset(s) - multiset{s[i]}
  {
    var n := |s| - 1;
    assert s == s[..n] + [s[n]];
    if i < n {
      var front := s[..n];
      assert SwapRemove(s, i) == front[i := s[n]];
      assert multiset(front[i := s[n]]) == multiset(front) - multiset{front[i]} + multiset{s[n]};
    } else {
      assert SwapRemove(s, i) == s[..n];
    }
  }

  lemma SwapRemoveTail<T>(s: seq<T>, i: nat)
    requires i < |s|
    ensures multiset(SwapRemove(s, i)[i..]) == multiset(s[i..]) - multiset{s[i]}
  {
    assert SwapRemove(s, i)[i..] == SwapRemove(s[i..], 0);
    SwapRemoveMultiset(s[i..], 0);
  }

  lemma LastCount<T>(s: seq<T>, x: T)
    requires s != []
    ensures multiset(s)[x] == multiset(s[..|s| - 1])[x] + (if s[|s| - 1] == x then 1 else 0)
  {
    assert s == s[..|s| - 1] + [s[|s| - 1]];
  }

  lemma MultisetSplit<T>(s: seq<T>, i: nat)
    requires i < |s|
    ensures multiset(s[i..]) == multiset{s[i]} + multiset(s[i + 1..])
    ensures multiset(s[..i + 1]) == multiset(s[..i]) + multiset{s[i]}
  {
    assert s[i..] == [s[i]] + s[i + 1..];
    assert s[..i + 1] == s[..i] + [s[i]];
  }

  /** The elements with the property, in order. */
  ghost function Kept<T>(keep: T -> bool, s: seq<T>): seq<T> {
    if s == [] then [] else (if keep(s[0]) then [s[0]] else []) + Kept(keep, s[1..])
  }

  /** Filtering a concatenation filters both parts and keeps their order. */
  lemma {:induction false} KeptConcat<T>(keep: T -> bool, a: seq<T>, b: seq<T>)
    ensures Kept(keep, a + b) == Kept(keep, a) + Kept(keep, b)
  {
    if a == [] {
      assert a + b == b;
    } else {
      KeptConcat(keep, a[1..], b);
      assert (a + b)[1..] == a[1..] + b && (a + b)[0] == a[0];
      Regroup(if keep(a[0]) then [a[0]] else [], Kept(keep, a[1..]), Kept(keep, b));
    }
  }

  lemma Regroup<T>(a: seq<T>, b: seq<T>, c: seq<T>)
    ensures a + (b + c) == (a + b) + c
  {
  }

  lemma KeptOne<T>(keep: T -> bool, x: T)
    ensures Kept(keep, [x]) == if keep(x) then [x] else []
  {
    assert Kept(keep, [x][1..]) == [];
  }

  lemma KeptNext<T>(taken: seq<T>, keep: T -> bool, s: seq<T>, i: nat)
    requires i < |s|
    ensures taken + Kept(keep, s[i..]) == (if keep(s[i]) then taken + [s[i]] else taken) + Kept(keep, s[i + 1..])
  {
    assert s[i..][1..] == s[i + 1..];
  }

  /** `Vec::retain`, or a filter. */
  method Retain<T>(keep: T -> bool, s: seq<T>) returns (kept: seq<T>)
    ensures kept == Kept(keep, s)
  {
    kept := [];
    assert s[0..] == s;
    for i := 0 to |s|
      invariant kept + Kept(keep, s[i..]) == Kept(keep, s)
    {
      KeptNext(kept, keep, s, i);
      if keep(s[i]) {
        kept := kept + [s[i]];
      }
    }
    assert kept + [] == kept;
  }

  lemma {:induction false} KeptMembers<T>(keep: T -> bool, s: seq<T>)
    ensures forall x :: x in Kept(keep, s) <==> x in s && keep(x)
  {
    if s != [] {
      KeptMembers(keep, s[1..]);
      assert s == [s[0]] + s[1..];
    }
  }

  lemma {:induction false} KeptTwice<T>(keep: T -> bool, s: seq<T>)
    ensures Kept(keep, Kept(keep, s)) == Kept(keep, s)
  {
    if s != [] {
      KeptTwice(keep, s[1..]);
      if keep(s[0]) {
        assert Kept(keep, s)[1..] == Kept(keep, s[1..]);
      } else {
        assert Kept(keep, s) == Kept(keep, s[1..]);
      }
    }
  }
}
