/** The client's checks of a round proposal (bark/src/round.rs): the
    `position`/`swap_remove` loops of `sign_vtxo_tree` and `sign_forfeits`. */
module Proposal {
  import opened Collections
  import opened Basics

  const MIN_ROUND_TX_OUTPUTS := 2

  /** `Iterator::position`: the first index holding the element. */
  method Position<T(==)>(s: seq<T>, x: T) returns (r: Option<nat>)
    ensures r.Some? <==> x in s
    ensures r.Some? ==> r.value < |s| && s[r.value] == x && x !in s[..r.value]
  {
    for i := 0 to |s|
      invariant x !in s[..i]
    {
      if s[i] == x {
        return Some(i);
      }
      assert s[..i + 1] == s[..i] + [s[i]];
    }
    assert s[..|s|] == s;
    r := None;
  }

  lemma MinusNext<T>(mine: multiset<T>, offered: seq<T>, k: nat)
    requires k < |offered|
    ensures mine - multiset(offered[..k + 1]) == mine - multiset(offered[..k]) - multiset{offered[k]}
  {
    MultisetSplit(offered, k);
  }

  lemma MinusEmpty<T>(mine: multiset<T>, offered: multiset<T>)
    ensures mine - offered == multiset{} <==> mine <= offered
  {
    if mine - offered == multiset{} {
      forall x
        ensures mine[x] <= offered[x]
      {
        assert (mine - offered)[x] == 0;
      }
    }
  }

  /** What is left of `mine` after striking out one entry for each one offered. */
  method Unmatched<T(==)>(mine: seq<T>, offered: seq<T>) returns (missing: seq<T>)
    ensures multiset(missing) == multiset(mine) - multiset(offered)
  {
    missing := mine;
    for k := 0 to |offered|
      invariant multiset(missing) == multiset(mine) - multiset(offered[..k])
    {
      MinusNext(multiset(mine), offered, k);
      var i := Position(missing, offered[k]);
      if i.Some? {
        SwapRemoveMultiset(missing, i.value);
        missing := SwapRemove(missing, i.value);
      } else {
        assert offered[k] !in multiset(missing);
      }
    }
    assert offered[..|offered|] == offered;
  }

  /** The requests at the leaves of the tree, without their cosign keys. */
  function Vtxos(tree: seq<SignedVtxoRequest>): (r: seq<VtxoRequest>)
    ensures |r| == |tree| && forall i :: 0 <= i < |r| ==> r[i] == tree[i].vtxo
  {
    seq(|tree|, i requires 0 <= i < |tree| => tree[i].vtxo)
  }

  /** The round transaction has the outputs every round has, the tree contains all
      requested vtxos, and the outputs after the first two contain all requested
      offboards, each as often as requested. */
  ghost predicate Accepted(outputs: seq<VtxoRequest>, offboards: seq<TxOut>,
                           tree: seq<SignedVtxoRequest>, txOutputs: seq<TxOut>) {
    && |txOutputs| >= 2
    && multiset(outputs) <= multiset(Vtxos(tree))
    && multiset(offboards) <= multiset(txOutputs[2..])
  }

  method CheckProposal(outputs: seq<VtxoRequest>, offboards: seq<TxOut>,
                       tree: seq<SignedVtxoRequest>, txOutputs: seq<TxOut>) returns (ok: bool)
    ensures ok <==> Accepted(outputs, offboards, tree, txOutputs)
  {
    if |txOutputs| < MIN_ROUND_TX_OUTPUTS {
      return false;
    }
    var missing := Unmatched(outputs, Vtxos(tree));
    MinusEmpty(multiset(outputs), multiset(Vtxos(tree)));
    EmptyMultiset(missing);
    if missing != [] {
      return false;
    }
    var missingOffboards := Unmatched(offboards, txOutputs[2..]);
    MinusEmpty(multiset(offboards), multiset(txOutputs[2..]));
    EmptyMultiset(missingOffboards);
    ok := missingOffboards == [];
  }

  lemma EmptyMultiset<T>(s: seq<T>)
    ensures s == [] <==> multiset(s) == multiset{}
  {
    if s != [] {
      assert s[0] in multiset(s);
    }
  }

  // ----- finding the leaves to sign for

  /** Our requests with the cosign keys we announced for them. */
  function Mine(outputs: seq<VtxoRequest>, keys: seq<Bytes>): (r: seq<SignedVtxoRequest>)
    ensures |r| == if |outputs| <= |keys| then |outputs| else |keys|
    ensures forall i :: 0 <= i < |r| ==> r[i] == SignedVtxoRequest(outputs[i], Some(keys[i]))
  {
    var n := if |outputs| <= |keys| then |outputs| else |keys|;
    seq(n, i requires 0 <= i < n => SignedVtxoRequest(outputs[i], Some(keys[i])))
  }

  /** What comes of a proposed tree: refused, a panic because the request of this
      index is not in the tree, or the leaf whose branch to sign per request. */
  datatype Signing = Refused | NotIncluded(index: nat) | Branches(leaves: seq<nat>)

  ghost predicate AllIncluded(mine: seq<SignedVtxoRequest>, tree: seq<SignedVtxoRequest>) {
    forall q :: q in mine ==> q in tree
  }

  /** `sign_vtxo_tree`: the check ignores the cosign keys, the look-up of the leaves
      does not, so that an accepted tree can still lack one of our requests. */
  method SignVtxoTree(outputs: seq<VtxoRequest>, keys: seq<Bytes>, offboards: seq<TxOut>,
                      tree: seq<SignedVtxoRequest>, txOutputs: seq<TxOut>) returns (r: Signing)
    ensures r.Refused? <==> !Accepted(outputs, offboards, tree, txOutputs)
    ensures r.Branches? <==> Accepted(outputs, offboards, tree, txOutputs) && AllIncluded(Mine(outputs, keys), tree)
    ensures r.NotIncluded? ==> r.index < |Mine(outputs, keys)| && Mine(outputs, keys)[r.index] !in tree
    ensures r.Branches? ==> SignsFor(Mine(outputs, keys), tree, r.leaves)
  {
    var mine := Mine(outputs, keys);
    var ok := CheckProposal(outputs, offboards, tree, txOutputs);
    if !ok {
      return Refused;
    }
    var leaves: seq<nat> := [];
    for i := 0 to |mine|
      invariant SignsFor(mine[..i], tree, leaves)
      invariant AllIncluded(mine[..i], tree)
    {
      assert mine[..i + 1] == mine[..i] + [mine[i]];
      var leaf := Position(tree, mine[i]);
      if leaf.None? {
        assert mine[i] in mine;
        return NotIncluded(i);
      }
      leaves := leaves + [leaf.value];
    }
    assert mine[..|mine|] == mine;
    r := Branches(leaves);
  }

  /** The leaf found for each request holds exactly this request. */
  ghost predicate SignsFor(mine: seq<SignedVtxoRequest>, tree: seq<SignedVtxoRequest>, leaves: seq<nat>) {
    && |leaves| == |mine|
    && forall i :: 0 <= i < |mine| ==> leaves[i] < |tree| && tree[leaves[i]] == mine[i]
  }

  ghost predicate Distinct<T>(s: seq<T>) {
    forall i, j :: 0 <= i < j < |s| ==> s[i] != s[j]
  }

  lemma {:induction false} DistinctOnce<T>(s: seq<T>, x: T)
    requires Distinct(s)
    ensures multiset(s)[x] <= 1
  {
    if s != [] {
      LastCount(s, x);
      DistinctOnce(s[..|s| - 1], x);
      if s[|s| - 1] == x {
        assert x !in s[..|s| - 1];
      }
    }
  }

  lemma VtxosSnoc(a: seq<SignedVtxoRequest>, q: SignedVtxoRequest)
    ensures multiset(Vtxos(a + [q])) == multiset(Vtxos(a)) + multiset{q.vtxo}
  {
    assert Vtxos(a + [q]) == Vtxos(a) + [q.vtxo];
  }

  lemma VtxosWithout(b: seq<SignedVtxoRequest>, j: nat)
    requires j < |b|
    ensures multiset(SwapRemove(b, j)) == multiset(b) - multiset{b[j]}
    ensures multiset(Vtxos(b)) == multiset(Vtxos(SwapRemove(b, j))) + multiset{b[j].vtxo}
  {
    SwapRemoveMultiset(b, j);
    SwapRemoveMultiset(Vtxos(b), j);
    assert Vtxos(SwapRemove(b, j)) == SwapRemove(Vtxos(b), j);
    assert Vtxos(b)[j] in multiset(Vtxos(b));
  }

  /** Forgetting the cosign keys preserves inclusion. */
  lemma {:induction false} VtxosMonotone(a: seq<SignedVtxoRequest>, b: seq<SignedVtxoRequest>)
    requires multiset(a) <= multiset(b)
    ensures multiset(Vtxos(a)) <= multiset(Vtxos(b))
  {
    if a != [] {
      var n := |a| - 1;
      assert a == a[..n] + [a[n]];
      assert a[n] in multiset(a);
      assert a[n] in multiset(b);
      var j :| 0 <= j < |b| && b[j] == a[n];
      VtxosWithout(b, j);
      VtxosMonotone(a[..n], SwapRemove(b, j));
      VtxosSnoc(a[..n], a[n]);
    }
  }

  /** With one fresh key per output, no leaf look-up fails exactly if the tree
      contains our requests with our keys, each as often as we made it. The leaves
      to sign for are then distinct, and the check of the vtxos cannot fail. */
  lemma LookupSafe(outputs: seq<VtxoRequest>, keys: seq<Bytes>, tree: seq<SignedVtxoRequest>)
    requires |keys| == |outputs| && Distinct(keys)
    ensures AllIncluded(Mine(outputs, keys), tree) <==> multiset(Mine(outputs, keys)) <= multiset(tree)
    ensures AllIncluded(Mine(outputs, keys), tree) ==> multiset(outputs) <= multiset(Vtxos(tree))
    ensures forall leaves: seq<nat> :: SignsFor(Mine(outputs, keys), tree, leaves) ==> Distinct(leaves)
  {
    var mine := Mine(outputs, keys);
    assert Distinct(mine);
    if AllIncluded(mine, tree) {
      forall q
        ensures multiset(mine)[q] <= multiset(tree)[q]
      {
        DistinctOnce(mine, q);
        if q in multiset(mine) {
          assert q in mine;
          assert q in tree;
        }
      }
      VtxosMonotone(mine, tree);
      assert Vtxos(mine) == outputs;
    } else {
      var q :| q in mine && q !in tree;
      assert q in multiset(mine) && q !in multiset(tree);
    }
  }

  const OUR_REQUEST := VtxoRequest(Pubkey([2]), 1000)
  const OTHER_KEY_TREE := [SignedVtxoRequest(OUR_REQUEST, Some([3]))]

  /** A tree that is accepted and makes the look-up panic: our request is there, but
      with a cosign key that is not ours. */
  method AcceptedCanPanic() returns (outputs: seq<VtxoRequest>, keys: seq<Bytes>, tree: seq<SignedVtxoRequest>,
                                     txOutputs: seq<TxOut>, r: Signing)
    ensures |keys| == |outputs| && Distinct(keys) && Accepted(outputs, [], tree, txOutputs)
    ensures r == NotIncluded(0)
  {
    outputs, keys, tree := [OUR_REQUEST], [[2]], OTHER_KEY_TREE;
    txOutputs := [TxOut([], 0), TxOut([], 0)];
    assert Vtxos(tree) == outputs;
    assert Mine(outputs, keys)[0] !in tree;
    r := SignVtxoTree(outputs, keys, [], tree, txOutputs);
  }

  // ----- collecting our leaves

  /** The leaves are distinct, in order, among the first `n` and all validate. */
  ghost predicate Picked(leaves: seq<nat>, n: nat, validates: nat -> bool) {
    && Ascending(leaves)
    && forall i :: 0 <= i < |leaves| ==> leaves[i] < n && validates(leaves[i])
  }

  /** The requests at the given leaves of the tree. */
  ghost function RequestsAt(tree: seq<VtxoRequest>, leaves: seq<nat>): seq<VtxoRequest>
    requires forall i :: 0 <= i < |leaves| ==> leaves[i] < |tree|
  {
    seq(|leaves|, i requires 0 <= i < |leaves| => tree[leaves[i]])
  }

  datatype Collected = Leaves(leaves: seq<nat>) | InvalidVtxo(leaf: nat) | Missing(count: nat)

  lemma PickLeaf(tree: seq<VtxoRequest>, leaves: seq<nat>, k: nat, validates: nat -> bool)
    requires Picked(leaves, k, validates) && k < |tree| && validates(k)
    ensures Picked(leaves + [k], k + 1, validates)
    ensures RequestsAt(tree, leaves + [k]) == RequestsAt(tree, leaves) + [tree[k]]
  {
  }

  /** After the first `k` leaves: what is still expected and what was found. */
  ghost predicate Tally<T>(wanted: seq<T>, tree: seq<T>, k: nat, expected: seq<T>, found: seq<T>) {
    && k <= |tree|
    && multiset(expected) == multiset(wanted) - multiset(tree[..k])
    && multiset(expected) + multiset(found) == multiset(wanted)
  }

  lemma TallyFound<T>(wanted: seq<T>, tree: seq<T>, k: nat, expected: seq<T>, found: seq<T>, i: nat)
    requires k < |tree| && Tally(wanted, tree, k, expected, found)
    requires i < |expected| && expected[i] == tree[k]
    ensures Tally(wanted, tree, k + 1, SwapRemove(expected, i), found + [tree[k]])
    ensures tree[k] in wanted
  {
    MinusNext(multiset(wanted), tree, k);
    SwapRemoveMultiset(expected, i);
    assert tree[k] in multiset(expected);
    assert tree[k] in multiset(wanted);
  }

  lemma TallySkip<T>(wanted: seq<T>, tree: seq<T>, k: nat, expected: seq<T>, found: seq<T>)
    requires k < |tree| && Tally(wanted, tree, k, expected, found)
    requires tree[k] !in expected
    ensures Tally(wanted, tree, k + 1, expected, found)
  {
    MinusNext(multiset(wanted), tree, k);
    assert tree[k] !in multiset(expected);
  }

  lemma TallyDone<T>(wanted: seq<T>, tree: seq<T>, expected: seq<T>, found: seq<T>)
    requires Tally(wanted, tree, |tree|, expected, found)
    ensures expected == [] <==> multiset(wanted) <= multiset(tree)
    ensures expected == [] ==> multiset(found) == multiset(wanted)
    ensures |expected| == |multiset(wanted) - multiset(tree)|
  {
    assert tree[..|tree|] == tree;
    MinusEmpty(multiset(wanted), multiset(tree));
    EmptyMultiset(expected);
  }

  /** What each outcome means. */
  ghost predicate CollectedRight(outputs: seq<VtxoRequest>, tree: seq<SignedVtxoRequest>, validates: nat -> bool,
                                 r: Collected) {
    match r
    case Leaves(leaves) =>
      && Picked(leaves, |tree|, validates)
      && multiset(RequestsAt(Vtxos(tree), leaves)) == multiset(outputs)
      && multiset(outputs) <= multiset(Vtxos(tree))
    case InvalidVtxo(leaf) => leaf < |tree| && !validates(leaf) && tree[leaf].vtxo in outputs
    case Missing(count) =>
      && !(multiset(outputs) <= multiset(Vtxos(tree)))
      && count == |multiset(outputs) - multiset(Vtxos(tree))|
  }

  /** The vtxos built in `sign_forfeits`: one from each of distinct leaves, whose
      requests are exactly the requested outputs. It can only fail on a vtxo that
      does not validate or a request the tree does not contain. */
  method CollectVtxos(outputs: seq<VtxoRequest>, tree: seq<SignedVtxoRequest>, validates: nat -> bool)
    returns (r: Collected)
    ensures CollectedRight(outputs, tree, validates, r)
  {
    var requests, expected := Vtxos(tree), outputs;
    var leaves: seq<nat> := [];
    ghost var found: seq<VtxoRequest> := [];
    for k := 0 to |tree|
      invariant Picked(leaves, k, validates) && found == RequestsAt(requests, leaves)
      invariant Tally(outputs, requests, k, expected, found)
    {
      var i := Position(expected, requests[k]);
      if i.Some? {
        TallyFound(outputs, requests, k, expected, found, i.value);
        if !validates(k) {
          return InvalidVtxo(k);
        }
        PickLeaf(requests, leaves, k, validates);
        var leaf: nat := k;
        leaves, found := leaves + [leaf], found + [requests[k]];
        expected := SwapRemove(expected, i.value);
      } else {
        TallySkip(outputs, requests, k, expected, found);
      }
    }
    TallyDone(outputs, requests, expected, found);
    if expected != [] {
      return Missing(|expected|);
    }
    r := Leaves(leaves);
  }
}
