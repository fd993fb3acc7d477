/** The index of pending sweep transactions (server/src/sweeps.rs), with expired rounds
    and what a pass over them can see. */
module SweepIndex {
  import opened Collections
  import opened Basics
  import opened Connectors

  // ----- the index of pending sweeps

  /** A transaction as the index keeps it. */
  datatype SweepTx = SweepTx(txid: Txid, inputs: seq<OutPoint>)

  /** The pending transactions spending an outpoint. */
  type Index = map<OutPoint, seq<Txid>>

  /** Every txid listed under an outpoint belongs to a pending transaction that
      spends this outpoint. */
  ghost predicate Indexed(inputsOf: Txid -> seq<OutPoint>, pending: map<Txid, SweepTx>, byUtxo: Index) {
    forall p, t :: p in byUtxo && t in byUtxo[p] ==> t in pending && p in inputsOf(t)
  }

  /** The pending transactions are filed under their id, which fixes their inputs. */
  ghost predicate Filed(inputsOf: Txid -> seq<OutPoint>, pending: map<Txid, SweepTx>) {
    forall t :: t in pending ==> pending[t] == SweepTx(t, inputsOf(t))
  }

  function Listed(byUtxo: Index, p: OutPoint): seq<Txid> {
    if p in byUtxo then byUtxo[p] else []
  }

  /** The list of an outpoint before and after: the transaction was added at its end if
      the outpoint is among the given ones, and nothing else was. */
  ghost predicate FiledAt(txid: Txid, points: seq<OutPoint>, p: OutPoint, now: seq<Txid>, before: seq<Txid>) {
    && before <= now && (|before| < |now| <==> p in points)
    && forall i :: |before| <= i < |now| ==> now[i] == txid
  }

  ghost predicate FiledUnder(txid: Txid, points: seq<OutPoint>, now: Index, before: Index) {
    forall p :: FiledAt(txid, points, p, Listed(now, p), Listed(before, p))
  }

  lemma FiledNext(txid: Txid, points: seq<OutPoint>, now: Index, before: Index, p: OutPoint)
    requires FiledUnder(txid, points, now, before)
    ensures FiledUnder(txid, points + [p], now[p := Listed(now, p) + [txid]], before)
  {
    var more := now[p := Listed(now, p) + [txid]];
    forall q
      ensures FiledAt(txid, points + [p], q, Listed(more, q), Listed(before, q))
    {
      assert FiledAt(txid, points, q, Listed(now, q), Listed(before, q));
      assert Listed(more, q) == if q == p then Listed(now, q) + [txid] else Listed(now, q);
    }
  }

  lemma FiledMembers(txid: Txid, points: seq<OutPoint>, now: Index, before: Index, p: OutPoint, t: Txid)
    requires FiledUnder(txid, points, now, before)
    ensures t in Listed(now, p) <==> t in Listed(before, p) || (p in points && t == txid)
  {
    var old', new' := Listed(before, p), Listed(now, p);
    assert FiledAt(txid, points, p, new', old');
    if t in new' {
      var i :| 0 <= i < |new'| && new'[i] == t;
      assert i < |old'| ==> old'[i] == t;
    }
    if t in old' {
      var i :| 0 <= i < |old'| && old'[i] == t;
      assert new'[i] == t;
    }
    if p in points {
      assert new'[|old'|] == txid;
    }
  }

  lemma StoredValid(inputsOf: Txid -> seq<OutPoint>, pending: map<Txid, SweepTx>, now: Index, before: Index,
                    tx: SweepTx)
    requires Filed(inputsOf, pending) && Indexed(inputsOf, pending, before) && tx.inputs == inputsOf(tx.txid)
    requires FiledUnder(tx.txid, tx.inputs, now, before)
    ensures Filed(inputsOf, pending[tx.txid := tx]) && Indexed(inputsOf, pending[tx.txid := tx], now)
  {
    assert tx == SweepTx(tx.txid, tx.inputs);
    var after := pending[tx.txid := tx];
    forall p: OutPoint, t: Txid | p in now && t in now[p]
      ensures t in after && p in inputsOf(t)
    {
      assert t in Listed(now, p);
      FiledMembers(tx.txid, tx.inputs, now, before, p, t);
      if t in Listed(before, p) {
        assert p in before && t in before[p];
      }
    }
  }

  /** Some input of the transaction is still indexed. */
  predicate StillNeeded(byUtxo: Index, tx: SweepTx) {
    exists p :: p in tx.inputs && p in byUtxo
  }

  /** Exactly the entries of the given outpoints were removed. */
  ghost predicate Without(now: Index, before: Index, gone: OutPoint -> bool) {
    && (forall p :: p in now <==> p in before && !gone(p))
    && (forall p :: p in now ==> now[p] == before[p])
  }

  lemma WithoutTwice(now: Index, mid: Index, before: Index,
                     first: OutPoint -> bool, second: OutPoint -> bool, both: OutPoint -> bool)
    requires Without(mid, before, first) && Without(now, mid, second)
    requires forall p :: both(p) <==> first(p) || second(p)
    ensures Without(now, before, both)
  {
  }

  predicate OutputOf(txid: Txid, n: nat, p: OutPoint) {
    p.txid == txid && p.vout < n
  }

  // ----- rounds

  datatype TreeTx = TreeTx(txid: Txid, input: OutPoint, outputs: seq<TxOut>)

  /** An expired round; the tree transactions run from the leaves to the root. */
  datatype ExpiredRound = ExpiredRound(id: Txid, treeValue: nat, connectorValue: nat,
                                       treeTxs: seq<TreeTx>, connectors: Chain) {
    ghost predicate Valid() {
      && treeTxs != []
      && (forall tx :: tx in treeTxs ==> tx.outputs != [])
      && connectors.len != 0
      && connectors.utxo == OutPoint(id, ROUND_TX_CONNECTOR_VOUT)
    }
    function Root(): TreeTx
      requires treeTxs != []
    {
      treeTxs[|treeTxs| - 1]
    }
  }

  ghost predicate RoundPoint(hash: Hash, round: ExpiredRound, p: OutPoint) {
    || p == OutPoint(round.id, ROUND_TX_VTXO_TREE_VOUT)
    || p == OutPoint(round.id, ROUND_TX_CONNECTOR_VOUT)
    || TreePoint(round, |round.treeTxs|, p)
    || ConnectorPoint(hash, round, round.connectors.len - 1, p)
  }

  /** An output of one of the first `n` tree transactions. */
  ghost predicate TreePoint(round: ExpiredRound, n: nat, p: OutPoint) {
    exists i :: 0 <= i < n && i < |round.treeTxs| && OutputOf(round.treeTxs[i].txid, |round.treeTxs[i].outputs|, p)
  }

  /** An output of one of the first `n` connector transactions. */
  ghost predicate ConnectorPoint(hash: Hash, round: ExpiredRound, n: int, p: OutPoint) {
    exists i: nat :: i < n && i + 1 < round.connectors.len && OutputOf(hash(TxAt(hash, round.connectors, i)), 3, p)
  }

  lemma ConnectorPointNext(hash: Hash, round: ExpiredRound, n: nat)
    requires n + 1 < round.connectors.len
    ensures forall p :: ConnectorPoint(hash, round, n + 1, p) <==>
              ConnectorPoint(hash, round, n, p) || OutputOf(hash(TxAt(hash, round.connectors, n)), 3, p)
  {
  }

  // ----- what a pass sees

  datatype Status = Missing | Unconfirmed | Confirmed
  datatype TxOutAnswer = RpcError | Spent | Unspent(value: nat)

  /** How ids are computed, and what the transaction index, the statuses of our sweeps
      and the node answer. */
  datatype View = View(hash: Hash, status: Txid -> Status, sweptAt: Txid -> Option<nat>, txOut: OutPoint -> TxOutAnswer)

  /** What stays fixed during a pass: our pending sweeps, what they spend, and the view. */
  datatype Scene = Scene(inputsOf: Txid -> seq<OutPoint>, pending: map<Txid, SweepTx>, v: View)

  /** Blocks are counted from one for anything that spends a round. */
  ghost predicate Heights(v: View) {
    forall t :: v.sweptAt(t).Some? ==> v.sweptAt(t).value > 0
  }

  /** `t` is one of our pending sweeps, spends `p` and confirmed at height `h`. */
  ghost predicate SweptBy(x: Scene, p: OutPoint, t: Txid, h: nat) {
    t in x.pending && p in x.inputsOf(t) && x.v.sweptAt(t) == Some(h)
  }

  /** Our own sweep of `p` confirmed at height `h` or before. */
  ghost predicate SweptBefore(x: Scene, p: OutPoint, h: nat) {
    exists t, g: nat :: SweptBy(x, p, t, g) && g <= h
  }

  /** One of our pending sweeps confirmed at exactly this height. */
  ghost predicate SweepHeight(x: Scene, h: nat) {
    exists t :: t in x.pending && x.v.sweptAt(t) == Some(h)
  }

  /** The first of the sweeps listed for the outpoint that is confirmed, and its height. */
  ghost predicate FirstSweptAt(v: View, byUtxo: Index, p: OutPoint, t: Txid, h: nat) {
    exists k :: 0 <= k < |Listed(byUtxo, p)| && Listed(byUtxo, p)[k] == t && v.sweptAt(t) == Some(h)
                && forall j :: 0 <= j < k ==> v.sweptAt(Listed(byUtxo, p)[j]).None?
  }

  lemma FirstSweptUnique(v: View, byUtxo: Index, p: OutPoint, t: Txid, h: nat, u: Txid, g: nat)
    requires FirstSweptAt(v, byUtxo, p, t, h) && FirstSweptAt(v, byUtxo, p, u, g)
    ensures t == u && h == g
  {
  }

  /** None of the sweeps listed for the outpoint is confirmed. */
  ghost predicate Unswept(v: View, byUtxo: Index, p: OutPoint) {
    forall t :: t in Listed(byUtxo, p) ==> v.sweptAt(t).None?
  }

  class Process {
    /** What each txid commits to spending. */
    const inputsOf: Txid -> seq<OutPoint>
    var pendingTxs: map<Txid, SweepTx>
    var byUtxo: Index

    ghost predicate Valid()
      reads this
    {
      Filed(inputsOf, pendingTxs) && Indexed(inputsOf, pendingTxs, byUtxo)
    }

    constructor (inputsOf: Txid -> seq<OutPoint>)
      ensures Valid() && pendingTxs == map[] && byUtxo == map[]
      ensures this.inputsOf == inputsOf
    {
      this.inputsOf := inputsOf;
      pendingTxs, byUtxo := map[], map[];
    }

    method StorePending(tx: SweepTx)
      requires Valid() && tx.inputs == inputsOf(tx.txid)
      modifies this
      ensures Valid()
      ensures pendingTxs == old(pendingTxs)[tx.txid := tx]
      ensures FiledUnder(tx.txid, tx.inputs, byUtxo, old(byUtxo))
    {
      for i := 0 to |tx.inputs|
        invariant pendingTxs == old(pendingTxs)
        invariant FiledUnder(tx.txid, tx.inputs[..i], byUtxo, old(byUtxo))
      {
        var p := tx.inputs[i];
        FiledNext(tx.txid, tx.inputs[..i], byUtxo, old(byUtxo), p);
        byUtxo := byUtxo[p := Listed(byUtxo, p) + [tx.txid]];
        assert tx.inputs[..i + 1] == tx.inputs[..i] + [p];
      }
      assert tx.inputs[..|tx.inputs|] == tx.inputs;
      StoredValid(inputsOf, pendingTxs, byUtxo, old(byUtxo), tx);
      pendingTxs := pendingTxs[tx.txid := tx];
    }

    /** What a pass with this view sees. */
    ghost function At(v: View): Scene
      reads this
    {
      Scene(inputsOf, pendingTxs, v)
    }

    /** The first confirmed sweep listed for the outpoint. The look-up of a listed
        transaction always succeeds. */
    method IsSwept(p: OutPoint, v: View) returns (r: Option<(nat, Txid)>)
      requires Valid()
      ensures r.Some? ==> SweptBy(At(v), p, r.value.1, r.value.0)
      ensures r.Some? ==> FirstSweptAt(v, byUtxo, p, r.value.1, r.value.0)
      ensures r.None? <==> Unswept(v, byUtxo, p)
    {
      if p in byUtxo {
        var txs := byUtxo[p];
        for i := 0 to |txs|
          invariant forall j :: 0 <= j < i ==> v.sweptAt(txs[j]).None?
        {
          assert txs[i] in byUtxo[p];
          var tx := pendingTxs[txs[i]];
          if v.sweptAt(tx.txid).Some? {
            assert Listed(byUtxo, p)[i] == tx.txid;
            return Some((v.sweptAt(tx.txid).value, tx.txid));
          }
        }
      }
      r := None;
    }

    method Forget(p: OutPoint)
      requires Valid()
      modifies this`byUtxo
      ensures Valid() && byUtxo == old(byUtxo) - {p}
    {
      byUtxo := byUtxo - {p};
    }

    /** Cleans up after a swept round: the two round outputs, every output of every
        tree transaction and every output of every connector transaction, and
        nothing else. */
    method RoundFinished(round: ExpiredRound, hash: Hash)
      requires Valid() && round.Valid()
      modifies this`byUtxo
      ensures Valid() && Without(byUtxo, old(byUtxo), p => RoundPoint(hash, round, p))
    {
      Forget(OutPoint(round.id, ROUND_TX_VTXO_TREE_VOUT));
      Forget(OutPoint(round.id, ROUND_TX_CONNECTOR_VOUT));
      ForgetTree(round);
      ForgetConnectors(round, hash);
    }

    method ForgetTree(round: ExpiredRound)
      requires Valid()
      modifies this`byUtxo
      ensures Valid() && Without(byUtxo, old(byUtxo), p => TreePoint(round, |round.treeTxs|, p))
    {
      for i := 0 to |round.treeTxs|
        invariant Valid() && Without(byUtxo, old(byUtxo), p => TreePoint(round, i, p))
      {
        ghost var mid := byUtxo;
        ForgetOutputs(round.treeTxs[i].txid, |round.treeTxs[i].outputs|);
        WithoutTwice(byUtxo, mid, old(byUtxo), p => TreePoint(round, i, p),
                     p => OutputOf(round.treeTxs[i].txid, |round.treeTxs[i].outputs|, p),
                     p => TreePoint(round, i + 1, p));
      }
    }

    method ForgetConnectors(round: ExpiredRound, hash: Hash)
      requires Valid() && round.connectors.len != 0
      modifies this`byUtxo
      ensures Valid() && Without(byUtxo, old(byUtxo), p => ConnectorPoint(hash, round, round.connectors.len - 1, p))
    {
      var txs := new ConnectorTxIter(hash, round.connectors, None);
      ghost var n: nat := 0;
      while true
        invariant txs.Valid() && fresh(txs) && txs.hash == hash && txs.chain == round.connectors && txs.signKey.None?
        invariant n == txs.idx && Valid() && Without(byUtxo, old(byUtxo), p => ConnectorPoint(hash, round, n, p))
        decreases round.connectors.len - txs.idx
      {
        var tx := txs.Next((_, _, _) => 0);
        if tx.None? {
          return;
        }
        assert Stripped(tx.value) == tx.value;
        ghost var mid := byUtxo;
        ForgetOutputs(ComputeTxid(hash, tx.value), |tx.value.outputs|);
        ConnectorPointNext(hash, round, n);
        WithoutTwice(byUtxo, mid, old(byUtxo), p => ConnectorPoint(hash, round, n, p),
                     p => OutputOf(hash(TxAt(hash, round.connectors, n)), 3, p),
                     p => ConnectorPoint(hash, round, n + 1, p));
        n := n + 1;
      }
    }

    method ForgetOutputs(txid: Txid, n: nat)
      requires Valid()
      modifies this`byUtxo
      ensures Valid() && Without(byUtxo, old(byUtxo), p => OutputOf(txid, n, p))
    {
      for i := 0 to n
        invariant Valid() && Without(byUtxo, old(byUtxo), p => OutputOf(txid, i, p))
      {
        Forget(OutPoint(txid, i));
      }
    }

    /** Drops the transactions that no longer serve any indexed outpoint. A database
        error ends the pass before anything is dropped. */
    method ClearConfirmedSweeps(dbFails: Txid -> bool) returns (ok: bool)
      requires Valid()
      modifies this`pendingTxs
      ensures Valid()
      ensures ok ==> pendingTxs == map t | t in old(pendingTxs) && StillNeeded(byUtxo, old(pendingTxs)[t])
                                     :: old(pendingTxs)[t]
      ensures ok ==> forall t :: t in pendingTxs <==>
                t in old(pendingTxs) && exists p :: p in old(pendingTxs)[t].inputs && p in byUtxo
      ensures !ok ==> pendingTxs == old(pendingTxs)
      ensures forall p, t :: t in Listed(byUtxo, p) ==> t in pendingTxs
    {
      var toRemove: set<Txid> := {};
      var left := pendingTxs.Keys;
      while left != {}
        invariant left <= pendingTxs.Keys
        invariant forall t :: t in toRemove <==> t in pendingTxs && t !in left && !StillNeeded(byUtxo, pendingTxs[t])
        decreases left
      {
        var t :| t in left;
        left := left - {t};
        if !StillNeeded(byUtxo, pendingTxs[t]) {
          if dbFails(t) {
            return false;
          }
          toRemove := toRemove + {t};
        }
      }
      pendingTxs := pendingTxs - toRemove;
      ok := true;
      forall p, t | p in byUtxo && t in byUtxo[p]
        ensures t in pendingTxs
      {
        assert p in old(pendingTxs)[t].inputs;
      }
    }
  }
}
