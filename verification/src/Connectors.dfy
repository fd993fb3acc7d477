/** The connector chain (lib/src/connectors.rs). Transaction ids come from an
    arbitrary hash of the witness-stripped transaction (section "Transaction ID"
    of BIP 141); injectivity of the hash is assumed only where it is stated. */
module Connectors {
  import opened Collections
  import opened Basics

  type Signature = nat

  datatype TxIn = TxIn(prev: OutPoint, signatures: seq<Signature>)
  datatype Tx = Tx(version: nat, inputs: seq<TxIn>, outputs: seq<TxOut>)

  type Hash = Tx -> Txid

  /** Signs a transaction with a key, committing to the output it spends. */
  type Signer = (nat, Tx, TxOut) -> Signature

  function Stripped(tx: Tx): Tx {
    tx.(inputs := seq(|tx.inputs|, i requires 0 <= i < |tx.inputs| => TxIn(tx.inputs[i].prev, [])))
  }

  function ComputeTxid(hash: Hash, tx: Tx): Txid {
    hash(Stripped(tx))
  }

  ghost predicate Injective(hash: Hash) {
    forall a: Tx, b: Tx :: hash(a) == hash(b) ==> a == b
  }

  /** No transaction spends an output of its own. */
  ghost predicate NoSelfSpend(hash: Hash) {
    forall tx: Tx, i :: 0 <= i < |tx.inputs| ==> hash(tx) != tx.inputs[i].prev.txid
  }

  // ----- the chain

  const P2A_SCRIPT: Script := [0x51, 0x02, 0x4e, 0x73]
  const CHAIN_VOUT: nat := 0
  const CONNECTOR_VOUT: nat := 1

  datatype Chain = Chain(len: nat, spk: Script, utxo: OutPoint)

  function RequiredBudget(len: nat): nat
    requires len != 0
  {
    P2TR_DUST * len
  }

  function ChainTx(c: Chain, prev: OutPoint, idx: nat): Tx
    requires idx + 1 < c.len
  {
    Tx(3, [TxIn(prev, [])], [
      TxOut(c.spk, RequiredBudget(c.len - idx - 1)),
      TxOut(c.spk, P2TR_DUST),
      TxOut(P2A_SCRIPT, 0)])
  }

  /** The outpoint that continues the chain after `i` transactions. */
  function Prev(hash: Hash, c: Chain, i: nat): OutPoint
    requires i < c.len
    decreases i, 0
  {
    if i == 0 then c.utxo else OutPoint(hash(TxAt(hash, c, i - 1)), CHAIN_VOUT)
  }

  /** The `i`-th transaction of the chain. */
  function TxAt(hash: Hash, c: Chain, i: nat): Tx
    requires i + 1 < c.len
    decreases i, 1
  {
    ChainTx(c, Prev(hash, c, i), i)
  }

  /** The `k`-th connector: output 1 of the `k`-th transaction, except that the
      last connector is what would have continued the chain. */
  function Connector(hash: Hash, c: Chain, k: nat): OutPoint
    requires k < c.len
  {
    if k + 1 < c.len then OutPoint(hash(TxAt(hash, c, k)), CONNECTOR_VOUT) else Prev(hash, c, k)
  }

  /** The connector output of a round for a chain of the given length. */
  function ChainOutput(len: nat, spk: Script): TxOut
    requires len != 0
  {
    TxOut(spk, RequiredBudget(len))
  }

  /** What is at an outpoint of the chain, reading the root as funded with the required
      budget. */
  ghost predicate HasOutput(hash: Hash, c: Chain, p: OutPoint, out: TxOut) {
    || (c.len != 0 && p == c.utxo && out == ChainOutput(c.len, c.spk))
    || exists i: nat :: OutputFrom(hash, c, p, i, out)
  }

  ghost predicate OutputFrom(hash: Hash, c: Chain, p: OutPoint, i: nat, out: TxOut) {
    && i + 1 < c.len && p.txid == hash(TxAt(hash, c, i))
    && p.vout < |TxAt(hash, c, i).outputs| && TxAt(hash, c, i).outputs[p.vout] == out
  }

  /** Every transaction of the chain, spelled out: version 3, one input without witness,
      what continues the chain and a connector, both under the chain's script, and an
      empty fee anchor. */
  lemma ChainLayout(hash: Hash, c: Chain, i: nat)
    requires i + 1 < c.len
    ensures var tx := TxAt(hash, c, i);
            && tx.version == 3 && tx.inputs == [TxIn(Prev(hash, c, i), [])] && |tx.outputs| == 3
            && tx.outputs[0] == TxOut(c.spk, 330 * (c.len - i - 1))
            && tx.outputs[1] == TxOut(c.spk, 330)
            && tx.outputs[2] == TxOut([0x51, 0x02, 0x4e, 0x73], 0)
  {
  }

  ghost function OutputSum(outs: seq<TxOut>): nat {
    if outs == [] then 0 else outs[0].value + OutputSum(outs[1..])
  }

  /** Each transaction spends the continuation of the previous one and passes on
      exactly the value it receives. */
  lemma ChainConserves(hash: Hash, c: Chain, i: nat)
    requires i + 1 < c.len
    ensures |TxAt(hash, c, i).inputs| == 1 && TxAt(hash, c, i).inputs[0].prev == Prev(hash, c, i)
    ensures i > 0 ==> Prev(hash, c, i) == OutPoint(hash(TxAt(hash, c, i - 1)), CHAIN_VOUT)
    ensures HasOutput(hash, c, Prev(hash, c, i), TxOut(c.spk, RequiredBudget(c.len - i)))
    ensures OutputSum(TxAt(hash, c, i).outputs) == RequiredBudget(c.len - i)
  {
    var outs := TxAt(hash, c, i).outputs;
    assert OutputSum(outs[3..]) == 0;
    assert outs[2..][1..] == outs[3..] && outs[1..][1..] == outs[2..];
    assert OutputSum(outs[2..]) == 0 && OutputSum(outs[1..]) == P2TR_DUST;
    if i > 0 {
      assert OutputFrom(hash, c, Prev(hash, c, i), i - 1, TxOut(c.spk, RequiredBudget(c.len - i)));
    }
  }

  /** What the output named by the `k`-th connector carries. */
  ghost function ConnectorValue(hash: Hash, c: Chain, k: nat): nat
    requires k < c.len
  {
    if k + 1 < c.len then TxAt(hash, c, k).outputs[CONNECTOR_VOUT].value
    else if k > 0 then TxAt(hash, c, k - 1).outputs[CHAIN_VOUT].value
    else RequiredBudget(c.len)
  }

  ghost function ConnectorSum(hash: Hash, c: Chain, n: nat): nat
    requires n <= c.len
  {
    if n == 0 then 0 else ConnectorSum(hash, c, n - 1) + ConnectorValue(hash, c, n - 1)
  }

  /** Every connector carries exactly one dust amount, under the chain's script. */
  lemma ConnectorIsDust(hash: Hash, c: Chain, k: nat)
    requires k < c.len
    ensures ConnectorValue(hash, c, k) == P2TR_DUST
    ensures HasOutput(hash, c, Connector(hash, c, k), TxOut(c.spk, P2TR_DUST))
  {
    if k + 1 < c.len {
      assert OutputFrom(hash, c, Connector(hash, c, k), k, TxOut(c.spk, P2TR_DUST));
    } else if k > 0 {
      ChainConserves(hash, c, k - 1);
      assert OutputFrom(hash, c, Connector(hash, c, k), k - 1, TxOut(c.spk, P2TR_DUST));
    }
  }

  lemma {:induction false} ConnectorSumUpTo(hash: Hash, c: Chain, n: nat)
    requires n <= c.len
    ensures ConnectorSum(hash, c, n) == P2TR_DUST * n
  {
    if n > 0 {
      ConnectorSumUpTo(hash, c, n - 1);
      ConnectorIsDust(hash, c, n - 1);
    }
  }

  /** Together the connectors carry exactly the required budget. */
  lemma ConnectorsUseBudget(hash: Hash, c: Chain)
    requires c.len != 0
    ensures ConnectorSum(hash, c, c.len) == RequiredBudget(c.len)
  {
    ConnectorSumUpTo(hash, c, c.len);
  }

  /** The output carries exactly what the chain that spends it takes in and hands
      on to its connectors. */
  ghost predicate Funds(hash: Hash, c: Chain, out: TxOut) {
    && c.len != 0 && out.script == c.spk
    && out.value == ConnectorSum(hash, c, c.len)
    && (c.len > 1 ==> out.value == OutputSum(TxAt(hash, c, 0).outputs))
  }

  lemma FundsIffSameLength(hash: Hash, c: Chain, len: nat)
    requires c.len != 0 && len != 0
    ensures Funds(hash, c, ChainOutput(len, c.spk)) <==> len == c.len
  {
    ConnectorsUseBudget(hash, c);
    if c.len > 1 {
      ChainConserves(hash, c, 0);
    }
  }

  lemma TxidsDistinct(hash: Hash, c: Chain, i: nat, j: nat)
    requires Injective(hash) && i < j && j + 1 < c.len
    ensures hash(TxAt(hash, c, i)) != hash(TxAt(hash, c, j))
  {
    assert TxAt(hash, c, i).outputs[0].value != TxAt(hash, c, j).outputs[0].value;
  }

  /** No two connectors of a chain share an outpoint. */
  lemma ConnectorsDistinct(hash: Hash, c: Chain, j: nat, k: nat)
    requires Injective(hash) && j < k < c.len
    ensures Connector(hash, c, j) != Connector(hash, c, k)
  {
    if k + 1 < c.len {
      TxidsDistinct(hash, c, j, k);
    }
  }

  // ----- the iterators

  function SaturatingSub(a: nat, b: nat): nat {
    if b <= a then a - b else 0
  }

  /** The transaction is the `i`-th of the chain and, if there is a key, carries one
      signature by it, over the transaction and the output that it spends. */
  ghost predicate IsChainTx(hash: Hash, c: Chain, key: Option<nat>, sign: Signer, i: nat, tx: Tx)
    requires i + 1 < c.len
  {
    var bare := TxAt(hash, c, i);
    && tx.version == bare.version && tx.outputs == bare.outputs && |tx.inputs| == 1
    && tx.inputs[0].prev == Prev(hash, c, i)
    && tx.inputs[0].signatures ==
         if key.None? then [] else [sign(key.value, bare, TxOut(c.spk, P2TR_DUST * (c.len - i)))]
  }

  class ConnectorTxIter {
    const hash: Hash
    const chain: Chain
    var signKey: Option<nat>
    var prev: OutPoint
    var idx: nat

    ghost predicate Valid()
      reads this
    {
      chain.len > 0 && idx < chain.len && prev == Prev(hash, chain, idx)
    }

    constructor (hash: Hash, chain: Chain, signKey: Option<nat>)
      requires chain.len != 0
      ensures Valid() && idx == 0
      ensures this.hash == hash && this.chain == chain && this.signKey == signKey
    {
      this.hash, this.chain, this.signKey := hash, chain, signKey;
      prev, idx := chain.utxo, 0;
    }

    /** `sign` stands for the randomised signature over the transaction and the output
        it spends. */
    method Next(sign: Signer) returns (r: Option<Tx>)
      requires Valid()
      modifies this`prev, this`idx
      ensures Valid()
      ensures r.Some? <==> old(idx) + 1 < chain.len
      ensures r.None? ==> idx == old(idx) && prev == old(prev)
      ensures r.Some? ==> idx == old(idx) + 1 && Stripped(r.value) == TxAt(hash, chain, old(idx))
      ensures r.Some? ==> IsChainTx(hash, chain, signKey, sign, old(idx), r.value)
    {
      if idx >= chain.len - 1 {
        return None;
      }
      var tx := ChainTx(chain, prev, idx);
      ghost var bare := tx;
      if signKey.Some? {
        var prevout := TxOut(chain.spk, RequiredBudget(chain.len - idx));
        tx := tx.(inputs := [TxIn(prev, [sign(signKey.value, tx, prevout)])]);
      }
      assert Stripped(tx) == bare;
      idx := idx + 1;
      prev := OutPoint(ComputeTxid(hash, tx), CHAIN_VOUT);
      r := Some(tx);
    }

    /** Exactly the number of transactions still to come. */
    function SizeHint(): (n: nat)
      requires Valid()
      reads this
      ensures idx + n + 1 == chain.len
    {
      SaturatingSub(chain.len - 1, idx)
    }
  }

  class ConnectorIter {
    const txs: ConnectorTxIter
    var maybeLast: Option<(OutPoint, Option<Tx>)>

    ghost predicate Valid()
      reads this, txs
    {
      && txs.Valid()
      && (maybeLast.Some? ==> maybeLast.value.0 == txs.prev)
      && (maybeLast.None? ==> txs.idx + 1 == txs.chain.len)
      && (maybeLast.Some? && txs.idx > 0 ==>
            && maybeLast.value.1.Some?
            && Stripped(maybeLast.value.1.value) == TxAt(txs.hash, txs.chain, txs.idx - 1))
      && (maybeLast.Some? && txs.idx == 0 ==> maybeLast.value.1.None?)
    }

    /** How many connectors have been handed out. */
    ghost function Drawn(): nat
      reads this, txs
    {
      txs.idx + if maybeLast.None? then 1 else 0
    }

    constructor (hash: Hash, chain: Chain, signKey: Option<nat>)
      requires chain.len != 0
      ensures Valid() && Drawn() == 0 && fresh(txs)
      ensures txs.hash == hash && txs.chain == chain
    {
      txs := new ConnectorTxIter(hash, chain, signKey);
      maybeLast := Some((chain.utxo, None));
    }

    /** Hands out the connectors in order, each once, signed or not. */
    method Next(sign: Signer) returns (r: Option<(OutPoint, Option<Tx>)>)
      requires Valid()
      modifies this`maybeLast, txs`prev, txs`idx
      ensures Valid()
      ensures r.Some? <==> old(Drawn()) < txs.chain.len
      ensures r.None? ==> Drawn() == old(Drawn())
      ensures r.Some? ==> Drawn() == old(Drawn()) + 1
      ensures r.Some? ==> r.value.0 == Connector(txs.hash, txs.chain, old(Drawn()))
      ensures r.Some? ==> (r.value.1.None? <==> txs.chain.len == 1)
      ensures r.Some? && r.value.1.Some? ==> r.value.0.txid == ComputeTxid(txs.hash, r.value.1.value)
      ensures old(Drawn()) + 1 < txs.chain.len ==>
                r.value.1.Some? && IsChainTx(txs.hash, txs.chain, txs.signKey, sign, old(Drawn()), r.value.1.value)
    {
      if maybeLast.None? {
        return None;
      }
      var next := txs.Next(sign);
      if next.Some? {
        var txid := ComputeTxid(txs.hash, next.value);
        maybeLast := Some((OutPoint(txid, CHAIN_VOUT), next));
        r := Some((OutPoint(txid, CONNECTOR_VOUT), next));
      } else {
        r := maybeLast;
        maybeLast := None;
      }
    }

    /** The advertised number of remaining connectors is exact until the last one
        has been handed out, and one too many from then on. */
    function SizeHint(): (n: nat)
      requires Valid()
      reads this, txs
      ensures Drawn() + n == txs.chain.len + if maybeLast.Some? then 0 else 1
    {
      txs.SizeHint() + 1
    }
  }

  // ----- agreement between two chains

  lemma BudgetsDiffer(hash: Hash, c: Chain, d: Chain, k: nat)
    requires Injective(hash)
    requires c.len != d.len && k + 1 < c.len && k + 1 < d.len
    ensures hash(TxAt(hash, c, k)) != hash(TxAt(hash, d, k))
  {
    assert TxAt(hash, c, k).outputs[0].value != TxAt(hash, d, k).outputs[0].value;
  }

  lemma ShorterDisagrees(hash: Hash, c: Chain, d: Chain, k: nat)
    requires Injective(hash) && NoSelfSpend(hash)
    requires c.utxo == d.utxo && k < c.len < d.len
    ensures Connector(hash, c, k) != Connector(hash, d, k)
  {
    if k + 1 < c.len {
      BudgetsDiffer(hash, c, d, k);
    } else if k == 0 {
      assert TxAt(hash, d, 0).inputs[0].prev == c.utxo;
    }
  }

  /** Two parties that start from the same output name the same `k`-th connector
      exactly when they agree on the length of the chain. */
  lemma SameLengthSameConnector(hash: Hash, c: Chain, d: Chain, k: nat)
    requires Injective(hash) && NoSelfSpend(hash)
    requires c.utxo == d.utxo && c.spk == d.spk && k < c.len && k < d.len
    ensures Connector(hash, c, k) == Connector(hash, d, k) <==> c.len == d.len
  {
    if c.len < d.len {
      ShorterDisagrees(hash, c, d, k);
    } else if d.len < c.len {
      ShorterDisagrees(hash, d, c, k);
    }
  }
}
