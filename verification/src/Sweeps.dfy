/** The sweeper of expired rounds (server/src/sweeps.rs): the order in which vtxo tree
    outputs and connectors become sweepable, and what a pass collects. One pass sees
    one consistent view of the chain. */
module Sweeps {
  import opened Collections
  import opened Basics
  import opened Connectors
  import opened SweepIndex

  const DEEPLY_CONFIRMED: nat := 100

  // ----- swept trees

  ghost predicate OutputsSwept(x: Scene, tx: TreeTx, n: nat, h: nat) {
    forall i :: 0 <= i < n ==> SweptBefore(x, OutPoint(tx.txid, i), h)
  }

  /** Nothing of the tree is left to take: the tree output while the root is
      unconfirmed, otherwise every output of every confirmed tree transaction,
      was spent by our own sweep at height `h` or before. */
  ghost predicate TreeSwept(x: Scene, round: ExpiredRound, h: nat)
    requires round.Valid()
  {
    if x.v.status(round.Root().txid).Unconfirmed? then SweptBefore(x, TreeOutPoint(round), h)
    else TreeSweptFrom(x, round, 0, h)
  }

  function TreeOutPoint(round: ExpiredRound): OutPoint {
    OutPoint(round.id, ROUND_TX_VTXO_TREE_VOUT)
  }

  /** What `TreeSwept` asks of the tree transactions from index `k` on. */
  ghost predicate TreeSweptFrom(x: Scene, round: ExpiredRound, k: nat, h: nat) {
    forall j :: k <= j < |round.treeTxs| && x.v.status(round.treeTxs[j].txid).Confirmed? ==>
      OutputsSwept(x, round.treeTxs[j], |round.treeTxs[j].outputs|, h)
  }

  lemma SweptLater(x: Scene, round: ExpiredRound, k: nat, g: nat, h: nat)
    requires TreeSweptFrom(x, round, k, g) && g <= h
    ensures TreeSweptFrom(x, round, k, h)
  {
    forall j | k <= j < |round.treeTxs| && x.v.status(round.treeTxs[j].txid).Confirmed?
      ensures OutputsSwept(x, round.treeTxs[j], |round.treeTxs[j].outputs|, h)
    {
      var tx := round.treeTxs[j];
      forall i | 0 <= i < |tx.outputs|
        ensures SweptBefore(x, OutPoint(tx.txid, i), h)
      {
        assert SweptBefore(x, OutPoint(tx.txid, i), g);
      }
    }
  }

  lemma TreeSweptLater(x: Scene, round: ExpiredRound, g: nat, h: nat)
    requires round.Valid() && TreeSwept(x, round, g) && g <= h
    ensures TreeSwept(x, round, h)
  {
    if !x.v.status(round.Root().txid).Unconfirmed? {
      SweptLater(x, round, 0, g, h);
    }
  }

  /** As `TreeSwept`, with the depth counted in confirmations at the tip. */
  ghost predicate DeeplySwept(x: Scene, round: ExpiredRound, tip: nat) {
    round.Valid() && exists h: nat :: tip - h + 1 >= 100 && TreeSwept(x, round, h)
  }

  /** Some output of the transaction is unswept. */
  ghost predicate OutputUnswept(v: View, byUtxo: Index, tx: TreeTx) {
    exists i :: 0 <= i < |tx.outputs| && Unswept(v, byUtxo, OutPoint(tx.txid, i))
  }

  /** Something of the tree is unswept: the counterpart of `TreeSwept`. */
  ghost predicate TreeUnswept(v: View, byUtxo: Index, round: ExpiredRound)
    requires round.Valid()
  {
    if v.status(round.Root().txid).Unconfirmed? then Unswept(v, byUtxo, TreeOutPoint(round))
    else exists k :: 0 <= k < |round.treeTxs| && v.status(round.treeTxs[k].txid).Confirmed?
                     && OutputUnswept(v, byUtxo, round.treeTxs[k])
  }

  /** The index lacks a transaction that the walk asks for. */
  ghost predicate TreeMissing(v: View, round: ExpiredRound)
    requires round.Valid()
  {
    && !v.status(round.Root().txid).Unconfirmed?
    && exists k :: 0 <= k < |round.treeTxs| && v.status(round.treeTxs[k].txid).Missing?
  }

  /** One of our sweeps confirmed only after this height. */
  ghost predicate SweptAfter(x: Scene, h: nat) {
    exists g: nat :: g > h && SweepHeight(x, g)
  }

  /** The running result of a walk: the latest sweep height, or nothing once
      something unswept was met. */
  function Later(ret: Option<nat>, h: nat): Option<nat> {
    if ret.None? then None else if ret.value >= h then ret else Some(h)
  }

  // ----- what the builder collects

  datatype Kind = VtxoSweep | ConnectorSweep | BoardSweep
  datatype SweepInput = SweepInput(point: OutPoint, value: nat, round: ExpiredRound, kind: Kind)

  /** A boarded vtxo: the output it is anchored in and the transaction that exits it. */
  datatype Board = Board(anchor: OutPoint, exitTxid: Txid, amount: nat)
  datatype BoardInput = BoardInput(point: OutPoint, value: nat)

  /** The contents of the builder. */
  datatype Held = Held(sweeps: seq<SweepInput>, boards: seq<BoardInput>)

  /** No connector sweep has been added. */
  ghost predicate NoNewConnector(now: seq<SweepInput>, before: seq<SweepInput>) {
    forall s :: s in now && s.kind.ConnectorSweep? ==> s in before
  }

  /** This sweep is unnecessary because the outpoint is swept, or it is in the builder. */
  ghost predicate TakenCareOf(v: View, byUtxo: Index, sweeps: seq<SweepInput>, s: SweepInput) {
    !Unswept(v, byUtxo, s.point) || s in sweeps
  }

  lemma StaysTakenCareOf(v: View, byUtxo: Index, sweeps: seq<SweepInput>, more: seq<SweepInput>, s: SweepInput)
    requires TakenCareOf(v, byUtxo, sweeps, s) && sweeps <= more
    ensures TakenCareOf(v, byUtxo, more, s)
  {
  }

  // ----- the outputs of one tree transaction

  /** The sweep of the `i`-th output of a tree transaction. */
  ghost function OutputSweep(round: ExpiredRound, tx: TreeTx, i: nat): SweepInput
    requires i < |tx.outputs|
  {
    SweepInput(OutPoint(tx.txid, i), tx.outputs[i].value, round, VtxoSweep)
  }

  ghost predicate IsOutputSweep(round: ExpiredRound, tx: TreeTx, s: SweepInput) {
    exists i: nat :: i < |tx.outputs| && s == OutputSweep(round, tx, i)
  }

  /** Nothing was removed, and what was added are unswept outputs of the transaction. */
  ghost predicate AddsOutputsOf(v: View, byUtxo: Index, round: ExpiredRound, tx: TreeTx,
                                now: seq<SweepInput>, before: seq<SweepInput>) {
    && before <= now
    && forall k :: |before| <= k < |now| ==>
         Unswept(v, byUtxo, now[k].point) && IsOutputSweep(round, tx, now[k])
  }

  /** Each of the first `n` outputs is swept already or in the builder. */
  ghost predicate OutputsTaken(v: View, byUtxo: Index, round: ExpiredRound, tx: TreeTx, n: nat,
                               sweeps: seq<SweepInput>) {
    n <= |tx.outputs| && forall i :: 0 <= i < n ==> TakenCareOf(v, byUtxo, sweeps, OutputSweep(round, tx, i))
  }

  lemma AddUnswept(v: View, byUtxo: Index, round: ExpiredRound, tx: TreeTx,
                   before: seq<SweepInput>, sweeps: seq<SweepInput>, n: nat)
    requires n < |tx.outputs| && Unswept(v, byUtxo, OutPoint(tx.txid, n))
    requires AddsOutputsOf(v, byUtxo, round, tx, sweeps, before) && OutputsTaken(v, byUtxo, round, tx, n, sweeps)
    ensures AddsOutputsOf(v, byUtxo, round, tx, sweeps + [OutputSweep(round, tx, n)], before)
    ensures OutputsTaken(v, byUtxo, round, tx, n + 1, sweeps + [OutputSweep(round, tx, n)])
  {
    var more := sweeps + [OutputSweep(round, tx, n)];
    assert IsOutputSweep(round, tx, more[|sweeps|]);
    forall i | 0 <= i <= n
      ensures TakenCareOf(v, byUtxo, more, OutputSweep(round, tx, i))
    {
      if i < n {
        StaysTakenCareOf(v, byUtxo, sweeps, more, OutputSweep(round, tx, i));
      } else {
        assert more[|sweeps|] in more;
      }
    }
  }

  /** The running result over the first `n` outputs: a height if they are all swept,
      which bounds the heights of their sweeps and is one of them or what the walk
      started with; nothing only if one is unswept or the walk started with nothing. */
  ghost predicate Folded(x: Scene, byUtxo: Index, tx: TreeTx, n: nat, from: Option<nat>, ret: Option<nat>) {
    match ret
    case None => from.None? || OutputUnswept(x.v, byUtxo, tx)
    case Some(h) =>
      && from.Some? && from.value <= h && (n > 0 ==> h > 0)
      && OutputsSwept(x, tx, n, h)
      && (ret == from || SweepHeight(x, h))
  }

  lemma FoldSwept(x: Scene, byUtxo: Index, tx: TreeTx, n: nat, from: Option<nat>, ret: Option<nat>, t: Txid, h: nat)
    requires Folded(x, byUtxo, tx, n, from, ret) && h > 0 && SweptBy(x, OutPoint(tx.txid, n), t, h)
    ensures Folded(x, byUtxo, tx, n + 1, from, Later(ret, h))
  {
    if ret.Some? {
      var top := Later(ret, h).value;
      forall i | 0 <= i <= n
        ensures SweptBefore(x, OutPoint(tx.txid, i), top)
      {
        if i < n {
          assert SweptBefore(x, OutPoint(tx.txid, i), ret.value);
        }
      }
    }
  }

  // ----- the walk down a tree

  /** Of the tree transactions from index `k` on, `m` is the first confirmed one, that
      is the one walked last. */
  ghost predicate LowestConfirmed(v: View, round: ExpiredRound, k: nat, m: nat) {
    && k <= m < |round.treeTxs| && v.status(round.treeTxs[m].txid).Confirmed?
    && forall j :: k <= j < m ==> !v.status(round.treeTxs[j].txid).Confirmed?
  }

  /** Nothing is left in the builder, whatever it was collected for, but sweeps of the
      input and of the unswept outputs of the tree transaction of index `m`; and none
      of those outputs is missing. */
  ghost predicate LeftWith(v: View, byUtxo: Index, round: ExpiredRound, m: nat, held: Held) {
    m < |round.treeTxs| &&
    var tx := round.treeTxs[m];
    && (forall s :: s in held.sweeps ==>
          s.point == tx.input || (Unswept(v, byUtxo, s.point) && IsOutputSweep(round, tx, s)))
    && OutputsTaken(v, byUtxo, round, tx, |tx.outputs|, held.sweeps)
    && (forall b :: b in held.boards ==> b.point == tx.input)
  }

  lemma LeftAfter(v: View, byUtxo: Index, round: ExpiredRound, m: nat, purged: seq<SweepInput>, now: Held)
    requires m < |round.treeTxs|
    requires var tx := round.treeTxs[m];
             && (forall s :: s in purged ==> s.point == tx.input)
             && (forall b :: b in now.boards ==> b.point == tx.input)
             && AddsOutputsOf(v, byUtxo, round, tx, now.sweeps, purged)
             && OutputsTaken(v, byUtxo, round, tx, |tx.outputs|, now.sweeps)
    ensures LeftWith(v, byUtxo, round, m, now)
  {
    var tx := round.treeTxs[m];
    forall s | s in now.sweeps
      ensures s.point == tx.input || (Unswept(v, byUtxo, s.point) && IsOutputSweep(round, tx, s))
    {
      var k :| 0 <= k < |now.sweeps| && now.sweeps[k] == s;
      if k < |purged| {
        assert now.sweeps[k] == purged[k];
      }
    }
  }

  /** The sweep of the whole tree, from the output of the round transaction. */
  ghost function RootSweep(round: ExpiredRound): SweepInput {
    SweepInput(TreeOutPoint(round), round.treeValue, round, VtxoSweep)
  }

  /** What looking at the tree of a round does to the builder. */
  ghost predicate TreeLooked(v: View, byUtxo: Index, round: ExpiredRound, before: Held, after: Held)
    requires round.Valid()
  {
    && NoNewConnector(after.sweeps, before.sweeps)
    && (forall b :: b in after.boards ==> b in before.boards)
    && match v.status(round.Root().txid)
       case Missing => after == before
       case Unconfirmed =>
         && after.sweeps == before.sweeps + (if Unswept(v, byUtxo, TreeOutPoint(round)) then [RootSweep(round)] else [])
         && after.boards == before.boards
       case Confirmed =>
         || TreeMissing(v, round)
         || exists m: nat :: LowestConfirmed(v, round, 0, m) && LeftWith(v, byUtxo, round, m, after)
  }

  datatype Walk = IndexError | Walked(height: Option<nat>)

  /** What the walk down a tree reports. */
  ghost predicate TreeReported(x: Scene, byUtxo: Index, round: ExpiredRound, r: Walk)
    requires round.Valid()
  {
    match r
    case IndexError => TreeMissing(x.v, round)
    case Walked(None) => !TreeMissing(x.v, round) && TreeUnswept(x.v, byUtxo, round)
    case Walked(Some(h)) => !TreeMissing(x.v, round) && TreeSwept(x, round, h) && SweepHeight(x, h)
  }

  // ----- the walk along the connectors

  ghost function ConnectorTxid(v: View, round: ExpiredRound, i: nat): Txid
    requires i + 1 < round.connectors.len
  {
    v.hash(TxAt(v.hash, round.connectors, i))
  }

  ghost function ConnectorOutPoint(v: View, round: ExpiredRound, i: nat): OutPoint
    requires i + 1 < round.connectors.len
  {
    OutPoint(ConnectorTxid(v, round, i), CONNECTOR_VOUT)
  }

  /** The connector transaction is confirmed and the node answers for its connector. */
  ghost predicate Passable(v: View, round: ExpiredRound, i: nat)
    requires i + 1 < round.connectors.len
  {
    v.status(ConnectorTxid(v, round, i)).Confirmed? && !v.txOut(ConnectorOutPoint(v, round, i)).RpcError?
  }

  /** The first `n` connector transactions can be passed. */
  ghost predicate AllConfirmed(v: View, round: ExpiredRound, n: int) {
    forall i: nat :: i < n && i + 1 < round.connectors.len ==> Passable(v, round, i)
  }

  datatype Stop = ChainEnd | NotConfirmed | NodeError

  /** The walk passes `at` transactions and then stops, for this reason. */
  ghost predicate Reached(v: View, round: ExpiredRound, at: nat, stop: Stop) {
    && at < round.connectors.len && AllConfirmed(v, round, at)
    && match stop
       case ChainEnd => at + 1 == round.connectors.len
       case NotConfirmed => at + 1 < round.connectors.len && !v.status(ConnectorTxid(v, round, at)).Confirmed?
       case NodeError =>
         && at + 1 < round.connectors.len && v.status(ConnectorTxid(v, round, at)).Confirmed?
         && v.txOut(ConnectorOutPoint(v, round, at)).RpcError?
  }

  lemma ReachedEnd(v: View, round: ExpiredRound, at: nat, stop: Stop)
    requires Reached(v, round, at, stop)
    ensures stop.ChainEnd? <==> AllConfirmed(v, round, round.connectors.len - 1)
  {
    if !stop.ChainEnd? {
      assert !Passable(v, round, at);
    }
  }

  /** The connector of this transaction is unspent. */
  ghost predicate ConnectorUnspent(v: View, round: ExpiredRound, i: nat) {
    i + 1 < round.connectors.len && v.txOut(ConnectorOutPoint(v, round, i)).Unspent?
  }

  /** The connector of this transaction is unspent, and no sweep of it is confirmed. */
  ghost predicate ToSweep(v: View, byUtxo: Index, round: ExpiredRound, i: nat) {
    ConnectorUnspent(v, round, i) && Unswept(v, byUtxo, ConnectorOutPoint(v, round, i))
  }

  /** None of the first `n` connectors is left to sweep. */
  ghost predicate NothingLeft(v: View, byUtxo: Index, round: ExpiredRound, n: nat) {
    forall i: nat :: i < n ==> !ToSweep(v, byUtxo, round, i)
  }

  /** The sweep of the connector of the `i`-th transaction, as the node values it. */
  ghost function ConnectorInput(v: View, round: ExpiredRound, i: nat): SweepInput
    requires ConnectorUnspent(v, round, i)
  {
    var conn := ConnectorOutPoint(v, round, i);
    SweepInput(conn, v.txOut(conn).value, round, ConnectorSweep)
  }

  /** The sweeps of those of the first `n` connectors that are left to sweep. */
  ghost function NewConnectors(v: View, byUtxo: Index, round: ExpiredRound, n: nat): seq<SweepInput> {
    if n == 0 then []
    else NewConnectors(v, byUtxo, round, n - 1)
         + (if ToSweep(v, byUtxo, round, n - 1) then [ConnectorInput(v, round, n - 1)] else [])
  }

  lemma {:induction false} NewConnectorsExact(v: View, byUtxo: Index, round: ExpiredRound, n: nat)
    ensures NewConnectors(v, byUtxo, round, n) == [] <==> NothingLeft(v, byUtxo, round, n)
    ensures forall s :: s in NewConnectors(v, byUtxo, round, n) <==>
              exists i: nat :: i < n && ToSweep(v, byUtxo, round, i) && s == ConnectorInput(v, round, i)
  {
    if n > 0 {
      NewConnectorsExact(v, byUtxo, round, n - 1);
    }
  }

  /** The sweep of what continues the chain after `i` transactions. */
  ghost function EndInput(v: View, round: ExpiredRound, i: nat): SweepInput
    requires i < round.connectors.len
  {
    SweepInput(Prev(v.hash, round.connectors, i), EndValue(v, round, i), round, ConnectorSweep)
  }

  ghost function EndValue(v: View, round: ExpiredRound, i: nat): nat
    requires i < round.connectors.len
  {
    if i == 0 then round.connectorValue else TxAt(v.hash, round.connectors, i - 1).outputs[CHAIN_VOUT].value
  }

  /** Everything the walk adds: the connectors left to sweep on its way and, if it
      stopped at an unconfirmed transaction, what that would have spent. */
  ghost function Added(v: View, byUtxo: Index, round: ExpiredRound, at: nat, stop: Stop): seq<SweepInput>
    requires at < round.connectors.len
  {
    NewConnectors(v, byUtxo, round, at)
    + if stop.NotConfirmed? && Unswept(v, byUtxo, EndInput(v, round, at).point) then [EndInput(v, round, at)] else []
  }

  /** Exactly which sweeps the walk adds; all are connector sweeps of the round. */
  lemma AddedExact(v: View, byUtxo: Index, round: ExpiredRound, at: nat, stop: Stop)
    requires at < round.connectors.len
    ensures forall s :: s in Added(v, byUtxo, round, at, stop) <==>
              || (exists i: nat :: i < at && ToSweep(v, byUtxo, round, i) && s == ConnectorInput(v, round, i))
              || (stop.NotConfirmed? && s == EndInput(v, round, at)
                  && Unswept(v, byUtxo, Prev(v.hash, round.connectors, at)))
    ensures forall s :: s in Added(v, byUtxo, round, at, stop) ==> s.kind.ConnectorSweep? && s.round == round
  {
    NewConnectorsExact(v, byUtxo, round, at);
  }

  /** Our sweeps spent the unspent ones of the first `n` connectors by height `h`. */
  ghost predicate ConnectorsSwept(x: Scene, round: ExpiredRound, n: nat, h: nat) {
    forall i: nat :: i < n && ConnectorUnspent(x.v, round, i) ==> SweptBefore(x, ConnectorOutPoint(x.v, round, i), h)
  }

  lemma ConnectorsSweptLater(x: Scene, round: ExpiredRound, n: nat, g: nat, h: nat)
    requires ConnectorsSwept(x, round, n, g) && g <= h
    ensures ConnectorsSwept(x, round, n, h)
  {
    forall i: nat | i < n && ConnectorUnspent(x.v, round, i)
      ensures SweptBefore(x, ConnectorOutPoint(x.v, round, i), h)
    {
      assert SweptBefore(x, ConnectorOutPoint(x.v, round, i), g);
    }
  }

  /** The running result after an outpoint was accounted for. */
  ghost predicate Accounted(x: Scene, byUtxo: Index, p: OutPoint, from: Option<nat>, ret: Option<nat>) {
    if Unswept(x.v, byUtxo, p) then ret.None?
    else exists h: nat :: h > 0 && SweepHeight(x, h) && SweptBefore(x, p, h) && ret == Later(from, h)
  }

  /** The running result over the first `n` connectors: nothing if one is left to sweep,
      otherwise a height by which they were swept. */
  ghost predicate Tallied(x: Scene, byUtxo: Index, round: ExpiredRound, n: nat, ret: Option<nat>) {
    match ret
    case None => !NothingLeft(x.v, byUtxo, round, n)
    case Some(h) =>
      NothingLeft(x.v, byUtxo, round, n) && ConnectorsSwept(x, round, n, h) && (h == 0 || SweepHeight(x, h))
  }

  lemma TalliedNext(x: Scene, byUtxo: Index, round: ExpiredRound, n: nat, was: Option<nat>, ret: Option<nat>)
    requires Tallied(x, byUtxo, round, n, was) && n + 1 < round.connectors.len
    requires if ConnectorUnspent(x.v, round, n) then Accounted(x, byUtxo, ConnectorOutPoint(x.v, round, n), was, ret)
             else ret == was
    ensures Tallied(x, byUtxo, round, n + 1, ret)
  {
    if ret.Some? {
      ConnectorsSweptLater(x, round, n, was.value, ret.value);
      if ConnectorUnspent(x.v, round, n) {
        assert SweptBefore(x, ConnectorOutPoint(x.v, round, n), ret.value);
      }
    } else if was.None? {
      var i: nat :| i < n && ToSweep(x.v, byUtxo, round, i);
    } else {
      assert ToSweep(x.v, byUtxo, round, n);
    }
  }

  /** Where the walk along the connectors stands. */
  ghost predicate AlongChain(x: Scene, byUtxo: Index, round: ExpiredRound, start: seq<SweepInput>, at: nat,
                             last: OutPoint, lastValue: nat, ret: Option<nat>, sweeps: seq<SweepInput>) {
    && at < round.connectors.len && AllConfirmed(x.v, round, at)
    && last == Prev(x.v.hash, round.connectors, at) && lastValue == EndValue(x.v, round, at)
    && Tallied(x, byUtxo, round, at, ret)
    && sweeps == start + NewConnectors(x.v, byUtxo, round, at)
  }

  lemma AlongChainNext(x: Scene, byUtxo: Index, round: ExpiredRound, start: seq<SweepInput>, at: nat,
                       last: OutPoint, lastValue: nat, was: Option<nat>, before: seq<SweepInput>,
                       ret: Option<nat>, sweeps: seq<SweepInput>)
    requires AlongChain(x, byUtxo, round, start, at, last, lastValue, was, before)
    requires at + 1 < round.connectors.len && Passable(x.v, round, at)
    requires if ConnectorUnspent(x.v, round, at) then Accounted(x, byUtxo, ConnectorOutPoint(x.v, round, at), was, ret)
             else ret == was
    requires sweeps == before + if ToSweep(x.v, byUtxo, round, at) then [ConnectorInput(x.v, round, at)] else []
    ensures AlongChain(x, byUtxo, round, start, at + 1, OutPoint(ConnectorTxid(x.v, round, at), CHAIN_VOUT),
                       EndValue(x.v, round, at + 1), ret, sweeps)
  {
    TalliedNext(x, byUtxo, round, at, was, ret);
  }

  /** What the walk along the connectors reports: zero at the end of the chain whatever
      was added, nothing if the node failed or something was added, and otherwise a
      height by which all connectors passed and the end of the chain were swept. */
  ghost predicate ConnectorsReported(x: Scene, byUtxo: Index, round: ExpiredRound, at: nat, stop: Stop, r: Option<nat>)
    requires at < round.connectors.len
  {
    match stop
    case ChainEnd => r == Some(0)
    case NodeError => r.None?
    case NotConfirmed =>
      if Added(x.v, byUtxo, round, at, stop) != [] then r.None?
      else r.Some? && r.value > 0 && SweepHeight(x, r.value) && EndSwept(x, round, at, r.value)
  }

  ghost predicate EndSwept(x: Scene, round: ExpiredRound, at: nat, h: nat) {
    && at < round.connectors.len
    && ConnectorsSwept(x, round, at, h) && SweptBefore(x, Prev(x.v.hash, round.connectors, at), h)
  }

  lemma EndSweptLater(x: Scene, round: ExpiredRound, at: nat, g: nat, h: nat)
    requires EndSwept(x, round, at, g) && g <= h
    ensures EndSwept(x, round, at, h)
  {
    ConnectorsSweptLater(x, round, at, g, h);
  }

  lemma EndAccounted(x: Scene, byUtxo: Index, round: ExpiredRound, at: nat, was: Option<nat>, ret: Option<nat>)
    requires Tallied(x, byUtxo, round, at, was) && at < round.connectors.len
    requires Accounted(x, byUtxo, Prev(x.v.hash, round.connectors, at), was, ret)
    ensures ConnectorsReported(x, byUtxo, round, at, NotConfirmed, ret)
  {
    NewConnectorsExact(x.v, byUtxo, round, at);
    if ret.Some? {
      ConnectorsSweptLater(x, round, at, was.value, ret.value);
      assert SweptBefore(x, Prev(x.v.hash, round.connectors, at), ret.value);
    }
  }

  // ----- one round of a pass

  /** How far the processing of a round got in a pass. */
  datatype RoundOutcome = NotIndexed | TreePending | ConnectorsPending | FullySwept

  /** The round waits for its connectors: some were added, or the node failed, or the
      sweeps are not deep enough; and the walk did not get to the end of the chain. */
  ghost predicate ConnectorsWait(x: Scene, byUtxo: Index, round: ExpiredRound, done: nat,
                                 tree: seq<SweepInput>, after: seq<SweepInput>) {
    && !AllConfirmed(x.v, round, round.connectors.len - 1)
    && exists at: nat, stop :: Reached(x.v, round, at, stop) && after == tree + Added(x.v, byUtxo, round, at, stop)
                               && (stop.NodeError? || after != tree || SweptAfter(x, done))
  }

  /** The round counts as swept. If all connector transactions are confirmed this holds
      whatever connectors are left to sweep, which are added all the same; otherwise
      nothing was added, and everything was swept deeply enough. */
  ghost predicate CountsAsSwept(x: Scene, byUtxo: Index, round: ExpiredRound, done: nat,
                                tree: seq<SweepInput>, after: seq<SweepInput>)
    requires round.Valid()
  {
    if AllConfirmed(x.v, round, round.connectors.len - 1)
    then after == tree + NewConnectors(x.v, byUtxo, round, round.connectors.len - 1)
    else after == tree && exists at: nat :: Reached(x.v, round, at, NotConfirmed) && EndSwept(x, round, at, done)
  }

  lemma RoundWaits(x: Scene, byUtxo: Index, round: ExpiredRound, done: nat,
                   tree: seq<SweepInput>, after: seq<SweepInput>, at: nat, stop: Stop, r: Option<nat>)
    requires Reached(x.v, round, at, stop) && ConnectorsReported(x, byUtxo, round, at, stop, r)
    requires after == tree + Added(x.v, byUtxo, round, at, stop) && (r.None? || r.value > done)
    ensures ConnectorsWait(x, byUtxo, round, done, tree, after)
  {
    ReachedEnd(x.v, round, at, stop);
  }

  lemma RoundCounts(x: Scene, byUtxo: Index, round: ExpiredRound, done: nat,
                    tree: seq<SweepInput>, after: seq<SweepInput>, at: nat, stop: Stop, r: Option<nat>)
    requires round.Valid() && Reached(x.v, round, at, stop) && ConnectorsReported(x, byUtxo, round, at, stop, r)
    requires after == tree + Added(x.v, byUtxo, round, at, stop) && r.Some? && r.value <= done
    ensures CountsAsSwept(x, byUtxo, round, done, tree, after)
  {
    ReachedEnd(x.v, round, at, stop);
    if stop.NotConfirmed? {
      EndSweptLater(x, round, at, r.value, done);
    }
  }

  /** What processing a round did: `tree` is the builder after looking at the tree. */
  ghost predicate RoundDone(x: Scene, byUtxo: Index, round: ExpiredRound, done: nat,
                            before: Held, tree: Held, after: Held, outcome: RoundOutcome)
    requires round.Valid()
  {
    && TreeLooked(x.v, byUtxo, round, before, tree)
    && after.boards == tree.boards
    && (outcome.NotIndexed? <==> TreeMissing(x.v, round))
    && match outcome
       case NotIndexed => after.sweeps == tree.sweeps
       case TreePending => after.sweeps == tree.sweeps && (TreeUnswept(x.v, byUtxo, round) || SweptAfter(x, done))
       case ConnectorsPending =>
         TreeSwept(x, round, done) && ConnectorsWait(x, byUtxo, round, done, tree.sweeps, after.sweeps)
       case FullySwept =>
         TreeSwept(x, round, done) && CountsAsSwept(x, byUtxo, round, done, tree.sweeps, after.sweeps)
  }

  /** Connectors enter the builder only after their tree is swept. */
  lemma RoundDoneConnectors(x: Scene, byUtxo: Index, round: ExpiredRound, done: nat,
                            before: Held, tree: Held, after: Held, outcome: RoundOutcome)
    requires round.Valid() && RoundDone(x, byUtxo, round, done, before, tree, after, outcome)
    ensures forall s :: s in after.sweeps && s.kind.ConnectorSweep? && s !in before.sweeps ==>
              s.round == round && TreeSwept(x, round, done)
  {
    if outcome.ConnectorsPending? {
      var at: nat, stop :| Reached(x.v, round, at, stop)
        && after.sweeps == tree.sweeps + Added(x.v, byUtxo, round, at, stop);
      AddedExact(x.v, byUtxo, round, at, stop);
    } else if outcome.FullySwept? {
      NewConnectorsExact(x.v, byUtxo, round, round.connectors.len - 1);
    }
  }

  /** Only a swept round is removed from the index. */
  ghost predicate IndexAfter(v: View, round: ExpiredRound, outcome: RoundOutcome, now: Index, before: Index) {
    if outcome.FullySwept? then Without(now, before, p => RoundPoint(v.hash, round, p)) else now == before
  }

  // ----- all rounds of a pass

  /** The index and the builder between two rounds. */
  datatype Stage = Stage(byUtxo: Index, held: Held)

  ghost function Economical(cost: Kind -> nat, held: Held): Held {
    Held(Kept(Worthwhile(cost), held.sweeps), Kept(BoardWorthwhile(cost), held.boards))
  }

  ghost predicate RoundStep(x: Scene, round: ExpiredRound, done: nat, cost: Kind -> nat,
                            from: Stage, outcome: RoundOutcome, to: Stage) {
    && round.Valid() && IndexAfter(x.v, round, outcome, to.byUtxo, from.byUtxo)
    && exists tree, after :: RoundDone(x, from.byUtxo, round, done, from.held, tree, after, outcome)
                             && to.held == Economical(cost, after)
  }

  /** The stages of a pass over the rounds, and how each of them came out. */
  ghost predicate Passed(x: Scene, rounds: seq<ExpiredRound>, done: nat, cost: Kind -> nat,
                         outcomes: seq<RoundOutcome>, stages: seq<Stage>) {
    && |outcomes| <= |rounds| && |stages| == |outcomes| + 1
    && forall i :: 0 <= i < |outcomes| ==> RoundStep(x, rounds[i], done, cost, stages[i], outcomes[i], stages[i + 1])
  }

  lemma PassedNext(x: Scene, rounds: seq<ExpiredRound>, done: nat, cost: Kind -> nat,
                   outcomes: seq<RoundOutcome>, stages: seq<Stage>, outcome: RoundOutcome, to: Stage)
    requires Passed(x, rounds, done, cost, outcomes, stages) && |outcomes| < |rounds|
    requires RoundStep(x, rounds[|outcomes|], done, cost, stages[|outcomes|], outcome, to)
    ensures Passed(x, rounds, done, cost, outcomes + [outcome], stages + [to])
  {
    var more, next := outcomes + [outcome], stages + [to];
    forall i | 0 <= i < |more|
      ensures RoundStep(x, rounds[i], done, cost, next[i], more[i], next[i + 1])
    {
      if i < |outcomes| {
        assert RoundStep(x, rounds[i], done, cost, stages[i], outcomes[i], stages[i + 1]);
      }
    }
  }

  /** An outpoint of one of the rounds that count as swept. */
  ghost predicate SweptPoint(v: View, rounds: seq<ExpiredRound>, outcomes: seq<RoundOutcome>, p: OutPoint) {
    exists i :: 0 <= i < |outcomes| && i < |rounds| && outcomes[i].FullySwept? && RoundPoint(v.hash, rounds[i], p)
  }

  /** Exactly the outpoints of the rounds that count as swept left the index. */
  ghost predicate RoundsCleared(v: View, rounds: seq<ExpiredRound>, outcomes: seq<RoundOutcome>, now: Index,
                                before: Index) {
    Without(now, before, p => SweptPoint(v, rounds, outcomes, p))
  }

  lemma SweptPointNext(v: View, rounds: seq<ExpiredRound>, outcomes: seq<RoundOutcome>, outcome: RoundOutcome,
                       now: Index, mid: Index, before: Index)
    requires |outcomes| < |rounds| && RoundsCleared(v, rounds, outcomes, mid, before)
    requires IndexAfter(v, rounds[|outcomes|], outcome, now, mid)
    ensures RoundsCleared(v, rounds, outcomes + [outcome], now, before)
  {
    var more := outcomes + [outcome];
    forall p
      ensures SweptPoint(v, rounds, more, p) <==>
                SweptPoint(v, rounds, outcomes, p) || (outcome.FullySwept? && RoundPoint(v.hash, rounds[|outcomes|], p))
    {
      if SweptPoint(v, rounds, outcomes, p) {
        var i :| 0 <= i < |outcomes| && outcomes[i].FullySwept? && RoundPoint(v.hash, rounds[i], p);
        assert more[i] == outcomes[i];
      }
      if outcome.FullySwept? && RoundPoint(v.hash, rounds[|outcomes|], p) {
        assert more[|outcomes|] == outcome;
      }
    }
  }

  // ----- boards

  /** The board is to be swept: its exit is unconfirmed, and so are our sweeps of it. */
  ghost predicate Sweepable(v: View, byUtxo: Index, board: Board) {
    v.status(board.exitTxid).Unconfirmed? && Unswept(v, byUtxo, board.anchor)
  }

  function BoardInputOf(board: Board): BoardInput {
    BoardInput(board.anchor, board.amount)
  }

  /** The user exited, or our sweep of the board is deep enough. */
  ghost predicate Settled(x: Scene, board: Board, done: nat) {
    x.v.status(board.exitTxid).Confirmed? || SweptBefore(x, board.anchor, done)
  }

  /** The board leaves the index: the user exited, or the first confirmed one of the
      sweeps listed for it is deep enough. */
  ghost predicate Forgotten(v: View, byUtxo: Index, board: Board, done: nat) {
    match v.status(board.exitTxid)
    case Missing => false
    case Confirmed => true
    case Unconfirmed => exists t, h: nat :: FirstSweptAt(v, byUtxo, board.anchor, t, h) && h <= done
  }

  /** If all confirmed sweeps of an unexited board are deep enough, and there is one, it
      leaves the index; if none is, it stays. */
  lemma ForgottenByDepth(v: View, byUtxo: Index, board: Board, done: nat)
    requires v.status(board.exitTxid).Unconfirmed?
    ensures (!Unswept(v, byUtxo, board.anchor)
             && forall t :: t in Listed(byUtxo, board.anchor) && v.sweptAt(t).Some? ==> v.sweptAt(t).value <= done) ==>
              Forgotten(v, byUtxo, board, done)
    ensures (forall t :: t in Listed(byUtxo, board.anchor) && v.sweptAt(t).Some? ==> v.sweptAt(t).value > done) ==>
              !Forgotten(v, byUtxo, board, done)
  {
    if !Unswept(v, byUtxo, board.anchor) {
      var t, h := FirstSwept(v, byUtxo, board.anchor);
      assert t in Listed(byUtxo, board.anchor);
    }
  }

  lemma OnlyFirst(v: View, byUtxo: Index, board: Board, done: nat, t: Txid, h: nat)
    requires v.status(board.exitTxid).Unconfirmed? && FirstSweptAt(v, byUtxo, board.anchor, t, h)
    ensures Forgotten(v, byUtxo, board, done) <==> h <= done
  {
    if Forgotten(v, byUtxo, board, done) {
      var u, g: nat :| FirstSweptAt(v, byUtxo, board.anchor, u, g) && g <= done;
      FirstSweptUnique(v, byUtxo, board.anchor, t, h, u, g);
    }
  }

  lemma FirstSwept(v: View, byUtxo: Index, p: OutPoint) returns (t: Txid, h: nat)
    requires !Unswept(v, byUtxo, p)
    ensures FirstSweptAt(v, byUtxo, p, t, h)
  {
    var txs, k := Listed(byUtxo, p), 0;
    while v.sweptAt(txs[k]).None?
      invariant 0 <= k < |txs| && forall j :: 0 <= j < k ==> v.sweptAt(txs[j]).None?
      invariant exists j :: k <= j < |txs| && v.sweptAt(txs[j]).Some?
      decreases |txs| - k
    {
      k := k + 1;
    }
    t, h := txs[k], v.sweptAt(txs[k]).value;
  }

  ghost predicate DistinctAnchors(boards: seq<Board>) {
    forall i, j :: 0 <= i < j < |boards| ==> boards[i].anchor != boards[j].anchor
  }

  /** The outpoint anchors one of the first `n` boards, which leaves the index. */
  ghost predicate ForgottenAnchor(v: View, byUtxo: Index, boards: seq<Board>, done: nat, n: nat, p: OutPoint) {
    exists i :: 0 <= i < n && i < |boards| && boards[i].anchor == p && Forgotten(v, byUtxo, boards[i], done)
  }

  /** Exactly the anchors of those of the first `n` boards left the index that were to
      leave it before the pass. */
  ghost predicate BoardsCleared(v: View, boards: seq<Board>, done: nat, n: nat, now: Index, before: Index) {
    && n <= |boards|
    && (forall p :: p in now <==> p in before && !ForgottenAnchor(v, before, boards, done, n, p))
    && (forall p :: p in now ==> now[p] == before[p])
  }

  lemma ForgottenSame(v: View, a: Index, b: Index, board: Board, done: nat)
    requires Listed(a, board.anchor) == Listed(b, board.anchor)
    ensures Forgotten(v, a, board, done) <==> Forgotten(v, b, board, done)
  {
    forall t, h: nat
      ensures FirstSweptAt(v, a, board.anchor, t, h) <==> FirstSweptAt(v, b, board.anchor, t, h)
    {
    }
  }

  lemma BoardsClearedNext(v: View, boards: seq<Board>, done: nat, n: nat, now: Index, mid: Index, before: Index)
    requires BoardsCleared(v, boards, done, n, mid, before) && n < |boards|
    requires now == if Forgotten(v, mid, boards[n], done) then mid - {boards[n].anchor} else mid
    ensures BoardsCleared(v, boards, done, n + 1, now, before)
  {
    var a := boards[n].anchor;
    if a in mid {
      ForgottenSame(v, mid, before, boards[n], done);
    }
    forall p
      ensures p in now <==> p in before && !ForgottenAnchor(v, before, boards, done, n + 1, p)
    {
      if p == a && a in mid && Forgotten(v, before, boards[n], done) {
        assert ForgottenAnchor(v, before, boards, done, n + 1, p);
      }
    }
  }

  /** The board is among the first `n`, to be swept as the index stood before the pass or
      stands now, and worth its cost. */
  ghost predicate Chosen(v: View, byUtxo: Index, boards: seq<Board>, cost: Kind -> nat, n: nat, b: BoardInput) {
    exists i :: 0 <= i < n && i < |boards| && b.point == boards[i].anchor && b.value == boards[i].amount
                && Sweepable(v, byUtxo, boards[i]) && b.value >= cost(BoardSweep)
  }

  /** Everything held is a board to be swept as this index stands, and worth its cost. */
  ghost predicate HeldChosen(v: View, byUtxo: Index, boards: seq<Board>, cost: Kind -> nat, n: nat,
                             held: seq<BoardInput>) {
    forall b :: b in held ==> Chosen(v, byUtxo, boards, cost, n, b)
  }

  /** All boards to be swept before the pass are in the builder if worth their cost, and
      all that are in the builder are still to be swept now; if no two boards share an
      anchor, they were to be swept before. */
  ghost predicate BoardsChosen(v: View, boards: seq<Board>, cost: Kind -> nat, n: nat,
                               now: Index, before: Index, held: seq<BoardInput>) {
    && (forall b :: Chosen(v, before, boards, cost, n, b) ==> b in held)
    && HeldChosen(v, now, boards, cost, n, held)
    && (DistinctAnchors(boards) ==> HeldChosen(v, before, boards, cost, n, held))
  }

  /** The board inputs after one more board was looked at and the builder was purged. */
  ghost function BoardsNext(v: View, byUtxo: Index, board: Board, cost: Kind -> nat,
                            held: seq<BoardInput>): seq<BoardInput> {
    Kept(BoardWorthwhile(cost), held + if Sweepable(v, byUtxo, board) then [BoardInputOf(board)] else [])
  }

  lemma HeldChosenNext(v: View, boards: seq<Board>, cost: Kind -> nat, n: nat, from: Index, to: Index,
                       byUtxo: Index, held: seq<BoardInput>)
    requires n < |boards| && HeldChosen(v, from, boards, cost, n, held)
    requires forall i :: 0 <= i < n && Sweepable(v, from, boards[i]) ==> Sweepable(v, to, boards[i])
    requires Sweepable(v, byUtxo, boards[n]) ==> Sweepable(v, to, boards[n])
    ensures HeldChosen(v, to, boards, cost, n + 1, BoardsNext(v, byUtxo, boards[n], cost, held))
  {
    var added := if Sweepable(v, byUtxo, boards[n]) then [BoardInputOf(boards[n])] else [];
    KeptMembers(BoardWorthwhile(cost), held + added);
    forall b | b in BoardsNext(v, byUtxo, boards[n], cost, held)
      ensures Chosen(v, to, boards, cost, n + 1, b)
    {
      if b in held {
        var i :| 0 <= i < n && b == BoardInputOf(boards[i]) && Sweepable(v, from, boards[i]);
        assert Sweepable(v, to, boards[i]);
      } else {
        assert Sweepable(v, to, boards[n]);
      }
    }
  }

  lemma ChosenHeldNext(v: View, boards: seq<Board>, cost: Kind -> nat, n: nat, before: Index,
                       byUtxo: Index, held: seq<BoardInput>, b: BoardInput)
    requires n < |boards| && (Chosen(v, before, boards, cost, n, b) ==> b in held)
    requires Sweepable(v, before, boards[n]) ==> Sweepable(v, byUtxo, boards[n])
    requires Chosen(v, before, boards, cost, n + 1, b)
    ensures b in BoardsNext(v, byUtxo, boards[n], cost, held)
  {
    var added := if Sweepable(v, byUtxo, boards[n]) then [BoardInputOf(boards[n])] else [];
    KeptMembers(BoardWorthwhile(cost), held + added);
  }

  lemma BoardsChosenNext(v: View, boards: seq<Board>, done: nat, cost: Kind -> nat, n: nat,
                         now: Index, mid: Index, before: Index, held: seq<BoardInput>)
    requires n < |boards| && BoardsChosen(v, boards, cost, n, mid, before, held)
    requires BoardsCleared(v, boards, done, n, mid, before)
    requires now == mid || now == mid - {boards[n].anchor}
    ensures BoardsChosen(v, boards, cost, n + 1, now, before, BoardsNext(v, mid, boards[n], cost, held))
  {
    forall b | Chosen(v, before, boards, cost, n + 1, b)
      ensures b in BoardsNext(v, mid, boards[n], cost, held)
    {
      ChosenHeldNext(v, boards, cost, n, before, mid, held, b);
    }
    HeldChosenNext(v, boards, cost, n, mid, now, mid, held);
    if DistinctAnchors(boards) {
      assert Listed(mid, boards[n].anchor) == Listed(before, boards[n].anchor);
      HeldChosenNext(v, boards, cost, n, before, before, mid, held);
    }
  }

  // ----- what is worth sweeping

  function SweepOf(p: OutPoint): SweepInput -> bool {
    (s: SweepInput) => s.point == p
  }

  function BoardSweepOf(p: OutPoint): BoardInput -> bool {
    (b: BoardInput) => b.point == p
  }

  /** What sweeping an input brings in after its fee. */
  function Gain(cost: Kind -> nat): SweepInput -> int {
    (s: SweepInput) => s.value - cost(s.kind)
  }

  function BoardGain(cost: Kind -> nat): BoardInput -> int {
    (b: BoardInput) => b.value - cost(BoardSweep)
  }

  function Worthwhile(cost: Kind -> nat): SweepInput -> bool {
    (s: SweepInput) => s.value >= cost(s.kind)
  }

  function BoardWorthwhile(cost: Kind -> nat): BoardInput -> bool {
    (b: BoardInput) => b.value >= cost(BoardSweep)
  }

  ghost function Surplus<T>(gain: T -> int, ss: seq<T>): nat {
    if ss == [] then 0 else (if gain(ss[0]) >= 0 then gain(ss[0]) else 0) + Surplus(gain, ss[1..])
  }

  method SumSurplus<T>(gain: T -> int, ss: seq<T>) returns (n: nat)
    ensures n == Surplus(gain, ss)
  {
    n := 0;
    assert ss[0..] == ss;
    for i := 0 to |ss|
      invariant n + Surplus(gain, ss[i..]) == Surplus(gain, ss)
    {
      assert ss[i..][1..] == ss[i + 1..];
      n := n + if gain(ss[i]) >= 0 then gain(ss[i]) else 0;
    }
  }

  ghost function Net<T>(gain: T -> int, ss: seq<T>): int {
    if ss == [] then 0 else gain(ss[0]) + Net(gain, ss[1..])
  }

  /** Purging leaves the surplus as it is, and afterwards the surplus is what the
      inputs are worth minus what spending them costs. */
  lemma {:induction false} PurgeKeepsSurplus<T>(gain: T -> int, keep: T -> bool, ss: seq<T>)
    requires forall s :: keep(s) <==> gain(s) >= 0
    ensures Surplus(gain, Kept(keep, ss)) == Surplus(gain, ss)
    ensures Surplus(gain, ss) == Net(gain, Kept(keep, ss))
  {
    if ss != [] {
      PurgeKeepsSurplus(gain, keep, ss[1..]);
      if keep(ss[0]) {
        assert Kept(keep, ss)[1..] == Kept(keep, ss[1..]);
      } else {
        assert Kept(keep, ss) == Kept(keep, ss[1..]);
      }
    }
  }

  /** What the sweeps are worth, and what spending them costs. */
  ghost function ValueOf(ss: seq<SweepInput>): nat {
    if ss == [] then 0 else ss[0].value + ValueOf(ss[1..])
  }

  ghost function CostOf(cost: Kind -> nat, ss: seq<SweepInput>): nat {
    if ss == [] then 0 else cost(ss[0].kind) + CostOf(cost, ss[1..])
  }

  ghost function BoardValueOf(bs: seq<BoardInput>): nat {
    if bs == [] then 0 else bs[0].value + BoardValueOf(bs[1..])
  }

  /** The surplus is the value minus the cost of the sweeps worth their cost. */
  lemma {:induction false} SurplusExact(cost: Kind -> nat, ss: seq<SweepInput>)
    ensures var kept := Kept(Worthwhile(cost), ss); Surplus(Gain(cost), ss) == ValueOf(kept) - CostOf(cost, kept)
  {
    if ss != [] {
      SurplusExact(cost, ss[1..]);
      var kept := Kept(Worthwhile(cost), ss);
      if ss[0].value >= cost(ss[0].kind) {
        assert kept[0] == ss[0] && kept[1..] == Kept(Worthwhile(cost), ss[1..]);
      } else {
        assert kept == Kept(Worthwhile(cost), ss[1..]);
      }
    }
  }

  lemma {:induction false} BoardSurplusExact(cost: Kind -> nat, bs: seq<BoardInput>)
    ensures var kept := Kept(BoardWorthwhile(cost), bs);
            Surplus(BoardGain(cost), bs) == BoardValueOf(kept) - cost(BoardSweep) * |kept|
  {
    if bs != [] {
      BoardSurplusExact(cost, bs[1..]);
      var kept, rest := Kept(BoardWorthwhile(cost), bs), Kept(BoardWorthwhile(cost), bs[1..]);
      if bs[0].value >= cost(BoardSweep) {
        assert kept[0] == bs[0] && kept[1..] == rest;
        OneMore(cost(BoardSweep), |rest|);
      } else {
        assert kept == rest;
      }
    }
  }

  // ----- what a sweep of each kind spends

  /** Every sweep names an output of the round and its value: of the round transaction, of
      a tree transaction, or of the connector chain if that was funded as required. */
  lemma SweepsSpendOutputs(v: View, round: ExpiredRound)
    requires round.Valid()
    ensures RootSweep(round) == SweepInput(OutPoint(round.id, 0), round.treeValue, round, VtxoSweep)
    ensures forall k, i: nat :: 0 <= k < |round.treeTxs| && i < |round.treeTxs[k].outputs| ==>
              var s := OutputSweep(round, round.treeTxs[k], i);
              && s.point == OutPoint(round.treeTxs[k].txid, i) && s.value == round.treeTxs[k].outputs[i].value
              && s.round == round && s.kind == VtxoSweep
    ensures forall i: nat :: ConnectorUnspent(v, round, i) ==>
              var s := ConnectorInput(v, round, i);
              && s.point == Connector(v.hash, round.connectors, i) && v.txOut(s.point) == Unspent(s.value)
              && s.round == round && s.kind == ConnectorSweep
    ensures round.connectorValue == RequiredBudget(round.connectors.len) ==>
              forall i: nat :: i < round.connectors.len ==>
                var s := EndInput(v, round, i);
                && HasOutput(v.hash, round.connectors, s.point, TxOut(round.connectors.spk, s.value))
                && s.point == Prev(v.hash, round.connectors, i) && s.round == round && s.kind == ConnectorSweep
  {
    if round.connectorValue == RequiredBudget(round.connectors.len) {
      forall i: nat | i < round.connectors.len
        ensures var s := EndInput(v, round, i);
                HasOutput(v.hash, round.connectors, s.point, TxOut(round.connectors.spk, s.value))
      {
        EndHasOutput(v, round, i);
      }
    }
  }

  lemma EndHasOutput(v: View, round: ExpiredRound, i: nat)
    requires i < round.connectors.len && round.connectorValue == RequiredBudget(round.connectors.len)
    ensures var s := EndInput(v, round, i);
            HasOutput(v.hash, round.connectors, s.point, TxOut(round.connectors.spk, s.value))
  {
    var s := EndInput(v, round, i);
    if i > 0 {
      ChainLayout(v.hash, round.connectors, i - 1);
      assert OutputFrom(v.hash, round.connectors, s.point, i - 1, TxOut(round.connectors.spk, s.value));
    }
  }

  /** Every outpoint a pass asks about for a round is forgotten with the round. */
  lemma AskedPointsForgotten(v: View, round: ExpiredRound)
    requires round.Valid()
    ensures RoundPoint(v.hash, round, OutPoint(round.id, 0))
    ensures forall k, i: nat :: 0 <= k < |round.treeTxs| && i < |round.treeTxs[k].outputs| ==>
              RoundPoint(v.hash, round, OutPoint(round.treeTxs[k].txid, i))
    ensures forall i: nat :: i < round.connectors.len ==>
              RoundPoint(v.hash, round, Prev(v.hash, round.connectors, i))
    ensures forall i: nat :: i < round.connectors.len ==>
              RoundPoint(v.hash, round, Connector(v.hash, round.connectors, i))
  {
    forall k, i: nat | 0 <= k < |round.treeTxs| && i < |round.treeTxs[k].outputs|
      ensures RoundPoint(v.hash, round, OutPoint(round.treeTxs[k].txid, i))
    {
      assert OutputOf(round.treeTxs[k].txid, |round.treeTxs[k].outputs|, OutPoint(round.treeTxs[k].txid, i));
    }
    forall i: nat | i < round.connectors.len
      ensures RoundPoint(v.hash, round, Prev(v.hash, round.connectors, i))
    {
      if i > 0 {
        assert OutputOf(v.hash(TxAt(v.hash, round.connectors, i - 1)), 3, Prev(v.hash, round.connectors, i));
      }
    }
    forall i: nat | i < round.connectors.len
      ensures RoundPoint(v.hash, round, Connector(v.hash, round.connectors, i))
    {
      if i + 1 < round.connectors.len {
        assert OutputOf(v.hash(TxAt(v.hash, round.connectors, i)), 3, Connector(v.hash, round.connectors, i));
      }
    }
  }

  class SweepBuilder {
    const sweeper: Process
    var sweeps: seq<SweepInput>
    var boardSweeps: seq<BoardInput>

    ghost function Contents(): Held
      reads this
    {
      Held(sweeps, boardSweeps)
    }

    ghost function Now(): Stage
      reads this, sweeper
    {
      Stage(sweeper.byUtxo, Contents())
    }

    constructor (sweeper: Process)
      ensures this.sweeper == sweeper && sweeps == [] && boardSweeps == []
    {
      this.sweeper := sweeper;
      sweeps, boardSweeps := [], [];
    }

    /** As written in the source: keeps the sweeps of the given outpoint. */
    method PurgeSweeps(p: OutPoint)
      modifies this
      ensures sweeps == Kept(SweepOf(p), old(sweeps)) && boardSweeps == Kept(BoardSweepOf(p), old(boardSweeps))
      ensures forall s :: s in sweeps <==> s in old(sweeps) && s.point == p
      ensures forall b :: b in boardSweeps <==> b in old(boardSweeps) && b.point == p
    {
      KeptMembers(SweepOf(p), sweeps);
      KeptMembers(BoardSweepOf(p), boardSweeps);
      sweeps := Retain(SweepOf(p), sweeps);
      boardSweeps := Retain(BoardSweepOf(p), boardSweeps);
    }

    /** The walk over the outputs of one confirmed tree transaction. */
    method ProcessOutputs(round: ExpiredRound, tx: TreeTx, v: View, from: Option<nat>) returns (ret: Option<nat>)
      requires sweeper.Valid() && Heights(v)
      modifies this`sweeps
      ensures NoNewConnector(sweeps, old(sweeps))
      ensures Folded(sweeper.At(v), sweeper.byUtxo, tx, |tx.outputs|, from, ret)
      ensures AddsOutputsOf(v, sweeper.byUtxo, round, tx, sweeps, old(sweeps))
      ensures OutputsTaken(v, sweeper.byUtxo, round, tx, |tx.outputs|, sweeps)
    {
      ret := from;
      for i := 0 to |tx.outputs|
        invariant NoNewConnector(sweeps, old(sweeps))
        invariant Folded(sweeper.At(v), sweeper.byUtxo, tx, i, from, ret)
        invariant AddsOutputsOf(v, sweeper.byUtxo, round, tx, sweeps, old(sweeps))
        invariant OutputsTaken(v, sweeper.byUtxo, round, tx, i, sweeps)
      {
        var point := OutPoint(tx.txid, i);
        var swept := sweeper.IsSwept(point, v);
        if swept.Some? {
          FoldSwept(sweeper.At(v), sweeper.byUtxo, tx, i, from, ret, swept.value.1, swept.value.0);
          ret := Later(ret, swept.value.0);
        } else {
          AddUnswept(v, sweeper.byUtxo, round, tx, old(sweeps), sweeps, i);
          sweeps := sweeps + [SweepInput(point, tx.outputs[i].value, round, VtxoSweep)];
          ret := None;
        }
      }
    }

    /** One confirmed tree transaction: purges, then adds its unswept outputs. */
    method ProcessTreeTx(round: ExpiredRound, k: nat, v: View, from: Option<nat>) returns (ret: Option<nat>)
      requires sweeper.Valid() && Heights(v) && k < |round.treeTxs|
      modifies this
      ensures NoNewConnector(sweeps, old(sweeps))
      ensures forall b :: b in boardSweeps ==> b in old(boardSweeps)
      ensures LeftWith(v, sweeper.byUtxo, round, k, Contents())
      ensures var tx := round.treeTxs[k]; Folded(sweeper.At(v), sweeper.byUtxo, tx, |tx.outputs|, from, ret)
    {
      var tx := round.treeTxs[k];
      PurgeSweeps(tx.input);
      ghost var purged := sweeps;
      ret := ProcessOutputs(round, tx, v, from);
      LeftAfter(v, sweeper.byUtxo, round, k, purged, Contents());
    }

    /** The walk down a tree whose root is confirmed. */
    method WalkTree(round: ExpiredRound, v: View) returns (r: Walk)
      requires sweeper.Valid() && round.Valid() && Heights(v) && v.status(round.Root().txid).Confirmed?
      modifies this
      ensures TreeLooked(v, sweeper.byUtxo, round, old(Contents()), Contents())
      ensures TreeReported(sweeper.At(v), sweeper.byUtxo, round, r)
    {
      ghost var x := sweeper.At(v);
      var ret: Option<nat> := Some(0);
      var k := |round.treeTxs|;
      ghost var m: nat := k;
      while k > 0
        invariant 0 <= k <= |round.treeTxs|
        invariant k < |round.treeTxs| ==>
                    LowestConfirmed(v, round, k, m) && LeftWith(v, sweeper.byUtxo, round, m, Contents())
        invariant NoNewConnector(sweeps, old(sweeps))
        invariant forall b :: b in boardSweeps ==> b in old(boardSweeps)
        invariant ret.Some? ==> TreeSweptFrom(x, round, k, ret.value)
        invariant k < |round.treeTxs| ==> ret != Some(0)
        invariant ret.None? || ret == Some(0) || SweepHeight(x, ret.value)
        invariant ret.None? ==> TreeUnswept(v, sweeper.byUtxo, round)
        invariant forall j :: k <= j < |round.treeTxs| ==> !v.status(round.treeTxs[j].txid).Missing?
      {
        k := k - 1;
        var tx := round.treeTxs[k];
        if v.status(tx.txid).Missing? {
          return IndexError;
        }
        if v.status(tx.txid).Confirmed? {
          m := k;
          var next := ProcessTreeTx(round, k, v, ret);
          if next.Some? {
            SweptLater(x, round, k + 1, ret.value, next.value);
          }
          ret := next;
        }
      }
      assert ret != Some(0);  // the source asserts this
      assert LowestConfirmed(v, round, 0, m);
      r := Walked(ret);
    }

    /** The latest height at which something of the tree was swept, or nothing if
        something is still unswept, which is then added to the builder. */
    method ProcessVtxos(round: ExpiredRound, v: View) returns (r: Walk)
      requires sweeper.Valid() && round.Valid() && Heights(v)
      modifies this
      ensures TreeLooked(v, sweeper.byUtxo, round, old(Contents()), Contents())
      ensures TreeReported(sweeper.At(v), sweeper.byUtxo, round, r)
    {
      match v.status(round.Root().txid) {
        case Missing => r := IndexError;
        case Confirmed => r := WalkTree(round, v);
        case Unconfirmed =>
          var swept := sweeper.IsSwept(TreeOutPoint(round), v);
          if swept.Some? {
            r := Walked(Some(swept.value.0));
          } else {
            sweeps := sweeps + [SweepInput(TreeOutPoint(round), round.treeValue, round, VtxoSweep)];
            r := Walked(None);
          }
      }
    }

    /** Accounts for one connector outpoint: its sweep height, or a new sweep of it. */
    method SweepConnector(round: ExpiredRound, p: OutPoint, value: nat, v: View, from: Option<nat>)
      returns (ret: Option<nat>)
      requires sweeper.Valid() && Heights(v)
      modifies this`sweeps
      ensures Accounted(sweeper.At(v), sweeper.byUtxo, p, from, ret)
      ensures sweeps == old(sweeps)
                + if Unswept(v, sweeper.byUtxo, p) then [SweepInput(p, value, round, ConnectorSweep)] else []
    {
      var swept := sweeper.IsSwept(p, v);
      if swept.Some? {
        assert SweepHeight(sweeper.At(v), swept.value.0) && SweptBefore(sweeper.At(v), p, swept.value.0);
        ret := Later(from, swept.value.0);
      } else {
        sweeps := sweeps + [SweepInput(p, value, round, ConnectorSweep)];
        ret := None;
      }
    }

    /** Passes one confirmed connector transaction, sweeping its connector if unspent. */
    method PassConnector(round: ExpiredRound, conn: OutPoint, answer: TxOutAnswer, v: View, from: Option<nat>,
                         ghost start: seq<SweepInput>, ghost at: nat, ghost last: OutPoint, ghost lastValue: nat)
      returns (ret: Option<nat>)
      requires sweeper.Valid() && Heights(v)
      requires AlongChain(sweeper.At(v), sweeper.byUtxo, round, start, at, last, lastValue, from, sweeps)
      requires at + 1 < round.connectors.len && Passable(v, round, at)
      requires conn == ConnectorOutPoint(v, round, at) && answer == v.txOut(conn)
      modifies this`sweeps
      ensures AlongChain(sweeper.At(v), sweeper.byUtxo, round, start, at + 1, OutPoint(conn.txid, CHAIN_VOUT),
                         EndValue(v, round, at + 1), ret, sweeps)
    {
      ret := from;
      ghost var before := sweeps;
      if answer.Unspent? {
        ret := SweepConnector(round, conn, answer.value, v, from);
      }
      AlongChainNext(sweeper.At(v), sweeper.byUtxo, round, start, at, last, lastValue, from, before, ret, sweeps);
    }

    /** Walks the confirmed connector transactions, sweeping their unspent connectors. */
    method WalkConnectors(round: ExpiredRound, v: View)
      returns (stop: Stop, last: OutPoint, lastValue: nat, ret: Option<nat>, ghost at: nat)
      requires sweeper.Valid() && round.Valid() && Heights(v)
      modifies this`sweeps
      ensures Reached(v, round, at, stop)
      ensures AlongChain(sweeper.At(v), sweeper.byUtxo, round, old(sweeps), at, last, lastValue, ret, sweeps)
    {
      ghost var x := sweeper.At(v);
      var txs := new ConnectorTxIter(v.hash, round.connectors, None);
      last, lastValue, ret, at := OutPoint(round.id, ROUND_TX_CONNECTOR_VOUT), round.connectorValue, Some(0), 0;
      while true
        invariant txs.Valid() && fresh(txs) && txs.hash == v.hash && txs.chain == round.connectors && txs.signKey.None?
        invariant at == txs.idx
        invariant AlongChain(x, sweeper.byUtxo, round, old(sweeps), at, last, lastValue, ret, sweeps)
        decreases round.connectors.len - txs.idx
      {
        var tx := txs.Next((_, _, _) => 0);
        if tx.None? {
          stop := ChainEnd;
          return;
        }
        assert Stripped(tx.value) == tx.value;
        var txid := ComputeTxid(v.hash, tx.value);
        var conn := OutPoint(txid, CONNECTOR_VOUT);
        if !v.status(txid).Confirmed? {
          stop := NotConfirmed;
          return;
        }
        var answer := v.txOut(conn);
        if answer.RpcError? {
          stop := NodeError;
          return;
        }
        ret := PassConnector(round, conn, answer, v, ret, old(sweeps), at, last, lastValue);
        last, lastValue, at := OutPoint(txid, CHAIN_VOUT), tx.value.outputs[CHAIN_VOUT].value, at + 1;
      }
    }

    /** Sweeps the unspent connectors and the end of the confirmed part of the chain. A
        positive height means that nothing was added. If every connector transaction is
        confirmed it reports zero, and then something was added exactly if an unspent
        connector is unswept. */
    method ProcessConnectors(round: ExpiredRound, v: View) returns (r: Option<nat>, ghost at: nat, ghost stop: Stop)
      requires sweeper.Valid() && round.Valid() && Heights(v)
      modifies this`sweeps
      ensures Reached(v, round, at, stop) && ConnectorsReported(sweeper.At(v), sweeper.byUtxo, round, at, stop, r)
      ensures sweeps == old(sweeps) + Added(v, sweeper.byUtxo, round, at, stop)
      ensures r == Some(0) <==> AllConfirmed(v, round, round.connectors.len - 1)
      ensures r.Some? && r.value > 0 ==> sweeps == old(sweeps)
      ensures r == Some(0) ==>
                (sweeps == old(sweeps) <==> NothingLeft(v, sweeper.byUtxo, round, round.connectors.len - 1))
    {
      var why, last, lastValue, ret;
      why, last, lastValue, ret, at := WalkConnectors(round, v);
      stop := why;
      ReachedEnd(v, round, at, stop);
      NewConnectorsExact(v, sweeper.byUtxo, round, at);
      match why {
        case ChainEnd => r := Some(0);
        case NodeError => r := None;
        case NotConfirmed =>
          r := SweepConnector(round, last, lastValue, v, ret);
          EndAccounted(sweeper.At(v), sweeper.byUtxo, round, at, ret, r);
          assert r != Some(0);  // the source asserts this
      }
    }

    /** Connectors of a round are only touched once its tree is swept deeply enough. */
    method ProcessRound(round: ExpiredRound, v: View, doneHeight: nat) returns (outcome: RoundOutcome, ghost tree: Held)
      requires sweeper.Valid() && round.Valid() && Heights(v)
      modifies this, sweeper`byUtxo
      ensures sweeper.Valid()
      ensures RoundDone(sweeper.At(v), old(sweeper.byUtxo), round, doneHeight,
                        old(Contents()), tree, Contents(), outcome)
      ensures IndexAfter(v, round, outcome, sweeper.byUtxo, old(sweeper.byUtxo))
    {
      ghost var x, byUtxo := sweeper.At(v), sweeper.byUtxo;
      var vtxosDone := ProcessVtxos(round, v);
      tree := Contents();
      if vtxosDone.IndexError? {
        return NotIndexed, tree;
      }
      if vtxosDone.height.None? || vtxosDone.height.value > doneHeight {
        return TreePending, tree;
      }
      TreeSweptLater(x, round, vtxosDone.height.value, doneHeight);
      var connectorsDone;
      ghost var at, stop;
      connectorsDone, at, stop := ProcessConnectors(round, v);
      if connectorsDone.None? || connectorsDone.value > doneHeight {
        RoundWaits(x, byUtxo, round, doneHeight, tree.sweeps, sweeps, at, stop, connectorsDone);
        return ConnectorsPending, tree;
      }
      RoundCounts(x, byUtxo, round, doneHeight, tree.sweeps, sweeps, at, stop, connectorsDone);
      sweeper.RoundFinished(round, v.hash);
      outcome := FullySwept;
    }

    /** Keeps the sweeps that are worth what they cost to spend, which does not change
        what can be gained. */
    method PurgeUneconomical(cost: Kind -> nat)
      modifies this
      ensures Contents() == Economical(cost, old(Contents()))
      ensures forall s :: s in sweeps <==> s in old(sweeps) && s.value >= cost(s.kind)
      ensures forall b :: b in boardSweeps <==> b in old(boardSweeps) && b.value >= cost(BoardSweep)
      ensures Surplus(Gain(cost), sweeps) == Surplus(Gain(cost), old(sweeps))
      ensures Surplus(BoardGain(cost), boardSweeps) == Surplus(BoardGain(cost), old(boardSweeps))
    {
      PurgeKeepsSurplus(Gain(cost), Worthwhile(cost), sweeps);
      PurgeKeepsSurplus(BoardGain(cost), BoardWorthwhile(cost), boardSweeps);
      KeptMembers(Worthwhile(cost), sweeps);
      KeptMembers(BoardWorthwhile(cost), boardSweeps);
      sweeps := Retain(Worthwhile(cost), sweeps);
      boardSweeps := Retain(BoardWorthwhile(cost), boardSweeps);
    }

    method TotalSurplus(cost: Kind -> nat) returns (n: nat)
      ensures n == Surplus(BoardGain(cost), boardSweeps) + Surplus(Gain(cost), sweeps)
    {
      var boards := SumSurplus(BoardGain(cost), boardSweeps);
      var rounds := SumSurplus(Gain(cost), sweeps);
      n := boards + rounds;
    }

    /** All rounds of a pass, one after the other. Every connector in the builder belongs
        to a round whose tree our own sweeps spent with at least `DEEPLY_CONFIRMED`
        confirmations, and exactly the outpoints of the rounds that count as swept leave
        the index. */
    method ProcessRounds(rounds: seq<ExpiredRound>, v: View, tip: nat, cost: Kind -> nat)
      returns (outcomes: seq<RoundOutcome>, ghost stages: seq<Stage>)
      requires sweeper.Valid() && Heights(v) && sweeps == [] && boardSweeps == [] && tip >= DEEPLY_CONFIRMED
      requires forall round :: round in rounds ==> round.Valid()
      modifies this, sweeper`byUtxo
      ensures sweeper.Valid() && boardSweeps == []
      ensures |outcomes| == |rounds|
      ensures Passed(sweeper.At(v), rounds, tip - DEEPLY_CONFIRMED + 1, cost, outcomes, stages)
      ensures stages[0] == old(Now()) && stages[|rounds|] == Now()
      ensures RoundsCleared(v, rounds, outcomes, sweeper.byUtxo, old(sweeper.byUtxo))
      ensures ConnectorsDeep(sweeper.At(v), rounds, tip, sweeps)
    {
      var doneHeight := tip - DEEPLY_CONFIRMED + 1;
      ghost var x := sweeper.At(v);
      outcomes, stages := [], [Now()];
      for i := 0 to |rounds|
        invariant sweeper.Valid() && boardSweeps == [] && |outcomes| == i
        invariant Passed(x, rounds, doneHeight, cost, outcomes, stages)
        invariant stages[0] == old(Now()) && stages[i] == Now()
        invariant RoundsCleared(v, rounds, outcomes, sweeper.byUtxo, old(sweeper.byUtxo))
        invariant ConnectorsDeep(x, rounds, tip, sweeps)
      {
        var outcome := OneRound(rounds, i, v, doneHeight, tip, cost);
        PassedNext(x, rounds, doneHeight, cost, outcomes, stages, outcome, Now());
        SweptPointNext(v, rounds, outcomes, outcome, sweeper.byUtxo, stages[i].byUtxo, old(sweeper.byUtxo));
        outcomes, stages := outcomes + [outcome], stages + [Now()];
      }
    }

    /** One round of the pass with the purge that follows it. */
    method OneRound(rounds: seq<ExpiredRound>, i: nat, v: View, doneHeight: nat, ghost tip: nat, cost: Kind -> nat)
      returns (outcome: RoundOutcome)
      requires sweeper.Valid() && Heights(v) && boardSweeps == [] && i < |rounds| && rounds[i].Valid()
      requires tip - doneHeight + 1 >= DEEPLY_CONFIRMED && ConnectorsDeep(sweeper.At(v), rounds, tip, sweeps)
      modifies this, sweeper`byUtxo
      ensures sweeper.Valid() && boardSweeps == [] && ConnectorsDeep(sweeper.At(v), rounds, tip, sweeps)
      ensures RoundStep(sweeper.At(v), rounds[i], doneHeight, cost, old(Now()), outcome, Now())
    {
      ghost var tree;
      ghost var x, before := sweeper.At(v), Now();
      outcome, tree := ProcessRound(rounds[i], v, doneHeight);
      ghost var after := Contents();
      EmptyExactly(boardSweeps);
      RoundDoneConnectors(x, before.byUtxo, rounds[i], doneHeight, before.held, tree, after, outcome);
      KeptMembers(Worthwhile(cost), sweeps);
      PurgeUneconomical(cost);
      assert RoundDone(x, before.byUtxo, rounds[i], doneHeight, before.held, tree, after, outcome);
    }

    /** A boarded vtxo is swept while its exit is unconfirmed and no sweep of it is;
        it is forgotten once the user exited, or our sweep is deep enough. */
    method ProcessBoard(board: Board, v: View, doneHeight: nat) returns (ok: bool)
      requires sweeper.Valid()
      modifies this`boardSweeps, sweeper`byUtxo
      ensures sweeper.Valid() && (ok <==> !v.status(board.exitTxid).Missing?)
      ensures boardSweeps == old(boardSweeps)
                + if Sweepable(v, old(sweeper.byUtxo), board) then [BoardInputOf(board)] else []
      ensures sweeper.byUtxo == if Forgotten(v, old(sweeper.byUtxo), board, doneHeight)
                                then old(sweeper.byUtxo) - {board.anchor} else old(sweeper.byUtxo)
      ensures Forgotten(v, old(sweeper.byUtxo), board, doneHeight) ==> Settled(sweeper.At(v), board, doneHeight)
    {
      match v.status(board.exitTxid) {
        case Missing => return false;
        case Unconfirmed =>
          var swept := sweeper.IsSwept(board.anchor, v);
          if swept.Some? {
            OnlyFirst(v, sweeper.byUtxo, board, doneHeight, swept.value.1, swept.value.0);
            if swept.value.0 <= doneHeight {
              assert SweptBefore(sweeper.At(v), board.anchor, doneHeight);
              sweeper.Forget(board.anchor);
            }
          } else {
            boardSweeps := boardSweeps + [BoardInputOf(board)];
          }
        case Confirmed =>
          sweeper.Forget(board.anchor);
      }
      ok := true;
    }

    /** The boards of a pass: those to be swept and worth their cost are added. Round
        sweeps are purged once there is a board, and untouched otherwise. */
    method ProcessBoards(boards: seq<Board>, v: View, doneHeight: nat, cost: Kind -> nat)
      requires sweeper.Valid() && boardSweeps == []
      modifies this, sweeper`byUtxo
      ensures sweeper.Valid()
      ensures BoardsChosen(v, boards, cost, |boards|, sweeper.byUtxo, old(sweeper.byUtxo), boardSweeps)
      ensures DistinctAnchors(boards) ==>
                forall b :: b in boardSweeps <==> Chosen(v, old(sweeper.byUtxo), boards, cost, |boards|, b)
      ensures BoardsCleared(v, boards, doneHeight, |boards|, sweeper.byUtxo, old(sweeper.byUtxo))
      ensures sweeps == if boards == [] then old(sweeps) else Kept(Worthwhile(cost), old(sweeps))
    {
      for i := 0 to |boards|
        invariant sweeper.Valid()
        invariant BoardsChosen(v, boards, cost, i, sweeper.byUtxo, old(sweeper.byUtxo), boardSweeps)
        invariant BoardsCleared(v, boards, doneHeight, i, sweeper.byUtxo, old(sweeper.byUtxo))
        invariant sweeps == if i == 0 then old(sweeps) else Kept(Worthwhile(cost), old(sweeps))
      {
        ghost var mid, held := sweeper.byUtxo, boardSweeps;
        var _ := ProcessBoard(boards[i], v, doneHeight);
        KeptTwice(Worthwhile(cost), old(sweeps));
        PurgeUneconomical(cost);
        BoardsChosenNext(v, boards, doneHeight, cost, i, sweeper.byUtxo, mid, old(sweeper.byUtxo), held);
        BoardsClearedNext(v, boards, doneHeight, i, sweeper.byUtxo, mid, old(sweeper.byUtxo));
      }
    }

    /** A whole pass of `perform_sweep`, up to building the transaction: rounds first,
        then boards, and it is worth sweeping if the surplus reaches the threshold. */
    method PerformSweep(rounds: seq<ExpiredRound>, boards: seq<Board>, v: View, tip: nat, cost: Kind -> nat,
                        threshold: nat)
      returns (worth: bool, outcomes: seq<RoundOutcome>, ghost stages: seq<Stage>)
      requires sweeper.Valid() && Heights(v) && sweeps == [] && boardSweeps == [] && tip >= DEEPLY_CONFIRMED
      requires forall round :: round in rounds ==> round.Valid()
      modifies this, sweeper`byUtxo
      ensures sweeper.Valid() && |outcomes| == |rounds|
      ensures Passed(sweeper.At(v), rounds, tip - DEEPLY_CONFIRMED + 1, cost, outcomes, stages)
      ensures stages[0] == old(Now()) && ConnectorsDeep(sweeper.At(v), rounds, tip, sweeps)
      ensures var end := stages[|rounds|];
              && BoardsChosen(v, boards, cost, |boards|, sweeper.byUtxo, end.byUtxo, boardSweeps)
              && BoardsCleared(v, boards, tip - DEEPLY_CONFIRMED + 1, |boards|, sweeper.byUtxo, end.byUtxo)
              && sweeps == if boards == [] then end.held.sweeps else Kept(Worthwhile(cost), end.held.sweeps)
      ensures worth <==> Surplus(BoardGain(cost), boardSweeps) + Surplus(Gain(cost), sweeps) >= threshold
    {
      outcomes, stages := ProcessRounds(rounds, v, tip, cost);
      KeptMembers(Worthwhile(cost), sweeps);
      ProcessBoards(boards, v, tip - DEEPLY_CONFIRMED + 1, cost);
      var surplus := TotalSurplus(cost);
      worth := surplus >= threshold;
    }
  }

  /** Every connector sweep is of one of the rounds, whose tree is deeply swept. */
  ghost predicate ConnectorsDeep(x: Scene, rounds: seq<ExpiredRound>, tip: nat, sweeps: seq<SweepInput>) {
    forall s :: s in sweeps && s.kind.ConnectorSweep? ==> s.round in rounds && DeeplySwept(x, s.round, tip)
  }

  // ----- a round that counts as swept too early

  const ROUND_ID: Txid := 7
  const OUR_SWEEP: Txid := 5

  /** A round of two inputs whose tree root is unconfirmed. */
  function EarlyRound(hash: Hash): ExpiredRound {
    var c := Chain(2, [], OutPoint(ROUND_ID, ROUND_TX_CONNECTOR_VOUT));
    var root := TreeTx(hash(TxAt(hash, c, 0)) + 1, OutPoint(ROUND_ID, ROUND_TX_VTXO_TREE_VOUT), [TxOut([], 1000)]);
    ExpiredRound(ROUND_ID, 1000, 660, [root], c)
  }

  /** Our sweep of the tree confirmed at height one, the connector transaction is
      confirmed, and its connector is unspent. */
  function EarlyView(hash: Hash): View {
    var conn := hash(TxAt(hash, EarlyRound(hash).connectors, 0));
    View(hash, t => if t == conn then Confirmed else Unconfirmed,
         t => if t == OUR_SWEEP then Some(1) else None, _ => Unspent(P2TR_DUST))
  }

  /** The only pending sweep is that of the tree, and it is listed there only. */
  ghost predicate OnlyTreeSwept(x: Scene, byUtxo: Index, round: ExpiredRound) {
    && x.pending.Keys == {OUR_SWEEP}
    && forall p, t :: t in Listed(byUtxo, p) <==> p == TreeOutPoint(round) && t == OUR_SWEEP
  }

  lemma EarlyFacts(hash: Hash, byUtxo: Index)
    requires forall p, t :: t in Listed(byUtxo, p) <==> p == TreeOutPoint(EarlyRound(hash)) && t == OUR_SWEEP
    ensures var round, v := EarlyRound(hash), EarlyView(hash);
            && round.Valid() && Heights(v) && !TreeMissing(v, round) && !TreeUnswept(v, byUtxo, round)
            && AllConfirmed(v, round, 1) && ToSweep(v, byUtxo, round, 0)
  {
    assert OUR_SWEEP in Listed(byUtxo, TreeOutPoint(EarlyRound(hash)));
    assert Passable(EarlyView(hash), EarlyRound(hash), 0);
  }

  lemma EarlyOutcome(hash: Hash, x: Scene, byUtxo: Index, before: Held, tree: Held, after: Held,
                     outcome: RoundOutcome, now: Index)
    requires x.v == EarlyView(hash) && OnlyTreeSwept(x, byUtxo, EarlyRound(hash)) && EarlyRound(hash).Valid()
    requires RoundDone(x, byUtxo, EarlyRound(hash), 1, before, tree, after, outcome)
    requires IndexAfter(x.v, EarlyRound(hash), outcome, now, byUtxo)
    ensures outcome.FullySwept? && ConnectorUnspent(x.v, EarlyRound(hash), 0)
    ensures ConnectorInput(x.v, EarlyRound(hash), 0) in after.sweeps
    ensures Unswept(x.v, now, ConnectorOutPoint(x.v, EarlyRound(hash), 0))
  {
    var round := EarlyRound(hash);
    EarlyFacts(hash, byUtxo);
    NewConnectorsExact(x.v, byUtxo, round, 1);
    assert ConnectorInput(x.v, round, 0) in NewConnectors(x.v, byUtxo, round, 1);
  }

  /** The round is declared swept and forgotten, although its connector was never swept
      and has just been added to the builder. */
  method SweptTooEarly(hash: Hash) returns (builder: SweepBuilder, outcome: RoundOutcome)
    ensures outcome.FullySwept?
    ensures exists s :: s in builder.sweeps && s.kind.ConnectorSweep? && s.round == EarlyRound(hash)
                        && Unswept(EarlyView(hash), builder.sweeper.byUtxo, s.point)
  {
    var round, v := EarlyRound(hash), EarlyView(hash);
    var sweeper := new Process(t => if t == OUR_SWEEP then [TreeOutPoint(round)] else []);
    sweeper.StorePending(SweepTx(OUR_SWEEP, [TreeOutPoint(round)]));
    forall p, t
      ensures t in Listed(sweeper.byUtxo, p) <==> p == TreeOutPoint(round) && t == OUR_SWEEP
    {
      FiledMembers(OUR_SWEEP, [TreeOutPoint(round)], sweeper.byUtxo, map[], p, t);
    }
    builder := new SweepBuilder(sweeper);
    ghost var x, byUtxo, before, tree := sweeper.At(v), sweeper.byUtxo, builder.Contents(), builder.Contents();
    outcome, tree := builder.ProcessRound(round, v, 1);
    EarlyOutcome(hash, x, byUtxo, before, tree, builder.Contents(), outcome, sweeper.byUtxo);
  }
}
