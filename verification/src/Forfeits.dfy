/** The two users of the connector chain: the client signing forfeits in
    `sign_forfeits` (bark/src/round.rs) and the server claiming them
    (server/src/forfeits.rs). A partial signature is represented by what it
    commits to. */
module Forfeits {
  import opened Collections
  import opened Basics
  import opened Connectors

  type Nonce = nat

  datatype PartSig = PartSig(vtxo: VtxoId, connector: OutPoint, serverNonce: Nonce)

  /** The client's signatures for one input: the `i`-th one commits to the `i`-th
      connector and uses the server's `i`-th nonce. */
  ghost predicate SignedBy(hash: Hash, c: Chain, vtxo: VtxoId, nonces: seq<Nonce>, sigs: seq<PartSig>) {
    && |sigs| == c.len <= |nonces|
    && forall i :: 0 <= i < c.len ==> sigs[i] == PartSig(vtxo, Connector(hash, c, i), nonces[i])
  }

  /** Signs one input over the unsigned chain. Fails if the server sent too few nonces. */
  method SignInput(hash: Hash, c: Chain, vtxo: VtxoId, nonces: seq<Nonce>) returns (r: Option<seq<PartSig>>)
    requires c.len != 0
    ensures r.Some? <==> c.len <= |nonces|
    ensures r.Some? ==> SignedBy(hash, c, vtxo, nonces, r.value)
  {
    var connectors := new ConnectorIter(hash, c, None);
    var sigs: seq<PartSig> := [];
    while true
      invariant connectors.Valid() && fresh(connectors) && fresh(connectors.txs)
      invariant connectors.txs.hash == hash && connectors.txs.chain == c
      invariant connectors.Drawn() == |sigs| <= c.len && |sigs| <= |nonces|
      invariant forall i :: 0 <= i < |sigs| ==> sigs[i] == PartSig(vtxo, Connector(hash, c, i), nonces[i])
      decreases c.len - |sigs|
    {
      var next := connectors.Next((_, _, _) => 0);
      if next.None? {
        return Some(sigs);
      }
      if |sigs| >= |nonces| {
        return None;
      }
      sigs := sigs + [PartSig(vtxo, next.value.0, nonces[|sigs|])];
    }
  }

  /** The chain the client signs for, of a length taken from one entry of the nonces. */
  function SignedChain(roundTxid: Txid, spk: Script, len: nat): Chain {
    Chain(len, spk, OutPoint(roundTxid, ROUND_TX_CONNECTOR_VOUT))
  }

  datatype Signed =
    | SignPanic                      // no nonces at all, or none in the entry that is counted
    | WrongConnectorOutput
    | NoncesMissing
    | Signatures(sigs: map<VtxoId, seq<PartSig>>)

  /** There are at least `len` nonces for each input. */
  ghost predicate NoncesFor(inputs: seq<VtxoId>, nonces: map<VtxoId, seq<Nonce>>, len: nat) {
    forall v :: v in inputs ==> v in nonces && len <= |nonces[v]|
  }

  /** The forfeit part of `sign_forfeits`. The connector output is checked against
      the number of entries of `nonces`, while the chain is as long as the one entry
      that the map yields first, so that the output funds the chain that gets signed
      exactly if the two numbers agree. */
  method SignForfeits(hash: Hash, roundTxid: Txid, connOut: TxOut, spk: Script,
                      inputs: seq<VtxoId>, nonces: map<VtxoId, seq<Nonce>>, first: VtxoId) returns (r: Signed)
    requires |nonces| != 0 ==> first in nonces
    ensures r.SignPanic? <==> |nonces| == 0 || (connOut == ChainOutput(|nonces|, spk) && nonces[first] == [])
    ensures r.WrongConnectorOutput? <==> |nonces| != 0 && connOut != ChainOutput(|nonces|, spk)
    ensures r.NoncesMissing? ==> !NoncesFor(inputs, nonces, |nonces[first]|)
    ensures r.Signatures? ==>
              && |nonces| != 0 && NoncesFor(inputs, nonces, |nonces[first]|)
              && var c := Chain(|nonces[first]|, spk, OutPoint(roundTxid, 1));
                 && AllSigned(hash, c, inputs, nonces, r.sigs)
                 && (Funds(hash, c, connOut) <==> |nonces[first]| == |nonces|)
  {
    if |nonces| == 0 {
      return SignPanic;
    }
    if connOut != ChainOutput(|nonces|, spk) {
      return WrongConnectorOutput;
    }
    if nonces[first] == [] {
      return SignPanic;
    }
    var c := SignedChain(roundTxid, spk, |nonces[first]|);
    var sigs: map<VtxoId, seq<PartSig>> := map[];
    for i := 0 to |inputs|
      invariant NoncesFor(inputs[..i], nonces, c.len)
      invariant AllSigned(hash, c, inputs[..i], nonces, sigs)
    {
      assert inputs[..i + 1] == inputs[..i] + [inputs[i]];
      if inputs[i] !in nonces {
        return NoncesMissing;
      }
      var signed := SignInput(hash, c, inputs[i], nonces[inputs[i]]);
      if signed.None? {
        return NoncesMissing;
      }
      sigs := sigs[inputs[i] := signed.value];
    }
    assert inputs[..|inputs|] == inputs;
    FundsIffSameLength(hash, c, |nonces|);
    r := Signatures(sigs);
  }

  /** One vtxo with two nonces: the connector output is accepted for a chain of one, and
      the signatures are for a chain of two, which it does not fund. */
  method UnfundedSigned(hash: Hash, roundTxid: Txid, spk: Script) returns (connOut: TxOut, r: Signed)
    ensures r.Signatures? && !Funds(hash, SignedChain(roundTxid, spk, 2), connOut)
  {
    var nonces: map<VtxoId, seq<Nonce>> := map[1 := [0, 1]];
    assert nonces.Keys == {1} && |nonces| == 1;
    connOut := ChainOutput(1, spk);
    r := SignForfeits(hash, roundTxid, connOut, spk, [1], nonces, 1);
  }

  ghost predicate AllSigned(hash: Hash, c: Chain, inputs: seq<VtxoId>, nonces: map<VtxoId, seq<Nonce>>,
                            sigs: map<VtxoId, seq<PartSig>>) {
    && (forall v :: v in sigs <==> v in inputs)
    && (forall v :: v in sigs ==> v in nonces && SignedBy(hash, c, v, nonces[v], sigs[v]))
  }

  /** What the server keeps per forfeited vtxo. */
  datatype ForfeitState = ForfeitState(userSigs: seq<PartSig>, pubNonces: seq<Nonce>)

  /** A finalized forfeit: the vtxo and connector spent, and the user's part. */
  datatype Forfeit = Forfeit(vtxo: VtxoId, connector: OutPoint, userSig: PartSig, serverNonce: Nonce)

  /** The user's part signature is one for the transaction that is finalized. */
  ghost predicate Matches(f: Forfeit) {
    f.userSig == PartSig(f.vtxo, f.connector, f.serverNonce)
  }

  function Finalize(vtxo: VtxoId, ff: ForfeitState, connIdx: nat, conn: OutPoint): Forfeit
    requires connIdx < |ff.userSigs| && connIdx < |ff.pubNonces|
  {
    Forfeit(vtxo, conn, ff.userSigs[connIdx], ff.pubNonces[connIdx])
  }

  /** The connector the server records for a claim, as it computes it. */
  function RecordedConnector(nbInputs: nat, roundTxid: Txid, connIdx: nat, connTxid: Option<Txid>): OutPoint {
    if connTxid.Some?
    then OutPoint(connTxid.value, if connIdx == nbInputs then 0 else 1)
    else OutPoint(roundTxid, ROUND_TX_CONNECTOR_VOUT)
  }

  /** The signature at the server's index fits the server's connector exactly when
      the client signed a chain of the server's length. */
  lemma MatchesIffSameLength(hash: Hash, client: Chain, server: Chain,
                             vtxo: VtxoId, nonces: seq<Nonce>, sigs: seq<PartSig>, k: nat)
    requires Injective(hash) && NoSelfSpend(hash)
    requires client.utxo == server.utxo && client.spk == server.spk
    requires SignedBy(hash, client, vtxo, nonces, sigs) && k < client.len && k < server.len
    ensures Matches(Finalize(vtxo, ForfeitState(sigs, nonces), k, Connector(hash, server, k)))
       <==> client.len == server.len
  {
    SameLengthSameConnector(hash, client, server, k);
  }

  datatype Exit = Exit(vtxo: VtxoId, ff: ForfeitState)

  /** The forfeit of the exit was signed over the whole chain. */
  ghost predicate Forfeited(hash: Hash, c: Chain, e: Exit) {
    SignedBy(hash, c, e.vtxo, e.ff.pubNonces, e.ff.userSigs)
  }

  ghost predicate AllForfeited(hash: Hash, c: Chain, exits: seq<Exit>) {
    forall e :: e in exits ==> Forfeited(hash, c, e)
  }

  /** A claim: the finalized forfeit and the connector recorded for it. */
  datatype Claim = Claim(forfeit: Forfeit, recorded: OutPoint)

  /** What the calls made for one exit answer: fetching the vtxo from the database
      may fail, and so may starting the claim, after a connector was drawn. */
  datatype Answer = FetchFails | StartFails | Starts

  /** How the handling of one exit, or of a series of them, ends. */
  datatype Ending = Claimed | Failed | NoConnectorLeft

  /** How many connectors a series of exits asks for: one each, up to the first
      failure, which counts if it comes after the draw. */
  function Draws(exits: seq<Exit>, answers: seq<Answer>): (n: nat)
    requires |exits| == |answers|
    ensures n <= |exits|
  {
    if exits == [] then 0
    else match answers[0]
      case FetchFails => 0
      case StartFails => 1
      case Starts => 1 + Draws(exits[1..], answers[1..])
  }

  /** As long as all claims start, there is one draw each. */
  lemma {:induction false} DrawsAfter(exits: seq<Exit>, answers: seq<Answer>, k: nat)
    requires k <= |exits| == |answers| && forall i :: 0 <= i < k ==> answers[i].Starts?
    ensures Draws(exits, answers) == k + Draws(exits[k..], answers[k..])
  {
    if k > 0 {
      DrawsAfter(exits[1..], answers[1..], k - 1);
      assert exits[1..][k - 1..] == exits[k..] && answers[1..][k - 1..] == answers[k..];
    } else {
      assert exits[0..] == exits && answers[0..] == answers;
    }
  }

  /** The claim is for the vtxo, carries the user's signature for the connector it
      spends, and records that connector unless it is the last of several. */
  ghost predicate Claims(hash: Hash, c: Chain, vtxo: VtxoId, k: nat, claim: Claim) {
    && k < c.len
    && claim.forfeit.vtxo == vtxo && Matches(claim.forfeit)
    && claim.forfeit.connector == Connector(hash, c, k)
    && (claim.recorded == claim.forfeit.connector <==> k + 1 < c.len || c.len == 1)
    && (k + 1 == c.len && c.len > 1 ==> claim.recorded == OutPoint(claim.forfeit.connector.txid, CONNECTOR_VOUT))
  }

  ghost predicate ClaimsFrom(hash: Hash, c: Chain, exits: seq<Exit>, from: nat, claims: seq<Claim>) {
    |claims| <= |exits| && forall i :: 0 <= i < |claims| ==> Claims(hash, c, exits[i].vtxo, from + i, claims[i])
  }

  ghost predicate NoConnectorTwice(claims: seq<Claim>) {
    forall i, j :: 0 <= i < j < |claims| ==> claims[i].forfeit.connector != claims[j].forfeit.connector
  }

  lemma ClaimsDisjoint(hash: Hash, c: Chain, exits: seq<Exit>, from: nat, claims: seq<Claim>)
    requires Injective(hash) && ClaimsFrom(hash, c, exits, from, claims)
    ensures NoConnectorTwice(claims)
  {
    forall i, j | 0 <= i < j < |claims|
      ensures claims[i].forfeit.connector != claims[j].forfeit.connector
    {
      assert Claims(hash, c, exits[i].vtxo, from + i, claims[i]) && Claims(hash, c, exits[j].vtxo, from + j, claims[j]);
      ConnectorsDistinct(hash, c, from + i, from + j);
    }
  }

  lemma ClaimsNext(hash: Hash, c: Chain, exits: seq<Exit>, from: nat, claims: seq<Claim>, claim: Claim)
    requires ClaimsFrom(hash, c, exits, from, claims) && |claims| < |exits|
    requires Claims(hash, c, exits[|claims|].vtxo, from + |claims|, claim)
    ensures ClaimsFrom(hash, c, exits, from, claims + [claim])
  {
  }

  class RoundState {
    const nbInputs: nat
    const roundTxid: Txid
    var nbUsed: nat
    const connectors: ConnectorIter

    ghost predicate Valid()
      reads this, connectors, connectors.txs
    {
      && connectors.Valid()
      && connectors.txs.chain.len == nbInputs
      && connectors.txs.chain.utxo == OutPoint(roundTxid, ROUND_TX_CONNECTOR_VOUT)
      && connectors.Drawn() == nbUsed
    }

    constructor (hash: Hash, nbInputs: nat, roundTxid: Txid, spk: Script, key: nat)
      requires nbInputs != 0
      ensures Valid() && nbUsed == 0 && fresh(connectors) && fresh(connectors.txs)
      ensures this.nbInputs == nbInputs && this.roundTxid == roundTxid && connectors.txs.hash == hash
      ensures connectors.txs.chain == Chain(nbInputs, spk, OutPoint(roundTxid, 1))
    {
      this.nbInputs, this.roundTxid, nbUsed := nbInputs, roundTxid, 0;
      connectors := new ConnectorIter(hash, SignedChain(roundTxid, spk, nbInputs), Some(key));
    }

    /** The next connector, with its index; none is left after `nbInputs` draws,
        where the source panics. */
    method NextConnector(sign: Signer) returns (r: Option<(nat, OutPoint, Option<Txid>)>)
      requires Valid()
      modifies this`nbUsed, connectors`maybeLast, connectors.txs`prev, connectors.txs`idx
      ensures Valid() && (r.Some? <==> old(nbUsed) < nbInputs)
      ensures nbUsed == old(nbUsed) + if r.Some? then 1 else 0
      ensures r.Some? ==> r.value.0 == old(nbUsed)
      ensures r.Some? ==> r.value.1 == Connector(connectors.txs.hash, connectors.txs.chain, old(nbUsed))
      ensures r.Some? ==> (r.value.2.None? <==> nbInputs == 1)
      ensures r.Some? && r.value.2.Some? ==> r.value.2.value == r.value.1.txid
    {
      var next := connectors.Next(sign);
      if next.None? {
        return None;
      }
      var txid := if next.value.1.Some? then Some(ComputeTxid(connectors.txs.hash, next.value.1.value)) else None;
      r := Some((nbUsed, next.value.0, txid));
      nbUsed := nbUsed + 1;
    }

    /** Claims one exited vtxo with the next unused connector. A connector is used up
        even if the claim cannot be started. */
    method HandleExit(e: Exit, answer: Answer, sign: Signer) returns (end: Ending, claim: Option<Claim>)
      requires Valid() && Forfeited(connectors.txs.hash, connectors.txs.chain, e)
      modifies this`nbUsed, connectors`maybeLast, connectors.txs`prev, connectors.txs`idx
      ensures Valid()
      ensures end.NoConnectorLeft? <==> !answer.FetchFails? && old(nbUsed) == nbInputs
      ensures end.Claimed? <==> answer.Starts? && old(nbUsed) < nbInputs
      ensures nbUsed == old(nbUsed) + if answer.FetchFails? || end.NoConnectorLeft? then 0 else 1
      ensures claim.Some? <==> nbUsed > old(nbUsed)
      ensures claim.Some? ==> Claims(connectors.txs.hash, connectors.txs.chain, e.vtxo, old(nbUsed), claim.value)
    {
      if answer.FetchFails? {
        return Failed, None;
      }
      var next := NextConnector(sign);
      if next.None? {
        return NoConnectorLeft, None;
      }
      var (idx, conn, txid) := next.value;
      var f := Finalize(e.vtxo, e.ff, idx, conn);
      claim := Some(Claim(f, RecordedConnector(nbInputs, roundTxid, idx, txid)));
      end := if answer.StartFails? then Failed else Claimed;
    }

    /** A series of exits, given up at the first failure: each forfeit is the one its
        user signed, and no connector is spent twice. The connectors run out exactly
        if more are asked for than are left. */
    method HandleExits(exits: seq<Exit>, answers: seq<Answer>, sign: Signer)
      returns (end: Ending, claims: seq<Claim>, started: nat)
      requires Valid() && Injective(connectors.txs.hash)
      requires |exits| == |answers| && AllForfeited(connectors.txs.hash, connectors.txs.chain, exits)
      modifies this`nbUsed, connectors`maybeLast, connectors.txs`prev, connectors.txs`idx
      ensures Valid()
      ensures end.NoConnectorLeft? <==> old(nbUsed) + Draws(exits, answers) > nbInputs
      ensures end.Claimed? <==> old(nbUsed) + |exits| <= nbInputs && forall a :: a in answers ==> a.Starts?
      ensures nbUsed == if end.NoConnectorLeft? then nbInputs else old(nbUsed) + Draws(exits, answers)
      ensures |claims| == nbUsed - old(nbUsed)
      ensures ClaimsFrom(connectors.txs.hash, connectors.txs.chain, exits, old(nbUsed), claims)
      ensures NoConnectorTwice(claims)
      ensures started <= |claims| <= started + 1 && (end.Claimed? ==> started == |exits|)
      ensures forall i :: 0 <= i < started ==> answers[i].Starts?
      ensures |claims| > started ==> answers[started].StartFails?
    {
      claims := [];
      ghost var hash, c, from := connectors.txs.hash, connectors.txs.chain, nbUsed;
      var k := 0;
      while k < |exits|
        invariant 0 <= k <= |exits|
        invariant Valid() && nbUsed == from + k && |claims| == k
        invariant forall i :: 0 <= i < k ==> answers[i].Starts?
        invariant ClaimsFrom(hash, c, exits, from, claims)
      {
        var one, claim := HandleExit(exits[k], answers[k], sign);
        if claim.Some? {
          ClaimsNext(hash, c, exits, from, claims, claim.value);
          claims := claims + [claim.value];
        }
        if !one.Claimed? {
          DrawsAfter(exits, answers, k);
          ClaimsDisjoint(hash, c, exits, from, claims);
          return one, claims, k;
        }
        k := k + 1;
      }
      DrawsAfter(exits, answers, k);
      ClaimsDisjoint(hash, c, exits, from, claims);
      end, started := Claimed, k;
    }
  }

  ghost predicate DistinctVtxos(exits: seq<Exit>) {
    forall i, j :: 0 <= i < j < |exits| ==> exits[i].vtxo != exits[j].vtxo
  }

  function VtxosOf(exits: seq<Exit>): set<VtxoId> {
    set e | e in exits :: e.vtxo
  }

  lemma {:induction false} CountVtxos(exits: seq<Exit>)
    requires DistinctVtxos(exits)
    ensures |VtxosOf(exits)| == |exits|
  {
    if exits != [] {
      var front, last := exits[..|exits| - 1], exits[|exits| - 1];
      CountVtxos(front);
      assert exits == front + [last];
      assert VtxosOf(exits) == VtxosOf(front) + {last.vtxo};
      assert last.vtxo !in VtxosOf(front);
    }
  }

  function Outside(ids: set<VtxoId>): Exit -> bool {
    (e: Exit) => e.vtxo !in ids
  }

  lemma RemainingCount(waiting: seq<Exit>, done: seq<Exit>, left: seq<Exit>)
    requires DistinctVtxos(done) && VtxosOf(done) <= VtxosOf(waiting)
    requires forall e :: e in left <==> e in waiting && e.vtxo !in VtxosOf(done)
    ensures |VtxosOf(left)| == |VtxosOf(waiting)| - |done|
  {
    assert VtxosOf(left) == VtxosOf(waiting) - VtxosOf(done);
    CountVtxos(done);
  }

  lemma SubsetCount(a: set<VtxoId>, b: set<VtxoId>)
    requires a <= b
    ensures |a| <= |b|
  {
    assert b == a + (b - a);
  }

  /** The claims spend the connectors of the given indices, which increase and have
      all been used. */
  ghost predicate ClaimedAt(hash: Hash, c: Chain, claims: seq<Claim>, drawn: seq<nat>, used: nat) {
    && |drawn| == |claims| && Ascending(drawn)
    && (forall i :: 0 <= i < |drawn| ==> drawn[i] < used)
    && (forall i :: 0 <= i < |claims| ==> Claims(hash, c, claims[i].forfeit.vtxo, drawn[i], claims[i]))
  }

  ghost function CountFrom(k: nat, n: nat): (r: seq<nat>)
    ensures |r| == n && forall i :: 0 <= i < n ==> r[i] == k + i
  {
    seq(n, i requires 0 <= i < n => k + i)
  }

  lemma ClaimedAtGrows(hash: Hash, c: Chain, claims: seq<Claim>, drawn: seq<nat>, used: nat,
                       exits: seq<Exit>, drew: seq<Claim>, started: nat)
    requires ClaimedAt(hash, c, claims, drawn, used) && ClaimsFrom(hash, c, exits, used, drew) && started <= |drew|
    ensures ClaimedAt(hash, c, claims + drew[..started], drawn + CountFrom(used, started), used + |drew|)
  {
    var more := claims + drew[..started];
    forall i | |claims| <= i < |more|
      ensures Claims(hash, c, more[i].forfeit.vtxo, used + (i - |claims|), more[i])
    {
      assert Claims(hash, c, exits[i - |claims|].vtxo, used + (i - |claims|), drew[i - |claims|]);
    }
  }

  /** Every vtxo that started to wait still waits or has used up a connector, and all
      other connectors used were spoilt. */
  ghost predicate Watching(hash: Hash, c: Chain, used: nat, waiting: seq<Exit>, claims: seq<Claim>, drawn: seq<nat>,
                           registered: nat, spoilt: nat) {
    && Injective(hash) && AllForfeited(hash, c, waiting)
    && used + |VtxosOf(waiting)| == registered + spoilt
    && ClaimedAt(hash, c, claims, drawn, used)
  }

  ghost predicate ConfirmedAmong(confirmed: seq<Exit>, waiting: seq<Exit>) {
    DistinctVtxos(confirmed) && forall e :: e in confirmed ==> e in waiting
  }

  lemma ConfirmedFit(confirmed: seq<Exit>, waiting: seq<Exit>)
    requires ConfirmedAmong(confirmed, waiting)
    ensures VtxosOf(confirmed) <= VtxosOf(waiting) && |confirmed| <= |VtxosOf(waiting)|
  {
    CountVtxos(confirmed);
    SubsetCount(VtxosOf(confirmed), VtxosOf(waiting));
  }

  lemma RegisterKeeps(hash: Hash, c: Chain, used: nat, waiting: seq<Exit>, claims: seq<Claim>, drawn: seq<nat>,
                      registered: nat, spoilt: nat, e: Exit)
    requires Watching(hash, c, used, waiting, claims, drawn, registered, spoilt) && Forfeited(hash, c, e)
    ensures Watching(hash, c, used, waiting + [e], claims, drawn,
                     registered + (if e.vtxo in VtxosOf(waiting) then 0 else 1), spoilt)
  {
    assert VtxosOf(waiting + [e]) == VtxosOf(waiting) + {e.vtxo};
  }

  lemma PassCompletes(hash: Hash, c: Chain, used: nat, waiting: seq<Exit>, claims: seq<Claim>, drawn: seq<nat>,
                      registered: nat, spoilt: nat, confirmed: seq<Exit>, drew: seq<Claim>, left: seq<Exit>)
    requires Watching(hash, c, used, waiting, claims, drawn, registered, spoilt) && ConfirmedAmong(confirmed, waiting)
    requires ClaimsFrom(hash, c, confirmed, used, drew) && |drew| == |confirmed|
    requires forall e :: e in left <==> e in waiting && e.vtxo !in VtxosOf(confirmed)
    ensures Watching(hash, c, used + |drew|, left, claims + drew, drawn + CountFrom(used, |drew|), registered, spoilt)
  {
    ConfirmedFit(confirmed, waiting);
    RemainingCount(waiting, confirmed, left);
    ClaimedAtGrows(hash, c, claims, drawn, used, confirmed, drew, |drew|);
    assert drew[..|drew|] == drew;
  }

  lemma PassFails(hash: Hash, c: Chain, used: nat, waiting: seq<Exit>, claims: seq<Claim>, drawn: seq<nat>,
                  registered: nat, spoilt: nat, confirmed: seq<Exit>, drew: seq<Claim>, started: nat)
    requires Watching(hash, c, used, waiting, claims, drawn, registered, spoilt)
    requires ClaimsFrom(hash, c, confirmed, used, drew) && started <= |drew|
    ensures Watching(hash, c, used + |drew|, waiting, claims + drew[..started], drawn + CountFrom(used, started),
                     registered, spoilt + |drew|)
  {
    ClaimedAtGrows(hash, c, claims, drawn, used, confirmed, drew, started);
  }

  /** The watcher of one round: exits wait until a pass finds them confirmed and
      claims all of them; a pass that fails leaves all of them waiting. */
  class Watcher {
    const round: RoundState
    var waiting: seq<Exit>
    var claims: seq<Claim>
    /** How many vtxos started to wait, and how many connectors failed passes drew. */
    ghost var registered: nat
    ghost var spoilt: nat
    /** The index of the connector of each claim. */
    ghost var drawn: seq<nat>

    ghost predicate Valid()
      reads this, round, round.connectors, round.connectors.txs
    {
      && round.Valid()
      && Watching(round.connectors.txs.hash, round.connectors.txs.chain, round.nbUsed,
                  waiting, claims, drawn, registered, spoilt)
    }

    constructor (round: RoundState)
      requires round.Valid() && round.nbUsed == 0 && Injective(round.connectors.txs.hash)
      ensures Valid() && this.round == round && waiting == [] && claims == [] && registered == 0 && spoilt == 0
    {
      this.round := round;
      waiting, claims, registered, spoilt, drawn := [], [], 0, 0, [];
    }

    method Register(e: Exit)
      requires Valid() && Forfeited(round.connectors.txs.hash, round.connectors.txs.chain, e)
      modifies this
      ensures Valid() && waiting == old(waiting) + [e] && claims == old(claims) && spoilt == old(spoilt)
      ensures registered == old(registered) + if e.vtxo in VtxosOf(old(waiting)) then 0 else 1
    {
      RegisterKeeps(round.connectors.txs.hash, round.connectors.txs.chain, round.nbUsed,
                    waiting, claims, drawn, registered, spoilt, e);
      registered := registered + if e.vtxo in VtxosOf(waiting) then 0 else 1;
      waiting := waiting + [e];
    }

    /** One pass over the exits found confirmed, in the order in which their set is
        walked. The connectors last as long as the vtxos ever registered and the
        draws spoilt by failed passes together do not outnumber the inputs. */
    method DetectConfirms(confirmed: seq<Exit>, answers: seq<Answer>, sign: Signer) returns (end: Ending)
      requires Valid() && |confirmed| == |answers| && ConfirmedAmong(confirmed, waiting)
      modifies this, round`nbUsed, round.connectors`maybeLast, round.connectors.txs`prev, round.connectors.txs`idx
      ensures Valid() && registered == old(registered)
      ensures end.NoConnectorLeft? <==> old(round.nbUsed) + Draws(confirmed, answers) > round.nbInputs
      ensures end.Claimed? <==>
                old(round.nbUsed) + |confirmed| <= round.nbInputs && forall a :: a in answers ==> a.Starts?
      ensures round.nbUsed ==
                if end.NoConnectorLeft? then round.nbInputs else old(round.nbUsed) + Draws(confirmed, answers)
      ensures old(registered + spoilt) <= round.nbInputs ==> !end.NoConnectorLeft?
      ensures end.Claimed? ==>
                && spoilt == old(spoilt)
                && forall e :: e in waiting <==> e in old(waiting) && e.vtxo !in VtxosOf(confirmed)
      ensures !end.Claimed? ==> waiting == old(waiting) && spoilt - old(spoilt) == round.nbUsed - old(round.nbUsed)
      ensures old(claims) <= claims && (end.Claimed? ==> |claims| == |old(claims)| + |confirmed|)
      ensures ClaimsFrom(round.connectors.txs.hash, round.connectors.txs.chain, confirmed, old(round.nbUsed),
                claims[|old(claims)|..])
    {
      ConfirmedFit(confirmed, waiting);
      ghost var hash, c, from := round.connectors.txs.hash, round.connectors.txs.chain, round.nbUsed;
      var drew, started;
      end, drew, started := round.HandleExits(confirmed, answers, sign);
      Settle(end.Claimed?, confirmed, drew, started, hash, c, from);
      assert claims[|old(claims)|..] == drew[..started];
    }

    /** Stores the claims that were started and, if all were, stops waiting for them. */
    method Settle(all: bool, confirmed: seq<Exit>, drew: seq<Claim>, started: nat,
                  ghost hash: Hash, ghost c: Chain, ghost from: nat)
      requires Watching(hash, c, from, waiting, claims, drawn, registered, spoilt) && ConfirmedAmong(confirmed, waiting)
      requires ClaimsFrom(hash, c, confirmed, from, drew)
      requires if all then started == |drew| == |confirmed| else started <= |drew|
      modifies this
      ensures Watching(hash, c, from + |drew|, waiting, claims, drawn, registered, spoilt)
      ensures registered == old(registered) && spoilt == old(spoilt) + if all then 0 else |drew|
      ensures claims == old(claims) + drew[..started]
      ensures !all ==> waiting == old(waiting)
      ensures all ==> forall e :: e in waiting <==> e in old(waiting) && e.vtxo !in VtxosOf(confirmed)
    {
      if all {
        var left := Retain(Outside(VtxosOf(confirmed)), waiting);
        KeptMembers(Outside(VtxosOf(confirmed)), waiting);
        PassCompletes(hash, c, from, waiting, claims, drawn, registered, spoilt, confirmed, drew, left);
        assert drew[..started] == drew;
        claims, drawn, waiting := claims + drew, drawn + CountFrom(from, |drew|), left;
      } else {
        PassFails(hash, c, from, waiting, claims, drawn, registered, spoilt, confirmed, drew, started);
        claims, drawn, spoilt := claims + drew[..started], drawn + CountFrom(from, started), spoilt + |drew|;
      }
    }

    /** No connector is spent by two claims, in whatever passes they were started. */
    lemma NeverTwice()
      requires Valid()
      ensures NoConnectorTwice(claims)
    {
      forall i, j | 0 <= i < j < |claims|
        ensures claims[i].forfeit.connector != claims[j].forfeit.connector
      {
        ConnectorsDistinct(round.connectors.txs.hash, round.connectors.txs.chain, drawn[i], drawn[j]);
      }
    }
  }

  // ----- both sides together

  /** The server sends as many nonces per vtxo as the round has inputs. */
  ghost predicate FullNonces(nonces: map<VtxoId, seq<Nonce>>) {
    forall v :: v in nonces ==> |nonces[v]| == |nonces|
  }

  function AlwaysStarts(n: nat): (r: seq<Answer>)
    ensures |r| == n && forall a :: a in r ==> a.Starts?
  {
    seq(n, _ => Starts)
  }

  function ExitsOf(inputs: seq<VtxoId>, nonces: map<VtxoId, seq<Nonce>>,
                   sigs: map<VtxoId, seq<PartSig>>): (r: seq<Exit>)
    requires forall v :: v in inputs ==> v in nonces && v in sigs
    ensures |r| == |inputs| && forall i :: 0 <= i < |r| ==> r[i].vtxo == inputs[i]
    ensures forall e :: e in r ==> e.vtxo in inputs && e.ff == ForfeitState(sigs[e.vtxo], nonces[e.vtxo])
  {
    seq(|inputs|, i requires 0 <= i < |inputs| => Exit(inputs[i], ForfeitState(sigs[inputs[i]], nonces[inputs[i]])))
  }

  lemma ExitsFit(inputs: seq<VtxoId>, nonces: map<VtxoId, seq<Nonce>>, sigs: map<VtxoId, seq<PartSig>>)
    requires forall v :: v in inputs ==> v in nonces && v in sigs
    requires forall i, j :: 0 <= i < j < |inputs| ==> inputs[i] != inputs[j]
    ensures |inputs| <= |nonces|
  {
    var exits := ExitsOf(inputs, nonces, sigs);
    CountVtxos(exits);
    SubsetCount(VtxosOf(exits), nonces.Keys);
  }

  /** A client signs the forfeits of its inputs, and the server claims all of them
      when they exit: every claim carries a signature made for exactly this vtxo and
      connector, and no connector is used twice. */
  method SignAndClaim(hash: Hash, roundTxid: Txid, spk: Script, key: nat, inputs: seq<VtxoId>,
                      nonces: map<VtxoId, seq<Nonce>>, first: VtxoId, sign: Signer)
    returns (claims: seq<Claim>)
    requires Injective(hash) && first in nonces && FullNonces(nonces)
    requires forall v :: v in inputs ==> v in nonces
    requires forall i, j :: 0 <= i < j < |inputs| ==> inputs[i] != inputs[j]
    ensures |claims| == |inputs|
    ensures forall i :: 0 <= i < |inputs| ==> claims[i].forfeit.vtxo == inputs[i] && Matches(claims[i].forfeit)
    ensures forall i :: 0 <= i < |inputs| ==>
              (claims[i].recorded == claims[i].forfeit.connector <==> i + 1 < |nonces| || |nonces| == 1)
    ensures NoConnectorTwice(claims)
  {
    assert |nonces| != 0 by { assert first in nonces.Keys; }
    var signed := SignForfeits(hash, roundTxid, ChainOutput(|nonces|, spk), spk, inputs, nonces, first);
    var round := new RoundState(hash, |nonces|, roundTxid, spk, key);
    assert signed.Signatures?;
    var exits := ExitsOf(inputs, nonces, signed.sigs);
    ExitsFit(inputs, nonces, signed.sigs);
    var end, started;
    end, claims, started := round.HandleExits(exits, AlwaysStarts(|inputs|), sign);
    DrawsAfter(exits, AlwaysStarts(|inputs|), |inputs|);
  }

  /** Of two inputs that exit, the second is recorded with a connector other than the
      one its forfeit spends. */
  method LastRecordedWrong(hash: Hash, sign: Signer) returns (claims: seq<Claim>)
    requires Injective(hash)
    ensures |claims| == 2 && claims[0].recorded == claims[0].forfeit.connector
    ensures claims[1].recorded != claims[1].forfeit.connector
  {
    var nonces: map<VtxoId, seq<Nonce>> := map[1 := [0, 1], 2 := [2, 3]];
    assert nonces.Keys == {1, 2};
    claims := SignAndClaim(hash, 7, [], 0, [1, 2], nonces, 1, sign);
  }

  /** A round of one input whose claim cannot be started: the next pass finds no
      connector left. */
  method RetryRunsOut(hash: Hash, sign: Signer) returns (first: Ending, second: Ending)
    requires Injective(hash)
    ensures first.Failed? && second.NoConnectorLeft?
  {
    var round := new RoundState(hash, 1, 7, [], 0);
    var sigs := SignInput(hash, SignedChain(7, [], 1), 1, [0]);
    var watcher := new Watcher(round);
    var e := Exit(1, ForfeitState(sigs.value, [0]));
    watcher.Register(e);
    assert Draws([e], [StartFails]) == 1 && StartFails in [StartFails];
    first := watcher.DetectConfirms([e], [StartFails], sign);
    second := watcher.DetectConfirms([e], [Starts], sign);
  }
}
