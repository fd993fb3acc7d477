/** The entities that several parts of the system share. */
module Basics {
  import opened Collections

  type Byte = x: int | 0 <= x < 256
  type Bytes = seq<Byte>

  type Txid = nat
  type VtxoId = nat
  type Script = Bytes

  datatype OutPoint = OutPoint(txid: Txid, vout: nat)
  datatype TxOut = TxOut(script: Script, value: nat)

  /** The smallest amount a taproot output may carry. */
  const P2TR_DUST: nat := 330

  /** The outputs of a round transaction. */
  const ROUND_TX_VTXO_TREE_VOUT: nat := 0
  const ROUND_TX_CONNECTOR_VOUT: nat := 1

  /** Who can spend a vtxo, and when (lib/src/vtxo/mod.rs). */
  datatype Policy =
    | Pubkey(user: Bytes)
    | HtlcSend(user: Bytes, hash: Bytes, expiry: nat)
    | HtlcRecv(user: Bytes, hash: Bytes, expiry: nat, delta: nat)
    | Checkpoint(user: Bytes)

  datatype VtxoRequest = VtxoRequest(policy: Policy, amount: nat)

  /** A request with the key that signs the branch of the tree leading to it. */
  datatype SignedVtxoRequest = SignedVtxoRequest(vtxo: VtxoRequest, cosignKey: Option<Bytes>)
}
