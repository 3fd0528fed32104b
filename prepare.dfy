/**
 * Record mapping before coin selection: the explorer query, the renaming of
 * explorer records into the selector's shape, the conversion of payments to
 * smallest units and the rounded-up fee rate.
 */
module Prepare {
  import opened Types

  /** The addresses the explorer is asked about: the public address of each source, in order. */
  function PublicAddresses(from: seq<Address>): (q: seq<string>)
    ensures |q| == |from|
    ensures forall i :: 0 <= i < |from| ==> q[i] == from[i].publicAddress
  {
    if from == [] then [] else [from[0].publicAddress] + PublicAddresses(from[1..])
  }

  /** One explorer record in the selector's shape. */
  function ToUtxo(r: ExplorerUtxo): (u: Utxo)
    ensures u.address == r.address && u.txId == r.txid && u.vout == r.vout
    ensures u.scriptPubKey == r.scriptPubKey && u.value == r.satoshis
  {
    Utxo(r.address, r.txid, r.vout, r.scriptPubKey, r.satoshis)
  }

  /** Explorer records renamed field for field (`txid` to `txId`, `satoshis` to `value`), in order. */
  function MapUtxos(raw: seq<ExplorerUtxo>): (u: seq<Utxo>)
    ensures |u| == |raw|
    ensures forall i :: 0 <= i < |raw| ==>
      && u[i].address == raw[i].address
      && u[i].txId == raw[i].txid
      && u[i].vout == raw[i].vout
      && u[i].scriptPubKey == raw[i].scriptPubKey
      && u[i].value == raw[i].satoshis
  {
    if raw == [] then [] else [ToUtxo(raw[0])] + MapUtxos(raw[1..])
  }

  /**
   * Payments converted to smallest units, rounding down: each value is the
   * largest integer not above amount times `satPerCoin`.
   */
  function ConvertTargets(to: seq<Payment>, satPerCoin: real): (t: seq<Target>)
    ensures |t| == |to|
    ensures forall i :: 0 <= i < |to| ==>
      && t[i].address == to[i].address
      && t[i].value as real <= to[i].amount * satPerCoin < t[i].value as real + 1.0
  {
    if to == [] then []
    else [Target(to[0].address, (to[0].amount * satPerCoin).Floor)] + ConvertTargets(to[1..], satPerCoin)
  }

  /** The fee rate handed to the selector: the least integer not below `feePerByte`. */
  function FeeRate(feePerByte: real): (r: int)
    ensures feePerByte <= r as real < feePerByte + 1.0
  {
    -((-feePerByte).Floor)
  }

  /**
   * The coin selector's arguments: the unspent outputs, one target per
   * payment rounded down to whole units, the fee rate rounded up, and the
   * length of the coin's extra payload (0 when it is empty).
   */
  function SelectorArguments(utxos: seq<Utxo>, to: seq<Payment>, satPerCoin: real, feePerByte: real, extra: string): (req: SelectorRequest)
    ensures req.utxos == utxos
    ensures |req.targets| == |to|
    ensures forall i :: 0 <= i < |to| ==>
      && req.targets[i].address == to[i].address
      && req.targets[i].value as real <= to[i].amount * satPerCoin < req.targets[i].value as real + 1.0
    ensures feePerByte <= req.feeRate as real < feePerByte + 1.0
    ensures req.extraLength == |extra|
  {
    SelectorRequest(utxos, ConvertTargets(to, satPerCoin), FeeRate(feePerByte), |extra|)
  }
}
