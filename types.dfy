/**
 * The records the transaction builder works on, and the collaborators it
 * calls into (address validation, the block explorer, the coin selector and
 * the transaction codec), each reduced to a value or a function.
 */
module Types {
  import opened Wrappers

  /** A signing key. Signing itself belongs to the transaction codec and is not modelled. */
  datatype ECKey = ECKey(id: string)

  /** An `Address` object: its public address and access to its signing key. */
  datatype Address = Address(publicAddress: string, key: ECKey)

  /** A value passed where an `Address` is expected: an `Address` object, or anything else. */
  datatype FromValue = AddressObject(address: Address) | NonAddress

  /** The `from` option: one value, or an array of them. */
  datatype FromOption = FromOne(value: FromValue) | FromList(values: seq<FromValue>)

  /** An amount after numeric coercion: a number, or NaN. */
  datatype Amount = Number(x: real) | NaN

  /** One key/value pair of an `{address: amount}` map, in enumeration order. */
  datatype PayTo = PayTo(address: string, amount: Amount)

  /** The `to` option: one `{address: amount}` map, or an array of such maps. */
  datatype ToOption = ToMap(entries: seq<PayTo>) | ToList(maps: seq<seq<PayTo>>)

  /**
   * Caller options. An absent or falsy `from` or `to` is `None`; the remaining
   * coin-specific fields are passed through to `getExtraBytes` untouched.
   */
  datatype Options = Options(from: Option<FromOption>, to: Option<ToOption>, passthrough: map<string, string>)

  /** The empty options object `{}`. */
  const NoOptions := Options(None, None, map[])

  /** An accepted payment target in the coin's display unit, as kept in the builder's `to` list. */
  datatype Payment = Payment(address: string, amount: real)

  /** An unspent output as the explorer reports it. */
  datatype ExplorerUtxo = ExplorerUtxo(address: string, txid: string, vout: nat, scriptPubKey: string, satoshis: int)

  /** An unspent output in the shape the coin selector expects. */
  datatype Utxo = Utxo(address: string, txId: string, vout: nat, scriptPubKey: string, value: int)

  /** A payment target in smallest units, as handed to the coin selector. */
  datatype Target = Target(address: string, value: int)

  /**
   * An output chosen by the coin selector. A change output comes back without
   * an address; every falsy address (absent, null or empty) is the empty string here.
   */
  datatype Output = Output(address: string, value: int)

  /** What the coin selector returns; `inputs` and `outputs` are absent when there is no solution. */
  datatype Selection = Selection(inputs: Option<seq<Utxo>>, outputs: Option<seq<Output>>, fee: int)

  /** The four arguments of the coin selector call. */
  datatype SelectorRequest = SelectorRequest(utxos: seq<Utxo>, targets: seq<Target>, feeRate: int, extraLength: nat)

  /** One call the builder makes on the codec's stateful transaction builder. */
  datatype TxCall =
    | SetVersion(version: int)
    | AddInput(txId: string, vout: nat)
    | AddOutput(address: string, value: int)
    | Sign(index: nat, key: ECKey)

  datatype Error =
    | FromNotAddress        // a `from` value is not an `Address` object
    | ChangeWithoutAccount  // a change output needs an address and no account is present
    | CodecRejected         // the codec refused to build the transaction

  /** The outcome of building: no selection, a hex string with the calls that produced it, or an error. */
  datatype BuildResult = NoSolution | Built(hex: string, calls: seq<TxCall>) | Failed(error: Error)

  /**
   * Coin configuration: address validity for the coin's network, the number of
   * smallest units per coin, the fee rate per byte, the transaction version and
   * the protocol-specific extra payload ("" when there is none).
   */
  datatype Coin = Coin(
    isValidAddress: string -> bool,
    satPerCoin: real,
    feePerByte: real,
    txVersion: int,
    getExtraBytes: Options -> string)

  /** The explorer's unspent-output lookup for a batch of addresses. */
  type Explorer = seq<string> -> seq<ExplorerUtxo>

  /** The external coin selector. */
  type Selector = SelectorRequest -> Selection

  /** The codec's `build().toHex()` over the calls made so far; `None` when it refuses. */
  type Codec = seq<TxCall> -> Option<string>
}
