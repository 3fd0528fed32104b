# A verified model of oip-hdmw's TransactionBuilder

`TransactionBuilder` (the JavaScript class in `src/TransactionBuilder.js`)
builds a signed transaction for a coin.

- **Construction.** The builder collects source addresses (`from`) and
  payments (`to`) from the caller's options. It keeps only Address objects
  and recipients whose address is valid for the coin's network, and drops a
  payment whose amount is not a number.
- **Preparing selection.** It asks the coin's explorer for the unspent
  outputs of every source and renames the explorer's records into the coin
  selector's shape. It converts amounts to whole smallest units, rounding
  down, and rounds the fee rate up. It then hands all of this to the coin
  selector, with the length of the coin's extra payload.
- **Building.** From the selection it issues `setVersion`, one `addInput`
  per selected input and one `addOutput` per output. A change output (one
  the selector left without an address) first takes the account's next
  change address. Then it signs input `i` once for each source whose public
  address is the input's address. Last, it appends the coin's extra payload
  to the hex.

The Dafny project has six modules:

- `Wrappers` holds `Option`, `Result` and `Outcome`.
- `Types` holds the coin, the options, the explorer records, the selector's
  inputs and outputs, and the calls made on the underlying transaction
  builder (`TxCall`).
- `Normalize` turns the `from` and `to` options into the builder's lists, as
  pure functions with their lemmas.
- `Prepare` does the record mapping before coin selection.
- `Assembly` holds the specification of a build: the call plan, change
  resolution, signing, and the final hex.
- `Builder` holds the classes `Account` and `TransactionBuilder`.
  - `TransactionBuilder`'s fields `from`, `to` and `passedOptions` are updated
    by `AddFrom`, `AddTo` and `ParseOptions`.
  - Its loops (the `from` array, the `to` maps, `outputs.forEach` and the
    nested signing loop) are `for` loops proved against the `Normalize` and
    `Assembly` functions.
  - `Account.next` models the account's position on its change chain.

The code is modelled with these parameters:

- **Coin selection.** `coinselect` is a parameter of type `Selector`. A
  selection without a solution has `inputs` or `outputs` set to `None`.
- **The explorer.** It becomes a function from the queried addresses to the
  explorer's records.
- **bitcoinjs-lib.** Its `TransactionBuilder` becomes the list of calls made
  on it (`TxCall`) and a `Codec` that turns that list into hex, or refuses
  it.
- **Falsy strings.** The empty string stands for a missing address and for a
  falsy extra payload.
- **Amounts.** Amounts and coin constants are real numbers. `Math.floor` is
  `.Floor` and `Math.ceil` is its reflection.

## Model

| member | source | states |
|---|---|---|
| `Builder.TransactionBuilder.constructor` | src/TransactionBuilder.js:13-23 | a new builder has no sources, no payments and empty options, and keeps the coin and the account |
| `Builder.TransactionBuilder.Create` | src/TransactionBuilder.js:13-25 | construction succeeds exactly when every `from` value is an Address, and fails with the "must be an Address" error otherwise; on success the lists are the accepted sources and payments of the options and the options are kept |
| `Builder.TransactionBuilder.AddFrom` | src/TransactionBuilder.js:26-34 | for an Address with a valid public address: appended (what `SourceStep` adds); for an invalid one: nothing changes; for a value that is not an Address: the error, with nothing changed; `to` and the options are untouched |
| `Builder.TransactionBuilder.AddTo` | src/TransactionBuilder.js:35-43 | appends (address, amount) exactly when the address is valid and the amount is a number, and otherwise changes nothing |
| `Builder.TransactionBuilder.AddSources` | src/TransactionBuilder.js:50-53 | the loop over a `from` array adds the accepted sources of the values before the first non-Address, and fails exactly when there is such a value |
| `Builder.TransactionBuilder.AddSourceOption` | src/TransactionBuilder.js:49-57 | a single `from` value and an array of them are both handled by the same accepted-sources rule, and neither touches `to` |
| `Builder.TransactionBuilder.AddPayments` | src/TransactionBuilder.js:69-71 | the loop over one `{address: amount}` map appends the accepted payments of its pairs in order |
| `Builder.TransactionBuilder.AddPaymentMaps` | src/TransactionBuilder.js:62-67 | the loop over an array of maps appends the accepted payments of all pairs, map after map |
| `Builder.TransactionBuilder.AddTargetOption` | src/TransactionBuilder.js:60-73 | a single map and an array of maps are both handled by the same accepted-payments rule, and neither touches `from` |
| `Builder.TransactionBuilder.ParseOptions` | src/TransactionBuilder.js:44-76 | absent options change nothing; otherwise the sources are parsed first, and an error leaves `to` and the options unchanged; on success the payments follow and the options are kept |
| `Normalize.FromItems` | src/TransactionBuilder.js:49-57 | a missing `from` gives no values, a single value is handled as a one-value list, an array gives its elements in order |
| `Normalize.Flatten` | src/TransactionBuilder.js:62-67 | every pair of every map in the array is enumerated |
| `Normalize.FlattenMember` | src/TransactionBuilder.js:62-67 | a pair is enumerated exactly when it belongs to one of the maps |
| `Normalize.ToEntries` | src/TransactionBuilder.js:60-73 | a missing `to` gives no pairs, a single map gives its pairs, an array of maps gives the pairs of all its maps, map after map |
| `Normalize.SourceStep` | src/TransactionBuilder.js:26-34 | one `addFrom` adds at most one source, and adds one exactly when the value is an Address whose public address is valid; what it adds is that Address |
| `Normalize.PaymentStep` | src/TransactionBuilder.js:35-43 | one `addTo` adds at most one payment, and adds one exactly when the address is valid and the amount is a number; what it adds is that (address, amount) |
| `Normalize.FirstNonAddress` | src/TransactionBuilder.js:51-53 | the index where the `from` loop stops: every value before it is an Address, and the value at it is not |
| `Normalize.AcceptedSources` | src/TransactionBuilder.js:26-34 | never more sources than values |
| `Normalize.AcceptedSourcesAppend` | src/TransactionBuilder.js:51-53 | adding values one after another accepts the concatenation of what each part accepts |
| `Normalize.AcceptedSourcesStep` | src/TransactionBuilder.js:51-53 | one more value of the `from` array adds exactly what `addFrom` adds for it |
| `Normalize.AcceptedSourcesMember` | src/TransactionBuilder.js:26-34 | an address is kept exactly when it is among the Address values and its public address is valid |
| `Normalize.AcceptedSourcesAllValid` | src/TransactionBuilder.js:26-34 | when every value is a valid Address, all are kept, in order |
| `Normalize.AcceptedPayments` | src/TransactionBuilder.js:35-43 | never more payments than pairs |
| `Normalize.AcceptedPaymentsAppend` | src/TransactionBuilder.js:64-71 | adding pairs one after another accepts the concatenation of what each part accepts |
| `Normalize.AcceptedPaymentsStep` | src/TransactionBuilder.js:64-71 | one more pair of a map adds exactly what `addTo` adds for it |
| `Normalize.AcceptedPaymentsMember` | src/TransactionBuilder.js:35-43 | a payment is kept exactly when its address is valid and its pair, with a numeric amount, was given |
| `Normalize.FlattenStep` | src/TransactionBuilder.js:63-67 | the pairs of one map more are the earlier pairs followed by that map's |
| `Normalize.AcceptedPaymentsFlatten` | src/TransactionBuilder.js:62-67 | one more map in the array adds exactly that map's accepted payments |
| `Prepare.PublicAddresses` | src/TransactionBuilder.js:78 | the explorer is asked about the public address of each source, in order |
| `Prepare.ToUtxo` | src/TransactionBuilder.js:82-88 | one explorer record becomes a selector input with the same address, transaction id, output index, script and value |
| `Prepare.MapUtxos` | src/TransactionBuilder.js:81-89 | each explorer record becomes a selector input field for field (`txid` to `txId`, `satoshis` to `value`), in order |
| `Builder.TransactionBuilder.GetUnspents` | src/TransactionBuilder.js:77-91 | the selector inputs are the renamed explorer records for the sources' public addresses |
| `Prepare.ConvertTargets` | src/TransactionBuilder.js:95-100 | each target keeps the payment's address, and its value is the largest integer not above amount times satoshis per coin |
| `Prepare.FeeRate` | src/TransactionBuilder.js:108 | the fee rate is the least integer not below the fee per byte |
| `Prepare.SelectorArguments` | src/TransactionBuilder.js:94-108 | the selector gets the unspent outputs unchanged, one target per payment with its address and its amount rounded down to whole units, the fee rate rounded up, and the length of the extra payload |
| `Builder.TransactionBuilder.SelectionRequest` | src/TransactionBuilder.js:94-108 | from the builder's state: the renamed unspent outputs of the sources, one target per payment, the fee rate rounded up, and the length of the coin's extra payload for the kept options |
| `Assembly.ChangeCount` | src/TransactionBuilder.js:141 | a count of the outputs without an address, never more than the outputs |
| `Assembly.ChangeCountPrefix` | src/TransactionBuilder.js:138-152 | a prefix of the outputs never has more change outputs than the whole |
| `Assembly.ChangeCountSnoc` | src/TransactionBuilder.js:138-152 | one more output adds one change output exactly when it has no address |
| `Assembly.ChangeCountZero` | src/TransactionBuilder.js:141 | there are no change outputs exactly when every output has an address |
| `Assembly.FillOne` | src/TransactionBuilder.js:141-145 | resolving one output keeps its value; an output with an address is unchanged, and a change output gets the public address at the given chain position |
| `Assembly.FillChange` | src/TransactionBuilder.js:138-152 | resolution keeps the number of outputs |
| `Assembly.FillChangeSnoc` | src/TransactionBuilder.js:138-152 | one more output is resolved with the chain position after all earlier change outputs |
| `Assembly.FillChangeAt` | src/TransactionBuilder.js:141-151 | an output with an address is kept as is; a change output keeps its value and gets the change address whose position is the number of earlier change outputs |
| `Assembly.ChangePositionsIncrease` | src/TransactionBuilder.js:143-145 | a later change output takes a strictly later position of the change chain than an earlier one |
| `Assembly.ChangeAddressesDistinct` | src/TransactionBuilder.js:143-145 | when the change chain never repeats a public address, two change outputs get different addresses |
| `Assembly.FillChangeNoChange` | src/TransactionBuilder.js:141 | without change outputs, resolution changes nothing |
| `Assembly.InputCalls` | src/TransactionBuilder.js:137 | one `addInput` call per selected input |
| `Assembly.InputCallsAt` | src/TransactionBuilder.js:137 | the `k`-th `addInput` call adds the `k`-th input's transaction id and output index |
| `Assembly.OutputCalls` | src/TransactionBuilder.js:138-152 | one `addOutput` call per output |
| `Assembly.OutputCallsAt` | src/TransactionBuilder.js:151 | the `k`-th `addOutput` call adds the `k`-th output's address and value |
| `Assembly.OutputCallsSnoc` | src/TransactionBuilder.js:138-152 | one more output adds its `addOutput` call at the end |
| `Assembly.OutputStep` | src/TransactionBuilder.js:138-152 | one turn of the output loop extends the change count and the calls by the resolved output |
| `Assembly.OutputStepNoChange` | src/TransactionBuilder.js:138-152 | one turn of the output loop on an output with an address extends the calls by that output and keeps the change count |
| `Builder.Account.GetNextChangeAddress` | src/TransactionBuilder.js:144 | the account hands out the address at its current change position and moves on by one |
| `Builder.Account.constructor` | src/TransactionBuilder.js:143-144 | an account starts with its change chain and its current change position |
| `Builder.TransactionBuilder.ResolveChange` | src/TransactionBuilder.js:141-149 | an output with an address is kept and the account is untouched; a change output takes the account's next change address, which moves the account on by one |
| `Builder.TransactionBuilder.AddInputs` | src/TransactionBuilder.js:137 | the input loop appends the `addInput` calls of all inputs |
| `Builder.TransactionBuilder.AddOutputs` | src/TransactionBuilder.js:138-152 | with an account, the output loop appends the calls of the resolved outputs and advances the account once per change output; without one, it fails when there is a change output and otherwise appends the outputs unchanged |
| `Builder.TransactionBuilder.AddOutputsWith` | src/TransactionBuilder.js:138-152 | the output loop with an account: calls of the outputs resolved from the change chain, and one step of the chain per change output |
| `Builder.TransactionBuilder.AddOutputsWithout` | src/TransactionBuilder.js:138-152 | the output loop without an account: an error exactly when some output has no address, and otherwise the outputs' calls in order |
| `Assembly.SignsFor` | src/TransactionBuilder.js:155-159 | the inner signing loop makes at most one call per source |
| `Assembly.SignStep` | src/TransactionBuilder.js:156-157 | one source adds a signature exactly when its public address is the input's address, and that signature is `sign(i, key)` with the source's key |
| `Assembly.SignsForShape` | src/TransactionBuilder.js:155-159 | every call of the inner loop signs the current input |
| `Assembly.SignsForAppend` | src/TransactionBuilder.js:155-159 | the inner loop over sources split in two makes the calls of each part in turn |
| `Assembly.SignsForCount` | src/TransactionBuilder.js:155-159 | the inner loop signs the current input once per matching source and no other input |
| `Assembly.SignsForMember` | src/TransactionBuilder.js:155-159 | the inner loop signs with a key exactly when a source with the input's address carries it |
| `Assembly.SignsForStep` | src/TransactionBuilder.js:155-159 | one more source adds a signature exactly when it carries the input's address |
| `Assembly.SignCallsStep` | src/TransactionBuilder.js:154-160 | one more input adds the inner loop's signatures for it |
| `Assembly.SignCalls` | src/TransactionBuilder.js:154-160 | the nested signing loop makes at most one call per pair of input and source |
| `Assembly.SignCallsShape` | src/TransactionBuilder.js:154-160 | every signing call signs the index of a selected input |
| `Assembly.SignCallsCount` | src/TransactionBuilder.js:154-160 | input `i` is signed exactly as many times as there are sources whose public address is its address; other indices are never signed |
| `Assembly.SignCallsMember` | src/TransactionBuilder.js:154-160 | input `i` is signed with a key exactly when some source carries the input's address and that key |
| `Assembly.UnmatchedInputUnsigned` | src/TransactionBuilder.js:156 | an input whose address matches no source is never signed |
| `Assembly.SignCallsOrdered` | src/TransactionBuilder.js:154-160 | the signatures come in input order |
| `Builder.TransactionBuilder.SignedInputsValid` | src/TransactionBuilder.js:154-160 | only inputs whose address is valid for the coin's network are signed, because every signature comes from a kept source carrying that address |
| `Assembly.SignCountAt` | src/TransactionBuilder.js:157 | the number of signing calls for an index is at most the number of calls |
| `Assembly.SignCountAtAppend` | src/TransactionBuilder.js:154-160 | the signing count of concatenated calls is the sum of the parts' counts |
| `Assembly.MatchCount` | src/TransactionBuilder.js:156 | the number of matching sources is at most the number of sources |
| `Builder.TransactionBuilder.SignInputs` | src/TransactionBuilder.js:154-160 | the nested signing loop appends exactly the signing plan of the inputs over the sources |
| `Assembly.Plan` | src/TransactionBuilder.js:133-160 | one call for the version, one per input, one per output, then the signatures |
| `Assembly.PlanLayout` | src/TransactionBuilder.js:133-160 | the calls are, in this order, `setVersion`, each input's `addInput`, each output's `addOutput`, then the signatures |
| `Assembly.Finish` | src/TransactionBuilder.js:162-169 | the result is built exactly when the codec accepts the calls; its hex is the codec's hex followed by the extra payload verbatim (nothing when that is empty); a refusal always gives `Failed(CodecRejected)` |
| `Builder.TransactionBuilder.BuildTX` | src/TransactionBuilder.js:123-170 | no solution from the selector gives no result and leaves the account alone; otherwise the result is the codec's output for the plan of the selected inputs and the resolved outputs, with the extra payload appended; without an account a change output is an error |

## Left out

- BuildTX: a throw from `setVersion`, `addInput`, `addOutput` or `sign` is deferred to the end. The `Codec` judges the whole call list at once, so the model reports it as `CodecRejected` after the loops. In the code `forEach` stops at the throwing call, so the account has handed out only the change addresses before it, and none when `addInput` threw. On such a failure the model's account has moved past every change output.
- Coin selection (`coinselect`) is not modelled. It is a parameter of `BuildTX`, and only how its result is used is modelled.
- bitcoinjs-lib is not modelled. Address decoding, script building, signing and serialisation are all inside the `Codec` parameter. When `setVersion`, `addInput`, `addOutput`, `sign` or `build` throws, the codec refuses, and that is modelled as `CodecRejected`. The checks bitcoinjs makes (i.e. which calls it refuses) are not modelled.
- The network and the asynchronous plumbing are not modelled: the explorer's `getAddressesUtxo`, `discoverChange` (the account's `discoverChain(1)` on lines 112-122), and `sendTX` with its broadcast (lines 172-180). The explorer becomes a parameter. The effect of chain discovery on the account's change position becomes the account's `next` when `BuildTX` starts.
- Floating point is not modelled. Amounts, `satPerCoin` and `feePerByte` are exact reals. The model does not capture rounding in `amount * satPerCoin`, infinities, or `isNaN`'s coercion of strings.
- Addresses are plain strings. `isValidPublicAddress` with the coin's network becomes the coin's `isValidAddress` predicate. `getPublicAddress()` and `getECKey()` become the fields of `Address`.
- `bip32`, `bip32-utils` and `GAP_LIMIT` are imported by the source but never used, so they are not modelled.
- `for ... in` order is not modelled: pairs are taken in the order the `ToOption` lists them. The model does not cover JavaScript key order, such as integer-like keys coming first.
- Output objects are mutated in place (`output.address = changeAddress`). That write is visible to whoever else holds the selection. The model rebuilds the outputs as values, so it does not capture that aliasing.
- Without an account, a change output reaches `console.warning`, which is not a function and so throws a TypeError. The warning message (src/TransactionBuilder.js:147) says the change would go to the miners as fee. The model follows the code: the build stops with `ChangeWithoutAccount` and no hex.
- An error while parsing `from` stops `parseOptions`. The sources added before the error stay in `from`, and `to` and `passedOptions` keep their old values. In the constructor this error becomes the failure of `Create`.
- A payment is dropped only when its amount is NaN. Negative or zero amounts, and amounts that round down to 0 units, are kept and passed to the selector.
- An input is signed once per matching source. A repeated source signs it twice, and an input whose address is no source's stays unsigned (`UnmatchedInputUnsigned`).
- The extra payload is a string, appended to the hex verbatim. Its length is `|extra|`, a count of Unicode scalar values. JavaScript's `.length` counts UTF-16 code units, so the two differ for characters outside the Basic Multilingual Plane.
