/**
 * The transaction builder: it collects source addresses and payments from the
 * caller, prepares the coin selector's arguments, and turns a selection into
 * the calls on the codec's transaction builder and the final hex.
 */
module Builder {
  import opened Wrappers
  import opened Types
  import opened Normalize
  import opened Prepare
  import opened Assembly

  /** An account that hands out the addresses of its change chain, one per request. */
  class Account {
    const changeChain: nat -> Address
    var next: nat

    constructor (changeChain: nat -> Address, next: nat)
      ensures this.changeChain == changeChain && this.next == next
    {
      this.changeChain := changeChain;
      this.next := next;
    }

    method GetNextChangeAddress() returns (a: Address)
      modifies this
      ensures a == changeChain(old(next)) && next == old(next) + 1
    {
      a := changeChain(next);
      next := next + 1;
    }
  }

  class TransactionBuilder {
    const coin: Coin
    const account: Account?
    /** The addresses we send from. */
    var from: seq<Address>
    /** The addresses we send to, with their amounts. */
    var to: seq<Payment>
    var passedOptions: Options

    /** Every source and every payment address is valid for the coin's network. */
    ghost predicate Valid()
      reads this
    {
      && (forall a :: a in from ==> coin.isValidAddress(a.publicAddress))
      && (forall p :: p in to ==> coin.isValidAddress(p.address))
    }

    constructor (coin: Coin, account: Account?)
      ensures Valid()
      ensures this.coin == coin && this.account == account
      ensures from == [] && to == [] && passedOptions == NoOptions
    {
      this.coin := coin;
      this.account := account;
      from := [];
      to := [];
      passedOptions := NoOptions;
    }

    /** Construction with options: it fails when parsing the options throws. */
    static method Create(coin: Coin, options: Option<Options>, account: Account?) returns (r: Result<TransactionBuilder, Error>)
      ensures r.Success? <==> FirstNonAddress(SourceItems(options)) == |SourceItems(options)|
      ensures r.Failure? ==> r.error == FromNotAddress
      ensures r.Success? ==>
        && fresh(r.value) && r.value.Valid()
        && r.value.coin == coin && r.value.account == account
        && r.value.from == AcceptedSources(coin.isValidAddress, SourceItems(options))
        && r.value.to == AcceptedPayments(coin.isValidAddress, TargetEntries(options))
        && r.value.passedOptions == (if options.Some? then options.value else NoOptions)
    {
      var b := new TransactionBuilder(coin, account);
      var outcome := b.ParseOptions(options);
      if outcome.Fail? {
        return Failure(outcome.error);
      }
      var vs := SourceItems(options);
      assert vs[..|vs|] == vs;
      return Success(b);
    }

    method AddFrom(v: FromValue) returns (outcome: Outcome<Error>)
      requires Valid()
      modifies this
      ensures Valid()
      ensures outcome == if v.AddressObject? then Pass else Fail(FromNotAddress)
      ensures v.AddressObject? && coin.isValidAddress(v.address.publicAddress) ==> from == old(from) + [v.address]
      ensures !(v.AddressObject? && coin.isValidAddress(v.address.publicAddress)) ==> from == old(from)
      ensures from == old(from) + SourceStep(coin.isValidAddress, v)
      ensures to == old(to) && passedOptions == old(passedOptions)
    {
      if v.AddressObject? {
        if coin.isValidAddress(v.address.publicAddress) {
          from := from + [v.address];
        }
        outcome := Pass;
      } else {
        outcome := Fail(FromNotAddress);
      }
    }

    method AddTo(address: string, amount: Amount)
      requires Valid()
      modifies this
      ensures Valid()
      ensures coin.isValidAddress(address) && amount.Number? ==> to == old(to) + [Payment(address, amount.x)]
      ensures !(coin.isValidAddress(address) && amount.Number?) ==> to == old(to)
      ensures to == old(to) + PaymentStep(coin.isValidAddress, PayTo(address, amount))
      ensures from == old(from) && passedOptions == old(passedOptions)
    {
      if coin.isValidAddress(address) && amount.Number? {
        to := to + [Payment(address, amount.x)];
      }
    }

    /** The `for ... of` loop over an array of `from` values: `addFrom` on each, stopping at the first error. */
    method AddSources(values: seq<FromValue>) returns (outcome: Outcome<Error>)
      requires Valid()
      modifies this
      ensures Valid()
      ensures from == old(from) + AcceptedSources(coin.isValidAddress, values[..FirstNonAddress(values)])
      ensures outcome == if FirstNonAddress(values) == |values| then Pass else Fail(FromNotAddress)
      ensures to == old(to) && passedOptions == old(passedOptions)
    {
      for k := 0 to |values|
        invariant Valid()
        invariant from == old(from) + AcceptedSources(coin.isValidAddress, values[..k])
        invariant forall i :: 0 <= i < k ==> values[i].AddressObject?
        invariant to == old(to) && passedOptions == old(passedOptions)
      {
        AcceptedSourcesTurn(coin.isValidAddress, values, k, old(from), from);
        var out := AddFrom(values[k]);
        if out.Fail? {
          assert FirstNonAddress(values) == k;
          return out;
        }
      }
      assert values[..|values|] == values;
      return Pass;
    }

    /** The `for ... in` loop over one `{address: amount}` map: `addTo` on each pair. */
    method AddPayments(entries: seq<PayTo>)
      requires Valid()
      modifies this
      ensures Valid()
      ensures to == old(to) + AcceptedPayments(coin.isValidAddress, entries)
      ensures from == old(from) && passedOptions == old(passedOptions)
    {
      for k := 0 to |entries|
        invariant Valid()
        invariant from == old(from) && passedOptions == old(passedOptions)
        invariant to == old(to) + AcceptedPayments(coin.isValidAddress, entries[..k])
      {
        AcceptedPaymentsTurn(coin.isValidAddress, entries, k, old(to), to);
        AddTo(entries[k].address, entries[k].amount);
      }
      assert entries[..|entries|] == entries;
    }

    /** The `from` branch of `parseOptions`: one value or an array of values. */
    method AddSourceOption(f: Option<FromOption>) returns (outcome: Outcome<Error>)
      requires Valid()
      modifies this
      ensures Valid()
      ensures from == old(from) + AcceptedSources(coin.isValidAddress, FromItems(f)[..FirstNonAddress(FromItems(f))])
      ensures outcome == if FirstNonAddress(FromItems(f)) == |FromItems(f)| then Pass else Fail(FromNotAddress)
      ensures to == old(to) && passedOptions == old(passedOptions)
    {
      if f.None? {
        return Pass;
      }
      match f.value {
        case FromList(values) =>
          outcome := AddSources(values);
        case FromOne(value) =>
          outcome := AddFrom(value);
          assert [value][..FirstNonAddress([value])] == if value.AddressObject? then [value] else [];
      }
    }

    /** The `for ... of` loop over an array of `{address: amount}` maps: each map in turn. */
    method AddPaymentMaps(maps: seq<seq<PayTo>>)
      requires Valid()
      modifies this
      ensures Valid()
      ensures to == old(to) + AcceptedPayments(coin.isValidAddress, Flatten(maps))
      ensures from == old(from) && passedOptions == old(passedOptions)
    {
      for m := 0 to |maps|
        invariant Valid()
        invariant from == old(from) && passedOptions == old(passedOptions)
        invariant to == old(to) + AcceptedPayments(coin.isValidAddress, Flatten(maps[..m]))
      {
        AcceptedPaymentMapsTurn(coin.isValidAddress, maps, m, old(to), to);
        AddPayments(maps[m]);
      }
      assert maps[..|maps|] == maps;
    }

    /** The `to` branch of `parseOptions`: one map or an array of maps. */
    method AddTargetOption(t: Option<ToOption>)
      requires Valid()
      modifies this
      ensures Valid()
      ensures to == old(to) + AcceptedPayments(coin.isValidAddress, ToEntries(t))
      ensures from == old(from) && passedOptions == old(passedOptions)
    {
      if t.Some? {
        match t.value {
          case ToList(maps) =>
            AddPaymentMaps(maps);
          case ToMap(entries) =>
            AddPayments(entries);
        }
      }
    }

    /**
     * Adds the sources of `from`, then the payments of `to`, then keeps the
     * options. A value of `from` that is not an `Address` stops it with an
     * error, after the sources before it have been added.
     */
    method ParseOptions(options: Option<Options>) returns (outcome: Outcome<Error>)
      requires Valid()
      modifies this
      ensures Valid()
      ensures options.None? ==> outcome == Pass && from == old(from) && to == old(to) && passedOptions == old(passedOptions)
      ensures from == old(from) + AcceptedSources(coin.isValidAddress, SourceItems(options)[..FirstNonAddress(SourceItems(options))])
      ensures outcome.Pass? <==> FirstNonAddress(SourceItems(options)) == |SourceItems(options)|
      ensures outcome.Fail? ==> outcome.error == FromNotAddress && to == old(to) && passedOptions == old(passedOptions)
      ensures outcome.Pass? && options.Some? ==>
        && to == old(to) + AcceptedPayments(coin.isValidAddress, TargetEntries(options))
        && passedOptions == options.value
    {
      if options.None? {
        return Pass;
      }
      var o := options.value;
      outcome := AddSourceOption(o.from);
      if outcome.Fail? {
        return;
      }
      AddTargetOption(o.to);
      passedOptions := o;
    }

    /** The unspent outputs of the sources, as the explorer reports them for their public addresses. */
    function GetUnspents(explorer: Explorer): (utxos: seq<Utxo>)
      reads this
      ensures var raw := explorer(PublicAddresses(from));
        && |utxos| == |raw|
        && forall i :: 0 <= i < |raw| ==>
             utxos[i] == Utxo(raw[i].address, raw[i].txid, raw[i].vout, raw[i].scriptPubKey, raw[i].satoshis)
    {
      MapUtxos(explorer(PublicAddresses(from)))
    }

    /** The arguments the coin selector is called with, from the builder's current state. */
    function SelectionRequest(explorer: Explorer): (req: SelectorRequest)
      reads this
      ensures req.utxos == GetUnspents(explorer)
      ensures |req.targets| == |to|
      ensures coin.feePerByte <= req.feeRate as real < coin.feePerByte + 1.0
      ensures req.extraLength == |coin.getExtraBytes(passedOptions)|
    {
      SelectorArguments(GetUnspents(explorer), to, coin.satPerCoin, coin.feePerByte, coin.getExtraBytes(passedOptions))
    }

    /**
     * Only inputs whose address is valid for the coin's network are signed:
     * every signature uses a source that carries the input's address.
     */
    lemma SignedInputsValid(ins: seq<Utxo>, i: nat, key: ECKey)
      requires Valid()
      ensures Sign(i, key) in SignCalls(ins, from) ==> i < |ins| && coin.isValidAddress(ins[i].address)
    {
      SignCallsMember(ins, from, i, key);
    }

    /** The `addInput` calls, appended to `calls` in selection order. */
    static method AddInputs(inputs: seq<Utxo>, calls: seq<TxCall>) returns (after: seq<TxCall>)
      ensures after == calls + InputCalls(inputs)
    {
      after := calls;
      for k := 0 to |inputs|
        invariant after == calls + InputCalls(inputs[..k])
      {
        after := after + [AddInput(inputs[k].txId, inputs[k].vout)];
        assert inputs[..k + 1][..k] == inputs[..k];
      }
      assert inputs[..|inputs|] == inputs;
    }

    /**
     * The `outputs.forEach` loop: each output is added in selection order; a
     * change output first takes the account's next change address, and without
     * an account it stops the build.
     */
    method AddOutputs(outputs: seq<Output>, calls: seq<TxCall>) returns (r: Result<seq<TxCall>, Error>)
      modifies account
      ensures account == null ==>
        r == if ChangeCount(outputs) > 0 then Failure(ChangeWithoutAccount) else Success(calls + OutputCalls(outputs))
      ensures account != null ==>
        && account.next == old(account.next) + ChangeCount(outputs)
        && r == Success(calls + OutputCalls(FillChange(outputs, account.changeChain, old(account.next))))
    {
      if account != null {
        var after := AddOutputsWith(account, outputs, calls);
        return Success(after);
      }
      r := AddOutputsWithout(outputs, calls);
    }

    /** The output loop when an account is present: every change output is resolved. */
    static method AddOutputsWith(account: Account, outputs: seq<Output>, calls: seq<TxCall>) returns (after: seq<TxCall>)
      modifies account
      ensures account.next == old(account.next) + ChangeCount(outputs)
      ensures after == calls + OutputCalls(FillChange(outputs, account.changeChain, old(account.next)))
    {
      ghost var next0 := account.next;
      ghost var chain := account.changeChain;
      after := calls;
      for k := 0 to |outputs|
        invariant account.next == next0 + ChangeCount(outputs[..k])
        invariant after == calls + OutputCalls(FillChange(outputs[..k], chain, next0))
      {
        OutputTurn(outputs, k, chain, next0, account.next, calls, after);
        var output := ResolveChange(account, outputs[k]);
        after := after + [OutputCall(output)];
      }
      assert outputs[..|outputs|] == outputs;
    }

    /** The address check inside the output loop: a change output takes the account's next change address. */
    static method ResolveChange(account: Account, output: Output) returns (resolved: Output)
      modifies account
      ensures account.next == old(account.next) + if NeedsChange(output) then 1 else 0
      ensures resolved == FillOne(output, account.changeChain, old(account.next))
    {
      resolved := output;
      if output.address == "" {
        var change := account.GetNextChangeAddress();
        resolved := output.(address := change.publicAddress);
      }
    }

    /** The output loop without an account: the first change output stops it. */
    static method AddOutputsWithout(outputs: seq<Output>, calls: seq<TxCall>) returns (r: Result<seq<TxCall>, Error>)
      ensures r == if ChangeCount(outputs) > 0 then Failure(ChangeWithoutAccount) else Success(calls + OutputCalls(outputs))
    {
      var after := calls;
      for k := 0 to |outputs|
        invariant ChangeCount(outputs[..k]) == 0
        invariant after == calls + OutputCalls(outputs[..k])
      {
        if outputs[k].address == "" {
          assert outputs[..k + 1] == outputs[..k] + [outputs[k]];
          ChangeCountSnoc(outputs[..k], outputs[k]);
          ChangeCountPrefix(outputs, k + 1);
          return Failure(ChangeWithoutAccount);
        }
        OutputStepNoChange(outputs, k);
        after := after + [OutputCall(outputs[k])];
      }
      assert outputs[..|outputs|] == outputs;
      return Success(after);
    }

    /**
     * The nested signing loop: input `i` is signed with the key of every source
     * whose public address is the input's address, input after input, source
     * after source.
     */
    method SignInputs(inputs: seq<Utxo>, calls: seq<TxCall>) returns (after: seq<TxCall>)
      ensures after == calls + SignCalls(inputs, from)
    {
      after := calls;
      for i := 0 to |inputs|
        invariant after == calls + SignCalls(inputs[..i], from)
      {
        ghost var base := after;
        for j := 0 to |from|
          invariant after == base + SignsFor(i, inputs[i].address, from[..j])
        {
          SignsForTurn(i, inputs[i].address, from, j, base, after);
          if from[j].publicAddress == inputs[i].address {
            after := after + [Sign(i, from[j].key)];
          }
        }
        assert from[..|from|] == from;
        SignCallsTurn(inputs, from, i, calls, after);
      }
      assert inputs[..|inputs|] == inputs;
    }

    /**
     * Selects coins and assembles the transaction: no result without a
     * selection; otherwise the version, the inputs, the outputs (each change
     * output resolved from the account), the signatures and the hex.
     */
    method BuildTX(explorer: Explorer, select: Selector, codec: Codec) returns (r: BuildResult)
      modifies account
      ensures var sel := select(SelectionRequest(explorer));
        (sel.inputs.None? || sel.outputs.None?) ==>
          r == NoSolution && (account != null ==> account.next == old(account.next))
      ensures var sel := select(SelectionRequest(explorer));
        sel.inputs.Some? && sel.outputs.Some? && account == null ==>
          r == if ChangeCount(sel.outputs.value) > 0 then Failed(ChangeWithoutAccount)
               else Finish(codec, Plan(coin.txVersion, sel.inputs.value, sel.outputs.value, from),
                           coin.getExtraBytes(passedOptions))
      ensures var sel := select(SelectionRequest(explorer));
        sel.inputs.Some? && sel.outputs.Some? && account != null ==>
          && account.next == old(account.next) + ChangeCount(sel.outputs.value)
          && r == Finish(codec,
                         Plan(coin.txVersion, sel.inputs.value,
                              FillChange(sel.outputs.value, account.changeChain, old(account.next)), from),
                         coin.getExtraBytes(passedOptions))
    {
      var selected := select(SelectionRequest(explorer));
      if selected.inputs.None? || selected.outputs.None? {
        return NoSolution;
      }
      var inputs, outputs := selected.inputs.value, selected.outputs.value;
      var calls := AddInputs(inputs, [SetVersion(coin.txVersion)]);
      var added := AddOutputs(outputs, calls);
      if added.Failure? {
        return Failed(added.error);
      }
      calls := SignInputs(inputs, added.value);
      var built := codec(calls);
      if built.None? {
        return Failed(CodecRejected);
      }
      var hex := built.value;
      var extraBytes := coin.getExtraBytes(passedOptions);
      if extraBytes != "" {
        hex := hex + extraBytes;
      }
      return Built(hex, calls);
    }
  }
}
