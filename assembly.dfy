/**
 * The assembly plan: the calls the builder issues on the codec's transaction
 * builder, the resolution of change outputs from the account's change chain,
 * and the signing of every input by each source whose address it carries.
 */
module Assembly {
  import opened Wrappers
  import opened Types

  /** An output the selector left without an address: a change output. */
  predicate NeedsChange(o: Output) {
    o.address == ""
  }

  /** The number of change outputs in `outs`. */
  function ChangeCount(outs: seq<Output>): (n: nat)
    ensures n <= |outs|
  {
    if outs == [] then 0
    else ChangeCount(outs[..|outs| - 1]) + (if NeedsChange(outs[|outs| - 1]) then 1 else 0)
  }

  lemma {:induction false} ChangeCountPrefix(outs: seq<Output>, m: nat)
    requires m <= |outs|
    ensures ChangeCount(outs[..m]) <= ChangeCount(outs)
  {
    if m < |outs| {
      assert outs[..|outs| - 1][..m] == outs[..m];
      ChangeCountPrefix(outs[..|outs| - 1], m);
    } else {
      assert outs[..m] == outs;
    }
  }

  lemma {:induction false} ChangeCountSnoc(outs: seq<Output>, o: Output)
    ensures ChangeCount(outs + [o]) == ChangeCount(outs) + if NeedsChange(o) then 1 else 0
  {
    assert (outs + [o])[..|outs|] == outs;
  }

  /** There are no change outputs exactly when every output has an address. */
  lemma {:induction false} ChangeCountZero(outs: seq<Output>)
    ensures ChangeCount(outs) == 0 <==> forall j :: 0 <= j < |outs| ==> !NeedsChange(outs[j])
  {
    if outs != [] {
      var init := outs[..|outs| - 1];
      ChangeCountZero(init);
      assert forall j :: 0 <= j < |init| ==> init[j] == outs[j];
    }
  }

  /** One output after resolution: a change output takes the chain's address at position `n`. */
  function FillOne(o: Output, chain: nat -> Address, n: nat): (r: Output)
    ensures r.value == o.value
    ensures !NeedsChange(o) ==> r == o
    ensures NeedsChange(o) ==> r.address == chain(n).publicAddress
  {
    if NeedsChange(o) then o.(address := chain(n).publicAddress) else o
  }

  /**
   * The outputs after resolution, when the account hands out `chain(next)`,
   * `chain(next + 1)`, ... one per request.
   */
  function FillChange(outs: seq<Output>, chain: nat -> Address, next: nat): (r: seq<Output>)
    ensures |r| == |outs|
  {
    if outs == [] then []
    else
      var init := outs[..|outs| - 1];
      FillChange(init, chain, next) + [FillOne(outs[|outs| - 1], chain, next + ChangeCount(init))]
  }

  lemma {:induction false} FillChangeSnoc(outs: seq<Output>, chain: nat -> Address, next: nat, o: Output)
    ensures FillChange(outs + [o], chain, next) == FillChange(outs, chain, next) + [FillOne(o, chain, next + ChangeCount(outs))]
  {
    assert (outs + [o])[..|outs|] == outs;
  }

  /**
   * The output at position `j` keeps its address and value when it has one;
   * otherwise it keeps its value and gets the change address numbered by the
   * change outputs before it.
   */
  lemma {:induction false} FillChangeAt(outs: seq<Output>, chain: nat -> Address, next: nat, j: nat)
    requires j < |outs|
    ensures !NeedsChange(outs[j]) ==> FillChange(outs, chain, next)[j] == outs[j]
    ensures NeedsChange(outs[j]) ==>
      FillChange(outs, chain, next)[j] == Output(chain(next + ChangeCount(outs[..j])).publicAddress, outs[j].value)
  {
    var init := outs[..|outs| - 1];
    if j < |init| {
      FillChangeAt(init, chain, next, j);
      assert init[..j] == outs[..j];
    } else {
      assert init == outs[..j];
    }
  }

  /** Two change outputs get different, increasing positions of the change chain. */
  lemma {:induction false} ChangePositionsIncrease(outs: seq<Output>, j1: nat, j2: nat)
    requires j1 < j2 <= |outs|
    requires NeedsChange(outs[j1])
    ensures ChangeCount(outs[..j1]) < ChangeCount(outs[..j2])
  {
    assert outs[..j1 + 1][..j1] == outs[..j1];
    assert outs[..j2][..j1 + 1] == outs[..j1 + 1];
    ChangeCountPrefix(outs[..j2], j1 + 1);
  }

  /**
   * When the change chain never repeats a public address, two change outputs
   * are resolved to different addresses.
   */
  lemma {:induction false} ChangeAddressesDistinct(outs: seq<Output>, chain: nat -> Address, next: nat, j1: nat, j2: nat)
    requires j1 < j2 < |outs|
    requires NeedsChange(outs[j1]) && NeedsChange(outs[j2])
    requires forall m: nat, n: nat :: m != n ==> chain(m).publicAddress != chain(n).publicAddress
    ensures FillChange(outs, chain, next)[j1].address != FillChange(outs, chain, next)[j2].address
  {
    FillChangeAt(outs, chain, next, j1);
    FillChangeAt(outs, chain, next, j2);
    ChangePositionsIncrease(outs, j1, j2);
  }

  /** With no change outputs, resolution changes nothing. */
  lemma {:induction false} FillChangeNoChange(outs: seq<Output>, chain: nat -> Address, next: nat)
    requires ChangeCount(outs) == 0
    ensures FillChange(outs, chain, next) == outs
  {
    ChangeCountZero(outs);
    forall j | 0 <= j < |outs| ensures FillChange(outs, chain, next)[j] == outs[j] {
      FillChangeAt(outs, chain, next, j);
    }
  }

  /** The `addInput` calls, one per input in selection order. */
  function InputCalls(ins: seq<Utxo>): (c: seq<TxCall>)
    ensures |c| == |ins|
  {
    if ins == [] then []
    else InputCalls(ins[..|ins| - 1]) + [AddInput(ins[|ins| - 1].txId, ins[|ins| - 1].vout)]
  }

  /** The `k`-th `addInput` call adds the `k`-th selected input. */
  lemma {:induction false} InputCallsAt(ins: seq<Utxo>, k: nat)
    requires k < |ins|
    ensures InputCalls(ins)[k] == AddInput(ins[k].txId, ins[k].vout)
  {
    if k < |ins| - 1 {
      InputCallsAt(ins[..|ins| - 1], k);
    }
  }

  /** The `addOutput` call for one output. */
  function OutputCall(o: Output): TxCall {
    AddOutput(o.address, o.value)
  }

  /** The `addOutput` calls, one per output in selection order. */
  function OutputCalls(outs: seq<Output>): (c: seq<TxCall>)
    ensures |c| == |outs|
  {
    if outs == [] then []
    else OutputCalls(outs[..|outs| - 1]) + [OutputCall(outs[|outs| - 1])]
  }

  /** The `k`-th `addOutput` call adds the `k`-th output with its address and value. */
  lemma {:induction false} OutputCallsAt(outs: seq<Output>, k: nat)
    requires k < |outs|
    ensures OutputCalls(outs)[k] == AddOutput(outs[k].address, outs[k].value)
  {
    if k < |outs| - 1 {
      OutputCallsAt(outs[..|outs| - 1], k);
    }
  }

  lemma {:induction false} OutputCallsSnoc(outs: seq<Output>, o: Output)
    ensures OutputCalls(outs + [o]) == OutputCalls(outs) + [OutputCall(o)]
  {
    assert (outs + [o])[..|outs|] == outs;
  }

  /** One step of the output loop: the `k`-th output, resolved, extends the calls and the count. */
  lemma {:induction false} OutputStep(outs: seq<Output>, k: nat, chain: nat -> Address, next: nat)
    requires k < |outs|
    ensures ChangeCount(outs[..k + 1]) == ChangeCount(outs[..k]) + if NeedsChange(outs[k]) then 1 else 0
    ensures OutputCalls(FillChange(outs[..k + 1], chain, next)) ==
      OutputCalls(FillChange(outs[..k], chain, next)) + [OutputCall(FillOne(outs[k], chain, next + ChangeCount(outs[..k])))]
  {
    assert outs[..k + 1] == outs[..k] + [outs[k]];
    ChangeCountSnoc(outs[..k], outs[k]);
    FillChangeSnoc(outs[..k], chain, next, outs[k]);
    OutputCallsSnoc(FillChange(outs[..k], chain, next), FillOne(outs[k], chain, next + ChangeCount(outs[..k])));
  }

  /**
   * One turn of the output loop with an account: when the calls so far are
   * those of the resolved prefix and the account stands after its change
   * outputs, the `k`-th output resolved at that position extends both.
   */
  lemma {:induction false} OutputTurn(outs: seq<Output>, k: nat, chain: nat -> Address, next0: nat,
                                      next: nat, calls: seq<TxCall>, after: seq<TxCall>)
    requires k < |outs|
    requires next == next0 + ChangeCount(outs[..k])
    requires after == calls + OutputCalls(FillChange(outs[..k], chain, next0))
    ensures next + (if NeedsChange(outs[k]) then 1 else 0) == next0 + ChangeCount(outs[..k + 1])
    ensures after + [OutputCall(FillOne(outs[k], chain, next))] == calls + OutputCalls(FillChange(outs[..k + 1], chain, next0))
  {
    OutputStep(outs, k, chain, next0);
  }

  /** One step of the output loop without an account: an output with an address extends the calls. */
  lemma {:induction false} OutputStepNoChange(outs: seq<Output>, k: nat)
    requires k < |outs| && !NeedsChange(outs[k])
    ensures ChangeCount(outs[..k + 1]) == ChangeCount(outs[..k])
    ensures OutputCalls(outs[..k + 1]) == OutputCalls(outs[..k]) + [OutputCall(outs[k])]
  {
    assert outs[..k + 1] == outs[..k] + [outs[k]];
    ChangeCountSnoc(outs[..k], outs[k]);
    OutputCallsSnoc(outs[..k], outs[k]);
  }

  /** The `sign` calls for input `i` whose address is `address`: one per matching source, in source order. */
  function SignsFor(i: nat, address: string, from: seq<Address>): (r: seq<TxCall>)
    ensures |r| <= |from|
  {
    if from == [] then [] else SignStep(i, address, from[0]) + SignsFor(i, address, from[1..])
  }

  /** What one turn of the inner signing loop adds: a signature when the source carries the input's address. */
  function SignStep(i: nat, address: string, a: Address): (r: seq<TxCall>)
    ensures r != [] <==> a.publicAddress == address
    ensures r != [] ==> r == [Sign(i, a.key)]
  {
    if a.publicAddress == address then [Sign(i, a.key)] else []
  }

  /** Every call for input `i` is a `sign` call on index `i`. */
  lemma {:induction false} SignsForShape(i: nat, address: string, from: seq<Address>)
    ensures forall p :: 0 <= p < |SignsFor(i, address, from)| ==>
      SignsFor(i, address, from)[p].Sign? && SignsFor(i, address, from)[p].index == i
  {
    if from != [] {
      SignsForShape(i, address, from[1..]);
    }
  }

  lemma {:induction false} SignsForAppend(i: nat, address: string, a: seq<Address>, b: seq<Address>)
    ensures SignsFor(i, address, a + b) == SignsFor(i, address, a) + SignsFor(i, address, b)
  {
    if a == [] {
      assert a + b == b;
    } else {
      assert (a + b)[0] == a[0] && (a + b)[1..] == a[1..] + b;
      SignsForAppend(i, address, a[1..], b);
      assert SignsFor(i, address, a + b) == SignStep(i, address, a[0]) + SignsFor(i, address, a[1..] + b);
    }
  }

  /** One more source adds what that turn of the inner signing loop adds. */
  lemma {:induction false} SignsForStep(i: nat, address: string, from: seq<Address>, j: nat)
    requires j < |from|
    ensures SignsFor(i, address, from[..j + 1]) == SignsFor(i, address, from[..j]) + SignStep(i, address, from[j])
  {
    assert from[..j + 1] == from[..j] + [from[j]];
    SignsForAppend(i, address, from[..j], [from[j]]);
    assert SignsFor(i, address, [from[j]]) == SignStep(i, address, from[j]) + SignsFor(i, address, []);
  }

  /** One turn of the inner signing loop, stated on the calls made so far. */
  lemma {:induction false} SignsForTurn(i: nat, address: string, from: seq<Address>, j: nat,
                                        base: seq<TxCall>, got: seq<TxCall>)
    requires j < |from|
    requires got == base + SignsFor(i, address, from[..j])
    ensures got + SignStep(i, address, from[j]) == base + SignsFor(i, address, from[..j + 1])
  {
    SignsForStep(i, address, from, j);
  }

  /** The `sign` calls for all inputs: input after input, and for each input source after source. */
  function SignCalls(ins: seq<Utxo>, from: seq<Address>): (r: seq<TxCall>)
    ensures |r| <= |ins| * |from|
  {
    if ins == [] then []
    else
      var init := ins[..|ins| - 1];
      assert |init| * |from| + |from| == |ins| * |from|;
      SignCalls(init, from) + SignsFor(|ins| - 1, ins[|ins| - 1].address, from)
  }

  /** One more input adds the inner loop's calls for it. */
  lemma {:induction false} SignCallsStep(ins: seq<Utxo>, from: seq<Address>, i: nat)
    requires i < |ins|
    ensures SignCalls(ins[..i + 1], from) == SignCalls(ins[..i], from) + SignsFor(i, ins[i].address, from)
  {
    assert ins[..i + 1][..i] == ins[..i];
  }

  /** One turn of the outer signing loop, stated on the calls made so far. */
  lemma {:induction false} SignCallsTurn(ins: seq<Utxo>, from: seq<Address>, i: nat,
                                         base: seq<TxCall>, got: seq<TxCall>)
    requires i < |ins|
    requires got == base + SignCalls(ins[..i], from) + SignsFor(i, ins[i].address, from)
    ensures got == base + SignCalls(ins[..i + 1], from)
  {
    SignCallsStep(ins, from, i);
  }

  /** Every signing call is a `sign` call on the index of a selected input. */
  lemma {:induction false} SignCallsShape(ins: seq<Utxo>, from: seq<Address>)
    ensures forall p :: 0 <= p < |SignCalls(ins, from)| ==>
      SignCalls(ins, from)[p].Sign? && SignCalls(ins, from)[p].index < |ins|
  {
    if ins != [] {
      SignCallsShape(ins[..|ins| - 1], from);
      SignsForShape(|ins| - 1, ins[|ins| - 1].address, from);
    }
  }

  /** The number of sources whose public address is `address`. */
  function MatchCount(address: string, from: seq<Address>): (n: nat)
    ensures n <= |from|
  {
    if from == [] then 0
    else (if from[0].publicAddress == address then 1 else 0) + MatchCount(address, from[1..])
  }

  /** The number of `sign` calls for input `i`. */
  function SignCountAt(calls: seq<TxCall>, i: nat): (n: nat)
    ensures n <= |calls|
  {
    if calls == [] then 0
    else (if calls[0].Sign? && calls[0].index == i then 1 else 0) + SignCountAt(calls[1..], i)
  }

  lemma {:induction false} SignCountAtAppend(a: seq<TxCall>, b: seq<TxCall>, i: nat)
    ensures SignCountAt(a + b, i) == SignCountAt(a, i) + SignCountAt(b, i)
  {
    if a == [] {
      assert a + b == b;
    } else {
      assert (a + b)[1..] == a[1..] + b;
      SignCountAtAppend(a[1..], b, i);
    }
  }

  lemma {:induction false} SignsForCount(i: nat, address: string, from: seq<Address>, j: nat)
    ensures SignCountAt(SignsFor(i, address, from), j) == if i == j then MatchCount(address, from) else 0
  {
    if from != [] {
      var head := SignStep(i, address, from[0]);
      SignCountAtAppend(head, SignsFor(i, address, from[1..]), j);
      SignsForCount(i, address, from[1..], j);
    }
  }

  /** Input `i` is signed once for each source whose public address equals the input's address, and no other index is signed. */
  lemma {:induction false} SignCallsCount(ins: seq<Utxo>, from: seq<Address>, i: nat)
    ensures SignCountAt(SignCalls(ins, from), i) == if i < |ins| then MatchCount(ins[i].address, from) else 0
  {
    if ins != [] {
      var init := ins[..|ins| - 1];
      SignCountAtAppend(SignCalls(init, from), SignsFor(|ins| - 1, ins[|ins| - 1].address, from), i);
      SignCallsCount(init, from, i);
      SignsForCount(|ins| - 1, ins[|ins| - 1].address, from, i);
    }
  }

  lemma {:induction false} SignsForMember(i: nat, address: string, from: seq<Address>, j: nat, key: ECKey)
    ensures Sign(j, key) in SignsFor(i, address, from) <==>
      j == i && exists a :: a in from && a.publicAddress == address && a.key == key
  {
    if from != [] {
      SignsForMember(i, address, from[1..], j, key);
      assert from == [from[0]] + from[1..];
    }
  }

  /** Input `i` is signed with `key` exactly when some source carries the input's address and that key. */
  lemma {:induction false} SignCallsMember(ins: seq<Utxo>, from: seq<Address>, i: nat, key: ECKey)
    ensures Sign(i, key) in SignCalls(ins, from) <==>
      i < |ins| && exists a :: a in from && a.publicAddress == ins[i].address && a.key == key
  {
    if ins != [] {
      var init := ins[..|ins| - 1];
      SignCallsMember(init, from, i, key);
      SignsForMember(|ins| - 1, ins[|ins| - 1].address, from, i, key);
      if i < |init| {
        assert init[i] == ins[i];
      }
    }
  }

  /** An input whose address matches no source is never signed. */
  lemma {:induction false} UnmatchedInputUnsigned(ins: seq<Utxo>, from: seq<Address>, i: nat)
    requires i < |ins|
    requires forall a :: a in from ==> a.publicAddress != ins[i].address
    ensures forall p :: 0 <= p < |SignCalls(ins, from)| ==>
      SignCalls(ins, from)[p].Sign? && SignCalls(ins, from)[p].index != i
  {
    var r := SignCalls(ins, from);
    SignCallsShape(ins, from);
    forall p | 0 <= p < |r| ensures r[p].index != i {
      assert r[p] == Sign(r[p].index, r[p].key) && r[p] in r;
      SignCallsMember(ins, from, r[p].index, r[p].key);
    }
  }

  /** The `sign` calls come in input order. */
  lemma {:induction false} SignCallsOrdered(ins: seq<Utxo>, from: seq<Address>)
    ensures forall p, q :: 0 <= p < q < |SignCalls(ins, from)| ==>
      SignCalls(ins, from)[p].Sign? && SignCalls(ins, from)[q].Sign? &&
      SignCalls(ins, from)[p].index <= SignCalls(ins, from)[q].index
  {
    if ins != [] {
      var init := ins[..|ins| - 1];
      SignCallsOrdered(init, from);
      SignCallsShape(init, from);
      SignsForShape(|ins| - 1, ins[|ins| - 1].address, from);
      var left, right := SignCalls(init, from), SignsFor(|ins| - 1, ins[|ins| - 1].address, from);
      var r := left + right;
      assert SignCalls(ins, from) == r;
      forall p, q | 0 <= p < q < |r| ensures r[p].Sign? && r[q].Sign? && r[p].index <= r[q].index {
        if q < |left| {
          assert r[p] == left[p] && r[q] == left[q];
        } else if p < |left| {
          assert r[p] == left[p] && r[q] == right[q - |left|];
        } else {
          assert r[p] == right[p - |left|] && r[q] == right[q - |left|];
        }
      }
    } else {
      assert SignCalls(ins, from) == [];
    }
  }

  /**
   * Every call of one build: the version, the inputs, the (resolved) outputs
   * and the signatures, in that order.
   */
  function Plan(version: int, ins: seq<Utxo>, outs: seq<Output>, from: seq<Address>): (calls: seq<TxCall>)
    ensures |calls| == 1 + |ins| + |outs| + |SignCalls(ins, from)|
  {
    [SetVersion(version)] + InputCalls(ins) + OutputCalls(outs) + SignCalls(ins, from)
  }

  /**
   * The calls of a build: first the version, then the inputs and the outputs
   * in selection order, then the signatures.
   */
  lemma {:induction false} PlanLayout(version: int, ins: seq<Utxo>, outs: seq<Output>, from: seq<Address>)
    ensures var calls := Plan(version, ins, outs, from);
      && calls[0] == SetVersion(version)
      && (forall k :: 0 <= k < |ins| ==> calls[1 + k] == AddInput(ins[k].txId, ins[k].vout))
      && (forall k :: 0 <= k < |outs| ==> calls[1 + |ins| + k] == AddOutput(outs[k].address, outs[k].value))
      && calls[1 + |ins| + |outs|..] == SignCalls(ins, from)
  {
    var calls := Plan(version, ins, outs, from);
    forall k | 0 <= k < |ins| ensures calls[1 + k] == AddInput(ins[k].txId, ins[k].vout) {
      InputCallsAt(ins, k);
    }
    forall k | 0 <= k < |outs| ensures calls[1 + |ins| + k] == AddOutput(outs[k].address, outs[k].value) {
      OutputCallsAt(outs, k);
    }
  }

  /**
   * The end of a build: the codec's hex followed by the extra payload verbatim,
   * or an error when the codec refuses.
   */
  function Finish(codec: Codec, calls: seq<TxCall>, extra: string): (r: BuildResult)
    ensures r.Built? <==> codec(calls).Some?
    ensures codec(calls).None? ==> r == Failed(CodecRejected)
    ensures r.Failed? ==> r.error == CodecRejected
    ensures r.Built? ==>
      && r.calls == calls
      && |r.hex| == |codec(calls).value| + |extra|
      && r.hex[..|codec(calls).value|] == codec(calls).value
      && r.hex[|codec(calls).value|..] == extra
  {
    match codec(calls)
    case None => Failed(CodecRejected)
    case Some(hex) => Built(if extra != "" then hex + extra else hex, calls)
  }
}
