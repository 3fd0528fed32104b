/**
 * Normalisation of the caller's `from` and `to` options into the builder's
 * ordered lists of source addresses and payments.
 */
module Normalize {
  import opened Wrappers
  import opened Types

  /** The values `from` holds, in order: none, the single value, or the array's elements. */
  function FromItems(from: Option<FromOption>): (r: seq<FromValue>)
    ensures from.None? ==> r == []
    ensures from.Some? && from.value.FromOne? ==> r == [from.value.value]
    ensures from.Some? && from.value.FromList? ==> r == from.value.values
  {
    match from
    case None => []
    case Some(FromOne(v)) => [v]
    case Some(FromList(vs)) => vs
  }

  /** All key/value pairs of an array of maps, map after map. */
  function Flatten(maps: seq<seq<PayTo>>): (es: seq<PayTo>)
    ensures forall m, e :: 0 <= m < |maps| && e in maps[m] ==> e in es
  {
    if maps == [] then [] else Flatten(maps[..|maps| - 1]) + maps[|maps| - 1]
  }

  lemma {:induction false} FlattenStep(maps: seq<seq<PayTo>>, m: nat)
    requires m < |maps|
    ensures Flatten(maps[..m + 1]) == Flatten(maps[..m]) + maps[m]
  {
    assert maps[..m + 1][..m] == maps[..m];
  }

  /** A pair is enumerated exactly when it is a pair of one of the maps. */
  lemma {:induction false} FlattenMember(maps: seq<seq<PayTo>>, e: PayTo)
    ensures e in Flatten(maps) <==> exists m :: 0 <= m < |maps| && e in maps[m]
  {
    if maps != [] {
      var init := maps[..|maps| - 1];
      FlattenMember(init, e);
      assert forall m :: 0 <= m < |init| ==> init[m] == maps[m];
    }
  }

  /** The (address, amount) pairs `to` holds, in enumeration order. */
  function ToEntries(to: Option<ToOption>): (r: seq<PayTo>)
    ensures to.None? ==> r == []
    ensures to.Some? && to.value.ToMap? ==> r == to.value.entries
    ensures to.Some? && to.value.ToList? ==> r == Flatten(to.value.maps)
  {
    match to
    case None => []
    case Some(ToMap(es)) => es
    case Some(ToList(maps)) => Flatten(maps)
  }

  /** The `from` values of possibly absent options. */
  function SourceItems(options: Option<Options>): seq<FromValue> {
    if options.None? then [] else FromItems(options.value.from)
  }

  /** The `to` pairs of possibly absent options. */
  function TargetEntries(options: Option<Options>): seq<PayTo> {
    if options.None? then [] else ToEntries(options.value.to)
  }

  /** The index of the first value that is not an `Address` object, or |vs| when there is none. */
  function FirstNonAddress(vs: seq<FromValue>): (k: nat)
    ensures k <= |vs|
    ensures forall i :: 0 <= i < k ==> vs[i].AddressObject?
    ensures k < |vs| ==> vs[k].NonAddress?
  {
    if vs == [] || vs[0].NonAddress? then 0 else 1 + FirstNonAddress(vs[1..])
  }

  /** What one `addFrom` call appends: the address when it is valid. */
  function SourceStep(valid: string -> bool, v: FromValue): (r: seq<Address>)
    ensures |r| <= 1
    ensures r != [] <==> v.AddressObject? && valid(v.address.publicAddress)
    ensures r != [] ==> r == [v.address]
  {
    if v.AddressObject? && valid(v.address.publicAddress) then [v.address] else []
  }

  /** The `Address` objects of `vs` whose public address is valid, in order. */
  function AcceptedSources(valid: string -> bool, vs: seq<FromValue>): (r: seq<Address>)
    ensures |r| <= |vs|
  {
    if vs == [] then [] else SourceStep(valid, vs[0]) + AcceptedSources(valid, vs[1..])
  }

  lemma {:induction false} AcceptedSourcesAppend(valid: string -> bool, a: seq<FromValue>, b: seq<FromValue>)
    ensures AcceptedSources(valid, a + b) == AcceptedSources(valid, a) + AcceptedSources(valid, b)
  {
    if a == [] {
      assert a + b == b;
    } else {
      assert (a + b)[0] == a[0] && (a + b)[1..] == a[1..] + b;
      AcceptedSourcesAppend(valid, a[1..], b);
      assert AcceptedSources(valid, a + b) == SourceStep(valid, a[0]) + AcceptedSources(valid, a[1..] + b);
    }
  }

  /** One more value accepts what that value's `addFrom` call adds. */
  lemma {:induction false} AcceptedSourcesStep(valid: string -> bool, vs: seq<FromValue>, k: nat)
    requires k < |vs|
    ensures AcceptedSources(valid, vs[..k + 1]) == AcceptedSources(valid, vs[..k]) + SourceStep(valid, vs[k])
  {
    assert vs[..k + 1] == vs[..k] + [vs[k]];
    AcceptedSourcesAppend(valid, vs[..k], [vs[k]]);
  }

  /** One turn of the loop over `from` values, stated on the builder's list. */
  lemma {:induction false} AcceptedSourcesTurn(valid: string -> bool, vs: seq<FromValue>, k: nat,
                                               base: seq<Address>, got: seq<Address>)
    requires k < |vs|
    requires got == base + AcceptedSources(valid, vs[..k])
    ensures got + SourceStep(valid, vs[k]) == base + AcceptedSources(valid, vs[..k + 1])
  {
    AcceptedSourcesStep(valid, vs, k);
  }

  /** An address is accepted exactly when it is among the values and valid. */
  lemma {:induction false} AcceptedSourcesMember(valid: string -> bool, vs: seq<FromValue>, x: Address)
    ensures x in AcceptedSources(valid, vs) <==> AddressObject(x) in vs && valid(x.publicAddress)
  {
    if vs != [] {
      AcceptedSourcesMember(valid, vs[1..], x);
      assert vs == [vs[0]] + vs[1..];
    }
  }

  /** When every value is a valid `Address`, nothing is dropped and the order is kept. */
  lemma {:induction false} AcceptedSourcesAllValid(valid: string -> bool, vs: seq<FromValue>)
    requires forall i :: 0 <= i < |vs| ==> vs[i].AddressObject? && valid(vs[i].address.publicAddress)
    ensures |AcceptedSources(valid, vs)| == |vs|
    ensures forall i :: 0 <= i < |vs| ==> AcceptedSources(valid, vs)[i] == vs[i].address
  {
    if vs != [] {
      AcceptedSourcesAllValid(valid, vs[1..]);
    }
  }

  /** What one `addTo` call appends: the payment when the address is valid and the amount is a number. */
  function PaymentStep(valid: string -> bool, e: PayTo): (r: seq<Payment>)
    ensures |r| <= 1
    ensures r != [] <==> valid(e.address) && e.amount.Number?
    ensures r != [] ==> r == [Payment(e.address, e.amount.x)]
  {
    if valid(e.address) && e.amount.Number? then [Payment(e.address, e.amount.x)] else []
  }

  /** The pairs of `es` with a valid address and a numeric amount, as payments, in order. */
  function AcceptedPayments(valid: string -> bool, es: seq<PayTo>): (r: seq<Payment>)
    ensures |r| <= |es|
  {
    if es == [] then [] else PaymentStep(valid, es[0]) + AcceptedPayments(valid, es[1..])
  }

  lemma {:induction false} AcceptedPaymentsAppend(valid: string -> bool, a: seq<PayTo>, b: seq<PayTo>)
    ensures AcceptedPayments(valid, a + b) == AcceptedPayments(valid, a) + AcceptedPayments(valid, b)
  {
    if a == [] {
      assert a + b == b;
    } else {
      assert (a + b)[0] == a[0] && (a + b)[1..] == a[1..] + b;
      AcceptedPaymentsAppend(valid, a[1..], b);
      assert AcceptedPayments(valid, a + b) == PaymentStep(valid, a[0]) + AcceptedPayments(valid, a[1..] + b);
    }
  }

  /** One more pair accepts what that pair's `addTo` call adds. */
  lemma {:induction false} AcceptedPaymentsStep(valid: string -> bool, es: seq<PayTo>, k: nat)
    requires k < |es|
    ensures AcceptedPayments(valid, es[..k + 1]) == AcceptedPayments(valid, es[..k]) + PaymentStep(valid, es[k])
  {
    assert es[..k + 1] == es[..k] + [es[k]];
    AcceptedPaymentsAppend(valid, es[..k], [es[k]]);
  }

  /** One turn of the loop over the pairs of a map, stated on the builder's list. */
  lemma {:induction false} AcceptedPaymentsTurn(valid: string -> bool, es: seq<PayTo>, k: nat,
                                                base: seq<Payment>, got: seq<Payment>)
    requires k < |es|
    requires got == base + AcceptedPayments(valid, es[..k])
    ensures got + PaymentStep(valid, es[k]) == base + AcceptedPayments(valid, es[..k + 1])
  {
    AcceptedPaymentsStep(valid, es, k);
  }

  /** A payment is accepted exactly when its address is valid and its pair, with a numeric amount, is given. */
  lemma {:induction false} AcceptedPaymentsMember(valid: string -> bool, es: seq<PayTo>, p: Payment)
    ensures p in AcceptedPayments(valid, es) <==> PayTo(p.address, Number(p.amount)) in es && valid(p.address)
  {
    if es != [] {
      AcceptedPaymentsMember(valid, es[1..], p);
      assert es == [es[0]] + es[1..];
    }
  }

  /** An array of maps contributes the same payments as its maps one after the other. */
  lemma {:induction false} AcceptedPaymentsFlatten(valid: string -> bool, maps: seq<seq<PayTo>>, m: nat)
    requires m < |maps|
    ensures AcceptedPayments(valid, Flatten(maps[..m + 1])) ==
      AcceptedPayments(valid, Flatten(maps[..m])) + AcceptedPayments(valid, maps[m])
  {
    FlattenStep(maps, m);
    AcceptedPaymentsAppend(valid, Flatten(maps[..m]), maps[m]);
  }

  /** One turn of the loop over an array of maps, stated on the builder's list. */
  lemma {:induction false} AcceptedPaymentMapsTurn(valid: string -> bool, maps: seq<seq<PayTo>>, m: nat,
                                                   base: seq<Payment>, got: seq<Payment>)
    requires m < |maps|
    requires got == base + AcceptedPayments(valid, Flatten(maps[..m]))
    ensures got + AcceptedPayments(valid, maps[m]) == base + AcceptedPayments(valid, Flatten(maps[..m + 1]))
  {
    AcceptedPaymentsFlatten(valid, maps, m);
  }
}
