/** What attesters sign: an observed transaction without its signing time, and the direction. */
module Payload {
  import opened Bytes
  import opened Wire
  import opened Messages
  import opened ObservedMessages
  import opened Marshal
  import opened Layout

  function Canonical(o: ObservedTx): ObservedTx {
    o.(keysignMs := 0)
  }

  function SignablePayload(u: UintOps, o: ObservedTx, inbound: bool): Bytes {
    EncObserved(u, Canonical(o)) + [if inbound then 1 else 0]
  }

  method GetSignablePayloadWithInbound(u: UintOps, o: ObservedTx, inbound: bool) returns (payload: Bytes)
    ensures payload == SignablePayload(u, o, inbound)
  {
    var canonical := o.(keysignMs := 0);
    var bz := MarshalObserved(u, canonical);
    payload := bz[..] + [if inbound then 1 else 0];
  }

  /** What is signed, byte for byte: the fields of the observation in order, none for the signing time,
      and a last byte that is one for an inbound observation and zero for an outbound one. */
  lemma PayloadLayout(u: UintOps, o: ObservedTx, inbound: bool)
    ensures SignablePayload(u, o, inbound) == Part(0x0a, EncTx(u, o.tx)) + (Signed(0x10, o.status) + (Parts(0x1a, o.outHashes) +
      (Signed(0x20, o.blockHeight) + (Parts(0x2a, o.signers) + (Text(0x32, o.observedPubKey) +
      (Signed(0x40, o.finaliseHeight) + (Text(0x4a, o.aggregator) + (Text(0x52, o.aggregatorTarget) +
       LimitPart(u, o.aggregatorTargetLimit))))))))) + [if inbound then 1 else 0]
  {
    ObservedLayout(u, Canonical(o));
    var rest := Signed(0x40, o.finaliseHeight) + (Text(0x4a, o.aggregator) + (Text(0x52, o.aggregatorTarget) + LimitPart(u, o.aggregatorTargetLimit)));
    assert Signed(0x38, 0) + rest == rest;
  }

  /** The encoding names one message. */
  lemma EncodingIsInjective(u: UintOps, a: ObservedTx, b: ObservedTx)
    requires Faithful(u) && |EncObserved(u, a)| < TWO63 && EncObserved(u, a) == EncObserved(u, b)
    ensures a == b
  {
    ObservedRoundTrip(u, a);
    ObservedRoundTrip(u, b);
  }

  /** Payloads are equal exactly when the direction and every field but the signing time are. */
  lemma PayloadsEqualIff(u: UintOps, a: ObservedTx, x: bool, b: ObservedTx, y: bool)
    requires Faithful(u) && |SignablePayload(u, a, x)| <= TWO63
    ensures SignablePayload(u, a, x) == SignablePayload(u, b, y) <==> x == y && a.(keysignMs := b.keysignMs) == b
  {
    var p, q := SignablePayload(u, a, x), SignablePayload(u, b, y);
    assert Canonical(a) == Canonical(b) <==> a.(keysignMs := b.keysignMs) == b;
    if p == q {
      assert p[|p| - 1] == q[|q| - 1];
      assert p[..|p| - 1] == EncObserved(u, Canonical(a)) && q[..|q| - 1] == EncObserved(u, Canonical(b));
      EncodingIsInjective(u, Canonical(a), Canonical(b));
    }
  }

  method QuorumEquals(u: UintOps, a: QuorumTx, b: QuorumTx) returns (same: bool)
    requires Faithful(u) && |EncObserved(u, Canonical(a.obsTx))| < TWO63
    ensures same <==> a.inbound == b.inbound && a.obsTx.(keysignMs := b.obsTx.keysignMs) == b.obsTx
  {
    if a.inbound != b.inbound { return false; }
    var left := GetSignablePayloadWithInbound(u, a.obsTx, a.inbound);
    var right := GetSignablePayloadWithInbound(u, b.obsTx, b.inbound);
    PayloadsEqualIff(u, a.obsTx, a.inbound, b.obsTx, b.inbound);
    same := left == right;
  }

  // ---- removing attestations ----

  /** The attestations that are not among `gone`, in order. */
  function Without(list: seq<Attestation>, gone: seq<Attestation>): (r: seq<Attestation>)
    ensures forall x :: x in r <==> x in list && x !in gone
  {
    if list == [] then []
    else if list[0] in gone then Without(list[1..], gone)
    else [list[0]] + Without(list[1..], gone)
  }

  lemma {:induction false} WithoutAppend(list: seq<Attestation>, x: Attestation, gone: seq<Attestation>)
    ensures Without(list + [x], gone) == Without(list, gone) + if x in gone then [] else [x]
    decreases |list|
  {
    if list != [] {
      assert (list + [x])[0] == list[0] && (list + [x])[1..] == list[1..] + [x];
      WithoutAppend(list[1..], x, gone);
    } else {
      assert list + [x] == [x];
    }
  }

  lemma {:induction false} WithoutCounts(list: seq<Attestation>, gone: seq<Attestation>, x: Attestation)
    ensures multiset(Without(list, gone))[x] == if x in gone then 0 else multiset(list)[x]
    decreases |list|
  {
    if list != [] {
      WithoutCounts(list[1..], gone, x);
      assert list == [list[0]] + list[1..];
    }
  }

  method RemoveAttestations(existing: seq<Attestation>, toRemove: seq<Attestation>) returns (kept: seq<Attestation>, none: bool)
    ensures kept == Without(existing, toRemove)
    ensures forall x :: multiset(kept)[x] == if x in toRemove then 0 else multiset(existing)[x]
    ensures none <==> forall x :: x in existing ==> x in toRemove
  {
    kept := [];
    for i := 0 to |existing|
      invariant kept == Without(existing[..i], toRemove)
    {
      var found := false;
      for j := 0 to |toRemove|
        invariant found <==> existing[i] in toRemove[..j]
      {
        if existing[i].signature == toRemove[j].signature && existing[i].pubKey == toRemove[j].pubKey {
          found := true;
        }
      }
      assert toRemove[..|toRemove|] == toRemove;
      WithoutAppend(existing[..i], existing[i], toRemove);
      assert existing[..i] + [existing[i]] == existing[..i + 1];
      if !found {
        kept := kept + [existing[i]];
      }
    }
    assert existing[..|existing|] == existing;
    none := |kept| == 0;
    forall x ensures multiset(kept)[x] == if x in toRemove then 0 else multiset(existing)[x] {
      WithoutCounts(existing, toRemove, x);
    }
    assert kept != [] ==> kept[0] in kept;
  }
}
