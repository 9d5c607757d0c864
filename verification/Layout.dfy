/** The bytes of every message, field by field with the tags as they stand on the wire, and what
    one field does to the message that reads it. */
module Layout {
  import opened Bytes
  import opened Names
  import opened Wire
  import opened Messages
  import opened ObservedMessages

  // ---- fields ----

  /** A tag, a length and the bytes. */
  function Part(tag: byte, d: Bytes): Bytes {
    [tag] + (EncVarint(|d|) + d)
  }

  /** The same, left out when empty. */
  function Text(tag: byte, d: Bytes): Bytes {
    if d == [] then [] else Part(tag, d)
  }

  /** A tag and a number. */
  function Whole(tag: byte, v: nat): Bytes {
    [tag] + EncVarint(v)
  }

  /** The same, left out when zero. */
  function Number(tag: byte, v: nat): Bytes {
    if v == 0 then [] else Whole(tag, v)
  }

  /** A negative number is written as the one that is congruent to it. */
  function Signed(tag: byte, v: Int64): Bytes {
    Number(tag, if v < 0 then v + 0x1_0000_0000_0000_0000 else v)
  }

  /** A tag and a one, left out when false. */
  function Mark(tag: byte, b: bool): Bytes {
    if b then [tag, 1] else []
  }

  /** One part for each element. */
  function Parts(tag: byte, ds: seq<Bytes>): Bytes {
    if ds == [] then [] else Part(tag, ds[0]) + Parts(tag, ds[1..])
  }

  lemma PartIs(num: nat, tag: byte, d: Bytes, rest: seq<Item>)
    requires num <= 15 && tag as int == num * 8 + 2
    ensures EncItems(Always(num, d) + rest) == Part(tag, d) + EncItems(rest)
    ensures EncItems(OptData(num, d) + rest) == Text(tag, d) + EncItems(rest)
  {
    EncAppend(Always(num, d), rest);
    EncAppend(OptData(num, d), rest);
    EncAlways(num, d);
  }

  lemma NumberIs(num: nat, tag: byte, v: nat, rest: seq<Item>)
    requires num <= 15 && tag as int == num * 8
    ensures EncItems(OptNum(num, v) + rest) == Number(tag, v) + EncItems(rest)
  {
    EncAppend(OptNum(num, v), rest);
    EncNum(num, v);
  }

  lemma MarkIs(num: nat, tag: byte, b: bool, rest: seq<Item>)
    requires num <= 15 && tag as int == num * 8
    ensures EncItems(Flag(num, b) + rest) == Mark(tag, b) + EncItems(rest)
  {
    EncAppend(Flag(num, b), rest);
    EncNum(num, 1);
  }

  lemma {:induction false} PartsIs(num: nat, tag: byte, ds: seq<Bytes>, rest: seq<Item>)
    requires num <= 15 && tag as int == num * 8 + 2
    ensures EncItems(Each(num, ds) + rest) == Parts(tag, ds) + EncItems(rest)
    decreases |ds|
  {
    if ds == [] {
      assert Each(num, ds) + rest == rest;
    } else {
      var more := Each(num, ds[1..]) + rest;
      assert Each(num, ds) + rest == Always(num, ds[0]) + more;
      PartIs(num, tag, ds[0], more);
      PartsIs(num, tag, ds[1..], rest);
      Regroup(Part(tag, ds[0]), Parts(tag, ds[1..]), EncItems(rest));
    }
  }

  lemma Regroup(a: Bytes, b: Bytes, c: Bytes)
    ensures a + (b + c) == (a + b) + c
  {
  }

  /** Nothing follows. */
  lemma Ends(items: seq<Item>)
    ensures items + [] == items && EncItems([]) == []
  {
  }

  // ---- the layout of each message ----

  lemma AssetLayout(m: Asset)
    ensures EncAsset(m) == Text(0x0a, m.chain) + (Text(0x12, m.symbol) + (Text(0x1a, m.ticker) + Mark(0x30, m.secured)))
  {
    var i3 := Flag(6, m.secured);
    Ends(i3);
    MarkIs(6, 0x30, m.secured, []);
    PartIs(3, 0x1a, m.ticker, i3);
    PartIs(2, 0x12, m.symbol, OptData(3, m.ticker) + i3);
    PartIs(1, 0x0a, m.chain, OptData(2, m.symbol) + (OptData(3, m.ticker) + i3));
  }

  lemma TxInputLayout(m: TxInput)
    ensures EncTxInput(m) == Text(0x0a, m.txId) + (Number(0x10, m.vout) + Number(0x18, m.amountSats))
  {
    var i2 := OptNum(3, m.amountSats);
    Ends(i2);
    NumberIs(3, 0x18, m.amountSats, []);
    NumberIs(2, 0x10, m.vout, i2);
    PartIs(1, 0x0a, m.txId, OptNum(2, m.vout) + i2);
  }

  /** An input with id "ab", output 1 and amount 5. */
  lemma TxInputExample()
    ensures EncTxInput(TxInput([0x61, 0x62], 1, 5)) == [0x0a, 2, 0x61, 0x62, 0x10, 1, 0x18, 5]
  {
    TxInputLayout(TxInput([0x61, 0x62], 1, 5));
  }

  lemma AttestationLayout(m: Attestation)
    ensures EncAttestation(m) == Text(0x0a, m.pubKey) + Text(0x12, m.signature)
  {
    Ends(OptData(2, m.signature));
    PartIs(2, 0x12, m.signature, []);
    PartIs(1, 0x0a, m.pubKey, OptData(2, m.signature));
  }

  lemma CoinLayout(u: UintOps, m: Coin)
    ensures EncCoin(u, m) == Part(0x0a, EncAsset(m.asset)) + (Part(0x12, u.enc(m.amount)) + Signed(0x18, m.decimals))
  {
    var i2 := OptNum(3, Unsigned(m.decimals));
    Ends(i2);
    NumberIs(3, 0x18, Unsigned(m.decimals), []);
    PartIs(2, 0x12, u.enc(m.amount), i2);
    PartIs(1, 0x0a, EncAsset(m.asset), Always(2, u.enc(m.amount)) + i2);
  }

  /** `ds` are the encodings of the coins. */
  predicate CoinsAs(u: UintOps, cs: seq<Coin>, ds: seq<Bytes>) {
    |ds| == |cs| && forall k :: 0 <= k < |cs| ==> ds[k] == EncCoin(u, cs[k])
  }

  predicate InputsAs(ins: seq<TxInput>, ds: seq<Bytes>) {
    |ds| == |ins| && forall k :: 0 <= k < |ins| ==> ds[k] == EncTxInput(ins[k])
  }

  lemma TxListsLayout(ds: TxParts, m: Tx)
    ensures EncItems(TxLists(ds, m)) ==
      Parts(0x2a, ds.coins) + (Parts(0x32, ds.gas) + (Number(0x38, m.sourceVout) + Parts(0x42, ds.inputs)))
  {
    var ins := Each(8, ds.inputs);
    Ends(ins);
    PartsIs(8, 0x42, ds.inputs, []);
    NumberIs(7, 0x38, m.sourceVout, ins);
    PartsIs(6, 0x32, ds.gas, TxTail(ds, m));
    PartsIs(5, 0x2a, ds.coins, Each(6, ds.gas) + TxTail(ds, m));
  }

  lemma TxLayout(u: UintOps, m: Tx) returns (coins: seq<Bytes>, gas: seq<Bytes>, ins: seq<Bytes>)
    ensures CoinsAs(u, m.coins, coins) && CoinsAs(u, m.gas, gas) && InputsAs(m.sourceInputs, ins)
    ensures EncTx(u, m) == Text(0x0a, m.id) + (Text(0x12, m.chain) + (Text(0x1a, m.fromAddress) + (Text(0x22, m.toAddress) +
      (Parts(0x2a, coins) + (Parts(0x32, gas) + (Number(0x38, m.sourceVout) + Parts(0x42, ins)))))))
  {
    var ds := EncParts(u, m);
    coins, gas, ins := ds.coins, ds.gas, ds.inputs;
    TxListsLayout(ds, m);
    var i4 := TxLists(ds, m);
    var i3 := OptData(4, m.toAddress) + i4;
    var i2 := OptData(3, m.fromAddress) + i3;
    PartIs(4, 0x22, m.toAddress, i4);
    PartIs(3, 0x1a, m.fromAddress, i3);
    PartIs(2, 0x12, m.chain, i2);
    PartIs(1, 0x0a, m.id, OptData(2, m.chain) + i2);
  }

  function LimitPart(u: UintOps, limit: Option<Uint>): Bytes {
    if limit.None? then [] else Part(0x5a, u.enc(limit.value))
  }

  lemma ObservedTailLayout(u: UintOps, m: ObservedTx)
    ensures EncItems(ObservedTail(u, m)) == Text(0x4a, m.aggregator) + (Text(0x52, m.aggregatorTarget) + LimitPart(u, m.aggregatorTargetLimit))
  {
    var limit := LimitItems(u, m.aggregatorTargetLimit);
    Ends(limit);
    if m.aggregatorTargetLimit.Some? {
      PartIs(11, 0x5a, u.enc(m.aggregatorTargetLimit.value), []);
    }
    PartIs(10, 0x52, m.aggregatorTarget, limit);
    PartIs(9, 0x4a, m.aggregator, OptData(10, m.aggregatorTarget) + limit);
  }

  lemma ObservedMidLayout(u: UintOps, m: ObservedTx)
    ensures EncItems(ObservedMid(u, m)) == Text(0x32, m.observedPubKey) + (Signed(0x38, m.keysignMs) + (Signed(0x40, m.finaliseHeight) +
      (Text(0x4a, m.aggregator) + (Text(0x52, m.aggregatorTarget) + LimitPart(u, m.aggregatorTargetLimit)))))
  {
    ObservedTailLayout(u, m);
    var i3 := ObservedTail(u, m);
    var i2 := OptNum(8, Unsigned(m.finaliseHeight)) + i3;
    NumberIs(8, 0x40, Unsigned(m.finaliseHeight), i3);
    NumberIs(7, 0x38, Unsigned(m.keysignMs), i2);
    PartIs(6, 0x32, m.observedPubKey, OptNum(7, Unsigned(m.keysignMs)) + i2);
  }

  lemma ObservedLayout(u: UintOps, m: ObservedTx)
    ensures EncObserved(u, m) == Part(0x0a, EncTx(u, m.tx)) + (Signed(0x10, m.status) + (Parts(0x1a, m.outHashes) +
      (Signed(0x20, m.blockHeight) + (Parts(0x2a, m.signers) + (Text(0x32, m.observedPubKey) + (Signed(0x38, m.keysignMs) +
      (Signed(0x40, m.finaliseHeight) + (Text(0x4a, m.aggregator) + (Text(0x52, m.aggregatorTarget) +
       LimitPart(u, m.aggregatorTargetLimit))))))))))
  {
    ObservedMidLayout(u, m);
    var i4 := ObservedMid(u, m);
    var i3 := Each(5, m.signers) + i4;
    PartsIs(5, 0x2a, m.signers, i4);
    NumberIs(4, 0x20, Unsigned(m.blockHeight), i3);
    PartsIs(3, 0x1a, m.outHashes, OptNum(4, Unsigned(m.blockHeight)) + i3);
    NumberIs(2, 0x10, Unsigned(m.status), ObservedLists(u, m));
    PartIs(1, 0x0a, EncTx(u, m.tx), OptNum(2, Unsigned(m.status)) + ObservedLists(u, m));
  }

  lemma FlagsLayout(m: QuorumTx)
    ensures EncItems(QuorumFlags(m)) == Mark(0x18, m.inbound) + Mark(0x20, m.allowFutureObservation)
  {
    var last := Flag(4, m.allowFutureObservation);
    Ends(last);
    MarkIs(4, 0x20, m.allowFutureObservation, []);
    MarkIs(3, 0x18, m.inbound, last);
  }

  lemma QuorumLayout(u: UintOps, m: QuorumTx) returns (atts: seq<Bytes>)
    ensures |atts| == |m.attestations| && forall k :: 0 <= k < |atts| ==> atts[k] == EncAttestation(m.attestations[k])
    ensures EncQuorum(u, m) ==
      Part(0x0a, EncObserved(u, m.obsTx)) + (Parts(0x12, atts) + (Mark(0x18, m.inbound) + Mark(0x20, m.allowFutureObservation)))
  {
    atts := EncAttestations(m.attestations);
    FlagsLayout(m);
    PartsIs(2, 0x12, atts, QuorumFlags(m));
    PartIs(1, 0x0a, EncObserved(u, m.obsTx), Each(2, atts) + QuorumFlags(m));
  }

  // ---- what one field does ----

  /** Reading one field of bytes into a message. */
  lemma ReadsPart<M>(c: Codec<M>, m: M, num: nat, tag: byte, d: Bytes)
    requires 1 <= num <= 15 && tag as int == num * 8 + 2 && num in c.kinds && c.kinds[num] == LenField && |Part(tag, d)| < TWO63
    ensures Decode(c, Part(tag, d), 0, m) == c.apply(m, num, Data(d))
  {
    var items := Always(num, d);
    EncAlways(num, d);
    DecodeStream(c, Part(tag, d), 0, m, items);
    assert items[1..] == [];
  }

  /** Reading one number into a message. */
  lemma ReadsWhole<M>(c: Codec<M>, m: M, num: nat, tag: byte, v: Uint64)
    requires 1 <= num <= 15 && tag as int == num * 8 && num in c.kinds && c.kinds[num] == VarintField
    ensures Decode(c, Whole(tag, v), 0, m) == c.apply(m, num, Num(v))
  {
    var items := [Known(num, Num(v))];
    EncNum(num, v);
    Uint64TakesTen(v);
    DecodeStream(c, Whole(tag, v), 0, m, items);
    assert items[1..] == [];
  }

  /** The value of a field that may have been refused, put into the message. */
  function Into<A, M>(r: Result<A>, put: A -> M): Result<M> {
    match r
    case Ok(a) => Ok(put(a))
    case Err(e) => Err(e)
  }

  /** The signed number of 64 bits a written one stands for. */
  function Back(v: Uint64): Int64 {
    if v >= 0x8000_0000_0000_0000 then v - 0x1_0000_0000_0000_0000 else v
  }

  /** The signed number in its low 32 bits. */
  function Back32(v: Uint64): Int32 {
    var low := v % 0x1_0000_0000;
    if low >= 0x8000_0000 then low - 0x1_0000_0000 else low
  }

  lemma BackIs(v: Uint64)
    ensures ToInt64(v) == Back(v) && ToInt32(v) == Back32(v)
  {
  }

  lemma ObservedNumbers(u: UintOps, m: ObservedTx, num: nat, v: Uint64)
    ensures var r := ObservedCodec(u).apply(m, num, Num(v));
      && (num == 2 ==> r == Ok(m.(status := ToInt32(v)))) && (num == 4 ==> r == Ok(m.(blockHeight := ToInt64(v))))
      && (num == 7 ==> r == Ok(m.(keysignMs := ToInt64(v)))) && (num == 8 ==> r == Ok(m.(finaliseHeight := ToInt64(v))))
  {
  }

  lemma QuorumNumbers(u: UintOps, m: QuorumTx, num: nat, v: Uint64)
    ensures var r := QuorumCodec(u).apply(m, num, Num(v));
      && (num == 3 ==> r == Ok(m.(inbound := v != 0))) && (num == 4 ==> r == Ok(m.(allowFutureObservation := v != 0)))
  {
    assert v % TWO64 == v;
  }

  /** Each field replaces what was there. */
  lemma AssetReadsParts(m: Asset, tag: byte, d: Bytes)
    requires tag in [0x0a, 0x12, 0x1a] && |Part(tag, d)| < TWO63
    ensures var r := Decode(AssetCodec, Part(tag, d), 0, m);
      && (tag == 0x0a ==> r == Ok(m.(chain := d)))
      && (tag == 0x12 ==> r == Ok(m.(symbol := d)))
      && (tag == 0x1a ==> r == Ok(m.(ticker := d)))
  {
    ReadsPart(AssetCodec, m, tag as nat / 8, tag, d);
  }

  lemma AssetReadsNumbers(m: Asset, tag: byte, v: Uint64)
    requires tag in [0x30]
    ensures var r := Decode(AssetCodec, Whole(tag, v), 0, m);
      && (tag == 0x30 ==> r == Ok(m.(secured := v != 0)))
  {
    ReadsWhole(AssetCodec, m, tag as nat / 8, tag, v);
  }

  lemma TxInputReadsParts(m: TxInput, tag: byte, d: Bytes)
    requires tag in [0x0a] && |Part(tag, d)| < TWO63
    ensures var r := Decode(TxInputCodec, Part(tag, d), 0, m);
      && (tag == 0x0a ==> r == Ok(m.(txId := d)))
  {
    ReadsPart(TxInputCodec, m, tag as nat / 8, tag, d);
  }

  lemma TxInputReadsNumbers(m: TxInput, tag: byte, v: Uint64)
    requires tag in [0x10, 0x18]
    ensures var r := Decode(TxInputCodec, Whole(tag, v), 0, m);
      && (tag == 0x10 ==> r == Ok(m.(vout := v % 0x1_0000_0000)))
      && (tag == 0x18 ==> r == Ok(m.(amountSats := v)))
  {
    ReadsWhole(TxInputCodec, m, tag as nat / 8, tag, v);
  }

  lemma AttestationReadsParts(m: Attestation, tag: byte, d: Bytes)
    requires tag in [0x0a, 0x12] && |Part(tag, d)| < TWO63
    ensures var r := Decode(AttestationCodec, Part(tag, d), 0, m);
      && (tag == 0x0a ==> r == Ok(m.(pubKey := d)))
      && (tag == 0x12 ==> r == Ok(m.(signature := d)))
  {
    ReadsPart(AttestationCodec, m, tag as nat / 8, tag, d);
  }

  /** A nested message is read into the one that is there. */
  lemma CoinReadsParts(u: UintOps, m: Coin, tag: byte, d: Bytes)
    requires tag in [0x0a, 0x12] && |Part(tag, d)| < TWO63
    ensures var r := Decode(CoinCodec(u), Part(tag, d), 0, m);
      && (tag == 0x0a ==> r == Into(Decode(AssetCodec, d, 0, m.asset), (a: Asset) => m.(asset := a)))
      && (tag == 0x12 ==> r == Into(u.dec(d), (x: Uint) => m.(amount := x)))
  {
    ReadsPart(CoinCodec(u), m, tag as nat / 8, tag, d);
  }

  lemma CoinReadsNumbers(u: UintOps, m: Coin, tag: byte, v: Uint64)
    requires tag in [0x18]
    ensures var r := Decode(CoinCodec(u), Whole(tag, v), 0, m);
      && (tag == 0x18 ==> r == Ok(m.(decimals := Back(v))))
  {
    BackIs(v);
    ReadsWhole(CoinCodec(u), m, 3, 0x18, v);
  }

  /** Repeated fields are added to, the others replaced. */
  lemma TxReadsParts(u: UintOps, m: Tx, tag: byte, d: Bytes)
    requires tag in [0x0a, 0x12, 0x1a, 0x22, 0x2a, 0x32, 0x42] && |Part(tag, d)| < TWO63
    ensures var r := Decode(TxCodec(u), Part(tag, d), 0, m);
      && (tag == 0x0a ==> r == Ok(m.(id := d)))
      && (tag == 0x12 ==> r == Ok(m.(chain := d)))
      && (tag == 0x1a ==> r == Ok(m.(fromAddress := d)))
      && (tag == 0x22 ==> r == Ok(m.(toAddress := d)))
      && (tag == 0x2a ==> r == Into(Decode(CoinCodec(u), d, 0, ZeroCoin(u)), (c: Coin) => m.(coins := m.coins + [c])))
      && (tag == 0x32 ==> r == Into(Decode(CoinCodec(u), d, 0, ZeroCoin(u)), (c: Coin) => m.(gas := m.gas + [c])))
      && (tag == 0x42 ==> r == Into(Decode(TxInputCodec, d, 0, ZeroTxInput), (x: TxInput) => m.(sourceInputs := m.sourceInputs + [x])))
  {
    ReadsPart(TxCodec(u), m, tag as nat / 8, tag, d);
  }

  lemma TxReadsNumbers(u: UintOps, m: Tx, tag: byte, v: Uint64)
    requires tag in [0x38]
    ensures var r := Decode(TxCodec(u), Whole(tag, v), 0, m);
      && (tag == 0x38 ==> r == Ok(m.(sourceVout := v % 0x1_0000_0000)))
  {
    ReadsWhole(TxCodec(u), m, tag as nat / 8, tag, v);
  }

  lemma ObservedReadsParts(u: UintOps, m: ObservedTx, tag: byte, d: Bytes)
    requires tag in [0x0a, 0x1a, 0x2a, 0x32, 0x4a, 0x52, 0x5a] && |Part(tag, d)| < TWO63
    ensures var r := Decode(ObservedCodec(u), Part(tag, d), 0, m);
      && (tag == 0x0a ==> r == Into(Decode(TxCodec(u), d, 0, m.tx), (t: Tx) => m.(tx := t)))
      && (tag == 0x1a ==> r == Ok(m.(outHashes := m.outHashes + [d])))
      && (tag == 0x2a ==> r == Ok(m.(signers := m.signers + [d])))
      && (tag == 0x32 ==> r == Ok(m.(observedPubKey := d)))
      && (tag == 0x4a ==> r == Ok(m.(aggregator := d)))
      && (tag == 0x52 ==> r == Ok(m.(aggregatorTarget := d)))
      && (tag == 0x5a ==> r == Into(u.dec(d), (x: Uint) => m.(aggregatorTargetLimit := Some(x))))
  {
    ReadsPart(ObservedCodec(u), m, tag as nat / 8, tag, d);
  }

  lemma ObservedReadsNumbers(u: UintOps, m: ObservedTx, tag: byte, v: Uint64)
    requires tag in [0x10, 0x20, 0x38, 0x40]
    ensures var r := Decode(ObservedCodec(u), Whole(tag, v), 0, m);
      && (tag == 0x10 ==> r == Ok(m.(status := Back32(v))))
      && (tag == 0x20 ==> r == Ok(m.(blockHeight := Back(v))))
      && (tag == 0x38 ==> r == Ok(m.(keysignMs := Back(v))))
      && (tag == 0x40 ==> r == Ok(m.(finaliseHeight := Back(v))))
  {
    BackIs(v);
    ObservedNumbers(u, m, tag as nat / 8, v);
    ReadsWhole(ObservedCodec(u), m, tag as nat / 8, tag, v);
  }

  lemma QuorumReadsParts(u: UintOps, m: QuorumTx, tag: byte, d: Bytes)
    requires tag in [0x0a, 0x12] && |Part(tag, d)| < TWO63
    ensures var r := Decode(QuorumCodec(u), Part(tag, d), 0, m);
      && (tag == 0x0a ==> r == Into(Decode(ObservedCodec(u), d, 0, m.obsTx), (o: ObservedTx) => m.(obsTx := o)))
      && (tag == 0x12 ==> r == Into(Decode(AttestationCodec, d, 0, ZeroAttestation), (a: Attestation) => m.(attestations := m.attestations + [a])))
  {
    ReadsPart(QuorumCodec(u), m, tag as nat / 8, tag, d);
  }

  lemma QuorumReadsNumbers(u: UintOps, m: QuorumTx, tag: byte, v: Uint64)
    requires tag in [0x18, 0x20]
    ensures var r := Decode(QuorumCodec(u), Whole(tag, v), 0, m);
      && (tag == 0x18 ==> r == Ok(m.(inbound := v != 0)))
      && (tag == 0x20 ==> r == Ok(m.(allowFutureObservation := v != 0)))
  {
    QuorumNumbers(u, m, tag as nat / 8, v);
    ReadsWhole(QuorumCodec(u), m, tag as nat / 8, tag, v);
  }
}
