/** The chain messages, the records each writes and what each record does when read. */
module Messages {
  import opened Bytes
  import opened Names
  import opened Wire

  type Uint32 = x: int | 0 <= x < 0x1_0000_0000
  type Int32 = x: int | -0x8000_0000 <= x < 0x8000_0000
  type Int64 = x: int | -0x8000_0000_0000_0000 <= x < 0x8000_0000_0000_0000

  /** The arbitrary-precision unsigned integer of the messages, with its own encoding. */
  type Uint(!new, ==)

  datatype UintOps = UintOps(zero: Uint, enc: Uint -> Bytes, dec: Bytes -> Result<Uint>)

  ghost predicate Faithful(u: UintOps) {
    forall x: Uint :: u.dec(u.enc(x)) == Ok(x)
  }

  datatype Asset = Asset(chain: Bytes, symbol: Bytes, ticker: Bytes, secured: bool)

  datatype Coin = Coin(asset: Asset, amount: Uint, decimals: Int64)

  datatype TxInput = TxInput(txId: Bytes, vout: Uint32, amountSats: Uint64)

  datatype Tx = Tx(id: Bytes, chain: Bytes, fromAddress: Bytes, toAddress: Bytes, coins: seq<Coin>, gas: seq<Coin>,
                   sourceVout: Uint32, sourceInputs: seq<TxInput>)

  datatype ObservedTx = ObservedTx(tx: Tx, status: Int32, outHashes: seq<Bytes>, blockHeight: Int64, signers: seq<Bytes>,
                                   observedPubKey: Bytes, keysignMs: Int64, finaliseHeight: Int64, aggregator: Bytes,
                                   aggregatorTarget: Bytes, aggregatorTargetLimit: Option<Uint>)

  datatype Attestation = Attestation(pubKey: Bytes, signature: Bytes)

  datatype QuorumTx = QuorumTx(obsTx: ObservedTx, attestations: seq<Attestation>, inbound: bool, allowFutureObservation: bool)

  // ---- numbers ----

  /** A signed number as the unsigned one that is written. */
  function Unsigned(v: Int64): Uint64 {
    if v < 0 then v + TWO64 else v
  }

  function ToUint32(raw: nat): Uint32 { raw % TWO32 }

  function ToUint64(raw: nat): Uint64 { raw % TWO64 }

  function ToInt64(raw: nat): Int64 {
    if raw % TWO64 >= TWO63 then raw % TWO64 - TWO64 else raw % TWO64
  }

  function ToInt32(raw: nat): Int32 {
    if raw % TWO32 >= 0x8000_0000 then raw % TWO32 - TWO32 else raw % TWO32
  }

  lemma SignedRoundTrip(v: Int64)
    ensures ToInt64(Unsigned(v)) == v
    ensures -0x8000_0000 <= v < 0x8000_0000 ==> ToInt32(Unsigned(v)) == v
    ensures Unsigned(v) == 0 <==> v == 0
  {
    if -0x8000_0000 <= v < 0 {
      assert v + TWO64 == (TWO32 - 1) * TWO32 + (v + TWO32);
    }
  }

  // ---- Asset ----

  function AssetItems(m: Asset): seq<Item> {
    OptData(1, m.chain) + (OptData(2, m.symbol) + (OptData(3, m.ticker) + Flag(6, m.secured)))
  }

  function EncAsset(m: Asset): Bytes { EncItems(AssetItems(m)) }

  const ZeroAsset := Asset([], [], [], false)

  function ApplyAsset(m: Asset, num: int, p: Payload): Result<Asset> {
    if num == 1 && p.Data? then Ok(m.(chain := p.bytes))
    else if num == 2 && p.Data? then Ok(m.(symbol := p.bytes))
    else if num == 3 && p.Data? then Ok(m.(ticker := p.bytes))
    else if num == 6 && p.Num? then Ok(m.(secured := p.raw % TWO64 != 0))
    else Err(IllegalTag)
  }

  const AssetCodec := Codec(map[1 := LenField, 2 := LenField, 3 := LenField, 6 := VarintField], ApplyAsset)

  lemma FoldAsset(m: Asset)
    ensures Fold(AssetCodec, ZeroAsset, AssetItems(m)) == Ok(m)
  {
    var c := AssetCodec;
    var m1 := ZeroAsset.(chain := m.chain);
    var m2 := m1.(symbol := m.symbol);
    var m3 := m2.(ticker := m.ticker);
    FoldFlag(c, m3, 6, m.secured, m);
    FoldOptData(c, m2, 3, m.ticker, m3);
    FoldThen(c, m2, OptData(3, m.ticker), m3, Flag(6, m.secured), Ok(m));
    FoldOptData(c, m1, 2, m.symbol, m2);
    FoldThen(c, m1, OptData(2, m.symbol), m2, OptData(3, m.ticker) + Flag(6, m.secured), Ok(m));
    FoldOptData(c, ZeroAsset, 1, m.chain, m1);
    FoldThen(c, ZeroAsset, OptData(1, m.chain), m1, OptData(2, m.symbol) + (OptData(3, m.ticker) + Flag(6, m.secured)), Ok(m));
  }

  lemma AssetShaped(m: Asset)
    ensures AllShaped(AssetCodec.kinds, AssetItems(m))
  {
    var k := AssetCodec.kinds;
    ShapedNum(k, 6, 0, m.secured, []);
    assert Flag(6, m.secured) + [] == Flag(6, m.secured);
    ShapedData(k, 3, m.ticker, Flag(6, m.secured));
    ShapedData(k, 2, m.symbol, OptData(3, m.ticker) + Flag(6, m.secured));
    ShapedData(k, 1, m.chain, OptData(2, m.symbol) + (OptData(3, m.ticker) + Flag(6, m.secured)));
  }

  ghost predicate SpellsAsset(m: Asset, d: Bytes) { Spells(AssetCodec.kinds, AssetItems(m), d) }

  lemma SpelledAsset(m: Asset, d: Bytes)
    requires SpellsAsset(m, d)
    ensures Decode(AssetCodec, d, 0, ZeroAsset) == Ok(m)
  {
    FoldAsset(m);
    SpelledReads(AssetCodec, ZeroAsset, m, AssetItems(m), d);
  }

  lemma AssetRoundTrip(m: Asset)
    requires |EncAsset(m)| < TWO63
    ensures Decode(AssetCodec, EncAsset(m), 0, ZeroAsset) == Ok(m)
  {
    AssetWritten(m);
    SpelledAsset(m, EncAsset(m));
  }

  lemma AssetWritten(m: Asset)
    requires |EncAsset(m)| < TWO63
    ensures SpellsAsset(m, EncAsset(m))
  {
    AssetShaped(m);
    WrittenSpells(AssetCodec.kinds, AssetItems(m));
  }

  // ---- TxInput ----

  function TxInputItems(m: TxInput): seq<Item> {
    OptData(1, m.txId) + (OptNum(2, m.vout) + OptNum(3, m.amountSats))
  }

  function EncTxInput(m: TxInput): Bytes { EncItems(TxInputItems(m)) }

  const ZeroTxInput := TxInput([], 0, 0)

  function ApplyTxInput(m: TxInput, num: int, p: Payload): Result<TxInput> {
    if num == 1 && p.Data? then Ok(m.(txId := p.bytes))
    else if num == 2 && p.Num? then Ok(m.(vout := ToUint32(p.raw)))
    else if num == 3 && p.Num? then Ok(m.(amountSats := ToUint64(p.raw)))
    else Err(IllegalTag)
  }

  const TxInputCodec := Codec(map[1 := LenField, 2 := VarintField, 3 := VarintField], ApplyTxInput)

  lemma FoldTxInput(m: TxInput)
    ensures Fold(TxInputCodec, ZeroTxInput, TxInputItems(m)) == Ok(m)
  {
    var c := TxInputCodec;
    var m1 := ZeroTxInput.(txId := m.txId);
    var m2 := m1.(vout := m.vout);
    FoldOptNum(c, m2, 3, m.amountSats, m);
    FoldOptNum(c, m1, 2, m.vout, m2);
    FoldThen(c, m1, OptNum(2, m.vout), m2, OptNum(3, m.amountSats), Ok(m));
    FoldOptData(c, ZeroTxInput, 1, m.txId, m1);
    FoldThen(c, ZeroTxInput, OptData(1, m.txId), m1, OptNum(2, m.vout) + OptNum(3, m.amountSats), Ok(m));
  }

  lemma TxInputShaped(m: TxInput)
    ensures AllShaped(TxInputCodec.kinds, TxInputItems(m))
  {
    var k := TxInputCodec.kinds;
    ShapedThen(k, OptNum(2, m.vout), OptNum(3, m.amountSats));
    ShapedThen(k, OptData(1, m.txId), OptNum(2, m.vout) + OptNum(3, m.amountSats));
  }

  ghost predicate SpellsTxInput(m: TxInput, d: Bytes) { Spells(TxInputCodec.kinds, TxInputItems(m), d) }

  lemma SpelledTxInput(m: TxInput, d: Bytes)
    requires SpellsTxInput(m, d)
    ensures Decode(TxInputCodec, d, 0, ZeroTxInput) == Ok(m)
  {
    FoldTxInput(m);
    SpelledReads(TxInputCodec, ZeroTxInput, m, TxInputItems(m), d);
  }

  lemma TxInputRoundTrip(m: TxInput)
    requires |EncTxInput(m)| < TWO63
    ensures Decode(TxInputCodec, EncTxInput(m), 0, ZeroTxInput) == Ok(m)
  {
    TxInputWritten(m);
    SpelledTxInput(m, EncTxInput(m));
  }

  lemma TxInputWritten(m: TxInput)
    requires |EncTxInput(m)| < TWO63
    ensures SpellsTxInput(m, EncTxInput(m))
  {
    TxInputShaped(m);
    WrittenSpells(TxInputCodec.kinds, TxInputItems(m));
  }

  // ---- Attestation ----

  function AttestationItems(m: Attestation): seq<Item> {
    OptData(1, m.pubKey) + OptData(2, m.signature)
  }

  function EncAttestation(m: Attestation): Bytes { EncItems(AttestationItems(m)) }

  const ZeroAttestation := Attestation([], [])

  function ApplyAttestation(m: Attestation, num: int, p: Payload): Result<Attestation> {
    if num == 1 && p.Data? then Ok(m.(pubKey := p.bytes))
    else if num == 2 && p.Data? then Ok(m.(signature := p.bytes))
    else Err(IllegalTag)
  }

  const AttestationCodec := Codec(map[1 := LenField, 2 := LenField], ApplyAttestation)

  lemma FoldAttestation(m: Attestation)
    ensures Fold(AttestationCodec, ZeroAttestation, AttestationItems(m)) == Ok(m)
  {
    var c := AttestationCodec;
    var m1 := ZeroAttestation.(pubKey := m.pubKey);
    FoldOptData(c, m1, 2, m.signature, m);
    FoldOptData(c, ZeroAttestation, 1, m.pubKey, m1);
    FoldThen(c, ZeroAttestation, OptData(1, m.pubKey), m1, OptData(2, m.signature), Ok(m));
  }

  ghost predicate SpellsAttestation(m: Attestation, d: Bytes) { Spells(AttestationCodec.kinds, AttestationItems(m), d) }

  lemma SpelledAttestation(m: Attestation, d: Bytes)
    requires SpellsAttestation(m, d)
    ensures Decode(AttestationCodec, d, 0, ZeroAttestation) == Ok(m)
  {
    FoldAttestation(m);
    SpelledReads(AttestationCodec, ZeroAttestation, m, AttestationItems(m), d);
  }

  lemma AttestationRoundTrip(m: Attestation)
    requires |EncAttestation(m)| < TWO63
    ensures Decode(AttestationCodec, EncAttestation(m), 0, ZeroAttestation) == Ok(m)
  {
    AttestationWritten(m);
    SpelledAttestation(m, EncAttestation(m));
  }

  lemma AttestationWritten(m: Attestation)
    requires |EncAttestation(m)| < TWO63
    ensures SpellsAttestation(m, EncAttestation(m))
  {
    WrittenSpells(AttestationCodec.kinds, AttestationItems(m));
  }

  // ---- Coin ----

  /** The records of a coin whose asset is written as `d`. */
  function CoinItemsWith(u: UintOps, d: Bytes, m: Coin): seq<Item> {
    Always(1, d) + (Always(2, u.enc(m.amount)) + OptNum(3, Unsigned(m.decimals)))
  }

  function CoinItems(u: UintOps, m: Coin): seq<Item> { CoinItemsWith(u, EncAsset(m.asset), m) }

  function EncCoin(u: UintOps, m: Coin): Bytes { EncItems(CoinItems(u, m)) }

  function ZeroCoin(u: UintOps): Coin { Coin(ZeroAsset, u.zero, 0) }

  function SetAsset(m: Coin, r: Result<Asset>): Result<Coin> {
    if r.Err? then Err(r.error) else Ok(m.(asset := r.value))
  }

  function SetAmount(m: Coin, r: Result<Uint>): Result<Coin> {
    if r.Err? then Err(r.error) else Ok(m.(amount := r.value))
  }

  function ApplyCoin(u: UintOps, m: Coin, num: int, p: Payload): Result<Coin> {
    if num == 1 && p.Data? then SetAsset(m, Decode(AssetCodec, p.bytes, 0, m.asset))
    else if num == 2 && p.Data? then SetAmount(m, u.dec(p.bytes))
    else if num == 3 && p.Num? then Ok(m.(decimals := ToInt64(p.raw)))
    else Err(IllegalTag)
  }

  function CoinCodec(u: UintOps): Codec<Coin> {
    Codec(map[1 := LenField, 2 := LenField, 3 := VarintField], (m, num, p) => ApplyCoin(u, m, num, p))
  }

  function ReadCoin(u: UintOps, s: Bytes): Result<Coin> {
    Decode(CoinCodec(u), s, 0, ZeroCoin(u))
  }

  lemma FoldCoin(u: UintOps, d: Bytes, m: Coin)
    requires Faithful(u) && Decode(AssetCodec, d, 0, ZeroAsset) == Ok(m.asset)
    ensures Fold(CoinCodec(u), ZeroCoin(u), CoinItemsWith(u, d, m)) == Ok(m)
  {
    var c, zero := CoinCodec(u), ZeroCoin(u);
    var asset, amount, decimals := Always(1, d), Always(2, u.enc(m.amount)), OptNum(3, Unsigned(m.decimals));
    SignedRoundTrip(m.decimals);
    var m1 := zero.(asset := m.asset);
    var m2 := m1.(amount := m.amount);
    FoldOptNum(c, m2, 3, Unsigned(m.decimals), m);
    FoldSingle(c, m1, 2, Data(u.enc(m.amount)), m2);
    FoldThen(c, m1, amount, m2, decimals, Ok(m));
    FoldSingle(c, zero, 1, Data(d), m1);
    FoldThen(c, zero, asset, m1, amount + decimals, Ok(m));
  }

  lemma CoinShaped(u: UintOps, m: Coin)
    ensures AllShaped(CoinCodec(u).kinds, CoinItems(u, m))
  {
    var k := CoinCodec(u).kinds;
    var amount, decimals := Always(2, u.enc(m.amount)), OptNum(3, Unsigned(m.decimals));
    ShapedThen(k, amount, decimals);
    ShapedThen(k, Always(1, EncAsset(m.asset)), amount + decimals);
  }

  ghost predicate SpellsCoin(u: UintOps, m: Coin, d: Bytes) {
    exists asset :: SpellsAsset(m.asset, asset) && Spells(CoinCodec(u).kinds, CoinItemsWith(u, asset, m), d)
  }

  lemma SpelledCoin(u: UintOps, m: Coin, d: Bytes)
    requires Faithful(u) && SpellsCoin(u, m, d)
    ensures ReadCoin(u, d) == Ok(m)
  {
    var asset :| SpellsAsset(m.asset, asset) && Spells(CoinCodec(u).kinds, CoinItemsWith(u, asset, m), d);
    SpelledAsset(m.asset, asset);
    FoldCoin(u, asset, m);
    SpelledReads(CoinCodec(u), ZeroCoin(u), m, CoinItemsWith(u, asset, m), d);
  }

  lemma CoinWritten(u: UintOps, m: Coin)
    requires |EncCoin(u, m)| < TWO63
    ensures SpellsCoin(u, m, EncCoin(u, m))
  {
    PartIsSmall(Always(1, EncAsset(m.asset)), Always(2, u.enc(m.amount)) + OptNum(3, Unsigned(m.decimals)), EncAsset(m.asset), 1);
    AssetWritten(m.asset);
    CoinShaped(u, m);
    WrittenSpells(CoinCodec(u).kinds, CoinItems(u, m));
  }

  lemma CoinRoundTrip(u: UintOps, m: Coin)
    requires Faithful(u) && |EncCoin(u, m)| < TWO63
    ensures ReadCoin(u, EncCoin(u, m)) == Ok(m)
  {
    CoinWritten(u, m);
    SpelledCoin(u, m, EncCoin(u, m));
  }

  /** A nested message is smaller than the one that holds it. */
  lemma {:induction false} NestedIsSmaller(items: seq<Item>, k: nat, num: nat, d: Bytes)
    requires k < |items| && items[k] == Known(num, Data(d))
    ensures |d| < |EncItems(items)|
    decreases |items|
  {
    if k > 0 {
      NestedIsSmaller(items[1..], k - 1, num, d);
    }
  }

  lemma PartIsSmall(a: seq<Item>, b: seq<Item>, d: Bytes, num: nat)
    requires a == Always(num, d)
    ensures |d| < |EncItems(a + b)|
  {
    NestedIsSmaller(a + b, 0, num, d);
  }

  // ---- Tx ----

  function EncCoins(u: UintOps, cs: seq<Coin>): (ds: seq<Bytes>)
    ensures |ds| == |cs| && forall k :: 0 <= k < |cs| ==> ds[k] == EncCoin(u, cs[k])
  {
    seq(|cs|, k requires 0 <= k < |cs| => EncCoin(u, cs[k]))
  }

  function EncTxInputs(ins: seq<TxInput>): (ds: seq<Bytes>)
    ensures |ds| == |ins| && forall k :: 0 <= k < |ins| ==> ds[k] == EncTxInput(ins[k])
  {
    seq(|ins|, k requires 0 <= k < |ins| => EncTxInput(ins[k]))
  }

  /** The encodings of a transaction's repeated messages. */
  datatype TxParts = TxParts(coins: seq<Bytes>, gas: seq<Bytes>, inputs: seq<Bytes>)

  function EncParts(u: UintOps, m: Tx): TxParts {
    TxParts(EncCoins(u, m.coins), EncCoins(u, m.gas), EncTxInputs(m.sourceInputs))
  }

  function TxTail(ds: TxParts, m: Tx): seq<Item> {
    OptNum(7, m.sourceVout) + Each(8, ds.inputs)
  }

  function TxLists(ds: TxParts, m: Tx): seq<Item> {
    Each(5, ds.coins) + (Each(6, ds.gas) + TxTail(ds, m))
  }

  /** The records of a transaction whose repeated messages are written as `ds`. */
  function TxItemsWith(ds: TxParts, m: Tx): seq<Item> {
    OptData(1, m.id) + (OptData(2, m.chain) + (OptData(3, m.fromAddress) + (OptData(4, m.toAddress) + TxLists(ds, m))))
  }

  function TxItems(u: UintOps, m: Tx): seq<Item> { TxItemsWith(EncParts(u, m), m) }

  function EncTx(u: UintOps, m: Tx): Bytes { EncItems(TxItems(u, m)) }

  const ZeroTx := Tx([], [], [], [], [], [], 0, [])

  function AddCoin(m: Tx, r: Result<Coin>): Result<Tx> {
    if r.Err? then Err(r.error) else Ok(m.(coins := m.coins + [r.value]))
  }

  function AddGas(m: Tx, r: Result<Coin>): Result<Tx> {
    if r.Err? then Err(r.error) else Ok(m.(gas := m.gas + [r.value]))
  }

  function AddInput(m: Tx, r: Result<TxInput>): Result<Tx> {
    if r.Err? then Err(r.error) else Ok(m.(sourceInputs := m.sourceInputs + [r.value]))
  }

  function ApplyTx(u: UintOps, m: Tx, num: int, p: Payload): Result<Tx> {
    if num == 1 && p.Data? then Ok(m.(id := p.bytes))
    else if num == 2 && p.Data? then Ok(m.(chain := p.bytes))
    else if num == 3 && p.Data? then Ok(m.(fromAddress := p.bytes))
    else if num == 4 && p.Data? then Ok(m.(toAddress := p.bytes))
    else if num == 5 && p.Data? then AddCoin(m, ReadCoin(u, p.bytes))
    else if num == 6 && p.Data? then AddGas(m, ReadCoin(u, p.bytes))
    else if num == 7 && p.Num? then Ok(m.(sourceVout := ToUint32(p.raw)))
    else if num == 8 && p.Data? then AddInput(m, Decode(TxInputCodec, p.bytes, 0, ZeroTxInput))
    else Err(IllegalTag)
  }

  const TxKinds := map[1 := LenField, 2 := LenField, 3 := LenField, 4 := LenField, 5 := LenField, 6 := LenField,
                       7 := VarintField, 8 := LenField]

  function TxCodec(u: UintOps): Codec<Tx> {
    Codec(TxKinds, (m, num, p) => ApplyTx(u, m, num, p))
  }

  predicate CoinsRead(u: UintOps, cs: seq<Coin>, ds: seq<Bytes>) {
    |ds| == |cs| && forall k :: 0 <= k < |cs| ==> ReadCoin(u, ds[k]) == Ok(cs[k])
  }

  predicate InputsRead(ins: seq<TxInput>, ds: seq<Bytes>) {
    |ds| == |ins| && forall k :: 0 <= k < |ins| ==> Decode(TxInputCodec, ds[k], 0, ZeroTxInput) == Ok(ins[k])
  }

  /** Each part reads back as the message it stands for. */
  predicate PartsRead(u: UintOps, m: Tx, ds: TxParts) {
    CoinsRead(u, m.coins, ds.coins) && CoinsRead(u, m.gas, ds.gas) && InputsRead(m.sourceInputs, ds.inputs)
  }

  lemma FoldCoins(u: UintOps, m: Tx, cs: seq<Coin>, ds: seq<Bytes>)
    requires CoinsRead(u, cs, ds) && m.coins == []
    ensures Fold(TxCodec(u), m, Each(5, ds)) == Ok(m.(coins := cs))
  {
    var c, with := TxCodec(u), (l: seq<Coin>) => m.(coins := l);
    forall j | 0 <= j < |cs| ensures Appends(c, 5, cs, ds, with, j) {
      assert cs[..j] + [cs[j]] == cs[..j + 1];
    }
    FoldEach(c, 5, cs, ds, with, 0);
    assert cs[..0] == [] && Each(5, ds)[0..] == Each(5, ds);
  }

  lemma FoldGas(u: UintOps, m: Tx, cs: seq<Coin>, ds: seq<Bytes>)
    requires CoinsRead(u, cs, ds) && m.gas == []
    ensures Fold(TxCodec(u), m, Each(6, ds)) == Ok(m.(gas := cs))
  {
    var c, with := TxCodec(u), (l: seq<Coin>) => m.(gas := l);
    forall j | 0 <= j < |cs| ensures Appends(c, 6, cs, ds, with, j) {
      assert cs[..j] + [cs[j]] == cs[..j + 1];
    }
    FoldEach(c, 6, cs, ds, with, 0);
    assert cs[..0] == [] && Each(6, ds)[0..] == Each(6, ds);
  }

  lemma AddedInput(m: Tx, ins: seq<TxInput>, j: nat)
    requires j < |ins|
    ensures AddInput(m.(sourceInputs := ins[..j]), Ok(ins[j])) == Ok(m.(sourceInputs := ins[..j + 1]))
  {
    assert ins[..j] + [ins[j]] == ins[..j + 1];
  }

  lemma FoldInputs(u: UintOps, m: Tx, ins: seq<TxInput>, ds: seq<Bytes>)
    requires InputsRead(ins, ds) && m.sourceInputs == []
    ensures Fold(TxCodec(u), m, Each(8, ds)) == Ok(m.(sourceInputs := ins))
  {
    var c, with := TxCodec(u), (l: seq<TxInput>) => m.(sourceInputs := l);
    forall j | 0 <= j < |ins| ensures Appends(c, 8, ins, ds, with, j) {
      AddedInput(m, ins, j);
    }
    FoldEach(c, 8, ins, ds, with, 0);
    assert ins[..0] == [] && Each(8, ds)[0..] == Each(8, ds);
  }

  lemma ApplyVout(u: UintOps, t: Tx, v: Uint32)
    ensures TxCodec(u).apply(t, 7, Num(v)) == Ok(t.(sourceVout := v))
  {
    assert ToUint32(v) == v;
  }

  lemma FoldTxTail(u: UintOps, ds: TxParts, m: Tx, t: Tx, want: Tx)
    requires InputsRead(m.sourceInputs, ds.inputs) && t.sourceVout == 0 && t.sourceInputs == []
    requires want == t.(sourceVout := m.sourceVout, sourceInputs := m.sourceInputs)
    ensures Fold(TxCodec(u), t, TxTail(ds, m)) == Ok(want)
  {
    var c, t1 := TxCodec(u), t.(sourceVout := m.sourceVout);
    FoldInputs(u, t1, m.sourceInputs, ds.inputs);
    ApplyVout(u, t, m.sourceVout);
    FoldOptNum(c, t, 7, m.sourceVout, t1);
    FoldThen(c, t, OptNum(7, m.sourceVout), t1, Each(8, ds.inputs), Ok(want));
  }

  lemma FoldTxLists(u: UintOps, ds: TxParts, m: Tx, t: Tx)
    requires PartsRead(u, m, ds)
    requires t == m.(coins := [], gas := [], sourceVout := 0, sourceInputs := [])
    ensures Fold(TxCodec(u), t, TxLists(ds, m)) == Ok(m)
  {
    var c, t1 := TxCodec(u), t.(coins := m.coins);
    var t2 := t1.(gas := m.gas);
    FoldCoins(u, t, m.coins, ds.coins);
    FoldGas(u, t1, m.gas, ds.gas);
    FoldTxTail(u, ds, m, t2, m);
    FoldThen(c, t1, Each(6, ds.gas), t2, TxTail(ds, m), Ok(m));
    FoldThen(c, t, Each(5, ds.coins), t1, Each(6, ds.gas) + TxTail(ds, m), Ok(m));
  }

  lemma FoldTx(u: UintOps, ds: TxParts, m: Tx)
    requires PartsRead(u, m, ds)
    ensures Fold(TxCodec(u), ZeroTx, TxItemsWith(ds, m)) == Ok(m)
  {
    var c := TxCodec(u);
    var t1 := ZeroTx.(id := m.id);
    var t2 := t1.(chain := m.chain);
    var t3 := t2.(fromAddress := m.fromAddress);
    var t4 := t3.(toAddress := m.toAddress);
    var i4 := TxLists(ds, m);
    var i3 := OptData(4, m.toAddress) + i4;
    var i2 := OptData(3, m.fromAddress) + i3;
    var i1 := OptData(2, m.chain) + i2;
    FoldTxLists(u, ds, m, t4);
    FoldOptData(c, t3, 4, m.toAddress, t4);
    FoldThen(c, t3, OptData(4, m.toAddress), t4, i4, Ok(m));
    FoldOptData(c, t2, 3, m.fromAddress, t3);
    FoldThen(c, t2, OptData(3, m.fromAddress), t3, i3, Ok(m));
    FoldOptData(c, t1, 2, m.chain, t2);
    FoldThen(c, t1, OptData(2, m.chain), t2, i2, Ok(m));
    FoldOptData(c, ZeroTx, 1, m.id, t1);
    FoldThen(c, ZeroTx, OptData(1, m.id), t1, i1, Ok(m));
  }

  /** The elements of a repeated field are smaller than the message. */
  lemma EachIsSmall(a: seq<Item>, num: nat, ds: seq<Bytes>, b: seq<Item>)
    ensures forall k :: 0 <= k < |ds| ==> |ds[k]| < |EncItems(a + (Each(num, ds) + b))|
  {
    forall k | 0 <= k < |ds| ensures |ds[k]| < |EncItems(a + (Each(num, ds) + b))| {
      NestedIsSmaller(a + (Each(num, ds) + b), |a| + k, num, ds[k]);
    }
  }

  /** The lists inside the records of a transaction. */
  lemma TxListsAt(ds: TxParts, m: Tx) returns (head: seq<Item>, mid: seq<Item>)
    ensures TxItemsWith(ds, m) == head + (Each(5, ds.coins) + (Each(6, ds.gas) + TxTail(ds, m)))
    ensures TxItemsWith(ds, m) == (head + Each(5, ds.coins)) + (Each(6, ds.gas) + TxTail(ds, m))
    ensures TxItemsWith(ds, m) == mid + (Each(8, ds.inputs) + [])
  {
    var coins, gas, ins := Each(5, ds.coins), Each(6, ds.gas), Each(8, ds.inputs);
    head := OptData(1, m.id) + (OptData(2, m.chain) + (OptData(3, m.fromAddress) + OptData(4, m.toAddress)));
    mid := head + (coins + (gas + OptNum(7, m.sourceVout)));
    RegroupFour(OptData(1, m.id), OptData(2, m.chain), OptData(3, m.fromAddress), OptData(4, m.toAddress), TxLists(ds, m));
    RegroupFour(head, coins, gas, OptNum(7, m.sourceVout), ins + []);
    assert ins + [] == ins;
    RegroupTwo(head, coins, gas + TxTail(ds, m));
  }

  lemma RegroupTwo<T>(a: seq<T>, b: seq<T>, rest: seq<T>)
    ensures a + (b + rest) == (a + b) + rest
  {
  }

  lemma RegroupFour<T>(a: seq<T>, b: seq<T>, c: seq<T>, d: seq<T>, rest: seq<T>)
    ensures a + (b + (c + (d + rest))) == (a + (b + (c + d))) + rest
  {
    RegroupTwo(c, d, rest);
    RegroupTwo(b, c + d, rest);
    RegroupTwo(a, b + (c + d), rest);
  }

  lemma TxShaped(ds: TxParts, m: Tx)
    ensures AllShaped(TxKinds, TxItemsWith(ds, m))
  {
    var k := TxKinds;
    var ins := Each(8, ds.inputs);
    ShapedEach(k, 8, ds.inputs, []);
    assert ins + [] == ins;
    ShapedNum(k, 7, m.sourceVout, false, ins);
    ShapedEach(k, 6, ds.gas, TxTail(ds, m));
    ShapedEach(k, 5, ds.coins, Each(6, ds.gas) + TxTail(ds, m));
    var i4 := TxLists(ds, m);
    ShapedData(k, 4, m.toAddress, i4);
    var i3 := OptData(4, m.toAddress) + i4;
    ShapedData(k, 3, m.fromAddress, i3);
    var i2 := OptData(3, m.fromAddress) + i3;
    ShapedData(k, 2, m.chain, i2);
    ShapedData(k, 1, m.id, OptData(2, m.chain) + i2);
  }

  /** The bytes hold a transaction, with unknown records at any depth. */
  ghost predicate SpellsTx(u: UintOps, m: Tx, d: Bytes) {
    exists ds :: SpellsParts(u, m, ds) && Spells(TxKinds, TxItemsWith(ds, m), d)
  }

  ghost predicate SpellsParts(u: UintOps, m: Tx, ds: TxParts) {
    && |ds.coins| == |m.coins| && (forall k :: 0 <= k < |m.coins| ==> SpellsCoin(u, m.coins[k], ds.coins[k]))
    && |ds.gas| == |m.gas| && (forall k :: 0 <= k < |m.gas| ==> SpellsCoin(u, m.gas[k], ds.gas[k]))
    && |ds.inputs| == |m.sourceInputs|
    && (forall k :: 0 <= k < |m.sourceInputs| ==> SpellsTxInput(m.sourceInputs[k], ds.inputs[k]))
  }

  lemma SpelledParts(u: UintOps, m: Tx, ds: TxParts)
    requires Faithful(u) && SpellsParts(u, m, ds)
    ensures PartsRead(u, m, ds)
  {
    forall k | 0 <= k < |m.coins| ensures ReadCoin(u, ds.coins[k]) == Ok(m.coins[k]) {
      SpelledCoin(u, m.coins[k], ds.coins[k]);
    }
    forall k | 0 <= k < |m.gas| ensures ReadCoin(u, ds.gas[k]) == Ok(m.gas[k]) {
      SpelledCoin(u, m.gas[k], ds.gas[k]);
    }
    forall k | 0 <= k < |m.sourceInputs|
      ensures Decode(TxInputCodec, ds.inputs[k], 0, ZeroTxInput) == Ok(m.sourceInputs[k])
    {
      SpelledTxInput(m.sourceInputs[k], ds.inputs[k]);
    }
  }

  lemma TxAmidUnknown(u: UintOps, m: Tx, d: Bytes)
    requires Faithful(u) && SpellsTx(u, m, d)
    ensures Decode(TxCodec(u), d, 0, ZeroTx) == Ok(m)
  {
    var ds :| SpellsParts(u, m, ds) && Spells(TxKinds, TxItemsWith(ds, m), d);
    SpelledParts(u, m, ds);
    FoldTx(u, ds, m);
    SpelledReads(TxCodec(u), ZeroTx, m, TxItemsWith(ds, m), d);
  }

  /** The encodings of the parts are smaller than the whole. */
  lemma PartsWritten(u: UintOps, m: Tx)
    requires |EncTx(u, m)| < TWO63
    ensures SpellsParts(u, m, EncParts(u, m))
  {
    var ds := EncParts(u, m);
    var head, mid := TxListsAt(ds, m);
    EachIsSmall(head, 5, ds.coins, Each(6, ds.gas) + TxTail(ds, m));
    EachIsSmall(head + Each(5, ds.coins), 6, ds.gas, TxTail(ds, m));
    EachIsSmall(mid, 8, ds.inputs, []);
    forall k | 0 <= k < |m.coins| ensures SpellsCoin(u, m.coins[k], ds.coins[k]) {
      assert |ds.coins[k]| < TWO63;
      CoinWritten(u, m.coins[k]);
    }
    forall k | 0 <= k < |m.gas| ensures SpellsCoin(u, m.gas[k], ds.gas[k]) {
      assert |ds.gas[k]| < TWO63;
      CoinWritten(u, m.gas[k]);
    }
    forall k | 0 <= k < |m.sourceInputs| ensures SpellsTxInput(m.sourceInputs[k], ds.inputs[k]) {
      assert |ds.inputs[k]| < TWO63;
      TxInputWritten(m.sourceInputs[k]);
    }
  }

  lemma TxWritten(u: UintOps, m: Tx)
    requires |EncTx(u, m)| < TWO63
    ensures SpellsTx(u, m, EncTx(u, m))
  {
    PartsWritten(u, m);
    TxShaped(EncParts(u, m), m);
    WrittenSpells(TxKinds, TxItems(u, m));
  }

  lemma TxRoundTrip(u: UintOps, m: Tx)
    requires Faithful(u) && |EncTx(u, m)| < TWO63
    ensures Decode(TxCodec(u), EncTx(u, m), 0, ZeroTx) == Ok(m)
  {
    TxWritten(u, m);
    TxAmidUnknown(u, m, EncTx(u, m));
  }
}
