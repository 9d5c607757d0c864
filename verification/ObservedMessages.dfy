/** The observation messages: an observed transaction and its quorum wrapper. */
module ObservedMessages {
  import opened Bytes
  import opened Names
  import opened Wire
  import opened Messages

  // ---- ObservedTx ----

  function LimitItems(u: UintOps, limit: Option<Uint>): seq<Item> {
    match limit
    case None => []
    case Some(x) => Always(11, u.enc(x))
  }

  function ObservedTail(u: UintOps, m: ObservedTx): seq<Item> {
    OptData(9, m.aggregator) + (OptData(10, m.aggregatorTarget) + LimitItems(u, m.aggregatorTargetLimit))
  }

  function ObservedMid(u: UintOps, m: ObservedTx): seq<Item> {
    OptData(6, m.observedPubKey) + (OptNum(7, Unsigned(m.keysignMs)) + (OptNum(8, Unsigned(m.finaliseHeight)) + ObservedTail(u, m)))
  }

  function ObservedLists(u: UintOps, m: ObservedTx): seq<Item> {
    Each(3, m.outHashes) + (OptNum(4, Unsigned(m.blockHeight)) + (Each(5, m.signers) + ObservedMid(u, m)))
  }

  /** The records of an observed transaction whose transaction is written as `d`. */
  function ObservedItemsWith(u: UintOps, d: Bytes, m: ObservedTx): seq<Item> {
    Always(1, d) + (OptNum(2, Unsigned(m.status)) + ObservedLists(u, m))
  }

  function ObservedItems(u: UintOps, m: ObservedTx): seq<Item> { ObservedItemsWith(u, EncTx(u, m.tx), m) }

  function EncObserved(u: UintOps, m: ObservedTx): Bytes { EncItems(ObservedItems(u, m)) }

  const ZeroObserved := ObservedTx(ZeroTx, 0, [], 0, [], [], 0, 0, [], [], None)

  function SetTx(m: ObservedTx, r: Result<Tx>): Result<ObservedTx> {
    if r.Err? then Err(r.error) else Ok(m.(tx := r.value))
  }

  function SetLimit(m: ObservedTx, r: Result<Uint>): Result<ObservedTx> {
    if r.Err? then Err(r.error) else Ok(m.(aggregatorTargetLimit := Some(r.value)))
  }

  function ApplyObservedNum(m: ObservedTx, num: int, raw: nat): Result<ObservedTx> {
    if num == 2 then Ok(m.(status := ToInt32(raw)))
    else if num == 4 then Ok(m.(blockHeight := ToInt64(raw)))
    else if num == 7 then Ok(m.(keysignMs := ToInt64(raw)))
    else if num == 8 then Ok(m.(finaliseHeight := ToInt64(raw)))
    else Err(IllegalTag)
  }

  function ApplyObservedData(u: UintOps, m: ObservedTx, num: int, d: Bytes): Result<ObservedTx> {
    if num == 1 then SetTx(m, Decode(TxCodec(u), d, 0, m.tx))
    else if num == 3 then Ok(m.(outHashes := m.outHashes + [d]))
    else if num == 5 then Ok(m.(signers := m.signers + [d]))
    else if num == 6 then Ok(m.(observedPubKey := d))
    else if num == 9 then Ok(m.(aggregator := d))
    else if num == 10 then Ok(m.(aggregatorTarget := d))
    else if num == 11 then SetLimit(m, u.dec(d))
    else Err(IllegalTag)
  }

  function ApplyObserved(u: UintOps, m: ObservedTx, num: int, p: Payload): Result<ObservedTx> {
    match p
    case Num(raw) => ApplyObservedNum(m, num, raw)
    case Data(d) => ApplyObservedData(u, m, num, d)
  }

  const ObservedKinds := map[1 := LenField, 2 := VarintField, 3 := LenField, 4 := VarintField, 5 := LenField, 6 := LenField,
                             7 := VarintField, 8 := VarintField, 9 := LenField, 10 := LenField, 11 := LenField]

  function ObservedCodec(u: UintOps): Codec<ObservedTx> {
    Codec(ObservedKinds, (m, num, p) => ApplyObserved(u, m, num, p))
  }

  lemma ApplyOne(u: UintOps, m: ObservedTx, num: int, p: Payload)
    ensures ObservedCodec(u).apply(m, num, p) == ApplyObserved(u, m, num, p)
  {
  }

  lemma FoldLimit(u: UintOps, m: ObservedTx, limit: Option<Uint>)
    requires Faithful(u) && m.aggregatorTargetLimit == None
    ensures Fold(ObservedCodec(u), m, LimitItems(u, limit)) == Ok(m.(aggregatorTargetLimit := limit))
  {
    if limit.Some? {
      ApplyOne(u, m, 11, Data(u.enc(limit.value)));
      FoldSingle(ObservedCodec(u), m, 11, Data(u.enc(limit.value)), m.(aggregatorTargetLimit := limit));
    }
  }

  /** One bytes field that overwrites. */
  lemma FoldData(u: UintOps, m: ObservedTx, num: nat, d: Bytes, m1: ObservedTx, rest: seq<Item>, r: Result<ObservedTx>)
    requires ApplyObservedData(u, m, num, d) == Ok(m1) && (d == [] ==> m1 == m)
    requires Fold(ObservedCodec(u), m1, rest) == r
    ensures Fold(ObservedCodec(u), m, OptData(num, d) + rest) == r
  {
    ApplyOne(u, m, num, Data(d));
    FoldOptData(ObservedCodec(u), m, num, d, m1);
    FoldThen(ObservedCodec(u), m, OptData(num, d), m1, rest, r);
  }

  lemma FoldNum(u: UintOps, m: ObservedTx, num: nat, v: nat, m1: ObservedTx, rest: seq<Item>, r: Result<ObservedTx>)
    requires ApplyObservedNum(m, num, v) == Ok(m1) && (v == 0 ==> m1 == m)
    requires Fold(ObservedCodec(u), m1, rest) == r
    ensures Fold(ObservedCodec(u), m, OptNum(num, v) + rest) == r
  {
    ApplyOne(u, m, num, Num(v));
    FoldOptNum(ObservedCodec(u), m, num, v, m1);
    FoldThen(ObservedCodec(u), m, OptNum(num, v), m1, rest, r);
  }

  lemma FoldObservedTail(u: UintOps, m: ObservedTx, t: ObservedTx)
    requires Faithful(u) && t == m.(aggregator := [], aggregatorTarget := [], aggregatorTargetLimit := None)
    ensures Fold(ObservedCodec(u), t, ObservedTail(u, m)) == Ok(m)
  {
    var limit := LimitItems(u, m.aggregatorTargetLimit);
    var t1 := t.(aggregator := m.aggregator);
    var t2 := t1.(aggregatorTarget := m.aggregatorTarget);
    FoldLimit(u, t2, m.aggregatorTargetLimit);
    FoldData(u, t1, 10, m.aggregatorTarget, t2, limit, Ok(m));
    FoldData(u, t, 9, m.aggregator, t1, OptData(10, m.aggregatorTarget) + limit, Ok(m));
  }

  lemma FoldObservedMid(u: UintOps, m: ObservedTx, t: ObservedTx)
    requires Faithful(u)
    requires t == m.(observedPubKey := [], keysignMs := 0, finaliseHeight := 0, aggregator := [], aggregatorTarget := [],
                     aggregatorTargetLimit := None)
    ensures Fold(ObservedCodec(u), t, ObservedMid(u, m)) == Ok(m)
  {
    var t1 := t.(observedPubKey := m.observedPubKey);
    var t2 := t1.(keysignMs := m.keysignMs);
    var t3 := t2.(finaliseHeight := m.finaliseHeight);
    FoldObservedTail(u, m, t3);
    SignedRoundTrip(m.finaliseHeight);
    SignedRoundTrip(m.keysignMs);
    var i3 := ObservedTail(u, m);
    var i2 := OptNum(8, Unsigned(m.finaliseHeight)) + i3;
    FoldNum(u, t2, 8, Unsigned(m.finaliseHeight), t3, i3, Ok(m));
    FoldNum(u, t1, 7, Unsigned(m.keysignMs), t2, i2, Ok(m));
    FoldData(u, t, 6, m.observedPubKey, t1, OptNum(7, Unsigned(m.keysignMs)) + i2, Ok(m));
  }

  lemma FoldOutHashes(u: UintOps, m: ObservedTx, hs: seq<Bytes>)
    requires m.outHashes == []
    ensures Fold(ObservedCodec(u), m, Each(3, hs)) == Ok(m.(outHashes := hs))
  {
    var c, with := ObservedCodec(u), (l: seq<Bytes>) => m.(outHashes := l);
    forall j | 0 <= j < |hs| ensures Appends(c, 3, hs, hs, with, j) {
      ApplyOne(u, with(hs[..j]), 3, Data(hs[j]));
      assert hs[..j] + [hs[j]] == hs[..j + 1];
    }
    FoldEach(c, 3, hs, hs, with, 0);
    assert hs[..0] == [] && Each(3, hs)[0..] == Each(3, hs);
  }

  lemma FoldSigners(u: UintOps, m: ObservedTx, hs: seq<Bytes>)
    requires m.signers == []
    ensures Fold(ObservedCodec(u), m, Each(5, hs)) == Ok(m.(signers := hs))
  {
    var c, with := ObservedCodec(u), (l: seq<Bytes>) => m.(signers := l);
    forall j | 0 <= j < |hs| ensures Appends(c, 5, hs, hs, with, j) {
      ApplyOne(u, with(hs[..j]), 5, Data(hs[j]));
      assert hs[..j] + [hs[j]] == hs[..j + 1];
    }
    FoldEach(c, 5, hs, hs, with, 0);
    assert hs[..0] == [] && Each(5, hs)[0..] == Each(5, hs);
  }

  lemma FoldObservedLists(u: UintOps, m: ObservedTx, t: ObservedTx)
    requires Faithful(u)
    requires t == ZeroObserved.(tx := m.tx, status := m.status)
    ensures Fold(ObservedCodec(u), t, ObservedLists(u, m)) == Ok(m)
  {
    var c := ObservedCodec(u);
    var t1 := t.(outHashes := m.outHashes);
    var t2 := t1.(blockHeight := m.blockHeight);
    var t3 := t2.(signers := m.signers);
    var i3 := ObservedMid(u, m);
    var i2 := Each(5, m.signers) + i3;
    FoldObservedMid(u, m, t3);
    FoldSigners(u, t2, m.signers);
    FoldThen(c, t2, Each(5, m.signers), t3, i3, Ok(m));
    SignedRoundTrip(m.blockHeight);
    FoldNum(u, t1, 4, Unsigned(m.blockHeight), t2, i2, Ok(m));
    FoldOutHashes(u, t, m.outHashes);
    FoldThen(c, t, Each(3, m.outHashes), t1, OptNum(4, Unsigned(m.blockHeight)) + i2, Ok(m));
  }

  lemma FoldObserved(u: UintOps, d: Bytes, m: ObservedTx)
    requires Faithful(u) && Decode(TxCodec(u), d, 0, ZeroTx) == Ok(m.tx)
    ensures Fold(ObservedCodec(u), ZeroObserved, ObservedItemsWith(u, d, m)) == Ok(m)
  {
    var c := ObservedCodec(u);
    var t1 := ZeroObserved.(tx := m.tx);
    var t2 := t1.(status := m.status);
    var i1 := OptNum(2, Unsigned(m.status)) + ObservedLists(u, m);
    FoldObservedLists(u, m, t2);
    SignedRoundTrip(m.status);
    FoldNum(u, t1, 2, Unsigned(m.status), t2, ObservedLists(u, m), Ok(m));
    ApplyOne(u, ZeroObserved, 1, Data(d));
    FoldSingle(c, ZeroObserved, 1, Data(d), t1);
    FoldThen(c, ZeroObserved, Always(1, d), t1, i1, Ok(m));
  }

  lemma ObservedMidShaped(u: UintOps, m: ObservedTx)
    ensures AllShaped(ObservedKinds, ObservedMid(u, m))
  {
    var k, limit := ObservedKinds, LimitItems(u, m.aggregatorTargetLimit);
    ShapedData(k, 10, m.aggregatorTarget, limit);
    ShapedData(k, 9, m.aggregator, OptData(10, m.aggregatorTarget) + limit);
    var i3 := ObservedTail(u, m);
    ShapedNum(k, 8, Unsigned(m.finaliseHeight), false, i3);
    var i2 := OptNum(8, Unsigned(m.finaliseHeight)) + i3;
    ShapedNum(k, 7, Unsigned(m.keysignMs), false, i2);
    ShapedData(k, 6, m.observedPubKey, OptNum(7, Unsigned(m.keysignMs)) + i2);
  }

  lemma ObservedShaped(u: UintOps, m: ObservedTx)
    ensures AllShaped(ObservedKinds, ObservedItems(u, m))
  {
    var k := ObservedKinds;
    ObservedMidShaped(u, m);
    ShapedEach(k, 5, m.signers, ObservedMid(u, m));
    var i2 := Each(5, m.signers) + ObservedMid(u, m);
    ShapedNum(k, 4, Unsigned(m.blockHeight), false, i2);
    ShapedEach(k, 3, m.outHashes, OptNum(4, Unsigned(m.blockHeight)) + i2);
    ShapedNum(k, 2, Unsigned(m.status), false, ObservedLists(u, m));
    ShapedData(k, 1, EncTx(u, m.tx), OptNum(2, Unsigned(m.status)) + ObservedLists(u, m));
  }

  /** The bytes hold an observed transaction, with unknown records at any depth. */
  ghost predicate SpellsObserved(u: UintOps, m: ObservedTx, d: Bytes) {
    exists tx :: SpellsTx(u, m.tx, tx) && Spells(ObservedKinds, ObservedItemsWith(u, tx, m), d)
  }

  /** Unknown records, nested groups included, among the records of an observed transaction, of
      its transaction and of every message inside that do not change what is read. */
  lemma ObservedAmidUnknown(u: UintOps, m: ObservedTx, d: Bytes)
    requires Faithful(u) && SpellsObserved(u, m, d)
    ensures Decode(ObservedCodec(u), d, 0, ZeroObserved) == Ok(m)
  {
    var tx :| SpellsTx(u, m.tx, tx) && Spells(ObservedKinds, ObservedItemsWith(u, tx, m), d);
    TxAmidUnknown(u, m.tx, tx);
    FoldObserved(u, tx, m);
    SpelledReads(ObservedCodec(u), ZeroObserved, m, ObservedItemsWith(u, tx, m), d);
  }

  lemma ObservedWritten(u: UintOps, m: ObservedTx)
    requires |EncObserved(u, m)| < TWO63
    ensures SpellsObserved(u, m, EncObserved(u, m))
  {
    PartIsSmall(Always(1, EncTx(u, m.tx)), OptNum(2, Unsigned(m.status)) + ObservedLists(u, m), EncTx(u, m.tx), 1);
    TxWritten(u, m.tx);
    ObservedShaped(u, m);
    WrittenSpells(ObservedKinds, ObservedItems(u, m));
  }

  lemma ObservedRoundTrip(u: UintOps, m: ObservedTx)
    requires Faithful(u) && |EncObserved(u, m)| < TWO63
    ensures Decode(ObservedCodec(u), EncObserved(u, m), 0, ZeroObserved) == Ok(m)
  {
    ObservedWritten(u, m);
    ObservedAmidUnknown(u, m, EncObserved(u, m));
  }

  // ---- QuorumTx ----

  function EncAttestations(list: seq<Attestation>): (ds: seq<Bytes>)
    ensures |ds| == |list| && forall k :: 0 <= k < |list| ==> ds[k] == EncAttestation(list[k])
  {
    seq(|list|, k requires 0 <= k < |list| => EncAttestation(list[k]))
  }

  function QuorumFlags(m: QuorumTx): seq<Item> {
    Flag(3, m.inbound) + Flag(4, m.allowFutureObservation)
  }

  /** The records of a quorum transaction whose observation is written as `d` and whose
      attestations are written as `atts`. */
  function QuorumItemsWith(d: Bytes, atts: seq<Bytes>, m: QuorumTx): seq<Item> {
    Always(1, d) + (Each(2, atts) + QuorumFlags(m))
  }

  function QuorumItems(u: UintOps, m: QuorumTx): seq<Item> {
    QuorumItemsWith(EncObserved(u, m.obsTx), EncAttestations(m.attestations), m)
  }

  function EncQuorum(u: UintOps, m: QuorumTx): Bytes { EncItems(QuorumItems(u, m)) }

  const ZeroQuorum := QuorumTx(ZeroObserved, [], false, false)

  function SetObserved(m: QuorumTx, r: Result<ObservedTx>): Result<QuorumTx> {
    if r.Err? then Err(r.error) else Ok(m.(obsTx := r.value))
  }

  function AddAttestation(m: QuorumTx, r: Result<Attestation>): Result<QuorumTx> {
    if r.Err? then Err(r.error) else Ok(m.(attestations := m.attestations + [r.value]))
  }

  function ApplyQuorum(u: UintOps, m: QuorumTx, num: int, p: Payload): Result<QuorumTx> {
    if num == 1 && p.Data? then SetObserved(m, Decode(ObservedCodec(u), p.bytes, 0, m.obsTx))
    else if num == 2 && p.Data? then AddAttestation(m, Decode(AttestationCodec, p.bytes, 0, ZeroAttestation))
    else if num == 3 && p.Num? then Ok(m.(inbound := p.raw % TWO64 != 0))
    else if num == 4 && p.Num? then Ok(m.(allowFutureObservation := p.raw % TWO64 != 0))
    else Err(IllegalTag)
  }

  const QuorumKinds := map[1 := LenField, 2 := LenField, 3 := VarintField, 4 := VarintField]

  function QuorumCodec(u: UintOps): Codec<QuorumTx> {
    Codec(QuorumKinds, (m, num, p) => ApplyQuorum(u, m, num, p))
  }

  predicate AttestationsRead(list: seq<Attestation>, ds: seq<Bytes>) {
    |ds| == |list| && forall k :: 0 <= k < |list| ==> Decode(AttestationCodec, ds[k], 0, ZeroAttestation) == Ok(list[k])
  }

  lemma FoldAttestations(u: UintOps, m: QuorumTx, list: seq<Attestation>, ds: seq<Bytes>)
    requires AttestationsRead(list, ds) && m.attestations == []
    ensures Fold(QuorumCodec(u), m, Each(2, ds)) == Ok(m.(attestations := list))
  {
    var c, with := QuorumCodec(u), (l: seq<Attestation>) => m.(attestations := l);
    forall j | 0 <= j < |list| ensures Appends(c, 2, list, ds, with, j) {
      assert list[..j] + [list[j]] == list[..j + 1];
    }
    FoldEach(c, 2, list, ds, with, 0);
    assert list[..0] == [] && Each(2, ds)[0..] == Each(2, ds);
  }

  lemma FoldQuorum(u: UintOps, d: Bytes, ds: seq<Bytes>, m: QuorumTx)
    requires Decode(ObservedCodec(u), d, 0, ZeroObserved) == Ok(m.obsTx) && AttestationsRead(m.attestations, ds)
    ensures Fold(QuorumCodec(u), ZeroQuorum, QuorumItemsWith(d, ds, m)) == Ok(m)
  {
    var c := QuorumCodec(u);
    var t1 := ZeroQuorum.(obsTx := m.obsTx);
    var t2 := t1.(attestations := m.attestations);
    var t3 := t2.(inbound := m.inbound);
    var atts := Each(2, ds);
    FoldFlag(c, t3, 4, m.allowFutureObservation, m);
    FoldFlag(c, t2, 3, m.inbound, t3);
    FoldThen(c, t2, Flag(3, m.inbound), t3, Flag(4, m.allowFutureObservation), Ok(m));
    FoldAttestations(u, t1, m.attestations, ds);
    FoldThen(c, t1, atts, t2, QuorumFlags(m), Ok(m));
    FoldSingle(c, ZeroQuorum, 1, Data(d), t1);
    FoldThen(c, ZeroQuorum, Always(1, d), t1, atts + QuorumFlags(m), Ok(m));
  }

  lemma QuorumShaped(u: UintOps, m: QuorumTx)
    ensures AllShaped(QuorumKinds, QuorumItems(u, m))
  {
    var k, ds := QuorumKinds, EncAttestations(m.attestations);
    ShapedNum(k, 4, 0, m.allowFutureObservation, []);
    assert Flag(4, m.allowFutureObservation) + [] == Flag(4, m.allowFutureObservation);
    ShapedNum(k, 3, 0, m.inbound, Flag(4, m.allowFutureObservation));
    ShapedEach(k, 2, ds, QuorumFlags(m));
    ShapedData(k, 1, EncObserved(u, m.obsTx), Each(2, ds) + QuorumFlags(m));
  }

  ghost predicate SpellsAttestations(list: seq<Attestation>, ds: seq<Bytes>) {
    |ds| == |list| && forall k :: 0 <= k < |list| ==> SpellsAttestation(list[k], ds[k])
  }

  /** The bytes hold a quorum transaction, with unknown records at any depth. */
  ghost predicate SpellsQuorum(u: UintOps, m: QuorumTx, d: Bytes) {
    exists obs, ds :: SpellsObserved(u, m.obsTx, obs) && SpellsAttestations(m.attestations, ds)
                      && Spells(QuorumKinds, QuorumItemsWith(obs, ds, m), d)
  }

  /** The same for a quorum transaction, its observation and its attestations. */
  lemma QuorumAmidUnknown(u: UintOps, m: QuorumTx, d: Bytes)
    requires Faithful(u) && SpellsQuorum(u, m, d)
    ensures Decode(QuorumCodec(u), d, 0, ZeroQuorum) == Ok(m)
  {
    var obs, ds :| SpellsObserved(u, m.obsTx, obs) && SpellsAttestations(m.attestations, ds)
                   && Spells(QuorumKinds, QuorumItemsWith(obs, ds, m), d);
    ObservedAmidUnknown(u, m.obsTx, obs);
    forall k | 0 <= k < |ds| ensures Decode(AttestationCodec, ds[k], 0, ZeroAttestation) == Ok(m.attestations[k]) {
      SpelledAttestation(m.attestations[k], ds[k]);
    }
    FoldQuorum(u, obs, ds, m);
    SpelledReads(QuorumCodec(u), ZeroQuorum, m, QuorumItemsWith(obs, ds, m), d);
  }

  lemma QuorumWritten(u: UintOps, m: QuorumTx)
    requires |EncQuorum(u, m)| < TWO63
    ensures SpellsQuorum(u, m, EncQuorum(u, m))
  {
    var obs, ds := Always(1, EncObserved(u, m.obsTx)), EncAttestations(m.attestations);
    PartIsSmall(obs, Each(2, ds) + QuorumFlags(m), EncObserved(u, m.obsTx), 1);
    EachIsSmall(obs, 2, ds, QuorumFlags(m));
    ObservedWritten(u, m.obsTx);
    forall k | 0 <= k < |ds| ensures SpellsAttestation(m.attestations[k], ds[k]) {
      AttestationWritten(m.attestations[k]);
    }
    QuorumShaped(u, m);
    WrittenSpells(QuorumKinds, QuorumItems(u, m));
  }

  lemma QuorumRoundTrip(u: UintOps, m: QuorumTx)
    requires Faithful(u) && |EncQuorum(u, m)| < TWO63
    ensures Decode(QuorumCodec(u), EncQuorum(u, m), 0, ZeroQuorum) == Ok(m)
  {
    QuorumWritten(u, m);
    QuorumAmidUnknown(u, m, EncQuorum(u, m));
  }
}
