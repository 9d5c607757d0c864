/** Sizes computed beforehand, and buffers filled from the end with a moving index. */
module Marshal {
  import opened Bytes
  import opened Names
  import opened Wire
  import opened Messages
  import opened ObservedMessages

  // ---- lengths of records ----

  function SizeData(d: Bytes): nat {
    1 + |d| + Sov(|d|)
  }

  function SizeOptData(d: Bytes): nat {
    if |d| > 0 then SizeData(d) else 0
  }

  function SizeOptNum(v: nat): nat {
    if v != 0 then 1 + Sov(v) else 0
  }

  function SizeFlag(b: bool): nat {
    if b then 2 else 0
  }

  lemma AlwaysLength(num: nat, d: Bytes)
    requires num <= 15
    ensures |EncItems(Always(num, d))| == SizeData(d)
  {
    EncAlways(num, d);
    SovIsLength(|d|);
  }

  lemma OptDataLength(num: nat, d: Bytes, rest: seq<Item>)
    requires num <= 15
    ensures |EncItems(OptData(num, d) + rest)| == SizeOptData(d) + |EncItems(rest)|
  {
    EncAppend(OptData(num, d), rest);
    if d != [] {
      AlwaysLength(num, d);
    }
  }

  lemma AlwaysThenLength(num: nat, d: Bytes, rest: seq<Item>)
    requires num <= 15
    ensures |EncItems(Always(num, d) + rest)| == SizeData(d) + |EncItems(rest)|
  {
    EncAppend(Always(num, d), rest);
    AlwaysLength(num, d);
  }

  lemma OptNumLength(num: nat, v: nat, rest: seq<Item>)
    requires num <= 15
    ensures |EncItems(OptNum(num, v) + rest)| == SizeOptNum(v) + |EncItems(rest)|
  {
    EncAppend(OptNum(num, v), rest);
    if v != 0 {
      EncNum(num, v);
      SovIsLength(v);
    }
  }

  lemma FlagLength(num: nat, b: bool, rest: seq<Item>)
    requires num <= 15
    ensures |EncItems(Flag(num, b) + rest)| == SizeFlag(b) + |EncItems(rest)|
  {
    EncAppend(Flag(num, b), rest);
    if b {
      EncNum(num, 1);
    }
  }

  lemma EmptyRest(items: seq<Item>)
    ensures items + [] == items
  {
  }

  // ---- writing ----

  /** `after` is `before` with `e` written just below `end`, starting at `i`. */
  predicate Wrote(before: Bytes, after: Bytes, i: int, end: nat, e: Bytes) {
    0 <= i && i + |e| == end <= |before| && after == before[..i] + e + before[end..]
  }

  lemma WroteMore(b0: Bytes, b1: Bytes, b2: Bytes, i: int, mid: int, end: nat, e: Bytes, tail: Bytes)
    requires Wrote(b0, b1, mid, end, tail) && mid >= 0 && Wrote(b1, b2, i, mid, e)
    ensures Wrote(b0, b2, i, end, e + tail)
  {
    assert b1[..i] == b0[..i];
    assert b1[mid..] == tail + b0[end..];
  }

  lemma WroteNothing(b: Bytes, end: nat)
    requires end <= |b|
    ensures Wrote(b, b, end, end, [])
  {
  }

  lemma FilledExactly(before: Bytes, after: Bytes, i: int, e: Bytes)
    requires Wrote(before, after, i, |before|, e) && |before| == |e|
    ensures i == 0 && after == e
  {
  }

  method PutByte(buf: array<byte>, i: int, b: byte) returns (j: int)
    requires 1 <= i <= buf.Length
    modifies buf
    ensures j == i - 1 && Wrote(old(buf[..]), buf[..], j, i, [b])
  {
    j := i - 1;
    buf[j] := b;
    assert buf[..] == old(buf[..])[..j] + [b] + old(buf[..])[i..];
  }

  /** Copy bytes to just below `i`. */
  method PutRaw(buf: array<byte>, i: int, d: Bytes) returns (j: int)
    requires |d| <= i <= buf.Length
    modifies buf
    ensures j == i - |d| && Wrote(old(buf[..]), buf[..], j, i, d)
  {
    j := i - |d|;
    ghost var before := buf[..];
    for k := 0 to |d|
      invariant buf[..] == before[..j] + d[..k] + before[j + k..]
    {
      buf[j + k] := d[k];
      assert d[..k + 1] == d[..k] + [d[k]];
    }
    assert d[..|d|] == d;
  }

  /** Write a varint ending just below `offset`; the loop runs upwards from its start. */
  method EncodeVarint(buf: array<byte>, offset: int, v: nat) returns (base: int)
    requires |EncVarint(v)| <= offset <= buf.Length
    modifies buf
    ensures base == offset - |EncVarint(v)| && Wrote(old(buf[..]), buf[..], base, offset, EncVarint(v))
  {
    SovIsLength(v);
    base := offset - Sov(v);
    ghost var before := buf[..];
    ghost var done: Bytes := [];
    var at, rest: nat := base, v;
    while rest >= 128
      invariant Partial(before, buf[..], base, offset, at, v, rest, done)
      decreases rest
    {
      var b := (rest % 128 + 128) as byte;
      PartialStep(before, buf[..], base, offset, at, v, rest, done, b);
      buf[at] := b;
      done := done + [b];
      rest, at := rest / 128, at + 1;
    }
    PartialEnds(before, buf[..], base, offset, at, v, rest, done);
    buf[at] := rest as byte;
  }

  /** The groups `done` of `v` stand from `base` up to `at`; `rest` is still to be written. */
  ghost predicate Partial(before: Bytes, now: Bytes, base: int, offset: nat, at: int, v: nat, rest: nat, done: Bytes) {
    && 0 <= base && base + |EncVarint(v)| == offset <= |before| && at == base + |done|
    && done + EncVarint(rest) == EncVarint(v)
    && now == before[..base] + done + before[at..]
  }

  lemma PartialStep(before: Bytes, now: Bytes, base: int, offset: nat, at: int, v: nat, rest: nat, done: Bytes, b: byte)
    requires at <= |before| && Partial(before, now, base, offset, at, v, rest, done)
    requires rest >= 128 && b == (rest % 128 + 128) as byte
    ensures at < |now| == |before| && Partial(before, now[at := b], base, offset, at + 1, v, rest / 128, done + [b])
  {
    assert |done + EncVarint(rest)| == |EncVarint(v)|;
    assert (done + [b]) + EncVarint(rest / 128) == done + ([b] + EncVarint(rest / 128));
    assert now[at := b] == before[..base] + (done + [b]) + before[at + 1..];
  }

  lemma PartialEnds(before: Bytes, now: Bytes, base: int, offset: nat, at: int, v: nat, rest: nat, done: Bytes)
    requires at <= |before| && Partial(before, now, base, offset, at, v, rest, done) && rest < 128
    ensures at < |now| == |before| && Wrote(before, now[at := rest as byte], base, offset, EncVarint(v))
  {
    assert |done + EncVarint(rest)| == |EncVarint(v)|;
    assert now[at := rest as byte] == before[..base] + (done + [rest as byte]) + before[at + 1..];
  }

  /** The varint length and the tag byte in front of data already written. */
  method FinishLen(buf: array<byte>, i: int, size: nat, num: nat, ghost d: Bytes, ghost before: Bytes, ghost end: nat,
                   ghost done: seq<Item>) returns (j: int)
    requires num <= 15 && size == |d| && Wrote(before, buf[..], i, end, d + EncItems(done))
    requires |EncItems(Always(num, d) + done)| <= end
    modifies buf
    ensures Wrote(before, buf[..], j, end, EncItems(Always(num, d) + done))
  {
    EncAppend(Always(num, d), done);
    EncAlways(num, d);
    ghost var b1 := buf[..];
    var k := EncodeVarint(buf, i, size);
    ghost var b2 := buf[..];
    WroteMore(before, b1, b2, k, i, end, EncVarint(|d|), d + EncItems(done));
    j := PutByte(buf, k, (num * 8 + 2) as byte);
    WroteMore(before, b2, buf[..], j, k, end, [(num * 8 + 2) as byte], EncVarint(|d|) + (d + EncItems(done)));
    RegroupTwo(EncVarint(|d|), d, EncItems(done));
    RegroupTwo([(num * 8 + 2) as byte], EncVarint(|d|) + d, EncItems(done));
  }

  method PutData(buf: array<byte>, i: int, num: nat, d: Bytes, ghost before: Bytes, ghost end: nat, ghost done: seq<Item>)
    returns (j: int)
    requires num <= 15 && Wrote(before, buf[..], i, end, EncItems(done)) && |EncItems(Always(num, d) + done)| <= end
    modifies buf
    ensures Wrote(before, buf[..], j, end, EncItems(Always(num, d) + done))
  {
    EncAppend(Always(num, d), done);
    EncAlways(num, d);
    ghost var b1 := buf[..];
    var k := PutRaw(buf, i, d);
    WroteMore(before, b1, buf[..], k, i, end, d, EncItems(done));
    j := FinishLen(buf, k, |d|, num, d, before, end, done);
  }

  method PutOptData(buf: array<byte>, i: int, num: nat, d: Bytes, ghost before: Bytes, ghost end: nat, ghost done: seq<Item>)
    returns (j: int)
    requires num <= 15 && Wrote(before, buf[..], i, end, EncItems(done)) && |EncItems(OptData(num, d) + done)| <= end
    modifies buf
    ensures Wrote(before, buf[..], j, end, EncItems(OptData(num, d) + done))
  {
    if |d| > 0 {
      j := PutData(buf, i, num, d, before, end, done);
    } else {
      j := i;
      assert OptData(num, d) + done == done;
    }
  }

  method PutNum(buf: array<byte>, i: int, num: nat, v: nat, ghost before: Bytes, ghost end: nat, ghost done: seq<Item>)
    returns (j: int)
    requires num <= 15 && Wrote(before, buf[..], i, end, EncItems(done)) && |EncItems([Known(num, Num(v))] + done)| <= end
    modifies buf
    ensures Wrote(before, buf[..], j, end, EncItems([Known(num, Num(v))] + done))
  {
    EncAppend([Known(num, Num(v))], done);
    EncNum(num, v);
    ghost var b1 := buf[..];
    var k := EncodeVarint(buf, i, v);
    ghost var b2 := buf[..];
    WroteMore(before, b1, b2, k, i, end, EncVarint(v), EncItems(done));
    j := PutByte(buf, k, (num * 8) as byte);
    WroteMore(before, b2, buf[..], j, k, end, [(num * 8) as byte], EncVarint(v) + EncItems(done));
    RegroupTwo([(num * 8) as byte], EncVarint(v), EncItems(done));
  }

  method PutOptNum(buf: array<byte>, i: int, num: nat, v: nat, ghost before: Bytes, ghost end: nat, ghost done: seq<Item>)
    returns (j: int)
    requires num <= 15 && Wrote(before, buf[..], i, end, EncItems(done)) && |EncItems(OptNum(num, v) + done)| <= end
    modifies buf
    ensures Wrote(before, buf[..], j, end, EncItems(OptNum(num, v) + done))
  {
    if v != 0 {
      j := PutNum(buf, i, num, v, before, end, done);
    } else {
      j := i;
      assert OptNum(num, v) + done == done;
    }
  }

  method PutFlag(buf: array<byte>, i: int, num: nat, b: bool, ghost before: Bytes, ghost end: nat, ghost done: seq<Item>)
    returns (j: int)
    requires num <= 15 && Wrote(before, buf[..], i, end, EncItems(done)) && |EncItems(Flag(num, b) + done)| <= end
    modifies buf
    ensures Wrote(before, buf[..], j, end, EncItems(Flag(num, b) + done))
  {
    if b {
      EncAppend(Flag(num, b), done);
      EncNum(num, 1);
      ghost var b1 := buf[..];
      var k := PutByte(buf, i, 1);
      ghost var b2 := buf[..];
      WroteMore(before, b1, b2, k, i, end, [1], EncItems(done));
      j := PutByte(buf, k, (num * 8) as byte);
      WroteMore(before, b2, buf[..], j, k, end, [(num * 8) as byte], [1] + EncItems(done));
      RegroupTwo([(num * 8) as byte], [1], EncItems(done));
    } else {
      j := i;
      assert Flag(num, b) + done == done;
    }
  }

  /** What is written later only adds bytes. */
  lemma TailFits(a: seq<Item>, b: seq<Item>)
    ensures |EncItems(b)| <= |EncItems(a + b)|
  {
    EncAppend(a, b);
  }

  // ---- Asset, TxInput, Attestation ----

  method SizeAsset(m: Asset) returns (n: nat)
    ensures n == |EncAsset(m)|
  {
    n := SizeOptData(m.chain) + SizeOptData(m.symbol) + SizeOptData(m.ticker) + SizeFlag(m.secured);
    EmptyRest(Flag(6, m.secured));
    FlagLength(6, m.secured, []);
    OptDataLength(3, m.ticker, Flag(6, m.secured));
    OptDataLength(2, m.symbol, OptData(3, m.ticker) + Flag(6, m.secured));
    OptDataLength(1, m.chain, OptData(2, m.symbol) + (OptData(3, m.ticker) + Flag(6, m.secured)));
  }

  method PutAsset(m: Asset, buf: array<byte>, end: nat) returns (i: int)
    requires |EncAsset(m)| <= end <= buf.Length
    modifies buf
    ensures Wrote(old(buf[..]), buf[..], i, end, EncAsset(m))
  {
    ghost var before, d3 := buf[..], Flag(6, m.secured);
    ghost var d2 := OptData(3, m.ticker) + d3;
    ghost var d1 := OptData(2, m.symbol) + d2;
    TailFits(OptData(1, m.chain), d1);
    TailFits(OptData(2, m.symbol), d2);
    TailFits(OptData(3, m.ticker), d3);
    EmptyRest(d3);
    WroteNothing(before, end);
    i := PutFlag(buf, end, 6, m.secured, before, end, []);
    i := PutOptData(buf, i, 3, m.ticker, before, end, d3);
    i := PutOptData(buf, i, 2, m.symbol, before, end, d2);
    i := PutOptData(buf, i, 1, m.chain, before, end, d1);
  }

  method SizeTxInput(m: TxInput) returns (n: nat)
    ensures n == |EncTxInput(m)|
  {
    n := SizeOptData(m.txId) + SizeOptNum(m.vout) + SizeOptNum(m.amountSats);
    EmptyRest(OptNum(3, m.amountSats));
    OptNumLength(3, m.amountSats, []);
    OptNumLength(2, m.vout, OptNum(3, m.amountSats));
    OptDataLength(1, m.txId, OptNum(2, m.vout) + OptNum(3, m.amountSats));
  }

  method PutTxInput(m: TxInput, buf: array<byte>, end: nat) returns (i: int)
    requires |EncTxInput(m)| <= end <= buf.Length
    modifies buf
    ensures Wrote(old(buf[..]), buf[..], i, end, EncTxInput(m))
  {
    ghost var before, d2 := buf[..], OptNum(3, m.amountSats);
    ghost var d1 := OptNum(2, m.vout) + d2;
    TailFits(OptData(1, m.txId), d1);
    TailFits(OptNum(2, m.vout), d2);
    EmptyRest(d2);
    WroteNothing(before, end);
    i := PutOptNum(buf, end, 3, m.amountSats, before, end, []);
    i := PutOptNum(buf, i, 2, m.vout, before, end, d2);
    i := PutOptData(buf, i, 1, m.txId, before, end, d1);
  }

  method SizeAttestation(m: Attestation) returns (n: nat)
    ensures n == |EncAttestation(m)|
  {
    n := SizeOptData(m.pubKey) + SizeOptData(m.signature);
    EmptyRest(OptData(2, m.signature));
    OptDataLength(2, m.signature, []);
    OptDataLength(1, m.pubKey, OptData(2, m.signature));
  }

  method PutAttestation(m: Attestation, buf: array<byte>, end: nat) returns (i: int)
    requires |EncAttestation(m)| <= end <= buf.Length
    modifies buf
    ensures Wrote(old(buf[..]), buf[..], i, end, EncAttestation(m))
  {
    ghost var before, d1 := buf[..], OptData(2, m.signature);
    TailFits(OptData(1, m.pubKey), d1);
    EmptyRest(d1);
    WroteNothing(before, end);
    i := PutOptData(buf, end, 2, m.signature, before, end, []);
    i := PutOptData(buf, i, 1, m.pubKey, before, end, d1);
  }

  // ---- Coin ----

  method SizeCoin(u: UintOps, m: Coin) returns (n: nat)
    ensures n == |EncCoin(u, m)|
  {
    var asset := SizeAsset(m.asset);
    var amount := |u.enc(m.amount)|;
    n := 1 + asset + Sov(asset) + (1 + amount + Sov(amount)) + SizeOptNum(Unsigned(m.decimals));
    var d2 := OptNum(3, Unsigned(m.decimals));
    EmptyRest(d2);
    OptNumLength(3, Unsigned(m.decimals), []);
    AlwaysThenLength(2, u.enc(m.amount), d2);
    AlwaysThenLength(1, EncAsset(m.asset), Always(2, u.enc(m.amount)) + d2);
  }

  method PutCoin(u: UintOps, m: Coin, buf: array<byte>, end: nat) returns (i: int)
    requires |EncCoin(u, m)| <= end <= buf.Length
    modifies buf
    ensures Wrote(old(buf[..]), buf[..], i, end, EncCoin(u, m))
  {
    ghost var before, d2 := buf[..], OptNum(3, Unsigned(m.decimals));
    ghost var d1 := Always(2, u.enc(m.amount)) + d2;
    TailFits(Always(1, EncAsset(m.asset)), d1);
    TailFits(Always(2, u.enc(m.amount)), d2);
    EmptyRest(d2);
    WroteNothing(before, end);
    i := PutOptNum(buf, end, 3, Unsigned(m.decimals), before, end, []);
    i := PutData(buf, i, 2, u.enc(m.amount), before, end, d2);
    NestedFits(1, EncAsset(m.asset), d1);
    ghost var b := buf[..];
    var j := PutAsset(m.asset, buf, i);
    WroteMore(before, b, buf[..], j, i, end, EncAsset(m.asset), EncItems(d1));
    i := FinishLen(buf, j, i - j, 1, EncAsset(m.asset), before, end, d1);
  }

  /** A nested message fits where its record fits. */
  lemma NestedFits(num: nat, d: Bytes, done: seq<Item>)
    requires num <= 15
    ensures |d| + |EncItems(done)| <= |EncItems(Always(num, d) + done)|
  {
    AlwaysThenLength(num, d, done);
  }

  // ---- repeated fields ----

  lemma EachStep(num: nat, ds: seq<Bytes>, k: nat, rest: seq<Item>)
    requires k < |ds|
    ensures Each(num, ds)[k..] + rest == Always(num, ds[k]) + (Each(num, ds)[k + 1..] + rest)
  {
  }

  lemma EachFits(num: nat, ds: seq<Bytes>, k: nat, rest: seq<Item>)
    requires k <= |ds|
    ensures |EncItems(Each(num, ds)[k..] + rest)| <= |EncItems(Each(num, ds) + rest)|
  {
    assert Each(num, ds) + rest == Each(num, ds)[..k] + (Each(num, ds)[k..] + rest);
    TailFits(Each(num, ds)[..k], Each(num, ds)[k..] + rest);
  }

  /** The sizes of the elements from `k` on. */
  function SizeEach(ds: seq<Bytes>, k: nat): nat
    requires k <= |ds|
    decreases |ds| - k
  {
    if k == |ds| then 0 else SizeData(ds[k]) + SizeEach(ds, k + 1)
  }

  lemma {:induction false} EachLength(num: nat, ds: seq<Bytes>, k: nat, rest: seq<Item>)
    requires num <= 15 && k <= |ds|
    ensures |EncItems(Each(num, ds)[k..] + rest)| == SizeEach(ds, k) + |EncItems(rest)|
    decreases |ds| - k
  {
    if k == |ds| {
      assert Each(num, ds)[k..] + rest == rest;
    } else {
      EachStep(num, ds, k, rest);
      EachLength(num, ds, k + 1, rest);
      AlwaysThenLength(num, ds[k], Each(num, ds)[k + 1..] + rest);
    }
  }

  lemma {:induction false} SizeEachAppend(ds: seq<Bytes>, d: Bytes, k: nat)
    requires k <= |ds|
    ensures SizeEach(ds + [d], k) == SizeEach(ds, k) + SizeData(d)
    decreases |ds| - k
  {
    if k < |ds| {
      SizeEachAppend(ds, d, k + 1);
    }
  }

  lemma SizeEachNext(ds: seq<Bytes>, k: nat)
    requires k < |ds|
    ensures SizeEach(ds[..k + 1], 0) == SizeEach(ds[..k], 0) + SizeData(ds[k])
  {
    SizeEachAppend(ds[..k], ds[k], 0);
    assert ds[..k] + [ds[k]] == ds[..k + 1];
  }

  method SizeStrings(ds: seq<Bytes>) returns (n: nat)
    ensures n == SizeEach(ds, 0)
  {
    n := 0;
    for k := 0 to |ds|
      invariant n == SizeEach(ds[..k], 0)
    {
      SizeEachNext(ds, k);
      n := n + SizeData(ds[k]);
    }
    assert ds[..|ds|] == ds;
  }

  method SizeCoins(u: UintOps, cs: seq<Coin>) returns (n: nat)
    ensures n == SizeEach(EncCoins(u, cs), 0)
  {
    n := 0;
    ghost var ds := EncCoins(u, cs);
    for k := 0 to |cs|
      invariant n == SizeEach(ds[..k], 0)
    {
      SizeEachNext(ds, k);
      var l := SizeCoin(u, cs[k]);
      n := n + (1 + l + Sov(l));
    }
    assert ds[..|ds|] == ds;
  }

  method SizeTxInputs(ins: seq<TxInput>) returns (n: nat)
    ensures n == SizeEach(EncTxInputs(ins), 0)
  {
    n := 0;
    ghost var ds := EncTxInputs(ins);
    for k := 0 to |ins|
      invariant n == SizeEach(ds[..k], 0)
    {
      SizeEachNext(ds, k);
      var l := SizeTxInput(ins[k]);
      n := n + (1 + l + Sov(l));
    }
    assert ds[..|ds|] == ds;
  }

  method SizeAttestations(list: seq<Attestation>) returns (n: nat)
    ensures n == SizeEach(EncAttestations(list), 0)
  {
    n := 0;
    ghost var ds := EncAttestations(list);
    for k := 0 to |list|
      invariant n == SizeEach(ds[..k], 0)
    {
      SizeEachNext(ds, k);
      var l := SizeAttestation(list[k]);
      n := n + (1 + l + Sov(l));
    }
    assert ds[..|ds|] == ds;
  }

  method PutStrings(buf: array<byte>, start: int, num: nat, ds: seq<Bytes>, ghost before: Bytes, ghost end: nat, ghost done: seq<Item>)
    returns (i: int)
    requires num <= 15 && Wrote(before, buf[..], start, end, EncItems(done)) && |EncItems(Each(num, ds) + done)| <= end
    modifies buf
    ensures Wrote(before, buf[..], i, end, EncItems(Each(num, ds) + done))
  {
    i := start;
    assert Each(num, ds)[|ds|..] + done == done;
    for k := |ds| downto 0
      invariant Wrote(before, buf[..], i, end, EncItems(Each(num, ds)[k..] + done))
    {
      EachStep(num, ds, k, done);
      EachFits(num, ds, k, done);
      i := PutData(buf, i, num, ds[k], before, end, Each(num, ds)[k + 1..] + done);
    }
    assert Each(num, ds)[0..] == Each(num, ds);
  }

  method PutCoins(u: UintOps, buf: array<byte>, start: int, num: nat, cs: seq<Coin>, ghost before: Bytes, ghost end: nat,
                  ghost done: seq<Item>) returns (i: int)
    requires num <= 15 && Wrote(before, buf[..], start, end, EncItems(done))
    requires |EncItems(Each(num, EncCoins(u, cs)) + done)| <= end
    modifies buf
    ensures Wrote(before, buf[..], i, end, EncItems(Each(num, EncCoins(u, cs)) + done))
  {
    i := start;
    ghost var ds := EncCoins(u, cs);
    assert Each(num, ds)[|ds|..] + done == done;
    for k := |cs| downto 0
      invariant Wrote(before, buf[..], i, end, EncItems(Each(num, ds)[k..] + done))
    {
      ghost var rest := Each(num, ds)[k + 1..] + done;
      EachStep(num, ds, k, done);
      EachFits(num, ds, k, done);
      NestedFits(num, ds[k], rest);
      ghost var b := buf[..];
      var j := PutCoin(u, cs[k], buf, i);
      WroteMore(before, b, buf[..], j, i, end, ds[k], EncItems(rest));
      i := FinishLen(buf, j, i - j, num, ds[k], before, end, rest);
    }
    assert Each(num, ds)[0..] == Each(num, ds);
  }

  method PutTxInputs(buf: array<byte>, start: int, num: nat, ins: seq<TxInput>, ghost before: Bytes, ghost end: nat,
                     ghost done: seq<Item>) returns (i: int)
    requires num <= 15 && Wrote(before, buf[..], start, end, EncItems(done))
    requires |EncItems(Each(num, EncTxInputs(ins)) + done)| <= end
    modifies buf
    ensures Wrote(before, buf[..], i, end, EncItems(Each(num, EncTxInputs(ins)) + done))
  {
    i := start;
    ghost var ds := EncTxInputs(ins);
    assert Each(num, ds)[|ds|..] + done == done;
    for k := |ins| downto 0
      invariant Wrote(before, buf[..], i, end, EncItems(Each(num, ds)[k..] + done))
    {
      ghost var rest := Each(num, ds)[k + 1..] + done;
      EachStep(num, ds, k, done);
      EachFits(num, ds, k, done);
      NestedFits(num, ds[k], rest);
      ghost var b := buf[..];
      var j := PutTxInput(ins[k], buf, i);
      WroteMore(before, b, buf[..], j, i, end, ds[k], EncItems(rest));
      i := FinishLen(buf, j, i - j, num, ds[k], before, end, rest);
    }
    assert Each(num, ds)[0..] == Each(num, ds);
  }

  method PutAttestations(buf: array<byte>, start: int, num: nat, list: seq<Attestation>, ghost before: Bytes, ghost end: nat,
                         ghost done: seq<Item>) returns (i: int)
    requires num <= 15 && Wrote(before, buf[..], start, end, EncItems(done))
    requires |EncItems(Each(num, EncAttestations(list)) + done)| <= end
    modifies buf
    ensures Wrote(before, buf[..], i, end, EncItems(Each(num, EncAttestations(list)) + done))
  {
    i := start;
    ghost var ds := EncAttestations(list);
    assert Each(num, ds)[|ds|..] + done == done;
    for k := |list| downto 0
      invariant Wrote(before, buf[..], i, end, EncItems(Each(num, ds)[k..] + done))
    {
      ghost var rest := Each(num, ds)[k + 1..] + done;
      EachStep(num, ds, k, done);
      EachFits(num, ds, k, done);
      NestedFits(num, ds[k], rest);
      ghost var b := buf[..];
      var j := PutAttestation(list[k], buf, i);
      WroteMore(before, b, buf[..], j, i, end, ds[k], EncItems(rest));
      i := FinishLen(buf, j, i - j, num, ds[k], before, end, rest);
    }
    assert Each(num, ds)[0..] == Each(num, ds);
  }

  // ---- Tx ----

  lemma TxTailLength(ds: TxParts, m: Tx)
    ensures |EncItems(TxTail(ds, m))| == SizeOptNum(m.sourceVout) + SizeEach(ds.inputs, 0)
  {
    var ins := Each(8, ds.inputs);
    assert ins[0..] + [] == ins;
    EachLength(8, ds.inputs, 0, []);
    OptNumLength(7, m.sourceVout, ins);
  }

  lemma TxListsLength(ds: TxParts, m: Tx)
    ensures |EncItems(TxLists(ds, m))| == SizeEach(ds.coins, 0) + SizeEach(ds.gas, 0) + |EncItems(TxTail(ds, m))|
  {
    EachLength(6, ds.gas, 0, TxTail(ds, m));
    assert Each(6, ds.gas)[0..] == Each(6, ds.gas);
    EachLength(5, ds.coins, 0, Each(6, ds.gas) + TxTail(ds, m));
    assert Each(5, ds.coins)[0..] == Each(5, ds.coins);
  }

  method SizeTx(u: UintOps, m: Tx) returns (n: nat)
    ensures n == |EncTx(u, m)|
  {
    n := SizeOptData(m.id) + SizeOptData(m.chain) + SizeOptData(m.fromAddress) + SizeOptData(m.toAddress);
    var coins := SizeCoins(u, m.coins);
    var gas := SizeCoins(u, m.gas);
    var ins := SizeTxInputs(m.sourceInputs);
    n := n + coins + gas + SizeOptNum(m.sourceVout) + ins;
    ghost var ds := EncParts(u, m);
    TxTailLength(ds, m);
    TxListsLength(ds, m);
    ghost var i4 := TxLists(ds, m);
    ghost var i3 := OptData(4, m.toAddress) + i4;
    ghost var i2 := OptData(3, m.fromAddress) + i3;
    OptDataLength(4, m.toAddress, i4);
    OptDataLength(3, m.fromAddress, i3);
    OptDataLength(2, m.chain, i2);
    OptDataLength(1, m.id, OptData(2, m.chain) + i2);
  }

  method PutTxLists(u: UintOps, m: Tx, buf: array<byte>, end: nat) returns (i: int)
    requires |EncItems(TxLists(EncParts(u, m), m))| <= end <= buf.Length
    modifies buf
    ensures Wrote(old(buf[..]), buf[..], i, end, EncItems(TxLists(EncParts(u, m), m)))
  {
    ghost var before, ds := buf[..], EncParts(u, m);
    ghost var d3, d2 := Each(8, ds.inputs), TxTail(ds, m);
    ghost var d1 := Each(6, ds.gas) + d2;
    TailFits(Each(5, ds.coins), d1);
    TailFits(Each(6, ds.gas), d2);
    TailFits(OptNum(7, m.sourceVout), d3);
    EmptyRest(d3);
    WroteNothing(before, end);
    i := PutTxInputs(buf, end, 8, m.sourceInputs, before, end, []);
    i := PutOptNum(buf, i, 7, m.sourceVout, before, end, d3);
    i := PutCoins(u, buf, i, 6, m.gas, before, end, d2);
    i := PutCoins(u, buf, i, 5, m.coins, before, end, d1);
  }

  method PutTx(u: UintOps, m: Tx, buf: array<byte>, end: nat) returns (i: int)
    requires |EncTx(u, m)| <= end <= buf.Length
    modifies buf
    ensures Wrote(old(buf[..]), buf[..], i, end, EncTx(u, m))
  {
    ghost var before, d4 := buf[..], TxLists(EncParts(u, m), m);
    ghost var d3 := OptData(4, m.toAddress) + d4;
    ghost var d2 := OptData(3, m.fromAddress) + d3;
    ghost var d1 := OptData(2, m.chain) + d2;
    TailFits(OptData(1, m.id), d1);
    TailFits(OptData(2, m.chain), d2);
    TailFits(OptData(3, m.fromAddress), d3);
    TailFits(OptData(4, m.toAddress), d4);
    i := PutTxLists(u, m, buf, end);
    i := PutOptData(buf, i, 4, m.toAddress, before, end, d4);
    i := PutOptData(buf, i, 3, m.fromAddress, before, end, d3);
    i := PutOptData(buf, i, 2, m.chain, before, end, d2);
    i := PutOptData(buf, i, 1, m.id, before, end, d1);
  }

  // ---- ObservedTx ----

  function SizeLimit(u: UintOps, limit: Option<Uint>): nat {
    match limit
    case None => 0
    case Some(x) => SizeData(u.enc(x))
  }

  lemma LimitLength(u: UintOps, limit: Option<Uint>)
    ensures |EncItems(LimitItems(u, limit))| == SizeLimit(u, limit)
  {
    if limit.Some? {
      AlwaysLength(11, u.enc(limit.value));
    }
  }

  lemma ObservedMidLength(u: UintOps, m: ObservedTx)
    ensures |EncItems(ObservedMid(u, m))| == SizeOptData(m.observedPubKey) + SizeOptNum(Unsigned(m.keysignMs))
      + SizeOptNum(Unsigned(m.finaliseHeight)) + SizeOptData(m.aggregator) + SizeOptData(m.aggregatorTarget)
      + SizeLimit(u, m.aggregatorTargetLimit)
  {
    var limit := LimitItems(u, m.aggregatorTargetLimit);
    LimitLength(u, m.aggregatorTargetLimit);
    OptDataLength(10, m.aggregatorTarget, limit);
    OptDataLength(9, m.aggregator, OptData(10, m.aggregatorTarget) + limit);
    var i3 := ObservedTail(u, m);
    var i2 := OptNum(8, Unsigned(m.finaliseHeight)) + i3;
    OptNumLength(8, Unsigned(m.finaliseHeight), i3);
    OptNumLength(7, Unsigned(m.keysignMs), i2);
    OptDataLength(6, m.observedPubKey, OptNum(7, Unsigned(m.keysignMs)) + i2);
  }

  lemma ObservedListsLength(u: UintOps, m: ObservedTx)
    ensures |EncItems(ObservedLists(u, m))| == SizeEach(m.outHashes, 0) + SizeOptNum(Unsigned(m.blockHeight))
      + SizeEach(m.signers, 0) + |EncItems(ObservedMid(u, m))|
  {
    var i2 := Each(5, m.signers) + ObservedMid(u, m);
    EachLength(5, m.signers, 0, ObservedMid(u, m));
    assert Each(5, m.signers)[0..] == Each(5, m.signers);
    OptNumLength(4, Unsigned(m.blockHeight), i2);
    EachLength(3, m.outHashes, 0, OptNum(4, Unsigned(m.blockHeight)) + i2);
    assert Each(3, m.outHashes)[0..] == Each(3, m.outHashes);
  }

  method SizeObserved(u: UintOps, m: ObservedTx) returns (n: nat)
    ensures n == |EncObserved(u, m)|
  {
    var l := SizeTx(u, m.tx);
    n := 1 + l + Sov(l) + SizeOptNum(Unsigned(m.status));
    var hashes := SizeStrings(m.outHashes);
    var signers := SizeStrings(m.signers);
    n := n + hashes + SizeOptNum(Unsigned(m.blockHeight)) + signers;
    n := n + (SizeOptData(m.observedPubKey) + SizeOptNum(Unsigned(m.keysignMs)) + SizeOptNum(Unsigned(m.finaliseHeight))
              + SizeOptData(m.aggregator) + SizeOptData(m.aggregatorTarget) + SizeLimit(u, m.aggregatorTargetLimit));
    ObservedMidLength(u, m);
    ObservedListsLength(u, m);
    OptNumLength(2, Unsigned(m.status), ObservedLists(u, m));
    AlwaysThenLength(1, EncTx(u, m.tx), OptNum(2, Unsigned(m.status)) + ObservedLists(u, m));
  }

  method PutObservedTail(u: UintOps, m: ObservedTx, buf: array<byte>, end: nat) returns (i: int)
    requires |EncItems(ObservedTail(u, m))| <= end <= buf.Length
    modifies buf
    ensures Wrote(old(buf[..]), buf[..], i, end, EncItems(ObservedTail(u, m)))
  {
    ghost var before, d2 := buf[..], LimitItems(u, m.aggregatorTargetLimit);
    ghost var d1 := OptData(10, m.aggregatorTarget) + d2;
    TailFits(OptData(9, m.aggregator), d1);
    TailFits(OptData(10, m.aggregatorTarget), d2);
    EmptyRest(d2);
    WroteNothing(before, end);
    i := end;
    if m.aggregatorTargetLimit.Some? {
      i := PutData(buf, i, 11, u.enc(m.aggregatorTargetLimit.value), before, end, []);
    }
    i := PutOptData(buf, i, 10, m.aggregatorTarget, before, end, d2);
    i := PutOptData(buf, i, 9, m.aggregator, before, end, d1);
  }

  method PutObservedMid(u: UintOps, m: ObservedTx, buf: array<byte>, end: nat) returns (i: int)
    requires |EncItems(ObservedMid(u, m))| <= end <= buf.Length
    modifies buf
    ensures Wrote(old(buf[..]), buf[..], i, end, EncItems(ObservedMid(u, m)))
  {
    ghost var before, d3 := buf[..], ObservedTail(u, m);
    ghost var d2 := OptNum(8, Unsigned(m.finaliseHeight)) + d3;
    ghost var d1 := OptNum(7, Unsigned(m.keysignMs)) + d2;
    TailFits(OptData(6, m.observedPubKey), d1);
    TailFits(OptNum(7, Unsigned(m.keysignMs)), d2);
    TailFits(OptNum(8, Unsigned(m.finaliseHeight)), d3);
    i := PutObservedTail(u, m, buf, end);
    i := PutOptNum(buf, i, 8, Unsigned(m.finaliseHeight), before, end, d3);
    i := PutOptNum(buf, i, 7, Unsigned(m.keysignMs), before, end, d2);
    i := PutOptData(buf, i, 6, m.observedPubKey, before, end, d1);
  }

  method PutObserved(u: UintOps, m: ObservedTx, buf: array<byte>, end: nat) returns (i: int)
    requires |EncObserved(u, m)| <= end <= buf.Length
    modifies buf
    ensures Wrote(old(buf[..]), buf[..], i, end, EncObserved(u, m))
  {
    ghost var before, d5 := buf[..], ObservedMid(u, m);
    ghost var d4 := Each(5, m.signers) + d5;
    ghost var d3 := OptNum(4, Unsigned(m.blockHeight)) + d4;
    ghost var d2 := ObservedLists(u, m);
    ghost var d1 := OptNum(2, Unsigned(m.status)) + d2;
    TailFits(Always(1, EncTx(u, m.tx)), d1);
    TailFits(OptNum(2, Unsigned(m.status)), d2);
    TailFits(Each(3, m.outHashes), d3);
    TailFits(OptNum(4, Unsigned(m.blockHeight)), d4);
    TailFits(Each(5, m.signers), d5);
    i := PutObservedMid(u, m, buf, end);
    i := PutStrings(buf, i, 5, m.signers, before, end, d5);
    i := PutOptNum(buf, i, 4, Unsigned(m.blockHeight), before, end, d4);
    i := PutStrings(buf, i, 3, m.outHashes, before, end, d3);
    i := PutOptNum(buf, i, 2, Unsigned(m.status), before, end, d2);
    NestedFits(1, EncTx(u, m.tx), d1);
    ghost var b := buf[..];
    var j := PutTx(u, m.tx, buf, i);
    WroteMore(before, b, buf[..], j, i, end, EncTx(u, m.tx), EncItems(d1));
    i := FinishLen(buf, j, i - j, 1, EncTx(u, m.tx), before, end, d1);
  }

  // ---- QuorumTx ----

  lemma QuorumLength(u: UintOps, m: QuorumTx)
    ensures |EncQuorum(u, m)| == SizeData(EncObserved(u, m.obsTx)) + SizeEach(EncAttestations(m.attestations), 0)
      + SizeFlag(m.inbound) + SizeFlag(m.allowFutureObservation)
  {
    var ds, flags := EncAttestations(m.attestations), QuorumFlags(m);
    EmptyRest(Flag(4, m.allowFutureObservation));
    FlagLength(4, m.allowFutureObservation, []);
    FlagLength(3, m.inbound, Flag(4, m.allowFutureObservation));
    EachLength(2, ds, 0, flags);
    assert Each(2, ds)[0..] == Each(2, ds);
    AlwaysThenLength(1, EncObserved(u, m.obsTx), Each(2, ds) + flags);
  }

  method SizeQuorum(u: UintOps, m: QuorumTx) returns (n: nat)
    ensures n == |EncQuorum(u, m)|
  {
    var l := SizeObserved(u, m.obsTx);
    var atts := SizeAttestations(m.attestations);
    n := 1 + l + Sov(l) + atts + SizeFlag(m.inbound) + SizeFlag(m.allowFutureObservation);
    QuorumLength(u, m);
  }

  method PutQuorum(u: UintOps, m: QuorumTx, buf: array<byte>, end: nat) returns (i: int)
    requires |EncQuorum(u, m)| <= end <= buf.Length
    modifies buf
    ensures Wrote(old(buf[..]), buf[..], i, end, EncQuorum(u, m))
  {
    ghost var before, d3 := buf[..], Flag(4, m.allowFutureObservation);
    ghost var d2 := QuorumFlags(m);
    ghost var d1 := Each(2, EncAttestations(m.attestations)) + d2;
    TailFits(Always(1, EncObserved(u, m.obsTx)), d1);
    TailFits(Each(2, EncAttestations(m.attestations)), d2);
    TailFits(Flag(3, m.inbound), d3);
    EmptyRest(d3);
    WroteNothing(before, end);
    i := PutFlag(buf, end, 4, m.allowFutureObservation, before, end, []);
    i := PutFlag(buf, i, 3, m.inbound, before, end, d3);
    i := PutAttestations(buf, i, 2, m.attestations, before, end, d2);
    NestedFits(1, EncObserved(u, m.obsTx), d1);
    ghost var b := buf[..];
    var j := PutObserved(u, m.obsTx, buf, i);
    WroteMore(before, b, buf[..], j, i, end, EncObserved(u, m.obsTx), EncItems(d1));
    i := FinishLen(buf, j, i - j, 1, EncObserved(u, m.obsTx), before, end, d1);
  }

  /** The precomputed size is filled exactly: the index ends at zero. */
  method MarshalObserved(u: UintOps, m: ObservedTx) returns (buf: array<byte>)
    ensures fresh(buf) && buf[..] == EncObserved(u, m)
  {
    var size := SizeObserved(u, m);
    buf := new byte[size];
    ghost var before := buf[..];
    var i := PutObserved(u, m, buf, size);
    FilledExactly(before, buf[..], i, EncObserved(u, m));
  }

  method MarshalQuorum(u: UintOps, m: QuorumTx) returns (buf: array<byte>)
    ensures fresh(buf) && buf[..] == EncQuorum(u, m)
  {
    var size := SizeQuorum(u, m);
    buf := new byte[size];
    ghost var before := buf[..];
    var i := PutQuorum(u, m, buf, size);
    FilledExactly(before, buf[..], i, EncQuorum(u, m));
  }
}
