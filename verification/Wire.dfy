/** The protocol buffer wire format as the generated code reads and writes it: base 128
    varints, records, skipping of unknown records with nested groups, and the decode loop
    shared by every message. */
module Wire {
  import opened Bytes

  const TWO32: int := 0x1_0000_0000
  const TWO63: int := 0x8000_0000_0000_0000
  const TWO64: int := 0x1_0000_0000_0000_0000

  type Uint64 = x: int | 0 <= x < 0x1_0000_0000_0000_0000

  datatype Error = IntOverflow | UnexpectedEof | InvalidLength | EndGroup | IllegalTag
                 | WrongWireType | UnexpectedEndOfGroup | IllegalWireType | BadValue

  datatype Result<+T> = Ok(value: T) | Err(error: Error)

  // ---- varints ----

  function EncVarint(v: nat): (s: Bytes)
    ensures |s| >= 1
  {
    if v < 128 then [v as byte] else [(v % 128 + 128) as byte] + EncVarint(v / 128)
  }

  /** A varint holds groups of seven bits, lowest first, with the high bit on all but the last byte,
      and no more bytes than the value needs. */
  lemma {:induction false} VarintGroups(v: nat, k: nat)
    requires k < |EncVarint(v)|
    ensures Pow128(k) > 0 && EncVarint(v)[k] as int == v / Pow128(k) % 128 + if k + 1 < |EncVarint(v)| then 128 else 0
    ensures v < Pow128(|EncVarint(v)|) && (|EncVarint(v)| > 1 ==> v >= Pow128(|EncVarint(v)| - 1))
    decreases v
  {
    if v >= 128 {
      var rest := EncVarint(v / 128);
      assert EncVarint(v)[1..] == rest;
      VarintGroups(v / 128, if k > 0 then k - 1 else 0);
      if k > 0 {
        assert Pow128(k - 1) > 0;
        DivideTwice(v, Pow128(k - 1));
      }
    }
  }

  lemma DivideTwice(v: nat, d: nat)
    requires d > 0
    ensures v / 128 / d == v / (128 * d)
  {
    var q, r := v / 128 / d, v / 128 % d;
    assert v / 128 == d * q + r;
    assert v == 128 * (d * q) + (128 * r + v % 128);
    assert 128 * (d * q) == (128 * d) * q;
    QuotientIs(v, 128 * d, q, 128 * r + v % 128);
  }

  lemma QuotientIs(v: nat, d: nat, q: nat, r: nat)
    requires r < d && v == d * q + r
    ensures v / d == q
  {
    var e, s := v / d, v % d;
    assert v == d * e + s;
    FarApart(d, e, q);
    FarApart(d, q, e);
  }

  lemma FarApart(d: nat, a: int, b: int)
    ensures a > b ==> d * a >= d * b + d
  {
    if a > b {
      Distribute(d, b, a - b - 1);
      assert d * (a - b - 1) >= 0;
    }
  }

  lemma Distribute(d: int, b: int, k: int)
    ensures d * (b + 1 + k) == d * b + d + d * k
  {
  }

  /** Length of the binary form of `x`; the form of zero has one digit here. */
  function BitLen(x: nat): nat {
    if x < 2 then 1 else 1 + BitLen(x / 2)
  }

  /** The precomputed size of a varint. */
  function Sov(x: nat): nat {
    (BitLen(x) + 6) / 7
  }

  lemma BitLenSeven(x: nat)
    requires x >= 128
    ensures BitLen(x) == 7 + BitLen(x / 128)
  {
    var a, b, c := x / 2, x / 4, x / 8;
    var d, e, f := x / 16, x / 32, x / 64;
    assert a / 2 == b && b / 2 == c && c / 2 == d && d / 2 == e && e / 2 == f && f / 2 == x / 128;
    assert BitLen(f) == 1 + BitLen(x / 128);
    assert BitLen(e) == 1 + BitLen(f);
    assert BitLen(d) == 1 + BitLen(e);
    assert BitLen(c) == 1 + BitLen(d);
    assert BitLen(b) == 1 + BitLen(c);
    assert BitLen(a) == 1 + BitLen(b);
  }

  /** The size computed from the bit length is the number of bytes written. */
  lemma {:induction false} SovIsLength(v: nat)
    ensures Sov(v) == |EncVarint(v)|
  {
    if v >= 128 {
      BitLenSeven(v);
      SovIsLength(v / 128);
    } else {
      SmallBitLen(v);
    }
  }

  lemma {:induction false} BitLenBound(v: nat, n: nat, bound: nat)
    requires n >= 1 && v < bound && bound == Pow2(n)
    ensures 1 <= BitLen(v) <= n
    decreases n
  {
    if v >= 2 {
      BitLenBound(v / 2, n - 1, Pow2(n - 1));
    }
  }

  function Pow2(n: nat): nat {
    if n == 0 then 1 else 2 * Pow2(n - 1)
  }

  lemma SmallBitLen(v: nat)
    requires v < 128
    ensures 1 <= BitLen(v) <= 7
  {
    assert Pow2(3) == 8 && Pow2(5) == 4 * Pow2(3) && Pow2(7) == 4 * Pow2(5);
    BitLenBound(v, 7, 128);
  }

  function Pow128(n: nat): nat {
    if n == 0 then 1 else 128 * Pow128(n - 1)
  }

  lemma {:induction false} ShortVarint(v: nat, n: nat)
    requires 1 <= n && v < Pow128(n)
    ensures |EncVarint(v)| <= n
    decreases n
  {
    if v >= 128 {
      ShortVarint(v / 128, n - 1);
    }
  }

  lemma Uint64TakesTen(v: Uint64)
    ensures |EncVarint(v)| <= 10
  {
    assert Pow128(5) == 128 * 128 * 128 * 128 * 128;
    assert Pow128(10) == 128 * 128 * 128 * 128 * 128 * Pow128(5);
    ShortVarint(v, 10);
  }

  /** Read groups of seven bits from position `i`, `k` groups having been read: the value
      before truncation to the width of the target, and the next position. */
  function ReadVarint(s: Bytes, i: nat, k: nat): (r: Result<(nat, nat)>)
    ensures r.Ok? ==> i < r.value.1 <= |s|
    decreases |s| - i
  {
    if k >= 10 then Err(IntOverflow)
    else if i >= |s| then Err(UnexpectedEof)
    else if s[i] < 128 then Ok((s[i] as nat, i + 1))
    else
      match ReadVarint(s, i + 1, k + 1)
      case Err(e) => Err(e)
      case Ok(p) => Ok((s[i] as nat % 128 + 128 * p.0, p.1))
  }

  /** `e` stands at position `i` of `s`. */
  predicate At(s: Bytes, i: nat, e: Bytes) {
    i + |e| <= |s| && s[i..i + |e|] == e
  }

  lemma AtSplit(s: Bytes, i: nat, a: Bytes, b: Bytes)
    requires At(s, i, a + b)
    ensures At(s, i, a) && At(s, i + |a|, b)
  {
    assert s[i..i + |a|] == (a + b)[..|a|];
    assert s[i + |a|..i + |a| + |b|] == (a + b)[|a|..];
  }

  lemma AtIndex(s: Bytes, i: nat, e: Bytes, j: nat)
    requires At(s, i, e) && j < |e|
    ensures i + j < |s| && s[i + j] == e[j]
  {
    assert s[i..i + |e|][j] == s[i + j];
  }

  lemma {:induction false} ReadEncoded(s: Bytes, i: nat, k: nat, v: nat)
    requires At(s, i, EncVarint(v)) && k + |EncVarint(v)| <= 10
    ensures ReadVarint(s, i, k) == Ok((v, i + |EncVarint(v)|))
    decreases v
  {
    AtIndex(s, i, EncVarint(v), 0);
    if v >= 128 {
      assert EncVarint(v) == [(v % 128 + 128) as byte] + EncVarint(v / 128);
      AtSplit(s, i, [(v % 128 + 128) as byte], EncVarint(v / 128));
      ReadEncoded(s, i + 1, k + 1, v / 128);
    }
  }

  /** A varint that a reader accepts: high bits on every byte but the last, ten bytes at most. */
  predicate Complete(raw: Bytes) {
    && 1 <= |raw| <= 10
    && raw[|raw| - 1] < 128
    && forall j :: 0 <= j < |raw| - 1 ==> raw[j] >= 128
  }

  lemma {:induction false} ReadComplete(s: Bytes, i: nat, k: nat, raw: Bytes)
    requires k < |raw| && Complete(raw) && At(s, i, raw[k..])
    ensures ReadVarint(s, i, k).Ok? && ReadVarint(s, i, k).value.1 == i + |raw| - k
    decreases |raw| - k
  {
    AtIndex(s, i, raw[k..], 0);
    if k < |raw| - 1 {
      assert raw[k..] == [raw[k]] + raw[k + 1..];
      AtSplit(s, i, [raw[k]], raw[k + 1..]);
      ReadComplete(s, i + 1, k + 1, raw);
    }
  }

  // ---- skipping ----

  /** A length as the target's signed 64-bit integer, `None` when that is negative. */
  function ReadLength(s: Bytes, i: nat): (r: Result<(nat, nat)>)
    ensures r.Ok? ==> i < r.value.1 <= |s|
  {
    match ReadVarint(s, i, 0)
    case Err(e) => Err(e)
    case Ok(p) => if p.0 % TWO64 >= TWO63 then Err(InvalidLength) else Ok((p.0 % TWO64, p.1))
  }

  /** Skip the payload of a record of this wire type: the next position and the depth. */
  function SkipPayload(s: Bytes, i: nat, wireType: nat, depth: nat): (r: Result<(nat, nat)>)
    ensures r.Ok? ==> i <= r.value.0
  {
    if wireType == 0 then
      match ReadVarint(s, i, 0)
      case Err(e) => Err(e)
      case Ok(p) => Ok((p.1, depth))
    else if wireType == 1 then Ok((i + 8, depth))
    else if wireType == 2 then
      match ReadLength(s, i)
      case Err(e) => Err(e)
      case Ok(p) => Ok((p.1 + p.0, depth))
    else if wireType == 3 then Ok((i, depth + 1))
    else if wireType == 4 then if depth == 0 then Err(UnexpectedEndOfGroup) else Ok((i, depth - 1))
    else if wireType == 5 then Ok((i + 4, depth))
    else Err(IllegalWireType)
  }

  /** One turn of the skipping loop: the next position and the depth there. */
  function SkipNext(s: Bytes, i: nat, depth: nat): (r: Result<(nat, nat)>)
    requires i < |s|
    ensures r.Ok? ==> i < r.value.0
  {
    match ReadVarint(s, i, 0)
    case Err(e) => Err(e)
    case Ok(tag) =>
      match SkipPayload(s, tag.1, tag.0 % 8, depth)
      case Err(e) => Err(e)
      case Ok(p) => if p.0 >= TWO63 then Err(InvalidLength) else Ok(p)
  }

  /** The position after the record at `i`, groups included. */
  function Skip(s: Bytes, i: nat, depth: nat): (r: Result<nat>)
    ensures r.Ok? ==> r.value > i
    decreases |s| - i
  {
    if i >= |s| then Err(UnexpectedEof)
    else
      match SkipNext(s, i, depth)
      case Err(e) => Err(e)
      case Ok(p) => if p.1 == 0 then Ok(p.0) else Skip(s, p.0, p.1)
  }

  /** The loop of the generated skipper. */
  method SkipRecord(s: Bytes) returns (r: Result<nat>)
    ensures r == Skip(s, 0, 0)
  {
    var i, depth := 0, 0;
    while i < |s|
      invariant Skip(s, i, depth) == Skip(s, 0, 0)
      decreases |s| - i
    {
      var tag := DecodeVarint(s, i);
      if tag.Err? { return Err(tag.error); }
      var p := SkipPayload(s, tag.value.1, tag.value.0 % 8, depth);
      if p.Err? { return Err(p.error); }
      i, depth := p.value.0, p.value.1;
      if i >= TWO63 { return Err(InvalidLength); }
      if depth == 0 { return Ok(i); }
    }
    r := Err(UnexpectedEof);
  }

  /** The shift loop: each byte adds its low seven bits seven places further up. */
  method DecodeVarint(s: Bytes, start: nat) returns (r: Result<(nat, nat)>)
    ensures r == ReadVarint(s, start, 0)
  {
    var value, i, k, scale := 0, start, 0, 1;
    while true
      invariant 0 <= k <= 10 && i == start + k && scale >= 1
      invariant ReadVarint(s, start, 0) == Shifted(value, scale, ReadVarint(s, i, k))
      decreases 10 - k
    {
      if k >= 10 { return Err(IntOverflow); }
      if i >= |s| { return Err(UnexpectedEof); }
      var b := s[i] as nat;
      ShiftStep(s, i, k, value, scale, ReadVarint(s, start, 0));
      value := value + (b % 128) * scale;
      i, k := i + 1, k + 1;
      if b < 128 { return Ok((value, i)); }
      scale := scale * 128;
    }
  }

  lemma ShiftStep(s: Bytes, i: nat, k: nat, value: nat, scale: nat, whole: Result<(nat, nat)>)
    requires k < 10 && i < |s| && whole == Shifted(value, scale, ReadVarint(s, i, k))
    ensures var low := s[i] as nat % 128;
      whole == if s[i] < 128 then Ok((value + low * scale, i + 1))
               else Shifted(value + low * scale, scale * 128, ReadVarint(s, i + 1, k + 1))
  {
    var low, rest := s[i] as nat % 128, ReadVarint(s, i + 1, k + 1);
    if s[i] >= 128 && rest.Ok? {
      ShiftOnce(value, scale, low, rest.value.0);
    }
  }

  /** The value already read plus `scale` times the value still to come. */
  function Shifted(value: nat, scale: nat, rest: Result<(nat, nat)>): Result<(nat, nat)> {
    match rest
    case Err(e) => Err(e)
    case Ok(p) => Ok((value + p.0 * scale, p.1))
  }

  lemma ShiftOnce(value: nat, scale: nat, low: nat, rest: nat)
    ensures value + (low + 128 * rest) * scale == (value + low * scale) + rest * (scale * 128)
  {
  }

  // ---- records a decoder does not know ----

  datatype Unknown =
    | UVarint(num: nat, raw: Bytes)
    | UFixed64(num: nat, data: Bytes)
    | ULen(num: nat, data: Bytes)
    | UGroup(num: nat, body: Unknowns)
    | UFixed32(num: nat, data: Bytes)

  datatype Unknowns = Nil | Cons(head: Unknown, tail: Unknowns)

  /** Field numbers are below 2^29. */
  predicate FieldNumber(num: nat) {
    1 <= num < 0x2000_0000
  }

  predicate WellFormed(u: Unknown) {
    FieldNumber(u.num) &&
    match u
    case UVarint(_, raw) => Complete(raw)
    case UFixed64(_, data) => |data| == 8
    case ULen(_, data) => |data| < TWO63
    case UFixed32(_, data) => |data| == 4
    case UGroup(_, body) => AllWellFormed(body)
  }

  predicate AllWellFormed(us: Unknowns) {
    us.Cons? ==> WellFormed(us.head) && AllWellFormed(us.tail)
  }

  function EncTag(num: nat, wireType: nat): Bytes
    requires wireType < 8
  {
    EncVarint(num * 8 + wireType)
  }

  function EncUnknown(u: Unknown): Bytes
  {
    match u
    case UVarint(n, raw) => EncTag(n, 0) + raw
    case UFixed64(n, data) => EncTag(n, 1) + data
    case ULen(n, data) => EncTag(n, 2) + (EncVarint(|data|) + data)
    case UGroup(n, body) => EncTag(n, 3) + (EncAll(body) + EncTag(n, 4))
    case UFixed32(n, data) => EncTag(n, 5) + data
  }

  function EncAll(us: Unknowns): Bytes {
    match us
    case Nil => []
    case Cons(u, rest) => EncUnknown(u) + EncAll(rest)
  }

  lemma ReadTag(s: Bytes, i: nat, num: nat, wireType: nat)
    requires FieldNumber(num) && wireType < 8 && At(s, i, EncTag(num, wireType))
    ensures ReadVarint(s, i, 0) == Ok((num * 8 + wireType, i + |EncTag(num, wireType)|))
    ensures |EncTag(num, wireType)| >= 1
  {
    Uint64TakesTen(num * 8 + wireType);
    ReadEncoded(s, i, 0, num * 8 + wireType);
  }

  lemma ReadLengthAt(s: Bytes, i: nat, n: nat)
    requires n < TWO63 && At(s, i, EncVarint(n))
    ensures ReadLength(s, i) == Ok((n, i + |EncVarint(n)|))
  {
    Uint64TakesTen(n);
    ReadEncoded(s, i, 0, n);
  }

  /** One turn of the loop passes the record at `i` and stands at `j`, at the same depth. */
  predicate Passes(s: Bytes, i: nat, j: nat, depth: nat) {
    i < j <= |s| && SkipNext(s, i, depth) == Ok((j, depth))
  }

  lemma NextStep(s: Bytes, i: nat, num: nat, wireType: nat, depth: nat, t: nat, j: nat, inner: nat)
    requires FieldNumber(num) && wireType < 8 && At(s, i, EncTag(num, wireType)) && j < TWO63
    requires t == i + |EncTag(num, wireType)| && SkipPayload(s, t, wireType, depth) == Ok((j, inner))
    ensures i < |s| && SkipNext(s, i, depth) == Ok((j, inner))
  {
    ReadTag(s, i, num, wireType);
    assert (num * 8 + wireType) % 8 == wireType;
  }

  lemma PassLen(s: Bytes, i: nat, n: nat, data: Bytes, depth: nat, j: nat)
    requires FieldNumber(n) && |data| < TWO63 && |s| < TWO63 && At(s, i, EncTag(n, 2) + (EncVarint(|data|) + data))
    requires j == i + |EncTag(n, 2) + (EncVarint(|data|) + data)|
    ensures Passes(s, i, j, depth)
  {
    AtSplit(s, i, EncTag(n, 2), EncVarint(|data|) + data);
    var t := i + |EncTag(n, 2)|;
    AtSplit(s, t, EncVarint(|data|), data);
    ReadLengthAt(s, t, |data|);
    NextStep(s, i, n, 2, depth, t, j, depth);
  }

  lemma PassVarint(s: Bytes, i: nat, n: nat, raw: Bytes, depth: nat, j: nat)
    requires FieldNumber(n) && Complete(raw) && |s| < TWO63 && At(s, i, EncTag(n, 0) + raw) && j == i + |EncTag(n, 0) + raw|
    ensures Passes(s, i, j, depth)
  {
    AtSplit(s, i, EncTag(n, 0), raw);
    assert raw[0..] == raw;
    var t := i + |EncTag(n, 0)|;
    ReadComplete(s, t, 0, raw);
    NextStep(s, i, n, 0, depth, t, j, depth);
  }

  lemma PassFixed(s: Bytes, i: nat, n: nat, wireType: nat, data: Bytes, depth: nat, j: nat)
    requires FieldNumber(n) && ((wireType == 1 && |data| == 8) || (wireType == 5 && |data| == 4))
    requires |s| < TWO63 && At(s, i, EncTag(n, wireType) + data) && j == i + |EncTag(n, wireType) + data|
    ensures Passes(s, i, j, depth)
  {
    AtSplit(s, i, EncTag(n, wireType), data);
    NextStep(s, i, n, wireType, depth, i + |EncTag(n, wireType)|, j, depth);
  }

  /** A group: the turn into it, where its body stands, and the turn out of it. */
  lemma PassGroup(s: Bytes, i: nat, n: nat, body: Bytes, depth: nat, j: nat) returns (a: nat, b: nat)
    requires FieldNumber(n) && |s| < TWO63 && At(s, i, EncTag(n, 3) + (body + EncTag(n, 4)))
    requires j == i + |EncTag(n, 3) + (body + EncTag(n, 4))|
    ensures i < a <= b < j <= |s| && At(s, a, body) && b == a + |body|
    ensures SkipNext(s, i, depth) == Ok((a, depth + 1)) && SkipNext(s, b, depth + 1) == Ok((j, depth))
  {
    AtSplit(s, i, EncTag(n, 3), body + EncTag(n, 4));
    a := i + |EncTag(n, 3)|;
    NextStep(s, i, n, 3, depth, a, a, depth + 1);
    AtSplit(s, a, body, EncTag(n, 4));
    b := a + |body|;
    NextStep(s, b, n, 4, depth + 1, j, j, depth);
  }

  lemma SkipPasses(s: Bytes, i: nat, j: nat, depth: nat)
    requires Passes(s, i, j, depth)
    ensures Skip(s, i, depth) == if depth == 0 then Ok(j) else Skip(s, j, depth)
  {
  }

  lemma SkipInto(s: Bytes, i: nat, depth: nat, a: nat, inner: nat)
    requires i < |s| && SkipNext(s, i, depth) == Ok((a, inner))
    ensures Skip(s, i, depth) == if inner == 0 then Ok(a) else Skip(s, a, inner)
  {
  }

  /** Past the well-formed record at `i`, which ends at `j`: at the outermost level the skip
      ends there, inside a group it goes on from there. */
  lemma {:induction false} SkipOne(s: Bytes, i: nat, u: Unknown, depth: nat, j: nat)
    requires WellFormed(u) && At(s, i, EncUnknown(u)) && |s| < TWO63 && j == i + |EncUnknown(u)|
    ensures Skip(s, i, depth) == if depth == 0 then Ok(j) else Skip(s, j, depth)
    decreases u
  {
    match u {
      case UVarint(n, raw) =>
        PassVarint(s, i, n, raw, depth, j);
        SkipPasses(s, i, j, depth);
      case ULen(n, data) =>
        PassLen(s, i, n, data, depth, j);
        SkipPasses(s, i, j, depth);
      case UFixed64(n, data) =>
        PassFixed(s, i, n, 1, data, depth, j);
        SkipPasses(s, i, j, depth);
      case UFixed32(n, data) =>
        PassFixed(s, i, n, 5, data, depth, j);
        SkipPasses(s, i, j, depth);
      case UGroup(n, body) =>
        SkipGroup(s, i, n, body, depth, j);
    }
  }

  lemma SkipAround(s: Bytes, i: nat, a: nat, b: nat, j: nat, depth: nat)
    requires i < |s| && b < |s| && SkipNext(s, i, depth) == Ok((a, depth + 1)) && SkipNext(s, b, depth + 1) == Ok((j, depth))
    requires Skip(s, a, depth + 1) == Skip(s, b, depth + 1)
    ensures Skip(s, i, depth) == if depth == 0 then Ok(j) else Skip(s, j, depth)
  {
    SkipInto(s, i, depth, a, depth + 1);
    SkipInto(s, b, depth + 1, j, depth);
  }

  lemma {:induction false} SkipGroup(s: Bytes, i: nat, n: nat, body: Unknowns, depth: nat, j: nat)
    requires FieldNumber(n) && AllWellFormed(body) && |s| < TWO63
    requires At(s, i, EncTag(n, 3) + (EncAll(body) + EncTag(n, 4)))
    requires j == i + |EncTag(n, 3) + (EncAll(body) + EncTag(n, 4))|
    ensures Skip(s, i, depth) == if depth == 0 then Ok(j) else Skip(s, j, depth)
    decreases body, 1
  {
    var a, b := PassGroup(s, i, n, EncAll(body), depth, j);
    SkipAll(s, a, body, depth + 1, b);
    SkipAround(s, i, a, b, j, depth);
  }

  lemma {:induction false} SkipAll(s: Bytes, i: nat, body: Unknowns, depth: nat, j: nat)
    requires AllWellFormed(body) && At(s, i, EncAll(body)) && |s| < TWO63 && depth > 0 && j == i + |EncAll(body)|
    ensures Skip(s, i, depth) == Skip(s, j, depth)
    decreases body, 0
  {
    if body.Cons? {
      AtSplit(s, i, EncUnknown(body.head), EncAll(body.tail));
      var m := i + |EncUnknown(body.head)|;
      SkipOne(s, i, body.head, depth, m);
      SkipAll(s, m, body.tail, depth, j);
    }
  }

  // ---- decoding ----

  datatype Kind = VarintField | LenField

  /** What a field carries on the wire: a number before truncation, or bytes. */
  datatype Payload = Num(raw: nat) | Data(bytes: Bytes)

  /** The fields a message knows, and what each does to the message being filled. */
  datatype Codec<!M> = Codec(kinds: map<int, Kind>, apply: (M, int, Payload) -> Result<M>)

  datatype Record = Field(num: int, payload: Payload) | Skipped

  /** The field number of a tag, as a signed 32-bit integer. */
  function FieldNum(wire: nat): int {
    var n := (wire / 8) % TWO32;
    if n >= 0x8000_0000 then n - TWO32 else n
  }

  function ReadVarintField(s: Bytes, t: nat, num: int): (r: Result<(nat, Record)>)
    ensures r.Ok? ==> t < r.value.0 <= |s|
  {
    match ReadVarint(s, t, 0)
    case Err(e) => Err(e)
    case Ok(p) => Ok((p.1, Field(num, Num(p.0))))
  }

  function ReadLenField(s: Bytes, t: nat, num: int): (r: Result<(nat, Record)>)
    ensures r.Ok? ==> t < r.value.0 <= |s|
  {
    match ReadLength(s, t)
    case Err(e) => Err(e)
    case Ok(p) =>
      if p.1 + p.0 >= TWO63 then Err(InvalidLength)
      else if p.1 + p.0 > |s| then Err(UnexpectedEof)
      else Ok((p.1 + p.0, Field(num, Data(s[p.1..p.1 + p.0]))))
  }

  function SkipField(s: Bytes, i: nat): (r: Result<(nat, Record)>)
    requires i <= |s|
    ensures r.Ok? ==> i < r.value.0 <= |s|
  {
    match Skip(s[i..], 0, 0)
    case Err(e) => Err(e)
    case Ok(k) =>
      if i + k >= TWO63 then Err(InvalidLength)
      else if i + k > |s| then Err(UnexpectedEof)
      else Ok((i + k, Skipped))
  }

  /** The record at position `i` of a message with these fields. */
  function ReadRecord(kinds: map<int, Kind>, s: Bytes, i: nat): (r: Result<(nat, Record)>)
    requires i < |s|
    ensures r.Ok? ==> i < r.value.0 <= |s|
  {
    match ReadVarint(s, i, 0)
    case Err(e) => Err(e)
    case Ok(tag) =>
      var wire := tag.0 % TWO64;
      var num, wireType := FieldNum(wire), wire % 8;
      if wireType == 4 then Err(EndGroup)
      else if num <= 0 then Err(IllegalTag)
      else if num !in kinds then SkipField(s, i)
      else
        match kinds[num]
        case VarintField => if wireType != 0 then Err(WrongWireType) else ReadVarintField(s, tag.1, num)
        case LenField => if wireType != 2 then Err(WrongWireType) else ReadLenField(s, tag.1, num)
  }

  function ApplyRecord<M>(c: Codec<M>, m: M, r: Record): Result<M> {
    match r
    case Skipped => Ok(m)
    case Field(num, payload) => c.apply(m, num, payload)
  }

  /** The message `m` after the records from position `i` on. */
  function Decode<M>(c: Codec<M>, s: Bytes, i: nat, m: M): Result<M>
    decreases |s| - i
  {
    if i >= |s| then Ok(m)
    else
      match ReadRecord(c.kinds, s, i)
      case Err(e) => Err(e)
      case Ok(p) =>
        match ApplyRecord(c, m, p.1)
        case Err(e) => Err(e)
        case Ok(m') => Decode(c, s, p.0, m')
  }

  /** The decode loop of every message. */
  method Unmarshal<M>(c: Codec<M>, zero: M, s: Bytes) returns (r: Result<M>)
    ensures r == Decode(c, s, 0, zero)
  {
    var m, i := zero, 0;
    while i < |s|
      invariant Decode(c, s, i, m) == Decode(c, s, 0, zero)
      decreases |s| - i
    {
      var record := NextRecord(c.kinds, s, i);
      if record.Err? { return Err(record.error); }
      var next := ApplyRecord(c, m, record.value.1);
      if next.Err? { return Err(next.error); }
      i, m := record.value.0, next.value;
    }
    r := Ok(m);
  }

  method NextRecord(kinds: map<int, Kind>, s: Bytes, pre: nat) returns (r: Result<(nat, Record)>)
    requires pre < |s|
    ensures r == ReadRecord(kinds, s, pre)
  {
    var tag := DecodeVarint(s, pre);
    if tag.Err? { return Err(tag.error); }
    var wire := tag.value.0 % TWO64;
    var num, wireType := FieldNum(wire), wire % 8;
    if wireType == 4 { return Err(EndGroup); }
    if num <= 0 { return Err(IllegalTag); }
    if num !in kinds {
      var skippy := SkipRecord(s[pre..]);
      if skippy.Err? { return Err(skippy.error); }
      if pre + skippy.value >= TWO63 { return Err(InvalidLength); }
      if pre + skippy.value > |s| { return Err(UnexpectedEof); }
      return Ok((pre + skippy.value, Skipped));
    }
    match kinds[num] {
      case VarintField =>
        if wireType != 0 { return Err(WrongWireType); }
        var v := DecodeVarint(s, tag.value.1);
        if v.Err? { return Err(v.error); }
        return Ok((v.value.1, Field(num, Num(v.value.0))));
      case LenField =>
        if wireType != 2 { return Err(WrongWireType); }
        var v := DecodeVarint(s, tag.value.1);
        if v.Err? { return Err(v.error); }
        var size := v.value.0 % TWO64;
        if size >= TWO63 { return Err(InvalidLength); }
        var post := v.value.1 + size;
        if post >= TWO63 { return Err(InvalidLength); }
        if post > |s| { return Err(UnexpectedEof); }
        return Ok((post, Field(num, Data(s[v.value.1..post]))));
    }
  }

  // ---- streams of records ----

  datatype Item = Known(num: nat, payload: Payload) | Extra(unknown: Unknown)

  function EncItem(it: Item): Bytes {
    match it
    case Known(n, Num(v)) => EncTag(n, 0) + EncVarint(v)
    case Known(n, Data(d)) => EncTag(n, 2) + (EncVarint(|d|) + d)
    case Extra(u) => EncUnknown(u)
  }

  function EncItems(items: seq<Item>): Bytes {
    if items == [] then [] else EncItem(items[0]) + EncItems(items[1..])
  }

  lemma {:induction false} EncAppend(a: seq<Item>, b: seq<Item>)
    ensures EncItems(a + b) == EncItems(a) + EncItems(b)
    decreases |a|
  {
    if a == [] {
      assert a + b == b;
    } else {
      assert (a + b)[0] == a[0] && (a + b)[1..] == a[1..] + b;
      EncAppend(a[1..], b);
    }
  }

  /** Tags of the first fifteen fields are single bytes. */
  lemma ByteTag(num: nat, wireType: nat)
    requires num <= 15 && wireType < 8
    ensures EncTag(num, wireType) == [(num * 8 + wireType) as byte]
  {
  }

  lemma EncOne(it: Item)
    ensures EncItems([it]) == EncItem(it)
  {
    assert [it][1..] == [];
    assert EncItem(it) + [] == EncItem(it);
  }

  lemma EncAlways(num: nat, d: Bytes)
    requires num <= 15
    ensures EncItems(Always(num, d)) == [(num * 8 + 2) as byte] + (EncVarint(|d|) + d)
  {
    ByteTag(num, 2);
    EncOne(Known(num, Data(d)));
  }

  lemma EncNum(num: nat, v: nat)
    requires num <= 15
    ensures EncItems([Known(num, Num(v))]) == [(num * 8) as byte] + EncVarint(v)
  {
    ByteTag(num, 0);
    EncOne(Known(num, Num(v)));
  }

  /** A known record has the kind its field has; an unknown one has a number no field has. */
  predicate Fits(kinds: map<int, Kind>, it: Item) {
    match it
    case Known(n, Num(v)) => FieldNumber(n) && n in kinds && kinds[n] == VarintField && v < TWO64
    case Known(n, Data(d)) => FieldNumber(n) && n in kinds && kinds[n] == LenField && |d| < TWO63
    case Extra(u) => WellFormed(u) && u.num !in kinds
  }

  predicate AllFit(kinds: map<int, Kind>, items: seq<Item>) {
    forall k :: 0 <= k < |items| ==> Fits(kinds, items[k])
  }

  function RecordOf(it: Item): Record {
    match it
    case Known(n, p) => Field(n, p)
    case Extra(_) => Skipped
  }

  /** The message after these records, one after another. */
  function Fold<M>(c: Codec<M>, m: M, items: seq<Item>): Result<M> {
    if items == [] then Ok(m)
    else
      match ApplyRecord(c, m, RecordOf(items[0]))
      case Err(e) => Err(e)
      case Ok(m') => Fold(c, m', items[1..])
  }

  lemma TagNumber(num: nat, wireType: nat)
    requires FieldNumber(num) && wireType < 8
    ensures var wire := (num * 8 + wireType) % TWO64; FieldNum(wire) == num && wire % 8 == wireType
  {
    var wire := num * 8 + wireType;
    assert wire < TWO64;
    assert wire / 8 == num;
  }

  lemma KnownTag(kinds: map<int, Kind>, s: Bytes, i: nat, n: nat, wireType: nat, t: nat)
    requires FieldNumber(n) && wireType < 8 && At(s, i, EncTag(n, wireType)) && t == i + |EncTag(n, wireType)| && n in kinds
    ensures i < t <= |s|
    ensures wireType == 0 && kinds[n] == VarintField ==> ReadRecord(kinds, s, i) == ReadVarintField(s, t, n)
    ensures wireType == 2 && kinds[n] == LenField ==> ReadRecord(kinds, s, i) == ReadLenField(s, t, n)
  {
    ReadTag(s, i, n, wireType);
    TagNumber(n, wireType);
  }

  lemma ReadVarintItem(kinds: map<int, Kind>, s: Bytes, i: nat, n: nat, v: nat, j: nat)
    requires FieldNumber(n) && n in kinds && kinds[n] == VarintField && v < TWO64
    requires At(s, i, EncTag(n, 0) + EncVarint(v)) && j == i + |EncTag(n, 0) + EncVarint(v)|
    ensures i < j <= |s| && ReadRecord(kinds, s, i) == Ok((j, Field(n, Num(v))))
  {
    AtSplit(s, i, EncTag(n, 0), EncVarint(v));
    var t := i + |EncTag(n, 0)|;
    KnownTag(kinds, s, i, n, 0, t);
    Uint64TakesTen(v);
    ReadEncoded(s, t, 0, v);
  }

  lemma ReadLenItem(kinds: map<int, Kind>, s: Bytes, i: nat, n: nat, d: Bytes, j: nat)
    requires FieldNumber(n) && n in kinds && kinds[n] == LenField && |d| < TWO63 && |s| < TWO63
    requires At(s, i, EncTag(n, 2) + (EncVarint(|d|) + d)) && j == i + |EncTag(n, 2) + (EncVarint(|d|) + d)|
    ensures i < j <= |s| && ReadRecord(kinds, s, i) == Ok((j, Field(n, Data(d))))
  {
    var tag, rest := EncTag(n, 2), EncVarint(|d|) + d;
    AtSplit(s, i, tag, rest);
    var t := i + |tag|;
    assert j == t + |rest|;
    ReadLenPart(s, t, n, d, j);
    KnownTag(kinds, s, i, n, 2, t);
  }

  lemma ReadLenPart(s: Bytes, t: nat, n: nat, d: Bytes, j: nat)
    requires |d| < TWO63 && |s| < TWO63 && At(s, t, EncVarint(|d|) + d) && j == t + |EncVarint(|d|) + d|
    ensures ReadLenField(s, t, n) == Ok((j, Field(n, Data(d))))
  {
    AtSplit(s, t, EncVarint(|d|), d);
    ReadLengthAt(s, t, |d|);
    var p := t + |EncVarint(|d|)|;
    assert ReadLength(s, t) == Ok((|d|, p)) && j == p + |d|;
    assert s[p..p + |d|] == d;
  }

  function WireType(u: Unknown): nat {
    match u
    case UVarint(_, _) => 0
    case UFixed64(_, _) => 1
    case ULen(_, _) => 2
    case UGroup(_, _) => 3
    case UFixed32(_, _) => 5
  }

  lemma UnknownTag(u: Unknown) returns (rest: Bytes)
    ensures EncUnknown(u) == EncTag(u.num, WireType(u)) + rest
  {
    match u
    case UVarint(_, raw) => rest := raw;
    case UFixed64(_, data) => rest := data;
    case ULen(_, data) => rest := EncVarint(|data|) + data;
    case UGroup(n, body) => rest := EncAll(body) + EncTag(n, 4);
    case UFixed32(_, data) => rest := data;
  }

  lemma ReadExtra(kinds: map<int, Kind>, s: Bytes, i: nat, u: Unknown, j: nat)
    requires WellFormed(u) && u.num !in kinds && |s| < TWO63 && At(s, i, EncUnknown(u)) && j == i + |EncUnknown(u)|
    ensures i < j <= |s| && ReadRecord(kinds, s, i) == Ok((j, Skipped))
  {
    var rest := UnknownTag(u);
    AtSplit(s, i, EncTag(u.num, WireType(u)), rest);
    ReadTag(s, i, u.num, WireType(u));
    TagNumber(u.num, WireType(u));
    SkipAtStart(s, i, u, j - i);
  }

  lemma SkipAtStart(s: Bytes, i: nat, u: Unknown, k: nat)
    requires WellFormed(u) && |s| < TWO63 && At(s, i, EncUnknown(u)) && k == |EncUnknown(u)|
    ensures Skip(s[i..], 0, 0) == Ok(k)
  {
    assert s[i..][0..k] == s[i..i + k];
    SkipOne(s[i..], 0, u, 0, k);
  }

  lemma ReadItem(kinds: map<int, Kind>, s: Bytes, i: nat, it: Item, j: nat)
    requires Fits(kinds, it) && |s| < TWO63 && At(s, i, EncItem(it)) && j == i + |EncItem(it)|
    ensures i < j <= |s| && ReadRecord(kinds, s, i) == Ok((j, RecordOf(it)))
  {
    match it
    case Known(n, Num(v)) => ReadVarintItem(kinds, s, i, n, v, j);
    case Known(n, Data(d)) => ReadLenItem(kinds, s, i, n, d, j);
    case Extra(u) => ReadExtra(kinds, s, i, u, j);
  }

  /** Decoding a stream of records is applying them in order, the unknown ones having no effect. */
  lemma {:induction false} DecodeStream<M>(c: Codec<M>, s: Bytes, i: nat, m: M, items: seq<Item>)
    requires AllFit(c.kinds, items) && |s| < TWO63 && At(s, i, EncItems(items)) && i + |EncItems(items)| == |s|
    ensures Decode(c, s, i, m) == Fold(c, m, items)
    decreases |items|
  {
    if items != [] {
      var it := items[0];
      var j := i + |EncItem(it)|;
      AtSplit(s, i, EncItem(it), EncItems(items[1..]));
      ReadItem(c.kinds, s, i, it, j);
      var next := ApplyRecord(c, m, RecordOf(it));
      if next.Ok? {
        DecodeStream(c, s, j, next.value, items[1..]);
      }
    }
  }

  // ---- records that are refused ----

  /** A tag that ends a group, a tag with field number zero, and a field with the wire type of another
      kind are refused, whatever follows. */
  lemma TagRefused(kinds: map<int, Kind>, s: Bytes, i: nat, num: nat, wireType: nat)
    requires num < 0x2000_0000 && wireType < 8 && At(s, i, EncTag(num, wireType)) && i < |s|
    ensures wireType == 4 ==> ReadRecord(kinds, s, i) == Err(EndGroup)
    ensures wireType != 4 && num == 0 ==> ReadRecord(kinds, s, i) == Err(IllegalTag)
    ensures wireType != 4 && num > 0 && num in kinds && wireType != (if kinds[num] == VarintField then 0 else 2) ==>
      ReadRecord(kinds, s, i) == Err(WrongWireType)
  {
    var wire := num * 8 + wireType;
    assert wire < TWO32 * 8 && wire / 8 == num && wire % 8 == wireType;
    Uint64TakesTen(wire);
    ReadEncoded(s, i, 0, wire);
  }

  /** `s` ends at or after `i` with the first `n` bytes of `e`. */
  predicate CutAt(s: Bytes, i: nat, e: Bytes, n: nat) {
    n <= |e| && |s| == i + n && s[i..] == e[..n]
  }

  /** A varint that is cut short is refused. */
  lemma {:induction false} CutVarint(s: Bytes, i: nat, k: nat, v: nat, n: nat)
    requires n < |EncVarint(v)| && k + |EncVarint(v)| <= 10 && CutAt(s, i, EncVarint(v), n)
    ensures ReadVarint(s, i, k) == Err(UnexpectedEof)
    decreases v
  {
    if n > 0 {
      var e := EncVarint(v);
      assert s[i] == s[i..][0] == e[0];
      assert e[1..] == EncVarint(v / 128);
      assert s[i + 1..] == s[i..][1..] == e[1..][..n - 1];
      CutVarint(s, i + 1, k + 1, v / 128, n - 1);
    }
  }

  /** A cut falls into the first part, or leaves it whole and falls into the second. */
  lemma CutSplit(s: Bytes, i: nat, a: Bytes, b: Bytes, n: nat)
    requires CutAt(s, i, a + b, n)
    ensures n < |a| ==> CutAt(s, i, a, n)
    ensures n >= |a| ==> At(s, i, a) && CutAt(s, i + |a|, b, n - |a|)
  {
    if n < |a| {
      assert (a + b)[..n] == a[..n];
    } else {
      assert s[i..][..|a|] == s[i..i + |a|];
      assert (a + b)[..n][..|a|] == a;
      assert s[i + |a|..] == s[i..][|a|..];
      assert (a + b)[..n][|a|..] == b[..n - |a|];
    }
  }

  lemma CutTag(kinds: map<int, Kind>, s: Bytes, i: nat, num: nat, wireType: nat, n: nat)
    requires FieldNumber(num) && wireType < 8 && 0 < n < |EncTag(num, wireType)| && CutAt(s, i, EncTag(num, wireType), n)
    ensures ReadRecord(kinds, s, i) == Err(UnexpectedEof)
  {
    Uint64TakesTen(num * 8 + wireType);
    CutVarint(s, i, 0, num * 8 + wireType, n);
  }

  lemma CutNumber(kinds: map<int, Kind>, s: Bytes, i: nat, num: nat, v: Uint64, n: nat)
    requires FieldNumber(num) && num in kinds && kinds[num] == VarintField
    requires 0 < n < |EncTag(num, 0) + EncVarint(v)| && CutAt(s, i, EncTag(num, 0) + EncVarint(v), n)
    ensures ReadRecord(kinds, s, i) == Err(UnexpectedEof)
  {
    var tag := EncTag(num, 0);
    CutSplit(s, i, tag, EncVarint(v), n);
    if n < |tag| {
      CutTag(kinds, s, i, num, 0, n);
    } else {
      Uint64TakesTen(v);
      CutVarint(s, i + |tag|, 0, v, n - |tag|);
      KnownTag(kinds, s, i, num, 0, i + |tag|);
    }
  }

  lemma CutLength(s: Bytes, t: nat, num: int, d: Bytes, n: nat)
    requires n < |EncVarint(|d|) + d| && CutAt(s, t, EncVarint(|d|) + d, n) && t + |EncVarint(|d|) + d| < TWO63
    ensures ReadLenField(s, t, num) == Err(UnexpectedEof)
  {
    var e := EncVarint(|d|);
    Uint64TakesTen(|d|);
    CutSplit(s, t, e, d, n);
    if n < |e| {
      CutVarint(s, t, 0, |d|, n);
    } else {
      ReadLengthAt(s, t, |d|);
    }
  }

  lemma CutData(kinds: map<int, Kind>, s: Bytes, i: nat, num: nat, d: Bytes, n: nat)
    requires FieldNumber(num) && num in kinds && kinds[num] == LenField
    requires i + |EncTag(num, 2) + (EncVarint(|d|) + d)| < TWO63
    requires 0 < n < |EncTag(num, 2) + (EncVarint(|d|) + d)| && CutAt(s, i, EncTag(num, 2) + (EncVarint(|d|) + d), n)
    ensures ReadRecord(kinds, s, i) == Err(UnexpectedEof)
  {
    var tag, rest := EncTag(num, 2), EncVarint(|d|) + d;
    CutSplit(s, i, tag, rest, n);
    if n < |tag| {
      CutTag(kinds, s, i, num, 2, n);
    } else {
      CutLength(s, i + |tag|, num, d, n - |tag|);
      KnownTag(kinds, s, i, num, 2, i + |tag|);
    }
  }

  lemma CutLast<M>(c: Codec<M>, m: M, s: Bytes, i: nat, last: Item, n: nat)
    requires Fits(c.kinds, last) && last.Known? && 0 < n < |EncItem(last)| && CutAt(s, i, EncItem(last), n) && i + |EncItem(last)| < TWO63
    ensures Decode(c, s, i, m) == Err(UnexpectedEof)
  {
    match last
    case Known(num, Num(v)) => CutNumber(c.kinds, s, i, num, v, n);
    case Known(num, Data(d)) => CutData(c.kinds, s, i, num, d, n);
  }

  lemma DecodeOn<M>(c: Codec<M>, m: M, s: Bytes, i: nat, j: nat, r: Record, next: M)
    requires i < |s| && ReadRecord(c.kinds, s, i) == Ok((j, r)) && ApplyRecord(c, m, r) == Ok(next)
    ensures Decode(c, s, i, m) == Decode(c, s, j, next)
  {
  }

  /** Past the first record of a cut message. */
  lemma CutRest<M>(c: Codec<M>, m: M, s: Bytes, i: nat, items: seq<Item>, tail: Bytes, n: nat) returns (j: nat, next: M)
    requires items != [] && AllFit(c.kinds, items) && Fold(c, m, items).Ok?
    requires CutAt(s, i, EncItems(items) + tail, |EncItems(items)| + n) && i + |EncItems(items) + tail| < TWO63
    ensures CutAt(s, j, EncItems(items[1..]) + tail, |EncItems(items[1..])| + n) && j + |EncItems(items[1..]) + tail| < TWO63
    ensures Fold(c, next, items[1..]).Ok? && Decode(c, s, i, m) == Decode(c, s, j, next)
  {
    var e, rest := EncItem(items[0]), EncItems(items[1..]);
    assert EncItems(items) + tail == e + (rest + tail);
    CutSplit(s, i, e, rest + tail, |EncItems(items)| + n);
    j := i + |e|;
    ReadItem(c.kinds, s, i, items[0], j);
    next := ApplyRecord(c, m, RecordOf(items[0])).value;
    DecodeOn(c, m, s, i, j, RecordOf(items[0]), next);
  }

  /** A message cut inside its last record is refused: no proper part of a record is a record. */
  lemma {:induction false} CutRefused<M>(c: Codec<M>, m: M, s: Bytes, i: nat, items: seq<Item>, last: Item, n: nat)
    requires AllFit(c.kinds, items) && Fits(c.kinds, last) && last.Known? && 0 < n < |EncItem(last)|
    requires CutAt(s, i, EncItems(items) + EncItem(last), |EncItems(items)| + n)
    requires i + |EncItems(items) + EncItem(last)| < TWO63 && Fold(c, m, items).Ok?
    ensures Decode(c, s, i, m) == Err(UnexpectedEof)
    decreases |items|
  {
    if items == [] {
      assert EncItems(items) + EncItem(last) == EncItem(last);
      CutLast(c, m, s, i, last, n);
    } else {
      var j, next := CutRest(c, m, s, i, items, EncItem(last), n);
      CutRefused(c, next, s, j, items[1..], last, n);
    }
  }

  /** The records among these that belong to known fields. */
  function KnownItems(items: seq<Item>): seq<Item> {
    if items == [] then []
    else if items[0].Known? then [items[0]] + KnownItems(items[1..])
    else KnownItems(items[1..])
  }

  lemma {:induction false} FoldKnown<M>(c: Codec<M>, m: M, items: seq<Item>)
    ensures Fold(c, m, items) == Fold(c, m, KnownItems(items))
    decreases |items|
  {
    if items != [] {
      var next := ApplyRecord(c, m, RecordOf(items[0]));
      if next.Ok? {
        FoldKnown(c, next.value, items[1..]);
      }
      if items[0].Known? {
        assert KnownItems(items)[1..] == KnownItems(items[1..]);
      }
    }
  }

  /** Two streams with the same known records in the same order decode to the same result,
      whatever well-formed unknown records stand between them. */
  lemma UnknownRecordsIgnored<M>(c: Codec<M>, m: M, items: seq<Item>, others: seq<Item>)
    requires AllFit(c.kinds, items) && AllFit(c.kinds, others) && KnownItems(items) == KnownItems(others)
    requires |EncItems(items)| < TWO63 && |EncItems(others)| < TWO63
    ensures Decode(c, EncItems(items), 0, m) == Decode(c, EncItems(others), 0, m)
  {
    DecodeStream(c, EncItems(items), 0, m, items);
    DecodeStream(c, EncItems(others), 0, m, others);
    FoldKnown(c, m, items);
    FoldKnown(c, m, others);
  }

  // ---- records a message writes ----

  /** As `Fits`, whatever the size of the data. */
  predicate Shaped(kinds: map<int, Kind>, it: Item) {
    && it.Known? && FieldNumber(it.num) && it.num in kinds
    && match it.payload
       case Num(v) => kinds[it.num] == VarintField && v < TWO64
       case Data(_) => kinds[it.num] == LenField
  }

  predicate AllShaped(kinds: map<int, Kind>, items: seq<Item>) {
    forall k :: 0 <= k < |items| ==> Shaped(kinds, items[k])
  }

  lemma ShapedThen(kinds: map<int, Kind>, a: seq<Item>, b: seq<Item>)
    requires AllShaped(kinds, a) && AllShaped(kinds, b)
    ensures AllShaped(kinds, a + b)
  {
  }

  lemma {:induction false} SmallItemsFit(kinds: map<int, Kind>, items: seq<Item>)
    requires AllShaped(kinds, items) && |EncItems(items)| < TWO63
    ensures AllFit(kinds, items) && KnownItems(items) == items
    decreases |items|
  {
    if items != [] {
      SmallItemsFit(kinds, items[1..]);
      forall k | 0 <= k < |items| ensures Fits(kinds, items[k]) {
        if k > 0 {
          assert items[k] == items[1..][k - 1];
        }
      }
    }
  }

  /** The bytes hold these known records in this order, with any well-formed unknown records
      between them. */
  ghost predicate Spells(kinds: map<int, Kind>, known: seq<Item>, d: Bytes) {
    |d| < TWO63 && exists items :: d == EncItems(items) && AllFit(kinds, items) && KnownItems(items) == known
  }

  /** A message is read back from its records, whatever unknown ones stand between them. */
  lemma SpelledReads<M>(c: Codec<M>, zero: M, m: M, known: seq<Item>, d: Bytes)
    requires Spells(c.kinds, known, d) && Fold(c, zero, known) == Ok(m)
    ensures Decode(c, d, 0, zero) == Ok(m)
  {
    var items :| d == EncItems(items) && AllFit(c.kinds, items) && KnownItems(items) == known;
    DecodeStream(c, d, 0, zero, items);
    FoldKnown(c, zero, items);
  }

  lemma WrittenSpells(kinds: map<int, Kind>, items: seq<Item>)
    requires AllShaped(kinds, items) && |EncItems(items)| < TWO63
    ensures Spells(kinds, items, EncItems(items))
  {
    SmallItemsFit(kinds, items);
  }

  /** A number field, left out when zero. */
  function OptNum(num: nat, v: nat): seq<Item> {
    if v == 0 then [] else [Known(num, Num(v))]
  }

  function Always(num: nat, d: Bytes): seq<Item> {
    [Known(num, Data(d))]
  }

  /** A bytes field, left out when empty. */
  function OptData(num: nat, d: Bytes): seq<Item> {
    if d == [] then [] else Always(num, d)
  }

  function Flag(num: nat, b: bool): seq<Item> {
    if b then [Known(num, Num(1))] else []
  }

  /** The field `num` has this kind. */
  predicate Has(kinds: map<int, Kind>, num: nat, kind: Kind) {
    FieldNumber(num) && num in kinds && kinds[num] == kind
  }

  lemma ShapedData(kinds: map<int, Kind>, num: nat, d: Bytes, rest: seq<Item>)
    requires Has(kinds, num, LenField) && AllShaped(kinds, rest)
    ensures AllShaped(kinds, OptData(num, d) + rest) && AllShaped(kinds, Always(num, d) + rest)
  {
    ShapedThen(kinds, OptData(num, d), rest);
    ShapedThen(kinds, Always(num, d), rest);
  }

  lemma ShapedNum(kinds: map<int, Kind>, num: nat, v: Uint64, b: bool, rest: seq<Item>)
    requires Has(kinds, num, VarintField) && AllShaped(kinds, rest)
    ensures AllShaped(kinds, OptNum(num, v) + rest) && AllShaped(kinds, Flag(num, b) + rest)
  {
    ShapedThen(kinds, OptNum(num, v), rest);
    ShapedThen(kinds, Flag(num, b), rest);
  }

  lemma ShapedEach(kinds: map<int, Kind>, num: nat, ds: seq<Bytes>, rest: seq<Item>)
    requires Has(kinds, num, LenField) && AllShaped(kinds, rest)
    ensures AllShaped(kinds, Each(num, ds) + rest)
  {
    assert AllShaped(kinds, Each(num, ds));
    ShapedThen(kinds, Each(num, ds), rest);
  }

  /** A repeated field, one record for each element. */
  function Each(num: nat, ds: seq<Bytes>): (items: seq<Item>)
    ensures |items| == |ds| && forall k :: 0 <= k < |ds| ==> items[k] == Known(num, Data(ds[k]))
  {
    seq(|ds|, k requires 0 <= k < |ds| => Known(num, Data(ds[k])))
  }

  lemma {:induction false} FoldThen<M>(c: Codec<M>, m: M, a: seq<Item>, m1: M, b: seq<Item>, r: Result<M>)
    requires Fold(c, m, a) == Ok(m1) && Fold(c, m1, b) == r
    ensures Fold(c, m, a + b) == r
    decreases |a|
  {
    if a == [] {
      assert a + b == b;
    } else {
      assert (a + b)[0] == a[0] && (a + b)[1..] == a[1..] + b;
      FoldThen(c, ApplyRecord(c, m, RecordOf(a[0])).value, a[1..], m1, b, r);
    }
  }

  lemma FoldSingle<M>(c: Codec<M>, m: M, num: nat, p: Payload, m1: M)
    requires c.apply(m, num, p) == Ok(m1)
    ensures Fold(c, m, [Known(num, p)]) == Ok(m1)
  {
    assert [Known(num, p)][1..] == [];
  }

  lemma FoldOptData<M>(c: Codec<M>, m: M, num: nat, d: Bytes, m1: M)
    requires d != [] ==> c.apply(m, num, Data(d)) == Ok(m1)
    requires d == [] ==> m1 == m
    ensures Fold(c, m, OptData(num, d)) == Ok(m1)
  {
    if d != [] {
      FoldSingle(c, m, num, Data(d), m1);
    }
  }

  lemma FoldOptNum<M>(c: Codec<M>, m: M, num: nat, v: nat, m1: M)
    requires v != 0 ==> c.apply(m, num, Num(v)) == Ok(m1)
    requires v == 0 ==> m1 == m
    ensures Fold(c, m, OptNum(num, v)) == Ok(m1)
  {
    if v != 0 {
      FoldSingle(c, m, num, Num(v), m1);
    }
  }

  lemma FoldFlag<M>(c: Codec<M>, m: M, num: nat, b: bool, m1: M)
    requires b ==> c.apply(m, num, Num(1)) == Ok(m1)
    requires !b ==> m1 == m
    ensures Fold(c, m, Flag(num, b)) == Ok(m1)
  {
    if b {
      FoldSingle(c, m, num, Num(1), m1);
    }
  }

  /** The `k`-th element, written as `ds[k]`, is appended to those before it. */
  ghost predicate Appends<M, T>(c: Codec<M>, num: nat, ts: seq<T>, ds: seq<Bytes>, with: seq<T> -> M, k: nat)
    requires k < |ts| && |ds| == |ts|
  {
    c.apply(with(ts[..k]), num, Data(ds[k])) == Ok(with(ts[..k + 1]))
  }

  lemma {:induction false} FoldEach<M, T>(c: Codec<M>, num: nat, ts: seq<T>, ds: seq<Bytes>, with: seq<T> -> M, k: nat)
    requires |ds| == |ts| && k <= |ts| && forall j :: 0 <= j < |ts| ==> Appends(c, num, ts, ds, with, j)
    ensures Fold(c, with(ts[..k]), Each(num, ds)[k..]) == Ok(with(ts))
    decreases |ts| - k
  {
    if k == |ts| {
      assert ts[..k] == ts;
    } else {
      assert Appends(c, num, ts, ds, with, k);
      var items := Each(num, ds)[k..];
      assert items[0] == Known(num, Data(ds[k])) && items[1..] == Each(num, ds)[k + 1..];
      FoldEach(c, num, ts, ds, with, k + 1);
    }
  }
}
