/** Stripping the whitespace between JSON tokens, byte by byte. */
module CompactJson {
  import opened Bytes

  const Space: byte := 32
  const Tab: byte := 9
  const Newline: byte := 10
  const Return: byte := 13
  const Quote: byte := 34
  const Backslash: byte := 92

  /** Between tokens, inside a string, or inside a string right after a backslash. */
  datatype Mode = Outside | Inside | Escaped

  predicate White(b: byte) {
    b == Space || b == Tab || b == Newline || b == Return
  }

  function Step(m: Mode, b: byte): Mode {
    match m
    case Outside => if b == Quote then Inside else Outside
    case Inside => if b == Backslash then Escaped else if b == Quote then Outside else Inside
    case Escaped => Inside
  }

  predicate Kept(m: Mode, b: byte) {
    m != Outside || !White(b)
  }

  function Compact(m: Mode, s: Bytes): Bytes
    decreases |s|
  {
    if s == [] then []
    else if Kept(m, s[0]) then [s[0]] + Compact(Step(m, s[0]), s[1..])
    else Compact(m, s[1..])
  }

  method CompactBytes(raw: Bytes) returns (out: Bytes)
    ensures out == Compact(Outside, raw)
  {
    out := [];
    var inString, escaped := false, false;
    for i := 0 to |raw|
      invariant escaped ==> inString
      invariant out + Compact(if escaped then Escaped else if inString then Inside else Outside, raw[i..]) == Compact(Outside, raw)
    {
      var b := raw[i];
      assert raw[i..][0] == b && raw[i..][1..] == raw[i + 1..];
      if inString {
        out := out + [b];
        if escaped {
          escaped := false;
        } else if b == Backslash {
          escaped := true;
        } else if b == Quote {
          inString := false;
        }
      } else if !White(b) {
        if b == Quote {
          inString := true;
        }
        out := out + [b];
      }
    }
  }

  lemma {:induction false} Idempotent(m: Mode, s: Bytes)
    ensures Compact(m, Compact(m, s)) == Compact(m, s)
    decreases |s|
  {
    if s != [] {
      if Kept(m, s[0]) {
        var rest := Compact(Step(m, s[0]), s[1..]);
        Idempotent(Step(m, s[0]), s[1..]);
        assert ([s[0]] + rest)[1..] == rest;
      } else {
        Idempotent(m, s[1..]);
      }
    }
  }

  // ---- string literals ----

  /** The contents of the string literals, `open` being what an unfinished one holds so far. */
  function Literals(m: Mode, open: Bytes, s: Bytes): seq<Bytes>
    decreases |s|
  {
    if s == [] then (if m == Outside then [] else [open])
    else
      var next := Step(m, s[0]);
      if m == Outside then Literals(next, [], s[1..])
      else if next == Outside then [open] + Literals(next, [], s[1..])
      else Literals(next, open + [s[0]], s[1..])
  }

  /** Compaction keeps every string literal byte for byte. */
  lemma {:induction false} LiteralsKept(m: Mode, open: Bytes, s: Bytes)
    requires m == Outside ==> open == []
    ensures Literals(m, open, Compact(m, s)) == Literals(m, open, s)
    decreases |s|
  {
    if s != [] {
      var next := Step(m, s[0]);
      if Kept(m, s[0]) {
        var c := Compact(m, s);
        assert c[0] == s[0] && c[1..] == Compact(next, s[1..]);
        LiteralsKept(next, if m == Outside || next == Outside then [] else open + [s[0]], s[1..]);
      } else {
        LiteralsKept(m, open, s[1..]);
      }
    }
  }

  // ---- differing only in whitespace between tokens ----

  /** The mode after these bytes. */
  function ModeAfter(m: Mode, s: Bytes): Mode
    decreases |s|
  {
    if s == [] then m else ModeAfter(Step(m, s[0]), s[1..])
  }

  /** `b` is `a` with one more white byte between tokens. */
  predicate OneMore(a: Bytes, b: Bytes, i: nat) {
    i <= |a| && |b| == |a| + 1 && White(b[i]) && ModeAfter(Outside, a[..i]) == Outside
    && a == b[..i] + b[i + 1..]
  }

  predicate Neighbours(a: Bytes, b: Bytes) {
    (exists i :: 0 <= i <= |a| && OneMore(a, b, i)) || (exists i :: 0 <= i <= |b| && OneMore(b, a, i))
  }

  /** A chain of texts, each differing from the next by one white byte between tokens. */
  predicate Chain(path: seq<Bytes>) {
    forall k :: 0 <= k < |path| - 1 ==> Neighbours(path[k], path[k + 1])
  }

  ghost predicate SameButSpace(a: Bytes, b: Bytes) {
    exists path: seq<Bytes> :: Linked(path, a, b)
  }

  predicate Linked(path: seq<Bytes>, a: Bytes, b: Bytes) {
    |path| >= 1 && path[0] == a && path[|path| - 1] == b && Chain(path)
  }

  lemma {:induction false} CompactSplit(m: Mode, a: Bytes, b: Bytes)
    ensures Compact(m, a + b) == Compact(m, a) + Compact(ModeAfter(m, a), b)
    decreases |a|
  {
    if a == [] {
      assert a + b == b;
    } else {
      assert (a + b)[0] == a[0] && (a + b)[1..] == a[1..] + b;
      CompactSplit(Step(m, a[0]), a[1..], b);
    }
  }

  lemma OneMoreCompact(a: Bytes, b: Bytes, i: nat)
    requires OneMore(a, b, i)
    ensures Compact(Outside, a) == Compact(Outside, b)
  {
    var l, r := b[..i], b[i + 1..];
    assert a[..i] == l;
    assert b == l + ([b[i]] + r);
    CompactSplit(Outside, l, r);
    CompactSplit(Outside, l, [b[i]] + r);
    assert ([b[i]] + r)[1..] == r;
  }

  lemma {:induction false} ChainCompact(path: seq<Bytes>, a: Bytes, b: Bytes)
    requires Linked(path, a, b)
    ensures Compact(Outside, a) == Compact(Outside, b)
    decreases |path|
  {
    if |path| > 1 {
      assert Neighbours(path[0], path[1]);
      if i :| 0 <= i <= |a| && OneMore(a, path[1], i) {
        OneMoreCompact(a, path[1], i);
      } else {
        var i :| 0 <= i <= |path[1]| && OneMore(path[1], a, i);
        OneMoreCompact(path[1], a, i);
      }
      var rest := path[1..];
      forall k | 0 <= k < |rest| - 1 ensures Neighbours(rest[k], rest[k + 1]) {
        assert rest[k] == path[k + 1] && rest[k + 1] == path[k + 2];
      }
      ChainCompact(rest, path[1], b);
    }
  }

  lemma {:induction false} ModeSplit(m: Mode, a: Bytes, b: Bytes)
    ensures ModeAfter(m, a + b) == ModeAfter(ModeAfter(m, a), b)
    decreases |a|
  {
    if a == [] {
      assert a + b == b;
    } else {
      assert (a + b)[1..] == a[1..] + b;
      ModeSplit(Step(m, a[0]), a[1..], b);
    }
  }

  /** Compacting removes white bytes between tokens one at a time. */
  lemma {:induction false} ChainToCompact(done: Bytes, m: Mode, s: Bytes) returns (path: seq<Bytes>)
    requires m == ModeAfter(Outside, done)
    ensures Linked(path, done + s, done + Compact(m, s))
    decreases |s|
  {
    if s == [] {
      path := [done + s];
    } else if Kept(m, s[0]) {
      ModeSplit(Outside, done, [s[0]]);
      assert [s[0]][1..] == [];
      path := ChainToCompact(done + [s[0]], Step(m, s[0]), s[1..]);
      assert (done + [s[0]]) + s[1..] == done + s;
      assert (done + [s[0]]) + Compact(Step(m, s[0]), s[1..]) == done + Compact(m, s);
    } else {
      var tail := ChainToCompact(done, m, s[1..]);
      path := [done + s] + tail;
      RemovedOne(done, s);
      forall k | 0 <= k < |path| - 1 ensures Neighbours(path[k], path[k + 1]) {
        assert path[k + 1] == tail[k];
        if k > 0 {
          assert path[k] == tail[k - 1];
        }
      }
    }
  }

  lemma RemovedOne(done: Bytes, s: Bytes)
    requires s != [] && White(s[0]) && ModeAfter(Outside, done) == Outside
    ensures Neighbours(done + s, done + s[1..])
  {
    var a, b, i := done + s[1..], done + s, |done|;
    assert a[..i] == done;
    assert a == b[..i] + b[i + 1..];
    assert OneMore(a, b, i);
  }

  lemma ChainJoin(p: seq<Bytes>, q: seq<Bytes>, a: Bytes, c: Bytes, b: Bytes) returns (path: seq<Bytes>)
    requires Linked(p, a, c) && Linked(q, b, c)
    ensures Linked(path, a, b)
  {
    var r := Reversed(q);
    path := p + r[1..];
    forall k | 0 <= k < |path| - 1 ensures Neighbours(path[k], path[k + 1]) {
      if k + 1 < |p| {
        assert Neighbours(p[k], p[k + 1]);
      } else {
        var j := k + 1 - |p|;
        assert path[k + 1] == r[j + 1] && path[k] == r[j];
        assert r[j] == q[|q| - 1 - j] && r[j + 1] == q[|q| - 2 - j];
        assert Neighbours(q[|q| - 2 - j], q[|q| - 1 - j]);
      }
    }
  }

  function Reversed(q: seq<Bytes>): (r: seq<Bytes>)
    ensures |r| == |q| && forall k :: 0 <= k < |q| ==> r[k] == q[|q| - 1 - k]
  {
    seq(|q|, k requires 0 <= k < |q| => q[|q| - 1 - k])
  }

  /** Two texts compact to the same bytes if and only if one becomes the other by adding and
      removing white bytes between tokens. */
  lemma SameCompactIff(a: Bytes, b: Bytes)
    ensures Compact(Outside, a) == Compact(Outside, b) <==> SameButSpace(a, b)
  {
    if Compact(Outside, a) == Compact(Outside, b) {
      var p := ChainToCompact([], Outside, a);
      var q := ChainToCompact([], Outside, b);
      assert [] + a == a && [] + b == b;
      var c := Compact(Outside, a);
      assert [] + c == c;
      var path := ChainJoin(p, q, a, c, b);
    }
    if SameButSpace(a, b) {
      var path :| Linked(path, a, b);
      ChainCompact(path, a, b);
    }
  }

  // ---- the text as tokens ----

  /** A byte of a string, or a backslash and the byte it escapes. */
  datatype Unit = Plain(b: byte) | Escape(b: byte)

  /** A text cut up: blanks, other bytes outside strings, and strings. */
  datatype Piece = Blank(b: byte) | Other(b: byte) | Str(units: seq<Unit>)

  function UnitBytes(units: seq<Unit>): Bytes {
    if units == [] then []
    else (match units[0] case Plain(b) => [b] case Escape(b) => [92, b]) + UnitBytes(units[1..])
  }

  function PieceBytes(p: Piece): Bytes {
    match p
    case Blank(b) => [b]
    case Other(b) => [b]
    case Str(units) => [34] + UnitBytes(units) + [34]
  }

  function TextOf(ps: seq<Piece>): Bytes {
    if ps == [] then [] else PieceBytes(ps[0]) + TextOf(ps[1..])
  }

  predicate GoodPiece(p: Piece) {
    match p
    case Blank(b) => b == 9 || b == 10 || b == 13 || b == 32
    case Other(b) => b != 9 && b != 10 && b != 13 && b != 32 && b != 34
    case Str(units) => forall k :: 0 <= k < |units| && units[k].Plain? ==> units[k].b != 34 && units[k].b != 92
  }

  function WithoutBlanks(ps: seq<Piece>): seq<Piece> {
    if ps == [] then []
    else if ps[0].Blank? then WithoutBlanks(ps[1..])
    else [ps[0]] + WithoutBlanks(ps[1..])
  }

  lemma {:induction false} StringKept(units: seq<Unit>, rest: Bytes)
    requires GoodPiece(Str(units))
    ensures Compact(Inside, UnitBytes(units) + ([34] + rest)) == UnitBytes(units) + ([34] + Compact(Outside, rest))
    decreases |units|
  {
    if units == [] {
      assert ([34] + rest)[1..] == rest;
      assert UnitBytes(units) + ([34] + rest) == [34] + rest;
    } else {
      var more := UnitBytes(units[1..]) + ([34] + rest);
      StringKept(units[1..], rest);
      var head: Bytes := match units[0] case Plain(b) => [b] case Escape(b) => [92, b];
      assert UnitBytes(units) + ([34] + rest) == head + more;
      UnitKept(units[0], head, more);
      assert UnitBytes(units) + ([34] + Compact(Outside, rest)) == head + (UnitBytes(units[1..]) + ([34] + Compact(Outside, rest)));
    }
  }

  lemma UnitKept(u: Unit, head: Bytes, more: Bytes)
    requires u.Plain? ==> u.b != 34 && u.b != 92 && head == [u.b]
    requires u.Escape? ==> head == [92, u.b]
    ensures Compact(Inside, head + more) == head + Compact(Inside, more)
  {
    var s := head + more;
    if u.Plain? {
      assert s[0] == u.b && s[1..] == more;
    } else {
      assert s[0] == 92 && s[1] == u.b && s[1..] == [u.b] + more && s[1..][1..] == more;
      assert Compact(Inside, s) == [92] + Compact(Escaped, s[1..]);
      assert Compact(Escaped, s[1..]) == [u.b] + Compact(Inside, more);
    }
  }

  lemma QuotedKept(units: seq<Unit>, rest: Bytes)
    requires GoodPiece(Str(units))
    ensures Compact(Outside, PieceBytes(Str(units)) + rest) == PieceBytes(Str(units)) + Compact(Outside, rest)
  {
    var body := UnitBytes(units);
    var s := ([34] + body + [34]) + rest;
    StringKept(units, rest);
    assert s == [34] + (body + ([34] + rest));
    assert s[0] == 34 && s[1..] == body + ([34] + rest);
    assert Compact(Outside, s) == [34] + Compact(Inside, s[1..]);
    var c := Compact(Outside, rest);
    assert ([34] + body + [34]) + c == [34] + (body + ([34] + c));
  }

  lemma PieceKept(p: Piece, rest: Bytes)
    requires GoodPiece(p)
    ensures Compact(Outside, PieceBytes(p) + rest) == (if p.Blank? then [] else PieceBytes(p)) + Compact(Outside, rest)
  {
    if p.Str? {
      QuotedKept(p.units, rest);
    } else {
      assert ([p.b] + rest)[1..] == rest;
    }
  }

  /** Compacting a text leaves out exactly its blanks: tabs, line feeds, carriage returns and spaces outside
      strings, a string running to the first quote that no backslash escapes. */
  lemma {:induction false} CompactDropsBlanks(ps: seq<Piece>)
    requires forall k :: 0 <= k < |ps| ==> GoodPiece(ps[k])
    ensures Compact(Outside, TextOf(ps)) == TextOf(WithoutBlanks(ps))
    decreases |ps|
  {
    if ps != [] {
      PieceKept(ps[0], TextOf(ps[1..]));
      CompactDropsBlanks(ps[1..]);
      if !ps[0].Blank? {
        assert WithoutBlanks(ps)[1..] == WithoutBlanks(ps[1..]);
      }
    }
  }
}
