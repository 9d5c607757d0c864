/** Arithmetic modulo a prime and Lagrange interpolation (section 4.2 of RFC 9591).
    Scalars are integers; equality of scalars is congruence. */
module Scalars {

  ghost predicate Prime(p: int) {
    p >= 2 && forall d :: 2 <= d < p ==> p % d != 0
  }

  ghost predicate Cong(p: int, a: int, b: int) {
    exists k: int :: Multiple(p, k, a, b)
  }

  ghost predicate Multiple(p: int, k: int, a: int, b: int) {
    a - b == k * p
  }

  lemma CongIs(p: int, k: int, a: int, b: int)
    requires a - b == k * p
    ensures Cong(p, a, b)
  {
    assert Multiple(p, k, a, b);
  }

  lemma CongRefl(p: int, a: int)
    ensures Cong(p, a, a)
  {
    CongIs(p, 0, a, a);
  }

  lemma CongSym(p: int, a: int, b: int)
    requires Cong(p, a, b)
    ensures Cong(p, b, a)
  {
    var k :| Multiple(p, k, a, b);
    CongIs(p, -k, b, a);
  }

  lemma CongTrans(p: int, a: int, b: int, c: int)
    requires Cong(p, a, b) && Cong(p, b, c)
    ensures Cong(p, a, c)
  {
    var k :| Multiple(p, k, a, b);
    var m :| Multiple(p, m, b, c);
    assert (k + m) * p == k * p + m * p;
    CongIs(p, k + m, a, c);
  }

  lemma CongAdd(p: int, a: int, b: int, c: int, d: int)
    requires Cong(p, a, b) && Cong(p, c, d)
    ensures Cong(p, a + c, b + d)
  {
    var k :| Multiple(p, k, a, b);
    var m :| Multiple(p, m, c, d);
    assert (k + m) * p == k * p + m * p;
    CongIs(p, k + m, a + c, b + d);
  }

  lemma CongMul(p: int, a: int, b: int, c: int, d: int)
    requires Cong(p, a, b) && Cong(p, c, d)
    ensures Cong(p, a * c, b * d)
  {
    var k :| Multiple(p, k, a, b);
    var m :| Multiple(p, m, c, d);
    calc {
      a * c - b * d;
      (a - b) * c + b * (c - d);
      (k * p) * c + b * (m * p);
      (k * c + b * m) * p;
    }
    CongIs(p, k * c + b * m, a * c, b * d);
  }

  lemma CongMulLeft(p: int, a: int, c: int, d: int)
    requires Cong(p, c, d)
    ensures Cong(p, a * c, a * d)
  {
    CongRefl(p, a);
    CongMul(p, a, a, c, d);
  }

  lemma CongMod(p: int, a: int)
    requires p > 0
    ensures Cong(p, a, a % p) && Cong(p, a % p, a)
  {
    assert a == (a / p) * p + a % p;
    CongIs(p, a / p, a, a % p);
    CongSym(p, a, a % p);
  }

  /** Congruent canonical scalars are equal. */
  lemma CongCanonical(p: int, a: int, b: int)
    requires Cong(p, a, b) && 0 <= a < p && 0 <= b < p
    ensures a == b
  {
    var k :| Multiple(p, k, a, b);
    MultipleIsFar(p, k);
  }

  lemma MultipleIsFar(p: int, k: int)
    requires p > 0
    ensures k >= 1 ==> k * p >= p
    ensures k <= -1 ==> k * p <= -p
  {
  }

  // ---- inverses ----

  /** The inverse of `a` modulo the prime `p`, by Euclid's division. */
  function InvUnit(p: int, a: int): int
    requires 0 < a
    decreases a
  {
    if a == 1 || p % a == 0 then 1 else -(p / a) * InvUnit(p, p % a)
  }

  lemma {:induction false} InvUnitInverts(p: int, a: int)
    requires Prime(p) && 0 < a < p
    ensures Cong(p, a * InvUnit(p, a), 1)
    decreases a
  {
    if a == 1 {
      CongRefl(p, 1);
    } else {
      var q, r := p / a, p % a;
      assert p == q * a + r && r != 0;
      InvUnitInverts(p, r);
      var v := InvUnit(p, r);
      var k :| Multiple(p, k, r * v, 1);
      calc {
        a * (-q * v) - 1;
        -(q * a) * v - 1;
        -(p - r) * v - 1;
        -(p * v) + r * v - 1;
        k * p - v * p;
        (k - v) * p;
      }
      CongIs(p, k - v, a * InvUnit(p, a), 1);
    }
  }

  predicate NonZero(p: int, a: int)
    requires p > 0
  {
    a % p != 0
  }

  function Inv(p: int, a: int): int
    requires p > 0 && NonZero(p, a)
  {
    InvUnit(p, a % p)
  }

  lemma InvInverts(p: int, a: int)
    requires Prime(p) && NonZero(p, a)
    ensures Cong(p, a * Inv(p, a), 1)
  {
    InvUnitInverts(p, a % p);
    CongMod(p, a);
    CongRefl(p, Inv(p, a));
    CongMul(p, a, a % p, Inv(p, a), Inv(p, a));
    CongTrans(p, a * Inv(p, a), (a % p) * Inv(p, a), 1);
  }

  /** A non-zero factor cancels. */
  lemma Cancel(p: int, a: int, x: int, y: int)
    requires Prime(p) && NonZero(p, a) && Cong(p, a * x, a * y)
    ensures Cong(p, x, y)
  {
    var v := Inv(p, a);
    InvInverts(p, a);
    CongMulLeft(p, v, a * x, a * y);
    assert v * (a * x) == (a * v) * x && v * (a * y) == (a * v) * y;
    Unit(p, a * v, x);
    Unit(p, a * v, y);
    CongSym(p, (a * v) * x, x);
    CongTrans(p, x, (a * v) * x, (a * v) * y);
    CongTrans(p, x, (a * v) * y, y);
  }

  lemma Unit(p: int, u: int, x: int)
    requires Cong(p, u, 1)
    ensures Cong(p, u * x, x)
  {
    CongRefl(p, x);
    CongMul(p, u, 1, x, x);
    assert 1 * x == x;
  }

  // ---- polynomials ----

  /** Value of the polynomial with these coefficients, constant term first. */
  function Eval(f: seq<int>, x: int): int {
    if f == [] then 0 else f[0] + x * Eval(f[1..], x)
  }

  /** The quotient of `f(x) - f(c)` by `x - c`. */
  function Quotient(f: seq<int>, c: int): (h: seq<int>)
    ensures |h| == if f == [] then 0 else |f| - 1
  {
    if |f| <= 1 then [] else [Eval(f[1..], c)] + Quotient(f[1..], c)
  }

  lemma DivideStep(x: int, c: int, gx: int, gc: int, q: int)
    requires gx == gc + (x - c) * q
    ensures x * gx - c * gc == (x - c) * (gc + x * q)
  {
    calc {
      x * gx - c * gc;
      x * gc + x * ((x - c) * q) - c * gc;
      (x - c) * gc + (x - c) * (x * q);
    }
  }

  lemma {:induction false} QuotientDivides(f: seq<int>, c: int, x: int)
    ensures Eval(f, x) == Eval(f, c) + (x - c) * Eval(Quotient(f, c), x)
  {
    if |f| > 1 {
      var g := f[1..];
      QuotientDivides(g, c, x);
      var q := Eval(Quotient(g, c), x);
      assert Quotient(f, c)[1..] == Quotient(g, c);
      DivideStep(x, c, Eval(g, x), Eval(g, c), q);
    } else if |f| == 1 {
      assert f[1..] == [];
    }
  }

  // ---- interpolation ----

  predicate Apart(p: int, xs: seq<int>)
    requires p > 0
  {
    forall i, j :: 0 <= i < |xs| && 0 <= j < |xs| && i != j ==> NonZero(p, xs[i] - xs[j])
  }

  /** `x` differs from every one of `others`. */
  predicate Off(p: int, x: int, others: seq<int>)
    requires p > 0
  {
    forall j :: 0 <= j < |others| ==> NonZero(p, x - others[j])
  }

  function Remove(xs: seq<int>, i: nat): seq<int>
    requires i < |xs|
  {
    xs[..i] + xs[i + 1..]
  }

  /** The Lagrange basis value at `z` of the point `x` among `others`. */
  function Weight(p: int, others: seq<int>, x: int, z: int): int
    requires p > 0 && Off(p, x, others)
  {
    if others == [] then 1
    else (z - others[0]) * Inv(p, x - others[0]) * Weight(p, others[1..], x, z)
  }

  /** The sum, over the points from `i` on, of value times basis value at `z`. */
  function Lag(p: int, xs: seq<int>, vs: seq<int>, z: int, i: nat): int
    requires p > 0 && Apart(p, xs) && |vs| == |xs| && i <= |xs|
    decreases |xs| - i
  {
    if i == |xs| then 0
    else vs[i] * Weight(p, Remove(xs, i), xs[i], z) + Lag(p, xs, vs, z, i + 1)
  }

  lemma LinearStep(a: int, b: int, u: int, v: int, w: int, s: int, t: int)
    ensures (a * u + b * v) * w + (a * s + b * t) == a * (u * w + s) + b * (v * w + t)
  {
    calc {
      (a * u + b * v) * w;
      (a * u) * w + (b * v) * w;
      a * (u * w) + b * (v * w);
    }
  }

  lemma Commute(u: int, v: int, w: int)
    ensures u * (v * w) == v * (u * w)
  {
  }

  lemma DropStep(d: int, h: int, e: int, v: int, w: int)
    ensures (d * h) * (e * v * w) == (d * v) * (e * (h * w))
  {
    calc {
      (d * h) * (e * v * w);
      d * (h * (e * v * w));
      d * (v * (e * (h * w)));
    }
  }

  /** `a * us + b * vs`, point by point. */
  function Combine(a: int, us: seq<int>, b: int, vs: seq<int>): (s: seq<int>)
    requires |us| == |vs|
    ensures |s| == |us|
  {
    seq(|us|, j requires 0 <= j < |us| => a * us[j] + b * vs[j])
  }

  /** Interpolation is linear in the values. */
  lemma {:induction false} LagLinear(p: int, xs: seq<int>, us: seq<int>, vs: seq<int>, a: int, b: int, z: int, i: nat)
    requires p > 0 && Apart(p, xs) && |us| == |vs| == |xs| && i <= |xs|
    ensures Lag(p, xs, Combine(a, us, b, vs), z, i) == a * Lag(p, xs, us, z, i) + b * Lag(p, xs, vs, z, i)
    decreases |xs| - i
  {
    if i < |xs| {
      LagLinear(p, xs, us, vs, a, b, z, i + 1);
      LinearStep(a, b, us[i], vs[i], Weight(p, Remove(xs, i), xs[i], z),
                 Lag(p, xs, us, z, i + 1), Lag(p, xs, vs, z, i + 1));
    }
  }

  lemma ApartTail(p: int, c: int, xs: seq<int>)
    requires p > 0 && Apart(p, [c] + xs)
    ensures Apart(p, xs) && forall j :: 0 <= j < |xs| ==> NonZero(p, xs[j] - c) && NonZero(p, c - xs[j])
  {
    var all := [c] + xs;
    forall j, k | 0 <= j < |xs| && 0 <= k < |xs| && j != k ensures NonZero(p, xs[j] - xs[k]) {
      assert all[j + 1] == xs[j] && all[k + 1] == xs[k];
    }
    forall j | 0 <= j < |xs| ensures NonZero(p, xs[j] - c) && NonZero(p, c - xs[j]) {
      assert all[j + 1] == xs[j] && all[0] == c;
    }
  }

  lemma OffRemoved(p: int, xs: seq<int>, i: nat)
    requires p > 0 && Apart(p, xs) && i < |xs|
    ensures Off(p, xs[i], Remove(xs, i))
  {
  }

  /** One term of `LagDrop`. */
  lemma DropTerm(p: int, c: int, xs: seq<int>, h: int, z: int, i: nat)
    requires Prime(p) && Apart(p, [c] + xs) && Apart(p, xs) && i < |xs|
    ensures Off(p, xs[i], Remove([c] + xs, i + 1)) && Off(p, xs[i], Remove(xs, i))
    ensures Cong(p, ((xs[i] - c) * h) * Weight(p, Remove([c] + xs, i + 1), xs[i], z),
                    (z - c) * (h * Weight(p, Remove(xs, i), xs[i], z)))
  {
    ApartTail(p, c, xs);
    OffRemoved(p, xs, i);
    OffRemoved(p, [c] + xs, i + 1);
    var others, x := Remove(xs, i), xs[i];
    assert Remove([c] + xs, i + 1) == [c] + others;
    assert ([c] + others)[1..] == others;
    var w, v := Weight(p, others, x, z), Inv(p, x - c);
    DropStep(x - c, h, z - c, v, w);
    InvInverts(p, x - c);
    Unit(p, (x - c) * v, (z - c) * (h * w));
  }

  function Ones(n: nat): (s: seq<int>)
    ensures |s| == n && forall j :: 0 <= j < n ==> s[j] == 1
  {
    seq(n, _ => 1)
  }

  /** The distances of the points to `c`. */
  function Distances(xs: seq<int>, c: int): (s: seq<int>)
    ensures |s| == |xs| && forall j :: 0 <= j < |xs| ==> s[j] == xs[j] - c
  {
    seq(|xs|, j requires 0 <= j < |xs| => xs[j] - c)
  }

  function Products(us: seq<int>, vs: seq<int>): (s: seq<int>)
    requires |us| == |vs|
    ensures |s| == |us|
  {
    seq(|us|, j requires 0 <= j < |us| => us[j] * vs[j])
  }

  /** Dropping the first point divides the values by their distance to it. */
  lemma {:induction false} LagDrop(p: int, c: int, xs: seq<int>, vs: seq<int>, hs: seq<int>, z: int, i: nat)
    requires Prime(p) && Apart(p, [c] + xs) && Apart(p, xs) && |hs| == |xs| && |vs| == |xs| + 1 && i <= |xs|
    requires vs[1..] == Products(Distances(xs, c), hs)
    ensures Cong(p, Lag(p, [c] + xs, vs, z, i + 1), (z - c) * Lag(p, xs, hs, z, i))
    decreases |xs| - i
  {
    if i == |xs| {
      CongRefl(p, 0);
    } else {
      LagDrop(p, c, xs, vs, hs, z, i + 1);
      DropTerm(p, c, xs, hs[i], z, i);
      assert vs[i + 1] == vs[1..][i] == (xs[i] - c) * hs[i];
      var w := Weight(p, Remove(xs, i), xs[i], z);
      assert ([c] + xs)[i + 1] == xs[i];
      var term := vs[i + 1] * Weight(p, Remove([c] + xs, i + 1), xs[i], z);
      CongAdd(p, term, (z - c) * (hs[i] * w), Lag(p, [c] + xs, vs, z, i + 2), (z - c) * Lag(p, xs, hs, z, i + 1));
      Distribute(z - c, hs[i] * w, Lag(p, xs, hs, z, i + 1));
    }
  }

  lemma Distribute(a: int, b: int, c: int)
    ensures a * b + a * c == a * (b + c)
  {
  }

  /** The order of the first two points does not matter. */
  lemma SwapTerm(p: int, a: int, b: int, xs: seq<int>, z: int, i: nat)
    requires p > 0 && Apart(p, [a, b] + xs) && Apart(p, [b, a] + xs) && i < |xs|
    ensures Off(p, xs[i], Remove([a, b] + xs, i + 2)) && Off(p, xs[i], Remove([b, a] + xs, i + 2))
    ensures Weight(p, Remove([a, b] + xs, i + 2), xs[i], z) == Weight(p, Remove([b, a] + xs, i + 2), xs[i], z)
  {
    var x := xs[i];
    OffRemoved(p, [a, b] + xs, i + 2);
    OffRemoved(p, [b, a] + xs, i + 2);
    assert ([a, b] + xs)[i + 2] == x && ([b, a] + xs)[i + 2] == x;
    var others := Remove(xs, i);
    assert Remove([a, b] + xs, i + 2) == [a, b] + others;
    assert Remove([b, a] + xs, i + 2) == [b, a] + others;
    WeightTwo(p, a, b, others, x, z);
    WeightTwo(p, b, a, others, x, z);
    var u, v, w := (z - a) * Inv(p, x - a), (z - b) * Inv(p, x - b), Weight(p, others, x, z);
    Commute(u, v, w);
  }

  lemma WeightTwo(p: int, a: int, b: int, others: seq<int>, x: int, z: int)
    requires p > 0 && Off(p, x, [a, b] + others)
    ensures NonZero(p, x - a) && NonZero(p, x - b) && Off(p, x, others)
    ensures Weight(p, [a, b] + others, x, z) ==
      (z - a) * Inv(p, x - a) * ((z - b) * Inv(p, x - b) * Weight(p, others, x, z))
  {
    var all := [a, b] + others;
    assert all[0] == a && all[1] == b;
    forall j | 0 <= j < |others| ensures NonZero(p, x - others[j]) {
      assert all[j + 2] == others[j];
    }
    assert all[1..] == [b] + others && ([b] + others)[1..] == others;
  }

  lemma {:induction false} LagSwapTail(p: int, a: int, b: int, xs: seq<int>, us: seq<int>, vs: seq<int>, z: int, i: nat)
    requires p > 0 && Apart(p, [a, b] + xs) && Apart(p, [b, a] + xs) && |us| == |vs| == |xs| + 2 && i <= |xs|
    requires us[2..] == vs[2..]
    ensures Lag(p, [a, b] + xs, us, z, i + 2) == Lag(p, [b, a] + xs, vs, z, i + 2)
    decreases |xs| - i
  {
    if i < |xs| {
      LagSwapTail(p, a, b, xs, us, vs, z, i + 1);
      SwapTerm(p, a, b, xs, z, i);
      assert us[i + 2] == us[2..][i] && vs[i + 2] == vs[2..][i];
      assert ([a, b] + xs)[i + 2] == xs[i] == ([b, a] + xs)[i + 2];
    }
  }

  lemma LagSwap(p: int, a: int, b: int, xs: seq<int>, us: seq<int>, vs: seq<int>, z: int)
    requires p > 0 && Apart(p, [a, b] + xs) && Apart(p, [b, a] + xs) && |us| == |vs| == |xs| + 2
    requires us[0] == vs[1] && us[1] == vs[0] && us[2..] == vs[2..]
    ensures Lag(p, [a, b] + xs, us, z, 0) == Lag(p, [b, a] + xs, vs, z, 0)
  {
    LagSwapTail(p, a, b, xs, us, vs, z, 0);
    var l, r := [a, b] + xs, [b, a] + xs;
    assert Remove(l, 0) == [b] + xs == Remove(r, 1);
    assert Remove(l, 1) == [a] + xs == Remove(r, 0);
    assert l[0] == a && l[1] == b && r[0] == b && r[1] == a;
    LagTwo(p, l, us, z);
    LagTwo(p, r, vs, z);
  }

  lemma LagTwo(p: int, xs: seq<int>, vs: seq<int>, z: int)
    requires p > 0 && Apart(p, xs) && |vs| == |xs| >= 2
    ensures Lag(p, xs, vs, z, 0) ==
      vs[0] * Weight(p, Remove(xs, 0), xs[0], z) + (vs[1] * Weight(p, Remove(xs, 1), xs[1], z) + Lag(p, xs, vs, z, 2))
  {
  }

  lemma ApartSwap(p: int, a: int, b: int, xs: seq<int>)
    requires p > 0 && Apart(p, [a, b] + xs)
    ensures Apart(p, [b, a] + xs) && Apart(p, [a] + xs) && Apart(p, [b] + xs) && NonZero(p, b - a)
  {
    var all := [a, b] + xs;
    assert all == [a] + ([b] + xs);
    ApartTail(p, a, [b] + xs);
    assert all[0] == a && all[1] == b;
    var r := [b, a] + xs;
    forall i, j | 0 <= i < |r| && 0 <= j < |r| && i != j ensures NonZero(p, r[i] - r[j]) {
      var i', j' := if i < 2 then 1 - i else i, if j < 2 then 1 - j else j;
      assert all[i'] == r[i] && all[j'] == r[j];
    }
    assert r == [b] + ([a] + xs);
    ApartTail(p, b, [a] + xs);
  }

  lemma LagOneBase(p: int, x: int, z: int)
    requires p > 0 && Apart(p, [x])
    ensures Lag(p, [x], Ones(1), z, 0) == 1
  {
    var ones := Ones(1);
    assert Remove([x], 0) == [];
    assert ones[0] == 1;
    assert Weight(p, [], x, z) == 1;
  }

  /** The Lagrange basis sums to one. */
  lemma {:induction false} LagOne(p: int, xs: seq<int>, n: nat, z: int)
    requires Prime(p) && Apart(p, xs) && |xs| == n > 0
    ensures Cong(p, Lag(p, xs, Ones(n), z, 0), 1)
    decreases n, 1
  {
    if n == 1 {
      assert xs == [xs[0]];
      LagOneBase(p, xs[0], z);
      CongRefl(p, 1);
    } else {
      var a, b, ys := xs[0], xs[1], xs[2..];
      assert xs == [a, b] + ys;
      LagOneTwo(p, a, b, ys, z);
    }
  }

  lemma {:induction false} LagOneTwo(p: int, a: int, b: int, ys: seq<int>, z: int)
    requires Prime(p) && Apart(p, [a, b] + ys)
    ensures Cong(p, Lag(p, [a, b] + ys, Ones(|ys| + 2), z, 0), 1)
    decreases |ys| + 2, 0
  {
    ApartSwap(p, a, b, ys);
    LagOne(p, [a] + ys, |ys| + 1, z);
    LagOne(p, [b] + ys, |ys| + 1, z);
    LagOneStep(p, a, b, ys, z);
  }

  /** `(x - a) - (x - b) = b - a` at every point. */
  lemma TwoDistances(p: int, xs: seq<int>, a: int, b: int, z: int)
    requires p > 0 && Apart(p, xs)
    ensures (b - a) * Lag(p, xs, Ones(|xs|), z, 0)
      == Lag(p, xs, Distances(xs, a), z, 0) - Lag(p, xs, Distances(xs, b), z, 0)
  {
    var da, db, ones := Distances(xs, a), Distances(xs, b), Ones(|xs|);
    LagLinear(p, xs, da, db, 1, -1, z, 0);
    LagLinear(p, xs, ones, ones, b - a, 0, z, 0);
    var l, r := Combine(1, da, -1, db), Combine(b - a, ones, 0, ones);
    forall j | 0 <= j < |xs| ensures l[j] == r[j] {
      assert ones[j] == 1;
      assert r[j] == (b - a) * 1 + 0 * 1;
    }
    assert l == r;
  }

  lemma LagOneStep(p: int, a: int, b: int, ys: seq<int>, z: int)
    requires Prime(p) && Apart(p, [a, b] + ys) && Apart(p, [b, a] + ys) && Apart(p, [a] + ys) && Apart(p, [b] + ys)
    requires NonZero(p, b - a)
    requires Cong(p, Lag(p, [a] + ys, Ones(|ys| + 1), z, 0), 1) && Cong(p, Lag(p, [b] + ys, Ones(|ys| + 1), z, 0), 1)
    ensures Cong(p, Lag(p, [a, b] + ys, Ones(|ys| + 2), z, 0), 1)
  {
    var xs := [a, b] + ys;
    var one := Lag(p, xs, Ones(|xs|), z, 0);
    var la, lb := Lag(p, xs, Distances(xs, a), z, 0), Lag(p, xs, Distances(xs, b), z, 0);
    TwoDistances(p, xs, a, b, z);
    assert [a] + ([b] + ys) == xs;
    DistanceFirst(p, a, [b] + ys, z);
    DistanceSecond(p, a, b, ys, z);
    ScaledOne(p, z - a, la, Lag(p, [b] + ys, Ones(|ys| + 1), z, 0));
    ScaledOne(p, z - b, lb, Lag(p, [a] + ys, Ones(|ys| + 1), z, 0));
    OneStep(p, a, b, z, one, la, lb);
  }

  lemma OneStep(p: int, a: int, b: int, z: int, one: int, la: int, lb: int)
    requires Prime(p) && NonZero(p, b - a) && (b - a) * one == la - lb
    requires Cong(p, la, z - a) && Cong(p, lb, z - b)
    ensures Cong(p, one, 1)
  {
    CongMulLeft(p, -1, lb, z - b);
    CongAdd(p, la, z - a, -1 * lb, -1 * (z - b));
    assert (z - a) + -1 * (z - b) == (b - a) * 1;
    Cancel(p, b - a, one, 1);
  }

  /** A multiple of something congruent to one. */
  lemma ScaledOne(p: int, d: int, l: int, one: int)
    requires Cong(p, l, d * one) && Cong(p, one, 1)
    ensures Cong(p, l, d)
  {
    CongMulLeft(p, d, one, 1);
    CongTrans(p, l, d * one, d * 1);
  }

  lemma DistanceFirst(p: int, c: int, xs: seq<int>, z: int)
    requires Prime(p) && Apart(p, [c] + xs) && Apart(p, xs)
    ensures Cong(p, Lag(p, [c] + xs, Distances([c] + xs, c), z, 0), (z - c) * Lag(p, xs, Ones(|xs|), z, 0))
  {
    var vs, hs := Distances([c] + xs, c), Ones(|xs|);
    var want := Products(Distances(xs, c), hs);
    forall j | 0 <= j < |xs| ensures vs[1..][j] == want[j] {
      assert ([c] + xs)[j + 1] == xs[j];
      assert hs[j] == 1;
      assert want[j] == (xs[j] - c) * 1;
    }
    assert vs[1..] == want;
    LagDrop(p, c, xs, vs, hs, z, 0);
    assert vs[0] == 0;
    LagFirstZero(p, [c] + xs, vs, z);
  }

  lemma LagFirstZero(p: int, xs: seq<int>, vs: seq<int>, z: int)
    requires p > 0 && Apart(p, xs) && |vs| == |xs| >= 1 && vs[0] == 0
    ensures Lag(p, xs, vs, z, 0) == Lag(p, xs, vs, z, 1)
  {
    assert 0 * Weight(p, Remove(xs, 0), xs[0], z) == 0;
  }

  lemma DistanceSecond(p: int, a: int, b: int, ys: seq<int>, z: int)
    requires Prime(p) && Apart(p, [a, b] + ys) && Apart(p, [b, a] + ys) && Apart(p, [a] + ys)
    ensures Cong(p, Lag(p, [a, b] + ys, Distances([a, b] + ys, b), z, 0), (z - b) * Lag(p, [a] + ys, Ones(|ys| + 1), z, 0))
  {
    var us, vs := Distances([a, b] + ys, b), Distances([b, a] + ys, b);
    forall j | 2 <= j < |us| ensures us[j] == vs[j] {
      assert ([a, b] + ys)[j] == ([b, a] + ys)[j];
    }
    assert us[2..] == vs[2..];
    LagSwap(p, a, b, ys, us, vs, z);
    assert [b] + ([a] + ys) == [b, a] + ys;
    DistanceFirst(p, b, [a] + ys, z);
  }

  /** The values of `f` at the points. */
  function Values(f: seq<int>, xs: seq<int>): (s: seq<int>)
    ensures |s| == |xs| && forall j :: 0 <= j < |xs| ==> s[j] == Eval(f, xs[j])
  {
    seq(|xs|, j requires 0 <= j < |xs| => Eval(f, xs[j]))
  }

  /** Lagrange interpolation: at least as many points as coefficients determine the
      value of the polynomial anywhere. */
  lemma {:induction false} Interpolation(p: int, xs: seq<int>, f: seq<int>, z: int)
    requires Prime(p) && Apart(p, xs) && |f| <= |xs|
    ensures Cong(p, Lag(p, xs, Values(f, xs), z, 0), Eval(f, z))
    decreases |xs|
  {
    if xs == [] {
      CongRefl(p, 0);
    } else {
      var c, ys, h := xs[0], xs[1..], Quotient(f, xs[0]);
      assert xs == [c] + ys;
      ApartTail(p, c, ys);
      if f == [] {
        Interpolation(p, ys, [], z);
        InterpolationStep(p, c, ys, f, h, z);
      } else {
        Interpolation(p, ys, h, z);
        InterpolationStep(p, c, ys, f, h, z);
      }
    }
  }

  lemma SplitPoint(f: seq<int>, h: seq<int>, c: int, xs: seq<int>, j: nat) returns (prod: int)
    requires h == Quotient(f, c) && j < |xs|
    ensures Products(Distances(xs, c), Values(h, xs))[j] == prod
    ensures Eval(f, xs[j]) == Eval(f, c) + prod
  {
    prod := DividedAt(f, h, c, xs[j], Distances(xs, c), Values(h, xs), j);
  }

  lemma DividedAt(f: seq<int>, h: seq<int>, c: int, x: int, us: seq<int>, vs: seq<int>, j: nat) returns (prod: int)
    requires h == Quotient(f, c) && |us| == |vs| && j < |us| && us[j] == x - c && vs[j] == Eval(h, x)
    ensures Products(us, vs)[j] == prod
    ensures Eval(f, x) == Eval(f, c) + prod
  {
    QuotientDivides(f, c, x);
    prod := us[j] * vs[j];
  }

  lemma CombinePoint(a: int, ps: seq<int>, j: nat)
    requires j < |ps|
    ensures Combine(a, Ones(|ps|), 1, ps)[j] == a + ps[j]
  {
    var ones := Ones(|ps|);
    assert ones[j] == 1;
    assert Combine(a, ones, 1, ps)[j] == a * 1 + 1 * ps[j];
  }

  /** `f = f(c) + (x - c) h` at every point. */
  lemma SplitValues(f: seq<int>, h: seq<int>, c: int, xs: seq<int>)
    requires h == Quotient(f, c)
    ensures Values(f, xs) == Combine(Eval(f, c), Ones(|xs|), 1, Products(Distances(xs, c), Values(h, xs)))
  {
    var ps := Products(Distances(xs, c), Values(h, xs));
    forall j | 0 <= j < |xs| ensures Values(f, xs)[j] == Combine(Eval(f, c), Ones(|xs|), 1, ps)[j] {
      var prod := SplitPoint(f, h, c, xs, j);
      CombinePoint(Eval(f, c), ps, j);
    }
  }

  lemma InterpolationStep(p: int, c: int, ys: seq<int>, f: seq<int>, h: seq<int>, z: int)
    requires Prime(p) && Apart(p, [c] + ys) && Apart(p, ys) && h == Quotient(f, c)
    requires Cong(p, Lag(p, ys, Values(h, ys), z, 0), Eval(h, z))
    ensures Cong(p, Lag(p, [c] + ys, Values(f, [c] + ys), z, 0), Eval(f, z))
  {
    var xs := [c] + ys;
    var vs := Products(Distances(xs, c), Values(h, xs));
    SplitValues(f, h, c, xs);
    ProductsTail(c, ys, h);
    QuotientDivides(f, c, z);
    LagSplit(p, c, ys, vs, Values(h, ys), Eval(f, c), Eval(h, z), z);
  }

  /** Values `fc + (x - c) hs`, interpolated. */
  lemma LagSplit(p: int, c: int, ys: seq<int>, vs: seq<int>, hs: seq<int>, fc: int, hz: int, z: int)
    requires Prime(p) && Apart(p, [c] + ys) && Apart(p, ys) && |hs| == |ys| && |vs| == |ys| + 1
    requires vs[0] == 0 && vs[1..] == Products(Distances(ys, c), hs)
    requires Cong(p, Lag(p, ys, hs, z, 0), hz)
    ensures Cong(p, Lag(p, [c] + ys, Combine(fc, Ones(|ys| + 1), 1, vs), z, 0), fc + (z - c) * hz)
  {
    var xs := [c] + ys;
    var ones := Ones(|ys| + 1);
    LagLinear(p, xs, ones, vs, fc, 1, z, 0);
    LagDrop(p, c, ys, vs, hs, z, 0);
    LagFirstZero(p, xs, vs, z);
    LagOne(p, xs, |ys| + 1, z);
    StepSum(p, fc, Lag(p, xs, ones, z, 0), Lag(p, xs, vs, z, 0), z - c, Lag(p, ys, hs, z, 0), hz);
  }

  lemma ProductsTail(c: int, ys: seq<int>, h: seq<int>)
    ensures var vs := Products(Distances([c] + ys, c), Values(h, [c] + ys));
      vs[0] == 0 && vs[1..] == Products(Distances(ys, c), Values(h, ys))
  {
    var xs := [c] + ys;
    var vs, want := Products(Distances(xs, c), Values(h, xs)), Products(Distances(ys, c), Values(h, ys));
    assert vs[0] == 0 * Eval(h, c);
    forall j | 0 <= j < |ys| ensures vs[1..][j] == want[j] {
      assert xs[j + 1] == ys[j];
    }
    assert vs[1..] == want;
  }

  lemma StepSum(p: int, fc: int, one: int, rest: int, d: int, lag: int, hz: int)
    requires Cong(p, one, 1) && Cong(p, rest, d * lag) && Cong(p, lag, hz)
    ensures Cong(p, fc * one + 1 * rest, fc + d * hz)
  {
    CongMulLeft(p, fc, one, 1);
    CongMulLeft(p, d, lag, hz);
    CongTrans(p, rest, d * lag, d * hz);
    CongAdd(p, fc * one, fc * 1, rest, d * hz);
  }
}
