/** Shifting a threshold key share by a scalar: Shamir shares, their public counterparts and
    the reconstruction of section 4.2 of RFC 9591. */
module ChildTweak {
  import opened Scalars

  /** A group of order `q` with a generator: `times(a)` is `a` times the generator. */
  datatype Curve<!G(!new)> = Curve(q: int, times: int -> G, add: (G, G) -> G, identity: G)

  ghost predicate Lawful<G(!new)>(c: Curve<G>) {
    && Prime(c.q)
    && (forall a: int, b: int :: c.add(c.times(a), c.times(b)) == c.times(a + b))
    && (forall a: int, b: int {:trigger c.times(a), c.times(b)} :: c.times(a) == c.times(b) <==> Cong(c.q, a, b))
    && c.times(0) == c.identity
  }

  function Residue(p: int, a: int): int {
    if p > 0 then a % p else 0
  }

  lemma ResidueAdd(p: int, a: int, b: int)
    requires Prime(p)
    ensures Residue(p, Residue(p, a) + Residue(p, b)) == Residue(p, a + b)
  {
    CongMod(p, a);
    CongMod(p, b);
    CongAdd(p, a % p, a, b % p, b);
    SameResidue(p, a % p + b % p, a + b);
  }

  lemma ResidueZero(p: int)
    requires Prime(p)
    ensures Residue(p, 0) == 0
  {
  }

  /** The laws are those of a group of prime order: the residues modulo a prime satisfy them. */
  lemma ResiduesAreLawful(c: Curve<int>)
    requires Prime(c.q) && c.identity == 0
    requires forall a: int :: c.times(a) == Residue(c.q, a)
    requires forall x: int, y: int :: c.add(x, y) == Residue(c.q, x + y)
    ensures Lawful(c)
  {
    forall a: int, b: int ensures c.add(c.times(a), c.times(b)) == c.times(a + b) {
      ResidueAdd(c.q, a, b);
    }
    forall a: int, b: int ensures c.times(a) == c.times(b) <==> Cong(c.q, a, b) {
      SameResidue(c.q, a, b);
    }
    ResidueZero(c.q);
  }

  lemma SameResidue(p: int, a: int, b: int)
    requires Prime(p)
    ensures a % p == b % p <==> Cong(p, a, b)
  {
    CongMod(p, a);
    CongMod(p, b);
    if a % p == b % p {
      CongTrans(p, a, a % p, b);
    }
    if Cong(p, a, b) {
      CongTrans(p, a % p, a, b);
      CongTrans(p, a % p, b, b % p);
      CongCanonical(p, a % p, b % p);
    }
  }

  datatype KeyPackage<G> = KeyPackage(id: int, share: int, verifyingShare: G, groupKey: G, minSigners: nat)

  datatype PublicPackage<G> = PublicPackage(shares: map<int, G>, groupKey: G, minSigners: nat)

  datatype TweakError = ScalarOutOfRange | BadPoint | OwnShareMissing

  datatype Result<T> = Ok(value: T) | Err(error: TweakError)

  // ---- the operation ----

  /** A point and its shift can both be encoded: neither is the identity. */
  predicate Shifts<G(!new, ==)>(c: Curve<G>, point: G, t: int) {
    point != c.identity && c.add(point, c.times(t)) != c.identity
  }

  predicate AllShift<G(!new, ==)>(c: Curve<G>, shares: map<int, G>, t: int) {
    forall id :: id in shares ==> Shifts(c, shares[id], t)
  }

  function ShiftAll<G(!new)>(c: Curve<G>, shares: map<int, G>, t: int): map<int, G> {
    map id | id in shares :: c.add(shares[id], c.times(t))
  }

  /** What the operation answers. */
  function Tweaked<G(!new, ==)>(c: Curve<G>, kp: KeyPackage<G>, pkp: PublicPackage<G>, t: nat): Result<(KeyPackage<G>, PublicPackage<G>)>
    requires c.q > 0
  {
    if t >= c.q then Err(ScalarOutOfRange)
    else if !Shifts(c, pkp.groupKey, t) || !AllShift(c, pkp.shares, t) then Err(BadPoint)
    else if kp.id !in pkp.shares then Err(OwnShareMissing)
    else
      var key := c.add(pkp.groupKey, c.times(t));
      var shares := ShiftAll(c, pkp.shares, t);
      Ok((KeyPackage(kp.id, (kp.share + t) % c.q, shares[kp.id], key, kp.minSigners),
          PublicPackage(shares, key, pkp.minSigners)))
  }

  lemma ShiftedAll<G(!new)>(c: Curve<G>, shares: map<int, G>, t: int, shifted: map<int, G>)
    requires forall id :: id in shifted <==> id in shares
    requires forall id :: id in shifted ==> shifted[id] == c.add(shares[id], c.times(t))
    ensures shifted == ShiftAll(c, shares, t)
  {
    var all := ShiftAll(c, shares, t);
    assert forall id :: id in shifted ==> id in all && shifted[id] == all[id];
    assert forall id :: id in all ==> id in shifted;
  }

  /** `order` is an order in which the map can be walked. */
  ghost predicate Walks<G(!new)>(order: seq<int>, shares: map<int, G>) {
    forall id :: id in order <==> id in shares
  }

  /** Shift every listed point, or report one that cannot be shifted. */
  method ShiftShares<G(!new, ==)>(c: Curve<G>, shares: map<int, G>, order: seq<int>, t: nat)
    returns (ok: bool, shifted: map<int, G>)
    requires Walks(order, shares)
    ensures ok == AllShift(c, shares, t)
    ensures ok ==> shifted == ShiftAll(c, shares, t)
  {
    shifted := map[];
    for i := 0 to |order|
      invariant forall id :: id in shifted <==> id in order[..i]
      invariant forall id :: id in shifted ==> Shifts(c, shares[id], t) && shifted[id] == c.add(shares[id], c.times(t))
    {
      var id := order[i];
      if !Shifts(c, shares[id], t) { return false, shifted; }
      shifted := shifted[id := c.add(shares[id], c.times(t))];
    }
    assert order[..|order|] == order;
    ShiftedAll(c, shares, t, shifted);
    ok := true;
  }

  method ChildTweakPackages<G(!new, ==)>(c: Curve<G>, kp: KeyPackage<G>, pkp: PublicPackage<G>, order: seq<int>, t: nat)
    returns (r: Result<(KeyPackage<G>, PublicPackage<G>)>)
    requires c.q > 0 && Walks(order, pkp.shares)
    ensures r == Tweaked(c, kp, pkp, t)
  {
    if t >= c.q { return Err(ScalarOutOfRange); }
    var share := (kp.share + t) % c.q;
    if !Shifts(c, pkp.groupKey, t) { return Err(BadPoint); }
    var key := c.add(pkp.groupKey, c.times(t));
    var ok, shifted := ShiftShares(c, pkp.shares, order, t);
    if !ok { return Err(BadPoint); }
    if kp.id !in shifted { return Err(OwnShareMissing); }
    return Ok((KeyPackage(kp.id, share, shifted[kp.id], key, kp.minSigners), PublicPackage(shifted, key, pkp.minSigners)));
  }

  // ---- interpolation at zero ----

  function Product(xs: seq<int>): int {
    if xs == [] then 1 else xs[0] * Product(xs[1..])
  }

  /** The product of the distances of `others` to `x`. */
  function Gap(others: seq<int>, x: int): int {
    if others == [] then 1 else (others[0] - x) * Gap(others[1..], x)
  }

  /** Two non-zero scalars have a non-zero product. */
  lemma ProductNonZero(p: int, a: int, b: int)
    requires Prime(p) && NonZero(p, a) && NonZero(p, b)
    ensures NonZero(p, a * b)
  {
    if !NonZero(p, a * b) {
      CongMod(p, a * b);
      assert a * 0 == 0;
      Cancel(p, a, b, 0);
      CongMod(p, b);
      CongTrans(p, b % p, b, 0);
      CongCanonical(p, b % p, 0);
    }
  }

  lemma NegateNonZero(p: int, a: int)
    requires Prime(p) && NonZero(p, a)
    ensures NonZero(p, -a)
  {
    if !NonZero(p, -a) {
      CongMod(p, -a);
      CongMulLeft(p, -1, -a, 0);
      CongMod(p, a);
      CongTrans(p, a % p, a, 0);
      CongCanonical(p, a % p, 0);
    }
  }

  lemma OffTail(p: int, x: int, others: seq<int>)
    requires p > 0 && Off(p, x, others) && others != []
    ensures Off(p, x, others[1..]) && NonZero(p, x - others[0])
  {
  }

  lemma {:induction false} GapNonZero(p: int, others: seq<int>, x: int)
    requires Prime(p) && Off(p, x, others)
    ensures NonZero(p, Gap(others, x))
    decreases |others|
  {
    if others == [] {
      assert 1 % p == 1;
    } else {
      OffTail(p, x, others);
      GapNonZero(p, others[1..], x);
      NegateNonZero(p, x - others[0]);
      assert -(x - others[0]) == others[0] - x;
      ProductNonZero(p, others[0] - x, Gap(others[1..], x));
    }
  }

  /** Section 4.2 of RFC 9591: the interpolating value of `x` among `others`. */
  function Lambda(p: int, others: seq<int>, x: int): int
    requires Prime(p) && Off(p, x, others)
  {
    GapNonZero(p, others, x);
    Product(others) * Inv(p, Gap(others, x))
  }

  lemma RearrangeWeight(o: int, x: int, v: int, w: int, g: int)
    ensures ((0 - o) * v * w) * ((o - x) * g) == ((x - o) * v) * (o * (w * g))
  {
    calc {
      ((0 - o) * v * w) * ((o - x) * g);
      (0 - o) * (v * (w * ((o - x) * g)));
      (0 - o) * ((o - x) * (v * (w * g)));
      (o * (x - o)) * (v * (w * g));
      ((x - o) * v) * (o * (w * g));
    }
  }

  lemma {:induction false} WeightTimesGap(p: int, others: seq<int>, x: int)
    requires Prime(p) && Off(p, x, others)
    ensures Cong(p, Weight(p, others, x, 0) * Gap(others, x), Product(others))
    decreases |others|
  {
    if others == [] {
      CongRefl(p, 1);
    } else {
      OffTail(p, x, others);
      var o, rest := others[0], others[1..];
      WeightTimesGap(p, rest, x);
      var w, g, v := Weight(p, rest, x, 0), Gap(rest, x), Inv(p, x - o);
      InvInverts(p, x - o);
      RearrangeWeight(o, x, v, w, g);
      Unit(p, (x - o) * v, o * (w * g));
      CongMulLeft(p, o, w * g, Product(rest));
      CongTrans(p, ((x - o) * v) * (o * (w * g)), o * (w * g), o * Product(rest));
    }
  }

  /** The published formula is the Lagrange basis value at zero. */
  lemma LambdaIsWeight(p: int, others: seq<int>, x: int)
    requires Prime(p) && Off(p, x, others)
    ensures Cong(p, Lambda(p, others, x), Weight(p, others, x, 0))
  {
    GapNonZero(p, others, x);
    var g, n, w := Gap(others, x), Product(others), Weight(p, others, x, 0);
    WeightTimesGap(p, others, x);
    InvInverts(p, g);
    Unit(p, g * Inv(p, g), n);
    assert (g * Inv(p, g)) * n == g * (n * Inv(p, g));
    CongSym(p, w * g, n);
    CongTrans(p, g * (n * Inv(p, g)), n, w * g);
    assert w * g == g * w;
    Cancel(p, g, n * Inv(p, g), w);
  }

  /** Sum of shares times interpolating values, from the `i`-th share on. */
  function ReconstructFrom(p: int, ids: seq<int>, shares: seq<int>, i: nat): int
    requires Prime(p) && Apart(p, ids) && |shares| == |ids| && i <= |ids|
    decreases |ids| - i
  {
    if i == |ids| then 0
    else
      OffRemoved(p, ids, i);
      shares[i] * Lambda(p, Remove(ids, i), ids[i]) + ReconstructFrom(p, ids, shares, i + 1)
  }

  function Reconstruct(p: int, ids: seq<int>, shares: seq<int>): int
    requires Prime(p) && Apart(p, ids) && |shares| == |ids|
  {
    ReconstructFrom(p, ids, shares, 0)
  }

  ghost predicate SharesOf(p: int, f: seq<int>, ids: seq<int>, shares: seq<int>)
    requires |ids| == |shares|
  {
    forall i :: 0 <= i < |ids| ==> Cong(p, shares[i], Eval(f, ids[i]))
  }

  lemma {:induction false} ReconstructIsLag(p: int, f: seq<int>, ids: seq<int>, shares: seq<int>, i: nat)
    requires Prime(p) && Apart(p, ids) && |shares| == |ids| && i <= |ids| && SharesOf(p, f, ids, shares)
    ensures Cong(p, ReconstructFrom(p, ids, shares, i), Lag(p, ids, Values(f, ids), 0, i))
    decreases |ids| - i
  {
    if i == |ids| {
      CongRefl(p, 0);
    } else {
      ReconstructIsLag(p, f, ids, shares, i + 1);
      OffRemoved(p, ids, i);
      var others, x := Remove(ids, i), ids[i];
      LambdaIsWeight(p, others, x);
      CongMul(p, shares[i], Values(f, ids)[i], Lambda(p, others, x), Weight(p, others, x, 0));
      CongAdd(p, shares[i] * Lambda(p, others, x), Values(f, ids)[i] * Weight(p, others, x, 0),
              ReconstructFrom(p, ids, shares, i + 1), Lag(p, ids, Values(f, ids), 0, i + 1));
    }
  }

  /** At least as many shares as coefficients reconstruct the secret. */
  lemma SharesReconstruct(p: int, f: seq<int>, ids: seq<int>, shares: seq<int>)
    requires Prime(p) && Apart(p, ids) && |f| <= |ids| == |shares| && SharesOf(p, f, ids, shares)
    ensures Cong(p, Reconstruct(p, ids, shares), Eval(f, 0))
  {
    ReconstructIsLag(p, f, ids, shares, 0);
    Interpolation(p, ids, f, 0);
    CongTrans(p, Reconstruct(p, ids, shares), Lag(p, ids, Values(f, ids), 0, 0), Eval(f, 0));
  }

  // ---- the shift ----

  /** The polynomial with a larger constant term. */
  function Raise(f: seq<int>, t: int): (g: seq<int>)
    requires f != []
    ensures |g| == |f|
  {
    [f[0] + t] + f[1..]
  }

  lemma RaiseEval(f: seq<int>, t: int, x: int)
    requires f != []
    ensures Eval(Raise(f, t), x) == Eval(f, x) + t
  {
    assert Raise(f, t)[1..] == f[1..];
  }

  /** The public package holds, for every party, the share of `f` times the generator. */
  ghost predicate PublicOf<G(!new)>(c: Curve<G>, f: seq<int>, pkp: PublicPackage<G>) {
    && pkp.groupKey == c.times(Eval(f, 0))
    && forall id :: id in pkp.shares ==> pkp.shares[id] == c.times(Eval(f, id))
  }

  /** A party's package: its share of `f` and the matching points. */
  ghost predicate KeyOf<G(!new)>(c: Curve<G>, f: seq<int>, kp: KeyPackage<G>) {
    && 0 <= kp.share < c.q
    && Cong(c.q, kp.share, Eval(f, kp.id))
    && kp.verifyingShare == c.times(kp.share)
    && kp.groupKey == c.times(Eval(f, 0))
    && kp.minSigners == |f|
  }

  /** A shifted point is the shifted scalar times the generator. */
  lemma ShiftPoint<G(!new)>(c: Curve<G>, f: seq<int>, t: int, x: int, point: G)
    requires Lawful(c) && f != [] && point == c.times(Eval(f, x))
    ensures c.add(point, c.times(t)) == c.times(Eval(Raise(f, t), x))
  {
    RaiseEval(f, t, x);
  }

  /** The scalar `f(x)` and its shift are both non-zero. */
  ghost predicate Survives(q: int, f: seq<int>, x: int, t: int) {
    !Cong(q, Eval(f, x), 0) && !Cong(q, Eval(f, x) + t, 0)
  }

  lemma ShiftsIff<G(!new)>(c: Curve<G>, f: seq<int>, t: int, x: int, point: G)
    requires Lawful(c) && point == c.times(Eval(f, x))
    ensures Shifts(c, point, t) <==> Survives(c.q, f, x, t)
  {
    assert c.add(point, c.times(t)) == c.times(Eval(f, x) + t);
    assert c.times(0) == c.identity;
  }

  /** The operation succeeds exactly when the tweak is a canonical scalar, the party is listed,
      and no secret behind a listed point is zero before or after the shift. */
  lemma TweakSucceedsIff<G(!new)>(c: Curve<G>, f: seq<int>, kp: KeyPackage<G>, pkp: PublicPackage<G>, t: nat)
    requires Lawful(c) && PublicOf(c, f, pkp)
    ensures Tweaked(c, kp, pkp, t).Ok? <==>
      t < c.q && kp.id in pkp.shares && Survives(c.q, f, 0, t) && forall id :: id in pkp.shares ==> Survives(c.q, f, id, t)
  {
    ShiftsIff(c, f, t, 0, pkp.groupKey);
    forall id | id in pkp.shares ensures Shifts(c, pkp.shares[id], t) <==> Survives(c.q, f, id, t) {
      ShiftsIff(c, f, t, id, pkp.shares[id]);
    }
  }

  /** Which error a call that fails answers, in the order of the checks. */
  lemma TweakErrorIff<G(!new)>(c: Curve<G>, f: seq<int>, kp: KeyPackage<G>, pkp: PublicPackage<G>, t: nat)
    requires Lawful(c) && PublicOf(c, f, pkp)
    ensures var all := Survives(c.q, f, 0, t) && forall id :: id in pkp.shares ==> Survives(c.q, f, id, t);
      && (Tweaked(c, kp, pkp, t) == Err(ScalarOutOfRange) <==> t >= c.q)
      && (Tweaked(c, kp, pkp, t) == Err(BadPoint) <==> t < c.q && !all)
      && (Tweaked(c, kp, pkp, t) == Err(OwnShareMissing) <==> t < c.q && all && kp.id !in pkp.shares)
  {
    ShiftsIff(c, f, t, 0, pkp.groupKey);
    forall id | id in pkp.shares ensures Shifts(c, pkp.shares[id], t) <==> Survives(c.q, f, id, t) {
      ShiftsIff(c, f, t, id, pkp.shares[id]);
    }
  }

  /** A shifted package is a package of the raised polynomial: same party, same threshold,
      every point again its scalar times the generator. */
  lemma TweakKeepsPackages<G(!new)>(c: Curve<G>, f: seq<int>, kp: KeyPackage<G>, pkp: PublicPackage<G>, t: nat)
    requires Lawful(c) && f != [] && KeyOf(c, f, kp) && PublicOf(c, f, pkp) && Tweaked(c, kp, pkp, t).Ok?
    ensures var (kp2, pkp2) := Tweaked(c, kp, pkp, t).value;
      && KeyOf(c, Raise(f, t), kp2) && PublicOf(c, Raise(f, t), pkp2)
      && kp2.id == kp.id && kp2.minSigners == kp.minSigners
      && pkp2.minSigners == pkp.minSigners && pkp2.shares.Keys == pkp.shares.Keys
  {
    var g := Raise(f, t);
    var (kp2, pkp2) := Tweaked(c, kp, pkp, t).value;
    ShiftPoint(c, f, t, 0, pkp.groupKey);
    forall id | id in pkp.shares ensures pkp2.shares[id] == c.times(Eval(g, id)) {
      ShiftPoint(c, f, t, id, pkp.shares[id]);
    }
    RaiseEval(f, t, kp.id);
    CongMod(c.q, kp.share + t);
    CongRefl(c.q, t);
    CongAdd(c.q, kp.share, Eval(f, kp.id), t, t);
    CongTrans(c.q, kp2.share, kp.share + t, Eval(g, kp.id));
    assert c.times(kp2.share) == c.times(Eval(g, kp.id));
  }

  function Ids<G>(kps: seq<KeyPackage<G>>): (s: seq<int>)
    ensures |s| == |kps| && forall i :: 0 <= i < |kps| ==> s[i] == kps[i].id
  {
    seq(|kps|, i requires 0 <= i < |kps| => kps[i].id)
  }

  function Shares<G>(kps: seq<KeyPackage<G>>): (s: seq<int>)
    ensures |s| == |kps| && forall i :: 0 <= i < |kps| ==> s[i] == kps[i].share
  {
    seq(|kps|, i requires 0 <= i < |kps| => kps[i].share)
  }

  /** `after` lists the parties of `before` with their shifted packages. */
  predicate AllTweaked<G(!new, ==)>(c: Curve<G>, before: seq<KeyPackage<G>>, pkp: PublicPackage<G>, t: nat, after: seq<KeyPackage<G>>)
    requires c.q > 0
  {
    && |after| == |before|
    && forall i :: 0 <= i < |before| ==>
         Tweaked(c, before[i], pkp, t).Ok? && Tweaked(c, before[i], pkp, t).value.0 == after[i]
  }

  ghost predicate Holders<G(!new)>(c: Curve<G>, f: seq<int>, kps: seq<KeyPackage<G>>) {
    forall i :: 0 <= i < |kps| ==> KeyOf(c, f, kps[i])
  }

  lemma TweakKeepsHolders<G(!new)>(c: Curve<G>, f: seq<int>, before: seq<KeyPackage<G>>, pkp: PublicPackage<G>,
                                   t: nat, after: seq<KeyPackage<G>>)
    requires Lawful(c) && f != [] && PublicOf(c, f, pkp) && Holders(c, f, before) && AllTweaked(c, before, pkp, t, after)
    ensures Holders(c, Raise(f, t), after) && Ids(after) == Ids(before)
  {
    forall i | 0 <= i < |before| ensures KeyOf(c, Raise(f, t), after[i]) && after[i].id == before[i].id {
      TweakKeepsPackages(c, f, before[i], pkp, t);
    }
  }

  /** The holders of a polynomial's shares reconstruct its secret, whose multiple is their group key. */
  lemma HoldersReconstruct<G(!new)>(c: Curve<G>, f: seq<int>, kps: seq<KeyPackage<G>>) returns (secret: int)
    requires Lawful(c) && Holders(c, f, kps) && |kps| >= |f| && Apart(c.q, Ids(kps))
    ensures secret == Reconstruct(c.q, Ids(kps), Shares(kps)) && Cong(c.q, secret, Eval(f, 0))
    ensures forall i :: 0 <= i < |kps| ==>
      kps[i].groupKey == c.times(secret) && kps[i].verifyingShare == c.times(kps[i].share)
  {
    var ids, shares := Ids(kps), Shares(kps);
    assert SharesOf(c.q, f, ids, shares);
    SharesReconstruct(c.q, f, ids, shares);
    secret := Reconstruct(c.q, ids, shares);
    SameMultiple(c, secret, Eval(f, 0));
  }

  lemma RaisedReconstruct<G(!new)>(c: Curve<G>, f: seq<int>, t: int, kps: seq<KeyPackage<G>>) returns (secret: int)
    requires Lawful(c) && f != [] && Holders(c, Raise(f, t), kps) && |kps| >= |f| && Apart(c.q, Ids(kps))
    ensures secret == Reconstruct(c.q, Ids(kps), Shares(kps)) && Cong(c.q, secret, Eval(f, 0) + t)
    ensures forall i :: 0 <= i < |kps| ==>
      kps[i].groupKey == c.times(secret) && kps[i].verifyingShare == c.times(kps[i].share)
  {
    secret := HoldersReconstruct(c, Raise(f, t), kps);
    RaiseEval(f, t, 0);
  }

  lemma SameMultiple<G(!new)>(c: Curve<G>, a: int, b: int)
    requires Lawful(c) && Cong(c.q, a, b)
    ensures c.times(a) == c.times(b)
  {
  }

  /** Any parties with distinct identifiers, at least as many as the threshold, reconstruct from
      their shifted shares the old secret plus the tweak; the shifted group key is that secret
      times the generator and every shifted verifying share its share times the generator. */
  lemma ChildTweakShiftsSecret<G(!new)>(c: Curve<G>, f: seq<int>, before: seq<KeyPackage<G>>, pkp: PublicPackage<G>,
                                        t: nat, after: seq<KeyPackage<G>>) returns (secret: int, shifted: int)
    requires Lawful(c) && f != [] && PublicOf(c, f, pkp)
    requires Holders(c, f, before) && |before| >= |f| && AllTweaked(c, before, pkp, t, after) && Apart(c.q, Ids(before))
    ensures Ids(after) == Ids(before)
    ensures secret == Reconstruct(c.q, Ids(before), Shares(before)) && Cong(c.q, secret, Eval(f, 0))
    ensures shifted == Reconstruct(c.q, Ids(after), Shares(after)) && Cong(c.q, shifted, Eval(f, 0) + t)
    ensures forall i :: 0 <= i < |after| ==>
      after[i].groupKey == c.times(shifted) && after[i].verifyingShare == c.times(after[i].share)
  {
    TweakKeepsHolders(c, f, before, pkp, t, after);
    secret := HoldersReconstruct(c, f, before);
    shifted := RaisedReconstruct(c, f, t, after);
  }
}
