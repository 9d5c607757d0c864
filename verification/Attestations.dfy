/** Collecting attestations of one observed event until a super-majority has signed. */
module Attestations {
  import opened Names
  import opened Bytes

  datatype Attestation = Attestation(pubKey: Bytes, signature: Bytes)

  datatype AddResult = Added | Ignored | SignerConflict

  predicate Clashes(x: Attestation, y: Attestation) {
    x.signature == y.signature || x.pubKey == y.pubKey
  }

  /** Signers and signatures are pairwise different. */
  ghost predicate Apart(s: seq<Attestation>) {
    forall i, j :: 0 <= i < j < |s| ==> !Clashes(s[i], s[j])
  }

  /** What adding `a` answers: the first entry with its signature or its signer decides. */
  function Answer(s: seq<Attestation>, a: Attestation): AddResult {
    if s == [] then Added
    else if s[0].signature == a.signature then Ignored
    else if s[0].pubKey == a.pubKey then SignerConflict
    else Answer(s[1..], a)
  }

  function After(s: seq<Attestation>, a: Attestation): seq<Attestation> {
    if Answer(s, a) == Added then s + [a] else s
  }

  predicate HasSuperMajority(signers: nat, total: nat) {
    if signers > total || signers == 0 then false
    else
      var least := total * 2 / 3 + if (total * 2) % 3 > 0 then 1 else 0;
      signers >= least
  }

  class AttestationState {
    var attestations: seq<Attestation>

    constructor ()
      ensures attestations == []
    {
      attestations := [];
    }

    method Add(a: Attestation) returns (r: AddResult)
      modifies this
      ensures r == Answer(old(attestations), a) && attestations == After(old(attestations), a)
    {
      for i := 0 to |attestations|
        invariant Answer(attestations, a) == Answer(attestations[i..], a)
        invariant attestations == old(attestations)
      {
        if attestations[i].signature == a.signature { return Ignored; }
        if attestations[i].pubKey == a.pubKey { return SignerConflict; }
      }
      attestations := attestations + [a];
      r := Added;
    }

    function Count(): nat
      reads this
    {
      |attestations|
    }

    predicate HasQuorum(validators: nat)
      reads this
    {
      HasSuperMajority(Count(), validators)
    }
  }

  lemma {:induction false} AnswerIs(s: seq<Attestation>, a: Attestation)
    ensures Answer(s, a) == Added <==> forall i :: 0 <= i < |s| ==> !Clashes(s[i], a)
    decreases |s|
  {
    if s != [] {
      AnswerIs(s[1..], a);
      assert forall i :: 1 <= i < |s| ==> s[i] == s[1..][i - 1];
    }
  }

  /** Any sequence of adds. */
  function AddAll(s: seq<Attestation>, adds: seq<Attestation>): seq<Attestation>
    decreases |adds|
  {
    if adds == [] then s else AddAll(After(s, adds[0]), adds[1..])
  }

  /** However attestations arrive, signers and signatures stay pairwise different, nothing recorded
      is lost, and only what was added is recorded. */
  lemma {:induction false} AddsStayApart(s: seq<Attestation>, adds: seq<Attestation>)
    requires Apart(s)
    ensures Apart(AddAll(s, adds)) && s <= AddAll(s, adds)
    ensures forall a :: a in AddAll(s, adds) ==> a in s || a in adds
    decreases |adds|
  {
    if adds != [] {
      AnswerIs(s, adds[0]);
      AddsStayApart(After(s, adds[0]), adds[1..]);
    }
  }

  /** Every attestation offered is recorded, or clashes with one that is. */
  lemma {:induction false} AddsCoverAll(s: seq<Attestation>, adds: seq<Attestation>, a: Attestation)
    requires Apart(s) && a in adds
    ensures exists b :: b in AddAll(s, adds) && Clashes(b, a)
    decreases |adds|
  {
    var next := After(s, adds[0]);
    AnswerIs(s, adds[0]);
    AddsStayApart(s, adds[..1]);
    assert AddAll(s, adds[..1]) == next by { assert adds[..1][1..] == []; }
    if a == adds[0] {
      var b := a;
      if Answer(s, a) == Added {
        assert next[|s|] == a;
      } else {
        var i :| 0 <= i < |s| && Clashes(s[i], a);
        b := s[i];
      }
      assert b in next;
      AddsStayApart(next, adds[1..]);
      assert AddAll(s, adds) == AddAll(next, adds[1..]);
      assert b in AddAll(s, adds) && Clashes(b, a);
    } else {
      AddsCoverAll(next, adds[1..], a);
    }
  }

  /** The threshold is two thirds, exactly. */
  lemma SuperMajorityIff(signers: nat, total: nat)
    ensures HasSuperMajority(signers, total) <==> 1 <= signers <= total && 3 * signers >= 2 * total
  {
  }

  ghost function Signers(s: seq<Attestation>): set<Bytes> {
    set a | a in s :: a.pubKey
  }

  lemma {:induction false} SignerCount(s: seq<Attestation>)
    requires Apart(s)
    ensures |Signers(s)| == |s|
    decreases |s|
  {
    if s != [] {
      var n := |s| - 1;
      SignerCount(s[..n]);
      forall k ensures k in Signers(s) <==> k in Signers(s[..n]) || k == s[n].pubKey {
        if k in Signers(s[..n]) {
          var a :| a in s[..n] && a.pubKey == k;
          assert a in s;
        }
        if k in Signers(s) {
          var a :| a in s && a.pubKey == k;
          var i :| 0 <= i < |s| && s[i] == a;
          assert i < n ==> s[..n][i] == a;
        }
        assert s[n] in s;
      }
      assert Signers(s) == Signers(s[..n]) + {s[n].pubKey};
      assert s[n].pubKey !in Signers(s[..n]);
    }
  }

  /** Two quorums over the same validators share at least a third of them. */
  lemma QuorumsOverlap(s: seq<Attestation>, t: seq<Attestation>, validators: set<Bytes>)
    requires Apart(s) && Apart(t) && Signers(s) <= validators && Signers(t) <= validators
    requires HasSuperMajority(|s|, |validators|) && HasSuperMajority(|t|, |validators|)
    ensures 3 * |Signers(s) * Signers(t)| >= |validators|
  {
    SignerCount(s);
    SignerCount(t);
    OverlapCount(Signers(s), Signers(t), validators);
  }

  // ---- what an add answers ----

  /** The signature stands at `i`, and no entry before it is the signer's. */
  predicate SignatureFirst(s: seq<Attestation>, a: Attestation, i: int) {
    0 <= i < |s| && s[i].signature == a.signature && forall j :: 0 <= j < i ==> s[j].pubKey != a.pubKey
  }

  /** The signer's entry stands at `i`, with another signature, and no entry up to it has the signature. */
  predicate SignerFirst(s: seq<Attestation>, a: Attestation, i: int) {
    0 <= i < |s| && s[i].pubKey == a.pubKey && forall j :: 0 <= j <= i ==> s[j].signature != a.signature
  }

  /** An offer is ignored exactly when its signature is recorded with no earlier entry of its signer. */
  lemma {:induction false} IgnoredIff(s: seq<Attestation>, a: Attestation)
    ensures Answer(s, a) == Ignored <==> exists i :: SignatureFirst(s, a, i)
    decreases |s|
  {
    if s != [] {
      var rest := s[1..];
      IgnoredIff(rest, a);
      if s[0].signature == a.signature {
        assert SignatureFirst(s, a, 0);
      } else {
        if i :| SignatureFirst(s, a, i) {
          assert SignatureFirst(rest, a, i - 1);
        }
        if s[0].pubKey != a.pubKey {
          if i :| SignatureFirst(rest, a, i) {
            assert SignatureFirst(s, a, i + 1);
          }
        }
      }
    }
  }

  /** It is refused exactly when its signer is recorded with no entry up to there that has its signature. */
  lemma {:induction false} ConflictIff(s: seq<Attestation>, a: Attestation)
    ensures Answer(s, a) == SignerConflict <==> exists i :: SignerFirst(s, a, i)
    decreases |s|
  {
    if s != [] {
      var rest := s[1..];
      ConflictIff(rest, a);
      if s[0].signature == a.signature {
        forall i ensures !SignerFirst(s, a, i) {
        }
      } else if s[0].pubKey == a.pubKey {
        assert SignerFirst(s, a, 0);
      } else {
        if i :| SignerFirst(s, a, i) {
          assert SignerFirst(rest, a, i - 1);
        }
        if i :| SignerFirst(rest, a, i) {
          assert SignerFirst(s, a, i + 1);
        }
      }
    }
  }

  /** The offer's signer and its signature are recorded in two different entries. */
  ghost predicate Torn(s: seq<Attestation>, a: Attestation) {
    exists x, y :: x in s && y in s && x != y && x.pubKey == a.pubKey && y.signature == a.signature
  }

  /** What the documentation promises when one of its two cases applies. */
  ghost predicate Documented(s: seq<Attestation>, a: Attestation, r: AddResult) {
    && (r == Ignored <==> exists x :: x in s && x.signature == a.signature)
    && (r == SignerConflict <==> exists x :: x in s && x.pubKey == a.pubKey && x.signature != a.signature)
  }

  lemma ApartIsDistinct(s: seq<Attestation>)
    requires Apart(s)
    ensures Distinct(s)
  {
  }

  /** An offer that is not torn is answered as documented, wherever the entries stand. */
  lemma WholeIsDocumented(s: seq<Attestation>, a: Attestation)
    requires Distinct(s) && !Torn(s, a)
    ensures Documented(s, a, Answer(s, a))
  {
    IgnoredIff(s, a);
    ConflictIff(s, a);
    if x :| x in s && x.signature == a.signature {
      var i :| 0 <= i < |s| && s[i] == x;
      forall j | 0 <= j < i ensures s[j].pubKey != a.pubKey {
        assert s[j] in s && s[j] != x;
      }
      assert SignatureFirst(s, a, i);
    }
    if x :| x in s && x.pubKey == a.pubKey && x.signature != a.signature {
      var i :| 0 <= i < |s| && s[i] == x;
      forall j | 0 <= j <= i ensures s[j].signature != a.signature {
        assert s[j] in s;
      }
      assert SignerFirst(s, a, i);
    }
  }

  /** Both cases of the documentation apply to a torn offer, so no answer is the documented one. */
  lemma TornIsUndocumented(s: seq<Attestation>, a: Attestation)
    requires Apart(s) && Torn(s, a)
    ensures forall r :: !Documented(s, a, r)
  {
    var x, y :| x in s && y in s && x != y && x.pubKey == a.pubKey && y.signature == a.signature;
    var i :| 0 <= i < |s| && s[i] == x;
    var j :| 0 <= j < |s| && s[j] == y;
    assert !Clashes(s[if i < j then i else j], s[if i < j then j else i]);
    assert x.signature != a.signature;
  }

  /** The answer is the documented one if and only if the offer is not torn. */
  lemma DocumentedIff(s: seq<Attestation>, a: Attestation)
    requires Apart(s)
    ensures Documented(s, a, Answer(s, a)) <==> !Torn(s, a)
  {
    ApartIsDistinct(s);
    if Torn(s, a) {
      TornIsUndocumented(s, a);
    } else {
      WholeIsDocumented(s, a);
    }
  }

  /** The answer is the same however the entries are ordered. */
  ghost predicate OrderIrrelevant(s: seq<Attestation>, a: Attestation) {
    forall t: seq<Attestation> :: multiset(t) == multiset(s) ==> Answer(t, a) == Answer(s, a)
  }

  lemma SameEntries(s: seq<Attestation>, t: seq<Attestation>, x: Attestation)
    requires multiset(t) == multiset(s)
    ensures x in t <==> x in s
  {
    assert x in t <==> x in multiset(t);
  }

  lemma WholeIgnoresOrder(s: seq<Attestation>, t: seq<Attestation>, a: Attestation)
    requires Distinct(s) && multiset(t) == multiset(s) && !Torn(s, a)
    ensures Answer(t, a) == Answer(s, a)
  {
    DistinctByCount(s, t);
    forall x ensures x in t <==> x in s {
      SameEntries(s, t, x);
    }
    assert !Torn(t, a);
    WholeIsDocumented(s, a);
    WholeIsDocumented(t, a);
  }

  lemma TakenOut(s: seq<Attestation>, x: Attestation) returns (rest: seq<Attestation>)
    requires x in s
    ensures multiset(s) == multiset{x} + multiset(rest)
  {
    var i :| 0 <= i < |s| && s[i] == x;
    rest := s[..i] + s[i + 1..];
    assert s == s[..i] + [x] + s[i + 1..];
  }

  /** Entry `x` first, then `y`, then the others. */
  lemma BroughtForward(s: seq<Attestation>, x: Attestation, y: Attestation) returns (t: seq<Attestation>)
    requires x in s && y in s && x != y
    ensures multiset(t) == multiset(s) && |t| >= 2 && t[0] == x && t[1] == y
  {
    var u := TakenOut(s, x);
    assert y in multiset(s) && y in multiset(u);
    var rest := TakenOut(u, y);
    t := [x] + ([y] + rest);
    assert multiset(t) == multiset{x} + (multiset{y} + multiset(rest));
  }

  lemma TornDependsOnOrder(s: seq<Attestation>, a: Attestation)
    requires Apart(s) && Torn(s, a)
    ensures !OrderIrrelevant(s, a)
  {
    var x, y :| x in s && y in s && x != y && x.pubKey == a.pubKey && y.signature == a.signature;
    var i :| 0 <= i < |s| && s[i] == x;
    var j :| 0 <= j < |s| && s[j] == y;
    assert !Clashes(s[if i < j then i else j], s[if i < j then j else i]);
    var t := BroughtForward(s, x, y);
    var u := BroughtForward(s, y, x);
    assert Answer(t, a) == SignerConflict && Answer(u, a) == Ignored;
  }

  /** The order of what was recorded matters if and only if the offer is torn. */
  lemma OrderIrrelevantIff(s: seq<Attestation>, a: Attestation)
    requires Apart(s)
    ensures OrderIrrelevant(s, a) <==> !Torn(s, a)
  {
    ApartIsDistinct(s);
    if Torn(s, a) {
      TornDependsOnOrder(s, a);
    } else {
      forall t: seq<Attestation> | multiset(t) == multiset(s) ensures Answer(t, a) == Answer(s, a) {
        WholeIgnoresOrder(s, t, a);
      }
    }
  }

  /** A torn offer: refused when the signer was recorded first, ignored when the signature was. */
  lemma AnswerDependsOnOrder(k1: Bytes, k2: Bytes, s1: Bytes, s2: Bytes)
    requires k1 != k2 && s1 != s2
    ensures Answer([Attestation(k1, s1), Attestation(k2, s2)], Attestation(k1, s2)) == SignerConflict
    ensures Answer([Attestation(k2, s2), Attestation(k1, s1)], Attestation(k1, s2)) == Ignored
  {
  }
}
