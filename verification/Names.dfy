/** Participant names and the FROST identifiers dealt to them
    (crates/thornado-bifrost-signer/src/frost_session.rs). */
module Names {
  import opened Sorting

  datatype Name = Name(text: string)

  /** Byte order of two strings. */
  predicate LexLe(a: string, b: string) {
    a == [] || (b != [] && (a[0] < b[0] || (a[0] == b[0] && LexLe(a[1..], b[1..]))))
  }

  /** One text comes before another when it is a prefix of it or smaller where they first differ. */
  lemma {:induction false} LexLeIff(a: string, b: string)
    ensures LexLe(a, b) <==> a <= b || exists k :: FirstSmaller(a, b, k)
  {
    if a != [] && b != [] {
      LexLeIff(a[1..], b[1..]);
      if a[0] < b[0] {
        assert FirstSmaller(a, b, 0);
      } else if a[0] == b[0] {
        assert a[1..] <= b[1..] <==> a <= b;
        if k :| FirstSmaller(a[1..], b[1..], k) {
          assert a == [a[0]] + a[1..] && b == [b[0]] + b[1..];
          assert FirstSmaller(a, b, k + 1);
        }
        if k :| FirstSmaller(a, b, k) {
          assert FirstSmaller(a[1..], b[1..], k - 1);
        }
      }
    }
  }

  predicate FirstSmaller(a: string, b: string, k: int) {
    0 <= k < |a| && k < |b| && a[k] < b[k] && forall j :: 0 <= j < k ==> a[j] == b[j]
  }

  lemma {:induction false} LexTotal(a: string, b: string)
    ensures LexLe(a, b) || LexLe(b, a)
    ensures LexLe(a, b) && LexLe(b, a) ==> a == b
  {
    if a != [] && b != [] && a[0] == b[0] {
      LexTotal(a[1..], b[1..]);
      assert a == [a[0]] + a[1..] && b == [b[0]] + b[1..];
    }
  }

  lemma {:induction false} LexTrans(a: string, b: string, c: string)
    requires LexLe(a, b) && LexLe(b, c)
    ensures LexLe(a, c)
  {
    if a != [] && a[0] == b[0] && b[0] == c[0] {
      LexTrans(a[1..], b[1..], c[1..]);
    }
  }

  predicate NameLe(a: Name, b: Name) {
    LexLe(a.text, b.text)
  }

  lemma NameLeIsTotalOrder()
    ensures TotalPreorder(NameLe) && Antisymmetric(NameLe)
  {
    forall a, b ensures (NameLe(a, b) || NameLe(b, a)) && (NameLe(a, b) && NameLe(b, a) ==> a == b) {
      LexTotal(a.text, b.text);
    }
    forall a, b, c | NameLe(a, b) && NameLe(b, c) ensures NameLe(a, c) {
      LexTrans(a.text, b.text, c.text);
    }
  }

  /** `Vec::dedup`: drop each element equal to its predecessor. */
  function Dedup(s: seq<Name>): seq<Name> {
    if |s| <= 1 then s
    else if s[0] == s[1] then Dedup(s[1..])
    else [s[0]] + Dedup(s[1..])
  }

  function NormalizeParticipants(raw: seq<Name>): seq<Name> {
    Dedup(Sort(NameLe, raw))
  }

  ghost predicate Distinct<T>(s: seq<T>) {
    forall i, j :: 0 <= i < j < |s| ==> s[i] != s[j]
  }

  ghost function Elems<T>(s: seq<T>): set<T> {
    set x | x in s
  }

  lemma {:induction false} DedupSorted(s: seq<Name>)
    requires Sorted(NameLe, s)
    ensures Sorted(NameLe, Dedup(s)) && Distinct(Dedup(s)) && Elems(Dedup(s)) == Elems(s)
    ensures s != [] ==> Dedup(s) != [] && Dedup(s)[0] == s[0]
  {
    if |s| > 1 {
      DedupSorted(s[1..]);
      var d := Dedup(s[1..]);
      assert s == [s[0]] + s[1..];
      assert Elems(s) == {s[0]} + Elems(s[1..]);
      forall k | 0 <= k < |d| ensures NameLe(s[0], d[k]) && (s[0] != s[1] ==> s[0] != d[k]) {
        assert d[k] in Elems(d) && d[k] in s[1..];
        var i :| 0 <= i < |s[1..]| && s[1..][i] == d[k];
        assert s[1 + i] == d[k];
        LexTotal(s[0].text, s[1].text);
        if i > 0 {
          assert NameLe(s[1], s[1 + i]);
        } else {
          LexTotal(s[1].text, s[1].text);
        }
      }
      if s[0] != s[1] {
        assert Dedup(s) == [s[0]] + d;
        assert Elems(Dedup(s)) == {s[0]} + Elems(d);
      } else {
        assert Elems(s) == Elems(s[1..]);
      }
    }
  }

  /** The normal form is sorted, has no duplicates and keeps exactly the names. */
  lemma NormalizeIsCanonical(raw: seq<Name>)
    ensures Sorted(NameLe, NormalizeParticipants(raw)) && Distinct(NormalizeParticipants(raw))
    ensures Elems(NormalizeParticipants(raw)) == Elems(raw)
  {
    NameLeIsTotalOrder();
    SortSorts(NameLe, raw);
    DedupSorted(Sort(NameLe, raw));
    assert forall x :: x in Sort(NameLe, raw) <==> x in multiset(Sort(NameLe, raw));
    assert forall x :: x in raw <==> x in multiset(raw);
  }

  lemma {:induction false} DistinctSetToMultiset<T>(s: seq<T>)
    requires Distinct(s)
    ensures multiset(s) == multiset(Elems(s)) && |Elems(s)| == |s|
  {
    if s != [] {
      DistinctSetToMultiset(s[1..]);
      assert s == [s[0]] + s[1..];
      assert Elems(s) == {s[0]} + Elems(s[1..]);
      assert s[0] !in Elems(s[1..]);
    } else {
      assert Elems(s) == {};
    }
  }

  /** Two raw lists normalise to the same list exactly when they name the same set. */
  lemma NormalizeDependsOnSetOnly(a: seq<Name>, b: seq<Name>)
    ensures NormalizeParticipants(a) == NormalizeParticipants(b) <==> Elems(a) == Elems(b)
  {
    NormalizeIsCanonical(a);
    NormalizeIsCanonical(b);
    if Elems(a) == Elems(b) {
      var na, nb := NormalizeParticipants(a), NormalizeParticipants(b);
      DistinctSetToMultiset(na);
      DistinctSetToMultiset(nb);
      NameLeIsTotalOrder();
      SortedIsUnique(NameLe, na, nb);
    }
  }

  // ---- identifiers ----

  datatype Option<+T> = None | Some(value: T)

  const U16: nat := 0x1_0000

  function Position(participants: seq<Name>, party: Name): (r: Option<nat>)
    ensures r.None? <==> party !in participants
    ensures r.Some? ==> r.value < |participants| && participants[r.value] == party
    ensures r.Some? ==> forall k :: 0 <= k < r.value ==> participants[k] != party
  {
    if participants == [] then None
    else if participants[0] == party then Some(0)
    else
      match Position(participants[1..], party)
      case None => None
      case Some(k) => Some(k + 1)
  }

  /** The 1-based position as a `u16` (the cast wraps), refused when it is zero. */
  function IdentifierFor(participants: seq<Name>, party: Name): Option<nat> {
    match Position(participants, party)
    case None => None
    case Some(k) =>
      var index := (k + 1) % U16;
      if index == 0 then None else Some(index)
  }

  /** The name at the position given by the low sixteen bits of an identifier. */
  function NameForIdentifier(participants: seq<Name>, id: nat): Option<Name> {
    var idx := id % U16;
    if idx == 0 || idx - 1 >= |participants| then None else Some(participants[idx - 1])
  }

  /** Up to 65535 participants every member has an identifier, the lookup inverts
      it, and it is the member's 1-based position. */
  lemma IdentifierRoundTrip(ps: seq<Name>, p: Name)
    requires |ps| < U16 && p in ps
    ensures IdentifierFor(ps, p).Some? && 1 <= IdentifierFor(ps, p).value <= |ps|
    ensures NameForIdentifier(ps, IdentifierFor(ps, p).value) == Some(p)
    ensures ps[IdentifierFor(ps, p).value - 1] == p
  {
    var k := Position(ps, p).value;
    assert k + 1 < U16;
    assert (k + 1) % U16 == k + 1;
  }

  /** The lookup round trip holds for every member exactly when the list stays
      below 65536 names: the `u16` cast has no room for more. */
  lemma IdentifierCapacity(ps: seq<Name>)
    requires Distinct(ps)
    ensures (forall p :: p in ps ==>
               IdentifierFor(ps, p).Some? && NameForIdentifier(ps, IdentifierFor(ps, p).value) == Some(p))
            <==> |ps| < U16
  {
    if |ps| < U16 {
      forall p | p in ps
        ensures IdentifierFor(ps, p).Some? && NameForIdentifier(ps, IdentifierFor(ps, p).value) == Some(p)
      {
        IdentifierRoundTrip(ps, p);
      }
    } else {
      var p := ps[U16 - 1];
      assert Position(ps, p) == Some(U16 - 1);
      assert IdentifierFor(ps, p) == None;
    }
  }

  /** Distinct names get distinct identifiers. */
  lemma IdentifierInjective(ps: seq<Name>, p: Name, q: Name)
    requires |ps| < U16 && p in ps && q in ps
    ensures IdentifierFor(ps, p) == IdentifierFor(ps, q) <==> p == q
  {
    IdentifierRoundTrip(ps, p);
    IdentifierRoundTrip(ps, q);
  }

  // ---- recipients and blame ----

  function Others(ps: seq<Name>, local: Name): (r: seq<Name>)
    ensures forall p :: p in r <==> p in ps && p != local
  {
    if ps == [] then []
    else if ps[0] == local then Others(ps[1..], local)
    else [ps[0]] + Others(ps[1..], local)
  }

  /** The participants behind the identifiers that the frost crate blames. */
  function BlameNames(ps: seq<Name>, culprits: seq<nat>): seq<Name> {
    if culprits == [] then []
    else
      match NameForIdentifier(ps, culprits[0])
      case None => BlameNames(ps, culprits[1..])
      case Some(n) => [n] + BlameNames(ps, culprits[1..])
  }

  /** Everybody but the local party, each once. */
  ghost predicate Everyone(to: seq<Name>, ps: seq<Name>, local: Name) {
    Distinct(to) && forall p :: p in to <==> p in ps && p != local
  }

  lemma {:induction false} OthersOnce(ps: seq<Name>, local: Name)
    requires Distinct(ps)
    ensures Everyone(Others(ps, local), ps, local)
  {
    if ps != [] {
      assert Distinct(ps[1..]);
      OthersOnce(ps[1..], local);
      assert ps[0] !in ps[1..];
    }
  }

  /** Each identifier is the 1-based position of the name beside it. */
  ghost predicate HeldBy(ps: seq<Name>, ids: seq<nat>, ms: seq<Name>) {
    |ids| == |ms| && forall k :: 0 <= k < |ids| ==> HeldAt(ps, ids[k], ms[k])
  }

  predicate HeldAt(ps: seq<Name>, id: nat, m: Name) {
    1 <= id <= |ps| && ps[id - 1] == m
  }

  /** The low sixteen bits of an identifier point past the list, or at nothing. */
  ghost predicate HeldByNobody(ps: seq<Name>, ids: seq<nat>) {
    forall k :: 0 <= k < |ids| ==> ids[k] % U16 == 0 || ids[k] % U16 > |ps|
  }

  lemma HolderNamed(ps: seq<Name>, id: nat, m: Name)
    requires |ps| < U16 && HeldAt(ps, id, m)
    ensures NameForIdentifier(ps, id) == Some(m)
  {
    assert id % U16 == id;
  }

  lemma {:induction false} BlameHolders(ps: seq<Name>, ids: seq<nat>, ms: seq<Name>)
    requires |ps| < U16 && HeldBy(ps, ids, ms)
    ensures BlameNames(ps, ids) == ms
    decreases |ids|
  {
    if ids != [] {
      HolderNamed(ps, ids[0], ms[0]);
      forall k | 0 <= k < |ids[1..]| ensures HeldAt(ps, ids[1..][k], ms[1..][k]) {
        assert HeldAt(ps, ids[k + 1], ms[k + 1]);
      }
      BlameHolders(ps, ids[1..], ms[1..]);
      assert ms == [ms[0]] + ms[1..];
    }
  }

  lemma {:induction false} BlameNobodyIff(ps: seq<Name>, ids: seq<nat>)
    ensures BlameNames(ps, ids) == [] <==> HeldByNobody(ps, ids)
    decreases |ids|
  {
    if ids != [] {
      BlameNobodyIff(ps, ids[1..]);
      assert forall k :: 1 <= k < |ids| ==> ids[k] == ids[1..][k - 1];
    }
  }

  /** The party stands at one of these identifiers. */
  ghost predicate Stands(ps: seq<Name>, ids: seq<nat>, p: Name) {
    exists k :: 0 <= k < |ids| && 1 <= ids[k] % U16 <= |ps| && ps[ids[k] % U16 - 1] == p
  }

  lemma {:induction false} BlamedStands(ps: seq<Name>, ids: seq<nat>)
    ensures forall p :: p in BlameNames(ps, ids) <==> Stands(ps, ids, p)
    decreases |ids|
  {
    if ids != [] {
      BlamedStands(ps, ids[1..]);
      forall p ensures p in BlameNames(ps, ids) <==> Stands(ps, ids, p) {
        assert p in BlameNames(ps, ids) <==> NameForIdentifier(ps, ids[0]) == Some(p) || Stands(ps, ids[1..], p);
        if k :| 0 <= k < |ids[1..]| && 1 <= ids[1..][k] % U16 <= |ps| && ps[ids[1..][k] % U16 - 1] == p {
          assert ids[k + 1] == ids[1..][k];
        }
        if k :| 0 <= k < |ids| && 1 <= ids[k] % U16 <= |ps| && ps[ids[k] % U16 - 1] == p {
          assert k > 0 ==> ids[1..][k - 1] == ids[k];
        }
      }
    }
  }

  /** A party's identifier is the position at which it stands. */
  lemma StandsAt(ps: seq<Name>, p: Name, id: nat)
    requires Distinct(ps) && |ps| < U16 && 1 <= id <= |ps|
    ensures ps[id - 1] == p <==> IdentifierFor(ps, p) == Some(id)
  {
    if p in ps {
      IdentifierRoundTrip(ps, p);
    }
  }

  // ---- tables by identifier ----

  ghost predicate Injective(id: map<Name, nat>) {
    forall p, q :: p in id && q in id && id[p] == id[q] ==> p == q
  }

  /** Re-key a table of the parties by identifier. */
  ghost function ById<V>(id: map<Name, nat>, value: map<Name, V>): (m: map<nat, V>)
    requires Injective(id) && id.Keys == value.Keys
    ensures m.Keys == id.Values
    ensures forall p :: p in id ==> m[id[p]] == value[p]
  {
    map p | p in id :: id[p] := value[p]
  }

  lemma {:induction false} InjectiveCount(id: map<Name, nat>)
    requires Injective(id)
    ensures |id.Values| == |id|
  {
    if id.Keys == {} {
      assert id.Values == {};
    } else {
      var p :| p in id;
      var rest := id - {p};
      InjectiveCount(rest);
      forall v | v in id.Values && v != id[p] ensures v in rest.Values {
        var q :| q in id && id[q] == v;
        assert q in rest && rest[q] == v;
      }
      assert id.Values == rest.Values + {id[p]};
      assert id[p] !in rest.Values;
      assert rest.Keys == id.Keys - {p};
      assert |id| == |id.Keys| && |rest| == |rest.Keys|;
    }
  }

  ghost predicate Sub<V>(m: map<nat, V>, full: map<nat, V>) {
    forall k :: k in m ==> k in full && m[k] == full[k]
  }

  lemma SubFull<V>(m: map<nat, V>, full: map<nat, V>)
    requires Sub(m, full)
    ensures |m| == |full| <==> m == full
  {
    assert m.Keys <= full.Keys;
    assert |m| == |m.Keys| && |full| == |full.Keys|;
    if |m| == |full| {
      assert |full.Keys - m.Keys| == |full.Keys| - |m.Keys|;
      assert m.Keys == full.Keys;
    }
  }

  lemma SubEqual<V>(m: map<nat, V>, full: map<nat, V>)
    requires Sub(m, full) && forall k :: k in full ==> k in m
    ensures m == full
  {
  }

  lemma SmallerCount<T>(a: set<T>, b: set<T>)
    requires a < b
    ensures |a| < |b|
  {
    assert |b - a| == |b| - |a|;
    assert b - a != {};
  }

  /** Dropping one party drops exactly its identifier. */
  lemma DropValues(id: map<Name, nat>, q: Name)
    requires Injective(id) && q in id
    ensures Injective(id - {q}) && (id - {q}).Values == id.Values - {id[q]}
  {
    var rest := id - {q};
    forall k | k in id.Values && k != id[q] ensures k in rest.Values {
      var p :| p in id && id[p] == k;
      assert p in rest && rest[p] == k;
    }
    forall k | k in rest.Values ensures k in id.Values && k != id[q] {
      var p :| p in rest && rest[p] == k;
      assert p in id && id[p] == k;
    }
  }

  lemma DistinctByCount<T>(a: seq<T>, b: seq<T>)
    requires Distinct(a) && multiset(a) == multiset(b)
    ensures Distinct(b)
  {
    forall i, j | 0 <= i < j < |b| ensures b[i] != b[j] {
      if b[i] == b[j] {
        assert b == b[..i] + [b[i]] + b[i + 1..j] + [b[j]] + b[j + 1..];
        OneOfEach(a, b[i]);
      }
    }
  }

  lemma {:induction false} OneOfEach<T>(s: seq<T>, x: T)
    requires Distinct(s)
    ensures multiset(s)[x] <= 1
    decreases |s|
  {
    if s != [] {
      OneOfEach(s[1..], x);
      assert s == [s[0]] + s[1..];
      assert s[0] !in s[1..];
    }
  }

  lemma {:induction false} DistinctFilter<T(!new)>(p: T -> bool, s: seq<T>)
    requires Distinct(s)
    ensures Distinct(Filter(p, s))
    decreases |s|
  {
    if s != [] {
      DistinctFilter(p, s[1..]);
      assert s[0] !in s[1..];
      var r := Filter(p, s[1..]);
      forall k | 0 <= k < |r| ensures r[k] != s[0] {
        assert r[k] in r;
      }
    }
  }

  /** Two parts of one set overlap by what they are too large together. */
  lemma OverlapCount<T>(a: set<T>, b: set<T>, all: set<T>)
    requires a <= all && b <= all
    ensures |a * b| >= |a| + |b| - |all|
  {
    assert |a + b| == |a| + |b| - |a * b|;
    SubsetSize(a + b, all);
  }

  lemma {:induction false} SubsetSize<T>(a: set<T>, b: set<T>)
    requires a <= b
    ensures |a| <= |b|
    decreases a
  {
    if a != {} {
      var x :| x in a;
      SubsetSize(a - {x}, b - {x});
    }
  }
}
