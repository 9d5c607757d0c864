/** The two indexes of spent outputs: the ids recorded at each height, and the ids known spent. */
module SpentIndex {
  import opened Sorting
  import Names

  type Id = string

  datatype Height = Height(n: int)

  datatype State = State(byHeight: map<Height, set<Id>>, byId: set<Id>)

  const Empty := State(map[], {})

  function At(st: State, h: Height): set<Id> {
    if h in st.byHeight then st.byHeight[h] else {}
  }

  function NonEmpty(ids: seq<Id>): set<Id> {
    set id | id in ids && id != ""
  }

  function SetSpent(st: State, ids: seq<Id>, h: Height): State {
    var added := NonEmpty(ids);
    if added == {} then st else State(st.byHeight[h := At(st, h) + added], st.byId + added)
  }

  /** The ids recorded at or below a height. */
  function StaleIds(st: State, h: Height): set<Id> {
    set k, id | k in st.byHeight && k.n <= h.n && id in st.byHeight[k] :: id
  }

  function Prune(st: State, h: Height): State {
    State(map k | k in st.byHeight && k.n > h.n :: st.byHeight[k], st.byId - StaleIds(st, h))
  }

  predicate Holds(st: State, id: Id, h: Height) {
    h in st.byHeight && id in st.byHeight[h]
  }

  // ---- the code ----

  class TemporalIndex {
    var byHeight: map<Height, set<Id>>
    var byId: set<Id>

    ghost function Value(): State
      reads this
    {
      State(byHeight, byId)
    }

    constructor ()
      ensures Value() == Empty
    {
      byHeight, byId := map[], {};
    }

    method SetSpentUtxos(ids: seq<Id>, h: Height)
      modifies this
      ensures Value() == SetSpent(old(Value()), ids, h)
    {
      var kept := Retained(ids);
      if |kept| == 0 { return; }
      assert kept[0] in NonEmpty(kept);
      byHeight := byHeight[h := (if h in byHeight then byHeight[h] else {}) + (set id | id in kept)];
      for i := 0 to |kept|
        invariant byHeight == SetSpent(old(Value()), ids, h).byHeight
        invariant byId == old(byId) + NonEmpty(kept[..i])
      {
        assert kept[..i + 1] == kept[..i] + [kept[i]];
        NonEmptyNext(kept[..i], kept[i]);
        byId := byId + {kept[i]};
      }
      assert kept[..|kept|] == kept;
    }

    /** Remove the records at or below `h` and every id they list. */
    method PruneSpentUtxos(h: Height) returns (pruned: nat)
      modifies this
      ensures Value() == Prune(old(Value()), h)
      ensures pruned == |set k | k in old(byHeight) && k.n <= h.n|
    {
      var stale := set k | k in byHeight && k.n <= h.n;
      var todo := stale;
      ghost var before := Value();
      pruned := 0;
      while todo != {}
        invariant todo <= stale && pruned + |todo| == |stale|
        invariant forall k :: k in byHeight <==> k in before.byHeight && (k in stale ==> k in todo)
        invariant forall k :: k in byHeight ==> byHeight[k] == before.byHeight[k]
        invariant forall id :: id in byId <==> id in before.byId && !ListedIn(before, stale - todo, id)
        decreases |todo|
      {
        var k := Pick(todo);
        byId := byId - byHeight[k];
        byHeight := byHeight - {k};
        assert stale - (todo - {k}) == (stale - todo) + {k};
        todo := todo - {k};
        pruned := pruned + 1;
      }
      assert stale - {} == stale;
      PrunedTo(before, h, stale, Value());
    }

    method HasSpentUtxo(id: Id) returns (has: bool)
      ensures has <==> id in byId
    {
      has := id in byId;
    }

    /** The heights that list `id`, ascending. */
    method FindSpentUtxoHeights(id: Id) returns (heights: seq<Height>)
      ensures id == "" ==> heights == []
      ensures id != "" ==> forall h :: h in heights <==> Holds(Value(), id, h)
      ensures forall i, j :: 0 <= i < j < |heights| ==> heights[i].n < heights[j].n
    {
      heights := [];
      if id == "" { return; }
      var todo := byHeight.Keys;
      while todo != {}
        invariant todo <= byHeight.Keys
        invariant forall h :: h in heights <==> h in byHeight && h !in todo && id in byHeight[h]
        invariant forall i, j :: 0 <= i < j < |heights| ==> heights[i] != heights[j]
        decreases |todo|
      {
        var h := Pick(todo);
        if id in byHeight[h] {
          heights := heights + [h];
        }
        todo := todo - {h};
      }
      SortedAscending(heights);
      heights := Sort(HeightLe, heights);
    }
  }

  method Pick(s: set<Height>) returns (x: Height)
    requires s != {}
    ensures x in s
  {
    x :| x in s;
  }

  /** The ids that are not empty. */
  method Retained(ids: seq<Id>) returns (kept: seq<Id>)
    ensures NonEmpty(kept) == NonEmpty(ids) && NonEmpty(kept) == (set id | id in kept)
    ensures forall k :: 0 <= k < |kept| ==> kept[k] != ""
  {
    kept := [];
    for i := 0 to |ids|
      invariant NonEmpty(kept) == NonEmpty(ids[..i]) && forall k :: 0 <= k < |kept| ==> kept[k] != ""
    {
      assert ids[..i + 1] == ids[..i] + [ids[i]];
      NonEmptyNext(ids[..i], ids[i]);
      NonEmptyNext(kept, ids[i]);
      if ids[i] != "" {
        kept := kept + [ids[i]];
      }
    }
    assert ids[..|ids|] == ids;
  }

  lemma NonEmptyNext(ids: seq<Id>, x: Id)
    ensures NonEmpty(ids + [x]) == NonEmpty(ids) + if x != "" then {x} else {}
  {
    assert x in ids + [x];
    assert forall id :: id in ids + [x] <==> id in ids || id == x;
  }

  lemma PrunedTo(before: State, h: Height, stale: set<Height>, now: State)
    requires forall k :: k in stale <==> k in before.byHeight && k.n <= h.n
    requires forall k :: k in now.byHeight <==> k in before.byHeight && k !in stale
    requires forall k :: k in now.byHeight ==> now.byHeight[k] == before.byHeight[k]
    requires forall id :: id in now.byId <==> id in before.byId && !ListedIn(before, stale, id)
    ensures now == Prune(before, h)
  {
    var want := Prune(before, h);
    assert now.byHeight == want.byHeight;
    forall id ensures id in now.byId <==> id in want.byId {
      PruneHolds(before, h, id);
    }
    assert now.byId == want.byId;
  }

  ghost predicate ListedIn(st: State, ks: set<Height>, id: Id) {
    exists k :: k in ks && Holds(st, id, k)
  }

  predicate HeightLe(a: Height, b: Height) {
    a.n <= b.n
  }

  lemma SortedAscending(hs: seq<Height>)
    requires forall i, j :: 0 <= i < j < |hs| ==> hs[i] != hs[j]
    ensures forall h :: h in Sort(HeightLe, hs) <==> h in hs
    ensures forall i, j :: 0 <= i < j < |Sort(HeightLe, hs)| ==> Sort(HeightLe, hs)[i].n < Sort(HeightLe, hs)[j].n
  {
    assert TotalPreorder(HeightLe);
    SortSorts(HeightLe, hs);
    var t := Sort(HeightLe, hs);
    forall h ensures h in t <==> h in hs {
      assert h in t <==> h in multiset(t);
    }
    Names.DistinctByCount(hs, t);
  }

  // ---- what runs keep ----

  datatype Op = Set(ids: seq<Id>, height: Height) | PruneAt(height: Height)

  function Apply(st: State, op: Op): State {
    match op
    case Set(ids, h) => SetSpent(st, ids, h)
    case PruneAt(h) => Prune(st, h)
  }

  function Run(st: State, ops: seq<Op>): State
    decreases |ops|
  {
    if ops == [] then st else Run(Apply(st, ops[0]), ops[1..])
  }

  ghost predicate HeldSomewhere(st: State, id: Id) {
    exists h :: Holds(st, id, h)
  }

  /** Every id known spent is recorded at some height. */
  ghost predicate Backed(st: State) {
    forall id :: id in st.byId ==> HeldSomewhere(st, id)
  }

  /** The two indexes know the same ids. */
  ghost predicate Agree(st: State) {
    forall id :: id in st.byId <==> HeldSomewhere(st, id)
  }

  /** No id is recorded both at or below `h` and above it. */
  ghost predicate CleanCut(st: State, h: Height) {
    forall id, a, b :: Holds(st, id, a) && Holds(st, id, b) && a.n <= h.n ==> b.n <= h.n
  }

  lemma SetHolds(st: State, ids: seq<Id>, h: Height, id: Id)
    ensures HeldSomewhere(SetSpent(st, ids, h), id) <==> HeldSomewhere(st, id) || id in NonEmpty(ids)
  {
    var next := SetSpent(st, ids, h);
    if HeldSomewhere(st, id) {
      var k :| Holds(st, id, k);
      assert Holds(next, id, k);
    }
    if id in NonEmpty(ids) {
      assert Holds(next, id, h);
    }
    if HeldSomewhere(next, id) {
      var k :| Holds(next, id, k);
      assert Holds(st, id, k) || id in NonEmpty(ids);
    }
  }

  lemma PruneHolds(st: State, h: Height, id: Id)
    ensures HeldSomewhere(Prune(st, h), id) <==> exists k :: Holds(st, id, k) && k.n > h.n
    ensures id in StaleIds(st, h) <==> exists k :: Holds(st, id, k) && k.n <= h.n
  {
    var next := Prune(st, h);
    if k :| Holds(st, id, k) && k.n > h.n {
      assert Holds(next, id, k);
    }
    if HeldSomewhere(next, id) {
      var k :| Holds(next, id, k);
      assert Holds(st, id, k) && k.n > h.n;
    }
    if id in StaleIds(st, h) {
      var k :| k in st.byHeight && k.n <= h.n && id in st.byHeight[k];
      assert Holds(st, id, k);
    }
  }

  /** Recording keeps the indexes in step. */
  lemma SetKeepsAgreement(st: State, ids: seq<Id>, h: Height)
    requires Agree(st)
    ensures Agree(SetSpent(st, ids, h))
  {
    forall id ensures id in SetSpent(st, ids, h).byId <==> HeldSomewhere(SetSpent(st, ids, h), id) {
      SetHolds(st, ids, h, id);
    }
  }

  /** Pruning does exactly when it cuts no id in two. */
  lemma PruneKeepsAgreementIff(st: State, h: Height)
    requires Agree(st)
    ensures Agree(Prune(st, h)) <==> CleanCut(st, h)
  {
    var next := Prune(st, h);
    if Agree(next) {
      forall id, a, b | Holds(st, id, a) && Holds(st, id, b) && a.n <= h.n ensures b.n <= h.n {
        PruneHolds(st, h, id);
        assert id in next.byId <==> HeldSomewhere(next, id);
      }
    }
    if CleanCut(st, h) {
      forall id ensures id in next.byId <==> HeldSomewhere(next, id) {
        PruneHolds(st, h, id);
        assert id in st.byId <==> HeldSomewhere(st, id);
      }
    }
  }

  lemma {:induction false} RunStaysBacked(st: State, ops: seq<Op>)
    requires Backed(st)
    ensures Backed(Run(st, ops))
    decreases |ops|
  {
    if ops != [] {
      var next := Apply(st, ops[0]);
      forall id | id in next.byId ensures HeldSomewhere(next, id) {
        match ops[0]
        case Set(ids, h) => SetHolds(st, ids, h, id);
        case PruneAt(h) => PruneHolds(st, h, id);
      }
      RunStaysBacked(next, ops[1..]);
    }
  }

  /** Every id of these operations is recorded only at the height `home` gives it. */
  ghost predicate OneHeightEach(ops: seq<Op>, home: Id -> Height) {
    forall k, id :: 0 <= k < |ops| && ops[k].Set? && id in ops[k].ids && id != "" ==> home(id) == ops[k].height
  }

  ghost predicate AtHome(st: State, home: Id -> Height) {
    forall id, h :: Holds(st, id, h) ==> h == home(id)
  }

  lemma {:induction false} OneHeightAgrees(st: State, ops: seq<Op>, home: Id -> Height)
    requires Agree(st) && AtHome(st, home) && OneHeightEach(ops, home)
    ensures Agree(Run(st, ops)) && AtHome(Run(st, ops), home)
    decreases |ops|
  {
    if ops != [] {
      var next := Apply(st, ops[0]);
      match ops[0] {
        case Set(ids, h) =>
          SetKeepsAgreement(st, ids, h);
          forall id, k | Holds(next, id, k) ensures k == home(id) {
            assert Holds(st, id, k) || (id in NonEmpty(ids) && k == h);
          }
        case PruneAt(h) =>
          PruneKeepsAgreementIff(st, h);
          forall id, k | Holds(next, id, k) ensures k == home(id) {
            assert Holds(st, id, k);
          }
      }
      forall k, id | 0 <= k < |ops[1..]| && ops[1..][k].Set? && id in ops[1..][k].ids && id != "" ensures home(id) == ops[1..][k].height {
        assert ops[1..][k] == ops[k + 1];
      }
      OneHeightAgrees(next, ops[1..], home);
    }
  }

  /** In every run from empty indexes, an id known spent is recorded somewhere; when each id is
      recorded at one height only, the two indexes agree. */
  lemma SpentRuns(ops: seq<Op>, home: Id -> Height)
    ensures Backed(Run(Empty, ops))
    ensures OneHeightEach(ops, home) ==> Agree(Run(Empty, ops))
  {
    assert forall id, h :: !Holds(Empty, id, h);
    RunStaysBacked(Empty, ops);
    if OneHeightEach(ops, home) {
      OneHeightAgrees(Empty, ops, home);
    }
  }

  /** An id recorded at two heights and pruned between them is recorded but no longer known spent. */
  lemma TwoHeightsDisagree(id: Id)
    requires id != ""
    ensures var st := Run(Empty, [Set([id], Height(1)), Set([id], Height(3)), PruneAt(Height(2))]);
      Holds(st, id, Height(3)) && id !in st.byId
  {
    var s1 := SetSpent(Empty, [id], Height(1));
    var s2 := SetSpent(s1, [id], Height(3));
    assert id in [id] && id in NonEmpty([id]);
    assert Holds(s2, id, Height(1)) && Holds(s2, id, Height(3));
    var ops := [Set([id], Height(1)), Set([id], Height(3)), PruneAt(Height(2))];
    assert ops[1..] == [Set([id], Height(3)), PruneAt(Height(2))] && ops[1..][1..] == [PruneAt(Height(2))] && [PruneAt(Height(2))][1..] == [];
    assert Run(Empty, ops) == Run(s1, ops[1..]) == Run(s2, ops[1..][1..]) == Prune(s2, Height(2));
  }
}
