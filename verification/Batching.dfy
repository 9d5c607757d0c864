/** Which stored work is ready, and which of it signs together: the items whose prescribed
    inputs are the same. */
module Batching {
  import opened Sorting
  import opened Names
  import opened Bytes

  datatype Input = Input(txId: string, vout: nat)

  datatype TxOutItem = TxOutItem(inHash: string, outHash: string, sourceInputs: seq<Input>, vault: string)

  datatype Status = Available | Signed | Broadcast | Spent

  datatype StoreItem = StoreItem(item: TxOutItem, status: Status, height: int, index: int, epoch: nat,
                                 deferredUntil: int, retryUntil: int, signedTx: Option<Bytes>)

  // ---- ready work ----

  predicate Ready(it: StoreItem, height: int) {
    it.status == Available && it.deferredUntil <= height && it.item.outHash == ""
  }

  /** Order by height, then index. */
  predicate WorkLe(a: StoreItem, b: StoreItem) {
    a.height < b.height || (a.height == b.height && a.index <= b.index)
  }

  function AvailableWork(items: seq<StoreItem>, height: int): seq<StoreItem> {
    Sort(WorkLe, Filter(it => Ready(it, height), items))
  }

  /** No two items of the list have the same height and index. */
  ghost predicate DistinctSlots(items: seq<StoreItem>) {
    forall x, y :: x in items && y in items && x.height == y.height && x.index == y.index ==> x == y
  }

  lemma WorkLeIsPreorder()
    ensures TotalPreorder(WorkLe)
  {
  }

  /** The ready work, as a list, does not depend on the order in which the store lists it. */
  lemma WorkIgnoresListing(a: seq<StoreItem>, b: seq<StoreItem>, height: int)
    requires multiset(a) == multiset(b) && DistinctSlots(a)
    ensures AvailableWork(a, height) == AvailableWork(b, height)
  {
    var p := (it: StoreItem) => Ready(it, height);
    FilterIgnoresOrder(p, a, b);
    WorkLeIsPreorder();
    assert NoTies(WorkLe, Filter(p, a));
    SortIgnoresOrder(WorkLe, Filter(p, a), Filter(p, b));
  }

  /** Ready work: available, not deferred past the height, not signed; lowest height first, then lowest index. */
  lemma WorkIsReady(items: seq<StoreItem>, height: int)
    ensures Sorted(WorkLe, AvailableWork(items, height))
    ensures forall it :: it in AvailableWork(items, height) <==>
      it in items && it.status == Available && it.deferredUntil <= height && it.item.outHash == ""
    ensures var w := AvailableWork(items, height);
      forall i, j :: 0 <= i < j < |w| ==> w[i].height < w[j].height || (w[i].height == w[j].height && w[i].index <= w[j].index)
  {
    var p := (it: StoreItem) => Ready(it, height);
    WorkLeIsPreorder();
    SortSorts(WorkLe, Filter(p, items));
    forall it ensures it in AvailableWork(items, height) <==> it in items && Ready(it, height) {
      assert it in AvailableWork(items, height) <==> it in multiset(AvailableWork(items, height));
      assert it in Filter(p, items) <==> it in multiset(Filter(p, items));
    }
  }

  // ---- the key of the prescribed inputs ----

  function Digits(n: nat): (s: string)
    ensures |s| >= 1 && forall k :: 0 <= k < |s| ==> '0' <= s[k] <= '9'
  {
    var d := ('0' as int + n % 10) as char;
    if n < 10 then [d] else Digits(n / 10) + [d]
  }

  lemma {:induction false} DigitsInjective(a: nat, b: nat)
    requires Digits(a) == Digits(b)
    ensures a == b
  {
    var s, t := Digits(a), Digits(b);
    assert s[|s| - 1] == t[|t| - 1];
    assert a % 10 == b % 10;
    if a >= 10 && b >= 10 {
      assert Digits(a / 10) == s[..|s| - 1] && Digits(b / 10) == t[..|t| - 1];
      DigitsInjective(a / 10, b / 10);
    }
  }

  predicate InputLe(a: Input, b: Input) {
    if a.txId == b.txId then a.vout <= b.vout else LexLe(a.txId, b.txId)
  }

  lemma InputLeIsTotalOrder()
    ensures TotalPreorder(InputLe) && Antisymmetric(InputLe)
  {
    forall a: Input, b: Input ensures (InputLe(a, b) || InputLe(b, a)) && (InputLe(a, b) && InputLe(b, a) ==> a == b) {
      LexTotal(a.txId, b.txId);
    }
    forall a: Input, b: Input, c: Input | InputLe(a, b) && InputLe(b, c) ensures InputLe(a, c) {
      LexTotal(a.txId, b.txId);
      LexTotal(b.txId, c.txId);
      if a.txId != b.txId && b.txId != c.txId {
        LexTrans(a.txId, b.txId, c.txId);
        LexTotal(a.txId, c.txId);
      }
    }
  }

  function SortedInputs(it: StoreItem): seq<Input> {
    Sort(InputLe, it.item.sourceInputs)
  }

  function Part(i: Input): string {
    i.txId + [':'] + Digits(i.vout)
  }

  function Join(ins: seq<Input>): string {
    if ins == [] then []
    else if |ins| == 1 then Part(ins[0])
    else Part(ins[0]) + [','] + Join(ins[1..])
  }

  function SourceInputsKey(it: StoreItem): string {
    Join(SortedInputs(it))
  }

  /** Transaction ids are hexadecimal text. */
  predicate Hex(s: string) {
    forall k :: 0 <= k < |s| ==> ('0' <= s[k] <= '9') || ('a' <= s[k] <= 'f') || ('A' <= s[k] <= 'F')
  }

  predicate HexInputs(ins: seq<Input>) {
    forall k :: 0 <= k < |ins| ==> Hex(ins[k].txId)
  }

  predicate HexItem(it: StoreItem) {
    HexInputs(it.item.sourceInputs)
  }

  /** A longer text holds the mark that follows the shorter one. */
  lemma MarkIn(a: string, x: string, b: string, y: string, mark: char)
    requires a + x == b + y && (x == [] || x[0] == mark)
    ensures |a| < |b| ==> mark in b
  {
    if |a| < |b| {
      assert (a + x)[|a|] == x[0] && (b + y)[|a|] == b[|a|];
    }
  }

  /** Texts without the mark, each followed by the mark or the end, are told apart. */
  lemma CutAtMark(a: string, x: string, b: string, y: string, mark: char)
    requires mark !in a && mark !in b && a + x == b + y
    requires (x == [] || x[0] == mark) && (y == [] || y[0] == mark)
    ensures a == b && x == y
  {
    var s, t := a + x, b + y;
    MarkIn(a, x, b, y, mark);
    MarkIn(b, y, a, x, mark);
    assert a == s[..|a|] && b == t[..|b|];
    assert x == s[|a|..] && y == t[|b|..];
  }

  lemma PartHasNoComma(i: Input)
    requires Hex(i.txId)
    ensures ',' !in Part(i) && ':' !in i.txId
  {
  }

  lemma PartInjective(i: Input, j: Input)
    requires Hex(i.txId) && Hex(j.txId) && Part(i) == Part(j)
    ensures i == j
  {
    PartHasNoComma(i);
    PartHasNoComma(j);
    var x, y := [':'] + Digits(i.vout), [':'] + Digits(j.vout);
    assert Part(i) == i.txId + x && Part(j) == j.txId + y;
    CutAtMark(i.txId, x, j.txId, y, ':');
    assert x[1..] == Digits(i.vout) && y[1..] == Digits(j.vout);
    DigitsInjective(i.vout, j.vout);
  }

  function Rest(ins: seq<Input>): string
    requires ins != []
  {
    if |ins| == 1 then [] else [','] + Join(ins[1..])
  }

  lemma JoinSplits(ins: seq<Input>)
    requires ins != []
    ensures Join(ins) == Part(ins[0]) + Rest(ins) && Join(ins) != []
  {
    var p := Part(ins[0]);
    assert ':' in p;
    if |ins| > 1 {
      RegroupText(p, [','], Join(ins[1..]));
    } else {
      assert p + [] == p;
    }
  }

  lemma RegroupText(a: string, b: string, c: string)
    ensures a + b + c == a + (b + c)
  {
  }

  lemma {:induction false} JoinInjective(a: seq<Input>, b: seq<Input>)
    requires HexInputs(a) && HexInputs(b) && Join(a) == Join(b)
    ensures a == b
    decreases |a|
  {
    if a != [] {
      JoinSplits(a);
    }
    if b != [] {
      JoinSplits(b);
    }
    if a != [] && b != [] {
      PartHasNoComma(a[0]);
      PartHasNoComma(b[0]);
      CutAtMark(Part(a[0]), Rest(a), Part(b[0]), Rest(b), ',');
      PartInjective(a[0], b[0]);
      if |a| > 1 && |b| > 1 {
        assert Rest(a)[1..] == Join(a[1..]) && Rest(b)[1..] == Join(b[1..]);
        JoinInjective(a[1..], b[1..]);
        assert a == [a[0]] + a[1..] && b == [b[0]] + b[1..];
      }
    }
  }

  lemma SortedInputsHex(it: StoreItem)
    requires HexItem(it)
    ensures HexInputs(SortedInputs(it))
  {
    InputLeIsTotalOrder();
    SortSorts(InputLe, it.item.sourceInputs);
    var s := SortedInputs(it);
    forall k | 0 <= k < |s| ensures Hex(s[k].txId) {
      assert s[k] in multiset(it.item.sourceInputs);
      assert s[k] in it.item.sourceInputs;
    }
  }

  /** Equal keys mean the same inputs, each as often, and the key is empty only without inputs. */
  lemma KeyIsInputs(a: StoreItem, b: StoreItem)
    requires HexItem(a) && HexItem(b)
    ensures SourceInputsKey(a) == SourceInputsKey(b) <==> multiset(a.item.sourceInputs) == multiset(b.item.sourceInputs)
    ensures SourceInputsKey(a) == [] <==> a.item.sourceInputs == []
  {
    InputLeIsTotalOrder();
    SortSorts(InputLe, a.item.sourceInputs);
    SortSorts(InputLe, b.item.sourceInputs);
    SortedInputsHex(a);
    SortedInputsHex(b);
    if SourceInputsKey(a) == SourceInputsKey(b) {
      JoinInjective(SortedInputs(a), SortedInputs(b));
    }
    if multiset(a.item.sourceInputs) == multiset(b.item.sourceInputs) {
      SortIgnoresOrder(InputLe, a.item.sourceInputs, b.item.sourceInputs);
    }
    if SortedInputs(a) != [] {
      JoinSplits(SortedInputs(a));
    }
    assert |SortedInputs(a)| == |multiset(SortedInputs(a))| == |a.item.sourceInputs|;
  }

  // ---- batches ----

  function NextBatch(avail: seq<StoreItem>): Option<seq<StoreItem>> {
    if avail == [] then None
    else
      var key := SourceInputsKey(avail[0]);
      if key == [] then Some([avail[0]])
      else Some(Filter(it => SourceInputsKey(it) == key, avail))
  }

  /** A batch starts with the head of the queue and keeps the queue's order. */
  lemma BatchInOrder(avail: seq<StoreItem>)
    requires avail != [] && Sorted(WorkLe, avail)
    ensures var batch := NextBatch(avail).value; batch != [] && batch[0] == avail[0] && Sorted(WorkLe, batch)
  {
    var key := SourceInputsKey(avail[0]);
    FilterSorted(WorkLe, (it: StoreItem) => SourceInputsKey(it) == key, avail);
  }

  /** What is left once a batch has been taken. */
  function Without(avail: seq<StoreItem>, batch: seq<StoreItem>): seq<StoreItem> {
    Filter(it => it !in batch, avail)
  }

  lemma BatchTakes(avail: seq<StoreItem>)
    requires avail != []
    ensures avail[0] in NextBatch(avail).value
    ensures |Without(avail, NextBatch(avail).value)| < |avail|
  {
    var batch := NextBatch(avail).value;
    assert avail[0] in avail && avail[0] in batch;
    FilterShrinks((it: StoreItem) => it !in batch, avail);
  }

  /** Taking the next batch until nothing is left. */
  function Batches(avail: seq<StoreItem>): seq<seq<StoreItem>>
    decreases |avail|
  {
    if avail == [] then []
    else
      BatchTakes(avail);
      var batch := NextBatch(avail).value;
      [batch] + Batches(Without(avail, batch))
  }

  ghost predicate SameInputs(x: StoreItem, y: StoreItem) {
    x.item.sourceInputs != [] && multiset(x.item.sourceInputs) == multiset(y.item.sourceInputs)
  }

  /** What a batch is: items with the same inputs, or one item. */
  ghost predicate SharesInputs(batch: seq<StoreItem>) {
    batch != [] && Distinct(batch) && forall x, y :: x in batch && y in batch ==> x == y || SameInputs(x, y)
  }

  /** Everything of `avail` that shares inputs with the batch is in the batch. */
  ghost predicate Closed(batch: seq<StoreItem>, avail: seq<StoreItem>) {
    forall x, y :: x in batch && y in avail && SameInputs(x, y) ==> y in batch
  }

  /** No item of one is in the other or shares inputs with one of the other. */
  ghost predicate SeparateFrom(a: seq<StoreItem>, b: seq<StoreItem>) {
    forall x, y :: x in a && y in b ==> x != y && !SameInputs(x, y)
  }

  ghost predicate Separate(bs: seq<seq<StoreItem>>) {
    forall j, k :: 0 <= j < k < |bs| ==> SeparateFrom(bs[j], bs[k])
  }

  ghost predicate Member(bs: seq<seq<StoreItem>>, it: StoreItem) {
    exists k :: 0 <= k < |bs| && it in bs[k]
  }

  lemma KeyOfFirst(avail: seq<StoreItem>, x: StoreItem)
    requires avail != [] && x in avail && forall it :: it in avail ==> HexItem(it)
    ensures SourceInputsKey(avail[0]) == [] <==> avail[0].item.sourceInputs == []
    ensures SourceInputsKey(avail[0]) != [] ==>
      (SourceInputsKey(x) == SourceInputsKey(avail[0]) <==> SameInputs(avail[0], x))
  {
    assert avail[0] in avail;
    KeyIsInputs(avail[0], x);
  }

  lemma BatchShares(avail: seq<StoreItem>) returns (batch: seq<StoreItem>)
    requires avail != [] && Distinct(avail) && forall it :: it in avail ==> HexItem(it)
    ensures NextBatch(avail) == Some(batch) && SharesInputs(batch) && Closed(batch, avail)
    ensures forall it :: it in batch ==> it in avail
  {
    batch := NextBatch(avail).value;
    BatchTakes(avail);
    assert avail[0] in avail;
    var key := SourceInputsKey(avail[0]);
    forall x | x in avail
      ensures key == [] <==> avail[0].item.sourceInputs == []
      ensures key != [] ==> (x in batch <==> SameInputs(avail[0], x))
    {
      KeyOfFirst(avail, x);
    }
    if key != [] {
      DistinctFilter((it: StoreItem) => SourceInputsKey(it) == key, avail);
    }
  }

  lemma ClosedSeparates(avail: seq<StoreItem>, batch: seq<StoreItem>, later: seq<StoreItem>)
    requires Closed(batch, avail) && forall y :: y in later ==> y in Without(avail, batch)
    ensures SeparateFrom(batch, later)
  {
    forall x, y | x in batch && y in later ensures x != y && !SameInputs(x, y) {
      assert y in avail && y !in batch;
    }
  }

  lemma ConsPartition(avail: seq<StoreItem>, batch: seq<StoreItem>, bs: seq<seq<StoreItem>>)
    requires Closed(batch, avail) && forall it :: it in batch ==> it in avail
    requires forall it :: it in Without(avail, batch) <==> Member(bs, it)
    requires Separate(bs)
    ensures forall it :: it in avail <==> Member([batch] + bs, it)
    ensures Separate([batch] + bs)
  {
    var all := [batch] + bs;
    forall it ensures it in avail <==> Member(all, it) {
      if Member(bs, it) {
        var k :| 0 <= k < |bs| && it in bs[k];
        assert all[k + 1] == bs[k];
      }
      if it in batch {
        assert all[0] == batch;
      }
      if k :| 0 <= k < |all| && it in all[k] {
        assert k > 0 ==> all[k] == bs[k - 1];
      }
    }
    forall j, k | 0 <= j < k < |all| ensures SeparateFrom(all[j], all[k]) {
      assert all[k] == bs[k - 1];
      if j > 0 {
        assert all[j] == bs[j - 1];
        assert SeparateFrom(bs[j - 1], bs[k - 1]);
      } else {
        assert all[j] == batch;
        forall y | y in bs[k - 1] ensures y in Without(avail, batch) {
          assert Member(bs, y);
        }
        ClosedSeparates(avail, batch, bs[k - 1]);
      }
    }
  }

  /** Every item is in one batch, every batch shares its inputs, and two items with the same
      non-empty inputs are never in different batches. */
  lemma {:induction false} BatchesPartition(avail: seq<StoreItem>)
    requires Distinct(avail) && forall it :: it in avail ==> HexItem(it)
    ensures forall it :: it in avail <==> Member(Batches(avail), it)
    ensures forall k :: 0 <= k < |Batches(avail)| ==> SharesInputs(Batches(avail)[k])
    ensures Separate(Batches(avail))
    decreases |avail|
  {
    if avail != [] {
      BatchTakes(avail);
      var batch := BatchShares(avail);
      var rest := Without(avail, batch);
      DistinctFilter((it: StoreItem) => it !in batch, avail);
      BatchesPartition(rest);
      ConsPartition(avail, batch, Batches(rest));
    }
  }

  /** Two parties whose stores hold the same items form the same batches in the same order. */
  lemma BatchesIgnoreListing(a: seq<StoreItem>, b: seq<StoreItem>, height: int)
    requires multiset(a) == multiset(b) && DistinctSlots(a)
    ensures Batches(AvailableWork(a, height)) == Batches(AvailableWork(b, height))
  {
    WorkIgnoresListing(a, b, height);
  }
}
