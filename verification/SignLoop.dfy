/** The signing work queue: work is fetched, evicted, retired, taken in batches, signed and
    marked broadcast, or deferred. The chain, the parties and bitcoind are what the steps are
    given. */
module SignLoop {
  import opened Sorting
  import opened Names
  import opened Bytes
  import opened Batching

  /** The storage key, a hash of these three. */
  datatype Key = Key(inHash: string, height: int, index: int)

  type Store = map<Key, StoreItem>

  function KeyOf(it: StoreItem): Key {
    Key(it.item.inHash, it.height, it.index)
  }

  /** The store, and the keys broadcast so far, in order. */
  datatype State = State(store: Store, sent: seq<Key>)

  predicate Keyed(store: Store) {
    forall k :: k in store ==> KeyOf(store[k]) == k
  }

  /** Work not yet signed. */
  predicate Open(it: StoreItem) {
    it.status == Available && it.item.outHash == ""
  }

  // ---- fetching ----

  /** A signed block of outbound items. */
  datatype Block = Block(height: int, epoch: nat, retryUntil: int, items: seq<TxOutItem>)

  function NewItem(b: Block, i: nat): StoreItem
    requires i < |b.items|
  {
    StoreItem(b.items[i], Available, b.height, i, b.epoch, 0, b.retryUntil, None)
  }

  function Evict(store: Store, pending: set<(int, string)>): Store {
    map k | k in store && !(Open(store[k]) && (store[k].height, store[k].item.inHash) !in pending) :: store[k]
  }

  function PutIfAbsent(store: Store, it: StoreItem): Store {
    if it.item.outHash != "" || KeyOf(it) in store then store else store[KeyOf(it) := it]
  }

  /** Queue the items of a block from the `i`-th on. */
  function QueueBlock(store: Store, b: Block, i: nat): Store
    requires i <= |b.items|
    decreases |b.items| - i
  {
    if i == |b.items| then store else QueueBlock(PutIfAbsent(store, NewItem(b, i)), b, i + 1)
  }

  function QueueAll(store: Store, bs: seq<Block>): Store
    decreases |bs|
  {
    if bs == [] then store else QueueAll(QueueBlock(store, bs[0], 0), bs[1..])
  }

  // ---- retiring ----

  predicate Expired(it: StoreItem, height: int) {
    Open(it) && it.retryUntil > 0 && height > it.retryUntil
  }

  function Retire(store: Store, height: int): Store {
    map k | k in store && !Expired(store[k], height) :: store[k]
  }

  // ---- choosing ----

  /** A parked request to lead the party of an (epoch, height). */
  datatype Demand = Demand(id: string, epoch: nat, height: int)

  function DemandedBy(all: seq<StoreItem>, d: Demand): Option<seq<StoreItem>> {
    NextBatch(Filter((it: StoreItem) => it.epoch == d.epoch && it.height == d.height && Open(it), all))
  }

  /** The first demanded batch this node leads under the id demanded. */
  function DemandedBatch(all: seq<StoreItem>, ds: seq<Demand>, leads: (Demand, seq<StoreItem>) -> bool): Option<seq<StoreItem>>
    decreases |ds|
  {
    if ds == [] then None
    else
      var b := DemandedBy(all, ds[0]);
      if b.Some? && leads(ds[0], b.value) then b else DemandedBatch(all, ds[1..], leads)
  }

  function ChooseBatch(all: seq<StoreItem>, ds: seq<Demand>, leads: (Demand, seq<StoreItem>) -> bool, height: int)
    : Option<seq<StoreItem>>
  {
    var d := DemandedBatch(all, ds, leads);
    if d.Some? then d else NextBatch(AvailableWork(all, height))
  }

  lemma NextBatchIsSome(from: seq<StoreItem>)
    ensures NextBatch(from).None? <==> from == []
    ensures NextBatch(from).Some? ==> NextBatch(from).value != [] && forall it :: it in NextBatch(from).value ==> it in from
  {
    if from != [] {
      BatchTakes(from);
    }
  }

  lemma {:induction false} DemandedIsSome(all: seq<StoreItem>, ds: seq<Demand>, leads: (Demand, seq<StoreItem>) -> bool)
    ensures DemandedBatch(all, ds, leads).Some? ==> DemandedBatch(all, ds, leads).value != []
    decreases |ds|
  {
    if ds != [] {
      var d := ds[0];
      NextBatchIsSome(Filter((it: StoreItem) => it.epoch == d.epoch && it.height == d.height && Open(it), all));
      DemandedIsSome(all, ds[1..], leads);
    }
  }

  /** A batch that is chosen has an item. */
  lemma ChosenIsSome(all: seq<StoreItem>, ds: seq<Demand>, leads: (Demand, seq<StoreItem>) -> bool, height: int)
    ensures ChooseBatch(all, ds, leads, height).Some? ==> ChooseBatch(all, ds, leads, height).value != []
  {
    DemandedIsSome(all, ds, leads);
    NextBatchIsSome(AvailableWork(all, height));
  }

  /** The open items of a demand's epoch and height are those it asks for, deferred or not; they make
      a batch as soon as there is one. */
  lemma DemandedAre(all: seq<StoreItem>, d: Demand)
    ensures DemandedBy(all, d).None? <==>
      forall it :: it in all ==> !(it.epoch == d.epoch && it.height == d.height && it.status == Available && it.item.outHash == "")
    ensures DemandedBy(all, d).Some? ==> forall it :: it in DemandedBy(all, d).value ==>
      it in all && it.epoch == d.epoch && it.height == d.height && it.status == Available && it.item.outHash == ""
  {
    var p := (it: StoreItem) => it.epoch == d.epoch && it.height == d.height && Open(it);
    NextBatchIsSome(Filter(p, all));
    assert Filter(p, all) != [] ==> Filter(p, all)[0] in Filter(p, all);
  }

  /** This node leads the batch the demand asks for. */
  predicate Led(all: seq<StoreItem>, d: Demand, leads: (Demand, seq<StoreItem>) -> bool) {
    var b := DemandedBy(all, d);
    b.Some? && leads(d, b.value)
  }

  /** The first demand whose batch this node leads is served, whatever is ready. */
  lemma {:induction false} FirstDemandServed(all: seq<StoreItem>, ds: seq<Demand>, leads: (Demand, seq<StoreItem>) -> bool, height: int, k: nat)
    requires k < |ds| && Led(all, ds[k], leads) && forall j :: 0 <= j < k ==> !Led(all, ds[j], leads)
    ensures ChooseBatch(all, ds, leads, height) == DemandedBy(all, ds[k])
    decreases k
  {
    if k > 0 {
      FirstDemandServed(all, ds[1..], leads, height, k - 1);
    }
  }

  lemma {:induction false} NoDemandLed(all: seq<StoreItem>, ds: seq<Demand>, leads: (Demand, seq<StoreItem>) -> bool)
    requires forall j :: 0 <= j < |ds| ==> !Led(all, ds[j], leads)
    ensures DemandedBatch(all, ds, leads).None?
    decreases |ds|
  {
    if ds != [] {
      NoDemandLed(all, ds[1..], leads);
    }
  }

  /** Otherwise the head of the ready queue is, with what shares its inputs; nothing is chosen exactly
      when nothing is ready. */
  lemma HeadServedElse(all: seq<StoreItem>, ds: seq<Demand>, leads: (Demand, seq<StoreItem>) -> bool, height: int)
    requires forall j :: 0 <= j < |ds| ==> !Led(all, ds[j], leads)
    ensures ChooseBatch(all, ds, leads, height).None? <==>
      forall it :: it in all ==> !(it.status == Available && it.deferredUntil <= height && it.item.outHash == "")
    ensures ChooseBatch(all, ds, leads, height).Some? ==>
      var batch := ChooseBatch(all, ds, leads, height).value;
      && batch != [] && (forall it :: it in batch ==> it in all && it.status == Available && it.deferredUntil <= height && it.item.outHash == "")
      && forall it :: it in all && it.status == Available && it.deferredUntil <= height && it.item.outHash == "" ==> WorkLe(batch[0], it)
  {
    NoDemandLed(all, ds, leads);
    var work := AvailableWork(all, height);
    WorkIsReady(all, height);
    NextBatchIsSome(work);
    if work != [] {
      BatchInOrder(work);
      forall it | it in work ensures WorkLe(work[0], it) {
        var k :| 0 <= k < |work| && work[k] == it;
      }
      assert work[0] in work;
    } else {
      assert forall it :: it !in work;
    }
  }

  // ---- outcomes ----

  datatype Signing = Success(txid: string, raw: Bytes) | Failure

  /** Division that rounds towards zero. */
  function DivTrunc(a: int, b: int): int
    requires b > 0
  {
    if a >= 0 then a / b else -(-a / b)
  }

  function NextAttemptHeight(txHeight: int, blockHeight: int, period: int): int {
    if period > 0 then txHeight + (DivTrunc(blockHeight - txHeight, period) + 1) * period else blockHeight + 1
  }

  /** A deferral always ends later than now, and within one period of the later height. */
  lemma NextAttemptIsLater(txHeight: int, blockHeight: int, period: int)
    ensures NextAttemptHeight(txHeight, blockHeight, period) > blockHeight
    ensures period > 0 ==> NextAttemptHeight(txHeight, blockHeight, period) <= (if blockHeight >= txHeight then blockHeight else txHeight) + period
  {
    if period > 0 {
      var d := blockHeight - txHeight;
      var q := DivTrunc(d, period);
      if d >= 0 {
        assert d == q * period + d % period;
      } else {
        var n := -d;
        assert n == (n / period) * period + n % period;
        assert (q + 1) * period == -((n / period) * period) + period;
      }
    }
  }

  /** The height an attempt is put off to: after `now`, in step with the first height, and the nearest such one
      when that height is not ahead; from a height ahead, one period further. */
  predicate PutOff(first: int, now: int, period: int, until: int) {
    if period <= 0 then until == now + 1
    else
      && (until - first) % period == 0
      && if first <= now then now < until <= now + period else now + period <= until < now + 2 * period
  }

  lemma NextAttemptIsPutOff(first: int, now: int, period: int)
    ensures PutOff(first, now, period, NextAttemptHeight(first, now, period))
  {
    if period > 0 {
      var d := now - first;
      var q := DivTrunc(d, period);
      StepIsMultiple(q + 1, period);
      if d >= 0 {
        assert d == q * period + d % period;
      } else {
        var n := -d;
        assert n == (n / period) * period + n % period;
        assert (q + 1) * period == -((n / period) * period) + period;
      }
    }
  }

  lemma MultipleGrows(k: int, period: int)
    requires period > 0
    ensures k >= 1 ==> k * period >= period
    ensures k <= -1 ==> k * period <= -period
  {
    if k >= 1 {
      assert (k - 1) * period >= 0;
    } else if k <= -1 {
      assert (-1 - k) * period >= 0;
    }
  }

  lemma StepIsMultiple(k: int, period: int)
    requires period > 0
    ensures (k * period) % period == 0
  {
    var x := k * period;
    var r, c := x % period, x / period;
    assert x == c * period + r;
    MultipleGrows(k - c, period);
    assert (k - c) * period == k * period - c * period;
  }

  lemma NearMultiples(x: int, y: int, period: int)
    requires period > 0 && x % period == 0 && y % period == 0 && -period < x - y < period
    ensures x == y
  {
    var a, b := x / period, y / period;
    assert x == a * period && y == b * period;
    MultipleGrows(a - b, period);
    assert (a - b) * period == a * period - b * period;
  }

  /** There is only one such height. */
  lemma PutOffUnique(first: int, now: int, period: int, a: int, b: int)
    requires PutOff(first, now, period, a) && PutOff(first, now, period, b)
    ensures a == b
  {
    if period > 0 {
      NearMultiples(a - first, b - first, period);
    }
  }

  function Done(it: StoreItem, txid: string, raw: Bytes): StoreItem {
    it.(status := Broadcast, item := it.item.(outHash := txid), signedTx := Some(raw))
  }

  function PutAll(store: Store, items: seq<StoreItem>): Store
    decreases |items|
  {
    if items == [] then store else PutAll(store[KeyOf(items[0]) := items[0]], items[1..])
  }

  function DoneAll(batch: seq<StoreItem>, txid: string, raw: Bytes): (s: seq<StoreItem>)
    ensures |s| == |batch| && forall k :: 0 <= k < |batch| ==> s[k] == Done(batch[k], txid, raw)
  {
    seq(|batch|, k requires 0 <= k < |batch| => Done(batch[k], txid, raw))
  }

  function DeferAll(batch: seq<StoreItem>, until: int): (s: seq<StoreItem>)
    ensures |s| == |batch| && forall k :: 0 <= k < |batch| ==> s[k] == batch[k].(deferredUntil := until)
  {
    seq(|batch|, k requires 0 <= k < |batch| => batch[k].(deferredUntil := until))
  }

  function KeysOf(batch: seq<StoreItem>): (s: seq<Key>)
    ensures |s| == |batch| && forall k :: 0 <= k < |batch| ==> s[k] == KeyOf(batch[k])
  {
    seq(|batch|, k requires 0 <= k < |batch| => KeyOf(batch[k]))
  }

  function Finish(st: State, batch: seq<StoreItem>, height: int, period: int, outcome: Signing): State
    requires batch != []
  {
    match outcome
    case Success(txid, raw) => State(PutAll(st.store, DoneAll(batch, txid, raw)), st.sent + KeysOf(batch))
    case Failure =>
      st.(store := PutAll(st.store, DeferAll(batch, NextAttemptHeight(batch[0].height, height, period))))
  }

  /** A listing of the store: every item once. */
  ghost predicate Lists(store: Store, all: seq<StoreItem>) {
    && Distinct(all)
    && forall it :: it in all <==> KeyOf(it) in store && store[KeyOf(it)] == it
  }

  function Process(st: State, all: seq<StoreItem>, ds: seq<Demand>, leads: (Demand, seq<StoreItem>) -> bool,
                   height: int, period: int, outcome: Signing): State
  {
    var b := ChooseBatch(all, ds, leads, height);
    if b.Some? && b.value != [] then Finish(st, b.value, height, period, outcome) else st
  }

  // ---- the code ----

  /** The durable store. */
  class SignerStore {
    var items: Store

    constructor ()
      ensures items == map[]
    {
      items := map[];
    }

    method Put(it: StoreItem)
      modifies this
      ensures items == old(items)[KeyOf(it) := it]
    {
      items := items[KeyOf(it) := it];
    }

    method Get(k: Key) returns (r: Option<StoreItem>)
      ensures r == if k in items then Some(items[k]) else None
    {
      r := if k in items then Some(items[k]) else None;
    }

    method Remove(k: Key)
      modifies this
      ensures items == old(items) - {k}
    {
      items := items - {k};
    }

    /** Every item once, in some order. */
    method List() returns (all: seq<StoreItem>)
      requires Keyed(items)
      ensures Lists(items, all)
    {
      all := [];
      var todo := items.Keys;
      while todo != {}
        invariant todo <= items.Keys && Distinct(all)
        invariant forall it :: it in all <==> KeyOf(it) in items && items[KeyOf(it)] == it && KeyOf(it) !in todo
        decreases |todo|
      {
        var k :| k in todo;
        all := all + [items[k]];
        todo := todo - {k};
      }
    }
  }

  class SignLoop {
    const store: SignerStore
    const period: int
    var sent: seq<Key>

    constructor (store: SignerStore, period: int)
      ensures this.store == store && this.period == period && sent == []
    {
      this.store := store;
      this.period := period;
      sent := [];
    }

    ghost function Value(): State
      reads this, store
    {
      State(store.items, sent)
    }

    /** Drop the items for which `gone` holds, walking a listing taken before. */
    method RemoveWhere(gone: StoreItem -> bool)
      requires Keyed(store.items)
      modifies store
      ensures store.items == map k | k in old(store.items) && !gone(old(store.items)[k]) :: old(store.items)[k]
    {
      var all := store.List();
      ghost var before := store.items;
      for i := 0 to |all|
        invariant forall k :: k in store.items <==> k in before && !(gone(before[k]) && before[k] in all[..i])
        invariant forall k :: k in store.items ==> store.items[k] == before[k]
      {
        if gone(all[i]) {
          store.Remove(KeyOf(all[i]));
        }
      }
      assert all[..|all|] == all;
    }

    method FetchWork(pending: set<(int, string)>, blocks: seq<Block>)
      requires Keyed(store.items)
      modifies store
      ensures store.items == QueueAll(Evict(old(store.items), pending), blocks)
    {
      RemoveWhere((it: StoreItem) => Open(it) && (it.height, it.item.inHash) !in pending);
      ghost var start := Evict(old(store.items), pending);
      assert store.items == start;
      for j := 0 to |blocks|
        invariant QueueAll(store.items, blocks[j..]) == QueueAll(start, blocks)
      {
        assert blocks[j..][0] == blocks[j] && blocks[j..][1..] == blocks[j + 1..];
        var b := blocks[j];
        ghost var before := store.items;
        for i := 0 to |b.items|
          invariant QueueBlock(store.items, b, i) == QueueBlock(before, b, 0)
        {
          if b.items[i].outHash == "" {
            var it := StoreItem(b.items[i], Available, b.height, i, b.epoch, 0, b.retryUntil, None);
            var had := store.Get(KeyOf(it));
            if had.None? {
              store.Put(it);
            }
          }
        }
      }
    }

    method RetireStale(height: int)
      requires Keyed(store.items)
      modifies store
      ensures store.items == Retire(old(store.items), height)
      ensures forall k :: k in store.items <==> k in old(store.items) && var it := old(store.items)[k];
        !(it.status == Available && it.item.outHash == "" && it.retryUntil > 0 && height > it.retryUntil)
      ensures forall k :: k in store.items ==> store.items[k] == old(store.items)[k]
    {
      RemoveWhere((it: StoreItem) => Open(it) && it.retryUntil > 0 && height > it.retryUntil);
    }

    /** Put every item of a list. */
    method PutEach(items: seq<StoreItem>)
      modifies store
      ensures store.items == PutAll(old(store.items), items)
    {
      ghost var before := store.items;
      for i := 0 to |items|
        invariant PutAll(store.items, items[i..]) == PutAll(before, items)
      {
        assert items[i..][0] == items[i] && items[i..][1..] == items[i + 1..];
        store.Put(items[i]);
      }
    }

    /** One batch: demanded by members first, else the head of the queue. */
    method ProcessNext(ds: seq<Demand>, leads: (Demand, seq<StoreItem>) -> bool, height: int, outcome: Signing)
      returns (signed: bool, ghost all: seq<StoreItem>)
      requires Keyed(store.items)
      modifies this, store
      ensures Lists(old(store.items), all)
      ensures Value() == Process(old(Value()), all, ds, leads, height, period, outcome)
      ensures signed <==> outcome.Success? && ChooseBatch(all, ds, leads, height).Some?
    {
      var list := store.List();
      all := list;
      var b := ChooseBatch(list, ds, leads, height);
      ChosenIsSome(list, ds, leads, height);
      if b.None? {
        return false, all;
      }
      var batch := b.value;
      match outcome {
        case Success(txid, raw) =>
          PutEach(DoneAll(batch, txid, raw));
          sent := sent + KeysOf(batch);
          signed := true;
        case Failure =>
          PutEach(DeferAll(batch, NextAttemptHeight(batch[0].height, height, period)));
          signed := false;
      }
    }
  }
}

/** What every run of ticks keeps. */
module SignLoopRuns {
  import opened Sorting
  import opened Names
  import opened Batching
  import opened SignLoop

  datatype Step =
    | Fetch(pending: set<(int, string)>, blocks: seq<Block>)
    | RetireAt(height: int)
    | Sign(all: seq<StoreItem>, demands: seq<Demand>, leads: (Demand, seq<StoreItem>) -> bool, now: int, period: int, outcome: Signing)

  ghost predicate Enabled(st: State, step: Step) {
    step.Sign? ==> Lists(st.store, step.all)
  }

  function Next(st: State, step: Step): State {
    match step
    case Fetch(pending, blocks) => st.(store := QueueAll(Evict(st.store, pending), blocks))
    case RetireAt(h) => st.(store := Retire(st.store, h))
    case Sign(all, ds, leads, now, period, outcome) => Process(st, all, ds, leads, now, period, outcome)
  }

  /** This key is stored as broadcast. */
  predicate IsBroadcast(store: Store, k: Key) {
    k in store && store[k].status == Broadcast
  }

  /** Broadcast items stay exactly as they are. */
  ghost predicate KeepsBroadcast(before: Store, after: Store) {
    forall k :: IsBroadcast(before, k) ==> k in after && after[k] == before[k]
  }

  ghost predicate Inv(st: State) {
    Keyed(st.store) && Distinct(st.sent) && forall i :: 0 <= i < |st.sent| ==> IsBroadcast(st.store, st.sent[i])
  }

  // ---- fetching and retiring ----

  lemma {:induction false} QueueBlockKeeps(store: Store, b: Block, i: nat)
    requires Keyed(store) && i <= |b.items|
    ensures Keyed(QueueBlock(store, b, i))
    ensures forall k :: k in store ==> k in QueueBlock(store, b, i) && QueueBlock(store, b, i)[k] == store[k]
    decreases |b.items| - i
  {
    if i < |b.items| {
      QueueBlockKeeps(PutIfAbsent(store, NewItem(b, i)), b, i + 1);
    }
  }

  lemma {:induction false} QueueAllKeeps(store: Store, bs: seq<Block>)
    requires Keyed(store)
    ensures Keyed(QueueAll(store, bs))
    ensures forall k :: k in store ==> k in QueueAll(store, bs) && QueueAll(store, bs)[k] == store[k]
    decreases |bs|
  {
    if bs != [] {
      QueueBlockKeeps(store, bs[0], 0);
      QueueAllKeeps(QueueBlock(store, bs[0], 0), bs[1..]);
    }
  }

  // ---- signing ----

  /** A batch of stored, unsigned items with different keys. */
  ghost predicate Takes(store: Store, batch: seq<StoreItem>) {
    && Distinct(KeysOf(batch))
    && forall i :: 0 <= i < |batch| ==> KeyOf(batch[i]) in store && store[KeyOf(batch[i])] == batch[i] && Open(batch[i])
  }

  lemma NextBatchTakes(store: Store, from: seq<StoreItem>, batch: seq<StoreItem>)
    requires Distinct(from) && NextBatch(from) == Some(batch)
    requires forall it :: it in from ==> KeyOf(it) in store && store[KeyOf(it)] == it && Open(it)
    ensures Takes(store, batch)
  {
    assert from[0] in from;
    if SourceInputsKey(from[0]) != [] {
      var key := SourceInputsKey(from[0]);
      DistinctFilter((it: StoreItem) => SourceInputsKey(it) == key, from);
    }
    forall i | 0 <= i < |batch| ensures KeyOf(batch[i]) in store && store[KeyOf(batch[i])] == batch[i] && Open(batch[i]) {
      assert batch[i] in batch;
    }
    forall i, j | 0 <= i < j < |batch| ensures KeysOf(batch)[i] != KeysOf(batch)[j] {
      assert batch[i] != batch[j];
    }
  }

  lemma DistinctSort(items: seq<StoreItem>, height: int)
    requires Distinct(items)
    ensures Distinct(AvailableWork(items, height))
  {
    var p := (it: StoreItem) => Ready(it, height);
    DistinctFilter(p, items);
    WorkLeIsPreorder();
    SortSorts(WorkLe, Filter(p, items));
    DistinctByCount(Filter(p, items), AvailableWork(items, height));
  }

  lemma {:induction false} DemandedTakes(store: Store, all: seq<StoreItem>, ds: seq<Demand>, leads: (Demand, seq<StoreItem>) -> bool)
    requires Lists(store, all) && DemandedBatch(all, ds, leads).Some?
    ensures Takes(store, DemandedBatch(all, ds, leads).value)
    decreases |ds|
  {
    var d := ds[0];
    var b := DemandedBy(all, d);
    if b.Some? && leads(d, b.value) {
      var p := (it: StoreItem) => it.epoch == d.epoch && it.height == d.height && Open(it);
      DistinctFilter(p, all);
      NextBatchTakes(store, Filter(p, all), b.value);
    } else {
      DemandedTakes(store, all, ds[1..], leads);
    }
  }

  lemma ChosenTakes(store: Store, all: seq<StoreItem>, ds: seq<Demand>, leads: (Demand, seq<StoreItem>) -> bool, height: int)
    requires Lists(store, all) && ChooseBatch(all, ds, leads, height).Some?
    ensures Takes(store, ChooseBatch(all, ds, leads, height).value)
  {
    if DemandedBatch(all, ds, leads).Some? {
      DemandedTakes(store, all, ds, leads);
    } else {
      WorkIsReady(all, height);
      DistinctSort(all, height);
      NextBatchTakes(store, AvailableWork(all, height), ChooseBatch(all, ds, leads, height).value);
    }
  }

  /** Putting items with different keys changes exactly those keys. */
  lemma {:induction false} PutAllAt(store: Store, items: seq<StoreItem>, k: Key)
    requires Distinct(KeysOf(items))
    ensures k in PutAll(store, items) <==> k in store || k in KeysOf(items)
    ensures k !in KeysOf(items) && k in store ==> PutAll(store, items)[k] == store[k]
    ensures forall i :: 0 <= i < |items| && KeyOf(items[i]) == k ==> PutAll(store, items)[k] == items[i]
    decreases |items|
  {
    if items != [] {
      var rest := items[1..];
      assert KeysOf(items) == [KeyOf(items[0])] + KeysOf(rest);
      assert forall i :: 0 <= i < |rest| ==> KeysOf(rest)[i] == KeysOf(items)[i + 1];
      PutAllAt(store[KeyOf(items[0]) := items[0]], rest, k);
      forall i | 0 <= i < |items| && KeyOf(items[i]) == k ensures PutAll(store, items)[k] == items[i] {
        if i > 0 {
          assert rest[i - 1] == items[i];
        } else {
          assert KeysOf(items)[0] == k;
          assert k !in KeysOf(rest);
        }
      }
    }
  }

  lemma PutAllKeyed(store: Store, items: seq<StoreItem>)
    requires Keyed(store) && Distinct(KeysOf(items))
    ensures Keyed(PutAll(store, items))
  {
    forall k | k in PutAll(store, items) ensures KeyOf(PutAll(store, items)[k]) == k {
      PutAllAt(store, items, k);
      if k in KeysOf(items) {
        var i :| 0 <= i < |items| && KeysOf(items)[i] == k;
        assert KeyOf(items[i]) == k;
      }
    }
  }

  /** Replacing the items of a batch, key by key, leaves broadcast items alone. */
  lemma ReplaceKeeps(store: Store, batch: seq<StoreItem>, items: seq<StoreItem>)
    requires Keyed(store) && Takes(store, batch) && KeysOf(items) == KeysOf(batch)
    ensures Keyed(PutAll(store, items)) && KeepsBroadcast(store, PutAll(store, items))
  {
    PutAllKeyed(store, items);
    forall k | IsBroadcast(store, k) ensures k in PutAll(store, items) && PutAll(store, items)[k] == store[k] {
      assert k !in KeysOf(batch);
      PutAllAt(store, items, k);
    }
  }

  lemma SuccessKeeps(st: State, batch: seq<StoreItem>, txid: string, raw: seq<Bytes.byte>)
    requires Inv(st) && Takes(st.store, batch)
    ensures var after := PutAll(st.store, DoneAll(batch, txid, raw));
      Inv(State(after, st.sent + KeysOf(batch))) && KeepsBroadcast(st.store, after)
  {
    var done, keys := DoneAll(batch, txid, raw), KeysOf(batch);
    var after := PutAll(st.store, done);
    assert KeysOf(done) == keys;
    ReplaceKeeps(st.store, batch, done);
    forall i | 0 <= i < |keys| ensures IsBroadcast(after, keys[i]) {
      PutAllAt(st.store, done, keys[i]);
      assert KeyOf(done[i]) == keys[i];
    }
    forall i, j | 0 <= i < |st.sent| && 0 <= j < |keys| ensures st.sent[i] != keys[j] {
      assert IsBroadcast(st.store, st.sent[i]);
      assert st.store[KeyOf(batch[j])] == batch[j] && Open(batch[j]);
    }
    var sent := st.sent + keys;
    forall i, j | 0 <= i < j < |sent| ensures sent[i] != sent[j] {
    }
  }

  lemma FailureKeeps(st: State, batch: seq<StoreItem>, until: int)
    requires Inv(st) && Takes(st.store, batch)
    ensures var after := PutAll(st.store, DeferAll(batch, until)); Inv(st.(store := after)) && KeepsBroadcast(st.store, after)
  {
    var items := DeferAll(batch, until);
    assert KeysOf(items) == KeysOf(batch);
    ReplaceKeeps(st.store, batch, items);
  }

  lemma SignKeeps(st: State, step: Step)
    requires Inv(st) && step.Sign? && Enabled(st, step)
    ensures Inv(Next(st, step)) && KeepsBroadcast(st.store, Next(st, step).store)
  {
    var b := ChooseBatch(step.all, step.demands, step.leads, step.now);
    if b.Some? && b.value != [] {
      ChosenTakes(st.store, step.all, step.demands, step.leads, step.now);
      match step.outcome
      case Success(txid, raw) => SuccessKeeps(st, b.value, txid, raw);
      case Failure => FailureKeeps(st, b.value, NextAttemptHeight(b.value[0].height, step.now, step.period));
    }
  }

  lemma StepKeeps(st: State, step: Step)
    requires Inv(st) && Enabled(st, step)
    ensures Inv(Next(st, step)) && KeepsBroadcast(st.store, Next(st, step).store)
    ensures st.sent <= Next(st, step).sent
  {
    match step
    case Fetch(pending, blocks) => QueueAllKeeps(Evict(st.store, pending), blocks);
    case RetireAt(_) =>
    case Sign(_, _, _, _, _, _) => SignKeeps(st, step);
  }

  // ---- what one attempt does ----

  /** Only these keys change. */
  ghost predicate Elsewhere(before: Store, after: Store, batch: seq<StoreItem>) {
    after.Keys == before.Keys && forall k :: k in before && k !in KeysOf(batch) ==> after[k] == before[k]
  }

  /** Putting items under the keys of a stored batch. */
  lemma ReplacedAt(store: Store, batch: seq<StoreItem>, items: seq<StoreItem>)
    requires Takes(store, batch) && KeysOf(items) == KeysOf(batch)
    ensures Elsewhere(store, PutAll(store, items), batch)
    ensures forall i :: 0 <= i < |batch| ==>
      KeyOf(batch[i]) in PutAll(store, items) && PutAll(store, items)[KeyOf(batch[i])] == items[i]
  {
    var after := PutAll(store, items);
    forall k ensures (k in after <==> k in store) && (k in store && k !in KeysOf(batch) ==> after[k] == store[k]) {
      PutAllAt(store, items, k);
      if k in KeysOf(batch) {
        var i :| 0 <= i < |batch| && KeysOf(batch)[i] == k;
        assert KeyOf(batch[i]) == k;
      }
    }
    forall i | 0 <= i < |batch| ensures KeyOf(batch[i]) in after && after[KeyOf(batch[i])] == items[i] {
      PutAllAt(store, items, KeyOf(batch[i]));
      assert KeysOf(items)[i] == KeysOf(batch)[i];
    }
  }

  /** A failed attempt changes nothing but when the items of its batch are tried again: all at one height,
      after now and in step with the first item's height, so none of them is ready now. */
  lemma FailureDefers(st: State, step: Step, batch: seq<StoreItem>) returns (until: int)
    requires step.Sign? && Enabled(st, step) && step.outcome.Failure?
    requires ChooseBatch(step.all, step.demands, step.leads, step.now) == Some(batch)
    ensures batch != [] && PutOff(batch[0].height, step.now, step.period, until) && until > step.now
    ensures Next(st, step).sent == st.sent && Elsewhere(st.store, Next(st, step).store, batch)
    ensures forall i :: 0 <= i < |batch| ==>
      var k := KeyOf(batch[i]);
      && k in st.store && st.store[k] == batch[i] && k in Next(st, step).store
      && Next(st, step).store[k] == batch[i].(deferredUntil := until)
      && !Ready(Next(st, step).store[k], step.now)
  {
    ChosenTakes(st.store, step.all, step.demands, step.leads, step.now);
    ChosenIsSome(step.all, step.demands, step.leads, step.now);
    until := NextAttemptHeight(batch[0].height, step.now, step.period);
    NextAttemptIsPutOff(batch[0].height, step.now, step.period);
    var items := DeferAll(batch, until);
    assert KeysOf(items) == KeysOf(batch);
    ReplacedAt(st.store, batch, items);
  }

  /** A successful one marks the items of its batch broadcast with their transaction and changes nothing else. */
  lemma SuccessMarks(st: State, step: Step, batch: seq<StoreItem>)
    requires step.Sign? && Enabled(st, step) && step.outcome.Success?
    requires ChooseBatch(step.all, step.demands, step.leads, step.now) == Some(batch)
    ensures Elsewhere(st.store, Next(st, step).store, batch) && Next(st, step).sent == st.sent + KeysOf(batch)
    ensures forall i :: 0 <= i < |batch| ==>
      var k := KeyOf(batch[i]);
      && k in st.store && st.store[k] == batch[i] && k in Next(st, step).store
      && Next(st, step).store[k] == batch[i].(status := Broadcast, item := batch[i].item.(outHash := step.outcome.txid),
                                               signedTx := Some(step.outcome.raw))
  {
    ChosenTakes(st.store, step.all, step.demands, step.leads, step.now);
    ChosenIsSome(step.all, step.demands, step.leads, step.now);
    var items := DoneAll(batch, step.outcome.txid, step.outcome.raw);
    assert KeysOf(items) == KeysOf(batch);
    ReplacedAt(st.store, batch, items);
  }

  // ---- what fetching does ----

  /** The block lists unsigned work at its `i`-th place, stored under `k`. */
  predicate ListedAt(b: Block, i: nat, k: Key) {
    i < |b.items| && b.items[i].outHash == "" && k == Key(b.items[i].inHash, b.height, i)
  }

  ghost predicate Listed(bs: seq<Block>, k: Key, it: StoreItem) {
    exists j, i: nat :: 0 <= j < |bs| && ListedFrom(bs[j], i, k, it)
  }

  predicate ListedFrom(b: Block, i: nat, k: Key, it: StoreItem) {
    ListedAt(b, i, k) && it == StoreItem(b.items[i], Available, b.height, i, b.epoch, 0, b.retryUntil, None)
  }

  lemma {:induction false} QueueBlockIs(store: Store, b: Block, i: nat, k: Key)
    requires i <= |b.items|
    ensures var after := QueueBlock(store, b, i);
      && (k in after <==> k in store || exists n: nat :: n >= i && ListedAt(b, n, k))
      && (k in store ==> after[k] == store[k])
      && (k in after && k !in store ==> exists n: nat :: n >= i && ListedFrom(b, n, k, after[k]))
    decreases |b.items| - i
  {
    if i < |b.items| {
      var next := PutIfAbsent(store, NewItem(b, i));
      QueueBlockIs(next, b, i + 1, k);
      if k in next && k !in store {
        assert ListedFrom(b, i, k, next[k]);
      }
    }
  }

  lemma {:induction false} QueueAllIs(store: Store, bs: seq<Block>, k: Key)
    ensures var after := QueueAll(store, bs);
      && (k in after <==> k in store || exists it :: Listed(bs, k, it))
      && (k in store ==> after[k] == store[k])
      && (k in after && k !in store ==> Listed(bs, k, after[k]))
    decreases |bs|
  {
    if bs != [] {
      var next := QueueBlock(store, bs[0], 0);
      QueueBlockIs(store, bs[0], 0, k);
      QueueAllIs(next, bs[1..], k);
      forall it | Listed(bs[1..], k, it) ensures Listed(bs, k, it) {
        var j, i: nat :| 0 <= j < |bs[1..]| && ListedFrom(bs[1..][j], i, k, it);
        assert ListedFrom(bs[j + 1], i, k, it);
      }
      if k in next && k !in store {
        var n: nat :| ListedFrom(bs[0], n, k, next[k]);
        assert Listed(bs, k, next[k]);
      }
      if it :| Listed(bs, k, it) {
        var j, i: nat :| 0 <= j < |bs| && ListedFrom(bs[j], i, k, it);
        if j == 0 {
          assert ListedAt(bs[0], i, k);
        } else {
          assert ListedFrom(bs[1..][j - 1], i, k, it);
          assert Listed(bs[1..], k, it);
        }
      }
    }
  }

  /** Unsigned work the chain does not list any more. */
  predicate Dropped(it: StoreItem, pending: set<(int, string)>) {
    it.status == Available && it.item.outHash == "" && (it.height, it.item.inHash) !in pending
  }

  /** After fetching, the store holds exactly what it held and the chain has not dropped, unchanged, and
      what the blocks list as unsigned, new and undeferred. */
  lemma FetchIs(st: State, pending: set<(int, string)>, bs: seq<Block>, k: Key)
    ensures var after := Next(st, Fetch(pending, bs)).store;
      var kept := k in st.store && !Dropped(st.store[k], pending);
      && (k in after <==> kept || exists it :: Listed(bs, k, it))
      && (kept ==> after[k] == st.store[k])
      && (k in after && !kept ==> Listed(bs, k, after[k]))
  {
    QueueAllIs(Evict(st.store, pending), bs, k);
  }

  // ---- runs ----

  ghost predicate Run(st: State, steps: seq<Step>, end: State)
    decreases |steps|
  {
    if steps == [] then st == end else Enabled(st, steps[0]) && Run(Next(st, steps[0]), steps[1..], end)
  }

  lemma {:induction false} RunKeeps(st: State, steps: seq<Step>, end: State)
    requires Inv(st) && Run(st, steps, end)
    ensures Inv(end) && KeepsBroadcast(st.store, end.store) && st.sent <= end.sent
    decreases |steps|
  {
    if steps != [] {
      StepKeeps(st, steps[0]);
      RunKeeps(Next(st, steps[0]), steps[1..], end);
      BroadcastTrans(st.store, Next(st, steps[0]).store, end.store);
    }
  }

  lemma BroadcastTrans(a: Store, b: Store, c: Store)
    requires KeepsBroadcast(a, b) && KeepsBroadcast(b, c)
    ensures KeepsBroadcast(a, c)
  {
  }

  /** Over every run of ticks from an empty store, no key is broadcast twice, every key broadcast
      is stored as broadcast, and from any point on such an item never changes again. */
  lemma BroadcastOnce(before: seq<Step>, mid: State, after: seq<Step>, end: State)
    requires Run(State(map[], []), before, mid) && Run(mid, after, end)
    ensures Distinct(end.sent) && mid.sent <= end.sent
    ensures forall i :: 0 <= i < |end.sent| ==> IsBroadcast(end.store, end.sent[i])
    ensures forall k :: IsBroadcast(mid.store, k) ==> k in end.store && end.store[k] == mid.store[k]
  {
    RunKeeps(State(map[], []), before, mid);
    RunKeeps(mid, after, end);
  }
}
