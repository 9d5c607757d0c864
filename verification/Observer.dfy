/** The reorg-aware block observer: the block-meta table, the common-ancestor walk and the
    scan to the tip, over chains whose block hashes name their blocks. */
module Observer {
  import opened Names

  datatype Tx = Tx(txid: string, outputs: seq<string>)

  datatype Block = Block(height: int, prev: string, hash: string, txs: seq<Tx>)

  datatype BlockMeta = BlockMeta(height: int, prev: string, hash: string, customerTxs: seq<string>)

  // ---- hashes and chains ----

  function LowerChar(c: char): char {
    if 'A' <= c <= 'Z' then c + 32 as char else c
  }

  function Fold(s: string): string {
    seq(|s|, i requires 0 <= i < |s| => LowerChar(s[i]))
  }

  predicate EqIgnoreCase(a: string, b: string) {
    Fold(a) == Fold(b)
  }

  function CustomerTxs(txs: seq<Tx>): seq<string> {
    if txs == [] then []
    else if txs[0].outputs == [] then CustomerTxs(txs[1..])
    else [txs[0].txid] + CustomerTxs(txs[1..])
  }

  function MetaOf(b: Block): BlockMeta {
    BlockMeta(b.height, b.prev, b.hash, CustomerTxs(b.txs))
  }

  /** Texts are the same when they have the same length and differ at most in the case of letters. */
  lemma SameButCase(a: string, b: string)
    ensures EqIgnoreCase(a, b) <==> |a| == |b| && forall i :: 0 <= i < |a| ==>
      a[i] == b[i] || ('A' <= a[i] <= 'Z' && b[i] == a[i] + 32 as char) || ('A' <= b[i] <= 'Z' && a[i] == b[i] + 32 as char)
  {
    if Fold(a) == Fold(b) {
      forall i | 0 <= i < |a|
        ensures a[i] == b[i] || ('A' <= a[i] <= 'Z' && b[i] == a[i] + 32 as char) || ('A' <= b[i] <= 'Z' && a[i] == b[i] + 32 as char)
      {
        assert Fold(a)[i] == Fold(b)[i];
      }
    }
  }

  /** What is recorded of a block's transactions: the ids of those with outputs, in order, each as often. */
  lemma {:induction false} CustomerTxsAppend(txs: seq<Tx>, tx: Tx)
    ensures CustomerTxs(txs + [tx]) == CustomerTxs(txs) + if tx.outputs != [] then [tx.txid] else []
    ensures forall id :: id in CustomerTxs(txs) <==> exists t :: t in txs && t.outputs != [] && t.txid == id
  {
    if txs == [] {
      assert txs + [tx] == [tx] && [tx][1..] == [];
    } else {
      assert (txs + [tx])[0] == txs[0] && (txs + [tx])[1..] == txs[1..] + [tx];
      CustomerTxsAppend(txs[1..], tx);
      assert txs == [txs[0]] + txs[1..];
    }
  }

  /** Hashes are non-empty and, whatever their case, name one block each. */
  ghost predicate NoCollisions(blocks: iset<Block>) {
    && (forall b :: b in blocks ==> b.hash != "")
    && forall b, d {:trigger EqIgnoreCase(b.hash, d.hash)} :: b in blocks && d in blocks && EqIgnoreCase(b.hash, d.hash) ==> b == d
  }

  predicate Linked(chain: seq<Block>) {
    && (forall i :: 0 <= i < |chain| ==> chain[i].height == i)
    && forall i {:trigger LinkedAt(chain, i)} :: 0 < i < |chain| ==> LinkedAt(chain, i)
  }

  /** The block at `i` names the one before it. */
  predicate LinkedAt(chain: seq<Block>, i: int) {
    0 < i < |chain| && EqIgnoreCase(chain[i].prev, chain[i - 1].hash)
  }

  ghost predicate ValidChain(blocks: iset<Block>, chain: seq<Block>) {
    Linked(chain) && forall i :: 0 <= i < |chain| ==> chain[i] in blocks
  }

  // ---- the walk back to the common ancestor ----

  predicate IsReorg(metas: map<int, BlockMeta>, height: int, prev: string) {
    height - 1 in metas && !EqIgnoreCase(metas[height - 1].hash, prev)
  }

  function Earliest(height: int, maxRescan: int): int {
    if height - maxRescan >= 1 then height - maxRescan else 1
  }

  function HashAt(chain: seq<Block>, h: int): Option<string> {
    if 0 <= h < |chain| then Some(chain[h].hash) else None
  }

  /** The heights collected from `i` down to `earliest`. */
  function Walk(metas: map<int, BlockMeta>, chain: seq<Block>, i: int, earliest: int): seq<int>
    decreases i - earliest
  {
    if i < earliest then []
    else if i !in metas then Walk(metas, chain, i - 1, earliest)
    else
      match HashAt(chain, metas[i].height)
      case None => Walk(metas, chain, i - 1, earliest)
      case Some(hash) =>
        if hash == "" then Walk(metas, chain, i - 1, earliest)
        else if EqIgnoreCase(metas[i].hash, hash) then []
        else [metas[i].height] + Walk(metas, chain, i - 1, earliest)
  }

  /** Every meta is stored under its own height. */
  predicate Keyed(metas: map<int, BlockMeta>) {
    forall h :: h in metas ==> metas[h].height == h
  }

  method ReconfirmHeights(metas: map<int, BlockMeta>, height: int, maxRescan: int, window: map<int, string>, ghost chain: seq<Block>)
    returns (rescan: seq<int>)
    requires Keyed(metas)
    requires forall h :: Earliest(height, maxRescan) <= h < height ==>
      (h in window <==> HashAt(chain, h).Some?) && (h in window ==> Some(window[h]) == HashAt(chain, h))
    ensures rescan == Walk(metas, chain, height - 1, Earliest(height, maxRescan))
  {
    var earliest := Earliest(height, maxRescan);
    rescan := [];
    var i := height - 1;
    while i >= earliest
      invariant i < height
      invariant rescan + Walk(metas, chain, i, earliest) == Walk(metas, chain, height - 1, earliest)
      decreases i - earliest
    {
      if i in metas && metas[i].height in window && window[metas[i].height] != "" {
        if EqIgnoreCase(metas[i].hash, window[metas[i].height]) {
          return;
        }
        rescan := rescan + [metas[i].height];
      }
      i := i - 1;
    }
  }

  // ---- scanning ----

  predicate Within(heights: seq<int>, n: nat) {
    forall k :: 0 <= k < |heights| ==> 0 <= heights[k] < n
  }

  /** Record the blocks at these heights. */
  function Record(metas: map<int, BlockMeta>, chain: seq<Block>, heights: seq<int>): map<int, BlockMeta>
    requires Within(heights, |chain|)
    decreases |heights|
  {
    if heights == [] then metas
    else Record(metas[chain[heights[0]].height := MetaOf(chain[heights[0]])], chain, heights[1..])
  }

  lemma {:induction false} WalkInRange(metas: map<int, BlockMeta>, chain: seq<Block>, i: int, earliest: int)
    requires Keyed(metas) && earliest >= 0
    ensures Within(Walk(metas, chain, i, earliest), |chain|)
    decreases i - earliest
  {
    if i >= earliest {
      WalkInRange(metas, chain, i - 1, earliest);
    }
  }

  /** The heights one iteration rescans before its own. */
  function Rescan(metas: map<int, BlockMeta>, chain: seq<Block>, height: int, maxRescan: nat): (hs: seq<int>)
    requires Keyed(metas) && 0 <= height < |chain|
    ensures Within(hs, |chain|)
  {
    if IsReorg(metas, height, chain[height].prev) then
      WalkInRange(metas, chain, height - 1, Earliest(height, maxRescan));
      Walk(metas, chain, height - 1, Earliest(height, maxRescan))
    else []
  }

  lemma {:induction false} RecordKeyed(metas: map<int, BlockMeta>, chain: seq<Block>, heights: seq<int>)
    requires Keyed(metas) && Linked(chain) && Within(heights, |chain|)
    ensures Keyed(Record(metas, chain, heights))
    decreases |heights|
  {
    if heights != [] {
      RecordKeyed(metas[heights[0] := MetaOf(chain[heights[0]])], chain, heights[1..]);
    }
  }

  function Visited(metas: map<int, BlockMeta>, chain: seq<Block>, height: int, maxRescan: nat): (hs: seq<int>)
    requires Keyed(metas) && 0 <= height < |chain|
    ensures Within(hs, |chain|)
  {
    Rescan(metas, chain, height, maxRescan) + [height]
  }

  /** All heights a scan extracts and records, in order, starting at `height`. */
  function ScanHeights(metas: map<int, BlockMeta>, chain: seq<Block>, height: nat, maxRescan: nat): (hs: seq<int>)
    requires Keyed(metas) && Linked(chain)
    ensures Within(hs, |chain|)
    decreases |chain| - height
  {
    if height >= |chain| then []
    else
      var now := Visited(metas, chain, height, maxRescan);
      RecordKeyed(metas, chain, now);
      now + ScanHeights(Record(metas, chain, now), chain, height + 1, maxRescan)
  }

  /** The observations of the blocks at these heights. */
  function Extracted<T>(extract: Block -> seq<T>, chain: seq<Block>, heights: seq<int>): seq<T>
    requires Within(heights, |chain|)
  {
    if heights == [] then [] else extract(chain[heights[0]]) + Extracted(extract, chain, heights[1..])
  }

  lemma {:induction false} RecordAppend(metas: map<int, BlockMeta>, chain: seq<Block>, a: seq<int>, b: seq<int>)
    requires Within(a, |chain|) && Within(b, |chain|)
    ensures Record(metas, chain, a + b) == Record(Record(metas, chain, a), chain, b)
    decreases |a|
  {
    if a == [] {
      assert a + b == b;
    } else {
      assert (a + b)[1..] == a[1..] + b && (a + b)[0] == a[0];
      RecordAppend(metas[chain[a[0]].height := MetaOf(chain[a[0]])], chain, a[1..], b);
    }
  }

  lemma {:induction false} ExtractedAppend<T>(extract: Block -> seq<T>, chain: seq<Block>, a: seq<int>, b: seq<int>)
    requires Within(a, |chain|) && Within(b, |chain|)
    ensures Extracted(extract, chain, a + b) == Extracted(extract, chain, a) + Extracted(extract, chain, b)
    decreases |a|
  {
    if a == [] {
      assert a + b == b;
    } else {
      assert (a + b)[1..] == a[1..] + b && (a + b)[0] == a[0];
      ExtractedAppend(extract, chain, a[1..], b);
    }
  }

  /** `done` are the heights visited on the way from `first` to `height`. */
  ghost predicate Progress(before: map<int, BlockMeta>, chain: seq<Block>, first: nat, maxRescan: nat,
                           height: nat, metas: map<int, BlockMeta>, done: seq<int>)
    requires Keyed(before) && Linked(chain)
  {
    && Keyed(metas) && Within(done, |chain|)
    && done + ScanHeights(metas, chain, height, maxRescan) == ScanHeights(before, chain, first, maxRescan)
    && metas == Record(before, chain, done)
  }

  lemma ScanUnfold(metas: map<int, BlockMeta>, chain: seq<Block>, height: nat, maxRescan: nat)
    returns (now: seq<int>, rest: seq<int>)
    requires Keyed(metas) && Linked(chain) && height < |chain|
    ensures now == Visited(metas, chain, height, maxRescan) && Keyed(Record(metas, chain, now))
    ensures rest == ScanHeights(Record(metas, chain, now), chain, height + 1, maxRescan)
    ensures ScanHeights(metas, chain, height, maxRescan) == now + rest
  {
    now := Visited(metas, chain, height, maxRescan);
    RecordKeyed(metas, chain, now);
    rest := ScanHeights(Record(metas, chain, now), chain, height + 1, maxRescan);
  }

  lemma WithinAppend(a: seq<int>, b: seq<int>, n: nat)
    requires Within(a, n) && Within(b, n)
    ensures Within(a + b, n)
  {
  }

  lemma RegroupHeights(a: seq<int>, b: seq<int>, c: seq<int>, all: seq<int>)
    requires a + (b + c) == all
    ensures (a + b) + c == all
  {
  }

  lemma ProgressStep(before: map<int, BlockMeta>, chain: seq<Block>, first: nat, maxRescan: nat,
                     height: nat, metas: map<int, BlockMeta>, done: seq<int>) returns (now: seq<int>)
    requires Keyed(before) && Linked(chain) && height < |chain| && Progress(before, chain, first, maxRescan, height, metas, done)
    ensures now == Visited(metas, chain, height, maxRescan)
    ensures Progress(before, chain, first, maxRescan, height + 1, Record(metas, chain, now), done + now)
  {
    var rest: seq<int>;
    now, rest := ScanUnfold(metas, chain, height, maxRescan);
    RecordAppend(before, chain, done, now);
    WithinAppend(done, now, |chain|);
    RegroupHeights(done, now, rest, ScanHeights(before, chain, first, maxRescan));
  }

  lemma ProgressEnds(before: map<int, BlockMeta>, chain: seq<Block>, first: nat, maxRescan: nat,
                     height: nat, metas: map<int, BlockMeta>, done: seq<int>)
    requires Keyed(before) && Linked(chain) && height >= |chain| && Progress(before, chain, first, maxRescan, height, metas, done)
    ensures done == ScanHeights(before, chain, first, maxRescan)
  {
  }

  /** The block-meta table. */
  class TemporalStore {
    var metas: map<int, BlockMeta>

    constructor ()
      ensures metas == map[]
    {
      metas := map[];
    }

    method SaveBlockMeta(meta: BlockMeta)
      modifies this
      ensures metas == old(metas)[meta.height := meta]
    {
      metas := metas[meta.height := meta];
    }
  }

  class Observer<T(!new)> {
    const maxRescan: nat
    const extract: Block -> seq<T>
    var lastScanned: int

    constructor (extract: Block -> seq<T>, start: int)
      ensures lastScanned == start && maxRescan == 100 && this.extract == extract
    {
      this.extract := extract;
      maxRescan := 100;
      lastScanned := start;
    }

    /** Extract and record the blocks at these heights. */
    method Visit(store: TemporalStore, chain: seq<Block>, heights: seq<int>) returns (found: seq<T>)
      requires Within(heights, |chain|)
      modifies store
      ensures store.metas == Record(old(store.metas), chain, heights)
      ensures found == Extracted(extract, chain, heights)
    {
      found := [];
      for k := 0 to |heights|
        invariant Record(store.metas, chain, heights[k..]) == Record(old(store.metas), chain, heights)
        invariant found + Extracted(extract, chain, heights[k..]) == Extracted(extract, chain, heights)
      {
        var b := chain[heights[k]];
        assert heights[k..][0] == heights[k] && heights[k..][1..] == heights[k + 1..];
        found := found + extract(b);
        store.SaveBlockMeta(MetaOf(b));
      }
    }

    /** The canonical hashes from `earliest` up to `height`. */
    static method FetchWindow(chain: seq<Block>, earliest: int, height: int) returns (window: map<int, string>)
      requires 0 <= earliest && height <= |chain|
      ensures forall g :: g in window <==> earliest <= g < height
      ensures forall g :: g in window ==> window[g] == chain[g].hash
    {
      window := map[];
      var h := earliest;
      while h < height
        invariant earliest <= h && (h <= height || h == earliest)
        invariant forall g :: g in window <==> earliest <= g < h
        invariant forall g :: g in window ==> window[g] == chain[g].hash
      {
        window := window[h := chain[h].hash];
        h := h + 1;
      }
    }

    /** One iteration of the scan: the rescanned heights, then the new one. */
    method ScanBlock(store: TemporalStore, chain: seq<Block>, height: nat) returns (found: seq<T>)
      requires Keyed(store.metas) && Linked(chain) && height < |chain|
      modifies store
      ensures store.metas == Record(old(store.metas), chain, Visited(old(store.metas), chain, height, maxRescan))
      ensures found == Extracted(extract, chain, Visited(old(store.metas), chain, height, maxRescan))
    {
      found := [];
      ghost var now := Rescan(store.metas, chain, height, maxRescan);
      RecordAppend(store.metas, chain, now, [height]);
      ExtractedAppend(extract, chain, now, [height]);
      if IsReorg(store.metas, height, chain[height].prev) {
        var earliest := Earliest(height, maxRescan);
        var window := FetchWindow(chain, earliest, height);
        var rescan := ReconfirmHeights(store.metas, height, maxRescan, window, chain);
        found := Visit(store, chain, rescan);
      }
      var own := Visit(store, chain, [height]);
      found := found + own;
    }

    method ScanToTip(store: TemporalStore, chain: seq<Block>) returns (observations: seq<T>)
      requires Keyed(store.metas) && Linked(chain) && lastScanned >= -1
      modifies this, store
      ensures lastScanned == if |chain| - 1 > old(lastScanned) then |chain| - 1 else old(lastScanned)
      ensures var heights := ScanHeights(old(store.metas), chain, old(lastScanned) + 1, maxRescan);
        && store.metas == Record(old(store.metas), chain, heights)
        && observations == Extracted(extract, chain, heights)
    {
      var tip := |chain| - 1;
      observations := [];
      var height := lastScanned + 1;
      ghost var first: nat, before := height, store.metas;
      ghost var done: seq<int> := [];
      while height <= tip
        invariant 0 <= height == lastScanned + 1
        invariant height <= |chain| || lastScanned == old(lastScanned)
        invariant Progress(before, chain, first, maxRescan, height, store.metas, done)
        invariant observations == Extracted(extract, chain, done)
      {
        ghost var now := ProgressStep(before, chain, first, maxRescan, height, store.metas, done);
        ExtractedAppend(extract, chain, done, now);
        ghost var next := Record(store.metas, chain, now);
        assert Progress(before, chain, first, maxRescan, height + 1, next, done + now);
        var found := ScanBlock(store, chain, height);
        assert store.metas == next;
        observations := observations + found;
        done := done + now;
        lastScanned := height;
        height := height + 1;
      }
      ProgressEnds(before, chain, first, maxRescan, height, store.metas, done);
    }
  }
}

/** What scans keep over every run of chain replacements. */
module ObserverRuns {
  import opened Observer

  function Max(a: int, b: int): int {
    if a >= b then a else b
  }

  /** The metas of the blocks from `lo` to `hi`. */
  function Canonical(chain: seq<Block>, lo: nat, hi: int): map<int, BlockMeta>
    requires lo <= hi ==> hi < |chain|
  {
    map h | lo <= h <= hi :: MetaOf(chain[h])
  }

  function Down(hi: int, lo: int): (hs: seq<int>)
    ensures forall h :: h in hs <==> lo <= h <= hi
    decreases hi - lo
  {
    if hi < lo then [] else [hi] + Down(hi - 1, lo)
  }

  function Up(lo: int, hi: int): (hs: seq<int>)
    ensures forall h :: h in hs <==> lo <= h <= hi
    decreases hi - lo
  {
    if hi < lo then [] else [lo] + Up(lo + 1, hi)
  }

  /** The highest height at or below `hi` where the chains agree, or the one below `lo`. */
  function CommonTop(base: seq<Block>, chain: seq<Block>, lo: int, hi: int): (k: int)
    requires 0 <= lo && (hi >= lo ==> hi < |base| && hi < |chain|)
    ensures k <= hi && (hi >= lo ==> k >= lo - 1)
    ensures forall h :: k < h <= hi && lo <= h ==> base[h] != chain[h]
    ensures k >= lo ==> base[k] == chain[k]
    decreases hi - lo
  {
    if hi < lo || base[hi] == chain[hi] then hi else CommonTop(base, chain, lo, hi - 1)
  }

  /** A block determines the chain below it. */
  lemma {:induction false} AgreeBelow(blocks: iset<Block>, a: seq<Block>, b: seq<Block>, i: nat, j: nat)
    requires NoCollisions(blocks) && ValidChain(blocks, a) && ValidChain(blocks, b)
    requires j <= i < |a| && i < |b| && a[i] == b[i]
    ensures a[j] == b[j]
    decreases i
  {
    if j < i {
      assert LinkedAt(a, i) && LinkedAt(b, i);
      assert EqIgnoreCase(a[i - 1].hash, b[i - 1].hash);
      AgreeBelow(blocks, a, b, i - 1, j);
    }
  }

  /** The table holds exactly the blocks `lo` to `last` of `base`. */
  ghost predicate Tracks(blocks: iset<Block>, base: seq<Block>, lo: nat, last: int, metas: map<int, BlockMeta>) {
    && NoCollisions(blocks) && ValidChain(blocks, base)
    && 1 <= lo <= last + 1 && (lo <= last ==> last < |base|)
    && metas == Canonical(base, lo, last)
  }

  /** Hashes tell blocks apart. */
  lemma SameHash(blocks: iset<Block>, a: seq<Block>, b: seq<Block>, h: nat)
    requires NoCollisions(blocks) && ValidChain(blocks, a) && ValidChain(blocks, b) && h < |a| && h < |b|
    ensures EqIgnoreCase(a[h].hash, b[h].hash) <==> a[h] == b[h]
  {
  }

  lemma WalkOne(blocks: iset<Block>, base: seq<Block>, lo: nat, last: int, metas: map<int, BlockMeta>,
                chain: seq<Block>, i: int, earliest: int)
    requires Tracks(blocks, base, lo, last, metas) && ValidChain(blocks, chain) && last < |chain|
    requires 1 <= earliest <= i <= last
    ensures i < lo ==> Walk(metas, chain, i, earliest) == Walk(metas, chain, i - 1, earliest)
    ensures i >= lo && base[i] == chain[i] ==> Walk(metas, chain, i, earliest) == []
    ensures i >= lo && base[i] != chain[i] ==> Walk(metas, chain, i, earliest) == [i] + Walk(metas, chain, i - 1, earliest)
  {
    if i >= lo {
      SameHash(blocks, base, chain, i);
      assert metas[i] == MetaOf(base[i]) && base[i].height == i;
      assert chain[i] in blocks;
    }
  }

  lemma {:induction false} WalkBelow(blocks: iset<Block>, base: seq<Block>, lo: nat, last: int, metas: map<int, BlockMeta>,
                                     chain: seq<Block>, i: int, earliest: int)
    requires Tracks(blocks, base, lo, last, metas) && ValidChain(blocks, chain) && last < |chain|
    requires i <= last && i < lo && earliest >= 1
    ensures Walk(metas, chain, i, earliest) == []
    decreases i - earliest
  {
    if i >= earliest {
      WalkOne(blocks, base, lo, last, metas, chain, i, earliest);
      WalkBelow(blocks, base, lo, last, metas, chain, i - 1, earliest);
    }
  }

  /** `k` is where the chains part at or below `i`. */
  ghost predicate Parts(base: seq<Block>, chain: seq<Block>, lo: nat, i: int, k: int)
    requires i < |base| && i < |chain|
  {
    && lo - 1 <= k <= i
    && (k >= lo ==> base[k] == chain[k])
    && forall h :: k < h <= i ==> base[h] != chain[h]
  }

  lemma {:induction false} WalkIsDown(blocks: iset<Block>, base: seq<Block>, lo: nat, last: int, metas: map<int, BlockMeta>,
                                      chain: seq<Block>, i: int, earliest: int, k: int)
    requires Tracks(blocks, base, lo, last, metas) && ValidChain(blocks, chain) && last < |chain|
    requires lo - 1 <= i <= last && earliest >= 1 && i < |base| && Parts(base, chain, lo, i, k)
    ensures Walk(metas, chain, i, earliest) == Down(i, Max(k + 1, earliest))
    decreases i - earliest
  {
    if i >= earliest {
      if i < lo {
        WalkBelow(blocks, base, lo, last, metas, chain, i, earliest);
      } else {
        WalkOne(blocks, base, lo, last, metas, chain, i, earliest);
        if k < i {
          WalkIsDown(blocks, base, lo, last, metas, chain, i - 1, earliest, k);
        }
      }
    }
  }

  /** Recording changes exactly the listed heights. */
  lemma {:induction false} RecordAt(metas: map<int, BlockMeta>, chain: seq<Block>, heights: seq<int>, h: int)
    requires Linked(chain) && Within(heights, |chain|)
    ensures h in Record(metas, chain, heights) <==> h in metas || h in heights
    ensures h in heights ==> 0 <= h < |chain| && Record(metas, chain, heights)[h] == MetaOf(chain[h])
    ensures h in metas && h !in heights ==> Record(metas, chain, heights)[h] == metas[h]
    decreases |heights|
  {
    if heights != [] {
      RecordAt(metas[heights[0] := MetaOf(chain[heights[0]])], chain, heights[1..], h);
    }
  }

  /** The chain extends what the table holds just below `height`. */
  predicate Extends(metas: map<int, BlockMeta>, chain: seq<Block>, height: nat) {
    height < |chain| && height - 1 in metas ==> height >= 1 && metas[height - 1].hash == chain[height - 1].hash
  }

  lemma {:induction false} QuietScan(metas: map<int, BlockMeta>, chain: seq<Block>, height: nat, maxRescan: nat)
    requires Keyed(metas) && Linked(chain) && Extends(metas, chain, height)
    ensures ScanHeights(metas, chain, height, maxRescan) == Up(height, |chain| - 1)
    decreases |chain| - height
  {
    if height < |chain| {
      assert height > 0 ==> LinkedAt(chain, height);
      assert Visited(metas, chain, height, maxRescan) == [height];
      var now, rest := ScanUnfold(metas, chain, height, maxRescan);
      RecordAt(metas, chain, [height], height);
      QuietScan(Record(metas, chain, [height]), chain, height + 1, maxRescan);
    }
  }

  /** The heights a scan visits: those above the fork and inside the window, downwards, then
      the new ones, upwards. */
  lemma ScanVisits(blocks: iset<Block>, base: seq<Block>, lo: nat, last: int, metas: map<int, BlockMeta>,
                   chain: seq<Block>, maxRescan: nat)
    requires Tracks(blocks, base, lo, last, metas) && ValidChain(blocks, chain) && last < |chain| - 1
    ensures Keyed(metas)
    ensures ScanHeights(metas, chain, last + 1, maxRescan) ==
      Down(last, Max(CommonTop(base, chain, lo, last) + 1, Earliest(last + 1, maxRescan))) + Up(last + 1, |chain| - 1)
  {
    FirstStep(blocks, base, lo, last, metas, chain, maxRescan);
    AfterFirst(metas, chain, last + 1, maxRescan);
  }

  /** Once a height is recorded, the rest of the scan meets no fork. */
  lemma AfterRecorded(metas: map<int, BlockMeta>, chain: seq<Block>, now: seq<int>, height: nat, maxRescan: nat)
    requires Linked(chain) && height < |chain| && Within(now, |chain|) && height in now && Keyed(Record(metas, chain, now))
    ensures ScanHeights(Record(metas, chain, now), chain, height + 1, maxRescan) == Up(height + 1, |chain| - 1)
  {
    RecordAt(metas, chain, now, height);
    QuietScan(Record(metas, chain, now), chain, height + 1, maxRescan);
  }

  lemma ThenUp(rescan: seq<int>, now: seq<int>, rest: seq<int>, height: int, tip: int)
    requires now == rescan + [height] && rest == Up(height + 1, tip) && height <= tip
    ensures height in now && now + rest == rescan + Up(height, tip)
  {
    assert now[|now| - 1] == height;
    assert (rescan + [height]) + rest == rescan + ([height] + rest);
  }

  lemma AfterFirst(metas: map<int, BlockMeta>, chain: seq<Block>, height: nat, maxRescan: nat)
    requires Keyed(metas) && Linked(chain) && height < |chain|
    ensures ScanHeights(metas, chain, height, maxRescan) ==
      Rescan(metas, chain, height, maxRescan) + Up(height, |chain| - 1)
  {
    var now, rest := ScanUnfold(metas, chain, height, maxRescan);
    var rescan := Rescan(metas, chain, height, maxRescan);
    ThenUp(rescan, now, Up(height + 1, |chain| - 1), height, |chain| - 1);
    AfterRecorded(metas, chain, now, height, maxRescan);
  }

  lemma FirstStep(blocks: iset<Block>, base: seq<Block>, lo: nat, last: int, metas: map<int, BlockMeta>,
                  chain: seq<Block>, maxRescan: nat)
    requires Tracks(blocks, base, lo, last, metas) && ValidChain(blocks, chain) && last < |chain| - 1
    ensures Keyed(metas)
    ensures Rescan(metas, chain, last + 1, maxRescan) ==
      Down(last, Max(CommonTop(base, chain, lo, last) + 1, Earliest(last + 1, maxRescan)))
  {
    ReorgIff(blocks, base, lo, last, metas, chain);
    if last >= lo {
      WalkIsDown(blocks, base, lo, last, metas, chain, last, Earliest(last + 1, maxRescan), CommonTop(base, chain, lo, last));
    }
  }

  /** A fork is noticed exactly when the last recorded block was replaced. */
  lemma ReorgIff(blocks: iset<Block>, base: seq<Block>, lo: nat, last: int, metas: map<int, BlockMeta>, chain: seq<Block>)
    requires Tracks(blocks, base, lo, last, metas) && ValidChain(blocks, chain) && last < |chain| - 1
    ensures Keyed(metas)
    ensures IsReorg(metas, last + 1, chain[last + 1].prev) <==> last >= lo && base[last] != chain[last]
  {
    if last >= lo {
      SameHash(blocks, base, chain, last);
      assert LinkedAt(chain, last + 1);
    }
  }

  lemma {:induction false} DownOnce(hi: int, lo: int)
    ensures forall i, j :: 0 <= i < j < |Down(hi, lo)| ==> Down(hi, lo)[i] > Down(hi, lo)[j]
    decreases hi - lo
  {
    if hi >= lo {
      DownOnce(hi - 1, lo);
      var rest := Down(hi - 1, lo);
      forall i, j | 0 <= i < j < |Down(hi, lo)| ensures Down(hi, lo)[i] > Down(hi, lo)[j] {
        assert Down(hi, lo)[j] == rest[j - 1];
        assert rest[j - 1] in rest;
      }
    }
  }

  lemma {:induction false} UpOnce(lo: int, hi: int)
    ensures forall i, j :: 0 <= i < j < |Up(lo, hi)| ==> Up(lo, hi)[i] < Up(lo, hi)[j]
    decreases hi - lo
  {
    if hi >= lo {
      UpOnce(lo + 1, hi);
      var rest := Up(lo + 1, hi);
      forall i, j | 0 <= i < j < |Up(lo, hi)| ensures Up(lo, hi)[i] < Up(lo, hi)[j] {
        assert Up(lo, hi)[j] == rest[j - 1];
        assert rest[j - 1] in rest;
      }
    }
  }

  /** How many recorded blocks the new chain replaced. */
  function Replaced(base: seq<Block>, chain: seq<Block>, lo: nat, last: int): (n: nat)
    requires lo <= last ==> last < |base| && last < |chain|
  {
    last - CommonTop(base, chain, lo, last)
  }

  /** The recorded height `h` holds another block on the new chain. */
  predicate Changed(base: seq<Block>, chain: seq<Block>, lo: nat, last: int, h: int) {
    lo <= h <= last && h < |base| && h < |chain| && base[h] != chain[h]
  }

  lemma ChangedIffAbove(blocks: iset<Block>, base: seq<Block>, chain: seq<Block>, lo: nat, last: int, h: int)
    requires NoCollisions(blocks) && ValidChain(blocks, base) && ValidChain(blocks, chain)
    requires lo <= last ==> last < |base| && last < |chain|
    ensures Changed(base, chain, lo, last, h) <==> lo <= h && CommonTop(base, chain, lo, last) < h <= last
  {
    var k := CommonTop(base, chain, lo, last);
    if lo <= h <= k {
      AgreeBelow(blocks, base, chain, k, h);
    }
  }

  lemma DownUp(hi: int, lo: int, tip: int)
    ensures var hs := Down(hi, lo) + Up(hi + 1, tip);
      && (forall h :: h in hs <==> lo <= h <= hi || hi < h <= tip)
      && (forall i, j :: 0 <= i < j < |hs| ==> hs[i] != hs[j])
  {
    var down, up := Down(hi, lo), Up(hi + 1, tip);
    DownOnce(hi, lo);
    UpOnce(hi + 1, tip);
    forall i, j | 0 <= i < j < |down + up| ensures (down + up)[i] != (down + up)[j] {
      if i < |down| <= j {
        assert down[i] in down && up[j - |down|] in up;
      }
    }
  }

  /** The list of heights visited, and its lower end. */
  lemma VisitedList(blocks: iset<Block>, base: seq<Block>, lo: nat, last: int, metas: map<int, BlockMeta>,
                    chain: seq<Block>, maxRescan: nat) returns (hs: seq<int>, low: int)
    requires Tracks(blocks, base, lo, last, metas) && ValidChain(blocks, chain) && last < |chain| - 1
    ensures Keyed(metas) && hs == ScanHeights(metas, chain, last + 1, maxRescan)
    ensures low == Max(CommonTop(base, chain, lo, last) + 1, Earliest(last + 1, maxRescan))
    ensures forall h :: h in hs <==> low <= h <= last || last < h < |chain|
    ensures forall i, j :: 0 <= i < j < |hs| ==> hs[i] != hs[j]
  {
    ScanVisits(blocks, base, lo, last, metas, chain, maxRescan);
    low := Max(CommonTop(base, chain, lo, last) + 1, Earliest(last + 1, maxRescan));
    hs := Down(last, low) + Up(last + 1, |chain| - 1);
    DownUp(last, low, |chain| - 1);
  }

  /** Within the budget, a scan visits exactly the changed and the new heights, each once. */
  lemma ScanVisitsChanged(blocks: iset<Block>, base: seq<Block>, lo: nat, last: int, metas: map<int, BlockMeta>,
                          chain: seq<Block>, maxRescan: nat) returns (hs: seq<int>)
    requires Tracks(blocks, base, lo, last, metas) && ValidChain(blocks, chain) && last < |chain| - 1
    requires Replaced(base, chain, lo, last) <= maxRescan
    ensures Keyed(metas) && hs == ScanHeights(metas, chain, last + 1, maxRescan)
    ensures forall h :: h in hs <==> Changed(base, chain, lo, last, h) || last < h < |chain|
    ensures forall i, j :: 0 <= i < j < |hs| ==> hs[i] != hs[j]
  {
    var low;
    hs, low := VisitedList(blocks, base, lo, last, metas, chain, maxRescan);
    forall h ensures low <= h <= last <==> Changed(base, chain, lo, last, h) {
      ChangedIffAbove(blocks, base, chain, lo, last, h);
    }
  }

  /** The table after one scan of this chain. */
  function AfterScan(metas: map<int, BlockMeta>, last: int, chain: seq<Block>, maxRescan: nat): map<int, BlockMeta>
    requires Keyed(metas) && Linked(chain) && last >= -1
  {
    Record(metas, chain, ScanHeights(metas, chain, last + 1, maxRescan))
  }

  /** A recorded height inside the window gets the new block, one below it keeps the old. */
  lemma AfterScanAt(blocks: iset<Block>, base: seq<Block>, lo: nat, last: int, metas: map<int, BlockMeta>,
                    chain: seq<Block>, maxRescan: nat, h: int) returns (after: map<int, BlockMeta>)
    requires Tracks(blocks, base, lo, last, metas) && ValidChain(blocks, chain) && last < |chain| - 1
    ensures Keyed(metas) && after == AfterScan(metas, last, chain, maxRescan)
    ensures h in after <==> lo <= h < |chain|
    ensures h in after && Earliest(last + 1, maxRescan) <= h ==> after[h] == MetaOf(chain[h])
    ensures h in after && h < Earliest(last + 1, maxRescan) && h <= last ==> after[h] == MetaOf(base[h])
  {
    var hs, low := VisitedList(blocks, base, lo, last, metas, chain, maxRescan);
    after := Record(metas, chain, hs);
    RecordAt(metas, chain, hs, h);
    KeptBelow(blocks, base, lo, last, metas, chain, h, low);
    DecideAt(base, lo, last, metas, chain, maxRescan, h, low, CommonTop(base, chain, lo, last), h in hs, after);
  }

  lemma DecideAt(base: seq<Block>, lo: nat, last: int, metas: map<int, BlockMeta>, chain: seq<Block>, maxRescan: nat,
                 h: int, low: int, k: int, listed: bool, after: map<int, BlockMeta>)
    requires last < |chain| - 1 && (lo <= last ==> last < |base|) && lo <= last + 1 && (lo <= low || k == last) && k <= last
    requires low == Max(k + 1, Earliest(last + 1, maxRescan)) && (listed <==> low <= h <= last || last < h < |chain|)
    requires h in after <==> h in metas || listed
    requires h in metas <==> lo <= h <= last
    requires h in metas ==> metas[h] == MetaOf(base[h])
    requires h in metas && h <= k ==> metas[h] == MetaOf(chain[h])
    requires listed ==> h >= 0 && after[h] == MetaOf(chain[h])
    requires h in metas && !listed ==> after[h] == metas[h]
    ensures h in after <==> lo <= h < |chain|
    ensures h in after && Earliest(last + 1, maxRescan) <= h ==> after[h] == MetaOf(chain[h])
    ensures h in after && h < Earliest(last + 1, maxRescan) && h <= last ==> after[h] == MetaOf(base[h])
  {
  }

  lemma KeptBelow(blocks: iset<Block>, base: seq<Block>, lo: nat, last: int, metas: map<int, BlockMeta>,
                  chain: seq<Block>, h: int, low: int)
    requires Tracks(blocks, base, lo, last, metas) && ValidChain(blocks, chain) && last < |chain| - 1
    requires CommonTop(base, chain, lo, last) + 1 <= low
    ensures lo <= low || CommonTop(base, chain, lo, last) == last
    ensures h in metas <==> lo <= h <= last
    ensures h in metas ==> metas[h] == MetaOf(base[h])
    ensures h in metas && h <= CommonTop(base, chain, lo, last) ==> metas[h] == MetaOf(chain[h])
  {
    ChangedIffAbove(blocks, base, chain, lo, last, h);
  }

  /** A scan that finds a tip above the last scanned height leaves the table canonical if and
      only if at most `maxRescan` recorded blocks were replaced. */
  lemma ScanCanonicalIff(blocks: iset<Block>, base: seq<Block>, lo: nat, last: int, metas: map<int, BlockMeta>,
                         chain: seq<Block>, maxRescan: nat)
    requires Tracks(blocks, base, lo, last, metas) && ValidChain(blocks, chain) && last < |chain| - 1
    ensures Keyed(metas)
    ensures Tracks(blocks, chain, lo, |chain| - 1, AfterScan(metas, last, chain, maxRescan))
      <==> Replaced(base, chain, lo, last) <= maxRescan
  {
    ScanVisits(blocks, base, lo, last, metas, chain, maxRescan);
    var after, want := AfterScan(metas, last, chain, maxRescan), Canonical(chain, lo, |chain| - 1);
    var k := CommonTop(base, chain, lo, last);
    if Replaced(base, chain, lo, last) <= maxRescan {
      forall h ensures (h in after <==> h in want) && (h in after ==> after[h] == want[h]) {
        var _ := AfterScanAt(blocks, base, lo, last, metas, chain, maxRescan, h);
        ChangedIffAbove(blocks, base, chain, lo, last, h);
      }
      assert after == want;
    } else {
      var h := last - maxRescan;
      var _ := AfterScanAt(blocks, base, lo, last, metas, chain, maxRescan, h);
      SameHash(blocks, base, chain, h);
      assert after[h].hash != want[h].hash;
    }
  }

  // ---- runs ----

  /** What an observer keeps between scans. */
  datatype View = View(metas: map<int, BlockMeta>, last: int)

  ghost predicate Ready(v: View) {
    Keyed(v.metas) && v.last >= -1
  }

  ghost predicate AllValid(blocks: iset<Block>, chains: seq<seq<Block>>) {
    forall i :: 0 <= i < |chains| ==> ValidChain(blocks, chains[i])
  }

  ghost function ScanView(v: View, chain: seq<Block>, maxRescan: nat): (w: View)
    requires Ready(v) && Linked(chain)
    ensures Ready(w)
  {
    RecordKeyed(v.metas, chain, ScanHeights(v.metas, chain, v.last + 1, maxRescan));
    View(AfterScan(v.metas, v.last, chain, maxRescan), Max(v.last, |chain| - 1))
  }

  /** Scans of the chains the node follows, one after another. */
  ghost function RunScans(blocks: iset<Block>, v: View, chains: seq<seq<Block>>, maxRescan: nat): View
    requires Ready(v) && AllValid(blocks, chains)
    decreases |chains|
  {
    if chains == [] then v else RunScans(blocks, ScanView(v, chains[0], maxRescan), chains[1..], maxRescan)
  }

  /** The chain last scanned to its tip, starting from `base` recorded up to `last`. */
  function LastScanned(base: seq<Block>, last: int, chains: seq<seq<Block>>): seq<Block>
    decreases |chains|
  {
    if chains == [] then base
    else if |chains[0]| - 1 <= last then LastScanned(base, last, chains[1..])
    else LastScanned(chains[0], |chains[0]| - 1, chains[1..])
  }

  /** No scan that finds a higher tip meets more than `maxRescan` replaced blocks. */
  predicate WithinBudget(base: seq<Block>, lo: nat, last: int, chains: seq<seq<Block>>, maxRescan: nat)
    requires lo <= last ==> last < |base|
    decreases |chains|
  {
    if chains == [] then true
    else if |chains[0]| - 1 <= last then WithinBudget(base, lo, last, chains[1..], maxRescan)
    else (
      && Replaced(base, chains[0], lo, last) <= maxRescan
      && WithinBudget(chains[0], lo, |chains[0]| - 1, chains[1..], maxRescan))
  }

  lemma IdleScan(v: View, chain: seq<Block>, maxRescan: nat)
    requires Ready(v) && Linked(chain) && |chain| - 1 <= v.last
    ensures ScanView(v, chain, maxRescan) == v
  {
  }

  lemma BusyScan(blocks: iset<Block>, base: seq<Block>, lo: nat, v: View, chain: seq<Block>, maxRescan: nat)
    requires Ready(v) && Tracks(blocks, base, lo, v.last, v.metas) && ValidChain(blocks, chain) && v.last < |chain| - 1
    requires Replaced(base, chain, lo, v.last) <= maxRescan
    ensures ScanView(v, chain, maxRescan).last == |chain| - 1
    ensures Tracks(blocks, chain, lo, |chain| - 1, ScanView(v, chain, maxRescan).metas)
  {
    ScanCanonicalIff(blocks, base, lo, v.last, v.metas, chain, maxRescan);
  }

  /** Over every run within the budget the table is the recorded range of one chain: the one
      last scanned to its tip. */
  lemma {:induction false} RunStaysCanonical(blocks: iset<Block>, base: seq<Block>, lo: nat, v: View,
                                             chains: seq<seq<Block>>, maxRescan: nat)
    requires Ready(v) && AllValid(blocks, chains) && Tracks(blocks, base, lo, v.last, v.metas)
    requires WithinBudget(base, lo, v.last, chains, maxRescan)
    ensures var w := RunScans(blocks, v, chains, maxRescan);
      Tracks(blocks, LastScanned(base, v.last, chains), lo, w.last, w.metas)
    decreases |chains|
  {
    if chains != [] {
      var c := chains[0];
      if |c| - 1 <= v.last {
        IdleScan(v, c, maxRescan);
        RunStaysCanonical(blocks, base, lo, v, chains[1..], maxRescan);
      } else {
        BusyScan(blocks, base, lo, v, c, maxRescan);
        RunStaysCanonical(blocks, c, lo, ScanView(v, c, maxRescan), chains[1..], maxRescan);
      }
    }
  }

  /** A new observer with an empty table, run from height `start`. */
  lemma ObserverTracksChain(blocks: iset<Block>, start: nat, chains: seq<seq<Block>>, maxRescan: nat) returns (w: View)
    requires NoCollisions(blocks) && AllValid(blocks, chains) && WithinBudget([], start + 1, start, chains, maxRescan)
    ensures Ready(View(map[], start)) && w == RunScans(blocks, View(map[], start), chains, maxRescan)
    ensures Tracks(blocks, LastScanned([], start, chains), start + 1, w.last, w.metas)
  {
    var v := View(map[], start);
    assert Canonical([], start + 1, start) == map[];
    RunStaysCanonical(blocks, [], start + 1, v, chains, maxRescan);
    w := RunScans(blocks, v, chains, maxRescan);
  }

  // ---- one block beyond the budget ----

  /** A hash of its own for every height and letter. */
  function Mark(letter: char, h: nat): (s: string)
    ensures |s| == h + 1 && forall i :: 0 <= i < |s| ==> s[i] == letter
  {
    seq(h + 1, _ => letter)
  }

  /** The block at height `h` of the branch with this letter; all branches share the first block. */
  function Branch(letter: char, h: nat): Block {
    Block(h, if h <= 1 then Mark('g', 0) else Mark(letter, h - 1), if h == 0 then Mark('g', 0) else Mark(letter, h), [])
  }

  function BranchChain(letter: char, n: nat): (c: seq<Block>)
    ensures |c| == n && forall h :: 0 <= h < n ==> c[h] == Branch(letter, h)
  {
    seq(n, h requires 0 <= h < n => Branch(letter, h))
  }

  ghost function TwoBranches(): iset<Block> {
    iset h: nat, letter: char | letter == 'a' || letter == 'b' :: Branch(letter, h)
  }

  lemma MarksFold(letter: char, h: nat)
    requires 'a' <= letter <= 'z'
    ensures Fold(Mark(letter, h)) == Mark(letter, h)
  {
  }

  lemma BranchHash(l: char, h: nat, m: char, k: nat)
    requires (l == 'a' || l == 'b') && (m == 'a' || m == 'b') && EqIgnoreCase(Branch(l, h).hash, Branch(m, k).hash)
    ensures Branch(l, h) == Branch(m, k)
  {
    MarksFold('g', 0);
    MarksFold(l, h);
    MarksFold(m, k);
    var x, y := Branch(l, h).hash, Branch(m, k).hash;
    assert x == y;
    assert |x| == h + 1 && |y| == k + 1;
    assert h > 0 ==> x[0] == l && y[0] == m;
  }

  lemma BranchesDoNotCollide()
    ensures NoCollisions(TwoBranches())
  {
    var blocks := TwoBranches();
    forall b | b in blocks ensures b.hash != "" {
      var h: nat, l :| (l == 'a' || l == 'b') && b == Branch(l, h);
      assert |b.hash| == h + 1;
    }
    forall b, d | b in blocks && d in blocks && EqIgnoreCase(b.hash, d.hash) ensures b == d {
      var h: nat, l :| (l == 'a' || l == 'b') && b == Branch(l, h);
      var k: nat, m :| (m == 'a' || m == 'b') && d == Branch(m, k);
      BranchHash(l, h, m, k);
    }
  }

  lemma BranchIsValid(letter: char, n: nat)
    requires letter == 'a' || letter == 'b'
    ensures ValidChain(TwoBranches(), BranchChain(letter, n))
  {
    var c := BranchChain(letter, n);
    forall i | 0 < i < n ensures LinkedAt(c, i) {
      assert c[i].prev == c[i - 1].hash;
    }
    forall i | 0 <= i < n ensures c[i] in TwoBranches() {
      assert c[i] == Branch(letter, i);
    }
  }

  lemma BranchesPart(n: nat, m: nat, last: nat)
    requires last < n && last < m && last >= 1
    ensures CommonTop(BranchChain('a', n), BranchChain('b', m), 1, last) == 0
  {
    var a, b := BranchChain('a', n), BranchChain('b', m);
    forall h | 1 <= h <= last ensures a[h] != b[h] {
      assert a[h].hash[0] == 'a' && b[h].hash[0] == 'b';
    }
  }

  /** One block beyond the budget is enough, whatever the budget: of `maxRescan + 1` replaced blocks
      the lowest stays recorded. */
  lemma BeyondBudgetStaysStale(maxRescan: nat)
    returns (blocks: iset<Block>, base: seq<Block>, chain: seq<Block>, metas: map<int, BlockMeta>, after: map<int, BlockMeta>)
    requires maxRescan >= 1
    ensures Tracks(blocks, base, 1, maxRescan + 1, metas) && ValidChain(blocks, chain) && Keyed(metas) && |chain| == maxRescan + 3
    ensures Replaced(base, chain, 1, maxRescan + 1) == maxRescan + 1
    ensures after == AfterScan(metas, maxRescan + 1, chain, maxRescan) && 1 in after
    ensures after[1] == MetaOf(base[1]) && after[1].hash != chain[1].hash
  {
    var last := maxRescan + 1;
    blocks, base, chain := TwoBranches(), BranchChain('a', last + 1), BranchChain('b', last + 2);
    BranchesDoNotCollide();
    BranchIsValid('a', last + 1);
    BranchIsValid('b', last + 2);
    BranchesPart(last + 1, last + 2, last);
    metas := Canonical(base, 1, last);
    after := AfterScanAt(blocks, base, 1, last, metas, chain, maxRescan, 1);
    assert base[1].hash[0] == 'a' && chain[1].hash[0] == 'b';
  }
}
