/** The keygen retry queue: keygens wait, are launched, run, and are done or wait again with a
    growing delay, until they are too old. The loop and the spawned tasks interleave between
    their lock sections. Times are in seconds. */
module KeygenRetry {
  import opened Sorting
  import opened Names

  type Id = string

  const MaxAge: real := 900.0

  /** A keygen with the attempts it has behind it; `members` is its normalised member list. */
  datatype Entry = Entry(id: Id, members: seq<Name>, height: int, attempts: nat, nextAt: real, firstSeen: real)

  /** How far the loop is with queueing a keygen: it looks into the done set, then into the in-flight
      set, then into the queue, each under its own lock. */
  datatype Scanning = Quiet | NotDone(id: Id, members: seq<Name>, height: int) | NotFlying(id: Id, members: seq<Name>, height: int)

  /** `due` holds what the loop took from the queue and has not launched yet, `running` those
      at work, `ended` those that left the in-flight set and have not recorded their result,
      with that result; `launched` counts the attempts of each id, `scanned` the ids seen in a block. */
  datatype State = State(
    clock: real, pending: seq<Entry>, due: seq<Entry>, running: seq<Entry>, ended: seq<(Entry, bool)>,
    inFlight: set<Id>, done: set<Id>, launched: multiset<Id>, scanned: set<Id>, scan: Scanning)

  const Start := State(0.0, [], [], [], [], {}, {}, multiset{}, {}, Quiet)

  // ---- the sections ----

  predicate SameSetOlder(e: Entry, members: seq<Name>, height: int) {
    e.members == members && e.height < height
  }

  predicate Waiting(pending: seq<Entry>, id: Id) {
    exists k :: 0 <= k < |pending| && pending[k].id == id
  }

  /** Queue a keygen that is not queued yet, replacing older ones of the same members. */
  function Pushed(pending: seq<Entry>, id: Id, members: seq<Name>, height: int, now: real): seq<Entry> {
    if Waiting(pending, id) then pending
    else Filter((e: Entry) => !SameSetOlder(e, members, height), pending) + [Entry(id, members, height, 0, now, now)]
  }

  /** The three sections of queueing, uninterrupted. */
  function Enqueued(pending: seq<Entry>, inFlight: set<Id>, done: set<Id>, id: Id, members: seq<Name>, height: int, now: real): seq<Entry> {
    if id in done || id in inFlight then pending else Pushed(pending, id, members, height, now)
  }

  predicate Young(e: Entry, now: real) {
    now - e.firstSeen <= MaxAge
  }

  predicate Due(e: Entry, now: real, inFlight: set<Id>) {
    e.nextAt <= now && e.id !in inFlight
  }

  /** What is left of the queue after abandoning the old, and what of that is due. */
  function Kept(pending: seq<Entry>, now: real): seq<Entry> {
    Filter((e: Entry) => Young(e, now), pending)
  }

  function TakenDue(pending: seq<Entry>, now: real, inFlight: set<Id>): seq<Entry> {
    Filter((e: Entry) => Due(e, now, inFlight), Kept(pending, now))
  }

  function LeftWaiting(pending: seq<Entry>, now: real, inFlight: set<Id>): seq<Entry> {
    Filter((e: Entry) => !Due(e, now, inFlight), Kept(pending, now))
  }

  /** The delay after this many attempts. */
  function Backoff(attempt: nat): real {
    15.0 * (if attempt <= 4 then attempt else 4) as real
  }

  function Retried(e: Entry, now: real): Entry {
    e.(attempts := e.attempts + 1, nextAt := now + Backoff(e.attempts + 1))
  }

  /** Queueing an id that does not wait drops exactly the older entries of the same members, whatever order
      and repetition their lists come in, and adds one new entry, due now. */
  lemma PushSupersedes(pending: seq<Entry>, id: Id, raw: seq<Name>, height: int, now: real)
    requires !Waiting(pending, id)
    ensures var after, own := Pushed(pending, id, NormalizeParticipants(raw), height, now), Entry(id, NormalizeParticipants(raw), height, 0, now, now);
      && (forall e :: e in after <==> e == own || (e in pending && !(e.members == NormalizeParticipants(raw) && e.height < height)))
      && (forall raws :: NormalizeParticipants(raws) == NormalizeParticipants(raw) <==> Elems(raws) == Elems(raw))
  {
    forall raws ensures NormalizeParticipants(raws) == NormalizeParticipants(raw) <==> Elems(raws) == Elems(raw) {
      NormalizeDependsOnSetOnly(raws, raw);
    }
  }

  /** Collecting drops what is older than fifteen minutes, takes what is due and not in flight, and leaves the
      rest, each entry as often as before. */
  lemma CollectSplits(pending: seq<Entry>, now: real, inFlight: set<Id>, e: Entry)
    ensures var all := multiset(pending)[e];
      && multiset(TakenDue(pending, now, inFlight))[e] ==
           (if now - e.firstSeen <= 900.0 && e.nextAt <= now && e.id !in inFlight then all else 0)
      && multiset(LeftWaiting(pending, now, inFlight))[e] ==
           (if now - e.firstSeen <= 900.0 && !(e.nextAt <= now && e.id !in inFlight) then all else 0)
  {
    FilterCount((e: Entry) => Young(e, now), pending, e);
    FilterCount((e: Entry) => Due(e, now, inFlight), Kept(pending, now), e);
    FilterCount((e: Entry) => !Due(e, now, inFlight), Kept(pending, now), e);
  }

  // ---- the code ----

  class KeygenLoop {
    var pending: seq<Entry>
    var inFlight: set<Id>
    var done: set<Id>

    constructor ()
      ensures pending == [] && inFlight == {} && done == {}
    {
      pending, inFlight, done := [], {}, {};
    }

    method IsDone(id: Id) returns (yes: bool)
      ensures yes <==> id in done
    {
      yes := id in done;
    }

    method IsFlying(id: Id) returns (yes: bool)
      ensures yes <==> id in inFlight
    {
      yes := id in inFlight;
    }

    /** The section under the queue's lock. */
    method Push(id: Id, members: seq<Name>, height: int, now: real)
      modifies this`pending
      ensures pending == Pushed(old(pending), id, members, height, now)
    {
      for k := 0 to |pending|
        invariant !Waiting(pending[..k], id)
      {
        if pending[k].id == id {
          assert Waiting(pending, id);
          return;
        }
      }
      assert pending[..|pending|] == pending;
      pending := Filter((e: Entry) => !SameSetOlder(e, members, height), pending);
      pending := pending + [Entry(id, members, height, 0, now, now)];
    }

    method Enqueue(id: Id, rawMembers: seq<Name>, height: int, now: real)
      modifies this`pending
      ensures pending == Enqueued(old(pending), inFlight, done, id, NormalizeParticipants(rawMembers), height, now)
    {
      var isDone := IsDone(id);
      if isDone { return; }
      var isFlying := IsFlying(id);
      if isFlying { return; }
      Push(id, NormalizeParticipants(rawMembers), height, now);
    }

    /** Abandon the old, take out what is due. */
    method CollectDue(now: real) returns (due: seq<Entry>)
      modifies this
      ensures due == TakenDue(old(pending), now, inFlight) && pending == LeftWaiting(old(pending), now, inFlight)
      ensures inFlight == old(inFlight) && done == old(done)
    {
      pending := Filter((e: Entry) => Young(e, now), pending);
      due := [];
      var left: seq<Entry> := [];
      ghost var flying := inFlight;
      ghost var d := (e: Entry) => Due(e, now, flying);
      ghost var w := (e: Entry) => !Due(e, now, flying);
      for k := 0 to |pending|
        invariant pending == Kept(old(pending), now) && inFlight == old(inFlight) && done == old(done)
        invariant due == Filter(d, pending[..k]) && left == Filter(w, pending[..k])
      {
        FilterNext(d, pending, k);
        FilterNext(w, pending, k);
        if pending[k].nextAt <= now && pending[k].id !in inFlight {
          due := due + [pending[k]];
        } else {
          left := left + [pending[k]];
        }
      }
      assert pending[..|pending|] == pending;
      pending := left;
    }

    method LaunchOne(e: Entry)
      modifies this`inFlight
      ensures inFlight == old(inFlight) + {e.id}
    {
      inFlight := inFlight + {e.id};
    }

    method LeaveFlight(e: Entry)
      modifies this`inFlight
      ensures inFlight == old(inFlight) - {e.id}
    {
      inFlight := inFlight - {e.id};
    }

    method Settle(e: Entry, ok: bool, now: real)
      modifies this`done, this`pending
      ensures done == if ok then old(done) + {e.id} else old(done)
      ensures pending == if ok then old(pending) else old(pending) + [Retried(e, now)]
    {
      if ok {
        done := done + {e.id};
      } else {
        var attempt := e.attempts + 1;
        var backoff := 15.0 * (if attempt <= 4 then attempt else 4) as real;
        pending := pending + [e.(attempts := attempt, nextAt := now + backoff)];
      }
    }
  }

  lemma FilterNext<T(!new)>(p: T -> bool, s: seq<T>, k: nat)
    requires k < |s|
    ensures Filter(p, s[..k + 1]) == Filter(p, s[..k]) + if p(s[k]) then [s[k]] else []
  {
    assert s[..k + 1] == s[..k] + [s[k]];
    FilterAppend(p, s[..k], s[k]);
  }

  lemma {:induction false} FilterAppend<T(!new)>(p: T -> bool, s: seq<T>, x: T)
    ensures Filter(p, s + [x]) == Filter(p, s) + if p(x) then [x] else []
    decreases |s|
  {
    if s == [] {
      assert s + [x] == [x];
    } else {
      assert (s + [x])[0] == s[0] && (s + [x])[1..] == s[1..] + [x];
      FilterAppend(p, s[1..], x);
    }
  }

  // ---- the steps ----

  datatype Step =
    | Scan(id: Id, members: seq<Name>, height: int)
    | LookInFlight
    | Queue
    | Collect
    | Launch
    | Leave(task: nat, ok: bool)
    | Record(task: nat)
    | Tick(to: real)

  predicate Enabled(st: State, step: Step) {
    match step
    case Scan(id, _, _) => id !in st.scanned && st.due == [] && st.scan.Quiet?
    case LookInFlight => st.scan.NotDone?
    case Queue => st.scan.NotFlying?
    case Collect => st.due == [] && st.scan.Quiet?
    case Launch => st.due != []
    case Leave(t, _) => t < |st.running|
    case Record(t) => t < |st.ended|
    case Tick(to) => to >= st.clock
  }

  function RemoveAt<T>(s: seq<T>, i: nat): seq<T>
    requires i < |s|
  {
    s[..i] + s[i + 1..]
  }

  function Next(st: State, step: Step): State
    requires Enabled(st, step)
  {
    match step
    case Scan(id, members, height) =>
      st.(scan := if id in st.done then Quiet else NotDone(id, members, height), scanned := st.scanned + {id})
    case LookInFlight =>
      st.(scan := if st.scan.id in st.inFlight then Quiet else NotFlying(st.scan.id, st.scan.members, st.scan.height))
    case Queue =>
      st.(scan := Quiet, pending := Pushed(st.pending, st.scan.id, st.scan.members, st.scan.height, st.clock))
    case Collect =>
      st.(pending := LeftWaiting(st.pending, st.clock, st.inFlight), due := TakenDue(st.pending, st.clock, st.inFlight))
    case Launch =>
      var e := st.due[0];
      st.(due := st.due[1..], running := st.running + [e], inFlight := st.inFlight + {e.id}, launched := st.launched + multiset{e.id})
    case Leave(t, ok) =>
      var e := st.running[t];
      st.(running := RemoveAt(st.running, t), inFlight := st.inFlight - {e.id}, ended := st.ended + [(e, ok)])
    case Record(t) =>
      var (e, ok) := st.ended[t];
      var rest := st.(ended := RemoveAt(st.ended, t));
      if ok then rest.(done := st.done + {e.id}) else rest.(pending := st.pending + [Retried(e, st.clock)])
    case Tick(to) => st.(clock := to)
  }
}

/** What every interleaving keeps, each id being scanned once. */
module KeygenRetryRuns {
  import opened Sorting
  import opened Names
  import opened KeygenRetry

  // ---- at most one place ----

  function CountIn(es: seq<Entry>, id: Id): nat {
    if es == [] then 0 else (if es[0].id == id then 1 else 0) + CountIn(es[1..], id)
  }

  function Entries(ended: seq<(Entry, bool)>): (es: seq<Entry>)
    ensures |es| == |ended| && forall k :: 0 <= k < |ended| ==> es[k] == ended[k].0
  {
    seq(|ended|, k requires 0 <= k < |ended| => ended[k].0)
  }

  /** In how many places, counted with repetition, an id is. */
  function Places(st: State, id: Id): nat {
    CountIn(st.pending, id) + CountIn(st.due, id) + CountIn(st.running, id) + CountIn(Entries(st.ended), id)
    + if id in st.done then 1 else 0
  }

  lemma {:induction false} CountAppend(a: seq<Entry>, b: seq<Entry>, id: Id)
    ensures CountIn(a + b, id) == CountIn(a, id) + CountIn(b, id)
    decreases |a|
  {
    if a == [] {
      assert a + b == b;
    } else {
      assert (a + b)[0] == a[0] && (a + b)[1..] == a[1..] + b;
      CountAppend(a[1..], b, id);
    }
  }

  lemma CountOne(e: Entry, id: Id)
    ensures CountIn([e], id) == if e.id == id then 1 else 0
  {
    assert [e][1..] == [];
  }

  lemma CountRemoved(es: seq<Entry>, t: nat, id: Id)
    requires t < |es|
    ensures CountIn(es, id) == CountIn(RemoveAt(es, t), id) + if es[t].id == id then 1 else 0
  {
    assert es == (es[..t] + [es[t]]) + es[t + 1..];
    CountAppend(es[..t] + [es[t]], es[t + 1..], id);
    CountAppend(es[..t], [es[t]], id);
    CountAppend(es[..t], es[t + 1..], id);
    CountOne(es[t], id);
  }

  lemma {:induction false} CountSplit(p: Entry -> bool, q: Entry -> bool, es: seq<Entry>, id: Id)
    requires forall e :: q(e) == !p(e)
    ensures CountIn(Filter(p, es), id) + CountIn(Filter(q, es), id) == CountIn(es, id)
    decreases |es|
  {
    if es != [] {
      CountSplit(p, q, es[1..], id);
      assert p(es[0]) ==> Filter(p, es)[1..] == Filter(p, es[1..]);
      assert q(es[0]) ==> Filter(q, es)[1..] == Filter(q, es[1..]);
    }
  }

  lemma {:induction false} CountMember(es: seq<Entry>, k: nat)
    requires k < |es|
    ensures CountIn(es, es[k].id) >= 1
    decreases |es|
  {
    if k > 0 {
      CountMember(es[1..], k - 1);
    }
  }

  lemma {:induction false} MemberCount(es: seq<Entry>, id: Id)
    ensures CountIn(es, id) == 0 ==> forall k :: 0 <= k < |es| ==> es[k].id != id
    decreases |es|
  {
    if es != [] {
      MemberCount(es[1..], id);
      forall k | 0 <= k < |es| && CountIn(es, id) == 0 ensures es[k].id != id {
        assert k > 0 ==> es[k] == es[1..][k - 1];
      }
    }
  }

  ghost predicate OncePlaced(st: State) {
    forall id {:trigger Places(st, id)} :: Places(st, id) <= 1 && (id !in st.scanned ==> Places(st, id) == 0)
  }

  /** The in-flight set is the set of running tasks. */
  ghost predicate FlightMatches(st: State) {
    forall id :: id in st.inFlight <==> CountIn(st.running, id) > 0
  }

  /** The keygen being queued is in no place yet and was never launched. */
  ghost predicate ScanOk(st: State) {
    !st.scan.Quiet? ==> st.due == [] && st.scan.id in st.scanned && Places(st, st.scan.id) == 0 && st.launched[st.scan.id] == 0
  }

  lemma PushCount(pending: seq<Entry>, added: Id, members: seq<Name>, height: int, now: real, id: Id)
    ensures id != added ==> CountIn(Pushed(pending, added, members, height, now), id) <= CountIn(pending, id)
    ensures CountIn(pending, added) == 0 ==> CountIn(Pushed(pending, added, members, height, now), added) == 1
  {
    WaitingCount(pending, added);
    if !Waiting(pending, added) {
      var keep := (e: Entry) => !SameSetOlder(e, members, height);
      var kept, e := Filter(keep, pending), Entry(added, members, height, 0, now, now);
      CountSplit(keep, (e: Entry) => SameSetOlder(e, members, height), pending, id);
      CountSplit(keep, (e: Entry) => SameSetOlder(e, members, height), pending, added);
      CountAppend(kept, [e], id);
      CountAppend(kept, [e], added);
      CountOne(e, id);
      CountOne(e, added);
    }
  }

  lemma WaitingCount(es: seq<Entry>, id: Id)
    ensures Waiting(es, id) <==> CountIn(es, id) > 0
  {
    MemberCount(es, id);
    if Waiting(es, id) {
      var k :| 0 <= k < |es| && es[k].id == id;
      CountMember(es, k);
    }
  }

  lemma QueuePlaces(st: State, id: Id)
    requires Enabled(st, Queue) && OncePlaced(st) && ScanOk(st)
    ensures Places(Next(st, Queue), id) <= 1 && (id !in Next(st, Queue).scanned ==> Places(Next(st, Queue), id) == 0)
  {
    var scan := st.scan;
    assert Places(st, scan.id) == 0 && Places(st, id) <= 1;
    PushCount(st.pending, scan.id, scan.members, scan.height, st.clock, id);
  }

  lemma CollectPlaces(st: State, id: Id)
    requires Enabled(st, Collect) && OncePlaced(st)
    ensures Places(Next(st, Collect), id) <= Places(st, id)
  {
    var now, flying := st.clock, st.inFlight;
    CountSplit((e: Entry) => Young(e, now), (e: Entry) => !Young(e, now), st.pending, id);
    CountSplit((e: Entry) => Due(e, now, flying), (e: Entry) => !Due(e, now, flying), Kept(st.pending, now), id);
  }

  lemma LaunchPlaces(st: State, id: Id)
    requires Enabled(st, Launch) && OncePlaced(st) && FlightMatches(st)
    ensures Places(Next(st, Launch), id) == Places(st, id)
    ensures id in Next(st, Launch).inFlight <==> CountIn(Next(st, Launch).running, id) > 0
  {
    CountAppend(st.running, [st.due[0]], id);
    CountOne(st.due[0], id);
  }

  lemma EntriesRemove(ended: seq<(Entry, bool)>, t: nat)
    requires t < |ended|
    ensures Entries(RemoveAt(ended, t)) == RemoveAt(Entries(ended), t)
  {
  }

  lemma LeavePlaces(st: State, t: nat, ok: bool, id: Id)
    requires t < |st.running| && OncePlaced(st) && FlightMatches(st)
    ensures Places(Next(st, Leave(t, ok)), id) == Places(st, id)
    ensures id in Next(st, Leave(t, ok)).inFlight <==> CountIn(Next(st, Leave(t, ok)).running, id) > 0
  {
    var e := st.running[t];
    CountRemoved(st.running, t, id);
    CountAppend(Entries(st.ended), [e], id);
    CountOne(e, id);
    assert Entries(st.ended + [(e, ok)]) == Entries(st.ended) + [e];
    assert Places(st, id) <= 1;
  }

  lemma RecordPlaces(st: State, t: nat, id: Id)
    requires t < |st.ended| && OncePlaced(st)
    ensures Places(Next(st, Record(t)), id) == Places(st, id)
  {
    var (e, ok) := st.ended[t];
    EntriesRemove(st.ended, t);
    CountRemoved(Entries(st.ended), t, id);
    CountMember(Entries(st.ended), t);
    assert Places(st, e.id) <= 1;
    if !ok {
      CountAppend(st.pending, [Retried(e, st.clock)], id);
      CountOne(Retried(e, st.clock), id);
    }
  }

  lemma StepPlaces(st: State, step: Step)
    requires Enabled(st, step) && OncePlaced(st) && FlightMatches(st) && ScanOk(st)
    ensures OncePlaced(Next(st, step)) && FlightMatches(Next(st, step))
  {
    var next := Next(st, step);
    forall id ensures Places(next, id) <= 1 && (id !in next.scanned ==> Places(next, id) == 0)
    {
      assert Places(st, id) <= 1;
      match step
      case Queue => QueuePlaces(st, id);
      case Collect => CollectPlaces(st, id);
      case Launch => LaunchPlaces(st, id);
      case Leave(t, ok) => LeavePlaces(st, t, ok, id);
      case Record(t) => RecordPlaces(st, t, id);
      case _ =>
    }
    forall id ensures id in next.inFlight <==> CountIn(next.running, id) > 0 {
      if step.Launch? {
        LaunchPlaces(st, id);
      }
      if step.Leave? {
        LeavePlaces(st, step.task, step.ok, id);
      }
    }
  }

  // ---- how often and when ----

  /** The least time from first sight to the start of the `n`-th attempt. */
  function Earliest(n: nat): real
    requires n >= 1
  {
    if n == 1 then 0.0 else Earliest(n - 1) + Backoff(n - 1)
  }

  lemma {:induction false} EarliestIs(n: nat)
    requires n >= 4
    ensures Earliest(n) == 90.0 + 60.0 * (n - 4) as real
    decreases n
  {
    if n == 4 {
      assert Earliest(2) == 15.0;
      assert Earliest(3) == 45.0;
    } else {
      EarliestIs(n - 1);
    }
  }

  /** Within the age limit at most seventeen attempts start. */
  lemma SeventeenFit(n: nat)
    requires n >= 1 && Earliest(n) <= MaxAge
    ensures n <= 17
  {
    if n >= 4 {
      EarliestIs(n);
    }
  }

  predicate WaitOk(st: State, e: Entry) {
    e.firstSeen <= st.clock && e.nextAt >= e.firstSeen + Earliest(e.attempts + 1) && st.launched[e.id] == e.attempts
  }

  /** Taken from the queue in time. */
  predicate InTime(st: State, e: Entry) {
    Earliest(e.attempts + 1) <= MaxAge && e.firstSeen + Earliest(e.attempts + 1) <= st.clock
  }

  predicate DueOk(st: State, e: Entry) {
    InTime(st, e) && st.launched[e.id] == e.attempts
  }

  predicate RunOk(st: State, e: Entry) {
    InTime(st, e) && st.launched[e.id] == e.attempts + 1
  }

  ghost predicate Timed(st: State) {
    && (forall e :: e in st.pending ==> WaitOk(st, e))
    && (forall e :: e in st.due ==> DueOk(st, e))
    && (forall e :: e in st.running ==> RunOk(st, e))
    && (forall e :: e in Entries(st.ended) ==> RunOk(st, e))
    && (forall id :: st.launched[id] <= 17)
    && (forall id :: id !in st.scanned ==> st.launched[id] == 0)
    && (forall id :: id in st.done ==> st.launched[id] >= 1)
  }

  lemma Listed(es: seq<Entry>, e: Entry)
    requires e in es
    ensures CountIn(es, e.id) >= 1
  {
    var k :| 0 <= k < |es| && es[k] == e;
    CountMember(es, k);
  }

  /** The entry launched is the only one with its id. */
  lemma OthersDiffer(st: State, e: Entry)
    requires st.due != [] && OncePlaced(st)
    requires e in st.pending || e in st.due[1..] || e in st.running || e in Entries(st.ended)
    ensures e.id != st.due[0].id
  {
    var id := st.due[0].id;
    assert Places(st, id) <= 1;
    assert CountIn(st.due, id) == 1 + CountIn(st.due[1..], id);
    if e in st.pending { Listed(st.pending, e); }
    if e in st.due[1..] { Listed(st.due[1..], e); }
    if e in st.running { Listed(st.running, e); }
    if e in Entries(st.ended) { Listed(Entries(st.ended), e); }
  }

  lemma LaunchTimed(st: State)
    requires Enabled(st, Launch) && OncePlaced(st) && Timed(st)
    ensures Timed(Next(st, Launch))
  {
    var next, e0 := Next(st, Launch), st.due[0];
    assert e0 in st.due;
    SeventeenFit(e0.attempts + 1);
    forall e | e in next.pending ensures WaitOk(next, e) {
      OthersDiffer(st, e);
      assert WaitOk(st, e);
    }
    forall e | e in next.due ensures DueOk(next, e) {
      OthersDiffer(st, e);
      assert DueOk(st, e);
    }
    forall e | e in next.running ensures RunOk(next, e) {
      if e in st.running {
        OthersDiffer(st, e);
        assert RunOk(st, e);
      } else {
        assert e == e0 && DueOk(st, e0);
      }
    }
    forall e | e in Entries(next.ended) ensures RunOk(next, e) {
      OthersDiffer(st, e);
      assert RunOk(st, e);
    }
    PendingNotScanned(st, e0);
  }

  lemma PendingNotScanned(st: State, e: Entry)
    requires OncePlaced(st) && e in st.due
    ensures e.id in st.scanned
  {
    Listed(st.due, e);
    assert Places(st, e.id) >= 1;
  }

  lemma CollectTimed(st: State)
    requires Enabled(st, Collect) && Timed(st)
    ensures Timed(Next(st, Collect))
  {
    var next := Next(st, Collect);
    forall e | e in next.due ensures DueOk(next, e) {
      assert e in Kept(st.pending, st.clock) && e in st.pending;
      assert WaitOk(st, e);
    }
    forall e | e in next.pending ensures WaitOk(next, e) {
      assert e in Kept(st.pending, st.clock) && e in st.pending;
    }
  }

  lemma QueueTimed(st: State)
    requires Enabled(st, Queue) && OncePlaced(st) && ScanOk(st) && Timed(st)
    ensures Timed(Next(st, Queue))
  {
    var next, scan := Next(st, Queue), st.scan;
    WaitingCount(st.pending, scan.id);
    assert Places(st, scan.id) == 0;
    forall e | e in next.pending ensures WaitOk(next, e) {
      if e in st.pending {
        assert WaitOk(st, e);
      } else {
        assert e == Entry(scan.id, scan.members, scan.height, 0, st.clock, st.clock);
      }
    }
  }

  lemma StepScanOk(st: State, step: Step)
    requires Enabled(st, step) && OncePlaced(st) && FlightMatches(st) && ScanOk(st) && Timed(st)
    ensures ScanOk(Next(st, step))
  {
    match step
    case Scan(id, _, _) => assert Places(st, id) == 0;
    case Leave(t, ok) =>
      if !st.scan.Quiet? {
        LeavePlaces(st, t, ok, st.scan.id);
      }
    case Record(t) =>
      if !st.scan.Quiet? {
        RecordPlaces(st, t, st.scan.id);
      }
    case _ =>
  }

  lemma LeaveTimed(st: State, t: nat, ok: bool)
    requires t < |st.running| && Timed(st)
    ensures Timed(Next(st, Leave(t, ok)))
  {
    var next := Next(st, Leave(t, ok));
    assert st.running[t] in st.running;
    forall e | e in next.running ensures RunOk(next, e) {
      assert e in st.running;
      assert RunOk(st, e);
    }
    forall e | e in Entries(next.ended) ensures RunOk(next, e) {
      assert Entries(next.ended) == Entries(st.ended) + [st.running[t]];
      assert RunOk(st, e);
    }
  }

  lemma RecordTimed(st: State, t: nat)
    requires t < |st.ended| && Timed(st)
    ensures Timed(Next(st, Record(t)))
  {
    var next, e0 := Next(st, Record(t)), st.ended[t].0;
    assert Entries(st.ended)[t] == e0 && e0 in Entries(st.ended);
    EntriesRemove(st.ended, t);
    forall e | e in Entries(next.ended) ensures RunOk(next, e) {
      assert e in Entries(st.ended);
      assert RunOk(st, e);
    }
    forall e | e in next.pending ensures WaitOk(next, e) {
      if e in st.pending {
        assert WaitOk(st, e);
      } else {
        assert e == Retried(e0, st.clock) && RunOk(st, e0);
        assert Earliest(e.attempts + 1) == Earliest(e0.attempts + 1) + Backoff(e0.attempts + 1);
        BackoffPositive(e0.attempts);
      }
    }
  }

  lemma {:induction false} BackoffPositive(n: nat)
    ensures Earliest(n + 1) >= 0.0
  {
    if n > 0 {
      BackoffPositive(n - 1);
    }
  }

  lemma TickTimed(st: State, to: real)
    requires to >= st.clock && Timed(st)
    ensures Timed(st.(clock := to))
  {
    var next := st.(clock := to);
    forall e | e in next.pending ensures WaitOk(next, e) { assert WaitOk(st, e); }
    forall e | e in next.due ensures DueOk(next, e) { assert DueOk(st, e); }
    forall e | e in next.running ensures RunOk(next, e) { assert RunOk(st, e); }
    forall e | e in Entries(next.ended) ensures RunOk(next, e) { assert RunOk(st, e); }
  }

  ghost predicate Inv(st: State) {
    OncePlaced(st) && FlightMatches(st) && ScanOk(st) && Timed(st)
  }

  lemma StepKeeps(st: State, step: Step)
    requires Enabled(st, step) && Inv(st)
    ensures Inv(Next(st, step))
  {
    StepPlaces(st, step);
    StepScanOk(st, step);
    match step
    case Scan(_, _, _) =>
    case LookInFlight =>
    case Queue => QueueTimed(st);
    case Collect => CollectTimed(st);
    case Launch => LaunchTimed(st);
    case Leave(t, ok) => LeaveTimed(st, t, ok);
    case Record(t) => RecordTimed(st, t);
    case Tick(to) => TickTimed(st, to);
  }

  // ---- runs ----

  predicate Run(st: State, steps: seq<Step>, end: State)
    decreases |steps|
  {
    if steps == [] then st == end else Enabled(st, steps[0]) && Run(Next(st, steps[0]), steps[1..], end)
  }

  lemma {:induction false} RunKeeps(st: State, steps: seq<Step>, end: State)
    requires Inv(st) && Run(st, steps, end)
    ensures Inv(end)
    decreases |steps|
  {
    if steps != [] {
      StepKeeps(st, steps[0]);
      RunKeeps(Next(st, steps[0]), steps[1..], end);
    }
  }

  /** Under every interleaving: an id is in at most one of the queue, the loop's hands, the running
      tasks, the ended tasks and the done set; in flight are exactly the running ones, so none runs
      twice at once; and no id is attempted more than seventeen times. */
  lemma KeygenOnceAndBounded(steps: seq<Step>, end: State, id: Id)
    requires Run(Start, steps, end)
    ensures CountIn(end.pending, id) + CountIn(end.due, id) + CountIn(end.running, id) + CountIn(Entries(end.ended), id)
      + (if id in end.done then 1 else 0) <= 1
    ensures id in end.inFlight <==> CountIn(end.running, id) == 1
    ensures end.launched[id] <= 17
  {
    assert Entries(Start.ended) == [];
    RunKeeps(Start, steps, end);
    assert Places(end, id) <= 1;
  }

  // ---- scanning an id again ----

  /** An id seen in a second block, its queueing uninterrupted. */
  function Rescanned(st: State, id: Id, members: seq<Name>, height: int): State {
    st.(pending := Enqueued(st.pending, st.inFlight, st.done, id, members, height, st.clock))
  }

  /** An id scanned again is in two places exactly when a task of it has left the in-flight set
      without having recorded its result. */
  lemma QueuedTwiceIff(st: State, id: Id, members: seq<Name>, height: int)
    requires Inv(st) && st.due == []
    ensures Places(Rescanned(st, id, members, height), id) > 1 <==> CountIn(Entries(st.ended), id) > 0
  {
    assert Places(st, id) <= 1;
    WaitingCount(st.pending, id);
    PushCount(st.pending, id, members, height, st.clock, id);
  }

  /** The section under the queue's lock keeps everything, the bound on the attempts included, exactly
      when the id is waiting already or was never launched, whatever was looked up before. */
  lemma PushKeepsInvIff(st: State, id: Id, members: seq<Name>, height: int)
    requires Inv(st) && st.due == [] && st.scan.Quiet? && id in st.scanned
    ensures Inv(st.(pending := Pushed(st.pending, id, members, height, st.clock))) <==>
      Waiting(st.pending, id) || st.launched[id] == 0
  {
    var next := st.(pending := Pushed(st.pending, id, members, height, st.clock));
    if !Waiting(st.pending, id) {
      var e := Entry(id, members, height, 0, st.clock, st.clock);
      assert e in next.pending && (WaitOk(next, e) <==> st.launched[id] == 0);
      if st.launched[id] == 0 {
        NeverLaunched(st, id);
        WaitingCount(st.pending, id);
        var before := st.(scan := NotFlying(id, members, height));
        assert Places(before, id) == 0 && next == Next(before, Queue);
        SamePlaces(st, before);
        StepKeeps(before, Queue);
      }
    }
  }

  /** An id never launched is neither running, ended nor done. */
  lemma NeverLaunched(st: State, id: Id)
    requires Inv(st) && st.due == [] && st.launched[id] == 0
    ensures CountIn(st.running, id) == 0 && CountIn(Entries(st.ended), id) == 0 && id !in st.done
  {
    RanBefore(st, st.running, id);
    RanBefore(st, Entries(st.ended), id);
  }

  lemma RanBefore(st: State, es: seq<Entry>, id: Id)
    requires forall e :: e in es ==> RunOk(st, e)
    ensures CountIn(es, id) > 0 ==> st.launched[id] >= 1
  {
    WaitingCount(es, id);
    if CountIn(es, id) > 0 {
      var k :| 0 <= k < |es| && es[k].id == id;
      assert RunOk(st, es[k]);
    }
  }

  lemma SamePlaces(st: State, before: State)
    requires before == st.(scan := before.scan) && Inv(st) && ScanOk(before)
    ensures Inv(before)
  {
    forall id ensures Places(before, id) == Places(st, id) {
    }
  }

  /** A second scan keeps everything exactly when the id is done, in flight or waiting, or was never
      launched. */
  lemma RescanKeepsInvIff(st: State, id: Id, members: seq<Name>, height: int)
    requires Inv(st) && st.due == [] && st.scan.Quiet? && id in st.scanned
    ensures Inv(Rescanned(st, id, members, height)) <==>
      id in st.done || id in st.inFlight || Waiting(st.pending, id) || st.launched[id] == 0
  {
    PushKeepsInvIff(st, id, members, height);
  }

  // ---- the failing runs ----

  lemma FilterOne(p: Entry -> bool, e: Entry)
    ensures Filter(p, [e]) == if p(e) then [e] else []
  {
    assert [e][1..] == [];
  }

  lemma {:induction false} RunThen(a: State, xs: seq<Step>, b: State, ys: seq<Step>, c: State)
    requires Run(a, xs, b) && Run(b, ys, c)
    ensures Run(a, xs + ys, c)
    decreases |xs|
  {
    if xs == [] {
      assert xs + ys == ys;
    } else {
      assert (xs + ys)[0] == xs[0] && (xs + ys)[1..] == xs[1..] + ys;
      RunThen(Next(a, xs[0]), xs[1..], b, ys, c);
    }
  }

  lemma RunOne(a: State, x: Step)
    requires Enabled(a, x)
    ensures Run(a, [x], Next(a, x))
  {
    assert [x][1..] == [];
  }

  /** One more step at the end of a run. */
  lemma RunMore(a: State, xs: seq<Step>, b: State, x: Step)
    requires Run(a, xs, b) && Enabled(b, x)
    ensures Run(a, xs + [x], Next(b, x))
  {
    RunOne(b, x);
    RunThen(a, xs, b, [x], Next(b, x));
  }

  /** One keygen, waiting with `k` failed attempts behind it, each made as early as possible. */
  function Alone(id: Id, members: seq<Name>, height: int, k: nat): State {
    State(if k == 0 then 0.0 else Earliest(k), [Entry(id, members, height, k, Earliest(k + 1), 0.0)], [], [], [], {}, {},
          multiset{}[id := k], {id}, Quiet)
  }

  lemma QueuedAlone(id: Id, members: seq<Name>, height: int) returns (steps: seq<Step>)
    ensures Run(Start, steps, Alone(id, members, height, 0))
  {
    var s0 := Start;
    RunOne(s0, Scan(id, members, height));
    var s1 := Next(s0, Scan(id, members, height));
    RunMore(s0, [Scan(id, members, height)], s1, LookInFlight);
    var s2 := Next(s1, LookInFlight);
    RunMore(s0, [Scan(id, members, height)] + [LookInFlight], s2, Queue);
    steps := [Scan(id, members, height)] + [LookInFlight] + [Queue];
    var empty: multiset<Id> := multiset{};
    assert empty[id := 0] == empty;
    assert s0.scanned + {id} == {id};
    assert Next(s2, Queue).pending == [Entry(id, members, height, 0, 0.0, 0.0)];
    assert Next(s2, Queue) == Alone(id, members, height, 0);
  }

  /** The entry is due at its time, and collected. */
  lemma CollectedAlone(id: Id, members: seq<Name>, height: int, k: nat) returns (end: State)
    requires Earliest(k + 1) <= MaxAge
    ensures Run(Alone(id, members, height, k), [Tick(Earliest(k + 1)), Collect], end)
    ensures end == Alone(id, members, height, k).(clock := Earliest(k + 1), pending := [],
      due := [Entry(id, members, height, k, Earliest(k + 1), 0.0)])
  {
    var a, e, at := Alone(id, members, height, k), Entry(id, members, height, k, Earliest(k + 1), 0.0), Earliest(k + 1);
    BackoffPositive(k);
    EarliestGrows(k);
    RunOne(a, Tick(at));
    var s1 := Next(a, Tick(at));
    FilterOne((e: Entry) => Young(e, at), e);
    FilterOne((e: Entry) => Due(e, at, {}), e);
    FilterOne((e: Entry) => !Due(e, at, {}), e);
    RunMore(a, [Tick(at)], s1, Collect);
    end := Next(s1, Collect);
    assert [Tick(at)] + [Collect] == [Tick(at), Collect];
  }

  /** The entry at work: collected, launched, and out of the in-flight set with a failure. */
  lemma FailedAlone(id: Id, members: seq<Name>, height: int, k: nat) returns (steps: seq<Step>, end: State)
    requires Earliest(k + 1) <= MaxAge
    ensures Run(Alone(id, members, height, k), steps, end)
    ensures end == Alone(id, members, height, k).(clock := Earliest(k + 1), pending := [],
      ended := [(Entry(id, members, height, k, Earliest(k + 1), 0.0), false)], launched := multiset{}[id := k + 1])
  {
    var a := Alone(id, members, height, k);
    var s2 := CollectedAlone(id, members, height, k);
    steps := [Tick(Earliest(k + 1)), Collect];
    RunMore(a, steps, s2, Launch);
    var s3 := Next(s2, Launch);
    assert s3.running == [s2.due[0]] && s3.due == [] && s3.inFlight == {id};
    RunMore(a, steps + [Launch], s3, Leave(0, false));
    end := Next(s3, Leave(0, false));
    steps := steps + [Launch] + [Leave(0, false)];
    assert a.launched + multiset{id} == multiset{}[id := k + 1];
    assert end.running == [] && end.inFlight == {};
  }

  lemma EarliestGrows(k: nat)
    ensures k > 0 ==> Earliest(k) <= Earliest(k + 1)
  {
  }

  lemma RetriedAlone(id: Id, members: seq<Name>, height: int, k: nat) returns (steps: seq<Step>)
    requires Earliest(k + 1) <= MaxAge
    ensures Run(Alone(id, members, height, k), steps, Alone(id, members, height, k + 1))
  {
    var failed: State;
    steps, failed := FailedAlone(id, members, height, k);
    RunMore(Alone(id, members, height, k), steps, failed, Record(0));
    steps := steps + [Record(0)];
    assert Next(failed, Record(0)).ended == [];
    assert Next(failed, Record(0)) == Alone(id, members, height, k + 1);
  }

  lemma EarliestFits(k: nat)
    requires 1 <= k <= 17
    ensures Earliest(k) <= MaxAge
  {
    if k >= 4 {
      EarliestIs(k);
    } else {
      assert Earliest(2) == 15.0 && Earliest(3) == 45.0;
    }
  }

  lemma {:induction false} AttemptsAlone(id: Id, members: seq<Name>, height: int, k: nat) returns (steps: seq<Step>)
    requires k <= 17
    ensures Run(Start, steps, Alone(id, members, height, k))
    decreases k
  {
    if k == 0 {
      steps := QueuedAlone(id, members, height);
    } else {
      steps := AttemptsAlone(id, members, height, k - 1);
      EarliestFits(k);
      var more := RetriedAlone(id, members, height, k - 1);
      RunThen(Start, steps, Alone(id, members, height, k - 1), more, Alone(id, members, height, k));
      steps := steps + more;
    }
  }

  /** A run after which a second scan puts the id in two places. */
  lemma ScannedInTheGap(id: Id, members: seq<Name>, height: int) returns (steps: seq<Step>, end: State)
    ensures Run(Start, steps, end) && Places(Rescanned(end, id, members, height), id) == 2
  {
    var queued := QueuedAlone(id, members, height);
    EarliestFits(1);
    var more: seq<Step>;
    more, end := FailedAlone(id, members, height, 0);
    RunThen(Start, queued, Alone(id, members, height, 0), more, end);
    steps := queued + more;
    var e := Entry(id, members, height, 0, Earliest(1), 0.0);
    assert Entries(end.ended) == [e];
    CountOne(e, id);
    PushCount(end.pending, id, members, height, end.clock, id);
  }

  /** Seventeen attempts, and the entry abandoned for its age. */
  lemma Abandoned(id: Id, members: seq<Name>, height: int) returns (steps: seq<Step>, end: State)
    ensures Run(Start, steps, end)
    ensures end == Alone(id, members, height, 17).(clock := 1000.0, pending := [])
  {
    var a := Alone(id, members, height, 17);
    steps := AttemptsAlone(id, members, height, 17);
    EarliestFits(17);
    RunMore(Start, steps, a, Tick(1000.0));
    var late := Next(a, Tick(1000.0));
    FilterOne((e: Entry) => Young(e, 1000.0), a.pending[0]);
    RunMore(Start, steps + [Tick(1000.0)], late, Collect);
    steps := steps + [Tick(1000.0)] + [Collect];
    end := Next(late, Collect);
    assert Kept(late.pending, 1000.0) == [];
  }

  /** A run after which a second scan of the abandoned id leads to an eighteenth attempt. */
  lemma EighteenthAttempt(id: Id, members: seq<Name>, height: int) returns (steps: seq<Step>, mid: State, more: seq<Step>, end: State)
    ensures Run(Start, steps, mid) && Run(Rescanned(mid, id, members, height), more, end) && end.launched[id] == 18
  {
    steps, mid := Abandoned(id, members, height);
    var again, e := Rescanned(mid, id, members, height), Entry(id, members, height, 0, 1000.0, 1000.0);
    assert again.pending == [e];
    FilterOne((e: Entry) => Young(e, 1000.0), e);
    FilterOne((e: Entry) => Due(e, 1000.0, {}), e);
    RunOne(again, Collect);
    var s1 := Next(again, Collect);
    assert s1.due == [e];
    RunMore(again, [Collect], s1, Launch);
    more := [Collect] + [Launch];
    end := Next(s1, Launch);
  }
}
