/** Many sessions over one stream: frames are routed by session id to the mailbox registered
    under it, or held back for one that is not registered yet. The router task, registrations
    and drops interleave between the lock sections of the code. */
module Router {
  import opened Names

  type Id = string

  datatype Held = Held(at: int, frame: nat)

  /** What the router has in hand between its lock sections. */
  datatype Hand = Idle | Decoded(frame: nat) | Routed(frame: nat, tx: Option<nat>)

  /** Frames are numbered in order of arrival, `frames` giving their session ids; mailboxes are
      numbered in order of creation, `logs` giving what was handed to each and `ids` the session
      ids each was registered under. */
  datatype State = State(
    frames: seq<Id>, hand: Hand, sessions: map<Id, nat>, pending: map<Id, seq<Held>>,
    logs: seq<seq<nat>>, ids: seq<seq<Id>>, open: set<nat>, dropped: set<nat>)

  const MaxAge := 60
  const MaxHeld := 1024

  const Start := State([], Idle, map[], map[], [], [], {}, {})

  // ---- held frames ----

  function Fresh(hs: seq<Held>, now: int): seq<Held> {
    if hs == [] then []
    else if now - hs[0].at < MaxAge then [hs[0]] + Fresh(hs[1..], now)
    else Fresh(hs[1..], now)
  }

  /** The buffers without what is too old, empty ones removed. */
  function Retain(pending: map<Id, seq<Held>>, now: int): map<Id, seq<Held>> {
    map id | id in pending && Fresh(pending[id], now) != [] :: Fresh(pending[id], now)
  }

  function FramesOf(hs: seq<Held>): (fs: seq<nat>)
    ensures |fs| == |hs| && forall k :: 0 <= k < |hs| ==> fs[k] == hs[k].frame
  {
    seq(|hs|, k requires 0 <= k < |hs| => hs[k].frame)
  }

  function Buf(pending: map<Id, seq<Held>>, id: Id): seq<Held> {
    if id in pending then pending[id] else []
  }

  /** All frames held. */
  function HeldFrames(pending: map<Id, seq<Held>>): set<nat> {
    set id, h | id in pending && h in pending[id] :: h.frame
  }

  // ---- the steps ----

  datatype Step =
    | Receive(id: Id)
    | Lookup
    | Forward
    | Buffer(now: int)
    | Register(list: seq<Id>)
    | DropMailbox(mailbox: nat)

  predicate Enabled(st: State, step: Step) {
    match step
    case Receive(_) => st.hand.Idle?
    case Lookup => st.hand.Decoded?
    case Forward => st.hand.Routed? && st.hand.tx.Some?
    case Buffer(_) => st.hand.Routed? && st.hand.tx.None?
    case Register(_) => true
    case DropMailbox(m) => m in st.open
  }

  function IdOf(st: State, frame: nat): Id {
    if frame < |st.frames| then st.frames[frame] else ""
  }

  function LookedUp(st: State): State
    requires st.hand.Decoded?
  {
    var id := IdOf(st, st.hand.frame);
    st.(hand := Routed(st.hand.frame, if id in st.sessions then Some(st.sessions[id]) else None))
  }

  function Forwarded(st: State): State
    requires st.hand.Routed? && st.hand.tx.Some?
  {
    var m := st.hand.tx.value;
    if m in st.open && m < |st.logs| then st.(hand := Idle, logs := st.logs[m := st.logs[m] + [st.hand.frame]])
    else st.(hand := Idle, dropped := st.dropped + {st.hand.frame})
  }

  function Buffered(st: State, now: int): State
    requires st.hand.Routed?
  {
    var kept := Retain(st.pending, now);
    var aged := HeldFrames(st.pending) - HeldFrames(kept);
    var id := IdOf(st, st.hand.frame);
    if |Buf(kept, id)| < MaxHeld then
      st.(hand := Idle, pending := kept[id := Buf(kept, id) + [Held(now, st.hand.frame)]], dropped := st.dropped + aged)
    else
      st.(hand := Idle, pending := kept, dropped := st.dropped + aged + {st.hand.frame})
  }

  /** Drain and register the ids of `list` for the mailbox `m`. */
  function RegisterAll(st: State, m: nat, list: seq<Id>): State
    requires m < |st.logs|
    decreases |list|
  {
    if list == [] then st else RegisterAll(RegisterOne(st, m, list[0]), m, list[1..])
  }

  function RegisterOne(st: State, m: nat, id: Id): State
    requires m < |st.logs|
  {
    st.(logs := st.logs[m := st.logs[m] + FramesOf(Buf(st.pending, id))],
        pending := st.pending - {id}, sessions := st.sessions[id := m])
  }

  function Opened(st: State, list: seq<Id>): State {
    st.(logs := st.logs + [[]], ids := st.ids + [list], open := st.open + {|st.logs|})
  }

  function Registered(st: State, list: seq<Id>): State {
    RegisterAll(Opened(st, list), |st.logs|, list)
  }

  function IdSet(list: seq<Id>): set<Id> {
    set id | id in list
  }

  /** Dropping a mailbox unregisters its ids, whoever holds them by then. */
  function Dropped(st: State, m: nat): State {
    st.(sessions := if m < |st.ids| then st.sessions - IdSet(st.ids[m]) else st.sessions, open := st.open - {m})
  }

  function Next(st: State, step: Step): State
    requires Enabled(st, step)
  {
    match step
    case Receive(id) => st.(frames := st.frames + [id], hand := Decoded(|st.frames|))
    case Lookup => LookedUp(st)
    case Forward => Forwarded(st)
    case Buffer(now) => Buffered(st, now)
    case Register(list) => Registered(st, list)
    case DropMailbox(m) => Dropped(st, m)
  }

  // ---- the code ----

  /** The shared maps, with what the router has in hand and what each mailbox was handed. */
  class SessionRouter {
    var frames: seq<Id>
    var hand: Hand
    var sessions: map<Id, nat>
    var pending: map<Id, seq<Held>>
    var logs: seq<seq<nat>>
    var ids: seq<seq<Id>>
    var open: set<nat>
    var dropped: set<nat>

    ghost function Value(): State
      reads this
    {
      State(frames, hand, sessions, pending, logs, ids, open, dropped)
    }

    constructor ()
      ensures Value() == Start
    {
      frames, hand, sessions, pending, logs, ids, open, dropped := [], Idle, map[], map[], [], [], {}, {};
    }

    method ReceiveFrame(id: Id)
      requires hand.Idle?
      modifies this
      ensures Value() == Next(old(Value()), Receive(id))
    {
      hand := Decoded(|frames|);
      frames := frames + [id];
    }

    method LookupMailbox()
      requires hand.Decoded? && hand.frame < |frames|
      modifies this
      ensures Value() == Next(old(Value()), Lookup)
    {
      var id := frames[hand.frame];
      hand := Routed(hand.frame, if id in sessions then Some(sessions[id]) else None);
    }

    method ForwardFrame()
      requires hand.Routed? && hand.tx.Some?
      modifies this
      ensures Value() == Next(old(Value()), Forward)
    {
      var m := hand.tx.value;
      if m in open && m < |logs| {
        logs := logs[m := logs[m] + [hand.frame]];
      } else {
        dropped := dropped + {hand.frame};
      }
      hand := Idle;
    }

    method BufferFrame(now: int)
      requires hand.Routed? && hand.tx.None? && hand.frame < |frames|
      modifies this
      ensures Value() == Next(old(Value()), Buffer(now))
    {
      var id := frames[hand.frame];
      var kept := Retain(pending, now);
      dropped := dropped + (HeldFrames(pending) - HeldFrames(kept));
      pending := kept;
      var buf := Buf(pending, id);
      if |buf| < MaxHeld {
        pending := pending[id := buf + [Held(now, hand.frame)]];
      } else {
        dropped := dropped + {hand.frame};
      }
      hand := Idle;
    }

    method SessionsMulti(list: seq<Id>) returns (m: nat)
      modifies this
      ensures m == old(|logs|) && Value() == Next(old(Value()), Register(list))
      ensures forall id :: id in list ==> id in sessions && sessions[id] == m && id !in pending
    {
      m := |logs|;
      logs, ids, open := logs + [[]], ids + [list], open + {m};
      ghost var st := Value();
      for k := 0 to |list|
        invariant m < |logs| && RegisterAll(Value(), m, list[k..]) == RegisterAll(st, m, list)
        invariant forall i :: 0 <= i < k ==> list[i] in sessions && sessions[list[i]] == m && list[i] !in pending
      {
        var id := list[k];
        assert list[k..][0] == id && list[k..][1..] == list[k + 1..];
        if id in pending {
          logs := logs[m := logs[m] + FramesOf(pending[id])];
        } else {
          assert FramesOf([]) == [] && logs[m] + [] == logs[m];
          assert logs[m := logs[m] + FramesOf([])] == logs;
        }
        pending := pending - {id};
        sessions := sessions[id := m];
      }
    }

    method Drop(m: nat)
      requires m in open && m < |ids|
      modifies this
      ensures Value() == Next(old(Value()), DropMailbox(m))
      ensures forall id :: id in sessions <==> id in old(sessions) && id !in old(ids[m])
      ensures forall id :: id in sessions ==> sessions[id] == old(sessions)[id]
    {
      var list := ids[m];
      ghost var before := sessions;
      for k := 0 to |list|
        invariant Value() == old(Value()).(sessions := before - IdSet(list[..k]))
      {
        sessions := sessions - {list[k]};
        assert IdSet(list[..k + 1]) == IdSet(list[..k]) + {list[k]};
        assert before - IdSet(list[..k + 1]) == before - IdSet(list[..k]) - {list[k]};
      }
      assert list[..|list|] == list;
      open := open - {m};
    }
  }
}

/** What every interleaving keeps. */
module RouterRuns {
  import opened Names
  import opened Router

  datatype Place = InHand | InBuffer(id: Id) | InMailbox(mailbox: nat) | Gone

  predicate At(st: State, f: nat, p: Place) {
    match p
    case InHand => !st.hand.Idle? && st.hand.frame == f
    case InBuffer(id) => f in FramesOf(Buf(st.pending, id))
    case InMailbox(m) => m < |st.logs| && f in st.logs[m]
    case Gone => f in st.dropped
  }

  /** Each frame received is in the one place `places` gives, and nothing else is anywhere. */
  ghost predicate Placed(st: State, places: seq<Place>) {
    && |places| == |st.frames|
    && forall f: nat, p: Place {:trigger At(st, f, p)} :: At(st, f, p) <==> f < |places| && places[f] == p
  }

  predicate Ascending(fs: seq<nat>) {
    forall i, j :: 0 <= i < j < |fs| ==> fs[i] < fs[j]
  }

  /** Frames of one id appear in order of arrival. */
  predicate InOrder(st: State, log: seq<nat>) {
    forall i, j :: 0 <= i < j < |log| && IdOf(st, log[i]) == IdOf(st, log[j]) ==> log[i] < log[j]
  }

  predicate BufferOk(st: State, id: Id, hs: seq<Held>) {
    Ascending(FramesOf(hs)) && |hs| <= MaxHeld && forall k :: 0 <= k < |hs| ==> IdOf(st, hs[k].frame) == id
  }

  predicate LogOk(st: State, m: nat)
    requires m < |st.logs| == |st.ids|
  {
    InOrder(st, st.logs[m]) && forall k :: 0 <= k < |st.logs[m]| ==> IdOf(st, st.logs[m][k]) in st.ids[m]
  }

  /** Registrations point at mailboxes registered under the id. */
  predicate Aimed(st: State) {
    && |st.ids| == |st.logs|
    && (forall m :: m in st.open ==> m < |st.logs|)
    && (forall id :: id in st.sessions ==> st.sessions[id] < |st.ids| && id in st.ids[st.sessions[id]])
    && (!st.hand.Idle? ==> st.hand.frame + 1 == |st.frames|)
    && (st.hand.Routed? && st.hand.tx.Some? ==> st.hand.tx.value < |st.ids| && IdOf(st, st.hand.frame) in st.ids[st.hand.tx.value])
  }

  predicate Ordered(st: State)
    requires |st.ids| == |st.logs|
  {
    && (forall id :: id in st.pending ==> BufferOk(st, id, st.pending[id]))
    && (forall m {:trigger st.logs[m]} :: 0 <= m < |st.logs| ==> LogOk(st, m))
  }

  ghost predicate Inv(st: State, places: seq<Place>) {
    Placed(st, places) && Aimed(st) && Ordered(st)
  }

  // ---- small facts ----

  lemma LogFrameKnown(st: State, places: seq<Place>, m: nat, k: nat)
    requires Placed(st, places) && m < |st.logs| && k < |st.logs[m]|
    ensures st.logs[m][k] < |st.frames| && places[st.logs[m][k]] == InMailbox(m)
  {
    assert At(st, st.logs[m][k], InMailbox(m));
  }

  lemma HeldFrameKnown(st: State, places: seq<Place>, id: Id, k: nat)
    requires Placed(st, places) && k < |Buf(st.pending, id)|
    ensures Buf(st.pending, id)[k].frame < |st.frames| && places[Buf(st.pending, id)[k].frame] == InBuffer(id)
  {
    var fs := FramesOf(Buf(st.pending, id));
    assert fs[k] in fs;
    assert At(st, fs[k], InBuffer(id));
  }

  /** Extending the list of frames changes no id already known. */
  lemma OrderedGrows(st: State, places: seq<Place>, id: Id, next: State)
    requires Placed(st, places) && Aimed(st) && Ordered(st)
    requires next.frames == st.frames + [id] && next.pending == st.pending && next.logs == st.logs && next.ids == st.ids
    ensures Ordered(next)
  {
    forall m | 0 <= m < |next.logs| ensures LogOk(next, m) {
      assert LogOk(st, m);
      forall k | 0 <= k < |st.logs[m]| ensures IdOf(next, st.logs[m][k]) == IdOf(st, st.logs[m][k]) {
        LogFrameKnown(st, places, m, k);
      }
    }
    forall b | b in next.pending ensures BufferOk(next, b, next.pending[b]) {
      assert BufferOk(st, b, st.pending[b]);
      forall k | 0 <= k < |st.pending[b]| ensures IdOf(next, st.pending[b][k].frame) == b {
        HeldFrameKnown(st, places, b, k);
      }
    }
  }

  lemma ReceiveKeeps(st: State, places: seq<Place>, id: Id) returns (after: seq<Place>)
    requires Inv(st, places) && st.hand.Idle?
    ensures Inv(Next(st, Receive(id)), after)
  {
    var next := Next(st, Receive(id));
    after := places + [InHand];
    forall f: nat, p: Place ensures At(next, f, p) <==> f < |after| && after[f] == p {
      assert p != InHand ==> At(next, f, p) == At(st, f, p);
      assert !At(st, f, InHand);
    }
    OrderedGrows(st, places, id, next);
  }

  lemma LookupKeeps(st: State, places: seq<Place>)
    requires Inv(st, places) && st.hand.Decoded?
    ensures Inv(Next(st, Lookup), places)
  {
    var next := Next(st, Lookup);
    forall f: nat, p: Place ensures At(next, f, p) == At(st, f, p) {
    }
    forall m | 0 <= m < |next.logs| ensures LogOk(next, m) {
      assert LogOk(st, m);
    }
    forall b | b in next.pending ensures BufferOk(next, b, next.pending[b]) {
      assert BufferOk(st, b, st.pending[b]);
    }
  }

  lemma DropKeeps(st: State, places: seq<Place>, m: nat)
    requires Inv(st, places) && m in st.open
    ensures Inv(Next(st, DropMailbox(m)), places)
  {
    var next := Next(st, DropMailbox(m));
    forall f: nat, p: Place ensures At(next, f, p) == At(st, f, p) {
    }
    forall k | 0 <= k < |next.logs| ensures LogOk(next, k) {
      assert LogOk(st, k);
    }
    forall b | b in next.pending ensures BufferOk(next, b, next.pending[b]) {
      assert BufferOk(st, b, st.pending[b]);
    }
  }

  /** The newest frame comes after every other in a log. */
  lemma AppendNewest(st: State, places: seq<Place>, m: nat, f: nat)
    requires Placed(st, places) && |st.ids| == |st.logs| && m < |st.logs| && LogOk(st, m)
    requires f + 1 == |st.frames| && At(st, f, InHand) && IdOf(st, f) in st.ids[m]
    ensures InOrder(st, st.logs[m] + [f])
    ensures forall k :: 0 <= k < |st.logs[m] + [f]| ==> IdOf(st, (st.logs[m] + [f])[k]) in st.ids[m]
  {
    forall k | 0 <= k < |st.logs[m]| ensures st.logs[m][k] < f {
      LogFrameKnown(st, places, m, k);
    }
  }

  lemma ForwardPlaces(st: State, places: seq<Place>, m: nat) returns (after: seq<Place>)
    requires Placed(st, places) && Aimed(st) && st.hand.Routed? && st.hand.tx == Some(m) && m in st.open
    ensures Placed(Forwarded(st), after)
  {
    var f0 := st.hand.frame;
    assert At(st, f0, InHand);
    after := places[f0 := InMailbox(m)];
    var next := Forwarded(st);
    forall f: nat, p: Place ensures At(next, f, p) <==> f < |after| && after[f] == p {
      assert At(st, f, p) <==> f < |places| && places[f] == p;
      assert At(st, f, InHand) <==> f == f0;
    }
  }

  lemma LosePlaces(st: State, places: seq<Place>) returns (after: seq<Place>)
    requires Placed(st, places) && !st.hand.Idle?
    ensures Placed(st.(hand := Idle, dropped := st.dropped + {st.hand.frame}), after)
  {
    var f0 := st.hand.frame;
    assert At(st, f0, InHand);
    after := places[f0 := Gone];
    var next := st.(hand := Idle, dropped := st.dropped + {f0});
    forall f: nat, p: Place ensures At(next, f, p) <==> f < |after| && after[f] == p {
      assert At(st, f, p) <==> f < |places| && places[f] == p;
      assert At(st, f, InHand) <==> f == f0;
    }
  }

  lemma ForwardKeeps(st: State, places: seq<Place>) returns (after: seq<Place>)
    requires Inv(st, places) && st.hand.Routed? && st.hand.tx.Some?
    ensures Inv(Next(st, Forward), after)
  {
    var m, next := st.hand.tx.value, Next(st, Forward);
    if m in st.open {
      after := ForwardPlaces(st, places, m);
      assert At(st, st.hand.frame, InHand);
      assert LogOk(st, m);
      AppendNewest(st, places, m, st.hand.frame);
    } else {
      after := LosePlaces(st, places);
    }
    forall k | 0 <= k < |next.logs| ensures LogOk(next, k) {
      assert LogOk(st, k);
    }
    forall b | b in next.pending ensures BufferOk(next, b, next.pending[b]) {
      assert BufferOk(st, b, st.pending[b]);
    }
  }

  // ---- holding back ----

  lemma {:induction false} FreshIsPart(hs: seq<Held>, now: int)
    ensures |Fresh(hs, now)| <= |hs|
    ensures forall h :: h in Fresh(hs, now) ==> h in hs
    decreases |hs|
  {
    if hs != [] {
      FreshIsPart(hs[1..], now);
    }
  }

  lemma {:induction false} FreshKeepsOrder(hs: seq<Held>, now: int)
    requires Ascending(FramesOf(hs))
    ensures Ascending(FramesOf(Fresh(hs, now)))
    decreases |hs|
  {
    if hs != [] {
      var rest := hs[1..];
      assert FramesOf(rest) == FramesOf(hs)[1..];
      FreshKeepsOrder(rest, now);
      FreshIsPart(rest, now);
      if now - hs[0].at < MaxAge {
        var tail := Fresh(rest, now);
        forall k | 0 <= k < |tail| ensures hs[0].frame < tail[k].frame {
          assert tail[k] in tail;
          var j :| 0 <= j < |rest| && rest[j] == tail[k];
          assert FramesOf(hs)[j + 1] == tail[k].frame && FramesOf(hs)[0] == hs[0].frame;
        }
        assert FramesOf(Fresh(hs, now)) == [hs[0].frame] + FramesOf(tail);
      }
    }
  }

  lemma FrameOfHeld(hs: seq<Held>, f: nat)
    ensures f in FramesOf(hs) <==> exists h :: h in hs && h.frame == f
  {
    var fs := FramesOf(hs);
    if f in fs {
      var k :| 0 <= k < |fs| && fs[k] == f;
      assert hs[k] in hs;
    }
    if h :| h in hs && h.frame == f {
      var k :| 0 <= k < |hs| && hs[k] == h;
      assert fs[k] == f;
    }
  }

  lemma RetainBuf(pending: map<Id, seq<Held>>, now: int, id: Id)
    ensures Buf(Retain(pending, now), id) == Fresh(Buf(pending, id), now)
  {
  }

  lemma HeldSomewhere(pending: map<Id, seq<Held>>, f: nat)
    ensures f in HeldFrames(pending) <==> exists id :: f in FramesOf(Buf(pending, id))
  {
    if f in HeldFrames(pending) {
      var id, h :| id in pending && h in pending[id] && h.frame == f;
      FrameOfHeld(pending[id], f);
      assert f in FramesOf(Buf(pending, id));
    }
    if id :| f in FramesOf(Buf(pending, id)) {
      FrameOfHeld(Buf(pending, id), f);
    }
  }

  /** The buffers after dropping what is too old. */
  function Aged(st: State, now: int): State {
    st.(pending := Retain(st.pending, now),
        dropped := st.dropped + (HeldFrames(st.pending) - HeldFrames(Retain(st.pending, now))))
  }

  lemma FreshFrame(pending: map<Id, seq<Held>>, now: int, id: Id, f: nat)
    requires f in FramesOf(Buf(Retain(pending, now), id))
    ensures f in FramesOf(Buf(pending, id))
  {
    RetainBuf(pending, now, id);
    FrameOfHeld(Buf(Retain(pending, now), id), f);
    FreshIsPart(Buf(pending, id), now);
    FrameOfHeld(Buf(pending, id), f);
  }

  /** Where a frame is once the buffers have been aged. */
  function AgedPlace(st: State, now: int, f: nat, p: Place): Place {
    if p.InBuffer? && f !in FramesOf(Buf(Retain(st.pending, now), p.id)) then Gone else p
  }

  lemma AgedAt(st: State, places: seq<Place>, now: int, f: nat, p: Place)
    requires Placed(st, places)
    ensures At(Aged(st, now), f, p) <==> f < |places| && AgedPlace(st, now, f, places[f]) == p
  {
    var next, kept := Aged(st, now), Retain(st.pending, now);
    HeldSomewhere(st.pending, f);
    HeldSomewhere(kept, f);
    if id :| f in FramesOf(Buf(kept, id)) {
      FreshFrame(st.pending, now, id, f);
      assert At(st, f, InBuffer(id));
    } else if id :| f in FramesOf(Buf(st.pending, id)) {
      assert At(st, f, InBuffer(id));
    }
    assert At(st, f, p) <==> f < |places| && places[f] == p;
    assert At(st, f, Gone) <==> f < |places| && places[f] == Gone;
    if f < |places| && places[f].InBuffer? {
      assert At(st, f, InBuffer(places[f].id));
    }
    if p.InBuffer? && f in FramesOf(Buf(kept, p.id)) {
      FreshFrame(st.pending, now, p.id, f);
    }
  }

  lemma AgedKeeps(st: State, places: seq<Place>, now: int) returns (after: seq<Place>)
    requires Inv(st, places)
    ensures Inv(Aged(st, now), after)
  {
    var next := Aged(st, now);
    after := seq(|places|, f requires 0 <= f < |places| => AgedPlace(st, now, f, places[f]));
    forall f: nat, p: Place ensures At(next, f, p) <==> f < |after| && after[f] == p {
      AgedAt(st, places, now, f, p);
    }
    forall k | 0 <= k < |next.logs| ensures LogOk(next, k) {
      assert LogOk(st, k);
    }
    forall b | b in next.pending ensures BufferOk(next, b, next.pending[b]) {
      assert BufferOk(st, b, st.pending[b]);
      FreshIsPart(st.pending[b], now);
      FreshKeepsOrder(st.pending[b], now);
      forall k | 0 <= k < |next.pending[b]| ensures IdOf(next, next.pending[b][k].frame) == b {
        assert next.pending[b][k] in Fresh(st.pending[b], now);
      }
    }
  }

  /** The frame in hand joins the buffer of its id. */
  function Pushed(st: State, now: int): State
    requires !st.hand.Idle?
  {
    var id := IdOf(st, st.hand.frame);
    st.(hand := Idle, pending := st.pending[id := Buf(st.pending, id) + [Held(now, st.hand.frame)]])
  }

  lemma PushPlaces(st: State, places: seq<Place>, now: int) returns (after: seq<Place>)
    requires Placed(st, places) && !st.hand.Idle?
    ensures Placed(Pushed(st, now), after)
  {
    var f0 := st.hand.frame;
    var id0 := IdOf(st, f0);
    assert At(st, f0, InHand);
    after := places[f0 := InBuffer(id0)];
    var next := Pushed(st, now);
    var hs := Buf(st.pending, id0);
    assert FramesOf(Buf(next.pending, id0)) == FramesOf(hs) + [f0];
    forall f: nat, p: Place ensures At(next, f, p) <==> f < |after| && after[f] == p {
      assert At(st, f, p) <==> f < |places| && places[f] == p;
      assert At(st, f, InHand) <==> f == f0;
    }
  }

  lemma PushKeeps(st: State, places: seq<Place>, now: int) returns (after: seq<Place>)
    requires Inv(st, places) && !st.hand.Idle? && |Buf(st.pending, IdOf(st, st.hand.frame))| < MaxHeld
    ensures Inv(Pushed(st, now), after)
  {
    after := PushPlaces(st, places, now);
    var next, f0 := Pushed(st, now), st.hand.frame;
    var id0 := IdOf(st, f0);
    var hs := Buf(st.pending, id0);
    forall k | 0 <= k < |hs| ensures hs[k].frame < f0 && IdOf(st, hs[k].frame) == id0 {
      HeldFrameKnown(st, places, id0, k);
      assert At(st, f0, InHand);
      assert BufferOk(st, id0, st.pending[id0]);
    }
    forall k | 0 <= k < |next.logs| ensures LogOk(next, k) {
      assert LogOk(st, k);
    }
    forall b | b in next.pending ensures BufferOk(next, b, next.pending[b]) {
      assert b in st.pending ==> BufferOk(st, b, st.pending[b]);
    }
  }

  lemma BufferKeeps(st: State, places: seq<Place>, now: int) returns (after: seq<Place>)
    requires Inv(st, places) && st.hand.Routed? && st.hand.tx.None?
    ensures Inv(Next(st, Buffer(now)), after)
  {
    var aged := Aged(st, now);
    after := AgedKeeps(st, places, now);
    if |Buf(aged.pending, IdOf(aged, aged.hand.frame))| < MaxHeld {
      after := PushKeeps(aged, after, now);
      assert Pushed(aged, now) == Next(st, Buffer(now));
    } else {
      var next := Next(st, Buffer(now));
      after := LosePlaces(aged, after);
      forall k | 0 <= k < |next.logs| ensures LogOk(next, k) {
        assert LogOk(aged, k);
      }
      forall b | b in next.pending ensures BufferOk(next, b, next.pending[b]) {
        assert BufferOk(aged, b, aged.pending[b]);
      }
    }
  }

  // ---- registering ----

  lemma OpenKeeps(st: State, places: seq<Place>, list: seq<Id>)
    requires Inv(st, places)
    ensures Inv(Opened(st, list), places)
  {
    var next := Opened(st, list);
    forall f: nat, p: Place ensures At(next, f, p) == At(st, f, p) {
    }
    forall k | 0 <= k < |next.logs| ensures LogOk(next, k) {
      assert k < |st.logs| ==> LogOk(st, k);
    }
    forall b | b in next.pending ensures BufferOk(next, b, next.pending[b]) {
      assert BufferOk(st, b, st.pending[b]);
    }
  }

  /** No frame held back has the id of one in the log of `m`. */
  predicate Drained(st: State, m: nat)
    requires m < |st.logs|
  {
    forall k :: 0 <= k < |st.logs[m]| ==> IdOf(st, st.logs[m][k]) !in st.pending
  }

  lemma DrainPlaces(st: State, places: seq<Place>, m: nat, id: Id) returns (after: seq<Place>)
    requires Placed(st, places) && m < |st.logs|
    ensures Placed(RegisterOne(st, m, id), after)
  {
    var next := RegisterOne(st, m, id);
    after := seq(|places|, f requires 0 <= f < |places| => if places[f] == InBuffer(id) then InMailbox(m) else places[f]);
    forall f: nat, p: Place ensures At(next, f, p) <==> f < |after| && after[f] == p {
      assert At(st, f, p) <==> f < |places| && places[f] == p;
      assert At(st, f, InBuffer(id)) <==> f < |places| && places[f] == InBuffer(id);
    }
  }

  lemma DrainedLog(st: State, places: seq<Place>, m: nat, id: Id)
    requires Inv(st, places) && m < |st.logs| && id in st.ids[m] && Drained(st, m)
    ensures LogOk(RegisterOne(st, m, id), m) && Drained(RegisterOne(st, m, id), m)
  {
    var next, log, fs := RegisterOne(st, m, id), st.logs[m], FramesOf(Buf(st.pending, id));
    assert LogOk(st, m);
    assert id in st.pending ==> BufferOk(st, id, st.pending[id]);
    assert next.logs[m] == log + fs;
    forall k | 0 <= k < |fs| ensures IdOf(st, fs[k]) == id {
    }
  }

  lemma RegisterOneKeeps(st: State, places: seq<Place>, m: nat, id: Id) returns (after: seq<Place>)
    requires Inv(st, places) && m < |st.logs| && id in st.ids[m] && Drained(st, m)
    ensures Inv(RegisterOne(st, m, id), after) && Drained(RegisterOne(st, m, id), m)
  {
    after := DrainPlaces(st, places, m, id);
    DrainedLog(st, places, m, id);
    var next := RegisterOne(st, m, id);
    forall k | 0 <= k < |next.logs| ensures LogOk(next, k) {
      assert LogOk(st, k);
    }
    forall b | b in next.pending ensures BufferOk(next, b, next.pending[b]) {
      assert BufferOk(st, b, st.pending[b]);
    }
  }

  lemma {:induction false} RegisterAllKeeps(st: State, places: seq<Place>, m: nat, list: seq<Id>) returns (after: seq<Place>)
    requires Inv(st, places) && m < |st.logs| && Drained(st, m) && forall k :: 0 <= k < |list| ==> list[k] in st.ids[m]
    ensures Inv(RegisterAll(st, m, list), after)
    decreases |list|
  {
    after := places;
    if list != [] {
      after := RegisterOneKeeps(st, places, m, list[0]);
      after := RegisterAllKeeps(RegisterOne(st, m, list[0]), after, m, list[1..]);
    }
  }

  lemma RegisterKeeps(st: State, places: seq<Place>, list: seq<Id>) returns (after: seq<Place>)
    requires Inv(st, places)
    ensures Inv(Next(st, Register(list)), after)
  {
    OpenKeeps(st, places, list);
    after := RegisterAllKeeps(Opened(st, list), places, |st.logs|, list);
  }

  // ---- runs ----

  lemma StepKeeps(st: State, places: seq<Place>, step: Step) returns (after: seq<Place>)
    requires Inv(st, places) && Enabled(st, step)
    ensures Inv(Next(st, step), after)
  {
    match step
    case Receive(id) => after := ReceiveKeeps(st, places, id);
    case Lookup =>
      LookupKeeps(st, places);
      after := places;
    case Forward => after := ForwardKeeps(st, places);
    case Buffer(now) => after := BufferKeeps(st, places, now);
    case Register(list) => after := RegisterKeeps(st, places, list);
    case DropMailbox(m) =>
      DropKeeps(st, places, m);
      after := places;
  }

  /** `steps` can be taken one after another from `st`, and lead to `end`. */
  predicate Run(st: State, steps: seq<Step>, end: State)
    decreases |steps|
  {
    if steps == [] then st == end else Enabled(st, steps[0]) && Run(Next(st, steps[0]), steps[1..], end)
  }

  lemma {:induction false} RunKeeps(st: State, places: seq<Place>, steps: seq<Step>, end: State) returns (after: seq<Place>)
    requires Inv(st, places) && Run(st, steps, end)
    ensures Inv(end, after)
    decreases |steps|
  {
    after := places;
    if steps != [] {
      after := StepKeeps(st, places, steps[0]);
      after := RunKeeps(Next(st, steps[0]), after, steps[1..], end);
    }
  }

  lemma StartInv()
    ensures Inv(Start, [])
  {
    forall f: nat, p: Place ensures !At(Start, f, p) {
    }
  }

  /** Under every interleaving: each frame received is in exactly one place; a mailbox was handed
      only frames of ids it was registered under, those of one id in order of arrival. */
  lemma RoutedOnceInOrder(steps: seq<Step>, end: State) returns (places: seq<Place>)
    requires Run(Start, steps, end)
    ensures |places| == |end.frames|
    ensures forall f: nat, p: Place {:trigger At(end, f, p)} :: At(end, f, p) <==> f < |places| && places[f] == p
    ensures |end.ids| == |end.logs|
    ensures forall m, k :: 0 <= m < |end.logs| && 0 <= k < |end.logs[m]| ==> IdOf(end, end.logs[m][k]) in end.ids[m]
    ensures forall m, i, j :: 0 <= m < |end.logs| && 0 <= i < j < |end.logs[m]| ==>
      IdOf(end, end.logs[m][i]) == IdOf(end, end.logs[m][j]) ==> end.logs[m][i] < end.logs[m][j]
  {
    StartInv();
    places := RunKeeps(Start, [], steps, end);
    forall m | 0 <= m < |end.logs| ensures LogOk(end, m) {
      var _ := end.logs[m];
    }
  }

  // ---- frames that are lost ----

  lemma {:induction false} FreshKeeps(hs: seq<Held>, now: int, h: Held)
    requires h in hs
    ensures h in Fresh(hs, now) <==> now - h.at < MaxAge
    decreases |hs|
  {
    if h in hs[1..] {
      FreshKeeps(hs[1..], now, h);
    } else {
      assert h == hs[0];
      FreshIsPart(hs[1..], now);
    }
  }

  /** Frame `f` was held back for a minute or more. */
  ghost predicate TooOld(st: State, f: nat, now: int) {
    exists id, h :: id in st.pending && h in st.pending[id] && h.frame == f && now - h.at >= 60
  }

  lemma AgedIsOld(st: State, f: nat, now: int)
    requires f in HeldFrames(st.pending) && f !in HeldFrames(Retain(st.pending, now))
    ensures TooOld(st, f, now)
  {
    var id, h :| id in st.pending && h in st.pending[id] && h.frame == f;
    FreshKeeps(st.pending[id], now, h);
    RetainBuf(st.pending, now, id);
    assert h in Fresh(st.pending[id], now) ==> id in Retain(st.pending, now);
  }

  /** How a step loses a frame: in hand, to a mailbox that is gone or to a full buffer, or held back
      for too long. */
  ghost predicate LostBy(st: State, step: Step, f: nat) {
    match step
    case Forward => At(st, f, InHand) && st.hand.Routed? && st.hand.tx.Some? && st.hand.tx.value !in st.open
    case Buffer(now) => TooOld(st, f, now) || (At(st, f, InHand) && |Buf(Retain(st.pending, now), IdOf(st, f))| >= 1024)
    case _ => false
  }

  lemma LostOnlyByAgeOrCap(st: State, step: Step, f: nat)
    requires Enabled(st, step) && Aimed(st) && f !in st.dropped && f in Next(st, step).dropped
    ensures LostBy(st, step, f)
  {
    if step.Register? {
      RegisterAllDropped(Opened(st, step.list), |st.logs|, step.list);
    }
    if step.Buffer? && f in HeldFrames(st.pending) - HeldFrames(Retain(st.pending, step.now)) {
      AgedIsOld(st, f, step.now);
    }
  }

  /** A frame is held back once, so none of it is left when the step drops it for its age. */
  lemma HeldOnce(st: State, places: seq<Place>, id: Id, h: Held, id2: Id, h2: Held)
    requires Inv(st, places) && id in st.pending && id2 in st.pending && h in st.pending[id] && h2 in st.pending[id2]
    requires h.frame == h2.frame
    ensures id == id2 && h == h2
  {
    var i :| 0 <= i < |st.pending[id]| && st.pending[id][i] == h;
    var j :| 0 <= j < |st.pending[id2]| && st.pending[id2][j] == h2;
    assert BufferOk(st, id, st.pending[id]) && BufferOk(st, id2, st.pending[id2]);
    assert IdOf(st, st.pending[id][i].frame) == id && IdOf(st, st.pending[id2][j].frame) == id2;
    var fs := FramesOf(st.pending[id]);
    assert fs[i] == fs[j];
  }

  lemma OldIsAged(st: State, places: seq<Place>, f: nat, now: int)
    requires Inv(st, places) && TooOld(st, f, now)
    ensures f in HeldFrames(st.pending) && f !in HeldFrames(Retain(st.pending, now))
  {
    var id, h :| id in st.pending && h in st.pending[id] && h.frame == f && now - h.at >= MaxAge;
    var kept := Retain(st.pending, now);
    forall id2: Id, h2: Held | id2 in kept && h2 in kept[id2] ensures h2.frame != f {
      RetainBuf(st.pending, now, id2);
      FreshIsPart(st.pending[id2], now);
      assert h2 in st.pending[id2];
      FreshKeeps(st.pending[id2], now, h2);
      if h2.frame == f {
        HeldOnce(st, places, id, h, id2, h2);
      }
    }
  }

  /** A step loses a frame exactly for one of these reasons. */
  lemma LosesIff(st: State, places: seq<Place>, step: Step, f: nat)
    requires Enabled(st, step) && Inv(st, places) && f !in st.dropped
    ensures f in Next(st, step).dropped <==> LostBy(st, step, f)
  {
    if f in Next(st, step).dropped {
      LostOnlyByAgeOrCap(st, step, f);
    } else if step.Buffer? && TooOld(st, f, step.now) {
      OldIsAged(st, places, f, step.now);
    }
  }

  /** Some step of the run loses the frame for one of these reasons. */
  ghost predicate LostWithin(st: State, steps: seq<Step>, f: nat)
    decreases |steps|
  {
    steps != [] && Enabled(st, steps[0]) && (LostBy(st, steps[0], f) || LostWithin(Next(st, steps[0]), steps[1..], f))
  }

  lemma LostForGood(st: State, step: Step)
    requires Enabled(st, step)
    ensures st.dropped <= Next(st, step).dropped
  {
    if step.Register? {
      RegisterAllDropped(Opened(st, step.list), |st.logs|, step.list);
    }
  }

  lemma {:induction false} LossInRun(st: State, places: seq<Place>, steps: seq<Step>, end: State, f: nat)
    requires Inv(st, places) && Run(st, steps, end)
    ensures f in end.dropped <==> f in st.dropped || LostWithin(st, steps, f)
    decreases |steps|
  {
    if steps != [] {
      var after := StepKeeps(st, places, steps[0]);
      LostForGood(st, steps[0]);
      LossInRun(Next(st, steps[0]), after, steps[1..], end, f);
      if f !in st.dropped {
        LosesIff(st, places, steps[0], f);
      }
    }
  }

  /** In every run from the start, a frame is lost at the end if and only if a step of the run lost it
      for one of these reasons. */
  lemma LossExplained(steps: seq<Step>, end: State, f: nat)
    requires Run(Start, steps, end)
    ensures f in end.dropped <==> LostWithin(Start, steps, f)
  {
    StartInv();
    LossInRun(Start, [], steps, end, f);
  }

  lemma {:induction false} RegisterAllDropped(st: State, m: nat, list: seq<Id>)
    requires m < |st.logs|
    ensures RegisterAll(st, m, list).dropped == st.dropped
    decreases |list|
  {
    if list != [] {
      RegisterAllDropped(RegisterOne(st, m, list[0]), m, list[1..]);
    }
  }

  // ---- mailboxes that are gone ----

  /** Every registered id points at a mailbox that is still there. */
  predicate Live(st: State) {
    forall id :: id in st.sessions ==> st.sessions[id] in st.open
  }

  /** Dropping a mailbox unregisters its ids and nothing else. */
  lemma DropUnregisters(st: State, m: nat)
    requires Enabled(st, DropMailbox(m)) && m < |st.ids|
    ensures var next := Next(st, DropMailbox(m));
      && (forall id :: id in next.sessions <==> id in st.sessions && id !in st.ids[m])
      && (forall id :: id in next.sessions ==> next.sessions[id] == st.sessions[id])
      && next == st.(sessions := next.sessions, open := st.open - {m})
  {
  }

  /** Registering points exactly the listed ids at the mailbox and empties their buffers. */
  lemma {:induction false} RegisterAllPoints(st: State, m: nat, list: seq<Id>)
    requires m < |st.logs|
    ensures var next := RegisterAll(st, m, list);
      && (forall id :: id in next.sessions <==> id in st.sessions || id in list)
      && (forall id :: id in next.sessions ==> next.sessions[id] == if id in list then m else st.sessions[id])
      && (forall id :: id in next.pending <==> id in st.pending && id !in list)
      && (forall id :: id in next.pending ==> next.pending[id] == st.pending[id])
      && next.open == st.open && next.hand == st.hand && next.ids == st.ids && |next.logs| == |st.logs|
    decreases |list|
  {
    if list != [] {
      RegisterAllPoints(RegisterOne(st, m, list[0]), m, list[1..]);
      assert list == [list[0]] + list[1..];
    }
  }

  lemma StepStaysLive(st: State, step: Step)
    requires Enabled(st, step) && Aimed(st) && Live(st)
    ensures Live(Next(st, step))
  {
    if step.Register? {
      RegisterAllPoints(Opened(st, step.list), |st.logs|, step.list);
    }
    if step.DropMailbox? {
      DropUnregisters(st, step.mailbox);
    }
  }

  lemma {:induction false} RunStaysLive(st: State, places: seq<Place>, steps: seq<Step>, end: State)
    requires Inv(st, places) && Live(st) && Run(st, steps, end)
    ensures Live(end)
    decreases |steps|
  {
    if steps != [] {
      StepStaysLive(st, steps[0]);
      var after := StepKeeps(st, places, steps[0]);
      RunStaysLive(Next(st, steps[0]), after, steps[1..], end);
    }
  }

  /** In every run from the start, a registered id points at a mailbox that has not been dropped and
      that was registered under it. */
  lemma RegisteredIsOpen(steps: seq<Step>, end: State, id: Id)
    requires Run(Start, steps, end) && id in end.sessions
    ensures end.sessions[id] in end.open && end.sessions[id] < |end.ids| && id in end.ids[end.sessions[id]]
  {
    StartInv();
    RunStaysLive(Start, [], steps, end);
    var places := RunKeeps(Start, [], steps, end);
  }

  /** The last step of a run. */
  lemma {:induction false} RunLast(a: State, steps: seq<Step>, end: State) returns (mid: State)
    requires Run(a, steps, end) && steps != []
    ensures Run(a, steps[..|steps| - 1], mid) && Enabled(mid, steps[|steps| - 1]) && Next(mid, steps[|steps| - 1]) == end
    decreases |steps|
  {
    if |steps| == 1 {
      mid := a;
    } else {
      var rest := steps[1..];
      mid := RunLast(Next(a, steps[0]), rest, end);
      assert steps[..|steps| - 1][1..] == rest[..|rest| - 1];
    }
  }

  /** The step leaves the frame in hand as it is. */
  predicate Aside(step: Step) {
    step.Register? || step.DropMailbox?
  }

  lemma AsideKeeps(st: State, step: Step, m: nat)
    requires Enabled(st, step) && Aside(step)
    ensures Next(st, step).hand == st.hand
    ensures m < |st.logs| ==> (m in Next(st, step).open <==> m in st.open && step != DropMailbox(m))
  {
    if step.Register? {
      RegisterAllPoints(Opened(st, step.list), |st.logs|, step.list);
    }
  }

  /** The part of a run since the frame in hand was looked up. */
  ghost predicate SinceLookup(steps: seq<Step>, j: nat, at: State, now: State) {
    && j < |steps| && steps[j] == Lookup && Run(Start, steps[..j], at) && Enabled(at, Lookup)
    && (forall k :: j < k < |steps| ==> Aside(steps[k]))
    && now.hand == Next(at, Lookup).hand
  }

  lemma JustLookedUp(steps: seq<Step>, before: State, now: State)
    requires steps != [] && steps[|steps| - 1] == Lookup && Run(Start, steps[..|steps| - 1], before)
    requires Enabled(before, Lookup) && Next(before, Lookup) == now && Aimed(before) && Live(before) && now.hand.tx.Some?
    ensures SinceLookup(steps, |steps| - 1, before, now) && now.hand.tx.value in now.open
    ensures DropMailbox(now.hand.tx.value) !in steps[|steps|..]
  {
  }

  lemma AsideExtends(steps: seq<Step>, n: nat, j: nat, at: State, before: State, now: State, m: nat)
    requires |steps| == n + 1 && SinceLookup(steps[..n], j, at, before) && Aside(steps[n]) && now.hand == before.hand
    ensures SinceLookup(steps, j, at, now)
    ensures DropMailbox(m) in steps[j + 1..] <==> DropMailbox(m) in steps[..n][j + 1..] || steps[n] == DropMailbox(m)
  {
    assert steps[..n][..j] == steps[..j];
    assert steps[j + 1..] == steps[..n][j + 1..] + [steps[n]];
    forall k | j < k < |steps| ensures Aside(steps[k]) {
      assert k < n ==> steps[..n][k] == steps[k];
    }
  }

  /** In every run from the start that holds a frame with its mailbox, the mailbox was the open one
      registered at the lookup, and it is gone exactly when it was dropped since. */
  lemma {:induction false} GoneIffDropped(steps: seq<Step>, now: State) returns (j: nat, at: State)
    requires Run(Start, steps, now) && now.hand.Routed? && now.hand.tx.Some?
    ensures SinceLookup(steps, j, at, now)
    ensures IdOf(at, now.hand.frame) in at.sessions && now.hand.tx.value == at.sessions[IdOf(at, now.hand.frame)]
    ensures now.hand.tx.value < |now.logs|
    ensures now.hand.tx.value in now.open <==> DropMailbox(now.hand.tx.value) !in steps[j + 1..]
    decreases |steps|
  {
    var n := |steps| - 1;
    var before := RunLast(Start, steps, now);
    StartInv();
    var places := RunKeeps(Start, [], steps[..n], before);
    RunStaysLive(Start, [], steps[..n], before);
    if steps[n] == Lookup {
      j, at := n, before;
      JustLookedUp(steps, before, now);
    } else {
      var m := now.hand.tx.value;
      AsideKeeps(before, steps[n], m);
      j, at := GoneIffDropped(steps[..n], before);
      AsideExtends(steps, n, j, at, before, now, m);
      AsideGrows(before, steps[n], m);
    }
  }

  lemma AsideGrows(st: State, step: Step, m: nat)
    requires Enabled(st, step) && Aside(step) && m < |st.logs|
    ensures m < |Next(st, step).logs|
  {
    if step.Register? {
      RegisterAllPoints(Opened(st, step.list), |st.logs|, step.list);
    }
  }

  /** A frame about to be forwarded is lost if and only if its mailbox was dropped since the lookup;
      otherwise it is the last thing that mailbox is handed. */
  lemma LostIffDropped(steps: seq<Step>, now: State) returns (j: nat, at: State)
    requires Run(Start, steps, now) && Enabled(now, Forward)
    ensures SinceLookup(steps, j, at, now)
    ensures now.hand.frame in Next(now, Forward).dropped <==> DropMailbox(now.hand.tx.value) in steps[j + 1..]
    ensures now.hand.frame !in Next(now, Forward).dropped ==>
      var m := now.hand.tx.value; m < |now.logs| && Next(now, Forward).logs == now.logs[m := now.logs[m] + [now.hand.frame]]
  {
    j, at := GoneIffDropped(steps, now);
    StartInv();
    var places := RunKeeps(Start, [], steps, now);
    assert At(now, now.hand.frame, InHand);
    assert !At(now, now.hand.frame, Gone);
  }

  // ---- frames held back for a registered id ----

  /** Nothing is held back for an id that has a mailbox. */
  predicate Clean(st: State) {
    forall id :: id in st.sessions ==> id !in st.pending
  }

  lemma {:induction false} RegisterAllClean(st: State, m: nat, list: seq<Id>)
    requires m < |st.logs| && Clean(st)
    ensures Clean(RegisterAll(st, m, list))
    decreases |list|
  {
    if list != [] {
      RegisterAllClean(RegisterOne(st, m, list[0]), m, list[1..]);
    }
  }

  /** A step leaves a frame held back for a registered id exactly when it buffers a frame whose id
      was registered after the lookup. */
  lemma CleanUnlessRaced(st: State, step: Step)
    requires Enabled(st, step) && Clean(st)
    ensures Clean(Next(st, step)) <==> !(step.Buffer? && IdOf(st, st.hand.frame) in st.sessions)
  {
    if step.Register? {
      RegisterAllClean(Opened(st, step.list), |st.logs|, step.list);
    }
    if step.Buffer? {
      var id := IdOf(st, st.hand.frame);
      if id in st.sessions {
        assert Buf(Retain(st.pending, step.now), id) == [];
      }
    }
  }

  /** Nothing is held back for a registered id at any point of the run. */
  predicate AlwaysClean(st: State, steps: seq<Step>)
    decreases |steps|
  {
    Clean(st) && (steps != [] && Enabled(st, steps[0]) ==> AlwaysClean(Next(st, steps[0]), steps[1..]))
  }

  /** No step of the run buffers a frame whose id was registered after the lookup. */
  predicate Raceless(st: State, steps: seq<Step>)
    decreases |steps|
  {
    steps != [] && Enabled(st, steps[0]) ==>
      !(steps[0].Buffer? && IdOf(st, st.hand.frame) in st.sessions) && Raceless(Next(st, steps[0]), steps[1..])
  }

  lemma {:induction false} CleanFrom(st: State, steps: seq<Step>)
    requires Clean(st)
    ensures AlwaysClean(st, steps) <==> Raceless(st, steps)
    decreases |steps|
  {
    if steps != [] && Enabled(st, steps[0]) {
      CleanUnlessRaced(st, steps[0]);
      if Clean(Next(st, steps[0])) {
        CleanFrom(Next(st, steps[0]), steps[1..]);
      }
    }
  }

  /** A run from the start never holds back a frame of a registered id if and only if it has no race. */
  lemma CleanIffRaceless(steps: seq<Step>)
    ensures AlwaysClean(Start, steps) <==> Raceless(Start, steps)
  {
    CleanFrom(Start, steps);
  }

  lemma {:induction false} RunThen(a: State, xs: seq<Step>, b: State, ys: seq<Step>, c: State)
    requires Run(a, xs, b) && Run(b, ys, c)
    ensures Run(a, xs + ys, c)
    decreases |xs|
  {
    if xs == [] {
      assert xs + ys == ys;
    } else {
      assert (xs + ys)[0] == xs[0] && (xs + ys)[1..] == xs[1..] + ys;
      RunThen(Next(a, xs[0]), xs[1..], b, ys, c);
    }
  }

  /** One more step at the end of a run. */
  lemma RunMore(a: State, xs: seq<Step>, b: State, x: Step)
    requires Run(a, xs, b) && Enabled(b, x)
    ensures Run(a, xs + [x], Next(b, x))
  {
    assert [x][1..] == [];
    RunThen(a, xs, b, [x], Next(b, x));
  }

  lemma RegisterAlone(st: State, id: Id)
    requires st.logs == [] && st.ids == [] && st.open == {} && st.pending == map[] && st.sessions == map[]
    ensures Next(st, Register([id])) == st.(logs := [[]], ids := [[id]], open := {0}, sessions := map[id := 0])
  {
    var o := Opened(st, [id]);
    assert RegisterAll(o, 0, [id]) == RegisterOne(o, 0, id) by { assert [id][1..] == []; }
    assert Buf(o.pending, id) == [] && FramesOf([]) == [];
    assert RegisterOne(o, 0, id).logs[0] == [];
    assert RegisterOne(o, 0, id).logs == [[]];
  }

  lemma BufferAlone(st: State, id: Id)
    requires st.hand == Routed(0, None) && st.frames == [id] && st.pending == map[] && st.dropped == {}
    ensures Next(st, Buffer(0)) == st.(hand := Idle, pending := map[id := [Held(0, 0)]])
  {
    assert Retain(st.pending, 0) == map[];
    assert Next(st, Buffer(0)).pending[id] == [Held(0, 0)];
    assert Next(st, Buffer(0)).pending == map[id := [Held(0, 0)]];
    assert HeldFrames(st.pending) == {};
  }

  /** The state after the race: the id has a mailbox, its first frame is held back. */
  function Raced(id: Id): State {
    State([id], Idle, map[id := 0], map[id := [Held(0, 0)]], [[]], [[id]], {0}, {})
  }

  lemma RaceRun(id: Id) returns (steps: seq<Step>)
    ensures Run(Start, steps, Raced(id))
  {
    var s1 := Next(Start, Receive(id));
    RunMore(Start, [], Start, Receive(id));
    RunMore(Start, [] + [Receive(id)], s1, Lookup);
    var s2 := Next(s1, Lookup);
    RunMore(Start, [] + [Receive(id)] + [Lookup], s2, Register([id]));
    RegisterAlone(s2, id);
    var s3 := Next(s2, Register([id]));
    RunMore(Start, [] + [Receive(id)] + [Lookup] + [Register([id])], s3, Buffer(0));
    BufferAlone(s3, id);
    steps := [] + [Receive(id)] + [Lookup] + [Register([id])] + [Buffer(0)];
  }

  lemma OvertakeRun(id: Id) returns (steps: seq<Step>)
    ensures Run(Raced(id), steps, Raced(id).(frames := [id, id], logs := [[1]]))
  {
    var st := Raced(id);
    RunMore(st, [], st, Receive(id));
    var s1 := Next(st, Receive(id));
    RunMore(st, [] + [Receive(id)], s1, Lookup);
    var s2 := Next(s1, Lookup);
    RunMore(st, [] + [Receive(id)] + [Lookup], s2, Forward);
    steps := [] + [Receive(id)] + [Lookup] + [Forward];
    assert s1.frames == [id, id] && s1.hand == Decoded(1);
    assert Next(s2, Forward).logs[0] == [1];
    assert Next(s2, Forward).logs == [[1]];
  }

  /** The race happens: a registration between lookup and buffering strands the frame, and the
      next frame of the session overtakes it. */
  lemma StrandedFrame(id: Id) returns (steps: seq<Step>, end: State)
    ensures Run(Start, steps, end) && !Clean(end)
    ensures At(end, 0, InBuffer(id)) && At(end, 1, InMailbox(0))
  {
    var xs := RaceRun(id);
    var ys := OvertakeRun(id);
    end := Raced(id).(frames := [id, id], logs := [[1]]);
    RunThen(Start, xs, Raced(id), ys, end);
    steps := xs + ys;
    assert FramesOf(Buf(end.pending, id))[0] == 0;
    assert end.logs[0][0] == 1;
  }
}
