/** One honest party of a key generation, seen alone. */
module HonestDealer {
  import opened Names
  import opened KeygenSession

  /** What party `p` sends, must receive and ends with: its peers' round-1 packages,
      its two secrets, its outgoing round-2 packages, the round-2 packages addressed
      to it, and its share. */
  datatype Deal = Deal(
    peers1: map<nat, Package1>,
    secret1: Secret1,
    secret2: Secret2,
    dealt: seq<(nat, Package2)>,
    peers2: map<nat, Package2>,
    key: KeyPackage,
    group: PublicKeyPackage,
    share: StoredShare)

  /** The frost crate is correct on this deal. */
  ghost predicate Deals(sch: Scheme, cfg: Config, d: Deal) {
    && |d.peers1| == |d.peers2| == Peers(cfg) >= 1
    && d.peers1.Keys == d.peers2.Keys
    && sch.part2(d.secret1, d.peers1) == Part2(d.secret2, d.dealt)
    && Round2Messages(sch, cfg, d.dealt).1
    && sch.part3(d.secret2, d.peers1, d.peers2) == Part3(d.key, d.group)
    && sch.printGroupKey(d.group).Some? && sch.printKey(d.key).Some? && sch.printGroup(d.group).Some?
    && d.share == StoredShare(cfg.local, cfg.participants, cfg.localIndex, cfg.minSigners, |cfg.participants| % U16,
                              sch.printGroupKey(d.group).value, sch.printKey(d.key).value, sch.printGroup(d.group).value)
  }

  /** A party that has not failed, after any honest messages in any order. */
  ghost predicate PartyInv(d: Deal, st: State) {
    && st.outputs == [] && st.aborted.None?
    && Sub(st.packages1, d.peers1) && Sub(st.packages2, d.peers2)
    && var dealt := st.packages1 == d.peers1;
    && st.secret1 == (if dealt then None else Some(d.secret1))
    && st.secret2 == (if dealt then Some(d.secret2) else None)
    && st.part2Runs == (if dealt then 1 else 0)
    && (st.packages2 == d.peers2 ==> dealt)
    && st.result == (if st.packages2 == d.peers2 then Some(d.share) else None)
  }

  /** The last round-1 package triggers part 2, which deals. */
  lemma DealsNow(sch: Scheme, d: Deal, st: State)
    requires Deals(sch, st.cfg, d) && st.secret1 == Some(d.secret1) && st.secret2.None? && st.packages1 == d.peers1
    ensures MaybePart2(sch, st) ==
      (st.(secret1 := None, part2Runs := st.part2Runs + 1, secret2 := Some(d.secret2),
           outputs := st.outputs + Round2Messages(sch, st.cfg, d.dealt).0), None)
  {
  }

  lemma Round1Inserted(sch: Scheme, st: State, from: nat, msg: Message, pkg: Package1)
    requires msg.kind == Round1 && IdentifierFor(st.cfg.participants, msg.from) == Some(from) && st.result.None?
    requires from != st.cfg.localIndex && sch.decodePayload(msg.payload).Some?
    requires sch.parse1(sch.decodePayload(msg.payload).value) == Some(pkg)
    ensures Handle(sch, st, msg) == Settle(MaybePart2(sch, st.(packages1 := InsertFirst(st.packages1, from, pkg))))
  {
  }

  /** What handing an honest round-1 package to an honest party leads to. */
  ghost predicate Took1(sch: Scheme, d: Deal, st: State, from: nat, after: (State, Outcome)) {
    var (st', r) := after;
    && r.Fine? && st'.cfg == st.cfg && PartyInv(d, Drained(st'))
    && st'.packages1.Keys == st.packages1.Keys + {from} && st'.packages2 == st.packages2
    && st'.outputs == (if st'.secret2.Some? && st.secret2.None? then Round2Messages(sch, st.cfg, d.dealt).0 else [])
    && (st.secret2.Some? ==> st'.secret2.Some?)
  }

  /** The state after a round-1 package of a party without a result. */
  ghost function Taken1(sch: Scheme, d: Deal, st: State, ps: map<nat, Package1>): State {
    if st.secret2.Some? then st
    else if ps == d.peers1 then
      st.(packages1 := ps, secret1 := None, part2Runs := st.part2Runs + 1, secret2 := Some(d.secret2),
          outputs := st.outputs + Round2Messages(sch, st.cfg, d.dealt).0)
    else st.(packages1 := ps)
  }

  lemma InsertedAgrees(d: Deal, st: State, from: nat, ps: map<nat, Package1>)
    requires Sub(st.packages1, d.peers1) && from in d.peers1 && ps == InsertFirst(st.packages1, from, d.peers1[from])
    ensures Sub(ps, d.peers1) && ps.Keys == st.packages1.Keys + {from}
    ensures st.packages1 == d.peers1 ==> ps == st.packages1
  {
  }

  lemma Part2Takes(sch: Scheme, d: Deal, st: State, ps: map<nat, Package1>)
    requires Deals(sch, st.cfg, d) && PartyInv(d, st) && st.result.None? && Sub(ps, d.peers1)
    requires st.packages1 == d.peers1 ==> ps == st.packages1
    ensures MaybePart2(sch, st.(packages1 := ps)) == (Taken1(sch, d, st, ps), None)
  {
    SubFull(ps, d.peers1);
    if st.secret2.Some? {
      assert st.(packages1 := ps) == st;
    } else if ps == d.peers1 {
      DealsNow(sch, d, st.(packages1 := ps));
    }
  }

  lemma TakenKeeps(sch: Scheme, d: Deal, st: State, ps: map<nat, Package1>)
    requires PartyInv(d, st) && st.result.None? && Sub(ps, d.peers1)
    requires st.packages1 == d.peers1 ==> ps == st.packages1
    ensures PartyInv(d, Drained(Taken1(sch, d, st, ps)))
  {
  }

  lemma TookInserted(sch: Scheme, d: Deal, st: State, from: nat, ps: map<nat, Package1>)
    requires PartyInv(d, st) && st.result.None? && Sub(ps, d.peers1) && ps.Keys == st.packages1.Keys + {from}
    requires st.packages1 == d.peers1 ==> ps == st.packages1
    ensures Took1(sch, d, st, from, (Taken1(sch, d, st, ps), Fine(false)))
  {
    TakenKeeps(sch, d, st, ps);
  }

  /** Handing an honest round-1 package to an honest party. */
  lemma HonestRound1(sch: Scheme, d: Deal, st: State, from: nat, msg: Message)
    requires Deals(sch, st.cfg, d) && PartyInv(d, st)
    requires msg.kind == Round1 && IdentifierFor(st.cfg.participants, msg.from) == Some(from)
    requires from != st.cfg.localIndex && from in d.peers1 && sch.decodePayload(msg.payload).Some?
    requires sch.parse1(sch.decodePayload(msg.payload).value) == Some(d.peers1[from])
    ensures Took1(sch, d, st, from, Handle(sch, st, msg))
  {
    if st.result.None? {
      Round1Inserted(sch, st, from, msg, d.peers1[from]);
      var ps := InsertFirst(st.packages1, from, d.peers1[from]);
      InsertedAgrees(d, st, from, ps);
      Part2Takes(sch, d, st, ps);
      TookInserted(sch, d, st, from, ps);
      assert Handle(sch, st, msg) == (Taken1(sch, d, st, ps), Fine(false));
    } else {
      assert st.packages1.Keys == st.packages1.Keys + {from};
      assert Took1(sch, d, st, from, (st, Fine(true)));
    }
  }

  lemma Round2Inserted(sch: Scheme, st: State, from: nat, msg: Message, pkg: Package2)
    requires msg.kind == Round2 && IdentifierFor(st.cfg.participants, msg.from) == Some(from) && st.result.None?
    requires from != st.cfg.localIndex && sch.decodePayload(msg.payload).Some?
    requires sch.parse2(sch.decodePayload(msg.payload).value) == Some(pkg)
    ensures Handle(sch, st, msg) == Settle(MaybePart3(sch, st.(packages2 := InsertFirst(st.packages2, from, pkg))))
  {
  }

  /** The state after a round-2 package that is not refused, of a party without a result. */
  ghost function Taken2(d: Deal, st: State, ps: map<nat, Package2>): State {
    st.(packages2 := ps, result := if ps == d.peers2 then Some(d.share) else None)
  }

  lemma Part3Takes(sch: Scheme, d: Deal, st: State, ps: map<nat, Package2>)
    requires Deals(sch, st.cfg, d) && PartyInv(d, st) && st.result.None? && Sub(ps, d.peers2)
    ensures MaybePart3(sch, st.(packages2 := ps)) ==
      if ps == d.peers2 && st.packages1 != d.peers1 then (st.(packages2 := ps), Some(MissingRound2Secret))
      else (Taken2(d, st, ps), None)
  {
    SubFull(ps, d.peers2);
  }

  lemma Taken2Keeps(d: Deal, st: State, ps: map<nat, Package2>)
    requires PartyInv(d, st) && Sub(ps, d.peers2) && !(ps == d.peers2 && st.packages1 != d.peers1)
    ensures PartyInv(d, Taken2(d, st, ps))
  {
  }

  lemma Inserted2Agrees(d: Deal, st: State, from: nat, ps: map<nat, Package2>)
    requires Sub(st.packages2, d.peers2) && from in d.peers2 && ps == InsertFirst(st.packages2, from, d.peers2[from])
    ensures Sub(ps, d.peers2) && ps.Keys == st.packages2.Keys + {from} && (ps == d.peers2 <==> ps.Keys == d.peers2.Keys)
  {
  }

  /** Handing an honest round-2 package to an honest party: it is refused, with
      "missing round2 secret", exactly when it completes the round-2 packages
      before the round-1 packages are complete. */
  lemma HonestRound2(sch: Scheme, d: Deal, st: State, from: nat, msg: Message)
    requires Deals(sch, st.cfg, d) && PartyInv(d, st)
    requires msg.kind == Round2 && IdentifierFor(st.cfg.participants, msg.from) == Some(from)
    requires from != st.cfg.localIndex && from in d.peers2 && sch.decodePayload(msg.payload).Some?
    requires sch.parse2(sch.decodePayload(msg.payload).value) == Some(d.peers2[from])
    ensures var (st', r) := Handle(sch, st, msg);
      var early := st.packages1 != d.peers1 && st.packages2.Keys + {from} == d.peers2.Keys;
      && r.Err? == early
      && (early ==> r == Err(MissingRound2Secret))
      && (!early ==>
            && st'.cfg == st.cfg && st'.outputs == [] && PartyInv(d, st')
            && st'.packages1 == st.packages1 && st'.packages2.Keys == st.packages2.Keys + {from}
            && st'.secret2 == st.secret2)
  {
    if st.result.None? {
      var ps := InsertFirst(st.packages2, from, d.peers2[from]);
      Round2Inserted(sch, st, from, msg, d.peers2[from]);
      Inserted2Agrees(d, st, from, ps);
      Part3Takes(sch, d, st, ps);
      if ps == d.peers2 && st.packages1 != d.peers1 {
        assert Handle(sch, st, msg) == (st.(packages2 := ps), Err(MissingRound2Secret));
      } else {
        Taken2Keeps(d, st, ps);
        assert Handle(sch, st, msg) == (Taken2(d, st, ps), Fine(ps == d.peers2));
      }
    }
  }

  // ---- the exact delivery order a party needs ----

  datatype Arrival = First(from: nat) | Second(from: nat)

  /** The honest messages for one party, by sender. */
  datatype Inbox = Inbox(first: map<nat, Message>, second: map<nat, Message>)

  ghost predicate Letter1(sch: Scheme, cfg: Config, d: Deal, k: nat, m: Message) {
    && m.kind == Round1 && k != cfg.localIndex && k in d.peers1
    && IdentifierFor(cfg.participants, m.from) == Some(k)
    && sch.decodePayload(m.payload).Some?
    && sch.parse1(sch.decodePayload(m.payload).value) == Some(d.peers1[k])
  }

  ghost predicate Letter2(sch: Scheme, cfg: Config, d: Deal, k: nat, m: Message) {
    && m.kind == Round2 && k != cfg.localIndex && k in d.peers2
    && IdentifierFor(cfg.participants, m.from) == Some(k)
    && sch.decodePayload(m.payload).Some?
    && sch.parse2(sch.decodePayload(m.payload).value) == Some(d.peers2[k])
  }

  ghost predicate InboxOk(sch: Scheme, cfg: Config, d: Deal, box: Inbox) {
    && box.first.Keys == box.second.Keys == d.peers1.Keys
    && (forall k {:trigger Letter1(sch, cfg, d, k, box.first[k])} ::
          k in box.first ==> Letter1(sch, cfg, d, k, box.first[k]))
    && (forall k {:trigger Letter2(sch, cfg, d, k, box.second[k])} ::
          k in box.second ==> Letter2(sch, cfg, d, k, box.second[k]))
  }

  ghost predicate FromPeers(d: Deal, arrivals: seq<Arrival>) {
    forall a :: a in arrivals ==> a.from in d.peers1
  }

  function MessageOf(box: Inbox, a: Arrival): Message
    requires a.from in box.first && a.from in box.second
  {
    if a.First? then box.first[a.from] else box.second[a.from]
  }

  /** Feed the arrivals in order, as `run_keygen` does: stop at the first error. */
  ghost function Feed(sch: Scheme, st: State, box: Inbox, arrivals: seq<Arrival>): Option<State>
    requires forall a :: a in arrivals ==> a.from in box.first && a.from in box.second
  {
    if arrivals == [] then Some(st)
    else
      var last := |arrivals| - 1;
      match Feed(sch, st, box, arrivals[..last])
      case None => None
      case Some(mid) =>
        var (st', r) := Handle(sch, mid, MessageOf(box, arrivals[last]));
        if r.Err? then None else Some(Drained(st'))
  }

  ghost predicate All1(d: Deal, arrivals: seq<Arrival>) {
    forall k :: k in d.peers1 ==> First(k) in arrivals
  }

  ghost predicate All2(d: Deal, arrivals: seq<Arrival>) {
    forall k :: k in d.peers1 ==> Second(k) in arrivals
  }

  /** No prefix of the arrivals holds every round-2 package without every round-1 package. */
  ghost predicate RoundsInOrder(d: Deal, arrivals: seq<Arrival>) {
    forall k :: 0 <= k <= |arrivals| ==> All2(d, arrivals[..k]) ==> All1(d, arrivals[..k])
  }

  /** The party holds exactly the packages that arrived. */
  ghost predicate Tracks(cfg: Config, d: Deal, st: State, arrivals: seq<Arrival>) {
    && st.cfg == cfg && PartyInv(d, st)
    && (forall k :: k in st.packages1 <==> First(k) in arrivals)
    && (forall k :: k in st.packages2 <==> Second(k) in arrivals)
  }

  lemma Arrived(before: seq<Arrival>, a: Arrival)
    ensures forall x :: First(x) in before + [a] <==> First(x) in before || a == First(x)
    ensures forall x :: Second(x) in before + [a] <==> Second(x) in before || a == Second(x)
  {
  }

  lemma FirstStep(sch: Scheme, d: Deal, m: Message, mid: State, before: seq<Arrival>, k: nat)
    requires Deals(sch, mid.cfg, d) && Letter1(sch, mid.cfg, d, k, m) && Tracks(mid.cfg, d, mid, before)
    ensures Handle(sch, mid, m).1.Fine? && Tracks(mid.cfg, d, Drained(Handle(sch, mid, m).0), before + [First(k)])
  {
    HonestRound1(sch, d, mid, k, m);
    Arrived(before, First(k));
  }

  lemma SecondStep(sch: Scheme, d: Deal, m: Message, mid: State, before: seq<Arrival>, k: nat)
    requires Deals(sch, mid.cfg, d) && Letter2(sch, mid.cfg, d, k, m) && Tracks(mid.cfg, d, mid, before)
    ensures var (st', r) := Handle(sch, mid, m);
      && r.Fine? == (All2(d, before + [Second(k)]) ==> All1(d, before + [Second(k)]))
      && (r.Fine? ==> Tracks(mid.cfg, d, Drained(st'), before + [Second(k)]))
  {
    HonestRound2(sch, d, mid, k, m);
    CompleteIsAll(d, mid, before, Second(k));
    Arrived(before, Second(k));
  }

  lemma ArrivalStep(sch: Scheme, d: Deal, box: Inbox, mid: State, before: seq<Arrival>, a: Arrival)
    requires Deals(sch, mid.cfg, d) && InboxOk(sch, mid.cfg, d, box) && a.from in d.peers1
    requires Tracks(mid.cfg, d, mid, before) && RoundsInOrder(d, before)
    ensures Handle(sch, mid, MessageOf(box, a)).1.Fine? == (All2(d, before + [a]) ==> All1(d, before + [a]))
    ensures Handle(sch, mid, MessageOf(box, a)).1.Fine? ==>
      Tracks(mid.cfg, d, Drained(Handle(sch, mid, MessageOf(box, a)).0), before + [a])
  {
    if a.First? {
      assert Letter1(sch, mid.cfg, d, a.from, box.first[a.from]);
      FirstStep(sch, d, box.first[a.from], mid, before, a.from);
      All1Grows(d, before, a);
    } else {
      assert Letter2(sch, mid.cfg, d, a.from, box.second[a.from]);
      SecondStep(sch, d, box.second[a.from], mid, before, a.from);
    }
  }

  lemma FeedLast(sch: Scheme, st: State, box: Inbox, before: seq<Arrival>, a: Arrival)
    requires forall x :: x in before + [a] ==> x.from in box.first && x.from in box.second
    ensures forall x :: x in before ==> x.from in box.first && x.from in box.second
    ensures Feed(sch, st, box, before).None? ==> Feed(sch, st, box, before + [a]).None?
    ensures Feed(sch, st, box, before).Some? ==>
      var (st', r) := Handle(sch, Feed(sch, st, box, before).value, MessageOf(box, a));
      Feed(sch, st, box, before + [a]) == if r.Err? then None else Some(Drained(st'))
  {
    assert forall x :: x in before ==> x in before + [a];
    assert (before + [a])[..|before|] == before;
  }

  /** Exactly when a party survives: feeding honest messages in any order, with
      duplicates, never errs if and only if no prefix holds every round-2 package
      without every round-1 package. */
  lemma {:induction false} SurvivesIffRoundsInOrder(sch: Scheme, st: State, d: Deal, box: Inbox, arrivals: seq<Arrival>)
    requires Deals(sch, st.cfg, d) && PartyInv(d, st) && st.packages1 == map[] && st.packages2 == map[]
    requires InboxOk(sch, st.cfg, d, box) && FromPeers(d, arrivals)
    ensures Feed(sch, st, box, arrivals).Some? <==> RoundsInOrder(d, arrivals)
    ensures Feed(sch, st, box, arrivals).Some? ==> Tracks(st.cfg, d, Feed(sch, st, box, arrivals).value, arrivals)
    decreases |arrivals|
  {
    if arrivals == [] {
      assert |d.peers1.Keys| == |d.peers1|;
      var k :| k in d.peers1.Keys;
      assert arrivals[..0] == [];
      assert !All2(d, []);
    } else {
      var before, a := arrivals[..|arrivals| - 1], arrivals[|arrivals| - 1];
      assert arrivals == before + [a];
      FeedLast(sch, st, box, before, a);
      SurvivesIffRoundsInOrder(sch, st, d, box, before);
      OrderStep(d, before, a);
      if Feed(sch, st, box, before).Some? {
        ArrivalStep(sch, d, box, Feed(sch, st, box, before).value, before, a);
      }
    }
  }

  /** The failing arrivals: every round-2 package, some round-1 package still missing. */
  lemma LateRound1Fails(sch: Scheme, st: State, d: Deal, box: Inbox, arrivals: seq<Arrival>)
    requires Deals(sch, st.cfg, d) && PartyInv(d, st) && st.packages1 == map[] && st.packages2 == map[]
    requires InboxOk(sch, st.cfg, d, box) && FromPeers(d, arrivals) && All2(d, arrivals) && !All1(d, arrivals)
    ensures Feed(sch, st, box, arrivals).None?
  {
    SurvivesIffRoundsInOrder(sch, st, d, box, arrivals);
    assert arrivals[..|arrivals|] == arrivals;
  }

  lemma OrderStep(d: Deal, before: seq<Arrival>, a: Arrival)
    ensures RoundsInOrder(d, before + [a]) <==>
      RoundsInOrder(d, before) && (All2(d, before + [a]) ==> All1(d, before + [a]))
  {
    var all := before + [a];
    assert all[..|all|] == all;
    assert forall k :: 0 <= k <= |before| ==> all[..k] == before[..k];
    if RoundsInOrder(d, all) {
      forall k | 0 <= k <= |before| && All2(d, before[..k]) ensures All1(d, before[..k]) {
        assert All2(d, all[..k]);
      }
    }
  }

  lemma All1Grows(d: Deal, before: seq<Arrival>, a: Arrival)
    requires RoundsInOrder(d, before) && a.First?
    ensures All2(d, before + [a]) ==> All1(d, before + [a])
  {
    assert before[..|before|] == before;
    if All2(d, before + [a]) {
      assert forall k :: k in d.peers1 ==> Second(k) in before + [a];
      assert All2(d, before);
    }
  }

  lemma CompleteIsAll(d: Deal, mid: State, before: seq<Arrival>, a: Arrival)
    requires a.Second? && a.from in d.peers1 && d.peers1.Keys == d.peers2.Keys
    requires Sub(mid.packages1, d.peers1) && Sub(mid.packages2, d.peers2)
    requires forall k :: k in mid.packages1 <==> First(k) in before
    requires forall k :: k in mid.packages2 <==> Second(k) in before
    ensures (mid.packages1 == d.peers1) == All1(d, before + [a])
    ensures (mid.packages2.Keys + {a.from} == d.peers2.Keys) == All2(d, before + [a])
  {
    if All1(d, before + [a]) {
      assert forall k :: k in d.peers1 ==> First(k) in before + [a];
      SubEqual(mid.packages1, d.peers1);
    }
    assert forall k :: Second(k) in before + [a] <==> Second(k) in before || k == a.from;
  }
}

/** Key generation between honest parties over per-sender FIFO channels that may
    deliver a message again (`run_keygen` and `flush` in
    crates/thornado-bifrost-signer/src/transport.rs driving `KeygenSession`). */
module KeygenProtocol {
  import opened Names
  import opened KeygenSession
  import opened HonestDealer

  // ---- the network ----

  type Pair = (Name, Name)

  /** `chan` is everything sent from one party to another, in order; `got` is how
      many of these messages have arrived; `failed` collects the parties whose
      `handle` returned an error. */
  datatype Net = Net(sessions: map<Name, State>, chan: map<Pair, seq<Message>>, got: map<Pair, nat>, failed: set<Name>)

  function Copies(m: Message, to: seq<Name>, q: Name): seq<Message> {
    if to == [] then [] else (if to[0] == q then [m] else []) + Copies(m, to[1..], q)
  }

  /** `flush`, seen by one recipient. */
  function SentTo(ms: seq<Message>, q: Name): seq<Message> {
    if ms == [] then [] else Copies(ms[0], ms[0].to, q) + SentTo(ms[1..], q)
  }

  /** Hand party `to` the message number `index` that `from` sent it. */
  datatype Delivery = Delivery(from: Name, to: Name, index: nat)

  /** FIFO with duplicates: the next message, or one that already arrived. */
  predicate Enabled(n: Net, x: Delivery) {
    && (x.from, x.to) in n.chan && (x.from, x.to) in n.got && x.to in n.sessions
    && x.index <= n.got[(x.from, x.to)] && x.index < |n.chan[(x.from, x.to)]|
  }

  function Max(a: nat, b: nat): nat {
    if a < b then b else a
  }

  function Receive(n: Net, x: Delivery, step: (State, Outcome)): Net
    requires Enabled(n, x)
  {
    Net(n.sessions[x.to := Drained(step.0)],
        map e | e in n.chan :: if e.0 == x.to then n.chan[e] + SentTo(step.0.outputs, e.1) else n.chan[e],
        n.got[(x.from, x.to) := Max(n.got[(x.from, x.to)], x.index + 1)],
        if step.1.Err? then n.failed + {x.to} else n.failed)
  }

  function Deliver(sch: Scheme, n: Net, x: Delivery): Net {
    if !Enabled(n, x) then n
    else Receive(n, x, Handle(sch, n.sessions[x.to], n.chan[(x.from, x.to)][x.index]))
  }

  function Run(sch: Scheme, n: Net, schedule: seq<Delivery>): Net
    decreases |schedule|
  {
    if schedule == [] then n else Run(sch, Deliver(sch, n, schedule[0]), schedule[1..])
  }

  // ---- the invariant, over plain tables ----

  /** A run as tables: identifiers, configurations, deals, and the messages by
      sender (and recipient). */
  datatype Table = Table(
    sch: Scheme,
    id: map<Name, nat>,
    cfgs: map<Name, Config>,
    deals: map<Name, Deal>,
    first: map<Name, Message>,
    second: map<Name, map<Name, Message>>,
    outs: map<Name, seq<Message>>)

  /** Party `p` deals as the table says, one round-2 message to every other party. */
  ghost predicate Acts(tb: Table, p: Name) {
    && p in tb.id && p in tb.cfgs && p in tb.deals && p in tb.first && p in tb.second && p in tb.outs
    && Deals(tb.sch, tb.cfgs[p], tb.deals[p])
    && tb.outs[p] == Round2Messages(tb.sch, tb.cfgs[p], tb.deals[p].dealt).0
    && (forall q :: q in tb.id && q != p ==> q in tb.second[p] && SentTo(tb.outs[p], q) == [tb.second[p][q]])
    && SentTo(tb.outs[p], p) == []
    && (forall k :: k in tb.deals[p].peers1 ==> exists q :: q in tb.id && q != p && tb.id[q] == k)
  }

  /** Party `p` reads the two messages of party `q` as the table says. */
  ghost predicate Reads(tb: Table, p: Name, q: Name) {
    && p in tb.cfgs && p in tb.deals && q in tb.id && q in tb.first && q in tb.second && p in tb.second[q]
    && Letter1(tb.sch, tb.cfgs[p], tb.deals[p], tb.id[q], tb.first[q])
    && Letter2(tb.sch, tb.cfgs[p], tb.deals[p], tb.id[q], tb.second[q][p])
  }

  ghost predicate TableOk(tb: Table) {
    && (forall p {:trigger Acts(tb, p)} :: p in tb.id ==> Acts(tb, p))
    && (forall p, q {:trigger Reads(tb, p, q)} :: p in tb.id && q in tb.id && p != q ==> Reads(tb, p, q))
  }

  ghost predicate SessionOk(tb: Table, p: Name, st: State) {
    && p in tb.cfgs && p in tb.deals && st.cfg == tb.cfgs[p] && PartyInv(tb.deals[p], st)
    && st.packages2.Keys <= st.packages1.Keys
  }

  /** What the channel from `p` to `q` holds. */
  ghost predicate ChanHolds(tb: Table, n: Net, p: Name, q: Name) {
    && p in n.sessions && q in n.sessions && p in tb.id && p in tb.first && p in tb.second && (p, q) in n.chan
    && (p == q ==> n.chan[(p, q)] == [])
    && (p != q ==> q in tb.second[p])
    && (p != q ==> n.chan[(p, q)] == [tb.first[p]] + (if n.sessions[p].secret2.Some? then [tb.second[p][q]] else []))
  }

  /** What arrived from `p` was kept by `q`. */
  ghost predicate ChanKept(tb: Table, n: Net, p: Name, q: Name) {
    && q in n.sessions && p in tb.id && (p, q) in n.chan && (p, q) in n.got
    && n.got[(p, q)] <= |n.chan[(p, q)]|
    && (n.got[(p, q)] >= 1 ==> tb.id[p] in n.sessions[q].packages1)
    && (n.got[(p, q)] >= 2 ==> tb.id[p] in n.sessions[q].packages2)
  }

  ghost predicate ChanOk(tb: Table, n: Net, p: Name, q: Name) {
    ChanHolds(tb, n, p, q) && ChanKept(tb, n, p, q)
  }

  ghost predicate Inv(tb: Table, n: Net) {
    && TableOk(tb) && n.failed == {} && n.sessions.Keys == tb.id.Keys
    && (forall p {:trigger SessionOk(tb, p, n.sessions[p])} :: p in tb.id ==> SessionOk(tb, p, n.sessions[p]))
    && (forall p, q {:trigger ChanOk(tb, n, p, q)} :: p in tb.id && q in tb.id ==> ChanOk(tb, n, p, q))
    && (forall e :: e in n.chan ==> e.0 in tb.id && e.1 in tb.id)
  }

  /** What one delivery does to the receiving session. */
  ghost predicate GoodStep(tb: Table, p: Name, from: nat, index: nat, st: State, step: (State, Outcome)) {
    && step.1.Fine? && SessionOk(tb, p, Drained(step.0)) && p in tb.outs
    && st.packages1.Keys <= step.0.packages1.Keys && st.packages2.Keys <= step.0.packages2.Keys
    && (index == 0 ==> from in step.0.packages1) && (index == 1 ==> from in step.0.packages2)
    && step.0.outputs == (if step.0.secret2.Some? && st.secret2.None? then tb.outs[p] else [])
    && (st.secret2.Some? ==> step.0.secret2.Some?)
  }

  lemma FirstDelivery(tb: Table, p: Name, q: Name, st: State)
    requires Acts(tb, p) && Reads(tb, p, q) && SessionOk(tb, p, st)
    ensures GoodStep(tb, p, tb.id[q], 0, st, Handle(tb.sch, st, tb.first[q]))
  {
    HonestRound1(tb.sch, tb.deals[p], st, tb.id[q], tb.first[q]);
  }

  lemma SecondDelivery(tb: Table, p: Name, q: Name, st: State)
    requires Acts(tb, p) && Reads(tb, p, q) && SessionOk(tb, p, st) && tb.id[q] in st.packages1
    ensures GoodStep(tb, p, tb.id[q], 1, st, Handle(tb.sch, st, tb.second[q][p]))
  {
    var d := tb.deals[p];
    HonestRound2(tb.sch, d, st, tb.id[q], tb.second[q][p]);
    if st.packages2.Keys + {tb.id[q]} == d.peers2.Keys {
      SubEqual(st.packages1, d.peers1);
    }
  }

  lemma ReceiveHolds(tb: Table, n: Net, x: Delivery, step: (State, Outcome), p: Name, q: Name)
    requires Enabled(n, x) && ChanHolds(tb, n, p, q) && Acts(tb, x.to) && q in tb.id
    requires GoodStep(tb, x.to, tb.id[x.to], 2, n.sessions[x.to], step)
    ensures ChanHolds(tb, Receive(n, x, step), p, q)
  {
    var n' := Receive(n, x, step);
    assert n'.chan[(p, q)] == if p == x.to then n.chan[(p, q)] + SentTo(step.0.outputs, q) else n.chan[(p, q)];
    if p == x.to {
      assert SentTo([], q) == [];
      if q != p {
        assert SentTo(tb.outs[p], q) == [tb.second[p][q]];
      }
    }
  }

  lemma ReceiveKept(tb: Table, n: Net, x: Delivery, step: (State, Outcome), p: Name, q: Name)
    requires Enabled(n, x) && ChanKept(tb, n, x.from, x.to) && ChanKept(tb, n, p, q)
    requires GoodStep(tb, x.to, tb.id[x.from], x.index, n.sessions[x.to], step)
    ensures ChanKept(tb, Receive(n, x, step), p, q)
  {
  }

  lemma ReceiveChan(tb: Table, n: Net, x: Delivery, step: (State, Outcome), p: Name, q: Name)
    requires Enabled(n, x) && ChanOk(tb, n, x.from, x.to) && ChanOk(tb, n, p, q) && Acts(tb, x.to)
    requires p in tb.id && q in tb.id
    requires GoodStep(tb, x.to, tb.id[x.from], x.index, n.sessions[x.to], step)
    ensures ChanOk(tb, Receive(n, x, step), p, q)
  {
    ReceiveHolds(tb, n, x, step, p, q);
    ReceiveKept(tb, n, x, step, p, q);
  }

  lemma ReceiveSessions(tb: Table, n: Net, x: Delivery, step: (State, Outcome))
    requires Inv(tb, n) && Enabled(n, x) && SessionOk(tb, x.to, Drained(step.0))
    ensures forall p {:trigger SessionOk(tb, p, Receive(n, x, step).sessions[p])} ::
      p in tb.id ==> SessionOk(tb, p, Receive(n, x, step).sessions[p])
  {
    forall p | p in tb.id ensures SessionOk(tb, p, Receive(n, x, step).sessions[p]) {
      if p != x.to {
        assert SessionOk(tb, p, n.sessions[p]);
      }
    }
  }

  lemma ReceiveChans(tb: Table, n: Net, x: Delivery, step: (State, Outcome))
    requires Inv(tb, n) && Enabled(n, x)
    requires GoodStep(tb, x.to, tb.id[x.from], x.index, n.sessions[x.to], step)
    ensures forall p, q {:trigger ChanOk(tb, Receive(n, x, step), p, q)} ::
      p in tb.id && q in tb.id ==> ChanOk(tb, Receive(n, x, step), p, q)
  {
    assert Acts(tb, x.to) && ChanOk(tb, n, x.from, x.to);
    forall p, q | p in tb.id && q in tb.id ensures ChanOk(tb, Receive(n, x, step), p, q) {
      assert ChanOk(tb, n, p, q);
      ReceiveChan(tb, n, x, step, p, q);
    }
  }

  lemma ReceiveKeepsInv(tb: Table, n: Net, x: Delivery, step: (State, Outcome))
    requires Inv(tb, n) && Enabled(n, x)
    requires GoodStep(tb, x.to, tb.id[x.from], x.index, n.sessions[x.to], step)
    ensures Inv(tb, Receive(n, x, step))
  {
    ReceiveSessions(tb, n, x, step);
    ReceiveChans(tb, n, x, step);
    assert Receive(n, x, step).chan.Keys == n.chan.Keys;
  }

  lemma DeliverKeepsInv(tb: Table, n: Net, x: Delivery)
    requires Inv(tb, n)
    ensures Inv(tb, Deliver(tb.sch, n, x))
  {
    if Enabled(n, x) {
      assert ChanOk(tb, n, x.from, x.to);
      assert Acts(tb, x.to) && Reads(tb, x.to, x.from);
      var st := n.sessions[x.to];
      assert SessionOk(tb, x.to, st);
      if x.index == 0 {
        FirstDelivery(tb, x.to, x.from, st);
      } else {
        SecondDelivery(tb, x.to, x.from, st);
      }
      ReceiveKeepsInv(tb, n, x, Handle(tb.sch, st, n.chan[(x.from, x.to)][x.index]));
    }
  }

  lemma {:induction false} RunKeepsInv(tb: Table, n: Net, schedule: seq<Delivery>)
    requires Inv(tb, n)
    ensures Inv(tb, Run(tb.sch, n, schedule))
    decreases |schedule|
  {
    if schedule != [] {
      DeliverKeepsInv(tb, n, schedule[0]);
      RunKeepsInv(tb, Deliver(tb.sch, n, schedule[0]), schedule[1..]);
    }
  }

  // ---- quiescence ----

  ghost predicate Quiescent(n: Net) {
    forall e :: e in n.chan ==> e in n.got && n.got[e] == |n.chan[e]|
  }

  lemma QuiescentDealt(tb: Table, n: Net, p: Name)
    requires Inv(tb, n) && Quiescent(n) && p in tb.id
    ensures p in tb.deals && n.sessions[p].secret2.Some? && n.sessions[p].packages1 == tb.deals[p].peers1
  {
    var st := n.sessions[p];
    assert SessionOk(tb, p, st) && Acts(tb, p);
    forall k | k in tb.deals[p].peers1 ensures k in st.packages1 {
      var q :| q in tb.id && q != p && tb.id[q] == k;
      assert ChanOk(tb, n, q, p);
    }
    SubEqual(st.packages1, tb.deals[p].peers1);
  }

  /** Once nothing is undelivered, every party has run `part2` exactly once and holds its share. */
  lemma QuiescentFinished(tb: Table, n: Net, p: Name)
    requires Inv(tb, n) && Quiescent(n) && p in tb.id
    ensures p in tb.deals && n.sessions[p].result == Some(tb.deals[p].share) && n.sessions[p].part2Runs == 1
  {
    var st := n.sessions[p];
    assert SessionOk(tb, p, st) && Acts(tb, p);
    QuiescentDealt(tb, n, p);
    forall k | k in tb.deals[p].peers2 ensures k in st.packages2 {
      var q :| q in tb.id && q != p && tb.id[q] == k;
      QuiescentDealt(tb, n, q);
      assert ChanOk(tb, n, q, p);
    }
    SubEqual(st.packages2, tb.deals[p].peers2);
  }

  // ---- a correct run ----

  /** One party's inputs: the member list as it was given, and what `part1` produced. */
  datatype Input = Input(raw: seq<Name>, secret: Secret1, package: Package1)

  /** `groupOf` is the public key package that a full set of round-1 packages determines. */
  datatype Setup = Setup(
    sch: Scheme,
    minSigners: nat,
    names: seq<Name>,
    parties: map<Name, Input>,
    groupOf: map<nat, Package1> -> PublicKeyPackage)

  ghost function Members(s: Setup): seq<Name> {
    NormalizeParticipants(s.names)
  }

  /** At least two members, within the identifier range, all given the same set of names. */
  ghost predicate Valid(s: Setup) {
    && Elems(s.names) == s.parties.Keys && |Members(s)| < U16 && |s.parties| >= 2
    && forall p {:trigger Member(s, p)} :: p in s.parties ==> Member(s, p)
  }

  ghost predicate Member(s: Setup, p: Name) {
    p in s.parties && Elems(s.parties[p].raw) == s.parties.Keys
  }

  ghost function Id(s: Setup, p: Name): nat {
    match IdentifierFor(Members(s), p)
    case Some(i) => i
    case None => 0
  }

  lemma IdFacts(s: Setup, p: Name)
    requires Valid(s) && p in s.parties
    ensures IdentifierFor(Members(s), p) == Some(Id(s, p)) && NameForIdentifier(Members(s), Id(s, p)) == Some(p)
    ensures NormalizeParticipants(s.parties[p].raw) == Members(s)
  {
    assert Member(s, p);
    NormalizeIsCanonical(s.names);
    assert p in Elems(Members(s));
    IdentifierRoundTrip(Members(s), p);
    NormalizeDependsOnSetOnly(s.parties[p].raw, s.names);
  }

  ghost function IdMap(s: Setup): (id: map<Name, nat>)
    ensures id.Keys == s.parties.Keys && forall p :: p in id ==> id[p] == Id(s, p)
  {
    map p | p in s.parties :: Id(s, p)
  }

  lemma IdMapInjective(s: Setup)
    requires Valid(s)
    ensures Injective(IdMap(s))
  {
    forall p, q | p in s.parties && q in s.parties && Id(s, p) == Id(s, q) ensures p == q {
      IdFacts(s, p);
      IdFacts(s, q);
    }
  }

  lemma PeerCount(s: Setup)
    requires Valid(s)
    ensures |Members(s)| == |s.parties| && Elems(Members(s)) == s.parties.Keys
    ensures |IdMap(s).Values| == |s.parties|
  {
    NormalizeIsCanonical(s.names);
    DistinctSetToMultiset(Members(s));
    IdMapInjective(s);
    InjectiveCount(IdMap(s));
    assert |s.parties| == |s.parties.Keys| && |IdMap(s)| == |IdMap(s).Keys|;
  }

  ghost function Cfg(s: Setup, p: Name): Config
    requires p in s.parties
  {
    Config(p, NormalizeParticipants(s.parties[p].raw), Id(s, p), s.minSigners)
  }

  ghost function Packages(s: Setup): (m: map<Name, Package1>)
    ensures m.Keys == s.parties.Keys && forall p :: p in m ==> m[p] == s.parties[p].package
  {
    map p | p in s.parties :: s.parties[p].package
  }

  ghost function AllPackages(s: Setup): (m: map<nat, Package1>)
    requires Valid(s)
    ensures m.Keys == IdMap(s).Values
  {
    IdMapInjective(s);
    ById(IdMap(s), Packages(s))
  }

  lemma PackageAt(s: Setup, p: Name)
    requires Valid(s) && p in s.parties
    ensures Id(s, p) in AllPackages(s) && AllPackages(s)[Id(s, p)] == s.parties[p].package
    ensures forall q :: q in s.parties && q != p ==> Id(s, q) != Id(s, p)
  {
    IdMapInjective(s);
    assert IdMap(s)[p] == Id(s, p);
    forall q | q in s.parties && q != p ensures Id(s, q) != Id(s, p) {
      assert IdMap(s)[q] == Id(s, q);
    }
  }

  ghost function Peers1(s: Setup, p: Name): map<nat, Package1>
    requires Valid(s)
  {
    AllPackages(s) - {Id(s, p)}
  }

  ghost function Dealt(s: Setup, p: Name): Part2
    requires Valid(s) && p in s.parties
  {
    s.sch.part2(s.parties[p].secret, Peers1(s, p))
  }

  function Lookup(packages: seq<(nat, Package2)>, id: nat): Option<Package2> {
    if packages == [] then None
    else if packages[0].0 == id then Some(packages[0].1)
    else Lookup(packages[1..], id)
  }

  ghost predicate DistinctRecipients(packages: seq<(nat, Package2)>) {
    forall i, j :: 0 <= i < j < |packages| ==> packages[i].0 != packages[j].0
  }

  /** Every package has a printable form that parses back. */
  ghost predicate Printable(sch: Scheme, packages: seq<(nat, Package2)>) {
    forall x :: x in packages ==> sch.print2(x.1).Some? && sch.parse2(sch.print2(x.1).value) == Some(x.1)
  }

  /** `part2` succeeds for party `p` and deals one package to every other party. */
  ghost predicate DealsToAll(s: Setup, p: Name)
    requires Valid(s) && p in s.parties
  {
    && Dealt(s, p).Part2? && DistinctRecipients(Dealt(s, p).packages) && Printable(s.sch, Dealt(s, p).packages)
    && (forall x :: x in Dealt(s, p).packages ==> x.0 in Peers1(s, p))
    && (forall k :: k in Peers1(s, p) ==> Lookup(Dealt(s, p).packages, k).Some?)
  }

  ghost predicate EveryoneDeals(s: Setup) {
    Valid(s) && forall p {:trigger DealsToAll(s, p)} :: p in s.parties ==> DealsToAll(s, p)
  }

  /** The package that `p` deals to `q`. */
  ghost function PackageTo(s: Setup, p: Name, q: Name): Option<Package2>
    requires Valid(s) && p in s.parties
  {
    match Dealt(s, p)
    case Part2(_, packages) => Lookup(packages, Id(s, q))
    case Part2Rejected(_) => None
  }

  ghost function Incoming(s: Setup, q: Name): (m: map<Name, Package2>)
    requires Valid(s)
    ensures forall p :: p in m <==> p in s.parties && p != q && PackageTo(s, p, q).Some?
    ensures forall p :: p in m ==> Some(m[p]) == PackageTo(s, p, q)
  {
    map p | p in s.parties && p != q && PackageTo(s, p, q).Some? :: PackageTo(s, p, q).value
  }

  /** Everyone else's package for `q` exists, so they can be tabled by identifier. */
  ghost predicate Ready(s: Setup, q: Name) {
    && Valid(s) && q in s.parties && Dealt(s, q).Part2?
    && Injective(IdMap(s) - {q}) && Incoming(s, q).Keys == (IdMap(s) - {q}).Keys
  }

  ghost function Peers2(s: Setup, q: Name): map<nat, Package2>
    requires Ready(s, q)
  {
    ById(IdMap(s) - {q}, Incoming(s, q))
  }

  ghost function Finish(s: Setup, q: Name): Part3
    requires Ready(s, q)
  {
    s.sch.part3(Dealt(s, q).secret, Peers1(s, q), Peers2(s, q))
  }

  lemma PeerIsDealt(s: Setup, p: Name, q: Name)
    requires Valid(s) && p in s.parties && q in s.parties && p != q && DealsToAll(s, p)
    ensures Id(s, q) in Peers1(s, p)
  {
    PackageAt(s, p);
    PackageAt(s, q);
  }

  lemma DealtPackage(s: Setup, p: Name, q: Name)
    requires Valid(s) && p in s.parties && q in s.parties && p != q && DealsToAll(s, p)
    ensures PackageTo(s, p, q).Some? && Id(s, q) in Peers1(s, p)
  {
    PeerIsDealt(s, p, q);
  }

  lemma IncomingAll(s: Setup, q: Name)
    requires EveryoneDeals(s) && q in s.parties
    ensures Incoming(s, q).Keys == s.parties.Keys - {q}
  {
    forall p | p in s.parties && p != q ensures p in Incoming(s, q) {
      assert DealsToAll(s, p);
      DealtPackage(s, p, q);
    }
  }

  lemma EveryoneReady(s: Setup, q: Name)
    requires EveryoneDeals(s) && q in s.parties
    ensures Ready(s, q) && Peers2(s, q).Keys == Peers1(s, q).Keys
  {
    IdMapInjective(s);
    DropValues(IdMap(s), q);
    assert DealsToAll(s, q);
    IncomingAll(s, q);
    assert (IdMap(s) - {q}).Keys == s.parties.Keys - {q};
    assert IdMap(s)[q] == Id(s, q);
  }

  ghost predicate Finishes(s: Setup, q: Name) {
    && Ready(s, q) && Finish(s, q).Part3? && Finish(s, q).group == s.groupOf(AllPackages(s))
    && s.sch.printKey(Finish(s, q).key).Some?
    && s.sch.print1(s.parties[q].package).Some?
    && s.sch.parse1(s.sch.print1(s.parties[q].package).value) == Some(s.parties[q].package)
  }

  /** The frost crate is correct on this run: the codecs round-trip, `part2` deals to
      every peer, and `part3` ends in the public key package that the round-1
      packages of all parties determine. */
  ghost predicate Correct(s: Setup) {
    && EveryoneDeals(s)
    && (forall b :: s.sch.decodePayload(s.sch.encodePayload(b)) == Some(b))
    && (forall q {:trigger Finishes(s, q)} :: q in s.parties ==> Finishes(s, q))
    && s.sch.printGroupKey(s.groupOf(AllPackages(s))).Some?
    && s.sch.printGroup(s.groupOf(AllPackages(s))).Some?
  }

  // ---- the round-2 messages of a correct run ----

  lemma {:induction false} Round2Complete(sch: Scheme, cfg: Config, packages: seq<(nat, Package2)>)
    requires Printable(sch, packages)
    requires forall x :: x in packages ==> NameForIdentifier(cfg.participants, x.0).Some?
    ensures Round2Messages(sch, cfg, packages).1
  {
    if packages != [] {
      assert packages[0] in packages;
      assert forall x :: x in packages[1..] ==> x in packages;
      Round2Complete(sch, cfg, packages[1..]);
    }
  }

  /** Each recipient is sent exactly the one package addressed to its identifier. */
  lemma {:induction false} Round2SentTo(sch: Scheme, cfg: Config, packages: seq<(nat, Package2)>, q: Name, i: nat)
    requires Printable(sch, packages) && DistinctRecipients(packages)
    requires forall x :: x in packages ==> NameForIdentifier(cfg.participants, x.0).Some?
    requires forall x :: x in packages ==> (NameForIdentifier(cfg.participants, x.0) == Some(q) <==> x.0 == i)
    ensures Lookup(packages, i).Some? ==> sch.print2(Lookup(packages, i).value).Some?
    ensures SentTo(Round2Messages(sch, cfg, packages).0, q) ==
      (match Lookup(packages, i)
       case None => []
       case Some(pkg) => [Message(Round2, cfg.local, [q], sch.encodePayload(sch.print2(pkg).value))])
    ensures Lookup(packages, i).None? <==> forall x :: x in packages ==> x.0 != i
  {
    if packages != [] {
      var x, rest := packages[0], packages[1..];
      assert x in packages;
      assert packages == [x] + rest;
      assert forall y :: y in rest ==> y in packages;
      assert DistinctRecipients(rest);
      Round2SentTo(sch, cfg, rest, q, i);
      var to := NameForIdentifier(cfg.participants, x.0).value;
      var m := Message(Round2, cfg.local, [to], sch.encodePayload(sch.print2(x.1).value));
      assert Round2Messages(sch, cfg, packages).0 == [m] + Round2Messages(sch, cfg, rest).0;
      SentToCons(m, Round2Messages(sch, cfg, rest).0, q);
      assert [to][1..] == [];
      if x.0 == i {
        forall y | y in rest ensures y.0 != i {
          var j :| 0 <= j < |rest| && rest[j] == y;
          assert packages[j + 1] == y;
        }
      }
    }
  }

  lemma SentToCons(m: Message, ms: seq<Message>, q: Name)
    ensures SentTo([m] + ms, q) == Copies(m, m.to, q) + SentTo(ms, q)
  {
    assert ([m] + ms)[1..] == ms;
  }

  lemma RecipientNames(s: Setup, p: Name, q: Name, k: nat)
    requires Valid(s) && p in s.parties && q in s.parties && k in Peers1(s, p)
    ensures NameForIdentifier(Cfg(s, p).participants, k).Some?
    ensures NameForIdentifier(Cfg(s, p).participants, k) == Some(q) <==> k == Id(s, q)
  {
    var r :| r in IdMap(s) && IdMap(s)[r] == k;
    IdFacts(s, r);
    IdFacts(s, p);
    IdFacts(s, q);
  }

  // ---- the table of a correct run ----

  ghost function TheFirst(s: Setup, p: Name): Message
    requires p in s.parties && s.sch.print1(s.parties[p].package).Some?
  {
    Message(Round1, p, Others(Cfg(s, p).participants, p), s.sch.encodePayload(s.sch.print1(s.parties[p].package).value))
  }

  ghost function TheSecond(s: Setup, p: Name, q: Name): Option<Message>
    requires Valid(s) && p in s.parties
  {
    match PackageTo(s, p, q)
    case None => None
    case Some(pkg) =>
      match s.sch.print2(pkg)
      case None => None
      case Some(bytes) => Some(Message(Round2, p, [q], s.sch.encodePayload(bytes)))
  }

  ghost function TheDeal(s: Setup, p: Name): Deal
    requires Finishes(s, p) && s.sch.printGroupKey(Finish(s, p).group).Some? && s.sch.printGroup(Finish(s, p).group).Some?
  {
    Deal(Peers1(s, p), s.parties[p].secret, Dealt(s, p).secret, Dealt(s, p).packages, Peers2(s, p),
         Finish(s, p).key, Finish(s, p).group, TheShare(s, p))
  }

  /** Party `p`'s stored share: the common member list and group key, and its own key. */
  ghost function TheShare(s: Setup, p: Name): StoredShare
    requires Finishes(s, p) && s.sch.printGroupKey(Finish(s, p).group).Some? && s.sch.printGroup(Finish(s, p).group).Some?
  {
    var cfg, done := Cfg(s, p), Finish(s, p);
    StoredShare(p, cfg.participants, cfg.localIndex, cfg.minSigners, |cfg.participants| % U16,
                s.sch.printGroupKey(done.group).value, s.sch.printKey(done.key).value, s.sch.printGroup(done.group).value)
  }

  lemma PeerSizes(s: Setup, p: Name)
    requires EveryoneDeals(s) && p in s.parties
    ensures Ready(s, p) && |Peers1(s, p)| == |Peers2(s, p)| == Peers(Cfg(s, p)) >= 1
    ensures Peers1(s, p).Keys == Peers2(s, p).Keys
  {
    EveryoneReady(s, p);
    PeerCount(s);
    IdFacts(s, p);
    PackageAt(s, p);
    assert |AllPackages(s)| == |AllPackages(s).Keys|;
    assert Peers1(s, p).Keys == AllPackages(s).Keys - {Id(s, p)};
    assert |Peers1(s, p)| == |Peers1(s, p).Keys| && |Peers2(s, p)| == |Peers2(s, p).Keys|;
  }

  lemma TheRound2(s: Setup, p: Name, q: Name)
    requires EveryoneDeals(s) && p in s.parties && q in s.parties
    ensures Dealt(s, p).Part2? && Round2Messages(s.sch, Cfg(s, p), Dealt(s, p).packages).1
    ensures SentTo(Round2Messages(s.sch, Cfg(s, p), Dealt(s, p).packages).0, q) ==
      if q == p then [] else if TheSecond(s, p, q).Some? then [TheSecond(s, p, q).value] else []
    ensures q != p ==> TheSecond(s, p, q).Some?
  {
    assert DealsToAll(s, p);
    var packages := Dealt(s, p).packages;
    forall x | x in packages
      ensures NameForIdentifier(Cfg(s, p).participants, x.0).Some?
      ensures NameForIdentifier(Cfg(s, p).participants, x.0) == Some(q) <==> x.0 == Id(s, q)
    {
      RecipientNames(s, p, q, x.0);
    }
    Round2Complete(s.sch, Cfg(s, p), packages);
    Round2SentTo(s.sch, Cfg(s, p), packages, q, Id(s, q));
    if q == p {
      assert Lookup(packages, Id(s, p)).None?;
    } else {
      DealtPackage(s, p, q);
    }
  }

  ghost predicate Done(s: Setup, p: Name) {
    Finishes(s, p) && s.sch.printGroupKey(Finish(s, p).group).Some? && s.sch.printGroup(Finish(s, p).group).Some?
  }

  lemma AllDone(s: Setup, p: Name)
    requires Correct(s) && p in s.parties
    ensures Done(s, p)
  {
    assert Finishes(s, p);
  }

  ghost function SecondsOf(s: Setup, p: Name): map<Name, Message>
    requires Valid(s) && p in s.parties
  {
    map q | q in s.parties && TheSecond(s, p, q).Some? :: TheSecond(s, p, q).value
  }

  lemma TheDealOk(s: Setup, p: Name)
    requires Correct(s) && p in s.parties
    ensures Done(s, p) && Deals(s.sch, Cfg(s, p), TheDeal(s, p))
  {
    AllDone(s, p);
    PeerSizes(s, p);
    TheRound2(s, p, p);
  }

  /** Party `p`'s row of the table is the one of the run. */
  ghost predicate RowOf(s: Setup, tb: Table, p: Name) {
    && Done(s, p) && tb.sch == s.sch
    && p in tb.id && tb.id[p] == Id(s, p)
    && p in tb.cfgs && tb.cfgs[p] == Cfg(s, p)
    && p in tb.deals && tb.deals[p] == TheDeal(s, p)
    && p in tb.first && tb.first[p] == TheFirst(s, p)
    && p in tb.second && tb.second[p] == SecondsOf(s, p)
    && p in tb.outs && tb.outs[p] == Round2Messages(s.sch, Cfg(s, p), Dealt(s, p).packages).0
  }

  ghost predicate TableOf(s: Setup, tb: Table) {
    && tb.id.Keys == s.parties.Keys
    && forall p {:trigger RowOf(s, tb, p)} :: p in s.parties ==> RowOf(s, tb, p)
  }

  lemma TheyDeal(s: Setup, tb: Table, p: Name)
    requires Correct(s) && TableOf(s, tb) && p in s.parties
    ensures Acts(tb, p)
  {
    assert RowOf(s, tb, p);
    TheDealOk(s, p);
    forall q | q in tb.id && q != p ensures q in tb.second[p] && SentTo(tb.outs[p], q) == [tb.second[p][q]] {
      TheRound2(s, p, q);
    }
    TheRound2(s, p, p);
    forall k | k in tb.deals[p].peers1 ensures exists q :: q in tb.id && q != p && tb.id[q] == k {
      PeerOwner(s, tb, p, k);
    }
  }

  lemma PeerOwner(s: Setup, tb: Table, p: Name, k: nat)
    requires Valid(s) && TableOf(s, tb) && p in s.parties && k in Peers1(s, p)
    ensures exists q :: q in tb.id && q != p && tb.id[q] == k
  {
    var q :| q in IdMap(s) && IdMap(s)[q] == k;
    assert RowOf(s, tb, q);
    assert q != p;
  }

  lemma TheirFirst(s: Setup, p: Name, q: Name)
    requires Correct(s) && p in s.parties && q in s.parties && p != q
    ensures Done(s, p) && Done(s, q)
    ensures Letter1(s.sch, Cfg(s, p), TheDeal(s, p), Id(s, q), TheFirst(s, q))
  {
    AllDone(s, p);
    AllDone(s, q);
    FirstReads(s, p, q);
    IdFacts(s, p);
  }

  /** Party `p` reads who sent `q`'s package, and reads the package. */
  lemma FirstReads(s: Setup, p: Name, q: Name)
    requires Correct(s) && p in s.parties && q in s.parties && p != q && s.sch.print1(s.parties[q].package).Some?
    ensures IdentifierFor(Cfg(s, p).participants, TheFirst(s, q).from) == Some(Id(s, q)) && Id(s, q) != Id(s, p)
    ensures Id(s, q) in Peers1(s, p) && Peers1(s, p)[Id(s, q)] == s.parties[q].package
  {
    IdFacts(s, p);
    IdFacts(s, q);
    PackageAt(s, q);
  }

  lemma TheirLetters(s: Setup, p: Name, q: Name)
    requires Correct(s) && p in s.parties && q in s.parties && p != q
    ensures Done(s, p) && Done(s, q) && TheSecond(s, q, p).Some?
    ensures Letter1(s.sch, Cfg(s, p), TheDeal(s, p), Id(s, q), TheFirst(s, q))
    ensures Letter2(s.sch, Cfg(s, p), TheDeal(s, p), Id(s, q), TheSecond(s, q, p).value)
  {
    TheirFirst(s, p, q);
    TheRound2(s, q, p);
    Letter2At(s, p, q);
    IdFacts(s, p);
    IdFacts(s, q);
  }

  lemma Letter2At(s: Setup, p: Name, q: Name)
    requires Correct(s) && p in s.parties && q in s.parties && p != q && Ready(s, p)
    ensures Id(s, q) in Peers2(s, p) && Some(Peers2(s, p)[Id(s, q)]) == PackageTo(s, q, p)
    ensures var pkg := Peers2(s, p)[Id(s, q)];
      s.sch.print2(pkg).Some? && s.sch.parse2(s.sch.print2(pkg).value) == Some(pkg)
  {
    var others := IdMap(s) - {p};
    assert q in others && others[q] == Id(s, q);
    assert q in Incoming(s, p);
    assert DealsToAll(s, q);
    LookupIn(Dealt(s, q).packages, Id(s, p));
  }

  lemma {:induction false} LookupIn(packages: seq<(nat, Package2)>, i: nat)
    ensures Lookup(packages, i).Some? ==> (i, Lookup(packages, i).value) in packages
  {
    if packages != [] && packages[0].0 != i {
      LookupIn(packages[1..], i);
    }
  }

  lemma TheyRead(s: Setup, tb: Table, p: Name, q: Name)
    requires Correct(s) && TableOf(s, tb) && p in s.parties && q in s.parties && p != q
    ensures Reads(tb, p, q)
  {
    assert RowOf(s, tb, p) && RowOf(s, tb, q);
    TheirLetters(s, p, q);
  }

  lemma AllAct(s: Setup, tb: Table)
    requires Correct(s) && TableOf(s, tb)
    ensures forall p {:trigger Acts(tb, p)} :: p in tb.id ==> Acts(tb, p)
  {
    forall p | p in tb.id ensures Acts(tb, p) {
      TheyDeal(s, tb, p);
    }
  }

  lemma AllRead(s: Setup, tb: Table)
    requires Correct(s) && TableOf(s, tb)
    ensures forall p, q {:trigger Reads(tb, p, q)} :: p in tb.id && q in tb.id && p != q ==> Reads(tb, p, q)
  {
    forall p, q | p in tb.id && q in tb.id && p != q ensures Reads(tb, p, q) {
      TheyRead(s, tb, p, q);
    }
  }

  lemma TheTableOk(s: Setup, tb: Table)
    requires Correct(s) && TableOf(s, tb)
    ensures TableOk(tb)
  {
    AllAct(s, tb);
    AllRead(s, tb);
  }

  lemma AllRowsDone(s: Setup)
    requires Correct(s)
    ensures forall p {:trigger Done(s, p)} :: p in s.parties ==> Done(s, p)
  {
    forall p | p in s.parties ensures Done(s, p) {
      AllDone(s, p);
    }
  }

  lemma BuildDeals(s: Setup) returns (m: map<Name, Deal>)
    requires forall p {:trigger Done(s, p)} :: p in s.parties ==> Done(s, p)
    ensures forall p {:trigger Done(s, p)} :: p in s.parties ==> Done(s, p) && p in m && m[p] == TheDeal(s, p)
  {
    m := map p | p in s.parties && Done(s, p) :: TheDeal(s, p);
  }

  lemma BuildFirsts(s: Setup) returns (m: map<Name, Message>)
    requires forall p {:trigger Done(s, p)} :: p in s.parties ==> Done(s, p)
    ensures forall p {:trigger Done(s, p)} :: p in s.parties ==> Done(s, p) && p in m && m[p] == TheFirst(s, p)
  {
    m := map p | p in s.parties && Done(s, p) :: TheFirst(s, p);
  }

  lemma BuildSeconds(s: Setup) returns (m: map<Name, map<Name, Message>>)
    requires Valid(s)
    ensures forall p {:trigger Done(s, p)} :: p in s.parties ==> p in m && m[p] == SecondsOf(s, p)
  {
    m := map p | p in s.parties :: SecondsOf(s, p);
  }

  lemma BuildOuts(s: Setup) returns (m: map<Name, seq<Message>>)
    requires forall p {:trigger Done(s, p)} :: p in s.parties ==> Done(s, p)
    ensures forall p {:trigger Done(s, p)} :: p in s.parties ==>
      Done(s, p) && p in m && m[p] == Round2Messages(s.sch, Cfg(s, p), Dealt(s, p).packages).0
  {
    m := map p | p in s.parties && Done(s, p) :: Round2Messages(s.sch, Cfg(s, p), Dealt(s, p).packages).0;
  }

  lemma BuildCfgs(s: Setup) returns (m: map<Name, Config>)
    ensures forall p {:trigger Done(s, p)} :: p in s.parties ==> p in m && m[p] == Cfg(s, p)
  {
    m := map p | p in s.parties :: Cfg(s, p);
  }

  lemma BuildTable(s: Setup) returns (tb: Table)
    requires Correct(s)
    ensures TableOf(s, tb)
  {
    AllRowsDone(s);
    var cfgs := BuildCfgs(s);
    var deals := BuildDeals(s);
    var firsts := BuildFirsts(s);
    var seconds := BuildSeconds(s);
    var outs := BuildOuts(s);
    tb := Table(s.sch, IdMap(s), cfgs, deals, firsts, seconds, outs);
    forall p | p in s.parties ensures RowOf(s, tb, p) {
      assert Done(s, p);
    }
  }

  // ---- the start of the run ----

  ghost function Start(s: Setup, p: Name): NewResult
    requires p in s.parties
  {
    New(s.sch, p, s.parties[p].raw, s.minSigners, Some((s.parties[p].secret, s.parties[p].package)))
  }

  ghost predicate AllStart(s: Setup) {
    forall p {:trigger Start(s, p)} :: p in s.parties ==> Start(s, p).Started?
  }

  ghost function StartSessions(s: Setup): map<Name, State>
    requires AllStart(s)
  {
    map p | p in s.parties :: Drained(Start(s, p).state)
  }

  ghost function Pairs(s: Setup): set<Pair> {
    set p, q | p in s.parties && q in s.parties :: (p, q)
  }

  ghost function StartChans(s: Setup): map<Pair, seq<Message>>
    requires AllStart(s)
  {
    map e | e in Pairs(s) :: SentTo(Start(s, e.0).state.outputs, e.1)
  }

  /** Every party has started and its round-1 package is in its channels. */
  ghost function Init(s: Setup): Net
    requires AllStart(s)
  {
    Net(StartSessions(s), StartChans(s), map e | e in Pairs(s) :: 0, {})
  }

  ghost function FreshState(cfg: Config, secret: Secret1, first: Message): State {
    State(cfg, Some(secret), map[], None, map[], [first], None, None, 0)
  }

  lemma NewStarts(sch: Scheme, p: Name, raw: seq<Name>, minSigners: nat, secret: Secret1, package: Package1, id: nat)
    requires p in NormalizeParticipants(raw) && IdentifierFor(NormalizeParticipants(raw), p) == Some(id)
    requires sch.print1(package).Some?
    ensures New(sch, p, raw, minSigners, Some((secret, package))) ==
      Started(FreshState(Config(p, NormalizeParticipants(raw), id, minSigners), secret,
        Message(Round1, p, Others(NormalizeParticipants(raw), p), sch.encodePayload(sch.print1(package).value))))
  {
  }

  lemma StartsFresh(s: Setup, p: Name)
    requires Correct(s) && p in s.parties
    ensures Finishes(s, p)
    ensures Start(s, p) == Started(FreshState(Cfg(s, p), s.parties[p].secret, TheFirst(s, p)))
  {
    assert Finishes(s, p) && Member(s, p);
    IdFacts(s, p);
    NormalizeIsCanonical(s.parties[p].raw);
    assert p in Elems(NormalizeParticipants(s.parties[p].raw));
    NewStarts(s.sch, p, s.parties[p].raw, s.minSigners, s.parties[p].secret, s.parties[p].package, Id(s, p));
  }

  lemma AllStarted(s: Setup)
    requires Correct(s)
    ensures AllStart(s)
  {
    forall p | p in s.parties ensures Start(s, p).Started? {
      StartsFresh(s, p);
    }
  }

  lemma FreshPartyInv(sch: Scheme, d: Deal, cfg: Config, first: Message)
    requires Deals(sch, cfg, d)
    ensures PartyInv(d, Drained(FreshState(cfg, d.secret1, first)))
  {
    assert d.peers1 != map[] && d.peers2 != map[];
  }

  lemma InitSession(s: Setup, tb: Table, p: Name)
    requires Correct(s) && TableOf(s, tb) && p in s.parties && Start(s, p).Started?
    ensures SessionOk(tb, p, Drained(Start(s, p).state)) && Start(s, p).state.secret2.None?
  {
    assert RowOf(s, tb, p);
    StartsFresh(s, p);
    TheDealOk(s, p);
    FreshPartyInv(s.sch, TheDeal(s, p), Cfg(s, p), TheFirst(s, p));
  }

  lemma {:induction false} CopiesOnce(m: Message, to: seq<Name>, q: Name)
    requires Distinct(to)
    ensures Copies(m, to, q) == if q in to then [m] else []
  {
    if to != [] {
      CopiesOnce(m, to[1..], q);
      assert to == [to[0]] + to[1..];
    }
  }

  lemma {:induction false} OthersDistinct(ps: seq<Name>, p: Name)
    requires Distinct(ps)
    ensures Distinct(Others(ps, p))
  {
    if ps != [] {
      OthersDistinct(ps[1..], p);
      assert ps == [ps[0]] + ps[1..];
      assert ps[0] !in Others(ps[1..], p);
    }
  }

  lemma SendsOnce(m: Message, ps: seq<Name>, p: Name, q: Name)
    requires Distinct(ps) && m.to == Others(ps, p) && q in ps
    ensures SentTo([m], q) == if q == p then [] else [m]
  {
    OthersDistinct(ps, p);
    CopiesOnce(m, m.to, q);
    SentToCons(m, [], q);
    assert [m] + [] == [m];
  }

  lemma MemberList(s: Setup, p: Name, q: Name)
    requires Valid(s) && p in s.parties && q in s.parties
    ensures Distinct(Cfg(s, p).participants) && q in Cfg(s, p).participants
  {
    IdFacts(s, p);
    NormalizeIsCanonical(s.names);
    assert q in Elems(Members(s));
  }

  lemma InitChan(s: Setup, tb: Table, n: Net, p: Name, q: Name)
    requires Correct(s) && RowOf(s, tb, p) && p in s.parties && q in s.parties
    requires Start(s, p).Started? && p in n.sessions && n.sessions[p] == Drained(Start(s, p).state) && q in n.sessions
    requires (p, q) in n.chan && n.chan[(p, q)] == SentTo(Start(s, p).state.outputs, q) && (p, q) in n.got && n.got[(p, q)] == 0
    ensures ChanOk(tb, n, p, q)
  {
    StartsFresh(s, p);
    MemberList(s, p, q);
    SendsOnce(TheFirst(s, p), Cfg(s, p).participants, p, q);
    SecondIn(s, p, q);
    CollectChan(tb, n, p, q);
  }

  lemma SecondIn(s: Setup, p: Name, q: Name)
    requires Correct(s) && p in s.parties && q in s.parties
    ensures p != q ==> q in SecondsOf(s, p)
  {
    TheRound2(s, p, q);
  }

  lemma CollectChan(tb: Table, n: Net, p: Name, q: Name)
    requires p in n.sessions && q in n.sessions && n.sessions[p].secret2.None?
    requires p in tb.id && p in tb.first && p in tb.second && (p != q ==> q in tb.second[p])
    requires (p, q) in n.chan && n.chan[(p, q)] == (if q == p then [] else [tb.first[p]]) && (p, q) in n.got && n.got[(p, q)] == 0
    ensures ChanOk(tb, n, p, q)
  {
  }

  lemma InitTables(s: Setup, n: Net, p: Name, q: Name)
    requires AllStart(s) && n == Init(s) && p in s.parties && q in s.parties
    ensures p in n.sessions && n.sessions[p] == Drained(Start(s, p).state)
    ensures (p, q) in n.chan && n.chan[(p, q)] == SentTo(Start(s, p).state.outputs, q)
    ensures (p, q) in n.got && n.got[(p, q)] == 0
  {
    assert (p, q) in Pairs(s);
  }

  lemma InitSessions(s: Setup, tb: Table, n: Net)
    requires Correct(s) && TableOf(s, tb) && AllStart(s) && n == Init(s)
    ensures n.sessions.Keys == tb.id.Keys
    ensures forall p {:trigger SessionOk(tb, p, n.sessions[p])} :: p in tb.id ==> SessionOk(tb, p, n.sessions[p])
  {
    forall p | p in tb.id ensures SessionOk(tb, p, n.sessions[p]) {
      InitSession(s, tb, p);
      InitTables(s, n, p, p);
    }
  }

  lemma InitChans(s: Setup, tb: Table, n: Net)
    requires Correct(s) && TableOf(s, tb) && AllStart(s) && n == Init(s)
    ensures forall p, q {:trigger ChanOk(tb, n, p, q)} :: p in tb.id && q in tb.id ==> ChanOk(tb, n, p, q)
    ensures forall e :: e in n.chan ==> e.0 in tb.id && e.1 in tb.id
  {
    forall p, q | p in tb.id && q in tb.id ensures ChanOk(tb, n, p, q) {
      InitTables(s, n, p, q);
      InitTables(s, n, q, q);
      assert RowOf(s, tb, p);
      InitChan(s, tb, n, p, q);
    }
  }

  lemma InitInv(s: Setup) returns (tb: Table)
    requires Correct(s)
    ensures TableOf(s, tb) && AllStart(s) && Inv(tb, Init(s))
  {
    tb := BuildTable(s);
    AllStarted(s);
    TheTableOk(s, tb);
    InitSessions(s, tb, Init(s));
    InitChans(s, tb, Init(s));
  }

  // ---- the theorems ----

  /** The group key that the parties must agree on. */
  ghost function GroupKey(s: Setup): string
    requires Correct(s)
  {
    s.sch.printGroupKey(s.groupOf(AllPackages(s))).value
  }

  /** A stored share with the common member list and group key. */
  ghost predicate Agrees(s: Setup, p: Name, share: StoredShare)
    requires Correct(s)
  {
    && share.participant == p && share.participants == Members(s) && share.participantIndex == Id(s, p)
    && share.minSigners == s.minSigners && share.publicKey == GroupKey(s)
  }

  lemma ShareAgrees(s: Setup, tb: Table, p: Name)
    requires Correct(s) && RowOf(s, tb, p) && p in s.parties
    ensures Agrees(s, p, tb.deals[p].share)
  {
    IdFacts(s, p);
  }

  /** No party has failed; `part2` ran at most once per party; a finished party
      agrees with everyone; and if nothing is undelivered, every party has
      finished after exactly one `part2`. */
  ghost predicate Agreed(s: Setup, n: Net)
    requires Correct(s)
  {
    && n.failed == {} && n.sessions.Keys == s.parties.Keys
    && (forall p :: p in s.parties ==> n.sessions[p].part2Runs <= 1)
    && (forall p :: p in s.parties && n.sessions[p].result.Some? ==> Agrees(s, p, n.sessions[p].result.value))
    && (Quiescent(n) ==>
          forall p :: p in s.parties ==> n.sessions[p].result.Some? && n.sessions[p].part2Runs == 1)
  }

  lemma RunsAt(tb: Table, n: Net, p: Name)
    requires Inv(tb, n) && p in tb.id
    ensures p in n.sessions && p in tb.deals && n.sessions[p].part2Runs <= 1
    ensures n.sessions[p].result.Some? ==> n.sessions[p].result.value == tb.deals[p].share
  {
    assert SessionOk(tb, p, n.sessions[p]);
  }

  lemma AgreedAt(s: Setup, tb: Table, n: Net, p: Name)
    requires Correct(s) && TableOf(s, tb) && Inv(tb, n) && p in s.parties
    ensures p in n.sessions && n.sessions[p].part2Runs <= 1
    ensures n.sessions[p].result.Some? ==> Agrees(s, p, n.sessions[p].result.value)
  {
    assert p in tb.id;
    RunsAt(tb, n, p);
    assert RowOf(s, tb, p);
    ShareAgrees(s, tb, p);
  }

  lemma AgreementOf(s: Setup, tb: Table, n: Net)
    requires Correct(s) && TableOf(s, tb) && Inv(tb, n)
    ensures Agreed(s, n)
  {
    forall p | p in s.parties
      ensures n.sessions[p].part2Runs <= 1
      ensures n.sessions[p].result.Some? ==> Agrees(s, p, n.sessions[p].result.value)
      ensures Quiescent(n) ==> n.sessions[p].result.Some? && n.sessions[p].part2Runs == 1
    {
      AgreedAt(s, tb, n, p);
      if Quiescent(n) {
        QuiescentFinished(tb, n, p);
      }
    }
  }

  /** Agreement. In every honest key generation of at least two parties with
      per-sender FIFO delivery, whatever is delivered again: no party reaches an
      error, `part2` runs at most once per party, finished parties hold shares with
      the same members and group key, and once no message is undelivered every
      party has finished. */
  lemma KeygenAgreement(s: Setup, schedule: seq<Delivery>)
    requires Correct(s)
    ensures AllStart(s) && Agreed(s, Run(s.sch, Init(s), schedule))
  {
    var tb := ReachableInv(s, schedule);
    AgreementOf(s, tb, Run(s.sch, Init(s), schedule));
  }

  lemma ReachableInv(s: Setup, schedule: seq<Delivery>) returns (tb: Table)
    requires Correct(s)
    ensures AllStart(s) && TableOf(s, tb) && tb.sch == s.sch && Inv(tb, Run(s.sch, Init(s), schedule))
  {
    tb := InitInv(s);
    SameScheme(s, tb);
    RunKeepsInv(tb, Init(s), schedule);
  }

  lemma SameScheme(s: Setup, tb: Table)
    requires Correct(s) && TableOf(s, tb)
    ensures tb.sch == s.sch
  {
    assert |s.parties.Keys| == |s.parties|;
    var p :| p in s.parties.Keys;
    assert RowOf(s, tb, p);
  }

  /** The arrivals still to come, at two messages per ordered pair. */
  ghost function Missing(n: Net): set<(Pair, nat)> {
    (set e | e in n.chan && e in n.got && n.got[e] <= 0 :: (e, 0)) + (set e | e in n.chan && e in n.got && n.got[e] <= 1 :: (e, 1))
  }

  /** One arrival less is missing once the next message of a pair has been received. */
  lemma MissingShrinks(n: Net, n': Net, e: Pair)
    requires e in n.chan && e in n.got && n.got[e] <= 1
    requires n'.got == n.got[e := n.got[e] + 1] && n'.chan.Keys == n.chan.Keys
    ensures |Missing(n')| < |Missing(n)|
  {
    assert Missing(n') == Missing(n) - {(e, n.got[e])};
    assert (e, n.got[e]) in Missing(n);
    SmallerCount(Missing(n'), Missing(n));
  }

  lemma ShortChannel(tb: Table, n: Net, e: Pair)
    requires Inv(tb, n) && e in n.chan
    ensures e in n.got && |n.chan[e]| <= 2
  {
    assert ChanOk(tb, n, e.0, e.1) && e == (e.0, e.1);
  }

  lemma DeliveryProgress(tb: Table, n: Net, e: Pair)
    requires Inv(tb, n) && e in n.chan && e in n.got && n.got[e] < |n.chan[e]|
    ensures var x := Delivery(e.0, e.1, n.got[e]);
      Inv(tb, Deliver(tb.sch, n, x)) && |Missing(Deliver(tb.sch, n, x))| < |Missing(n)|
  {
    var x := Delivery(e.0, e.1, n.got[e]);
    ShortChannel(tb, n, e);
    assert ChanOk(tb, n, e.0, e.1) && e == (e.0, e.1);
    DeliverKeepsInv(tb, n, x);
    DeliveredNext(tb.sch, n, x);
    MissingShrinks(n, Deliver(tb.sch, n, x), e);
  }

  lemma DeliveredNext(sch: Scheme, n: Net, x: Delivery)
    requires Enabled(n, x) && x.index == n.got[(x.from, x.to)]
    ensures Deliver(sch, n, x).got == n.got[(x.from, x.to) := x.index + 1]
    ensures Deliver(sch, n, x).chan.Keys == n.chan.Keys
  {
  }

  lemma {:induction false} CanFinish(tb: Table, n: Net) returns (schedule: seq<Delivery>)
    requires Inv(tb, n)
    ensures Quiescent(Run(tb.sch, n, schedule))
    decreases |Missing(n)|
  {
    if Quiescent(n) {
      schedule := [];
    } else {
      var e :| e in n.chan && !(e in n.got && n.got[e] == |n.chan[e]|);
      assert ChanOk(tb, n, e.0, e.1) && e == (e.0, e.1);
      DeliveryProgress(tb, n, e);
      var x := Delivery(e.0, e.1, n.got[e]);
      var rest := CanFinish(tb, Deliver(tb.sch, n, x));
      schedule := [x] + rest;
      assert schedule[1..] == rest;
      RunFirst(tb.sch, n, schedule);
    }
  }

  lemma RunFirst(sch: Scheme, n: Net, schedule: seq<Delivery>)
    requires schedule != []
    ensures Run(sch, n, schedule) == Run(sch, Deliver(sch, n, schedule[0]), schedule[1..])
  {
  }

  lemma {:induction false} RunConcat(sch: Scheme, n: Net, a: seq<Delivery>, b: seq<Delivery>)
    ensures Run(sch, n, a + b) == Run(sch, Run(sch, n, a), b)
    decreases |a|
  {
    if a == [] {
      assert a + b == b;
    } else {
      assert (a + b)[1..] == a[1..] + b;
      RunConcat(sch, Deliver(sch, n, a[0]), a[1..], b);
    }
  }

  /** No deadlock. Whatever was delivered so far, finitely many further deliveries
      bring every party to a share with the common members and group key. */
  lemma NoDeadlock(s: Setup, schedule: seq<Delivery>) returns (rest: seq<Delivery>)
    requires Correct(s)
    ensures AllStart(s)
    ensures var n := Run(s.sch, Init(s), schedule + rest);
      && n.sessions.Keys == s.parties.Keys
      && forall p :: p in s.parties ==> n.sessions[p].result.Some? && Agrees(s, p, n.sessions[p].result.value)
  {
    var tb := ReachableInv(s, schedule);
    rest := CanFinish(tb, Run(s.sch, Init(s), schedule));
    RunConcat(s.sch, Init(s), schedule, rest);
    KeygenAgreement(s, schedule + rest);
  }

  // ---- a reordered channel ----

  /** With two parties, the one peer of `p` is `q`. */
  lemma OnlyPeer(tb: Table, p: Name, q: Name)
    requires Acts(tb, p) && Reads(tb, p, q) && tb.id.Keys == {p, q} && p != q
    ensures tb.deals[p].peers1.Keys == {tb.id[q]}
  {
    forall k | k in tb.deals[p].peers1 ensures k == tb.id[q] {
      var x :| x in tb.id && x != p && tb.id[x] == k;
      assert x in tb.id.Keys;
    }
  }

  /** A party that holds the package of its one peer has dealt. */
  lemma HasDealt(tb: Table, p: Name, q: Name, st: State)
    requires Acts(tb, p) && Reads(tb, p, q) && tb.id.Keys == {p, q} && p != q
    requires SessionOk(tb, p, st) && tb.id[q] in st.packages1
    ensures st.secret2.Some?
  {
    OnlyPeer(tb, p, q);
    SubEqual(st.packages1, tb.deals[p].peers1);
  }

  /** A party without round-1 packages refuses the round-2 package of its one peer. */
  lemma EarlySecondFails(tb: Table, p: Name, q: Name, st: State)
    requires Acts(tb, q) && Reads(tb, q, p) && tb.id.Keys == {q, p} && p != q
    requires SessionOk(tb, q, st) && st.packages1 == map[]
    ensures q in tb.second[p] && Handle(tb.sch, st, tb.second[p][q]).1 == Err(MissingRound2Secret)
  {
    OnlyPeer(tb, q, p);
    var d := tb.deals[q];
    assert tb.id[p] in d.peers1 && tb.id[p] !in st.packages1;
    HonestRound2(tb.sch, d, st, tb.id[p], tb.second[p][q]);
    assert st.packages2.Keys <= d.peers2.Keys;
    assert st.packages2.Keys + {tb.id[p]} == d.peers2.Keys;
  }

  lemma DeliverFacts(sch: Scheme, n: Net, x: Delivery)
    requires Enabled(n, x)
    ensures var n' := Deliver(sch, n, x);
      && n'.sessions.Keys == n.sessions.Keys && (forall y :: y in n.sessions && y != x.to ==> n'.sessions[y] == n.sessions[y])
      && (x.from, x.to) in n'.got && n'.got[(x.from, x.to)] >= x.index + 1
  {
  }

  lemma ChannelAt(tb: Table, n: Net, p: Name, q: Name)
    requires Inv(tb, n) && p in tb.id && q in tb.id && p != q
    ensures ChanHolds(tb, n, p, q) && ChanKept(tb, n, p, q) && |n.chan[(p, q)]| >= 1
  {
    assert ChanOk(tb, n, p, q);
  }

  lemma PartyAt(tb: Table, n: Net, p: Name, q: Name)
    requires Inv(tb, n) && p in tb.id && q in tb.id
    ensures p in n.sessions && SessionOk(tb, p, n.sessions[p]) && Acts(tb, p)
    ensures p != q ==> Reads(tb, p, q)
  {
    assert SessionOk(tb, p, n.sessions[p]);
  }

  lemma FirstArrives(tb: Table, n0: Net, p: Name, q: Name) returns (n: Net)
    requires Inv(tb, n0) && p in tb.id && q in tb.id && p != q
    ensures n == Deliver(tb.sch, n0, Delivery(q, p, 0)) && Inv(tb, n)
    ensures n.sessions.Keys == n0.sessions.Keys && q in n0.sessions && n.sessions[q] == n0.sessions[q]
    ensures (q, p) in n.got && n.got[(q, p)] >= 1
  {
    var x := Delivery(q, p, 0);
    ChannelAt(tb, n0, q, p);
    DeliverKeepsInv(tb, n0, x);
    DeliverFacts(tb.sch, n0, x);
    n := Deliver(tb.sch, n0, x);
  }

  /** Once `q`'s package has reached `p`, both messages of `p` are on their way. */
  lemma BothOnTheWay(tb: Table, n: Net, p: Name, q: Name)
    requires Inv(tb, n) && tb.id.Keys == {p, q} && p != q && (q, p) in n.got && n.got[(q, p)] >= 1
    ensures p in tb.second && q in tb.second[p] && (p, q) in n.chan && p in tb.first
    ensures n.chan[(p, q)] == [tb.first[p], tb.second[p][q]]
  {
    assert p in tb.id && q in tb.id;
    ChannelAt(tb, n, q, p);
    ChannelAt(tb, n, p, q);
    PartyAt(tb, n, p, q);
    HasDealt(tb, p, q, n.sessions[p]);
  }

  lemma StartsEmpty(s: Setup, q: Name)
    requires Correct(s) && AllStart(s) && q in s.parties
    ensures q in Init(s).sessions && Init(s).sessions[q].packages1 == map[]
  {
    StartsFresh(s, q);
  }

  /** Two honest parties, and `p` has dealt before its first message reaches `q`: taking the second
      message of that channel before the first makes `q` fail. */
  lemma ReorderedChannelFails(s: Setup, p: Name, q: Name) returns (n: Net)
    requires Correct(s) && s.parties.Keys == {p, q} && p != q
    ensures AllStart(s) && n == Run(s.sch, Init(s), [Delivery(q, p, 0)])
    ensures (p, q) in n.chan && |n.chan[(p, q)]| == 2 && q in n.sessions
    ensures Handle(s.sch, n.sessions[q], n.chan[(p, q)][1]).1 == Err(MissingRound2Secret)
  {
    var tb := InitInv(s);
    SameScheme(s, tb);
    StartsEmpty(s, q);
    assert tb.id.Keys == {p, q};
    n := FirstArrives(tb, Init(s), p, q);
    RunFirst(s.sch, Init(s), [Delivery(q, p, 0)]);
    RefusedAt(tb, n, p, q);
  }

  lemma RefusedAt(tb: Table, n: Net, p: Name, q: Name)
    requires Inv(tb, n) && tb.id.Keys == {p, q} && p != q && (q, p) in n.got && n.got[(q, p)] >= 1
    requires q in n.sessions && n.sessions[q].packages1 == map[]
    ensures (p, q) in n.chan && |n.chan[(p, q)]| == 2
    ensures Handle(tb.sch, n.sessions[q], n.chan[(p, q)][1]).1 == Err(MissingRound2Secret)
  {
    BothOnTheWay(tb, n, p, q);
    assert p in tb.id && q in tb.id;
    PartyAt(tb, n, q, p);
    EarlySecondFails(tb, p, q, n.sessions[q]);
  }
}
