/** One honest party of a signing run, seen alone: what it holds at any moment is
    part of one fixed transcript. */
module HonestSigner {
  import opened Names
  import opened Bytes
  import opened SignSession

  /** Everyone's commitments and shares, by identifier, and the signature they give. */
  datatype Transcript = Transcript(commitments: map<nat, Commitments>, shares: map<nat, Share>, signature: Bytes)

  /** The honest shares aggregate, under this party's configuration, to the signature. */
  ghost predicate Aggregates(sch: Scheme, cfg: Config, t: Transcript) {
    && |t.commitments| == |t.shares| == |cfg.participants|
    && var agg := sch.aggregate(SigningPackage(t.commitments, cfg.message), t.shares, cfg.publicKeyPackage, cfg.taproot);
    && agg.Aggregated?
    && (!cfg.taproot ==> sch.verify(cfg.publicKeyPackage, cfg.message, agg.signature))
    && sch.printSignature(agg.signature) == Some(t.signature)
    && |t.signature| == 64
  }

  /** The party `id` produces its share of the transcript from these nonces. */
  ghost predicate SignsAs(sch: Scheme, cfg: Config, t: Transcript, id: nat, nonces: Nonces) {
    && IdentifierFor(cfg.shareParticipants, cfg.local) == Some(id)
    && id in t.shares
    && sch.sign(SigningPackage(t.commitments, cfg.message), nonces, cfg.keyPackage, cfg.taproot) == Some(t.shares[id])
  }

  ghost predicate PartyInv(t: Transcript, id: nat, nonces: Nonces, st: State) {
    && st.outputs == [] && st.aborted.None?
    && Sub(st.commitments, t.commitments) && id in st.commitments
    && Sub(st.signatureShares, t.shares) && Sub(st.pendingShares, t.shares)
    && (st.nonces == if st.commitments == t.commitments then None else Some(nonces))
    && (st.nonces.Some? ==> st.signatureShares == map[])
    && (st.nonces.None? ==> id in st.signatureShares && st.pendingShares == map[])
    && (st.result == if st.nonces.None? && st.signatureShares == t.shares then Some(t.signature) else None)
  }

  function Round2(sch: Scheme, cfg: Config, share: Share): ProtocolMessage {
    ProtocolMessage(SignRound2, cfg.local, Others(cfg.participants, cfg.local), sch.encodePayload(sch.printShare(share)))
  }

  /** Aggregation succeeds as soon as the last share is in, and does nothing before. */
  lemma HonestAggregate(sch: Scheme, t: Transcript, st: State)
    requires Aggregates(sch, st.cfg, t)
    requires st.commitments == t.commitments && Sub(st.signatureShares, t.shares)
    ensures MaybeAggregate(sch, st) ==
      (if st.signatureShares == t.shares then (st.(result := Some(t.signature)), None) else (st, None))
  {
    SubFull(st.signatureShares, t.shares);
  }

  lemma HonestSign(sch: Scheme, t: Transcript, id: nat, nonces: Nonces, st: State)
    requires Aggregates(sch, st.cfg, t) && SignsAs(sch, st.cfg, t, id, nonces)
    requires st.commitments == t.commitments && st.nonces == Some(nonces) && id in st.commitments
    requires st.outputs == [] && st.aborted.None? && st.signatureShares == map[] && Sub(st.pendingShares, t.shares)
    requires st.result.None?
    ensures var (st', err) := MaybeSign(sch, st);
      && err.None? && st'.cfg == st.cfg && st'.nonces.None? && st'.outputs == [Round2(sch, st.cfg, t.shares[id])]
      && st'.commitments == st.commitments
      && st'.signatureShares == st.pendingShares[id := t.shares[id]]
      && PartyInv(t, id, nonces, Drained(st'))
  {
    var all := st.signatureShares[id := t.shares[id]] + st.pendingShares;
    assert all == st.pendingShares[id := t.shares[id]];
    var package := SigningPackage(st.commitments, st.cfg.message);
    var next := st.(nonces := None, signed := st.signed + [package], signatureShares := all,
                    pendingShares := map[], outputs := st.outputs + [Round2(sch, st.cfg, t.shares[id])]);
    HonestAggregate(sch, t, next);
    assert MaybeSign(sch, st) == MaybeAggregate(sch, next);
  }

  /** Handing an honest commitment to an honest party. */
  lemma HonestRound1(sch: Scheme, t: Transcript, id: nat, nonces: Nonces, st: State, from: nat, msg: ProtocolMessage)
    requires Aggregates(sch, st.cfg, t) && SignsAs(sch, st.cfg, t, id, nonces) && PartyInv(t, id, nonces, st)
    requires msg.kind == SignRound1 && IdentifierFor(st.cfg.shareParticipants, msg.from) == Some(from)
    requires from in t.commitments && sch.decodePayload(msg.payload).Some?
    requires sch.parseCommitments(sch.decodePayload(msg.payload).value) == Some(t.commitments[from])
    ensures var (st', r) := Handle(sch, st, msg);
      && r.Fine? && st'.cfg == st.cfg && PartyInv(t, id, nonces, Drained(st'))
      && from in st'.commitments && st.commitments.Keys <= st'.commitments.Keys
      && st.signatureShares.Keys + st.pendingShares.Keys <= st'.signatureShares.Keys + st'.pendingShares.Keys
      && st'.outputs == (if st'.nonces.None? && st.nonces.Some? then [Round2(sch, st.cfg, t.shares[id])] else [])
      && (st.nonces.None? ==> st'.nonces.None?)
  {
    if st.result.None? {
      var c := st.commitments[from := t.commitments[from]];
      var mid := st.(commitments := c);
      SubFull(c, t.commitments);
      assert Handle(sch, st, msg) == Settle(MaybeSign(sch, mid));
      if st.nonces.None? {
        assert c == st.commitments;
        assert mid == st;
      } else if c == t.commitments {
        HonestSign(sch, t, id, nonces, mid);
      }
    }
  }

  /** Handing an honest share to an honest party, early or in time. */
  lemma HonestRound2(sch: Scheme, t: Transcript, id: nat, nonces: Nonces, st: State, from: nat, msg: ProtocolMessage)
    requires Aggregates(sch, st.cfg, t) && PartyInv(t, id, nonces, st)
    requires msg.kind == SignRound2 && IdentifierFor(st.cfg.shareParticipants, msg.from) == Some(from)
    requires from in t.shares && sch.decodePayload(msg.payload).Some?
    requires sch.parseShare(sch.decodePayload(msg.payload).value) == Some(t.shares[from])
    ensures var (st', r) := Handle(sch, st, msg);
      && r.Fine? && st'.cfg == st.cfg && PartyInv(t, id, nonces, Drained(st')) && st'.outputs == []
      && st'.commitments == st.commitments && st'.nonces == st.nonces
      && from in st'.signatureShares.Keys + st'.pendingShares.Keys
      && st.signatureShares.Keys + st.pendingShares.Keys <= st'.signatureShares.Keys + st'.pendingShares.Keys
  {
    if st.result.None? {
      SubFull(st.commitments, t.commitments);
      if st.commitments == t.commitments {
        var mid := st.(signatureShares := st.signatureShares[from := t.shares[from]]);
        HonestAggregate(sch, t, mid);
        assert Handle(sch, st, msg) == Settle(MaybeAggregate(sch, mid));
      } else {
        var mid := st.(pendingShares := st.pendingShares[from := t.shares[from]]);
        assert Handle(sch, st, msg) == Settle((mid, None));
      }
    }
  }
}

/** Two-round signing between honest parties over an unordered, duplicating
    network (`run_keysign_multi` and `flush` in
    crates/thornado-bifrost-signer/src/transport.rs driving `SignSession`). */
module SignProtocol {
  import opened Names
  import opened Bytes
  import opened SignSession
  import opened HonestSigner

  /** One party's inputs: the selected list as it was given, its stored key, the key it
      signs with, and what its random generator produced. */
  datatype Input = Input(raw: seq<Name>, stored: KeyPackage, key: KeyPackage, nonces: Nonces, commits: Commitments)

  /** One signing run: who holds the key, the selected parties with their inputs, the child
      tweak if the run signs for a child path, the stored group package and the one signed under. */
  datatype Setup = Setup(
    sch: Scheme,
    holders: seq<Name>,
    parties: map<Name, Input>,
    message: Bytes,
    taproot: bool,
    tweak: Option<Bytes>,
    storedGroup: PublicKeyPackage,
    group: PublicKeyPackage)

  /** The packages a session signs with: the stored ones, shifted if there is a tweak. */
  ghost function Shifted(sch: Scheme, key: KeyPackage, group: PublicKeyPackage, tweak: Option<Bytes>)
    : Option<(KeyPackage, PublicKeyPackage)>
  {
    match tweak
    case None => Some((key, group))
    case Some(t) => sch.childTweak(key, group, t)
  }

  /** Party `p`'s stored packages become its signing key and the group package of the run. */
  ghost predicate Keyed(s: Setup, p: Name)
    requires p in s.parties
  {
    Shifted(s.sch, s.parties[p].stored, s.storedGroup, s.tweak) == Some((s.parties[p].key, s.group))
  }

  ghost predicate Member(s: Setup, p: Name) {
    p in s.parties && p in s.holders && Elems(s.parties[p].raw) == s.parties.Keys
  }

  /** Well-formed run: at least two selected holders, the holders within the
      identifier range, and every party given the same set of names. */
  ghost predicate Valid(s: Setup) {
    && |NormalizeParticipants(s.holders)| < U16
    && |s.parties| >= 2
    && forall p {:trigger Member(s, p)} :: p in s.parties ==> Member(s, p)
  }

  /** A party's identifier: its 1-based position among all key holders. */
  ghost function Id(s: Setup, p: Name): nat {
    match IdentifierFor(NormalizeParticipants(s.holders), p)
    case Some(i) => i
    case None => 0
  }

  lemma IdFacts(s: Setup, p: Name)
    requires Valid(s) && p in s.parties
    ensures IdentifierFor(NormalizeParticipants(s.holders), p) == Some(Id(s, p))
  {
    assert Member(s, p);
    NormalizeIsCanonical(s.holders);
    assert p in Elems(NormalizeParticipants(s.holders));
    IdentifierRoundTrip(NormalizeParticipants(s.holders), p);
  }

  ghost function IdMap(s: Setup): (id: map<Name, nat>)
    ensures id.Keys == s.parties.Keys && forall p :: p in id ==> id[p] == Id(s, p)
  {
    map p | p in s.parties :: Id(s, p)
  }

  lemma IdMapInjective(s: Setup)
    requires Valid(s)
    ensures Injective(IdMap(s))
  {
    NormalizeIsCanonical(s.holders);
    var ps := NormalizeParticipants(s.holders);
    forall p, q | p in s.parties && q in s.parties && Id(s, p) == Id(s, q) ensures p == q {
      assert Member(s, p) && Member(s, q);
      assert p in Elems(ps) && q in Elems(ps);
      IdFacts(s, p);
      IdFacts(s, q);
      IdentifierInjective(ps, p, q);
    }
  }

  ghost function Cfg(s: Setup, p: Name): Config
    requires p in s.parties
  {
    Config(p, NormalizeParticipants(s.parties[p].raw), NormalizeParticipants(s.holders), s.parties[p].key,
           s.group, s.message, s.taproot)
  }

  // ---- what an honest run exchanges ----

  ghost function Commits(s: Setup): (m: map<Name, Commitments>)
    ensures m.Keys == s.parties.Keys && forall p :: p in m ==> m[p] == s.parties[p].commits
  {
    map p | p in s.parties :: s.parties[p].commits
  }

  ghost function AllCommitments(s: Setup): map<nat, Commitments>
    requires Valid(s)
  {
    IdMapInjective(s);
    ById(IdMap(s), Commits(s))
  }

  ghost function Signed(s: Setup, p: Name): Option<Share>
    requires Valid(s) && p in s.parties
  {
    s.sch.sign(SigningPackage(AllCommitments(s), s.message), s.parties[p].nonces, s.parties[p].key, s.taproot)
  }

  ghost predicate EveryoneSigns(s: Setup) {
    Valid(s) && forall p {:trigger Signed(s, p)} :: p in s.parties ==> Signed(s, p).Some?
  }

  ghost function SignedShares(s: Setup): (m: map<Name, Share>)
    requires EveryoneSigns(s)
    ensures m.Keys == s.parties.Keys && forall p :: p in m ==> Some(m[p]) == Signed(s, p)
  {
    map p | p in s.parties :: Signed(s, p).value
  }

  ghost function AllShares(s: Setup): map<nat, Share>
    requires EveryoneSigns(s)
  {
    IdMapInjective(s);
    ById(IdMap(s), SignedShares(s))
  }

  ghost function Aggregate(s: Setup): Aggregation
    requires EveryoneSigns(s)
  {
    s.sch.aggregate(SigningPackage(AllCommitments(s), s.message), AllShares(s), s.group, s.taproot)
  }

  /** The codecs round-trip on what party `p` prints. */
  ghost predicate Prints(s: Setup, p: Name)
    requires EveryoneSigns(s) && p in s.parties
  {
    && s.sch.printCommitments(s.parties[p].commits).Some?
    && s.sch.parseCommitments(s.sch.printCommitments(s.parties[p].commits).value) == Some(s.parties[p].commits)
    && s.sch.parseShare(s.sch.printShare(Signed(s, p).value)) == Signed(s, p)
  }

  /** The frost crate is correct on this run: a tweak shifts every stored share and leaves
      all parties with one group package, the codecs round-trip, an honest party's share is
      produced, and the honest shares aggregate to a signature that verifies and prints as
      64 bytes. */
  ghost predicate Correct(s: Setup) {
    && EveryoneSigns(s)
    && (forall p {:trigger Keyed(s, p)} :: p in s.parties ==> Keyed(s, p))
    && (forall b :: s.sch.decodePayload(s.sch.encodePayload(b)) == Some(b))
    && (forall p {:trigger Prints(s, p)} :: p in s.parties ==> Prints(s, p))
    && Aggregate(s).Aggregated?
    && (!s.taproot ==> s.sch.verify(s.group, s.message, Aggregate(s).signature))
    && s.sch.printSignature(Aggregate(s).signature).Some?
    && |s.sch.printSignature(Aggregate(s).signature).value| == 64
  }

  /** The one signature of the run: the aggregate over everyone's commitments and shares. */
  ghost function TheSignature(s: Setup): Bytes
    requires Correct(s)
  {
    s.sch.printSignature(Aggregate(s).signature).value
  }

  // ---- the network ----

  datatype Envelope = Envelope(to: Name, msg: ProtocolMessage)

  /** `sent` is everything ever put on the wire, `delivered` what has arrived at
      least once; `failed` collects the parties whose `handle` returned an error. */
  datatype Net = Net(sessions: map<Name, State>, sent: set<Envelope>, delivered: set<Envelope>, failed: set<Name>)

  /** `flush`: one envelope per recipient of every queued message. */
  function Flush(ms: seq<ProtocolMessage>): (es: set<Envelope>)
    ensures forall e :: e in es <==> e.msg in ms && e.to in e.msg.to
  {
    set m, to | m in ms && to in m.to :: Envelope(to, m)
  }

  ghost function Start(s: Setup, p: Name): NewResult
    requires p in s.parties
  {
    var input := s.parties[p];
    New(s.sch, StoredShare(s.holders, Loaded(input.stored), Loaded(s.storedGroup)), p, input.raw, s.message,
        s.taproot, s.tweak, input.nonces, input.commits)
  }

  ghost predicate AllStart(s: Setup) {
    forall p {:trigger Start(s, p)} :: p in s.parties ==> Start(s, p).Started?
  }

  ghost function StartSessions(s: Setup): (m: map<Name, State>)
    requires AllStart(s)
    ensures m.Keys == s.parties.Keys && forall p :: p in m ==> m[p] == Drained(Start(s, p).state)
  {
    map p | p in s.parties :: Drained(Start(s, p).state)
  }

  ghost function StartSent(s: Setup): set<Envelope>
    requires AllStart(s)
  {
    set p, e | p in s.parties && e in Flush(Start(s, p).state.outputs) :: e
  }

  /** Every party has started and its first message is on the wire. */
  ghost function Init(s: Setup): Net
    requires AllStart(s)
  {
    Net(StartSessions(s), StartSent(s), {}, {})
  }

  /** The net after the recipient of `e` took the step `step`. */
  function Receive(n: Net, e: Envelope, step: (State, Outcome)): Net {
    Net(n.sessions[e.to := Drained(step.0)], n.sent + Flush(step.0.outputs), n.delivered + {e},
        if step.1.Err? then n.failed + {e.to} else n.failed)
  }

  /** The network hands over any envelope that was ever sent, so an envelope may
      arrive late, out of order, or many times. Other choices do nothing. */
  function Deliver(sch: Scheme, n: Net, e: Envelope): Net {
    if e !in n.sent || e.to !in n.sessions then n
    else Receive(n, e, Handle(sch, n.sessions[e.to], e.msg))
  }

  function Run(sch: Scheme, n: Net, schedule: seq<Envelope>): Net
    decreases |schedule|
  {
    if schedule == [] then n else Run(sch, Deliver(sch, n, schedule[0]), schedule[1..])
  }

  // ---- the invariant of the network ----

  /** The messages of the run, by sender. */
  datatype Wire = Wire(id: map<Name, nat>, r1: map<Name, ProtocolMessage>, r2: map<Name, ProtocolMessage>)

  /** Party `p` addresses its commitment and its share to everyone else. */
  ghost predicate SenderOk(w: Wire, p: Name) {
    && p in w.r1 && w.r1[p].kind == SignRound1 && w.r1[p].from == p
    && p in w.r2 && w.r2[p].kind == SignRound2 && w.r2[p].from == p
    && (forall q :: q in w.r1[p].to <==> q in w.id && q != p)
    && (forall q :: q in w.r2[p].to <==> q in w.id && q != p)
  }

  ghost predicate WireOk(w: Wire) {
    && w.r1.Keys == w.id.Keys && w.r2.Keys == w.id.Keys
    && forall p {:trigger SenderOk(w, p)} :: p in w.id ==> SenderOk(w, p)
  }

  /** A run as plain tables: the transcript, the messages, and each party's inputs. */
  datatype Honest = Honest(sch: Scheme, t: Transcript, w: Wire, cfgs: map<Name, Config>, nonces: map<Name, Nonces>)

  /** Party `p` signs and aggregates as the transcript says. */
  ghost predicate Acts(h: Honest, p: Name) {
    && p in h.cfgs && p in h.nonces && p in h.w.id && p in h.w.r2
    && Aggregates(h.sch, h.cfgs[p], h.t) && SignsAs(h.sch, h.cfgs[p], h.t, h.w.id[p], h.nonces[p])
    && h.w.r2[p] == Round2(h.sch, h.cfgs[p], h.t.shares[h.w.id[p]])
  }

  /** Party `p` reads the messages of party `q` as the transcript says. */
  ghost predicate Reads(h: Honest, p: Name, q: Name) {
    && p in h.cfgs && q in h.w.id && q in h.w.r1 && q in h.w.r2
    && IdentifierFor(h.cfgs[p].shareParticipants, q) == Some(h.w.id[q])
    && h.w.id[q] in h.t.commitments && h.w.id[q] in h.t.shares
    && h.sch.decodePayload(h.w.r1[q].payload).Some?
    && h.sch.parseCommitments(h.sch.decodePayload(h.w.r1[q].payload).value) == Some(h.t.commitments[h.w.id[q]])
    && h.sch.decodePayload(h.w.r2[q].payload).Some?
    && h.sch.parseShare(h.sch.decodePayload(h.w.r2[q].payload).value) == Some(h.t.shares[h.w.id[q]])
  }

  ghost predicate HonestOk(h: Honest) {
    && WireOk(h.w)
    && (forall p {:trigger Acts(h, p)} :: p in h.w.id ==> Acts(h, p))
    && (forall p, q {:trigger Reads(h, p, q)} :: p in h.w.id && q in h.w.id ==> Reads(h, p, q))
  }

  ghost predicate SessionsOk(h: Honest, n: Net) {
    && n.failed == {} && n.sessions.Keys == h.w.id.Keys
    && forall p {:trigger SessionOk(h, p, n.sessions[p])} :: p in h.w.id ==> SessionOk(h, p, n.sessions[p])
  }

  ghost predicate SessionOk(h: Honest, p: Name, st: State) {
    && p in h.cfgs && p in h.nonces && p in h.w.id
    && st.cfg == h.cfgs[p] && PartyInv(h.t, h.w.id[p], h.nonces[p], st)
  }

  ghost function Done(n: Net): set<Name> {
    set p | p in n.sessions && n.sessions[p].nonces.None?
  }

  /** Every commitment, and every share of a party that has signed, to everyone else. */
  ghost predicate OnWire(w: Wire, done: set<Name>, e: Envelope) {
    && e.msg.from in w.id && e.to in w.id && e.to != e.msg.from
    && e.msg.from in w.r1 && e.msg.from in w.r2
    && (e.msg == w.r1[e.msg.from] || (e.msg == w.r2[e.msg.from] && e.msg.from in done))
  }

  /** On the wire is exactly what the parties have produced so far. */
  ghost predicate SentExactly(w: Wire, done: set<Name>, sent: set<Envelope>) {
    forall e :: e in sent <==> OnWire(w, done, e)
  }

  /** What was delivered has been kept. */
  ghost predicate Kept(w: Wire, n: Net) {
    forall e :: e in n.delivered ==>
      e.msg.from in w.id && e.to in n.sessions && Holds(w.id[e.msg.from], e.msg.kind, n.sessions[e.to])
  }

  ghost predicate Holds(from: nat, kind: Kind, st: State) {
    && (kind == SignRound1 ==> from in st.commitments)
    && (kind == SignRound2 ==> from in st.signatureShares.Keys + st.pendingShares.Keys)
  }

  ghost predicate Inv(h: Honest, n: Net) {
    HonestOk(h) && SessionsOk(h, n) && SentExactly(h.w, Done(n), n.sent) && Kept(h.w, n) && n.delivered <= n.sent
  }

  /** What one honest delivery does to the receiving session. */
  ghost predicate GoodStep(h: Honest, p: Name, from: nat, kind: Kind, st: State, st': State) {
    && SessionOk(h, p, Drained(st')) && p in h.w.r2
    && st.commitments.Keys <= st'.commitments.Keys
    && st.signatureShares.Keys + st.pendingShares.Keys <= st'.signatureShares.Keys + st'.pendingShares.Keys
    && Holds(from, kind, st')
    && st'.outputs == (if st'.nonces.None? && st.nonces.Some? then [h.w.r2[p]] else [])
    && (st.nonces.None? ==> st'.nonces.None?)
  }

  lemma HonestDelivery(h: Honest, p: Name, q: Name, st: State, msg: ProtocolMessage)
    requires Acts(h, p) && Reads(h, p, q) && SessionOk(h, p, st)
    requires msg.from == q
    requires (msg == h.w.r1[q] && msg.kind == SignRound1) || (msg == h.w.r2[q] && msg.kind == SignRound2)
    ensures Handle(h.sch, st, msg).1.Fine?
    ensures GoodStep(h, p, h.w.id[q], msg.kind, st, Handle(h.sch, st, msg).0)
  {
    if msg.kind == SignRound1 {
      HonestRound1(h.sch, h.t, h.w.id[p], h.nonces[p], st, h.w.id[q], msg);
    } else {
      HonestRound2(h.sch, h.t, h.w.id[p], h.nonces[p], st, h.w.id[q], msg);
    }
  }

  lemma FlushExactly(w: Wire, done: set<Name>, sent: set<Envelope>, p: Name)
    requires WireOk(w) && SentExactly(w, done, sent) && p in w.id
    ensures SentExactly(w, done + {p}, sent + Flush([w.r2[p]]))
  {
    assert SenderOk(w, p);
    forall e ensures e in sent + Flush([w.r2[p]]) <==> OnWire(w, done + {p}, e) {
      assert e in Flush([w.r2[p]]) <==> e.msg == w.r2[p] && e.to in w.r2[p].to;
    }
  }

  lemma ReceiveSent(w: Wire, n: Net, e: Envelope, step: (State, Outcome))
    requires WireOk(w) && e.to in w.id && e.to in n.sessions && SentExactly(w, Done(n), n.sent)
    requires step.0.outputs == (if step.0.nonces.None? && n.sessions[e.to].nonces.Some? then [w.r2[e.to]] else [])
    requires n.sessions[e.to].nonces.None? ==> step.0.nonces.None?
    ensures SentExactly(w, Done(Receive(n, e, step)), Receive(n, e, step).sent)
  {
    var n' := Receive(n, e, step);
    if step.0.outputs == [] {
      assert Done(n') == Done(n);
      assert n'.sent == n.sent;
    } else {
      assert Done(n') == Done(n) + {e.to};
      FlushExactly(w, Done(n), n.sent, e.to);
    }
  }

  lemma ReceiveKept(w: Wire, n: Net, e: Envelope, step: (State, Outcome))
    requires Kept(w, n) && e.to in n.sessions && e.msg.from in w.id
    requires n.sessions[e.to].commitments.Keys <= step.0.commitments.Keys
    requires var st := n.sessions[e.to];
      st.signatureShares.Keys + st.pendingShares.Keys <= step.0.signatureShares.Keys + step.0.pendingShares.Keys
    requires Holds(w.id[e.msg.from], e.msg.kind, step.0)
    ensures Kept(w, Receive(n, e, step))
  {
    var n', st := Receive(n, e, step), n.sessions[e.to];
    forall x | x in n'.delivered
      ensures x.msg.from in w.id && x.to in n'.sessions && Holds(w.id[x.msg.from], x.msg.kind, n'.sessions[x.to])
    {
      if x != e && x.to == e.to {
        assert Holds(w.id[x.msg.from], x.msg.kind, st);
      }
    }
  }

  lemma ReceiveSessions(h: Honest, n: Net, e: Envelope, step: (State, Outcome))
    requires SessionsOk(h, n) && e.to in h.w.id && SessionOk(h, e.to, Drained(step.0)) && step.1.Fine?
    ensures SessionsOk(h, Receive(n, e, step))
  {
    var n' := Receive(n, e, step);
    forall p | p in h.w.id ensures SessionOk(h, p, n'.sessions[p]) {
      if p != e.to {
        assert SessionOk(h, p, n.sessions[p]);
      }
    }
  }

  lemma ReceiveKeepsInv(h: Honest, n: Net, e: Envelope, step: (State, Outcome))
    requires Inv(h, n) && e in n.sent && OnWire(h.w, Done(n), e)
    requires step.1.Fine? && GoodStep(h, e.to, h.w.id[e.msg.from], e.msg.kind, n.sessions[e.to], step.0)
    ensures Inv(h, Receive(n, e, step))
  {
    ReceiveSent(h.w, n, e, step);
    ReceiveKept(h.w, n, e, step);
    ReceiveSessions(h, n, e, step);
  }

  lemma DeliverKeepsInv(h: Honest, n: Net, e: Envelope)
    requires Inv(h, n)
    ensures Inv(h, Deliver(h.sch, n, e))
  {
    if e in n.sent {
      assert OnWire(h.w, Done(n), e);
      assert Acts(h, e.to) && Reads(h, e.to, e.msg.from);
      assert SessionOk(h, e.to, n.sessions[e.to]) && SenderOk(h.w, e.msg.from);
      HonestDelivery(h, e.to, e.msg.from, n.sessions[e.to], e.msg);
      ReceiveKeepsInv(h, n, e, Handle(h.sch, n.sessions[e.to], e.msg));
    }
  }

  lemma {:induction false} RunKeepsInv(h: Honest, n: Net, schedule: seq<Envelope>)
    requires Inv(h, n)
    ensures Inv(h, Run(h.sch, n, schedule))
    decreases |schedule|
  {
    if schedule != [] {
      DeliverKeepsInv(h, n, schedule[0]);
      RunKeepsInv(h, Deliver(h.sch, n, schedule[0]), schedule[1..]);
    }
  }

  // ---- quiescence ----

  /** Every identifier of the transcript belongs to a party of the run. */
  ghost predicate Covered(h: Honest) {
    && h.t.commitments.Keys == h.t.shares.Keys
    && forall k :: k in h.t.commitments ==> exists p :: p in h.w.id && h.w.id[p] == k
  }

  ghost predicate Quiescent(n: Net) {
    n.sent <= n.delivered
  }

  /** Whatever is on the wire has reached its recipient. */
  lemma QuiescentHolds(w: Wire, n: Net, e: Envelope)
    requires SentExactly(w, Done(n), n.sent) && Kept(w, n) && Quiescent(n) && OnWire(w, Done(n), e)
    ensures e.to in n.sessions && Holds(w.id[e.msg.from], e.msg.kind, n.sessions[e.to])
  {
    assert e in n.sent && e in n.delivered;
  }

  lemma QuiescentCommitment(w: Wire, n: Net, p: Name, q: Name)
    requires WireOk(w) && SentExactly(w, Done(n), n.sent) && Kept(w, n) && Quiescent(n)
    requires p in w.id && q in w.id && p != q
    ensures p in n.sessions && w.id[q] in n.sessions[p].commitments
  {
    assert SenderOk(w, q);
    QuiescentHolds(w, n, Envelope(p, w.r1[q]));
  }

  lemma QuiescentShare(w: Wire, n: Net, p: Name, q: Name)
    requires WireOk(w) && SentExactly(w, Done(n), n.sent) && Kept(w, n) && Quiescent(n)
    requires p in w.id && q in w.id && p != q && q in Done(n)
    ensures p in n.sessions && w.id[q] in n.sessions[p].signatureShares.Keys + n.sessions[p].pendingShares.Keys
  {
    assert SenderOk(w, q);
    QuiescentHolds(w, n, Envelope(p, w.r2[q]));
  }

  lemma QuiescentCommitted(h: Honest, n: Net, p: Name)
    requires Inv(h, n) && Covered(h) && Quiescent(n) && p in h.w.id
    ensures p in Done(n)
  {
    var st := n.sessions[p];
    assert SessionOk(h, p, st);
    forall k | k in h.t.commitments ensures k in st.commitments {
      var q :| q in h.w.id && h.w.id[q] == k;
      if q != p {
        QuiescentCommitment(h.w, n, p, q);
      }
    }
    SubEqual(st.commitments, h.t.commitments);
  }

  /** Once nothing is undelivered, everyone holds the signature of the transcript. */
  lemma QuiescentFinished(h: Honest, n: Net, p: Name)
    requires Inv(h, n) && Covered(h) && Quiescent(n) && p in h.w.id
    ensures n.sessions[p].result == Some(h.t.signature)
  {
    var st := n.sessions[p];
    assert SessionOk(h, p, st);
    QuiescentCommitted(h, n, p);
    forall k | k in h.t.shares ensures k in st.signatureShares {
      var q :| q in h.w.id && h.w.id[q] == k;
      if q != p {
        QuiescentCommitted(h, n, q);
        QuiescentShare(h.w, n, p, q);
      }
    }
    SubEqual(st.signatureShares, h.t.shares);
  }

  // ---- a correct run ----

  ghost function TheTranscript(s: Setup): Transcript
    requires Correct(s)
  {
    Transcript(AllCommitments(s), AllShares(s), TheSignature(s))
  }

  ghost function To(s: Setup, p: Name): seq<Name>
    requires p in s.parties
  {
    Others(Cfg(s, p).participants, p)
  }

  /** What party `p` prints of its commitments. */
  ghost function Printed(s: Setup, p: Name): Bytes
    requires p in s.parties
  {
    match s.sch.printCommitments(s.parties[p].commits)
    case Some(b) => b
    case None => []
  }

  ghost function R1(s: Setup, p: Name): ProtocolMessage
    requires p in s.parties
  {
    ProtocolMessage(SignRound1, p, To(s, p), s.sch.encodePayload(Printed(s, p)))
  }

  ghost function R2(s: Setup, p: Name): ProtocolMessage
    requires EveryoneSigns(s) && p in s.parties
  {
    Round2(s.sch, Cfg(s, p), Signed(s, p).value)
  }

  ghost function TheCfgs(s: Setup): (m: map<Name, Config>)
    ensures m.Keys == s.parties.Keys && forall p :: p in m ==> m[p] == Cfg(s, p)
  {
    map p | p in s.parties :: Cfg(s, p)
  }

  ghost function TheNonces(s: Setup): (m: map<Name, Nonces>)
    ensures m.Keys == s.parties.Keys && forall p :: p in m ==> m[p] == s.parties[p].nonces
  {
    map p | p in s.parties :: s.parties[p].nonces
  }

  ghost function R1s(s: Setup): (m: map<Name, ProtocolMessage>)
    ensures m.Keys == s.parties.Keys && forall p :: p in m ==> m[p] == R1(s, p)
  {
    map p | p in s.parties :: R1(s, p)
  }

  ghost function R2s(s: Setup): (m: map<Name, ProtocolMessage>)
    requires EveryoneSigns(s)
    ensures m.Keys == s.parties.Keys && forall p :: p in m ==> m[p] == R2(s, p)
  {
    map p | p in s.parties :: R2(s, p)
  }

  ghost function TheWire(s: Setup): Wire
    requires Correct(s)
  {
    Wire(IdMap(s), R1s(s), R2s(s))
  }

  ghost function TheHonest(s: Setup): Honest
    requires Correct(s)
  {
    Honest(s.sch, TheTranscript(s), TheWire(s), TheCfgs(s), TheNonces(s))
  }

  lemma SelectedCount(s: Setup, p: Name)
    requires Valid(s) && p in s.parties
    ensures |Cfg(s, p).participants| == |s.parties| && Elems(Cfg(s, p).participants) == s.parties.Keys
  {
    assert Member(s, p);
    NormalizeIsCanonical(s.parties[p].raw);
    DistinctSetToMultiset(NormalizeParticipants(s.parties[p].raw));
    assert |s.parties| == |s.parties.Keys|;
  }

  lemma Recipients(s: Setup, p: Name)
    requires Valid(s) && p in s.parties
    ensures forall q :: q in To(s, p) <==> q in s.parties && q != p
  {
    SelectedCount(s, p);
    var ps := Cfg(s, p).participants;
    forall q ensures q in ps <==> q in s.parties {
      assert q in ps <==> q in Elems(ps);
    }
  }

  lemma TheSender(s: Setup, p: Name)
    requires Correct(s) && p in s.parties
    ensures SenderOk(TheWire(s), p)
  {
    Recipients(s, p);
    assert Prints(s, p);
    assert R1s(s)[p] == R1(s, p) && R2s(s)[p] == R2(s, p);
    assert R1(s, p).to == To(s, p) && R2(s, p).to == To(s, p);
  }

  lemma TheWireOk(s: Setup)
    requires Correct(s)
    ensures WireOk(TheWire(s))
  {
    var w := TheWire(s);
    forall p | p in w.id ensures SenderOk(w, p) {
      TheSender(s, p);
    }
    CollectWire(w);
  }

  lemma CollectWire(w: Wire)
    requires w.r1.Keys == w.id.Keys && w.r2.Keys == w.id.Keys
    requires forall p {:trigger SenderOk(w, p)} :: p in w.id ==> SenderOk(w, p)
    ensures WireOk(w)
  {
  }

  lemma TranscriptAt(s: Setup, p: Name)
    requires Correct(s) && p in s.parties
    ensures var t, i := TheTranscript(s), Id(s, p);
      i in t.commitments && t.commitments[i] == s.parties[p].commits && i in t.shares && Some(t.shares[i]) == Signed(s, p)
  {
    IdMapInjective(s);
    assert IdMap(s)[p] == Id(s, p);
  }

  lemma TranscriptAggregates(s: Setup, p: Name)
    requires Correct(s) && p in s.parties
    ensures Aggregates(s.sch, Cfg(s, p), TheTranscript(s))
  {
    IdMapInjective(s);
    SelectedCount(s, p);
    InjectiveCount(IdMap(s));
    var t := TheTranscript(s);
    assert |t.commitments| == |t.commitments.Keys| && |t.shares| == |t.shares.Keys|;
    assert |IdMap(s)| == |IdMap(s).Keys| && |s.parties| == |s.parties.Keys|;
  }

  lemma TheyAct(s: Setup, p: Name)
    requires Correct(s) && p in s.parties
    ensures Acts(TheHonest(s), p)
  {
    TranscriptAt(s, p);
    TranscriptAggregates(s, p);
    IdFacts(s, p);
    assert R2s(s)[p] == R2(s, p) && TheCfgs(s)[p] == Cfg(s, p) && IdMap(s)[p] == Id(s, p);
  }

  lemma TheyRead(s: Setup, p: Name, q: Name)
    requires Correct(s) && p in s.parties && q in s.parties
    ensures Reads(TheHonest(s), p, q)
  {
    TranscriptAt(s, q);
    IdFacts(s, q);
    assert Prints(s, q);
    assert R1s(s)[q] == R1(s, q) && R2s(s)[q] == R2(s, q) && TheCfgs(s)[p] == Cfg(s, p) && IdMap(s)[q] == Id(s, q);
  }

  lemma CollectHonest(h: Honest)
    requires WireOk(h.w)
    requires forall p {:trigger Acts(h, p)} :: p in h.w.id ==> Acts(h, p)
    requires forall p, q {:trigger Reads(h, p, q)} :: p in h.w.id && q in h.w.id ==> Reads(h, p, q)
    ensures HonestOk(h)
  {
  }

  lemma AllAct(s: Setup, h: Honest)
    requires Correct(s) && h == TheHonest(s)
    ensures forall p {:trigger Acts(h, p)} :: p in h.w.id ==> Acts(h, p)
  {
    forall p | p in h.w.id ensures Acts(h, p) {
      TheyAct(s, p);
    }
  }

  lemma AllRead(s: Setup, h: Honest)
    requires Correct(s) && h == TheHonest(s)
    ensures forall p, q {:trigger Reads(h, p, q)} :: p in h.w.id && q in h.w.id ==> Reads(h, p, q)
  {
    forall p, q | p in h.w.id && q in h.w.id ensures Reads(h, p, q) {
      TheyRead(s, p, q);
    }
  }

  lemma TheHonestOk(s: Setup)
    requires Correct(s)
    ensures HonestOk(TheHonest(s))
  {
    var h := TheHonest(s);
    TheWireOk(s);
    AllAct(s, h);
    AllRead(s, h);
    CollectHonest(h);
  }

  lemma TheCoverage(s: Setup)
    requires Correct(s)
    ensures Covered(TheHonest(s))
  {
    IdMapInjective(s);
    assert TheTranscript(s).commitments.Keys == IdMap(s).Values;
  }

  // ---- the start of the run ----

  ghost function FreshState(cfg: Config, id: nat, nonces: Nonces, commits: Commitments, round1: ProtocolMessage): State {
    State(cfg, Some(nonces), map[id := commits], map[], map[], [round1], None, None, [])
  }

  lemma NewStarts(sch: Scheme, holders: seq<Name>, stored: KeyPackage, storedGroup: PublicKeyPackage, tweak: Option<Bytes>,
                  key: KeyPackage, group: PublicKeyPackage, local: Name,
                  raw: seq<Name>, message: Bytes, taproot: bool, nonces: Nonces, c: Commitments, id: nat)
    requires local in NormalizeParticipants(raw) && Shifted(sch, stored, storedGroup, tweak) == Some((key, group))
    requires forall q :: q in NormalizeParticipants(raw) ==> q in NormalizeParticipants(holders)
    requires sch.printCommitments(c).Some? && IdentifierFor(NormalizeParticipants(holders), local) == Some(id)
    ensures var cfg := Config(local, NormalizeParticipants(raw), NormalizeParticipants(holders), key, group, message, taproot);
      New(sch, StoredShare(holders, Loaded(stored), Loaded(storedGroup)), local, raw, message, taproot, tweak, nonces, c)
      == Started(FreshState(cfg, id, nonces, c,
           ProtocolMessage(SignRound1, local, Others(cfg.participants, local), sch.encodePayload(sch.printCommitments(c).value))))
  {
  }

  lemma SelectedHold(s: Setup, p: Name)
    requires Valid(s) && p in s.parties
    ensures p in Cfg(s, p).participants
    ensures forall q :: q in Cfg(s, p).participants ==> q in NormalizeParticipants(s.holders)
  {
    SelectedCount(s, p);
    NormalizeIsCanonical(s.holders);
    var ps := Cfg(s, p).participants;
    assert p in Elems(ps);
    forall q | q in ps ensures q in NormalizeParticipants(s.holders) {
      assert q in Elems(ps) && Member(s, q);
      assert q in Elems(NormalizeParticipants(s.holders));
    }
  }

  lemma StartsFresh(s: Setup, p: Name)
    requires Correct(s) && p in s.parties
    ensures s.sch.printCommitments(s.parties[p].commits).Some?
    ensures Start(s, p) == Started(FreshState(Cfg(s, p), Id(s, p), s.parties[p].nonces, s.parties[p].commits, R1(s, p)))
  {
    SelectedHold(s, p);
    IdFacts(s, p);
    assert Prints(s, p) && Keyed(s, p);
    var i := s.parties[p];
    NewStarts(s.sch, s.holders, i.stored, s.storedGroup, s.tweak, i.key, s.group, p, i.raw, s.message, s.taproot,
              i.nonces, i.commits, Id(s, p));
  }

  lemma FreshPartyInv(t: Transcript, id: nat, nonces: Nonces, cfg: Config, c: Commitments, round1: ProtocolMessage)
    requires id in t.commitments && t.commitments[id] == c && |t.commitments| >= 2 && |t.shares| >= 2
    ensures PartyInv(t, id, nonces, Drained(FreshState(cfg, id, nonces, c, round1)))
  {
    assert |map[id := c]| == 1;
  }

  lemma StartSessionOk(s: Setup, h: Honest, p: Name)
    requires Correct(s) && h == TheHonest(s) && p in s.parties && Start(s, p).Started?
    ensures SessionOk(h, p, Drained(Start(s, p).state))
  {
    StartsFresh(s, p);
    TranscriptAt(s, p);
    TranscriptAggregates(s, p);
    SelectedCount(s, p);
    assert h.cfgs[p] == Cfg(s, p) && h.w.id[p] == Id(s, p) && h.nonces[p] == s.parties[p].nonces;
    FreshPartyInv(h.t, Id(s, p), s.parties[p].nonces, Cfg(s, p), s.parties[p].commits, R1(s, p));
  }

  lemma AllStarted(s: Setup)
    requires Correct(s)
    ensures AllStart(s)
  {
    forall p | p in s.parties ensures Start(s, p).Started? {
      StartsFresh(s, p);
    }
  }

  lemma InitSessionAt(s: Setup, h: Honest, p: Name)
    requires Correct(s) && h == TheHonest(s) && AllStart(s) && p in s.parties
    ensures SessionOk(h, p, StartSessions(s)[p])
  {
    StartSessionOk(s, h, p);
    assert StartSessions(s)[p] == Drained(Start(s, p).state);
  }

  lemma InitSessions(s: Setup, h: Honest, m: map<Name, State>)
    requires Correct(s) && h == TheHonest(s) && AllStart(s) && m == StartSessions(s)
    ensures forall p {:trigger SessionOk(h, p, m[p])} :: p in h.w.id ==> SessionOk(h, p, m[p])
  {
    forall p | p in h.w.id ensures SessionOk(h, p, m[p]) {
      InitSessionAt(s, h, p);
    }
  }

  lemma CollectSessions(h: Honest, n: Net)
    requires n.failed == {} && n.sessions.Keys == h.w.id.Keys
    requires forall p {:trigger SessionOk(h, p, n.sessions[p])} :: p in h.w.id ==> SessionOk(h, p, n.sessions[p])
    ensures SessionsOk(h, n)
  {
  }

  lemma InitDone(s: Setup)
    requires Correct(s) && AllStart(s)
    ensures Done(Init(s)) == {}
  {
    forall p | p in s.parties ensures Init(s).sessions[p].nonces.Some? {
      StartsFresh(s, p);
      assert StartSessions(s)[p] == Drained(Start(s, p).state);
    }
  }

  lemma StartSentBy(s: Setup, p: Name)
    requires Correct(s) && AllStart(s) && p in s.parties
    ensures forall e :: e in Flush(Start(s, p).state.outputs) <==> e.msg == TheWire(s).r1[p] && e.to in s.parties && e.to != p
  {
    StartsFresh(s, p);
    Recipients(s, p);
    assert R1s(s)[p] == R1(s, p);
    FlushOne(Start(s, p).state.outputs, R1(s, p), s.parties.Keys, p);
  }

  lemma FlushOne(ms: seq<ProtocolMessage>, m: ProtocolMessage, ps: set<Name>, p: Name)
    requires ms == [m] && forall q :: q in m.to <==> q in ps && q != p
    ensures forall e :: e in Flush(ms) <==> e.msg == m && e.to in ps && e.to != p
  {
  }

  lemma InitSent(s: Setup, w: Wire)
    requires Correct(s) && w == TheWire(s) && AllStart(s) && WireOk(w)
    ensures SentExactly(w, {}, StartSent(s))
  {
    forall e ensures e in StartSent(s) <==> OnWire(w, {}, e) {
      if e in StartSent(s) {
        var p :| p in s.parties && e in Flush(Start(s, p).state.outputs);
        StartSentBy(s, p);
        assert SenderOk(w, p);
      }
      if OnWire(w, {}, e) {
        StartSentBy(s, e.msg.from);
        assert e in Flush(Start(s, e.msg.from).state.outputs);
      }
    }
  }

  lemma InitInv(s: Setup)
    requires Correct(s)
    ensures AllStart(s) && Inv(TheHonest(s), Init(s))
  {
    AllStarted(s);
    TheHonestOk(s);
    InitSessions(s, TheHonest(s), StartSessions(s));
    CollectSessions(TheHonest(s), Init(s));
    InitDone(s);
    InitSent(s, TheWire(s));
  }

  // ---- the theorems ----

  /** No party has failed, a finished party holds the one signature, and if no
      message is undelivered every party has finished. */
  ghost predicate Agreed(s: Setup, n: Net)
    requires Correct(s)
  {
    && n.failed == {} && n.sessions.Keys == s.parties.Keys
    && (forall p :: p in s.parties && n.sessions[p].result.Some? ==> n.sessions[p].result == Some(TheSignature(s)))
    && (Quiescent(n) ==> forall p :: p in s.parties ==> n.sessions[p].result == Some(TheSignature(s)))
  }

  lemma AgreementOf(s: Setup, n: Net)
    requires Correct(s) && Inv(TheHonest(s), n)
    ensures Agreed(s, n)
  {
    AgreementAt(TheHonest(s), n);
    TheCoverage(s);
    QuiescentAll(TheHonest(s), n);
  }

  /** Agreement. In every run of at least two honest selected parties, for the vault key or a
      child path, under any delivery order and any duplication: no party ever fails, a party that
      finishes holds the aggregate over everyone's commitments and shares, and
      once no message is undelivered every party has finished. */
  lemma SigningAgreement(s: Setup, schedule: seq<Envelope>)
    requires Correct(s)
    ensures AllStart(s) && Agreed(s, Run(s.sch, Init(s), schedule))
  {
    ReachableInv(s, schedule);
    AgreementOf(s, Run(s.sch, Init(s), schedule));
  }

  lemma ReachableInv(s: Setup, schedule: seq<Envelope>)
    requires Correct(s)
    ensures AllStart(s) && Inv(TheHonest(s), Run(s.sch, Init(s), schedule))
  {
    InitInv(s);
    RunKeepsInv(TheHonest(s), Init(s), schedule);
  }

  lemma AgreementAt(h: Honest, n: Net)
    requires Inv(h, n)
    ensures forall p :: p in h.w.id && n.sessions[p].result.Some? ==> n.sessions[p].result == Some(h.t.signature)
  {
    forall p | p in h.w.id && n.sessions[p].result.Some? ensures n.sessions[p].result == Some(h.t.signature) {
      assert SessionOk(h, p, n.sessions[p]);
    }
  }

  lemma QuiescentAll(h: Honest, n: Net)
    requires Inv(h, n) && Covered(h)
    ensures Quiescent(n) ==> forall p :: p in h.w.id ==> n.sessions[p].result == Some(h.t.signature)
  {
    if Quiescent(n) {
      forall p | p in h.w.id ensures n.sessions[p].result == Some(h.t.signature) {
        QuiescentFinished(h, n, p);
      }
    }
  }

  ghost function AllEnvelopes(w: Wire): (es: set<Envelope>)
    requires w.r1.Keys == w.id.Keys && w.r2.Keys == w.id.Keys
    ensures forall done, e :: OnWire(w, done, e) ==> e in es
  {
    (set p, q | p in w.id && q in w.id :: Envelope(q, w.r1[p])) + (set p, q | p in w.id && q in w.id :: Envelope(q, w.r2[p]))
  }

  ghost function Pending(h: Honest, n: Net): nat
    requires WireOk(h.w)
  {
    |AllEnvelopes(h.w) - n.delivered|
  }

  lemma DeliveryProgress(h: Honest, n: Net, e: Envelope)
    requires Inv(h, n) && e in n.sent && e !in n.delivered
    ensures Inv(h, Deliver(h.sch, n, e)) && Pending(h, Deliver(h.sch, n, e)) < Pending(h, n)
  {
    assert OnWire(h.w, Done(n), e);
    DeliverKeepsInv(h, n, e);
    DeliveredOnce(h.sch, n, e);
    var all, n' := AllEnvelopes(h.w), Deliver(h.sch, n, e);
    assert all - n'.delivered < all - n.delivered;
    SmallerCount(all - n'.delivered, all - n.delivered);
  }

  lemma {:induction false} CanFinish(h: Honest, n: Net) returns (schedule: seq<Envelope>)
    requires Inv(h, n)
    ensures Quiescent(Run(h.sch, n, schedule))
    decreases Pending(h, n)
  {
    if Quiescent(n) {
      schedule := [];
    } else {
      var e :| e in n.sent && e !in n.delivered;
      DeliveryProgress(h, n, e);
      var rest := CanFinish(h, Deliver(h.sch, n, e));
      schedule := [e] + rest;
      assert schedule[1..] == rest;
      RunFirst(h.sch, n, schedule);
    }
  }

  lemma RunFirst(sch: Scheme, n: Net, schedule: seq<Envelope>)
    requires schedule != []
    ensures Run(sch, n, schedule) == Run(sch, Deliver(sch, n, schedule[0]), schedule[1..])
  {
  }

  lemma DeliveredOnce(sch: Scheme, n: Net, e: Envelope)
    requires e in n.sent && e.to in n.sessions
    ensures Deliver(sch, n, e).delivered == n.delivered + {e}
  {
  }

  lemma {:induction false} RunConcat(sch: Scheme, n: Net, a: seq<Envelope>, b: seq<Envelope>)
    ensures Run(sch, n, a + b) == Run(sch, Run(sch, n, a), b)
    decreases |a|
  {
    if a == [] {
      assert a + b == b;
    } else {
      assert (a + b)[1..] == a[1..] + b;
      RunConcat(sch, Deliver(sch, n, a[0]), a[1..], b);
    }
  }

  /** No deadlock. Whatever was delivered so far, finitely many further deliveries
      bring every party to the one signature. */
  lemma NoDeadlock(s: Setup, schedule: seq<Envelope>) returns (rest: seq<Envelope>)
    requires Correct(s)
    ensures AllStart(s)
    ensures var n := Run(s.sch, Init(s), schedule + rest);
      n.sessions.Keys == s.parties.Keys && forall p :: p in s.parties ==> n.sessions[p].result == Some(TheSignature(s))
  {
    ReachableInv(s, schedule);
    rest := CanFinish(TheHonest(s), Run(s.sch, Init(s), schedule));
    RunConcat(s.sch, Init(s), schedule, rest);
    SigningAgreement(s, schedule + rest);
  }
}
