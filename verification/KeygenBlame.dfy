/** Whom a key generation blames, and what it tells the others. */
module KeygenBlame {
  import opened Names
  import opened Bytes
  import opened KeygenSession

  /** Members without repeats, few enough to have an identifier each, and the local one at its own. */
  ghost predicate Sized(cfg: Config) {
    && Distinct(cfg.participants) && |cfg.participants| < U16
    && 1 <= cfg.localIndex <= |cfg.participants| && cfg.participants[cfg.localIndex - 1] == cfg.local
  }

  /** One message that tells every other member who is blamed. */
  ghost predicate Tells(sch: Scheme, cfg: Config, m: Message, ms: seq<Name>) {
    && m.kind == Kind.Abort && m.from == cfg.local && m.payload == sch.encodePayload(sch.printNames(ms))
    && Everyone(m.to, cfg.participants, cfg.local)
  }

  /** `after` is `before` with the blame recorded and, last of all that is queued, told to the others. */
  ghost predicate Blamed(sch: Scheme, before: State, phase: Phase, ms: seq<Name>, after: State) {
    && |after.outputs| == |before.outputs| + 1 && after.outputs[..|before.outputs|] == before.outputs
    && Tells(sch, before.cfg, after.outputs[|before.outputs|], ms)
    && after == before.(outputs := after.outputs, aborted := Some(AbortInfo(phase, ms)))
  }

  /** A message of the member at position `id` whose payload decodes. */
  predicate Decodes(sch: Scheme, cfg: Config, msg: Message, kind: Kind, id: nat, bytes: Bytes) {
    && msg.kind == kind && sch.decodePayload(msg.payload) == Some(bytes)
    && 1 <= id <= |cfg.participants| && cfg.participants[id - 1] == msg.from
  }

  /** A package that cannot be read is blamed on its sender and nobody else; secrets, packages and
      result stay as they are. */
  lemma UnreadableBlamesSender(sch: Scheme, st: State, msg: Message, id: nat, bytes: Bytes)
    requires Sized(st.cfg) && st.result.None? && msg.from != st.cfg.local
    ensures Decodes(sch, st.cfg, msg, Round1, id, bytes) && sch.parse1(bytes).None? ==>
      && Handle(sch, st, msg).1 == Err(IdentifiableAbort(InRound1, [msg.from]))
      && Blamed(sch, st, InRound1, [msg.from], Handle(sch, st, msg).0)
    ensures Decodes(sch, st.cfg, msg, Round2, id, bytes) && sch.parse2(bytes).None? ==>
      && Handle(sch, st, msg).1 == Err(IdentifiableAbort(InRound2, [msg.from]))
      && Blamed(sch, st, InRound2, [msg.from], Handle(sch, st, msg).0)
  {
    if 1 <= id <= |st.cfg.participants| {
      StandsAt(st.cfg.participants, msg.from, id);
      OthersOnce(st.cfg.participants, st.cfg.local);
    }
  }

  /** The packages after one of the member at `id`: the first stays, the own one is not kept. */
  ghost predicate Filed<V>(before: map<nat, V>, cfg: Config, id: nat, pkg: Option<V>, after: map<nat, V>) {
    if id == cfg.localIndex || id in before then after == before
    else pkg.Some? && after == before[id := pkg.value]
  }

  /** Part 2 rejects the packages of members `ms` once all are in: exactly those are blamed and
      everybody else is told; the round-1 secret is spent. */
  lemma Part2Blames(sch: Scheme, st: State, msg: Message, id: nat, bytes: Bytes, ps: map<nat, Package1>, ids: seq<nat>, ms: seq<Name>)
    requires Sized(st.cfg) && st.result.None? && Decodes(sch, st.cfg, msg, Round1, id, bytes)
    requires id != st.cfg.localIndex ==> sch.parse1(bytes).Some?
    requires Filed(st.packages1, st.cfg, id, sch.parse1(bytes), ps) && |ps| == |st.cfg.participants| - 1
    requires st.secret1.Some? && st.secret2.None? && sch.part2(st.secret1.value, ps) == Part2Rejected(ids)
    requires HeldBy(st.cfg.participants, ids, ms) && ms != []
    ensures Handle(sch, st, msg).1 == Err(IdentifiableAbort(InPart2, ms))
    ensures Blamed(sch, st.(packages1 := ps, secret1 := None, part2Runs := st.part2Runs + 1), InPart2, ms, Handle(sch, st, msg).0)
  {
    StandsAt(st.cfg.participants, msg.from, id);
    BlameHolders(st.cfg.participants, ids, ms);
    OthersOnce(st.cfg.participants, st.cfg.local);
    assert st.(packages1 := st.packages1) == st;
  }

  /** Part 3 likewise. */
  lemma Part3Blames(sch: Scheme, st: State, msg: Message, id: nat, bytes: Bytes, ps: map<nat, Package2>, ids: seq<nat>, ms: seq<Name>)
    requires Sized(st.cfg) && st.result.None? && Decodes(sch, st.cfg, msg, Round2, id, bytes)
    requires id != st.cfg.localIndex ==> sch.parse2(bytes).Some?
    requires Filed(st.packages2, st.cfg, id, sch.parse2(bytes), ps) && |ps| == |st.cfg.participants| - 1
    requires st.secret2.Some? && sch.part3(st.secret2.value, st.packages1, ps) == Part3Rejected(ids)
    requires HeldBy(st.cfg.participants, ids, ms) && ms != []
    ensures Handle(sch, st, msg).1 == Err(IdentifiableAbort(InPart3, ms))
    ensures Blamed(sch, st.(packages2 := ps), InPart3, ms, Handle(sch, st, msg).0)
  {
    StandsAt(st.cfg.participants, msg.from, id);
    BlameHolders(st.cfg.participants, ids, ms);
    OthersOnce(st.cfg.participants, st.cfg.local);
    assert st.(packages2 := st.packages2) == st;
  }

  /** A rejection that points at no member blames nobody and tells nobody. */
  lemma Part2BlamesNobody(sch: Scheme, st: State, msg: Message, id: nat, bytes: Bytes, ps: map<nat, Package1>, ids: seq<nat>)
    requires Sized(st.cfg) && st.result.None? && Decodes(sch, st.cfg, msg, Round1, id, bytes)
    requires id != st.cfg.localIndex ==> sch.parse1(bytes).Some?
    requires Filed(st.packages1, st.cfg, id, sch.parse1(bytes), ps) && |ps| == |st.cfg.participants| - 1
    requires st.secret1.Some? && st.secret2.None? && sch.part2(st.secret1.value, ps) == Part2Rejected(ids)
    requires HeldByNobody(st.cfg.participants, ids)
    ensures Handle(sch, st, msg) == (st.(packages1 := ps, secret1 := None, part2Runs := st.part2Runs + 1), Err(Frost))
  {
    StandsAt(st.cfg.participants, msg.from, id);
    BlameNobodyIff(st.cfg.participants, ids);
    assert st.(packages1 := st.packages1) == st;
  }

  lemma Part3BlamesNobody(sch: Scheme, st: State, msg: Message, id: nat, bytes: Bytes, ps: map<nat, Package2>, ids: seq<nat>)
    requires Sized(st.cfg) && st.result.None? && Decodes(sch, st.cfg, msg, Round2, id, bytes)
    requires id != st.cfg.localIndex ==> sch.parse2(bytes).Some?
    requires Filed(st.packages2, st.cfg, id, sch.parse2(bytes), ps) && |ps| == |st.cfg.participants| - 1
    requires st.secret2.Some? && sch.part3(st.secret2.value, st.packages1, ps) == Part3Rejected(ids)
    requires HeldByNobody(st.cfg.participants, ids)
    ensures Handle(sch, st, msg) == (st.(packages2 := ps), Err(Frost))
  {
    StandsAt(st.cfg.participants, msg.from, id);
    BlameNobodyIff(st.cfg.participants, ids);
    assert st.(packages2 := st.packages2) == st;
  }

  /** A message from a stranger, one whose payload does not decode and one of another kind are refused
      without a trace, and a finished session takes nothing in. */
  lemma RefusedWithoutTrace(sch: Scheme, st: State, msg: Message)
    requires Sized(st.cfg)
    ensures st.result.Some? ==> Handle(sch, st, msg) == (st, Fine(true))
    ensures st.result.None? && msg.from !in st.cfg.participants ==> Handle(sch, st, msg) == (st, Err(LocalPartyNotSelected))
    ensures st.result.None? && msg.from in st.cfg.participants ==>
      && (sch.decodePayload(msg.payload).None? ==> Handle(sch, st, msg) == (st, Err(Codec)))
      && (sch.decodePayload(msg.payload).Some? && msg.kind.OtherKind? ==> Handle(sch, st, msg) == (st, Err(UnknownKind(msg.kind.name))))
  {
    if msg.from in st.cfg.participants {
      IdentifierRoundTrip(st.cfg.participants, msg.from);
    }
  }

  /** The message for one round-2 package, to the member at its identifier and nobody else. */
  ghost predicate Addressed(sch: Scheme, cfg: Config, package: (nat, Package2), m: Message) {
    && 1 <= package.0 % U16 <= |cfg.participants| && sch.print2(package.1).Some?
    && m == Message(Round2, cfg.local, [cfg.participants[package.0 % U16 - 1]], sch.encodePayload(sch.print2(package.1).value))
  }

  /** Round-2 packages go out in order, each to the member at its identifier, up to the first whose
      identifier is nobody's or that cannot be printed. */
  lemma {:induction false} Round2Addresses(sch: Scheme, cfg: Config, packages: seq<(nat, Package2)>)
    ensures var (ms, ok) := Round2Messages(sch, cfg, packages);
      && |ms| <= |packages| && (ok <==> |ms| == |packages|)
      && (forall k :: 0 <= k < |ms| ==> Addressed(sch, cfg, packages[k], ms[k]))
      && (!ok ==> forall m :: !Addressed(sch, cfg, packages[|ms|], m))
    decreases |packages|
  {
    if packages != [] {
      Round2Addresses(sch, cfg, packages[1..]);
      var (ms, ok) := Round2Messages(sch, cfg, packages);
      var (rest, _) := Round2Messages(sch, cfg, packages[1..]);
      forall k | 0 <= k < |ms| ensures Addressed(sch, cfg, packages[k], ms[k]) {
        if k > 0 {
          assert ms[k] == rest[k - 1] && packages[k] == packages[1..][k - 1];
        }
      }
      if ms != [] && !ok {
        assert packages[|ms|] == packages[1..][|rest|];
      }
    }
  }

  /** A peer's abort is recorded under the names it carries; nothing is sent on. */
  lemma PeerAbortRecorded(sch: Scheme, st: State, msg: Message, id: nat, bytes: Bytes)
    requires Sized(st.cfg) && st.result.None? && Decodes(sch, st.cfg, msg, Kind.Abort, id, bytes)
    ensures Handle(sch, st, msg) ==
      (st.(aborted := Some(AbortInfo(PeerAbort, sch.parseNames(bytes)))), Err(IdentifiableAbort(PeerAbort, sch.parseNames(bytes))))
  {
    StandsAt(st.cfg.participants, msg.from, id);
  }

  /** Why an outcome that blames `ms` in this phase came about. */
  ghost predicate Cause(sch: Scheme, st: State, msg: Message, phase: Phase, ms: seq<Name>, after: State) {
    match phase
    case InRound1 => msg.kind == Round1 && msg.from != st.cfg.local && ms == [msg.from]
    case InRound2 => msg.kind == Round2 && msg.from != st.cfg.local && ms == [msg.from]
    case PeerAbort => msg.kind == Kind.Abort
    case InPart2 => msg.kind == Round1 && st.secret1.Some? && Rejected2(st, ms, after, sch.part2(st.secret1.value, after.packages1))
    case InPart3 => msg.kind == Round2 && st.secret2.Some? && Rejected3(st, ms, after, sch.part3(st.secret2.value, st.packages1, after.packages2))
  }

  /** All packages are in, the part rejected them, and the members are those at the rejected identifiers. */
  ghost predicate Rejected2(st: State, ms: seq<Name>, after: State, r: Part2) {
    && |after.packages1| == |st.cfg.participants| - 1 && r.Part2Rejected?
    && forall p :: p in ms <==> Stands(st.cfg.participants, r.culprits, p)
  }

  ghost predicate Rejected3(st: State, ms: seq<Name>, after: State, r: Part3) {
    && |after.packages2| == |st.cfg.participants| - 1 && r.Part3Rejected?
    && forall p :: p in ms <==> Stands(st.cfg.participants, r.culprits, p)
  }

  lemma Part2Cause(sch: Scheme, st: State, phase: Phase, ms: seq<Name>)
    requires st.cfg.participants != [] && MaybePart2(sch, st).1 == Some(IdentifiableAbort(phase, ms))
    ensures phase == InPart2 && st.secret1.Some? && MaybePart2(sch, st).0.packages1 == st.packages1
    ensures Rejected2(st, ms, MaybePart2(sch, st).0, sch.part2(st.secret1.value, st.packages1))
  {
    BlamedStands(st.cfg.participants, sch.part2(st.secret1.value, st.packages1).culprits);
  }

  lemma Part3Cause(sch: Scheme, st: State, phase: Phase, ms: seq<Name>)
    requires st.cfg.participants != [] && MaybePart3(sch, st).1 == Some(IdentifiableAbort(phase, ms))
    ensures phase == InPart3 && st.secret2.Some? && MaybePart3(sch, st).0.packages2 == st.packages2
    ensures Rejected3(st, ms, MaybePart3(sch, st).0, sch.part3(st.secret2.value, st.packages1, st.packages2))
  {
    BlamedStands(st.cfg.participants, sch.part3(st.secret2.value, st.packages1, st.packages2).culprits);
  }

  lemma Round1Cause(sch: Scheme, st: State, msg: Message, phase: Phase, ms: seq<Name>)
    requires Sized(st.cfg) && msg.kind == Round1 && Handle(sch, st, msg).1 == Err(IdentifiableAbort(phase, ms))
    ensures Cause(sch, st, msg, phase, ms, Handle(sch, st, msg).0)
  {
    var id, bytes := IdentifierFor(st.cfg.participants, msg.from).value, sch.decodePayload(msg.payload).value;
    StandsAt(st.cfg.participants, st.cfg.local, st.cfg.localIndex);
    if id == st.cfg.localIndex {
      Part2Cause(sch, st, phase, ms);
    } else if sch.parse1(bytes).Some? {
      Part2Cause(sch, st.(packages1 := InsertFirst(st.packages1, id, sch.parse1(bytes).value)), phase, ms);
    }
  }

  lemma Round2Cause(sch: Scheme, st: State, msg: Message, phase: Phase, ms: seq<Name>)
    requires Sized(st.cfg) && msg.kind == Round2 && Handle(sch, st, msg).1 == Err(IdentifiableAbort(phase, ms))
    ensures Cause(sch, st, msg, phase, ms, Handle(sch, st, msg).0)
  {
    var id, bytes := IdentifierFor(st.cfg.participants, msg.from).value, sch.decodePayload(msg.payload).value;
    StandsAt(st.cfg.participants, st.cfg.local, st.cfg.localIndex);
    if id == st.cfg.localIndex {
      Part3Cause(sch, st, phase, ms);
    } else if sch.parse2(bytes).Some? {
      Part3Cause(sch, st.(packages2 := InsertFirst(st.packages2, id, sch.parse2(bytes).value)), phase, ms);
    }
  }

  /** Nobody is blamed without a cause. */
  lemma BlameHasCause(sch: Scheme, st: State, msg: Message, phase: Phase, ms: seq<Name>)
    requires Sized(st.cfg) && Handle(sch, st, msg).1 == Err(IdentifiableAbort(phase, ms))
    ensures Cause(sch, st, msg, phase, ms, Handle(sch, st, msg).0)
  {
    if msg.kind == Round1 {
      Round1Cause(sch, st, msg, phase, ms);
    } else if msg.kind == Round2 {
      Round2Cause(sch, st, msg, phase, ms);
    }
  }
}
