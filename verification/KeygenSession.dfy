/** Distributed key generation: the state machine `KeygenSession`
    (crates/thornado-bifrost-signer/src/frost_session.rs).

    As for signing, `MaybePart2`, `MaybePart3` and `Handle` give one transition on
    values and the class `Session` performs it on its fields. */
module KeygenSession {
  import opened Names
  import opened Bytes

  // Values owned by the frost crate.
  type Secret1(!new)
  type Secret2(!new)
  type Package1(!new)
  type Package2(!new)
  type KeyPackage(!new)
  type PublicKeyPackage(!new)
  type Payload(==, !new)

  /** The message tags "keygen_round1", "keygen_round2" and "keygen_abort", or any other text. */
  datatype Kind = Round1 | Round2 | Abort | OtherKind(name: string)

  datatype Message = Message(kind: Kind, from: Name, to: seq<Name>, payload: Payload)

  datatype Phase = InRound1 | InRound2 | InPart2 | InPart3 | PeerAbort

  datatype Error =
    | Frost
    | Codec
    | MissingRound1Secret
    | MissingRound2Secret
    | LocalPartyNotSelected
    | UnknownKind(name: string)
    | IdentifiableAbort(phase: Phase, culprits: seq<Name>)

  datatype AbortInfo = AbortInfo(phase: Phase, culprits: seq<Name>)

  datatype Outcome = Fine(finished: bool) | Err(error: Error)

  /** `part2` lists its packages by ascending recipient identifier. */
  datatype Part2 = Part2(secret: Secret2, packages: seq<(nat, Package2)>) | Part2Rejected(culprits: seq<nat>)

  datatype Part3 = Part3(key: KeyPackage, group: PublicKeyPackage) | Part3Rejected(culprits: seq<nat>)

  datatype Scheme = Scheme(
    decodePayload: Payload -> Option<Bytes>,
    encodePayload: Bytes -> Payload,
    parseNames: Bytes -> seq<Name>,
    printNames: seq<Name> -> Bytes,
    parse1: Bytes -> Option<Package1>,
    print1: Package1 -> Option<Bytes>,
    parse2: Bytes -> Option<Package2>,
    print2: Package2 -> Option<Bytes>,
    part2: (Secret1, map<nat, Package1>) -> Part2,
    part3: (Secret2, map<nat, Package1>, map<nat, Package2>) -> Part3,
    printGroupKey: PublicKeyPackage -> Option<string>,
    printKey: KeyPackage -> Option<string>,
    printGroup: PublicKeyPackage -> Option<string>)

  datatype StoredShare = StoredShare(
    participant: Name,
    participants: seq<Name>,
    participantIndex: nat,
    minSigners: nat,
    maxSigners: nat,
    publicKey: string,
    keyPackage: string,
    publicKeyPackage: string)

  datatype Config = Config(local: Name, participants: seq<Name>, localIndex: nat, minSigners: nat)

  /** `part2Runs` counts the calls of `part2`; the rest are the source's fields. */
  datatype State = State(
    cfg: Config,
    secret1: Option<Secret1>,
    packages1: map<nat, Package1>,
    secret2: Option<Secret2>,
    packages2: map<nat, Package2>,
    outputs: seq<Message>,
    result: Option<StoredShare>,
    aborted: Option<AbortInfo>,
    part2Runs: nat)

  datatype NewResult = Started(state: State) | Refused(error: Error)

  /** `new`; the round-1 secret and package come from `part1`, `None` if it fails. */
  function New(sch: Scheme, local: Name, raw: seq<Name>, minSigners: nat, part1: Option<(Secret1, Package1)>): NewResult {
    var participants := NormalizeParticipants(raw);
    if local !in participants then Refused(LocalPartyNotSelected)
    else
      match IdentifierFor(participants, local)
      case None => Refused(Frost)
      case Some(index) =>
        if part1.None? || sch.print1(part1.value.1).None? then Refused(Frost)
        else
          var round1 := Message(Round1, local, Others(participants, local),
                                sch.encodePayload(sch.print1(part1.value.1).value));
          Started(State(Config(local, participants, index, minSigners), Some(part1.value.0), map[], None, map[],
                        [round1], None, None, 0))
  }

  function AbortMessage(sch: Scheme, cfg: Config, culprits: seq<Name>): Message {
    Message(Abort, cfg.local, Others(cfg.participants, cfg.local), sch.encodePayload(sch.printNames(culprits)))
  }

  /** `abort`: record the blame and queue the broadcast. */
  function Blame(sch: Scheme, st: State, phase: Phase, culprits: seq<Name>): (State, Option<Error>) {
    (st.(aborted := Some(AbortInfo(phase, culprits)), outputs := st.outputs + [AbortMessage(sch, st.cfg, culprits)]),
     Some(IdentifiableAbort(phase, culprits)))
  }

  /** The targeted round-2 messages, and whether every package could be addressed
      and printed; on failure, those queued before it. */
  function Round2Messages(sch: Scheme, cfg: Config, packages: seq<(nat, Package2)>): (seq<Message>, bool) {
    if packages == [] then ([], true)
    else
      var to, bytes := NameForIdentifier(cfg.participants, packages[0].0), sch.print2(packages[0].1);
      if to.None? || bytes.None? then ([], false)
      else
        var rest := Round2Messages(sch, cfg, packages[1..]);
        ([Message(Round2, cfg.local, [to.value], sch.encodePayload(bytes.value))] + rest.0, rest.1)
  }

  function Peers(cfg: Config): nat {
    if cfg.participants == [] then 0 else |cfg.participants| - 1
  }

  /** `maybe_part2`: once every peer's round-1 package is in. */
  function MaybePart2(sch: Scheme, st: State): (State, Option<Error>) {
    if st.secret2.Some? || |st.packages1| != Peers(st.cfg) then (st, None)
    else if st.secret1.None? then (st, Some(MissingRound1Secret))
    else
      var taken := st.(secret1 := None, part2Runs := st.part2Runs + 1);
      match sch.part2(st.secret1.value, st.packages1)
      case Part2Rejected(ids) =>
        var culprits := BlameNames(st.cfg.participants, ids);
        if culprits == [] then (taken, Some(Frost)) else Blame(sch, taken, InPart2, culprits)
      case Part2(secret, packages) =>
        var (ms, ok) := Round2Messages(sch, st.cfg, packages);
        (taken.(secret2 := Some(secret), outputs := st.outputs + ms), if ok then None else Some(Frost))
  }

  /** `maybe_part3`: once every peer's round-2 package is in. */
  function MaybePart3(sch: Scheme, st: State): (State, Option<Error>) {
    if st.result.Some? || |st.packages2| != Peers(st.cfg) then (st, None)
    else if st.secret2.None? then (st, Some(MissingRound2Secret))
    else
      match sch.part3(st.secret2.value, st.packages1, st.packages2)
      case Part3Rejected(ids) =>
        var culprits := BlameNames(st.cfg.participants, ids);
        if culprits == [] then (st, Some(Frost)) else Blame(sch, st, InPart3, culprits)
      case Part3(key, group) =>
        var groupKey, keyText, groupText := sch.printGroupKey(group), sch.printKey(key), sch.printGroup(group);
        if groupKey.None? || keyText.None? || groupText.None? then (st, Some(Frost))
        else
          (st.(result := Some(StoredShare(st.cfg.local, st.cfg.participants, st.cfg.localIndex, st.cfg.minSigners,
                                          |st.cfg.participants| % U16, groupKey.value, keyText.value, groupText.value))), None)
  }

  function Settle(step: (State, Option<Error>)): (State, Outcome) {
    match step.1
    case Some(e) => (step.0, Err(e))
    case None => (step.0, Fine(step.0.result.Some?))
  }

  /** `entry(..).or_insert(..)`: the first package of a sender wins. */
  function InsertFirst<V>(m: map<nat, V>, k: nat, v: V): map<nat, V> {
    if k in m then m else m[k := v]
  }

  function Handle(sch: Scheme, st: State, msg: Message): (State, Outcome) {
    if st.result.Some? then (st, Fine(true))
    else
      match IdentifierFor(st.cfg.participants, msg.from)
      case None => (st, Err(if msg.from in st.cfg.participants then Frost else LocalPartyNotSelected))
      case Some(id) =>
        match sch.decodePayload(msg.payload)
        case None => (st, Err(Codec))
        case Some(bytes) => Dispatch(sch, st, msg, id, bytes)
  }

  function Dispatch(sch: Scheme, st: State, msg: Message, id: nat, bytes: Bytes): (State, Outcome) {
    match msg.kind
    case Round1 =>
      if id == st.cfg.localIndex then Settle(MaybePart2(sch, st))
      else
        (match sch.parse1(bytes)
         case None => Settle(Blame(sch, st, InRound1, [msg.from]))
         case Some(pkg) => Settle(MaybePart2(sch, st.(packages1 := InsertFirst(st.packages1, id, pkg)))))
    case Round2 =>
      if id == st.cfg.localIndex then Settle(MaybePart3(sch, st))
      else
        (match sch.parse2(bytes)
         case None => Settle(Blame(sch, st, InRound2, [msg.from]))
         case Some(pkg) => Settle(MaybePart3(sch, st.(packages2 := InsertFirst(st.packages2, id, pkg)))))
    case Abort =>
      var culprits := sch.parseNames(bytes);
      (st.(aborted := Some(AbortInfo(PeerAbort, culprits))), Err(IdentifiableAbort(PeerAbort, culprits)))
    case OtherKind(name) => (st, Err(UnknownKind(name)))
  }

  function Drained(st: State): State {
    st.(outputs := [])
  }

  /** A key generation starts exactly for a listed party that has an identifier, when the first part succeeds and
      its package can be printed; its one message carries the package to every other member, once. */
  lemma StartsIff(sch: Scheme, local: Name, raw: seq<Name>, minSigners: nat, part1: Option<(Secret1, Package1)>)
    ensures New(sch, local, raw, minSigners, part1).Started? <==>
      && local in raw && IdentifierFor(NormalizeParticipants(raw), local).Some?
      && part1.Some? && sch.print1(part1.value.1).Some?
    ensures New(sch, local, raw, minSigners, part1).Started? ==>
      var st := New(sch, local, raw, minSigners, part1).state;
      && |st.outputs| == 1 && st.outputs[0].kind == Round1 && st.outputs[0].from == local
      && st.outputs[0].payload == sch.encodePayload(sch.print1(part1.value.1).value)
      && Everyone(st.outputs[0].to, raw, local)
  {
    NormalizeIsCanonical(raw);
    OthersOnce(NormalizeParticipants(raw), local);
    forall p ensures p in NormalizeParticipants(raw) <==> p in raw {
      assert p in Elems(NormalizeParticipants(raw)) <==> p in Elems(raw);
    }
  }

  /** The object the daemon holds. */
  class Session {
    const sch: Scheme
    const cfg: Config
    var secret1: Option<Secret1>
    var packages1: map<nat, Package1>
    var secret2: Option<Secret2>
    var packages2: map<nat, Package2>
    var outputs: seq<Message>
    var result: Option<StoredShare>
    var aborted: Option<AbortInfo>
    ghost var part2Runs: nat

    ghost function View(): State
      reads this
    {
      State(cfg, secret1, packages1, secret2, packages2, outputs, result, aborted, part2Runs)
    }

    constructor (sch: Scheme, st: State)
      ensures this.sch == sch && View() == st
    {
      this.sch, cfg := sch, st.cfg;
      secret1, packages1, secret2, packages2 := st.secret1, st.packages1, st.secret2, st.packages2;
      outputs, result, aborted, part2Runs := st.outputs, st.result, st.aborted, st.part2Runs;
    }

    method AbortWith(phase: Phase, culprits: seq<Name>) returns (error: Error)
      modifies this`aborted, this`outputs
      ensures (View(), Some(error)) == Blame(sch, old(View()), phase, culprits)
    {
      aborted := Some(AbortInfo(phase, culprits));
      outputs := outputs + [AbortMessage(sch, cfg, culprits)];
      error := IdentifiableAbort(phase, culprits);
    }

    /** Queue the round-2 messages one by one, stopping at the first that cannot be sent. */
    method QueueRound2(packages: seq<(nat, Package2)>) returns (ok: bool)
      modifies this`outputs
      ensures outputs == old(outputs) + Round2Messages(sch, cfg, packages).0
      ensures ok == Round2Messages(sch, cfg, packages).1
    {
      var i := 0;
      while i < |packages|
        invariant 0 <= i <= |packages|
        invariant outputs + Round2Messages(sch, cfg, packages[i..]).0 == old(outputs) + Round2Messages(sch, cfg, packages).0
        invariant Round2Messages(sch, cfg, packages[i..]).1 == Round2Messages(sch, cfg, packages).1
      {
        var to, bytes := NameForIdentifier(cfg.participants, packages[i].0), sch.print2(packages[i].1);
        if to.None? || bytes.None? {
          return false;
        }
        assert packages[i..][1..] == packages[i + 1..];
        outputs := outputs + [Message(Round2, cfg.local, [to.value], sch.encodePayload(bytes.value))];
        i := i + 1;
      }
      ok := true;
    }

    method MaybePart2Step() returns (error: Option<Error>)
      modifies this
      ensures (View(), error) == MaybePart2(sch, old(View()))
    {
      if secret2.Some? || |packages1| != Peers(cfg) {
        return None;
      }
      if secret1.None? {
        return Some(MissingRound1Secret);
      }
      var secret := secret1.value;
      secret1 := None;
      part2Runs := part2Runs + 1;
      match sch.part2(secret, packages1) {
        case Part2Rejected(ids) =>
          var culprits := BlameNames(cfg.participants, ids);
          if culprits == [] {
            return Some(Frost);
          }
          var e := AbortWith(InPart2, culprits);
          error := Some(e);
        case Part2(secret, packages) =>
          secret2 := Some(secret);
          var ok := QueueRound2(packages);
          error := if ok then None else Some(Frost);
      }
    }

    method MaybePart3Step() returns (error: Option<Error>)
      modifies this
      ensures (View(), error) == MaybePart3(sch, old(View()))
    {
      if result.Some? || |packages2| != Peers(cfg) {
        return None;
      }
      if secret2.None? {
        return Some(MissingRound2Secret);
      }
      match sch.part3(secret2.value, packages1, packages2) {
        case Part3Rejected(ids) =>
          var culprits := BlameNames(cfg.participants, ids);
          if culprits == [] {
            return Some(Frost);
          }
          var e := AbortWith(InPart3, culprits);
          error := Some(e);
        case Part3(key, group) =>
          var groupKey, keyText, groupText := sch.printGroupKey(group), sch.printKey(key), sch.printGroup(group);
          if groupKey.None? || keyText.None? || groupText.None? {
            return Some(Frost);
          }
          result := Some(StoredShare(cfg.local, cfg.participants, cfg.localIndex, cfg.minSigners,
                                     |cfg.participants| % U16, groupKey.value, keyText.value, groupText.value));
          error := None;
      }
    }

    /** Feeding one inbound message performs exactly the transition `Handle`. */
    method HandleMessage(msg: Message) returns (outcome: Outcome)
      modifies this
      ensures (View(), outcome) == Handle(sch, old(View()), msg)
    {
      if result.Some? {
        return Fine(true);
      }
      var id := IdentifierFor(cfg.participants, msg.from);
      if id.None? {
        return Err(if msg.from in cfg.participants then Frost else LocalPartyNotSelected);
      }
      var bytes := sch.decodePayload(msg.payload);
      if bytes.None? {
        return Err(Codec);
      }
      var error: Option<Error>;
      match msg.kind {
        case Round1 =>
          if id.value != cfg.localIndex {
            var pkg := sch.parse1(bytes.value);
            if pkg.None? {
              var e := AbortWith(InRound1, [msg.from]);
              return Err(e);
            }
            packages1 := InsertFirst(packages1, id.value, pkg.value);
          }
          error := MaybePart2Step();
        case Round2 =>
          if id.value != cfg.localIndex {
            var pkg := sch.parse2(bytes.value);
            if pkg.None? {
              var e := AbortWith(InRound2, [msg.from]);
              return Err(e);
            }
            packages2 := InsertFirst(packages2, id.value, pkg.value);
          }
          error := MaybePart3Step();
        case Abort =>
          var culprits := sch.parseNames(bytes.value);
          aborted := Some(AbortInfo(PeerAbort, culprits));
          return Err(IdentifiableAbort(PeerAbort, culprits));
        case OtherKind(name) =>
          return Err(UnknownKind(name));
      }
      if error.Some? {
        return Err(error.value);
      }
      outcome := Fine(result.Some?);
    }
  }
}
