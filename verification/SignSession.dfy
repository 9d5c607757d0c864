/** The keysign round state machine `SignSession`
    (crates/thornado-bifrost-signer/src/frost_session.rs).

    The functions `MaybeSign`, `MaybeAggregate` and `Handle` give one transition
    on values; the class `Session` is the object that the daemon mutates, each of
    its methods proved to perform exactly that transition. The frost crate, base64
    and serde_json are the function values of a `Scheme`. */
module SignSession {
  import opened Names
  import opened Bytes

  // Values owned by the frost crate.
  type KeyPackage(!new)
  type PublicKeyPackage(!new)
  type Nonces(!new)
  type Commitments(!new)
  type Share(!new)
  type Signature(!new)
  /** The base64 text of a message payload. */
  type Payload(==, !new)

  /** The message tags "sign_round1", "sign_round2" and "sign_abort", or any other text. */
  datatype Kind = SignRound1 | SignRound2 | SignAbort | OtherKind(name: string)

  datatype ProtocolMessage = ProtocolMessage(kind: Kind, from: Name, to: seq<Name>, payload: Payload)

  datatype Phase = KeysignAggregate | PeerAbort

  datatype FrostError =
    | Frost
    | Codec
    | LocalPartyNotSelected
    | UnknownKind(name: string)
    | IdentifiableAbort(phase: Phase, culprits: seq<Name>)

  datatype AbortInfo = AbortInfo(phase: Phase, culprits: seq<Name>)

  datatype Outcome = Fine(finished: bool) | Err(error: FrostError)

  datatype SigningPackage = SigningPackage(commitments: map<nat, Commitments>, message: Bytes)

  datatype Aggregation = Aggregated(signature: Signature) | Rejected(culprits: seq<nat>)

  /** The external codecs and the frost crate, as deterministic functions. */
  datatype Scheme = Scheme(
    decodePayload: Payload -> Option<Bytes>,
    encodePayload: Bytes -> Payload,
    parseNames: Bytes -> seq<Name>,
    printNames: seq<Name> -> Bytes,
    parseCommitments: Bytes -> Option<Commitments>,
    printCommitments: Commitments -> Option<Bytes>,
    parseShare: Bytes -> Option<Share>,
    printShare: Share -> Bytes,
    sign: (SigningPackage, Nonces, KeyPackage, bool) -> Option<Share>,
    aggregate: (SigningPackage, map<nat, Share>, PublicKeyPackage, bool) -> Aggregation,
    verify: (PublicKeyPackage, Bytes, Signature) -> bool,
    printSignature: Signature -> Option<Bytes>,
    childTweak: (KeyPackage, PublicKeyPackage, Bytes) -> Option<(KeyPackage, PublicKeyPackage)>)

  datatype Loaded<+T> = Loaded(value: T) | Unreadable(error: FrostError)

  /** A stored keyshare; reading one of its two packages may fail. */
  datatype StoredShare = StoredShare(
    participants: seq<Name>,
    keyPackage: Loaded<KeyPackage>,
    publicKeyPackage: Loaded<PublicKeyPackage>)

  /** What a session never changes. */
  datatype Config = Config(
    local: Name,
    participants: seq<Name>,
    shareParticipants: seq<Name>,
    keyPackage: KeyPackage,
    publicKeyPackage: PublicKeyPackage,
    message: Bytes,
    taproot: bool)

  /** `signed` records, in order, the packages passed to `round2::sign` with this
      session's nonces; every other field is a field of the source's struct. */
  datatype State = State(
    cfg: Config,
    nonces: Option<Nonces>,
    commitments: map<nat, Commitments>,
    signatureShares: map<nat, Share>,
    pendingShares: map<nat, Share>,
    outputs: seq<ProtocolMessage>,
    result: Option<Bytes>,
    aborted: Option<AbortInfo>,
    signed: seq<SigningPackage>)

  /** Why `identifier_for` refused: an unknown name, or a position with no identifier. */
  function IdentifierError(ps: seq<Name>, party: Name): FrostError {
    if party in ps then Frost else LocalPartyNotSelected
  }

  datatype NewResult = Started(state: State) | Refused(error: FrostError)

  /** `new_inner`; the nonces and their commitments come from the random generator. */
  function New(sch: Scheme, share: StoredShare, local: Name, rawParticipants: seq<Name>, message: Bytes,
               taproot: bool, childTweak: Option<Bytes>, nonces: Nonces, commitments: Commitments): NewResult
  {
    var participants := NormalizeParticipants(rawParticipants);
    if local !in participants then Refused(LocalPartyNotSelected)
    else
      var shareParticipants := NormalizeParticipants(share.participants);
      if exists p :: p in participants && p !in shareParticipants then Refused(Frost)
      else if share.keyPackage.Unreadable? then Refused(share.keyPackage.error)
      else if share.publicKeyPackage.Unreadable? then Refused(share.publicKeyPackage.error)
      else
        var packages :=
          match childTweak
          case None => Some((share.keyPackage.value, share.publicKeyPackage.value))
          case Some(t) => sch.childTweak(share.keyPackage.value, share.publicKeyPackage.value, t);
        if packages.None? || sch.printCommitments(commitments).None? then Refused(Frost)
        else
          var round1 := ProtocolMessage(SignRound1, local, Others(participants, local),
                                        sch.encodePayload(sch.printCommitments(commitments).value));
          match IdentifierFor(shareParticipants, local)
          case None => Refused(Frost)
          case Some(id) =>
            var cfg := Config(local, participants, shareParticipants, packages.value.0, packages.value.1, message, taproot);
            Started(State(cfg, Some(nonces), map[id := commitments], map[], map[], [round1], None, None, []))
  }

  /** `maybe_aggregate`: the new state and the error raised, if any. */
  function MaybeAggregate(sch: Scheme, st: State): (State, Option<FrostError>) {
    if |st.signatureShares| != |st.cfg.participants| then (st, None)
    else if |st.commitments| != |st.cfg.participants| then (st, None)
    else
      match sch.aggregate(SigningPackage(st.commitments, st.cfg.message), st.signatureShares, st.cfg.publicKeyPackage, st.cfg.taproot)
      case Rejected(ids) =>
        var culprits := BlameNames(st.cfg.shareParticipants, ids);
        if culprits == [] then (st, Some(Frost))
        else
          var abort := ProtocolMessage(SignAbort, st.cfg.local, Others(st.cfg.participants, st.cfg.local),
                                       sch.encodePayload(sch.printNames(culprits)));
          (st.(aborted := Some(AbortInfo(KeysignAggregate, culprits)), outputs := st.outputs + [abort]),
           Some(IdentifiableAbort(KeysignAggregate, culprits)))
      case Aggregated(sig) =>
        if !st.cfg.taproot && !sch.verify(st.cfg.publicKeyPackage, st.cfg.message, sig) then (st, Some(Frost))
        else
          match sch.printSignature(sig)
          case None => (st, Some(Frost))
          case Some(bytes) =>
            if |bytes| != 64 then (st, Some(Frost))
            else (st.(result := Some(bytes)), None)
  }

  /** `maybe_sign`: take the nonces once every commitment is in. */
  function MaybeSign(sch: Scheme, st: State): (State, Option<FrostError>) {
    if st.nonces.None? then (st, None)
    else if |st.commitments| != |st.cfg.participants| then (st, None)
    else
      var package := SigningPackage(st.commitments, st.cfg.message);
      var taken := st.(nonces := None, signed := st.signed + [package]);
      match sch.sign(package, st.nonces.value, st.cfg.keyPackage, st.cfg.taproot)
      case None => (taken, Some(Frost))
      case Some(share) =>
        match IdentifierFor(st.cfg.shareParticipants, st.cfg.local)
        case None => (taken, Some(Frost))
        case Some(id) =>
          MaybeAggregate(sch, SharesIn(sch, taken, id, share))
  }

  /** The own share and the early ones are in, and the own one is queued for the others. */
  function SharesIn(sch: Scheme, st: State, id: nat, share: Share): State {
    var round2 := ProtocolMessage(SignRound2, st.cfg.local, Others(st.cfg.participants, st.cfg.local),
                                  sch.encodePayload(sch.printShare(share)));
    st.(signatureShares := st.signatureShares[id := share] + st.pendingShares,
        pendingShares := map[],
        outputs := st.outputs + [round2])
  }

  function Settle(step: (State, Option<FrostError>)): (State, Outcome) {
    match step.1
    case Some(e) => (step.0, Err(e))
    case None => (step.0, Fine(step.0.result.Some?))
  }

  /** `handle`: the new state and what the call returns. */
  function Handle(sch: Scheme, st: State, msg: ProtocolMessage): (State, Outcome) {
    if st.result.Some? then (st, Fine(true))
    else
      match IdentifierFor(st.cfg.shareParticipants, msg.from)
      case None => (st, Err(IdentifierError(st.cfg.shareParticipants, msg.from)))
      case Some(id) =>
        match sch.decodePayload(msg.payload)
        case None => (st, Err(Codec))
        case Some(bytes) =>
          if msg.kind == SignRound1 then
            match sch.parseCommitments(bytes)
            case None => (st, Err(Frost))
            case Some(c) => Settle(MaybeSign(sch, st.(commitments := st.commitments[id := c])))
          else if msg.kind == SignRound2 then
            match sch.parseShare(bytes)
            case None => (st, Err(Frost))
            case Some(s) =>
              Settle(MaybeAggregate(sch,
                if |st.commitments| == |st.cfg.participants|
                then st.(signatureShares := st.signatureShares[id := s])
                else st.(pendingShares := st.pendingShares[id := s])))
          else if msg.kind == SignAbort then
            var culprits := sch.parseNames(bytes);
            (st.(aborted := Some(AbortInfo(PeerAbort, culprits))),
             Err(IdentifiableAbort(PeerAbort, culprits)))
          else (st, Err(UnknownKind(msg.kind.name)))
  }

  /** The object the daemon holds. */
  class Session {
    const sch: Scheme
    const cfg: Config
    var nonces: Option<Nonces>
    var commitments: map<nat, Commitments>
    var signatureShares: map<nat, Share>
    var pendingShares: map<nat, Share>
    var outputs: seq<ProtocolMessage>
    var result: Option<Bytes>
    var aborted: Option<AbortInfo>
    ghost var signed: seq<SigningPackage>

    ghost function View(): State
      reads this
    {
      State(cfg, nonces, commitments, signatureShares, pendingShares, outputs, result, aborted, signed)
    }

    constructor (sch: Scheme, st: State)
      ensures this.sch == sch && View() == st
    {
      this.sch, cfg := sch, st.cfg;
      nonces, commitments := st.nonces, st.commitments;
      signatureShares, pendingShares := st.signatureShares, st.pendingShares;
      outputs, result, aborted, signed := st.outputs, st.result, st.aborted, st.signed;
    }

    method DrainOutputs() returns (drained: seq<ProtocolMessage>)
      modifies this`outputs
      ensures drained == old(outputs) && View() == old(View()).(outputs := [])
    {
      drained := outputs;
      outputs := [];
    }

    method MaybeAggregateStep() returns (error: Option<FrostError>)
      modifies this
      ensures (View(), error) == MaybeAggregate(sch, old(View()))
    {
      if |signatureShares| != |cfg.participants| || |commitments| != |cfg.participants| {
        return None;
      }
      var agg := sch.aggregate(SigningPackage(commitments, cfg.message), signatureShares, cfg.publicKeyPackage, cfg.taproot);
      match agg {
        case Rejected(ids) =>
          var culprits := BlameNames(cfg.shareParticipants, ids);
          if culprits == [] {
            return Some(Frost);
          }
          aborted := Some(AbortInfo(KeysignAggregate, culprits));
          outputs := outputs + [ProtocolMessage(SignAbort, cfg.local, Others(cfg.participants, cfg.local),
                                                sch.encodePayload(sch.printNames(culprits)))];
          error := Some(IdentifiableAbort(KeysignAggregate, culprits));
        case Aggregated(sig) =>
          if !cfg.taproot && !sch.verify(cfg.publicKeyPackage, cfg.message, sig) {
            return Some(Frost);
          }
          match sch.printSignature(sig) {
            case None => error := Some(Frost);
            case Some(bytes) =>
              if |bytes| != 64 {
                return Some(Frost);
              }
              result := Some(bytes);
              error := None;
          }
      }
    }

    method MaybeSignStep() returns (error: Option<FrostError>)
      modifies this
      ensures (View(), error) == MaybeSign(sch, old(View()))
    {
      if nonces.None? || |commitments| != |cfg.participants| {
        return None;
      }
      var package := SigningPackage(commitments, cfg.message);
      var taken := nonces.value;
      nonces := None;
      signed := signed + [package];
      var signedShare := sch.sign(package, taken, cfg.keyPackage, cfg.taproot);
      if signedShare.None? {
        return Some(Frost);
      }
      var id := IdentifierFor(cfg.shareParticipants, cfg.local);
      if id.None? {
        return Some(Frost);
      }
      ghost var taken' := View();
      signatureShares := signatureShares[id.value := signedShare.value];
      var pending := pendingShares;
      pendingShares := map[];
      signatureShares := signatureShares + pending;
      outputs := outputs + [ProtocolMessage(SignRound2, cfg.local, Others(cfg.participants, cfg.local),
                                            sch.encodePayload(sch.printShare(signedShare.value)))];
      assert View() == SharesIn(sch, taken', id.value, signedShare.value);
      error := MaybeAggregateStep();
    }

    /** Feeding one inbound message performs exactly the transition `Handle`. */
    method HandleMessage(msg: ProtocolMessage) returns (outcome: Outcome)
      modifies this
      ensures (View(), outcome) == Handle(sch, old(View()), msg)
    {
      if result.Some? {
        return Fine(true);
      }
      var id := IdentifierFor(cfg.shareParticipants, msg.from);
      if id.None? {
        return Err(IdentifierError(cfg.shareParticipants, msg.from));
      }
      var bytes := sch.decodePayload(msg.payload);
      if bytes.None? {
        return Err(Codec);
      }
      var error: Option<FrostError>;
      if msg.kind == SignRound1 {
        var c := sch.parseCommitments(bytes.value);
        if c.None? {
          return Err(Frost);
        }
        commitments := commitments[id.value := c.value];
        error := MaybeSignStep();
      } else if msg.kind == SignRound2 {
        var s := sch.parseShare(bytes.value);
        if s.None? {
          return Err(Frost);
        }
        if |commitments| == |cfg.participants| {
          signatureShares := signatureShares[id.value := s.value];
        } else {
          pendingShares := pendingShares[id.value := s.value];
        }
        error := MaybeAggregateStep();
      } else if msg.kind == SignAbort {
        var culprits := sch.parseNames(bytes.value);
        aborted := Some(AbortInfo(PeerAbort, culprits));
        return Err(IdentifiableAbort(PeerAbort, culprits));
      } else {
        return Err(UnknownKind(msg.kind.name));
      }
      if error.Some? {
        return Err(error.value);
      }
      outcome := Fine(result.Some?);
    }
  }

  // ---- single use of the nonces, whatever arrives ----

  function Drained(st: State): State {
    st.(outputs := [])
  }

  /** A session fed any messages, its outputs drained after each: the last state
      and everything it queued. */
  function Feed(sch: Scheme, st: State, msgs: seq<ProtocolMessage>): (State, seq<ProtocolMessage>)
    decreases |msgs|
  {
    if msgs == [] then (Drained(st), st.outputs)
    else
      var rest := Feed(sch, Handle(sch, Drained(st), msgs[0]).0, msgs[1..]);
      (rest.0, st.outputs + rest.1)
  }

  function Round2Count(ms: seq<ProtocolMessage>): nat {
    if ms == [] then 0
    else (if ms[0].kind == SignRound2 then 1 else 0) + Round2Count(ms[1..])
  }

  lemma {:induction false} Round2CountConcat(a: seq<ProtocolMessage>, b: seq<ProtocolMessage>)
    ensures Round2Count(a + b) == Round2Count(a) + Round2Count(b)
  {
    if a == [] {
      assert a + b == b;
    } else {
      Round2CountConcat(a[1..], b);
      assert (a + b)[1..] == a[1..] + b;
    }
  }

  function Unused(st: State): nat {
    if st.nonces.Some? then 1 else 0
  }

  /** The stored signature is the aggregate over the session's own commitments and shares; for a raw
      key it was verified. */
  ghost predicate ResultIsAggregate(sch: Scheme, st: State) {
    st.result.Some? ==>
      && |st.commitments| == |st.signatureShares| == |st.cfg.participants|
      && var agg := sch.aggregate(SigningPackage(st.commitments, st.cfg.message), st.signatureShares,
                                  st.cfg.publicKeyPackage, st.cfg.taproot);
      && agg.Aggregated? && sch.printSignature(agg.signature) == st.result && |st.result.value| == 64
      && (st.cfg.taproot || sch.verify(st.cfg.publicKeyPackage, st.cfg.message, agg.signature))
  }

  /** A use of the nonces is paid for by giving them up, and a queued share by a use. */
  ghost predicate Spends(sch: Scheme, st: State, st': State) {
    && |st'.signed| + Unused(st') == |st.signed| + Unused(st)
    && Round2Count(st'.outputs) <= Round2Count(st.outputs) + |st'.signed| - |st.signed|
    && ResultIsAggregate(sch, st')
  }

  lemma MaybeAggregateSpends(sch: Scheme, st: State)
    requires st.result.None?
    ensures Spends(sch, st, MaybeAggregate(sch, st).0)
  {
    var st' := MaybeAggregate(sch, st).0;
    if st'.outputs != st.outputs {
      var abort := st'.outputs[|st.outputs|];
      assert st'.outputs == st.outputs + [abort];
      Round2CountConcat(st.outputs, [abort]);
    }
  }

  lemma MaybeSignSpends(sch: Scheme, st: State)
    requires st.result.None?
    ensures Spends(sch, st, MaybeSign(sch, st).0)
  {
    if st.nonces.Some? && |st.commitments| == |st.cfg.participants| {
      var package := SigningPackage(st.commitments, st.cfg.message);
      var taken := st.(nonces := None, signed := st.signed + [package]);
      var share := sch.sign(package, st.nonces.value, st.cfg.keyPackage, st.cfg.taproot);
      var id := IdentifierFor(st.cfg.shareParticipants, st.cfg.local);
      if share.Some? && id.Some? {
        var next := SharesIn(sch, taken, id.value, share.value);
        Round2CountConcat(st.outputs, next.outputs[|st.outputs|..]);
        assert next.outputs == st.outputs + next.outputs[|st.outputs|..];
        MaybeAggregateSpends(sch, next);
      }
    }
  }

  lemma Round1Spends(sch: Scheme, st: State, msg: ProtocolMessage)
    requires st.result.None? && msg.kind == SignRound1
    ensures Spends(sch, st, Handle(sch, st, msg).0)
  {
    var id := IdentifierFor(st.cfg.shareParticipants, msg.from);
    var bytes := sch.decodePayload(msg.payload);
    if id.Some? && bytes.Some? {
      var c := sch.parseCommitments(bytes.value);
      if c.Some? {
        MaybeSignSpends(sch, st.(commitments := st.commitments[id.value := c.value]));
      }
    }
  }

  lemma Round2Spends(sch: Scheme, st: State, msg: ProtocolMessage)
    requires st.result.None? && msg.kind == SignRound2
    ensures Spends(sch, st, Handle(sch, st, msg).0)
  {
    var id := IdentifierFor(st.cfg.shareParticipants, msg.from);
    var bytes := sch.decodePayload(msg.payload);
    if id.Some? && bytes.Some? {
      var s := sch.parseShare(bytes.value);
      if s.Some? {
        MaybeAggregateSpends(sch, st.(signatureShares := st.signatureShares[id.value := s.value]));
        MaybeAggregateSpends(sch, st.(pendingShares := st.pendingShares[id.value := s.value]));
      }
    }
  }

  lemma HandleSpends(sch: Scheme, st: State, msg: ProtocolMessage)
    requires ResultIsAggregate(sch, st)
    ensures Spends(sch, st, Handle(sch, st, msg).0)
    ensures st.result.Some? ==> Handle(sch, st, msg).0 == st
  {
    if st.result.None? {
      match msg.kind
      case SignRound1 => Round1Spends(sch, st, msg);
      case SignRound2 => Round2Spends(sch, st, msg);
      case _ =>
    }
  }

  /** For every sequence of messages, malformed or foreign ones included, a fresh
      session signs at most once with its nonces, queues at most one round-2
      message and no more than it signed, and never changes its result once set;
      the result is the aggregate over the session's commitments and shares. */
  lemma {:induction false} NoncesUsedOnce(sch: Scheme, st: State, msgs: seq<ProtocolMessage>)
    requires ResultIsAggregate(sch, st)
    ensures var (end, sent) := Feed(sch, st, msgs);
      && |end.signed| + Unused(end) == |st.signed| + Unused(st)
      && Round2Count(sent) <= Round2Count(st.outputs) + |end.signed| - |st.signed|
      && (st.result.Some? ==> end == Drained(st))
      && ResultIsAggregate(sch, end)
    decreases |msgs|
  {
    if msgs != [] {
      HandleSpends(sch, Drained(st), msgs[0]);
      var next := Handle(sch, Drained(st), msgs[0]).0;
      NoncesUsedOnce(sch, next, msgs[1..]);
      Round2CountConcat(st.outputs, Feed(sch, next, msgs[1..]).1);
      assert st.result.Some? ==> next == Drained(st);
    }
  }

  ghost predicate Fresh(st: State) {
    st.nonces.Some? && st.signed == [] && st.result.None? && Round2Count(st.outputs) == 0
  }

  lemma NewIsFresh(sch: Scheme, share: StoredShare, local: Name, raw: seq<Name>, message: Bytes,
                   taproot: bool, tweak: Option<Bytes>, nonces: Nonces, c: Commitments)
    requires New(sch, share, local, raw, message, taproot, tweak, nonces, c).Started?
    ensures Fresh(New(sch, share, local, raw, message, taproot, tweak, nonces, c).state)
  {
    var st := New(sch, share, local, raw, message, taproot, tweak, nonces, c).state;
    assert st.outputs[1..] == [];
  }

  /** A session starts exactly for members of the share, this party among them, when the packages,
      the tweak and the commitments can be used and the party has an identifier. */
  lemma StartsIff(sch: Scheme, share: StoredShare, local: Name, raw: seq<Name>, message: Bytes,
                  taproot: bool, tweak: Option<Bytes>, nonces: Nonces, c: Commitments)
    ensures New(sch, share, local, raw, message, taproot, tweak, nonces, c).Started? <==>
      && local in raw && (forall p :: p in raw ==> p in share.participants)
      && share.keyPackage.Loaded? && share.publicKeyPackage.Loaded? && sch.printCommitments(c).Some?
      && (tweak.Some? ==> sch.childTweak(share.keyPackage.value, share.publicKeyPackage.value, tweak.value).Some?)
      && IdentifierFor(NormalizeParticipants(share.participants), local).Some?
  {
    NormalizeIsCanonical(raw);
    NormalizeIsCanonical(share.participants);
    var ps, holders := NormalizeParticipants(raw), NormalizeParticipants(share.participants);
    forall p ensures (p in ps <==> p in raw) && (p in holders <==> p in share.participants) {
      assert p in Elems(ps) <==> p in Elems(raw);
      assert p in Elems(holders) <==> p in Elems(share.participants);
    }
  }

  /** Its first and only message carries its commitment to every other selected member, once. */
  lemma StartAnnounces(sch: Scheme, share: StoredShare, local: Name, raw: seq<Name>, message: Bytes,
                       taproot: bool, tweak: Option<Bytes>, nonces: Nonces, c: Commitments)
    requires New(sch, share, local, raw, message, taproot, tweak, nonces, c).Started?
    ensures var st := New(sch, share, local, raw, message, taproot, tweak, nonces, c).state;
      && |st.outputs| == 1 && st.outputs[0].kind == SignRound1 && st.outputs[0].from == local
      && st.outputs[0].payload == sch.encodePayload(sch.printCommitments(c).value)
      && Everyone(st.outputs[0].to, raw, local)
  {
    NormalizeIsCanonical(raw);
    OthersOnce(NormalizeParticipants(raw), local);
    forall p ensures p in NormalizeParticipants(raw) <==> p in raw {
      assert p in Elems(NormalizeParticipants(raw)) <==> p in Elems(raw);
    }
  }

  /** The whole life of a session as `New` leaves it, cut anywhere. */
  lemma FreshSessionSignsAtMostOnce(sch: Scheme, st: State, before: seq<ProtocolMessage>, after: seq<ProtocolMessage>)
    requires Fresh(st)
    ensures var mid := Feed(sch, st, before).0;
      var (end, sent) := Feed(sch, st, before + after);
      && |end.signed| <= 1
      && Round2Count(sent) <= |end.signed|
      && (mid.result.Some? ==> end == mid)
  {
    NoncesUsedOnce(sch, st, before + after);
    NoncesUsedOnce(sch, st, before);
    FeedConcat(sch, st, before, after);
    NoncesUsedOnce(sch, Feed(sch, st, before).0, after);
    FeedEndsDrained(sch, st, before);
  }

  lemma {:induction false} FeedEndsDrained(sch: Scheme, st: State, msgs: seq<ProtocolMessage>)
    ensures Feed(sch, st, msgs).0.outputs == []
    decreases |msgs|
  {
    if msgs != [] {
      FeedEndsDrained(sch, Handle(sch, Drained(st), msgs[0]).0, msgs[1..]);
    }
  }

  lemma {:induction false} FeedConcat(sch: Scheme, st: State, before: seq<ProtocolMessage>, after: seq<ProtocolMessage>)
    ensures Feed(sch, st, before + after).0 == Feed(sch, Feed(sch, st, before).0, after).0
    decreases |before|
  {
    if before == [] {
      assert before + after == after;
      FeedDrained(sch, st, after);
    } else {
      assert (before + after)[1..] == before[1..] + after;
      FeedConcat(sch, Handle(sch, Drained(st), before[0]).0, before[1..], after);
    }
  }

  lemma FeedDrained(sch: Scheme, st: State, msgs: seq<ProtocolMessage>)
    ensures Feed(sch, st, msgs).0 == Feed(sch, Drained(st), msgs).0
  {
  }
}
