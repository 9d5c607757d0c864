/** Whom a signing session blames, and what it tells the others. */
module SignBlame {
  import opened Names
  import opened Bytes
  import opened SignSession

  /** The selected members and the holders of the shares are lists without repeats, the holders
      few enough to have an identifier each. */
  ghost predicate Sized(cfg: Config) {
    && Distinct(cfg.participants) && Distinct(cfg.shareParticipants) && |cfg.shareParticipants| < U16
  }

  /** One message that tells every other selected member who is blamed. */
  ghost predicate Tells(sch: Scheme, cfg: Config, m: ProtocolMessage, ms: seq<Name>) {
    && m.kind == SignAbort && m.from == cfg.local && m.payload == sch.encodePayload(sch.printNames(ms))
    && Everyone(m.to, cfg.participants, cfg.local)
  }

  /** `after` is `before` with these shares and early ones, the blame recorded and, last of all that
      is queued, told to the others. */
  ghost predicate Blamed(sch: Scheme, before: State, shares: map<nat, Share>, early: map<nat, Share>, queued: seq<ProtocolMessage>,
                         ms: seq<Name>, after: State) {
    && |after.outputs| == |queued| + 1 && after.outputs[..|queued|] == queued && Tells(sch, before.cfg, after.outputs[|queued|], ms)
    && after == before.(signatureShares := shares, pendingShares := early, outputs := after.outputs,
                        aborted := Some(AbortInfo(KeysignAggregate, ms)))
  }

  /** A message that can be read, of the member at position `id` among all holders. */
  predicate Reads(sch: Scheme, cfg: Config, msg: ProtocolMessage, kind: Kind, id: nat, bytes: Bytes) {
    && msg.kind == kind && sch.decodePayload(msg.payload) == Some(bytes)
    && 1 <= id <= |cfg.shareParticipants| && cfg.shareParticipants[id - 1] == msg.from
  }

  /** Everything is in and the aggregation rejects the shares with these identifiers. */
  ghost predicate Rejects(sch: Scheme, cfg: Config, commitments: map<nat, Commitments>, shares: map<nat, Share>, ids: seq<nat>) {
    && |commitments| == |shares| == |cfg.participants|
    && sch.aggregate(SigningPackage(commitments, cfg.message), shares, cfg.publicKeyPackage, cfg.taproot) == Rejected(ids)
  }

  /** The session's own share, made when the last commitment is in. */
  ghost predicate Signs(sch: Scheme, st: State, commitments: map<nat, Commitments>, own: nat, share: Share) {
    && st.nonces.Some? && 1 <= own <= |st.cfg.shareParticipants| && st.cfg.shareParticipants[own - 1] == st.cfg.local
    && sch.sign(SigningPackage(commitments, st.cfg.message), st.nonces.value, st.cfg.keyPackage, st.cfg.taproot) == Some(share)
  }

  /** The last share makes the aggregation reject the shares of members `ms`: exactly those are
      blamed, by the identifiers key generation dealt, and everybody else is told once. */
  lemma LastShareBlames(sch: Scheme, st: State, msg: ProtocolMessage, id: nat, bytes: Bytes, s: Share, ids: seq<nat>, ms: seq<Name>)
    requires Sized(st.cfg) && st.result.None? && Reads(sch, st.cfg, msg, SignRound2, id, bytes) && sch.parseShare(bytes) == Some(s)
    requires Rejects(sch, st.cfg, st.commitments, st.signatureShares[id := s], ids)
    requires HeldBy(st.cfg.shareParticipants, ids, ms) && ms != []
    ensures Handle(sch, st, msg).1 == Err(IdentifiableAbort(KeysignAggregate, ms))
    ensures Blamed(sch, st, st.signatureShares[id := s], st.pendingShares, st.outputs, ms, Handle(sch, st, msg).0)
  {
    StandsAt(st.cfg.shareParticipants, msg.from, id);
    BlameHolders(st.cfg.shareParticipants, ids, ms);
    OthersOnce(st.cfg.participants, st.cfg.local);
  }

  /** The last share, nothing being rejected: the signature is kept exactly when it can be printed in
      64 bytes and, for a raw key, verifies; otherwise the session fails without one. */
  lemma LastShareSettles(sch: Scheme, st: State, msg: ProtocolMessage, id: nat, bytes: Bytes, s: Share, sig: Signature)
    requires Sized(st.cfg) && st.result.None? && Reads(sch, st.cfg, msg, SignRound2, id, bytes) && sch.parseShare(bytes) == Some(s)
    requires |st.commitments| == |st.signatureShares[id := s]| == |st.cfg.participants|
    requires sch.aggregate(SigningPackage(st.commitments, st.cfg.message), st.signatureShares[id := s], st.cfg.publicKeyPackage,
                           st.cfg.taproot) == Aggregated(sig)
    ensures var text := sch.printSignature(sig);
      var good := text.Some? && |text.value| == 64 && (st.cfg.taproot || sch.verify(st.cfg.publicKeyPackage, st.cfg.message, sig));
      && Handle(sch, st, msg).0 == st.(signatureShares := st.signatureShares[id := s], result := if good then text else None)
      && Handle(sch, st, msg).1 == if good then Fine(true) else Err(Frost)
  {
    StandsAt(st.cfg.shareParticipants, msg.from, id);
  }

  /** The message that carries the own share. */
  ghost predicate Carries(sch: Scheme, cfg: Config, m: ProtocolMessage, share: Share) {
    && m.kind == SignRound2 && m.from == cfg.local && m.payload == sch.encodePayload(sch.printShare(share))
    && Everyone(m.to, cfg.participants, cfg.local)
  }

  /** The same when the last commitment completes the shares, early ones having arrived before it:
      the own share is sent first. */
  lemma LastCommitmentBlames(sch: Scheme, st: State, msg: ProtocolMessage, id: nat, bytes: Bytes, c: Commitments, own: nat, share: Share,
                             ids: seq<nat>, ms: seq<Name>) returns (round2: ProtocolMessage)
    requires Sized(st.cfg) && st.result.None? && Reads(sch, st.cfg, msg, SignRound1, id, bytes) && sch.parseCommitments(bytes) == Some(c)
    requires Signs(sch, st, st.commitments[id := c], own, share)
    requires Rejects(sch, st.cfg, st.commitments[id := c], st.signatureShares[own := share] + st.pendingShares, ids)
    requires HeldBy(st.cfg.shareParticipants, ids, ms) && ms != []
    ensures Carries(sch, st.cfg, round2, share)
    ensures Handle(sch, st, msg).1 == Err(IdentifiableAbort(KeysignAggregate, ms))
    ensures var spent := st.(commitments := st.commitments[id := c], nonces := None,
                             signed := st.signed + [SigningPackage(st.commitments[id := c], st.cfg.message)]);
      Blamed(sch, spent, st.signatureShares[own := share] + st.pendingShares, map[], st.outputs + [round2], ms, Handle(sch, st, msg).0)
  {
    var cfg := st.cfg;
    StandsAt(cfg.shareParticipants, msg.from, id);
    StandsAt(cfg.shareParticipants, cfg.local, own);
    BlameHolders(cfg.shareParticipants, ids, ms);
    OthersOnce(cfg.participants, cfg.local);
    round2 := ProtocolMessage(SignRound2, cfg.local, Others(cfg.participants, cfg.local), sch.encodePayload(sch.printShare(share)));
    var mid := st.(commitments := st.commitments[id := c]);
    var spent := mid.(nonces := None, signed := mid.signed + [SigningPackage(mid.commitments, cfg.message)]);
    assert MaybeSign(sch, mid) == MaybeAggregate(sch, SharesIn(sch, spent, own, share));
  }

  /** A rejection that points at no holder blames nobody and tells nobody. */
  lemma NobodyToBlame(sch: Scheme, st: State, msg: ProtocolMessage, id: nat, bytes: Bytes, s: Share, ids: seq<nat>)
    requires Sized(st.cfg) && st.result.None? && Reads(sch, st.cfg, msg, SignRound2, id, bytes) && sch.parseShare(bytes) == Some(s)
    requires Rejects(sch, st.cfg, st.commitments, st.signatureShares[id := s], ids) && HeldByNobody(st.cfg.shareParticipants, ids)
    ensures Handle(sch, st, msg) == (st.(signatureShares := st.signatureShares[id := s]), Err(Frost))
  {
    StandsAt(st.cfg.shareParticipants, msg.from, id);
    BlameNobodyIff(st.cfg.shareParticipants, ids);
  }

  /** A message from a stranger, one that cannot be read and one of another kind are refused without a trace,
      and a finished session takes nothing in. */
  lemma RefusedWithoutTrace(sch: Scheme, st: State, msg: ProtocolMessage)
    requires Sized(st.cfg)
    ensures st.result.Some? ==> Handle(sch, st, msg) == (st, Fine(true))
    ensures st.result.None? && msg.from !in st.cfg.shareParticipants ==> Handle(sch, st, msg) == (st, Err(LocalPartyNotSelected))
    ensures st.result.None? && msg.from in st.cfg.shareParticipants ==>
      match sch.decodePayload(msg.payload)
      case None => Handle(sch, st, msg) == (st, Err(Codec))
      case Some(bytes) =>
        && (msg.kind == SignRound1 && sch.parseCommitments(bytes).None? ==> Handle(sch, st, msg) == (st, Err(Frost)))
        && (msg.kind == SignRound2 && sch.parseShare(bytes).None? ==> Handle(sch, st, msg) == (st, Err(Frost)))
        && (msg.kind.OtherKind? ==> Handle(sch, st, msg) == (st, Err(UnknownKind(msg.kind.name))))
  {
    if msg.from in st.cfg.shareParticipants {
      IdentifierRoundTrip(st.cfg.shareParticipants, msg.from);
    }
  }

  /** A peer's abort is recorded under the names it carries; nothing is sent on. */
  lemma PeerAbortRecorded(sch: Scheme, st: State, msg: ProtocolMessage, id: nat, bytes: Bytes)
    requires Sized(st.cfg) && st.result.None? && Reads(sch, st.cfg, msg, SignAbort, id, bytes)
    ensures Handle(sch, st, msg) ==
      (st.(aborted := Some(AbortInfo(PeerAbort, sch.parseNames(bytes)))), Err(IdentifiableAbort(PeerAbort, sch.parseNames(bytes))))
  {
    StandsAt(st.cfg.shareParticipants, msg.from, id);
  }

  /** Members blamed for the aggregation are blamed for nothing else: all commitments and shares are in
      and rejected, and each of them stands at a rejected identifier. */
  lemma BlameHasCause(sch: Scheme, st: State, msg: ProtocolMessage, ms: seq<Name>) returns (ids: seq<nat>)
    requires Handle(sch, st, msg).1 == Err(IdentifiableAbort(KeysignAggregate, ms))
    ensures var after := Handle(sch, st, msg).0; Rejects(sch, st.cfg, after.commitments, after.signatureShares, ids)
    ensures forall p :: p in ms ==> Stands(st.cfg.shareParticipants, ids, p)
  {
    ids := AggregationRejected(sch, st, msg, ms);
    BlamedStands(st.cfg.shareParticipants, ids);
  }

  lemma StepRejected(sch: Scheme, st: State, ms: seq<Name>) returns (ids: seq<nat>)
    requires MaybeAggregate(sch, st).1 == Some(IdentifiableAbort(KeysignAggregate, ms))
    ensures var after := MaybeAggregate(sch, st).0; Rejects(sch, st.cfg, after.commitments, after.signatureShares, ids)
    ensures ms == BlameNames(st.cfg.shareParticipants, ids)
  {
    ids := sch.aggregate(SigningPackage(st.commitments, st.cfg.message), st.signatureShares, st.cfg.publicKeyPackage, st.cfg.taproot).culprits;
  }

  lemma SignStepRejected(sch: Scheme, st: State, ms: seq<Name>) returns (ids: seq<nat>)
    requires MaybeSign(sch, st).1 == Some(IdentifiableAbort(KeysignAggregate, ms))
    ensures var after := MaybeSign(sch, st).0; Rejects(sch, st.cfg, after.commitments, after.signatureShares, ids)
    ensures ms == BlameNames(st.cfg.shareParticipants, ids)
  {
    var package := SigningPackage(st.commitments, st.cfg.message);
    var taken := st.(nonces := None, signed := st.signed + [package]);
    var share := sch.sign(package, st.nonces.value, st.cfg.keyPackage, st.cfg.taproot).value;
    var id := IdentifierFor(st.cfg.shareParticipants, st.cfg.local).value;
    ids := StepRejected(sch, SharesIn(sch, taken, id, share), ms);
  }

  lemma AggregationRejected(sch: Scheme, st: State, msg: ProtocolMessage, ms: seq<Name>) returns (ids: seq<nat>)
    requires Handle(sch, st, msg).1 == Err(IdentifiableAbort(KeysignAggregate, ms))
    ensures var after := Handle(sch, st, msg).0; Rejects(sch, st.cfg, after.commitments, after.signatureShares, ids)
    ensures ms == BlameNames(st.cfg.shareParticipants, ids)
  {
    var id := IdentifierFor(st.cfg.shareParticipants, msg.from).value;
    var bytes := sch.decodePayload(msg.payload).value;
    if msg.kind == SignRound1 {
      ids := SignStepRejected(sch, st.(commitments := st.commitments[id := sch.parseCommitments(bytes).value]), ms);
    } else {
      var s := sch.parseShare(bytes).value;
      ids := StepRejected(sch, if |st.commitments| == |st.cfg.participants| then st.(signatureShares := st.signatureShares[id := s])
                               else st.(pendingShares := st.pendingShares[id := s]), ms);
    }
  }
}
