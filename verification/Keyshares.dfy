/** From key generation to signing: a stored keyshare, read back, gives every member of every signing
    party the identifier it was dealt. */
module Keyshares {
  import opened Names
  import opened Bytes
  import opened SignSession
  import K = KeygenSession
  import KP = KeygenProtocol

  /** How the two packages of a stored share are read. */
  datatype Reader = Reader(key: string -> Loaded<KeyPackage>, group: string -> Loaded<PublicKeyPackage>)

  /** The share that key generation stored, as signing loads it. */
  function ForSigning(r: Reader, k: K.StoredShare): StoredShare {
    StoredShare(k.participants, r.key(k.keyPackage), r.group(k.publicKeyPackage))
  }

  /** What a session is started with besides the share, and that its packages can be read and printed. */
  datatype Request = Request(raw: seq<Name>, message: Bytes, taproot: bool, tweak: Option<Bytes>, nonces: Nonces, commits: Commitments)

  predicate Loads(sch: Scheme, share: StoredShare, q: Request) {
    && share.keyPackage.Loaded? && share.publicKeyPackage.Loaded? && sch.printCommitments(q.commits).Some?
    && (q.tweak.Some? ==> sch.childTweak(share.keyPackage.value, share.publicKeyPackage.value, q.tweak.value).Some?)
  }

  function Open(sch: Scheme, share: StoredShare, local: Name, q: Request): NewResult {
    New(sch, share, local, q.raw, q.message, q.taproot, q.tweak, q.nonces, q.commits)
  }

  /** A session for members of the share starts, files its own commitment under its identifier among
      all holders, and maps every name by its place among all holders. */
  lemma OpensByHolder(sch: Scheme, share: StoredShare, local: Name, q: Request, holders: seq<Name>, id: nat)
    requires Loads(sch, share, q) && local in q.raw && NormalizeParticipants(share.participants) == holders
    requires (forall p :: p in q.raw ==> p in holders) && IdentifierFor(holders, local) == Some(id)
    ensures Open(sch, share, local, q).Started?
    ensures var st := Open(sch, share, local, q).state;
      st.commitments == map[id := q.commits] && st.cfg.shareParticipants == holders && st.cfg.local == local
  {
    NormalizeIsCanonical(q.raw);
    var ps := NormalizeParticipants(q.raw);
    assert local in Elems(ps);
    forall p | p in ps ensures p in holders {
      assert p in Elems(ps) && p in Elems(q.raw);
    }
  }

  // ---- where a message is filed ----

  lemma AggregateFiles(sch: Scheme, st: State)
    ensures var st' := MaybeAggregate(sch, st).0;
      st'.cfg == st.cfg && st'.commitments == st.commitments && st'.signatureShares == st.signatureShares
      && st'.pendingShares == st.pendingShares
  {
  }

  lemma SignFiles(sch: Scheme, st: State)
    ensures MaybeSign(sch, st).0.cfg == st.cfg && MaybeSign(sch, st).0.commitments == st.commitments
  {
  }

  /** A readable commitment is filed under the sender's identifier, and nothing else is. */
  lemma CommitmentFiled(sch: Scheme, st: State, msg: ProtocolMessage, id: nat, bytes: Bytes, c: Commitments)
    requires st.result.None? && IdentifierFor(st.cfg.shareParticipants, msg.from) == Some(id)
    requires msg.kind == SignRound1 && sch.decodePayload(msg.payload) == Some(bytes) && sch.parseCommitments(bytes) == Some(c)
    ensures Handle(sch, st, msg).0.commitments == st.commitments[id := c] && Handle(sch, st, msg).0.cfg == st.cfg
  {
    SignFiles(sch, st.(commitments := st.commitments[id := c]));
  }

  /** A readable share is filed under the sender's identifier, among the shares or the early ones. */
  lemma ShareFiled(sch: Scheme, st: State, msg: ProtocolMessage, id: nat, bytes: Bytes, s: Share)
    requires st.result.None? && IdentifierFor(st.cfg.shareParticipants, msg.from) == Some(id)
    requires msg.kind == SignRound2 && sch.decodePayload(msg.payload) == Some(bytes) && sch.parseShare(bytes) == Some(s)
    ensures var st' := Handle(sch, st, msg).0;
      && st'.cfg == st.cfg && st'.commitments == st.commitments
      && (if |st.commitments| == |st.cfg.participants|
          then st'.signatureShares == st.signatureShares[id := s] && st'.pendingShares == st.pendingShares
          else st'.pendingShares == st.pendingShares[id := s] && st'.signatureShares == st.signatureShares)
  {
    AggregateFiles(sch, st.(signatureShares := st.signatureShares[id := s]));
    AggregateFiles(sch, st.(pendingShares := st.pendingShares[id := s]));
  }

  lemma Round1KeepsCfg(sch: Scheme, st: State, msg: ProtocolMessage)
    requires msg.kind == SignRound1 && st.result.None?
    ensures Handle(sch, st, msg).0.cfg == st.cfg
  {
    var id, bytes := IdentifierFor(st.cfg.shareParticipants, msg.from), sch.decodePayload(msg.payload);
    if id.Some? && bytes.Some? && sch.parseCommitments(bytes.value).Some? {
      CommitmentFiled(sch, st, msg, id.value, bytes.value, sch.parseCommitments(bytes.value).value);
    }
  }

  lemma Round2KeepsCfg(sch: Scheme, st: State, msg: ProtocolMessage)
    requires msg.kind == SignRound2 && st.result.None?
    ensures Handle(sch, st, msg).0.cfg == st.cfg
  {
    var id, bytes := IdentifierFor(st.cfg.shareParticipants, msg.from), sch.decodePayload(msg.payload);
    if id.Some? && bytes.Some? && sch.parseShare(bytes.value).Some? {
      ShareFiled(sch, st, msg, id.value, bytes.value, sch.parseShare(bytes.value).value);
    }
  }

  lemma HandleKeepsCfg(sch: Scheme, st: State, msg: ProtocolMessage)
    ensures Handle(sch, st, msg).0.cfg == st.cfg
  {
    if st.result.None? {
      if msg.kind == SignRound1 {
        Round1KeepsCfg(sch, st, msg);
      } else if msg.kind == SignRound2 {
        Round2KeepsCfg(sch, st, msg);
      }
    }
  }

  lemma {:induction false} FeedKeepsCfg(sch: Scheme, st: State, msgs: seq<ProtocolMessage>)
    ensures Feed(sch, st, msgs).0.cfg == st.cfg
    decreases |msgs|
  {
    if msgs != [] {
      HandleKeepsCfg(sch, Drained(st), msgs[0]);
      FeedKeepsCfg(sch, Handle(sch, Drained(st), msgs[0]).0, msgs[1..]);
    }
  }

  // ---- shares of one key generation ----

  /** Every member holds a share of this key generation. */
  ghost predicate Dealt(s: KP.Setup, shares: map<Name, K.StoredShare>)
    requires KP.Correct(s)
  {
    shares.Keys == s.parties.Keys && forall p :: p in shares ==> KP.Agrees(s, p, shares[p])
  }

  /** Key generation, once no message is undelivered, leaves every member with such a share. */
  lemma QuiescentDeals(s: KP.Setup, schedule: seq<KP.Delivery>) returns (shares: map<Name, K.StoredShare>)
    requires KP.Correct(s) && KP.AllStart(s) && KP.Quiescent(KP.Run(s.sch, KP.Init(s), schedule))
    ensures Dealt(s, shares)
    ensures var n := KP.Run(s.sch, KP.Init(s), schedule);
      forall p :: p in shares ==> p in n.sessions && n.sessions[p].result == Some(shares[p])
  {
    KP.KeygenAgreement(s, schedule);
    var n := KP.Run(s.sch, KP.Init(s), schedule);
    shares := map p | p in s.parties :: n.sessions[p].result.value;
  }

  /** All shares list the same holders, and each index is its owner's place among them. */
  lemma IndexIsIdentifier(s: KP.Setup, p: Name, share: K.StoredShare)
    requires KP.Correct(s) && p in s.parties && KP.Agrees(s, p, share)
    ensures NormalizeParticipants(share.participants) == KP.Members(s)
    ensures IdentifierFor(KP.Members(s), p) == Some(share.participantIndex)
  {
    KP.IdFacts(s, p);
    NormalizeIsCanonical(s.names);
    NormalizeDependsOnSetOnly(KP.Members(s), s.names);
  }

  lemma IsHolder(s: KP.Setup, p: Name)
    requires KP.Valid(s) && p in s.parties
    ensures p in KP.Members(s)
  {
    NormalizeIsCanonical(s.names);
    assert p in Elems(s.names);
    assert p in Elems(KP.Members(s));
  }

  /** Any members of a key generation, selected in any order and with any repetition: a session on
      `local`'s share starts with its own commitment under its key generation index, and knows every
      member, selected or not, by that member's key generation index. */
  lemma SubsetKeepsIdentifiers(s: KP.Setup, shares: map<Name, K.StoredShare>, sch: Scheme, r: Reader, local: Name, q: Request)
    returns (st: State)
    requires KP.Correct(s) && Dealt(s, shares) && local in q.raw && forall p :: p in q.raw ==> p in s.parties
    requires Loads(sch, ForSigning(r, shares[local]), q)
    ensures Open(sch, ForSigning(r, shares[local]), local, q) == Started(st)
    ensures st.commitments.Keys == {shares[local].participantIndex}
    ensures forall p :: p in shares ==> IdentifierFor(st.cfg.shareParticipants, p) == Some(shares[p].participantIndex)
  {
    forall p | p in shares
      ensures NormalizeParticipants(shares[p].participants) == KP.Members(s)
      ensures IdentifierFor(KP.Members(s), p) == Some(shares[p].participantIndex)
    {
      IndexIsIdentifier(s, p, shares[p]);
    }
    forall p | p in q.raw ensures p in KP.Members(s) {
      IsHolder(s, p);
    }
    OpensByHolder(sch, ForSigning(r, shares[local]), local, q, KP.Members(s), shares[local].participantIndex);
    st := Open(sch, ForSigning(r, shares[local]), local, q).state;
  }

  /** After any messages whatsoever, a readable message of a member is filed under its key generation index. */
  lemma FiledUnderIndex(shares: map<Name, K.StoredShare>, sch: Scheme, st: State, msgs: seq<ProtocolMessage>, msg: ProtocolMessage,
                        bytes: Bytes)
    requires forall p :: p in shares ==> IdentifierFor(st.cfg.shareParticipants, p) == Some(shares[p].participantIndex)
    requires msg.from in shares && sch.decodePayload(msg.payload) == Some(bytes) && Feed(sch, st, msgs).0.result.None?
    ensures var now := Feed(sch, st, msgs).0;
      var next, index := Handle(sch, now, msg).0, shares[msg.from].participantIndex;
      && (msg.kind == SignRound1 && sch.parseCommitments(bytes).Some? ==>
            next.commitments == now.commitments[index := sch.parseCommitments(bytes).value])
      && (msg.kind == SignRound2 && sch.parseShare(bytes).Some? ==>
            var s := sch.parseShare(bytes).value;
            next.signatureShares == now.signatureShares[index := s] || next.pendingShares == now.pendingShares[index := s])
  {
    FeedKeepsCfg(sch, st, msgs);
    var now, index := Feed(sch, st, msgs).0, shares[msg.from].participantIndex;
    if msg.kind == SignRound1 && sch.parseCommitments(bytes).Some? {
      CommitmentFiled(sch, now, msg, index, bytes, sch.parseCommitments(bytes).value);
    }
    if msg.kind == SignRound2 && sch.parseShare(bytes).Some? {
      ShareFiled(sch, now, msg, index, bytes, sch.parseShare(bytes).value);
    }
  }
}
