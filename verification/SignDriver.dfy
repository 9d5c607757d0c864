/** Driving several signing sessions over one mailbox: each inbound frame goes to the session
    whose id it carries, frames of other ids are dropped. */
module SignDriver {
  import opened Names
  import opened Bytes
  import opened SignSession

  type Id = string

  /** A frame taken from the mailbox: an envelope, or bytes that do not decode. */
  datatype Frame = Frame(id: Id, msg: ProtocolMessage) | Garbled

  datatype Sent = Sent(id: Id, msg: ProtocolMessage)

  datatype Ending = Done(signatures: map<Id, Bytes>) | Closed | BadFrame | Failed(id: Id, error: FrostError)

  type Sessions = map<Id, State>

  /** The messages for one session, in order. */
  function Own(frames: seq<Frame>, id: Id): seq<ProtocolMessage>
    decreases |frames|
  {
    if frames == [] then []
    else
      var rest := Own(frames[..|frames| - 1], id);
      var last := frames[|frames| - 1];
      if last.Frame? && last.id == id then rest + [last.msg] else rest
  }

  function OwnSent(sent: seq<Sent>, id: Id): seq<ProtocolMessage>
    decreases |sent|
  {
    if sent == [] then []
    else
      var rest := OwnSent(sent[..|sent| - 1], id);
      if sent[|sent| - 1].id == id then rest + [sent[|sent| - 1].msg] else rest
  }

  function Label(id: Id, msgs: seq<ProtocolMessage>): (s: seq<Sent>)
    ensures |s| == |msgs|
  {
    seq(|msgs|, k requires 0 <= k < |msgs| => Sent(id, msgs[k]))
  }

  lemma {:induction false} OwnSentLabel(sent: seq<Sent>, id: Id, msgs: seq<ProtocolMessage>, whose: Id)
    ensures OwnSent(sent + Label(id, msgs), whose) == if whose == id then OwnSent(sent, whose) + msgs else OwnSent(sent, whose)
    decreases |msgs|
  {
    if msgs == [] {
      assert sent + Label(id, msgs) == sent;
    } else {
      var n := |msgs| - 1;
      OwnSentLabel(sent, id, msgs[..n], whose);
      var all := sent + Label(id, msgs);
      assert all[..|all| - 1] == sent + Label(id, msgs[..n]);
      assert all[|all| - 1] == Sent(id, msgs[n]);
      assert msgs[..n] + [msgs[n]] == msgs;
    }
  }

  lemma OwnNext(frames: seq<Frame>, k: nat, id: Id)
    requires k < |frames|
    ensures Own(frames[..k + 1], id) ==
      if frames[k].Frame? && frames[k].id == id then Own(frames[..k], id) + [frames[k].msg] else Own(frames[..k], id)
  {
    assert frames[..k + 1][..k] == frames[..k];
  }

  /** One more message: the session handles it, and what it queues is sent. */
  lemma {:induction false} FeedOne(sch: Scheme, st: State, msgs: seq<ProtocolMessage>, m: ProtocolMessage, h: State)
    requires h == Handle(sch, Feed(sch, st, msgs).0, m).0
    ensures Feed(sch, st, msgs + [m]) == (Drained(h), Feed(sch, st, msgs).1 + h.outputs)
    decreases |msgs|
  {
    if msgs == [] {
      assert msgs + [m] == [m] && [m][1..] == [];
    } else {
      assert (msgs + [m])[0] == msgs[0] && (msgs + [m])[1..] == msgs[1..] + [m];
      var next := Handle(sch, Drained(st), msgs[0]).0;
      FeedOne(sch, next, msgs[1..], m, h);
      var x := Feed(sch, next, msgs[1..]).1;
      assert st.outputs + (x + h.outputs) == (st.outputs + x) + h.outputs;
    }
  }

  /** A session after its own messages, and what it sent. */
  ghost predicate Follows(sch: Scheme, start: State, frames: seq<Frame>, id: Id, now: State, sent: seq<Sent>) {
    (now, OwnSent(sent, id)) == Feed(sch, start, Own(frames, id))
  }

  ghost predicate AllFollow(sch: Scheme, starts: Sessions, frames: seq<Frame>, now: Sessions, sent: seq<Sent>) {
    && now.Keys == starts.Keys
    && forall id :: id in starts ==> Follows(sch, starts[id], frames, id, now[id], sent)
  }

  predicate Finished(sessions: Sessions) {
    forall id :: id in sessions ==> sessions[id].result.Some?
  }

  lemma FollowsOther(sch: Scheme, start: State, frames: seq<Frame>, k: nat, id: Id, now: State, sent: seq<Sent>, out: seq<ProtocolMessage>)
    requires k < |frames| && !(frames[k].Frame? && frames[k].id == id)
    requires Follows(sch, start, frames[..k], id, now, sent)
    ensures Follows(sch, start, frames[..k + 1], id, now, sent)
    ensures frames[k].Frame? ==> Follows(sch, start, frames[..k + 1], id, now, sent + Label(frames[k].id, out))
  {
    OwnNext(frames, k, id);
    if frames[k].Frame? {
      OwnSentLabel(sent, frames[k].id, out, id);
    }
  }

  lemma FollowsOwn(sch: Scheme, start: State, frames: seq<Frame>, k: nat, id: Id, now: State, sent: seq<Sent>, h: State)
    requires k < |frames| && frames[k].Frame? && frames[k].id == id && h == Handle(sch, now, frames[k].msg).0
    requires Follows(sch, start, frames[..k], id, now, sent)
    ensures Follows(sch, start, frames[..k + 1], id, Drained(h), sent + Label(id, h.outputs))
  {
    OwnNext(frames, k, id);
    FeedOne(sch, start, Own(frames[..k], id), frames[k].msg, h);
    OwnSentLabel(sent, id, h.outputs, id);
  }

  lemma AllFollowForeign(sch: Scheme, starts: Sessions, frames: seq<Frame>, k: nat, now: Sessions, sent: seq<Sent>)
    requires k < |frames| && frames[k].Frame? && frames[k].id !in starts && AllFollow(sch, starts, frames[..k], now, sent)
    ensures AllFollow(sch, starts, frames[..k + 1], now, sent)
  {
    forall id | id in starts ensures Follows(sch, starts[id], frames[..k + 1], id, now[id], sent) {
      FollowsOther(sch, starts[id], frames, k, id, now[id], sent, []);
    }
  }

  lemma AllFollowOwn(sch: Scheme, starts: Sessions, frames: seq<Frame>, k: nat, now: Sessions, sent: seq<Sent>, h: State)
    requires k < |frames| && frames[k].Frame? && frames[k].id in starts && AllFollow(sch, starts, frames[..k], now, sent)
    requires h == Handle(sch, now[frames[k].id], frames[k].msg).0
    ensures AllFollow(sch, starts, frames[..k + 1], now[frames[k].id := Drained(h)], sent + Label(frames[k].id, h.outputs))
  {
    var own := frames[k].id;
    forall id | id in starts
      ensures Follows(sch, starts[id], frames[..k + 1], id, now[own := Drained(h)][id], sent + Label(own, h.outputs))
    {
      if id == own {
        FollowsOwn(sch, starts[id], frames, k, id, now[id], sent, h);
      } else {
        FollowsOther(sch, starts[id], frames, k, id, now[id], sent, h.outputs);
      }
    }
  }

  /** Whether a session's first outputs have been drained and sent. */
  ghost predicate Flushed(start: State, now: State, sent: seq<Sent>, id: Id, done: bool) {
    if done then now == Drained(start) && OwnSent(sent, id) == start.outputs
    else now == start && OwnSent(sent, id) == []
  }

  ghost predicate AllFlushed(starts: Sessions, now: Sessions, sent: seq<Sent>, done: seq<Id>) {
    now.Keys == starts.Keys && forall id :: id in starts ==> Flushed(starts[id], now[id], sent, id, id in done)
  }

  lemma FlushOne(starts: Sessions, now: Sessions, sent: seq<Sent>, done: seq<Id>, id: Id)
    requires AllFlushed(starts, now, sent, done) && id in starts && id !in done
    ensures AllFlushed(starts, now[id := Drained(now[id])], sent + Label(id, now[id].outputs), done + [id])
  {
    var next, out := now[id := Drained(now[id])], now[id].outputs;
    assert Flushed(starts[id], now[id], sent, id, false);
    forall x | x in starts ensures Flushed(starts[x], next[x], sent + Label(id, out), x, x in done + [id]) {
      assert Flushed(starts[x], now[x], sent, x, x in done);
      OwnSentLabel(sent, id, out, x);
    }
  }

  lemma FlushedFollow(sch: Scheme, starts: Sessions, now: Sessions, sent: seq<Sent>, order: seq<Id>)
    requires AllFlushed(starts, now, sent, order) && forall id :: id in starts ==> id in order
    ensures AllFollow(sch, starts, [], now, sent)
  {
    forall id | id in starts ensures Follows(sch, starts[id], [], id, now[id], sent) {
      assert Flushed(starts[id], now[id], sent, id, true);
    }
  }

  /** Drain every session's first outputs, in the order the map is walked. */
  method FlushAll(sch: Scheme, starts: Sessions, order: seq<Id>) returns (sessions: Sessions, sent: seq<Sent>)
    requires Distinct(order) && forall id :: id in order <==> id in starts
    ensures AllFollow(sch, starts, [], sessions, sent)
  {
    sessions, sent := starts, [];
    for i := 0 to |order|
      invariant AllFlushed(starts, sessions, sent, order[..i])
    {
      var id := order[i];
      FlushOne(starts, sessions, sent, order[..i], id);
      assert order[..i] + [id] == order[..i + 1];
      sent := sent + Label(id, sessions[id].outputs);
      sessions := sessions[id := Drained(sessions[id])];
    }
    assert order[..|order|] == order;
    FlushedFollow(sch, starts, sessions, sent, order);
  }

  function Signatures(sessions: Sessions): map<Id, Bytes>
    requires Finished(sessions)
  {
    map id | id in sessions :: sessions[id].result.value
  }

  /** Sessions driven together end as if each had been fed its own messages alone: no session
      sees another's, frames of foreign ids change nothing, and what each sends carries its id.
      Signatures come back exactly when every session has finished. */
  method RunKeysignMulti(sch: Scheme, starts: Sessions, order: seq<Id>, inbox: seq<Frame>)
    returns (ending: Ending, sessions: Sessions, sent: seq<Sent>, taken: nat)
    requires Distinct(order) && forall id :: id in order <==> id in starts
    ensures taken <= |inbox|
    ensures !ending.Failed? ==> AllFollow(sch, starts, inbox[..taken], sessions, sent)
    ensures ending.Done? <==> Finished(sessions) && !ending.Failed?
    ensures ending.Done? ==> ending.signatures == Signatures(sessions)
    ensures ending == Closed ==> taken == |inbox| && !Finished(sessions)
    ensures ending == BadFrame ==> taken < |inbox| && inbox[taken].Garbled?
    ensures ending.Failed? ==> FailedAt(sch, starts, inbox, taken, ending.id, ending.error, sessions, sent)
  {
    sessions, sent := FlushAll(sch, starts, order);
    taken := 0;
    while !Finished(sessions)
      invariant taken <= |inbox| && AllFollow(sch, starts, inbox[..taken], sessions, sent)
      decreases |inbox| - taken
    {
      if taken == |inbox| { return Closed, sessions, sent, taken; }
      var frame := inbox[taken];
      if frame.Garbled? { return BadFrame, sessions, sent, taken; }
      var error, next, out := TakeFrame(sch, starts, inbox, taken, sessions, sent);
      if error.Some? {
        return Failed(frame.id, error.value), next, out, taken;
      }
      sessions, sent, taken := next, out, taken + 1;
    }
    ending := Done(Signatures(sessions));
  }

  /** One frame: dropped, or handled by its session, whose outputs are then sent. */
  method TakeFrame(sch: Scheme, ghost starts: Sessions, inbox: seq<Frame>, taken: nat, sessions: Sessions, sent: seq<Sent>)
    returns (error: Option<FrostError>, next: Sessions, out: seq<Sent>)
    requires taken < |inbox| && inbox[taken].Frame? && AllFollow(sch, starts, inbox[..taken], sessions, sent)
    ensures error.None? ==> AllFollow(sch, starts, inbox[..taken + 1], next, out)
    ensures error.Some? ==> FailedAt(sch, starts, inbox, taken, inbox[taken].id, error.value, next, out)
  {
    var id := inbox[taken].id;
    if id !in sessions {
      AllFollowForeign(sch, starts, inbox, taken, sessions, sent);
      return None, sessions, sent;
    }
    var h := Handle(sch, sessions[id], inbox[taken].msg);
    if h.1.Err? {
      error, next, out := Some(h.1.error), sessions[id := h.0], sent;
      assert FailedAfter(sch, starts, inbox, taken, id, h.1.error, sessions, next, out);
    } else {
      AllFollowOwn(sch, starts, inbox, taken, sessions, sent, h.0);
      error, next, out := None, sessions[id := Drained(h.0)], sent + Label(id, h.0.outputs);
    }
  }

  /** The sessions followed their messages up to the frame at `k`, which its session refused. */
  ghost predicate FailedAfter(sch: Scheme, starts: Sessions, inbox: seq<Frame>, k: nat, id: Id, error: FrostError,
                              before: Sessions, now: Sessions, sent: seq<Sent>) {
    && k < |inbox| && inbox[k].Frame? && inbox[k].id == id && id in before
    && AllFollow(sch, starts, inbox[..k], before, sent)
    && Handle(sch, before[id], inbox[k].msg).1 == Err(error)
    && now == before[id := Handle(sch, before[id], inbox[k].msg).0]
  }

  ghost predicate FailedAt(sch: Scheme, starts: Sessions, inbox: seq<Frame>, k: nat, id: Id, error: FrostError,
                           now: Sessions, sent: seq<Sent>) {
    exists before :: FailedAfter(sch, starts, inbox, k, id, error, before, now, sent)
  }
}
