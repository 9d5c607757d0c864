/** Forming a signing party: the leader collects join requests until all members are in or a
    deadline fires, and answers everyone who joined with the same selected set. */
module Party {
  import opened Sorting
  import opened Names

  /** A join request, with the stream its answer goes to. */
  datatype Request = Request(id: string, from: Name, stream: nat)

  /** What the leader waits on: a request, a deadline, or the end of the request channel. */
  datatype Event = Join(request: Request) | Deadline | ChannelClosed

  datatype ResponseType = Success | Timeout | LeaderNotReady | UnknownPeer

  datatype Response = Response(id: string, kind: ResponseType, peers: seq<Name>)

  datatype Joined = Joined(from: Name, stream: nat)

  datatype Outcome = Formed(selected: seq<Name>, salt: string) | TooFew(have: nat, need: nat)

  datatype Answer = Selected(selected: seq<Name>) | JoinTimeout | JoinThreshold(have: nat)

  // ---- the coordinator ----

  /** The selected set in order. */
  ghost predicate IsListOf(s: seq<Name>, names: set<Name>) {
    Sorted(NameLe, s) && Distinct(s) && Elems(s) == names
  }

  class Coordinator {
    const id: string
    const threshold: nat
    const expected: set<Name>
    var online: set<Name>

    constructor (id: string, leader: Name, expected: set<Name>, threshold: nat)
      ensures this.id == id && this.threshold == threshold && this.expected == expected && online == {leader}
    {
      this.id, this.threshold, this.expected := id, threshold, expected;
      online := {leader};
    }

    method OnRequest(peer: Name) returns (added: bool)
      modifies this
      ensures online == if peer in expected then old(online) + {peer} else old(online)
      ensures added <==> peer in expected && peer !in old(online)
    {
      if peer !in expected { return false; }
      added := peer !in online;
      online := online + {peer};
    }

    predicate Ready()
      reads this
    {
      |online| >= threshold
    }

    /** The online set, sorted. */
    method List() returns (s: seq<Name>)
      ensures IsListOf(s, online)
    {
      NameLeIsTotalOrder();
      s := [];
      var todo := online;
      while todo != {}
        invariant todo <= online && IsListOf(s, online - todo)
        decreases |todo|
      {
        var x :| x in todo;
        InsertKeeps(s, x, online - todo);
        s := Insert(NameLe, x, s);
        todo := todo - {x};
      }
    }

    method Respond(timedOut: bool) returns (r: Response)
      ensures r.id == id && IsListOf(r.peers, online)
      ensures r.kind == if |online| >= threshold then Success else if timedOut then Timeout else LeaderNotReady
    {
      var peers := List();
      r := Response(id, if Ready() then Success else if timedOut then Timeout else LeaderNotReady, peers);
    }
  }

  lemma InsertKeeps(s: seq<Name>, x: Name, names: set<Name>)
    requires TotalPreorder(NameLe) && IsListOf(s, names) && x !in names
    ensures IsListOf(Insert(NameLe, x, s), names + {x})
  {
    InsertSorts(NameLe, x, s);
    var t := Insert(NameLe, x, s);
    assert x !in s;
    forall y ensures y in t <==> y in s || y == x {
      assert y in t <==> y in multiset(t);
    }
    assert Distinct([x] + s);
    assert multiset([x] + s) == multiset(t);
    DistinctByCount([x] + s, t);
  }

  // ---- what the requests amount to ----

  /** The requests of these events. */
  function Requests(events: seq<Event>): seq<Request> {
    if events == [] then []
    else
      var rest := Requests(events[..|events| - 1]);
      var last := events[|events| - 1];
      if last.Join? then rest + [last.request] else rest
  }

  /** The requests for other sessions, in order. */
  function Foreign(rs: seq<Request>, id: string): seq<Request> {
    if rs == [] then []
    else
      var rest := Foreign(rs[..|rs| - 1], id);
      if rs[|rs| - 1].id != id then rest + [rs[|rs| - 1]] else rest
  }

  /** The members other than the leader who asked to join this session. */
  function Joiners(rs: seq<Request>, id: string, leader: Name, members: set<Name>): set<Name> {
    set r | r in rs && r.id == id && r.from in members && r.from != leader :: r.from
  }

  ghost function Froms(joined: seq<Joined>): (s: seq<Name>)
    ensures |s| == |joined| && forall k :: 0 <= k < |joined| ==> s[k] == joined[k].from
  {
    seq(|joined|, k requires 0 <= k < |joined| => joined[k].from)
  }

  /** The first streams of everyone who joined: who is online is the leader and those who joined. */
  ghost predicate Collected(online: set<Name>, joined: seq<Joined>, rs: seq<Request>, id: string, leader: Name, members: set<Name>) {
    && online == {leader} + Joiners(rs, id, leader, members)
    && Distinct(Froms(joined)) && Elems(Froms(joined)) == Joiners(rs, id, leader, members)
    && forall k :: 0 <= k < |joined| ==> FirstAsked(rs, id, joined[k])
  }

  /** The stream of the first request of this member for this session. */
  ghost predicate FirstAsked(rs: seq<Request>, id: string, j: Joined) {
    exists i :: FirstAskedAt(rs, id, j, i)
  }

  predicate FirstAskedAt(rs: seq<Request>, id: string, j: Joined, i: int) {
    && 0 <= i < |rs| && rs[i] == Request(id, j.from, j.stream)
    && forall k :: 0 <= k < i ==> !(rs[k].id == id && rs[k].from == j.from)
  }

  lemma FirstAskedKept(rs: seq<Request>, r: Request, id: string, j: Joined)
    requires FirstAsked(rs, id, j)
    ensures FirstAsked(rs + [r], id, j)
  {
    var i :| FirstAskedAt(rs, id, j, i);
    assert FirstAskedAt(rs + [r], id, j, i);
  }

  lemma FirstAskedNow(rs: seq<Request>, r: Request, id: string, leader: Name, members: set<Name>)
    requires r.id == id && r.from in members && r.from !in {leader} + Joiners(rs, id, leader, members)
    ensures FirstAsked(rs + [r], id, Joined(r.from, r.stream))
  {
    forall k | 0 <= k < |rs| ensures !(rs[k].id == id && rs[k].from == r.from) {
      assert rs[k] in rs;
    }
    assert FirstAskedAt(rs + [r], id, Joined(r.from, r.stream), |rs|);
  }

  lemma JoinersStep(rs: seq<Request>, r: Request, id: string, leader: Name, members: set<Name>)
    ensures Joiners(rs + [r], id, leader, members) ==
      if r.id == id && r.from in members && r.from != leader then Joiners(rs, id, leader, members) + {r.from}
      else Joiners(rs, id, leader, members)
  {
    var before, after := Joiners(rs, id, leader, members), Joiners(rs + [r], id, leader, members);
    forall n ensures n in after <==> n in before || (r.id == id && r.from in members && r.from != leader && n == r.from) {
      if n in before {
        var q :| q in rs && q.id == id && q.from in members && q.from != leader && q.from == n;
        assert q in rs + [r];
      }
      if r.id == id && r.from in members && r.from != leader && n == r.from {
        assert r in rs + [r];
      }
    }
  }

  lemma CollectStep(online: set<Name>, joined: seq<Joined>, rs: seq<Request>, r: Request, id: string, leader: Name, members: set<Name>)
    requires Collected(online, joined, rs, id, leader, members)
    ensures r.id == id && r.from in members && r.from !in online ==>
      Collected(online + {r.from}, joined + [Joined(r.from, r.stream)], rs + [r], id, leader, members)
    ensures r.id == id && r.from in members && r.from in online ==> Collected(online + {r.from}, joined, rs + [r], id, leader, members)
    ensures !(r.id == id && r.from in members) ==> Collected(online, joined, rs + [r], id, leader, members)
  {
    JoinersStep(rs, r, id, leader, members);
    forall k | 0 <= k < |joined| ensures FirstAsked(rs + [r], id, joined[k]) {
      FirstAskedKept(rs, r, id, joined[k]);
    }
    if r.id == id && r.from in members {
      if r.from in online {
        assert online + {r.from} == online;
      } else {
        var more := joined + [Joined(r.from, r.stream)];
        FirstAskedNow(rs, r, id, leader, members);
        assert Froms(more) == Froms(joined) + [r.from];
        assert r.from !in Froms(joined);
        assert Elems(Froms(more)) == Elems(Froms(joined)) + {r.from};
      }
    }
  }

  lemma RequestsNext(events: seq<Event>, k: nat)
    requires k < |events|
    ensures Requests(events[..k + 1]) == Requests(events[..k]) + if events[k].Join? then [events[k].request] else []
  {
    assert events[..k + 1][..k] == events[..k];
  }

  lemma ForeignNext(rs: seq<Request>, r: Request, id: string)
    ensures Foreign(rs + [r], id) == Foreign(rs, id) + if r.id != id then [r] else []
  {
    assert (rs + [r])[..|rs|] == rs;
  }

  /** The channel is not read further once everyone is in, a deadline fired or it closed. */
  predicate Stopped(events: seq<Event>, taken: nat, party: nat, members: nat)
    requires taken <= |events|
  {
    party >= members || taken == |events| || (taken > 0 && !events[taken - 1].Join?)
  }

  /** The answer every joined member gets. */
  ghost predicate IsAnswer(r: Response, id: string, salt: string, party: set<Name>, threshold: nat) {
    && r.id == id + ['|'] + salt && IsListOf(r.peers, party)
    && r.kind == if |party| >= threshold then Success else Timeout
  }

  /** One request for this session or another. */
  method Admit(c: Coordinator, joined: seq<Joined>, req: Request, id: string, ghost rs: seq<Request>, ghost leader: Name)
    returns (now: seq<Joined>)
    requires Collected(c.online, joined, rs, id, leader, c.expected)
    modifies c
    ensures Collected(c.online, now, rs + [req], id, leader, c.expected)
  {
    CollectStep(c.online, joined, rs, req, id, leader, c.expected);
    now := joined;
    if req.id == id {
      var added := c.OnRequest(req.from);
      if added {
        now := now + [Joined(req.from, req.stream)];
      }
    }
  }

  method AdmitSeed(c: Coordinator, seed: seq<Request>, id: string, ghost leader: Name) returns (joined: seq<Joined>)
    requires c.online == {leader}
    modifies c
    ensures Collected(c.online, joined, seed, id, leader, c.expected)
  {
    joined := [];
    for i := 0 to |seed|
      invariant Collected(c.online, joined, seed[..i], id, leader, c.expected)
    {
      assert seed[..i] + [seed[i]] == seed[..i + 1];
      joined := Admit(c, joined, seed[i], id, seed[..i], leader);
    }
    assert seed[..|seed|] == seed;
  }

  /** One more event read. */
  lemma ReadNext(seed: seq<Request>, events: seq<Event>, k: nat, id: string)
    requires k < |events|
    ensures events[k].Join? ==> seed + Requests(events[..k + 1]) == (seed + Requests(events[..k])) + [events[k].request]
    ensures events[k].Join? && events[k].request.id == id ==> Foreign(Requests(events[..k + 1]), id) == Foreign(Requests(events[..k]), id)
    ensures events[k].Join? && events[k].request.id != id ==>
      Foreign(Requests(events[..k + 1]), id) == Foreign(Requests(events[..k]), id) + [events[k].request]
    ensures !events[k].Join? ==> Requests(events[..k + 1]) == Requests(events[..k])
  {
    RequestsNext(events, k);
    if events[k].Join? {
      var before, req := Requests(events[..k]), events[k].request;
      assert (seed + before) + [req] == seed + (before + [req]);
      ForeignNext(before, req, id);
    }
  }

  /** Read the channel until everyone is in, a deadline fires or it closes. */
  method Listen(c: Coordinator, events: seq<Event>, parked: seq<Request>, id: string, members: nat, start: seq<Joined>,
                ghost seed: seq<Request>, ghost leader: Name)
    returns (joined: seq<Joined>, nowParked: seq<Request>, taken: nat)
    requires Collected(c.online, start, seed, id, leader, c.expected)
    modifies c
    ensures taken <= |events| && Stopped(events, taken, |c.online|, members)
    ensures Collected(c.online, joined, seed + Requests(events[..taken]), id, leader, c.expected)
    ensures nowParked == parked + Foreign(Requests(events[..taken]), id)
  {
    joined, nowParked, taken := start, parked, 0;
    assert seed + [] == seed;
    while |c.online| < members && taken < |events|
      invariant taken <= |events|
      invariant Collected(c.online, joined, seed + Requests(events[..taken]), id, leader, c.expected)
      invariant nowParked == parked + Foreign(Requests(events[..taken]), id)
      decreases |events| - taken
    {
      ReadNext(seed, events, taken, id);
      var event := events[taken];
      ghost var rs := seed + Requests(events[..taken]);
      taken := taken + 1;
      if !event.Join? {
        return;
      }
      if event.request.id != id {
        nowParked := nowParked + [event.request];
      }
      joined := Admit(c, joined, event.request, id, rs, leader);
    }
  }

  /** Whoever asked in time and is a member, with the leader, is the party. It forms exactly when
      it reaches the threshold; each member who joined gets the same answer on the stream it
      first asked on; requests for other sessions are parked in order. */
  method LeaderFormParty(seed: seq<Request>, events: seq<Event>, parked: seq<Request>, id: string, leader: Name,
                         members: seq<Name>, threshold: nat, salt: string)
    returns (outcome: Outcome, answered: seq<Joined>, response: Response, nowParked: seq<Request>, taken: nat, ghost party: set<Name>)
    ensures taken <= |events|
    ensures party == {leader} + Joiners(seed + Requests(events[..taken]), id, leader, Elems(members))
    ensures outcome.Formed? <==> |party| >= threshold
    ensures outcome.Formed? ==> IsListOf(outcome.selected, party) && outcome.salt == salt
    ensures outcome.TooFew? ==> outcome == TooFew(|party|, threshold)
    ensures IsAnswer(response, id, salt, party, threshold)
    ensures Collected(party, answered, seed + Requests(events[..taken]), id, leader, Elems(members))
    ensures nowParked == parked + Foreign(Requests(events[..taken]), id)
    ensures Stopped(events, taken, |party|, |members|)
  {
    var memberSet := set m | m in members;
    var c := new Coordinator(id, leader, memberSet, threshold);
    var seeded := AdmitSeed(c, seed, id, leader);
    answered, nowParked, taken := Listen(c, events, parked, id, |members|, seeded, seed, leader);
    party := c.online;
    var timedOut := !c.Ready();
    response := c.Respond(timedOut);
    response := response.(id := id + ['|'] + salt);
    if timedOut {
      outcome := TooFew(|c.online|, threshold);
    } else {
      var selected := c.List();
      outcome := Formed(selected, salt);
    }
  }

  // ---- the member's side ----

  function Interpret(r: Response): Answer {
    match r.kind
    case Success => Selected(r.peers)
    case Timeout => JoinTimeout
    case _ => JoinThreshold(|r.peers|)
  }

  /** What follows the first bar, nothing without one. */
  function SaltOf(id: string): string {
    if id == [] then [] else if id[0] == '|' then id[1..] else SaltOf(id[1..])
  }

  lemma {:induction false} SaltBehindId(id: string, salt: string)
    requires '|' !in id
    ensures SaltOf(id + ['|'] + salt) == salt
    decreases |id|
  {
    var t := id + ['|'] + salt;
    if id == [] {
      assert t[1..] == salt;
    } else {
      assert t[0] == id[0] && t[1..] == id[1..] + ['|'] + salt;
      SaltBehindId(id[1..], salt);
    }
  }

  lemma {:induction false} SaltTooLong(id: string, salt: string)
    requires '|' in id
    ensures |SaltOf(id + ['|'] + salt)| > |salt|
    decreases |id|
  {
    var t := id + ['|'] + salt;
    assert t[0] == id[0] && t[1..] == id[1..] + ['|'] + salt;
    if id[0] != '|' {
      SaltTooLong(id[1..], salt);
    }
  }

  /** A sorted list of a set is the only one. */
  lemma ListUnique(a: seq<Name>, b: seq<Name>, names: set<Name>)
    requires IsListOf(a, names) && IsListOf(b, names)
    ensures a == b
  {
    NameLeIsTotalOrder();
    DistinctSetToMultiset(a);
    DistinctSetToMultiset(b);
    SortedIsUnique(NameLe, a, b);
  }

  /** Every member that reads the leader's answer holds the leader's selected set, or learns that
      no party formed; it holds the leader's salt if and only if the session id has no bar. */
  lemma MembersAgree(r: Response, id: string, salt: string, party: set<Name>, threshold: nat, selected: seq<Name>)
    requires IsAnswer(r, id, salt, party, threshold) && IsListOf(selected, party)
    ensures |party| >= threshold ==> Interpret(r) == Selected(selected)
    ensures |party| < threshold ==> Interpret(r) == JoinTimeout
    ensures SaltOf(r.id) == salt <==> '|' !in id
  {
    ListUnique(r.peers, selected, party);
    if '|' in id {
      SaltTooLong(id, salt);
    } else {
      SaltBehindId(id, salt);
    }
  }

  // ---- thresholds ----

  /** Two thirds of the members, rounded up. */
  function MinSigners(n: nat): nat {
    (n * 2 + 2) / 3
  }

  function Threshold(members: nat, shareMin: nat): nat {
    if MinSigners(members) >= shareMin then MinSigners(members) else shareMin
  }

  /** A party is large enough exactly when it holds two thirds of the members and as many as the shares ask for. */
  lemma ThresholdIff(party: nat, members: nat, shareMin: nat)
    ensures party >= Threshold(members, shareMin) <==> 3 * party >= 2 * members && party >= shareMin
  {
  }

  /** Two parties formed over the same members share at least a third of them. */
  lemma PartiesOverlap(a: set<Name>, b: set<Name>, members: set<Name>, shareMin: nat)
    requires a <= members && b <= members
    requires |a| >= Threshold(|members|, shareMin) && |b| >= Threshold(|members|, shareMin)
    ensures 3 * |a * b| >= |members|
  {
    OverlapCount(a, b, members);
  }

  /** Two parties as the leader forms them, of any sessions and requests over the same members, share
      at least a third of them. */
  lemma FormedPartiesOverlap(r1: seq<Request>, id1: string, l1: Name, r2: seq<Request>, id2: string, l2: Name, members: set<Name>,
                             shareMin: nat)
    requires l1 in members && l2 in members
    requires |{l1} + Joiners(r1, id1, l1, members)| >= Threshold(|members|, shareMin)
    requires |{l2} + Joiners(r2, id2, l2, members)| >= Threshold(|members|, shareMin)
    ensures 3 * |({l1} + Joiners(r1, id1, l1, members)) * ({l2} + Joiners(r2, id2, l2, members))| >= |members|
  {
    PartyWithinMembers(r1, id1, l1, members);
    PartyWithinMembers(r2, id2, l2, members);
    PartiesOverlap({l1} + Joiners(r1, id1, l1, members), {l2} + Joiners(r2, id2, l2, members), members, shareMin);
  }

  /** A party is the leader and members only. */
  lemma PartyWithinMembers(rs: seq<Request>, id: string, leader: Name, members: set<Name>)
    requires leader in members
    ensures {leader} + Joiners(rs, id, leader, members) <= members
  {
  }

  // ---- handing parked requests to the coordinator ----

  function Meant(rs: seq<Request>, id: string): seq<Request> {
    if rs == [] then []
    else
      var rest := Meant(rs[..|rs| - 1], id);
      if rs[|rs| - 1].id == id then rest + [rs[|rs| - 1]] else rest
  }

  lemma {:induction false} SplitCount(rs: seq<Request>, id: string)
    ensures multiset(Meant(rs, id)) + multiset(Foreign(rs, id)) == multiset(rs)
    decreases |rs|
  {
    if rs != [] {
      SplitCount(rs[..|rs| - 1], id);
      assert rs == rs[..|rs| - 1] + [rs[|rs| - 1]];
    }
  }

  /** Parked requests are split, none lost: those for this session seed its party. */
  method SplitParked(parked: seq<Request>, id: string) returns (seed: seq<Request>, rest: seq<Request>)
    ensures seed == Meant(parked, id) && rest == Foreign(parked, id)
    ensures multiset(seed) + multiset(rest) == multiset(parked)
  {
    seed, rest := [], [];
    for i := 0 to |parked|
      invariant seed == Meant(parked[..i], id) && rest == Foreign(parked[..i], id)
    {
      assert parked[..i + 1][..i] == parked[..i];
      if parked[i].id == id {
        seed := seed + [parked[i]];
      } else {
        rest := rest + [parked[i]];
      }
    }
    assert parked[..|parked|] == parked;
    SplitCount(parked, id);
  }
}
