/** The simulator as the page runs it: one object whose functions update its nodes and
    its messages in place. Whatever is called on it, its past is a run of SimProtocol. */
module SimObject {
  import opened RaftTypes
  import opened SimProtocol
  import P = SimProtocol
  import opened SimSafety
  import E = Engine

  const ELECTION_MIN := 150
  const ELECTION_MAX := 300
  const HEARTBEAT := 50
  const LATENCY_MIN := 10
  const LATENCY_MAX := 25

  /** A message under way. */
  datatype Packet = Packet(id: nat, message: Message, sentAt: nat, arriveAt: real)

  type Fraction = x: real | 0.0 <= x < 1.0 witness 0.0

  /** Delivery order: by arrival, then by number. */
  predicate Earlier(a: Packet, b: Packet) {
    a.arriveAt < b.arriveAt || (a.arriveAt == b.arriveAt && a.id < b.id)
  }

  ghost predicate AllSent(messages: seq<Packet>, sent: set<Message>) {
    forall p {:trigger p.message} :: p in messages ==> p.message in sent
  }

  function IdSet(ids: seq<NodeId>): set<NodeId> { set n | n in ids }

  lemma RunThen(run: seq<Sim>, e: Event)
    requires IsRun(run) && Enabled(run[|run| - 1], e)
    ensures IsRun(run + [After(run[|run| - 1], e)])
  {
    var longer := run + [After(run[|run| - 1], e)];
    forall i: nat ensures StepAt(longer, i) { assert StepAt(run, i); }
  }

  lemma FractionBetween(width: real, x: Fraction)
    requires width > 0.0
    ensures 0.0 <= x * width < width
  {
    PositiveProduct(1.0 - x, width);
    if x > 0.0 { PositiveProduct(x, width); }
    assert (1.0 - x) * width == width - x * width;
  }

  function Portion(width: real, x: Fraction): (r: real)
    requires width > 0.0
    ensures 0.0 <= r < width
  {
    FractionBetween(width, x);
    x * width
  }

  lemma PositiveProduct(a: real, b: real)
    requires a > 0.0 && b > 0.0
    ensures a * b > 0.0
  {
  }

  lemma SliceIs(log: Log, prev: nat, end: nat)
    requires prev <= |log| && end == if prev + MAX_ENTRIES < |log| then prev + MAX_ENTRIES else |log|
    ensures log[prev..end] == Slice(log, prev, prev + MAX_ENTRIES)
  {
  }

  lemma AppendIs(p: Peer, me: NodeId, to: NodeId, prev: nat, end: nat)
    requires to in p.nextIndex && prev + 1 == p.nextIndex[to] <= |p.log| + 1
    requires end == if prev + MAX_ENTRIES < |p.log| then prev + MAX_ENTRIES else |p.log|
    ensures P.SendAppend(p, me, to) ==
            AE(me, to, p.term, prev, if prev > 0 then p.log[prev - 1].term else 0, p.log[prev..end], p.commitIndex)
  {
    SliceIs(p.log, prev, end);
    assert Next(p, to) == prev + 1;
  }

  lemma OneMoreId(ids: seq<NodeId>, i: nat)
    requires i < |ids|
    ensures IdSet(ids[..i + 1]) == IdSet(ids[..i]) + {ids[i]}
  {
    assert ids[..i + 1] == ids[..i] + [ids[i]];
  }

  lemma OneMoreAsk(ids: seq<NodeId>, i: nat, n: NodeId, p: Peer)
    requires i < |ids|
    ensures Asks(IdSet(ids[..i + 1]), n, p) == Asks(IdSet(ids[..i]), n, p) + if ids[i] == n then {} else {Ask(p, n, ids[i])}
  {
    OneMoreId(ids, i);
  }

  lemma OneMoreBeat(ids: seq<NodeId>, i: nat, n: NodeId, p: Peer)
    requires i < |ids|
    ensures Beats(IdSet(ids[..i + 1]), n, p) == Beats(IdSet(ids[..i]), n, p) + if ids[i] == n then {} else {P.SendAppend(p, n, ids[i])}
  {
    OneMoreId(ids, i);
  }

  lemma OneMoreHolder(ids: seq<NodeId>, k: nat, me: NodeId, p: Peer, i: nat)
    requires k < |ids| && Distinct(ids)
    ensures |Holders(IdSet(ids[..k + 1]), me, p, i)| ==
            |Holders(IdSet(ids[..k]), me, p, i)| + if ids[k] != me && Match(p, ids[k]) >= i then 1 else 0
  {
    OneMoreId(ids, k);
    assert IsNew(ids, k);
    var more := if ids[k] != me && Match(p, ids[k]) >= i then {ids[k]} else {};
    assert Holders(IdSet(ids[..k + 1]), me, p, i) == Holders(IdSet(ids[..k]), me, p, i) + more;
  }

  predicate IsNew(ids: seq<NodeId>, k: nat) {
    k < |ids| ==> ids[k] !in ids[..k]
  }

  ghost predicate Distinct(ids: seq<NodeId>) {
    forall k: nat {:trigger IsNew(ids, k)} :: IsNew(ids, k)
  }

  lemma Regroup<T>(a: set<T>, b: set<T>, c: set<T>)
    ensures a + b + c == a + (b + c) && a + {} == a
  {
  }

  predicate CanSend(p: Peer, q: NodeId) {
    q in p.nextIndex && 1 <= p.nextIndex[q] <= |p.log| + 1
  }

  lemma NumbersDiffer(n: nat)
    ensures Distinct(seq(n, i => i + 1))
  {
    var ids := seq(n, i => i + 1);
    forall k: nat ensures IsNew(ids, k) {}
  }

  function NewNodes(ids: seq<NodeId>): map<NodeId, Peer> { map n | n in IdSet(ids) :: NewPeer() }

  lemma NewRun(ids: seq<NodeId>)
    ensures IsRun([Sim(NewNodes(ids), {}, [])])
  {
  }

  /** Two maps that agree outside a set agree at a key outside it. */
  lemma RestAt<V>(a: map<NodeId, V>, b: map<NodeId, V>, done: set<NodeId>, n: NodeId)
    requires a - done == b - done && n !in done && n in a
    ensures n in b && a[n] == b[n]
  {
    assert n in a - done && (a - done)[n] == a[n];
    assert n in b - done && (b - done)[n] == b[n];
  }

  lemma RestLess<V>(a: map<NodeId, V>, a': map<NodeId, V>, b: map<NodeId, V>, done: set<NodeId>, n: NodeId)
    requires a - done == b - done && a' - {n} == a - {n}
    ensures a' - (done + {n}) == b - (done + {n})
  {
    assert a' - (done + {n}) == (a' - {n}) - done;
    assert (a - {n}) - done == (a - done) - {n};
    assert (b - done) - {n} == b - (done + {n});
  }

  // ---------- What happened ----------

  ghost predicate HappenedAt(before: seq<Sim>, after: seq<Sim>, events: seq<Event>, i: nat) {
    i < |events| && 0 < |before| && |before| + i < |after| ==>
      var c := after[|before| + i - 1];
      Actor(events[i]) in c.nodes && after[|before| + i] == P.After(c, events[i])
  }

  /** `after` is `before` followed by one state for each of these events, in this order. */
  ghost predicate Happened(before: seq<Sim>, after: seq<Sim>, events: seq<Event>) {
    && 0 < |before| && before <= after && |after| == |before| + |events|
    && forall i: nat {:trigger HappenedAt(before, after, events, i)} :: HappenedAt(before, after, events, i)
  }

  lemma NothingHappened(run: seq<Sim>)
    requires 0 < |run|
    ensures Happened(run, run, [])
  {
  }

  lemma OneMoreHappened(before: seq<Sim>, after: seq<Sim>, events: seq<Event>, e: Event)
    requires Happened(before, after, events) && Actor(e) in after[|after| - 1].nodes
    ensures Happened(before, after + [P.After(after[|after| - 1], e)], events + [e])
  {
    var longer, more := after + [P.After(after[|after| - 1], e)], events + [e];
    forall i: nat ensures HappenedAt(before, longer, more, i) { assert HappenedAt(before, after, events, i); }
  }

  lemma BothHappened(a: seq<Sim>, b: seq<Sim>, c: seq<Sim>, first: seq<Event>, then_: seq<Event>)
    requires Happened(a, b, first) && Happened(b, c, then_)
    ensures Happened(a, c, first + then_)
  {
    forall i: nat ensures HappenedAt(a, c, first + then_, i) {
      if i < |first| {
        assert HappenedAt(a, b, first, i);
      } else {
        assert HappenedAt(b, c, then_, i - |first|);
      }
    }
  }

  /** Delivered in order of arrival, then of number. */
  ghost predicate InArrivalOrder(ps: seq<Packet>) {
    forall i, j :: 0 <= i < j < |ps| ==> !Earlier(ps[j], ps[i])
  }

  function Deliveries(ps: seq<Packet>): seq<Event>
    decreases |ps|
  {
    if ps == [] then [] else Deliveries(ps[..|ps| - 1]) + [P.Deliver(ps[|ps| - 1].message)]
  }

  predicate SameSide(partition: Option<(set<NodeId>, set<NodeId>)>, a: NodeId, b: NodeId) {
    partition.None? ||
    (a in partition.value.0 && b in partition.value.0) || (a in partition.value.1 && b in partition.value.1)
  }

  /** The receiver is up and on the sender's side. */
  predicate Reaches(nodes: map<NodeId, Peer>, partition: Option<(set<NodeId>, set<NodeId>)>, p: Packet) {
    p.message.to in nodes && nodes[p.message.to].alive && SameSide(partition, p.message.from, p.message.to)
  }

  /** What was due is delivered, lost or still to come, and nothing to come is earlier than
      anything delivered. */
  ghost predicate Underway(taken: seq<Packet>, due: seq<Packet>, delivered: seq<Packet>, nodes: map<NodeId, Peer>,
                           partition: Option<(set<NodeId>, set<NodeId>)>) {
    && (forall p :: p in due ==> p in taken)
    && (forall p :: p in delivered ==> p in taken && Reaches(nodes, partition, p))
    && (forall p :: p in taken && Reaches(nodes, partition, p) ==> p in delivered || p in due)
    && (forall p, q :: p in delivered && q in due ==> !Earlier(q, p))
    && InArrivalOrder(delivered)
  }

  lemma TakeTurn(taken: seq<Packet>, due: seq<Packet>, delivered: seq<Packet>, nodes: map<NodeId, Peer>,
                 partition: Option<(set<NodeId>, set<NodeId>)>, k: nat)
    requires Underway(taken, due, delivered, nodes, partition)
    requires k < |due| && forall j :: 0 <= j < |due| ==> !Earlier(due[j], due[k])
    ensures var rest := due[..k] + due[k + 1..];
            Underway(taken, rest, if Reaches(nodes, partition, due[k]) then delivered + [due[k]] else delivered, nodes, partition)
  {
    var rest := due[..k] + due[k + 1..];
    forall p | p in due && p != due[k] ensures p in rest {
      var j :| 0 <= j < |due| && due[j] == p;
      assert if j < k then rest[j] == p else rest[j - 1] == p;
    }
    assert forall p :: p in rest ==> p in due;
  }

  predicate AliveAs(a: map<NodeId, Peer>, b: map<NodeId, Peer>, n: NodeId) {
    n in a ==> n in b && b[n].alive == a[n].alive
  }

  /** Nobody has gone down or come up. */
  ghost predicate SameAlive(a: map<NodeId, Peer>, b: map<NodeId, Peer>) {
    a.Keys == b.Keys && forall n {:trigger AliveAs(a, b, n)} :: AliveAs(a, b, n)
  }

  lemma DeliveryKeepsAlive(nodes: map<NodeId, Peer>, c: Sim, m: Message)
    requires SameAlive(nodes, c.nodes) && m.to in c.nodes
    ensures SameAlive(nodes, P.After(c, P.Deliver(m)).nodes)
  {
    var after := P.After(c, P.Deliver(m)).nodes;
    HandlingKeepsAlive(c.nodes.Keys, c.nodes[m.to], m);
    forall n ensures AliveAs(nodes, after, n) { assert AliveAs(nodes, c.nodes, n); }
  }

  lemma HandlingKeepsAlive(ids: set<NodeId>, p: Peer, m: Message)
    ensures Handle(ids, p, m).peer.alive == p.alive
  {
  }

  /** What a live node's timer does now, if anything. */
  function DueTimer(n: NodeId, p: Peer, deadline: real, heartbeat: nat, now: nat): seq<Event> {
    if !p.alive then []
    else if p.role == Leader then (if now >= heartbeat then [P.Beat(n)] else [])
    else if now as real >= deadline then [Elect(n)] else []
  }

  /** The timers due among some nodes, in the order of the nodes. */
  function DueTimers(ids: seq<NodeId>, nodes: map<NodeId, Peer>, deadlines: map<NodeId, real>, heartbeats: map<NodeId, nat>,
                     now: nat): seq<Event>
    requires forall n :: n in ids ==> n in nodes && n in deadlines && n in heartbeats
    decreases |ids|
  {
    if ids == [] then []
    else
      var n := ids[|ids| - 1];
      DueTimers(ids[..|ids| - 1], nodes, deadlines, heartbeats, now) + DueTimer(n, nodes[n], deadlines[n], heartbeats[n], now)
  }

  lemma {:induction false} OnlyTimers(ids: seq<NodeId>, nodes: map<NodeId, Peer>, deadlines: map<NodeId, real>,
                                      heartbeats: map<NodeId, nat>, now: nat)
    requires forall n :: n in ids ==> n in nodes && n in deadlines && n in heartbeats
    ensures forall e :: e in DueTimers(ids, nodes, deadlines, heartbeats, now) ==> e.Beat? || e.Elect?
    decreases |ids|
  {
    if ids != [] { OnlyTimers(ids[..|ids| - 1], nodes, deadlines, heartbeats, now); }
  }

  class Simulator {
    const ids: seq<NodeId>
    const rng: nat -> Fraction

    var now: nat
    var draws: nat
    var nodes: map<NodeId, Peer>
    var electionDeadline: map<NodeId, real>
    var heartbeatDue: map<NodeId, nat>
    var messages: seq<Packet>
    var partition: Option<(set<NodeId>, set<NodeId>)>
    var leaderHistory: seq<Win>
    var nextMsg: nat
    var nextValue: nat
    ghost var sent: set<Message>
    ghost var trace: seq<Sim>

    ghost function State(): Sim
      reads this
    {
      Sim(nodes, sent, leaderHistory)
    }

    /** The parts of the object fit together. */
    ghost predicate Fits()
      reads this
    {
      && Distinct(ids) && nodes.Keys == IdSet(ids) && electionDeadline.Keys == IdSet(ids) && heartbeatDue.Keys == IdSet(ids)
      && AllSent(messages, sent)
    }

    /** The past of this object is a run that ends in its present state. */
    ghost predicate Valid()
      reads this
    {
      Fits() && IsRun(trace) && trace[|trace| - 1] == State()
    }

    constructor (n: nat, rng: nat -> Fraction)
      ensures Valid() && |ids| == n && (forall i :: 0 <= i < n ==> ids[i] == i + 1)
      ensures nodes == NewNodes(ids)
      ensures messages == [] && leaderHistory == [] && partition == None && now == 0 && this.rng == rng
    {
      var all := seq(n, i => i + 1);
      ids := all;
      this.rng := rng;
      now, draws, messages, partition, leaderHistory, nextMsg, nextValue := 0, 0, [], None, [], 1, 1;
      nodes := NewNodes(all);
      electionDeadline := map i | i in IdSet(all) :: 0.0;
      heartbeatDue := map i | i in IdSet(all) :: 0;
      sent, trace := {}, [];
      new;
      NumbersDiffer(n);
      NewRun(all);
      trace := [Sim(NewNodes(all), {}, [])];
      ResetAll();
    }

    method ResetAll()
      requires electionDeadline.Keys == IdSet(ids)
      modifies this`draws, this`electionDeadline
      ensures electionDeadline.Keys == IdSet(ids)
    {
      var i := 0;
      while i < |ids|
        invariant electionDeadline.Keys == IdSet(ids)
      {
        ResetElection(ids[i]);
        i := i + 1;
      }
    }

    // ---------- Time and messages ----------

    method Between(lo: real, hi: real) returns (x: real)
      requires lo < hi
      modifies this`draws
      ensures lo <= x < hi
    {
      x := lo + Portion(hi - lo, rng(draws));
      draws := draws + 1;
    }

    method ResetElection(n: NodeId)
      requires n in electionDeadline
      modifies this`draws, this`electionDeadline
      ensures electionDeadline.Keys == old(electionDeadline.Keys) && electionDeadline - {n} == old(electionDeadline) - {n}
      ensures now as real + ELECTION_MIN as real <= electionDeadline[n] < now as real + ELECTION_MAX as real
    {
      var wait := Between(ELECTION_MIN as real, ELECTION_MAX as real);
      electionDeadline := electionDeadline[n := now as real + wait];
    }

    method Send(m: Message)
      requires AllSent(messages, sent)
      modifies this`draws, this`messages, this`nextMsg, this`sent
      ensures AllSent(messages, sent) && sent == old(sent) + {m}
      ensures |messages| == |old(messages)| + 1 && messages[..|old(messages)|] == old(messages)
      ensures var p := messages[|old(messages)|];
              p.message == m && p.id == old(nextMsg) && p.sentAt == now &&
              now as real + LATENCY_MIN as real <= p.arriveAt < now as real + LATENCY_MAX as real
      ensures nextMsg == old(nextMsg) + 1
    {
      var latency := Between(LATENCY_MIN as real, LATENCY_MAX as real);
      messages := messages + [Packet(nextMsg, m, now, now as real + latency)];
      nextMsg, sent := nextMsg + 1, sent + {m};
    }

    predicate InSameSide(a: NodeId, b: NodeId)
      reads this
    {
      SameSide(partition, a, b)
    }

    // ---------- Elections ----------

    method StartElection(n: NodeId)
      requires Fits() && n in nodes
      modifies this
      ensures Fits() && State() == P.After(old(State()), Elect(n))
      ensures trace == old(trace) && now == old(now) && partition == old(partition)
      ensures heartbeatDue == old(heartbeatDue) && electionDeadline - {n} == old(electionDeadline) - {n}
    {
      var p := nodes[n];
      p := p.(term := p.term + 1, role := Candidate, votedFor := Some(n), votes := {n});
      nodes := nodes[n := p];
      ResetElection(n);
      AskAll(n, p);
    }

    method AskAll(n: NodeId, p: Peer)
      requires AllSent(messages, sent)
      modifies this`draws, this`messages, this`nextMsg, this`sent
      ensures AllSent(messages, sent) && sent == old(sent) + Asks(IdSet(ids), n, p)
    {
      var i := 0;
      while i < |ids|
        invariant i <= |ids| && AllSent(messages, sent) && sent == old(sent) + Asks(IdSet(ids[..i]), n, p)
      {
        OneMoreAsk(ids, i, n, p);
        Regroup(old(sent), Asks(IdSet(ids[..i]), n, p), if ids[i] == n then {} else {Ask(p, n, ids[i])});
        if ids[i] != n { Send(RV(n, ids[i], p.term, |p.log|, LastTerm(p.log))); }
        i := i + 1;
      }
      assert ids[..i] == ids;
    }

    /** Fresh books for every node, over whatever an earlier term left. */
    method BecomeLeader(n: NodeId, p: Peer) returns (p': Peer)
      requires n in heartbeatDue && p.nextIndex.Keys <= IdSet(ids) && p.matchIndex.Keys <= IdSet(ids)
      modifies this`leaderHistory, this`heartbeatDue
      ensures p' == P.BecomeLeader(IdSet(ids), p) && leaderHistory == old(leaderHistory) + [Won(p.term, n)]
      ensures heartbeatDue == old(heartbeatDue)[n := now]
    {
      leaderHistory := leaderHistory + [Won(p.term, n)];
      var next, match_ := p.nextIndex, p.matchIndex;
      var i := 0;
      while i < |ids|
        invariant i <= |ids| && next.Keys <= IdSet(ids) && match_.Keys <= IdSet(ids)
        invariant forall q :: q in ids[..i] ==> q in next && next[q] == |p.log| + 1 && q in match_ && match_[q] == 0
      {
        next, match_ := next[ids[i] := |p.log| + 1], match_[ids[i] := 0];
        i := i + 1;
      }
      assert ids[..i] == ids;
      p' := p.(role := Leader, nextIndex := next, matchIndex := match_);
      ghost var spec := P.BecomeLeader(IdSet(ids), p);
      assert next == spec.nextIndex;
      assert match_ == spec.matchIndex;
      heartbeatDue := heartbeatDue[n := now];
    }

    method OnVoteRequest(p: Peer, m: Message) returns (p': Peer)
      requires m.RV? && AllSent(messages, sent) && m.to in electionDeadline
      modifies this`draws, this`messages, this`nextMsg, this`sent, this`electionDeadline
      ensures AllSent(messages, sent) && electionDeadline.Keys == old(electionDeadline.Keys)
      ensures p' == OnRV(p, m).peer && sent == old(sent) + OnRV(p, m).out && OnRV(p, m).wins == []
    {
      p' := p;
      var upToDate := m.lastTerm > LastTerm(p.log) || (m.lastTerm == LastTerm(p.log) && m.lastIndex >= |p.log|);
      var granted := m.term == p.term && (p.votedFor == None || p.votedFor == Some(m.from)) && upToDate;
      if granted {
        p' := p.(votedFor := Some(m.from));
        ResetElection(m.to);
      }
      Send(RVR(m.to, m.from, p.term, granted));
    }

    method OnVote(p: Peer, m: Message) returns (p': Peer)
      requires m.RVR? && m.to in heartbeatDue && p.nextIndex.Keys <= IdSet(ids) && p.matchIndex.Keys <= IdSet(ids)
      modifies this`leaderHistory, this`heartbeatDue
      ensures heartbeatDue.Keys == old(heartbeatDue.Keys)
      ensures var r := OnRVR(IdSet(ids), p, m); p' == r.peer && leaderHistory == old(leaderHistory) + r.wins && r.out == {}
    {
      p' := p;
      if p.role == Candidate && m.term == p.term && m.granted {
        p' := p.(votes := p.votes + {m.from});
        if |p'.votes| >= |IdSet(ids)| / 2 + 1 {
          p' := BecomeLeader(m.to, p');
        }
      }
    }

    // ---------- Replication ----------

    method SendAppend(p: Peer, me: NodeId, to: NodeId)
      requires AllSent(messages, sent) && to in p.nextIndex && 1 <= p.nextIndex[to] <= |p.log| + 1
      modifies this`draws, this`messages, this`nextMsg, this`sent
      ensures AllSent(messages, sent) && sent == old(sent) + {P.SendAppend(p, me, to)}
    {
      var prev := p.nextIndex[to] - 1;
      var end := if prev + MAX_ENTRIES < |p.log| then prev + MAX_ENTRIES else |p.log|;
      var m := AE(me, to, p.term, prev, if prev > 0 then p.log[prev - 1].term else 0, p.log[prev..end], p.commitIndex);
      AppendIs(p, me, to, prev, end);
      Send(m);
    }

    /** The merge loop: one entry at a time, cutting where the terms differ. */
    static method MergeEntries(log: Log, prev: nat, entries: Log) returns (merged: Log)
      requires prev <= |log|
      ensures merged == MergeEach(log, prev, entries)
    {
      merged := log;
      var k := 0;
      while k < |entries|
        invariant k <= |entries| && prev + k <= |merged|
        invariant MergeEach(merged, prev + k, entries[k..]) == MergeEach(log, prev, entries)
      {
        var e, i := entries[k], prev + k;
        if i < |merged| && merged[i].term != e.term { merged := merged[..i]; }
        if i >= |merged| { merged := merged + [e]; }
        assert entries[k..][1..] == entries[k + 1..];
        k := k + 1;
      }
    }

    method OnAppend(p: Peer, m: Message) returns (p': Peer)
      requires m.AE? && AllSent(messages, sent) && m.to in electionDeadline
      modifies this`draws, this`messages, this`nextMsg, this`sent, this`electionDeadline
      ensures AllSent(messages, sent) && electionDeadline.Keys == old(electionDeadline.Keys)
      ensures p' == OnAE(p, m).peer && sent == old(sent) + OnAE(p, m).out && OnAE(p, m).wins == []
    {
      p' := p;
      if m.term < p.term {
        Send(AER(m.to, m.from, p.term, false, 0));
        return;
      }
      if p.role != Follower { p' := BecomeFollower(p, m.term); }
      ResetElection(m.to);
      var ok := m.prevIndex == 0 || (m.prevIndex <= |p'.log| && p'.log[m.prevIndex - 1].term == m.prevTerm);
      if !ok {
        Send(AER(m.to, m.from, p'.term, false, 0));
        return;
      }
      var merged := MergeEntries(p'.log, m.prevIndex, m.entries);
      var match_ := m.prevIndex + |m.entries|;
      p' := p'.(log := merged, commitIndex := Max(p'.commitIndex, Min(m.commit, match_)));
      Send(AER(m.to, m.from, p'.term, true, match_));
    }

    /** How many other nodes are known to hold entry i. */
    method CountHolders(p: Peer, me: NodeId, i: nat) returns (count: nat)
      requires Distinct(ids)
      requires IdSet(ids) <= p.matchIndex.Keys
      ensures count == |Holders(IdSet(ids), me, p, i)|
    {
      count := 0;
      var k := 0;
      while k < |ids|
        invariant k <= |ids| && count == |Holders(IdSet(ids[..k]), me, p, i)|
      {
        OneMoreHolder(ids, k, me, p, i);
        if ids[k] != me && p.matchIndex[ids[k]] >= i { count := count + 1; }
        k := k + 1;
      }
      assert ids[..k] == ids;
    }

    method AdvanceCommit(p: Peer, me: NodeId) returns (p': Peer)
      requires Distinct(ids)
      requires IdSet(ids) <= p.matchIndex.Keys
      ensures p' == P.AdvanceCommit(IdSet(ids), me, p)
    {
      p' := p;
      var i: nat := |p.log|;
      while i > p.commitIndex
        invariant i <= |p.log| && ScanDown(IdSet(ids), me, p, i) == ScanDown(IdSet(ids), me, p, |p.log|)
        decreases i
      {
        if p.log[i - 1].term != p.term { break; }
        var count := CountHolders(p, me, i);
        if 1 + count >= |IdSet(ids)| / 2 + 1 {
          p' := p.(commitIndex := i);
          return;
        }
        i := i - 1;
      }
      assert p' == p.(commitIndex := p.commitIndex);
    }

    method OnAnswer(p: Peer, m: Message) returns (p': Peer)
      requires m.AER? && AllSent(messages, sent) && Distinct(ids)
      requires p.role == Leader ==>
                 IdSet(ids) <= p.matchIndex.Keys && m.from in p.matchIndex && m.from in p.nextIndex &&
                 1 <= p.nextIndex[m.from] <= |p.log| + 1
      modifies this`draws, this`messages, this`nextMsg, this`sent
      ensures AllSent(messages, sent)
      ensures var r := OnAER(IdSet(ids), p, m); p' == r.peer && sent == old(sent) + r.out && r.wins == []
    {
      p' := p;
      if p.role != Leader || m.term != p.term { return; }
      if m.success {
        var match_ := Max(p.matchIndex[m.from], m.matchIndex);
        p' := p.(matchIndex := p.matchIndex[m.from := match_], nextIndex := p.nextIndex[m.from := match_ + 1]);
        assert p' == Confirmed(p, m.from, m.matchIndex);
        p' := AdvanceCommit(p', m.to);
      } else {
        var next := if p.nextIndex[m.from] > 1 then p.nextIndex[m.from] - 1 else 1;
        p' := p.(nextIndex := p.nextIndex[m.from := next]);
        SendAppend(p', m.to, m.from);
      }
    }

    // ---------- Delivering ----------

    /** One message reaches a live node. */
    method Deliver(m: Message)
      requires Valid() && m in sent && m.to in nodes && nodes[m.to].alive
      modifies this
      ensures Fits() && State() == P.After(old(State()), P.Deliver(m))
      ensures trace == old(trace) && now == old(now) && partition == old(partition)
    {
      DeliveryFits(trace, m);
      BooksAreFull(trace, m.to, m.from);
      forall q | q in nodes ensures nodes[m.to].role == Leader ==> q in nodes[m.to].matchIndex { BooksAreFull(trace, m.to, q); }
      var p := nodes[m.to];
      if m.term > p.term { p := BecomeFollower(p, m.term); }
      p := Dispatch(p, m);
      nodes := nodes[m.to := p];
    }

    method Dispatch(p: Peer, m: Message) returns (p': Peer)
      requires AllSent(messages, sent) && Distinct(ids) && m.to in electionDeadline && m.to in heartbeatDue
      requires p.nextIndex.Keys <= IdSet(ids) && p.matchIndex.Keys <= IdSet(ids)
      requires p.role == Leader ==>
                 IdSet(ids) <= p.matchIndex.Keys && m.from in p.matchIndex && m.from in p.nextIndex &&
                 1 <= p.nextIndex[m.from] <= |p.log| + 1
      modifies this`draws, this`messages, this`nextMsg, this`sent, this`electionDeadline, this`leaderHistory, this`heartbeatDue
      ensures AllSent(messages, sent)
      ensures electionDeadline.Keys == old(electionDeadline.Keys) && heartbeatDue.Keys == old(heartbeatDue.Keys)
      ensures var r := Switch(IdSet(ids), p, m);
              p' == r.peer && sent == old(sent) + r.out && leaderHistory == old(leaderHistory) + r.wins
    {
      match m
      case RV(_, _, _, _, _) => p' := OnVoteRequest(p, m);
      case RVR(_, _, _, _) => p' := OnVote(p, m);
      case AE(_, _, _, _, _, _, _) => p' := OnAppend(p, m);
      case AER(_, _, _, _, _) => p' := OnAnswer(p, m);
    }

    method Beat(n: NodeId)
      requires Valid() && n in nodes && nodes[n].alive && nodes[n].role == Leader
      modifies this
      ensures Fits() && State() == P.After(old(State()), P.Beat(n))
      ensures trace == old(trace) && now == old(now) && partition == old(partition)
      ensures electionDeadline == old(electionDeadline) && heartbeatDue == old(heartbeatDue)[n := now + HEARTBEAT]
    {
      heartbeatDue := heartbeatDue[n := now + HEARTBEAT];
      var p := nodes[n];
      forall q | q in nodes ensures CanSend(p, q) { BooksAreFull(trace, n, q); }
      assert nodes[n := p] == nodes;
      AppendAll(n, p);
    }

    method AppendAll(n: NodeId, p: Peer)
      requires AllSent(messages, sent)
      requires forall q {:trigger CanSend(p, q)} :: q in IdSet(ids) ==> CanSend(p, q)
      modifies this`draws, this`messages, this`nextMsg, this`sent
      ensures AllSent(messages, sent) && sent == old(sent) + Beats(IdSet(ids), n, p)
    {
      var i := 0;
      while i < |ids|
        invariant i <= |ids| && AllSent(messages, sent) && sent == old(sent) + Beats(IdSet(ids[..i]), n, p)
      {
        OneMoreBeat(ids, i, n, p);
        assert CanSend(p, ids[i]);
        Regroup(old(sent), Beats(IdSet(ids[..i]), n, p), if ids[i] == n then {} else {P.SendAppend(p, n, ids[i])});
        if ids[i] != n { SendAppend(p, n, ids[i]); }
        i := i + 1;
      }
      assert ids[..i] == ids;
    }

    /** The messages that are due leave the network. */
    method TakeDue() returns (due: seq<Packet>)
      modifies this`messages
      ensures forall p :: p in due <==> p in old(messages) && p.arriveAt <= now as real
      ensures forall p :: p in messages <==> p in old(messages) && p.arriveAt > now as real
    {
      due := [];
      var rest, i := [], 0;
      while i < |messages|
        invariant i <= |messages| && unchanged(`messages)
        invariant forall p :: p in due <==> p in messages[..i] && p.arriveAt <= now as real
        invariant forall p :: p in rest <==> p in messages[..i] && p.arriveAt > now as real
      {
        assert messages[..i + 1] == messages[..i] + [messages[i]];
        if messages[i].arriveAt <= now as real { due := due + [messages[i]]; } else { rest := rest + [messages[i]]; }
        i := i + 1;
      }
      assert messages[..i] == messages;
      messages := rest;
    }

    /** The message whose turn it is. */
    static method Earliest(due: seq<Packet>) returns (k: nat)
      requires due != []
      ensures k < |due| && forall j :: 0 <= j < |due| ==> !Earlier(due[j], due[k])
    {
      k := 0;
      var i := 1;
      while i < |due|
        invariant k < i <= |due| && forall j :: 0 <= j < i ==> !Earlier(due[j], due[k])
      {
        if Earlier(due[i], due[k]) { k := i; }
        i := i + 1;
      }
    }

    /** One step of a run happens, and the trace records it. */
    ghost method Record(was: seq<Sim>, events: seq<Event>, e: Event)
      requires Fits() && IsRun(trace) && Happened(was, trace, events)
      requires Enabled(trace[|trace| - 1], e) && State() == P.After(trace[|trace| - 1], e)
      modifies this`trace
      ensures Valid() && Happened(was, trace, events + [e])
    {
      RunThen(trace, e);
      OneMoreHappened(was, trace, events, e);
      trace := trace + [State()];
    }

    /** The next due message is delivered, or lost when its receiver is down or across the partition. */
    method DeliverNext(p: Packet, ghost was: seq<Sim>, ghost events: seq<Event>) returns (reached: bool)
      requires Valid() && p.message in sent && Happened(was, trace, events)
      modifies this
      ensures Valid() && now == old(now) && partition == old(partition) && old(sent) <= sent
      ensures reached == Reaches(old(nodes), old(partition), p) && nodes.Keys == old(nodes.Keys)
      ensures Happened(was, trace, if reached then events + [P.Deliver(p.message)] else events)
      ensures if reached then nodes == P.After(old(State()), P.Deliver(p.message)).nodes else nodes == old(nodes)
    {
      var m := p.message;
      DeliveryFits(trace, m);
      reached := nodes[m.to].alive && InSameSide(m.from, m.to);
      if reached {
        Deliver(m);
        Record(was, events, P.Deliver(m));
      }
    }

    /** Due messages arrive in order, unless their receiver is down or across the partition.
        `delivered` are those that did arrive. */
    method DeliverDue() returns (ghost delivered: seq<Packet>)
      requires Valid()
      modifies this
      ensures Valid() && now == old(now) && partition == old(partition) && SameAlive(old(nodes), nodes)
      ensures forall p :: p in delivered <==>
                p in old(messages) && p.arriveAt <= now as real && Reaches(old(nodes), partition, p)
      ensures InArrivalOrder(delivered) && Happened(old(trace), trace, Deliveries(delivered))
    {
      var due := TakeDue();
      ghost var taken := due;
      delivered := [];
      NothingHappened(trace);
      while due != []
        invariant Valid() && now == old(now) && partition == old(partition) && SameAlive(old(nodes), nodes)
        invariant AllSent(due, sent) && Underway(taken, due, delivered, old(nodes), partition)
        invariant Happened(old(trace), trace, Deliveries(delivered))
        decreases |due|
      {
        var k := Earliest(due);
        var p := due[k];
        TakeTurn(taken, due, delivered, old(nodes), partition, k);
        due := due[..k] + due[k + 1..];
        ghost var c := State();
        assert AliveAs(old(nodes), nodes, p.message.to);
        var reached := DeliverNext(p, old(trace), Deliveries(delivered));
        if reached {
          DeliveryKeepsAlive(old(nodes), c, p.message);
          assert (delivered + [p])[..|delivered|] == delivered;
          delivered := delivered + [p];
        }
      }
    }

    /** The node's timer fires if it is due. */
    method RunTimer(n: NodeId, ghost was: seq<Sim>, ghost events: seq<Event>)
      requires Valid() && n in nodes && Happened(was, trace, events)
      modifies this
      ensures Valid() && now == old(now) && partition == old(partition)
      ensures nodes - {n} == old(nodes) - {n}
      ensures electionDeadline - {n} == old(electionDeadline) - {n} && heartbeatDue - {n} == old(heartbeatDue) - {n}
      ensures Happened(was, trace, events + DueTimer(n, old(nodes)[n], old(electionDeadline)[n], old(heartbeatDue)[n], now))
    {
      assert events + [] == events;
      if !nodes[n].alive { return; }
      if nodes[n].role == Leader {
        if now >= heartbeatDue[n] { FireHeartbeat(n, was, events); }
      } else if now as real >= electionDeadline[n] {
        FireElection(n, was, events);
      }
    }

    method FireHeartbeat(n: NodeId, ghost was: seq<Sim>, ghost events: seq<Event>)
      requires Valid() && n in nodes && nodes[n].alive && nodes[n].role == Leader && Happened(was, trace, events)
      modifies this
      ensures Valid() && now == old(now) && partition == old(partition) && nodes == old(nodes)
      ensures electionDeadline == old(electionDeadline) && heartbeatDue - {n} == old(heartbeatDue) - {n}
      ensures Happened(was, trace, events + [P.Beat(n)])
    {
      ghost var p := nodes[n];
      Beat(n);
      Record(was, events, P.Beat(n));
      assert old(nodes)[n := p] == old(nodes);
    }

    method FireElection(n: NodeId, ghost was: seq<Sim>, ghost events: seq<Event>)
      requires Valid() && n in nodes && nodes[n].alive && nodes[n].role != Leader && Happened(was, trace, events)
      modifies this
      ensures Valid() && now == old(now) && partition == old(partition) && nodes - {n} == old(nodes) - {n}
      ensures heartbeatDue == old(heartbeatDue) && electionDeadline - {n} == old(electionDeadline) - {n}
      ensures Happened(was, trace, events + [Elect(n)])
    {
      StartElection(n);
      Record(was, events, Elect(n));
    }

    /** Exactly the heartbeats and elections that are due, node by node. */
    method RunTimers()
      requires Valid()
      modifies this
      ensures Valid() && now == old(now) && partition == old(partition)
      ensures Happened(old(trace), trace, DueTimers(ids, old(nodes), old(electionDeadline), old(heartbeatDue), now))
    {
      ghost var d0, h0 := electionDeadline, heartbeatDue;
      ghost var n0 := nodes;
      NothingHappened(trace);
      var i := 0;
      while i < |ids|
        invariant i <= |ids| && Valid() && now == old(now) && partition == old(partition)
        invariant nodes - IdSet(ids[..i]) == n0 - IdSet(ids[..i])
        invariant electionDeadline - IdSet(ids[..i]) == d0 - IdSet(ids[..i])
        invariant heartbeatDue - IdSet(ids[..i]) == h0 - IdSet(ids[..i])
        invariant Happened(old(trace), trace, DueTimers(ids[..i], n0, d0, h0, now))
      {
        assert IsNew(ids, i);
        OneMoreId(ids, i);
        assert ids[..i + 1][..i] == ids[..i];
        RestAt(nodes, n0, IdSet(ids[..i]), ids[i]);
        RestAt(electionDeadline, d0, IdSet(ids[..i]), ids[i]);
        RestAt(heartbeatDue, h0, IdSet(ids[..i]), ids[i]);
        ghost var n1, d1, h1 := nodes, electionDeadline, heartbeatDue;
        RunTimer(ids[i], old(trace), DueTimers(ids[..i], n0, d0, h0, now));
        RestLess(n1, nodes, n0, IdSet(ids[..i]), ids[i]);
        RestLess(d1, electionDeadline, d0, IdSet(ids[..i]), ids[i]);
        RestLess(h1, heartbeatDue, h0, IdSet(ids[..i]), ids[i]);
        i := i + 1;
      }
      assert ids[..i] == ids;
    }

    /** First what arrives, then the timers of whoever is still up. */
    method Tick() returns (ghost delivered: seq<Packet>, ghost fired: seq<Event>)
      requires Valid()
      modifies this
      ensures Valid() && now == old(now) && partition == old(partition)
      ensures forall p :: p in delivered <==>
                p in old(messages) && p.arriveAt <= now as real && Reaches(old(nodes), partition, p)
      ensures InArrivalOrder(delivered) && forall e :: e in fired ==> e.Beat? || e.Elect?
      ensures Happened(old(trace), trace, Deliveries(delivered) + fired)
    {
      delivered := DeliverDue();
      ghost var between := trace;
      fired := DueTimers(ids, nodes, electionDeadline, heartbeatDue, now);
      OnlyTimers(ids, nodes, electionDeadline, heartbeatDue, now);
      RunTimers();
      BothHappened(old(trace), between, trace, Deliveries(delivered), fired);
    }

    method Step(dt: nat)
      requires Valid()
      modifies this
      ensures Valid() && old(trace) <= trace && now == old(now) + dt && partition == old(partition)
    {
      var end := now + dt;
      while now < end
        invariant Valid() && old(trace) <= trace && now <= end && partition == old(partition)
      {
        now := now + 1;
        ghost var delivered, fired := Tick();
      }
    }

    // ---------- What the page's visitor does ----------

    method ToggleNode(n: NodeId)
      requires Valid() && n in nodes
      modifies this
      ensures Valid() && trace == old(trace) + [State()] && State() == P.After(old(State()), Toggle(n))
      ensures var p := old(nodes)[n];
              nodes == old(nodes)[n := if p.alive then p.(alive := false) else p.(alive := true, role := Follower, votes := {})]
      ensures now == old(now) && partition == old(partition) && messages == old(messages)
    {
      RunThen(trace, Toggle(n));
      var p := nodes[n];
      p := p.(alive := !p.alive);
      if p.alive {
        p := p.(role := Follower, votes := {});
        ResetElection(n);
      }
      nodes := nodes[n := p];
      assert State() == P.After(old(State()), Toggle(n));
      trace := trace + [State()];
    }

    /** Splits the first two nodes from the rest, or heals the network. */
    method SetPartition(on: bool)
      requires Valid()
      modifies this`partition
      ensures Valid() && State() == old(State()) && (partition.Some? <==> on)
      ensures on ==> partition.value.0 + partition.value.1 == nodes.Keys && partition.value.0 !! partition.value.1
      ensures on ==> |partition.value.0| == if |ids| < 2 then |ids| else 2
      ensures on ==> var k := if |ids| < 2 then |ids| else 2; partition.value == (IdSet(ids[..k]), IdSet(ids[k..]))
    {
      var k := if |ids| < 2 then |ids| else 2;
      partition := if on then Some((IdSet(ids[..k]), IdSet(ids[k..]))) else None;
      assert ids == ids[..k] + ids[k..];
      SidesApart(ids, k);
    }

    /** Every live node that believes it leads takes the new entry. */
    method ClientWrite() returns (accepted: nat)
      requires Valid()
      modifies this
      ensures Valid() && old(trace) <= trace && nextValue == old(nextValue) + 1
      ensures accepted == |Leading(old(nodes), old(nodes.Keys))| && nodes == WrittenTo(old(nodes), old(nodes.Keys), old(nextValue))
    {
      var value := nextValue;
      nextValue := nextValue + 1;
      accepted := 0;
      var i := 0;
      WriteNone(nodes, value);
      while i < |ids|
        invariant i <= |ids| && Valid() && old(trace) <= trace && nextValue == value + 1
        invariant accepted == |Leading(old(nodes), IdSet(ids[..i]))|
        invariant nodes == WrittenTo(old(nodes), IdSet(ids[..i]), value)
      {
        assert IsNew(ids, i);
        WriteOneMore(old(nodes), IdSet(ids[..i]), ids[i], value);
        OneMoreId(ids, i);
        var took := Offer(ids[i], value);
        if took { accepted := accepted + 1; }
        i := i + 1;
      }
      assert ids[..i] == ids;
    }

    method Offer(n: NodeId, value: nat) returns (took: bool)
      requires Valid() && n in nodes
      modifies this`nodes, this`trace
      ensures Valid() && old(trace) <= trace && took == (old(nodes)[n].alive && old(nodes)[n].role == Leader)
      ensures nodes == if took then old(nodes)[n := Written(old(nodes)[n], value)] else old(nodes)
    {
      took := nodes[n].alive && nodes[n].role == Leader;
      if !took { return; }
      RunThen(trace, Write(n, value));
      nodes := nodes[n := Written(nodes[n], value)];
      assert sent + {} == sent && leaderHistory + [] == leaderHistory;
      assert State() == P.After(old(State()), Write(n, value));
      trace := trace + [State()];
    }
  }

  function Written(p: Peer, value: nat): Peer { p.(log := p.log + [Entry(p.term, Value(value))]) }

  function Leading(nodes: map<NodeId, Peer>, among: set<NodeId>): set<NodeId> {
    set n | n in among && n in nodes && nodes[n].alive && nodes[n].role == Leader
  }

  /** Every live leader among some nodes has taken the value. */
  function WrittenTo(nodes: map<NodeId, Peer>, among: set<NodeId>, value: nat): map<NodeId, Peer> {
    map n | n in nodes :: if n in Leading(nodes, among) then Written(nodes[n], value) else nodes[n]
  }

  lemma WriteNone(nodes: map<NodeId, Peer>, value: nat)
    ensures WrittenTo(nodes, {}, value) == nodes && Leading(nodes, {}) == {}
  {
  }

  lemma WriteOneMore(nodes: map<NodeId, Peer>, among: set<NodeId>, n: NodeId, value: nat)
    requires n in nodes && n !in among
    ensures var p, all := nodes[n], among + {n};
            WrittenTo(nodes, among, value)[n] == p &&
            (if p.alive && p.role == Leader then
               |Leading(nodes, all)| == |Leading(nodes, among)| + 1 &&
               WrittenTo(nodes, all, value) == WrittenTo(nodes, among, value)[n := Written(p, value)]
             else Leading(nodes, all) == Leading(nodes, among) && WrittenTo(nodes, all, value) == WrittenTo(nodes, among, value))
  {
    var p := nodes[n];
    if p.alive && p.role == Leader {
      assert Leading(nodes, among + {n}) == Leading(nodes, among) + {n};
    } else {
      assert Leading(nodes, among + {n}) == Leading(nodes, among);
    }
  }

  lemma SidesApart(ids: seq<NodeId>, k: nat)
    requires k <= |ids| && Distinct(ids)
    ensures IdSet(ids[..k]) !! IdSet(ids[k..]) && |IdSet(ids[..k])| == k
  {
    forall i | k <= i < |ids| ensures ids[i] !in ids[..k] {
      assert IsNew(ids, i);
    }
    SetSize(ids, k);
  }

  lemma {:induction false} SetSize(ids: seq<NodeId>, k: nat)
    requires k <= |ids| && Distinct(ids)
    ensures |IdSet(ids[..k])| == k
  {
    if k > 0 {
      SetSize(ids, k - 1);
      assert IsNew(ids, k - 1);
      OneMoreId(ids, k - 1);
    }
  }

  /** What the page shows after any use of it: one leader id per term over all the leaders
      there have been, and equal committed prefixes on every two nodes. */
  lemma PageIsSafe(sim: Simulator)
    requires sim.Valid()
    ensures forall i, j :: 0 <= i < |sim.leaderHistory| && 0 <= j < |sim.leaderHistory| &&
                           sim.leaderHistory[i].term == sim.leaderHistory[j].term ==>
                             sim.leaderHistory[i].id == sim.leaderHistory[j].id
    ensures forall m, n :: m in sim.nodes && n in sim.nodes ==>
              Agree(sim.nodes[m].log, sim.nodes[n].log, Min(sim.nodes[m].commitIndex, sim.nodes[n].commitIndex))
  {
    var run := sim.trace;
    forall i, j | 0 <= i < |sim.leaderHistory| && 0 <= j < |sim.leaderHistory| && sim.leaderHistory[i].term == sim.leaderHistory[j].term
      ensures sim.leaderHistory[i].id == sim.leaderHistory[j].id
    {
      OneLeaderIdPerTerm(run, i, j);
    }
    forall m, n | m in sim.nodes && n in sim.nodes
      ensures Agree(sim.nodes[m].log, sim.nodes[n].log, Min(sim.nodes[m].commitIndex, sim.nodes[n].commitIndex))
    {
      CommittedPrefixesEqual(run, |run| - 1, |run| - 1, m, n, Min(sim.nodes[m].commitIndex, sim.nodes[n].commitIndex));
    }
  }
}
