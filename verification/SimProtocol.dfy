/** The browser simulator's Raft, as functions on its nodes: no pre-vote, no no-op,
    votes kept as a set, batches of at most eight, commit indices kept over crashes.
    A message once sent may be delivered at any time, in any order, or never. */
module SimProtocol {
  import opened RaftTypes
  import E = Engine

  const MAX_ENTRIES := 8

  datatype Peer = Peer(
    alive: bool, role: Role, term: nat, votedFor: Option<NodeId>, log: Log, commitIndex: nat,
    votes: set<NodeId>, nextIndex: map<NodeId, nat>, matchIndex: map<NodeId, nat>)

  datatype Message =
    | RV(from: NodeId, to: NodeId, term: nat, lastIndex: nat, lastTerm: nat)
    | RVR(from: NodeId, to: NodeId, term: nat, granted: bool)
    | AE(from: NodeId, to: NodeId, term: nat, prevIndex: nat, prevTerm: nat, entries: Log, commit: nat)
    | AER(from: NodeId, to: NodeId, term: nat, success: bool, matchIndex: nat)

  datatype Win = Won(term: nat, id: NodeId)

  /** `sent` holds every message ever sent. */
  datatype Sim = Sim(nodes: map<NodeId, Peer>, sent: set<Message>, leaderHistory: seq<Win>)

  datatype Event = Deliver(m: Message) | Elect(n: NodeId) | Beat(n: NodeId) | Toggle(n: NodeId) | Write(n: NodeId, value: nat)

  /** What a node does in one step: its new state, its messages, and whether it won an election. */
  datatype Outcome = Outcome(peer: Peer, out: set<Message>, wins: seq<Win>)

  function NewPeer(): Peer { Peer(true, Follower, 0, None, [], 0, {}, map[], map[]) }

  function Majority(ids: set<NodeId>): nat { |ids| / 2 + 1 }

  function BecomeFollower(p: Peer, t: nat): Peer {
    var p1 := if t > p.term then p.(term := t, votedFor := None) else p;
    p1.(role := Follower, votes := {})
  }

  // ---------- Elections ----------

  function Ask(p: Peer, me: NodeId, to: NodeId): Message { RV(me, to, p.term, |p.log|, LastTerm(p.log)) }

  function Asks(ids: set<NodeId>, n: NodeId, p: Peer): set<Message> {
    set q | q in ids && q != n :: Ask(p, n, q)
  }

  function StartElection(ids: set<NodeId>, n: NodeId, p: Peer): Outcome {
    var p1 := p.(term := p.term + 1, role := Candidate, votedFor := Some(n), votes := {n});
    Outcome(p1, Asks(ids, n, p1), [])
  }

  function OnRV(p: Peer, m: Message): Outcome
    requires m.RV?
  {
    var granted := m.term == p.term && p.votedFor in {None, Some(m.from)} && UpToDate(m.lastTerm, m.lastIndex, p.log);
    Outcome(if granted then p.(votedFor := Some(m.from)) else p, {RVR(m.to, m.from, p.term, granted)}, [])
  }

  function BecomeLeader(ids: set<NodeId>, p: Peer): Peer {
    p.(role := Leader, nextIndex := map q | q in ids :: |p.log| + 1, matchIndex := map q | q in ids :: 0)
  }

  function OnRVR(ids: set<NodeId>, p: Peer, m: Message): Outcome
    requires m.RVR?
  {
    if p.role != Candidate || m.term != p.term || !m.granted then Outcome(p, {}, [])
    else
      var p1 := p.(votes := p.votes + {m.from});
      if |p1.votes| >= Majority(ids) then Outcome(BecomeLeader(ids, p1), {}, [Won(p.term, m.to)])
      else Outcome(p1, {}, [])
  }

  // ---------- Replication ----------

  function Next(p: Peer, q: NodeId): nat {
    if q in p.nextIndex && p.nextIndex[q] > 0 then p.nextIndex[q] else 1
  }

  function Match(p: Peer, q: NodeId): nat {
    if q in p.matchIndex then p.matchIndex[q] else 0
  }

  function Slice(log: Log, lo: nat, hi: nat): Log {
    if lo >= |log| || hi <= lo then [] else if hi >= |log| then log[lo..] else log[lo..hi]
  }

  function SendAppend(p: Peer, me: NodeId, to: NodeId): Message {
    var prev := Next(p, to) - 1;
    AE(me, to, p.term, prev, if 0 < prev <= |p.log| then p.log[prev - 1].term else 0,
       Slice(p.log, prev, prev + MAX_ENTRIES), p.commitIndex)
  }

  function Beats(ids: set<NodeId>, n: NodeId, p: Peer): set<Message> {
    set q | q in ids && q != n :: SendAppend(p, n, q)
  }

  /** One turn of the merge loop, for the entry that belongs at position i. */
  function TakeEntry(log: Log, i: nat, e: Entry): Log {
    var kept := if i < |log| && log[i].term != e.term then log[..i] else log;
    if i >= |kept| then kept + [e] else kept
  }

  function MergeEach(log: Log, prev: nat, entries: Log): Log
    decreases |entries|
  {
    if entries == [] then log else MergeEach(TakeEntry(log, prev, entries[0]), prev + 1, entries[1..])
  }

  /** The last index an AE message covers. */
  function LastOf(m: Message): nat
    requires m.AE?
  {
    m.prevIndex + |m.entries|
  }

  function OnAE(p: Peer, m: Message): Outcome
    requires m.AE?
  {
    if m.term < p.term then Outcome(p, {AER(m.to, m.from, p.term, false, 0)}, [])
    else
      var p1 := if p.role != Follower then BecomeFollower(p, m.term) else p;
      if !E.Consistent(p1.log, m.prevIndex, m.prevTerm) then Outcome(p1, {AER(m.to, m.from, p1.term, false, 0)}, [])
      else
        var match_ := LastOf(m);
        Outcome(p1.(log := MergeEach(p1.log, m.prevIndex, m.entries), commitIndex := Max(p1.commitIndex, Min(m.commit, match_))),
                {AER(m.to, m.from, p1.term, true, match_)}, [])
  }

  function Holders(ids: set<NodeId>, n: NodeId, p: Peer, i: nat): set<NodeId> {
    set q | q in ids && q != n && Match(p, q) >= i
  }

  predicate HeldByMajority(ids: set<NodeId>, n: NodeId, p: Peer, i: nat) {
    1 + |Holders(ids, n, p, i)| >= Majority(ids)
  }

  /** From the top of the log down to the commit index, stopping at an older term. */
  function ScanDown(ids: set<NodeId>, n: NodeId, p: Peer, i: nat): nat
    requires i <= |p.log|
    decreases i
  {
    if i <= p.commitIndex || p.log[i - 1].term != p.term then p.commitIndex
    else if HeldByMajority(ids, n, p, i) then i
    else ScanDown(ids, n, p, i - 1)
  }

  function AdvanceCommit(ids: set<NodeId>, n: NodeId, p: Peer): Peer {
    p.(commitIndex := ScanDown(ids, n, p, |p.log|))
  }

  /** A peer confirmed the log up to i: unlike the engine, nextIndex may also move back. */
  function Confirmed(p: Peer, q: NodeId, i: nat): Peer {
    var match_ := Max(Match(p, q), i);
    p.(matchIndex := p.matchIndex[q := match_], nextIndex := p.nextIndex[q := match_ + 1])
  }

  function Refused(p: Peer, q: NodeId): Peer {
    p.(nextIndex := p.nextIndex[q := if Next(p, q) > 1 then Next(p, q) - 1 else 1])
  }

  function OnAER(ids: set<NodeId>, p: Peer, m: Message): Outcome
    requires m.AER?
  {
    if p.role != Leader || m.term != p.term then Outcome(p, {}, [])
    else if m.success then
      Outcome(AdvanceCommit(ids, m.to, Confirmed(p, m.from, m.matchIndex)), {}, [])
    else
      var p1 := Refused(p, m.from);
      Outcome(p1, {SendAppend(p1, m.to, m.from)}, [])
  }

  function Switch(ids: set<NodeId>, p: Peer, m: Message): Outcome {
    match m
    case RV(_, _, _, _, _) => OnRV(p, m)
    case RVR(_, _, _, _) => OnRVR(ids, p, m)
    case AE(_, _, _, _, _, _, _) => OnAE(p, m)
    case AER(_, _, _, _, _) => OnAER(ids, p, m)
  }

  function Handle(ids: set<NodeId>, p: Peer, m: Message): Outcome {
    Switch(ids, if m.term > p.term then BecomeFollower(p, m.term) else p, m)
  }

  // ---------- The whole simulation ----------

  function Actor(e: Event): NodeId {
    match e
    case Deliver(m) => m.to
    case Elect(n) => n
    case Beat(n) => n
    case Toggle(n) => n
    case Write(n, _) => n
  }

  predicate Enabled(c: Sim, e: Event) {
    Actor(e) in c.nodes &&
    var p := c.nodes[Actor(e)];
    match e
    case Deliver(m) => m in c.sent && p.alive
    case Elect(_) => p.alive && p.role != Leader
    case Beat(_) => p.alive && p.role == Leader
    case Toggle(_) => true
    case Write(_, _) => p.alive && p.role == Leader
  }

  function Toggled(p: Peer): Peer {
    if p.alive then p.(alive := false) else p.(alive := true, role := Follower, votes := {})
  }

  function Acts(c: Sim, e: Event): Outcome
    requires Actor(e) in c.nodes
  {
    var p, ids := c.nodes[Actor(e)], c.nodes.Keys;
    match e
    case Deliver(m) => Handle(ids, p, m)
    case Elect(n) => StartElection(ids, n, p)
    case Beat(n) => Outcome(p, Beats(ids, n, p), [])
    case Toggle(_) => Outcome(Toggled(p), {}, [])
    case Write(_, v) => Outcome(p.(log := p.log + [Entry(p.term, Value(v))]), {}, [])
  }

  function After(c: Sim, e: Event): Sim
    requires Actor(e) in c.nodes
  {
    var r := Acts(c, e);
    Sim(c.nodes[Actor(e) := r.peer], c.sent + r.out, c.leaderHistory + r.wins)
  }

  predicate IsInit(c: Sim) {
    (forall n :: n in c.nodes ==> c.nodes[n] == NewPeer()) && c.sent == {} && c.leaderHistory == []
  }

  ghost predicate NextSim(c: Sim, c': Sim) {
    exists e :: Enabled(c, e) && c' == After(c, e)
  }

  ghost predicate StepAt(run: seq<Sim>, i: nat) {
    i + 1 < |run| ==> NextSim(run[i], run[i + 1])
  }

  ghost predicate IsRun(run: seq<Sim>) {
    |run| > 0 && IsInit(run[0]) && forall i: nat {:trigger StepAt(run, i)} :: StepAt(run, i)
  }

  lemma RunPrefix(run: seq<Sim>, k: nat)
    requires IsRun(run) && 0 < k <= |run|
    ensures IsRun(run[..k])
  {
    forall i: nat ensures StepAt(run[..k], i) { assert StepAt(run, i); }
  }

  // ---------- The merge loop and the engine's merge ----------

  lemma {:induction false} PushAll(log: Log, entries: Log)
    ensures MergeEach(log, |log|, entries) == log + entries
    decreases |entries|
  {
    if entries == [] {
      assert log + entries == log;
    } else {
      PushAll(log + [entries[0]], entries[1..]);
      Rejoin(log, entries);
    }
  }

  /** Entry by entry or all at once from the first difference: the same log. */
  lemma {:induction false} SameMerge(log: Log, prev: nat, entries: Log)
    requires prev <= |log|
    ensures MergeEach(log, prev, entries) == E.Merge(log, prev, entries, E.NoFault).0
    decreases |entries|
  {
    if entries != [] {
      if prev < |log| && log[prev].term == entries[0].term {
        SameMerge(log, prev + 1, entries[1..]);
        SkipsMatch(log, prev, entries);
      } else {
        Replaced(log, prev, entries);
      }
    }
  }

  lemma SkipsMatch(log: Log, prev: nat, entries: Log)
    requires prev < |log| && entries != [] && log[prev].term == entries[0].term
    ensures E.Merge(log, prev, entries, E.NoFault).0 == E.Merge(log, prev + 1, entries[1..], E.NoFault).0
  {
    var k := E.Matching(log, prev + 1, entries[1..]);
    if k < |entries| - 1 { assert entries[1..][k..] == entries[k + 1..]; }
  }

  /** From the first entry that is missing or conflicts, the rest is pushed one by one. */
  lemma Replaced(log: Log, prev: nat, entries: Log)
    requires prev <= |log| && entries != [] && (prev < |log| ==> log[prev].term != entries[0].term)
    ensures MergeEach(log, prev, entries) == log[..prev] + entries
    ensures prev == |log| ==> log[..prev] == log
  {
    if prev == |log| { assert log[..prev] == log; }
    var cut := log[..prev] + [entries[0]];
    assert TakeEntry(log, prev, entries[0]) == cut;
    PushAll(cut, entries[1..]);
    Rejoin(log[..prev], entries);
  }

  lemma Rejoin(log: Log, entries: Log)
    requires entries != []
    ensures log + [entries[0]] + entries[1..] == log + entries
  {
    assert entries == [entries[0]] + entries[1..];
  }

  predicate RisesAt(log: Log, i: nat) {
    0 < i < |log| ==> log[i - 1].term <= log[i].term
  }

  /** Terms never fall along the log. */
  ghost predicate Rising(log: Log) {
    forall i {:trigger RisesAt(log, i)} :: RisesAt(log, i)
  }

  /** An engine leader with the same log and the same acknowledgements. */
  predicate SameLeader(ids: set<NodeId>, n: NodeId, p: Peer, s: E.Server) {
    && n in ids && p.matchIndex.Keys == ids
    && s.log == p.log && s.term == p.term && s.commit == p.commitIndex
    && s.leader == Some(E.LeaderState(p.nextIndex - {n}, p.matchIndex - {n}))
  }

  lemma SameTest(ids: set<NodeId>, n: NodeId, p: Peer, s: E.Server, i: nat)
    requires SameLeader(ids, n, p, s) && 0 < i <= |p.log|
    ensures E.Committable(s, ids - {n}, i) <==>
            p.log[i - 1].term == p.term && HeldByMajority(ids, n, p, i)
  {
    assert E.Holders(s.leader.value.acked, i) == Holders(ids, n, p, i);
    assert ids == (ids - {n}) + {n};
  }

  /** Where terms never fall along the log, stopping at an older term loses nothing: the
      top-down scan finds what the engine's scan of every index finds. */
  lemma {:induction false} SameScan(ids: set<NodeId>, n: NodeId, p: Peer, s: E.Server, i: nat)
    requires SameLeader(ids, n, p, s) && i <= |p.log|
    requires Rising(p.log) && LastTerm(p.log) <= p.term
    ensures ScanDown(ids, n, p, i) == E.ScanCommit(s, ids - {n}, i)
    decreases i
  {
    if i > p.commitIndex {
      SameTest(ids, n, p, s, i);
      if p.log[i - 1].term != p.term {
        BelowLast(p.log, i);
        OlderFindsNone(s, ids - {n}, i);
      } else if !HeldByMajority(ids, n, p, i) {
        SameScan(ids, n, p, s, i - 1);
      }
    }
  }

  lemma {:induction false} BelowLast(log: Log, i: nat)
    requires Rising(log) && 0 < i <= |log|
    ensures log[i - 1].term <= LastTerm(log)
    decreases |log| - i
  {
    if i < |log| {
      assert RisesAt(log, i);
      BelowLast(log, i + 1);
    }
  }

  lemma {:induction false} OlderFindsNone(s: E.Server, peers: set<NodeId>, i: nat)
    requires 0 < i <= |s.log| && s.log[i - 1].term < s.term && Rising(s.log)
    ensures E.ScanCommit(s, peers, i) == s.commit
    decreases i
  {
    if i > s.commit && i > 1 {
      assert RisesAt(s.log, i - 1);
      OlderFindsNone(s, peers, i - 1);
    }
  }
}
