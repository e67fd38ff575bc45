/** The browser simulator refines the same abstract Raft as the engine does. */
module SimRefinement {
  import opened RaftTypes
  import opened SimProtocol
  import E = Engine
  import ER = EngineRelation
  import ES = EngineSteps
  import A = AbstractRaft
  import opened AbstractInvariants
  import opened AbstractPreservation
  import opened AbstractSafety
  import opened AbstractRuns

  // ---------- The relation ----------

  function View(p: Peer): A.Node { A.Node(p.term, p.votedFor, p.log, p.role, p.commitIndex) }

  // Each part names only the fields it depends on, so a step that leaves them alone keeps it.

  predicate BookOk(h: A.History, n: NodeId, term: nat, len: nat, next: map<NodeId, nat>, acked: map<NodeId, nat>, q: NodeId) {
    && q in next && q in acked && 1 <= next[q] <= len + 1
    && (q != n ==> acked[q] <= Min(len, A.AckOf(h, term, q)))
  }

  ghost predicate BooksOk(ids: set<NodeId>, h: A.History, n: NodeId, term: nat, len: nat, next: map<NodeId, nat>, acked: map<NodeId, nat>) {
    && next.Keys == ids && acked.Keys == ids && A.AckOf(h, term, n) >= len
    && forall q {:trigger BookOk(h, n, term, len, next, acked, q)} :: q in ids ==> BookOk(h, n, term, len, next, acked, q)
  }

  ghost predicate VotesOk(ids: set<NodeId>, h: A.History, n: NodeId, term: nat, votes: set<NodeId>) {
    votes <= ids && forall v {:trigger A.Granted(h, term, v, n)} :: v in votes ==> A.Granted(h, term, v, n)
  }

  /** A leader's bookkeeping is sound; a candidate counts only votes it was granted. */
  ghost predicate PeerOk(ids: set<NodeId>, h: A.History, n: NodeId, p: Peer) {
    && p.nextIndex.Keys <= ids && p.matchIndex.Keys <= ids
    && (p.role == Leader ==> BooksOk(ids, h, n, p.term, |p.log|, p.nextIndex, p.matchIndex))
    && (p.role == Candidate ==> VotesOk(ids, h, n, p.term, p.votes))
  }

  predicate VoteAskOk(h: A.History, from: NodeId, term: nat, lastIndex: nat, lastTerm: nat) {
    A.At(term, from) in h.campaigns &&
    lastIndex == |h.campaigns[A.At(term, from)]| && lastTerm == LastTerm(h.campaigns[A.At(term, from)])
  }

  ghost predicate MessageOk(ids: set<NodeId>, h: A.History, m: Message) {
    m.from in ids && m.to in ids && m.from != m.to &&
    match m
    case RV(from, _, t, i, lt) => VoteAskOk(h, from, t, i, lt)
    case RVR(from, to, t, granted) => granted ==> A.Granted(h, t, from, to)
    case AE(from, _, t, prev, prevTerm, entries, commit) => ER.AppendReqOk(ids, h, from, E.AppendReq(t, prev, prevTerm, entries, commit))
    case AER(from, _, t, success, i) => success ==> i <= A.AckOf(h, t, from)
  }

  predicate WinOk(h: A.History, w: Win) {
    w.term in h.reigns && h.reigns[w.term].leader == w.id
  }

  /** Whoever leads now is in the history of leaders. */
  predicate Recorded(c: Sim, n: NodeId) {
    n in c.nodes && c.nodes[n].role == Leader ==> Won(c.nodes[n].term, n) in c.leaderHistory
  }

  ghost predicate Related(c: Sim, s: A.State) {
    && Inv(s) && s.ids == c.nodes.Keys
    && (forall n {:trigger PeerOk(s.ids, s.h, n, c.nodes[n])} :: n in s.ids ==>
          View(c.nodes[n]) == s.nodes[n] && PeerOk(s.ids, s.h, n, c.nodes[n]))
    && (forall m {:trigger MessageOk(s.ids, s.h, m)} :: m in c.sent ==> MessageOk(s.ids, s.h, m))
    && (forall w {:trigger WinOk(s.h, w)} :: w in c.leaderHistory ==> WinOk(s.h, w))
    && (forall n {:trigger Recorded(c, n)} :: Recorded(c, n))
  }

  /** Node n of the abstract state is this peer. */
  ghost predicate Mirrors(s: A.State, n: NodeId, p: Peer) {
    Inv(s) && n in s.ids && s.nodes[n] == View(p) && PeerOk(s.ids, s.h, n, p)
  }

  // ---------- What is known stays true ----------

  lemma BooksStayOk(ids: set<NodeId>, h: A.History, h': A.History, n: NodeId, term: nat, len: nat, len': nat,
                    next: map<NodeId, nat>, acked: map<NodeId, nat>)
    requires Grows(h, h') && BooksOk(ids, h, n, term, len, next, acked) && len <= len' && A.AckOf(h', term, n) >= len'
    ensures BooksOk(ids, h', n, term, len', next, acked)
  {
    forall q | q in ids ensures BookOk(h', n, term, len', next, acked, q) { assert BookOk(h, n, term, len, next, acked, q); }
  }

  lemma VotesStayOk(ids: set<NodeId>, h: A.History, h': A.History, n: NodeId, term: nat, votes: set<NodeId>)
    requires Grows(h, h') && VotesOk(ids, h, n, term, votes)
    ensures VotesOk(ids, h', n, term, votes)
  {
    forall v | v in votes ensures A.Granted(h', term, v, n) { assert A.Granted(h, term, v, n); }
  }

  lemma PeerStaysOk(ids: set<NodeId>, h: A.History, h': A.History, n: NodeId, p: Peer)
    requires Grows(h, h') && PeerOk(ids, h, n, p)
    ensures PeerOk(ids, h', n, p)
  {
    if p.role == Leader {
      BooksStayOk(ids, h, h', n, p.term, |p.log|, |p.log|, p.nextIndex, p.matchIndex);
    } else if p.role == Candidate {
      VotesStayOk(ids, h, h', n, p.term, p.votes);
    }
  }

  lemma AppendStaysOk(ids: set<NodeId>, h: A.History, h': A.History, from: NodeId, req: E.Request)
    requires Grows(h, h') && req.AppendReq? && ER.AppendReqOk(ids, h, from, req)
    ensures ER.AppendReqOk(ids, h', from, req)
  {
    var t, end := req.term, req.prevIndex + |req.entries|;
    var log, log' := A.LogOf(h, t), A.LogOf(h', t);
    SliceOfPrefix(log, log', |log|, req.prevIndex, end);
    if req.prevIndex > 0 { AgreeAt(log, log', |log|, req.prevIndex - 1); }
    CommitKnownGrows(ids, h, h', log, t, t, req.commit);
    LongerCommitKnown(ids, h', log, log', t, req.commit);
  }

  lemma MessageStaysOk(ids: set<NodeId>, h: A.History, h': A.History, m: Message)
    requires Grows(h, h') && MessageOk(ids, h, m)
    ensures MessageOk(ids, h', m)
  {
    match m
    case AE(from, _, t, prev, prevTerm, entries, commit) => AppendStaysOk(ids, h, h', from, E.AppendReq(t, prev, prevTerm, entries, commit));
    case _ =>
  }

  /** One abstract action that turns a peer into p'. */
  lemma ActInto(s: A.State, s1: A.State, n: NodeId, a: A.Action, p': Peer) returns (s': A.State)
    requires Path(s, s1, n) && a.n == n && A.Enabled(s1, a)
    requires View(p') == A.NodeAfter(s1, a) && PeerOk(s1.ids, A.HistoryAfter(s1, a), n, p')
    ensures s' == A.After(s1, a) && Path(s, s', n) && Mirrors(s', n, p') && Grows(s1.h, s'.h)
  {
    Do(s, s1, n, a);
    s' := A.After(s1, a);
  }

  // ---------- Elections ----------

  lemma StepDownOk(s: A.State, n: NodeId, p: Peer, t: nat) returns (s': A.State)
    requires Mirrors(s, n, p)
    ensures Path(s, s', n) && Mirrors(s', n, if t > p.term then BecomeFollower(p, t) else p) && s'.h == s.h
  {
    s' := s;
    Stay(s, n);
    if t > p.term {
      s' := ActInto(s, s, n, A.Learn(n, t, None), BecomeFollower(p, t));
    }
  }

  lemma DemoteOk(s: A.State, s1: A.State, n: NodeId, p: Peer, p': Peer) returns (s': A.State)
    requires Path(s, s1, n) && Mirrors(s1, n, p) && p'.role == Follower
    requires p'.term == p.term && p'.votedFor == p.votedFor && p'.log == p.log && p'.commitIndex == p.commitIndex
    requires p'.nextIndex == p.nextIndex && p'.matchIndex == p.matchIndex
    ensures Path(s, s', n) && Mirrors(s', n, p') && s'.h == s1.h
  {
    s' := ActInto(s, s1, n, A.Demote(n, p.commitIndex), p');
  }

  lemma ElectOk(s: A.State, n: NodeId, p: Peer) returns (s': A.State)
    requires Mirrors(s, n, p)
    ensures var r := StartElection(s.ids, n, p);
            Path(s, s', n) && Mirrors(s', n, r.peer) && forall m :: m in r.out ==> MessageOk(s.ids, s'.h, m)
  {
    Stay(s, n);
    s' := ActInto(s, s, n, A.Campaign(n), StartElection(s.ids, n, p).peer);
  }

  predicate Grants(p: Peer, m: Message)
    requires m.RV?
  {
    m.term == p.term && p.votedFor in {None, Some(m.from)} && UpToDate(m.lastTerm, m.lastIndex, p.log)
  }

  lemma GrantOk(s: A.State, s1: A.State, n: NodeId, p: Peer, c: NodeId) returns (s': A.State)
    requires Path(s, s1, n) && Mirrors(s1, n, p) && A.Enabled(s1, A.Vote(n, c))
    ensures Path(s, s', n) && Mirrors(s', n, p.(votedFor := Some(c))) && A.Granted(s'.h, p.term, n, c)
  {
    var a := A.Vote(n, c);
    Do(s, s1, n, a);
    PeerStaysOk(s1.ids, s1.h, A.HistoryAfter(s1, a), n, p);
    s' := ActInto(s, s1, n, a, p.(votedFor := Some(c)));
    assert NodeOk(s1.ids, s1.h, n, s1.nodes[n]);
  }

  lemma VoteOk(s: A.State, s1: A.State, n: NodeId, p: Peer, m: Message) returns (s': A.State)
    requires Path(s, s1, n) && Mirrors(s1, n, p) && m.RV? && m.to == n && MessageOk(s1.ids, s1.h, m) && m.term <= p.term
    ensures var r := OnRV(p, m);
            Path(s, s', n) && Mirrors(s', n, r.peer) && forall x :: x in r.out ==> MessageOk(s.ids, s'.h, x)
  {
    s' := s1;
    if Grants(p, m) { s' := GrantOk(s, s1, n, p, m.from); }
  }

  /** Votes are a set of voters, so a repeated answer counts once. */
  lemma CountOk(s: A.State, s1: A.State, n: NodeId, p: Peer, m: Message) returns (s': A.State)
    requires Path(s, s1, n) && Mirrors(s1, n, p) && m.RVR? && m.to == n && MessageOk(s1.ids, s1.h, m)
    ensures var r := OnRVR(s.ids, p, m);
            Path(s, s', n) && Mirrors(s', n, r.peer) && r.out == {} && forall w :: w in r.wins ==> WinOk(s'.h, w)
  {
    s' := s1;
    if p.role == Candidate && m.term == p.term && m.granted {
      var p1 := p.(votes := p.votes + {m.from});
      forall v | v in p1.votes ensures A.Granted(s1.h, p.term, v, n) {
        if v in p.votes { assert A.Granted(s1.h, p.term, v, n); }
      }
      if |p1.votes| >= Majority(s.ids) {
        s' := LeadOk(s, s1, n, p1);
      }
    }
  }

  lemma LeadOk(s: A.State, s1: A.State, n: NodeId, p: Peer) returns (s': A.State)
    requires Path(s, s1, n) && Mirrors(s1, n, p) && p.role == Candidate && |p.votes| >= Majority(s.ids)
    ensures Path(s, s', n) && Mirrors(s', n, BecomeLeader(s.ids, p)) && WinOk(s'.h, Won(p.term, n))
  {
    var a := A.Win(n, p.votes);
    forall v | v in p.votes ensures A.Granted(s1.h, p.term, v, n) {}
    assert A.Enabled(s1, a);
    var p' := BecomeLeader(s.ids, p);
    var h' := A.HistoryAfter(s1, a);
    forall q | q in s.ids ensures BookOk(h', n, p'.term, |p'.log|, p'.nextIndex, p'.matchIndex, q) {}
    s' := ActInto(s, s1, n, a, p');
  }

  // ---------- Replication ----------

  lemma LeaderFact(s: A.State, n: NodeId)
    requires Inv(s) && n in s.ids && s.nodes[n].role == Leader
    ensures var nd := s.nodes[n];
            nd.term in s.h.reigns && s.h.reigns[nd.term].leader == n && A.LogOf(s.h, nd.term) == nd.log &&
            A.CommitKnown(s.ids, s.h, nd.log, nd.term, nd.commit)
  {
    assert NodeOk(s.ids, s.h, n, s.nodes[n]);
  }

  lemma BeatOk(s: A.State, n: NodeId, p: Peer, q: NodeId)
    requires Mirrors(s, n, p) && p.role == Leader && q in s.ids && q != n
    ensures MessageOk(s.ids, s.h, SendAppend(p, n, q))
  {
    LeaderFact(s, n);
    assert BookOk(s.h, n, p.term, |p.log|, p.nextIndex, p.matchIndex, q);
    var prev := Next(p, q) - 1;
    var entries := Slice(p.log, prev, prev + MAX_ENTRIES);
    assert entries == p.log[prev..prev + |entries|];
  }

  lemma WriteOk(s: A.State, n: NodeId, p: Peer, v: nat) returns (s': A.State)
    requires Mirrors(s, n, p) && p.role == Leader
    ensures Path(s, s', n) && Mirrors(s', n, p.(log := p.log + [Entry(p.term, Value(v))]))
  {
    Stay(s, n);
    WrittenOk(s, n, p, v);
    s' := ActInto(s, s, n, A.Append(n, Value(v)), p.(log := p.log + [Entry(p.term, Value(v))]));
  }

  lemma WrittenOk(s: A.State, n: NodeId, p: Peer, v: nat)
    requires Mirrors(s, n, p) && p.role == Leader
    ensures A.Enabled(s, A.Append(n, Value(v)))
    ensures PeerOk(s.ids, A.HistoryAfter(s, A.Append(n, Value(v))), n, p.(log := p.log + [Entry(p.term, Value(v))]))
  {
    var a, p' := A.Append(n, Value(v)), p.(log := p.log + [Entry(p.term, Value(v))]);
    LeaderFact(s, n);
    ActionKeeps(s, a);
    BooksStayOk(s.ids, s.h, A.HistoryAfter(s, a), n, p.term, |p.log|, |p'.log|, p.nextIndex, p.matchIndex);
  }

  /** The leader log of the message's term, which the entries are a slice of. */
  ghost predicate SliceFits(s: A.State, p: Peer, prev: nat, entries: Log) {
    p.role == Follower && p.term in s.h.reigns &&
    var full := A.LogOf(s.h, p.term);
    Agree(p.log, full, prev) && prev + |entries| <= |full| && entries == full[prev..prev + |entries|]
  }

  lemma FollowerStep(s: A.State, s1: A.State, n: NodeId, p: Peer, a: A.Action, p': Peer) returns (s': A.State)
    requires Path(s, s1, n) && Mirrors(s1, n, p) && a.n == n && A.Enabled(s1, a)
    requires View(p') == A.NodeAfter(s1, a) && p'.role == Follower
    requires p'.nextIndex == p.nextIndex && p'.matchIndex == p.matchIndex
    ensures s' == A.After(s1, a) && Path(s, s', n) && Mirrors(s', n, p')
  {
    s' := ActInto(s, s1, n, a, p');
  }

  /** Where the log and the message's slice part, and what the merge loop makes of it. */
  lemma MergePlan(s: A.State, n: NodeId, p: Peer, prev: nat, entries: Log) returns (k: nat)
    requires Mirrors(s, n, p) && SliceFits(s, p, prev, entries)
    ensures k <= |entries| && prev + k <= |p.log|
    ensures var full, log, end := A.LogOf(s.h, p.term), MergeEach(p.log, prev, entries), prev + |entries|;
            Agree(log, full, end) && log == (if k == |entries| then p.log else full[..end]) &&
            (k < |entries| ==> Agree(p.log, full, prev + k) && (prev + k < |p.log| ==> A.Enabled(s, A.Truncate(n, prev + k))))
  {
    var full := A.LogOf(s.h, p.term);
    SameMerge(p.log, prev, entries);
    ES.LogsTell(s, n, p.term);
    ES.MatchingAgrees(p.log, full, prev, entries);
    ES.MergeIs(p.log, full, prev, entries, E.NoFault);
    k := E.Matching(p.log, prev, entries);
  }

  /** The entry-by-entry merge is a truncation and an extension of the abstract log. */
  lemma MergeOk(s: A.State, s1: A.State, n: NodeId, p: Peer, prev: nat, entries: Log) returns (s': A.State)
    requires Path(s, s1, n) && Mirrors(s1, n, p) && SliceFits(s1, p, prev, entries)
    ensures var log := MergeEach(p.log, prev, entries);
            Path(s, s', n) && Mirrors(s', n, p.(log := log)) && s'.h == s1.h &&
            Agree(log, A.LogOf(s1.h, p.term), prev + |entries|)
  {
    s' := s1;
    var k := MergePlan(s1, n, p, prev, entries);
    if k < |entries| {
      s' := SpliceOk(s, s1, n, p, prev + k, prev + |entries|);
    } else {
      assert p.(log := p.log) == p;
    }
  }

  /** Cut, if there is something to cut, then extend. */
  lemma SpliceOk(s: A.State, s1: A.State, n: NodeId, p: Peer, at: nat, end: nat) returns (s': A.State)
    requires Path(s, s1, n) && Mirrors(s1, n, p) && p.role == Follower && at <= end
    requires var full := A.LogOf(s1.h, p.term); end <= |full| && Agree(p.log, full, at)
    requires at < |p.log| ==> A.Enabled(s1, A.Truncate(n, at))
    ensures Path(s, s', n) && s'.h == s1.h && Mirrors(s', n, p.(log := A.LogOf(s1.h, p.term)[..end]))
  {
    s' := s1;
    var cut := p.(log := p.log[..at]);
    if at < |p.log| {
      s' := FollowerStep(s, s1, n, p, A.Truncate(n, at), cut);
    } else {
      assert p.log[..at] == p.log && p == cut;
    }
    s' := ExtendOk(s, s', n, cut, end);
  }

  lemma ExtendOk(s: A.State, s1: A.State, n: NodeId, p: Peer, end: nat) returns (s': A.State)
    requires Path(s, s1, n) && Mirrors(s1, n, p) && p.role == Follower
    requires var full := A.LogOf(s1.h, p.term); |p.log| <= end <= |full| && Agree(p.log, full, |p.log|)
    ensures Path(s, s', n) && s'.h == s1.h && Mirrors(s', n, p.(log := A.LogOf(s1.h, p.term)[..end]))
  {
    s' := FollowerStep(s, s1, n, p, A.Extend(n, end), p.(log := A.LogOf(s1.h, p.term)[..end]));
  }

  /** The follower takes over the leader's commit index, as far as the logs are known to agree. */
  lemma TakeCommitOk(s: A.State, s1: A.State, n: NodeId, p: Peer, leaderCommit: nat, last: nat) returns (s': A.State)
    requires Path(s, s1, n) && Mirrors(s1, n, p) && p.role == Follower
    requires Agree(p.log, A.LogOf(s1.h, p.term), last)
    requires ES.CommitKnownIn(s1, A.LogOf(s1.h, p.term), p.term, leaderCommit)
    ensures Path(s, s', n) && Mirrors(s', n, p.(commitIndex := Max(p.commitIndex, Min(leaderCommit, last)))) && s'.h == s1.h
  {
    s' := s1;
    var c := Min(leaderCommit, last);
    if c > p.commitIndex {
      var t, i := ES.KnownShorter(s1, p.log, A.LogOf(s1.h, p.term), p.term, leaderCommit, last);
      s' := FollowerStep(s, s1, n, p, A.Commit(n, t, i, c), p.(commitIndex := c));
    } else {
      assert p.(commitIndex := p.commitIndex) == p;
    }
  }

  /** The follower confirms what it now shares with the leader. */
  lemma FollowOk(s: A.State, s1: A.State, n: NodeId, p: Peer, leaderCommit: nat, last: nat) returns (s': A.State)
    requires Path(s, s1, n) && Mirrors(s1, n, p) && p.role == Follower && p.term in s1.h.reigns
    requires Agree(p.log, A.LogOf(s1.h, p.term), last)
    requires ES.CommitKnownIn(s1, A.LogOf(s1.h, p.term), p.term, leaderCommit)
    ensures Path(s, s', n) && Mirrors(s', n, p.(commitIndex := Max(p.commitIndex, Min(leaderCommit, last))))
    ensures A.AckOf(s'.h, p.term, n) >= last
  {
    s' := AckOk(s, s1, n, p, last, leaderCommit);
    s' := TakeCommitOk(s, s', n, p, leaderCommit, last);
  }

  lemma AckOk(s: A.State, s1: A.State, n: NodeId, p: Peer, last: nat, leaderCommit: nat) returns (s': A.State)
    requires Path(s, s1, n) && Mirrors(s1, n, p) && p.role == Follower && p.term in s1.h.reigns
    requires Agree(p.log, A.LogOf(s1.h, p.term), last)
    requires ES.CommitKnownIn(s1, A.LogOf(s1.h, p.term), p.term, leaderCommit)
    ensures Path(s, s', n) && Mirrors(s', n, p) && s'.h.reigns == s1.h.reigns && A.AckOf(s'.h, p.term, n) >= last
    ensures ES.CommitKnownIn(s', A.LogOf(s'.h, p.term), p.term, leaderCommit)
  {
    s' := ActInto(s, s1, n, A.Ack(n, last), p);
    CommitKnownGrows(s1.ids, s1.h, s'.h, A.LogOf(s1.h, p.term), p.term, p.term, leaderCommit);
  }

  lemma PrevAgrees(s: A.State, n: NodeId, p: Peer, from: NodeId, req: E.Request)
    requires Mirrors(s, n, p) && p.role == Follower && req.AppendReq? && p.term == req.term
    requires ER.AppendReqOk(s.ids, s.h, from, req) && E.Consistent(p.log, req.prevIndex, req.prevTerm)
    ensures SliceFits(s, p, req.prevIndex, req.entries)
    ensures ES.CommitKnownIn(s, A.LogOf(s.h, p.term), p.term, req.commit)
  {
    ES.LogsTell(s, n, p.term);
    if req.prevIndex > 0 {
      assert ES.TellsAt(p.log, A.LogOf(s.h, p.term), req.prevIndex - 1);
    }
  }

  lemma AcceptOk(s: A.State, s1: A.State, n: NodeId, p: Peer, m: Message) returns (s': A.State)
    requires Path(s, s1, n) && Mirrors(s1, n, p) && m.AE? && SliceFits(s1, p, m.prevIndex, m.entries)
    requires ES.CommitKnownIn(s1, A.LogOf(s1.h, p.term), p.term, m.commit)
    ensures var last := LastOf(m);
            Path(s, s', n) && A.AckOf(s'.h, p.term, n) >= last &&
            Mirrors(s', n, p.(log := MergeEach(p.log, m.prevIndex, m.entries), commitIndex := Max(p.commitIndex, Min(m.commit, last))))
  {
    s' := MergeOk(s, s1, n, p, m.prevIndex, m.entries);
    s' := FollowOk(s, s', n, p.(log := MergeEach(p.log, m.prevIndex, m.entries)), m.commit, LastOf(m));
  }

  lemma AppendOk(s: A.State, s1: A.State, n: NodeId, p: Peer, m: Message) returns (s': A.State)
    requires Path(s, s1, n) && Mirrors(s1, n, p) && m.AE? && m.to == n && MessageOk(s1.ids, s1.h, m) && m.term <= p.term
    ensures var r := OnAE(p, m);
            Path(s, s', n) && Mirrors(s', n, r.peer) && forall x :: x in r.out ==> MessageOk(s.ids, s'.h, x)
  {
    s' := s1;
    if m.term == p.term {
      var p1 := if p.role != Follower then BecomeFollower(p, m.term) else p;
      s' := DemoteOk(s, s1, n, p, p1);
      s' := HearOk(s, s', n, p1, m);
    }
  }

  /** A follower handles a message of its own term's leader. */
  lemma HearOk(s: A.State, s1: A.State, n: NodeId, p: Peer, m: Message) returns (s': A.State)
    requires Path(s, s1, n) && Mirrors(s1, n, p) && p.role == Follower
    requires m.AE? && m.to == n && MessageOk(s1.ids, s1.h, m) && m.term == p.term
    ensures var r := OnAE(p, m);
            Path(s, s', n) && Mirrors(s', n, r.peer) && forall x :: x in r.out ==> MessageOk(s.ids, s'.h, x)
  {
    s' := s1;
    if E.Consistent(p.log, m.prevIndex, m.prevTerm) {
      PrevAgrees(s1, n, p, m.from, E.AppendReq(m.term, m.prevIndex, m.prevTerm, m.entries, m.commit));
      s' := AcceptOk(s, s1, n, p, m);
    }
  }

  // ---------- Answers to a leader ----------

  /** A majority of match indices is a quorum of confirmations. */
  lemma HoldersChosen(s: A.State, n: NodeId, p: Peer, i: nat)
    requires Mirrors(s, n, p) && p.role == Leader && 0 < i <= |p.log| && p.log[i - 1].term == p.term
    requires HeldByMajority(s.ids, n, p, i)
    ensures A.Chosen(s.ids, s.h, p.term, i) && Agree(p.log, A.LogOf(s.h, p.term), i)
  {
    LeaderFact(s, n);
    var holders := Holders(s.ids, n, p, i);
    assert n !in holders;
    forall q | q in holders ensures q in A.Ackers(s.ids, s.h, p.term, i) { assert BookOk(s.h, n, p.term, |p.log|, p.nextIndex, p.matchIndex, q); }
    SubsetSize(holders + {n}, A.Ackers(s.ids, s.h, p.term, i));
  }

  lemma {:induction false} ScanPicks(ids: set<NodeId>, n: NodeId, p: Peer, i: nat)
    requires i <= |p.log|
    ensures var c := ScanDown(ids, n, p, i);
            c == p.commitIndex ||
            (p.commitIndex < c <= i && p.log[c - 1].term == p.term && HeldByMajority(ids, n, p, c))
    decreases i
  {
    if i > p.commitIndex && p.log[i - 1].term == p.term { ScanPicks(ids, n, p, i - 1); }
  }

  lemma AdvanceOk(s: A.State, s1: A.State, n: NodeId, p: Peer) returns (s': A.State)
    requires Path(s, s1, n) && Mirrors(s1, n, p) && p.role == Leader
    ensures Path(s, s', n) && Mirrors(s', n, AdvanceCommit(s.ids, n, p))
  {
    s' := s1;
    var c := ScanDown(s.ids, n, p, |p.log|);
    ScanPicks(s.ids, n, p, |p.log|);
    var p' := p.(commitIndex := c);
    if c == p.commitIndex {
      assert p' == p;
    } else {
      HoldersChosen(s1, n, p, c);
      PeerStaysOk(s1.ids, s1.h, A.HistoryAfter(s1, A.Commit(n, p.term, c, c)), n, p);
      s' := ActInto(s, s1, n, A.Commit(n, p.term, c, c), p');
    }
  }

  lemma ConfirmedOk(s: A.State, n: NodeId, p: Peer, q: NodeId, i: nat)
    requires Mirrors(s, n, p) && p.role == Leader && q in s.ids && q != n && i <= A.AckOf(s.h, p.term, q)
    ensures Mirrors(s, n, Confirmed(p, q, i))
  {
    LeaderFact(s, n);
    assert A.At(p.term, q) in s.h.acks ==> s.h.acks[A.At(p.term, q)] <= |A.LogOf(s.h, p.term)|;
    assert BookOk(s.h, n, p.term, |p.log|, p.nextIndex, p.matchIndex, q);
    var p' := Confirmed(p, q, i);
    BookSet(s.ids, s.h, n, p.term, |p.log|, p.nextIndex, p.matchIndex, q, p'.nextIndex[q], p'.matchIndex[q]);
  }

  /** One peer's books move; the others' stay. */
  lemma BookSet(ids: set<NodeId>, h: A.History, n: NodeId, term: nat, len: nat, next: map<NodeId, nat>, acked: map<NodeId, nat>,
                q: NodeId, i: nat, k: nat)
    requires BooksOk(ids, h, n, term, len, next, acked) && q in ids && 1 <= i <= len + 1
    requires k <= Max(acked[q], Min(len, A.AckOf(h, term, q)))
    ensures BooksOk(ids, h, n, term, len, next[q := i], acked[q := k])
  {
    var next', acked' := next[q := i], acked[q := k];
    forall x | x in ids ensures BookOk(h, n, term, len, next', acked', x) { assert BookOk(h, n, term, len, next, acked, x); }
  }

  lemma RefusedOk(s: A.State, n: NodeId, p: Peer, q: NodeId)
    requires Mirrors(s, n, p) && p.role == Leader && q in s.ids && q != n
    ensures Mirrors(s, n, Refused(p, q)) && MessageOk(s.ids, s.h, SendAppend(Refused(p, q), n, q))
  {
    var p' := Refused(p, q);
    assert BookOk(s.h, n, p.term, |p.log|, p.nextIndex, p.matchIndex, q);
    BookSet(s.ids, s.h, n, p.term, |p.log|, p.nextIndex, p.matchIndex, q, p'.nextIndex[q], p.matchIndex[q]);
    assert p.matchIndex[q := p.matchIndex[q]] == p.matchIndex;
    BeatOk(s, n, p', q);
  }

  lemma AnswerOk(s: A.State, s1: A.State, n: NodeId, p: Peer, m: Message) returns (s': A.State)
    requires Path(s, s1, n) && Mirrors(s1, n, p) && m.AER? && m.to == n && MessageOk(s1.ids, s1.h, m)
    ensures var r := OnAER(s.ids, p, m);
            Path(s, s', n) && Mirrors(s', n, r.peer) && forall x :: x in r.out ==> MessageOk(s.ids, s'.h, x)
  {
    s' := s1;
    if p.role == Leader && m.term == p.term {
      if m.success {
        ConfirmedOk(s1, n, p, m.from, m.matchIndex);
        s' := AdvanceOk(s, s1, n, Confirmed(p, m.from, m.matchIndex));
      } else {
        RefusedOk(s1, n, p, m.from);
      }
    }
  }

  // ---------- Events ----------

  /** What one event leaves behind at the node that acts. */
  ghost predicate ActedOk(c: Sim, s: A.State, s': A.State, e: Event)
    requires Actor(e) in c.nodes
  {
    var n, r := Actor(e), Acts(c, e);
    && Path(s, s', n) && Mirrors(s', n, r.peer)
    && (forall m :: m in r.out ==> MessageOk(s.ids, s'.h, m))
    && (forall w :: w in r.wins ==> WinOk(s'.h, w))
  }

  lemma MirrorsNode(c: Sim, s: A.State, n: NodeId)
    requires Related(c, s) && n in c.nodes
    ensures Mirrors(s, n, c.nodes[n])
  {
    assert PeerOk(s.ids, s.h, n, c.nodes[n]);
  }

  lemma DeliverOk(c: Sim, s: A.State, e: Event) returns (s': A.State)
    requires Related(c, s) && Enabled(c, e) && e.Deliver?
    ensures ActedOk(c, s, s', e)
  {
    var m, n := e.m, e.m.to;
    var p := c.nodes[n];
    MirrorsNode(c, s, n);
    assert MessageOk(s.ids, s.h, m);
    s' := StepDownOk(s, n, p, m.term);
    var p1 := if m.term > p.term then BecomeFollower(p, m.term) else p;
    match m
    case RV(_, _, _, _, _) => s' := VoteOk(s, s', n, p1, m);
    case RVR(_, _, _, _) => s' := CountOk(s, s', n, p1, m);
    case AE(_, _, _, _, _, _, _) => s' := AppendOk(s, s', n, p1, m);
    case AER(_, _, _, _, _) => s' := AnswerOk(s, s', n, p1, m);
  }

  lemma ActsOk(c: Sim, s: A.State, e: Event) returns (s': A.State)
    requires Related(c, s) && Enabled(c, e)
    ensures ActedOk(c, s, s', e)
  {
    var n := Actor(e);
    MirrorsNode(c, s, n);
    match e
    case Deliver(_) => s' := DeliverOk(c, s, e);
    case Elect(_) => s' := ElectOk(s, n, c.nodes[n]);
    case Beat(_) =>
      s' := s;
      Stay(s, n);
      forall m | m in Beats(s.ids, n, c.nodes[n]) ensures MessageOk(s.ids, s.h, m) { BeatOk(s, n, c.nodes[n], m.to); }
    case Toggle(_) => s' := ToggleOk(s, n, c.nodes[n]);
    case Write(_, v) => s' := WriteOk(s, n, c.nodes[n], v);
  }

  /** A crash loses only the role and the votes. */
  lemma ToggleOk(s: A.State, n: NodeId, p: Peer) returns (s': A.State)
    requires Mirrors(s, n, p)
    ensures Path(s, s', n) && Mirrors(s', n, Toggled(p))
  {
    s' := s;
    Stay(s, n);
    if !p.alive {
      s' := DemoteOk(s, s, n, p, Toggled(p));
    }
  }

  /** A node leads after an event only if it led the same term before, or the event is recorded as its win. */
  lemma LeaderRecorded(c: Sim, e: Event)
    requires Enabled(c, e)
    ensures var n, r := Actor(e), Acts(c, e); var p := c.nodes[n];
            r.peer.role == Leader ==> (p.role == Leader && p.term == r.peer.term) || Won(r.peer.term, n) in r.wins
  {
  }

  /** Every event of the simulator is a sequence of abstract Raft actions. */
  lemma EventOk(c: Sim, s: A.State, e: Event) returns (s': A.State)
    requires Related(c, s) && Enabled(c, e)
    ensures A.Leads(s, s') && Grows(s.h, s'.h) && Related(After(c, e), s')
  {
    s' := ActsOk(c, s, e);
    PeersAfter(c, s, s', e);
    SentAfter(c, s, s', e);
    WinsAfter(c, s, s', e);
    RecordedAfter(c, s, e);
  }

  lemma WinsAfter(c: Sim, s: A.State, s': A.State, e: Event)
    requires Related(c, s) && Enabled(c, e) && ActedOk(c, s, s', e)
    ensures forall w {:trigger WinOk(s'.h, w)} :: w in After(c, e).leaderHistory ==> WinOk(s'.h, w)
  {
    forall w | w in After(c, e).leaderHistory ensures WinOk(s'.h, w) {
      if w in c.leaderHistory { assert WinOk(s.h, w); }
    }
  }

  lemma RecordedAfter(c: Sim, s: A.State, e: Event)
    requires Related(c, s) && Enabled(c, e)
    ensures var c' := After(c, e); forall m {:trigger Recorded(c', m)} :: Recorded(c', m)
  {
    LeaderRecorded(c, e);
    forall m ensures Recorded(After(c, e), m) { assert Recorded(c, m); }
  }

  lemma PeersAfter(c: Sim, s: A.State, s': A.State, e: Event)
    requires Related(c, s) && Enabled(c, e) && ActedOk(c, s, s', e)
    ensures var c' := After(c, e);
            forall m {:trigger PeerOk(s'.ids, s'.h, m, c'.nodes[m])} :: m in s'.ids ==>
              View(c'.nodes[m]) == s'.nodes[m] && PeerOk(s'.ids, s'.h, m, c'.nodes[m])
  {
    var c' := After(c, e);
    forall m | m in s'.ids ensures View(c'.nodes[m]) == s'.nodes[m] && PeerOk(s'.ids, s'.h, m, c'.nodes[m]) {
      if m != Actor(e) {
        assert PeerOk(s.ids, s.h, m, c.nodes[m]);
        PeerStaysOk(s.ids, s.h, s'.h, m, c.nodes[m]);
      }
    }
  }

  lemma SentAfter(c: Sim, s: A.State, s': A.State, e: Event)
    requires Related(c, s) && Enabled(c, e) && ActedOk(c, s, s', e)
    ensures var c' := After(c, e);
            forall m {:trigger MessageOk(s'.ids, s'.h, m)} :: m in c'.sent ==> MessageOk(s'.ids, s'.h, m)
  {
    var c' := After(c, e);
    forall m | m in c'.sent ensures MessageOk(s'.ids, s'.h, m) {
      if m !in Acts(c, e).out {
        assert MessageOk(s.ids, s.h, m);
        MessageStaysOk(s.ids, s.h, s'.h, m);
      }
    }
  }
}
