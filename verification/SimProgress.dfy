/** What a run of the browser simulator can still reach: a live node whose log is not behind a
    live majority's wins an election, and a value given to a live leader is committed on it and
    on every live node of a majority that knows no later term. */
module SimProgress {
  import opened RaftTypes
  import opened SimProtocol
  import opened SimRefinement
  import opened SimSafety
  import opened SimAnswers
  import E = Engine
  import ES = EngineSteps
  import L = EngineLoops
  import A = AbstractRaft
  import opened AbstractInvariants

  function EndOf(run: seq<Sim>): Sim
    requires run != []
  {
    run[|run| - 1]
  }

  /** A run goes on with any event its last state allows. */
  lemma GoOn(run: seq<Sim>, e: Event)
    requires IsRun(run) && Enabled(EndOf(run), e)
    ensures IsRun(run + [After(EndOf(run), e)])
  {
    var longer := run + [After(EndOf(run), e)];
    forall i: nat ensures StepAt(longer, i) { assert StepAt(run, i); }
  }

  lemma TwoGoOn(run: seq<Sim>, e1: Event, e2: Event) returns (more: seq<Sim>)
    requires IsRun(run) && Enabled(EndOf(run), e1) && Enabled(After(EndOf(run), e1), e2)
    ensures more == [After(EndOf(run), e1), After(After(EndOf(run), e1), e2)] && IsRun(run + more)
  {
    GoOn(run, e1);
    var c1 := After(EndOf(run), e1);
    GoOn(run + [c1], e2);
    more := [c1, After(c1, e2)];
    assert run + more == run + [c1] + [After(c1, e2)];
  }

  // ---------- Elections ----------

  /** p is up, still in an older term, and its log is not ahead of the candidate's. */
  predicate Willing(c: Sim, s: Peer, p: NodeId) {
    p in c.nodes && c.nodes[p].alive && c.nodes[p].term < s.term && UpToDate(LastTerm(s.log), |s.log|, c.nodes[p].log)
  }

  ghost predicate AllWilling(c: Sim, s: Peer, these: set<NodeId>) {
    forall p {:trigger Willing(c, s, p)} :: p in these ==> Willing(c, s, p)
  }

  predicate Polled(c: Sim, n: NodeId, s: Peer, p: NodeId) {
    n in c.nodes && p in c.nodes && p != n && p !in c.nodes[n].votes && Ask(s, n, p) in c.sent
  }

  /** Candidate s at n lacks votes, and those of the polled nodes would be enough. */
  ghost predicate Polling(c: Sim, n: NodeId, s: Peer, left: set<NodeId>) {
    && n in c.nodes && s.alive && s.role == Candidate && c.nodes[n] == s.(votes := c.nodes[n].votes)
    && |c.nodes[n].votes| < Majority(c.nodes.Keys) <= |c.nodes[n].votes| + |left|
    && (forall p {:trigger Polled(c, n, s, p)} :: p in left ==> Polled(c, n, s, p))
  }

  /** All that happened to a peer is that it voted for n in term t. */
  predicate JustVoted(a: Peer, b: Peer, t: nat, n: NodeId) {
    a.term < t && b.term == t && b.votedFor == Some(n) && b.log == a.log && b.commitIndex == a.commitIndex && b.alive == a.alive
  }

  /** The request is delivered and the vote given. */
  lemma VoteGiven(c: Sim, n: NodeId, s: Peer, p: NodeId) returns (c': Sim)
    requires n in c.nodes && p != n && Willing(c, s, p) && Ask(s, n, p) in c.sent
    ensures Enabled(c, Deliver(Ask(s, n, p))) && c' == After(c, Deliver(Ask(s, n, p)))
    ensures p in c'.nodes && JustVoted(c.nodes[p], c'.nodes[p], s.term, n) && c'.nodes == c.nodes[p := c'.nodes[p]]
    ensures c'.sent == c.sent + {RVR(p, n, s.term, true)}
  {
    c' := After(c, Deliver(Ask(s, n, p)));
  }

  /** The answer is delivered and counted. */
  lemma VoteCounted(c: Sim, n: NodeId, s: Peer, p: NodeId) returns (c': Sim)
    requires n in c.nodes && s.alive && s.role == Candidate && c.nodes[n] == s.(votes := c.nodes[n].votes)
    requires RVR(p, n, s.term, true) in c.sent
    ensures Enabled(c, Deliver(RVR(p, n, s.term, true))) && c' == After(c, Deliver(RVR(p, n, s.term, true)))
    ensures c'.sent == c.sent && n in c'.nodes && c'.nodes == c.nodes[n := c'.nodes[n]]
    ensures var votes := c.nodes[n].votes + {p};
            if |votes| >= Majority(c.nodes.Keys) then
              var w := c'.nodes[n]; w.role == Leader && w.term == s.term && w.log == s.log && w.alive
            else c'.nodes[n] == s.(votes := votes)
  {
    c' := After(c, Deliver(RVR(p, n, s.term, true)));
  }

  /** One voter's vote, asked for, given and counted. */
  lemma OneVote(run: seq<Sim>, n: NodeId, s: Peer, p: NodeId, left: set<NodeId>) returns (more: seq<Sim>, f: Peer)
    requires IsRun(run) && Polling(EndOf(run), n, s, left) && p in left && Willing(EndOf(run), s, p)
    ensures |more| == 2 && IsRun(run + more)
    ensures var c, c' := EndOf(run), more[1];
            n in c'.nodes && c'.nodes == c.nodes[p := f][n := c'.nodes[n]] && JustVoted(c.nodes[p], f, s.term, n) &&
            ((c'.nodes[n].role == Leader && c'.nodes[n].term == s.term && c'.nodes[n].log == s.log && c'.nodes[n].alive) ||
             Polling(c', n, s, left - {p}))
  {
    var c := EndOf(run);
    assert Polled(c, n, s, p);
    var c1 := VoteGiven(c, n, s, p);
    var c2 := VoteCounted(c1, n, s, p);
    more := TwoGoOn(run, Deliver(Ask(s, n, p)), Deliver(RVR(p, n, s.term, true)));
    f := c1.nodes[p];
    assert c2.nodes.Keys == c.nodes.Keys;
    forall q | q in left - {p} && c2.nodes[n].role != Leader ensures Polled(c2, n, s, q) { assert Polled(c, n, s, q); }
  }

  /** What the election did to another node: nothing, or it voted. */
  predicate VotedOrNot(c: Sim, c': Sim, t: nat, n: NodeId, left: set<NodeId>, q: NodeId) {
    q in c.nodes && q in c'.nodes && (c'.nodes[q] == c.nodes[q] || (q in left && JustVoted(c.nodes[q], c'.nodes[q], t, n)))
  }

  ghost predicate OnlyVotes(c: Sim, c': Sim, t: nat, n: NodeId, left: set<NodeId>) {
    forall q {:trigger VotedOrNot(c, c', t, n, left, q)} :: q in c.nodes.Keys - {n} ==> VotedOrNot(c, c', t, n, left, q)
  }

  /** n is up and leads with this log in this term. */
  predicate Leads(c: Sim, n: NodeId, t: nat, log: Log) {
    n in c.nodes && c.nodes[n].alive && c.nodes[n].role == Leader && c.nodes[n].term == t && c.nodes[n].log == log
  }

  lemma OneVoteOnly(c: Sim, c1: Sim, n: NodeId, s: Peer, p: NodeId, f: Peer, left: set<NodeId>)
    requires n in c1.nodes && p in left && p != n && p in c.nodes && n in c.nodes && n !in left
    requires c1.nodes == c.nodes[p := f][n := c1.nodes[n]] && JustVoted(c.nodes[p], f, s.term, n)
    ensures OnlyVotes(c, c1, s.term, n, left) && c1.nodes.Keys == c.nodes.Keys
    ensures AllWilling(c, s, left) ==> AllWilling(c1, s, left - {p})
  {
    forall q | q in c.nodes.Keys - {n} ensures VotedOrNot(c, c1, s.term, n, left, q) {}
    if AllWilling(c, s, left) {
      forall q | q in left - {p} ensures Willing(c1, s, q) { assert Willing(c, s, q); }
    }
  }

  lemma VotesAdd(c: Sim, c1: Sim, c2: Sim, n: NodeId, t: nat, p: NodeId, left: set<NodeId>)
    requires OnlyVotes(c, c1, t, n, left) && OnlyVotes(c1, c2, t, n, left - {p}) && p in left && c1.nodes.Keys == c.nodes.Keys
    requires forall q :: q in c.nodes && q != p && q != n ==> c1.nodes[q] == c.nodes[q]
    ensures OnlyVotes(c, c2, t, n, left)
  {
    forall q | q in c.nodes.Keys - {n} ensures VotedOrNot(c, c2, t, n, left, q) {
      assert VotedOrNot(c, c1, t, n, left, q) && VotedOrNot(c1, c2, t, n, left - {p}, q);
    }
  }

  lemma {:induction false} VotesWon(run: seq<Sim>, n: NodeId, s: Peer, left: set<NodeId>) returns (more: seq<Sim>)
    requires IsRun(run) && Polling(EndOf(run), n, s, left) && AllWilling(EndOf(run), s, left) && n !in left
    ensures IsRun(run + more) && Leads(EndOf(run + more), n, s.term, s.log)
    ensures OnlyVotes(EndOf(run), EndOf(run + more), s.term, n, left)
    decreases left
  {
    var c := EndOf(run);
    assert left != {};
    var p :| p in left;
    assert Willing(c, s, p) && Polled(c, n, s, p);
    var f;
    more, f := OneVote(run, n, s, p, left);
    var c1 := more[1];
    assert EndOf(run + more) == c1;
    OneVoteOnly(c, c1, n, s, p, f, left);
    if c1.nodes[n].role != Leader {
      var later := VotesWon(run + more, n, s, left - {p});
      VotesAdd(c, c1, EndOf(run + more + later), n, s.term, p, left);
      assert run + more + later == run + (more + later);
      more := more + later;
    }
  }

  /** The timer fires and everybody is asked. */
  lemma PollOpens(c: Sim, n: NodeId, these: set<NodeId>) returns (c': Sim)
    requires Enabled(c, Elect(n)) && these != {} && these <= c.nodes.Keys - {n} && 1 + |these| >= Majority(c.nodes.Keys)
    ensures c' == After(c, Elect(n)) && n in c'.nodes && c'.nodes == c.nodes[n := c'.nodes[n]]
    ensures var p, s := c.nodes[n], c'.nodes[n]; s.term == p.term + 1 && s.log == p.log && Polling(c', n, s, these)
  {
    c' := After(c, Elect(n));
    var s := c'.nodes[n];
    assert c'.nodes.Keys == c.nodes.Keys;
    SubsetSize(these + {n}, c.nodes.Keys);
    forall p | p in these ensures Polled(c', n, s, p) { assert Ask(s, n, p) in Asks(c.nodes.Keys, n, s); }
  }

  /** May vote for n once it asks: up, no later term, no later log. */
  predicate MayVote(c: Sim, n: NodeId, p: NodeId) {
    n in c.nodes && p in c.nodes && c.nodes[p].alive && c.nodes[p].term <= c.nodes[n].term &&
    UpToDate(LastTerm(c.nodes[n].log), |c.nodes[n].log|, c.nodes[p].log)
  }

  ghost predicate AllMayVote(c: Sim, n: NodeId, these: set<NodeId>) {
    forall p {:trigger MayVote(c, n, p)} :: p in these ==> MayVote(c, n, p)
  }

  /** From any state of any run: a live node that does not lead, with any live others that make
      a majority with it, know no later term and have no later log, can go on to lead the next
      term, with its log as it was; the others have at most voted. */
  lemma UpToDateNodeWins(run: seq<Sim>, n: NodeId, these: set<NodeId>) returns (more: seq<Sim>)
    requires IsRun(run) && n in EndOf(run).nodes && these <= EndOf(run).nodes.Keys - {n}
    requires these != {} && 2 * (1 + |these|) > |EndOf(run).nodes.Keys|
    requires EndOf(run).nodes[n].alive && EndOf(run).nodes[n].role != Leader && AllMayVote(EndOf(run), n, these)
    ensures IsRun(run + more)
    ensures var c, c' := EndOf(run), EndOf(run + more);
            var p := c.nodes[n]; Leads(c', n, p.term + 1, p.log) && OnlyVotes(c, c', p.term + 1, n, these)
  {
    var c := EndOf(run);
    GoOn(run, Elect(n));
    var c1 := PollOpens(c, n, these);
    var s := c1.nodes[n];
    forall p | p in these ensures Willing(c1, s, p) { assert MayVote(c, n, p); }
    assert EndOf(run + [c1]) == c1;
    var later := VotesWon(run + [c1], n, s, these);
    more := [c1] + later;
    assert run + more == run + [c1] + later;
    var c' := EndOf(run + more);
    forall q | q in c.nodes.Keys - {n} ensures VotedOrNot(c, c', s.term, n, these, q) { assert VotedOrNot(c1, c', s.term, n, these, q); }
  }

  /** A simulation of one node never has a leader: only another node's answer makes one. */
  lemma {:induction false} LoneNodeNeverLeads(run: seq<Sim>, i: nat, n: NodeId)
    requires IsRun(run) && i < |run| && run[0].nodes.Keys == {n}
    ensures run[i].nodes.Keys == {n} && run[i].nodes[n].role != Leader
    decreases i
  {
    if i > 0 {
      LoneNodeNeverLeads(run, i - 1, n);
      assert StepAt(run, i - 1);
      var e :| Enabled(run[i - 1], e) && run[i] == After(run[i - 1], e);
      if e.Deliver? {
        RunPrefix(run, i);
        assert run[..i][i - 1] == run[i - 1];
        DeliveryFits(run[..i], e.m);
        assert false;
      }
    }
  }

  // ---------- Catching up ----------

  /** n leads, and its newest entry is of its own term. */
  predicate LeadsFully(c: Sim, n: NodeId) {
    n in c.nodes && c.nodes[n].alive && c.nodes[n].role == Leader && c.nodes[n].log != [] && LastTerm(c.nodes[n].log) == c.nodes[n].term
  }

  /** q is up and knows no later term than n. */
  predicate Hears(c: Sim, n: NodeId, q: NodeId) {
    n in c.nodes && q in c.nodes && q != n && c.nodes[q].alive && c.nodes[q].term <= c.nodes[n].term
  }

  /** What log matching and the books give for a leader and a node that hears it. */
  ghost predicate Pair(c: Sim, n: NodeId, q: NodeId) {
    LeadsFully(c, n) && Hears(c, n, q) &&
    var s, f := c.nodes[n], c.nodes[q];
    && L.FitsLeader(f.log, s.log, s.term) && L.FitsLeader(s.log, s.log, s.term)
    && s.commitIndex <= |s.log|
    && q in s.nextIndex && q in s.matchIndex && 1 <= s.nextIndex[q] <= |s.log| + 1 && s.matchIndex[q] <= |s.log|
    && (f.term == s.term ==> Agree(f.log, s.log, s.matchIndex[q]))
  }

  lemma PairAt(run: seq<Sim>, n: NodeId, q: NodeId)
    requires IsRun(run) && LeadsFully(EndOf(run), n) && Hears(EndOf(run), n, q)
    ensures Pair(EndOf(run), n, q)
  {
    var c := EndOf(run);
    var s := SimulatorRefinesRaft(run);
    MirrorsNode(c, s, n);
    MirrorsNode(c, s, q);
    LeaderFact(s, n);
    CommitFact(c, s, n);
    BooksAreFull(run, n, q);
    var p, f := c.nodes[n], c.nodes[q];
    assert BookOk(s.h, n, p.term, |p.log|, p.nextIndex, p.matchIndex, q);
    L.LogFits(s, n, p.term, q);
    L.LogFits(s, n, p.term, n);
    if f.term == p.term { L.KeepsConfirmed(s, q, f.log, f.term, p.matchIndex[q]); }
  }

  /** The leader after an answer: same term, same log, no lower commit index, and the books on the others as they were. */
  predicate StillLeads(c: Sim, c': Sim, n: NodeId, q: NodeId) {
    n in c.nodes && LeadsFully(c', n) &&
    var s, s' := c.nodes[n], c'.nodes[n];
    s'.term == s.term && s'.log == s.log && s'.commitIndex >= s.commitIndex && s'.matchIndex - {q} == s.matchIndex - {q}
  }

  predicate OnlyThese(c: Sim, c': Sim, n: NodeId, q: NodeId) {
    c'.nodes.Keys == c.nodes.Keys && forall m :: m in c.nodes && m != n && m != q ==> c'.nodes[m] == c.nodes[m]
  }

  /** The message carries a slice of this log of at most eight entries, with the term before it. */
  predicate Carries(m: Message, log: Log, prev: nat) {
    m.AE? && m.prevIndex == prev <= |log| && m.prevTerm == (if prev > 0 then log[prev - 1].term else 0) &&
    m.entries == log[prev..Min(|log|, prev + MAX_ENTRIES)]
  }

  /** A node's books allow a request to q. */
  predicate BookAllows(p: Peer, q: NodeId) {
    q in p.nextIndex && 1 <= p.nextIndex[q] <= |p.log| + 1
  }

  lemma SendCarries(p: Peer, n: NodeId, q: NodeId)
    requires BookAllows(p, q)
    ensures var m := SendAppend(p, n, q);
            Carries(m, p.log, p.nextIndex[q] - 1) && m.from == n && m.to == q && m.term == p.term && m.commit == p.commitIndex
  {
  }

  lemma BeatSent(c: Sim, n: NodeId, q: NodeId) returns (c1: Sim, m: Message)
    requires n in c.nodes && q in c.nodes && q != n && Enabled(c, Beat(n)) && BookAllows(c.nodes[n], q)
    ensures c1 == After(c, Beat(n)) && c1.nodes == c.nodes && m in c1.sent
    ensures var s := c.nodes[n];
            Carries(m, s.log, s.nextIndex[q] - 1) && m.from == n && m.to == q && m.term == s.term && m.commit == s.commitIndex
  {
    c1 := After(c, Beat(n));
    m := SendAppend(c.nodes[n], n, q);
    SendCarries(c.nodes[n], n, q);
    assert m in Beats(c.nodes.Keys, n, c.nodes[n]);
    assert c.nodes[n := c.nodes[n]] == c.nodes;
  }

  /** What a node that fits the leader's log makes of such a slice. */
  lemma SliceHeard(c: Sim, m: Message, log: Log, prev: nat)
    requires Enabled(c, Deliver(m)) && Carries(m, log, prev) && c.nodes[m.to].term <= m.term
    requires L.FitsLeader(c.nodes[m.to].log, log, m.term) && L.FitsLeader(log, log, m.term)
    ensures m.to in After(c, Deliver(m)).nodes
    ensures var f, f', last := c.nodes[m.to], After(c, Deliver(m)).nodes[m.to], Min(|log|, prev + MAX_ENTRIES);
            f'.term == m.term && last == prev + |m.entries| &&
            After(c, Deliver(m)).sent == c.sent + {AER(m.to, m.from, m.term, Agree(f.log, log, prev), if Agree(f.log, log, prev) then last else 0)} &&
            if Agree(f.log, log, prev) then f'.commitIndex == Max(f.commitIndex, Min(m.commit, last)) && Agree(f'.log, log, last)
            else f'.log == f.log && f'.commitIndex == f.commitIndex
  {
    var f := c.nodes[m.to];
    EntriesAcceptedExactly(c, m);
    L.ConsistentIs(f.log, log, prev);
    if Agree(f.log, log, prev) {
      SameMerge(f.log, prev, m.entries);
      L.MergeAgrees(f.log, log, m.term, prev, m.entries, prev);
    }
  }

  /** q has handled what the leader's next request holds, and its answer says so. */
  predicate BeatDone(c: Sim, c': Sim, n: NodeId, q: NodeId) {
    n in c.nodes && q in c.nodes && n != q && q in c.nodes[n].nextIndex && 1 <= c.nodes[n].nextIndex[q] <= |c.nodes[n].log| + 1 &&
    q in c'.nodes && c'.nodes == c.nodes[q := c'.nodes[q]] && c'.nodes[q].alive && c'.nodes[q].term == c.nodes[n].term &&
    var s, f, f' := c.nodes[n], c.nodes[q], c'.nodes[q];
    var prev := s.nextIndex[q] - 1;
    var last := Min(|s.log|, prev + MAX_ENTRIES);
    if Agree(f.log, s.log, prev) then
      AER(q, n, s.term, true, last) in c'.sent && f'.commitIndex == Max(f.commitIndex, Min(s.commitIndex, last)) && Agree(f'.log, s.log, last)
    else AER(q, n, s.term, false, 0) in c'.sent && f'.log == f.log && f'.commitIndex == f.commitIndex
  }

  /** The heartbeat is delivered to q. */
  lemma BeatHeard(c: Sim, n: NodeId, q: NodeId) returns (c1: Sim, c2: Sim, m: Message)
    requires Pair(c, n, q)
    ensures Enabled(c, Beat(n)) && c1 == After(c, Beat(n)) && Enabled(c1, Deliver(m)) && c2 == After(c1, Deliver(m))
    ensures BeatDone(c, c2, n, q)
  {
    c1, m := BeatSent(c, n, q);
    c2 := After(c1, Deliver(m));
    StaysAlive(c1, m);
    SliceHeard(c1, m, c.nodes[n].log, c.nodes[n].nextIndex[q] - 1);
  }

  lemma StaysAlive(c: Sim, m: Message)
    requires Enabled(c, Deliver(m)) && m.AE?
    ensures m.to in After(c, Deliver(m)).nodes && After(c, Deliver(m)).nodes[m.to].alive
    ensures After(c, Deliver(m)).nodes == c.nodes[m.to := After(c, Deliver(m)).nodes[m.to]]
  {
  }

  /** Nothing above the commit index may be committed. */
  ghost predicate NoneAbove(c: Sim, n: NodeId) {
    n in c.nodes && forall j: nat {:trigger MayCommit(c.nodes.Keys, n, c.nodes[n], j)} ::
      j > c.nodes[n].commitIndex ==> !MayCommit(c.nodes.Keys, n, c.nodes[n], j)
  }

  /** The leader has taken the answer into its books, and committed what they then allow. */
  ghost predicate AnswerDone(c: Sim, c': Sim, n: NodeId, q: NodeId, success: bool, i: nat) {
    StillLeads(c, c', n, q) && c'.nodes == c.nodes[n := c'.nodes[n]] &&
    var s, s' := c.nodes[n], c'.nodes[n];
    q in s.nextIndex && q in s'.nextIndex && q in s.matchIndex && q in s'.matchIndex && s.nextIndex[q] >= 1 &&
    if success then s'.matchIndex[q] == Max(s.matchIndex[q], i) && s'.nextIndex[q] == s'.matchIndex[q] + 1 && NoneAbove(c', n)
    else s'.matchIndex[q] == s.matchIndex[q] && s'.nextIndex[q] == Max(1, s.nextIndex[q] - 1)
  }

  /** The answer reaches the leader. */
  lemma AnswerHeard(run: seq<Sim>, n: NodeId, q: NodeId, m: Message) returns (c': Sim)
    requires IsRun(run) && LeadsFully(EndOf(run), n) && m in EndOf(run).sent && m.AER? && m.to == n && m.from == q
    requires m.term == EndOf(run).nodes[n].term
    ensures Enabled(EndOf(run), Deliver(m)) && c' == After(EndOf(run), Deliver(m)) && IsRun(run + [c'])
    ensures AnswerDone(EndOf(run), c', n, q, m.success, m.matchIndex)
  {
    var c := EndOf(run);
    GoOn(run, Deliver(m));
    c' := After(c, Deliver(m));
    assert c'.nodes.Keys == c.nodes.Keys;
    DeliveryFits(run, m);
    BooksAreFull(run, n, q);
    if m.success {
      SuccessIsCounted(run, m);
      var s, s' := c.nodes[n], c'.nodes[n];
      var raised := s.(matchIndex := s'.matchIndex, nextIndex := s'.nextIndex);
      forall j: nat | j > s'.commitIndex ensures !MayCommit(c.nodes.Keys, n, s', j) { assert !MayCommit(c.nodes.Keys, n, raised, j); }
    } else {
      RefusalBacksOff(run, m);
    }
  }

  /** What one heartbeat, its handling and its answer achieve. */
  ghost predicate Exchanged(c: Sim, c': Sim, n: NodeId, q: NodeId) {
    n in c.nodes && q in c.nodes && n in c'.nodes && q in c'.nodes &&
    var s, f, s', f' := c.nodes[n], c.nodes[q], c'.nodes[n], c'.nodes[q];
    q in s.nextIndex && q in s.matchIndex && q in s'.nextIndex && q in s'.matchIndex && 1 <= s.nextIndex[q] <= |s.log| + 1 &&
    var prev := s.nextIndex[q] - 1;
    var last := Min(|s.log|, prev + MAX_ENTRIES);
    if Agree(f.log, s.log, prev) then
      s'.matchIndex[q] == Max(s.matchIndex[q], last) && s'.nextIndex[q] == s'.matchIndex[q] + 1 && NoneAbove(c', n) &&
      f'.commitIndex == Max(f.commitIndex, Min(s.commitIndex, last)) && f'.term == s.term && Agree(f'.log, s.log, last)
    else s'.nextIndex[q] == Max(1, s.nextIndex[q] - 1) && f'.log == f.log
  }

  lemma ExchangeIs(c: Sim, c2: Sim, c3: Sim, n: NodeId, q: NodeId, agree: bool, i: nat)
    requires BeatDone(c, c2, n, q) && AnswerDone(c2, c3, n, q, agree, i)
    requires var s := c.nodes[n];
             agree == Agree(c.nodes[q].log, s.log, s.nextIndex[q] - 1) &&
             (agree ==> i == Min(|s.log|, s.nextIndex[q] - 1 + MAX_ENTRIES))
    ensures StillLeads(c, c3, n, q) && OnlyThese(c, c3, n, q) && Hears(c3, n, q) && Exchanged(c, c3, n, q)
  {
  }

  lemma BeatInRun(run: seq<Sim>, n: NodeId, q: NodeId) returns (more: seq<Sim>)
    requires IsRun(run) && LeadsFully(EndOf(run), n) && Hears(EndOf(run), n, q)
    ensures |more| == 2 && IsRun(run + more) && BeatDone(EndOf(run), more[1], n, q) && LeadsFully(more[1], n)
  {
    PairAt(run, n, q);
    var c1, c2, m := BeatHeard(EndOf(run), n, q);
    more := TwoGoOn(run, Beat(n), Deliver(m));
  }

  lemma Exchange(run: seq<Sim>, n: NodeId, q: NodeId) returns (more: seq<Sim>)
    requires IsRun(run) && LeadsFully(EndOf(run), n) && Hears(EndOf(run), n, q)
    ensures |more| == 3 && IsRun(run + more)
    ensures var c, c' := EndOf(run), more[2];
            StillLeads(c, c', n, q) && OnlyThese(c, c', n, q) && Hears(c', n, q) && Exchanged(c, c', n, q)
  {
    var c := EndOf(run);
    more := BeatInRun(run, n, q);
    var c2 := more[1];
    assert EndOf(run + more) == c2;
    var s, prev := c.nodes[n], c.nodes[n].nextIndex[q] - 1;
    var agree := Agree(c.nodes[q].log, s.log, prev);
    var i := if agree then Min(|s.log|, prev + MAX_ENTRIES) else 0;
    var c3 := AnswerHeard(run + more, n, q, AER(q, n, s.term, agree, i));
    ExchangeIs(c, c2, c3, n, q, agree, i);
    assert run + more + [c3] == run + (more + [c3]);
    more := more + [c3];
  }

  /** Steps still needed at most: one per entry to go back, then forward. */
  function Need(agree: bool, prev: nat, len: nat): nat {
    if !agree then len + 1 + prev else if prev <= len then len - prev else 0
  }

  ghost function NeedOf(c: Sim, n: NodeId, q: NodeId): nat {
    if n in c.nodes && q in c.nodes && q in c.nodes[n].nextIndex && c.nodes[n].nextIndex[q] >= 1 then
      var prev := c.nodes[n].nextIndex[q] - 1;
      Need(Agree(c.nodes[q].log, c.nodes[n].log, prev), prev, |c.nodes[n].log|)
    else 0
  }

  /** An exchange either reached the end of the log or leaves less to do. */
  lemma NeedFalls(c: Sim, c': Sim, n: NodeId, q: NodeId)
    requires Pair(c, n, q) && Pair(c', n, q) && StillLeads(c, c', n, q) && Exchanged(c, c', n, q)
    ensures var s, s' := c.nodes[n], c'.nodes[n];
            (s'.matchIndex[q] == |s.log| && NoneAbove(c', n) && c'.nodes[q].term == s.term && c'.nodes[q].commitIndex >= s.commitIndex) ||
            NeedOf(c', n, q) < NeedOf(c, n, q)
  {
    var s, f, s', f' := c.nodes[n], c.nodes[q], c'.nodes[n], c'.nodes[q];
    var prev := s.nextIndex[q] - 1;
    if Agree(f.log, s.log, prev) {
      assert Agree(f'.log, s.log, s'.matchIndex[q]);
    } else {
      assert prev > 0;
    }
  }

  /** q holds what n holds, n knows it, and q has committed what n had committed at first. */
  predicate Reached(c: Sim, c': Sim, n: NodeId, q: NodeId) {
    n in c.nodes && n in c'.nodes && q in c'.nodes && Hears(c', n, q) &&
    var s', f' := c'.nodes[n], c'.nodes[q];
    q in s'.matchIndex && s'.matchIndex[q] == |s'.log| && f'.log == s'.log && f'.commitIndex >= c.nodes[n].commitIndex
  }

  lemma ExchangesJoin(c: Sim, c1: Sim, c2: Sim, n: NodeId, q: NodeId)
    requires StillLeads(c, c1, n, q) && StillLeads(c1, c2, n, q) && OnlyThese(c, c1, n, q) && OnlyThese(c1, c2, n, q)
    ensures StillLeads(c, c2, n, q) && OnlyThese(c, c2, n, q)
    ensures Reached(c1, c2, n, q) ==> Reached(c, c2, n, q)
  {
  }

  /** From any state of any run, exchanges alone continue it to where a live follower has the
      leader's log and everything the leader had committed, and nothing is left to commit. */
  lemma {:induction false} CatchesUp(run: seq<Sim>, n: NodeId, q: NodeId) returns (more: seq<Sim>)
    requires IsRun(run) && LeadsFully(EndOf(run), n) && Hears(EndOf(run), n, q)
    ensures IsRun(run + more)
    ensures var c, c' := EndOf(run), EndOf(run + more);
            StillLeads(c, c', n, q) && OnlyThese(c, c', n, q) && Reached(c, c', n, q) && NoneAbove(c', n)
    decreases NeedOf(EndOf(run), n, q)
  {
    var c := EndOf(run);
    more := Exchange(run, n, q);
    var c1 := more[2];
    assert EndOf(run + more) == c1;
    PairAt(run, n, q);
    PairAt(run + more, n, q);
    NeedFalls(c, c1, n, q);
    if NeedOf(c1, n, q) < NeedOf(c, n, q) {
      var later := CatchesUp(run + more, n, q);
      ExchangesJoin(c, c1, EndOf(run + more + later), n, q);
      assert run + more + later == run + (more + later);
      more := more + later;
    } else {
      L.FullIsEqual(c1.nodes[q].log, c1.nodes[n].log, c1.nodes[n].term);
    }
  }

  // ---------- A majority commits ----------

  /** The leader after any number of answers. */
  predicate LedOn(c: Sim, c': Sim, n: NodeId) {
    n in c.nodes && LeadsFully(c', n) && c'.nodes.Keys == c.nodes.Keys &&
    c'.nodes[n].term == c.nodes[n].term && c'.nodes[n].log == c.nodes[n].log && c'.nodes[n].commitIndex >= c.nodes[n].commitIndex
  }

  function BookOn(p: Peer, q: NodeId): Option<nat> {
    if q in p.matchIndex then Some(p.matchIndex[q]) else None
  }

  predicate LeftAlone(c: Sim, c': Sim, n: NodeId, q: NodeId) {
    n in c.nodes && n in c'.nodes && q in c.nodes && q in c'.nodes && c'.nodes[q] == c.nodes[q] &&
    BookOn(c'.nodes[n], q) == BookOn(c.nodes[n], q)
  }

  ghost predicate AllReached(c: Sim, c': Sim, n: NodeId, these: set<NodeId>) {
    forall q {:trigger Reached(c, c', n, q)} :: q in these ==> Reached(c, c', n, q)
  }

  ghost predicate OthersAlone(c: Sim, c': Sim, n: NodeId, these: set<NodeId>) {
    forall q {:trigger LeftAlone(c, c', n, q)} :: q in c.nodes.Keys - these - {n} ==> LeftAlone(c, c', n, q)
  }

  ghost predicate AllHear(c: Sim, n: NodeId, these: set<NodeId>) {
    forall q {:trigger Hears(c, n, q)} :: q in these ==> Hears(c, n, q)
  }

  lemma OneReached(run: seq<Sim>, n: NodeId, q: NodeId) returns (more: seq<Sim>)
    requires IsRun(run) && LeadsFully(EndOf(run), n) && Hears(EndOf(run), n, q)
    ensures IsRun(run + more)
    ensures var c, c' := EndOf(run), EndOf(run + more);
            LedOn(c, c', n) && Reached(c, c', n, q) && OthersAlone(c, c', n, {q}) && NoneAbove(c', n)
  {
    more := CatchesUp(run, n, q);
    var c, c' := EndOf(run), EndOf(run + more);
    var a, b := c.nodes[n].matchIndex, c'.nodes[n].matchIndex;
    forall m | m in c.nodes.Keys - {q} - {n} ensures LeftAlone(c, c', n, m) {
      assert m in a <==> m in a - {q};
      assert m in b <==> m in b - {q};
    }
  }

  lemma ReachedStays(c: Sim, c1: Sim, c2: Sim, n: NodeId, q: NodeId)
    requires Reached(c, c1, n, q) && LeftAlone(c1, c2, n, q) && LedOn(c1, c2, n)
    ensures Reached(c, c2, n, q)
  {
  }

  lemma AllReachedOnce(c: Sim, c1: Sim, c2: Sim, n: NodeId, q: NodeId, rest: set<NodeId>)
    requires LedOn(c, c1, n) && LedOn(c1, c2, n) && q in c.nodes && q != n && q !in rest
    requires Reached(c, c1, n, q) && OthersAlone(c, c1, n, {q}) && AllReached(c1, c2, n, rest) && OthersAlone(c1, c2, n, rest)
    ensures AllReached(c, c2, n, rest + {q}) && OthersAlone(c, c2, n, rest + {q}) && LedOn(c, c2, n)
  {
    forall m | m in rest + {q} ensures Reached(c, c2, n, m) {
      if m == q {
        assert LeftAlone(c1, c2, n, q);
        ReachedStays(c, c1, c2, n, q);
      } else {
        assert Reached(c1, c2, n, m);
      }
    }
    forall m | m in c.nodes.Keys - (rest + {q}) - {n} ensures LeftAlone(c, c2, n, m) {
      assert LeftAlone(c, c1, n, m) && LeftAlone(c1, c2, n, m);
    }
  }

  /** One follower at a time, all of them. */
  lemma {:induction false} ReplicateToAll(run: seq<Sim>, n: NodeId, these: set<NodeId>) returns (more: seq<Sim>)
    requires IsRun(run) && LeadsFully(EndOf(run), n) && these <= EndOf(run).nodes.Keys - {n} && these != {}
    requires AllHear(EndOf(run), n, these)
    ensures IsRun(run + more)
    ensures var c, c' := EndOf(run), EndOf(run + more);
            LedOn(c, c', n) && AllReached(c, c', n, these) && OthersAlone(c, c', n, these) && NoneAbove(c', n)
    decreases these
  {
    var q :| q in these;
    var rest := these - {q};
    assert Hears(EndOf(run), n, q);
    more := OneReached(run, n, q);
    var c, c1 := EndOf(run), EndOf(run + more);
    if rest == {} {
      assert these == {q};
    } else {
      forall m | m in rest ensures Hears(c1, n, m) { assert Hears(c, n, m) && LeftAlone(c, c1, n, m); }
      var later := ReplicateToAll(run + more, n, rest);
      AllReachedOnce(c, c1, EndOf(run + more + later), n, q, rest);
      assert rest + {q} == these;
      assert run + more + later == run + (more + later);
      more := more + later;
    }
  }

  /** What a majority holds, with nothing left to commit, is committed to the end. */
  lemma HeldIsCommitted(run: seq<Sim>, c: Sim, n: NodeId, these: set<NodeId>)
    requires IsRun(run) && LeadsFully(EndOf(run), n) && these <= EndOf(run).nodes.Keys - {n}
    requires 2 * (1 + |these|) > |EndOf(run).nodes.Keys| && AllReached(c, EndOf(run), n, these) && NoneAbove(EndOf(run), n)
    ensures EndOf(run).nodes[n].commitIndex == |EndOf(run).nodes[n].log|
  {
    var c', p, ids := EndOf(run), EndOf(run).nodes[n], EndOf(run).nodes.Keys;
    var holders := KnownToHold(ids, n, p, |p.log|);
    forall q | q in these ensures q in holders { assert Reached(c, c', n, q); }
    SubsetSize(these, holders);
    assert MayCommit(ids, n, p, |p.log|);
    CommitWithinLog(run, n);
  }

  lemma CommitWithinLog(run: seq<Sim>, n: NodeId)
    requires IsRun(run) && n in EndOf(run).nodes
    ensures EndOf(run).nodes[n].commitIndex <= |EndOf(run).nodes[n].log|
  {
    var s := SimulatorRefinesRaft(run);
    CommitFact(EndOf(run), s, n);
  }

  /** q is up with n's log, all of it committed. */
  predicate InStep(c: Sim, n: NodeId, q: NodeId) {
    n in c.nodes && q in c.nodes && c.nodes[q].alive && c.nodes[q].log == c.nodes[n].log && c.nodes[q].commitIndex == |c.nodes[n].log|
  }

  ghost predicate AllInStep(c: Sim, n: NodeId, these: set<NodeId>) {
    forall q {:trigger InStep(c, n, q)} :: q in these ==> InStep(c, n, q)
  }

  /** From any state of any run: a live leader whose newest entry is of its own term, and any live
      others that make a majority with it and know no later term, can go on to where all of its
      log is committed on every one of them. */
  lemma MajorityCommits(run: seq<Sim>, n: NodeId, these: set<NodeId>) returns (more: seq<Sim>)
    requires IsRun(run) && LeadsFully(EndOf(run), n) && these <= EndOf(run).nodes.Keys - {n} && these != {}
    requires 2 * (1 + |these|) > |EndOf(run).nodes.Keys| && AllHear(EndOf(run), n, these)
    ensures IsRun(run + more)
    ensures var c, c' := EndOf(run), EndOf(run + more);
            LedOn(c, c', n) && c'.nodes[n].commitIndex == |c.nodes[n].log| && AllInStep(c', n, these)
  {
    var c := EndOf(run);
    var first := ReplicateToAll(run, n, these);
    var c1 := EndOf(run + first);
    HeldIsCommitted(run + first, c, n, these);
    forall q | q in these ensures Hears(c1, n, q) { assert Reached(c, c1, n, q); }
    var later := ReplicateToAll(run + first, n, these);
    var c2 := EndOf(run + first + later);
    HeldIsCommitted(run + first + later, c1, n, these);
    forall q | q in these ensures InStep(c2, n, q) {
      assert Reached(c1, c2, n, q);
      CommitWithinLog(run + first + later, q);
    }
    assert run + first + later == run + (first + later);
    more := first + later;
  }

  /** A value given to such a leader is committed at the end of its log, on all of them. */
  lemma WriteCommits(run: seq<Sim>, n: NodeId, v: nat, these: set<NodeId>) returns (more: seq<Sim>)
    requires IsRun(run) && Enabled(EndOf(run), Write(n, v)) && these <= EndOf(run).nodes.Keys - {n} && these != {}
    requires 2 * (1 + |these|) > |EndOf(run).nodes.Keys| && AllHear(EndOf(run), n, these)
    ensures IsRun(run + more) && n in EndOf(run + more).nodes && AllInStep(EndOf(run + more), n, these)
    ensures var p, p' := EndOf(run).nodes[n], EndOf(run + more).nodes[n];
            p'.log == p.log + [Entry(p.term, Value(v))] && p'.commitIndex == |p.log| + 1 && p'.role == Leader && p'.term == p.term
  {
    var c := EndOf(run);
    GoOn(run, Write(n, v));
    var c1 := After(c, Write(n, v));
    assert EndOf(run + [c1]) == c1;
    assert c1.nodes.Keys == c.nodes.Keys;
    forall q | q in these ensures Hears(c1, n, q) { assert Hears(c, n, q); }
    var later := MajorityCommits(run + [c1], n, these);
    assert run + [c1] + later == run + ([c1] + later);
    more := [c1] + later;
  }
}
