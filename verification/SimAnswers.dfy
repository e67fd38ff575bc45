/** What one delivery does in the browser simulator, said outright: when a vote is granted and
    an election won, when entries are accepted and how far a follower then commits, and what an
    answer does to the leader's books and its commit index. */
module SimAnswers {
  import opened RaftTypes
  import opened SimProtocol
  import opened SimSafety
  import E = Engine

  /** A vote is granted exactly when the request is not of an older term, the voter has no other
      vote in its term and the candidate's log is not behind; the answer says so, in the higher
      of the two terms. */
  lemma VoteGrantedExactly(c: Sim, m: Message)
    requires Enabled(c, Deliver(m)) && m.RV?
    ensures m.to in After(c, Deliver(m)).nodes
    ensures var p, p' := c.nodes[m.to], After(c, Deliver(m)).nodes[m.to];
            var granted := m.term >= p.term && (m.term > p.term || p.votedFor == None || p.votedFor == Some(m.from)) &&
              (p.log == [] || var last := p.log[|p.log| - 1].term;
               m.lastTerm > last || (m.lastTerm == last && m.lastIndex >= |p.log|));
            After(c, Deliver(m)).sent == c.sent + {RVR(m.to, m.from, Max(p.term, m.term), granted)} &&
            p'.term == Max(p.term, m.term) && p'.log == p.log && p'.commitIndex == p.commitIndex &&
            p'.votedFor == (if granted then Some(m.from) else if m.term > p.term then None else p.votedFor) &&
            p'.role == if m.term > p.term then Follower else p.role
  {
  }

  /** A granted vote of the candidate's own term joins its set of votes, and it leads exactly
      when more than half of all nodes are in that set: with fresh books, and on record. */
  lemma VotesCountExactly(c: Sim, m: Message)
    requires Enabled(c, Deliver(m)) && m.RVR? && m.term <= c.nodes[m.to].term
    ensures m.to in After(c, Deliver(m)).nodes && After(c, Deliver(m)).sent == c.sent
    ensures var p, c' := c.nodes[m.to], After(c, Deliver(m));
            var p' := c'.nodes[m.to];
            if p.role == Candidate && m.term == p.term && m.granted then
              var wins := 2 * |p.votes + {m.from}| > |c.nodes|;
              p'.votes == p.votes + {m.from} && p'.term == p.term && p'.log == p.log && p'.votedFor == p.votedFor &&
              p'.role == (if wins then Leader else Candidate) &&
              (wins ==> p'.nextIndex.Keys == p'.matchIndex.Keys == c.nodes.Keys &&
                        forall q :: q in c.nodes ==> p'.nextIndex[q] == |p.log| + 1 && p'.matchIndex[q] == 0) &&
              c'.leaderHistory == c.leaderHistory + if wins then [Won(p.term, m.to)] else []
            else p' == p && c'.leaderHistory == c.leaderHistory
  {
    assert |c.nodes.Keys| == |c.nodes|;
  }

  /** Entries are accepted exactly when they are not of an older term and fit the log at their
      previous index. The answer says how far they reached, and the follower has then committed
      all that the leader had and the message covered. */
  lemma EntriesAcceptedExactly(c: Sim, m: Message)
    requires Enabled(c, Deliver(m)) && m.AE?
    ensures m.to in After(c, Deliver(m)).nodes
    ensures var p, p' := c.nodes[m.to], After(c, Deliver(m)).nodes[m.to];
            var last := m.prevIndex + |m.entries|;
            var accepted := m.term >= p.term &&
              (m.prevIndex == 0 || (m.prevIndex <= |p.log| && p.log[m.prevIndex - 1].term == m.prevTerm));
            After(c, Deliver(m)).sent ==
              c.sent + {AER(m.to, m.from, Max(p.term, m.term), accepted, if accepted then last else 0)} &&
            p'.term == Max(p.term, m.term) && (m.term >= p.term ==> p'.role == Follower) && (m.term < p.term ==> p' == p) &&
            p'.commitIndex == (if accepted then Max(p.commitIndex, Min(m.commit, last)) else p.commitIndex) &&
            p'.log == if accepted then MergeEach(p.log, m.prevIndex, m.entries) else p.log
  {
  }

  /** The other nodes this leader knows to hold its log up to index i. */
  function KnownToHold(ids: set<NodeId>, n: NodeId, p: Peer, i: nat): set<NodeId> {
    set q | q in ids && q != n && q in p.matchIndex && p.matchIndex[q] >= i
  }

  /** Index i may be committed: own term, and held by more than half of all nodes. */
  predicate MayCommit(ids: set<NodeId>, n: NodeId, p: Peer, i: nat) {
    0 < i <= |p.log| && p.log[i - 1].term == p.term &&
    2 * (1 + |KnownToHold(ids, n, p, i)|) > |ids|
  }

  lemma MayCommitIs(ids: set<NodeId>, n: NodeId, p: Peer, i: nat)
    requires 0 < i <= |p.log|
    ensures MayCommit(ids, n, p, i) <==> p.log[i - 1].term == p.term && HeldByMajority(ids, n, p, i)
  {
    assert Holders(ids, n, p, i) == KnownToHold(ids, n, p, i);
  }

  /** On a log whose terms never fall the scan finds the greatest index that may be committed. */
  lemma {:induction false} ScanIsGreatest(ids: set<NodeId>, n: NodeId, p: Peer, i: nat)
    requires i <= |p.log| && Rising(p.log) && LastTerm(p.log) <= p.term
    ensures var k := ScanDown(ids, n, p, i);
            k >= p.commitIndex && (k == p.commitIndex || MayCommit(ids, n, p, k)) &&
            forall j: nat {:trigger MayCommit(ids, n, p, j)} :: k < j <= i && j > p.commitIndex ==> !MayCommit(ids, n, p, j)
    decreases i
  {
    if i > p.commitIndex {
      MayCommitIs(ids, n, p, i);
      if p.log[i - 1].term != p.term {
        BelowLast(p.log, i);
        forall j: nat | j <= i ensures !MayCommit(ids, n, p, j) { if j > 0 { RisesTo(p.log, j, i); } }
      } else if !HeldByMajority(ids, n, p, i) {
        ScanIsGreatest(ids, n, p, i - 1);
      }
    }
  }

  lemma {:induction false} RisesTo(log: Log, j: nat, i: nat)
    requires Rising(log) && 0 < j <= i <= |log|
    ensures log[j - 1].term <= log[i - 1].term
    decreases i - j
  {
    if j < i {
      assert RisesAt(log, j);
      RisesTo(log, j + 1, i);
    }
  }

  /** A success of the leader's own term raises the peer's match index, never lowers it, sets its
      next index right behind, and the commit index becomes the greatest the raised books allow. */
  lemma SuccessIsCounted(run: seq<Sim>, m: Message)
    requires IsRun(run) && Enabled(run[|run| - 1], Deliver(m)) && m.AER? && m.success
    requires var p := run[|run| - 1].nodes[m.to]; p.role == Leader && p.term == m.term
    ensures var c := run[|run| - 1]; m.from in c.nodes[m.to].matchIndex && m.to in After(c, Deliver(m)).nodes
    ensures var c := run[|run| - 1];
            var ids, p, p' := c.nodes.Keys, c.nodes[m.to], After(c, Deliver(m)).nodes[m.to];
            var match_ := Max(p.matchIndex[m.from], m.matchIndex);
            var raised := p.(matchIndex := p.matchIndex[m.from := match_], nextIndex := p.nextIndex[m.from := match_ + 1]);
            p' == raised.(commitIndex := p'.commitIndex) && p'.commitIndex >= p.commitIndex &&
            (p'.commitIndex == p.commitIndex || MayCommit(ids, m.to, raised, p'.commitIndex)) &&
            forall j: nat {:trigger MayCommit(ids, m.to, raised, j)} :: j > p'.commitIndex ==> !MayCommit(ids, m.to, raised, j)
  {
    var c := run[|run| - 1];
    DeliveryFits(run, m);
    BooksAreFull(run, m.to, m.from);
    LogsRise(run, m.to);
    var raised := Confirmed(c.nodes[m.to], m.from, m.matchIndex);
    ScanIsGreatest(c.nodes.Keys, m.to, raised, |raised.log|);
  }

  /** A refusal moves the peer's next index back by one, never below 1, and asks again from there. */
  lemma RefusalBacksOff(run: seq<Sim>, m: Message)
    requires IsRun(run) && Enabled(run[|run| - 1], Deliver(m)) && m.AER? && !m.success
    requires var p := run[|run| - 1].nodes[m.to]; p.role == Leader && p.term == m.term
    ensures var c := run[|run| - 1];
            m.from in c.nodes[m.to].nextIndex && c.nodes[m.to].nextIndex[m.from] >= 1 && m.to in After(c, Deliver(m)).nodes
    ensures var c := run[|run| - 1];
            var p := c.nodes[m.to];
            var next := Max(1, p.nextIndex[m.from] - 1);
            After(c, Deliver(m)).nodes[m.to] == p.(nextIndex := p.nextIndex[m.from := next]) &&
            exists again: Message :: again.AE? && again.to == m.from && again.prevIndex == next - 1 && After(c, Deliver(m)).sent == c.sent + {again}
  {
    var c := run[|run| - 1];
    DeliveryFits(run, m);
    BooksAreFull(run, m.to, m.from);
    var p1 := Refused(c.nodes[m.to], m.from);
    var again := SendAppend(p1, m.to, m.from);
    assert After(c, Deliver(m)).sent == c.sent + {again};
  }
}
