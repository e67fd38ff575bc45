/** What holds in every run of the browser simulator, for any latencies, node toggles,
    partitions and client writes. */
module SimSafety {
  import opened RaftTypes
  import opened SimProtocol
  import opened SimRefinement
  import A = AbstractRaft
  import E = Engine
  import ES = EngineSteps
  import G = EngineSafety
  import opened AbstractInvariants
  import opened AbstractPreservation
  import opened AbstractRuns
  import opened AbstractSafety

  function Start(c: Sim): A.State {
    A.State(c.nodes.Keys, map n | n in c.nodes :: A.Node(0, None, [], Follower, 0), A.History(map[], map[], map[], map[]))
  }

  lemma InitRelated(c: Sim)
    requires IsInit(c)
    ensures A.IsInit(Start(c)) && Related(c, Start(c))
  {
    var s := Start(c);
    InitOk(s);
    forall n | n in s.ids ensures View(c.nodes[n]) == s.nodes[n] && PeerOk(s.ids, s.h, n, c.nodes[n]) {}
    forall n ensures Recorded(c, n) {}
  }

  lemma StepOk(run: seq<Sim>, k: nat, s: A.State) returns (s': A.State)
    requires IsRun(run) && k + 1 < |run| && Related(run[k], s)
    ensures A.Leads(s, s') && Grows(s.h, s'.h) && s'.ids == s.ids && Related(run[k + 1], s')
  {
    assert StepAt(run, k);
    var e :| Enabled(run[k], e) && run[k + 1] == After(run[k], e);
    s' := EventOk(run[k], s, e);
  }

  /** The simulator refines abstract Raft: the last state of every run mirrors a state
      that abstract Raft reaches from the start. */
  lemma {:induction false} SimulatorRefinesRaft(run: seq<Sim>) returns (s: A.State)
    requires IsRun(run)
    ensures Related(run[|run| - 1], s) && A.IsInit(Start(run[0])) && A.Leads(Start(run[0]), s)
    decreases |run|
  {
    InitRelated(run[0]);
    if |run| == 1 {
      s := Start(run[0]);
      assert A.Steps(s, [], s);
    } else {
      var k := |run| - 2;
      var before := run[..k + 1];
      RunPrefix(run, k + 1);
      var s1 := SimulatorRefinesRaft(before);
      s := StepOk(run, k, s1);
      var acts :| A.Steps(Start(run[0]), acts, s1);
      var more :| A.Steps(s1, more, s);
      StepsJoin(Start(run[0]), acts, s1, more, s);
    }
  }

  /** Two moments of a run, with the history growing from one to the other. */
  lemma {:induction false} Moments(run: seq<Sim>, i: nat, j: nat) returns (s: A.State, s': A.State)
    requires IsRun(run) && i <= j < |run|
    ensures Related(run[i], s) && Related(run[j], s') && Grows(s.h, s'.h) && s.ids == s'.ids == run[0].nodes.Keys
    decreases j
  {
    if i == j {
      RunPrefix(run, i + 1);
      s := SimulatorRefinesRaft(run[..i + 1]);
      SameNodes(run, i);
      G.GrowsSelf(s.h);
      s' := s;
    } else {
      var s1;
      s, s1 := Moments(run, i, j - 1);
      s' := StepOk(run, j - 1, s1);
      GrowsTransitive(s.h, s1.h, s'.h);
    }
  }

  lemma {:induction false} SameNodes(run: seq<Sim>, i: nat)
    requires IsRun(run) && i < |run|
    ensures run[i].nodes.Keys == run[0].nodes.Keys
    decreases i
  {
    if i > 0 {
      SameNodes(run, i - 1);
      assert StepAt(run, i - 1);
    }
  }

  // ---------- Leaders ----------

  lemma {:induction false} HistoryGrows(run: seq<Sim>, i: nat, j: nat)
    requires IsRun(run) && i <= j < |run|
    ensures run[i].leaderHistory <= run[j].leaderHistory
    decreases j
  {
    if i < j {
      HistoryGrows(run, i, j - 1);
      assert StepAt(run, j - 1);
    }
  }

  /** Raft section 5.2: whatever happens, one term never has two winners. */
  lemma OneLeaderIdPerTerm(run: seq<Sim>, i: nat, j: nat)
    requires IsRun(run)
    requires var history := run[|run| - 1].leaderHistory;
             i < |history| && j < |history| && history[i].term == history[j].term
    ensures var history := run[|run| - 1].leaderHistory; history[i].id == history[j].id
  {
    var s := SimulatorRefinesRaft(run);
    var history := run[|run| - 1].leaderHistory;
    assert WinOk(s.h, history[i]) && WinOk(s.h, history[j]);
  }

  /** The history of leaders is complete: whoever leads at any moment stays in it. */
  lemma EveryLeaderIsRecorded(run: seq<Sim>, i: nat, j: nat, n: NodeId)
    requires IsRun(run) && i <= j < |run| && n in run[i].nodes && run[i].nodes[n].role == Leader
    ensures Won(run[i].nodes[n].term, n) in run[j].leaderHistory
  {
    var s, s' := Moments(run, i, i);
    assert Recorded(run[i], n);
    HistoryGrows(run, i, j);
    var k :| 0 <= k < |run[i].leaderHistory| && run[i].leaderHistory[k] == Won(run[i].nodes[n].term, n);
    assert run[j].leaderHistory[k] == run[i].leaderHistory[k];
  }

  // ---------- Commitment ----------

  lemma CommitFact(c: Sim, s: A.State, n: NodeId)
    requires Related(c, s) && n in c.nodes
    ensures var p := c.nodes[n]; ES.CommitKnownIn(s, p.log, p.term, p.commitIndex)
  {
    MirrorsNode(c, s, n);
    assert NodeOk(s.ids, s.h, n, s.nodes[n]);
  }

  lemma CommitFactLater(c: Sim, s: A.State, s': A.State, n: NodeId)
    requires Related(c, s) && n in c.nodes && Grows(s.h, s'.h) && s.ids == s'.ids
    ensures var p := c.nodes[n]; ES.CommitKnownIn(s', p.log, p.term, p.commitIndex)
  {
    CommitFact(c, s, n);
    var p := c.nodes[n];
    CommitKnownGrows(s.ids, s.h, s'.h, p.log, p.term, p.term, p.commitIndex);
  }

  /** Committed prefixes are equal, for any two nodes at any two moments, dead ones included. */
  lemma CommittedPrefixesEqual(run: seq<Sim>, i: nat, j: nat, m: NodeId, n: NodeId, k: nat)
    requires IsRun(run) && i <= j < |run| && m in run[i].nodes && n in run[j].nodes
    requires k <= run[i].nodes[m].commitIndex && k <= run[j].nodes[n].commitIndex
    ensures Agree(run[i].nodes[m].log, run[j].nodes[n].log, k)
  {
    var s, s' := Moments(run, i, j);
    CommitFactLater(run[i], s, s', m);
    CommitFact(run[j], s', n);
    var a, b := run[i].nodes[m], run[j].nodes[n];
    G.CommitsAgree(s', a.log, a.term, a.commitIndex, b.log, b.term, b.commitIndex, k);
  }

  /** Raft section 5.4: what a node has committed is in the log of every later leader
      of the same or a later term. */
  lemma LeadersKeepCommitted(run: seq<Sim>, i: nat, j: nat, m: NodeId, n: NodeId)
    requires IsRun(run) && i <= j < |run| && m in run[i].nodes && n in run[j].nodes
    requires run[j].nodes[n].role == Leader && run[j].nodes[n].term >= run[i].nodes[m].term
    ensures Agree(run[j].nodes[n].log, run[i].nodes[m].log, run[i].nodes[m].commitIndex)
  {
    var s, s' := Moments(run, i, j);
    CommitFactLater(run[i], s, s', m);
    MirrorsNode(run[j], s', n);
    LeaderFact(s', n);
    G.GrowsSelf(s'.h);
    var p := run[i].nodes[m];
    G.KnownInLeader(s', p.log, p.term, p.commitIndex, s'.h, run[j].nodes[n].term);
  }

  /** Commit indices survive crashes: they never fall. */
  lemma {:induction false} CommitNeverFalls(run: seq<Sim>, i: nat, j: nat, n: NodeId)
    requires IsRun(run) && i <= j < |run| && n in run[i].nodes
    ensures n in run[j].nodes && run[i].nodes[n].commitIndex <= run[j].nodes[n].commitIndex
    decreases j
  {
    if i < j {
      CommitNeverFalls(run, i, j - 1, n);
      StepKeepsCommit(run, j - 1, n);
    }
  }

  lemma StepKeepsCommit(run: seq<Sim>, k: nat, n: NodeId)
    requires IsRun(run) && k + 1 < |run| && n in run[k].nodes
    ensures n in run[k + 1].nodes && run[k + 1].nodes[n].commitIndex >= run[k].nodes[n].commitIndex
  {
    assert StepAt(run, k);
    var c, c' := run[k], run[k + 1];
    var e :| Enabled(c, e) && c' == After(c, e);
    ActorKeepsCommit(c, e);
  }

  lemma ActorKeepsCommit(c: Sim, e: Event)
    requires Enabled(c, e)
    ensures Acts(c, e).peer.commitIndex >= c.nodes[Actor(e)].commitIndex
  {
    if e.Deliver? && e.m.AER? {
      var p, m := c.nodes[Actor(e)], e.m;
      var p1 := if m.term > p.term then BecomeFollower(p, m.term) else p;
      var p2 := Confirmed(p1, m.from, m.matchIndex);
      ScanPicks(c.nodes.Keys, m.to, p2, |p2.log|);
    }
  }

  /** An AppendEntries message of a leader's own term never reaches it, so nothing ever
      demotes a live leader within its term. */
  lemma LeaderNeverHearsItsTerm(run: seq<Sim>, i: nat, m: Message)
    requires IsRun(run) && i < |run| && m in run[i].sent && m.AE? && m.to in run[i].nodes
    requires run[i].nodes[m.to].role == Leader
    ensures m.term != run[i].nodes[m.to].term
  {
    var s, s' := Moments(run, i, i);
    assert MessageOk(s.ids, s.h, m);
    MirrorsNode(run[i], s, m.to);
    LeaderFact(s, m.to);
  }

  /** The leader's books hold one nextIndex of at least 1 and one matchIndex per node, and
      no node's books mention anyone else. */
  lemma BooksAreFull(run: seq<Sim>, n: NodeId, q: NodeId)
    requires IsRun(run) && n in run[|run| - 1].nodes && q in run[|run| - 1].nodes
    ensures var p, ids := run[|run| - 1].nodes[n], run[|run| - 1].nodes.Keys;
            p.nextIndex.Keys <= ids && p.matchIndex.Keys <= ids &&
            (p.role == Leader ==>
               q in p.nextIndex && q in p.matchIndex && 1 <= p.nextIndex[q] <= |p.log| + 1 &&
               (q != n ==> p.matchIndex[q] <= |p.log|))
  {
    var s := SimulatorRefinesRaft(run);
    MirrorsNode(run[|run| - 1], s, n);
    var p := run[|run| - 1].nodes[n];
    if p.role == Leader { assert BookOk(s.h, n, p.term, |p.log|, p.nextIndex, p.matchIndex, q); }
  }

  /** Terms never fall along any node's log, and none is above the node's own. */
  lemma LogsRise(run: seq<Sim>, n: NodeId)
    requires IsRun(run) && n in run[|run| - 1].nodes
    ensures var p := run[|run| - 1].nodes[n]; Rising(p.log) && LastTerm(p.log) <= p.term
  {
    var s := SimulatorRefinesRaft(run);
    MirrorsNode(run[|run| - 1], s, n);
    var p := run[|run| - 1].nodes[n];
    assert NodeOk(s.ids, s.h, n, s.nodes[n]);
    forall i: nat ensures RisesAt(p.log, i) {
      if 0 < i < |p.log| { TermsSorted(s.ids, s.h, p.log, i - 1, i); }
    }
  }

  /** In every run the simulator's commit scan, which stops at the first older term, picks
      what the engine's scan of every index would pick from the same log and books. */
  lemma ScansAgree(run: seq<Sim>, n: NodeId, s: E.Server)
    requires IsRun(run) && n in run[|run| - 1].nodes
    requires SameLeader(run[|run| - 1].nodes.Keys, n, run[|run| - 1].nodes[n], s)
    ensures var p, ids := run[|run| - 1].nodes[n], run[|run| - 1].nodes.Keys;
            ScanDown(ids, n, p, |p.log|) == E.ScanCommit(s, ids - {n}, |s.log|)
  {
    LogsRise(run, n);
    var p := run[|run| - 1].nodes[n];
    SameScan(run[|run| - 1].nodes.Keys, n, p, s, |p.log|);
  }

  /** Every message is between two nodes of the simulation. */
  lemma DeliveryFits(run: seq<Sim>, m: Message)
    requires IsRun(run) && m in run[|run| - 1].sent
    ensures m.from in run[|run| - 1].nodes && m.to in run[|run| - 1].nodes && m.from != m.to
  {
    var s := SimulatorRefinesRaft(run);
    assert MessageOk(s.ids, s.h, m);
  }
}
