/** What a run can still reach: a majority that hears a leader commits all it holds, a majority
    that may vote for a node makes it leader, and a write to such a leader succeeds. */
module EngineProgress {
  import opened RaftTypes
  import opened Engine
  import opened EngineCluster
  import opened EngineSafety
  import opened EngineLoops
  import opened EngineCommits
  import opened EngineElection

  // ---------- Replicating to one follower after the other ----------

  /** What a leader's books say of one peer. */
  function BookOn(s: Server, p: NodeId): Option<nat> {
    if s.leader.Some? && p in s.leader.value.acked then Some(s.leader.value.acked[p]) else None
  }

  predicate StillLeads(s: Server, s': Server) {
    s'.role == Leader && s'.term == s.term && s'.log == s.log && s'.commit >= s.commit
  }

  /** p holds what n holds, n knows it, and p has committed what n had committed at first. */
  predicate Reached(c: Cluster, c': Cluster, n: NodeId, p: NodeId) {
    n in c.servers && n in c'.servers && p in c'.servers &&
    var s, s', f' := c.servers[n], c'.servers[n], c'.servers[p];
    BookOn(s', p) == Some(|s'.log|) && f'.log == s'.log && f'.term <= s'.term && f'.commit >= s.commit
  }

  predicate LeftAlone(c: Cluster, c': Cluster, n: NodeId, q: NodeId) {
    q in c.servers && q in c'.servers && n in c.servers && n in c'.servers &&
    c'.servers[q] == c.servers[q] && BookOn(c'.servers[n], q) == BookOn(c.servers[n], q)
  }

  ghost predicate AllReached(c: Cluster, c': Cluster, n: NodeId, these: set<NodeId>) {
    forall p {:trigger Reached(c, c', n, p)} :: p in these ==> Reached(c, c', n, p)
  }

  ghost predicate OthersAlone(cfg: Config, c: Cluster, c': Cluster, n: NodeId, these: set<NodeId>) {
    forall q {:trigger LeftAlone(c, c', n, q)} :: q in Peers(cfg, n) - these ==> LeftAlone(c, c', n, q)
  }

  predicate FollowsTerm(c: Cluster, n: NodeId, p: NodeId) {
    n in c.servers && p in c.servers && c.servers[p].term <= c.servers[n].term
  }

  ghost predicate AllFollow(c: Cluster, n: NodeId, these: set<NodeId>) {
    forall p {:trigger FollowsTerm(c, n, p)} :: p in these ==> FollowsTerm(c, n, p)
  }

  /** n leads, and its newest entry is of its own term. */
  predicate LeadsFully(c: Cluster, n: NodeId) {
    n in c.servers && c.servers[n].role == Leader && c.servers[n].log != [] && LastTerm(c.servers[n].log) == c.servers[n].term
  }

  function LastOf(run: seq<Cluster>): Cluster
    requires run != []
  {
    run[|run| - 1]
  }

  lemma NodesStay(cfg: Config, run: seq<Cluster>, n: NodeId)
    requires IsRun(cfg, run) && n in cfg.ids
    ensures n in LastOf(run).servers
  {
    TableIsFold(cfg, run, |run| - 1, n);
  }

  lemma OneReached(cfg: Config, run: seq<Cluster>, n: NodeId, p: NodeId) returns (more: seq<Cluster>)
    requires IsRun(cfg, run) && n in cfg.ids && p in Peers(cfg, n)
    requires LeadsFully(LastOf(run), n) && FollowsTerm(LastOf(run), n, p)
    ensures IsRun(cfg, run + more) && Calm(cfg, run + more, |run| - 1)
    ensures var c, c' := LastOf(run), LastOf(run + more);
            LeadsFully(c', n) && StillLeads(c.servers[n], c'.servers[n]) && Reached(c, c', n, p) && OthersAlone(cfg, c, c', n, {p})
  {
    var k;
    k, more := FollowerCatchesUp(cfg, run, n, p);
    RoundsAreCalm(cfg, run, more, n, p);
    var c, c' := LastOf(run), LastOf(run + more);
    forall q | q in Peers(cfg, n) - {p} ensures LeftAlone(c, c', n, q) {
      NodesStay(cfg, run, q);
      SameBookOn(c.servers[n], c'.servers[n], p, q);
    }
  }

  lemma SameBookOn(s: Server, s': Server, p: NodeId, q: NodeId)
    requires s.leader.Some? && s'.leader.Some? && AckedElsewhere(s, p) == AckedElsewhere(s', p) && q != p
    ensures BookOn(s, q) == BookOn(s', q)
  {
    assert q in s.leader.value.acked <==> q in AckedElsewhere(s, p);
    assert q in s'.leader.value.acked <==> q in AckedElsewhere(s', p);
  }

  /** Reached first, then left alone while the others are reached. */
  lemma ReachedStays(c: Cluster, c1: Cluster, c2: Cluster, n: NodeId, p: NodeId)
    requires Reached(c, c1, n, p) && LeftAlone(c1, c2, n, p) && StillLeads(c1.servers[n], c2.servers[n])
    ensures Reached(c, c2, n, p)
  {
  }

  lemma AllReachedOnce(cfg: Config, c: Cluster, c1: Cluster, c2: Cluster, n: NodeId, p: NodeId, rest: set<NodeId>)
    requires n in c.servers && n in c1.servers && n in c2.servers && p in Peers(cfg, n) && p !in rest
    requires StillLeads(c.servers[n], c1.servers[n]) && StillLeads(c1.servers[n], c2.servers[n])
    requires Reached(c, c1, n, p) && OthersAlone(cfg, c, c1, n, {p}) && AllReached(c1, c2, n, rest) && OthersAlone(cfg, c1, c2, n, rest)
    ensures AllReached(c, c2, n, rest + {p}) && OthersAlone(cfg, c, c2, n, rest + {p})
  {
    forall q | q in rest + {p} ensures Reached(c, c2, n, q) {
      if q == p {
        assert LeftAlone(c1, c2, n, p);
        ReachedStays(c, c1, c2, n, p);
      } else {
        assert Reached(c1, c2, n, q);
      }
    }
    forall q | q in Peers(cfg, n) - (rest + {p}) ensures LeftAlone(c, c2, n, q) {
      assert LeftAlone(c, c1, n, q) && LeftAlone(c1, c2, n, q);
    }
  }

  lemma FollowOn(cfg: Config, c: Cluster, c1: Cluster, n: NodeId, p: NodeId, rest: set<NodeId>)
    requires n in c.servers && n in c1.servers && StillLeads(c.servers[n], c1.servers[n])
    requires AllFollow(c, n, rest) && rest <= Peers(cfg, n) - {p} && OthersAlone(cfg, c, c1, n, {p})
    ensures AllFollow(c1, n, rest)
  {
    forall q | q in rest ensures FollowsTerm(c1, n, q) { assert FollowsTerm(c, n, q) && LeftAlone(c, c1, n, q); }
  }

  /** One follower at a time, all of them. */
  lemma {:induction false} ReplicateToAll(cfg: Config, run: seq<Cluster>, n: NodeId, these: set<NodeId>) returns (more: seq<Cluster>)
    requires IsRun(cfg, run) && n in cfg.ids && these <= Peers(cfg, n)
    requires LeadsFully(LastOf(run), n) && AllFollow(LastOf(run), n, these)
    ensures IsRun(cfg, run + more) && Calm(cfg, run + more, |run| - 1)
    ensures var c, c' := LastOf(run), LastOf(run + more);
            LeadsFully(c', n) && StillLeads(c.servers[n], c'.servers[n]) &&
            AllReached(c, c', n, these) && OthersAlone(cfg, c, c', n, these)
    decreases these
  {
    if these == {} {
      more := [];
      assert run + more == run;
      forall q | q in Peers(cfg, n) ensures LeftAlone(LastOf(run), LastOf(run), n, q) { NodesStay(cfg, run, q); }
    } else {
      var p :| p in these;
      var rest := these - {p};
      assert FollowsTerm(LastOf(run), n, p);
      var first := OneReached(cfg, run, n, p);
      FollowOn(cfg, LastOf(run), LastOf(run + first), n, p, rest);
      var later := ReplicateToAll(cfg, run + first, n, rest);
      CalmJoin(cfg, run, first, later);
      more := first + later;
      assert these == rest + {p};
      AllReachedOnce(cfg, LastOf(run), LastOf(run + first), LastOf(run + more), n, p, rest);
    }
  }

  // ---------- A majority commits ----------

  /** p has the same log as n, all of it committed and applied, and so the same table. */
  predicate InStep(c: Cluster, n: NodeId, p: NodeId) {
    n in c.servers && p in c.servers &&
    var s, f := c.servers[n], c.servers[p];
    f.log == s.log && f.commit == f.applied == |s.log| && f.table == s.table && f.term <= s.term
  }

  ghost predicate AllInStep(c: Cluster, n: NodeId, these: set<NodeId>) {
    forall p {:trigger InStep(c, n, p)} :: p in these ==> InStep(c, n, p)
  }

  /** Once a majority holds the leader's newest entry, the leader has committed it. */
  lemma HeldIsCommitted(cfg: Config, run: seq<Cluster>, c: Cluster, n: NodeId, these: set<NodeId>)
    requires IsRun(cfg, run) && n in cfg.ids && these <= Peers(cfg, n) && 2 * (1 + |these|) > |cfg.ids|
    requires LeadsFully(LastOf(run), n) && AllReached(c, LastOf(run), n, these)
    ensures var s := LastOf(run).servers[n]; s.commit == s.applied == |s.log| && s.table == Fold(cfg.decode, s.log)
  {
    var i, s := |run| - 1, run[|run| - 1].servers[n];
    NothingLeftToCommit(cfg, run, i, n, |s.log|);
    CommittedIsApplied(cfg, run, i, n);
    var holders := KnownToHold(Peers(cfg, n), s, |s.log|);
    forall p | p in these ensures p in holders { assert Reached(c, LastOf(run), n, p); }
    SubsetSize(these, holders);
    assert s.log[..|s.log|] == s.log;
  }

  lemma ReachedInStep(cfg: Config, run: seq<Cluster>, c: Cluster, n: NodeId, p: NodeId)
    requires IsRun(cfg, run) && n in cfg.ids && p in cfg.ids && n in LastOf(run).servers && Reached(c, LastOf(run), n, p)
    requires var s := LastOf(run).servers[n]; s.table == Fold(cfg.decode, s.log) && c.servers[n].commit == |s.log|
    ensures InStep(LastOf(run), n, p)
  {
    CommittedIsApplied(cfg, run, |run| - 1, p);
    var f := LastOf(run).servers[p];
    assert f.log[..|f.log|] == f.log;
  }

  /** From any state of any run: a leader whose newest entry is of its own term can, with any
      majority that knows no later term, calmly go on to where all of its log is committed and applied
      on it and on each of them, and their tables are equal. */
  lemma MajorityCommits(cfg: Config, run: seq<Cluster>, n: NodeId, these: set<NodeId>) returns (more: seq<Cluster>)
    requires IsRun(cfg, run) && n in cfg.ids && these <= Peers(cfg, n) && 2 * (1 + |these|) > |cfg.ids|
    requires LeadsFully(LastOf(run), n) && AllFollow(LastOf(run), n, these)
    ensures IsRun(cfg, run + more) && Calm(cfg, run + more, |run| - 1)
    ensures var c, c' := LastOf(run), LastOf(run + more);
            LeadsFully(c', n) && StillLeads(c.servers[n], c'.servers[n]) &&
            c'.servers[n].commit == c'.servers[n].applied == |c.servers[n].log| &&
            AllInStep(c', n, these)
  {
    var first := ReplicateToAll(cfg, run, n, these);
    var c1 := LastOf(run + first);
    HeldIsCommitted(cfg, run + first, LastOf(run), n, these);
    forall p | p in these ensures FollowsTerm(c1, n, p) { assert Reached(LastOf(run), c1, n, p); }
    var later := ReplicateToAll(cfg, run + first, n, these);
    CalmJoin(cfg, run, first, later);
    more := first + later;
    HeldIsCommitted(cfg, run + more, c1, n, these);
    forall p | p in these ensures InStep(LastOf(run + more), n, p) {
      assert Reached(c1, LastOf(run + more), n, p);
      ReachedInStep(cfg, run + more, c1, n, p);
    }
  }

  // ---------- Recovery ----------

  /** From any state of any run: a node that may be elected by a majority can calmly go on to
      lead the next term, and then all of its log, whoever wrote it, is committed and applied on
      it and on all of them, with equal tables. */
  lemma ClusterRecovers(cfg: Config, run: seq<Cluster>, n: NodeId, these: set<NodeId>) returns (more: seq<Cluster>)
    requires IsRun(cfg, run) && n in cfg.ids && these <= Peers(cfg, n) && 2 * (1 + |these|) > |cfg.ids|
    requires n in LastOf(run).servers && LastOf(run).servers[n].role != Leader && AllMayVote(LastOf(run), n, these)
    ensures IsRun(cfg, run + more) && Calm(cfg, run + more, |run| - 1)
    ensures n in LastOf(run + more).servers
    ensures var s, s' := LastOf(run).servers[n], LastOf(run + more).servers[n];
            s'.role == Leader && s'.term == s.term + 1 && s'.log == s.log + [Entry(s.term + 1, Record(|s.log| + 1, []))] &&
            s'.commit == s'.applied == |s.log| + 1 && AllInStep(LastOf(run + more), n, these)
  {
    var first := UpToDateNodeWins(cfg, run, n, these);
    var c, c1 := LastOf(run), LastOf(run + first);
    forall p | p in these ensures FollowsTerm(c1, n, p) {
      assert MayVote(c, n, p);
      assert VotedOrNot(c, c1, c.servers[n].term + 1, n, these, p);
    }
    var later := MajorityCommits(cfg, run + first, n, these);
    CalmJoin(cfg, run, first, later);
    more := first + later;
  }
}
