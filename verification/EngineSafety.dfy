/** What holds in every run of an engine cluster, whatever is lost, delayed,
    reordered or crashed. */
module EngineSafety {
  import opened RaftTypes
  import opened Engine
  import opened EngineCluster
  import opened EngineRelation
  import opened EngineSteps
  import opened EngineRefinement
  import opened EngineCrash
  import A = AbstractRaft
  import opened AbstractInvariants
  import opened AbstractPreservation
  import opened AbstractSafety

  ghost predicate RelatedAt(cfg: Config, run: seq<Cluster>, abs: seq<A.State>, i: nat) {
    i < |run| && i < |abs| ==> Related(cfg, run[i], abs[i])
  }

  ghost predicate GrowsFrom(abs: seq<A.State>, i: nat, j: nat) {
    i <= j < |abs| ==> Grows(abs[i].h, abs[j].h)
  }

  ghost predicate LeadsAt(abs: seq<A.State>, i: nat) {
    i + 1 < |abs| ==> A.Leads(abs[i], abs[i + 1])
  }

  /** A run of abstract Raft that the cluster's run follows state by state. */
  ghost predicate Follows(cfg: Config, run: seq<Cluster>, abs: seq<A.State>) {
    && |abs| == |run|
    && (forall i {:trigger RelatedAt(cfg, run, abs, i)} :: RelatedAt(cfg, run, abs, i))
    && (forall i, j {:trigger GrowsFrom(abs, i, j)} :: GrowsFrom(abs, i, j))
    && (forall i {:trigger LeadsAt(abs, i)} :: LeadsAt(abs, i))
  }

  function Start(cfg: Config): A.State {
    A.State(cfg.ids, map n | n in cfg.ids :: A.Node(0, None, [], Follower, 0), A.History(map[], map[], map[], map[]))
  }

  lemma InitRelated(cfg: Config, c: Cluster)
    requires IsInit(cfg, c)
    ensures A.IsInit(Start(cfg)) && Related(cfg, c, Start(cfg))
  {
    var s := Start(cfg);
    InitOk(s);
    forall n | n in cfg.ids
      ensures View(c.servers[n]) == s.nodes[n] && ServerOk(cfg, s.h, n, c.servers[n]) && CandidateOk(cfg, s.h, c.calls, n, c.servers[n])
    {
      var sv := c.servers[n];
      forall k ensures Told(cfg.ids, s.h, sv.log, sv.applied, sv.epoch, sv.proposals, k) && Issued(sv.proposals, sv.tickets, sv.epoch, k) {}
      forall k ensures Waits(sv.role, sv.term, sv.log, sv.epoch, sv.pending, sv.proposals, k) {}
    }
  }

  lemma GrowsSelf(h: A.History)
    ensures Grows(h, h)
  {
    forall t | t in h.reigns ensures ReignGrows(h.reigns[t], h.reigns[t]) {}
  }

  lemma FollowsFurther(cfg: Config, run: seq<Cluster>, before: seq<A.State>, s: A.State)
    requires |run| >= 2 && Follows(cfg, run[..|run| - 1], before)
    requires var k := |run| - 2; A.Leads(before[k], s) && Grows(before[k].h, s.h) && Related(cfg, run[k + 1], s)
    ensures Follows(cfg, run, before + [s])
  {
    var abs := before + [s];
    GrowsFurther(before, s);
    forall i: nat ensures LeadsAt(abs, i) { assert LeadsAt(before, i); }
    forall i: nat ensures RelatedAt(cfg, run, abs, i) { assert RelatedAt(cfg, run[..|run| - 1], before, i); }
  }

  lemma GrowsFurther(before: seq<A.State>, s: A.State)
    requires before != [] && Grows(before[|before| - 1].h, s.h)
    requires forall i, j {:trigger GrowsFrom(before, i, j)} :: GrowsFrom(before, i, j)
    ensures forall i, j {:trigger GrowsFrom(before + [s], i, j)} :: GrowsFrom(before + [s], i, j)
  {
    var k := |before| - 1;
    GrowsSelf(s.h);
    forall i: nat, j: nat ensures GrowsFrom(before + [s], i, j) {
      assert GrowsFrom(before, i, j) && GrowsFrom(before, i, k);
      if i < j == k + 1 { GrowsTransitive(before[i].h, before[k].h, s.h); }
    }
  }

  /** The engine refines abstract Raft: every run of a cluster follows a run of it. */
  lemma {:induction false} EngineRefinesRaft(cfg: Config, run: seq<Cluster>) returns (abs: seq<A.State>)
    requires IsRun(cfg, run)
    ensures Follows(cfg, run, abs) && A.IsInit(abs[0])
    decreases |run|
  {
    if |run| == 1 {
      InitRelated(cfg, run[0]);
      abs := [Start(cfg)];
      GrowsSelf(abs[0].h);
    } else {
      var k := |run| - 2;
      RunPrefix(cfg, run, k + 1);
      var before := EngineRefinesRaft(cfg, run[..k + 1]);
      assert RelatedAt(cfg, run[..k + 1], before, k);
      var e := EventAt(cfg, run, k);
      var s := EventOk(cfg, run[k], before[k], e);
      FollowsFurther(cfg, run, before, s);
      abs := before + [s];
    }
  }

  lemma MirrorsAt(cfg: Config, run: seq<Cluster>, abs: seq<A.State>, i: nat, n: NodeId)
    requires Follows(cfg, run, abs) && i < |run| && n in cfg.ids
    ensures Related(cfg, run[i], abs[i]) && Mirrors(cfg, abs[i], n, run[i].servers[n])
  {
    assert RelatedAt(cfg, run, abs, i);
    MirrorsNode(cfg, run[i], abs[i], n);
  }

  // ---------- Elections ----------

  /** The history knows n as the leader of term t, with this log. */
  predicate LedBy(h: A.History, t: nat, n: NodeId, log: Log) {
    t in h.reigns && h.reigns[t].leader == n && A.LogOf(h, t) == log
  }

  lemma LeaderAt(cfg: Config, run: seq<Cluster>, abs: seq<A.State>, i: nat, n: NodeId)
    requires Follows(cfg, run, abs) && i < |run| && n in cfg.ids
    requires n in run[i].servers && run[i].servers[n].role == Leader
    ensures LedBy(abs[i].h, run[i].servers[n].term, n, run[i].servers[n].log)
  {
    MirrorsAt(cfg, run, abs, i, n);
    LeaderFact(abs[i], n);
  }

  lemma GrowsBetween(cfg: Config, run: seq<Cluster>, abs: seq<A.State>, i: nat, j: nat)
    requires Follows(cfg, run, abs) && i <= j < |run|
    ensures Grows(abs[i].h, abs[j].h)
  {
    assert GrowsFrom(abs, i, j);
  }

  /** A term keeps its leader, whose log only grows at the end. */
  lemma LedOn(h: A.History, h': A.History, t: nat, m: NodeId, a: Log, n: NodeId, b: Log)
    requires Grows(h, h') && LedBy(h, t, m, a) && LedBy(h', t, n, b)
    ensures m == n && Agree(a, b, |a|)
  {
  }

  /** Raft section 5.2: over the whole run, restarts included, a term has one leader. */
  lemma ElectionSafety(cfg: Config, run: seq<Cluster>, i: nat, j: nat, m: NodeId, n: NodeId)
    requires IsRun(cfg, run) && i < |run| && j < |run| && m in cfg.ids && n in cfg.ids
    requires m in run[i].servers && run[i].servers[m].role == Leader
    requires n in run[j].servers && run[j].servers[n].role == Leader
    requires run[i].servers[m].term == run[j].servers[n].term
    ensures m == n
  {
    var abs := EngineRefinesRaft(cfg, run);
    var a, b := run[i].servers[m], run[j].servers[n];
    LeaderAt(cfg, run, abs, i, m);
    LeaderAt(cfg, run, abs, j, n);
    if i <= j {
      GrowsBetween(cfg, run, abs, i, j);
      LedOn(abs[i].h, abs[j].h, a.term, m, a.log, n, b.log);
    } else {
      GrowsBetween(cfg, run, abs, j, i);
      LedOn(abs[j].h, abs[i].h, a.term, n, b.log, m, a.log);
    }
  }

  // ---------- Logs ----------

  /** The two states' logs, both rooted in the later history. */
  lemma BothRooted(cfg: Config, run: seq<Cluster>, i: nat, j: nat, m: NodeId, n: NodeId) returns (s: A.State)
    requires IsRun(cfg, run) && i < |run| && j < |run| && m in cfg.ids && n in cfg.ids
    ensures m in run[i].servers && n in run[j].servers
    ensures Inv(s) && s.ids == cfg.ids && AllIndexed(s.h)
    ensures Rooted(s.h, run[i].servers[m].log) && Rooted(s.h, run[j].servers[n].log)
    ensures var a := run[i].servers[m]; CommitKnownIn(s, a.log, a.term, a.commit)
    ensures var b := run[j].servers[n]; CommitKnownIn(s, b.log, b.term, b.commit)
  {
    var abs := EngineRefinesRaft(cfg, run);
    MirrorsAt(cfg, run, abs, i, m);
    MirrorsAt(cfg, run, abs, j, n);
    s := abs[if i <= j then j else i];
    var a, b := run[i].servers[m], run[j].servers[n];
    assert NodeOk(cfg.ids, abs[i].h, m, abs[i].nodes[m]) && NodeOk(cfg.ids, abs[j].h, n, abs[j].nodes[n]);
    GrowsSelf(s.h);
    assert GrowsFrom(abs, i, j) && GrowsFrom(abs, j, i);
    RootedGrows(abs[i].h, s.h, a.log);
    RootedGrows(abs[j].h, s.h, b.log);
    CommitKnownGrows(cfg.ids, abs[i].h, s.h, a.log, a.term, a.term, a.commit);
    CommitKnownGrows(cfg.ids, abs[j].h, s.h, b.log, b.term, b.term, b.commit);
  }

  /** Raft section 5.3: an index and a term name one prefix, for any two nodes at any two times. */
  lemma LogMatchingOverRun(cfg: Config, run: seq<Cluster>, i: nat, j: nat, m: NodeId, n: NodeId, k: nat)
    requires IsRun(cfg, run) && i < |run| && j < |run| && m in cfg.ids && n in cfg.ids
    requires m in run[i].servers && k < |run[i].servers[m].log|
    requires n in run[j].servers && k < |run[j].servers[n].log|
    requires run[i].servers[m].log[k].term == run[j].servers[n].log[k].term
    ensures Agree(run[i].servers[m].log, run[j].servers[n].log, k + 1)
  {
    var s := BothRooted(cfg, run, i, j, m, n);
    LogMatching(s.h, run[i].servers[m].log, run[j].servers[n].log, k);
  }

  /** Terms never fall along a log, none is above the node's term, and entry k has index k + 1. */
  lemma LogsWellFormed(cfg: Config, run: seq<Cluster>, i: nat, n: NodeId, a: nat, b: nat)
    requires IsRun(cfg, run) && i < |run| && n in cfg.ids
    requires n in run[i].servers && a <= b < |run[i].servers[n].log|
    ensures var sv := run[i].servers[n];
            sv.log[a].term <= sv.log[b].term <= sv.term && sv.log[b].data.Record? && sv.log[b].data.index == b + 1
  {
    var abs := EngineRefinesRaft(cfg, run);
    MirrorsAt(cfg, run, abs, i, n);
    assert NodeOk(cfg.ids, abs[i].h, n, abs[i].nodes[n]);
    RootedIndexed(abs[i].h, run[i].servers[n].log);
    TermsSorted(cfg.ids, abs[i].h, run[i].servers[n].log, a, b);
  }

  /** Leaders are append-only: within a term a leader's log only grows at the end. */
  lemma LeaderAppendOnly(cfg: Config, run: seq<Cluster>, i: nat, j: nat, n: NodeId)
    requires IsRun(cfg, run) && i <= j < |run| && n in cfg.ids
    requires n in run[i].servers && run[i].servers[n].role == Leader
    requires n in run[j].servers && run[j].servers[n].role == Leader
    requires run[i].servers[n].term == run[j].servers[n].term
    ensures Agree(run[i].servers[n].log, run[j].servers[n].log, |run[i].servers[n].log|)
  {
    var abs := EngineRefinesRaft(cfg, run);
    LeaderAt(cfg, run, abs, i, n);
    LeaderAt(cfg, run, abs, j, n);
    GrowsBetween(cfg, run, abs, i, j);
    LedOn(abs[i].h, abs[j].h, run[i].servers[n].term, n, run[i].servers[n].log, n, run[j].servers[n].log);
  }

  // ---------- Commitment ----------

  /** Two commit indices never disagree about the entries below both. */
  lemma CommitsAgree(s: A.State, a: Log, ta: nat, ca: nat, b: Log, tb: nat, cb: nat, k: nat)
    requires Inv(s) && CommitKnownIn(s, a, ta, ca) && CommitKnownIn(s, b, tb, cb) && k <= ca && k <= cb
    ensures Agree(a, b, k)
  {
    if k != 0 {
      var t: nat, i: nat :| A.Chosen(s.ids, s.h, t, i) && t <= ta && ca <= i && Agree(a, A.LogOf(s.h, t), ca);
      var u: nat, j: nat :| A.Chosen(s.ids, s.h, u, j) && u <= tb && cb <= j && Agree(b, A.LogOf(s.h, u), cb);
      AgreeShorter(a, A.LogOf(s.h, t), ca, k);
      AgreeShorter(b, A.LogOf(s.h, u), cb, k);
      if t <= u {
        SettledInLater(s.ids, s.h, t, i, u);
        AgreeShorter(A.LogOf(s.h, u), A.LogOf(s.h, t), i, k);
      } else {
        SettledInLater(s.ids, s.h, u, j, t);
        AgreeShorter(A.LogOf(s.h, t), A.LogOf(s.h, u), j, k);
      }
    }
  }

  /** Raft section 5.4.3: what any node has committed at any time, every node that
      commits that far at any time has committed too. */
  lemma StateMachineSafety(cfg: Config, run: seq<Cluster>, i: nat, j: nat, m: NodeId, n: NodeId, k: nat)
    requires IsRun(cfg, run) && i < |run| && j < |run| && m in cfg.ids && n in cfg.ids
    requires m in run[i].servers && k <= run[i].servers[m].commit
    requires n in run[j].servers && k <= run[j].servers[n].commit
    ensures Agree(run[i].servers[m].log, run[j].servers[n].log, k)
  {
    var s := BothRooted(cfg, run, i, j, m, n);
    var a, b := run[i].servers[m], run[j].servers[n];
    CommitsAgree(s, a.log, a.term, a.commit, b.log, b.term, b.commit, k);
  }

  /** The table is the fold of the applied entries, and indices stay in order. */
  lemma TableIsFold(cfg: Config, run: seq<Cluster>, i: nat, n: NodeId)
    requires IsRun(cfg, run) && i < |run| && n in cfg.ids
    ensures n in run[i].servers
    ensures var sv := run[i].servers[n];
            sv.applied <= sv.commit <= |sv.log| && sv.table == Fold(cfg.decode, sv.log[..sv.applied])
  {
    var abs := EngineRefinesRaft(cfg, run);
    MirrorsAt(cfg, run, abs, i, n);
  }

  /** Nodes that applied the same number of entries hold the same table, even across a
      restart: replaying to an index rebuilds what was there before. */
  lemma TablesAgree(cfg: Config, run: seq<Cluster>, i: nat, j: nat, m: NodeId, n: NodeId)
    requires IsRun(cfg, run) && i < |run| && j < |run| && m in cfg.ids && n in cfg.ids
    requires m in run[i].servers && n in run[j].servers && run[i].servers[m].applied == run[j].servers[n].applied
    ensures run[i].servers[m].table == run[j].servers[n].table
  {
    TableIsFold(cfg, run, i, m);
    TableIsFold(cfg, run, j, n);
    StateMachineSafety(cfg, run, i, j, m, n, run[i].servers[m].applied);
  }

  /** What is known to be committed is in the log of a leader of a later term, and in
      any log the history gives to a leader of the same or a later term. */
  lemma KnownInLeader(s: A.State, log: Log, term: nat, c: nat, h: A.History, u: nat)
    requires Inv(s) && CommitKnownIn(s, log, term, c) && Grows(h, s.h) && u in h.reigns
    requires HistoryOk(s.ids, h) && (u > term || (u == term && h == s.h))
    ensures Agree(A.LogOf(h, u), log, c)
  {
    if c != 0 {
      var t: nat, k: nat :| A.Chosen(s.ids, s.h, t, k) && t <= term && c <= k && Agree(log, A.LogOf(s.h, t), c);
      if t < u {
        LeaderCompleteness(s.ids, s.h, t, k, u);
        assert ReignOk(s.ids, h, u, h.reigns[u]);
        AgreeShorter(A.StartOf(h, u), A.LogOf(s.h, t), k, c);
        AgreeShorter(A.StartOf(h, u), A.LogOf(h, u), |A.StartOf(h, u)|, c);
      }
    }
  }

  /** Raft section 5.4: whatever a node had committed is in the log of every leader of a
      later term, and of every leader of its own term from then on. */
  lemma LeaderCompletenessOverRun(cfg: Config, run: seq<Cluster>, i: nat, j: nat, n: NodeId, m: NodeId)
    requires IsRun(cfg, run) && i < |run| && j < |run| && m in cfg.ids && n in cfg.ids
    requires n in run[i].servers && m in run[j].servers && run[j].servers[m].role == Leader
    requires run[j].servers[m].term > run[i].servers[n].term || (run[j].servers[m].term == run[i].servers[n].term && i <= j)
    ensures Agree(run[j].servers[m].log, run[i].servers[n].log, run[i].servers[n].commit)
  {
    var abs := EngineRefinesRaft(cfg, run);
    MirrorsAt(cfg, run, abs, i, n);
    MirrorsAt(cfg, run, abs, j, m);
    LeaderFact(abs[j], m);
    CommitFact(abs[i], n);
    var sv, s := run[i].servers[n], abs[if i <= j then j else i];
    GrowsSelf(s.h);
    assert GrowsFrom(abs, i, j) && GrowsFrom(abs, j, i);
    CommitKnownGrows(cfg.ids, abs[i].h, s.h, sv.log, sv.term, sv.term, sv.commit);
    KnownInLeader(s, sv.log, sv.term, sv.commit, abs[j].h, run[j].servers[m].term);
  }
}
