/** Every handler of an engine node is a sequence of abstract Raft actions. */
module EngineSteps {
  import opened RaftTypes
  import opened Engine
  import opened EngineCluster
  import opened EngineRelation
  import A = AbstractRaft
  import opened AbstractInvariants
  import opened AbstractSafety
  import opened AbstractPreservation
  import opened AbstractRuns

  /** Node n of the abstract state is this server. */
  ghost predicate Mirrors(cfg: Config, s: A.State, n: NodeId, sv: Server) {
    && Inv(s) && s.ids == cfg.ids && AllIndexed(s.h)
    && n in s.ids && s.nodes[n] == View(sv) && ServerOk(cfg, s.h, n, sv)
  }

  ghost predicate CommitKnownIn(s: A.State, log: Log, term: nat, c: nat) {
    A.CommitKnown(s.ids, s.h, log, term, c)
  }

  lemma CommitFact(s: A.State, n: NodeId)
    requires Inv(s) && n in s.ids
    ensures var nd := s.nodes[n]; CommitKnownIn(s, nd.log, nd.term, nd.commit)
  {
    assert NodeOk(s.ids, s.h, n, s.nodes[n]);
  }

  lemma LeaderFact(s: A.State, n: NodeId)
    requires Inv(s) && n in s.ids && s.nodes[n].role == Leader
    ensures var nd := s.nodes[n];
            nd.term in s.h.reigns && s.h.reigns[nd.term].leader == n && A.LogOf(s.h, nd.term) == nd.log
  {
    assert NodeOk(s.ids, s.h, n, s.nodes[n]);
  }

  predicate TellsAt(a: Log, b: Log, i: nat) {
    i < |a| && i < |b| && a[i].term == b[i].term ==> Agree(a, b, i + 1)
  }

  /** The same term at the same index means the same log up to there. */
  ghost predicate TermsTell(a: Log, b: Log) {
    forall i {:trigger TellsAt(a, b, i)} :: TellsAt(a, b, i)
  }

  /** Raft section 5.3, as a fact about one node and the leader of a term. */
  lemma LogsTell(s: A.State, n: NodeId, t: nat)
    requires Inv(s) && n in s.ids && t in s.h.reigns
    ensures TermsTell(s.nodes[n].log, A.LogOf(s.h, t))
  {
    assert NodeOk(s.ids, s.h, n, s.nodes[n]);
    assert ReignOk(s.ids, s.h, t, s.h.reigns[t]);
  }

  lemma RootedIndexed(h: A.History, log: Log)
    requires AllIndexed(h) && Rooted(h, log)
    ensures Indexed(log)
  {
    forall i | 0 <= i < |log| ensures log[i].data.Record? && log[i].data.index == i + 1 {
      var full := A.LogOf(h, log[i].term);
      assert Indexed(full);
      AgreeAt(log, full, i + 1, i);
    }
  }

  lemma IndexedKept(s: A.State, a: A.Action)
    requires Inv(s) && A.Enabled(s, a) && AllIndexed(s.h)
    requires a.Append? ==> a.data.Record? && a.data.index == |s.nodes[a.n].log| + 1
    ensures AllIndexed(A.HistoryAfter(s, a))
  {
    var h, h', log := s.h, A.HistoryAfter(s, a), s.nodes[a.n].log;
    assert Indexed(log) by {
      assert NodeOk(s.ids, h, a.n, s.nodes[a.n]);
      RootedIndexed(h, log);
    }
    forall t | t in h'.reigns ensures Indexed(A.LogOf(h', t)) {
      assert t in h.reigns ==> Indexed(A.LogOf(h, t));
    }
  }

  lemma Act(cfg: Config, s: A.State, s1: A.State, n: NodeId, a: A.Action)
    requires Path(s, s1, n) && a.n == n && A.Enabled(s1, a) && AllIndexed(s1.h)
    requires a.Append? ==> a.data.Record? && a.data.index == |s1.nodes[n].log| + 1
    ensures Path(s, A.After(s1, a), n) && Grows(s1.h, A.After(s1, a).h) && AllIndexed(A.After(s1, a).h)
  {
    Do(s, s1, n, a);
    IndexedKept(s1, a);
  }

  // ---------- What a server knows stays true ----------

  lemma SettledGrows(ids: set<NodeId>, h: A.History, h': A.History, i: nat, e: Entry)
    requires Grows(h, h') && Settled(ids, h, i, e)
    ensures Settled(ids, h', i, e)
  {
    var j :| A.Chosen(ids, h, e.term, j) && i <= j && A.LogOf(h, e.term)[i - 1] == e;
    ChosenGrows(ids, h, h', e.term, j);
    AgreeAt(A.LogOf(h, e.term), A.LogOf(h', e.term), |A.LogOf(h, e.term)|, i - 1);
  }

  lemma ServerStaysOk(cfg: Config, h: A.History, h': A.History, n: NodeId, sv: Server)
    requires Grows(h, h') && ServerOk(cfg, h, n, sv)
    ensures ServerOk(cfg, h', n, sv)
  {
    if sv.role == Leader {
      var ls := sv.leader.value;
      forall p | p in Peers(cfg, n) ensures PeerOk(h', sv.term, |sv.log|, ls, p) {
        assert PeerOk(h, sv.term, |sv.log|, ls, p);
      }
    }
    forall k ensures Told(cfg.ids, h', sv.log, sv.applied, sv.epoch, sv.proposals, k) {
      assert Told(cfg.ids, h, sv.log, sv.applied, sv.epoch, sv.proposals, k);
      if k in sv.proposals && sv.proposals[k].answer == Some(true) {
        SettledGrows(cfg.ids, h, h', sv.proposals[k].index, sv.proposals[k].entry);
      }
    }
  }

  /** Nobody waits on a node that is not leader, so its role, term and log may change. */
  lemma IdleOk(sv: Server, role: Role, term: nat, log: Log)
    requires WaitingOk(sv.role, sv.term, sv.log, sv.epoch, sv.pending, sv.proposals, sv.tickets) && sv.role != Leader
    ensures WaitingOk(role, term, log, sv.epoch, sv.pending, sv.proposals, sv.tickets)
  {
    forall i ensures Waits(role, term, log, sv.epoch, sv.pending, sv.proposals, i) {
      assert Waits(sv.role, sv.term, sv.log, sv.epoch, sv.pending, sv.proposals, i);
    }
  }

  /** What was applied stays in a log that keeps it. */
  lemma ToldKept(ids: set<NodeId>, h: A.History, sv: Server, log: Log)
    requires ToldOk(ids, h, sv.log, sv.applied, sv.epoch, sv.proposals)
    requires Agree(sv.log, log, sv.applied)
    ensures ToldOk(ids, h, log, sv.applied, sv.epoch, sv.proposals)
  {
    forall k ensures Told(ids, h, log, sv.applied, sv.epoch, sv.proposals, k) {
      assert Told(ids, h, sv.log, sv.applied, sv.epoch, sv.proposals, k);
      if k in sv.proposals && 0 < sv.proposals[k].index <= sv.applied {
        AgreeAt(sv.log, log, sv.applied, sv.proposals[k].index - 1);
      }
    }
  }

  /** One abstract action that turns a server into sv'. */
  lemma ActInto(cfg: Config, s: A.State, s1: A.State, n: NodeId, a: A.Action, sv': Server) returns (s': A.State)
    requires Path(s, s1, n) && a.n == n && A.Enabled(s1, a) && AllIndexed(s1.h) && s1.ids == cfg.ids
    requires a.Append? ==> a.data.Record? && a.data.index == |s1.nodes[n].log| + 1
    requires View(sv') == A.NodeAfter(s1, a) && ServerOk(cfg, A.HistoryAfter(s1, a), n, sv')
    ensures s' == A.After(s1, a) && Path(s, s', n) && Mirrors(cfg, s', n, sv')
  {
    Act(cfg, s, s1, n, a);
    s' := A.After(s1, a);
  }

  /** The same when sv' is sound already by what was known before the action. */
  lemma ActAs(cfg: Config, s: A.State, s1: A.State, n: NodeId, a: A.Action, sv': Server) returns (s': A.State)
    requires Path(s, s1, n) && a.n == n && A.Enabled(s1, a) && AllIndexed(s1.h) && s1.ids == cfg.ids
    requires !a.Append?
    requires View(sv') == A.NodeAfter(s1, a) && ServerOk(cfg, s1.h, n, sv')
    ensures s' == A.After(s1, a) && Path(s, s', n) && Mirrors(cfg, s', n, sv')
  {
    Act(cfg, s, s1, n, a);
    ServerStaysOk(cfg, s1.h, A.HistoryAfter(s1, a), n, sv');
    s' := ActInto(cfg, s, s1, n, a, sv');
  }

  // ---------- Applying ----------

  /** An entry of the node's own term below its commit index was settled in that term. */
  lemma OwnTermSettled(s: A.State, log: Log, term: nat, commit: nat, i: nat)
    requires Inv(s) && CommitKnownIn(s, log, term, commit) && 0 < i <= commit && log[i - 1].term == term
    ensures Settled(s.ids, s.h, i, log[i - 1])
  {
    var t: nat, j: nat :| A.Chosen(s.ids, s.h, t, j) && t <= term && commit <= j && Agree(log, A.LogOf(s.h, t), commit);
    AgreeAt(log, A.LogOf(s.h, t), commit, i - 1);
    ReignTerms(s.ids, s.h, t, i - 1);
  }

  lemma TableNext(cfg: Config, sv: Server)
    requires TableOk(cfg, sv.log, sv.commit, sv.applied, sv.table) && sv.applied < sv.commit
    ensures var r := ApplyNext(cfg.decode, sv); TableOk(cfg, r.log, r.commit, r.applied, r.table)
  {
    var k := sv.applied + 1;
    assert sv.log[..k][..k - 1] == sv.log[..k - 1];
  }

  lemma WaitingNext(decode: Decoder, sv: Server)
    requires WaitingOk(sv.role, sv.term, sv.log, sv.epoch, sv.pending, sv.proposals, sv.tickets)
    ensures var r := ApplyNext(decode, sv); WaitingOk(r.role, r.term, r.log, r.epoch, r.pending, r.proposals, r.tickets)
  {
    var r := ApplyNext(decode, sv);
    assert Waits(sv.role, sv.term, sv.log, sv.epoch, sv.pending, sv.proposals, sv.applied + 1);
    forall i ensures Waits(r.role, r.term, r.log, r.epoch, r.pending, r.proposals, i) {
      assert Waits(sv.role, sv.term, sv.log, sv.epoch, sv.pending, sv.proposals, i);
    }
    forall k ensures Issued(r.proposals, r.tickets, r.epoch, k) {
      assert Issued(sv.proposals, sv.tickets, sv.epoch, k);
    }
  }

  lemma ToldNext(ids: set<NodeId>, h: A.History, decode: Decoder, sv: Server)
    requires WaitingOk(sv.role, sv.term, sv.log, sv.epoch, sv.pending, sv.proposals, sv.tickets)
    requires ToldOk(ids, h, sv.log, sv.applied, sv.epoch, sv.proposals) && sv.applied < |sv.log|
    requires var i := sv.applied + 1; i in sv.pending ==> Settled(ids, h, i, sv.log[i - 1])
    ensures var r := ApplyNext(decode, sv); ToldOk(ids, h, r.log, r.applied, r.epoch, r.proposals)
  {
    var r := ApplyNext(decode, sv);
    assert Waits(sv.role, sv.term, sv.log, sv.epoch, sv.pending, sv.proposals, sv.applied + 1);
    forall k ensures Told(ids, h, r.log, r.applied, r.epoch, r.proposals, k) {
      assert Told(ids, h, sv.log, sv.applied, sv.epoch, sv.proposals, k);
    }
  }

  lemma ApplyNextOk(cfg: Config, s: A.State, n: NodeId, sv: Server)
    requires Inv(s) && s.ids == cfg.ids && ServerOk(cfg, s.h, n, sv) && sv.applied < sv.commit
    requires CommitKnownIn(s, sv.log, sv.term, sv.commit)
    ensures ServerOk(cfg, s.h, n, ApplyNext(cfg.decode, sv))
  {
    var k := sv.applied + 1;
    assert Waits(sv.role, sv.term, sv.log, sv.epoch, sv.pending, sv.proposals, k);
    if k in sv.pending {
      OwnTermSettled(s, sv.log, sv.term, sv.commit, k);
    }
    TableNext(cfg, sv);
    WaitingNext(cfg.decode, sv);
    ToldNext(cfg.ids, s.h, cfg.decode, sv);
  }

  lemma {:induction false} ApplyOk(cfg: Config, s: A.State, n: NodeId, sv: Server)
    requires Inv(s) && s.ids == cfg.ids && ServerOk(cfg, s.h, n, sv)
    requires CommitKnownIn(s, sv.log, sv.term, sv.commit)
    ensures ServerOk(cfg, s.h, n, Apply(cfg.decode, sv))
    ensures View(Apply(cfg.decode, sv)) == View(sv) && Apply(cfg.decode, sv).votes == sv.votes
    decreases sv.commit - sv.applied
  {
    if sv.applied < sv.commit {
      ApplyNextOk(cfg, s, n, sv);
      ApplyOk(cfg, s, n, ApplyNext(cfg.decode, sv));
    }
  }

  // ---------- Terms and votes ----------

  lemma CheckTermOk(cfg: Config, s: A.State, n: NodeId, sv: Server, t: nat) returns (s': A.State)
    requires Mirrors(cfg, s, n, sv)
    ensures Path(s, s', n) && Mirrors(cfg, s', n, CheckTerm(sv, t)) && s'.h == s.h
  {
    s' := s;
    Stay(s, n);
    if t > sv.term {
      ClearedOk(cfg, s.h, n, sv, t);
      s' := ActAs(cfg, s, s, n, A.Learn(n, t, None), CheckTerm(sv, t));
    }
  }

  /** Losing leadership answers every waiting client and empties the waiting list. */
  lemma ClearedOk(cfg: Config, h: A.History, n: NodeId, sv: Server, t: nat)
    requires ServerOk(cfg, h, n, sv) && t > sv.term
    ensures ServerOk(cfg, h, n, CheckTerm(sv, t))
  {
    var r := CheckTerm(sv, t);
    forall k ensures Told(cfg.ids, h, r.log, r.applied, r.epoch, r.proposals, k) {
      assert Told(cfg.ids, h, sv.log, sv.applied, sv.epoch, sv.proposals, k);
    }
    forall k ensures Issued(r.proposals, r.tickets, r.epoch, k) {
      assert Issued(sv.proposals, sv.tickets, sv.epoch, k);
    }
    forall i ensures Waits(r.role, r.term, r.log, r.epoch, r.pending, r.proposals, i) {}
  }

  lemma CastVote(cfg: Config, s: A.State, s1: A.State, n: NodeId, sv: Server, from: NodeId) returns (s': A.State)
    requires Path(s, s1, n) && Mirrors(cfg, s1, n, sv) && A.Enabled(s1, A.Vote(n, from))
    ensures Path(s, s', n) && Mirrors(cfg, s', n, sv.(vote := Some(from))) && A.Granted(s'.h, sv.term, n, from)
  {
    s' := ActAs(cfg, s, s1, n, A.Vote(n, from), sv.(vote := Some(from)));
    assert NodeOk(s1.ids, s1.h, n, s1.nodes[n]);
  }

  /** Raft section 5.4.1: answering a vote request. */
  lemma VoteRequestOk(cfg: Config, s: A.State, n: NodeId, sv: Server, from: NodeId, req: Request) returns (s': A.State)
    requires Mirrors(cfg, s, n, sv) && req.VoteReq? && VoteReqOk(s.h, from, req)
    ensures var r := OnVoteRequest(sv, from, req);
            Path(s, s', n) && Mirrors(cfg, s', n, r.server) &&
            (r.reply.value.granted ==> A.Granted(s'.h, req.term, n, from))
  {
    var r := OnVoteRequest(sv, from, req);
    if req.term < sv.term {
      s' := s;
      Stay(s, n);
    } else {
      s' := CheckTermOk(cfg, s, n, sv, req.term);
      if r.reply.value.granted {
        s' := CastVote(cfg, s, s', n, CheckTerm(sv, req.term), from);
      }
    }
  }

  // ---------- Leading ----------

  /** A majority of the leader's match indices is a quorum of confirmations. */
  lemma CommittableChosen(cfg: Config, s: A.State, n: NodeId, sv: Server, i: nat)
    requires Mirrors(cfg, s, n, sv) && sv.role == Leader && Committable(sv, Peers(cfg, n), i)
    ensures A.Chosen(s.ids, s.h, sv.term, i)
  {
    LeaderFact(s, n);
    var holders := Holders(sv.leader.value.acked, i);
    assert n !in holders;
    forall p | p in holders ensures p in A.Ackers(s.ids, s.h, sv.term, i) {
      assert PeerOk(s.h, sv.term, |sv.log|, sv.leader.value, p);
    }
    SubsetSize(holders + {n}, A.Ackers(s.ids, s.h, sv.term, i));
    assert cfg.ids == Peers(cfg, n) + {n};
  }

  lemma ScanPicks(s: Server, peers: set<NodeId>, n: nat)
    ensures var c := ScanCommit(s, peers, n);
            s.commit <= c && (c == s.commit || Committable(s, peers, c))
  {
  }

  lemma ApplyMirrors(cfg: Config, s: A.State, n: NodeId, sv: Server)
    requires Mirrors(cfg, s, n, sv)
    ensures Mirrors(cfg, s, n, Apply(cfg.decode, sv))
  {
    CommitFact(s, n);
    ApplyOk(cfg, s, n, sv);
  }

  /** A node learns that the first c entries are settled, and applies them. */
  lemma CommitAndApply(cfg: Config, s: A.State, s1: A.State, n: NodeId, sv: Server, t: nat, i: nat, c: nat)
      returns (s': A.State)
    requires Path(s, s1, n) && Mirrors(cfg, s1, n, sv) && A.Enabled(s1, A.Commit(n, t, i, c))
    ensures Path(s, s', n) && Mirrors(cfg, s', n, Apply(cfg.decode, sv.(commit := c))) && s'.h == s1.h
  {
    s' := ActAs(cfg, s, s1, n, A.Commit(n, t, i, c), sv.(commit := c));
    ApplyMirrors(cfg, s', n, sv.(commit := c));
  }

  /** Raft section 5.4.2: advancing the leader's commit index and applying. */
  lemma UpdateCommitOk(cfg: Config, s: A.State, s1: A.State, n: NodeId, sv: Server) returns (s': A.State)
    requires Path(s, s1, n) && Mirrors(cfg, s1, n, sv)
    ensures Path(s, s', n) && Mirrors(cfg, s', n, UpdateCommit(cfg.decode, sv, Peers(cfg, n)))
  {
    s' := s1;
    if sv.role == Leader {
      var c := ScanCommit(sv, Peers(cfg, n), |sv.log|);
      ScanPicks(sv, Peers(cfg, n), |sv.log|);
      if c == sv.commit {
        assert sv.(commit := c) == sv;
        ApplyMirrors(cfg, s1, n, sv);
      } else {
        CommittableChosen(cfg, s1, n, sv, c);
        LeaderFact(s1, n);
        s' := CommitAndApply(cfg, s, s1, n, sv, sv.term, c, c);
      }
    }
  }

  lemma NewLeaderOk(cfg: Config, h: A.History, n: NodeId, sv: Server)
    requires ServerOk(cfg, h, n, sv) && sv.role != Leader && A.AckOf(h, sv.term, n) >= |sv.log|
    ensures ServerOk(cfg, h, n, Lead(sv, Peers(cfg, n)))
  {
    IdleOk(sv, Leader, sv.term, sv.log);
  }

  lemma WinOk(cfg: Config, s: A.State, s1: A.State, n: NodeId, sv: Server, voters: set<NodeId>) returns (s': A.State)
    requires Path(s, s1, n) && Mirrors(cfg, s1, n, sv) && A.Enabled(s1, A.Win(n, voters))
    ensures Path(s, s', n) && Mirrors(cfg, s', n, Lead(sv, Peers(cfg, n)))
  {
    var a := A.Win(n, voters);
    Do(s, s1, n, a);
    ServerStaysOk(cfg, s1.h, A.HistoryAfter(s1, a), n, sv);
    NewLeaderOk(cfg, A.HistoryAfter(s1, a), n, sv);
    s' := ActInto(cfg, s, s1, n, a, Lead(sv, Peers(cfg, n)));
  }

  lemma LongerLogOk(cfg: Config, h: A.History, n: NodeId, sv: Server, e: Entry)
    requires ServerOk(cfg, h, n, sv) && sv.role == Leader && A.AckOf(h, sv.term, n) >= |sv.log| + 1
    ensures ServerOk(cfg, h, n, sv.(log := sv.log + [e]))
  {
    var log := sv.log + [e];
    assert log[..sv.applied] == sv.log[..sv.applied];
    ToldKept(cfg.ids, h, sv, log);
    forall p | p in Peers(cfg, n) ensures PeerOk(h, sv.term, |log|, sv.leader.value, p) {
      assert PeerOk(h, sv.term, |sv.log|, sv.leader.value, p);
    }
    forall i ensures Waits(sv.role, sv.term, log, sv.epoch, sv.pending, sv.proposals, i) {
      assert Waits(sv.role, sv.term, sv.log, sv.epoch, sv.pending, sv.proposals, i);
    }
  }

  lemma LeaderAppendOk(cfg: Config, s: A.State, s1: A.State, n: NodeId, sv: Server, e: Entry) returns (s': A.State)
    requires Path(s, s1, n) && Mirrors(cfg, s1, n, sv) && sv.role == Leader
    requires e.term == sv.term && e.data.Record? && e.data.index == |sv.log| + 1
    ensures Path(s, s', n) && Mirrors(cfg, s', n, sv.(log := sv.log + [e]))
  {
    var a := A.Append(n, e.data);
    LeaderFact(s1, n);
    Do(s, s1, n, a);
    ServerStaysOk(cfg, s1.h, A.HistoryAfter(s1, a), n, sv);
    LongerLogOk(cfg, A.HistoryAfter(s1, a), n, sv, e);
    s' := ActInto(cfg, s, s1, n, a, sv.(log := sv.log + [e]));
  }

  /** Raft section 5.2 and 8: a won election, its no-op and what that commits. */
  lemma BecomeLeaderOk(cfg: Config, s: A.State, s1: A.State, n: NodeId, sv: Server, voters: set<NodeId>, fault: Fault)
      returns (s': A.State)
    requires Path(s, s1, n) && Mirrors(cfg, s1, n, sv) && A.Enabled(s1, A.Win(n, voters))
    ensures Path(s, s', n) && Mirrors(cfg, s', n, BecomeLeader(cfg.decode, sv, Peers(cfg, n), fault).server)
  {
    s' := WinOk(cfg, s, s1, n, sv, voters);
    if !fault.AppendFails? {
      s' := LeaderAppendOk(cfg, s, s', n, Lead(sv, Peers(cfg, n)), NoOp(sv));
    }
    s' := UpdateCommitOk(cfg, s, s', n, LeadWithNoOp(sv, Peers(cfg, n), fault));
  }

  lemma CandidacyOk(cfg: Config, s: A.State, n: NodeId, sv: Server) returns (s': A.State)
    requires Mirrors(cfg, s, n, sv) && sv.role != Leader
    ensures Path(s, s', n)
    ensures Mirrors(cfg, s', n, sv.(term := sv.term + 1, role := Candidate, vote := Some(n), leader := None, votes := 1))
    ensures A.Granted(s'.h, sv.term + 1, n, n)
    ensures VoteReqOk(s'.h, n, VoteReq(sv.term + 1, |sv.log|, LastTerm(sv.log)))
  {
    Stay(s, n);
    IdleOk(sv, Candidate, sv.term + 1, sv.log);
    s' := ActAs(cfg, s, s, n, A.Campaign(n),
                sv.(term := sv.term + 1, role := Candidate, vote := Some(n), leader := None, votes := 1));
  }

  lemma CampaigningOk(cfg: Config, s: A.State, n: NodeId, sv: Server, fault: Fault) returns (s': A.State)
    requires Mirrors(cfg, s, n, sv) && sv.role != Leader
    ensures var r := CampaignOf(cfg.decode, sv, n, Peers(cfg, n), fault);
            Path(s, s', n) && Mirrors(cfg, s', n, r.server) &&
            (r.out.AskVotes? ==>
               r.server.role == Candidate && r.server.votes == 1 && r.server.term == sv.term + 1 &&
               A.Granted(s'.h, r.server.term, n, n) && VoteReqOk(s'.h, n, VoteRequest(r.server))) &&
            (!r.out.AskVotes? ==> r.server.role != Candidate)
  {
    s' := CandidacyOk(cfg, s, n, sv);
    var sv1 := sv.(term := sv.term + 1, role := Candidate, vote := Some(n), leader := None, votes := 1);
    if 1 >= Majority(Peers(cfg, n)) {
      assert Peers(cfg, n) == {};
      assert cfg.ids == {n};
      s' := BecomeLeaderOk(cfg, s, s', n, sv1, {n}, fault);
      LeaderStays(cfg.decode, sv1, Peers(cfg, n), fault);
    }
  }

  lemma MajorityWins(cfg: Config, s: A.State, n: NodeId, heard: set<NodeId>)
    requires Inv(s) && s.ids == cfg.ids && n in s.ids && s.nodes[n].role == Candidate
    requires A.Granted(s.h, s.nodes[n].term, n, n)
    requires heard <= Peers(cfg, n) && forall p :: p in heard ==> A.Granted(s.h, s.nodes[n].term, p, n)
    requires 1 + |heard| >= Majority(Peers(cfg, n))
    ensures A.Enabled(s, A.Win(n, heard + {n}))
  {
    assert cfg.ids == Peers(cfg, n) + {n};
    assert n !in heard;
  }

  /** A granted vote counted by a candidate; with a majority it wins. */
  lemma CountVoteOk(cfg: Config, s: A.State, n: NodeId, sv: Server, heard: set<NodeId>, asked: nat, rep: Reply, fault: Fault)
      returns (s': A.State)
    requires Mirrors(cfg, s, n, sv) && rep.VoteRep?
    requires sv.role == Candidate ==> A.Granted(s.h, sv.term, n, n)
    requires heard <= Peers(cfg, n) && forall p :: p in heard ==> A.Granted(s.h, sv.term, p, n)
    requires sv.role == Candidate && sv.term == asked && rep.granted ==> sv.votes + 1 <= 1 + |heard|
    ensures var r := OnVoteReply(cfg.decode, sv, Peers(cfg, n), asked, rep, fault);
            Path(s, s', n) && Mirrors(cfg, s', n, r.server) &&
            (r.server.role == Candidate ==>
               sv.role == Candidate && r.server.term == sv.term &&
               (r.server.votes == sv.votes ||
                (r.server.votes == sv.votes + 1 && sv.term == asked && rep.granted)))
  {
    if rep.term > sv.term || sv.role != Candidate || sv.term != asked || !rep.granted {
      s' := CheckTermOk(cfg, s, n, sv, rep.term);
    } else {
      s' := OneMoreVoteOk(cfg, s, n, Counted(sv), heard, fault);
    }
  }

  lemma OneMoreVoteOk(cfg: Config, s: A.State, n: NodeId, sv: Server, heard: set<NodeId>, fault: Fault) returns (s': A.State)
    requires Mirrors(cfg, s, n, sv) && sv.role == Candidate && A.Granted(s.h, sv.term, n, n)
    requires heard <= Peers(cfg, n) && forall p :: p in heard ==> A.Granted(s.h, sv.term, p, n)
    requires sv.votes <= 1 + |heard|
    ensures Path(s, s', n)
    ensures if sv.votes >= Majority(Peers(cfg, n)) then
              var r := BecomeLeader(cfg.decode, sv, Peers(cfg, n), fault).server; Mirrors(cfg, s', n, r) && r.role == Leader
            else s' == s
  {
    s' := s;
    Stay(s, n);
    if sv.votes >= Majority(Peers(cfg, n)) {
      MajorityWins(cfg, s, n, heard);
      s' := BecomeLeaderOk(cfg, s, s, n, sv, heard + {n}, fault);
      LeaderStays(cfg.decode, sv, Peers(cfg, n), fault);
    }
  }

  lemma ChannelWaits(sv: Server, e: Entry, command: seq<byte>, answer: Option<bool>)
    requires WaitingOk(sv.role, sv.term, sv.log, sv.epoch, sv.pending, sv.proposals, sv.tickets)
    requires sv.role == Leader && sv.log != [] && sv.log[|sv.log| - 1] == e && e.term == sv.term
    requires e.data == Record(|sv.log|, command)
    ensures var r := OpenChannel(sv, e, command, answer);
            WaitingOk(r.role, r.term, r.log, r.epoch, r.pending, r.proposals, r.tickets)
  {
    var r := OpenChannel(sv, e, command, answer);
    assert Issued(sv.proposals, sv.tickets, sv.epoch, sv.tickets);
    forall i ensures Waits(r.role, r.term, r.log, r.epoch, r.pending, r.proposals, i) {
      assert Waits(sv.role, sv.term, sv.log, sv.epoch, sv.pending, sv.proposals, i);
    }
    forall k ensures Issued(r.proposals, r.tickets, r.epoch, k) {
      assert Issued(sv.proposals, sv.tickets, sv.epoch, k);
    }
  }

  lemma ChannelOk(cfg: Config, h: A.History, n: NodeId, sv: Server, e: Entry, command: seq<byte>, answer: Option<bool>)
    requires ServerOk(cfg, h, n, sv) && sv.role == Leader && sv.log != [] && sv.log[|sv.log| - 1] == e && e.term == sv.term
    requires e.data == Record(|sv.log|, command)
    requires answer.Some? ==> answer.value && Settled(cfg.ids, h, |sv.log|, e) && sv.applied == |sv.log|
    ensures ServerOk(cfg, h, n, OpenChannel(sv, e, command, answer))
  {
    ChannelWaits(sv, e, command, answer);
    var r := OpenChannel(sv, e, command, answer);
    forall k ensures Told(cfg.ids, h, r.log, r.applied, r.epoch, r.proposals, k) {
      assert Told(cfg.ids, h, sv.log, sv.applied, sv.epoch, sv.proposals, k);
    }
  }

  /** A one-node cluster settles what its leader holds. */
  lemma AloneChosen(cfg: Config, s: A.State, n: NodeId, sv: Server)
    requires Mirrors(cfg, s, n, sv) && sv.role == Leader && Peers(cfg, n) == {}
    requires sv.log != [] && sv.log[|sv.log| - 1].term == sv.term
    ensures A.Chosen(s.ids, s.h, sv.term, |sv.log|) && A.LogOf(s.h, sv.term) == sv.log
  {
    LeaderFact(s, n);
    assert cfg.ids == {n};
    assert A.Ackers(s.ids, s.h, sv.term, |sv.log|) == {n};
  }

  lemma AppliedAll(decode: Decoder, sv: Server)
    requires sv.applied <= |sv.log|
    ensures var r := Apply(decode, sv.(commit := |sv.log|));
            r.log == sv.log && r.applied == |sv.log| && r.role == sv.role && r.term == sv.term
  {
    ApplyTouches(decode, sv.(commit := |sv.log|));
  }

  /** A one-node cluster commits a proposal at once. */
  lemma ProposedAloneOk(cfg: Config, s: A.State, s1: A.State, n: NodeId, sv: Server, e: Entry, command: seq<byte>)
      returns (s': A.State)
    requires Path(s, s1, n) && Mirrors(cfg, s1, n, sv) && sv.role == Leader && Peers(cfg, n) == {}
    requires sv.log != [] && sv.log[|sv.log| - 1] == e && e.term == sv.term
    requires e.data == Record(|sv.log|, command)
    ensures Path(s, s', n)
    ensures Mirrors(cfg, s', n, OpenChannel(Apply(cfg.decode, sv.(commit := |sv.log|)), e, command, Some(true)))
  {
    AloneChosen(cfg, s1, n, sv);
    assert Settled(cfg.ids, s1.h, |sv.log|, e);
    s' := CommitAndApply(cfg, s, s1, n, sv, sv.term, |sv.log|, |sv.log|);
    AppliedAll(cfg.decode, sv);
    ChannelOk(cfg, s'.h, n, Apply(cfg.decode, sv.(commit := |sv.log|)), e, command, Some(true));
  }

  lemma ProposeOk(cfg: Config, s: A.State, n: NodeId, sv: Server, command: seq<byte>, fault: Fault) returns (s': A.State)
    requires Mirrors(cfg, s, n, sv)
    ensures Path(s, s', n) && Mirrors(cfg, s', n, Propose(cfg.decode, sv, Peers(cfg, n), command, fault).server)
  {
    s' := s;
    Stay(s, n);
    if sv.role == Leader && !fault.AppendFails? {
      var e := OwnEntry(sv, command);
      s' := LeaderAppendOk(cfg, s, s, n, sv, e);
      if Peers(cfg, n) == {} {
        s' := ProposedAloneOk(cfg, s, s', n, sv.(log := sv.log + [e]), e, command);
      } else {
        ChannelOk(cfg, s'.h, n, sv.(log := sv.log + [e]), e, command, None);
      }
    }
  }

  // ---------- Following ----------

  /** Against a slice of the leader's log, matching entries extend the agreement,
      and the first that does not match is missing or a true conflict. */
  lemma {:induction false} MatchingAgrees(log: Log, full: Log, prev: nat, entries: Log)
    requires TermsTell(log, full) && Agree(log, full, prev)
    requires prev + |entries| <= |full| && entries == full[prev..prev + |entries|]
    ensures var k := Matching(log, prev, entries);
            k <= |entries| && Agree(log, full, prev + k) &&
            (k < |entries| && prev + k < |log| ==> log[prev + k].term != full[prev + k].term)
    decreases |entries|
  {
    if entries != [] && prev < |log| && log[prev].term == entries[0].term {
      assert entries[0] == full[prev];
      assert TellsAt(log, full, prev);
      assert entries[1..] == full[prev + 1..prev + |entries|];
      MatchingAgrees(log, full, prev + 1, entries[1..]);
    }
  }

  lemma HeedOk(cfg: Config, s: A.State, n: NodeId, sv: Server, from: NodeId, t: nat, now: nat) returns (s': A.State)
    requires Mirrors(cfg, s, n, sv)
    ensures Path(s, s', n) && Mirrors(cfg, s', n, Heed(sv, from, t, now)) && s'.h == s.h
  {
    s' := CheckTermOk(cfg, s, n, sv, t);
    var sv1 := CheckTerm(sv, t);
    if sv1.role == Candidate {
      IdleOk(sv1, Follower, sv1.term, sv1.log);
      s' := ActAs(cfg, s, s', n, A.Demote(n, sv1.commit), Heed(sv, from, t, now));
    } else {
      assert ServerOk(cfg, s'.h, n, Heed(sv, from, t, now));
    }
  }

  /** A follower's log may change freely above what it has committed. */
  lemma NewLogOk(cfg: Config, h: A.History, n: NodeId, sv: Server, log: Log)
    requires ServerOk(cfg, h, n, sv) && sv.role == Follower && Agree(sv.log, log, sv.commit)
    ensures ServerOk(cfg, h, n, sv.(log := log))
  {
    AgreeShorter(sv.log, log, sv.commit, sv.applied);
    ToldKept(cfg.ids, h, sv, log);
    IdleOk(sv, sv.role, sv.term, log);
  }

  lemma CutOk(cfg: Config, s: A.State, s1: A.State, n: NodeId, sv: Server, k: nat) returns (s': A.State)
    requires Path(s, s1, n) && Mirrors(cfg, s1, n, sv) && sv.role == Follower && A.Enabled(s1, A.Truncate(n, k))
    ensures Path(s, s', n) && Mirrors(cfg, s', n, sv.(log := sv.log[..k])) && s'.h == s1.h
  {
    CommitBelowCut(s1, A.Truncate(n, k));
    assert sv.log[..k][..sv.commit] == sv.log[..sv.commit];
    NewLogOk(cfg, s1.h, n, sv, sv.log[..k]);
    s' := ActAs(cfg, s, s1, n, A.Truncate(n, k), sv.(log := sv.log[..k]));
  }

  lemma GrowOk(cfg: Config, s: A.State, s1: A.State, n: NodeId, sv: Server, k: nat) returns (s': A.State)
    requires Path(s, s1, n) && Mirrors(cfg, s1, n, sv) && sv.role == Follower && A.Enabled(s1, A.Extend(n, k))
    ensures Path(s, s', n) && Mirrors(cfg, s', n, sv.(log := A.LogOf(s1.h, sv.term)[..k])) && s'.h == s1.h
  {
    var log := A.LogOf(s1.h, sv.term)[..k];
    assert log[..sv.commit] == A.LogOf(s1.h, sv.term)[..|sv.log|][..sv.commit] == sv.log[..sv.commit];
    NewLogOk(cfg, s1.h, n, sv, log);
    s' := ActAs(cfg, s, s1, n, A.Extend(n, k), sv.(log := log));
  }

  /** The request's entries are a slice of the log of the leader of the node's term. */
  ghost predicate SliceFits(s: A.State, sv: Server, prev: nat, entries: Log) {
    sv.role != Candidate && sv.term in s.h.reigns &&
    var full := A.LogOf(s.h, sv.term);
    Agree(sv.log, full, prev) && prev + |entries| <= |full| && entries == full[prev..prev + |entries|]
  }

  /** Where the node's log and the request's slice part ways. */
  lemma MergePoint(cfg: Config, s: A.State, n: NodeId, sv: Server, prev: nat, entries: Log)
    requires Mirrors(cfg, s, n, sv) && SliceFits(s, sv, prev, entries)
    ensures var k := Matching(sv.log, prev, entries);
            k <= |entries| && Agree(sv.log, A.LogOf(s.h, sv.term), prev + k) && (sv.role == Leader ==> k == |entries|) &&
            (k < |entries| ==> if prev + k == |sv.log| then A.Enabled(s, A.Extend(n, prev + |entries|))
                               else A.Enabled(s, A.Truncate(n, prev + k)))
  {
    var full := A.LogOf(s.h, sv.term);
    LogsTell(s, n, sv.term);
    if sv.role == Leader { LeaderFact(s, n); }
    MatchingAgrees(sv.log, full, prev, entries);
  }

  /** Overwriting from the first conflict gives the leader's log up to the request's end. */
  lemma SpliceIsPrefix(log: Log, full: Log, prev: nat, entries: Log, k: nat)
    requires prev + |entries| <= |full| && entries == full[prev..prev + |entries|]
    requires k <= |entries| && Agree(log, full, prev + k)
    ensures log[..prev + k] + entries[k..] == full[..prev + |entries|]
  {
    assert entries[k..] == full[prev + k..prev + |entries|];
    assert full[..prev + |entries|] == full[..prev + k] + full[prev + k..prev + |entries|];
  }

  /** The log a merge with a slice of the leader's log ends in. */
  function MergeResult(log: Log, full: Log, prev: nat, len: nat, k: nat, fault: Fault): Log
    requires prev + len <= |full| && k <= len && prev + k <= |log|
  {
    if k == len then log
    else if prev + k == |log| then (if fault.AppendFails? then log else full[..prev + len])
    else if fault.TruncateFails? then log
    else if fault.AppendFails? then log[..prev + k]
    else full[..prev + len]
  }

  lemma MergeIs(log: Log, full: Log, prev: nat, entries: Log, fault: Fault)
    requires prev + |entries| <= |full| && entries == full[prev..prev + |entries|]
    requires var k := Matching(log, prev, entries); k <= |entries| && Agree(log, full, prev + k)
    ensures var k := Matching(log, prev, entries); var m := Merge(log, prev, entries, fault);
            m.0 == MergeResult(log, full, prev, |entries|, k, fault) && (m.2 ==> Agree(m.0, full, prev + |entries|))
  {
    var k := Matching(log, prev, entries);
    SpliceIsPrefix(log, full, prev, entries, k);
    if prev + k == |log| {
      assert log[..prev + k] == log;
    }
  }

  /** The abstract actions that carry a merge out from the point where the logs part. */
  ghost predicate Mergeable(s: A.State, n: NodeId, sv: Server, prev: nat, len: nat, k: nat) {
    && (sv.role == Leader ==> k == len) && sv.role != Candidate
    && prev + len <= |A.LogOf(s.h, sv.term)| && k <= len && prev + k <= |sv.log|
    && (k < len ==> if prev + k == |sv.log| then A.Enabled(s, A.Extend(n, prev + len))
                    else A.Enabled(s, A.Truncate(n, prev + k)))
  }

  lemma MergePlan(cfg: Config, s: A.State, n: NodeId, sv: Server, prev: nat, entries: Log, fault: Fault) returns (k: nat)
    requires Mirrors(cfg, s, n, sv) && SliceFits(s, sv, prev, entries)
    ensures Mergeable(s, n, sv, prev, |entries|, k)
    ensures var m := Merge(sv.log, prev, entries, fault);
            m.0 == MergeResult(sv.log, A.LogOf(s.h, sv.term), prev, |entries|, k, fault) &&
            (m.2 ==> Agree(m.0, A.LogOf(s.h, sv.term), prev + |entries|))
  {
    k := Matching(sv.log, prev, entries);
    MergePoint(cfg, s, n, sv, prev, entries);
    MergeIs(sv.log, A.LogOf(s.h, sv.term), prev, entries, fault);
  }

  /** Raft section 5.3: the merge of a request's entries, whatever transactions fail. */
  lemma MergeOk(cfg: Config, s: A.State, s1: A.State, n: NodeId, sv: Server, prev: nat, entries: Log, last: nat, fault: Fault)
      returns (s': A.State)
    requires Path(s, s1, n) && Mirrors(cfg, s1, n, sv) && SliceFits(s1, sv, prev, entries) && last == prev + |entries|
    ensures var m := Merge(sv.log, prev, entries, fault);
            Path(s, s', n) && Mirrors(cfg, s', n, sv.(log := m.0)) && s'.h == s1.h &&
            (m.2 ==> Agree(m.0, A.LogOf(s1.h, sv.term), last))
  {
    var k := MergePlan(cfg, s1, n, sv, prev, entries, fault);
    s' := MergeStepsOk(cfg, s, s1, n, sv, prev, |entries|, k, fault);
  }

  lemma MergeStepsOk(cfg: Config, s: A.State, s1: A.State, n: NodeId, sv: Server, prev: nat, len: nat, k: nat, fault: Fault)
      returns (s': A.State)
    requires Path(s, s1, n) && Mirrors(cfg, s1, n, sv) && Mergeable(s1, n, sv, prev, len, k)
    ensures Path(s, s', n) && s'.h == s1.h
    ensures Mirrors(cfg, s', n, sv.(log := MergeResult(sv.log, A.LogOf(s1.h, sv.term), prev, len, k, fault)))
  {
    if k < len && prev + k < |sv.log| {
      s' := ConflictOk(cfg, s, s1, n, sv, prev + k, prev + len, fault);
    } else if k < len && !fault.AppendFails? {
      s' := GrowOk(cfg, s, s1, n, sv, prev + len);
    } else {
      s' := s1;
      assert sv == sv.(log := MergeResult(sv.log, A.LogOf(s1.h, sv.term), prev, len, k, fault));
    }
  }

  lemma ConflictOk(cfg: Config, s: A.State, s1: A.State, n: NodeId, sv: Server, k: nat, end: nat, fault: Fault)
      returns (s': A.State)
    requires Path(s, s1, n) && Mirrors(cfg, s1, n, sv) && sv.role == Follower && A.Enabled(s1, A.Truncate(n, k))
    requires k <= end <= |A.LogOf(s1.h, sv.term)|
    ensures Path(s, s', n) && s'.h == s1.h
    ensures Mirrors(cfg, s', n, sv.(log := if fault.TruncateFails? then sv.log
                                           else if fault.AppendFails? then sv.log[..k]
                                           else A.LogOf(s1.h, sv.term)[..end]))
  {
    s' := s1;
    if !fault.TruncateFails? {
      s' := CutOk(cfg, s, s1, n, sv, k);
      if !fault.AppendFails? {
        s' := GrowOk(cfg, s, s', n, sv.(log := sv.log[..k]), end);
      }
    }
  }

  // A leader's heartbeat: the follower confirms what it now shares with the leader.

  lemma ConfirmOk(cfg: Config, s: A.State, s1: A.State, n: NodeId, sv: Server, len: nat) returns (s': A.State)
    requires Path(s, s1, n) && Mirrors(cfg, s1, n, sv) && A.Enabled(s1, A.Ack(n, len))
    ensures Path(s, s', n) && Mirrors(cfg, s', n, sv) && A.AckOf(s'.h, sv.term, n) >= len && Grows(s1.h, s'.h) && s'.h.reigns == s1.h.reigns
  {
    Do(s, s1, n, A.Ack(n, len));
    s' := ActAs(cfg, s, s1, n, A.Ack(n, len), sv);
  }

  lemma KnownShorter(s: A.State, log: Log, full: Log, term: nat, leaderCommit: nat, lastNew: nat)
      returns (t: nat, i: nat)
    requires Agree(log, full, lastNew) && CommitKnownIn(s, full, term, leaderCommit) && 0 < Min(leaderCommit, lastNew)
    ensures var c := Min(leaderCommit, lastNew);
            A.Chosen(s.ids, s.h, t, i) && t <= term && c <= i && Agree(log, A.LogOf(s.h, t), c)
  {
    var c := Min(leaderCommit, lastNew);
    t, i :| A.Chosen(s.ids, s.h, t, i) && t <= term && leaderCommit <= i && Agree(full, A.LogOf(s.h, t), leaderCommit);
    AgreeShorter(full, A.LogOf(s.h, t), leaderCommit, c);
    AgreeShorter(log, full, lastNew, c);
  }

  /** The follower commit rule never goes past what the request confirmed. */
  lemma FollowerCommitOk(cfg: Config, s: A.State, s1: A.State, n: NodeId, sv: Server, leaderCommit: nat, lastNew: nat)
      returns (s': A.State)
    requires Path(s, s1, n) && Mirrors(cfg, s1, n, sv)
    requires Agree(sv.log, A.LogOf(s1.h, sv.term), lastNew)
    requires CommitKnownIn(s1, A.LogOf(s1.h, sv.term), sv.term, leaderCommit)
    ensures Path(s, s', n) && Mirrors(cfg, s', n, FollowerCommit(cfg.decode, sv, leaderCommit, lastNew)) && s'.h == s1.h
  {
    s' := s1;
    if Min(leaderCommit, lastNew) > sv.commit {
      var t, i := KnownShorter(s1, sv.log, A.LogOf(s1.h, sv.term), sv.term, leaderCommit, lastNew);
      s' := CommitAndApply(cfg, s, s1, n, sv, t, i, Min(leaderCommit, lastNew));
    }
  }

  /** Raft section 5.3: the consistency check makes the log agree with the leader's up to prev. */
  lemma PrevAgrees(cfg: Config, s: A.State, n: NodeId, sv: Server, from: NodeId, req: Request)
    requires Mirrors(cfg, s, n, sv) && sv.role != Candidate && sv.term == req.term
    requires req.AppendReq? && AppendReqOk(cfg.ids, s.h, from, req) && Consistent(sv.log, req.prevIndex, req.prevTerm)
    ensures SliceFits(s, sv, req.prevIndex, req.entries)
    ensures CommitKnownIn(s, A.LogOf(s.h, sv.term), sv.term, req.commit)
  {
    LogsTell(s, n, req.term);
    if req.prevIndex > 0 {
      assert TellsAt(sv.log, A.LogOf(s.h, req.term), req.prevIndex - 1);
    }
  }

  /** The accepted entries are confirmed, and the commit index follows. */
  lemma FollowOk(cfg: Config, s: A.State, s1: A.State, n: NodeId, sv: Server, leaderCommit: nat, last: nat) returns (s': A.State)
    requires Path(s, s1, n) && Mirrors(cfg, s1, n, sv) && sv.term in s1.h.reigns
    requires Agree(sv.log, A.LogOf(s1.h, sv.term), last)
    requires CommitKnownIn(s1, A.LogOf(s1.h, sv.term), sv.term, leaderCommit)
    ensures Path(s, s', n) && Mirrors(cfg, s', n, FollowerCommit(cfg.decode, sv, leaderCommit, last))
    ensures A.AckOf(s'.h, sv.term, n) >= last
  {
    s' := ConfirmOk(cfg, s, s1, n, sv, last);
    CommitKnownGrows(cfg.ids, s1.h, s'.h, A.LogOf(s1.h, sv.term), sv.term, sv.term, leaderCommit);
    s' := FollowerCommitOk(cfg, s, s', n, sv, leaderCommit, last);
  }

  /** After the merge: confirmed and committed if it worked, left as it is if not. */
  lemma MergedOk(cfg: Config, s: A.State, s1: A.State, n: NodeId, sv: Server, ok: bool, leaderCommit: nat, last: nat)
      returns (s': A.State)
    requires Path(s, s1, n) && Mirrors(cfg, s1, n, sv) && sv.term in s1.h.reigns
    requires ok ==> Agree(sv.log, A.LogOf(s1.h, sv.term), last)
    requires CommitKnownIn(s1, A.LogOf(s1.h, sv.term), sv.term, leaderCommit)
    ensures Path(s, s', n) && (ok ==> A.AckOf(s'.h, sv.term, n) >= last)
    ensures Mirrors(cfg, s', n, if ok then FollowerCommit(cfg.decode, sv, leaderCommit, last) else sv)
  {
    s' := s1;
    if ok { s' := FollowOk(cfg, s, s1, n, sv, leaderCommit, last); }
  }

  /** The server after a merge that worked or failed. */
  function FollowMerged(decode: Decoder, sv: Server, log: Log, ok: bool, leaderCommit: nat, last: nat): Server {
    if ok then FollowerCommit(decode, sv.(log := log), leaderCommit, last) else sv.(log := log)
  }

  lemma MergeThenFollow(cfg: Config, s: A.State, s1: A.State, n: NodeId, sv: Server, prev: nat, entries: Log, last: nat,
                        leaderCommit: nat, fault: Fault)
      returns (s': A.State, log: Log, ok: bool)
    requires Path(s, s1, n) && Mirrors(cfg, s1, n, sv) && SliceFits(s1, sv, prev, entries) && last == prev + |entries|
    requires CommitKnownIn(s1, A.LogOf(s1.h, sv.term), sv.term, leaderCommit)
    ensures log == Merge(sv.log, prev, entries, fault).0 && ok == Merge(sv.log, prev, entries, fault).2
    ensures Path(s, s', n) && Mirrors(cfg, s', n, FollowMerged(cfg.decode, sv, log, ok, leaderCommit, last))
    ensures ok ==> A.AckOf(s'.h, sv.term, n) >= last
  {
    var m := Merge(sv.log, prev, entries, fault);
    log, ok := m.0, m.2;
    s' := MergeOk(cfg, s, s1, n, sv, prev, entries, last, fault);
    s' := MergedOk(cfg, s, s', n, sv.(log := log), ok, leaderCommit, last);
  }

  /** What an accepted AppendEntries request does after the consistency check. */
  lemma AcceptOk(cfg: Config, s: A.State, s1: A.State, n: NodeId, sv: Server, req: Request, fault: Fault) returns (s': A.State)
    requires Path(s, s1, n) && Mirrors(cfg, s1, n, sv) && req.AppendReq?
    requires SliceFits(s1, sv, req.prevIndex, req.entries)
    requires CommitKnownIn(s1, A.LogOf(s1.h, sv.term), sv.term, req.commit)
    ensures var r := Accept(cfg.decode, sv, req, fault);
            Path(s, s', n) && Mirrors(cfg, s', n, r.server) &&
            (r.reply.value.success ==> A.AckOf(s'.h, sv.term, n) >= LastSent(req))
  {
    var log, ok;
    s', log, ok := MergeThenFollow(cfg, s, s1, n, sv, req.prevIndex, req.entries, LastSent(req), req.commit, fault);
    AcceptIs(cfg.decode, sv, req, fault);
    MirrorsEqual(cfg, s', n, FollowMerged(cfg.decode, sv, log, ok, req.commit, LastSent(req)), Accept(cfg.decode, sv, req, fault).server);
  }

  /** An accepted request is its merge and then, if that worked, the follower's commit rule. */
  lemma AcceptIs(decode: Decoder, sv: Server, req: Request, fault: Fault)
    requires req.AppendReq?
    ensures var r, m := Accept(decode, sv, req, fault), Merge(sv.log, req.prevIndex, req.entries, fault);
            r.server == FollowMerged(decode, sv, m.0, m.2, req.commit, LastSent(req)) && r.reply == Some(AppendRep(sv.term, m.2))
  {
  }

  /** Raft section 5.3: handling an AppendEntries request. */
  lemma AppendRequestOk(cfg: Config, s: A.State, n: NodeId, sv: Server, from: NodeId, req: Request, now: nat, fault: Fault)
      returns (s': A.State)
    requires Mirrors(cfg, s, n, sv) && req.AppendReq? && AppendReqOk(cfg.ids, s.h, from, req)
    ensures var r := OnAppendRequest(cfg.decode, sv, from, req, now, fault);
            Path(s, s', n) && Mirrors(cfg, s', n, r.server) &&
            (r.reply.value.success ==> A.AckOf(s'.h, req.term, n) >= LastSent(req))
  {
    if req.term < sv.term {
      s' := s;
      Stay(s, n);
    } else {
      s' := HeedOk(cfg, s, n, sv, from, req.term, now);
      var sv1 := Heed(sv, from, req.term, now);
      if Consistent(sv1.log, req.prevIndex, req.prevTerm) {
        PrevAgrees(cfg, s', n, sv1, from, req);
        s' := AcceptOk(cfg, s, s', n, sv1, req, fault);
      }
    }
  }

  /** The leader's bookkeeping for one peer moves by what the peer's answer says. */
  lemma ConfirmedOk(cfg: Config, s: A.State, n: NodeId, sv: Server, peer: NodeId, upTo: nat)
    requires Mirrors(cfg, s, n, sv) && sv.role == Leader && peer in Peers(cfg, n)
    requires upTo <= Min(|sv.log|, A.AckOf(s.h, sv.term, peer))
    ensures Mirrors(cfg, s, n, Confirmed(sv, peer, upTo))
  {
    var ls, ls' := sv.leader.value, Confirmed(sv, peer, upTo).leader.value;
    forall p | p in Peers(cfg, n) ensures PeerOk(s.h, sv.term, |sv.log|, ls', p) {
      assert PeerOk(s.h, sv.term, |sv.log|, ls, p);
    }
  }

  lemma BackedOffOk(cfg: Config, s: A.State, n: NodeId, sv: Server, peer: NodeId)
    requires Mirrors(cfg, s, n, sv) && sv.role == Leader && peer in Peers(cfg, n)
    requires sv.leader.value.next[peer] > 1
    ensures Mirrors(cfg, s, n, BackedOff(sv, peer))
  {
    var ls, ls' := sv.leader.value, BackedOff(sv, peer).leader.value;
    forall p | p in Peers(cfg, n) ensures PeerOk(s.h, sv.term, |sv.log|, ls', p) {
      assert PeerOk(s.h, sv.term, |sv.log|, ls, p);
    }
  }

  /** A leader's own requests never reach past its log. */
  lemma OwnSlice(cfg: Config, s: A.State, n: NodeId, sv: Server, req: Request)
    requires Mirrors(cfg, s, n, sv) && sv.role == Leader
    requires req.AppendReq? && AppendReqOk(cfg.ids, s.h, n, req) && sv.term == req.term
    ensures LastSent(req) <= |sv.log|
  {
    LeaderFact(s, n);
  }

  lemma AppendSuccessOk(cfg: Config, s: A.State, n: NodeId, sv: Server, peer: NodeId, upTo: nat) returns (s': A.State)
    requires Mirrors(cfg, s, n, sv) && peer in Peers(cfg, n) && sv.role == Leader
    requires upTo <= |sv.log| && upTo <= A.AckOf(s.h, sv.term, peer)
    ensures Path(s, s', n)
    ensures Mirrors(cfg, s', n, UpdateCommit(cfg.decode, Confirmed(sv, peer, upTo), Peers(cfg, n)))
  {
    ConfirmedOk(cfg, s, n, sv, peer, upTo);
    Stay(s, n);
    var sv1 := Confirmed(sv, peer, upTo);
    s' := UpdateCommitOk(cfg, s, s, n, sv1);
  }

  lemma AppendFailureOk(cfg: Config, s: A.State, n: NodeId, sv: Server, peer: NodeId, req: Request, rep: Reply)
      returns (s': A.State)
    requires Mirrors(cfg, s, n, sv) && peer in Peers(cfg, n) && req.AppendReq? && rep.AppendRep?
    requires rep.term > sv.term || sv.role != Leader || sv.term != req.term || !rep.success
    ensures Path(s, s', n)
    ensures Mirrors(cfg, s', n, OnAppendReply(cfg.decode, sv, Peers(cfg, n), peer, req, rep).server)
  {
    s' := CheckTermOk(cfg, s, n, sv, rep.term);
    if rep.term <= sv.term {
      s' := s;
      Stay(s, n);
      if sv.role == Leader && sv.term == req.term && sv.leader.value.next[peer] > 1 {
        BackedOffOk(cfg, s, n, sv, peer);
      }
    }
  }

  lemma SuccessIs(cfg: Config, n: NodeId, sv: Server, peer: NodeId, req: Request, rep: Reply)
    requires sv.leader.Some? && peer in sv.leader.value.next && req.AppendReq? && rep.AppendRep?
    requires rep.term <= sv.term && sv.role == Leader && sv.term == req.term && rep.success
    ensures OnAppendReply(cfg.decode, sv, Peers(cfg, n), peer, req, rep).server ==
            UpdateCommit(cfg.decode, Confirmed(sv, peer, LastSent(req)), Peers(cfg, n))
  {
  }

  lemma AppendSuccessReplyOk(cfg: Config, s: A.State, n: NodeId, sv: Server, peer: NodeId, req: Request, rep: Reply)
      returns (s': A.State)
    requires Mirrors(cfg, s, n, sv) && peer in Peers(cfg, n) && req.AppendReq? && rep.AppendRep?
    requires rep.term <= sv.term && sv.role == Leader && sv.term == req.term && rep.success
    requires LastSent(req) <= Min(|sv.log|, A.AckOf(s.h, sv.term, peer))
    ensures Path(s, s', n)
    ensures Mirrors(cfg, s', n, OnAppendReply(cfg.decode, sv, Peers(cfg, n), peer, req, rep).server)
  {
    var r := UpdateCommit(cfg.decode, Confirmed(sv, peer, LastSent(req)), Peers(cfg, n));
    s' := AppendSuccessOk(cfg, s, n, sv, peer, LastSent(req));
    BooksFact(cfg, s, n, sv, peer);
    SuccessIs(cfg, n, sv, peer, req, rep);
    MirrorsEqual(cfg, s', n, r, OnAppendReply(cfg.decode, sv, Peers(cfg, n), peer, req, rep).server);
  }

  lemma BooksFact(cfg: Config, s: A.State, n: NodeId, sv: Server, peer: NodeId)
    requires Mirrors(cfg, s, n, sv) && sv.role == Leader && peer in Peers(cfg, n)
    ensures sv.leader.Some? && peer in sv.leader.value.next
  {
  }

  lemma MirrorsEqual(cfg: Config, s: A.State, n: NodeId, a: Server, b: Server)
    requires Mirrors(cfg, s, n, a) && a == b
    ensures Mirrors(cfg, s, n, b)
  {
  }

  /** Raft section 5.3: handling the answer to an AppendEntries request, however late. */
  lemma AppendReplyOk(cfg: Config, s: A.State, n: NodeId, sv: Server, peer: NodeId, req: Request, rep: Reply)
      returns (s': A.State)
    requires Mirrors(cfg, s, n, sv) && peer in Peers(cfg, n) && req.AppendReq? && rep.AppendRep?
    requires sv.role == Leader && sv.term == req.term && rep.success ==>
               LastSent(req) <= Min(|sv.log|, A.AckOf(s.h, sv.term, peer))
    ensures Path(s, s', n)
    ensures Mirrors(cfg, s', n, OnAppendReply(cfg.decode, sv, Peers(cfg, n), peer, req, rep).server)
  {
    if rep.term > sv.term || sv.role != Leader || sv.term != req.term || !rep.success {
      s' := AppendFailureOk(cfg, s, n, sv, peer, req, rep);
    } else {
      s' := AppendSuccessReplyOk(cfg, s, n, sv, peer, req, rep);
    }
  }
}
