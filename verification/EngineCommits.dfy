/** In every state of every run whatever can be committed is committed, whatever is
    committed is applied, and whoever can be told has been told. */
module EngineCommits {
  import opened RaftTypes
  import opened Engine
  import opened EngineCluster
  import opened EngineRelation
  import opened EngineSteps
  import opened EngineSafety
  import opened EngineGuarantees
  import opened EngineLoops
  import A = AbstractRaft

  // ---------- What a node has left to do ----------

  /** No index above the commit index may be committed by this leader. */
  ghost predicate NoneLeft(s: Server, peers: set<NodeId>) {
    s.role == Leader ==> forall k: nat {:trigger Committable(s, peers, k)} :: k > s.commit ==> !Committable(s, peers, k)
  }

  /** A client still waiting at an applied index sent something that does not decode. */
  predicate WaitsInVain(decode: Decoder, log: Log, applied: nat, pending: map<nat, nat>, i: nat) {
    i in pending && 0 < i <= applied && i <= |log| ==> DecodeEntry(decode, log[i - 1]).None?
  }

  ghost predicate AllTold(decode: Decoder, s: Server) {
    forall i {:trigger WaitsInVain(decode, s.log, s.applied, s.pending, i)} :: WaitsInVain(decode, s.log, s.applied, s.pending, i)
  }

  ghost predicate Tidy(decode: Decoder, s: Server, peers: set<NodeId>) {
    s.applied == s.commit && NoneLeft(s, peers) && AllTold(decode, s)
  }

  predicate AckedInLog(s: Server, p: NodeId) {
    s.leader.Some? && p in s.leader.value.acked ==> s.leader.value.acked[p] <= |s.log|
  }

  /** What the refinement knows about any node of a run. */
  ghost predicate Fit(s: Server, peers: set<NodeId>) {
    && s.commit <= |s.log|
    && (s.role == Leader <==> s.leader.Some?)
    && (s.role != Leader ==> s.pending == map[])
    && (s.leader.Some? ==> s.leader.value.next.Keys == peers && s.leader.value.acked.Keys == peers)
    && forall p {:trigger AckedInLog(s, p)} :: AckedInLog(s, p)
  }

  lemma FitAt(cfg: Config, run: seq<Cluster>, i: nat, n: NodeId)
    requires IsRun(cfg, run) && i < |run| && n in cfg.ids
    ensures n in run[i].servers && Fit(run[i].servers[n], Peers(cfg, n))
  {
    var abs := EngineRefinesRaft(cfg, run);
    MirrorsAt(cfg, run, abs, i, n);
    var s := run[i].servers[n];
    if s.role != Leader {
      forall k ensures k !in s.pending { assert Waits(s.role, s.term, s.log, s.epoch, s.pending, s.proposals, k); }
      assert s.pending == map[];
    }
    forall p ensures AckedInLog(s, p) {
      if s.leader.Some? && p in s.leader.value.acked { assert PeerOk(abs[i].h, s.term, |s.log|, s.leader.value, p); }
    }
  }

  // ---------- Applying and committing leave nothing behind ----------

  lemma {:induction false} ApplyTells(decode: Decoder, s: Server)
    requires AllTold(decode, s)
    ensures AllTold(decode, Apply(decode, s))
    decreases s.commit - s.applied
  {
    if s.applied < s.commit {
      var s1 := ApplyNext(decode, s);
      forall i ensures WaitsInVain(decode, s1.log, s1.applied, s1.pending, i) {
        assert WaitsInVain(decode, s.log, s.applied, s.pending, i);
      }
      ApplyTells(decode, s1);
    }
  }

  lemma ApplyTidy(decode: Decoder, s: Server, peers: set<NodeId>)
    requires AllTold(decode, s) && s.applied <= s.commit && NoneLeft(s, peers)
    ensures Tidy(decode, Apply(decode, s), peers)
  {
    ApplyTells(decode, s);
    ApplyTouches(decode, s);
    var r := Apply(decode, s);
    forall k: nat | r.role == Leader && k > r.commit ensures !Committable(r, peers, k) { assert !Committable(s, peers, k); }
  }

  /** After the scan nothing is left to commit. */
  lemma UpdateTidy(decode: Decoder, s: Server, peers: set<NodeId>)
    requires AllTold(decode, s) && s.applied == s.commit && s.role == Leader && s.leader.Some?
    ensures Tidy(decode, UpdateCommit(decode, s, peers), peers)
  {
    var c := ScanCommit(s, peers, |s.log|);
    ScanFinds(s, peers, |s.log|);
    var s1 := s.(commit := c);
    forall k: nat | k > c ensures !Committable(s1, peers, k) { assert !Committable(s, peers, k); }
    assert forall i :: WaitsInVain(decode, s1.log, s1.applied, s1.pending, i) == WaitsInVain(decode, s.log, s.applied, s.pending, i);
    ApplyTidy(decode, s1, peers);
  }

  /** A node that is no leader and has nobody waiting has only to have applied what it committed. */
  lemma IdleTidy(decode: Decoder, s: Server, peers: set<NodeId>)
    requires s.role != Leader && s.pending == map[] && s.applied == s.commit
    ensures Tidy(decode, s, peers)
  {
    forall i ensures WaitsInVain(decode, s.log, s.applied, s.pending, i) {}
  }

  lemma CheckTermTidy(decode: Decoder, s: Server, peers: set<NodeId>, t: nat)
    requires Tidy(decode, s, peers)
    ensures Tidy(decode, CheckTerm(s, t), peers)
  {
    if t > s.term { IdleTidy(decode, CheckTerm(s, t), peers); }
  }

  lemma LeadTidy(decode: Decoder, s: Server, peers: set<NodeId>, fault: Fault)
    requires s.applied == s.commit && s.pending == map[] && s.role == Candidate
    ensures Tidy(decode, BecomeLeader(decode, s, peers, fault).server, peers)
  {
    var s1 := LeadWithNoOp(s, peers, fault);
    forall i ensures WaitsInVain(decode, s1.log, s1.applied, s1.pending, i) {}
    UpdateTidy(decode, s1, peers);
  }

  lemma CampaignTidy(decode: Decoder, s: Server, me: NodeId, peers: set<NodeId>, fault: Fault)
    requires s.applied == s.commit && s.pending == map[]
    ensures Tidy(decode, CampaignOf(decode, s, me, peers, fault).server, peers)
  {
    var s1 := s.(term := s.term + 1, role := Candidate, vote := Some(me), leader := None, votes := 1);
    IdleTidy(decode, s1, peers);
    LeadTidy(decode, s1, peers, fault);
  }

  // ---------- Proposals ----------

  /** Nobody has acknowledged an index beyond the leader's log. */
  lemma NewestUnheld(s: Server, peers: set<NodeId>, k: nat)
    requires Fit(s, peers) && s.leader.Some? && k > |s.log|
    ensures Holders(s.leader.value.acked, k) == {}
  {
    forall p | p in s.leader.value.acked ensures s.leader.value.acked[p] < k { assert AckedInLog(s, p); }
  }

  lemma LongerTidy(decode: Decoder, s: Server, peers: set<NodeId>, e: Entry)
    requires Tidy(decode, s, peers) && Fit(s, peers) && s.role == Leader
    ensures AllTold(decode, s.(log := s.log + [e])) && (peers != {} ==> NoneLeft(s.(log := s.log + [e]), peers))
  {
    var s1 := s.(log := s.log + [e]);
    forall i ensures WaitsInVain(decode, s1.log, s1.applied, s1.pending, i) {
      assert WaitsInVain(decode, s.log, s.applied, s.pending, i);
    }
    if peers != {} {
      forall k: nat | k > s1.commit ensures !Committable(s1, peers, k) {
        assert !Committable(s, peers, k);
        if k > |s.log| { NewestUnheld(s, peers, k); }
      }
    }
  }

  lemma OpenTidy(decode: Decoder, s: Server, peers: set<NodeId>, e: Entry, command: seq<byte>, answer: Option<bool>)
    requires Tidy(decode, s, peers) && (answer == None ==> s.applied < |s.log|)
    ensures Tidy(decode, OpenChannel(s, e, command, answer), peers)
  {
    var r := OpenChannel(s, e, command, answer);
    forall i ensures WaitsInVain(decode, r.log, r.applied, r.pending, i) {
      assert WaitsInVain(decode, s.log, s.applied, s.pending, i);
    }
    forall k: nat | r.role == Leader && k > r.commit ensures !Committable(r, peers, k) { assert !Committable(s, peers, k); }
  }

  lemma AloneTidy(decode: Decoder, s: Server, e: Entry)
    requires Tidy(decode, s, {}) && Fit(s, {}) && s.role == Leader
    ensures var s1 := s.(log := s.log + [e]); Tidy(decode, Apply(decode, s1.(commit := |s1.log|)), {})
  {
    LongerTidy(decode, s, {}, e);
    var s1 := s.(log := s.log + [e]);
    var s2 := s1.(commit := |s1.log|);
    assert forall i :: WaitsInVain(decode, s2.log, s2.applied, s2.pending, i) == WaitsInVain(decode, s1.log, s1.applied, s1.pending, i);
    ApplyTidy(decode, s2, {});
  }

  lemma ProposeTidy(decode: Decoder, s: Server, peers: set<NodeId>, command: seq<byte>, fault: Fault)
    requires Tidy(decode, s, peers) && Fit(s, peers)
    ensures Tidy(decode, Propose(decode, s, peers, command, fault).server, peers)
  {
    if s.role == Leader && !fault.AppendFails? {
      var e := OwnEntry(s, command);
      var s1 := s.(log := s.log + [e]);
      if peers == {} {
        AloneTidy(decode, s, e);
        OpenTidy(decode, Apply(decode, s1.(commit := |s1.log|)), peers, e, command, Some(true));
      } else {
        LongerTidy(decode, s, peers, e);
        OpenTidy(decode, s1, peers, e, command, None);
      }
    }
  }

  // ---------- Requests and answers ----------

  lemma AcceptTidy(decode: Decoder, s: Server, peers: set<NodeId>, req: Request, fault: Fault)
    requires req.AppendReq? && s.role != Leader && s.pending == map[] && s.applied == s.commit
    ensures Tidy(decode, Accept(decode, s, req, fault).server, peers)
  {
    var m := Merge(s.log, req.prevIndex, req.entries, fault);
    var s1 := s.(log := m.0);
    IdleTidy(decode, s1, peers);
    var c := Min(req.commit, LastSent(req));
    if m.2 && c > s.commit {
      var s2 := s1.(commit := c);
      forall i ensures WaitsInVain(decode, s2.log, s2.applied, s2.pending, i) {}
      ApplyTidy(decode, s2, peers);
    }
  }

  lemma AppendTidy(decode: Decoder, s: Server, peers: set<NodeId>, from: NodeId, req: Request, now: nat, fault: Fault)
    requires req.AppendReq? && Tidy(decode, s, peers) && Fit(s, peers) && (s.role == Leader ==> req.term != s.term)
    ensures Tidy(decode, OnAppendRequest(decode, s, from, req, now, fault).server, peers)
  {
    if req.term >= s.term {
      var s1 := Heed(s, from, req.term, now);
      IdleTidy(decode, s1, peers);
      AcceptTidy(decode, s1, peers, req, fault);
    }
  }

  /** The scan after a confirmation starts from what was tidy before it. */
  lemma ConfirmTidy(decode: Decoder, s: Server, peers: set<NodeId>, peer: NodeId, upTo: nat)
    requires Tidy(decode, s, peers) && s.role == Leader && s.leader.Some?
    ensures Tidy(decode, UpdateCommit(decode, Confirmed(s, peer, upTo), peers), peers)
  {
    var s1 := Confirmed(s, peer, upTo);
    assert forall i :: WaitsInVain(decode, s1.log, s1.applied, s1.pending, i) == WaitsInVain(decode, s.log, s.applied, s.pending, i);
    UpdateTidy(decode, s1, peers);
  }

  lemma BackedOffTidy(decode: Decoder, s: Server, peers: set<NodeId>, peer: NodeId)
    requires Tidy(decode, s, peers) && s.leader.Some? && peer in s.leader.value.next && s.leader.value.next[peer] > 1
    ensures Tidy(decode, BackedOff(s, peer), peers)
  {
    var r := BackedOff(s, peer);
    forall i ensures WaitsInVain(decode, r.log, r.applied, r.pending, i) {
      assert WaitsInVain(decode, s.log, s.applied, s.pending, i);
    }
    forall k: nat | r.role == Leader && k > r.commit ensures !Committable(r, peers, k) { assert !Committable(s, peers, k); }
  }

  lemma ReplyTidy(decode: Decoder, s: Server, peers: set<NodeId>, peer: NodeId, req: Request, rep: Reply)
    requires req.AppendReq? && rep.AppendRep? && Tidy(decode, s, peers)
    ensures Tidy(decode, OnAppendReply(decode, s, peers, peer, req, rep).server, peers)
  {
    CheckTermTidy(decode, s, peers, rep.term);
    if s.role == Leader && s.leader.Some? && peer in s.leader.value.next {
      ConfirmTidy(decode, s, peers, peer, LastSent(req));
      if s.leader.value.next[peer] > 1 { BackedOffTidy(decode, s, peers, peer); }
    }
  }

  lemma CountedTidy(decode: Decoder, s: Server, peers: set<NodeId>)
    requires Fit(s, peers) && s.role == Candidate && s.applied == s.commit
    ensures Tidy(decode, Counted(s), peers)
  {
    IdleTidy(decode, Counted(s), peers);
  }

  lemma VoteReplyTidy(decode: Decoder, s: Server, peers: set<NodeId>, asked: nat, rep: Reply, fault: Fault)
    requires rep.VoteRep? && Tidy(decode, s, peers) && Fit(s, peers)
    ensures Tidy(decode, OnVoteReply(decode, s, peers, asked, rep, fault).server, peers)
  {
    CheckTermTidy(decode, s, peers, rep.term);
    if s.role == Candidate {
      CountedTidy(decode, s, peers);
      LeadTidy(decode, Counted(s), peers, fault);
    }
  }

  lemma PreVoteReplyTidy(decode: Decoder, s: Server, me: NodeId, peers: set<NodeId>, r: Round, rep: Reply, fault: Fault)
    requires rep.VoteRep? && Tidy(decode, s, peers) && Fit(s, peers)
    ensures Tidy(decode, OnPreVoteReply(decode, s, me, peers, r, rep, fault).0.server, peers)
  {
    CheckTermTidy(decode, s, peers, rep.term);
    if s.role != Leader { CampaignTidy(decode, s, me, peers, fault); }
  }

  lemma VoteTidy(decode: Decoder, s: Server, peers: set<NodeId>, candidate: NodeId, req: Request)
    requires req.VoteReq? && Tidy(decode, s, peers)
    ensures Tidy(decode, OnVoteRequest(s, candidate, req).server, peers)
  {
    CheckTermTidy(decode, s, peers, req.term);
    var s1, r := CheckTerm(s, req.term), OnVoteRequest(s, candidate, req).server;
    forall i ensures WaitsInVain(decode, r.log, r.applied, r.pending, i) {
      assert WaitsInVain(decode, s1.log, s1.applied, s1.pending, i);
      assert WaitsInVain(decode, s.log, s.applied, s.pending, i);
    }
    forall k: nat | r.role == Leader && k > r.commit ensures !Committable(r, peers, k) {
      assert !Committable(s, peers, k);
    }
  }

  // ---------- Every event ----------

  lemma ServeTidy(cfg: Config, c: Cluster, e: Event)
    requires Possible(cfg, c, e) && e.Serve?
    requires var n, s := Actor(c, e), c.servers[Actor(c, e)];
             Tidy(cfg.decode, s, Peers(cfg, n)) && Fit(s, Peers(cfg, n)) &&
             (c.calls[e.id].req.AppendReq? && s.role == Leader ==> c.calls[e.id].req.term != s.term)
    ensures Tidy(cfg.decode, Handled(cfg, c, e).server, Peers(cfg, Actor(c, e)))
  {
    var n, call := Actor(c, e), c.calls[e.id];
    var s, ps := c.servers[n], Peers(cfg, n);
    if call.req.VoteReq? { VoteTidy(cfg.decode, s, ps, call.from, call.req); }
    if call.req.AppendReq? { AppendTidy(cfg.decode, s, ps, call.from, call.req, c.now, e.fault); }
  }

  lemma ReadTidy(cfg: Config, c: Cluster, e: Event)
    requires Possible(cfg, c, e) && e.Read?
    requires var n, s := Actor(c, e), c.servers[Actor(c, e)]; Tidy(cfg.decode, s, Peers(cfg, n)) && Fit(s, Peers(cfg, n))
    ensures Tidy(cfg.decode, Handled(cfg, c, e).server, Peers(cfg, Actor(c, e)))
  {
    var n, call := Actor(c, e), c.calls[e.id];
    var s, ps := c.servers[n], Peers(cfg, n);
    if call.req.AppendReq? { ReplyTidy(cfg.decode, s, ps, call.to, call.req, call.reply.value); }
    else if e.id.ForPreVote? { PreVoteReplyTidy(cfg.decode, s, n, ps, c.rounds[e.id.round], call.reply.value, e.fault); }
    else { VoteReplyTidy(cfg.decode, s, ps, call.req.term, call.reply.value, e.fault); }
  }

  lemma HandlerTidy(cfg: Config, c: Cluster, e: Event)
    requires Possible(cfg, c, e)
    requires var n, s := Actor(c, e), c.servers[Actor(c, e)];
             Tidy(cfg.decode, s, Peers(cfg, n)) && Fit(s, Peers(cfg, n)) &&
             (e.Serve? && c.calls[e.id].req.AppendReq? && s.role == Leader ==> c.calls[e.id].req.term != s.term)
    ensures Tidy(cfg.decode, Handled(cfg, c, e).server, Peers(cfg, Actor(c, e)))
  {
    var n := Actor(c, e);
    match e
    case Timeout(_, fault) => if Peers(cfg, n) == {} { CampaignTidy(cfg.decode, c.servers[n], n, {}, fault); }
    case Heartbeat(_) =>
    case Client(_, command, fault) => ProposeTidy(cfg.decode, c.servers[n], Peers(cfg, n), command, fault);
    case Serve(_, _) => ServeTidy(cfg, c, e);
    case Read(_, _) => ReadTidy(cfg, c, e);
  }

  lemma RecoverTidy(cfg: Config, n: NodeId, s: Server, d: Durable)
    ensures Tidy(cfg.decode, Recover(s, d), Peers(cfg, n))
  {
    IdleTidy(cfg.decode, Recover(s, d), Peers(cfg, n));
  }

  lemma GiveUpTidy(decode: Decoder, s: Server, peers: set<NodeId>, i: nat)
    requires Tidy(decode, s, peers)
    ensures Tidy(decode, s.(pending := s.pending - {i}), peers)
  {
    var r := s.(pending := s.pending - {i});
    forall k ensures WaitsInVain(decode, r.log, r.applied, r.pending, k) {
      assert WaitsInVain(decode, s.log, s.applied, s.pending, k);
    }
    forall k: nat | r.role == Leader && k > r.commit ensures !Committable(r, peers, k) { assert !Committable(s, peers, k); }
  }

  lemma StepTidy(cfg: Config, run: seq<Cluster>, i: nat, n: NodeId)
    requires IsRun(cfg, run) && i + 1 < |run| && n in cfg.ids && n in run[i].servers
    requires Tidy(cfg.decode, run[i].servers[n], Peers(cfg, n))
    ensures n in run[i + 1].servers && Tidy(cfg.decode, run[i + 1].servers[n], Peers(cfg, n))
  {
    var c := run[i];
    var e := EventAt(cfg, run, i);
    FitAt(cfg, run, i, n);
    FitAt(cfg, run, i + 1, n);
    if Handles(e) {
      if n == Actor(c, e) {
        if e.Serve? && c.calls[e.id].req.AppendReq? && c.servers[n].role == Leader { LeaderNeverFollowsItself(cfg, run, i, e.id); }
        HandlerTidy(cfg, c, e);
      }
    } else if e.GiveUp? {
      GiveUpTidy(cfg.decode, c.servers[n], Peers(cfg, n), e.index);
    } else if e.Crash? {
      RecoverTidy(cfg, n, c.servers[n], DurableOf(c.servers[n]));
    } else if e.CrashDuring? {
      RecoverTidy(cfg, n, c.servers[n], Replay(DurableOf(c.servers[n]), Handled(cfg, c, e.during).writes[..e.done]));
    }
  }

  lemma {:induction false} RunTidy(cfg: Config, run: seq<Cluster>, i: nat, n: NodeId)
    requires IsRun(cfg, run) && i < |run| && n in cfg.ids
    ensures n in run[i].servers && Tidy(cfg.decode, run[i].servers[n], Peers(cfg, n))
    decreases i
  {
    if i == 0 {
      IdleTidy(cfg.decode, run[0].servers[n], Peers(cfg, n));
    } else {
      RunTidy(cfg, run, i - 1, n);
      StepTidy(cfg, run, i - 1, n);
    }
  }

  // ---------- What every state of every run has ----------

  /** Whatever is committed is applied: outside its handlers no node lags behind its own
      commit index, and its table is the fold of everything it has committed. */
  lemma CommittedIsApplied(cfg: Config, run: seq<Cluster>, i: nat, n: NodeId)
    requires IsRun(cfg, run) && i < |run| && n in cfg.ids
    ensures n in run[i].servers
    ensures var s := run[i].servers[n];
            s.applied == s.commit <= |s.log| && s.table == Fold(cfg.decode, s.log[..s.commit])
  {
    RunTidy(cfg, run, i, n);
    TableIsFold(cfg, run, i, n);
  }

  /** The peers this leader knows to hold its log up to index k. */
  function KnownToHold(peers: set<NodeId>, s: Server, k: nat): set<NodeId> {
    set p | p in peers && s.leader.Some? && p in s.leader.value.acked && s.leader.value.acked[p] >= k
  }

  /** A leader never sits on an entry it may commit: whatever of its own term a majority,
      the leader included, is known to hold is at or below its commit index. */
  lemma NothingLeftToCommit(cfg: Config, run: seq<Cluster>, i: nat, n: NodeId, k: nat)
    requires IsRun(cfg, run) && i < |run| && n in cfg.ids
    requires n in run[i].servers && run[i].servers[n].role == Leader && 0 < k <= |run[i].servers[n].log|
    ensures var s := run[i].servers[n];
            s.leader.Some? && (s.log[k - 1].term == s.term && 2 * (1 + |KnownToHold(Peers(cfg, n), s, k)|) > |cfg.ids| ==> k <= s.commit)
  {
    RunTidy(cfg, run, i, n);
    FitAt(cfg, run, i, n);
    var s := run[i].servers[n];
    assert !Committable(s, Peers(cfg, n), k) || k <= s.commit;
    assert Holders(s.leader.value.acked, k) == KnownToHold(Peers(cfg, n), s, k);
    assert cfg.ids == Peers(cfg, n) + {n};
  }

  /** The only clients still waiting at an applied index are those whose command does not decode. */
  lemma OnlyUndecodableWait(cfg: Config, run: seq<Cluster>, i: nat, n: NodeId, index: nat)
    requires IsRun(cfg, run) && i < |run| && n in cfg.ids
    requires n in run[i].servers && index in run[i].servers[n].pending && index <= run[i].servers[n].applied
    ensures var s := run[i].servers[n];
            0 < index <= |s.log| && var command := CommandOf(s.log[index - 1]); command == [] || cfg.decode(command) == None
  {
    RunTidy(cfg, run, i, n);
    WaitersAreLeaders(cfg, run, i, n, index);
    var s := run[i].servers[n];
    assert WaitsInVain(cfg.decode, s.log, s.applied, s.pending, index);
  }
}
