/** Crashes: the storage transactions of every handler, and a stop between any two of them. */
module EngineCrash {
  import opened RaftTypes
  import opened Engine
  import opened EngineCluster
  import opened EngineRelation
  import opened EngineSteps
  import opened EngineRefinement
  import A = AbstractRaft
  import opened AbstractInvariants
  import opened AbstractRuns

  // ---------- What is on disk ----------

  lemma {:induction false} ReplayJoin(d: Durable, ws: seq<Write>, more: seq<Write>)
    ensures Replay(d, ws + more) == Replay(Replay(d, ws), more)
    decreases |more|
  {
    if more == [] {
      assert ws + more == ws;
    } else {
      ReplayJoin(d, ws, more[..|more| - 1]);
      assert (ws + more)[..|ws + more| - 1] == ws + more[..|more| - 1];
    }
  }

  lemma ReplayOne(d: Durable, w: Write)
    ensures Replay(d, [w]) == Perform(d, w)
  {
    assert [w][..0] == [];
  }

  lemma ReplayTwo(d: Durable, v: Write, w: Write)
    ensures Replay(d, [v, w]) == Perform(Perform(d, v), w)
  {
    assert [v, w] == [v] + [w];
    ReplayJoin(d, [v], [w]);
    ReplayOne(d, v);
    ReplayOne(Perform(d, v), w);
  }

  lemma CheckTermExact(s: Server, t: nat)
    ensures Replay(DurableOf(s), CheckTermWrites(s, t)) == DurableOf(CheckTerm(s, t))
  {
    if t > s.term { ReplayTwo(DurableOf(s), SaveTerm(t), SaveVote(None)); }
  }

  lemma MergeExact(s: Server, prev: nat, entries: Log, fault: Fault)
    ensures var m := Merge(s.log, prev, entries, fault);
            Replay(DurableOf(s), m.1) == DurableOf(s.(log := m.0))
  {
    var k := Matching(s.log, prev, entries);
    var d := DurableOf(s);
    if k < |entries| && prev + k <= |s.log| {
      var rest := entries[k..];
      ReplayOne(d, AppendLog(rest));
      ReplayOne(d, TruncateLog(prev + k));
      ReplayTwo(d, TruncateLog(prev + k), AppendLog(rest));
    }
  }

  lemma UpdateCommitOnDisk(decode: Decoder, s: Server, peers: set<NodeId>)
    ensures DurableOf(UpdateCommit(decode, s, peers)) == DurableOf(s)
  {
    ApplyTouches(decode, s.(commit := ScanCommit(s, peers, |s.log|)));
  }

  lemma BecomeLeaderExact(decode: Decoder, s: Server, peers: set<NodeId>, fault: Fault)
    ensures var r := BecomeLeader(decode, s, peers, fault); Replay(DurableOf(s), r.writes) == DurableOf(r.server)
  {
    UpdateCommitOnDisk(decode, LeadWithNoOp(s, peers, fault), peers);
    ReplayOne(DurableOf(s), AppendLog([NoOp(s)]));
  }

  lemma CampaignExact(decode: Decoder, s: Server, me: NodeId, peers: set<NodeId>, fault: Fault)
    ensures var r := CampaignOf(decode, s, me, peers, fault); Replay(DurableOf(s), r.writes) == DurableOf(r.server)
  {
    var s1 := s.(term := s.term + 1, role := Candidate, vote := Some(me), leader := None, votes := 1);
    var ws := [SaveTerm(s1.term), SaveVote(Some(me))];
    ReplayTwo(DurableOf(s), SaveTerm(s1.term), SaveVote(Some(me)));
    BecomeLeaderExact(decode, s1, peers, fault);
    ReplayJoin(DurableOf(s), ws, BecomeLeader(decode, s1, peers, fault).writes);
  }

  lemma VoteExact(s: Server, candidate: NodeId, req: Request)
    requires req.VoteReq?
    ensures var r := OnVoteRequest(s, candidate, req); Replay(DurableOf(s), r.writes) == DurableOf(r.server)
  {
    CheckTermExact(s, req.term);
    ReplayJoin(DurableOf(s), CheckTermWrites(s, req.term), [SaveVote(Some(candidate))]);
    ReplayOne(DurableOf(CheckTerm(s, req.term)), SaveVote(Some(candidate)));
  }

  lemma AcceptExact(decode: Decoder, s: Server, req: Request, fault: Fault)
    requires req.AppendReq?
    ensures var r := Accept(decode, s, req, fault); Replay(DurableOf(s), r.writes) == DurableOf(r.server)
  {
    var m := Merge(s.log, req.prevIndex, req.entries, fault);
    MergeExact(s, req.prevIndex, req.entries, fault);
    ApplyTouches(decode, s.(log := m.0, commit := Min(req.commit, LastSent(req))));
  }

  lemma AppendExact(decode: Decoder, s: Server, from: NodeId, req: Request, now: nat, fault: Fault)
    requires req.AppendReq?
    ensures var r := OnAppendRequest(decode, s, from, req, now, fault); Replay(DurableOf(s), r.writes) == DurableOf(r.server)
  {
    CheckTermExact(s, req.term);
    var s1 := Heed(s, from, req.term, now);
    AcceptExact(decode, s1, req, fault);
    ReplayJoin(DurableOf(s), CheckTermWrites(s, req.term), Accept(decode, s1, req, fault).writes);
  }

  lemma ReplyExact(decode: Decoder, s: Server, peers: set<NodeId>, peer: NodeId, req: Request, rep: Reply)
    requires req.AppendReq? && rep.AppendRep?
    ensures var r := OnAppendReply(decode, s, peers, peer, req, rep); Replay(DurableOf(s), r.writes) == DurableOf(r.server)
  {
    CheckTermExact(s, rep.term);
    if s.leader.Some? { UpdateCommitOnDisk(decode, Confirmed(s, peer, LastSent(req)), peers); }
  }

  lemma ProposeExact(decode: Decoder, s: Server, peers: set<NodeId>, command: seq<byte>, fault: Fault)
    ensures var r := Propose(decode, s, peers, command, fault); Replay(DurableOf(s), r.writes) == DurableOf(r.server)
  {
    var e := OwnEntry(s, command);
    var s1 := s.(log := s.log + [e]);
    ReplayOne(DurableOf(s), AppendLog([e]));
    ApplyTouches(decode, s1.(commit := |s1.log|));
  }

  /** Replaying a handler's transactions gives exactly the term, vote and log it leaves in memory. */
  lemma DiskMatchesMemory(cfg: Config, c: Cluster, e: Event)
    requires Possible(cfg, c, e)
    ensures var r := Handled(cfg, c, e); Replay(DurableOf(c.servers[Actor(c, e)]), r.writes) == DurableOf(r.server)
  {
    var n := Actor(c, e);
    var s, ps := c.servers[n], Peers(cfg, n);
    match e
    case Timeout(_, fault) => CampaignExact(cfg.decode, s, n, {}, fault);
    case Heartbeat(_) =>
    case Client(_, command, fault) => ProposeExact(cfg.decode, s, ps, command, fault);
    case Serve(id, fault) =>
      var call := c.calls[id];
      if call.req.VoteReq? { VoteExact(s, call.from, call.req); }
      else if call.req.AppendReq? { AppendExact(cfg.decode, s, call.from, call.req, c.now, fault); }
    case Read(id, fault) =>
      var call := c.calls[id];
      CheckTermExact(s, call.reply.value.term);
      if call.req.AppendReq? { ReplyExact(cfg.decode, s, ps, call.to, call.req, call.reply.value); }
      else if id.ForPreVote? { CampaignExact(cfg.decode, s, n, ps, fault); }
      else { BecomeLeaderExact(cfg.decode, Counted(s), ps, fault); }
  }

  // ---------- Stopping between two transactions ----------

  /** The transactions that raise the term come first, the term before the vote. */
  predicate TermFirst(ws: seq<Write>, term: nat) {
    |ws| >= 2 && ws[0].SaveTerm? && ws[0].term > term && ws[1].SaveVote?
  }

  /** A handler that did all but the last transaction of a truncate-and-append. */
  function CutShort(e: Event): Event
    requires e.Serve?
  {
    Serve(e.id, AppendFails)
  }

  lemma MergeWrites(s: Server, prev: nat, entries: Log, fault: Fault)
    ensures var ws := Merge(s.log, prev, entries, fault).1;
            |ws| <= 2 && (|ws| == 2 ==> Merge(s.log, prev, entries, AppendFails).1 == ws[..1])
  {
  }

  /** Every way a handler can stop early: nothing was written, only the new term was, the
      new term and the vote were, or the last append of a truncate-and-append was not. */
  lemma EarlyStops(cfg: Config, c: Cluster, e: Event, done: nat)
    requires Possible(cfg, c, e) && done < |Handled(cfg, c, e).writes|
    ensures var ws := Handled(cfg, c, e).writes;
            done == 0 ||
            (done <= 2 && TermFirst(ws, c.servers[Actor(c, e)].term)) ||
            (e.Serve? && Possible(cfg, c, CutShort(e)) && Handled(cfg, c, CutShort(e)).writes == ws[..done])
  {
    if e.Serve? && c.calls[e.id].req.AppendReq? {
      var call := c.calls[e.id];
      var s1 := Heed(c.servers[Actor(c, e)], call.from, call.req.term, c.now);
      MergeWrites(s1, call.req.prevIndex, call.req.entries, e.fault);
    }
  }

  /** A new term on disk, with whatever vote was on disk or written with it. */
  lemma TermOnDiskOk(cfg: Config, s: A.State, n: NodeId, sv: Server, ws: seq<Write>, done: nat) returns (s1: A.State)
    requires Mirrors(cfg, s, n, sv) && TermFirst(ws, sv.term) && 1 <= done <= 2
    ensures Path(s, s1, n) && AllIndexed(s1.h) && s1.h == s.h
    ensures var nd := s1.nodes[n]; Durable(nd.term, nd.vote, nd.log) == Replay(DurableOf(sv), ws[..done])
  {
    var d := DurableOf(sv);
    assert ws[..1] == [ws[0]] && ws[..2] == [ws[0], ws[1]];
    ReplayOne(d, ws[0]);
    ReplayTwo(d, ws[0], ws[1]);
    var a := A.Learn(n, ws[0].term, if done == 1 then sv.vote else ws[1].vote);
    Stay(s, n);
    Act(cfg, s, s, n, a);
    s1 := A.After(s, a);
  }

  /** However far the handler got, what is on disk is a state abstract Raft can reach. */
  lemma DiskOk(cfg: Config, c: Cluster, s: A.State, e: Event, done: nat) returns (s1: A.State)
    requires Related(cfg, c, s) && Possible(cfg, c, e) && done <= |Handled(cfg, c, e).writes|
    ensures Path(s, s1, Actor(c, e)) && AllIndexed(s1.h)
    ensures var nd := s1.nodes[Actor(c, e)];
            Durable(nd.term, nd.vote, nd.log) == Replay(DurableOf(c.servers[Actor(c, e)]), Handled(cfg, c, e).writes[..done])
  {
    var n, ws := Actor(c, e), Handled(cfg, c, e).writes;
    MirrorsNode(cfg, c, s, n);
    if done == |ws| {
      assert ws[..done] == ws;
      DiskMatchesMemory(cfg, c, e);
      s1 := HandlerOk(cfg, c, s, e);
    } else {
      EarlyStops(cfg, c, e, done);
      if done == 0 {
        s1 := s;
        Stay(s, n);
      } else if done <= 2 && TermFirst(ws, c.servers[n].term) {
        s1 := TermOnDiskOk(cfg, s, n, c.servers[n], ws, done);
      } else {
        DiskMatchesMemory(cfg, c, CutShort(e));
        s1 := HandlerOk(cfg, c, s, CutShort(e));
      }
    }
  }

  lemma FreshOk(cfg: Config, h: A.History, n: NodeId, sv: Server, d: Durable)
    requires ServerOk(cfg, h, n, sv)
    ensures ServerOk(cfg, h, n, Recover(sv, d))
  {
    var r := Recover(sv, d);
    forall k ensures Told(cfg.ids, h, r.log, r.applied, r.epoch, r.proposals, k) && Issued(r.proposals, r.tickets, r.epoch, k) {
      assert Told(cfg.ids, h, sv.log, sv.applied, sv.epoch, sv.proposals, k);
      assert Issued(sv.proposals, sv.tickets, sv.epoch, k);
    }
    forall i ensures Waits(r.role, r.term, r.log, r.epoch, r.pending, r.proposals, i) {}
  }

  /** A recovered node starts from its disk with everything volatile gone. */
  lemma RecoverOk(cfg: Config, s: A.State, s1: A.State, n: NodeId, sv: Server) returns (s': A.State)
    requires Path(s, s1, n) && Mirrors(cfg, s, n, sv) && AllIndexed(s1.h)
    ensures var nd := s1.nodes[n];
            Path(s, s', n) && Mirrors(cfg, s', n, Recover(sv, Durable(nd.term, nd.vote, nd.log))) && Grows(s.h, s'.h)
  {
    var nd := s1.nodes[n];
    ServerStaysOk(cfg, s.h, s1.h, n, sv);
    FreshOk(cfg, s1.h, n, sv, Durable(nd.term, nd.vote, nd.log));
    s' := ActAs(cfg, s, s1, n, A.Demote(n, 0), Recover(sv, Durable(nd.term, nd.vote, nd.log)));
  }

  /** The cluster with node n restarted and possibly one call gone. */
  lemma RestartedOk(cfg: Config, c: Cluster, s: A.State, s1: A.State, n: NodeId, c': Cluster) returns (s': A.State)
    requires Related(cfg, c, s) && Path(s, s1, n) && AllIndexed(s1.h) && n in cfg.ids
    requires var nd := s1.nodes[n];
             c'.servers == c.servers[n := Recover(c.servers[n], Durable(nd.term, nd.vote, nd.log))]
    requires forall id :: id in c'.calls ==> id in c.calls && c'.calls[id] == c.calls[id]
    ensures Path(s, s', n) && Related(cfg, c', s')
  {
    MirrorsNode(cfg, c, s, n);
    s' := RecoverOk(cfg, s, s1, n, c.servers[n]);
    forall id | id in c'.calls ensures CallOk(cfg, s'.h, id, c'.calls[id]) {
      assert CallOk(cfg, s.h, id, c.calls[id]);
      CallStaysOk(cfg, s.h, s'.h, id, c.calls[id]);
    }
    Reassemble(cfg, c, s, s', n, c');
  }

  lemma CrashOk(cfg: Config, c: Cluster, s: A.State, e: Event) returns (s': A.State)
    requires Related(cfg, c, s) && Enabled(cfg, c, e) && (e.Crash? || e.CrashDuring?)
    ensures A.Leads(s, s') && Related(cfg, After(cfg, c, e), s') && Grows(s.h, s'.h)
  {
    var n := if e.Crash? then e.n else Actor(c, e.during);
    MirrorsNode(cfg, c, s, n);
    var s1;
    if e.Crash? {
      s1 := s;
      Stay(s, n);
    } else {
      s1 := DiskOk(cfg, c, s, e.during, e.done);
    }
    s' := RestartedOk(cfg, c, s, s1, n, After(cfg, c, e));
  }

  // ---------- Events that run no handler ----------

  lemma GiveUpOk(cfg: Config, c: Cluster, s: A.State, n: NodeId, i: nat)
    requires Related(cfg, c, s) && Enabled(cfg, c, GiveUp(n, i))
    ensures Related(cfg, After(cfg, c, GiveUp(n, i)), s)
  {
    var c' := After(cfg, c, GiveUp(n, i));
    MirrorsNode(cfg, c, s, n);
    Stay(s, n);
    var sv, sv' := c.servers[n], c'.servers[n];
    forall k ensures Waits(sv'.role, sv'.term, sv'.log, sv'.epoch, sv'.pending, sv'.proposals, k) {
      assert Waits(sv.role, sv.term, sv.log, sv.epoch, sv.pending, sv.proposals, k);
    }
    assert Mirrors(cfg, s, n, sv');
    forall id | id in c'.calls ensures CallOk(cfg, s.h, id, c'.calls[id]) {
      assert CallOk(cfg, s.h, id, c.calls[id]);
    }
    Reassemble(cfg, c, s, s, n, c');
  }

  lemma LoseOk(cfg: Config, c: Cluster, s: A.State, id: CallId)
    requires Related(cfg, c, s) && id in c.calls
    ensures Related(cfg, c.(calls := c.calls - {id}), s)
  {
    var c' := c.(calls := c.calls - {id});
    forall m | m in cfg.ids
      ensures View(c'.servers[m]) == s.nodes[m] && ServerOk(cfg, s.h, m, c'.servers[m])
      ensures CandidateOk(cfg, s.h, c'.calls, m, c'.servers[m])
    {
      MirrorsNode(cfg, c, s, m);
      Stay(s, m);
      CandidateStaysOk(cfg, s.h, s.h, c, c'.calls, m, c.servers[m]);
    }
    forall k | k in c'.calls ensures CallOk(cfg, s.h, k, c'.calls[k]) {
      assert CallOk(cfg, s.h, k, c.calls[k]);
    }
  }

  /** The refinement: every event of the cluster is a sequence of abstract Raft actions. */
  lemma EventOk(cfg: Config, c: Cluster, s: A.State, e: Event) returns (s': A.State)
    requires Related(cfg, c, s) && Enabled(cfg, c, e)
    ensures A.Leads(s, s') && Related(cfg, After(cfg, c, e), s') && Grows(s.h, s'.h)
  {
    if Handles(e) {
      s' := HandlerEventOk(cfg, c, s, e);
    } else if e.Crash? || e.CrashDuring? {
      s' := CrashOk(cfg, c, s, e);
    } else {
      s' := s;
      assert A.Steps(s, [], s);
      assert Grows(s.h, s.h) by { forall t | t in s.h.reigns ensures ReignGrows(s.h.reigns[t], s.h.reigns[t]) {} }
      if e.GiveUp? {
        GiveUpOk(cfg, c, s, e.n, e.index);
      } else if e.Lose? {
        LoseOk(cfg, c, s, e.id);
      } else {
        TickOk(cfg, c, s, After(cfg, c, e));
      }
    }
  }

  lemma TickOk(cfg: Config, c: Cluster, s: A.State, c': Cluster)
    requires Related(cfg, c, s) && c'.servers == c.servers && c'.calls == c.calls
    ensures Related(cfg, c', s)
  {
  }
}
