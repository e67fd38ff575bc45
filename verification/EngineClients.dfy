/** Where a client's proposal comes from, what becomes of its command, and what it is told
    when leadership is lost. */
module EngineClients {
  import opened RaftTypes
  import opened Engine
  import opened EngineCluster
  import opened EngineRelation
  import opened EngineSteps
  import opened EngineRefinement
  import opened EngineSafety
  import opened EngineGuarantees
  import opened EngineLoops
  import opened EngineCommits
  import opened EngineAnswers

  // ---------- Proposals ----------

  /** A proposal to a leader puts the client's own command, in the leader's term and at the next
      index, at the end of the log, and registers the client there; alone, the leader commits,
      applies and answers at once. Any other node, or storage that fails, changes nothing. */
  lemma ClientCommandIsAppended(cfg: Config, run: seq<Cluster>, i: nat, n: NodeId, command: seq<byte>, fault: Fault)
    requires IsRun(cfg, run) && i + 1 < |run| && Goes(cfg, run[i], Client(n, command, fault), run[i + 1])
    ensures n in run[i + 1].servers
    ensures var s, s' := run[i].servers[n], run[i + 1].servers[n];
            if s.role != Leader || fault.AppendFails? then s' == s
            else
              && s'.role == Leader && s'.term == s.term && s'.leader == s.leader
              && s'.log == s.log + [Entry(s.term, Record(|s.log| + 1, command))]
              && s'.tickets == s.tickets + 1 && s.tickets in s'.proposals
              && (var p := s'.proposals[s.tickets];
                  p.index == |s.log| + 1 && p.command == command && p.entry == s'.log[|s.log|] &&
                  p.answer == if Peers(cfg, n) == {} then Some(true) else None)
              && (Peers(cfg, n) != {} ==> s'.commit == s.commit && s'.pending == s.pending[|s.log| + 1 := s.tickets])
              && (Peers(cfg, n) == {} ==> s'.commit == s'.applied == |s.log| + 1)
  {
    CommittedIsApplied(cfg, run, i, n);
    if run[i].servers[n].role == Leader && !fault.AppendFails? {
      ProposeIs(cfg.decode, run[i].servers[n], Peers(cfg, n), command, fault);
    }
  }

  lemma ProposeIs(decode: Decoder, s: Server, peers: set<NodeId>, command: seq<byte>, fault: Fault)
    requires s.role == Leader && !fault.AppendFails? && s.applied == s.commit <= |s.log|
    ensures var s' := Propose(decode, s, peers, command, fault).server;
            && s'.role == Leader && s'.term == s.term && s'.leader == s.leader
            && s'.log == s.log + [Entry(s.term, Record(|s.log| + 1, command))]
            && s'.tickets == s.tickets + 1 && s.tickets in s'.proposals
            && s'.proposals[s.tickets] == Proposal(|s.log| + 1, s'.log[|s.log|], command, s.epoch, if peers == {} then Some(true) else None)
            && (peers != {} ==> s'.commit == s.commit && s'.pending == s.pending[|s.log| + 1 := s.tickets])
            && (peers == {} ==> s'.commit == s'.applied == |s.log| + 1)
  {
    var s1 := s.(log := s.log + [OwnEntry(s, command)]);
    ApplyTouches(decode, s1.(commit := |s1.log|));
  }

  /** The same client, whatever it has been told. */
  predicate SameClient(a: map<nat, Proposal>, b: map<nat, Proposal>, k: nat) {
    (k in a <==> k in b) && (k in a ==> b[k] == a[k].(answer := b[k].answer))
  }

  ghost predicate SameClients(a: map<nat, Proposal>, b: map<nat, Proposal>) {
    forall k {:trigger SameClient(a, b, k)} :: SameClient(a, b, k)
  }

  lemma {:induction false} ApplyKeepsClients(decode: Decoder, s: Server)
    ensures SameClients(s.proposals, Apply(decode, s).proposals)
    decreases s.commit - s.applied
  {
    if s.applied < s.commit {
      var s1 := ApplyNext(decode, s);
      ApplyKeepsClients(decode, s1);
      forall k ensures SameClient(s.proposals, Apply(decode, s).proposals, k) {
        assert SameClient(s.proposals, s1.proposals, k) && SameClient(s1.proposals, Apply(decode, s1).proposals, k);
      }
    }
  }

  lemma UpdateKeepsClients(decode: Decoder, s: Server, peers: set<NodeId>)
    ensures SameClients(s.proposals, UpdateCommit(decode, s, peers).proposals)
  {
    ApplyKeepsClients(decode, s.(commit := ScanCommit(s, peers, |s.log|)));
  }

  lemma ClientsChain(a: map<nat, Proposal>, b: map<nat, Proposal>, c: map<nat, Proposal>)
    requires SameClients(a, b) && SameClients(b, c)
    ensures SameClients(a, c)
  {
    forall k ensures SameClient(a, c, k) { assert SameClient(a, b, k) && SameClient(b, c, k); }
  }

  lemma CheckTermKeepsClients(s: Server, t: nat)
    ensures SameClients(s.proposals, CheckTerm(s, t).proposals)
  {
  }

  lemma AcceptKeepsClients(decode: Decoder, s: Server, req: Request, fault: Fault)
    requires req.AppendReq?
    ensures SameClients(s.proposals, Accept(decode, s, req, fault).server.proposals)
  {
    var m := Merge(s.log, req.prevIndex, req.entries, fault);
    ApplyKeepsClients(decode, s.(log := m.0, commit := Min(req.commit, LastSent(req))));
  }

  lemma AppendKeepsClients(decode: Decoder, s: Server, from: NodeId, req: Request, now: nat, fault: Fault)
    requires req.AppendReq?
    ensures SameClients(s.proposals, OnAppendRequest(decode, s, from, req, now, fault).server.proposals)
  {
    var s1 := Heed(s, from, req.term, now);
    CheckTermKeepsClients(s, req.term);
    AcceptKeepsClients(decode, s1, req, fault);
    ClientsChain(s.proposals, s1.proposals, Accept(decode, s1, req, fault).server.proposals);
  }

  lemma LeadKeepsClients(decode: Decoder, s: Server, peers: set<NodeId>, fault: Fault)
    ensures SameClients(s.proposals, BecomeLeader(decode, s, peers, fault).server.proposals)
  {
    UpdateKeepsClients(decode, LeadWithNoOp(s, peers, fault), peers);
  }

  lemma CampaignKeepsClients(decode: Decoder, s: Server, me: NodeId, peers: set<NodeId>, fault: Fault)
    ensures SameClients(s.proposals, CampaignOf(decode, s, me, peers, fault).server.proposals)
  {
    LeadKeepsClients(decode, s.(term := s.term + 1, role := Candidate, vote := Some(me), leader := None, votes := 1), peers, fault);
  }

  lemma ReadKeepsClients(cfg: Config, c: Cluster, e: Event)
    requires Possible(cfg, c, e) && e.Read?
    ensures SameClients(c.servers[Actor(c, e)].proposals, Handled(cfg, c, e).server.proposals)
  {
    var n, call := Actor(c, e), c.calls[e.id];
    var s, ps := c.servers[n], Peers(cfg, n);
    CheckTermKeepsClients(s, call.reply.value.term);
    if call.req.AppendReq? {
      if s.leader.Some? { UpdateKeepsClients(cfg.decode, Confirmed(s, call.to, LastSent(call.req)), ps); }
    } else if e.id.ForPreVote? {
      CampaignKeepsClients(cfg.decode, s, n, ps, e.fault);
    } else {
      LeadKeepsClients(cfg.decode, Counted(s), ps, e.fault);
    }
  }

  /** Only a proposal brings a client. */
  lemma HandlerKeepsClients(cfg: Config, c: Cluster, e: Event)
    requires Possible(cfg, c, e) && !e.Client?
    ensures SameClients(c.servers[Actor(c, e)].proposals, Handled(cfg, c, e).server.proposals)
  {
    var n := Actor(c, e);
    var s := c.servers[n];
    if e.Timeout? {
      CampaignKeepsClients(cfg.decode, s, n, {}, e.fault);
    } else if e.Read? {
      ReadKeepsClients(cfg, c, e);
    } else if e.Serve? {
      var call := c.calls[e.id];
      if call.req.VoteReq? { CheckTermKeepsClients(s, call.req.term); }
      if call.req.AppendReq? { AppendKeepsClients(cfg.decode, s, call.from, call.req, c.now, e.fault); }
    }
  }

  lemma ProposeAddsOne(decode: Decoder, s: Server, peers: set<NodeId>, command: seq<byte>, fault: Fault, k: nat)
    requires k != s.tickets
    ensures SameClient(s.proposals, Propose(decode, s, peers, command, fault).server.proposals, k)
  {
    var s1 := s.(log := s.log + [OwnEntry(s, command)]);
    var s2 := s1.(commit := |s1.log|);
    ApplyKeepsClients(decode, s2);
    ApplyTouches(decode, s2);
    assert SameClient(s.proposals, Apply(decode, s2).proposals, k);
  }

  /** A client that was not there before the step has just proposed. */
  lemma NewClientProposed(cfg: Config, c: Cluster, e: Event, n: NodeId, ticket: nat)
    requires Enabled(cfg, c, e) && n in c.servers && n in After(cfg, c, e).servers
    requires ticket in After(cfg, c, e).servers[n].proposals
    ensures SameClient(c.servers[n].proposals, After(cfg, c, e).servers[n].proposals, ticket) ||
            (e.Client? && e.n == n && ticket == c.servers[n].tickets && c.servers[n].role == Leader && !e.fault.AppendFails?)
  {
    if Handles(e) && n == Actor(c, e) {
      if e.Client? {
        if ticket != c.servers[n].tickets { ProposeAddsOne(cfg.decode, c.servers[n], Peers(cfg, n), e.command, e.fault, ticket); }
      } else {
        HandlerKeepsClients(cfg, c, e);
        assert SameClient(c.servers[n].proposals, Handled(cfg, c, e).server.proposals, ticket);
      }
    }
  }

  /** Every proposal on record was made by a client event of the run, at a leader: the record
      holds the command that event brought, at the index after the leader's log of that time. */
  lemma {:induction false} ProposalHasItsClient(cfg: Config, run: seq<Cluster>, i: nat, n: NodeId, ticket: nat)
      returns (j: nat, fault: Fault)
    requires IsRun(cfg, run) && i < |run| && n in cfg.ids && n in run[i].servers && ticket in run[i].servers[n].proposals
    ensures j < i && n in run[j].servers && run[j].servers[n].role == Leader && ticket == run[j].servers[n].tickets
    ensures var p := run[i].servers[n].proposals[ticket];
            Goes(cfg, run[j], Client(n, p.command, fault), run[j + 1]) && p.index == |run[j].servers[n].log| + 1 &&
            p.entry == Entry(run[j].servers[n].term, Record(p.index, p.command))
    decreases i
  {
    if i == 0 {
      assert false;
    } else {
      var c := run[i - 1];
      var e := EventAt(cfg, run, i - 1);
      CommittedIsApplied(cfg, run, i - 1, n);
      NewClientProposed(cfg, c, e, n, ticket);
      if SameClient(c.servers[n].proposals, run[i].servers[n].proposals, ticket) {
        j, fault := ProposalHasItsClient(cfg, run, i - 1, n, ticket);
      } else {
        j, fault := i - 1, e.fault;
        ProposeIs(cfg.decode, c.servers[n], Peers(cfg, n), e.command, fault);
      }
    }
  }

  // ---------- Lost leadership ----------

  lemma HeedClears(decode: Decoder, s: Server, from: NodeId, req: Request, now: nat, fault: Fault)
    requires req.AppendReq? && req.term > s.term
    ensures var r := OnAppendRequest(decode, s, from, req, now, fault).server;
            r.proposals == SendAll(s.proposals, s.pending) && r.pending == map[]
  {
    var s1 := Heed(s, from, req.term, now);
    var m := Merge(s1.log, req.prevIndex, req.entries, fault);
    ApplyQuietly(decode, s1.(log := m.0, commit := Min(req.commit, LastSent(req))));
  }

  lemma NewTermClears(cfg: Config, c: Cluster, e: Event)
    requires Possible(cfg, c, e) && c.servers[Actor(c, e)].role == Leader
    requires Handled(cfg, c, e).server.term > c.servers[Actor(c, e)].term
    ensures var s, r := c.servers[Actor(c, e)], Handled(cfg, c, e).server;
            r.proposals == SendAll(s.proposals, s.pending) && r.pending == map[]
  {
    var s, ps := c.servers[Actor(c, e)], Peers(cfg, Actor(c, e));
    if e.Client? {
      ProposeOnlyAppends(cfg.decode, s, ps, e.command, e.fault);
    } else if e.Serve? && c.calls[e.id].req.AppendReq? {
      var call := c.calls[e.id];
      AcceptTouches(cfg, Heed(s, call.from, call.req.term, c.now), call.req, e.fault);
      if call.req.term > s.term { HeedClears(cfg.decode, s, call.from, call.req, c.now, e.fault); }
    } else if e.Read? && c.calls[e.id].req.AppendReq? && s.leader.Some? {
      UpdateTouches(cfg.decode, Confirmed(s, c.calls[e.id].to, LastSent(c.calls[e.id].req)), ps);
    }
  }

  /** A leader that learns of a newer term tells every waiting client at once that its
      leadership is lost, and nobody waits on it any more. */
  lemma LostLeadershipTellsAll(cfg: Config, run: seq<Cluster>, i: nat, n: NodeId)
    requires IsRun(cfg, run) && i + 1 < |run| && n in cfg.ids && n in run[i].servers && n in run[i + 1].servers
    requires run[i].servers[n].role == Leader && run[i].servers[n].epoch == run[i + 1].servers[n].epoch
    requires run[i + 1].servers[n].term > run[i].servers[n].term
    ensures var s, s' := run[i].servers[n], run[i + 1].servers[n];
            s'.pending == map[] &&
            forall k :: k in s.pending ==> s.pending[k] in s'.proposals && s'.proposals[s.pending[k]].answer == Some(false)
  {
    var s := run[i].servers[n];
    var e := EventAt(cfg, run, i);
    NewTermClears(cfg, run[i], e);
    forall k | k in s.pending ensures s.pending[k] in s.proposals && s.pending[k] in s.pending.Values {
      WaitersAreLeaders(cfg, run, i, n, k);
    }
  }
}
