/** The engine's cluster refines abstract Raft: every event, crashes included. */
module EngineRefinement {
  import opened RaftTypes
  import opened Engine
  import opened EngineCluster
  import opened EngineRelation
  import opened EngineSteps
  import A = AbstractRaft
  import opened AbstractInvariants
  import opened AbstractPreservation
  import opened AbstractRuns

  // ---------- Calls ----------

  lemma CallStaysOk(cfg: Config, h: A.History, h': A.History, id: CallId, call: Call)
    requires Grows(h, h') && CallOk(cfg, h, id, call)
    ensures CallOk(cfg, h', id, call)
  {
    if call.req.AppendReq? {
      var t, end := call.req.term, LastSent(call.req);
      var log, log' := A.LogOf(h, t), A.LogOf(h', t);
      SliceOfPrefix(log, log', |log|, call.req.prevIndex, end);
      if call.req.prevIndex > 0 { AgreeAt(log, log', |log|, call.req.prevIndex - 1); }
      CommitKnownGrows(cfg.ids, h, h', log, t, t, call.req.commit);
      LongerCommitKnown(cfg.ids, h', log, log', t, call.req.commit);
    }
  }

  /** A leader's requests are slices of its log, with what it knows to be committed. */
  lemma AppendRequestSound(cfg: Config, s: A.State, n: NodeId, sv: Server, p: NodeId)
    requires Mirrors(cfg, s, n, sv) && sv.role == Leader && p in Peers(cfg, n)
    ensures AppendReqOk(cfg.ids, s.h, n, AppendRequest(sv, p))
  {
    LeaderFact(s, n);
    CommitFact(s, n);
    assert PeerOk(s.h, sv.term, |sv.log|, sv.leader.value, p);
    var prev := NextOf(sv, p) - 1;
    var entries := Batch(sv.log, prev);
    assert entries == sv.log[prev..prev + |entries|];
  }

  lemma AppendCallOk(cfg: Config, s: A.State, n: NodeId, sv: Server, p: NodeId, serial: nat)
    requires Mirrors(cfg, s, n, sv) && sv.role == Leader && p in Peers(cfg, n)
    ensures CallOk(cfg, s.h, ForAppend(serial, p), Call(n, p, sv.epoch, AppendRequest(sv, p), None))
  {
    AppendRequestSound(cfg, s, n, sv, p);
  }

  lemma SentOk(cfg: Config, s: A.State, n: NodeId, sv: Server, out: Out, serial: nat)
    requires Mirrors(cfg, s, n, sv)
    requires out.AskVotes? ==> VoteReqOk(s.h, n, VoteRequest(sv))
    requires out.Retry? ==> sv.role == Leader && out.peer in Peers(cfg, n)
    ensures var sent := Sent(cfg, n, sv, out, serial);
            forall id {:trigger CallOk(cfg, s.h, id, sent[id])} :: id in sent ==> CallOk(cfg, s.h, id, sent[id])
  {
    var sent := Sent(cfg, n, sv, out, serial);
    forall id | id in sent ensures CallOk(cfg, s.h, id, sent[id]) {
      match out
      case Silent =>
      case AskVotes =>
      case Broadcast => AppendCallOk(cfg, s, n, sv, id.to, serial);
      case Retry(p) =>
        AppendCallOk(cfg, s, n, sv, p, serial);
    }
  }

  // ---------- Putting a step together ----------

  /** No new vote call of another node appears. */
  ghost predicate VoteCallsOf(c: Cluster, calls: map<CallId, Call>, m: NodeId) {
    forall t, p :: ForVote(t, m, p) in calls ==> ForVote(t, m, p) in c.calls
  }

  lemma CandidateStaysOk(cfg: Config, h: A.History, h': A.History, c: Cluster, calls: map<CallId, Call>, m: NodeId, sv: Server)
    requires Grows(h, h') && CandidateOk(cfg, h, c.calls, m, sv) && VoteCallsOf(c, calls, m)
    ensures CandidateOk(cfg, h', calls, m, sv)
  {
    if sv.role == Candidate {
      SubsetSize(Heard(cfg, h, c.calls, sv.term, m), Heard(cfg, h', calls, sv.term, m));
    }
  }

  lemma Reassemble(cfg: Config, c: Cluster, s: A.State, s': A.State, n: NodeId, c': Cluster)
    requires Related(cfg, c, s) && Path(s, s', n)
    requires n in c'.servers && c'.servers == c.servers[n := c'.servers[n]]
    requires Mirrors(cfg, s', n, c'.servers[n]) && CandidateOk(cfg, s'.h, c'.calls, n, c'.servers[n])
    requires forall m :: m != n ==> VoteCallsOf(c, c'.calls, m)
    requires forall id :: id in c'.calls ==> CallOk(cfg, s'.h, id, c'.calls[id])
    ensures Related(cfg, c', s')
  {
    forall m | m in cfg.ids
      ensures View(c'.servers[m]) == s'.nodes[m] && ServerOk(cfg, s'.h, m, c'.servers[m])
      ensures CandidateOk(cfg, s'.h, c'.calls, m, c'.servers[m])
    {
      if m != n {
        assert ServerOk(cfg, s.h, m, c.servers[m]) && CandidateOk(cfg, s.h, c.calls, m, c.servers[m]);
        ServerStaysOk(cfg, s.h, s'.h, m, c.servers[m]);
        CandidateStaysOk(cfg, s.h, s'.h, c, c'.calls, m, c.servers[m]);
      }
    }
  }

  lemma MirrorsNode(cfg: Config, c: Cluster, s: A.State, n: NodeId)
    requires Related(cfg, c, s) && n in cfg.ids
    ensures Mirrors(cfg, s, n, c.servers[n]) && CandidateOk(cfg, s.h, c.calls, n, c.servers[n])
  {
    assert ServerOk(cfg, s.h, n, c.servers[n]);
    assert CandidateOk(cfg, s.h, c.calls, n, c.servers[n]);
  }

  // ---------- Handlers ----------

  /** A candidate after the step was the same candidate before it, or has just started. */
  predicate SameCandidate(sv: Server, sv': Server) {
    sv'.role == Candidate ==> sv.role == Candidate && sv'.term == sv.term && sv'.votes == sv.votes
  }

  /** What a handler leaves behind, apart from the calls. */
  ghost predicate HandledOk(cfg: Config, c: Cluster, s: A.State, s': A.State, e: Event)
    requires Possible(cfg, c, e)
  {
    var n := Actor(c, e);
    var r := Handled(cfg, c, e);
    && Path(s, s', n) && Mirrors(cfg, s', n, r.server)
    && CandidateOk(cfg, s'.h, CallsAfter(c, e, r.reply), n, r.server)
    && (r.out.AskVotes? ==> r.server.role == Candidate && r.server.votes == 1 && VoteReqOk(s'.h, n, VoteRequest(r.server)))
    && (r.out.Retry? ==> r.server.role == Leader && r.out.peer in Peers(cfg, n))
    && (e.Serve? ==> CallOk(cfg, s'.h, e.id, c.calls[e.id].(reply := r.reply)))
  }

  lemma SameCandidateOk(cfg: Config, h: A.History, h': A.History, c: Cluster, calls: map<CallId, Call>, n: NodeId, sv: Server, sv': Server)
    requires Grows(h, h') && CandidateOk(cfg, h, c.calls, n, sv) && SameCandidate(sv, sv')
    requires VoteCallsOf(c, calls, n)
    ensures CandidateOk(cfg, h', calls, n, sv')
  {
    CandidateStaysOk(cfg, h, h', c, calls, n, sv);
  }

  lemma TimeoutOk(cfg: Config, c: Cluster, s: A.State, e: Event) returns (s': A.State)
    requires Related(cfg, c, s) && Possible(cfg, c, e) && (e.Timeout? || e.Heartbeat?)
    ensures HandledOk(cfg, c, s, s', e)
  {
    var n := Actor(c, e);
    MirrorsNode(cfg, c, s, n);
    if e.Timeout? && Peers(cfg, n) == {} {
      s' := CampaigningOk(cfg, s, n, c.servers[n], e.fault);
    } else {
      s' := s;
      Stay(s, n);
    }
  }

  lemma ClientOk(cfg: Config, c: Cluster, s: A.State, e: Event) returns (s': A.State)
    requires Related(cfg, c, s) && Possible(cfg, c, e) && e.Client?
    ensures HandledOk(cfg, c, s, s', e)
  {
    var n := Actor(c, e);
    var sv := c.servers[n];
    MirrorsNode(cfg, c, s, n);
    s' := ProposeOk(cfg, s, n, sv, e.command, e.fault);
    ProposeKeepsRole(cfg, sv, Peers(cfg, n), e.command, e.fault);
    SameCandidateOk(cfg, s.h, s'.h, c, c.calls, n, sv, Handled(cfg, c, e).server);
  }

  lemma ProposeKeepsRole(cfg: Config, sv: Server, peers: set<NodeId>, command: seq<byte>, fault: Fault)
    ensures SameCandidate(sv, Propose(cfg.decode, sv, peers, command, fault).server)
  {
    var e := OwnEntry(sv, command);
    var sv1 := sv.(log := sv.log + [e]);
    ApplyTouches(cfg.decode, sv1.(commit := |sv1.log|));
  }

  lemma ServeVoteFacts(cfg: Config, c: Cluster, s: A.State, e: Event)
    requires Related(cfg, c, s) && Possible(cfg, c, e) && e.Serve? && c.calls[e.id].req.VoteReq?
    ensures VoteReqOk(s.h, c.calls[e.id].from, c.calls[e.id].req)
  {
    assert CallOk(cfg, s.h, e.id, c.calls[e.id]);
  }

  /** Any served call that leaves the role alone, or only steps down, and answers soundly. */
  lemma ServedOk(cfg: Config, c: Cluster, s: A.State, s': A.State, e: Event, r: Result)
    requires Related(cfg, c, s) && Possible(cfg, c, e) && e.Serve? && Handled(cfg, c, e) == r && r.out.Silent?
    requires var n := Actor(c, e); Path(s, s', n) && Mirrors(cfg, s', n, r.server) && SameCandidate(c.servers[n], r.server)
    requires CallOk(cfg, s'.h, e.id, c.calls[e.id].(reply := r.reply))
    ensures HandledOk(cfg, c, s, s', e)
  {
    var n := Actor(c, e);
    MirrorsNode(cfg, c, s, n);
    SameCandidateOk(cfg, s.h, s'.h, c, CallsAfter(c, e, r.reply), n, c.servers[n], r.server);
  }

  lemma VoteAnswered(cfg: Config, c: Cluster, s: A.State, s': A.State, id: CallId, r: Result)
    requires Related(cfg, c, s) && id in c.calls && c.calls[id].req.VoteReq? && Grows(s.h, s'.h)
    requires r.reply.Some? && r.reply.value.VoteRep?
    requires r.reply.value.granted ==> A.Granted(s'.h, c.calls[id].req.term, c.calls[id].to, c.calls[id].from)
    ensures CallOk(cfg, s'.h, id, c.calls[id].(reply := r.reply))
  {
    assert CallOk(cfg, s.h, id, c.calls[id]);
    AnsweredOk(cfg, s.h, s'.h, id, c.calls[id], r.reply);
  }

  lemma VoteKeepsRole(sv: Server, from: NodeId, req: Request)
    requires req.VoteReq?
    ensures var r := OnVoteRequest(sv, from, req);
            SameCandidate(sv, r.server) && r.out.Silent? && r.reply.Some? && r.reply.value.VoteRep?
  {
  }

  lemma ServeVoteOk(cfg: Config, c: Cluster, s: A.State, e: Event) returns (s': A.State)
    requires Related(cfg, c, s) && Possible(cfg, c, e) && e.Serve? && c.calls[e.id].req.VoteReq?
    ensures HandledOk(cfg, c, s, s', e)
  {
    var n, call := Actor(c, e), c.calls[e.id];
    var r := OnVoteRequest(c.servers[n], call.from, call.req);
    MirrorsNode(cfg, c, s, n);
    ServeVoteFacts(cfg, c, s, e);
    s' := VoteRequestOk(cfg, s, n, c.servers[n], call.from, call.req);
    VoteKeepsRole(c.servers[n], call.from, call.req);
    VoteAnswered(cfg, c, s, s', e.id, r);
    ServedOk(cfg, c, s, s', e, r);
  }

  /** An answer that says what the history confirms. */
  lemma AnsweredOk(cfg: Config, h: A.History, h': A.History, id: CallId, call: Call, reply: Option<Reply>)
    requires Grows(h, h') && CallOk(cfg, h, id, call) && reply.Some?
    requires call.req.AppendReq? <==> reply.value.AppendRep?
    requires call.req.VoteReq? && reply.value.granted ==> A.Granted(h', call.req.term, call.to, call.from)
    requires call.req.AppendReq? && reply.value.success ==>
               A.AckOf(h', call.req.term, call.to) >= LastSent(call.req)
    ensures CallOk(cfg, h', id, call.(reply := reply))
  {
    CallStaysOk(cfg, h, h', id, call);
  }

  lemma ServePreVoteOk(cfg: Config, c: Cluster, s: A.State, e: Event) returns (s': A.State)
    requires Related(cfg, c, s) && Possible(cfg, c, e) && e.Serve? && c.calls[e.id].req.PreVoteReq?
    ensures HandledOk(cfg, c, s, s', e)
  {
    var n, call := Actor(c, e), c.calls[e.id];
    MirrorsNode(cfg, c, s, n);
    assert CallOk(cfg, s.h, e.id, call);
    s' := s;
    Stay(s, n);
    SameCandidateOk(cfg, s.h, s.h, c, CallsAfter(c, e, Handled(cfg, c, e).reply), n, c.servers[n], c.servers[n]);
  }

  lemma AcceptTouches(cfg: Config, sv: Server, req: Request, fault: Fault)
    requires req.AppendReq?
    ensures var r := Accept(cfg.decode, sv, req, fault).server; r.role == sv.role && r.term == sv.term
  {
    var m := Merge(sv.log, req.prevIndex, req.entries, fault);
    ApplyTouches(cfg.decode, sv.(log := m.0, commit := Min(req.commit, LastSent(req))));
  }

  lemma ServeAppendOk(cfg: Config, c: Cluster, s: A.State, e: Event) returns (s': A.State)
    requires Related(cfg, c, s) && Possible(cfg, c, e) && e.Serve? && c.calls[e.id].req.AppendReq?
    ensures HandledOk(cfg, c, s, s', e)
  {
    var n, call := Actor(c, e), c.calls[e.id];
    var sv := c.servers[n];
    MirrorsNode(cfg, c, s, n);
    assert CallOk(cfg, s.h, e.id, call);
    var r := Handled(cfg, c, e);
    s' := AppendRequestOk(cfg, s, n, sv, call.from, call.req, c.now, e.fault);
    AnsweredOk(cfg, s.h, s'.h, e.id, call, r.reply);
    AppendKeepsRole(cfg, sv, call.from, call.req, c.now, e.fault);
    SameCandidateOk(cfg, s.h, s'.h, c, CallsAfter(c, e, r.reply), n, sv, r.server);
  }

  lemma AppendKeepsRole(cfg: Config, sv: Server, from: NodeId, req: Request, now: nat, fault: Fault)
    requires req.AppendReq?
    ensures SameCandidate(sv, OnAppendRequest(cfg.decode, sv, from, req, now, fault).server)
  {
    AcceptTouches(cfg, Heed(sv, from, req.term, now), req, fault);
  }

  // ---------- Reading answers ----------

  lemma ReadAppendFacts(cfg: Config, c: Cluster, s: A.State, e: Event)
    requires Related(cfg, c, s) && Possible(cfg, c, e) && e.Read? && c.calls[e.id].req.AppendReq?
    ensures var n, call := Actor(c, e), c.calls[e.id]; var sv := c.servers[n];
            call.to in Peers(cfg, n) &&
            (sv.role == Leader && sv.term == call.req.term && call.reply.value.success ==>
               LastSent(call.req) <= Min(|sv.log|, A.AckOf(s.h, sv.term, call.to)))
  {
    var n, call := Actor(c, e), c.calls[e.id];
    assert CallOk(cfg, s.h, e.id, call);
    if c.servers[n].role == Leader && c.servers[n].term == call.req.term {
      MirrorsNode(cfg, c, s, n);
      OwnSlice(cfg, s, n, c.servers[n], call.req);
    }
  }

  lemma ReadAppendOk(cfg: Config, c: Cluster, s: A.State, e: Event) returns (s': A.State)
    requires Related(cfg, c, s) && Possible(cfg, c, e) && e.Read? && c.calls[e.id].req.AppendReq?
    ensures HandledOk(cfg, c, s, s', e)
  {
    var n, call := Actor(c, e), c.calls[e.id];
    var sv := c.servers[n];
    MirrorsNode(cfg, c, s, n);
    ReadAppendFacts(cfg, c, s, e);
    s' := AppendReplyOk(cfg, s, n, sv, call.to, call.req, call.reply.value);
    ReplyKeepsRole(cfg, sv, Peers(cfg, n), call.to, call.req, call.reply.value);
    SameCandidateOk(cfg, s.h, s'.h, c, CallsAfter(c, e, None), n, sv, Handled(cfg, c, e).server);
  }

  lemma ReplyKeepsRole(cfg: Config, sv: Server, peers: set<NodeId>, peer: NodeId, req: Request, rep: Reply)
    requires req.AppendReq? && rep.AppendRep?
    ensures var r := OnAppendReply(cfg.decode, sv, peers, peer, req, rep);
            SameCandidate(sv, r.server) && !r.out.AskVotes? && (r.out.Retry? ==> r.out.peer == peer && r.server.role == Leader)
  {
    if rep.term <= sv.term && sv.role == Leader && sv.leader.Some? {
      var sv1 := Confirmed(sv, peer, LastSent(req));
      ApplyTouches(cfg.decode, sv1.(commit := ScanCommit(sv1, peers, |sv1.log|)));
    }
  }

  /** The reply just read joins the peers that were heard. */
  lemma HeardGrows(cfg: Config, h: A.History, c: Cluster, t: nat, n: NodeId, id: CallId)
    requires id in c.calls && id.ForVote? && id.term == t && id.from == n && id.to in Peers(cfg, n)
    requires A.Granted(h, t, id.to, n)
    ensures |Heard(cfg, h, c.calls - {id}, t, n)| >= |Heard(cfg, h, c.calls, t, n)| + 1
  {
    var before := Heard(cfg, h, c.calls, t, n);
    assert id.to !in before;
    SubsetSize(before + {id.to}, Heard(cfg, h, c.calls - {id}, t, n));
  }

  /** Before the reply is counted, the heard peers outnumber the counted votes. */
  lemma ReadVoteFacts(cfg: Config, c: Cluster, s: A.State, e: Event)
    requires Related(cfg, c, s) && Possible(cfg, c, e) && e.Read? && c.calls[e.id].req.VoteReq?
    ensures var n, call := Actor(c, e), c.calls[e.id]; var sv := c.servers[n];
            sv.role == Candidate ==>
              A.Granted(s.h, sv.term, n, n) && sv.votes <= 1 + |Heard(cfg, s.h, c.calls - {e.id}, sv.term, n)| &&
              (sv.term == call.req.term && call.reply.value.granted ==>
                 sv.votes + 1 <= 1 + |Heard(cfg, s.h, c.calls - {e.id}, sv.term, n)|)
  {
    var n, call := Actor(c, e), c.calls[e.id];
    var sv := c.servers[n];
    MirrorsNode(cfg, c, s, n);
    assert CallOk(cfg, s.h, e.id, call);
    SubsetSize(Heard(cfg, s.h, c.calls, sv.term, n), Heard(cfg, s.h, c.calls - {e.id}, sv.term, n));
    if sv.role == Candidate && sv.term == call.req.term && call.reply.value.granted {
      HeardGrows(cfg, s.h, c, sv.term, n, e.id);
    }
  }

  lemma ReadVoteOk(cfg: Config, c: Cluster, s: A.State, e: Event) returns (s': A.State)
    requires Related(cfg, c, s) && Possible(cfg, c, e) && e.Read? && c.calls[e.id].req.VoteReq?
    ensures HandledOk(cfg, c, s, s', e)
  {
    var n, call := Actor(c, e), c.calls[e.id];
    var sv := c.servers[n];
    MirrorsNode(cfg, c, s, n);
    ReadVoteFacts(cfg, c, s, e);
    var heard := Heard(cfg, s.h, c.calls - {e.id}, sv.term, n);
    s' := CountVoteOk(cfg, s, n, sv, heard, call.req.term, call.reply.value, e.fault);
    SubsetSize(heard, Heard(cfg, s'.h, c.calls - {e.id}, sv.term, n));
    assert CandidateOk(cfg, s'.h, c.calls - {e.id}, n, Handled(cfg, c, e).server);
  }

  lemma ReadPreVoteOk(cfg: Config, c: Cluster, s: A.State, e: Event) returns (s': A.State)
    requires Related(cfg, c, s) && Possible(cfg, c, e) && e.Read? && c.calls[e.id].req.PreVoteReq?
    ensures HandledOk(cfg, c, s, s', e)
  {
    var n, call := Actor(c, e), c.calls[e.id];
    var sv, rep, r := c.servers[n], call.reply.value, c.rounds[e.id.round];
    MirrorsNode(cfg, c, s, n);
    if rep.term <= sv.term && !StaleRound(sv, r) && rep.granted && r.votes + 1 >= Majority(Peers(cfg, n)) {
      s' := CampaigningOk(cfg, s, n, sv, e.fault);
    } else {
      s' := CheckTermOk(cfg, s, n, sv, rep.term);
      SameCandidateOk(cfg, s.h, s'.h, c, CallsAfter(c, e, None), n, sv, Handled(cfg, c, e).server);
    }
  }

  lemma HandlerOk(cfg: Config, c: Cluster, s: A.State, e: Event) returns (s': A.State)
    requires Related(cfg, c, s) && Possible(cfg, c, e)
    ensures HandledOk(cfg, c, s, s', e)
  {
    match e
    case Timeout(_, _) => s' := TimeoutOk(cfg, c, s, e);
    case Heartbeat(_) => s' := TimeoutOk(cfg, c, s, e);
    case Client(_, _, _) => s' := ClientOk(cfg, c, s, e);
    case Serve(id, _) =>
      if c.calls[id].req.VoteReq? { s' := ServeVoteOk(cfg, c, s, e); }
      else if c.calls[id].req.PreVoteReq? { s' := ServePreVoteOk(cfg, c, s, e); }
      else { s' := ServeAppendOk(cfg, c, s, e); }
    case Read(id, _) =>
      if c.calls[id].req.VoteReq? { s' := ReadVoteOk(cfg, c, s, e); }
      else if c.calls[id].req.PreVoteReq? { s' := ReadPreVoteOk(cfg, c, s, e); }
      else { s' := ReadAppendOk(cfg, c, s, e); }
  }

  // ---------- Whole events ----------

  lemma CallsMadeOk(cfg: Config, c: Cluster, s: A.State, s': A.State, e: Event)
    requires Related(cfg, c, s) && Possible(cfg, c, e) && HandledOk(cfg, c, s, s', e)
    ensures var made := CallsMade(cfg, c, e);
            forall id {:trigger CallOk(cfg, s'.h, id, made[id])} :: id in made ==> CallOk(cfg, s'.h, id, made[id])
  {
    var n, r := Actor(c, e), Handled(cfg, c, e);
    if !(e.Timeout? && Peers(cfg, n) != {}) {
      SentOk(cfg, s', n, r.server, r.out, c.serial);
    }
  }

  lemma OldCallOk(cfg: Config, c: Cluster, s: A.State, s': A.State, e: Event, id: CallId)
    requires Related(cfg, c, s) && Possible(cfg, c, e) && HandledOk(cfg, c, s, s', e)
    requires var calls := CallsAfter(c, e, Handled(cfg, c, e).reply); id in calls
    ensures CallOk(cfg, s'.h, id, CallsAfter(c, e, Handled(cfg, c, e).reply)[id])
  {
    if !(e.Serve? && id == e.id) {
      assert CallOk(cfg, s.h, id, c.calls[id]);
      CallStaysOk(cfg, s.h, s'.h, id, c.calls[id]);
    }
  }

  lemma MadeFrom(cfg: Config, c: Cluster, e: Event, m: NodeId)
    requires Possible(cfg, c, e)
    requires m != Actor(c, e) || !Handled(cfg, c, e).out.AskVotes?
    ensures VoteCallsOf(c, CallsAfter(c, e, Handled(cfg, c, e).reply) + CallsMade(cfg, c, e), m)
  {
  }

  lemma ActorCandidateOk(cfg: Config, c: Cluster, s: A.State, s': A.State, e: Event)
    requires Related(cfg, c, s) && Possible(cfg, c, e) && HandledOk(cfg, c, s, s', e)
    ensures CandidateOk(cfg, s'.h, AfterHandler(cfg, c, e).calls, Actor(c, e), Handled(cfg, c, e).server)
  {
    var n, r := Actor(c, e), Handled(cfg, c, e);
    var calls := CallsAfter(c, e, r.reply);
    if !r.out.AskVotes? && r.server.role == Candidate {
      var t := r.server.term;
      forall p | ForVote(t, n, p) in calls + CallsMade(cfg, c, e) ensures ForVote(t, n, p) in calls {}
      SubsetSize(Heard(cfg, s'.h, calls, t, n), Heard(cfg, s'.h, calls + CallsMade(cfg, c, e), t, n));
    }
  }

  lemma HandlerEventOk(cfg: Config, c: Cluster, s: A.State, e: Event) returns (s': A.State)
    requires Related(cfg, c, s) && Possible(cfg, c, e)
    ensures Path(s, s', Actor(c, e)) && Related(cfg, AfterHandler(cfg, c, e), s')
  {
    s' := HandlerOk(cfg, c, s, e);
    var c' := AfterHandler(cfg, c, e);
    var made := CallsMade(cfg, c, e);
    CallsMadeOk(cfg, c, s, s', e);
    forall id | id in c'.calls ensures CallOk(cfg, s'.h, id, c'.calls[id]) {
      if id in made {
        assert c'.calls[id] == made[id];
      } else {
        OldCallOk(cfg, c, s, s', e, id);
      }
    }
    forall m | m != Actor(c, e) ensures VoteCallsOf(c, c'.calls, m) { MadeFrom(cfg, c, e, m); }
    ActorCandidateOk(cfg, c, s, s', e);
    Reassemble(cfg, c, s, s', Actor(c, e), c');
  }
}
