/** What one event does to its node and what is answered, said outright: when a vote, a
    pre-vote or an entry is accepted, what a proposal puts into the log, what an answer does
    to the leader's books and its commit index. */
module EngineAnswers {
  import opened RaftTypes
  import opened Engine
  import opened EngineCluster
  import opened EngineRelation
  import opened EngineSteps
  import opened EngineRefinement
  import opened EngineSafety
  import opened EngineGuarantees
  import opened EngineLoops
  import opened EngineCommits
  import opened AbstractInvariants
  import A = AbstractRaft

  // ---------- Votes ----------

  /** A vote is granted exactly when the request is not of an older term, the voter has no
      other vote in its term, and the candidate's log is not behind; the answer carries the
      higher of the two terms, and the vote is the last thing on disk before it. */
  lemma VoteGrantedExactly(cfg: Config, c: Cluster, id: CallId, fault: Fault)
    requires Enabled(cfg, c, Serve(id, fault)) && c.calls[id].req.VoteReq?
    ensures var c' := After(cfg, c, Serve(id, fault));
            id in c'.calls && c'.calls[id].reply.Some? && c'.calls[id].reply.value.VoteRep? && c.calls[id].to in c'.servers
    ensures var c', call := After(cfg, c, Serve(id, fault)), c.calls[id];
            var s, s', req, rep := c.servers[call.to], c'.servers[call.to], call.req, c'.calls[id].reply.value;
            (rep.granted <==>
               && req.term >= s.term
               && (req.term > s.term || s.vote == None || s.vote == Some(call.from))
               && (s.log == [] || var last := s.log[|s.log| - 1].term;
                   req.lastTerm > last || (req.lastTerm == last && req.lastIndex >= |s.log|))) &&
            rep.term == s'.term == Max(s.term, req.term) && s'.log == s.log &&
            s'.vote == if rep.granted then Some(call.from) else if req.term > s.term then None else s.vote
    ensures var rep, ws := After(cfg, c, Serve(id, fault)).calls[id].reply.value, Handled(cfg, c, Serve(id, fault)).writes;
            rep.granted <==> ws != [] && ws[|ws| - 1] == SaveVote(Some(c.calls[id].from))
  {
    VoteIsLastWrite(c.servers[c.calls[id].to], c.calls[id].from, c.calls[id].req);
  }

  lemma VoteIsLastWrite(s: Server, candidate: NodeId, req: Request)
    requires req.VoteReq?
    ensures var r := OnVoteRequest(s, candidate, req);
            r.reply.Some? && r.reply.value.VoteRep? &&
            (r.reply.value.granted <==> r.writes != [] && r.writes[|r.writes| - 1] == SaveVote(Some(candidate)))
  {
  }

  /** A pre-vote is granted exactly when its term is newer than the voter's, the voter neither
      leads nor heard a leader within the minimum timeout, and the log is not behind. */
  lemma PreVoteGrantedExactly(cfg: Config, c: Cluster, id: CallId, fault: Fault)
    requires Enabled(cfg, c, Serve(id, fault)) && c.calls[id].req.PreVoteReq?
    ensures var c' := After(cfg, c, Serve(id, fault));
            id in c'.calls && c'.calls[id].reply.Some? && c'.calls[id].reply.value.VoteRep? && c'.servers == c.servers &&
            Handled(cfg, c, Serve(id, fault)).writes == []
    ensures var call, rep := c.calls[id], After(cfg, c, Serve(id, fault)).calls[id].reply.value;
            var s, req := c.servers[call.to], call.req;
            (rep.granted <==>
               && req.term > s.term && s.role != Leader
               && (s.contact == None || c.now >= s.contact.value + cfg.timeoutMin)
               && (s.log == [] || var last := s.log[|s.log| - 1].term;
                   req.lastTerm > last || (req.lastTerm == last && req.lastIndex >= |s.log|))) &&
            rep.term == s.term
  {
    assert c.servers[c.calls[id].to := c.servers[c.calls[id].to]] == c.servers;
  }

  /** Reading a vote's answer: a granted vote of the campaign under way counts once, and the
      node leads exactly when more than half of all nodes, itself included, are for it. */
  lemma VotesCountExactly(cfg: Config, c: Cluster, id: CallId, fault: Fault)
    requires Enabled(cfg, c, Read(id, fault)) && c.calls[id].req.VoteReq?
    requires c.calls[id].reply.value.term <= c.servers[c.calls[id].from].term
    ensures c.calls[id].from in After(cfg, c, Read(id, fault)).servers
    ensures var call, n := c.calls[id], c.calls[id].from;
            var s, s' := c.servers[n], After(cfg, c, Read(id, fault)).servers[n];
            if s.role == Candidate && s.term == call.req.term && call.reply.value.granted then
              (s'.role == Leader <==> 2 * (s.votes + 1) > |cfg.ids|) && s'.term == s.term &&
              (s'.role != Leader ==> s' == s.(votes := s.votes + 1))
            else s' == s
  {
    var n := c.calls[id].from;
    var s := c.servers[n];
    assert cfg.ids == Peers(cfg, n) + {n};
    if s.role == Candidate { LeaderStays(cfg.decode, Counted(s), Peers(cfg, n), fault); }
  }

  /** The round still counts: nobody campaigned for it, and the node has neither moved on nor
      heard a leader since it began. */
  predicate RoundOpen(s: Server, r: Round) {
    !r.campaigned && s.role != Leader && s.term == r.term && (s.contact == None || s.contact.value <= r.started)
  }

  lemma PreVoteReplyIs(decode: Decoder, s: Server, me: NodeId, peers: set<NodeId>, r: Round, rep: Reply, fault: Fault)
    requires rep.VoteRep? && rep.term <= s.term && peers != {}
    ensures var (done, after) := OnPreVoteReply(decode, s, me, peers, r, rep, fault);
            var counts := RoundOpen(s, r) && rep.granted;
            var wins := counts && 2 * (r.votes + 1) > |peers| + 1;
            after == (if counts then r.(votes := r.votes + 1, campaigned := wins) else r) &&
            done.server == (if wins then s.(term := s.term + 1, role := Candidate, vote := Some(me), leader := None, votes := 1) else s) &&
            done.out == if wins then AskVotes else Silent
  {
  }

  lemma AskedAll(cfg: Config, n: NodeId, s: Server, serial: nat)
    ensures var sent := Sent(cfg, n, s, AskVotes, serial);
            forall p :: p in Peers(cfg, n) ==>
              ForVote(s.term, n, p) in sent &&
              sent[ForVote(s.term, n, p)] == Call(n, p, s.epoch, VoteReq(s.term, |s.log|, LastTerm(s.log)), None)
  {
    forall p | p in Peers(cfg, n) ensures ForVote(s.term, n, p) in VoteIds(cfg, n, s.term) {}
  }

  /** Reading a pre-vote's answer: a granted one counts once while the round is open, and more
      than half of all nodes start one campaign, in the next term and with the node's own vote. */
  lemma PreVotesCountExactly(cfg: Config, c: Cluster, id: CallId, fault: Fault)
    requires Enabled(cfg, c, Read(id, fault)) && c.calls[id].req.PreVoteReq? && c.calls[id].to in Peers(cfg, c.calls[id].from)
    requires c.calls[id].reply.value.term <= c.servers[c.calls[id].from].term
    ensures var c' := After(cfg, c, Read(id, fault)); c.calls[id].from in c'.servers && id.round in c'.rounds
    ensures var n, c', r := c.calls[id].from, After(cfg, c, Read(id, fault)), c.rounds[id.round];
            var s, s' := c.servers[n], c'.servers[n];
            var counts := RoundOpen(s, r) && c.calls[id].reply.value.granted;
            var wins := counts && 2 * (r.votes + 1) > |cfg.ids|;
            c'.rounds[id.round] == (if counts then r.(votes := r.votes + 1, campaigned := wins) else r) &&
            s' == if wins then s.(term := s.term + 1, role := Candidate, vote := Some(n), leader := None, votes := 1) else s
  {
    var n, rep := c.calls[id].from, c.calls[id].reply.value;
    assert cfg.ids == Peers(cfg, n) + {n};
    PreVoteReplyIs(cfg.decode, c.servers[n], n, Peers(cfg, n), c.rounds[id.round], rep, fault);
  }

  /** Whoever enters a new term as a candidate asks every peer for its vote, with its own last
      index and term. */
  lemma CandidatesAskAll(cfg: Config, c: Cluster, e: Event, p: NodeId)
    requires Enabled(cfg, c, e) && Handles(e) && p in Peers(cfg, Actor(c, e))
    requires var n, c' := Actor(c, e), After(cfg, c, e);
             n in c'.servers && c'.servers[n].role == Candidate && c'.servers[n].term > c.servers[n].term
    ensures var n, c' := Actor(c, e), After(cfg, c, e);
            var s, s' := c.servers[n], c'.servers[n];
            var ask := ForVote(s'.term, n, p);
            s'.term == s.term + 1 && s'.log == s.log && s'.vote == Some(n) && s'.votes == 1 &&
            ask in c'.calls && c'.calls[ask] == Call(n, p, s.epoch, VoteReq(s'.term, |s.log|, LastTerm(s.log)), None)
  {
    CampaignAsks(cfg, c, e);
    AskedAll(cfg, Actor(c, e), Handled(cfg, c, e).server, c.serial);
  }

  lemma CampaignAsks(cfg: Config, c: Cluster, e: Event)
    requires Possible(cfg, c, e) && Peers(cfg, Actor(c, e)) != {}
    requires var s, s' := c.servers[Actor(c, e)], Handled(cfg, c, e).server; s'.role == Candidate && s'.term > s.term
    ensures var n, r := Actor(c, e), Handled(cfg, c, e); var s := c.servers[n];
            r.out.AskVotes? && e.Read? &&
            r.server == s.(term := s.term + 1, role := Candidate, vote := Some(n), leader := None, votes := 1)
  {
    var n := Actor(c, e);
    var s, ps := c.servers[n], Peers(cfg, n);
    if e.Client? {
      ProposeOnlyAppends(cfg.decode, s, ps, e.command, e.fault);
    } else if e.Serve? && c.calls[e.id].req.AppendReq? {
      var req := c.calls[e.id].req;
      AcceptTouches(cfg, Heed(s, c.calls[e.id].from, req.term, c.now), req, e.fault);
    } else if e.Read? {
      var rep := c.calls[e.id].reply.value;
      if c.calls[e.id].req.AppendReq? {
        if s.leader.Some? { UpdateTouches(cfg.decode, Confirmed(s, c.calls[e.id].to, LastSent(c.calls[e.id].req)), ps); }
      } else if !e.id.ForPreVote? && s.role == Candidate {
        LeaderStays(cfg.decode, Counted(s), ps, e.fault);
      }
    }
  }

  lemma ProposeOnlyAppends(decode: Decoder, s: Server, peers: set<NodeId>, command: seq<byte>, fault: Fault)
    ensures var r := Propose(decode, s, peers, command, fault).server; r.role == s.role && r.term == s.term && r.leader == s.leader
  {
    var s1 := s.(log := s.log + [OwnEntry(s, command)]);
    ApplyTouches(decode, s1.(commit := |s1.log|));
  }

  /** The calls that leave a node are exactly the requests its handler sends, one per peer. */
  lemma SentIsRequests(cfg: Config, n: NodeId, s: Server, out: Out, serial: nat)
    ensures var sent, reqs := Sent(cfg, n, s, out, serial), Requests(s, Peers(cfg, n), out);
            (forall id :: id in sent ==> id.to in reqs && sent[id] == Call(n, id.to, s.epoch, reqs[id.to], None)) &&
            forall p :: p in reqs ==>
              var id := if out.AskVotes? then ForVote(s.term, n, p) else ForAppend(serial, p); id in sent && sent[id].to == p
  {
    var reqs := Requests(s, Peers(cfg, n), out);
    forall p | p in reqs
      ensures var id := if out.AskVotes? then ForVote(s.term, n, p) else ForAppend(serial, p);
              id in Sent(cfg, n, s, out, serial) && id.to == p
    {
      if out.AskVotes? { assert ForVote(s.term, n, p) in VoteIds(cfg, n, s.term); }
      if out.Broadcast? { assert ForAppend(serial, p) in AppendIds(cfg, n, serial); }
    }
  }

  // ---------- Followers ----------

  /** Applying nothing for anybody: with no client waiting only the table and the index move. */
  lemma {:induction false} ApplyQuietly(decode: Decoder, s: Server)
    requires s.pending == map[]
    ensures Apply(decode, s).proposals == s.proposals && Apply(decode, s).pending == map[]
    decreases s.commit - s.applied
  {
    if s.applied < s.commit { ApplyQuietly(decode, ApplyNext(decode, s)); }
  }

  /** What a request does once it is accepted, by what it says of the entries and the commit index. */
  lemma AcceptedIs(decode: Decoder, s: Server, req: Request, fault: Fault)
    requires req.AppendReq? && s.applied == s.commit
    ensures var r := Accept(decode, s, req, fault); var s' := r.server;
            r.reply.Some? && r.reply.value.AppendRep? && r.reply.value.term == s.term &&
            (fault.NoFault? ==> r.reply.value.success) &&
            s'.applied == s'.commit == (if r.reply.value.success then Max(s.commit, Min(req.commit, req.prevIndex + |req.entries|)) else s.commit) &&
            (s'.commit == s.commit ==> s'.table == s.table) &&
            s' == s.(log := s'.log, commit := s'.commit, applied := s'.applied, table := s'.table,
                     proposals := s'.proposals, pending := s'.pending)
  {
    var m := Merge(s.log, req.prevIndex, req.entries, fault);
    ApplyTouches(decode, s.(log := m.0, commit := Min(req.commit, LastSent(req))));
  }

  lemma AppendIs(decode: Decoder, s: Server, from: NodeId, req: Request, now: nat, fault: Fault)
    requires req.AppendReq? && s.applied == s.commit && req.term >= s.term
    ensures var r := OnAppendRequest(decode, s, from, req, now, fault); var s' := r.server;
            r.reply.Some? && r.reply.value.AppendRep? && r.reply.value.term == s'.term == req.term &&
            s'.contact == Some(now) && s'.leaderId == Some(from) &&
            s'.vote == (if req.term > s.term then None else s.vote) &&
            s'.role == (if req.term > s.term || s.role == Candidate then Follower else s.role) &&
            s'.applied == s'.commit == (if r.reply.value.success then Max(s.commit, Min(req.commit, req.prevIndex + |req.entries|)) else s.commit)
    ensures var r := OnAppendRequest(decode, s, from, req, now, fault);
            r.reply.value.success ==>
              req.prevIndex == 0 || (req.prevIndex <= |s.log| && s.log[req.prevIndex - 1].term == req.prevTerm)
    ensures var r := OnAppendRequest(decode, s, from, req, now, fault);
            fault.NoFault? && (req.prevIndex == 0 || (req.prevIndex <= |s.log| && s.log[req.prevIndex - 1].term == req.prevTerm)) ==>
              r.reply.value.success
  {
    AcceptedIs(decode, Heed(s, from, req.term, now), req, fault);
  }

  /** Step i of the run is the handling of this AppendEntries request. */
  ghost predicate AppendServed(cfg: Config, run: seq<Cluster>, i: nat, id: CallId, fault: Fault) {
    IsRun(cfg, run) && i + 1 < |run| && Goes(cfg, run[i], Serve(id, fault), run[i + 1]) && run[i].calls[id].req.AppendReq?
  }

  /** The handling of a request in a run, with what its node then holds. */
  lemma ServedFacts(cfg: Config, run: seq<Cluster>, i: nat, id: CallId, fault: Fault)
    requires AppendServed(cfg, run, i, id, fault)
    ensures var call := run[i].calls[id]; var s := run[i].servers[call.to];
            s.applied == s.commit && (s.role == Leader ==> s.term != call.req.term) &&
            id in run[i + 1].calls && call.to in run[i + 1].servers &&
            var r := OnAppendRequest(cfg.decode, s, call.from, call.req, run[i].now, fault);
            run[i + 1].servers[call.to] == r.server && run[i + 1].calls[id].reply == r.reply
  {
    var call := run[i].calls[id];
    CommittedIsApplied(cfg, run, i, call.to);
    if run[i].servers[call.to].role == Leader { LeaderNeverFollowsItself(cfg, run, i, id); }
  }

  /** An older request changes nothing and is refused with the newer term. Any other makes its
      receiver a follower of the sender in its term, heard just now. */
  lemma LeaderIsHeeded(cfg: Config, run: seq<Cluster>, i: nat, id: CallId, fault: Fault)
    requires AppendServed(cfg, run, i, id, fault)
    ensures run[i].calls[id].to in run[i + 1].servers && id in run[i + 1].calls && run[i + 1].calls[id].reply.Some?
    ensures var call := run[i].calls[id]; var rep := run[i + 1].calls[id].reply.value;
            var s, s' := run[i].servers[call.to], run[i + 1].servers[call.to];
            if call.req.term < s.term then s' == s && rep == AppendRep(s.term, false)
            else
              && rep.AppendRep? && rep.term == s'.term == call.req.term && s'.role == Follower
              && s'.leaderId == Some(call.from) && s'.contact == Some(run[i].now)
              && s'.vote == if call.req.term > s.term then None else s.vote
  {
    ServedFacts(cfg, run, i, id, fault);
    var call := run[i].calls[id];
    var s := run[i].servers[call.to];
    if call.req.term >= s.term { AppendIs(cfg.decode, s, call.from, call.req, run[i].now, fault); }
  }

  /** A request succeeds only if it is not of an older term and fits the log at its previous
      index, and with working storage it then always does. */
  lemma AppendSucceedsExactly(cfg: Config, run: seq<Cluster>, i: nat, id: CallId, fault: Fault)
    requires AppendServed(cfg, run, i, id, fault)
    ensures id in run[i + 1].calls && run[i + 1].calls[id].reply.Some? && run[i + 1].calls[id].reply.value.AppendRep?
    ensures var call := run[i].calls[id]; var success := run[i + 1].calls[id].reply.value.success;
            var s, req := run[i].servers[call.to], call.req;
            var fits := req.term >= s.term &&
              (req.prevIndex == 0 || (req.prevIndex <= |s.log| && s.log[req.prevIndex - 1].term == req.prevTerm));
            (success ==> fits) && (fault.NoFault? && fits ==> success)
  {
    ServedFacts(cfg, run, i, id, fault);
    var call := run[i].calls[id];
    var s := run[i].servers[call.to];
    if call.req.term >= s.term { AppendIs(cfg.decode, s, call.from, call.req, run[i].now, fault); }
  }

  /** After a success the follower has committed and applied all that the leader had committed
      and the request is known to have covered; after a failure its commit index is as it was. */
  lemma SuccessCommits(cfg: Config, run: seq<Cluster>, i: nat, id: CallId, fault: Fault)
    requires AppendServed(cfg, run, i, id, fault)
    ensures run[i].calls[id].to in run[i + 1].servers && id in run[i + 1].calls
    ensures run[i + 1].calls[id].reply.Some? && run[i + 1].calls[id].reply.value.AppendRep?
    ensures var call := run[i].calls[id]; var success := run[i + 1].calls[id].reply.value.success;
            var s, s', req := run[i].servers[call.to], run[i + 1].servers[call.to], call.req;
            s'.commit == s'.applied == (if success then Max(s.commit, Min(req.commit, req.prevIndex + |req.entries|)) else s.commit) &&
            s'.commit <= |s'.log| && s'.table == Fold(cfg.decode, s'.log[..s'.commit])
  {
    ServedFacts(cfg, run, i, id, fault);
    var call := run[i].calls[id];
    var s := run[i].servers[call.to];
    if call.req.term >= s.term { AppendIs(cfg.decode, s, call.from, call.req, run[i].now, fault); }
    CommittedIsApplied(cfg, run, i + 1, call.to);
  }

  /** A node in the request's term holds what it confirmed of that request. */
  lemma ConfirmedSlice(cfg: Config, s: A.State, id: CallId, call: Call, n: NodeId, sv: Server)
    requires Mirrors(cfg, s, n, sv) && CallOk(cfg, s.h, id, call) && call.req.AppendReq? && sv.term == call.req.term
    requires n == call.to && call.reply.Some? && call.reply.value.success
    ensures var req, log := call.req, sv.log;
            req.prevIndex + |req.entries| <= |log| && log[req.prevIndex..req.prevIndex + |req.entries|] == req.entries
  {
    var end := LastSent(call.req);
    KeepsConfirmed(s, n, sv.log, sv.term, end);
    SliceOfPrefix(sv.log, A.LogOf(s.h, sv.term), end, call.req.prevIndex, end);
  }

  lemma AnsweredFacts(cfg: Config, run: seq<Cluster>, i: nat, id: CallId) returns (s: A.State)
    requires IsRun(cfg, run) && i < |run| && id in run[i].calls
    ensures CallOk(cfg, s.h, id, run[i].calls[id]) && run[i].calls[id].to in cfg.ids && run[i].calls[id].to in run[i].servers
    ensures Mirrors(cfg, s, run[i].calls[id].to, run[i].servers[run[i].calls[id].to])
  {
    var abs := EngineRefinesRaft(cfg, run);
    assert RelatedAt(cfg, run, abs, i);
    assert CallOk(cfg, abs[i].h, id, run[i].calls[id]);
    MirrorsAt(cfg, run, abs, i, run[i].calls[id].to);
    s := abs[i];
  }

  /** The call answered is the call that was served, and its node is in the request's term. */
  lemma ServedIs(cfg: Config, run: seq<Cluster>, i: nat, id: CallId, fault: Fault)
    requires AppendServed(cfg, run, i, id, fault) && run[i].calls[id].req.term >= run[i].servers[run[i].calls[id].to].term
    ensures id in run[i + 1].calls && run[i].calls[id].to in run[i + 1].servers
    ensures run[i + 1].calls[id] == run[i].calls[id].(reply := run[i + 1].calls[id].reply)
    ensures run[i + 1].servers[run[i].calls[id].to].term == run[i].calls[id].req.term
  {
    var call := run[i].calls[id];
    ServedFacts(cfg, run, i, id, fault);
    AppendIs(cfg.decode, run[i].servers[call.to], call.from, call.req, run[i].now, fault);
  }

  lemma OldIsRefused(cfg: Config, run: seq<Cluster>, i: nat, id: CallId, fault: Fault)
    requires AppendServed(cfg, run, i, id, fault) && run[i].calls[id].req.term < run[i].servers[run[i].calls[id].to].term
    ensures id in run[i + 1].calls && run[i + 1].calls[id].reply == Some(AppendRep(run[i].servers[run[i].calls[id].to].term, false))
  {
  }

  /** A success means that the follower now holds the sent entries, at their indices. */
  lemma SuccessHolds(cfg: Config, run: seq<Cluster>, i: nat, id: CallId, fault: Fault)
    requires AppendServed(cfg, run, i, id, fault)
    requires id in run[i + 1].calls && run[i + 1].calls[id].reply == Some(AppendRep(run[i].calls[id].req.term, true))
    ensures run[i].calls[id].to in run[i + 1].servers
    ensures var req := run[i].calls[id].req; var log := run[i + 1].servers[run[i].calls[id].to].log;
            req.prevIndex + |req.entries| <= |log| && log[req.prevIndex..req.prevIndex + |req.entries|] == req.entries
  {
    var to := run[i].calls[id].to;
    if run[i].calls[id].req.term < run[i].servers[to].term {
      OldIsRefused(cfg, run, i, id, fault);
    } else {
      ServedIs(cfg, run, i, id, fault);
      var s := AnsweredFacts(cfg, run, i + 1, id);
      ConfirmedSlice(cfg, s, id, run[i + 1].calls[id], to, run[i + 1].servers[to]);
    }
  }

  // ---------- Leaders ----------

  /** The newest state of a leader's books after an answer of its own term. */
  lemma ConfirmIs(decode: Decoder, s: Server, peers: set<NodeId>, peer: NodeId, req: Request, rep: Reply)
    requires req.AppendReq? && rep.AppendRep? && rep.success && rep.term <= s.term && req.term == s.term
    requires s.role == Leader && s.leader.Some? && peer in s.leader.value.next && peer in s.leader.value.acked
    requires s.applied == s.commit
    ensures var r, ls, last := OnAppendReply(decode, s, peers, peer, req, rep), s.leader.value, req.prevIndex + |req.entries|;
            var s' := r.server;
            r.out.Silent? &&
            s'.leader == Some(LeaderState(ls.next[peer := Max(ls.next[peer], last + 1)], ls.acked[peer := Max(ls.acked[peer], last)])) &&
            s'.role == Leader && s'.term == s.term && s'.vote == s.vote && s'.log == s.log && s'.applied == s'.commit &&
            IsNewCommit(s.(leader := s'.leader), peers, s'.commit)
  {
    var s1 := Confirmed(s, peer, LastSent(req));
    var c := ScanCommit(s1, peers, |s.log|);
    ScanFinds(s1, peers, |s.log|);
    ScanIsGreatest(s1, peers, c);
    ApplyTouches(decode, s1.(commit := c));
    UpdateTouches(decode, s1, peers);
    assert s1.leader.value.next == s.leader.value.next[peer := Max(s.leader.value.next[peer], LastSent(req) + 1)];
    assert s1.leader.value.acked == s.leader.value.acked[peer := Max(s.leader.value.acked[peer], LastSent(req))];
  }

  /** Step i of the run is the reading of an answer that the leader of that term still waits for. */
  ghost predicate AnswerRead(cfg: Config, run: seq<Cluster>, i: nat, id: CallId, fault: Fault) {
    && IsRun(cfg, run) && i + 1 < |run| && Goes(cfg, run[i], Read(id, fault), run[i + 1]) && run[i].calls[id].req.AppendReq?
    && var call := run[i].calls[id]; var s := run[i].servers[call.from];
       s.role == Leader && s.term == call.req.term && call.reply.value.term <= s.term
  }

  lemma ReadFacts(cfg: Config, run: seq<Cluster>, i: nat, id: CallId, fault: Fault)
    requires AnswerRead(cfg, run, i, id, fault)
    ensures var call := run[i].calls[id]; var n, peer := call.from, call.to; var s := run[i].servers[n];
            n in cfg.ids && peer in Peers(cfg, n) && s.applied == s.commit && s.leader.Some? &&
            peer in s.leader.value.next && peer in s.leader.value.acked && s.leader.value.next[peer] >= 1 &&
            n in run[i + 1].servers &&
            run[i + 1].servers[n] == OnAppendReply(cfg.decode, s, Peers(cfg, n), peer, call.req, call.reply.value).server
  {
    var call := run[i].calls[id];
    var s := AnsweredFacts(cfg, run, i, id);
    CommittedIsApplied(cfg, run, i, call.from);
    BookkeepingSound(cfg, run, i, call.from, call.to);
  }

  /** A success raises the peer's two indices to what the request covered, never lowers them,
      and the commit index becomes the greatest that the raised books allow, all of it applied. */
  lemma SuccessIsCounted(cfg: Config, run: seq<Cluster>, i: nat, id: CallId, fault: Fault)
    requires AnswerRead(cfg, run, i, id, fault) && run[i].calls[id].reply.value.success
    ensures var call := run[i].calls[id]; var n, peer, last := call.from, call.to, call.req.prevIndex + |call.req.entries|;
            n in run[i + 1].servers && run[i].servers[n].leader.Some? &&
            var s, s', ls := run[i].servers[n], run[i + 1].servers[n], run[i].servers[n].leader.value;
            peer in ls.next && peer in ls.acked &&
            s'.leader == Some(LeaderState(ls.next[peer := Max(ls.next[peer], last + 1)], ls.acked[peer := Max(ls.acked[peer], last)])) &&
            s'.role == Leader && s'.term == s.term && s'.vote == s.vote && s'.log == s.log &&
            IsNewCommit(s.(leader := s'.leader), Peers(cfg, n), s'.commit) && s'.applied == s'.commit
  {
    var call := run[i].calls[id];
    ReadFacts(cfg, run, i, id, fault);
    ConfirmIs(cfg.decode, run[i].servers[call.from], Peers(cfg, call.from), call.to, call.req, call.reply.value);
  }

  /** A failure moves the peer's next index back by one, never below 1, changes nothing else,
      and if it moved the leader asks again at once from there. */
  lemma FailureBacksOff(cfg: Config, run: seq<Cluster>, i: nat, id: CallId, fault: Fault)
    requires AnswerRead(cfg, run, i, id, fault) && !run[i].calls[id].reply.value.success
    ensures var call := run[i].calls[id]; var n, peer := call.from, call.to;
            n in run[i + 1].servers && run[i].servers[n].leader.Some? &&
            var s, s', ls := run[i].servers[n], run[i + 1].servers[n], run[i].servers[n].leader.value;
            peer in ls.next && ls.next[peer] >= 1 &&
            s' == s.(leader := Some(ls.(next := ls.next[peer := Max(1, ls.next[peer] - 1)])))
    ensures var call := run[i].calls[id]; var n, peer := call.from, call.to; var s := run[i].servers[n];
            s.leader.Some? && peer in s.leader.value.next && s.leader.value.next[peer] > 1 ==>
              var retry := ForAppend(run[i].serial, peer);
              retry in run[i + 1].calls && run[i + 1].calls[retry].reply.None? && run[i + 1].calls[retry].req.AppendReq? &&
              run[i + 1].calls[retry].req.prevIndex == s.leader.value.next[peer] - 2
  {
    ReadFacts(cfg, run, i, id, fault);
    var call := run[i].calls[id];
    var s, peer := run[i].servers[call.from], call.to;
    var ls := s.leader.value;
    if ls.next[peer] == 1 { assert ls.next[peer := 1] == ls.next; }
  }

  /** Whoever wins an election starts with fresh books, and its log gains one entry: an empty
      command of its own term, unless storage refuses it. */
  lemma NewLeaderAppendsNoOp(cfg: Config, run: seq<Cluster>, i: nat, e: Event, n: NodeId)
    requires IsRun(cfg, run) && i + 1 < |run| && Goes(cfg, run[i], e, run[i + 1]) && n in cfg.ids
    requires n in run[i].servers && run[i].servers[n].role != Leader
    requires n in run[i + 1].servers && run[i + 1].servers[n].role == Leader
    ensures e.Timeout? || e.Read?
    ensures var s, s' := run[i].servers[n], run[i + 1].servers[n];
            s'.log == s.log + (if e.fault.AppendFails? then [] else [Entry(s'.term, Record(|s.log| + 1, []))]) &&
            s'.term == (if e.Timeout? then s.term + 1 else s.term) &&
            s'.leader.Some? && s'.leader.value.next.Keys == Peers(cfg, n) && s'.leader.value.acked.Keys == Peers(cfg, n) &&
            forall p :: p in Peers(cfg, n) ==> s'.leader.value.next[p] == |s.log| + 1 && s'.leader.value.acked[p] == 0
  {
    WinnerActs(cfg, run[i], e, n);
    if e.Read? { PeersAtRead(cfg, run, i, e.id); }
    WinnerIs(cfg, run[i], e, n);
  }

  lemma PeersAtRead(cfg: Config, run: seq<Cluster>, i: nat, id: CallId)
    requires IsRun(cfg, run) && i < |run| && id in run[i].calls
    ensures run[i].calls[id].to in Peers(cfg, run[i].calls[id].from)
  {
    var _ := AnsweredFacts(cfg, run, i, id);
  }

  lemma WinnerIs(cfg: Config, c: Cluster, e: Event, n: NodeId)
    requires Enabled(cfg, c, e) && (e.Timeout? || e.Read?) && n == Actor(c, e) && n in c.servers
    requires c.servers[n].role != Leader && After(cfg, c, e).servers[n].role == Leader
    requires e.Read? ==> Peers(cfg, n) != {}
    ensures WonOver(c.servers[n], After(cfg, c, e).servers[n], if e.Timeout? then c.servers[n].term + 1 else c.servers[n].term,
                    Peers(cfg, n), e.fault)
  {
    if e.Timeout? {
      TimeoutWins(cfg, c, e, n);
    } else {
      ReadWins(cfg, c, e, n);
    }
  }

  /** The state of a winner, by its log, its term and its books. */
  ghost predicate WonOver(s: Server, s': Server, term: nat, peers: set<NodeId>, fault: Fault) {
    && s'.log == s.log + (if fault.AppendFails? then [] else [Entry(term, Record(|s.log| + 1, []))]) && s'.term == term
    && s'.leader == Some(LeaderState(map p | p in peers :: |s.log| + 1, map p | p in peers :: 0))
  }

  lemma LeadIs(decode: Decoder, s: Server, peers: set<NodeId>, fault: Fault)
    requires s.role == Candidate
    ensures WonOver(s, BecomeLeader(decode, s, peers, fault).server, s.term, peers, fault)
  {
    UpdateTouches(decode, LeadWithNoOp(s, peers, fault), peers);
    if fault.AppendFails? { assert s.log + [] == s.log; }
  }

  /** Only a timer and the reading of an answer make a leader. */
  lemma WinnerActs(cfg: Config, c: Cluster, e: Event, n: NodeId)
    requires Enabled(cfg, c, e) && n in c.servers && n in After(cfg, c, e).servers
    requires c.servers[n].role != Leader && After(cfg, c, e).servers[n].role == Leader
    ensures (e.Timeout? || e.Read?) && n == Actor(c, e)
  {
    var s, ps := c.servers[n], Peers(cfg, n);
    if e.Client? {
      ProposeOnlyAppends(cfg.decode, s, ps, e.command, e.fault);
    } else if e.Serve? && c.calls[e.id].req.AppendReq? {
      var req := c.calls[e.id].req;
      AcceptTouches(cfg, Heed(s, c.calls[e.id].from, req.term, c.now), req, e.fault);
    }
  }

  lemma TimeoutWins(cfg: Config, c: Cluster, e: Event, n: NodeId)
    requires Enabled(cfg, c, e) && e.Timeout? && e.n == n && n in c.servers
    requires c.servers[n].role != Leader && After(cfg, c, e).servers[n].role == Leader
    ensures WonOver(c.servers[n], After(cfg, c, e).servers[n], c.servers[n].term + 1, Peers(cfg, n), e.fault)
  {
    var s := c.servers[n];
    var s1 := s.(term := s.term + 1, role := Candidate, vote := Some(n), leader := None, votes := 1);
    LeadIs(cfg.decode, s1, {}, e.fault);
  }

  lemma VoteReplyWins(decode: Decoder, s: Server, peers: set<NodeId>, asked: nat, rep: Reply, fault: Fault)
    requires rep.VoteRep? && s.role != Leader && OnVoteReply(decode, s, peers, asked, rep, fault).server.role == Leader
    ensures WonOver(s, OnVoteReply(decode, s, peers, asked, rep, fault).server, s.term, peers, fault)
  {
    LeadIs(decode, Counted(s), peers, fault);
  }

  lemma PreVoteReplyNeverWins(decode: Decoder, s: Server, me: NodeId, peers: set<NodeId>, r: Round, rep: Reply, fault: Fault)
    requires rep.VoteRep? && s.role != Leader && peers != {}
    ensures OnPreVoteReply(decode, s, me, peers, r, rep, fault).0.server.role != Leader
  {
  }

  lemma ReadWins(cfg: Config, c: Cluster, e: Event, n: NodeId)
    requires Enabled(cfg, c, e) && e.Read? && c.calls[e.id].from == n && Peers(cfg, n) != {} && n in c.servers
    requires c.servers[n].role != Leader && After(cfg, c, e).servers[n].role == Leader
    ensures WonOver(c.servers[n], After(cfg, c, e).servers[n], c.servers[n].term, Peers(cfg, n), e.fault)
  {
    var s, ps, call := c.servers[n], Peers(cfg, n), c.calls[e.id];
    assert After(cfg, c, e).servers[n] == Handled(cfg, c, e).server;
    if e.id.ForPreVote? {
      PreVoteReplyNeverWins(cfg.decode, s, n, ps, c.rounds[e.id.round], call.reply.value, e.fault);
    } else if !call.req.AppendReq? {
      VoteReplyWins(cfg.decode, s, ps, call.req.term, call.reply.value, e.fault);
    }
  }
}
