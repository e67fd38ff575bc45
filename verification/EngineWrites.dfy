/** A write succeeds: from any state of any run, a command given to a leader that a majority
    can still hear ends up applied on all of them, and its client is told so. */
module EngineWrites {
  import opened RaftTypes
  import opened Engine
  import opened EngineCluster
  import opened EngineSafety
  import opened EngineGuarantees
  import opened EngineLoops
  import opened EngineCommits
  import opened EngineClients
  import opened EngineProgress

  // ---------- A client is not forgotten ----------

  /** The client was told of success, or still waits at its index with its own channel. */
  predicate Minded(s: Server, ticket: nat, index: nat) {
    ticket in s.proposals &&
    (s.proposals[ticket].answer == Some(true) ||
     (index in s.pending && s.pending[index] == ticket && s.proposals[ticket].answer == None))
  }

  lemma {:induction false} ApplyMinds(decode: Decoder, s: Server, ticket: nat, index: nat)
    requires Minded(s, ticket, index)
    ensures Minded(Apply(decode, s), ticket, index)
    decreases s.commit - s.applied
  {
    if s.applied < s.commit { ApplyMinds(decode, ApplyNext(decode, s), ticket, index); }
  }

  lemma UpdateMinds(decode: Decoder, s: Server, peers: set<NodeId>, ticket: nat, index: nat)
    requires Minded(s, ticket, index)
    ensures Minded(UpdateCommit(decode, s, peers), ticket, index)
  {
    ApplyMinds(decode, s.(commit := ScanCommit(s, peers, |s.log|)), ticket, index);
  }

  lemma AppendMinds(decode: Decoder, s: Server, from: NodeId, req: Request, now: nat, fault: Fault, ticket: nat, index: nat)
    requires req.AppendReq? && req.term <= s.term && Minded(s, ticket, index)
    ensures Minded(OnAppendRequest(decode, s, from, req, now, fault).server, ticket, index)
  {
    var s1 := Heed(s, from, req.term, now);
    var m := Merge(s1.log, req.prevIndex, req.entries, fault);
    ApplyMinds(decode, s1.(log := m.0, commit := Min(req.commit, LastSent(req))), ticket, index);
  }

  lemma AppendRaises(decode: Decoder, s: Server, from: NodeId, req: Request, now: nat, fault: Fault)
    requires req.AppendReq?
    ensures OnAppendRequest(decode, s, from, req, now, fault).server.term == Max(s.term, req.term)
  {
    var s1 := Heed(s, from, req.term, now);
    var m := Merge(s1.log, req.prevIndex, req.entries, fault);
    ApplyTouches(decode, s1.(log := m.0, commit := Min(req.commit, LastSent(req))));
  }

  lemma CampaignRaises(decode: Decoder, s: Server, me: NodeId, peers: set<NodeId>, fault: Fault)
    ensures CampaignOf(decode, s, me, peers, fault).server.term == s.term + 1
  {
    LeaderStays(decode, s.(term := s.term + 1, role := Candidate, vote := Some(me), leader := None, votes := 1), peers, fault);
  }

  lemma ServeMinds(cfg: Config, c: Cluster, e: Event, ticket: nat, index: nat)
    requires Possible(cfg, c, e) && e.Serve? && Minded(c.servers[Actor(c, e)], ticket, index)
    requires Handled(cfg, c, e).server.term == c.servers[Actor(c, e)].term
    ensures Minded(Handled(cfg, c, e).server, ticket, index)
  {
    var call, s := c.calls[e.id], c.servers[Actor(c, e)];
    if call.req.AppendReq? {
      AppendRaises(cfg.decode, s, call.from, call.req, c.now, e.fault);
      AppendMinds(cfg.decode, s, call.from, call.req, c.now, e.fault, ticket, index);
    }
  }

  lemma ReadMinds(cfg: Config, c: Cluster, e: Event, ticket: nat, index: nat)
    requires Possible(cfg, c, e) && e.Read? && Minded(c.servers[Actor(c, e)], ticket, index)
    requires Handled(cfg, c, e).server.term == c.servers[Actor(c, e)].term
    ensures Minded(Handled(cfg, c, e).server, ticket, index)
  {
    var n, call := Actor(c, e), c.calls[e.id];
    var s, ps := c.servers[n], Peers(cfg, n);
    if call.req.AppendReq? {
      if s.leader.Some? { UpdateMinds(cfg.decode, Confirmed(s, call.to, LastSent(call.req)), ps, ticket, index); }
    } else if e.id.ForPreVote? {
      CampaignRaises(cfg.decode, s, n, ps, e.fault);
    } else {
      UpdateMinds(cfg.decode, LeadWithNoOp(Counted(s), ps, e.fault), ps, ticket, index);
    }
  }

  lemma CalmStepMinds(cfg: Config, c: Cluster, c': Cluster, n: NodeId, ticket: nat, index: nat)
    requires CalmStep(cfg, c, c') && n in c.servers && n in c'.servers && c'.servers[n].term == c.servers[n].term
    requires Minded(c.servers[n], ticket, index)
    ensures Minded(c'.servers[n], ticket, index)
  {
    var e :| Peaceful(e) && Goes(cfg, c, e, c');
    if Handles(e) && n == Actor(c, e) {
      if e.Timeout? { CampaignRaises(cfg.decode, c.servers[n], n, {}, e.fault); }
      else if e.Serve? { ServeMinds(cfg, c, e, ticket, index); }
      else if e.Read? { ReadMinds(cfg, c, e, ticket, index); }
    }
  }

  lemma TermStays(cfg: Config, run: seq<Cluster>, k: nat, j: nat, n: NodeId)
    requires IsRun(cfg, run) && k <= j < |run| && n in cfg.ids
    requires n in run[k].servers && n in LastOf(run).servers && LastOf(run).servers[n].term == run[k].servers[n].term
    ensures n in run[j].servers && run[j].servers[n].term == run[k].servers[n].term
  {
    IndicesOnlyGrow(cfg, run, k, j, n);
    IndicesOnlyGrow(cfg, run, j, |run| - 1, n);
  }

  /** While the node stays in its term nothing peaceful makes it forget a client. */
  lemma {:induction false} CalmMinds(cfg: Config, run: seq<Cluster>, k: nat, j: nat, n: NodeId, ticket: nat, index: nat)
    requires IsRun(cfg, run) && Calm(cfg, run, k) && k <= j < |run| && n in cfg.ids
    requires n in run[k].servers && n in LastOf(run).servers && LastOf(run).servers[n].term == run[k].servers[n].term
    requires Minded(run[k].servers[n], ticket, index)
    ensures n in run[j].servers && Minded(run[j].servers[n], ticket, index)
    decreases j
  {
    if j > k {
      CalmMinds(cfg, run, k, j - 1, n, ticket, index);
      TermStays(cfg, run, k, j - 1, n);
      TermStays(cfg, run, k, j, n);
      assert CalmAt(cfg, run, j - 1);
      CalmStepMinds(cfg, run[j - 1], run[j], n, ticket, index);
    }
  }

  // ---------- The write ----------

  /** The state right after a leader took a command: it leads fully, and its client waits or was told. */
  lemma Taken(cfg: Config, run: seq<Cluster>, n: NodeId, command: seq<byte>, these: set<NodeId>) returns (c: Cluster)
    requires IsRun(cfg, run) && n in cfg.ids && these <= Peers(cfg, n)
    requires n in LastOf(run).servers && LastOf(run).servers[n].role == Leader && AllFollow(LastOf(run), n, these)
    ensures Goes(cfg, LastOf(run), Client(n, command, NoFault), c) && IsRun(cfg, run + [c])
    ensures LeadsFully(c, n) && AllFollow(c, n, these)
    ensures var s, s' := LastOf(run).servers[n], c.servers[n];
            s'.term == s.term && s'.log == s.log + [Entry(s.term, Record(|s.log| + 1, command))] && Minded(s', s.tickets, |s.log| + 1)
  {
    c := After(cfg, LastOf(run), Client(n, command, NoFault));
    RunGoesOn(cfg, run, c, Client(n, command, NoFault));
    ClientCommandIsAppended(cfg, run + [c], |run| - 1, n, command, NoFault);
    forall p | p in these ensures FollowsTerm(c, n, p) { assert FollowsTerm(LastOf(run), n, p); }
  }

  /** The last entry of a fully applied log is what its key reads as. */
  lemma ReadsBack(decode: Decoder, log: Log, e: Entry, c: Command)
    requires CommandOf(e) != [] && decode(CommandOf(e)) == Some(c) && c.kind == 0
    ensures var table := Fold(decode, log + [e]); c.key in table && table[c.key] == c.value
  {
    assert (log + [e])[..|log|] == log;
  }

  /** Once the command at the end of the leader's log is applied, its client was told, unless it
      does not decode, and a value it set reads back. */
  lemma WriteSettled(cfg: Config, run: seq<Cluster>, n: NodeId, ticket: nat, log: Log, e: Entry)
    requires IsRun(cfg, run) && n in cfg.ids && n in LastOf(run).servers && e.data.Record?
    requires var s := LastOf(run).servers[n]; s.log == log + [e] && s.applied == |s.log| && Minded(s, ticket, |s.log|)
    ensures var s := LastOf(run).servers[n];
            CommandOf(e) != [] && cfg.decode(CommandOf(e)).Some? ==>
              ticket in s.proposals && s.proposals[ticket].answer == Some(true) &&
              var c := cfg.decode(CommandOf(e)).value; c.kind == 0 ==> c.key in s.table && s.table[c.key] == c.value
  {
    var s := LastOf(run).servers[n];
    CommittedIsApplied(cfg, run, |run| - 1, n);
    assert s.log[..|s.log|] == s.log;
    if CommandOf(e) != [] && cfg.decode(CommandOf(e)).Some? {
      if s.proposals[ticket].answer != Some(true) { OnlyUndecodableWait(cfg, run, |run| - 1, n, |s.log|); }
      if cfg.decode(CommandOf(e)).value.kind == 0 { ReadsBack(cfg.decode, log, e, cfg.decode(CommandOf(e)).value); }
    }
  }

  /** From any state of any run: give a command to a leader, and with any majority that knows no
      later term the run can calmly go on to where the command is in the leader's log, committed
      and applied on the leader and on all of them; if it decodes its client has been told of
      success, and a value that was set reads back on every one of them. */
  lemma WriteSucceeds(cfg: Config, run: seq<Cluster>, n: NodeId, command: seq<byte>, these: set<NodeId>) returns (more: seq<Cluster>)
    requires IsRun(cfg, run) && n in cfg.ids && these <= Peers(cfg, n) && 2 * (1 + |these|) > |cfg.ids|
    requires n in LastOf(run).servers && LastOf(run).servers[n].role == Leader && AllFollow(LastOf(run), n, these)
    ensures more != [] && Goes(cfg, LastOf(run), Client(n, command, NoFault), more[0])
    ensures IsRun(cfg, run + more) && Calm(cfg, run + more, |run|)
    ensures n in LastOf(run + more).servers && AllInStep(LastOf(run + more), n, these)
    ensures var s, s' := LastOf(run).servers[n], LastOf(run + more).servers[n];
            s'.role == Leader && s'.term == s.term && s'.log == s.log + [Entry(s.term, Record(|s.log| + 1, command))] &&
            s'.commit == s'.applied == |s.log| + 1 &&
            (command != [] && cfg.decode(command).Some? ==>
               s.tickets in s'.proposals && s'.proposals[s.tickets].answer == Some(true) &&
               var c := cfg.decode(command).value; c.kind == 0 ==> c.key in s'.table && s'.table[c.key] == c.value)
  {
    var s := LastOf(run).servers[n];
    var c := Taken(cfg, run, n, command, these);
    var later := MajorityCommits(cfg, run + [c], n, these);
    more := [c] + later;
    assert run + more == run + [c] + later;
    var all := run + more;
    CalmMinds(cfg, all, |run|, |all| - 1, n, s.tickets, |s.log| + 1);
    WriteSettled(cfg, all, n, s.tickets, s.log, Entry(s.term, Record(|s.log| + 1, command)));
  }
}
