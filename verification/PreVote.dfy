/** Pre-vote (section 9.6 of Ongaro's Raft thesis): a node that a majority still has
    a reason to refuse cannot turn a round of pre-votes into an election. */
module PreVote {
  import opened RaftTypes
  import opened Engine
  import opened EngineCluster
  import opened EngineCrash

  /** m would refuse a pre-vote for term t: it leads, heard a leader recently, or is already there. */
  predicate Refuses(cfg: Config, c: Cluster, m: NodeId, t: nat) {
    m in c.servers && (LeaderIsAlive(c.servers[m], c.now, cfg.timeoutMin) || c.servers[m].term >= t)
  }

  /** Peers outside `against` whose answer in round r has not been read. */
  function Open(cfg: Config, c: Cluster, n: NodeId, r: nat, against: set<NodeId>): set<NodeId> {
    set p | p in Peers(cfg, n) - against && ForPreVote(r, p) in c.calls
  }

  predicate AskOk(cfg: Config, c: Cluster, n: NodeId, r: nat, t: nat, against: set<NodeId>, p: NodeId) {
    ForPreVote(r, p) in c.calls ==>
      var call := c.calls[ForPreVote(r, p)];
      && p in Peers(cfg, n) && call.from == n && call.to == p && call.req.PreVoteReq? && call.req.term == t
      && (call.reply.Some? && p in against ==> call.reply.value.VoteRep? && !call.reply.value.granted)
  }

  /** While all of `against` refuse, round r of node n can collect at most the other votes. */
  ghost predicate Held(cfg: Config, c: Cluster, n: NodeId, r: nat, t: nat, against: set<NodeId>) {
    && r < c.serial && n in cfg.ids
    && against <= Peers(cfg, n) && 2 * |against| > |cfg.ids|
    && (forall p {:trigger AskOk(cfg, c, n, r, t, against, p)} :: AskOk(cfg, c, n, r, t, against, p))
    && (r in c.rounds ==>
          c.rounds[r].node == n && !c.rounds[r].campaigned &&
          c.rounds[r].votes + |Open(cfg, c, n, r, against)| <= 1 + |Peers(cfg, n) - against|)
  }

  lemma FewVotes(cfg: Config, n: NodeId, against: set<NodeId>)
    requires n in cfg.ids && against <= Peers(cfg, n) && 2 * |against| > |cfg.ids|
    ensures 1 + |Peers(cfg, n) - against| < Majority(Peers(cfg, n))
  {
    assert cfg.ids == Peers(cfg, n) + {n};
    assert Peers(cfg, n) == (Peers(cfg, n) - against) + against;
  }

  /** A step that opens no new question in round r and leaves the round alone keeps it held. */
  lemma Untouched(cfg: Config, c: Cluster, c': Cluster, n: NodeId, r: nat, t: nat, against: set<NodeId>)
    requires Held(cfg, c, n, r, t, against) && c'.serial >= c.serial
    requires forall p :: ForPreVote(r, p) in c'.calls ==> ForPreVote(r, p) in c.calls && AskOk(cfg, c', n, r, t, against, p)
    requires r in c'.rounds ==> r in c.rounds && c'.rounds[r] == c.rounds[r]
    ensures Held(cfg, c', n, r, t, against)
  {
    SubsetSize(Open(cfg, c', n, r, against), Open(cfg, c, n, r, against));
  }

  lemma MadeElsewhere(cfg: Config, c: Cluster, e: Event, r: nat, p: NodeId)
    requires Possible(cfg, c, e) && r < c.serial
    ensures ForPreVote(r, p) !in CallsMade(cfg, c, e)
  {
  }

  lemma AsksStayOk(cfg: Config, c: Cluster, e: Event, n: NodeId, r: nat, t: nat, against: set<NodeId>, p: NodeId)
    requires Held(cfg, c, n, r, t, against) && Possible(cfg, c, e) && !e.Serve?
    ensures AskOk(cfg, AfterHandler(cfg, c, e), n, r, t, against, p)
    ensures ForPreVote(r, p) in AfterHandler(cfg, c, e).calls ==> ForPreVote(r, p) in CallsAfter(c, e, None)
  {
    assert AskOk(cfg, c, n, r, t, against, p);
    MadeElsewhere(cfg, c, e, r, p);
  }

  /** Reading one answer of the round closes that question. */
  lemma OpenShrinks(cfg: Config, c: Cluster, e: Event, n: NodeId, r: nat, t: nat, against: set<NodeId>)
    requires Held(cfg, c, n, r, t, against) && Possible(cfg, c, e) && e.Read? && e.id.ForPreVote? && e.id.round == r
    ensures var after := |Open(cfg, AfterHandler(cfg, c, e), n, r, against)|; var before := |Open(cfg, c, n, r, against)|;
            after <= before && (e.id.to !in against ==> after + 1 <= before)
  {
    var before, after := Open(cfg, c, n, r, against), Open(cfg, AfterHandler(cfg, c, e), n, r, against);
    assert AskOk(cfg, c, n, r, t, against, e.id.to);
    forall q | q in after ensures q in before - {e.id.to} { AsksStayOk(cfg, c, e, n, r, t, against, q); }
    SubsetSize(after, before - {e.id.to});
  }

  /** One answer of round r is read. */
  lemma ReadHeld(cfg: Config, c: Cluster, e: Event, n: NodeId, r: nat, t: nat, against: set<NodeId>)
    requires Held(cfg, c, n, r, t, against) && Possible(cfg, c, e) && e.Read? && e.id.ForPreVote? && e.id.round == r
    ensures Held(cfg, AfterHandler(cfg, c, e), n, r, t, against)
  {
    forall q ensures AskOk(cfg, AfterHandler(cfg, c, e), n, r, t, against, q) {
      AsksStayOk(cfg, c, e, n, r, t, against, q);
    }
    assert AskOk(cfg, c, n, r, t, against, e.id.to);
    OpenShrinks(cfg, c, e, n, r, t, against);
    FewVotes(cfg, n, against);
  }

  lemma HandlerHeld(cfg: Config, c: Cluster, e: Event, n: NodeId, r: nat, t: nat, against: set<NodeId>)
    requires Held(cfg, c, n, r, t, against) && Possible(cfg, c, e)
    requires forall m :: m in against ==> Refuses(cfg, c, m, t)
    ensures Held(cfg, AfterHandler(cfg, c, e), n, r, t, against)
  {
    if e.Read? && e.id.ForPreVote? && e.id.round == r {
      ReadHeld(cfg, c, e, n, r, t, against);
    } else {
      var c' := AfterHandler(cfg, c, e);
      forall p | ForPreVote(r, p) in c'.calls
        ensures ForPreVote(r, p) in c.calls && AskOk(cfg, c', n, r, t, against, p)
      {
        MadeElsewhere(cfg, c, e, r, p);
        assert AskOk(cfg, c, n, r, t, against, p);
      }
      Untouched(cfg, c, c', n, r, t, against);
    }
  }

  lemma EventHeld(cfg: Config, c: Cluster, e: Event, n: NodeId, r: nat, t: nat, against: set<NodeId>)
    requires Held(cfg, c, n, r, t, against) && Enabled(cfg, c, e)
    requires forall m :: m in against ==> Refuses(cfg, c, m, t)
    ensures Held(cfg, After(cfg, c, e), n, r, t, against)
  {
    if Handles(e) {
      HandlerHeld(cfg, c, e, n, r, t, against);
    } else {
      var c' := After(cfg, c, e);
      forall p | ForPreVote(r, p) in c'.calls
        ensures ForPreVote(r, p) in c.calls && AskOk(cfg, c', n, r, t, against, p)
      {
        assert AskOk(cfg, c, n, r, t, against, p);
      }
      Untouched(cfg, c, c', n, r, t, against);
    }
  }

  /** The state right after node n opened a round. */
  lemma RoundStartsHeld(cfg: Config, c: Cluster, n: NodeId, fault: Fault, against: set<NodeId>)
    requires Enabled(cfg, c, Timeout(n, fault)) && Peers(cfg, n) != {}
    requires against <= Peers(cfg, n) && 2 * |against| > |cfg.ids|
    requires forall p :: ForPreVote(c.serial, p) !in c.calls
    ensures Held(cfg, After(cfg, c, Timeout(n, fault)), n, c.serial, c.servers[n].term + 1, against)
  {
    var c' := After(cfg, c, Timeout(n, fault));
    SubsetSize(Open(cfg, c', n, c.serial, against), Peers(cfg, n) - against);
    var t := c.servers[n].term + 1;
    forall p ensures AskOk(cfg, c', n, c.serial, t, against, p) {}
  }

  /** Round numbers are never reused. */
  ghost predicate Numbered(c: Cluster) {
    forall r: nat, p: NodeId {:trigger ForPreVote(r, p)} :: ForPreVote(r, p) in c.calls ==> r < c.serial
  }

  lemma StaysNumbered(cfg: Config, c: Cluster, e: Event)
    requires Numbered(c) && Enabled(cfg, c, e)
    ensures Numbered(After(cfg, c, e))
  {
    forall r: nat, p: NodeId | ForPreVote(r, p) in After(cfg, c, e).calls && r >= c.serial ensures r < After(cfg, c, e).serial {
      assert ForPreVote(r, p) !in c.calls;
      if Handles(e) {
        RoundOf(cfg, c, e, r, p);
      }
    }
  }

  lemma RoundOf(cfg: Config, c: Cluster, e: Event, r: nat, p: NodeId)
    requires Possible(cfg, c, e) && ForPreVote(r, p) in CallsMade(cfg, c, e)
    ensures r == c.serial
  {
  }

  lemma {:induction false} RunNumbered(cfg: Config, run: seq<Cluster>, i: nat)
    requires IsRun(cfg, run) && i < |run|
    ensures Numbered(run[i])
  {
    if i > 0 {
      RunNumbered(cfg, run, i - 1);
      var e := EventAt(cfg, run, i - 1);
      StaysNumbered(cfg, run[i - 1], e);
    }
  }

  ghost predicate AllRefuse(cfg: Config, c: Cluster, against: set<NodeId>, t: nat) {
    forall m :: m in against ==> Refuses(cfg, c, m, t)
  }

  /** Pre-vote stability: if, from the moment node n opens a round until state j, a majority
      without n refuses in every state, then the round has not started an election by then. */
  lemma {:induction false} PreVoteStability(cfg: Config, run: seq<Cluster>, i: nat, j: nat, n: NodeId, fault: Fault, against: set<NodeId>)
    requires IsRun(cfg, run) && i < j < |run| && Peers(cfg, n) != {}
    requires Enabled(cfg, run[i], Timeout(n, fault)) && run[i + 1] == After(cfg, run[i], Timeout(n, fault))
    requires against <= Peers(cfg, n) && 2 * |against| > |cfg.ids|
    requires forall k {:trigger AllRefuse(cfg, run[k], against, run[i].servers[n].term + 1)} ::
               i < k < j ==> AllRefuse(cfg, run[k], against, run[i].servers[n].term + 1)
    ensures Held(cfg, run[j], n, run[i].serial, run[i].servers[n].term + 1, against)
    ensures run[i].serial in run[j].rounds ==>
              !run[j].rounds[run[i].serial].campaigned &&
              run[j].rounds[run[i].serial].votes < Majority(Peers(cfg, n))
    decreases j
  {
    FewVotes(cfg, n, against);
    if j == i + 1 {
      RunNumbered(cfg, run, i);
      RoundStartsHeld(cfg, run[i], n, fault, against);
    } else {
      PreVoteStability(cfg, run, i, j - 1, n, fault, against);
      assert AllRefuse(cfg, run[j - 1], against, run[i].servers[n].term + 1);
      var e := EventAt(cfg, run, j - 1);
      EventHeld(cfg, run[j - 1], e, n, run[i].serial, run[i].servers[n].term + 1, against);
    }
  }

  /** While the round is held, reading one of its answers does what a newer term asks for and no more. */
  lemma HeldReadsQuietly(cfg: Config, c: Cluster, e: Event, n: NodeId, r: nat, t: nat, against: set<NodeId>)
    requires Held(cfg, c, n, r, t, against) && Possible(cfg, c, e) && e.Read? && e.id.ForPreVote? && e.id.round == r
    ensures Actor(c, e) == n
    ensures var done, rep := Handled(cfg, c, e), c.calls[e.id].reply.value;
            done.server == CheckTerm(c.servers[n], rep.term) && done.writes == CheckTermWrites(c.servers[n], rep.term) &&
            done.out.Silent?
  {
    assert AskOk(cfg, c, n, r, t, against, e.id.to);
    ReadHeld(cfg, c, e, n, r, t, against);
  }

  /** The same over the run, and for a handler that a crash cuts short: as long as the majority
      refuses, whatever reaches storage from an answer of the round is at most a newer term and
      its cleared vote, so no prefix of its transactions is a campaign. */
  lemma AnswersNeverCampaign(cfg: Config, run: seq<Cluster>, i: nat, j: nat, n: NodeId, fault: Fault, against: set<NodeId>,
                             p: NodeId, late: Fault)
    requires IsRun(cfg, run) && i < j < |run| && Peers(cfg, n) != {}
    requires Enabled(cfg, run[i], Timeout(n, fault)) && run[i + 1] == After(cfg, run[i], Timeout(n, fault))
    requires against <= Peers(cfg, n) && 2 * |against| > |cfg.ids|
    requires forall k {:trigger AllRefuse(cfg, run[k], against, run[i].servers[n].term + 1)} ::
               i < k < j ==> AllRefuse(cfg, run[k], against, run[i].servers[n].term + 1)
    requires Possible(cfg, run[j], Read(ForPreVote(run[i].serial, p), late))
    ensures n in run[j].servers
    ensures var c, e := run[j], Read(ForPreVote(run[i].serial, p), late);
            var done, rep, sv := Handled(cfg, c, e), c.calls[e.id].reply.value, c.servers[n];
            Actor(c, e) == n && done.server == CheckTerm(sv, rep.term) && done.writes == CheckTermWrites(sv, rep.term) &&
            forall k: nat :: k <= |done.writes| ==>
              var d := Replay(DurableOf(sv), done.writes[..k]);
              d.term <= Max(sv.term, rep.term) && d.vote in {sv.vote, None} && d.log == sv.log
  {
    var e := Read(ForPreVote(run[i].serial, p), late);
    PreVoteStability(cfg, run, i, j, n, fault, against);
    HeldReadsQuietly(cfg, run[j], e, n, run[i].serial, run[i].servers[n].term + 1, against);
    var sv, rep := run[j].servers[n], run[j].calls[e.id].reply.value;
    forall k: nat | k <= |CheckTermWrites(sv, rep.term)|
      ensures var d := Replay(DurableOf(sv), CheckTermWrites(sv, rep.term)[..k]);
              d.term <= Max(sv.term, rep.term) && d.vote in {sv.vote, None} && d.log == sv.log
    {
      QuietPrefix(sv, rep.term, k);
    }
  }

  lemma QuietPrefix(sv: Server, t: nat, k: nat)
    requires k <= |CheckTermWrites(sv, t)|
    ensures var d := Replay(DurableOf(sv), CheckTermWrites(sv, t)[..k]);
            d.term <= Max(sv.term, t) && d.vote in {sv.vote, None} && d.log == sv.log
  {
    var ws := CheckTermWrites(sv, t);
    if k > 0 {
      ReplayOne(DurableOf(sv), ws[0]);
      ReplayTwo(DurableOf(sv), ws[0], ws[1]);
      assert ws[..1] == [ws[0]] && ws[..2] == [ws[0], ws[1]];
    }
  }
}
