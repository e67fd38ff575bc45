/** A node whose log is not behind a majority's can always go on to win an election: through a
    round of pre-votes, a campaign and its votes, one answer at a time. */
module EngineElection {
  import opened RaftTypes
  import opened Engine
  import opened EngineCluster
  import opened EngineSafety
  import opened EngineLoops
  import opened EngineAnswers

  // ---------- The road to a majority ----------

  /** The pre-vote n asks of p in round r is on its way. */
  predicate PreAsked(calls: map<CallId, Call>, n: NodeId, r: nat, s: Server, p: NodeId) {
    ForPreVote(r, p) in calls && calls[ForPreVote(r, p)] == Call(n, p, s.epoch, PreVoteRequest(s), None)
  }

  /** The vote that candidate s asks of p is on its way. */
  predicate VoteAsked(calls: map<CallId, Call>, n: NodeId, s: Server, p: NodeId) {
    ForVote(s.term, n, p) in calls && calls[ForVote(s.term, n, p)] == Call(n, p, s.epoch, VoteRequest(s), None)
  }

  /** p does not lead, knows no later term than n, and its log is not ahead of n's. */
  predicate MayVote(c: Cluster, n: NodeId, p: NodeId) {
    n in c.servers && p in c.servers &&
    var s, f := c.servers[n], c.servers[p];
    f.role != Leader && f.term <= s.term && UpToDate(LastTerm(s.log), |s.log|, f.log)
  }

  ghost predicate AllMayVote(c: Cluster, n: NodeId, these: set<NodeId>) {
    forall p {:trigger MayVote(c, n, p)} :: p in these ==> MayVote(c, n, p)
  }

  function Candidacy(s: Server, n: NodeId): Server {
    s.(term := s.term + 1, role := Candidate, vote := Some(n), leader := None, votes := 1)
  }

  /** Round r of node n still lacks votes, and asking those left would bring enough. */
  ghost predicate PreVoting(cfg: Config, c: Cluster, n: NodeId, r: nat, left: set<NodeId>) {
    && n in cfg.ids && n in c.servers && left <= Peers(cfg, n) && r in c.rounds
    && (var s, round := c.servers[n], c.rounds[r];
        round.node == n && round.term == s.term && !round.campaigned && s.role != Leader
        && (s.contact == None || s.contact.value <= round.started)
        && round.votes < Majority(Peers(cfg, n)) <= round.votes + |left|)
    && (forall p {:trigger PreAsked(c.calls, n, r, c.servers[n], p)} :: p in left ==> PreAsked(c.calls, n, r, c.servers[n], p))
  }

  /** The campaign of candidate s at node n lacks votes, and asking those left would bring enough. */
  ghost predicate Voting(cfg: Config, c: Cluster, n: NodeId, s: Server, left: set<NodeId>) {
    && n in cfg.ids && n in c.servers && left <= Peers(cfg, n) && s.role == Candidate
    && c.servers[n] == s.(votes := c.servers[n].votes)
    && c.servers[n].votes < Majority(Peers(cfg, n)) <= c.servers[n].votes + |left|
    && (forall p {:trigger VoteAsked(c.calls, n, s, p)} :: p in left ==> VoteAsked(c.calls, n, s, p))
  }

  // ---------- Pre-votes ----------

  /** Time passes until p no longer counts a leader as alive. */
  function Pause(cfg: Config, f: Server): nat {
    if f.contact.Some? then f.contact.value + cfg.timeoutMin else 0
  }

  lemma PreServed(cfg: Config, c: Cluster, n: NodeId, r: nat, p: NodeId) returns (c1: Cluster, c2: Cluster)
    requires p in cfg.ids && MayVote(c, n, p) && PreAsked(c.calls, n, r, c.servers[n], p)
    ensures Goes(cfg, c, Tick(Pause(cfg, c.servers[p])), c1) && Goes(cfg, c1, Serve(ForPreVote(r, p), NoFault), c2)
    ensures c2.servers == c.servers && c2.rounds == c.rounds
    ensures c2.calls == c.calls[ForPreVote(r, p) := c.calls[ForPreVote(r, p)].(reply := Some(VoteRep(c.servers[p].term, true)))]
  {
    c1 := After(cfg, c, Tick(Pause(cfg, c.servers[p])));
    c2 := After(cfg, c1, Serve(ForPreVote(r, p), NoFault));
    assert c1.servers[p := c1.servers[p]] == c.servers;
  }

  /** The answer is read: one more vote, or the campaign begins. */
  lemma PreReadIs(cfg: Config, c: Cluster, n: NodeId, r: nat, p: NodeId, s: Server, t: nat) returns (c': Cluster)
    requires n in cfg.ids && n in c.servers && c.servers[n] == s && r in c.rounds && p in Peers(cfg, n)
    requires ForPreVote(r, p) in c.calls
    requires c.calls[ForPreVote(r, p)] == Call(n, p, s.epoch, PreVoteRequest(s), Some(VoteRep(t, true))) && t <= s.term
    requires !StaleRound(s, c.rounds[r])
    ensures Goes(cfg, c, Read(ForPreVote(r, p), NoFault), c')
    ensures var wins := c.rounds[r].votes + 1 >= Majority(Peers(cfg, n));
            c'.rounds == c.rounds[r := c.rounds[r].(votes := c.rounds[r].votes + 1, campaigned := wins)] &&
            c'.servers == (if wins then c.servers[n := Candidacy(s, n)] else c.servers) &&
            c'.calls == c.calls - {ForPreVote(r, p)} + (if wins then Sent(cfg, n, Candidacy(s, n), AskVotes, c.serial) else map[])
  {
    c' := After(cfg, c, Read(ForPreVote(r, p), NoFault));
    CampaignAmongPeers(cfg, s, n);
    assert c.servers[n := s] == c.servers;
    assert c.calls - {ForPreVote(r, p)} + map[] == c.calls - {ForPreVote(r, p)};
  }

  lemma CampaignAmongPeers(cfg: Config, s: Server, n: NodeId)
    requires Peers(cfg, n) != {}
    ensures CampaignOf(cfg.decode, s, n, Peers(cfg, n), NoFault) ==
            Result(Candidacy(s, n), [SaveTerm(s.term + 1), SaveVote(Some(n))], None, AskVotes)
  {
  }

  /** A campaign's requests are all on their way. */
  lemma CampaignVoting(cfg: Config, c: Cluster, n: NodeId, s: Server, these: set<NodeId>, calls: map<CallId, Call>, serial: nat)
    requires n in cfg.ids && n in c.servers && these <= Peers(cfg, n) && these != {} && 1 + |these| >= Majority(Peers(cfg, n))
    requires c.servers[n] == Candidacy(s, n) && c.calls == calls + Sent(cfg, n, Candidacy(s, n), AskVotes, serial)
    ensures Voting(cfg, c, n, Candidacy(s, n), these)
  {
    var s1 := Candidacy(s, n);
    forall p | p in these ensures VoteAsked(c.calls, n, s1, p) { assert ForVote(s1.term, n, p) in VoteIds(cfg, n, s1.term); }
    SubsetSize(these, Peers(cfg, n));
  }

  /** One voter's pre-vote, from its request to the reading of its answer. */
  lemma OnePreVote(cfg: Config, run: seq<Cluster>, n: NodeId, r: nat, p: NodeId, left: set<NodeId>) returns (more: seq<Cluster>)
    requires IsRun(cfg, run) && PreVoting(cfg, run[|run| - 1], n, r, left) && p in left && MayVote(run[|run| - 1], n, p)
    ensures |more| == 3 && IsRun(cfg, run + more) && Calm(cfg, run + more, |run| - 1)
    ensures var c, c' := run[|run| - 1], more[2];
            var s := c.servers[n];
            if c.rounds[r].votes + 1 >= Majority(Peers(cfg, n)) then
              c'.servers == c.servers[n := Candidacy(s, n)] &&
              exists calls, serial :: c'.calls == calls + Sent(cfg, n, Candidacy(s, n), AskVotes, serial)
            else c'.servers == c.servers && PreVoting(cfg, c', n, r, left - {p})
  {
    var c := run[|run| - 1];
    assert PreAsked(c.calls, n, r, c.servers[n], p);
    var c1, c2 := PreServed(cfg, c, n, r, p);
    var c3 := PreReadIs(cfg, c2, n, r, p, c.servers[n], c.servers[p].term);
    more := [c1, c2, c3];
    ThreeGoOn(cfg, run, c1, c2, c3, Tick(Pause(cfg, c.servers[p])), Serve(ForPreVote(r, p), NoFault), Read(ForPreVote(r, p), NoFault));
    forall q | q in left - {p} ensures PreAsked(c3.calls, n, r, c.servers[n], q) { assert PreAsked(c.calls, n, r, c.servers[n], q); }
  }

  lemma TwoGoOn(cfg: Config, run: seq<Cluster>, c1: Cluster, c2: Cluster, e1: Event, e2: Event)
    requires IsRun(cfg, run) && Goes(cfg, run[|run| - 1], e1, c1) && Goes(cfg, c1, e2, c2) && Peaceful(e1) && Peaceful(e2)
    ensures IsRun(cfg, run + [c1, c2]) && Calm(cfg, run + [c1, c2], |run| - 1)
  {
    CalmOn(cfg, run, c1, e1);
    CalmOn(cfg, run + [c1], c2, e2);
    CalmJoin(cfg, run, [c1], [c2]);
    assert [c1] + [c2] == [c1, c2];
  }

  lemma ThreeGoOn(cfg: Config, run: seq<Cluster>, c1: Cluster, c2: Cluster, c3: Cluster, e1: Event, e2: Event, e3: Event)
    requires IsRun(cfg, run) && Goes(cfg, run[|run| - 1], e1, c1) && Goes(cfg, c1, e2, c2) && Goes(cfg, c2, e3, c3)
    requires Peaceful(e1) && Peaceful(e2) && Peaceful(e3)
    ensures IsRun(cfg, run + [c1, c2, c3]) && Calm(cfg, run + [c1, c2, c3], |run| - 1)
  {
    TwoGoOn(cfg, run, c1, c2, e1, e2);
    CalmOn(cfg, run + [c1, c2], c3, e3);
    CalmJoin(cfg, run, [c1, c2], [c3]);
    assert [c1, c2] + [c3] == [c1, c2, c3];
  }

  /** The pre-votes left bring the majority, and the campaign begins. */
  lemma {:induction false} PreVotesWon(cfg: Config, run: seq<Cluster>, n: NodeId, r: nat, left: set<NodeId>, these: set<NodeId>)
      returns (more: seq<Cluster>)
    requires IsRun(cfg, run) && PreVoting(cfg, run[|run| - 1], n, r, left) && left <= these <= Peers(cfg, n)
    requires AllMayVote(run[|run| - 1], n, these) && 1 + |these| >= Majority(Peers(cfg, n))
    ensures IsRun(cfg, run + more) && Calm(cfg, run + more, |run| - 1)
    ensures var c, c' := run[|run| - 1], (run + more)[|run + more| - 1];
            var s := c.servers[n];
            c'.servers == c.servers[n := Candidacy(s, n)] && Voting(cfg, c', n, Candidacy(s, n), these)
    decreases left
  {
    var c := run[|run| - 1];
    var s := c.servers[n];
    assert left != {};
    var p :| p in left;
    assert MayVote(c, n, p);
    more := OnePreVote(cfg, run, n, r, p, left);
    var c' := more[2];
    assert (run + more)[|run + more| - 1] == c';
    if c.rounds[r].votes + 1 >= Majority(Peers(cfg, n)) {
      var calls, serial :| c'.calls == calls + Sent(cfg, n, Candidacy(s, n), AskVotes, serial);
      CampaignVoting(cfg, c', n, s, these, calls, serial);
    } else {
      forall q | q in these ensures MayVote(c', n, q) { assert MayVote(c, n, q); }
      var later := PreVotesWon(cfg, run + more, n, r, left - {p}, these);
      CalmJoin(cfg, run, more, later);
      more := more + later;
    }
  }

  // ---------- Votes ----------

  /** p is still in an older term, with a log that is not ahead of the candidate's. */
  predicate WillVote(c: Cluster, s: Server, p: NodeId) {
    p in c.servers && c.servers[p].term < s.term && UpToDate(LastTerm(s.log), |s.log|, c.servers[p].log)
  }

  ghost predicate AllWillVote(c: Cluster, s: Server, these: set<NodeId>) {
    forall p {:trigger WillVote(c, s, p)} :: p in these ==> WillVote(c, s, p)
  }

  /** All that happened to a node is that it voted for n in term t. */
  predicate JustVoted(a: Server, b: Server, t: nat, n: NodeId) {
    a.term < t && b.term == t && b.vote == Some(n) && b.log == a.log && b.commit == a.commit && b.applied == a.applied &&
    b.table == a.table && b.role == Follower
  }

  lemma VoteServed(cfg: Config, c: Cluster, n: NodeId, s: Server, p: NodeId) returns (c': Cluster, f: Server)
    requires p in cfg.ids && WillVote(c, s, p) && VoteAsked(c.calls, n, s, p)
    ensures Goes(cfg, c, Serve(ForVote(s.term, n, p), NoFault), c') && JustVoted(c.servers[p], f, s.term, n)
    ensures c'.servers == c.servers[p := f]
    ensures var id := ForVote(s.term, n, p); c'.calls == c.calls[id := c.calls[id].(reply := Some(VoteRep(s.term, true)))]
  {
    c' := After(cfg, c, Serve(ForVote(s.term, n, p), NoFault));
    f := c'.servers[p];
  }

  lemma GrantedReplyIs(decode: Decoder, s: Server, peers: set<NodeId>)
    requires s.role == Candidate
    ensures var r := OnVoteReply(decode, s, peers, s.term, VoteRep(s.term, true), NoFault);
            if s.votes + 1 >= Majority(peers) then r.server.role == Leader && WonOver(s, r.server, s.term, peers, NoFault)
            else r == Result(Counted(s), [], None, Silent)
  {
    LeadIs(decode, Counted(s), peers, NoFault);
    LeaderStays(decode, Counted(s), peers, NoFault);
  }

  lemma VoteReadIs(cfg: Config, c: Cluster, n: NodeId, p: NodeId, s: Server) returns (c': Cluster)
    requires n in cfg.ids && n in c.servers && c.servers[n] == s && s.role == Candidate
    requires ForVote(s.term, n, p) in c.calls
    requires c.calls[ForVote(s.term, n, p)] == Call(n, p, s.epoch, VoteRequest(s), Some(VoteRep(s.term, true)))
    ensures Goes(cfg, c, Read(ForVote(s.term, n, p), NoFault), c')
    ensures if s.votes + 1 >= Majority(Peers(cfg, n)) then
              n in c'.servers && c'.servers == c.servers[n := c'.servers[n]] && c'.servers[n].role == Leader &&
              WonOver(s, c'.servers[n], s.term, Peers(cfg, n), NoFault)
            else c'.servers == c.servers[n := Counted(s)] && c'.calls == c.calls - {ForVote(s.term, n, p)}
  {
    var id := ForVote(s.term, n, p);
    c' := After(cfg, c, Read(id, NoFault));
    GrantedReplyIs(cfg.decode, s, Peers(cfg, n));
    assert c.calls - {id} + map[] == c.calls - {id};
  }

  /** One voter's vote, from its request to the reading of its answer. */
  lemma OneVote(cfg: Config, run: seq<Cluster>, n: NodeId, s: Server, p: NodeId, left: set<NodeId>) returns (more: seq<Cluster>, f: Server)
    requires IsRun(cfg, run) && Voting(cfg, run[|run| - 1], n, s, left) && p in left && WillVote(run[|run| - 1], s, p)
    ensures |more| == 2 && IsRun(cfg, run + more) && Calm(cfg, run + more, |run| - 1)
    ensures var c, c' := run[|run| - 1], more[1];
            n in c'.servers && c'.servers == c.servers[p := f][n := c'.servers[n]] && JustVoted(c.servers[p], f, s.term, n) &&
            ((c'.servers[n].role == Leader && WonOver(s, c'.servers[n], s.term, Peers(cfg, n), NoFault)) ||
             Voting(cfg, c', n, s, left - {p}))
  {
    var c := run[|run| - 1];
    assert VoteAsked(c.calls, n, s, p);
    var c1;
    c1, f := VoteServed(cfg, c, n, s, p);
    var c2 := VoteReadIs(cfg, c1, n, p, c.servers[n]);
    more := [c1, c2];
    TwoGoOn(cfg, run, c1, c2, Serve(ForVote(s.term, n, p), NoFault), Read(ForVote(s.term, n, p), NoFault));
    forall q | q in left - {p} ensures VoteAsked(c.calls - {ForVote(s.term, n, p)}, n, s, q) { assert VoteAsked(c.calls, n, s, q); }
  }

  /** What the election did to a peer: nothing, or it voted. */
  predicate VotedOrNot(c: Cluster, c': Cluster, t: nat, n: NodeId, left: set<NodeId>, q: NodeId) {
    q in c.servers && q in c'.servers &&
    (c'.servers[q] == c.servers[q] || (q in left && JustVoted(c.servers[q], c'.servers[q], t, n)))
  }

  ghost predicate OnlyVotes(cfg: Config, c: Cluster, c': Cluster, t: nat, n: NodeId, left: set<NodeId>) {
    forall q {:trigger VotedOrNot(c, c', t, n, left, q)} :: q in Peers(cfg, n) ==> VotedOrNot(c, c', t, n, left, q)
  }

  /** n leads the term it was a candidate in, with its no-op. */
  ghost predicate Won(cfg: Config, c: Cluster, n: NodeId, s: Server) {
    n in c.servers && c.servers[n].role == Leader && WonOver(s, c.servers[n], s.term, Peers(cfg, n), NoFault)
  }

  lemma OneVoteOnly(cfg: Config, c: Cluster, c1: Cluster, n: NodeId, s: Server, p: NodeId, f: Server, left: set<NodeId>)
    requires cfg.ids <= c.servers.Keys && n in c1.servers && p in left && p != n && p in c.servers
    requires c1.servers == c.servers[p := f][n := c1.servers[n]] && JustVoted(c.servers[p], f, s.term, n)
    ensures OnlyVotes(cfg, c, c1, s.term, n, left)
    ensures cfg.ids <= c1.servers.Keys
    ensures AllWillVote(c, s, left) && left <= Peers(cfg, n) ==> AllWillVote(c1, s, left - {p})
  {
    forall q | q in Peers(cfg, n) ensures VotedOrNot(c, c1, s.term, n, left, q) {}
    if AllWillVote(c, s, left) && left <= Peers(cfg, n) {
      forall q | q in left - {p} ensures WillVote(c1, s, q) { assert WillVote(c, s, q); }
    }
  }

  lemma VotesAdd(cfg: Config, c: Cluster, c1: Cluster, c2: Cluster, n: NodeId, t: nat, p: NodeId, left: set<NodeId>)
    requires OnlyVotes(cfg, c, c1, t, n, left) && OnlyVotes(cfg, c1, c2, t, n, left - {p}) && p in left
    requires forall q :: q in Peers(cfg, n) && q != p ==> q in c.servers && q in c1.servers && c1.servers[q] == c.servers[q]
    ensures OnlyVotes(cfg, c, c2, t, n, left)
  {
    forall q | q in Peers(cfg, n) ensures VotedOrNot(c, c2, t, n, left, q) {
      assert VotedOrNot(c, c1, t, n, left, q) && VotedOrNot(c1, c2, t, n, left - {p}, q);
    }
  }

  /** The votes left bring the majority. */
  lemma {:induction false} VotesWon(cfg: Config, run: seq<Cluster>, n: NodeId, s: Server, left: set<NodeId>) returns (more: seq<Cluster>)
    requires IsRun(cfg, run) && Voting(cfg, run[|run| - 1], n, s, left) && AllWillVote(run[|run| - 1], s, left)
    requires cfg.ids <= run[|run| - 1].servers.Keys
    ensures IsRun(cfg, run + more) && Calm(cfg, run + more, |run| - 1)
    ensures var c, c' := run[|run| - 1], (run + more)[|run + more| - 1];
            Won(cfg, c', n, s) && OnlyVotes(cfg, c, c', s.term, n, left)
    decreases left
  {
    var c := run[|run| - 1];
    assert left != {};
    var p :| p in left;
    assert WillVote(c, s, p);
    var f;
    more, f := OneVote(cfg, run, n, s, p, left);
    var c1 := more[1];
    assert (run + more)[|run + more| - 1] == c1;
    OneVoteOnly(cfg, c, c1, n, s, p, f, left);
    if c1.servers[n].role != Leader {
      var later := VotesWon(cfg, run + more, n, s, left - {p});
      CalmJoin(cfg, run, more, later);
      VotesAdd(cfg, c, c1, (run + more + later)[|run + more + later| - 1], n, s.term, p, left);
      more := more + later;
    }
  }

  // ---------- From the timer to leadership ----------

  /** The timer fires and every peer is asked for a pre-vote. */
  lemma RoundOpens(cfg: Config, c: Cluster, n: NodeId, these: set<NodeId>) returns (c1: Cluster, c2: Cluster)
    requires n in cfg.ids && n in c.servers && c.servers[n].role != Leader && Peers(cfg, n) != {}
    requires these <= Peers(cfg, n) && 1 + |these| >= Majority(Peers(cfg, n))
    ensures Goes(cfg, c, Tick(Pause(cfg, c.servers[n])), c1) && Goes(cfg, c1, Timeout(n, NoFault), c2)
    ensures c2.servers == c.servers && PreVoting(cfg, c2, n, c.serial, these)
  {
    c1 := After(cfg, c, Tick(Pause(cfg, c.servers[n])));
    c2 := After(cfg, c1, Timeout(n, NoFault));
    assert c1.servers[n := c1.servers[n]] == c1.servers;
    forall p | p in these ensures PreAsked(c2.calls, n, c.serial, c.servers[n], p) {
      assert ForPreVote(c.serial, p) in PreVoteIds(cfg, n, c.serial);
    }
  }

  lemma AloneWins(cfg: Config, c: Cluster, n: NodeId) returns (c': Cluster)
    requires n in cfg.ids && n in c.servers && c.servers[n].role != Leader && Peers(cfg, n) == {}
    ensures Goes(cfg, c, Timeout(n, NoFault), c') && Won(cfg, c', n, Candidacy(c.servers[n], n))
  {
    c' := After(cfg, c, Timeout(n, NoFault));
    var s1 := Candidacy(c.servers[n], n);
    LeadIs(cfg.decode, s1, {}, NoFault);
    LeaderStays(cfg.decode, s1, {}, NoFault);
  }

  /** The pre-votes of a round, however many it takes. */
  lemma ReachesCampaign(cfg: Config, run: seq<Cluster>, n: NodeId, these: set<NodeId>) returns (more: seq<Cluster>)
    requires IsRun(cfg, run) && n in cfg.ids && n in run[|run| - 1].servers && run[|run| - 1].servers[n].role != Leader
    requires Peers(cfg, n) != {} && these <= Peers(cfg, n) && 1 + |these| >= Majority(Peers(cfg, n))
    requires AllMayVote(run[|run| - 1], n, these)
    ensures IsRun(cfg, run + more) && Calm(cfg, run + more, |run| - 1)
    ensures var c, c' := run[|run| - 1], (run + more)[|run + more| - 1];
            var s := c.servers[n];
            c'.servers == c.servers[n := Candidacy(s, n)] && Voting(cfg, c', n, Candidacy(s, n), these)
  {
    var c := run[|run| - 1];
    var c1, c2 := RoundOpens(cfg, c, n, these);
    TwoGoOn(cfg, run, c1, c2, Tick(Pause(cfg, c.servers[n])), Timeout(n, NoFault));
    forall q | q in these ensures MayVote(c2, n, q) { assert MayVote(c, n, q); }
    var later := PreVotesWon(cfg, run + [c1, c2], n, c.serial, these, these);
    CalmJoin(cfg, run, [c1, c2], later);
    more := [c1, c2] + later;
  }

  /** With peers to ask, the campaign is reached and then won. */
  lemma WinsAmongPeers(cfg: Config, run: seq<Cluster>, n: NodeId, these: set<NodeId>) returns (more: seq<Cluster>)
    requires IsRun(cfg, run) && n in cfg.ids && n in run[|run| - 1].servers && run[|run| - 1].servers[n].role != Leader
    requires Peers(cfg, n) != {} && these <= Peers(cfg, n) && 1 + |these| >= Majority(Peers(cfg, n))
    requires AllMayVote(run[|run| - 1], n, these)
    ensures IsRun(cfg, run + more) && Calm(cfg, run + more, |run| - 1)
    ensures var c, c' := run[|run| - 1], (run + more)[|run + more| - 1];
            var s := c.servers[n];
            Won(cfg, c', n, Candidacy(s, n)) && OnlyVotes(cfg, c, c', s.term + 1, n, these)
  {
    var c := run[|run| - 1];
    var s := c.servers[n];
    var first := ReachesCampaign(cfg, run, n, these);
    var c1 := (run + first)[|run + first| - 1];
    AllNodes(cfg, run + first);
    forall q | q in these ensures WillVote(c1, Candidacy(s, n), q) { assert MayVote(c, n, q); }
    var later := VotesWon(cfg, run + first, n, Candidacy(s, n), these);
    CalmJoin(cfg, run, first, later);
    more := first + later;
    var c' := (run + more)[|run + more| - 1];
    forall q | q in Peers(cfg, n) ensures VotedOrNot(c, c', s.term + 1, n, these, q) {
      assert VotedOrNot(c1, c', s.term + 1, n, these, q);
    }
  }

  /** From any state of any run: a node that does not lead, with any majority of nodes that do
      not lead either, know no later term and have no later log, can calmly go on to lead the
      next term. Its log then ends with its no-op; the others have at most voted. */
  lemma UpToDateNodeWins(cfg: Config, run: seq<Cluster>, n: NodeId, these: set<NodeId>) returns (more: seq<Cluster>)
    requires IsRun(cfg, run) && n in cfg.ids && these <= Peers(cfg, n) && 2 * (1 + |these|) > |cfg.ids|
    requires n in run[|run| - 1].servers && run[|run| - 1].servers[n].role != Leader && AllMayVote(run[|run| - 1], n, these)
    ensures IsRun(cfg, run + more) && Calm(cfg, run + more, |run| - 1)
    ensures var c, c' := run[|run| - 1], (run + more)[|run + more| - 1];
            n in c'.servers &&
            var s, s' := c.servers[n], c'.servers[n];
            s'.role == Leader && s'.term == s.term + 1 && s'.log == s.log + [Entry(s.term + 1, Record(|s.log| + 1, []))] &&
            OnlyVotes(cfg, c, c', s.term + 1, n, these)
  {
    assert cfg.ids == Peers(cfg, n) + {n};
    if Peers(cfg, n) == {} {
      var c' := AloneWins(cfg, run[|run| - 1], n);
      CalmOn(cfg, run, c', Timeout(n, NoFault));
      more := [c'];
    } else {
      more := WinsAmongPeers(cfg, run, n, these);
    }
  }

  lemma AllNodes(cfg: Config, run: seq<Cluster>)
    requires IsRun(cfg, run)
    ensures cfg.ids <= run[|run| - 1].servers.Keys
  {
    forall q | q in cfg.ids ensures q in run[|run| - 1].servers { TableIsFold(cfg, run, |run| - 1, q); }
  }
}
