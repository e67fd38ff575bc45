/** What a client, a follower and a leader's bookkeeping may rely on in every run. */
module EngineGuarantees {
  import opened RaftTypes
  import opened Engine
  import opened EngineCluster
  import opened EngineRelation
  import opened EngineSteps
  import opened EngineRefinement
  import opened EngineCrash
  import opened EngineSafety
  import A = AbstractRaft
  import opened AbstractInvariants
  import opened AbstractPreservation
  import opened AbstractSafety
  import opened AbstractRuns

  // ---------- Clients ----------

  /** A client still waiting at an index waits on the leader, and the entry made of the very
      command it sent is there, in this term. */
  lemma WaitersAreLeaders(cfg: Config, run: seq<Cluster>, i: nat, n: NodeId, index: nat)
    requires IsRun(cfg, run) && i < |run| && n in cfg.ids
    requires n in run[i].servers && index in run[i].servers[n].pending
    ensures var sv := run[i].servers[n];
            sv.role == Leader && 0 < index <= |sv.log| && sv.log[index - 1].term == sv.term &&
            sv.pending[index] in sv.proposals &&
            sv.proposals[sv.pending[index]] == Proposal(index, sv.log[index - 1], CommandOf(sv.log[index - 1]), sv.epoch, None)
  {
    var abs := EngineRefinesRaft(cfg, run);
    MirrorsAt(cfg, run, abs, i, n);
    var sv := run[i].servers[n];
    assert Waits(sv.role, sv.term, sv.log, sv.epoch, sv.pending, sv.proposals, index);
  }

  /** No send blocks: every waiting client's channel is empty and no two share one. */
  lemma ChannelsStayFree(cfg: Config, run: seq<Cluster>, i: nat, n: NodeId)
    requires IsRun(cfg, run) && i < |run| && n in cfg.ids
    ensures n in run[i].servers && (var sv := run[i].servers[n]; WaitersOk(sv.pending, sv.proposals, sv.tickets))
  {
    var abs := EngineRefinesRaft(cfg, run);
    MirrorsAt(cfg, run, abs, i, n);
    var sv := run[i].servers[n];
    forall k ensures EmptyChannel(sv.pending, sv.proposals, k) {
      assert Waits(sv.role, sv.term, sv.log, sv.epoch, sv.pending, sv.proposals, k);
    }
    forall k, l ensures OwnChannel(sv.pending, k, l) {
      assert Waits(sv.role, sv.term, sv.log, sv.epoch, sv.pending, sv.proposals, k);
      assert Waits(sv.role, sv.term, sv.log, sv.epoch, sv.pending, sv.proposals, l);
    }
    forall k ensures BelowTickets(sv.proposals, sv.tickets, k) {
      assert Issued(sv.proposals, sv.tickets, sv.epoch, k);
    }
  }

  lemma NextAnswers(decode: Decoder, s: Server, i: nat)
    requires WaitersOk(s.pending, s.proposals, s.tickets) && s.applied < i && s.applied < |s.log| && i in s.pending
    ensures s.pending[i] in s.proposals
    ensures var r, ticket := ApplyNext(decode, s), s.pending[i];
            WaitersOk(r.pending, r.proposals, r.tickets) && ticket in r.proposals &&
            (i > s.applied + 1 || DecodeEntry(decode, s.log[i - 1]).None? ==>
               i in r.pending && r.pending[i] == ticket && r.proposals[ticket].answer == None) &&
            (i == s.applied + 1 && DecodeEntry(decode, s.log[i - 1]).Some? ==>
               i !in r.pending && r.proposals[ticket].answer == Some(true))
  {
    var r, n := ApplyNext(decode, s), s.applied + 1;
    assert EmptyChannel(s.pending, s.proposals, i) && EmptyChannel(s.pending, s.proposals, n) && OwnChannel(s.pending, i, n);
    forall k ensures EmptyChannel(r.pending, r.proposals, k) {
      assert EmptyChannel(s.pending, s.proposals, k) && OwnChannel(s.pending, k, n);
    }
    forall k, l ensures OwnChannel(r.pending, k, l) { assert OwnChannel(s.pending, k, l); }
    forall t ensures BelowTickets(r.proposals, r.tickets, t) { assert BelowTickets(s.proposals, s.tickets, t); }
  }

  /** Once answered and off the list, a client's channel is not touched again by applying. */
  lemma {:induction false} StaysAnswered(decode: Decoder, s: Server, ticket: nat)
    requires WaitersOk(s.pending, s.proposals, s.tickets) && s.commit <= |s.log|
    requires ticket in s.proposals && s.proposals[ticket].answer.Some?
    ensures var r := Apply(decode, s); ticket in r.proposals && r.proposals[ticket] == s.proposals[ticket]
    decreases s.commit - s.applied
  {
    if s.applied < s.commit {
      var n := s.applied + 1;
      if n in s.pending { NextAnswers(decode, s, n); }
      assert EmptyChannel(s.pending, s.proposals, n);
      NextKeepsWaiters(decode, s);
      StaysAnswered(decode, ApplyNext(decode, s), ticket);
    }
  }

  lemma NextKeepsWaiters(decode: Decoder, s: Server)
    requires WaitersOk(s.pending, s.proposals, s.tickets) && s.applied < |s.log|
    ensures var r := ApplyNext(decode, s); WaitersOk(r.pending, r.proposals, r.tickets)
  {
    if s.applied + 1 in s.pending { NextAnswers(decode, s, s.applied + 1); }
  }

  /** Not every committed proposal is answered: of the clients whose entries are applied,
      exactly those whose command decodes are told so; the others keep waiting. */
  lemma {:induction false} AnsweredIffDecodable(decode: Decoder, s: Server, i: nat)
    requires WaitersOk(s.pending, s.proposals, s.tickets)
    requires s.applied < i <= s.commit <= |s.log| && i in s.pending
    ensures s.pending[i] in s.proposals
    ensures var r, ticket := Apply(decode, s), s.pending[i];
            var command := CommandOf(s.log[i - 1]);
            ticket in r.proposals &&
            (r.proposals[ticket].answer == Some(true) <==> command != [] && decode(command).Some?) &&
            (r.proposals[ticket].answer != Some(true) ==>
               r.proposals[ticket].answer == None && i in r.pending && r.pending[i] == ticket)
    decreases s.commit - s.applied
  {
    NextAnswers(decode, s, i);
    var s1 := ApplyNext(decode, s);
    if i > s.applied + 1 {
      AnsweredIffDecodable(decode, s1, i);
    } else if DecodeEntry(decode, s.log[i - 1]).Some? {
      StaysAnswered(decode, s1, s.pending[i]);
    } else {
      StillWaiting(decode, s1, i);
    }
  }

  lemma {:induction false} StillWaiting(decode: Decoder, s: Server, i: nat)
    requires WaitersOk(s.pending, s.proposals, s.tickets) && i <= s.applied && s.commit <= |s.log| && i in s.pending
    ensures s.pending[i] in s.proposals
    ensures var r := Apply(decode, s);
            i in r.pending && r.pending[i] == s.pending[i] && s.pending[i] in r.proposals && r.proposals[s.pending[i]].answer == None
    decreases s.commit - s.applied
  {
    assert EmptyChannel(s.pending, s.proposals, i);
    if s.applied < s.commit {
      assert OwnChannel(s.pending, i, s.applied + 1) && EmptyChannel(s.pending, s.proposals, s.applied + 1);
      NextKeepsWaiters(decode, s);
      StillWaiting(decode, ApplyNext(decode, s), i);
    }
  }

  /** A proposal's entry carries the client's own command at the index it was promised. */
  lemma OwnCommand(cfg: Config, run: seq<Cluster>, abs: seq<A.State>, i: nat, n: NodeId, ticket: nat)
    requires Follows(cfg, run, abs) && i < |run| && n in cfg.ids && n in run[i].servers
    requires ticket in run[i].servers[n].proposals
    ensures var p := run[i].servers[n].proposals[ticket]; p.entry.data == Record(p.index, p.command)
  {
    MirrorsAt(cfg, run, abs, i, n);
    var sv := run[i].servers[n];
    assert Issued(sv.proposals, sv.tickets, sv.epoch, ticket);
  }

  /** The node that told a client it succeeded has applied exactly that entry, with the
      command the client sent. */
  lemma SuccessIsApplied(cfg: Config, run: seq<Cluster>, i: nat, n: NodeId, ticket: nat)
    requires IsRun(cfg, run) && i < |run| && n in cfg.ids && n in run[i].servers
    requires ticket in run[i].servers[n].proposals
    requires var p := run[i].servers[n].proposals[ticket]; p.answer == Some(true) && p.epoch == run[i].servers[n].epoch
    ensures var sv := run[i].servers[n]; var p := sv.proposals[ticket];
            0 < p.index <= sv.applied <= |sv.log| && sv.log[p.index - 1] == p.entry &&
            CommandOf(sv.log[p.index - 1]) == p.command
  {
    var abs := EngineRefinesRaft(cfg, run);
    OwnCommand(cfg, run, abs, i, n, ticket);
    MirrorsAt(cfg, run, abs, i, n);
    var sv := run[i].servers[n];
    assert Told(cfg.ids, abs[i].h, sv.log, sv.applied, sv.epoch, sv.proposals, ticket);
  }

  lemma SettledStays(cfg: Config, run: seq<Cluster>, abs: seq<A.State>, i: nat, j: nat, n: NodeId, ticket: nat)
    requires Follows(cfg, run, abs) && i < |run| && j < |run| && n in cfg.ids && n in run[i].servers
    requires ticket in run[i].servers[n].proposals && run[i].servers[n].proposals[ticket].answer == Some(true)
    ensures var p := run[i].servers[n].proposals[ticket];
            Settled(cfg.ids, abs[if i <= j then j else i].h, p.index, p.entry)
  {
    MirrorsAt(cfg, run, abs, i, n);
    var sv := run[i].servers[n];
    assert Told(cfg.ids, abs[i].h, sv.log, sv.applied, sv.epoch, sv.proposals, ticket);
    if i <= j {
      assert GrowsFrom(abs, i, j);
      SettledGrows(cfg.ids, abs[i].h, abs[j].h, sv.proposals[ticket].index, sv.proposals[ticket].entry);
    }
  }

  /** A settled entry is at its index in every leader log of a later term. */
  lemma SettledInLeader(s: A.State, h: A.History, index: nat, e: Entry, u: nat)
    requires Inv(s) && Settled(s.ids, s.h, index, e) && HistoryOk(s.ids, h) && Grows(h, s.h)
    requires u in h.reigns && (u > e.term || (u == e.term && h == s.h))
    ensures 0 < index <= |A.LogOf(h, u)| && A.LogOf(h, u)[index - 1] == e
  {
    var j :| A.Chosen(s.ids, s.h, e.term, j) && index <= j && A.LogOf(s.h, e.term)[index - 1] == e;
    if u > e.term {
      LeaderCompleteness(s.ids, s.h, e.term, j, u);
      assert ReignOk(s.ids, h, u, h.reigns[u]);
      AgreeAt(A.StartOf(h, u), A.LogOf(s.h, e.term), j, index - 1);
      AgreeAt(A.StartOf(h, u), A.LogOf(h, u), |A.StartOf(h, u)|, index - 1);
    }
  }

  /** A write the client was told succeeded is never lost: it is at its index in the log of
      every leader of a later term, and of every leader of its own term from then on. */
  lemma SuccessIsDurable(cfg: Config, run: seq<Cluster>, i: nat, j: nat, n: NodeId, ticket: nat, m: NodeId)
    requires IsRun(cfg, run) && i < |run| && j < |run| && n in cfg.ids && m in cfg.ids
    requires n in run[i].servers && ticket in run[i].servers[n].proposals
    requires run[i].servers[n].proposals[ticket].answer == Some(true)
    requires m in run[j].servers && run[j].servers[m].role == Leader
    requires var t := run[i].servers[n].proposals[ticket].entry.term;
             run[j].servers[m].term > t || (run[j].servers[m].term == t && i <= j)
    ensures var p := run[i].servers[n].proposals[ticket];
            0 < p.index <= |run[j].servers[m].log| && run[j].servers[m].log[p.index - 1] == p.entry &&
            CommandOf(run[j].servers[m].log[p.index - 1]) == p.command
  {
    var abs := EngineRefinesRaft(cfg, run);
    var p, u, log := run[i].servers[n].proposals[ticket], run[j].servers[m].term, run[j].servers[m].log;
    OwnCommand(cfg, run, abs, i, n, ticket);
    SettledStays(cfg, run, abs, i, j, n, ticket);
    LeaderAt(cfg, run, abs, j, m);
    HistoriesAt(cfg, run, abs, j, if i <= j then j else i, m);
    SettledInLeader(abs[if i <= j then j else i], abs[j].h, p.index, p.entry, u);
  }

  /** Both histories are sound, and the later one has grown from the earlier. */
  lemma HistoriesAt(cfg: Config, run: seq<Cluster>, abs: seq<A.State>, j: nat, k: nat, m: NodeId)
    requires Follows(cfg, run, abs) && j <= k < |run| && m in cfg.ids
    ensures Inv(abs[k]) && abs[k].ids == cfg.ids && HistoryOk(cfg.ids, abs[j].h) && Grows(abs[j].h, abs[k].h)
  {
    MirrorsAt(cfg, run, abs, j, m);
    MirrorsAt(cfg, run, abs, k, m);
    GrowsBetween(cfg, run, abs, j, k);
  }

  /** A settled entry and a commit index that reaches it agree on it. */
  lemma SettledInCommitted(s: A.State, index: nat, e: Entry, log: Log, term: nat, c: nat)
    requires Inv(s) && Settled(s.ids, s.h, index, e) && CommitKnownIn(s, log, term, c) && index <= c
    ensures log[index - 1] == e
  {
    var j :| A.Chosen(s.ids, s.h, e.term, j) && index <= j && A.LogOf(s.h, e.term)[index - 1] == e;
    var t: nat, k: nat :| A.Chosen(s.ids, s.h, t, k) && t <= term && c <= k && Agree(log, A.LogOf(s.h, t), c);
    AgreeAt(log, A.LogOf(s.h, t), c, index - 1);
    if t <= e.term {
      SettledInLater(s.ids, s.h, t, k, e.term);
      AgreeAt(A.LogOf(s.h, e.term), A.LogOf(s.h, t), k, index - 1);
    } else {
      SettledInLater(s.ids, s.h, e.term, j, t);
      AgreeAt(A.LogOf(s.h, t), A.LogOf(s.h, e.term), j, index - 1);
    }
  }

  /** What a node knows committed at state j is still known at a later state k. */
  lemma CommitLater(cfg: Config, run: seq<Cluster>, abs: seq<A.State>, j: nat, k: nat, m: NodeId)
    requires Follows(cfg, run, abs) && j <= k < |run| && m in cfg.ids
    ensures m in run[j].servers && Inv(abs[k]) && abs[k].ids == cfg.ids
    ensures var sv := run[j].servers[m]; sv.commit <= |sv.log| && CommitKnownIn(abs[k], sv.log, sv.term, sv.commit)
  {
    MirrorsAt(cfg, run, abs, j, m);
    MirrorsAt(cfg, run, abs, k, m);
    CommitFact(abs[j], m);
    assert GrowsFrom(abs, j, k);
    var sv := run[j].servers[m];
    CommitKnownGrows(cfg.ids, abs[j].h, abs[k].h, sv.log, sv.term, sv.term, sv.commit);
  }

  /** Every node that commits past that index, at any time, has committed exactly that entry. */
  lemma SuccessIsAgreed(cfg: Config, run: seq<Cluster>, i: nat, j: nat, n: NodeId, ticket: nat, m: NodeId)
    requires IsRun(cfg, run) && i < |run| && j < |run| && n in cfg.ids && m in cfg.ids
    requires n in run[i].servers && ticket in run[i].servers[n].proposals
    requires run[i].servers[n].proposals[ticket].answer == Some(true)
    requires m in run[j].servers && run[i].servers[n].proposals[ticket].index <= run[j].servers[m].commit
    ensures var p := run[i].servers[n].proposals[ticket];
            0 < p.index <= |run[j].servers[m].log| && run[j].servers[m].log[p.index - 1] == p.entry &&
            CommandOf(run[j].servers[m].log[p.index - 1]) == p.command
  {
    var abs := EngineRefinesRaft(cfg, run);
    var p, sv := run[i].servers[n].proposals[ticket], run[j].servers[m];
    var k := if i <= j then j else i;
    OwnCommand(cfg, run, abs, i, n, ticket);
    SettledStays(cfg, run, abs, i, j, n, ticket);
    CommitLater(cfg, run, abs, j, k, m);
    SettledInCommitted(abs[k], p.index, p.entry, sv.log, sv.term, sv.commit);
  }

  // ---------- Followers ----------

  /** A leader is never sent an AppendEntries request of its own term. */
  lemma LeaderNeverFollowsItself(cfg: Config, run: seq<Cluster>, i: nat, id: CallId)
    requires IsRun(cfg, run) && i < |run|
    requires id in run[i].calls && run[i].calls[id].req.AppendReq?
    requires run[i].calls[id].to in run[i].servers && run[i].servers[run[i].calls[id].to].role == Leader
    ensures run[i].calls[id].req.term != run[i].servers[run[i].calls[id].to].term
  {
    var abs := EngineRefinesRaft(cfg, run);
    assert RelatedAt(cfg, run, abs, i);
    var call := run[i].calls[id];
    assert CallOk(cfg, abs[i].h, id, call);
    MirrorsAt(cfg, run, abs, i, call.to);
    LeaderFact(abs[i], call.to);
  }

  /** Only the merge of an accepted request cuts a log, at the first conflicting entry. */
  lemma CutIsConflict(cfg: Config, c: Cluster, e: Event, len: nat)
    requires Possible(cfg, c, e) && TruncateLog(len) in Handled(cfg, c, e).writes
    ensures e.Serve? && c.calls[e.id].req.AppendReq?
    ensures var call := c.calls[e.id]; var req := call.req; var sv := c.servers[Actor(c, e)];
            var sv1 := Heed(sv, call.from, req.term, c.now); var k := Matching(sv1.log, req.prevIndex, req.entries);
            req.term >= sv.term && Consistent(sv1.log, req.prevIndex, req.prevTerm) &&
            k < |req.entries| && len == req.prevIndex + k < |sv1.log|
  {
  }

  lemma CutAboveCommit(cfg: Config, s: A.State, n: NodeId, sv: Server, prev: nat, entries: Log)
    requires Mirrors(cfg, s, n, sv) && SliceFits(s, sv, prev, entries)
    requires var k := Matching(sv.log, prev, entries); k < |entries| && prev + k < |sv.log|
    ensures sv.commit <= prev + Matching(sv.log, prev, entries)
  {
    MergePoint(cfg, s, n, sv, prev, entries);
    CommitBelowCut(s, A.Truncate(n, prev + Matching(sv.log, prev, entries)));
  }

  lemma ConflictAboveCommit(cfg: Config, s: A.State, n: NodeId, sv: Server, from: NodeId, req: Request, now: nat)
    requires Mirrors(cfg, s, n, sv) && req.AppendReq? && AppendReqOk(cfg.ids, s.h, from, req) && req.term >= sv.term
    requires Consistent(sv.log, req.prevIndex, req.prevTerm)
    requires var k := Matching(sv.log, req.prevIndex, req.entries); k < |req.entries| && req.prevIndex + k < |sv.log|
    ensures sv.commit <= req.prevIndex + Matching(sv.log, req.prevIndex, req.entries)
  {
    var s1 := HeedOk(cfg, s, n, sv, from, req.term, now);
    var sv1 := Heed(sv, from, req.term, now);
    assert SliceFits(s1, sv1, req.prevIndex, req.entries) by { PrevAgrees(cfg, s1, n, sv1, from, req); }
    CutAboveCommit(cfg, s1, n, sv1, req.prevIndex, req.entries);
  }

  /** The code has no guard for it, but no handler ever cuts the log at or below the
      node's own commit index, and so never below what it applied. */
  lemma NeverCutsCommitted(cfg: Config, run: seq<Cluster>, i: nat, e: Event, len: nat)
    requires IsRun(cfg, run) && i < |run| && Possible(cfg, run[i], e)
    requires TruncateLog(len) in Handled(cfg, run[i], e).writes
    ensures var sv := run[i].servers[Actor(run[i], e)]; sv.applied <= sv.commit <= len
  {
    var abs := EngineRefinesRaft(cfg, run);
    var c, n := run[i], Actor(run[i], e);
    MirrorsAt(cfg, run, abs, i, n);
    CutIsConflict(cfg, c, e, len);
    assert CallOk(cfg, abs[i].h, e.id, c.calls[e.id]);
    ConflictAboveCommit(cfg, abs[i], n, c.servers[n], c.calls[e.id].from, c.calls[e.id].req, c.now);
  }

  lemma SliceMatches(log: Log, full: Log, p: nat, entries: Log, x: nat)
    requires x < |entries| && p + |entries| <= |full| && entries == full[p..p + |entries|]
    requires p + x < |log| && log[p + x].term == entries[x].term && TellsAt(log, full, p + x)
    ensures log[p..p + x + 1] == entries[..x + 1] && (p > 0 ==> log[p - 1] == full[p - 1])
  {
    SliceOfPrefix(log, full, p + x + 1, p, p + x + 1);
    assert full[p..p + x + 1] == entries[..x + 1];
    if p > 0 { AgreeAt(log, full, p + x + 1, p - 1); }
  }

  /** Raft section 5.3: a request in flight and a log with the same term at an index
      agree on everything the request carries up to there. */
  lemma InFlightMatching(cfg: Config, run: seq<Cluster>, i: nat, id: CallId, n: NodeId, x: nat)
    requires IsRun(cfg, run) && i < |run| && n in cfg.ids && n in run[i].servers
    requires id in run[i].calls && run[i].calls[id].req.AppendReq?
    requires var req := run[i].calls[id].req; var log := run[i].servers[n].log;
             x < |req.entries| && req.prevIndex + x < |log| && log[req.prevIndex + x].term == req.entries[x].term
    ensures var req := run[i].calls[id].req; var log := run[i].servers[n].log;
            log[req.prevIndex..req.prevIndex + x + 1] == req.entries[..x + 1] &&
            (req.prevIndex > 0 ==> log[req.prevIndex - 1].term == req.prevTerm)
  {
    var abs := EngineRefinesRaft(cfg, run);
    InFlightFacts(cfg, run, abs, i, id, n);
    var req, log := run[i].calls[id].req, run[i].servers[n].log;
    assert TellsAt(log, A.LogOf(abs[i].h, req.term), req.prevIndex + x);
    SliceMatches(log, A.LogOf(abs[i].h, req.term), req.prevIndex, req.entries, x);
  }

  /** The request is a slice of its leader's log, and that log and the node's tell each other's terms. */
  lemma InFlightFacts(cfg: Config, run: seq<Cluster>, abs: seq<A.State>, i: nat, id: CallId, n: NodeId)
    requires Follows(cfg, run, abs) && i < |run| && n in cfg.ids && id in run[i].calls && run[i].calls[id].req.AppendReq?
    ensures n in run[i].servers
    ensures var call := run[i].calls[id];
            AppendReqOk(cfg.ids, abs[i].h, call.from, call.req) &&
            TermsTell(run[i].servers[n].log, A.LogOf(abs[i].h, call.req.term))
  {
    MirrorsAt(cfg, run, abs, i, n);
    assert CallOk(cfg, abs[i].h, id, run[i].calls[id]);
    LogsTell(abs[i], n, run[i].calls[id].req.term);
  }

  // ---------- Leaders ----------

  /** However late and out of order replies are, next stays within the log, acked never
      exceeds it, and a peer still in the leader's term holds the leader's log up to acked. */
  lemma BookkeepingSound(cfg: Config, run: seq<Cluster>, i: nat, n: NodeId, p: NodeId)
    requires IsRun(cfg, run) && i < |run| && n in cfg.ids && p in Peers(cfg, n)
    requires n in run[i].servers && run[i].servers[n].role == Leader
    ensures p in run[i].servers && run[i].servers[n].leader.Some?
    ensures var sv := run[i].servers[n]; var ls := sv.leader.value;
            p in ls.next && p in ls.acked && 1 <= ls.next[p] <= |sv.log| + 1 && ls.acked[p] <= |sv.log| &&
            (run[i].servers[p].term == sv.term ==> Agree(run[i].servers[p].log, sv.log, ls.acked[p]))
  {
    var abs := EngineRefinesRaft(cfg, run);
    MirrorsAt(cfg, run, abs, i, n);
    MirrorsAt(cfg, run, abs, i, p);
    var s, sv, peer := abs[i], run[i].servers[n], run[i].servers[p];
    LeaderFact(s, n);
    assert PeerOk(s.h, sv.term, |sv.log|, sv.leader.value, p);
    if peer.term == sv.term {
      assert NodeOk(s.ids, s.h, p, s.nodes[p]);
      assert Retained(s.h, peer.log, peer.term, sv.term, sv.leader.value.acked[p]);
    }
  }

  // ---------- Progress within one incarnation ----------

  lemma ApplyGrows(decode: Decoder, s: Server, c: nat)
    requires s.commit <= c && s.applied <= s.commit
    ensures var r := Apply(decode, s.(commit := c)); r.commit == c && r.applied == c && r.term == s.term && r.epoch == s.epoch
  {
    ApplyTouches(decode, s.(commit := c));
  }

  /** What a later state of a node keeps from an earlier one. */
  predicate Onward(a: Server, b: Server) {
    a.term <= b.term && a.epoch <= b.epoch && (a.epoch == b.epoch ==> a.commit <= b.commit && a.applied <= b.applied)
  }

  lemma UpdateOnward(decode: Decoder, s: Server, peers: set<NodeId>)
    requires s.applied <= s.commit
    ensures Onward(s, UpdateCommit(decode, s, peers)) && UpdateCommit(decode, s, peers).epoch == s.epoch
  {
    var c := ScanCommit(s, peers, |s.log|);
    ScanPicks(s, peers, |s.log|);
    ApplyGrows(decode, s, c);
  }

  lemma LeadOnward(decode: Decoder, s: Server, peers: set<NodeId>, fault: Fault)
    requires s.applied <= s.commit
    ensures Onward(s, BecomeLeader(decode, s, peers, fault).server)
  {
    UpdateOnward(decode, LeadWithNoOp(s, peers, fault), peers);
  }

  lemma AcceptOnward(decode: Decoder, s: Server, req: Request, fault: Fault)
    requires req.AppendReq? && s.applied <= s.commit
    ensures Onward(s, Accept(decode, s, req, fault).server)
  {
    var s1 := s.(log := Merge(s.log, req.prevIndex, req.entries, fault).0);
    var c := Min(req.commit, LastSent(req));
    if c > s.commit { ApplyGrows(decode, s1, c); }
  }

  lemma CampaignOnward(decode: Decoder, s: Server, me: NodeId, peers: set<NodeId>, fault: Fault)
    requires s.applied <= s.commit
    ensures Onward(s, CampaignOf(decode, s, me, peers, fault).server)
  {
    LeadOnward(decode, s.(term := s.term + 1, role := Candidate, vote := Some(me), leader := None, votes := 1), peers, fault);
  }

  lemma ProposeOnward(decode: Decoder, s: Server, peers: set<NodeId>, command: seq<byte>, fault: Fault)
    requires s.applied <= s.commit <= |s.log|
    ensures Onward(s, Propose(decode, s, peers, command, fault).server)
  {
    var s1 := s.(log := s.log + [OwnEntry(s, command)]);
    ApplyGrows(decode, s1, |s1.log|);
  }

  lemma AppendOnward(decode: Decoder, s: Server, from: NodeId, req: Request, now: nat, fault: Fault)
    requires req.AppendReq? && s.applied <= s.commit
    ensures Onward(s, OnAppendRequest(decode, s, from, req, now, fault).server)
  {
    AcceptOnward(decode, Heed(s, from, req.term, now), req, fault);
  }

  lemma ReplyOnward(decode: Decoder, s: Server, peers: set<NodeId>, peer: NodeId, req: Request, rep: Reply)
    requires req.AppendReq? && rep.AppendRep? && s.applied <= s.commit
    ensures Onward(s, OnAppendReply(decode, s, peers, peer, req, rep).server)
  {
    if s.leader.Some? { UpdateOnward(decode, Confirmed(s, peer, LastSent(req)), peers); }
  }

  lemma HandlerOnward(cfg: Config, c: Cluster, e: Event)
    requires Possible(cfg, c, e)
    requires var s := c.servers[Actor(c, e)]; s.applied <= s.commit <= |s.log|
    ensures Onward(c.servers[Actor(c, e)], Handled(cfg, c, e).server)
  {
    var n := Actor(c, e);
    var s, ps := c.servers[n], Peers(cfg, n);
    match e
    case Timeout(_, fault) => CampaignOnward(cfg.decode, s, n, {}, fault);
    case Heartbeat(_) =>
    case Client(_, command, fault) => ProposeOnward(cfg.decode, s, ps, command, fault);
    case Serve(id, fault) =>
      var call := c.calls[id];
      if call.req.AppendReq? { AppendOnward(cfg.decode, s, call.from, call.req, c.now, fault); }
    case Read(_, _) => ReadOnward(cfg, c, e);
  }

  lemma ReadOnward(cfg: Config, c: Cluster, e: Event)
    requires Possible(cfg, c, e) && e.Read?
    requires var s := c.servers[Actor(c, e)]; s.applied <= s.commit <= |s.log|
    ensures Onward(c.servers[Actor(c, e)], Handled(cfg, c, e).server)
  {
    var n, call := Actor(c, e), c.calls[e.id];
    var s, ps := c.servers[n], Peers(cfg, n);
    if call.req.AppendReq? { ReplyOnward(cfg.decode, s, ps, call.to, call.req, call.reply.value); }
    else if e.id.ForPreVote? { CampaignOnward(cfg.decode, s, n, ps, e.fault); }
    else { LeadOnward(cfg.decode, Counted(s), ps, e.fault); }
  }

  /** However far a handler got before a crash, the term on disk did not go back. */
  lemma StopKeepsTerm(cfg: Config, c: Cluster, e: Event, done: nat)
    requires Possible(cfg, c, e) && done <= |Handled(cfg, c, e).writes|
    requires var s := c.servers[Actor(c, e)]; s.applied <= s.commit <= |s.log|
    ensures var sv := c.servers[Actor(c, e)]; Replay(DurableOf(sv), Handled(cfg, c, e).writes[..done]).term >= sv.term
  {
    var sv, ws := c.servers[Actor(c, e)], Handled(cfg, c, e).writes;
    if done == |ws| {
      assert ws[..done] == ws;
      DiskMatchesMemory(cfg, c, e);
      HandlerOnward(cfg, c, e);
    } else {
      EarlyStops(cfg, c, e, done);
      if done != 0 && done <= 2 && TermFirst(ws, sv.term) {
        assert ws[..1] == [ws[0]] && ws[..2] == [ws[0], ws[1]];
        ReplayOne(DurableOf(sv), ws[0]);
        ReplayTwo(DurableOf(sv), ws[0], ws[1]);
      } else if done != 0 {
        DiskMatchesMemory(cfg, c, CutShort(e));
        HandlerOnward(cfg, c, CutShort(e));
      }
    }
  }

  lemma EventOnward(cfg: Config, c: Cluster, e: Event, n: NodeId)
    requires Enabled(cfg, c, e) && n in c.servers && n in After(cfg, c, e).servers
    requires c.servers[n].applied <= c.servers[n].commit <= |c.servers[n].log|
    ensures Onward(c.servers[n], After(cfg, c, e).servers[n])
  {
    if Handles(e) {
      if n == Actor(c, e) { HandlerOnward(cfg, c, e); }
    } else if e.CrashDuring? {
      if n == Actor(c, e.during) { StopKeepsTerm(cfg, c, e.during, e.done); }
    }
  }

  lemma StepOnward(cfg: Config, run: seq<Cluster>, i: nat, n: NodeId)
    requires IsRun(cfg, run) && i + 1 < |run| && n in cfg.ids
    ensures n in run[i].servers && n in run[i + 1].servers && Onward(run[i].servers[n], run[i + 1].servers[n])
  {
    TableIsFold(cfg, run, i, n);
    TableIsFold(cfg, run, i + 1, n);
    var e := EventAt(cfg, run, i);
    EventOnward(cfg, run[i], e, n);
  }

  /** Terms never go back, even over a crash, and within one incarnation neither do the
      commit index and the applied index. */
  lemma {:induction false} IndicesOnlyGrow(cfg: Config, run: seq<Cluster>, i: nat, j: nat, n: NodeId)
    requires IsRun(cfg, run) && i <= j < |run| && n in cfg.ids
    ensures n in run[i].servers && n in run[j].servers && Onward(run[i].servers[n], run[j].servers[n])
    decreases j
  {
    if i == j {
      TableIsFold(cfg, run, i, n);
    } else {
      IndicesOnlyGrow(cfg, run, i, j - 1, n);
      StepOnward(cfg, run, j - 1, n);
    }
  }
}
