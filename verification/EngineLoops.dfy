/** What the engine's two loops compute, said without repeating them, and how many
    exchanges a follower needs to catch up. */
module EngineLoops {
  import opened RaftTypes
  import opened Engine
  import opened EngineCluster
  import opened EngineRelation
  import opened EngineSteps
  import opened EngineSafety
  import opened AbstractInvariants
  import opened AbstractSafety
  import A = AbstractRaft

  // ---------- The merge loop ----------

  /** The log already holds the i-th sent entry, going by its term. */
  predicate HoldsSent(log: Log, prev: nat, entries: Log, i: nat) {
    i < |entries| && prev + i < |log| && log[prev + i].term == entries[i].term
  }

  /** Entry k is the first that is missing or conflicts. */
  ghost predicate FirstDifference(log: Log, prev: nat, entries: Log, k: nat) {
    k < |entries| && !HoldsSent(log, prev, entries, k) && forall i: nat :: i < k ==> HoldsSent(log, prev, entries, i)
  }

  lemma {:induction false} MatchingIs(log: Log, prev: nat, entries: Log)
    ensures var k := Matching(log, prev, entries);
            k <= |entries| && (forall i: nat :: i < k ==> HoldsSent(log, prev, entries, i)) &&
            (k < |entries| ==> !HoldsSent(log, prev, entries, k))
    decreases |entries|
  {
    if HoldsSent(log, prev, entries, 0) {
      MatchingIs(log, prev + 1, entries[1..]);
      var k := Matching(log, prev + 1, entries[1..]);
      forall i: nat | i < 1 + k ensures HoldsSent(log, prev, entries, i) {
        if i > 0 { assert HoldsSent(log, prev + 1, entries[1..], i - 1); }
      }
    }
  }

  lemma DifferenceIs(log: Log, prev: nat, entries: Log, k: nat)
    requires prev <= |log| && FirstDifference(log, prev, entries, k)
    ensures Matching(log, prev, entries) == k && prev + k <= |log|
  {
    MatchingIs(log, prev, entries);
    if k > 0 { assert HoldsSent(log, prev, entries, k - 1); }
  }

  /** The merge leaves the log alone exactly when all that was sent is already there. */
  lemma MergeKeeps(log: Log, prev: nat, entries: Log)
    requires prev <= |log| && forall i: nat :: i < |entries| ==> HoldsSent(log, prev, entries, i)
    ensures Merge(log, prev, entries, NoFault) == (log, [], true)
  {
    MatchingIs(log, prev, entries);
  }

  /** Otherwise the leader's entries take over from the first difference on, and storage
      sees one append, after one truncation if something has to go. */
  lemma MergeTakesOver(log: Log, prev: nat, entries: Log, k: nat)
    requires prev <= |log| && FirstDifference(log, prev, entries, k)
    ensures prev + k <= |log|
    ensures Merge(log, prev, entries, NoFault) ==
            (log[..prev + k] + entries[k..],
             (if prev + k < |log| then [TruncateLog(prev + k)] else []) + [AppendLog(entries[k..])], true)
  {
    DifferenceIs(log, prev, entries, k);
    var rest: seq<Write> := [AppendLog(entries[k..])];
    assert [] + rest == rest && [TruncateLog(prev + k)] + rest == [TruncateLog(prev + k), AppendLog(entries[k..])];
    if prev + k == |log| { assert log[..prev + k] == log; }
  }

  /** A failing transaction leaves the log as it was, or cut at the first difference and
      nothing else: storage never holds more or less than memory. */
  lemma MergeFails(log: Log, prev: nat, entries: Log, k: nat, fault: Fault)
    requires prev <= |log| && FirstDifference(log, prev, entries, k) && !fault.NoFault?
    ensures prev + k <= |log|
    ensures var (log', ws, ok) := Merge(log, prev, entries, fault);
            if fault.TruncateFails? && prev + k == |log| then ok && log' == log + entries[k..]
            else !ok && log' == (if fault.AppendFails? then log[..prev + k] else log)
    ensures var (log', ws, ok) := Merge(log, prev, entries, fault);
            Replay(Durable(0, None, log), ws).log == log'
  {
    DifferenceIs(log, prev, entries, k);
    assert log[..|log|] == log;
    var (log', ws, ok) := Merge(log, prev, entries, fault);
    assert |ws| <= 1;
    if |ws| == 1 { assert ws[..0] == []; assert Replay(Durable(0, None, log), ws[..0]).log == log; }
  }

  /** A request whose entries the node has already accepted in this term changes nothing
      when it comes again, however late: its log is never shortened. */
  lemma RedeliveryChangesNothing(cfg: Config, run: seq<Cluster>, i: nat, j: nat, id: CallId)
    requires IsRun(cfg, run) && i <= j < |run|
    requires id in run[i].calls
    requires var call := run[i].calls[id]; call.req.AppendReq? && call.reply.Some? && call.reply.value.AppendRep? && call.reply.value.success
    requires run[i].calls[id].to in run[j].servers && run[j].servers[run[i].calls[id].to].term == run[i].calls[id].req.term
    ensures var req := run[i].calls[id].req; var log := run[j].servers[run[i].calls[id].to].log;
            Consistent(log, req.prevIndex, req.prevTerm) && Merge(log, req.prevIndex, req.entries, NoFault) == (log, [], true)
  {
    var abs := EngineRefinesRaft(cfg, run);
    var call, n := run[i].calls[id], run[i].calls[id].to;
    ConfirmedStays(cfg, run, abs, i, j, id);
    var req, log := call.req, run[j].servers[n].log;
    SliceKept(log, A.LogOf(abs[i].h, req.term), A.LogOf(abs[j].h, req.term), req.prevIndex, req.entries);
    MergeKeeps(log, req.prevIndex, req.entries);
  }

  /** What a node confirmed to a leader stays in its log throughout the leader's term. */
  lemma ConfirmedStays(cfg: Config, run: seq<Cluster>, abs: seq<A.State>, i: nat, j: nat, id: CallId)
    requires Follows(cfg, run, abs) && i <= j < |run| && id in run[i].calls
    requires var call := run[i].calls[id]; call.req.AppendReq? && call.reply.Some? && call.reply.value.AppendRep? && call.reply.value.success
    requires run[i].calls[id].to in run[j].servers && run[j].servers[run[i].calls[id].to].term == run[i].calls[id].req.term
    ensures var req := run[i].calls[id].req; var log := run[j].servers[run[i].calls[id].to].log;
            AppendReqOk(cfg.ids, abs[i].h, run[i].calls[id].from, req) &&
            Agree(A.LogOf(abs[i].h, req.term), A.LogOf(abs[j].h, req.term), |A.LogOf(abs[i].h, req.term)|) &&
            Agree(log, A.LogOf(abs[j].h, req.term), LastSent(req))
  {
    var call, n := run[i].calls[id], run[i].calls[id].to;
    var req := call.req;
    assert RelatedAt(cfg, run, abs, i) && CallOk(cfg, abs[i].h, id, call);
    MirrorsAt(cfg, run, abs, j, n);
    assert GrowsFrom(abs, i, j);
    KeepsConfirmed(abs[j], n, run[j].servers[n].log, req.term, LastSent(req));
  }

  lemma KeepsConfirmed(s: A.State, n: NodeId, log: Log, t: nat, len: nat)
    requires Inv(s) && n in s.ids && s.nodes[n].term == t && s.nodes[n].log == log && len <= A.AckOf(s.h, t, n)
    ensures Agree(log, A.LogOf(s.h, t), len)
  {
    assert NodeOk(s.ids, s.h, n, s.nodes[n]);
    assert Retained(s.h, log, t, t, len);
  }

  lemma SliceKept(log: Log, full: Log, full': Log, prev: nat, entries: Log)
    requires prev + |entries| <= |full| && entries == full[prev..prev + |entries|]
    requires Agree(full, full', |full|) && Agree(log, full', prev + |entries|)
    ensures prev + |entries| <= |log|
    ensures prev > 0 ==> log[prev - 1] == full[prev - 1]
    ensures forall i: nat :: i < |entries| ==> HoldsSent(log, prev, entries, i)
  {
    var end := prev + |entries|;
    if prev > 0 { AgreeAt(log, full', end, prev - 1); AgreeAt(full, full', |full|, prev - 1); }
    forall i: nat | i < |entries| ensures HoldsSent(log, prev, entries, i) {
      AgreeAt(log, full', end, prev + i);
      AgreeAt(full, full', |full|, prev + i);
    }
  }

  // ---------- The commit scan ----------

  /** The greatest committable index above the commit index, or the commit index itself:
      the scan finds exactly that, and nothing else is that. */
  ghost predicate IsNewCommit(s: Server, peers: set<NodeId>, c: nat) {
    && (c == s.commit || (c > s.commit && Committable(s, peers, c)))
    && forall n: nat :: n > c && n > s.commit ==> !Committable(s, peers, n)
  }

  lemma {:induction false} ScanFinds(s: Server, peers: set<NodeId>, n: nat)
    ensures var c := ScanCommit(s, peers, n);
            s.commit <= c && (c == s.commit || (c <= n && Committable(s, peers, c))) &&
            forall m: nat :: c < m <= n ==> !Committable(s, peers, m)
    decreases n
  {
    if n > s.commit && !Committable(s, peers, n) { ScanFinds(s, peers, n - 1); }
  }

  lemma ScanIsGreatest(s: Server, peers: set<NodeId>, c: nat)
    requires c >= s.commit
    ensures c == ScanCommit(s, peers, |s.log|) <==> IsNewCommit(s, peers, c)
  {
    ScanFinds(s, peers, |s.log|);
    var found := ScanCommit(s, peers, |s.log|);
  }

  // ---------- Catching up ----------

  predicate TermFits(log: Log, full: Log, t: nat, i: nat) {
    i < |log| ==> log[i].term <= t && (log[i].term == t ==> i < |full|)
  }

  predicate InOrder(log: Log, i: nat, j: nat) {
    i <= j < |log| ==> log[i].term <= log[j].term
  }

  /** What log matching gives for a follower's log and the log of the leader of term t. */
  ghost predicate FitsLeader(log: Log, full: Log, t: nat) {
    && TermsTell(log, full)
    && (forall i: nat {:trigger TermFits(log, full, t, i)} :: TermFits(log, full, t, i))
    && (forall i: nat, j: nat {:trigger InOrder(log, i, j)} :: InOrder(log, i, j))
  }

  /** How many exchanges send `rest` entries; a heartbeat carries none. */
  function Batches(rest: nat): nat {
    if rest <= MAX_ENTRIES_PER_APPEND then 1 else 1 + Batches(rest - MAX_ENTRIES_PER_APPEND)
  }

  /** One request, its handling and its answer. */
  function Exchange(decode: Decoder, peers: set<NodeId>, me: NodeId, peer: NodeId, now: nat, s: Server, f: Server): (Server, Server) {
    var req := AppendRequest(s, peer);
    var r := OnAppendRequest(decode, f, me, req, now, NoFault);
    (OnAppendReply(decode, s, peers, peer, req, r.reply.value).server, r.server)
  }

  function Iterate<T>(step: T -> T, x: T, n: nat): T {
    if n == 0 then x else Iterate(step, step(x), n - 1)
  }

  type Both = (Server, Server)

  ghost predicate StepIs(cfg: Config, n: NodeId, p: NodeId, now: nat, step: Both -> Both, x: Both) {
    step(x) == Exchange(cfg.decode, Peers(cfg, n), n, p, now, x.0, x.1)
  }

  /** `step` is one exchange between leader n and follower p. */
  ghost predicate IsStep(cfg: Config, n: NodeId, p: NodeId, now: nat, step: Both -> Both) {
    forall x {:trigger StepIs(cfg, n, p, now, step, x)} :: StepIs(cfg, n, p, now, step, x)
  }

  lemma TheStep(cfg: Config, n: NodeId, p: NodeId, now: nat) returns (step: Both -> Both)
    ensures IsStep(cfg, n, p, now, step)
  {
    step := (x: Both) => Exchange(cfg.decode, Peers(cfg, n), n, p, now, x.0, x.1);
    forall x ensures StepIs(cfg, n, p, now, step, x) {}
  }

  /** A leader and a follower that knows no later term and holds what is acknowledged. */
  ghost predicate Pair(peers: set<NodeId>, peer: NodeId, s: Server, f: Server) {
    && s.role == Leader && s.leader.Some? && peer in peers
    && s.leader.value.next.Keys == peers && s.leader.value.acked.Keys == peers
    && 1 <= s.leader.value.next[peer] <= |s.log| + 1 && s.leader.value.acked[peer] <= |s.log|
    && f.term <= s.term && FitsLeader(f.log, s.log, s.term) && FitsLeader(s.log, s.log, s.term)
    && Agree(f.log, s.log, s.leader.value.acked[peer])
  }

  lemma {:induction false} AllHeld(log: Log, full: Log, keep: nat, prev: nat, entries: Log)
    requires Agree(log, full, keep) && prev + |entries| <= keep && entries == full[prev..prev + |entries|]
    ensures Matching(log, prev, entries) == |entries|
    decreases |entries|
  {
    if entries != [] {
      AgreeAt(log, full, keep, prev);
      assert entries[0] == full[prev] && entries[1..] == full[prev + 1..prev + |entries|];
      AllHeld(log, full, keep, prev + 1, entries[1..]);
    }
  }

  /** The follower's log after a slice of the leader's log was merged into it. */
  lemma MergeAgrees(log: Log, full: Log, t: nat, prev: nat, entries: Log, keep: nat)
    requires FitsLeader(log, full, t) && FitsLeader(full, full, t) && Agree(log, full, prev) && Agree(log, full, keep)
    requires prev + |entries| <= |full| && entries == full[prev..prev + |entries|]
    ensures var m := Merge(log, prev, entries, NoFault);
            m.2 && Agree(m.0, full, prev + |entries|) && Agree(m.0, full, keep) && FitsLeader(m.0, full, t)
  {
    MatchingAgrees(log, full, prev, entries);
    MergeIs(log, full, prev, entries, NoFault);
    PrefixFits(full, prev + |entries|, t);
    if keep > prev + |entries| {
      AllHeld(log, full, keep, prev, entries);
    } else {
      AgreeShorter(Merge(log, prev, entries, NoFault).0, full, prev + |entries|, keep);
    }
  }

  lemma PrefixFits(full: Log, end: nat, t: nat)
    requires FitsLeader(full, full, t) && end <= |full|
    ensures FitsLeader(full[..end], full, t)
  {
    var cut := full[..end];
    forall i: nat ensures TellsAt(cut, full, i) {
      if i < |cut| { assert cut[..i + 1] == full[..i + 1]; }
    }
    forall i: nat ensures TermFits(cut, full, t, i) { assert TermFits(full, full, t, i); }
    forall i: nat, j: nat ensures InOrder(cut, i, j) { assert InOrder(full, i, j); }
  }

  /** The consistency check passes exactly when the logs agree that far. */
  lemma ConsistentIs(log: Log, full: Log, prev: nat)
    requires TermsTell(log, full) && prev <= |full|
    ensures Consistent(log, prev, if prev > 0 then full[prev - 1].term else 0) <==> Agree(log, full, prev)
  {
    if prev > 0 {
      if prev <= |log| { assert TellsAt(log, full, prev - 1); }
      if Agree(log, full, prev) { AgreeAt(log, full, prev, prev - 1); }
    }
  }

  /** The commit scan and applying leave the leader's log and books alone. */
  lemma UpdateTouches(decode: Decoder, s: Server, peers: set<NodeId>)
    ensures var r := UpdateCommit(decode, s, peers);
            r.log == s.log && r.term == s.term && r.role == s.role && r.leader == s.leader
  {
    ApplyTouches(decode, s.(commit := ScanCommit(s, peers, |s.log|)));
  }

  lemma AcceptIs(decode: Decoder, f: Server, req: Request)
    requires req.AppendReq? && Merge(f.log, req.prevIndex, req.entries, NoFault).2
    ensures var r := Accept(decode, f, req, NoFault);
            r.server.log == Merge(f.log, req.prevIndex, req.entries, NoFault).0 && r.server.term == f.term &&
            r.reply == Some(AppendRep(f.term, true))
  {
    var s1 := f.(log := Merge(f.log, req.prevIndex, req.entries, NoFault).0);
    ApplyTouches(decode, s1.(commit := Min(req.commit, LastSent(req))));
  }

  /** The request carries a slice of this log, with the term before it. */
  predicate Carries(req: Request, full: Log) {
    req.AppendReq? && LastSent(req) <= |full| && req.entries == full[req.prevIndex..LastSent(req)] &&
    req.prevTerm == if req.prevIndex > 0 then full[req.prevIndex - 1].term else 0
  }

  /** The follower's half of an exchange. */
  lemma FollowerHalf(decode: Decoder, me: NodeId, now: nat, full: Log, f: Server, req: Request, keep: nat)
    requires Carries(req, full) && f.term <= req.term && Agree(f.log, full, keep)
    requires FitsLeader(f.log, full, req.term) && FitsLeader(full, full, req.term)
    ensures var r := OnAppendRequest(decode, f, me, req, now, NoFault);
            r.server.term == req.term && FitsLeader(r.server.log, full, req.term) && Agree(r.server.log, full, keep) &&
            r.reply == Some(AppendRep(req.term, Agree(f.log, full, req.prevIndex))) &&
            (if Agree(f.log, full, req.prevIndex) then Agree(r.server.log, full, LastSent(req))
             else r.server.log == f.log)
  {
    ConsistentIs(f.log, full, req.prevIndex);
    if Agree(f.log, full, req.prevIndex) {
      MergeAgrees(f.log, full, req.term, req.prevIndex, req.entries, keep);
      AcceptIs(decode, Heed(f, me, req.term, now), req);
    }
  }

  lemma RequestIs(s: Server, peers: set<NodeId>, peer: NodeId, f: Server)
    requires Pair(peers, peer, s, f)
    ensures var req := AppendRequest(s, peer);
            Carries(req, s.log) && req.term == s.term && req.prevIndex + 1 == s.leader.value.next[peer] &&
            LastSent(req) == Min(|s.log|, req.prevIndex + MAX_ENTRIES_PER_APPEND)
  {
  }

  lemma ConfirmedBooks(s: Server, peers: set<NodeId>, peer: NodeId, f: Server, upTo: nat)
    requires Pair(peers, peer, s, f) && upTo + 1 >= s.leader.value.next[peer]
    ensures var ls := Confirmed(s, peer, upTo).leader.value;
            ls.next.Keys == peers && ls.acked.Keys == peers && ls.next[peer] == upTo + 1 &&
            ls.acked[peer] == Max(s.leader.value.acked[peer], upTo)
  {
    assert Raise(s.leader.value.next, peer, upTo + 1).Keys == peers;
    assert Raise(s.leader.value.acked, peer, upTo).Keys == peers;
  }

  /** The leader's half: one confirmed batch forward, or one entry back. */
  lemma LeaderConfirms(decode: Decoder, s: Server, peers: set<NodeId>, peer: NodeId, f: Server, req: Request)
    requires Pair(peers, peer, s, f) && req.AppendReq? && req.term == s.term
    requires LastSent(req) + 1 >= s.leader.value.next[peer]
    ensures var r := OnAppendReply(decode, s, peers, peer, req, AppendRep(s.term, true)).server;
            var end := LastSent(req);
            r.log == s.log && r.term == s.term && r.role == Leader && r.leader.Some? &&
            r.leader.value.next.Keys == peers && r.leader.value.acked.Keys == peers &&
            r.leader.value.next[peer] == end + 1 && r.leader.value.acked[peer] == Max(s.leader.value.acked[peer], end)
  {
    var s1 := Confirmed(s, peer, LastSent(req));
    ConfirmedBooks(s, peers, peer, f, LastSent(req));
    UpdateTouches(decode, s1, peers);
    assert OnAppendReply(decode, s, peers, peer, req, AppendRep(s.term, true)).server == UpdateCommit(decode, s1, peers);
  }

  lemma LeaderBacksOff(decode: Decoder, s: Server, peers: set<NodeId>, peer: NodeId, f: Server, req: Request)
    requires Pair(peers, peer, s, f) && req.AppendReq? && req.term == s.term && s.leader.value.next[peer] > 1
    ensures var r := OnAppendReply(decode, s, peers, peer, req, AppendRep(s.term, false)).server;
            r.log == s.log && r.term == s.term && r.role == Leader && r.leader.Some? &&
            r.leader.value.next.Keys == peers && r.leader.value.acked.Keys == peers &&
            r.leader.value.next[peer] == s.leader.value.next[peer] - 1 && r.leader.value.acked[peer] == s.leader.value.acked[peer]
  {
    assert BackedOff(s, peer).leader.value.next.Keys == peers;
  }

  /** What one exchange achieves. */
  lemma ExchangeOk(decode: Decoder, peers: set<NodeId>, me: NodeId, peer: NodeId, now: nat, s: Server, f: Server)
      returns (s1: Server, f1: Server)
    requires Pair(peers, peer, s, f)
    ensures (s1, f1) == Exchange(decode, peers, me, peer, now, s, f)
    ensures Pair(peers, peer, s1, f1) && s1.log == s.log && s1.term == s.term
    ensures var req := AppendRequest(s, peer);
            if Agree(f.log, s.log, req.prevIndex) then
              Agree(f1.log, s.log, LastSent(req)) && s1.leader.value.next[peer] == LastSent(req) + 1 &&
              s1.leader.value.acked[peer] == Max(s.leader.value.acked[peer], LastSent(req))
            else
              req.prevIndex > 0 && f1.log == f.log && s1.leader.value.next[peer] == req.prevIndex &&
              s1.leader.value.acked[peer] == s.leader.value.acked[peer]
  {
    var req := AppendRequest(s, peer);
    RequestIs(s, peers, peer, f);
    FollowerHalf(decode, me, now, s.log, f, req, s.leader.value.acked[peer]);
    f1 := OnAppendRequest(decode, f, me, req, now, NoFault).server;
    s1 := OnAppendReply(decode, s, peers, peer, req, AppendRep(s.term, Agree(f.log, s.log, req.prevIndex))).server;
    if Agree(f.log, s.log, req.prevIndex) {
      LeaderConfirms(decode, s, peers, peer, f, req);
    } else {
      LeaderBacksOff(decode, s, peers, peer, f, req);
    }
  }

  /** What the leader's books say of everybody but this peer. */
  function AckedElsewhere(s: Server, peer: NodeId): map<NodeId, nat> {
    if s.leader.Some? then s.leader.value.acked - {peer} else map[]
  }

  lemma FollowerHalfCommits(decode: Decoder, me: NodeId, now: nat, full: Log, f: Server, req: Request)
    requires Carries(req, full) && f.term <= req.term && FitsLeader(f.log, full, req.term) && FitsLeader(full, full, req.term)
    ensures OnAppendRequest(decode, f, me, req, now, NoFault).server.commit ==
            if Agree(f.log, full, req.prevIndex) then Max(f.commit, Min(req.commit, LastSent(req))) else f.commit
  {
    ConsistentIs(f.log, full, req.prevIndex);
    if Agree(f.log, full, req.prevIndex) {
      MergeAgrees(f.log, full, req.term, req.prevIndex, req.entries, req.prevIndex);
      var f1 := Heed(f, me, req.term, now);
      var m := Merge(f1.log, req.prevIndex, req.entries, NoFault);
      ApplyTouches(decode, f1.(log := m.0, commit := Min(req.commit, LastSent(req))));
    }
  }

  lemma LeaderHalfCommits(decode: Decoder, s: Server, peers: set<NodeId>, peer: NodeId, req: Request, rep: Reply)
    requires s.role == Leader && s.leader.Some? && req.AppendReq? && rep.AppendRep? && rep.term <= s.term
    ensures var r := OnAppendReply(decode, s, peers, peer, req, rep).server;
            r.commit >= s.commit && AckedElsewhere(r, peer) == AckedElsewhere(s, peer)
  {
    var s1 := Confirmed(s, peer, LastSent(req));
    ScanPicks(s1, peers, |s1.log|);
    ApplyTouches(decode, s1.(commit := ScanCommit(s1, peers, |s1.log|)));
  }

  /** One exchange takes the leader's commit index to the follower, as far as the request goes;
      the leader's own never falls, and its books on the others stay as they are. */
  lemma ExchangeCommits(decode: Decoder, peers: set<NodeId>, me: NodeId, peer: NodeId, now: nat, s: Server, f: Server)
    requires Pair(peers, peer, s, f)
    ensures var (s1, f1) := Exchange(decode, peers, me, peer, now, s, f);
            var req := AppendRequest(s, peer);
            s1.commit >= s.commit && AckedElsewhere(s1, peer) == AckedElsewhere(s, peer) &&
            f1.commit == if Agree(f.log, s.log, req.prevIndex) then Max(f.commit, Min(s.commit, LastSent(req))) else f.commit
  {
    var req := AppendRequest(s, peer);
    RequestIs(s, peers, peer, f);
    FollowerHalf(decode, me, now, s.log, f, req, 0);
    FollowerHalfCommits(decode, me, now, s.log, f, req);
    LeaderHalfCommits(decode, s, peers, peer, req, AppendRep(req.term, Agree(f.log, s.log, req.prevIndex)));
  }

  /** Exchanges still needed: one per entry to go back, then one per batch. */
  function Remaining(prev: nat, last: nat, agree: bool): nat
    requires prev <= last
  {
    if agree then Batches(last - prev) else prev + Batches(last)
  }

  ghost function Needed(s: Server, peer: NodeId, f: Server): nat
    requires s.leader.Some? && peer in s.leader.value.next && 1 <= s.leader.value.next[peer] <= |s.log| + 1
  {
    var prev := s.leader.value.next[peer] - 1;
    Remaining(prev, |s.log|, Agree(f.log, s.log, prev))
  }

  lemma {:induction false} BatchesGrow(rest: nat, more: nat)
    requires rest <= more
    ensures Batches(rest) <= Batches(more)
  {
    if rest > MAX_ENTRIES_PER_APPEND { BatchesGrow(rest - MAX_ENTRIES_PER_APPEND, more - MAX_ENTRIES_PER_APPEND); }
  }

  /** One batch for each 256 entries or part of them, and at least one. */
  lemma {:induction false} BatchesIs(rest: nat)
    ensures Batches(rest) == Max(1, (rest + MAX_ENTRIES_PER_APPEND - 1) / MAX_ENTRIES_PER_APPEND)
  {
    if rest > MAX_ENTRIES_PER_APPEND { BatchesIs(rest - MAX_ENTRIES_PER_APPEND); }
  }

  lemma BatchDone(prev: nat, last: nat)
    requires prev + MAX_ENTRIES_PER_APPEND < last
    ensures Remaining(prev + MAX_ENTRIES_PER_APPEND, last, true) + 1 == Remaining(prev, last, true)
  {
  }

  lemma OneBack(prev: nat, last: nat, agree: bool)
    requires 0 < prev <= last
    ensures Remaining(prev - 1, last, agree) + 1 <= Remaining(prev, last, false)
  {
    BatchesGrow(last - (prev - 1), last);
  }

  /** An exchange that does not finish the job leaves one less to go. */
  lemma NeededFalls(decode: Decoder, peers: set<NodeId>, me: NodeId, peer: NodeId, now: nat, s: Server, f: Server)
      returns (s1: Server, f1: Server)
    requires Pair(peers, peer, s, f)
    ensures (s1, f1) == Exchange(decode, peers, me, peer, now, s, f)
    ensures Pair(peers, peer, s1, f1) && s1.log == s.log && s1.term == s.term && Needed(s, peer, f) >= 1
    ensures s1.commit >= s.commit && AckedElsewhere(s1, peer) == AckedElsewhere(s, peer)
    ensures (s1.leader.value.acked[peer] == |s.log| && f1.commit >= Min(s.commit, |s.log|)) ||
            Needed(s1, peer, f1) + 1 <= Needed(s, peer, f)
  {
    RequestIs(s, peers, peer, f);
    s1, f1 := ExchangeOk(decode, peers, me, peer, now, s, f);
    ExchangeCommits(decode, peers, me, peer, now, s, f);
    var prev, last := s.leader.value.next[peer] - 1, |s.log|;
    if !Agree(f.log, s.log, prev) {
      OneBack(prev, last, Agree(f1.log, s.log, prev - 1));
    } else if prev + MAX_ENTRIES_PER_APPEND < last {
      BatchDone(prev, last);
    }
  }

  /** A step that keeps what is good and lowers what is needed until it is done gets there. */
  lemma {:induction false} GetsThere<T(!new)>(step: T -> T, good: T -> bool, done: T -> bool, need: T -> nat, x: T) returns (n: nat)
    requires good(x)
    requires forall y :: good(y) && !done(y) ==> good(step(y)) && need(y) >= 1 && (done(step(y)) || need(step(y)) < need(y))
    ensures n <= need(x) && done(Iterate(step, x, n)) && good(Iterate(step, x, n))
    decreases need(x)
  {
    n := 0;
    if !done(x) {
      n := 1;
      if !done(step(x)) {
        var more := GetsThere(step, good, done, need, step(x));
        n := more + 1;
      }
    }
  }

  /** The pair, with the leader still in the term it had, with the same log, the same books on
      the others and no lower commit index. */
  ghost predicate Catching(peers: set<NodeId>, peer: NodeId, s0: Server, s: Server, f: Server) {
    && Pair(peers, peer, s, f) && s.log == s0.log && s.term == s0.term && s.commit >= s0.commit
    && AckedElsewhere(s, peer) == AckedElsewhere(s0, peer)
  }

  ghost function NeededIf(peers: set<NodeId>, peer: NodeId, s: Server, f: Server): nat {
    if Pair(peers, peer, s, f) then Needed(s, peer, f) else 0
  }

  predicate Acknowledged(peer: NodeId, s: Server) {
    s.leader.Some? && peer in s.leader.value.acked && s.leader.value.acked[peer] == |s.log|
  }

  /** The follower has confirmed all of the leader's log and committed up to `at`. */
  predicate Level(peer: NodeId, at: nat, s: Server, f: Server) {
    Acknowledged(peer, s) && f.commit >= at
  }

  /** One exchange at a time, the follower catches up within the bound. */
  lemma CatchUp(cfg: Config, n: NodeId, p: NodeId, now: nat, step: Both -> Both, s: Server, f: Server) returns (k: nat)
    requires Pair(Peers(cfg, n), p, s, f) && IsStep(cfg, n, p, now, step) && s.commit <= |s.log|
    ensures k <= Needed(s, p, f)
    ensures var end := Iterate(step, (s, f), k);
            Catching(Peers(cfg, n), p, s, end.0, end.1) && Level(p, s.commit, end.0, end.1)
  {
    ghost var good := (x: Both) => Catching(Peers(cfg, n), p, s, x.0, x.1);
    ghost var done := (x: Both) => Level(p, s.commit, x.0, x.1);
    ghost var need := (x: Both) => NeededIf(Peers(cfg, n), p, x.0, x.1);
    forall y | good(y) && !done(y)
      ensures good(step(y)) && need(y) >= 1 && (done(step(y)) || need(step(y)) < need(y))
    {
      var s1, f1 := NeededFalls(cfg.decode, Peers(cfg, n), n, p, now, y.0, y.1);
      assert StepIs(cfg, n, p, now, step, y);
    }
    k := GetsThere(step, good, done, need, (s, f));
  }

  /** A log that fits a leader's, whose last entry is of the leader's own term, and agrees with
      all of it can hold nothing beyond it. */
  lemma FullIsEqual(log: Log, full: Log, t: nat)
    requires FitsLeader(log, full, t) && Agree(log, full, |full|) && full != [] && LastTerm(full) == t
    ensures log == full
  {
    var last := |full|;
    AgreeAt(log, full, last, last - 1);
    assert InOrder(log, last - 1, last) && TermFits(log, full, t, last);
    assert log[..last] == log && full[..last] == full;
  }

  lemma AcknowledgedIsEqual(peers: set<NodeId>, peer: NodeId, s: Server, f: Server)
    requires Pair(peers, peer, s, f) && s.leader.value.acked[peer] == |s.log| && s.log != [] && LastTerm(s.log) == s.term
    ensures f.log == s.log
  {
    FullIsEqual(f.log, s.log, s.term);
  }

  lemma PairInRun(cfg: Config, run: seq<Cluster>, n: NodeId, p: NodeId)
    requires IsRun(cfg, run) && n in cfg.ids && p in Peers(cfg, n)
    requires var c := run[|run| - 1];
             n in c.servers && p in c.servers && c.servers[n].role == Leader && c.servers[p].term <= c.servers[n].term
    ensures var c := run[|run| - 1]; Pair(Peers(cfg, n), p, c.servers[n], c.servers[p])
  {
    var abs := EngineRefinesRaft(cfg, run);
    var i := |run| - 1;
    var s, sv, f := abs[i], run[i].servers[n], run[i].servers[p];
    MirrorsAt(cfg, run, abs, i, n);
    MirrorsAt(cfg, run, abs, i, p);
    LeaderFact(s, n);
    assert PeerOk(s.h, sv.term, |sv.log|, sv.leader.value, p);
    assert NodeOk(s.ids, s.h, p, s.nodes[p]);
    LogFits(s, n, sv.term, n);
    LogFits(s, n, sv.term, p);
    if f.term == sv.term {
      KeepsConfirmed(s, p, f.log, f.term, sv.leader.value.acked[p]);
    }
  }

  lemma LogFits(s: A.State, n: NodeId, t: nat, p: NodeId)
    requires Inv(s) && n in s.ids && p in s.ids && s.nodes[n].role == Leader && s.nodes[n].term == t && s.nodes[p].term <= t
    ensures FitsLeader(s.nodes[p].log, s.nodes[n].log, t)
  {
    var log, full := s.nodes[p].log, s.nodes[n].log;
    LeaderFact(s, n);
    LogsTell(s, p, t);
    assert NodeOk(s.ids, s.h, p, s.nodes[p]);
    forall i: nat, j: nat ensures InOrder(log, i, j) {
      if i <= j < |log| { TermsSorted(s.ids, s.h, log, i, j); }
    }
    forall i: nat ensures TermFits(log, full, t, i) {
      if i < |log| && log[i].term == t { assert Agree(log, A.LogOf(s.h, t), i + 1); }
    }
  }

  // ---------- Exchanges as events of the run ----------

  /** The leader's heartbeat reaches the follower and the answer is read. */
  ghost predicate OneRound(cfg: Config, c: Cluster, c1: Cluster, c2: Cluster, c3: Cluster, n: NodeId, p: NodeId) {
    var id := ForAppend(c.serial, p);
    Goes(cfg, c, Heartbeat(n), c1) && Goes(cfg, c1, Serve(id, NoFault), c2) && Goes(cfg, c2, Read(id, NoFault), c3)
  }

  /** Nothing happened to anybody but these two nodes. */
  ghost predicate OnlyThese(c: Cluster, c': Cluster, n: NodeId, p: NodeId) {
    c'.servers.Keys == c.servers.Keys && forall q :: q in c.servers && q != n && q != p ==> c'.servers[q] == c.servers[q]
  }

  ghost predicate Goes(cfg: Config, c: Cluster, e: Event, c': Cluster) {
    Enabled(cfg, c, e) && c' == After(cfg, c, e)
  }

  ghost predicate LinkAt<T(!new)>(link: (T, T, T, T) -> bool, c: T, more: seq<T>, r: nat) {
    3 * r + 3 <= |more| ==> link(if r == 0 then c else more[3 * r - 1], more[3 * r], more[3 * r + 1], more[3 * r + 2])
  }

  /** From c on, the values come in linked groups of three. */
  ghost predicate InThrees<T(!new)>(link: (T, T, T, T) -> bool, c: T, more: seq<T>) {
    forall r: nat {:trigger LinkAt(link, c, more, r)} :: LinkAt(link, c, more, r)
  }

  lemma ThreeMore<T(!new)>(link: (T, T, T, T) -> bool, c: T, c1: T, c2: T, c3: T, later: seq<T>)
    requires link(c, c1, c2, c3) && InThrees(link, c3, later)
    ensures InThrees(link, c, [c1, c2, c3] + later)
  {
    forall r: nat ensures LinkAt(link, c, [c1, c2, c3] + later, r) {
      if r > 0 { assert LinkAt(link, c3, later, r - 1); }
    }
  }

  /** The states that follow come in rounds of three, each a heartbeat, its handling and its answer. */
  ghost predicate InRounds(cfg: Config, c: Cluster, more: seq<Cluster>, n: NodeId, p: NodeId) {
    InThrees((c0: Cluster, c1: Cluster, c2: Cluster, c3: Cluster) => OneRound(cfg, c0, c1, c2, c3, n, p), c, more)
  }

  lemma OneMoreRound(cfg: Config, c: Cluster, c1: Cluster, c2: Cluster, c3: Cluster, later: seq<Cluster>, n: NodeId, p: NodeId)
    requires OneRound(cfg, c, c1, c2, c3, n, p) && InRounds(cfg, c3, later, n, p)
    ensures InRounds(cfg, c, [c1, c2, c3] + later, n, p)
  {
    var link := (c0: Cluster, c1: Cluster, c2: Cluster, c3: Cluster) => OneRound(cfg, c0, c1, c2, c3, n, p);
    ThreeMore(link, c, c1, c2, c3, later);
  }

  lemma BeatRound(cfg: Config, c: Cluster, n: NodeId, p: NodeId)
    requires n in cfg.ids && n in c.servers && p in Peers(cfg, n) && c.servers[n].role == Leader
    ensures Enabled(cfg, c, Heartbeat(n))
    ensures var c1, id := After(cfg, c, Heartbeat(n)), ForAppend(c.serial, p);
            c1.servers == c.servers && c1.now == c.now && id in c1.calls &&
            c1.calls[id] == Call(n, p, c.servers[n].epoch, AppendRequest(c.servers[n], p), None)
  {
    var c1, id := After(cfg, c, Heartbeat(n)), ForAppend(c.serial, p);
    assert c.servers[n := c.servers[n]] == c.servers;
    assert id in AppendIds(cfg, n, c.serial);
  }

  lemma ServeRound(cfg: Config, c: Cluster, id: CallId)
    requires id in c.calls && c.calls[id].req.AppendReq? && c.calls[id].reply.None?
    requires c.calls[id].to in cfg.ids && c.calls[id].to in c.servers
    ensures Enabled(cfg, c, Serve(id, NoFault))
    ensures var c', call := After(cfg, c, Serve(id, NoFault)), c.calls[id];
            var r := OnAppendRequest(cfg.decode, c.servers[call.to], call.from, call.req, c.now, NoFault);
            c'.servers == c.servers[call.to := r.server] && c'.now == c.now &&
            id in c'.calls && c'.calls[id] == call.(reply := r.reply)
  {
  }

  lemma ReadRound(cfg: Config, c: Cluster, id: CallId)
    requires id in c.calls && id.ForAppend? && c.calls[id].req.AppendReq?
    requires c.calls[id].reply.Some? && c.calls[id].reply.value.AppendRep?
    requires c.calls[id].from in cfg.ids && c.calls[id].from in c.servers && c.servers[c.calls[id].from].epoch == c.calls[id].epoch
    ensures Enabled(cfg, c, Read(id, NoFault))
    ensures var c', call := After(cfg, c, Read(id, NoFault)), c.calls[id];
            var r := OnAppendReply(cfg.decode, c.servers[call.from], Peers(cfg, call.from), call.to, call.req, call.reply.value);
            c'.servers == c.servers[call.from := r.server] && c'.now == c.now
  {
  }

  lemma TwoChange(c: Cluster, c': Cluster, n: NodeId, p: NodeId, s: Server, f: Server)
    requires n in c.servers && p in c.servers && c'.servers == c.servers[p := f][n := s]
    ensures OnlyThese(c, c', n, p)
  {
  }

  /** A round of the cluster is an exchange of the two nodes. */
  lemma RoundIsExchange(cfg: Config, c: Cluster, n: NodeId, p: NodeId) returns (c1: Cluster, c2: Cluster, c3: Cluster)
    requires n in cfg.ids && p in Peers(cfg, n) && n in c.servers && p in c.servers && c.servers[n].role == Leader
    ensures OneRound(cfg, c, c1, c2, c3, n, p) && c3.now == c.now && n in c3.servers && p in c3.servers && OnlyThese(c, c3, n, p)
    ensures (c3.servers[n], c3.servers[p]) == Exchange(cfg.decode, Peers(cfg, n), n, p, c.now, c.servers[n], c.servers[p])
  {
    var id := ForAppend(c.serial, p);
    BeatRound(cfg, c, n, p);
    c1 := After(cfg, c, Heartbeat(n));
    ServeRound(cfg, c1, id);
    c2 := After(cfg, c1, Serve(id, NoFault));
    ReadRound(cfg, c2, id);
    c3 := After(cfg, c2, Read(id, NoFault));
    TwoChange(c, c3, n, p, c3.servers[n], c2.servers[p]);
  }

  lemma RunGoesOn(cfg: Config, run: seq<Cluster>, c: Cluster, e: Event)
    requires IsRun(cfg, run) && Goes(cfg, run[|run| - 1], e, c)
    ensures IsRun(cfg, run + [c]) && (run + [c])[|run + [c]| - 1] == c
  {
    RunThen(cfg, run, e);
  }

  /** Timers, time, deliveries and answers with working storage: nothing fails, is lost or gives up. */
  predicate Peaceful(e: Event) {
    e.Tick? || e.Heartbeat? || ((e.Timeout? || e.Serve? || e.Read?) && e.fault.NoFault?)
  }

  ghost predicate CalmStep(cfg: Config, c: Cluster, c': Cluster) {
    exists e :: Peaceful(e) && Goes(cfg, c, e, c')
  }

  ghost predicate CalmAt(cfg: Config, run: seq<Cluster>, i: nat) {
    i + 1 < |run| ==> CalmStep(cfg, run[i], run[i + 1])
  }

  /** From state k on, every step is a peaceful one. */
  ghost predicate Calm(cfg: Config, run: seq<Cluster>, k: nat) {
    forall i: nat {:trigger CalmAt(cfg, run, i)} :: k <= i ==> CalmAt(cfg, run, i)
  }

  lemma CalmOn(cfg: Config, run: seq<Cluster>, c: Cluster, e: Event)
    requires IsRun(cfg, run) && Goes(cfg, run[|run| - 1], e, c) && Peaceful(e)
    ensures IsRun(cfg, run + [c]) && (run + [c])[|run + [c]| - 1] == c && Calm(cfg, run + [c], |run| - 1)
  {
    RunGoesOn(cfg, run, c, e);
    forall i: nat | |run| - 1 <= i ensures CalmAt(cfg, run + [c], i) {}
  }

  lemma CalmJoin(cfg: Config, run: seq<Cluster>, first: seq<Cluster>, later: seq<Cluster>)
    requires run != [] && Calm(cfg, run + first, |run| - 1) && Calm(cfg, run + first + later, |run + first| - 1)
    ensures run + (first + later) == run + first + later && Calm(cfg, run + (first + later), |run| - 1)
  {
    var all := run + first + later;
    assert run + (first + later) == all;
    forall i: nat | |run| - 1 <= i ensures CalmAt(cfg, all, i) {
      assert CalmAt(cfg, run + first, i);
      if i >= |run + first| - 1 { assert CalmAt(cfg, all, i); }
    }
  }

  lemma OneRoundIsCalm(cfg: Config, c: Cluster, c1: Cluster, c2: Cluster, c3: Cluster, n: NodeId, p: NodeId)
    requires OneRound(cfg, c, c1, c2, c3, n, p)
    ensures CalmStep(cfg, c, c1) && CalmStep(cfg, c1, c2) && CalmStep(cfg, c2, c3)
  {
  }

  /** Values that come in linked groups of three come in linked pairs. */
  lemma ThreesAreSteps<T(!new)>(link: (T, T, T, T) -> bool, step: (T, T) -> bool, c: T, more: seq<T>, m: nat)
    requires InThrees(link, c, more) && m < |more| && |more| % 3 == 0
    requires forall a, b, x, y :: link(a, b, x, y) ==> step(a, b) && step(b, x) && step(x, y)
    ensures step(if m == 0 then c else more[m - 1], more[m])
  {
    assert LinkAt(link, c, more, m / 3);
  }

  /** Rounds are calm. */
  lemma RoundsAreCalm(cfg: Config, run: seq<Cluster>, more: seq<Cluster>, n: NodeId, p: NodeId)
    requires run != [] && InRounds(cfg, run[|run| - 1], more, n, p) && |more| % 3 == 0
    ensures Calm(cfg, run + more, |run| - 1)
  {
    var link := (c0: Cluster, c1: Cluster, c2: Cluster, c3: Cluster) => OneRound(cfg, c0, c1, c2, c3, n, p);
    var step := (x: Cluster, y: Cluster) => CalmStep(cfg, x, y);
    forall a, b, x, y | link(a, b, x, y) ensures step(a, b) && step(b, x) && step(x, y) { OneRoundIsCalm(cfg, a, b, x, y, n, p); }
    forall i: nat | |run| - 1 <= i && i + 1 < |run + more| ensures CalmAt(cfg, run + more, i) {
      ThreesAreSteps(link, step, run[|run| - 1], more, i - (|run| - 1));
    }
  }

  lemma RoundRuns(cfg: Config, run: seq<Cluster>, c1: Cluster, c2: Cluster, c3: Cluster, n: NodeId, p: NodeId)
    requires IsRun(cfg, run) && OneRound(cfg, run[|run| - 1], c1, c2, c3, n, p)
    ensures IsRun(cfg, run + [c1, c2, c3])
  {
    var id := ForAppend(run[|run| - 1].serial, p);
    RunGoesOn(cfg, run, c1, Heartbeat(n));
    RunGoesOn(cfg, run + [c1], c2, Serve(id, NoFault));
    RunGoesOn(cfg, run + [c1] + [c2], c3, Read(id, NoFault));
    assert run + [c1, c2, c3] == run + [c1] + [c2] + [c3];
  }

  /** One round continues the run by one exchange. */
  lemma NextRound(cfg: Config, run: seq<Cluster>, n: NodeId, p: NodeId, step: Both -> Both)
      returns (c1: Cluster, c2: Cluster, c3: Cluster)
    requires IsRun(cfg, run) && n in cfg.ids && p in Peers(cfg, n) && IsStep(cfg, n, p, run[|run| - 1].now, step)
    requires var c := run[|run| - 1]; n in c.servers && p in c.servers && Pair(Peers(cfg, n), p, c.servers[n], c.servers[p])
    ensures IsRun(cfg, run + [c1, c2, c3]) && c3.now == run[|run| - 1].now && OnlyThese(run[|run| - 1], c3, n, p)
    ensures n in c3.servers && p in c3.servers && Pair(Peers(cfg, n), p, c3.servers[n], c3.servers[p])
    ensures var c := run[|run| - 1]; (c3.servers[n], c3.servers[p]) == step((c.servers[n], c.servers[p]))
    ensures forall later: seq<Cluster> {:trigger InRounds(cfg, c3, later, n, p)} ::
              InRounds(cfg, c3, later, n, p) ==> InRounds(cfg, run[|run| - 1], [c1, c2, c3] + later, n, p)
  {
    var c := run[|run| - 1];
    c1, c2, c3 := RoundIsExchange(cfg, c, n, p);
    RoundRuns(cfg, run, c1, c2, c3, n, p);
    var s1, f1 := ExchangeOk(cfg.decode, Peers(cfg, n), n, p, c.now, c.servers[n], c.servers[p]);
    assert StepIs(cfg, n, p, c.now, step, (c.servers[n], c.servers[p]));
    forall later: seq<Cluster> | InRounds(cfg, c3, later, n, p) ensures InRounds(cfg, c, [c1, c2, c3] + later, n, p) {
      OneMoreRound(cfg, c, c1, c2, c3, later, n, p);
    }
  }

  /** Any number of exchanges is that many rounds that continue the run. */
  lemma {:induction false} ExchangesRun(cfg: Config, run: seq<Cluster>, n: NodeId, p: NodeId,
                                        step: Both -> Both, k: nat) returns (more: seq<Cluster>)
    requires IsRun(cfg, run) && n in cfg.ids && p in Peers(cfg, n) && IsStep(cfg, n, p, run[|run| - 1].now, step)
    requires var c := run[|run| - 1]; n in c.servers && p in c.servers && Pair(Peers(cfg, n), p, c.servers[n], c.servers[p])
    ensures |more| == 3 * k && IsRun(cfg, run + more) && InRounds(cfg, run[|run| - 1], more, n, p)
    ensures var c, c' := run[|run| - 1], (run + more)[|run + more| - 1];
            n in c'.servers && p in c'.servers && OnlyThese(c, c', n, p) &&
            (c'.servers[n], c'.servers[p]) == Iterate(step, (c.servers[n], c.servers[p]), k)
    decreases k
  {
    if k == 0 {
      more := [];
      assert run + more == run;
    } else {
      var c1, c2, c3 := NextRound(cfg, run, n, p, step);
      var later := ExchangesRun(cfg, run + [c1, c2, c3], n, p, step, k - 1);
      more := [c1, c2, c3] + later;
      assert run + more == run + [c1, c2, c3] + later;
    }
  }

  lemma NeededAtMost(s: Server, peer: NodeId, f: Server)
    requires s.leader.Some? && peer in s.leader.value.next && 1 <= s.leader.value.next[peer] <= |s.log| + 1
    ensures Needed(s, peer, f) <=
            s.leader.value.next[peer] - 1 + Max(1, (|s.log| + MAX_ENTRIES_PER_APPEND - 1) / MAX_ENTRIES_PER_APPEND)
  {
    var prev := s.leader.value.next[peer] - 1;
    BatchesGrow(|s.log| - prev, |s.log|);
    BatchesIs(|s.log|);
  }

  /** A caught-up pair has one log. */
  lemma CaughtUp(cfg: Config, n: NodeId, p: NodeId, now: nat, step: Both -> Both, s: Server, f: Server) returns (k: nat)
    requires Pair(Peers(cfg, n), p, s, f) && IsStep(cfg, n, p, now, step) && s.log != [] && LastTerm(s.log) == s.term
    requires s.commit <= |s.log|
    ensures k <= Needed(s, p, f)
    ensures var end := Iterate(step, (s, f), k);
            Catching(Peers(cfg, n), p, s, end.0, end.1) && Level(p, s.commit, end.0, end.1) && end.1.log == end.0.log
  {
    k := CatchUp(cfg, n, p, now, step, s, f);
    var end := Iterate(step, (s, f), k);
    AcknowledgedIsEqual(Peers(cfg, n), p, end.0, end.1);
  }

  /** From any state of any run: with nothing in between, at most next - 1 rounds back and one
      per batch of 256 forward continue the run to where the follower's log is exactly the
      leader's and all that the leader had committed at the start is committed there too.
      A round is a heartbeat, its handling by the follower and the reading of its answer. */
  lemma FollowerCatchesUp(cfg: Config, run: seq<Cluster>, n: NodeId, p: NodeId) returns (k: nat, more: seq<Cluster>)
    requires IsRun(cfg, run) && n in cfg.ids && p in Peers(cfg, n)
    requires var c := run[|run| - 1];
             n in c.servers && p in c.servers && c.servers[n].role == Leader && c.servers[p].term <= c.servers[n].term &&
             c.servers[n].log != [] && LastTerm(c.servers[n].log) == c.servers[n].term
    ensures var s := run[|run| - 1].servers[n];
            s.leader.Some? && p in s.leader.value.next && s.leader.value.next[p] >= 1 &&
            k <= s.leader.value.next[p] - 1 + Max(1, (|s.log| + MAX_ENTRIES_PER_APPEND - 1) / MAX_ENTRIES_PER_APPEND)
    ensures |more| == 3 * k && IsRun(cfg, run + more) && InRounds(cfg, run[|run| - 1], more, n, p)
    ensures var c, c' := run[|run| - 1], (run + more)[|run + more| - 1];
            n in c'.servers && p in c'.servers && OnlyThese(c, c', n, p) &&
            var s, s', f' := c.servers[n], c'.servers[n], c'.servers[p];
            Acknowledged(p, s') && AckedElsewhere(s', p) == AckedElsewhere(s, p) &&
            f'.log == s'.log == s.log && f'.term <= s'.term == s.term && s'.role == Leader &&
            f'.commit >= s.commit && s'.commit >= s.commit
  {
    var c := run[|run| - 1];
    PairInRun(cfg, run, n, p);
    TableIsFold(cfg, run, |run| - 1, n);
    NeededAtMost(c.servers[n], p, c.servers[p]);
    var step := TheStep(cfg, n, p, c.now);
    k := CaughtUp(cfg, n, p, c.now, step, c.servers[n], c.servers[p]);
    more := ExchangesRun(cfg, run, n, p, step, k);
  }
}
