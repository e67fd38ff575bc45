/** One engine node as the source writes it: an object whose handlers update its
    fields and its storage in place. Each method is proved to do what the function of
    the same step in Engine.dfy says, storage transactions in order included. */
module RaftNodeObject {
  import opened RaftTypes
  import opened Engine
  import E = Engine
  import opened StoreContract
  import opened MemoryStorage
  import opened KeyValueStore

  lemma TwoWrites(journal: seq<Write>, a: Write, b: Write)
    ensures journal + [a] + [b] == journal + [a, b]
  {
  }

  lemma JournalJoins(journal: seq<Write>, a: seq<Write>, b: seq<Write>)
    ensures journal + a + b == journal + (a + b)
  {
  }

  lemma MatchingStep(log: Log, prev: nat, entries: Log, i: nat)
    requires i < |entries|
    ensures Matching(log, prev + i, entries[i..]) ==
            if prev + i < |log| && log[prev + i].term == entries[i].term then 1 + Matching(log, prev + i + 1, entries[i + 1..]) else 0
  {
    assert entries[i..][0] == entries[i] && entries[i..][1..] == entries[i + 1..];
  }

  // ---------- Waiting clients ----------

  lemma WaiterAnswered(pending: map<nat, nat>, ps: map<nat, Proposal>, tickets: nat, i: nat)
    requires WaitersOk(pending, ps, tickets) && i in pending
    ensures pending[i] in ps && ps[pending[i]].answer == None
    ensures WaitersOk(pending - {i}, Send(ps, pending[i], true), tickets)
  {
    assert EmptyChannel(pending, ps, i);
    var left, told := pending - {i}, Send(ps, pending[i], true);
    forall k ensures EmptyChannel(left, told, k) { assert EmptyChannel(pending, ps, k) && OwnChannel(pending, k, i); }
    forall k, l ensures OwnChannel(left, k, l) { assert OwnChannel(pending, k, l); }
    forall t ensures BelowTickets(told, tickets, t) { assert BelowTickets(ps, tickets, t); }
  }

  lemma WaiterGone(pending: map<nat, nat>, ps: map<nat, Proposal>, tickets: nat, i: nat)
    requires WaitersOk(pending, ps, tickets)
    ensures WaitersOk(pending - {i}, ps, tickets)
  {
    var left := pending - {i};
    forall k ensures EmptyChannel(left, ps, k) { assert EmptyChannel(pending, ps, k); }
    forall k, l ensures OwnChannel(left, k, l) { assert OwnChannel(pending, k, l); }
  }

  /** A new client, waiting at index i unless its answer is already there. */
  lemma WaiterAdded(pending: map<nat, nat>, ps: map<nat, Proposal>, tickets: nat, i: nat, p: Proposal)
    requires WaitersOk(pending, ps, tickets)
    ensures WaitersOk(pending, ps[tickets := p], tickets + 1)
    ensures p.answer == None ==> WaitersOk(pending[i := tickets], ps[tickets := p], tickets + 1)
  {
    var ps', with, next := ps[tickets := p], pending[i := tickets], tickets + 1;
    forall k
      ensures EmptyChannel(pending, ps', k)
      ensures p.answer == None ==> EmptyChannel(with, ps', k)
    {
      assert EmptyChannel(pending, ps, k);
      if k in pending { assert BelowTickets(ps, tickets, pending[k]); }
    }
    forall k, l ensures OwnChannel(with, k, l) {
      assert OwnChannel(pending, k, l) && EmptyChannel(pending, ps, k) && EmptyChannel(pending, ps, l);
      if k in pending { assert BelowTickets(ps, tickets, pending[k]); }
      if l in pending { assert BelowTickets(ps, tickets, pending[l]); }
    }
    forall t ensures BelowTickets(ps', next, t) { assert BelowTickets(ps, tickets, t); }
  }

  lemma WaitersNext(decode: Decoder, s: Server)
    requires WaitersOk(s.pending, s.proposals, s.tickets)
    ensures var r := ApplyNext(decode, s); WaitersOk(r.pending, r.proposals, r.tickets)
    ensures s.applied + 1 in s.pending ==>
              s.pending[s.applied + 1] in s.proposals && s.proposals[s.pending[s.applied + 1]].answer == None
  {
    if s.applied + 1 in s.pending { WaiterAnswered(s.pending, s.proposals, s.tickets, s.applied + 1); }
  }

  /** The channels once all waiters but those still left have been told of the lost leadership. */
  function AnsweredBut(ps: map<nat, Proposal>, was: map<nat, nat>, left: map<nat, nat>): map<nat, Proposal> {
    map t | t in ps :: if t in was.Values && t !in left.Values then ps[t].(answer := Some(false)) else ps[t]
  }

  ghost predicate Distinct(m: map<nat, nat>) {
    forall i, j {:trigger m[i], m[j]} :: i in m && j in m && m[i] == m[j] ==> i == j
  }

  lemma AnswerOneMore(ps: map<nat, Proposal>, was: map<nat, nat>, left: map<nat, nat>, i: nat)
    requires Distinct(left) && i in left && left[i] in ps && left.Items <= was.Items
    ensures Send(AnsweredBut(ps, was, left), left[i], false) == AnsweredBut(ps, was, left - {i})
    ensures (left - {i}).Items <= was.Items && Distinct(left - {i})
  {
    var left' := left - {i};
    assert (i, left[i]) in left.Items;
    forall v | v in left.Values ensures v == left[i] || v in left'.Values {
      var k :| k in left && left[k] == v;
      if k != i { assert left'[k] == v; }
    }
  }

  /** The plain form of WaitersOk that the abort loop works with. */
  lemma WaitersDistinct(pending: map<nat, nat>, ps: map<nat, Proposal>, tickets: nat)
    requires WaitersOk(pending, ps, tickets)
    ensures Distinct(pending)
    ensures forall i :: i in pending ==> pending[i] in ps && ps[pending[i]].answer == None
    ensures WaitersOk(map[], SendAll(ps, pending), tickets)
  {
    forall i, j | i in pending && j in pending && pending[i] == pending[j] ensures i == j { assert OwnChannel(pending, i, j); }
    forall i | i in pending ensures pending[i] in ps && ps[pending[i]].answer == None { assert EmptyChannel(pending, ps, i); }
    forall t ensures BelowTickets(SendAll(ps, pending), tickets, t) { assert BelowTickets(ps, tickets, t); }
  }

  predicate StartsAtOne(next: map<NodeId, nat>, p: NodeId) {
    p in next ==> next[p] >= 1
  }

  /** The leader keeps one NextIndex of at least 1 and one MatchIndex for every peer. */
  ghost predicate BooksOk(role: Role, leader: Option<LeaderState>, peers: set<NodeId>) {
    && (role == Leader ==> leader.Some?)
    && (leader.Some? ==>
          leader.value.next.Keys == peers && leader.value.acked.Keys == peers &&
          forall p {:trigger StartsAtOne(leader.value.next, p)} :: StartsAtOne(leader.value.next, p))
  }

  class RaftNode {
    const me: NodeId
    const peers: set<NodeId>
    const decode: Decoder
    const timeoutMin: nat
    const storage: MemoryStore
    const kvStore: KVStore

    var currentTerm: nat
    var votedFor: Option<NodeId>
    var log: Log
    var role: Role
    var commitIndex: nat
    var lastApplied: nat
    var leader: Option<LeaderState>
    var leaderID: Option<NodeId>
    var lastLeaderContact: Option<nat>
    var votesReceived: nat
    var pendingCommits: map<nat, nat>
    var channels: map<nat, Proposal>
    var tickets: nat
    var epoch: nat

    ghost function State(): Server
      reads this, storage, kvStore
    {
      Server(currentTerm, votedFor, if storage.entries == [] then [] else storage.entries[1..], role, commitIndex,
             lastApplied, leader, leaderID, lastLeaderContact, votesReceived, kvStore.data, pendingCommits, channels,
             tickets, epoch)
    }

    /** Memory and storage agree, sentinel included; waiting clients have free channels. */
    ghost predicate Valid()
      reads this, storage, kvStore
    {
      && storage.term == currentTerm && storage.votedFor == votedFor && storage.entries == log
      && log != [] && log[0] == SENTINEL
      && WaitersOk(pendingCommits, channels, tickets)
      && BooksOk(role, leader, peers)
    }

    /** NewRaftNode: a node on the storage another incarnation left behind. */
    constructor (me: NodeId, peers: set<NodeId>, decode: Decoder, timeoutMin: nat, storage: MemoryStore, kvStore: KVStore,
                 epoch: nat)
      requires storage.entries != [] && storage.entries[0] == SENTINEL && kvStore.data == map[]
      ensures Valid() && this.me == me && this.peers == peers && this.decode == decode && this.timeoutMin == timeoutMin
      ensures this.storage == storage && this.kvStore == kvStore
      ensures State() == Fresh(Durable(storage.term, storage.votedFor, storage.entries[1..])).(epoch := epoch)
    {
      this.me, this.peers, this.decode, this.timeoutMin := me, peers, decode, timeoutMin;
      this.storage, this.kvStore := storage, kvStore;
      currentTerm, votedFor, log := storage.term, storage.votedFor, storage.entries;
      role, commitIndex, lastApplied := Follower, 0, 0;
      leader, leaderID, lastLeaderContact, votesReceived := None, None, None, 0;
      pendingCommits, channels, tickets := map[], map[], 0;
      this.epoch := epoch;
    }

    /** One send on a one-slot channel: it must be empty, or the send would block. */
    method SendOn(ticket: nat, ok: bool)
      requires ticket in channels && channels[ticket].answer == None
      modifies this`channels
      ensures channels == Send(old(channels), ticket, ok)
    {
      channels := channels[ticket := channels[ticket].(answer := Some(ok))];
    }

    // ---------- election.go ----------

    /** Aborts every proposal in flight. */
    method AbortPending()
      requires WaitersOk(pendingCommits, channels, tickets)
      modifies this`channels, this`pendingCommits
      ensures pendingCommits == map[] && channels == SendAll(old(channels), old(pendingCommits))
      ensures WaitersOk(pendingCommits, channels, tickets)
    {
      ghost var was := pendingCommits;
      WaitersDistinct(pendingCommits, channels, tickets);
      while pendingCommits != map[]
        invariant Distinct(pendingCommits) && pendingCommits.Items <= was.Items
        invariant forall i :: i in pendingCommits ==> pendingCommits[i] in old(channels) && old(channels)[pendingCommits[i]].answer == None
        invariant channels == AnsweredBut(old(channels), was, pendingCommits)
        decreases |pendingCommits|
      {
        var i :| i in pendingCommits;
        AnswerOneMore(old(channels), was, pendingCommits, i);
        SendOn(pendingCommits[i], false);
        pendingCommits := pendingCommits - {i};
      }
    }

    method StepDownIfOlder(t: nat) returns (steppedDown: bool)
      requires Valid()
      modifies this, storage
      ensures Valid() && State() == CheckTerm(old(State()), t) && steppedDown == (t > old(currentTerm))
      ensures storage.journal == old(storage.journal) + CheckTermWrites(old(State()), t)
    {
      steppedDown := false;
      if t > currentTerm {
        currentTerm, votedFor, role, leader := t, None, Follower, None;
        AbortPending();
        storage.SaveTerm(t);
        storage.SaveVotedFor(None);
        steppedDown := true;
        TwoWrites(old(storage.journal), SaveTerm(t), SaveVote(None));
      }
    }

    // ---------- replication.go: applying and committing ----------

    /** One turn of the apply loop: apply the next entry and wake the client waiting for it. */
    method ApplyOne()
      requires Valid()
      modifies this`lastApplied, this`channels, this`pendingCommits, kvStore
      ensures Valid() && State() == ApplyNext(decode, old(State()))
    {
      WaitersNext(decode, State());
      lastApplied := lastApplied + 1;
      var entry := storage.GetEntry(lastApplied);
      if entry.None? || CommandOf(entry.value) == [] { return; }
      var cmd := decode(CommandOf(entry.value));
      if cmd.None? { return; }
      kvStore.Apply(cmd.value);
      if lastApplied in pendingCommits {
        SendOn(pendingCommits[lastApplied], true);
        pendingCommits := pendingCommits - {lastApplied};
      }
    }

    method ApplyCommittedEntries()
      requires Valid()
      modifies this`lastApplied, this`channels, this`pendingCommits, kvStore
      ensures Valid() && State() == Apply(decode, old(State()))
    {
      while lastApplied < commitIndex
        invariant Valid() && Apply(decode, State()) == Apply(decode, old(State()))
        decreases commitIndex - lastApplied
      {
        ApplyOne();
      }
    }

    /** How many peers have acknowledged index n. */
    method CountHolders(n: nat) returns (count: nat)
      requires leader.Some?
      ensures count == |Holders(leader.value.acked, n)|
    {
      var acked := leader.value.acked;
      var rest, holders := acked.Keys, {};
      count := 0;
      while rest != {}
        invariant rest <= acked.Keys && count == |holders|
        invariant holders == set p | p in acked && p !in rest && acked[p] >= n
        decreases |rest|
      {
        var p :| p in rest;
        rest := rest - {p};
        if acked[p] >= n {
          count, holders := count + 1, holders + {p};
        }
      }
      assert holders == Holders(acked, n);
    }

    method CheckAndUpdateCommitIndex()
      requires Valid()
      modifies this`commitIndex, this`lastApplied, this`channels, this`pendingCommits, kvStore
      ensures Valid() && State() == UpdateCommit(decode, old(State()), peers)
    {
      if role != Leader || leader.None? { return; }
      ghost var s0 := State();
      var last := storage.LastIndex();
      var n := commitIndex + 1;
      while n <= last
        invariant s0.commit < n && (n <= last + 1 || n == s0.commit + 1)
        invariant commitIndex == ScanCommit(s0, peers, n - 1)
        invariant unchanged(storage) && unchanged(kvStore)
        invariant State() == s0.(commit := commitIndex)
        decreases last + 1 - n
      {
        var entry := storage.GetEntry(n);
        if entry.Some? && entry.value.term == currentTerm {
          var count := CountHolders(n);
          if 1 + count >= (|peers| + 1) / 2 + 1 {
            commitIndex := n;
          }
        }
        n := n + 1;
      }
      assert commitIndex == ScanCommit(s0, peers, |s0.log|);
      ApplyCommittedEntries();
    }

    // ---------- replication.go: sending ----------

    method RequestFor(peer: NodeId) returns (req: Request)
      requires Valid() && role == Leader && peer in peers
      ensures req == AppendRequest(State(), peer)
    {
      assert StartsAtOne(leader.value.next, peer);
      var next := leader.value.next[peer];
      var prevTerm := 0;
      var prev := storage.GetEntry(next - 1);
      if prev.Some? { prevTerm := prev.value.term; }
      var entries := storage.GetEntriesFrom(next);
      if |entries| > MAX_ENTRIES_PER_APPEND { entries := entries[..MAX_ENTRIES_PER_APPEND]; }
      req := AppendReq(currentTerm, next - 1, prevTerm, entries, commitIndex);
    }

    method BroadcastAppendEntries() returns (sent: map<NodeId, Request>)
      requires Valid()
      ensures sent == Requests(State(), peers, Broadcast)
    {
      sent := map[];
      if role != Leader { return; }
      var rest := peers;
      while rest != {}
        invariant rest <= peers && sent.Keys == peers - rest
        invariant forall p :: p in peers - rest ==> sent[p] == AppendRequest(State(), p)
        decreases |rest|
      {
        var p :| p in rest;
        var req := RequestFor(p);
        rest, sent := rest - {p}, sent[p := req];
      }
      assert sent == Requests(State(), peers, Broadcast);
    }

    // ---------- election.go: elections ----------

    /** Every peer starts at the leader's next index with nothing acknowledged. */
    method FreshIndices(last: nat) returns (next: map<NodeId, nat>, acked: map<NodeId, nat>)
      ensures next.Keys == peers && acked.Keys == peers
      ensures forall p :: p in peers ==> next[p] == last + 1 && acked[p] == 0
    {
      next, acked := map[], map[];
      var rest := peers;
      while rest != {}
        invariant rest <= peers
        invariant next.Keys == peers - rest && acked.Keys == peers - rest
        invariant forall p :: p in peers - rest ==> next[p] == last + 1 && acked[p] == 0
        decreases |rest|
      {
        var p :| p in rest;
        rest, next, acked := rest - {p}, next[p := last + 1], acked[p := 0];
      }
    }

    method InstallLeaderState()
      requires Valid()
      modifies this`role, this`leader
      ensures Valid() && State() == Lead(old(State()), peers)
    {
      var last := storage.LastIndex();
      var next, acked := FreshIndices(last);
      ghost var lead := Lead(State(), peers).leader.value;
      forall p ensures StartsAtOne(next, p) {}
      assert next == lead.next;
      assert acked == lead.acked;
      role, leader := Leader, Some(LeaderState(next, acked));
    }

    method AppendOwn(e: Entry)
      requires Valid()
      modifies this`log, storage
      ensures Valid() && State() == old(State()).(log := old(State()).log + [e])
      ensures storage.journal == old(storage.journal) + [AppendLog([e])]
    {
      storage.AppendEntries([e]);
      log := log + [e];
    }

    method BecomeLeader(fault: Fault) returns (sent: map<NodeId, Request>)
      requires Valid()
      modifies this, storage, kvStore
      ensures var r := E.BecomeLeader(decode, old(State()), peers, fault);
              Valid() && State() == r.server && storage.journal == old(storage.journal) + r.writes &&
              sent == Requests(State(), peers, r.out)
    {
      if role != Candidate { return map[]; }
      ghost var s0 := State();
      InstallLeaderState();
      if !fault.AppendFails? {
        AppendOwn(Entry(currentTerm, Record(|log|, [])));
      }
      assert State() == LeadWithNoOp(s0, peers, fault);
      CheckAndUpdateCommitIndex();
      LeaderStays(decode, s0, peers, fault);
      sent := BroadcastAppendEntries();
    }

    /** The same request goes to every peer. */
    method SendToAll(req: Request) returns (sent: map<NodeId, Request>)
      ensures sent.Keys == peers && forall p :: p in peers ==> sent[p] == req
    {
      sent := map[];
      var rest := peers;
      while rest != {}
        invariant rest <= peers && sent.Keys == peers - rest
        invariant forall p :: p in peers - rest ==> sent[p] == req
        decreases |rest|
      {
        var p :| p in rest;
        rest, sent := rest - {p}, sent[p := req];
      }
    }

    /** Enters the next term as candidate with its own vote, term first, then vote, on disk. */
    method EnterCampaign()
      requires Valid()
      modifies this, storage
      ensures var s := old(State());
              Valid() && State() == s.(term := s.term + 1, role := Candidate, vote := Some(me), leader := None, votes := 1) &&
              storage.journal == old(storage.journal) + [SaveTerm(s.term + 1), SaveVote(Some(me))]
    {
      currentTerm, role, votedFor, leader := currentTerm + 1, Candidate, Some(me), None;
      votesReceived := 1;
      SaveOwnVote();
    }

    /** The new term reaches the disk first, then the node's vote for itself. */
    method SaveOwnVote()
      modifies storage
      ensures storage.term == currentTerm && storage.votedFor == Some(me) && storage.entries == old(storage.entries)
      ensures storage.journal == old(storage.journal) + [SaveTerm(currentTerm), SaveVote(Some(me))]
    {
      storage.SaveTerm(currentTerm);
      storage.SaveVotedFor(Some(me));
      TwoWrites(old(storage.journal), SaveTerm(currentTerm), SaveVote(Some(me)));
    }

    method AskForVotes() returns (sent: map<NodeId, Request>)
      requires Valid()
      ensures sent == Requests(State(), peers, AskVotes)
    {
      var lastIndex := storage.LastIndex();
      var lastTerm := storage.LastTerm();
      sent := SendToAll(VoteReq(currentTerm, lastIndex, lastTerm));
    }

    method Campaign(fault: Fault) returns (sent: map<NodeId, Request>)
      requires Valid()
      modifies this, storage, kvStore
      ensures var r := CampaignOf(decode, old(State()), me, peers, fault);
              Valid() && State() == r.server && storage.journal == old(storage.journal) + r.writes &&
              sent == Requests(State(), peers, r.out)
    {
      EnterCampaign();
      ghost var s1 := State();
      if votesReceived >= (|peers| + 1) / 2 + 1 {
        sent := BecomeLeader(fault);
        ghost var r := E.BecomeLeader(decode, s1, peers, fault);
        JournalJoins(old(storage.journal), [SaveTerm(s1.term), SaveVote(Some(me))], r.writes);
        return;
      }
      sent := AskForVotes();
    }

    method CountVote(fault: Fault) returns (sent: map<NodeId, Request>)
      requires Valid() && role == Candidate
      modifies this, storage, kvStore
      ensures var s := old(State());
              var s1 := Counted(s);
              var r := if s1.votes >= Majority(peers) then E.BecomeLeader(decode, s1, peers, fault) else Result(s1, [], None, Silent);
              Valid() && State() == r.server && storage.journal == old(storage.journal) + r.writes &&
              sent == Requests(State(), peers, r.out)
    {
      sent := map[];
      votesReceived := votesReceived + 1;
      if votesReceived >= (|peers| + 1) / 2 + 1 {
        sent := BecomeLeader(fault);
      }
    }

    /** The answer to a vote request sent in term `asked`. */
    method HandleVoteReply(asked: nat, rep: Reply, fault: Fault) returns (sent: map<NodeId, Request>)
      requires Valid() && rep.VoteRep?
      modifies this, storage, kvStore
      ensures var r := OnVoteReply(decode, old(State()), peers, asked, rep, fault);
              Valid() && State() == r.server && storage.journal == old(storage.journal) + r.writes &&
              sent == Requests(State(), peers, r.out)
    {
      var steppedDown := StepDownIfOlder(rep.term);
      if steppedDown { return map[]; }
      if role != Candidate || currentTerm != asked { return map[]; }
      sent := map[];
      if rep.granted { sent := CountVote(fault); }
    }

    /** The election timer fired. With nobody to ask the node campaigns at once,
        otherwise it opens a round of pre-votes. */
    method StartElection(now: nat, fault: Fault) returns (round: Option<Round>, sent: map<NodeId, Request>)
      requires Valid()
      modifies this, storage, kvStore
      ensures Valid()
      ensures old(role) == Leader ==> round == None && sent == map[]
      ensures old(role) == Leader || peers != {} ==> State() == old(State()) && storage.journal == old(storage.journal)
      ensures old(role) != Leader && peers != {} ==>
                round == Some(Round(me, currentTerm, now, 1, false)) && sent.Keys == peers &&
                forall p :: p in peers ==> sent[p] == PreVoteRequest(State())
      ensures old(role) != Leader && peers == {} ==>
                var r := CampaignOf(decode, old(State()), me, peers, fault);
                round == None && State() == r.server && storage.journal == old(storage.journal) + r.writes &&
                sent == Requests(State(), peers, r.out)
    {
      if role == Leader { return None, map[]; }
      if |peers| == 0 {
        sent := Campaign(fault);
        return None, sent;
      }
      var lastIndex := storage.LastIndex();
      var lastTerm := storage.LastTerm();
      sent := SendToAll(PreVoteReq(currentTerm + 1, lastIndex, lastTerm));
      round := Some(Round(me, currentTerm, now, 1, false));
    }

    method HandlePreVoteReply(round: Round, rep: Reply, fault: Fault) returns (round': Round, sent: map<NodeId, Request>)
      requires Valid() && rep.VoteRep?
      modifies this, storage, kvStore
      ensures var (r, after) := OnPreVoteReply(decode, old(State()), me, peers, round, rep, fault);
              Valid() && State() == r.server && storage.journal == old(storage.journal) + r.writes &&
              sent == Requests(State(), peers, r.out) && round' == after
    {
      round', sent := round, map[];
      var steppedDown := StepDownIfOlder(rep.term);
      if steppedDown { return; }
      if round.campaigned || role == Leader || currentTerm != round.term ||
         (lastLeaderContact.Some? && lastLeaderContact.value > round.started) { return; }
      if rep.granted {
        round' := round.(votes := round.votes + 1);
        if round'.votes >= (|peers| + 1) / 2 + 1 {
          round' := round'.(campaigned := true);
          sent := Campaign(fault);
        }
      }
    }

    // ---------- election.go: requests from peers ----------

    method CandidateLogUpToDate(lastTerm: nat, lastIndex: nat) returns (ok: bool)
      requires Valid()
      ensures ok == UpToDate(lastTerm, lastIndex, State().log)
    {
      var ownIndex := storage.LastIndex();
      var ownTerm := storage.LastTerm();
      if lastTerm != ownTerm { return lastTerm > ownTerm; }
      return lastIndex >= ownIndex;
    }

    /** Nothing changes at the voter: the method modifies nothing. */
    method HandlePreVote(req: Request, now: nat) returns (rep: Reply)
      requires Valid() && req.PreVoteReq?
      ensures rep == OnPreVoteRequest(State(), req, now, timeoutMin)
    {
      var leaderIsAlive := role == Leader || (lastLeaderContact.Some? && now < lastLeaderContact.value + timeoutMin);
      var upToDate := CandidateLogUpToDate(req.lastTerm, req.lastIndex);
      rep := VoteRep(currentTerm, req.term > currentTerm && !leaderIsAlive && upToDate);
    }

    method HandleRequestVote(candidate: NodeId, req: Request) returns (rep: Reply)
      requires Valid() && req.VoteReq?
      modifies this, storage
      ensures var r := OnVoteRequest(old(State()), candidate, req);
              Valid() && State() == r.server && storage.journal == old(storage.journal) + r.writes && r.reply == Some(rep)
    {
      if req.term < currentTerm { return VoteRep(currentTerm, false); }
      if req.term > currentTerm {
        var _ := StepDownIfOlder(req.term);
      }
      var canVote := votedFor == None || votedFor == Some(candidate);
      var upToDate := CandidateLogUpToDate(req.lastTerm, req.lastIndex);
      if canVote && upToDate {
        votedFor := Some(candidate);
        storage.SaveVotedFor(Some(candidate));
        return VoteRep(currentTerm, true);
      }
      rep := VoteRep(currentTerm, false);
    }

    /** Appends what the follower is missing, unless the transaction fails. */
    method AppendTail(rest: Log, fault: Fault) returns (ok: bool)
      requires Valid()
      modifies this`log, storage
      ensures Valid() && ok == !fault.AppendFails?
      ensures State() == old(State()).(log := if ok then old(State()).log + rest else old(State()).log)
      ensures storage.journal == old(storage.journal) + if ok then [AppendLog(rest)] else []
    {
      if fault.AppendFails? { return false; }
      storage.AppendEntries(rest);
      log := log + rest;
      ok := true;
    }

    /** Cuts the log after `kept` entries, in storage and in memory. */
    method CutAfter(kept: nat)
      requires Valid() && kept < |State().log|
      modifies this`log, storage
      ensures Valid() && State() == old(State()).(log := old(State()).log[..kept])
      ensures storage.journal == old(storage.journal) + [TruncateLog(kept)]
    {
      storage.TruncateFrom(kept + 1);
      if kept + 1 < |log| { log := log[..kept + 1]; }
    }

    /** Replaces everything after `kept` entries; a failed append leaves only the cut. */
    method Overwrite(kept: nat, rest: Log, fault: Fault) returns (ok: bool)
      requires Valid() && kept < |State().log|
      modifies this`log, storage
      ensures Valid()
      ensures var s := old(State());
              var cut := s.log[..kept];
              State() == s.(log := if fault.TruncateFails? then s.log else if fault.AppendFails? then cut else cut + rest) &&
              ok == fault.NoFault? &&
              storage.journal == old(storage.journal) +
                (if fault.TruncateFails? then [] else if fault.AppendFails? then [TruncateLog(kept)]
                 else [TruncateLog(kept), AppendLog(rest)])
    {
      if fault.TruncateFails? { return false; }
      CutAfter(kept);
      ok := AppendTail(rest, fault);
    }

    /** The merge loop as far as it only looks: it skips what matches and stops at the
        first entry that is missing or conflicts. */
    method SkipMatching(prev: nat, entries: Log) returns (i: nat)
      requires Valid() && prev <= |State().log|
      ensures i == Matching(State().log, prev, entries) && i <= |entries| && prev + i <= |State().log|
      ensures i < |entries| && prev + i < |State().log| ==> State().log[prev + i].term != entries[i].term
    {
      ghost var was := State().log;
      i := 0;
      while i < |entries|
        invariant i <= |entries| && prev + i <= |was|
        invariant Matching(was, prev, entries) == i + Matching(was, prev + i, entries[i..])
      {
        MatchingStep(was, prev, entries, i);
        var existing := storage.GetEntry(prev + 1 + i);
        if existing.None? { return; }
        if existing.value.term != entries[i].term { return; }
        i := i + 1;
      }
    }

    /** The merge: from the first difference on, append or overwrite. */
    method MergeEntries(prev: nat, entries: Log, fault: Fault) returns (ok: bool)
      requires Valid() && prev <= |State().log|
      modifies this`log, storage
      ensures var (merged, ws, done) := Merge(old(State()).log, prev, entries, fault);
              Valid() && State() == old(State()).(log := merged) && ok == done &&
              storage.journal == old(storage.journal) + ws
    {
      var i := SkipMatching(prev, entries);
      if i == |entries| { return true; }
      var existing := storage.GetEntry(prev + 1 + i);
      if existing.None? {
        ok := AppendTail(entries[i..], fault);
      } else {
        ok := Overwrite(prev + i, entries[i..], fault);
      }
    }

    /** Commit up to what the leader has committed and this request is known to have covered. */
    method AdvanceFollowerCommit(leaderCommit: nat, lastNew: nat)
      requires Valid()
      modifies this`commitIndex, this`lastApplied, this`channels, this`pendingCommits, kvStore
      ensures Valid() && State() == FollowerCommit(decode, old(State()), leaderCommit, lastNew)
    {
      if leaderCommit > commitIndex {
        var newCommit := leaderCommit;
        if lastNew < newCommit { newCommit := lastNew; }
        if newCommit > commitIndex {
          commitIndex := newCommit;
          ApplyCommittedEntries();
        }
      }
    }

    /** Recognises the sender as leader of its term. */
    method HeedLeader(from: NodeId, t: nat, now: nat)
      requires Valid() && t >= currentTerm
      modifies this, storage
      ensures Valid() && State() == Heed(old(State()), from, t, now)
      ensures storage.journal == old(storage.journal) + CheckTermWrites(old(State()), t)
    {
      if t > currentTerm {
        var _ := StepDownIfOlder(t);
      }
      if role == Candidate && t == currentTerm { role := Follower; }
      leaderID, lastLeaderContact := Some(from), Some(now);
    }

    method CheckConsistency(prev: nat, prevTerm: nat) returns (ok: bool)
      requires Valid()
      ensures ok == Consistent(State().log, prev, prevTerm)
    {
      if prev > 0 {
        var entry := storage.GetEntry(prev);
        if entry.None? { return false; }
        if entry.value.term != prevTerm { return false; }
      }
      ok := true;
    }

    method AcceptEntries(req: Request, fault: Fault) returns (rep: Reply)
      requires Valid() && req.AppendReq? && Consistent(State().log, req.prevIndex, req.prevTerm)
      modifies this, storage, kvStore
      ensures var r := Accept(decode, old(State()), req, fault);
              Valid() && State() == r.server && storage.journal == old(storage.journal) + r.writes && r.reply == Some(rep)
    {
      var ok := MergeEntries(req.prevIndex, req.entries, fault);
      if !ok { return AppendRep(currentTerm, false); }
      AdvanceFollowerCommit(req.commit, LastSent(req));
      rep := AppendRep(currentTerm, true);
    }

    method HandleAppendEntries(from: NodeId, req: Request, now: nat, fault: Fault) returns (rep: Reply)
      requires Valid() && req.AppendReq?
      modifies this, storage, kvStore
      ensures var r := OnAppendRequest(decode, old(State()), from, req, now, fault);
              Valid() && State() == r.server && storage.journal == old(storage.journal) + r.writes && r.reply == Some(rep)
    {
      if req.term < currentTerm { return AppendRep(currentTerm, false); }
      HeedLeader(from, req.term, now);
      var consistent := CheckConsistency(req.prevIndex, req.prevTerm);
      if !consistent { return AppendRep(currentTerm, false); }
      rep := AcceptEntries(req, fault);
    }

    // ---------- replication.go: proposals and replies ----------

    /** With nobody to ask, the newest entry is committed and applied at once. */
    method CommitAlone()
      requires Valid()
      modifies this`commitIndex, this`lastApplied, this`channels, this`pendingCommits, kvStore
      ensures Valid() && State() == Apply(decode, old(State()).(commit := |old(State()).log|))
      ensures State().log == old(State()).log
    {
      var lastIndex := storage.LastIndex();
      ApplyTouches(decode, State().(commit := lastIndex));
      commitIndex := lastIndex;
      ApplyCommittedEntries();
    }

    /** The client that proposed the last entry gets its own channel. */
    method AddClient(e: Entry, command: seq<byte>, answer: Option<bool>) returns (ticket: nat)
      requires Valid()
      modifies this`channels, this`pendingCommits, this`tickets
      ensures Valid() && State() == OpenChannel(old(State()), e, command, answer) && ticket == old(tickets)
    {
      var newIndex := storage.LastIndex();
      ticket := tickets;
      WaiterAdded(pendingCommits, channels, tickets, newIndex, Proposal(newIndex, e, command, epoch, answer));
      channels := channels[ticket := Proposal(newIndex, e, command, epoch, answer)];
      if answer == None { pendingCommits := pendingCommits[newIndex := ticket]; }
      tickets := tickets + 1;
    }

    /** The client gets index, ticket and a channel; None means an error came back at once. */
    method ProposeCommand(command: seq<byte>, fault: Fault) returns (ticket: Option<nat>, sent: map<NodeId, Request>)
      requires Valid()
      modifies this, storage, kvStore
      ensures var r := Propose(decode, old(State()), peers, command, fault);
              Valid() && State() == r.server && storage.journal == old(storage.journal) + r.writes &&
              sent == Requests(State(), peers, r.out)
      ensures ticket == if old(role) == Leader && !fault.AppendFails? then Some(old(tickets)) else None
      ensures State().log == old(State()).log +
                if ticket.Some? then [Entry(old(currentTerm), Record(|old(State()).log| + 1, command))] else []
      ensures ticket.Some? ==> ticket.value in channels && channels[ticket.value].command == command
    {
      if role != Leader { return None, map[]; }
      var lastIndex := storage.LastIndex();
      var newIndex := lastIndex + 1;
      var e := Entry(currentTerm, Record(newIndex, command));
      assert e == OwnEntry(State(), command);
      if fault.AppendFails? { return None, map[]; }
      AppendOwn(e);
      sent := map[];
      var mine;
      if |peers| == 0 {
        CommitAlone();
        mine := AddClient(e, command, Some(true));
        return Some(mine), sent;
      }
      mine := AddClient(e, command, None);
      sent := BroadcastAppendEntries();
      ticket := Some(mine);
    }

    /** A client that waited too long takes the waiter at its index off the list. */
    method GiveUp(index: nat)
      requires Valid()
      modifies this`pendingCommits
      ensures Valid() && State() == old(State()).(pending := old(State()).pending - {index})
    {
      WaiterGone(pendingCommits, channels, tickets, index);
      pendingCommits := pendingCommits - {index};
    }

    method RecordMatch(peer: NodeId, newMatch: nat)
      requires Valid() && role == Leader && peer in peers
      modifies this`leader
      ensures Valid() && State() == Confirmed(old(State()), peer, newMatch)
    {
      var next, acked := leader.value.next, leader.value.acked;
      if newMatch + 1 > next[peer] { next := next[peer := newMatch + 1]; }
      if newMatch > acked[peer] { acked := acked[peer := newMatch]; }
      forall p ensures StartsAtOne(next, p) { assert StartsAtOne(leader.value.next, p); }
      leader := Some(LeaderState(next, acked));
    }

    method LowerNext(peer: NodeId)
      requires Valid() && role == Leader && peer in peers && leader.value.next[peer] > 1
      modifies this`leader
      ensures Valid() && State() == BackedOff(old(State()), peer)
    {
      var next := leader.value.next;
      next := next[peer := next[peer] - 1];
      forall p ensures StartsAtOne(next, p) { assert StartsAtOne(leader.value.next, p); }
      leader := Some(LeaderState(next, leader.value.acked));
    }

    /** The answer to an AppendEntries request this node sent. */
    method HandleAppendReply(peer: NodeId, req: Request, rep: Reply) returns (sent: map<NodeId, Request>)
      requires Valid() && peer in peers && req.AppendReq? && rep.AppendRep?
      modifies this, storage, kvStore
      ensures var r := OnAppendReply(decode, old(State()), peers, peer, req, rep);
              Valid() && State() == r.server && storage.journal == old(storage.journal) + r.writes &&
              sent == Requests(State(), peers, r.out)
    {
      sent := map[];
      var steppedDown := StepDownIfOlder(rep.term);
      if steppedDown { return; }
      if role != Leader || currentTerm != req.term { return; }
      if rep.success {
        RecordMatch(peer, LastSent(req));
        CheckAndUpdateCommitIndex();
      } else if leader.value.next[peer] > 1 {
        LowerNext(peer);
        var retry := RequestFor(peer);
        sent := map[peer := retry];
      }
    }
  }
}
