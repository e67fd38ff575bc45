/** What each handler of one engine node does, as functions on the node's state.
    The class in RaftNode.dfy is proved to do exactly this with the source's loops. */
module Engine {
  import opened RaftTypes

  // ---------- State ----------

  /** kind 0 sets, kind 1 deletes, any other kind is ignored by the state machine. */
  datatype Command = Command(kind: nat, key: string, value: string)

  type Decoder = seq<byte> -> Option<Command>

  type Table = map<string, string>

  datatype LeaderState = LeaderState(next: map<NodeId, nat>, acked: map<NodeId, nat>)

  /** A client, the command it sent, the entry made of it, and its own one-slot channel;
      `answer` is what was sent on it. */
  datatype Proposal = Proposal(index: nat, entry: Entry, command: seq<byte>, epoch: nat, answer: Option<bool>)

  /** `log` leaves out the sentinel. `votes` counts the replies of the current campaign.
      `epoch` numbers the incarnations of the process; it is not part of the source. */
  datatype Server = Server(
    term: nat, vote: Option<NodeId>, log: Log,
    role: Role, commit: nat, applied: nat, leader: Option<LeaderState>,
    leaderId: Option<NodeId>, contact: Option<nat>, votes: nat,
    table: Table, pending: map<nat, nat>, proposals: map<nat, Proposal>, tickets: nat, epoch: nat)

  datatype Durable = Durable(term: nat, vote: Option<NodeId>, log: Log)

  /** Which storage transaction of the handler fails, if it comes to it. */
  datatype Fault = NoFault | AppendFails | TruncateFails

  datatype Request =
    | VoteReq(term: nat, lastIndex: nat, lastTerm: nat)
    | PreVoteReq(term: nat, lastIndex: nat, lastTerm: nat)
    | AppendReq(term: nat, prevIndex: nat, prevTerm: nat, entries: Log, commit: nat)

  datatype Reply = VoteRep(term: nat, granted: bool) | AppendRep(term: nat, success: bool)

  /** What a handler sends once it is done; the requests themselves follow from the state. */
  datatype Out = Silent | AskVotes | Broadcast | Retry(peer: NodeId)

  datatype Result = Result(server: Server, writes: seq<Write>, reply: Option<Reply>, out: Out)

  const MAX_ENTRIES_PER_APPEND := 256

  // ---------- Storage ----------

  function DurableOf(s: Server): Durable { Durable(s.term, s.vote, s.log) }

  function Perform(d: Durable, w: Write): Durable {
    match w
    case SaveTerm(t) => d.(term := t)
    case SaveVote(v) => d.(vote := v)
    case AppendLog(es) => d.(log := d.log + es)
    case TruncateLog(k) => if k < |d.log| then d.(log := d.log[..k]) else d
  }

  function Replay(d: Durable, ws: seq<Write>): Durable
    decreases |ws|
  {
    if ws == [] then d else Perform(Replay(d, ws[..|ws| - 1]), ws[|ws| - 1])
  }

  function Fresh(d: Durable): Server {
    Server(d.term, d.vote, d.log, Follower, 0, 0, None, None, None, 0, map[], map[], map[], 0, 0)
  }

  /** NewRaftNode: only the durable part survives. The proposals stay as the record
      of what clients were told; nobody waits on them any more. */
  function Recover(s: Server, d: Durable): Server {
    Fresh(d).(proposals := s.proposals, tickets := s.tickets, epoch := s.epoch + 1)
  }

  // ---------- Clients ----------

  function Send(ps: map<nat, Proposal>, ticket: nat, ok: bool): map<nat, Proposal> {
    if ticket in ps then ps[ticket := ps[ticket].(answer := Some(ok))] else ps
  }

  /** Every pending client is told that leadership was lost. */
  function SendAll(ps: map<nat, Proposal>, pending: map<nat, nat>): map<nat, Proposal> {
    map t | t in ps :: if t in pending.Values then ps[t].(answer := Some(false)) else ps[t]
  }

  predicate EmptyChannel(pending: map<nat, nat>, proposals: map<nat, Proposal>, i: nat) {
    i in pending ==> pending[i] in proposals && proposals[pending[i]].answer == None
  }

  predicate OwnChannel(pending: map<nat, nat>, i: nat, j: nat) {
    i in pending && j in pending && pending[i] == pending[j] ==> i == j
  }

  predicate BelowTickets(proposals: map<nat, Proposal>, tickets: nat, t: nat) {
    t in proposals ==> t < tickets
  }

  /** Every waiting client has its own, still empty, channel. */
  ghost predicate WaitersOk(pending: map<nat, nat>, proposals: map<nat, Proposal>, tickets: nat) {
    && (forall i {:trigger EmptyChannel(pending, proposals, i)} :: EmptyChannel(pending, proposals, i))
    && (forall i, j {:trigger OwnChannel(pending, i, j)} :: OwnChannel(pending, i, j))
    && (forall t {:trigger BelowTickets(proposals, tickets, t)} :: BelowTickets(proposals, tickets, t))
  }

  // ---------- State machine ----------

  function ApplyCommand(table: Table, c: Command): Table {
    if c.kind == 0 then table[c.key := c.value]
    else if c.kind == 1 then table - {c.key}
    else table
  }

  function CommandOf(e: Entry): seq<byte> {
    match e.data
    case Record(_, command) => command
    case Value(_) => []
  }

  function DecodeEntry(decode: Decoder, e: Entry): Option<Command> {
    if CommandOf(e) == [] then None else decode(CommandOf(e))
  }

  function ApplyEntry(decode: Decoder, table: Table, e: Entry): Table {
    match DecodeEntry(decode, e)
    case None => table
    case Some(c) => ApplyCommand(table, c)
  }

  /** The table after replaying a log from nothing. */
  function Fold(decode: Decoder, log: Log): Table
    decreases |log|
  {
    if log == [] then map[] else ApplyEntry(decode, Fold(decode, log[..|log| - 1]), log[|log| - 1])
  }

  /** One turn of the apply loop. */
  function ApplyNext(decode: Decoder, s: Server): Server {
    var n := s.applied + 1;
    var s1 := s.(applied := n);
    if n > |s.log| || DecodeEntry(decode, s.log[n - 1]).None? then s1
    else
      var s2 := s1.(table := ApplyEntry(decode, s.table, s.log[n - 1]));
      if n in s.pending then
        s2.(proposals := Send(s.proposals, s.pending[n], true), pending := s.pending - {n})
      else s2
  }

  function Apply(decode: Decoder, s: Server): Server
    decreases s.commit - s.applied
  {
    if s.applied < s.commit then Apply(decode, ApplyNext(decode, s)) else s
  }

  /** Applying reaches the commit index and touches only the table and the clients. */
  lemma {:induction false} ApplyTouches(decode: Decoder, s: Server)
    ensures var r := Apply(decode, s);
            r == s.(applied := Max(s.applied, s.commit), table := r.table, proposals := r.proposals, pending := r.pending)
    decreases s.commit - s.applied
  {
    if s.applied < s.commit {
      ApplyTouches(decode, ApplyNext(decode, s));
    }
  }

  // ---------- Terms and elections ----------

  function CheckTerm(s: Server, t: nat): Server {
    if t > s.term then
      s.(term := t, vote := None, role := Follower, leader := None,
         proposals := SendAll(s.proposals, s.pending), pending := map[])
    else s
  }

  function CheckTermWrites(s: Server, t: nat): seq<Write> {
    if t > s.term then [SaveTerm(t), SaveVote(None)] else []
  }

  function Majority(peers: set<NodeId>): nat { (|peers| + 1) / 2 + 1 }

  function Holders(acked: map<NodeId, nat>, n: nat): set<NodeId> {
    set p | p in acked && acked[p] >= n
  }

  /** Index n may be committed by this leader: own term, and held by a majority. */
  predicate Committable(s: Server, peers: set<NodeId>, n: nat) {
    && s.leader.Some?
    && 0 < n <= |s.log| && s.log[n - 1].term == s.term
    && 1 + |Holders(s.leader.value.acked, n)| >= Majority(peers)
  }

  /** The greatest committable index in commit + 1 .. n, or commit if there is none. */
  function ScanCommit(s: Server, peers: set<NodeId>, n: nat): nat
    decreases n
  {
    if n <= s.commit then s.commit
    else if Committable(s, peers, n) then n
    else ScanCommit(s, peers, n - 1)
  }

  function UpdateCommit(decode: Decoder, s: Server, peers: set<NodeId>): Server {
    if s.role != Leader || s.leader.None? then s
    else Apply(decode, s.(commit := ScanCommit(s, peers, |s.log|)))
  }

  /** The entry a leader appends for a command: its own term, the next index. */
  function OwnEntry(s: Server, command: seq<byte>): Entry { Entry(s.term, Record(|s.log| + 1, command)) }

  function NoOp(s: Server): Entry { OwnEntry(s, []) }

  /** The leader's bookkeeping starts over with each election. */
  function Lead(s: Server, peers: set<NodeId>): Server {
    s.(role := Leader,
       leader := Some(LeaderState(map p | p in peers :: |s.log| + 1, map p | p in peers :: 0)))
  }

  /** The new leader appends a no-op of its own term, unless storage fails. */
  function LeadWithNoOp(s: Server, peers: set<NodeId>, fault: Fault): Server {
    if fault.AppendFails? then Lead(s, peers) else Lead(s, peers).(log := s.log + [NoOp(s)])
  }

  function BecomeLeader(decode: Decoder, s: Server, peers: set<NodeId>, fault: Fault): Result {
    if s.role != Candidate then Result(s, [], None, Silent)
    else Result(UpdateCommit(decode, LeadWithNoOp(s, peers, fault), peers),
                if fault.AppendFails? then [] else [AppendLog([NoOp(s)])], None, Broadcast)
  }

  /** A won election ends with a leader in the same term. */
  lemma LeaderStays(decode: Decoder, s: Server, peers: set<NodeId>, fault: Fault)
    requires s.role == Candidate
    ensures var r := BecomeLeader(decode, s, peers, fault).server;
            r.role == Leader && r.term == s.term && r.leader.Some?
  {
    var s1 := LeadWithNoOp(s, peers, fault);
    ApplyTouches(decode, s1.(commit := ScanCommit(s1, peers, |s1.log|)));
  }

  function CampaignOf(decode: Decoder, s: Server, me: NodeId, peers: set<NodeId>, fault: Fault): Result {
    var s1 := s.(term := s.term + 1, role := Candidate, vote := Some(me), leader := None, votes := 1);
    var ws := [SaveTerm(s1.term), SaveVote(Some(me))];
    if 1 >= Majority(peers) then
      var r := BecomeLeader(decode, s1, peers, fault);
      r.(writes := ws + r.writes)
    else Result(s1, ws, None, AskVotes)
  }

  function Counted(s: Server): Server { s.(votes := s.votes + 1) }

  function OnVoteReply(decode: Decoder, s: Server, peers: set<NodeId>, asked: nat, rep: Reply, fault: Fault): Result
    requires rep.VoteRep?
  {
    if rep.term > s.term then Result(CheckTerm(s, rep.term), CheckTermWrites(s, rep.term), None, Silent)
    else if s.role != Candidate || s.term != asked || !rep.granted then Result(s, [], None, Silent)
    else
      var s1 := Counted(s);
      if s1.votes >= Majority(peers) then BecomeLeader(decode, s1, peers, fault)
      else Result(s1, [], None, Silent)
  }

  function OnVoteRequest(s: Server, candidate: NodeId, req: Request): Result
    requires req.VoteReq?
  {
    if req.term < s.term then Result(s, [], Some(VoteRep(s.term, false)), Silent)
    else
      var s1, ws := CheckTerm(s, req.term), CheckTermWrites(s, req.term);
      if s1.vote in {None, Some(candidate)} && UpToDate(req.lastTerm, req.lastIndex, s1.log) then
        Result(s1.(vote := Some(candidate)), ws + [SaveVote(Some(candidate))], Some(VoteRep(s1.term, true)), Silent)
      else Result(s1, ws, Some(VoteRep(s1.term, false)), Silent)
  }

  predicate LeaderIsAlive(s: Server, now: nat, timeoutMin: nat) {
    s.role == Leader || (s.contact.Some? && now < s.contact.value + timeoutMin)
  }

  /** A pre-vote changes nothing at the voter. */
  function OnPreVoteRequest(s: Server, req: Request, now: nat, timeoutMin: nat): Reply
    requires req.PreVoteReq?
  {
    VoteRep(s.term, req.term > s.term && !LeaderIsAlive(s, now, timeoutMin) &&
                    UpToDate(req.lastTerm, req.lastIndex, s.log))
  }

  /** One round of pre-votes: the variables its reply handlers share. */
  datatype Round = Round(node: NodeId, term: nat, started: nat, votes: nat, campaigned: bool)

  /** The answer is ignored: the node has moved on, or a leader was heard since. */
  predicate StaleRound(s: Server, r: Round) {
    r.campaigned || s.role == Leader || s.term != r.term || (s.contact.Some? && s.contact.value > r.started)
  }

  function OnPreVoteReply(decode: Decoder, s: Server, me: NodeId, peers: set<NodeId>, r: Round, rep: Reply, fault: Fault): (Result, Round)
    requires rep.VoteRep?
  {
    if rep.term > s.term then (Result(CheckTerm(s, rep.term), CheckTermWrites(s, rep.term), None, Silent), r)
    else if StaleRound(s, r) || !rep.granted then (Result(s, [], None, Silent), r)
    else
      var r1 := r.(votes := r.votes + 1);
      if r1.votes >= Majority(peers) then (CampaignOf(decode, s, me, peers, fault), r1.(campaigned := true))
      else (Result(s, [], None, Silent), r1)
  }

  // ---------- Replication ----------

  /** How many of the sent entries the log already holds, counted from the first. */
  function Matching(log: Log, prev: nat, entries: Log): nat
    decreases |entries|
  {
    if entries == [] || prev >= |log| || log[prev].term != entries[0].term then 0
    else 1 + Matching(log, prev + 1, entries[1..])
  }

  /** The merge with its storage transactions; false means one of them failed. */
  function Merge(log: Log, prev: nat, entries: Log, fault: Fault): (Log, seq<Write>, bool) {
    var k := Matching(log, prev, entries);
    if k >= |entries| || prev + k > |log| then (log, [], true)
    else
      var rest := entries[k..];
      if prev + k == |log| then
        if fault.AppendFails? then (log, [], false) else (log + rest, [AppendLog(rest)], true)
      else if fault.TruncateFails? then (log, [], false)
      else
        var cut := log[..prev + k];
        if fault.AppendFails? then (cut, [TruncateLog(prev + k)], false)
        else (cut + rest, [TruncateLog(prev + k), AppendLog(rest)], true)
  }

  predicate Consistent(log: Log, prev: nat, prevTerm: nat) {
    prev == 0 || (prev <= |log| && log[prev - 1].term == prevTerm)
  }

  function FollowerCommit(decode: Decoder, s: Server, leaderCommit: nat, lastNew: nat): Server {
    if Min(leaderCommit, lastNew) > s.commit then Apply(decode, s.(commit := Min(leaderCommit, lastNew))) else s
  }

  /** The node as it is after accepting the sender as leader of its term. */
  function Heed(s: Server, from: NodeId, t: nat, now: nat): Server {
    var s1 := CheckTerm(s, t);
    s1.(role := if s1.role == Candidate then Follower else s1.role, leaderId := Some(from), contact := Some(now))
  }

  /** The last index an AppendEntries request covers. */
  function LastSent(req: Request): nat
    requires req.AppendReq?
  {
    req.prevIndex + |req.entries|
  }

  /** The merge and the follower commit rule, once the consistency check has passed. */
  function Accept(decode: Decoder, s: Server, req: Request, fault: Fault): Result
    requires req.AppendReq?
  {
    var (log, ws, ok) := Merge(s.log, req.prevIndex, req.entries, fault);
    var s1 := s.(log := log);
    Result(if ok then FollowerCommit(decode, s1, req.commit, LastSent(req)) else s1,
           ws, Some(AppendRep(s.term, ok)), Silent)
  }

  function OnAppendRequest(decode: Decoder, s: Server, from: NodeId, req: Request, now: nat, fault: Fault): Result
    requires req.AppendReq?
  {
    if req.term < s.term then Result(s, [], Some(AppendRep(s.term, false)), Silent)
    else
      var s1, ws := Heed(s, from, req.term, now), CheckTermWrites(s, req.term);
      if !Consistent(s1.log, req.prevIndex, req.prevTerm) then Result(s1, ws, Some(AppendRep(s1.term, false)), Silent)
      else
        var r := Accept(decode, s1, req, fault);
        r.(writes := ws + r.writes)
  }

  function Raise(m: map<NodeId, nat>, p: NodeId, v: nat): map<NodeId, nat> {
    if p in m && v > m[p] then m[p := v] else m
  }

  /** A peer confirmed the log up to an index. */
  function Confirmed(s: Server, peer: NodeId, upTo: nat): Server
    requires s.leader.Some?
  {
    var ls := s.leader.value;
    s.(leader := Some(LeaderState(Raise(ls.next, peer, upTo + 1), Raise(ls.acked, peer, upTo))))
  }

  /** A peer refused: try one entry earlier next time. */
  function BackedOff(s: Server, peer: NodeId): Server
    requires s.leader.Some? && peer in s.leader.value.next && s.leader.value.next[peer] > 1
  {
    var ls := s.leader.value;
    s.(leader := Some(ls.(next := ls.next[peer := ls.next[peer] - 1])))
  }

  function OnAppendReply(decode: Decoder, s: Server, peers: set<NodeId>, peer: NodeId, req: Request, rep: Reply): Result
    requires req.AppendReq? && rep.AppendRep?
  {
    if rep.term > s.term then Result(CheckTerm(s, rep.term), CheckTermWrites(s, rep.term), None, Silent)
    else if s.role != Leader || s.term != req.term || s.leader.None? || peer !in s.leader.value.next then Result(s, [], None, Silent)
    else if rep.success then
      Result(UpdateCommit(decode, Confirmed(s, peer, LastSent(req)), peers), [], None, Silent)
    else if s.leader.value.next[peer] > 1 then Result(BackedOff(s, peer), [], None, Retry(peer))
    else Result(s, [], None, Silent)
  }

  /** The client that proposed the last entry gets a channel, pending or already answered. */
  function OpenChannel(s: Server, e: Entry, command: seq<byte>, answer: Option<bool>): Server {
    s.(pending := if answer.None? then s.pending[|s.log| := s.tickets] else s.pending,
       proposals := s.proposals[s.tickets := Proposal(|s.log|, e, command, s.epoch, answer)], tickets := s.tickets + 1)
  }

  function Propose(decode: Decoder, s: Server, peers: set<NodeId>, command: seq<byte>, fault: Fault): Result {
    if s.role != Leader || fault.AppendFails? then Result(s, [], None, Silent)
    else
      var e := OwnEntry(s, command);
      var s1 := s.(log := s.log + [e]);
      if peers == {} then
        Result(OpenChannel(Apply(decode, s1.(commit := |s1.log|)), e, command, Some(true)), [AppendLog([e])], None, Silent)
      else Result(OpenChannel(s1, e, command, None), [AppendLog([e])], None, Broadcast)
  }

  // ---------- Requests a node sends ----------

  function VoteRequest(s: Server): Request { VoteReq(s.term, |s.log|, LastTerm(s.log)) }

  function PreVoteRequest(s: Server): Request { PreVoteReq(s.term + 1, |s.log|, LastTerm(s.log)) }

  function NextOf(s: Server, peer: NodeId): nat {
    if s.leader.Some? && peer in s.leader.value.next then Max(s.leader.value.next[peer], 1) else 1
  }

  function Batch(log: Log, from: nat): Log {
    if from > |log| then []
    else if |log| - from > MAX_ENTRIES_PER_APPEND then log[from..from + MAX_ENTRIES_PER_APPEND]
    else log[from..]
  }

  function AppendRequest(s: Server, peer: NodeId): Request {
    var prev := NextOf(s, peer) - 1;
    AppendReq(s.term, prev, if 0 < prev <= |s.log| then s.log[prev - 1].term else 0, Batch(s.log, prev), s.commit)
  }

  /** The requests that leave with a handler's result. */
  function Requests(s: Server, peers: set<NodeId>, out: Out): map<NodeId, Request> {
    match out
    case Silent => map[]
    case AskVotes => map p | p in peers :: VoteRequest(s)
    case Broadcast => if s.role != Leader then map[] else map p | p in peers :: AppendRequest(s, p)
    case Retry(p) => map[p := AppendRequest(s, p)]
  }
}
