/** A cluster of engine nodes over a network that may lose, delay and reorder
    calls, with crashes between any two storage transactions. */
module EngineCluster {
  import opened RaftTypes
  import opened Engine

  datatype Config = Config(ids: set<NodeId>, decode: Decoder, timeoutMin: nat)

  /** One RPC. It is answered at most once and its answer is read at most once. */
  datatype Call = Call(from: NodeId, to: NodeId, epoch: nat, req: Request, reply: Option<Reply>)

  /** An election asks each peer once per term; other calls are numbered. */
  datatype CallId =
    | ForVote(term: nat, from: NodeId, to: NodeId)
    | ForPreVote(round: nat, to: NodeId)
    | ForAppend(batch: nat, to: NodeId)

  datatype Cluster = Cluster(servers: map<NodeId, Server>, calls: map<CallId, Call>, rounds: map<nat, Round>, serial: nat, now: nat)

  datatype Event =
    | Timeout(n: NodeId, fault: Fault)
    | Heartbeat(n: NodeId)
    | Client(n: NodeId, command: seq<byte>, fault: Fault)
    | GiveUp(n: NodeId, index: nat)
    | Serve(id: CallId, fault: Fault)
    | Read(id: CallId, fault: Fault)
    | Lose(id: CallId)
    | Tick(elapsed: nat)
    | Crash(n: NodeId)
    | CrashDuring(during: Event, done: nat)

  function Peers(cfg: Config, n: NodeId): set<NodeId> { cfg.ids - {n} }

  predicate IsInit(cfg: Config, c: Cluster) {
    && c.servers.Keys == cfg.ids
    && (forall n :: n in cfg.ids ==> c.servers[n] == Fresh(Durable(0, None, [])))
    && c.calls == map[] && c.rounds == map[]
  }

  // ---------- Which node acts, and what its handler does ----------

  function Actor(c: Cluster, e: Event): NodeId {
    match e
    case Timeout(n, _) => n
    case Heartbeat(n) => n
    case Client(n, _, _) => n
    case GiveUp(n, _) => n
    case Crash(n) => n
    case Serve(id, _) => if id in c.calls then c.calls[id].to else 0
    case Read(id, _) => if id in c.calls then c.calls[id].from else 0
    case _ => 0
  }

  predicate Handles(e: Event) {
    e.Timeout? || e.Heartbeat? || e.Client? || e.Serve? || e.Read?
  }

  /** A node may run the handler for e. */
  predicate Possible(cfg: Config, c: Cluster, e: Event) {
    var n := Actor(c, e);
    Handles(e) && n in cfg.ids && n in c.servers &&
    match e
    case Timeout(_, _) => c.servers[n].role != Leader
    case Heartbeat(_) => c.servers[n].role == Leader
    case Serve(id, _) => id in c.calls && c.calls[id].reply.None?
    case Read(id, _) =>
      && id in c.calls && c.calls[id].reply.Some?
      && c.servers[n].epoch == c.calls[id].epoch
      && (c.calls[id].req.AppendReq? <==> c.calls[id].reply.value.AppendRep?)
      && (c.calls[id].req.PreVoteReq? <==> id.ForPreVote?)
      && (id.ForPreVote? ==> id.round in c.rounds)
    case _ => true
  }

  predicate Enabled(cfg: Config, c: Cluster, e: Event) {
    match e
    case GiveUp(n, _) => n in cfg.ids && n in c.servers
    case Lose(id) => id in c.calls
    case Tick(_) => true
    case Crash(n) => n in cfg.ids && n in c.servers
    case CrashDuring(d, done) => Possible(cfg, c, d) && done <= |Handled(cfg, c, d).writes|
    case _ => Possible(cfg, c, e)
  }

  function Nothing(s: Server): Result { Result(s, [], None, Silent) }

  /** The acting node's handler, before its messages leave. */
  function Handled(cfg: Config, c: Cluster, e: Event): Result
    requires Possible(cfg, c, e)
  {
    var n := Actor(c, e);
    var s := c.servers[n];
    match e
    case Timeout(_, fault) =>
      if Peers(cfg, n) == {} then CampaignOf(cfg.decode, s, n, {}, fault) else Nothing(s)
    case Heartbeat(_) => Result(s, [], None, Broadcast)
    case Client(_, command, fault) => Propose(cfg.decode, s, Peers(cfg, n), command, fault)
    case Serve(id, fault) =>
      var call := c.calls[id];
      (match call.req
       case VoteReq(_, _, _) => OnVoteRequest(s, call.from, call.req)
       case PreVoteReq(_, _, _) => Nothing(s).(reply := Some(OnPreVoteRequest(s, call.req, c.now, cfg.timeoutMin)))
       case AppendReq(_, _, _, _, _) => OnAppendRequest(cfg.decode, s, call.from, call.req, c.now, fault))
    case Read(id, fault) =>
      var call := c.calls[id];
      if call.req.AppendReq? then OnAppendReply(cfg.decode, s, Peers(cfg, n), call.to, call.req, call.reply.value)
      else if id.ForPreVote? then
        OnPreVoteReply(cfg.decode, s, n, Peers(cfg, n), c.rounds[id.round], call.reply.value, fault).0
      else OnVoteReply(cfg.decode, s, Peers(cfg, n), call.req.term, call.reply.value, fault)
  }

  // ---------- The network ----------

  function VoteIds(cfg: Config, n: NodeId, t: nat): set<CallId> {
    set p | p in Peers(cfg, n) :: ForVote(t, n, p)
  }

  function AppendIds(cfg: Config, n: NodeId, batch: nat): set<CallId> {
    set p | p in Peers(cfg, n) :: ForAppend(batch, p)
  }

  function PreVoteIds(cfg: Config, n: NodeId, round: nat): set<CallId> {
    set p | p in Peers(cfg, n) :: ForPreVote(round, p)
  }

  /** The calls a node makes once its handler is done. */
  function Sent(cfg: Config, n: NodeId, s: Server, out: Out, serial: nat): map<CallId, Call> {
    match out
    case Silent => map[]
    case AskVotes => map id | id in VoteIds(cfg, n, s.term) :: Call(n, id.to, s.epoch, VoteRequest(s), None)
    case Broadcast =>
      if s.role != Leader then map[]
      else map id | id in AppendIds(cfg, n, serial) :: Call(n, id.to, s.epoch, AppendRequest(s, id.to), None)
    case Retry(p) => map[ForAppend(serial, p) := Call(n, p, s.epoch, AppendRequest(s, p), None)]
  }

  function PreVoteCalls(cfg: Config, n: NodeId, s: Server, round: nat): map<CallId, Call> {
    map id | id in PreVoteIds(cfg, n, round) :: Call(n, id.to, s.epoch, PreVoteRequest(s), None)
  }

  /** What the handler itself does to the calls: a served one is answered, a read one is gone. */
  function CallsAfter(c: Cluster, e: Event, reply: Option<Reply>): map<CallId, Call>
    requires e.Serve? ==> e.id in c.calls
  {
    match e
    case Serve(id, _) => c.calls[id := c.calls[id].(reply := reply)]
    case Read(id, _) => c.calls - {id}
    case _ => c.calls
  }

  function RoundsAfter(cfg: Config, c: Cluster, e: Event): map<nat, Round>
    requires Possible(cfg, c, e)
  {
    match e
    case Timeout(n, _) =>
      if Peers(cfg, n) == {} then c.rounds
      else c.rounds[c.serial := Round(n, c.servers[n].term, c.now, 1, false)]
    case Read(id, fault) =>
      if id.ForPreVote? then
        var n := Actor(c, e);
        c.rounds[id.round := OnPreVoteReply(cfg.decode, c.servers[n], n, Peers(cfg, n), c.rounds[id.round],
                                            c.calls[id].reply.value, fault).1]
      else c.rounds
    case _ => c.rounds
  }

  /** A crash in the middle of a handler: the call in hand gets no answer. */
  function CallInHand(c: Cluster, e: Event): map<CallId, Call> {
    match e
    case Serve(id, _) => c.calls - {id}
    case Read(id, _) => c.calls - {id}
    case _ => c.calls
  }

  function RoundsOfOthers(c: Cluster, n: NodeId): map<nat, Round> {
    map r | r in c.rounds && c.rounds[r].node != n :: c.rounds[r]
  }

  function CallsMade(cfg: Config, c: Cluster, e: Event): map<CallId, Call>
    requires Possible(cfg, c, e)
  {
    var n := Actor(c, e);
    if e.Timeout? && Peers(cfg, n) != {} then PreVoteCalls(cfg, n, c.servers[n], c.serial)
    else Sent(cfg, n, Handled(cfg, c, e).server, Handled(cfg, c, e).out, c.serial)
  }

  function AfterHandler(cfg: Config, c: Cluster, e: Event): Cluster
    requires Possible(cfg, c, e)
  {
    var r := Handled(cfg, c, e);
    Cluster(c.servers[Actor(c, e) := r.server], CallsAfter(c, e, r.reply) + CallsMade(cfg, c, e),
            RoundsAfter(cfg, c, e), c.serial + 1, c.now)
  }

  function After(cfg: Config, c: Cluster, e: Event): Cluster
    requires Enabled(cfg, c, e)
  {
    match e
    case GiveUp(n, i) =>
      var s := c.servers[n];
      c.(servers := c.servers[n := s.(pending := s.pending - {i})])
    case Lose(id) => c.(calls := c.calls - {id})
    case Tick(d) => c.(now := c.now + d)
    case Crash(n) =>
      c.(servers := c.servers[n := Recover(c.servers[n], DurableOf(c.servers[n]))], rounds := RoundsOfOthers(c, n))
    case CrashDuring(d, done) =>
      var n := Actor(c, d);
      var s := c.servers[n];
      c.(servers := c.servers[n := Recover(s, Replay(DurableOf(s), Handled(cfg, c, d).writes[..done]))],
         calls := CallInHand(c, d), rounds := RoundsOfOthers(c, n))
    case _ => AfterHandler(cfg, c, e)
  }

  ghost predicate Next(cfg: Config, c: Cluster, c': Cluster) {
    exists e :: Enabled(cfg, c, e) && c' == After(cfg, c, e)
  }

  /** A run: it starts with empty nodes and every state follows from the one before. */
  ghost predicate IsRun(cfg: Config, run: seq<Cluster>) {
    |run| > 0 && IsInit(cfg, run[0]) && forall i: nat {:trigger StepAt(cfg, run, i)} :: StepAt(cfg, run, i)
  }

  ghost predicate StepAt(cfg: Config, run: seq<Cluster>, i: nat) {
    i + 1 < |run| ==> Next(cfg, run[i], run[i + 1])
  }

  /** The event that took a run from one state to the next. */
  lemma EventAt(cfg: Config, run: seq<Cluster>, i: nat) returns (e: Event)
    requires IsRun(cfg, run) && i + 1 < |run|
    ensures Enabled(cfg, run[i], e) && run[i + 1] == After(cfg, run[i], e)
  {
    assert StepAt(cfg, run, i);
    e :| Enabled(cfg, run[i], e) && run[i + 1] == After(cfg, run[i], e);
  }

  lemma RunPrefix(cfg: Config, run: seq<Cluster>, k: nat)
    requires IsRun(cfg, run) && 0 < k <= |run|
    ensures IsRun(cfg, run[..k])
  {
    forall i: nat ensures StepAt(cfg, run[..k], i) { assert StepAt(cfg, run, i); }
  }

  /** A run goes on with any event its last state allows. */
  lemma RunThen(cfg: Config, run: seq<Cluster>, e: Event)
    requires IsRun(cfg, run) && Enabled(cfg, run[|run| - 1], e)
    ensures IsRun(cfg, run + [After(cfg, run[|run| - 1], e)])
  {
    var longer := run + [After(cfg, run[|run| - 1], e)];
    forall i: nat ensures StepAt(cfg, longer, i) { assert StepAt(cfg, run, i); }
  }
}
