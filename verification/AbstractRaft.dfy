/** Raft without a network: nodes act on what the history of the run already
    contains, so a message in flight is a fact of the history, and losing,
    delaying, reordering or repeating messages needs no action of its own. */
module AbstractRaft {
  import opened RaftTypes

  datatype Node = Node(term: nat, vote: Option<NodeId>, log: Log, role: Role, commit: nat)

  datatype At = At(term: nat, node: NodeId)

  /** A vote, with the voter's log at the moment it was first cast. */
  datatype Grant = Grant(candidate: NodeId, log: Log)

  /** One term's leadership: the log it started from and the log it has grown to. */
  datatype Reign = Reign(leader: NodeId, voters: set<NodeId>, start: Log, log: Log)

  /** What has ever happened; it only grows.
      acks[At(t, n)] is how much of term t's leader log node n has confirmed. */
  datatype History = History(
    campaigns: map<At, Log>, grants: map<At, Grant>, reigns: map<nat, Reign>, acks: map<At, nat>)

  datatype State = State(ids: set<NodeId>, nodes: map<NodeId, Node>, h: History)

  datatype Action =
    | Learn(n: NodeId, term: nat, vote: Option<NodeId>)
    | Campaign(n: NodeId)
    | Vote(n: NodeId, candidate: NodeId)
    | Win(n: NodeId, voters: set<NodeId>)
    | Append(n: NodeId, data: Data)
    | Truncate(n: NodeId, len: nat)
    | Extend(n: NodeId, len: nat)
    | Ack(n: NodeId, len: nat)
    | Commit(n: NodeId, term: nat, index: nat, len: nat)
    | Demote(n: NodeId, commit: nat)

  function LogOf(h: History, t: nat): Log {
    if t in h.reigns then h.reigns[t].log else []
  }

  function StartOf(h: History, t: nat): Log {
    if t in h.reigns then h.reigns[t].start else []
  }

  function AckOf(h: History, t: nat, n: NodeId): nat {
    if At(t, n) in h.acks then h.acks[At(t, n)] else 0
  }

  function Ackers(ids: set<NodeId>, h: History, t: nat, i: nat): set<NodeId> {
    set m | m in ids && AckOf(h, t, m) >= i
  }

  /** Raft section 5.4.2: index i is settled by term t when a quorum confirmed it
      under t's leader and the entry there is of term t itself. */
  predicate Chosen(ids: set<NodeId>, h: History, t: nat, i: nat) {
    t in h.reigns && 0 < i <= |LogOf(h, t)| && LogOf(h, t)[i - 1].term == t &&
    IsQuorum(ids, Ackers(ids, h, t, i))
  }

  /** The first c entries of `log` lie within something settled in a term up to `term`. */
  ghost predicate CommitKnown(ids: set<NodeId>, h: History, log: Log, term: nat, c: nat) {
    c <= |log| &&
    (c == 0 || exists t: nat, i: nat :: Chosen(ids, h, t, i) && t <= term && c <= i && Agree(log, LogOf(h, t), c))
  }

  predicate Granted(h: History, t: nat, v: NodeId, c: NodeId) {
    At(t, v) in h.grants && h.grants[At(t, v)].candidate == c
  }

  predicate Enabled(s: State, a: Action) {
    a.n in s.ids && a.n in s.nodes &&
    var nd := s.nodes[a.n];
    match a
    case Learn(_, t, _) => t > nd.term
    case Campaign(_) => true
    case Vote(_, c) =>
      && At(nd.term, c) in s.h.campaigns
      && nd.vote in {None, Some(c)}
      && var log := s.h.campaigns[At(nd.term, c)];
      UpToDate(LastTerm(log), |log|, nd.log)
    case Win(n, voters) =>
      nd.role == Candidate && IsQuorum(s.ids, voters) && forall v :: v in voters ==> Granted(s.h, nd.term, v, n)
    case Append(_, _) => nd.role == Leader && nd.term in s.h.reigns
    case Truncate(_, k) =>
      var log := LogOf(s.h, nd.term);
      nd.role != Candidate && k < |log| && k < |nd.log| && Agree(nd.log, log, k) && nd.log[k].term != log[k].term
    case Extend(_, k) =>
      nd.role != Candidate && |nd.log| <= k <= |LogOf(s.h, nd.term)| && Agree(nd.log, LogOf(s.h, nd.term), |nd.log|)
    case Ack(_, k) =>
      nd.term in s.h.reigns && Agree(nd.log, LogOf(s.h, nd.term), k)
    case Commit(_, t, i, c) =>
      Chosen(s.ids, s.h, t, i) && t <= nd.term && nd.commit <= c <= i && Agree(nd.log, LogOf(s.h, t), c)
    case Demote(_, c) => c <= nd.commit
  }

  function Acked(h: History, t: nat, n: NodeId, len: nat): History {
    h.(acks := h.acks[At(t, n) := Max(AckOf(h, t, n), len)])
  }

  function NodeAfter(s: State, a: Action): Node
    requires Enabled(s, a)
  {
    var nd := s.nodes[a.n];
    match a
    case Learn(_, t, v) => nd.(term := t, vote := v, role := Follower)
    case Campaign(n) => nd.(term := nd.term + 1, vote := Some(n), role := Candidate)
    case Vote(_, c) => nd.(vote := Some(c))
    case Win(_, _) => nd.(role := Leader)
    case Append(_, d) => nd.(log := nd.log + [Entry(nd.term, d)])
    case Truncate(_, k) => nd.(log := nd.log[..k])
    case Extend(_, k) => nd.(log := LogOf(s.h, nd.term)[..k])
    case Ack(_, _) => nd
    case Commit(_, _, _, c) => nd.(commit := c)
    case Demote(_, c) => nd.(role := Follower, commit := c)
  }

  function HistoryAfter(s: State, a: Action): History
    requires Enabled(s, a)
  {
    var nd := s.nodes[a.n];
    match a
    case Campaign(n) =>
      var t := nd.term + 1;
      s.h.(campaigns := s.h.campaigns[At(t, n) := nd.log], grants := s.h.grants[At(t, n) := Grant(n, nd.log)])
    case Vote(n, c) =>
      if At(nd.term, n) in s.h.grants then s.h
      else s.h.(grants := s.h.grants[At(nd.term, n) := Grant(c, nd.log)])
    case Win(n, voters) =>
      Acked(s.h.(reigns := s.h.reigns[nd.term := Reign(n, voters, nd.log, nd.log)]), nd.term, n, |nd.log|)
    case Append(n, d) =>
      var log := nd.log + [Entry(nd.term, d)];
      Acked(s.h.(reigns := s.h.reigns[nd.term := s.h.reigns[nd.term].(log := log)]), nd.term, n, |log|)
    case Ack(n, k) => Acked(s.h, nd.term, n, k)
    case _ => s.h
  }

  function After(s: State, a: Action): State
    requires Enabled(s, a)
  {
    s.(nodes := s.nodes[a.n := NodeAfter(s, a)], h := HistoryAfter(s, a))
  }

  predicate IsInit(s: State) {
    && s.nodes.Keys == s.ids
    && (forall n :: n in s.ids ==> s.nodes[n] == Node(0, None, [], Follower, 0))
    && s.h == History(map[], map[], map[], map[])
  }

  /** The state after a sequence of actions, each enabled in turn. */
  ghost predicate Steps(s: State, acts: seq<Action>, s': State)
    decreases |acts|
  {
    if acts == [] then s' == s
    else Enabled(s, acts[0]) && Steps(After(s, acts[0]), acts[1..], s')
  }

  /** s' is reached from s by some sequence of actions. */
  ghost predicate Leads(s: State, s': State) {
    exists acts :: Steps(s, acts, s')
  }
}
