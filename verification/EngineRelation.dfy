/** How a cluster of engine nodes relates to abstract Raft. */
module EngineRelation {
  import opened RaftTypes
  import opened Engine
  import opened EngineCluster
  import A = AbstractRaft
  import opened AbstractInvariants

  function View(s: Server): A.Node { A.Node(s.term, s.vote, s.log, s.role, s.commit) }

  /** The engine's entries carry their own index. */
  ghost predicate Indexed(log: Log) {
    forall i :: 0 <= i < |log| ==> log[i].data.Record? && log[i].data.index == i + 1
  }

  ghost predicate AllIndexed(h: A.History) {
    forall t {:trigger A.LogOf(h, t)} :: t in h.reigns ==> Indexed(A.LogOf(h, t))
  }

  /** Entry e at index i is within something its own term settled. */
  ghost predicate Settled(ids: set<NodeId>, h: A.History, i: nat, e: Entry) {
    0 < i && exists j :: A.Chosen(ids, h, e.term, j) && i <= j && A.LogOf(h, e.term)[i - 1] == e
  }

  /** The peers whose vote for n in term t was granted and whose reply is no longer under way. */
  function Heard(cfg: Config, h: A.History, calls: map<CallId, Call>, t: nat, n: NodeId): set<NodeId> {
    set p | p in Peers(cfg, n) && ForVote(t, n, p) !in calls && A.Granted(h, t, p, n)
  }

  // ---------- Calls ----------

  predicate ShapeOk(cfg: Config, id: CallId, call: Call) {
    && call.from in cfg.ids && call.to in cfg.ids && call.from != call.to
    && (match id
        case ForVote(t, f, to) => call.req.VoteReq? && call.req.term == t && call.from == f && call.to == to
        case ForPreVote(_, to) => call.req.PreVoteReq? && call.to == to
        case ForAppend(_, to) => call.req.AppendReq? && call.to == to)
    && (call.reply.Some? ==> (call.req.AppendReq? <==> call.reply.value.AppendRep?))
  }

  /** A vote request carries the log its sender campaigns with. */
  ghost predicate VoteReqOk(h: A.History, from: NodeId, req: Request)
    requires req.VoteReq?
  {
    A.At(req.term, from) in h.campaigns &&
    var log := h.campaigns[A.At(req.term, from)];
    req.lastIndex == |log| && req.lastTerm == LastTerm(log)
  }

  /** An AppendEntries request is a slice of the log of its term's leader. */
  ghost predicate AppendReqOk(ids: set<NodeId>, h: A.History, from: NodeId, req: Request)
    requires req.AppendReq?
  {
    && req.term in h.reigns && h.reigns[req.term].leader == from
    && var log := A.LogOf(h, req.term);
    && LastSent(req) <= |log|
    && req.entries == log[req.prevIndex..req.prevIndex + |req.entries|]
    && req.prevTerm == (if req.prevIndex > 0 then log[req.prevIndex - 1].term else 0)
    && A.CommitKnown(ids, h, log, req.term, req.commit)
  }

  ghost predicate CallOk(cfg: Config, h: A.History, id: CallId, call: Call) {
    && ShapeOk(cfg, id, call)
    && (call.req.VoteReq? ==>
          VoteReqOk(h, call.from, call.req) &&
          (call.reply.Some? && call.reply.value.granted ==> A.Granted(h, call.req.term, call.to, call.from)))
    && (call.req.AppendReq? ==>
          AppendReqOk(cfg.ids, h, call.from, call.req) &&
          (call.reply.Some? && call.reply.value.success ==>
             A.AckOf(h, call.req.term, call.to) >= LastSent(call.req)))
  }

  // ---------- Servers ----------

  // Each part names only the fields it depends on, so a step that leaves them alone keeps it.

  predicate PeerOk(h: A.History, term: nat, len: nat, ls: LeaderState, p: NodeId)
    requires p in ls.next && p in ls.acked
  {
    1 <= ls.next[p] <= len + 1 && ls.acked[p] <= Min(len, A.AckOf(h, term, p))
  }

  ghost predicate LeaderOk(cfg: Config, h: A.History, n: NodeId, role: Role, term: nat, len: nat, leader: Option<LeaderState>) {
    && (role == Leader <==> leader.Some?)
    && (role == Leader ==>
          && leader.value.next.Keys == Peers(cfg, n) && leader.value.acked.Keys == Peers(cfg, n)
          && A.AckOf(h, term, n) >= len
          && forall p {:trigger PeerOk(h, term, len, leader.value, p)} :: p in Peers(cfg, n) ==> PeerOk(h, term, len, leader.value, p))
  }

  ghost predicate CandidateOk(cfg: Config, h: A.History, calls: map<CallId, Call>, n: NodeId, s: Server) {
    s.role == Candidate ==> A.Granted(h, s.term, n, n) && s.votes <= 1 + |Heard(cfg, h, calls, s.term, n)|
  }

  ghost predicate TableOk(cfg: Config, log: Log, commit: nat, applied: nat, table: Table) {
    applied <= commit <= |log| && table == Fold(cfg.decode, log[..applied])
  }

  /** A client waiting at index i waits on the leader for exactly its own entry there. */
  predicate Waits(role: Role, term: nat, log: Log, epoch: nat, pending: map<nat, nat>, proposals: map<nat, Proposal>, i: nat) {
    i in pending ==>
      && role == Leader && 0 < i <= |log| && log[i - 1].term == term
      && pending[i] in proposals && proposals[pending[i]] == Proposal(i, log[i - 1], CommandOf(log[i - 1]), epoch, None)
  }

  /** What was proposed is the client's own command, at the index it was promised. */
  predicate Issued(proposals: map<nat, Proposal>, tickets: nat, epoch: nat, k: nat) {
    k in proposals ==>
      && k < tickets && proposals[k].epoch <= epoch
      && proposals[k].entry.data == Record(proposals[k].index, proposals[k].command)
  }

  ghost predicate WaitingOk(role: Role, term: nat, log: Log, epoch: nat, pending: map<nat, nat>, proposals: map<nat, Proposal>, tickets: nat) {
    && (forall i {:trigger Waits(role, term, log, epoch, pending, proposals, i)} :: Waits(role, term, log, epoch, pending, proposals, i))
    && (forall k {:trigger Issued(proposals, tickets, epoch, k)} :: Issued(proposals, tickets, epoch, k))
  }

  /** A success told to a client is about a settled entry; in the incarnation that
      told it, the node has applied that entry. */
  ghost predicate Told(ids: set<NodeId>, h: A.History, log: Log, applied: nat, epoch: nat, proposals: map<nat, Proposal>, k: nat) {
    k in proposals && proposals[k].answer == Some(true) ==>
      && Settled(ids, h, proposals[k].index, proposals[k].entry)
      && (proposals[k].epoch == epoch ==>
            0 < proposals[k].index <= applied <= |log| && log[proposals[k].index - 1] == proposals[k].entry)
  }

  ghost predicate ToldOk(ids: set<NodeId>, h: A.History, log: Log, applied: nat, epoch: nat, proposals: map<nat, Proposal>) {
    forall k {:trigger Told(ids, h, log, applied, epoch, proposals, k)} :: Told(ids, h, log, applied, epoch, proposals, k)
  }

  ghost predicate ServerOk(cfg: Config, h: A.History, n: NodeId, s: Server) {
    && LeaderOk(cfg, h, n, s.role, s.term, |s.log|, s.leader)
    && TableOk(cfg, s.log, s.commit, s.applied, s.table)
    && WaitingOk(s.role, s.term, s.log, s.epoch, s.pending, s.proposals, s.tickets)
    && ToldOk(cfg.ids, h, s.log, s.applied, s.epoch, s.proposals)
  }

  ghost predicate Related(cfg: Config, c: Cluster, s: A.State) {
    && Inv(s) && s.ids == cfg.ids && AllIndexed(s.h)
    && c.servers.Keys == cfg.ids
    && (forall n {:trigger ServerOk(cfg, s.h, n, c.servers[n])} :: n in cfg.ids ==>
          View(c.servers[n]) == s.nodes[n] && ServerOk(cfg, s.h, n, c.servers[n]))
    && (forall n {:trigger CandidateOk(cfg, s.h, c.calls, n, c.servers[n])} :: n in cfg.ids ==>
          CandidateOk(cfg, s.h, c.calls, n, c.servers[n]))
    && (forall id {:trigger CallOk(cfg, s.h, id, c.calls[id])} :: id in c.calls ==> CallOk(cfg, s.h, id, c.calls[id]))
  }
}
