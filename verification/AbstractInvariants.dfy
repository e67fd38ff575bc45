/** The invariants of abstract Raft, and what survives while its history grows. */
module AbstractInvariants {
  import opened RaftTypes
  import opened AbstractRaft

  // ---------- What a log, a node and the history must look like ----------

  /** Every entry sits in the leader log of its own term, below the same entries. */
  ghost predicate Rooted(h: History, log: Log) {
    forall i :: 0 <= i < |log| ==> log[i].term in h.reigns && Agree(log, LogOf(h, log[i].term), i + 1)
  }

  ghost predicate TermsUpTo(log: Log, t: int) {
    forall i :: 0 <= i < |log| ==> log[i].term <= t
  }

  /** Term t's leader, elected by term `upTo`, started without the first i entries of term `of`. */
  predicate Lacks(h: History, of: nat, t: nat, i: nat) {
    t in h.reigns && !Agree(StartOf(h, t), LogOf(h, of), i)
  }

  /** `log` still holds the first i entries of term t's leader log, unless some
      leader of a later term, up to `bound`, started without them. */
  ghost predicate Retained(h: History, log: Log, bound: nat, t: nat, i: nat) {
    Agree(log, LogOf(h, t), i) || exists u :: t < u <= bound && Lacks(h, t, u, i)
  }

  /** All that node n confirmed in terms before `before` is retained in `log`. */
  ghost predicate Retains(h: History, n: NodeId, log: Log, before: nat, bound: nat) {
    forall t: nat, i: nat {:trigger Retained(h, log, bound, t, i)} :: t < before && i <= AckOf(h, t, n) ==> Retained(h, log, bound, t, i)
  }

  ghost predicate ReignOk(ids: set<NodeId>, h: History, t: nat, r: Reign) {
    && IsQuorum(ids, r.voters)
    && r.leader in ids
    && (forall v :: v in r.voters ==> Granted(h, t, v, r.leader))
    && At(t, r.leader) in h.campaigns && h.campaigns[At(t, r.leader)] == r.start
    && Agree(r.start, r.log, |r.start|)
    && (forall i :: |r.start| <= i < |r.log| ==> r.log[i].term == t)
    && Rooted(h, r.log)
    && (forall v :: v in r.voters && At(t, v) in h.grants ==> 0 < t && Retains(h, v, h.grants[At(t, v)].log, t, t - 1))
  }

  ghost predicate CampaignOk(ids: set<NodeId>, h: History, k: At, log: Log) {
    k.node in ids && 0 < k.term && Rooted(h, log) && TermsUpTo(log, k.term - 1)
  }

  ghost predicate GrantOk(ids: set<NodeId>, h: History, k: At, g: Grant) {
    && k.node in ids && 0 < k.term
    && Rooted(h, g.log)
    && At(k.term, g.candidate) in h.campaigns
    && var cl := h.campaigns[At(k.term, g.candidate)];
    && UpToDate(LastTerm(cl), |cl|, g.log)
    && Retains(h, k.node, g.log, k.term, k.term)
  }

  ghost predicate HistoryOk(ids: set<NodeId>, h: History) {
    && (forall t {:trigger ReignOk(ids, h, t, h.reigns[t])} :: t in h.reigns ==> ReignOk(ids, h, t, h.reigns[t]))
    && (forall k {:trigger CampaignOk(ids, h, k, h.campaigns[k])} :: k in h.campaigns ==> CampaignOk(ids, h, k, h.campaigns[k]))
    && (forall k {:trigger GrantOk(ids, h, k, h.grants[k])} :: k in h.grants ==> GrantOk(ids, h, k, h.grants[k]))
    && (forall k :: k in h.acks ==> k.node in ids && h.acks[k] <= |LogOf(h, k.term)|)
  }

  ghost predicate RoleOk(h: History, n: NodeId, nd: Node) {
    && (nd.role == Leader ==>
          nd.term in h.reigns && h.reigns[nd.term].leader == n && h.reigns[nd.term].log == nd.log)
    && (nd.role == Candidate ==> At(nd.term, n) in h.campaigns && h.campaigns[At(nd.term, n)] == nd.log)
    && (forall k :: k in h.campaigns && k.node == n ==> k.term <= nd.term)
    && (forall k :: k in h.grants && k.node == n ==>
          k.term <= nd.term && (k.term == nd.term ==> nd.vote == Some(h.grants[k].candidate)))
    && (forall t :: t in h.reigns && h.reigns[t].leader == n ==>
          t <= nd.term && (t == nd.term ==> nd.role != Candidate))
    && (forall k :: k in h.acks && k.node == n ==> k.term <= nd.term)
  }

  ghost predicate LogOk(ids: set<NodeId>, h: History, n: NodeId, nd: Node) {
    && Rooted(h, nd.log) && TermsUpTo(nd.log, nd.term)
    && Retains(h, n, nd.log, nd.term + 1, nd.term)
    && CommitKnown(ids, h, nd.log, nd.term, nd.commit)
  }

  ghost predicate NodeOk(ids: set<NodeId>, h: History, n: NodeId, nd: Node) {
    RoleOk(h, n, nd) && LogOk(ids, h, n, nd)
  }

  ghost predicate Inv(s: State) {
    && s.nodes.Keys == s.ids
    && HistoryOk(s.ids, s.h)
    && forall n {:trigger NodeOk(s.ids, s.h, n, s.nodes[n])} :: n in s.ids ==> NodeOk(s.ids, s.h, n, s.nodes[n])
  }

  // ---------- Facts survive while the history grows ----------

  ghost predicate ReignGrows(r: Reign, r': Reign) {
    r'.leader == r.leader && r'.voters == r.voters && r'.start == r.start && Agree(r.log, r'.log, |r.log|)
  }

  ghost predicate Grows(h: History, h': History) {
    && (forall k :: k in h.campaigns ==> k in h'.campaigns && h'.campaigns[k] == h.campaigns[k])
    && (forall k :: k in h.grants ==> k in h'.grants && h'.grants[k] == h.grants[k])
    && (forall t :: t in h.reigns ==> t in h'.reigns && ReignGrows(h.reigns[t], h'.reigns[t]))
    && (forall k :: k in h.acks ==> k in h'.acks && h.acks[k] <= h'.acks[k])
  }

  /** The step from h to h' recorded nothing about node m. */
  ghost predicate SilentOn(h: History, h': History, m: NodeId) {
    && (forall k :: k in h'.campaigns && k.node == m ==> k in h.campaigns)
    && (forall k :: k in h'.grants && k.node == m ==> k in h.grants)
    && (forall k :: k in h'.acks && k.node == m ==> k in h.acks && h'.acks[k] == h.acks[k])
    && (forall t :: t in h'.reigns && h'.reigns[t].leader == m ==> t in h.reigns && h'.reigns[t] == h.reigns[t])
  }

  lemma RootedGrows(h: History, h': History, log: Log)
    requires Grows(h, h') && Rooted(h, log)
    ensures Rooted(h', log)
  {
    forall i | 0 <= i < |log|
      ensures log[i].term in h'.reigns && Agree(log, LogOf(h', log[i].term), i + 1)
    {
      var t := log[i].term;
      AgreeShorter(LogOf(h, t), LogOf(h', t), |LogOf(h, t)|, i + 1);
    }
  }

  lemma RetainedGrows(h: History, h': History, log: Log, bound: nat, bound': nat, t: nat, i: nat)
    requires Grows(h, h') && Retained(h, log, bound, t, i) && i <= |LogOf(h, t)| && bound <= bound'
    ensures Retained(h', log, bound', t, i)
  {
    if t in h.reigns {
      AgreeShorter(LogOf(h, t), LogOf(h', t), |LogOf(h, t)|, i);
    }
    if !Agree(log, LogOf(h, t), i) {
      var u :| t < u <= bound && Lacks(h, t, u, i);
      assert Lacks(h', t, u, i);
    }
  }

  lemma RetainsGrows(ids: set<NodeId>, h: History, h': History, n: NodeId, log: Log,
                     before: nat, bound: nat, bound': nat)
    requires HistoryOk(ids, h) && Grows(h, h') && Retains(h, n, log, before, bound) && bound <= bound'
    requires forall t: nat :: t < before ==> AckOf(h', t, n) == AckOf(h, t, n)
    ensures Retains(h', n, log, before, bound')
  {
    forall t: nat, i: nat | t < before && i <= AckOf(h', t, n) ensures Retained(h', log, bound', t, i) {
      assert Retained(h, log, bound, t, i);
      RetainedGrows(h, h', log, bound, bound', t, i);
    }
  }

  lemma ChosenGrows(ids: set<NodeId>, h: History, h': History, t: nat, i: nat)
    requires Grows(h, h') && Chosen(ids, h, t, i)
    ensures Chosen(ids, h', t, i)
  {
    SubsetSize(Ackers(ids, h, t, i), Ackers(ids, h', t, i));
    AgreeAt(LogOf(h, t), LogOf(h', t), |LogOf(h, t)|, i - 1);
  }

  lemma CommitKnownGrows(ids: set<NodeId>, h: History, h': History, log: Log, term: nat, term': nat, c: nat)
    requires Grows(h, h') && CommitKnown(ids, h, log, term, c) && term <= term'
    ensures CommitKnown(ids, h', log, term', c)
  {
    if c != 0 {
      var t: nat, i: nat :| Chosen(ids, h, t, i) && t <= term && c <= i && Agree(log, LogOf(h, t), c);
      ChosenGrows(ids, h, h', t, i);
      AgreeShorter(LogOf(h, t), LogOf(h', t), |LogOf(h, t)|, c);
    }
  }

  /** A log that does not change stays sound, in this term or in a later one. */
  lemma LogStaysOk(ids: set<NodeId>, h: History, h': History, m: NodeId, nd: Node, nd': Node)
    requires HistoryOk(ids, h) && LogOk(ids, h, m, nd) && Grows(h, h')
    requires nd'.log == nd.log && nd'.term >= nd.term && nd'.commit == nd.commit
    requires forall t: nat :: t <= nd.term ==> AckOf(h', t, m) == AckOf(h, t, m)
    requires forall t: nat :: nd.term < t <= nd'.term ==> AckOf(h', t, m) == 0
    ensures LogOk(ids, h', m, nd')
  {
    RootedGrows(h, h', nd.log);
    RetainsGrows(ids, h, h', m, nd.log, nd.term + 1, nd.term, nd'.term);
    CommitKnownGrows(ids, h, h', nd.log, nd.term, nd'.term, nd.commit);
    forall t: nat, i: nat | t < nd'.term + 1 && i <= AckOf(h', t, m) ensures Retained(h', nd.log, nd'.term, t, i) {}
  }

  lemma BystanderOk(ids: set<NodeId>, h: History, h': History, m: NodeId, nd: Node)
    requires HistoryOk(ids, h) && NodeOk(ids, h, m, nd) && Grows(h, h') && SilentOn(h, h', m)
    ensures NodeOk(ids, h', m, nd)
  {
    LogStaysOk(ids, h, h', m, nd, nd);
  }
}
