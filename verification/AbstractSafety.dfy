/** What the invariants of abstract Raft say about the whole run: log matching,
    leader completeness and state machine safety. */
module AbstractSafety {
  import opened RaftTypes
  import opened AbstractRaft
  import opened AbstractInvariants

  /** Terms never fall along a log, and a leader log splits where its term starts. */
  lemma ReignTerms(ids: set<NodeId>, h: History, t: nat, i: nat)
    requires HistoryOk(ids, h) && t in h.reigns && i < |LogOf(h, t)|
    ensures LogOf(h, t)[i].term <= t
    ensures LogOf(h, t)[i].term == t <==> i >= |StartOf(h, t)|
  {
    var r := h.reigns[t];
    assert ReignOk(ids, h, t, r);
    assert CampaignOk(ids, h, At(t, r.leader), r.start);
    if i < |r.start| {
      AgreeAt(r.start, r.log, |r.start|, i);
    }
  }

  lemma TermsSorted(ids: set<NodeId>, h: History, log: Log, i: nat, j: nat)
    requires HistoryOk(ids, h) && Rooted(h, log) && i <= j < |log|
    ensures log[i].term <= log[j].term
  {
    var t := log[j].term;
    AgreeAt(log, LogOf(h, t), j + 1, i);
    ReignTerms(ids, h, t, i);
  }

  /** Raft section 5.3: two logs with the same term at an index are the same up to it. */
  lemma LogMatching(h: History, a: Log, b: Log, i: nat)
    requires Rooted(h, a) && Rooted(h, b)
    requires i < |a| && i < |b| && a[i].term == b[i].term
    ensures Agree(a, b, i + 1)
  {
  }

  /** Raft section 5.4.1: a candidate at least as up-to-date as a log that holds the
      first i entries of term t's leader, the last of them of term t, holds them too. */
  lemma UpToDateHolds(ids: set<NodeId>, h: History, voter: Log, cand: Log, t: nat, i: nat)
    requires HistoryOk(ids, h) && Rooted(h, voter) && Rooted(h, cand)
    requires 0 < i && Agree(voter, LogOf(h, t), i) && voter[i - 1].term == t
    requires UpToDate(LastTerm(cand), |cand|, voter)
    requires LastTerm(cand) > t ==> Agree(StartOf(h, LastTerm(cand)), LogOf(h, t), i)
    ensures Agree(cand, LogOf(h, t), i)
  {
    TermsSorted(ids, h, voter, i - 1, |voter| - 1);
    var w := LastTerm(cand);
    if w == LastTerm(voter) {
      LogMatching(h, voter, cand, |voter| - 1);
      AgreeShorter(voter, cand, |voter|, i);
    } else {
      ReignTerms(ids, h, w, |cand| - 1);
      assert ReignOk(ids, h, w, h.reigns[w]);
      AgreeShorter(StartOf(h, w), LogOf(h, w), |StartOf(h, w)|, i);
      AgreeShorter(cand, LogOf(h, w), |cand|, i);
    }
  }

  /** One voter of term u confirmed the i entries before it voted, and kept them. */
  lemma VoterKept(ids: set<NodeId>, h: History, t: nat, i: nat, u: nat) returns (voter: Log)
    requires HistoryOk(ids, h) && Chosen(ids, h, t, i) && t < u && u in h.reigns
    ensures Rooted(h, voter) && Retained(h, voter, u - 1, t, i)
    ensures UpToDate(LastTerm(StartOf(h, u)), |StartOf(h, u)|, voter)
    ensures Rooted(h, StartOf(h, u)) && TermsUpTo(StartOf(h, u), u - 1)
  {
    var r := h.reigns[u];
    assert ReignOk(ids, h, u, r);
    var m := QuorumsMeet(ids, Ackers(ids, h, t, i), r.voters);
    var g := h.grants[At(u, m)];
    voter := g.log;
    assert GrantOk(ids, h, At(u, m), g) && CampaignOk(ids, h, At(u, r.leader), r.start);
  }

  /** Raft section 5.4: what term t settled is in the starting log of every later leader. */
  lemma {:induction false} LeaderCompleteness(ids: set<NodeId>, h: History, t: nat, i: nat, u: nat)
    requires HistoryOk(ids, h) && Chosen(ids, h, t, i) && t < u && u in h.reigns
    ensures Agree(StartOf(h, u), LogOf(h, t), i)
    decreases u
  {
    var voter := VoterKept(ids, h, t, i, u);
    if !Agree(voter, LogOf(h, t), i) {
      var w :| t < w <= u - 1 && Lacks(h, t, w, i);
      LeaderCompleteness(ids, h, t, i, w);
      assert false;
    }
    AgreeAt(voter, LogOf(h, t), i, i - 1);
    var cand := StartOf(h, u);
    var w := LastTerm(cand);
    if w > t {
      assert cand[|cand| - 1].term == w;
      LeaderCompleteness(ids, h, t, i, w);
    }
    UpToDateHolds(ids, h, voter, cand, t, i);
  }

  /** What term t settled is in the whole log of every later leader. */
  lemma SettledInLater(ids: set<NodeId>, h: History, t: nat, i: nat, u: nat)
    requires HistoryOk(ids, h) && Chosen(ids, h, t, i) && t <= u && u in h.reigns
    ensures Agree(LogOf(h, u), LogOf(h, t), i)
  {
    if t < u {
      LeaderCompleteness(ids, h, t, i, u);
      assert ReignOk(ids, h, u, h.reigns[u]);
      AgreeShorter(StartOf(h, u), LogOf(h, u), |StartOf(h, u)|, i);
    }
  }
}
