/** Every action of abstract Raft keeps the invariants. */
module AbstractPreservation {
  import opened RaftTypes
  import opened AbstractRaft
  import opened AbstractInvariants
  import opened AbstractSafety

  /** No vote already cast is joined by a new confirmation from an earlier term. */
  ghost predicate AcksSettled(h: History, h': History) {
    forall k, t: nat :: k in h.grants && t < k.term ==> AckOf(h', t, k.node) == AckOf(h, t, k.node)
  }

  lemma ReignStaysOk(ids: set<NodeId>, h: History, h': History, t: nat)
    requires HistoryOk(ids, h) && Grows(h, h') && AcksSettled(h, h') && t in h.reigns
    ensures ReignOk(ids, h', t, h.reigns[t])
  {
    var r := h.reigns[t];
    assert ReignOk(ids, h, t, r);
    RootedGrows(h, h', r.log);
    forall v | v in r.voters && At(t, v) in h'.grants
      ensures 0 < t && Retains(h', v, h'.grants[At(t, v)].log, t, t - 1)
    {
      assert Granted(h, t, v, r.leader);
      RetainsGrows(ids, h, h', v, h.grants[At(t, v)].log, t, t - 1, t - 1);
    }
  }

  lemma GrantStaysOk(ids: set<NodeId>, h: History, h': History, k: At)
    requires HistoryOk(ids, h) && Grows(h, h') && AcksSettled(h, h') && k in h.grants
    ensures GrantOk(ids, h', k, h.grants[k])
  {
    var g := h.grants[k];
    assert GrantOk(ids, h, k, g);
    RootedGrows(h, h', g.log);
    RetainsGrows(ids, h, h', k.node, g.log, k.term, k.term, k.term);
  }

  lemma CampaignStaysOk(ids: set<NodeId>, h: History, h': History, k: At)
    requires HistoryOk(ids, h) && Grows(h, h') && k in h.campaigns
    ensures CampaignOk(ids, h', k, h.campaigns[k])
  {
    assert CampaignOk(ids, h, k, h.campaigns[k]);
    RootedGrows(h, h', h.campaigns[k]);
  }

  /** The history stays sound if whatever is new in it is. */
  lemma HistoryStaysOk(ids: set<NodeId>, h: History, h': History)
    requires HistoryOk(ids, h) && Grows(h, h') && AcksSettled(h, h')
    requires forall t :: t in h'.reigns && (t !in h.reigns || h'.reigns[t] != h.reigns[t]) ==> ReignOk(ids, h', t, h'.reigns[t])
    requires forall k :: k in h'.campaigns && k !in h.campaigns ==> CampaignOk(ids, h', k, h'.campaigns[k])
    requires forall k :: k in h'.grants && k !in h.grants ==> GrantOk(ids, h', k, h'.grants[k])
    requires forall k :: k in h'.acks ==> k.node in ids && h'.acks[k] <= |LogOf(h', k.term)|
    ensures HistoryOk(ids, h')
  {
    forall t | t in h'.reigns ensures ReignOk(ids, h', t, h'.reigns[t]) {
      if t in h.reigns && h'.reigns[t] == h.reigns[t] { ReignStaysOk(ids, h, h', t); }
    }
    forall k | k in h'.campaigns ensures CampaignOk(ids, h', k, h'.campaigns[k]) {
      if k in h.campaigns { CampaignStaysOk(ids, h, h', k); }
    }
    forall k | k in h'.grants ensures GrantOk(ids, h', k, h'.grants[k]) {
      if k in h.grants { GrantStaysOk(ids, h, h', k); }
    }
  }

  /** An action records nothing about any node but the one that acts. */
  lemma OthersSilent(s: State, a: Action, m: NodeId)
    requires Inv(s) && Enabled(s, a) && m != a.n
    ensures SilentOn(s.h, HistoryAfter(s, a), m)
  {
    assert NodeOk(s.ids, s.h, a.n, s.nodes[a.n]);
  }

  /** One action touches one node; the others keep what they had. */
  lemma Assemble(s: State, a: Action)
    requires Inv(s) && Enabled(s, a)
    requires Grows(s.h, HistoryAfter(s, a)) && HistoryOk(s.ids, HistoryAfter(s, a))
    requires NodeOk(s.ids, HistoryAfter(s, a), a.n, NodeAfter(s, a))
    ensures Inv(After(s, a))
  {
    var s' := After(s, a);
    forall m | m in s.ids ensures NodeOk(s'.ids, s'.h, m, s'.nodes[m]) {
      if m != a.n {
        assert NodeOk(s.ids, s.h, m, s.nodes[m]);
        OthersSilent(s, a, m);
        BystanderOk(s.ids, s.h, s'.h, m, s.nodes[m]);
      }
    }
  }

  lemma LearnKeeps(s: State, a: Action)
    requires Inv(s) && a.Learn? && Enabled(s, a)
    ensures Inv(After(s, a))
  {
    assert NodeOk(s.ids, s.h, a.n, s.nodes[a.n]);
    LogStaysOk(s.ids, s.h, s.h, a.n, s.nodes[a.n], NodeAfter(s, a));
    Assemble(s, a);
  }

  lemma CampaignHistory(s: State, a: Action)
    requires Inv(s) && a.Campaign? && Enabled(s, a)
    ensures Grows(s.h, HistoryAfter(s, a)) && HistoryOk(s.ids, HistoryAfter(s, a))
  {
    var h, h', nd, n := s.h, HistoryAfter(s, a), s.nodes[a.n], a.n;
    var t := nd.term + 1;
    assert NodeOk(s.ids, h, n, nd);
    RootedGrows(h, h', nd.log);
    RetainsGrows(s.ids, h, h', n, nd.log, t, nd.term, t);
    HistoryStaysOk(s.ids, h, h');
  }

  lemma CampaignKeeps(s: State, a: Action)
    requires Inv(s) && a.Campaign? && Enabled(s, a)
    ensures Inv(After(s, a))
  {
    CampaignHistory(s, a);
    assert NodeOk(s.ids, s.h, a.n, s.nodes[a.n]);
    LogStaysOk(s.ids, s.h, HistoryAfter(s, a), a.n, s.nodes[a.n], NodeAfter(s, a));
    Assemble(s, a);
  }

  lemma VoteHistory(s: State, a: Action)
    requires Inv(s) && a.Vote? && Enabled(s, a)
    ensures Grows(s.h, HistoryAfter(s, a)) && HistoryOk(s.ids, HistoryAfter(s, a))
  {
    var h, h', nd, n := s.h, HistoryAfter(s, a), s.nodes[a.n], a.n;
    var k := At(nd.term, n);
    if k !in h.grants {
      assert NodeOk(s.ids, h, n, nd);
      var kc := At(nd.term, a.candidate);
      assert CampaignOk(s.ids, h, kc, h.campaigns[kc]);
      RootedGrows(h, h', nd.log);
      RetainsGrows(s.ids, h, h', n, nd.log, nd.term + 1, nd.term, nd.term);
      forall u: nat, i: nat | u < nd.term && i <= AckOf(h', u, n) ensures Retained(h', nd.log, nd.term, u, i) {}
      HistoryStaysOk(s.ids, h, h');
    }
  }

  lemma VoteKeeps(s: State, a: Action)
    requires Inv(s) && a.Vote? && Enabled(s, a)
    ensures Inv(After(s, a))
  {
    VoteHistory(s, a);
    assert NodeOk(s.ids, s.h, a.n, s.nodes[a.n]);
    LogStaysOk(s.ids, s.h, HistoryAfter(s, a), a.n, s.nodes[a.n], NodeAfter(s, a));
    Assemble(s, a);
  }

  /** Raft section 5.2: a term that already has a leader cannot elect another. */
  lemma TermUnwon(s: State, n: NodeId, voters: set<NodeId>)
    requires Inv(s) && Enabled(s, Action.Win(n, voters))
    ensures s.nodes[n].term !in s.h.reigns
  {
    var t := s.nodes[n].term;
    assert NodeOk(s.ids, s.h, n, s.nodes[n]);
    if t in s.h.reigns {
      var r := s.h.reigns[t];
      assert ReignOk(s.ids, s.h, t, r);
      var v := QuorumsMeet(s.ids, voters, r.voters);
    }
  }

  lemma WonReignOk(s: State, a: Action)
    requires Inv(s) && a.Win? && Enabled(s, a)
    ensures var h' := HistoryAfter(s, a); var t := s.nodes[a.n].term;
            t in h'.reigns && ReignOk(s.ids, h', t, h'.reigns[t])
  {
    var h, h', nd, n := s.h, HistoryAfter(s, a), s.nodes[a.n], a.n;
    var t := nd.term;
    TermUnwon(s, n, a.voters);
    assert NodeOk(s.ids, h, n, nd);
    RootedGrows(h, h', nd.log);
    var r := h'.reigns[t];
    forall v | v in r.voters && At(t, v) in h'.grants
      ensures 0 < t && Retains(h', v, h'.grants[At(t, v)].log, t, t - 1)
    {
      var log := h.grants[At(t, v)].log;
      assert GrantOk(s.ids, h, At(t, v), h.grants[At(t, v)]);
      RetainsGrows(s.ids, h, h', v, log, t, t, t);
      forall u: nat, i: nat {:trigger Retained(h', log, t - 1, u, i)} | u < t && i <= AckOf(h', u, v) ensures Retained(h', log, t - 1, u, i) {
        assert Retained(h, log, t, u, i);
        RetainedGrows(h, h', log, t - 1, t - 1, u, i) by {
          if !Agree(log, LogOf(h, u), i) {
            var w :| u < w <= t && Lacks(h, u, w, i);
            assert w <= t - 1;
          }
        }
      }
    }
    forall v | v in r.voters ensures Granted(h', t, v, n) {
      assert Granted(h, t, v, n);
    }
  }

  lemma WinHistory(s: State, a: Action)
    requires Inv(s) && a.Win? && Enabled(s, a)
    ensures Grows(s.h, HistoryAfter(s, a)) && HistoryOk(s.ids, HistoryAfter(s, a))
  {
    TermUnwon(s, a.n, a.voters);
    assert NodeOk(s.ids, s.h, a.n, s.nodes[a.n]);
    WonReignOk(s, a);
    HistoryStaysOk(s.ids, s.h, HistoryAfter(s, a));
  }

  lemma WinnerRetains(s: State, a: Action)
    requires Inv(s) && a.Win? && Enabled(s, a)
    ensures var nd := s.nodes[a.n]; Retains(HistoryAfter(s, a), a.n, nd.log, nd.term + 1, nd.term)
  {
    var h, h', nd, n := s.h, HistoryAfter(s, a), s.nodes[a.n], a.n;
    var t := nd.term;
    WinHistory(s, a);
    assert NodeOk(s.ids, h, n, nd);
    forall u: nat, i: nat | u < t + 1 && i <= AckOf(h', u, n) ensures Retained(h', nd.log, t, u, i) {
      if u == t {
        TermUnwon(s, n, a.voters);
      } else {
        assert Retained(h, nd.log, t, u, i);
        RetainedGrows(h, h', nd.log, t, t, u, i);
      }
    }
  }

  lemma WinKeeps(s: State, a: Action)
    requires Inv(s) && a.Win? && Enabled(s, a)
    ensures Inv(After(s, a))
  {
    var h, h', nd, n := s.h, HistoryAfter(s, a), s.nodes[a.n], a.n;
    WinHistory(s, a);
    assert NodeOk(s.ids, h, n, nd);
    assert LogOk(s.ids, h', n, NodeAfter(s, a)) by {
      WinnerRetains(s, a);
      RootedGrows(h, h', nd.log);
      CommitKnownGrows(s.ids, h, h', nd.log, nd.term, nd.term, nd.commit);
    }
    assert RoleOk(h', n, NodeAfter(s, a));
    Assemble(s, a);
  }

  lemma TruncateKeeps(s: State, a: Action)
    requires Inv(s) && a.Truncate? && Enabled(s, a)
    ensures Inv(After(s, a))
  {
    var h, nd, k := s.h, s.nodes[a.n], a.len;
    var log := nd.log[..k];
    assert NodeOk(s.ids, h, a.n, nd);
    forall i | 0 <= i < |log| ensures log[i].term in h.reigns && Agree(log, LogOf(h, log[i].term), i + 1) {
      assert log[..i + 1] == nd.log[..i + 1];
    }
    forall t: nat, i: nat | t < nd.term + 1 && i <= AckOf(h, t, a.n) ensures Retained(h, log, nd.term, t, i) {
      assert Retained(h, nd.log, nd.term, t, i);
      if !exists u :: t < u <= nd.term && Lacks(h, t, u, i) {
        CutAbove(s, a, t, i);
        assert log[..i] == nd.log[..i];
      }
    }
    CommitBelowCut(s, a);
    if nd.commit != 0 {
      var t: nat, i: nat :| Chosen(s.ids, h, t, i) && t <= nd.term && nd.commit <= i && Agree(nd.log, LogOf(h, t), nd.commit);
      assert log[..nd.commit] == nd.log[..nd.commit];
    }
    Assemble(s, a);
  }

  /** A conflict with the leader of the node's term lies above whatever the node
      confirmed to an earlier leader and no later leader lacked. */
  lemma CutAbove(s: State, a: Action, t: nat, i: nat)
    requires Inv(s) && a.Truncate? && Enabled(s, a)
    requires var nd := s.nodes[a.n];
             t <= nd.term && Agree(nd.log, LogOf(s.h, t), i) && (t == nd.term || !Lacks(s.h, t, nd.term, i))
    ensures i <= a.len
  {
    var h, nd := s.h, s.nodes[a.n];
    assert ReignOk(s.ids, h, nd.term, h.reigns[nd.term]);
    if i > a.len {
      AgreeAt(nd.log, LogOf(h, t), i, a.len);
      if t != nd.term {
        AgreeAt(StartOf(h, nd.term), LogOf(h, t), i, a.len);
        AgreeAt(StartOf(h, nd.term), LogOf(h, nd.term), |StartOf(h, nd.term)|, a.len);
      }
    }
  }

  /** Raft never cuts off what it committed: a conflicting entry is above the commit index. */
  lemma CommitBelowCut(s: State, a: Action)
    requires Inv(s) && a.Truncate? && Enabled(s, a)
    ensures s.nodes[a.n].commit <= a.len
  {
    var h, nd := s.h, s.nodes[a.n];
    assert NodeOk(s.ids, h, a.n, nd);
    if nd.commit > a.len {
      var t: nat, i: nat :| Chosen(s.ids, h, t, i) && t <= nd.term && nd.commit <= i && Agree(nd.log, LogOf(h, t), nd.commit);
      SettledInLater(s.ids, h, t, i, nd.term);
      AgreeAt(LogOf(h, nd.term), LogOf(h, t), i, a.len);
      AgreeAt(nd.log, LogOf(h, t), nd.commit, a.len);
    }
  }

  lemma ExtendKeeps(s: State, a: Action)
    requires Inv(s) && a.Extend? && Enabled(s, a)
    ensures Inv(After(s, a))
  {
    var h, nd, k := s.h, s.nodes[a.n], a.len;
    assert NodeOk(s.ids, h, a.n, nd);
    if nd.term in h.reigns {
      var full := LogOf(h, nd.term);
      var log := full[..k];
      assert ReignOk(s.ids, h, nd.term, h.reigns[nd.term]);
      forall i | 0 <= i < |log|
        ensures log[i].term in h.reigns && Agree(log, LogOf(h, log[i].term), i + 1) && log[i].term <= nd.term
      {
        assert log[..i + 1] == full[..i + 1];
        ReignTerms(s.ids, h, nd.term, i);
      }
      assert forall j :: 0 <= j <= |nd.log| ==> log[..j] == full[..|nd.log|][..j] == nd.log[..j];
      forall t: nat, i: nat | t < nd.term + 1 && i <= AckOf(h, t, a.n) ensures Retained(h, log, nd.term, t, i) {
        assert Retained(h, nd.log, nd.term, t, i);
      }
    }
    Assemble(s, a);
  }

  lemma AppendHistory(s: State, a: Action)
    requires Inv(s) && a.Append? && Enabled(s, a)
    ensures Grows(s.h, HistoryAfter(s, a)) && HistoryOk(s.ids, HistoryAfter(s, a))
  {
    AppendGrows(s, a);
    AppendedReignOk(s, a);
    assert NodeOk(s.ids, s.h, a.n, s.nodes[a.n]);
    HistoryStaysOk(s.ids, s.h, HistoryAfter(s, a));
  }

  lemma AppendGrows(s: State, a: Action)
    requires Inv(s) && a.Append? && Enabled(s, a)
    ensures Grows(s.h, HistoryAfter(s, a)) && AcksSettled(s.h, HistoryAfter(s, a))
  {
    assert NodeOk(s.ids, s.h, a.n, s.nodes[a.n]);
    assert Agree(s.nodes[a.n].log, NodeAfter(s, a).log, |s.nodes[a.n].log|);
  }

  /** The leader's own reign, with the entry it appended. */
  lemma AppendedReignOk(s: State, a: Action)
    requires Inv(s) && a.Append? && Enabled(s, a) && Grows(s.h, HistoryAfter(s, a))
    ensures var h', t := HistoryAfter(s, a), s.nodes[a.n].term; ReignOk(s.ids, h', t, h'.reigns[t])
  {
    var h, h', nd := s.h, HistoryAfter(s, a), s.nodes[a.n];
    var t, log := nd.term, NodeAfter(s, a).log;
    assert NodeOk(s.ids, h, a.n, nd);
    ReignStaysOk(s.ids, h, h', t);
    AppendedRooted(s, a);
    assert Agree(nd.log, log, |nd.log|);
    AgreeShorter(nd.log, log, |nd.log|, |h.reigns[t].start|);
  }

  lemma AppendedRooted(s: State, a: Action)
    requires Inv(s) && a.Append? && Enabled(s, a) && Grows(s.h, HistoryAfter(s, a))
    ensures Rooted(HistoryAfter(s, a), NodeAfter(s, a).log)
  {
    var h, h', nd := s.h, HistoryAfter(s, a), s.nodes[a.n];
    var log := NodeAfter(s, a).log;
    assert NodeOk(s.ids, h, a.n, nd);
    RootedGrows(h, h', nd.log);
    forall i | 0 <= i < |log| ensures log[i].term in h'.reigns && Agree(log, LogOf(h', log[i].term), i + 1) {
      if i < |nd.log| {
        assert log[..i + 1] == nd.log[..i + 1];
      }
    }
  }

  lemma AppenderRetains(s: State, a: Action)
    requires Inv(s) && a.Append? && Enabled(s, a) && Grows(s.h, HistoryAfter(s, a))
    ensures var nd' := NodeAfter(s, a); Retains(HistoryAfter(s, a), a.n, nd'.log, nd'.term + 1, nd'.term)
  {
    var h, h', nd, nd', n := s.h, HistoryAfter(s, a), s.nodes[a.n], NodeAfter(s, a), a.n;
    assert NodeOk(s.ids, h, n, nd);
    forall u: nat, i: nat | u < nd.term + 1 && i <= AckOf(h', u, n) ensures Retained(h', nd'.log, nd.term, u, i) {
      if u < nd.term {
        assert Retained(h, nd.log, nd.term, u, i);
        RetainedGrows(h, h', nd.log, nd.term, nd.term, u, i);
        if i <= |nd.log| { assert nd'.log[..i] == nd.log[..i]; }
      }
    }
  }

  lemma LongerCommitKnown(ids: set<NodeId>, h: History, log: Log, log': Log, term: nat, c: nat)
    requires Agree(log, log', |log|) && CommitKnown(ids, h, log, term, c)
    ensures CommitKnown(ids, h, log', term, c)
  {
    if c != 0 {
      var t: nat, i: nat :| Chosen(ids, h, t, i) && t <= term && c <= i && Agree(log, LogOf(h, t), c);
      AgreeShorter(log, log', |log|, c);
    }
  }

  lemma AppendedLogOk(s: State, a: Action)
    requires Inv(s) && a.Append? && Enabled(s, a) && Grows(s.h, HistoryAfter(s, a))
    ensures LogOk(s.ids, HistoryAfter(s, a), a.n, NodeAfter(s, a))
  {
    var h, h', nd, nd' := s.h, HistoryAfter(s, a), s.nodes[a.n], NodeAfter(s, a);
    assert NodeOk(s.ids, h, a.n, nd);
    AppendedRooted(s, a);
    AppenderRetains(s, a);
    CommitKnownGrows(s.ids, h, h', nd.log, nd.term, nd.term, nd.commit);
    LongerCommitKnown(s.ids, h', nd.log, nd'.log, nd.term, nd.commit);
  }

  lemma AppendKeeps(s: State, a: Action)
    requires Inv(s) && a.Append? && Enabled(s, a)
    ensures Inv(After(s, a))
  {
    AppendHistory(s, a);
    AppendedLogOk(s, a);
    assert NodeOk(s.ids, s.h, a.n, s.nodes[a.n]);
    assert RoleOk(HistoryAfter(s, a), a.n, NodeAfter(s, a));
    Assemble(s, a);
  }

  lemma AckHistory(s: State, a: Action)
    requires Inv(s) && a.Ack? && Enabled(s, a)
    ensures Grows(s.h, HistoryAfter(s, a)) && HistoryOk(s.ids, HistoryAfter(s, a))
  {
    assert NodeOk(s.ids, s.h, a.n, s.nodes[a.n]);
    HistoryStaysOk(s.ids, s.h, HistoryAfter(s, a));
  }

  lemma AckerRetains(s: State, a: Action)
    requires Inv(s) && a.Ack? && Enabled(s, a) && Grows(s.h, HistoryAfter(s, a))
    ensures var nd := s.nodes[a.n]; Retains(HistoryAfter(s, a), a.n, nd.log, nd.term + 1, nd.term)
  {
    var h, h', nd, n := s.h, HistoryAfter(s, a), s.nodes[a.n], a.n;
    assert NodeOk(s.ids, h, n, nd);
    forall u: nat, i: nat | u < nd.term + 1 && i <= AckOf(h', u, n) ensures Retained(h', nd.log, nd.term, u, i) {
      if i <= AckOf(h, u, n) {
        assert Retained(h, nd.log, nd.term, u, i);
        RetainedGrows(h, h', nd.log, nd.term, nd.term, u, i);
      } else {
        AgreeShorter(nd.log, LogOf(h, nd.term), a.len, i);
      }
    }
  }

  lemma AckKeeps(s: State, a: Action)
    requires Inv(s) && a.Ack? && Enabled(s, a)
    ensures Inv(After(s, a))
  {
    var h, h', nd, n := s.h, HistoryAfter(s, a), s.nodes[a.n], a.n;
    AckHistory(s, a);
    assert NodeOk(s.ids, h, n, nd);
    assert LogOk(s.ids, h', n, nd) by {
      AckerRetains(s, a);
      RootedGrows(h, h', nd.log);
      CommitKnownGrows(s.ids, h, h', nd.log, nd.term, nd.term, nd.commit);
    }
    Assemble(s, a);
  }

  lemma CommitKeeps(s: State, a: Action)
    requires Inv(s) && (a.Commit? || a.Demote?) && Enabled(s, a)
    ensures Inv(After(s, a))
  {
    var nd := s.nodes[a.n];
    assert NodeOk(s.ids, s.h, a.n, nd);
    if a.Demote? && a.commit != 0 {
      var t: nat, i: nat :| Chosen(s.ids, s.h, t, i) && t <= nd.term && nd.commit <= i && Agree(nd.log, LogOf(s.h, t), nd.commit);
      AgreeShorter(nd.log, LogOf(s.h, t), nd.commit, a.commit);
    }
    Assemble(s, a);
  }

  lemma HistoryGrows(s: State, a: Action)
    requires Inv(s) && Enabled(s, a)
    ensures Grows(s.h, HistoryAfter(s, a))
  {
    match a
    case Campaign(_) => CampaignHistory(s, a);
    case Vote(_, _) => VoteHistory(s, a);
    case Win(_, _) => WinHistory(s, a);
    case Append(_, _) => AppendHistory(s, a);
    case Ack(_, _) => AckHistory(s, a);
    case _ =>
  }

  lemma ActionKeeps(s: State, a: Action)
    requires Inv(s) && Enabled(s, a)
    ensures Inv(After(s, a)) && Grows(s.h, After(s, a).h)
  {
    HistoryGrows(s, a);
    match a
    case Learn(_, _, _) => LearnKeeps(s, a);
    case Campaign(_) => CampaignKeeps(s, a);
    case Vote(_, _) => VoteKeeps(s, a);
    case Win(_, _) => WinKeeps(s, a);
    case Append(_, _) => AppendKeeps(s, a);
    case Truncate(_, _) => TruncateKeeps(s, a);
    case Extend(_, _) => ExtendKeeps(s, a);
    case Ack(_, _) => AckKeeps(s, a);
    case Commit(_, _, _, _) => CommitKeeps(s, a);
    case Demote(_, _) => CommitKeeps(s, a);
  }

  lemma InitOk(s: State)
    requires IsInit(s)
    ensures Inv(s)
  {
    forall n | n in s.ids ensures NodeOk(s.ids, s.h, n, s.nodes[n]) {}
  }

  lemma GrowsTransitive(h: History, h': History, h'': History)
    requires Grows(h, h') && Grows(h', h'')
    ensures Grows(h, h'')
  {
    forall t | t in h.reigns ensures t in h''.reigns && ReignGrows(h.reigns[t], h''.reigns[t]) {
      AgreeShorter(h'.reigns[t].log, h''.reigns[t].log, |h'.reigns[t].log|, |h.reigns[t].log|);
    }
  }

  /** Along any run of abstract Raft the invariants hold and the history only grows. */
  lemma {:induction false} RunKeeps(s: State, acts: seq<Action>, s': State)
    requires Inv(s) && Steps(s, acts, s')
    ensures Inv(s') && Grows(s.h, s'.h) && s'.ids == s.ids
    decreases |acts|
  {
    if acts != [] {
      ActionKeeps(s, acts[0]);
      RunKeeps(After(s, acts[0]), acts[1..], s');
      GrowsTransitive(s.h, After(s, acts[0]).h, s'.h);
    }
  }
}
