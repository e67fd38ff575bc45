/** Runs of abstract Raft as an implementation's steps build them up, one action at a time. */
module AbstractRuns {
  import opened RaftTypes
  import opened AbstractRaft
  import opened AbstractInvariants
  import opened AbstractPreservation

  lemma {:induction false} StepsThen(s: State, acts: seq<Action>, s1: State, a: Action)
    requires Steps(s, acts, s1) && Enabled(s1, a)
    ensures Steps(s, acts + [a], After(s1, a))
    decreases |acts|
  {
    if acts == [] {
      assert Steps(After(s, a), [], After(s, a));
      assert acts + [a] == [a] && [a][1..] == [];
    } else {
      StepsThen(After(s, acts[0]), acts[1..], s1, a);
      assert (acts + [a])[1..] == acts[1..] + [a];
    }
  }

  lemma {:induction false} StepsJoin(s: State, acts: seq<Action>, s1: State, more: seq<Action>, s2: State)
    requires Steps(s, acts, s1) && Steps(s1, more, s2)
    ensures Steps(s, acts + more, s2)
    decreases |acts|
  {
    if acts == [] {
      assert acts + more == more;
    } else {
      StepsJoin(After(s, acts[0]), acts[1..], s1, more, s2);
      assert (acts + more)[1..] == acts[1..] + more;
    }
  }

  /** s' is reached from s by actions of node n alone. */
  ghost predicate Path(s: State, s': State, n: NodeId) {
    && Inv(s) && Inv(s') && Leads(s, s') && Grows(s.h, s'.h) && s'.ids == s.ids
    && n in s.ids && n in s'.nodes
    && s'.nodes == s.nodes[n := s'.nodes[n]]
  }

  lemma Stay(s: State, n: NodeId)
    requires Inv(s) && n in s.ids
    ensures Path(s, s, n)
  {
    assert Steps(s, [], s);
    forall t | t in s.h.reigns ensures ReignGrows(s.h.reigns[t], s.h.reigns[t]) {}
  }

  lemma Do(s: State, s1: State, n: NodeId, a: Action)
    requires Path(s, s1, n) && a.n == n && Enabled(s1, a)
    ensures Path(s, After(s1, a), n) && Grows(s1.h, After(s1, a).h)
  {
    var acts :| Steps(s, acts, s1);
    StepsThen(s, acts, s1, a);
    ActionKeeps(s1, a);
    GrowsTransitive(s.h, s1.h, After(s1, a).h);
  }
}
