/** The operations the engine issues are ones on which the two storage backends agree. */
module EngineStorage {
  import opened RaftTypes
  import opened Engine
  import opened EngineCluster
  import opened EngineRelation
  import opened EngineSafety
  import opened EngineSteps
  import opened StoreContract
  import opened StorageAgreement
  import A = AbstractRaft

  /** A transaction as an operation on the stored sequence, sentinel included. */
  function OpOf(w: Write): Op {
    match w
    case SaveTerm(t) => PutTerm(t)
    case SaveVote(v) => PutVote(v)
    case AppendLog(es) => Append(es)
    case TruncateLog(len) => Truncate(len + 1)
  }

  function OpsOf(ws: seq<Write>): seq<Op>
    decreases |ws|
  {
    if ws == [] then [] else [OpOf(ws[0])] + OpsOf(ws[1..])
  }

  ghost predicate AllShaped(entries: Log, ops: seq<Op>)
    decreases |ops|
  {
    ops == [] || (Shaped(entries, ops[0]) && AllShaped(LogAfter(entries, ops[0]), ops[1..]))
  }

  ghost predicate AllHave64Bits(entries: Log, ops: seq<Op>)
    decreases |ops|
  {
    ops == [] || (Has64Bits(entries, ops[0]) && AllHave64Bits(LogAfter(entries, ops[0]), ops[1..]))
  }

  lemma {:induction false} ShapedArePossible(entries: Log, ops: seq<Op>)
    requires AllShaped(entries, ops) && AllHave64Bits(entries, ops)
    ensures AllPossible(entries, ops)
    decreases |ops|
  {
    if ops != [] { ShapedArePossible(LogAfter(entries, ops[0]), ops[1..]); }
  }

  function Stored(log: Log): Log { [SENTINEL] + log }

  lemma OneShaped(entries: Log, w: Write)
    requires Shaped(entries, OpOf(w))
    ensures AllShaped(entries, OpsOf([w]))
  {
    assert OpsOf([w]) == [OpOf(w)];
  }

  lemma TwoShaped(entries: Log, v: Write, w: Write)
    requires Shaped(entries, OpOf(v)) && Shaped(LogAfter(entries, OpOf(v)), OpOf(w))
    ensures AllShaped(entries, OpsOf([v, w]))
  {
    assert [v, w][1..] == [w];
    assert OpsOf([v, w]) == [OpOf(v)] + OpsOf([w]);
    assert OpsOf([v, w])[1..] == OpsOf([w]);
    OneShaped(LogAfter(entries, OpOf(v)), w);
  }

  /** Terms and votes leave the log alone. */
  lemma {:induction false} MetaFirst(entries: Log, meta: seq<Write>, ws: seq<Write>)
    requires forall w :: w in meta ==> w.SaveTerm? || w.SaveVote?
    requires AllShaped(entries, OpsOf(ws))
    ensures AllShaped(entries, OpsOf(meta + ws))
    decreases |meta|
  {
    if meta == [] {
      assert meta + ws == ws;
    } else {
      MetaFirst(entries, meta[1..], ws);
      assert (meta + ws)[1..] == meta[1..] + ws;
      assert OpsOf(meta + ws) == [OpOf(meta[0])] + OpsOf(meta[1..] + ws);
      assert OpsOf(meta + ws)[1..] == OpsOf(meta[1..] + ws);
    }
  }

  lemma MetaShaped(entries: Log, meta: seq<Write>)
    requires forall w :: w in meta ==> w.SaveTerm? || w.SaveVote?
    ensures AllShaped(entries, OpsOf(meta))
  {
    MetaFirst(entries, meta, []);
    assert meta + [] == meta;
  }

  /** The entries carry the indices from prev + 1 on. */
  ghost predicate Numbered(entries: Log, prev: nat) {
    forall k :: 0 <= k < |entries| ==> entries[k].data.Record? && entries[k].data.index == prev + k + 1
  }

  lemma RestContinues(log: Log, prev: nat, entries: Log, k: nat)
    requires Numbered(entries, prev) && k <= |entries| && prev + k <= |log|
    ensures Continues(Stored(log[..prev + k]), entries[k..])
  {
    forall d | 0 <= d < |entries[k..]|
      ensures entries[k..][d].data.Record? && entries[k..][d].data.index == |Stored(log[..prev + k])| + d
    {
      assert entries[k..][d] == entries[k + d];
    }
  }

  lemma MergeShaped(log: Log, prev: nat, entries: Log, fault: Fault)
    requires prev <= |log| && Numbered(entries, prev)
    ensures AllShaped(Stored(log), OpsOf(Merge(log, prev, entries, fault).1))
  {
    var k, ws := Matching(log, prev, entries), Merge(log, prev, entries, fault).1;
    if k < |entries| && prev + k <= |log| {
      RestContinues(log, prev, entries, k);
      var cut := TruncateLog(prev + k);
      if prev + k == |log| {
        assert log[..prev + k] == log;
        if ws != [] { OneShaped(Stored(log), AppendLog(entries[k..])); }
      } else {
        assert LogAfter(Stored(log), OpOf(cut)) == Stored(log[..prev + k]);
        OneShaped(Stored(log), cut);
        TwoShaped(Stored(log), cut, AppendLog(entries[k..]));
      }
    }
  }

  /** What a request of a run carries is numbered from its previous index on. */
  lemma RequestNumbered(cfg: Config, c: Cluster, s: A.State, id: CallId)
    requires Related(cfg, c, s) && id in c.calls && c.calls[id].req.AppendReq?
    ensures Numbered(c.calls[id].req.entries, c.calls[id].req.prevIndex)
  {
    var call := c.calls[id];
    assert CallOk(cfg, s.h, id, call);
    var full := A.LogOf(s.h, call.req.term);
    assert Indexed(full);
  }

  lemma AppendShaped(decode: Decoder, sv: Server, from: NodeId, req: Request, now: nat, fault: Fault)
    requires req.AppendReq? && Numbered(req.entries, req.prevIndex)
    ensures AllShaped(Stored(sv.log), OpsOf(OnAppendRequest(decode, sv, from, req, now, fault).writes))
  {
    var meta := CheckTermWrites(sv, req.term);
    MetaShaped(Stored(sv.log), meta);
    if req.term >= sv.term && Consistent(sv.log, req.prevIndex, req.prevTerm) {
      MergeShaped(sv.log, req.prevIndex, req.entries, fault);
      MetaFirst(Stored(sv.log), meta, Merge(sv.log, req.prevIndex, req.entries, fault).1);
    }
  }

  lemma OwnShaped(sv: Server, command: seq<byte>)
    ensures AllShaped(Stored(sv.log), OpsOf([AppendLog([OwnEntry(sv, command)])]))
  {
    OneShaped(Stored(sv.log), AppendLog([OwnEntry(sv, command)]));
  }

  lemma LeadShaped(decode: Decoder, sv: Server, peers: set<NodeId>, fault: Fault)
    ensures AllShaped(Stored(sv.log), OpsOf(BecomeLeader(decode, sv, peers, fault).writes))
  {
    OwnShaped(sv, []);
  }

  lemma CampaignShaped(decode: Decoder, sv: Server, me: NodeId, peers: set<NodeId>, fault: Fault)
    ensures AllShaped(Stored(sv.log), OpsOf(CampaignOf(decode, sv, me, peers, fault).writes))
  {
    var sv1 := sv.(term := sv.term + 1, role := Candidate, vote := Some(me), leader := None, votes := 1);
    var meta := [SaveTerm(sv1.term), SaveVote(Some(me))];
    MetaShaped(Stored(sv.log), meta);
    LeadShaped(decode, sv1, peers, fault);
    MetaFirst(Stored(sv.log), meta, BecomeLeader(decode, sv1, peers, fault).writes);
  }

  lemma ReadShaped(cfg: Config, c: Cluster, e: Event)
    requires EngineCluster.Possible(cfg, c, e) && e.Read?
    ensures AllShaped(Stored(c.servers[Actor(c, e)].log), OpsOf(Handled(cfg, c, e).writes))
  {
    var n, call := Actor(c, e), c.calls[e.id];
    var sv, ps := c.servers[n], Peers(cfg, Actor(c, e));
    MetaShaped(Stored(sv.log), CheckTermWrites(sv, call.reply.value.term));
    LeadShaped(cfg.decode, Counted(sv), ps, e.fault);
    CampaignShaped(cfg.decode, sv, n, ps, e.fault);
  }

  /** In any run, whatever a handler writes is contiguous appends and cuts above the sentinel of
      the log it finds in storage; within 64 bits the two backends agree on all of it. */
  lemma EngineAsksThePossible(cfg: Config, run: seq<Cluster>, i: nat, e: Event)
    requires IsRun(cfg, run) && i < |run| && EngineCluster.Possible(cfg, run[i], e)
    ensures var log, ops := run[i].servers[Actor(run[i], e)].log, OpsOf(Handled(cfg, run[i], e).writes);
            AllShaped(Stored(log), ops) && (AllHave64Bits(Stored(log), ops) ==> AllPossible(Stored(log), ops))
  {
    var c, n := run[i], Actor(run[i], e);
    var sv := c.servers[n];
    match e {
      case Timeout(_, fault) => CampaignShaped(cfg.decode, sv, n, {}, fault);
      case Client(_, command, _) => OwnShaped(sv, command);
      case Heartbeat(_) =>
      case Read(_, _) => ReadShaped(cfg, c, e);
      case Serve(id, fault) =>
        var call := c.calls[id];
        if call.req.AppendReq? {
          var abs := EngineRefinesRaft(cfg, run);
          assert RelatedAt(cfg, run, abs, i);
          RequestNumbered(cfg, c, abs[i], id);
          AppendShaped(cfg.decode, sv, call.from, call.req, c.now, fault);
        } else if call.req.VoteReq? {
          MetaShaped(Stored(sv.log), OnVoteRequest(sv, call.from, call.req).writes);
        }
    }
    var ops := OpsOf(Handled(cfg, c, e).writes);
    if AllHave64Bits(Stored(sv.log), ops) { ShapedArePossible(Stored(sv.log), ops); }
  }
}
