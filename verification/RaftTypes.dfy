/** Values shared by the engine, the browser simulator and the abstract protocol. */
module RaftTypes {

  type NodeId = nat

  newtype byte = b: int | 0 <= b < 256

  datatype Option<+T> = None | Some(value: T)

  datatype Role = Follower | Candidate | Leader

  /** What an entry carries besides its term: the engine's index and command bytes,
      or the simulator's bare number. The protocol never looks inside. */
  datatype Data = Record(index: nat, command: seq<byte>) | Value(number: nat)

  datatype Entry = Entry(term: nat, data: Data)

  /** Position i of a log holds the entry with index i + 1. */
  type Log = seq<Entry>

  /** One committed storage transaction; lengths leave the sentinel out. */
  datatype Write = SaveTerm(term: nat) | SaveVote(vote: Option<NodeId>) | AppendLog(entries: Log) | TruncateLog(len: nat)

  function LastTerm(log: Log): nat {
    if log == [] then 0 else log[|log| - 1].term
  }

  /** Raft section 5.4.1: a later last term wins, then the longer log. */
  predicate UpToDate(lastTerm: nat, lastIndex: nat, log: Log) {
    lastTerm > LastTerm(log) || (lastTerm == LastTerm(log) && lastIndex >= |log|)
  }

  /** Both logs reach length `len` and are equal that far. */
  predicate Agree(a: Log, b: Log, len: nat) {
    len <= |a| && len <= |b| && a[..len] == b[..len]
  }

  predicate IsQuorum(ids: set<NodeId>, q: set<NodeId>) {
    q <= ids && |q| >= |ids| / 2 + 1
  }

  function Min(a: nat, b: nat): nat { if a < b then a else b }

  function Max(a: nat, b: nat): nat { if a < b then b else a }

  lemma SubsetSize<T>(a: set<T>, b: set<T>)
    requires a <= b
    ensures |a| <= |b|
  {
    assert b == a + (b - a);
  }

  /** Any two quorums share a node. */
  lemma QuorumsMeet(ids: set<NodeId>, p: set<NodeId>, q: set<NodeId>) returns (m: NodeId)
    requires IsQuorum(ids, p) && IsQuorum(ids, q)
    ensures m in p && m in q
  {
    SubsetSize(p + q, ids);
    assert |p * q| == |p| + |q| - |p + q|;
    assert p * q != {};
    m :| m in p * q;
  }

  lemma AgreeShorter(a: Log, b: Log, len: nat, k: nat)
    requires Agree(a, b, len) && k <= len
    ensures Agree(a, b, k)
  {
    assert a[..k] == a[..len][..k] == b[..len][..k] == b[..k];
  }

  /** A slice of a log is the same slice of any log that extends it. */
  lemma SliceOfPrefix(a: Log, b: Log, len: nat, lo: nat, hi: nat)
    requires Agree(a, b, len) && lo <= hi <= len
    ensures a[lo..hi] == b[lo..hi]
  {
    forall k | lo <= k < hi ensures a[k] == b[k] { AgreeAt(a, b, len, k); }
  }

  lemma AgreeAt(a: Log, b: Log, len: nat, i: nat)
    requires Agree(a, b, len) && i < len
    ensures a[i] == b[i]
  {
    assert a[i] == a[..len][i] == b[..len][i] == b[i];
  }
}
