/** The two storage backends. Both keep one sequence of entries, sentinel first, and
    state every operation as the same function of that sequence. */
module BigEndian {
  import opened RaftTypes

  const UINT64_LIMIT: nat := 0x1_0000_0000_0000_0000

  function Pow256(width: nat): nat {
    if width == 0 then 1 else 256 * Pow256(width - 1)
  }

  /** The lowest `width` bytes of n, most significant first. */
  function Encode(n: nat, width: nat): (bytes: seq<byte>)
    ensures |bytes| == width
  {
    if width == 0 then [] else Encode(n / 256, width - 1) + [(n % 256) as byte]
  }

  function Decode(bytes: seq<byte>): nat {
    if bytes == [] then 0 else 256 * Decode(bytes[..|bytes| - 1]) + bytes[|bytes| - 1] as nat
  }

  function Uint64ToBytes(n: nat): seq<byte> { Encode(n, 8) }

  /** Short input reads as 0, long input by its first eight bytes. */
  function BytesToUint64(bytes: seq<byte>): nat {
    if |bytes| < 8 then 0 else Decode(bytes[..8])
  }

  /** Byte order, as the database sorts its keys: a proper prefix comes first. */
  predicate Before(a: seq<byte>, b: seq<byte>)
    decreases |a|
  {
    b != [] && (a == [] || a[0] < b[0] || (a[0] == b[0] && Before(a[1..], b[1..])))
  }

  lemma Pow256Of8()
    ensures Pow256(8) == UINT64_LIMIT
  {
    assert Pow256(4) == 256 * 256 * 256 * 256;
    assert Pow256(8) == 256 * 256 * 256 * 256 * Pow256(4);
  }

  lemma {:induction false} DecodeEncode(n: nat, width: nat)
    requires n < Pow256(width)
    ensures Decode(Encode(n, width)) == n
  {
    if width != 0 {
      var b := Encode(n, width);
      assert b[..width - 1] == Encode(n / 256, width - 1);
      DecodeEncode(n / 256, width - 1);
    }
  }

  /** A log index survives its trip through the database key. */
  lemma RoundTrip(n: nat)
    requires n < UINT64_LIMIT
    ensures BytesToUint64(Uint64ToBytes(n)) == n
  {
    Pow256Of8();
    DecodeEncode(n, 8);
    assert Encode(n, 8)[..8] == Encode(n, 8);
  }

  /** Comparing equal-length keys goes by everything but the last byte first. */
  lemma {:induction false} BeforeByPrefix(a: seq<byte>, b: seq<byte>, x: byte, y: byte)
    requires |a| == |b|
    ensures Before(a + [x], b + [y]) <==> Before(a, b) || (a == b && x < y)
    decreases |a|
  {
    if a == [] {
      assert a + [x] == [x] && b + [y] == [y];
    } else {
      assert (a + [x])[1..] == a[1..] + [x] && (b + [y])[1..] == b[1..] + [y];
      assert a == [a[0]] + a[1..] && b == [b[0]] + b[1..];
      BeforeByPrefix(a[1..], b[1..], x, y);
    }
  }

  lemma {:induction false} OrderAtWidth(m: nat, n: nat, width: nat)
    requires m < Pow256(width) && n < Pow256(width)
    ensures Before(Encode(m, width), Encode(n, width)) <==> m < n
    ensures Encode(m, width) == Encode(n, width) <==> m == n
  {
    if width != 0 {
      OrderAtWidth(m / 256, n / 256, width - 1);
      BeforeByPrefix(Encode(m / 256, width - 1), Encode(n / 256, width - 1), (m % 256) as byte, (n % 256) as byte);
      DecodeEncode(m, width);
      DecodeEncode(n, width);
    }
  }

  /** Byte order of the keys is numeric order of the indices. */
  lemma KeyOrder(m: nat, n: nat)
    requires m < UINT64_LIMIT && n < UINT64_LIMIT
    ensures Before(Uint64ToBytes(m), Uint64ToBytes(n)) <==> m < n
    ensures Uint64ToBytes(m) == Uint64ToBytes(n) <==> m == n
  {
    Pow256Of8();
    OrderAtWidth(m, n, 8);
  }
}

/** What every backend answers, as functions of the stored sequence. Position i holds
    the entry with index i; position 0 is the sentinel. */
module StoreContract {
  import opened RaftTypes

  const SENTINEL := Entry(0, Record(0, []))

  function EntryAt(entries: Log, i: nat): Option<Entry> {
    if i < |entries| then Some(entries[i]) else None
  }

  function EntriesFrom(entries: Log, i: nat): Log {
    if i < |entries| then entries[i..] else []
  }

  function Truncated(entries: Log, i: nat): Log {
    if i < |entries| then entries[..i] else entries
  }

  /** Entries the engine appends carry on where the log ends. */
  predicate Continues(entries: Log, more: Log) {
    forall k :: 0 <= k < |more| ==> more[k].data.Record? && more[k].data.index == |entries| + k
  }
}

module MemoryStorage {
  import opened RaftTypes
  import opened StoreContract
  import opened BigEndian

  class MemoryStore {
    var term: nat
    var votedFor: Option<NodeId>
    var entries: Log
    /** The transactions in the order they were committed. */
    ghost var journal: seq<Write>

    constructor ()
      ensures term == 0 && votedFor == None && entries == [SENTINEL] && journal == []
    {
      term, votedFor, entries, journal := 0, None, [SENTINEL], [];
    }

    method SaveTerm(t: nat)
      modifies this`term, this`journal
      ensures term == t && journal == old(journal) + [Write.SaveTerm(t)]
    {
      term := t;
      journal := journal + [Write.SaveTerm(t)];
    }

    method SaveVotedFor(v: Option<NodeId>)
      modifies this`votedFor, this`journal
      ensures votedFor == v && journal == old(journal) + [Write.SaveVote(v)]
    {
      votedFor := v;
      journal := journal + [Write.SaveVote(v)];
    }

    method AppendEntries(more: Log)
      modifies this`entries, this`journal
      ensures entries == old(entries) + more && journal == old(journal) + [Write.AppendLog(more)]
    {
      entries := entries + more;
      journal := journal + [Write.AppendLog(more)];
    }

    method GetEntry(i: nat) returns (e: Option<Entry>)
      ensures e == EntryAt(entries, i)
    {
      if i >= |entries| { return None; }
      return Some(entries[i]);
    }

    method GetEntriesFrom(i: nat) returns (es: Log)
      ensures es == EntriesFrom(entries, i)
    {
      if i >= |entries| { return []; }
      es := entries[i..];
    }

    /** The journal counts kept entries without the sentinel. */
    method TruncateFrom(i: nat)
      modifies this`entries, this`journal
      ensures entries == Truncated(old(entries), i)
      ensures i > 0 ==> journal == old(journal) + [Write.TruncateLog(i - 1)]
    {
      if i < |entries| { entries := entries[..i]; }
      if i > 0 { journal := journal + [Write.TruncateLog(i - 1)]; }
    }

    method LoadTerm() returns (t: nat)
      ensures t == term
    {
      t := term;
    }

    method LoadVotedFor() returns (v: Option<NodeId>)
      ensures v == votedFor
    {
      v := votedFor;
    }

    /** Without even a sentinel the unsigned subtraction wraps around. */
    method LastIndex() returns (i: nat)
      ensures i == if entries == [] then UINT64_LIMIT - 1 else |entries| - 1
    {
      i := if |entries| == 0 then UINT64_LIMIT - 1 else |entries| - 1;
    }

    method LastTerm() returns (t: nat)
      ensures t == RaftTypes.LastTerm(entries)
    {
      if |entries| == 0 { return 0; }
      t := entries[|entries| - 1].term;
    }

    method LoadAllEntries() returns (es: Log)
      ensures es == entries
    {
      es := entries;
    }
  }
}

module BboltStorage {
  import opened RaftTypes
  import opened BigEndian
  import opened StoreContract

  type Key = seq<byte>

  lemma {:induction false} BeforeTotal(a: Key, b: Key)
    ensures Before(a, b) || a == b || Before(b, a)
    decreases |a|
  {
    if a != [] && b != [] && a[0] == b[0] {
      BeforeTotal(a[1..], b[1..]);
      assert a == [a[0]] + a[1..] && b == [b[0]] + b[1..];
    }
  }

  lemma {:induction false} BeforeTransitive(a: Key, b: Key, c: Key)
    requires Before(a, b) && Before(b, c)
    ensures Before(a, c)
    decreases |a|
  {
    if a != [] && a[0] == b[0] && b[0] == c[0] {
      BeforeTransitive(a[1..], b[1..], c[1..]);
    }
  }

  /** The bucket holds exactly these entries, each under the key of its position. */
  ghost predicate Stores(bucket: map<Key, Entry>, entries: Log) {
    && |entries| <= UINT64_LIMIT
    && (forall i {:trigger Uint64ToBytes(i)} :: 0 <= i < |entries| ==>
          Uint64ToBytes(i) in bucket && bucket[Uint64ToBytes(i)] == entries[i] && entries[i].data.Record? && entries[i].data.index == i)
    && (forall k :: k in bucket ==> exists i :: 0 <= i < |entries| && k == Uint64ToBytes(i))
  }

  /** Where a cursor stands: the least key that is at least `from`, or beyond it. */
  ghost predicate IsNext(bucket: map<Key, Entry>, from: Key, inclusive: bool, k: Option<Key>) {
    match k
    case None => forall x :: x in bucket ==> Before(x, from) || (x == from && !inclusive)
    case Some(key) =>
      && key in bucket && (Before(from, key) || (inclusive && key == from))
      && forall x :: x in bucket ==> Before(x, from) || (x == from && !inclusive) || x == key || Before(key, x)
  }

  /** In a stored log the cursor moves from index to index. */
  lemma CursorAt(bucket: map<Key, Entry>, entries: Log, from: nat, inclusive: bool, k: Option<Key>)
    requires Stores(bucket, entries) && from < UINT64_LIMIT && IsNext(bucket, Uint64ToBytes(from), inclusive, k)
    ensures var i := if inclusive then from else from + 1;
            k == if i < |entries| then Some(Uint64ToBytes(i)) else None
  {
    var i := if inclusive then from else from + 1;
    if k.Some? {
      var j :| 0 <= j < |entries| && k.value == Uint64ToBytes(j);
      KeyOrder(from, j);
      if i < |entries| {
        KeyOrder(i, j);
        KeyOrder(j, i);
        KeyOrder(i, from);
      }
    } else if i < |entries| {
      KeyOrder(i, from);
    }
  }

  lemma FirstKey(bucket: map<Key, Entry>, entries: Log)
    requires Stores(bucket, entries)
    ensures Uint64ToBytes(0) in bucket <==> entries != []
  {
    if Uint64ToBytes(0) in bucket { var i :| 0 <= i < |entries| && Uint64ToBytes(0) == Uint64ToBytes(i); }
  }

  lemma EmptyBucket(bucket: map<Key, Entry>, entries: Log)
    requires Stores(bucket, entries) && bucket == map[]
    ensures entries == []
  {
    KeyOrder(0, 0);
  }

  class BboltStore {
    var metaTerm: Option<Key>
    var metaVotedFor: Option<NodeId>
    var bucket: map<Key, Entry>
    ghost var entries: Log

    ghost predicate Valid()
      reads this
    {
      Stores(bucket, entries) && (metaTerm.Some? ==> |metaTerm.value| == 8)
    }

    /** Opens a database, new or left by an earlier process, and makes sure of the sentinel. */
    constructor (metaTerm: Option<Key>, metaVotedFor: Option<NodeId>, bucket: map<Key, Entry>, ghost stored: Log)
      requires Stores(bucket, stored) && (metaTerm.Some? ==> |metaTerm.value| == 8)
      ensures Valid() && this.metaTerm == metaTerm && this.metaVotedFor == metaVotedFor
      ensures entries == if stored == [] then [SENTINEL] else stored
    {
      this.metaTerm, this.metaVotedFor, this.bucket := metaTerm, metaVotedFor, bucket;
      entries := stored;
      FirstKey(bucket, stored);
      if Uint64ToBytes(0) !in bucket {
        StoresOneMore(bucket, stored, SENTINEL);
        this.bucket := bucket[Uint64ToBytes(0) := SENTINEL];
        entries := [SENTINEL];
      }
    }

    method SaveTerm(t: nat)
      requires t < UINT64_LIMIT && Valid()
      modifies this`metaTerm
      ensures Valid() && metaTerm == Some(Uint64ToBytes(t))
    {
      metaTerm := Some(Uint64ToBytes(t));
    }

    /** Reads back exactly the term that was saved, or 0. */
    method LoadTerm() returns (t: nat)
      ensures metaTerm == None ==> t == 0
      ensures forall saved: nat :: saved < UINT64_LIMIT && metaTerm == Some(Uint64ToBytes(saved)) ==> t == saved
    {
      t := 0;
      if metaTerm.Some? { t := BytesToUint64(metaTerm.value); }
      forall saved: nat | saved < UINT64_LIMIT && metaTerm == Some(Uint64ToBytes(saved)) ensures t == saved {
        RoundTrip(saved);
      }
    }

    method SaveVotedFor(v: Option<NodeId>)
      requires Valid()
      modifies this`metaVotedFor
      ensures Valid() && metaVotedFor == v
    {
      metaVotedFor := v;
    }

    method LoadVotedFor() returns (v: Option<NodeId>)
      ensures v == metaVotedFor
    {
      v := metaVotedFor;
    }

    /** The database cursor: a walk over the keys in byte order. */
    method Seek(from: Key, inclusive: bool) returns (k: Option<Key>)
      ensures IsNext(bucket, from, inclusive, k)
    {
      k := None;
      var rest := bucket.Keys;
      while rest != {}
        invariant rest <= bucket.Keys
        invariant k.Some? ==> k.value in bucket && (Before(from, k.value) || (inclusive && k.value == from))
        invariant forall x :: x in bucket && x !in rest ==>
                    Before(x, from) || (x == from && !inclusive) || (k.Some? && (x == k.value || Before(k.value, x)))
        decreases |rest|
      {
        var x :| x in rest;
        rest := rest - {x};
        BeforeTotal(x, from);
        if Before(from, x) || (inclusive && x == from) {
          if k.None? {
            k := Some(x);
          } else {
            BeforeTotal(x, k.value);
            if Before(x, k.value) {
              forall y | y in bucket && Before(k.value, y) ensures Before(x, y) { BeforeTransitive(x, k.value, y); }
              k := Some(x);
            }
          }
        }
      }
    }

    method AppendEntries(more: Log)
      requires Valid() && Continues(entries, more) && |entries| + |more| <= UINT64_LIMIT
      modifies this`bucket, this`entries
      ensures Valid() && entries == old(entries) + more
    {
      for k := 0 to |more|
        invariant entries == old(entries) + more[..k] && Stores(bucket, entries)
      {
        ghost var before := bucket;
        var e := more[k];
        bucket := bucket[Uint64ToBytes(e.data.index) := e];
        ghost var n := |entries|;
        entries := entries + [e];
        StoresOneMore(before, entries[..n], e);
        assert entries[..n] + [e] == entries;
        assert more[..k + 1] == more[..k] + [e];
      }
      assert more[..|more|] == more;
    }

    method GetEntry(i: nat) returns (e: Option<Entry>)
      requires Valid() && i < UINT64_LIMIT
      ensures e == EntryAt(entries, i)
    {
      if Uint64ToBytes(i) in bucket {
        OnlyBelow(bucket, entries, i);
        return Some(bucket[Uint64ToBytes(i)]);
      }
      return None;
    }

    method GetEntriesFrom(i: nat) returns (es: Log)
      requires Valid() && i < UINT64_LIMIT
      ensures es == EntriesFrom(entries, i)
    {
      es := [];
      var k := Seek(Uint64ToBytes(i), true);
      CursorAt(bucket, entries, i, true, k);
      ghost var j := i;
      while k.Some?
        invariant k.Some? ==> i <= j < |entries| && k == Some(Uint64ToBytes(j)) && es == entries[i..j]
        invariant k.None? ==> es == EntriesFrom(entries, i)
        decreases |entries| - j
      {
        es := es + [bucket[k.value]];
        assert es == entries[i..j + 1];
        k := Seek(k.value, false);
        CursorAt(bucket, entries, j, false, k);
        j := j + 1;
      }
    }

    /** The keys a cursor meets from index i to the end. */
    method KeysFrom(i: nat) returns (keys: seq<Key>)
      requires Valid() && i < UINT64_LIMIT
      ensures KeysAre(keys, i, Max(i, |entries|))
    {
      keys := [];
      var k := Seek(Uint64ToBytes(i), true);
      CursorAt(bucket, entries, i, true, k);
      ghost var j := i;
      while k.Some?
        invariant k.Some? ==> i <= j < |entries| && k == Some(Uint64ToBytes(j)) && KeysAre(keys, i, j)
        invariant k.None? ==> KeysAre(keys, i, Max(i, |entries|))
        decreases |entries| - j
      {
        keys := keys + [k.value];
        k := Seek(k.value, false);
        CursorAt(bucket, entries, j, false, k);
        j := j + 1;
      }
    }

    method TruncateFrom(i: nat)
      requires Valid() && i < UINT64_LIMIT
      modifies this`bucket, this`entries
      ensures Valid() && entries == Truncated(old(entries), i)
    {
      var keys := KeysFrom(i);
      for d := 0 to |keys|
        invariant bucket == old(bucket) - (set x | x in keys[..d]) && entries == old(entries)
      {
        bucket := bucket - {keys[d]};
        assert keys[..d + 1] == keys[..d] + [keys[d]];
      }
      assert keys[..|keys|] == keys;
      DeletedAbove(old(bucket), entries, i, keys);
      entries := Truncated(entries, i);
    }

    method LastIndex() returns (i: nat)
      requires Valid()
      ensures entries != [] ==> i == |entries| - 1
      ensures entries == [] ==> i == 0
    {
      var k := LastKey();
      i := 0;
      if k.Some? {
        i := BytesToUint64(k.value);
        LastKeyIs(bucket, entries, k.value);
        RoundTrip(|entries| - 1);
      } else {
        EmptyBucket(bucket, entries);
      }
    }

    method LastTerm() returns (t: nat)
      requires Valid()
      ensures t == RaftTypes.LastTerm(entries)
    {
      var k := LastKey();
      t := 0;
      if k.Some? {
        t := bucket[k.value].term;
        LastKeyIs(bucket, entries, k.value);
      } else {
        EmptyBucket(bucket, entries);
      }
    }

    /** The cursor's last key in byte order. */
    method LastKey() returns (k: Option<Key>)
      ensures k.None? ==> bucket == map[]
      ensures k.Some? ==> k.value in bucket && forall x :: x in bucket ==> x == k.value || Before(x, k.value)
    {
      k := None;
      var rest := bucket.Keys;
      while rest != {}
        invariant rest <= bucket.Keys && (k.None? ==> rest == bucket.Keys)
        invariant k.Some? ==> k.value in bucket && forall x :: x in bucket && x !in rest ==> x == k.value || Before(x, k.value)
        decreases |rest|
      {
        var x :| x in rest;
        rest := rest - {x};
        if k.None? {
          k := Some(x);
        } else {
          BeforeTotal(x, k.value);
          if Before(k.value, x) {
            forall y | y in bucket && Before(y, k.value) ensures Before(y, x) { BeforeTransitive(y, k.value, x); }
            k := Some(x);
          }
        }
      }
    }

    method LoadAllEntries() returns (es: Log)
      requires Valid()
      ensures es == entries
    {
      es := GetEntriesFrom(0);
      assert entries[0..] == entries;
    }
  }

  ghost predicate KeysAre(keys: seq<Key>, i: nat, j: nat) {
    i <= j && |keys| == j - i && forall d {:trigger keys[d]} :: 0 <= d < |keys| ==> keys[d] == Uint64ToBytes(i + d)
  }

  lemma KeyCollected(keys: seq<Key>, i: nat, n: nat, j: nat)
    requires KeysAre(keys, i, n) && i <= j < n
    ensures Uint64ToBytes(j) in keys
  {
    assert keys[j - i] == Uint64ToBytes(j);
  }

  lemma OnlyBelow(bucket: map<Key, Entry>, entries: Log, i: nat)
    requires Stores(bucket, entries) && i < UINT64_LIMIT && Uint64ToBytes(i) in bucket
    ensures i < |entries|
  {
    var j :| 0 <= j < |entries| && Uint64ToBytes(i) == Uint64ToBytes(j);
    KeyOrder(i, j);
  }

  lemma StoresOneMore(bucket: map<Key, Entry>, entries: Log, e: Entry)
    requires Stores(bucket, entries) && |entries| < UINT64_LIMIT && e.data.Record? && e.data.index == |entries|
    ensures Stores(bucket[Uint64ToBytes(|entries|) := e], entries + [e])
  {
    var bucket', entries' := bucket[Uint64ToBytes(|entries|) := e], entries + [e];
    forall i | 0 <= i < |entries'|
      ensures Uint64ToBytes(i) in bucket' && bucket'[Uint64ToBytes(i)] == entries'[i] && entries'[i].data.Record? && entries'[i].data.index == i
    {
      KeyOrder(i, |entries|);
    }
    forall k | k in bucket' ensures exists i :: 0 <= i < |entries'| && k == Uint64ToBytes(i) {
      if k in bucket {
        var i :| 0 <= i < |entries| && k == Uint64ToBytes(i);
      }
    }
  }

  lemma DeletedAbove(bucket: map<Key, Entry>, entries: Log, i: nat, keys: seq<Key>)
    requires Stores(bucket, entries) && i < UINT64_LIMIT && KeysAre(keys, i, Max(i, |entries|))
    ensures Stores(bucket - (set x | x in keys), Truncated(entries, i))
  {
    var bucket', entries' := bucket - (set x | x in keys), Truncated(entries, i);
    forall j | 0 <= j < |entries'|
      ensures Uint64ToBytes(j) in bucket' && bucket'[Uint64ToBytes(j)] == entries'[j] && entries'[j].data.Record? && entries'[j].data.index == j
    {
      forall d | 0 <= d < |keys| ensures keys[d] != Uint64ToBytes(j) { KeyOrder(i + d, j); }
    }
    forall k | k in bucket' ensures exists j :: 0 <= j < |entries'| && k == Uint64ToBytes(j) {
      var j :| 0 <= j < |entries| && k == Uint64ToBytes(j);
      if j >= i { KeyCollected(keys, i, Max(i, |entries|), j); }
    }
  }

  lemma LastKeyIs(bucket: map<Key, Entry>, entries: Log, k: Key)
    requires Stores(bucket, entries) && k in bucket && forall x :: x in bucket ==> x == k || Before(x, k)
    ensures entries != [] && k == Uint64ToBytes(|entries| - 1)
  {
    var j :| 0 <= j < |entries| && k == Uint64ToBytes(j);
    KeyOrder(|entries| - 1, j);
    assert Uint64ToBytes(|entries| - 1) in bucket;
  }
}

/** The two backends side by side: whatever the engine asks, they give the same answer. */
module StorageAgreement {
  import opened RaftTypes
  import opened BigEndian
  import opened StoreContract
  import opened MemoryStorage
  import opened BboltStorage

  datatype Op =
    | PutTerm(term: nat) | PutVote(vote: Option<NodeId>) | Append(more: Log) | Truncate(from: nat)
    | ReadTerm | ReadVote | ReadEntry(index: nat) | ReadFrom(start: nat) | ReadLastIndex | ReadLastTerm | ReadAll

  datatype Answer = Done | Number(n: nat) | Vote(v: Option<NodeId>) | OneEntry(e: Option<Entry>) | Entries(es: Log)

  /** Contiguous appends, and cuts above the sentinel. */
  predicate Shaped(entries: Log, op: Op) {
    (op.Append? ==> Continues(entries, op.more)) && (op.Truncate? ==> 1 <= op.from)
  }

  /** The numbers involved have 64 bits. */
  predicate Has64Bits(entries: Log, op: Op) {
    match op
    case PutTerm(t) => t < UINT64_LIMIT
    case Append(more) => |entries| + |more| <= UINT64_LIMIT
    case Truncate(i) => i < UINT64_LIMIT
    case ReadEntry(i) => i < UINT64_LIMIT
    case ReadFrom(i) => i < UINT64_LIMIT
    case _ => true
  }

  /** What the engine can ask of a log. */
  predicate Possible(entries: Log, op: Op) {
    Shaped(entries, op) && Has64Bits(entries, op)
  }

  function LogAfter(entries: Log, op: Op): Log {
    match op
    case Append(more) => entries + more
    case Truncate(i) => Truncated(entries, i)
    case _ => entries
  }

  function AnswerTo(term: nat, vote: Option<NodeId>, entries: Log, op: Op): Answer
    requires entries != []
  {
    match op
    case ReadTerm => Number(term)
    case ReadVote => Vote(vote)
    case ReadEntry(i) => OneEntry(EntryAt(entries, i))
    case ReadFrom(i) => Entries(EntriesFrom(entries, i))
    case ReadLastIndex => Number(|entries| - 1)
    case ReadLastTerm => Number(LastTerm(entries))
    case ReadAll => Entries(entries)
    case _ => Done
  }

  predicate AllPossible(entries: Log, ops: seq<Op>)
    decreases |ops|
  {
    ops == [] || (Possible(entries, ops[0]) && AllPossible(LogAfter(entries, ops[0]), ops[1..]))
  }

  /** The answers to a sequence of operations, each on what the ones before it left behind. */
  function Answers(term: nat, vote: Option<NodeId>, entries: Log, ops: seq<Op>): seq<Answer>
    requires entries != [] && AllPossible(entries, ops)
    decreases |ops|
  {
    if ops == [] then []
    else
      var op := ops[0];
      [AnswerTo(term, vote, entries, op)] +
      Answers(if op.PutTerm? then op.term else term, if op.PutVote? then op.vote else vote, LogAfter(entries, op), ops[1..])
  }

  /** Both hold the same term, vote and log, sentinel included. */
  ghost predicate Agree(mem: MemoryStore, db: BboltStore)
    reads mem, db
  {
    && db.Valid() && db.entries == mem.entries && mem.entries != []
    && mem.term < UINT64_LIMIT && (db.metaTerm == Some(Uint64ToBytes(mem.term)) || (db.metaTerm == None && mem.term == 0))
    && db.metaVotedFor == mem.votedFor
  }

  method Ask(mem: MemoryStore, db: BboltStore, op: Op) returns (a: Answer, b: Answer)
    requires Agree(mem, db) && Possible(mem.entries, op)
    modifies mem, db
    ensures a == b == AnswerTo(old(mem.term), old(mem.votedFor), old(mem.entries), op)
    ensures Agree(mem, db) && mem.entries == LogAfter(old(mem.entries), op)
    ensures mem.term == if op.PutTerm? then op.term else old(mem.term)
    ensures mem.votedFor == if op.PutVote? then op.vote else old(mem.votedFor)
  {
    a, b := Done, Done;
    match op
    case PutTerm(t) => mem.SaveTerm(t); db.SaveTerm(t);
    case PutVote(v) => mem.SaveVotedFor(v); db.SaveVotedFor(v);
    case Append(more) => mem.AppendEntries(more); db.AppendEntries(more);
    case Truncate(i) => mem.TruncateFrom(i); db.TruncateFrom(i);
    case ReadTerm => var x := mem.LoadTerm(); var y := db.LoadTerm(); a, b := Number(x), Number(y);
    case ReadVote => var x := mem.LoadVotedFor(); var y := db.LoadVotedFor(); a, b := Vote(x), Vote(y);
    case ReadEntry(i) => var x := mem.GetEntry(i); var y := db.GetEntry(i); a, b := OneEntry(x), OneEntry(y);
    case ReadFrom(i) => var x := mem.GetEntriesFrom(i); var y := db.GetEntriesFrom(i); a, b := Entries(x), Entries(y);
    case ReadLastIndex => var x := mem.LastIndex(); var y := db.LastIndex(); a, b := Number(x), Number(y);
    case ReadLastTerm => var x := mem.LastTerm(); var y := db.LastTerm(); a, b := Number(x), Number(y);
    case ReadAll => var x := mem.LoadAllEntries(); var y := db.LoadAllEntries(); a, b := Entries(x), Entries(y);
  }

  lemma OneMoreAnswer(all: seq<Answer>, given: seq<Answer>, term: nat, vote: Option<NodeId>, entries: Log, ops: seq<Op>, i: nat)
    requires i < |ops| && entries != [] && AllPossible(entries, ops[i..])
    requires all == given + Answers(term, vote, entries, ops[i..])
    ensures Possible(entries, ops[i]) && AllPossible(LogAfter(entries, ops[i]), ops[i + 1..]) && LogAfter(entries, ops[i]) != []
    ensures all == given + [AnswerTo(term, vote, entries, ops[i])] +
                   Answers(if ops[i].PutTerm? then ops[i].term else term, if ops[i].PutVote? then ops[i].vote else vote,
                           LogAfter(entries, ops[i]), ops[i + 1..])
  {
    assert ops[i..][0] == ops[i] && ops[i..][1..] == ops[i + 1..];
  }

  /** Any sequence of operations the engine can issue gets the same answers from both, and they
      are those of one stored sequence that every write changes and every read sees. */
  method AskAll(mem: MemoryStore, db: BboltStore, ops: seq<Op>) returns (fromMemory: seq<Answer>, fromDatabase: seq<Answer>)
    requires Agree(mem, db) && AllPossible(mem.entries, ops)
    modifies mem, db
    ensures fromMemory == fromDatabase == Answers(old(mem.term), old(mem.votedFor), old(mem.entries), ops)
    ensures |fromMemory| == |ops| && Agree(mem, db)
  {
    fromMemory, fromDatabase := [], [];
    var i := 0;
    ghost var all := Answers(mem.term, mem.votedFor, mem.entries, ops);
    while i < |ops|
      invariant i <= |ops| && Agree(mem, db) && AllPossible(mem.entries, ops[i..])
      invariant fromMemory == fromDatabase && |fromMemory| == i
      invariant all == fromMemory + Answers(mem.term, mem.votedFor, mem.entries, ops[i..])
    {
      OneMoreAnswer(all, fromMemory, mem.term, mem.votedFor, mem.entries, ops, i);
      var a, b := Ask(mem, db, ops[i]);
      fromMemory, fromDatabase, i := fromMemory + [a], fromDatabase + [b], i + 1;
    }
  }

  /** Without even a sentinel the two count differently, and only then: the in-memory
      store wraps around below 0, the database says 0. */
  method LastIndices(mem: MemoryStore, db: BboltStore) returns (a: nat, b: nat)
    requires db.Valid() && db.entries == mem.entries
    ensures a == b <==> mem.entries != []
  {
    a := mem.LastIndex();
    b := db.LastIndex();
  }
}
