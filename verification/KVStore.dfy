/** The replicated state machine: an in-memory table of strings. */
module KeyValueStore {
  import opened RaftTypes
  import opened Engine

  class KVStore {
    var data: Table

    constructor ()
      ensures data == map[]
    {
      data := map[];
    }

    method Apply(c: Command)
      modifies this
      ensures data == ApplyCommand(old(data), c)
    {
      if c.kind == 0 {
        data := data[c.key := c.value];
      } else if c.kind == 1 {
        data := data - {c.key};
      }
    }

    method Get(key: string) returns (value: Option<string>)
      ensures value == if key in data then Some(data[key]) else None
    {
      value := None;
      if key in data { value := Some(data[key]); }
    }

    method Size() returns (n: nat)
      ensures n == |data|
    {
      n := |data|;
    }
  }

  /** What reading a key gives after one command. */
  function Lookup(table: Table, key: string): Option<string> {
    if key in table then Some(table[key]) else None
  }

  /** The entry carries bytes that decode to a set or a delete of this key. */
  predicate Writes(decode: Decoder, e: Entry, key: string) {
    e.data.Record? && e.data.command != [] &&
    var c := decode(e.data.command);
    c.Some? && c.value.key == key && c.value.kind <= 1
  }

  /** The command, if any, that decides what a key reads as after replaying a log. */
  function LastWriter(decode: Decoder, log: Log, key: string): Option<Command>
    decreases |log|
  {
    if log == [] then None
    else
      var e := log[|log| - 1];
      if Writes(decode, e, key) then decode(e.data.command) else LastWriter(decode, log[..|log| - 1], key)
  }

  /** A replayed table reads, at every key, as the last command that set or deleted it says. */
  lemma {:induction false} FoldReadsLastWrite(decode: Decoder, log: Log, key: string)
    ensures var w := LastWriter(decode, log, key);
            Lookup(Fold(decode, log), key) ==
              if w.Some? && w.value.kind == 0 then Some(w.value.value) else None
    decreases |log|
  {
    if log != [] {
      FoldReadsLastWrite(decode, log[..|log| - 1], key);
    }
  }
}
