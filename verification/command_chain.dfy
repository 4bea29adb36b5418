/** From a client's request to the write-ahead log and back: what is logged, what applying it
    does to the map, and what replaying the record it leaves does. */
module CommandChain {
  import opened RaftTypes
  import opened Commands
  import Store = KeyValueStore

  /** The record that applying a PUT or DELETE writes. */
  function RecordText(c: Command): string {
    if c.op == "PUT" then Store.PutText(c.key, c.value) else Store.DeleteText(c.key)
  }

  predicate Writes(op: string) {
    op == "PUT" || op == "DELETE"
  }

  lemma PutOrDeleteIsToken(op: string)
    requires Writes(op)
    ensures NoSpace(op) && op != ""
  {}

  /** What applying the logged text does, for a request that reads back as it was built. */
  lemma ExecBuilt(m: KV, op: string, key: string, value: string)
    requires Writes(op) && Parse(Build(op, key, value)) == Command(op, key, value)
    ensures Exec(m, Build(op, key, value)) == if op == "PUT" then m[key := value] else m - {key}
  {}

  /** The command codec chain: for a non-empty key without white space and a value without a
      newline, empty or with leading spaces as it may be, the logged text reads back as the same
      command; and the record written on applying it replays to the same effect on every map
      exactly when the command is a DELETE or its key has no '='. */
  lemma ChainKeepsEffect(op: string, key: string, value: string)
    requires Writes(op) && key != "" && NoSpace(key) && '\n' !in value
    ensures Parse(Build(op, key, value)) == Command(op, key, value)
    ensures (forall m: KV :: Store.ReplayText(m, RecordText(Command(op, key, value))) == Exec(m, Build(op, key, value)))
      <==> op == "DELETE" || '=' !in key
  {
    PutOrDeleteIsToken(op);
    CommandRoundTrip(op, key, value);
    var text := RecordText(Command(op, key, value));
    forall m: KV ensures Exec(m, Build(op, key, value)) == if op == "PUT" then m[key := value] else m - {key} {
      ExecBuilt(m, op, key, value);
    }
    if op == "PUT" {
      PutReplays(key, value);
    } else {
      Store.DeleteReplaysExactly(key);
    }
  }

  lemma PutReplays(key: string, value: string)
    requires key != ""
    ensures (forall m: KV :: Store.ReplayText(m, Store.PutText(key, value)) == m[key := value]) <==> '=' !in key
  {
    Store.PutReplaysExactly(key, value);
  }
}
