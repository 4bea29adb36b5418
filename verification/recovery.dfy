/** Repeated recovery: a node that crashes any number of times, at any points, and applies its
    log again from where a restart leaves it. */
module Recovery {
  import opened RaftTypes
  import Commands
  import Store = KeyValueStore
  import Wal = WriteAheadLog

  /** The store, the changes its write-ahead log holds records of, the snapshot on disk with its
      index, what is applied, and the most that ever was. */
  datatype State = State(store: map<string, string>, wal: seq<Change>, snapshot: Option<Saved>, applied: nat, high: nat)

  datatype Saved = Saved(index: nat, kv: map<string, string>)

  /** Compaction leaves some rest of the write-ahead log, which is not read again. */
  datatype Event = Apply | Compact(rest: seq<Change>) | Crash

  /** What an entry does to the store when it is applied. */
  datatype Change = Put(key: string, value: string) | Delete(key: string) | Neither

  function ChangeOf(text: string): Change {
    var c := Commands.Parse(text);
    if c.op == "PUT" then Put(c.key, c.value) else if c.op == "DELETE" then Delete(c.key) else Neither
  }

  function Perform(store: map<string, string>, c: Change): map<string, string> {
    match c
    case Put(k, v) => store[k := v]
    case Delete(k) => store - {k}
    case Neither => store
  }

  lemma ExecPerforms(store: map<string, string>, text: string)
    ensures Commands.Exec(store, text) == Perform(store, ChangeOf(text))
  {}

  /** The record a change leaves in the write-ahead log. */
  function Logged(c: Change): string
    requires !c.Neither?
  {
    match c
    case Put(k, v) => Store.PutText(k, v)
    case Delete(k) => Store.DeleteText(k)
  }

  /** What a replay takes for the key of a PUT: what lies before its first '='. */
  function ReadKey(c: Change): string
    requires c.Put?
  {
    c.key[..Store.Find(c.key, '=')]
  }

  /** What replaying a change's record does to the map. */
  function Reread(m: map<string, string>, c: Change): map<string, string> {
    match c
    case Put(k, v) =>
      var read := ReadKey(c);
      if read == "" then m else m[read := (k + "=" + v)[|read| + 1..]]
    case Delete(k) => if k == "" then m else m - {k}
    case Neither => m
  }

  function Replayed(wal: seq<Change>): map<string, string> {
    if wal == [] then map[] else Reread(Replayed(wal[..|wal| - 1]), wal[|wal| - 1])
  }

  predicate RecordsOf(rs: seq<Wal.Record>, wal: seq<Change>) {
    |rs| == |wal| && forall i | 0 <= i < |wal| :: !wal[i].Neither? && rs[i].command == Logged(wal[i])
  }

  lemma RereadIsReplay(m: map<string, string>, c: Change)
    requires !c.Neither?
    ensures Store.ReplayText(m, Logged(c)) == Reread(m, c)
  {
    match c
    case Put(k, v) => Store.ReplayPut(m, k, v);
    case Delete(k) => Store.ReplayDelete(m, k);
  }

  lemma RecordsOfInit(rs: seq<Wal.Record>, wal: seq<Change>)
    requires RecordsOf(rs, wal) && wal != []
    ensures RecordsOf(rs[..|rs| - 1], wal[..|wal| - 1])
    ensures !wal[|wal| - 1].Neither? && rs[|rs| - 1].command == Logged(wal[|wal| - 1])
  {}

  /** Replaying the records of some changes is rereading the changes. */
  lemma {:induction false} RecordsReplay(rs: seq<Wal.Record>, wal: seq<Change>, m: map<string, string>)
    requires RecordsOf(rs, wal) && m == Replayed(wal)
    ensures Store.ReplayAll(map[], rs) == m
    decreases |wal|
  {
    if wal != [] {
      var init := wal[..|wal| - 1];
      RecordsOfInit(rs, wal);
      RecordsReplay(rs[..|rs| - 1], init, Replayed(init));
      LastRecordReplays(rs, Replayed(init), wal[|wal| - 1]);
    }
  }

  lemma LastRecordReplays(rs: seq<Wal.Record>, m: map<string, string>, c: Change)
    requires rs != [] && Store.ReplayAll(map[], rs[..|rs| - 1]) == m
    requires !c.Neither? && rs[|rs| - 1].command == Logged(c)
    ensures Store.ReplayAll(map[], rs) == Reread(m, c)
  {
    RereadIsReplay(m, c);
  }

  function WithRecord(wal: seq<Change>, c: Change): seq<Change> {
    if c.Neither? then wal else wal + [c]
  }

  /** The entry after the last applied one is applied, if the log has it. */
  function Applied(log: seq<Change>, s: State): State {
    if s.applied + 1 >= |log| then s
    else
      var c := log[s.applied + 1];
      s.(store := Perform(s.store, c), wal := WithRecord(s.wal, c), applied := s.applied + 1,
         high := if s.high < s.applied + 1 then s.applied + 1 else s.high)
  }

  function Compacted(s: State, rest: seq<Change>): State {
    s.(snapshot := Some(Saved(s.applied, s.store)), wal := rest)
  }

  /** A restart: the snapshot's map, or what the write-ahead log replays to. */
  function Restarted(s: State): State {
    if s.snapshot.Some? then s.(store := s.snapshot.value.kv, applied := s.snapshot.value.index)
    else s.(store := Replayed(s.wal), applied := 0)
  }

  /** One event of a node whose log holds `log[i]` at index `i`. */
  function Next(log: seq<Change>, s: State, e: Event): State {
    match e
    case Apply => Applied(log, s)
    case Compact(rest) => Compacted(s, rest)
    case Crash => Restarted(s)
  }

  function Run(log: seq<Change>, es: seq<Event>): State {
    if es == [] then State(map[], [], None, 0, 0) else Next(log, Run(log, es[..|es| - 1]), es[|es| - 1])
  }

  /** One application of the entries 1 to `t` to an empty store. */
  function CleanStore(log: seq<Change>, t: nat): map<string, string>
    requires t < |log|
  {
    if t == 0 then map[] else Perform(CleanStore(log, t - 1), log[t])
  }

  predicate Touches(c: Change, k: string) {
    !c.Neither? && c.key == k
  }

  /** No entry from `from` up to `t` sets or removes `k`. */
  predicate Untouched(log: seq<Change>, k: string, from: nat, t: nat)
    requires t < |log|
  {
    forall i | from <= i <= t :: !Touches(log[i], k)
  }

  /** Every key that a replay may invent is set or removed by some entry. */
  predicate Recoverable(log: seq<Change>, t: nat)
    requires t < |log|
  {
    forall i | 1 <= i <= t && log[i].Put? && ReadKey(log[i]) != "" ::
      !Untouched(log, ReadKey(log[i]), 1, t)
  }

  predicate Agree(a: map<string, string>, b: map<string, string>, k: string) {
    (k in a <==> k in b) && (k in a ==> a[k] == b[k])
  }

  // ---------- one command ----------

  lemma ExecKeeps(store: map<string, string>, c: Change, k: string)
    requires !Touches(c, k)
    ensures Agree(Perform(store, c), store, k)
  {}

  /** What a command does to the key it touches does not depend on the store. */
  lemma ExecSets(a: map<string, string>, b: map<string, string>, c: Change, k: string)
    requires Touches(c, k)
    ensures Agree(Perform(a, c), Perform(b, c), k)
  {}

  lemma AgreeTrans(a: map<string, string>, b: map<string, string>, c: map<string, string>, k: string)
    requires Agree(a, b, k) && Agree(b, c, k)
    ensures Agree(a, c, k)
  {}

  lemma CleanStep(log: seq<Change>, t: nat, k: string)
    requires 0 < t < |log|
    ensures !Touches(log[t], k) ==> Agree(CleanStore(log, t), CleanStore(log, t - 1), k)
    ensures Touches(log[t], k) ==> forall m :: Agree(Perform(m, log[t]), CleanStore(log, t), k)
  {
    if Touches(log[t], k) {
      forall m ensures Agree(Perform(m, log[t]), CleanStore(log, t), k) {
        ExecSets(m, CleanStore(log, t - 1), log[t], k);
      }
    } else {
      ExecKeeps(CleanStore(log, t - 1), log[t], k);
    }
  }

  lemma {:induction false} CleanKeeps(log: seq<Change>, k: string, from: nat, t: nat)
    requires from <= t < |log| && Untouched(log, k, from + 1, t)
    ensures Agree(CleanStore(log, t), CleanStore(log, from), k)
    decreases t
  {
    if from < t {
      CleanKeeps(log, k, from, t - 1);
      CleanStep(log, t, k);
      AgreeTrans(CleanStore(log, t), CleanStore(log, t - 1), CleanStore(log, from), k);
    }
  }

  /** Rereading a change touches its read key or the key it removes. */
  lemma RereadKeeps(m: map<string, string>, c: Change, k: string)
    requires !Touches(c, k) && (c.Put? ==> ReadKey(c) == "" || ReadKey(c) != k)
    ensures k in Reread(m, c) ==> k in m
  {}

  // ---------- the invariant ----------

  /** The keys that no entry behind `from` touches are as they should be after entry `t`. */
  ghost predicate InOrder(log: seq<Change>, m: map<string, string>, from: nat, t: nat)
    requires t < |log|
  {
    forall k | Untouched(log, k, from + 1, t) :: Agree(m, CleanStore(log, t), k)
  }

  ghost predicate Safe(log: seq<Change>, s: State, t: nat)
    requires t < |log|
  {
    && s.applied <= s.high && InOrder(log, s.store, s.applied, t)
    && (s.snapshot.Some? ==>
          s.snapshot.value.index <= s.high && InOrder(log, s.snapshot.value.kv, s.snapshot.value.index, t))
    && (s.snapshot.None? ==> forall k | Untouched(log, k, 1, t) :: k !in Replayed(s.wal))
  }

  lemma TouchedSettles(log: seq<Change>, m: map<string, string>, a: nat, t: nat, k: string)
    requires a < t < |log| && Untouched(log, k, a + 2, t) && Agree(m, CleanStore(log, a + 1), k)
    ensures Agree(m, CleanStore(log, t), k)
  {
    CleanKeeps(log, k, a + 1, t);
    AgreeTrans(CleanStore(log, t), CleanStore(log, a + 1), m, k);
  }

  lemma UntouchedSettles(log: seq<Change>, m: map<string, string>, a: nat, t: nat, k: string, m': map<string, string>)
    requires a < t < |log| && InOrder(log, m, a, t) && Untouched(log, k, a + 1, t) && Agree(m', m, k)
    ensures Agree(m', CleanStore(log, t), k)
  {
    AgreeTrans(m', m, CleanStore(log, t), k);
  }

  /** One more application brings the keys it touches in order. */
  lemma ApplySettlesKey(log: seq<Change>, m: map<string, string>, a: nat, t: nat, k: string, m': map<string, string>)
    requires a < t < |log| && InOrder(log, m, a, t) && Untouched(log, k, a + 2, t)
    requires m' == Perform(m, log[a + 1])
    ensures Agree(m', CleanStore(log, t), k)
  {
    if Touches(log[a + 1], k) {
      CleanStep(log, a + 1, k);
      TouchedSettles(log, m', a, t, k);
    } else {
      ExecKeeps(m, log[a + 1], k);
      UntouchedSettles(log, m, a, t, k, m');
    }
  }

  lemma ApplySettles(log: seq<Change>, m: map<string, string>, a: nat, t: nat, m': map<string, string>)
    requires a < t < |log| && InOrder(log, m, a, t) && m' == Perform(m, log[a + 1])
    ensures InOrder(log, m', a + 1, t)
  {
    forall k | Untouched(log, k, a + 2, t) ensures Agree(m', CleanStore(log, t), k) {
      ApplySettlesKey(log, m, a, t, k, m');
    }
  }

  lemma ReplayedMore(wal: seq<Change>, c: Change)
    ensures Replayed(WithRecord(wal, c)) == Reread(Replayed(wal), c)
  {
    assert (wal + [c])[..|wal|] == wal;
  }

  lemma ApplyLogs(log: seq<Change>, wal: seq<Change>, i: nat, t: nat, k: string)
    requires 1 <= i <= t < |log| && Recoverable(log, t) && Untouched(log, k, 1, t)
    requires k !in Replayed(wal)
    ensures k !in Replayed(WithRecord(wal, log[i]))
  {
    ReplayedMore(wal, log[i]);
    RereadKeeps(Replayed(wal), log[i], k);
  }

  lemma NextApply(log: seq<Change>, s: State, s': State)
    requires s.applied + 1 < |log| && s' == Applied(log, s)
    ensures s'.applied == s.applied + 1 && s'.snapshot == s.snapshot
    ensures s'.high == if s.high < s.applied + 1 then s.applied + 1 else s.high
    ensures s'.store == Perform(s.store, log[s.applied + 1])
    ensures s'.wal == WithRecord(s.wal, log[s.applied + 1])
  {}

  lemma FreshSafe(log: seq<Change>, t: nat)
    requires t < |log|
    ensures Safe(log, Run(log, []), t)
  {
    forall k | Untouched(log, k, 1, t) ensures Agree(map[], CleanStore(log, t), k) {
      CleanKeeps(log, k, 0, t);
    }
  }

  lemma ApplySafe(log: seq<Change>, s: State, t: nat, s': State)
    requires t < |log| && Recoverable(log, t) && Safe(log, s, t) && s.applied < t
    requires s'.applied == s.applied + 1 && s'.snapshot == s.snapshot && s.high <= s'.high && s'.applied <= s'.high
    requires s'.store == Perform(s.store, log[s.applied + 1])
    requires s'.wal == WithRecord(s.wal, log[s.applied + 1])
    ensures Safe(log, s', t)
  {
    ApplySettles(log, s.store, s.applied, t, s'.store);
    if s.snapshot.None? {
      forall k | Untouched(log, k, 1, t) ensures k !in Replayed(s'.wal) {
        ApplyLogs(log, s.wal, s.applied + 1, t, k);
      }
    }
  }

  lemma CrashSafe(log: seq<Change>, s: State, t: nat)
    requires t < |log| && Safe(log, s, t)
    ensures Safe(log, Restarted(s), t)
  {
    if s.snapshot.None? {
      var m := Replayed(s.wal);
      forall k | Untouched(log, k, 1, t) ensures Agree(m, CleanStore(log, t), k) {
        CleanKeeps(log, k, 0, t);
      }
    }
  }

  lemma HighGrows(log: seq<Change>, s: State, e: Event)
    ensures Next(log, s, e).high >= s.high
  {}

  /** As long as no more than `t` was ever applied, the state can still become the clean one. */
  lemma {:induction false} RunSafe(log: seq<Change>, es: seq<Event>, t: nat)
    requires t < |log| && Recoverable(log, t) && Run(log, es).high <= t
    ensures Safe(log, Run(log, es), t)
  {
    if es == [] {
      FreshSafe(log, t);
    } else {
      var s, e := Run(log, es[..|es| - 1]), es[|es| - 1];
      HighGrows(log, s, e);
      RunSafe(log, es[..|es| - 1], t);
      match e
      case Apply =>
        if s.applied + 1 < |log| {
          NextApply(log, s, Run(log, es));
          ApplySafe(log, s, t, Run(log, es));
        }
      case Compact(rest) =>
      case Crash => CrashSafe(log, s, t);
    }
  }

  lemma SettledIsClean(log: seq<Change>, m: map<string, string>, t: nat)
    requires t < |log| && InOrder(log, m, t, t)
    ensures m == CleanStore(log, t)
  {
    var c := CleanStore(log, t);
    forall k: string ensures (k in m <==> k in c) && (k in m ==> m[k] == c[k]) {
      assert Untouched(log, k, t + 1, t);
      assert Agree(m, c, k);
    }
    assert m.Keys == c.Keys;
  }

  // ---------- when it fails ----------

  function Times(e: Event, n: nat): seq<Event> {
    if n == 0 then [] else Times(e, n - 1) + [e]
  }

  /** Apply everything, crash, apply everything again. */
  function Twice(t: nat): seq<Event> {
    Times(Apply, t) + [Crash] + Times(Apply, t)
  }

  lemma {:induction false} RunAppend(log: seq<Change>, a: seq<Event>, e: Event)
    ensures Run(log, a + [e]) == Next(log, Run(log, a), e)
  {
    assert (a + [e])[..|a|] == a;
  }

  /** `n` applications in a row. */
  function Passed(log: seq<Change>, s: State, n: nat): State {
    if n == 0 then s else Applied(log, Passed(log, s, n - 1))
  }

  lemma {:induction false} RunPassed(log: seq<Change>, es: seq<Event>, n: nat)
    ensures Run(log, es + Times(Apply, n)) == Passed(log, Run(log, es), n)
  {
    if n == 0 {
      assert es + Times(Apply, 0) == es;
    } else {
      RunPassed(log, es, n - 1);
      assert es + Times(Apply, n) == (es + Times(Apply, n - 1)) + [Apply];
      RunAppend(log, es + Times(Apply, n - 1), Apply);
    }
  }

  lemma {:induction false} PassedCounts(log: seq<Change>, s: State, n: nat)
    requires s.applied == 0 && n < |log|
    ensures var p := Passed(log, s, n);
      p.applied == n && p.snapshot == s.snapshot && p.high == if s.high < n then n else s.high
  {
    if n != 0 {
      PassedCounts(log, s, n - 1);
      NextApply(log, Passed(log, s, n - 1), Passed(log, s, n));
    }
  }

  lemma KeyStays(wal: seq<Change>, c: Change, k: string)
    requires k in Replayed(wal) && !Touches(c, k)
    ensures k in Replayed(WithRecord(wal, c))
  {
    ReplayedMore(wal, c);
  }

  lemma {:induction false} PassedKeepsKey(log: seq<Change>, s: State, n: nat, t: nat, k: string)
    requires s.applied == 0 && n <= t < |log| && Untouched(log, k, 1, t) && k in s.store
    ensures k in Passed(log, s, n).store
  {
    if n != 0 {
      PassedKeepsKey(log, s, n - 1, t, k);
      PassedCounts(log, s, n - 1);
      NextApply(log, Passed(log, s, n - 1), Passed(log, s, n));
      ExecKeeps(Passed(log, s, n - 1).store, log[n], k);
    }
  }

  /** Whatever came before, the record of `c` makes a replay set `k`. */
  ghost predicate Invents(c: Change, k: string) {
    forall m :: k in Reread(m, c)
  }

  /** An invented key that is never touched stays in what the log replays to. */
  lemma {:induction false} PassedInvents(log: seq<Change>, s: State, n: nat, i: nat, t: nat, k: string)
    requires s.applied == 0 && 1 <= i <= n <= t < |log| && Invents(log[i], k) && Untouched(log, k, 1, t)
    ensures k in Replayed(Passed(log, s, n).wal)
  {
    var before := Passed(log, s, n - 1).wal;
    PassedRecord(log, s, n);
    if i < n {
      PassedInvents(log, s, n - 1, i, t, k);
      KeyStays(before, log[n], k);
    } else {
      RecordInvents(before, log[n], k);
    }
  }

  lemma PassedRecord(log: seq<Change>, s: State, n: nat)
    requires s.applied == 0 && 1 <= n < |log|
    ensures Passed(log, s, n).wal == WithRecord(Passed(log, s, n - 1).wal, log[n])
  {
    PassedCounts(log, s, n - 1);
    NextApply(log, Passed(log, s, n - 1), Passed(log, s, n));
  }

  lemma RecordInvents(wal: seq<Change>, c: Change, k: string)
    requires Invents(c, k)
    ensures k in Replayed(WithRecord(wal, c))
  {
    ReplayedMore(wal, c);
  }

  /** Whenever what is applied regains the most there ever was, and that is `t`, the store is what
      one clean application of the entries 1 to `t` gives. */
  ghost predicate Converges(log: seq<Change>, t: nat)
    requires t < |log|
  {
    forall es: seq<Event> :: var s := Run(log, es);
      s.applied == s.high == t ==> s.store == CleanStore(log, t)
  }

  lemma RunTwice(log: seq<Change>, t: nat)
    ensures Run(log, Twice(t)) == Passed(log, Restarted(Passed(log, Run(log, []), t)), t)
  {
    RunPassed(log, [], t);
    assert [] + Times(Apply, t) == Times(Apply, t);
    RunAppend(log, Times(Apply, t), Crash);
    RunPassed(log, Times(Apply, t) + [Crash], t);
  }

  /** After the second pass the invented key is still there. */
  lemma TwiceInvents(log: seq<Change>, s: State, t: nat, i: nat, k: string)
    requires 1 <= i <= t < |log| && Invents(log[i], k) && Untouched(log, k, 1, t)
    requires s.applied == 0 && s.high == 0 && s.snapshot.None?
    ensures var r := Passed(log, Restarted(Passed(log, s, t)), t);
      r.applied == r.high == t && k in r.store
  {
    var crashed := Restarted(Passed(log, s, t));
    PassedCounts(log, s, t);
    PassedInvents(log, s, t, i, t, k);
    PassedCounts(log, crashed, t);
    PassedKeepsKey(log, crashed, t, t, k);
  }

  lemma NotRecoverable(log: seq<Change>, t: nat)
    requires t < |log| && !Recoverable(log, t)
    ensures !Converges(log, t)
  {
    var i :| 1 <= i <= t && log[i].Put? && ReadKey(log[i]) != "" && Untouched(log, ReadKey(log[i]), 1, t);
    var k := ReadKey(log[i]);
    assert Invents(log[i], k);
    CounterRun(log, t, i, k);
  }

  lemma CounterRun(log: seq<Change>, t: nat, i: nat, k: string)
    requires 1 <= i <= t < |log| && Invents(log[i], k) && Untouched(log, k, 1, t)
    ensures !Converges(log, t)
  {
    RunTwice(log, t);
    TwiceInvents(log, Run(log, []), t, i, k);
    CleanKeeps(log, k, 0, t);
    var s := Run(log, Twice(t));
    assert s.applied == s.high == t && s.store != CleanStore(log, t);
  }

  /** Repeated recovery converges, with any number of crashes and snapshots at any points, if and
      only if every key that the replay of a PUT record would take for the entry's own is empty or
      is set or removed by some entry. Keys without '=' always are. */
  lemma RecoveryConverges(log: seq<Change>, t: nat)
    requires t < |log|
    ensures Converges(log, t) <==> Recoverable(log, t)
  {
    if Recoverable(log, t) {
      forall es: seq<Event> | Run(log, es).applied == Run(log, es).high == t
        ensures Run(log, es).store == CleanStore(log, t)
      {
        RunSafe(log, es, t);
        SettledIsClean(log, Run(log, es).store, t);
      }
    } else {
      NotRecoverable(log, t);
    }
  }

  lemma PlainKeysRecover(log: seq<Change>, t: nat)
    requires t < |log|
    requires forall i | 1 <= i <= t && log[i].Put? :: '=' !in log[i].key
    ensures Recoverable(log, t) && Converges(log, t)
  {
    forall i | 1 <= i <= t && log[i].Put? && ReadKey(log[i]) != ""
      ensures !Untouched(log, ReadKey(log[i]), 1, t)
    {
      assert log[i].key[..|log[i].key|] == log[i].key;
      assert Touches(log[i], ReadKey(log[i]));
    }
    RecoveryConverges(log, t);
  }

  // ---------- logs of commands ----------

  function Changes(texts: seq<string>): seq<Change> {
    seq(|texts|, i requires 0 <= i < |texts| => ChangeOf(texts[i]))
  }

  /** The clean store is the fold of the commands 1 to `t` over an empty map. */
  lemma {:induction false} CleanStoreIsFold(texts: seq<string>, t: nat)
    requires t < |texts|
    ensures CleanStore(Changes(texts), t) == Commands.ExecAll(map[], texts[1..t + 1])
  {
    var part := texts[1..t + 1];
    if t != 0 {
      CleanStoreIsFold(texts, t - 1);
      assert part[..t - 1] == texts[1..t];
      ExecPerforms(CleanStore(Changes(texts), t - 1), texts[t]);
    }
  }

  /** Recovery in terms of logged commands: whatever crashes and snapshots there were, a store
      whose node has regained the most it ever applied is the fold of its commands. */
  lemma RecoveredStore(texts: seq<string>, es: seq<Event>, s: State)
    requires s == Run(Changes(texts), es)
    requires s.applied == s.high < |texts| && Recoverable(Changes(texts), s.high)
    ensures s.store == Commands.ExecAll(map[], texts[1..s.high + 1])
  {
    CleanStoreIsFold(texts, s.high);
    CleanRun(Changes(texts), es, s);
  }

  lemma CleanRun(log: seq<Change>, es: seq<Event>, s: State)
    requires s == Run(log, es) && s.applied == s.high < |log| && Recoverable(log, s.high)
    ensures s.store == CleanStore(log, s.high)
  {
    RunSafe(log, es, s.high);
    SettledIsClean(log, s.store, s.high);
  }
}
