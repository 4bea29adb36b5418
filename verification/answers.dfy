/** What a client is told: by the log, and not by the code that answers. */
module Answers {
  import opened RaftTypes
  import opened Protocol
  import opened RaftNodes
  import opened Compaction
  import opened ApplyOrder
  import opened ElectionSafety
  import Commands
  import H = Handlers

  // ---------- what a key holds ----------

  predicate Touches(c: Commands.Command, key: string) {
    c.key == key && (c.op == "PUT" || c.op == "DELETE")
  }

  predicate TouchesAt(cs: seq<Commands.Command>, key: string, i: int) {
    0 <= i < |cs| && Touches(cs[i], key)
  }

  /** The command at `i` is the last one that sets or removes the key. */
  ghost predicate LastTouch(cs: seq<Commands.Command>, key: string, i: int) {
    TouchesAt(cs, key, i) && forall j | i < j :: !TouchesAt(cs, key, j)
  }

  ghost predicate NeverTouched(cs: seq<Commands.Command>, key: string) {
    forall j: int :: !TouchesAt(cs, key, j)
  }

  /** The key holds `v` after the commands: the last one on it put `v`, or there is none and it held `v`
      before. */
  ghost predicate Holds(init: KV, cs: seq<Commands.Command>, key: string, v: string) {
    || (NeverTouched(cs, key) && key in init && init[key] == v)
    || (exists i :: LastTouch(cs, key, i) && cs[i].op == "PUT" && cs[i].value == v)
  }

  /** The key holds nothing: the last command on it is a DELETE, or there is none and it held nothing. */
  ghost predicate HoldsNothing(init: KV, cs: seq<Commands.Command>, key: string) {
    || (NeverTouched(cs, key) && key !in init)
    || (exists i :: LastTouch(cs, key, i) && cs[i].op == "DELETE")
  }

  /** What one command does to the map, and what some do in turn. */
  function Effect(s: KV, c: Commands.Command): KV {
    if c.op == "PUT" then s[c.key := c.value] else if c.op == "DELETE" then s - {c.key} else s
  }

  function Effects(init: KV, cs: seq<Commands.Command>): KV {
    if cs == [] then init else Effect(Effects(init, cs[..|cs| - 1]), cs[|cs| - 1])
  }

  lemma TouchedLast(init: KV, cs: seq<Commands.Command>, key: string, s: KV)
    requires cs != [] && Touches(cs[|cs| - 1], key) && s == Effect(Effects(init, cs[..|cs| - 1]), cs[|cs| - 1])
    ensures key in s ==> Holds(init, cs, key, s[key])
    ensures key !in s ==> HoldsNothing(init, cs, key)
  {
    assert TouchesAt(cs, key, |cs| - 1);
    assert LastTouch(cs, key, |cs| - 1);
  }

  lemma LastTouchLater(cs: seq<Commands.Command>, key: string, i: int)
    requires cs != [] && !Touches(cs[|cs| - 1], key) && LastTouch(cs[..|cs| - 1], key, i)
    ensures LastTouch(cs, key, i) && cs[i] == cs[..|cs| - 1][i]
  {
    SameTouches(cs, key);
  }

  lemma SameTouches(cs: seq<Commands.Command>, key: string)
    requires cs != [] && !Touches(cs[|cs| - 1], key)
    ensures forall j :: TouchesAt(cs[..|cs| - 1], key, j) <==> TouchesAt(cs, key, j)
  {}

  lemma NeverLater(cs: seq<Commands.Command>, key: string)
    requires cs != [] && !Touches(cs[|cs| - 1], key) && NeverTouched(cs[..|cs| - 1], key)
    ensures NeverTouched(cs, key)
  {
    SameTouches(cs, key);
  }

  lemma UntouchedLast(init: KV, cs: seq<Commands.Command>, key: string, v: string)
    requires cs != [] && !Touches(cs[|cs| - 1], key)
    ensures Holds(init, cs[..|cs| - 1], key, v) ==> Holds(init, cs, key, v)
    ensures HoldsNothing(init, cs[..|cs| - 1], key) ==> HoldsNothing(init, cs, key)
  {
    var before := cs[..|cs| - 1];
    forall i | LastTouch(before, key, i) ensures LastTouch(cs, key, i) && cs[i] == before[i] {
      LastTouchLater(cs, key, i);
    }
    if NeverTouched(before, key) {
      NeverLater(cs, key);
    }
  }

  /** The map after some commands holds what the last command on each key left. */
  lemma {:induction false} MapHolds(init: KV, cs: seq<Commands.Command>, key: string, s: KV)
    requires s == Effects(init, cs)
    ensures key in s ==> Holds(init, cs, key, s[key])
    ensures key !in s ==> HoldsNothing(init, cs, key)
    decreases |cs|
  {
    if cs != [] {
      var k := |cs| - 1;
      if Touches(cs[k], key) {
        TouchedLast(init, cs, key, s);
      } else {
        MapHolds(init, cs[..k], key, Effects(init, cs[..k]));
        UntouchedLast(init, cs, key, if key in s then s[key] else "");
      }
    }
  }

  lemma OneLastTouch(cs: seq<Commands.Command>, key: string, i: int, j: int)
    requires LastTouch(cs, key, i) && LastTouch(cs, key, j)
    ensures i == j
  {
    assert TouchesAt(cs, key, i) && TouchesAt(cs, key, j);
  }

  lemma HoldsOne(init: KV, cs: seq<Commands.Command>, key: string, v: string, w: string)
    requires Holds(init, cs, key, v)
    ensures Holds(init, cs, key, w) ==> v == w
    ensures !HoldsNothing(init, cs, key)
  {
    forall i, j | LastTouch(cs, key, i) && LastTouch(cs, key, j) ensures i == j {
      OneLastTouch(cs, key, i, j);
    }
    assert forall i | LastTouch(cs, key, i) :: !NeverTouched(cs, key);
  }

  lemma NotBoth(init: KV, cs: seq<Commands.Command>, key: string, v: string)
    requires HoldsNothing(init, cs, key)
    ensures !Holds(init, cs, key, v)
  {
    forall i, j | LastTouch(cs, key, i) && LastTouch(cs, key, j) ensures i == j {
      OneLastTouch(cs, key, i, j);
    }
    assert forall i | LastTouch(cs, key, i) :: !NeverTouched(cs, key);
  }

  // ---------- one command ----------

  /** What a client hears whose command `c` is applied after the commands `cs`. */
  ghost predicate Hears(init: KV, cs: seq<Commands.Command>, c: Commands.Command, told: string) {
    && (c.op == "PUT" ==> told == "OK")
    && (c.op == "GET" ==>
          (forall v | Holds(init, cs, c.key, v) :: told == v)
          && (HoldsNothing(init, cs, c.key) ==> told == "key not found"))
    && (c.op == "DELETE" ==>
          ((exists v :: Holds(init, cs, c.key, v)) ==> told == "OK")
          && (HoldsNothing(init, cs, c.key) ==> told == "key not found"))
    && (c.op != "PUT" && c.op != "GET" && c.op != "DELETE" ==> told == "error: unknown command")
  }

  lemma AnswerIsHeard(init: KV, cs: seq<Commands.Command>, s: KV, c: Commands.Command)
    requires s == Effects(init, cs)
    ensures Hears(init, cs, c, Answer(s, c))
  {
    MapHolds(init, cs, c.key, s);
    if c.key in s {
      forall v | Holds(init, cs, c.key, v) ensures v == s[c.key] {
        HoldsOne(init, cs, c.key, s[c.key], v);
      }
      HoldsOne(init, cs, c.key, s[c.key], s[c.key]);
    } else {
      forall v ensures !Holds(init, cs, c.key, v) {
        NotBoth(init, cs, c.key, v);
      }
    }
  }

  // ---------- the apply loop of a committed call ----------

  /** The commands of some texts. */
  function ReadTexts(texts: seq<string>): seq<Commands.Command> {
    seq(|texts|, i requires 0 <= i < |texts| => Commands.Parse(texts[i]))
  }

  lemma ExecIsEffect(s: KV, text: string, c: Commands.Command)
    requires c == Commands.Parse(text)
    ensures Commands.Exec(s, text) == Effect(s, c)
  {}

  lemma ReadInit(texts: seq<string>)
    requires texts != []
    ensures ReadTexts(texts) == ReadTexts(texts[..|texts| - 1]) + [Commands.Parse(texts[|texts| - 1])]
  {}

  lemma EffectsSnoc(init: KV, cs: seq<Commands.Command>, c: Commands.Command)
    ensures Effects(init, cs + [c]) == Effect(Effects(init, cs), c)
  {
    assert (cs + [c])[..|cs|] == cs;
  }

  lemma {:induction false} ExecAllIsEffects(init: KV, texts: seq<string>)
    ensures Commands.ExecAll(init, texts) == Effects(init, ReadTexts(texts))
  {
    if texts != [] {
      var k := |texts| - 1;
      ExecAllIsEffects(init, texts[..k]);
      ReadInit(texts);
      EffectsSnoc(init, ReadTexts(texts[..k]), Commands.Parse(texts[k]));
      ExecIsEffect(Commands.ExecAll(init, texts[..k]), texts[k], Commands.Parse(texts[k]));
    }
  }

  /** The commands of a log from `a` up to `b`. */
  function TextsOf(full: Log, a: int, b: int): seq<string>
    requires 0 <= a <= b <= |full|
  {
    seq(b - a, i requires 0 <= i < b - a => full[a + i].command)
  }

  lemma CommandOf(n: Node, full: Log, i: int)
    requires Represents(n, full) && H.Base(n) <= i < |full|
    ensures H.CommandAt(n, i) == Some(full[i].command)
  {
    assert n.log[i - H.Base(n)] == full[i];
  }

  /** The loop up to `target`, and one turn more. */
  lemma {:induction false} OneTurnMore(n: Node, target: int, result: string)
    requires n.lastApplied <= target
    ensures var m := H.ApplyUpTo(n, target);
      && m.lastApplied == target && H.ApplyUpTo(n, target + 1) == H.ApplyOne(m)
      && LastAnswer(n, target + 1, result) == AnswerNext(m, LastAnswer(n, target, result))
    decreases target - n.lastApplied
  {
    if n.lastApplied < target {
      OneTurnMore(H.ApplyOne(n), target, AnswerNext(n, result));
    } else {
      LoopEnds(H.ApplyOne(n), target + 1, AnswerNext(n, result));
    }
  }

  lemma LoopEnds(n: Node, target: int, result: string)
    requires n.lastApplied >= target
    ensures H.ApplyUpTo(n, target) == n && LastAnswer(n, target, result) == result
  {}

  /** A loop within the log reads the entries in turn. */
  lemma {:induction false} LoopReads(n: Node, full: Log, target: int)
    requires Represents(n, full) && H.Base(n) <= n.lastApplied + 1 && n.lastApplied <= target < |full|
    ensures var trace := ApplyTrace(n, target);
      && |trace| == target - n.lastApplied
      && forall i | 0 <= i < |trace| ::
           trace[i] == Read(n.lastApplied + 1 + i, Some(full[n.lastApplied + 1 + i].command))
    decreases target - n.lastApplied
  {
    if n.lastApplied < target {
      CommandOf(n, full, n.lastApplied + 1);
      LoopReads(n.(lastApplied := n.lastApplied + 1), full, target);
    }
  }

  lemma TraceTexts(trace: seq<Read>, full: Log, a: int)
    requires 0 <= a <= a + |trace| <= |full|
    requires forall i | 0 <= i < |trace| :: trace[i] == Read(a + i, Some(full[a + i].command))
    ensures CommandsOf(trace) == TextsOf(full, a, a + |trace|)
  {}

  lemma StoreIs(n: Node, m: Node, trace: seq<Read>, texts: seq<string>)
    requires Applies(n, m, trace) && CommandsOf(trace) == texts
    ensures m.store == Commands.ExecAll(n.store, texts)
  {
    ReadsAreCommands(n.store, trace);
  }

  lemma LoopTexts(n: Node, full: Log, target: int, trace: seq<Read>, texts: seq<string>)
    requires Represents(n, full) && 0 <= n.lastApplied <= target < |full| && H.Base(n) <= n.lastApplied + 1
    requires trace == ApplyTrace(n, target) && texts == TextsOf(full, n.lastApplied + 1, target + 1)
    ensures (forall i | 0 <= i < |trace| :: trace[i].command.Some?) && CommandsOf(trace) == texts
  {
    LoopReads(n, full, target);
    TraceTexts(trace, full, n.lastApplied + 1);
  }

  /** The loop up to `target` leaves the map with the entries up to there. */
  lemma LoopStore(n: Node, full: Log, target: int, m: Node, trace: seq<Read>, texts: seq<string>)
    requires Represents(n, full) && 0 <= n.lastApplied <= target < |full| && H.Base(n) <= n.lastApplied + 1
    requires Applies(n, m, trace) && trace == ApplyTrace(n, target)
    requires texts == TextsOf(full, n.lastApplied + 1, target + 1)
    ensures m.store == Commands.ExecAll(n.store, texts)
  {
    LoopTexts(n, full, target, trace, texts);
    StoreIs(n, m, trace, texts);
  }

  lemma LoopRuns(n: Node, full: Log, target: int, m: Node)
    requires Represents(n, full) && H.Base(n) <= n.lastApplied + 1 && target < |full| && m == H.ApplyUpTo(n, target)
    ensures Applies(n, m, ApplyTrace(n, target)) && m.log == n.log && m.snapshot == n.snapshot
  {
    LoopApplies(n, target, ApplyTrace(n, target), m);
    ApplyKeeps(n, target);
  }

  lemma LastTurn(m: Node, text: string, result: string, c: Commands.Command)
    requires H.CommandAt(m, m.lastApplied + 1) == Some(text) && c == Commands.Parse(text)
    ensures AnswerNext(m, result) == Answer(m.store, c)
  {}

  /** The node before the last turn of a loop up to `index`: what was read and applied until then. */
  ghost predicate BeforeLast(n: Node, index: int, m: Node, trace: seq<Read>) {
    && m.lastApplied == index - 1 && m.log == n.log && m.snapshot == n.snapshot
    && Applies(n, m, trace) && trace == ApplyTrace(n, index - 1)
  }

  lemma TurnBefore(n: Node, index: int, told: string) returns (m: Node, before: string)
    requires n.lastApplied < index && told == LastAnswer(n, index, "")
    ensures m == H.ApplyUpTo(n, index - 1) && m.lastApplied == index - 1 && told == AnswerNext(m, before)
  {
    OneTurnMore(n, index - 1, "");
    m, before := H.ApplyUpTo(n, index - 1), LastAnswer(n, index - 1, "");
  }

  /** The last turn of the loop, and what was heard before it. */
  lemma FinalTurn(n: Node, full: Log, index: int, told: string) returns (m: Node, trace: seq<Read>, before: string)
    requires Represents(n, full) && 0 <= n.lastApplied < index < |full| && H.Base(n) <= n.lastApplied + 1
    requires told == LastAnswer(n, index, "")
    ensures BeforeLast(n, index, m, trace) && told == AnswerNext(m, before)
  {
    m, before := TurnBefore(n, index, told);
    trace := ApplyTrace(n, index - 1);
    LoopRuns(n, full, index - 1, m);
  }

  /** The loop's last result is that of the entry at the target, on the map that the entries before it
      left. */
  lemma LastAnswerIs(n: Node, full: Log, index: int, c: Commands.Command, told: string, m: Node, trace: seq<Read>,
      before: string, s: KV)
    requires Represents(n, full) && 0 <= n.lastApplied < index < |full| && H.Base(n) <= n.lastApplied + 1
    requires c == Commands.Parse(full[index].command) && BeforeLast(n, index, m, trace)
    requires told == AnswerNext(m, before) && s == Commands.ExecAll(n.store, TextsOf(full, n.lastApplied + 1, index))
    ensures told == Answer(s, c)
  {
    LoopStore(n, full, index - 1, m, trace, TextsOf(full, n.lastApplied + 1, index));
    CommandOf(m, full, index);
    LastTurn(m, full[index].command, before, c);
  }

  lemma HearsAfter(init: KV, before: seq<string>, texts: seq<string>, s: KV, s': KV, c: Commands.Command, told: string)
    requires s == Commands.ExecAll(init, before) && s' == Commands.ExecAll(s, texts) && told == Answer(s', c)
    ensures Hears(init, ReadTexts(before + texts), c, told)
  {
    Commands.ExecAllAppend(init, before, texts);
    ExecAllIsEffects(init, before + texts);
    AnswerIsHeard(init, ReadTexts(before + texts), s', c);
  }

  /** A committed call is told what its own entry amounts to: after the commands `before`, which made
      the node's map, and the entries between. */
  lemma CommittedHears(n: Node, full: Log, index: int, init: KV, before: seq<string>, c: Commands.Command,
      told: string, texts: seq<string>)
    requires Represents(n, full) && 0 <= n.lastApplied < index < |full| && H.Base(n) <= n.lastApplied + 1
    requires n.store == Commands.ExecAll(init, before) && c == Commands.Parse(full[index].command)
    requires told == LastAnswer(n, index, "") && texts == TextsOf(full, n.lastApplied + 1, index)
    ensures Hears(init, ReadTexts(before + texts), c, told)
  {
    var m, trace, b := FinalTurn(n, full, index, told);
    var s := Commands.ExecAll(n.store, texts);
    LastAnswerIs(n, full, index, c, told, m, trace, b, s);
    HearsAfter(init, before, texts, n.store, s, c, told);
  }

  // ---------- the whole call ----------

  /** The peers from slot `i` on that answer success. */
  function Takers(replies: seq<Option<AppendReply>>, i: nat): set<nat> {
    set k: nat | i <= k < |replies| && replies[k].Some? && replies[k].value.success
  }

  predicate SomeHigher(replies: seq<Option<AppendReply>>, i: nat, term: nat) {
    exists k :: i <= k < |replies| && replies[k].Some? && replies[k].value.term > term
  }

  /** A leader after some replies, apart from what it knows about its peers. */
  predicate SameButPeers(n: Node, m: Node) {
    m == n.(nextIndex := m.nextIndex, matchIndex := m.matchIndex)
  }

  lemma TakersNext(replies: seq<Option<AppendReply>>, i: nat)
    requires i < |replies|
    ensures |Takers(replies, i)| ==
      |Takers(replies, i + 1)| + if replies[i].Some? && replies[i].value.success then 1 else 0
  {
    if replies[i].Some? && replies[i].value.success {
      assert Takers(replies, i) == Takers(replies, i + 1) + {i};
    } else {
      assert Takers(replies, i) == Takers(replies, i + 1);
    }
  }

  lemma ReplyKeeps(n: Node, i: nat, index: int, r: AppendReply)
    requires i < |n.nextIndex| == |n.matchIndex| && r.term <= n.term
    ensures SameButPeers(n, H.ClientReply(n, i, index, r))
    ensures |H.ClientReply(n, i, index, r).nextIndex| == |H.ClientReply(n, i, index, r).matchIndex| == |n.nextIndex|
  {}

  /** The loop over the peers counts those that take the entry, unless one is in a higher term. */
  lemma {:induction false} ReplicatedCounts(n: Node, index: int, replies: seq<Option<AppendReply>>, i: nat)
    requires i <= |replies| == |n.nextIndex| == |n.matchIndex|
    ensures var (m, count) := Replicated(n, index, replies, i);
      && (count.None? <==> SomeHigher(replies, i, n.term))
      && (count.Some? ==> count.value == |Takers(replies, i)| && SameButPeers(n, m))
    decreases |replies| - i
  {
    if i == |replies| {
      assert Takers(replies, i) == {};
    } else {
      TakersNext(replies, i);
      if replies[i].None? {
        ReplicatedCounts(n, index, replies, i + 1);
      } else if replies[i].value.term <= n.term {
        ReplyKeeps(n, i, index, replies[i].value);
        ReplicatedCounts(H.ClientReply(n, i, index, replies[i].value), index, replies, i + 1);
      }
    }
  }

  lemma AnswerNextIs(n: Node, c: Option<string>, store: KV, result: string, told: string)
    requires c == H.CommandAt(n, n.lastApplied + 1) && store == n.store && told == AnswerTo(store, c, result)
    ensures AnswerNext(n, result) == told
  {}

  lemma SameAnswer(n: Node, m: Node, result: string)
    requires m.log == n.log && m.snapshot == n.snapshot && m.lastApplied == n.lastApplied && m.store == n.store
    ensures AnswerNext(m, result) == AnswerNext(n, result)
  {
    var c := H.CommandAt(n, n.lastApplied + 1);
    assert H.CommandAt(m, m.lastApplied + 1) == c;
    var told := AnswerTo(n.store, c, result);
    AnswerNextIs(n, c, n.store, result, told);
    AnswerNextIs(m, c, n.store, result, told);
  }

  /** One turn, by the command it finds and the map that leaves. */
  lemma SameTurn(n: Node, m: Node, c: Option<string>, s: KV, n': Node, m': Node)
    requires m.log == n.log && m.snapshot == n.snapshot && m.lastApplied == n.lastApplied && m.store == n.store
    requires c == H.CommandAt(n, n.lastApplied + 1) && s == H.ApplyCommand(n.store, c)
    requires n' == H.ApplyOne(n) && m' == H.ApplyOne(m)
    ensures m'.log == n'.log && m'.snapshot == n'.snapshot && m'.lastApplied == n'.lastApplied == n.lastApplied + 1
    ensures m'.store == n'.store
  {
    assert H.CommandAt(m, m.lastApplied + 1) == c;
    H.ApplyOneIs(n, c, s);
    H.ApplyOneIs(m, c, s);
  }

  lemma {:induction false} LastAnswerSame(n: Node, m: Node, index: int, result: string)
    requires m.log == n.log && m.snapshot == n.snapshot && m.lastApplied == n.lastApplied && m.store == n.store
    ensures LastAnswer(m, index, result) == LastAnswer(n, index, result)
    decreases index - n.lastApplied
  {
    if n.lastApplied < index {
      var c := H.CommandAt(n, n.lastApplied + 1);
      SameTurn(n, m, c, H.ApplyCommand(n.store, c), H.ApplyOne(n), H.ApplyOne(m));
      SameAnswer(n, m, result);
      LastAnswerSame(H.ApplyOne(n), H.ApplyOne(m), index, AnswerNext(n, result));
    }
  }

  /** What a client is told. A reply of a higher term ends the call; without a majority the command is
      not committed; with one, the client hears what its own command amounts to after all commands before
      it in the log. `n` is the leader with the client's entry appended at `index`. */
  lemma ToldExactly(n: Node, full: Log, index: int, replies: seq<Option<AppendReply>>, init: KV, before: seq<string>,
      told: string)
    requires |replies| == |n.nextIndex| == |n.matchIndex| && Represents(n, full)
    requires 0 <= n.lastApplied < index < |full| && H.Base(n) <= n.lastApplied + 1 && full[index].term == n.term
    requires n.store == Commands.ExecAll(init, before) && told == Told(n, index, replies)
    ensures SomeHigher(replies, 0, n.term) ==> told == "leader step down"
    ensures !SomeHigher(replies, 0, n.term) && 2 * (1 + |Takers(replies, 0)|) <= |replies| + 1 ==>
      told == "error: not committed"
    ensures !SomeHigher(replies, 0, n.term) && 2 * (1 + |Takers(replies, 0)|) > |replies| + 1 ==>
      Hears(init, ReadTexts(before + TextsOf(full, n.lastApplied + 1, index)),
            Commands.Parse(full[index].command), told)
  {
    ReplicatedCounts(n, index, replies, 0);
    TermOfFull(n, full, index);
    CommittedHears(n, full, index, init, before, Commands.Parse(full[index].command), LastAnswer(n, index, ""),
                   TextsOf(full, n.lastApplied + 1, index));
    ToldCases(n, index, replies, told);
  }

  lemma ToldCases(n: Node, index: int, replies: seq<Option<AppendReply>>, told: string)
    requires |replies| == |n.nextIndex| == |n.matchIndex| && told == Told(n, index, replies)
    requires H.LogTerm(n, index) == n.term
    ensures var count := Replicated(n, index, replies, 0).1;
      told == if count.None? then "leader step down"
              else if 2 * (1 + count.value) > |replies| + 1 then LastAnswer(n, index, "")
              else "error: not committed"
  {
    ReplicatedCounts(n, index, replies, 0);
    var (m, count) := Replicated(n, index, replies, 0);
    if count.Some? {
      LastAnswerSame(n, m.(commitIndex := index), index, "");
    }
  }

  /** An entry of an earlier term is not committed by counting: whoever takes it, the client is told so or
      that the leader stepped down, and nothing is applied. */
  lemma OlderNotCommitted(n: Node, full: Log, index: int, replies: seq<Option<AppendReply>>)
    requires |replies| == |n.nextIndex| == |n.matchIndex| && Represents(n, full)
    requires H.Base(n) <= index < |full| && full[index].term != n.term
    ensures Told(n, index, replies) ==
      if SomeHigher(replies, 0, n.term) then "leader step down" else "error: not committed"
    ensures !SomeHigher(replies, 0, n.term) ==> SameButPeers(n, Outcome(n, index, replies, 0, 1))
  {
    ReplicatedCounts(n, index, replies, 0);
    TermOfFull(n, full, index);
    var (m, count) := Replicated(n, index, replies, 0);
    assert count.Some? ==> H.LogTerm(m, index) == H.LogTerm(n, index);
  }

  /** A leader commits by counting only entries of its own term. */
  lemma CommitsOwnTerm(c: Cluster, n: nat, index: int, full: Log)
    requires CanCommit(c, n, index) && Represents(c.procs[n].node, full) && H.Base(c.procs[n].node) <= index < |full|
    ensures full[index].term == c.procs[n].node.term
  {
    TermOfFull(c.procs[n].node, full, index);
  }

  // ---------- reading back what was put ----------

  lemma LastTouchIs(cs: seq<Commands.Command>, i: nat, c: Commands.Command)
    requires i < |cs| && cs[i] == c && (c.op == "PUT" || c.op == "DELETE")
    requires forall j | i < j :: !TouchesAt(cs, c.key, j)
    ensures LastTouch(cs, c.key, i)
  {}

  lemma HearsValue(init: KV, cs: seq<Commands.Command>, c: Commands.Command, told: string, v: string)
    requires Hears(init, cs, c, told) && c.op == "GET" && Holds(init, cs, c.key, v)
    ensures told == v
  {}

  lemma HearsNothing(init: KV, cs: seq<Commands.Command>, c: Commands.Command, told: string)
    requires Hears(init, cs, c, told) && c.op == "GET" && HoldsNothing(init, cs, c.key)
    ensures told == "key not found"
  {}

  /** A GET of a key whose last command was a PUT, with others on other keys between, is told the value
      put, whatever it is, as long as the texts can be read back. */
  lemma GetAfterPut(init: KV, texts: seq<string>, i: nat, key: string, value: string, cs: seq<Commands.Command>,
      get: Commands.Command, told: string)
    requires i < |texts| && texts[i] == Commands.Build("PUT", key, value) && cs == ReadTexts(texts)
    requires key != "" && Commands.NoSpace(key) && '\n' !in value
    requires forall j | i < j :: !TouchesAt(cs, key, j)
    requires get == Commands.Parse(Commands.Build("GET", key, "")) && Hears(init, cs, get, told)
    ensures told == value
  {
    Commands.CommandRoundTrip("PUT", key, value);
    Commands.CommandRoundTrip("GET", key, "");
    LastTouchIs(cs, i, Commands.Command("PUT", key, value));
    HearsValue(init, cs, get, told, value);
  }

  /** After a DELETE it is told that there is none. */
  lemma GetAfterDelete(init: KV, cs: seq<Commands.Command>, i: nat, key: string, told: string)
    requires i < |cs| && cs[i].op == "DELETE" && cs[i].key == key
    requires forall j | i < j :: !TouchesAt(cs, key, j)
    requires Hears(init, cs, Commands.Command("GET", key, ""), told)
    ensures told == "key not found"
  {
    LastTouchIs(cs, i, cs[i]);
    HearsNothing(init, cs, Commands.Command("GET", key, ""), told);
  }
}
