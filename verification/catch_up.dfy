/** Catching up: one leader and one follower that exchange heartbeats and nothing else. The
    leader backs off by one entry on failure and sends batches; the follower skips a batch whose
    first entry it has, and a batch too long for the receiver's buffer is refused unread. */
module CatchUp {
  import opened RaftTypes
  import opened AppendText
  import opened ByteCodec
  import opened LogMatching
  import opened ElectionSafety
  import H = Handlers

  /** The length of the longest common prefix, counted from `i`. */
  function CommonFrom(a: Log, b: Log, i: nat): (c: nat)
    requires i <= |a| && i <= |b|
    ensures i <= c <= |a| && c <= |b|
    ensures forall k | i <= k < c :: a[k] == b[k]
    ensures c < |a| && c < |b| ==> a[c] != b[c]
    decreases |a| - i
  {
    if i < |a| && i < |b| && a[i] == b[i] then CommonFrom(a, b, i + 1) else i
  }

  function Common(a: Log, b: Log): nat {
    CommonFrom(a, b, 0)
  }

  lemma EqualTermsAreCommon(a: Log, b: Log, i: nat)
    requires Matched(a, b) && i < |a| && i < |b| && a[i].term == b[i].term
    ensures i < Common(a, b)
  {
    var c := Common(a, b);
    assert a[..i + 1] == b[..i + 1];
    assert forall k | 0 <= k <= i :: a[..i + 1][k] == a[k] && b[..i + 1][k] == b[k];
  }

  lemma CommonPrefix(a: Log, b: Log)
    ensures a[..Common(a, b)] == b[..Common(a, b)]
    ensures a <= b <==> Common(a, b) == |a|
  {
    var c := Common(a, b);
    if a <= b {
      assert forall k | 0 <= k < |a| :: a[k] == b[k];
    }
    if c == |a| {
      assert a == a[..c];
    }
  }

  lemma PrefixIsMatched(a: Log, k: nat)
    requires k <= |a|
    ensures Matched(a, a[..k]) && Common(a, a[..k]) == k
  {
    var c, b := Common(a, a[..k]), a[..k];
    forall i | 0 <= i < |a| && i < |b| && a[i].term == b[i].term ensures a[..i + 1] == b[..i + 1] {
      assert b[..i + 1] == a[..i + 1];
    }
  }

  predicate Pair(l: Node, f: Node, slot: nat) {
    && l.role == Leader && l.snapshot.None? && f.snapshot.None?
    && f.term <= l.term && (f.term == l.term ==> f.role != Leader)
    && Indexed(l.log) && Matched(l.log, f.log)
    && slot < |l.nextIndex| && slot < |l.matchIndex| && 0 <= l.nextIndex[slot] <= |l.log|
  }

  /** The position behind a batch, in a log of `size` entries. */
  function AfterBatch(next: int, size: nat): int {
    if next + MAX_ENTRIES_PER_BATCH < size then next + MAX_ENTRIES_PER_BATCH else size
  }

  function BatchEnd(l: Node, next: int): int {
    AfterBatch(next, |l.log|)
  }

  /** The heartbeat a leader sends to a peer whose next index is `next`. */
  function RequestAt(l: Node, next: int): AppendArgs {
    AppendArgs(l.term, l.id, next - 1, H.LogTerm(l, next - 1),
      if next < H.LogSize(l) then H.LogEntries(l, next, BatchEnd(l, next)) else [], l.commitIndex)
  }

  /** One heartbeat: a request that `room` lets through is handled and answered, any other is
      refused. No snapshot is taken. */
  function Round(room: AppendArgs -> bool, l: Node, f: Node, slot: nat): (Node, Node)
    requires slot < |l.nextIndex| && slot < |l.matchIndex|
  {
    var a := H.HeartbeatRequest(l, slot);
    if room(a) then
      var (f', r) := H.HandleAppendCore(f, a);
      (H.HeartbeatReply(l, slot, a.prevLogIndex + 1, |a.entries|, r), f')
    else (H.HeartbeatReply(l, slot, a.prevLogIndex + 1, |a.entries|, H.REFUSED), f)
  }

  predicate FitsAt(room: AppendArgs -> bool, l: Node, next: int) {
    room(RequestAt(l, next))
  }

  lemma RequestAtIs(l: Node, next: int)
    requires l.snapshot.None? && 0 <= next <= |l.log|
    ensures var a := RequestAt(l, next);
      && a.entries == (if next < |l.log| then l.log[next..BatchEnd(l, next)] else [])
      && a.prevLogTerm == if next > 0 then l.log[next - 1].term else 0
  {}

  lemma RequestIs(l: Node, slot: nat)
    requires l.snapshot.None? && slot < |l.nextIndex| && 0 <= l.nextIndex[slot] <= |l.log|
    ensures H.HeartbeatRequest(l, slot) == RequestAt(l, l.nextIndex[slot])
  {}

  lemma RequestSent(l: Node, slot: nat)
    requires l.snapshot.None? && slot < |l.nextIndex| && 0 <= l.nextIndex[slot] <= |l.log|
    ensures var a, next := H.HeartbeatRequest(l, slot), l.nextIndex[slot];
      && a == RequestAt(l, next)
      && a.term == l.term && a.prevLogIndex == next - 1 && SentFrom(l.log, a)
      && |a.entries| == (if next < |l.log| then BatchEnd(l, next) - next else 0)
  {
    RequestIs(l, slot);
    RequestAtIs(l, l.nextIndex[slot]);
  }

  /** The check passes exactly when the leader's guess is within the common prefix. */
  lemma CheckIsCommon(l: Node, f: Node, slot: nat)
    requires Pair(l, f, slot)
    ensures var a := H.HeartbeatRequest(l, slot);
      H.PrevMatches(f, a.prevLogIndex, a.prevLogTerm) <==> l.nextIndex[slot] <= Common(l.log, f.log)
  {
    var next := l.nextIndex[slot];
    RequestSent(l, slot);
    if 0 < next <= |f.log| && f.log[next - 1].term == l.log[next - 1].term {
      EqualTermsAreCommon(l.log, f.log, next - 1);
    }
  }

  /** The log the handler leaves. */
  lemma HandledLog(l: Node, f: Node, slot: nat)
    requires Pair(l, f, slot)
    ensures var c, next := Common(l.log, f.log), l.nextIndex[slot];
      var f' := H.HandleAppendCore(f, H.HeartbeatRequest(l, slot)).0;
      && f'.snapshot.None?
      && f'.log == if next == c < |l.log| then l.log[..BatchEnd(l, next)] else f.log
  {
    var a, c, next := H.HeartbeatRequest(l, slot), Common(l.log, f.log), l.nextIndex[slot];
    RequestSent(l, slot);
    CheckIsCommon(l, f, slot);
    var d := H.StepDown(f, a);
    FinishTakesLog(d, a);
    assert TakenLog(d, a) == TakenLog(f, a);
    if next == c < |l.log| {
      CommonPrefix(l.log, f.log);
      if next < |f.log| && f.log[next].term == l.log[next].term {
        EqualTermsAreCommon(l.log, f.log, next);
      }
      TakesFromLeader(f, l.log, a);
    }
  }

  /** What the follower's log is after a round. */
  lemma RoundLog(room: AppendArgs -> bool, l: Node, f: Node, slot: nat)
    requires Pair(l, f, slot)
    ensures var c, next := Common(l.log, f.log), l.nextIndex[slot];
      var f' := Round(room, l, f, slot).1;
      && f'.snapshot.None?
      && f'.log == if next == c < |l.log| && FitsAt(room, l, next) then l.log[..BatchEnd(l, next)] else f.log
  {
    HandledLog(l, f, slot);
    RequestSent(l, slot);
  }

  lemma RoundReply(l: Node, f: Node, slot: nat)
    requires Pair(l, f, slot)
    ensures var a := H.HeartbeatRequest(l, slot);
      H.HandleAppendCore(f, a).1 == AppendReply(l.term, l.nextIndex[slot] <= Common(l.log, f.log))
  {
    CheckIsCommon(l, f, slot);
  }

  /** The next indices for which the leader's request fits. */
  ghost function FitSet(room: AppendArgs -> bool, l: Node): iset<int> {
    iset q: int | FitsAt(room, l, q)
  }

  /** The leader's guess after a round: it backs off where the check fails and where the request is
      refused, and otherwise moves on behind the batch. `c` is the length of the common prefix. */
  ghost function NextGuess(fit: iset<int>, size: nat, next: int, c: int): int {
    if next > c || next !in fit then (if next > 0 then next - 1 else next)
    else if next < size then AfterBatch(next, size)
    else next
  }

  lemma RoundNext(room: AppendArgs -> bool, l: Node, f: Node, slot: nat)
    requires Pair(l, f, slot)
    ensures var (l', f'), next := Round(room, l, f, slot), l.nextIndex[slot];
      && l' == l.(nextIndex := l'.nextIndex, matchIndex := l'.matchIndex)
      && l'.nextIndex[slot] == NextGuess(FitSet(room, l), |l.log|, next, Common(l.log, f.log))
  {
    RequestSent(l, slot);
    RoundReply(l, f, slot);
  }

  lemma FollowerStays(room: AppendArgs -> bool, l: Node, f: Node, slot: nat)
    requires Pair(l, f, slot)
    ensures var f' := Round(room, l, f, slot).1; f'.term <= l.term && (f'.term == l.term ==> f'.role != Leader)
  {
    var a := H.HeartbeatRequest(l, slot);
    FinishRole(H.StepDown(f, a), a);
  }

  lemma FinishRole(d: Node, a: AppendArgs)
    ensures var f := H.FinishAppend(d, a); f.role == d.role && f.term == d.term
  {
    var t := H.TakeEntries(d, a);
    ApplyKeeps(t.(commitIndex := H.CommitTarget(t, a.leaderCommit)), H.CommitTarget(t, a.leaderCommit));
  }

  lemma RoundCommon(room: AppendArgs -> bool, l: Node, f: Node, slot: nat)
    requires Pair(l, f, slot)
    ensures var f', c, next := Round(room, l, f, slot).1, Common(l.log, f.log), l.nextIndex[slot];
      && Matched(l.log, f'.log)
      && Common(l.log, f'.log) == if next == c < |l.log| && FitsAt(room, l, next) then BatchEnd(l, next) else c
  {
    var next := l.nextIndex[slot];
    RoundLog(room, l, f, slot);
    if next == Common(l.log, f.log) < |l.log| && FitsAt(room, l, next) {
      PrefixIsMatched(l.log, BatchEnd(l, next));
    }
  }

  lemma RoundKeepsPair(room: AppendArgs -> bool, l: Node, f: Node, slot: nat)
    requires Pair(l, f, slot)
    ensures Pair(Round(room, l, f, slot).0, Round(room, l, f, slot).1, slot)
  {
    RoundLog(room, l, f, slot);
    RoundCommon(room, l, f, slot);
    RoundNext(room, l, f, slot);
    FollowerStays(room, l, f, slot);
  }

  // ---------- when the follower catches up ----------

  /** One of the twenty batches that lead past position `w` fits. */
  ghost predicate FitWithin(fit: iset<int>, w: int) {
    Leap(fit, w, w)
  }

  /** A batch that fits, lies no further than `next`, and leads past position `w`. */
  ghost predicate Leap(fit: iset<int>, next: int, w: int) {
    exists q :: q in fit && 0 <= q && w - MAX_ENTRIES_PER_BATCH < q <= next
  }

  /** The batches from position `c` on, one behind the other, all fit. */
  ghost predicate ChainFits(fit: iset<int>, size: nat, c: nat)
    decreases size - c
  {
    c >= size || (c in fit && ChainFits(fit, size, AfterBatch(c, size)))
  }

  /** What decides, before the first heartbeat, whether the follower catches up: below the common
      prefix `c` the leader can skip forward past every position, and from there on the batches that
      will be sent fit. */
  ghost predicate Deliverable(fit: iset<int>, size: nat, next: int, c: nat) {
    || c >= size
    || ((forall w | next <= w < c :: FitWithin(fit, w)) && ChainFits(fit, size, c))
  }

  /** The common prefix after a round. */
  ghost function NextCommon(fit: iset<int>, size: nat, next: int, c: nat): (c': nat)
    ensures c' >= c
  {
    if next == c < size && next in fit then AfterBatch(next, size) else c
  }

  /** On the way: the chain fits; below the common prefix `c`, `w` is the furthest position reached
      and a leap past it is not missed. */
  ghost predicate OnWay(fit: iset<int>, size: nat, next: int, c: nat, w: int) {
    && ChainFits(fit, size, c)
    && (forall v | w <= v < c :: FitWithin(fit, v))
    && (next < c ==> next <= w < c && Leap(fit, next, w))
  }

  /** Below the common prefix a leap to make is still ahead. */
  function Phase(next: int, c: int): nat {
    if next < c then 1 else 0
  }

  function Ahead(next: int, c: int, w: int): int {
    if next < c then c - w else 0
  }

  function Behind(next: int, c: int): int {
    if next < c then next else next - c
  }

  /** A round brings the pair of guess and common prefix on, in the lexicographic order of the
      missing suffix, whether the guess lies below the common prefix, how far the furthest position
      is from it, and how far there is to back off. */
  lemma Advance(fit: iset<int>, size: nat, next: nat, c: nat, w: int) returns (w': int)
    requires OnWay(fit, size, next, c, w) && next <= size && c < size
    ensures var next', c' := NextGuess(fit, size, next, c), NextCommon(fit, size, next, c);
      && OnWay(fit, size, next', c', w')
      && (c' > c
          || (c' == c && Phase(next', c) < Phase(next, c))
          || (c' == c && Phase(next', c) == Phase(next, c) && Ahead(next', c, w') < Ahead(next, c, w))
          || (c' == c && Phase(next', c) == Phase(next, c) && Ahead(next', c, w') == Ahead(next, c, w)
              && 0 <= Behind(next', c) < Behind(next, c)))
  {
    w' := size;
    if next < c {
      var q :| q in fit && 0 <= q && w - MAX_ENTRIES_PER_BATCH < q <= next;
      if next !in fit {
        w' := w;
      } else if AfterBatch(next, size) < c {
        w' := AfterBatch(next, size);
        assert FitWithin(fit, w');
      }
    }
  }

  lemma StartsOnWay(fit: iset<int>, size: nat, next: nat, c: nat)
    requires Deliverable(fit, size, next, c) && c < size
    ensures OnWay(fit, size, next, c, if next < c then next else size)
  {
    if next < c {
      assert FitWithin(fit, next);
    }
  }

  /** Held back: a batch of the chain does not fit, or below the common prefix no batch leads past
      some position. */
  ghost predicate HeldBack(fit: iset<int>, size: nat, next: int, c: nat) {
    c < size && (!ChainFits(fit, size, c) || exists w :: next <= w < c && !FitWithin(fit, w))
  }

  lemma HeldBackKept(fit: iset<int>, size: nat, next: nat, c: nat)
    requires HeldBack(fit, size, next, c) && next <= size
    ensures HeldBack(fit, size, NextGuess(fit, size, next, c), NextCommon(fit, size, next, c))
  {
    var next', c' := NextGuess(fit, size, next, c), NextCommon(fit, size, next, c);
    if ChainFits(fit, size, c) {
      var w :| next <= w < c && !FitWithin(fit, w);
      assert next in fit ==> next <= w - MAX_ENTRIES_PER_BATCH;
      assert next' <= w < c' && !FitWithin(fit, w);
    } else {
      assert !ChainFits(fit, size, c');
    }
  }

  ghost function Iterate<S>(step: S -> S, s: S, k: nat): S
    decreases k
  {
    if k == 0 then s else Iterate(step, step(s), k - 1)
  }

  /** A round, on the pair of guess and common prefix. */
  ghost function WalkStep(fit: iset<int>, size: nat): ((int, nat)) -> (int, nat) {
    (p: (int, nat)) => (NextGuess(fit, size, p.0, p.1), NextCommon(fit, size, p.0, p.1))
  }

  ghost function Walk(fit: iset<int>, size: nat, next: int, c: nat, k: nat): (int, nat) {
    Iterate(WalkStep(fit, size), (next, c), k)
  }

  lemma {:induction false} WalkArrives(fit: iset<int>, size: nat, next: nat, c: nat, w: int) returns (k: nat)
    requires next <= size && c <= size && OnWay(fit, size, next, c, w)
    ensures Walk(fit, size, next, c, k).1 == size
    decreases size - c, Phase(next, c), Ahead(next, c, w), Behind(next, c)
  {
    if c == size {
      k := 0;
    } else {
      var w' := Advance(fit, size, next, c, w);
      var rest := WalkArrives(fit, size, NextGuess(fit, size, next, c), NextCommon(fit, size, next, c), w');
      k := rest + 1;
    }
  }

  lemma {:induction false} WalkHeldBack(fit: iset<int>, size: nat, next: nat, c: nat, k: nat)
    requires next <= size && HeldBack(fit, size, next, c)
    ensures Walk(fit, size, next, c, k).1 < size
    decreases k
  {
    if k != 0 {
      HeldBackKept(fit, size, next, c);
      WalkHeldBack(fit, size, NextGuess(fit, size, next, c), NextCommon(fit, size, next, c), k - 1);
    }
  }

  /** In the numbers alone, the common prefix becomes the whole log exactly if it can be delivered. */
  lemma WalkExactly(fit: iset<int>, size: nat, next: nat, c: nat)
    requires next <= size && c <= size
    ensures (exists k: nat :: Walk(fit, size, next, c, k).1 == size) <==> Deliverable(fit, size, next, c)
  {
    if c == size {
      assert Walk(fit, size, next, c, 0).1 == size;
    } else if Deliverable(fit, size, next, c) {
      StartsOnWay(fit, size, next, c);
      var k := WalkArrives(fit, size, next, c, if next < c then next else size);
    } else {
      forall k: nat ensures Walk(fit, size, next, c, k).1 < size {
        WalkHeldBack(fit, size, next, c, k);
      }
    }
  }

  /** The leader apart from what it knows about its peers. */
  predicate SameLeader(l: Node, l': Node) {
    l' == l.(nextIndex := l'.nextIndex, matchIndex := l'.matchIndex)
  }

  lemma SameFits(room: AppendArgs -> bool, l: Node, l': Node)
    requires SameLeader(l, l')
    ensures FitSet(room, l) == FitSet(room, l')
  {
    forall q: int ensures RequestAt(l, q) == RequestAt(l', q) {
    }
  }

  /** One round, as a step of guess and common prefix. */
  lemma RoundStep(room: AppendArgs -> bool, l: Node, f: Node, slot: nat)
    requires Pair(l, f, slot)
    ensures var (l', f'), c, next := Round(room, l, f, slot), Common(l.log, f.log), l.nextIndex[slot];
      && Pair(l', f', slot) && SameLeader(l, l') && FitSet(room, l') == FitSet(room, l)
      && l'.nextIndex[slot] == NextGuess(FitSet(room, l), |l.log|, next, c)
      && Common(l.log, f'.log) == NextCommon(FitSet(room, l), |l.log|, next, c)
  {
    RoundKeepsPair(room, l, f, slot);
    RoundCommon(room, l, f, slot);
    RoundNext(room, l, f, slot);
    SameFits(room, l, Round(room, l, f, slot).0);
  }

  /** A leader and a follower at a guess and a common prefix. */
  ghost predicate At(room: AppendArgs -> bool, l: Node, f: Node, slot: nat, fit: iset<int>, log: Log,
                     next: int, c: nat)
  {
    Pair(l, f, slot) && FitSet(room, l) == fit && l.log == log && l.nextIndex[slot] == next && Common(log, f.log) == c
  }

  lemma StepAt(room: AppendArgs -> bool, l: Node, f: Node, slot: nat, fit: iset<int>, log: Log, next: int, c: nat)
    requires At(room, l, f, slot, fit, log, next, c)
    ensures 0 <= next <= |log| && c <= |log| && (log <= f.log <==> c == |log|)
    ensures var (l', f') := Round(room, l, f, slot);
      At(room, l', f', slot, fit, log, NextGuess(fit, |log|, next, c), NextCommon(fit, |log|, next, c))
  {
    CommonPrefix(log, f.log);
    RoundStep(room, l, f, slot);
  }

  /** A round as a step on the pair of nodes. */
  function RoundOf(room: AppendArgs -> bool, slot: nat): ((Node, Node)) -> (Node, Node) {
    (p: (Node, Node)) =>
      if slot < |p.0.nextIndex| && slot < |p.0.matchIndex| then Round(room, p.0, p.1, slot) else p
  }

  /** After some number of rounds the follower's log has the leader's as a prefix. */
  ghost predicate CatchesUp(room: AppendArgs -> bool, l: Node, f: Node, slot: nat) {
    exists k: nat :: l.log <= Iterate(RoundOf(room, slot), (l, f), k).1.log
  }

  /** Steps of related states lead to related states. */
  ghost predicate Simulates<S(!new), T(!new)>(f: S -> S, g: T -> T, rel: (S, T) -> bool) {
    forall s, t | rel(s, t) :: rel(f(s), g(t))
  }

  lemma {:induction false} StaysRelated<S(!new), T(!new)>(f: S -> S, g: T -> T, rel: (S, T) -> bool,
      s: S, t: T, k: nat)
    requires Simulates(f, g, rel) && rel(s, t)
    ensures rel(Iterate(f, s, k), Iterate(g, t, k))
    decreases k
  {
    if k != 0 {
      StaysRelated(f, g, rel, f(s), g(t), k - 1);
    }
  }

  ghost function Related(room: AppendArgs -> bool, slot: nat, fit: iset<int>, log: Log)
      : ((Node, Node), (int, nat)) -> bool
  {
    (p: (Node, Node), q: (int, nat)) => At(room, p.0, p.1, slot, fit, log, q.0, q.1)
  }

  lemma RoundsSimulate(room: AppendArgs -> bool, slot: nat, fit: iset<int>, log: Log)
    ensures Simulates(RoundOf(room, slot), WalkStep(fit, |log|), Related(room, slot, fit, log))
  {
    forall p: (Node, Node), q: (int, nat) | Related(room, slot, fit, log)(p, q)
      ensures Related(room, slot, fit, log)(RoundOf(room, slot)(p), WalkStep(fit, |log|)(q))
    {
      StepAt(room, p.0, p.1, slot, fit, log, q.0, q.1);
    }
  }

  /** After `k` rounds the follower has the whole log exactly if the walk has arrived. */
  lemma RoundsArrive(room: AppendArgs -> bool, l: Node, f: Node, slot: nat, fit: iset<int>, log: Log,
      next: int, c: nat, k: nat)
    requires At(room, l, f, slot, fit, log, next, c)
    ensures log <= Iterate(RoundOf(room, slot), (l, f), k).1.log <==> Walk(fit, |log|, next, c, k).1 == |log|
  {
    RoundsSimulate(room, slot, fit, log);
    StaysRelated(RoundOf(room, slot), WalkStep(fit, |log|), Related(room, slot, fit, log), (l, f), (next, c), k);
    CommonPrefix(log, Iterate(RoundOf(room, slot), (l, f), k).1.log);
  }

  /** Heartbeats alone bring the follower to hold the leader's whole log, from any `nextIndex` up to
      the log's size and however the follower's log differs, if and only if the requests that stand
      in the way get through: below the common prefix one in every twenty consecutive ones, and
      from it on each batch that follows the one before. */
  lemma CatchesUpExactly(room: AppendArgs -> bool, l: Node, f: Node, slot: nat)
    requires Pair(l, f, slot)
    ensures CatchesUp(room, l, f, slot) <==>
      Deliverable(FitSet(room, l), |l.log|, l.nextIndex[slot], Common(l.log, f.log))
  {
    var fit, next, c := FitSet(room, l), l.nextIndex[slot], Common(l.log, f.log);
    WalkExactly(fit, |l.log|, next, c);
    if Deliverable(fit, |l.log|, next, c) {
      var k: nat :| Walk(fit, |l.log|, next, c, k).1 == |l.log|;
      Arrives(room, l, f, slot, fit, l.log, next, c, k);
    } else {
      NeverArrives(room, l, f, slot, fit, l.log, next, c);
    }
  }

  lemma Arrives(room: AppendArgs -> bool, l: Node, f: Node, slot: nat, fit: iset<int>, log: Log,
      next: int, c: nat, k: nat)
    requires At(room, l, f, slot, fit, log, next, c) && Walk(fit, |log|, next, c, k).1 == |log|
    ensures CatchesUp(room, l, f, slot)
  {
    RoundsArrive(room, l, f, slot, fit, log, next, c, k);
  }

  lemma NeverArrives(room: AppendArgs -> bool, l: Node, f: Node, slot: nat, fit: iset<int>, log: Log,
      next: int, c: nat)
    requires At(room, l, f, slot, fit, log, next, c)
    requires forall k: nat :: Walk(fit, |log|, next, c, k).1 != |log|
    ensures !CatchesUp(room, l, f, slot)
  {
    forall k: nat ensures !(log <= Iterate(RoundOf(room, slot), (l, f), k).1.log) {
      RoundsArrive(room, l, f, slot, fit, log, next, c, k);
    }
  }

  /** The heartbeat loop. It ends where the requests in the way fit, with the follower holding the
      leader's whole log. */
  method CatchUp(room: AppendArgs -> bool, leader: Node, follower: Node, slot: nat) returns (l: Node, f: Node)
    requires Pair(leader, follower, slot)
    requires Deliverable(FitSet(room, leader), |leader.log|, leader.nextIndex[slot], Common(leader.log, follower.log))
    ensures SameLeader(leader, l) && leader.log <= f.log && Pair(l, f, slot)
  {
    l, f := leader, follower;
    ghost var fit, size, next, c: nat := FitSet(room, l), |l.log|, l.nextIndex[slot], Common(l.log, f.log);
    ghost var w := if next < c then next else size;
    StepAt(room, l, f, slot, fit, leader.log, next, c);
    if c < size {
      StartsOnWay(fit, size, next, c);
    }
    while !(l.log <= f.log)
      invariant SameLeader(leader, l) && At(room, l, f, slot, fit, leader.log, next, c)
      invariant leader.log <= f.log <==> c == size
      invariant c < size ==> OnWay(fit, size, next, c, w)
      decreases size - c, Phase(next, c), Ahead(next, c, w), Behind(next, c)
    {
      StepAt(room, l, f, slot, fit, leader.log, next, c);
      RoundStep(room, l, f, slot);
      w := Advance(fit, size, next, c, w);
      next, c := NextGuess(fit, size, next, c), NextCommon(fit, size, next, c);
      var (l', f') := Round(room, l, f, slot);
      l, f := l', f';
      StepAt(room, l, f, slot, fit, leader.log, next, c);
    }
  }

  // ---------- the receiver's buffer ----------

  /** What gets through: the requests that fit into the receiver's buffer. */
  function Buffer(): AppendArgs -> bool {
    (a: AppendArgs) => Fits(a)
  }

  lemma BatchIsStretch(l: Node, next: nat)
    requires l.snapshot.None? && next < |l.log|
    ensures RequestAt(l, next).entries == l.log[next..BatchEnd(l, next)]
  {}

  /** A leader whose first twenty commands have 400 characters never gets them to a follower with
      an empty log: it backs off to the start and stays there. */
  lemma LongCommandsNeverArrive(l: Node, f: Node, slot: nat)
    requires Pair(l, f, slot) && f.log == [] && |l.log| >= 20 && AllLong(l.log[..20])
    ensures !CatchesUp(Buffer(), l, f, slot)
  {
    BatchIsStretch(l, 0);
    assert RequestAt(l, 0).entries == l.log[..20];
    LongDoesNotFit(RequestAt(l, 0));
    assert 0 !in FitSet(Buffer(), l) && Common(l.log, f.log) == 0;
    assert !ChainFits(FitSet(Buffer(), l), |l.log|, 0);
    CatchesUpExactly(Buffer(), l, f, slot);
  }

  predicate Numbers32(l: Node) {
    Int32(l.term) && Int32(l.id) && Int32(l.commitIndex) && Int32(|l.log|)
  }

  lemma ShortFitsAt(l: Node, next: nat)
    requires l.snapshot.None? && AllShort(l.log) && Numbers32(l) && next <= |l.log|
    ensures next in FitSet(Buffer(), l)
  {
    if next < |l.log| {
      BatchIsStretch(l, next);
    }
    ShortFits(RequestAt(l, next));
  }

  lemma {:induction false} ChainOfAll(fit: iset<int>, size: nat, c: nat)
    requires forall q | 0 <= q <= size :: q in fit
    ensures ChainFits(fit, size, c)
    decreases size - c
  {
    if c < size {
      ChainOfAll(fit, size, AfterBatch(c, size));
    }
  }

  /** With commands of at most 340 characters, escapes included, every follower catches up. */
  lemma ShortCommandsArrive(l: Node, f: Node, slot: nat)
    requires Pair(l, f, slot) && AllShort(l.log) && Numbers32(l)
    ensures CatchesUp(Buffer(), l, f, slot)
  {
    var fit := FitSet(Buffer(), l);
    forall q | 0 <= q <= |l.log| ensures q in fit {
      ShortFitsAt(l, q);
    }
    AllFitDelivers(fit, |l.log|, l.nextIndex[slot], Common(l.log, f.log));
    CatchesUpExactly(Buffer(), l, f, slot);
  }

  lemma AllFitDelivers(fit: iset<int>, size: nat, next: nat, c: nat)
    requires (forall q | 0 <= q <= size :: q in fit) && c <= size
    ensures Deliverable(fit, size, next, c)
  {
    forall w | next <= w < c ensures FitWithin(fit, w) {
      assert w in fit;
    }
    ChainOfAll(fit, size, c);
  }

  // ---------- the handler that may take a snapshot ----------

  /** A round is what the whole handler does, compaction included, while both logs are short. */
  lemma ShortTakesNoSnapshot(l: Node, f: Node, slot: nat)
    requires Pair(l, f, slot) && |l.log| < SNAPSHOT_THRESHOLD && |f.log| < SNAPSHOT_THRESHOLD
    ensures var a := H.HeartbeatRequest(l, slot); H.HandleAppend(f, a) == H.HandleAppendCore(f, a)
  {
    HandledLog(l, f, slot);
  }
}
