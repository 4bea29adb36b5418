/** Log Matching in runs without compaction: every log is, up to each of its entries, the log
    that the leader of that entry's term had when it made the entry. */
module LogMatching {
  import opened RaftTypes
  import opened Protocol
  import opened History
  import opened ElectionSafety
  import H = Handlers

  predicate NoSnapshots(c: Cluster) {
    forall i | 0 <= i < |c.procs| :: c.procs[i].node.snapshot.None?
  }

  /** Up to `i`, the log is that of the leader of the term of entry `i`. */
  predicate GoodAt(h: Hist, log: Log, i: nat)
    requires i < |log|
  {
    && log[i].index == i
    && log[i].term in h.terms
    && i < |h.terms[log[i].term].log|
    && h.terms[log[i].term].log[..i + 1] == log[..i + 1]
  }

  predicate Good(h: Hist, log: Log) {
    forall i | 0 <= i < |log| :: GoodAt(h, log, i)
  }

  predicate Within(log: Log, term: nat) {
    forall i | 0 <= i < |log| :: log[i].term <= term
  }

  predicate NextOk(next: seq<int>, size: nat) {
    forall i | 0 <= i < |next| :: 0 <= next[i] <= size
  }

  /** A leader's log is the one on record for its term. */
  predicate LeadOk(h: Hist, p: Proc) {
    && p.node.term in h.terms && p.node.log == h.terms[p.node.term].log
    && NextOk(p.node.nextIndex, |p.node.log|)
    && forall i | i in p.calls && p.calls[i].term == p.node.term :: 0 <= i < |p.node.log|
  }

  predicate ProcOk(h: Hist, p: Proc) {
    && Good(h, p.node.log) && Within(p.node.log, p.node.term)
    && Good(h, p.node.disk.log) && Within(p.node.disk.log, p.node.term)
    && (p.node.role == Leader ==> LeadOk(h, p))
  }

  /** What a request carries is a stretch of `log`. */
  predicate SentFrom(log: Log, a: AppendArgs) {
    && -1 <= a.prevLogIndex && a.prevLogIndex + 1 + |a.entries| <= |log|
    && (forall k | 0 <= k < |a.entries| :: a.entries[k] == log[a.prevLogIndex + 1 + k])
    && (a.prevLogIndex >= 0 ==> a.prevLogTerm == log[a.prevLogIndex].term)
  }

  predicate ReqOk(h: Hist, leader: nat, a: AppendArgs) {
    a.term in h.terms && h.terms[a.term].leader == leader && SentFrom(h.terms[a.term].log, a)
  }

  predicate MsgOk(h: Hist, m: Msg) {
    && (m.AppReq? ==> ReqOk(h, m.src, m.append))
    && (m.AppRep? ==> ReqOk(h, m.dst, m.append))
  }

  /** The log a leader was elected with is of earlier terms; what it added is of its own. */
  predicate RecOk(h: Hist, term: nat)
    requires term in h.terms
  {
    var r := h.terms[term];
    && Good(h, r.log) && r.start <= |r.log|
    && (forall i | 0 <= i < r.start :: r.log[i].term < term)
    && (forall i | r.start <= i < |r.log| :: r.log[i].term == term)
  }

  predicate LogInv(c: Cluster, h: Hist) {
    && (forall i | 0 <= i < |c.procs| :: ProcOk(h, c.procs[i]))
    && (forall m | m in c.msgs :: MsgOk(h, m))
    && (forall t | t in h.terms :: RecOk(h, t))
  }

  // ---------- consequences ----------

  /** Two good logs with an entry of the same index and term agree up to it. */
  lemma GoodLogsMatch(h: Hist, a: Log, b: Log, i: nat)
    requires Good(h, a) && Good(h, b) && i < |a| && i < |b| && a[i].term == b[i].term
    ensures a[..i + 1] == b[..i + 1]
  {
    assert GoodAt(h, a, i) && GoodAt(h, b, i);
  }

  lemma GoodPrefix(h: Hist, log: Log, k: nat)
    requires Good(h, log) && k <= |log|
    ensures Good(h, log[..k])
  {
    forall i | 0 <= i < k ensures GoodAt(h, log[..k], i) {
      assert GoodAt(h, log, i);
      assert log[..k][..i + 1] == log[..i + 1];
    }
  }

  /** Histories only grow: leaders stay, and their logs are extended. */
  predicate Grows(h: Hist, h': Hist) {
    forall t | t in h.terms ::
      && t in h'.terms && h'.terms[t].leader == h.terms[t].leader && h'.terms[t].start == h.terms[t].start
      && h.terms[t].log <= h'.terms[t].log
  }

  lemma GoodGrows(h: Hist, h': Hist, log: Log)
    requires Good(h, log) && Grows(h, h')
    ensures Good(h', log)
  {
    forall i | 0 <= i < |log| ensures GoodAt(h', log, i) {
      assert GoodAt(h, log, i);
      var t := log[i].term;
      assert h'.terms[t].log[..i + 1] == h.terms[t].log[..i + 1];
    }
  }

  lemma ReqGrows(h: Hist, h': Hist, leader: nat, a: AppendArgs)
    requires ReqOk(h, leader, a) && Grows(h, h')
    ensures ReqOk(h', leader, a)
  {
    SentGrows(h.terms[a.term].log, h'.terms[a.term].log, a);
  }

  lemma SentGrows(log: Log, log': Log, a: AppendArgs)
    requires SentFrom(log, a) && log <= log'
    ensures SentFrom(log', a)
  {}

  lemma ProcGrows(h: Hist, h': Hist, p: Proc)
    requires ProcOk(h, p) && Grows(h, h')
    requires p.node.role == Leader && p.node.term in h.terms ==>
      h'.terms[p.node.term].log == h.terms[p.node.term].log
    ensures ProcOk(h', p)
  {
    GoodGrows(h, h', p.node.log);
    GoodGrows(h, h', p.node.disk.log);
  }

  /** One process changed, messages were added, and nothing was recorded. */
  lemma QuietStep(c: Cluster, h: Hist, c': Cluster, h': Hist, a: nat)
    requires LogInv(c, h) && Frame(c, c', a) && h'.terms == h.terms
    requires ProcOk(h, c'.procs[a])
    requires forall m | m in c'.msgs && m !in c.msgs :: MsgOk(h, m)
    ensures LogInv(c', h')
  {
    assert Grows(h, h');
    forall i | 0 <= i < |c'.procs| ensures ProcOk(h', c'.procs[i]) {
      assert i != a ==> ProcOk(h, c.procs[i]);
      ProcGrows(h, h', c'.procs[i]);
    }
    forall m | m in c'.msgs ensures MsgOk(h', m) {
      assert m in c.msgs ==> MsgOk(h, m);
    }
    forall t | t in h'.terms ensures RecOk(h', t) {
      assert RecOk(h, t);
      GoodGrows(h, h', h.terms[t].log);
    }
  }

  // ---------- elections and client entries ----------

  lemma MsgGrows(c: Cluster, h: Hist, h': Hist, m: Msg)
    requires LogInv(c, h) && m in c.msgs && Grows(h, h')
    ensures MsgOk(h', m)
  {
    assert MsgOk(h, m);
    if m.AppReq? {
      ReqGrows(h, h', m.src, m.append);
    }
    if m.AppRep? {
      ReqGrows(h, h', m.dst, m.append);
    }
  }

  /** One process changed, and one term's record is new or longer. */
  lemma RecordStep(c: Cluster, h: Hist, c': Cluster, h': Hist, a: nat, term: nat)
    requires LogInv(c, h) && Frame(c, c', a) && c'.msgs == c.msgs && Grows(h, h')
    requires term in h'.terms && h'.terms == h.terms[term := h'.terms[term]]
    requires ProcOk(h', c'.procs[a]) && RecOk(h', term)
    requires forall i | 0 <= i < |c.procs| && i != a && c.procs[i].node.role == Leader :: c.procs[i].node.term != term
    ensures LogInv(c', h')
  {
    forall i | 0 <= i < |c'.procs| ensures ProcOk(h', c'.procs[i]) {
      if i != a {
        assert ProcOk(h, c.procs[i]);
        ProcGrows(h, h', c.procs[i]);
      }
    }
    forall m | m in c'.msgs ensures MsgOk(h', m) {
      MsgGrows(c, h, h', m);
    }
    forall t | t in h'.terms ensures RecOk(h', t) {
      if t != term {
        assert RecOk(h, t);
        GoodGrows(h, h', h.terms[t].log);
      }
    }
  }

  lemma WinnersRecord(h: Hist, h': Hist, p: Proc, rec: TermRec)
    requires ProcOk(h, p) && p.node.term !in h.terms && rec.log == p.node.log && rec.start == |rec.log|
    requires h'.terms == h.terms[p.node.term := rec]
    ensures Grows(h, h') && Good(h', p.node.log) && Good(h', p.node.disk.log) && RecOk(h', p.node.term)
  {
    GoodGrows(h, h', p.node.log);
    GoodGrows(h, h', p.node.disk.log);
    forall i | 0 <= i < |p.node.log| ensures p.node.log[i].term < p.node.term {
      assert GoodAt(h, p.node.log, i);
    }
  }

  lemma WinKeeps(c: Cluster, h: Hist, n: nat)
    requires ElectionInv(c, h) && LogInv(c, h) && CanWin(c, n) && c.procs[n].node.snapshot.None?
    ensures LogInv(DoWin(c, n), RecordWin(h, c, n))
  {
    var c', h' := DoWin(c, n), RecordWin(h, c, n);
    var node := c.procs[n].node;
    WinnerIsFirst(c, h, n);
    assert ProcOk(h, c.procs[n]);
    WinnersRecord(h, h', c.procs[n], h'.terms[node.term]);
    forall i | 0 <= i < |c.procs| && c.procs[i].node.role == Leader ensures c.procs[i].node.term != node.term {
      assert LeaderRecorded(c.procs[i].node, i, h);
    }
    assert c'.msgs == c.msgs;
    RecordStep(c, h, c', h', n, node.term);
  }

  lemma AppendGood(h: Hist, h': Hist, term: nat, e: Entry)
    requires term in h.terms && RecOk(h, term) && Grows(h, h')
    requires h'.terms[term].log == h.terms[term].log + [e]
    requires e.term == term && e.index == |h.terms[term].log|
    ensures RecOk(h', term)
  {
    var log := h.terms[term].log;
    GoodGrows(h, h', log);
    forall i | 0 <= i < |log| + 1 ensures GoodAt(h', log + [e], i) {
      if i < |log| {
        assert GoodAt(h', log, i);
        assert (log + [e])[..i + 1] == log[..i + 1];
      }
    }
  }

  lemma ClientKeeps(c: Cluster, h: Hist, n: nat, command: string)
    requires ElectionInv(c, h) && LogInv(c, h) && IsLeader(c, n) && c.procs[n].node.snapshot.None?
    ensures LogInv(DoClientAppend(c, n, command), RecordClient(h, c.procs[n].node, command))
  {
    var c', h' := DoClientAppend(c, n, command), RecordClient(h, c.procs[n].node, command);
    var node := c.procs[n].node;
    assert ProcOk(h, c.procs[n]) && LeaderRecorded(node, n, h) && RecOk(h, node.term);
    var e := Entry(node.term, |node.log|, command);
    assert h'.terms[node.term].log == h.terms[node.term].log + [e];
    AppendGood(h, h', node.term, e);
    GoodGrows(h, h', node.disk.log);
    assert ProcOk(h', c'.procs[n]);
    forall i | 0 <= i < |c.procs| && i != n && c.procs[i].node.role == Leader
      ensures c.procs[i].node.term != node.term
    {
      assert LeaderRecorded(c.procs[i].node, i, h);
    }
    assert c'.msgs == c.msgs;
    RecordStep(c, h, c', h', n, node.term);
  }

  // ---------- requests ----------

  lemma RequestOk(h: Hist, p: Proc, id: nat, a: AppendArgs, next: int, end: int)
    requires ProcOk(h, p) && p.node.role == Leader && p.node.snapshot.None? && LeaderRecorded(p.node, id, h)
    requires 0 <= next <= |p.node.log|
    requires a.term == p.node.term && a.prevLogIndex == next - 1 && a.prevLogTerm == H.LogTerm(p.node, next - 1)
    requires a.entries == H.LogEntries(p.node, next, end)
    ensures ReqOk(h, id, a)
  {
    assert p.node.log == h.terms[a.term].log;
  }

  /** A leader sent a request and changed nothing but what its call is waiting for. */
  lemma SendStep(c: Cluster, h: Hist, c': Cluster, n: nat, peer: nat, a: AppendArgs)
    requires LogInv(c, h) && Frame(c, c', n) && c'.msgs == c.msgs + {AppReq(n, peer, a)} && ReqOk(h, n, a)
    requires c'.procs[n].node == c.procs[n].node && c'.procs[n].calls.Keys == c.procs[n].calls.Keys
    requires forall i | i in c.procs[n].calls :: c'.procs[n].calls[i].term == c.procs[n].calls[i].term
    ensures LogInv(c', h)
  {
    assert ProcOk(h, c.procs[n]);
    QuietStep(c, h, c', h, n);
  }

  lemma CallRequestOk(h: Hist, p: Proc, id: nat, slot: nat, index: int)
    requires ProcOk(h, p) && p.node.role == Leader && p.node.snapshot.None? && LeaderRecorded(p.node, id, h)
    requires slot < |p.node.nextIndex| && 0 <= index < |p.node.log|
    ensures ReqOk(h, id, H.ClientRequest(p.node, slot, index))
  {
    RequestOk(h, p, id, H.ClientRequest(p.node, slot, index), p.node.nextIndex[slot], index + 1);
  }

  lemma CallSendKeeps(c: Cluster, h: Hist, n: nat, index: int)
    requires ElectionInv(c, h) && LogInv(c, h) && CanCall(c, n, index) && c.procs[n].node.snapshot.None?
    ensures LogInv(DoCallSend(c, n, index), h)
  {
    var p := c.procs[n];
    var call := p.calls[index];
    assert ProcOk(h, p) && LeaderRecorded(p.node, n, h);
    CallRequestOk(h, p, n, call.peer, index);
    SendStep(c, h, DoCallSend(c, n, index), n, PeerId(n, call.peer), H.ClientRequest(p.node, call.peer, index));
  }

  lemma BeatRequestOk(h: Hist, p: Proc, id: nat, slot: nat)
    requires ProcOk(h, p) && p.node.role == Leader && p.node.snapshot.None? && LeaderRecorded(p.node, id, h)
    requires slot < |p.node.nextIndex|
    ensures ReqOk(h, id, H.HeartbeatRequest(p.node, slot))
  {
    var next := p.node.nextIndex[slot];
    var a := H.HeartbeatRequest(p.node, slot);
    var stop := if next + MAX_ENTRIES_PER_BATCH < |p.node.log| then next + MAX_ENTRIES_PER_BATCH else |p.node.log|;
    RequestOk(h, p, id, a, next, if next < |p.node.log| then stop else next);
  }

  lemma BeatKeeps(c: Cluster, h: Hist, n: nat, slot: nat)
    requires ElectionInv(c, h) && LogInv(c, h) && IsLeader(c, n) && CanBeat(c, n, slot)
    requires c.procs[n].node.snapshot.None?
    ensures LogInv(DoBeat(c, n, slot), h)
  {
    var p := c.procs[n];
    assert ProcOk(h, p) && LeaderRecorded(p.node, n, h);
    BeatRequestOk(h, p, n, slot);
    SendStep(c, h, DoBeat(c, n, slot), n, PeerId(n, slot), H.HeartbeatRequest(p.node, slot));
  }

  // ---------- the receiving end ----------

  lemma {:induction false} PushAll(log: Log, entries: Log)
    requires forall k | 0 <= k < |entries| :: entries[k].index == |log| + k
    ensures H.PushMissing(log, 0, entries) == log + entries
    decreases |entries|
  {
    if entries == [] {
      assert log + entries == log;
    } else {
      var log' := log + [entries[0]];
      forall k | 0 <= k < |entries| - 1 ensures entries[1..][k].index == |log'| + k {
        assert entries[1..][k] == entries[k + 1];
      }
      PushAll(log', entries[1..]);
      assert log' + entries[1..] == log + entries;
    }
  }

  /** The receiver's log after the request, when nothing is compacted. */
  function TakenLog(n: Node, a: AppendArgs): Log {
    if a.term >= n.term && H.PrevMatches(n, a.prevLogIndex, a.prevLogTerm) then
      H.Inserted(n.log, 0, a.prevLogIndex + 1, a.entries)
    else n.log
  }

  lemma FinishTakesLog(d: Node, a: AppendArgs)
    requires d.snapshot.None? && a.term >= d.term
    ensures var f := H.FinishAppend(d, a);
      f.log == f.disk.log == TakenLog(d, a) && f.snapshot.None?
  {
    var t := H.TakeEntries(d, a);
    var target := H.CommitTarget(t, a.leaderCommit);
    ApplyKeeps(t.(commitIndex := target), target);
  }

  lemma AppendTakesLog(n: Node, a: AppendArgs)
    requires n.snapshot.None? && H.HandleAppend(n, a).0.snapshot.None?
    ensures H.HandleAppend(n, a).0.log == TakenLog(n, a)
    ensures H.HandleAppend(n, a).0.disk.log == (if a.term < n.term then n.disk.log else TakenLog(n, a))
  {
    if a.term >= n.term {
      var d := H.StepDown(n, a);
      FinishTakesLog(d, a);
      assert TakenLog(d, a) == TakenLog(n, a);
    }
  }

  /** A batch that is looked at leaves the sender's log up to the last entry sent. */
  lemma InsertTakes(log: Log, lead: Log, at: nat, entries: Log)
    requires at <= |log| && at + |entries| <= |lead| && log[..at] == lead[..at]
    requires forall k | 0 <= k < |entries| :: entries[k] == lead[at + k] && entries[k].index == at + k
    requires entries != [] && !H.Skips(log, at, entries)
    ensures H.Inserted(log, 0, at, entries) == lead[..at + |entries|]
  {
    PushAll(log[..at], entries);
    assert log[..at] + entries == lead[..at + |entries|];
    if at == |log| {
      assert log[..at] == log;
    }
  }

  /** Log Matching between two logs. */
  predicate Matched(a: Log, b: Log) {
    forall i | 0 <= i < |a| && i < |b| && a[i].term == b[i].term :: a[..i + 1] == b[..i + 1]
  }

  predicate Indexed(log: Log) {
    forall k | 0 <= k < |log| :: log[k].index == k
  }

  lemma GoodIndexed(h: Hist, log: Log)
    requires Good(h, log)
    ensures Indexed(log)
  {
    forall k | 0 <= k < |log| ensures log[k].index == k {
      assert GoodAt(h, log, k);
    }
  }

  /** The log `n` and the sender's log `lead` agree up to the request's first entry. */
  predicate AgreesBefore(log: Log, lead: Log, a: AppendArgs)
    requires SentFrom(lead, a)
  {
    a.prevLogIndex < |log| && log[..a.prevLogIndex + 1] == lead[..a.prevLogIndex + 1]
  }

  lemma TakesFromLeader(n: Node, lead: Log, a: AppendArgs)
    requires SentFrom(lead, a) && Indexed(lead) && AgreesBefore(n.log, lead, a)
    requires n.snapshot.None? && a.term >= n.term && H.PrevMatches(n, a.prevLogIndex, a.prevLogTerm)
    ensures TakenLog(n, a) == n.log || TakenLog(n, a) == lead[..a.prevLogIndex + 1 + |a.entries|]
    ensures !H.Skips(n.log, a.prevLogIndex + 1, a.entries) && a.entries != [] ==>
      TakenLog(n, a) == lead[..a.prevLogIndex + 1 + |a.entries|]
  {
    if a.entries != [] && !H.Skips(n.log, a.prevLogIndex + 1, a.entries) {
      InsertTakes(n.log, lead, a.prevLogIndex + 1, a.entries);
    }
  }

  lemma CheckAgrees(h: Hist, n: Node, a: AppendArgs)
    requires Good(h, n.log) && a.term in h.terms && RecOk(h, a.term) && SentFrom(h.terms[a.term].log, a)
    requires n.snapshot.None? && H.PrevMatches(n, a.prevLogIndex, a.prevLogTerm)
    ensures AgreesBefore(n.log, h.terms[a.term].log, a)
  {
    if a.prevLogIndex >= 0 {
      GoodLogsMatch(h, n.log, h.terms[a.term].log, a.prevLogIndex);
    }
  }

  lemma TakenGood(h: Hist, n: Node, leader: nat, a: AppendArgs)
    requires Good(h, n.log) && Within(n.log, n.term) && n.snapshot.None?
    requires ReqOk(h, leader, a) && RecOk(h, a.term)
    ensures Good(h, TakenLog(n, a))
    ensures Within(TakenLog(n, a), if a.term >= n.term then a.term else n.term)
  {
    if a.term >= n.term && H.PrevMatches(n, a.prevLogIndex, a.prevLogTerm) {
      CheckAgrees(h, n, a);
      GoodIndexed(h, h.terms[a.term].log);
      TakesFromLeader(n, h.terms[a.term].log, a);
      GoodPrefix(h, h.terms[a.term].log, a.prevLogIndex + 1 + |a.entries|);
    }
  }

  lemma AppendProcOk(h: Hist, p: Proc, id: nat, size: nat, src: nat, a: AppendArgs)
    requires ProcOk(h, p) && NodeOk(p.node, id, size) && LeaderRecorded(p.node, id, h) && src != id
    requires ReqOk(h, src, a) && RecOk(h, a.term)
    requires p.node.snapshot.None? && H.HandleAppend(p.node, a).0.snapshot.None?
    ensures ProcOk(h, p.(node := H.HandleAppend(p.node, a).0))
  {
    var n := p.node;
    var n' := H.HandleAppend(n, a).0;
    if a.term >= n.term {
      AppendTakesLog(n, a);
      AppendSettlesOrDemotes(n, a);
      TakenGood(h, n, src, a);
      assert n'.role != Leader;
    }
  }

  lemma HandleAppendKeeps(c: Cluster, h: Hist, m: Msg)
    requires ElectionInv(c, h) && LogInv(c, h) && CanHandle(c, m) && m.AppReq?
    requires NoSnapshots(c) && NoSnapshots(DoHandleAppend(c, m))
    ensures LogInv(DoHandleAppend(c, m), RecordAppend(h, c.procs[m.dst].node, m.dst, m.append))
  {
    var c', h' := DoHandleAppend(c, m), RecordAppend(h, c.procs[m.dst].node, m.dst, m.append);
    var p := c.procs[m.dst];
    assert c'.procs[m.dst] == p.(node := H.HandleAppend(p.node, m.append).0);
    assert ProcOk(h, p) && MsgOk(h, m) && RecOk(h, m.append.term);
    assert Addressed(c, m) && NodeOk(p.node, m.dst, |c.procs|) && LeaderRecorded(p.node, m.dst, h);
    AppendProcOk(h, p, m.dst, |c.procs|, m.src, m.append);
    QuietStep(c, h, c', h', m.dst);
  }

  // ---------- the other steps ----------

  /** A step that leaves the log, and at most saves it, and does not make a leader. */
  predicate LogKept(n: Node, n': Node) {
    && n'.log == n.log && (n'.disk.log == n.disk.log || n'.disk.log == n.log)
    && n'.term >= n.term
    && (n'.role == Leader ==> n.role == Leader && n'.term == n.term)
  }

  lemma KeptStep(c: Cluster, h: Hist, c': Cluster, h': Hist, a: nat)
    requires LogInv(c, h) && Frame(c, c', a) && h'.terms == h.terms
    requires LogKept(c.procs[a].node, c'.procs[a].node)
    requires c'.procs[a].node.role == Leader ==> LeadOk(h, c'.procs[a])
    requires forall m | m in c'.msgs && m !in c.msgs :: MsgOk(h, m)
    ensures LogInv(c', h')
  {
    assert ProcOk(h, c.procs[a]);
    QuietStep(c, h, c', h', a);
  }

  /** A reply moves a leader's `nextIndex` within its log, or makes it step down. */
  predicate Answered(n: Node, n': Node) {
    && LogKept(n, n')
    && (n'.role == Leader ==> NextOk(n.nextIndex, |n.log|) ==> NextOk(n'.nextIndex, |n.log|))
  }

  lemma AnsweredStep(c: Cluster, h: Hist, c': Cluster, a: nat)
    requires LogInv(c, h) && Frame(c, c', a) && c'.msgs == c.msgs
    requires Answered(c.procs[a].node, c'.procs[a].node)
    requires forall i | i in c'.procs[a].calls ::
      i in c.procs[a].calls && c.procs[a].calls[i].term == c'.procs[a].calls[i].term
    ensures LogInv(c', h)
  {
    assert ProcOk(h, c.procs[a]);
    KeptStep(c, h, c', h, a);
  }

  lemma ClientReplyAnswers(n: Node, peer: nat, newIndex: int, r: AppendReply)
    requires peer < |n.nextIndex| && peer < |n.matchIndex| && 0 <= newIndex < |n.log|
    ensures Answered(n, H.ClientReply(n, peer, newIndex, r))
  {}

  lemma HeartbeatReplyAnswers(n: Node, peer: nat, next: int, count: nat, r: AppendReply)
    requires peer < |n.nextIndex| && peer < |n.matchIndex| && 0 <= next && next + count <= |n.log|
    ensures Answered(n, H.HeartbeatReply(n, peer, next, count, r))
  {}

  lemma CallReplyKeeps(c: Cluster, h: Hist, n: nat, index: int, m: Msg)
    requires LogInv(c, h) && CanCall(c, n, index) && CanTakeReply(c, n, index, m)
    ensures LogInv(DoCallReply(c, n, index, m), h)
  {
    var p := c.procs[n];
    assert ProcOk(h, p);
    ClientReplyAnswers(p.node, p.calls[index].peer, index, m.appendReply);
    AnsweredStep(c, h, DoCallReply(c, n, index, m), n);
  }

  lemma CallRefusedKeeps(c: Cluster, h: Hist, n: nat, index: int)
    requires LogInv(c, h) && CanCall(c, n, index)
    ensures LogInv(DoCallRefused(c, n, index), h)
  {
    var p := c.procs[n];
    assert ProcOk(h, p);
    ClientReplyAnswers(p.node, p.calls[index].peer, index, H.REFUSED);
    AnsweredStep(c, h, DoCallRefused(c, n, index), n);
  }

  lemma BeatRefusedKeeps(c: Cluster, h: Hist, n: nat, slot: nat)
    requires LogInv(c, h) && IsLeader(c, n) && CanBeat(c, n, slot)
    ensures LogInv(DoBeatRefused(c, n, slot), h)
  {
    var p := c.procs[n];
    assert ProcOk(h, p);
    HeartbeatReplyAnswers(p.node, slot, p.node.nextIndex[slot], 0, H.REFUSED);
    AnsweredStep(c, h, DoBeatRefused(c, n, slot), n);
  }

  lemma TakeBeatKeeps(c: Cluster, h: Hist, n: nat, m: Msg)
    requires ElectionInv(c, h) && LogInv(c, h) && IsLeader(c, n) && CanTakeBeat(c, n, m)
    ensures LogInv(DoTakeBeat(c, n, m), h)
  {
    var p := c.procs[n];
    assert ProcOk(h, p) && MsgOk(h, m);
    HeartbeatReplyAnswers(p.node, PeerSlot(n, m.src), m.append.prevLogIndex + 1, |m.append.entries|, m.appendReply);
    AnsweredStep(c, h, DoTakeBeat(c, n, m), n);
  }

  lemma CommitKeeps(c: Cluster, h: Hist, n: nat, index: int)
    requires LogInv(c, h) && CanCommit(c, n, index)
    requires c.procs[n].node.snapshot.None? && DoCommit(c, n, index).procs[n].node.snapshot.None?
    ensures LogInv(DoCommit(c, n, index), RecordCommit(h, c.procs[n].node, n, index))
  {
    assert ProcOk(h, c.procs[n]);
    ApplyKeeps(c.procs[n].node.(commitIndex := index), index);
    KeptStep(c, h, DoCommit(c, n, index), RecordCommit(h, c.procs[n].node, n, index), n);
  }

  lemma HandleVoteKeeps(c: Cluster, h: Hist, m: Msg)
    requires LogInv(c, h) && CanHandle(c, m) && m.VoteReq?
    ensures LogInv(DoHandleVote(c, m), RecordVote(h, c.procs[m.dst].node, m.dst, m.vote))
  {
    assert ProcOk(h, c.procs[m.dst]);
    KeptStep(c, h, DoHandleVote(c, m), RecordVote(h, c.procs[m.dst].node, m.dst, m.vote), m.dst);
  }

  lemma CandidateKeeps(c: Cluster, h: Hist, s: Step)
    requires LogInv(c, h) && Enabled(c, s)
    requires s.BeginElection? || s.AskVote? || s.TakeVote? || s.MissVote?
    ensures LogInv(Do(c, s), h)
  {
    assert ProcOk(h, c.procs[s.n]);
    KeptStep(c, h, Do(c, s), h, s.n);
  }

  lemma CallMissKeeps(c: Cluster, h: Hist, n: nat, index: int)
    requires LogInv(c, h) && CanCall(c, n, index)
    ensures LogInv(DoCallMiss(c, n, index), h)
  {
    assert ProcOk(h, c.procs[n]);
    KeptStep(c, h, DoCallMiss(c, n, index), h, n);
  }

  lemma CrashKeeps(c: Cluster, h: Hist, n: nat, replayed: KV)
    requires ElectionInv(c, h) && LogInv(c, h) && n < |c.procs|
    ensures LogInv(DoCrash(c, n, replayed), h)
  {
    assert ProcOk(h, c.procs[n]) && NodeOk(c.procs[n].node, n, |c.procs|);
    QuietStep(c, h, DoCrash(c, n, replayed), h, n);
  }

  /** Neither side of a snapshot transfer can act while no node has a snapshot. */
  predicate SnapshotStep(s: Step) {
    s.SendChunk? || s.HandleChunk? || s.ChunkReply? || s.TriggerSnapshot?
  }

  predicate NoSnapshotMsgs(c: Cluster) {
    forall m | m in c.msgs :: !m.SnapReq? && !m.SnapRep?
  }

  lemma TriggerMakesSnapshot(c: Cluster, n: nat)
    requires n < |c.procs|
    ensures !NoSnapshots(DoTrigger(c, n))
  {
    assert DoTrigger(c, n).procs[n].node.snapshot.Some?;
  }

  lemma NoSnapshotSteps(c: Cluster, s: Step)
    requires NoSnapshots(c) && NoSnapshotMsgs(c) && Enabled(c, s) && NoSnapshots(Do(c, s))
    ensures !SnapshotStep(s)
  {
    if s.TriggerSnapshot? {
      TriggerMakesSnapshot(c, s.n);
    }
  }

  lemma NoSnapshotMsgsKept(c: Cluster, s: Step)
    requires NoSnapshotMsgs(c) && Enabled(c, s) && !SnapshotStep(s)
    ensures NoSnapshotMsgs(Do(c, s))
  {}

  predicate Leading(s: Step) {
    || s.ClientAppend? || s.CallSend? || s.CallReply? || s.CallMiss? || s.CallRefused? || s.CallCommit?
    || s.HeartbeatSend? || s.HeartbeatReply? || s.HeartbeatRefused?
  }

  lemma CallingKeeps(c: Cluster, h: Hist, s: Step)
    requires ElectionInv(c, h) && LogInv(c, h) && Enabled(c, s)
    requires s.CallSend? || s.CallReply? || s.CallMiss? || s.CallRefused?
    requires NoSnapshots(c) && NoSnapshots(Do(c, s))
    ensures LogInv(Do(c, s), Recorded(h, c, s))
  {
    match s
    case CallSend(n, index) => CallSendKeeps(c, h, n, index);
    case CallReply(n, index, m) => CallReplyKeeps(c, h, n, index, m);
    case CallMiss(n, index) => CallMissKeeps(c, h, n, index);
    case CallRefused(n, index) => CallRefusedKeeps(c, h, n, index);
  }

  lemma BeatingKeeps(c: Cluster, h: Hist, s: Step)
    requires ElectionInv(c, h) && LogInv(c, h) && Enabled(c, s)
    requires s.HeartbeatSend? || s.HeartbeatReply? || s.HeartbeatRefused?
    requires NoSnapshots(c) && NoSnapshots(Do(c, s))
    ensures LogInv(Do(c, s), Recorded(h, c, s))
  {
    match s
    case HeartbeatSend(n, slot) => BeatKeeps(c, h, n, slot);
    case HeartbeatReply(n, m) => TakeBeatKeeps(c, h, n, m);
    case HeartbeatRefused(n, slot) => BeatRefusedKeeps(c, h, n, slot);
  }

  lemma LeadingKeeps(c: Cluster, h: Hist, s: Step)
    requires ElectionInv(c, h) && LogInv(c, h) && Enabled(c, s) && Leading(s)
    requires NoSnapshots(c) && NoSnapshots(Do(c, s))
    ensures LogInv(Do(c, s), Recorded(h, c, s))
  {
    if s.HeartbeatSend? || s.HeartbeatReply? || s.HeartbeatRefused? {
      BeatingKeeps(c, h, s);
    } else if s.ClientAppend? {
      ClientKeeps(c, h, s.n, s.command);
    } else if s.CallCommit? {
      CommitKeeps(c, h, s.n, s.index);
    } else {
      CallingKeeps(c, h, s);
    }
  }

  lemma StepKeepsLogs(c: Cluster, h: Hist, s: Step)
    requires ElectionInv(c, h) && LogInv(c, h) && NoSnapshotMsgs(c)
    requires Enabled(c, s) && NoSnapshots(c) && NoSnapshots(Do(c, s))
    ensures LogInv(Do(c, s), Recorded(h, c, s))
  {
    NoSnapshotSteps(c, s);
    if Leading(s) {
      LeadingKeeps(c, h, s);
    } else if s.HandleVote? {
      HandleVoteKeeps(c, h, s.m);
    } else if s.WinElection? {
      WinKeeps(c, h, s.n);
    } else if s.HandleAppend? {
      HandleAppendKeeps(c, h, s.m);
    } else if s.Crash? {
      CrashKeeps(c, h, s.n, s.replayed);
    } else {
      CandidateKeeps(c, h, s);
    }
  }

  /** No node has a snapshot at any moment of the run. */
  predicate CompactionFree(r: seq<Cluster>) {
    forall k | 0 <= k < |r| :: NoSnapshots(r[k])
  }

  lemma {:induction false} RunKeepsLogs(r: seq<Cluster>, steps: seq<Step>, k: nat)
    requires IsRun(r, steps) && CompactionFree(r) && k <= |steps|
    ensures LogInv(r[k], HistoryOf(r, steps, k)) && NoSnapshotMsgs(r[k])
  {
    if k == 0 {
      forall i | 0 <= i < |r[0].procs| ensures ProcOk(HistoryOf(r, steps, 0), r[0].procs[i]) {
        assert Fresh(r[0].procs[i].node, i, |r[0].procs|);
      }
    } else {
      var j := k - 1;
      RunKeepsLogs(r, steps, j);
      RunKeeps(r, steps, j);
      assert RunStep(r, steps, j);
      assert NoSnapshots(r[j]) && NoSnapshots(r[j + 1]);
      NoSnapshotSteps(r[j], steps[j]);
      NoSnapshotMsgsKept(r[j], steps[j]);
      StepKeepsLogs(r[j], HistoryOf(r, steps, j), steps[j]);
    }
  }

  lemma {:induction false} RunGrows(r: seq<Cluster>, steps: seq<Step>, i: nat, j: nat)
    requires IsRun(r, steps) && CompactionFree(r) && i <= j <= |steps|
    ensures Grows(HistoryOf(r, steps, i), HistoryOf(r, steps, j))
    decreases j
  {
    if i < j {
      RunGrows(r, steps, i, j - 1);
      StepGrows(r, steps, j - 1);
    }
  }

  lemma StepGrows(r: seq<Cluster>, steps: seq<Step>, k: nat)
    requires IsRun(r, steps) && CompactionFree(r) && k < |steps|
    ensures Grows(HistoryOf(r, steps, k), HistoryOf(r, steps, k + 1))
  {
    var c, h, s := r[k], HistoryOf(r, steps, k), steps[k];
    RunKeeps(r, steps, k);
    RunKeepsLogs(r, steps, k);
    assert RunStep(r, steps, k);
    if s.WinElection? {
      WinnerIsFirst(c, h, s.n);
    } else if s.ClientAppend? {
      assert ProcOk(h, c.procs[s.n]);
    }
  }

  /** The log a node has in memory or on disk. */
  predicate HasLog(c: Cluster, n: nat, log: Log) {
    n < |c.procs| && (log == c.procs[n].node.log || log == c.procs[n].node.disk.log)
  }

  /** Log Matching: in every run without compaction, with delayed and repeated messages and
      with restarts, two logs of whatever nodes at whatever moments, in memory or on disk,
      that hold an entry of the same index and term are identical up to it. An entry's index
      is its position throughout. */
  lemma LogsMatch(r: seq<Cluster>, steps: seq<Step>, i: nat, j: nat, a: nat, b: nat, la: Log, lb: Log, x: nat)
    requires IsRun(r, steps) && CompactionFree(r) && i <= j <= |steps|
    requires HasLog(r[i], a, la) && HasLog(r[j], b, lb)
    requires x < |la| && x < |lb| && la[x].term == lb[x].term
    ensures la[..x + 1] == lb[..x + 1]
    ensures Indexed(la) && Indexed(lb)
  {
    var h, h' := HistoryOf(r, steps, i), HistoryOf(r, steps, j);
    RunKeepsLogs(r, steps, i);
    RunKeepsLogs(r, steps, j);
    RunGrows(r, steps, i, j);
    assert ProcOk(h, r[i].procs[a]) && ProcOk(h', r[j].procs[b]);
    GoodGrows(h, h', la);
    GoodLogsMatch(h', la, lb, x);
    GoodIndexed(h', la);
    GoodIndexed(h', lb);
  }
}
