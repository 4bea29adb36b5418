/** Every step keeps the acknowledgement invariant, in runs without compaction in which no skipped
    batch held an entry that its receiver lacked. */
module AckSteps {
  import opened RaftTypes
  import opened Protocol
  import opened History
  import opened ElectionSafety
  import opened LogMatching
  import opened LogSteps
  import opened Ballots
  import opened Acknowledged
  import opened SuccessReply
  import opened Votes
  import H = Handlers

  lemma OldAcksKept(c: Cluster, h: Hist, c': Cluster, h': Hist, a: nat)
    requires AcksOk(c, h) && StartsOk(h) && Grows(h, h') && Frame(c, c', a)
    requires KeepsSaved(c.procs[a].node, c'.procs[a].node)
    ensures forall k | k in h.acks :: AckOk(c', h', k)
  {
    forall k | k in h.acks ensures AckOk(c', h', k) {
      OldAckKept(c, h, c', h', a, k);
    }
  }

  lemma OldVotePairs(c: Cluster, h: Hist, h': Hist)
    requires AcksOk(c, h) && StartsOk(h) && Later(h, h') && AckVotesOk(h)
    ensures forall k, t: nat | k in h.acks && (k.node, t) in h.votes :: AckVoteOk(h', k, t)
  {
    forall k, t: nat | k in h.acks && (k.node, t) in h.votes ensures AckVoteOk(h', k, t) {
      assert AckOk(c, h, k);
      OldVotesHeld(c, h, h', k, t);
    }
  }

  lemma OldLeadPairs(c: Cluster, h: Hist, h': Hist)
    requires AcksOk(c, h) && StartsOk(h) && Later(h, h') && AckLeadsOk(h)
    ensures forall k, t | k in h.acks && t in h.terms :: AckLeadOk(h', k, t)
  {
    forall k, t | k in h.acks && t in h.terms ensures AckLeadOk(h', k, t) {
      assert AckOk(c, h, k);
      OldLeadsHeld(c, h, h', k, t);
    }
  }

  predicate NoAckReplies(c: Cluster, c': Cluster) {
    forall m | m in c'.msgs && m !in c.msgs :: !m.AppRep?
  }

  /** Nothing was recorded, and what the actor had saved stays saved. */
  lemma QuietAcks(c: Cluster, h: Hist, c': Cluster, a: nat)
    requires AckInv(c, h) && LogInv(c, h) && Frame(c, c', a) && NoAckReplies(c, c')
    requires KeepsSaved(c.procs[a].node, c'.procs[a].node)
    requires CallsOk(h, c'.procs[a], a, |c.procs|)
    ensures AckInv(c', h)
  {
    LogInvStarts(c, h);
    OldAcksKept(c, h, c', h, a);
    AllSavedKept(c, c', a);
    RepliesKept(c, h, c', h);
    AllCallsKept(c, h, c', h, a);
  }

  // ---------- a vote ----------

  /** An obstacle in a term without a leader is an earlier one. */
  lemma HeldBefore(h: Hist, k: Ack, log: Log, last: int, term: nat)
    requires Held(h, k, log, last) && last <= term && term !in h.terms
    ensures Held(h, k, log, term - 1)
  {
    if Obstacle(h, k.term, k.index, last) {
      var w :| w in h.terms && Lacks(h, w, k.term, k.index, last);
      assert Lacks(h, w, k.term, k.index, term - 1);
    }
  }

  lemma VotePairs(c: Cluster, h: Hist, h': Hist, v: nat, rec: VoteRec)
    requires AcksOk(c, h) && AllSaved(c) && StartsOk(h) && AckVotesOk(h) && v < |c.procs|
    requires rec.log == c.procs[v].node.log && c.procs[v].node.term <= rec.vote.term
    requires h' == WithVote(h, v, rec)
    ensures AckVotesOk(h')
  {
    OldVotePairs(c, h, h');
    forall k, t: nat | k in h'.acks && (k.node, t) in h'.votes ensures AckVoteOk(h', k, t) {
      if (k.node, t) !in h.votes {
        HeldInLog(c, h, k);
        HeldBefore(h, k, rec.log, c.procs[v].node.term, t);
        HeldKept(h, h', k, rec.log, rec.log, t - 1, t - 1);
      }
    }
  }

  lemma VoteAcks(c: Cluster, h: Hist, c': Cluster, h': Hist, v: nat)
    requires AckInv(c, h) && LogInv(c, h) && Frame(c, c', v) && NoAckReplies(c, c')
    requires KeepsSaved(c.procs[v].node, c'.procs[v].node)
    requires CallsOk(h, c'.procs[v], v, |c.procs|)
    requires h'.terms == h.terms && h'.acks == h.acks && VotesGrow(h, h') && AckVotesOk(h')
    ensures AckInv(c', h')
  {
    LogInvStarts(c, h);
    OldAcksKept(c, h, c', h', v);
    AllSavedKept(c, c', v);
    OldLeadPairs(c, h, h');
    RepliesKept(c, h, c', h');
    CallsKept(h, h', c'.procs[v], c'.procs[v], v, |c.procs|);
    AllCallsKept(c, h, c', h', v);
  }

  lemma HandleVoteAcks(c: Cluster, h: Hist, m: Msg)
    requires ElectionInv(c, h) && AckInv(c, h) && LogInv(c, h) && CanHandle(c, m) && m.VoteReq?
    requires CallsOk(h, DoHandleVote(c, m).procs[m.dst], m.dst, |c.procs|)
    requires KeepsSaved(c.procs[m.dst].node, DoHandleVote(c, m).procs[m.dst].node)
    ensures AckInv(DoHandleVote(c, m), RecordVote(h, c.procs[m.dst].node, m.dst, m.vote))
  {
    var n := c.procs[m.dst].node;
    var h' := RecordVote(h, n, m.dst, m.vote);
    HandleVoteEffect(n, m.vote);
    LogInvStarts(c, h);
    if H.HandleVote(n, m.vote).1.granted {
      VotePairs(c, h, h', m.dst, VoteRec(m.vote, n.log));
    }
    VoteAcks(c, h, DoHandleVote(c, m), h', m.dst);
  }

  // ---------- a new leader ----------

  lemma WinPairs(c: Cluster, h: Hist, n: nat, h': Hist)
    requires AcksOk(c, h) && AllSaved(c) && StartsOk(h) && AckLeadsOk(h) && CanWin(c, n) && Grows(h, h')
    requires c.procs[n].node.term !in h.terms && h' == RecordWin(h, c, n)
    ensures AckLeadsOk(h')
  {
    OldLeadPairs(c, h, h');
    var node := c.procs[n].node;
    forall k, t | k in h'.acks && t in h'.terms ensures AckLeadOk(h', k, t) {
      if t == node.term && k.node == n && t > k.term {
        HeldInLog(c, h, k);
        HeldBefore(h, k, node.log, node.term, t);
        HeldKept(h, h', k, node.log, node.log, t - 1, t - 1);
        assert ElectedLog(h'.terms[t]) == node.log;
      }
    }
  }

  lemma WinAcks(c: Cluster, h: Hist, n: nat)
    requires ElectionInv(c, h) && AckInv(c, h) && LogInv(c, h) && CanWin(c, n)
    requires KeepsSaved(c.procs[n].node, DoWin(c, n).procs[n].node)
    ensures AckInv(DoWin(c, n), RecordWin(h, c, n))
  {
    var c', h' := DoWin(c, n), RecordWin(h, c, n);
    WinnerIsFirst(c, h, n);
    LogInvStarts(c, h);
    assert c'.msgs == c.msgs;
    OldAcksKept(c, h, c', h', n);
    WinPairs(c, h, n, h');
    OldVotePairs(c, h, h');
    RepliesKept(c, h, c', h');
    AllCallsKept(c, h, c', h', n);
    AllSavedKept(c, c', n);
  }

  // ---------- new acknowledgements ----------

  /** Acknowledgements of a node's present term were added; votes and leaders are as before. */
  lemma MorePairs(c: Cluster, h: Hist, h': Hist, id: nat, term: nat)
    requires ElectionInv(c, h) && VotesOk(c, h) && AcksOk(c, h) && StartsOk(h) && AckVotesOk(h) && AckLeadsOk(h)
    requires Later(h, h') && h'.votes == h.votes && SameLeaders(h, h')
    requires id < |c.procs| && c.procs[id].node.term <= term
    requires forall k | k in h'.acks && k !in h.acks :: k.node == id && k.term == term
    ensures AckVotesOk(h') && AckLeadsOk(h')
  {
    OldVotePairs(c, h, h');
    OldLeadPairs(c, h, h');
    forall k | k in h'.acks && k !in h.acks
      ensures forall t: nat | (k.node, t) in h'.votes :: t <= k.term
      ensures forall t | t in h'.terms && h'.terms[t].leader == k.node :: t <= k.term
    {
      FreshAck(c, h, k);
    }
  }

  lemma ClientCalls(h: Hist, h': Hist, p: Proc, p': Proc, n: nat, size: nat)
    requires Later(h, h') && CallsOk(h, p, n, size) && size > 0
    requires p'.node.role == p.node.role && p'.node.term == p.node.term
    requires p'.calls == p.calls[|p.node.log| := Call(p.node.term, 0, 1, None)]
    requires p.node.term in h'.terms && h'.terms[p.node.term].start <= |p.node.log|
    ensures CallsOk(h', p', n, size)
  {
    forall index | index in p'.calls ensures CallOk(h', p', n, index, size) {
      if index != |p.node.log| {
        CallKept(h, h', p, p', n, index, size);
      }
    }
  }

  /** What a client's entry does to a leader and to the records; nothing is saved yet. */
  predicate ClientEffect(c: Cluster, h: Hist, c': Cluster, h': Hist, n: nat, e: Entry) {
    && Frame(c, c', n) && c'.msgs == c.msgs && c.procs[n].node.term in h.terms
    && var p, p', t := c.procs[n], c'.procs[n], c.procs[n].node.term;
       && h.terms[t].log == p.node.log && h.terms[t].leader == n
       && p'.node.term == t && p'.node.role == p.node.role && p'.node.log == p.node.log + [e]
       && p'.node.disk == p.node.disk
       && p'.calls == p.calls[|p.node.log| := Call(t, 0, 1, None)]
       && h' == h.(terms := h.terms[t := h.terms[t].(log := p.node.log + [e])])
  }

  lemma ClientHasEffect(c: Cluster, h: Hist, n: nat, command: string)
    requires ElectionInv(c, h) && LogInv(c, h) && IsLeader(c, n) && c.procs[n].node.snapshot.None?
    ensures var node := c.procs[n].node;
      ClientEffect(c, h, DoClientAppend(c, n, command), RecordClient(h, node, command),
                   n, Entry(node.term, |node.log|, command))
  {
    var node := c.procs[n].node;
    assert ProcOk(h, c.procs[n]) && LeaderRecorded(node, n, h);
    assert DoClientAppend(c, n, command).msgs == c.msgs;
  }

  lemma ClientRecords(c: Cluster, h: Hist, c': Cluster, h': Hist, n: nat, e: Entry)
    requires AckInv(c, h) && StartsOk(h) && ClientEffect(c, h, c', h', n, e)
    ensures Later(h, h') && AcksOk(c', h') && AllSaved(c') && AckVotesOk(h') && AckLeadsOk(h')
  {
    assert Saved(c.procs[n].node);
    OldAcksKept(c, h, c', h', n);
    AllSavedKept(c, c', n);
    OldVotePairs(c, h, h');
    OldLeadPairs(c, h, h');
  }

  lemma ClientAcks(c: Cluster, h: Hist, c': Cluster, h': Hist, n: nat, e: Entry)
    requires ElectionInv(c, h) && AckInv(c, h) && LogInv(c, h)
    requires ClientEffect(c, h, c', h', n, e)
    ensures AckInv(c', h')
  {
    LogInvStarts(c, h);
    ClientRecords(c, h, c', h', n, e);
    RepliesKept(c, h, c', h');
    ClientCalls(h, h', c.procs[n], c'.procs[n], n, |c.procs|);
    AllCallsKept(c, h, c', h', n);
  }

  // ---------- AppendEntries ----------

  lemma PrefixesMatch(shared: Log, log: Log, lead: Log, at: nat)
    requires shared <= log && shared <= lead
    ensures at < |shared| ==> at < |log| && at < |lead| && log[at] == lead[at]
  {}

  /** Whatever the sender's log shares with the receiver's stays. */
  lemma SharedStays(n: Node, lead: Log, a: AppendArgs, shared: Log)
    requires SentFrom(lead, a) && Indexed(lead) && n.snapshot.None?
    requires H.PrevMatches(n, a.prevLogIndex, a.prevLogTerm) ==> AgreesBefore(n.log, lead, a)
    requires shared <= n.log && shared <= lead
    ensures shared <= TakenLog(n, a)
  {
    if a.term >= n.term && H.PrevMatches(n, a.prevLogIndex, a.prevLogTerm) {
      TakesFromLeader(n, lead, a);
      var at := a.prevLogIndex + 1;
      if a.entries != [] && !H.Skips(n.log, at, a.entries) {
        PrefixesMatch(shared, n.log, lead, at);
        assert lead[..End(a)][..|shared|] == lead[..|shared|];
      }
    }
  }

  lemma TakenHolds(h: Hist, n: Node, a: AppendArgs, k: Ack)
    requires AckRecorded(h, k) && Held(h, k, n.log, n.term) && k.term <= n.term <= a.term
    requires Good(h, n.log) && a.term in h.terms && RecOk(h, a.term) && SentFrom(h.terms[a.term].log, a)
    requires n.snapshot.None?
    ensures Held(h, k, TakenLog(n, a), a.term)
  {
    var lead, shared := h.terms[a.term].log, UpTo(h, k.term, k.index);
    if Obstacle(h, k.term, k.index, n.term) {
      var w :| w in h.terms && Lacks(h, w, k.term, k.index, n.term);
      assert Lacks(h, w, k.term, k.index, a.term);
    } else if k.term < a.term && !(shared <= ElectedLog(h.terms[a.term])) {
      assert Lacks(h, a.term, k.term, k.index, a.term);
    } else {
      GoodIndexed(h, lead);
      if H.PrevMatches(n, a.prevLogIndex, a.prevLogTerm) {
        CheckAgrees(h, n, a);
      }
      assert shared <= lead;
      SharedStays(n, lead, a, shared);
    }
  }

  /** The receiver answered success, and holds all that was sent. */
  predicate Took(h: Hist, a: AppendArgs, log: Log) {
    a.term in h.terms && AgreeTo(log, h.terms[a.term].log, End(a))
  }

  predicate AppendEffect(c: Cluster, h: Hist, c': Cluster, h': Hist, id: nat, a: AppendArgs, success: bool) {
    && Frame(c, c', id) && a.term in h.terms && RecOk(h, a.term) && SentFrom(h.terms[a.term].log, a)
    && var n, n' := c.procs[id].node, c'.procs[id].node;
       && n.snapshot.None? && Good(h, n.log)
       && n'.term == (if a.term < n.term then n.term else a.term) && n'.log == TakenLog(n, a)
       && n'.disk.log == (if a.term < n.term then n.disk.log else n'.log)
       && (success ==> a.term >= n.term && Took(h, a, n'.log))
       && h' == (if success then h.(acks := h.acks + Acked(id, a.term, h.terms[a.term].start, End(a))) else h)
  }

  lemma AppendAckOk(c: Cluster, h: Hist, c': Cluster, h': Hist, id: nat, a: AppendArgs, success: bool, k: Ack)
    requires AcksOk(c, h) && AllSaved(c) && AppendEffect(c, h, c', h', id, a, success) && k in h'.acks && StartsOk(h)
    ensures AckOk(c', h', k)
  {
    var n, n' := c.procs[id].node, c'.procs[id].node;
    if k in h.acks {
      HeldInLog(c, h, k);
      if k.node == id && a.term >= n.term {
        TakenHolds(h, n, a, k);
        HeldKept(h, h', k, n'.log, n'.log, n'.term, n'.term);
      } else {
        OldAckKept(c, h, c'.(procs := c.procs), h', id, k);
      }
    } else {
      AgreeLess(n'.log, h.terms[a.term].log, End(a), k.index + 1);
    }
  }

  lemma AppendAcks(c: Cluster, h: Hist, c': Cluster, h': Hist, id: nat, a: AppendArgs, answer: Msg)
    requires ElectionInv(c, h) && AckInv(c, h) && LogInv(c, h) && VotesOk(c, h)
    requires answer.AppRep? && answer.src == id && answer.append == a && c'.msgs == c.msgs + {answer}
    requires AppendEffect(c, h, c', h', id, a, answer.appendReply.success)
    requires CallsOk(h, c'.procs[id], id, |c.procs|)
    ensures AckInv(c', h')
  {
    LogInvStarts(c, h);
    forall k | k in h'.acks ensures AckOk(c', h', k) {
      AppendAckOk(c, h, c', h', id, a, answer.appendReply.success, k);
    }
    AppendPairs(c, h, c', h', id, a, answer.appendReply.success);
    AppendSaved(c, c', h, h', id, a, answer.appendReply.success);
    RepliesKept(c, h, c', h');
    CallsKept(h, h', c'.procs[id], c'.procs[id], id, |c.procs|);
    AllCallsKept(c, h, c', h', id);
  }

  lemma AppendSaved(c: Cluster, c': Cluster, h: Hist, h': Hist, id: nat, a: AppendArgs, success: bool)
    requires AllSaved(c) && AppendEffect(c, h, c', h', id, a, success)
    ensures AllSaved(c')
  {
    assert Saved(c.procs[id].node);
    AllSavedKept(c, c', id);
  }

  lemma AppendPairs(c: Cluster, h: Hist, c': Cluster, h': Hist, id: nat, a: AppendArgs, success: bool)
    requires ElectionInv(c, h) && VotesOk(c, h) && AckInv(c, h) && StartsOk(h)
    requires AppendEffect(c, h, c', h', id, a, success)
    ensures AckVotesOk(h') && AckLeadsOk(h')
  {
    if success {
      MorePairs(c, h, h', id, a.term);
    }
  }

  /** A skipped batch held nothing its receiver lacked. */
  predicate LosesNothing(c: Cluster, s: Step) {
    s.HandleAppend? && s.m.AppReq? && s.m.dst < |c.procs|
    && H.HandleAppend(c.procs[s.m.dst].node, s.m.append).1.success ==>
      CarriesThrough(c.procs[s.m.dst].node.log, s.m.append)
  }

  lemma AppendNodeEffect(h: Hist, n: Node, a: AppendArgs)
    requires Synced(n) && n.snapshot.None? && H.HandleAppend(n, a).0.snapshot.None?
    requires Good(h, n.log) && a.term in h.terms && RecOk(h, a.term) && SentFrom(h.terms[a.term].log, a)
    requires H.HandleAppend(n, a).1.success ==> CarriesThrough(n.log, a)
    ensures var (n', r) := H.HandleAppend(n, a);
      && n'.term == (if a.term < n.term then n.term else a.term) && n'.log == TakenLog(n, a)
      && n'.disk.log == (if a.term < n.term then n.disk.log else n'.log)
      && (r.success ==> a.term >= n.term && Took(h, a, n'.log))
  {
    AppendTakesLog(n, a);
    AppendSettlesOrDemotes(n, a);
    if H.HandleAppend(n, a).1.success {
      TakenBatch(h, n, a);
    }
  }

  lemma HandlingFrames(c: Cluster, m: Msg)
    requires CanHandle(c, m) && m.AppReq?
    ensures var (n', r) := H.HandleAppend(c.procs[m.dst].node, m.append);
      && Frame(c, DoHandleAppend(c, m), m.dst)
      && DoHandleAppend(c, m).procs[m.dst] == c.procs[m.dst].(node := n')
      && DoHandleAppend(c, m).msgs == c.msgs + {AppRep(m.dst, m.src, m.append, r)}
  {}

  lemma AppendRecords(h: Hist, n: Node, id: nat, a: AppendArgs)
    requires a.term in h.terms && a.prevLogIndex >= -1
    ensures RecordAppend(h, n, id, a) ==
      if H.HandleAppend(n, a).1.success then h.(acks := h.acks + Acked(id, a.term, h.terms[a.term].start, End(a)))
      else h
  {}

  lemma AppendHasEffect(c: Cluster, h: Hist, m: Msg)
    requires ElectionInv(c, h) && LogInv(c, h) && CanHandle(c, m) && m.AppReq?
    requires NoSnapshots(c) && NoSnapshots(DoHandleAppend(c, m)) && LosesNothing(c, Step.HandleAppend(m))
    ensures m.append.term in h.terms && m.append.prevLogIndex >= -1
    ensures var n := c.procs[m.dst].node;
      AppendEffect(c, h, DoHandleAppend(c, m), RecordAppend(h, n, m.dst, m.append), m.dst, m.append,
                   H.HandleAppend(n, m.append).1.success)
  {
    var n, a := c.procs[m.dst].node, m.append;
    assert ProcOk(h, c.procs[m.dst]) && MsgOk(h, m) && RecOk(h, a.term);
    assert NodeOk(n, m.dst, |c.procs|);
    HandlingFrames(c, m);
    assert H.HandleAppend(n, a).0.snapshot.None? by {
      assert DoHandleAppend(c, m).procs[m.dst].node.snapshot.None?;
    }
    AppendNodeEffect(h, n, a);
    AppendRecords(h, n, m.dst, a);
  }

  // ---------- client calls ----------

  /** One call moved on; the others are as before. */
  lemma CallsMove(h: Hist, p: Proc, p': Proc, n: nat, size: nat, index: int, call: Call)
    requires CallsOk(h, p, n, size) && p'.calls == p.calls[index := call] && CallOk(h, p', n, index, size)
    requires p'.node.role == Leader ==> p.node.role == Leader && p'.node.term == p.node.term
    ensures CallsOk(h, p', n, size)
  {
    forall i | i in p'.calls ensures CallOk(h, p', n, i, size) {
      if i != index {
        CallKept(h, h, p, p', n, i, size);
      }
    }
  }

  lemma RequestReaches(p: Proc, n: Node, peer: nat, index: int)
    requires n.snapshot.None? && peer < |n.nextIndex| && 0 <= n.nextIndex[peer] && 0 <= index < |n.log|
    ensures End(H.ClientRequest(n, peer, index)) > index
  {}

  lemma CallSendAcks(c: Cluster, h: Hist, n: nat, index: int)
    requires AckInv(c, h) && LogInv(c, h) && CanCall(c, n, index) && c.procs[n].node.snapshot.None?
    ensures AckInv(DoCallSend(c, n, index), h)
  {
    var p, c' := c.procs[n], DoCallSend(c, n, index);
    assert ProcOk(h, p) && CallOk(h, p, n, index, |c.procs|) && Saved(p.node);
    RequestReaches(p, p.node, p.calls[index].peer, index);
    CallsMove(h, p, c'.procs[n], n, |c.procs|, index, c'.procs[n].calls[index]);
    QuietAcks(c, h, c', n);
  }

  lemma NextPeerOk(h: Hist, p: Proc, p': Proc, n: nat, index: int, size: nat, success: bool)
    requires index in p.calls && CallOk(h, p, n, index, size) && n < size && InCall(p, index)
    requires p.calls[index].peer < size - 1
    requires p'.calls == p.calls[index := NextPeer(p.calls[index], success)]
    requires p'.node.role == Leader ==> p'.node.term == p.node.term
    requires success && p'.node.role == Leader ==> Ack(PeerId(n, p.calls[index].peer), p.node.term, index) in h.acks
    ensures CallOk(h, p', n, index, size)
  {
    if InCall(p', index) {
      AskersNext(h, n, p.node.term, index, p.calls[index].peer, size, success);
    }
  }

  lemma NextPeerAcks(c: Cluster, h: Hist, c': Cluster, n: nat, index: int, success: bool)
    requires AckInv(c, h) && LogInv(c, h) && CanCall(c, n, index) && Frame(c, c', n) && c'.msgs == c.msgs
    requires var p, p' := c.procs[n], c'.procs[n];
      && p'.calls == p.calls[index := NextPeer(p.calls[index], success)]
      && AtMostSaved(p.node, p'.node) && p'.node.term >= p.node.term
      && (p'.node.role == Leader ==> p'.node.term == p.node.term)
      && (success ==> index >= 0 && Ack(PeerId(n, p.calls[index].peer), p.node.term, index) in h.acks)
    ensures AckInv(c', h)
  {
    var p, p' := c.procs[n], c'.procs[n];
    assert CallOk(h, p, n, index, |c.procs|) && Saved(p.node);
    NextPeerOk(h, p, p', n, index, |c.procs|, success);
    CallsMove(h, p, p', n, |c.procs|, index, p'.calls[index]);
    QuietAcks(c, h, c', n);
  }

  lemma CallReplyAcks(c: Cluster, h: Hist, n: nat, index: int, m: Msg)
    requires AckInv(c, h) && LogInv(c, h) && CanCall(c, n, index) && CanTakeReply(c, n, index, m)
    ensures AckInv(DoCallReply(c, n, index, m), h)
  {
    assert CallOk(h, c.procs[n], n, index, |c.procs|) && ReplyAcked(h, m) && MsgOk(h, m);
    NextPeerAcks(c, h, DoCallReply(c, n, index, m), n, index, m.appendReply.success);
  }

  lemma CallMissAcks(c: Cluster, h: Hist, n: nat, index: int)
    requires AckInv(c, h) && LogInv(c, h) && CanCall(c, n, index)
    ensures AckInv(DoCallMiss(c, n, index), h)
  {
    NextPeerAcks(c, h, DoCallMiss(c, n, index), n, index, false);
  }

  lemma CallRefusedAcks(c: Cluster, h: Hist, n: nat, index: int)
    requires AckInv(c, h) && LogInv(c, h) && CanCall(c, n, index)
    ensures AckInv(DoCallRefused(c, n, index), h)
  {
    NextPeerAcks(c, h, DoCallRefused(c, n, index), n, index, false);
  }

  /** What a commit does to a leader and to the records: all it holds is saved. */
  predicate CommitEffect(c: Cluster, h: Hist, c': Cluster, h': Hist, n: nat, index: nat) {
    && Frame(c, c', n) && c'.msgs == c.msgs && c.procs[n].node.term in h.terms
    && var p, p', t := c.procs[n], c'.procs[n], c.procs[n].node.term;
       && h.terms[t].log == p.node.log && h.terms[t].start <= index < |p.node.log|
       && p'.node.log == p'.node.disk.log == p.node.log && p'.node.term == t
       && h' == h.(acks := h.acks + {Ack(n, t, index)})
  }

  lemma CommitHasEffect(c: Cluster, h: Hist, n: nat, index: int)
    requires ElectionInv(c, h) && AckInv(c, h) && LogInv(c, h) && CanCommit(c, n, index)
    requires NoSnapshots(c) && NoSnapshots(DoCommit(c, n, index))
    ensures index >= 0
    ensures CommitEffect(c, h, DoCommit(c, n, index), RecordCommit(h, c.procs[n].node, n, index), n, index)
  {
    var p := c.procs[n];
    assert ProcOk(h, p) && LeaderRecorded(p.node, n, h) && CallOk(h, p, n, index, |c.procs|);
    assert NodeOk(p.node, n, |c.procs|);
    CommitKeepsLog(c, n, index);
    CommitSettles(p.node, index);
  }

  lemma CommitRecords(c: Cluster, h: Hist, c': Cluster, h': Hist, n: nat, index: nat)
    requires ElectionInv(c, h) && VotesOk(c, h) && AckInv(c, h) && StartsOk(h)
    requires CommitEffect(c, h, c', h', n, index)
    ensures Later(h, h') && AcksOk(c', h') && AllSaved(c') && AckVotesOk(h') && AckLeadsOk(h')
  {
    assert Saved(c.procs[n].node);
    OldAcksKept(c, h, c', h', n);
    AllSavedKept(c, c', n);
    MorePairs(c, h, h', n, c.procs[n].node.term);
    assert AckOk(c', h', Ack(n, c.procs[n].node.term, index));
  }

  lemma CommitAcks(c: Cluster, h: Hist, n: nat, index: int)
    requires ElectionInv(c, h) && AckInv(c, h) && LogInv(c, h) && VotesOk(c, h) && CanCommit(c, n, index)
    requires NoSnapshots(c) && NoSnapshots(DoCommit(c, n, index))
    ensures AckInv(DoCommit(c, n, index), RecordCommit(h, c.procs[n].node, n, index))
  {
    var p, c', h' := c.procs[n], DoCommit(c, n, index), RecordCommit(h, c.procs[n].node, n, index);
    assert NodeOk(p.node, n, |c.procs|);
    LogInvStarts(c, h);
    CommitHasEffect(c, h, n, index);
    CommitRecords(c, h, c', h', n, index);
    CommitSettles(p.node, index);
    CallsKept(h, h', p, c'.procs[n], n, |c.procs|);
    AllCallsKept(c, h, c', h', n);
    RepliesKept(c, h, c', h');
  }

  // ---------- runs ----------

  lemma RecordsNothing(c: Cluster, h: Hist, s: Step)
    requires Enabled(c, s) && !s.HandleVote? && !s.WinElection?
    requires !s.ClientAppend? && !s.HandleAppend? && !s.CallCommit?
    ensures Recorded(h, c, s) == h
  {}

  lemma StaysOk(c: Cluster, h: Hist, s: Step)
    requires ElectionInv(c, h) && AckInv(c, h) && Enabled(c, s) && !CallStep(s)
    ensures Actor(s) < |c.procs| == |Do(c, s).procs|
    ensures CallsOk(h, Do(c, s).procs[Actor(s)], Actor(s), |c.procs|)
  {
    CallsStay(c, s);
    LeadsOnlyByWinning(c, h, s);
    CallsKept(h, h, c.procs[Actor(s)], Do(c, s).procs[Actor(s)], Actor(s), |c.procs|);
  }

  /** A call moves on to its next peer, or waits for the present one. */
  predicate CallMoves(s: Step) {
    s.CallSend? || s.CallReply? || s.CallMiss? || s.CallRefused?
  }

  lemma CallMovesAcks(c: Cluster, h: Hist, s: Step)
    requires AckInv(c, h) && LogInv(c, h) && Enabled(c, s) && CallMoves(s) && NoSnapshots(c)
    ensures AckInv(Do(c, s), h)
  {
    if s.CallSend? {
      CallSendAcks(c, h, s.n, s.index);
    } else if s.CallReply? {
      CallReplyAcks(c, h, s.n, s.index, s.m);
    } else if s.CallMiss? {
      CallMissAcks(c, h, s.n, s.index);
    } else {
      CallRefusedAcks(c, h, s.n, s.index);
    }
  }

  lemma ClientAppendAcks(c: Cluster, h: Hist, n: nat, command: string)
    requires ElectionInv(c, h) && AckInv(c, h) && LogInv(c, h) && IsLeader(c, n) && c.procs[n].node.snapshot.None?
    ensures AckInv(DoClientAppend(c, n, command), RecordClient(h, c.procs[n].node, command))
  {
    ClientHasEffect(c, h, n, command);
    ClientAcks(c, h, DoClientAppend(c, n, command), RecordClient(h, c.procs[n].node, command),
               n, Entry(c.procs[n].node.term, |c.procs[n].node.log|, command));
  }

  lemma CallingAcks(c: Cluster, h: Hist, s: Step)
    requires ElectionInv(c, h) && AckInv(c, h) && LogInv(c, h) && VotesOk(c, h)
    requires Enabled(c, s) && CallStep(s) && !s.Crash? && NoSnapshots(c) && NoSnapshots(Do(c, s))
    requires s.WinElection? && s.n < |c.procs| == |Do(c, s).procs| ==>
      KeepsSaved(c.procs[s.n].node, Do(c, s).procs[s.n].node)
    ensures AckInv(Do(c, s), Recorded(h, c, s))
  {
    if CallMoves(s) {
      CallMovesAcks(c, h, s);
      RecordsNothing(c, h, s);
    } else if s.ClientAppend? {
      ClientAppendAcks(c, h, s.n, s.command);
    } else if s.CallCommit? {
      CommitAcks(c, h, s.n, s.index);
    } else {
      WinAcks(c, h, s.n);
    }
  }

  lemma HandleAppendAcks(c: Cluster, h: Hist, m: Msg)
    requires ElectionInv(c, h) && AckInv(c, h) && LogInv(c, h) && VotesOk(c, h) && CanHandle(c, m) && m.AppReq?
    requires NoSnapshots(c) && NoSnapshots(DoHandleAppend(c, m)) && LosesNothing(c, Step.HandleAppend(m))
    requires CallsOk(h, DoHandleAppend(c, m).procs[m.dst], m.dst, |c.procs|)
    ensures AckInv(DoHandleAppend(c, m), RecordAppend(h, c.procs[m.dst].node, m.dst, m.append))
  {
    AppendHasEffect(c, h, m);
    HandlingFrames(c, m);
    var n := c.procs[m.dst].node;
    AppendAcks(c, h, DoHandleAppend(c, m), RecordAppend(h, n, m.dst, m.append), m.dst, m.append,
               AppRep(m.dst, m.src, m.append, H.HandleAppend(n, m.append).1));
  }

  lemma StepKeepsAcks(c: Cluster, h: Hist, s: Step)
    requires ElectionInv(c, h) && AckInv(c, h) && LogInv(c, h) && VotesOk(c, h)
    requires Enabled(c, s) && !SnapshotStep(s) && NoSnapshots(c) && NoSnapshots(Do(c, s)) && LosesNothing(c, s)
    ensures AckInv(Do(c, s), Recorded(h, c, s))
  {
    StepExtends(c, h, s);
    if s.HandleAppend? {
      StaysOk(c, h, s);
      HandleAppendAcks(c, h, s.m);
    } else {
      assert Saved(c.procs[Actor(s)].node);
      StepSaves(c, h, s);
      OtherAcks(c, h, s);
    }
  }

  lemma CrashAcks(c: Cluster, h: Hist, n: nat, replayed: KV)
    requires AckInv(c, h) && LogInv(c, h) && n < |c.procs|
    requires KeepsSaved(c.procs[n].node, DoCrash(c, n, replayed).procs[n].node)
    ensures AckInv(DoCrash(c, n, replayed), h)
  {
    assert DoCrash(c, n, replayed).msgs == c.msgs;
    QuietAcks(c, h, DoCrash(c, n, replayed), n);
  }

  lemma OtherAcks(c: Cluster, h: Hist, s: Step)
    requires ElectionInv(c, h) && AckInv(c, h) && LogInv(c, h) && VotesOk(c, h)
    requires Enabled(c, s) && !SnapshotStep(s) && !s.HandleAppend? && NoSnapshots(c) && NoSnapshots(Do(c, s))
    requires Frame(c, Do(c, s), Actor(s)) && KeepsSaved(c.procs[Actor(s)].node, Do(c, s).procs[Actor(s)].node)
    ensures AckInv(Do(c, s), Recorded(h, c, s))
  {
    if s.Crash? {
      CrashAcks(c, h, s.n, s.replayed);
    } else if CallStep(s) {
      CallingAcks(c, h, s);
    } else {
      StaysOk(c, h, s);
      if s.HandleVote? {
        HandleVoteAcks(c, h, s.m);
      } else {
        RecordsNothing(c, h, s);
        NewMsgs(c, s);
        QuietAcks(c, h, Do(c, s), Actor(s));
      }
    }
  }

  /** No batch that was skipped in the run held an entry its receiver lacked. */
  predicate NothingLost(r: seq<Cluster>, steps: seq<Step>) {
    forall k | 0 <= k < |steps| && k < |r| :: LosesNothing(r[k], steps[k])
  }

  lemma {:induction false} RunKeepsAcks(r: seq<Cluster>, steps: seq<Step>, k: nat)
    requires IsRun(r, steps) && CompactionFree(r) && NothingLost(r, steps) && k <= |steps|
    ensures AckInv(r[k], HistoryOf(r, steps, k))
  {
    if k != 0 {
      var j := k - 1;
      RunKeepsAcks(r, steps, j);
      NoSnapshotStep(r, steps, j);
      RunKeeps(r, steps, j);
      RunKeepsLogs(r, steps, j);
      RunKeepsBallots(r, steps, j);
      StepKeepsAcks(r[j], HistoryOf(r, steps, j), steps[j]);
    }
  }
}
