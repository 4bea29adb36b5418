/** What a run has done so far, computed from its states and steps. No guard reads it. */
module History {
  import opened RaftTypes
  import opened Protocol
  import H = Handlers

  /** The leader of a term: the log it was elected with is the first `start` entries of `log`,
      and `voters` is the majority that elected it. */
  datatype TermRec = TermRec(leader: nat, start: nat, log: Log, voters: set<nat>)

  /** A vote cast in a term that had no leader yet, with the voter's log at that moment. */
  datatype VoteRec = VoteRec(vote: VoteArgs, log: Log)

  /** While in that term, node `node` saved a log with the entry at `index` of term `term`'s leader:
      a follower before it answers, the leader itself when it commits. */
  datatype Ack = Ack(node: nat, term: nat, index: nat)

  datatype Hist = Hist(terms: map<nat, TermRec>, votes: map<(nat, nat), VoteRec>, acks: set<Ack>)

  /** The reply by which `voter` gives `candidate` its vote in `term`. */
  function Grant(voter: nat, candidate: nat, term: nat): Msg {
    VoteRep(voter, candidate, term, VoteReply(term, true))
  }

  /** The nodes in the first `k` slots that voted for `n` in `term`. */
  function Granters(c: Cluster, n: nat, term: nat, k: nat): (s: set<nat>) {
    set v | 0 <= v < |c.procs| && v != n && PeerSlot(n, v) < k && Grant(v, n, term) in c.msgs
  }

  function Acked(node: nat, term: nat, start: nat, end: nat): set<Ack> {
    set i | start <= i < end :: Ack(node, term, i)
  }

  function RecordVote(h: Hist, voter: Node, id: nat, a: VoteArgs): Hist {
    var r := H.HandleVote(voter, a).1;
    if r.granted && (id, r.term) !in h.votes && r.term !in h.terms then
      h.(votes := h.votes[(id, r.term) := VoteRec(a, voter.log)])
    else h
  }

  function RecordWin(h: Hist, c: Cluster, n: nat): Hist
    requires n < |c.procs|
  {
    var node := c.procs[n].node;
    var voters := Granters(c, n, node.term, |c.procs| - 1) + {n};
    h.(terms := h.terms[node.term := TermRec(n, |node.log|, node.log, voters)])
  }

  function RecordClient(h: Hist, node: Node, command: string): Hist {
    if node.term in h.terms then
      var log := H.AppendClient(node, command).log;
      h.(terms := h.terms[node.term := h.terms[node.term].(log := log)])
    else h
  }

  function RecordCommit(h: Hist, node: Node, id: nat, index: int): Hist {
    if index >= 0 then h.(acks := h.acks + {Ack(id, node.term, index)}) else h
  }

  function RecordAppend(h: Hist, node: Node, id: nat, a: AppendArgs): Hist {
    if H.HandleAppend(node, a).1.success && a.term in h.terms && a.prevLogIndex >= -1 then
      h.(acks := h.acks + Acked(id, a.term, h.terms[a.term].start, a.prevLogIndex + 1 + |a.entries|))
    else h
  }

  ghost function Recorded(h: Hist, c: Cluster, s: Step): Hist
    requires Enabled(c, s)
  {
    match s
    case HandleVote(m) => RecordVote(h, c.procs[m.dst].node, m.dst, m.vote)
    case WinElection(n) => RecordWin(h, c, n)
    case ClientAppend(n, command) => RecordClient(h, c.procs[n].node, command)
    case CallCommit(n, index) => RecordCommit(h, c.procs[n].node, n, index)
    case HandleAppend(m) => RecordAppend(h, c.procs[m.dst].node, m.dst, m.append)
    case _ => h
  }

  ghost function HistoryOf(r: seq<Cluster>, steps: seq<Step>, k: nat): Hist
    requires IsRun(r, steps) && k <= |steps|
  {
    if k == 0 then Hist(map[], map[], {})
    else
      assert RunStep(r, steps, k - 1);
      Recorded(HistoryOf(r, steps, k - 1), r[k - 1], steps[k - 1])
  }
}
