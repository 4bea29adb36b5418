/** The loops of one node as steps of the cluster: an election and a client command that nothing
    interrupts are sequences of that node's steps, whatever the other nodes do in between. */
module Uninterrupted {
  import opened RaftTypes
  import opened Protocol
  import opened RaftNodes
  import H = Handlers

  /** The other nodes have acted: messages were added, and node `n` is as before. */
  predicate OthersActed(n: nat, c: Cluster, c': Cluster) {
    n < |c.procs| == |c'.procs| && c'.procs[n] == c.procs[n] && c.msgs <= c'.msgs
  }

  /** From `c` to `c'` by the steps of `trail`, each in the state given with it, which differs from
      the one before only by what other nodes did. */
  ghost predicate Follows(n: nat, c: Cluster, trail: seq<(Cluster, Step)>, c': Cluster)
    decreases |trail|
  {
    if trail == [] then c == c'
    else
      var (now, s) := trail[0];
      OthersActed(n, c, now) && Enabled(now, s) && Follows(n, Do(now, s), trail[1..], c')
  }

  lemma FollowsMore(n: nat, c: Cluster, now: Cluster, s: Step, rest: seq<(Cluster, Step)>, c': Cluster)
    requires OthersActed(n, c, now) && Enabled(now, s) && Follows(n, Do(now, s), rest, c')
    ensures Follows(n, c, [(now, s)] + rest, c')
  {
    assert ([(now, s)] + rest)[1..] == rest;
  }

  lemma {:induction false} FollowsJoin(n: nat, c: Cluster, turn: seq<(Cluster, Step)>, next: Cluster,
      rest: seq<(Cluster, Step)>, c': Cluster)
    requires Follows(n, c, turn, next) && Follows(n, next, rest, c')
    ensures Follows(n, c, turn + rest, c')
    decreases |turn|
  {
    if turn == [] {
      assert turn + rest == rest;
    } else {
      var (now, s) := turn[0];
      FollowsJoin(n, Do(now, s), turn[1..], next, rest, c');
      FollowsMore(n, c, now, s, turn[1..] + rest, c');
      assert [turn[0]] + (turn[1..] + rest) == turn + rest;
    }
  }

  // ---------- elections ----------

  /** A candidate that has asked the first `i` peers and counted `votes`. */
  function Polled(c: Node, replies: seq<Option<VoteReply>>, i: nat, votes: nat): Node
    requires i <= |replies|
    decreases |replies| - i
  {
    if i == |replies| then if Majority(votes, |replies| + 1) then H.WinElection(c) else c
    else if replies[i].None? then Polled(c, replies, i + 1, votes)
    else if replies[i].value.term > c.term then H.BecomeFollower(c, replies[i].value.term)
    else Polled(c, replies, i + 1, if replies[i].value.granted then votes + 1 else votes)
  }

  lemma {:induction false} HigherBehind(term: nat, replies: seq<Option<VoteReply>>, i: nat)
    requires i <= |replies|
    requires forall j | 0 <= j < i && replies[j].Some? :: replies[j].value.term <= term
    ensures HigherAt(term, replies) >= i
    ensures i < |replies| && replies[i].Some? && replies[i].value.term > term ==> HigherAt(term, replies) == i
  {}

  lemma {:induction false} PolledIsElected(c: Node, replies: seq<Option<VoteReply>>, i: nat)
    requires i <= |replies|
    requires forall j | 0 <= j < i && replies[j].Some? :: replies[j].value.term <= c.term
    ensures var k := HigherAt(c.term, replies);
      Polled(c, replies, i, 1 + GrantCount(replies[..i])) ==
        if k < |replies| then H.BecomeFollower(c, replies[k].value.term)
        else if Majority(1 + GrantCount(replies), |replies| + 1) then H.WinElection(c)
        else c
    decreases |replies| - i
  {
    HigherBehind(c.term, replies, i);
    if i == |replies| {
      assert replies[..i] == replies;
    } else {
      assert replies[..i + 1][..i] == replies[..i];
      if replies[i].None? || replies[i].value.term <= c.term {
        PolledIsElected(c, replies, i + 1);
      }
    }
  }

  /** Node `n` is in the middle of an election. */
  predicate Polling(c: Cluster, n: nat, i: nat, votes: nat) {
    && n < |c.procs| && InElection(c.procs[n])
    && c.procs[n].election.value == Election(c.procs[n].node.term, i, votes)
  }

  /** The state in which the reply of peer `i` has arrived. */
  function WithVote(c: Cluster, n: nat, i: nat, reply: VoteReply): Cluster
    requires n < |c.procs|
  {
    c.(msgs := c.msgs + {VoteRep(PeerId(n, i), n, c.procs[n].node.term, reply)})
  }

  /** Node `n` takes the step `first` in `c` and then the step `s` in `now`, which ends in `next`. */
  lemma TwoSteps(n: nat, c: Cluster, first: Step, now: Cluster, s: Step, next: Cluster)
      returns (turn: seq<(Cluster, Step)>)
    requires n < |c.procs| && Enabled(c, first) && OthersActed(n, Do(c, first), now)
    requires Enabled(now, s) && next == Do(now, s)
    ensures Follows(n, c, turn, next)
  {
    FollowsMore(n, Do(c, first), now, s, [], next);
    FollowsMore(n, c, c, first, [(now, s)] + [], next);
    turn := [(c, first)] + ([(now, s)] + []);
  }

  /** The turn of a peer that does not answer a vote request. */
  lemma MissPoll(c: Cluster, n: nat, i: nat, votes: nat)
      returns (turn: seq<(Cluster, Step)>, next: Cluster)
    requires Polling(c, n, i, votes) && i < |c.procs| - 1
    ensures Follows(n, c, turn, next)
    ensures Polling(next, n, i + 1, votes) && |next.procs| == |c.procs|
    ensures next.procs[n].node == c.procs[n].node
  {
    var asked := DoAsk(c, n);
    next := DoMissVote(asked, n);
    turn := TwoSteps(n, c, Step.AskVote(n), asked, Step.MissVote(n), next);
  }

  /** The turn of a peer that answers it. */
  lemma AnswerPoll(c: Cluster, n: nat, i: nat, votes: nat, r: VoteReply)
      returns (turn: seq<(Cluster, Step)>, next: Cluster)
    requires Polling(c, n, i, votes) && i < |c.procs| - 1
    ensures Follows(n, c, turn, next) && |next.procs| == |c.procs|
    ensures if r.term > c.procs[n].node.term
      then next.procs[n].node == H.BecomeFollower(c.procs[n].node, r.term)
      else
        && Polling(next, n, i + 1, if r.granted then votes + 1 else votes)
        && next.procs[n].node == c.procs[n].node
  {
    var m := VoteRep(PeerId(n, i), n, c.procs[n].node.term, r);
    var now := WithVote(DoAsk(c, n), n, i, r);
    next := DoTakeVote(now, n, m);
    turn := TwoSteps(n, c, Step.AskVote(n), now, Step.TakeVote(n, m), next);
  }

  lemma LastPoll(c: Cluster, n: nat, replies: seq<Option<VoteReply>>, votes: nat)
      returns (trail: seq<(Cluster, Step)>, c': Cluster)
    requires |replies| == |c.procs| - 1 && Polling(c, n, |replies|, votes)
    ensures Follows(n, c, trail, c') && n < |c'.procs|
    ensures c'.procs[n].node == Polled(c.procs[n].node, replies, |replies|, votes)
  {
    if Majority(votes, |c.procs|) {
      trail, c' := [(c, Step.WinElection(n))], DoWin(c, n);
      FollowsMore(n, c, c, Step.WinElection(n), [], c');
      assert trail == [(c, Step.WinElection(n))] + [];
    } else {
      trail, c' := [], c;
    }
  }

  lemma {:induction false} PollingSteps(c: Cluster, n: nat, replies: seq<Option<VoteReply>>, i: nat, votes: nat)
      returns (trail: seq<(Cluster, Step)>, c': Cluster)
    requires |replies| == |c.procs| - 1 && i <= |replies| && Polling(c, n, i, votes)
    ensures Follows(n, c, trail, c') && n < |c'.procs|
    ensures c'.procs[n].node == Polled(c.procs[n].node, replies, i, votes)
    decreases |replies| - i
  {
    if i == |replies| {
      trail, c' := LastPoll(c, n, replies, votes);
    } else if replies[i].None? {
      var turn, next := MissPoll(c, n, i, votes);
      var rest;
      rest, c' := PollingSteps(next, n, replies, i + 1, votes);
      trail := turn + rest;
      FollowsJoin(n, c, turn, next, rest, c');
    } else {
      var r := replies[i].value;
      var turn, next := AnswerPoll(c, n, i, votes, r);
      var rest: seq<(Cluster, Step)> := [];
      c' := next;
      if r.term <= c.procs[n].node.term {
        rest, c' := PollingSteps(next, n, replies, i + 1, if r.granted then votes + 1 else votes);
      }
      trail := turn + rest;
      FollowsJoin(n, c, turn, next, rest, c');
    }
  }

  /** An election that nothing interrupts is a sequence of the node's steps, with the outcome that
      the replies decide. */
  lemma ElectionIsSteps(c: Cluster, n: nat, replies: seq<Option<VoteReply>>)
      returns (trail: seq<(Cluster, Step)>, c': Cluster)
    requires CanBegin(c, n) && |replies| == |c.procs| - 1
    ensures Follows(n, c, trail, c') && n < |c'.procs|
    ensures c'.procs[n].node == Elected(c.procs[n].node, replies)
  {
    var begun := DoBegin(c, n);
    BegunElection(c.procs[n].node, replies);
    var rest;
    rest, c' := PollingSteps(begun, n, replies, 0, 1);
    trail := [(c, Step.BeginElection(n))] + rest;
    FollowsMore(n, c, c, Step.BeginElection(n), rest, c');
  }

  lemma BegunElection(n: Node, replies: seq<Option<VoteReply>>)
    ensures Polled(H.BeginElection(n), replies, 0, 1) == Elected(n, replies)
  {
    PolledIsElected(H.BeginElection(n), replies, 0);
    assert GrantCount(replies[..0]) == 0;
  }

  // ---------- heartbeats ----------

  lemma BeatTurn(c: Cluster, n: nat, i: nat, r: AppendReply) returns (turn: seq<(Cluster, Step)>, next: Cluster)
    requires IsLeader(c, n) && CanBeat(c, n, i)
    ensures Follows(n, c, turn, next) && |next.procs| == |c.procs|
    ensures var node := c.procs[n].node;
      next.procs[n].node ==
        H.HeartbeatReply(node, i, node.nextIndex[i], |H.HeartbeatRequest(node, i).entries|, r)
  {
    var a := H.HeartbeatRequest(c.procs[n].node, i);
    var m := AppRep(PeerId(n, i), n, a, r);
    var now := WithReply(DoBeat(c, n, i), n, i, a, r);
    next := DoTakeBeat(now, n, m);
    turn := TwoSteps(n, c, HeartbeatSend(n, i), now, HeartbeatReply(n, m), next);
  }

  lemma BeatKeepsLeader(n: Node, i: nat, r: AppendReply)
    requires i < |n.nextIndex| == |n.matchIndex| && r.term <= n.term
    ensures var m := H.HeartbeatReply(n, i, n.nextIndex[i], |H.HeartbeatRequest(n, i).entries|, r);
      m.role == n.role && |m.nextIndex| == |m.matchIndex| == |n.nextIndex|
  {}

  /** A round of heartbeats that nothing interrupts is a sequence of the leader's steps, with the
      outcome that the replies decide. */
  lemma {:induction false} HeartbeatsAreSteps(c: Cluster, n: nat, replies: seq<Option<AppendReply>>, i: nat)
      returns (trail: seq<(Cluster, Step)>, c': Cluster)
    requires IsLeader(c, n) && i <= |replies| == |c.procs| - 1
    ensures Follows(n, c, trail, c') && n < |c'.procs|
    ensures c'.procs[n].node == Beaten(c.procs[n].node, replies, i)
    decreases |replies| - i
  {
    var node := c.procs[n].node;
    if i == |replies| {
      trail, c' := [], c;
    } else if BehindSnapshot(node, i) || replies[i].None? {
      trail, c' := HeartbeatsAreSteps(c, n, replies, i + 1);
    } else {
      var r := replies[i].value;
      var turn, next := BeatTurn(c, n, i, r);
      var rest: seq<(Cluster, Step)> := [];
      c' := next;
      if r.term <= node.term {
        BeatKeepsLeader(node, i, r);
        rest, c' := HeartbeatsAreSteps(next, n, replies, i + 1);
      }
      trail := turn + rest;
      FollowsJoin(n, c, turn, next, rest, c');
    }
  }

  // ---------- client commands ----------

  /** Node `n` is in the middle of a client call for the entry at `index`. */
  predicate Calling(c: Cluster, n: nat, index: int, i: nat, successes: nat) {
    && IsLeader(c, n) && InCall(c.procs[n], index)
    && c.procs[n].calls[index] == Call(c.procs[n].node.term, i, successes, None)
  }

  lemma OutcomeMissed(n: Node, index: int, replies: seq<Option<AppendReply>>, i: nat, successes: nat)
    requires i < |replies| == |n.nextIndex| == |n.matchIndex| && replies[i].None?
    ensures Outcome(n, index, replies, i, successes) == Outcome(n, index, replies, i + 1, successes)
  {}

  lemma OutcomeAnswered(n: Node, index: int, replies: seq<Option<AppendReply>>, i: nat, successes: nat)
    requires i < |replies| == |n.nextIndex| == |n.matchIndex| && replies[i].Some?
    ensures Outcome(n, index, replies, i, successes) ==
      var r := replies[i].value;
      var m := H.ClientReply(n, i, index, r);
      if r.term > n.term then m
      else Outcome(m, index, replies, i + 1, if r.success then successes + 1 else successes)
  {}

  /** The state in which the reply to the request of the call has arrived. */
  function WithReply(c: Cluster, n: nat, i: nat, a: AppendArgs, reply: AppendReply): Cluster {
    c.(msgs := c.msgs + {AppRep(PeerId(n, i), n, a, reply)})
  }

  /** The turn of a peer that does not answer. */
  lemma MissTurn(c: Cluster, n: nat, index: int, i: nat, successes: nat)
      returns (turn: seq<(Cluster, Step)>, next: Cluster)
    requires Calling(c, n, index, i, successes) && i < |c.procs| - 1
    ensures Follows(n, c, turn, next)
    ensures Calling(next, n, index, i + 1, successes) && |next.procs| == |c.procs|
    ensures next.procs[n].node == c.procs[n].node
  {
    var sent := DoCallSend(c, n, index);
    next := DoCallMiss(sent, n, index);
    turn := TwoSteps(n, c, CallSend(n, index), sent, CallMiss(n, index), next);
  }

  /** The turn of a peer that answers. */
  lemma AnswerTurn(c: Cluster, n: nat, index: int, i: nat, successes: nat, r: AppendReply)
      returns (turn: seq<(Cluster, Step)>, next: Cluster)
    requires Calling(c, n, index, i, successes) && i < |c.procs| - 1
    ensures Follows(n, c, turn, next) && |next.procs| == |c.procs|
    ensures next.procs[n].node == H.ClientReply(c.procs[n].node, i, index, r)
    ensures r.term > c.procs[n].node.term ||
      Calling(next, n, index, i + 1, if r.success then successes + 1 else successes)
  {
    var a := H.ClientRequest(c.procs[n].node, i, index);
    var m := AppRep(PeerId(n, i), n, a, r);
    var now := WithReply(DoCallSend(c, n, index), n, i, a, r);
    next := DoCallReply(now, n, index, m);
    turn := TwoSteps(n, c, CallSend(n, index), now, CallReply(n, index, m), next);
  }

  lemma LastTurn(c: Cluster, n: nat, index: int, replies: seq<Option<AppendReply>>, successes: nat)
      returns (trail: seq<(Cluster, Step)>, c': Cluster)
    requires |replies| == |c.procs| - 1 && Calling(c, n, index, |replies|, successes)
    ensures Follows(n, c, trail, c') && n < |c'.procs|
    ensures c'.procs[n].node == Outcome(c.procs[n].node, index, replies, |replies|, successes)
  {
    if Commits(c.procs[n].node, index, successes, |replies|) {
      trail, c' := [(c, CallCommit(n, index))], DoCommit(c, n, index);
      FollowsMore(n, c, c, CallCommit(n, index), [], c');
      assert trail == [(c, CallCommit(n, index))] + [];
    } else {
      trail, c' := [], c;
    }
  }

  lemma {:induction false} CallingSteps(c: Cluster, n: nat, index: int, replies: seq<Option<AppendReply>>, i: nat,
      successes: nat) returns (trail: seq<(Cluster, Step)>, c': Cluster)
    requires |replies| == |c.procs| - 1 && i <= |replies| && Calling(c, n, index, i, successes)
    ensures Follows(n, c, trail, c') && n < |c'.procs|
    ensures c'.procs[n].node == Outcome(c.procs[n].node, index, replies, i, successes)
    decreases |replies| - i
  {
    if i == |replies| {
      trail, c' := LastTurn(c, n, index, replies, successes);
    } else if replies[i].None? {
      OutcomeMissed(c.procs[n].node, index, replies, i, successes);
      trail, c' := MissSteps(c, n, index, replies, i, successes);
    } else {
      trail, c' := AnswerSteps(c, n, index, replies, i, successes);
    }
  }

  lemma {:induction false} MissSteps(c: Cluster, n: nat, index: int, replies: seq<Option<AppendReply>>, i: nat,
      successes: nat) returns (trail: seq<(Cluster, Step)>, c': Cluster)
    requires |replies| == |c.procs| - 1 && i < |replies| && Calling(c, n, index, i, successes) && replies[i].None?
    ensures Follows(n, c, trail, c') && n < |c'.procs|
    ensures c'.procs[n].node == Outcome(c.procs[n].node, index, replies, i + 1, successes)
    decreases |replies| - i, 0
  {
    var turn, next := MissTurn(c, n, index, i, successes);
    var rest;
    rest, c' := CallingSteps(next, n, index, replies, i + 1, successes);
    trail := turn + rest;
    FollowsJoin(n, c, turn, next, rest, c');
  }

  lemma {:induction false} AnswerSteps(c: Cluster, n: nat, index: int, replies: seq<Option<AppendReply>>, i: nat,
      successes: nat) returns (trail: seq<(Cluster, Step)>, c': Cluster)
    requires |replies| == |c.procs| - 1 && i < |replies| && Calling(c, n, index, i, successes) && replies[i].Some?
    ensures Follows(n, c, trail, c') && n < |c'.procs|
    ensures c'.procs[n].node == Outcome(c.procs[n].node, index, replies, i, successes)
    decreases |replies| - i, 0
  {
    var r := replies[i].value;
    var turn, next := AnswerTurn(c, n, index, i, successes, r);
    var rest: seq<(Cluster, Step)> := [];
    c' := next;
    if r.term <= c.procs[n].node.term {
      rest, c' := CallingSteps(next, n, index, replies, i + 1, if r.success then successes + 1 else successes);
    }
    OutcomeAnswered(c.procs[n].node, index, replies, i, successes);
    trail := turn + rest;
    FollowsJoin(n, c, turn, next, rest, c');
  }

  /** A client command that nothing interrupts is a sequence of the leader's steps, with the outcome
      that the replies decide. */
  lemma CommandIsSteps(c: Cluster, n: nat, text: string, replies: seq<Option<AppendReply>>)
      returns (trail: seq<(Cluster, Step)>, c': Cluster)
    requires IsLeader(c, n) && |replies| == |c.procs| - 1
    ensures Follows(n, c, trail, c') && n < |c'.procs|
    ensures c'.procs[n].node ==
      Outcome(H.AppendClient(c.procs[n].node, text), H.LogSize(c.procs[n].node), replies, 0, 1)
  {
    var index, appended := H.LogSize(c.procs[n].node), DoClientAppend(c, n, text);
    var rest;
    rest, c' := CallingSteps(appended, n, index, replies, 0, 1);
    trail := [(c, ClientAppend(n, text))] + rest;
    FollowsMore(n, c, c, ClientAppend(n, text), rest, c');
  }
}
