/**
 * The role state machine's shared event handlers (AbstractServerState):
 * the term-comparison rules that Follower, Candidate and Leader inherit,
 * after the leader-election rules of sections 5.1 and 5.2 of the Raft
 * paper (Ongaro and Ousterhout, "In Search of an Understandable Consensus
 * Algorithm").
 *
 * A state value never changes; a role change installs a new value. A
 * handler changes nothing itself: it returns, in order, the calls it makes
 * on its context (cancel the current timer, schedule a fresh one, install a
 * replacement state, broadcast an RPC, send a reply). The election actor
 * (module Actor) performs them.
 */
module ServerStates {
  import opened Wrappers
  import opened Rpc
  import JavaLang

  datatype Role = Follower | Candidate | Leader

  /** An opaque handle of a scheduled election timeout or log-replication task. */
  type TimerHandle = nat

  /**
   * One role state. The Follower carries what the shared handlers give
   * FollowerServerState (term, vote, leader, its election timeout); the
   * Candidate counts the votes it holds; the Leader owns its log-replication
   * task.
   */
  datatype ServerState =
    | FollowerState(term: int, votedFor: Option<ServerId>, leaderId: Option<ServerId>, electionTimeout: TimerHandle)
    | CandidateState(term: int, votesCount: nat, electionTimeout: TimerHandle)
    | LeaderState(term: int, logReplicationTask: TimerHandle)
  {
    /** getRole(); getTerm() is the field term. */
    function GetRole(): (role: Role)
      ensures role == Follower <==> this.FollowerState?
      ensures role == Candidate <==> this.CandidateState?
      ensures role == Leader <==> this.LeaderState?
    {
      match this
      case FollowerState(_, _, _, _) => Follower
      case CandidateState(_, _, _) => Candidate
      case LeaderState(_, _) => Leader
    }

    /** What cancelTimeoutOrTask() cancels: the election timeout, or a Leader's task. */
    function TimerToCancel(): (handle: TimerHandle)
      ensures this.LeaderState? ==> handle == this.logReplicationTask
      ensures !this.LeaderState? ==> handle == this.electionTimeout
    {
      match this
      case FollowerState(_, _, _, timeout) => timeout
      case CandidateState(_, _, timeout) => timeout
      case LeaderState(_, task) => task
    }
  }

  /** An immutable read of a state, for change notification only. */
  datatype Snapshot = Snapshot(role: Role, term: int, leaderId: Option<ServerId>, votedFor: Option<ServerId>)

  /**
   * takeSnapshot(). A Follower reports its leader and vote; the Candidate
   * and Leader snapshots report neither.
   */
  function TakeSnapshot(s: ServerState): (snap: Snapshot)
    ensures snap.role == s.GetRole() && snap.term == s.term
    ensures snap.role == Follower ==> snap.leaderId == s.leaderId && snap.votedFor == s.votedFor
  {
    match s
    case FollowerState(term, votedFor, leaderId, _) => Snapshot(Follower, term, leaderId, votedFor)
    case CandidateState(term, _, _) => Snapshot(Candidate, term, None, None)
    case LeaderState(term, _) => Snapshot(Leader, term, None, None)
  }

  /** One call a handler makes on its context, in the order it makes them. */
  datatype Effect =
    | CancelTimer(handle: TimerHandle)
    | ScheduleElectionTimeout(handle: TimerHandle)
    | ScheduleLogReplicationTask(handle: TimerHandle)
    | Install(state: ServerState)
    | SendRpc(rpc: Message)
    | SendResult(reply: Reply, target: ServerId)

  /** The states a list of calls installs, in order. */
  function Installed(es: seq<Effect>): seq<ServerState> {
    if es == [] then []
    else (if es[0].Install? then [es[0].state] else []) + Installed(es[1..])
  }

  /** The RPCs a list of calls broadcasts, in order. */
  function Broadcasts(es: seq<Effect>): seq<Message> {
    if es == [] then []
    else (if es[0].SendRpc? then [es[0].rpc] else []) + Broadcasts(es[1..])
  }

  /** The replies a list of calls sends, each with its addressee, in order. */
  function Replies(es: seq<Effect>): seq<(Reply, ServerId)> {
    if es == [] then []
    else (if es[0].SendResult? then [(es[0].reply, es[0].target)] else []) + Replies(es[1..])
  }

  /** The timer calls of a list of calls (cancels and schedules), in order. */
  function Timers(es: seq<Effect>): seq<Effect> {
    if es == [] then []
    else (if es[0].CancelTimer? || es[0].ScheduleElectionTimeout? || es[0].ScheduleLogReplicationTask? then [es[0]] else []) + Timers(es[1..])
  }

  lemma {:induction false} InstalledAppend(a: seq<Effect>, b: seq<Effect>)
    ensures Installed(a + b) == Installed(a) + Installed(b)
  {
    if a == [] {
      assert a + b == b;
    } else {
      var head := if a[0].Install? then [a[0].state] else [];
      assert (a + b)[0] == a[0];
      assert (a + b)[1..] == a[1..] + b;
      assert Installed(a + b) == head + Installed(a[1..] + b);
      InstalledAppend(a[1..], b);
      assert head + (Installed(a[1..]) + Installed(b)) == (head + Installed(a[1..])) + Installed(b);
    }
  }

  lemma {:induction false} TimersAppend(a: seq<Effect>, b: seq<Effect>)
    ensures Timers(a + b) == Timers(a) + Timers(b)
  {
    if a == [] {
      assert a + b == b;
    } else {
      var head := if a[0].CancelTimer? || a[0].ScheduleElectionTimeout? || a[0].ScheduleLogReplicationTask? then [a[0]] else [];
      assert (a + b)[0] == a[0];
      assert (a + b)[1..] == a[1..] + b;
      assert Timers(a + b) == head + Timers(a[1..] + b);
      TimersAppend(a[1..], b);
      assert head + (Timers(a[1..]) + Timers(b)) == (head + Timers(a[1..])) + Timers(b);
    }
  }

  lemma {:induction false} BroadcastsAppend(a: seq<Effect>, b: seq<Effect>)
    ensures Broadcasts(a + b) == Broadcasts(a) + Broadcasts(b)
  {
    if a == [] {
      assert a + b == b;
    } else {
      var head := if a[0].SendRpc? then [a[0].rpc] else [];
      assert (a + b)[0] == a[0];
      assert (a + b)[1..] == a[1..] + b;
      assert Broadcasts(a + b) == head + Broadcasts(a[1..] + b);
      BroadcastsAppend(a[1..], b);
      assert head + (Broadcasts(a[1..]) + Broadcasts(b)) == (head + Broadcasts(a[1..])) + Broadcasts(b);
    }
  }

  lemma {:induction false} RepliesAppend(a: seq<Effect>, b: seq<Effect>)
    ensures Replies(a + b) == Replies(a) + Replies(b)
  {
    if a == [] {
      assert a + b == b;
    } else {
      var head := if a[0].SendResult? then [(a[0].reply, a[0].target)] else [];
      assert (a + b)[0] == a[0];
      assert (a + b)[1..] == a[1..] + b;
      assert Replies(a + b) == head + Replies(a[1..] + b);
      RepliesAppend(a[1..], b);
      assert head + (Replies(a[1..]) + Replies(b)) == (head + Replies(a[1..])) + Replies(b);
    }
  }

  /**
   * Terms that never go down: each installed state's term is at least the
   * previous one's, and the first is at least base.
   */
  predicate NonDecreasing(base: int, ss: seq<ServerState>) {
    forall i | 0 <= i < |ss| :: base <= ss[i].term && (i > 0 ==> ss[i - 1].term <= ss[i].term)
  }

  /** The term in force after installing ss, starting from base. */
  function LastTerm(base: int, ss: seq<ServerState>): int {
    if ss == [] then base else ss[|ss| - 1].term
  }

  lemma NonDecreasingAppend(base: int, a: seq<ServerState>, b: seq<ServerState>)
    requires NonDecreasing(base, a) && NonDecreasing(LastTerm(base, a), b)
    ensures NonDecreasing(base, a + b)
    ensures LastTerm(base, a) <= LastTerm(base, a + b)
  {
    var ab := a + b;
    var mid := LastTerm(base, a);
    assert base <= mid by {
      if a != [] { assert base <= a[|a| - 1].term; }
    }
    forall i | 0 <= i < |ab| ensures base <= ab[i].term && (i > 0 ==> ab[i - 1].term <= ab[i].term) {
      if i < |a| {
        assert ab[i] == a[i];
        if i > 0 { assert ab[i - 1] == a[i - 1]; }
      } else {
        assert ab[i] == b[i - |a|];
        assert mid <= b[i - |a|].term;
        if i > |a| {
          assert ab[i - 1] == b[i - 1 - |a|];
        } else if i > 0 {
          assert ab[i - 1] == a[|a| - 1];
        }
      }
    }
    if b != [] {
      assert ab[|ab| - 1] == b[|b| - 1];
      assert mid <= b[|b| - 1].term;
    } else {
      assert ab == a;
    }
  }

  /**
   * The term a timed-out node stands for. This is the arithmetic the
   * election rules intend; the source computes it on a Java int, see
   * NextTermAsWritten.
   */
  function NextTerm(term: int): int
  {
    term + 1
  }

  /** this.term + 1 on a Java int, as AbstractServerState.java writes it. */
  function NextTermAsWritten(term: int): (r: int)
    requires JavaLang.IsInt(term)
    ensures JavaLang.IsInt(r)
  {
    JavaLang.NarrowToInt(term + 1)
  }

  /** Below the largest int the two agree. */
  lemma NextTermAsWrittenAgrees(term: int)
    requires JavaLang.IsInt(term) && term < JavaLang.IntMax
    ensures NextTermAsWritten(term) == NextTerm(term)
  {
  }

  /** At the largest int the written code wraps around, and the term goes down. */
  lemma NextTermAsWrittenWrapsAtMax()
    ensures NextTermAsWritten(JavaLang.IntMax) == JavaLang.IntMin
    ensures NextTermAsWritten(JavaLang.IntMax) < JavaLang.IntMax
  {
  }

  /**
   * onElectionTimeout. A Leader ignores it. Anyone else cancels its timer,
   * installs a Candidate one term later holding a freshly scheduled
   * timeout, then asks every peer for a vote in that term.
   */
  function OnElectionTimeout(s: ServerState, selfId: ServerId, timeout: TimerHandle): (effects: seq<Effect>)
  {
    if s.LeaderState? then []
    else
      var newTerm := NextTerm(s.term);
      [ CancelTimer(s.TimerToCancel()),
        ScheduleElectionTimeout(timeout),
        Install(CandidateState(newTerm, 1, timeout)),
        SendRpc(RequestVote(RequestVoteRpc(newTerm, selfId))) ]
  }

  /** What a role's same-term hook hands back: the calls it made, then its answer. */
  datatype Outcome<R> = Outcome(effects: seq<Effect>, result: R)

  /**
   * The role-specific parts the shared handlers delegate to
   * (processRequestVoteRpc, processAppendEntriesRpc,
   * onReceiveRequestVoteResult). Each gets the current state, the message
   * and the handle a scheduleElectionTimeout or scheduleLogReplicationTask
   * call would return.
   */
  datatype RoleHooks = RoleHooks(
    processRequestVoteRpc: (ServerState, RequestVoteRpc, TimerHandle) -> Outcome<RequestVoteResult>,
    processAppendEntriesRpc: (ServerState, AppendEntriesRpc, TimerHandle) -> Outcome<AppendEntriesResult>,
    onReceiveRequestVoteResult: (ServerState, RequestVoteResult, TimerHandle) -> seq<Effect>)

  /** Hooks that, like the shared handlers, never install a lower term. */
  ghost predicate KeepsTerm(hooks: RoleHooks) {
    (forall s: ServerState, rpc: RequestVoteRpc, h: TimerHandle :: NonDecreasing(s.term, Installed(hooks.processRequestVoteRpc(s, rpc, h).effects)))
    && (forall s: ServerState, rpc: AppendEntriesRpc, h: TimerHandle :: NonDecreasing(s.term, Installed(hooks.processAppendEntriesRpc(s, rpc, h).effects)))
    && (forall s: ServerState, result: RequestVoteResult, h: TimerHandle :: NonDecreasing(s.term, Installed(hooks.onReceiveRequestVoteResult(s, result, h))))
  }

  /**
   * onReceiveRequestVoteRpc: reject a lower term with the node's own term,
   * let the role decide in its own term, and step down to a Follower that
   * has voted for the candidate in a higher term. The answer always goes
   * back to the candidate.
   */
  function OnReceiveRequestVoteRpc(hooks: RoleHooks, s: ServerState, rpc: RequestVoteRpc, timeout: TimerHandle): (effects: seq<Effect>)
  {
    var result :=
      if rpc.term < s.term then
        Outcome([], RequestVoteResult(s.term, false))
      else if rpc.term == s.term then
        hooks.processRequestVoteRpc(s, rpc, timeout)
      else
        Outcome([ CancelTimer(s.TimerToCancel()),
                  ScheduleElectionTimeout(timeout),
                  Install(FollowerState(rpc.term, Some(rpc.candidateId), None, timeout)) ],
                RequestVoteResult(rpc.term, true));
    result.effects + [SendResult(VoteReply(result.result), rpc.candidateId)]
  }

  /**
   * onReceiveAppendEntriesRpc: the same three-way split on the term; a
   * higher term makes the node a Follower of the sender with no vote. The
   * answer always goes back to the leader.
   */
  function OnReceiveAppendEntriesRpc(hooks: RoleHooks, s: ServerState, rpc: AppendEntriesRpc, timeout: TimerHandle): (effects: seq<Effect>)
  {
    var result :=
      if rpc.term < s.term then
        Outcome([], AppendEntriesResult(s.term, false))
      else if rpc.term == s.term then
        hooks.processAppendEntriesRpc(s, rpc, timeout)
      else
        Outcome([ CancelTimer(s.TimerToCancel()),
                  ScheduleElectionTimeout(timeout),
                  Install(FollowerState(rpc.term, None, Some(rpc.leaderId), timeout)) ],
                AppendEntriesResult(rpc.term, true));
    result.effects + [SendResult(EntriesReply(result.result), rpc.leaderId)]
  }

  // ---------------------------------------------------------------------
  // What the shared handlers promise

  /** A Leader's election timeout makes no call at all, and only a Leader's. */
  lemma ElectionTimeoutIgnoredOnlyByLeader(s: ServerState, selfId: ServerId, timeout: TimerHandle)
    ensures OnElectionTimeout(s, selfId, timeout) == [] <==> s.GetRole() == Leader
  {
  }

  /**
   * A Follower's or Candidate's election timeout cancels its own timer
   * before anything else and once, schedules the fresh timeout, installs exactly one state (a Candidate at
   * exactly the next term), then broadcasts one RequestVote for that term
   * naming itself, and replies to nobody.
   */
  lemma ElectionTimeoutStartsElection(s: ServerState, selfId: ServerId, timeout: TimerHandle)
    requires s.GetRole() != Leader
    ensures var es := OnElectionTimeout(s, selfId, timeout);
      && es[0] == CancelTimer(s.TimerToCancel())
      && Timers(es) == [CancelTimer(s.TimerToCancel()), ScheduleElectionTimeout(timeout)]
      && Installed(es) == [CandidateState(s.term + 1, 1, timeout)]
      && Broadcasts(es) == [RequestVote(RequestVoteRpc(s.term + 1, selfId))]
      && es[|es| - 1].SendRpc?
      && Replies(es) == []
  {
    var es := OnElectionTimeout(s, selfId, timeout);
    assert es == [es[0]] + [es[1]] + [es[2]] + [es[3]];
    InstalledAppend([es[0]] + [es[1]] + [es[2]], [es[3]]);
    InstalledAppend([es[0]] + [es[1]], [es[2]]);
    InstalledAppend([es[0]], [es[1]]);
    BroadcastsAppend([es[0]] + [es[1]] + [es[2]], [es[3]]);
    BroadcastsAppend([es[0]] + [es[1]], [es[2]]);
    BroadcastsAppend([es[0]], [es[1]]);
    RepliesAppend([es[0]] + [es[1]] + [es[2]], [es[3]]);
    RepliesAppend([es[0]] + [es[1]], [es[2]]);
    RepliesAppend([es[0]], [es[1]]);
    TimersAppend([es[0]] + [es[1]] + [es[2]], [es[3]]);
    TimersAppend([es[0]] + [es[1]], [es[2]]);
    TimersAppend([es[0]], [es[1]]);
  }

  /** The calls of a higher-term step-down, before the reply: cancel, schedule, install. */
  lemma StepDownCalls(s: ServerState, follower: ServerState, timeout: TimerHandle)
    ensures var es := [CancelTimer(s.TimerToCancel()), ScheduleElectionTimeout(timeout), Install(follower)];
      && Timers(es) == [CancelTimer(s.TimerToCancel()), ScheduleElectionTimeout(timeout)]
      && Installed(es) == [follower] && Broadcasts(es) == [] && Replies(es) == []
  {
    var es := [CancelTimer(s.TimerToCancel()), ScheduleElectionTimeout(timeout), Install(follower)];
    assert es == [es[0]] + [es[1]] + [es[2]];
    InstalledAppend([es[0]] + [es[1]], [es[2]]);
    InstalledAppend([es[0]], [es[1]]);
    BroadcastsAppend([es[0]] + [es[1]], [es[2]]);
    BroadcastsAppend([es[0]], [es[1]]);
    RepliesAppend([es[0]] + [es[1]], [es[2]]);
    RepliesAppend([es[0]], [es[1]]);
    TimersAppend([es[0]] + [es[1]], [es[2]]);
    TimersAppend([es[0]], [es[1]]);
  }

  /** A RequestVote from an older term is refused with the node's own term, and nothing else happens. */
  lemma RequestVoteLowerTermRefused(hooks: RoleHooks, s: ServerState, rpc: RequestVoteRpc, timeout: TimerHandle)
    requires rpc.term < s.term
    ensures OnReceiveRequestVoteRpc(hooks, s, rpc, timeout)
         == [SendResult(VoteReply(RequestVoteResult(s.term, false)), rpc.candidateId)]
  {
  }

  /** A RequestVote in the node's own term gets exactly what the role's hook does and answers. */
  lemma RequestVoteSameTermDelegated(hooks: RoleHooks, s: ServerState, rpc: RequestVoteRpc, timeout: TimerHandle)
    requires rpc.term == s.term
    ensures var hook := hooks.processRequestVoteRpc(s, rpc, timeout);
      OnReceiveRequestVoteRpc(hooks, s, rpc, timeout) == hook.effects + [SendResult(VoteReply(hook.result), rpc.candidateId)]
  {
  }

  /**
   * A RequestVote from a higher term wins whatever the role: the node
   * cancels its timer first and once, schedules the fresh election timeout,
   * becomes a Follower of that term that has voted
   * for the candidate and knows no leader, and grants the vote.
   */
  lemma RequestVoteHigherTermWins(hooks: RoleHooks, s: ServerState, rpc: RequestVoteRpc, timeout: TimerHandle)
    requires rpc.term > s.term
    ensures var es := OnReceiveRequestVoteRpc(hooks, s, rpc, timeout);
      && es[0] == CancelTimer(s.TimerToCancel())
      && Timers(es) == [CancelTimer(s.TimerToCancel()), ScheduleElectionTimeout(timeout)]
      && Installed(es) == [FollowerState(rpc.term, Some(rpc.candidateId), None, timeout)]
      && Broadcasts(es) == []
      && Replies(es) == [(VoteReply(RequestVoteResult(rpc.term, true)), rpc.candidateId)]
  {
    var follower := FollowerState(rpc.term, Some(rpc.candidateId), None, timeout);
    var calls := [CancelTimer(s.TimerToCancel()), ScheduleElectionTimeout(timeout), Install(follower)];
    var reply := SendResult(VoteReply(RequestVoteResult(rpc.term, true)), rpc.candidateId);
    StepDownCalls(s, follower, timeout);
    InstalledAppend(calls, [reply]);
    BroadcastsAppend(calls, [reply]);
    RepliesAppend(calls, [reply]);
    TimersAppend(calls, [reply]);
  }

  /**
   * Every RequestVote is answered last, to the candidate; when the role's
   * hook sends no reply of its own, that answer is the only one.
   */
  lemma RequestVoteAnsweredToCandidate(hooks: RoleHooks, s: ServerState, rpc: RequestVoteRpc, timeout: TimerHandle)
    ensures var es := OnReceiveRequestVoteRpc(hooks, s, rpc, timeout);
      |es| > 0 && es[|es| - 1].SendResult? && es[|es| - 1].target == rpc.candidateId
    ensures rpc.term != s.term || Replies(hooks.processRequestVoteRpc(s, rpc, timeout).effects) == [] ==>
      var rs := Replies(OnReceiveRequestVoteRpc(hooks, s, rpc, timeout));
      |rs| == 1 && rs[0].1 == rpc.candidateId
  {
    var es := OnReceiveRequestVoteRpc(hooks, s, rpc, timeout);
    var last := es[|es| - 1];
    assert es == es[..|es| - 1] + [last];
    RepliesAppend(es[..|es| - 1], [last]);
    if rpc.term > s.term {
      StepDownCalls(s, FollowerState(rpc.term, Some(rpc.candidateId), None, timeout), timeout);
    }
  }

  /** An AppendEntries from an older term is refused with the node's own term, and nothing else happens. */
  lemma AppendEntriesLowerTermRefused(hooks: RoleHooks, s: ServerState, rpc: AppendEntriesRpc, timeout: TimerHandle)
    requires rpc.term < s.term
    ensures OnReceiveAppendEntriesRpc(hooks, s, rpc, timeout)
         == [SendResult(EntriesReply(AppendEntriesResult(s.term, false)), rpc.leaderId)]
  {
  }

  /** An AppendEntries in the node's own term gets exactly what the role's hook does and answers. */
  lemma AppendEntriesSameTermDelegated(hooks: RoleHooks, s: ServerState, rpc: AppendEntriesRpc, timeout: TimerHandle)
    requires rpc.term == s.term
    ensures var hook := hooks.processAppendEntriesRpc(s, rpc, timeout);
      OnReceiveAppendEntriesRpc(hooks, s, rpc, timeout) == hook.effects + [SendResult(EntriesReply(hook.result), rpc.leaderId)]
  {
  }

  /**
   * An AppendEntries from a higher term wins whatever the role: the node
   * cancels its timer first and once, schedules the fresh election timeout,
   * becomes a Follower of that term and of that
   * leader with no vote, and reports success.
   */
  lemma AppendEntriesHigherTermWins(hooks: RoleHooks, s: ServerState, rpc: AppendEntriesRpc, timeout: TimerHandle)
    requires rpc.term > s.term
    ensures var es := OnReceiveAppendEntriesRpc(hooks, s, rpc, timeout);
      && es[0] == CancelTimer(s.TimerToCancel())
      && Timers(es) == [CancelTimer(s.TimerToCancel()), ScheduleElectionTimeout(timeout)]
      && Installed(es) == [FollowerState(rpc.term, None, Some(rpc.leaderId), timeout)]
      && Broadcasts(es) == []
      && Replies(es) == [(EntriesReply(AppendEntriesResult(rpc.term, true)), rpc.leaderId)]
  {
    var follower := FollowerState(rpc.term, None, Some(rpc.leaderId), timeout);
    var calls := [CancelTimer(s.TimerToCancel()), ScheduleElectionTimeout(timeout), Install(follower)];
    var reply := SendResult(EntriesReply(AppendEntriesResult(rpc.term, true)), rpc.leaderId);
    StepDownCalls(s, follower, timeout);
    InstalledAppend(calls, [reply]);
    BroadcastsAppend(calls, [reply]);
    RepliesAppend(calls, [reply]);
    TimersAppend(calls, [reply]);
  }

  /**
   * Every AppendEntries is answered last, to the leader; when the role's
   * hook sends no reply of its own, that answer is the only one.
   */
  lemma AppendEntriesAnsweredToLeader(hooks: RoleHooks, s: ServerState, rpc: AppendEntriesRpc, timeout: TimerHandle)
    ensures var es := OnReceiveAppendEntriesRpc(hooks, s, rpc, timeout);
      |es| > 0 && es[|es| - 1].SendResult? && es[|es| - 1].target == rpc.leaderId
    ensures rpc.term != s.term || Replies(hooks.processAppendEntriesRpc(s, rpc, timeout).effects) == [] ==>
      var rs := Replies(OnReceiveAppendEntriesRpc(hooks, s, rpc, timeout));
      |rs| == 1 && rs[0].1 == rpc.leaderId
  {
    var es := OnReceiveAppendEntriesRpc(hooks, s, rpc, timeout);
    var last := es[|es| - 1];
    assert es == es[..|es| - 1] + [last];
    RepliesAppend(es[..|es| - 1], [last]);
    if rpc.term > s.term {
      StepDownCalls(s, FollowerState(rpc.term, None, Some(rpc.leaderId), timeout), timeout);
    }
  }

  /**
   * The shared handlers never take the term back: outside the role's own
   * same-term decision every state they install has a strictly higher term,
   * and with hooks that keep the term the whole handler keeps it.
   */
  lemma HandlersRaiseTerm(hooks: RoleHooks, s: ServerState, selfId: ServerId,
                          vote: RequestVoteRpc, entries: AppendEntriesRpc, timeout: TimerHandle)
    ensures forall st <- Installed(OnElectionTimeout(s, selfId, timeout)) :: st.term > s.term
    ensures vote.term != s.term ==>
      forall st <- Installed(OnReceiveRequestVoteRpc(hooks, s, vote, timeout)) :: st.term > s.term
    ensures entries.term != s.term ==>
      forall st <- Installed(OnReceiveAppendEntriesRpc(hooks, s, entries, timeout)) :: st.term > s.term
    ensures KeepsTerm(hooks) ==>
      && NonDecreasing(s.term, Installed(OnReceiveRequestVoteRpc(hooks, s, vote, timeout)))
      && NonDecreasing(s.term, Installed(OnReceiveAppendEntriesRpc(hooks, s, entries, timeout)))
  {
    if s.GetRole() != Leader {
      ElectionTimeoutStartsElection(s, selfId, timeout);
    }
    RequestVoteKeepsTerm(hooks, s, vote, timeout);
    AppendEntriesKeepsTerm(hooks, s, entries, timeout);
  }

  lemma RequestVoteKeepsTerm(hooks: RoleHooks, s: ServerState, rpc: RequestVoteRpc, timeout: TimerHandle)
    ensures rpc.term != s.term ==>
      forall st <- Installed(OnReceiveRequestVoteRpc(hooks, s, rpc, timeout)) :: st.term > s.term
    ensures KeepsTerm(hooks) ==> NonDecreasing(s.term, Installed(OnReceiveRequestVoteRpc(hooks, s, rpc, timeout)))
  {
    var es := OnReceiveRequestVoteRpc(hooks, s, rpc, timeout);
    var last := es[|es| - 1];
    assert es == es[..|es| - 1] + [last];
    InstalledAppend(es[..|es| - 1], [last]);
    if rpc.term > s.term {
      StepDownCalls(s, FollowerState(rpc.term, Some(rpc.candidateId), None, timeout), timeout);
    }
  }

  lemma AppendEntriesKeepsTerm(hooks: RoleHooks, s: ServerState, rpc: AppendEntriesRpc, timeout: TimerHandle)
    ensures rpc.term != s.term ==>
      forall st <- Installed(OnReceiveAppendEntriesRpc(hooks, s, rpc, timeout)) :: st.term > s.term
    ensures KeepsTerm(hooks) ==> NonDecreasing(s.term, Installed(OnReceiveAppendEntriesRpc(hooks, s, rpc, timeout)))
  {
    var es := OnReceiveAppendEntriesRpc(hooks, s, rpc, timeout);
    var last := es[|es| - 1];
    assert es == es[..|es| - 1] + [last];
    InstalledAppend(es[..|es| - 1], [last]);
    if rpc.term > s.term {
      StepDownCalls(s, FollowerState(rpc.term, None, Some(rpc.leaderId), timeout), timeout);
    }
  }
}
