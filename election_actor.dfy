/**
 * The election actor (ElectionActor), one per node: the context the role
 * states act through. It owns the single mutable reference to the current
 * state, swaps it when a handler installs a new one, and remembers the last
 * snapshot it announced so that a Follower re-installed with the same term,
 * leader and vote is not announced again.
 *
 * Events are handled one at a time, each through the state that is current
 * when it arrives. Calls into the scheduler and the router are recorded, in
 * order, in a trace.
 */
module Actor {
  import opened Wrappers
  import opened Rpc
  import opened ServerStates

  /**
   * isStable: a transition that is not worth announcing, a Follower
   * replaced by a Follower with the same term, leader and vote. Ids are
   * compared by value.
   */
  predicate IsStable(before: Snapshot, after: Snapshot)
    ensures IsStable(before, after) <==> before.role == Follower && after == before
  {
    && before.role == Follower
    && after.role == before.role
    && after.term == before.term
    && after.leaderId == before.leaderId
    && after.votedFor == before.votedFor
  }

  /** Whether serverStateChanged announces the snapshot, given the one last recorded. */
  predicate Announces(last: Option<Snapshot>, snapshot: Snapshot)
    ensures Announces(last, snapshot) <==> last.None? || last.value.role != Follower || snapshot != last.value
    ensures snapshot.role != Follower ==> Announces(last, snapshot)
  {
    last.None? || !IsStable(last.value, snapshot)
  }

  /** The actor's state: the two fields of ElectionActor, and what it has sent out. */
  datatype ActorView = ActorView(
    serverState: Option<ServerState>,
    lastServerState: Option<Snapshot>,
    trace: seq<Effect>,
    announced: seq<Snapshot>)

  /** A freshly created actor: no state yet, nothing recorded. */
  const Initial := ActorView(None, None, [], [])

  /** The recorded snapshot is the current state's. */
  ghost predicate Consistent(a: ActorView) {
    a.serverState.Some? ==> a.lastServerState == Some(TakeSnapshot(a.serverState.value))
  }

  /**
   * What serverStateChanged does: record and announce the snapshot unless nothing
   * was recorded yet or the transition is stable. A stable transition
   * brings a snapshot equal to the recorded one, so the record always ends
   * up equal to the new snapshot; only the announcement is suppressed.
   */
  function RecordSnapshot(a: ActorView, snapshot: Snapshot): (b: ActorView)
    ensures b.lastServerState == Some(snapshot)
    ensures b.announced == a.announced + (if Announces(a.lastServerState, snapshot) then [snapshot] else [])
    ensures a.lastServerState.None? ==> b.announced == a.announced + [snapshot]
    ensures !Announces(a.lastServerState, snapshot) ==> b == a
    ensures b.serverState == a.serverState && b.trace == a.trace
  {
    if a.lastServerState.None? || !IsStable(a.lastServerState.value, snapshot) then
      a.(lastServerState := Some(snapshot), announced := a.announced + [snapshot])
    else a
  }

  /** startUp: a Follower from the stored term and vote, with a fresh election timeout. */
  function AfterStartUp(a: ActorView, storedTerm: int, storedVotedFor: Option<ServerId>, timeout: TimerHandle): (b: ActorView)
    ensures b.serverState == Some(FollowerState(storedTerm, storedVotedFor, None, timeout))
    ensures b.trace == a.trace + [ScheduleElectionTimeout(timeout)]
    ensures b.lastServerState == Some(Snapshot(Follower, storedTerm, None, storedVotedFor))
    ensures a.lastServerState.None? ==> b.announced == a.announced + [Snapshot(Follower, storedTerm, None, storedVotedFor)]
    ensures Consistent(b)
  {
    var follower := FollowerState(storedTerm, storedVotedFor, None, timeout);
    RecordSnapshot(a.(serverState := Some(follower), trace := a.trace + [ScheduleElectionTimeout(timeout)]),
                       TakeSnapshot(follower))
  }

  /**
   * Performing one context call: setServerState swaps the state and
   * reports its snapshot; the others go to the scheduler or the router.
   */
  function Apply(a: ActorView, e: Effect): (b: ActorView)
    ensures b.trace == a.trace + [e]
    ensures e.Install? ==> b.serverState == Some(e.state) && b.lastServerState == Some(TakeSnapshot(e.state))
    ensures e.Install? ==> Consistent(b)
    ensures !e.Install? ==> b == a.(trace := a.trace + [e])
  {
    match e
    case Install(s) => RecordSnapshot(a.(serverState := Some(s), trace := a.trace + [e]), TakeSnapshot(s))
    case _ => a.(trace := a.trace + [e])
  }

  /**
   * Performing a list of context calls in order. The trace grows by exactly
   * those calls, the current state is the last one installed, and the
   * recorded snapshot stays the current state's.
   */
  function ApplyAll(a: ActorView, es: seq<Effect>): (b: ActorView)
    decreases |es|
    ensures b.trace == a.trace + es
    ensures b.serverState == if Installed(es) == [] then a.serverState else Some(Installed(es)[|Installed(es)| - 1])
    ensures Consistent(a) ==> Consistent(b)
  {
    if es == [] then a
    else
      var init, e := es[..|es| - 1], es[|es| - 1];
      assert es == init + [e];
      InstalledAppend(init, [e]);
      Apply(ApplyAll(a, init), e)
  }

  /** One event as the actor receives it. */
  datatype Event =
    | ElectionTimeoutFired(timeout: TimerHandle)
    | RequestVoteRpcReceived(voteRpc: RequestVoteRpc, timeout: TimerHandle)
    | RequestVoteResultReceived(result: RequestVoteResult, timeout: TimerHandle)
    | AppendEntriesRpcReceived(entriesRpc: AppendEntriesRpc, timeout: TimerHandle)
    | LogReplicationTick

  /**
   * The calls made for an event by the current state s: timeouts and RPCs go
   * to s's handlers, vote results to its role; the log-replication tick
   * broadcasts a heartbeat for s's term from this node.
   */
  function Dispatch(hooks: RoleHooks, selfId: ServerId, s: ServerState, ev: Event): seq<Effect> {
    match ev
    case ElectionTimeoutFired(timeout) => OnElectionTimeout(s, selfId, timeout)
    case RequestVoteRpcReceived(rpc, timeout) => OnReceiveRequestVoteRpc(hooks, s, rpc, timeout)
    case RequestVoteResultReceived(result, timeout) => hooks.onReceiveRequestVoteResult(s, result, timeout)
    case AppendEntriesRpcReceived(rpc, timeout) => OnReceiveAppendEntriesRpc(hooks, s, rpc, timeout)
    case LogReplicationTick => [SendRpc(AppendEntries(AppendEntriesRpc(s.term, selfId)))]
  }

  /** The actor after one event, handled by the state current at that moment. */
  function AfterEvent(hooks: RoleHooks, selfId: ServerId, a: ActorView, ev: Event): ActorView
    requires a.serverState.Some?
  {
    ApplyAll(a, Dispatch(hooks, selfId, a.serverState.value, ev))
  }

  /** The actor after a sequence of events, one at a time. */
  function AfterEvents(hooks: RoleHooks, selfId: ServerId, a: ActorView, evs: seq<Event>): (b: ActorView)
    requires a.serverState.Some?
    ensures b.serverState.Some?
    decreases |evs|
  {
    if evs == [] then a
    else AfterEvent(hooks, selfId, AfterEvents(hooks, selfId, a, evs[..|evs| - 1]), evs[|evs| - 1])
  }

  /** Each event's calls install states whose terms never go below the current one. */
  lemma DispatchKeepsTerm(hooks: RoleHooks, selfId: ServerId, s: ServerState, ev: Event)
    requires KeepsTerm(hooks)
    ensures NonDecreasing(s.term, Installed(Dispatch(hooks, selfId, s, ev)))
  {
    match ev
    case ElectionTimeoutFired(timeout) =>
      if s.GetRole() != Leader {
        ElectionTimeoutStartsElection(s, selfId, timeout);
      }
    case RequestVoteRpcReceived(rpc, timeout) =>
      RequestVoteKeepsTerm(hooks, s, rpc, timeout);
    case RequestVoteResultReceived(result, timeout) =>
    case AppendEntriesRpcReceived(rpc, timeout) =>
      AppendEntriesKeepsTerm(hooks, s, rpc, timeout);
    case LogReplicationTick =>
      var es := Dispatch(hooks, selfId, s, ev);
      assert es[1..] == [];
  }

  /**
   * Between a and b the actor's trace only grew, the states installed
   * meanwhile have terms that never go down from a's term, and b's term is
   * the last of them.
   */
  ghost predicate TermHistory(a: ActorView, b: ActorView)
    requires a.serverState.Some?
  {
    && b.serverState.Some?
    && a.trace <= b.trace
    && NonDecreasing(a.serverState.value.term, Installed(b.trace[|a.trace|..]))
    && b.serverState.value.term == LastTerm(a.serverState.value.term, Installed(b.trace[|a.trace|..]))
  }

  /**
   * Term never decreases: over any sequence of events, with role hooks that
   * keep the term, the states installed carry terms that never go down from
   * the starting term, and the final term is the last one installed.
   */
  lemma {:induction false} TermNeverDecreases(hooks: RoleHooks, selfId: ServerId, a: ActorView, evs: seq<Event>)
    requires a.serverState.Some?
    requires KeepsTerm(hooks)
    ensures TermHistory(a, AfterEvents(hooks, selfId, a, evs))
    ensures AfterEvents(hooks, selfId, a, evs).serverState.value.term >= a.serverState.value.term
  {
    if evs == [] {
      assert a.trace[|a.trace|..] == [];
    } else {
      var before := AfterEvents(hooks, selfId, a, evs[..|evs| - 1]);
      TermNeverDecreases(hooks, selfId, a, evs[..|evs| - 1]);
      TermHistoryStep(hooks, selfId, a, before, evs[|evs| - 1]);
    }
  }

  /** One more event extends the history. */
  lemma TermHistoryStep(hooks: RoleHooks, selfId: ServerId, a: ActorView, before: ActorView, ev: Event)
    requires a.serverState.Some? && KeepsTerm(hooks)
    requires TermHistory(a, before)
    ensures TermHistory(a, AfterEvent(hooks, selfId, before, ev))
  {
    var t0 := a.serverState.value.term;
    var s := before.serverState.value;
    var es := Dispatch(hooks, selfId, s, ev);
    var b := ApplyAll(before, es);
    var past := before.trace[|a.trace|..];
    SuffixAppend(a.trace, before.trace, es);
    InstalledAppend(past, es);
    DispatchKeepsTerm(hooks, selfId, s, ev);
    ExtendNonDecreasing(t0, Installed(past), Installed(es));
  }

  /**
   * Each event goes to the state current when it arrives, never to one
   * captured earlier: after a higher-term AppendEntries the next election
   * timeout is handled by the new Follower, which cancels its own fresh
   * timer and stands for the term after the leader's. Over both events the
   * timer calls are: cancel the old timer, schedule t1, cancel t1, schedule t2.
   */
  lemma NextEventSeesInstalledState(hooks: RoleHooks, selfId: ServerId, a: ActorView,
                                    rpc: AppendEntriesRpc, t1: TimerHandle, t2: TimerHandle)
    requires a.serverState.Some? && rpc.term > a.serverState.value.term
    ensures var b := AfterEvents(hooks, selfId, a, [AppendEntriesRpcReceived(rpc, t1), ElectionTimeoutFired(t2)]);
      && b.serverState == Some(CandidateState(rpc.term + 1, 1, t2))
      && |b.trace| == |a.trace| + 8
      && b.trace[|a.trace| + 4] == CancelTimer(t1)
      && Timers(b.trace[|a.trace|..]) == [CancelTimer(a.serverState.value.TimerToCancel()), ScheduleElectionTimeout(t1),
                                          CancelTimer(t1), ScheduleElectionTimeout(t2)]
  {
    var evs := [AppendEntriesRpcReceived(rpc, t1), ElectionTimeoutFired(t2)];
    var s := a.serverState.value;
    var follower := FollowerState(rpc.term, None, Some(rpc.leaderId), t1);
    assert evs[..1][..0] == [];
    var es1 := Dispatch(hooks, selfId, s, evs[0]);
    AppendEntriesHigherTermWins(hooks, s, rpc, t1);
    var b1 := AfterEvents(hooks, selfId, a, evs[..1]);
    assert AfterEvents(hooks, selfId, a, evs[..1][..0]) == a;
    assert evs[..1][0] == evs[0];
    assert b1 == ApplyAll(a, es1);
    assert b1.serverState == Some(follower);
    var es2 := Dispatch(hooks, selfId, follower, evs[1]);
    ElectionTimeoutStartsElection(follower, selfId, t2);
    assert |es1| == 4;
    var b := ApplyAll(b1, es2);
    assert AfterEvents(hooks, selfId, a, evs) == b;
    TimersTail(a.trace, es1, es2);
  }

  /** The timer calls after a prefix are those of the two lists appended to it. */
  lemma TimersTail(t: seq<Effect>, es1: seq<Effect>, es2: seq<Effect>)
    ensures Timers((t + es1 + es2)[|t|..]) == Timers(es1) + Timers(es2)
  {
    assert (t + es1 + es2)[|t|..] == es1 + es2;
    TimersAppend(es1, es2);
  }

  lemma SuffixAppend<T>(prefix: seq<T>, xs: seq<T>, ys: seq<T>)
    requires prefix <= xs
    ensures prefix <= xs + ys
    ensures (xs + ys)[|prefix|..] == xs[|prefix|..] + ys
  {
  }

  /** Appending terms that start from the last one keeps them non-decreasing. */
  lemma ExtendNonDecreasing(base: int, past: seq<ServerState>, next: seq<ServerState>)
    requires NonDecreasing(base, past) && NonDecreasing(LastTerm(base, past), next)
    ensures NonDecreasing(base, past + next)
    ensures LastTerm(base, past + next) == LastTerm(LastTerm(base, past), next)
    ensures LastTerm(base, past) <= LastTerm(base, past + next)
  {
    NonDecreasingAppend(base, past, next);
    if next != [] {
      assert (past + next)[|past + next| - 1] == next[|next| - 1];
    } else {
      assert past + next == past;
    }
  }

  /** ElectionActor: the context every role state acts through. */
  class ElectionActor {
    const selfId: ServerId
    const hooks: RoleHooks

    /** The current role state; absent until startUp. */
    var serverState: Option<ServerState>
    /** The snapshot last recorded by serverStateChanged. */
    var lastServerState: Option<Snapshot>
    /** Calls made into the scheduler and the router, and installs, in order. */
    var trace: seq<Effect>
    /** The "state changed" announcements, in order. */
    var announced: seq<Snapshot>

    function View(): ActorView
      reads this
    {
      ActorView(serverState, lastServerState, trace, announced)
    }

    ghost predicate Valid()
      reads this
    {
      Consistent(View())
    }

    constructor (selfId: ServerId, hooks: RoleHooks)
      ensures this.selfId == selfId && this.hooks == hooks
      ensures View() == Initial && Valid()
    {
      this.selfId := selfId;
      this.hooks := hooks;
      serverState := None;
      lastServerState := None;
      trace := [];
      announced := [];
    }

    /** serverStateChanged: record and announce unless the transition is stable. */
    method ServerStateChanged(snapshot: Snapshot)
      modifies this`lastServerState, this`announced
      ensures View() == RecordSnapshot(old(View()), snapshot)
      ensures lastServerState == Some(snapshot)
    {
      if lastServerState.None? || !IsStable(lastServerState.value, snapshot) {
        lastServerState := Some(snapshot);
        announced := announced + [snapshot];
      }
    }

    /**
     * startUp: install a Follower built from the stored term and vote with a
     * freshly scheduled election timeout, and report its snapshot (always
     * recorded on a new actor, since nothing was recorded before).
     */
    method StartUp(storedTerm: int, storedVotedFor: Option<ServerId>, timeout: TimerHandle)
      modifies this
      ensures View() == AfterStartUp(old(View()), storedTerm, storedVotedFor, timeout)
      ensures serverState == Some(FollowerState(storedTerm, storedVotedFor, None, timeout))
      ensures old(lastServerState).None? ==> announced == old(announced) + [TakeSnapshot(serverState.value)]
      ensures Valid()
    {
      trace := trace + [ScheduleElectionTimeout(timeout)];
      serverState := Some(FollowerState(storedTerm, storedVotedFor, None, timeout));
      ServerStateChanged(TakeSnapshot(serverState.value));
    }

    /**
     * setServerState: swap in the given state and report its snapshot;
     * nothing else of the actor changes.
     */
    method SetServerState(s: ServerState)
      modifies this
      ensures View() == Apply(old(View()), Install(s))
      ensures serverState == Some(s) && lastServerState == Some(TakeSnapshot(s))
      ensures trace == old(trace) + [Install(s)]
      ensures announced == old(announced) + (if Announces(old(lastServerState), TakeSnapshot(s)) then [TakeSnapshot(s)] else [])
    {
      serverState := Some(s);
      trace := trace + [Install(s)];
      ServerStateChanged(TakeSnapshot(s));
    }

    /** Carry out a handler's context calls in the order it made them. */
    method Perform(es: seq<Effect>)
      modifies this
      ensures View() == ApplyAll(old(View()), es)
      ensures old(Valid()) ==> Valid()
    {
      var i := 0;
      while i < |es|
        invariant 0 <= i <= |es|
        invariant View() == ApplyAll(old(View()), es[..i])
      {
        assert es[..i + 1][..i] == es[..i];
        match es[i] {
          case Install(s) => SetServerState(s);
          case _ => trace := trace + [es[i]];
        }
        i := i + 1;
      }
      assert es[..|es|] == es;
    }

    /** onElectionTimeout: handled by the current state. */
    method OnElectionTimeout(timeout: TimerHandle)
      requires serverState.Some?
      modifies this
      ensures View() == AfterEvent(hooks, selfId, old(View()), ElectionTimeoutFired(timeout))
      ensures old(Valid()) ==> Valid()
    {
      Perform(ServerStates.OnElectionTimeout(serverState.value, selfId, timeout));
    }

    /** onReceiveRequestVoteRpc: handled by the current state. */
    method OnReceiveRequestVoteRpc(rpc: RequestVoteRpc, timeout: TimerHandle)
      requires serverState.Some?
      modifies this
      ensures View() == AfterEvent(hooks, selfId, old(View()), RequestVoteRpcReceived(rpc, timeout))
      ensures old(Valid()) ==> Valid()
    {
      Perform(ServerStates.OnReceiveRequestVoteRpc(hooks, serverState.value, rpc, timeout));
    }

    /** onReceiveRequestVoteResult: handed to the current state's role. */
    method OnReceiveRequestVoteResult(result: RequestVoteResult, timeout: TimerHandle)
      requires serverState.Some?
      modifies this
      ensures View() == AfterEvent(hooks, selfId, old(View()), RequestVoteResultReceived(result, timeout))
      ensures old(Valid()) ==> Valid()
    {
      Perform(hooks.onReceiveRequestVoteResult(serverState.value, result, timeout));
    }

    /** onReceiveAppendEntriesRpc: handled by the current state. */
    method OnReceiveAppendEntriesRpc(rpc: AppendEntriesRpc, timeout: TimerHandle)
      requires serverState.Some?
      modifies this
      ensures View() == AfterEvent(hooks, selfId, old(View()), AppendEntriesRpcReceived(rpc, timeout))
      ensures old(Valid()) ==> Valid()
    {
      Perform(ServerStates.OnReceiveAppendEntriesRpc(hooks, serverState.value, rpc, timeout));
    }

    /**
     * replicateLog: broadcast a heartbeat carrying the current state's term
     * and this node as leader.
     */
    method ReplicateLog()
      requires serverState.Some?
      modifies this`trace
      ensures trace == old(trace) + [SendRpc(AppendEntries(AppendEntriesRpc(serverState.value.term, selfId)))]
      ensures View() == AfterEvent(hooks, selfId, old(View()), LogReplicationTick)
      ensures old(Valid()) ==> Valid()
    {
      var rpc := AppendEntriesRpc(serverState.value.term, selfId);
      ghost var es := [SendRpc(AppendEntries(rpc))];
      assert es[..|es| - 1] == [];
      assert ApplyAll(View(), es) == Apply(View(), es[0]);
      trace := trace + [SendRpc(AppendEntries(rpc))];
    }
  }
}
