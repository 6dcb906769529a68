# xraft leader-election core, modelled in Dafny

xraft is a Raft implementation in Java. This project models three parts of it:

- **The role handlers every role shares** (`AbstractServerState`). These are the term rules of leader election, after sections 5.1 and 5.2 of the Raft paper. A Leader ignores an election timeout. Anyone else stands for the next term as a Candidate and asks every peer for a vote. An incoming RequestVote or AppendEntries is handled by comparing its term with the node's term:
  - a lower term is refused with the node's own term;
  - an equal term is left to the role's own hook;
  - a higher term makes the node step down to a Follower of that term, and the request is granted.

  Each reply goes back to the sender.
- **The election actor** (`ElectionActor`). It is the context the role states act through. It holds the one mutable reference to the current role state and replaces it when a handler installs a new state. Every event goes to the state that is current when the event arrives. The actor keeps the last reported snapshot, so that a Follower re-installed with the same term, leader and vote is not reported again.
- **The key-value server's launcher** (`ServerLauncher`). It chooses the start mode, checks the options that mode needs, and parses the `id,host,port` entries of the group configuration.

How the model is laid out:

- Role states are immutable values (`ServerStates.ServerState`).
- A handler is a pure function. It returns the ordered list of calls it makes on its context: cancel the timer, schedule a timeout, install a state, broadcast an RPC, send a reply.
- The class `Actor.ElectionActor` performs those calls on its fields. Each of its methods is proved against a pure function of its previous state (`Actor.Apply`, `Actor.ApplyAll`, `Actor.AfterEvent`).
- The role subclasses are not part of this model. Their same-term decisions are parameters, the fields of `ServerStates.RoleHooks`. These are `processRequestVoteRpc`, `processAppendEntriesRpc` and `onReceiveRequestVoteResult`.
- The Java behaviour the launcher depends on is written out in module `JavaLang`:
  - narrowing a long to an int;
  - `String.split(",")`, which drops trailing empty pieces;
  - `Integer.parseInt`.

Terms are unbounded integers in the main model. How the source's 32-bit `term + 1` behaves is recorded under Findings. The election timeout handler uses the unbounded `ServerStates.NextTerm`, and `ServerStates.HandlersRaiseTerm` proves that the term it installs is higher.

## Model

| member | source | states |
|---|---|---|
| ServerStates.ServerState.GetRole | src/main/java/in/xnnyygn/xraft/serverstate/AbstractServerState.java:35-37 | a state's role is Follower, Candidate or Leader exactly when it is that kind of state |
| ServerStates.ServerState.TimerToCancel | src/main/java/in/xnnyygn/xraft/serverstate/AbstractServerState.java:53 | what a state cancels on stepping down: a Leader its log-replication task, a Follower or Candidate its election timeout |
| ServerStates.OnElectionTimeout | src/main/java/in/xnnyygn/xraft/serverstate/AbstractServerState.java:60-79 | no ensures of its own; its behaviour is stated by ElectionTimeoutIgnoredOnlyByLeader, ElectionTimeoutStartsElection and HandlersRaiseTerm |
| ServerStates.OnReceiveRequestVoteRpc | src/main/java/in/xnnyygn/xraft/serverstate/AbstractServerState.java:95-114 | no ensures of its own; its behaviour is stated by RequestVoteLowerTermRefused, RequestVoteSameTermDelegated, RequestVoteHigherTermWins, RequestVoteAnsweredToCandidate and RequestVoteKeepsTerm |
| ServerStates.OnReceiveAppendEntriesRpc | src/main/java/in/xnnyygn/xraft/serverstate/AbstractServerState.java:131-149 | no ensures of its own; its behaviour is stated by AppendEntriesLowerTermRefused, AppendEntriesSameTermDelegated, AppendEntriesHigherTermWins, AppendEntriesAnsweredToLeader and AppendEntriesKeepsTerm |
| ServerStates.TakeSnapshot | src/main/java/in/xnnyygn/xraft/serverstate/AbstractServerState.java:39 | a snapshot carries the state's role and term; a Follower's snapshot carries its leader and vote |
| ServerStates.ElectionTimeoutIgnoredOnlyByLeader | src/main/java/in/xnnyygn/xraft/serverstate/AbstractServerState.java:61-64 | an election timeout makes no call at all exactly when the node is Leader |
| ServerStates.ElectionTimeoutStartsElection | src/main/java/in/xnnyygn/xraft/serverstate/AbstractServerState.java:68-78 | a non-Leader's timeout makes these calls in order: (1) cancel its own timer; its only timer calls are that cancel and then scheduling the fresh election timeout; (2) install exactly one state, a Candidate at term + 1 with one vote and the fresh timeout; (3) broadcast exactly one RequestVote for that term from itself, as the last call; it sends no reply |
| ServerStates.NextTermAsWritten | src/main/java/in/xnnyygn/xraft/serverstate/AbstractServerState.java:68 | `this.term + 1` computed on a Java int, which always stays in the int range |
| ServerStates.NextTermAsWrittenAgrees | src/main/java/in/xnnyygn/xraft/serverstate/AbstractServerState.java:68 | below the largest int, the int computation gives the intended next term |
| ServerStates.NextTermAsWrittenWrapsAtMax | src/main/java/in/xnnyygn/xraft/serverstate/AbstractServerState.java:68 | at the largest int, the int computation wraps to the smallest int, so the "next" term is lower |
| ServerStates.RequestVoteLowerTermRefused | src/main/java/in/xnnyygn/xraft/serverstate/AbstractServerState.java:98-101 | a RequestVote from a lower term gets (own term, false) sent to the candidate, and no other call is made: nothing is cancelled or installed |
| ServerStates.RequestVoteSameTermDelegated | src/main/java/in/xnnyygn/xraft/serverstate/AbstractServerState.java:102-103 | in the node's own term, the handler makes exactly the hook's calls and then sends the hook's result |
| ServerStates.RequestVoteHigherTermWins | src/main/java/in/xnnyygn/xraft/serverstate/AbstractServerState.java:104-110 | whatever the node's role, a RequestVote from a higher term: cancels the timer first, and its only timer calls are that one cancel and then scheduling the fresh election timeout; installs only Follower(rpc term, voted for the candidate, no leader); broadcasts nothing; sends only (rpc term, true) to the candidate |
| ServerStates.RequestVoteAnsweredToCandidate | src/main/java/in/xnnyygn/xraft/serverstate/AbstractServerState.java:113 | every RequestVote is answered last, to the candidate; outside the same-term hook, that is the only reply |
| ServerStates.AppendEntriesLowerTermRefused | src/main/java/in/xnnyygn/xraft/serverstate/AbstractServerState.java:134-137 | an AppendEntries from a lower term gets (own term, false) sent to the leader, and no other call is made |
| ServerStates.AppendEntriesSameTermDelegated | src/main/java/in/xnnyygn/xraft/serverstate/AbstractServerState.java:138-139 | in the node's own term, the handler makes exactly the hook's calls and then sends the hook's result |
| ServerStates.AppendEntriesHigherTermWins | src/main/java/in/xnnyygn/xraft/serverstate/AbstractServerState.java:140-146 | whatever the role, an AppendEntries from a higher term: cancels the timer first, and its only timer calls are that one cancel and then scheduling the fresh election timeout; installs only Follower(rpc term, no vote, that leader); sends only (rpc term, true) to the leader |
| ServerStates.AppendEntriesAnsweredToLeader | src/main/java/in/xnnyygn/xraft/serverstate/AbstractServerState.java:148 | every AppendEntries is answered last, to the leader; outside the same-term hook, that is the only reply |
| ServerStates.RequestVoteKeepsTerm | src/main/java/in/xnnyygn/xraft/serverstate/AbstractServerState.java:98-113 | outside its own term, the RequestVote handler installs only higher terms; with term-keeping hooks, it never installs a lower term |
| ServerStates.AppendEntriesKeepsTerm | src/main/java/in/xnnyygn/xraft/serverstate/AbstractServerState.java:134-148 | outside its own term, the AppendEntries handler installs only higher terms; with term-keeping hooks, it never installs a lower term |
| ServerStates.HandlersRaiseTerm | src/main/java/in/xnnyygn/xraft/serverstate/AbstractServerState.java:60-149 | the shared handlers install only strictly higher terms outside the same-term hook; the whole handler never lowers the term when the hooks keep it |
| Actor.IsStable | src/main/java/in/xnnyygn/xraft/actor/ElectionActor.java:148-154 | a stable transition is Follower to Follower; it is stable exactly when the earlier snapshot is a Follower's and the later one equals it in role, term, leader and vote |
| Actor.RecordSnapshot | src/main/java/in/xnnyygn/xraft/actor/ElectionActor.java:141-146 | a snapshot is recorded and announced exactly when nothing was recorded yet or the transition is not stable; otherwise nothing changes; the first snapshot is always announced; neither the state nor the trace changes |
| Actor.Announces | src/main/java/in/xnnyygn/xraft/actor/ElectionActor.java:142 | serverStateChanged announces exactly when nothing was recorded yet, the recorded snapshot is not a Follower's, or the new snapshot differs from it; a non-Follower snapshot is always announced |
| Actor.AfterStartUp | src/main/java/in/xnnyygn/xraft/actor/ElectionActor.java:71-75 | startUp installs the Follower with the stored term and vote, no leader and the fresh timeout; schedules that timeout; records the Follower's snapshot, announcing it on a fresh actor; leaves the actor consistent |
| Actor.Apply | src/main/java/in/xnnyygn/xraft/actor/ElectionActor.java:116-135 | every context call is appended to the trace; setServerState makes the state current and records its snapshot, leaving the actor consistent; any other call changes only the trace |
| Actor.Dispatch | src/main/java/in/xnnyygn/xraft/actor/ElectionActor.java:77-103 | no ensures of its own; its behaviour is stated by DispatchKeepsTerm, TermNeverDecreases and NextEventSeesInstalledState |
| Actor.ApplyAll | src/main/java/in/xnnyygn/xraft/actor/ElectionActor.java:116-119 | performing a handler's calls appends them to the trace in order; the current state becomes the last state installed; the recorded snapshot stays the current state's |
| Actor.DispatchKeepsTerm | src/main/java/in/xnnyygn/xraft/actor/ElectionActor.java:77-103 | with term-keeping hooks, no single event installs a term below the current state's |
| Actor.TermNeverDecreases | src/main/java/in/xnnyygn/xraft/actor/ElectionActor.java:77-103 | over any sequence of events: the trace only grows; the terms installed never go down; the final term is the last term installed, and it is at least the starting term |
| Actor.NextEventSeesInstalledState | src/main/java/in/xnnyygn/xraft/actor/ElectionActor.java:77-103 | after a higher-term AppendEntries, the next timeout is handled by the newly installed Follower: it cancels that Follower's own timer and ends with a Candidate at the leader's term + 1; over the two events the timer calls are, in order: cancel the old state's timer, schedule the first timeout, cancel that same timeout, schedule the second |
| Actor.ElectionActor.constructor | src/main/java/in/xnnyygn/xraft/actor/ElectionActor.java:35-43 | a new actor has no state, no recorded snapshot and an empty trace |
| Actor.ElectionActor.ServerStateChanged | src/main/java/in/xnnyygn/xraft/actor/ElectionActor.java:141-146 | the fields change exactly as RecordSnapshot says |
| Actor.ElectionActor.StartUp | src/main/java/in/xnnyygn/xraft/actor/ElectionActor.java:71-75 | schedules a timeout; installs the Follower built from the stored term and vote with that timeout; announces its snapshot on a fresh actor; leaves the actor consistent |
| Actor.ElectionActor.SetServerState | src/main/java/in/xnnyygn/xraft/actor/ElectionActor.java:116-119 | replaces the state and reports the new state's snapshot; lastServerState becomes that snapshot; nothing else changes |
| Actor.ElectionActor.Perform | src/main/java/in/xnnyygn/xraft/actor/ElectionActor.java:115-135 | carrying out a list of context calls leaves the actor as ApplyAll says, and keeps it consistent |
| Actor.ElectionActor.OnElectionTimeout | src/main/java/in/xnnyygn/xraft/actor/ElectionActor.java:77-80 | the timeout is handled by the state current at that moment; a consistent actor stays consistent |
| Actor.ElectionActor.OnReceiveRequestVoteResult | src/main/java/in/xnnyygn/xraft/actor/ElectionActor.java:90-93 | the vote result is handled by the current state's role hook; a consistent actor stays consistent |
| Actor.ElectionActor.OnReceiveRequestVoteRpc | src/main/java/in/xnnyygn/xraft/actor/ElectionActor.java:95-98 | the RequestVote is handled by the current state; a consistent actor stays consistent |
| Actor.ElectionActor.OnReceiveAppendEntriesRpc | src/main/java/in/xnnyygn/xraft/actor/ElectionActor.java:100-103 | the AppendEntries is handled by the current state; a consistent actor stays consistent |
| Actor.ElectionActor.ReplicateLog | src/main/java/in/xnnyygn/xraft/actor/ElectionActor.java:82-88 | broadcasts exactly one AppendEntries, carrying the current state's term and this node as leader; nothing else changes, and a consistent actor stays consistent |
| JavaLang.NarrowToInt | xraft-kvstore/src/main/java/in/xnnyygn/xraft/kvstore/server/ServerLauncher.java:104-105 | `Long.intValue()` always yields an int; it keeps any value already in range; it agrees with its input modulo 2^32 |
| JavaLang.SplitAll | xraft-kvstore/src/main/java/in/xnnyygn/xraft/kvstore/server/ServerLauncher.java:141 | cutting at every comma gives one more piece than there are commas, and no piece holds a comma |
| JavaLang.JoinSplitAll | xraft-kvstore/src/main/java/in/xnnyygn/xraft/kvstore/server/ServerLauncher.java:141 | gluing the pieces back with commas gives the input |
| JavaLang.SplitAllJoin | xraft-kvstore/src/main/java/in/xnnyygn/xraft/kvstore/server/ServerLauncher.java:141 | splitting comma-joined, comma-free pieces gives those pieces |
| JavaLang.DropTrailingEmpty | xraft-kvstore/src/main/java/in/xnnyygn/xraft/kvstore/server/ServerLauncher.java:141 | the result is a prefix of the input; only empty pieces are dropped; the result's last piece is not empty |
| JavaLang.Split | xraft-kvstore/src/main/java/in/xnnyygn/xraft/kvstore/server/ServerLauncher.java:141 | `split(",")`: text without a comma is returned whole; otherwise the pieces less the trailing empty ones; no piece holds a comma |
| JavaLang.ParseInt | xraft-kvstore/src/main/java/in/xnnyygn/xraft/kvstore/server/ServerLauncher.java:149 | `Integer.parseInt` accepts a text exactly when it is an optional '+' or '-' followed by at least one digit and its value is in the int range, and then gives that value; anything else is rejected |
| JavaLang.ParseIntPlusSign | xraft-kvstore/src/main/java/in/xnnyygn/xraft/kvstore/server/ServerLauncher.java:149 | an explicit '+' before a non-negative int is accepted, with the same value |
| JavaLang.ParseIntLeadingZeros | xraft-kvstore/src/main/java/in/xnnyygn/xraft/kvstore/server/ServerLauncher.java:149 | any number of leading zeros before a non-negative int are accepted, with the same value |
| JavaLang.DigitsValueLeadingZero | xraft-kvstore/src/main/java/in/xnnyygn/xraft/kvstore/server/ServerLauncher.java:149 | a leading zero does not change what a digit string denotes |
| JavaLang.DigitsValueLeadingZeros | xraft-kvstore/src/main/java/in/xnnyygn/xraft/kvstore/server/ServerLauncher.java:149 | any number of leading zeros do not change what a digit string denotes |
| JavaLang.ParseFormatInt | xraft-kvstore/src/main/java/in/xnnyygn/xraft/kvstore/server/ServerLauncher.java:149 | parsing the decimal text of n gives n back exactly when n is an int, and is rejected otherwise |
| JavaLang.DigitsValueOfNatDigits | xraft-kvstore/src/main/java/in/xnnyygn/xraft/kvstore/server/ServerLauncher.java:149 | the decimal digits of k denote k |
| ServerLauncher.ParseNodeConfig | xraft-kvstore/src/main/java/in/xnnyygn/xraft/kvstore/server/ServerLauncher.java:140-154 | `IllegalNodeConfig` exactly when the split does not give three pieces; otherwise `IllegalPortInNodeConfig` exactly when the third piece is no int; on success the result is (piece 0, piece 1, parsed piece 2) |
| ServerLauncher.ParseNodeConfigRoundTrip | xraft-kvstore/src/main/java/in/xnnyygn/xraft/kvstore/server/ServerLauncher.java:145-153 | the `id,host,port` text of an endpoint with comma-free id and host and an int port parses back to that endpoint |
| ServerLauncher.ParseNodeConfigIgnoresTrailingComma | xraft-kvstore/src/main/java/in/xnnyygn/xraft/kvstore/server/ServerLauncher.java:141-144 | `id,host,port,` is accepted as `id,host,port` |
| ServerLauncher.ParseNodeConfigRejectsEmptyPort | xraft-kvstore/src/main/java/in/xnnyygn/xraft/kvstore/server/ServerLauncher.java:141-144 | `id,host,` gives `IllegalNodeConfig`, not `IllegalPortInNodeConfig` |
| ServerLauncher.ParseNodeConfigNeedsTwoCommas | xraft-kvstore/src/main/java/in/xnnyygn/xraft/kvstore/server/ServerLauncher.java:141-144 | every accepted entry holds at least two commas |
| ServerLauncher.ParseNodeConfigRejectsBadPort | xraft-kvstore/src/main/java/in/xnnyygn/xraft/kvstore/server/ServerLauncher.java:148-152 | three comma-free pieces whose third is not an int give `IllegalPortInNodeConfig` |
| ServerLauncher.ParseGroupConfig | xraft-kvstore/src/main/java/in/xnnyygn/xraft/kvstore/server/ServerLauncher.java:127-129 | the group parses exactly when every entry does, and is then the set of their endpoints; otherwise the error is that of the first bad entry |
| ServerLauncher.StartAsStandaloneOrStandby | xraft-kvstore/src/main/java/in/xnnyygn/xraft/kvstore/server/ServerLauncher.java:97-110 | fails with `PortsRequired` exactly when -p1 or -p2 is missing; otherwise a single node with the given id, the host defaulting to localhost, both ports narrowed to int as `Long.intValue()` does (unchanged when in range), and the standby flag and data dir passed through |
| ServerLauncher.StartAsGroupMember | xraft-kvstore/src/main/java/in/xnnyygn/xraft/kvstore/server/ServerLauncher.java:118-133 | fails with `GroupConfigRequired` when -gc is missing, and with the first entry's error when an entry does not parse; otherwise a group member with this id, the parsed group, the narrowed service port and the data dir |
| ServerLauncher.MissingRequired | xraft-kvstore/src/main/java/in/xnnyygn/xraft/kvstore/server/ServerLauncher.java:33-77 | -i is reported missing exactly when no id was given, -p2 exactly when no service port was given, and nothing else is reported |
| ServerLauncher.ModeOf | xraft-kvstore/src/main/java/in/xnnyygn/xraft/kvstore/server/ServerLauncher.java:78 | no ensures of its own; the default mode is stated by DefaultModeIsStandalone and the mode switch by Execute |
| ServerLauncher.Execute | xraft-kvstore/src/main/java/in/xnnyygn/xraft/kvstore/server/ServerLauncher.java:69-91 | no arguments prints the help; a missing -i or -p2 fails first with `MissingRequiredOptions`; otherwise standby, standalone and group-member each give exactly what that mode's start gives (its plan, or its own error); any other mode fails with `IllegalMode`; a start happens only in one of those modes, and a single node is standby exactly in standby mode |
| ServerLauncher.DefaultModeIsStandalone | xraft-kvstore/src/main/java/in/xnnyygn/xraft/kvstore/server/ServerLauncher.java:78 | with no -m, and both ports given, the launcher starts a standalone (not standby) single node |

## Left out

- Akka plumbing is not modelled: message matching in `createReceive`, `postStop`, and actor creation in `ServerBuilder`. Events are handled one at a time, in sequence.
- The scheduler is a foreign call. A scheduled timeout or task is an opaque handle; the fresh handle a schedule call returns is a parameter. Timing and randomised timeouts are not modelled.
- Router delivery is a foreign call. Broadcasts and replies are entries in the actor's trace.
- Logging is not modelled, except the "state changed" line of serverStateChanged (ElectionActor.java:143), which is the `announced` sequence. Not modelled either is the launcher's I/O: building the commons-cli options, printing help and errors, `startServer`, and the shutdown hook. The launcher is modelled on the option values after parsing; a failure is a `LaunchError` value in place of the printed message.
- The role subclasses and `ServerStore` are not part of this model:
  - Their same-term decisions are the hooks of `RoleHooks`. Term monotonicity is proved for hooks that keep the term (`KeepsTerm`).
  - Their vote counting is not modelled. A new Candidate is given one vote, its own.
  - `cancelTimeoutOrTask` cancels the state's own handle: a Follower's or Candidate's election timeout, or a Leader's log-replication task.
  - `takeSnapshot` reports leader and vote only for a Follower. The stability test never reads them when either side is not a Follower.
- Actor.IsStable: compares ids by value, where the source compares `ServerId` references with `==`. With reference comparison, two equal ids held in different objects would make a transition unstable, and it would be announced again.
- Actor.ElectionActor.StartUp: the source reads the stored term and vote from `ServerStore`; here they are parameters. An event arriving before `startUp` would dereference a null state; here every event method requires a current state.
- ServerLauncher.StartAsStandaloneOrStandby: takes -p1 and -p2 already converted to longs. A port text that commons-cli cannot convert, or converts to a non-long number, is not modelled. Unknown options and other parser errors are not modelled either.
- ServerLauncher.ParseGroupConfig: collects endpoints into a set by structural equality of id, host and port. `NodeEndpoint.equals`, which `Collectors.toSet()` uses, is not part of this model.
- ServerLauncher.StartAsGroupMember: commons-cli guarantees at least one -gc value; here an empty list gives an empty group.
- JavaLang.ParseInt: accepts ASCII digits only. `Integer.parseInt` also accepts digits from other Unicode scripts.
- `ServerBuilder`, `EmbeddedChannel` and `Client` are not part of this model. They hold only actor-system wiring, a commented-out body, and a forwarder to an unseen router.

## Findings

| source | as written | input that shows it | evidently intended | confidence | as-written member | corrected member |
|---|---|---|---|---|---|---|
| src/main/java/in/xnnyygn/xraft/serverstate/AbstractServerState.java:68 | `int newTerm = this.term + 1` overflows a 32-bit int | an election timeout at term 2147483647 gives a Candidate at term -2147483648, lower than the current term | the next term is always one higher (terms only increase) | not executed | ServerStates.NextTermAsWritten, ServerStates.NextTermAsWrittenWrapsAtMax | ServerStates.HandlersRaiseTerm |
