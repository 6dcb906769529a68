/** The messages the election core exchanges with its peers (package in.xnnyygn.xraft.rpc). */
module Rpc {

  /**
   * A node identity (ServerId). Identities are compared by value here;
   * the election actor's stability test compares them with Java's ==.
   */
  type ServerId = string

  /** A candidate asks for a vote in its term. */
  datatype RequestVoteRpc = RequestVoteRpc(term: int, candidateId: ServerId)

  /** The answer to a RequestVoteRpc. */
  datatype RequestVoteResult = RequestVoteResult(term: int, voteGranted: bool)

  /** A leader's heartbeat (no log entries are carried in this core). */
  datatype AppendEntriesRpc = AppendEntriesRpc(term: int, leaderId: ServerId)

  /** The answer to an AppendEntriesRpc. */
  datatype AppendEntriesResult = AppendEntriesResult(term: int, success: bool)

  /** What Router.sendRpc broadcasts to every peer. */
  datatype Message =
    | RequestVote(requestVote: RequestVoteRpc)
    | AppendEntries(appendEntries: AppendEntriesRpc)

  /** What Router.sendResult sends back to one peer. */
  datatype Reply =
    | VoteReply(vote: RequestVoteResult)
    | EntriesReply(entries: AppendEntriesResult)
}
