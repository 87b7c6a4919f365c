/** The data a Raft peer holds, saves and sends. */
module RaftTypes {
  import opened KvMachine

  datatype Role = Leader | Follower | Candidate

  datatype Entry = Entry(term: int, item: Item)

  /** The state the persister holds: nothing yet, or the last saved record.
      Raft state and snapshot are saved together. */
  datatype Store =
    | Blank
    | Saved(log: seq<Entry>, term: int, votedFor: int, snapIndex: int, snapTerm: int, snapshot: Image)

  /** The votes counted in the latest election and the calls still open. */
  datatype Poll = Poll(votes: int, waiting: set<int>)

  /** One peer. `log[0]` is a placeholder; `log[k]` is the entry with logical
      index `snapIndex + k`. */
  datatype Node = Node(
    me: int, peers: int,
    term: int, votedFor: int, role: Role,
    log: seq<Entry>, commitIndex: int, lastApplied: int,
    nextIndex: seq<int>, matchIndex: seq<int>,
    snapIndex: int, snapTerm: int, snapshot: Image,
    poll: Poll, disk: Store)

  datatype VoteArgs = VoteArgs(term: int, candidate: int, lastIndex: int, lastTerm: int)
  datatype VoteReply = VoteReply(term: int, granted: bool)

  datatype AppendArgs = AppendArgs(term: int, leader: int, prev: int, prevTerm: int, entries: seq<Entry>, commit: int)
  datatype AppendReply = AppendReply(term: int, success: bool, xTerm: int, xIndex: int, xLen: int)

  datatype SnapArgs = SnapArgs(term: int, leader: int, index: int, snapTerm: int, image: Image)

  /** What a peer hands to its service. */
  datatype ApplyMsg =
    | CommandMsg(index: int, item: Item)
    | SnapshotMsg(index: int, image: Image)

  /** The server ids of a cluster of `n`. */
  function Ids(n: int): (r: set<int>)
    ensures forall i :: i in r <==> 0 <= i < n
    ensures n >= 0 ==> |r| == n
  {
    if n <= 0 then {} else Ids(n - 1) + {n - 1}
  }

  function Max(a: int, b: int): int { if a < b then b else a }
  function Min(a: int, b: int): int { if a < b then a else b }
}
