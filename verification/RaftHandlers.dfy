/** What each critical section of a Raft peer does, as functions of the peer's
    state. Reads outside the log yield a placeholder here; the in-range
    conditions are stated as predicates and proved of every reachable state. */
module RaftHandlers {
  import opened KvMachine
  import opened RaftTypes
  import opened Sorting

  function At(log: seq<Entry>, i: int): Entry {
    if 0 <= i < |log| then log[i] else Entry(0, Dummy)
  }

  function LastIndex(s: Node): int { s.snapIndex + |s.log| - 1 }

  function LastTerm(s: Node): int {
    if |s.log| > 1 then s.log[|s.log| - 1].term else s.snapTerm
  }

  function Persist(s: Node): Node {
    s.(disk := Saved(s.log, s.term, s.votedFor, s.snapIndex, s.snapTerm, s.snapshot))
  }

  /** A higher term was seen: follow it, with no vote cast. */
  function Follow(s: Node, term: int): Node {
    s.(term := term, votedFor := -1, role := Follower)
  }

  /** The state a blank persister stands for. */
  function Recovered(d: Store): (r: Store)
    ensures r.Saved?
  {
    if d.Blank? then Saved([Entry(-1, Dummy)], 0, -1, 0, 0, NoImage) else d
  }

  /** A peer as constructed from what its persister holds. */
  function Boot(me: int, peers: nat, disk: Store): Node {
    var d := Recovered(disk);
    Node(me, peers, d.term, d.votedFor, Follower, d.log, d.snapIndex, d.snapIndex,
         seq(peers, i => 0), seq(peers, i => 0),
         d.snapIndex, d.snapTerm, d.snapshot, Poll(0, {}), disk)
  }

  // ---------------------------------------------------------------- elections

  function StartElection(s: Node): Node {
    Persist(s.(term := s.term + 1, votedFor := s.me, role := Candidate,
               poll := Poll(1, Ids(s.peers) - {s.me})))
  }

  function VoteRequest(s: Node): VoteArgs {
    VoteArgs(s.term, s.me, LastIndex(s), LastTerm(s))
  }

  /** Is a log that ends at (`index`, `term`) at least as recent as the peer's? */
  predicate LogIsRecent(s: Node, index: int, term: int) {
    LastTerm(s) < term || (LastTerm(s) == term && LastIndex(s) <= index)
  }

  function RequestVote(s: Node, a: VoteArgs): (Node, VoteReply) {
    if a.term < s.term then (s, VoteReply(s.term, false))
    else
      var s1 := if a.term > s.term then Persist(Follow(s, a.term)) else s;
      if s1.votedFor != -1 && s1.votedFor != a.candidate then (s1, VoteReply(s.term, false))
      else if !LogIsRecent(s1, a.lastIndex, a.lastTerm) then (s1, VoteReply(s.term, false))
      else (Persist(s1.(votedFor := a.candidate, role := Follower)), VoteReply(s.term, true))
  }

  function BecomeLeader(s: Node): Node {
    var last := LastIndex(s);
    Persist(s.(role := Leader,
               matchIndex := seq(|s.matchIndex|, i => if i == s.me then last else 0),
               nextIndex := seq(|s.matchIndex|, i => last + 1)))
  }

  /** The reply closure of an election held in `electionTerm`. */
  function VoteAnswer(s: Node, peer: int, electionTerm: int, r: VoteReply): Node {
    if r.term > s.term then Persist(Follow(s, r.term))
    else if s.term != electionTerm || s.role != Candidate then s
    else
      var s1 := s.(poll := Poll(s.poll.votes + (if r.granted then 1 else 0), s.poll.waiting - {peer}));
      if s1.poll.votes >= s.peers / 2 + 1 then BecomeLeader(s1) else s1
  }

  // -------------------------------------------------------------- replication

  function Start(s: Node, item: Item): Node {
    if s.role != Leader then s
    else Persist(s.(log := s.log + [Entry(s.term, item)]))
  }

  /** Must the leader send its snapshot, not entries, to this peer? */
  predicate NeedsSnapshot(s: Node, peer: int)
    requires 0 <= peer < |s.nextIndex|
  {
    s.nextIndex[peer] <= s.snapIndex
  }

  function AppendRequest(s: Node, peer: int): AppendArgs
    requires 0 <= peer < |s.nextIndex|
  {
    var next := s.nextIndex[peer];
    var from := next - s.snapIndex;
    AppendArgs(s.term, s.me, next - 1,
               if next >= 1 then At(s.log, from - 1).term else -1,
               if 0 <= from <= |s.log| then s.log[from..] else [],
               s.commitIndex)
  }

  /** Building the request reads only inside the log. */
  predicate AppendRequestInRange(s: Node, peer: int)
    requires 0 <= peer < |s.nextIndex|
  {
    1 <= s.nextIndex[peer] - s.snapIndex <= |s.log|
  }

  function SnapshotRequest(s: Node): SnapArgs {
    SnapArgs(s.term, s.me, s.snapIndex, s.snapTerm, s.snapshot)
  }

  /** The merge loop: keep the log while the terms agree, and from the first
      disagreement (or the end) on take the sent entries. */
  function Merge(log: seq<Entry>, at: nat, entries: seq<Entry>): seq<Entry>
    requires at <= |log|
    decreases |entries|
  {
    if entries == [] then log
    else if at == |log| then log + entries
    else if entries[0].term != log[at].term then log[..at] + entries
    else Merge(log, at + 1, entries[1..])
  }

  /** Physical position of the first entry of `term` at or after `i`, or -1. */
  function FirstFrom(log: seq<Entry>, i: nat, term: int): (r: int)
    ensures r == -1 ==> forall k :: i <= k < |log| ==> log[k].term != term
    ensures r != -1 ==> i <= r < |log| && log[r].term == term && forall k :: i <= k < r ==> log[k].term != term
    decreases |log| - i
  {
    if i >= |log| then -1
    else if log[i].term == term then i
    else FirstFrom(log, i + 1, term)
  }

  /** Logical index of the first real entry of `term`, or -1. */
  function FirstOfTerm(s: Node, term: int): int {
    var i := FirstFrom(s.log, 1, term);
    if i == -1 then -1 else i + s.snapIndex
  }

  /** Physical position of the last real entry of `term` before `n`, or -1. */
  function LastBefore(log: seq<Entry>, n: nat, term: int): (r: int)
    requires n <= |log|
    ensures r == -1 ==> forall k :: 1 <= k < n ==> log[k].term != term
    ensures r != -1 ==> 1 <= r < n && log[r].term == term && forall k :: r < k < n ==> log[k].term != term
  {
    if n <= 1 then -1
    else if log[n - 1].term == term then n - 1
    else LastBefore(log, n - 1, term)
  }

  function AppendEntries(s: Node, a: AppendArgs): (Node, AppendReply) {
    if s.term > a.term then (s, AppendReply(s.term, false, 0, 0, 0))
    else
      var at := a.prev - s.snapIndex;
      var s1 := if s.term < a.term then Follow(s, a.term) else s;
      if at < 0 then (s1, AppendReply(s1.term, false, 0, 0, 0))
      else if at >= |s.log| then (s1, AppendReply(s1.term, false, -1, -1, |s.log| + s.snapIndex))
      else if at > 0 && a.prevTerm != s.log[at].term then
        (s1, AppendReply(s1.term, false, s.log[at].term, FirstOfTerm(s, s.log[at].term), |s.log| + s.snapIndex))
      else
        var s2 := s1.(log := Merge(s.log, at + 1, a.entries));
        var s3 := if a.commit > s2.commitIndex then s2.(commitIndex := Min(a.commit, LastIndex(s2))) else s2;
        (Persist(s3), AppendReply(s3.term, true, 0, 0, 0))
  }

  // ------------------------------------------------------------------ commit

  /** The commit candidate: element (n-1)/2 of the sorted match indices. */
  function Median(ms: seq<int>): int
    requires |ms| > 0
  {
    Sort(ms)[(|ms| - 1) / 2]
  }

  /** Where to resume after a rejection. */
  function Backup(s: Node, r: AppendReply): int {
    if r.xTerm == -1 then r.xLen
    else if FirstOfTerm(s, r.xTerm) == -1 then (if r.xIndex != 0 then r.xIndex else 1)
    else
      var k := LastBefore(s.log, |s.log|, r.xTerm);
      if k != -1 then s.snapIndex + k + 1 else r.xIndex
  }

  function Acknowledged(s: Node, peer: int, upTo: int): Node
    requires 0 <= peer < |s.matchIndex| == |s.nextIndex| && 0 <= s.me < |s.matchIndex|
  {
    var m := Max(s.matchIndex[peer], upTo);
    s.(matchIndex := s.matchIndex[peer := m][s.me := LastIndex(s)], nextIndex := s.nextIndex[peer := m + 1])
  }

  function Commit(s: Node): Node
    requires |s.matchIndex| > 0
  {
    var c := Median(s.matchIndex);
    if c > s.snapIndex && At(s.log, c - s.snapIndex).term == s.term && s.commitIndex < c
    then s.(commitIndex := c) else s
  }

  function AppendAnswer(s: Node, peer: int, a: AppendArgs, r: AppendReply): Node
    requires 0 <= peer < |s.matchIndex| == |s.nextIndex| && 0 <= s.me < |s.matchIndex|
  {
    if s.role != Leader || a.term != s.term then s
    else if r.term > s.term then Persist(Follow(s, r.term))
    else if r.success then Commit(Acknowledged(s, peer, a.prev + |a.entries|))
    else s.(nextIndex := s.nextIndex[peer := Backup(s, r)])
  }

  /** The answer closure reads the log only inside its bounds. */
  predicate AppendAnswerInRange(s: Node, a: AppendArgs) {
    s.role == Leader && a.term == s.term ==>
      a.prev + |a.entries| <= LastIndex(s) && forall i :: 0 <= i < |s.matchIndex| ==> s.matchIndex[i] <= LastIndex(s)
  }

  // --------------------------------------------------------------- snapshots

  function Snapshot(s: Node, index: int, image: Image): Node {
    if index <= s.snapIndex || index > LastIndex(s) then s
    else
      var at := index - s.snapIndex;
      var t := s.log[at].term;
      Persist(s.(log := [Entry(t, Dummy)] + s.log[at + 1..],
                 snapIndex := index, snapTerm := t, snapshot := image,
                 commitIndex := Max(s.commitIndex, index), lastApplied := Max(s.lastApplied, index)))
  }

  /** The entries above the snapshot point that may be kept: all of them when
      the log holds the snapshot's last entry, else none. */
  function Retained(log: seq<Entry>, snapIndex: int, index: int, term: int): seq<Entry> {
    var at := index - snapIndex;
    if 0 <= at < |log| && log[at].term == term then log[at + 1..] else []
  }

  function InstallSnapshot(s: Node, a: SnapArgs): (Node, int) {
    if a.term < s.term || a.index < s.snapIndex then (s, s.term)
    else
      var s1 := if a.term > s.term then Follow(s, a.term) else s;
      (Persist(s1.(role := Follower,
                   log := [Entry(a.snapTerm, Dummy)] + Retained(s.log, s.snapIndex, a.index, a.snapTerm),
                   snapIndex := a.index, snapTerm := a.snapTerm, snapshot := a.image,
                   commitIndex := Max(s.commitIndex, a.index))), 0)
  }

  function SnapshotAnswer(s: Node, peer: int, a: SnapArgs, term: int): Node
    requires 0 <= peer < |s.matchIndex| == |s.nextIndex|
  {
    if s.role != Leader || a.term != s.term then s
    else if term > s.term then Persist(Follow(s, term))
    else s.(nextIndex := s.nextIndex[peer := a.index + 1], matchIndex := s.matchIndex[peer := a.index])
  }

  // ------------------------------------------------------------------- apply

  /** The next batch for the service, and the peer after handing it over. */
  function Collect(s: Node): (Node, seq<ApplyMsg>) {
    if s.lastApplied < s.snapIndex then
      (s.(lastApplied := s.snapIndex), [SnapshotMsg(s.snapIndex, s.snapshot)])
    else if s.lastApplied < s.commitIndex then
      (s.(lastApplied := s.commitIndex),
       seq(s.commitIndex - s.lastApplied,
           j => CommandMsg(s.lastApplied + 1 + j, At(s.log, s.lastApplied + 1 + j - s.snapIndex).item)))
    else (s, [])
  }

  /** Collecting reads only inside the log. */
  predicate CollectInRange(s: Node) {
    s.commitIndex <= LastIndex(s)
  }
}
