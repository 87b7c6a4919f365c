/** The Raft peer as an object whose methods update its fields in place. Each
    method is one critical section and is proved to do to the fields what the
    corresponding handler function says. */
module RaftPeer {
  import opened KvMachine
  import opened RaftTypes
  import E = RaftEffects
  import H = RaftHandlers
  import S = RaftSafety
  import Sorting

  /** The commit index is the largest index a majority has reached, if the entry
      there is of the leader's term and lies ahead, and is else unchanged. */
  ghost predicate CommitsMajority(s: Node, s': Node) {
    forall c :: 0 <= s.snapIndex && E.LargestReached(s.matchIndex, c) ==>
      s'.commitIndex ==
      if S.Holds(s, c) && S.EntryOf(s, c).term == s.term then Max(s.commitIndex, c) else s.commitIndex
  }

  class Peer {
    const me: int
    const peers: nat
    var term: int
    var votedFor: int
    var role: Role
    var log: seq<Entry>
    var commitIndex: int
    var lastApplied: int
    var nextIndex: seq<int>
    var matchIndex: seq<int>
    var snapIndex: int
    var snapTerm: int
    var snapshot: Image
    var votes: int
    var waiting: set<int>
    var disk: Store

    ghost function View(): Node
      reads this
    {
      Node(me, peers, term, votedFor, role, log, commitIndex, lastApplied, nextIndex, matchIndex,
           snapIndex, snapTerm, snapshot, Poll(votes, waiting), disk)
    }

    /** The arrays have one slot per peer and the log its placeholder. */
    ghost predicate Valid()
      reads this
    {
      0 <= me < peers && |nextIndex| == peers == |matchIndex| && |log| >= 1
    }

    /** Starting or restarting from what the persister holds. */
    constructor (me: int, peers: nat, disk: Store)
      requires 0 <= me < peers && (disk.Saved? ==> |disk.log| >= 1)
      ensures Valid() && View() == H.Boot(me, peers, disk)
    {
      this.me := me;
      this.peers := peers;
      this.disk := disk;
      role := Follower;
      nextIndex := seq(peers, i => 0);
      matchIndex := seq(peers, i => 0);
      votes, waiting := 0, {};
      if disk.Saved? {
        log, term, votedFor := disk.log, disk.term, disk.votedFor;
        snapIndex, snapTerm, snapshot := disk.snapIndex, disk.snapTerm, disk.snapshot;
        commitIndex, lastApplied := disk.snapIndex, disk.snapIndex;
      } else {
        log, term, votedFor := [Entry(-1, Dummy)], 0, -1;
        snapIndex, snapTerm, snapshot := 0, 0, NoImage;
        commitIndex, lastApplied := 0, 0;
      }
    }

    method Persist()
      modifies this`disk
      ensures View() == H.Persist(old(View()))
    {
      disk := Saved(log, term, votedFor, snapIndex, snapTerm, snapshot);
    }

    // ------------------------------------------------------------ elections

    method StartElection() returns (a: VoteArgs)
      requires Valid() && role != Leader
      modifies this
      ensures Valid() && View() == H.StartElection(old(View())) && a == H.VoteRequest(View())
    {
      votedFor := me;
      term := term + 1;
      role := Candidate;
      votes, waiting := 1, Ids(peers) - {me};
      Persist();
      var lastTerm := 0;
      if |log| > 1 {
        lastTerm := log[|log| - 1].term;
      } else {
        lastTerm := snapTerm;
      }
      a := VoteArgs(term, me, snapIndex + |log| - 1, lastTerm);
    }

    method RequestVote(a: VoteArgs) returns (r: VoteReply)
      requires Valid()
      modifies this
      ensures Valid() && (View(), r) == H.RequestVote(old(View()), a)
    {
      r := VoteReply(term, false);
      if a.term < term {
        return;
      } else if a.term > term {
        role := Follower;
        term := a.term;
        votedFor := -1;
        Persist();
      }
      if votedFor != -1 && votedFor != a.candidate {
        return;
      }
      var curLogTerm := if |log| > 1 then log[|log| - 1].term else snapTerm;
      if a.lastTerm < curLogTerm {
        return;
      }
      if a.lastTerm == curLogTerm && a.lastIndex < snapIndex + |log| - 1 {
        return;
      }
      r := r.(granted := true);
      votedFor := a.candidate;
      role := Follower;
      Persist();
    }

    method VoteAnswer(peer: int, electionTerm: int, r: VoteReply)
      requires Valid()
      modifies this
      ensures Valid() && View() == H.VoteAnswer(old(View()), peer, electionTerm, r)
    {
      if r.term > term {
        role := Follower;
        term := r.term;
        votedFor := -1;
        Persist();
        return;
      }
      if term != electionTerm || role != Candidate {
        return;
      }
      waiting := waiting - {peer};
      if r.granted {
        votes := votes + 1;
      }
      if votes >= peers / 2 + 1 {
        BecomeLeader();
      }
    }

    method BecomeLeader()
      requires Valid()
      modifies this
      ensures Valid() && View() == H.BecomeLeader(old(View()))
    {
      role := Leader;
      var last := snapIndex + |log| - 1;
      var i := 0;
      while i < |matchIndex|
        invariant 0 <= i <= |matchIndex| == |nextIndex| == peers
        invariant forall k :: 0 <= k < i ==> matchIndex[k] == (if k == me then last else 0) && nextIndex[k] == last + 1
        invariant View() == old(View()).(role := Leader, matchIndex := matchIndex, nextIndex := nextIndex)
      {
        matchIndex := matchIndex[i := if i == me then last else 0];
        nextIndex := nextIndex[i := last + 1];
        i := i + 1;
      }
      assert matchIndex == H.BecomeLeader(old(View())).matchIndex;
      assert nextIndex == H.BecomeLeader(old(View())).nextIndex;
      Persist();
    }

    // ---------------------------------------------------------- replication

    method Start(item: Item) returns (index: int, t: int, isLeader: bool)
      requires Valid()
      modifies this
      ensures Valid() && View() == H.Start(old(View()), item) && isLeader == (old(role) == Leader)
      ensures isLeader ==> index == H.LastIndex(View()) && log[|log| - 1] == Entry(t, item) && t == old(term)
      ensures !isLeader ==> index == -1 && t == -1
    {
      if role != Leader {
        return -1, -1, false;
      }
      index, t, isLeader := snapIndex + |log|, term, true;
      log := log + [Entry(term, item)];
      Persist();
    }

    /** The send loop's part for one peer that needs entries. */
    method AppendRequest(peer: int) returns (a: AppendArgs)
      requires Valid() && 0 <= peer < peers && H.AppendRequestInRange(View(), peer) && 0 <= snapIndex
      ensures a == H.AppendRequest(View(), peer)
    {
      var from := nextIndex[peer] - snapIndex;
      var entries := [];
      var i := from;
      while i < |log|
        invariant from <= i <= |log|
        invariant entries == log[from..i]
      {
        entries := entries + [log[i]];
        i := i + 1;
      }
      var prev := nextIndex[peer] - 1;
      var prevTerm := -1;
      if prev >= 0 {
        prevTerm := log[prev - snapIndex].term;
      }
      a := AppendArgs(term, me, prev, prevTerm, entries, commitIndex);
    }

    method FirstOfTerm(t: int) returns (index: int)
      requires Valid()
      ensures index == H.FirstOfTerm(View(), t)
    {
      var i := 1;
      while i < |log|
        invariant 1 <= i <= |log|
        invariant H.FirstFrom(log, 1, t) == H.FirstFrom(log, i, t)
      {
        if log[i].term == t {
          return i + snapIndex;
        }
        i := i + 1;
      }
      return -1;
    }

    method AppendEntries(a: AppendArgs) returns (r: AppendReply)
      requires Valid() && 0 <= snapIndex
      modifies this
      ensures Valid() && (View(), r) == H.AppendEntries(old(View()), a)
    {
      r := AppendReply(term, false, 0, 0, 0);
      if term > a.term {
        return;
      }
      var at := a.prev - snapIndex;
      if term < a.term {
        term := a.term;
        votedFor := -1;
        role := Follower;
      }
      r := r.(term := term);
      if a.prev < snapIndex {
        return;
      }
      if at >= |log| {
        r := AppendReply(term, false, -1, -1, |log| + snapIndex);
        return;
      }
      if at > 0 && a.prevTerm != log[at].term {
        var first := FirstOfTerm(log[at].term);
        r := AppendReply(term, false, log[at].term, first, |log| + snapIndex);
        return;
      }
      Accept(at + 1, a.entries, a.commit);
      r := r.(success := true);
    }

    /** Merge the entries, follow the leader's commit index, and save. */
    method Accept(at: nat, entries: seq<Entry>, commit: int)
      requires Valid() && 1 <= at <= |log|
      modifies this
      ensures
        Valid() &&
        var merged := H.Merge(old(log), at, entries);
        View() == H.Persist(old(View()).(
          log := merged,
          commitIndex := if commit > old(commitIndex) then Min(commit, |merged| - 1 + snapIndex) else old(commitIndex)))
    {
      MergeLog(at, entries);
      if commit > commitIndex {
        commitIndex := Min(commit, |log| - 1 + snapIndex);
      }
      Persist();
    }

    /** The merge loop: stop at the end of the log or at the first conflict. */
    method MergeLog(at: nat, entries: seq<Entry>)
      requires Valid() && 1 <= at <= |log|
      modifies this`log
      ensures Valid() && log == H.Merge(old(log), at, entries)
    {
      var i := 0;
      while i < |entries|
        invariant 0 <= i <= |entries| && at + i <= |log| && log == old(log)
        invariant H.Merge(log, at, entries) == H.Merge(log, at + i, entries[i..])
      {
        var k := at + i;
        if k >= |log| {
          log := log + entries[i..];
          return;
        } else if entries[i].term != log[k].term {
          log := log[..k];
          log := log + entries[i..];
          return;
        }
        assert entries[i..][1..] == entries[i + 1..];
        i := i + 1;
      }
    }

    // ------------------------------------------------------------- answers

    method AppendAnswer(peer: int, a: AppendArgs, r: AppendReply)
      requires Valid() && 0 <= peer < peers && H.AppendAnswerInRange(View(), a)
      modifies this
      ensures Valid() && View() == H.AppendAnswer(old(View()), peer, a, r)
    {
      hide CommitsMajority, H.Commit, H.Backup, H.Median;
      if role != Leader || a.term != term {
        return;
      }
      if r.term > term {
        role := Follower;
        term := r.term;
        votedFor := -1;
        Persist();
        return;
      }
      if r.success {
        Acknowledge(peer, a.prev + |a.entries|);
        AdvanceCommit();
      } else {
        BackUp(peer, r);
      }
    }

    method Acknowledge(peer: int, upTo: int)
      requires Valid() && 0 <= peer < peers
      modifies this`matchIndex, this`nextIndex
      ensures Valid() && View() == H.Acknowledged(old(View()), peer, upTo)
    {
      var m := Max(matchIndex[peer], upTo);
      matchIndex := matchIndex[peer := m];
      nextIndex := nextIndex[peer := m + 1];
      matchIndex := matchIndex[me := snapIndex + (|log| - 1)];
    }

    /** Where to resume sending after a rejection. */
    method BackUp(peer: int, r: AppendReply)
      requires Valid() && 0 <= peer < peers
      modifies this`nextIndex
      ensures Valid() && nextIndex == old(nextIndex)[peer := H.Backup(old(View()), r)]
    {
      if r.xTerm == -1 {
        nextIndex := nextIndex[peer := r.xLen];
        return;
      }
      var first := FirstOfTerm(r.xTerm);
      if first == -1 {
        nextIndex := nextIndex[peer := if r.xIndex != 0 then r.xIndex else 1];
      } else {
        var last := LastOfTerm(r.xTerm);
        nextIndex := nextIndex[peer := if last != -1 then snapIndex + last + 1 else r.xIndex];
      }
    }

    /** The commit index moves to the largest index a majority has reached, if
        the entry there is of the leader's term and lies ahead. */
    method AdvanceCommit()
      requires Valid() && forall i :: 0 <= i < |matchIndex| ==> matchIndex[i] <= snapIndex + |log| - 1
      modifies this`commitIndex
      ensures View() == H.Commit(old(View()))
      ensures CommitsMajority(old(View()), View())
    {
      hide Sorting.Sort, E.LargestReached;
      var sorted := Sorting.Sort(matchIndex);
      forall c ensures E.LargestReached(matchIndex, c) <==> c == sorted[(|sorted| - 1) / 2] {
        E.LargestIsMedian(matchIndex, c);
      }
      var c := sorted[(|sorted| - 1) / 2];
      if c <= snapIndex {
        return;
      }
      assert c in multiset(sorted);
      assert c in multiset(matchIndex);
      if log[c - snapIndex].term == term && commitIndex < c {
        commitIndex := c;
      }
    }

    /** Position of the last real entry of a term, by a scan from the front. */
    method LastOfTerm(t: int) returns (last: int)
      requires Valid()
      ensures last == H.LastBefore(log, |log|, t)
    {
      last := -1;
      var i := 1;
      while i < |log|
        invariant 1 <= i <= |log|
        invariant last == H.LastBefore(log, i, t)
      {
        if log[i].term == t {
          last := i;
        }
        i := i + 1;
      }
    }

    // ------------------------------------------------------------ snapshots

    method Snapshot(index: int, image: Image)
      requires Valid() && index <= H.LastIndex(View())
      modifies this
      ensures Valid() && View() == H.Snapshot(old(View()), index, image)
    {
      if index <= snapIndex {
        return;
      }
      var at := index - snapIndex;
      snapIndex := index;
      snapTerm := log[at].term;
      log := [Entry(snapTerm, Dummy)] + log[at + 1..];
      commitIndex := Max(commitIndex, index);
      lastApplied := Max(lastApplied, index);
      snapshot := image;
      Persist();
    }

    /** Scan for the snapshot's last entry; keep what follows it. */
    method Retained(index: int, t: int) returns (kept: seq<Entry>)
      requires Valid()
      ensures kept == H.Retained(log, snapIndex, index, t)
    {
      kept := [];
      var i := 0;
      while i < |log|
        invariant 0 <= i <= |log| && kept == []
        invariant forall k :: 0 <= k < i ==> !(log[k].term == t && index == snapIndex + k)
      {
        if log[i].term == t && index == snapIndex + i {
          return log[i + 1..];
        }
        i := i + 1;
      }
    }

    method InstallSnapshot(a: SnapArgs) returns (replyTerm: int)
      requires Valid()
      modifies this
      ensures Valid() && (View(), replyTerm) == H.InstallSnapshot(old(View()), a)
    {
      if a.term < term || a.index < snapIndex {
        return term;
      }
      if a.term > term {
        term := a.term;
        votedFor := -1;
        role := Follower;
        Persist();
      }
      Replace(a);
      return 0;
    }

    /** Put the snapshot in place of the log up to its index, and save. */
    method Replace(a: SnapArgs)
      requires Valid()
      modifies this
      ensures Valid()
      ensures View() == H.Persist(old(View()).(
        role := Follower, snapshot := a.image, snapIndex := a.index, snapTerm := a.snapTerm,
        log := [Entry(a.snapTerm, Dummy)] + H.Retained(old(log), old(snapIndex), a.index, a.snapTerm),
        commitIndex := Max(old(commitIndex), a.index)))
    {
      role := Follower;
      snapshot := a.image;
      var kept := Retained(a.index, a.snapTerm);
      log := [Entry(a.snapTerm, Dummy)] + kept;
      snapIndex := a.index;
      snapTerm := a.snapTerm;
      commitIndex := Max(commitIndex, a.index);
      Persist();
    }

    method SnapshotAnswer(peer: int, a: SnapArgs, t: int)
      requires Valid() && 0 <= peer < peers
      modifies this
      ensures Valid() && View() == H.SnapshotAnswer(old(View()), peer, a, t)
    {
      if role != Leader || a.term != term {
        return;
      }
      if t > term {
        role := Follower;
        term := t;
        votedFor := -1;
        Persist();
        return;
      }
      nextIndex := nextIndex[peer := a.index + 1];
      matchIndex := matchIndex[peer := a.index];
    }

    // ---------------------------------------------------------------- apply

    method Collect() returns (batch: seq<ApplyMsg>)
      requires Valid() && H.CollectInRange(View())
      modifies this`lastApplied
      ensures (View(), batch) == H.Collect(old(View()))
    {
      batch := [];
      if lastApplied < snapIndex {
        batch := [SnapshotMsg(snapIndex, snapshot)];
        lastApplied := snapIndex;
      } else if commitIndex > lastApplied {
        var first := lastApplied + 1;
        var toApply := log[first - snapIndex..commitIndex - snapIndex + 1];
        lastApplied := commitIndex;
        var k := 0;
        while k < |toApply|
          invariant 0 <= k <= |toApply| && |batch| == k
          invariant forall j :: 0 <= j < k ==> batch[j] == CommandMsg(first + j, toApply[j].item)
        {
          batch := batch + [CommandMsg(first + k, toApply[k].item)];
          k := k + 1;
        }
        ghost var want := H.Collect(old(View())).1;
        assert |want| == |batch|;
        forall j | 0 <= j < |batch|
          ensures batch[j] == want[j]
        {
          assert toApply[j] == H.At(log, first + j - snapIndex);
        }
        assert batch == want;
      }
    }
  }
}
