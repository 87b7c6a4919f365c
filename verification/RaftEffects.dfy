/** What each step of a run does, in terms of logical indices: the entries a
    peer holds, the messages it sends and the positions it moves to. The safety
    theorems say what never happens; these say what does. */
module RaftEffects {
  import opened KvMachine
  import opened RaftTypes
  import opened RaftHandlers
  import opened Cluster
  import opened History
  import opened Completeness
  import opened Compaction
  import opened FollowerSteps
  import opened LeaderSteps
  import opened ClusterSteps
  import opened ServiceSteps
  import opened Runs
  import opened RaftSafety

  /** Action `k` of a run is possible and leads to the next state. */
  lemma StepOf(r: Run, hs: seq<History>, k: int)
    requires IsRun(r) && Tracks(r, hs) && 0 <= k < |r.acts|
    ensures |r.ws| == |r.acts| + 1 && Shaped(r.ws[k]) && Enabled(r.ws[k], r.acts[k])
    ensures r.ws[k + 1] == Exec(r.ws[k], r.acts[k]) &&
      0 <= r.acts[k].i < r.n == |r.ws[k].servers| == |r.ws[k + 1].servers|
  {
    hide Inv, Exec, Enabled, Follows, Grows;
    TracksAt(r, hs, k);
    TracksAt(r, hs, k + 1);
    InvShaped(r.ws[k], hs[k]);
    assert Moves(r.ws[k], r.acts[k], r.ws[k + 1]);
    EnabledBasics(r.ws[k], r.acts[k]);
  }

  lemma PeerShape(r: Run, hs: seq<History>, k: int, i: int)
    requires IsRun(r) && Tracks(r, hs) && 0 <= k <= |r.acts| && 0 <= i < r.n
    ensures |hs| == |r.acts| + 1 && i < |hs[k].logs| && Represents(PeerAt(r, k, i), hs[k].logs[i])
    ensures CommitInv(hs[k], PeerAt(r, k, i), hs[k].logs[i])
    ensures var s := PeerAt(r, k, i); s.me == i && s.peers == r.n == |s.nextIndex| == |s.matchIndex|
  {
    hide IsRun, Tracks, HistoryInv, ServiceInv, AckerInv, VoterInv, ReignedInv, RunningInv, LeadingInv, LogInv,
      Represents,
      CommitInv, SavedInv;
    PeerFacts(r, hs, k, i);
  }

  /** What the persister holds is the peer's state. */
  predicate Saves(s: Node) {
    s.disk == Saved(s.log, s.term, s.votedFor, s.snapIndex, s.snapTerm, s.snapshot)
  }

  // ----------------------------------------------------------------- commit

  /** The largest index that a majority has reached. */
  ghost predicate LargestReached(ms: seq<int>, c: int) {
    IsQuorum(Reaching(ms, c), |ms|) && forall x :: x > c ==> !IsQuorum(Reaching(ms, x), |ms|)
  }

  lemma LargestIsMedian(ms: seq<int>, c: int)
    requires |ms| > 0
    ensures LargestReached(ms, c) <==> c == Median(ms)
  {
    hide Median, Reaching;
    forall x ensures IsQuorum(Reaching(ms, Median(ms)), |ms|) && (x > Median(ms) ==> !IsQuorum(Reaching(ms, x), |ms|)) {
      MedianIsMajority(ms, x);
    }
    assert c > Median(ms) ==> !IsQuorum(Reaching(ms, c), |ms|);
  }

  /** A success handled by the leader of its term raises the match index of the
      sender to what was sent, and moves the commit index to the largest index a
      majority has reached, if the entry there is of the leader's term and the
      index is not passed or compacted already. Nothing else changes. */
  lemma {:induction false} LeaderCommits(r: Run, k: int, peer: int, a: AppendArgs, reply: AppendReply, c: int)
    requires IsRun(r) && 0 <= k < |r.acts| && r.acts[k] == HandleAppendReply(a.leader, peer, a, reply)
    requires 0 <= a.leader < r.n && 0 <= peer < r.n && reply.success
    requires var s := PeerAt(r, k, a.leader); s.role == Leader && s.term == a.term && reply.term <= s.term
    requires LargestReached(PeerAt(r, k + 1, a.leader).matchIndex, c)
    ensures
      var s, s' := PeerAt(r, k, a.leader), PeerAt(r, k + 1, a.leader);
      |s.matchIndex| == r.n == |s.nextIndex| && s.me == a.leader &&
      var m := Max(s.matchIndex[peer], a.prev + |a.entries|);
      s' == s.(matchIndex := s.matchIndex[peer := m][s.me := LastIndex(s)], nextIndex := s.nextIndex[peer := m + 1],
               commitIndex := s'.commitIndex)
    ensures
      var s, s' := PeerAt(r, k, a.leader), PeerAt(r, k + 1, a.leader);
      s'.commitIndex == (if Holds(s, c) && EntryOf(s, c).term == s.term then Max(s.commitIndex, c) else s.commitIndex)
  {
    hide IsRun, Tracks, Median, Reaching, LargestReached;
    var hs := RunHistory(r);
    StepOf(r, hs, k);
    PeerShape(r, hs, k, a.leader);
    AnswerInRange(r, k, a.leader, peer, a, reply);
    var s := PeerAt(r, k, a.leader);
    var s1 := Acknowledged(s, peer, a.prev + |a.entries|);
    LargestIsMedian(s1.matchIndex, c);
    assert c <= LastIndex(s) by { MedianIsElement(s1.matchIndex); }
  }

  // -------------------------------------------------------------- elections

  /** The term of a peer's last entry, compacted or not. */
  function EndingTerm(s: Node): int {
    if Holds(s, LastIndex(s)) then EntryOf(s, LastIndex(s)).term else s.snapTerm
  }

  /** The first peer's log is at least as recent as the second's. */
  predicate AsRecent(x: Node, y: Node) {
    EndingTerm(x) > EndingTerm(y) || (EndingTerm(x) == EndingTerm(y) && LastIndex(x) >= LastIndex(y))
  }

  /** A timeout makes a peer a candidate of the next term with its own vote, all
      saved, one vote counted and a call to every other peer open. */
  lemma {:induction false} TimeoutStands(r: Run, k: int, i: int)
    requires IsRun(r) && 0 <= k < |r.acts| && r.acts[k] == Timeout(i) && 0 <= i < r.n
    ensures
      var s, s' := PeerAt(r, k, i), PeerAt(r, k + 1, i);
      s' == s.(term := s.term + 1, votedFor := i, role := Candidate, poll := Poll(1, Ids(r.n) - {i}),
        disk := s'.disk) &&
      Saves(s') &&
      r.ws[k + 1].net == r.ws[k].net + {VoteReq(VoteArgs(s.term + 1, i, LastIndex(s), EndingTerm(s)))}
  {
    hide IsRun, Tracks;
    var hs := RunHistory(r);
    StepOf(r, hs, k);
    PeerShape(r, hs, k, i);
  }

  /** Every vote request in the network was sent by a timeout of its candidate. */
  lemma {:induction false} RequestSent(r: Run, hs: seq<History>, k: int, v: VoteArgs) returns (j: int)
    requires IsRun(r) && Tracks(r, hs) && 0 <= k <= |r.acts| && |r.ws| == |r.acts| + 1 && VoteReq(v) in r.ws[k].net
    ensures 0 <= j < k && r.acts[j] == Timeout(v.candidate) && 0 <= v.candidate < r.n
    ensures v == VoteRequest(PeerAt(r, j + 1, v.candidate))
    decreases k
  {
    hide IsRun, Tracks;
    if k == 0 {
      NothingSent(r);
      assert false;
    } else {
      StepOf(r, hs, k - 1);
      if VoteReq(v) in r.ws[k - 1].net {
        j := RequestSent(r, hs, k - 1, v);
      } else {
        j := k - 1;
        NewRequest(r.ws[j], r.acts[j], v);
        PeerShape(r, hs, j, r.acts[j].i);
      }
    }
  }

  lemma NothingSent(r: Run)
    requires IsRun(r)
    ensures |r.ws| > 0 && r.ws[0].net == {}
  {
  }

  lemma NewRequest(w: World, a: Action, v: VoteArgs)
    requires Shaped(w) && Enabled(w, a) && VoteReq(v) in Exec(w, a).net && VoteReq(v) !in w.net
    ensures a.Timeout? && v == VoteRequest(Exec(w, a).servers[a.i].rf)
  {
  }

  /** A vote is granted if and only if the voter is in no later term, has not
      voted for another in this one, and the candidate's log when it stood was at
      least as recent as the voter's is now. The vote is saved before the answer;
      a refusal changes nothing but, after an older term, the term. */
  lemma {:induction false} VoteGrantedIff(r: Run, k: int, i: int, v: VoteArgs) returns (j: int, reply: VoteReply)
    requires IsRun(r) && 0 <= k < |r.acts| && r.acts[k] == HandleVote(i, v) && 0 <= i < r.n
    ensures 0 <= j < k && r.acts[j] == Timeout(v.candidate) && 0 <= v.candidate < r.n
    ensures PeerAt(r, j + 1, v.candidate).term == v.term
    ensures r.ws[k + 1].net == r.ws[k].net + {VoteRep(i, v.candidate, v.term, reply)}
    ensures
      var s := PeerAt(r, k, i);
      reply.term == s.term &&
      (reply.granted <==>
        s.term <= v.term && (s.term == v.term ==> s.votedFor == -1 || s.votedFor == v.candidate) &&
        AsRecent(PeerAt(r, j + 1, v.candidate), s))
    ensures
      var s, s' := PeerAt(r, k, i), PeerAt(r, k + 1, i);
      (reply.granted ==>
        s' == s.(term := v.term, votedFor := v.candidate, role := Follower, disk := s'.disk) && Saves(s')) &&
      (!reply.granted && s.term < v.term ==>
        s' == s.(term := v.term, votedFor := -1, role := Follower, disk := s'.disk) && Saves(s')) &&
      (!reply.granted && s.term >= v.term ==> s' == s)
  {
    hide IsRun, Tracks;
    var hs := RunHistory(r);
    StepOf(r, hs, k);
    PeerShape(r, hs, k, i);
    j := RequestSent(r, hs, k, v);
    PeerShape(r, hs, j + 1, v.candidate);
    EndingTermIs(PeerAt(r, k, i));
    EndingTermIs(PeerAt(r, j + 1, v.candidate));
    reply := RequestVote(PeerAt(r, k, i), v).1;
  }

  lemma EndingTermIs(s: Node)
    requires |s.log| >= 1 && 0 <= s.snapIndex
    ensures LastTerm(s) == EndingTerm(s)
  {
  }

  /** An answer counts once, for the election it belongs to. The candidate is
      leader exactly when a majority of the cluster, itself included, has been
      counted, and then expects nothing of the others' logs. */
  lemma {:induction false} VoteCounted(r: Run, k: int, i: int, peer: int, t: int, vr: VoteReply)
    requires IsRun(r) && 0 <= k < |r.acts| && r.acts[k] == HandleVoteReply(i, peer, t, vr) && 0 <= i < r.n
    ensures
      var s, s' := PeerAt(r, k, i), PeerAt(r, k + 1, i);
      if vr.term > s.term then
        s' == s.(term := vr.term, votedFor := -1, role := Follower, disk := s'.disk) && Saves(s')
      else if s.term != t || s.role != Candidate then s' == s
      else
        peer in s.poll.waiting &&
        s'.poll == Poll(s.poll.votes + (if vr.granted then 1 else 0), s.poll.waiting - {peer}) &&
        (s'.role == Leader <==> 2 * s'.poll.votes > r.n) &&
        (s'.role != Leader ==> s' == s.(poll := s'.poll)) &&
        (s'.role == Leader ==>
          s' == s.(role := Leader, poll := s'.poll, nextIndex := s'.nextIndex, matchIndex := s'.matchIndex,
            disk := s'.disk) &&
          Saves(s') && |s'.nextIndex| == r.n == |s'.matchIndex| &&
          forall p :: 0 <= p < r.n ==>
            s'.nextIndex[p] == LastIndex(s) + 1 && s'.matchIndex[p] == (if p == i then LastIndex(s) else 0))
  {
    hide IsRun, Tracks;
    var hs := RunHistory(r);
    StepOf(r, hs, k);
    PeerShape(r, hs, k, i);
  }

  // ------------------------------------------------------------ replication

  /** A leader sends a peer that is behind its snapshot the snapshot, and any
      other peer every entry from the next index on, with the term before it. */
  lemma {:induction false} LeaderSends(r: Run, k: int, i: int, peer: int) returns (m: Msg)
    requires IsRun(r) && 0 <= k < |r.acts| && r.acts[k] == SendTo(i, peer) && 0 <= i < r.n
    ensures r.ws[k + 1] == r.ws[k].(net := r.ws[k].net + {m})
    ensures
      var s := PeerAt(r, k, i);
      0 <= peer < |s.nextIndex| &&
      var next := s.nextIndex[peer];
      if next <= s.snapIndex then m == SnapReq(peer, SnapArgs(s.term, i, s.snapIndex, s.snapTerm, s.snapshot))
      else
        m.AppendReq? && m.to == peer && m.a.term == s.term && m.a.leader == i && m.a.prev == next - 1 &&
        m.a.commit == s.commitIndex && |m.a.entries| == LastIndex(s) - m.a.prev &&
        (forall x :: next <= x <= LastIndex(s) ==> Holds(s, x) && m.a.entries[x - next] == EntryOf(s, x)) &&
        (Holds(s, next - 1) ==> m.a.prevTerm == EntryOf(s, next - 1).term) &&
        (next - 1 == s.snapIndex > 0 ==> m.a.prevTerm == s.snapTerm)
  {
    hide IsRun, Tracks;
    var hs := RunHistory(r);
    StepOf(r, hs, k);
    PeerShape(r, hs, k, i);
    IndicesInRange(r, k, i);
    var s := PeerAt(r, k, i);
    m := if NeedsSnapshot(s, peer) then SnapReq(peer, SnapshotRequest(s)) else AppendReq(peer, AppendRequest(s, peer));
    SameServers(r.ws[k], i);
  }

  lemma SameServers(w: World, i: int)
    requires 0 <= i < |w.servers|
    ensures w.servers[i := w.servers[i].(rf := w.servers[i].rf)] == w.servers
  {
  }

  /** A leader that is given a command appends it in its own term and saves it,
      and the submitter waits at its index; any other peer does nothing. */
  lemma {:induction false} CommandAppended(r: Run, k: int, i: int, op: Op)
    requires IsRun(r) && 0 <= k < |r.acts| && r.acts[k] == Submit(i, op) && 0 <= i < r.n
    ensures
      var s, s' := PeerAt(r, k, i), PeerAt(r, k + 1, i);
      if s.role != Leader then ServerAt(r, k + 1, i) == ServerAt(r, k, i) && r.ws[k + 1].slots == r.ws[k].slots
      else
        ServerAt(r, k + 1, i).db == ServerAt(r, k, i).db[LastIndex(s') := op] &&
        s' == s.(log := s'.log, disk := s'.disk) && Saves(s') && LastIndex(s') == LastIndex(s) + 1 &&
        Holds(s', LastIndex(s')) && EntryOf(s', LastIndex(s')) == Entry(s.term, Cmd(op)) &&
        r.ws[k + 1].slots == r.ws[k].slots[op.id := LastIndex(s')] &&
        forall x :: Holds(s, x) ==> Holds(s', x) && EntryOf(s', x) == EntryOf(s, x)
  {
    hide IsRun, Tracks;
    var hs := RunHistory(r);
    StepOf(r, hs, k);
    PeerShape(r, hs, k, i);
  }

  /** The request fits the peer's log: not from an older term, not below the
      snapshot, not beyond the end, and no other term at the index before. */
  predicate Fits(s: Node, a: AppendArgs) {
    s.term <= a.term && s.snapIndex <= a.prev <= LastIndex(s) &&
    (Holds(s, a.prev) ==> EntryOf(s, a.prev).term == a.prevTerm)
  }

  /** An append request succeeds if and only if it fits. Otherwise the hint is
      none below the snapshot, the end of the log beyond it, and else the term at
      the index with the first index of that term; only the term may change, and
      without being saved. */
  lemma {:induction false} AppendAnswered(r: Run, k: int, i: int, a: AppendArgs) returns (reply: AppendReply)
    requires IsRun(r) && 0 <= k < |r.acts| && r.acts[k] == HandleAppend(i, a) && 0 <= i < r.n
    ensures r.ws[k + 1].net == r.ws[k].net + {AppendRep(i, a, reply)}
    ensures reply.term == Max(PeerAt(r, k, i).term, a.term) && (reply.success <==> Fits(PeerAt(r, k, i), a))
    ensures
      var s := PeerAt(r, k, i);
      !reply.success && s.term <= a.term ==>
        if a.prev < s.snapIndex then reply.xTerm == 0 == reply.xIndex
        else if a.prev > LastIndex(s) then reply.xTerm == -1 && reply.xLen == LastIndex(s) + 1
        else
          Holds(s, a.prev) && reply.xTerm == EntryOf(s, a.prev).term && reply.xIndex <= a.prev &&
          Holds(s, reply.xIndex) && EntryOf(s, reply.xIndex).term == reply.xTerm &&
          forall x :: x < reply.xIndex && Holds(s, x) ==> EntryOf(s, x).term != reply.xTerm
    ensures
      var s, s' := PeerAt(r, k, i), PeerAt(r, k + 1, i);
      !reply.success ==>
        s' == if s.term < a.term then s.(term := a.term, votedFor := -1, role := Follower) else s
  {
    hide IsRun, Tracks, FirstFrom, Merge;
    var hs := RunHistory(r);
    StepOf(r, hs, k);
    PeerShape(r, hs, k, i);
    reply := AppendEntries(PeerAt(r, k, i), a).1;
  }

  /** The log has an entry of the sent term where entry `e` of the request goes. */
  predicate HasAt(s: Node, a: AppendArgs, e: int)
    requires 0 <= e < |a.entries|
  {
    Holds(s, a.prev + 1 + e) && EntryOf(s, a.prev + 1 + e).term == a.entries[e].term
  }

  predicate HasAll(s: Node, a: AppendArgs) {
    forall e :: 0 <= e < |a.entries| ==> HasAt(s, a, e)
  }

  /** Entry `e` of the request is in its place. */
  predicate InPlace(s: Node, a: AppendArgs, e: int)
    requires 0 <= e < |a.entries|
  {
    Holds(s, a.prev + 1 + e) && EntryOf(s, a.prev + 1 + e) == a.entries[e]
  }

  lemma {:induction false} MergeLength(log: seq<Entry>, at: nat, es: seq<Entry>)
    requires at <= |log|
    ensures
      var all := at + |es| <= |log| && forall e :: 0 <= e < |es| ==> log[at + e].term == es[e].term;
      (all ==> Merge(log, at, es) == log) && (!all ==> |Merge(log, at, es)| == at + |es|)
    decreases |es|
  {
    if es != [] && at < |log| && es[0].term == log[at].term {
      var rest := es[1..];
      MergeLength(log, at + 1, rest);
      if at + |es| <= |log| && forall e :: 0 <= e < |rest| ==> log[at + 1 + e].term == rest[e].term {
        forall e | 0 <= e < |es| ensures log[at + e].term == es[e].term {
          if e > 0 {
            assert log[at + 1 + (e - 1)].term == rest[e - 1].term;
          }
        }
      } else if at + |es| <= |log| {
        var e :| 0 <= e < |rest| && log[at + 1 + e].term != rest[e].term;
        assert log[at + (e + 1)].term != es[e + 1].term;
      }
    }
  }

  lemma AcceptedState(s: Node, a: AppendArgs)
    requires Accepts(s, a)
    ensures
      var s' := AppendEntries(s, a).0;
      AppendEntries(s, a).1.success && Saves(s') && s'.log == Merge(s.log, a.prev - s.snapIndex + 1, a.entries) &&
      s' == s.(term := a.term, votedFor := if s.term < a.term then -1 else s.votedFor,
               role := if s.term < a.term then Follower else s.role,
               log := s'.log, commitIndex := s'.commitIndex, disk := s'.disk)
  {
    hide Merge;
  }

  lemma FitsIsAccepts(s: Node, a: AppendArgs)
    requires |s.log| >= 1 && 0 <= s.snapIndex
    ensures Fits(s, a) <==> Accepts(s, a)
  {
  }

  /** A request that fits leaves every sent entry in the log and every entry
      before them as it was, all saved. A log that had them all is not touched,
      and any other ends with the last one sent. */
  lemma {:induction false} AppendAccepted(r: Run, k: int, i: int, a: AppendArgs)
    requires IsRun(r) && 0 <= k < |r.acts| && r.acts[k] == HandleAppend(i, a) && 0 <= i < r.n &&
      Fits(PeerAt(r, k, i), a)
    ensures
      var s, s' := PeerAt(r, k, i), PeerAt(r, k + 1, i);
      Saves(s') &&
      s' == s.(term := a.term, votedFor := if s.term < a.term then -1 else s.votedFor,
               role := if s.term < a.term then Follower else s.role,
               log := s'.log, commitIndex := s'.commitIndex, disk := s'.disk)
    ensures
      var s, s' := PeerAt(r, k, i), PeerAt(r, k + 1, i);
      if HasAll(s, a) then s'.log == s.log else LastIndex(s') == a.prev + |a.entries|
    ensures
      var s, s' := PeerAt(r, k, i), PeerAt(r, k + 1, i);
      (forall e :: 0 <= e < |a.entries| ==> InPlace(s', a, e)) &&
      (forall x :: x <= a.prev && Holds(s, x) ==> Holds(s', x) && EntryOf(s', x) == EntryOf(s, x)) &&
      s'.commitIndex == Max(s.commitIndex, a.commit)
  {
    hide IsRun, Tracks, Merge, HistoryInv, NodeInv, ServiceInv, Represents, AppendEntries, Holds, EntryOf, Accepts;
    var hs := RunHistory(r);
    StepOf(r, hs, k);
    PeerFacts(r, hs, k, i);
    PeerShape(r, hs, k, i);
    var s, f, h := PeerAt(r, k, i), hs[k].logs[i], hs[k];
    var s' := PeerAt(r, k + 1, i);
    AcceptedStep(r.ws[k], i, a);
    RepresentsBasics(s, f);
    FitsIsAccepts(s, a);
    AcceptedState(s, a);
    MessageFacts(r, hs, k, AppendReq(i, a));
    AcceptedEntries(h, r.n, i, s, f, a);
    AcceptedLength(s, a);
  }

  lemma AcceptedStep(w: World, i: int, a: AppendArgs)
    requires Shaped(w) && Enabled(w, HandleAppend(i, a))
    ensures Exec(w, HandleAppend(i, a)).servers[i].rf == AppendEntries(w.servers[i].rf, a).0
    ensures AppendReq(i, a) in w.net
  {
  }

  lemma RepresentsBasics(s: Node, f: seq<Entry>)
    requires Represents(s, f)
    ensures |s.log| >= 1 && 0 <= s.snapIndex
  {
  }

  lemma AcceptedLength(s: Node, a: AppendArgs)
    requires |s.log| >= 1 && 0 <= s.snapIndex && Accepts(s, a)
    ensures var s' := AppendEntries(s, a).0;
            if HasAll(s, a) then s'.log == s.log else LastIndex(s') == a.prev + |a.entries|
  {
    hide Merge;
    var at := a.prev - s.snapIndex + 1;
    AcceptedState(s, a);
    MergeLength(s.log, at, a.entries);
    HasAllIs(s, a);
  }

  lemma HasAllIs(s: Node, a: AppendArgs)
    requires |s.log| >= 1 && 0 <= s.snapIndex <= a.prev <= LastIndex(s)
    ensures
      var at := a.prev - s.snapIndex + 1;
      HasAll(s, a) <==>
      at + |a.entries| <= |s.log| && forall e :: 0 <= e < |a.entries| ==> s.log[at + e].term == a.entries[e].term
  {
    var at := a.prev - s.snapIndex + 1;
    if HasAll(s, a) {
      forall e | 0 <= e < |a.entries| ensures at + e < |s.log| && s.log[at + e].term == a.entries[e].term {
        assert HasAt(s, a, e);
      }
      assert a.entries != [] ==> HasAt(s, a, |a.entries| - 1);
    } else if at + |a.entries| <= |s.log| {
      var e :| 0 <= e < |a.entries| && !HasAt(s, a, e);
      assert s.log[at + e].term != a.entries[e].term;
    }
  }

  /** Sent entries are found in a log that has the leader's prefix. */
  lemma SentHeld(s: Node, f: seq<Entry>, l: seq<Entry>, a: AppendArgs, e: int)
    requires Represents(s, f) && s.snapIndex <= a.prev && a.prev >= 0 && 0 <= e < |a.entries|
    requires a.prev + |a.entries| <= |l| && a.entries == l[a.prev..a.prev + |a.entries|]
    requires l[..a.prev + |a.entries|] <= f
    ensures InPlace(s, a, e)
  {
    hide Represents, Holds, EntryOf;
    HoldsIs(s, f, a.prev + 1 + e);
    assert l[..a.prev + |a.entries|][a.prev + e] == f[a.prev + e];
  }

  /** Two logs that share a prefix hold the same entries in it. */
  lemma PrefixHeld(s: Node, f: seq<Entry>, s': Node, f': seq<Entry>, p: int, x: int)
    requires Represents(s, f) && Represents(s', f') && s'.snapIndex == s.snapIndex
    requires 0 <= p <= |f| && p <= |f'| && f[..p] == f'[..p] && x <= p && Holds(s, x)
    ensures Holds(s', x) && EntryOf(s', x) == EntryOf(s, x)
  {
    hide Represents, Holds, EntryOf;
    HoldsIs(s, f, x);
    HoldsIs(s', f', x);
    assert f[..p][x - 1] == f'[..p][x - 1];
  }

  lemma {:induction false} AcceptedEntries(h: History, n: int, i: int, s: Node, f: seq<Entry>, a: AppendArgs)
    requires n >= 0 && HistoryInv(h, n) && NodeInv(h, n, i, s, f) && AppendReqInv(h, n, a) && Accepts(s, a)
    ensures
      var s' := AppendEntries(s, a).0;
      (forall e :: 0 <= e < |a.entries| ==> InPlace(s', a, e)) &&
      (forall x :: x <= a.prev && Holds(s, x) ==> Holds(s', x) && EntryOf(s', x) == EntryOf(s, x)) &&
      s'.commitIndex == Max(s.commitIndex, a.commit) && s.snapIndex <= a.prev
  {
    hide HistoryInv, Committed, ValidLog, Ordered, AckerInv, VoterInv, ReignedInv, LeadingInv, RunningInv, SavedInv,
      AppendEntries, Holds, EntryOf, Represents, Adopt, Merge, LogInv, CommitInv;
    var l, m := h.reigns[a.term].log, a.prev + |a.entries|;
    var s', f' := AppendEntries(s, a).0, Adopt(f, l[..m]);
    AcceptedLog(h, n, i, s, f, a);
    AcceptedState(s, a);
    AcceptedPointMatches(h, n, i, s, f, a);
    AdoptHolds(f, l[..m]);
    forall e | 0 <= e < |a.entries|
      ensures InPlace(s', a, e)
    {
      SentHeld(s', f', l, a, e);
    }
    assert f[..a.prev] == f'[..a.prev] by {
      assert l[..m][..a.prev] == l[..a.prev] && f'[..m] == l[..m] && f'[..m][..a.prev] == f'[..a.prev];
    }
    forall x | x <= a.prev && Holds(s, x)
      ensures Holds(s', x) && EntryOf(s', x) == EntryOf(s, x)
    {
      PrefixHeld(s, f, s', f', a.prev, x);
    }
  }

  /** The last index at which the peer holds an entry of this term. */
  ghost predicate LastHeld(s: Node, x: int, term: int) {
    Holds(s, x) && EntryOf(s, x).term == term && forall y :: y > x && Holds(s, y) ==> EntryOf(s, y).term != term
  }

  /** After a rejection the leader of the same term resumes at the end of a short
      log, after its own last entry of the conflicting term if it holds one, and
      otherwise at the first index of that term, or at 1 without a hint. */
  lemma {:induction false} LeaderBacksUp(r: Run, k: int, peer: int, a: AppendArgs, reply: AppendReply)
    requires IsRun(r) && 0 <= k < |r.acts| && r.acts[k] == HandleAppendReply(a.leader, peer, a, reply)
    requires 0 <= a.leader < r.n && 0 <= peer < r.n && !reply.success
    requires var s := PeerAt(r, k, a.leader); s.role == Leader && s.term == a.term && reply.term <= s.term
    ensures
      var s, s' := PeerAt(r, k, a.leader), PeerAt(r, k + 1, a.leader);
      |s.nextIndex| == r.n == |s'.nextIndex| &&
      var next := s'.nextIndex[peer];
      s' == s.(nextIndex := s.nextIndex[peer := next]) &&
      if reply.xTerm == -1 then next == reply.xLen
      else if exists x :: Holds(s, x) && EntryOf(s, x).term == reply.xTerm then LastHeld(s, next - 1, reply.xTerm)
      else next == if reply.xIndex != 0 then reply.xIndex else 1
  {
    hide IsRun, Tracks, FirstFrom, LastBefore;
    var hs := RunHistory(r);
    StepOf(r, hs, k);
    PeerShape(r, hs, k, a.leader);
    var s := PeerAt(r, k, a.leader);
    TermHeld(s, reply.xTerm);
  }

  lemma TermHeld(s: Node, term: int)
    requires |s.log| >= 1 && 0 <= s.snapIndex
    ensures (exists x :: Holds(s, x) && EntryOf(s, x).term == term) <==> FirstOfTerm(s, term) != -1
    ensures
      var j := LastBefore(s.log, |s.log|, term);
      (FirstOfTerm(s, term) != -1 <==> j != -1) && (j != -1 ==> LastHeld(s, s.snapIndex + j, term))
  {
    hide FirstFrom, LastBefore;
    var i, j := FirstFrom(s.log, 1, term), LastBefore(s.log, |s.log|, term);
    if i != -1 {
      assert Holds(s, s.snapIndex + i) && EntryOf(s, s.snapIndex + i).term == term;
    }
    if x :| Holds(s, x) && EntryOf(s, x).term == term {
      assert s.log[x - s.snapIndex].term == term;
    }
  }

  /** A leader or not, a peer that is told of a higher term in an answer follows
      it, with no vote, and saves that; an answer to an older call is ignored. */
  lemma {:induction false} AnswerOfOtherTerm(r: Run, k: int, peer: int, a: AppendArgs, reply: AppendReply)
    requires IsRun(r) && 0 <= k < |r.acts| && r.acts[k] == HandleAppendReply(a.leader, peer, a, reply)
    requires 0 <= a.leader < r.n
    ensures
      var s, s' := PeerAt(r, k, a.leader), PeerAt(r, k + 1, a.leader);
      (s.role != Leader || s.term != a.term ==> s' == s) &&
      (s.role == Leader && s.term == a.term < reply.term ==>
        s' == s.(term := reply.term, votedFor := -1, role := Follower, disk := s'.disk) && Saves(s'))
  {
    hide IsRun, Tracks;
    var hs := RunHistory(r);
    StepOf(r, hs, k);
    PeerShape(r, hs, k, a.leader);
  }

  // -------------------------------------------------------------- snapshots

  /** A snapshot at the machine's position compacts exactly up to there: the end
      of the log, every entry above and every position stay, and it is saved with
      the term of the last entry it covers. */
  lemma {:induction false} SnapshotTaken(r: Run, k: int, i: int)
    requires IsRun(r) && 0 <= k < |r.acts| && r.acts[k] == TakeSnapshot(i) && 0 <= i < r.n
    ensures
      var s, s', p := PeerAt(r, k, i), PeerAt(r, k + 1, i), ServerAt(r, k, i).applied;
      if p <= s.snapIndex then s' == s
      else
        Holds(s, p) && Saves(s') &&
        s' == s.(log := s'.log, snapIndex := p, snapTerm := EntryOf(s, p).term, snapshot := Image(ServerAt(r, k, i).kv),
                 disk := s'.disk) &&
        LastIndex(s') == LastIndex(s) && forall x :: Holds(s, x) && x > p ==>
            Holds(s', x) && EntryOf(s', x) == EntryOf(s, x)
  {
    hide IsRun, Tracks, HistoryInv, NodeInv, BatchInv, StateAt;
    var hs := RunHistory(r);
    StepOf(r, hs, k);
    PeerShape(r, hs, k, i);
    PeerFacts(r, hs, k, i);
    IndicesInRange(r, k, i);
  }

  /** The peer holds, or has compacted exactly up to, an entry of this term at
      this index. */
  predicate Knows(s: Node, x: int, term: int) {
    (Holds(s, x) && EntryOf(s, x).term == term) || (x == s.snapIndex && term == s.snapTerm)
  }

  /** A snapshot that is neither old nor from an older term replaces the log up
      to its index. The entries above stay if and only if the peer had the
      snapshot's last entry. The positions it moves are the snapshot's and, if
      behind, the commit index; the machine is reset only by a later delivery. */
  lemma {:induction false} SnapshotInstalled(r: Run, k: int, i: int, sn: SnapArgs)
    requires IsRun(r) && 0 <= k < |r.acts| && r.acts[k] == HandleSnapshot(i, sn) && 0 <= i < r.n
    ensures
      var s, s' := PeerAt(r, k, i), PeerAt(r, k + 1, i);
      if sn.term < s.term || sn.index < s.snapIndex then
        s' == s && r.ws[k + 1].net == r.ws[k].net + {SnapRep(i, sn, s.term)}
      else
        r.ws[k + 1].net == r.ws[k].net + {SnapRep(i, sn, 0)} && Saves(s') &&
        s' == s.(term := sn.term, votedFor := if s.term < sn.term then -1 else s.votedFor, role := Follower,
                 log := s'.log, snapIndex := sn.index, snapTerm := sn.snapTerm, snapshot := sn.image,
                 commitIndex := Max(s.commitIndex, sn.index), disk := s'.disk) &&
        if Knows(s, sn.index, sn.snapTerm) then
          LastIndex(s') == LastIndex(s) &&
          forall x :: Holds(s, x) && x > sn.index ==> Holds(s', x) && EntryOf(s', x) == EntryOf(s, x)
        else LastIndex(s') == sn.index
  {
    hide IsRun, Tracks, StateAt;
    var hs := RunHistory(r);
    StepOf(r, hs, k);
    PeerShape(r, hs, k, i);
    SnapshotSent(r, hs, k, i, sn);
  }

  lemma SnapshotSent(r: Run, hs: seq<History>, k: int, i: int, sn: SnapArgs)
    requires IsRun(r) && Tracks(r, hs) && 0 <= k < |r.acts| && SnapReq(i, sn) in r.ws[k].net
    ensures sn.index >= 1
  {
    hide IsRun, Tracks, HistoryInv, StateAt, Committed;
    MessageFacts(r, hs, k, SnapReq(i, sn));
  }

  /** The leader of the same term then takes the peer to have the snapshot and
      nothing more, even if it had been further. */
  lemma {:induction false} SnapshotAnswered(r: Run, k: int, peer: int, sn: SnapArgs, t: int)
    requires IsRun(r) && 0 <= k < |r.acts| && r.acts[k] == HandleSnapshotReply(sn.leader, peer, sn, t)
    requires 0 <= sn.leader < r.n
    ensures
      var s, s' := PeerAt(r, k, sn.leader), PeerAt(r, k + 1, sn.leader);
      0 <= peer < |s.nextIndex| == |s.matchIndex| &&
      s' == if s.role != Leader || s.term != sn.term then s
            else if t > s.term then s.(term := t, votedFor := -1, role := Follower, disk := s'.disk)
            else s.(nextIndex := s.nextIndex[peer := sn.index + 1], matchIndex := s.matchIndex[peer := sn.index])
    ensures PeerAt(r, k, sn.leader).term < PeerAt(r, k + 1, sn.leader).term ==> Saves(PeerAt(r, k + 1, sn.leader))
  {
    hide IsRun, Tracks;
    var hs := RunHistory(r);
    StepOf(r, hs, k);
    PeerShape(r, hs, k, sn.leader);
  }

  // ------------------------------------------------------ applying, restarting

  /** The next batch is the snapshot if the peer is behind it, and otherwise every
      command up to the commit index, in order. */
  lemma {:induction false} BatchCollected(r: Run, k: int, i: int)
    requires IsRun(r) && 0 <= k < |r.acts| && r.acts[k] == CollectBatch(i) && 0 <= i < r.n
    ensures
      var s, s', b := PeerAt(r, k, i), PeerAt(r, k + 1, i), ServerAt(r, k + 1, i).batch;
      if s.lastApplied < s.snapIndex then
        s' == s.(lastApplied := s.snapIndex) && b == [SnapshotMsg(s.snapIndex, s.snapshot)]
      else
        s' == s.(lastApplied := s.commitIndex) && |b| == s.commitIndex - s.lastApplied &&
        forall x :: s.lastApplied < x <= s.commitIndex ==>
          Holds(s, x) && b[x - s.lastApplied - 1] == CommandMsg(x, EntryOf(s, x).item)
  {
    hide IsRun, Tracks;
    var hs := RunHistory(r);
    StepOf(r, hs, k);
    PeerShape(r, hs, k, i);
    IndicesInRange(r, k, i);
    var s, b := PeerAt(r, k, i), ServerAt(r, k + 1, i).batch;
    if s.lastApplied >= s.snapIndex {
      forall x | s.lastApplied < x <= s.commitIndex
        ensures Holds(s, x) && b[x - s.lastApplied - 1] == CommandMsg(x, EntryOf(s, x).item)
      {
        var j := x - s.lastApplied - 1;
        assert b[j] == CommandMsg(s.lastApplied + 1 + j, At(s.log, s.lastApplied + 1 + j - s.snapIndex).item);
      }
    }
  }

  /** A crash right after a higher term was saved restarts in that term, with no
      vote cast in it. */
  lemma {:induction false} RestartedInTerm(r: Run, k: int, i: int, t: int)
    requires IsRun(r) && 0 <= k < |r.acts| && r.acts[k] == CrashAfterTerm(i, t) && 0 <= i < r.n
    ensures
      var s, s' := PeerAt(r, k, i), PeerAt(r, k + 1, i);
      s.term < t && s'.role == Follower && s'.term == t && s'.votedFor == -1 && s'.log == s.log && Saves(s') &&
      s'.snapIndex == s.snapIndex == s'.commitIndex == s'.lastApplied && s'.snapTerm == s.snapTerm &&
      s'.snapshot == s.snapshot
  {
    hide IsRun, Tracks;
    var hs := RunHistory(r);
    StepOf(r, hs, k);
    PeerShape(r, hs, k, i);
  }

  /** A restarted server is a follower in the saved term with the saved vote, log
      and snapshot, stands at its snapshot, and waits for nobody. */
  lemma {:induction false} Restarted(r: Run, k: int, i: int)
    requires IsRun(r) && 0 <= k < |r.acts| && r.acts[k] == Crash(i) && 0 <= i < r.n
    ensures
      var s, s', d := PeerAt(r, k, i), PeerAt(r, k + 1, i), Recovered(PeerAt(r, k, i).disk);
      s'.role == Follower && s'.term == d.term && s'.votedFor == d.votedFor && s'.log == s.log && s'.disk == s.disk &&
      s'.snapIndex == s.snapIndex == s'.commitIndex == s'.lastApplied && s'.snapTerm == s.snapTerm &&
      s'.snapshot == s.snapshot
    ensures
      var v := ServerAt(r, k + 1, i);
      v.batch == [] && v.db == map[] && v.applied == 0
  {
    hide IsRun, Tracks;
    var hs := RunHistory(r);
    StepOf(r, hs, k);
    PeerShape(r, hs, k, i);
    IndicesInRange(r, k, i);
  }
}
