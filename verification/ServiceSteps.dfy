/** The steps between a peer and its service: submitting, applying,
    compacting, and crashing. */
module ServiceSteps {
  import opened KvMachine
  import opened RaftTypes
  import opened RaftHandlers
  import opened Cluster
  import opened History
  import opened Completeness
  import opened Growth
  import opened Compaction
  import opened FollowerSteps
  import opened ElectionSteps
  import opened LeaderSteps
  import opened ClusterSteps

  // ------------------------------------------------------------- submitting

  lemma {:induction false} SubmitStep(w: World, h: History, i: int, op: Op) returns (h': History)
    requires Inv(w, h) && Shaped(w) && Enabled(w, Submit(i, op))
    ensures Grows(h, h') && Inv(Exec(w, Submit(i, op)), h')
    ensures w.servers[i].rf.role != Leader ==> h' == h
    ensures w.servers[i].rf.role == Leader ==>
              i < |h.logs| && w.servers[i].rf.term in h.reigns && h.reigns[w.servers[i].rf.term].log == h.logs[i] &&
              |h.logs[i]| == LastIndex(w.servers[i].rf) &&
              h' == Appended(h, i, w.servers[i].rf.term, Entry(w.servers[i].rf.term, Cmd(op)))
  {
    hide HistoryInv, NodeInv, ServiceInv, MsgInv;
    var n, s := |w.servers|, w.servers[i];
    var w' := Exec(w, Submit(i, op));
    h' := h;
    if s.rf.role == Leader {
      Facts(w, h, i);
      var f := h.logs[i];
      var e := Entry(s.rf.term, Cmd(op));
      LeaderFacts(h, n, i, s.rf, f, i);
      LastTermIs(s.rf, f);
      StartNode(h, n, i, s.rf, f, Cmd(op));
      h' := Appended(h, i, s.rf.term, e);
      NodeCommit(h, n, i, s.rf, f);
      assert (f + [e])[..|f|] == f[..|f|];
      ServiceKept(s, Start(s.rf, Cmd(op)), f, f + [e], h.pos[i], |f|);
      var sv := w'.servers[i];
      SameService(s.(rf := sv.rf), sv, f + [e], h.pos[i]);
      StepInv(w, h, w', h', i, sv);
    }
  }

  /** The waiting submitters do not matter to the machine. */
  lemma SameService(s: Server, t: Server, f: seq<Entry>, p: int)
    requires ServiceInv(s, f, p) && t == s.(db := t.db)
    ensures ServiceInv(t, f, p)
  {
  }

  lemma {:induction false} GiveUpStep(w: World, h: History, i: int, index: int)
    requires Inv(w, h) && Shaped(w) && Enabled(w, GiveUp(i, index))
    ensures Inv(Exec(w, GiveUp(i, index)), h)
  {
    hide HistoryInv, NodeInv, ServiceInv, MsgInv;
    var w' := Exec(w, GiveUp(i, index));
    Facts(w, h, i);
    SameService(w.servers[i], w'.servers[i], h.logs[i], h.pos[i]);
    NoGrowth(h, i);
    StepInv(w, h, w', h, i, w'.servers[i]);
  }

  // --------------------------------------------------------------- applying

  lemma AppliedNode(h: History, n: int, i: int, s: Node, f: seq<Entry>, k: int)
    requires NodeInv(h, n, i, s, f) && 0 <= k <= s.commitIndex
    ensures NodeInv(h, n, i, s.(lastApplied := k), f)
  {
    hide AckerInv, LogInv, VoterInv, ReignedInv, Committed, MatchInv, ValidLog;
    if s.role == Candidate {
      var g :| Tally(h, i, s, g);
      assert Tally(h, i, s.(lastApplied := k), g);
    }
  }

  /** A batch taken off the log continues the stream where the machine stands. */
  lemma CollectedService(s: Server, f: seq<Entry>, p: int)
    requires ServiceInv(s, f, p) && s.batch == [] && Represents(s.rf, f)
    requires s.rf.snapIndex <= s.rf.commitIndex <= |f| && s.rf.lastApplied <= s.rf.commitIndex
    ensures var (rf, msgs) := Collect(s.rf); ServiceInv(s.(rf := rf, batch := msgs), f, p)
  {
    var k := s.rf.lastApplied;
    if s.rf.snapIndex <= k < s.rf.commitIndex {
      forall j | 0 <= j < s.rf.commitIndex - k
        ensures Collect(s.rf).1[j] == CommandMsg(k + 1 + j, f[k + j].item)
      {
        EntryAt(s.rf, f, k + 1 + j);
        assert At(s.rf.log, k + 1 + j - s.rf.snapIndex) == f[k + j];
      }
    }
  }

  lemma {:induction false} CollectStep(w: World, h: History, i: int)
    requires Inv(w, h) && Shaped(w) && Enabled(w, CollectBatch(i))
    ensures Inv(Exec(w, CollectBatch(i)), h)
  {
    hide HistoryInv, ServiceInv, MsgInv, AckerInv, LogInv, VoterInv, ReignedInv, Committed, LeadingInv, RunningInv,
      Represents;
    var n, s := |w.servers|, w.servers[i];
    var w' := Exec(w, CollectBatch(i));
    Facts(w, h, i);
    CollectedService(s, h.logs[i], h.pos[i]);
    AppliedNode(h, n, i, s.rf, h.logs[i], Collect(s.rf).0.lastApplied);
    assert Collect(s.rf).0 == s.rf.(lastApplied := Collect(s.rf).0.lastApplied);
    NoGrowth(h, i);
    StepInv(w, h, w', h, i, w'.servers[i]);
  }

  /** The machine's position after the next message. */
  function NextPos(s: Server, p: int): int
    requires s.batch != []
  {
    if s.batch[0].SnapshotMsg? then s.batch[0].index else p + 1
  }

  lemma StateNext(f: seq<Entry>, p: int)
    requires 0 <= p < |f|
    ensures StateAt(f, p + 1) == Step(StateAt(f, p), f[p].item)
  {
    assert f[..p + 1][..p] == f[..p];
  }

  lemma DeliveredCommand(s: Server, f: seq<Entry>, p: int)
    requires ServiceInv(s, f, p) && s.batch != [] && s.batch[0].CommandMsg?
    ensures ServiceInv(Read(s), f, p + 1) && p + 1 <= s.rf.lastApplied && s.batch[0] == CommandMsg(p + 1, f[p].item)
  {
    hide Fold, Items, StateAt;
    StateNext(f, p);
    forall j | 0 <= j < |s.batch[1..]|
      ensures s.batch[1..][j] == CommandMsg(p + 2 + j, f[p + 1 + j].item)
    {
      assert s.batch[1..][j] == s.batch[j + 1];
    }
  }

  lemma DeliveredSnapshot(s: Server, f: seq<Entry>, p: int)
    requires ServiceInv(s, f, p) && s.batch != [] && s.batch[0].SnapshotMsg?
    ensures ServiceInv(Read(s), f, s.batch[0].index) && p < s.batch[0].index <= s.rf.lastApplied
    ensures s.batch[0].image == Image(StateAt(f, s.batch[0].index))
  {
    hide Fold, Items, StateAt;
  }

  /** Delivering a message moves the machine exactly one command on, or to the
      state of a snapshot strictly ahead. */
  lemma {:induction false} DeliveredService(s: Server, f: seq<Entry>, p: int)
    requires ServiceInv(s, f, p) && s.batch != []
    ensures ServiceInv(Read(s), f, NextPos(s, p)) && p < NextPos(s, p) <= s.rf.lastApplied <= |f|
    ensures s.batch[0].CommandMsg? ==> s.batch[0].index == p + 1 && s.batch[0].item == f[p].item
    ensures s.batch[0].SnapshotMsg? ==> s.batch[0].image == Image(StateAt(f, s.batch[0].index))
  {
    hide Fold, Items, StateAt, Read;
    if s.batch[0].CommandMsg? {
      DeliveredCommand(s, f, p);
    } else {
      DeliveredSnapshot(s, f, p);
    }
  }

  lemma {:induction false} DeliverStep(w: World, h: History, i: int) returns (h': History)
    requires Inv(w, h) && Shaped(w) && Enabled(w, Deliver(i))
    ensures Grows(h, h') && Inv(Exec(w, Deliver(i)), h')
    ensures i < |h.pos| && h' == h.(pos := h.pos[i := NextPos(w.servers[i], h.pos[i])])
  {
    hide HistoryInv, NodeInv, ServiceInv, MsgInv, Signals, Read;
    var n, s := |w.servers|, w.servers[i];
    var w' := Exec(w, Deliver(i));
    Facts(w, h, i);
    DeliveredService(s, h.logs[i], h.pos[i]);
    ReadKeepsPeer(s);
    h' := h.(pos := h.pos[i := NextPos(s, h.pos[i])]);
    assert GrowsBy(h, h', i);
    MovedHistory(h, h', n, i);
    MovedNode(h, h', n, i, s.rf, h.logs[i]);
    StepInv(w, h, w', h', i, Read(s));
  }

  lemma ReadKeepsPeer(s: Server)
    requires s.batch != []
    ensures Read(s).rf == s.rf
  {
  }

  lemma MovedHistory(h: History, h': History, n: int, i: int)
    requires HistoryInv(h, n) && h' == h.(pos := h'.pos) && |h'.pos| == n
    ensures HistoryInv(h', n)
  {
    assert Grows(h, h');
    forall x | x in h'.reigns ensures ReignInv(h', n, x) { ReignGrows(h, h', n, x); }
    forall k | k in h'.votes ensures VoteInv(h', n, k) { VoteGrows(h, h', n, k); }
    forall c | c in h'.commits ensures CommitmentInv(h', n, c) { CommitmentGrows(h, h', n, c); }
    forall a | a in h'.acks ensures AckInv(h', a) { assert AckInv(h, a); }
  }

  lemma MovedNode(h: History, h': History, n: int, i: int, s: Node, f: seq<Entry>)
    requires NodeInv(h, n, i, s, f) && Grows(h, h') && h' == h.(pos := h'.pos)
    ensures NodeInv(h', n, i, s, f)
  {
    LogInvGrows(h, h', f, Recovered(s.disk).term);
    AckerGrows(h, h', i, f, Recovered(s.disk).term);
    CommitGrows(h, h', s, f);
    if s.role == Leader {
      LeadingGrows(h, h', i, s, f);
    }
    if s.role == Candidate {
      RunningGrows(h, h', i, s, f);
    }
  }

  // ------------------------------------------------------------- compacting

  lemma {:induction false} SnapshotNode(h: History, n: int, i: int, s: Node, f: seq<Entry>, index: int, image: Image)
    requires NodeInv(h, n, i, s, f) && 0 <= index <= s.lastApplied && image == Image(StateAt(f, index))
    ensures NodeInv(h, n, i, Snapshot(s, index, image), f)
    ensures Snapshot(s, index, image).lastApplied == s.lastApplied &&
      Snapshot(s, index, image).commitIndex == s.commitIndex
  {
    hide AckerInv, LogInv, VoterInv, ReignedInv, Committed, MatchInv, ValidLog, Represents, StateAt;
    SnapshotRepresents(s, f, index, image);
    RepresentsLast(s, f);
    var s' := Snapshot(s, index, image);
    var d := Recovered(s.disk).term;
    LogInvLater(h, f, d, s.term);
    AckerLater(h, i, f, d, s.term);
    AcceptedVoter(h, n, i, s, f, s.term, s.votedFor);
    CommittedPrefix(h, f[..s.commitIndex], f[..s.commitIndex], d, s.term);
    if s.role == Candidate {
      var g :| Tally(h, i, s, g);
      assert Tally(h, i, s', g);
    }
  }

  lemma RepresentsLast(s: Node, f: seq<Entry>)
    requires Represents(s, f)
    ensures LastIndex(s) == |f| && 0 <= s.snapIndex <= |f|
  {
  }

  lemma {:induction false} TakeSnapshotStep(w: World, h: History, i: int)
    requires Inv(w, h) && Shaped(w) && Enabled(w, TakeSnapshot(i))
    ensures Inv(Exec(w, TakeSnapshot(i)), h)
  {
    hide HistoryInv, NodeInv, MsgInv, Snapshot, BatchInv;
    var n, s := |w.servers|, w.servers[i];
    Facts(w, h, i);
    if s.applied == 0 {
      NothingToCompact(h, n, i, s.rf, h.logs[i], Image(s.kv));
      QuietStep(w, h, Exec(w, TakeSnapshot(i)), i, s.rf);
    } else {
      SnapshotNode(h, n, i, s.rf, h.logs[i], s.applied, Image(s.kv));
      QuietStep(w, h, Exec(w, TakeSnapshot(i)), i, Snapshot(s.rf, s.applied, Image(s.kv)));
    }
  }

  lemma NothingToCompact(h: History, n: int, i: int, s: Node, f: seq<Entry>, image: Image)
    requires NodeInv(h, n, i, s, f)
    ensures Snapshot(s, 0, image) == s
  {
  }

  // --------------------------------------------------------------- crashing

  /** What a restarted peer holds is sound. */
  lemma {:induction false} BootNode(h: History, n: int, i: int, s: Node, f: seq<Entry>)
    requires n >= 0 && NodeInv(h, n, i, s, f)
    ensures NodeInv(h, n, i, Boot(i, n, s.disk), f)
  {
    hide AckerInv, LogInv, VoterInv, ReignedInv, Committed, MatchInv, ValidLog, LeadingInv, RunningInv;
    var d := Recovered(s.disk).term;
    CommittedPrefix(h, f[..s.snapIndex], f[..s.commitIndex], d, d);
  }

  lemma RebootedService(s: Node, f: seq<Entry>)
    requires Represents(s, f) && SavedInv(s) && s.peers >= 0
    ensures ServiceInv(Rebooted(s), f, s.snapIndex)
  {
  }

  lemma {:induction false} RebootStep(w: World, h: History, i: int, s: Node, w': World) returns (h': History)
    requires Inv(w, h) && Shaped(w) && 0 <= i < |w.servers| == |h.logs| && NodeInv(h, |w.servers|, i, s, h.logs[i])
    requires w'.servers == w.servers[i := Rebooted(s)] && w'.net == w.net
    ensures Grows(h, h') && Inv(w', h') && i < |h.pos| && h' == h.(pos := h.pos[i := s.snapIndex])
  {
    hide HistoryInv, ServiceInv, MsgInv, AckerInv, LogInv, VoterInv, ReignedInv, Committed, LeadingInv, RunningInv;
    var n, f := |w.servers|, h.logs[i];
    Facts(w, h, i);
    BootNode(h, n, i, s, f);
    RebootedService(s, f);
    h' := h.(pos := h.pos[i := s.snapIndex]);
    assert GrowsBy(h, h', i);
    MovedHistory(h, h', n, i);
    MovedNode(h, h', n, i, Rebooted(s).rf, f);
    StepInv(w, h, w', h', i, Rebooted(s));
  }

  lemma {:induction false} CrashStep(w: World, h: History, i: int) returns (h': History)
    requires Inv(w, h) && Shaped(w) && Enabled(w, Crash(i))
    ensures Grows(h, h') && Inv(Exec(w, Crash(i)), h')
    ensures i < |h.pos| && h' == h.(pos := h.pos[i := w.servers[i].rf.snapIndex])
  {
    hide HistoryInv, NodeInv, ServiceInv, MsgInv;
    Facts(w, h, i);
    h' := RebootStep(w, h, i, w.servers[i].rf, Exec(w, Crash(i)));
  }

  lemma {:induction false} CrashAfterTermStep(w: World, h: History, i: int, t: int) returns (h': History)
    requires Inv(w, h) && Shaped(w) && Enabled(w, CrashAfterTerm(i, t))
    ensures Grows(h, h') && Inv(Exec(w, CrashAfterTerm(i, t)), h')
    ensures i < |h.pos| && h' == h.(pos := h.pos[i := w.servers[i].rf.snapIndex])
  {
    hide HistoryInv, NodeInv, ServiceInv, MsgInv, CarriesTerm;
    Facts(w, h, i);
    var s := w.servers[i].rf;
    FollowNode(h, |w.servers|, i, s, h.logs[i], t);
    h' := RebootStep(w, h, i, Persist(Follow(s, t)), Exec(w, CrashAfterTerm(i, t)));
  }
}
