/** Every action of the cluster keeps the invariant. */
module ClusterSteps {
  import opened RaftTypes
  import opened RaftHandlers
  import opened Cluster
  import opened History
  import opened Growth
  import opened Compaction
  import opened FollowerSteps
  import opened ElectionSteps
  import opened LeaderSteps

  // ------------------------------------------------------------- assembling

  /** One server moved to `sv` and the network gained messages. */
  lemma {:induction false} StepInv(w: World, h: History, w': World, h': History, i: int, sv: Server)
    requires Inv(w, h) && 0 <= i < |w.servers| && w'.servers == w.servers[i := sv]
    requires GrowsBy(h, h', i) && HistoryInv(h', |w.servers|)
    requires NodeInv(h', |w.servers|, i, sv.rf, h'.logs[i]) && ServiceInv(sv, h'.logs[i], h'.pos[i])
    requires forall m :: m in w'.net && m !in w.net ==> MsgInv(h', |w.servers|, m)
    ensures Inv(w', h')
  {
    hide HistoryInv, NodeInv, ServiceInv, MsgInv;
    var n := |w.servers|;
    HistorySizes(h, n);
    HistorySizes(h', n);
    forall j | 0 <= j < n
      ensures NodeInv(h', n, j, w'.servers[j].rf, h'.logs[j]) && ServiceInv(w'.servers[j], h'.logs[j], h'.pos[j])
    {
      if j != i {
        OtherNode(h, h', n, i, j, w.servers[j].rf, h.logs[j]);
      }
    }
    forall m | m in w'.net
      ensures MsgInv(h', n, m)
    {
      if m in w.net {
        MsgGrows(h, h', n, m);
      }
    }
  }

  lemma HistorySizes(h: History, n: int)
    requires HistoryInv(h, n)
    ensures |h.logs| == n && |h.pos| == n
  {
  }

  /** The reader's position is undisturbed by a change of the peer that keeps
      the applied prefix. */
  lemma ServiceKept(s: Server, rf: Node, f: seq<Entry>, f': seq<Entry>, p: int, c: int)
    requires ServiceInv(s, f, p) && rf.lastApplied == s.rf.lastApplied <= c <= |f|
    requires c <= |f'| && f'[..c] == f[..c]
    ensures ServiceInv(s.(rf := rf), f', p)
  {
    hide StateAt;
    assert f'[..p] == f'[..c][..p] == f[..p];
    StateAtPrefix(f, f', p);
    if 0 < s.applied {
      assert f'[..s.applied] == f'[..c][..s.applied] == f[..s.applied];
      StateAtPrefix(f, f', s.applied);
    }
    var k := rf.lastApplied;
    assert f'[..k] == f'[..c][..k] == f[..k];
    StateAtPrefix(f, f', k);
    forall j | 0 <= j < k
      ensures f'[j] == f[j]
    {
      assert f'[..c][j] == f[..c][j];
    }
  }

  lemma Facts(w: World, h: History, i: int)
    requires Inv(w, h) && 0 <= i < |w.servers|
    ensures |h.logs| == |w.servers| == |h.pos| && HistoryInv(h, |w.servers|)
    ensures NodeInv(h, |w.servers|, i, w.servers[i].rf, h.logs[i]) && ServiceInv(w.servers[i], h.logs[i], h.pos[i])
  {
  }

  lemma NodeCommit(h: History, n: int, i: int, s: Node, f: seq<Entry>)
    requires NodeInv(h, n, i, s, f)
    ensures 0 <= s.lastApplied <= s.commitIndex <= |f| && 0 <= s.snapIndex <= s.commitIndex && f == f[..|f|]
  {
  }

  lemma NoGrowth(h: History, i: int)
    ensures GrowsBy(h, h, i)
  {
  }

  /** A step that changes only one peer, keeps its applied prefix, and leaves
      the history alone. */
  lemma {:induction false} QuietStep(w: World, h: History, w': World, i: int, rf: Node)
    requires Inv(w, h) && 0 <= i < |w.servers| && w'.servers == w.servers[i := w.servers[i].(rf := rf)]
    requires i < |h.logs| && NodeInv(h, |w.servers|, i, rf, h.logs[i]) && rf.lastApplied == w.servers[i].rf.lastApplied
    requires forall m :: m in w'.net && m !in w.net ==> MsgInv(h, |w.servers|, m)
    ensures Inv(w', h)
  {
    hide HistoryInv, NodeInv, ServiceInv, MsgInv;
    Facts(w, h, i);
    NodeCommit(h, |w.servers|, i, w.servers[i].rf, h.logs[i]);
    ServiceKept(w.servers[i], rf, h.logs[i], h.logs[i], h.pos[i], |h.logs[i]|);
    NoGrowth(h, i);
    StepInv(w, h, w', h, i, w.servers[i].(rf := rf));
  }

  /** A step that changes one peer and the history, and keeps what the peer had
      committed. */
  lemma {:induction false} PeerStep(w: World, h: History, w': World, h': History, i: int, rf: Node)
    requires Inv(w, h) && 0 <= i < |w.servers| && w'.servers == w.servers[i := w.servers[i].(rf := rf)]
    requires GrowsBy(h, h', i) && HistoryInv(h', |w.servers|) && |h.logs| == |w.servers| == |h'.logs| && h'.pos == h.pos
    requires NodeInv(h', |w.servers|, i, rf, h'.logs[i]) && rf.lastApplied == w.servers[i].rf.lastApplied
    requires var c := w.servers[i].rf.commitIndex;
             0 <= c <= |h.logs[i]| && c <= |h'.logs[i]| && h'.logs[i][..c] == h.logs[i][..c]
    requires forall m :: m in w'.net && m !in w.net ==> MsgInv(h', |w.servers|, m)
    ensures Inv(w', h')
  {
    hide HistoryInv, NodeInv, ServiceInv, MsgInv;
    Facts(w, h, i);
    NodeCommit(h, |w.servers|, i, w.servers[i].rf, h.logs[i]);
    ServiceKept(w.servers[i], rf, h.logs[i], h'.logs[i], h.pos[i], w.servers[i].rf.commitIndex);
    StepInv(w, h, w', h', i, w.servers[i].(rf := rf));
  }

  // -------------------------------------------------------------- elections

  lemma {:induction false} TimeoutStep(w: World, h: History, i: int) returns (h': History)
    requires Inv(w, h) && Shaped(w) && Enabled(w, Timeout(i))
    ensures Steady(h, h') && Inv(Exec(w, Timeout(i)), h')
  {
    hide HistoryInv, NodeInv, ServiceInv;
    var n, s := |w.servers|, w.servers[i].rf;
    Facts(w, h, i);
    var f := h.logs[i];
    h' := Cast(h, i, s.term + 1, i);
    StandNode(h, n, i, s, f);
    StandMessage(h, n, i, s, f);
    NodeCommit(h, n, i, s, f);
    PeerStep(w, h, Exec(w, Timeout(i)), h', i, StartElection(s));
  }

  lemma {:induction false} HandleVoteStep(w: World, h: History, i: int, v: VoteArgs) returns (h': History)
    requires Inv(w, h) && Shaped(w) && Enabled(w, HandleVote(i, v))
    ensures Steady(h, h') && Inv(Exec(w, HandleVote(i, v)), h')
  {
    hide HistoryInv, NodeInv, ServiceInv, RequestVote;
    var n, s := |w.servers|, w.servers[i].rf;
    var w' := Exec(w, HandleVote(i, v));
    Facts(w, h, i);
    var f := h.logs[i];
    assert MsgInv(h, n, VoteReq(v));
    GrantsIff(s, v);
    RequestVoteKeeps(s, v);
    NodeCommit(h, n, i, s, f);
    if Grants(s, v) {
      h' := Voted(h, i, v);
      GrantHistory(h, n, i, s, f, v);
      GrantNode(h, n, i, s, f, v);
      PeerStep(w, h, w', h', i, RequestVote(s, v).0);
    } else {
      h' := h;
      RefuseNode(h, n, i, s, f, v);
      QuietStep(w, h, w', i, RequestVote(s, v).0);
    }
  }

  lemma RequestVoteKeeps(s: Node, v: VoteArgs)
    ensures RequestVote(s, v).0.lastApplied == s.lastApplied
  {
  }

  lemma {:induction false} VoteReplyStep(w: World, h: History, i: int, peer: int, t: int,
      vr: VoteReply) returns (h': History)
    requires Inv(w, h) && Shaped(w) && Enabled(w, HandleVoteReply(i, peer, t, vr))
    ensures Steady(h, h') && Inv(Exec(w, HandleVoteReply(i, peer, t, vr)), h')
  {
    hide HistoryInv, NodeInv, ServiceInv;
    var n, s := |w.servers|, w.servers[i].rf;
    var w' := Exec(w, HandleVoteReply(i, peer, t, vr));
    Facts(w, h, i);
    var f := h.logs[i];
    h' := h;
    if vr.term > s.term {
      FollowNode(h, n, i, s, f, vr.term);
      QuietStep(w, h, w', i, Persist(Follow(s, vr.term)));
    } else if s.term != t || s.role != Candidate {
      QuietStep(w, h, w', i, s);
    } else {
      if vr.granted {
        assert MsgInv(h, n, VoteRep(peer, i, t, vr));
      }
      CountedNode(h, n, i, s, f, peer, vr.granted);
      var s1 := Counted(s, peer, vr.granted);
      if s1.poll.votes >= n / 2 + 1 {
        h' := WinStep(w, h, i, s1, w');
      } else {
        QuietStep(w, h, w', i, s1);
      }
    }
  }

  lemma {:induction false} WinStep(w: World, h: History, i: int, s1: Node, w': World) returns (h': History)
    requires Inv(w, h) && 0 <= i < |w.servers| == |h.logs| && NodeInv(h, |w.servers|, i, s1, h.logs[i]) &&
      s1.role == Candidate
    requires s1.poll.votes >= |w.servers| / 2 + 1 && s1.lastApplied == w.servers[i].rf.lastApplied
    requires w'.servers == w.servers[i := w.servers[i].(rf := BecomeLeader(s1))] && w'.net == w.net
    ensures Steady(h, h') && Inv(w', h')
  {
    var n, f := |w.servers|, h.logs[i];
    var g :| Tally(h, i, s1, g);
    WinnerIsFirst(h, n, i, s1, f, g);
    NoAckYet(h, n, i, s1, f);
    h' := Crowned(h, i, s1.term, g + {i});
    CrownedGrows(h, n, i, s1.term, g + {i});
    CrownedReign(h, n, i, s1.term, g + {i});
    CrownedHistory(h, n, i, s1.term, g + {i});
    WinNode(h, n, i, s1, f, g + {i});
    NodeCommit(h, n, i, w.servers[i].rf, f);
    PeerStep(w, h, w', h', i, BecomeLeader(s1));
  }

  lemma NoAckYet(h: History, n: int, i: int, s: Node, f: seq<Entry>)
    requires HistoryInv(h, n) && NodeInv(h, n, i, s, f) && s.role == Candidate && s.term !in h.reigns
    ensures Key(i, s.term) !in h.acks && s.term >= 1 && Key(i, s.term) in h.votes && h.votes[Key(i, s.term)].log == f
    ensures forall k :: k in h.votes && k.who == i ==> k.term <= s.term
  {
    assert VoteInv(h, n, Key(i, s.term));
  }

  // ------------------------------------------------------------ replication

  lemma {:induction false} SendStep(w: World, h: History, i: int, peer: int) returns (h': History)
    requires Inv(w, h) && Shaped(w) && Enabled(w, SendTo(i, peer))
    ensures Steady(h, h') && Inv(Exec(w, SendTo(i, peer)), h')
  {
    hide HistoryInv, ServiceInv, AppendReqInv, SnapReqInv, AckerInv, VoterInv, ReignedInv, RunningInv, LogInv,
      AppendRequest, SnapshotRequest, Committed;
    var n, s := |w.servers|, w.servers[i].rf;
    Facts(w, h, i);
    var f := h.logs[i];
    h' := h;
    LeaderFacts(h, n, i, s, f, peer);
    if NeedsSnapshot(s, peer) {
      SentSnapshot(h, n, i, s, f, peer);
    } else {
      SentAppend(h, n, i, s, f, peer);
    }
    QuietStep(w, h, Exec(w, SendTo(i, peer)), i, s);
  }

  lemma {:induction false} HandleAppendStep(w: World, h: History, i: int, a: AppendArgs) returns (h': History)
    requires Inv(w, h) && Shaped(w) && Enabled(w, HandleAppend(i, a))
    ensures Steady(h, h') && Inv(Exec(w, HandleAppend(i, a)), h')
  {
    hide HistoryInv, NodeInv, ServiceInv, AppendEntries, AppendReqInv, RejectionInv;
    var n, s := |w.servers|, w.servers[i].rf;
    var w' := Exec(w, HandleAppend(i, a));
    var (s', r) := AppendEntries(s, a);
    Facts(w, h, i);
    var f := h.logs[i];
    assert MsgInv(h, n, AppendReq(i, a));
    if Accepts(s, a) {
      h' := AcceptStep(w, h, i, a, w');
    } else {
      h' := h;
      RejectedNode(h, n, i, s, f, a);
      RejectedReply(h, n, i, s, f, a);
      QuietStep(w, h, w', i, s');
    }
  }

  lemma {:induction false} AcceptStep(w: World, h: History, i: int, a: AppendArgs, w': World) returns (h': History)
    requires Inv(w, h) && 0 <= i < |w.servers| && AppendReqInv(h, |w.servers|, a) && a.leader != i &&
      Accepts(w.servers[i].rf, a)
    requires w'.servers == w.servers[i := w.servers[i].(rf := AppendEntries(w.servers[i].rf, a).0)]
    requires w'.net == w.net + {AppendRep(i, a, AppendEntries(w.servers[i].rf, a).1)}
    ensures Steady(h, h') && Inv(w', h')
  {
    hide HistoryInv, ServiceInv, AppendEntries, Accepts, VoterInv, AckerInv, ReignedInv, LogInv, LeadingInv,
      RunningInv, Represents;
    var n, s := |w.servers|, w.servers[i].rf;
    Facts(w, h, i);
    var f, l, k := h.logs[i], h.reigns[a.term].log, a.prev + |a.entries|;
    var f' := Adopt(f, l[..k]);
    h' := Took(h, i, f', a.term, k);
    TookGrows(h, i, f', a.term, k);
    AcceptsTerm(s, a);
    VotesOf(h, n, i, s, f);
    TookHistory(h, n, i, f', a.term, k);
    AcceptedNode(h, n, i, s, f, a);
    AcceptedFields(s, a);
    CommittedAdopt(h, n, f, s.commitIndex, Recovered(s.disk).term, a.term, k);
    AppendReqGrows(h, h', n, a);
    PeerStep(w, h, w', h', i, AppendEntries(s, a).0);
  }

  lemma AcceptsTerm(s: Node, a: AppendArgs)
    requires Accepts(s, a) && SavedInv(s)
    ensures Recovered(s.disk).term <= s.term <= a.term
  {
  }

  /** A rejecting peer at most follows the higher term, unsaved. */
  lemma RejectedNode(h: History, n: int, i: int, s: Node, f: seq<Entry>, a: AppendArgs)
    requires NodeInv(h, n, i, s, f) && !Accepts(s, a)
    ensures NodeInv(h, n, i, AppendEntries(s, a).0, f) && AppendEntries(s, a).0.lastApplied == s.lastApplied
    ensures !AppendEntries(s, a).1.success
  {
    hide AckerInv, LogInv, VoterInv, ReignedInv, CommitInv, LeadingInv, RunningInv, FirstFrom;
    if s.term < a.term {
      FollowNode(h, n, i, s, f, a.term);
    }
  }

  /** A rejection tells the truth about the follower's log. */
  lemma {:induction false} RejectedReply(h: History, n: int, i: int, s: Node, f: seq<Entry>, a: AppendArgs)
    requires NodeInv(h, n, i, s, f) && !Accepts(s, a)
    ensures RejectionInv(h, a, AppendEntries(s, a).1)
  {
    hide AckerInv, VoterInv, ReignedInv, CommitInv, LeadingInv, RunningInv, SavedInv;
    var at := a.prev - s.snapIndex;
    if s.term <= a.term && 0 < at < |s.log| {
      EntryAt(s, f, a.prev);
      assert Backed(h, f, a.prev - 1);
      assert f[..a.prev][a.prev - 1] == f[a.prev - 1];
    }
  }

  lemma RejectionNode(h: History, n: int, i: int, s: Node, f: seq<Entry>, peer: int, a: AppendArgs, r: AppendReply)
    requires NodeInv(h, n, i, s, f) && s.role == Leader && a.term == s.term && 0 <= peer < n
    requires AppendReqInv(h, n, a) && RejectionInv(h, a, r)
    ensures NodeInv(h, n, i, s.(nextIndex := s.nextIndex[peer := Backup(s, r)]), f)
  {
    hide Backup, RejectionInv, AckerInv, VoterInv, ReignedInv, RunningInv, SavedInv, CommitInv, Committed, MatchInv,
      ValidLog, Ordered;
    BackupProgress(h, s, f, a, r);
    ResumedNode(h, n, i, s, f, peer, Backup(s, r));
  }

  lemma {:induction false} AppendReplyStep(w: World, h: History, i: int, peer: int, a: AppendArgs,
      r: AppendReply) returns (h': History)
    requires Inv(w, h) && Shaped(w) && Enabled(w, HandleAppendReply(i, peer, a, r))
    ensures Steady(h, h') && Inv(Exec(w, HandleAppendReply(i, peer, a, r)), h')
  {
    hide HistoryInv, ServiceInv, Commit, Backup, RejectionInv, AckerInv, VoterInv, ReignedInv, RunningInv, Committed,
      ValidLog, Ordered;
    var n, s := |w.servers|, w.servers[i].rf;
    var w' := Exec(w, HandleAppendReply(i, peer, a, r));
    Facts(w, h, i);
    var f := h.logs[i];
    assert MsgInv(h, n, AppendRep(peer, a, r));
    h' := h;
    if s.role != Leader || a.term != s.term {
      QuietStep(w, h, w', i, s);
    } else if r.term > s.term {
      FollowNode(h, n, i, s, f, r.term);
      QuietStep(w, h, w', i, Persist(Follow(s, r.term)));
    } else if r.success {
      h' := AckStep(w, h, i, peer, a.prev + |a.entries|, w');
    } else {
      RejectionNode(h, n, i, s, f, peer, a, r);
      QuietStep(w, h, w', i, s.(nextIndex := s.nextIndex[peer := Backup(s, r)]));
    }
  }

  lemma {:induction false} AckStep(w: World, h: History, i: int, peer: int, k: int, w': World) returns (h': History)
    requires Inv(w, h) && Shaped(w) && 0 <= i < |w.servers| && 0 <= peer < |w.servers| == |h.logs| && peer != i
    requires w.servers[i].rf.role == Leader && 0 <= k <= |h.logs[i]| && k <= Acked(h, peer, w.servers[i].rf.term)
    requires w'.servers == w.servers[i := w.servers[i].(rf := Commit(Acknowledged(w.servers[i].rf, peer, k)))] &&
      w'.net == w.net
    ensures Steady(h, h') && Inv(w', h')
  {
    hide HistoryInv, NodeInv, ServiceInv, Commit;
    var n, s := |w.servers|, w.servers[i].rf;
    Facts(w, h, i);
    var f := h.logs[i];
    var s1 := Acknowledged(s, peer, k);
    AcknowledgedNode(h, n, i, s, f, peer, k);
    h' := CommitNode(h, n, i, s1, f);
    NodeCommit(h, n, i, s, f);
    CommitKeeps(s1);
    PeerStep(w, h, w', h', i, Commit(s1));
  }

  lemma CommitKeeps(s: Node)
    requires |s.matchIndex| > 0
    ensures Commit(s).lastApplied == s.lastApplied
  {
  }

  // -------------------------------------------------------------- snapshots

  lemma {:induction false} HandleSnapshotStep(w: World, h: History, i: int, sn: SnapArgs) returns (h': History)
    requires Inv(w, h) && Shaped(w) && Enabled(w, HandleSnapshot(i, sn))
    ensures Steady(h, h') && Inv(Exec(w, HandleSnapshot(i, sn)), h')
  {
    hide HistoryInv, ServiceInv, InstallSnapshot, SnapReqInv;
    var n, s := |w.servers|, w.servers[i].rf;
    var w' := Exec(w, HandleSnapshot(i, sn));
    Facts(w, h, i);
    assert MsgInv(h, n, SnapReq(i, sn));
    if TakesSnapshot(s, sn) {
      h' := InstallStep(w, h, i, sn, w');
    } else {
      h' := h;
      NotInstalled(s, sn);
      QuietStep(w, h, w', i, s);
    }
  }

  lemma NotInstalled(s: Node, sn: SnapArgs)
    requires !TakesSnapshot(s, sn)
    ensures InstallSnapshot(s, sn).0 == s
  {
  }

  lemma {:induction false} InstallStep(w: World, h: History, i: int, sn: SnapArgs, w': World) returns (h': History)
    requires Inv(w, h) && 0 <= i < |w.servers| && SnapReqInv(h, |w.servers|, sn) && sn.leader != i &&
      TakesSnapshot(w.servers[i].rf, sn)
    requires w'.servers == w.servers[i := w.servers[i].(rf := InstallSnapshot(w.servers[i].rf, sn).0)]
    requires w'.net == w.net + {SnapRep(i, sn, InstallSnapshot(w.servers[i].rf, sn).1)}
    ensures Steady(h, h') && Inv(w', h')
  {
    hide HistoryInv, ServiceInv, InstallSnapshot, VoterInv, AckerInv, ReignedInv, LogInv, LeadingInv, RunningInv,
      Represents;
    var n, s := |w.servers|, w.servers[i].rf;
    Facts(w, h, i);
    var f, l := h.logs[i], h.reigns[sn.term].log;
    var f' := Adopt(f, l[..sn.index]);
    h' := h.(logs := h.logs[i := f']);
    assert GrowsBy(h, h', i);
    RelogHistory(h, n, i, f');
    InstalledNode(h, n, i, s, f, sn);
    InstalledFields(s, sn);
    CommittedAdopt(h, n, f, s.commitIndex, Recovered(s.disk).term, sn.term, sn.index);
    SnapReqGrows(h, h', n, sn);
    PeerStep(w, h, w', h', i, InstallSnapshot(s, sn).0);
  }

  lemma {:induction false} RelogHistory(h: History, n: int, i: int, f: seq<Entry>)
    requires HistoryInv(h, n) && 0 <= i < n && |h.logs| == n
    ensures HistoryInv(h.(logs := h.logs[i := f]), n)
  {
    var h' := h.(logs := h.logs[i := f]);
    assert Grows(h, h');
    forall x | x in h'.reigns ensures ReignInv(h', n, x) { ReignGrows(h, h', n, x); }
    forall k | k in h'.votes ensures VoteInv(h', n, k) { VoteGrows(h, h', n, k); }
    forall c | c in h'.commits ensures CommitmentInv(h', n, c) { CommitmentGrows(h, h', n, c); }
    forall a | a in h'.acks ensures AckInv(h', a) { assert AckInv(h, a); }
  }

  lemma {:induction false} SnapshotReplyStep(w: World, h: History, i: int, peer: int, sn: SnapArgs,
      t: int) returns (h': History)
    requires Inv(w, h) && Shaped(w) && Enabled(w, HandleSnapshotReply(i, peer, sn, t))
    ensures Steady(h, h') && Inv(Exec(w, HandleSnapshotReply(i, peer, sn, t)), h')
  {
    hide HistoryInv, ServiceInv, AckerInv, VoterInv, ReignedInv, RunningInv, Committed, StateAt, ValidLog, Ordered;
    var n, s := |w.servers|, w.servers[i].rf;
    var w' := Exec(w, HandleSnapshotReply(i, peer, sn, t));
    Facts(w, h, i);
    var f := h.logs[i];
    assert MsgInv(h, n, SnapRep(peer, sn, t));
    h' := h;
    if s.role != Leader || sn.term != s.term {
      QuietStep(w, h, w', i, s);
    } else if t > s.term {
      FollowNode(h, n, i, s, f, t);
      QuietStep(w, h, w', i, Persist(Follow(s, t)));
    } else {
      SnapshotAnsweredNode(h, n, i, s, f, peer, sn.index);
      QuietStep(w, h, w', i, SnapshotAnswer(s, peer, sn, t));
    }
  }
}
