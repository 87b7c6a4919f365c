/** Runs of the cluster: any sequence of actions from the initial state. */
module Runs {
  import opened KvMachine
  import opened RaftTypes
  import opened RaftHandlers
  import opened Cluster
  import opened History
  import opened LeaderSteps
  import opened ClusterSteps
  import opened ServiceSteps

  /** How one action changes the history. */
  predicate Follows(w: World, h: History, a: Action, h': History) {
    0 <= a.i < |w.servers| && |h.logs| == |w.servers| == |h.pos| &&
    var s := w.servers[a.i];
    match a
    case Deliver(i) => s.batch != [] && h' == h.(pos := h.pos[i := NextPos(s, h.pos[i])])
    case Crash(i) => h' == h.(pos := h.pos[i := s.rf.snapIndex])
    case CrashAfterTerm(i, _) => h' == h.(pos := h.pos[i := s.rf.snapIndex])
    case Submit(i, op) =>
      if s.rf.role == Leader then
        s.rf.term in h.reigns && h.reigns[s.rf.term].log == h.logs[i] && |h.logs[i]| == LastIndex(s.rf) &&
        h' == Appended(h, i, s.rf.term, Entry(s.rf.term, Cmd(op)))
      else h' == h
    case _ => Steady(h, h')
  }

  lemma InvShaped(w: World, h: History)
    requires Inv(w, h)
    ensures Shaped(w)
  {
    hide HistoryInv, ServiceInv, MsgInv;
  }

  lemma EnabledBasics(w: World, a: Action)
    requires Enabled(w, a)
    ensures 0 <= a.i < |w.servers| && (a.Deliver? ==> w.servers[a.i].batch != [])
  {
  }

  /** Is the action one of the protocol's own, between peers? */
  predicate Protocol(a: Action) {
    a.Timeout? || a.HandleVote? || a.HandleVoteReply? || a.SendTo? ||
    a.HandleAppend? || a.HandleAppendReply? || a.HandleSnapshot? || a.HandleSnapshotReply?
  }

  lemma {:induction false} ProtocolKeeps(w: World, h: History, a: Action) returns (h': History)
    requires Inv(w, h) && Shaped(w) && Enabled(w, a) && Protocol(a)
    ensures Inv(Exec(w, a), h') && Steady(h, h')
  {
    hide Inv, Exec, Steady, Enabled, Shaped;
    match a
    case Timeout(i) => h' := TimeoutStep(w, h, i);
    case HandleVote(i, v) => h' := HandleVoteStep(w, h, i, v);
    case HandleVoteReply(i, peer, t, vr) => h' := VoteReplyStep(w, h, i, peer, t, vr);
    case SendTo(i, peer) => h' := SendStep(w, h, i, peer);
    case HandleAppend(i, aa) => h' := HandleAppendStep(w, h, i, aa);
    case HandleAppendReply(i, peer, aa, ar) => h' := AppendReplyStep(w, h, i, peer, aa, ar);
    case HandleSnapshot(i, sn) => h' := HandleSnapshotStep(w, h, i, sn);
    case HandleSnapshotReply(i, peer, sn, t) => h' := SnapshotReplyStep(w, h, i, peer, sn, t);
  }

  /** Every action keeps the invariant, for a history that only grows. */
  lemma {:induction false} StepKeeps(w: World, h: History, a: Action) returns (h': History)
    requires Inv(w, h) && Shaped(w) && Enabled(w, a)
    ensures Inv(Exec(w, a), h') && Grows(h, h') && Follows(w, h, a, h')
  {
    hide Inv, Exec, Grows, Enabled, Shaped, Appended, NoNewEntries, NextPos;
    EnabledBasics(w, a);
    InvSizes(w, h);
    if Protocol(a) {
      h' := ProtocolKeeps(w, h, a);
    } else {
      h' := ServiceKeeps(w, h, a);
    }
  }

  lemma {:induction false} ServiceKeeps(w: World, h: History, a: Action) returns (h': History)
    requires Inv(w, h) && Shaped(w) && Enabled(w, a) && !Protocol(a)
    requires 0 <= a.i < |w.servers| && (a.Deliver? ==> w.servers[a.i].batch != []) && |h.logs| == |w.servers| == |h.pos|
    ensures Inv(Exec(w, a), h') && Grows(h, h') && Follows(w, h, a, h')
  {
    hide Inv, Exec, Grows, Enabled, Shaped, Appended, NoNewEntries, NextPos, Steady;
    NoChange(h);
    h' := h;
    match a
    case Submit(i, op) => h' := SubmitStep(w, h, i, op);
    case GiveUp(i, index) => GiveUpStep(w, h, i, index);
    case CollectBatch(i) => CollectStep(w, h, i);
    case Deliver(i) => h' := DeliverStep(w, h, i);
    case TakeSnapshot(i) => TakeSnapshotStep(w, h, i);
    case Crash(i) => h' := CrashStep(w, h, i);
    case CrashAfterTerm(i, t) => h' := CrashAfterTermStep(w, h, i, t);
  }

  lemma InvSizes(w: World, h: History)
    requires Inv(w, h)
    ensures |h.logs| == |w.servers| == |h.pos|
  {
    hide NodeInv, ServiceInv, MsgInv, ReignInv, AckInv, VoteInv, CommitmentInv;
  }

  lemma NoChange(h: History)
    ensures Steady(h, h) && Grows(h, h)
  {
  }

  /** The history of a cluster in which nothing has happened. */
  function Beginning(n: nat): History {
    History(seq(n, i => []), seq(n, i => 0), map[], map[], map[], {})
  }

  lemma {:induction false} InitInv(n: nat)
    ensures Inv(Init(n), Beginning(n))
  {
    var w, h := Init(n), Beginning(n);
    forall i | 0 <= i < n
      ensures NodeInv(h, n, i, w.servers[i].rf, h.logs[i]) && ServiceInv(w.servers[i], h.logs[i], h.pos[i])
    {
      var s := w.servers[i].rf;
      assert s == Boot(i, n, Blank);
      assert h.logs[i] == [];
      assert Items([]) == [];
    }
  }

  /** A run of a cluster of `n`: the states it goes through and the actions
      between them. */
  datatype Run = Run(n: nat, ws: seq<World>, acts: seq<Action>)

  /** One action; the shape it needs is there in every reachable state. */
  predicate Moves(w: World, a: Action, w': World) {
    Shaped(w) ==> Enabled(w, a) && w' == Exec(w, a)
  }

  ghost predicate IsRun(r: Run) {
    |r.ws| == |r.acts| + 1 && r.ws[0] == Init(r.n) &&
    forall k :: 0 <= k < |r.acts| ==> Moves(r.ws[k], r.acts[k], r.ws[k + 1])
  }

  /** The histories `hs` explain the run. */
  ghost predicate Tracks(r: Run, hs: seq<History>) {
    |hs| == |r.ws| == |r.acts| + 1 &&
    (forall k :: 0 <= k < |r.ws| ==> |r.ws[k].servers| == r.n && Inv(r.ws[k], hs[k])) &&
    (forall k :: 0 <= k < |r.acts| ==>
       Grows(hs[k], hs[k + 1]) && Enabled(r.ws[k], r.acts[k]) && Follows(r.ws[k], hs[k], r.acts[k], hs[k + 1]))
  }

  lemma ExecSize(w: World, a: Action)
    requires Shaped(w) && Enabled(w, a)
    ensures |Exec(w, a).servers| == |w.servers|
  {
  }

  /** The run without its last action. */
  function Before(r: Run): Run
    requires |r.ws| == |r.acts| + 1 && r.acts != []
  {
    Run(r.n, r.ws[..|r.acts|], r.acts[..|r.acts| - 1])
  }

  lemma RunBefore(r: Run)
    requires IsRun(r) && r.acts != []
    ensures IsRun(Before(r))
  {
    var q := Before(r);
    forall k | 0 <= k < |q.acts|
      ensures Moves(q.ws[k], q.acts[k], q.ws[k + 1])
    {
      assert Moves(r.ws[k], r.acts[k], r.ws[k + 1]);
    }
  }

  /** Every run has a history that satisfies the invariant throughout. */
  lemma {:induction false} RunHistory(r: Run) returns (hs: seq<History>)
    requires IsRun(r)
    ensures Tracks(r, hs)
    decreases |r.acts|
  {
    hide Inv, Init, Grows, Follows, Enabled;
    if r.acts == [] {
      InitInv(r.n);
      InitSize(r.n);
      hs := [Beginning(r.n)];
    } else {
      var m := |r.acts| - 1;
      RunBefore(r);
      var gs := RunHistory(Before(r));
      TracksAt(Before(r), gs, m);
      InvShaped(r.ws[m], gs[m]);
      assert Moves(r.ws[m], r.acts[m], r.ws[m + 1]);
      var h' := StepKeeps(r.ws[m], gs[m], r.acts[m]);
      ExecSize(r.ws[m], r.acts[m]);
      hs := gs + [h'];
      TracksLonger(r, gs, h');
    }
  }

  lemma InitSize(n: nat)
    ensures |Init(n).servers| == n
  {
  }

  lemma TracksAt(r: Run, hs: seq<History>, k: int)
    requires Tracks(r, hs) && 0 <= k < |r.ws|
    ensures |hs| == |r.ws| == |r.acts| + 1 && |r.ws[k].servers| == r.n && Inv(r.ws[k], hs[k])
  {
  }

  lemma TracksStep(r: Run, hs: seq<History>, k: int)
    requires Tracks(r, hs) && 0 <= k < |r.acts|
    ensures |hs| == |r.ws| == |r.acts| + 1 && Grows(hs[k], hs[k + 1])
    ensures Enabled(r.ws[k], r.acts[k]) && Follows(r.ws[k], hs[k], r.acts[k], hs[k + 1])
  {
  }

  lemma TracksLonger(r: Run, gs: seq<History>, h': History)
    requires |r.acts| >= 1 && |r.ws| == |r.acts| + 1 && Tracks(Before(r), gs)
    requires |r.ws[|r.acts|].servers| == r.n && Inv(r.ws[|r.acts|], h')
    requires Grows(gs[|r.acts| - 1], h') && Enabled(r.ws[|r.acts| - 1], r.acts[|r.acts| - 1])
    requires Follows(r.ws[|r.acts| - 1], gs[|r.acts| - 1], r.acts[|r.acts| - 1], h')
    ensures Tracks(r, gs + [h'])
  {
    hide Inv, Grows, Follows, Enabled;
    var hs, q := gs + [h'], Before(r);
    forall k | 0 <= k < |r.ws|
      ensures |r.ws[k].servers| == r.n && Inv(r.ws[k], hs[k])
    {
      if k < |r.acts| {
        TracksAt(q, gs, k);
      }
    }
    forall k | 0 <= k < |r.acts|
      ensures Grows(hs[k], hs[k + 1]) && Enabled(r.ws[k], r.acts[k]) && Follows(r.ws[k], hs[k], r.acts[k], hs[k + 1])
    {
      if k < |r.acts| - 1 {
        TracksStep(q, gs, k);
      }
    }
  }

  lemma GrowsTrans(h: History, h1: History, h2: History)
    requires Grows(h, h1) && Grows(h1, h2)
    ensures Grows(h, h2)
  {
    forall t | t in h.reigns
      ensures t in h2.reigns && h.reigns[t].log <= h2.reigns[t].log
    {
      assert h.reigns[t].log <= h1.reigns[t].log <= h2.reigns[t].log;
    }
  }

  lemma {:induction false} GrowsAlong(r: Run, hs: seq<History>, j: int, k: int)
    requires Tracks(r, hs) && 0 <= j <= k < |r.ws|
    ensures Grows(hs[j], hs[k])
    decreases k
  {
    hide Inv, Follows, Enabled, Tracks;
    TracksAt(r, hs, j);
    if j < k {
      TracksStep(r, hs, k - 1);
      GrowsAlong(r, hs, j, k - 1);
      GrowsTrans(hs[j], hs[k - 1], hs[k]);
    } else {
      NoChange(hs[j]);
    }
  }

  /** A cluster never gains or loses a server. */
  lemma RunSize(r: Run, k: int)
    requires IsRun(r) && 0 <= k <= |r.acts|
    ensures |r.ws[k].servers| == r.n
  {
    var hs := RunHistory(r);
    TracksAt(r, hs, k);
  }

  /** Server `i` after `k` actions, and its peer. */
  ghost function ServerAt(r: Run, k: int, i: int): Server
    requires IsRun(r) && 0 <= k <= |r.acts| && 0 <= i < r.n
  {
    RunSize(r, k);
    r.ws[k].servers[i]
  }

  ghost function PeerAt(r: Run, k: int, i: int): Node
    requires IsRun(r) && 0 <= k <= |r.acts| && 0 <= i < r.n
  {
    ServerAt(r, k, i).rf
  }
}
