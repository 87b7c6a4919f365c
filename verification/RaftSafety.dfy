/** What every run of the cluster guarantees. Each theorem speaks of the states
    and messages of a run only, at any two moments and on any two servers. */
module RaftSafety {
  import opened KvMachine
  import opened RaftTypes
  import opened RaftHandlers
  import opened Cluster
  import opened History
  import opened Completeness
  import opened Growth
  import opened Compaction
  import opened FollowerSteps
  import opened LeaderSteps
  import opened ClusterSteps
  import opened ServiceSteps
  import opened Runs

  lemma PeerFacts(r: Run, hs: seq<History>, k: int, i: int)
    requires IsRun(r) && Tracks(r, hs) && 0 <= k <= |r.acts| && 0 <= i < r.n
    ensures |hs| == |r.ws| == |r.acts| + 1 && |hs[k].logs| == r.n == |hs[k].pos| && HistoryInv(hs[k], r.n)
    ensures NodeInv(hs[k], r.n, i, PeerAt(r, k, i), hs[k].logs[i])
    ensures ServiceInv(ServerAt(r, k, i), hs[k].logs[i], hs[k].pos[i])
  {
    hide HistoryInv, NodeInv, ServiceInv, MsgInv, Follows, Grows, Enabled;
    TracksAt(r, hs, k);
    Facts(r.ws[k], hs[k], i);
  }

  // --------------------------------------------------------- election safety

  /** At most one server is ever leader in a term, whenever one looks. */
  lemma {:induction false} ElectionSafety(r: Run, j: int, a: int, k: int, b: int)
    requires IsRun(r) && 0 <= j <= k <= |r.acts| && 0 <= a < r.n && 0 <= b < r.n
    requires PeerAt(r, j, a).role == Leader && PeerAt(r, k, b).role == Leader
    requires PeerAt(r, j, a).term == PeerAt(r, k, b).term
    ensures a == b
  {
    hide IsRun, Tracks, HistoryInv, ServiceInv, AckerInv, VoterInv, LogInv, CommitInv, Represents, SavedInv, MatchInv;
    var hs := RunHistory(r);
    PeerFacts(r, hs, j, a);
    PeerFacts(r, hs, k, b);
    GrowsAlong(r, hs, j, k);
  }

  // ------------------------------------------------------------ log matching

  /** Does the peer still hold entry `m`? */
  predicate Holds(s: Node, m: int) {
    s.snapIndex < m <= LastIndex(s) && |s.log| >= 1 && 0 <= s.snapIndex
  }

  function EntryOf(s: Node, m: int): Entry
    requires Holds(s, m)
  {
    s.log[m - s.snapIndex]
  }

  lemma HoldsIs(s: Node, f: seq<Entry>, m: int)
    requires Represents(s, f)
    ensures Holds(s, m) <==> s.snapIndex < m <= |f|
    ensures Holds(s, m) ==> 1 <= m && EntryOf(s, m) == f[m - 1]
  {
    if s.snapIndex < m <= |f| {
      EntryAt(s, f, m);
    }
  }

  /** Two peers agree on every index up to `m` that both still hold, and where
      one has compacted further than the other, on the term at that point. */
  ghost predicate AgreeUpTo(x: Node, y: Node, m: int) {
    (forall l :: l <= m && Holds(x, l) && Holds(y, l) ==> EntryOf(x, l) == EntryOf(y, l)) &&
    (y.snapIndex <= m && Holds(x, y.snapIndex) ==> EntryOf(x, y.snapIndex).term == y.snapTerm) &&
    (x.snapIndex <= m && Holds(y, x.snapIndex) ==> EntryOf(y, x.snapIndex).term == x.snapTerm)
  }

  lemma {:induction false} PrefixAgree(x: Node, f: seq<Entry>, y: Node, g: seq<Entry>, m: int)
    requires Represents(x, f) && Represents(y, g) && 0 <= m <= |f| && m <= |g| && f[..m] == g[..m]
    ensures AgreeUpTo(x, y, m)
  {
    hide Holds, EntryOf;
    forall l | l <= m && Holds(x, l) && Holds(y, l)
      ensures EntryOf(x, l) == EntryOf(y, l)
    {
      HoldsIs(x, f, l);
      HoldsIs(y, g, l);
      assert f[..m][l - 1] == g[..m][l - 1];
    }
    HoldsIs(x, f, y.snapIndex);
    HoldsIs(y, g, x.snapIndex);
    if y.snapIndex <= m && Holds(x, y.snapIndex) {
      assert f[..m][y.snapIndex - 1] == g[..m][y.snapIndex - 1];
    }
    if x.snapIndex <= m && Holds(y, x.snapIndex) {
      assert f[..m][x.snapIndex - 1] == g[..m][x.snapIndex - 1];
    }
  }

  /** If two servers, at any two moments, hold an entry with the same index and
      term, they agree up to there. */
  lemma {:induction false} LogMatchingInRuns(r: Run, j: int, a: int, k: int, b: int, m: int)
    requires IsRun(r) && 0 <= j <= k <= |r.acts| && 0 <= a < r.n && 0 <= b < r.n
    requires Holds(PeerAt(r, j, a), m) && Holds(PeerAt(r, k, b), m)
    requires EntryOf(PeerAt(r, j, a), m).term == EntryOf(PeerAt(r, k, b), m).term
    ensures AgreeUpTo(PeerAt(r, j, a), PeerAt(r, k, b), m)
  {
    hide IsRun, Tracks, HistoryInv, ServiceInv, AckerInv, VoterInv, CommitInv, SavedInv, LeadingInv, RunningInv,
      Grows, Represents, Holds, EntryOf, ValidLog, AgreeUpTo;
    var x, y := PeerAt(r, j, a), PeerAt(r, k, b);
    var hs := RunHistory(r);
    PeerFacts(r, hs, j, a);
    PeerFacts(r, hs, k, b);
    GrowsAlong(r, hs, j, k);
    var f, g := hs[j].logs[a], hs[k].logs[b];
    ValidLogGrows(hs[j], hs[k], f);
    HoldsIs(x, f, m);
    HoldsIs(y, g, m);
    LogMatching(hs[k], f, g, m - 1);
    PrefixAgree(x, f, y, g, m);
  }

  // ----------------------------------------------------- leader completeness

  lemma {:induction false} CommittedInStart(h: History, n: int, s: seq<Entry>, t: int, u: int)
    requires n >= 0 && HistoryInv(h, n) && Committed(h, s, t) && t < u && u in h.reigns
    ensures s <= h.reigns[u].start
  {
    hide HistoryInv;
    if s != [] {
      var c := CommitOf(h, s, t);
      LeaderCompleteness(h, n, c, u);
      PrefixTrans(s, h.reigns[c.term].log[..c.index], h.reigns[u].start);
    }
  }

  lemma CommittedIn(h: History, n: int, i: int, s: Node, f: seq<Entry>)
    requires NodeInv(h, n, i, s, f)
    ensures Represents(s, f) && 0 <= s.snapIndex <= s.commitIndex <= |f| && Committed(h, f[..s.commitIndex], s.term)
  {
    CommittedPrefix(h, f[..s.commitIndex], f[..s.commitIndex], Recovered(s.disk).term, s.term);
  }

  /** What the log of the leader `b` was elected with is still in it. */
  lemma LeaderHasStart(h: History, n: int, i: int, s: Node, f: seq<Entry>)
    requires HistoryInv(h, n) && NodeInv(h, n, i, s, f) && s.role == Leader
    ensures Represents(s, f) && s.term in h.reigns && h.reigns[s.term].start <= f
  {
    StartInLog(h, n, s.term);
  }

  /** Leader completeness: whatever any server has marked committed at any
      moment, in particular what a leader of a term commits in that term, is
      held, in log or snapshot, by every leader of a later term at any moment,
      even one whose election came before the commit. */
  lemma {:induction false} LeaderCompletenessInRuns(r: Run, j: int, a: int, k: int, b: int)
    requires IsRun(r) && 0 <= j <= |r.acts| && 0 <= k <= |r.acts| && 0 <= a < r.n && 0 <= b < r.n
    requires PeerAt(r, k, b).role == Leader && PeerAt(r, j, a).term < PeerAt(r, k, b).term
    ensures PeerAt(r, j, a).commitIndex <= LastIndex(PeerAt(r, k, b))
    ensures AgreeUpTo(PeerAt(r, j, a), PeerAt(r, k, b), PeerAt(r, j, a).commitIndex)
  {
    hide IsRun, Tracks, HistoryInv, NodeInv, ServiceInv, Committed, Represents, AgreeUpTo;
    var x, y := PeerAt(r, j, a), PeerAt(r, k, b);
    var hs := RunHistory(r);
    PeerFacts(r, hs, j, a);
    PeerFacts(r, hs, k, b);
    var f, g, e := hs[j].logs[a], hs[k].logs[b], Max(j, k);
    GrowsAlong(r, hs, j, e);
    GrowsAlong(r, hs, k, e);
    PeerFacts(r, hs, e, a);
    CommittedIn(hs[j], r.n, a, x, f);
    CommittedGrows(hs[j], hs[e], f[..x.commitIndex], x.term);
    LeaderHasStart(hs[k], r.n, b, y, g);
    CommittedInStart(hs[e], r.n, f[..x.commitIndex], x.term, y.term);
    PrefixTrans(f[..x.commitIndex], hs[k].reigns[y.term].start, g);
    RepresentsLast(y, g);
    PrefixAgree(x, f, y, g, x.commitIndex);
  }

  // ---------------------------------------------------- state machine safety

  /** The longest committed prefix: every other one is a prefix of it. */
  lemma {:induction false} LongestCommitted(h: History, n: int, cs: set<Commitment>) returns (l: seq<Entry>)
    requires n >= 0 && HistoryInv(h, n) && cs <= h.commits
    ensures exists t :: Committed(h, l, t)
    ensures forall c :: c in cs ==>
      c.term in h.reigns && 0 <= c.index <= |h.reigns[c.term].log| && h.reigns[c.term].log[..c.index] <= l
    decreases |cs|
  {
    hide HistoryInv;
    if cs == {} {
      l := [];
      assert Committed(h, l, 0);
    } else {
      var c :| c in cs;
      l := LongestCommitted(h, n, cs - {c});
      var t :| Committed(h, l, t);
      CommitIsCommitted(h, n, c);
      var p := h.reigns[c.term].log[..c.index];
      if |p| <= |l| {
        CommittedAgree(h, n, p, c.term, l, t);
      } else {
        CommittedAgree(h, n, l, t, p, c.term);
        forall d | d in cs
          ensures d.term in h.reigns && 0 <= d.index <= |h.reigns[d.term].log| && h.reigns[d.term].log[..d.index] <= p
        {
          if d != c {
            assert d in cs - {c};
            PrefixTrans(h.reigns[d.term].log[..d.index], l, p);
          }
        }
        l := p;
      }
    }
  }

  lemma CommitIsCommitted(h: History, n: int, c: Commitment)
    requires HistoryInv(h, n) && c in h.commits
    ensures c.term in h.reigns && 0 <= c.index <= |h.reigns[c.term].log| &&
      Committed(h, h.reigns[c.term].log[..c.index], c.term)
  {
    assert CommitmentInv(h, n, c);
    assert CommittedBy(h, h.reigns[c.term].log[..c.index], c.term, c);
  }

  /** The one log all servers of the run commit from. */
  lemma {:induction false} CommittedLog(h: History, n: int) returns (l: seq<Entry>)
    requires n >= 0 && HistoryInv(h, n)
    ensures (exists t :: Committed(h, l, t)) && forall s, t :: Committed(h, s, t) ==> s <= l
  {
    hide HistoryInv;
    l := LongestCommitted(h, n, h.commits);
    forall s, t | Committed(h, s, t)
      ensures s <= l
    {
      if s != [] {
        var c := CommitOf(h, s, t);
        PrefixTrans(s, h.reigns[c.term].log[..c.index], l);
      }
    }
  }

  /** A message handed to a service tells of the log `items`: a command is the
      item at its index, a snapshot the fold of all items up to its index. */
  predicate TellsOf(m: ApplyMsg, items: seq<Item>) {
    1 <= m.index <= |items| &&
    match m
    case CommandMsg(index, item) => item == items[index - 1]
    case SnapshotMsg(index, image) => image == Image(Fold(items[..index]))
  }

  /** Everything a server has committed, compacted or executed is a prefix of
      `items`, and its machine is the plain fold of one. */
  ghost predicate ServerFollows(s: Server, items: seq<Item>) {
    0 <= s.rf.snapIndex <= s.rf.commitIndex <= |items| &&
    (s.rf.snapIndex > 0 ==> s.rf.snapshot == Image(Fold(items[..s.rf.snapIndex]))) &&
    (forall m :: Holds(s.rf, m) && m <= s.rf.commitIndex ==> EntryOf(s.rf, m).item == items[m - 1]) &&
    (exists p :: 0 <= p <= s.rf.commitIndex && s.kv == Fold(items[..p]))
  }

  lemma ItemsPrefix(f: seq<Entry>, l: seq<Entry>, k: int)
    requires 0 <= k <= |f| && f[..k] <= l
    ensures k <= |l| && Items(f[..k]) == Items(l)[..k]
  {
    hide Items;
    var a, b := Items(f[..k]), Items(l)[..k];
    forall i | 0 <= i < k
      ensures a[i] == b[i]
    {
      assert f[..k][i] == l[i];
    }
  }

  lemma {:induction false} FollowsLog(h: History, n: int, i: int, s: Server, f: seq<Entry>, p: int, l: seq<Entry>)
    requires NodeInv(h, n, i, s.rf, f) && ServiceInv(s, f, p) && f[..s.rf.commitIndex] <= l
    ensures ServerFollows(s, Items(l))
  {
    hide Committed, AckerInv, VoterInv, ReignedInv, LogInv, LeadingInv, RunningInv, SavedInv, BatchInv, Fold, EntryOf;
    var c, items := s.rf.commitIndex, Items(l);
    ItemsPrefix(f, l, c);
    ItemsPrefix(f, l, p) by { PrefixTrans(f[..p], f[..c], l); }
    ItemsPrefix(f, l, s.rf.snapIndex) by { PrefixTrans(f[..s.rf.snapIndex], f[..c], l); }
    forall m | Holds(s.rf, m) && m <= c
      ensures EntryOf(s.rf, m).item == items[m - 1]
    {
      HoldsIs(s.rf, f, m);
      assert f[..c][m - 1] == l[m - 1];
      ItemsAt(l, m - 1);
    }
  }

  lemma ItemsAt(l: seq<Entry>, i: int)
    requires 0 <= i < |l|
    ensures Items(l)[i] == l[i].item
  {
  }

  lemma {:induction false} DeliveryFollows(s: Server, f: seq<Entry>, p: int, l: seq<Entry>, c: int)
    requires ServiceInv(s, f, p) && s.batch != [] && s.rf.lastApplied <= c <= |f| && f[..c] <= l
    ensures TellsOf(s.batch[0], Items(l))
  {
    hide Fold, Items, Read, ServiceInv, BatchInv;
    DeliveredService(s, f, p);
    var k := NextPos(s, p);
    ServiceRange(s, f, p);
    ItemsPrefix(f, l, k) by { PrefixTrans(f[..k], f[..c], l); }
    if s.batch[0].CommandMsg? {
      assert f[..c][p] == l[p];
      ItemsAt(l, p);
    }
  }

  lemma ServiceRange(s: Server, f: seq<Entry>, p: int)
    requires ServiceInv(s, f, p)
    ensures 0 <= p <= s.rf.lastApplied <= |f|
  {
  }

  lemma FinalHistory(r: Run, hs: seq<History>)
    requires Tracks(r, hs)
    ensures |hs| == |r.acts| + 1 == |r.ws| && HistoryInv(hs[|r.acts|], r.n)
  {
    hide MsgInv, NodeInv, ServiceInv, HistoryInv, Follows, Grows, Enabled;
    TracksAt(r, hs, |r.acts|);
  }

  /** What a server has committed at some moment is in the run's log. */
  lemma {:induction false} CommittedInRun(r: Run, hs: seq<History>, k: int, i: int, l: seq<Entry>)
    requires IsRun(r) && Tracks(r, hs) && 0 <= k <= |r.acts| && 0 <= i < r.n && |hs| == |r.acts| + 1
    requires forall s, t :: Committed(hs[|r.acts|], s, t) ==> s <= l
    ensures i < |hs[k].logs| && 0 <= PeerAt(r, k, i).commitIndex <= |hs[k].logs[i]| &&
      hs[k].logs[i][..PeerAt(r, k, i).commitIndex] <= l
  {
    hide IsRun, Tracks, HistoryInv, NodeInv, ServiceInv, Committed, Grows;
    PeerFacts(r, hs, k, i);
    var s, f := PeerAt(r, k, i), hs[k].logs[i];
    CommittedIn(hs[k], r.n, i, s, f);
    GrowsAlong(r, hs, k, |r.acts|);
    CommittedGrows(hs[k], hs[|r.acts|], f[..s.commitIndex], s.term);
  }

  lemma {:induction false} ServerInRun(r: Run, hs: seq<History>, k: int, i: int, l: seq<Entry>)
    requires IsRun(r) && Tracks(r, hs) && 0 <= k <= |r.acts| && 0 <= i < r.n && |hs| == |r.acts| + 1
    requires forall s, t :: Committed(hs[|r.acts|], s, t) ==> s <= l
    ensures ServerFollows(ServerAt(r, k, i), Items(l))
  {
    hide IsRun, Tracks, HistoryInv, NodeInv, ServiceInv, Committed, ServerFollows, Grows, Items;
    PeerFacts(r, hs, k, i);
    CommittedInRun(r, hs, k, i, l);
    FollowsLog(hs[k], r.n, i, ServerAt(r, k, i), hs[k].logs[i], hs[k].pos[i], l);
  }

  lemma {:induction false} DeliveryInRun(r: Run, hs: seq<History>, k: int, l: seq<Entry>)
    requires IsRun(r) && Tracks(r, hs) && 0 <= k < |r.acts| && r.acts[k].Deliver? && 0 <= r.acts[k].i < r.n &&
      |hs| == |r.acts| + 1
    requires forall s, t :: Committed(hs[|r.acts|], s, t) ==> s <= l
    ensures var s := ServerAt(r, k, r.acts[k].i); s.batch != [] && TellsOf(s.batch[0], Items(l))
  {
    hide IsRun, Tracks, HistoryInv, NodeInv, ServiceInv, Committed, TellsOf, Grows, Items;
    var i := r.acts[k].i;
    TracksStep(r, hs, k);
    PeerFacts(r, hs, k, i);
    CommittedInRun(r, hs, k, i, l);
    NodeCommit(hs[k], r.n, i, PeerAt(r, k, i), hs[k].logs[i]);
    DeliveryFollows(ServerAt(r, k, i), hs[k].logs[i], hs[k].pos[i], l, PeerAt(r, k, i).commitIndex);
  }

  // ------------------------------------------------------ apply stream order

  /** Does the action hand server `i` a message or restart it? */
  predicate MovesMachine(a: Action, i: int) {
    (a.Deliver? || a.Crash? || a.CrashAfterTerm?) && a.i == i
  }

  lemma {:induction false} PositionKept(r: Run, hs: seq<History>, j: int, k: int, i: int)
    requires IsRun(r) && Tracks(r, hs) && 0 <= j <= k <= |r.acts| && 0 <= i < r.n
    requires forall m :: j <= m < k ==> !MovesMachine(r.acts[m], i)
    ensures |hs| == |r.acts| + 1 && |hs[j].pos| == |hs[k].pos| == r.n && hs[k].pos[i] == hs[j].pos[i]
    decreases k
  {
    hide IsRun, Tracks, HistoryInv, NodeInv, ServiceInv, Grows, Enabled, NoNewEntries, NextPos, LastIndex;
    PeerFacts(r, hs, j, i);
    PeerFacts(r, hs, k, i);
    if j < k {
      PositionKept(r, hs, j, k - 1, i);
      TracksStep(r, hs, k - 1);
    }
  }

  /** The position a restart or a delivery leaves the machine at. */
  ghost function PositionAfter(r: Run, k: int): int
    requires IsRun(r) && 0 <= k < |r.acts| && 0 <= r.acts[k].i < r.n
  {
    var s := ServerAt(r, k, r.acts[k].i);
    if r.acts[k].Deliver? && s.batch != [] then s.batch[0].index else s.rf.snapIndex
  }

  lemma {:induction false} PositionSet(r: Run, hs: seq<History>, j: int, i: int)
    requires IsRun(r) && Tracks(r, hs) && 0 <= j < |r.acts| && 0 <= i < r.n && MovesMachine(r.acts[j], i)
    ensures |hs| == |r.acts| + 1 && |hs[j + 1].pos| == r.n && hs[j + 1].pos[i] == PositionAfter(r, j)
  {
    hide IsRun, Tracks, HistoryInv, NodeInv, ServiceInv, Grows, NoNewEntries, LastIndex, Read;
    PeerFacts(r, hs, j, i);
    PeerFacts(r, hs, j + 1, i);
    TracksStep(r, hs, j);
    var s := ServerAt(r, j, i);
    if r.acts[j].Deliver? {
      DeliveredService(s, hs[j].logs[i], hs[j].pos[i]);
    }
  }

  /** The stream to a service has no gap and no repeat: after a restart or a
      delivery that leaves the machine at position p, the next message is the
      command at p + 1 or a snapshot strictly beyond p, whatever else happens
      in between, snapshots taken and installed included. */
  lemma {:induction false} ApplyStreamOrder(r: Run, j: int, k: int, i: int)
    requires IsRun(r) && 0 <= j < k < |r.acts| && 0 <= i < r.n
    requires MovesMachine(r.acts[j], i) && r.acts[k] == Deliver(i)
    requires forall m :: j < m < k ==> !MovesMachine(r.acts[m], i)
    ensures ServerAt(r, k, i).batch != []
    ensures var m := ServerAt(r, k, i).batch[0];
            if m.CommandMsg? then m.index == PositionAfter(r, j) + 1 else m.index > PositionAfter(r, j)
  {
    hide IsRun, Tracks, HistoryInv, NodeInv, ServiceInv, Grows, NoNewEntries, Read, PositionAfter;
    var hs := RunHistory(r);
    PositionSet(r, hs, j, i);
    PositionKept(r, hs, j + 1, k, i);
    PeerFacts(r, hs, k, i);
    TracksStep(r, hs, k);
    DeliveredService(ServerAt(r, k, i), hs[k].logs[i], hs[k].pos[i]);
  }

  /** A freshly started machine that has had no message yet stands at 0. */
  lemma {:induction false} FirstMessage(r: Run, k: int, i: int)
    requires IsRun(r) && 0 <= k < |r.acts| && 0 <= i < r.n && r.acts[k] == Deliver(i)
    requires forall m :: 0 <= m < k ==> !MovesMachine(r.acts[m], i)
    ensures ServerAt(r, k, i).batch != []
    ensures ServerAt(r, k, i).batch[0].CommandMsg? ==> ServerAt(r, k, i).batch[0].index == 1
  {
    hide IsRun, Tracks, HistoryInv, NodeInv, Grows, NoNewEntries, Read, ServiceInv;
    var hs := RunHistory(r);
    PositionKept(r, hs, 0, k, i);
    PeerFacts(r, hs, k, i);
    PeerFacts(r, hs, 0, i);
    StartsAtZero(r, hs, i);
    TracksStep(r, hs, k);
    DeliveredService(ServerAt(r, k, i), hs[k].logs[i], hs[k].pos[i]);
  }

  lemma StartsAtZero(r: Run, hs: seq<History>, i: int)
    requires IsRun(r) && 0 <= i < r.n && |hs| > 0 && |hs[0].pos| == r.n && |hs[0].logs| == r.n
    requires ServiceInv(ServerAt(r, 0, i), hs[0].logs[i], hs[0].pos[i])
    ensures hs[0].pos[i] == 0
  {
    assert r.ws[0] == Init(r.n);
  }

  // -------------------------------------------------- one log for the whole run

  /** Between actions `j` and `k` no action moves server `i`'s machine. */
  ghost predicate Still(r: Run, j: int, k: int, i: int) {
    forall m :: 0 <= m < |r.acts| && j < m < k ==> !MovesMachine(r.acts[m], i)
  }

  /** In state `k` server `i` has executed exactly the first `p` commands of
      `items`, all of them committed. */
  ghost predicate ExecutedTo(r: Run, k: int, i: int, p: int, items: seq<Item>)
    requires IsRun(r) && 0 <= k <= |r.acts| && 0 <= i < r.n
  {
    0 <= p <= PeerAt(r, k, i).commitIndex <= |items| && ServerAt(r, k, i).kv == Fold(items[..p])
  }

  /** The log `items` explains the run. Every server at every moment has
      committed and compacted prefixes of it. Every message delivered tells of
      it. Every machine is the fold of exactly the commands up to the position
      its last delivery or restart left it at, and empty before the first. */
  ghost predicate Explains(r: Run, items: seq<Item>)
    requires IsRun(r)
  {
    (forall k, i :: 0 <= k <= |r.acts| && 0 <= i < r.n ==> ServerFollows(ServerAt(r, k, i), items)) &&
    (forall k :: 0 <= k < |r.acts| && r.acts[k].Deliver? && 0 <= r.acts[k].i < r.n ==>
       ServerAt(r, k, r.acts[k].i).batch != [] && TellsOf(ServerAt(r, k, r.acts[k].i).batch[0], items)) &&
    (forall j, k, i :: 0 <= j < k <= |r.acts| && 0 <= i < r.n && MovesMachine(r.acts[j], i) && Still(r, j, k, i) ==>
       ExecutedTo(r, k, i, PositionAfter(r, j), items)) &&
    (forall k, i :: 0 <= k <= |r.acts| && 0 <= i < r.n && Still(r, -1, k, i) ==> ServerAt(r, k, i).kv == EMPTY)
  }

  lemma FoldAt(s: Server, f: seq<Entry>, p: int, l: seq<Entry>)
    requires ServiceInv(s, f, p) && 0 <= p <= |f| && f[..p] <= l
    ensures p <= |l| && s.kv == Fold(Items(l)[..p])
  {
    hide BatchInv, Items, Fold;
    ItemsPrefix(f, l, p);
  }

  lemma {:induction false} StateInRun(r: Run, hs: seq<History>, k: int, i: int, p: int, l: seq<Entry>)
    requires IsRun(r) && Tracks(r, hs) && 0 <= k <= |r.acts| && 0 <= i < r.n && |hs| == |r.acts| + 1
    requires forall s, t :: Committed(hs[|r.acts|], s, t) ==> s <= l
    requires |hs[k].pos| == r.n && hs[k].pos[i] == p
    ensures ExecutedTo(r, k, i, p, Items(l))
  {
    hide IsRun, Tracks, HistoryInv, NodeInv, ServiceInv, Committed, Grows, Items, Fold;
    PeerFacts(r, hs, k, i);
    var s, f := ServerAt(r, k, i), hs[k].logs[i];
    CommittedInRun(r, hs, k, i, l);
    NodeCommit(hs[k], r.n, i, s.rf, f);
    ServiceRange(s, f, p);
    PrefixTrans(f[..p], f[..s.rf.commitIndex], l);
    FoldAt(s, f, p, l);
    ItemsCount(l);
  }

  lemma ItemsCount(l: seq<Entry>)
    ensures |Items(l)| == |l|
  {
  }

  lemma {:induction false} MovedInRun(r: Run, hs: seq<History>, j: int, k: int, i: int, l: seq<Entry>)
    requires IsRun(r) && Tracks(r, hs) && 0 <= j < k <= |r.acts| && 0 <= i < r.n && |hs| == |r.acts| + 1
    requires forall s, t :: Committed(hs[|r.acts|], s, t) ==> s <= l
    requires MovesMachine(r.acts[j], i) && Still(r, j, k, i)
    ensures ExecutedTo(r, k, i, PositionAfter(r, j), Items(l))
  {
    hide IsRun, Tracks, Committed, Items, PositionAfter, ExecutedTo;
    PositionSet(r, hs, j, i);
    PositionKept(r, hs, j + 1, k, i);
    StateInRun(r, hs, k, i, PositionAfter(r, j), l);
  }

  lemma {:induction false} UnmovedInRun(r: Run, hs: seq<History>, k: int, i: int, l: seq<Entry>)
    requires IsRun(r) && Tracks(r, hs) && 0 <= k <= |r.acts| && 0 <= i < r.n && |hs| == |r.acts| + 1
    requires forall s, t :: Committed(hs[|r.acts|], s, t) ==> s <= l
    requires Still(r, -1, k, i)
    ensures ServerAt(r, k, i).kv == EMPTY
  {
    hide IsRun, Tracks, Committed, Items, HistoryInv, NodeInv, ServiceInv;
    PositionKept(r, hs, 0, k, i);
    PeerFacts(r, hs, 0, i);
    StartsAtZero(r, hs, i);
    StateInRun(r, hs, k, i, 0, l);
    assert Items(l)[..0] == [];
  }

  lemma {:induction false} LogExplains(r: Run, hs: seq<History>, l: seq<Entry>)
    requires IsRun(r) && Tracks(r, hs) && |hs| == |r.acts| + 1
    requires forall s, t :: Committed(hs[|r.acts|], s, t) ==> s <= l
    ensures Explains(r, Items(l))
  {
    hide IsRun, Tracks, Committed, ServerFollows, TellsOf, Items, ExecutedTo, PositionAfter, Still, MovesMachine;
    var items := Items(l);
    forall k, i | 0 <= k <= |r.acts| && 0 <= i < r.n
      ensures ServerFollows(ServerAt(r, k, i), items)
    {
      ServerInRun(r, hs, k, i, l);
    }
    forall k | 0 <= k < |r.acts| && r.acts[k].Deliver? && 0 <= r.acts[k].i < r.n
      ensures ServerAt(r, k, r.acts[k].i).batch != [] && TellsOf(ServerAt(r, k, r.acts[k].i).batch[0], items)
    {
      DeliveryInRun(r, hs, k, l);
    }
    forall j, k, i | 0 <= j < k <= |r.acts| && 0 <= i < r.n && MovesMachine(r.acts[j], i) && Still(r, j, k, i)
      ensures 0 <= r.acts[j].i < r.n && ExecutedTo(r, k, i, PositionAfter(r, j), items)
    {
      MovesOwn(r.acts[j], i);
      MovedInRun(r, hs, j, k, i, l);
    }
    forall k, i | 0 <= k <= |r.acts| && 0 <= i < r.n && Still(r, -1, k, i)
      ensures ServerAt(r, k, i).kv == EMPTY
    {
      UnmovedInRun(r, hs, k, i, l);
    }
  }

  lemma MovesOwn(a: Action, i: int)
    requires MovesMachine(a, i)
    ensures a.i == i
  {
  }

  /** State machine safety: one log explains the whole run. So no two servers,
      at any times, deliver different commands for an index, a snapshot at an
      index stands for the same commands everywhere, and after any mix of
      commands, restored snapshots and restarts a replica's state is the fold of
      the commands up to its own position. */
  lemma {:induction false} StateMachineSafety(r: Run) returns (items: seq<Item>)
    requires IsRun(r)
    ensures Explains(r, items)
  {
    hide IsRun, Tracks, HistoryInv, Committed, Explains, Items;
    var hs := RunHistory(r);
    FinalHistory(r, hs);
    var l := CommittedLog(hs[|r.acts|], r.n);
    items := Items(l);
    LogExplains(r, hs, l);
  }

  // ---------------------------------------------- index ranges and disk state

  /** In every reachable state every peer's indices are in order, its saved log
      and snapshot are the ones in memory, and each read of the log that a
      handler makes stays inside it. */
  lemma {:induction false} IndicesInRange(r: Run, k: int, i: int)
    requires IsRun(r) && 0 <= k <= |r.acts| && 0 <= i < r.n
    ensures var s := PeerAt(r, k, i);
            var d := Recovered(s.disk);
            0 <= s.snapIndex <= s.commitIndex <= LastIndex(s) && 0 <= s.lastApplied <= s.commitIndex &&
            CollectInRange(s) && ServerAt(r, k, i).applied <= LastIndex(s) &&
            d.log == s.log && d.snapIndex == s.snapIndex && d.snapTerm == s.snapTerm && d.snapshot == s.snapshot
    ensures var s := PeerAt(r, k, i);
            s.role == Leader ==> forall p :: 0 <= p < |s.nextIndex| ==>
              1 <= s.nextIndex[p] <= LastIndex(s) + 1 && (!NeedsSnapshot(s, p) ==> AppendRequestInRange(s, p))
  {
    hide IsRun, Tracks, HistoryInv, AckerInv, VoterInv, ReignedInv, LogInv, RunningInv, MatchInv, Committed, BatchInv;
    var hs := RunHistory(r);
    PeerFacts(r, hs, k, i);
  }

  lemma MessageFacts(r: Run, hs: seq<History>, k: int, m: Msg)
    requires IsRun(r) && Tracks(r, hs) && 0 <= k <= |r.acts| && m in r.ws[k].net
    ensures |hs| == |r.acts| + 1 && MsgInv(hs[k], r.n, m) && HistoryInv(hs[k], r.n)
  {
    hide HistoryInv, NodeInv, ServiceInv, MsgInv, Follows, Grows, Enabled;
    TracksAt(r, hs, k);
  }

  /** Every append request ever sent has a commit index within what it sends.
      So the follower's commit rule, the smaller of that index and its own last
      index, never moves past the last sent entry, and equals the smaller of
      that index and the last sent entry. */
  lemma {:induction false} FollowerCommitIsExact(r: Run, k: int, i: int, a: AppendArgs)
    requires IsRun(r) && 0 <= k <= |r.acts| && 0 <= i < r.n && AppendReq(i, a) in r.ws[k].net
    ensures 0 <= a.commit <= a.prev + |a.entries|
    ensures var s := PeerAt(r, k, i);
            var (s', reply) := AppendEntries(s, a);
            reply.success ==>
                s'.commitIndex == Max(s.commitIndex, Min(a.commit, a.prev + |a.entries|)) &&
                a.prev + |a.entries| <= LastIndex(s')
  {
    hide IsRun, Tracks, HistoryInv, NodeInv, ServiceInv, Adopt, AppendEntries, Accepts;
    var hs := RunHistory(r);
    PeerFacts(r, hs, k, i);
    MessageFacts(r, hs, k, AppendReq(i, a));
    var s, f, h := PeerAt(r, k, i), hs[k].logs[i], hs[k];
    if AppendEntries(s, a).1.success {
      SuccessIsAcceptance(s, a);
      AcceptedLog(h, r.n, i, s, f, a);
      AdoptHolds(f, h.reigns[a.term].log[..a.prev + |a.entries|]);
      RepresentsLast(AppendEntries(s, a).0, Adopt(f, h.reigns[a.term].log[..a.prev + |a.entries|]));
    }
  }

  lemma SuccessIsAcceptance(s: Node, a: AppendArgs)
    requires AppendEntries(s, a).1.success
    ensures Accepts(s, a)
  {
  }

  /** Fast backup makes progress in every run: a rejection that carries a hint,
      handled by the leader that sent the request in the same term, makes it
      resume between 1 and the rejected index. */
  lemma {:induction false} BackupInRuns(r: Run, k: int, i: int, peer: int, a: AppendArgs, reply: AppendReply)
    requires IsRun(r) && 0 <= k <= |r.acts| && 0 <= i < r.n && 0 <= peer < r.n
    requires AppendRep(peer, a, reply) in r.ws[k].net && !reply.success && reply.xTerm != 0 && reply.term <= a.term
    requires PeerAt(r, k, i).role == Leader && PeerAt(r, k, i).term == a.term
    ensures |PeerAt(r, k, i).nextIndex| == r.n == |PeerAt(r, k, i).matchIndex| && PeerAt(r, k, i).me == i
    ensures 1 <= AppendAnswer(PeerAt(r, k, i), peer, a, reply).nextIndex[peer] <= a.prev
  {
    hide IsRun, Tracks, HistoryInv, ServiceInv, AckerInv, VoterInv, ReignedInv, RunningInv, MatchInv, Committed,
      Backup, ValidLog, Ordered;
    var hs := RunHistory(r);
    PeerFacts(r, hs, k, i);
    MessageFacts(r, hs, k, AppendRep(peer, a, reply));
    BackupProgress(hs[k], PeerAt(r, k, i), hs[k].logs[i], a, reply);
  }

  /** A rejection without a hint, as a request below the follower's snapshot
      gets it, makes the leader of the same term resume at exactly 1. That
      is no later than the rejected index if and only if that index was not 0.
      If it was 0, the next request is a snapshot if and only if the leader has
      compacted, and starts at 0 again otherwise. */
  lemma {:induction false} NoHintRestarts(r: Run, k: int, i: int, peer: int, a: AppendArgs, reply: AppendReply)
    requires IsRun(r) && 0 <= k <= |r.acts| && 0 <= i < r.n && 0 <= peer < r.n
    requires AppendRep(peer, a, reply) in r.ws[k].net && !reply.success && reply.xTerm == 0 && reply.term <= a.term
    requires PeerAt(r, k, i).role == Leader && PeerAt(r, k, i).term == a.term
    ensures |PeerAt(r, k, i).nextIndex| == r.n == |PeerAt(r, k, i).matchIndex| && PeerAt(r, k, i).me == i
    ensures var s := AppendAnswer(PeerAt(r, k, i), peer, a, reply);
            s.nextIndex == PeerAt(r, k, i).nextIndex[peer := 1] && (s.nextIndex[peer] <= a.prev <==> a.prev >= 1)
    ensures var s := AppendAnswer(PeerAt(r, k, i), peer, a, reply);
            (NeedsSnapshot(s, peer) <==> s.snapIndex >= 1) &&
            (!NeedsSnapshot(s, peer) ==> AppendRequest(s, peer).prev == 0)
  {
    hide IsRun, Tracks, HistoryInv, ServiceInv, AckerInv, VoterInv, ReignedInv, RunningInv, MatchInv, Committed,
      Backup, ValidLog, Ordered;
    var hs := RunHistory(r);
    PeerFacts(r, hs, k, i);
    MessageFacts(r, hs, k, AppendRep(peer, a, reply));
    BackupProgress(hs[k], PeerAt(r, k, i), hs[k].logs[i], a, reply);
  }

  /** The answer closure of an append call reads only inside the log. */
  lemma {:induction false} AnswerInRange(r: Run, k: int, i: int, peer: int, a: AppendArgs, reply: AppendReply)
    requires IsRun(r) && 0 <= k <= |r.acts| && 0 <= i < r.n && AppendRep(peer, a, reply) in r.ws[k].net && a.leader == i
    ensures AppendAnswerInRange(PeerAt(r, k, i), a)
  {
    hide IsRun, Tracks, HistoryInv, ServiceInv, AckerInv, VoterInv, ReignedInv, RunningInv, Committed, Median;
    var hs := RunHistory(r);
    PeerFacts(r, hs, k, i);
    MessageFacts(r, hs, k, AppendRep(peer, a, reply));
    if PeerAt(r, k, i).role == Leader {
      MatchInRange(hs[k], r.n, i, PeerAt(r, k, i), hs[k].logs[i]);
    }
  }
}
