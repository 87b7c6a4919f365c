/** The steps in which a server takes over log entries or a snapshot from the
    leader of its term. */
module FollowerSteps {
  import opened KvMachine
  import opened RaftTypes
  import opened RaftHandlers
  import opened History
  import opened Completeness
  import opened Growth
  import opened Compaction

  // ------------------------------------------------- adopting a leader's log

  /** Adopting never drops a prefix that the leader also has. */
  lemma AdoptKeepsPrefix(p: seq<Entry>, f: seq<Entry>, l: seq<Entry>, j: int)
    requires p <= f && p <= l && 0 <= j <= |l|
    ensures p <= Adopt(f, l[..j])
  {
    var s := l[..j];
    if !(s <= f) {
      if j <= |p| {
        PrefixOrder(s, p, l);
        PrefixTrans(s, p, f);
      } else {
        PrefixOrder(p, s, l);
      }
    }
  }

  lemma AdoptHolds(f: seq<Entry>, s: seq<Entry>)
    ensures s <= Adopt(f, s)
  {
  }

  /** Acknowledged entries survive adoption unless the adopted leader was
      elected without them. */
  lemma {:induction false} KeptAdopt(h: History, n: int, f: seq<Entry>, t: int, k: int, u: int, x: int, j: int, u': int)
    requires HistoryInv(h, n) && t in h.reigns && k <= |h.reigns[t].log| && Kept(h, f, t, k, u)
    requires x in h.reigns && t <= x < u' && u <= u' && 0 <= j <= |h.reigns[x].log|
    ensures Kept(h, Adopt(f, h.reigns[x].log[..j]), t, k, u')
  {
    var l := h.reigns[x].log;
    StartInLog(h, n, x);
    forall m | 1 <= m <= k && h.reigns[t].log[m - 1].term == t
      ensures h.reigns[t].log[..m] <= Adopt(f, l[..j]) || Overwritten(h, t, m, u')
    {
      var p := h.reigns[t].log[..m];
      if p <= f {
        if t == x {
          AdoptKeepsPrefix(p, f, l, j);
        } else if p <= h.reigns[x].start {
          PrefixTrans(p, h.reigns[x].start, l);
          AdoptKeepsPrefix(p, f, l, j);
        } else {
          assert t < x < u' && x in h.reigns;
        }
      } else {
        assert Overwritten(h, t, m, u);
      }
    }
  }

  /** What a server has committed survives adoption. */
  lemma CommittedAdopt(h: History, n: int, f: seq<Entry>, c: int, d: int, x: int, j: int)
    requires n >= 0 && HistoryInv(h, n) && 0 <= c <= |f| && Committed(h, f[..c], d)
    requires d <= x && x in h.reigns && 0 <= j <= |h.reigns[x].log|
    ensures var f' := Adopt(f, h.reigns[x].log[..j]); c <= |f'| && f'[..c] == f[..c]
  {
    CommittedInLeader(h, n, f[..c], d, x);
    AdoptKeepsPrefix(f[..c], f, h.reigns[x].log, j);
  }

  lemma LogInvAdopt(h: History, n: int, f: seq<Entry>, d: int, x: int, j: int)
    requires HistoryInv(h, n) && LogInv(h, f, d) && d <= x && x in h.reigns && 0 <= j <= |h.reigns[x].log|
    ensures LogInv(h, Adopt(f, h.reigns[x].log[..j]), x)
  {
    LeaderLog(h, n, x);
    PrefixValid(h, h.reigns[x].log[..j], h.reigns[x].log);
  }

  lemma LeaderLog(h: History, n: int, x: int)
    requires HistoryInv(h, n) && x in h.reigns
    ensures LogInv(h, h.reigns[x].log, x)
  {
    assert ReignInv(h, n, x);
    var r := h.reigns[x];
    forall i | 0 <= i < |r.log|
      ensures r.log[i].term < x + 1
    {
      if i < |r.start| {
        assert r.log[i] == r.start[i];
      }
    }
  }

  /** Server `i` has log `f` from now on, and has acknowledged `k` entries in
      term `x` if it had not acknowledged more. */
  function Took(h: History, i: int, f: seq<Entry>, x: int, k: nat): History
    requires 0 <= i < |h.logs|
  {
    h.(logs := h.logs[i := f], acks := h.acks[Key(i, x) := Max(Acked(h, i, x), k)])
  }

  lemma TookGrows(h: History, i: int, f: seq<Entry>, x: int, k: nat)
    requires 0 <= i < |h.logs|
    ensures GrowsBy(h, Took(h, i, f, x, k), i)
  {
  }

  lemma {:induction false} TookHistory(h: History, n: int, i: int, f: seq<Entry>, x: int, k: nat)
    requires HistoryInv(h, n) && 0 <= i < n && x in h.reigns && k <= |h.reigns[x].log|
    requires forall v :: v in h.votes && v.who == i ==> v.term <= x
    ensures HistoryInv(Took(h, i, f, x, k), n)
  {
    hide ReignInv, VoteInv, CommitmentInv;
    var h' := Took(h, i, f, x, k);
    TookGrows(h, i, f, x, k);
    forall t | t in h'.reigns ensures ReignInv(h', n, t) { ReignGrows(h, h', n, t); }
    forall v | v in h'.votes ensures VoteInv(h', n, v) { VoteGrows(h, h', n, v); }
    forall c | c in h'.commits ensures CommitmentInv(h', n, c) { CommitmentGrows(h, h', n, c); }
    forall a | a in h'.acks ensures AckInv(h',
        a) { if a != Key(i, x) { assert AckInv(h, a); } else if a in h.acks { assert AckInv(h, a); } }
  }

  /** Old acknowledgements hold of a server that adopts `k` entries of the
      leader of `x`. */
  lemma {:induction false} AckerAdopt(h: History, n: int, i: int, f: seq<Entry>, d: int, x: int, k: nat)
    requires HistoryInv(h, n) && AckerInv(h, i, f, d) && d <= x && x in h.reigns && k <= |h.reigns[x].log|
    ensures AckerInv(h, i, Adopt(f, h.reigns[x].log[..k]), x)
  {
    var f' := Adopt(f, h.reigns[x].log[..k]);
    forall a | a in h.acks && a.who == i
      ensures AckInv(h, a) && a.term <= x && Kept(h, f', a.term, h.acks[a], x + 1)
    {
      assert AckInv(h, a);
      KeptAdopt(h, n, f, a.term, h.acks[a], d + 1, x, k, x + 1);
    }
  }

  /** A server may acknowledge what it holds of the leader's log. */
  lemma {:induction false} TookAcker(h: History, n: int, i: int, f': seq<Entry>, x: int, k: nat)
    requires HistoryInv(h, n) && 0 <= i < n && AckerInv(h, i, f', x) && x in h.reigns && k <= |h.reigns[x].log|
    requires h.reigns[x].log[..k] <= f'
    ensures AckerInv(Took(h, i, f', x, k), i, f', x)
  {
    var h' := Took(h, i, f', x, k);
    TookGrows(h, i, f', x, k);
    forall a | a in h'.acks && a.who == i
      ensures AckInv(h', a) && a.term <= x && Kept(h', f', a.term, h'.acks[a], x + 1)
    {
      if a == Key(i, x) {
        TookAckerNew(h, n, i, f', x, k);
      } else {
        assert AckInv(h, a);
        KeptGrows(h, h', f', a.term, h.acks[a], x + 1);
      }
    }
  }

  lemma TookAckerNew(h: History, n: int, i: int, f': seq<Entry>, x: int, k: nat)
    requires HistoryInv(h, n) && 0 <= i < n && AckerInv(h, i, f', x) && x in h.reigns && k <= |h.reigns[x].log|
    requires h.reigns[x].log[..k] <= f'
    ensures var h' := Took(h, i, f', x, k);
            AckInv(h', Key(i, x)) && Kept(h', f', x, h'.acks[Key(i, x)], x + 1)
  {
    var h' := Took(h, i, f', x, k);
    TookGrows(h, i, f', x, k);
    var l := h.reigns[x].log;
    if Key(i, x) in h.acks {
      assert AckInv(h, Key(i, x));
      KeptGrows(h, h', f', x, h.acks[Key(i, x)], x + 1);
    }
    forall m | 1 <= m <= h'.acks[Key(i, x)] && l[m - 1].term == x
      ensures l[..m] <= f' || Overwritten(h', x, m, x + 1)
    {
      if m <= k {
        PrefixOrder(l[..m], l[..k], l);
        PrefixTrans(l[..m], l[..k], f');
      }
    }
  }

  // ------------------------------------------------------ only a higher term

  /** A server that only learns of a higher term stays sound, saved or not. */
  lemma FollowNode(h: History, n: int, i: int, s: Node, f: seq<Entry>, t: int)
    requires NodeInv(h, n, i, s, f) && s.term < t
    ensures NodeInv(h, n, i, Follow(s, t), f) && NodeInv(h, n, i, Persist(Follow(s, t)), f)
  {
    var d := Recovered(s.disk).term;
    AckerLater(h, i, f, d, t);
    CommittedPrefix(h, f[..s.commitIndex], f[..s.commitIndex], d, t);
  }

  lemma AckerLater(h: History, i: int, f: seq<Entry>, d: int, t: int)
    requires AckerInv(h, i, f, d) && d <= t
    ensures AckerInv(h, i, f, t)
  {
    forall k | k in h.acks && k.who == i
      ensures AckInv(h, k) && k.term <= t && Kept(h, f, k.term, h.acks[k], t + 1)
    {
      KeptLater(h, f, k.term, h.acks[k], d + 1, t + 1);
    }
  }

  // ------------------------------------------------------- append requests

  /** The request passes both of the follower's checks. */
  predicate Accepts(s: Node, a: AppendArgs) {
    s.term <= a.term && 0 <= a.prev - s.snapIndex < |s.log| &&
    (a.prev - s.snapIndex > 0 ==> a.prevTerm == s.log[a.prev - s.snapIndex].term)
  }

  lemma NotTheLeader(h: History, n: int, i: int, s: Node, f: seq<Entry>, t: int)
    requires NodeInv(h, n, i, s, f) && t in h.reigns && h.reigns[t].leader != i
    ensures s.role == Leader ==> s.term != t
  {
  }

  /** Where an accepted request starts, the two logs agree, also when that is
      the follower's snapshot point, whose term the handler does not compare. */
  lemma {:induction false} AcceptedPointMatches(h: History, n: int, i: int, s: Node, f: seq<Entry>, a: AppendArgs)
    requires n >= 0 && HistoryInv(h, n) && NodeInv(h, n, i, s, f) && AppendReqInv(h, n, a) && Accepts(s, a)
    ensures a.prev <= |f| && f[..a.prev] == h.reigns[a.term].log[..a.prev]
  {
    hide HistoryInv, AckerInv, VoterInv, ReignedInv, Committed, LeadingInv, RunningInv, Ordered, TermsBelow, ValidLog;
    var l := h.reigns[a.term].log;
    LeaderLog(h, n, a.term);
    if a.prev == s.snapIndex {
      var d := Recovered(s.disk).term;
      CommittedPrefix(h, f[..a.prev], f[..s.commitIndex], d, d);
      CommittedInLeader(h, n, f[..a.prev], d, a.term);
    } else {
      EntryAt(s, f, a.prev);
      LogMatching(h, f, l, a.prev - 1);
    }
  }

  /** An accepting follower's log stands for the merged whole log. */
  lemma MergedNode(s: Node, f: seq<Entry>, a: AppendArgs)
    requires Represents(s, f) && Accepts(s, a) && s.snapIndex <= a.prev <= |f|
    ensures var f' := Merge(f, a.prev, a.entries);
            var s' := AppendEntries(s, a).0;
            Represents(s', f') &&
            s'.commitIndex == (if a.commit > s.commitIndex then Min(a.commit, |f'|) else s.commitIndex)
  {
    hide Merge, StateAt;
    MergeRepresents(s, f, a.prev, a.entries);
    var f' := Merge(f, a.prev, a.entries);
    StateAtPrefix(f, f', s.snapIndex);
    if s.snapIndex > 0 {
      assert f'[..s.snapIndex][s.snapIndex - 1] == f[..s.snapIndex][s.snapIndex - 1];
    }
  }

  /** The accepted entries make the follower's log the adopted one. */
  lemma {:induction false} AcceptedLog(h: History, n: int, i: int, s: Node, f: seq<Entry>, a: AppendArgs)
    requires n >= 0 && HistoryInv(h, n) && NodeInv(h, n, i, s, f) && AppendReqInv(h, n, a) && Accepts(s, a)
    ensures var k := a.prev + |a.entries|;
            var f' := Adopt(f, h.reigns[a.term].log[..k]);
            var s' := AppendEntries(s, a).0;
            Represents(s', f') && s'.commitIndex == Max(s.commitIndex, a.commit)
  {
    hide HistoryInv, Committed, ValidLog, Ordered, Merge, Adopt, AckerInv, VoterInv, ReignedInv, LeadingInv, RunningInv,
      SavedInv, AppendEntries;
    var l := h.reigns[a.term].log;
    LeaderLog(h, n, a.term);
    AcceptedPointMatches(h, n, i, s, f, a);
    MergeAdopts(h, f, l, a.prev, a.entries);
    AdoptHolds(f, l[..a.prev + |a.entries|]);
    MergedNode(s, f, a);
  }

  /** What an accepting follower's fields become, its log aside. */
  lemma AcceptedFields(s: Node, a: AppendArgs)
    requires Accepts(s, a) && SavedInv(s)
    ensures var (s', r) := AppendEntries(s, a);
            r.success && r.term == a.term && SavedInv(s') && Recovered(s'.disk).term == s'.term == a.term &&
            s'.votedFor == Recovered(s'.disk).votedFor == (if s.term < a.term then -1 else s.votedFor) &&
            s'.role == (if s.term < a.term then Follower else s.role) &&
            s'.me == s.me && s'.peers == s.peers && s'.nextIndex == s.nextIndex && s'.matchIndex == s.matchIndex &&
            s'.snapIndex == s.snapIndex && s'.lastApplied == s.lastApplied && s'.poll == s.poll
  {
  }

  lemma AcceptedVoter(h: History, n: int, i: int, s: Node, f: seq<Entry>, t: int, votedFor: int)
    requires NodeInv(h, n, i, s, f) && s.term <= t && votedFor == (if s.term < t then -1 else s.votedFor)
    ensures VoterInv(h, i, t, votedFor) && ReignedInv(h, i, t)
  {
  }

  /** The accepting follower is sound with its new log and acknowledgement. */
  lemma {:induction false} AcceptedNode(h: History, n: int, i: int, s: Node, f: seq<Entry>, a: AppendArgs)
    requires |h.logs| == n && 0 <= i < n && HistoryInv(h, n) && NodeInv(h, n, i, s, f) && AppendReqInv(h, n, a) &&
      Accepts(s, a) && a.leader != i
    ensures var k := a.prev + |a.entries|;
            var f' := Adopt(f, h.reigns[a.term].log[..k]);
            var h' := Took(h, i, f', a.term, k);
            NodeInv(h', n, i, AppendEntries(s, a).0, f')
    ensures AppendEntries(s, a).1.success
  {
    hide HistoryInv, Adopt, Committed, ValidLog, Ordered, AppendEntries, AckerInv, VoterInv, ReignedInv, LogInv,
      Represents;
    var l, k := h.reigns[a.term].log, a.prev + |a.entries|;
    var f' := Adopt(f, l[..k]);
    var h' := Took(h, i, f', a.term, k);
    var s' := AppendEntries(s, a).0;
    var d := Recovered(s.disk).term;
    TookGrows(h, i, f', a.term, k);
    AcceptedLog(h, n, i, s, f, a);
    AcceptedFields(s, a);
    AcceptedVoter(h, n, i, s, f, a.term, s'.votedFor);
    OwnVoter(h, h', i, a.term, s'.votedFor);
    LogInvAdopt(h, n, f, d, a.term, k);
    LogInvGrows(h, h', f', a.term);
    AdoptHolds(f, l[..k]);
    AckerAdopt(h, n, i, f, d, a.term, k);
    TookAcker(h, n, i, f', a.term, k);
    AdoptedCommit(h, n, f, s.commitIndex, d, a.term, k, a.commit);
    CommittedGrows(h, h', f'[..s'.commitIndex], a.term);
    AcceptedRole(h, h', n, i, s, f, a, f');
  }

  lemma OwnVoter(h: History, h': History, i: int, t: int, votedFor: int)
    requires VoterInv(h, i, t, votedFor) && ReignedInv(h, i, t) && h'.votes == h.votes && h'.reigns == h.reigns
    ensures VoterInv(h', i, t, votedFor) && ReignedInv(h', i, t)
  {
  }

  /** The commit index a follower moves to covers only committed entries. */
  lemma {:induction false} AdoptedCommit(h: History, n: int, f: seq<Entry>, c: int, d: int, x: int, k: int, c': int)
    requires n >= 0 && HistoryInv(h, n) && 0 <= c <= |f| && Committed(h, f[..c], d) && d <= x && x in h.reigns
    requires 0 <= c' <= k <= |h.reigns[x].log| && Committed(h, h.reigns[x].log[..c'], x)
    ensures var f' := Adopt(f, h.reigns[x].log[..k]);
            Max(c, c') <= |f'| && f'[..c] == f[..c] && Committed(h, f'[..Max(c, c')], x)
  {
    hide HistoryInv;
    var l := h.reigns[x].log;
    var f' := Adopt(f, l[..k]);
    CommittedAdopt(h, n, f, c, d, x, k);
    AdoptHolds(f, l[..k]);
    if c' <= c {
      CommittedPrefix(h, f'[..c], f[..c], d, x);
    } else {
      assert f'[..c'] == l[..c'];
    }
  }

  lemma AcceptedRole(h: History, h': History, n: int, i: int, s: Node, f: seq<Entry>, a: AppendArgs, f': seq<Entry>)
    requires NodeInv(h, n, i, s, f) && a.term in h.reigns && h.reigns[a.term].leader != i && s.term <= a.term &&
      Accepts(s, a)
    requires Grows(h, h') && h'.reigns == h.reigns
    ensures var s' := AppendEntries(s, a).0;
            s'.role != Leader && (s'.role == Candidate ==> RunningInv(h', i, s', f'))
  {
    var s' := AppendEntries(s, a).0;
    NotTheLeader(h, n, i, s, f, a.term);
    if s'.role == Candidate {
      var granted :| Tally(h, i, s, granted);
      assert Tally(h', i, s', granted);
    }
  }

  // ------------------------------------------------------------- snapshots

  predicate TakesSnapshot(s: Node, sn: SnapArgs) {
    s.term <= sn.term && s.snapIndex <= sn.index
  }

  lemma InstalledFields(s: Node, sn: SnapArgs)
    requires TakesSnapshot(s, sn) && SavedInv(s)
    ensures var s' := InstallSnapshot(s, sn).0;
            SavedInv(s') && Recovered(s'.disk).term == s'.term == sn.term &&
            s'.votedFor == Recovered(s'.disk).votedFor == (if s.term < sn.term then -1 else s.votedFor) &&
            s'.role == Follower && s'.me == s.me && s'.peers == s.peers &&
            s'.nextIndex == s.nextIndex && s'.matchIndex == s.matchIndex &&
            s'.log == [Entry(sn.snapTerm, Dummy)] + Retained(s.log, s.snapIndex, sn.index, sn.snapTerm) &&
            s'.snapIndex == sn.index && s'.snapTerm == sn.snapTerm && s'.snapshot == sn.image &&
            s'.commitIndex == Max(s.commitIndex, sn.index) && s'.lastApplied == s.lastApplied
  {
  }

  lemma {:induction false} InstalledLog(h: History, n: int, i: int, s: Node, f: seq<Entry>, sn: SnapArgs)
    requires n >= 0 && HistoryInv(h, n) && NodeInv(h, n, i, s, f) && SnapReqInv(h, n, sn) && TakesSnapshot(s, sn)
    ensures Represents(InstallSnapshot(s, sn).0, Adopt(f, h.reigns[sn.term].log[..sn.index]))
  {
    hide HistoryInv, Adopt, Committed, ValidLog, Ordered, InstallSnapshot, Retained;
    var l := h.reigns[sn.term].log;
    var d := Recovered(s.disk).term;
    LeaderLog(h, n, sn.term);
    if sn.index == s.snapIndex {
      CommittedPrefix(h, f[..sn.index], f[..s.commitIndex], d, d);
      CommittedInLeader(h, n, f[..sn.index], d, sn.term);
    }
    InstalledFields(s, sn);
    InstallRepresents(h, s, f, l, sn.index, InstallSnapshot(s, sn).0);
  }

  lemma {:induction false} InstalledNode(h: History, n: int, i: int, s: Node, f: seq<Entry>, sn: SnapArgs)
    requires |h.logs| == n && 0 <= i < n && HistoryInv(h, n) && NodeInv(h, n, i, s, f) && SnapReqInv(h, n, sn) &&
      TakesSnapshot(s, sn)
    ensures var f' := Adopt(f, h.reigns[sn.term].log[..sn.index]);
            NodeInv(h.(logs := h.logs[i := f']), n, i, InstallSnapshot(s, sn).0, f') &&
              f'[..s.commitIndex] == f[..s.commitIndex]
  {
    hide HistoryInv, Adopt, Committed, ValidLog, Ordered, InstallSnapshot, AckerInv, VoterInv, ReignedInv, LogInv,
      Represents;
    var f' := Adopt(f, h.reigns[sn.term].log[..sn.index]);
    var h' := h.(logs := h.logs[i := f']);
    var s' := InstallSnapshot(s, sn).0;
    var d := Recovered(s.disk).term;
    InstalledLog(h, n, i, s, f, sn);
    InstalledFields(s, sn);
    AcceptedVoter(h, n, i, s, f, sn.term, s'.votedFor);
    OwnVoter(h, h', i, sn.term, s'.votedFor);
    LogInvAdopt(h, n, f, d, sn.term, sn.index);
    LogInvGrows(h, h', f', sn.term);
    AckerAdopt(h, n, i, f, d, sn.term, sn.index);
    AckerGrows(h, h', i, f', sn.term);
    AdoptedCommit(h, n, f, s.commitIndex, d, sn.term, sn.index, sn.index);
    CommittedGrows(h, h', f'[..s'.commitIndex], sn.term);
  }
}
