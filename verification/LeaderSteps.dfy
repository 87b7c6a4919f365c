/** The steps of a leader: accepting commands, sending, and counting answers. */
module LeaderSteps {
  import opened KvMachine
  import opened RaftTypes
  import opened RaftHandlers
  import opened Sorting
  import opened History
  import opened Completeness
  import opened Growth
  import opened Compaction
  import opened FollowerSteps

  // ------------------------------------------------------ accepting a command

  function Appended(h: History, i: int, t: int, e: Entry): History
    requires 0 <= i < |h.logs| && t in h.reigns
  {
    var f := h.logs[i] + [e];
    h.(logs := h.logs[i := f], reigns := h.reigns[t := h.reigns[t].(log := f)], acks := h.acks[Key(i, t) := |f|])
  }

  lemma AppendedGrows(h: History, i: int, t: int, e: Entry)
    requires 0 <= i < |h.logs| && t in h.reigns && h.reigns[t].log == h.logs[i] && h.reigns[t].leader == i
    requires Acked(h, i, t) <= |h.logs[i]|
    ensures GrowsBy(h, Appended(h, i, t, e), i)
  {
    var h' := Appended(h, i, t, e);
    assert h.logs[i] <= h.logs[i] + [e];
  }

  lemma AppendedLog(h: History, h': History, f: seq<Entry>, t: int, e: Entry)
    requires Grows(h, h') && LogInv(h, f, t) && e.term == t && t >= 1
    requires t in h'.reigns && h'.reigns[t].log == f + [e]
    ensures LogInv(h', f + [e], t)
  {
    var f' := f + [e];
    ValidLogGrows(h, h', f);
    forall j | 0 <= j < |f'|
      ensures Backed(h', f', j)
    {
      if j < |f| {
        assert Backed(h', f, j);
        assert f'[..j + 1] == f[..j + 1];
      } else {
        assert f'[..j + 1] == f';
      }
    }
  }

  lemma {:induction false} AppendedReign(h: History, n: int, i: int, t: int, e: Entry)
    requires |h.logs| == n && 0 <= i < n && HistoryInv(h, n) && t in h.reigns && h.reigns[t].log == h.logs[i]
    requires h.reigns[t].leader == i && Acked(h, i, t) <= |h.logs[i]| && e.term == t
    ensures ReignInv(Appended(h, i, t, e), n, t)
    ensures LogInv(Appended(h, i, t, e), h.logs[i] + [e], t)
  {
    hide HistoryInv, ValidLog, Ordered, TermsBelow, UpToDate;
    var h' := Appended(h, i, t, e);
    var f, f' := h.logs[i], h.logs[i] + [e];
    ReignOf(h, n, t);
    LeaderLog(h, n, t);
    AppendedGrows(h, i, t, e);
    AppendedLog(h, h', f, t, e);
    forall v | v in h.reigns[t].voters
      ensures VotedFor(h', v, t, i) && h'.votes[Key(v, t)].early && UpToDate(h.reigns[t].start, h'.votes[Key(v, t)].log)
    {
      assert VotedFor(h, v, t, i);
    }
    PrefixTrans(h.reigns[t].start, f, f');
  }

  lemma ReignOf(h: History, n: int, t: int)
    requires HistoryInv(h, n) && t in h.reigns
    ensures ReignInv(h, n, t)
  {
  }

  lemma {:induction false} AppendedHistory(h: History, n: int, i: int, t: int, e: Entry)
    requires |h.logs| == n && 0 <= i < n && HistoryInv(h, n) && t in h.reigns && h.reigns[t].log == h.logs[i]
    requires h.reigns[t].leader == i && Acked(h, i, t) <= |h.logs[i]|
    requires ReignInv(Appended(h, i, t, e), n, t)
    requires forall k :: k in h.votes && k.who == i ==> k.term <= t
    ensures HistoryInv(Appended(h, i, t, e), n)
  {
    hide ReignInv, VoteInv, CommitmentInv;
    var h' := Appended(h, i, t, e);
    AppendedGrows(h, i, t, e);
    forall x | x in h'.reigns ensures ReignInv(h', n, x) { if x != t { ReignGrows(h, h', n, x); } }
    forall k | k in h'.votes ensures VoteInv(h', n, k) { VoteGrows(h, h', n, k); }
    forall c | c in h'.commits ensures CommitmentInv(h', n, c) { CommitmentGrows(h, h', n, c); }
    forall a | a in h'.acks ensures AckInv(h', a) { if a != Key(i, t) { assert AckInv(h, a); } }
  }

  lemma KeptLonger(h: History, f: seq<Entry>, f': seq<Entry>, t: int, k: int, u: int)
    requires t in h.reigns && k <= |h.reigns[t].log| && Kept(h, f, t, k, u) && f <= f'
    ensures Kept(h, f', t, k, u)
  {
    forall m | 1 <= m <= k && h.reigns[t].log[m - 1].term == t
      ensures h.reigns[t].log[..m] <= f' || Overwritten(h, t, m, u)
    {
      if h.reigns[t].log[..m] <= f {
        PrefixTrans(h.reigns[t].log[..m], f, f');
      }
    }
  }

  lemma {:induction false} AppendedAcker(h: History, n: int, i: int, t: int, e: Entry)
    requires |h.logs| == n && 0 <= i < n && t in h.reigns && h.reigns[t].log == h.logs[i]
    requires h.reigns[t].leader == i && Acked(h, i, t) <= |h.logs[i]| && AckerInv(h, i, h.logs[i], t)
    ensures AckerInv(Appended(h, i, t, e), i, h.logs[i] + [e], t)
  {
    var h' := Appended(h, i, t, e);
    var f, f' := h.logs[i], h.logs[i] + [e];
    AppendedGrows(h, i, t, e);
    forall k | k in h'.acks && k.who == i
      ensures AckInv(h', k) && k.term <= t && Kept(h', f', k.term, h'.acks[k], t + 1)
    {
      if k != Key(i, t) {
        assert AckInv(h, k);
        KeptGrows(h, h', f, k.term, h.acks[k], t + 1);
        KeptLonger(h', f, f', k.term, h.acks[k], t + 1);
      }
    }
  }

  lemma AppendedRepresents(s: Node, f: seq<Entry>, e: Entry, s': Node)
    requires Represents(s, f) && s'.log == s.log + [e]
    requires s'.snapIndex == s.snapIndex && s'.snapTerm == s.snapTerm && s'.snapshot == s.snapshot
    ensures Represents(s', f + [e])
  {
    assert s'.log[1..] == s.log[1..] + [e];
    assert (f + [e])[s.snapIndex..] == f[s.snapIndex..] + [e];
    StateAtPrefix(f, f + [e], s.snapIndex);
  }

  lemma {:induction false} StartNode(h: History, n: int, i: int, s: Node, f: seq<Entry>, item: Item)
    requires |h.logs| == n && 0 <= i < n && HistoryInv(h, n) && NodeInv(h, n, i, s, f) && h.logs[i] == f &&
      s.role == Leader
    ensures var e := Entry(s.term, item);
            s.term in h.reigns &&
            var h' := Appended(h, i, s.term, e);
            GrowsBy(h, h', i) && HistoryInv(h', n) && NodeInv(h', n, i, Start(s, item), f + [e])
  {
    hide HistoryInv, NodeInv, ReignInv, Appended, Grows, GrowsBy;
    var t := s.term;
    var e := Entry(t, item);
    LeaderFacts(h, n, i, s, f, i);
    AppendedGrows(h, i, t, e);
    AppendedReign(h, n, i, t, e);
    VotesOf(h, n, i, s, f);
    AppendedHistory(h, n, i, t, e);
    StartedNode(h, n, i, s, f, item);
  }

  lemma VotesOf(h: History, n: int, i: int, s: Node, f: seq<Entry>)
    requires NodeInv(h, n, i, s, f)
    ensures forall k :: k in h.votes && k.who == i ==> k.term <= Recovered(s.disk).term
  {
  }

  lemma {:induction false} StartedNode(h: History, n: int, i: int, s: Node, f: seq<Entry>, item: Item)
    requires |h.logs| == n && 0 <= i < n && NodeInv(h, n, i, s, f) && h.logs[i] == f && s.role == Leader
    requires LogInv(Appended(h, i, s.term, Entry(s.term, item)), f + [Entry(s.term, item)], s.term)
    ensures NodeInv(Appended(h, i, s.term, Entry(s.term, item)), n, i, Start(s, item), f + [Entry(s.term, item)])
  {
    hide AckerInv, LogInv, Committed, Represents, LeadingInv;
    var t := s.term;
    var e := Entry(t, item);
    var f' := f + [e];
    LeaderFacts(h, n, i, s, f, i);
    var h' := Appended(h, i, t, e);
    var s' := Start(s, item);
    AppendedGrows(h, i, t, e);
    AppendedAcker(h, n, i, t, e);
    AppendedRepresents(s, f, e, s');
    assert f'[..s.commitIndex] == f[..s.commitIndex];
    CommittedGrows(h, h', f[..s.commitIndex], t);
    AppendedLeading(h, h', i, s, f, s', f');
  }

  lemma AppendedLeading(h: History, h': History, i: int, s: Node, f: seq<Entry>, s': Node, f': seq<Entry>)
    requires LeadingInv(h, i, s, f) && Grows(h, h') && s'.term == s.term && |f'| == |f| + 1
    requires Recovered(s'.disk).term == s'.term && s'.nextIndex == s.nextIndex && s'.matchIndex == s.matchIndex
    requires h'.reigns[s.term].log == f' && Acked(h', i, s.term) == |f'|
    ensures LeadingInv(h', i, s', f')
  {
    forall p | 0 <= p < |s'.matchIndex|
      ensures MatchInv(h', s'.term, p, s'.matchIndex[p])
    {
      MatchGrows(h, h', s.term, p, s.matchIndex[p]);
    }
  }

  // ------------------------------------------------------------------ sending

  /** Reading the compacted log from a logical index on yields the whole log
      from there on. */
  lemma SuffixFrom(s: Node, f: seq<Entry>, next: int)
    requires Represents(s, f) && s.snapIndex < next <= |f| + 1
    ensures 1 <= next - s.snapIndex <= |s.log| && s.log[next - s.snapIndex..] == f[next - 1..]
  {
    assert s.log[next - s.snapIndex..] == s.log[1..][next - s.snapIndex - 1..];
    assert f[s.snapIndex..][next - s.snapIndex - 1..] == f[next - 1..];
  }

  /** What an in-range append request says of the whole log. */
  lemma AppendRequestIs(s: Node, f: seq<Entry>, peer: int)
    requires Represents(s, f) && 0 <= peer < |s.nextIndex| && s.snapIndex < s.nextIndex[peer] <= |f| + 1
    ensures var a := AppendRequest(s, peer);
            var prev := s.nextIndex[peer] - 1;
            AppendRequestInRange(s, peer) && a.term == s.term && a.leader == s.me && a.prev == prev &&
            a.commit == s.commitIndex && a.entries == f[prev..] && (prev >= 1 ==> a.prevTerm == f[prev - 1].term)
  {
    SuffixFrom(s, f, s.nextIndex[peer]);
    if s.nextIndex[peer] > 1 {
      TermStored(s, f, s.nextIndex[peer] - 1);
    }
  }

  lemma LeaderFacts(h: History, n: int, i: int, s: Node, f: seq<Entry>, peer: int)
    requires NodeInv(h, n, i, s, f) && s.role == Leader && 0 <= peer < n
    ensures s.me == i && peer < |s.nextIndex| && peer < |s.matchIndex| && 1 <= s.nextIndex[peer] <= |f| + 1 &&
      Represents(s, f)
    ensures s.term in h.reigns && h.reigns[s.term].leader == i && h.reigns[s.term].log == f
    ensures 0 <= s.snapIndex <= s.commitIndex <= |f| && Committed(h, f[..s.commitIndex], s.term)
    ensures Recovered(s.disk).term == s.term && Acked(h, i, s.term) == |f|
  {
  }

  /** What a leader sends: the whole suffix of its log, and so never a commit
      index beyond what it sends. */
  lemma {:induction false} SentAppend(h: History, n: int, i: int, s: Node, f: seq<Entry>, peer: int)
    requires s.me == i && 0 <= peer < |s.nextIndex| && Represents(s, f) && 1 <= s.nextIndex[peer] <= |f| + 1
    requires s.term in h.reigns && h.reigns[s.term].leader == i && h.reigns[s.term].log == f
    requires 0 <= s.commitIndex <= |f| && Committed(h, f[..s.commitIndex], s.term) && !NeedsSnapshot(s, peer)
    ensures AppendRequestInRange(s, peer)
    ensures AppendReqInv(h, n, AppendRequest(s, peer)) && AppendRequest(s, peer).leader == i
    ensures var a := AppendRequest(s, peer); a.commit <= a.prev + |a.entries| == |f|
  {
    var a := AppendRequest(s, peer);
    AppendRequestIs(s, f, peer);
    assert f[a.prev..|f|] == f[a.prev..];
  }

  lemma {:induction false} SentSnapshot(h: History, n: int, i: int, s: Node, f: seq<Entry>, peer: int)
    requires NodeInv(h, n, i, s, f) && s.role == Leader && 0 <= peer < n && NeedsSnapshot(s, peer)
    ensures SnapReqInv(h, n, SnapshotRequest(s)) && SnapshotRequest(s).leader == i
  {
    hide AckerInv, LogInv, VoterInv, ReignedInv, Committed;
    CommittedPrefix(h, f[..s.snapIndex], f[..s.commitIndex], s.term, s.term);
  }

  // ------------------------------------------------------- counting answers

  /** The positions of `ms` whose value is at least `x`. */
  function Reaching(ms: seq<int>, x: int): (r: set<int>)
    ensures forall p :: p in r <==> 0 <= p < |ms| && ms[p] >= x
  {
    if ms == [] then {}
    else if ms[|ms| - 1] >= x then Reaching(ms[..|ms| - 1], x) + {|ms| - 1}
    else Reaching(ms[..|ms| - 1], x)
  }

  /** How many values of `m` are at least `x`. */
  function CountIn(s: seq<int>, x: int): nat {
    if s == [] then 0 else (if s[0] >= x then 1 else 0) + CountIn(s[1..], x)
  }

  lemma {:induction false} CountAppend(a: seq<int>, b: seq<int>, x: int)
    ensures CountIn(a + b, x) == CountIn(a, x) + CountIn(b, x)
  {
    if a == [] {
      assert a + b == b;
    } else {
      assert (a + b)[1..] == a[1..] + b;
      CountAppend(a[1..], b, x);
    }
  }

  lemma {:induction false} ReachingSize(ms: seq<int>, x: int)
    ensures |Reaching(ms, x)| == CountIn(ms, x)
  {
    if ms != [] {
      var front := ms[..|ms| - 1];
      assert ms == front + [ms[|ms| - 1]];
      ReachingSize(front, x);
      CountAppend(front, [ms[|ms| - 1]], x);
    }
  }

  lemma {:induction false} CountInsert(v: int, s: seq<int>, x: int)
    ensures CountIn(Insert(v, s), x) == CountIn(s, x) + (if v >= x then 1 else 0)
  {
    if s != [] && v > s[0] {
      CountInsert(v, s[1..], x);
      assert Insert(v, s)[1..] == Insert(v, s[1..]);
    } else {
      assert Insert(v, s)[1..] == s;
    }
  }

  lemma {:induction false} CountSort(s: seq<int>, x: int)
    ensures CountIn(Sort(s), x) == CountIn(s, x)
  {
    if s != [] {
      CountSort(s[1..], x);
      CountInsert(s[0], Sort(s[1..]), x);
    }
  }

  lemma {:induction false} CountAll(s: seq<int>, x: int)
    requires forall i :: 0 <= i < |s| ==> s[i] >= x
    ensures CountIn(s, x) == |s|
  {
    if s != [] {
      CountAll(s[1..], x);
    }
  }

  lemma {:induction false} CountNone(s: seq<int>, x: int)
    requires forall i :: 0 <= i < |s| ==> s[i] < x
    ensures CountIn(s, x) == 0
  {
    if s != [] {
      CountNone(s[1..], x);
    }
  }

  lemma {:induction false} CountBound(s: seq<int>, x: int)
    ensures CountIn(s, x) <= |s|
  {
    if s != [] {
      CountBound(s[1..], x);
    }
  }

  /** In a sorted sequence everything from position `k` on reaches `s[k]`, and
      what reaches more than `s[k]` lies after `k`. */
  lemma {:induction false} CountSorted(s: seq<int>, k: nat, x: int)
    requires Sorted(s) && k < |s|
    ensures CountIn(s, s[k]) >= |s| - k
    ensures x > s[k] ==> CountIn(s, x) <= |s| - k - 1
  {
    assert s == s[..k] + s[k..];
    CountAppend(s[..k], s[k..], s[k]);
    CountAll(s[k..], s[k]);
    if x > s[k] {
      assert s == s[..k + 1] + s[k + 1..];
      CountAppend(s[..k + 1], s[k + 1..], x);
      CountNone(s[..k + 1], x);
      CountBound(s[k + 1..], x);
    }
  }

  /** The commit candidate is the largest index reached by a majority, for
      every cluster size. */
  lemma {:induction false} MedianIsMajority(ms: seq<int>, x: int)
    requires |ms| > 0
    ensures IsQuorum(Reaching(ms, Median(ms)), |ms|)
    ensures x > Median(ms) ==> !IsQuorum(Reaching(ms, x), |ms|)
  {
    var k := (|ms| - 1) / 2;
    var s := Sort(ms);
    SortSorted(ms);
    CountSorted(s, k, x);
    CountSort(ms, s[k]);
    ReachingSize(ms, s[k]);
    CountSort(ms, x);
    ReachingSize(ms, x);
  }

  /** The commit candidate is one of the match indices. */
  lemma MedianIsElement(ms: seq<int>)
    requires |ms| > 0
    ensures exists p :: 0 <= p < |ms| && ms[p] == Median(ms)
  {
    var s := Sort(ms);
    assert s[(|ms| - 1) / 2] in multiset(s);
    assert Median(ms) in multiset(ms);
  }

  /** Only the send positions and match indices of a leader changed. */
  lemma LeaderUpdate(h: History, n: int, i: int, s: Node, f: seq<Entry>, next: seq<int>, ms: seq<int>)
    requires NodeInv(h, n, i, s, f) && s.role == Leader && |next| == n == |ms|
    requires LeadingInv(h, i, s.(nextIndex := next, matchIndex := ms), f)
    ensures NodeInv(h, n, i, s.(nextIndex := next, matchIndex := ms), f)
  {
    hide AckerInv, LogInv, Committed, LeadingInv, VoterInv, ReignedInv;
  }

  lemma AcknowledgedNode(h: History, n: int, i: int, s: Node, f: seq<Entry>, peer: int, k: int)
    requires NodeInv(h, n, i, s, f) && s.role == Leader && 0 <= peer < n && 0 <= i < n && peer != i
    requires 0 <= k <= |f| && k <= Acked(h, peer, s.term)
    ensures NodeInv(h, n, i, Acknowledged(s, peer, k), f)
  {
    var s' := Acknowledged(s, peer, k);
    AcknowledgedLeading(h, i, s, f, peer, k);
    assert s' == s.(nextIndex := s'.nextIndex, matchIndex := s'.matchIndex);
    LeaderUpdate(h, n, i, s, f, s'.nextIndex, s'.matchIndex);
  }

  lemma AcknowledgedLeading(h: History, i: int, s: Node, f: seq<Entry>, peer: int, k: int)
    requires LeadingInv(h, i, s, f) && s.me == i && 0 <= peer < |s.matchIndex| == |s.nextIndex| &&
      0 <= i < |s.matchIndex| && peer != i
    requires 0 <= k <= |f| == LastIndex(s) && k <= Acked(h, peer, s.term)
    ensures LeadingInv(h, i, Acknowledged(s, peer, k), f)
  {
    var s' := Acknowledged(s, peer, k);
    assert MatchInv(h, s.term, peer, s.matchIndex[peer]);
    forall p | 0 <= p < |s'.matchIndex|
      ensures MatchInv(h, s.term, p, s'.matchIndex[p])
    {
      assert MatchInv(h, s.term, p, s.matchIndex[p]);
    }
  }

  lemma SnapshotAnsweredNode(h: History, n: int, i: int, s: Node, f: seq<Entry>, peer: int, k: int)
    requires NodeInv(h, n, i, s, f) && s.role == Leader && 0 <= peer < n && 0 <= k <= |f| &&
      Committed(h, f[..k], s.term)
    ensures NodeInv(h, n, i, s.(nextIndex := s.nextIndex[peer := k + 1], matchIndex := s.matchIndex[peer := k]), f)
  {
    LeaderUpdate(h, n, i, s, f, s.nextIndex[peer := k + 1], s.matchIndex[peer := k]);
  }

  lemma ResumedNode(h: History, n: int, i: int, s: Node, f: seq<Entry>, peer: int, k: int)
    requires NodeInv(h, n, i, s, f) && s.role == Leader && 0 <= peer < n && 1 <= k <= |f| + 1
    ensures NodeInv(h, n, i, s.(nextIndex := s.nextIndex[peer := k]), f)
  {
    LeaderUpdate(h, n, i, s, f, s.nextIndex[peer := k], s.matchIndex);
  }

  // ------------------------------------------------------------- committing

  /** All of a leader's match indices lie inside its log. */
  lemma MatchInRange(h: History, n: int, i: int, s: Node, f: seq<Entry>)
    requires NodeInv(h, n, i, s, f) && s.role == Leader && n > 0
    ensures |s.matchIndex| > 0 && 0 <= Median(s.matchIndex) <= |f|
    ensures forall p :: 0 <= p < |s.matchIndex| ==> 0 <= s.matchIndex[p] <= |f|
  {
    forall p | 0 <= p < |s.matchIndex|
      ensures 0 <= s.matchIndex[p] <= |f|
    {
      assert MatchInv(h, s.term, p, s.matchIndex[p]);
    }
    MedianIsElement(s.matchIndex);
  }

  function Recorded(h: History, c: Commitment): History {
    h.(commits := h.commits + {c})
  }

  lemma {:induction false} RecordedHistory(h: History, n: int, c: Commitment)
    requires HistoryInv(h, n) && CommitmentInv(h, n, c)
    ensures Grows(h, Recorded(h, c)) && HistoryInv(Recorded(h, c), n)
  {
    hide ReignInv, VoteInv, CommitmentInv;
    var h' := Recorded(h, c);
    assert Grows(h, h');
    forall x | x in h'.reigns ensures ReignInv(h', n, x) { ReignGrows(h, h', n, x); }
    forall k | k in h'.votes ensures VoteInv(h', n, k) { VoteGrows(h, h', n, k); }
    forall d | d in h'.commits ensures CommitmentInv(h', n, d) {
      if d in h.commits {
        assert CommitmentInv(h, n, d);
      }
      CommitmentGrows(h, h', n, d);
    }
    forall a | a in h'.acks ensures AckInv(h', a) { assert AckInv(h, a); }
  }

  /** When a leader's commit rule fires at `c`, either every server of a
      majority acknowledged `c`, or the prefix was committed before. */
  lemma {:induction false} CommitRule(h: History, n: int, i: int, s: Node, f: seq<Entry>, c: int)
    requires NodeInv(h, n, i, s, f) && s.role == Leader && n > 0 && |s.matchIndex| == n
    requires c == Median(s.matchIndex) && 1 <= c <= |f| && f[c - 1].term == s.term
    ensures CommitmentInv(h, n, Commitment(s.term, c, Reaching(s.matchIndex, c))) || Committed(h, f[..c], s.term)
  {
    hide AckerInv, LogInv, VoterInv, ReignedInv, SavedInv, Represents, RunningInv, CommitInv, Committed;
    var q := Reaching(s.matchIndex, c);
    MedianIsMajority(s.matchIndex, c);
    if p :| p in q && Acked(h, p, s.term) < c {
      assert MatchInv(h, s.term, p, s.matchIndex[p]);
      CommittedPrefix(h, f[..c], f[..s.matchIndex[p]], s.term, s.term);
    }
  }

  /** The history after the commit rule fired at `c`. */
  ghost function Committing(h: History, n: int, t: int, c: int, q: set<int>): History {
    if CommitmentInv(h, n, Commitment(t, c, q)) then Recorded(h, Commitment(t, c, q)) else h
  }

  lemma {:induction false} CommittingHistory(h: History, n: int, t: int, c: int, q: set<int>, f: seq<Entry>)
    requires HistoryInv(h, n) && t in h.reigns && h.reigns[t].log == f && 1 <= c <= |f|
    requires CommitmentInv(h, n, Commitment(t, c, q)) || Committed(h, f[..c], t)
    ensures var h' := Committing(h, n, t, c, q);
            Grows(h, h') && HistoryInv(h', n) && Committed(h', f[..c], t) && h' == h.(commits := h'.commits)
  {
    if CommitmentInv(h, n, Commitment(t, c, q)) {
      RecordedHistory(h, n, Commitment(t, c, q));
      assert CommittedBy(Recorded(h, Commitment(t, c, q)), f[..c], t, Commitment(t, c, q));
    }
  }

  /** A commit recorded by a leader leaves every peer's invariant in place. */
  lemma RecordedNode(h: History, h': History, n: int, i: int, s: Node, f: seq<Entry>)
    requires NodeInv(h, n, i, s, f) && Grows(h, h') && h' == h.(commits := h'.commits)
    ensures NodeInv(h', n, i, s, f)
  {
    LogInvGrows(h, h', f, Recovered(s.disk).term);
    AckerGrows(h, h', i, f, Recovered(s.disk).term);
    CommitGrows(h, h', s, f);
    if s.role == Leader {
      LeadingGrows(h, h', i, s, f);
    }
    if s.role == Candidate {
      RunningGrows(h, h', i, s, f);
    }
  }

  lemma CommitMoved(h: History, n: int, i: int, s: Node, f: seq<Entry>, c: int)
    requires NodeInv(h, n, i, s, f) && s.role == Leader && s.commitIndex <= c <= |f| && Committed(h, f[..c], s.term)
    ensures NodeInv(h, n, i, s.(commitIndex := c), f)
  {
    hide AckerInv, LogInv, VoterInv, ReignedInv, Committed, MatchInv;
  }

  lemma {:induction false} CommitNode(h: History, n: int, i: int, s: Node, f: seq<Entry>) returns (h': History)
    requires HistoryInv(h, n) && NodeInv(h, n, i, s, f) && s.role == Leader && 0 <= i < n && |s.matchIndex| == n
    ensures Grows(h, h') && HistoryInv(h', n) && h' == h.(commits := h'.commits) && NodeInv(h', n, i, Commit(s), f)
  {
    var c := Median(s.matchIndex);
    var s' := Commit(s);
    h' := h;
    if s' != s {
      MatchInRange(h, n, i, s, f);
      TermStored(s, f, c);
      CommitRule(h, n, i, s, f, c);
      h' := Committing(h, n, s.term, c, Reaching(s.matchIndex, c));
      CommittingHistory(h, n, s.term, c, Reaching(s.matchIndex, c), f);
      RecordedNode(h, h', n, i, s, f);
      CommitMoved(h', n, i, s, f, c);
    }
  }

  // ------------------------------------------------------------- backing up

  /** No entry of the follower's conflicting term sits at or after the rejected
      index in the leader's log: log matching would make them equal there. */
  lemma {:induction false} LastOfTermBefore(h: History, f: seq<Entry>, k: int, prev: int, x: int)
    requires ValidLog(h, f) && 1 <= k <= |f| && f[k - 1].term == x
    requires x in h.reigns && 1 <= prev <= |f| && prev <= |h.reigns[x].log|
    requires h.reigns[x].log[prev - 1].term == x && f[prev - 1].term != x
    ensures k < prev
  {
    assert Backed(h, f, k - 1);
  }

  /** No entry has term 0, so a rejection without a hint restarts at 1. */
  lemma NoTermZero(s: Node, f: seq<Entry>)
    requires Represents(s, f) && Ordered(f)
    ensures FirstFrom(s.log, 1, 0) == -1
  {
    var k := FirstFrom(s.log, 1, 0);
    if k != -1 {
      EntryAt(s, f, s.snapIndex + k);
    }
  }

  /** Fast backup: a rejection by a short or conflicting log makes the leader
      resume at an index it can send from and no later than the rejected one,
      so strictly earlier than before. */
  lemma {:induction false} BackupProgress(h: History, s: Node, f: seq<Entry>, a: AppendArgs, r: AppendReply)
    requires Represents(s, f) && ValidLog(h, f) && Ordered(f) && 0 <= a.prev <= |f|
    requires a.prev >= 1 ==> a.prevTerm == f[a.prev - 1].term
    requires RejectionInv(h, a, r)
    ensures 1 <= Backup(s, r) <= |f| + 1
    ensures if r.xTerm != 0 then Backup(s, r) <= a.prev else Backup(s, r) == 1
  {
    hide ValidLog, Ordered;
    if r.xTerm == 0 {
      NoTermZero(s, f);
    } else if r.xTerm != -1 {
      BackupInTerm(h, s, f, a, r);
    }
  }

  lemma BackupInTerm(h: History, s: Node, f: seq<Entry>, a: AppendArgs, r: AppendReply)
    requires Represents(s, f) && ValidLog(h, f) && 0 <= a.prev <= |f|
    requires a.prev >= 1 ==> a.prevTerm == f[a.prev - 1].term
    requires RejectionInv(h, a, r) && r.xTerm != 0 && r.xTerm != -1
    ensures var j := LastBefore(s.log, |s.log|, r.xTerm);
            j != -1 ==> 1 <= s.snapIndex + j < a.prev
  {
    hide ValidLog;
    var j := LastBefore(s.log, |s.log|, r.xTerm);
    if j != -1 {
      EntryAt(s, f, s.snapIndex + j);
      LastOfTermBefore(h, f, s.snapIndex + j, a.prev, r.xTerm);
    }
  }
}
