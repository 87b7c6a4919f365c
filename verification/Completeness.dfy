/** Log matching and leader completeness, as consequences of the history's
    invariants alone. */
module Completeness {
  import opened RaftTypes
  import opened History

  /** Two quorums share a server. */
  lemma {:induction false} QuorumsMeet(a: set<int>, b: set<int>, n: int) returns (v: int)
    requires n >= 0 && IsQuorum(a, n) && IsQuorum(b, n)
    ensures v in a && v in b
  {
    if a * b == {} {
      assert |a + b| == |a| + |b|;
      SubsetSize(a + b, Ids(n));
      assert false;
    }
    v :| v in a * b;
  }

  lemma {:induction false} SubsetSize(a: set<int>, b: set<int>)
    requires a <= b
    ensures |a| <= |b|
  {
    assert b == a + (b - a);
    assert |b| == |a| + |b - a|;
  }

  /** Log matching: equal index and term mean equal logs up to there. */
  lemma {:induction false} LogMatching(h: History, f: seq<Entry>, g: seq<Entry>, i: int)
    requires ValidLog(h, f) && ValidLog(h, g) && 0 <= i < |f| && i < |g| && f[i].term == g[i].term
    ensures f[..i + 1] == g[..i + 1]
  {
    assert Backed(h, f, i) && Backed(h, g, i);
    SamePrefix(f[..i + 1], g[..i + 1], h.reigns[f[i].term].log);
  }

  lemma SamePrefix(a: seq<Entry>, b: seq<Entry>, c: seq<Entry>)
    requires a <= c && b <= c && |a| == |b|
    ensures a == b
  {
    assert a == c[..|a|] && b == c[..|b|];
  }

  lemma PrefixTrans(a: seq<Entry>, b: seq<Entry>, c: seq<Entry>)
    requires a <= b && b <= c
    ensures a <= c
  {
    assert a == b[..|a|] && b == c[..|b|];
    assert a == c[..|a|];
  }

  /** The shorter of two prefixes of one log is a prefix of the longer. */
  lemma PrefixOrder(a: seq<Entry>, b: seq<Entry>, c: seq<Entry>)
    requires a <= c && b <= c && |a| <= |b|
    ensures a <= b
  {
    assert a == c[..|a|] && b == c[..|b|];
    assert a == b[..|a|];
  }

  /** A valid log whose last term is `u` is a prefix of the log of `u`'s leader. */
  lemma WholeLogBacked(h: History, f: seq<Entry>)
    requires ValidLog(h, f) && f != []
    ensures EndTerm(f) in h.reigns && f <= h.reigns[EndTerm(f)].log
  {
    assert Backed(h, f, |f| - 1);
    assert f[..|f| - 1 + 1] == f;
  }

  /** A log at least as recent as one that holds an entry of term `t`, where no
      leader between `t` and `u` was elected without that entry, holds it too. */
  lemma {:induction false} RecentLogHolds(h: History, n: int, t: int, m: int, u: int, start: seq<Entry>,
      voted: seq<Entry>)
    requires HistoryInv(h, n)
    requires t in h.reigns && 1 <= m <= |h.reigns[t].log| && h.reigns[t].log[m - 1].term == t
    requires ValidLog(h, start) && Ordered(start) && TermsBelow(start, u) && ValidLog(h, voted) && Ordered(voted)
    requires UpToDate(start, voted) && h.reigns[t].log[..m] <= voted
    requires forall x :: t < x < u && x in h.reigns ==> h.reigns[t].log[..m] <= h.reigns[x].start
    ensures h.reigns[t].log[..m] <= start
  {
    var p := h.reigns[t].log[..m];
    assert voted[m - 1] == p[m - 1];
    assert EndTerm(voted) >= t >= 1 by { assert ReignInv(h, n, t); }
    assert start != [];
    var e := EndTerm(start);
    WholeLogBacked(h, start);
    assert ReignInv(h, n, e);
    if e == EndTerm(voted) {
      WholeLogBacked(h, voted);
      PrefixTrans(p, voted, h.reigns[e].log);
      PrefixOrder(p, start, h.reigns[e].log);
    } else {
      assert t < e < u;
      PrefixTrans(p, h.reigns[e].start, h.reigns[e].log);
      assert h.reigns[e].log[m - 1].term == t;
      assert h.reigns[e].log[|start| - 1].term == e;
      assert m < |start|;
      PrefixOrder(p, start, h.reigns[e].log);
    }
  }

  lemma VoterRecord(h: History, n: int, c: Commitment, u: int, v: int)
    requires HistoryInv(h, n) && c in h.commits && u in h.reigns && c.term < u
    requires v in c.quorum && v in h.reigns[u].voters
    ensures c.term in h.reigns && 1 <= c.index <= |h.reigns[c.term].log| &&
      h.reigns[c.term].log[c.index - 1].term == c.term
    ensures Key(v, u) in h.votes && Key(v, c.term) in h.acks &&
      c.index <= h.acks[Key(v, c.term)] <= |h.reigns[c.term].log|
    ensures Kept(h, h.votes[Key(v, u)].log, c.term, h.acks[Key(v, c.term)], u)
  {
    hide Ordered, UpToDate, TermsBelow, ValidLog, Kept;
    assert CommitmentInv(h, n, c) && ReignInv(h, n, u);
    assert VotedFor(h, v, u, h.reigns[u].leader) && VoteInv(h, n, Key(v, u));
    assert Acked(h, v, c.term) >= c.index;
    assert AckInv(h, Key(v, c.term));
  }

  /** A voter of a later leader that acknowledged a commit still had it. */
  lemma VoterHolds(h: History, n: int, c: Commitment, u: int, v: int)
    requires HistoryInv(h, n) && c in h.commits && u in h.reigns && c.term < u && c.term in h.reigns
    requires v in c.quorum && v in h.reigns[u].voters && 1 <= c.index <= |h.reigns[c.term].log|
    requires forall x :: c.term < x < u && x in h.reigns ==> h.reigns[c.term].log[..c.index] <= h.reigns[x].start
    ensures Key(v, u) in h.votes && h.reigns[c.term].log[..c.index] <= h.votes[Key(v, u)].log
  {
    hide HistoryInv;
    VoterRecord(h, n, c, u, v);
    assert !Overwritten(h, c.term, c.index, u);
  }

  lemma VoterLog(h: History, n: int, u: int, v: int)
    requires HistoryInv(h, n) && u in h.reigns && v in h.reigns[u].voters
    ensures Key(v, u) in h.votes && UpToDate(h.reigns[u].start, h.votes[Key(v, u)].log)
    ensures ValidLog(h, h.votes[Key(v, u)].log) && Ordered(h.votes[Key(v, u)].log) && TermsBelow(h.reigns[u].start, u)
  {
    assert ReignInv(h, n, u);
    assert VotedFor(h, v, u, h.reigns[u].leader) && VoteInv(h, n, Key(v, u));
  }

  lemma CommitmentFacts(h: History, n: int, c: Commitment, u: int)
    requires HistoryInv(h, n) && c in h.commits && u in h.reigns
    ensures c.term in h.reigns && 1 <= c.index <= |h.reigns[c.term].log| &&
      h.reigns[c.term].log[c.index - 1].term == c.term
    ensures IsQuorum(c.quorum, n) && IsQuorum(h.reigns[u].voters, n)
  {
    assert CommitmentInv(h, n, c) && ReignInv(h, n, u);
  }

  /** Leader completeness: what a leader of term `c.term` committed is in the
      log of every later leader from its election on. */
  lemma {:induction false} LeaderCompleteness(h: History, n: int, c: Commitment, u: int)
    requires n >= 0 && HistoryInv(h, n) && c in h.commits && u in h.reigns && c.term < u
    ensures c.term in h.reigns && c.index <= |h.reigns[c.term].log|
    ensures h.reigns[c.term].log[..c.index] <= h.reigns[u].start
    decreases u - c.term
  {
    hide HistoryInv, Ordered, UpToDate, TermsBelow, ValidLog;
    var t, m := c.term, c.index;
    CommitmentFacts(h, n, c, u);
    var v := QuorumsMeet(c.quorum, h.reigns[u].voters, n);
    forall x | t < x < u && x in h.reigns
      ensures h.reigns[t].log[..m] <= h.reigns[x].start
    {
      LeaderCompleteness(h, n, c, x);
    }
    VoterHolds(h, n, c, u, v);
    VoterLog(h, n, u, v);
    StartValid(h, n, u);
    RecentLogHolds(h, n, t, m, u, h.reigns[u].start, h.votes[Key(v, u)].log);
  }

  lemma StartValid(h: History, n: int, u: int)
    requires HistoryInv(h, n) && u in h.reigns
    ensures ValidLog(h, h.reigns[u].start) && Ordered(h.reigns[u].start)
  {
    assert ReignInv(h, n, u);
    PrefixValid(h, h.reigns[u].start, h.reigns[u].log);
  }

  lemma PrefixValid(h: History, a: seq<Entry>, b: seq<Entry>)
    requires a <= b && ValidLog(h, b)
    ensures ValidLog(h, a)
  {
    forall i | 0 <= i < |a|
      ensures Backed(h, a, i)
    {
      assert Backed(h, b, i);
      assert a[..i + 1] == b[..i + 1];
    }
  }

  lemma StartInLog(h: History, n: int, u: int)
    requires HistoryInv(h, n) && u in h.reigns
    ensures h.reigns[u].start <= h.reigns[u].log
  {
    assert ReignInv(h, n, u);
  }

  lemma CommitmentOf(h: History, n: int, c: Commitment)
    requires HistoryInv(h, n) && c in h.commits
    ensures c.term in h.reigns && 1 <= c.index <= |h.reigns[c.term].log|
  {
    assert CommitmentInv(h, n, c);
  }

  /** The leader of a later term holds what a commit of an earlier one covers. */
  lemma {:induction false} CommitInLeader(h: History, n: int, c: Commitment, u: int)
    requires n >= 0 && HistoryInv(h, n) && c in h.commits && c.term <= u && u in h.reigns
    ensures c.term in h.reigns && 0 <= c.index <= |h.reigns[c.term].log|
    ensures h.reigns[c.term].log[..c.index] <= h.reigns[u].log
  {
    hide HistoryInv;
    CommitmentOf(h, n, c);
    if c.term < u {
      LeaderCompleteness(h, n, c, u);
      StartInLog(h, n, u);
      PrefixTrans(h.reigns[c.term].log[..c.index], h.reigns[u].start, h.reigns[u].log);
    }
  }

  lemma CommitOf(h: History, s: seq<Entry>, t: int) returns (c: Commitment)
    requires Committed(h, s, t) && s != []
    ensures c in h.commits && CommittedBy(h, s, t, c)
  {
    c :| c in h.commits && CommittedBy(h, s, t, c);
  }

  /** A committed prefix is in the log of every leader of that or a later term. */
  lemma {:induction false} CommittedInLeader(h: History, n: int, s: seq<Entry>, t: int, u: int)
    requires n >= 0 && HistoryInv(h, n) && Committed(h, s, t) && t <= u && u in h.reigns
    ensures s <= h.reigns[u].log
  {
    if s != [] {
      var c := CommitOf(h, s, t);
      CommitInLeader(h, n, c, u);
      PrefixTrans(s, h.reigns[c.term].log[..c.index], h.reigns[u].log);
    }
  }

  /** Any two committed prefixes agree. */
  lemma {:induction false} CommittedAgree(h: History, n: int, a: seq<Entry>, t: int, b: seq<Entry>, u: int)
    requires n >= 0 && HistoryInv(h, n) && Committed(h, a, t) && Committed(h, b, u) && |a| <= |b|
    ensures a <= b
  {
    if a != [] {
      var c := CommitOf(h, a, t);
      var d := CommitOf(h, b, u);
      var x := Max(c.term, d.term);
      CommitInLeader(h, n, c, x);
      CommitInLeader(h, n, d, x);
      PrefixTrans(a, h.reigns[c.term].log[..c.index], h.reigns[x].log);
      PrefixTrans(b, h.reigns[d.term].log[..d.index], h.reigns[x].log);
      PrefixOrder(a, b, h.reigns[x].log);
    }
  }

  lemma CommittedPrefix(h: History, a: seq<Entry>, b: seq<Entry>, t: int, u: int)
    requires Committed(h, b, t) && a <= b && t <= u
    ensures Committed(h, a, u)
  {
    if a != [] {
      var c := CommitOf(h, b, t);
      PrefixTrans(a, b, h.reigns[c.term].log[..c.index]);
      assert CommittedBy(h, a, u, c);
    }
  }
}
