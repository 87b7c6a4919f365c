/** The steps of an election: standing, voting, counting, winning. */
module ElectionSteps {
  import opened RaftTypes
  import opened RaftHandlers
  import opened History
  import opened Completeness
  import opened Growth
  import opened Compaction
  import opened FollowerSteps

  // ------------------------------------------------------- recording a vote

  function Cast(h: History, i: int, t: int, candidate: int): History
    requires 0 <= i < |h.logs|
  {
    h.(votes := h.votes[Key(i, t) := Vote(candidate, h.logs[i], t !in h.reigns)])
  }

  lemma CastGrows(h: History, i: int, t: int, candidate: int)
    requires 0 <= i < |h.logs| && Key(i, t) !in h.votes
    ensures GrowsBy(h, Cast(h, i, t, candidate), i)
  {
  }

  /** While term `t` has no leader, only terms before `t` can have overwritten. */
  lemma KeptEarly(h: History, f: seq<Entry>, a: int, k: int, u: int, t: int)
    requires a in h.reigns && k <= |h.reigns[a].log| && Kept(h, f, a, k, u) && u <= t + 1 && t !in h.reigns
    ensures Kept(h, f, a, k, t)
  {
    forall m | 1 <= m <= k && h.reigns[a].log[m - 1].term == a
      ensures h.reigns[a].log[..m] <= f || Overwritten(h, a, m, t)
    {
      if !(h.reigns[a].log[..m] <= f) {
        assert Overwritten(h, a, m, u);
        var x :| a < x < u && x in h.reigns && !(h.reigns[a].log[..m] <= h.reigns[x].start);
        assert x < t;
      }
    }
  }

  /** A vote for a candidate whose log is recent enough is sound. */
  lemma {:induction false} CastVote(h: History, n: int, i: int, t: int, candidate: int, d: int)
    requires HistoryInv(h, n) && 0 <= i < n && 0 <= candidate < n && |h.logs| == n && Key(i, t) !in h.votes
    requires 1 <= t && d <= t && LogInv(h, h.logs[i], d) && TermsBelow(h.logs[i], t) && AckerInv(h, i, h.logs[i], d)
    requires candidate == i || (VotedFor(h, candidate, t, candidate) &&
      UpToDate(h.votes[Key(candidate, t)].log, h.logs[i]))
    ensures VoteInv(Cast(h, i, t, candidate), n, Key(i, t))
  {
    var h' := Cast(h, i, t, candidate);
    var f := h.logs[i];
    CastGrows(h, i, t, candidate);
    ValidLogGrows(h, h', f);
    if t !in h.reigns {
      forall a | a in h'.acks && a.who == i && a.term < t
        ensures AckInv(h', a) && Kept(h', f, a.term, h'.acks[a], t)
      {
        assert AckInv(h, a);
        KeptEarly(h, f, a.term, h.acks[a], d + 1, t);
        KeptGrows(h, h', f, a.term, h.acks[a], t);
      }
    }
  }

  lemma {:induction false} CastHistory(h: History, n: int, i: int, t: int, candidate: int)
    requires HistoryInv(h, n) && 0 <= i < n && |h.logs| == n && Key(i, t) !in h.votes
    requires VoteInv(Cast(h, i, t, candidate), n, Key(i, t))
    ensures HistoryInv(Cast(h, i, t, candidate), n)
  {
    var h' := Cast(h, i, t, candidate);
    CastGrows(h, i, t, candidate);
    forall x | x in h'.reigns ensures ReignInv(h', n, x) { ReignGrows(h, h', n, x); }
    forall k | k in h'.votes ensures VoteInv(h', n, k) { if k != Key(i, t) { VoteGrows(h, h', n, k); } }
    forall c | c in h'.commits ensures CommitmentInv(h', n, c) { CommitmentGrows(h, h', n, c); }
    forall a | a in h'.acks ensures AckInv(h', a) { assert AckInv(h, a); }
  }

  /** The voter itself stays sound, as a follower or standing for itself. */
  lemma {:induction false} CastNode(h: History, h': History, n: int, i: int, s: Node, f: seq<Entry>, s': Node)
    requires |h.logs| == n && 0 <= i < n && NodeInv(h, n, i, s, f) && h.logs[i] == f && s.term <= s'.term
    requires Key(i, s'.term) !in h.votes && h' == Cast(h, i, s'.term, s'.votedFor)
    requires s' == Persist(s.(term := s'.term, votedFor := s'.votedFor, role := s'.role, poll := s'.poll))
    requires s'.role != Leader && (s'.role == Candidate ==> RunningInv(h', i, s', f))
    ensures NodeInv(h', n, i, s', f)
  {
    hide HistoryInv, AckerInv, LogInv, Committed;
    var d := Recovered(s.disk).term;
    CastGrows(h, i, s'.term, s'.votedFor);
    LogInvLater(h, f, d, s'.term);
    LogInvGrows(h, h', f, s'.term);
    AckerLater(h, i, f, d, s'.term);
    AckerGrows(h, h', i, f, s'.term);
    CommittedPrefix(h, f[..s.commitIndex], f[..s.commitIndex], d, s'.term);
    CommittedGrows(h, h', f[..s.commitIndex], s'.term);
  }

  lemma LogInvLater(h: History, f: seq<Entry>, d: int, t: int)
    requires LogInv(h, f, d) && d <= t
    ensures LogInv(h, f, t)
  {
  }

  lemma LogTermsBelow(h: History, f: seq<Entry>, d: int, t: int)
    requires LogInv(h, f, d) && d < t
    ensures TermsBelow(f, t)
  {
  }

  // ---------------------------------------------------------------- standing

  lemma {:induction false} StandNode(h: History, n: int, i: int, s: Node, f: seq<Entry>)
    requires HistoryInv(h, n) && |h.logs| == n && 0 <= i < n && NodeInv(h, n, i, s, f) && h.logs[i] == f
    ensures var h' := Cast(h, i, s.term + 1, i);
            GrowsBy(h, h', i) && HistoryInv(h', n) && NodeInv(h', n, i, StartElection(s), f)
  {
    hide HistoryInv, AckerInv, LogInv, TermsBelow, VoteInv, GrowsBy;
    var t := s.term + 1;
    var h' := Cast(h, i, t, i);
    var s' := StartElection(s);
    assert Key(i, t) !in h.votes;
    LogTermsBelow(h, f, Recovered(s.disk).term, t);
    CastGrows(h, i, t, i);
    CastVote(h, n, i, t, i, Recovered(s.disk).term);
    CastHistory(h, n, i, t, i);
    assert Tally(h', i, s', {});
    CastNode(h, h', n, i, s, f, s');
  }

  lemma StandMessage(h: History, n: int, i: int, s: Node, f: seq<Entry>)
    requires |h.logs| == n && 0 <= i < n && NodeInv(h, n, i, s, f) && h.logs[i] == f
    ensures VoteReqInv(Cast(h, i, s.term + 1, i), n, VoteRequest(StartElection(s)))
  {
    LastTermIs(s, f);
  }

  // ------------------------------------------------------------------ voting

  /** A vote already on record in this term was for the same candidate. */
  lemma VoteOnRecord(h: History, n: int, i: int, s: Node, f: seq<Entry>, t: int, candidate: int)
    requires HistoryInv(h, n) && NodeInv(h, n, i, s, f) && s.term <= t && Key(i, t) in h.votes
    requires s.term == t ==> s.votedFor == -1 || s.votedFor == candidate
    ensures s.term == t && Recovered(s.disk).term == t && s.votedFor == candidate && VotedFor(h, i, t, candidate)
  {
    assert VoteInv(h, n, Key(i, t));
  }

  /** The peer grants its vote. */
  predicate Grants(s: Node, v: VoteArgs) {
    s.term <= v.term && (s.term == v.term ==> s.votedFor == -1 || s.votedFor == v.candidate) &&
    LogIsRecent(s, v.lastIndex, v.lastTerm)
  }

  /** The history after a granted vote: a repeated vote is not recorded again. */
  function Voted(h: History, i: int, v: VoteArgs): History
    requires 0 <= i < |h.logs|
  {
    if Key(i, v.term) in h.votes then h else Cast(h, i, v.term, v.candidate)
  }

  lemma {:induction false} GrantHistory(h: History, n: int, i: int, s: Node, f: seq<Entry>, v: VoteArgs)
    requires HistoryInv(h, n) && |h.logs| == n && 0 <= i < n && NodeInv(h, n, i, s, f) && h.logs[i] == f
    requires VoteReqInv(h, n, v) && Grants(s, v)
    ensures var h' := Voted(h, i, v);
            GrowsBy(h, h', i) && HistoryInv(h', n) && VotedFor(h', i, v.term, v.candidate)
  {
    if Key(i, v.term) in h.votes {
      VoteOnRecord(h, n, i, s, f, v.term, v.candidate);
    } else {
      var d := Recovered(s.disk).term;
      LastTermIs(s, f);
      CastGrows(h, i, v.term, v.candidate);
      GrantTermsBelow(h, n, i, s, f, v);
      CastVote(h, n, i, v.term, v.candidate, d);
      CastHistory(h, n, i, v.term, v.candidate);
    }
  }

  /** A peer only votes in a term of which it holds no entry yet. */
  lemma GrantTermsBelow(h: History, n: int, i: int, s: Node, f: seq<Entry>, v: VoteArgs)
    requires HistoryInv(h, n) && NodeInv(h, n, i, s, f) && VoteReqInv(h, n, v) && Grants(s, v)
    ensures TermsBelow(f, v.term) && 1 <= v.term
  {
    LastTermIs(s, f);
    assert VoteInv(h, n, Key(v.candidate, v.term));
  }

  lemma {:induction false} GrantNode(h: History, n: int, i: int, s: Node, f: seq<Entry>, v: VoteArgs)
    requires HistoryInv(h, n) && |h.logs| == n && 0 <= i < n && NodeInv(h, n, i, s, f) && h.logs[i] == f
    requires VoteReqInv(h, n, v) && Grants(s, v)
    ensures NodeInv(Voted(h, i, v), n, i, RequestVote(s, v).0, f)
  {
    var s' := RequestVote(s, v).0;
    GrantResult(s, v);
    if Key(i, v.term) in h.votes {
      VoteOnRecord(h, n, i, s, f, v.term, v.candidate);
      RegrantNode(h, n, i, s, f, s');
    } else {
      CastNode(h, Voted(h, i, v), n, i, s, f, s');
    }
  }

  lemma GrantResult(s: Node, v: VoteArgs)
    requires Grants(s, v)
    ensures RequestVote(s, v) == (Persist(s.(term := v.term, votedFor := v.candidate, role := Follower)),
      VoteReply(s.term, true))
  {
  }

  lemma RegrantNode(h: History, n: int, i: int, s: Node, f: seq<Entry>, s': Node)
    requires NodeInv(h, n, i, s, f) && Recovered(s.disk).term == s.term
    requires s' == Persist(s.(role := Follower))
    ensures NodeInv(h, n, i, s', f)
  {
  }

  /** A peer that refuses only follows the higher term. */
  lemma RefuseNode(h: History, n: int, i: int, s: Node, f: seq<Entry>, v: VoteArgs)
    requires NodeInv(h, n, i, s, f) && !RequestVote(s, v).1.granted
    ensures NodeInv(h, n, i, RequestVote(s, v).0, f)
  {
    if s.term < v.term {
      FollowNode(h, n, i, s, f, v.term);
    }
  }

  lemma GrantsIff(s: Node, v: VoteArgs)
    ensures RequestVote(s, v).1.granted <==> Grants(s, v)
  {
  }

  // ---------------------------------------------------------------- counting

  /** One more answer counted, short of a majority or not. */
  function Counted(s: Node, peer: int, granted: bool): Node {
    s.(poll := Poll(s.poll.votes + (if granted then 1 else 0), s.poll.waiting - {peer}))
  }

  lemma CountedNode(h: History, n: int, i: int, s: Node, f: seq<Entry>, peer: int, granted: bool)
    requires NodeInv(h, n, i, s, f) && s.role == Candidate && peer in s.poll.waiting
    requires granted ==> VotedFor(h, peer, s.term, i)
    ensures NodeInv(h, n, i, Counted(s, peer, granted), f)
  {
    hide AckerInv, LogInv, Committed;
    var s' := Counted(s, peer, granted);
    var g :| Tally(h, i, s, g);
    var g' := if granted then g + {peer} else g;
    assert Tally(h, i, s', g') by {
      if granted {
        assert |g + {peer}| == |g| + 1;
      }
    }
  }

  /** Election safety: a candidate with a majority is in a term with no leader. */
  lemma {:induction false} WinnerIsFirst(h: History, n: int, i: int, s: Node, f: seq<Entry>, g: set<int>)
    requires n >= 0 && HistoryInv(h, n) && 0 <= i < n && NodeInv(h, n, i, s, f) && s.role == Candidate
    requires Tally(h, i, s, g) && s.poll.votes >= n / 2 + 1
    ensures s.term !in h.reigns && IsQuorum(g + {i}, n)
    ensures forall v :: v in g + {i} ==> VotedFor(h, v, s.term, i)
  {
    hide HistoryInv, NodeInv;
    CandidateFacts(h, n, i, s, f);
    assert |g + {i}| == |g| + 1;
    if s.term in h.reigns {
      ReignVoters(h, n, s.term);
      var v := QuorumsMeet(g + {i}, h.reigns[s.term].voters, n);
      assert false;
    }
  }

  lemma CandidateFacts(h: History, n: int, i: int, s: Node, f: seq<Entry>)
    requires NodeInv(h, n, i, s, f) && s.role == Candidate
    ensures s.peers == n && VotedFor(h, i, s.term, i) && (s.term in h.reigns ==> h.reigns[s.term].leader != i)
  {
    hide AckerInv, LogInv, VoterInv, ReignedInv, CommitInv, Represents, SavedInv;
  }

  lemma ReignVoters(h: History, n: int, t: int)
    requires HistoryInv(h, n) && t in h.reigns
    ensures IsQuorum(h.reigns[t].voters, n)
    ensures forall v :: v in h.reigns[t].voters ==> VotedFor(h, v, t, h.reigns[t].leader)
  {
    assert ReignInv(h, n, t);
  }

  // ----------------------------------------------------------------- winning

  function Crowned(h: History, i: int, t: int, voters: set<int>): History
    requires 0 <= i < |h.logs|
  {
    h.(reigns := h.reigns[t := Reign(i, h.logs[i], h.logs[i], voters)], acks := h.acks[Key(i, t) := |h.logs[i]|])
  }

  lemma CrownedGrows(h: History, n: int, i: int, t: int, voters: set<int>)
    requires 0 <= i < |h.logs| && t !in h.reigns && Key(i, t) !in h.acks
    ensures GrowsBy(h, Crowned(h, i, t, voters), i)
  {
  }

  lemma {:induction false} CrownedReign(h: History, n: int, i: int, t: int, voters: set<int>)
    requires HistoryInv(h, n) && |h.logs| == n && 0 <= i < n && t !in h.reigns && Key(i, t) !in h.acks && t >= 1
    requires IsQuorum(voters, n) && i in voters && forall v :: v in voters ==> VotedFor(h, v, t, i)
    requires Key(i, t) in h.votes && h.votes[Key(i, t)].log == h.logs[i]
    ensures ReignInv(Crowned(h, i, t, voters), n, t)
  {
    var h' := Crowned(h, i, t, voters);
    CrownedGrows(h, n, i, t, voters);
    assert VotedFor(h, i, t, i) && VoteInv(h, n, Key(i, t));
    ValidLogGrows(h, h', h.logs[i]);
    forall v | v in voters
      ensures VotedFor(h', v, t, i) && h'.votes[Key(v, t)].early && UpToDate(h.logs[i], h'.votes[Key(v, t)].log)
    {
      assert VotedFor(h, v, t, i) && VoteInv(h, n, Key(v, t));
    }
  }

  lemma {:induction false} CrownedHistory(h: History, n: int, i: int, t: int, voters: set<int>)
    requires HistoryInv(h, n) && |h.logs| == n && 0 <= i < n && t !in h.reigns && Key(i, t) !in h.acks
    requires ReignInv(Crowned(h, i, t, voters), n, t)
    requires forall k :: k in h.votes && k.who == i ==> k.term <= t
    ensures HistoryInv(Crowned(h, i, t, voters), n)
  {
    hide ReignInv, VoteInv, CommitmentInv;
    var h' := Crowned(h, i, t, voters);
    CrownedGrows(h, n, i, t, voters);
    forall x | x in h'.reigns ensures ReignInv(h', n, x) { if x != t { ReignGrows(h, h', n, x); } }
    forall k | k in h'.votes ensures VoteInv(h', n, k) { VoteGrows(h, h', n, k); }
    forall c | c in h'.commits ensures CommitmentInv(h', n, c) { CommitmentGrows(h, h', n, c); }
    forall a | a in h'.acks ensures AckInv(h', a) { if a != Key(i, t) { assert AckInv(h, a); } }
  }

  lemma {:induction false} CrownedAcker(h: History, n: int, i: int, f: seq<Entry>, t: int, voters: set<int>)
    requires |h.logs| == n && 0 <= i < n && h.logs[i] == f && t !in h.reigns && Key(i, t) !in h.acks &&
      AckerInv(h, i, f, t)
    ensures AckerInv(Crowned(h, i, t, voters), i, f, t)
  {
    var h' := Crowned(h, i, t, voters);
    CrownedGrows(h, n, i, t, voters);
    forall k | k in h'.acks && k.who == i
      ensures AckInv(h', k) && k.term <= t && Kept(h', f, k.term, h'.acks[k], t + 1)
    {
      if k != Key(i, t) {
        assert AckInv(h, k);
        KeptGrows(h, h', f, k.term, h.acks[k], t + 1);
      }
    }
  }

  lemma {:induction false} WinNode(h: History, n: int, i: int, s: Node, f: seq<Entry>, voters: set<int>)
    requires |h.logs| == n && 0 <= i < n && h.logs[i] == f && NodeInv(h, n, i, s, f) && s.role == Candidate
    requires s.term !in h.reigns && Key(i, s.term) !in h.acks
    ensures NodeInv(Crowned(h, i, s.term, voters), n, i, BecomeLeader(s), f)
  {
    hide AckerInv, LogInv, Committed, HistoryInv;
    var t := s.term;
    var h' := Crowned(h, i, t, voters);
    var s' := BecomeLeader(s);
    CrownedGrows(h, n, i, t, voters);
    LogInvGrows(h, h', f, t);
    CrownedAcker(h, n, i, f, t, voters);
    CommittedGrows(h, h', f[..s.commitIndex], t);
    WinLeading(h', i, s', f);
  }

  lemma WinLeading(h': History, i: int, s': Node, f: seq<Entry>)
    requires s'.term in h'.reigns && h'.reigns[s'.term].leader == i && h'.reigns[s'.term].log == f &&
      Acked(h', i, s'.term) == |f|
    requires Recovered(s'.disk).term == s'.term
    requires forall p :: 0 <= p < |s'.nextIndex| ==> s'.nextIndex[p] == |f| + 1
    requires forall p :: 0 <= p < |s'.matchIndex| ==> s'.matchIndex[p] == if p == i then |f| else 0
    ensures LeadingInv(h', i, s', f)
  {
  }
}
