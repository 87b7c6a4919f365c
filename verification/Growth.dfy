/** Facts about the past stay true as the history grows. */
module Growth {
  import opened RaftTypes
  import opened RaftHandlers
  import opened Cluster
  import opened History
  import opened Completeness

  lemma ValidLogGrows(h: History, h': History, f: seq<Entry>)
    requires Grows(h, h') && ValidLog(h, f)
    ensures ValidLog(h', f)
  {
    forall i | 0 <= i < |f|
      ensures Backed(h', f, i)
    {
      assert Backed(h, f, i);
      PrefixTrans(f[..i + 1], h.reigns[f[i].term].log, h'.reigns[f[i].term].log);
    }
  }

  lemma TakeGrows(a: seq<Entry>, b: seq<Entry>, m: int)
    requires a <= b && 0 <= m <= |a|
    ensures a[..m] == b[..m]
  {
  }

  lemma CommittedGrows(h: History, h': History, s: seq<Entry>, t: int)
    requires Grows(h, h') && Committed(h, s, t)
    ensures Committed(h', s, t)
  {
    if s != [] {
      var c := CommitOf(h, s, t);
      TakeGrows(h.reigns[c.term].log, h'.reigns[c.term].log, c.index);
      assert CommittedBy(h', s, t, c);
    }
  }

  lemma OverwrittenGrows(h: History, h': History, t: int, m: int, u: int)
    requires Grows(h, h') && t in h.reigns && 0 <= m <= |h.reigns[t].log| && Overwritten(h, t, m, u)
    ensures Overwritten(h', t, m, u)
  {
    var x :| t < x < u && x in h.reigns && !(h.reigns[t].log[..m] <= h.reigns[x].start);
    TakeGrows(h.reigns[t].log, h'.reigns[t].log, m);
    assert x in h'.reigns && !(h'.reigns[t].log[..m] <= h'.reigns[x].start);
  }

  lemma KeptGrows(h: History, h': History, f: seq<Entry>, t: int, k: int, u: int)
    requires Grows(h, h') && t in h.reigns && k <= |h.reigns[t].log| && Kept(h, f, t, k, u)
    ensures Kept(h', f, t, k, u)
  {
    forall m | 1 <= m <= k && h'.reigns[t].log[m - 1].term == t
      ensures h'.reigns[t].log[..m] <= f || Overwritten(h', t, m, u)
    {
      TakeGrows(h.reigns[t].log, h'.reigns[t].log, m);
      assert h.reigns[t].log[m - 1].term == t;
      if !(h.reigns[t].log[..m] <= f) {
        OverwrittenGrows(h, h', t, m, u);
      }
    }
  }

  lemma KeptLater(h: History, f: seq<Entry>, t: int, k: int, u: int, u': int)
    requires t in h.reigns && k <= |h.reigns[t].log| && Kept(h, f, t, k, u) && u <= u'
    ensures Kept(h, f, t, k, u')
  {
  }

  lemma MatchGrows(h: History, h': History, t: int, peer: int, k: int)
    requires Grows(h, h') && t in h.reigns && MatchInv(h, t, peer, k)
    ensures MatchInv(h', t, peer, k)
  {
    TakeGrows(h.reigns[t].log, h'.reigns[t].log, k);
    if k > Acked(h, peer, t) {
      CommittedGrows(h, h', h.reigns[t].log[..k], t);
    }
  }

  // ---------------------------------------------------------------- messages

  lemma AppendReqGrows(h: History, h': History, n: int, a: AppendArgs)
    requires Grows(h, h') && AppendReqInv(h, n, a)
    ensures AppendReqInv(h', n, a)
  {
    var l, l' := h.reigns[a.term].log, h'.reigns[a.term].log;
    var k := a.prev + |a.entries|;
    TakeGrows(l, l', k);
    assert l[a.prev..k] == l'[a.prev..k];
    TakeGrows(l, l', a.commit);
    CommittedGrows(h, h', l[..a.commit], a.term);
  }

  lemma SnapReqGrows(h: History, h': History, n: int, sn: SnapArgs)
    requires Grows(h, h') && SnapReqInv(h, n, sn)
    ensures SnapReqInv(h', n, sn)
  {
    TakeGrows(h.reigns[sn.term].log, h'.reigns[sn.term].log, sn.index);
    CommittedGrows(h, h', h.reigns[sn.term].log[..sn.index], sn.term);
  }

  lemma MsgGrows(h: History, h': History, n: int, m: Msg)
    requires Grows(h, h') && MsgInv(h, n, m)
    ensures MsgInv(h', n, m)
  {
    match m
    case VoteReq(v) =>
    case VoteRep(_, _, _, _) =>
    case AppendReq(_, a) => AppendReqGrows(h, h', n, a);
    case AppendRep(_, a, _) => AppendReqGrows(h, h', n, a);
    case SnapReq(_, sn) => SnapReqGrows(h, h', n, sn);
    case SnapRep(_, sn, _) => SnapReqGrows(h, h', n, sn);
  }

  // ------------------------------------------------------------------- peers

  lemma LogInvGrows(h: History, h': History, f: seq<Entry>, term: int)
    requires Grows(h, h') && LogInv(h, f, term)
    ensures LogInv(h', f, term)
  {
    ValidLogGrows(h, h', f);
  }

  lemma AckerGrows(h: History, h': History, i: int, f: seq<Entry>, term: int)
    requires Grows(h, h') && AckerInv(h, i, f, term)
    requires forall k :: k in h'.acks && k.who == i ==> k in h.acks && h'.acks[k] == h.acks[k]
    ensures AckerInv(h', i, f, term)
  {
    forall k | k in h'.acks && k.who == i
      ensures AckInv(h', k) && k.term <= term && Kept(h', f, k.term, h'.acks[k], term + 1)
    {
      assert AckInv(h, k);
      KeptGrows(h, h', f, k.term, h.acks[k], term + 1);
    }
  }

  lemma LeadingGrows(h: History, h': History, i: int, s: Node, f: seq<Entry>)
    requires Grows(h, h') && LeadingInv(h, i, s, f)
    requires h'.reigns[s.term].log == f && Acked(h', i, s.term) == |f|
    ensures LeadingInv(h', i, s, f)
  {
    forall p | 0 <= p < |s.matchIndex|
      ensures MatchInv(h', s.term, p, s.matchIndex[p])
    {
      MatchGrows(h, h', s.term, p, s.matchIndex[p]);
    }
  }

  lemma RunningGrows(h: History, h': History, i: int, s: Node, f: seq<Entry>)
    requires Grows(h, h') && RunningInv(h, i, s, f)
    requires s.term in h'.reigns ==> h'.reigns[s.term].leader != i
    ensures RunningInv(h', i, s, f)
  {
    var granted :| Tally(h, i, s, granted);
    assert Tally(h', i, s, granted);
  }

  lemma CommitGrows(h: History, h': History, s: Node, f: seq<Entry>)
    requires Grows(h, h') && CommitInv(h, s, f)
    ensures CommitInv(h', s, f)
  {
    CommittedGrows(h, h', f[..s.commitIndex], Recovered(s.disk).term);
  }

  /** A step by server `i` leaves every other peer's invariant in place. */
  lemma OtherNode(h: History, h': History, n: int, i: int, j: int, s: Node, f: seq<Entry>)
    requires GrowsBy(h, h', i) && j != i && NodeInv(h, n, j, s, f)
    ensures NodeInv(h', n, j, s, f)
  {
    var term := Recovered(s.disk).term;
    LogInvGrows(h, h', f, term);
    AckerGrows(h, h', j, f, term);
    CommitGrows(h, h', s, f);
    OtherVoter(h, h', i, j, s);
    if s.role == Leader {
      assert h'.reigns[s.term] == h.reigns[s.term];
      LeadingGrows(h, h', j, s, f);
    }
    if s.role == Candidate {
      RunningGrows(h, h', j, s, f);
    }
  }

  lemma OtherVoter(h: History, h': History, i: int, j: int, s: Node)
    requires GrowsBy(h, h', i) && j != i
    requires VoterInv(h, j, Recovered(s.disk).term, Recovered(s.disk).votedFor) &&
      ReignedInv(h, j, Recovered(s.disk).term)
    ensures VoterInv(h', j, Recovered(s.disk).term, Recovered(s.disk).votedFor) &&
      ReignedInv(h', j, Recovered(s.disk).term)
  {
  }

  // ------------------------------------------------------ the history itself

  lemma ReignGrows(h: History, h': History, n: int, t: int)
    requires Grows(h, h') && t in h.reigns && h'.reigns[t] == h.reigns[t] && ReignInv(h, n, t)
    ensures ReignInv(h', n, t)
  {
    ValidLogGrows(h, h', h.reigns[t].log);
    forall v | v in h.reigns[t].voters
      ensures VotedFor(h', v, t, h.reigns[t].leader) && h'.votes[Key(v, t)].early &&
        UpToDate(h.reigns[t].start, h'.votes[Key(v, t)].log)
    {
      assert VotedFor(h, v, t, h.reigns[t].leader);
    }
  }

  lemma CommitmentGrows(h: History, h': History, n: int, c: Commitment)
    requires Grows(h, h') && CommitmentInv(h, n, c)
    ensures CommitmentInv(h', n, c)
  {
    forall v | v in c.quorum
      ensures Acked(h', v, c.term) >= c.index
    {
      assert Acked(h, v, c.term) >= c.index;
    }
  }

  /** A vote stays sound if its voter acknowledged nothing new in earlier terms. */
  lemma VoteGrows(h: History, h': History, n: int, k: Key)
    requires Grows(h, h') && k in h.votes && VoteInv(h, n, k)
    requires forall a :: a in h'.acks && a.who == k.who && a.term < k.term ==> a in h.acks && h'.acks[a] == h.acks[a]
    ensures VoteInv(h', n, k)
  {
    var v := h.votes[k];
    ValidLogGrows(h, h', v.log);
    assert VotedFor(h, v.candidate, k.term, v.candidate);
    if v.early {
      forall a | a in h'.acks && a.who == k.who && a.term < k.term
        ensures AckInv(h', a) && Kept(h', v.log, a.term, h'.acks[a], k.term)
      {
        assert AckInv(h, a);
        KeptGrows(h, h', v.log, a.term, h.acks[a], k.term);
      }
    }
  }
}
