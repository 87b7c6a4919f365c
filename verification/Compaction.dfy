/** The compacted log behaves as the whole log it stands for. */
module Compaction {
  import opened KvMachine
  import opened RaftTypes
  import opened RaftHandlers
  import opened History
  import opened Completeness

  // ------------------------------------------------------------------ lookups

  /** Every retained entry is found where the logical index says. */
  lemma EntryAt(s: Node, f: seq<Entry>, k: int)
    requires Represents(s, f) && s.snapIndex < k <= |f|
    ensures 1 <= k - s.snapIndex < |s.log| && s.log[k - s.snapIndex] == f[k - 1]
  {
    assert s.log[1..][k - s.snapIndex - 1] == f[s.snapIndex..][k - s.snapIndex - 1];
  }

  lemma LastTermIs(s: Node, f: seq<Entry>)
    requires Represents(s, f)
    ensures LastTerm(s) == EndTerm(f) && LastIndex(s) == |f|
  {
    if |s.log| > 1 {
      EntryAt(s, f, |f|);
    }
  }

  /** Above the snapshot and at it, the stored term is the whole log's term. */
  lemma TermStored(s: Node, f: seq<Entry>, k: int)
    requires Represents(s, f) && s.snapIndex <= k <= |f| && 1 <= k
    ensures At(s.log, k - s.snapIndex).term == f[k - 1].term
  {
    if s.snapIndex < k {
      EntryAt(s, f, k);
    }
  }

  // ---------------------------------------------------------------- the merge

  lemma {:induction false} MergeTail(x: seq<Entry>, y: seq<Entry>, k: nat, es: seq<Entry>)
    requires k <= |y|
    ensures Merge(x + y, |x| + k, es) == x + Merge(y, k, es)
    decreases |es|
  {
    var z := x + y;
    if es == [] {
    } else if k == |y| {
      assert (x + y) + es == x + (y + es);
    } else if es[0].term != y[k].term {
      assert z[|x| + k] == y[k];
      assert z[..|x| + k] + es == x + (y[..k] + es);
    } else {
      assert z[|x| + k] == y[k];
      MergeTail(x, y, k + 1, es[1..]);
    }
  }

  lemma {:induction false} MergeKeepsFront(l: seq<Entry>, at: nat, es: seq<Entry>)
    requires at <= |l|
    ensures at <= |Merge(l, at, es)| && Merge(l, at, es)[..at] == l[..at]
    decreases |es|
  {
    if es != [] && at < |l| && es[0].term == l[at].term {
      MergeKeepsFront(l, at + 1, es[1..]);
      var r := Merge(l, at + 1, es[1..]);
      assert r[..at] == r[..at + 1][..at];
      assert l[..at] == l[..at + 1][..at];
    }
  }

  /** Merging into the compacted log is merging into the whole log. */
  lemma {:induction false} MergeRepresents(s: Node, f: seq<Entry>, prev: int, es: seq<Entry>)
    requires Represents(s, f) && s.snapIndex <= prev <= |f|
    ensures prev - s.snapIndex + 1 <= |s.log|
    ensures var m := Merge(s.log, prev - s.snapIndex + 1, es);
            var f' := Merge(f, prev, es);
            |m| >= 1 && m[0] == s.log[0] && s.snapIndex <= |f'| && m[1..] == f'[s.snapIndex..] &&
              f'[..s.snapIndex] == f[..s.snapIndex]
  {
    var x, y, d := f[..s.snapIndex], f[s.snapIndex..], [s.log[0]];
    assert f == x + y && s.log == d + y;
    MergeTail(x, y, prev - s.snapIndex, es);
    MergeTail(d, y, prev - s.snapIndex, es);
  }

  /** Merging what a leader sent, after a matching point, adopts the leader's
      log up to the last sent entry: a log that already has it keeps its tail,
      any other log becomes exactly it. */
  lemma {:induction false} MergeAdopts(h: History, f: seq<Entry>, l: seq<Entry>, p: nat, es: seq<Entry>)
    requires ValidLog(h, f) && ValidLog(h, l)
    requires p <= |f| && p + |es| <= |l| && f[..p] == l[..p] && es == l[p..p + |es|]
    ensures Merge(f, p, es) == Adopt(f, l[..p + |es|])
    decreases |es|
  {
    var k := p + |es|;
    if es == [] {
      assert f[..p] <= f;
    } else if p == |f| {
      assert f + es == l[..k];
      assert !(l[..k] <= f);
    } else if es[0].term != f[p].term {
      assert es[0] == l[p];
      assert l[..k][p] == l[p];
      assert f[..p] + es == l[..k];
      assert !(l[..k] <= f);
    } else {
      assert es[0] == l[p];
      LogMatching(h, f, l, p);
      assert es[1..] == l[p + 1..p + 1 + |es[1..]|];
      MergeAdopts(h, f, l, p + 1, es[1..]);
    }
  }

  // ---------------------------------------------------------------- snapshots

  lemma StateAtPrefix(f: seq<Entry>, g: seq<Entry>, k: int)
    requires 0 <= k <= |f| && k <= |g| && f[..k] == g[..k]
    ensures StateAt(f, k) == StateAt(g, k)
  {
  }

  /** Compacting leaves the whole log unchanged. */
  lemma SnapshotRepresents(s: Node, f: seq<Entry>, index: int, image: Image)
    requires Represents(s, f) && 0 <= index <= |f| && image == Image(StateAt(f, index))
    ensures Represents(Snapshot(s, index, image), f)
  {
    if index > s.snapIndex {
      EntryAt(s, f, index);
      var at := index - s.snapIndex;
      var r := Snapshot(s, index, image);
      assert r.log[1..] == s.log[at + 1..];
      assert s.log[at + 1..] == s.log[1..][at..];
      assert f[s.snapIndex..][at..] == f[index..];
    }
  }

  /** Installing a prefix `l[..k]` adopts it. */
  lemma InstallRepresents(h: History, s: Node, f: seq<Entry>, l: seq<Entry>, k: int, s': Node)
    requires Represents(s, f) && ValidLog(h, f) && ValidLog(h, l) && s.snapIndex <= k && 1 <= k <= |l|
    requires k == s.snapIndex ==> f[..k] == l[..k]
    requires s'.log == [Entry(l[k - 1].term, Dummy)] + Retained(s.log, s.snapIndex, k, l[k - 1].term)
    requires s'.snapIndex == k && s'.snapTerm == l[k - 1].term && s'.snapshot == Image(StateAt(l, k))
    ensures Represents(s', Adopt(f, l[..k]))
  {
    var f' := Adopt(f, l[..k]);
    var t := l[k - 1].term;
    assert l[..k][k - 1] == l[k - 1];
    if k <= |f| {
      TermStored(s, f, k);
      if f[k - 1].term == t {
        LogMatching(h, f, l, k - 1);
        assert f' == f;
        var at := k - s.snapIndex;
        assert s'.log[1..] == s.log[at + 1..] == s.log[1..][at..];
        assert f[s.snapIndex..][at..] == f[k..];
      } else {
        assert f' == l[..k];
        assert s'.log[1..] == [];
      }
    } else {
      assert f' == l[..k];
      assert s'.log[1..] == [];
    }
    assert f'[..k] == l[..k];
    StateAtPrefix(f', l, k);
  }
}
