/** What rebalancing achieves and how little it moves. */
module ShardBalance {
  import opened ShardSpec

  /** Ties are broken by id, so each choice depends on nothing but the loads. */
  lemma ChoicesUnique(shards: seq<int>, groups: set<int>, g: int)
    requires groups != {}
    ensures IsLeast(shards, groups, g) <==> g == Least(shards, groups)
    ensures IsMost(shards, groups, g) <==> g == Most(shards, groups)
  {
    var l, m := Least(shards, groups), Most(shards, groups);
    assert IsLeast(shards, groups, l) && IsMost(shards, groups, m);
  }

  lemma EvenIffBalanced(shards: seq<int>, groups: set<int>)
    requires groups != {}
    ensures Balanced(shards, groups) <==> !Uneven(shards, groups)
  {
    var l, m := Least(shards, groups), Most(shards, groups);
    assert IsLeast(shards, groups, l) && IsMost(shards, groups, m);
  }

  lemma {:induction false} AssignedLive(shards: seq<int>, groups: set<int>, s: nat)
    requires groups != {} && s <= |shards| && Live(shards[..s], groups)
    ensures Live(Assigned(shards, groups, s), groups)
    decreases |shards| - s
  {
    if s == |shards| {
      assert shards[..s] == shards;
    } else {
      var next := if shards[s] in groups then shards else shards[s := Least(shards, groups)];
      assert next[..s + 1] == shards[..s] + [next[s]];
      AssignedLive(next, groups, s + 1);
    }
  }

  lemma {:induction false} EvenedLive(shards: seq<int>, groups: set<int>)
    requires groups != {} && Live(shards, groups)
    ensures Live(Evened(shards, groups), groups) && Balanced(Evened(shards, groups), groups)
    decreases Pairs(shards)
  {
    if Uneven(shards, groups) {
      EvenedLive(MoveOne(shards, groups), groups);
    } else {
      EvenIffBalanced(shards, groups);
    }
  }

  /** With a group to serve them, all shards end up served and evenly spread;
      with none, all are unassigned. */
  lemma RebalancedIsBalanced(shards: seq<int>, groups: set<int>)
    ensures groups != {} ==> Live(Rebalanced(shards, groups), groups) && Balanced(Rebalanced(shards, groups), groups)
    ensures groups == {} ==> forall s :: 0 <= s < |shards| ==> Rebalanced(shards, groups)[s] == 0
  {
    if groups != {} {
      AssignedLive(shards, groups, 0);
      EvenedLive(Assigned(shards, groups, 0), groups);
    }
  }

  /** A balanced configuration is left alone. */
  lemma RebalanceIsIdle(shards: seq<int>, groups: set<int>)
    requires groups != {} && Live(shards, groups) && Balanced(shards, groups)
    ensures Rebalanced(shards, groups) == shards
  {
    AssignedLiveIs(shards, groups, 0);
    EvenIffBalanced(shards, groups);
  }

  lemma {:induction false} AssignedLiveIs(shards: seq<int>, groups: set<int>, s: nat)
    requires groups != {} && s <= |shards| && Live(shards, groups)
    ensures Assigned(shards, groups, s) == shards
    decreases |shards| - s
  {
    if s < |shards| {
      AssignedLiveIs(shards, groups, s + 1);
    }
  }

  // ---------------------------------------------------------------- leaving

  /** Handing out orphans to the least loaded group keeps a balance and touches
      no other shard. */
  lemma {:induction false} AssignedKeeps(shards: seq<int>, groups: set<int>, s: nat)
    requires groups != {} && s <= |shards| && Balanced(shards, groups)
    ensures Balanced(Assigned(shards, groups, s), groups)
    ensures forall i :: 0 <= i < |shards| && (i < s || shards[i] in groups) ==>
      Assigned(shards, groups, s)[i] == shards[i]
    decreases |shards| - s
  {
    if s < |shards| {
      if shards[s] in groups {
        AssignedKeeps(shards, groups, s + 1);
      } else {
        var l := Least(shards, groups);
        forall g | g in groups
          ensures Load(shards[s := l], g) == Load(shards, g) + (if g == l then 1 else 0)
        {
          LoadUpdate(shards, s, l, g);
        }
        AssignedKeeps(shards[s := l], groups, s + 1);
      }
    }
  }

  /** When groups leave a balanced configuration and one remains, exactly the
      shards of the leaving groups move: the second loop has nothing to do. */
  lemma LeaveMovesOrphansOnly(shards: seq<int>, before: set<int>, groups: set<int>)
    requires Live(shards, before) && Balanced(shards, before) && groups <= before && groups != {}
    ensures Rebalanced(shards, groups) == Assigned(shards, groups, 0)
    ensures forall s :: 0 <= s < |shards| ==>
      (Rebalanced(shards, groups)[s] == shards[s] <==> shards[s] in groups)
  {
    AssignedKeeps(shards, groups, 0);
    EvenIffBalanced(Assigned(shards, groups, 0), groups);
    AssignedLive(shards, groups, 0);
  }

  // ---------------------------------------------------------------- joining

  /** The moves of the second loop: which shard goes. */
  ghost function Moves(shards: seq<int>, groups: set<int>): (r: seq<nat>)
    requires groups != {}
    ensures forall i :: 0 <= i < |r| ==> r[i] < |shards|
    decreases Pairs(shards)
  {
    if Uneven(shards, groups) then
      LoadPositive(shards, Most(shards, groups));
      [FirstOf(shards, Most(shards, groups))] + Moves(MoveOne(shards, groups), groups)
    else []
  }

  /** Old groups are within one of each other, so are new ones, and no new group
      has more than an old one. */
  predicate Filling(shards: seq<int>, prior: set<int>, joined: set<int>) {
    && Balanced(shards, prior)
    && Balanced(shards, joined)
    && forall g, h :: g in joined && h in prior ==> Load(shards, g) <= Load(shards, h)
  }

  lemma MoveFills(shards: seq<int>, prior: set<int>, joined: set<int>)
    requires prior != {} && prior !! joined && Filling(shards, prior, joined) && Uneven(shards, prior + joined)
    ensures Most(shards, prior + joined) in prior && Least(shards, prior + joined) in joined
    ensures Filling(MoveOne(shards, prior + joined), prior, joined)
  {
    var groups := prior + joined;
    var m, l := Most(shards, groups), Least(shards, groups);
    assert IsMost(shards, groups, m) && IsLeast(shards, groups, l);
    MoveGoesForward(shards, prior, joined, m, l);
    LoadPositive(shards, m);
    var s := FirstOf(shards, m);
    forall g ensures Load(shards[s := l], g) == Load(shards,
        g) - (if g == m then 1 else 0) + (if g == l then 1 else 0) {
      LoadUpdate(shards, s, l, g);
    }
  }

  lemma MoveGoesForward(shards: seq<int>, prior: set<int>, joined: set<int>, m: int, l: int)
    requires prior != {} && prior !! joined && Filling(shards, prior, joined)
    requires IsMost(shards, prior + joined, m) && IsLeast(shards, prior + joined, l)
    requires Load(shards, m) >= Load(shards, l) + 2
    ensures m in prior && l in joined
  {
  }

  /** Every shard stays or goes from an old group to a new one, and no shard is
      moved twice. */
  lemma {:induction false} EvenedMovesForward(shards: seq<int>, prior: set<int>, joined: set<int>)
    requires prior != {} && prior !! joined && Filling(shards, prior, joined)
    ensures
      var r := Evened(shards, prior + joined);
      && Filling(r, prior, joined)
      && (forall s :: 0 <= s < |shards| ==> r[s] == shards[s] || (shards[s] in prior && r[s] in joined))
    ensures
      var moves := Moves(shards, prior + joined);
      && (forall i, j :: 0 <= i < j < |moves| ==> moves[i] != moves[j])
      && (forall s :: s in moves ==> shards[s] in prior)
    decreases Pairs(shards)
  {
    var groups := prior + joined;
    if Uneven(shards, groups) {
      MoveFills(shards, prior, joined);
      EvenedMovesForward(MoveOne(shards, groups), prior, joined);
    }
  }

  /** The shards placed in a set of groups. */
  function Within(shards: seq<int>, groups: set<int>): nat {
    if shards == [] then 0 else (if shards[0] in groups then 1 else 0) + Within(shards[1..], groups)
  }

  /** The shards whose group differs. */
  function Changed(a: seq<int>, b: seq<int>): nat
    requires |a| == |b|
  {
    if a == [] then 0 else (if a[0] != b[0] then 1 else 0) + Changed(a[1..], b[1..])
  }

  lemma {:induction false} WithinSplit(shards: seq<int>, groups: set<int>, g: int)
    requires g in groups
    ensures Within(shards, groups) == Load(shards, g) + Within(shards, groups - {g})
  {
    if shards != [] {
      WithinSplit(shards[1..], groups, g);
    }
  }

  lemma {:induction false} WithinNone(shards: seq<int>)
    ensures Within(shards, {}) == 0
  {
    if shards != [] {
      WithinNone(shards[1..]);
    }
  }

  lemma {:induction false} WithinMonotone(a: seq<int>, b: seq<int>, groups: set<int>)
    requires forall g :: g in groups ==> Load(a, g) <= Load(b, g)
    ensures Within(a, groups) <= Within(b, groups)
  {
    if groups == {} {
      WithinNone(a);
    } else {
      assert (forall y :: y !in groups) ==> groups == {};
      var g :| g in groups;
      WithinSplit(a, groups, g);
      WithinSplit(b, groups, g);
      WithinMonotone(a, b, groups - {g});
    }
  }

  lemma {:induction false} WithinLive(shards: seq<int>, prior: set<int>, joined: set<int>)
    requires prior !! joined && Live(shards, prior + joined)
    ensures Within(shards, prior) + Within(shards, joined) == |shards|
  {
    if shards != [] {
      assert shards[0] in prior + joined;
      assert Live(shards[1..], prior + joined) by {
        forall s | 0 <= s < |shards[1..]| ensures shards[1..][s] in prior + joined {
          assert shards[1..][s] == shards[s + 1];
        }
      }
      WithinLive(shards[1..], prior, joined);
    }
  }

  /** Placing shards in groups that had none changes at least those. */
  lemma {:induction false} ChangedBound(a: seq<int>, b: seq<int>, prior: set<int>, joined: set<int>)
    requires |a| == |b| && prior !! joined && Live(a, prior)
    ensures Within(b, joined) <= Changed(a, b)
    ensures (forall s :: 0 <= s < |a| ==> b[s] == a[s] || b[s] in joined) ==> Within(b, joined) == Changed(a, b)
  {
    if a != [] {
      assert a[0] in prior;
      assert forall s :: 0 <= s < |a[1..]| ==> a[1..][s] == a[s + 1] && b[1..][s] == b[s + 1];
      ChangedBound(a[1..], b[1..], prior, joined);
    }
  }

  /** Where no new group has more than an old one, no balanced assignment can
      give the new groups fewer shards. */
  lemma FillingIsLeast(a: seq<int>, b: seq<int>, prior: set<int>, joined: set<int>)
    requires |a| == |b| && prior !! joined
    requires Live(a, prior + joined) && Live(b, prior + joined)
    requires Filling(a, prior, joined) && Balanced(b, prior + joined)
    ensures Within(a, joined) <= Within(b, joined)
  {
    WithinLive(a, prior, joined);
    WithinLive(b, prior, joined);
    if g :| g in joined && Load(a, g) > Load(b, g) {
      forall h | h in prior ensures Load(b, h) <= Load(a, h) {
        assert Load(a, g) <= Load(a, h);
      }
      WithinMonotone(b, a, prior);
    } else {
      WithinMonotone(a, b, joined);
    }
  }

  /** When groups join a balanced configuration, shards move only from old
      groups to joining ones and none twice, and no balanced assignment of the
      same shards differs from the old one in fewer places. */
  lemma JoinMovesLeast(shards: seq<int>, prior: set<int>, joined: set<int>)
    requires prior != {} && prior !! joined && Live(shards, prior) && Balanced(shards, prior)
    ensures
      var r := Rebalanced(shards, prior + joined);
      forall s :: 0 <= s < |shards| ==> r[s] == shards[s] || (shards[s] in prior && r[s] in joined)
    ensures
      var moves := Moves(Assigned(shards, prior + joined, 0), prior + joined);
      forall i, j :: 0 <= i < j < |moves| ==> moves[i] != moves[j]
    ensures
      forall b :: |b| == |shards| && Live(b, prior + joined) && Balanced(b, prior + joined) ==>
        Changed(shards, Rebalanced(shards, prior + joined)) <= Changed(shards, b)
  {
    var groups := prior + joined;
    AssignedLiveIs(shards, groups, 0);
    forall g | g in joined ensures Load(shards, g) == 0 {
      LoadPositive(shards, g);
    }
    EvenedMovesForward(shards, prior, joined);
    RebalancedIsBalanced(shards, groups);
    var r := Rebalanced(shards, groups);
    forall b | |b| == |shards| && Live(b, groups) &&
        Balanced(b, groups) ensures Changed(shards, r) <= Changed(shards, b) {
      FillingIsLeast(r, b, prior, joined);
      ChangedBound(shards, r, prior, joined);
      ChangedBound(shards, b, prior, joined);
    }
  }
}
