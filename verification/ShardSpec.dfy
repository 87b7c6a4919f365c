/** Balancing shards over groups, as a function of the shard assignment and the
    set of group ids. An assignment gives each shard its group. */
module ShardSpec {

  /** How many shards a group has. */
  function Load(shards: seq<int>, g: int): nat {
    if shards == [] then 0 else (if shards[0] == g then 1 else 0) + Load(shards[1..], g)
  }

  /** The group with the fewest shards, the smallest id among several. */
  predicate IsLeast(shards: seq<int>, groups: set<int>, g: int) {
    && g in groups
    && forall h :: h in groups ==>
         Load(shards, g) < Load(shards, h) || (Load(shards, g) == Load(shards, h) && g <= h)
  }

  /** The group with the most shards, the smallest id among several. */
  predicate IsMost(shards: seq<int>, groups: set<int>, g: int) {
    && g in groups
    && forall h :: h in groups ==>
         Load(shards, g) > Load(shards, h) || (Load(shards, g) == Load(shards, h) && g <= h)
  }

  lemma {:induction false} LeastExists(shards: seq<int>, groups: set<int>)
    requires groups != {}
    ensures exists g :: IsLeast(shards, groups, g)
  {
    assert (forall y :: y !in groups) ==> groups == {};
    var x :| x in groups;
    var rest := groups - {x};
    if rest == {} {
      assert groups == {x};
      assert IsLeast(shards, groups, x);
    } else {
      LeastExists(shards, rest);
      var g :| IsLeast(shards, rest, g);
      var b := if Load(shards, x) < Load(shards, g) || (Load(shards, x) == Load(shards, g) && x <= g) then x else g;
      assert IsLeast(shards, groups, b);
    }
  }

  lemma {:induction false} MostExists(shards: seq<int>, groups: set<int>)
    requires groups != {}
    ensures exists g :: IsMost(shards, groups, g)
  {
    assert (forall y :: y !in groups) ==> groups == {};
    var x :| x in groups;
    var rest := groups - {x};
    if rest == {} {
      assert groups == {x};
      assert IsMost(shards, groups, x);
    } else {
      MostExists(shards, rest);
      var g :| IsMost(shards, rest, g);
      var b := if Load(shards, x) > Load(shards, g) || (Load(shards, x) == Load(shards, g) && x <= g) then x else g;
      assert IsMost(shards, groups, b);
    }
  }

  ghost function Least(shards: seq<int>, groups: set<int>): (g: int)
    requires groups != {}
    ensures IsLeast(shards, groups, g)
  {
    LeastExists(shards, groups);
    var g :| IsLeast(shards, groups, g);
    g
  }

  ghost function Most(shards: seq<int>, groups: set<int>): (g: int)
    requires groups != {}
    ensures IsMost(shards, groups, g)
  {
    MostExists(shards, groups);
    var g :| IsMost(shards, groups, g);
    g
  }

  /** Every shard belongs to one of the groups. */
  predicate Live(shards: seq<int>, groups: set<int>) {
    forall s :: 0 <= s < |shards| ==> shards[s] in groups
  }

  /** No group has more than one shard more than another. */
  predicate Balanced(shards: seq<int>, groups: set<int>) {
    forall g, h :: g in groups && h in groups ==> Load(shards, g) <= Load(shards, h) + 1
  }

  // ------------------------------------------------------------- counting

  lemma {:induction false} LoadConcat(a: seq<int>, b: seq<int>, g: int)
    ensures Load(a + b, g) == Load(a, g) + Load(b, g)
  {
    if a == [] {
      assert a + b == b;
    } else {
      assert (a + b)[1..] == a[1..] + b;
      LoadConcat(a[1..], b, g);
    }
  }

  /** Giving one shard to another group moves one unit of load. */
  lemma LoadUpdate(shards: seq<int>, s: nat, x: int, g: int)
    requires s < |shards|
    ensures
      Load(shards[s := x], g) ==
      Load(shards, g) - (if shards[s] == g then 1 else 0) + (if x == g then 1 else 0)
  {
    var a, b := shards[..s], shards[s + 1..];
    assert shards == a + ([shards[s]] + b) && shards[s := x] == a + ([x] + b);
    LoadConcat(a, [shards[s]] + b, g);
    LoadConcat(a, [x] + b, g);
  }

  lemma {:induction false} LoadPositive(shards: seq<int>, g: int)
    ensures Load(shards, g) > 0 <==> g in shards
    ensures Load(shards, g) <= |shards|
  {
    if shards != [] {
      LoadPositive(shards[1..], g);
    }
  }

  /** The pairs of shards in one group, ordered pairs and each shard with
      itself. */
  function Pairs(shards: seq<int>): nat {
    if shards == [] then 0 else Pairs(shards[1..]) + 2 * Load(shards[1..], shards[0]) + 1
  }

  /** The sum of the squared loads of the groups listed. */
  function Squares(shards: seq<int>, ids: seq<int>): nat {
    if ids == [] then 0 else Load(shards, ids[0]) * Load(shards, ids[0]) + Squares(shards, ids[1..])
  }

  predicate Distinct(ids: seq<int>) {
    forall i, j :: 0 <= i < j < |ids| ==> ids[i] != ids[j]
  }

  lemma {:induction false} SquaresGrow(shards: seq<int>, ids: seq<int>)
    requires shards != [] && Distinct(ids)
    ensures
      Squares(shards, ids) ==
      Squares(shards[1..], ids) + (if shards[0] in ids then 2 * Load(shards[1..], shards[0]) + 1 else 0)
  {
    if ids != [] {
      SquaresGrow(shards, ids[1..]);
      var n := Load(shards[1..], ids[0]);
      if ids[0] == shards[0] {
        assert shards[0] !in ids[1..];
        assert (n + 1) * (n + 1) == n * n + 2 * n + 1;
      }
    }
  }

  lemma {:induction false} SquaresNone(ids: seq<int>)
    ensures Squares([], ids) == 0
  {
    if ids != [] {
      SquaresNone(ids[1..]);
    }
  }

  /** With every shard in a listed group, the pairs are the sum of the squared
      loads. */
  lemma {:induction false} PairsAreSquares(shards: seq<int>, ids: seq<int>)
    requires Distinct(ids) && forall s :: 0 <= s < |shards| ==> shards[s] in ids
    ensures Pairs(shards) == Squares(shards, ids)
  {
    if shards == [] {
      SquaresNone(ids);
    } else {
      assert forall s :: 0 <= s < |shards[1..]| ==> shards[1..][s] == shards[s + 1];
      PairsAreSquares(shards[1..], ids);
      SquaresGrow(shards, ids);
    }
  }

  lemma {:induction false} PairsInsert(a: seq<int>, x: int, b: seq<int>)
    ensures Pairs(a + [x] + b) == Pairs(a + b) + 2 * Load(a + b, x) + 1
  {
    if a == [] {
      assert a + [x] + b == [x] + b && a + b == b;
    } else {
      assert (a + [x] + b)[1..] == a[1..] + [x] + b && (a + b)[1..] == a[1..] + b;
      PairsInsert(a[1..], x, b);
      LoadConcat(a[1..] + [x], b, a[0]);
      LoadConcat(a[1..], [x], a[0]);
      LoadConcat(a[1..], b, a[0]);
    }
  }

  /** Moving a shard to a group that has at least two fewer lowers the sum of
      squares. */
  lemma MoveLowersPairs(shards: seq<int>, s: nat, x: int)
    requires s < |shards| && Load(shards, shards[s]) >= Load(shards, x) + 2
    ensures Pairs(shards[s := x]) < Pairs(shards)
  {
    var a, b, m := shards[..s], shards[s + 1..], shards[s];
    assert shards == a + [m] + b && shards[s := x] == a + [x] + b;
    PairsInsert(a, m, b);
    PairsInsert(a, x, b);
    LoadConcat(a + [m], b, m);
    LoadConcat(a, [m], m);
    LoadConcat(a, b, m);
    LoadConcat(a + [m], b, x);
    LoadConcat(a, [m], x);
    LoadConcat(a, b, x);
  }

  // ---------------------------------------------------------- the algorithm

  /** Shards from `s` on that have no live group go to the least loaded one. */
  ghost function Assigned(shards: seq<int>, groups: set<int>, s: nat): (r: seq<int>)
    requires groups != {} && s <= |shards|
    ensures |r| == |shards|
    decreases |shards| - s
  {
    if s == |shards| then shards
    else if shards[s] in groups then Assigned(shards, groups, s + 1)
    else Assigned(shards[s := Least(shards, groups)], groups, s + 1)
  }

  /** The first shard of a group. */
  function FirstOf(shards: seq<int>, g: int): (s: nat)
    requires g in shards
    ensures s < |shards| && shards[s] == g && forall i :: 0 <= i < s ==> shards[i] != g
  {
    if shards[0] == g then 0 else 1 + FirstOf(shards[1..], g)
  }

  /** Some group has at least two shards more than another. */
  ghost predicate Uneven(shards: seq<int>, groups: set<int>)
    requires groups != {}
  {
    Load(shards, Most(shards, groups)) >= Load(shards, Least(shards, groups)) + 2
  }

  /** One shard moved from the most to the least loaded group. */
  ghost function MoveOne(shards: seq<int>, groups: set<int>): (r: seq<int>)
    requires groups != {} && Uneven(shards, groups)
    ensures |r| == |shards| && Pairs(r) < Pairs(shards)
  {
    var m, l := Most(shards, groups), Least(shards, groups);
    LoadPositive(shards, m);
    var s := FirstOf(shards, m);
    MoveLowersPairs(shards, s, l);
    shards[s := l]
  }

  ghost function Evened(shards: seq<int>, groups: set<int>): (r: seq<int>)
    requires groups != {}
    ensures |r| == |shards|
    decreases Pairs(shards)
  {
    if Uneven(shards, groups) then Evened(MoveOne(shards, groups), groups) else shards
  }

  ghost function Rebalanced(shards: seq<int>, groups: set<int>): (r: seq<int>)
    ensures |r| == |shards|
  {
    if groups == {} then seq(|shards|, _ => 0) else Evened(Assigned(shards, groups, 0), groups)
  }
}
