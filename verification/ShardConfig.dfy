/** A shard configuration as an object: which group each shard belongs to, the
    groups with their servers, and the configuration number. Map iteration, whose
    order Go leaves open, picks any remaining key. */
module ShardConfig {
  import opened ShardSpec
  import opened ShardBalance
  import opened Sorting

  /** A call is done, refused, or ends the process. */
  datatype Outcome = Done | Refused | Fatal

  type Groups = map<int, seq<string>>

  /** Two server lists have a server in common. */
  predicate Share(a: seq<string>, b: seq<string>) {
    exists s :: s in a && s in b
  }

  /** No joining group shares a server with another group, old or joining. */
  ghost predicate Apart(groups: Groups, joining: Groups) {
    forall g, x :: g in joining && x != g ==>
      (x in groups ==> !Share(groups[x], joining[g])) && (x in joining ==> !Share(joining[x], joining[g]))
  }

  lemma SomeKey(keys: set<int>)
    requires keys != {}
    ensures exists k :: k in keys
  {
    assert (forall k :: k !in keys) ==> keys == {};
  }

  /** The entries of a map at some of its keys. */
  function Part(m: Groups, keys: set<int>): Groups {
    map g | g in m && g in keys :: m[g]
  }

  /** So far `part` has joined, and it shares no server with any other group. */
  ghost predicate Added(was: Groups, now: Groups, joining: Groups, part: set<int>) {
    && part <= joining.Keys && part !! was.Keys
    && now == was + Part(joining, part)
    && forall g, x :: g in part && x in now && x != g ==> !Share(now[x], joining[g])
  }

  lemma AddedNone(was: Groups, joining: Groups)
    ensures Added(was, was, joining, {})
  {
    assert Part(joining, {}) == map[];
  }

  /** What is known when `gid` is looked at: if it is present it was so before,
      and a clash is one with another group, old or joining. */
  lemma AddedIs(was: Groups, now: Groups, joining: Groups, part: set<int>, gid: int)
    requires Added(was, now, joining, part) && gid in joining && gid !in part
    ensures part <= joining.Keys && now == was + Part(joining, part)
    ensures gid in now ==> gid in was
    ensures gid !in now && (exists x :: x in now && Share(now[x], joining[gid])) ==> !Apart(was, joining)
  {
    hide Share;
    if x :| gid !in now && x in now && Share(now[x], joining[gid]) {
      assert x != gid && (x in was || x in joining);
    }
  }

  lemma AddOne(was: Groups, now: Groups, joining: Groups, part: set<int>, gid: int)
    requires Added(was, now, joining, part) && gid in joining && gid !in now
    requires forall x :: x in now ==> !Share(now[x], joining[gid])
    ensures Added(was, now[gid := joining[gid]], joining, part + {gid})
  {
    hide Share;
    assert now[gid := joining[gid]] == was + Part(joining, part + {gid});
    forall x | x in now ensures !Share(joining[gid], now[x]) {
      ShareSymmetric(now[x], joining[gid]);
    }
  }

  lemma ShareSymmetric(a: seq<string>, b: seq<string>)
    ensures Share(a, b) <==> Share(b, a)
  {
  }

  lemma AddedAll(was: Groups, now: Groups, joining: Groups)
    requires Added(was, now, joining, joining.Keys)
    ensures now == was + joining && joining.Keys !! was.Keys && Apart(was, joining)
  {
    hide Share;
    assert Part(joining, joining.Keys) == joining;
  }

  class Config {
    var num: nat
    const shards: array<int>
    var groups: Groups

    constructor (n: nat)
      ensures num == 0 && groups == map[] && shards.Length == n && forall s :: 0 <= s < n ==> shards[s] == 0
    {
      num, groups, shards := 0, map[], new int[n](_ => 0);
    }

    /** How many shards each group id has. */
    method Counts() returns (counts: map<int, nat>)
      ensures forall g :: (if g in counts then counts[g] else 0) == Load(shards[..], g)
    {
      counts := map[];
      for i := 0 to shards.Length
        invariant forall g :: (if g in counts then counts[g] else 0) == Load(shards[..i], g)
      {
        var g := shards[i];
        forall h ensures Load(shards[..i + 1], h) == Load(shards[..i], h) + (if h == g then 1 else 0) {
          assert shards[..i + 1] == shards[..i] + [g];
          LoadConcat(shards[..i], [g], h);
        }
        counts := counts[g := (if g in counts then counts[g] else 0) + 1];
      }
      assert shards[..shards.Length] == shards[..];
    }

    /** The group ids in increasing order. */
    method SortedIds() returns (ids: seq<int>)
      ensures Sorted(ids) && |ids| == |groups.Keys| && forall g :: g in ids <==> g in groups
    {
      var keys, rest := [], groups.Keys;
      while rest != {}
        invariant rest <= groups.Keys && |keys| + |rest| == |groups.Keys|
        invariant forall g :: g in keys <==> g in groups && g !in rest
      {
        SomeKey(rest);
        var k :| k in rest;
        keys, rest := keys + [k], rest - {k};
      }
      ids := Sort(keys);
      SortSorted(keys);
      assert forall g :: (g in ids <==> g in multiset(ids)) && (g in keys <==> g in multiset(keys));
    }

    /** The most and the least loaded group with their loads, each the smallest id
        among several, whatever order the groups were listed in. */
    method Analyze() returns (mg: int, mn: int, lg: int, ln: int)
      requires shards.Length <= 256
      ensures groups.Keys != {} ==>
        && mg == Most(shards[..], groups.Keys) && mn == Load(shards[..], mg)
        && lg == Least(shards[..], groups.Keys) && ln == Load(shards[..], lg)
      ensures groups.Keys == {} ==> mg == -1 && mn == -1 && lg == -1 && ln == 257
    {
      hide Load;
      var counts := Counts();
      ghost var now := shards[..];
      mg, mn, lg, ln := -1, -1, -1, 257;
      var ids := SortedIds();
      for i := 0 to |ids|
        invariant i == 0 ==> mg == -1 && mn == -1 && lg == -1 && ln == 257
        invariant i > 0 ==> mg in ids[..i] && lg in ids[..i] && mn == Load(now, mg) && ln == Load(now, lg)
        invariant forall j :: 0 <= j < i ==>
          && ln <= Load(now, ids[j]) <= mn
          && (Load(now, ids[j]) == mn ==> mg <= ids[j])
          && (Load(now, ids[j]) == ln ==> lg <= ids[j])
      {
        var g := ids[i];
        var count := if g in counts then counts[g] else 0;
        LoadPositive(now, g);
        if count < ln {
          ln, lg := count, g;
        }
        if count > mn {
          mn, mg := count, g;
        }
        assert ids[..i + 1] == ids[..i] + [g];
      }
      if groups.Keys != {} {
        AnalyzeEnds(now, groups.Keys, ids, mg, lg);
      }
    }

    static lemma AnalyzeEnds(now: seq<int>, keys: set<int>, ids: seq<int>, mg: int, lg: int)
      requires keys != {} && forall g :: g in ids <==> g in keys
      requires ids != [] ==> mg in ids && lg in ids
      requires forall j :: 0 <= j < |ids| ==>
        && Load(now, lg) <= Load(now, ids[j]) <= Load(now, mg)
        && (Load(now, ids[j]) == Load(now, mg) ==> mg <= ids[j])
        && (Load(now, ids[j]) == Load(now, lg) ==> lg <= ids[j])
      ensures ids != [] && mg == Most(now, keys) && lg == Least(now, keys)
    {
      assert Least(now, keys) in ids;
      forall h | h in keys
        ensures Load(now, lg) < Load(now, h) || (Load(now, lg) == Load(now, h) && lg <= h)
        ensures Load(now, mg) > Load(now, h) || (Load(now, mg) == Load(now, h) && mg <= h)
      {
        var j :| 0 <= j < |ids| && ids[j] == h;
      }
      ChoicesUnique(now, keys, mg);
      ChoicesUnique(now, keys, lg);
    }

    /** The shards after rebalancing depend on the shards and the group ids
        alone; the move loop ends since each move lowers the sum of squares. */
    method Rebalance()
      requires shards.Length <= 256
      modifies shards
      ensures shards[..] == Rebalanced(old(shards[..]), groups.Keys)
    {
      if |groups| < 1 {
        assert groups.Keys == {};
        for s := 0 to shards.Length
          invariant forall i :: 0 <= i < s ==> shards[i] == 0
        {
          shards[s] := 0;
        }
        return;
      }
      assert groups.Keys != {};
      AssignOrphans();
      EvenOut();
    }

    method AssignOrphans()
      requires shards.Length <= 256 && groups.Keys != {}
      modifies shards
      ensures shards[..] == Assigned(old(shards[..]), groups.Keys, 0)
    {
      for s := 0 to shards.Length
        invariant Assigned(shards[..], groups.Keys, s) == Assigned(old(shards[..]), groups.Keys, 0)
      {
        if shards[s] !in groups {
          ghost var before := shards[..];
          var _, _, lg, _ := Analyze();
          shards[s] := lg;
          assert shards[..] == before[s := lg];
        }
      }
    }

    method EvenOut()
      requires shards.Length <= 256 && groups.Keys != {}
      modifies shards
      ensures shards[..] == Evened(old(shards[..]), groups.Keys)
    {
      while true
        invariant Evened(shards[..], groups.Keys) == Evened(old(shards[..]), groups.Keys)
        decreases Pairs(shards[..])
      {
        var mg, mn, lg, ln := Analyze();
        if mn < ln + 2 {
          break;
        }
        ghost var before := shards[..];
        LoadPositive(before, mg);
        MoveFirst(mg, lg);
        assert shards[..] == MoveOne(before, groups.Keys);
      }
    }

    /** The first shard of one group goes to another. */
    method MoveFirst(mg: int, lg: int)
      requires mg in shards[..]
      modifies shards
      ensures shards[..] == old(shards[..])[FirstOf(old(shards[..]), mg) := lg]
    {
      for s := 0 to shards.Length
        invariant shards[..] == old(shards[..])
        invariant forall i :: 0 <= i < s ==> shards[i] != mg
      {
        if shards[s] == mg {
          shards[s] := lg;
          return;
        }
      }
    }

    /** Some configured group has one of these servers. */
    method Clashes(servers: seq<string>) returns (clash: bool)
      ensures clash <==> exists x :: x in groups && Share(groups[x], servers)
    {
      var rest := groups.Keys;
      while rest != {}
        invariant rest <= groups.Keys
        invariant forall x :: x in groups && x !in rest ==> !Share(groups[x], servers)
      {
        SomeKey(rest);
        var x :| x in rest;
        rest := rest - {x};
        for i := 0 to |groups[x]|
          invariant forall k :: 0 <= k < i ==> groups[x][k] !in servers
        {
          for j := 0 to |servers|
            invariant forall k :: 0 <= k < j ==> groups[x][i] != servers[k]
          {
            if groups[x][i] == servers[j] {
              assert groups[x][i] in groups[x] && groups[x][i] in servers;
              assert Share(groups[x], servers);
              return true;
            }
          }
        }
      }
      clash := false;
    }

    /** Join succeeds exactly when some group joins, none is already present and
        no server would be in two groups. Otherwise part of the groups may have
        been added, and the number is unchanged. */
    method Join(joining: Groups) returns (r: Outcome)
      modifies this
      ensures r == Done <==> joining != map[] && joining.Keys !! old(groups).Keys && Apart(old(groups), joining)
      ensures r == Refused ==> exists g :: g in joining && g in old(groups)
      ensures r == Fatal ==> joining == map[] || !Apart(old(groups), joining)
      ensures r == Done ==> groups == old(groups) + joining && num == old(num) + 1
      ensures r != Done ==>
        num == old(num) && exists part: set<int> :: part <= joining.Keys && groups == old(groups) + Part(joining, part)
    {
      hide Added, Apart, Part;
      ghost var was := groups;
      var changed := false;
      var rest := joining.Keys;
      AddedNone(was, joining);
      assert joining.Keys - rest == {};
      while rest != {}
        invariant rest <= joining.Keys && num == old(num)
        invariant Added(was, groups, joining, joining.Keys - rest)
        invariant changed <==> joining.Keys != rest
      {
        SomeKey(rest);
        var gid :| gid in rest;
        AddedIs(was, groups, joining, joining.Keys - rest, gid);
        if gid in groups {
          return Refused;
        }
        var clash := Clashes(joining[gid]);
        if clash {
          return Fatal;
        }
        AddOne(was, groups, joining, joining.Keys - rest, gid);
        assert joining.Keys - rest + {gid} == joining.Keys - (rest - {gid});
        groups := groups[gid := joining[gid]];
        changed := true;
        rest := rest - {gid};
      }
      assert joining.Keys - rest == joining.Keys;
      AddedAll(was, groups, joining);
      if !changed {
        assert joining == map[];
        return Fatal;
      }
      num := num + 1;
      r := Done;
    }

    /** Leave succeeds exactly when some group leaves, each is present and none is
        named twice. Otherwise the groups before the first bad name are gone, and
        the number is unchanged. */
    method Leave(gids: seq<int>) returns (r: Outcome)
      modifies this
      ensures r == Done <==> gids != [] && Present(gids, old(groups).Keys)
      ensures r == Fatal <==> gids == []
      ensures r == Done ==> groups == old(groups) - Ids(gids) && num == old(num) + 1
      ensures r != Done ==> num == old(num) && exists i :: 0 <= i <= |gids| && groups == old(groups) - Ids(gids[..i])
    {
      var changed := false;
      assert gids[..0] == [];
      for i := 0 to |gids|
        invariant num == old(num) && groups == old(groups) - Ids(gids[..i])
        invariant Present(gids[..i], old(groups).Keys)
        invariant changed <==> i > 0
      {
        assert gids[..i + 1] == gids[..i] + [gids[i]];
        if gids[i] !in groups {
          assert !Present(gids, old(groups).Keys);
          return Refused;
        }
        groups := groups - {gids[i]};
        changed := true;
      }
      assert gids[..|gids|] == gids;
      if !changed {
        return Fatal;
      }
      num := num + 1;
      r := Done;
    }

    /** A join that succeeds leaves every shard served and balanced; from a
        balanced configuration it moves shards only from old groups to joining
        ones, and no balanced assignment moves fewer. */
    method JoinBalance(joining: Groups) returns (r: Outcome)
      requires shards.Length <= 256
      modifies this, shards
      ensures r == Done <==> joining != map[] && joining.Keys !! old(groups).Keys && Apart(old(groups), joining)
      ensures r == Done ==> groups == old(groups) + joining && num == old(num) + 1
      ensures r == Done ==> Live(shards[..], groups.Keys) && Balanced(shards[..], groups.Keys)
      ensures r != Done ==> shards[..] == old(shards[..]) && num == old(num)
      ensures
        r == Done && old(groups).Keys != {} && Live(old(shards[..]), old(groups).Keys) &&
          Balanced(old(shards[..]), old(groups).Keys) ==>
          && (forall s :: 0 <= s < shards.Length ==>
                shards[s] == old(shards[s]) || (old(shards[s]) in old(groups) && shards[s] in joining))
          && (forall b: seq<int> :: |b| == shards.Length && Live(b, groups.Keys) && Balanced(b, groups.Keys) ==>
                Changed(old(shards[..]), shards[..]) <= Changed(old(shards[..]), b))
    {
      r := Join(joining);
      if r != Done {
        return;
      }
      Rebalance();
      ghost var was, prior := old(shards[..]), old(groups).Keys;
      assert groups.Keys == prior + joining.Keys;
      assert groups.Keys != {} by {
        SomeKey(joining.Keys);
      }
      RebalancedIsBalanced(was, groups.Keys);
      if prior != {} && Live(was, prior) && Balanced(was, prior) {
        JoinMovesLeast(was, prior, joining.Keys);
      }
    }

    /** A leave that succeeds leaves every shard served and balanced, or all
        unassigned when no group is left; from a balanced configuration with a
        group left it moves exactly the shards of the leaving groups. */
    method LeaveBalance(gids: seq<int>) returns (r: Outcome)
      requires shards.Length <= 256
      modifies this, shards
      ensures r == Done <==> gids != [] && Present(gids, old(groups).Keys)
      ensures r == Done ==> groups == old(groups) - Ids(gids) && num == old(num) + 1
      ensures r == Done && groups.Keys != {} ==> Live(shards[..], groups.Keys) && Balanced(shards[..], groups.Keys)
      ensures r == Done && groups.Keys == {} ==> forall s :: 0 <= s < shards.Length ==> shards[s] == 0
      ensures r != Done ==> shards[..] == old(shards[..]) && num == old(num)
      ensures
        r == Done && groups.Keys != {} && Live(old(shards[..]), old(groups).Keys) &&
          Balanced(old(shards[..]), old(groups).Keys) ==>
          forall s :: 0 <= s < shards.Length ==> (shards[s] == old(shards[s]) <==> old(shards[s]) !in gids)
    {
      r := Leave(gids);
      if r != Done {
        return;
      }
      Rebalance();
      ghost var was, prior := old(shards[..]), old(groups).Keys;
      RebalancedIsBalanced(was, groups.Keys);
      if groups.Keys != {} && Live(was, prior) && Balanced(was, prior) {
        LeaveMovesOrphansOnly(was, prior, groups.Keys);
      }
    }
  }

  function Ids(gids: seq<int>): set<int> {
    set g | g in gids
  }

  /** Each id is one of the groups and none is repeated. */
  predicate Present(gids: seq<int>, keys: set<int>) {
    && (forall i :: 0 <= i < |gids| ==> gids[i] in keys)
    && (forall i, j :: 0 <= i < j < |gids| ==> gids[i] != gids[j])
  }
}
