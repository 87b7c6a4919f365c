/** The coordinator: the status of every task, as functions on its state and as
    an object that updates it in place. */
module MrCoordinator {

  datatype Status = Pending | InProgress | Finished

  datatype Task = MapTask(id: nat) | ReduceTask(id: nat) | Wait | Exit

  /** Task states with the time each was last handed out. */
  datatype Coord = Coord(maps: seq<Status>, reduces: seq<Status>, mapStamps: map<nat, int>, reduceStamps: map<nat, int>)

  /** Seconds after which a task in progress is handed out again. */
  const PATIENCE := 10

  predicate AllFinished(s: seq<Status>) {
    forall i :: 0 <= i < |s| ==> s[i] == Finished
  }

  predicate JobDone(c: Coord) { AllFinished(c.maps) && AllFinished(c.reduces) }

  /** The first task that is pending. */
  predicate FirstPending(s: seq<Status>, i: int) {
    0 <= i < |s| && s[i] == Pending && forall k :: 0 <= k < i ==> s[k] != Pending
  }

  function Initial(nMap: nat, nReduce: nat): Coord {
    Coord(seq(nMap, _ => Pending), seq(nReduce, _ => Pending), map[], map[])
  }

  /** The task handed out: a pending map first, reduces only once all maps are
      finished, and Exit only when the job is done. */
  predicate Assigns(c: Coord, now: int, c': Coord, t: Task) {
    match t
    case MapTask(i) =>
      && FirstPending(c.maps, i)
      && c' == c.(maps := c.maps[i := InProgress], mapStamps := c.mapStamps[i := now])
    case ReduceTask(i) =>
      && AllFinished(c.maps)
      && FirstPending(c.reduces, i)
      && c' == c.(reduces := c.reduces[i := InProgress], reduceStamps := c.reduceStamps[i := now])
    case Wait =>
      && c' == c
      && Pending !in c.maps
      && !JobDone(c)
      && (AllFinished(c.maps) ==> Pending !in c.reduces)
    case Exit => c' == c && JobDone(c)
  }

  /** A worker reports a task as finished. */
  function Finish(c: Coord, t: Task): Coord {
    match t
    case MapTask(i) => if i < |c.maps| then c.(maps := c.maps[i := Finished]) else c
    case ReduceTask(i) => if i < |c.reduces| then c.(reduces := c.reduces[i := Finished]) else c
    case _ => c
  }

  /** Tasks in progress for too long become pending. */
  function Expired(s: seq<Status>, stamps: map<nat, int>, now: int): (r: seq<Status>)
    ensures |r| == |s|
  {
    seq(|s|, i requires 0 <= i < |s| =>
      if s[i] == InProgress && i in stamps && now - stamps[i] > PATIENCE then Pending else s[i])
  }

  function Expire(c: Coord, now: int): Coord {
    c.(maps := Expired(c.maps, c.mapStamps, now), reduces := Expired(c.reduces, c.reduceStamps, now))
  }

  class Coordinator {
    var maps: seq<Status>
    var reduces: seq<Status>
    var mapStamps: map<nat, int>
    var reduceStamps: map<nat, int>

    function View(): Coord
      reads this
    {
      Coord(maps, reduces, mapStamps, reduceStamps)
    }

    /** Only tasks that exist were handed out. */
    predicate Valid()
      reads this
    {
      && (forall i :: i in mapStamps ==> i < |maps|)
      && (forall i :: i in reduceStamps ==> i < |reduces|)
    }

    constructor (nMap: nat, nReduce: nat)
      ensures Valid() && View() == Initial(nMap, nReduce)
    {
      var ms: seq<Status>, rs: seq<Status> := [], [];
      for i := 0 to nMap
        invariant ms == seq(i, _ => Pending)
      {
        ms := ms + [Pending];
      }
      for i := 0 to nReduce
        invariant rs == seq(i, _ => Pending)
      {
        rs := rs + [Pending];
      }
      maps, reduces, mapStamps, reduceStamps := ms, rs, map[], map[];
    }

    method EndCheck() returns (done: bool)
      ensures done == JobDone(View())
    {
      done := Pending !in maps && InProgress !in maps && Pending !in reduces && InProgress !in reduces;
      StatusesAre(maps);
      StatusesAre(reduces);
    }

    /** There is no map to hand out and yet not all are finished, so a worker
        that asks can be given neither a map nor a reduce. */
    method WaitCheck() returns (wait: bool)
      ensures wait <==> !AllFinished(maps) && forall i :: !FirstPending(maps, i)
      ensures wait ==> forall now, c', t :: Assigns(View(), now, c', t) ==> t == Wait
    {
      wait := InProgress in maps && Pending !in maps;
      StatusesAre(maps);
      FirstOfPending(maps);
    }

    method AssignTask(now: int) returns (t: Task)
      requires Valid()
      modifies this
      ensures Valid() && Assigns(old(View()), now, View(), t)
    {
      if Pending in maps {
        for i := 0 to |maps|
          invariant View() == old(View()) && Valid()
          invariant forall k :: 0 <= k < i ==> maps[k] != Pending
        {
          if maps[i] == Pending {
            maps, mapStamps := maps[i := InProgress], mapStamps[i := now];
            return MapTask(i);
          }
        }
      }
      StatusesAre(maps);
      var wait := WaitCheck();
      if wait {
        return Wait;
      }
      if Pending in reduces && Pending !in maps && InProgress !in maps {
        for i := 0 to |reduces|
          invariant View() == old(View()) && Valid()
          invariant forall k :: 0 <= k < i ==> reduces[k] != Pending
        {
          if reduces[i] == Pending {
            reduces, reduceStamps := reduces[i := InProgress], reduceStamps[i := now];
            return ReduceTask(i);
          }
        }
      }
      var done := EndCheck();
      t := if done then Exit else Wait;
    }

    method TasksDone(t: Task)
      requires Valid()
      requires (t.MapTask? && t.id < |maps|) || (t.ReduceTask? && t.id < |reduces|)
      modifies this
      ensures Valid() && View() == Finish(old(View()), t)
      ensures mapStamps == old(mapStamps) && reduceStamps == old(reduceStamps)
      ensures if t.MapTask? then maps == old(maps)[t.id := Finished] && reduces == old(reduces)
              else reduces == old(reduces)[t.id := Finished] && maps == old(maps)
    {
      if t.MapTask? {
        maps := maps[t.id := Finished];
      } else {
        reduces := reduces[t.id := Finished];
      }
    }

    /** One pass of the time-out loop; the stamps are visited in any order. */
    method TimeOutCheck(now: int) returns (done: bool)
      requires Valid()
      modifies this
      ensures Valid() && View() == Expire(old(View()), now) && done == JobDone(View())
      ensures |maps| == |old(maps)| && |reduces| == |old(reduces)|
      ensures forall i :: 0 <= i < |maps| ==>
        maps[i] == if old(maps[i]).InProgress? && i in mapStamps &&
          now - mapStamps[i] > 10 then Pending else old(maps[i])
      ensures forall i :: 0 <= i < |reduces| ==>
        reduces[i] == if old(reduces[i]).InProgress? && i in reduceStamps && now - reduceStamps[i] > 10 then Pending
                      else old(reduces[i])
    {
      maps := Overdue(maps, mapStamps, now);
      reduces := Overdue(reduces, reduceStamps, now);
      done := EndCheck();
    }

    static method Overdue(s: seq<Status>, stamps: map<nat, int>, now: int) returns (r: seq<Status>)
      requires forall i :: i in stamps ==> i < |s|
      ensures r == Expired(s, stamps, now)
    {
      r := s;
      var rest := stamps.Keys;
      while rest != {}
        invariant rest <= stamps.Keys && |r| == |s|
        invariant forall i :: 0 <= i < |s| ==> r[i] == if i in stamps &&
          i !in rest then Expired(s, stamps, now)[i] else s[i]
      {
        SomeStamp(rest);
        var id :| id in rest;
        if now - stamps[id] > PATIENCE && r[id] == InProgress {
          r := r[id := Pending];
        }
        rest := rest - {id};
      }
    }

    static lemma SomeStamp(keys: set<nat>)
      requires keys != {}
      ensures exists k :: k in keys
    {
      assert (forall k :: k !in keys) ==> keys == {};
    }

    /** If some task is pending there is a first one. */
    static lemma {:induction false} FirstOfPending(s: seq<Status>)
      ensures Pending in s <==> exists i :: FirstPending(s, i)
    {
      if Pending in s {
        var front, last := s[..|s| - 1], |s| - 1;
        if Pending in front {
          FirstOfPending(front);
          var i :| FirstPending(front, i);
          assert FirstPending(s, i);
        } else {
          assert forall k :: 0 <= k < last ==> s[k] == front[k] && front[k] in front;
          assert FirstPending(s, last);
        }
      }
    }

    static lemma StatusesAre(s: seq<Status>)
      ensures Pending !in s && InProgress !in s <==> AllFinished(s)
    {
      if Pending !in s && InProgress !in s {
        forall i | 0 <= i < |s| ensures s[i] == Finished {
          assert s[i] in s;
        }
      }
    }
  }
}
