/** The clerk of the single server and the lock object built on it, as loops
    over what their calls bring. The network is a parameter: the outcomes of the
    calls in order. A loop that uses all of them up is still waiting. */
module LockClient {
  import opened KvMachine
  import opened KvStore
  import opened LockProtocol

  /** A client's state after the outcomes of its calls. */
  function Follow(cl: Client, net: seq<Outcome>): Client {
    if net == [] then cl else Advance(Follow(cl, net[..|net| - 1]), net[|net| - 1])
  }

  lemma FollowNext(cl: Client, net: seq<Outcome>, i: nat)
    requires i < |net|
    ensures Follow(cl, net[..i + 1]) == Advance(Follow(cl, net[..i]), net[i])
  {
    assert net[..i + 1][..i] == net[..i];
  }

  /** Calls that bring no Get answer leave a client that waits for one. */
  lemma {:induction false} FollowGet(cl: Client, net: seq<Outcome>, i: nat, j: nat)
    requires i <= j <= |net| && (forall k :: i <= k < j ==> !net[k].GotGet?)
    requires Follow(cl, net[..i]).pc.Polling? || Follow(cl, net[..i]).pc.Checking?
    ensures Follow(cl, net[..j]) == Follow(cl, net[..i])
    decreases j - i
  {
    hide Follow;
    if i < j {
      FollowGet(cl, net, i, j - 1);
      FollowNext(cl, net, j - 1);
    }
  }

  /** Calls that bring no Put answer only mark the Put as repeated. */
  lemma {:induction false} FollowPut(cl: Client, net: seq<Outcome>, i: nat, j: nat)
    requires i <= j <= |net| && (forall k :: i <= k < j ==> !net[k].GotPut?)
    requires Follow(cl, net[..i]).pc.Taking?
    ensures
      var c := Follow(cl, net[..i]);
      Follow(cl, net[..j]) == c.(pc := Taking(c.pc.version, c.pc.first && i == j))
    decreases j - i
  {
    hide Follow;
    if i < j {
      FollowPut(cl, net, i, j - 1);
      FollowNext(cl, net, j - 1);
    }
  }

  // ----------------------------------------- an acquisition, read off the calls

  predicate FirstGet(net: seq<Outcome>, i: nat, g: nat) {
    i <= g < |net| && net[g].GotGet? && forall k :: i <= k < g ==> !net[k].GotGet?
  }

  predicate FirstPut(net: seq<Outcome>, i: nat, p: nat) {
    i <= p < |net| && net[p].GotPut? && forall k :: i <= k < p ==> !net[k].GotPut?
  }

  predicate NoGet(net: seq<Outcome>, i: nat) {
    forall k :: i <= k < |net| ==> !net[k].GotGet?
  }

  predicate NoPut(net: seq<Outcome>, i: nat) {
    forall k :: i <= k < |net| ==> !net[k].GotPut?
  }

  /** The lock is free to try: never used, or released. */
  predicate Opens(a: GetAnswer) {
    a.err == ErrNoKey || a.value == RELEASED
  }

  /** How polling from some call on goes: the lock is taken at a version, polling
      starts again, or the calls run out. */
  datatype Ending = Taken(used: nat, version: nat) | Again(used: nat) | Waiting

  /** The Get after an unclear Put: the lock is taken if the value is the
      client's own. */
  ghost predicate Settles(net: seq<Outcome>, at: nat, value: string, e: Ending) {
    (NoGet(net, at) && e == Waiting) ||
    exists h: nat ::
      FirstGet(net, at, h) && e == if net[h].a.value == value then Taken(h + 1, net[h].a.version) else Again(h + 1)
  }

  /** The Put of an attempt at version `seen`: an OK takes the lock at the next
      version, a repeated call's ErrVersion is settled, anything else ends the
      attempt. */
  ghost predicate Tries(net: seq<Outcome>, at: nat, value: string, seen: nat, e: Ending) {
    (NoPut(net, at) && e == Waiting) ||
    exists p: nat ::
      FirstPut(net, at, p) &&
      if net[p].err == OK then e == Taken(p + 1, seen + 1)
      else if net[p].err == ErrMaybe || (net[p].err == ErrVersion && p > at) then Settles(net, p + 1, value, e)
      else e == Again(p + 1)
  }

  /** One poll: an attempt starts if and only if the answer says the lock is free
      to try, at the version it says. */
  ghost predicate Polls(net: seq<Outcome>, i: nat, value: string, e: Ending) {
    (NoGet(net, i) && e == Waiting) ||
    exists g: nat ::
      FirstGet(net, i, g) &&
      if Opens(net[g].a) then Tries(net, g + 1, value, net[g].a.version, e) else e == Again(g + 1)
  }

  /** The whole acquisition: the calls at which polling starts, and how it ends. */
  ghost predicate Acquires(net: seq<Outcome>, polls: seq<nat>, value: string, e: Ending) {
    |polls| > 0 && polls[0] == 0 && !e.Again? && Polls(net, polls[|polls| - 1], value, e) &&
    forall m :: 0 < m < |polls| ==> Polls(net, polls[m - 1], value, Again(polls[m]))
  }

  class Clerk {
    constructor () {}

    /** The answer of the first call that brings one. */
    method Get(net: seq<Outcome>, at: nat) returns (a: GetAnswer, i: nat)
      requires at <= |net|
      ensures at <= i <= |net| && forall k :: at <= k < i ==> !net[k].GotGet?
      ensures i < |net| ==> net[i] == GotGet(a)
    {
      i, a := at, GetAnswer("", 0, ErrNoKey);
      while i < |net|
        invariant at <= i <= |net| && forall k :: at <= k < i ==> !net[k].GotGet?
      {
        if net[i].GotGet? {
          return net[i].a, i;
        }
        i := i + 1;
      }
    }

    /** The answer of the first call that brings one, an ErrVersion on a repeated
        call reported as ErrMaybe. */
    method Put(net: seq<Outcome>, at: nat) returns (err: Err, i: nat)
      requires at <= |net|
      ensures at <= i <= |net| && forall k :: at <= k < i ==> !net[k].GotPut?
      ensures i < |net| ==> net[i].GotPut? && err == ClerkErr(i == at, net[i].err)
    {
      var firstPut := true;
      i, err := at, OK;
      while i < |net|
        invariant at <= i <= |net| && forall k :: at <= k < i ==> !net[k].GotPut?
        invariant firstPut == (i == at)
      {
        if net[i].GotPut? {
          if !firstPut && net[i].err == ErrVersion {
            return ErrMaybe, i;
          }
          return net[i].err, i;
        }
        firstPut := false;
        i := i + 1;
      }
    }
  }

  class Lock {
    const ck: Clerk
    const key: string
    const value: string
    var version: nat

    constructor (ck: Clerk, name: string, random: string)
      ensures this.ck == ck && key == name && value == random && version == 0
    {
      this.ck, key, value, version := ck, name, random, 0;
    }

    /** The protocol's client that has just called Acquire. */
    ghost function Asking(): Client
      reads this
    {
      Client(key, value, version, Polling, 0, false, version)
    }

    /** Acquire follows the protocol's client step by step and returns when that
        client holds the lock, with its version. Read off the calls: it polls
        until a Get says the lock is free to try, and then one Put, settled if
        unclear, decides. */
    method Acquire(net: seq<Outcome>) returns (used: nat, done: bool, ghost polls: seq<nat>)
      modifies this
      ensures Acquires(net, polls, value, if done then Taken(used, version) else Waiting)
      ensures used <= |net|
      ensures done <==> Follow(old(Asking()), net[..used]).pc.Held?
      ensures version == (if done then Follow(old(Asking()), net[..used]).version else old(version))
      ensures !done ==> used == |net|
    {
      ghost var start := Asking();
      used, done, polls := 0, false, [0];
      assert Follow(start, net[..0]) == start;
      hide Follow, Polls;
      while used < |net|
        invariant used <= |net| && version == old(version) && !done
        invariant |polls| > 0 && polls[0] == 0 && polls[|polls| - 1] == used
        invariant forall m :: 0 < m < |polls| ==> Polls(net, polls[m - 1], value, Again(polls[m]))
        invariant Follow(start, net[..used]).pc.Polling?
        invariant Same(start, Follow(start, net[..used]))
      {
        ghost var e: Ending;
        done, used, e := Poll(net, used, start);
        if done {
          return;
        }
        polls := if e.Again? then polls + [used] else polls;
        if used == |net| {
          RanOut(net, used, value);
          return;
        }
      }
      RanOut(net, used, value);
    }

    static lemma RanOut(net: seq<Outcome>, i: nat, value: string)
      requires i == |net|
      ensures Polls(net, i, value, Waiting)
    {
    }

    /** One poll and, if it finds the lock free to try, one attempt. */
    method Poll(net: seq<Outcome>, at: nat, ghost start: Client) returns (done: bool, i: nat, ghost e: Ending)
      requires at < |net|
      requires
        var c := Follow(start, net[..at]);
        c.pc.Polling? && Same(start, c)
      requires value == start.value && version == start.version
      modifies this
      ensures
        at <= i <= |net| &&
        var c := Follow(start, net[..i]);
        && c.value == value
        && (done <==> c.pc.Held?)
        && (!done ==> Same(start, c) && (e == Waiting || (c.pc.Polling? && at < i)))
      ensures Polls(net, at, value, e)
      ensures e == if done then Taken(i, version) else if e.Waiting? then Waiting else Again(i)
      ensures e.Waiting? ==> i == |net|
      ensures version == (if done then Follow(start, net[..i]).version else old(version))
    {
      hide Follow, Tries;
      done, e := false, Waiting;
      var a, g := ck.Get(net, at);
      FollowGet(start, net, at, g);
      i := g;
      if i == |net| {
        return;
      }
      assert FirstGet(net, at, g);
      FollowNext(start, net, i);
      i := i + 1;
      e := Again(i);
      if a.err == ErrNoKey || a.value == RELEASED {
        done, i, e := Take(net, i, start, a.version);
      }
    }

    static predicate Same(c: Client, d: Client) {
      c.value == d.value && c.version == d.version
    }

    /** The Put of one attempt and, when its report is unclear, the Get that
        settles it. */
    method Take(net: seq<Outcome>, at: nat, ghost start: Client, seen: nat) returns (done: bool, i: nat,
        ghost e: Ending)
      requires at <= |net|
      requires
        var c := Follow(start, net[..at]);
        c.pc == Taking(seen, true) && Same(start, c)
      requires value == start.value && version == start.version
      modifies this
      ensures
        at <= i <= |net| &&
        var c := Follow(start, net[..i]);
        && c.value == value
        && (done <==> c.pc.Held?)
        && (!done ==> Same(start, c) && (e == Waiting || c.pc.Polling?))
      ensures Tries(net, at, value, seen, e)
      ensures e == if done then Taken(i, version) else if e.Waiting? then Waiting else Again(i)
      ensures e.Waiting? ==> i == |net|
      ensures version == (if done then Follow(start, net[..i]).version else old(version))
    {
      hide Follow;
      done, e := false, Waiting;
      var err, j := ck.Put(net, at);
      FollowPut(start, net, at, j);
      i := j;
      if i == |net| {
        return;
      }
      assert FirstPut(net, at, j);
      FollowNext(start, net, i);
      i := i + 1;
      e := Again(i);
      if err == OK {
        version := seen + 1;
        done := true;
        e := Taken(i, version);
      } else if err == ErrMaybe {
        done, i, e := Settle(net, i, start, seen);
      }
    }

    /** Reading the key back tells whether an unclear Put took the lock. */
    method Settle(net: seq<Outcome>, at: nat, ghost start: Client, seen: nat) returns (done: bool, i: nat,
        ghost e: Ending)
      requires at <= |net|
      requires
        var c := Follow(start, net[..at]);
        c.pc == Checking(seen) && Same(start, c)
      requires value == start.value && version == start.version
      modifies this
      ensures
        at <= i <= |net| &&
        var c := Follow(start, net[..i]);
        && c.value == value
        && (done <==> c.pc.Held?)
        && (!done ==> Same(start, c) && (e == Waiting || c.pc.Polling?))
      ensures Settles(net, at, value, e)
      ensures e == if done then Taken(i, version) else if e.Waiting? then Waiting else Again(i)
      ensures e.Waiting? ==> i == |net|
      ensures version == (if done then Follow(start, net[..i]).version else old(version))
    {
      hide Follow;
      done, e := false, Waiting;
      var a, m := ck.Get(net, at);
      FollowGet(start, net, at, m);
      i := m;
      if i == |net| {
        return;
      }
      assert FirstGet(net, at, m);
      FollowNext(start, net, i);
      i := i + 1;
      e := Again(i);
      if a.value == value {
        version := a.version;
        done := true;
        e := Taken(i, version);
      }
    }

    /** The protocol's client that has just called Release. */
    ghost function Freeing(): Client
      reads this
    {
      Client(key, value, version, Releasing(true), 0, false, version)
    }

    /** Release returns with its first Put answer, as the protocol's client does,
        and reports what that client's clerk reports. */
    method Release(net: seq<Outcome>) returns (err: Err, i: nat)
      ensures if i < |net| then FirstPut(net, 0, i) else NoPut(net, 0)
      ensures i < |net| ==> err == if i > 0 && net[i].err == ErrVersion then ErrMaybe else net[i].err
      ensures i <= |net| && Follow(Freeing(), net[..i]).pc.Releasing?
      ensures i < |net| ==>
        && net[i].GotPut?
        && Follow(Freeing(), net[..i + 1]).pc.Idle?
        && err == ClerkErr(Follow(Freeing(), net[..i]).pc.first, net[i].err)
    {
      err, i := ck.Put(net, 0);
      FollowRelease(Freeing(), net, i);
      if i < |net| {
        FollowNext(Freeing(), net, i);
      }
    }
  }

  lemma {:induction false} FollowRelease(cl: Client, net: seq<Outcome>, j: nat)
    requires cl.pc == Releasing(true)
    requires j <= |net| && (forall k :: 0 <= k < j ==> !net[k].GotPut?)
    ensures Follow(cl, net[..j]).pc == Releasing(j == 0)
  {
    if j > 0 {
      FollowRelease(cl, net, j - 1);
      FollowNext(cl, net, j - 1);
    }
  }
}
