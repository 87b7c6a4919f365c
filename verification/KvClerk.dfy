/** The clerk of the replicated store: its retry loops, and what its report of a
    Put means for the log of the run. */
module KvClerk {
  import opened KvMachine
  import opened Cluster
  import opened Runs
  import opened RaftSafety
  import opened SubmitAnswers
  import opened KvModel

  /** What one call brings: nothing, "try another server", or the machine's
      reply. */
  datatype Heard = Nothing | WrongLeader | Answered(reply: Reply)

  /** A Put is over with an OK or a version error. */
  predicate PutEnds(x: Heard) {
    x.Answered? && x.reply.PutReply? && (x.reply.err == OK || x.reply.err == ErrVersion)
  }

  predicate GetEnds(x: Heard) {
    x.Answered? && x.reply.GetReply? && (x.reply.err == OK || x.reply.err == ErrNoKey)
  }

  /** What is reported when attempt `k` ends a Put. */
  function Report(k: nat, err: Err): Err {
    if err == ErrVersion && k > 0 then ErrMaybe else err
  }

  /** Counting on by one, modulo `n`. */
  lemma Cycle(a: nat, n: nat)
    requires n > 0
    ensures (a % n + 1) % n == (a + 1) % n
  {
    var q, m := a / n, a % n;
    if m + 1 == n {
      Remainder(a + 1, n, q + 1, 0) by { NextMultiple(n, q); }
      Remainder(n, n, 1, 0);
    } else {
      Remainder(a + 1, n, q, m + 1);
      Remainder(m + 1, n, 0, m + 1);
    }
  }

  lemma NextMultiple(n: nat, q: nat)
    ensures n * (q + 1) == n * q + n
  {
  }

  lemma SmallMultiple(n: int, d: int)
    requires n > 0 && -n < n * d < n
    ensures d == 0
  {
  }

  lemma Difference(n: int, a: int, b: int)
    ensures n * (a - b) == n * a - n * b
  {
  }

  lemma Remainder(x: nat, n: nat, q: nat, m: nat)
    requires m < n && x == n * q + m
    ensures x % n == m
  {
    var k, r := x / n, x % n;
    assert x == n * k + r;
    Difference(n, q, k);
    SmallMultiple(n, q - k);
  }

  class Clerk {
    const id: int
    const servers: nat
    var leader: nat

    constructor (id: int, servers: nat)
      ensures this.id == id && this.servers == servers && leader == 0
    {
      this.id, this.servers, leader := id, servers, 0;
    }

    /** The first conclusive answer ends the Put; a version error is reported as
        such on the first call only. Every other outcome moves on one server. */
    method Put(net: seq<Heard>) returns (err: Err, i: nat)
      requires leader < servers
      modifies this
      ensures i <= |net| && forall k :: 0 <= k < i ==> !PutEnds(net[k])
      ensures i < |net| ==>
        PutEnds(net[i]) &&
        err == (if net[i].reply.err == OK then OK else if i == 0 then ErrVersion else ErrMaybe) == Report(i,
          net[i].reply.err)
      ensures leader == (old(leader) + i) % servers
    {
      var isRetry := false;
      i, err := 0, OK;
      Remainder(leader, servers, 0, leader);
      while i < |net|
        invariant 0 <= i <= |net| && forall k :: 0 <= k < i ==> !PutEnds(net[k])
        invariant isRetry == (i > 0) && leader == (old(leader) + i) % servers
      {
        if net[i].Answered? && net[i].reply.PutReply? {
          if !isRetry && net[i].reply.err == ErrVersion {
            return ErrVersion, i;
          } else if isRetry && net[i].reply.err == ErrVersion {
            return ErrMaybe, i;
          }
          if net[i].reply.err == OK {
            return OK, i;
          }
        }
        Cycle(old(leader) + i, servers);
        isRetry := true;
        leader := (leader + 1) % servers;
        i := i + 1;
      }
    }

    /** The first answer with a value, or that there is none, ends the Get. */
    method Get(net: seq<Heard>) returns (value: string, version: nat, err: Err, i: nat)
      requires leader < servers
      modifies this
      ensures i <= |net| && forall k :: 0 <= k < i ==> !GetEnds(net[k])
      ensures i < |net| ==> GetEnds(net[i]) && err == net[i].reply.err
      ensures i < |net| && err == OK ==> value == net[i].reply.value && version == net[i].reply.version
      ensures i < |net| && err == ErrNoKey ==> value == "" && version == 0
      ensures leader == (old(leader) + i) % servers
    {
      i, value, version, err := 0, "", 0, OK;
      Remainder(leader, servers, 0, leader);
      while i < |net|
        invariant 0 <= i <= |net| && forall k :: 0 <= k < i ==> !GetEnds(net[k])
        invariant leader == (old(leader) + i) % servers
      {
        if net[i].Answered? && net[i].reply.GetReply? {
          if net[i].reply.err == ErrNoKey {
            return "", 0, ErrNoKey, i;
          }
          if net[i].reply.err == OK {
            return net[i].reply.value, net[i].reply.version, OK, i;
          }
        }
        Cycle(old(leader) + i, servers);
        leader := (leader + 1) % servers;
        i := i + 1;
      }
    }
  }

  // ------------------------------------------------------- meaning in a run

  /** What a call of submission `id` can bring: a reply only if the submission
      was sent one. */
  predicate Brings(w: World, id: int, x: Heard) {
    x.Answered? ==> id in w.sent && |w.sent[id]| == 1 && w.sent[id][0] == Result(x.reply)
  }

  /** A clerk's Put of `req`: its calls in order, the last one conclusive. A
      call that was answered is a submission of `req`; any other call may have
      reached no server at all. */
  predicate IsPut(w: World, req: Request, ids: seq<int>, net: seq<Heard>) {
    && req.Put?
    && |ids| == |net| > 0
    && (forall k :: 0 <= k < |ids| && net[k].Answered? ==>
          ids[k] in w.ops && w.ops[ids[k]].req == req && Brings(w, ids[k], net[k]))
    && (forall k :: 0 <= k < |net| ==> (PutEnds(net[k]) <==> k == |net| - 1))
  }

  /** The Put named by an operation took effect. */
  predicate TookEffect(items: seq<Item>, op: Op)
    requires op.req.Put?
  {
    exists j :: 0 <= j < |items| && items[j] == Cmd(op) && AppliedAt(items, j, op.req.key, op.req.version)
  }

  lemma AppliedPrefix(items: seq<Item>, x: int, j: int, key: string, version: nat)
    requires 0 <= j < x <= |items|
    ensures AppliedAt(items[..x], j, key, version) <==> AppliedAt(items, j, key, version)
  {
    assert items[..x][..j] == items[..j];
  }

  /** OK: some Put of this clerk wrote the version, and nothing else did. */
  lemma OkInLog(items: seq<Item>, x: int, op: Op) returns (j: int)
    requires 1 <= x <= |items| && items[x - 1] == Cmd(op) && op.req.Put?
    requires Answer(Fold(items[..x - 1]), op.req) == PutReply(OK)
    ensures 0 <= j < |items| && AppliedAt(items, j, op.req.key, op.req.version) && items[j].op.req.clerk == op.req.clerk
    ensures forall k :: 0 <= k < |items| && AppliedAt(items, k, op.req.key, op.req.version) ==> k == j
  {
    hide AppliedAt;
    j := OkMeansAppliedOnce(items[..x - 1], op);
    assert items[..x - 1] + [Cmd(op)] == items[..x];
    AppliedPrefix(items, x, j, op.req.key, op.req.version);
    forall k | 0 <= k < |items| && AppliedAt(items, k, op.req.key, op.req.version)
      ensures k == j
    {
      AppliedOnce(items, k, j, op.req.key, op.req.version);
    }
  }

  /** ErrVersion: an operation logged only here did not take effect. */
  lemma ErrVersionInLog(items: seq<Item>, x: int, op: Op)
    requires 1 <= x <= |items| && items[x - 1] == Cmd(op) && op.req.Put?
    requires Answer(Fold(items[..x - 1]), op.req) == PutReply(ErrVersion)
    requires forall y :: 0 <= y < |items| && items[y] == Cmd(op) ==> y == x - 1
    ensures !TookEffect(items, op)
  {
    hide AppliedAt;
    ErrVersionMeansNotApplied(items[..x - 1], op);
    assert items[..x - 1] + [Cmd(op)] == items[..x];
    AppliedPrefix(items, x, x - 1, op.req.key, op.req.version);
  }

  /** What a clerk may conclude, for every run: after OK exactly one Put wrote
      the version and it was this clerk's; ErrVersion comes on the first call
      only, and then the Put was definitely not performed; everything else is
      ErrMaybe, which only a repeated call can report. */
  lemma {:induction false} ReportIsHonest(r: Run, req: Request, ids: seq<int>,
      net: seq<Heard>) returns (items: seq<Item>)
    requires IsRun(r) && |r.ws| == |r.acts| + 1 && IsPut(r.ws[|r.acts|], req, ids, net)
    ensures Explains(r, items) && SubmittedOnce(r.ws[|r.acts|], items)
    ensures
      var e := Report(|net| - 1, net[|net| - 1].reply.err);
      && e == (if net[|net| - 1].reply.err == OK then OK else if |net| == 1 then ErrVersion else ErrMaybe)
      && (e == OK ==> exists j ::
            && 0 <= j < |items| && AppliedAt(items, j, req.key, req.version) && items[j].op.req.clerk == req.clerk
            && forall k :: 0 <= k < |items| && AppliedAt(items, k, req.key, req.version) ==> k == j)
      && (e == ErrVersion ==> |ids| == 1 && !TookEffect(items, r.ws[|r.acts|].ops[ids[0]]))
      && (e == ErrMaybe ==> |ids| > 1)
  {
    hide IsRun, Explains, AppliedAt;
    items := AnswersFromOneLog(r);
    var w, id := r.ws[|r.acts|], ids[|ids| - 1];
    var x, op := w.slots[id], w.ops[id];
    assert AnsweredFrom(w, id, items);
    if net[|net| - 1].reply.err == OK {
      var j := OkInLog(items, x, op);
    } else if |ids| == 1 {
      forall y | 0 <= y < |items| && items[y] == Cmd(op) ensures y == x - 1 {
        assert Placed(w.slots, items[y], y + 1) && Placed(w.slots, items[x - 1], x);
      }
      ErrVersionInLog(items, x, op);
    }
  }
}
