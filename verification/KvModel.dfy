/** The one-key specification of the store, and the proof that the replicated
    machine, with its deduplication table, follows it on every key. */
module KvModel {
  import opened KvMachine

  /** The specification starts every key at the empty value, version 0. */
  const START := Versioned("", 0)

  /** Does the specification admit this answer in this state? A get is judged
      by its value alone. */
  predicate Accepts(st: Versioned, req: Request, out: Reply) {
    match req
    case Get(_) => out.GetReply? && out.value == st.value
    case Put(_, _, version, _) =>
      out.PutReply? &&
      (if st.version == version then out.err == OK || out.err == ErrMaybe
       else out.err == ErrVersion || out.err == ErrMaybe)
    case Unknown => false
  }

  function After(st: Versioned, req: Request): Versioned {
    if req.Put? && st.version == req.version then Versioned(req.value, st.version + 1) else st
  }

  predicate OnKey(item: Item, key: string) {
    item.Cmd? && !item.op.req.Unknown? && item.op.req.key == key
  }

  /** The requests of a log that concern one key, in log order. */
  function ForKey(items: seq<Item>, key: string): seq<Request> {
    if items == [] then []
    else
      var rest, last := ForKey(items[..|items| - 1], key), items[|items| - 1];
      if OnKey(last, key) then rest + [last.op.req] else rest
  }

  /** The specification run over a sequence of requests. */
  function ModelRun(reqs: seq<Request>): Versioned {
    if reqs == [] then START else After(ModelRun(reqs[..|reqs| - 1]), reqs[|reqs| - 1])
  }

  // ------------------------------------------------------------ deduplication

  /** Every remembered version is older than the stored one. */
  predicate DedupInv(kv: Kv) {
    forall fk :: fk in kv.dedup ==> kv.dedup[fk].err == OK && kv.dedup[fk].version < Lookup(kv, fk.key).version
  }

  lemma DedupKept(kv: Kv, item: Item)
    requires DedupInv(kv)
    ensures DedupInv(Step(kv, item))
  {
  }

  lemma {:induction false} DedupAlways(items: seq<Item>)
    ensures DedupInv(Fold(items))
  {
    if items != [] {
      DedupAlways(items[..|items| - 1]);
      DedupKept(Fold(items[..|items| - 1]), items[|items| - 1]);
    }
  }

  lemma StepOnKey(kv: Kv, item: Item, key: string)
    requires DedupInv(kv)
    ensures Lookup(Step(kv, item), key) == if OnKey(item, key) then After(Lookup(kv, key),
      item.op.req) else Lookup(kv, key)
  {
  }

  lemma ModelRunSnoc(reqs: seq<Request>, req: Request)
    ensures ModelRun(reqs + [req]) == After(ModelRun(reqs), req)
  {
    assert (reqs + [req])[..|reqs|] == reqs;
  }

  /** Deduplication is invisible to the state: for every log and key, value and
      version are exactly the specification's. */
  lemma {:induction false} StateRefinesModel(items: seq<Item>, key: string)
    ensures Lookup(Fold(items), key) == ModelRun(ForKey(items, key))
  {
    if items != [] {
      var front, last := items[..|items| - 1], items[|items| - 1];
      StateRefinesModel(front, key);
      DedupAlways(front);
      StepOnKey(Fold(front), last, key);
      if OnKey(last, key) {
        ModelRunSnoc(ForKey(front, key), last.op.req);
      }
    }
  }

  // ----------------------------------------------------- what an OK promises

  /** The Put at position `j` of the log took effect. */
  predicate AppliedAt(items: seq<Item>, j: int, key: string, version: nat)
    requires 0 <= j < |items|
  {
    var item := items[j];
    item.Cmd? && item.op.req.Put? && item.op.req.key == key && item.op.req.version == version &&
    Lookup(Fold(items[..j]), key).version == version && !Repeated(Fold(items[..j]), item.op.req)
  }

  lemma FoldNext(items: seq<Item>, j: int)
    requires 0 <= j < |items|
    ensures Fold(items[..j + 1]) == Step(Fold(items[..j]), items[j])
  {
    assert items[..j + 1][..j] == items[..j];
  }

  /** A key's version never goes down along a log. */
  lemma {:induction false} VersionsGrow(items: seq<Item>, j: int, k: int, key: string)
    requires 0 <= j <= k <= |items|
    ensures Lookup(Fold(items[..j]), key).version <= Lookup(Fold(items[..k]), key).version
    decreases k
  {
    if j < k {
      VersionsGrow(items, j, k - 1, key);
      FoldNext(items, k - 1);
    }
  }

  lemma AppliedMoves(items: seq<Item>, j: int, key: string, version: nat)
    requires 0 <= j < |items| && AppliedAt(items, j, key, version)
    ensures Lookup(Fold(items[..j + 1]), key).version == version + 1
  {
    FoldNext(items, j);
  }

  /** Each version of a key is written at most once, by anyone. */
  lemma {:induction false} AppliedOnce(items: seq<Item>, j: int, k: int, key: string, version: nat)
    requires 0 <= j < |items| && 0 <= k < |items| && AppliedAt(items, j, key, version) &&
      AppliedAt(items, k, key, version)
    ensures j == k
  {
    if j < k {
      AppliedMoves(items, j, key, version);
      VersionsGrow(items, j + 1, k, key);
    } else if k < j {
      AppliedMoves(items, k, key, version);
      VersionsGrow(items, k + 1, j, key);
    }
  }

  /** A remembered Put was applied: some position wrote it, for that clerk. */
  lemma {:induction false} RememberedWasApplied(items: seq<Item>, fk: FilterKey) returns (j: int)
    requires fk in Fold(items).dedup
    ensures 0 <= j < |items| && AppliedAt(items, j, fk.key, Fold(items).dedup[fk].version) &&
      items[j].op.req.clerk == fk.clerk
  {
    var front, last := items[..|items| - 1], items[|items| - 1];
    assert items[..|items| - 1] == front;
    var kv := Fold(front);
    if last.Cmd? && last.op.req.Put? && FilterKey(last.op.req.key, last.op.req.clerk) == fk &&
        Next(kv, last.op.req) != kv {
      j := |items| - 1;
    } else {
      j := RememberedWasApplied(front, fk);
      assert front[..j] == items[..j];
    }
  }

  /** A Put answered OK has been applied exactly once, for its own clerk, key
      and version: at its own place in the log or, if repeated, at the one
      earlier place. */
  lemma {:induction false} OkMeansAppliedOnce(items: seq<Item>, op: Op) returns (j: int)
    requires op.req.Put? && Answer(Fold(items), op.req) == PutReply(OK)
    ensures var all := items + [Cmd(op)];
            0 <= j < |all| && AppliedAt(all, j, op.req.key, op.req.version) && all[j].op.req.clerk == op.req.clerk &&
            (forall k :: 0 <= k < |all| && AppliedAt(all, k, op.req.key, op.req.version) ==> k == j) &&
            (Repeated(Fold(items), op.req) <==> j < |items|)
  {
    var all := items + [Cmd(op)];
    var req := op.req;
    assert all[..|items|] == items;
    if Repeated(Fold(items), req) {
      j := RememberedWasApplied(items, FilterKey(req.key, req.clerk));
      assert all[..j] == items[..j];
    } else {
      j := |items|;
    }
    forall k | 0 <= k < |all| && AppliedAt(all, k, req.key, req.version)
      ensures k == j
    {
      AppliedOnce(all, k, j, req.key, req.version);
    }
  }

  /** A Put answered ErrVersion was not applied at its place, and the key is at
      another version. */
  lemma {:induction false} ErrVersionMeansNotApplied(items: seq<Item>, op: Op)
    requires op.req.Put? && Answer(Fold(items), op.req) == PutReply(ErrVersion)
    ensures Fold(items + [Cmd(op)]) == Fold(items) && Lookup(Fold(items), op.req.key).version != op.req.version
    ensures !AppliedAt(items + [Cmd(op)], |items|, op.req.key, op.req.version)
  {
    var all := items + [Cmd(op)];
    assert all[..|items|] == items;
    FoldNext(all, |items|);
    assert all[..|all|] == all;
    DedupAlways(items);
  }

  // ------------------------------------------------- what the table remembers

  /** The specification's state of a key after the first `j` items. */
  function StateOf(items: seq<Item>, j: int, key: string): Versioned
    requires 0 <= j <= |items|
  {
    ModelRun(ForKey(items[..j], key))
  }

  /** A Put of this clerk on this key at position `j`, at the version the
      specification has there. */
  predicate TookAt(items: seq<Item>, j: int, key: string, clerk: int)
    requires 0 <= j < |items|
  {
    var item := items[j];
    item.Cmd? && item.op.req.Put? && item.op.req.key == key && item.op.req.clerk == clerk &&
    item.op.req.version == StateOf(items, j, key).version
  }

  /** The clerk's last such Put on the key. */
  predicate LastTook(items: seq<Item>, j: int, key: string, clerk: int) {
    0 <= j < |items| && TookAt(items, j, key, clerk) && forall k :: j < k < |items| ==> !TookAt(items, k, key, clerk)
  }

  lemma TookPrefix(items: seq<Item>, n: int, j: int, key: string, clerk: int)
    requires 0 <= j < n <= |items|
    ensures TookAt(items[..n], j, key, clerk) <==> TookAt(items, j, key, clerk)
  {
    assert items[..n][..j] == items[..j];
  }

  /** Effect by the machine's own test and by the specification agree. */
  lemma TookIsApplied(items: seq<Item>, j: int, key: string, clerk: int)
    requires 0 <= j < |items|
    ensures
      TookAt(items, j, key, clerk) <==>
      items[j].Cmd? && items[j].op.req.Put? && items[j].op.req.clerk == clerk && items[j].op.req.key == key &&
      AppliedAt(items, j, key, items[j].op.req.version)
  {
    StateRefinesModel(items[..j], key);
    DedupAlways(items[..j]);
  }

  /** The table holds exactly, for each key and clerk, the version of the clerk's
      last Put on the key that took effect. */
  lemma {:induction false} DedupIsLast(items: seq<Item>, key: string, clerk: int)
    ensures FilterKey(key, clerk) in Fold(items).dedup <==> exists j :: LastTook(items, j, key, clerk)
    ensures forall j :: LastTook(items, j, key, clerk) ==>
      FilterKey(key, clerk) in Fold(items).dedup &&
      Fold(items).dedup[FilterKey(key, clerk)] == Remembered(items[j].op.req.version, OK)
  {
    if items != [] {
      var n := |items| - 1;
      var front := items[..n];
      DedupIsLast(front, key, clerk);
      StateRefinesModel(front, key);
      DedupAlways(front);
      LastTookSnoc(items, key, clerk);
      TableStep(Fold(front), items[n], key, clerk);
      if TookAt(items, n, key, clerk) {
        assert LastTook(items, n, key, clerk);
      } else if j :| LastTook(front, j, key, clerk) {
        assert LastTook(items, j, key, clerk);
      }
    }
  }

  lemma LastTookSnoc(items: seq<Item>, key: string, clerk: int)
    requires items != []
    ensures
      var n := |items| - 1;
      forall j :: LastTook(items, j, key, clerk) <==>
        if TookAt(items, n, key, clerk) then j == n else j < n && LastTook(items[..n], j, key, clerk)
  {
    var n := |items| - 1;
    forall j | 0 <= j < n ensures TookAt(items[..n], j, key, clerk) <==> TookAt(items, j, key, clerk) {
      TookPrefix(items, n, j, key, clerk);
    }
    forall j
      ensures LastTook(items, j, key, clerk) <==>
        if TookAt(items, n, key, clerk) then j == n else j < n && LastTook(items[..n], j, key, clerk)
    {
    }
  }

  lemma TableStep(kv: Kv, item: Item, key: string, clerk: int)
    requires DedupInv(kv)
    ensures
      var fk, took := FilterKey(key, clerk), item.Cmd? && item.op.req.Put? && item.op.req.key == key &&
                        item.op.req.clerk == clerk && item.op.req.version == Lookup(kv, key).version;
      var after := Step(kv, item).dedup;
      if took then fk in after && after[fk] == Remembered(item.op.req.version, OK)
      else (fk in after <==> fk in kv.dedup) && (fk in kv.dedup ==> after[fk] == kv.dedup[fk])
  {
  }

  /** The Put repeats the clerk's last effective Put on the key. */
  ghost predicate RepeatsLast(items: seq<Item>, req: Request)
    requires req.Put?
  {
    exists j :: LastTook(items, j, req.key, req.clerk) && items[j].op.req.version == req.version
  }

  /** What the table says of a Put is what the log says. */
  lemma RepeatedIffRepeatsLast(items: seq<Item>, req: Request)
    requires req.Put?
    ensures Repeated(Fold(items), req) <==> RepeatsLast(items, req)
  {
    DedupIsLast(items, req.key, req.clerk);
  }

  /** An answer after a log differs from the specification's exactly for a Put
      that repeats the clerk's last effective one on the key: it is answered OK
      where the specification says ErrVersion. */
  lemma {:induction false} AnswerRefinesModel(items: seq<Item>, req: Request)
    requires !req.Unknown?
    ensures var kv := Fold(items);
            var st := ModelRun(ForKey(items, req.key));
            (Accepts(st, req, Answer(kv, req)) <==> !(req.Put? && RepeatsLast(items, req))) &&
            (req.Put? && RepeatsLast(items, req) ==>
              Answer(kv, req) == PutReply(OK) && Accepts(st, req, PutReply(ErrVersion)) && After(st, req) == st)
  {
    StateRefinesModel(items, req.key);
    DedupAlways(items);
    if req.Put? {
      RepeatedIffRepeatsLast(items, req);
    }
  }

  /** A Put after a log is answered OK if and only if the specification is at its
      version or it repeats the clerk's last effective Put on the key, and
      ErrVersion otherwise. */
  lemma PutAnswerIs(items: seq<Item>, req: Request)
    requires req.Put?
    ensures
      var ok := StateOf(items, |items|, req.key).version == req.version || RepeatsLast(items, req);
      Answer(Fold(items), req) == PutReply(if ok then OK else ErrVersion)
  {
    assert items[..|items|] == items;
    StateRefinesModel(items, req.key);
    RepeatedIffRepeatsLast(items, req);
    DedupAlways(items);
  }

  /** A stored key has a positive version. */
  lemma {:induction false} StoredPositive(items: seq<Item>, key: string)
    ensures key in Fold(items).store <==> Lookup(Fold(items), key).version > 0
  {
    if items != [] {
      StoredPositive(items[..|items| - 1], key);
    }
  }

  /** A Get after a log is answered with the specification's value and version,
      or ErrNoKey if and only if no Put on the key ever took effect. */
  lemma GetAnswerIs(items: seq<Item>, key: string)
    ensures
      var st := StateOf(items, |items|, key);
      Answer(Fold(items), Get(key)) ==
      if st.version == 0 then GetReply("", 0, ErrNoKey) else GetReply(st.value, st.version, OK)
  {
    assert items[..|items|] == items;
    StateRefinesModel(items, key);
    StoredPositive(items, key);
  }
}
