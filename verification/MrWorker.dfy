/** The loops of a worker's two tasks and of the sequential program. Files are
    values: a map from names to the pairs stored in them. */
module MrWorker {
  import opened MrSpec

  /** Intermediate files by map task and bucket. */
  type Mid = map<(nat, nat), seq<KeyValue>>

  /** A library sort by key: some sorted rearrangement. */
  method SortByKey(kvs: seq<KeyValue>) returns (s: seq<KeyValue>)
    ensures SortedByKey(s) && multiset(s) == multiset(kvs)
  {
    hide SortedByKey;
    s := [];
    assert SortedByKey(s) by { EmptySorted(); }
    for i := 0 to |kvs|
      invariant SortedByKey(s) && multiset(s) == multiset(kvs[..i])
    {
      s := InsertByKey(s, kvs[i]);
      assert kvs[..i + 1] == kvs[..i] + [kvs[i]];
    }
    assert kvs[..|kvs|] == kvs;
  }

  method InsertByKey(s: seq<KeyValue>, x: KeyValue) returns (r: seq<KeyValue>)
    requires SortedByKey(s)
    ensures SortedByKey(r) && multiset(r) == multiset(s) + multiset{x}
  {
    hide Less;
    var j := |s|;
    while j > 0 && Less(x.key, s[j - 1].key)
      invariant 0 <= j <= |s|
      invariant forall k :: j <= k < |s| ==> Less(x.key, s[k].key)
    {
      j := j - 1;
    }
    InsertAt(s, j, x);
    r := s[..j] + [x] + s[j..];
    assert s == s[..j] + s[j..];
  }

  lemma EmptySorted()
    ensures SortedByKey([])
  {
  }

  lemma InsertAt(s: seq<KeyValue>, j: nat, x: KeyValue)
    requires SortedByKey(s) && j <= |s|
    requires forall k :: j <= k < |s| ==> Less(x.key, s[k].key)
    requires j > 0 ==> !Less(x.key, s[j - 1].key)
    ensures SortedByKey(s[..j] + [x] + s[j..])
  {
    forall k | 0 <= k < j ensures !Less(x.key, s[k].key) {
      if k < j - 1 {
        LessTransitive(s[k].key, s[j - 1].key, x.key);
      }
    }
    forall k | j <= k < |s| ensures !Less(s[k].key, x.key) {
      LessAsymmetric(x.key, s[k].key);
    }
  }

  /** The loop that reduces each run of equal keys. */
  method ReduceRuns(reducef: ReduceFn, kvs: seq<KeyValue>) returns (lines: seq<Line>)
    ensures lines == Grouped(reducef, kvs)
  {
    hide RunLength, AllValues, Grouped;
    lines := [];
    var i := 0;
    assert kvs[0..] == kvs;
    while i < |kvs|
      invariant 0 <= i <= |kvs|
      invariant lines + Grouped(reducef, kvs[i..]) == Grouped(reducef, kvs)
    {
      var j, values := NextRun(kvs, i);
      GroupedStep(reducef, kvs, i, j);
      lines := lines + [Line(kvs[i].key, reducef(kvs[i].key, values))];
      i := j;
    }
    assert Grouped(reducef, kvs[|kvs|..]) == [] by { GroupedNone(reducef, kvs); }
  }

  lemma GroupedNone(reducef: ReduceFn, kvs: seq<KeyValue>)
    ensures Grouped(reducef, kvs[|kvs|..]) == []
  {
  }

  lemma GroupedStep(reducef: ReduceFn, kvs: seq<KeyValue>, i: nat, j: nat)
    requires i < |kvs| && j == i + RunLength(kvs[i..])
    ensures
      Grouped(reducef, kvs[i..]) ==
      [Line(kvs[i].key, reducef(kvs[i].key, AllValues(kvs[i..j])))] + Grouped(reducef, kvs[j..])
  {
    assert kvs[i..][..j - i] == kvs[i..j] && kvs[i..][j - i..] == kvs[j..];
  }

  /** Where the run of equal keys that starts at `i` ends, and its values. */
  method NextRun(kvs: seq<KeyValue>, i: nat) returns (j: nat, values: seq<string>)
    requires i < |kvs|
    ensures i < j <= |kvs| && j == i + RunLength(kvs[i..]) && values == AllValues(kvs[i..j])
  {
    j := i + 1;
    while j < |kvs| && kvs[j].key == kvs[i].key
      invariant i < j <= |kvs|
      invariant forall k :: i <= k < j ==> kvs[k].key == kvs[i].key
    {
      j := j + 1;
    }
    values := [];
    for k := i to j
      invariant values == AllValues(kvs[i..k])
    {
      values := values + [kvs[k].value];
    }
    RunEnds(kvs[i..], j - i);
  }

  lemma RunEnds(kvs: seq<KeyValue>, j: nat)
    requires 1 <= j <= |kvs|
    requires forall k :: 0 <= k < j ==> kvs[k].key == kvs[0].key
    requires j < |kvs| ==> kvs[j].key != kvs[0].key
    ensures RunLength(kvs) == j
  {
  }

  lemma BucketsEmpty(job: Job, kvs: seq<KeyValue>)
    requires job.nReduce > 0
    ensures forall r: nat :: Bucket(job, kvs[..0], r) == []
  {
  }

  lemma BucketNext(job: Job, kvs: seq<KeyValue>, i: nat, r: nat)
    requires job.nReduce > 0 && i < |kvs|
    ensures
      Bucket(job, kvs[..i + 1], r) ==
      Bucket(job, kvs[..i], r) + (if r == job.hash(kvs[i].key) % job.nReduce then [kvs[i]] else [])
  {
    assert kvs[..i + 1] == kvs[..i] + [kvs[i]];
    BucketConcat(job, kvs[..i], [kvs[i]], r);
  }

  /** A map task's buckets: every pair goes to the bucket of its key, in order. */
  method MapTask(job: Job, id: nat) returns (buckets: seq<seq<KeyValue>>)
    requires job.nReduce > 0 && id < |job.inputs|
    ensures |buckets| == job.nReduce
    ensures forall r :: 0 <= r < job.nReduce ==> buckets[r] == Bucket(job, Emitted(job, id), r)
  {
    hide Bucket, BucketOf;
    var kvPairs := job.mapf(job.inputs[id].name, job.inputs[id].content);
    buckets := [];
    BucketsEmpty(job, kvPairs);
    for cur := 0 to job.nReduce
      invariant |buckets| == cur && forall r :: 0 <= r < cur ==> buckets[r] == []
    {
      buckets := buckets + [[]];
    }
    for i := 0 to |kvPairs|
      invariant |buckets| == job.nReduce
      invariant forall r :: 0 <= r < job.nReduce ==> buckets[r] == Bucket(job, kvPairs[..i], r)
    {
      var route := job.hash(kvPairs[i].key) % job.nReduce;
      forall r | 0 <= r < job.nReduce
        ensures Bucket(job, kvPairs[..i + 1], r) == buckets[r] + (if r == route then [kvPairs[i]] else [])
      {
        BucketNext(job, kvPairs, i, r);
      }
      buckets := buckets[route := buckets[route] + [kvPairs[i]]];
    }
    assert kvPairs[..|kvPairs|] == kvPairs;
  }

  /** What files (0, r), ..., (n-1, r) hold together. */
  function ReadAll(mid: Mid, r: nat, n: nat): seq<KeyValue>
    requires forall i: nat :: i < n ==> (i, r) in mid
  {
    if n == 0 then [] else ReadAll(mid, r, n - 1) + mid[(n - 1, r)]
  }

  /** A reduce task fails exactly when a file is missing; otherwise it writes one
      line per distinct key of what it read. */
  method ReduceTask(reducef: ReduceFn, mid: Mid, r: nat, nMap: nat) returns (ok: bool, lines: seq<Line>)
    ensures ok <==> forall i: nat :: i < nMap ==> (i, r) in mid
    ensures ok ==> IsOutput(reducef, ReadAll(mid, r, nMap), lines)
    ensures ok && OrderInsensitive(reducef) ==> multiset(lines) == multiset(Lines(reducef, ReadAll(mid, r, nMap)))
  {
    var kvList := [];
    for i := 0 to nMap
      invariant forall k: nat :: k < i ==> (k, r) in mid
      invariant kvList == ReadAll(mid, r, i)
    {
      if (i, r) !in mid {
        return false, [];
      }
      kvList := kvList + mid[(i, r)];
    }
    ok := true;
    var sorted := SortByKey(kvList);
    lines := ReduceRuns(reducef, sorted);
    if OrderInsensitive(reducef) {
      OutputIsLines(reducef, kvList, lines);
    }
  }

  /** The sequential program: one line per distinct key of everything emitted. */
  method Sequential(job: Job) returns (lines: seq<Line>)
    ensures IsOutput(job.reducef, AllEmitted(job, |job.inputs|), lines)
    ensures OrderInsensitive(job.reducef) ==>
      multiset(lines) == multiset(Lines(job.reducef, AllEmitted(job, |job.inputs|)))
  {
    var intermediate := [];
    for i := 0 to |job.inputs|
      invariant intermediate == AllEmitted(job, i)
    {
      intermediate := intermediate + job.mapf(job.inputs[i].name, job.inputs[i].content);
    }
    var sorted := SortByKey(intermediate);
    lines := ReduceRuns(job.reducef, sorted);
    if OrderInsensitive(job.reducef) {
      OutputIsLines(job.reducef, intermediate, lines);
    }
  }
}
