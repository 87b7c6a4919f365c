/** What a map-reduce job computes: key/value pairs grouped by key, one line per
    distinct key. */
module MrSpec {

  datatype KeyValue = KeyValue(key: string, value: string)
  datatype Line = Line(key: string, output: string)

  type MapFn = (string, string) -> seq<KeyValue>
  type ReduceFn = (string, seq<string>) -> string

  /** An input file. */
  datatype Input = Input(name: string, content: string)

  /** A job: the application's functions, the hash of the buckets, the inputs and
      the number of reduce tasks. */
  datatype Job = Job(mapf: MapFn, reducef: ReduceFn, hash: string -> nat, inputs: seq<Input>, nReduce: nat)

  /** A key's values, in order. */
  function Values(kvs: seq<KeyValue>, key: string): seq<string> {
    if kvs == [] then []
    else (if kvs[0].key == key then [kvs[0].value] else []) + Values(kvs[1..], key)
  }

  /** One line for each distinct key, with all of its values. */
  function Lines(reducef: ReduceFn, kvs: seq<KeyValue>): set<Line> {
    set kv | kv in kvs :: Line(kv.key, reducef(kv.key, Values(kvs, kv.key)))
  }

  /** The reduce function does not look at the order of the values. */
  ghost predicate OrderInsensitive(reducef: ReduceFn) {
    forall key, a, b :: multiset(a) == multiset(b) ==> reducef(key, a) == reducef(key, b)
  }

  /** What the map task of each input emits. */
  function Emitted(job: Job, i: nat): seq<KeyValue>
    requires i < |job.inputs|
  {
    job.mapf(job.inputs[i].name, job.inputs[i].content)
  }

  /** What the first `n` map tasks emit. */
  function AllEmitted(job: Job, n: nat): seq<KeyValue>
    requires n <= |job.inputs|
  {
    if n == 0 then [] else AllEmitted(job, n - 1) + Emitted(job, n - 1)
  }

  function BucketOf(job: Job, key: string): nat
    requires job.nReduce > 0
  {
    job.hash(key) % job.nReduce
  }

  /** The pairs of one bucket, in order. */
  function Bucket(job: Job, kvs: seq<KeyValue>, r: nat): seq<KeyValue>
    requires job.nReduce > 0
  {
    if kvs == [] then []
    else (if BucketOf(job, kvs[0].key) == r then [kvs[0]] else []) + Bucket(job, kvs[1..], r)
  }

  /** What reduce task `r` reads from the first `n` map tasks. */
  function Gathered(job: Job, r: nat, n: nat): seq<KeyValue>
    requires job.nReduce > 0 && n <= |job.inputs|
  {
    if n == 0 then [] else Gathered(job, r, n - 1) + Bucket(job, Emitted(job, n - 1), r)
  }

  // ------------------------------------------------------------------ order

  /** Byte-wise order of strings. */
  predicate Less(a: string, b: string) {
    if b == "" then false
    else if a == "" then true
    else a[0] < b[0] || (a[0] == b[0] && Less(a[1..], b[1..]))
  }

  lemma {:induction false} LessTotal(a: string, b: string)
    requires !Less(a, b) && !Less(b, a)
    ensures a == b
  {
    if a != "" && b != "" {
      LessTotal(a[1..], b[1..]);
      assert a == [a[0]] + a[1..] && b == [b[0]] + b[1..];
    }
  }

  lemma {:induction false} LessTransitive(a: string, b: string, c: string)
    requires !Less(b, a) && !Less(c, b)
    ensures !Less(c, a)
  {
    if a != "" && b != "" && c != "" && a[0] == b[0] == c[0] {
      LessTransitive(a[1..], b[1..], c[1..]);
    }
  }

  lemma {:induction false} LessAsymmetric(a: string, b: string)
    requires Less(a, b)
    ensures !Less(b, a)
  {
    if a != "" && a[0] == b[0] {
      LessAsymmetric(a[1..], b[1..]);
    }
  }

  predicate SortedByKey(kvs: seq<KeyValue>) {
    forall i, j :: 0 <= i < j < |kvs| ==> !Less(kvs[j].key, kvs[i].key)
  }

  // ---------------------------------------------------------------- counting

  lemma {:induction false} ValuesConcat(a: seq<KeyValue>, b: seq<KeyValue>, key: string)
    ensures Values(a + b, key) == Values(a, key) + Values(b, key)
  {
    if a == [] {
      assert a + b == b;
    } else {
      assert (a + b)[1..] == a[1..] + b;
      ValuesConcat(a[1..], b, key);
    }
  }

  /** Taking one pair out takes its value out of its key's values. */
  lemma TakeOut(b: seq<KeyValue>, i: nat, key: string)
    requires i < |b|
    ensures
      var rest := b[..i] + b[i + 1..];
      && multiset(rest) == multiset(b) - multiset{b[i]}
      && multiset(Values(b, key)) == multiset(Values(rest,
        key)) + (if b[i].key == key then multiset{b[i].value} else multiset{})
  {
    assert b == b[..i] + ([b[i]] + b[i + 1..]);
    ValuesConcat(b[..i], [b[i]] + b[i + 1..], key);
    ValuesConcat([b[i]], b[i + 1..], key);
    ValuesConcat(b[..i], b[i + 1..], key);
  }

  /** Rearranging the pairs rearranges a key's values. */
  lemma {:induction false} ValuesPermute(a: seq<KeyValue>, b: seq<KeyValue>, key: string)
    requires multiset(a) == multiset(b)
    ensures multiset(Values(a, key)) == multiset(Values(b, key))
  {
    hide Values;
    assert |b| == |multiset(b)| == |multiset(a)| == |a|;
    if a == [] {
      assert b == [];
    } else {
      assert a[0] in multiset(b);
      var i :| 0 <= i < |b| && b[i] == a[0];
      TakeOut(a, 0, key);
      TakeOut(b, i, key);
      ValuesPermute(a[..0] + a[1..], b[..i] + b[i + 1..], key);
    }
  }

  /** The lines do not depend on the order of the pairs. */
  lemma LinesPermute(reducef: ReduceFn, a: seq<KeyValue>, b: seq<KeyValue>)
    requires OrderInsensitive(reducef) && multiset(a) == multiset(b)
    ensures Lines(reducef, a) == Lines(reducef, b)
  {
    forall kv: KeyValue ensures kv in a <==> kv in b {
      assert kv in a <==> kv in multiset(a);
      assert kv in b <==> kv in multiset(b);
    }
    forall key ensures reducef(key, Values(a, key)) == reducef(key, Values(b, key)) {
      ValuesPermute(a, b, key);
    }
  }

  // --------------------------------------------------------------- grouping

  /** How many pairs at the start share the first key. */
  function RunLength(kvs: seq<KeyValue>): (j: nat)
    requires kvs != []
    ensures 1 <= j <= |kvs|
    ensures forall k :: 0 <= k < j ==> kvs[k].key == kvs[0].key
    ensures j < |kvs| ==> kvs[j].key != kvs[0].key
  {
    if |kvs| == 1 || kvs[1].key != kvs[0].key then 1 else 1 + RunLength(kvs[1..])
  }

  function AllValues(kvs: seq<KeyValue>): seq<string> {
    seq(|kvs|, i requires 0 <= i < |kvs| => kvs[i].value)
  }

  /** One line per run of equal keys, in order. */
  function Grouped(reducef: ReduceFn, kvs: seq<KeyValue>): seq<Line> {
    if kvs == [] then []
    else
      var j := RunLength(kvs);
      [Line(kvs[0].key, reducef(kvs[0].key, AllValues(kvs[..j])))] + Grouped(reducef, kvs[j..])
  }

  lemma {:induction false} ValuesOfRun(kvs: seq<KeyValue>, key: string)
    requires forall i :: 0 <= i < |kvs| ==> kvs[i].key == key
    ensures Values(kvs, key) == AllValues(kvs)
  {
    if kvs != [] {
      ValuesOfRun(kvs[1..], key);
    }
  }

  lemma {:induction false} ValuesAbsent(kvs: seq<KeyValue>, key: string)
    requires forall i :: 0 <= i < |kvs| ==> kvs[i].key != key
    ensures Values(kvs, key) == []
  {
    if kvs != [] {
      ValuesAbsent(kvs[1..], key);
    }
  }

  /** In sorted pairs a run holds all of its key's pairs. */
  lemma RunIsWhole(kvs: seq<KeyValue>, i: nat)
    requires kvs != [] && SortedByKey(kvs) && RunLength(kvs) <= i < |kvs|
    ensures kvs[i].key != kvs[0].key
  {
    var j := RunLength(kvs);
    if i != j && kvs[i].key == kvs[0].key {
      LessTotal(kvs[0].key, kvs[j].key);
    }
  }

  /** Reducing run by run gives each distinct key one line with all its values. */
  lemma {:induction false} GroupedIsLines(reducef: ReduceFn, kvs: seq<KeyValue>)
    requires SortedByKey(kvs)
    ensures multiset(Grouped(reducef, kvs)) == multiset(Lines(reducef, kvs))
  {
    if kvs != [] {
      var j := RunLength(kvs);
      var key, rest := kvs[0].key, kvs[j..];
      GroupedIsLines(reducef, rest);
      GroupedSplit(reducef, kvs);
      var first := Line(key, reducef(key, AllValues(kvs[..j])));
      assert Grouped(reducef, kvs) == [first] + Grouped(reducef, rest);
    }
  }

  /** A run and the rest split every key's values. */
  lemma ValuesSplit(kvs: seq<KeyValue>, k: string)
    requires kvs != [] && SortedByKey(kvs)
    ensures
      var j := RunLength(kvs);
      Values(kvs, k) == if k == kvs[0].key then AllValues(kvs[..j]) else Values(kvs[j..], k)
  {
    var j, key := RunLength(kvs), kvs[0].key;
    var run, rest := kvs[..j], kvs[j..];
    assert kvs == run + rest;
    ValuesConcat(run, rest, k);
    if k == key {
      forall i | 0 <= i < |rest| ensures rest[i].key != key { RunIsWhole(kvs, i + j); }
      ValuesOfRun(run, k);
      ValuesAbsent(rest, k);
    } else {
      ValuesAbsent(run, k);
    }
  }

  lemma GroupedSplit(reducef: ReduceFn, kvs: seq<KeyValue>)
    requires kvs != [] && SortedByKey(kvs)
    ensures
      var j, key := RunLength(kvs), kvs[0].key;
      var first := Line(key, reducef(key, AllValues(kvs[..j])));
      Lines(reducef, kvs) == {first} + Lines(reducef, kvs[j..]) && first !in Lines(reducef, kvs[j..])
  {
    hide Values, RunLength;
    var j, key := RunLength(kvs), kvs[0].key;
    var rest := kvs[j..];
    var first := Line(key, reducef(key, AllValues(kvs[..j])));
    forall kv: KeyValue | kv in rest ensures kv.key != key {
      var i :| 0 <= i < |rest| && rest[i] == kv;
      RunIsWhole(kvs, i + j);
    }
    forall l ensures l in Lines(reducef, kvs) <==> l == first || l in Lines(reducef, rest) {
      LineSplit(reducef, kvs, l);
    }
  }

  lemma LineSplit(reducef: ReduceFn, kvs: seq<KeyValue>, l: Line)
    requires kvs != [] && SortedByKey(kvs)
    ensures
      var j, key := RunLength(kvs), kvs[0].key;
      l in Lines(reducef, kvs) <==>
      l == Line(key, reducef(key, AllValues(kvs[..j]))) || l in Lines(reducef, kvs[j..])
  {
    hide Values, Lines, RunLength, AllValues, SortedByKey;
    var j, key := RunLength(kvs), kvs[0].key;
    var rest := kvs[j..];
    ValuesSplit(kvs, l.key);
    LineOf(reducef, kvs, l);
    LineOf(reducef, rest, l);
    if l.key == key {
      assert HasKey(kvs, key) by { assert kvs[0].key == key; }
      if HasKey(rest, key) {
        var i :| 0 <= i < |rest| && rest[i].key == key;
        RunIsWhole(kvs, i + j);
      }
    } else {
      assert HasKey(kvs, l.key) <==> HasKey(rest, l.key) by { KeySplit(kvs, l.key); }
    }
  }

  predicate HasKey(kvs: seq<KeyValue>, key: string) {
    exists i :: 0 <= i < |kvs| && kvs[i].key == key
  }

  /** A line is there exactly when its key occurs and its output is the key's. */
  lemma LineOf(reducef: ReduceFn, kvs: seq<KeyValue>, l: Line)
    ensures l in Lines(reducef, kvs) <==> HasKey(kvs, l.key) && l.output == reducef(l.key, Values(kvs, l.key))
  {
    hide Values;
    if l in Lines(reducef, kvs) {
      var kv :| kv in kvs && l == Line(kv.key, reducef(kv.key, Values(kvs, kv.key)));
      var i :| 0 <= i < |kvs| && kvs[i] == kv;
      assert kvs[i].key == l.key;
    }
    if HasKey(kvs, l.key) {
      var i :| 0 <= i < |kvs| && kvs[i].key == l.key;
      assert kvs[i] in kvs;
    }
  }

  lemma KeySplit(kvs: seq<KeyValue>, key: string)
    requires kvs != [] && key != kvs[0].key
    ensures HasKey(kvs, key) <==> HasKey(kvs[RunLength(kvs)..], key)
  {
    hide RunLength;
    var j := RunLength(kvs);
    if HasKey(kvs, key) {
      var i :| 0 <= i < |kvs| && kvs[i].key == key;
      assert kvs[j..][i - j].key == key;
    }
    if HasKey(kvs[j..], key) {
      var i :| 0 <= i < |kvs[j..]| && kvs[j..][i].key == key;
      assert kvs[i + j].key == key;
    }
  }

  /** The lines a reducer may write for some pairs: it sorts them in some order
      and reduces run by run. */
  ghost predicate IsOutput(reducef: ReduceFn, kvs: seq<KeyValue>, lines: seq<Line>) {
    exists s :: SortedByKey(s) && multiset(s) == multiset(kvs) && lines == Grouped(reducef, s)
  }

  /** All outputs for the same pairs have the same lines. */
  lemma OutputIsLines(reducef: ReduceFn, kvs: seq<KeyValue>, lines: seq<Line>)
    requires OrderInsensitive(reducef) && IsOutput(reducef, kvs, lines)
    ensures multiset(lines) == multiset(Lines(reducef, kvs))
  {
    var s :| SortedByKey(s) && multiset(s) == multiset(kvs) && lines == Grouped(reducef, s);
    GroupedIsLines(reducef, s);
    LinesPermute(reducef, s, kvs);
  }

  // ---------------------------------------------------------------- buckets

  lemma {:induction false} BucketConcat(job: Job, a: seq<KeyValue>, b: seq<KeyValue>, r: nat)
    requires job.nReduce > 0
    ensures Bucket(job, a + b, r) == Bucket(job, a, r) + Bucket(job, b, r)
  {
    if a == [] {
      assert a + b == b;
    } else {
      assert (a + b)[1..] == a[1..] + b;
      BucketConcat(job, a[1..], b, r);
    }
  }

  /** What a reduce task gathers is its bucket of everything emitted. */
  lemma {:induction false} GatheredIsBucket(job: Job, r: nat, n: nat)
    requires job.nReduce > 0 && n <= |job.inputs|
    ensures Gathered(job, r, n) == Bucket(job, AllEmitted(job, n), r)
  {
    if n > 0 {
      GatheredIsBucket(job, r, n - 1);
      BucketConcat(job, AllEmitted(job, n - 1), Emitted(job, n - 1), r);
    }
  }

  /** A bucket holds exactly the pairs of its keys, and all the values of each. */
  lemma {:induction false} BucketHolds(job: Job, kvs: seq<KeyValue>, r: nat, kv: KeyValue)
    requires job.nReduce > 0
    ensures kv in Bucket(job, kvs, r) <==> kv in kvs && BucketOf(job, kv.key) == r
    ensures BucketOf(job, kv.key) == r ==> Values(Bucket(job, kvs, r), kv.key) == Values(kvs, kv.key)
  {
    if kvs != [] {
      BucketHolds(job, kvs[1..], r, kv);
      var head := if BucketOf(job, kvs[0].key) == r then [kvs[0]] else [];
      ValuesConcat(head, Bucket(job, kvs[1..], r), kv.key);
    }
  }

  /** The lines of the buckets below `n`. */
  function BucketLines(job: Job, kvs: seq<KeyValue>, n: nat): multiset<Line>
    requires job.nReduce > 0
  {
    if n == 0 then multiset{} else BucketLines(job, kvs, n - 1) + multiset(Lines(job.reducef, Bucket(job, kvs, n - 1)))
  }

  /** The lines whose key falls in a bucket below `n`. */
  function LinesBelow(job: Job, kvs: seq<KeyValue>, n: nat): set<Line>
    requires job.nReduce > 0
  {
    set l | l in Lines(job.reducef, kvs) && BucketOf(job, l.key) < n
  }

  lemma LinesOfBucket(job: Job, kvs: seq<KeyValue>, r: nat, l: Line)
    requires job.nReduce > 0
    ensures l in Lines(job.reducef, Bucket(job, kvs, r)) <==> l in Lines(job.reducef, kvs) && BucketOf(job, l.key) == r
  {
    var b := Bucket(job, kvs, r);
    if l in Lines(job.reducef, b) {
      var kv :| kv in b && l == Line(kv.key, job.reducef(kv.key, Values(b, kv.key)));
      BucketHolds(job, kvs, r, kv);
    }
    if l in Lines(job.reducef, kvs) && BucketOf(job, l.key) == r {
      var kv :| kv in kvs && l == Line(kv.key, job.reducef(kv.key, Values(kvs, kv.key)));
      BucketHolds(job, kvs, r, kv);
    }
  }

  lemma {:induction false} BucketLinesAre(job: Job, kvs: seq<KeyValue>, n: nat)
    requires job.nReduce > 0
    ensures BucketLines(job, kvs, n) == multiset(LinesBelow(job, kvs, n))
  {
    if n == 0 {
      assert LinesBelow(job, kvs, 0) == {};
    } else {
      BucketLinesAre(job, kvs, n - 1);
      var a, b := LinesBelow(job, kvs, n - 1), Lines(job.reducef, Bucket(job, kvs, n - 1));
      forall l ensures l in b <==> l in Lines(job.reducef, kvs) && BucketOf(job, l.key) == n - 1 {
        LinesOfBucket(job, kvs, n - 1, l);
      }
      assert LinesBelow(job, kvs, n) == a + b && a !! b;
    }
  }

  /** Reducing bucket by bucket gives the lines of the whole. */
  lemma BucketsAreWhole(job: Job, kvs: seq<KeyValue>)
    requires job.nReduce > 0
    ensures BucketLines(job, kvs, job.nReduce) == multiset(Lines(job.reducef, kvs))
  {
    BucketLinesAre(job, kvs, job.nReduce);
    assert LinesBelow(job, kvs, job.nReduce) == Lines(job.reducef, kvs);
  }
}
