/** A map-reduce job run by a coordinator and any number of workers that may be
    slow, repeat each other's tasks or crash at any point. Renaming a finished
    file is atomic; each other step touches one file or one status table. */
module MrRuns {
  import opened MrSpec
  import opened MrWorker
  import C = MrCoordinator

  /** A worker: which bucket it renames next, or which file it reads next with
      the pairs read so far. */
  datatype Worker = Idle | Mapping(id: nat, next: nat) | Reducing(id: nat, next: nat, kvs: seq<KeyValue>) | Gone

  datatype World = World(c: C.Coord, mid: Mid, out: map<nat, seq<Line>>, workers: seq<Worker>, reports: set<C.Task>)

  datatype Action =
    | Assign(w: int, now: int, c': C.Coord, t: C.Task)
    | Rename(w: int)
    | Read(w: int)
    | MapEnds(w: int)
    | Write(w: int, lines: seq<Line>)
    | Report(t: C.Task)
    | Tick(now: int)
    | Crash(w: int)

  function Init(job: Job, n: nat): World {
    World(C.Initial(|job.inputs|, job.nReduce), map[], map[], seq(n, _ => Idle), {})
  }

  ghost predicate Enabled(job: Job, s: World, a: Action)
    requires job.nReduce > 0
  {
    match a
    case Assign(w, now, c', t) => 0 <= w < |s.workers| && s.workers[w].Idle? && C.Assigns(s.c, now, c', t)
    case Rename(w) =>
      && 0 <= w < |s.workers| && s.workers[w].Mapping?
      && s.workers[w].next < job.nReduce && s.workers[w].id < |job.inputs|
    case Read(w) => 0 <= w < |s.workers| && s.workers[w].Reducing? && s.workers[w].next < |job.inputs|
    case MapEnds(w) => 0 <= w < |s.workers| && s.workers[w].Mapping? && s.workers[w].next == job.nReduce
    case Write(w, lines) =>
      && 0 <= w < |s.workers| && s.workers[w].Reducing? && s.workers[w].next == |job.inputs|
      && IsOutput(job.reducef, s.workers[w].kvs, lines)
    case Report(t) => t in s.reports
    case Tick(_) => true
    case Crash(w) => 0 <= w < |s.workers|
  }

  function Started(t: C.Task): Worker {
    match t
    case MapTask(i) => Mapping(i, 0)
    case ReduceTask(r) => Reducing(r, 0, [])
    case Wait => Idle
    case Exit => Gone
  }

  ghost function Exec(job: Job, s: World, a: Action): World
    requires job.nReduce > 0 && Enabled(job, s, a)
  {
    match a
    case Assign(w, _, c', t) => s.(c := c', workers := s.workers[w := Started(t)])
    case Rename(w) =>
      var Mapping(id, k) := s.workers[w];
      s.(mid := s.mid[(id, k) := Bucket(job, Emitted(job, id), k)], workers := s.workers[w := Mapping(id, k + 1)])
    case Read(w) =>
      var Reducing(r, k, kvs) := s.workers[w];
      if (k, r) in s.mid then s.(workers := s.workers[w := Reducing(r, k + 1, kvs + s.mid[(k, r)])])
      else s.(workers := s.workers[w := Gone])
    case MapEnds(w) =>
      s.(workers := s.workers[w := Idle], reports := s.reports + {C.MapTask(s.workers[w].id)})
    case Write(w, lines) =>
      var r := s.workers[w].id;
      s.(out := s.out[r := lines], workers := s.workers[w := Idle], reports := s.reports + {C.ReduceTask(r)})
    case Report(t) => s.(c := C.Finish(s.c, t))
    case Tick(now) => s.(c := C.Expire(s.c, now))
    case Crash(w) => s.(workers := s.workers[w := Gone])
  }

  // -------------------------------------------------------------- invariant

  /** All buckets of a map task are in place. */
  predicate Mapped(job: Job, s: World, i: nat) {
    forall r: nat :: r < job.nReduce ==> (i, r) in s.mid
  }

  predicate MidInv(job: Job, s: World)
    requires job.nReduce > 0
  {
    forall f :: f in s.mid ==>
        f.0 < |job.inputs| && f.1 < job.nReduce && s.mid[f] == Bucket(job, Emitted(job, f.0), f.1)
  }

  /** An output is one for everything its bucket was emitted. */
  ghost predicate OutInv(job: Job, s: World)
    requires job.nReduce > 0
  {
    forall r :: r in s.out ==>
      r < job.nReduce && C.AllFinished(s.c.maps) && IsOutput(job.reducef, Gathered(job, r, |job.inputs|), s.out[r])
  }

  predicate CoordInv(job: Job, s: World) {
    && |s.c.maps| == |job.inputs| && |s.c.reduces| == job.nReduce
    && (forall i :: 0 <= i < |s.c.maps| && s.c.maps[i] == C.Finished ==> Mapped(job, s, i))
    && (forall r :: 0 <= r < |s.c.reduces| && s.c.reduces[r] != C.Pending ==> C.AllFinished(s.c.maps))
    && (forall r :: 0 <= r < |s.c.reduces| && s.c.reduces[r] == C.Finished ==> r in s.out)
  }

  predicate ReportInv(job: Job, s: World, t: C.Task) {
    match t
    case MapTask(i) => i < |job.inputs| && Mapped(job, s, i)
    case ReduceTask(r) => r < job.nReduce && r in s.out && C.AllFinished(s.c.maps)
    case _ => false
  }

  predicate WorkerInv(job: Job, s: World, w: Worker)
    requires job.nReduce > 0
  {
    match w
    case Mapping(i, k) => i < |job.inputs| && k <= job.nReduce && forall r: nat :: r < k ==> (i, r) in s.mid
    case Reducing(r, k, kvs) =>
      && r < job.nReduce && k <= |job.inputs| && C.AllFinished(s.c.maps)
      && kvs == Gathered(job, r, k)
    case _ => true
  }

  ghost predicate Inv(job: Job, s: World)
    requires job.nReduce > 0
  {
    && MidInv(job, s)
    && OutInv(job, s)
    && CoordInv(job, s)
    && (forall t :: t in s.reports ==> ReportInv(job, s, t))
    && (forall w :: 0 <= w < |s.workers| ==> WorkerInv(job, s, s.workers[w]))
  }

  /** Files appear and finished maps stay finished. */
  predicate Advances(s: World, s': World) {
    && s.mid.Keys <= s'.mid.Keys
    && s.out.Keys <= s'.out.Keys
    && (C.AllFinished(s.c.maps) ==> C.AllFinished(s'.c.maps))
  }

  lemma StepAdvances(job: Job, s: World, a: Action)
    requires job.nReduce > 0 && Inv(job, s) && Enabled(job, s, a)
    ensures Advances(s, Exec(job, s, a))
  {
    if a.Report? {
      assert ReportInv(job, s, a.t);
    }
  }

  lemma AdvanceKeepsRest(job: Job, s: World, s': World)
    requires job.nReduce > 0 && Advances(s, s')
    ensures forall i: nat :: Mapped(job, s, i) ==> Mapped(job, s', i)
    ensures forall t :: ReportInv(job, s, t) ==> ReportInv(job, s', t)
    ensures forall w :: WorkerInv(job, s, w) ==> WorkerInv(job, s', w)
  {
  }

  lemma StepFiles(job: Job, s: World, a: Action)
    requires job.nReduce > 0 && Inv(job, s) && Enabled(job, s, a)
    ensures MidInv(job, Exec(job, s, a)) && OutInv(job, Exec(job, s, a))
  {
    StepAdvances(job, s, a);
    if a.Write? {
      assert WorkerInv(job, s, s.workers[a.w]);
    }
  }

  lemma StepCoord(job: Job, s: World, a: Action)
    requires job.nReduce > 0 && Inv(job, s) && Enabled(job, s, a)
    ensures CoordInv(job, Exec(job, s, a))
  {
    StepAdvances(job, s, a);
    AdvanceKeepsRest(job, s, Exec(job, s, a));
    if a.Report? {
      assert ReportInv(job, s, a.t);
    }
  }

  lemma StepWorker(job: Job, s: World, a: Action, w: int)
    requires job.nReduce > 0 && Inv(job, s) && Enabled(job, s, a)
    requires 0 <= w < |s.workers|
    ensures WorkerInv(job, Exec(job, s, a), Exec(job, s, a).workers[w])
  {
    StepAdvances(job, s, a);
    AdvanceKeepsRest(job, s, Exec(job, s, a));
    assert WorkerInv(job, s, s.workers[w]);
  }

  lemma StepReport(job: Job, s: World, a: Action, t: C.Task)
    requires job.nReduce > 0 && Inv(job, s) && Enabled(job, s, a)
    requires t in Exec(job, s, a).reports
    ensures ReportInv(job, Exec(job, s, a), t)
  {
    StepAdvances(job, s, a);
    AdvanceKeepsRest(job, s, Exec(job, s, a));
    if t !in s.reports {
      assert WorkerInv(job, s, s.workers[a.w]);
    }
  }

  lemma StepKeeps(job: Job, s: World, a: Action)
    requires job.nReduce > 0 && Inv(job, s) && Enabled(job, s, a)
    ensures Inv(job, Exec(job, s, a))
  {
    hide MidInv, OutInv, CoordInv, ReportInv, WorkerInv;
    var s' := Exec(job, s, a);
    StepFiles(job, s, a);
    StepCoord(job, s, a);
    forall t | t in s'.reports ensures ReportInv(job, s', t) {
      StepReport(job, s, a, t);
    }
    forall w | 0 <= w < |s'.workers| ensures WorkerInv(job, s', s'.workers[w]) {
      StepWorker(job, s, a, w);
    }
  }

  // ------------------------------------------------------------------- runs

  datatype Run = Run(states: seq<World>, actions: seq<Action>)

  /** A run of a job by some number of workers. */
  ghost predicate IsRun(job: Job, r: Run)
    requires job.nReduce > 0
  {
    && |r.states| == |r.actions| + 1
    && (exists n: nat :: r.states[0] == Init(job, n))
    && forall k :: 0 <= k < |r.actions| ==>
         Enabled(job, r.states[k], r.actions[k]) && r.states[k + 1] == Exec(job, r.states[k], r.actions[k])
  }

  lemma {:induction false} RunInv(job: Job, r: Run, n: nat)
    requires job.nReduce > 0 && IsRun(job, r) && n < |r.states|
    ensures Inv(job, r.states[n])
  {
    hide Enabled, Exec;
    if n > 0 {
      RunInv(job, r, n - 1);
      StepKeeps(job, r.states[n - 1], r.actions[n - 1]);
    }
  }

  /** Once the job is done it stays done, whatever late workers still do. */
  lemma {:induction false} DoneStays(job: Job, r: Run, m: nat, n: nat)
    requires job.nReduce > 0 && IsRun(job, r) && m <= n < |r.states|
    requires C.JobDone(r.states[m].c)
    ensures C.JobDone(r.states[n].c)
    decreases n - m
  {
    hide Enabled, Exec, Init, C.JobDone;
    if m < n {
      DoneStays(job, r, m, n - 1);
      DoneStep(job, r.states[n - 1], r.actions[n - 1]);
    }
  }

  lemma DoneStep(job: Job, s: World, a: Action)
    requires job.nReduce > 0 && Enabled(job, s, a) && C.JobDone(s.c)
    ensures C.JobDone(Exec(job, s, a).c)
  {
  }

  /** Reduce work of any kind exists only when every map task is finished, and a
      reduce task finds every file it reads, complete. */
  lemma ReducesFollowMaps(job: Job, r: Run, n: nat)
    requires job.nReduce > 0 && IsRun(job, r) && n < |r.states|
    ensures
      var s := r.states[n];
      (exists k :: 0 <= k < |s.c.reduces| && s.c.reduces[k] != C.Pending)
      || (exists w :: 0 <= w < |s.workers| && s.workers[w].Reducing?) || s.out != map[]
      ==> C.AllFinished(s.c.maps)
    ensures
      var s := r.states[n];
      forall w, i: nat :: 0 <= w < |s.workers| && s.workers[w].Reducing? && i < |job.inputs| ==>
        (i, s.workers[w].id) in s.mid && s.mid[(i, s.workers[w].id)] == Bucket(job, Emitted(job, i), s.workers[w].id)
  {
    RunInv(job, r, n);
    var s := r.states[n];
    forall w | 0 <= w < |s.workers| && s.workers[w].Reducing?
      ensures
        && C.AllFinished(s.c.maps)
        && forall i: nat :: i < |job.inputs| ==>
             (i, s.workers[w].id) in s.mid &&
               s.mid[(i, s.workers[w].id)] == Bucket(job, Emitted(job, i), s.workers[w].id)
    {
      assert WorkerInv(job, s, s.workers[w]);
      forall i: nat | i < |job.inputs| ensures (i, s.workers[w].id) in s.mid {
        assert Mapped(job, s, i);
      }
    }
    if s.out != map[] {
      assert (forall k :: k !in s.out) ==> s.out == map[];
    }
  }

  /** The lines of the output files below `n`. */
  function Combined(out: map<nat, seq<Line>>, n: nat): multiset<Line> {
    if n == 0 then multiset{}
    else Combined(out, n - 1) + (if n - 1 in out then multiset(out[n - 1]) else multiset{})
  }

  lemma {:induction false} CombinedIs(job: Job, s: World, n: nat)
    requires job.nReduce > 0 && n <= job.nReduce && OrderInsensitive(job.reducef)
    requires OutInv(job, s) && forall r: nat :: r < n ==> r in s.out
    ensures Combined(s.out, n) == BucketLines(job, AllEmitted(job, |job.inputs|), n)
  {
    hide Gathered, Bucket, IsOutput, Lines, AllEmitted, OrderInsensitive;
    if n > 0 {
      CombinedIs(job, s, n - 1);
      assert n - 1 in s.out;
      GatheredIsBucket(job, n - 1, |job.inputs|);
      OutputIsLines(job.reducef, Gathered(job, n - 1, |job.inputs|), s.out[n - 1]);
    }
  }

  /** Whenever the job is done, its output files together hold exactly the lines
      of the sequential program, for every schedule. */
  lemma JobEqualsSequential(job: Job, r: Run, n: nat, sequential: seq<Line>)
    requires job.nReduce > 0 && IsRun(job, r) && n < |r.states|
    requires OrderInsensitive(job.reducef)
    requires C.JobDone(r.states[n].c)
    requires IsOutput(job.reducef, AllEmitted(job, |job.inputs|), sequential)
    ensures forall k: nat :: k in r.states[n].out <==> k < job.nReduce
    ensures Combined(r.states[n].out, job.nReduce) == multiset(sequential)
  {
    RunInv(job, r, n);
    var s := r.states[n];
    forall k: nat | k < job.nReduce ensures k in s.out {
      assert s.c.reduces[k] == C.Finished;
    }
    CombinedIs(job, s, job.nReduce);
    BucketsAreWhole(job, AllEmitted(job, |job.inputs|));
    OutputIsLines(job.reducef, AllEmitted(job, |job.inputs|), sequential);
  }

  // --------------------------------------------------------- what gets done

  /** The coordinator was told before state `n` that the task is finished. */
  predicate Reported(r: Run, n: int, t: C.Task) {
    exists k :: 0 <= k < n && k < |r.actions| && r.actions[k] == Report(t)
  }

  lemma ReportedNext(r: Run, n: nat, t: C.Task)
    requires n < |r.actions|
    ensures Reported(r, n + 1, t) <==> Reported(r, n, t) || r.actions[n] == Report(t)
  {
    if Reported(r, n + 1, t) {
      var k :| 0 <= k < n + 1 && k < |r.actions| && r.actions[k] == Report(t);
      if k < n {
        assert Reported(r, n, t);
      }
    }
  }

  /** A step finishes exactly the task it reports, and unfinishes none. */
  lemma FinishedStep(job: Job, s: World, a: Action)
    requires job.nReduce > 0 && Inv(job, s) && Enabled(job, s, a)
    ensures
      var s' := Exec(job, s, a);
      |s'.c.maps| == |s.c.maps| && |s'.c.reduces| == |s.c.reduces| &&
      (forall i :: 0 <= i < |s.c.maps| ==>
        (s'.c.maps[i] == C.Finished <==> s.c.maps[i] == C.Finished || a == Report(C.MapTask(i)))) &&
      (forall i :: 0 <= i < |s.c.reduces| ==>
        (s'.c.reduces[i] == C.Finished <==> s.c.reduces[i] == C.Finished || a == Report(C.ReduceTask(i))))
  {
    hide MidInv, OutInv, WorkerInv, Bucket, Emitted, IsOutput;
    if a.Report? {
      assert ReportInv(job, s, a.t);
    }
  }

  /** A task is finished if and only if it was reported. */
  lemma {:induction false} FinishedIff(job: Job, r: Run, n: nat)
    requires job.nReduce > 0 && IsRun(job, r) && n < |r.states|
    ensures |r.states[n].c.maps| == |job.inputs| && |r.states[n].c.reduces| == job.nReduce
    ensures forall i :: 0 <= i < |job.inputs| ==>
      (r.states[n].c.maps[i] == C.Finished <==> Reported(r, n, C.MapTask(i)))
    ensures forall i :: 0 <= i < job.nReduce ==>
      (r.states[n].c.reduces[i] == C.Finished <==> Reported(r, n, C.ReduceTask(i)))
  {
    hide Enabled, Exec, Inv;
    if n > 0 {
      FinishedIff(job, r, n - 1);
      RunInv(job, r, n - 1);
      FinishedStep(job, r.states[n - 1], r.actions[n - 1]);
      forall t ensures Reported(r, n, t) <==> Reported(r, n - 1, t) || r.actions[n - 1] == Report(t) {
        ReportedNext(r, n - 1, t);
      }
    }
  }

  /** The job is done if and only if every map and every reduce task has been
      reported. */
  lemma DoneIffReported(job: Job, r: Run, n: nat)
    requires job.nReduce > 0 && IsRun(job, r) && n < |r.states|
    ensures C.JobDone(r.states[n].c) <==>
      (forall i :: 0 <= i < |job.inputs| ==> Reported(r, n, C.MapTask(i))) &&
      (forall i :: 0 <= i < job.nReduce ==> Reported(r, n, C.ReduceTask(i)))
  {
    hide Reported, IsRun;
    FinishedIff(job, r, n);
  }

  /** The step in which a worker completes a task. */
  predicate Completes(s: World, a: Action, t: C.Task) {
    match t
    case MapTask(i) => a.MapEnds? && 0 <= a.w < |s.workers| && s.workers[a.w].Mapping? && s.workers[a.w].id == i
    case ReduceTask(i) => a.Write? && 0 <= a.w < |s.workers| && s.workers[a.w].Reducing? && s.workers[a.w].id == i
    case _ => false
  }

  ghost predicate Completed(r: Run, n: int, t: C.Task)
    requires |r.states| == |r.actions| + 1
  {
    exists k :: 0 <= k < n && k < |r.actions| && Completes(r.states[k], r.actions[k], t)
  }

  lemma ReportsStep(job: Job, s: World, a: Action, t: C.Task)
    requires job.nReduce > 0 && Enabled(job, s, a)
    ensures t in Exec(job, s, a).reports <==> t in s.reports || Completes(s, a, t)
  {
  }

  /** A report can be made if and only if some worker completed the task: all
      buckets renamed, or all files read and the output renamed. */
  lemma {:induction false} ReportIffCompleted(job: Job, r: Run, n: nat, t: C.Task)
    requires job.nReduce > 0 && IsRun(job, r) && n < |r.states|
    ensures Enabled(job, r.states[n], Report(t)) <==> Completed(r, n, t)
  {
    hide Exec, Inv, Completes;
    if n > 0 {
      ReportIffCompleted(job, r, n - 1, t);
      ReportsStep(job, r.states[n - 1], r.actions[n - 1], t);
      if Completed(r, n, t) {
        var k :| 0 <= k < n && k < |r.actions| && Completes(r.states[k], r.actions[k], t);
        if k < n - 1 {
          assert Completed(r, n - 1, t);
        }
      }
    }
  }

  /** What a worker's step does: it starts what it is handed, renames one bucket
      or reads one file at a time, and completes with its output in place. No
      other worker's state changes. */
  lemma WorkerSteps(job: Job, s: World, a: Action)
    requires job.nReduce > 0 && Enabled(job, s, a) && !a.Report? && !a.Tick?
    ensures
      var s', w := Exec(job, s, a), s.workers[a.w];
      |s'.workers| == |s.workers| && (forall v :: 0 <= v < |s.workers| && v != a.w ==> s'.workers[v] == s.workers[v]) &&
      var v := s'.workers[a.w];
      match a
      case Assign(_, _, c', t) =>
        s'.c == c' && s'.mid == s.mid && s'.out == s.out &&
        (t.MapTask? ==> v == Mapping(t.id, 0)) && (t.ReduceTask? ==> v == Reducing(t.id, 0, [])) &&
        (t == C.Wait ==> v == Idle) && (t == C.Exit ==> v == Gone)
      case Rename(_) =>
        v == Mapping(w.id, w.next + 1) && s'.mid.Keys == s.mid.Keys + {(w.id, w.next)} && s'.out == s.out
      case Read(_) =>
        s'.mid == s.mid && s'.out == s.out &&
        ((w.next, w.id) in s.mid ==> v == Reducing(w.id, w.next + 1, w.kvs + s.mid[(w.next, w.id)]))
      case MapEnds(_) => v == Idle && s'.mid == s.mid && s'.out == s.out
      case Write(_, lines) => v == Idle && s'.mid == s.mid && s'.out == s.out[w.id := lines]
      case Crash(_) => v == Gone && s'.mid == s.mid && s'.out == s.out
  {
  }
}
