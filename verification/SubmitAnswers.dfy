/** Every answer a submitter gets is the result of its own operation, executed
    at the log index it was given, on the state all earlier committed commands
    lead to. */
module SubmitAnswers {
  import opened KvMachine
  import opened RaftTypes
  import opened RaftHandlers
  import opened Cluster
  import opened History
  import opened Completeness
  import opened Growth
  import opened LeaderSteps
  import opened ClusterSteps
  import opened ServiceSteps
  import opened Runs
  import opened RaftSafety

  /** The log slot holds a submitted operation. */
  predicate Registered(ops: map<int, Op>, item: Item) {
    item.Cmd? && item.op.id in ops && ops[item.op.id] == item.op
  }

  /** The operation in the slot was given this index when it was submitted. */
  predicate Placed(slots: map<int, int>, item: Item, x: int) {
    item.Cmd? && item.op.id in slots && slots[item.op.id] == x
  }

  predicate AllRegistered(ops: map<int, Op>, slots: map<int, int>, f: seq<Entry>) {
    forall k :: 0 <= k < |f| ==> Registered(ops, f[k].item) && Placed(slots, f[k].item, k + 1)
  }

  /** Leaders' logs hold submitted operations only, each at its own index. */
  predicate Logged(h: History, ops: map<int, Op>, slots: map<int, int>) {
    forall t :: t in h.reigns ==> AllRegistered(ops, slots, h.reigns[t].log)
  }

  /** A waiting submitter waits on its own server, at the index it was given,
      and has been sent nothing. */
  predicate WaiterInv(w: World, i: int, x: int, op: Op) {
    Registered(w.ops, Cmd(op)) && op.me == i && op.id in w.slots && w.slots[op.id] == x && Received(w, op.id) == []
  }

  predicate WaitersInv(w: World, i: int)
    requires 0 <= i < |w.servers|
  {
    forall x :: x in w.servers[i].db ==> WaiterInv(w, i, x, w.servers[i].db[x])
  }

  /** `op` was committed at index `x`, and `reply` is its answer there. */
  ghost predicate Executed(h: History, op: Op, x: int, reply: Reply) {
    exists s: seq<Entry>, t :: Committed(h, s, t) && 1 <= x == |s| && s[x - 1].item == Cmd(op) &&
      reply == Answer(StateAt(s, x - 1), op.req)
  }

  ghost predicate AnswerInv(w: World, h: History, id: int)
    requires id in w.sent
  {
    id in w.ops && |w.sent[id]| <= 1 &&
    (|w.sent[id]| == 1 && w.sent[id][0].Result? ==>
      id in w.slots && Executed(h, w.ops[id], w.slots[id], w.sent[id][0].reply))
  }

  /** Operations are kept under their own ids. */
  predicate Named(ops: map<int, Op>) {
    forall id :: id in ops ==> ops[id].id == id
  }

  ghost predicate RsmInv(w: World, h: History) {
    Named(w.ops) && Logged(h, w.ops, w.slots) && (forall i :: 0 <= i < |w.servers| ==> WaitersInv(w, i)) &&
    (forall id :: id in w.sent ==> AnswerInv(w, h, id))
  }

  // ---------------------------------------------------------------- the logs

  lemma ServerLogRegistered(h: History, ops: map<int, Op>, slots: map<int, int>, f: seq<Entry>)
    requires Logged(h, ops, slots) && ValidLog(h, f)
    ensures AllRegistered(ops, slots, f)
  {
    forall k | 0 <= k < |f|
      ensures Registered(ops, f[k].item) && Placed(slots, f[k].item, k + 1)
    {
      assert Backed(h, f, k);
      var l := h.reigns[f[k].term].log;
      assert f[..k + 1][k] == l[k];
      assert AllRegistered(ops, slots, l);
    }
  }

  lemma LogValid(w: World, h: History, i: int)
    requires Inv(w, h) && 0 <= i < |w.servers|
    ensures |h.logs| == |w.servers| && ValidLog(h, h.logs[i])
  {
    hide AckerInv, VoterInv, ReignedInv, CommitInv, LeadingInv, RunningInv, Represents, SavedInv, ServiceInv, MsgInv;
    Facts(w, h, i);
  }

  lemma {:induction false} LoggedSteady(w: World, h: History, h': History)
    requires Inv(w, h) && Logged(h, w.ops, w.slots) && NoNewEntries(h, h')
    ensures Logged(h', w.ops, w.slots)
  {
    hide Inv, ValidLog, AllRegistered;
    forall t | t in h'.reigns
      ensures AllRegistered(w.ops, w.slots, h'.reigns[t].log)
    {
      if !(t in h.reigns && h'.reigns[t].log == h.reigns[t].log) {
        var i :| 0 <= i < |h.logs| && h.logs[i] == h'.reigns[t].log;
        LogsMatchServers(w, h);
        LogValid(w, h, i);
        ServerLogRegistered(h, w.ops, w.slots, h.logs[i]);
      }
    }
  }

  lemma LogsMatchServers(w: World, h: History)
    requires Inv(w, h)
    ensures |h.logs| == |w.servers|
  {
    hide NodeInv, ServiceInv, MsgInv;
  }

  lemma ExecutedGrows(h: History, h': History, op: Op, x: int, reply: Reply)
    requires Grows(h, h') && Executed(h, op, x, reply)
    ensures Executed(h', op, x, reply)
  {
    hide Grows, Committed, StateAt, Answer;
    var s: seq<Entry>, t :| Committed(h, s, t) && 1 <= x == |s| && s[x - 1].item == Cmd(op) &&
      reply == Answer(StateAt(s, x - 1), op.req);
    CommittedGrows(h, h', s, t);
  }

  // ------------------------------------------------- steps that answer nobody

  /** A step that submits, answers and waits for nothing. */
  lemma {:induction false} SilentKeeps(w: World, h: History, w': World, h': History)
    requires RsmInv(w, h) && Logged(h', w'.ops, w'.slots) && Grows(h, h') && |w'.servers| == |w.servers|
    requires w'.ops == w.ops && w'.slots == w.slots && w'.sent == w.sent
    requires forall i, x :: 0 <= i < |w.servers| && x in w'.servers[i].db ==>
      x in w.servers[i].db && w'.servers[i].db[x] == w.servers[i].db[x]
    ensures RsmInv(w', h')
  {
    hide Logged, Grows, Executed, Registered;
    forall i | 0 <= i < |w'.servers|
      ensures WaitersInv(w', i)
    {
      assert WaitersInv(w, i);
      forall x | x in w'.servers[i].db
        ensures WaiterInv(w', i, x, w'.servers[i].db[x])
      {
        assert WaiterInv(w, i, x, w.servers[i].db[x]);
      }
    }
    forall id | id in w'.sent
      ensures AnswerInv(w', h', id)
    {
      assert AnswerInv(w, h, id);
      if |w.sent[id]| == 1 && w.sent[id][0].Result? {
        ExecutedGrows(h, h', w.ops[id], w.slots[id], w.sent[id][0].reply);
      }
    }
  }

  /** Every action but submitting and delivering leaves answers, slots and
      operations alone, and adds no waiter. */
  lemma SilentActions(w: World, a: Action)
    requires Shaped(w) && Enabled(w, a) && !a.Submit? && !a.Deliver?
    ensures var w' := Exec(w, a);
            |w'.servers| == |w.servers| && w'.ops == w.ops && w'.slots == w.slots && w'.sent == w.sent &&
            forall i, x :: 0 <= i < |w.servers| && x in w'.servers[i].db ==>
                x in w.servers[i].db && w'.servers[i].db[x] == w.servers[i].db[x]
  {
    hide StartElection, RequestVote, VoteAnswer, AppendEntries, AppendAnswer, InstallSnapshot, SnapshotAnswer,
      Collect, Snapshot, AppendRequest, SnapshotRequest, NeedsSnapshot;
  }

  lemma {:induction false} SilentStep(w: World, h: History, a: Action, h': History)
    requires Inv(w, h) && RsmInv(w, h) && Shaped(w) && Enabled(w, a) && !a.Submit? && !a.Deliver?
    requires Grows(h, h') && Follows(w, h, a, h')
    ensures RsmInv(Exec(w, a), h')
  {
    hide Inv, Shaped, Enabled, Exec, Grows, Logged, Appended, NextPos;
    assert NoNewEntries(h, h') || h'.reigns == h.reigns;
    assert NoNewEntries(h, h');
    LoggedSteady(w, h, h');
    SilentActions(w, a);
    SilentKeeps(w, h, Exec(w, a), h');
  }

  // -------------------------------------------------------------- submitting

  lemma RegisteredMore(ops: map<int, Op>, op: Op, item: Item)
    requires Registered(ops, item) && op.id !in ops
    ensures Registered(ops[op.id := op], item)
  {
  }

  lemma AllRegisteredMore(ops: map<int, Op>, slots: map<int, int>, op: Op, x: int, f: seq<Entry>)
    requires AllRegistered(ops, slots, f) && op.id !in ops
    ensures AllRegistered(ops[op.id := op], slots, f) && AllRegistered(ops[op.id := op], slots[op.id := x], f)
  {
    forall k | 0 <= k < |f|
      ensures Registered(ops[op.id := op], f[k].item) && Placed(slots[op.id := x], f[k].item, k + 1)
    {
      RegisteredMore(ops, op, f[k].item);
    }
  }

  lemma {:induction false} LoggedSubmit(h: History, ops: map<int, Op>, slots: map<int, int>, i: int, t: int, op: Op)
    requires Logged(h, ops, slots) && op.id !in ops && 0 <= i < |h.logs| && t in h.reigns &&
      h.reigns[t].log == h.logs[i]
    ensures Logged(Appended(h, i, t, Entry(t, Cmd(op))), ops[op.id := op], slots[op.id := |h.logs[i]| + 1])
  {
    hide Registered;
    var ops' := ops[op.id := op];
    forall u | u in h.reigns
      ensures AllRegistered(ops', slots[op.id := |h.logs[i]| + 1], h.reigns[u].log)
    {
      AllRegisteredMore(ops, slots, op, |h.logs[i]| + 1, h.reigns[u].log);
    }
    assert Registered(ops', Cmd(op)) by { OwnRegistered(ops, op); }
  }

  lemma OwnRegistered(ops: map<int, Op>, op: Op)
    ensures Registered(ops[op.id := op], Cmd(op))
  {
  }

  lemma NeverAnswered(w: World, h: History, id: int)
    requires RsmInv(w, h) && id !in w.ops
    ensures id !in w.sent && Received(w, id) == []
  {
  }

  lemma {:induction false} SubmitKeeps(w: World, h: History, w': World, h': History, i: int, op: Op, x: int,
      db: map<int, Op>)
    requires RsmInv(w, h) && Grows(h, h') && Logged(h', w'.ops, w'.slots) && op.id !in w.ops && op.me == i &&
      0 <= i < |w.servers| == |w'.servers|
    requires w'.ops == w.ops[op.id := op] && w'.sent == w.sent &&
      (w'.slots == w.slots || w'.slots == w.slots[op.id := x])
    requires forall j :: 0 <= j < |w.servers| && j != i ==> w'.servers[j].db == w.servers[j].db
    requires w'.servers[i].db == w.servers[i].db ||
      (w'.servers[i].db == w.servers[i].db[x := op] && w'.slots == w.slots[op.id := x])
    ensures RsmInv(w', h')
  {
    hide Logged, Grows, Executed;
    NeverAnswered(w, h, op.id);
    forall j | 0 <= j < |w'.servers|
      ensures WaitersInv(w', j)
    {
      assert WaitersInv(w, j);
      forall y | y in w'.servers[j].db
        ensures WaiterInv(w', j, y, w'.servers[j].db[y])
      {
        var o := w'.servers[j].db[y];
        if o == op && j == i && y == x && w'.servers[i].db != w.servers[i].db {
          OwnRegistered(w.ops, op);
        } else {
          assert WaiterInv(w, j, y, w.servers[j].db[y]);
          RegisteredMore(w.ops, op, Cmd(o));
        }
      }
    }
    forall id | id in w'.sent
      ensures AnswerInv(w', h', id)
    {
      assert AnswerInv(w, h, id);
      if |w.sent[id]| == 1 && w.sent[id][0].Result? {
        ExecutedGrows(h, h', w.ops[id], w.slots[id], w.sent[id][0].reply);
      }
    }
  }

  lemma {:induction false} SubmitAction(w: World, h: History, a: Action, h': History)
    requires Inv(w, h) && RsmInv(w, h) && Shaped(w) && Enabled(w, a) && a.Submit? && Grows(h, h') &&
      Follows(w, h, a, h')
    ensures RsmInv(Exec(w, a), h')
  {
    hide Inv, Shaped, Grows, Logged, Appended, RsmInv;
    var i, op := a.i, a.op;
    var s, w' := w.servers[i], Exec(w, a);
    RsmLogged(w, h);
    if s.rf.role == Leader {
      LastIndexIs(w, h, i);
      LoggedSubmit(h, w.ops, w.slots, i, s.rf.term, op);
      SubmitKeeps(w, h, w', h', i, op, LastIndex(s.rf) + 1, s.db);
    } else {
      LoggedMore(h, w.ops, w.slots, op);
      SubmitKeeps(w, h, w', h', i, op, 0, s.db);
    }
  }

  lemma RsmLogged(w: World, h: History)
    requires RsmInv(w, h)
    ensures Logged(h, w.ops, w.slots)
  {
  }

  lemma LastIndexIs(w: World, h: History, i: int)
    requires Inv(w, h) && 0 <= i < |w.servers|
    ensures |h.logs| == |w.servers| && LastIndex(w.servers[i].rf) == |h.logs[i]|
  {
    hide AckerInv, VoterInv, ReignedInv, CommitInv, LeadingInv, SavedInv, ServiceInv, MsgInv, LogInv;
    Facts(w, h, i);
  }

  lemma LoggedMore(h: History, ops: map<int, Op>, slots: map<int, int>, op: Op)
    requires Logged(h, ops, slots) && op.id !in ops
    ensures Logged(h, ops[op.id := op], slots)
  {
    hide Registered;
    forall u | u in h.reigns
      ensures AllRegistered(ops[op.id := op], slots, h.reigns[u].log)
    {
      AllRegisteredMore(ops, slots, op, 0, h.reigns[u].log);
    }
  }

  // -------------------------------------------------------------- delivering

  /** The prefix a server's machine has executed is committed. */
  lemma AppliedCommitted(h: History, n: int, i: int, s: Node, f: seq<Entry>, k: int)
    requires NodeInv(h, n, i, s, f) && 0 <= k <= s.lastApplied
    ensures k <= |f| && Committed(h, f[..k], s.term) && ValidLog(h, f)
  {
    hide AckerInv, VoterInv, ReignedInv, LeadingInv, RunningInv, Represents, Committed, ValidLog;
    CommittedPrefix(h, f[..k], f[..s.commitIndex], Recovered(s.disk).term, s.term);
  }

  /** When the delivered operation is the waiting one, the answer is its own. */
  lemma {:induction false} OwnAnswer(w: World, h: History, i: int, x: int, item: Item)
    requires Inv(w, h) && RsmInv(w, h) && 0 <= i < |w.servers| && w.servers[i].batch != []
    requires w.servers[i].batch[0] == CommandMsg(x, item) && item.Cmd? && x in w.servers[i].db
    requires item.op.id == w.servers[i].db[x].id
    ensures Executed(h, w.servers[i].db[x], x, Answer(w.servers[i].kv, item.op.req))
  {
    hide HistoryInv, NodeInv, MsgInv, ServiceInv, Answer, Step, Read, Committed, ValidLog, AllRegistered;
    var s := w.servers[i];
    Facts(w, h, i);
    var f, p := h.logs[i], h.pos[i];
    DeliveredService(s, f, p);
    ServiceState(s, f, p);
    AppliedCommitted(h, |w.servers|, i, s.rf, f, x);
    ServerLogRegistered(h, w.ops, w.slots, f);
    RegisteredAt(w.ops, w.slots, f, p);
    assert WaitersInv(w, i);
    assert WaiterInv(w, i, x, s.db[x]);
    assert item.op == s.db[x];
    StatePrefix(f, p);
    assert f[..x][x - 1] == f[p];
  }

  lemma ServiceState(s: Server, f: seq<Entry>, p: int)
    requires ServiceInv(s, f, p)
    ensures 0 <= p <= |f| && s.kv == StateAt(f, p)
  {
  }

  lemma RegisteredAt(ops: map<int, Op>, slots: map<int, int>, f: seq<Entry>, p: int)
    requires AllRegistered(ops, slots, f) && 0 <= p < |f|
    ensures Registered(ops, f[p].item)
  {
  }

  lemma StatePrefix(f: seq<Entry>, p: int)
    requires 0 <= p < |f|
    ensures StateAt(f[..p + 1], p) == StateAt(f, p)
  {
    assert f[..p + 1][..p] == f[..p];
  }

  /** What a delivery does to the waiters and answers. */
  lemma {:induction false} DeliverKeeps(w: World, h: History, i: int, w': World, h': History)
    requires Inv(w, h) && RsmInv(w, h) && 0 <= i < |w.servers| && w.servers[i].batch != []
    requires w' == w.(servers := w.servers[i := Read(w.servers[i])], sent := w'.sent)
    requires var sig := Signals(w.servers[i]);
             w'.sent.Keys == w.sent.Keys + sig.Keys &&
             forall id :: id in w'.sent ==> w'.sent[id] == Received(w, id) + (if id in sig then [sig[id]] else [])
    requires h' == h.(pos := h'.pos) && Grows(h, h')
    ensures RsmInv(w', h')
  {
    hide Inv, Executed, Grows, Answer, Next, Registered, AllRegistered;
    var s, sig := w.servers[i], Signals(w.servers[i]);
    assert WaitersInv(w, i);
    forall j | 0 <= j < |w'.servers|
      ensures WaitersInv(w', j)
    {
      assert WaitersInv(w, j);
      forall y | y in w'.servers[j].db
        ensures WaiterInv(w', j, y, w'.servers[j].db[y])
      {
        assert y in w.servers[j].db && WaiterInv(w, j, y, w.servers[j].db[y]);
        StillWaiting(w, i, j, y);
      }
    }
    forall id | id in w'.sent
      ensures AnswerInv(w', h', id)
    {
      if id in sig {
        FreshAnswer(w, h, i);
      } else {
        assert AnswerInv(w, h, id);
      }
      if |w'.sent[id]| == 1 && w'.sent[id][0].Result? {
        ExecutedGrows(h, h', w.ops[id], w.slots[id], w'.sent[id][0].reply);
      }
    }
  }

  /** A submitter still waiting after a delivery was not the one signalled. */
  lemma StillWaiting(w: World, i: int, j: int, y: int)
    requires 0 <= i < |w.servers| && 0 <= j < |w.servers| && w.servers[i].batch != []
    requires WaitersInv(w, i) && WaitersInv(w, j) && y in w.servers[j].db && (j == i ==> y in Read(w.servers[i]).db)
    ensures w.servers[j].db[y].id !in Signals(w.servers[i])
  {
    hide Answer, Next, Registered;
    var s := w.servers[i];
    assert WaiterInv(w, j, y, w.servers[j].db[y]);
    if s.batch[0].CommandMsg? && s.batch[0].item.Cmd? && s.batch[0].index in s.db {
      assert WaiterInv(w, i, s.batch[0].index, s.db[s.batch[0].index]);
      SameOperation(w, s.db[s.batch[0].index], w.servers[j].db[y]);
    }
  }

  lemma SameOperation(w: World, a: Op, b: Op)
    requires Registered(w.ops, Cmd(a)) && Registered(w.ops, Cmd(b))
    ensures a.id == b.id ==> a == b
  {
  }

  lemma {:induction false} FreshAnswer(w: World, h: History, i: int)
    requires Inv(w, h) && RsmInv(w, h) && 0 <= i < |w.servers| && w.servers[i].batch != []
    ensures forall id :: id in Signals(w.servers[i]) ==>
              id in w.ops && id in w.slots && Received(w, id) == [] &&
              (Signals(w.servers[i])[id].Result? ==>
                Executed(h, w.ops[id], w.slots[id], Signals(w.servers[i])[id].reply))
  {
    hide Inv, Executed, Answer, AllRegistered;
    var s := w.servers[i];
    if s.batch[0].CommandMsg? && s.batch[0].item.Cmd? && s.batch[0].index in s.db {
      var x := s.batch[0].index;
      assert WaitersInv(w, i) && WaiterInv(w, i, x, s.db[x]);
      if s.batch[0].item.op.id == s.db[x].id {
        OwnAnswer(w, h, i, x, s.batch[0].item);
      }
    }
  }

  lemma {:induction false} DeliverAction(w: World, h: History, a: Action, h': History)
    requires Inv(w, h) && RsmInv(w, h) && Shaped(w) && Enabled(w, a) && a.Deliver? && Grows(h, h') &&
      Follows(w, h, a, h')
    ensures RsmInv(Exec(w, a), h')
  {
    hide Inv, Shaped, Grows, RsmInv, Signals, Read;
    var w' := Exec(w, a);
    assert w'.sent.Keys == w.sent.Keys + Signals(w.servers[a.i]).Keys;
    DeliverKeeps(w, h, a.i, w', h');
  }

  // ------------------------------------------------------------- whole runs

  lemma {:induction false} RsmStep(w: World, h: History, a: Action, h': History)
    requires Inv(w, h) && RsmInv(w, h) && Shaped(w) && Enabled(w, a) && Grows(h, h') && Follows(w, h, a, h')
    ensures RsmInv(Exec(w, a), h')
  {
    hide Inv, Shaped, Grows, RsmInv, Enabled, Follows, Exec;
    if a.Submit? {
      SubmitAction(w, h, a, h');
    } else if a.Deliver? {
      DeliverAction(w, h, a, h');
    } else {
      SilentStep(w, h, a, h');
    }
  }

  lemma {:induction false} RsmAlong(r: Run, hs: seq<History>, k: int)
    requires IsRun(r) && Tracks(r, hs) && 0 <= k <= |r.acts|
    requires RsmInv(r.ws[0], hs[0])
    ensures RsmInv(r.ws[k], hs[k])
    decreases k
  {
    hide Inv, RsmInv, Grows, Follows, Enabled, Init, Exec;
    if k > 0 {
      RsmAlong(r, hs, k - 1);
      TracksAt(r, hs, k - 1);
      TracksStep(r, hs, k - 1);
      InvShaped(r.ws[k - 1], hs[k - 1]);
      assert Moves(r.ws[k - 1], r.acts[k - 1], r.ws[k - 1 + 1]);
      RsmStep(r.ws[k - 1], hs[k - 1], r.acts[k - 1], hs[k]);
    }
  }

  /** The term of every leader is saved on its disk. */
  lemma LeaderTermSaved(w: World, h: History, t: int)
    requires Inv(w, h) && t in h.reigns
    ensures 0 <= h.reigns[t].leader < |w.servers| && 1 <= t <= Recovered(w.servers[h.reigns[t].leader].rf.disk).term
  {
    hide MsgInv, ServiceInv, AckerInv, VoterInv, CommitInv, LogInv, SavedInv, Represents, LeadingInv, RunningInv,
      HistoryInv;
    HistoryOf(w, h);
    ReignOf(h, |w.servers|, t);
    Facts(w, h, h.reigns[t].leader);
  }

  lemma HistoryOf(w: World, h: History)
    requires Inv(w, h)
    ensures HistoryInv(h, |w.servers|)
  {
    hide MsgInv, ServiceInv, NodeInv, HistoryInv;
  }

  /** Before the first election there are no leaders' logs. */
  lemma NoReignsYet(n: nat, h: History)
    requires Inv(Init(n), h)
    ensures forall t :: t !in h.reigns
  {
    hide Inv;
    forall t
      ensures t !in h.reigns
    {
      if t in h.reigns {
        LeaderTermSaved(Init(n), h, t);
        assert false;
      }
    }
  }

  lemma {:induction false} RsmInRun(r: Run, hs: seq<History>, k: int)
    requires IsRun(r) && Tracks(r, hs) && 0 <= k <= |r.acts|
    ensures |hs| == |r.acts| + 1 == |r.ws| && RsmInv(r.ws[k], hs[k])
  {
    hide Inv, Grows, Follows, Enabled, Exec;
    TracksAt(r, hs, 0);
    NoReignsYet(r.n, hs[0]);
    RsmAlong(r, hs, k);
  }

  /** The answers sent in a state are those of the log `items`. */
  predicate AnsweredFrom(w: World, id: int, items: seq<Item>)
    requires id in w.sent
  {
    |w.sent[id]| <= 1 && id in w.ops &&
    (|w.sent[id]| == 1 && w.sent[id][0].Result? ==>
       id in w.slots && 1 <= w.slots[id] <= |items| && items[w.slots[id] - 1] == Cmd(w.ops[id]) &&
       w.sent[id][0].reply == Answer(Fold(items[..w.slots[id] - 1]), w.ops[id].req))
  }

  lemma {:induction false} ExecutedFrom(h: History, op: Op, x: int, reply: Reply, l: seq<Entry>)
    requires Executed(h, op, x, reply) && forall s, t :: Committed(h, s, t) ==> s <= l
    ensures 1 <= x <= |l| && Items(l)[x - 1] == Cmd(op) && reply == Answer(Fold(Items(l)[..x - 1]), op.req)
  {
    hide Committed, Items, Fold, Answer;
    var s: seq<Entry>, t :| Committed(h, s, t) && 1 <= x == |s| && s[x - 1].item == Cmd(op) &&
      reply == Answer(StateAt(s, x - 1), op.req);
    assert s[..x - 1] <= s;
    PrefixTrans(s[..x - 1], s, l);
    ItemsPrefix(s, l, x - 1);
    assert s[x - 1] == l[x - 1];
    ItemsAt(l, x - 1);
  }

  lemma {:induction false} AnswerInRun(r: Run, hs: seq<History>, k: int, id: int, l: seq<Entry>)
    requires IsRun(r) && Tracks(r, hs) && 0 <= k <= |r.acts| && |hs| == |r.acts| + 1 && id in r.ws[k].sent
    requires forall s, t :: Committed(hs[|r.acts|], s, t) ==> s <= l
    ensures AnsweredFrom(r.ws[k], id, Items(l))
  {
    hide IsRun, Tracks, Committed, Grows, Items, Fold, Answer, Executed, Logged, WaitersInv, Inv;
    RsmInRun(r, hs, k);
    TracksAt(r, hs, k);
    GrowsAlong(r, hs, k, |r.acts|);
    var w := r.ws[k];
    assert AnswerInv(w, hs[k], id);
    if |w.sent[id]| == 1 && w.sent[id][0].Result? {
      ExecutedGrows(hs[k], hs[|r.acts|], w.ops[id], w.slots[id], w.sent[id][0].reply);
      ExecutedFrom(hs[|r.acts|], w.ops[id], w.slots[id], w.sent[id][0].reply, l);
    }
  }

  /** The log holds submitted operations only, each at the index its submission
      was given, so none twice. */
  predicate SubmittedOnce(w: World, items: seq<Item>) {
    forall x :: 0 <= x < |items| ==> Registered(w.ops, items[x]) && Placed(w.slots, items[x], x + 1)
  }

  lemma {:induction false} CommittedSubmitted(w: World, h: History, l: seq<Entry>, t: int)
    requires Logged(h, w.ops, w.slots) && Committed(h, l, t)
    ensures SubmittedOnce(w, Items(l))
  {
    hide Registered, Placed, Items;
    forall x | 0 <= x < |l|
      ensures Registered(w.ops, Items(l)[x]) && Placed(w.slots, Items(l)[x], x + 1)
    {
      var c :| c in h.commits && CommittedBy(h, l, t, c);
      assert AllRegistered(w.ops, w.slots, h.reigns[c.term].log);
      assert l[x] == h.reigns[c.term].log[x];
      ItemsAt(l, x);
    }
    ItemsCount(l);
  }

  /** The submission has been sent its operation's result. */
  predicate GotResult(w: World, id: int) {
    id in w.sent && |w.sent[id]| == 1 && w.sent[id][0].Result?
  }

  /** The log order respects real time: an operation submitted only after
      another's result was sent comes later in the log. */
  ghost predicate RespectsRealTime(r: Run)
    requires |r.ws| == |r.acts| + 1
  {
    forall j, k, a, b ::
      0 <= j <= k <= |r.acts| && GotResult(r.ws[j], a) && b !in r.ws[j].ops && GotResult(r.ws[k], b) ==>
      a in r.ws[j].slots && b in r.ws[k].slots && r.ws[j].slots[a] < r.ws[k].slots[b]
  }

  /** A committed prefix holds only operations submitted by then. */
  lemma CommittedKnown(w: World, h: History, s: seq<Entry>, t: int, x: int, op: Op)
    requires Logged(h, w.ops, w.slots) && Committed(h, s, t) && 0 <= x < |s| && s[x].item == Cmd(op)
    ensures op.id in w.ops
  {
    hide Items;
    CommittedSubmitted(w, h, s, t);
    ItemsAt(s, x);
    ItemsCount(s);
  }

  lemma {:induction false} RealTime(r: Run, hs: seq<History>, j: int, k: int, a: int, b: int)
    requires IsRun(r) && Tracks(r, hs) && 0 <= j <= k <= |r.acts| && |r.ws| == |hs| == |r.acts| + 1
    requires GotResult(r.ws[j], a) && b !in r.ws[j].ops && GotResult(r.ws[k], b)
    ensures a in r.ws[j].slots && b in r.ws[k].slots && r.ws[j].slots[a] < r.ws[k].slots[b]
  {
    hide IsRun, Tracks, HistoryInv, Committed, Grows, StateAt, Answer, Logged, WaitersInv, Named;
    RsmInRun(r, hs, j);
    RsmInRun(r, hs, k);
    GrowsAlong(r, hs, j, k);
    TracksAt(r, hs, k);
    HistoryOf(r.ws[k], hs[k]);
    var v, w := r.ws[j], r.ws[k];
    assert AnswerInv(v, hs[j], a) && AnswerInv(w, hs[k], b);
    var x, y, op := v.slots[a], w.slots[b], w.ops[b];
    var s: seq<Entry>, t :| Committed(hs[j], s, t) && 1 <= x == |s|;
    var s': seq<Entry>, t' :| Committed(hs[k], s', t') && 1 <= y == |s'| && s'[y - 1].item == Cmd(op);
    if y <= x {
      CommittedGrows(hs[j], hs[k], s, t);
      CommittedAgree(hs[k], |w.servers|, s', t', s, t);
      CommittedKnown(v, hs[j], s, t, y - 1, op);
      OwnName(w.ops, b);
      assert false;
    }
  }

  lemma OwnName(ops: map<int, Op>, id: int)
    requires Named(ops) && id in ops
    ensures ops[id].id == id
  {
  }

  /** What a delivery does to the reply channels: the submitter that waits at the
      delivered index, if any, gets its first and only value, which is the result
      on the commands before if the delivered operation is its own and a refusal
      if not. No other channel gets anything. */
  ghost predicate Signalled(w: World, w': World, i: int, items: seq<Item>)
    requires 0 <= i < |w.servers| && w.servers[i].batch != []
  {
    var s, m := w.servers[i], w.servers[i].batch[0];
    if m.CommandMsg? && m.item.Cmd? && m.index in s.db then
      var waiting, op := s.db[m.index].id, m.item.op;
      1 <= m.index <= |items| &&
      Received(w', waiting) ==
      [if op.id == waiting then Result(Answer(Fold(items[..m.index - 1]), op.req)) else NotLeader] &&
      forall id :: id != waiting ==> Received(w', id) == Received(w, id)
    else forall id :: Received(w', id) == Received(w, id)
  }

  /** Every delivery of the run answers as it should, on the run's log. */
  ghost predicate AllSignalled(r: Run, items: seq<Item>)
    requires IsRun(r) && |r.ws| == |r.acts| + 1
  {
    forall k :: 0 <= k < |r.acts| && r.acts[k].Deliver? ==>
      0 <= r.acts[k].i < |r.ws[k].servers| && r.ws[k].servers[r.acts[k].i].batch != [] &&
      Signalled(r.ws[k], r.ws[k + 1], r.acts[k].i, items)
  }

  lemma {:induction false} SignalledInRun(r: Run, hs: seq<History>, k: int, l: seq<Entry>)
    requires IsRun(r) && Tracks(r, hs) && 0 <= k < |r.acts| && r.acts[k].Deliver? && |hs| == |r.ws| == |r.acts| + 1
    requires forall s, t :: Committed(hs[|r.acts|], s, t) ==> s <= l
    ensures 0 <= r.acts[k].i < |r.ws[k].servers| && r.ws[k].servers[r.acts[k].i].batch != []
    ensures Signalled(r.ws[k], r.ws[k + 1], r.acts[k].i, Items(l))
  {
    hide IsRun, Tracks, HistoryInv, NodeInv, ServiceInv, Committed, Items, Fold, Logged, AnswerInv, Named, Exec,
      Signalled,
      Grows, Inv, WaitersInv, Follows;
    var i := r.acts[k].i;
    TracksAt(r, hs, k);
    TracksStep(r, hs, k);
    InvShaped(r.ws[k], hs[k]);
    DeliverOf(r, k);
    PeerFacts(r, hs, k, i);
    RsmInRun(r, hs, k);
    DeliveredService(r.ws[k].servers[i], hs[k].logs[i], hs[k].pos[i]);
    StateInRun(r, hs, k, i, hs[k].pos[i], l);
    DeliveryInRun(r, hs, k, l);
    SignalStep(r.ws[k], i, Items(l), hs[k].pos[i]);
  }

  lemma SignalStep(w: World, i: int, items: seq<Item>, p: int)
    requires Shaped(w) && Enabled(w, Deliver(i)) && WaitersInv(w, i)
    requires 0 <= p <= |items| && w.servers[i].kv == Fold(items[..p])
    requires var m := w.servers[i].batch[0]; m.CommandMsg? ==> m.index == p + 1 <= |items|
    ensures Signalled(w, Exec(w, Deliver(i)), i, items)
  {
    hide Fold, Answer, Next;
    var s := w.servers[i];
    if s.batch[0].CommandMsg? && s.batch[0].item.Cmd? && s.batch[0].index in s.db {
      assert WaiterInv(w, i, s.batch[0].index, s.db[s.batch[0].index]);
    }
  }

  lemma DeliverOf(r: Run, k: int)
    requires IsRun(r) && 0 <= k < |r.acts| && r.acts[k].Deliver? && Shaped(r.ws[k])
    ensures |r.ws| == |r.acts| + 1 && Enabled(r.ws[k], r.acts[k]) && r.ws[k + 1] == Exec(r.ws[k], r.acts[k])
  {
    hide Exec, Enabled;
    assert Moves(r.ws[k], r.acts[k], r.ws[k + 1]);
  }

  /** End to end: one log explains every server's state and every delivered
      message, and every submitter that is answered OK gets the answer of its
      own operation at the index its submission was given, on the fold of all
      commands before that index. Each submitter is sent at most one value, so
      the reader's send never waits. The log order respects real time, so with
      the answers it is a linearization of the submissions. */
  lemma {:induction false} AnswersFromOneLog(r: Run) returns (items: seq<Item>)
    requires IsRun(r)
    ensures Explains(r, items)
    ensures forall k, id :: 0 <= k <= |r.acts| && id in r.ws[k].sent ==> AnsweredFrom(r.ws[k], id, items)
    ensures |r.ws| == |r.acts| + 1 && SubmittedOnce(r.ws[|r.acts|], items)
    ensures RespectsRealTime(r) && AllSignalled(r, items)
  {
    hide IsRun, Tracks, HistoryInv, Committed, Explains, AnsweredFrom, Grows, Items, Logged, AnswerInv, WaitersInv,
      SubmittedOnce, GotResult,
      Signalled;
    var hs := RunHistory(r);
    FinalHistory(r, hs);
    var l := CommittedLog(hs[|r.acts|], r.n);
    items := Items(l);
    RsmInRun(r, hs, |r.acts|);
    var t :| Committed(hs[|r.acts|], l, t);
    CommittedSubmitted(r.ws[|r.acts|], hs[|r.acts|], l, t);
    LogExplains(r, hs, l);
    forall k | 0 <= k < |r.acts| && r.acts[k].Deliver?
      ensures 0 <= r.acts[k].i < |r.ws[k].servers| && r.ws[k].servers[r.acts[k].i].batch != []
      ensures Signalled(r.ws[k], r.ws[k + 1], r.acts[k].i, items)
    {
      SignalledInRun(r, hs, k, l);
    }
    forall j, k, a, b | 0 <= j <= k <= |r.acts| && GotResult(r.ws[j], a) && b !in r.ws[j].ops && GotResult(r.ws[k], b)
      ensures a in r.ws[j].slots && b in r.ws[k].slots && r.ws[j].slots[a] < r.ws[k].slots[b]
    {
      RealTime(r, hs, j, k, a, b);
    }
    forall k, id | 0 <= k <= |r.acts| && id in r.ws[k].sent
      ensures AnsweredFrom(r.ws[k], id, items)
    {
      AnswerInRun(r, hs, k, id, l);
    }
  }
}
