/** A whole cluster: every server's Raft peer, its reader loop and its
    key/value machine, over a network that may lose, delay, repeat and reorder.
    Each critical section is one action. */
module Cluster {
  import opened KvMachine
  import opened RaftTypes
  import opened RaftHandlers

  /** One server: its peer, the messages its apply loop is still sending, its
      machine, the reader's position, and the submitters waiting by log index. */
  datatype Server = Server(rf: Node, batch: seq<ApplyMsg>, kv: Kv, applied: int, db: map<int, Op>)

  datatype Msg =
    | VoteReq(v: VoteArgs)
    | VoteRep(from: int, to: int, electionTerm: int, vr: VoteReply)
    | AppendReq(to: int, a: AppendArgs)
    | AppendRep(from: int, a: AppendArgs, ar: AppendReply)
    | SnapReq(to: int, sn: SnapArgs)
    | SnapRep(from: int, sn: SnapArgs, term: int)

  /** What the reader sends to a waiting submitter. */
  datatype Response = NotLeader | Result(reply: Reply)

  /** `ops` are the operations submitted so far, by id; `slots` the log index
      each was given; `sent` everything ever put on its reply channel. */
  datatype World = World(servers: seq<Server>, net: set<Msg>, ops: map<int, Op>, slots: map<int, int>, sent: map<int,
    seq<Response>>)

  datatype Action =
    | Timeout(i: int)
    | HandleVote(i: int, v: VoteArgs)
    | HandleVoteReply(i: int, peer: int, electionTerm: int, vr: VoteReply)
    | SendTo(i: int, peer: int)
    | HandleAppend(i: int, a: AppendArgs)
    | HandleAppendReply(i: int, peer: int, a: AppendArgs, ar: AppendReply)
    | HandleSnapshot(i: int, sn: SnapArgs)
    | HandleSnapshotReply(i: int, peer: int, sn: SnapArgs, term: int)
    | Submit(i: int, op: Op)
    | GiveUp(i: int, index: int)
    | CollectBatch(i: int)
    | Deliver(i: int)
    | TakeSnapshot(i: int)
    | Crash(i: int)
    | CrashAfterTerm(i: int, term: int)

  function Init(n: nat): World {
    World(seq(n, i => Server(Boot(i, n, Blank), [], EMPTY, 0, map[])), {}, map[], map[], map[])
  }

  function Received(w: World, id: int): seq<Response> {
    if id in w.sent then w.sent[id] else []
  }

  /** Did some message carry this term to server `i` in a call whose handler
      saves the new term before doing anything else? */
  predicate CarriesTerm(net: set<Msg>, i: int, term: int) {
    exists m :: m in net && ((m.VoteReq? && m.v.term == term) || (m.SnapReq? && m.to == i && m.sn.term == term))
  }

  predicate Enabled(w: World, a: Action) {
    var n := |w.servers|;
    0 <= a.i < n &&
    match a
    case Timeout(i) => w.servers[i].rf.role != Leader
    case HandleVote(i, v) => VoteReq(v) in w.net && v.candidate != i
    case HandleVoteReply(i, peer, t, vr) =>
      0 <= peer < n && peer != i &&
      (VoteRep(peer, i, t, vr) in w.net || vr == VoteReply(0, false)) &&
      // a call returns at most once
      (w.servers[i].rf.role == Candidate && w.servers[i].rf.term == t ==> peer in w.servers[i].rf.poll.waiting)
    case SendTo(i, peer) => 0 <= peer < n && peer != i && w.servers[i].rf.role == Leader
    case HandleAppend(i, aa) => AppendReq(i, aa) in w.net
    case HandleAppendReply(i, peer, aa, ar) => 0 <= peer < n && aa.leader == i && AppendRep(peer, aa, ar) in w.net
    case HandleSnapshot(i, sn) => SnapReq(i, sn) in w.net
    case HandleSnapshotReply(i, peer, sn, t) => 0 <= peer < n && sn.leader == i && SnapRep(peer, sn, t) in w.net
    case Submit(i, op) => op.id !in w.ops && op.me == i
    case GiveUp(i, index) => true
    case CollectBatch(i) => w.servers[i].batch == []
    case Deliver(i) => w.servers[i].batch != []
    case TakeSnapshot(i) => true
    case Crash(i) => true
    case CrashAfterTerm(i, t) => CarriesTerm(w.net, i, t) && t > w.servers[i].rf.term
  }

  /** Every server's arrays have one slot per server, so requests can be built. */
  predicate Shaped(w: World) {
    forall i :: 0 <= i < |w.servers| ==>
      w.servers[i].rf.me == i && w.servers[i].rf.peers == |w.servers| &&
      |w.servers[i].rf.nextIndex| == |w.servers| == |w.servers[i].rf.matchIndex|
  }

  /** A server after a crash: only what its persister holds survives. */
  function Rebooted(rf: Node): Server
    requires rf.peers >= 0
  {
    var b := Boot(rf.me, rf.peers, rf.disk);
    Server(b, [], Restore(EMPTY, b.snapshot), 0, map[])
  }

  /** The reader's handling of the next message. */
  function Read(s: Server): Server
    requires s.batch != []
  {
    var rest := s.(batch := s.batch[1..]);
    match s.batch[0]
    case SnapshotMsg(index, image) => rest.(kv := Restore(s.kv, image), applied := index)
    case CommandMsg(index, item) =>
      if item.Dummy? then rest
      else rest.(kv := Next(s.kv, item.op.req), applied := index, db := s.db - {index})
  }

  /** The value the reader puts on a waiting channel, by operation id. */
  function Signals(s: Server): map<int, Response>
    requires s.batch != []
  {
    match s.batch[0]
    case SnapshotMsg(_, _) => map[]
    case CommandMsg(index, item) =>
      if item.Dummy? || index !in s.db then map[]
      else map[s.db[index].id := if item.op.id != s.db[index].id then NotLeader else Result(Answer(s.kv, item.op.req))]
  }

  function Raft(w: World, i: int, rf: Node, msgs: set<Msg>): World
    requires 0 <= i < |w.servers|
  {
    w.(servers := w.servers[i := w.servers[i].(rf := rf)], net := w.net + msgs)
  }

  function Exec(w: World, a: Action): World
    requires Shaped(w) && Enabled(w, a)
  {
    var i := a.i;
    var s := w.servers[i];
    match a
    case Timeout(_) =>
      var rf := StartElection(s.rf);
      Raft(w, i, rf, {VoteReq(VoteRequest(rf))})
    case HandleVote(_, v) =>
      var (rf, vr) := RequestVote(s.rf, v);
      Raft(w, i, rf, {VoteRep(i, v.candidate, v.term, vr)})
    case HandleVoteReply(_, peer, t, vr) => Raft(w, i, VoteAnswer(s.rf, peer, t, vr), {})
    case SendTo(_, peer) =>
      Raft(w, i, s.rf, {if NeedsSnapshot(s.rf, peer) then SnapReq(peer, SnapshotRequest(s.rf))
                        else AppendReq(peer, AppendRequest(s.rf, peer))})
    case HandleAppend(_, aa) =>
      var (rf, ar) := AppendEntries(s.rf, aa);
      Raft(w, i, rf, {AppendRep(i, aa, ar)})
    case HandleAppendReply(_, peer, aa, ar) => Raft(w, i, AppendAnswer(s.rf, peer, aa, ar), {})
    case HandleSnapshot(_, sn) =>
      var (rf, t) := InstallSnapshot(s.rf, sn);
      Raft(w, i, rf, {SnapRep(i, sn, t)})
    case HandleSnapshotReply(_, peer, sn, t) => Raft(w, i, SnapshotAnswer(s.rf, peer, sn, t), {})
    case Submit(_, op) =>
      var index := LastIndex(s.rf) + 1;
      if s.rf.role != Leader then w.(ops := w.ops[op.id := op])
      else w.(servers := w.servers[i := s.(rf := Start(s.rf, Cmd(op)), db := s.db[index := op])],
              ops := w.ops[op.id := op], slots := w.slots[op.id := index])
    case GiveUp(_, index) => w.(servers := w.servers[i := s.(db := s.db - {index})])
    case CollectBatch(_) =>
      var (rf, msgs) := Collect(s.rf);
      w.(servers := w.servers[i := s.(rf := rf, batch := msgs)])
    case Deliver(_) =>
      var sig := Signals(s);
      w.(servers := w.servers[i := Read(s)],
         sent := map id | id in w.sent.Keys + sig.Keys :: Received(w, id) + (if id in sig then [sig[id]] else []))
    case TakeSnapshot(_) => Raft(w, i, Snapshot(s.rf, s.applied, Image(s.kv)), {})
    case Crash(_) => w.(servers := w.servers[i := Rebooted(s.rf)])
    case CrashAfterTerm(_, t) => w.(servers := w.servers[i := Rebooted(Persist(Follow(s.rf, t)))])
  }
}
