/** The key/value server and the reader loop that drives it, as objects whose
    maps are updated in place. */
module KvServer {
  import opened KvMachine
  import opened RaftTypes
  import C = Cluster
  import H = RaftHandlers
  import P = RaftPeer

  class KvServer {
    var dedup: map<FilterKey, Remembered>
    var store: map<string, Versioned>

    ghost function View(): Kv
      reads this
    {
      Kv(store, dedup)
    }

    constructor ()
      ensures View() == EMPTY
    {
      dedup, store := map[], map[];
    }

    /** Execute one request. */
    method DoOp(req: Request) returns (reply: Reply)
      modifies this
      ensures View() == Next(old(View()), req) && reply == Answer(old(View()), req)
      ensures req.Put? && reply == PutReply(OK) ==>
        var fk := FilterKey(req.key, req.clerk); fk in dedup && dedup[fk].version == req.version
    {
      match req
      case Put(key, value, version, clerk) =>
        var fk := FilterKey(key, clerk);
        if fk in dedup {
          if version == dedup[fk].version {
            return PutReply(dedup[fk].err);
          }
        }
        var current := if key in store then store[key].version else 0;
        if version == current {
          dedup := dedup[fk := Remembered(version, OK)];
          store := store[key := Versioned(value, version + 1)];
          return PutReply(OK);
        }
        return PutReply(ErrVersion);
      case Get(key) =>
        if key in store {
          return GetReply(store[key].value, store[key].version, OK);
        }
        return GetReply("", 0, ErrNoKey);
      case Unknown =>
        return Unrecognized;
    }

    /** Save both maps; with `Restore`, a round trip. */
    method Snapshot() returns (image: Image)
      ensures image.Image? && forall kv :: KvMachine.Restore(kv, image) == View()
    {
      image := Image(Kv(store, dedup));
    }

    method Restore(image: Image)
      modifies this
      ensures View() == KvMachine.Restore(old(View()), image)
    {
      if image.NoImage? {
        return;
      }
      store, dedup := image.kv.store, image.kv.dedup;
    }
  }

  /** A value for a submitter's channel, or nothing to send. */
  datatype Signal = Silent | Send(id: int, response: C.Response)

  /** The replicated state machine's bookkeeping around one server. */
  class Rsm {
    const sm: KvServer
    const rf: P.Peer
    var db: map<int, Op>
    var applied: int

    /** The server of the cluster model this object stands for, with the messages
        still on the apply channel. */
    ghost function View(batch: seq<ApplyMsg>): C.Server
      reads this, sm, rf
    {
      C.Server(rf.View(), batch, sm.View(), applied, db)
    }

    /** Starting on a peer made from the persister, with its snapshot if there is
        one: what a crash leaves of a server. */
    constructor (sm: KvServer, rf: P.Peer, image: Image)
      requires sm.View() == EMPTY && image == rf.snapshot
      requires rf.View() == H.Boot(rf.me, rf.peers, rf.disk)
      modifies sm
      ensures this.sm == sm && this.rf == rf
      ensures forall was: Node :: was.me == rf.me && was.peers == rf.peers && was.disk == rf.disk ==>
                View([]) == C.Rebooted(was)
    {
      this.sm, this.rf := sm, rf;
      db, applied := map[], 0;
      new;
      if image.Image? {
        sm.Restore(image);
      }
    }

    /** Submit up to the point where it waits: it is the cluster's submission
        step, for every state of the rest of the cluster. */
    method Submit(op: Op, ghost batch: seq<ApplyMsg>) returns (index: int, t: int, isLeader: bool)
      requires rf.Valid()
      modifies this`db, rf
      ensures rf.Valid()
      ensures forall w: C.World ::
                C.Shaped(w) && C.Enabled(w, C.Submit(op.me, op)) && w.servers[op.me] == old(View(batch)) ==>
                  var w' := C.Exec(w, C.Submit(op.me, op));
                  w'.servers[op.me] == View(batch) &&
                  w'.slots == (if isLeader then w.slots[op.id := index] else w.slots)
    {
      index, t, isLeader := rf.Start(Cmd(op));
      if !isLeader {
        return;
      }
      db := db[index := op];
    }

    /** One turn of the reader loop. `large` says that the saved state exceeds
        the limit. The turn is a delivery of the cluster model, followed by the
        taking of a snapshot exactly when the limit is exceeded and there is
        something to compact. */
    method Read(msg: ApplyMsg, large: bool, ghost rest: seq<ApplyMsg>) returns (signal: Signal)
      requires rf.Valid() && msg.index <= H.LastIndex(rf.View())
      modifies this, sm, rf
      ensures rf.Valid()
      ensures
        var read := C.Read(old(View([msg] + rest)));
        View(rest) ==
        if large && msg.CommandMsg? && msg.item.Cmd? && old(rf.snapIndex) < msg.index then
          read.(rf := H.Snapshot(read.rf, read.applied, Image(read.kv)))
        else read
      ensures
        var sent := C.Signals(old(View([msg] + rest)));
        if signal.Silent? then sent == map[] else sent == map[signal.id := signal.response]
    {
      signal := Silent;
      match msg
      case SnapshotMsg(index, image) =>
        sm.Restore(image);
        applied := index;
      case CommandMsg(index, item) =>
        if item.Dummy? {
          return;
        }
        applied := index;
        var reply := sm.DoOp(item.op.req);
        if rf.snapIndex < applied && large {
          var image := sm.Snapshot();
          assert KvMachine.Restore(EMPTY, image) == sm.View();
          rf.Snapshot(applied, image);
        }
        if index in db {
          var waiting := db[index];
          db := db - {index};
          if item.op.id != waiting.id {
            signal := Send(waiting.id, C.NotLeader);
          } else {
            signal := Send(waiting.id, C.Result(reply));
          }
        }
    }
  }
}
