/** The replicated key/value machine: the operations that travel through the
    log, the server's two maps, and what one operation does to them. */
module KvMachine {

  datatype Err = OK | ErrNoKey | ErrVersion | ErrMaybe | ErrWrongLeader

  /** What a client asks for; `Unknown` is a request of any other type. */
  datatype Request =
    | Put(key: string, value: string, version: nat, clerk: int)
    | Get(key: string)
    | Unknown

  datatype Reply =
    | PutReply(err: Err)
    | GetReply(value: string, version: nat, err: Err)
    | Unrecognized

  datatype Versioned = Versioned(value: string, version: nat)
  datatype FilterKey = FilterKey(key: string, clerk: int)
  datatype Remembered = Remembered(version: nat, err: Err)

  /** The server's store and its deduplication table. */
  datatype Kv = Kv(store: map<string, Versioned>, dedup: map<FilterKey, Remembered>)

  const EMPTY := Kv(map[], map[])

  /** An operation as it is logged, and what a log slot can hold. */
  datatype Op = Op(me: int, id: int, req: Request)
  datatype Item = Dummy | Cmd(op: Op)

  /** A key that was never stored reads as the empty value at version 0. */
  function Lookup(kv: Kv, key: string): Versioned {
    if key in kv.store then kv.store[key] else Versioned("", 0)
  }

  /** Is this Put one the clerk already had accepted? */
  predicate Repeated(kv: Kv, req: Request)
    requires req.Put?
  {
    var fk := FilterKey(req.key, req.clerk);
    fk in kv.dedup && kv.dedup[fk].version == req.version
  }

  /** The state after one operation. */
  function Next(kv: Kv, req: Request): Kv {
    if req.Put? && !Repeated(kv, req) && req.version == Lookup(kv, req.key).version then
      Kv(kv.store[req.key := Versioned(req.value, req.version + 1)],
         kv.dedup[FilterKey(req.key, req.clerk) := Remembered(req.version, OK)])
    else
      kv
  }

  /** The answer to one operation. */
  function Answer(kv: Kv, req: Request): Reply {
    match req
    case Put(key, value, version, clerk) =>
      if Repeated(kv, req) then PutReply(kv.dedup[FilterKey(key, clerk)].err)
      else if version == Lookup(kv, key).version then PutReply(OK)
      else PutReply(ErrVersion)
    case Get(key) =>
      if key in kv.store then GetReply(kv.store[key].value, kv.store[key].version, OK)
      else GetReply("", 0, ErrNoKey)
    case Unknown => Unrecognized
  }

  /** A log slot that holds no operation is skipped by the reader. */
  function Step(kv: Kv, item: Item): Kv {
    if item.Cmd? then Next(kv, item.op.req) else kv
  }

  /** The state a log stands for: the plain fold from the empty state. */
  function Fold(items: seq<Item>): Kv {
    if items == [] then EMPTY
    else Step(Fold(items[..|items| - 1]), items[|items| - 1])
  }

  /** A saved image of the machine; `NoImage` is the absent snapshot. */
  datatype Image = NoImage | Image(kv: Kv)

  /** Loading an absent image leaves the machine as it is. */
  function Restore(kv: Kv, image: Image): Kv {
    if image.Image? then image.kv else kv
  }
}
