/** Locks over the versioned store: any number of clients run the lock's Acquire
    and Release, each call going through the clerk's retry loop, over a network
    that loses requests and replies and delays requests without bound. */
module LockProtocol {
  import opened KvMachine
  import opened KvStore

  const RELEASED := "released"

  /** Where a client is in its program. A clerk's retry flag travels with the
      Put it repeats. */
  datatype Pc =
    | Idle
    | Polling
    | Taking(version: nat, first: bool)
    | Checking(version: nat)
    | Held
    | Releasing(first: bool)

  /** One client: its lock's key and own value, the lock's version field, its
      place, the number of its open call, whether its Release came from a
      completed Acquire, and the newest version it knows the key has reached. */
  datatype Client = Client(key: string, value: string, version: nat, pc: Pc, call: nat, owner: bool, seen: nat)

  datatype Req =
    | GetReq(who: int, call: nat, key: string)
    | PutReq(who: int, call: nat, key: string, value: string, version: nat)

  datatype Rep =
    | GetRep(who: int, call: nat, a: GetAnswer)
    | PutRep(who: int, call: nat, err: Err)

  /** One accepted Put. */
  datatype Write = Write(value: string, who: int)

  /** `trace` lists the accepted Puts of each key; it is an observation. */
  datatype World = World(store: Store, trace: map<string, seq<Write>>, clients: seq<Client>, reqs: set<Req>,
    reps: set<Rep>)

  datatype Action =
    | Acquire(c: int)
    | Release(c: int)
    | Serve(req: Req)
    | Answer(c: int, rep: Rep)
    | Fail(c: int)

  /** Clients made by distinct lock objects, none started. */
  function Init(locks: seq<(string, string)>): World {
    World(map[], map[], seq(|locks|,
      i requires 0 <= i < |locks| => Client(locks[i].0, locks[i].1, 0, Idle, 0, false, 0)), {}, {})
  }

  function Writes(w: World, key: string): seq<Write> {
    if key in w.trace then w.trace[key] else []
  }

  /** The request a client in this state has open. */
  function OpenRequest(who: int, c: Client): Req {
    match c.pc
    case Taking(v, _) => PutReq(who, c.call, c.key, c.value, v)
    case Releasing(_) => PutReq(who, c.call, c.key, RELEASED, c.version)
    case _ => GetReq(who, c.call, c.key)
  }

  predicate Waits(c: Client) {
    c.pc.Polling? || c.pc.Taking? || c.pc.Checking? || c.pc.Releasing?
  }

  predicate Enabled(w: World, a: Action) {
    match a
    case Acquire(c) => 0 <= c < |w.clients| && w.clients[c].pc.Idle?
    case Release(c) => 0 <= c < |w.clients| && (w.clients[c].pc.Idle? || w.clients[c].pc.Held?)
    case Serve(req) => req in w.reqs
    case Answer(c, rep) => 0 <= c < |w.clients| && Waits(w.clients[c]) && rep in w.reps && rep.who == c &&
      rep.call == w.clients[c].call
    case Fail(c) => 0 <= c < |w.clients| && Waits(w.clients[c])
  }

  /** What a clerk's call brings: a Get answer, a Put answer, or nothing. */
  datatype Outcome = GotGet(a: GetAnswer) | GotPut(err: Err) | Lost

  /** What the clerk reports for a server's answer to a Put. */
  function ClerkErr(first: bool, err: Err): Err {
    if !first && err == ErrVersion then ErrMaybe else err
  }

  /** The client's state after the outcome of its open call. */
  function Advance(cl: Client, o: Outcome): Client {
    match (cl.pc, o)
    case (Polling, GotGet(a)) =>
      if a.err == ErrNoKey || a.value == RELEASED then cl.(pc := Taking(a.version, true), seen := a.version)
      else cl.(seen := a.version)
    case (Taking(v, first), GotPut(err)) =>
      var e := ClerkErr(first, err);
      if e == OK then cl.(pc := Held, version := v + 1, seen := v + 1)
      else if e == ErrMaybe then cl.(pc := Checking(v), seen := v + 1)
      else cl.(pc := Polling, seen := v + 1)
    case (Checking(v), GotGet(a)) =>
      if a.value == cl.value then cl.(pc := Held, version := a.version, seen := a.version)
      else cl.(pc := Polling, seen := a.version)
    case (Releasing(_), GotPut(_)) => cl.(pc := Idle, owner := false)
    case (Taking(v, _), _) => cl.(pc := Taking(v, false))
    case (Releasing(_), _) => cl.(pc := Releasing(false))
    case _ => cl
  }

  function OutcomeOf(rep: Rep): Outcome {
    match rep
    case GetRep(_, _, a) => GotGet(a)
    case PutRep(_, _, err) => GotPut(err)
  }

  /** The client moves and, if it then waits, issues its next call. */
  function Move(w: World, c: int, cl: Client): World
    requires 0 <= c < |w.clients|
  {
    if Waits(cl) then
      var next := cl.(call := cl.call + 1);
      w.(clients := w.clients[c := next], reqs := w.reqs + {OpenRequest(c, next)})
    else w.(clients := w.clients[c := cl])
  }

  /** The server executes one request that has reached it. */
  function Execute(w: World, req: Req): World {
    var rest := w.(reqs := w.reqs - {req});
    match req
    case GetReq(who, call, key) => rest.(reps := w.reps + {GetRep(who, call, Fetch(w.store, key))})
    case PutReq(who, call, key, value, version) =>
      var ok := Fits(w.store, key, version);
      rest.(reps := w.reps + {PutRep(who, call, PutErr(w.store, key, version))},
            store := PutStore(w.store, key, value, version),
            trace := if ok then w.trace[key := Writes(w, key) + [Write(value, who)]] else w.trace)
  }

  function Exec(w: World, a: Action): World
    requires Enabled(w, a)
  {
    match a
    case Acquire(c) => Move(w, c, w.clients[c].(pc := Polling))
    case Release(c) => Move(w, c, w.clients[c].(pc := Releasing(true), owner := w.clients[c].pc.Held?))
    case Serve(req) => Execute(w, req)
    case Answer(c, rep) => Move(w, c, Advance(w.clients[c], OutcomeOf(rep)))
    case Fail(c) => Move(w, c, Advance(w.clients[c], Lost))
  }

  /** The client is between Acquire's return and its Release taking effect. */
  predicate Critical(w: World, c: int)
    requires 0 <= c < |w.clients|
  {
    var cl := w.clients[c];
    cl.pc.Held? || (cl.pc.Releasing? && cl.owner && |Writes(w, cl.key)| == cl.version)
  }
}
