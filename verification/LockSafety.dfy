/** Mutual exclusion of the lock over every run. */
module LockSafety {
  import opened KvMachine
  import opened KvStore
  import opened LockProtocol

  /** Lock values are distinct and none is the released mark. */
  predicate Distinct(w: World) {
    && (forall c :: 0 <= c < |w.clients| ==> w.clients[c].value != RELEASED)
    && (forall c, d :: 0 <= c < d < |w.clients| ==> w.clients[c].value != w.clients[d].value)
  }

  /** The stored cell of a key is its last accepted Put; the version counts them. */
  predicate CellInv(store: Store, t: seq<Write>, k: string) {
    && (k in store <==> t != [])
    && (k in store ==> store[k] == Versioned(t[|t| - 1].value, |t|))
  }

  ghost predicate StoreInv(w: World) {
    forall k :: CellInv(w.store, Writes(w, k), k)
  }

  /** Some accepted Put left `value` at `version`. */
  predicate Was(t: seq<Write>, version: nat, value: string) {
    1 <= version <= |t| && t[version - 1].value == value
  }

  /** The client may have tried to take its lock at this version. */
  predicate Tried(c: Client, version: nat) {
    version < c.seen || (c.pc.Taking? && version == c.seen)
  }

  /** The Put this client repeats is the only one with its version. */
  predicate Sole(c: Client) {
    (c.pc.Taking? && c.pc.first) || (c.pc.Releasing? && c.pc.first && c.owner)
  }

  /** The Put a client has open was performed. */
  predicate Performed(who: int, c: Client, t: seq<Write>)
    requires c.pc.Taking? || c.pc.Releasing?
  {
    var (v, value) := if c.pc.Taking? then (c.pc.version, c.value) else (c.version, RELEASED);
    v < |t| && t[v] == Write(value, who)
  }

  /** Each accepted Put frees a lock or takes one for its own client, at a
      version that client has read. */
  predicate WriteInv(w: World, k: string, v: int)
    requires 0 <= v < |Writes(w, k)|
  {
    var x := Writes(w, k)[v];
    && 0 <= x.who < |w.clients|
    && var c := w.clients[x.who];
    && if x.value == RELEASED then v <= c.version else x.value == c.value && Tried(c, v)
  }

  /** A request in flight was built from a version its client had read. */
  predicate ReqInv(w: World, r: Req) {
    && 0 <= r.who < |w.clients|
    && var c := w.clients[r.who];
    && r.key == c.key
    && r.call <= c.call
    && (r.PutReq? ==>
          if r.value == RELEASED then
               && r.version <= c.version
               && (r.version == 0 || Was(Writes(w, r.key), r.version, c.value))
               && (c.pc.Held? ==> r.version < c.version)
             else
               && r.value == c.value
               && Tried(c, r.version)
               && (r.version == 0 || Was(Writes(w, r.key), r.version, RELEASED)))
    && (r.call == c.call && Waits(c) ==>
        r == OpenRequest(r.who, c) && (Sole(c) ==> !Performed(r.who, c, Writes(w, c.key))))
    && (r.PutReq? && Sole(c) && Same(r, OpenRequest(r.who, c)) ==> r.call == c.call)
  }

  predicate Same(r: Req, q: Req) {
    r.PutReq? && q.PutReq? && r.value == q.value && r.version == q.version
  }

  /** What the open call of a client in this state can have been answered. */
  predicate RepInv(w: World, p: Rep) {
    && 0 <= p.who < |w.clients|
    && var c := w.clients[p.who];
    && var t := Writes(w, c.key);
    && p.call <= c.call
    && (p.call == c.call && Waits(c) ==>
          && p.GetRep? == (c.pc.Polling? || c.pc.Checking?)
          && (p.GetRep? ==> GetInv(c, t, p.a))
          && (p.PutRep? ==> PutInv(p.who, c, t, p.err)))
  }

  predicate GetInv(c: Client, t: seq<Write>, a: GetAnswer) {
    && c.seen <= a.version <= |t|
    && a.err == (if a.version == 0 then ErrNoKey else OK)
    && a.value == (if a.version == 0 then "" else t[a.version - 1].value)
  }

  predicate PutInv(who: int, c: Client, t: seq<Write>, err: Err)
    requires c.pc.Taking? || c.pc.Releasing?
  {
    && (if c.pc.Taking? then c.pc.version else c.version) < |t|
    && err in {OK, ErrVersion}
    && (err == OK ==> Performed(who, c, t))
    && (err == ErrVersion && Sole(c) ==> !Performed(who, c, t))
  }

  /** A lock taken by this client at version v is still the newest write. */
  predicate StillOwn(who: int, c: Client, t: seq<Write>, v: nat) {
    v < |t| && t[v] == Write(c.value, who) ==> |t| == v + 1
  }

  predicate ClientInv(w: World, who: int)
    requires 0 <= who < |w.clients|
  {
    ClientOk(who, w.clients[who], Writes(w, w.clients[who].key))
  }

  predicate ClientOk(who: int, c: Client, t: seq<Write>) {
    && c.version <= c.seen <= |t|
    && match c.pc
       case Idle => c.version == 0 || (Was(t, c.version, c.value) && c.version < |t|)
       case Polling => true
       case Taking(v, _) => c.version <= v == c.seen && (v == 0 || Was(t, v, RELEASED)) && StillOwn(who, c, t, v)
       case Checking(v) => c.version <= v && c.seen == v + 1 && StillOwn(who, c, t, v)
       case Held => 1 <= c.version == |t| && t[c.version - 1] == Write(c.value, who)
       case Releasing(_) =>
         if c.owner then
           && 1 <= c.version
           && t[c.version - 1] == Write(c.value, who)
           && (|t| == c.version || t[c.version] == Write(RELEASED, who))
         else c.version == 0 || (Was(t, c.version, c.value) && c.version < |t|)
  }

  ghost predicate Inv(w: World) {
    && Distinct(w)
    && StoreInv(w)
    && (forall k, v :: 0 <= v < |Writes(w, k)| ==> WriteInv(w, k, v))
    && (forall r :: r in w.reqs ==> ReqInv(w, r))
    && (forall p :: p in w.reps ==> RepInv(w, p))
    && (forall c :: 0 <= c < |w.clients| ==> ClientInv(w, c))
  }

  /** A client's own move: it learns more, never less, and an open Put with no
      retry yet is new. */
  predicate Moves(cl: Client, next: Client) {
    && next.key == cl.key && next.value == cl.value && next.call == cl.call && cl.version <= next.version
    && (cl.seen < next.seen || (cl.seen == next.seen && (cl.pc.Taking? ==> next.pc.Taking?)))
    && (next.pc.Held? ==> cl.version < next.version)
    && (next.pc.Taking? && next.pc.first ==> cl.pc.Polling? && next.pc.version == next.seen)
    && (next.pc.Releasing? && next.pc.first && next.owner ==> cl.pc.Held? && cl.version == next.version)
  }

  predicate MovesOk(who: int, cl: Client, next: Client, t: seq<Write>) {
    && Moves(cl, next)
    && ClientOk(who, next, t)
    && (next.pc.Releasing? ==> next.version == 0 || Was(t, next.version, next.value))
    && (Sole(next) ==> !Performed(who, next, t))
  }

  lemma ClientMoves(w: World, c: int, next: Client)
    requires Inv(w) && 0 <= c < |w.clients|
    requires MovesOk(c, w.clients[c], next, Writes(w, next.key))
    ensures Inv(Move(w, c, next))
  {
    var w' := Move(w, c, next);
    assert Distinct(w');
    assert w'.trace == w.trace && w'.reps == w.reps && |w'.clients| == |w.clients|;
    forall r | r in w'.reqs && r !in w.reqs ensures ReqInv(w', r) {
      MoveNewRequest(w, c, next);
    }
    hide StoreInv, WriteInv, ReqInv, RepInv, ClientInv, MovesOk, Moves, Move;
    MoveStore(w, c, next);
    forall k, v | 0 <= v < |Writes(w', k)| ensures WriteInv(w', k, v) {
      MoveWrite(w, c, next, k, v);
    }
    forall r | r in w'.reqs ensures ReqInv(w', r) {
      if r in w.reqs {
        MoveRequest(w, c, next, r);
      }
    }
    forall p | p in w'.reps ensures RepInv(w', p) {
      MoveReply(w, c, next, p);
    }
    forall d | 0 <= d < |w'.clients| ensures ClientInv(w', d) {
      MoveClient(w, c, next, d);
    }
  }

  lemma MoveNewRequest(w: World, c: int, next: Client)
    requires 0 <= c < |w.clients| && Waits(next) && next.value != RELEASED
    requires MovesOk(c, w.clients[c], next, Writes(w, next.key))
    ensures ReqInv(Move(w, c, next), OpenRequest(c, next.(call := next.call + 1)))
  {
  }

  lemma MoveWrite(w: World, c: int, next: Client, k: string, v: int)
    requires 0 <= c < |w.clients| && 0 <= v < |Writes(w, k)| && WriteInv(w, k, v)
    requires MovesOk(c, w.clients[c], next, Writes(w, next.key))
    ensures Writes(Move(w, c, next), k) == Writes(w, k) && WriteInv(Move(w, c, next), k, v)
  {
  }

  /** A client that waits after its move has a fresh call, which no reply answers
      yet. */
  lemma MoveReply(w: World, c: int, next: Client, p: Rep)
    requires 0 <= c < |w.clients| && RepInv(w, p)
    requires MovesOk(c, w.clients[c], next, Writes(w, next.key))
    ensures RepInv(Move(w, c, next), p)
  {
  }

  lemma MoveClient(w: World, c: int, next: Client, d: int)
    requires 0 <= c < |w.clients| && 0 <= d < |w.clients| && ClientInv(w, d)
    requires MovesOk(c, w.clients[c], next, Writes(w, next.key))
    ensures |Move(w, c, next).clients| == |w.clients| && ClientInv(Move(w, c, next), d)
  {
    assert Writes(Move(w, c, next), w.clients[d].key) == Writes(w, w.clients[d].key);
    if d == c {
      assert ClientOk(c, next.(call := next.call + 1), Writes(w, next.key));
    }
  }

  lemma MoveStore(w: World, c: int, next: Client)
    requires StoreInv(w) && 0 <= c < |w.clients|
    ensures StoreInv(Move(w, c, next))
  {
    forall k ensures Writes(Move(w, c, next), k) == Writes(w, k) {}
  }

  lemma MoveRequest(w: World, c: int, next: Client, r: Req)
    requires 0 <= c < |w.clients| && ReqInv(w, r) && w.clients[c].value != RELEASED
    requires MovesOk(c, w.clients[c], next, Writes(w, next.key))
    ensures ReqInv(Move(w, c, next), r)
  {
    hide ClientOk;
    assert Writes(Move(w, c, next), r.key) == Writes(w, r.key);
    if r.who != c {
      assert Move(w, c, next).clients[r.who] == w.clients[r.who];
    }
  }

  /** The open call of a client brought this outcome, or nothing. */
  ghost predicate Brought(w: World, c: int, o: Outcome)
    requires 0 <= c < |w.clients|
  {
    && Waits(w.clients[c])
    && (o.Lost? || exists p :: p in w.reps && p.who == c && p.call == w.clients[c].call && o == OutcomeOf(p))
  }

  /** What an outcome tells the client it reaches. */
  predicate Told(who: int, cl: Client, o: Outcome, t: seq<Write>) {
    match o
    case Lost => true
    case GotGet(a) =>
      && (cl.pc.Polling? || cl.pc.Checking?)
      && GetInv(cl, t, a)
      && (cl.pc.Polling? && a.version < |t| ==> t[a.version] != Write(cl.value, who))
      && (cl.pc.Checking? && a.value == cl.value ==>
            a.version == cl.pc.version + 1 == |t| && t[cl.pc.version] == Write(a.value, who))
    case GotPut(err) => (cl.pc.Taking? || cl.pc.Releasing?) && PutInv(who, cl, t, err)
  }

  lemma OutcomeTold(w: World, c: int, o: Outcome)
    requires Inv(w) && 0 <= c < |w.clients| && Brought(w, c, o)
    ensures Told(c, w.clients[c], o, Writes(w, w.clients[c].key))
  {
    var cl := w.clients[c];
    if !o.Lost? {
      var p :| p in w.reps && p.who == c && p.call == cl.call && o == OutcomeOf(p);
      assert RepInv(w, p);
      if cl.pc.Polling? && o.a.version < |Writes(w, cl.key)| {
        assert WriteInv(w, cl.key, o.a.version);
      }
      if cl.pc.Checking? && o.a.value == cl.value {
        FoundOwn(w, c, cl.pc.version, o.a);
      }
    }
  }

  lemma AdvanceOk(who: int, cl: Client, o: Outcome, t: seq<Write>)
    requires ClientOk(who, cl, t) && Waits(cl) && Told(who, cl, o, t)
    ensures MovesOk(who, cl, Advance(cl, o), t)
  {
  }

  lemma AdvanceKeeps(w: World, c: int, o: Outcome)
    requires Inv(w) && 0 <= c < |w.clients| && Brought(w, c, o)
    ensures Inv(Move(w, c, Advance(w.clients[c], o)))
  {
    assert ClientInv(w, c);
    hide Inv, Advance, MovesOk, Move;
    OutcomeTold(w, c, o);
    AdvanceOk(c, w.clients[c], o, Writes(w, w.clients[c].key));
    assert Advance(w.clients[c], o).key == w.clients[c].key by { AdvanceKey(w.clients[c], o); }
    ClientMoves(w, c, Advance(w.clients[c], o));
  }

  lemma AdvanceKey(cl: Client, o: Outcome)
    ensures Advance(cl, o).key == cl.key
  {
  }

  /** Reading back its own value after an unclear Put tells a client that this
      very Put took the lock and that it is still held. */
  lemma FoundOwn(w: World, c: int, v: nat, a: GetAnswer)
    requires Inv(w) && 0 <= c < |w.clients|
    requires w.clients[c].pc == Checking(v)
    requires GetInv(w.clients[c], Writes(w, w.clients[c].key), a)
    requires a.value == w.clients[c].value
    ensures
      var t := Writes(w, w.clients[c].key);
      a.version == v + 1 == |t| && t[v] == Write(a.value, c)
  {
    var t := Writes(w, w.clients[c].key);
    assert ClientInv(w, c);
    assert WriteInv(w, w.clients[c].key, a.version - 1);
    assert t[a.version - 1].who == c;
  }

  /** A Put that fits while a client holds the newest write is that client's
      own Release. */
  lemma OnlyOwnRelease(w: World, r: Req, d: int)
    requires Inv(w) && r in w.reqs && r.PutReq? && Fits(w.store, r.key, r.version)
    requires 0 <= d < |w.clients| && w.clients[d].key == r.key
    requires
      var t := Writes(w, r.key);
      t != [] && t[|t| - 1].value == w.clients[d].value
    ensures r.who == d && r.value == RELEASED
  {
    assert ReqInv(w, r);
    var t := Writes(w, r.key);
    assert r.key in w.store;
    assert r.version == |t|;
  }

  /** What executing a request adds to a key's accepted Puts. */
  lemma ServeWrites(w: World, r: Req, k: string)
    ensures
      var fit := r.PutReq? && Fits(w.store, r.key, r.version);
      Writes(Execute(w, r), k) == Writes(w, k) + (if fit && k == r.key then [Write(r.value, r.who)] else [])
  {
  }

  lemma ServeStore(w: World, r: Req)
    requires StoreInv(w)
    ensures StoreInv(Execute(w, r))
  {
    hide Execute;
    forall k ensures CellInv(Execute(w, r).store, Writes(Execute(w, r), k), k) {
      assert CellInv(w.store, Writes(w, k), k);
      ServeCell(w, r, k);
    }
  }

  lemma ServeCell(w: World, r: Req, k: string)
    requires CellInv(w.store, Writes(w, k), k)
    ensures CellInv(Execute(w, r).store, Writes(Execute(w, r), k), k)
  {
    ServeWrites(w, r, k);
  }

  lemma ServeWrite(w: World, r: Req, k: string, v: int)
    requires Inv(w) && r in w.reqs && 0 <= v < |Writes(Execute(w, r), k)|
    ensures WriteInv(Execute(w, r), k, v)
  {
    ServeWrites(w, r, k);
    if v < |Writes(w, k)| {
      assert WriteInv(w, k, v);
    } else {
      assert ReqInv(w, r) && (k in w.store <==> Writes(w, k) != []);
    }
  }

  lemma ServeRequest(w: World, r: Req, q: Req)
    requires Inv(w) && r in w.reqs && q in w.reqs && r != q
    ensures ReqInv(Execute(w, r), q)
  {
    assert ReqInv(w, r) && ReqInv(w, q);
    assert r.key in w.store <==> Writes(w, r.key) != [];
    ServeWrites(w, r, q.key);
  }

  lemma ServeOldReply(w: World, r: Req, p: Rep)
    requires RepInv(w, p)
    ensures RepInv(Execute(w, r), p)
  {
    ServeWrites(w, r, w.clients[p.who].key);
  }

  lemma ServeKeeps(w: World, r: Req)
    requires Inv(w) && r in w.reqs
    ensures Inv(Execute(w, r))
  {
    hide WriteInv, ReqInv, RepInv, ClientInv, StoreInv;
    var w' := Execute(w, r);
    ServeStore(w, r);
    forall k, v | 0 <= v < |Writes(w', k)| ensures WriteInv(w', k, v) {
      ServeWrite(w, r, k, v);
    }
    forall q | q in w'.reqs ensures ReqInv(w', q) {
      ServeRequest(w, r, q);
    }
    forall d | 0 <= d < |w'.clients| ensures ClientInv(w', d) {
      ServeClient(w, r, d);
    }
    forall p | p in w'.reps ensures RepInv(w', p) {
      if p in w.reps {
        ServeOldReply(w, r, p);
      } else {
        ServeReply(w, r);
      }
    }
  }

  lemma ServeClient(w: World, r: Req, d: int)
    requires Inv(w) && r in w.reqs && 0 <= d < |w.clients|
    ensures ClientInv(Execute(w, r), d)
  {
    var c := w.clients[d];
    var t := Writes(w, c.key);
    assert ClientInv(w, d) && ReqInv(w, r) && CellInv(w.store, t, c.key);
    ServeWrites(w, r, c.key);
    if r.PutReq? && Fits(w.store, r.key, r.version) && r.key == c.key {
      if t != [] && t[|t| - 1].value == c.value {
        OnlyOwnRelease(w, r, d);
      }
      GrowClient(d, c, t, r);
    }
  }

  /** A client's state stays right under an accepted Put that is no threat to its
      lock. */
  lemma GrowClient(who: int, c: Client, t: seq<Write>, r: Req)
    requires ClientOk(who, c, t) && r.PutReq? && r.version == |t| && c.value != RELEASED
    requires t != [] && t[|t| - 1].value == c.value ==> r.who == who && r.value == RELEASED
    requires r.who == who && r.value == RELEASED ==> r.version <= c.version && (c.pc.Held? ==> r.version < c.version)
    ensures ClientOk(who, c, t + [Write(r.value, r.who)])
  {
  }

  /** The reply of the request a client has open. */
  function Reply(w: World, r: Req): Rep {
    match r
    case GetReq(who, call, key) => GetRep(who, call, Fetch(w.store, key))
    case PutReq(who, call, key, value, version) => PutRep(who, call, PutErr(w.store, key, version))
  }

  lemma ServeReply(w: World, r: Req)
    requires Inv(w) && r in w.reqs
    ensures RepInv(Execute(w, r), Reply(w, r))
  {
    assert ReqInv(w, r) && ClientInv(w, r.who);
    assert r.key in w.store <==> Writes(w, r.key) != [];
  }

  lemma InitInv(locks: seq<(string, string)>)
    requires Distinct(Init(locks))
    ensures Inv(Init(locks))
  {
  }

  lemma StepKeeps(w: World, a: Action)
    requires Inv(w) && Enabled(w, a)
    ensures Inv(Exec(w, a))
  {
    match a
    case Acquire(c) =>
      assert ClientInv(w, c);
      ClientMoves(w, c, w.clients[c].(pc := Polling));
    case Release(c) =>
      assert ClientInv(w, c);
      ClientMoves(w, c, w.clients[c].(pc := Releasing(true), owner := w.clients[c].pc.Held?));
    case Serve(r) => ServeKeeps(w, r);
    case Answer(c, rep) => AdvanceKeeps(w, c, OutcomeOf(rep));
    case Fail(c) => AdvanceKeeps(w, c, Lost);
  }
}
