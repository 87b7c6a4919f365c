/** What the lock promises, over every run of any number of clients. */
module LockTheorems {
  import opened KvMachine
  import opened KvStore
  import opened LockProtocol
  import opened LockSafety

  /** A run from clients made by distinct lock objects. */
  datatype Run = Run(locks: seq<(string, string)>, states: seq<World>, actions: seq<Action>)

  predicate IsRun(r: Run) {
    && |r.states| == |r.actions| + 1
    && r.states[0] == Init(r.locks)
    && Distinct(Init(r.locks))
    && forall n :: 0 <= n < |r.actions| ==>
        Enabled(r.states[n], r.actions[n]) && r.states[n + 1] == Exec(r.states[n], r.actions[n])
  }

  lemma {:induction false} RunInv(r: Run, n: nat)
    requires IsRun(r) && n < |r.states|
    ensures Inv(r.states[n])
  {
    hide Inv, Exec, Init, Enabled;
    if n == 0 {
      InitInv(r.locks);
    } else {
      RunInv(r, n - 1);
      StepKeeps(r.states[n - 1], r.actions[n - 1]);
    }
  }

  /** At most one client of a lock is between Acquire's return and its Release
      taking effect, and meanwhile the key holds that client's value. */
  lemma MutualExclusion(r: Run, n: nat, c: int, d: int)
    requires IsRun(r) && n < |r.states|
    requires 0 <= c < |r.states[n].clients| && 0 <= d < |r.states[n].clients|
    requires Critical(r.states[n], c) && Critical(r.states[n], d)
    requires r.states[n].clients[c].key == r.states[n].clients[d].key
    ensures c == d
    ensures
      var cl := r.states[n].clients[c];
      cl.key in r.states[n].store && r.states[n].store[cl.key] == Versioned(cl.value, cl.version)
  {
    var w := r.states[n];
    RunInv(r, n);
    assert ClientInv(w, c) && ClientInv(w, d);
    assert w.clients[c].key in w.store <==> Writes(w, w.clients[c].key) != [];
  }

  /** A served Put that is the client's Release of its current holding. */
  predicate OwnRelease(w: World, c: int, a: Action)
    requires 0 <= c < |w.clients|
  {
    a.Serve? && a.req.PutReq? && a.req.who == c && a.req.value == RELEASED && a.req.version == w.clients[c].version
  }

  /** A lock stays with its client until that client's own Release is executed:
      no other step ends the holding, and that step does. */
  lemma HeldUntilReleased(r: Run, n: nat, c: int)
    requires IsRun(r) && n < |r.actions|
    requires 0 <= c < |r.states[n].clients| && Critical(r.states[n], c)
    ensures Critical(r.states[n + 1], c) <==> !OwnRelease(r.states[n], c, r.actions[n])
  {
    hide Inv, Critical, Execute, Move, OwnRelease;
    var w, a := r.states[n], r.actions[n];
    RunInv(r, n);
    if a.Serve? {
      HeldServe(w, a.req, c);
    } else {
      HeldMove(w, a, c);
    }
  }

  lemma HeldMove(w: World, a: Action, c: int)
    requires Inv(w) && Enabled(w, a) && !a.Serve?
    requires 0 <= c < |w.clients| && Critical(w, c)
    ensures Critical(Exec(w, a), c) && !OwnRelease(w, c, a)
  {
    assert ClientInv(w, c);
    assert Writes(Exec(w, a), w.clients[c].key) == Writes(w, w.clients[c].key);
  }

  lemma HeldServe(w: World, q: Req, c: int)
    requires Inv(w) && q in w.reqs
    requires 0 <= c < |w.clients| && Critical(w, c)
    ensures Critical(Execute(w, q), c) <==> !OwnRelease(w, c, Serve(q))
  {
    var cl := w.clients[c];
    assert ClientInv(w, c) && ReqInv(w, q);
    ServeWrites(w, q, cl.key);
    assert cl.key in w.store;
    if q.PutReq? && q.key == cl.key && Fits(w.store, q.key, q.version) {
      OnlyOwnRelease(w, q, c);
    }
  }

  /** A Put of another client, such as a Release by one that does not hold the
      lock, leaves the key of a held lock as it is. */
  lemma OthersCannotFree(r: Run, n: nat, c: int)
    requires IsRun(r) && n < |r.actions|
    requires 0 <= c < |r.states[n].clients| && Critical(r.states[n], c)
    requires r.actions[n].Serve? && r.actions[n].req.PutReq? && r.actions[n].req.who != c
    ensures
      var k := r.states[n].clients[c].key;
      && k in r.states[n].store && k in r.states[n + 1].store
      && r.states[n + 1].store[k] == r.states[n].store[k]
    ensures
      r.actions[n].req.key == r.states[n].clients[c].key ==>
        PutRep(r.actions[n].req.who, r.actions[n].req.call, ErrVersion) in r.states[n + 1].reps
  {
    var w, q := r.states[n], r.actions[n].req;
    RunInv(r, n);
    assert ClientInv(w, c);
    assert w.clients[c].key in w.store;
    if q.key == w.clients[c].key && Fits(w.store, q.key, q.version) {
      OnlyOwnRelease(w, q, c);
    }
  }

  /** When the holder's Release returns, exactly one Put of it was performed,
      right after the holder's own version, and the clerk says OK or maybe. */
  lemma ReleaseTakesEffectOnce(r: Run, n: nat, c: int, rep: Rep)
    requires IsRun(r) && n < |r.actions| && r.actions[n] == Answer(c, rep)
    requires
      var cl := r.states[n].clients[c];
      cl.pc.Releasing? && cl.owner
    ensures
      var cl, t := r.states[n].clients[c], Writes(r.states[n], r.states[n].clients[c].key);
      && Was(t, cl.version, cl.value)
      && forall i :: cl.version <= i < |t| ==> (t[i] == Write(RELEASED, c) <==> i == cl.version)
    ensures
      var cl, t := r.states[n].clients[c], Writes(r.states[n], r.states[n].clients[c].key);
      cl.version < |t| && rep.PutRep? && ClerkErr(cl.pc.first, rep.err) in {OK, ErrMaybe}
  {
    var w := r.states[n];
    RunInv(r, n);
    assert ClientInv(w, c) && RepInv(w, rep);
    var cl, t := w.clients[c], Writes(w, w.clients[c].key);
    forall i | cl.version <= i < |t| ensures t[i] == Write(RELEASED, c) <==> i == cl.version {
      assert WriteInv(w, cl.key, i);
    }
  }

  /** A clerk that reports ErrVersion for the Put of an Acquire never had it
      performed, and one that reports OK did; only ErrMaybe leaves it open. */
  lemma TakeReportIsExact(r: Run, n: nat, c: int, rep: Rep)
    requires IsRun(r) && n < |r.actions| && r.actions[n] == Answer(c, rep)
    requires r.states[n].clients[c].pc.Taking?
    ensures
      var cl, t := r.states[n].clients[c], Writes(r.states[n], r.states[n].clients[c].key);
      && rep.PutRep?
      && ClerkErr(cl.pc.first, rep.err) in {OK, ErrVersion, ErrMaybe}
      && (ClerkErr(cl.pc.first, rep.err) == OK ==> Performed(c, cl, t))
      && (ClerkErr(cl.pc.first, rep.err) == ErrVersion ==> cl.pc.version < |t| && !Performed(c, cl, t))
  {
    RunInv(r, n);
    assert ClientInv(r.states[n], c) && RepInv(r.states[n], rep);
  }

  /** Acquire returns exactly when the client's Put of this attempt was
      performed, however its answers were lost. */
  lemma AcquireReturnsIffTaken(r: Run, n: nat, c: int, rep: Rep)
    requires IsRun(r) && n < |r.actions| && r.actions[n] == Answer(c, rep)
    requires
      var pc := r.states[n].clients[c].pc;
      pc.Checking? || (pc.Taking? && rep.PutRep? && ClerkErr(pc.first, rep.err) != ErrMaybe)
    ensures
      var cl, t := r.states[n].clients[c], Writes(r.states[n], r.states[n].clients[c].key);
      Critical(r.states[n + 1], c) <==> cl.pc.version < |t| && t[cl.pc.version] == Write(cl.value, c)
  {
    var w := r.states[n];
    RunInv(r, n);
    assert ClientInv(w, c) && RepInv(w, rep);
    if w.clients[c].pc.Taking? {
      TakeReportIsExact(r, n, c, rep);
    } else if rep.a.value == w.clients[c].value {
      FoundOwn(w, c, w.clients[c].pc.version, rep.a);
    }
  }

  // ---------------------------------------------- what clients and server send

  /** The client's open call after a step, and the requests it added. */
  predicate Asks(w: World, w': World, c: int, req: Req)
    requires 0 <= c < |w.clients|
  {
    |w'.clients| == |w.clients| && w'.clients[c].call == w.clients[c].call + 1 && w'.reqs == w.reqs + {req}
  }

  predicate Silent(w: World, w': World) { w'.reqs == w.reqs }

  /** Acquire begins with a Get, and Release with the Put that frees the key at
      the lock's version. */
  lemma CallsBegin(r: Run, n: nat, c: int)
    requires IsRun(r) && n < |r.actions| && 0 <= c < |r.states[n].clients|
    ensures
      var w, w', cl := r.states[n], r.states[n + 1], r.states[n].clients[c];
      (r.actions[n] == Acquire(c) ==> Asks(w, w', c, GetReq(c, cl.call + 1, cl.key))) &&
      (r.actions[n] == Release(c) ==> Asks(w, w', c, PutReq(c, cl.call + 1, cl.key, RELEASED, cl.version)))
  {
  }

  /** A call that brings nothing is made again, the same. */
  lemma CallsRepeat(r: Run, n: nat, c: int)
    requires IsRun(r) && n < |r.actions| && r.actions[n] == Fail(c)
    ensures
      var w, w', cl := r.states[n], r.states[n + 1], r.states[n].clients[c];
      match cl.pc
      case Taking(v, _) => Asks(w, w', c, PutReq(c, cl.call + 1, cl.key, cl.value, v))
      case Releasing(_) => Asks(w, w', c, PutReq(c, cl.call + 1, cl.key, RELEASED, cl.version))
      case _ => Asks(w, w', c, GetReq(c, cl.call + 1, cl.key))
  {
  }

  /** A polling client's next request is its Put, at the version read, if and
      only if the key is missing or reads released; otherwise it is another
      Get. */
  lemma PollIsFollowed(r: Run, n: nat, c: int, rep: Rep)
    requires IsRun(r) && n < |r.actions| && r.actions[n] == Answer(c, rep) && r.states[n].clients[c].pc.Polling?
    ensures
      var w, w', cl := r.states[n], r.states[n + 1], r.states[n].clients[c];
      rep.GetRep? &&
      if rep.a.err == ErrNoKey || rep.a.value == RELEASED then
        Asks(w, w', c, PutReq(c, cl.call + 1, cl.key, cl.value, rep.a.version)) &&
        w'.clients[c].pc == Taking(rep.a.version, true)
      else Asks(w, w', c, GetReq(c, cl.call + 1, cl.key)) && w'.clients[c].pc.Polling?
  {
    RunInv(r, n);
    assert RepInv(r.states[n], rep);
  }

  /** After its Put a client holds the lock if the report is OK, reads the key
      back if it is unclear, and polls again if it is ErrVersion. */
  lemma PutIsFollowed(r: Run, n: nat, c: int, rep: Rep)
    requires IsRun(r) && n < |r.actions| && r.actions[n] == Answer(c, rep) && r.states[n].clients[c].pc.Taking?
    ensures
      var w, w', cl := r.states[n], r.states[n + 1], r.states[n].clients[c];
      rep.PutRep? && |w'.clients| == |w.clients| &&
      if rep.err == OK then Silent(w, w') && w'.clients[c].pc.Held? && w'.clients[c].version == cl.pc.version + 1
      else
        Asks(w, w', c, GetReq(c, cl.call + 1, cl.key)) &&
        w'.clients[c].pc == if cl.pc.first then Polling else Checking(cl.pc.version)
  {
    RunInv(r, n);
    assert RepInv(r.states[n], rep);
  }

  /** Reading the key back, the client holds the lock if the value is its own and
      polls again otherwise; the answer to a Release ends it. */
  lemma EndIsFollowed(r: Run, n: nat, c: int, rep: Rep)
    requires IsRun(r) && n < |r.actions| && r.actions[n] == Answer(c, rep)
    requires r.states[n].clients[c].pc.Checking? || r.states[n].clients[c].pc.Releasing?
    ensures
      var w, w', cl := r.states[n], r.states[n + 1], r.states[n].clients[c];
      |w'.clients| == |w.clients| &&
      if cl.pc.Releasing? then rep.PutRep? && Silent(w, w') && w'.clients[c].pc.Idle?
      else
        rep.GetRep? &&
        if rep.a.value == cl.value then
          Silent(w, w') && w'.clients[c].pc.Held? && w'.clients[c].version == rep.a.version
        else Asks(w, w', c, GetReq(c, cl.call + 1, cl.key)) && w'.clients[c].pc.Polling?
  {
    RunInv(r, n);
    assert RepInv(r.states[n], rep);
  }

  /** The server answers a Get with the last accepted Put of the key and their
      number, or ErrNoKey if there is none. It accepts a Put if and only if its
      version is that number, refuses it as ErrNoKey if the key has none, and as
      ErrVersion otherwise; a refused Put changes nothing. */
  lemma ServerAnswers(r: Run, n: nat, req: Req)
    requires IsRun(r) && n < |r.actions| && r.actions[n] == Serve(req)
    ensures
      var w, w', t := r.states[n], r.states[n + 1], Writes(r.states[n], req.key);
      w'.reqs == w.reqs - {req} && w'.clients == w.clients &&
      match req
      case GetReq(who, call, key) =>
        w'.store == w.store && w'.trace == w.trace &&
        w'.reps == w.reps + {GetRep(who, call, if t == [] then GetAnswer("", 0, ErrNoKey)
                                               else GetAnswer(t[|t| - 1].value, |t|, OK))}
      case PutReq(who, call, key, value, version) =>
        (forall k :: Writes(w', k) == Writes(w, k) + if k == key && version == |t| then [Write(value, who)] else []) &&
        w'.reps == w.reps + {PutRep(who, call,
          if version == |t| then OK else if t == [] then ErrNoKey else ErrVersion)} &&
        (version != |t| ==> w'.store == w.store)
  {
    RunInv(r, n);
    var w, t := r.states[n], Writes(r.states[n], req.key);
    assert CellInv(w.store, t, req.key);
    forall k
      ensures req.PutReq? ==>
        Writes(r.states[n + 1], k) ==
        Writes(w, k) + if k == req.key && req.version == |t| then [Write(req.value, req.who)] else []
    {
      ServeWrites(w, req, k);
    }
  }
}
