/** The single versioned key/value server, its handlers as functions and as an
    object with an in-place map. */
module KvStore {
  import opened KvMachine

  type Store = map<string, Versioned>

  datatype GetAnswer = GetAnswer(value: string, version: nat, err: Err)

  function Fetch(store: Store, key: string): GetAnswer {
    if key in store then GetAnswer(store[key].value, store[key].version, OK) else GetAnswer("", 0, ErrNoKey)
  }

  /** A Put is accepted on the stored version, or on version 0 of a new key. */
  predicate Fits(store: Store, key: string, version: nat) {
    if key in store then store[key].version == version else version == 0
  }

  function PutErr(store: Store, key: string, version: nat): Err {
    if Fits(store, key, version) then OK else if key in store then ErrVersion else ErrNoKey
  }

  function PutStore(store: Store, key: string, value: string, version: nat): Store {
    if Fits(store, key, version) then store[key := Versioned(value, version + 1)] else store
  }

  class Server {
    var store: Store

    constructor ()
      ensures store == map[]
    {
      store := map[];
    }

    method HandleGet(key: string) returns (a: GetAnswer)
      ensures a == Fetch(store, key)
      ensures if key in store then a.err == OK && Versioned(a.value, a.version) == store[key] else a.err == ErrNoKey
    {
      if key in store {
        return GetAnswer(store[key].value, store[key].version, OK);
      }
      a := GetAnswer("", 0, ErrNoKey);
    }

    method HandlePut(key: string, value: string, version: nat) returns (err: Err)
      modifies this
      ensures store == PutStore(old(store), key, value, version) && err == PutErr(old(store), key, version)
      ensures err == OK ==>
        version == (if key in old(store) then old(store)[key].version else 0) &&
        store == old(store)[key := Versioned(value, version + 1)]
      ensures err == ErrVersion ==> key in old(store) && old(store)[key].version != version && store == old(store)
      ensures err == ErrNoKey ==> key !in old(store) && version != 0 && store == old(store)
      ensures err in {OK, ErrVersion, ErrNoKey}
    {
      if key in store {
        if store[key].version != version {
          return ErrVersion;
        }
        store := store[key := Versioned(value, version + 1)];
      } else if version == 0 {
        store := store[key := Versioned(value, version + 1)];
      } else {
        return ErrNoKey;
      }
      err := OK;
    }
  }
}
