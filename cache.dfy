/**
 * The software-controlled, fully associative write-back cache in front of
 * the backing store. The pure functions give the policy on a value holding
 * the mode flag, the dirty entries and the backing memory; the class Cache
 * holds the flag and the entries as fields and drives a MemoryBus object.
 */
module Caching {
  import opened Outcomes
  import opened Memory

  /** The mode flag and dirty entries of the cache, with the contents of the backing store behind it. */
  datatype CacheState = CacheState(enabled: bool, store: map<int, int>, memory: map<int, int>)

  /** The cache holds no entry while it is disabled. */
  predicate Coherent(s: CacheState) {
    !s.enabled ==> s.store == map[]
  }

  /** The value a read at address observes: the dirty entry if there is one, otherwise the backing store's. */
  function View(s: CacheState, address: int): int {
    if address in s.store then s.store[address] else Lookup(s.memory, address)
  }

  /**
   * flush: every entry written to the backing store, then the entries cleared.
   * Afterwards the backing store alone shows what the cache showed before.
   */
  function CacheFlush(s: CacheState): (r: CacheState)
    ensures r.store == map[] && r.enabled == s.enabled
    ensures forall a :: Lookup(r.memory, a) == View(s, a)
    ensures forall a :: a !in s.store ==> Lookup(r.memory, a) == Lookup(s.memory, a)
  {
    s.(store := map[], memory := s.memory + s.store)
  }

  /** set_mode: 0 flushes then disables, 1 enables, 2 flushes, any other code does nothing. */
  function CacheSetMode(s: CacheState, code: int): CacheState {
    if code == 0 then CacheFlush(s).(enabled := false)
    else if code == 1 then s.(enabled := true)
    else if code == 2 then CacheFlush(s)
    else s
  }

  /** read: a hit returns the entry; a miss fetches from the backing store and keeps the value as an entry; disabled reads go straight through. */
  function CacheRead(s: CacheState, address: int): (CacheState, int) {
    if s.enabled then
      if address in s.store then (s, s.store[address])
      else
        var value := Lookup(s.memory, address);
        (s.(store := s.store[address := value]), value)
    else (s, Lookup(s.memory, address))
  }

  /** write: enabled, the value becomes an entry; disabled, it goes straight to the backing store. */
  function CacheWrite(s: CacheState, address: int, value: int): CacheState {
    if s.enabled then s.(store := s.store[address := value])
    else s.(memory := s.memory[address := value])
  }

  /** The cache is empty whenever it is disabled: true at the start and kept by every operation. */
  lemma CoherentPreserved(s: CacheState, address: int, value: int, code: int)
    requires Coherent(s)
    ensures Coherent(CacheRead(s, address).0)
    ensures Coherent(CacheWrite(s, address, value))
    ensures Coherent(CacheFlush(s))
    ensures Coherent(CacheSetMode(s, code))
  {
  }

  /** A read returns what the cache shows, changes nothing any later read can observe, and spares the backing store. */
  lemma ReadObservesView(s: CacheState, address: int)
    requires Coherent(s)
    ensures CacheRead(s, address).1 == View(s, address)
    ensures forall a :: View(CacheRead(s, address).0, a) == View(s, a)
    ensures CacheRead(s, address).0.memory == s.memory
    ensures CacheRead(s, address).0.enabled == s.enabled
  {
    var r := CacheRead(s, address).0;
    forall a ensures View(r, a) == View(s, a) {
      if a == address && s.enabled && address !in s.store {
        assert r.store[a] == Lookup(s.memory, a);
      }
    }
  }

  /** A write changes what the cache shows at its address, and nowhere else. */
  lemma WriteUpdatesView(s: CacheState, address: int, value: int)
    requires Coherent(s)
    ensures View(CacheWrite(s, address, value), address) == value
    ensures forall a :: a != address ==> View(CacheWrite(s, address, value), a) == View(s, a)
    ensures CacheWrite(s, address, value).enabled == s.enabled
  {
    var r := CacheWrite(s, address, value);
    forall a | a != address ensures View(r, a) == View(s, a) {
      if !s.enabled {
        ReadAfterWrite(s.memory, address, value, a);
      }
    }
  }

  /** An enabled write spares the backing store; a disabled one spares the entries. */
  lemma WriteTarget(s: CacheState, address: int, value: int)
    ensures s.enabled ==> CacheWrite(s, address, value).memory == s.memory
    ensures !s.enabled ==> CacheWrite(s, address, value).store == s.store
  {
  }

  /** Changing the mode never changes what a read observes. */
  lemma SetModeKeepsView(s: CacheState, code: int)
    ensures forall a :: View(CacheSetMode(s, code), a) == View(s, a)
  {
  }

  /** A second flush with nothing in between leaves everything as the first one did. */
  lemma FlushIdempotent(s: CacheState)
    ensures CacheFlush(CacheFlush(s)) == CacheFlush(s)
  {
  }

  /** One memory access the engine makes through the cache. */
  datatype Access = Load(address: int) | Save(address: int, value: int)

  /** The cache after a sequence of accesses, in order. */
  function Apply(s: CacheState, accesses: seq<Access>): CacheState
    decreases |accesses|
  {
    if accesses == [] then s
    else
      var next := match accesses[0]
        case Load(a) => CacheRead(s, a).0
        case Save(a, v) => CacheWrite(s, a, v);
      Apply(next, accesses[1..])
  }

  /** The value of the last Save to address among the accesses, if any. */
  function LastSaved(accesses: seq<Access>, address: int): Option<int>
    decreases |accesses|
  {
    if accesses == [] then None
    else match accesses[|accesses| - 1]
      case Save(a, v) => if a == address then Some(v) else LastSaved(accesses[..|accesses| - 1], address)
      case Load(_) => LastSaved(accesses[..|accesses| - 1], address)
  }

  lemma {:induction false} ApplySplit(s: CacheState, accesses: seq<Access>)
    requires accesses != []
    ensures Apply(s, accesses) == Apply(Apply(s, accesses[..|accesses| - 1]), [accesses[|accesses| - 1]])
    decreases |accesses|
  {
    if |accesses| > 1 {
      var next := match accesses[0]
        case Load(a) => CacheRead(s, a).0
        case Save(a, v) => CacheWrite(s, a, v);
      ApplySplit(next, accesses[1..]);
      assert accesses[1..][..|accesses[1..]| - 1] == accesses[..|accesses| - 1][1..];
    }
  }

  /** While the cache is enabled, reads and writes never reach the backing store, and the mode stays. */
  lemma {:induction false} EnabledSparesBus(s: CacheState, accesses: seq<Access>)
    requires s.enabled
    ensures Apply(s, accesses).memory == s.memory && Apply(s, accesses).enabled
    decreases |accesses|
  {
    if accesses != [] {
      var next := match accesses[0]
        case Load(a) => CacheRead(s, a).0
        case Save(a, v) => CacheWrite(s, a, v);
      EnabledSparesBus(next, accesses[1..]);
    }
  }

  /** Reads and writes keep a coherent cache coherent. */
  lemma {:induction false} ApplyCoherent(s: CacheState, accesses: seq<Access>)
    requires Coherent(s)
    ensures Coherent(Apply(s, accesses))
    decreases |accesses|
  {
    if accesses != [] {
      var next := match accesses[0]
        case Load(a) => CacheRead(s, a).0
        case Save(a, v) => CacheWrite(s, a, v);
      CoherentPreserved(s, accesses[0].address, if accesses[0].Save? then accesses[0].value else 0, 0);
      ApplyCoherent(next, accesses[1..]);
    }
  }

  /** After any accesses, a read observes the last value saved at that address, or what it observed before. */
  lemma {:induction false} LastSaveWins(s: CacheState, accesses: seq<Access>, address: int)
    requires Coherent(s)
    ensures View(Apply(s, accesses), address)
        == match LastSaved(accesses, address) case Some(v) => v case None => View(s, address)
    decreases |accesses|
  {
    if accesses != [] {
      var init := accesses[..|accesses| - 1];
      ApplySplit(s, accesses);
      LastSaveWins(s, init, address);
      var mid := Apply(s, init);
      ApplyCoherent(s, init);
      match accesses[|accesses| - 1]
      case Load(a) =>
        ReadObservesView(mid, a);
      case Save(a, v) =>
        WriteUpdatesView(mid, a, v);
    }
  }

  /**
   * With the cache enabled, the backing store keeps its old contents through any
   * reads and writes, and a flush then gives every saved address its last saved value.
   */
  lemma WriteBackOnFlush(s: CacheState, accesses: seq<Access>, address: int)
    requires s.enabled
    ensures Lookup(Apply(s, accesses).memory, address) == Lookup(s.memory, address)
    ensures Lookup(CacheFlush(Apply(s, accesses)).memory, address)
        == match LastSaved(accesses, address) case Some(v) => v case None => View(s, address)
  {
    EnabledSparesBus(s, accesses);
    LastSaveWins(s, accesses, address);
  }

  /**
   * Enabling a coherent cache, reading an address and disabling again leaves the
   * cache empty and the address stored in the backing store with the value it read.
   */
  lemma MissRoundTrip(s: CacheState, address: int)
    requires Coherent(s)
    ensures var r := CacheSetMode(CacheRead(CacheSetMode(s, 1), address).0, 0);
      r.store == map[] && !r.enabled
      && address in r.memory && r.memory[address] == View(s, address)
  {
    var e := CacheSetMode(s, 1);
    var d := CacheRead(e, address).0;
    assert address in d.store && d.store[address] == View(s, address);
  }

  class Cache {
    const bus: MemoryBus
    var enabled: bool
    var store: map<int, int>

    /** A new cache starts disabled and empty. */
    constructor (bus: MemoryBus)
      ensures this.bus == bus && !enabled && store == map[]
    {
      this.bus := bus;
      enabled := false;
      store := map[];
    }

    /** The cache's fields together with the contents of the backing store. */
    function State(): CacheState
      reads this, bus
    {
      CacheState(enabled, store, bus.memory)
    }

    method SetMode(code: int)
      modifies this, bus
      ensures State() == CacheSetMode(old(State()), code)
    {
      if code == 0 {
        Flush();
        enabled := false;
      } else if code == 1 {
        enabled := true;
      } else if code == 2 {
        Flush();
      }
    }

    /** Writes the entries to the backing store one at a time, then clears them. */
    method Flush()
      modifies this, bus
      ensures State() == CacheFlush(old(State()))
    {
      if store == map[] {
        return;
      }
      var pending := store.Keys;
      while pending != {}
        invariant pending <= store.Keys
        invariant enabled == old(enabled) && store == old(store)
        invariant bus.memory == old(bus.memory) + map a | a in store.Keys - pending :: store[a]
        decreases pending
      {
        ghost var member := SomeMember(pending);
        var k :| k in pending;
        bus.Write(k, store[k]);
        pending := pending - {k};
      }
      assert store.Keys - pending == store.Keys;
      assert (map a | a in store.Keys :: store[a]) == store;
      store := map[];
    }

    method Read(address: int) returns (value: int)
      modifies this
      ensures (State(), value) == CacheRead(old(State()), address)
    {
      if enabled {
        if address in store {
          value := store[address];
          return;
        }
        value := bus.Read(address);
        store := store[address := value];
        return;
      }
      value := bus.Read(address);
    }

    method Write(address: int, value: int)
      modifies this, bus
      ensures State() == CacheWrite(old(State()), address, value)
    {
      if enabled {
        store := store[address := value];
      } else {
        bus.Write(address, value);
      }
    }
  }
}
