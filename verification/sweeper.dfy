/** One cycle of the periodic expiry sweep: evict expired slots of every record
    set, then drop the names whose record set has become empty. */
module Sweeper {
  import opened Wrappers
  import opened Dns
  import opened Records

  /** The cache one sweep at `now` leaves: exactly the names that still had a
      live slot, each bound to its record set after eviction. No empty record
      set survives, and every remaining slot is unexpired at `now`. */
  function SweepResult(cache: Cache, now: int): (r: Cache)
    ensures forall k :: k in r <==> k in cache && cache[k].AnyLive(now)
    ensures forall k :: k in r ==> r[k] == cache[k].DeleteExpiredRecords(now)
    ensures forall k :: k in r ==> !r[k].IsEmpty() && r[k].Live(now)
  {
    map k | k in cache && !cache[k].DeleteExpiredRecords(now).IsEmpty() :: cache[k].DeleteExpiredRecords(now)
  }

  /** The sweep as the two passes it runs in: the scan evicts every record set
      and marks the names left empty, and only after the scan has finished are
      the marked names removed. */
  method CacheClearCycle(cache: Cache, now: int) returns (swept: Cache)
    ensures swept == SweepResult(cache, now)
    ensures forall k :: k in swept ==> !swept[k].IsEmpty()
  {
    // Pass 1: evict in place and collect the names whose set is now empty.
    var scanned := cache;
    var marked: set<Name> := {};
    var todo := cache.Keys;
    while todo != {}
      invariant todo <= cache.Keys
      invariant scanned.Keys == cache.Keys
      invariant forall k :: k in cache && k !in todo ==> scanned[k] == cache[k].DeleteExpiredRecords(now)
      invariant forall k :: k in todo ==> scanned[k] == cache[k]
      invariant forall k :: k in marked <==> k in cache && k !in todo && scanned[k].IsEmpty()
      decreases todo
    {
      var k :| k in todo;
      var records := scanned[k].DeleteExpiredRecords(now);
      scanned := scanned[k := records];
      if records.IsEmpty() {
        marked := marked + {k};
      }
      todo := todo - {k};
    }
    // Pass 2: remove the marked names.
    swept := scanned;
    var pending := marked;
    while pending != {}
      invariant pending <= marked
      invariant swept.Keys == scanned.Keys - (marked - pending)
      invariant forall k :: k in swept ==> swept[k] == scanned[k]
      decreases pending
    {
      var k :| k in pending;
      swept := swept - {k};
      pending := pending - {k};
    }
  }

  /** Sweeping at `t1` and again at a later `t2` leaves what one sweep at `t2`
      leaves; in particular a sweep is idempotent at a fixed clock reading. */
  lemma SweepLater(cache: Cache, t1: int, t2: int)
    requires t1 <= t2
    ensures SweepResult(SweepResult(cache, t1), t2) == SweepResult(cache, t2)
  {
    var once := SweepResult(cache, t1);
    forall k | k in cache
      ensures k in once && once[k].AnyLive(t2) <==> cache[k].AnyLive(t2)
      ensures k in once ==> once[k].DeleteExpiredRecords(t2) == cache[k].DeleteExpiredRecords(t2)
    {
      DeleteExpiredLater(cache[k], t1, t2);
      EmptyAfterEviction(cache[k], t2);
      EmptyAfterEviction(cache[k], t1);
      if k in once {
        EmptyAfterEviction(once[k], t2);
      }
    }
  }

  /** A sweep keeps the cache populated. */
  lemma SweepKeepsPopulated(cache: Cache, now: int)
    requires PopulatedCache(cache)
    ensures PopulatedCache(SweepResult(cache, now))
  {
    forall k | k in SweepResult(cache, now) ensures SweepResult(cache, now)[k].Populated() {
      EvictionKeepsPopulated(cache[k], now);
    }
  }
}
