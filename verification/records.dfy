/** Cached records and the per-name record set. A cached record remembers the
    ttl it was learned with and the wall-clock second it was created; its
    remaining ttl is derived from the clock reading `now`, which every
    operation takes as a parameter. */
module Records {
  import opened Wrappers
  import opened Dns

  /** A TTL-bearing cached value: `ttl` and `created` are fixed when the record
      is first learned; only the payload of a list-valued record may grow. */
  datatype Cached<P> = Cached(ttl: int, created: int, payload: P) {

    /** The ttl left at `now`: the learned ttl minus the whole seconds elapsed
        since creation, floored at zero. It is zero exactly from the deadline
        `created + ttl` on, and otherwise counts down one per second. */
    function RemainTtl(now: int): (r: nat)
      ensures r == 0 <==> created + ttl <= now
      ensures r > 0 ==> r == ttl - (now - created)
    {
      var left := ttl - (now - created);
      if left > 0 then left else 0
    }

    /** Expired exactly when no ttl remains, that is from the deadline on. */
    function IsExpired(now: int): (b: bool)
      ensures b <==> created + ttl <= now
    {
      RemainTtl(now) == 0
    }
  }

  type AData = Cached<seq<Ipv4>>
  type AAAAData = Cached<seq<Ipv6>>
  type NSData = Cached<seq<Name>>
  type PTRData = Cached<Name>

  /** A slot kept only while its record is unexpired; a kept slot is unchanged. */
  function Evict<P>(slot: Option<Cached<P>>, now: int): (r: Option<Cached<P>>)
    ensures r.Some? <==> slot.Some? && !slot.value.IsExpired(now)
    ensures r.Some? ==> r == slot
  {
    if slot.Some? && slot.value.IsExpired(now) then None else slot
  }

  /** A slot that is absent or holds a record unexpired at `now`. */
  predicate SlotLive<P>(slot: Option<Cached<P>>, now: int) {
    slot.Some? ==> !slot.value.IsExpired(now)
  }

  /** A slot of `after` that is present is the same slot of `before`. */
  ghost predicate SlotKept<P>(after: Option<Cached<P>>, before: Option<Cached<P>>) {
    after.Some? ==> after == before
  }

  /** The records known for one name: at most one per supported type. */
  datatype RecordSet = RecordSet(
    a: Option<AData>,
    aaaa: Option<AAAAData>,
    ns: Option<NSData>,
    ptr: Option<PTRData>)
  {
    /** Every present slot is unexpired at `now`. */
    predicate Live(now: int) {
      SlotLive(a, now) && SlotLive(aaaa, now) && SlotLive(ns, now) && SlotLive(ptr, now)
    }

    /** Some slot is present and unexpired at `now`. */
    predicate AnyLive(now: int) {
      || (a.Some? && !a.value.IsExpired(now))
      || (aaaa.Some? && !aaaa.value.IsExpired(now))
      || (ns.Some? && !ns.value.IsExpired(now))
      || (ptr.Some? && !ptr.value.IsExpired(now))
    }

    /** Clears every slot whose record has expired at `now`, each slot
        independently. The result is live at `now`, keeps every unexpired slot
        exactly as it was (payload, ttl and creation time), and invents nothing. */
    function DeleteExpiredRecords(now: int): (r: RecordSet)
      ensures r.Live(now)
      ensures SlotKept(r.a, a) && SlotKept(r.aaaa, aaaa) && SlotKept(r.ns, ns) && SlotKept(r.ptr, ptr)
      ensures a.Some? && !a.value.IsExpired(now) ==> r.a == a
      ensures aaaa.Some? && !aaaa.value.IsExpired(now) ==> r.aaaa == aaaa
      ensures ns.Some? && !ns.value.IsExpired(now) ==> r.ns == ns
      ensures ptr.Some? && !ptr.value.IsExpired(now) ==> r.ptr == ptr
    {
      RecordSet(Evict(a, now), Evict(aaaa, now), Evict(ns, now), Evict(ptr, now))
    }

    /** True exactly for the record set with no slot at all. */
    function IsEmpty(): (b: bool)
      ensures b <==> this == Empty
    {
      !(a.Some? || aaaa.Some? || ptr.Some? || ns.Some?)
    }

    /** Every list-valued slot that is present holds at least one value: a list
        record is only ever created together with its first value. */
    predicate Populated() {
      && (a.Some? ==> |a.value.payload| > 0)
      && (aaaa.Some? ==> |aaaa.value.payload| > 0)
      && (ns.Some? ==> |ns.value.payload| > 0)
    }
  }

  /** The record set a name gets bound to when it is first seen. */
  const Empty := RecordSet(None, None, None, None)

  /** The cache store: each name's record set. */
  type Cache = map<Name, RecordSet>

  /** Every record set in the cache is populated. */
  predicate PopulatedCache(cache: Cache) {
    forall k :: k in cache ==> cache[k].Populated()
  }

  /** The record set stored for `n`, or the empty one when `n` is unknown. */
  function GetOrEmpty(cache: Cache, n: Name): (rs: RecordSet) {
    if n in cache then cache[n] else Empty
  }

  /** A record learned at `now` with a non-negative ttl has exactly that ttl left. */
  lemma RemainTtlAtCreation<P>(ttl: int, now: int, payload: P)
    requires ttl >= 0
    ensures Cached(ttl, now, payload).RemainTtl(now) == ttl
  {
  }

  /** After `d` more seconds the remaining ttl has dropped by `d`, down to zero. */
  lemma RemainTtlDecays<P>(c: Cached<P>, now: int, d: nat)
    ensures c.RemainTtl(now + d) == if c.RemainTtl(now) > d then c.RemainTtl(now) - d else 0
  {
  }

  /** The remaining ttl never grows as the clock moves forward. */
  lemma RemainTtlNonIncreasing<P>(c: Cached<P>, t1: int, t2: int)
    requires t1 <= t2
    ensures c.RemainTtl(t2) <= c.RemainTtl(t1)
  {
  }

  /** Once expired, a record stays expired. */
  lemma ExpiryPersists<P>(c: Cached<P>, t1: int, t2: int)
    requires t1 <= t2 && c.IsExpired(t1)
    ensures c.IsExpired(t2)
  {
  }

  /** A record learned with ttl zero is expired the moment it is created. */
  lemma ZeroTtlExpiresAtOnce<P>(c: Cached<P>, now: int)
    requires c.ttl == 0 && c.created <= now
    ensures c.IsExpired(now)
  {
  }

  /** Eviction at a fixed `now` is idempotent. */
  lemma DeleteExpiredIdempotent(rs: RecordSet, now: int)
    ensures rs.DeleteExpiredRecords(now).DeleteExpiredRecords(now) == rs.DeleteExpiredRecords(now)
  {
  }

  /** Evicting at `t1` and again at a later `t2` is the same as evicting at `t2`
      only: an earlier eviction never removes a record a later one would keep. */
  lemma DeleteExpiredLater(rs: RecordSet, t1: int, t2: int)
    requires t1 <= t2
    ensures rs.DeleteExpiredRecords(t1).DeleteExpiredRecords(t2) == rs.DeleteExpiredRecords(t2)
  {
  }

  /** After eviction a record set is empty exactly when none of its slots was
      live. */
  lemma EmptyAfterEviction(rs: RecordSet, now: int)
    ensures rs.DeleteExpiredRecords(now).IsEmpty() <==> !rs.AnyLive(now)
  {
  }

  /** Emptiness is the absence of all four slots. */
  lemma IsEmptyIffAllAbsent(rs: RecordSet)
    ensures rs.IsEmpty() <==> rs.a.None? && rs.aaaa.None? && rs.ns.None? && rs.ptr.None?
  {
  }

  /** Eviction keeps a record set populated. */
  lemma EvictionKeepsPopulated(rs: RecordSet, now: int)
    requires rs.Populated()
    ensures rs.DeleteExpiredRecords(now).Populated()
  {
  }
}
