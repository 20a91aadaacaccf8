/** Learning from upstream answers: the per-type update rules and the walk over
    the answer and additional sections of a message. Every record learned at
    one clock reading `now` is created at `now`. */
module Learning {
  import opened Wrappers
  import opened Dns
  import opened Records

  /** The list-valued update shared by A, AAAA and NS: create the record with the
      incoming ttl when the slot is absent, then append the incoming value. */
  function Learn<T>(slot: Option<Cached<seq<T>>>, ttl: int, item: T, now: int): (c: Cached<seq<T>>) {
    if slot.None? then Cached(ttl, now, [item])
    else slot.value.(payload := slot.value.payload + [item])
  }

  /** NS rule: create-if-absent, then always append the server name. */
  function UpdateNs(rs: RecordSet, ttl: int, server: Name, now: int): (r: RecordSet)
    ensures rs.ns.None? ==> r.ns == Some(Cached(ttl, now, [server]))
    ensures rs.ns.Some? ==> (r.ns.Some? && r.ns.value.ttl == rs.ns.value.ttl
      && r.ns.value.created == rs.ns.value.created
      && r.ns.value.payload == rs.ns.value.payload + [server])
    ensures r.a == rs.a && r.aaaa == rs.aaaa && r.ptr == rs.ptr
  {
    rs.(ns := Some(Learn(rs.ns, ttl, server, now)))
  }

  /** A rule: create-if-absent, then always append the address. */
  function UpdateA(rs: RecordSet, ttl: int, address: Ipv4, now: int): (r: RecordSet)
    ensures rs.a.None? ==> r.a == Some(Cached(ttl, now, [address]))
    ensures rs.a.Some? ==> (r.a.Some? && r.a.value.ttl == rs.a.value.ttl
      && r.a.value.created == rs.a.value.created
      && r.a.value.payload == rs.a.value.payload + [address])
    ensures r.aaaa == rs.aaaa && r.ns == rs.ns && r.ptr == rs.ptr
  {
    rs.(a := Some(Learn(rs.a, ttl, address, now)))
  }

  /** AAAA rule: create-if-absent, then always append the address. */
  function UpdateAaaa(rs: RecordSet, ttl: int, address: Ipv6, now: int): (r: RecordSet)
    ensures rs.aaaa.None? ==> r.aaaa == Some(Cached(ttl, now, [address]))
    ensures rs.aaaa.Some? ==> (r.aaaa.Some? && r.aaaa.value.ttl == rs.aaaa.value.ttl
      && r.aaaa.value.created == rs.aaaa.value.created
      && r.aaaa.value.payload == rs.aaaa.value.payload + [address])
    ensures r.a == rs.a && r.ns == rs.ns && r.ptr == rs.ptr
  {
    rs.(aaaa := Some(Learn(rs.aaaa, ttl, address, now)))
  }

  /** PTR rule: keep the first. A present PTR slot, expired or not, leaves the
      record set unchanged; otherwise the slot gets the incoming ttl and name. */
  function UpdatePtr(rs: RecordSet, ttl: int, target: Name, now: int): (r: RecordSet)
    ensures rs.ptr.Some? ==> r == rs
    ensures rs.ptr.None? ==> r.ptr == Some(Cached(ttl, now, target))
    ensures r.a == rs.a && r.aaaa == rs.aaaa && r.ns == rs.ns
  {
    if rs.ptr.None? then rs.(ptr := Some(Cached(ttl, now, target))) else rs
  }

  /** The update one record makes to its name's record set; records of any
      other type leave it unchanged. */
  function ApplyRecord(rs: RecordSet, rec: ResourceRecord, now: int): (r: RecordSet)
    ensures rec.rdata.Opaque? ==> r == rs
  {
    match rec.rdata
    case NsHost(server) => UpdateNs(rs, rec.ttl, server, now)
    case Addr4(address) => UpdateA(rs, rec.ttl, address, now)
    case Addr6(address) => UpdateAaaa(rs, rec.ttl, address, now)
    case PtrHost(target) => UpdatePtr(rs, rec.ttl, target, now)
    case Opaque(_) => rs
  }

  /** Learns one record under its own owner name. The name is bound even when
      the record's type is not cached: a new name then gets the empty set. */
  function Bind(cache: Cache, rec: ResourceRecord, now: int): (r: Cache)
    ensures r.Keys == cache.Keys + {rec.name}
    ensures forall n :: n in cache && n != rec.name ==> r[n] == cache[n]
    ensures r[rec.name] == ApplyRecord(GetOrEmpty(cache, rec.name), rec, now)
    ensures rec.rdata.Opaque? && rec.name !in cache ==> r[rec.name] == Empty
  {
    cache[rec.name := ApplyRecord(GetOrEmpty(cache, rec.name), rec, now)]
  }

  /** Learns a sequence of records, in order. The names bound afterwards are the
      old ones plus every owner name in `recs`; every other name is unchanged. */
  function BindAll(cache: Cache, recs: seq<ResourceRecord>, now: int): (r: Cache)
    ensures r.Keys == cache.Keys + NamesOf(recs)
    ensures forall n :: n in cache && n !in NamesOf(recs) ==> r[n] == cache[n]
    decreases |recs|
  {
    if recs == [] then cache
    else
      assert NamesOf(recs) == {recs[0].name} + NamesOf(recs[1..]);
      BindAll(Bind(cache, recs[0], now), recs[1..], now)
  }

  /** Learns from an upstream message: the answer section, then the additional
      section. The authority section is not looked at. */
  function UpdateCacheRecords(cache: Cache, msg: Message, now: int): (r: Cache)
    ensures r.Keys == cache.Keys + NamesOf(msg.rr) + NamesOf(msg.ar)
    ensures forall n :: n in cache && n !in NamesOf(msg.rr) && n !in NamesOf(msg.ar) ==> r[n] == cache[n]
  {
    assert NamesOf(msg.rr + msg.ar) == NamesOf(msg.rr) + NamesOf(msg.ar) by {
      NamesOfAppend(msg.rr, msg.ar);
    }
    BindAll(cache, msg.rr + msg.ar, now)
  }

  lemma NamesOfAppend(xs: seq<ResourceRecord>, ys: seq<ResourceRecord>)
    ensures NamesOf(xs + ys) == NamesOf(xs) + NamesOf(ys)
  {
    forall n | n in NamesOf(xs + ys) ensures n in NamesOf(xs) + NamesOf(ys) {
      var i :| 0 <= i < |xs + ys| && (xs + ys)[i].name == n;
      if i < |xs| { assert xs[i].name == n; } else { assert ys[i - |xs|].name == n; }
    }
    forall i | 0 <= i < |xs| ensures xs[i].name in NamesOf(xs + ys) {
      assert (xs + ys)[i] == xs[i];
    }
    forall i | 0 <= i < |ys| ensures ys[i].name in NamesOf(xs + ys) {
      assert (xs + ys)[|xs| + i] == ys[i];
    }
  }

  /** Learning `xs + ys` is learning `xs`, then `ys`. */
  lemma {:induction false} BindAllAppend(cache: Cache, xs: seq<ResourceRecord>, ys: seq<ResourceRecord>, now: int)
    ensures BindAll(cache, xs + ys, now) == BindAll(BindAll(cache, xs, now), ys, now)
    decreases |xs|
  {
    if xs == [] {
      assert xs + ys == ys;
    } else {
      assert (xs + ys)[1..] == xs[1..] + ys;
      BindAllAppend(Bind(cache, xs[0], now), xs[1..], ys, now);
    }
  }

  /** The answer section is learned completely before the additional section. */
  lemma AnswerThenAdditional(cache: Cache, msg: Message, now: int)
    ensures UpdateCacheRecords(cache, msg, now)
         == BindAll(BindAll(cache, msg.rr, now), msg.ar, now)
  {
    BindAllAppend(cache, msg.rr, msg.ar, now);
  }

  /** The records of `recs` owned by `n`, in order. */
  function RecordsOf(recs: seq<ResourceRecord>, n: Name): (own: seq<ResourceRecord>) {
    if recs == [] then []
    else (if recs[0].name == n then [recs[0]] else []) + RecordsOf(recs[1..], n)
  }

  /** Applies records to one record set, in order, ignoring their names. */
  function ApplyAll(rs: RecordSet, recs: seq<ResourceRecord>, now: int): (r: RecordSet)
    decreases |recs|
  {
    if recs == [] then rs else ApplyAll(ApplyRecord(rs, recs[0], now), recs[1..], now)
  }

  /** Each record is keyed by its own name: the record set a name ends with is
      its old record set (or the empty one) updated by exactly the records that
      name owns, in their order. */
  lemma {:induction false} BindAllPerName(cache: Cache, recs: seq<ResourceRecord>, now: int, n: Name)
    requires n in cache || n in NamesOf(recs)
    ensures n in BindAll(cache, recs, now)
    ensures BindAll(cache, recs, now)[n] == ApplyAll(GetOrEmpty(cache, n), RecordsOf(recs, n), now)
    decreases |recs|
  {
    if recs == [] {
    } else {
      var c1 := Bind(cache, recs[0], now);
      assert NamesOf(recs) == {recs[0].name} + NamesOf(recs[1..]);
      BindAllPerName(c1, recs[1..], now, n);
      if recs[0].name == n {
        assert RecordsOf(recs, n) == [recs[0]] + RecordsOf(recs[1..], n);
      } else {
        assert RecordsOf(recs, n) == RecordsOf(recs[1..], n);
        assert GetOrEmpty(c1, n) == GetOrEmpty(cache, n);
      }
    }
  }

  // Closed forms of what a sequence of learnings leaves in one slot.

  /** The (ttl, value) pairs that records of one type contribute, in order;
      `pick` selects the value of a record of that type. */
  function Picked<T>(recs: seq<ResourceRecord>, pick: RData -> Option<T>): (items: seq<(int, T)>) {
    if recs == [] then []
    else
      (if pick(recs[0].rdata).Some? then [(recs[0].ttl as int, pick(recs[0].rdata).value)] else [])
      + Picked(recs[1..], pick)
  }

  function Values<T>(items: seq<(int, T)>): (vs: seq<T>)
    ensures |vs| == |items|
    ensures forall i :: 0 <= i < |items| ==> vs[i] == items[i].1
  {
    if items == [] then [] else [items[0].1] + Values(items[1..])
  }

  /** Append-forever: what a list slot holds after learning `items` in order.
      Learning nothing leaves it as it was; otherwise an existing record keeps
      its ttl and creation time and gains every value at its end, and an absent
      one is created with the FIRST item's ttl and holds exactly the values. */
  function Appended<T>(slot: Option<Cached<seq<T>>>, items: seq<(int, T)>, now: int): (r: Option<Cached<seq<T>>>) {
    if items == [] then slot
    else if slot.None? then Some(Cached(items[0].0, now, Values(items)))
    else Some(slot.value.(payload := slot.value.payload + Values(items)))
  }

  /** Keep-first: what the PTR slot holds after learning `items` in order. A
      present slot never changes; an absent one takes the first item. */
  function KeptFirst<T>(slot: Option<Cached<T>>, items: seq<(int, T)>, now: int): (r: Option<Cached<T>>) {
    if slot.Some? || items == [] then slot else Some(Cached(items[0].0, now, items[0].1))
  }

  function PickA(d: RData): (v: Option<Ipv4>) {
    if d.Addr4? then Some(d.v4) else None
  }

  function PickAaaa(d: RData): (v: Option<Ipv6>) {
    if d.Addr6? then Some(d.v6) else None
  }

  function PickNs(d: RData): (v: Option<Name>) {
    if d.NsHost? then Some(d.server) else None
  }

  function PickPtr(d: RData): (v: Option<Name>) {
    if d.PtrHost? then Some(d.target) else None
  }

  lemma AppendedStep<T>(slot: Option<Cached<seq<T>>>, ttl: int, item: T, items: seq<(int, T)>, now: int)
    ensures Appended(Some(Learn(slot, ttl, item, now)), items, now) == Appended(slot, [(ttl, item)] + items, now)
  {
    var all := [(ttl, item)] + items;
    assert all[1..] == items;
    assert Values(all) == [item] + Values(items);
    if items == [] {
      assert Values(all) == [item];
    } else if slot.Some? {
      var p := slot.value.payload;
      assert p + [item] + Values(items) == p + ([item] + Values(items));
    }
  }

  /** The A slot after a sequence of records is the append-forever closed form
      of the A records among them. */
  lemma {:induction false} ApplyAllA(rs: RecordSet, recs: seq<ResourceRecord>, now: int)
    ensures ApplyAll(rs, recs, now).a == Appended(rs.a, Picked(recs, PickA), now)
    decreases |recs|
  {
    if recs != [] {
      var r0 := recs[0];
      ApplyAllA(ApplyRecord(rs, r0, now), recs[1..], now);
      if r0.rdata.Addr4? {
        assert Picked(recs, PickA) == [(r0.ttl as int, r0.rdata.v4)] + Picked(recs[1..], PickA);
        AppendedStep(rs.a, r0.ttl, r0.rdata.v4, Picked(recs[1..], PickA), now);
      } else {
        assert Picked(recs, PickA) == Picked(recs[1..], PickA);
      }
    }
  }

  /** The AAAA slot after a sequence of records is the append-forever closed
      form of the AAAA records among them. */
  lemma {:induction false} ApplyAllAaaa(rs: RecordSet, recs: seq<ResourceRecord>, now: int)
    ensures ApplyAll(rs, recs, now).aaaa == Appended(rs.aaaa, Picked(recs, PickAaaa), now)
    decreases |recs|
  {
    if recs != [] {
      var r0 := recs[0];
      ApplyAllAaaa(ApplyRecord(rs, r0, now), recs[1..], now);
      if r0.rdata.Addr6? {
        assert Picked(recs, PickAaaa) == [(r0.ttl as int, r0.rdata.v6)] + Picked(recs[1..], PickAaaa);
        AppendedStep(rs.aaaa, r0.ttl, r0.rdata.v6, Picked(recs[1..], PickAaaa), now);
      } else {
        assert Picked(recs, PickAaaa) == Picked(recs[1..], PickAaaa);
      }
    }
  }

  /** The NS slot after a sequence of records is the append-forever closed form
      of the NS records among them. */
  lemma {:induction false} ApplyAllNs(rs: RecordSet, recs: seq<ResourceRecord>, now: int)
    ensures ApplyAll(rs, recs, now).ns == Appended(rs.ns, Picked(recs, PickNs), now)
    decreases |recs|
  {
    if recs != [] {
      var r0 := recs[0];
      ApplyAllNs(ApplyRecord(rs, r0, now), recs[1..], now);
      if r0.rdata.NsHost? {
        assert Picked(recs, PickNs) == [(r0.ttl as int, r0.rdata.server)] + Picked(recs[1..], PickNs);
        AppendedStep(rs.ns, r0.ttl, r0.rdata.server, Picked(recs[1..], PickNs), now);
      } else {
        assert Picked(recs, PickNs) == Picked(recs[1..], PickNs);
      }
    }
  }

  /** The PTR slot after a sequence of records is the keep-first closed form of
      the PTR records among them. */
  lemma {:induction false} ApplyAllPtr(rs: RecordSet, recs: seq<ResourceRecord>, now: int)
    ensures ApplyAll(rs, recs, now).ptr == KeptFirst(rs.ptr, Picked(recs, PickPtr), now)
    decreases |recs|
  {
    if recs != [] {
      ApplyAllPtr(ApplyRecord(rs, recs[0], now), recs[1..], now);
    }
  }

  /** What one upstream message leaves in each slot of a name it mentions (or
      already held): A, AAAA and NS follow append-forever and PTR keep-first,
      over the records that name owns in the answer then additional section. */
  lemma LearnedSlots(cache: Cache, msg: Message, now: int, n: Name)
    requires n in cache || n in NamesOf(msg.rr) || n in NamesOf(msg.ar)
    ensures n in UpdateCacheRecords(cache, msg, now)
    ensures var r := UpdateCacheRecords(cache, msg, now)[n];
            var own := RecordsOf(msg.rr + msg.ar, n);
            var before := GetOrEmpty(cache, n);
            && r.a == Appended(before.a, Picked(own, PickA), now)
            && r.aaaa == Appended(before.aaaa, Picked(own, PickAaaa), now)
            && r.ns == Appended(before.ns, Picked(own, PickNs), now)
            && r.ptr == KeptFirst(before.ptr, Picked(own, PickPtr), now)
  {
    NamesOfAppend(msg.rr, msg.ar);
    var own := RecordsOf(msg.rr + msg.ar, n);
    var before := GetOrEmpty(cache, n);
    BindAllPerName(cache, msg.rr + msg.ar, now, n);
    ApplyAllA(before, own, now);
    ApplyAllAaaa(before, own, now);
    ApplyAllNs(before, own, now);
    ApplyAllPtr(before, own, now);
  }

  /** Learning keeps every record set populated: the list records it creates
      start with their first value and are only appended to. */
  lemma {:induction false} BindAllKeepsPopulated(cache: Cache, recs: seq<ResourceRecord>, now: int)
    requires PopulatedCache(cache)
    ensures PopulatedCache(BindAll(cache, recs, now))
    decreases |recs|
  {
    if recs != [] {
      var c1 := Bind(cache, recs[0], now);
      assert GetOrEmpty(cache, recs[0].name).Populated();
      assert PopulatedCache(c1);
      BindAllKeepsPopulated(c1, recs[1..], now);
    }
  }

  /** An upstream message keeps the cache populated. */
  lemma UpdateKeepsPopulated(cache: Cache, msg: Message, now: int)
    requires PopulatedCache(cache)
    ensures PopulatedCache(UpdateCacheRecords(cache, msg, now))
  {
    BindAllKeepsPopulated(cache, msg.rr + msg.ar, now);
  }

  /** Learning into a list record that has expired but has not been evicted yet
      appends to the old record, which keeps its old ttl and creation time: the
      next eviction at the same clock reading drops the freshly learned value
      together with the stale ones. */
  lemma LateLearningIsLost(rs: RecordSet, ttl: int, address: Ipv4, now: int)
    requires rs.a.Some? && rs.a.value.IsExpired(now)
    ensures UpdateA(rs, ttl, address, now).DeleteExpiredRecords(now).a.None?
  {
  }
}
