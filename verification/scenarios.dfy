/** End-to-end behaviours of the forwarder's cache, stated for arbitrary names,
    addresses and clock readings: a miss followed by learning, a hit whose ttl
    decays, expiry back to a miss, append-forever, PTR keep-first, and a sweep
    removing a name whose only record expired. */
module Scenarios {
  import opened Wrappers
  import opened Dns
  import opened Records
  import opened Learning
  import opened Resolution
  import opened Sweeper

  /** An upstream message whose answer section holds one A record. */
  function OneA(n: Name, ttl: Ttl, address: Ipv4): (msg: Message) {
    Message([ResourceRecord(n, ttl, Addr4(address))], [], [])
  }

  /** The cache after an A query for `n` missed on an empty cache at `t0` and
      the upstream answered with one A record of ttl 60. */
  function LearnedOnce(n: Name, address: Ipv4, t0: int): (cache: Cache) {
    UpdateCacheRecords(map[], OneA(n, 60, address), t0)
  }

  /** A miss on an empty cache is relayed unmodified, and the name then holds
      an A record with the upstream's ttl, created at `t0`, with one address. */
  lemma MissThenLearn(n: Name, address: Ipv4, qclass: nat, t0: int, raw: seq<byte>)
    ensures var s := HandleQuery(map[], Query(n, A, qclass), t0, Received(raw, Some(OneA(n, 60, address))));
      && s.reply == Relayed(raw)
      && s.cache == map[n := Empty.(a := Some(Cached(60, t0, [address])))]
  {
    var msg := OneA(n, 60, address);
    assert msg.rr + msg.ar == msg.rr;
  }

  /** Ten seconds later the same query is a hit answered from the cache with one
      answer, ttl 50, for the learned address. */
  lemma HitTtlDecays(n: Name, address: Ipv4, qclass: nat, t0: int)
    ensures GetInfoFromCache(LearnedOnce(n, address, t0), Query(n, A, qclass), t0 + 10).answers
         == Some([Answer(n, qclass, 50, Addr4(address))])
  {
    var msg := OneA(n, 60, address);
    assert msg.rr + msg.ar == msg.rr;
    var q := Query(n, A, qclass);
    var found := FoundA(Cached(60, t0, [address]));
    var answers := AddAnswerToQuery(q, found, t0 + 10);
    assert answers == [Answer(n, qclass, 50, Addr4(address))];
  }

  /** From sixty seconds on the A record is found expired and evicted during the
      lookup, the query misses, and a miss goes to the upstream again. */
  lemma ExpiryThenMiss(n: Name, address: Ipv4, qclass: nat, t0: int, t: int, raw: seq<byte>)
    requires t >= t0 + 60
    ensures GetInfoFromCache(LearnedOnce(n, address, t0), Query(n, A, qclass), t) == Lookup(map[n := Empty], None)
    ensures HandleQuery(LearnedOnce(n, address, t0), Query(n, A, qclass), t, Received(raw, None)).reply == Relayed(raw)
  {
    var msg := OneA(n, 60, address);
    assert msg.rr + msg.ar == msg.rr;
  }

  /** Two upstream answers carrying one A record each, learned at `t0` and then
      at `t1` with any ttl, leave both addresses in arrival order under the ttl
      and creation time of the first. */
  lemma AppendKeepsFirstTtl(n: Name, address1: Ipv4, address2: Ipv4, ttl2: Ttl, t0: int, t1: int)
    ensures var c := UpdateCacheRecords(LearnedOnce(n, address1, t0), OneA(n, ttl2, address2), t1);
      n in c && c[n].a == Some(Cached(60, t0, [address1, address2]))
  {
    var msg1 := OneA(n, 60, address1);
    var msg2 := OneA(n, ttl2, address2);
    assert msg1.rr + msg1.ar == msg1.rr;
    assert msg2.rr + msg2.ar == msg2.rr;
    var c1 := LearnedOnce(n, address1, t0);
    assert c1[n].a == Some(Cached(60, t0, [address1]));
    assert [address1] + [address2] == [address1, address2];
  }

  /** A second PTR answer for the same reverse name, with a different target
      and ttl, leaves the first target and ttl in place. */
  lemma PtrKeepsFirst(n: Name, first: Name, second: Name, ttl1: Ttl, ttl2: Ttl, t0: int, t1: int)
    ensures var m1 := Message([ResourceRecord(n, ttl1, PtrHost(first))], [], []);
      var m2 := Message([ResourceRecord(n, ttl2, PtrHost(second))], [], []);
      var c := UpdateCacheRecords(UpdateCacheRecords(map[], m1, t0), m2, t1);
      n in c && c[n].ptr == Some(Cached(ttl1 as int, t0, first))
  {
    var m1 := Message([ResourceRecord(n, ttl1, PtrHost(first))], [], []);
    var m2 := Message([ResourceRecord(n, ttl2, PtrHost(second))], [], []);
    assert m1.rr + m1.ar == m1.rr;
    assert m2.rr + m2.ar == m2.rr;
  }

  /** A name whose only record (an NS record) has expired is removed by the next
      sweep, and a later lookup of it finds no record set at all. */
  lemma SweepDropsEmptyName(cache: Cache, n: Name, rec: NSData, qtype: QType, qclass: nat, now: int)
    requires n in cache && cache[n] == Empty.(ns := Some(rec))
    requires rec.IsExpired(now)
    ensures n !in SweepResult(cache, now)
    ensures GetInfoFromCache(SweepResult(cache, now), Query(n, qtype, qclass), now)
         == Lookup(SweepResult(cache, now), None)
  {
  }

  /** A record of an uncached type binds its owner name to an empty record set
      that no lookup hits, and the next sweep removes that name again. */
  lemma UncachedTypeBindsEmptySet(n: Name, ttl: Ttl, raw: seq<byte>, q: Query, now: int)
    requires q.qname == n
    ensures var c := UpdateCacheRecords(map[], Message([ResourceRecord(n, ttl, Opaque(raw))], [], []), now);
      && c == map[n := Empty]
      && GetInfoFromCache(c, q, now).answers.None?
      && n !in SweepResult(c, now)
  {
    var m := Message([ResourceRecord(n, ttl, Opaque(raw))], [], []);
    assert m.rr + m.ar == m.rr;
  }

  /** A record of `recs` owned by `n` is among `RecordsOf(recs, n)`. */
  lemma {:induction false} InRecordsOf(recs: seq<ResourceRecord>, n: Name, j: nat)
    requires j < |recs| && recs[j].name == n
    ensures recs[j] in RecordsOf(recs, n)
    decreases |recs|
  {
    if j > 0 {
      InRecordsOf(recs[1..], n, j - 1);
    }
  }

  /** The records `RecordsOf(recs, n)` keeps are records of `recs`. */
  lemma {:induction false} RecordsOfFrom(recs: seq<ResourceRecord>, n: Name, rec: ResourceRecord)
    requires rec in RecordsOf(recs, n)
    ensures rec in recs && rec.name == n
    decreases |recs|
  {
    if recs[0].name == n && rec == recs[0] {
    } else {
      RecordsOfFrom(recs[1..], n, rec);
    }
  }

  /** The address of every A record among `recs` is among the learned values. */
  lemma {:induction false} PickedAddress(recs: seq<ResourceRecord>, rec: ResourceRecord)
    requires rec in recs && rec.rdata.Addr4?
    ensures rec.rdata.v4 in Values(Picked(recs, PickA))
    decreases |recs|
  {
    var rest := Picked(recs[1..], PickA);
    if recs[0] == rec {
      assert Picked(recs, PickA) == [(rec.ttl as int, rec.rdata.v4)] + rest;
      assert Values(Picked(recs, PickA))[0] == rec.rdata.v4;
    } else {
      PickedAddress(recs[1..], rec);
      var k :| 0 <= k < |Values(rest)| && Values(rest)[k] == rec.rdata.v4;
      if recs[0].rdata.Addr4? {
        assert Picked(recs, PickA) == [(recs[0].ttl as int, recs[0].rdata.v4)] + rest;
        assert Values(Picked(recs, PickA))[k + 1] == rec.rdata.v4;
      } else {
        assert Picked(recs, PickA) == rest;
      }
    }
  }

  /** The first learned A item comes from some A record among `recs`. */
  lemma {:induction false} FirstPickedTtl(recs: seq<ResourceRecord>)
    requires |Picked(recs, PickA)| > 0
    ensures exists rec :: rec in recs && rec.rdata.Addr4? && rec.ttl as int == Picked(recs, PickA)[0].0
    decreases |recs|
  {
    if recs[0].rdata.Addr4? {
      assert recs[0] in recs;
    } else {
      assert Picked(recs, PickA) == Picked(recs[1..], PickA);
      FirstPickedTtl(recs[1..]);
      var rec :| rec in recs[1..] && rec.rdata.Addr4? && rec.ttl as int == Picked(recs[1..], PickA)[0].0;
      assert rec in recs;
    }
  }

  /** What is learned is served: after an upstream message carrying an A record
      for `n`, an A query for `n` at the same clock reading hits and its answers
      include that address. This needs every A record the message holds for
      `n` to have a positive ttl (the first one fixes the record's ttl) and the
      name's old A record, if any, to be unexpired (appending to an expired one
      is lost). */
  lemma LearnedAddressIsServed(cache: Cache, msg: Message, now: int, rec: ResourceRecord, qclass: nat)
    requires rec in msg.rr + msg.ar && rec.rdata.Addr4?
    requires forall r :: r in msg.rr + msg.ar && r.name == rec.name && r.rdata.Addr4? ==> r.ttl > 0
    requires SlotLive(GetOrEmpty(cache, rec.name).a, now)
    ensures var l := GetInfoFromCache(UpdateCacheRecords(cache, msg, now), Query(rec.name, A, qclass), now);
      && l.answers.Some?
      && exists i :: 0 <= i < |l.answers.value| && l.answers.value[i].rdata == rec.rdata
  {
    var n := rec.name;
    var recs := msg.rr + msg.ar;
    var own := RecordsOf(recs, n);
    var j :| 0 <= j < |recs| && recs[j] == rec;
    InRecordsOf(recs, n, j);
    NamesOfAppend(msg.rr, msg.ar);
    assert n in NamesOf(msg.rr) || n in NamesOf(msg.ar);
    LearnedSlots(cache, msg, now, n);
    var c := UpdateCacheRecords(cache, msg, now);
    var before := GetOrEmpty(cache, n);
    var items := Picked(own, PickA);
    PickedAddress(own, rec);
    assert c[n].a == Appended(before.a, items, now);
    FirstPickedTtl(own);
    var first :| first in own && first.rdata.Addr4? && first.ttl as int == items[0].0;
    RecordsOfFrom(recs, n, first);
    var s := c[n].a.value;
    assert !s.IsExpired(now);
    assert rec.rdata.v4 in s.payload;
    var k :| 0 <= k < |s.payload| && s.payload[k] == rec.rdata.v4;
    var l := GetInfoFromCache(c, Query(n, A, qclass), now);
    assert l.answers.value[k].rdata == rec.rdata;
  }
}
