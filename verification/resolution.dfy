/** The read path: choosing the slot a query asks for, lazy eviction on lookup,
    building the answer list for a hit, and the cache-or-forward decision for
    one client query. */
module Resolution {
  import opened Wrappers
  import opened Dns
  import opened Records
  import opened Learning

  /** The cached record a query selected, tagged with its kind. */
  datatype Found =
    | FoundA(a: AData)
    | FoundAaaa(aaaa: AAAAData)
    | FoundNs(ns: NSData)
    | FoundPtr(ptr: PTRData)
  {
    function Type(): (t: QType) {
      match this
      case FoundA(_) => A
      case FoundAaaa(_) => AAAA
      case FoundNs(_) => NS
      case FoundPtr(_) => PTR
    }

    function RemainTtl(now: int): (r: nat) {
      match this
      case FoundA(c) => c.RemainTtl(now)
      case FoundAaaa(c) => c.RemainTtl(now)
      case FoundNs(c) => c.RemainTtl(now)
      case FoundPtr(c) => c.RemainTtl(now)
    }
  }

  /** The slot matching the query type; nothing for any other type. */
  function GetRequiredInfo(rs: RecordSet, qtype: QType): (r: Option<Found>)
    ensures qtype.Other? ==> r.None?
    ensures r.Some? ==> r.value.Type() == qtype
    ensures qtype == A ==> (r.Some? <==> rs.a.Some?) && (r.Some? ==> r.value.a == rs.a.value)
    ensures qtype == AAAA ==> (r.Some? <==> rs.aaaa.Some?) && (r.Some? ==> r.value.aaaa == rs.aaaa.value)
    ensures qtype == NS ==> (r.Some? <==> rs.ns.Some?) && (r.Some? ==> r.value.ns == rs.ns.value)
    ensures qtype == PTR ==> (r.Some? <==> rs.ptr.Some?) && (r.Some? ==> r.value.ptr == rs.ptr.value)
  {
    match qtype
    case A => if rs.a.Some? then Some(FoundA(rs.a.value)) else None
    case AAAA => if rs.aaaa.Some? then Some(FoundAaaa(rs.aaaa.value)) else None
    case NS => if rs.ns.Some? then Some(FoundNs(rs.ns.value)) else None
    case PTR => if rs.ptr.Some? then Some(FoundPtr(rs.ptr.value)) else None
    case Other => None
  }

  /** The stored record set holds a slot of type `qtype` that is unexpired at
      `now`, before any eviction. */
  predicate Serves(rs: RecordSet, qtype: QType, now: int) {
    match qtype
    case A => rs.a.Some? && !rs.a.value.IsExpired(now)
    case AAAA => rs.aaaa.Some? && !rs.aaaa.value.IsExpired(now)
    case NS => rs.ns.Some? && !rs.ns.value.IsExpired(now)
    case PTR => rs.ptr.Some? && !rs.ptr.value.IsExpired(now)
    case Other => false
  }

  /** One answer per item, in order, all for the queried name and class. */
  function AnswersFor<T>(q: Query, ttl: nat, items: seq<T>, wrap: T -> RData): (answers: seq<Answer>)
    ensures |answers| == |items|
    ensures forall i :: 0 <= i < |items| ==> answers[i] == Answer(q.qname, q.qclass, ttl, wrap(items[i]))
  {
    seq(|items|, i requires 0 <= i < |items| => Answer(q.qname, q.qclass, ttl, wrap(items[i])))
  }

  /** The answers added to a reply from a selected record: one per address or
      server, in list order, for A, AAAA and NS, and exactly one for PTR. Every
      answer is for the queried name and class, has the record's type, and
      carries the record's remaining ttl at `now`, not its original ttl. */
  function AddAnswerToQuery(q: Query, found: Found, now: int): (answers: seq<Answer>)
    ensures found.FoundA? ==> |answers| == |found.a.payload|
    ensures found.FoundA? ==> forall i :: 0 <= i < |answers| ==> answers[i].rdata == Addr4(found.a.payload[i])
    ensures found.FoundAaaa? ==> |answers| == |found.aaaa.payload|
    ensures found.FoundAaaa? ==> forall i :: 0 <= i < |answers| ==> answers[i].rdata == Addr6(found.aaaa.payload[i])
    ensures found.FoundNs? ==> |answers| == |found.ns.payload|
    ensures found.FoundNs? ==> forall i :: 0 <= i < |answers| ==> answers[i].rdata == NsHost(found.ns.payload[i])
    ensures found.FoundPtr? ==> |answers| == 1 && answers[0].rdata == PtrHost(found.ptr.payload)
    ensures forall i :: 0 <= i < |answers| ==>
      && answers[i].rname == q.qname
      && answers[i].rclass == q.qclass
      && answers[i].ttl == found.RemainTtl(now)
      && answers[i].rdata.Type() == found.Type()
  {
    var ttl := found.RemainTtl(now);
    match found
    case FoundA(c) => AnswersFor(q, ttl, c.payload, (x: Ipv4) => Addr4(x))
    case FoundAaaa(c) => AnswersFor(q, ttl, c.payload, (x: Ipv6) => Addr6(x))
    case FoundNs(c) => AnswersFor(q, ttl, c.payload, (x: Name) => NsHost(x))
    case FoundPtr(c) => [Answer(q.qname, q.qclass, ttl, PtrHost(c.payload))]
  }

  /** The cache after a lookup, and the answers when the lookup was a hit. */
  datatype Lookup = Lookup(cache: Cache, answers: Option<seq<Answer>>)

  /** Looks a query up. An unknown name is a miss that changes nothing (the read
      path never binds a name). A known name has its expired slots evicted
      first, which is stored even on a miss; the query hits exactly when the
      slot it asks for was present and unexpired at `now`. A hit's answers are
      the ones built from that slot after eviction; they are for the queried
      name and type and carry a strictly positive ttl. */
  function GetInfoFromCache(cache: Cache, q: Query, now: int): (r: Lookup)
    ensures r.cache.Keys == cache.Keys
    ensures q.qname !in cache ==> r == Lookup(cache, None)
    ensures q.qname in cache ==> r.cache == cache[q.qname := cache[q.qname].DeleteExpiredRecords(now)]
    ensures r.answers.Some? <==> q.qname in cache && Serves(cache[q.qname], q.qtype, now)
    ensures r.answers.Some? ==> forall i :: 0 <= i < |r.answers.value| ==>
      && r.answers.value[i].rname == q.qname
      && r.answers.value[i].rdata.Type() == q.qtype
      && r.answers.value[i].ttl > 0
    ensures r.answers.Some? ==> q.qname in r.cache && GetRequiredInfo(r.cache[q.qname], q.qtype).Some?
    ensures r.answers.Some? ==>
      r.answers.value == AddAnswerToQuery(q, GetRequiredInfo(r.cache[q.qname], q.qtype).value, now)
  {
    if q.qname !in cache then Lookup(cache, None)
    else
      var rs := cache[q.qname].DeleteExpiredRecords(now);
      var evicted := cache[q.qname := rs];
      match GetRequiredInfo(rs, q.qtype)
      case None => Lookup(evicted, None)
      case Some(found) => Lookup(evicted, Some(AddAnswerToQuery(q, found, now)))
  }

  /** What the upstream round trip of a miss produced: nothing before the
      timeout, or the raw reply together with its parse (None when the reply
      could not be parsed). */
  datatype Upstream = Timeout | Received(raw: seq<byte>, parsed: Option<Message>)

  /** What the client is sent for one query. */
  datatype Reply =
    | FromCache(query: Query, answers: seq<Answer>)  // the query with the cached answers added
    | Relayed(raw: seq<byte>)                         // the upstream reply, unmodified
    | NoReply

  datatype Step = Step(cache: Cache, reply: Reply)

  /** Handles one client query at clock reading `now`. A hit is answered from
      the cache and the upstream is not used. On a miss the upstream reply is
      relayed unmodified and, when it parses, learned from; on a timeout no
      reply is sent. Either way the lookup's eviction stays in effect, and a
      reply that does not parse changes nothing more. */
  function HandleQuery(cache: Cache, q: Query, now: int, upstream: Upstream): (r: Step)
    ensures var l := GetInfoFromCache(cache, q, now);
      && (l.answers.Some? ==> r == Step(l.cache, FromCache(q, l.answers.value)))
      && (l.answers.None? && upstream.Timeout? ==> r == Step(l.cache, NoReply))
      && (l.answers.None? && upstream.Received? ==> r.reply == Relayed(upstream.raw))
      && (l.answers.None? && upstream.Received? && upstream.parsed.None? ==> r.cache == l.cache)
      && (l.answers.None? && upstream.Received? && upstream.parsed.Some? ==>
            r.cache == UpdateCacheRecords(l.cache, upstream.parsed.value, now))
  {
    var l := GetInfoFromCache(cache, q, now);
    if l.answers.Some? then Step(l.cache, FromCache(q, l.answers.value))
    else
      match upstream
      case Timeout => Step(l.cache, NoReply)
      case Received(raw, parsed) =>
        if parsed.None? then Step(l.cache, Relayed(raw))
        else Step(UpdateCacheRecords(l.cache, parsed.value, now), Relayed(raw))
  }

  /** Looking the same query up twice at one clock reading gives the same
      result: the second eviction finds nothing more to remove. */
  lemma LookupIdempotent(cache: Cache, q: Query, now: int)
    ensures GetInfoFromCache(GetInfoFromCache(cache, q, now).cache, q, now) == GetInfoFromCache(cache, q, now)
  {
    if q.qname in cache {
      DeleteExpiredIdempotent(cache[q.qname], now);
    }
  }

  /** On a populated cache a hit always carries at least one answer. */
  lemma HitHasAnswers(cache: Cache, q: Query, now: int)
    requires PopulatedCache(cache)
    requires GetInfoFromCache(cache, q, now).answers.Some?
    ensures |GetInfoFromCache(cache, q, now).answers.value| > 0
  {
    EvictionKeepsPopulated(cache[q.qname], now);
  }

  /** A lookup keeps the cache populated. */
  lemma LookupKeepsPopulated(cache: Cache, q: Query, now: int)
    requires PopulatedCache(cache)
    ensures PopulatedCache(GetInfoFromCache(cache, q, now).cache)
  {
    if q.qname in cache {
      EvictionKeepsPopulated(cache[q.qname], now);
    }
  }

  /** Handling a query keeps the cache populated, whatever the upstream did. */
  lemma HandleQueryKeepsPopulated(cache: Cache, q: Query, now: int, upstream: Upstream)
    requires PopulatedCache(cache)
    ensures PopulatedCache(HandleQuery(cache, q, now, upstream).cache)
  {
    LookupKeepsPopulated(cache, q, now);
    var l := GetInfoFromCache(cache, q, now);
    if upstream.Received? && upstream.parsed.Some? {
      UpdateKeepsPopulated(l.cache, upstream.parsed.value, now);
    }
  }

  /** A hit's answers, per query type, in terms of the record stored before the
      lookup: one answer per stored address or server in list order (exactly
      one for PTR), each for the queried name and class and carrying that
      record's remaining ttl at `now`. */
  lemma HitAnswers(cache: Cache, q: Query, now: int)
    requires GetInfoFromCache(cache, q, now).answers.Some?
    ensures q.qname in cache
    ensures var answers := GetInfoFromCache(cache, q, now).answers.value; var rs := cache[q.qname];
      q.qtype == A ==> (
        && rs.a.Some? && |answers| == |rs.a.value.payload|
        && forall i :: 0 <= i < |answers| ==>
             answers[i] == Answer(q.qname, q.qclass, rs.a.value.RemainTtl(now), Addr4(rs.a.value.payload[i])))
    ensures var answers := GetInfoFromCache(cache, q, now).answers.value; var rs := cache[q.qname];
      q.qtype == AAAA ==> (
        && rs.aaaa.Some? && |answers| == |rs.aaaa.value.payload|
        && forall i :: 0 <= i < |answers| ==>
             answers[i] == Answer(q.qname, q.qclass, rs.aaaa.value.RemainTtl(now), Addr6(rs.aaaa.value.payload[i])))
    ensures var answers := GetInfoFromCache(cache, q, now).answers.value; var rs := cache[q.qname];
      q.qtype == NS ==> (
        && rs.ns.Some? && |answers| == |rs.ns.value.payload|
        && forall i :: 0 <= i < |answers| ==>
             answers[i] == Answer(q.qname, q.qclass, rs.ns.value.RemainTtl(now), NsHost(rs.ns.value.payload[i])))
    ensures var answers := GetInfoFromCache(cache, q, now).answers.value; var rs := cache[q.qname];
      q.qtype == PTR ==> (
        && rs.ptr.Some?
        && answers == [Answer(q.qname, q.qclass, rs.ptr.value.RemainTtl(now), PtrHost(rs.ptr.value.payload))])
  {
  }
}
