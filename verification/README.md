# Cache model of a caching DNS forwarder

The forwarder answers client DNS queries from a local TTL-bounded cache when
it can. Otherwise it relays the query to a fixed upstream resolver, relays the
reply back unmodified, and learns the A, AAAA, NS and PTR records it finds in
the reply's answer and additional sections. This project models that cache as
pure functions over immutable values. Wall-clock time is an explicit
integer parameter `now`, in whole seconds.

- `Dns` (`dns.dfy`): names as exact label sequences, the query types A, AAAA,
  NS, PTR and Other, and parsed resource records, queries, answers and
  messages. A record's data variant fixes its type, because a parser builds the
  data from the type field.
- `Records` (`records.dfy`, models `data.py`): `Cached<P>` is a cached record
  with its ttl, creation second and payload, plus its remaining ttl and expiry.
  `RecordSet` has the four optional slots, lazy eviction and the emptiness test.
  `Cache` maps names to record sets.
- `Learning` (`learning.dfy`): the per-type update rules (append-forever for
  A/AAAA/NS, keep-first for PTR) and the walk over the answer section, then
  the additional section. The file also gives closed forms (`Appended`,
  `KeptFirst`) for what a whole message leaves in each slot.
- `Resolution` (`resolution.dfy`): slot selection, the lookup with its lazy
  eviction, answer construction, and the cache-or-forward step for one query.
  The upstream round trip's outcome is a parameter.
- `Sweeper` (`sweeper.dfy`): one cycle of the expiry sweep. `SweepResult` is
  its specification. `CacheClearCycle` is the scan-then-remove algorithm,
  proved equal to it.
- `Scenarios` (`scenarios.dfy`): end-to-end behaviours for arbitrary names,
  addresses and clock readings.
- `Wrappers` (`wrappers.dfy`): `Option`.

Behaviours of the code worth noting:

- A record of an unsupported type still binds its owner name to a record set,
  because the store is a `defaultdict`. A new name therefore gets an empty set,
  which stays visible until the next sweep (`Learning.Bind`,
  `Scenarios.UncachedTypeBindsEmptySet`).
- `is_empty` is written as `not any([...])`. A present record object is always
  truthy, so this equals "all four slots absent".
- The lookup never compares the query class. Cached answers copy the query's
  class.
- The answer builder in the source branches on the query type.
  `Resolution.AddAnswerToQuery` branches on the kind of the selected record
  instead. `Resolution.GetRequiredInfo` guarantees the two agree, so the
  answers are the same.

## Model

| member | source | states |
|---|---|---|
| `Records.Cached.RemainTtl` | data.py:13-15 | the remaining ttl is zero exactly from the deadline `created + ttl` on, and before that it equals ttl minus the whole seconds elapsed |
| `Records.Cached.IsExpired` | data.py:10-11 | a record is expired exactly from its deadline `created + ttl` on |
| `Records.Evict` | data.py:25-33 | a slot survives eviction iff it is present and unexpired, and a surviving slot is unchanged |
| `Records.RecordSet.DeleteExpiredRecords` | data.py:25-33 | afterwards every present slot is unexpired; every unexpired slot is kept unchanged (payload, ttl, creation time); no slot is invented |
| `Records.RecordSet.IsEmpty` | data.py:35-36 | a record set is empty iff it equals the set with no slots |
| `Records.RemainTtlAtCreation` | data.py:5-15 | at creation time a record with ttl >= 0 has exactly its ttl left |
| `Records.RemainTtlDecays` | data.py:13-15 | after `d` more seconds the remaining ttl has dropped by `d`, floored at zero |
| `Records.RemainTtlNonIncreasing` | data.py:13-15 | the remaining ttl never increases as the clock moves forward |
| `Records.ExpiryPersists` | data.py:10-15 | once expired, a record stays expired at every later time |
| `Records.ZeroTtlExpiresAtOnce` | data.py:10-15 | a record with ttl 0 is expired from its creation on |
| `Records.DeleteExpiredIdempotent` | data.py:25-33 | eviction twice at the same `now` equals eviction once |
| `Records.DeleteExpiredLater` | data.py:25-33 | evicting at `t1` and then at a later `t2` equals evicting at `t2` only |
| `Records.EmptyAfterEviction` | data.py:25-36 | after eviction a record set is empty iff none of its slots was live |
| `Records.IsEmptyIffAllAbsent` | data.py:35-36 | empty iff the A, AAAA, NS and PTR slots are all absent |
| `Records.EvictionKeepsPopulated` | data.py:25-33 | eviction never leaves a present list record with an empty list |
| `Learning.UpdateNs` | main.py:126-129 | an absent NS slot becomes the incoming ttl, created at `now`, holding exactly `[server]`; a present one keeps its ttl and creation time and gains the server at the end; other slots unchanged |
| `Learning.UpdateA` | main.py:132-135 | the same create-if-absent-then-append rule for the A slot and its address; other slots unchanged |
| `Learning.UpdateAaaa` | main.py:138-141 | the same create-if-absent-then-append rule for the AAAA slot and its address; other slots unchanged |
| `Learning.UpdatePtr` | main.py:144-146 | a present PTR slot, expired or not, leaves the record set unchanged; an absent one becomes the incoming ttl and name created at `now`; other slots unchanged |
| `Learning.ApplyRecord` | main.py:116-123 | a record whose type is not NS, A, AAAA or PTR leaves the record set unchanged |
| `Learning.Bind` | main.py:113-123 | a record is learned under its own owner name; that name is bound afterwards even for an unsupported type, to the empty set if it was new; every other name is unchanged |
| `Learning.BindAll` | main.py:112-123 | the names bound after learning a record sequence are the old names plus every owner name in it; names not mentioned are unchanged |
| `Learning.UpdateCacheRecords` | main.py:111-123 | after a message the bound names are the old names plus the owner names of both sections; names in neither section are unchanged |
| `Learning.BindAllAppend` | main.py:112 | learning a concatenation is learning the first part, then the second |
| `Learning.AnswerThenAdditional` | main.py:111-112 | the answer section is learned completely before the additional section |
| `Learning.BindAllPerName` | main.py:112-115 | a name's final record set is its old set (or the empty set) updated by exactly the records that name owns, in their order |
| `Learning.ApplyAllNs` | main.py:126-129 | the NS slot after any record sequence is the append-forever form: all NS servers in order, under the first learning's ttl and creation time |
| `Learning.ApplyAllA` | main.py:132-135 | the A slot after any record sequence is the append-forever form: all A addresses in order, under the first learning's ttl and creation time |
| `Learning.ApplyAllAaaa` | main.py:138-141 | the AAAA slot after any record sequence is the append-forever form of its AAAA records |
| `Learning.ApplyAllPtr` | main.py:144-146 | the PTR slot after any record sequence is keep-first: a present slot never changes, and an absent one takes the first PTR record |
| `Learning.LearnedSlots` | main.py:111-146 | what one message leaves in each of a name's four slots: append-forever for A/AAAA/NS and keep-first for PTR, over the records that name owns |
| `Learning.BindAllKeepsPopulated` | main.py:111-141 | learning never leaves a list record with an empty list |
| `Learning.UpdateKeepsPopulated` | main.py:111-141 | an upstream message keeps every record set populated |
| `Learning.LateLearningIsLost` | main.py:132-135 | an address appended to an expired, not yet evicted A record is dropped by the next eviction at the same time |
| `Resolution.GetRequiredInfo` | main.py:93-102 | returns the slot of the query's type, present iff that slot is present, and returns nothing for any other type |
| `Resolution.AddAnswerToQuery` | main.py:64-90 | one answer per address or server, in list order, for A/AAAA/NS, and exactly one for PTR; each answer has the queried name and class, the record's type, and the record's remaining ttl at `now` |
| `Resolution.GetInfoFromCache` | main.py:52-61 | keys never change; an unknown name misses and changes nothing; a known name is evicted, and the eviction is stored even on a miss; a hit happens iff the asked slot was present and unexpired; a hit's answers are the ones built from the selected slot after eviction, with the queried name and type and a ttl > 0 |
| `Resolution.HitAnswers` | main.py:52-90 | per query type, a hit's answers are the stored record's addresses or servers in list order (exactly one for PTR), each with the queried name and class and the record's remaining ttl at `now` |
| `Resolution.HandleQuery` | main.py:31-49 | a hit is answered from the cache; a miss relays the upstream reply unmodified and learns from it when it parses; a timeout sends nothing; the lookup's eviction persists in every case |
| `Resolution.LookupIdempotent` | main.py:52-56 | a second lookup of the same query at the same `now` gives the same cache and the same answers |
| `Resolution.HitHasAnswers` | main.py:64-90 | on a populated cache every hit carries at least one answer |
| `Resolution.LookupKeepsPopulated` | main.py:52-56 | a lookup keeps every record set populated |
| `Resolution.HandleQueryKeepsPopulated` | main.py:31-49 | handling a query keeps every record set populated, whatever the upstream returned |
| `Sweeper.SweepResult` | main.py:153-160 | after a sweep the names are exactly those that had a live slot, each bound to its evicted set; no remaining set is empty and every remaining slot is unexpired |
| `Sweeper.CacheClearCycle` | main.py:153-160 | the scan pass (evict and mark empty names), followed by the removal pass, yields exactly the specified sweep result |
| `Sweeper.SweepLater` | main.py:153-160 | sweeping at `t1` and then at a later `t2` equals sweeping at `t2` only, so a sweep is idempotent at a fixed time |
| `Sweeper.SweepKeepsPopulated` | main.py:153-160 | a sweep keeps every record set populated |
| `Scenarios.MissThenLearn` | main.py:31-49 | an A query missing on an empty cache is relayed; afterwards the name holds one A record with ttl 60 created at that time |
| `Scenarios.HitTtlDecays` | main.py:52-73 | ten seconds later the same query hits with exactly one answer of ttl 50 |
| `Scenarios.ExpiryThenMiss` | main.py:52-61 | from 60 seconds on the A slot is evicted during lookup, the query misses, and it is forwarded again |
| `Scenarios.AppendKeepsFirstTtl` | main.py:132-135 | two answers with one address each give the list `[first, second]` under the first answer's ttl and creation time |
| `Scenarios.PtrKeepsFirst` | main.py:144-146 | a second PTR answer for the same name keeps the first target and ttl |
| `Scenarios.SweepDropsEmptyName` | main.py:153-160 | a name whose only record (NS) expired is removed by the sweep, and a later lookup finds no record set |
| `Scenarios.LearnedAddressIsServed` | main.py:52-135 | after any upstream message carrying an A record for a name, an A lookup of that name at the same time hits, and one answer carries that address, provided the name's A records in the message have positive ttls and its old A record is absent or unexpired |
| `Scenarios.UncachedTypeBindsEmptySet` | main.py:115 | a record of an unsupported type binds its new name to an empty set that never hits, and the next sweep removes it |

## Left out

- The UDP sockets, the timeouts and the serving loop (main.py:20-41) are I/O. The
  upstream round trip's outcome (timeout, or the raw reply and its parse) is a
  parameter of `Resolution.HandleQuery`.
- Parsing and packing of DNS messages (main.py:30, 48, 59, 70-89) is done by a
  foreign library. Parsed messages are values. A malformed client query is caught
  by the serving loop and never reaches the cache.
- Threads, the lock, the shutdown flag, the console loop and the sweeper's
  10-second sleep (main.py:14-15, 149-151, 163-171, 181-182) are concurrency and
  process control. One sweep cycle is one function call, and queries are
  handled one at a time.
- Loading and saving the cache snapshot (main.py:175-180, 190-194) is disk I/O
  with an opaque format.
- Float wall-clock time (data.py:7, 14): clock readings are whole seconds, and
  the elapsed time is `now - created`. The truncation of a fractional
  difference is not modelled.
- Resolution.GetInfoFromCache: evaluates eviction and every answer's ttl at one
  clock reading `now`. The source reads the clock again for each answer, so
  there a hit can report ttl 0 if a second passes between the eviction and the
  answer.
- Learning.UpdateCacheRecords: creates every record learned from one message at
  the same `now`. The source reads the clock once per created record.
- Learning.UpdateCacheRecords: assumes every A, AAAA, NS and PTR record
  carries data of its own type. In the source the A, AAAA and NS rules create
  the slot before they read the value to append (main.py:128-129, 134-135,
  140-141). If that read raises, the catch-all at main.py:40-41 swallows the
  exception. The name then keeps an empty list slot, and the rest of the
  message is skipped (main.py:112). The model has no such partial update.
  So `Records.PopulatedCache`, `Resolution.HitHasAnswers` and the lemmas that
  keep the cache populated hold only under this assumption. In the source such
  a name can later hit with no answers.
- The unused `get_cache_record` (main.py:105-108) and the log output.
