# Caching DNS forwarding proxy: the cache

A model of the cache at the heart of a small caching DNS forwarding proxy
(`caching_dns.py`). The proxy listens for UDP queries. It answers a query from
its cache while the cached entry is fresh. Otherwise it forwards the query to
an upstream resolver, caches the answer and relays it verbatim. A sweeper
thread deletes expired entries.

The cache is a two-level map: domain name -> query type -> entry. An entry
holds the answer's record data in upstream order, an absolute expiry time and
the ttl the upstream reported. The model covers:

- the hit/miss rule of the serving loop (`Lookup`, `Serve`, `CachingDns.WorkingDnsStep`);
- the forward path that writes the cache (`Forward`, `CachingDns.MakeRequest`);
- reading the ttl and record data out of an upstream answer (`GetResponseInfo`);
- building a response from a cache entry (`PrepareDnsResponse`);
- one pass of the expiry sweep (`Swept`, `CachingDns.ExpiredRecords`,
  `CachingDns.SearchExpiredRecords`).

Files:

- `wrappers.dfy`: module `Wrappers`, the `Option` datatype.
- `dns_message.dfy`: module `DnsMessage`, the parsed DNS messages the proxy
  sees through its DNS library. Record data and headers are opaque payloads.
- `caching_dns.dfy`: module `DnsProxy`. It holds the cache entry, the
  specification functions over the cache as a value, and the class
  `CachingDns` whose field `dnsCache` the methods update in place.
- `cache_lemmas.dfy`: module `CacheLemmas`, the properties.

Time is an integer clock in milliseconds, passed in as a parameter. The code
reads the clock twice when it forwards a query: once for the hit test
(caching_dns.py:198) and again after the upstream reply has arrived
(caching_dns.py:93). The model takes both readings, `now` and `replyTime`.
The model keeps the code's behaviour, including where it departs from what a
DNS cache usually does:

- The expiry time is `replyTime + ttl` with the ttl counted in
  **milliseconds** (`timedelta(milliseconds=ttl)`, caching_dns.py:94). DNS
  ttls are seconds. `CacheLemmas.TtlCountedInMilliseconds` shows the
  consequence: an answer with ttl 300 is forwarded again one second later.
- Insertion uses `setdefault` at both levels (caching_dns.py:96-97), so an
  existing entry is **never overwritten**. A stale entry therefore stays
  until a sweep removes it, and until then every query for that key is
  forwarded and its answer is not cached (`CacheLemmas.StaleEntryStaysStale`).
- An entry is served while `time_end > now` (caching_dns.py:198). The sweep
  removes entries with `time_end <= now` (caching_dns.py:165). The two tests
  are exact complements (`DnsProxy.Lookup`).
- A sweep deletes inner keys only. Domain keys stay behind, possibly with
  empty inner maps.
- An upstream answer with an empty answer section raises inside
  `make_request`, and the handler swallows the exception. Nothing is cached
  and nothing is relayed to the client, although relaying the answer
  uncached would be the usual behaviour.

## Model

| member | source | states |
|---|---|---|
| `DnsProxy.GetRequestInfo` | caching_dns.py:25-32 | the cache key of a query is its question's name and type |
| `DnsProxy.RDataList` | caching_dns.py:42-46 | the list has one record data per answer record, in the records' order |
| `DnsProxy.GetResponseInfo` | caching_dns.py:35-47 | defined exactly when the answer section is non-empty; then the ttl is the first record's and the data list matches the records in length and order |
| `DnsProxy.Answers` | caching_dns.py:121-128 | one answer per cached record data, in stored order, each with the question's name and type and the cached ttl |
| `DnsProxy.PrepareDnsResponse` | caching_dns.py:103-129 | the response carries the request's header and question, then exactly one answer per stored record data, in stored order, with the question's name and type and the stored ttl |
| `DnsProxy.Lookup` | caching_dns.py:197-198 | a query is a hit exactly when the domain key exists, the type key exists under it and `time_end > now`; a hit yields the stored entry; for a present key, a miss is exactly the sweep's expiry test `time_end <= now` (caching_dns.py:165), so the two boundaries are complements |
| `DnsProxy.ExpiryTime` | caching_dns.py:93-94 | the expiry time is never before the receive time (the ttl is added as milliseconds) |
| `DnsProxy.NewEntry` | caching_dns.py:92-97 | the new entry keeps the answer's ttl and record data and is fresh at its receive time exactly when the ttl is positive |
| `DnsProxy.SetDefaultInsert` | caching_dns.py:96-97 | after the two `setdefault` calls the domain key and the type key under it exist, and no other domain key appears |
| `DnsProxy.Swept` | caching_dns.py:162-171 | a sweep pass keeps every domain key |
| `DnsProxy.Forward` | caching_dns.py:88-101 | when nothing is relayed the cache is unchanged; when something is relayed it is the upstream datagram verbatim |
| `DnsProxy.Serve` | caching_dns.py:194-221 | a query is answered from the cache exactly when `Lookup` hits at `now`, with the response built from the stored entry and the cache unchanged; on a miss or a stale entry the outcome is that of `Forward` with the reply received at `replyTime` |
| `DnsProxy.CachingDns.constructor` | caching_dns.py:53-57 | the proxy starts from the cache read back from the snapshot |
| `DnsProxy.CachingDns.MakeRequest` | caching_dns.py:71-101 | the new cache and what is relayed are those of `Forward` on the old cache |
| `DnsProxy.CachingDns.WorkingDnsStep` | caching_dns.py:194-221 | the new cache and what is sent are those of `Serve` on the old cache, with the hit test at `now` and the forward at `replyTime` |
| `DnsProxy.CachingDns.ExpiredRecords` | caching_dns.py:162-166 | the collected list holds exactly the keys whose entry has `time_end <= now`, each once |
| `DnsProxy.CachingDns.SearchExpiredRecords` | caching_dns.py:157-171 | after one pass the cache is `Swept` of the old cache at `now` |
| `CacheLemmas.InsertWhenAbsent` | caching_dns.py:96-97 | with no entry for the key the new entry is stored there, the domain keys grow by at most that domain, and every other entry is unchanged |
| `CacheLemmas.InsertNeverOverwrites` | caching_dns.py:96-97 | with an entry for the key, fresh or stale, the whole cache is unchanged |
| `CacheLemmas.InsertPreservesWellFormed` | caching_dns.py:96-97 | inserting an answer with records keeps every stored entry non-empty |
| `CacheLemmas.ForwardFailsWithoutAnswer` | caching_dns.py:47 | nothing is relayed exactly when the upstream datagram is empty, unparseable or has no answer record, and then the cache is unchanged |
| `CacheLemmas.ForwardStoresAnswer` | caching_dns.py:90-99 | a successful forward into an empty slot stores the record data in order, expiry `now + ttl` and the first record's ttl, and relays the datagram |
| `CacheLemmas.ForwardLeavesOtherKeys` | caching_dns.py:93-97 | a forward changes no entry under any other key |
| `CacheLemmas.ForwardPreservesWellFormed` | caching_dns.py:90-101 | the forward path never stores an entry without records |
| `CacheLemmas.FreshnessWindow` | caching_dns.py:94-97 | an answer with ttl T stored at `now` is served at time t exactly when t < now + T, and it is the stored entry that is served |
| `CacheLemmas.LookupMonotone` | caching_dns.py:198 | a hit at `now` is the same hit at every earlier time, and a miss at `now` is a miss at every later time |
| `CacheLemmas.TtlCountedInMilliseconds` | caching_dns.py:94 | an answer with ttl 300 is served 299 ms later and forwarded again 1000 ms later |
| `CacheLemmas.ServeKeepsPresentEntries` | caching_dns.py:197-221 | handling a query whose key has an entry, fresh or stale, never changes the cache |
| `CacheLemmas.StaleEntryStaysStale` | caching_dns.py:197-221 | a query for a stale key is forwarded, and the key is still a miss at every later time until a sweep |
| `CacheLemmas.AnswersCarryRequestKey` | caching_dns.py:25-32 | every answer served from the cache carries the name and type of the cache key the query was looked up under |
| `CacheLemmas.ReplayRoundTrip` | caching_dns.py:115-129 | reading back a response built from an entry yields the entry's ttl and record data in stored order |
| `CacheLemmas.CachedAnswerReplaysUpstream` | caching_dns.py:90-129 | a query forwarded into an empty slot and repeated before `replyTime + ttl` is answered from the cache with the upstream's ttl and record data in order, under the query's name and type |
| `CacheLemmas.SweepSound` | caching_dns.py:162-171 | after a sweep at `now` no entry with `time_end <= now` remains |
| `CacheLemmas.SweepComplete` | caching_dns.py:162-171 | a sweep keeps every domain key and, unchanged, exactly the entries with `time_end > now` |
| `CacheLemmas.SweepIdempotent` | caching_dns.py:162-171 | two sweeps at the same `now` give the same cache as one |
| `CacheLemmas.SweepInvisibleToLaterLookups` | caching_dns.py:162-171 | every lookup at `now` or later gives the same result before and after a sweep at `now` |
| `CacheLemmas.SweepPreservesWellFormed` | caching_dns.py:162-171 | a sweep keeps every stored entry non-empty |
| `CacheLemmas.SweepLoadedSnapshot` | caching_dns.py:162-171 | a loaded cache with one fresh and one stale entry under a domain keeps, after a sweep, the fresh entry and the domain key only |

## Left out

- UDP sockets, `bind`, `recvfrom`/`sendto` and the receive timeout and
  connection-reset handling of the serving loop (caching_dns.py:177-193,
  222-225): network I/O. A received query enters the model already parsed,
  and the upstream's reply is a parameter of `MakeRequest`.
- The blocking upstream `recvfrom` (caching_dns.py:89) has no timeout in the
  code; waiting forever is not modelled.
- Threads, the `running` flag, the console `exit` loop and process exit
  (caching_dns.py:131-161): concurrency and console interaction. The sweeper
  and the serving loop share `dns_cache` without a lock; the model is
  sequential, so that race is not captured. A sweep pass is modelled once;
  the `while self.running` repetition is not.
- Reading and writing the pickle snapshot (caching_dns.py:11-22, 63-69): file
  I/O through a foreign serialiser. The constructor takes the loaded map as a
  parameter; an empty file yields the empty map.
- DNS parsing and packing by the DNS library (`DNSRecord.parse`, `pack`,
  `QTYPE`, `RR`): a foreign library. Messages are modelled as parsed values;
  `PrepareDnsResponse` returns the message before packing. The query type is
  used as the cache key directly, instead of its `QTYPE` name.
- A query that fails to parse, or has no question: in the code the exception
  escapes the serving loop (only socket errors are caught) and ends that
  thread. A request is modelled as a parsed header and one question.
- `datetime.now()`: replaced by millisecond clock readings passed in as
  parameters (`now` for the hit test, `replyTime` for the expiry of a
  forwarded answer). The sweep samples the clock once per entry
  (caching_dns.py:165); the model uses one `now` per pass.
- The order in which the sweep visits the dictionary (insertion order in the
  code) is not modelled: `ExpiredRecords` visits keys in an arbitrary order.
  The set of collected keys, and so the result of the pass, does not depend
  on it.
- The diagnostic `print` calls (caching_dns.py:101, 170, 199): console output.
- `dns_task.py`: command-line glue that only constructs the proxy.
