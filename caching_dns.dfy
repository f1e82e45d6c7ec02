/**
 * The cache of the caching DNS forwarding proxy (caching_dns.py).
 *
 * The cache is a two-level map, domain name -> query type -> entry, where an
 * entry is the triple [r_data, time_end, ttl].  Time is an integer clock in
 * milliseconds handed in by the caller.  The proxy writes an entry when an
 * upstream answer arrives (with `setdefault` at both levels, so an existing
 * entry is never replaced), serves a query from the cache while
 * `time_end > now`, and a sweeper deletes every entry with `time_end <= now`.
 */
module DnsProxy {
  import opened Wrappers
  import opened DnsMessage

  /** One cache entry: the answers' record data in upstream order, the
      absolute expiry time in milliseconds and the ttl the upstream reported. */
  datatype CacheEntry = CacheEntry(rData: seq<RData>, timeEnd: int, ttl: nat)

  /** domain name -> query type -> entry */
  type Cache = map<DomainName, map<QType, CacheEntry>>

  /** A cache key: the (domain name, query type) pair the sweeper collects. */
  type Key = (DomainName, QType)

  /** What the proxy keeps of an upstream answer: the first record's ttl and
      every record's data. */
  datatype ResponseInfo = ResponseInfo(ttl: nat, rData: seq<RData>)

  /** What came back on the upstream socket: the raw datagram, and the parsed
      message or None when the DNS library cannot parse it. */
  datatype UpstreamReply = UpstreamReply(raw: Bytes, parsed: Option<Message>)

  /** A datagram sent back to the client: a response built from the cache, or
      the upstream's answer relayed byte for byte. */
  datatype Outgoing = CachedAnswer(response: Message) | Relayed(raw: Bytes)

  /** The cache and what was sent to the client after one step of the proxy. */
  datatype Outcome = Outcome(cache: Cache, sent: Option<Outgoing>)

  // ---------------------------------------------------------------------
  // Reading a request and an upstream answer
  // ---------------------------------------------------------------------

  /** The cache key of a request: its question's name and type. */
  function GetRequestInfo(request: Request): (k: Key)
    ensures k.0 == request.q.qname && k.1 == request.q.qtype
  {
    (request.q.qname, request.q.qtype)
  }

  /** The record data of every answer record, in the records' order. */
  function RDataList(rrs: seq<ResourceRecord>): (r: seq<RData>)
    ensures |r| == |rrs|
    ensures forall i :: 0 <= i < |rrs| ==> r[i] == rrs[i].rdata
  {
    if rrs == [] then [] else [rrs[0].rdata] + RDataList(rrs[1..])
  }

  /** The ttl of the first answer record and the data of all of them; None
      when the answer section is empty (the source's index error). */
  function GetResponseInfo(response: Message): (r: Option<ResponseInfo>)
    ensures r.Some? <==> |response.rr| > 0
    ensures r.Some? ==> r.value.ttl == response.rr[0].ttl
    ensures r.Some? ==> |r.value.rData| == |response.rr|
    ensures r.Some? ==> forall i :: 0 <= i < |response.rr| ==> r.value.rData[i] == response.rr[i].rdata
  {
    if |response.rr| == 0 then None
    else Some(ResponseInfo(response.rr[0].ttl, RDataList(response.rr)))
  }

  // ---------------------------------------------------------------------
  // Building a response from the cache
  // ---------------------------------------------------------------------

  /** One answer record per cached record data, each with the question's name
      and type and the cached ttl. */
  function Answers(question: Question, rData: seq<RData>, ttl: nat): (r: seq<ResourceRecord>)
    ensures |r| == |rData|
    ensures forall i :: 0 <= i < |rData| ==>
      r[i] == ResourceRecord(question.qname, question.qtype, ttl, rData[i])
  {
    if rData == [] then []
    else [ResourceRecord(question.qname, question.qtype, ttl, rData[0])] + Answers(question, rData[1..], ttl)
  }

  /** The response served from a cache entry: the request's header and
      question, then the entry's records replayed in stored order. */
  function PrepareDnsResponse(request: Request, entry: CacheEntry): (r: Message)
    ensures r.header == request.header && r.questions == [request.q]
    ensures |r.rr| == |entry.rData|
    ensures forall i :: 0 <= i < |entry.rData| ==>
      r.rr[i] == ResourceRecord(request.q.qname, request.q.qtype, entry.ttl, entry.rData[i])
  {
    Message(request.header, [request.q], Answers(request.q, entry.rData, entry.ttl))
  }

  // ---------------------------------------------------------------------
  // The cache as a value
  // ---------------------------------------------------------------------

  /** Every entry holds at least one record: no empty answer is ever stored. */
  ghost predicate WellFormed(c: Cache)
  {
    forall d, q :: d in c && q in c[d] ==> |c[d][q].rData| > 0
  }

  /** An entry is served while its expiry time lies strictly after `now`. */
  predicate Fresh(e: CacheEntry, now: int)
  {
    e.timeEnd > now
  }

  /** The entry a query is served from, or None when the query is forwarded:
      the domain is missing, the type is missing under it, or the entry is
      stale. */
  function Lookup(c: Cache, domain: DomainName, qtype: QType, now: int): (r: Option<CacheEntry>)
    ensures r.Some? <==> domain in c && qtype in c[domain] && c[domain][qtype].timeEnd > now
    ensures r.Some? ==> r.value == c[domain][qtype]
    ensures domain in c && qtype in c[domain] ==> (r.None? <==> Expired(c, (domain, qtype), now))
  {
    if domain in c && qtype in c[domain] && Fresh(c[domain][qtype], now)
    then Some(c[domain][qtype])
    else None
  }

  /** The expiry time of an answer received at `now`: the ttl is added as a
      number of MILLISECONDS, as the source does. */
  function ExpiryTime(now: int, ttl: nat): (t: int)
    ensures t >= now
  {
    now + ttl
  }

  /** The entry written for an upstream answer received at `now`. */
  function NewEntry(info: ResponseInfo, now: int): (e: CacheEntry)
    ensures e.rData == info.rData && e.ttl == info.ttl
    ensures Fresh(e, now) <==> info.ttl > 0
  {
    CacheEntry(info.rData, ExpiryTime(now, info.ttl), info.ttl)
  }

  /** `setdefault(domain, {})` followed by `setdefault(qtype, entry)`:
      the entry is written only when (domain, qtype) has none. */
  function SetDefaultInsert(c: Cache, domain: DomainName, qtype: QType, entry: CacheEntry): (r: Cache)
    ensures r.Keys == c.Keys + {domain}
    ensures qtype in r[domain]
  {
    var withDomain := if domain in c then c else c[domain := map[]];
    if qtype in withDomain[domain] then withDomain
    else withDomain[domain := withDomain[domain][qtype := entry]]
  }

  /** The entry at `k` is stale at `now`: the sweeper collects it. */
  predicate Expired(c: Cache, k: Key, now: int)
  {
    k.0 in c && k.1 in c[k.0] && c[k.0][k.1].timeEnd <= now
  }

  /** The cache after one sweep pass at `now`: every stale entry gone, every
      domain key kept (possibly with an empty inner map). */
  function Swept(c: Cache, now: int): (r: Cache)
    ensures r.Keys == c.Keys
  {
    map d | d in c :: map q | q in c[d] && c[d][q].timeEnd > now :: c[d][q]
  }

  /** The cache with the inner keys of `ks` deleted, domain keys kept. */
  function Without(c: Cache, ks: seq<Key>): (r: Cache)
    ensures r.Keys == c.Keys
  {
    map d | d in c :: map q | q in c[d] && (d, q) !in ks :: c[d][q]
  }

  /** No key occurs twice. */
  predicate Distinct(ks: seq<Key>)
  {
    forall i, j :: 0 <= i < j < |ks| ==> ks[i] != ks[j]
  }

  /** Deleting no key leaves the cache as it is. */
  lemma WithoutNothing(c: Cache)
    ensures Without(c, []) == c
  {
    forall d | d in c ensures Without(c, [])[d] == c[d] {
      assert Without(c, [])[d].Keys == c[d].Keys;
    }
  }

  /** Deleting one more key is one `del` on its inner map. */
  lemma WithoutOneMore(c: Cache, ks: seq<Key>, k: Key)
    requires k.0 in c
    ensures Without(c, ks + [k]) == Without(c, ks)[k.0 := Without(c, ks)[k.0] - {k.1}]
  {
    var lhs, rhs := Without(c, ks + [k]), Without(c, ks)[k.0 := Without(c, ks)[k.0] - {k.1}];
    forall d | d in c ensures lhs[d] == rhs[d] {
      assert lhs[d].Keys == rhs[d].Keys;
    }
  }

  /** Deleting exactly the stale keys is a sweep. */
  lemma WithoutExpiredIsSwept(c: Cache, ks: seq<Key>, now: int)
    requires forall k :: k in ks <==> Expired(c, k, now)
    ensures Without(c, ks) == Swept(c, now)
  {
    var lhs, rhs := Without(c, ks), Swept(c, now);
    forall d | d in c ensures lhs[d] == rhs[d] {
      forall q ensures q in lhs[d] <==> q in rhs[d] {
        assert (d, q) in ks <==> Expired(c, (d, q), now);
      }
      assert lhs[d].Keys == rhs[d].Keys;
    }
  }

  // ---------------------------------------------------------------------
  // The request path as a value
  // ---------------------------------------------------------------------

  /** The forward path for (domain, qtype) at `now`: with a non-empty,
      parseable upstream reply whose answer section is not empty, the answer
      is inserted (without overwriting) and relayed; otherwise the cache is
      left as it was and nothing is sent. */
  function Forward(c: Cache, domain: DomainName, qtype: QType, reply: UpstreamReply, now: int): (r: Outcome)
    ensures r.sent.None? ==> r.cache == c
    ensures r.sent.Some? ==> r.sent == Some(Relayed(reply.raw))
  {
    if |reply.raw| == 0 || reply.parsed.None? then Outcome(c, None)
    else match GetResponseInfo(reply.parsed.value)
      case None => Outcome(c, None)
      case Some(info) =>
        Outcome(SetDefaultInsert(c, domain, qtype, NewEntry(info, now)), Some(Relayed(reply.raw)))
  }

  /** One query handled: the hit test reads the clock at `now`; on a miss or
      a stale entry the query is forwarded, and the answer's expiry is counted
      from `replyTime`, the clock read once the upstream reply has arrived. */
  function Serve(c: Cache, request: Request, reply: UpstreamReply, now: int, replyTime: int): (r: Outcome)
    ensures (r.sent.Some? && r.sent.value.CachedAnswer?) <==> Lookup(c, request.q.qname, request.q.qtype, now).Some?
    ensures r.sent.Some? && r.sent.value.CachedAnswer? ==>
      r.cache == c && r.sent.value.response == PrepareDnsResponse(request, c[request.q.qname][request.q.qtype])
    ensures Lookup(c, request.q.qname, request.q.qtype, now).None? ==>
      r == Forward(c, request.q.qname, request.q.qtype, reply, replyTime)
  {
    var (domain, qtype) := GetRequestInfo(request);
    match Lookup(c, domain, qtype, now)
    case Some(entry) => Outcome(c, Some(CachedAnswer(PrepareDnsResponse(request, entry))))
    case None => Forward(c, domain, qtype, reply, replyTime)
  }

  // ---------------------------------------------------------------------
  // The proxy object
  // ---------------------------------------------------------------------

  class CachingDns {
    var dnsCache: Cache

    /** Starts from the cache read back from the snapshot file (an empty map
        for an empty file). */
    constructor (snapshot: Cache)
      ensures dnsCache == snapshot
    {
      dnsCache := snapshot;
    }

    /** The forward path: relay the upstream reply received at `now` and
        record it in the cache. */
    method MakeRequest(domain: DomainName, qtype: QType, reply: UpstreamReply, now: int)
      returns (sent: Option<Outgoing>)
      modifies this
      ensures Outcome(dnsCache, sent) == Forward(old(dnsCache), domain, qtype, reply, now)
    {
      sent := None;
      if |reply.raw| > 0 {
        match reply.parsed
        case None =>
        case Some(response) =>
          var info := GetResponseInfo(response);
          if info.Some? {
            var timeEnd := ExpiryTime(now, info.value.ttl);
            if domain !in dnsCache {
              dnsCache := dnsCache[domain := map[]];
            }
            if qtype !in dnsCache[domain] {
              dnsCache := dnsCache[domain := dnsCache[domain][qtype := CacheEntry(info.value.rData, timeEnd, info.value.ttl)]];
            }
            sent := Some(Relayed(reply.raw));
          }
      }
    }

    /** One iteration of the serving loop for a received, parsed query: the
        hit test at `now`, and on the forward path the reply received at
        `replyTime`. */
    method WorkingDnsStep(request: Request, reply: UpstreamReply, now: int, replyTime: int)
      returns (sent: Option<Outgoing>)
      modifies this
      ensures Outcome(dnsCache, sent) == Serve(old(dnsCache), request, reply, now, replyTime)
    {
      var (domain, qtype) := GetRequestInfo(request);
      if domain in dnsCache && qtype in dnsCache[domain] {
        if dnsCache[domain][qtype].timeEnd > now {
          sent := Some(CachedAnswer(PrepareDnsResponse(request, dnsCache[domain][qtype])));
        } else {
          sent := MakeRequest(domain, qtype, reply, replyTime);
        }
      } else {
        sent := MakeRequest(domain, qtype, reply, replyTime);
      }
    }

    /** The first loop of a sweep pass: every key whose entry is stale at
        `now`, each once. */
    method ExpiredRecords(now: int) returns (toRemove: seq<Key>)
      ensures forall k :: k in toRemove <==> Expired(dnsCache, k, now)
      ensures Distinct(toRemove)
    {
      toRemove := [];
      var domains := dnsCache.Keys;
      while domains != {}
        invariant domains <= dnsCache.Keys
        invariant forall k :: k in toRemove <==> k.0 !in domains && Expired(dnsCache, k, now)
        invariant Distinct(toRemove)
        decreases domains
      {
        var domain :| domain in domains;
        var qtypes := dnsCache[domain].Keys;
        while qtypes != {}
          invariant qtypes <= dnsCache[domain].Keys
          invariant forall k :: k in toRemove <==>
            (k.0 !in domains && Expired(dnsCache, k, now)) ||
            (k.0 == domain && k.1 !in qtypes && Expired(dnsCache, k, now))
          invariant Distinct(toRemove)
          decreases qtypes
        {
          var qtype :| qtype in qtypes;
          if dnsCache[domain][qtype].timeEnd <= now {
            toRemove := toRemove + [(domain, qtype)];
          }
          qtypes := qtypes - {qtype};
        }
        domains := domains - {domain};
      }
    }

    /** One sweep pass at `now`: collect the stale keys, then delete each. */
    method SearchExpiredRecords(now: int)
      modifies this
      ensures dnsCache == Swept(old(dnsCache), now)
    {
      var toRemove := ExpiredRecords(now);
      ghost var before := dnsCache;
      WithoutNothing(before);
      var i := 0;
      while i < |toRemove|
        invariant 0 <= i <= |toRemove|
        invariant dnsCache == Without(before, toRemove[..i])
      {
        var (domain, qtype) := toRemove[i];
        assert Expired(before, toRemove[i], now);
        assert toRemove[i] !in toRemove[..i];
        WithoutOneMore(before, toRemove[..i], toRemove[i]);
        dnsCache := dnsCache[domain := dnsCache[domain] - {qtype}];
        assert toRemove[..i + 1] == toRemove[..i] + [toRemove[i]];
        i := i + 1;
      }
      assert toRemove[..i] == toRemove;
      WithoutExpiredIsSwept(before, toRemove, now);
    }
  }
}
