/**
 * Properties of the proxy's cache: the freshness boundary, insertion that
 * never overwrites, the failed-forward path, replay of a cached answer in
 * stored order, and soundness, completeness and idempotence of a sweep pass.
 */
module CacheLemmas {
  import opened Wrappers
  import opened DnsMessage
  import opened DnsProxy

  // ---------------------------------------------------------------------
  // Insertion (setdefault at both levels)
  // ---------------------------------------------------------------------

  /** With no entry for (domain, qtype), the new entry is stored there and
      every other (domain', qtype') keeps exactly what it had. */
  lemma InsertWhenAbsent(c: Cache, domain: DomainName, qtype: QType, entry: CacheEntry)
    requires domain !in c || qtype !in c[domain]
    ensures var r := SetDefaultInsert(c, domain, qtype, entry);
      && r[domain][qtype] == entry
      && r.Keys == c.Keys + {domain}
      && (forall q :: q != qtype ==> (q in r[domain] <==> domain in c && q in c[domain]))
      && (forall q :: q != qtype && q in r[domain] ==> r[domain][q] == c[domain][q])
      && (forall d :: d != domain && d in c ==> r[d] == c[d])
  {
  }

  /** With an entry already present for (domain, qtype), fresh or stale,
      inserting leaves the whole cache unchanged. */
  lemma InsertNeverOverwrites(c: Cache, domain: DomainName, qtype: QType, entry: CacheEntry)
    requires domain in c && qtype in c[domain]
    ensures SetDefaultInsert(c, domain, qtype, entry) == c
  {
    assert c[domain := c[domain]] == c;
  }

  /** Inserting an answer with records keeps every entry non-empty. */
  lemma InsertPreservesWellFormed(c: Cache, domain: DomainName, qtype: QType, entry: CacheEntry)
    requires WellFormed(c) && |entry.rData| > 0
    ensures WellFormed(SetDefaultInsert(c, domain, qtype, entry))
  {
    var r: Cache := SetDefaultInsert(c, domain, qtype, entry);
    forall d: DomainName, q: QType | d in r && q in r[d] ensures |r[d][q].rData| > 0 {
      if domain !in c || qtype !in c[domain] {
        InsertWhenAbsent(c, domain, qtype, entry);
      } else {
        InsertNeverOverwrites(c, domain, qtype, entry);
      }
    }
  }

  // ---------------------------------------------------------------------
  // The forward path
  // ---------------------------------------------------------------------

  /** Nothing is cached and nothing is relayed exactly when the upstream reply
      is empty, unparseable, or has no answer record. */
  lemma ForwardFailsWithoutAnswer(c: Cache, domain: DomainName, qtype: QType, reply: UpstreamReply, now: int)
    ensures var r := Forward(c, domain, qtype, reply, now);
      r.sent.None? <==> (|reply.raw| == 0 || reply.parsed.None? || |reply.parsed.value.rr| == 0)
    ensures var r := Forward(c, domain, qtype, reply, now);
      r.sent.None? ==> r.cache == c
  {
    if |reply.raw| > 0 && reply.parsed.Some? {
      var info := GetResponseInfo(reply.parsed.value);
      assert info.Some? <==> |reply.parsed.value.rr| > 0;
    }
  }

  /** A successful forward for a key with no entry stores the answer's record
      data, in order, with the first record's ttl and expiry `now + ttl`. */
  lemma ForwardStoresAnswer(c: Cache, domain: DomainName, qtype: QType, reply: UpstreamReply, now: int)
    requires |reply.raw| > 0 && reply.parsed.Some? && |reply.parsed.value.rr| > 0
    requires domain !in c || qtype !in c[domain]
    ensures var r := Forward(c, domain, qtype, reply, now);
      var m := reply.parsed.value;
      && r.sent == Some(Relayed(reply.raw))
      && r.cache[domain][qtype] == CacheEntry(RDataList(m.rr), now + m.rr[0].ttl, m.rr[0].ttl)
  {
    var m := reply.parsed.value;
    var info := GetResponseInfo(m);
    assert info == Some(ResponseInfo(m.rr[0].ttl, RDataList(m.rr)));
    InsertWhenAbsent(c, domain, qtype, NewEntry(info.value, now));
  }

  /** A forward never disturbs another key's entry. */
  lemma ForwardLeavesOtherKeys(c: Cache, domain: DomainName, qtype: QType, reply: UpstreamReply, now: int,
                               d: DomainName, q: QType)
    requires (d, q) != (domain, qtype)
    ensures var r := Forward(c, domain, qtype, reply, now).cache;
      (d in r && q in r[d] <==> d in c && q in c[d]) &&
      (d in c && q in c[d] ==> r[d][q] == c[d][q])
  {
    var r := Forward(c, domain, qtype, reply, now);
    if r.sent.Some? {
      var info := GetResponseInfo(reply.parsed.value).value;
      if domain in c && qtype in c[domain] {
        InsertNeverOverwrites(c, domain, qtype, NewEntry(info, now));
      } else {
        InsertWhenAbsent(c, domain, qtype, NewEntry(info, now));
      }
    }
  }

  /** The forward path never stores an entry without records. */
  lemma ForwardPreservesWellFormed(c: Cache, domain: DomainName, qtype: QType, reply: UpstreamReply, now: int)
    requires WellFormed(c)
    ensures WellFormed(Forward(c, domain, qtype, reply, now).cache)
  {
    var r := Forward(c, domain, qtype, reply, now);
    if r.sent.Some? {
      var info := GetResponseInfo(reply.parsed.value).value;
      InsertPreservesWellFormed(c, domain, qtype, NewEntry(info, now));
    }
  }

  // ---------------------------------------------------------------------
  // Freshness
  // ---------------------------------------------------------------------

  /** An answer with ttl T inserted at `now` into an empty slot is served at
      time t exactly when t < now + T (milliseconds), and is forwarded from
      now + T on. */
  lemma FreshnessWindow(c: Cache, domain: DomainName, qtype: QType, info: ResponseInfo, now: int, t: int)
    requires domain !in c || qtype !in c[domain]
    ensures var r := SetDefaultInsert(c, domain, qtype, NewEntry(info, now));
      Lookup(r, domain, qtype, t).Some? <==> t < now + info.ttl
    ensures var r := SetDefaultInsert(c, domain, qtype, NewEntry(info, now));
      Lookup(r, domain, qtype, t).Some? ==> Lookup(r, domain, qtype, t).value == NewEntry(info, now)
  {
    InsertWhenAbsent(c, domain, qtype, NewEntry(info, now));
  }

  /** The ttl is counted in milliseconds: an answer with ttl 300 received at
      `now` is already forwarded again one second later. */
  lemma TtlCountedInMilliseconds(c: Cache, domain: DomainName, qtype: QType, rData: seq<RData>, now: int)
    requires domain !in c || qtype !in c[domain]
    ensures var r := SetDefaultInsert(c, domain, qtype, NewEntry(ResponseInfo(300, rData), now));
      Lookup(r, domain, qtype, now + 299).Some? && Lookup(r, domain, qtype, now + 1000).None?
  {
    FreshnessWindow(c, domain, qtype, ResponseInfo(300, rData), now, now + 299);
    FreshnessWindow(c, domain, qtype, ResponseInfo(300, rData), now, now + 1000);
  }

  /** A hit at `now` is the same hit at every earlier time, and a miss at
      `now` stays a miss at every later time: freshness only runs out. */
  lemma LookupMonotone(c: Cache, domain: DomainName, qtype: QType, now: int, t: int)
    ensures t <= now && Lookup(c, domain, qtype, now).Some? ==>
      Lookup(c, domain, qtype, t) == Lookup(c, domain, qtype, now)
    ensures now <= t && Lookup(c, domain, qtype, now).None? ==> Lookup(c, domain, qtype, t).None?
  {
  }

  /** Serving a query changes the cache only when its key has no entry:
      a fresh hit is answered from the cache, and a stale entry is forwarded
      but never refreshed. */
  lemma ServeKeepsPresentEntries(c: Cache, request: Request, reply: UpstreamReply, now: int, replyTime: int)
    requires request.q.qname in c && request.q.qtype in c[request.q.qname]
    ensures Serve(c, request, reply, now, replyTime).cache == c
  {
    var domain, qtype := request.q.qname, request.q.qtype;
    if Lookup(c, domain, qtype, now).None? {
      var r := Forward(c, domain, qtype, reply, replyTime);
      if r.sent.Some? {
        InsertNeverOverwrites(c, domain, qtype, NewEntry(GetResponseInfo(reply.parsed.value).value, replyTime));
      }
    }
  }

  /** A stale entry keeps the key forwarding at every later time until a
      sweep removes it, whatever the upstream answers. */
  lemma StaleEntryStaysStale(c: Cache, request: Request, reply: UpstreamReply, now: int, replyTime: int, later: int)
    requires request.q.qname in c && request.q.qtype in c[request.q.qname]
    requires c[request.q.qname][request.q.qtype].timeEnd <= now <= later
    ensures var r := Serve(c, request, reply, now, replyTime);
      r.sent.None? || r.sent.value.Relayed?
    ensures Lookup(Serve(c, request, reply, now, replyTime).cache, request.q.qname, request.q.qtype, later).None?
  {
    ServeKeepsPresentEntries(c, request, reply, now, replyTime);
  }

  // ---------------------------------------------------------------------
  // Replay from the cache
  // ---------------------------------------------------------------------

  /** Every answer served from the cache carries exactly the cache key the
      request was looked up under. */
  lemma AnswersCarryRequestKey(request: Request, entry: CacheEntry)
    ensures forall rr :: rr in PrepareDnsResponse(request, entry).rr ==>
      (rr.rname, rr.rtype) == GetRequestInfo(request)
  {
    var m := PrepareDnsResponse(request, entry);
    forall rr | rr in m.rr ensures (rr.rname, rr.rtype) == GetRequestInfo(request) {
      var i :| 0 <= i < |m.rr| && m.rr[i] == rr;
    }
  }

  /** Reading back a response built from an entry gives the entry's ttl and
      record data, in stored order. */
  lemma ReplayRoundTrip(request: Request, entry: CacheEntry)
    requires |entry.rData| > 0
    ensures GetResponseInfo(PrepareDnsResponse(request, entry)) == Some(ResponseInfo(entry.ttl, entry.rData))
  {
    var m := PrepareDnsResponse(request, entry);
    var info := GetResponseInfo(m);
    assert info.value.rData == entry.rData;
  }

  /** A query forwarded into an empty slot and repeated before the ttl runs
      out is answered from the cache with the upstream's ttl and record data,
      in the upstream's order, under the query's own name and type. */
  lemma CachedAnswerReplaysUpstream(c: Cache, request: Request, reply: UpstreamReply, now: int, replyTime: int, later: int)
    requires request.q.qname !in c || request.q.qtype !in c[request.q.qname]
    requires |reply.raw| > 0 && reply.parsed.Some? && |reply.parsed.value.rr| > 0
    requires now <= replyTime <= later < replyTime + reply.parsed.value.rr[0].ttl
    ensures var first := Serve(c, request, reply, now, replyTime);
      var second := Serve(first.cache, request, reply, later, later);
      && first.sent == Some(Relayed(reply.raw))
      && second.cache == first.cache
      && second.sent.Some? && second.sent.value.CachedAnswer?
      && GetResponseInfo(second.sent.value.response) == GetResponseInfo(reply.parsed.value)
      && (forall rr :: rr in second.sent.value.response.rr ==>
            rr.rname == request.q.qname && rr.rtype == request.q.qtype)
  {
    var domain, qtype := request.q.qname, request.q.qtype;
    var m := reply.parsed.value;
    assert Lookup(c, domain, qtype, now).None?;
    var first := Serve(c, request, reply, now, replyTime);
    ForwardStoresAnswer(c, domain, qtype, reply, replyTime);
    var entry := first.cache[domain][qtype];
    assert Lookup(first.cache, domain, qtype, later) == Some(entry);
    ReplayRoundTrip(request, entry);
    assert entry.rData == GetResponseInfo(m).value.rData;
  }

  // ---------------------------------------------------------------------
  // The sweep
  // ---------------------------------------------------------------------

  /** After a sweep at `now`, no entry with expiry `<= now` remains. */
  lemma SweepSound(c: Cache, now: int, d: DomainName, q: QType)
    ensures !Expired(Swept(c, now), (d, q), now)
  {
    var r := Swept(c, now);
    if d in r && q in r[d] {
      assert q in c[d] && c[d][q].timeEnd > now;
    }
  }

  /** A sweep at `now` keeps every domain key and every entry with expiry
      `> now`, unchanged, and removes exactly the entries with expiry `<= now`. */
  lemma SweepComplete(c: Cache, now: int, d: DomainName, q: QType)
    ensures d in Swept(c, now) <==> d in c
    ensures d in c ==> (q in Swept(c, now)[d] <==> q in c[d] && !Expired(c, (d, q), now))
    ensures d in c && q in c[d] && c[d][q].timeEnd > now ==> Swept(c, now)[d][q] == c[d][q]
  {
  }

  /** Two sweeps at the same `now` leave the cache as one does. */
  lemma SweepIdempotent(c: Cache, now: int)
    ensures Swept(Swept(c, now), now) == Swept(c, now)
  {
    var once, twice := Swept(c, now), Swept(Swept(c, now), now);
    forall d | d in once ensures twice[d] == once[d] {
      assert twice[d].Keys == once[d].Keys;
    }
  }

  /** A sweep at `now` is invisible to every lookup at `now` or later: it only
      removes entries that would not be served anyway. */
  lemma SweepInvisibleToLaterLookups(c: Cache, now: int, t: int, d: DomainName, q: QType)
    requires now <= t
    ensures Lookup(Swept(c, now), d, q, t) == Lookup(c, d, q, t)
  {
    if d in c && q in c[d] && c[d][q].timeEnd > t {
      assert q in Swept(c, now)[d];
    }
  }

  /** A sweep never creates an entry without records. */
  lemma SweepPreservesWellFormed(c: Cache, now: int)
    requires WellFormed(c)
    ensures WellFormed(Swept(c, now))
  {
    var r: Cache := Swept(c, now);
    forall d: DomainName, q: QType | d in r && q in r[d] ensures |r[d][q].rData| > 0 {
      assert q in c[d];
    }
  }

  /** A snapshot holding one fresh and one stale entry for a domain keeps,
      after a sweep, the fresh one and the domain key, and nothing else. */
  lemma SweepLoadedSnapshot(domain: DomainName, live: QType, stale: QType, e1: CacheEntry, e2: CacheEntry, now: int)
    requires live != stale
    requires e1.timeEnd > now >= e2.timeEnd
    ensures Swept(map[domain := map[live := e1, stale := e2]], now) == map[domain := map[live := e1]]
  {
    var c := map[domain := map[live := e1, stale := e2]];
    var r := Swept(c, now);
    assert r.Keys == {domain};
    assert r[domain].Keys == {live} by {
      assert live in r[domain] && stale !in r[domain];
    }
    assert r[domain] == map[live := e1];
  }
}
