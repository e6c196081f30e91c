/** The client of `lib/APIClient.py`: a session (login state and token), an in-memory cache of
    named lines, and the create/delete/update operations that keep the one A record named by
    the configured fqdn equal to a target address. */
module LibClient {
  import opened Outcomes
  import opened Json
  import opened Records
  import opened Config
  import opened Transport
  import opened Endpoint

  const DomainsKey := "domains"
  const RecordsKey := "records"

  /** A cache line holds a copy of the domain list or of the map of A records. */
  datatype CacheLine = DomainsLine(domains: Json) | RecordsLine(records: map<string, ARecord>)

  type Cache = map<string, CacheLine>

  /** Each line holds the kind of value its name says. */
  predicate WellTyped(cache: Cache)
  {
    (DomainsKey in cache ==> cache[DomainsKey].DomainsLine?) &&
    (RecordsKey in cache ==> cache[RecordsKey].RecordsLine?)
  }

  function CachedRecords(cache: Cache): Option<map<string, ARecord>>
  {
    if RecordsKey in cache && cache[RecordsKey].RecordsLine? then Some(cache[RecordsKey].records) else None
  }

  /** The cache, the network and the outcome after a record operation. */
  datatype Step<T> = Step(cache: Cache, wire: Wire, outcome: Outcome<T>)

  /** The requests sent from `before` to `after` extend the log, number at most `budget` and
      all carry the session token. */
  predicate Extends(before: Wire, after: Wire, token: string, budget: nat)
  {
    before.sent <= after.sent && |after.sent| <= |before.sent| + budget &&
    forall i | |before.sent| <= i < |after.sent| :: after.sent[i].token == Some(token)
  }

  lemma ExtendsTrans(a: Wire, b: Wire, c: Wire, token: string, n: nat, m: nat)
    requires Extends(a, b, token, n) && Extends(b, c, token, m)
    ensures Extends(a, c, token, n + m)
  {
  }

  /** Where a record operation starts, seen from the cache: 0 when the records line is cached
      without the fqdn, 1 when it is cached with it, 2 when it is not cached; 3 when the call
      bypasses the cache. */
  function Phase(c: Settings, cache: Cache, useCache: bool): nat
  {
    if !useCache then 3
    else if CachedRecords(cache).None? then 2
    else if c.Fqdn() in CachedRecords(cache).value then 1
    else 0
  }

  datatype Op = Create | Update

  /** The termination measure of the create/update recursion. */
  function Rank(op: Op, phase: nat): nat
  {
    match op
    case Create => if phase == 0 then 0 else if phase == 1 then 2 else 3
    case Update => if phase <= 1 then 1 else if phase == 2 then 4 else 5
  }

  /** The most requests an operation starting in a phase sends. */
  function Budget(op: Op, phase: nat): nat
  {
    match op
    case Create => if phase == 0 then 1 else if phase == 1 then 2 else 3
    case Update => if phase == 0 then 1 else if phase == 1 then 2 else 4
  }

  /** `get_dns_A_records`: the cached records line when `useCache` and it is set; otherwise one
      list request, whose records (on code 100) are stored in the records line. */
  function FetchRecords(c: Settings, token: string, cache: Cache, wire: Wire, useCache: bool)
    : (r: Step<map<string, ARecord>>)
    requires WellTyped(cache)
    ensures WellTyped(r.cache) && r.cache - {RecordsKey} == cache - {RecordsKey}
    ensures Extends(wire, r.wire, token, if useCache && RecordsKey in cache then 0 else 1)
    ensures useCache && RecordsKey in cache ==> r == Step(cache, wire, Returned(cache[RecordsKey].records))
    ensures r.cache == cache || (r.outcome.Returned? && r.cache == cache[RecordsKey := RecordsLine(r.outcome.value)])
    ensures r.outcome.Returned? && r.outcome.value != map[] ==> CachedRecords(r.cache) == Some(r.outcome.value)
  {
    if useCache && RecordsKey in cache then Step(cache, wire, Returned(cache[RecordsKey].records))
    else
      var exchanged := Exchange(wire, RecordListRequest(c, Some(token)));
      var w, reply := exchanged.0, exchanged.1;
      var got := RecordsFrom(reply);
      if got.Returned? && reply.value.code == Success then
        Step(cache[RecordsKey := RecordsLine(got.value)], w, got)
      else
        Step(cache, w, got)
  }

  /** `delete_dns_A_record` once `get_dns_A_records` returned `records` (`cache` and `wire` are
      as the fetch left them): nothing to do when the fqdn has no record; otherwise one delete
      request for its `record_id`, and on code 100 the records line becomes the map without
      the fqdn. */
  function DeleteFrom(c: Settings, token: string, cache: Cache, wire: Wire, records: map<string, ARecord>)
    : (r: Step<bool>)
    requires WellTyped(cache)
    ensures WellTyped(r.cache) && r.cache - {RecordsKey} == cache - {RecordsKey}
    ensures Extends(wire, r.wire, token, 1)
    ensures c.Fqdn() !in records ==> r == Step(cache, wire, Returned(true))
    ensures c.Fqdn() in records && r.outcome == Returned(true) ==>
              r.cache == cache[RecordsKey := RecordsLine(records - {c.Fqdn()})]
  {
    if c.Fqdn() !in records then Step(cache, wire, Returned(true))
    else
      var sent := Exchange(wire, DeleteRequest(c, Some(token), records[c.Fqdn()].recordId));
      var w, reply := sent.0, sent.1;
      if reply.None? then Step(cache, w, Raised(NoResponse))
      else if reply.value.code == Success then
        Step(cache[RecordsKey := RecordsLine(records - {c.Fqdn()})], w, Returned(true))
      else Step(cache, w, Returned(false))
  }

  /** `delete_dns_A_record`: the fetch, then `DeleteFrom` on the map it returned. */
  function DeleteSpec(c: Settings, token: string, cache: Cache, wire: Wire, useCache: bool): (r: Step<bool>)
    requires WellTyped(cache)
    ensures WellTyped(r.cache) && r.cache - {RecordsKey} == cache - {RecordsKey}
    ensures Extends(wire, r.wire, token, 2)
    ensures var f := FetchRecords(c, token, cache, wire, useCache);
            f.outcome.Returned? && c.Fqdn() in f.outcome.value && r.outcome == Returned(true) ==>
              CachedRecords(r.cache) == Some(f.outcome.value - {c.Fqdn()})
    ensures useCache && CachedRecords(cache).Some? && r.outcome == Returned(true) ==>
              CachedRecords(r.cache) == Some(CachedRecords(cache).value - {c.Fqdn()})
  {
    var f := FetchRecords(c, token, cache, wire, useCache);
    if f.outcome.Raised? then Step(f.cache, f.wire, Raised(f.outcome.fault))
    else
      var d := DeleteFrom(c, token, f.cache, f.wire, f.outcome.value);
      ExtendsTrans(wire, f.wire, d.wire, token, 1, 1);
      assert f.outcome.value - {c.Fqdn()} == f.outcome.value || c.Fqdn() in f.outcome.value;
      d
  }

  /** With the records line cached, delete reads the map from the cache and goes on from it. */
  lemma DeleteOnCached(c: Settings, token: string, cache: Cache, wire: Wire, records: map<string, ARecord>)
    requires WellTyped(cache) && CachedRecords(cache) == Some(records)
    ensures DeleteSpec(c, token, cache, wire, true) == DeleteFrom(c, token, cache, wire, records)
  {
  }

  /** `create_dns_A_record`: true at once when the fqdn already has the target; an update when
      it has another address; otherwise one create request, and on code 100 the records line
      is dropped. */
  function CreateSpec(c: Settings, token: string, cache: Cache, wire: Wire, target: string, useCache: bool)
    : (r: Step<bool>)
    requires WellTyped(cache)
    ensures WellTyped(r.cache) && r.cache - {RecordsKey} == cache - {RecordsKey}
    ensures Extends(wire, r.wire, token, Budget(Create, Phase(c, cache, useCache)))
    decreases Rank(Create, Phase(c, cache, useCache))
  {
    var f := FetchRecords(c, token, cache, wire, useCache);
    if f.outcome.Raised? then Step(f.cache, f.wire, Raised(f.outcome.fault))
    else
      var records := f.outcome.value;
      if c.Fqdn() in records then
        if records[c.Fqdn()].content == target then Step(f.cache, f.wire, Returned(true))
        else
          var u := UpdateSpec(c, token, f.cache, f.wire, target, true);
          ExtendsTrans(wire, f.wire, u.wire, token, 1, 2);
          u
      else
        var exchanged := Exchange(f.wire, CreateRequest(c, Some(token), target));
        var w, reply := exchanged.0, exchanged.1;
        ExtendsTrans(wire, f.wire, w, token, if useCache && RecordsKey in cache then 0 else 1, 1);
        if reply.None? then Step(f.cache, w, Raised(NoResponse))
        else if reply.value.code == Success then Step(f.cache - {RecordsKey}, w, Returned(true))
        else Step(f.cache, w, Returned(false))
  }

  /** `update_dns_A_record`: true at once when the fqdn already has the target; when it has
      another address, a delete followed, only if the delete succeeded, by a create; when it
      has no record, a create. */
  function UpdateSpec(c: Settings, token: string, cache: Cache, wire: Wire, target: string, useCache: bool)
    : (r: Step<bool>)
    requires WellTyped(cache)
    ensures WellTyped(r.cache) && r.cache - {RecordsKey} == cache - {RecordsKey}
    ensures Extends(wire, r.wire, token, Budget(Update, Phase(c, cache, useCache)))
    decreases Rank(Update, Phase(c, cache, useCache))
  {
    var f := FetchRecords(c, token, cache, wire, useCache);
    if f.outcome.Raised? then Step(f.cache, f.wire, Raised(f.outcome.fault))
    else
      var records := f.outcome.value;
      if c.Fqdn() in records then
        if records[c.Fqdn()].content == target then Step(f.cache, f.wire, Returned(true))
        else
          var d := DeleteSpec(c, token, f.cache, f.wire, true);
          DeleteOnCached(c, token, f.cache, f.wire, records);
          var k := if useCache && RecordsKey in cache then 0 else 1;
          ExtendsTrans(wire, f.wire, d.wire, token, k, 1);
          if d.outcome != Returned(true) then d
          else
            var cr := CreateSpec(c, token, d.cache, d.wire, target, true);
            ExtendsTrans(wire, d.wire, cr.wire, token, k + 1, 1);
            cr
      else
        var cr := CreateSpec(c, token, f.cache, f.wire, target, true);
        ExtendsTrans(wire, f.wire, cr.wire, token, if useCache && RecordsKey in cache then 0 else 1,
                     Budget(Create, Phase(c, f.cache, true)));
        cr
  }

  /** Off the cache: one list request, whose reply `RecordsFrom` reads; on code 100 the records
      line holds the result, even an empty one, and any other outcome leaves the cache as it was. */
  lemma FetchMiss(c: Settings, token: string, cache: Cache, wire: Wire, useCache: bool)
    requires WellTyped(cache) && !(useCache && RecordsKey in cache)
    ensures var (w, reply) := Exchange(wire, RecordListRequest(c, Some(token)));
            var r := FetchRecords(c, token, cache, wire, useCache);
            r.wire == w && r.outcome == RecordsFrom(reply) &&
            r.cache == (if r.outcome.Returned? && reply.value.code == Success
                        then cache[RecordsKey := RecordsLine(r.outcome.value)] else cache)
  {
  }

  /** A list request answered with a code other than 100 yields an empty map and leaves the
      cache as it was. */
  lemma FetchRejected(c: Settings, token: string, cache: Cache, wire: Wire, useCache: bool)
    requires WellTyped(cache) && !(useCache && RecordsKey in cache)
    requires var reply := Exchange(wire, RecordListRequest(c, Some(token))).1;
             reply.Some? && reply.value.code != Success
    ensures FetchRecords(c, token, cache, wire, useCache)
            == Step(cache, Exchange(wire, RecordListRequest(c, Some(token))).0, Returned(map[]))
  {
  }

  /** The map a record operation decides on is `m`: what its `get_dns_A_records` call returned,
      from the cache or from the network. */
  predicate FetchedAs(c: Settings, token: string, cache: Cache, wire: Wire, useCache: bool,
                      m: map<string, ARecord>)
    requires WellTyped(cache)
  {
    FetchRecords(c, token, cache, wire, useCache).outcome == Returned(m)
  }

  /** Create finds the fqdn already pointing at the target: true after the fetch, with no other
      request and no other change; with the records line cached, no request at all. */
  lemma CreateWhenMatching(c: Settings, token: string, cache: Cache, wire: Wire, target: string,
                           useCache: bool, m: map<string, ARecord>)
    requires WellTyped(cache) && FetchedAs(c, token, cache, wire, useCache, m)
    requires c.Fqdn() in m && m[c.Fqdn()].content == target
    ensures var f := FetchRecords(c, token, cache, wire, useCache);
            CreateSpec(c, token, cache, wire, target, useCache) == Step(f.cache, f.wire, Returned(true))
    ensures useCache && RecordsKey in cache ==>
              CreateSpec(c, token, cache, wire, target, useCache) == Step(cache, wire, Returned(true))
  {
  }

  /** Create finds no record for the fqdn: after the fetch, exactly one create request
      (hostname the subdomain, type A, the target, ttl 300, priority 10); only on code 100 is
      the records line dropped, and no other line ever changes. */
  lemma CreateWhenAbsent(c: Settings, token: string, cache: Cache, wire: Wire, target: string,
                         useCache: bool, m: map<string, ARecord>)
    requires WellTyped(cache) && FetchedAs(c, token, cache, wire, useCache, m)
    requires c.Fqdn() !in m
    ensures var f := FetchRecords(c, token, cache, wire, useCache);
            var (w, reply) := Exchange(f.wire, CreateRequest(c, Some(token), target));
            var r := CreateSpec(c, token, cache, wire, target, useCache);
            r.wire == w && r.outcome == Acknowledged(reply) &&
            r.cache == (if r.outcome == Returned(true) then cache - {RecordsKey} else f.cache)
    ensures CreateRequest(c, Some(token), target).payload == CreateBody(c.subdomain, "A", target, 300, 10)
  {
    var f := FetchRecords(c, token, cache, wire, useCache);
    assert f.outcome == Returned(m);
    var sent := Exchange(f.wire, CreateRequest(c, Some(token), target));
    var reply := sent.1;
    assert CreateSpec(c, token, cache, wire, target, useCache)
        == if reply.None? then Step(f.cache, sent.0, Raised(NoResponse))
           else if reply.value.code == Success then Step(f.cache - {RecordsKey}, sent.0, Returned(true))
           else Step(f.cache, sent.0, Returned(false));
    assert f.cache - {RecordsKey} == cache - {RecordsKey};
  }

  /** Create finds the fqdn pointing elsewhere: the fetched map is now the records line, and
      create does what update does from there (see `UpdateWhenDiffering`). */
  lemma CreateWhenDiffering(c: Settings, token: string, cache: Cache, wire: Wire, target: string,
                            useCache: bool, m: map<string, ARecord>)
    requires WellTyped(cache) && FetchedAs(c, token, cache, wire, useCache, m)
    requires c.Fqdn() in m && m[c.Fqdn()].content != target
    ensures var f := FetchRecords(c, token, cache, wire, useCache);
            CachedRecords(f.cache) == Some(m) &&
            CreateSpec(c, token, cache, wire, target, useCache) == UpdateSpec(c, token, f.cache, f.wire, target, true)
  {
  }

  /** Delete finds no record for the fqdn: true after the fetch, with no other request and no
      other change; with the records line cached, no request at all. */
  lemma DeleteWhenAbsent(c: Settings, token: string, cache: Cache, wire: Wire, useCache: bool,
                         m: map<string, ARecord>)
    requires WellTyped(cache) && FetchedAs(c, token, cache, wire, useCache, m)
    requires c.Fqdn() !in m
    ensures var f := FetchRecords(c, token, cache, wire, useCache);
            DeleteSpec(c, token, cache, wire, useCache) == Step(f.cache, f.wire, Returned(true))
    ensures useCache && RecordsKey in cache ==>
              DeleteSpec(c, token, cache, wire, useCache) == Step(cache, wire, Returned(true))
  {
  }

  /** Delete finds a record for the fqdn: after the fetch, exactly one delete request for its
      `record_id`; on code 100 the records line is the fetched map without the fqdn, every other
      entry and every other line unchanged. */
  lemma DeleteWhenPresent(c: Settings, token: string, cache: Cache, wire: Wire, useCache: bool,
                          m: map<string, ARecord>)
    requires WellTyped(cache) && FetchedAs(c, token, cache, wire, useCache, m)
    requires c.Fqdn() in m
    ensures var f := FetchRecords(c, token, cache, wire, useCache);
            var (w, reply) := Exchange(f.wire, DeleteRequest(c, Some(token), m[c.Fqdn()].recordId));
            var r := DeleteSpec(c, token, cache, wire, useCache);
            r.wire == w && r.outcome == Acknowledged(reply) &&
            r.cache == (if r.outcome == Returned(true) then f.cache[RecordsKey := RecordsLine(m - {c.Fqdn()})] else f.cache)
    ensures var r := DeleteSpec(c, token, cache, wire, useCache);
            r.outcome == Returned(true) ==>
              r.cache - {RecordsKey} == cache - {RecordsKey} &&
              CachedRecords(r.cache).Some? && c.Fqdn() !in CachedRecords(r.cache).value &&
              forall name | name in m && name != c.Fqdn() ::
                name in CachedRecords(r.cache).value && CachedRecords(r.cache).value[name] == m[name]
  {
  }

  /** Update finds the fqdn already pointing at the target: true after the fetch, which is the
      only request; with the records line cached, no request at all. */
  lemma UpdateWhenMatching(c: Settings, token: string, cache: Cache, wire: Wire, target: string,
                           useCache: bool, m: map<string, ARecord>)
    requires WellTyped(cache) && FetchedAs(c, token, cache, wire, useCache, m)
    requires c.Fqdn() in m && m[c.Fqdn()].content == target
    ensures var f := FetchRecords(c, token, cache, wire, useCache);
            UpdateSpec(c, token, cache, wire, target, useCache) == Step(f.cache, f.wire, Returned(true))
    ensures var r := UpdateSpec(c, token, cache, wire, target, useCache);
            forall i | |wire.sent| <= i < |r.wire.sent| :: r.wire.sent[i] == RecordListRequest(c, Some(token))
    ensures useCache && RecordsKey in cache ==>
              UpdateSpec(c, token, cache, wire, target, useCache) == Step(cache, wire, Returned(true))
  {
  }

  /** Update finds the fqdn pointing elsewhere: after the fetch, one delete request; only if it
      was acknowledged, one create request, which goes straight out because the records line
      now lacks the fqdn. If that create fails, the records line is left without the fqdn. */
  lemma UpdateWhenDiffering(c: Settings, token: string, cache: Cache, wire: Wire, target: string,
                            useCache: bool, m: map<string, ARecord>)
    requires WellTyped(cache) && FetchedAs(c, token, cache, wire, useCache, m)
    requires c.Fqdn() in m && m[c.Fqdn()].content != target
    ensures var f := FetchRecords(c, token, cache, wire, useCache);
            var (w1, r1) := Exchange(f.wire, DeleteRequest(c, Some(token), m[c.Fqdn()].recordId));
            var (w2, r2) := Exchange(w1, CreateRequest(c, Some(token), target));
            var r := UpdateSpec(c, token, cache, wire, target, useCache);
            if Acknowledged(r1) != Returned(true) then r == Step(f.cache, w1, Acknowledged(r1))
            else
              r.wire == w2 && r.outcome == Acknowledged(r2) &&
              r.cache == (if Acknowledged(r2) == Returned(true) then cache - {RecordsKey}
                          else f.cache[RecordsKey := RecordsLine(m - {c.Fqdn()})])
  {
    var f := FetchRecords(c, token, cache, wire, useCache);
    assert FetchedAs(c, token, f.cache, f.wire, true, m);
    DeleteWhenPresent(c, token, f.cache, f.wire, true, m);
    var d := DeleteSpec(c, token, f.cache, f.wire, true);
    if d.outcome == Returned(true) {
      assert FetchedAs(c, token, d.cache, d.wire, true, m - {c.Fqdn()});
      CreateWhenAbsent(c, token, d.cache, d.wire, target, true, m - {c.Fqdn()});
    }
  }

  /** Update finds no record for the fqdn: it does what create does from the state after the
      fetch; when the fetched map is in the records line, that create goes straight to its
      create request. */
  lemma UpdateWhenAbsent(c: Settings, token: string, cache: Cache, wire: Wire, target: string,
                         useCache: bool, m: map<string, ARecord>)
    requires WellTyped(cache) && FetchedAs(c, token, cache, wire, useCache, m)
    requires c.Fqdn() !in m
    ensures var f := FetchRecords(c, token, cache, wire, useCache);
            UpdateSpec(c, token, cache, wire, target, useCache) == CreateSpec(c, token, f.cache, f.wire, target, true)
    ensures var f := FetchRecords(c, token, cache, wire, useCache);
            var (w, reply) := Exchange(f.wire, CreateRequest(c, Some(token), target));
            var r := UpdateSpec(c, token, cache, wire, target, useCache);
            CachedRecords(f.cache) == Some(m) ==> r.wire == w && r.outcome == Acknowledged(reply)
  {
    var f := FetchRecords(c, token, cache, wire, useCache);
    if CachedRecords(f.cache) == Some(m) {
      assert FetchedAs(c, token, f.cache, f.wire, true, m);
      CreateWhenAbsent(c, token, f.cache, f.wire, target, true, m);
    }
  }

  /** The client object. `net` is the network it talks to; the other fields are the ones the
      source updates in place. */
  class Client {
    const config: Settings
    const net: Network
    var isLoggedIn: bool
    var sessionToken: Option<string>
    var cache: Cache

    ghost predicate Valid()
      reads this
    {
      WellTyped(cache) && (isLoggedIn <==> sessionToken.Some?)
    }

    constructor (config: Settings, net: Network)
      ensures Valid() && this.config == config && this.net == net
      ensures !isLoggedIn && sessionToken == None && cache == map[]
    {
      this.config := config;
      this.net := net;
      isLoggedIn := false;
      sessionToken := None;
      cache := map[];
    }

    /** Sends a POST to the endpoint; an authenticated call requires a session and carries its
        token. */
    method Post(endpoint: string, payload: Payload, authenticate: bool) returns (response: Option<Reply>)
      requires authenticate ==> isLoggedIn
      modifies net
      ensures (net.State(), response)
              == Exchange(old(net.State()),
                          Request.Post(FormEndpoint(config.url, endpoint), payload,
                                       if authenticate then sessionToken else None))
    {
      var endpointUrl := FormEndpoint(config.url, endpoint);
      var token := None;
      if authenticate {
        token := sessionToken;
      }
      response := net.Send(Request.Post(endpointUrl, payload, token));
    }

    /** Sends a GET to the endpoint; an authenticated call requires a session and carries its
        token. */
    method Get(endpoint: string, authenticate: bool) returns (response: Option<Reply>)
      requires authenticate ==> isLoggedIn
      modifies net
      ensures (net.State(), response)
              == Exchange(old(net.State()),
                          Request.Get(FormEndpoint(config.url, endpoint),
                                      if authenticate then sessionToken else None))
    {
      var endpointUrl := FormEndpoint(config.url, endpoint);
      var token := None;
      if authenticate {
        token := sessionToken;
      }
      response := net.Send(Request.Get(endpointUrl, token));
    }

    /** Logs in with the configured credentials. On code 100 the returned token becomes the
        session and the whole cache is emptied; otherwise nothing changes. */
    method Login() returns (o: Outcome<bool>)
      requires Valid()
      modifies this, net
      ensures Valid()
      ensures net.State() == Exchange(old(net.State()), LoginRequest(config)).0
      ensures var reply := Exchange(old(net.State()), LoginRequest(config)).1;
              if reply.Some? && reply.value.code == Success && reply.value.sessionToken.Some? then
                o == Returned(true) && isLoggedIn && sessionToken == reply.value.sessionToken && cache == map[]
              else
                isLoggedIn == old(isLoggedIn) && sessionToken == old(sessionToken) && cache == old(cache) &&
                o == (if reply.None? then Raised(NoResponse)
                      else if reply.value.code == Success then Raised(MissingKey("session_token"))
                      else Returned(false))
    {
      var response := Post("/api/login", LoginBody(config.username, config.apiToken), false);
      if response.None? {
        return Raised(NoResponse);
      }
      if response.value.code == Success {
        if response.value.sessionToken.None? {
          return Raised(MissingKey("session_token"));
        }
        sessionToken := response.value.sessionToken;
        isLoggedIn := true;
        InvalidateCache();
        return Returned(true);
      }
      return Returned(false);
    }

    /** Logs out. On code 100 the session is cleared and the whole cache emptied; otherwise
        nothing changes. */
    method Logout() returns (o: Outcome<bool>)
      requires Valid() && isLoggedIn
      modifies this, net
      ensures Valid()
      ensures net.State() == Exchange(old(net.State()), LogoutRequest(config, old(sessionToken))).0
      ensures var reply := Exchange(old(net.State()), LogoutRequest(config, old(sessionToken))).1;
              if reply.Some? && reply.value.code == Success then
                o == Returned(true) && !isLoggedIn && sessionToken == None && cache == map[]
              else
                o == Acknowledged(reply) &&
                isLoggedIn && sessionToken == old(sessionToken) && cache == old(cache)
    {
      var response := Get("/api/logout", true);
      if response.None? {
        return Raised(NoResponse);
      }
      if response.value.code == Success {
        sessionToken := None;
        isLoggedIn := false;
        InvalidateCache();
        return Returned(true);
      }
      return Returned(false);
    }

    /** The domain list: the cached line when `useCache` and it is set, with no request;
        otherwise one request, whose list (on code 100) is stored in the domains line. Any
        other code yields an empty object and leaves the cache as it was. */
    method GetDomains(useCache: bool) returns (o: Outcome<Json>)
      requires Valid() && isLoggedIn
      modifies this`cache, net
      ensures Valid()
      ensures useCache && DomainsKey in old(cache) ==>
                o == Returned(old(cache)[DomainsKey].domains) &&
                cache == old(cache) && net.State() == old(net.State())
      ensures !(useCache && DomainsKey in old(cache)) ==>
                var (w, reply) := Exchange(old(net.State()), DomainListRequest(config, sessionToken));
                net.State() == w &&
                if reply.Some? && reply.value.code == Success && reply.value.domains.Some? then
                  o == Returned(reply.value.domains.value) &&
                  cache == old(cache)[DomainsKey := DomainsLine(reply.value.domains.value)]
                else
                  cache == old(cache) &&
                  o == (if reply.None? then Raised(NoResponse)
                        else if reply.value.code == Success then Raised(MissingKey("domains"))
                        else Returned(JObject(map[])))
    {
      if useCache {
        var hit := IsCacheLineSet(DomainsKey);
        if hit {
          var line := GetCacheLine(DomainsKey);
          return Returned(line.domains);
        }
      }
      var response := Get("/api/domain/list", true);
      if response.None? {
        return Raised(NoResponse);
      }
      if response.value.code == Success {
        if response.value.domains.None? {
          return Raised(MissingKey("domains"));
        }
        SetCacheLine(DomainsKey, DomainsLine(response.value.domains.value));
        return Returned(response.value.domains.value);
      }
      return Returned(JObject(map[]));
    }

    /** The A records keyed by name (see `FetchRecords`). */
    method GetRecords(useCache: bool) returns (o: Outcome<map<string, ARecord>>)
      requires Valid() && isLoggedIn
      modifies this`cache, net
      ensures Valid()
      ensures Step(cache, net.State(), o)
              == FetchRecords(config, sessionToken.value, old(cache), old(net.State()), useCache)
    {
      if useCache {
        var hit := IsCacheLineSet(RecordsKey);
        if hit {
          var line := GetCacheLine(RecordsKey);
          return Returned(line.records);
        }
      }
      var result := map[];
      var response := Get("/api/dns/list/" + config.domain, true);
      if response.None? {
        return Raised(NoResponse);
      }
      if response.value.code == Success {
        if response.value.records.None? {
          return Raised(MissingKey("records"));
        }
        result := Restructure(response.value.records.value);
        SetCacheLine(RecordsKey, RecordsLine(result));
      }
      return Returned(result);
    }

    /** Makes the fqdn's A record point at `target` (see `CreateSpec`). */
    method CreateRecord(target: string, useCache: bool) returns (o: Outcome<bool>)
      requires Valid() && isLoggedIn
      modifies this`cache, net
      ensures Valid()
      ensures Step(cache, net.State(), o)
              == CreateSpec(config, sessionToken.value, old(cache), old(net.State()), target, useCache)
      decreases Rank(Create, Phase(config, cache, useCache))
    {
      var records := GetRecords(useCache);
      if records.Raised? {
        return Raised(records.fault);
      }
      if config.Fqdn() in records.value {
        var record := records.value[config.Fqdn()];
        if record.content == target {
          return Returned(true);
        }
        o := UpdateRecord(target, true);
        return;
      }
      var response := Post("/api/dns/create/" + config.domain,
                           CreateBody(config.subdomain, "A", target, 300, 10), true);
      if response.None? {
        return Raised(NoResponse);
      }
      if response.value.code == Success {
        InvalidateCacheLine(RecordsKey);
        return Returned(true);
      }
      return Returned(false);
    }

    /** Removes the fqdn's A record (see `DeleteSpec`). */
    method DeleteRecord(useCache: bool) returns (o: Outcome<bool>)
      requires Valid() && isLoggedIn
      modifies this`cache, net
      ensures Valid()
      ensures Step(cache, net.State(), o)
              == DeleteSpec(config, sessionToken.value, old(cache), old(net.State()), useCache)
    {
      var records := GetRecords(useCache);
      if records.Raised? {
        return Raised(records.fault);
      }
      if config.Fqdn() !in records.value {
        return Returned(true);
      }
      var record := records.value[config.Fqdn()];
      var response := Post("/api/dns/delete/" + config.domain, DeleteBody(record.recordId), true);
      if response.None? {
        return Raised(NoResponse);
      }
      if response.value.code == Success {
        var remaining := records.value - {config.Fqdn()};
        SetCacheLine(RecordsKey, RecordsLine(remaining));
        return Returned(true);
      }
      return Returned(false);
    }

    /** Makes the fqdn's A record point at `target` by delete and create (see `UpdateSpec`). */
    method UpdateRecord(target: string, useCache: bool) returns (o: Outcome<bool>)
      requires Valid() && isLoggedIn
      modifies this`cache, net
      ensures Valid()
      ensures Step(cache, net.State(), o)
              == UpdateSpec(config, sessionToken.value, old(cache), old(net.State()), target, useCache)
      decreases Rank(Update, Phase(config, cache, useCache))
    {
      var records := GetRecords(useCache);
      if records.Raised? {
        return Raised(records.fault);
      }
      if config.Fqdn() in records.value {
        var record := records.value[config.Fqdn()];
        if record.content == target {
          return Returned(true);
        }
        var deleted := DeleteRecord(true);
        if deleted != Returned(true) {
          return deleted;
        }
        o := CreateRecord(target, true);
        return;
      }
      o := CreateRecord(target, true);
    }

    /** Empties the whole cache. */
    method InvalidateCache()
      modifies this`cache
      ensures cache == map[]
    {
      cache := map[];
    }

    /** Removes the one line `key`, if present; every other line is kept. */
    method InvalidateCacheLine(key: string)
      modifies this`cache
      ensures key !in cache && cache == old(cache) - {key}
    {
      if key in cache {
        cache := cache - {key};
      }
    }

    /** Stores `value` under `key`; every other line is kept. */
    method SetCacheLine(key: string, value: CacheLine)
      modifies this`cache
      ensures key in cache && cache[key] == value
      ensures cache == old(cache)[key := value]
    {
      cache := cache[key := value];
    }

    method IsCacheLineSet(key: string) returns (isSet: bool)
      ensures isSet <==> key in cache
    {
      isSet := key in cache;
    }

    /** The value last stored under `key`. */
    method GetCacheLine(key: string) returns (value: CacheLine)
      requires key in cache
      ensures value == cache[key]
    {
      value := cache[key];
    }
  }
}
