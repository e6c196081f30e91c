/** The client of `src/APIClient.py`, the older variant: a session with no cache. A record
    operation can be handed a record map; a missing or empty one is fetched again. Create never
    updates an existing record, and logout leaves the session as it was. */
module SrcClient {
  import opened Outcomes
  import opened Json
  import opened Records
  import opened Config
  import opened Transport
  import opened Endpoint

  /** The requests sent from `before` to `after` extend the log and number at most `budget`. */
  predicate Extends(before: Wire, after: Wire, budget: nat)
  {
    before.sent <= after.sent && |after.sent| <= |before.sent| + budget
  }

  lemma ExtendsTrans(a: Wire, b: Wire, c: Wire, n: nat, m: nat)
    requires Extends(a, b, n) && Extends(b, c, m)
    ensures Extends(a, c, n + m)
  {
    assert c.sent[..|a.sent|] == b.sent[..|a.sent|];
  }

  /** `get_dns_A_records`: one list request, made into the map of A records on code 100 and an
      empty map on any other code. */
  function FetchRecords(c: Settings, token: Option<string>, wire: Wire): (r: (Wire, Outcome<map<string, ARecord>>))
    ensures Extends(wire, r.0, 1) && |r.0.sent| == |wire.sent| + 1
    ensures r.0.sent[|wire.sent|] == RecordListRequest(c, token)
  {
    var exchanged := Exchange(wire, RecordListRequest(c, token));
    var w, reply := exchanged.0, exchanged.1;
    (w, RecordsFrom(reply))
  }

  /** `dns_A_records or self.get_dns_A_records()`: a map that was passed in and is not empty
      is used as it is; a missing or empty one is fetched. */
  function Known(c: Settings, token: Option<string>, wire: Wire, given: Option<map<string, ARecord>>)
    : (r: (Wire, Outcome<map<string, ARecord>>))
    ensures given.Some? && given.value != map[] ==> r == (wire, Returned(given.value))
    ensures !(given.Some? && given.value != map[]) ==> r == FetchRecords(c, token, wire)
    ensures Extends(wire, r.0, 1)
    ensures forall i | |wire.sent| <= i < |r.0.sent| :: r.0.sent[i] == RecordListRequest(c, token)
  {
    if given.Some? && given.value != map[] then (wire, Returned(given.value))
    else FetchRecords(c, token, wire)
  }

  /** `create_dns_A_record`: when the fqdn has a record, whether it already holds the target,
      with no request; otherwise one create request. */
  function CreateSpec(c: Settings, token: Option<string>, wire: Wire, target: string,
                      given: Option<map<string, ARecord>>): (r: (Wire, Outcome<bool>))
    ensures Extends(wire, r.0, 2)
    ensures given.Some? && given.value != map[] ==> Extends(wire, r.0, 1)
    ensures forall i | |wire.sent| <= i < |r.0.sent| && Mutates(r.0.sent[i]) ::
              r.0.sent[i] == CreateRequest(c, token, target)
  {
    var fetched := Known(c, token, wire, given);
    var w, records := fetched.0, fetched.1;
    if records.Raised? then (w, Raised(records.fault))
    else if c.Fqdn() in records.value then (w, Returned(records.value[c.Fqdn()].content == target))
    else
      var exchanged := Exchange(w, CreateRequest(c, token, target));
      var w2, reply := exchanged.0, exchanged.1;
      (w2, Acknowledged(reply))
  }

  /** `delete_dns_A_record`: true with no request when the fqdn has no record; otherwise one
      delete request for its `record_id`. */
  function DeleteSpec(c: Settings, token: Option<string>, wire: Wire, given: Option<map<string, ARecord>>)
    : (r: (Wire, Outcome<bool>))
    ensures Extends(wire, r.0, 2)
    ensures given.Some? && given.value != map[] ==> Extends(wire, r.0, 1)
    ensures forall i | |wire.sent| <= i < |r.0.sent| :: !(r.0.sent[i].Post? && r.0.sent[i].payload.CreateBody?)
  {
    var fetched := Known(c, token, wire, given);
    var w, records := fetched.0, fetched.1;
    if records.Raised? then (w, Raised(records.fault))
    else if c.Fqdn() !in records.value then (w, Returned(true))
    else
      var exchanged := Exchange(w, DeleteRequest(c, token, records.value[c.Fqdn()].recordId));
      var w2, reply := exchanged.0, exchanged.1;
      (w2, Acknowledged(reply))
  }

  /** `update_dns_A_record`: fetches the records; true when the fqdn already holds the target;
      when it holds another address, a delete with the fetched map and, only if that succeeds,
      a create that fetches again; when it has no record, a create with the fetched map. */
  function UpdateSpec(c: Settings, token: Option<string>, wire: Wire, target: string): (r: (Wire, Outcome<bool>))
    ensures Extends(wire, r.0, 4)
  {
    var fetched := FetchRecords(c, token, wire);
    var w, records := fetched.0, fetched.1;
    if records.Raised? then (w, Raised(records.fault))
    else if c.Fqdn() in records.value then
      if records.value[c.Fqdn()].content == target then (w, Returned(true))
      else
        var d := DeleteSpec(c, token, w, Some(records.value));
        var w1, deleted := d.0, d.1;
        ExtendsTrans(wire, w, w1, 1, 1);
        if deleted != Returned(true) then (w1, deleted)
        else
          var r := CreateSpec(c, token, w1, target, None);
          ExtendsTrans(wire, w1, r.0, 2, 2);
          r
    else
      var r := CreateSpec(c, token, w, target, Some(records.value));
      ExtendsTrans(wire, w, r.0, 1, 2);
      r
  }

  /** An empty map handed to create or delete is no map at all: both fetch the records first. */
  lemma EmptyMapRefetched(c: Settings, token: Option<string>, wire: Wire, target: string)
    ensures CreateSpec(c, token, wire, target, Some(map[])) == CreateSpec(c, token, wire, target, None)
    ensures DeleteSpec(c, token, wire, Some(map[])) == DeleteSpec(c, token, wire, None)
    ensures CreateSpec(c, token, wire, target, Some(map[])).0.sent[|wire.sent|] == RecordListRequest(c, token)
    ensures DeleteSpec(c, token, wire, Some(map[])).0.sent[|wire.sent|] == RecordListRequest(c, token)
  {
  }

  /** Create finds the fqdn in the map it decides on (the one handed in, or else the fetched
      one): it answers whether that record holds the target, with no request beyond the fetch,
      whatever the address; with a non-empty map handed in, no request at all. */
  lemma CreateWhenPresent(c: Settings, token: Option<string>, wire: Wire, target: string,
                          given: Option<map<string, ARecord>>, m: map<string, ARecord>)
    requires Known(c, token, wire, given).1 == Returned(m) && c.Fqdn() in m
    ensures CreateSpec(c, token, wire, target, given)
            == (Known(c, token, wire, given).0, Returned(m[c.Fqdn()].content == target))
    ensures given == Some(m) ==> CreateSpec(c, token, wire, target, given) == (wire, Returned(m[c.Fqdn()].content == target))
  {
  }

  /** Create finds no record for the fqdn in the map it decides on: after the fetch, if any,
      exactly one create request (hostname the subdomain, type A, the target, ttl 300,
      priority 10), true exactly on code 100. */
  lemma CreateWhenAbsent(c: Settings, token: Option<string>, wire: Wire, target: string,
                         given: Option<map<string, ARecord>>, m: map<string, ARecord>)
    requires Known(c, token, wire, given).1 == Returned(m) && c.Fqdn() !in m
    ensures var (w, reply) := Exchange(Known(c, token, wire, given).0, CreateRequest(c, token, target));
            CreateSpec(c, token, wire, target, given) == (w, Acknowledged(reply))
    ensures given == Some(m) && m != map[] ==>
              var (w, reply) := Exchange(wire, CreateRequest(c, token, target));
              CreateSpec(c, token, wire, target, given) == (w, Acknowledged(reply))
    ensures CreateRequest(c, token, target).payload == CreateBody(c.subdomain, "A", target, 300, 10)
  {
  }

  /** Delete finds no record for the fqdn in the map it decides on: true, with no request
      beyond the fetch; with a non-empty map handed in, no request at all. */
  lemma DeleteWhenAbsent(c: Settings, token: Option<string>, wire: Wire,
                         given: Option<map<string, ARecord>>, m: map<string, ARecord>)
    requires Known(c, token, wire, given).1 == Returned(m) && c.Fqdn() !in m
    ensures DeleteSpec(c, token, wire, given) == (Known(c, token, wire, given).0, Returned(true))
    ensures given == Some(m) && m != map[] ==> DeleteSpec(c, token, wire, given) == (wire, Returned(true))
  {
  }

  /** Delete finds the fqdn in the map it decides on: after the fetch, if any, exactly one
      delete request for that record's `record_id`, true exactly on code 100. */
  lemma DeleteWhenPresent(c: Settings, token: Option<string>, wire: Wire,
                          given: Option<map<string, ARecord>>, m: map<string, ARecord>)
    requires Known(c, token, wire, given).1 == Returned(m) && c.Fqdn() in m
    ensures var (w, reply) := Exchange(Known(c, token, wire, given).0, DeleteRequest(c, token, m[c.Fqdn()].recordId));
            DeleteSpec(c, token, wire, given) == (w, Acknowledged(reply))
    ensures given == Some(m) ==>
              var (w, reply) := Exchange(wire, DeleteRequest(c, token, m[c.Fqdn()].recordId));
              DeleteSpec(c, token, wire, given) == (w, Acknowledged(reply))
  {
  }

  /** The list request an update starts with and the map it yields. */
  predicate FetchedAs(c: Settings, token: Option<string>, wire: Wire, records: map<string, ARecord>)
  {
    FetchRecords(c, token, wire).1 == Returned(records)
  }

  /** Update finds the fqdn already holding the target: true after the list request alone,
      so no request that changes a record. */
  lemma UpdateWhenMatching(c: Settings, token: Option<string>, wire: Wire, target: string, records: map<string, ARecord>)
    requires FetchedAs(c, token, wire, records)
    requires c.Fqdn() in records && records[c.Fqdn()].content == target
    ensures UpdateSpec(c, token, wire, target) == (FetchRecords(c, token, wire).0, Returned(true))
    ensures var r := UpdateSpec(c, token, wire, target);
            forall i | |wire.sent| <= i < |r.0.sent| :: !Mutates(r.0.sent[i])
  {
  }

  /** Update finds the fqdn holding another address: a delete request for its `record_id`;
      on failure the answer is the delete's, with nothing more sent; on success a create that
      fetches the records afresh. */
  lemma UpdateWhenDiffering(c: Settings, token: Option<string>, wire: Wire, target: string, records: map<string, ARecord>)
    requires FetchedAs(c, token, wire, records)
    requires c.Fqdn() in records && records[c.Fqdn()].content != target
    ensures var w := FetchRecords(c, token, wire).0;
            var (w1, reply) := Exchange(w, DeleteRequest(c, token, records[c.Fqdn()].recordId));
            UpdateSpec(c, token, wire, target)
            == if Acknowledged(reply) != Returned(true) then (w1, Acknowledged(reply))
               else CreateSpec(c, token, w1, target, None)
  {
  }

  /** Update finds no record for the fqdn: a create with the fetched map, which fetches once
      more when that map is empty. */
  lemma UpdateWhenAbsent(c: Settings, token: Option<string>, wire: Wire, target: string, records: map<string, ARecord>)
    requires FetchedAs(c, token, wire, records) && c.Fqdn() !in records
    ensures var w := FetchRecords(c, token, wire).0;
            UpdateSpec(c, token, wire, target) == CreateSpec(c, token, w, target, Some(records))
    ensures records == map[] ==>
              var w := FetchRecords(c, token, wire).0;
              UpdateSpec(c, token, wire, target) == CreateSpec(c, token, w, target, None)
  {
  }

  /** The client object. `net` is the network it talks to; the session fields are the ones
      the source updates in place. */
  class Client {
    const config: Settings
    const net: Network
    var isLoggedIn: bool
    var sessionToken: Option<string>

    ghost predicate Valid()
      reads this
    {
      isLoggedIn <==> sessionToken.Some?
    }

    constructor (config: Settings, net: Network)
      ensures Valid() && this.config == config && this.net == net
      ensures !isLoggedIn && sessionToken == None
    {
      this.config := config;
      this.net := net;
      isLoggedIn := false;
      sessionToken := None;
    }

    /** Sends a POST to the endpoint; an authenticated call requires a session and carries its
        token. */
    method Post(endpoint: string, payload: Payload, authenticate: bool) returns (response: Option<Reply>)
      requires authenticate ==> isLoggedIn
      modifies net
      ensures (net.State(), response)
              == Exchange(old(net.State()),
                          Request.Post(FormEndpoint(config.url, endpoint), payload,
                                       if authenticate then sessionToken else None))
    {
      var endpointUrl := FormEndpoint(config.url, endpoint);
      var token := None;
      if authenticate {
        token := sessionToken;
      }
      response := net.Send(Request.Post(endpointUrl, payload, token));
    }

    /** Sends a GET to the endpoint; an authenticated call requires a session and carries its
        token. */
    method Get(endpoint: string, authenticate: bool) returns (response: Option<Reply>)
      requires authenticate ==> isLoggedIn
      modifies net
      ensures (net.State(), response)
              == Exchange(old(net.State()),
                          Request.Get(FormEndpoint(config.url, endpoint),
                                      if authenticate then sessionToken else None))
    {
      var endpointUrl := FormEndpoint(config.url, endpoint);
      var token := None;
      if authenticate {
        token := sessionToken;
      }
      response := net.Send(Request.Get(endpointUrl, token));
    }

    /** Logs in with the configured credentials. On code 100 the returned token becomes the
        session; otherwise nothing changes. */
    method Login() returns (o: Outcome<bool>)
      requires Valid()
      modifies this, net
      ensures Valid()
      ensures net.State() == Exchange(old(net.State()), LoginRequest(config)).0
      ensures var reply := Exchange(old(net.State()), LoginRequest(config)).1;
              if reply.Some? && reply.value.code == Success && reply.value.sessionToken.Some? then
                o == Returned(true) && isLoggedIn && sessionToken == reply.value.sessionToken
              else
                isLoggedIn == old(isLoggedIn) && sessionToken == old(sessionToken) &&
                o == (if reply.None? then Raised(NoResponse)
                      else if reply.value.code == Success then Raised(MissingKey("session_token"))
                      else Returned(false))
    {
      var response := Post("/api/login", LoginBody(config.username, config.apiToken), false);
      if response.None? {
        return Raised(NoResponse);
      }
      if response.value.code == Success {
        if response.value.sessionToken.None? {
          return Raised(MissingKey("session_token"));
        }
        sessionToken := response.value.sessionToken;
        isLoggedIn := true;
        return Returned(true);
      }
      return Returned(false);
    }

    /** Logs out: answers whether the server took the logout, and keeps the session either way. */
    method Logout() returns (o: Outcome<bool>)
      requires isLoggedIn
      modifies net
      ensures (net.State(), o) == (var (w, reply) := Exchange(old(net.State()), LogoutRequest(config, sessionToken));
                                   (w, Acknowledged(reply)))
      ensures isLoggedIn && sessionToken == old(sessionToken)
    {
      var response := Get("/api/logout", true);
      o := if response.None? then Raised(NoResponse) else Returned(response.value.code == Success);
    }

    /** The domain list of a code-100 reply; an empty object on any other code. */
    method GetDomains() returns (o: Outcome<Json>)
      requires isLoggedIn
      modifies net
      ensures var (w, reply) := Exchange(old(net.State()), DomainListRequest(config, sessionToken));
              net.State() == w &&
              o == (if reply.None? then Raised(NoResponse)
                    else if reply.value.code != Success then Returned(JObject(map[]))
                    else if reply.value.domains.None? then Raised(MissingKey("domains"))
                    else Returned(reply.value.domains.value))
    {
      var response := Get("/api/domain/list", true);
      if response.None? {
        return Raised(NoResponse);
      }
      if response.value.code == Success {
        if response.value.domains.None? {
          return Raised(MissingKey("domains"));
        }
        return Returned(response.value.domains.value);
      }
      return Returned(JObject(map[]));
    }

    /** The A records keyed by name (see `FetchRecords`). */
    method GetRecords() returns (o: Outcome<map<string, ARecord>>)
      requires isLoggedIn
      modifies net
      ensures (net.State(), o) == FetchRecords(config, sessionToken, old(net.State()))
    {
      var result := map[];
      var response := Get("/api/dns/list/" + config.domain, true);
      if response.None? {
        return Raised(NoResponse);
      }
      if response.value.code == Success {
        if response.value.records.None? {
          return Raised(MissingKey("records"));
        }
        result := Restructure(response.value.records.value);
      }
      return Returned(result);
    }

    /** `dns_A_records or self.get_dns_A_records()`. */
    method KnownRecords(given: Option<map<string, ARecord>>) returns (o: Outcome<map<string, ARecord>>)
      requires isLoggedIn || (given.Some? && given.value != map[])
      modifies net
      ensures (net.State(), o) == Known(config, sessionToken, old(net.State()), given)
    {
      if given.Some? && given.value != map[] {
        return Returned(given.value);
      }
      o := GetRecords();
    }

    /** Makes sure the fqdn has an A record (see `CreateSpec`); a session is needed unless the
        map handed in already has the fqdn. */
    method CreateRecord(target: string, given: Option<map<string, ARecord>>) returns (o: Outcome<bool>)
      requires isLoggedIn || (given.Some? && given.value != map[] && config.Fqdn() in given.value)
      modifies net
      ensures (net.State(), o) == CreateSpec(config, sessionToken, old(net.State()), target, given)
    {
      var records := KnownRecords(given);
      if records.Raised? {
        return Raised(records.fault);
      }
      if config.Fqdn() in records.value {
        var record := records.value[config.Fqdn()];
        return Returned(record.content == target);
      }
      var response := Post("/api/dns/create/" + config.domain,
                           CreateBody(config.subdomain, "A", target, 300, 10), true);
      o := if response.None? then Raised(NoResponse) else Returned(response.value.code == Success);
    }

    /** Removes the fqdn's A record (see `DeleteSpec`); a session is needed unless the map handed
        in shows there is nothing to remove. */
    method DeleteRecord(given: Option<map<string, ARecord>>) returns (o: Outcome<bool>)
      requires isLoggedIn || (given.Some? && given.value != map[] && config.Fqdn() !in given.value)
      modifies net
      ensures (net.State(), o) == DeleteSpec(config, sessionToken, old(net.State()), given)
    {
      var records := KnownRecords(given);
      if records.Raised? {
        return Raised(records.fault);
      }
      if config.Fqdn() !in records.value {
        return Returned(true);
      }
      var record := records.value[config.Fqdn()];
      var response := Post("/api/dns/delete/" + config.domain, DeleteBody(record.recordId), true);
      o := if response.None? then Raised(NoResponse) else Returned(response.value.code == Success);
    }

    /** Makes the fqdn's A record hold `target` (see `UpdateSpec`). */
    method UpdateRecord(target: string) returns (o: Outcome<bool>)
      requires isLoggedIn
      modifies net
      ensures (net.State(), o) == UpdateSpec(config, sessionToken, old(net.State()), target)
    {
      var records := GetRecords();
      if records.Raised? {
        return Raised(records.fault);
      }
      if config.Fqdn() in records.value {
        var record := records.value[config.Fqdn()];
        if record.content == target {
          return Returned(true);
        }
        var deleted := DeleteRecord(Some(records.value));
        if deleted != Returned(true) {
          return deleted;
        }
        o := CreateRecord(target, None);
        return;
      }
      o := CreateRecord(target, Some(records.value));
    }
  }
}
