/** The remote Name.com API as the clients see it: requests go out, replies come back. The
    network is an oracle, a scripted queue of replies; a transport failure (connection error,
    status other than 200) is a `None` reply, and so is every request after the script runs out. */
module Transport {
  import opened Outcomes
  import opened Json
  import opened Records
  import opened Config
  import opened Endpoint

  /** The `result.code` of a successful call. */
  const Success := 100

  /** A decoded reply: `result.code` and the keys the clients read, each possibly missing. */
  datatype Reply = Reply(
    code: int,
    sessionToken: Option<string>,
    domains: Option<Json>,
    records: Option<seq<Entry>>)

  datatype Payload =
    | LoginBody(username: string, apiToken: string)
    | CreateBody(hostname: string, rtype: string, content: string, ttl: int, priority: int)
    | DeleteBody(recordId: string)

  /** A request as it goes out: the full URL and, on an authenticated call, the value of the
      `Api-Session-Token` header. */
  datatype Request =
    | Get(url: string, token: Option<string>)
    | Post(url: string, payload: Payload, token: Option<string>)

  /** A request that changes the DNS records. */
  predicate Mutates(r: Request)
  {
    r.Post? && (r.payload.CreateBody? || r.payload.DeleteBody?)
  }

  /** The replies still to come and the requests sent so far. */
  datatype Wire = Wire(replies: seq<Option<Reply>>, sent: seq<Request>)

  /** One round trip: the request is logged and the next scripted reply is taken. */
  function Exchange(w: Wire, req: Request): (Wire, Option<Reply>)
  {
    if w.replies == [] then (Wire([], w.sent + [req]), None)
    else (Wire(w.replies[1..], w.sent + [req]), w.replies[0])
  }

  function LoginRequest(c: Settings): Request
  {
    Post(FormEndpoint(c.url, "/api/login"), LoginBody(c.username, c.apiToken), None)
  }

  function LogoutRequest(c: Settings, token: Option<string>): Request
  {
    Get(FormEndpoint(c.url, "/api/logout"), token)
  }

  function DomainListRequest(c: Settings, token: Option<string>): Request
  {
    Get(FormEndpoint(c.url, "/api/domain/list"), token)
  }

  function RecordListRequest(c: Settings, token: Option<string>): Request
  {
    Get(FormEndpoint(c.url, "/api/dns/list/" + c.domain), token)
  }

  /** The create call: hostname is the subdomain, type `A`, ttl 300, priority 10. */
  function CreateRequest(c: Settings, token: Option<string>, target: string): Request
  {
    Post(FormEndpoint(c.url, "/api/dns/create/" + c.domain), CreateBody(c.subdomain, "A", target, 300, 10), token)
  }

  function DeleteRequest(c: Settings, token: Option<string>, recordId: string): Request
  {
    Post(FormEndpoint(c.url, "/api/dns/delete/" + c.domain), DeleteBody(recordId), token)
  }

  /** What `get_dns_A_records` makes of the reply to its list request: on code 100 the
      type-`A` records keyed by name (`AMap`, whose values `AMapLastWins` gives); an empty map on any
      other code; it raises on a missing reply and on a code-100 reply without `records`. */
  function RecordsFrom(reply: Option<Reply>): (r: Outcome<map<string, ARecord>>)
    ensures r.Returned? && r.value != map[] ==> reply.Some? && reply.value.code == Success
    ensures reply.None? ==> r == Raised(NoResponse)
    ensures reply.Some? && reply.value.code != Success ==> r == Returned(map[])
    ensures reply.Some? && reply.value.code == Success && reply.value.records.None? ==> r == Raised(MissingKey("records"))
    ensures reply.Some? && reply.value.code == Success && reply.value.records.Some? ==>
              r == Returned(AMap(reply.value.records.value)) && r.value.Keys == ANames(reply.value.records.value)
  {
    if reply.None? then Raised(NoResponse)
    else if reply.value.code != Success then Returned(map[])
    else if reply.value.records.None? then Raised(MissingKey("records"))
    else
      AMapKeys(reply.value.records.value);
      Returned(AMap(reply.value.records.value))
  }

  /** `response['result']['code'] == 100`, raising on a missing reply. */
  function Acknowledged(reply: Option<Reply>): Outcome<bool>
  {
    if reply.None? then Raised(NoResponse) else Returned(reply.value.code == Success)
  }

  /** The network: the replies it will give, in order, and the log of what was sent. */
  class Network {
    var replies: seq<Option<Reply>>
    var sent: seq<Request>

    function State(): Wire
      reads this
    {
      Wire(replies, sent)
    }

    constructor (script: seq<Option<Reply>>)
      ensures State() == Wire(script, [])
    {
      replies, sent := script, [];
    }

    /** Sends one request and returns the reply, `None` on a transport failure. */
    method Send(req: Request) returns (reply: Option<Reply>)
      modifies this
      ensures sent == old(sent) + [req]
      ensures (State(), reply) == Exchange(old(State()), req)
    {
      sent := sent + [req];
      if replies == [] {
        reply := None;
      } else {
        reply := replies[0];
        replies := replies[1..];
      }
    }
  }
}
