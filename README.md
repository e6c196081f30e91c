# dynipsync: the Name.com API client and its configuration, in Dafny

dynipsync keeps one DNS A record at Name.com (the record named `subdomain.domain`, the
fqdn) pointing at a target address. This project models the part that does the work:

- **`lib/APIClient.py`**, the newer client (`lib_client.dfy`, module `LibClient`). It is a class
  with three in-place fields: the session (`isLoggedIn`, `sessionToken`) and a cache of named
  lines (`domains`, `records`). Login and logout empty the cache. Create, delete and update
  reconcile the fqdn's A record with a target. Create calls update when the record holds another
  address, and update calls delete and then create. Each record method is proved equal to a
  specification function over the cache and the network. Those functions are mutually recursive,
  and their termination is proved by a measure built from what the cache holds for the fqdn.
  The proof also bounds the requests: at most 3 for a create and 4 for an update, all carrying
  the session token.
- **`src/APIClient.py`**, the older client (`src_client.dfy`, module `SrcClient`). It has a
  session and no cache. A record map can be handed to create and delete. A missing or empty map
  is fetched again. Create never updates an existing record; it only answers whether the record
  already holds the target. Logout does not clear the session.
- **`src/ConfigFile.py`** (`config.dfy`, module `Config`). `parse_data` selects the environment
  section that the `environment` key names. It checks three required keys, assigns the
  attributes one by one and derives the fqdn. `is_test_environment` is also modelled.

Shared pieces:
- `endpoint.dfy`: `form_endpoint`, which is identical in both clients.
- `records.dfy`: the loop that turns the record list into a map keyed by name.
- `transport.dfy`: the requests and replies of the API and the network.
- `json.dfy`: decoded JSON values.
- `outcomes.dfy`: `Option`, and `Outcome`, which is either a returned value or a raised
  exception.

How the network is modelled: the network (`Transport.Network`) is an oracle. It holds a
scripted queue of replies and logs every request sent. A transport failure, a status other than
200, or an exhausted script gives a missing reply. Both clients index `response['result']`
without a guard, so a missing reply *raises*, and the model says so (`Raised(NoResponse)`); it
is not modelled as `False`. A reply is a success when its `result.code` is 100.

How Python is modelled:
- A Python exception becomes `Raised(fault)`. The state changes made before the exception
  stay in place.
- `assert self.is_logged_in` becomes a `requires isLoggedIn`. In `get`/`post` it becomes
  `requires authenticate ==> isLoggedIn`.
- `deepcopy` needs no counterpart: Dafny maps and datatypes are values.

## Model

| member | source | states |
|---|---|---|
| Endpoint.FormEndpoint | lib/APIClient.py:196-205 | the URL starts with the base URL and ends with the path; its length is the sum of both plus one, less one for a trailing slash on the base and one for a leading slash on the path |
| Endpoint.JoinIsSlash | lib/APIClient.py:199-205 | where the base URL (less at most one trailing slash) ends, the URL has exactly one joining `/` |
| Endpoint.OneSlashEitherWay | src/APIClient.py:124-133 | with no boundary slashes the URL is `url + "/" + endpoint`, and adding a boundary slash on either side or both gives the same URL |
| Endpoint.OnlyOneSlashStripped | src/APIClient.py:127-131 | only one slash is stripped: a base URL ending in `//` with a path starting with `/` keeps a doubled slash |
| Records.AMapKeys | src/APIClient.py:67-72 | the keys of the record map are exactly the names of the type-`A` entries |
| Records.AMapLastWins | lib/APIClient.py:96-101 | the value under a name is the last type-`A` entry with that name, without its `name` and `type` |
| Records.Restructure | lib/APIClient.py:96-101 | the loop builds exactly that map, and its keys are the names of the type-`A` entries |
| Transport.RecordsFrom | src/APIClient.py:61-74 | a missing reply raises; a code other than 100 gives `{}`; code 100 without `records` raises; code 100 with records gives `AMap` of the entries (each name's last type-`A` entry, see `Records.AMapLastWins`), whose keys are exactly the type-`A` names |
| Transport.Network.Send | lib/APIClient.py:218-227 | one request is logged and the next scripted reply (missing once the script runs out) is returned |
| Json.Digits | src/ConfigFile.py:41 | the decimal rendering of a number is non-empty, all digits, and reads back (`DecimalValue`) as the number, with no leading zero unless the number is a single digit |
| Json.Str | src/ConfigFile.py:41 | `'%s'` of a string is the string itself |
| Config.Contains | src/ConfigFile.py:31-34 | `in` on an object tests its keys |
| Config.AllInObject | src/ConfigFile.py:34 | on an object, the chain of `in` tests is true exactly when every key is present |
| Config.AllInPrefix | src/ConfigFile.py:34 | a short-circuit chain that stops early stops the same way when more tests follow |
| Config.ParseEffect | src/ConfigFile.py:29-44 | no `environment` key, or a name that is not a top-level key, gives false with nothing changed; any false changes nothing; true exactly on a configuration whose section has all five settings, and then the attributes are those settings and `fqdn` is `subdomain.domain` |
| Config.RejectsMissingCheckedKey | src/ConfigFile.py:34-44 | a section lacking `username`, `api_token` or `url` gives false and changes nothing |
| Config.MissingDomainRaises | src/ConfigFile.py:34-39 | as written, every configuration whose section has the three tested keys and no `domain` raises KeyError, with `environment`, `username`, `api_token` and `url` already assigned and `domain`, `subdomain`, `fqdn` as before |
| Config.MissingSubdomainRaises | src/ConfigFile.py:34-40 | as written, every configuration whose section has the three tested keys and `domain` but no `subdomain` raises KeyError, with `domain` too already assigned and `subdomain`, `fqdn` as before |
| Config.MissingDomainExample | src/ConfigFile.py:39 | the configuration of the finding below raises KeyError on `domain` with `environment` set and no fqdn |
| Config.ParseChecked | src/ConfigFile.py:29-44 | the corrected parse: the same false/true results, and a configuration whose section is an object never raises |
| Config.CheckedAgreesOtherwise | src/ConfigFile.py:29-44 | the corrected parse agrees with the parse as written wherever the latter does not raise |
| Config.ParsedFqdn | src/ConfigFile.py:41 | after a successful parse with string settings, the stored fqdn is the one the client manages, `subdomain + "." + domain` |
| Config.ConfigFile.constructor | src/ConfigFile.py:19-26 | every attribute starts as `None` |
| Config.ConfigFile.ParseData | src/ConfigFile.py:29-44 | the method's new attributes and result are those of `ParseEffect` on the old attributes |
| Config.ConfigFile.IsTestEnvironment | src/ConfigFile.py:46-47 | true exactly when `environment` is `test` |
| LibClient.FetchRecords | lib/APIClient.py:82-105 | with `use_cache` and the records line set, the cached map and no request; otherwise at most one token-carrying request; the cache is either unchanged or has the result as its records line, and a non-empty result is always stored there; no other line ever changes |
| LibClient.FetchMiss | lib/APIClient.py:89-105 | off the cache, the one request is the list request, the result is `RecordsFrom` of its reply, and on code 100 the records line holds that result (even when empty) while any other outcome leaves the cache unchanged |
| LibClient.DeleteFrom | lib/APIClient.py:142-157 | given the fetched map: true with no request and no change when the fqdn has no record; otherwise at most one token-carrying request, no line but `records` changes, and success leaves the records line as the map minus the fqdn |
| LibClient.DeleteOnCached | lib/APIClient.py:137-142 | called with `use_cache` and the records line cached (as update calls it), delete reads its map from the cache and sends nothing before the delete request |
| LibClient.DeleteSpec | lib/APIClient.py:137-157 | at most two token-carrying requests; no line but `records` changes; after a successful delete the records line is the map `get_dns_A_records` returned (fetched or cached) minus the fqdn |
| LibClient.CreateSpec | lib/APIClient.py:107-135 | the create/update recursion terminates; at most 3 token-carrying requests (1 with `use_cache` and the records line cached without the fqdn); no line but `records` changes |
| LibClient.UpdateSpec | lib/APIClient.py:159-177 | the recursion terminates; at most 4 token-carrying requests; no line but `records` changes |
| LibClient.FetchRejected | lib/APIClient.py:89-105 | a non-100 reply to the list request yields an empty map and leaves the cache unchanged |
| LibClient.CreateWhenMatching | lib/APIClient.py:113-117 | for any cache and `use_cache`: the returned map holding the target for the fqdn gives true with nothing beyond the fetch; with `use_cache` and the records line cached, no request and no change |
| LibClient.CreateWhenAbsent | lib/APIClient.py:122-135 | for any cache and `use_cache`: no record in the returned map gives, after the fetch, exactly one create request (hostname the subdomain, type A, ttl 300, priority 10); on success the cache is the old one without its records line, otherwise the cache after the fetch |
| LibClient.CreateWhenDiffering | lib/APIClient.py:118-120 | for any cache and `use_cache`: the fqdn holding another address leaves the returned map in the records line, and create then does exactly what update does from there |
| LibClient.DeleteWhenAbsent | lib/APIClient.py:142-144 | for any cache and `use_cache`: no record in the returned map gives true with nothing beyond the fetch; with `use_cache` and the records line cached, no request and no change |
| LibClient.DeleteWhenPresent | lib/APIClient.py:146-157 | for any cache and `use_cache`: after the fetch, exactly one delete request for the record's `record_id`; on success the records line is the returned map minus the fqdn, every other entry and every other line unchanged |
| LibClient.UpdateWhenMatching | lib/APIClient.py:165-170 | for any cache and `use_cache`: the fqdn already holding the target gives true, and the only request sent is the list request; with `use_cache` and the records line cached, no request and no change |
| LibClient.UpdateWhenDiffering | lib/APIClient.py:172-175 | for any cache and `use_cache`: after the fetch, one delete request; create is attempted only if the delete returned true, and then it goes straight to its create request; a failed create leaves the map minus the fqdn cached |
| LibClient.UpdateWhenAbsent | lib/APIClient.py:176-177 | for any cache and `use_cache`: update does exactly what create does from the state after the fetch, which is straight to the create request whenever the returned map is the cached records line |
| LibClient.Client.constructor | lib/APIClient.py:22-28 | logged out, no token, empty cache |
| LibClient.Client.Post | lib/APIClient.py:207-227 | an authenticated POST requires a session and carries its token; the URL is `form_endpoint` of the path |
| LibClient.Client.Get | lib/APIClient.py:229-249 | an authenticated GET requires a session and carries its token; the URL is `form_endpoint` of the path |
| LibClient.Client.Login | lib/APIClient.py:36-50 | on code 100 with a token: true, the token stored, logged in, the whole cache emptied; otherwise no field changes, and a missing reply or token raises |
| LibClient.Client.Logout | lib/APIClient.py:52-65 | requires a session; on code 100: true, the token cleared, logged out, the cache emptied; otherwise no field changes |
| LibClient.Client.GetDomains | lib/APIClient.py:67-80 | requires a session; with `use_cache` and the line set, the cached list with no request; otherwise one request, whose list on code 100 is cached; any other code gives `{}` and leaves the cache unchanged |
| LibClient.Client.GetRecords | lib/APIClient.py:82-105 | requires a session; the new cache, network and result are those of `FetchRecords` |
| LibClient.Client.CreateRecord | lib/APIClient.py:107-135 | requires a session; the new cache, network and result are those of `CreateSpec` |
| LibClient.Client.DeleteRecord | lib/APIClient.py:137-157 | requires a session; the new cache, network and result are those of `DeleteSpec` |
| LibClient.Client.UpdateRecord | lib/APIClient.py:159-177 | requires a session; the new cache, network and result are those of `UpdateSpec` |
| LibClient.Client.InvalidateCache | lib/APIClient.py:179-180 | the cache is empty |
| LibClient.Client.InvalidateCacheLine | lib/APIClient.py:182-184 | only that line is removed |
| LibClient.Client.SetCacheLine | lib/APIClient.py:186-187 | the line holds the value; every other line is unchanged |
| LibClient.Client.IsCacheLineSet | lib/APIClient.py:189-190 | true exactly when the line is present |
| LibClient.Client.GetCacheLine | lib/APIClient.py:192-194 | requires the line to be set; returns the value stored there |
| SrcClient.FetchRecords | src/APIClient.py:59-74 | exactly one request, the list request |
| SrcClient.Known | src/APIClient.py:77 | a non-empty map handed in is used with no request; a missing or empty one is fetched |
| SrcClient.CreateSpec | src/APIClient.py:76-91 | at most two requests, and the only record-changing request it can send is the create request for the target |
| SrcClient.DeleteSpec | src/APIClient.py:93-105 | at most two requests, none of them a create |
| SrcClient.UpdateSpec | src/APIClient.py:107-122 | at most four requests |
| SrcClient.EmptyMapRefetched | src/APIClient.py:77 | create and delete handed an empty map behave as if handed none, and their first request is the list request |
| SrcClient.CreateWhenPresent | src/APIClient.py:77-82 | whether the map was handed in or fetched: the fqdn present gives `content == target` with no request beyond the fetch, whatever the address; with a map handed in, no request at all |
| SrcClient.CreateWhenAbsent | src/APIClient.py:77-91 | whether the map was handed in or fetched: the fqdn absent gives, after the fetch if any, exactly one create request (hostname the subdomain, type A, ttl 300, priority 10), true exactly on code 100 |
| SrcClient.DeleteWhenAbsent | src/APIClient.py:94-98 | whether the map was handed in or fetched: the fqdn absent gives true with no request beyond the fetch; with a non-empty map handed in, no request at all |
| SrcClient.DeleteWhenPresent | src/APIClient.py:94-105 | whether the map was handed in or fetched: after the fetch if any, exactly one delete request for the record's `record_id`, true exactly on code 100 |
| SrcClient.UpdateWhenMatching | src/APIClient.py:111-116 | the fqdn already holding the target gives true after the list request alone, with no record-changing request |
| SrcClient.UpdateWhenDiffering | src/APIClient.py:118-120 | a delete with the fetched map; on failure its result and nothing more; on success a create that fetches again |
| SrcClient.UpdateWhenAbsent | src/APIClient.py:121-122 | a create with the fetched map, which fetches once more when that map is empty |
| SrcClient.Client.constructor | src/APIClient.py:21-25 | logged out, no token |
| SrcClient.Client.Post | src/APIClient.py:135-155 | an authenticated POST requires a session and carries its token; the URL is `form_endpoint` of the path |
| SrcClient.Client.Get | src/APIClient.py:157-177 | an authenticated GET requires a session and carries its token; the URL is `form_endpoint` of the path |
| SrcClient.Client.Login | src/APIClient.py:33-44 | on code 100 with a token: true, the token stored, logged in; otherwise neither field changes, and a missing reply or token raises |
| SrcClient.Client.Logout | src/APIClient.py:46-50 | requires a session; returns whether the code is 100, and the session stays as it was |
| SrcClient.Client.GetDomains | src/APIClient.py:52-57 | requires a session; on code 100 the reply's domains, otherwise `{}` |
| SrcClient.Client.GetRecords | src/APIClient.py:59-74 | requires a session; the network and result are those of `FetchRecords` |
| SrcClient.Client.KnownRecords | src/APIClient.py:77 | a session is required only when the map must be fetched; the result is that of `Known` |
| SrcClient.Client.CreateRecord | src/APIClient.py:76-91 | a session is required unless the map handed in holds the fqdn; the network and result are those of `CreateSpec` |
| SrcClient.Client.DeleteRecord | src/APIClient.py:93-105 | a session is required unless the map handed in is non-empty and lacks the fqdn; the network and result are those of `DeleteSpec` |
| SrcClient.Client.UpdateRecord | src/APIClient.py:107-122 | requires a session; the network and result are those of `UpdateSpec` |

## Left out

- The HTTP layer (`requests.get`/`post`, `json.dumps`, `r.json()`, the status check and the `except`) is the oracle `Transport.Network`. Its replies are given, not computed.
- The TLS `verify` flag that `get`/`post` derive from `is_test_environment`, and the `params` argument of `get`, are not modelled. They are passed to the HTTP library and nothing else reads them. `IsTestEnvironment` itself is modelled.
- `hello` in both clients is not modelled. It is one GET to `/api/hello` and a comparison, with no effect on state.
- `lib/JSONFile.py` (file checks, JSON loading, `validate`) is not part of this model. `parse_data` takes an already decoded JSON object. Both clients' constructors take settings that are taken to have passed `validate`.
- `dynipsync.py` and `src/dynipsync.py` (argument parsing, logging, the driver) are not part of this model.
- JSON floating-point numbers are not modelled. `Json.JNumber` holds integers only.
- Json.Str: renders a list or an object as a fixed placeholder, not as Python's `str()` of a container.
- The clients take their settings as strings (`Config.Settings`). A configuration whose settings are other JSON values is parsed by `Config`, but no client is built from it.
- Malformed replies are not modelled: a `result.code` that is missing or not an integer, a session token that is not a string, and record entries without `name`, `type`, `content` or `record_id`. A reply is a `Transport.Reply` with an integer code and optional keys. Each record entry is a `Records.Entry`.
- `del record['name']` and `del record['type']` also change the decoded reply in place. The reply is not used afterwards, so the model builds new values instead.
- Python exceptions are modelled only by the kinds these paths can raise: a missing reply (`TypeError` on `None`), a missing key (`KeyError`), an unhashable or wrongly typed environment value (`TypeError`). They are not modelled as Python exception objects.

## Findings

| source | as written | input that shows it | evidently intended | confidence | as-written member | corrected member |
|---|---|---|---|---|---|---|
| src/ConfigFile.py:34-41 | only `username`, `api_token` and `url` are tested; `domain` and `subdomain` are then read unguarded, so a section lacking them raises KeyError after `environment`, `username`, `api_token` and `url` were already assigned | `{"environment": "prod", "prod": {"username": "me", "api_token": "secret", "url": "https://api.name.com"}}` | return `False` and change no attribute, as for the other missing keys | high; not executed | Config.ParseEffect, Config.MissingDomainRaises, Config.MissingSubdomainRaises, Config.MissingDomainExample | Config.ParseChecked, Config.CheckedAgreesOtherwise |
