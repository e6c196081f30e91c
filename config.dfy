/** `ConfigFile`: picks the environment section of a decoded JSON configuration, checks it and
    derives the fully qualified name of the managed record. */
module Config {
  import opened Outcomes
  import opened Json

  /** The seven attributes `parse_data` assigns; `None` until assigned. */
  datatype Fields = Fields(
    environment: Option<string>,
    username: Option<Json>,
    apiToken: Option<Json>,
    url: Option<Json>,
    domain: Option<Json>,
    subdomain: Option<Json>,
    fqdn: Option<string>)

  /** The attributes as the constructor leaves them. */
  const Unset := Fields(None, None, None, None, None, None, None)

  /** The keys `parse_data` checks before reading the section. */
  const Checked: seq<string> := ["username", "api_token", "url"]

  /** Every key the section is read with. */
  const AllSettings: seq<string> := ["username", "api_token", "url", "domain", "subdomain"]

  predicate IsSubstring(key: string, s: string)
  {
    exists i :: 0 <= i <= |s| && key <= s[i..]
  }

  /** Python's `key in container` for a string key: a dict tests its keys, a string its
      substrings, a list its elements; on a number, a boolean or None it raises. */
  function Contains(container: Json, key: string): (r: Outcome<bool>)
    ensures container.JObject? ==> r == Returned(key in container.fields)
  {
    match container
    case JObject(fields) => Returned(key in fields)
    case JString(s) => Returned(IsSubstring(key, s))
    case JArray(items) => Returned(JString(key) in items)
    case _ => Raised(NotIterable)
  }

  /** `k0 in env and k1 in env and ...`, evaluated left to right and stopping at the first
      false or exception. */
  function AllIn(env: Json, keys: seq<string>): Outcome<bool>
  {
    if keys == [] then Returned(true)
    else
      var c := Contains(env, keys[0]);
      if c != Returned(true) then c else AllIn(env, keys[1..])
  }

  /** On a JSON object the chain of tests never raises and is true exactly when every key is
      present. */
  lemma {:induction false} AllInObject(fields: map<string, Json>, keys: seq<string>)
    ensures AllIn(JObject(fields), keys) == Returned(forall k | k in keys :: k in fields)
  {
    if keys != [] {
      AllInObject(fields, keys[1..]);
      assert forall k :: k in keys <==> k == keys[0] || k in keys[1..];
    }
  }

  /** The configuration names an environment whose section is an object holding all five
      settings. */
  predicate WellFormed(data: map<string, Json>)
  {
    "environment" in data && data["environment"].JString? &&
    data["environment"].str in data && data[data["environment"].str].JObject? &&
    var m := data[data["environment"].str].fields;
    "username" in m && "api_token" in m && "url" in m && "domain" in m && "subdomain" in m
  }

  /** The attributes after a successful parse of a well-formed configuration. */
  function Settled(data: map<string, Json>): Fields
    requires WellFormed(data)
  {
    var name := data["environment"].str;
    var m := data[name].fields;
    Fields(Some(name), Some(m["username"]), Some(m["api_token"]), Some(m["url"]),
           Some(m["domain"]), Some(m["subdomain"]),
           Some(Str(m["subdomain"]) + "." + Str(m["domain"])))
  }

  /** The steps of `parse_data`, with `required` the keys tested before the section is read:
      the new attributes (kept as far as they were assigned when an exception left the
      method) and the outcome. */
  function Select(data: map<string, Json>, before: Fields, required: seq<string>): (Fields, Outcome<bool>)
  {
    if "environment" !in data then (before, Returned(false))
    else
      var e := data["environment"];
      if e.JArray? || e.JObject? then (before, Raised(Unhashable))
      else if !e.JString? || e.str !in data then (before, Returned(false))
      else
        var env := data[e.str];
        var has := AllIn(env, required);
        if has.Raised? then (before, has)
        else if !has.value then (before, Returned(false))
        else
          var named := before.(environment := Some(e.str));
          if !env.JObject? then (named, Raised(BadIndex))
          else
            var m := env.fields;
            if "username" !in m then (named, Raised(MissingKey("username")))
            else if "api_token" !in m then (named.(username := Some(m["username"])), Raised(MissingKey("api_token")))
            else if "url" !in m then (named.(username := Some(m["username"]), apiToken := Some(m["api_token"])), Raised(MissingKey("url")))
            else
              var read := named.(username := Some(m["username"]), apiToken := Some(m["api_token"]), url := Some(m["url"]));
              if "domain" !in m then (read, Raised(MissingKey("domain")))
              else if "subdomain" !in m then (read.(domain := Some(m["domain"])), Raised(MissingKey("subdomain")))
              else
                (read.(domain := Some(m["domain"]), subdomain := Some(m["subdomain"]),
                       fqdn := Some(Str(m["subdomain"]) + "." + Str(m["domain"]))), Returned(true))
  }

  /** `parse_data` as written: only `username`, `api_token` and `url` are tested before the
      section is read. */
  function ParseEffect(data: map<string, Json>, before: Fields): (r: (Fields, Outcome<bool>))
    ensures "environment" !in data ==> r == (before, Returned(false))
    ensures "environment" in data && data["environment"].JString? && data["environment"].str !in data
            ==> r == (before, Returned(false))
    ensures r.1 == Returned(false) ==> r.0 == before
    ensures r.1 == Returned(true) <==> WellFormed(data)
    ensures r.1 == Returned(true) ==> r.0 == Settled(data)
  {
    if WellFormed(data) then
      AllInObject(data[data["environment"].str].fields, Checked);
      Select(data, before, Checked)
    else
      Select(data, before, Checked)
  }

  /** A section lacking one of `username`, `api_token` or `url` is rejected and changes nothing. */
  lemma RejectsMissingCheckedKey(data: map<string, Json>, before: Fields, key: string)
    requires "environment" in data && data["environment"].JString?
    requires data["environment"].str in data && data[data["environment"].str].JObject?
    requires key in Checked && key !in data[data["environment"].str].fields
    ensures ParseEffect(data, before) == (before, Returned(false))
  {
    var m := data[data["environment"].str].fields;
    AllInObject(m, Checked);
  }

  /** The configuration names an object section holding the three tested keys. */
  predicate ChecksPass(data: map<string, Json>)
  {
    "environment" in data && data["environment"].JString? &&
    data["environment"].str in data && data[data["environment"].str].JObject? &&
    var m := data[data["environment"].str].fields;
    "username" in m && "api_token" in m && "url" in m
  }

  /** As written, a section with the three tested keys but without `domain` raises a KeyError,
      after `environment`, `username`, `api_token` and `url` were assigned; `domain`, `subdomain`
      and `fqdn` keep their old values. */
  lemma MissingDomainRaises(data: map<string, Json>, before: Fields)
    requires ChecksPass(data) && "domain" !in data[data["environment"].str].fields
    ensures var name := data["environment"].str;
            var m := data[name].fields;
            ParseEffect(data, before)
            == (before.(environment := Some(name), username := Some(m["username"]),
                        apiToken := Some(m["api_token"]), url := Some(m["url"])),
                Raised(MissingKey("domain")))
  {
    AllInObject(data[data["environment"].str].fields, Checked);
  }

  /** As written, a section with the three tested keys and `domain` but without `subdomain`
      raises a KeyError after `domain` too was assigned; `subdomain` and `fqdn` keep their old
      values. */
  lemma MissingSubdomainRaises(data: map<string, Json>, before: Fields)
    requires ChecksPass(data)
    requires "domain" in data[data["environment"].str].fields
    requires "subdomain" !in data[data["environment"].str].fields
    ensures var name := data["environment"].str;
            var m := data[name].fields;
            ParseEffect(data, before)
            == (before.(environment := Some(name), username := Some(m["username"]),
                        apiToken := Some(m["api_token"]), url := Some(m["url"]),
                        domain := Some(m["domain"])),
                Raised(MissingKey("subdomain")))
  {
    AllInObject(data[data["environment"].str].fields, Checked);
  }

  /** An instance: a `prod` section with only the three tested keys, parsed from the unset
      attributes, raises on `domain` with `environment` set and no fqdn derived. */
  lemma MissingDomainExample()
    ensures var data := map["environment" := JString("prod"),
                            "prod" := JObject(map["username" := JString("me"),
                                                  "api_token" := JString("secret"),
                                                  "url" := JString("https://api.name.com")])];
            var r := ParseEffect(data, Unset);
            r.1 == Raised(MissingKey("domain")) && r.0.environment == Some("prod") && r.0.fqdn == None
  {
  }

  /** `parse_data` with `domain` and `subdomain` added to the tested keys: a section that lacks
      either is rejected with no attribute changed, and an object section never raises. */
  function ParseChecked(data: map<string, Json>, before: Fields): (r: (Fields, Outcome<bool>))
    ensures r.1 == Returned(false) ==> r.0 == before
    ensures r.1 == Returned(true) <==> WellFormed(data)
    ensures r.1 == Returned(true) ==> r.0 == Settled(data)
    ensures ("environment" in data && data["environment"].JString? && data["environment"].str in data &&
             data[data["environment"].str].JObject?) ==> r.1.Returned?
  {
    if "environment" in data && data["environment"].JString? && data["environment"].str in data &&
       data[data["environment"].str].JObject?
    then
      AllInObject(data[data["environment"].str].fields, AllSettings);
      Select(data, before, AllSettings)
    else
      Select(data, before, AllSettings)
  }

  /** The corrected parse agrees with the one as written on every configuration the latter
      does not raise on. */
  lemma CheckedAgreesOtherwise(data: map<string, Json>, before: Fields)
    requires ParseEffect(data, before).1.Returned?
    ensures ParseChecked(data, before) == ParseEffect(data, before)
  {
    if "environment" in data && data["environment"].JString? && data["environment"].str in data {
      var env := data[data["environment"].str];
      assert AllSettings == Checked + ["domain", "subdomain"];
      if AllIn(env, Checked) != Returned(true) {
        AllInPrefix(env, Checked, ["domain", "subdomain"]);
      }
      if env.JObject? {
        AllInObject(env.fields, Checked);
        AllInObject(env.fields, AllSettings);
      }
    }
  }

  /** A chain of tests that stops on its first part stops the same way when extended. */
  lemma {:induction false} AllInPrefix(env: Json, keys: seq<string>, more: seq<string>)
    requires AllIn(env, keys) != Returned(true)
    ensures AllIn(env, keys + more) == AllIn(env, keys)
  {
    assert keys != [];
    assert (keys + more)[0] == keys[0];
    if Contains(env, keys[0]) == Returned(true) {
      assert (keys + more)[1..] == keys[1..] + more;
      AllInPrefix(env, keys[1..], more);
    }
  }

  /** The settings the client is built from, when every one of them is a string. */
  datatype Settings = Settings(username: string, apiToken: string, url: string, domain: string, subdomain: string)
  {
    /** The name of the one A record the client manages. */
    function Fqdn(): string { subdomain + "." + domain }
  }

  function SettingsOf(f: Fields): Option<Settings>
  {
    if f.username.Some? && f.username.value.JString? && f.apiToken.Some? && f.apiToken.value.JString? &&
       f.url.Some? && f.url.value.JString? && f.domain.Some? && f.domain.value.JString? &&
       f.subdomain.Some? && f.subdomain.value.JString?
    then Some(Settings(f.username.value.str, f.apiToken.value.str, f.url.value.str,
                       f.domain.value.str, f.subdomain.value.str))
    else None
  }

  /** The name a successfully parsed configuration derives is the name the client manages:
      `subdomain + "." + domain`. */
  lemma ParsedFqdn(data: map<string, Json>, before: Fields)
    requires ParseChecked(data, before).1 == Returned(true)
    requires SettingsOf(ParseChecked(data, before).0).Some?
    ensures ParseChecked(data, before).0.fqdn == Some(SettingsOf(ParseChecked(data, before).0).value.Fqdn())
  {
  }

  /** The configuration object: the attributes start out `None` and `parse_data` fills them in. */
  class ConfigFile {
    var environment: Option<string>
    var username: Option<Json>
    var apiToken: Option<Json>
    var url: Option<Json>
    var domain: Option<Json>
    var subdomain: Option<Json>
    var fqdn: Option<string>

    function Snapshot(): Fields
      reads this
    {
      Fields(environment, username, apiToken, url, domain, subdomain, fqdn)
    }

    constructor ()
      ensures Snapshot() == Unset
    {
      environment, username, apiToken, url := None, None, None, None;
      domain, subdomain, fqdn := None, None, None;
    }

    /** Reads the selected environment section into the attributes; returns whether the
        configuration was accepted. */
    method ParseData(data: map<string, Json>) returns (o: Outcome<bool>)
      modifies this
      ensures (Snapshot(), o) == ParseEffect(data, old(Snapshot()))
    {
      if "environment" in data {
        var e := data["environment"];
        if e.JArray? || e.JObject? {
          return Raised(Unhashable);
        }
        if e.JString? && e.str in data {
          var env := data[e.str];
          var has := AllIn(env, Checked);
          if has.Raised? {
            return has;
          }
          if has.value {
            environment := Some(e.str);
            if !env.JObject? {
              return Raised(BadIndex);
            }
            var m := env.fields;
            if "username" !in m { return Raised(MissingKey("username")); }
            username := Some(m["username"]);
            if "api_token" !in m { return Raised(MissingKey("api_token")); }
            apiToken := Some(m["api_token"]);
            if "url" !in m { return Raised(MissingKey("url")); }
            url := Some(m["url"]);
            if "domain" !in m { return Raised(MissingKey("domain")); }
            domain := Some(m["domain"]);
            if "subdomain" !in m { return Raised(MissingKey("subdomain")); }
            subdomain := Some(m["subdomain"]);
            fqdn := Some(Str(m["subdomain"]) + "." + Str(m["domain"]));
            return Returned(true);
          }
        }
      }
      return Returned(false);
    }

    /** True exactly when the selected environment is called `test`. */
    function IsTestEnvironment(): (r: bool)
      reads this
      ensures r <==> environment == Some("test")
    {
      environment == Some("test")
    }
  }
}
