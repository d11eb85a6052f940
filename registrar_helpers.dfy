/** The helper functions of the registrar module: parameter checks, the
    domain name, the classification of a raw API result into "no error" or an
    error detail, the nameserver list taken from the platform's `ns1`..`ns5`,
    the registration payload, and the construction of the API client. */
module RegistrarHelpers {
  import opened Php
  import opened Http
  import opened SpaceshipClient

  const CredentialsMissing := "API credentials are missing."
  const DomainParamsMissing := "Domain parameters are missing."
  const UnknownError := "Unknown error"

  /** The exception `validateApiCredentials` throws, if any: key, secret and
      endpoint must all be non-empty in PHP's sense (so "0" counts as missing). */
  function ValidateApiCredentials(params: Value): (r: Option<string>)
    ensures r.None? <==>
              !Empty(Get(params, "APIKey")) && !Empty(Get(params, "APISecret")) && !Empty(Get(params, "APIEndPoint"))
    ensures r.Some? ==> r.value == CredentialsMissing
  {
    if Empty(Get(params, "APIKey")) || Empty(Get(params, "APISecret")) || Empty(Get(params, "APIEndPoint"))
    then Some(CredentialsMissing)
    else None
  }

  /** The exception `validateDomainParams` throws, if any: both labels must be
      non-empty.  No operation of the module calls it. */
  function ValidateDomainParams(params: Value): (r: Option<string>)
    ensures r.None? <==> !Empty(Get(params, "sld")) && !Empty(Get(params, "tld"))
    ensures r.Some? ==> r.value == DomainParamsMissing
  {
    if Empty(Get(params, "sld")) || Empty(Get(params, "tld")) then Some(DomainParamsMissing) else None
  }

  /** `domainname ?? sld . '.' . tld`. */
  function GetDomainName(params: Value): (name: Value)
    ensures IsSet(params, "domainname") ==> name == Get(params, "domainname")
    ensures !IsSet(params, "domainname") ==> name.Str? && '.' in name.s
  {
    if IsSet(params, "domainname") then Get(params, "domainname")
    else Str(ToStr(Get(params, "sld")) + "." + ToStr(Get(params, "tld")))
  }

  /** Without a `domainname`, the name splits back into its labels at its
      first dot whenever the second-level label has no dot of its own. */
  lemma {:induction false} DomainNameSplitsAtFirstDot(params: Value)
    requires !IsSet(params, "domainname")
    requires '.' !in ToStr(Get(params, "sld"))
    ensures var sld, tld, name := ToStr(Get(params, "sld")), ToStr(Get(params, "tld")), GetDomainName(params).s;
            name[..|sld|] == sld && name[|sld|] == '.' && name[|sld| + 1..] == tld &&
            forall i :: 0 <= i < |sld| ==> name[i] != '.'
  {
    var sld, tld := ToStr(Get(params, "sld")), ToStr(Get(params, "tld"));
    var name := GetDomainName(params).s;
    assert name == sld + "." + tld;
    assert name[..|sld|] == sld;
    forall i | 0 <= i < |sld| ensures name[i] != '.' {
      assert name[i] == sld[i];
    }
  }

  /** `$message['detail'] ?? 'Unknown error'` on the decoded error message. */
  function ErrorDetail(message: Value): (d: Value)
    ensures d != Null
    ensures IsSet(message, "detail") ==> d == Get(message, "detail")
    ensures !IsSet(message, "detail") ==> d == Str(UnknownError)
  {
    Coalesce(Get(message, "detail"), Str(UnknownError))
  }

  /** `handleApiResponse`: an error exactly when the raw result carries a
      `statusCode` other than 200, and then the `detail` of the JSON-decoded
      message.  `decode` is `json_decode($s, true)`, null when `s` is not JSON. */
  function HandleApiResponse(response: RawResult, decode: string -> Value): (error: Option<Value>)
    ensures error.Some? <==> response.Failure? && response.statusCode != 200
    ensures error.Some? ==> error.value == ErrorDetail(decode(response.message))
  {
    match response
    case Failure(code, message) => if code != 200 then Some(ErrorDetail(decode(message))) else None
    case Body(_) => None
    case JsonError(_) => None
  }

  /** How every outcome of the transport is classified: a body and a JSON
      exception are never errors; a transport failure without a response
      always is, with the decoded `detail` of the exception message or
      "Unknown error"; a failure with a response is one unless its status is
      200.  A message that does not decode to an object with a `detail` is
      never passed through: it becomes "Unknown error". */
  lemma ClassifiedTransportOutcomes(t: Transport, decode: string -> Value)
    ensures t.Delivered? ==> HandleApiResponse(RequestResult(t), decode) == None
    ensures t.JsonFailed? ==> HandleApiResponse(RequestResult(t), decode) == None
    ensures t.RequestFailed? && t.error.response.None? ==>
              HandleApiResponse(RequestResult(t), decode) == Some(ErrorDetail(decode(t.error.message)))
    ensures t.RequestFailed? && t.error.response.Some? ==>
              (HandleApiResponse(RequestResult(t), decode).Some? <==> t.error.response.value.status != 200)
    ensures t.RequestFailed? && !decode(RequestResult(t).message).Dict? ==>
              HandleApiResponse(RequestResult(t), decode) != None ==>
              HandleApiResponse(RequestResult(t), decode) == Some(Str(UnknownError))
  {
  }

  const NsKeys: seq<string> := ["ns1", "ns2", "ns3", "ns4", "ns5"]

  /** `array_filter($values)` on the part of a list from index `from` on: the
      entries that are not empty in PHP's sense, in order, each with its
      original key. */
  function ArrayFilter(values: seq<Value>, from: nat): (kept: seq<(nat, Value)>)
    requires from <= |values|
    ensures |kept| <= |values| - from
    decreases |values| - from
  {
    if from == |values| then []
    else if Empty(values[from]) then ArrayFilter(values, from + 1)
    else [(from, values[from])] + ArrayFilter(values, from + 1)
  }

  /** Every entry of `kept` is a non-empty entry of `values` at or after `from`,
      under its own index. */
  predicate KeptFrom(kept: seq<(nat, Value)>, values: seq<Value>, from: nat)
  {
    forall j :: 0 <= j < |kept| ==> from <= kept[j].0 < |values| && kept[j].1 == values[kept[j].0] && !Empty(kept[j].1)
  }

  /** Every kept entry is a non-empty value under its original key. */
  lemma {:induction false} ArrayFilterSound(values: seq<Value>, from: nat)
    requires from <= |values|
    ensures KeptFrom(ArrayFilter(values, from), values, from)
    decreases |values| - from
  {
    if from < |values| {
      ArrayFilterSound(values, from + 1);
      if !Empty(values[from]) {
        var rest := ArrayFilter(values, from + 1);
        var kept := ArrayFilter(values, from);
        assert forall j :: 0 <= j < |rest| ==> kept[j + 1] == rest[j];
      }
    }
  }

  /** The keys of `kept` strictly increase. */
  predicate KeysIncrease(kept: seq<(nat, Value)>)
  {
    forall j, k :: 0 <= j < k < |kept| ==> kept[j].0 < kept[k].0
  }

  /** Kept entries stay in their original order. */
  lemma {:induction false} ArrayFilterOrdered(values: seq<Value>, from: nat)
    requires from <= |values|
    ensures KeysIncrease(ArrayFilter(values, from))
    decreases |values| - from
  {
    if from < |values| && !Empty(values[from]) {
      ArrayFilterOrdered(values, from + 1);
      ArrayFilterSound(values, from + 1);
      var rest := ArrayFilter(values, from + 1);
      var kept := ArrayFilter(values, from);
      assert kept == [(from, values[from])] + rest;
      forall j, k | 0 <= j < k < |kept| ensures kept[j].0 < kept[k].0 {
        assert kept[k] == rest[k - 1];
        if j > 0 {
          assert kept[j] == rest[j - 1];
        }
      }
    } else if from < |values| {
      ArrayFilterOrdered(values, from + 1);
    }
  }

  /** Every non-empty entry of `values` at or after `from` has its index among
      the keys of `kept`. */
  predicate CoversFrom(kept: seq<(nat, Value)>, values: seq<Value>, from: nat)
  {
    forall n :: from <= n < |values| && !Empty(values[n]) ==> exists j :: 0 <= j < |kept| && kept[j].0 == n
  }

  /** No non-empty entry is dropped. */
  lemma {:induction false} ArrayFilterComplete(values: seq<Value>, from: nat)
    requires from <= |values|
    ensures CoversFrom(ArrayFilter(values, from), values, from)
    decreases |values| - from
  {
    if from < |values| {
      ArrayFilterComplete(values, from + 1);
      var rest := ArrayFilter(values, from + 1);
      var kept := ArrayFilter(values, from);
      var shift := if Empty(values[from]) then 0 else 1;
      assert kept == if Empty(values[from]) then rest else [(from, values[from])] + rest;
      forall n | from <= n < |values| && !Empty(values[n]) ensures exists j :: 0 <= j < |kept| && kept[j].0 == n {
        if n == from {
          assert kept[0].0 == from;
        } else {
          var j :| 0 <= j < |rest| && rest[j].0 == n;
          assert kept[j + shift] == rest[j];
        }
      }
    }
  }

  /** The five nameserver parameters, `?? null` each. */
  function NsValues(params: Value): seq<Value>
  {
    [Get(params, "ns1"), Get(params, "ns2"), Get(params, "ns3"), Get(params, "ns4"), Get(params, "ns5")]
  }

  /** `getNameserversArray`: those of `ns1`..`ns5` that are not empty, in
      order, keeping their original positions 0..4 (so there may be gaps). */
  function GetNameserversArray(params: Value): (kept: seq<(nat, Value)>)
    ensures |kept| <= 5
    ensures forall j :: 0 <= j < |kept| ==>
              kept[j].0 < 5 && kept[j].1 == Get(params, NsKeys[kept[j].0]) && !Empty(kept[j].1)
    ensures forall j, k :: 0 <= j < k < |kept| ==> kept[j].0 < kept[k].0
    ensures forall n :: 0 <= n < 5 && !Empty(Get(params, NsKeys[n])) ==> exists j :: 0 <= j < |kept| && kept[j].0 == n
  {
    var vs := NsValues(params);
    assert forall n :: 0 <= n < 5 ==> vs[n] == Get(params, NsKeys[n]);
    ArrayFilterSound(vs, 0);
    ArrayFilterOrdered(vs, 0);
    ArrayFilterComplete(vs, 0);
    ArrayFilter(vs, 0)
  }

  /** `json_encode` of an integer-keyed PHP array: a JSON list when the keys
      are exactly 0, 1, 2, ... in order, otherwise an object keyed by the
      decimal keys. */
  function EncodeIndexed(kept: seq<(nat, Value)>): (v: Value)
    ensures v.List? <==> forall j :: 0 <= j < |kept| ==> kept[j].0 == j
    ensures v.List? ==> v.items == seq(|kept|, j requires 0 <= j < |kept| => kept[j].1)
  {
    if forall j :: 0 <= j < |kept| ==> kept[j].0 == j
    then List(seq(|kept|, j requires 0 <= j < |kept| => kept[j].1))
    else Dict(seq(|kept|, j requires 0 <= j < |kept| => (NatToString(kept[j].0), kept[j].1)))
  }

  /** The `hosts` the module sends as written: the filtered array, encoded. */
  function HostsAsWritten(params: Value): Value
  {
    EncodeIndexed(GetNameserversArray(params))
  }

  /** As written, an empty nameserver field followed by a filled one makes
      `hosts` a JSON object instead of a list. */
  lemma {:induction false} GappedNameserversEncodeAsObject(params: Value, a: nat, b: nat)
    requires a < b < 5
    requires Empty(Get(params, NsKeys[a])) && !Empty(Get(params, NsKeys[b]))
    ensures HostsAsWritten(params).Dict?
  {
    var kept := GetNameserversArray(params);
    var j :| 0 <= j < |kept| && kept[j].0 == b;
    if kept[j].0 == j {
      assert a < j;
      assert kept[a].0 != a;
    }
    assert !(forall i :: 0 <= i < |kept| ==> kept[i].0 == i);
  }

  /** `array_values(getNameserversArray($params))`: the non-empty nameservers
      in order, renumbered from 0, so that `hosts` is always a JSON list. */
  function HostsList(params: Value): (hosts: seq<Value>)
    ensures |hosts| <= 5
    ensures forall j :: 0 <= j < |hosts| ==> !Empty(hosts[j])
    ensures forall n :: 0 <= n < 5 && !Empty(Get(params, NsKeys[n])) ==> Get(params, NsKeys[n]) in hosts
    ensures |hosts| == |GetNameserversArray(params)|
    ensures forall j :: 0 <= j < |hosts| ==> hosts[j] == GetNameserversArray(params)[j].1
  {
    var kept := GetNameserversArray(params);
    var hosts := seq(|kept|, j requires 0 <= j < |kept| => kept[j].1);
    assert forall n :: 0 <= n < 5 && !Empty(Get(params, NsKeys[n])) ==> Get(params, NsKeys[n]) in hosts by {
      forall n | 0 <= n < 5 && !Empty(Get(params, NsKeys[n])) ensures Get(params, NsKeys[n]) in hosts {
        var j :| 0 <= j < |kept| && kept[j].0 == n;
        assert hosts[j] == Get(params, NsKeys[n]);
      }
    }
    hosts
  }

  /** Where there is no gap the corrected list is exactly what the source sends. */
  lemma {:induction false} HostsListAgreesWithoutGap(params: Value)
    requires HostsAsWritten(params).List?
    ensures HostsAsWritten(params) == List(HostsList(params))
  {
  }

  const ContactRoles: seq<string> := ["registrant", "admin", "tech", "billing"]

  /** The `contacts` of the registration request: one contact for every role. */
  function RegisterContacts(contact: Value): (contacts: Value)
    ensures contacts.Dict? && |contacts.entries| == |ContactRoles| && DistinctKeys(contacts.entries)
    ensures forall i :: 0 <= i < |ContactRoles| ==> contacts.entries[i] == (ContactRoles[i], contact)
  {
    Dict([("registrant", contact), ("admin", contact), ("tech", contact), ("billing", contact)])
  }

  /** Every role of `RegisterContacts` is read back as the one contact. */
  lemma {:induction false} RegisterContactsLookup(contact: Value)
    ensures forall i :: 0 <= i < |ContactRoles| ==> Get(RegisterContacts(contact), ContactRoles[i]) == contact
  {
    var e := RegisterContacts(contact).entries;
    forall i | 0 <= i < |ContactRoles|
      ensures Lookup(e, ContactRoles[i]) == contact
    {
      LookupFirst(e, i, ContactRoles[i]);
    }
  }

  /** The `privacyProtection` of the registration request. */
  function PrivacyProtection(): (p: Value)
    ensures p.Dict? && |p.entries| == 2 && DistinctKeys(p.entries)
    ensures Get(p, "contactForm") == Bool(true) && Get(p, "level") == Str("high")
  {
    var e := [("contactForm", Bool(true)), ("level", Str("high"))];
    assert Lookup(e, "level") == Lookup(e[1..], "level");
    Dict(e)
  }

  /** The `nameservers` of the registration request: custom hosts, always a list. */
  function CustomNameservers(hosts: seq<Value>): (ns: Value)
    ensures ns.Dict? && |ns.entries| == 2 && DistinctKeys(ns.entries)
    ensures Get(ns, "provider") == Str("custom") && Get(ns, "hosts") == List(hosts)
  {
    var e := [("provider", Str("custom")), ("hosts", List(hosts))];
    assert Lookup(e, "hosts") == Lookup(e[1..], "hosts");
    Dict(e)
  }

  /** The body of the registration request: the domain name, no automatic
      renewal, high privacy with the contact form, the custom nameservers and
      the one contact in every role. */
  function RegisterPayload(params: Value): (payload: Value)
    ensures payload.Dict? && |payload.entries| == 5 && DistinctKeys(payload.entries)
    ensures Get(payload, "name") == GetDomainName(params)
    ensures Get(payload, "autoRenew") == Bool(false)
    ensures Get(payload, "privacyProtection") == PrivacyProtection()
    ensures Get(payload, "nameservers") == CustomNameservers(HostsList(params))
    ensures Get(payload, "contacts") == RegisterContacts(Get(params, "contactId"))
  {
    var e := [
      ("name", GetDomainName(params)),
      ("autoRenew", Bool(false)),
      ("privacyProtection", PrivacyProtection()),
      ("nameservers", CustomNameservers(HostsList(params))),
      ("contacts", RegisterContacts(Get(params, "contactId")))
    ];
    LookupFirst(e, 1, "autoRenew");
    LookupFirst(e, 2, "privacyProtection");
    LookupFirst(e, 3, "nameservers");
    LookupFirst(e, 4, "contacts");
    Dict(e)
  }

  /** The request the client built by `initApi` would send. */
  function ApiRequest(params: Value, verb: Method, uri: string, json: Option<Value>): HttpRequest
  {
    HttpRequest(verb, JoinUrl(ToStr(Get(params, "APIEndPoint")), uri),
                AuthHeaders(ToStr(Get(params, "APIKey")), ToStr(Get(params, "APISecret"))), json)
  }

  /** `initApi`: checks the credentials, then builds a client from them. */
  method InitApi(params: Value, net: Network) returns (api: Option<SpaceshipApi>)
    ensures api.None? <==> ValidateApiCredentials(params).Some?
    ensures api.Some? ==> fresh(api.value) && api.value.net == net
    ensures api.Some? ==> forall verb, uri, json :: api.value.Prepare(verb, uri, json) == ApiRequest(params, verb, uri, json)
  {
    if ValidateApiCredentials(params).Some? {
      return None;
    }
    var client := new SpaceshipApi(ToStr(Get(params, "APIKey")), ToStr(Get(params, "APISecret")),
                                   ToStr(Get(params, "APIEndPoint")), net);
    api := Some(client);
  }
}
