/** The registrar operations the hosting platform calls: each checks the
    credentials, issues its API request(s), classifies the raw result and, for
    the read operations, projects the decoded payload onto what the platform
    expects (nameserver slots, lock state, DNS records, domain flags, sync
    data).  Every operation catches its exceptions and answers
    `['error' => message]` instead. */
module Registrar {
  import opened Php
  import opened Http
  import opened SpaceshipClient
  import opened RegistrarHelpers

  /** What an operation returns: its result, or the `['error' => e]` array. */
  datatype Outcome<T> = Success(value: T) | Error(error: Value)

  /** The library calls and clock readings the operations depend on:
      `json_decode($s, true)` (null when `s` is not JSON), `Carbon::parse`
      (none when it throws), `strtotime` (none when it returns false),
      `date('Y-m-d', $t)`, and the two readings of `time()` in `Sync`. */
  datatype Env = Env(
    decode: string -> Value,
    parseDate: Value -> Option<int>,
    strToTime: Value -> Option<int>,
    formatDate: int -> string,
    now: int,
    nowAgain: int)

  /** The decoded payload of a raw result that is not an error: the decoded
      body, or the array `request` returned in place of one. */
  function Payload(raw: RawResult, env: Env): Value
  {
    match raw
    case Body(body) => env.decode(body)
    case Failure(code, message) => Dict([("statusCode", Int(code)), ("message", Str(message))])
    case JsonError(message) => Dict([("error", Bool(true)), ("message", Str(message))])
  }

  // ---------------------------------------------------------------------
  // Nameserver slots

  /** The platform's name of the `n`-th nameserver field. */
  function SlotName(n: nat): (name: string)
    ensures |name| >= 3 && name[..2] == "ns" && name[2..] == NatToString(n)
  {
    "ns" + NatToString(n)
  }

  lemma {:induction false} SlotNameInjective(a: nat, b: nat)
    requires SlotName(a) == SlotName(b)
    ensures a == b
  {
    assert NatToString(a) == SlotName(a)[2..] == SlotName(b)[2..] == NatToString(b);
    NatToStringInjective(a, b);
  }

  /** `$nameservers["ns" . ($index + 1)] = $nameserver` for every position of
      a host list, in order. */
  function SlotList(hosts: seq<Value>): seq<(string, Value)>
  {
    seq(|hosts|, k requires 0 <= k < |hosts| => (SlotName(k + 1), hosts[k]))
  }

  /** The slot map of a `hosts` value; anything but a list fills no slot. */
  function Slots(hosts: Value): seq<(string, Value)>
  {
    if hosts.List? then SlotList(hosts.items) else []
  }

  /** The slot map has one entry per host, under distinct names, and the
      `k`-th slot holds the `k`-th host; every other name reads as null. */
  lemma {:induction false} SlotsLookup(hosts: seq<Value>)
    ensures |SlotList(hosts)| == |hosts| && DistinctKeys(SlotList(hosts))
    ensures forall k :: 1 <= k <= |hosts| ==> Lookup(SlotList(hosts), SlotName(k)) == hosts[k - 1]
    ensures forall key :: (forall k :: 1 <= k <= |hosts| ==> key != SlotName(k)) ==> Lookup(SlotList(hosts), key) == Null
  {
    var s := SlotList(hosts);
    forall i, j | 0 <= i < j < |s| ensures s[i].0 != s[j].0 {
      if s[i].0 == s[j].0 {
        SlotNameInjective(i + 1, j + 1);
      }
    }
    forall k | 1 <= k <= |hosts| ensures Lookup(s, SlotName(k)) == hosts[k - 1] {
      LookupFirst(s, k - 1, SlotName(k));
    }
    forall key | forall k :: 1 <= k <= |hosts| ==> key != SlotName(k)
      ensures Lookup(s, key) == Null
    {
      assert forall j :: 0 <= j < |s| ==> s[j].0 == SlotName(j + 1);
      LookupMissing(s, key);
    }
  }

  /** Hosts that are absent or empty fill no slot: the result is an empty
      map, not an error. */
  lemma {:induction false} EmptyHostsFillNoSlot(hosts: Value)
    requires Empty(hosts)
    ensures Slots(hosts) == []
  {
    if hosts.List? {
      assert |hosts.items| == 0;
    }
  }

  /** The `foreach` over `hosts` that fills the slot map. */
  method SlotNameservers(hosts: Value) returns (slots: seq<(string, Value)>)
    ensures slots == Slots(hosts)
  {
    slots := [];
    if hosts.List? {
      var items := hosts.items;
      var index := 0;
      while index < |items|
        invariant 0 <= index <= |items|
        invariant slots == SlotList(items[..index])
      {
        forall j | 0 <= j < |slots| ensures slots[j].0 != SlotName(index + 1) {
          if slots[j].0 == SlotName(index + 1) {
            SlotNameInjective(j + 1, index + 1);
          }
        }
        slots := Assign(slots, SlotName(index + 1), items[index]);
        assert SlotList(items[..index + 1]) == SlotList(items[..index]) + [(SlotName(index + 1), items[index])];
        index := index + 1;
      }
      assert items[..index] == items;
    }
  }

  // ---------------------------------------------------------------------
  // Transfer lock

  const TransferProhibited := "clientTransferProhibited"

  /** PHP's loose `'clientTransferProhibited' == $x`: the same string, or
      `true` (which every non-empty string equals). */
  predicate LooselyProhibited(x: Value)
  {
    x == Str(TransferProhibited) || x == Bool(true)
  }

  /** The values `foreach` and `in_array` walk: the items of a list, the values
      of a string-keyed array, nothing for a scalar. */
  function Elements(v: Value): (items: seq<Value>)
    ensures v.List? ==> items == v.items
    ensures v.Dict? ==> |items| == |v.entries| && forall i :: 0 <= i < |items| ==> items[i] == v.entries[i].1
    ensures !v.List? && !v.Dict? ==> items == []
  {
    match v
    case List(items) => items
    case Dict(entries) => seq(|entries|, i requires 0 <= i < |entries| => entries[i].1)
    case _ => []
  }

  /** `isset($response['eppStatuses']) && in_array('clientTransferProhibited', $response['eppStatuses'])`. */
  predicate IsLocked(response: Value)
  {
    IsSet(response, "eppStatuses") &&
    exists i :: 0 <= i < |Elements(Get(response, "eppStatuses"))| && LooselyProhibited(Elements(Get(response, "eppStatuses"))[i])
  }

  /** For a status list of strings, the domain is locked exactly when the
      list holds `clientTransferProhibited`; no status list means unlocked. */
  lemma {:induction false} LockedIffListed(response: Value)
    ensures !IsSet(response, "eppStatuses") ==> !IsLocked(response)
    ensures var statuses := Get(response, "eppStatuses");
            statuses.List? && (forall i :: 0 <= i < |statuses.items| ==> statuses.items[i].Str?) ==>
              (IsLocked(response) <==> Str(TransferProhibited) in statuses.items)
  {
    var statuses := Get(response, "eppStatuses");
    if statuses.List? && (forall i :: 0 <= i < |statuses.items| ==> statuses.items[i].Str?) {
      if Str(TransferProhibited) in statuses.items {
        var i :| 0 <= i < |statuses.items| && statuses.items[i] == Str(TransferProhibited);
        assert LooselyProhibited(Elements(statuses)[i]);
      }
    }
  }

  function LockText(locked: bool): (text: string)
    ensures text == "locked" || text == "unlocked"
    ensures locked <==> text == "locked"
  {
    if locked then "locked" else "unlocked"
  }

  /** The body of the lock update `SaveRegistrarLock` sends: the negation of
      the current state, and nothing else. */
  function LockToggle(response: Value): (body: Value)
    ensures body.Dict? && |body.entries| == 1
    ensures Get(body, "isLocked") == Bool(!IsLocked(response))
  {
    Dict([("isLocked", Bool(!IsLocked(response)))])
  }

  // ---------------------------------------------------------------------
  // DNS records

  /** One record as the platform expects it. */
  datatype DnsRecord = DnsRecord(hostname: Value, recordType: Value, address: Value, priority: Value)

  /** The remap of one API record: `name`, `type` and `value` are carried
      over, a missing `priority` becomes the empty string. */
  function RemapRecord(record: Value): (r: DnsRecord)
    ensures r.hostname == Get(record, "name") && r.recordType == Get(record, "type") && r.address == Get(record, "value")
    ensures IsSet(record, "priority") ==> r.priority == Get(record, "priority")
    ensures !IsSet(record, "priority") ==> r.priority == Str("")
  {
    DnsRecord(Get(record, "name"), Get(record, "type"), Get(record, "value"), Coalesce(Get(record, "priority"), Str("")))
  }

  /** The `foreach` over `items` that appends one remapped record per item:
      same length, same order. */
  method RemapDnsRecords(items: Value) returns (records: seq<DnsRecord>)
    ensures |records| == |Elements(items)|
    ensures forall i :: 0 <= i < |records| ==> records[i] == RemapRecord(Elements(items)[i])
  {
    var elements := Elements(items);
    records := [];
    var i := 0;
    while i < |elements|
      invariant 0 <= i <= |elements|
      invariant |records| == i
      invariant forall j :: 0 <= j < i ==> records[j] == RemapRecord(elements[j])
    {
      records := records + [RemapRecord(elements[i])];
      i := i + 1;
    }
  }

  // ---------------------------------------------------------------------
  // Domain information

  /** The domain record `GetDomainInformation` builds, one field per setter. */
  datatype DomainRecord = DomainRecord(
    domain: Value,
    nameservers: seq<(string, Value)>,
    registrationStatus: Value,
    transferLock: bool,
    expiryDate: Option<int>,
    restorable: bool,
    idProtection: bool,
    dnsManagement: bool,
    emailForwarding: Value,
    irtpEnabled: bool,
    irtpOptOut: bool,
    irtpTransferLock: bool,
    contactChangePending: bool,
    pendingSuspension: bool)

  /** The IRTP flag as written: the lower-cased `tld` compared with ".com". */
  predicate IrtpAsWritten(params: Value)
  {
    ToLower(ToStr(Coalesce(Get(params, "tld"), Str("")))) == ".com"
  }

  /** The `tld` the platform passes has no leading dot (the domain name is
      built as `sld . '.' . tld`), so as written the flag is off for ".com"
      domains, and it is on only for a `tld` that would make the name carry
      two dots in a row. */
  lemma {:induction false} IrtpAsWrittenMissesCom(params: Value)
    ensures Get(params, "tld") == Str("com") ==> !IrtpAsWritten(params)
    ensures IrtpAsWritten(params) && !IsSet(params, "domainname") ==>
              var name := GetDomainName(params).s;
              var i := |ToStr(Get(params, "sld"))|;
              name[i] == '.' && name[i + 1] == '.'
  {
    var tld := ToStr(Coalesce(Get(params, "tld"), Str("")));
    if Get(params, "tld") == Str("com") {
      assert |ToLower(tld)| == 3;
    }
    if IrtpAsWritten(params) && !IsSet(params, "domainname") {
      var sld := ToStr(Get(params, "sld"));
      assert tld == ToStr(Get(params, "tld"));
      assert ToLower(tld)[0] == '.';
      assert LowerChar(tld[0]) == '.';
      var name := GetDomainName(params).s;
      assert name == sld + "." + tld;
      assert name[|sld| + 1] == tld[0];
    }
  }

  /** The IRTP flag as intended: the domain is under ".com", whatever the
      case of the `tld` parameter. */
  predicate IrtpEnabled(params: Value)
  {
    ToLower(ToStr(Coalesce(Get(params, "tld"), Str("")))) == "com"
  }

  lemma {:induction false} IrtpEnabledForCom(params: Value)
    ensures Get(params, "tld") == Str("com") ==> IrtpEnabled(params)
    ensures Get(params, "tld") == Str("COM") ==> IrtpEnabled(params)
    ensures !IsSet(params, "tld") ==> !IrtpEnabled(params)
  {
    if Get(params, "tld") == Str("COM") {
      assert ToLower("COM") == "com";
    }
    if !IsSet(params, "tld") {
      assert |ToLower("")| == 0;
    }
  }

  /** `Carbon::parse($response['expirationDate'])` when the date is not empty;
      a date that does not parse leaves the expiry unset. */
  function ExpiryDate(response: Value, env: Env): (d: Option<int>)
    ensures Empty(Get(response, "expirationDate")) ==> d == None
    ensures !Empty(Get(response, "expirationDate")) ==> d == env.parseDate(Get(response, "expirationDate"))
  {
    var date := Get(response, "expirationDate");
    if Empty(date) then None else env.parseDate(date)
  }

  /** Every flag of the domain record, as the decoded domain information and
      the parameters determine it. */
  predicate DescribesDomain(record: DomainRecord, response: Value, params: Value, env: Env)
  {
    record.domain == Coalesce(Get(response, "name"), Str("")) &&
    record.nameservers == Slots(Get(Get(response, "nameservers"), "hosts")) &&
    record.registrationStatus == Coalesce(Get(response, "verificationStatus"), Str("unknown")) &&
    record.transferLock == IsLocked(response) &&
    record.expiryDate == ExpiryDate(response, env) &&
    record.restorable == (Get(response, "verificationStatus") == Str("success")) &&
    record.idProtection == (Get(Get(response, "privacyProtection"), "level") == Str("high")) &&
    record.dnsManagement == (Get(Get(response, "nameservers"), "provider") == Str("basic")) &&
    record.emailForwarding == Coalesce(Get(Get(response, "privacyProtection"), "contactForm"), Bool(false)) &&
    record.irtpEnabled == IrtpEnabled(params) &&
    !record.irtpOptOut && !record.irtpTransferLock &&
    record.contactChangePending == !Empty(Get(response, "pendingChanges")) &&
    record.pendingSuspension == !Empty(Get(response, "suspensions"))
  }

  /** The projection of the decoded domain information onto the record; the
      nameserver slots are filled by the loop. */
  method DomainInformation(response: Value, params: Value, env: Env) returns (record: DomainRecord)
    ensures DescribesDomain(record, response, params, env)
  {
    var nameservers := [];
    var hosts := Get(Get(response, "nameservers"), "hosts");
    if !Empty(hosts) {
      nameservers := SlotNameservers(hosts);
    } else {
      EmptyHostsFillNoSlot(hosts);
    }
    record := DomainRecord(
      Coalesce(Get(response, "name"), Str("")),
      nameservers,
      Coalesce(Get(response, "verificationStatus"), Str("unknown")),
      IsLocked(response),
      ExpiryDate(response, env),
      Get(response, "verificationStatus") == Str("success"),
      Get(Get(response, "privacyProtection"), "level") == Str("high"),
      Get(Get(response, "nameservers"), "provider") == Str("basic"),
      Coalesce(Get(Get(response, "privacyProtection"), "contactForm"), Bool(false)),
      IrtpEnabled(params),
      false,
      false,
      !Empty(Get(response, "pendingChanges")),
      !Empty(Get(response, "suspensions")));
  }

  /** A domain whose information carries no hosts has no nameserver slots
      rather than an error, and a domain with no status list is unlocked. */
  lemma {:induction false} DomainWithoutHosts(record: DomainRecord, response: Value, params: Value, env: Env)
    requires DescribesDomain(record, response, params, env)
    ensures Empty(Get(Get(response, "nameservers"), "hosts")) ==> record.nameservers == []
    ensures !IsSet(response, "eppStatuses") ==> !record.transferLock
  {
    var hosts := Get(Get(response, "nameservers"), "hosts");
    if Empty(hosts) {
      EmptyHostsFillNoSlot(hosts);
    }
  }

  // ---------------------------------------------------------------------
  // Sync

  /** What `Sync` reports for a domain. */
  datatype SyncInfo = SyncInfo(active: bool, expired: bool, expiryDate: string, nameservers: seq<(string, Value)>, isLocked: bool)

  const InvalidExpiration := "Invalid expiration date format."

  /** The expiry part of `Sync`: `strtotime` of the expiration date, refused
      when it fails or gives 0 (PHP's `!$expirationDate`); otherwise the two
      clock readings against it and the formatted date. */
  function ExpiryStatus(response: Value, env: Env): (r: Outcome<(bool, bool, string)>)
    ensures r.Error? <==> env.strToTime(Get(response, "expirationDate")) in {None, Some(0)}
    ensures r.Error? ==> r.error == Str(InvalidExpiration)
    ensures r.Success? ==>
              var ts := env.strToTime(Get(response, "expirationDate")).value;
              r.value == (env.now < ts, env.nowAgain >= ts, env.formatDate(ts))
  {
    match env.strToTime(Get(response, "expirationDate"))
    case None => Error(Str(InvalidExpiration))
    case Some(ts) => if ts == 0 then Error(Str(InvalidExpiration)) else Success((env.now < ts, env.nowAgain >= ts, env.formatDate(ts)))
  }

  /** With one clock reading, a domain is exactly one of active and expired;
      with a clock that does not go back, it is at least one of them. */
  lemma {:induction false} ActiveOrExpired(response: Value, env: Env)
    requires ExpiryStatus(response, env).Success?
    ensures var (active, expired, _) := ExpiryStatus(response, env).value;
            (env.now == env.nowAgain ==> active != expired) &&
            (env.now <= env.nowAgain ==> active || expired)
  {
    var ts := env.strToTime(Get(response, "expirationDate")).value;
    assert ExpiryStatus(response, env).value == (env.now < ts, env.nowAgain >= ts, env.formatDate(ts));
  }

  /** The sync data of a decoded domain information. */
  method SyncData(response: Value, env: Env) returns (r: Outcome<SyncInfo>)
    ensures r.Error? <==> ExpiryStatus(response, env).Error?
    ensures r.Error? ==> r.error == Str(InvalidExpiration)
    ensures r.Success? ==>
              var (active, expired, date) := ExpiryStatus(response, env).value;
              r.value == SyncInfo(active, expired, date, Slots(Get(Get(response, "nameservers"), "hosts")), IsLocked(response))
  {
    var nameservers := [];
    var hosts := Get(Get(response, "nameservers"), "hosts");
    if !Empty(hosts) {
      nameservers := SlotNameservers(hosts);
    } else {
      EmptyHostsFillNoSlot(hosts);
    }
    var locked := IsLocked(response);
    var expiry := ExpiryStatus(response, env);
    if expiry.Error? {
      return Error(Str(InvalidExpiration));
    }
    var (active, expired, date) := expiry.value;
    r := Success(SyncInfo(active, expired, date, nameservers, locked));
  }

  // ---------------------------------------------------------------------
  // Contact information

  /** The fifteen fields of the API's contact, each with the platform's
      parameter names to try, in order. */
  const ContactFields: seq<(string, seq<string>)> := [
    ("firstName", ["First Name", "firstname"]),
    ("lastName", ["Last Name", "lastname"]),
    ("organization", ["Company Name", "companyname"]),
    ("email", ["Email", "email"]),
    ("address1", ["Address 1", "address1"]),
    ("address2", ["Address 2", "address2"]),
    ("city", ["City", "city"]),
    ("country", ["Country", "countrycode"]),
    ("stateProvince", ["State", "state"]),
    ("postalCode", ["ZIP Code", "postcode"]),
    ("phone", ["Phone", "phonenumber"]),
    ("phoneExt", ["Phone Ext", "phoneExt"]),
    ("fax", ["Fax", "fax"]),
    ("faxExt", ["Fax Ext", "faxExt"]),
    ("taxNumber", ["Tax Number", "taxNumber"])
  ]

  /** The value of the first alternative that is set, or null when none is. */
  function FirstSet(params: Value, alternatives: seq<string>): (v: Value)
    ensures v == Null <==> forall i :: 0 <= i < |alternatives| ==> !IsSet(params, alternatives[i])
    ensures forall i :: 0 <= i < |alternatives| && IsSet(params, alternatives[i]) &&
                        (forall j :: 0 <= j < i ==> !IsSet(params, alternatives[j])) ==>
                          v == Get(params, alternatives[i])
  {
    if |alternatives| == 0 then Null
    else if IsSet(params, alternatives[0]) then Get(params, alternatives[0])
    else
      var v := FirstSet(params, alternatives[1..]);
      assert forall i :: 1 <= i < |alternatives| ==> alternatives[1..][i - 1] == alternatives[i];
      v
  }

  /** `mb_convert_encoding($value ?? '', ...)`, the conversion itself being the
      identity: arrays stay arrays, everything else becomes its string. */
  function Converted(v: Value): (r: Value)
    ensures v == Null ==> r == Str("")
    ensures v.Str? ==> r == v
    ensures r.Str? || r.List? || r.Dict?
  {
    if v.List? || v.Dict? then v else Str(ToStr(Coalesce(v, Str(""))))
  }

  function ClientEntry(params: Value, f: nat): (string, Value)
    requires f < |ContactFields|
  {
    (ContactFields[f].0, Converted(FirstSet(params, ContactFields[f].1)))
  }

  /** The result of `parse_clientinfo`: the fifteen fields in order. */
  function ClientInfo(params: Value): seq<(string, Value)>
  {
    seq(|ContactFields|, f requires 0 <= f < |ContactFields| => ClientEntry(params, f))
  }

  lemma ContactKeysDistinct()
    ensures forall i, j :: 0 <= i < j < |ContactFields| ==> ContactFields[i].0 != ContactFields[j].0
  {
  }

  /** The inner loop of `parse_clientinfo`: walks the alternatives and stops
      at the first that is set. */
  method FirstSetValue(params: Value, alternatives: seq<string>) returns (value: Value)
    ensures value == FirstSet(params, alternatives)
  {
    value := Null;
    var a := 0;
    while a < |alternatives|
      invariant 0 <= a <= |alternatives|
      invariant forall j :: 0 <= j < a ==> !IsSet(params, alternatives[j])
    {
      if IsSet(params, alternatives[a]) {
        value := Get(params, alternatives[a]);
        return;
      }
      a := a + 1;
    }
  }

  /** `parse_clientinfo`: each field takes its first alternative that is set
      and is assigned into the result. */
  method ParseClientInfo(params: Value) returns (result: seq<(string, Value)>)
    ensures result == ClientInfo(params)
  {
    ContactKeysDistinct();
    result := [];
    var f := 0;
    while f < |ContactFields|
      invariant 0 <= f <= |ContactFields|
      invariant result == ClientInfo(params)[..f]
    {
      var key := ContactFields[f].0;
      var value := FirstSetValue(params, ContactFields[f].1);
      assert forall j :: 0 <= j < |result| ==> result[j].0 != key;
      result := Assign(result, key, Converted(value));
      assert ClientInfo(params)[..f + 1] == ClientInfo(params)[..f] + [ClientEntry(params, f)];
      f := f + 1;
    }
    assert ClientInfo(params)[..f] == ClientInfo(params);
  }

  /** Exactly the fifteen contact fields, and each reads as the converted
      value of its first alternative that is set, or "" when none is. */
  lemma {:induction false} ClientInfoFields(params: Value)
    ensures |ClientInfo(params)| == 15 && DistinctKeys(ClientInfo(params))
    ensures forall f :: 0 <= f < |ContactFields| ==>
              Lookup(ClientInfo(params), ContactFields[f].0) == Converted(FirstSet(params, ContactFields[f].1))
    ensures forall f :: 0 <= f < |ContactFields| &&
                        (forall i :: 0 <= i < |ContactFields[f].1| ==> !IsSet(params, ContactFields[f].1[i])) ==>
              Lookup(ClientInfo(params), ContactFields[f].0) == Str("")
  {
    ContactKeysDistinct();
    var r := ClientInfo(params);
    forall f | 0 <= f < |ContactFields|
      ensures Lookup(r, ContactFields[f].0) == Converted(FirstSet(params, ContactFields[f].1))
    {
      LookupFirst(r, f, ContactFields[f].0);
    }
  }

  // ---------------------------------------------------------------------
  // Stubs

  const DnsUnsupported := "DNS Management not yet supported"
  const ContactsUnsupported := "Contact Details Management not yet supported"

  /** `SaveDNS`: always refused, whatever the parameters. */
  function SaveDns(params: Value): (r: Outcome<bool>)
    ensures r == Error(Str(DnsUnsupported))
  {
    Error(Str(DnsUnsupported))
  }

  /** `GetContactDetails`: always refused. */
  function GetContactDetails(params: Value): (r: Outcome<bool>)
    ensures r == Error(Str(ContactsUnsupported))
  {
    Error(Str(ContactsUnsupported))
  }

  /** `SaveContactDetails`: always refused. */
  function SaveContactDetails(params: Value): (r: Outcome<bool>)
    ensures r == Error(Str(ContactsUnsupported))
  {
    Error(Str(ContactsUnsupported))
  }

  // ---------------------------------------------------------------------
  // Operations

  /** The domain name as the client's string parameter. */
  function DomainText(params: Value): string
  {
    ToStr(GetDomainName(params))
  }

  /** The request that reads the domain's information. */
  function DomainInfoRequest(params: Value): HttpRequest
  {
    ApiRequest(params, GET, "domains/" + DomainText(params), None)
  }

  /** Exactly the request `r` went out during the call. */
  twostate predicate SentOnly(net: Network, r: HttpRequest)
    reads net
  {
    net.sent == old(net.sent) + [r]
  }

  /** What the client made of the transport's answer to `r`, sent after
      everything sent before the call. */
  twostate function Answer(net: Network, r: HttpRequest): RawResult
    reads net
  {
    RequestResult(net.serve(old(net.sent), r))
  }

  /** The outcome of an operation whose only result is success. */
  function Done(raw: RawResult, env: Env): (r: Outcome<bool>)
    ensures r.Success? <==> HandleApiResponse(raw, env.decode) == None
    ensures r.Success? ==> r.value
    ensures r.Error? ==> r.error == HandleApiResponse(raw, env.decode).value
  {
    match HandleApiResponse(raw, env.decode)
    case Some(e) => Error(e)
    case None => Success(true)
  }

  /** `spaceship_RegisterDomain`. */
  method RegisterDomain(params: Value, net: Network, env: Env) returns (r: Outcome<bool>)
    modifies net
    ensures ValidateApiCredentials(params).Some? ==> r == Error(Str(CredentialsMissing)) && net.sent == old(net.sent)
    ensures ValidateApiCredentials(params).None? ==>
              var req := ApiRequest(params, POST, "domains/" + DomainText(params), Some(RegisterPayload(params)));
              SentOnly(net, req) && r == Done(Answer(net, req), env)
  {
    var api := InitApi(params, net);
    if api.None? {
      return Error(Str(CredentialsMissing));
    }
    var raw := api.value.RegisterDomain(DomainText(params), RegisterPayload(params));
    r := Done(raw, env);
  }

  /** The array `TransferDomain` hands to the client. */
  function TransferParams(params: Value): (t: Value)
    ensures t.Dict? && |t.entries| == 2 && DistinctKeys(t.entries)
    ensures IsSet(t, "domain") && Get(t, "domain") == GetDomainName(params)
    ensures IsSet(t, "authCode") == IsSet(params, "eppcode") && Get(t, "authCode") == Get(params, "eppcode")
  {
    var e := [("domain", GetDomainName(params)), ("authCode", Get(params, "eppcode"))];
    LookupFirst(e, 1, "authCode");
    Dict(e)
  }

  /** `spaceship_TransferDomain`: without an EPP code the client refuses
      before any request. */
  method TransferDomain(params: Value, net: Network, env: Env) returns (r: Outcome<bool>)
    modifies net
    ensures ValidateApiCredentials(params).Some? ==> r == Error(Str(CredentialsMissing)) && net.sent == old(net.sent)
    ensures ValidateApiCredentials(params).None? && !IsSet(params, "eppcode") ==>
              r == Error(Str(MissingParameter("authCode"))) && net.sent == old(net.sent)
    ensures ValidateApiCredentials(params).None? && IsSet(params, "eppcode") ==>
              var req := ApiRequest(params, POST, "domains/transfer", Some(TransferParams(params)));
              SentOnly(net, req) && r == Done(Answer(net, req), env)
  {
    var api := InitApi(params, net);
    if api.None? {
      return Error(Str(CredentialsMissing));
    }
    var call := api.value.TransferDomain(TransferParams(params));
    match call
    case Thrown(message) => r := Error(Str(message));
    case Returned(raw) => r := Done(raw, env);
  }

  /** The array `RenewDomain` hands to the client. */
  function RenewParams(params: Value): (t: Value)
    ensures t.Dict? && |t.entries| == 2 && DistinctKeys(t.entries)
    ensures IsSet(t, "domain") && Get(t, "domain") == GetDomainName(params)
    ensures IsSet(t, "years") == IsSet(params, "regperiod") && Get(t, "years") == Get(params, "regperiod")
  {
    var e := [("domain", GetDomainName(params)), ("years", Get(params, "regperiod"))];
    LookupFirst(e, 1, "years");
    Dict(e)
  }

  /** `spaceship_RenewDomain`: without a registration period the client
      refuses before any request; otherwise only the years are sent. */
  method RenewDomain(params: Value, net: Network, env: Env) returns (r: Outcome<bool>)
    modifies net
    ensures ValidateApiCredentials(params).Some? ==> r == Error(Str(CredentialsMissing)) && net.sent == old(net.sent)
    ensures ValidateApiCredentials(params).None? && !IsSet(params, "regperiod") ==>
              r == Error(Str(MissingParameter("years"))) && net.sent == old(net.sent)
    ensures ValidateApiCredentials(params).None? && IsSet(params, "regperiod") ==>
              var req := ApiRequest(params, PUT, "domains/" + DomainText(params) + "/renew",
                                    Some(Dict([("years", Get(params, "regperiod"))])));
              SentOnly(net, req) && r == Done(Answer(net, req), env)
  {
    var api := InitApi(params, net);
    if api.None? {
      return Error(Str(CredentialsMissing));
    }
    var call := api.value.RenewDomain(RenewParams(params));
    match call
    case Thrown(message) => r := Error(Str(message));
    case Returned(raw) => r := Done(raw, env);
  }

  /** `spaceship_GetDomainInformation`: an API error is rethrown as an
      exception, so its detail comes back as a string. */
  method GetDomainInformation(params: Value, net: Network, env: Env) returns (r: Outcome<DomainRecord>)
    modifies net
    ensures ValidateApiCredentials(params).Some? ==> r == Error(Str(CredentialsMissing)) && net.sent == old(net.sent)
    ensures ValidateApiCredentials(params).None? ==>
              var req := DomainInfoRequest(params);
              var raw := Answer(net, req);
              SentOnly(net, req) &&
              (HandleApiResponse(raw, env.decode).Some? ==> r == Error(Str(ToStr(HandleApiResponse(raw, env.decode).value)))) &&
              (HandleApiResponse(raw, env.decode).None? ==> r.Success? && DescribesDomain(r.value, Payload(raw, env), params, env))
  {
    var api := InitApi(params, net);
    if api.None? {
      return Error(Str(CredentialsMissing));
    }
    var raw := api.value.GetDomainInfo(DomainText(params));
    var error := HandleApiResponse(raw, env.decode);
    if error.Some? {
      return Error(Str(ToStr(error.value)));
    }
    var record := DomainInformation(Payload(raw, env), params, env);
    r := Success(record);
  }

  /** `spaceship_GetNameservers`: the slots of the domain's hosts. */
  method GetNameservers(params: Value, net: Network, env: Env) returns (r: Outcome<seq<(string, Value)>>)
    modifies net
    ensures ValidateApiCredentials(params).Some? ==> r == Error(Str(CredentialsMissing)) && net.sent == old(net.sent)
    ensures ValidateApiCredentials(params).None? ==>
              var req := DomainInfoRequest(params);
              var raw := Answer(net, req);
              SentOnly(net, req) &&
              (HandleApiResponse(raw, env.decode).Some? ==> r == Error(HandleApiResponse(raw, env.decode).value)) &&
              (HandleApiResponse(raw, env.decode).None? ==> r == Success(Slots(Get(Get(Payload(raw, env), "nameservers"), "hosts"))))
  {
    var api := InitApi(params, net);
    if api.None? {
      return Error(Str(CredentialsMissing));
    }
    var raw := api.value.GetDomainInfo(DomainText(params));
    var error := HandleApiResponse(raw, env.decode);
    if error.Some? {
      return Error(error.value);
    }
    var slots := SlotNameservers(Get(Get(Payload(raw, env), "nameservers"), "hosts"));
    r := Success(slots);
  }

  /** `spaceship_SaveNameservers`: sends the custom hosts, then reports the
      slots of the hosts the API answers with. */
  method SaveNameservers(params: Value, net: Network, env: Env) returns (r: Outcome<seq<(string, Value)>>)
    modifies net
    ensures ValidateApiCredentials(params).Some? ==> r == Error(Str(CredentialsMissing)) && net.sent == old(net.sent)
    ensures ValidateApiCredentials(params).None? ==>
              var req := ApiRequest(params, PUT, "domains/" + DomainText(params) + "/nameservers",
                                    Some(CustomNameservers(HostsList(params))));
              var raw := Answer(net, req);
              SentOnly(net, req) &&
              (HandleApiResponse(raw, env.decode).Some? ==> r == Error(HandleApiResponse(raw, env.decode).value)) &&
              (HandleApiResponse(raw, env.decode).None? ==> r == Success(Slots(Get(Payload(raw, env), "hosts"))))
  {
    var api := InitApi(params, net);
    if api.None? {
      return Error(Str(CredentialsMissing));
    }
    var raw := api.value.SaveNameServers(DomainText(params), CustomNameservers(HostsList(params)));
    var error := HandleApiResponse(raw, env.decode);
    if error.Some? {
      return Error(error.value);
    }
    var slots := SlotNameservers(Get(Payload(raw, env), "hosts"));
    r := Success(slots);
  }

  /** `spaceship_GetRegistrarLock`. */
  method GetRegistrarLock(params: Value, net: Network, env: Env) returns (r: Outcome<string>)
    modifies net
    ensures ValidateApiCredentials(params).Some? ==> r == Error(Str(CredentialsMissing)) && net.sent == old(net.sent)
    ensures ValidateApiCredentials(params).None? ==>
              var req := DomainInfoRequest(params);
              var raw := Answer(net, req);
              SentOnly(net, req) &&
              (HandleApiResponse(raw, env.decode).Some? ==> r == Error(HandleApiResponse(raw, env.decode).value)) &&
              (HandleApiResponse(raw, env.decode).None? ==> r == Success(LockText(IsLocked(Payload(raw, env)))))
  {
    var api := InitApi(params, net);
    if api.None? {
      return Error(Str(CredentialsMissing));
    }
    var raw := api.value.GetDomainInfo(DomainText(params));
    var error := HandleApiResponse(raw, env.decode);
    if error.Some? {
      return Error(error.value);
    }
    r := Success(LockText(IsLocked(Payload(raw, env))));
  }

  /** The request that sets the lock to the negation of what `response` says. */
  function LockRequest(params: Value, response: Value): HttpRequest
  {
    ApiRequest(params, PUT, "domains/" + DomainText(params) + "/transfer/lock", Some(LockToggle(response)))
  }

  /** `spaceship_SaveRegistrarLock`: reads the lock state, then sends its
      negation; a failing read ends the operation before the second request,
      and a failing update is reported, never success. */
  method SaveRegistrarLock(params: Value, net: Network, env: Env) returns (r: Outcome<bool>)
    modifies net
    ensures ValidateApiCredentials(params).Some? ==> r == Error(Str(CredentialsMissing)) && net.sent == old(net.sent)
    ensures ValidateApiCredentials(params).None? ==>
              var read := DomainInfoRequest(params);
              var first := RequestResult(net.serve(old(net.sent), read));
              (HandleApiResponse(first, env.decode).Some? ==>
                 net.sent == old(net.sent) + [read] && r == Error(HandleApiResponse(first, env.decode).value)) &&
              (HandleApiResponse(first, env.decode).None? ==>
                 var update := LockRequest(params, Payload(first, env));
                 net.sent == old(net.sent) + [read, update] &&
                 r == Done(RequestResult(net.serve(old(net.sent) + [read], update)), env))
  {
    var api := InitApi(params, net);
    if api.None? {
      return Error(Str(CredentialsMissing));
    }
    var domain := DomainText(params);
    var raw := api.value.GetDomainInfo(domain);
    var error := HandleApiResponse(raw, env.decode);
    if error.Some? {
      return Error(error.value);
    }
    var locked := IsLocked(Payload(raw, env));
    raw := api.value.SetDomainLock(domain, Dict([("isLocked", Bool(!locked))]));
    r := Done(raw, env);
  }

  /** `spaceship_GetEPPCode`: the `authCode` of the decoded answer. */
  method GetEppCode(params: Value, net: Network, env: Env) returns (r: Outcome<Value>)
    modifies net
    ensures ValidateApiCredentials(params).Some? ==> r == Error(Str(CredentialsMissing)) && net.sent == old(net.sent)
    ensures ValidateApiCredentials(params).None? ==>
              var req := ApiRequest(params, GET, "domains/" + DomainText(params) + "/transfer/auth-code", None);
              var raw := Answer(net, req);
              SentOnly(net, req) &&
              (HandleApiResponse(raw, env.decode).Some? ==> r == Error(HandleApiResponse(raw, env.decode).value)) &&
              (HandleApiResponse(raw, env.decode).None? ==> r == Success(Get(Payload(raw, env), "authCode")))
  {
    var api := InitApi(params, net);
    if api.None? {
      return Error(Str(CredentialsMissing));
    }
    var raw := api.value.GetAuthCode(DomainText(params));
    var error := HandleApiResponse(raw, env.decode);
    if error.Some? {
      return Error(error.value);
    }
    r := Success(Get(Payload(raw, env), "authCode"));
  }

  /** `spaceship_GetDNS`: the remapped `items` of the domain's records. */
  method GetDns(params: Value, net: Network, env: Env) returns (r: Outcome<seq<DnsRecord>>)
    modifies net
    ensures ValidateApiCredentials(params).Some? ==> r == Error(Str(CredentialsMissing)) && net.sent == old(net.sent)
    ensures ValidateApiCredentials(params).None? ==>
              var req := ApiRequest(params, GET, DnsRecordsPath(DomainText(params)), None);
              var raw := Answer(net, req);
              var items := Elements(Get(Payload(raw, env), "items"));
              SentOnly(net, req) &&
              (HandleApiResponse(raw, env.decode).Some? ==> r == Error(HandleApiResponse(raw, env.decode).value)) &&
              (HandleApiResponse(raw, env.decode).None? ==>
                 r.Success? && |r.value| == |items| && forall i :: 0 <= i < |items| ==> r.value[i] == RemapRecord(items[i]))
  {
    var api := InitApi(params, net);
    if api.None? {
      return Error(Str(CredentialsMissing));
    }
    var raw := api.value.GetDnsRecords(DomainText(params));
    var error := HandleApiResponse(raw, env.decode);
    if error.Some? {
      return Error(error.value);
    }
    var records := RemapDnsRecords(Get(Payload(raw, env), "items"));
    r := Success(records);
  }

  /** `spaceship_Sync`. */
  method Sync(params: Value, net: Network, env: Env) returns (r: Outcome<SyncInfo>)
    modifies net
    ensures ValidateApiCredentials(params).Some? ==> r == Error(Str(CredentialsMissing)) && net.sent == old(net.sent)
    ensures ValidateApiCredentials(params).None? ==>
              var req := DomainInfoRequest(params);
              var raw := Answer(net, req);
              var response := Payload(raw, env);
              SentOnly(net, req) &&
              (HandleApiResponse(raw, env.decode).Some? ==> r == Error(HandleApiResponse(raw, env.decode).value)) &&
              (HandleApiResponse(raw, env.decode).None? && ExpiryStatus(response, env).Error? ==> r == Error(Str(InvalidExpiration))) &&
              (HandleApiResponse(raw, env.decode).None? && ExpiryStatus(response, env).Success? ==>
                 var (active, expired, date) := ExpiryStatus(response, env).value;
                 r == Success(SyncInfo(active, expired, date, Slots(Get(Get(response, "nameservers"), "hosts")), IsLocked(response))))
  {
    var api := InitApi(params, net);
    if api.None? {
      return Error(Str(CredentialsMissing));
    }
    var raw := api.value.GetDomainInfo(DomainText(params));
    var error := HandleApiResponse(raw, env.decode);
    if error.Some? {
      return Error(error.value);
    }
    r := SyncData(Payload(raw, env), env);
  }
}
