/** The Spaceship API client: one authenticated HTTP request per public
    operation, and the flattening of the transport's outcome into one of
    three raw result shapes. */
module SpaceshipClient {
  import opened Php
  import opened Http

  /** What `request` returns: the response body on success, the
      `{statusCode, message}` array built from a `RequestException`, or the
      `{error: true, message}` array built from a `JsonException`. */
  datatype RawResult =
    | Body(body: string)
    | Failure(statusCode: int, message: string)
    | JsonError(message: string)

  /** What a route method that validates its parameters ends in: the request's
      result, or the message of the `InvalidArgumentException` it throws. */
  datatype CallResult = Returned(raw: RawResult) | Thrown(message: string)

  const ContentType: (string, string) := ("Content-Type", "application/json")

  /** The headers attached to every request. */
  function AuthHeaders(apiKey: string, apiSecret: string): (h: seq<(string, string)>)
    ensures |h| == 3
    ensures forall i, j :: 0 <= i < j < |h| ==> h[i].0 != h[j].0
    ensures forall i :: 0 <= i < |h| ==>
              h[i] in {("X-API-Key", apiKey), ("X-API-Secret", apiSecret), ContentType}
  {
    [("X-API-Key", apiKey), ("X-API-Secret", apiSecret), ContentType]
  }

  /** `"$baseUri/$uri"`: the two parts joined by one slash, neither trimmed. */
  function JoinUrl(baseUri: string, uri: string): (url: string)
    ensures |url| == |baseUri| + 1 + |uri|
    ensures url[..|baseUri|] == baseUri && url[|baseUri|] == '/' && url[|baseUri| + 1..] == uri
  {
    baseUri + "/" + uri
  }

  function MissingParameter(key: string): string
  {
    "Missing required parameter: " + key
  }

  /** The path of the DNS record collection of a domain. */
  function DnsRecordsPath(domain: string): string
  {
    "dns/records/" + domain
  }

  /** The path of a contact's attributes. */
  function AttributesPath(contactId: string): string
  {
    "contacts/attributes/" + contactId
  }

  /** The paths `saveContactAttributes` and `deleteDnsRecords` use as written:
      with a leading slash and their own version segment. */
  function AttributesPathAsWritten(contactId: string): string
  {
    "/v1/contacts/attributes/" + contactId
  }

  function DeleteDnsPathAsWritten(domain: string): string
  {
    "/v1/dns/records/" + domain
  }

  /** Whatever the base endpoint, the routes as written put an empty path
      segment and a second version segment after it (with the default endpoint
      `.../api/v1` the URL reads `.../api/v1//v1/...`), and deleting DNS records
      addresses another URL than reading or saving them. */
  lemma {:induction false} AsWrittenRoutesRepeatVersion(baseUri: string, contactId: string, domain: string)
    ensures JoinUrl(baseUri, AttributesPathAsWritten(contactId))[|baseUri|..|baseUri| + 5] == "//v1/"
    ensures JoinUrl(baseUri, DeleteDnsPathAsWritten(domain)) != JoinUrl(baseUri, DnsRecordsPath(domain))
  {
    var attributes := JoinUrl(baseUri, AttributesPathAsWritten(contactId));
    assert attributes[|baseUri| + 1..] == AttributesPathAsWritten(contactId);
    assert attributes[|baseUri| + 1..|baseUri| + 5] == AttributesPathAsWritten(contactId)[..4] == "/v1/";
    var deleting := JoinUrl(baseUri, DeleteDnsPathAsWritten(domain));
    assert deleting[|baseUri| + 1] == DeleteDnsPathAsWritten(domain)[0] == '/';
    assert JoinUrl(baseUri, DnsRecordsPath(domain))[|baseUri| + 1] == DnsRecordsPath(domain)[0] == 'd';
  }

  /** The corrected attributes route sits under the base endpoint next to
      the other contact routes, with no empty path segment after the join. */
  lemma {:induction false} CorrectedRoutesShareBase(baseUri: string, contactId: string)
    ensures JoinUrl(baseUri, AttributesPath(contactId)) == JoinUrl(baseUri, "contacts/") + "attributes/" + contactId
    ensures JoinUrl(baseUri, AttributesPath(contactId))[|baseUri| + 1] != '/'
  {
    assert AttributesPath(contactId) == "contacts/attributes/" + contactId;
    assert JoinUrl(baseUri, AttributesPath(contactId))[|baseUri| + 1..] == AttributesPath(contactId);
  }

  /** The `try`/`catch` of `request`: a body on success, otherwise the array
      built by the matching `catch` block. */
  function RequestResult(t: Transport): RawResult
  {
    match t
    case Delivered(body) => Body(body)
    case RequestFailed(e) => SpaceshipApi.HandleRequestException(e)
    case JsonFailed(m) => JsonError("JSON parsing error: " + m)
  }

  class SpaceshipApi {
    const baseUri: string
    const apiKey: string
    const apiSecret: string
    const headers: seq<(string, string)>
    /** The transport; the source creates a Guzzle client here, the model is
        handed one. */
    const net: Network

    constructor (apiKey: string, apiSecret: string, baseUri: string, net: Network)
      ensures this.apiKey == apiKey && this.apiSecret == apiSecret && this.baseUri == baseUri
      ensures this.net == net
      ensures headers == AuthHeaders(apiKey, apiSecret)
    {
      this.apiKey := apiKey;
      this.apiSecret := apiSecret;
      this.baseUri := baseUri;
      this.net := net;
      this.headers := AuthHeaders(apiKey, apiSecret);
    }

    /** A transport exception becomes `{statusCode, message}`: the HTTP status
        and body when a response arrived, otherwise status 0 and the
        exception's own message. */
    static function HandleRequestException(e: RequestException): (r: RawResult)
      ensures r.Failure?
      ensures e.response.Some? ==> r.statusCode == e.response.value.status && r.message == e.response.value.body
      ensures e.response.None? ==> r.statusCode == 0 && r.message == e.message
    {
      match e.response
      case Some(resp) => Failure(resp.status, resp.body)
      case None => Failure(0, e.message)
    }

    /** Checks `isset($params[$key])` for each required key in order and
        reports the first that is not set. */
    static method ValidateRequiredParams(params: Value, required: seq<string>) returns (missing: Option<string>)
      ensures missing.None? <==> forall k :: 0 <= k < |required| ==> IsSet(params, required[k])
      ensures missing.Some? ==>
                exists i :: 0 <= i < |required| && required[i] == missing.value && !IsSet(params, required[i]) &&
                            forall j :: 0 <= j < i ==> IsSet(params, required[j])
    {
      var n := 0;
      while n < |required|
        invariant 0 <= n <= |required|
        invariant forall k :: 0 <= k < n ==> IsSet(params, required[k])
      {
        if !IsSet(params, required[n]) {
          missing := Some(required[n]);
          return;
        }
        n := n + 1;
      }
      missing := None;
    }

    function Prepare(verb: Method, uri: string, json: Option<Value>): HttpRequest
    {
      HttpRequest(verb, JoinUrl(baseUri, uri), headers, json)
    }

    /** The request `r` was sent, once, and `raw` is what `request` made of
        the transport's answer to it. */
    twostate predicate Issued(r: HttpRequest, raw: RawResult)
      reads net
    {
      net.sent == old(net.sent) + [r] && raw == RequestResult(net.serve(old(net.sent), r))
    }

    method Request(verb: Method, uri: string, json: Option<Value>) returns (raw: RawResult)
      modifies net
      ensures Issued(Prepare(verb, uri, json), raw)
    {
      var t := net.Send(Prepare(verb, uri, json));
      raw := RequestResult(t);
    }

    method GetAuthCode(domain: string) returns (raw: RawResult)
      modifies net
      ensures Issued(Prepare(GET, "domains/" + domain + "/transfer/auth-code", None), raw)
    {
      raw := Request(GET, "domains/" + domain + "/transfer/auth-code", None);
    }

    method GetDomainInfo(domain: string) returns (raw: RawResult)
      modifies net
      ensures Issued(Prepare(GET, "domains/" + domain, None), raw)
    {
      raw := Request(GET, "domains/" + domain, None);
    }

    method RegisterDomain(domain: string, params: Value) returns (raw: RawResult)
      modifies net
      ensures Issued(Prepare(POST, "domains/" + domain, Some(params)), raw)
    {
      raw := Request(POST, "domains/" + domain, Some(params));
    }

    method TransferDomain(params: Value) returns (r: CallResult)
      modifies net
      ensures !IsSet(params, "domain") ==> r == Thrown(MissingParameter("domain")) && net.sent == old(net.sent)
      ensures IsSet(params, "domain") && !IsSet(params, "authCode") ==>
                r == Thrown(MissingParameter("authCode")) && net.sent == old(net.sent)
      ensures IsSet(params, "domain") && IsSet(params, "authCode") ==>
                r.Returned? && Issued(Prepare(POST, "domains/transfer", Some(params)), r.raw)
    {
      var required := ["domain", "authCode"];
      var missing := ValidateRequiredParams(params, required);
      if missing.Some? {
        ghost var i :| 0 <= i < |required| && required[i] == missing.value && !IsSet(params, required[i]) &&
                       forall j :: 0 <= j < i ==> IsSet(params, required[j]);
        assert missing.value == if IsSet(params, "domain") then "authCode" else "domain";
        return Thrown(MissingParameter(missing.value));
      }
      assert IsSet(params, required[0]) && IsSet(params, required[1]);
      var raw := Request(POST, "domains/transfer", Some(params));
      r := Returned(raw);
    }

    method RenewDomain(params: Value) returns (r: CallResult)
      modifies net
      ensures !IsSet(params, "domain") ==> r == Thrown(MissingParameter("domain")) && net.sent == old(net.sent)
      ensures IsSet(params, "domain") && !IsSet(params, "years") ==>
                r == Thrown(MissingParameter("years")) && net.sent == old(net.sent)
      ensures IsSet(params, "domain") && IsSet(params, "years") ==>
                r.Returned? &&
                Issued(Prepare(PUT, "domains/" + ToStr(Get(params, "domain")) + "/renew",
                               Some(Dict([("years", Get(params, "years"))]))), r.raw)
    {
      var required := ["domain", "years"];
      var missing := ValidateRequiredParams(params, required);
      if missing.Some? {
        ghost var i :| 0 <= i < |required| && required[i] == missing.value && !IsSet(params, required[i]) &&
                       forall j :: 0 <= j < i ==> IsSet(params, required[j]);
        assert missing.value == if IsSet(params, "domain") then "years" else "domain";
        return Thrown(MissingParameter(missing.value));
      }
      assert IsSet(params, required[0]) && IsSet(params, required[1]);
      var raw := Request(PUT, "domains/" + ToStr(Get(params, "domain")) + "/renew",
                         Some(Dict([("years", Get(params, "years"))])));
      r := Returned(raw);
    }

    method SaveContactDetails(contactDetails: Value) returns (raw: RawResult)
      modifies net
      ensures Issued(Prepare(PUT, "contacts", Some(contactDetails)), raw)
    {
      raw := Request(PUT, "contacts", Some(contactDetails));
    }

    method SaveNameServers(domain: string, nsDetails: Value) returns (raw: RawResult)
      modifies net
      ensures Issued(Prepare(PUT, "domains/" + domain + "/nameservers", Some(nsDetails)), raw)
    {
      raw := Request(PUT, "domains/" + domain + "/nameservers", Some(nsDetails));
    }

    method GetContactDetails(contactId: string) returns (raw: RawResult)
      modifies net
      ensures Issued(Prepare(GET, "contacts/" + contactId, None), raw)
    {
      raw := Request(GET, "contacts/" + contactId, None);
    }

    method SaveContactAttributes(contactId: string, attributes: Value) returns (raw: RawResult)
      modifies net
      ensures Issued(Prepare(PUT, AttributesPath(contactId), Some(attributes)), raw)
    {
      raw := Request(PUT, AttributesPath(contactId), Some(attributes));
    }

    method GetDnsRecords(domain: string) returns (raw: RawResult)
      modifies net
      ensures Issued(Prepare(GET, DnsRecordsPath(domain), None), raw)
    {
      raw := Request(GET, DnsRecordsPath(domain), None);
    }

    method SaveDnsRecords(domain: string, records: Value) returns (raw: RawResult)
      modifies net
      ensures Issued(Prepare(PUT, DnsRecordsPath(domain), Some(records)), raw)
    {
      raw := Request(PUT, DnsRecordsPath(domain), Some(records));
    }

    method SetDomainLock(domain: string, records: Value) returns (raw: RawResult)
      modifies net
      ensures Issued(Prepare(PUT, "domains/" + domain + "/transfer/lock", Some(records)), raw)
    {
      raw := Request(PUT, "domains/" + domain + "/transfer/lock", Some(records));
    }

    method DeleteDnsRecords(domain: string, records: Value) returns (raw: RawResult)
      modifies net
      ensures Issued(Prepare(DELETE, DnsRecordsPath(domain), Some(records)), raw)
    {
      raw := Request(DELETE, DnsRecordsPath(domain), Some(records));
    }
  }
}
