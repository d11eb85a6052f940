# Spaceship registrar adapter, modelled in Dafny

This project models the hosting platform's registrar module for the Spaceship
domain API. The module has two parts.

- The **API client** (`SpaceshipClient`). It attaches the key, secret and
  content-type headers to every call. It joins the base endpoint and a route
  with one slash, and checks required parameters before sending. A transport
  outcome becomes one of three raw shapes: a body, `{statusCode, message}`, or
  `{error: true, message}`.
- The **registrar operations** (`RegistrarHelpers`, `Registrar`). They
  validate the credentials and build the request parameters. They classify the
  raw result into "no error" or an error detail. For read operations they
  project the decoded payload into what the platform expects:
  - nameserver slots `ns1..nsN`;
  - the transfer-lock state;
  - DNS records;
  - the domain record and its flags;
  - the sync data;
  - the contact fields, each with fallback parameter names.

Files:

- `php.dfy` (`Php`): the PHP values the adapter handles and the parts of PHP's
  semantics it relies on. These are reading a key with `??`, `isset`,
  `empty` (which treats `"0"` as empty), string conversion, `$a[$k] = $v` on an
  ordered array, and `strtolower`.
- `http.dfy` (`Http`): the HTTP transport, a class `Network`. An oracle
  `serve` answers each request, given everything sent before it. A log `sent`
  records every request. "No request was made" means `sent` is unchanged.
  "The second request was not made" means exactly one request was appended.
- `spaceship_api.dfy` (`SpaceshipClient`): the client class `SpaceshipApi`.
  It covers the constructor, `handleRequestException`, `validateRequiredParams`,
  `request` and every route method.
- `registrar_helpers.dfy` (`RegistrarHelpers`): the helpers.
  - `validateApiCredentials`, `validateDomainParams` and `getDomainName`.
  - `handleApiResponse` and `getNameserversArray`, modelled as PHP's
    `array_filter` with original keys.
  - The registration payload and `initApi`.
- `registrar.dfy` (`Registrar`): the platform operations, their projections,
  `parse_clientinfo` and the three stub operations.

The operations are methods that modify only the network log. The pure parts
they call are functions and loop methods, each proved against a specification
function. Lemmas prove the properties the adapter promises about those
functions.

Library calls are parameters of an `Env` value: `json_decode`,
`Carbon::parse`, `strtotime`, `date`, and the two `time()` readings of `Sync`.

## Model

| member | source | states |
|---|---|---|
| Php.LookupMissing | modules/registrars/spaceship/spaceship.php:40 | reading a key that no entry of the array carries gives null, so `??` falls back to its default |
| Php.LookupFirst | modules/registrars/spaceship/spaceship.php:40 | reading a key gives the value of the first entry that carries it |
| Php.NatToString | modules/registrars/spaceship/spaceship.php:195 | the decimal text used in `"ns" . ($index + 1)` is never empty and has one digit exactly below 10 |
| Php.NatToStringInjective | modules/registrars/spaceship/spaceship.php:195 | distinct numbers have distinct decimal texts, so distinct slot indices give distinct keys |
| Php.Assign | modules/registrars/spaceship/spaceship.php:195 | `$a[$k] = $v` appends a new key at the end, makes `$k` read as `$v`, and leaves every other key's value unchanged |
| Http.Network.constructor | modules/registrars/spaceship/lib/SpaceshipAPI.php:33 | a new transport has sent nothing and answers with the given oracle |
| Http.Network.Send | modules/registrars/spaceship/lib/SpaceshipAPI.php:66 | one call appends exactly the request to the log and returns the oracle's answer to it, given the earlier log |
| SpaceshipClient.AuthHeaders | modules/registrars/spaceship/lib/SpaceshipAPI.php:35-39 | exactly three headers with distinct names: the API key, the API secret and the JSON content type |
| SpaceshipClient.JoinUrl | modules/registrars/spaceship/lib/SpaceshipAPI.php:66 | the URL is the base endpoint, one slash and the route, with neither trimmed |
| SpaceshipClient.AsWrittenRoutesRepeatVersion | modules/registrars/spaceship/lib/SpaceshipAPI.php:140-177 | as written, the attributes and DNS-delete routes put `//v1/` after any base endpoint, and deleting DNS records addresses another URL than reading or saving them |
| SpaceshipClient.CorrectedRoutesShareBase | modules/registrars/spaceship/lib/SpaceshipAPI.php:140-146 | the corrected attributes route sits right under the base endpoint, next to the other contact routes, with no empty path segment |
| SpaceshipClient.SpaceshipApi.constructor | modules/registrars/spaceship/lib/SpaceshipAPI.php:28-40 | the client keeps the key, secret and endpoint it was given, and its headers are the three authentication headers |
| SpaceshipClient.SpaceshipApi.HandleRequestException | modules/registrars/spaceship/lib/SpaceshipAPI.php:42-52 | a transport exception becomes `{statusCode, message}`: the HTTP status and body when a response arrived, else status 0 and the exception's message |
| SpaceshipClient.SpaceshipApi.ValidateRequiredParams | modules/registrars/spaceship/lib/SpaceshipAPI.php:54-61 | succeeds exactly when every required key is set; otherwise it names the first unset key in list order |
| SpaceshipClient.SpaceshipApi.Request | modules/registrars/spaceship/lib/SpaceshipAPI.php:63-76 | sends exactly one request (method, joined URL, the headers, the optional JSON body) and returns the body or the mapped exception |
| SpaceshipClient.SpaceshipApi.GetAuthCode | modules/registrars/spaceship/lib/SpaceshipAPI.php:78-83 | one `GET domains/{d}/transfer/auth-code` without a body |
| SpaceshipClient.SpaceshipApi.GetDomainInfo | modules/registrars/spaceship/lib/SpaceshipAPI.php:85-91 | one `GET domains/{d}` without a body |
| SpaceshipClient.SpaceshipApi.RegisterDomain | modules/registrars/spaceship/lib/SpaceshipAPI.php:92-98 | one `POST domains/{d}` carrying the payload |
| SpaceshipClient.SpaceshipApi.TransferDomain | modules/registrars/spaceship/lib/SpaceshipAPI.php:100-107 | a missing `domain` or `authCode` (checked in that order) throws the matching message and sends nothing; otherwise one `POST domains/transfer` carrying the parameters |
| SpaceshipClient.SpaceshipApi.RenewDomain | modules/registrars/spaceship/lib/SpaceshipAPI.php:109-116 | a missing `domain` or `years` throws and sends nothing; otherwise one `PUT domains/{domain}/renew` whose body holds only `years` |
| SpaceshipClient.SpaceshipApi.SaveContactDetails | modules/registrars/spaceship/lib/SpaceshipAPI.php:118-124 | one `PUT contacts` carrying the details |
| SpaceshipClient.SpaceshipApi.SaveNameServers | modules/registrars/spaceship/lib/SpaceshipAPI.php:125-131 | one `PUT domains/{d}/nameservers` carrying the nameserver details |
| SpaceshipClient.SpaceshipApi.GetContactDetails | modules/registrars/spaceship/lib/SpaceshipAPI.php:133-138 | one `GET contacts/{id}` without a body |
| SpaceshipClient.SpaceshipApi.SaveContactAttributes | modules/registrars/spaceship/lib/SpaceshipAPI.php:140-146 | one `PUT contacts/attributes/{id}` carrying the attributes (corrected route, see Findings) |
| SpaceshipClient.SpaceshipApi.GetDnsRecords | modules/registrars/spaceship/lib/SpaceshipAPI.php:148-153 | one `GET dns/records/{d}` without a body |
| SpaceshipClient.SpaceshipApi.SaveDnsRecords | modules/registrars/spaceship/lib/SpaceshipAPI.php:155-161 | one `PUT dns/records/{d}` carrying the records |
| SpaceshipClient.SpaceshipApi.SetDomainLock | modules/registrars/spaceship/lib/SpaceshipAPI.php:163-169 | one `PUT domains/{d}/transfer/lock` carrying the lock body |
| SpaceshipClient.SpaceshipApi.DeleteDnsRecords | modules/registrars/spaceship/lib/SpaceshipAPI.php:171-177 | one `DELETE dns/records/{d}` carrying the records (corrected route, see Findings) |
| RegistrarHelpers.ValidateApiCredentials | modules/registrars/spaceship/spaceship.php:27-31 | credentials pass exactly when key, secret and endpoint are all non-empty in PHP's sense (`"0"` counts as missing); otherwise the fixed message |
| RegistrarHelpers.ValidateDomainParams | modules/registrars/spaceship/spaceship.php:33-37 | the labels pass exactly when `sld` and `tld` are both non-empty; otherwise the fixed message |
| RegistrarHelpers.GetDomainName | modules/registrars/spaceship/spaceship.php:39-41 | a set `domainname` is used as is; otherwise the name is a string containing a dot |
| RegistrarHelpers.DomainNameSplitsAtFirstDot | modules/registrars/spaceship/spaceship.php:39-41 | without `domainname`, and when `sld` has no dot, the name splits back into `sld` and `tld` at its first dot |
| RegistrarHelpers.ErrorDetail | modules/registrars/spaceship/spaceship.php:51 | the error is never null: it is the decoded message's `detail` when set, else "Unknown error" |
| RegistrarHelpers.HandleApiResponse | modules/registrars/spaceship/spaceship.php:43-54 | an error exactly when the raw result carries a `statusCode` other than 200, and then the decoded message's detail |
| RegistrarHelpers.ClassifiedTransportOutcomes | modules/registrars/spaceship/spaceship.php:43-54 | a body and a JSON exception are never errors. A failure without a response always is one. A failure with a response is one exactly when its status is not 200. A message that is not a JSON object yields "Unknown error", never the message itself |
| RegistrarHelpers.ArrayFilter | modules/registrars/spaceship/spaceship.php:57-63 | `array_filter` keeps no more entries than it was given |
| RegistrarHelpers.ArrayFilterSound | modules/registrars/spaceship/spaceship.php:57-63 | every kept entry is a non-empty value, under its original key |
| RegistrarHelpers.ArrayFilterOrdered | modules/registrars/spaceship/spaceship.php:57-63 | the kept keys strictly increase, so the original order is kept |
| RegistrarHelpers.ArrayFilterComplete | modules/registrars/spaceship/spaceship.php:57-63 | no non-empty value is dropped |
| RegistrarHelpers.GetNameserversArray | modules/registrars/spaceship/spaceship.php:56-64 | at most five entries: exactly the non-empty ones of `ns1..ns5`, in order, each under its original position |
| RegistrarHelpers.EncodeIndexed | modules/registrars/spaceship/spaceship.php:135 | `json_encode` gives a list exactly when the keys are 0, 1, 2, … in order, and then it lists the values |
| RegistrarHelpers.GappedNameserversEncodeAsObject | modules/registrars/spaceship/spaceship.php:133-136 | as written, an empty nameserver field before a filled one makes `hosts` a JSON object |
| RegistrarHelpers.HostsList | modules/registrars/spaceship/spaceship.php:133-136 | the corrected `hosts` is exactly the values `getNameserversArray` keeps, in order and renumbered from 0 as `array_values` does; so at most five, none empty, and every filled `ns1..ns5` is among them |
| RegistrarHelpers.HostsListAgreesWithoutGap | modules/registrars/spaceship/spaceship.php:133-136 | where the original `hosts` is a list, the corrected one is that same list |
| RegistrarHelpers.RegisterContacts | modules/registrars/spaceship/spaceship.php:137 | four distinct roles in order (registrant, admin, tech, billing), each holding the configured contact |
| RegistrarHelpers.RegisterContactsLookup | modules/registrars/spaceship/spaceship.php:137 | every role reads back as the configured contact |
| RegistrarHelpers.PrivacyProtection | modules/registrars/spaceship/spaceship.php:129-132 | exactly two distinct keys: contact form on and privacy level "high" |
| RegistrarHelpers.CustomNameservers | modules/registrars/spaceship/spaceship.php:254-257 | exactly two distinct keys: provider "custom", and `hosts` is the given list |
| RegistrarHelpers.RegisterPayload | modules/registrars/spaceship/spaceship.php:126-138 | exactly five distinct keys, with these values: the domain name, `autoRenew` false, the privacy block, custom nameservers with the corrected hosts list, and one contact in every role |
| RegistrarHelpers.InitApi | modules/registrars/spaceship/spaceship.php:66-74 | no client when the credentials fail. Otherwise a fresh client on the given transport, whose every request is the one built from the parameters' endpoint, key and secret |
| Registrar.SlotNameInjective | modules/registrars/spaceship/spaceship.php:195 | distinct slot indices give distinct slot names |
| Registrar.SlotsLookup | modules/registrars/spaceship/spaceship.php:192-197 | the slot map has exactly one entry per host, under distinct names. `ns(k)` reads as the k-th host, and every other name reads as null |
| Registrar.EmptyHostsFillNoSlot | modules/registrars/spaceship/spaceship.php:364-369 | absent or empty hosts give an empty slot map, not an error |
| Registrar.SlotNameservers | modules/registrars/spaceship/spaceship.php:239-242 | the loop builds the slot map of a host list, by assignment; a value that is not a list fills no slot |
| Registrar.LockedIffListed | modules/registrars/spaceship/spaceship.php:280-283 | no status list means unlocked. For a list of strings, locked exactly when it contains `clientTransferProhibited` |
| Registrar.LockText | modules/registrars/spaceship/spaceship.php:283 | "locked" exactly when the domain is locked, otherwise "unlocked" |
| Registrar.LockToggle | modules/registrars/spaceship/spaceship.php:300 | the update body holds only `isLocked`, the negation of the current state |
| Registrar.RemapRecord | modules/registrars/spaceship/spaceship.php:332-337 | name becomes hostname, `type` is kept, `value` becomes address; priority is carried over when set, else "" |
| Registrar.RemapDnsRecords | modules/registrars/spaceship/spaceship.php:330-338 | the remap keeps the length and order of `items` and remaps each record |
| Registrar.IrtpAsWrittenMissesCom | modules/registrars/spaceship/spaceship.php:222 | as written, the IRTP flag is off for the `tld` "com". It is on only for a `tld` that gives the domain name two dots in a row |
| Registrar.IrtpEnabledForCom | modules/registrars/spaceship/spaceship.php:222 | the corrected flag is on for the `tld` "com" and for "COM", and off when no `tld` is given |
| Registrar.ExpiryDate | modules/registrars/spaceship/spaceship.php:202-209 | an empty expiration date leaves the expiry unset; otherwise it is the parse result, unset when parsing throws |
| Registrar.DomainInformation | modules/registrars/spaceship/spaceship.php:192-226 | the record carries every setter's value as the decoded information determines it: the name with its default, the slots, the status with its default, the lock, the expiry, the three comparisons, the contact-form flag with its default, the IRTP flags (using the corrected IRTP flag, see Findings), and the two non-empty checks |
| Registrar.DomainWithoutHosts | modules/registrars/spaceship/spaceship.php:192-200 | information without hosts gives a record with no slots, and a domain without a status list is unlocked |
| Registrar.ExpiryStatus | modules/registrars/spaceship/spaceship.php:374-382 | an error when `strtotime` fails or gives 0. Otherwise `active` reads the first clock as before the expiry, `expired` reads the second as at or after it, plus the formatted date |
| Registrar.ActiveOrExpired | modules/registrars/spaceship/spaceship.php:380-381 | with one clock reading, exactly one of `active` and `expired` holds; with a clock that does not go back, at least one holds |
| Registrar.SyncData | modules/registrars/spaceship/spaceship.php:364-385 | the expiry error, or the active/expired pair, the date, the slots and the lock state of the decoded information |
| Registrar.FirstSet | modules/registrars/spaceship/spaceship.php:412-418 | null exactly when no alternative is set; otherwise the value of the first alternative that is set |
| Registrar.FirstSetValue | modules/registrars/spaceship/spaceship.php:412-418 | the inner loop with its early exit computes the value of the first alternative that is set |
| Registrar.Converted | modules/registrars/spaceship/spaceship.php:419 | null becomes "", strings stay, and the result is a string or an array |
| Registrar.ContactKeysDistinct | modules/registrars/spaceship/spaceship.php:392-408 | the fifteen contact keys are distinct |
| Registrar.ParseClientInfo | modules/registrars/spaceship/spaceship.php:391-422 | the nested loop builds the fifteen contact fields in order, each from its first alternative that is set |
| Registrar.ClientInfoFields | modules/registrars/spaceship/spaceship.php:392-422 | exactly fifteen distinct keys. Each reads as the converted value of its first set alternative, and as "" when none is set |
| Registrar.SaveDns | modules/registrars/spaceship/spaceship.php:345-347 | always refused with the DNS message, whatever the parameters |
| Registrar.GetContactDetails | modules/registrars/spaceship/spaceship.php:349-351 | always refused with the contact-details message |
| Registrar.SaveContactDetails | modules/registrars/spaceship/spaceship.php:353-355 | always refused with the contact-details message |
| Registrar.Done | modules/registrars/spaceship/spaceship.php:145-147 | success, true, exactly when the raw result is no error; otherwise that error |
| Registrar.TransferParams | modules/registrars/spaceship/spaceship.php:156-159 | exactly two distinct keys: `domain` is the domain name, and `authCode` is the EPP code, set exactly when the EPP code is set |
| Registrar.RenewParams | modules/registrars/spaceship/spaceship.php:171-174 | exactly two distinct keys: the domain name and, under `years`, the registration period |
| Registrar.RegisterDomain | modules/registrars/spaceship/spaceship.php:121-151 | bad credentials: the credentials error and no request. Otherwise exactly the `POST domains/{name}` with the payload, and success exactly when the answer is no error |
| Registrar.TransferDomain | modules/registrars/spaceship/spaceship.php:153-166 | bad credentials or no EPP code: the matching error and no request. Otherwise exactly one `POST domains/transfer`, classified |
| Registrar.RenewDomain | modules/registrars/spaceship/spaceship.php:168-181 | bad credentials or no registration period: the matching error and no request. Otherwise exactly one renewal request carrying only the years, classified |
| Registrar.GetDomainInformation | modules/registrars/spaceship/spaceship.php:183-230 | one domain read; an API error comes back as its string; otherwise a record describing the decoded information (using the corrected IRTP flag, see Findings) |
| Registrar.GetNameservers | modules/registrars/spaceship/spaceship.php:232-247 | one domain read; the API error, or the slot map of the decoded hosts |
| Registrar.SaveNameservers | modules/registrars/spaceship/spaceship.php:249-271 | exactly one nameserver update with the corrected hosts list; the API error, or the slot map of the hosts in the answer |
| Registrar.GetRegistrarLock | modules/registrars/spaceship/spaceship.php:273-287 | one domain read; the API error, or "locked"/"unlocked" from the status list |
| Registrar.SaveRegistrarLock | modules/registrars/spaceship/spaceship.php:289-307 | a failing read returns its error and sends no second request. Otherwise exactly the read and then the update carrying the negated lock. A failing update is reported and never success |
| Registrar.GetEppCode | modules/registrars/spaceship/spaceship.php:309-321 | one auth-code read; the API error, or the decoded `authCode` |
| Registrar.GetDns | modules/registrars/spaceship/spaceship.php:323-343 | one DNS read; the API error, or one remapped record per item, in order |
| Registrar.Sync | modules/registrars/spaceship/spaceship.php:357-389 | one domain read. If it fails, the API error. Otherwise either the expiry error or the sync data of the decoded information |

## Left out

- `lib/Utils.php` and every debug-logging branch are left out. They only write
  log files. The branch in `handleApiResponse` reads an undefined variable and
  never fires.
- Guzzle itself is left out. The transport is an oracle that delivers a body
  or raises one of the two exceptions `request` catches.
- Guzzle's `ConnectException` is not modelled apart. In Guzzle 7 it is not a
  `RequestException`, so it escapes `request` and the operation's own `catch`
  reports its message.
  - The model treats it as a `RequestException` without a response, as
    Guzzle 6 does. That gives status 0 and "Unknown error" for a message that
    is not JSON.
- `json_decode`, `Carbon::parse`, `strtotime`, `date` and `time()` are left
  out. They are parameters of `Env`; `Sync` reads the clock twice, so there are
  two clock readings.
- `spaceship_MetaData`, `spaceship_getConfigArray` and the platform's `Domain`
  builder are left out. The first two are static configuration. The builder is
  a plain record, `DomainRecord`.
- Decoding of success bodies: several operations index the raw body string
  directly: GetDomainInformation, GetNameservers, GetRegistrarLock,
  SaveRegistrarLock, GetDNS and Sync. The model decodes every success body with
  `json_decode` before projecting it, as SaveNameservers and GetEPPCode do.
  PHP's string-offset reads are not modelled.
- PHP type errors are left out. They are uncaught `Error`s, not `Exception`s,
  and the operations' `catch` does not handle them. Examples:
  - the client methods declared `: array` return a body string;
  - `in_array` on a status value that is not an array;
  - `$index + 1` on a non-numeric key;
  - `json_decode` of an array result;
  - an array passed as an exception message.

  Each of these is modelled as the value-level outcome: no match, no slot,
  `Payload` of the array, "Array".
- Registrar.Slots: a JSON-object `hosts` fills no slot in the model. The
  source would iterate its values under their keys.
- Registrar.Converted: `mb_convert_encoding` is taken as the identity on
  strings and arrays.
- Floats in decoded JSON are not modelled.
- `validateDomainParams` is modelled, but no operation calls it, as in the
  source.
- Behaviours of the source that the model keeps as they are:
  - A transport error whose message is not JSON with a `detail` becomes
    "Unknown error"; the original message is not passed through.
  - Only status 200 counts as no error; other 2xx statuses are errors.
  - A `{error: true, message}` result from the JSON exception has no
    `statusCode`, so it is classified as no error.
  - The endpoint URL is never trimmed.
- Registrar.ExpiryStatus: a timestamp of 0 (the epoch) is rejected as an
  invalid date, as `!$expirationDate` does in the source.

## Findings

| source | as written | input that shows it | evidently intended | confidence | as-written member | corrected member |
|---|---|---|---|---|---|---|
| modules/registrars/spaceship/spaceship.php:56-64 | `array_filter` keeps the original keys, so `json_encode` sends `hosts` as a JSON object whenever an empty field precedes a filled one | `ns1 = ""`, `ns2 = "ns.example.net"` gives `hosts = {"1": "ns.example.net"}` | a JSON list of the filled nameservers (`array_values`) | medium, not executed | RegistrarHelpers.GappedNameserversEncodeAsObject | RegistrarHelpers.HostsList |
| modules/registrars/spaceship/lib/SpaceshipAPI.php:142 | the route begins with `/v1/`, and the base endpoint already ends in the version | the default endpoint `https://spaceship.dev/api/v1` gives `https://spaceship.dev/api/v1//v1/contacts/attributes/{id}`, and the same holds at line 173 for deleting DNS records | routes relative to the endpoint, like every other route (`contacts/attributes/{id}`, `dns/records/{d}`) | medium, not executed | SpaceshipClient.AsWrittenRoutesRepeatVersion | SpaceshipClient.CorrectedRoutesShareBase |
| modules/registrars/spaceship/spaceship.php:222 | the IRTP flag compares the lower-cased `tld` with ".com", but `tld` carries no dot (line 40 inserts it) | `tld = "com"` gives the flag false | the flag is on for ".com" domains: compare with "com" | medium, not executed | Registrar.IrtpAsWrittenMissesCom | Registrar.IrtpEnabledForCom |
