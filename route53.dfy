/**
 * The Route53 adapter: it finds the hosted zone owning a record by asking for
 * the zone named after the record's root domain, sends a change batch that
 * upserts or deletes the TXT record, and signs every request with AWS
 * Signature Version 4. SHA-256 and HMAC are the uninterpreted primitives of
 * module Crypto; the clock reading and the API's answers are inputs.
 */
module Route53 {
  import opened Wrappers
  import opened Strings
  import opened Crypto
  import opened DnsCommon

  const HOST: string := "route53.amazonaws.com"
  const TXT_TTL: int := 120
  const ALGORITHM: string := "AWS4-HMAC-SHA256"
  const SERVICE: string := "route53"
  const TERMINATOR: string := "aws4_request"

  /** The credentials an adapter is constructed with. */
  datatype Credentials = Credentials(accessKeyId: string, secretAccessKey: string, region: string)

  /** A URL as `new URL(...)` splits it: host, path, and query without its `?`. */
  datatype Url = Url(host: string, path: string, query: string)

  // ---------------------------------------------------------------------------
  // zone lookup and change batches

  /** `parts.slice(-2).join('.') + '.'`: the fully qualified name of the zone to look up. */
  function HostedZoneQueryName(domain: string): (name: string)
    ensures |name| > 0 && name[|name| - 1] == '.'
    ensures name[..|name| - 1] == RootDomain(domain)
  {
    RootDomain(domain) + "."
  }

  lemma HostedZoneQueryNameExample()
    ensures HostedZoneQueryName("a.b.example.com") == "example.com."
  {
    RootDomainExamples();
  }

  /** The hostedzonesbyname query for a domain's zone. */
  function HostedZoneLookupUrl(domain: string): Url {
    Url(HOST, "/2013-04-01/hostedzonesbyname", "dnsname=" + HostedZoneQueryName(domain))
  }

  /**
   * `getHostedZoneId`: `found` is what the `<Id>/hostedzone/...</Id>` pattern
   * captured in the lookup's answer, if anything; no capture is an error
   * naming the zone that was looked for.
   */
  function HostedZoneId(domain: string, found: Option<string>): (r: Result<string, string>)
    ensures r.Ok? <==> found.Some?
    ensures r.Ok? ==> r.value == found.value
    ensures r.Err? ==> r.error == "Route53 hosted zone not found for: " + HostedZoneQueryName(domain)
  {
    match found
    case None => Err("Route53 hosted zone not found for: " + HostedZoneQueryName(domain))
    case Some(id) => Ok(id)
  }

  datatype Action = Upsert | Delete

  function ActionText(a: Action): string {
    match a
    case Upsert => "UPSERT"
    case Delete => "DELETE"
  }

  /** One change of a change batch: a single-valued resource record set. */
  datatype Change = Change(action: Action, name: string, recordType: string, ttl: int, value: string)

  /** The change for a challenge: a TXT record with a TTL of 120 holding the value in double quotes. */
  function MakeChange(action: Action, c: DnsChallenge): (ch: Change)
    ensures ch.action == action && ch.name == c.recordName
    ensures ch.recordType == "TXT" && ch.ttl == TXT_TTL
    ensures |ch.value| == |c.recordValue| + 2
    ensures ch.value[0] == '"' && ch.value[|ch.value| - 1] == '"'
    ensures ch.value[1..|ch.value| - 1] == c.recordValue
  {
    var v := "\"" + c.recordValue + "\"";
    assert v[1..|v| - 1] == c.recordValue;
    Change(action, c.recordName, "TXT", TXT_TTL, v)
  }

  /** The `ChangeResourceRecordSetsRequest` document carrying one change. */
  function ChangeXml(ch: Change): (body: string)
    ensures |body| > 0
  {
    "<?xml version=\"1.0\" encoding=\"UTF-8\"?>\n"
    + "<ChangeResourceRecordSetsRequest xmlns=\"https://route53.amazonaws.com/doc/2013-04-01/\">\n"
    + "  <ChangeBatch>\n"
    + "    <Changes>\n"
    + "      <Change>\n"
    + "        <Action>" + ActionText(ch.action) + "</Action>\n"
    + "        <ResourceRecordSet>\n"
    + "          <Name>" + ch.name + "</Name>\n"
    + "          <Type>" + ch.recordType + "</Type>\n"
    + "          <TTL>" + NatToString(if ch.ttl < 0 then 0 else ch.ttl) + "</TTL>\n"
    + "          <ResourceRecords>\n"
    + "            <ResourceRecord>\n"
    + "              <Value>" + ch.value + "</Value>\n"
    + "            </ResourceRecord>\n"
    + "          </ResourceRecords>\n"
    + "        </ResourceRecordSet>\n"
    + "      </Change>\n"
    + "    </Changes>\n"
    + "  </ChangeBatch>\n"
    + "</ChangeResourceRecordSetsRequest>"
  }

  /** The rrset endpoint of a hosted zone. */
  function RrsetUrl(zoneId: string): Url {
    Url(HOST, "/2013-04-01/hostedzone/" + zoneId + "/rrset", "")
  }

  /** The POST a record change sends: where, and which change. */
  datatype ChangeRequest = ChangeRequest(url: Url, change: Change)

  /**
   * `createRecord` (UPSERT) and `deleteRecord` (DELETE): look the zone up,
   * then post the change to it. The answer to the POST is not inspected, so
   * the only failure is a zone that was not found.
   */
  function RecordChange(action: Action, c: DnsChallenge, found: Option<string>): (r: Result<ChangeRequest, string>)
    ensures r.Err? <==> found.None?
    ensures r.Err? ==> r == Err("Route53 hosted zone not found for: " + HostedZoneQueryName(c.domain))
    ensures r.Ok? ==> r.value.url == RrsetUrl(found.value) && r.value.change == MakeChange(action, c)
  {
    match HostedZoneId(c.domain, found)
    case Err(e) => Err(e)
    case Ok(zoneId) => Ok(ChangeRequest(RrsetUrl(zoneId), MakeChange(action, c)))
  }

  /** Create and delete of one challenge address the same zone and record and differ only in the action. */
  lemma CreateDeleteSameRecord(c: DnsChallenge, found: Option<string>)
    ensures RecordChange(Upsert, c, found).Ok? == RecordChange(Delete, c, found).Ok?
    ensures RecordChange(Upsert, c, found).Ok? ==>
      var up := RecordChange(Upsert, c, found).value;
      var del := RecordChange(Delete, c, found).value;
      up.url == del.url && up.change.(action := Delete) == del.change
  {
  }

  // ---------------------------------------------------------------------------
  // X-Amz-Date

  predicate IsDigit(ch: char) { '0' <= ch <= '9' }

  predicate AllDigits(s: string) { forall i :: 0 <= i < |s| ==> IsDigit(s[i]) }

  /**
   * `iso.replace(/[:-]|\.\d{3}/g, '')`: scanning left to right, every ':' and
   * '-' is dropped, and so is every '.' followed by three digits together with
   * those digits.
   */
  function AmzDate(iso: string): (r: string)
    ensures |r| <= |iso|
    decreases |iso|
  {
    if |iso| == 0 then ""
    else if iso[0] == ':' || iso[0] == '-' then AmzDate(iso[1..])
    else if iso[0] == '.' && |iso| >= 4 && IsDigit(iso[1]) && IsDigit(iso[2]) && IsDigit(iso[3]) then AmzDate(iso[4..])
    else [iso[0]] + AmzDate(iso[1..])
  }

  /** `date.slice(0, 8)`. */
  function DateStamp(date: string): (r: string)
    ensures |r| == if |date| < 8 then |date| else 8
    ensures StartsWith(date, r)
  {
    if |date| < 8 then date else date[..8]
  }

  /** A run of digits passes through unchanged. */
  lemma {:induction false} AmzDateDigits(d: string, rest: string)
    requires AllDigits(d)
    ensures AmzDate(d + rest) == d + AmzDate(rest)
    decreases |d|
  {
    if |d| > 0 {
      AmzDateDigits(d[1..], rest);
      var s := d + rest;
      assert s[0] == d[0] && IsDigit(d[0]);
      assert s[1..] == d[1..] + rest;
      assert AmzDate(s) == [d[0]] + AmzDate(d[1..] + rest);
      assert d + AmzDate(rest) == [d[0]] + (d[1..] + AmzDate(rest));
    } else {
      assert d + rest == rest;
    }
  }

  lemma AmzDateSeparator(sep: char, rest: string)
    requires sep == ':' || sep == '-'
    ensures AmzDate([sep] + rest) == AmzDate(rest)
  {
    assert ([sep] + rest)[1..] == rest;
  }

  lemma AmzDateMillis(ms: string, rest: string)
    requires |ms| == 3 && AllDigits(ms)
    ensures AmzDate("." + ms + rest) == AmzDate(rest)
  {
    assert ("." + ms + rest)[4..] == rest;
  }

  lemma AmzDateLetter(ch: char, rest: string)
    requires ch != ':' && ch != '-' && ch != '.'
    ensures AmzDate([ch] + rest) == [ch] + AmzDate(rest)
  {
    assert ([ch] + rest)[1..] == rest;
  }

  /** The fields of `Date.prototype.toISOString()`: `YYYY-MM-DDTHH:mm:ss.sssZ`. */
  datatype IsoFields = IsoFields(year: string, month: string, day: string,
                                 hour: string, minute: string, second: string, millis: string)
  {
    ghost predicate Valid() {
      && |year| == 4 && |month| == 2 && |day| == 2 && |hour| == 2 && |minute| == 2 && |second| == 2 && |millis| == 3
      && AllDigits(year) && AllDigits(month) && AllDigits(day)
      && AllDigits(hour) && AllDigits(minute) && AllDigits(second) && AllDigits(millis)
    }

    function Text(): string {
      year + ("-" + (month + ("-" + (day + ("T" + TimeText())))))
    }

    /** The part after the `T`. */
    function TimeText(): string {
      hour + (":" + (minute + (":" + (second + ("." + millis + "Z")))))
    }
  }

  lemma AmzDateOfTime(t: IsoFields)
    requires t.Valid()
    ensures AmzDate(t.TimeText()) == t.hour + (t.minute + (t.second + "Z"))
  {
    var s6 := "." + t.millis + "Z";
    var s5 := t.second + s6;
    var s3 := t.minute + (":" + s5);
    AmzDateLetter('Z', "");
    AmzDateMillis(t.millis, "Z");
    AmzDateDigits(t.second, s6);
    AmzDateSeparator(':', s5);
    AmzDateDigits(t.minute, ":" + s5);
    AmzDateSeparator(':', s3);
    AmzDateDigits(t.hour, ":" + s3);
  }

  /**
   * For a timestamp as `toISOString` prints it, the request date is the
   * basic-format `YYYYMMDDTHHmmssZ` and the date stamp is `YYYYMMDD`.
   */
  lemma AmzDateOfIso(t: IsoFields)
    requires t.Valid()
    ensures AmzDate(t.Text()) == t.year + t.month + t.day + "T" + t.hour + t.minute + t.second + "Z"
    ensures DateStamp(AmzDate(t.Text())) == t.year + t.month + t.day
  {
    AmzDateOfTime(t);
    var d3 := "T" + t.TimeText();
    var d1 := "-" + (t.day + d3);
    AmzDateLetter('T', t.TimeText());
    AmzDateDigits(t.day, d3);
    AmzDateSeparator('-', t.day + d3);
    AmzDateDigits(t.month, d1);
    AmzDateSeparator('-', t.month + d1);
    AmzDateDigits(t.year, "-" + (t.month + d1));
    var ymd := t.year + t.month + t.day;
    var r := ymd + "T" + t.hour + t.minute + t.second + "Z";
    assert AmzDate(t.Text()) == t.year + (t.month + (t.day + ("T" + (t.hour + (t.minute + (t.second + "Z"))))));
    assert AmzDate(t.Text()) == r;
    assert r[..8] == ymd;
  }

  // ---------------------------------------------------------------------------
  // headers and the canonical request

  datatype Header = Header(name: string, value: string)

  function LowerName(h: Header): string { ToLower(h.name) }

  /** `body` as a JavaScript condition: present and non-empty. */
  predicate HasBody(body: Option<string>) { body.Some? && body.value != "" }

  /** The headers object before signing, in insertion order: Host, X-Amz-Date, and Content-Type when there is a body. */
  function RequestHeaders(host: string, date: string, body: Option<string>): (hs: seq<Header>)
    ensures |hs| == if HasBody(body) then 3 else 2
    ensures hs[0] == Header("Host", host) && hs[1] == Header("X-Amz-Date", date)
    ensures HasBody(body) ==> hs[2] == Header("Content-Type", "application/xml")
  {
    [Header("Host", host), Header("X-Amz-Date", date)]
    + (if HasBody(body) then [Header("Content-Type", "application/xml")] else [])
  }

  /** `Object.keys(headers).map(k => k.toLowerCase()).sort()`. */
  function SignedNames(headers: seq<Header>): seq<string> {
    SortBy(MapKeys(headers, LowerName), Identity)
  }

  function SignedHeaders(headers: seq<Header>): string {
    Join(SignedNames(headers), ";")
  }

  /** `name:value` for one canonical header line, the name lower-cased and the value trimmed. */
  function HeaderLine(h: Header): string {
    LowerName(h) + ":" + Trim(h.value)
  }

  /** The header lines, ordered by lower-cased name. */
  function CanonicalHeaderLines(headers: seq<Header>): seq<string> {
    MapKeys(SortBy(headers, LowerName), HeaderLine)
  }

  function CanonicalHeaders(headers: seq<Header>): string {
    Join(CanonicalHeaderLines(headers), "\n") + "\n"
  }

  /**
   * The canonical header lines and the signed-header list name the same
   * headers in the same order: line i starts with signed name i and a colon.
   */
  lemma CanonicalLinesMatchSignedNames(headers: seq<Header>)
    ensures |CanonicalHeaderLines(headers)| == |SignedNames(headers)| == |headers|
    ensures forall i :: 0 <= i < |headers| ==>
      StartsWith(CanonicalHeaderLines(headers)[i], SignedNames(headers)[i] + ":")
  {
    MapKeysSort(headers, LowerName);
    var sorted := SortBy(headers, LowerName);
    forall i | 0 <= i < |headers|
      ensures StartsWith(CanonicalHeaderLines(headers)[i], SignedNames(headers)[i] + ":")
    {
      assert SignedNames(headers)[i] == MapKeys(sorted, LowerName)[i] == LowerName(sorted[i]);
      assert CanonicalHeaderLines(headers)[i] == HeaderLine(sorted[i]);
    }
  }

  /** The signed names are in code-point order. */
  lemma SignedNamesSorted(headers: seq<Header>)
    ensures SortedBy(SignedNames(headers), Identity)
  {
    SortBySorted(MapKeys(headers, LowerName), Identity);
  }

  lemma LowerLiterals()
    ensures ToLower("Host") == "host"
    ensures ToLower("X-Amz-Date") == "x-amz-date"
    ensures ToLower("Content-Type") == "content-type"
    ensures ToLower("Authorization") == "authorization"
  {
    assert ToLower("Host") == "host";
    assert ToLower("X-Amz-Date") == "x-amz-date";
    assert ToLower("Content-Type") == "content-type";
    assert ToLower("Authorization") == "authorization";
  }

  /** The signed names are exactly host and x-amz-date, plus content-type when there is a body. */
  lemma SignedNamesOfRequest(host: string, date: string, body: Option<string>)
    ensures var names := SignedNames(RequestHeaders(host, date, body));
      forall x :: x in names <==> x == "host" || x == "x-amz-date" || (x == "content-type" && HasBody(body))
  {
    var hs := RequestHeaders(host, date, body);
    var keys := MapKeys(hs, LowerName);
    LowerLiterals();
    var names := SortBy(keys, Identity);
    assert multiset(names) == multiset(keys);
    forall x ensures x in names <==> x in keys {
      assert x in names <==> x in multiset(names);
      assert x in keys <==> x in multiset(keys);
    }
    if HasBody(body) {
      assert keys == ["host", "x-amz-date", "content-type"];
    } else {
      assert keys == ["host", "x-amz-date"];
    }
  }

  lemma SortTwoNames()
    ensures SortBy(["host", "x-amz-date"], Identity) == ["host", "x-amz-date"]
  {
    var keys := ["host", "x-amz-date"];
    assert !LexLess(Identity("x-amz-date"), Identity("host"));
    assert keys[1..] == ["x-amz-date"];
    assert SortBy(keys[1..], Identity) == ["x-amz-date"];
    assert InsertBy("host", ["x-amz-date"], Identity) == ["host", "x-amz-date"];
  }

  lemma SortThreeNames()
    ensures SortBy(["host", "x-amz-date", "content-type"], Identity) == ["content-type", "host", "x-amz-date"]
  {
    var keys := ["host", "x-amz-date", "content-type"];
    assert LexLess(Identity("content-type"), Identity("x-amz-date"));
    assert LexLess(Identity("content-type"), Identity("host"));
    assert !LexLess(Identity("x-amz-date"), Identity("host"));
    assert keys[1..] == ["x-amz-date", "content-type"];
    assert keys[1..][1..] == ["content-type"];
    assert SortBy(["content-type"], Identity) == ["content-type"];
    var two := InsertBy("x-amz-date", ["content-type"], Identity);
    assert two == ["content-type"] + InsertBy("x-amz-date", [], Identity);
    assert SortBy(keys[1..], Identity) == ["content-type", "x-amz-date"];
    assert InsertBy("host", ["x-amz-date"], Identity) == ["host", "x-amz-date"];
    assert InsertBy("host", ["content-type", "x-amz-date"], Identity)
        == ["content-type"] + InsertBy("host", ["x-amz-date"], Identity);
  }

  /** The lower-cased names of the unsigned headers, in insertion order. */
  lemma RequestHeaderNames(host: string, date: string, body: Option<string>)
    ensures MapKeys(RequestHeaders(host, date, body), LowerName)
      == if HasBody(body) then ["host", "x-amz-date", "content-type"] else ["host", "x-amz-date"]
  {
    LowerLiterals();
  }

  lemma JoinNames()
    ensures Join(["host", "x-amz-date"], ";") == "host;x-amz-date"
    ensures Join(["content-type", "host", "x-amz-date"], ";") == "content-type;host;x-amz-date"
  {
    var two := ["host", "x-amz-date"];
    var three := ["content-type", "host", "x-amz-date"];
    assert two[1..] == ["x-amz-date"];
    assert three[1..] == two;
    assert Join(two, ";") == "host" + ";" + "x-amz-date";
    assert Join(three, ";") == "content-type" + ";" + Join(two, ";");
  }

  /** The two possible SignedHeaders values. */
  lemma SignedHeadersText(host: string, date: string, body: Option<string>)
    ensures SignedHeaders(RequestHeaders(host, date, body))
      == if HasBody(body) then "content-type;host;x-amz-date" else "host;x-amz-date"
  {
    RequestHeaderNames(host, date, body);
    JoinNames();
    if HasBody(body) {
      SortThreeNames();
    } else {
      SortTwoNames();
    }
  }

  /** `[method, pathname, search without '?', canonicalHeaders, signedHeaders, payloadHash].join('\n')`. */
  function CanonicalRequest(httpMethod: string, url: Url, headers: seq<Header>, payloadHash: string): string {
    Join([httpMethod, url.path, url.query, CanonicalHeaders(headers), SignedHeaders(headers), payloadHash], "\n")
  }

  /** `body || ''`: the text whose hash is the payload hash. */
  function PayloadText(body: Option<string>): (t: string)
    ensures HasBody(body) ==> t == body.value
    ensures !HasBody(body) ==> t == ""
  {
    if HasBody(body) then body.value else ""
  }

  // ---------------------------------------------------------------------------
  // scope, key derivation, signature

  /** `${dateStamp}/${region}/route53/aws4_request`. */
  function CredentialScope(dateStamp: string, region: string): string {
    dateStamp + "/" + region + "/" + SERVICE + "/" + TERMINATOR
  }

  /** The scope splits back at '/' into its four parts. */
  lemma CredentialScopeParts(dateStamp: string, region: string)
    requires '/' !in dateStamp && '/' !in region
    ensures Split(CredentialScope(dateStamp, region), '/') == [dateStamp, region, SERVICE, TERMINATOR]
  {
    var parts := [dateStamp, region, SERVICE, TERMINATOR];
    assert Join(parts[3..], "/") == TERMINATOR;
    assert Join(parts[2..], "/") == SERVICE + "/" + TERMINATOR;
    assert Join(parts[1..], "/") == region + "/" + SERVICE + "/" + TERMINATOR;
    assert Join(parts, "/") == CredentialScope(dateStamp, region);
    SplitJoin(parts, '/');
  }

  function StringToSign(crypto: Primitives, date: string, scope: string, canonicalRequest: string): string {
    Join([ALGORITHM, date, scope, crypto.Sha256Hex(canonicalRequest)], "\n")
  }

  /** kSigning: the secret prefixed with AWS4, chained through the date stamp, region, service and terminator. */
  function SigningKey(crypto: Primitives, secret: string, dateStamp: string, region: string): Bytes {
    var kDate := crypto.HmacText(crypto.utf8("AWS4" + secret), dateStamp);
    var kRegion := crypto.HmacText(kDate, region);
    var kService := crypto.HmacText(kRegion, SERVICE);
    crypto.HmacText(kService, TERMINATOR)
  }

  function AuthorizationValue(accessKeyId: string, scope: string, signedHeaders: string, signature: string): string {
    ALGORITHM + " Credential=" + accessKeyId + "/" + scope + ", SignedHeaders=" + signedHeaders + ", Signature=" + signature
  }

  /**
   * The Authorization value for a request dated `date`: the signature over
   * the canonical request built from the unsigned headers.
   */
  function SignedAuthorization(crypto: Primitives, cred: Credentials, httpMethod: string, url: Url,
                               body: Option<string>, date: string): string
  {
    var dateStamp := DateStamp(date);
    var unsigned := RequestHeaders(url.host, date, body);
    var scope := CredentialScope(dateStamp, cred.region);
    var canonical := CanonicalRequest(httpMethod, url, unsigned, crypto.Sha256Hex(PayloadText(body)));
    var key := SigningKey(crypto, cred.secretAccessKey, dateStamp, cred.region);
    var signature := crypto.hex(crypto.HmacText(key, StringToSign(crypto, date, scope, canonical)));
    AuthorizationValue(cred.accessKeyId, scope, SignedHeaders(unsigned), signature)
  }

  /**
   * Appending Authorization after signing leaves it out of the signature:
   * every header before it is among the signed names, and it is not.
   */
  lemma AuthorizationNotSigned(host: string, date: string, body: Option<string>, auth: string)
    ensures var hs := RequestHeaders(host, date, body) + [Header("Authorization", auth)];
      && (forall i :: 0 <= i < |hs| - 1 ==> LowerName(hs[i]) in SignedNames(hs[..|hs| - 1]))
      && LowerName(hs[|hs| - 1]) !in SignedNames(hs[..|hs| - 1])
  {
    var unsigned := RequestHeaders(host, date, body);
    var hs := unsigned + [Header("Authorization", auth)];
    assert hs[..|hs| - 1] == unsigned;
    SignedNamesOfRequest(host, date, body);
    LowerLiterals();
  }

  /** A request as it is handed to `fetch`. */
  datatype HttpRequest = HttpRequest(httpMethod: string, url: Url, headers: seq<Header>, body: Option<string>)

  /**
   * `signedRequest`: builds the headers, signs them, and adds the
   * Authorization header last. `isoNow` is the clock reading as
   * `toISOString` prints it.
   */
  method SignedRequest(crypto: Primitives, cred: Credentials, httpMethod: string, url: Url,
                       body: Option<string>, isoNow: string) returns (req: HttpRequest)
    ensures req.httpMethod == httpMethod && req.url == url && req.body == body
    ensures req.headers == RequestHeaders(url.host, AmzDate(isoNow), body)
      + [Header("Authorization", SignedAuthorization(crypto, cred, httpMethod, url, body, AmzDate(isoNow)))]
  {
    var date := AmzDate(isoNow);
    var dateStamp := DateStamp(date);
    var headers := [Header("Host", url.host), Header("X-Amz-Date", date)];
    if HasBody(body) {
      headers := headers + [Header("Content-Type", "application/xml")];
    }
    var scope := CredentialScope(dateStamp, cred.region);
    var signedHeaders := SignedHeaders(headers);
    var payloadHash := crypto.Sha256Hex(PayloadText(body));
    var canonical := CanonicalRequest(httpMethod, url, headers, payloadHash);
    var toSign := StringToSign(crypto, date, scope, canonical);
    var key := SigningKey(crypto, cred.secretAccessKey, dateStamp, cred.region);
    var signature := crypto.hex(crypto.HmacText(key, toSign));
    assert headers == RequestHeaders(url.host, date, body);
    headers := headers + [Header("Authorization", AuthorizationValue(cred.accessKeyId, scope, signedHeaders, signature))];
    req := HttpRequest(httpMethod, url, headers, body);
  }

  /** The listing `verifyCredentials` requests. */
  const VERIFY_URL: Url := Url(HOST, "/2013-04-01/hostedzone", "maxitems=1")

  /** `verifyCredentials`: the signed listing answered 2xx; a transport failure gives false. */
  function VerifyCredentials(response: Option<HttpResponse>): (ok: bool)
    ensures ok <==> response.Some? && response.value.Ok()
  {
    match response
    case None => false
    case Some(r) => r.Ok()
  }
}
