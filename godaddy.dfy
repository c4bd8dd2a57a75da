/**
 * The GoDaddy adapter: it addresses a TXT record by zone and relative name,
 * replaces it with a PUT and removes it with a DELETE. The HTTP exchange is an
 * input: each call is given the response the API returned.
 */
module GoDaddy {
  import opened Strings
  import opened DnsCommon
  import opened Wrappers

  const BASE_URL: string := "https://api.godaddy.com/v1"
  const TXT_TTL: int := 600

  /** One element of the JSON array sent with a PUT. */
  datatype TxtEntry = TxtEntry(data: string, ttl: int)

  datatype Request = Request(httpMethod: string, url: string, authorization: string, entries: seq<TxtEntry>)

  /** `sso-key ${apiKey}:${apiSecret}`, the header every request carries. */
  function Authorization(apiKey: string, apiSecret: string): string {
    "sso-key " + apiKey + ":" + apiSecret
  }

  /**
   * `getSubdomain`: the record name relative to the root domain. A name ending
   * in `.` + root loses exactly that suffix; otherwise the first occurrence of
   * `.` + root is cut out, and a name without one is returned as it is.
   */
  function Subdomain(recordName: string, domain: string): (name: string)
    ensures var suffix := "." + RootDomain(domain);
      EndsWith(recordName, suffix) ==> name + suffix == recordName
    ensures var suffix := "." + RootDomain(domain);
      !EndsWith(recordName, suffix) && IndexOf(recordName, suffix).None? ==> name == recordName
    ensures var suffix := "." + RootDomain(domain);
      !EndsWith(recordName, suffix) && IndexOf(recordName, suffix).Some? ==>
        var i := IndexOf(recordName, suffix).value;
        |name| == |recordName| - |suffix| && name == recordName[..i] + recordName[i + |suffix|..]
  {
    var suffix := "." + RootDomain(domain);
    if EndsWith(recordName, suffix) then
      var name := recordName[..|recordName| - |suffix|];
      assert recordName == name + suffix;
      name
    else ReplaceFirst(recordName, suffix, "")
  }

  /** For a DNS-01 record name, the subdomain glued back to the root gives the record name. */
  lemma AcmeSubdomainRoundTrip(domain: string)
    ensures Subdomain(AcmeRecordName(domain), domain) + "." + RootDomain(domain) == AcmeRecordName(domain)
  {
    AcmeRecordEndsWithRoot(domain);
  }

  /** `${baseUrl}/domains/${rootDomain}/records/TXT/${name}` for a challenge. */
  function RecordUrl(c: DnsChallenge): string {
    BASE_URL + "/domains/" + RootDomain(c.domain) + "/records/TXT/" + Subdomain(c.recordName, c.domain)
  }

  /** The PUT that `createRecord` sends: one entry holding the record value with a TTL of 600. */
  function CreateRequest(c: DnsChallenge, apiKey: string, apiSecret: string): (r: Request)
    ensures r.httpMethod == "PUT" && r.url == RecordUrl(c)
    ensures r.entries == [TxtEntry(c.recordValue, TXT_TTL)]
  {
    Request("PUT", RecordUrl(c), Authorization(apiKey, apiSecret), [TxtEntry(c.recordValue, TXT_TTL)])
  }

  /** The DELETE that `deleteRecord` sends, on the same URL as the PUT. */
  function DeleteRequest(c: DnsChallenge, apiKey: string, apiSecret: string): (r: Request)
    ensures r.httpMethod == "DELETE" && r.entries == []
    ensures r.url == CreateRequest(c, apiKey, apiSecret).url
  {
    Request("DELETE", RecordUrl(c), Authorization(apiKey, apiSecret), [])
  }

  /** `createRecord` after the PUT: it throws with the response text on a non-2xx status. */
  function CreateOutcome(response: HttpResponse): (r: CallOutcome)
    ensures r.Threw? <==> !response.Ok()
    ensures r.Threw? ==> r.message == "GoDaddy API error: " + response.text
    ensures !r.Warned?
  {
    if !response.Ok() then Threw("GoDaddy API error: " + response.text) else Completed
  }

  /**
   * `deleteRecord` after the DELETE: it never throws; a 404 passes silently and
   * any other failure only logs a warning.
   */
  function DeleteOutcome(response: HttpResponse): (r: CallOutcome)
    ensures !r.Threw?
    ensures r.Warned? <==> !response.Ok() && response.status != 404
    ensures r.Warned? ==> r.warning == response.text
  {
    if !response.Ok() && response.status != 404 then Warned(response.text) else Completed
  }

  /** `verifyCredentials`: the account listing answered 2xx; a transport failure gives false. */
  function VerifyCredentials(response: Option<HttpResponse>): (ok: bool)
    ensures ok <==> response.Some? && response.value.Ok()
  {
    match response
    case None => false
    case Some(r) => r.Ok()
  }
}
