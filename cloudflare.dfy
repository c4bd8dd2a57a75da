/**
 * The Cloudflare adapter: the zone id is looked up by root domain, records are
 * created with a POST, and removal deletes every TXT record listed under the
 * record name. JSON responses are inputs.
 */
module Cloudflare {
  import opened Wrappers
  import opened DnsCommon

  const API: string := "https://api.cloudflare.com/client/v4"
  const TXT_TTL: int := 120

  /** The JSON body of the POST in `createRecord`. */
  datatype CreateBody = CreateBody(zoneId: string, recordType: string, name: string, content: string, ttl: int)

  /** `${API}/zones?name=${rootDomain}`: the zone lookup query. */
  function ZoneQueryUrl(domain: string): string {
    API + "/zones?name=" + RootDomain(domain)
  }

  /**
   * `getZoneId`, given the `result` array of the lookup (absent when the body
   * lacks it): a missing or empty result throws, otherwise the first id is used.
   */
  function ZoneId(domain: string, result: Option<seq<string>>): (r: Result<string, string>)
    ensures r.Err? <==> result.None? || |result.value| == 0
    ensures r.Err? ==> r.error == "Cloudflare zone not found for: " + RootDomain(domain)
    ensures r.Ok? ==> r.value == result.value[0]
  {
    if result.None? || |result.value| == 0 then
      Err("Cloudflare zone not found for: " + RootDomain(domain))
    else Ok(result.value[0])
  }

  /**
   * `createRecord`: after the zone lookup, a POST of a TXT record with the
   * record name, the value as content and TTL 120. The response status is not
   * looked at, so no response is an input here.
   */
  function CreateRecord(c: DnsChallenge, zones: Option<seq<string>>): (r: Result<CreateBody, string>)
    ensures r.Err? <==> ZoneId(c.domain, zones).Err?
    ensures r.Err? ==> r.error == ZoneId(c.domain, zones).error
    ensures r.Ok? ==> r.value == CreateBody(ZoneId(c.domain, zones).value, "TXT", c.recordName, c.recordValue, TXT_TTL)
  {
    match ZoneId(c.domain, zones)
    case Err(e) => Err(e)
    case Ok(zone) => Ok(CreateBody(zone, "TXT", c.recordName, c.recordValue, TXT_TTL))
  }

  /** `${API}/zones/${zoneId}/dns_records?name=${recordName}&type=TXT`: the listing query. */
  function ListUrl(zoneId: string, recordName: string): string {
    API + "/zones/" + zoneId + "/dns_records?name=" + recordName + "&type=TXT"
  }

  /**
   * `deleteRecord`: after the zone lookup, every record id that the listing
   * under the record name returned is deleted, in order, whatever its value.
   */
  method DeleteRecord(c: DnsChallenge, zones: Option<seq<string>>, listed: Option<seq<string>>)
    returns (r: Result<seq<string>, string>)
    ensures r.Err? <==> ZoneId(c.domain, zones).Err?
    ensures r.Err? ==> r.error == ZoneId(c.domain, zones).error
    ensures r.Ok? ==> r.value == listed.GetOr([])
  {
    var zone := ZoneId(c.domain, zones);
    if zone.Err? {
      return Err(zone.error);
    }
    var ids := listed.GetOr([]);
    var deleted: seq<string> := [];
    var i := 0;
    while i < |ids|
      invariant 0 <= i <= |ids|
      invariant deleted == ids[..i]
    {
      deleted := deleted + [ids[i]];
      i := i + 1;
    }
    return Ok(deleted);
  }

  /** What the token verification returned: a thrown exception, or the parsed `success` field. */
  datatype SuccessField = FieldTrue | FieldFalse | FieldOther

  /** `verifyCredentials`: true exactly when `success` is the boolean true; an exception gives false. */
  function VerifyCredentials(response: Option<SuccessField>): (ok: bool)
    ensures ok <==> response == Some(FieldTrue)
  {
    match response
    case None => false
    case Some(f) => f == FieldTrue
  }
}
