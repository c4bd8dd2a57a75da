/**
 * The DigitalOcean adapter: records are created with a POST and removed by
 * listing the TXT records under the name and deleting those whose data is the
 * challenge value. HTTP responses are inputs.
 */
module DigitalOcean {
  import opened Strings
  import opened Wrappers
  import opened DnsCommon

  const BASE_URL: string := "https://api.digitalocean.com/v2"
  const TXT_TTL: int := 120

  /** The JSON body of the POST in `createRecord`. */
  datatype CreateBody = CreateBody(recordType: string, name: string, data: string, ttl: int)

  /** An element of `domain_records` in a listing. */
  datatype DomainRecord = DomainRecord(id: int, data: string)

  /** The listing response: its status and `domain_records`, absent when the body lacks it. */
  datatype Listing = Listing(response: HttpResponse, records: Option<seq<DomainRecord>>)

  /** `getRecordName`: strips `.` + root when the record name ends with it, else keeps the name. */
  function RecordName(recordName: string, domain: string): (name: string)
    ensures var suffix := "." + RootDomain(domain);
      EndsWith(recordName, suffix) ==> name + suffix == recordName
    ensures !EndsWith(recordName, "." + RootDomain(domain)) ==> name == recordName
  {
    var suffix := "." + RootDomain(domain);
    if EndsWith(recordName, suffix) then
      var name := recordName[..|recordName| - |suffix|];
      assert recordName == name + suffix;
      name
    else recordName
  }

  /** For a DNS-01 record name the relative name is the record name without `.` + root. */
  lemma AcmeRecordNameRoundTrip(domain: string)
    ensures RecordName(AcmeRecordName(domain), domain) + "." + RootDomain(domain) == AcmeRecordName(domain)
  {
    AcmeRecordEndsWithRoot(domain);
  }

  /** `${baseUrl}/domains/${rootDomain}/records`, where records are created and listed. */
  function RecordsUrl(c: DnsChallenge): string {
    BASE_URL + "/domains/" + RootDomain(c.domain) + "/records"
  }

  /** The POST body of `createRecord`: a TXT record under the relative name, TTL 120. */
  function CreateRequest(c: DnsChallenge): (body: CreateBody)
    ensures body.recordType == "TXT" && body.data == c.recordValue && body.ttl == TXT_TTL
    ensures var suffix := "." + RootDomain(c.domain);
      EndsWith(c.recordName, suffix) ==> body.name + suffix == c.recordName
    ensures !EndsWith(c.recordName, "." + RootDomain(c.domain)) ==> body.name == c.recordName
  {
    CreateBody("TXT", RecordName(c.recordName, c.domain), c.recordValue, TXT_TTL)
  }

  /** `createRecord` after the POST: it throws with the response text on a non-2xx status. */
  function CreateOutcome(response: HttpResponse): (r: CallOutcome)
    ensures r.Threw? <==> !response.Ok()
    ensures r.Threw? ==> r.message == "DigitalOcean API error: " + response.text
    ensures !r.Warned?
  {
    if !response.Ok() then Threw("DigitalOcean API error: " + response.text) else Completed
  }

  /** The ids, in listing order, of the records whose data equals `value`. */
  function MatchingIds(records: seq<DomainRecord>, value: string): seq<int>
    decreases |records|
  {
    if |records| == 0 then []
    else
      var last := records[|records| - 1];
      MatchingIds(records[..|records| - 1], value) + (if last.data == value then [last.id] else [])
  }

  /** An id is deleted exactly when some listed record with that id carries the challenge value. */
  lemma {:induction false} MatchingIdsExact(records: seq<DomainRecord>, value: string, id: int)
    ensures id in MatchingIds(records, value) <==>
      exists k :: 0 <= k < |records| && records[k].id == id && records[k].data == value
    decreases |records|
  {
    if |records| > 0 {
      var init := records[..|records| - 1];
      MatchingIdsExact(init, value, id);
      if exists k :: 0 <= k < |records| && records[k].id == id && records[k].data == value {
        var k :| 0 <= k < |records| && records[k].id == id && records[k].data == value;
        if k < |records| - 1 {
          assert init[k] == records[k];
        }
      }
      if exists k :: 0 <= k < |init| && init[k].id == id && init[k].data == value {
        var k :| 0 <= k < |init| && init[k].id == id && init[k].data == value;
        assert records[k] == init[k];
      }
    }
  }

  /**
   * `deleteRecord` after the listing: nothing is deleted when the listing
   * failed; otherwise one DELETE is issued, in order, for each listed record
   * whose data equals the challenge value.
   */
  method DeleteRecord(c: DnsChallenge, listing: Listing) returns (deleted: seq<int>)
    ensures !listing.response.Ok() ==> deleted == []
    ensures listing.response.Ok() ==> deleted == MatchingIds(listing.records.GetOr([]), c.recordValue)
  {
    deleted := [];
    if !listing.response.Ok() {
      return;
    }
    var records := listing.records.GetOr([]);
    var i := 0;
    while i < |records|
      invariant 0 <= i <= |records|
      invariant deleted == MatchingIds(records[..i], c.recordValue)
    {
      assert records[..i + 1][..i] == records[..i];
      if records[i].data == c.recordValue {
        deleted := deleted + [records[i].id];
      }
      i := i + 1;
    }
    assert records[..i] == records;
  }

  /** `verifyCredentials`: the account request answered 2xx; a transport failure gives false. */
  function VerifyCredentials(response: Option<HttpResponse>): (ok: bool)
    ensures ok <==> response.Some? && response.value.Ok()
  {
    match response
    case None => false
    case Some(r) => r.Ok()
  }
}
