/**
 * `/api/certificates`: `GET` lists every record with its computed status
 * and the days left; `POST` validates a new record, stores it with its
 * defaults and, when asked, issues the certificate at once.
 */
module CertificatesRoute {
  import opened Wrappers
  import opened Env
  import opened Clock
  import opened Strings
  import opened Crypto
  import opened Json
  import opened Db
  import opened Acme

  /** A record as `GET` returns it: the row plus `computed_status` and `days_until_expiry`. */
  datatype Enriched = Enriched(cert: Certificate, computedStatus: CertificateStatus, daysUntilExpiry: Option<int>)

  function Enrich(c: Certificate, now: int): (e: Enriched)
    ensures e.cert == c && e.computedStatus == GetCertificateStatus(c.expiresAt, now)
    ensures e.daysUntilExpiry.None? <==> c.expiresAt.None?
    ensures e.daysUntilExpiry.Some? ==> e.daysUntilExpiry.value == DaysUntil(c.expiresAt.value, now)
  {
    Enriched(c, GetCertificateStatus(c.expiresAt, now),
      if c.expiresAt.Some? then Some(DaysUntil(c.expiresAt.value, now)) else None)
  }

  /** `certificates.map(...)`. */
  function EnrichAll(certs: seq<Certificate>, now: int): (r: seq<Enriched>)
    ensures |r| == |certs|
    ensures forall i :: 0 <= i < |certs| ==> r[i] == Enrich(certs[i], now)
    decreases |certs|
  {
    if |certs| == 0 then [] else [Enrich(certs[0], now)] + EnrichAll(certs[1..], now)
  }

  /**
   * The days shown and the status agree: a record is expired exactly when
   * its days are negative and valid exactly when they are 30 or more.
   */
  lemma StatusMatchesDays(c: Certificate, now: int)
    requires c.expiresAt.Some?
    ensures var e := Enrich(c, now);
      && e.daysUntilExpiry.value * MS_PER_DAY <= c.expiresAt.value - now < (e.daysUntilExpiry.value + 1) * MS_PER_DAY
      && (e.computedStatus == StatusExpired <==> e.daysUntilExpiry.value < 0)
      && (e.computedStatus == StatusExpiring <==> 0 <= e.daysUntilExpiry.value < 30)
      && (e.computedStatus == StatusValid <==> e.daysUntilExpiry.value >= 30)
  {
  }

  /** `GET`: every stored record, ordered by domain, each enriched. */
  method Get(store: Store, now: int) returns (r: seq<Enriched>)
    requires store.Consistent()
    ensures |r| == |store.certs|
    ensures forall k :: k in store.certs ==> exists i :: 0 <= i < |r| && r[i] == Enrich(store.certs[k], now)
    ensures forall i :: 0 <= i < |r| ==>
      r[i].cert.id in store.certs && store.certs[r[i].cert.id] == r[i].cert && r[i] == Enrich(r[i].cert, now)
    ensures forall i :: 0 <= i < |r| - 1 ==> !LexLess(r[i + 1].cert.domain, r[i].cert.domain)
  {
    var certs := store.GetAllCertificates();
    r := EnrichAll(certs, now);
    forall k | k in store.certs
      ensures exists i :: 0 <= i < |r| && r[i] == Enrich(store.certs[k], now)
    {
      var i :| 0 <= i < |certs| && certs[i] == store.certs[k];
      assert r[i] == Enrich(store.certs[k], now);
    }
    forall i | 0 <= i < |r|
      ensures r[i].cert.id in store.certs && store.certs[r[i].cert.id] == r[i].cert
    {
      assert r[i].cert == certs[i] && certs[i] in certs;
    }
    forall i | 0 <= i < |r| - 1
      ensures !LexLess(r[i + 1].cert.domain, r[i].cert.domain)
    {
      assert r[i].cert == certs[i] && r[i + 1].cert == certs[i + 1];
      assert CertDomain(certs[i]) == certs[i].domain;
    }
  }

  /** The properties `POST` reads; strings and booleans where the store takes them. */
  datatype CreateBody = CreateBody(
    domain: Option<string>,
    challengeType: Option<string>,
    dnsProvider: Option<string>,
    autoRenew: Option<bool>,
    hookScript: Option<string>,
    issueNow: Option<Value>)

  datatype PostResponse =
    | Created(data: Option<Certificate>)      // 200 with `success: true`
    | BadRequest(error: string)               // 400
    | ServerError(error: string)              // 500

  /** `challenge_type || 'http'`, the type stored and the type issued with. */
  function ChallengeTypeOf(body: CreateBody): string {
    OrElse(body.challengeType, "http")
  }

  function NewCertificateOf(body: CreateBody): NewCertificate
    requires body.domain.Some?
  {
    NewCertificate(body.domain.value, Some(ChallengeTypeOf(body)), body.dnsProvider, body.autoRenew, body.hookScript)
  }

  predicate IssueNow(body: CreateBody) {
    body.issueNow.Some? && Truthy(body.issueNow.value)
  }

  function IssueConfig(body: CreateBody, env: Environment): AcmeConfig
    requires body.domain.Some?
  {
    AcmeConfig(GetOr(env, "ACME_EMAIL", DEFAULT_EMAIL), body.domain.value, ChallengeTypeOf(body), body.dnsProvider)
  }

  /**
   * `POST`. A missing or empty domain is refused and nothing is stored; a
   * domain already stored fails the insert (500). Otherwise the record is
   * created with its defaults; with `issue_now` the certificate is requested
   * at once and the record becomes valid with the material, or only its
   * status becomes error. The response succeeds either way and returns the
   * record as stored. Unlike a renewal, no notification is cleared and no
   * hook runs. `body` is `None` when the request body cannot be read.
   */
  method Post(store: Store, cache: AccountKeyCache, body: Option<CreateBody>, env: Environment,
              crypto: Primitives, generatedKey: Bytes, run: AcmeRun, now: int)
    returns (resp: PostResponse, calls: seq<DnsCall>)
    requires store.Consistent()
    modifies store, cache
    ensures store.Consistent()
    ensures store.notifications == old(store.notifications) && store.hookLogs == old(store.hookLogs)
    ensures !resp.Created? ==> store.tokens == old(store.tokens) && calls == []
    ensures old(cache.key).Some? ==> cache.key == old(cache.key)
    ensures !(resp.Created? && body.Some? && IssueNow(body.value)) ==> cache.key == old(cache.key)
    ensures resp.Created? && body.Some? && IssueNow(body.value) && old(cache.key).None? ==> cache.key == Some(generatedKey)
    ensures body.None? ==> resp == ServerError("Failed to create certificate") && store.certs == old(store.certs)
    ensures body.Some? && (body.value.domain.None? || body.value.domain.value == "") ==>
      resp == BadRequest("Domain is required") && store.certs == old(store.certs) && calls == []
    ensures body.Some? && body.value.domain.Some? && body.value.domain.value != ""
            && (exists k :: k in old(store.certs) && old(store.certs)[k].domain == body.value.domain.value) ==>
      resp == ServerError("Failed to create certificate") && store.certs == old(store.certs) && calls == []
    ensures resp.Created? ==>
      var b := body.value;
      var id := old(store.nextId);
      var inserted := NewRecord(id, NewCertificateOf(b), now);
      && b.domain.Some? && b.domain.value != ""
      && (forall k :: k in old(store.certs) ==> old(store.certs)[k].domain != b.domain.value)
      && store.certs.Keys == old(store.certs).Keys + {id}
      && (forall k :: k in old(store.certs) ==> store.certs[k] == old(store.certs)[k])
      && resp.data == Some(store.certs[id])
      && (!IssueNow(b) ==> store.certs[id] == inserted && calls == [] && store.tokens == old(store.tokens))
      && (IssueNow(b) ==>
            var issued := IssueOutcome(IssueConfig(b, env), env, run, now);
            && store.tokens == TokensAfterIssue(old(store.tokens), IssueConfig(b, env), env, run)
            && calls == CallsOfIssue(IssueConfig(b, env), env, crypto, run)
            && (issued.Issued? ==>
                  store.certs[id] == ApplyPatch(inserted, IssuedPatch(issued.certificate, issued.privateKey, now, issued.expiresAt), now))
            && (issued.Failed? ==> store.certs[id] == ApplyPatch(inserted, ERROR_PATCH, now)))
    ensures body.Some? && body.value.domain.Some? && body.value.domain.value != ""
            && (forall k :: k in old(store.certs) ==> old(store.certs)[k].domain != body.value.domain.value) ==>
      resp.Created?
  {
    calls := [];
    if body.None? {
      return ServerError("Failed to create certificate"), calls;
    }
    var b := body.value;
    if b.domain.None? || b.domain.value == "" {
      return BadRequest("Domain is required"), calls;
    }
    var created := store.CreateCertificate(NewCertificateOf(b), now);
    if created.Err? {
      return ServerError("Failed to create certificate"), calls;
    }
    var cert := created.value;
    if IssueNow(b) {
      var result;
      result, calls := RequestCertificate(store, cache, IssueConfig(b, env), env, crypto, generatedKey, run, now);
      if result.Issued? {
        var _ := store.UpdateCertificate(cert.id, IssuedPatch(result.certificate, result.privateKey, now, result.expiresAt), now);
      } else {
        var _ := store.UpdateCertificate(cert.id, ERROR_PATCH, now);
      }
    }
    var data := store.GetCertificate(cert.id);
    resp := Created(data);
  }
}
