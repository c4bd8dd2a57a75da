/**
 * Certificate issuance and renewal. The ACME protocol run itself (account
 * creation, CSR, `client.auto`) belongs to a library and is an input here:
 * an `AcmeRun` says what the library did. What the model captures is what
 * this code does around it: the cached account key, the challenge callbacks
 * (HTTP-01 tokens in the store, DNS-01 TXT records through an adapter), the
 * result or error returned, the record updates of a renewal and the hook log.
 */
module Acme {
  import opened Wrappers
  import opened Env
  import opened Clock
  import opened Crypto
  import opened Db
  import opened DnsCommon
  import opened DnsProviders

  const LETSENCRYPT_PRODUCTION: string := "https://acme-v02.api.letsencrypt.org/directory"
  const LETSENCRYPT_STAGING: string := "https://acme-staging-v02.api.letsencrypt.org/directory"
  const VALIDITY_DAYS: int := 90
  const DEFAULT_EMAIL: string := "admin@example.com"

  /** `ACME_DIRECTORY`: production only when ACME_PRODUCTION is exactly 'true'. */
  function AcmeDirectory(env: Environment): (url: string)
    ensures url == LETSENCRYPT_PRODUCTION <==> "ACME_PRODUCTION" in env && env["ACME_PRODUCTION"] == "true"
    ensures url == LETSENCRYPT_STAGING <==> !("ACME_PRODUCTION" in env && env["ACME_PRODUCTION"] == "true")
  {
    if "ACME_PRODUCTION" in env && env["ACME_PRODUCTION"] == "true" then LETSENCRYPT_PRODUCTION else LETSENCRYPT_STAGING
  }

  /** The module-level `accountKey`: empty until the first request, then fixed. */
  class AccountKeyCache {
    var key: Option<Bytes>

    constructor ()
      ensures key == None
    {
      key := None;
    }

    /**
     * `getOrCreateAccountKey`: the cached key if there is one; otherwise
     * `generated` (what `createPrivateKey` produced) is stored and returned.
     */
    method GetOrCreate(generated: Bytes) returns (k: Bytes)
      modifies this
      ensures old(key).Some? ==> k == old(key).value && key == old(key)
      ensures old(key).None? ==> k == generated && key == Some(generated)
    {
      if key.Some? {
        return key.value;
      }
      key := Some(generated);
      k := generated;
    }
  }

  /** Two requests in a row use the same account key, whatever the second would have generated. */
  method AccountKeyWriteOnce(first: Bytes, second: Bytes) returns (k1: Bytes, k2: Bytes)
    ensures k1 == first && k2 == first
  {
    var cache := new AccountKeyCache();
    k1 := cache.GetOrCreate(first);
    k2 := cache.GetOrCreate(second);
  }

  /** The challenge the callbacks are written for. */
  function ChallengePriority(challengeType: string): (r: seq<string>)
    ensures |r| == 1
    ensures r[0] == "dns-01" <==> challengeType == "dns"
    ensures r[0] == "http-01" <==> challengeType != "dns"
  {
    if challengeType == "dns" then ["dns-01"] else ["http-01"]
  }

  /** `sha256(keyAuthorization)` in base64url: the DNS-01 TXT value. */
  function TxtValue(crypto: Primitives, keyAuthorization: string): string {
    crypto.base64url(crypto.sha256(crypto.utf8(keyAuthorization)))
  }

  /** A value thrown inside `requestCertificate`: an `Error` with its message, or anything else. */
  datatype Thrown = ErrorObject(message: string) | NonError

  /** `error instanceof Error ? error.message : 'Unknown error'`. */
  function ErrorMessage(t: Thrown): (m: string)
    ensures t.ErrorObject? ==> m == t.message
    ensures t.NonError? ==> m == "Unknown error"
  {
    match t
    case ErrorObject(msg) => msg
    case NonError => "Unknown error"
  }

  /** One challenge `client.auto` hands to the callbacks. */
  datatype AcmeChallenge = AcmeChallenge(token: string, keyAuthorization: string)

  /**
   * What the ACME library did: whether creating the account threw, the key
   * of the CSR, the challenges it presented, and the certificate it returned
   * or what it threw.
   */
  datatype AcmeRun = AcmeRun(
    accountFailure: Option<Thrown>,
    privateKey: string,
    challenges: seq<AcmeChallenge>,
    outcome: Result<string, Thrown>)

  datatype AcmeConfig = AcmeConfig(email: string, domain: string, challengeType: string, dnsProvider: Option<string>)

  /** A call made on a DNS adapter. */
  datatype DnsCall =
    | CreateTxt(provider: ProviderConfig, challenge: DnsChallenge)
    | DeleteTxt(provider: ProviderConfig, challenge: DnsChallenge)

  /** The record a DNS-01 callback writes or removes. */
  function ChallengeRecord(crypto: Primitives, domain: string, keyAuthorization: string): (c: DnsChallenge)
    ensures c.domain == domain && c.recordName == AcmeRecordName(domain)
  {
    DnsChallenge(domain, AcmeRecordName(domain), TxtValue(crypto, keyAuthorization))
  }

  /**
   * The adapter calls a DNS-01 run makes: for each challenge, in order, a
   * create and then a delete of the same record.
   */
  function DnsCalls(provider: ProviderConfig, crypto: Primitives, domain: string, chs: seq<AcmeChallenge>): (r: seq<DnsCall>)
    ensures |r| == 2 * |chs|
    ensures forall j :: 0 <= j < |chs| ==>
      && r[2 * j] == CreateTxt(provider, ChallengeRecord(crypto, domain, chs[j].keyAuthorization))
      && r[2 * j + 1] == DeleteTxt(provider, ChallengeRecord(crypto, domain, chs[j].keyAuthorization))
    decreases |chs|
  {
    if |chs| == 0 then []
    else
      var last := ChallengeRecord(crypto, domain, chs[|chs| - 1].keyAuthorization);
      DnsCalls(provider, crypto, domain, chs[..|chs| - 1]) + [CreateTxt(provider, last), DeleteTxt(provider, last)]
  }

  /** Every record a DNS-01 run touches is `_acme-challenge.` + the domain. */
  lemma DnsCallsRecordName(provider: ProviderConfig, crypto: Primitives, domain: string, chs: seq<AcmeChallenge>)
    ensures forall call :: call in DnsCalls(provider, crypto, domain, chs) ==>
      call.challenge.recordName == ACME_CHALLENGE_PREFIX + domain && call.challenge.domain == domain
  {
    var r := DnsCalls(provider, crypto, domain, chs);
    forall call | call in r
      ensures call.challenge.recordName == ACME_CHALLENGE_PREFIX + domain && call.challenge.domain == domain
    {
      var i :| 0 <= i < |r| && r[i] == call;
      assert r[2 * (i / 2)] == r[i] || r[2 * (i / 2) + 1] == r[i];
    }
  }

  /** The outcome of `requestCertificate`. */
  datatype IssueResult =
    | Issued(certificate: string, privateKey: string, expiresAt: int)
    | Failed(error: string)

  /** The adapter `requestCertificate` builds: only for a DNS-01 request that names a provider. */
  function DnsProviderFor(config: AcmeConfig, env: Environment): (r: Option<Result<ProviderConfig, string>>)
    ensures r.Some? <==> config.challengeType == "dns" && config.dnsProvider.Some? && config.dnsProvider.value != ""
    ensures r.Some? ==> r.value == CreateDnsProvider(config.dnsProvider.value, env)
  {
    if config.challengeType == "dns" && config.dnsProvider.Some? && config.dnsProvider.value != "" then
      Some(CreateDnsProvider(config.dnsProvider.value, env))
    else None
  }

  /**
   * What `requestCertificate` returns for a run: the first failure among
   * account creation, adapter construction and the library run, with its
   * message; or the certificate, the CSR key and an expiry 90 days from `now`.
   */
  function IssueOutcome(config: AcmeConfig, env: Environment, run: AcmeRun, now: int): (r: IssueResult)
    ensures run.accountFailure.Some? ==> r == Failed(ErrorMessage(run.accountFailure.value))
    ensures run.accountFailure.None? && DnsProviderFor(config, env).Some? && DnsProviderFor(config, env).value.Err? ==>
      r == Failed(DnsProviderFor(config, env).value.error)
    ensures Challenged(config, env, run) && run.outcome.Err? ==> r == Failed(ErrorMessage(run.outcome.error))
    ensures r.Issued? <==> Challenged(config, env, run) && run.outcome.Ok?
    ensures r.Issued? ==> && r.certificate == run.outcome.value && r.privateKey == run.privateKey
                          && r.expiresAt == AddDays(now, VALIDITY_DAYS) && DaysUntil(r.expiresAt, now) == VALIDITY_DAYS
  {
    if run.accountFailure.Some? then Failed(ErrorMessage(run.accountFailure.value))
    else match DnsProviderFor(config, env)
      case Some(Err(msg)) => Failed(msg)
      case _ =>
        match run.outcome
        case Err(t) => Failed(ErrorMessage(t))
        case Ok(cert) => Issued(cert, run.privateKey, AddDays(now, VALIDITY_DAYS))
  }

  /** The challenge callbacks run: the account was created and the adapter, where one is wanted, was built. */
  predicate Challenged(config: AcmeConfig, env: Environment, run: AcmeRun) {
    run.accountFailure.None? && (DnsProviderFor(config, env).None? || DnsProviderFor(config, env).value.Ok?)
  }

  /** The challenge tokens `requestCertificate` leaves: an HTTP-01 run that saw a challenge removes the domain's. */
  function TokensAfterIssue(tokens: seq<ChallengeToken>, config: AcmeConfig, env: Environment, run: AcmeRun): seq<ChallengeToken> {
    if Challenged(config, env, run) && config.challengeType == "http" && |run.challenges| > 0
    then WithoutDomain(tokens, config.domain)
    else tokens
  }

  /** The adapter calls `requestCertificate` makes: those of DnsCalls when an adapter was built, none otherwise. */
  function CallsOfIssue(config: AcmeConfig, env: Environment, crypto: Primitives, run: AcmeRun): seq<DnsCall> {
    if Challenged(config, env, run) && DnsProviderFor(config, env).Some?
    then DnsCalls(DnsProviderFor(config, env).value.value, crypto, config.domain, run.challenges)
    else []
  }

  /** Removing a domain's tokens twice is removing them once. */
  lemma {:induction false} WithoutDomainIdempotent(tokens: seq<ChallengeToken>, domain: string)
    ensures WithoutDomain(WithoutDomain(tokens, domain), domain) == WithoutDomain(tokens, domain)
    decreases |tokens|
  {
    if |tokens| > 0 {
      WithoutDomainIdempotent(tokens[1..], domain);
      var rest := WithoutDomain(tokens[1..], domain);
      if tokens[0].domain != domain {
        assert ([tokens[0]] + rest)[1..] == rest;
      }
    }
  }

  /**
   * One challenge through `challengeCreateFn` and then `challengeRemoveFn`:
   * HTTP-01 stores the token and then removes every token of the domain;
   * DNS-01 with an adapter creates and then deletes the TXT record.
   */
  method RunChallenge(store: Store, config: AcmeConfig, provider: Option<ProviderConfig>, crypto: Primitives,
                      ch: AcmeChallenge, now: int)
    returns (stepCalls: seq<DnsCall>)
    requires store.Consistent()
    modifies store
    ensures store.Consistent()
    ensures store.certs == old(store.certs) && store.notifications == old(store.notifications)
    ensures store.hookLogs == old(store.hookLogs) && store.nextLogId == old(store.nextLogId)
    ensures config.challengeType == "http" ==> store.tokens == WithoutDomain(old(store.tokens), config.domain)
    ensures config.challengeType != "http" ==> store.tokens == old(store.tokens)
    ensures stepCalls ==
      if config.challengeType == "dns" && provider.Some? then
        var record := ChallengeRecord(crypto, config.domain, ch.keyAuthorization);
        [CreateTxt(provider.value, record), DeleteTxt(provider.value, record)]
      else []
  {
    stepCalls := [];
    // challengeCreateFn
    if config.challengeType == "http" {
      store.SaveChallengeToken(config.domain, ch.token, ch.keyAuthorization, now);
    } else if config.challengeType == "dns" && provider.Some? {
      stepCalls := [CreateTxt(provider.value, ChallengeRecord(crypto, config.domain, ch.keyAuthorization))];
    }
    // challengeRemoveFn
    if config.challengeType == "http" {
      ghost var before := store.tokens;
      store.DeleteChallengeTokens(config.domain);
      SaveThenDelete(before[..|before| - 1], before[|before| - 1]);
      assert before == before[..|before| - 1] + [before[|before| - 1]];
    } else if config.challengeType == "dns" && provider.Some? {
      stepCalls := stepCalls + [DeleteTxt(provider.value, ChallengeRecord(crypto, config.domain, ch.keyAuthorization))];
    }
  }

  /**
   * The challenges of a run, in order, each through `RunChallenge`: an
   * HTTP-01 run that saw a challenge leaves the domain with no token, and a
   * DNS-01 run with an adapter makes exactly the calls of DnsCalls.
   */
  method RunChallenges(store: Store, config: AcmeConfig, provider: Option<ProviderConfig>, crypto: Primitives,
                       chs: seq<AcmeChallenge>, now: int)
    returns (calls: seq<DnsCall>)
    requires store.Consistent()
    requires provider.Some? ==> config.challengeType == "dns"
    modifies store
    ensures store.Consistent()
    ensures store.certs == old(store.certs) && store.notifications == old(store.notifications)
    ensures store.hookLogs == old(store.hookLogs) && store.nextLogId == old(store.nextLogId)
    ensures config.challengeType == "http" && |chs| > 0 ==> store.tokens == WithoutDomain(old(store.tokens), config.domain)
    ensures !(config.challengeType == "http" && |chs| > 0) ==> store.tokens == old(store.tokens)
    ensures provider.Some? ==> calls == DnsCalls(provider.value, crypto, config.domain, chs)
    ensures provider.None? ==> calls == []
  {
    calls := [];
    ghost var tokens0 := store.tokens;
    var i := 0;
    while i < |chs|
      invariant 0 <= i <= |chs|
      invariant store.Consistent()
      invariant store.certs == old(store.certs) && store.notifications == old(store.notifications)
      invariant store.hookLogs == old(store.hookLogs) && store.nextLogId == old(store.nextLogId)
      invariant config.challengeType == "http" && i > 0 ==> store.tokens == WithoutDomain(tokens0, config.domain)
      invariant !(config.challengeType == "http" && i > 0) ==> store.tokens == tokens0
      invariant provider.Some? ==> calls == DnsCalls(provider.value, crypto, config.domain, chs[..i])
      invariant provider.None? ==> calls == []
    {
      var stepCalls := RunChallenge(store, config, provider, crypto, chs[i], now);
      if config.challengeType == "http" && i > 0 {
        WithoutDomainIdempotent(tokens0, config.domain);
      }
      calls := calls + stepCalls;
      assert chs[..i + 1][..i] == chs[..i];
      i := i + 1;
    }
    assert chs[..i] == chs;
  }

  /**
   * `requestCertificate`: gets the account key, then runs the challenges
   * through the callbacks. An HTTP-01 challenge stores its token and then
   * removes every token of the domain; a DNS-01 challenge creates and then
   * deletes the TXT record through the adapter; any other case does nothing.
   * Failures never escape: they become `Failed` with the message.
   */
  method RequestCertificate(store: Store, cache: AccountKeyCache, config: AcmeConfig, env: Environment,
                            crypto: Primitives, generatedKey: Bytes, run: AcmeRun, now: int)
    returns (r: IssueResult, calls: seq<DnsCall>)
    requires store.Consistent()
    modifies store, cache
    ensures store.Consistent()
    ensures r == IssueOutcome(config, env, run, now)
    ensures old(cache.key).None? ==> cache.key == Some(generatedKey)
    ensures old(cache.key).Some? ==> cache.key == old(cache.key)
    ensures store.certs == old(store.certs) && store.notifications == old(store.notifications)
    ensures store.hookLogs == old(store.hookLogs) && store.nextLogId == old(store.nextLogId)
    ensures store.tokens == TokensAfterIssue(old(store.tokens), config, env, run)
    ensures calls == CallsOfIssue(config, env, crypto, run)
  {
    calls := [];
    var accountKey := cache.GetOrCreate(generatedKey);
    if run.accountFailure.Some? {
      return Failed(ErrorMessage(run.accountFailure.value)), calls;
    }
    var provider: Option<ProviderConfig> := None;
    var built := DnsProviderFor(config, env);
    if built.Some? {
      match built.value
      case Err(msg) =>
        return Failed(msg), calls;
      case Ok(p) =>
        provider := Some(p);
    }
    calls := RunChallenges(store, config, provider, crypto, run.challenges, now);
    match run.outcome
    case Err(t) =>
      r := Failed(ErrorMessage(t));
    case Ok(cert) =>
      r := Issued(cert, run.privateKey, AddDays(now, VALIDITY_DAYS));
  }

  /** The environment of a hook: the process environment plus the three certificate variables. */
  function HookEnvironment(env: Environment, domain: string, certificate: string, privateKey: string): (e: Environment)
    ensures "CERT_DOMAIN" in e && "CERT_CERTIFICATE" in e && "CERT_PRIVATE_KEY" in e
    ensures e["CERT_DOMAIN"] == domain && e["CERT_CERTIFICATE"] == certificate && e["CERT_PRIVATE_KEY"] == privateKey
    ensures forall k :: k in env && k !in {"CERT_DOMAIN", "CERT_CERTIFICATE", "CERT_PRIVATE_KEY"} ==> k in e && e[k] == env[k]
    ensures e.Keys == env.Keys + {"CERT_DOMAIN", "CERT_CERTIFICATE", "CERT_PRIVATE_KEY"}
  {
    env["CERT_DOMAIN" := domain]["CERT_CERTIFICATE" := certificate]["CERT_PRIVATE_KEY" := privateKey]
  }

  /** What running a shell command gave: its stdout and stderr, or what was thrown. */
  datatype ExecResult = Exited(stdout: string, stderr: string) | ExecThrew(error: Thrown)

  /** The log entry of a hook run: successful with stdout and stderr, or failed with the message. */
  function HookEntry(logId: int, certId: int, result: ExecResult, now: int): HookLog {
    HookLog(logId, certId, now, if result.Exited? then 1 else 0,
            if result.Exited? then result.stdout + result.stderr else ErrorMessage(result.error))
  }

  /**
   * `executeHook`: runs the script with the hook environment and logs one
   * entry, successful with the combined output or failed with the message.
   * `exec` stands for the shell.
   */
  method ExecuteHook(store: Store, certId: int, script: string, env: Environment,
                     domain: string, certificate: string, privateKey: string,
                     exec: (string, Environment) -> ExecResult, now: int)
    requires store.Consistent()
    modifies store
    ensures store.Consistent()
    ensures var result := exec(script, HookEnvironment(env, domain, certificate, privateKey));
      store.hookLogs == old(store.hookLogs) + [HookEntry(old(store.nextLogId), certId, result, now)]
    ensures store.nextLogId == old(store.nextLogId) + 1
    ensures store.certs == old(store.certs) && store.tokens == old(store.tokens)
    ensures store.notifications == old(store.notifications)
  {
    var result := exec(script, HookEnvironment(env, domain, certificate, privateKey));
    match result
    case Exited(out, err) =>
      store.LogHookExecution(certId, true, out + err, now);
    case ExecThrew(t) =>
      store.LogHookExecution(certId, false, ErrorMessage(t), now);
  }

  datatype RenewResult = RenewResult(success: bool, error: Option<string>)

  /** `certificate.hook_script` as a condition. */
  predicate HasHook(c: Certificate) { c.hookScript.Some? && c.hookScript.value != "" }

  /** The configuration a renewal issues with. */
  function RenewConfig(c: Certificate, env: Environment): AcmeConfig {
    AcmeConfig(GetOr(env, "ACME_EMAIL", DEFAULT_EMAIL), c.domain, c.challengeType, OrNull(c.dnsProvider))
  }

  /** The update a successful issuance makes: valid, with the material, issue time and expiry. */
  function IssuedPatch(certificate: string, privateKey: string, issuedAt: int, expiresAt: int): Patch {
    NO_CHANGE.(status := Some(Valid), certificate := Some(Some(certificate)), privateKey := Some(Some(privateKey)),
               issuedAt := Some(Some(issuedAt)), expiresAt := Some(Some(expiresAt)))
  }

  /** The update a failed issuance makes: the status only. */
  const ERROR_PATCH: Patch := NO_CHANGE.(status := Some(Error))

  /**
   * `renewCertificate`: an unknown id fails with 'Certificate not found' and
   * touches nothing. Otherwise the certificate is requested again for the
   * record's domain, challenge type and provider. On success the record
   * becomes valid with the new material, its notifications are cleared, and
   * the hook runs exactly when the record has one; on failure only the
   * status becomes error and the error is passed on.
   */
  method RenewCertificate(store: Store, cache: AccountKeyCache, certId: int, env: Environment,
                          crypto: Primitives, generatedKey: Bytes, run: AcmeRun,
                          exec: (string, Environment) -> ExecResult, now: int)
    returns (r: RenewResult, calls: seq<DnsCall>)
    requires store.Consistent()
    modifies store, cache
    ensures store.Consistent()
    ensures certId !in old(store.certs) ==>
      r == RenewResult(false, Some("Certificate not found")) && calls == []
      && store.certs == old(store.certs) && store.tokens == old(store.tokens)
      && store.hookLogs == old(store.hookLogs) && store.notifications == old(store.notifications)
      && store.nextLogId == old(store.nextLogId) && cache.key == old(cache.key)
    ensures certId in old(store.certs) && old(cache.key).None? ==> cache.key == Some(generatedKey)
    ensures old(cache.key).Some? ==> cache.key == old(cache.key)
    ensures certId in old(store.certs) ==>
      var c := old(store.certs)[certId];
      var issued := IssueOutcome(RenewConfig(c, env), env, run, now);
      && (r.success <==> issued.Issued?)
      && (issued.Issued? ==>
            && r.error == None
            && store.certs == old(store.certs)[certId := ApplyPatch(c, IssuedPatch(issued.certificate, issued.privateKey, now, issued.expiresAt), now)]
            && store.notifications == WithoutCertificate(old(store.notifications), certId)
            && (forall t :: !store.HasNotificationBeenSent(certId, t))
            && store.nextLogId == old(store.nextLogId) + (if HasHook(c) then 1 else 0)
            && (HasHook(c) <==> |store.hookLogs| == |old(store.hookLogs)| + 1)
            && (!HasHook(c) ==> store.hookLogs == old(store.hookLogs))
            && (HasHook(c) ==> store.hookLogs[|store.hookLogs| - 1].certificateId == certId)
            && (HasHook(c) ==>
                  var hookEnv := HookEnvironment(env, c.domain, issued.certificate, issued.privateKey);
                  store.hookLogs == old(store.hookLogs) + [HookEntry(old(store.nextLogId), certId, exec(c.hookScript.value, hookEnv), now)]))
      && store.tokens == TokensAfterIssue(old(store.tokens), RenewConfig(c, env), env, run)
      && calls == CallsOfIssue(RenewConfig(c, env), env, crypto, run)
      && (issued.Failed? ==>
            && r.error == Some(issued.error)
            && store.certs == old(store.certs)[certId := ApplyPatch(c, ERROR_PATCH, now)]
            && store.notifications == old(store.notifications)
            && store.hookLogs == old(store.hookLogs) && store.nextLogId == old(store.nextLogId))
  {
    var found := store.GetCertificate(certId);
    if found.None? {
      return RenewResult(false, Some("Certificate not found")), [];
    }
    var c := found.value;
    var config := RenewConfig(c, env);
    var issued;
    issued, calls := RequestCertificate(store, cache, config, env, crypto, generatedKey, run, now);
    if issued.Issued? {
      var _ := store.UpdateCertificate(certId, IssuedPatch(issued.certificate, issued.privateKey, now, issued.expiresAt), now);
      store.ClearNotificationsForCertificate(certId);
      if HasHook(c) {
        ExecuteHook(store, certId, c.hookScript.value, env, c.domain, issued.certificate, issued.privateKey, exec, now);
      }
      return RenewResult(true, None), calls;
    }
    var _ := store.UpdateCertificate(certId, ERROR_PATCH, now);
    r := RenewResult(false, Some(issued.error));
  }

  datatype CertificateStatus = StatusPending | StatusExpired | StatusExpiring | StatusValid

  /**
   * `getCertificateStatus`: no expiry is pending; otherwise the whole days
   * left decide: negative is expired, under 30 is expiring, the rest valid.
   */
  function GetCertificateStatus(expiresAt: Option<int>, now: int): (s: CertificateStatus)
    ensures s == StatusPending <==> expiresAt.None?
    ensures expiresAt.Some? ==>
      (s == StatusExpired <==> DaysUntil(expiresAt.value, now) < 0)
      && (s == StatusExpiring <==> 0 <= DaysUntil(expiresAt.value, now) < 30)
      && (s == StatusValid <==> DaysUntil(expiresAt.value, now) >= 30)
  {
    match expiresAt
    case None => StatusPending
    case Some(expiry) =>
      var days := DaysUntil(expiry, now);
      if days < 0 then StatusExpired
      else if days < 30 then StatusExpiring
      else StatusValid
  }

  /**
   * The classification in plain time: expired exactly when the expiry has
   * passed, valid exactly when it is at least 30 days away.
   */
  lemma StatusByTime(expiry: int, now: int)
    ensures GetCertificateStatus(Some(expiry), now) == StatusExpired <==> expiry < now
    ensures GetCertificateStatus(Some(expiry), now) == StatusExpiring <==> now <= expiry < now + 30 * MS_PER_DAY
    ensures GetCertificateStatus(Some(expiry), now) == StatusValid <==> expiry >= now + 30 * MS_PER_DAY
  {
    var d := DaysUntil(expiry, now);
    if d < 0 {
      assert (d + 1) * MS_PER_DAY <= 0;
    } else if d < 30 {
      assert (d + 1) * MS_PER_DAY <= 30 * MS_PER_DAY;
    } else {
      assert d * MS_PER_DAY >= 30 * MS_PER_DAY;
    }
  }

  /** A freshly issued certificate is valid until 60 days later (it is 90 days from expiry). */
  lemma FreshCertificateValid(issuedAt: int)
    ensures GetCertificateStatus(Some(AddDays(issuedAt, VALIDITY_DAYS)), issuedAt) == StatusValid
  {
  }
}
