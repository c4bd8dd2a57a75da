/**
 * `POST /api/scheduler`, the periodic job: after an optional shared-secret
 * check it renews every certificate due for automatic renewal, sorting the
 * outcomes into renewed and failed, and then sends the due expiry
 * notification for every certificate that has an expiry date. Which
 * certificates are due for renewal is a store query outside this model: the
 * list is an input.
 */
module SchedulerRoute {
  import opened Wrappers
  import opened Env
  import opened Clock
  import opened Strings
  import opened Crypto
  import opened Db
  import opened Acme
  import opened Notifications

  datatype RenewFailure = RenewFailure(domain: string, error: string)

  datatype Details = Details(renewed: seq<string>, renewFailed: seq<RenewFailure>, notified: seq<string>)

  datatype SchedulerResponse =
    | Unauthorized                                                        // 401
    | Processed(processedAt: int, renewed: int, renewFailed: int, details: Details)

  /**
   * The secret check: with CRON_SECRET set (and non-empty) the
   * `authorization` header must be exactly 'Bearer ' + the secret; without
   * it every request passes.
   */
  predicate Authorized(cronSecret: Option<string>, authorization: Option<string>) {
    cronSecret.None? || cronSecret.value == "" || authorization == Some("Bearer " + cronSecret.value)
  }

  /** `result.error || 'Unknown error'`. */
  function FailureMessage(r: RenewResult): (m: string)
    ensures m != ""
    ensures r.error.Some? && r.error.value != "" ==> m == r.error.value
  {
    OrElse(r.error, "Unknown error")
  }

  /** The domains of the renewals that succeeded, in processing order. */
  function Renewed(certs: seq<Certificate>, outcomes: seq<RenewResult>): seq<string>
    requires |certs| == |outcomes|
    decreases |certs|
  {
    if |certs| == 0 then []
    else
      var n := |certs| - 1;
      Renewed(certs[..n], outcomes[..n]) + (if outcomes[n].success then [certs[n].domain] else [])
  }

  /** Reporting one more renewal appends its domain to one of the two lists. */
  lemma PartitionSnoc(certs: seq<Certificate>, outcomes: seq<RenewResult>, c: Certificate, r: RenewResult)
    requires |certs| == |outcomes|
    ensures Renewed(certs + [c], outcomes + [r]) == Renewed(certs, outcomes) + (if r.success then [c.domain] else [])
    ensures Failures(certs + [c], outcomes + [r])
            == Failures(certs, outcomes) + (if r.success then [] else [RenewFailure(c.domain, FailureMessage(r))])
  {
    assert (certs + [c])[..|certs|] == certs;
    assert (outcomes + [r])[..|outcomes|] == outcomes;
  }

  /** The renewals that failed, with their messages, in processing order. */
  function Failures(certs: seq<Certificate>, outcomes: seq<RenewResult>): seq<RenewFailure>
    requires |certs| == |outcomes|
    decreases |certs|
  {
    if |certs| == 0 then []
    else
      var n := |certs| - 1;
      Failures(certs[..n], outcomes[..n])
        + (if outcomes[n].success then [] else [RenewFailure(certs[n].domain, FailureMessage(outcomes[n]))])
  }

  /**
   * Every certificate processed lands in exactly one of the two lists, so
   * the two counts add up to the number processed.
   */
  lemma {:induction false} PartitionCounts(certs: seq<Certificate>, outcomes: seq<RenewResult>)
    requires |certs| == |outcomes|
    ensures |Renewed(certs, outcomes)| + |Failures(certs, outcomes)| == |certs|
    decreases |certs|
  {
    if |certs| > 0 {
      var n := |certs| - 1;
      PartitionCounts(certs[..n], outcomes[..n]);
    }
  }

  /** Which list a certificate went to is decided by its own outcome. */
  lemma {:induction false} PartitionMembers(certs: seq<Certificate>, outcomes: seq<RenewResult>, i: int)
    requires |certs| == |outcomes| && 0 <= i < |certs|
    ensures outcomes[i].success ==> certs[i].domain in Renewed(certs, outcomes)
    ensures !outcomes[i].success ==> RenewFailure(certs[i].domain, FailureMessage(outcomes[i])) in Failures(certs, outcomes)
    decreases |certs|
  {
    var n := |certs| - 1;
    if i < n {
      PartitionMembers(certs[..n], outcomes[..n], i);
    }
  }

  /** Every failure in the report carries a message. */
  lemma {:induction false} FailuresHaveMessages(certs: seq<Certificate>, outcomes: seq<RenewResult>)
    requires |certs| == |outcomes|
    ensures forall f :: f in Failures(certs, outcomes) ==> f.error != ""
    decreases |certs|
  {
    if |certs| > 0 {
      var n := |certs| - 1;
      FailuresHaveMessages(certs[..n], outcomes[..n]);
    }
  }

  /** The domains of the certificates that have an expiry date, in list order. */
  function DomainsWithExpiry(certs: seq<Certificate>): (r: seq<string>)
    ensures |r| <= |certs|
    ensures forall c :: c in certs && c.expiresAt.Some? ==> c.domain in r
    ensures forall d :: d in r ==> exists c :: c in certs && c.expiresAt.Some? && c.domain == d
    decreases |certs|
  {
    if |certs| == 0 then []
    else
      var n := |certs| - 1;
      assert forall c :: c in certs <==> c in certs[..n] || c == certs[n];
      DomainsWithExpiry(certs[..n]) + (if certs[n].expiresAt.Some? then [certs[n].domain] else [])
  }

  // ---------------------------------------------------------------------------
  // the renew pass

  /**
   * The part of the state the renew pass changes: the certificates, the
   * notification log, the challenge tokens, the hook log with its next id,
   * and the cached account key.
   */
  datatype RenewState = RenewState(
    certs: map<int, Certificate>,
    log: seq<NotificationRecord>,
    tokens: seq<ChallengeToken>,
    hookLogs: seq<HookLog>,
    nextLogId: int,
    key: Option<Bytes>)

  /** The renew state as the store and the key cache hold it. */
  function Snapshot(store: Store, cache: AccountKeyCache): RenewState
    reads store, cache
  {
    RenewState(store.certs, store.notifications, store.tokens, store.hookLogs, store.nextLogId, cache.key)
  }

  /** What renewing certificate `id` reports, given the certificates as they stand. */
  function RenewOutcome(certs: map<int, Certificate>, id: int, env: Environment, run: AcmeRun, now: int): RenewResult {
    if id !in certs then RenewResult(false, Some("Certificate not found"))
    else match IssueOutcome(RenewConfig(certs[id], env), env, run, now)
      case Issued(_, _, _) => RenewResult(true, None)
      case Failed(e) => RenewResult(false, Some(e))
  }

  /**
   * One step of the pass. An unknown id changes nothing. Otherwise the
   * account key is cached and the challenge tokens are those the issuance
   * leaves. A renewal that issued stores the material, leaves no
   * notification of the certificate and, when the record has a hook, logs
   * the hook's run with the new certificate and key; a failed one only
   * marks the record as errored.
   */
  function RenewStep(s: RenewState, id: int, env: Environment, generatedKey: Bytes, run: AcmeRun,
                     exec: (string, Environment) -> ExecResult, now: int): RenewState
  {
    if id !in s.certs then s
    else
      var c := s.certs[id];
      var config := RenewConfig(c, env);
      var issued := IssueOutcome(config, env, run, now);
      var key := if s.key.None? then Some(generatedKey) else s.key;
      var tokens := TokensAfterIssue(s.tokens, config, env, run);
      if issued.Issued? then
        var certs := s.certs[id := ApplyPatch(c, IssuedPatch(issued.certificate, issued.privateKey, now, issued.expiresAt), now)];
        if HasHook(c) then
          var hookEnv := HookEnvironment(env, c.domain, issued.certificate, issued.privateKey);
          var entry := HookEntry(s.nextLogId, id, exec(c.hookScript.value, hookEnv), now);
          RenewState(certs, WithoutCertificate(s.log, id), tokens, s.hookLogs + [entry], s.nextLogId + 1, key)
        else RenewState(certs, WithoutCertificate(s.log, id), tokens, s.hookLogs, s.nextLogId, key)
      else RenewState(s.certs[id := ApplyPatch(c, ERROR_PATCH, now)], s.log, tokens, s.hookLogs, s.nextLogId, key)
  }

  /** The state after renewing `todo` in order, the i-th with `runs(i)`. */
  function RenewFold(s: RenewState, todo: seq<Certificate>, env: Environment, generatedKey: Bytes, runs: int -> AcmeRun,
                     exec: (string, Environment) -> ExecResult, now: int): RenewState
    decreases |todo|
  {
    if |todo| == 0 then s
    else
      var n := |todo| - 1;
      RenewStep(RenewFold(s, todo[..n], env, generatedKey, runs, exec, now), todo[n].id, env, generatedKey, runs(n), exec, now)
  }

  /** What each renewal of the pass reports, in order. */
  function OutcomesOf(s: RenewState, todo: seq<Certificate>, env: Environment, generatedKey: Bytes, runs: int -> AcmeRun,
                      exec: (string, Environment) -> ExecResult, now: int): (r: seq<RenewResult>)
    ensures |r| == |todo|
    decreases |todo|
  {
    if |todo| == 0 then []
    else
      var n := |todo| - 1;
      OutcomesOf(s, todo[..n], env, generatedKey, runs, exec, now)
        + [RenewOutcome(RenewFold(s, todo[..n], env, generatedKey, runs, exec, now).certs, todo[n].id, env, runs(n), now)]
  }

  /** The pass neither adds nor removes certificates. */
  lemma {:induction false} RenewFoldKeys(s: RenewState, todo: seq<Certificate>, env: Environment, generatedKey: Bytes,
                                         runs: int -> AcmeRun, exec: (string, Environment) -> ExecResult, now: int)
    ensures RenewFold(s, todo, env, generatedKey, runs, exec, now).certs.Keys == s.certs.Keys
    decreases |todo|
  {
    if |todo| > 0 {
      RenewFoldKeys(s, todo[..|todo| - 1], env, generatedKey, runs, exec, now);
    }
  }

  /**
   * The pass only appends to the hook log, and caches the generated key
   * exactly when no key was cached and some listed certificate exists.
   */
  lemma {:induction false} RenewFoldKeyAndHooks(s: RenewState, todo: seq<Certificate>, env: Environment, generatedKey: Bytes,
                                                runs: int -> AcmeRun, exec: (string, Environment) -> ExecResult, now: int)
    ensures var final := RenewFold(s, todo, env, generatedKey, runs, exec, now);
      && |s.hookLogs| <= |final.hookLogs| && final.hookLogs[..|s.hookLogs|] == s.hookLogs
      && final.nextLogId == s.nextLogId + |final.hookLogs| - |s.hookLogs|
      && (s.key.Some? ==> final.key == s.key)
      && (s.key.None? ==> (final.key == Some(generatedKey) <==> exists c :: c in todo && c.id in s.certs))
      && (s.key.None? ==> (final.key == None <==> !exists c :: c in todo && c.id in s.certs))
    decreases |todo|
  {
    if |todo| > 0 {
      var n := |todo| - 1;
      var prev := RenewFold(s, todo[..n], env, generatedKey, runs, exec, now);
      RenewFoldKeyAndHooks(s, todo[..n], env, generatedKey, runs, exec, now);
      RenewFoldKeys(s, todo[..n], env, generatedKey, runs, exec, now);
      var final := RenewFold(s, todo, env, generatedKey, runs, exec, now);
      assert final.hookLogs[..|prev.hookLogs|] == prev.hookLogs;
      assert final.hookLogs[..|s.hookLogs|] == prev.hookLogs[..|s.hookLogs|];
      assert forall c :: c in todo <==> c in todo[..n] || c == todo[n];
    }
  }

  /** What one step leaves for the certificate it renews. */
  lemma RenewStepOwn(s: RenewState, id: int, env: Environment, generatedKey: Bytes, run: AcmeRun,
                     exec: (string, Environment) -> ExecResult, now: int)
    ensures var next := RenewStep(s, id, env, generatedKey, run, exec, now);
      var out := RenewOutcome(s.certs, id, env, run, now);
      && (id !in s.certs ==> out == RenewResult(false, Some("Certificate not found")) && id !in next.certs)
      && (id in s.certs && out.success ==>
            && id in next.certs && next.certs[id].status == Valid
            && next.certs[id].expiresAt == Some(AddDays(now, VALIDITY_DAYS))
            && (forall r :: r in next.log ==> r.certificateId != id))
      && (id in s.certs && !out.success ==> id in next.certs && next.certs[id].status == Error)
  {
    if id in s.certs {
      var c := s.certs[id];
      var issued := IssueOutcome(RenewConfig(c, env), env, run, now);
      if issued.Issued? {
        PatchChangesExactlyGivenFields(c, IssuedPatch(issued.certificate, issued.privateKey, now, issued.expiresAt), now);
      } else {
        PatchChangesExactlyGivenFields(c, ERROR_PATCH, now);
      }
    }
  }

  /** One step leaves every other certificate, and every other certificate's notifications, as they were. */
  lemma RenewStepFrame(s: RenewState, id: int, env: Environment, generatedKey: Bytes, run: AcmeRun,
                       exec: (string, Environment) -> ExecResult, now: int, other: int)
    requires other != id
    ensures var next := RenewStep(s, id, env, generatedKey, run, exec, now);
      && (other in next.certs <==> other in s.certs)
      && (other in s.certs ==> next.certs[other] == s.certs[other])
      && (forall r :: r in next.log ==> r in s.log)
  {
  }

  /**
   * What the pass leaves for each certificate listed once: an unknown id
   * reports 'Certificate not found'; a renewed certificate is valid,
   * expires 90 days from now and has no notification record left; a found
   * certificate whose renewal failed is marked as errored.
   */
  lemma {:induction false} RenewPassResults(s: RenewState, todo: seq<Certificate>, env: Environment, generatedKey: Bytes,
                                            runs: int -> AcmeRun, exec: (string, Environment) -> ExecResult, now: int, i: int)
    requires 0 <= i < |todo|
    requires forall a, b :: 0 <= a < b < |todo| ==> todo[a].id != todo[b].id
    ensures var final := RenewFold(s, todo, env, generatedKey, runs, exec, now);
      var out := OutcomesOf(s, todo, env, generatedKey, runs, exec, now);
      var id := todo[i].id;
      && (id !in s.certs ==> out[i] == RenewResult(false, Some("Certificate not found")) && id !in final.certs)
      && (id in s.certs && out[i].success ==>
            && id in final.certs && final.certs[id].status == Valid
            && final.certs[id].expiresAt == Some(AddDays(now, VALIDITY_DAYS))
            && (forall r :: r in final.log ==> r.certificateId != id))
      && (id in s.certs && !out[i].success ==> id in final.certs && final.certs[id].status == Error)
    decreases |todo|
  {
    var n := |todo| - 1;
    var prefix := todo[..n];
    var prev := RenewFold(s, prefix, env, generatedKey, runs, exec, now);
    RenewFoldKeys(s, prefix, env, generatedKey, runs, exec, now);
    var id := todo[i].id;
    if i == n {
      RenewStepOwn(prev, id, env, generatedKey, runs(n), exec, now);
    } else {
      assert prefix[i] == todo[i];
      RenewPassResults(s, prefix, env, generatedKey, runs, exec, now, i);
      RenewStepFrame(prev, todo[n].id, env, generatedKey, runs(n), exec, now, id);
    }
  }

  /** Renewing one more certificate of the list extends the pass by one step. */
  lemma RenewFoldSnoc(s: RenewState, todo: seq<Certificate>, env: Environment, generatedKey: Bytes,
                      runs: int -> AcmeRun, exec: (string, Environment) -> ExecResult, now: int, i: int)
    requires 0 <= i < |todo|
    ensures var prev := RenewFold(s, todo[..i], env, generatedKey, runs, exec, now);
      && RenewFold(s, todo[..i + 1], env, generatedKey, runs, exec, now)
         == RenewStep(prev, todo[i].id, env, generatedKey, runs(i), exec, now)
      && OutcomesOf(s, todo[..i + 1], env, generatedKey, runs, exec, now)
         == OutcomesOf(s, todo[..i], env, generatedKey, runs, exec, now) + [RenewOutcome(prev.certs, todo[i].id, env, runs(i), now)]
  {
    assert todo[..i + 1][..i] == todo[..i];
  }

  /**
   * One step of the renew loop: the renewal, and on success the reset of the
   * certificate's notifications.
   */
  method RenewOne(store: Store, cache: AccountKeyCache, cert: Certificate, env: Environment,
                  crypto: Primitives, generatedKey: Bytes, run: AcmeRun,
                  exec: (string, Environment) -> ExecResult, now: int)
    returns (result: RenewResult)
    requires store.Consistent()
    modifies store, cache
    ensures store.Consistent()
    ensures result == RenewOutcome(old(store.certs), cert.id, env, run, now)
    ensures Snapshot(store, cache) == RenewStep(old(Snapshot(store, cache)), cert.id, env, generatedKey, run, exec, now)
  {
    var calls;
    result, calls := RenewCertificate(store, cache, cert.id, env, crypto, generatedKey, run, exec, now);
    if result.success {
      WithoutCertificateIdempotent(old(store.notifications), cert.id);
      ResetNotificationsAfterRenewal(store, cert.id);
    }
  }

  /**
   * The renew loop: each certificate in turn is renewed; a success is listed
   * and its notifications are reset, a failure is listed with its message.
   * `runs(i)` is what the ACME library does on the i-th renewal.
   */
  method RenewAll(store: Store, cache: AccountKeyCache, certsToRenew: seq<Certificate>, env: Environment,
                  crypto: Primitives, generatedKey: Bytes, runs: int -> AcmeRun,
                  exec: (string, Environment) -> ExecResult, now: int)
    returns (renewed: seq<string>, renewFailed: seq<RenewFailure>, outcomes: seq<RenewResult>)
    requires store.Consistent()
    modifies store, cache
    ensures store.Consistent()
    ensures outcomes == OutcomesOf(old(Snapshot(store, cache)), certsToRenew, env, generatedKey, runs, exec, now)
    ensures Snapshot(store, cache) == RenewFold(old(Snapshot(store, cache)), certsToRenew, env, generatedKey, runs, exec, now)
    ensures renewed == Renewed(certsToRenew, outcomes) && renewFailed == Failures(certsToRenew, outcomes)
  {
    ghost var s0 := Snapshot(store, cache);
    renewed, renewFailed, outcomes := [], [], [];
    var i := 0;
    while i < |certsToRenew|
      invariant 0 <= i <= |certsToRenew|
      invariant store.Consistent()
      invariant outcomes == OutcomesOf(s0, certsToRenew[..i], env, generatedKey, runs, exec, now)
      invariant Snapshot(store, cache) == RenewFold(s0, certsToRenew[..i], env, generatedKey, runs, exec, now)
      invariant renewed == Renewed(certsToRenew[..i], outcomes) && renewFailed == Failures(certsToRenew[..i], outcomes)
    {
      renewed, renewFailed, outcomes := RenewNext(store, cache, certsToRenew, i, s0, env, crypto, generatedKey, runs, exec, now,
                                                  renewed, renewFailed, outcomes);
      i := i + 1;
    }
    assert certsToRenew[..i] == certsToRenew;
  }

  /** One turn of the renew loop over `certsToRenew[i]`, extending the pass and its two lists by that renewal. */
  method RenewNext(store: Store, cache: AccountKeyCache, certsToRenew: seq<Certificate>, i: int, ghost s0: RenewState,
                   env: Environment, crypto: Primitives, generatedKey: Bytes, runs: int -> AcmeRun,
                   exec: (string, Environment) -> ExecResult, now: int,
                   renewed: seq<string>, renewFailed: seq<RenewFailure>, outcomes: seq<RenewResult>)
    returns (renewed': seq<string>, renewFailed': seq<RenewFailure>, outcomes': seq<RenewResult>)
    requires 0 <= i < |certsToRenew|
    requires store.Consistent()
    requires outcomes == OutcomesOf(s0, certsToRenew[..i], env, generatedKey, runs, exec, now)
    requires Snapshot(store, cache) == RenewFold(s0, certsToRenew[..i], env, generatedKey, runs, exec, now)
    requires renewed == Renewed(certsToRenew[..i], outcomes) && renewFailed == Failures(certsToRenew[..i], outcomes)
    modifies store, cache
    ensures store.Consistent()
    ensures outcomes' == OutcomesOf(s0, certsToRenew[..i + 1], env, generatedKey, runs, exec, now)
    ensures Snapshot(store, cache) == RenewFold(s0, certsToRenew[..i + 1], env, generatedKey, runs, exec, now)
    ensures renewed' == Renewed(certsToRenew[..i + 1], outcomes') && renewFailed' == Failures(certsToRenew[..i + 1], outcomes')
  {
    var cert := certsToRenew[i];
    RenewFoldSnoc(s0, certsToRenew, env, generatedKey, runs, exec, now, i);
    var result := RenewOne(store, cache, cert, env, crypto, generatedKey, runs(i), exec, now);
    renewed', renewFailed' := renewed, renewFailed;
    if result.success {
      renewed' := renewed + [cert.domain];
    } else {
      renewFailed' := renewFailed + [RenewFailure(cert.domain, FailureMessage(result))];
    }
    PartitionSnoc(certsToRenew[..i], outcomes, cert, result);
    outcomes' := outcomes + [result];
    assert certsToRenew[..i + 1] == certsToRenew[..i] + [cert];
  }

  // ---------------------------------------------------------------------------
  // the notify pass

  /** The notification log after the notify pass over `certs`: one send per certificate with an expiry. */
  function NotifyFold(log: seq<NotificationRecord>, certs: seq<Certificate>, channels: seq<Channel>, env: Environment,
                      deliver: Outgoing -> bool, localeDate: int -> string, now: int): seq<NotificationRecord>
    decreases |certs|
  {
    if |certs| == 0 then log
    else
      var n := |certs| - 1;
      var before := NotifyFold(log, certs[..n], channels, env, deliver, localeDate, now);
      if certs[n].expiresAt.Some? then NotifyEffect(before, certs[n], channels, env, deliver, localeDate, now) else before
  }

  /** A type recorded in a log stays recorded in every extension of it. */
  lemma SentInExtends(log: seq<NotificationRecord>, r: seq<NotificationRecord>, certId: int, t: string)
    requires |log| <= |r| && r[..|log|] == log
    requires SentIn(log, certId, t)
    ensures SentIn(r, certId, t)
  {
    var x :| x in log && x.certificateId == certId && x.notificationType == t;
    var k :| 0 <= k < |log| && log[k] == x;
    assert r[k] == x;
  }

  /**
   * The last step of the pass only appends records of the last certificate,
   * of type `expiry_30d`, and only when it has an expiry; afterwards a due
   * type of it is recorded unless no channel delivers.
   */
  lemma NotifyFoldStep(log: seq<NotificationRecord>, certs: seq<Certificate>, channels: seq<Channel>, env: Environment,
                       deliver: Outgoing -> bool, localeDate: int -> string, now: int)
    requires |certs| > 0
    ensures var n := |certs| - 1;
      var before := NotifyFold(log, certs[..n], channels, env, deliver, localeDate, now);
      var r := NotifyFold(log, certs, channels, env, deliver, localeDate, now);
      var last := certs[n];
      && |before| <= |r| && r[..|before|] == before
      && (forall x :: x in r[|before|..] ==>
            last.expiresAt.Some? && x.certificateId == last.id && x.notificationType == "expiry_30d")
      && SettledFor(r, last, channels, env, deliver, localeDate, now)
  {
    var n := |certs| - 1;
    var before := NotifyFold(log, certs[..n], channels, env, deliver, localeDate, now);
    if certs[n].expiresAt.Some? {
      NotifyEffectAppends(before, certs[n], channels, env, deliver, localeDate, now);
    } else {
      assert NotifyFold(log, certs, channels, env, deliver, localeDate, now)[|before|..] == [];
    }
  }

  /** Two appends in a row, the second only of the last certificate's records, make one append of the listed certificates' records. */
  lemma AppendsCompose(log: seq<NotificationRecord>, before: seq<NotificationRecord>, r: seq<NotificationRecord>, certs: seq<Certificate>)
    requires |certs| > 0
    requires |log| <= |before| && before[..|log|] == log
    requires forall x :: x in before[|log|..] ==>
      x.notificationType == "expiry_30d" && exists c :: c in certs[..|certs| - 1] && c.expiresAt.Some? && c.id == x.certificateId
    requires |before| <= |r| && r[..|before|] == before
    requires forall x :: x in r[|before|..] ==>
      certs[|certs| - 1].expiresAt.Some? && x.certificateId == certs[|certs| - 1].id && x.notificationType == "expiry_30d"
    ensures |log| <= |r| && r[..|log|] == log
    ensures forall x :: x in r[|log|..] ==>
      x.notificationType == "expiry_30d" && exists c :: c in certs && c.expiresAt.Some? && c.id == x.certificateId
  {
    var n := |certs| - 1;
    assert r[..|log|] == before[..|log|];
    assert r[|log|..] == before[|log|..] + r[|before|..];
    forall x | x in r[|log|..]
      ensures x.notificationType == "expiry_30d"
      ensures exists c :: c in certs && c.expiresAt.Some? && c.id == x.certificateId
    {
      if x in before[|log|..] {
        var c :| c in certs[..n] && c.expiresAt.Some? && c.id == x.certificateId;
        assert c in certs;
      } else {
        assert certs[n] in certs;
      }
    }
  }

  /**
   * The pass only appends, and everything it appends is an `expiry_30d`
   * delivery for a listed certificate that has an expiry.
   */
  lemma {:induction false} NotifyFoldAppends(log: seq<NotificationRecord>, certs: seq<Certificate>, channels: seq<Channel>, env: Environment,
                                             deliver: Outgoing -> bool, localeDate: int -> string, now: int)
    ensures var r := NotifyFold(log, certs, channels, env, deliver, localeDate, now);
      && |log| <= |r| && r[..|log|] == log
      && (forall x :: x in r[|log|..] ==>
            x.notificationType == "expiry_30d"
            && exists c :: c in certs && c.expiresAt.Some? && c.id == x.certificateId)
    decreases |certs|
  {
    if |certs| > 0 {
      var n := |certs| - 1;
      NotifyFoldAppends(log, certs[..n], channels, env, deliver, localeDate, now);
      NotifyFoldStep(log, certs, channels, env, deliver, localeDate, now);
      AppendsCompose(log, NotifyFold(log, certs[..n], channels, env, deliver, localeDate, now),
                     NotifyFold(log, certs, channels, env, deliver, localeDate, now), certs);
    }
  }

  /** A certificate is settled in a log when its due type is recorded there, or no channel delivers for it. */
  ghost predicate SettledFor(log: seq<NotificationRecord>, c: Certificate, channels: seq<Channel>, env: Environment,
                             deliver: Outgoing -> bool, localeDate: int -> string, now: int)
  {
    c.expiresAt.Some? && Due(c, now, localeDate).Some? ==>
      SentIn(log, c.id, Due(c, now, localeDate).value.0)
      || Deliveries(c.id, Due(c, now, localeDate).value.0, channels, env, deliver, Due(c, now, localeDate).value.1) == []
  }

  /** Settledness survives appending to the log. */
  lemma SettledForExtends(log: seq<NotificationRecord>, r: seq<NotificationRecord>, c: Certificate, channels: seq<Channel>, env: Environment,
                          deliver: Outgoing -> bool, localeDate: int -> string, now: int)
    requires |log| <= |r| && r[..|log|] == log
    requires SettledFor(log, c, channels, env, deliver, localeDate, now)
    ensures SettledFor(r, c, channels, env, deliver, localeDate, now)
  {
    if c.expiresAt.Some? && Due(c, now, localeDate).Some? && SentIn(log, c.id, Due(c, now, localeDate).value.0) {
      SentInExtends(log, r, c.id, Due(c, now, localeDate).value.0);
    }
  }

  /** Appending to a log keeps every certificate of a list settled, and a settled last one completes the list. */
  lemma SettledAfterStep(before: seq<NotificationRecord>, r: seq<NotificationRecord>, certs: seq<Certificate>,
                         channels: seq<Channel>, env: Environment,
                         deliver: Outgoing -> bool, localeDate: int -> string, now: int)
    requires |certs| > 0
    requires |before| <= |r| && r[..|before|] == before
    requires forall i :: 0 <= i < |certs| - 1 ==> SettledFor(before, certs[i], channels, env, deliver, localeDate, now)
    requires SettledFor(r, certs[|certs| - 1], channels, env, deliver, localeDate, now)
    ensures forall i :: 0 <= i < |certs| ==> SettledFor(r, certs[i], channels, env, deliver, localeDate, now)
  {
    forall i | 0 <= i < |certs| - 1
      ensures SettledFor(r, certs[i], channels, env, deliver, localeDate, now)
    {
      SettledForExtends(before, r, certs[i], channels, env, deliver, localeDate, now);
    }
  }

  /** After the pass, every listed certificate is settled. */
  lemma {:induction false} NotifyFoldSettles(log: seq<NotificationRecord>, certs: seq<Certificate>, channels: seq<Channel>, env: Environment,
                                             deliver: Outgoing -> bool, localeDate: int -> string, now: int)
    ensures forall i :: 0 <= i < |certs| ==>
      SettledFor(NotifyFold(log, certs, channels, env, deliver, localeDate, now), certs[i], channels, env, deliver, localeDate, now)
    decreases |certs|
  {
    if |certs| > 0 {
      var n := |certs| - 1;
      var before := NotifyFold(log, certs[..n], channels, env, deliver, localeDate, now);
      NotifyFoldSettles(log, certs[..n], channels, env, deliver, localeDate, now);
      assert forall i :: 0 <= i < n ==> certs[..n][i] == certs[i];
      NotifyFoldStep(log, certs, channels, env, deliver, localeDate, now);
      SettledAfterStep(before, NotifyFold(log, certs, channels, env, deliver, localeDate, now), certs,
                       channels, env, deliver, localeDate, now);
    }
  }

  /** One send leaves a log in which the certificate is settled as it is. */
  lemma NotifyEffectSettled(log: seq<NotificationRecord>, c: Certificate, channels: seq<Channel>, env: Environment,
                            deliver: Outgoing -> bool, localeDate: int -> string, now: int)
    requires SettledFor(log, c, channels, env, deliver, localeDate, now)
    requires c.expiresAt.Some?
    ensures NotifyEffect(log, c, channels, env, deliver, localeDate, now) == log
  {
    if Due(c, now, localeDate).Some? {
      assert log + [] == log;
    }
  }

  /** A log in which every listed certificate is settled is left as it is by the pass. */
  lemma {:induction false} NotifyFoldSettled(log: seq<NotificationRecord>, certs: seq<Certificate>, channels: seq<Channel>, env: Environment,
                                             deliver: Outgoing -> bool, localeDate: int -> string, now: int)
    requires forall i :: 0 <= i < |certs| ==> SettledFor(log, certs[i], channels, env, deliver, localeDate, now)
    ensures NotifyFold(log, certs, channels, env, deliver, localeDate, now) == log
    decreases |certs|
  {
    if |certs| > 0 {
      var n := |certs| - 1;
      assert forall i :: 0 <= i < n ==> certs[..n][i] == certs[i];
      NotifyFoldSettled(log, certs[..n], channels, env, deliver, localeDate, now);
      if certs[n].expiresAt.Some? {
        NotifyEffectSettled(log, certs[n], channels, env, deliver, localeDate, now);
      }
    }
  }

  /**
   * Running the notify pass a second time, with the same clock and the same
   * delivery results, records nothing new: each certificate is notified at
   * most once per type.
   */
  lemma NotifyPassIdempotent(log: seq<NotificationRecord>, certs: seq<Certificate>, channels: seq<Channel>, env: Environment,
                             deliver: Outgoing -> bool, localeDate: int -> string, now: int)
    ensures var once := NotifyFold(log, certs, channels, env, deliver, localeDate, now);
      NotifyFold(once, certs, channels, env, deliver, localeDate, now) == once
  {
    var once := NotifyFold(log, certs, channels, env, deliver, localeDate, now);
    NotifyFoldSettles(log, certs, channels, env, deliver, localeDate, now);
    NotifyFoldSettled(once, certs, channels, env, deliver, localeDate, now);
  }

  /** The notify loop: every certificate with an expiry date is passed to the notifier and listed. */
  method NotifyAll(store: Store, certs: seq<Certificate>, env: Environment,
                   deliver: Outgoing -> bool, localeDate: int -> string, now: int)
    returns (notified: seq<string>)
    requires store.Consistent()
    modifies store
    ensures store.Consistent()
    ensures store.certs == old(store.certs)
    ensures store.tokens == old(store.tokens) && store.hookLogs == old(store.hookLogs) && store.nextLogId == old(store.nextLogId)
    ensures store.notifications == NotifyFold(old(store.notifications), certs, CHANNELS, env, deliver, localeDate, now)
    ensures notified == DomainsWithExpiry(certs)
  {
    notified := [];
    var i := 0;
    while i < |certs|
      invariant 0 <= i <= |certs|
      invariant store.Consistent()
      invariant store.certs == old(store.certs)
      invariant store.tokens == old(store.tokens) && store.hookLogs == old(store.hookLogs) && store.nextLogId == old(store.nextLogId)
      invariant store.notifications == NotifyFold(old(store.notifications), certs[..i], CHANNELS, env, deliver, localeDate, now)
      invariant notified == DomainsWithExpiry(certs[..i])
    {
      var cert := certs[i];
      if cert.expiresAt.Some? {
        SendExpiryNotification(store, cert, env, deliver, localeDate, now);
        notified := notified + [cert.domain];
      }
      assert certs[..i + 1][..i] == certs[..i];
      i := i + 1;
    }
    assert certs[..i] == certs;
  }

  /** `getAllCertificates`' answer for these rows: each row once, ordered by domain. */
  ghost predicate Listing(order: seq<Certificate>, certs: map<int, Certificate>) {
    && |order| == |certs|
    && (forall k :: k in certs ==> certs[k] in order)
    && (forall c :: c in order ==> c.id in certs && certs[c.id] == c)
    && SortedBy(order, CertDomain)
  }

  /**
   * `POST`. An unauthorized request is answered 401 before anything is
   * touched. Otherwise the renew pass runs over the certificates due, then
   * the notify pass over all records, in domain order, as they stand after
   * the renewals; the response counts the two renewal lists and names every
   * record with an expiry as notified.
   */
  method Post(store: Store, cache: AccountKeyCache, cronSecret: Option<string>, authorization: Option<string>,
              certsToRenew: seq<Certificate>, env: Environment, crypto: Primitives, generatedKey: Bytes,
              runs: int -> AcmeRun, exec: (string, Environment) -> ExecResult,
              deliver: Outgoing -> bool, localeDate: int -> string, now: int)
    returns (resp: SchedulerResponse)
    requires store.Consistent()
    modifies store, cache
    ensures store.Consistent()
    ensures resp.Unauthorized? <==> !Authorized(cronSecret, authorization)
    ensures resp.Unauthorized? ==> unchanged(store) && unchanged(cache)
    ensures resp.Processed? ==>
      var s0 := old(Snapshot(store, cache));
      var outcomes := OutcomesOf(s0, certsToRenew, env, generatedKey, runs, exec, now);
      var afterRenew := RenewFold(s0, certsToRenew, env, generatedKey, runs, exec, now);
      && resp.processedAt == now
      && resp.details.renewed == Renewed(certsToRenew, outcomes)
      && resp.details.renewFailed == Failures(certsToRenew, outcomes)
      && resp.renewed == |resp.details.renewed| && resp.renewFailed == |resp.details.renewFailed|
      && resp.renewed + resp.renewFailed == |certsToRenew|
      && (forall f :: f in resp.details.renewFailed ==> f.error != "")
      && store.certs == afterRenew.certs
      && store.tokens == afterRenew.tokens && store.hookLogs == afterRenew.hookLogs
      && store.nextLogId == afterRenew.nextLogId && cache.key == afterRenew.key
      && store.certs.Keys == old(store.certs).Keys
      && (exists order :: Listing(order, store.certs)
            && resp.details.notified == DomainsWithExpiry(order)
            && store.notifications == NotifyFold(afterRenew.log, order, CHANNELS, env, deliver, localeDate, now))
      && |resp.details.notified| <= |store.certs|
      && (forall k :: k in store.certs && store.certs[k].expiresAt.Some? ==> store.certs[k].domain in resp.details.notified)
      && (forall d :: d in resp.details.notified ==>
            exists k :: k in store.certs && store.certs[k].expiresAt.Some? && store.certs[k].domain == d)
  {
    if !Authorized(cronSecret, authorization) {
      return Unauthorized;
    }
    ghost var s0 := Snapshot(store, cache);
    var renewed, renewFailed, outcomes := RenewAll(store, cache, certsToRenew, env, crypto, generatedKey, runs, exec, now);
    RenewFoldKeys(s0, certsToRenew, env, generatedKey, runs, exec, now);
    PartitionCounts(certsToRenew, outcomes);
    FailuresHaveMessages(certsToRenew, outcomes);
    ghost var logAfterRenew := store.notifications;
    var allCerts := store.GetAllCertificates();
    var notified := NotifyAll(store, allCerts, env, deliver, localeDate, now);
    assert Listing(allCerts, store.certs);
    forall k | k in store.certs && store.certs[k].expiresAt.Some?
      ensures store.certs[k].domain in notified
    {
      assert store.certs[k] in allCerts;
    }
    forall d | d in notified
      ensures exists k :: k in store.certs && store.certs[k].expiresAt.Some? && store.certs[k].domain == d
    {
      var c :| c in allCerts && c.expiresAt.Some? && c.domain == d;
      assert c.id in store.certs && store.certs[c.id] == c;
    }
    resp := Processed(now, |renewed|, |renewFailed|, Details(renewed, renewFailed, notified));
  }
}
