/**
 * The record store: the `certificates`, `challenge_tokens` and `hook_logs`
 * tables held in memory, and the notification log the expiry notifier writes
 * to. Timestamps (`CURRENT_TIMESTAMP`, ISO strings) are integer milliseconds
 * and the caller passes the current time in.
 */
module Db {
  import opened Wrappers
  import opened Strings

  datatype CertStatus = Pending | Valid | Expired | Error

  /** One row of `certificates`. `autoRenew` is the stored integer, 1 or 0. */
  datatype Certificate = Certificate(
    id: int,
    domain: string,
    status: CertStatus,
    issuedAt: Option<int>,
    expiresAt: Option<int>,
    certificate: Option<string>,
    privateKey: Option<string>,
    challengeType: string,
    dnsProvider: Option<string>,
    autoRenew: int,
    hookScript: Option<string>,
    createdAt: int,
    updatedAt: int)

  /** The argument of `createCertificate`; an absent property is `None`. */
  datatype NewCertificate = NewCertificate(
    domain: string,
    challengeType: Option<string>,
    dnsProvider: Option<string>,
    autoRenew: Option<bool>,
    hookScript: Option<string>)

  /**
   * The argument of `updateCertificate`: `None` is a property left
   * `undefined`; for a nullable column `Some(None)` is an explicit null.
   */
  datatype Patch = Patch(
    status: Option<CertStatus>,
    issuedAt: Option<Option<int>>,
    expiresAt: Option<Option<int>>,
    certificate: Option<Option<string>>,
    privateKey: Option<Option<string>>,
    challengeType: Option<string>,
    dnsProvider: Option<Option<string>>,
    autoRenew: Option<bool>,
    hookScript: Option<Option<string>>)

  const NO_CHANGE: Patch := Patch(None, None, None, None, None, None, None, None, None)

  datatype ChallengeToken = ChallengeToken(id: int, domain: string, token: string, keyAuthorization: string, createdAt: int)

  datatype HookLog = HookLog(id: int, certificateId: int, executedAt: int, success: int, output: string)

  /** A notification already delivered: certificate, notification type, channel. */
  datatype NotificationRecord = NotificationRecord(certificateId: int, notificationType: string, channel: string)

  /** `value || fallback` for an optional string: absent and empty both fall back. */
  function OrElse(value: Option<string>, fallback: string): (r: string)
    ensures value.Some? && value.value != "" ==> r == value.value
    ensures value.None? || value.value == "" ==> r == fallback
  {
    if value.Some? && value.value != "" then value.value else fallback
  }

  /** `value || null`. */
  function OrNull(value: Option<string>): (r: Option<string>)
    ensures r.Some? <==> value.Some? && value.value != ""
    ensures r.Some? ==> r == value
  {
    if value.Some? && value.value != "" then value else None
  }

  /** The row `createCertificate` inserts, with the column defaults filled in. */
  function NewRecord(id: int, data: NewCertificate, now: int): Certificate {
    Certificate(id, data.domain, Pending, None, None, None, None,
      OrElse(data.challengeType, "http"), OrNull(data.dnsProvider),
      if data.autoRenew != Some(false) then 1 else 0,
      OrNull(data.hookScript), now, now)
  }

  /**
   * The defaults of a new record: pending, no dates or material, challenge
   * type 'http' unless one is given, auto-renew on unless it is explicitly
   * off, and empty provider and hook stored as null.
   */
  lemma NewRecordDefaults(id: int, data: NewCertificate, now: int)
    ensures var c := NewRecord(id, data, now);
      && c.id == id && c.domain == data.domain && c.status == Pending
      && c.issuedAt == None && c.expiresAt == None && c.certificate == None && c.privateKey == None
      && (data.challengeType.None? || data.challengeType == Some("") ==> c.challengeType == "http")
      && (data.dnsProvider.None? || data.dnsProvider == Some("") ==> c.dnsProvider == None)
      && (c.autoRenew == 0 <==> data.autoRenew == Some(false))
      && (c.autoRenew == 1 <==> data.autoRenew != Some(false))
      && (data.hookScript.None? || data.hookScript == Some("") ==> c.hookScript == None)
      && c.createdAt == now && c.updatedAt == now
  {
  }

  /** The row after `updateCertificate`: each given property overwrites its column. */
  function ApplyPatch(c: Certificate, p: Patch, now: int): Certificate {
    c.(
      status := p.status.GetOr(c.status),
      issuedAt := p.issuedAt.GetOr(c.issuedAt),
      expiresAt := p.expiresAt.GetOr(c.expiresAt),
      certificate := p.certificate.GetOr(c.certificate),
      privateKey := p.privateKey.GetOr(c.privateKey),
      challengeType := p.challengeType.GetOr(c.challengeType),
      dnsProvider := p.dnsProvider.GetOr(c.dnsProvider),
      autoRenew := if p.autoRenew.Some? then (if p.autoRenew.value then 1 else 0) else c.autoRenew,
      hookScript := p.hookScript.GetOr(c.hookScript),
      updatedAt := now)
  }

  /**
   * A column changes only when its property is given, and a given property
   * (null included) is what the column then holds; id, domain and creation
   * time never change and the update time always becomes `now`.
   */
  lemma PatchChangesExactlyGivenFields(c: Certificate, p: Patch, now: int)
    ensures var r := ApplyPatch(c, p, now);
      && r.id == c.id && r.domain == c.domain && r.createdAt == c.createdAt && r.updatedAt == now
      && (if p.status.Some? then r.status == p.status.value else r.status == c.status)
      && (if p.issuedAt.Some? then r.issuedAt == p.issuedAt.value else r.issuedAt == c.issuedAt)
      && (if p.expiresAt.Some? then r.expiresAt == p.expiresAt.value else r.expiresAt == c.expiresAt)
      && (if p.certificate.Some? then r.certificate == p.certificate.value else r.certificate == c.certificate)
      && (if p.privateKey.Some? then r.privateKey == p.privateKey.value else r.privateKey == c.privateKey)
      && (if p.challengeType.Some? then r.challengeType == p.challengeType.value else r.challengeType == c.challengeType)
      && (if p.dnsProvider.Some? then r.dnsProvider == p.dnsProvider.value else r.dnsProvider == c.dnsProvider)
      && (if p.autoRenew.Some? then (r.autoRenew == 1 <==> p.autoRenew.value) && (r.autoRenew == 0 <==> !p.autoRenew.value)
          else r.autoRenew == c.autoRenew)
      && (if p.hookScript.Some? then r.hookScript == p.hookScript.value else r.hookScript == c.hookScript)
  {
  }

  /** An update with no properties only refreshes the update time. */
  lemma EmptyPatchTouchesOnlyUpdatedAt(c: Certificate, now: int)
    ensures ApplyPatch(c, NO_CHANGE, now) == c.(updatedAt := now)
  {
  }

  /** Applying the same update twice is applying it once. */
  lemma PatchIdempotent(c: Certificate, p: Patch, now: int)
    ensures ApplyPatch(ApplyPatch(c, p, now), p, now) == ApplyPatch(c, p, now)
  {
  }

  /** The token rows of other domains, in their order. */
  function WithoutDomain(tokens: seq<ChallengeToken>, domain: string): (r: seq<ChallengeToken>)
    ensures |r| <= |tokens|
    ensures forall t :: t in r <==> t in tokens && t.domain != domain
    decreases |tokens|
  {
    if |tokens| == 0 then []
    else
      var rest := WithoutDomain(tokens[1..], domain);
      assert forall t :: t in tokens <==> t == tokens[0] || t in tokens[1..];
      if tokens[0].domain == domain then rest else [tokens[0]] + rest
  }

  /** The first row carrying `token`, the one `SELECT ... WHERE token = ?` returns in rowid order. */
  function FirstWithToken(tokens: seq<ChallengeToken>, token: string): (r: Option<ChallengeToken>)
    ensures r.Some? ==> r.value in tokens && r.value.token == token
    ensures r.None? <==> forall t :: t in tokens ==> t.token != token
    decreases |tokens|
  {
    if |tokens| == 0 then None
    else if tokens[0].token == token then Some(tokens[0])
    else
      assert forall t :: t in tokens <==> t == tokens[0] || t in tokens[1..];
      FirstWithToken(tokens[1..], token)
  }

  /** The notification log without the given certificate's entries. */
  function WithoutCertificate(records: seq<NotificationRecord>, certId: int): (r: seq<NotificationRecord>)
    ensures forall n :: n in r <==> n in records && n.certificateId != certId
    decreases |records|
  {
    if |records| == 0 then []
    else
      var rest := WithoutCertificate(records[1..], certId);
      assert forall n :: n in records <==> n == records[0] || n in records[1..];
      if records[0].certificateId == certId then rest else [records[0]] + rest
  }

  /** Forgetting a certificate's deliveries twice is forgetting them once. */
  lemma {:induction false} WithoutCertificateIdempotent(records: seq<NotificationRecord>, certId: int)
    ensures WithoutCertificate(WithoutCertificate(records, certId), certId) == WithoutCertificate(records, certId)
    decreases |records|
  {
    if |records| > 0 {
      WithoutCertificateIdempotent(records[1..], certId);
      var rest := WithoutCertificate(records[1..], certId);
      if records[0].certificateId != certId {
        assert ([records[0]] + rest)[1..] == rest;
      }
    }
  }

  /** Whether the notification log holds a delivery of this type for this certificate. */
  predicate SentIn(log: seq<NotificationRecord>, certId: int, notificationType: string) {
    exists n :: n in log && n.certificateId == certId && n.notificationType == notificationType
  }

  function CertDomain(c: Certificate): string { c.domain }

  class Store {
    var certs: map<int, Certificate>
    /** The next AUTOINCREMENT id; ids are never reused. */
    var nextId: int
    var tokens: seq<ChallengeToken>
    var nextTokenId: int
    var hookLogs: seq<HookLog>
    var nextLogId: int
    var notifications: seq<NotificationRecord>

    /** Every row sits under its own id, below the next id, and domains are unique. */
    ghost predicate Consistent()
      reads this
    {
      && (forall k :: k in certs ==> certs[k].id == k && 1 <= k < nextId)
      && (forall a, b :: a in certs && b in certs && a != b ==> certs[a].domain != certs[b].domain)
      && 1 <= nextId && 1 <= nextTokenId && 1 <= nextLogId
    }

    constructor ()
      ensures Consistent()
      ensures certs == map[] && tokens == [] && hookLogs == [] && notifications == []
      ensures nextId == 1
    {
      certs := map[];
      nextId := 1;
      tokens := [];
      nextTokenId := 1;
      hookLogs := [];
      nextLogId := 1;
      notifications := [];
    }

    /** `getCertificate`. */
    function GetCertificate(id: int): (r: Option<Certificate>)
      reads this
      ensures r.Some? <==> id in certs
      ensures r.Some? ==> r.value == certs[id]
    {
      if id in certs then Some(certs[id]) else None
    }

    /**
     * `createCertificate`: inserts a row with the defaults under a fresh id
     * and returns it; a domain that already has a row violates the UNIQUE
     * constraint and nothing is inserted.
     */
    method CreateCertificate(data: NewCertificate, now: int) returns (r: Result<Certificate, string>)
      requires Consistent()
      modifies this
      ensures Consistent()
      ensures r.Err? <==> exists k :: k in old(certs) && old(certs)[k].domain == data.domain
      ensures r.Err? ==> r.error == "UNIQUE constraint failed: certificates.domain" && unchanged(this)
      ensures r.Ok? ==>
        && r.value == NewRecord(old(nextId), data, now)
        && certs == old(certs)[old(nextId) := r.value]
        && nextId == old(nextId) + 1
        && tokens == old(tokens) && hookLogs == old(hookLogs) && notifications == old(notifications)
        && nextTokenId == old(nextTokenId) && nextLogId == old(nextLogId)
    {
      if exists k :: k in certs && certs[k].domain == data.domain {
        return Err("UNIQUE constraint failed: certificates.domain");
      }
      var c := NewRecord(nextId, data, now);
      certs := certs[nextId := c];
      nextId := nextId + 1;
      r := Ok(c);
    }

    /**
     * `updateCertificate`: sets the columns whose property is given, always
     * refreshes `updated_at`, and returns the row as it now is; an unknown id
     * changes nothing and returns nothing.
     */
    method UpdateCertificate(id: int, p: Patch, now: int) returns (r: Option<Certificate>)
      requires Consistent()
      modifies this
      ensures Consistent()
      ensures id !in old(certs) ==> r == None && certs == old(certs)
      ensures id in old(certs) ==>
        r == Some(ApplyPatch(old(certs)[id], p, now)) && certs == old(certs)[id := r.value]
      ensures nextId == old(nextId) && tokens == old(tokens) && hookLogs == old(hookLogs)
      ensures notifications == old(notifications)
      ensures nextTokenId == old(nextTokenId) && nextLogId == old(nextLogId)
    {
      if id !in certs {
        return None;
      }
      var c := ApplyPatch(certs[id], p, now);
      certs := certs[id := c];
      r := Some(c);
    }

    /**
     * `deleteCertificate`: the row goes; other rows and tables stay. A hook
     * log naming the certificate holds a FOREIGN KEY on it, so then the
     * statement fails and nothing is deleted.
     */
    method DeleteCertificate(id: int) returns (r: Result<(), string>)
      requires Consistent()
      modifies this
      ensures Consistent()
      ensures r.Err? <==> id in old(certs) && exists l :: l in old(hookLogs) && l.certificateId == id
      ensures r.Err? ==> r.error == "FOREIGN KEY constraint failed" && certs == old(certs)
      ensures r.Ok? ==> certs == old(certs) - {id}
      ensures nextId == old(nextId) && tokens == old(tokens) && hookLogs == old(hookLogs)
      ensures notifications == old(notifications)
      ensures nextTokenId == old(nextTokenId) && nextLogId == old(nextLogId)
    {
      if id in certs && exists l :: l in hookLogs && l.certificateId == id {
        return Err("FOREIGN KEY constraint failed");
      }
      certs := certs - {id};
      r := Ok(());
    }

    /**
     * `getAllCertificates`: every row, ordered by domain. Domains are unique,
     * so the order is strict.
     */
    method GetAllCertificates() returns (r: seq<Certificate>)
      requires Consistent()
      ensures |r| == |certs|
      ensures forall k :: k in certs ==> certs[k] in r
      ensures forall c :: c in r ==> c.id in certs && certs[c.id] == c
      ensures SortedBy(r, CertDomain)
    {
      r := [];
      var done: set<int> := {};
      var remaining := certs.Keys;
      while remaining != {}
        invariant remaining == certs.Keys - done
        invariant done <= certs.Keys
        invariant |r| == |done|
        invariant forall c :: c in r <==> exists k :: k in done && certs[k] == c
        invariant SortedBy(r, CertDomain)
        decreases |remaining|
      {
        assert exists x :: x in remaining by {
          MemberOfNonEmpty(remaining);
        }
        var k :| k in remaining;
        var c := certs[k];
        forall j | j in done
          ensures certs[j] != c
        {
          assert certs[j].id == j != k == c.id;
        }
        InsertBySorted(c, r, CertDomain);
        var r' := InsertBy(c, r, CertDomain);
        assert forall x :: x in r' <==> x in r || x == c by {
          assert forall x :: x in r' <==> x in multiset(r');
        }
        r := r';
        done := done + {k};
        remaining := remaining - {k};
      }
      assert done == certs.Keys;
    }

    /** `saveChallengeToken`: appends a row; tokens of the same domain accumulate. */
    method SaveChallengeToken(domain: string, token: string, keyAuthorization: string, now: int)
      requires Consistent()
      modifies this
      ensures Consistent()
      ensures tokens == old(tokens) + [ChallengeToken(old(nextTokenId), domain, token, keyAuthorization, now)]
      ensures nextTokenId == old(nextTokenId) + 1
      ensures certs == old(certs) && nextId == old(nextId) && hookLogs == old(hookLogs)
      ensures notifications == old(notifications) && nextLogId == old(nextLogId)
    {
      tokens := tokens + [ChallengeToken(nextTokenId, domain, token, keyAuthorization, now)];
      nextTokenId := nextTokenId + 1;
    }

    /** `getChallengeToken`: a row carrying the token, if any. */
    function GetChallengeToken(token: string): (r: Option<ChallengeToken>)
      reads this
      ensures r.Some? ==> r.value in tokens && r.value.token == token
      ensures r.None? <==> forall t :: t in tokens ==> t.token != token
    {
      FirstWithToken(tokens, token)
    }

    /** `deleteChallengeTokens`: every row of the domain goes, and only those. */
    method DeleteChallengeTokens(domain: string)
      requires Consistent()
      modifies this
      ensures Consistent()
      ensures tokens == WithoutDomain(old(tokens), domain)
      ensures nextTokenId == old(nextTokenId)
      ensures certs == old(certs) && nextId == old(nextId) && hookLogs == old(hookLogs)
      ensures notifications == old(notifications) && nextLogId == old(nextLogId)
    {
      tokens := WithoutDomain(tokens, domain);
    }

    /** `logHookExecution`: appends one entry, success stored as 1 or 0. */
    method LogHookExecution(certificateId: int, success: bool, output: string, now: int)
      requires Consistent()
      modifies this
      ensures Consistent()
      ensures hookLogs == old(hookLogs) + [HookLog(old(nextLogId), certificateId, now, if success then 1 else 0, output)]
      ensures nextLogId == old(nextLogId) + 1
      ensures certs == old(certs) && nextId == old(nextId) && tokens == old(tokens)
      ensures notifications == old(notifications) && nextTokenId == old(nextTokenId)
    {
      hookLogs := hookLogs + [HookLog(nextLogId, certificateId, now, if success then 1 else 0, output)];
      nextLogId := nextLogId + 1;
    }

    /** `hasNotificationBeenSent`: some channel delivered this type for this certificate. */
    predicate HasNotificationBeenSent(certId: int, notificationType: string)
      reads this
    {
      SentIn(notifications, certId, notificationType)
    }

    /** `recordNotification`: appends one delivery. */
    method RecordNotification(certId: int, notificationType: string, channel: string)
      requires Consistent()
      modifies this
      ensures Consistent()
      ensures notifications == old(notifications) + [NotificationRecord(certId, notificationType, channel)]
      ensures certs == old(certs) && nextId == old(nextId) && tokens == old(tokens) && hookLogs == old(hookLogs)
      ensures nextTokenId == old(nextTokenId) && nextLogId == old(nextLogId)
    {
      notifications := notifications + [NotificationRecord(certId, notificationType, channel)];
    }

    /** `clearNotificationsForCertificate`: forgets the certificate's deliveries, keeps the others. */
    method ClearNotificationsForCertificate(certId: int)
      requires Consistent()
      modifies this
      ensures Consistent()
      ensures notifications == WithoutCertificate(old(notifications), certId)
      ensures forall t :: !HasNotificationBeenSent(certId, t)
      ensures certs == old(certs) && nextId == old(nextId) && tokens == old(tokens) && hookLogs == old(hookLogs)
      ensures nextTokenId == old(nextTokenId) && nextLogId == old(nextLogId)
    {
      notifications := WithoutCertificate(notifications, certId);
    }
  }

  lemma MemberOfNonEmpty(s: set<int>)
    ensures s == {} || exists x :: x in s
  {
    if !exists x :: x in s {
      assert s == {};
    }
  }

  /** After deleting a domain's tokens, no lookup finds a row of that domain, and other domains keep theirs. */
  lemma DeleteTokensExact(tokens: seq<ChallengeToken>, domain: string, token: string)
    ensures var r := FirstWithToken(WithoutDomain(tokens, domain), token);
      r.Some? ==> r.value.domain != domain
    ensures (exists t :: t in tokens && t.token == token && t.domain != domain) ==>
      FirstWithToken(WithoutDomain(tokens, domain), token).Some?
  {
  }

  /** Saving then deleting a domain's tokens leaves the other domains' rows as they were. */
  lemma {:induction false} SaveThenDelete(tokens: seq<ChallengeToken>, t: ChallengeToken)
    ensures WithoutDomain(tokens + [t], t.domain) == WithoutDomain(tokens, t.domain)
    decreases |tokens|
  {
    if |tokens| == 0 {
      assert WithoutDomain([t], t.domain) == WithoutDomain([t][1..], t.domain);
    } else {
      SaveThenDelete(tokens[1..], t);
      assert (tokens + [t])[1..] == tokens[1..] + [t];
    }
  }
}
