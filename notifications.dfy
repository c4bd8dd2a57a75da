/**
 * Expiry notifications: the threshold that names a notification, the
 * message, the three delivery channels and what each needs from the
 * environment, and the de-duplicated send that records every channel that
 * delivered. Whether a configured channel's delivery succeeds (SMTP, an
 * HTTP POST) is an input: `deliver` says it for each outgoing request.
 */
module Notifications {
  import opened Wrappers
  import opened Env
  import opened Clock
  import opened Strings
  import opened Db

  /** Days before expiry at which a notification is due, largest first. */
  const NOTIFICATION_THRESHOLDS: seq<int> := [30, 14, 7, 3, 1]

  /** The decimal text of an integer, as a template literal renders it. */
  function IntToString(n: int): (r: string)
    ensures |r| >= 1
    ensures n < 0 <==> r[0] == '-'
  {
    if n < 0 then "-" + NatToString(-n) else NatToString(n)
  }

  /** `expiry_${threshold}d`. */
  function NotificationTypeName(threshold: int): string {
    "expiry_" + IntToString(threshold) + "d"
  }

  /** The first threshold, in list order, that `days` does not exceed. */
  function FirstCrossed(thresholds: seq<int>, days: int): (r: Option<int>)
    ensures r.None? <==> forall i :: 0 <= i < |thresholds| ==> days > thresholds[i]
    ensures r.Some? ==> exists i :: 0 <= i < |thresholds| && thresholds[i] == r.value && days <= r.value
                          && forall j :: 0 <= j < i ==> days > thresholds[j]
    decreases |thresholds|
  {
    if |thresholds| == 0 then None
    else if days <= thresholds[0] then Some(thresholds[0])
    else
      var r := FirstCrossed(thresholds[1..], days);
      assert forall i :: 1 <= i < |thresholds| ==> thresholds[i] == thresholds[1..][i - 1];
      if r.Some? then
        var i :| 0 <= i < |thresholds[1..]| && thresholds[1..][i] == r.value && days <= r.value
                  && forall j :: 0 <= j < i ==> days > thresholds[1..][j];
        assert thresholds[i + 1] == r.value;
        r
      else r
  }

  /**
   * `getNotificationType`: walks the thresholds in order and names the
   * first one that `days` does not exceed.
   */
  method GetNotificationType(days: int) returns (r: Option<string>)
    ensures r.None? <==> FirstCrossed(NOTIFICATION_THRESHOLDS, days).None?
    ensures r.Some? ==> r.value == NotificationTypeName(FirstCrossed(NOTIFICATION_THRESHOLDS, days).value)
  {
    var i := 0;
    while i < |NOTIFICATION_THRESHOLDS|
      invariant 0 <= i <= |NOTIFICATION_THRESHOLDS|
      invariant FirstCrossed(NOTIFICATION_THRESHOLDS, days) == FirstCrossed(NOTIFICATION_THRESHOLDS[i..], days)
    {
      var threshold := NOTIFICATION_THRESHOLDS[i];
      if days <= threshold {
        return Some(NotificationTypeName(threshold));
      }
      assert NOTIFICATION_THRESHOLDS[i..][1..] == NOTIFICATION_THRESHOLDS[i + 1..];
      i := i + 1;
    }
    return None;
  }

  /**
   * Because the list starts at its largest threshold, the first one crossed
   * is always 30: any certificate within 30 days of expiry, or already
   * expired, gets `expiry_30d`, and the 14, 7, 3 and 1 day types never occur.
   */
  lemma OnlyThirtyDayType(days: int)
    ensures FirstCrossed(NOTIFICATION_THRESHOLDS, days) == (if days <= 30 then Some(30) else None)
    ensures forall t :: t in NOTIFICATION_THRESHOLDS && t != 30 ==> FirstCrossed(NOTIFICATION_THRESHOLDS, days) != Some(t)
  {
    if days > 30 {
      assert forall i :: 0 <= i < |NOTIFICATION_THRESHOLDS| ==> NOTIFICATION_THRESHOLDS[i] <= 30;
    }
  }

  lemma ThirtyDayTypeName()
    ensures NotificationTypeName(30) == "expiry_30d"
  {
    assert NatToString(3) == "3";
    assert NatToString(30) == NatToString(3) + [DigitChar(0)];
    assert NatToString(30) == "30";
  }

  /** `getDaysUntilExpiry`: whole days from `now` to the expiry, rounded down. */
  function GetDaysUntilExpiry(expiresAt: int, now: int): (d: int)
    ensures d * MS_PER_DAY <= expiresAt - now < (d + 1) * MS_PER_DAY
  {
    DaysUntil(expiresAt, now)
  }

  datatype NotificationMessage = NotificationMessage(
    title: string, body: string, domain: string, daysUntilExpiry: int, expiresAt: int)

  /**
   * The message about a certificate. `localeDate` stands for
   * `toLocaleDateString`, which depends on the host's locale.
   */
  function ExpiryMessage(domain: string, days: int, expiresAt: int, localeDate: int -> string): (m: NotificationMessage)
    ensures m.title == "Certificate Expiring: " + domain
    ensures m.domain == domain && m.daysUntilExpiry == days && m.expiresAt == expiresAt
  {
    NotificationMessage(
      "Certificate Expiring: " + domain,
      "Your SSL certificate for " + domain + " will expire in " + IntToString(days)
        + (if days == 1 then " day" else " days") + " (" + localeDate(expiresAt) + ").",
      domain, days, expiresAt)
  }

  /** The unit is singular exactly for one day. */
  lemma MessagePlural(domain: string, days: int, expiresAt: int, localeDate: int -> string)
    ensures var body := ExpiryMessage(domain, days, expiresAt, localeDate).body;
      var prefix := "Your SSL certificate for " + domain + " will expire in " + IntToString(days);
      && body[..|prefix|] == prefix
      && (days == 1 <==> body[|prefix|..|prefix| + 5] == " day ")
  {
    var prefix := "Your SSL certificate for " + domain + " will expire in " + IntToString(days);
    var rest := " (" + localeDate(expiresAt) + ").";
    var body := ExpiryMessage(domain, days, expiresAt, localeDate).body;
    if days == 1 {
      assert body == prefix + " day" + rest;
      assert body[|prefix|..|prefix| + 5] == " day" + [rest[0]];
    } else {
      assert body == prefix + " days" + rest;
      assert body[|prefix|..|prefix| + 5] == " days";
      assert body[|prefix| + 4] == 's' != ' ';
    }
  }

  datatype Channel = Email | Webhook | Telegram

  /** `channels`, in the order they are tried. */
  const CHANNELS: seq<Channel> := [Email, Webhook, Telegram]

  /** The channel's `name`, as it is recorded. */
  function ChannelName(c: Channel): (s: string)
    ensures c == Email <==> s == "email"
    ensures c == Webhook <==> s == "webhook"
    ensures c == Telegram <==> s == "telegram"
  {
    match c
    case Email => "email"
    case Webhook => "webhook"
    case Telegram => "telegram"
  }

  /** The variables a channel checks before sending; it skips when any is unset or empty. */
  function RequiredVariables(c: Channel): seq<string> {
    match c
    case Email => ["SMTP_HOST", "SMTP_USER", "SMTP_PASS", "NOTIFY_EMAIL"]
    case Webhook => ["NOTIFY_WEBHOOK_URL"]
    case Telegram => ["TELEGRAM_BOT_TOKEN", "TELEGRAM_CHAT_ID"]
  }

  predicate Configured(c: Channel, env: Environment) {
    forall i :: 0 <= i < |RequiredVariables(c)| ==> IsSet(env, RequiredVariables(c)[i])
  }

  /** The configuration test of each channel, variable by variable. */
  lemma ConfiguredExactly(env: Environment)
    ensures Configured(Email, env) <==>
      IsSet(env, "SMTP_HOST") && IsSet(env, "SMTP_USER") && IsSet(env, "SMTP_PASS") && IsSet(env, "NOTIFY_EMAIL")
    ensures Configured(Webhook, env) <==> IsSet(env, "NOTIFY_WEBHOOK_URL")
    ensures Configured(Telegram, env) <==> IsSet(env, "TELEGRAM_BOT_TOKEN") && IsSet(env, "TELEGRAM_CHAT_ID")
  {
    assert RequiredVariables(Email)[0] == "SMTP_HOST" && RequiredVariables(Email)[1] == "SMTP_USER";
    assert RequiredVariables(Email)[2] == "SMTP_PASS" && RequiredVariables(Email)[3] == "NOTIFY_EMAIL";
    assert RequiredVariables(Webhook)[0] == "NOTIFY_WEBHOOK_URL";
    assert RequiredVariables(Telegram)[0] == "TELEGRAM_BOT_TOKEN" && RequiredVariables(Telegram)[1] == "TELEGRAM_CHAT_ID";
  }

  /** The body of the webhook POST, field by field. */
  datatype WebhookEvent = WebhookEvent(event: string, domain: string, daysUntilExpiry: int,
                                       expiresAt: int, title: string, body: string)

  /** What a configured channel hands to the outside world. */
  datatype Outgoing =
    | Mail(host: string, port: string, secure: bool, user: string, pass: string,
           from: string, to: string, subject: string, text: string, html: string)
    | PostWebhook(url: string, payload: WebhookEvent)
    | PostTelegram(url: string, chatId: string, text: string, parseMode: string)

  /** The request a channel makes for a message, from the environment's values. */
  function Request(c: Channel, env: Environment, m: NotificationMessage): (o: Outgoing)
    ensures c == Email ==> o.Mail? && o.subject == m.title && o.text == m.body
                           && (o.secure <==> o.port == "465") && o.from == o.user
    ensures c == Webhook ==> o.PostWebhook? && o.payload.event == "certificate_expiring"
                             && o.payload.domain == m.domain && o.payload.daysUntilExpiry == m.daysUntilExpiry
    ensures c == Telegram ==> o.PostTelegram? && o.parseMode == "Markdown"
  {
    match c
    case Email =>
      var port := GetOr(env, "SMTP_PORT", "587");
      Mail(GetOr(env, "SMTP_HOST", ""), port, port == "465", GetOr(env, "SMTP_USER", ""),
           GetOr(env, "SMTP_PASS", ""), GetOr(env, "SMTP_USER", ""), GetOr(env, "NOTIFY_EMAIL", ""),
           m.title, m.body, "<h2>" + m.title + "</h2><p>" + m.body + "</p>")
    case Webhook =>
      PostWebhook(GetOr(env, "NOTIFY_WEBHOOK_URL", ""),
        WebhookEvent("certificate_expiring", m.domain, m.daysUntilExpiry, m.expiresAt, m.title, m.body))
    case Telegram =>
      PostTelegram("https://api.telegram.org/bot" + GetOr(env, "TELEGRAM_BOT_TOKEN", "") + "/sendMessage",
        GetOr(env, "TELEGRAM_CHAT_ID", ""), "\U{1F514} *" + m.title + "*\n\n" + m.body, "Markdown")
  }

  /**
   * `channel.send`: false without configuration (nothing goes out);
   * otherwise whether the delivery succeeded (`deliver` covers a missing
   * mailer, a thrown error and a non-ok response alike).
   */
  function Send(c: Channel, env: Environment, deliver: Outgoing -> bool, m: NotificationMessage): (sent: bool)
    ensures sent ==> Configured(c, env)
    ensures Configured(c, env) ==> (sent <==> deliver(Request(c, env, m)))
  {
    Configured(c, env) && deliver(Request(c, env, m))
  }

  /** The records the send loop appends: one per channel that delivered, in channel order. */
  function Deliveries(certId: int, notificationType: string, channels: seq<Channel>,
                      env: Environment, deliver: Outgoing -> bool, m: NotificationMessage): (r: seq<NotificationRecord>)
    ensures |r| <= |channels|
    decreases |channels|
  {
    if |channels| == 0 then []
    else
      var last := channels[|channels| - 1];
      Deliveries(certId, notificationType, channels[..|channels| - 1], env, deliver, m)
        + (if Send(last, env, deliver, m) then [NotificationRecord(certId, notificationType, ChannelName(last))] else [])
  }

  /**
   * The records name the certificate and the type, and their channels are
   * exactly the channels that delivered.
   */
  lemma {:induction false} DeliveriesExactly(certId: int, notificationType: string, channels: seq<Channel>,
                                             env: Environment, deliver: Outgoing -> bool, m: NotificationMessage)
    ensures var r := Deliveries(certId, notificationType, channels, env, deliver, m);
      && (forall n :: n in r ==> n.certificateId == certId && n.notificationType == notificationType)
      && (forall c :: c in channels && Send(c, env, deliver, m) ==>
            NotificationRecord(certId, notificationType, ChannelName(c)) in r)
      && (forall n :: n in r ==> exists c :: c in channels && Send(c, env, deliver, m) && n.channel == ChannelName(c))
    decreases |channels|
  {
    if |channels| > 0 {
      var init := channels[..|channels| - 1];
      var last := channels[|channels| - 1];
      DeliveriesExactly(certId, notificationType, init, env, deliver, m);
      assert forall c :: c in channels <==> c in init || c == last;
    }
  }

  /** Nothing is recorded exactly when no channel delivered. */
  lemma NoDeliveryNoRecords(certId: int, notificationType: string, channels: seq<Channel>, env: Environment,
                            deliver: Outgoing -> bool, m: NotificationMessage)
    ensures Deliveries(certId, notificationType, channels, env, deliver, m) == [] <==>
      forall c :: c in channels ==> !Send(c, env, deliver, m)
  {
    var r := Deliveries(certId, notificationType, channels, env, deliver, m);
    DeliveriesExactly(certId, notificationType, channels, env, deliver, m);
    if r != [] {
      assert r[0] in r;
    }
  }

  /** The notification due for a certificate now, if any: the type and the message. */
  function Due(cert: Certificate, now: int, localeDate: int -> string): Option<(string, NotificationMessage)> {
    match cert.expiresAt
    case None => None
    case Some(expiry) =>
      var days := GetDaysUntilExpiry(expiry, now);
      match FirstCrossed(NOTIFICATION_THRESHOLDS, days)
      case None => None
      case Some(t) => Some((NotificationTypeName(t), ExpiryMessage(cert.domain, days, expiry, localeDate)))
  }

  /** A notification is due exactly for a certificate that expires within 30 days, or has expired. */
  lemma DueWithinThirtyDays(cert: Certificate, now: int, localeDate: int -> string)
    ensures Due(cert, now, localeDate).Some? <==>
      cert.expiresAt.Some? && cert.expiresAt.value < now + 31 * MS_PER_DAY
    ensures Due(cert, now, localeDate).Some? ==> Due(cert, now, localeDate).value.0 == "expiry_30d"
  {
    if cert.expiresAt.Some? {
      var d := GetDaysUntilExpiry(cert.expiresAt.value, now);
      OnlyThirtyDayType(d);
      ThirtyDayTypeName();
      if d <= 30 {
        assert (d + 1) * MS_PER_DAY <= 31 * MS_PER_DAY;
      } else {
        assert d * MS_PER_DAY >= 31 * MS_PER_DAY;
      }
    }
  }

  /**
   * What `sendExpiryNotification` does to the notification log: nothing when
   * no notification is due or its type is already recorded for the
   * certificate; otherwise one record per channel that delivered.
   */
  function NotifyEffect(log: seq<NotificationRecord>, cert: Certificate, channels: seq<Channel>, env: Environment,
                        deliver: Outgoing -> bool, localeDate: int -> string, now: int): seq<NotificationRecord>
  {
    var due := Due(cert, now, localeDate);
    if due.None? || SentIn(log, cert.id, due.value.0) then log
    else log + Deliveries(cert.id, due.value.0, channels, env, deliver, due.value.1)
  }

  /**
   * Sending is idempotent: once a send has run, the same send again (same
   * clock, same delivery results) records nothing new, whether or not any
   * channel delivered the first time.
   */
  lemma NotifyEffectIdempotent(log: seq<NotificationRecord>, cert: Certificate, channels: seq<Channel>, env: Environment,
                               deliver: Outgoing -> bool, localeDate: int -> string, now: int)
    ensures var once := NotifyEffect(log, cert, channels, env, deliver, localeDate, now);
      NotifyEffect(once, cert, channels, env, deliver, localeDate, now) == once
  {
    var due := Due(cert, now, localeDate);
    if due.Some? && !SentIn(log, cert.id, due.value.0) {
      var delivered := Deliveries(cert.id, due.value.0, channels, env, deliver, due.value.1);
      if delivered != [] {
        DeliveriesExactly(cert.id, due.value.0, channels, env, deliver, due.value.1);
        assert delivered[0] in log + delivered;
      } else {
        assert log + delivered == log;
      }
    }
  }

  /**
   * One send only appends, what it appends are `expiry_30d` records of the
   * certificate, and afterwards a due type is recorded unless no channel
   * delivers.
   */
  lemma NotifyEffectAppends(log: seq<NotificationRecord>, cert: Certificate, channels: seq<Channel>, env: Environment,
                            deliver: Outgoing -> bool, localeDate: int -> string, now: int)
    ensures var r := NotifyEffect(log, cert, channels, env, deliver, localeDate, now);
      && |log| <= |r| && r[..|log|] == log
      && (forall x :: x in r[|log|..] ==> x.certificateId == cert.id && x.notificationType == "expiry_30d")
      && (Due(cert, now, localeDate).Some? ==>
            var due := Due(cert, now, localeDate).value;
            SentIn(r, cert.id, due.0) || Deliveries(cert.id, due.0, channels, env, deliver, due.1) == [])
  {
    var r := NotifyEffect(log, cert, channels, env, deliver, localeDate, now);
    var due := Due(cert, now, localeDate);
    if due.Some? {
      DueWithinThirtyDays(cert, now, localeDate);
      var delivered := Deliveries(cert.id, due.value.0, channels, env, deliver, due.value.1);
      DeliveriesExactly(cert.id, due.value.0, channels, env, deliver, due.value.1);
      if !SentIn(log, cert.id, due.value.0) {
        assert r[|log|..] == delivered;
        if delivered != [] {
          assert delivered[0] in r;
        }
      }
    }
  }

  /**
   * `sendExpiryNotification`: nothing happens for a certificate without an
   * expiry, one not yet due, or one whose due type was already recorded.
   * Otherwise each channel is tried in order and every channel that
   * delivered is recorded under the type.
   */
  method SendExpiryNotification(store: Store, cert: Certificate, env: Environment,
                                deliver: Outgoing -> bool, localeDate: int -> string, now: int)
    requires store.Consistent()
    modifies store
    ensures store.Consistent()
    ensures store.certs == old(store.certs) && store.tokens == old(store.tokens) && store.hookLogs == old(store.hookLogs)
    ensures store.nextLogId == old(store.nextLogId)
    ensures var due := Due(cert, now, localeDate);
      if due.None? || old(store.HasNotificationBeenSent(cert.id, due.value.0))
      then store.notifications == old(store.notifications)
      else store.notifications == old(store.notifications)
             + Deliveries(cert.id, due.value.0, CHANNELS, env, deliver, due.value.1)
    ensures store.notifications == NotifyEffect(old(store.notifications), cert, CHANNELS, env, deliver, localeDate, now)
  {
    if cert.expiresAt.None? {
      return;
    }
    var days := GetDaysUntilExpiry(cert.expiresAt.value, now);
    var notificationType := GetNotificationType(days);
    if notificationType.None? {
      return;
    }
    if store.HasNotificationBeenSent(cert.id, notificationType.value) {
      return;
    }
    var message := ExpiryMessage(cert.domain, days, cert.expiresAt.value, localeDate);
    assert Due(cert, now, localeDate) == Some((notificationType.value, message));
    SendToChannels(store, cert.id, notificationType.value, env, deliver, message);
  }

  /** The send loop: each channel in order, recording every one that delivered. */
  method SendToChannels(store: Store, certId: int, notificationType: string, env: Environment,
                        deliver: Outgoing -> bool, message: NotificationMessage)
    requires store.Consistent()
    modifies store
    ensures store.Consistent()
    ensures store.certs == old(store.certs) && store.tokens == old(store.tokens) && store.hookLogs == old(store.hookLogs)
    ensures store.nextLogId == old(store.nextLogId)
    ensures store.notifications == old(store.notifications) + Deliveries(certId, notificationType, CHANNELS, env, deliver, message)
  {
    var i := 0;
    while i < |CHANNELS|
      invariant 0 <= i <= |CHANNELS|
      invariant store.Consistent()
      invariant store.nextLogId == old(store.nextLogId)
      invariant store.certs == old(store.certs) && store.tokens == old(store.tokens) && store.hookLogs == old(store.hookLogs)
      invariant store.notifications == old(store.notifications) + Deliveries(certId, notificationType, CHANNELS[..i], env, deliver, message)
    {
      var channel := CHANNELS[i];
      var sent := Send(channel, env, deliver, message);
      if sent {
        store.RecordNotification(certId, notificationType, ChannelName(channel));
      }
      assert CHANNELS[..i + 1][..i] == CHANNELS[..i];
      i := i + 1;
    }
    assert CHANNELS[..i] == CHANNELS;
  }

  /** `resetNotificationsAfterRenewal`: every type becomes due again for the certificate. */
  method ResetNotificationsAfterRenewal(store: Store, certId: int)
    requires store.Consistent()
    modifies store
    ensures store.Consistent()
    ensures store.notifications == WithoutCertificate(old(store.notifications), certId)
    ensures forall t :: !store.HasNotificationBeenSent(certId, t)
    ensures forall other, t :: other != certId ==>
      (store.HasNotificationBeenSent(other, t) <==> old(store.HasNotificationBeenSent(other, t)))
    ensures store.certs == old(store.certs) && store.tokens == old(store.tokens) && store.hookLogs == old(store.hookLogs)
    ensures store.nextLogId == old(store.nextLogId)
  {
    store.ClearNotificationsForCertificate(certId);
  }

  /**
   * Sending twice in a row: the log ends as one send leaves it, and once any
   * channel has delivered the type counts as sent, so each certificate is
   * notified at most once per type.
   */
  method SendTwice(store: Store, cert: Certificate, env: Environment,
                   deliver: Outgoing -> bool, localeDate: int -> string, now: int)
    requires store.Consistent()
    requires Due(cert, now, localeDate).Some?
    requires Deliveries(cert.id, Due(cert, now, localeDate).value.0, CHANNELS, env, deliver, Due(cert, now, localeDate).value.1) != []
    modifies store
    ensures store.HasNotificationBeenSent(cert.id, Due(cert, now, localeDate).value.0)
    ensures store.notifications == NotifyEffect(old(store.notifications), cert, CHANNELS, env, deliver, localeDate, now)
    ensures !old(store.HasNotificationBeenSent(cert.id, Due(cert, now, localeDate).value.0)) ==>
      store.notifications == old(store.notifications)
        + Deliveries(cert.id, Due(cert, now, localeDate).value.0, CHANNELS, env, deliver, Due(cert, now, localeDate).value.1)
  {
    SendExpiryNotification(store, cert, env, deliver, localeDate, now);
    ghost var afterFirst := store.notifications;
    var due := Due(cert, now, localeDate).value;
    var delivered := Deliveries(cert.id, due.0, CHANNELS, env, deliver, due.1);
    DeliveriesExactly(cert.id, due.0, CHANNELS, env, deliver, due.1);
    assert store.HasNotificationBeenSent(cert.id, due.0) by {
      if !old(store.HasNotificationBeenSent(cert.id, due.0)) {
        assert delivered[0] in delivered;
        assert delivered[0] in store.notifications;
      }
    }
    SendExpiryNotification(store, cert, env, deliver, localeDate, now);
    assert store.notifications == afterFirst;
  }
}
