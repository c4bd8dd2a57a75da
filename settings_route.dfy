/**
 * `/api/notifications/settings`: `GET` reports, for each notification
 * channel, whether it is enabled in the stored settings and whether the
 * environment configures it; `PUT` validates a change and writes it. The
 * settings table is not part of this model: `GET` reads its rows as an
 * input, and `PUT`'s effect is the upsert call it makes.
 */
module SettingsRoute {
  import opened Wrappers
  import opened Env
  import opened Json
  import Notifications

  /** A row of the stored notification settings. */
  datatype Setting = Setting(channel: string, enabled: bool)

  /** One element of the `GET` listing. */
  datatype ChannelStatus = ChannelStatus(channel: string, enabled: bool, configured: bool, requiredEnvVars: seq<string>)

  /** `settings.find(s => s.channel === channel)?.enabled ?? false`. */
  function EnabledIn(settings: seq<Setting>, channel: string): (r: bool)
    ensures (forall i :: 0 <= i < |settings| ==> settings[i].channel != channel) ==> !r
    ensures forall i :: (0 <= i < |settings| && settings[i].channel == channel
                         && (forall j :: 0 <= j < i ==> settings[j].channel != channel)) ==> r == settings[i].enabled
    decreases |settings|
  {
    if |settings| == 0 then false
    else if settings[0].channel == channel then settings[0].enabled
    else
      assert forall i :: 1 <= i < |settings| ==> settings[i] == settings[1..][i - 1];
      EnabledIn(settings[1..], channel)
  }

  /** The `configured` flag of the listing, channel by channel. */
  function ListedConfigured(channel: Notifications.Channel, env: Environment): bool {
    match channel
    case Email => IsSet(env, "SMTP_HOST") && IsSet(env, "NOTIFY_EMAIL")
    case Webhook => IsSet(env, "NOTIFY_WEBHOOK_URL")
    case Telegram => IsSet(env, "TELEGRAM_BOT_TOKEN") && IsSet(env, "TELEGRAM_CHAT_ID")
  }

  function ListedVariables(channel: Notifications.Channel): seq<string> {
    match channel
    case Email => ["SMTP_HOST", "SMTP_PORT", "SMTP_USER", "SMTP_PASS", "NOTIFY_EMAIL"]
    case Webhook => ["NOTIFY_WEBHOOK_URL"]
    case Telegram => ["TELEGRAM_BOT_TOKEN", "TELEGRAM_CHAT_ID"]
  }

  function Status(settings: seq<Setting>, channel: Notifications.Channel, env: Environment): ChannelStatus {
    var name := Notifications.ChannelName(channel);
    ChannelStatus(name, EnabledIn(settings, name), ListedConfigured(channel, env), ListedVariables(channel))
  }

  /** `GET`: email, webhook and telegram, in that order. */
  function GetSettings(settings: seq<Setting>, env: Environment): (r: seq<ChannelStatus>)
    ensures |r| == 3
    ensures r[0].channel == "email" && r[1].channel == "webhook" && r[2].channel == "telegram"
    ensures forall i :: 0 <= i < 3 ==> r[i].enabled == EnabledIn(settings, r[i].channel)
    ensures r[0].configured <==> IsSet(env, "SMTP_HOST") && IsSet(env, "NOTIFY_EMAIL")
    ensures r[1].configured <==> IsSet(env, "NOTIFY_WEBHOOK_URL")
    ensures r[2].configured <==> IsSet(env, "TELEGRAM_BOT_TOKEN") && IsSet(env, "TELEGRAM_CHAT_ID")
  {
    [Status(settings, Notifications.Email, env), Status(settings, Notifications.Webhook, env),
     Status(settings, Notifications.Telegram, env)]
  }

  /** A channel with no stored row is listed as disabled. */
  lemma NoRowMeansDisabled(settings: seq<Setting>, env: Environment, i: int)
    requires 0 <= i < 3
    requires forall j :: 0 <= j < |settings| ==> settings[j].channel != GetSettings(settings, env)[i].channel
    ensures !GetSettings(settings, env)[i].enabled
  {
  }

  /**
   * The listing and the notifier agree on the webhook and Telegram channels.
   * For email the listing is looser: it checks only SMTP_HOST and
   * NOTIFY_EMAIL, so it can call email configured while the notifier, which
   * also needs SMTP_USER and SMTP_PASS, skips it.
   */
  lemma ListingVersusNotifier(env: Environment)
    ensures ListedConfigured(Notifications.Webhook, env) <==> Notifications.Configured(Notifications.Webhook, env)
    ensures ListedConfigured(Notifications.Telegram, env) <==> Notifications.Configured(Notifications.Telegram, env)
    ensures Notifications.Configured(Notifications.Email, env) ==> ListedConfigured(Notifications.Email, env)
    ensures var partial := map["SMTP_HOST" := "smtp.example.com", "NOTIFY_EMAIL" := "ops@example.com"];
      ListedConfigured(Notifications.Email, partial) && !Notifications.Configured(Notifications.Email, partial)
  {
    Notifications.ConfiguredExactly(env);
    var partial := map["SMTP_HOST" := "smtp.example.com", "NOTIFY_EMAIL" := "ops@example.com"];
    Notifications.ConfiguredExactly(partial);
    assert !IsSet(partial, "SMTP_USER");
  }

  /** A call on the settings store. */
  datatype UpsertCall = Upsert(channel: Value, enabled: bool, config: Option<string>)

  datatype PutResponse = PutResponse(status: int, success: bool, error: Option<string>)

  /**
   * `PUT`: a body whose `channel` is falsy or whose `enabled` is not a
   * boolean is rejected with 400 and writes nothing; otherwise exactly one
   * upsert with a null configuration. `None` is a body that cannot be read.
   */
  function PutSettings(body: Option<Body>): (r: (PutResponse, seq<UpsertCall>))
    ensures body.None? ==> r == (PutResponse(500, false, Some("Failed to update settings")), [])
    ensures body.Some? ==>
      var valid := TruthyProperty(body.value, "channel") && "enabled" in body.value && body.value["enabled"].Bool?;
      && (!valid ==> r == (PutResponse(400, false, Some("Invalid request")), []))
      && (valid ==> r == (PutResponse(200, true, None), [Upsert(body.value["channel"], body.value["enabled"].b, None)]))
  {
    match body
    case None => (PutResponse(500, false, Some("Failed to update settings")), [])
    case Some(b) =>
      var channelValue: Option<Value> := MapGet(b, "channel");
      var enabledValue: Option<Value> := MapGet(b, "enabled");
      match (channelValue, enabledValue)
      case (Some(channel), Some(Bool(enabled))) =>
        if Truthy(channel) then (PutResponse(200, true, None), [Upsert(channel, enabled, None)])
        else (PutResponse(400, false, Some("Invalid request")), [])
      case _ => (PutResponse(400, false, Some("Invalid request")), [])
  }

  /** `enabled` must be a real boolean: the string "true" and the number 1 are refused. */
  lemma EnabledMustBeBoolean()
    ensures PutSettings(Some(map["channel" := Str("email"), "enabled" := Str("true")])).0.status == 400
    ensures PutSettings(Some(map["channel" := Str("email"), "enabled" := Number(1.0)])).0.status == 400
    ensures PutSettings(Some(map["channel" := Str("email"), "enabled" := Bool(false)])).1
      == [Upsert(Str("email"), false, None)]
  {
    var b := map["channel" := Str("email"), "enabled" := Bool(false)];
    assert MapGet<string, Value>(b, "channel") == Some(Str("email"));
    assert MapGet<string, Value>(b, "enabled") == Some(Bool(false));
  }
}
