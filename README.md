# cert-manager: a verified model of the certificate lifecycle

cert-manager is a small web application that issues TLS certificates from
Let's Encrypt over ACME and keeps them renewed. This project models its core
in Dafny and proves properties of that model:

- the record store: the certificates table, HTTP-01 challenge tokens, the hook
  log and the notification log;
- issuance and renewal: the account-key cache, the challenge callbacks, and
  the record transitions of a renewal, including the post-renewal hook;
- the status classifier and the expiry notifier with its three channels;
- the catalogue of ACME certificate authorities and the DNS-provider registry;
- the five DNS adapters: Cloudflare, Route53 (including its AWS Signature
  Version 4 request signing), GoDaddy, DigitalOcean and Manual;
- the request-level logic of the middleware and of the login, certificates,
  scheduler and notification-settings routes.

Everything outside the process becomes a parameter of the operation that uses
it:

- network answers;
- what the ACME library did (`Acme.AcmeRun`);
- the shell (`exec`);
- whether a notification was delivered (`deliver`);
- the clock, as integer milliseconds;
- random bytes;
- the environment, a `map<string, string>`.

SHA-256, HMAC, hex, base64url and UTF-8 are uninterpreted function values
gathered in `Crypto.Primitives`.

There is one module per source file, plus the shared modules `Wrappers`,
`Env`, `Clock`, `Strings`, `Json`, `Crypto` and `DnsCommon`. State that the
source changes in place is a class:

- `Db.Store`: the tables;
- `Acme.AccountKeyCache`: the module-level account key;
- `ManualDns.PendingChallenges`: the static map of the Manual provider.

Loops become methods proved against a specification function:

- the renew and notify loops of the scheduler;
- the channel loop of the notifier;
- the threshold loop;
- the DigitalOcean and Cloudflare delete loops;
- the challenge loop of `requestCertificate`.

Where the project's documentation and the code disagree, the model follows
the code:

- `requestCertificate` always uses the Let's Encrypt directory chosen by
  ACME_PRODUCTION, a fixed 90-day validity and no EAB. The CA catalogue of
  `acme-providers.ts` is not consulted.
- There is one account key for the whole process, not one per CA.
- The DNS adapter is built after the account is created, so a bad provider is
  reported only then.
- Because the thresholds are listed largest first, every certificate within
  30 days of expiry gets the type `expiry_30d`. The 14, 7, 3 and 1 day types
  never occur (`Notifications.OnlyThirtyDayType`).
- The settings listing calls email configured with SMTP_HOST and NOTIFY_EMAIL
  alone, while the notifier also needs SMTP_USER and SMTP_PASS
  (`SettingsRoute.ListingVersusNotifier`).

## Model

| member | source | states |
|---|---|---|
| Clock.DaysUntil | src/lib/acme.ts:207 | the whole days until the expiry, rounded down: days·86 400 000 ≤ expiry − now < (days+1)·86 400 000 |
| Clock.AddDays | src/lib/acme.ts:114-115 | the result lies exactly n whole days after t |
| Clock.AddHours | src/app/api/auth/login/route.ts:31-32 | the result is exactly n hours after t |
| Wrappers.MapGet | src/app/api/auth/login/route.ts:8 | a read of a key (a variable of the environment, a property of a parsed body) gives a value exactly when the key is present, and then the stored one |
| Env.GetOr | src/lib/acme.ts:143 | `process.env[name] \|\| fallback`: the value when set and non-empty, otherwise the fallback |
| DnsCommon.AcmeRecordName | src/lib/acme.ts:86 | the DNS-01 record name ends with the domain and is `_acme-challenge.` longer |
| DnsCommon.RootDomainLabels | src/lib/dns-providers/godaddy.ts:21-24 | the root domain consists of exactly the last two labels (all labels if there are fewer) |
| DnsCommon.RootDomainOfShort | src/lib/dns-providers/godaddy.ts:21-24 | a domain of at most two labels is its own root |
| DnsCommon.RootDomainSuffix | src/lib/dns-providers/godaddy.ts:21-24 | a longer domain ends with '.' + its root |
| DnsCommon.RootDomainExamples | src/lib/dns-providers/godaddy.ts:21-24 | a.b.example.com and example.com both have root example.com |
| DnsCommon.AcmeRecordEndsWithRoot | src/lib/dns-providers/godaddy.ts:30-33 | every DNS-01 record name ends with '.' + the domain's root, so the suffix-stripping branch always applies |
| DnsProviders.ParseName | src/lib/dns-providers/types.ts:46 | a recognised name is the text of the provider it denotes |
| DnsProviders.ParseNameText | src/lib/dns-providers/types.ts:46 | every provider's name parses back to that provider |
| DnsProviders.CreateDnsProvider | src/lib/dns-providers/index.ts:18-57 | an adapter is built exactly for a known name whose required variables are all set; the adapter holds those values, Route53's region defaults to us-east-1, manual needs nothing; each failure carries the source's message |
| DnsProviders.GetAvailableProviders | src/lib/dns-providers/index.ts:62-94 | the five providers in fixed order; each is configured exactly when `createDnsProvider` would succeed on the same environment; manual always is |
| GoDaddy.Subdomain | src/lib/dns-providers/godaddy.ts:26-35 | a name ending in '.'+root loses exactly that suffix (subdomain + '.' + root == name); otherwise the first occurrence of '.'+root is removed; a name without one is returned unchanged |
| GoDaddy.AcmeSubdomainRoundTrip | src/lib/dns-providers/godaddy.ts:30-33 | for a DNS-01 record, subdomain + '.' + root gives back the record name |
| GoDaddy.CreateRequest | src/lib/dns-providers/godaddy.ts:41-53 | a PUT to the record URL carrying exactly `[{data: value, ttl: 600}]` |
| GoDaddy.DeleteRequest | src/lib/dns-providers/godaddy.ts:67-73 | a DELETE with no body, on the same URL as the PUT |
| GoDaddy.CreateOutcome | src/lib/dns-providers/godaddy.ts:55-58 | throws exactly on a non-2xx response, with 'GoDaddy API error: ' + the response text |
| GoDaddy.DeleteOutcome | src/lib/dns-providers/godaddy.ts:75-78 | never throws; it warns, with the response text, exactly on a failure other than 404 |
| GoDaddy.VerifyCredentials | src/lib/dns-providers/godaddy.ts:81-90 | true exactly when the request returned a 2xx response |
| DigitalOcean.RecordName | src/lib/dns-providers/digitalocean.ts:24-32 | strips a '.'+root suffix exactly (name + suffix == recordName), otherwise keeps the name |
| DigitalOcean.AcmeRecordNameRoundTrip | src/lib/dns-providers/digitalocean.ts:27-30 | for a DNS-01 record, relative name + '.' + root gives back the record name |
| DigitalOcean.CreateRequest | src/lib/dns-providers/digitalocean.ts:34-47 | the POST body is type TXT, data = the record value, TTL 120; when the record name ends in '.' + the root domain the name sent is the record name with that suffix cut off, otherwise the record name itself |
| DigitalOcean.CreateOutcome | src/lib/dns-providers/digitalocean.ts:49-52 | throws exactly on a non-2xx response, with 'DigitalOcean API error: ' + the text |
| DigitalOcean.MatchingIdsExact | src/lib/dns-providers/digitalocean.ts:70-77 | an id is deleted exactly when some listed record with that id holds the challenge value |
| DigitalOcean.DeleteRecord | src/lib/dns-providers/digitalocean.ts:55-78 | a failed listing deletes nothing; otherwise the ids of the value-matching records, in listing order |
| DigitalOcean.VerifyCredentials | src/lib/dns-providers/digitalocean.ts:80-89 | true exactly when the account request returned a 2xx response |
| Cloudflare.ZoneId | src/lib/dns-providers/cloudflare.ts:52-69 | a missing or empty result is the error 'Cloudflare zone not found for: ' + root; otherwise the first id |
| Cloudflare.CreateRecord | src/lib/dns-providers/cloudflare.ts:11-27 | fails exactly when the zone lookup fails; otherwise a POST of TXT with the record name, content = value and TTL 120 |
| Cloudflare.DeleteRecord | src/lib/dns-providers/cloudflare.ts:29-50 | fails exactly when the zone lookup fails; otherwise deletes every listed id, in order, whatever its value |
| Cloudflare.VerifyCredentials | src/lib/dns-providers/cloudflare.ts:71-81 | true exactly when `success` is the boolean true; an exception gives false |
| ManualDns.PendingChallenges.constructor | src/lib/dns-providers/manual.ts:12 | the map starts empty |
| ManualDns.PendingChallenges.CreateRecord | src/lib/dns-providers/manual.ts:14-16 | entries := entries[domain := challenge]; a new domain is appended to the insertion order, an existing one keeps its place |
| ManualDns.PendingChallenges.DeleteRecord | src/lib/dns-providers/manual.ts:31-32 | the domain's entry is removed whatever the value; other domains keep theirs |
| ManualDns.PendingChallenges.GetPendingChallenge | src/lib/dns-providers/manual.ts:45-47 | the domain's entry, present exactly when the domain is in the map |
| ManualDns.PendingChallenges.GetAllPendingChallenges | src/lib/dns-providers/manual.ts:52-54 | the map's values in key-insertion order, at most one per domain |
| ManualDns.PendingChallenges.VerifyCredentials | src/lib/dns-providers/manual.ts:56-59 | always true |
| ManualDns.LastCreateWins | src/lib/dns-providers/manual.ts:14-47 | after two creates for one domain, the pending challenge is the second |
| ManualDns.DeleteClears | src/lib/dns-providers/manual.ts:31-47 | after a delete carrying any value, the domain has no pending challenge |
| Route53.HostedZoneQueryName | src/lib/dns-providers/route53.ts:37-38 | the last two labels joined by '.', followed by '.' |
| Route53.HostedZoneQueryNameExample | src/lib/dns-providers/route53.ts:37-38 | a.b.example.com is looked up as example.com. |
| Route53.HostedZoneId | src/lib/dns-providers/route53.ts:36-53 | the captured id when the pattern matched; otherwise the error naming the zone that was looked up |
| Route53.MakeChange | src/lib/dns-providers/route53.ts:60-68 | a TXT record set with the record name, TTL 120, and the value wrapped in double quotes |
| Route53.RecordChange | src/lib/dns-providers/route53.ts:26-34 | fails exactly when no zone was found; otherwise posts the change for the action to that zone's rrset URL |
| Route53.CreateDeleteSameRecord | src/lib/dns-providers/route53.ts:26-34 | create (UPSERT) and delete (DELETE) address the same zone and record and differ only in the action |
| Route53.AmzDateDigits | src/lib/dns-providers/route53.ts:100 | the date rewrite passes a run of digits through unchanged |
| Route53.AmzDateSeparator | src/lib/dns-providers/route53.ts:100 | the date rewrite drops ':' and '-' |
| Route53.AmzDateMillis | src/lib/dns-providers/route53.ts:100 | the date rewrite drops '.' followed by three digits |
| Route53.AmzDateLetter | src/lib/dns-providers/route53.ts:100 | the date rewrite keeps any other character |
| Route53.AmzDateOfTime | src/lib/dns-providers/route53.ts:100 | the time part HH:mm:ss.sssZ becomes HHmmssZ |
| Route53.AmzDateOfIso | src/lib/dns-providers/route53.ts:100-101 | an ISO timestamp becomes YYYYMMDDTHHmmssZ, and its date stamp is YYYYMMDD |
| Route53.DateStamp | src/lib/dns-providers/route53.ts:101 | the first eight characters (or all, if fewer), a prefix of the date |
| Route53.RequestHeaders | src/lib/dns-providers/route53.ts:103-110 | Host and X-Amz-Date, plus Content-Type application/xml exactly when there is a non-empty body |
| Route53.PayloadText | src/lib/dns-providers/route53.ts:127 | the hashed payload is the body when non-empty, otherwise '' |
| Route53.CanonicalLinesMatchSignedNames | src/lib/dns-providers/route53.ts:117-125 | canonical header lines and signed names have one entry per header, and line i starts with signed name i and ':' |
| Route53.SignedNamesSorted | src/lib/dns-providers/route53.ts:122-125 | the signed names are in sorted order |
| Route53.SignedNamesOfRequest | src/lib/dns-providers/route53.ts:103-125 | the signed names are exactly host and x-amz-date, plus content-type exactly when there is a body |
| Route53.RequestHeaderNames | src/lib/dns-providers/route53.ts:103-123 | the lower-cased header names in insertion order |
| Route53.SignedHeadersText | src/lib/dns-providers/route53.ts:122-125 | SignedHeaders is 'content-type;host;x-amz-date' with a body and 'host;x-amz-date' without |
| Route53.CredentialScopeParts | src/lib/dns-providers/route53.ts:115 | the scope splits at '/' into date stamp, region, route53 and aws4_request |
| Route53.AuthorizationNotSigned | src/lib/dns-providers/route53.ts:151 | every header before Authorization is signed, and Authorization itself is not |
| Route53.SignedRequest | src/lib/dns-providers/route53.ts:98-153 | the request keeps its method, URL and body; its headers are the unsigned headers followed by Authorization, whose value is the Signature Version 4 signature of exactly those headers |
| Route53.VerifyCredentials | src/lib/dns-providers/route53.ts:156-163 | true exactly when the signed listing returned a 2xx response |
| AcmeProviders.Lookup | src/lib/acme-providers.ts:67-69 | absent exactly when no key matches; otherwise an entry stored under the key |
| AcmeProviders.LookupFindsEntry | src/lib/acme-providers.ts:67-69 | with distinct keys, each key finds its own entry |
| AcmeProviders.TableInvariants | src/lib/acme-providers.ts:15-63 | keys are distinct, every entry's name is its key, and every EAB entry names both of its variables |
| AcmeProviders.GetAcmeProvider | src/lib/acme-providers.ts:67-69 | a found provider has the requested name; none is found exactly when no key matches |
| AcmeProviders.GetAcmeDirectoryUrl | src/lib/acme-providers.ts:71-82 | unknown names give 'Unknown ACME provider: ' + name; the staging URL exactly when staging is asked for and the provider has one, otherwise the production URL |
| AcmeProviders.DirectoryUrlExamples | src/lib/acme-providers.ts:71-82 | letsencrypt staging gives its staging URL; zerossl with staging falls back to production; an unknown name fails |
| AcmeProviders.GetEabCredentials | src/lib/acme-providers.ts:102-112 | credentials exist exactly for a known EAB provider whose two variables are set and non-empty, and they are those two values |
| AcmeProviders.EntriesOf | src/lib/acme-providers.ts:91-99 | one listing entry per table entry, in order |
| AcmeProviders.GetAvailableAcmeProviders | src/lib/acme-providers.ts:84-100 | one entry per provider in table order, with its name, label and validity; requiresEab is false when the table omits it |
| AcmeProviders.ConfiguredIffCredentials | src/lib/acme-providers.ts:94-96 | an entry is configured exactly when it needs no EAB or `getEabCredentials` finds its credentials |
| AcmeProviders.EmptyEnvironmentListing | src/lib/acme-providers.ts:94-96 | in an empty environment, exactly the providers without EAB are configured |
| Db.OrElse | src/lib/db.ts:103 | `value \|\| fallback`: an absent or empty value falls back |
| Db.OrNull | src/lib/db.ts:104 | `value \|\| null`: present exactly when non-empty |
| Db.NewRecordDefaults | src/lib/db.ts:90-109 | a new record is pending with no dates or material; challenge type 'http', provider and hook null when not given; auto-renew 1 unless explicitly false; both timestamps now |
| Db.PatchChangesExactlyGivenFields | src/lib/db.ts:111-131 | a column changes exactly when its property is given, to that value (null included); id, domain and created_at never change; updated_at becomes now; auto_renew is stored 1/0 |
| Db.EmptyPatchTouchesOnlyUpdatedAt | src/lib/db.ts:125 | an update with no properties only refreshes updated_at |
| Db.PatchIdempotent | src/lib/db.ts:111-131 | applying the same update twice is applying it once |
| Db.WithoutDomain | src/lib/db.ts:151-154 | the remaining token rows are exactly those of other domains |
| Db.FirstWithToken | src/lib/db.ts:146-149 | a row carrying the token, absent exactly when no row carries it |
| Db.WithoutCertificate | src/lib/notifications.ts:201-203 | the remaining notification records are exactly those of other certificates |
| Db.DeleteTokensExact | src/lib/db.ts:146-154 | after deleting a domain's tokens no lookup finds that domain, and a token of another domain is still found |
| Db.SaveThenDelete | src/lib/db.ts:138-154 | saving a token and then deleting its domain's tokens is deleting them without the save |
| Db.Store.constructor | src/lib/db.ts:16-49 | empty tables, ids starting at 1 |
| Db.Store.GetCertificate | src/lib/db.ts:80-83 | the row with the id, present exactly when it exists |
| Db.Store.CreateCertificate | src/lib/db.ts:90-109 | fails, changing nothing, exactly when the domain already has a row (UNIQUE); otherwise inserts the defaulted record under the next id and nothing else changes |
| Db.Store.UpdateCertificate | src/lib/db.ts:111-131 | an unknown id changes nothing; otherwise only that row becomes ApplyPatch of it, and it is returned |
| Db.Store.DeleteCertificate | src/lib/db.ts:133-136 | deleting a row that a hook log entry references (the hook_logs foreign key) fails with 'FOREIGN KEY constraint failed' and changes nothing; otherwise the row is removed and nothing else changes |
| Db.Store.GetAllCertificates | src/lib/db.ts:75-78 | every row exactly once, ordered by domain |
| Db.Store.SaveChallengeToken | src/lib/db.ts:138-144 | appends exactly one row; rows of the same domain accumulate |
| Db.Store.GetChallengeToken | src/lib/db.ts:146-149 | a row carrying the token, absent exactly when there is none |
| Db.Store.DeleteChallengeTokens | src/lib/db.ts:151-154 | exactly the domain's rows are removed; the other rows keep their order |
| Db.Store.LogHookExecution | src/lib/db.ts:156-162 | appends exactly one entry, with success stored as 1/0; nothing else changes |
| Db.Store.RecordNotification | src/lib/notifications.ts:196 | appends one (certificate, type, channel) record |
| Db.Store.ClearNotificationsForCertificate | src/lib/notifications.ts:202 | removes the certificate's records, keeps the others, and afterwards no type counts as sent for it |
| Acme.AcmeDirectory | src/lib/acme.ts:18-20 | production exactly when ACME_PRODUCTION is 'true', staging otherwise |
| Acme.AccountKeyCache.constructor | src/lib/acme.ts:29 | no key is cached at start |
| Acme.AccountKeyCache.GetOrCreate | src/lib/acme.ts:31-35 | a cached key is returned and kept; otherwise the generated key is stored and returned |
| Acme.AccountKeyWriteOnce | src/lib/acme.ts:29-35 | two calls in a row return the first key, whatever the second would have generated |
| Acme.ChallengePriority | src/lib/acme.ts:110 | exactly ['dns-01'] for type dns, ['http-01'] otherwise |
| Acme.ErrorMessage | src/lib/acme.ts:127 | an Error's message, otherwise 'Unknown error' |
| Acme.ChallengeRecord | src/lib/acme.ts:84-88 | the TXT record is for the domain under `_acme-challenge.` + domain |
| Acme.DnsCalls | src/lib/acme.ts:77-108 | for each challenge in order, a create then a delete of the same record, with the same name and value |
| Acme.DnsCallsRecordName | src/lib/acme.ts:84-107 | every record a DNS-01 run touches is `_acme-challenge.` + the domain |
| Acme.RunChallenge | src/lib/acme.ts:77-108 | one challenge: HTTP-01 leaves the domain with no tokens; DNS-01 with an adapter emits exactly a create and then a delete of the same record; certificates, hook log and notifications unchanged |
| Acme.RunChallenges | src/lib/acme.ts:74-108 | the challenges in order: an HTTP-01 run that saw a challenge leaves the domain with no token; a DNS-01 run with an adapter makes exactly DnsCalls; nothing else makes a call or changes a token; certificates, hook log and notifications unchanged |
| Acme.DnsProviderFor | src/lib/acme.ts:64-66 | an adapter is built exactly for type dns with a non-empty provider name, by `createDnsProvider` |
| Acme.IssueOutcome | src/lib/acme.ts:44-129 | the first failure decides: an account failure gives its message; then an adapter that cannot be built gives its configuration error; then a run that throws gives its message, or 'Unknown error'. A certificate is issued exactly when none of these failed, with the CSR key and an expiry 90 days after now |
| Acme.WithoutDomainIdempotent | src/lib/acme.ts:94-96 | removing a domain's tokens twice is removing them once |
| Acme.RequestCertificate | src/lib/acme.ts:37-130 | the result is IssueOutcome; the key is cached once; HTTP-01 leaves the domain's tokens removed and makes no DNS call; DNS-01 makes exactly DnsCalls; type dns without a provider does nothing; certificates, hook log and notifications unchanged |
| Acme.HookEnvironment | src/lib/acme.ts:187-192 | the process environment plus CERT_DOMAIN, CERT_CERTIFICATE and CERT_PRIVATE_KEY, nothing else changed |
| Acme.ExecuteHook | src/lib/acme.ts:181-200 | appends exactly one log entry: (id, 1, stdout+stderr) or (id, 0, message); no failure escapes; other tables unchanged |
| Acme.RenewCertificate | src/lib/acme.ts:132-179 | unknown id: 'Certificate not found', no adapter call and nothing changes. Otherwise the tokens and adapter calls are those of the issuance. Success: the record becomes valid with the material, its notifications are cleared, and one hook log entry is appended exactly when the record has a hook, the entry of running it with the new certificate and key. Failure: only the status becomes error, notifications and hook log unchanged, and the error is returned. For a known id the generated account key is cached when none was; a cached key is never replaced, and an unknown id leaves the cache as it was |
| Acme.GetCertificateStatus | src/lib/acme.ts:202-212 | pending exactly without expiry; expired exactly when days < 0, expiring when 0 ≤ days < 30, valid when days ≥ 30 |
| Acme.StatusByTime | src/lib/acme.ts:202-212 | in time terms: expired exactly when the expiry has passed, valid exactly when it is ≥ 30 days away |
| Acme.FreshCertificateValid | src/lib/acme.ts:113-115 | a certificate just issued is classified valid |
| Notifications.IntToString | src/lib/notifications.ts:186 | a non-empty decimal text with a '-' exactly for negatives |
| Notifications.FirstCrossed | src/lib/notifications.ts:150-157 | absent exactly when days exceed every threshold; otherwise the first threshold in list order that days does not exceed |
| Notifications.GetNotificationType | src/lib/notifications.ts:150-157 | the loop returns the type named by FirstCrossed, or null |
| Notifications.OnlyThirtyDayType | src/lib/notifications.ts:148-157 | the first threshold crossed is 30 for every d ≤ 30 (negative included) and none for d > 30; 14, 7, 3 and 1 are never selected |
| Notifications.ThirtyDayTypeName | src/lib/notifications.ts:153 | the type name for 30 is 'expiry_30d' |
| Notifications.GetDaysUntilExpiry | src/lib/notifications.ts:159-163 | floor((expiry − now) / 86 400 000) |
| Notifications.ExpiryMessage | src/lib/notifications.ts:184-190 | title 'Certificate Expiring: ' + domain, with the domain, days and expiry carried along |
| Notifications.MessagePlural | src/lib/notifications.ts:186 | the body says 'day' exactly when days == 1 and 'days' otherwise |
| Notifications.ChannelName | src/lib/notifications.ts:24 | the names email, webhook and telegram, one per channel |
| Notifications.ConfiguredExactly | src/lib/notifications.ts:27-118 | email needs SMTP_HOST, SMTP_USER, SMTP_PASS and NOTIFY_EMAIL; webhook needs NOTIFY_WEBHOOK_URL; telegram needs the bot token and chat id |
| Notifications.Request | src/lib/notifications.ts:46-133 | email sends subject = title and text = body from SMTP_USER, secure exactly on port 465; the webhook posts event certificate_expiring with domain and days; Telegram posts in Markdown |
| Notifications.Send | src/lib/notifications.ts:26-144 | an unconfigured channel sends nothing and returns false; a configured one returns whether delivery succeeded |
| Notifications.Deliveries | src/lib/notifications.ts:193-198 | at most one record per channel tried |
| Notifications.DeliveriesExactly | src/lib/notifications.ts:193-198 | the records carry the certificate and type, and their channels are exactly the channels that delivered |
| Notifications.NoDeliveryNoRecords | src/lib/notifications.ts:193-198 | nothing is recorded exactly when no channel delivered |
| Notifications.DueWithinThirtyDays | src/lib/notifications.ts:172-177 | a notification is due exactly for a certificate with an expiry less than 31 days ahead (or past), and its type is expiry_30d |
| Notifications.SendExpiryNotification | src/lib/notifications.ts:171-199 | no expiry, no type, or a type already sent: nothing changes. Otherwise exactly the Deliveries over email, webhook and telegram are appended. Other tables are unchanged |
| Notifications.NotifyEffectAppends | src/lib/notifications.ts:171-199 | a send only appends expiry_30d records of the certificate, and afterwards its due type is recorded unless no channel delivered |
| Notifications.NotifyEffectIdempotent | src/lib/notifications.ts:180-182 | the same send a second time records nothing new, whether or not a channel delivered the first time |
| Notifications.SendToChannels | src/lib/notifications.ts:193-198 | the loop appends exactly Deliveries over the channels, in order; a failing channel does not stop the later ones |
| Notifications.ResetNotificationsAfterRenewal | src/lib/notifications.ts:201-203 | no type counts as sent for the certificate any more; other certificates' records are unchanged |
| Notifications.SendTwice | src/lib/notifications.ts:180-182 | when a channel delivers, the first send appends exactly its Deliveries (unless the type was already sent) and the type then counts as sent; the second send leaves the log as the first left it |
| Middleware.AnyPrefix | src/middleware.ts:16 | true exactly when the path starts with some prefix |
| Middleware.Route | src/middleware.ts:4-41 | passes exactly a public path or a non-empty cookie; otherwise redirects to /login for pages and gives 401 for /api/ paths |
| Middleware.PublicPrefixPasses | src/middleware.ts:8-19 | every path under a public prefix passes without a cookie |
| Middleware.AcmeChallengeIsPublic | src/middleware.ts:12-18 | HTTP-01 challenge files pass without a cookie |
| Middleware.PrefixMatchIsLoose | src/middleware.ts:16 | /loginx and /api/auth/logoutAll count as public |
| Middleware.AnyCookiePasses | src/middleware.ts:36-40 | any non-empty cookie passes, with no session check |
| Middleware.NoCookieExamples | src/middleware.ts:24-33 | without a cookie, / is redirected and /api/certificates gets 401 |
| LoginRoute.Login | src/app/api/auth/login/route.ts:5-54 | an unreadable body gives 500 'Login failed'; no password configured gives 500; wrong credentials give 401; no session is created in any of these |
| LoginRoute.SessionOnlyForValidCredentials | src/app/api/auth/login/route.ts:22-44 | success exactly with the password configured and both values equal; then exactly one session, 24 hours long, whose token and expiry the httpOnly 'session' cookie carries; secure exactly in production |
| LoginRoute.DefaultUsername | src/app/api/auth/login/route.ts:11 | with ADMIN_USERNAME unset, 'admin' with the password logs in and a wrong password does not |
| SettingsRoute.EnabledIn | src/app/api/notifications/settings/route.ts:15 | the first matching row's flag, false when there is no row |
| SettingsRoute.GetSettings | src/app/api/notifications/settings/route.ts:7-40 | email, webhook and telegram in that order, each enabled per its row; configured per the listing's own variable checks |
| SettingsRoute.NoRowMeansDisabled | src/app/api/notifications/settings/route.ts:15-27 | a channel with no row is listed disabled |
| SettingsRoute.ListingVersusNotifier | src/app/api/notifications/settings/route.ts:16-28 | listing and notifier agree on webhook and telegram; for email the listing is looser, with a witness |
| SettingsRoute.PutSettings | src/app/api/notifications/settings/route.ts:42-63 | a falsy channel or a non-boolean enabled gives 400 and no write; otherwise exactly one upsert(channel, enabled, null); an unreadable body gives 500 |
| SettingsRoute.EnabledMustBeBoolean | src/app/api/notifications/settings/route.ts:47 | "true" and 1 are refused; false is accepted |
| CertificatesRoute.Enrich | src/app/api/certificates/route.ts:16-22 | computed_status is `getCertificateStatus`; days_until_expiry is null exactly without an expiry, otherwise the floor of the day difference |
| CertificatesRoute.EnrichAll | src/app/api/certificates/route.ts:16-22 | each record is enriched in place, in order |
| CertificatesRoute.StatusMatchesDays | src/app/api/certificates/route.ts:18-21 | the days shown and the status agree: expired iff days < 0, expiring iff 0 ≤ days < 30, valid iff days ≥ 30 |
| CertificatesRoute.Get | src/app/api/certificates/route.ts:11-31 | every stored record exactly once, enriched and ordered by domain |
| CertificatesRoute.Post | src/app/api/certificates/route.ts:33-88 | a missing or empty domain gives 400 and stores nothing; an existing domain gives 500. Otherwise the record is created with defaults ('http' both stored and used); with issue_now the tokens and adapter calls are those of the issuance, and the record becomes valid with the material, or only its status becomes error. The response is success either way; notifications and hook log are untouched. The account key cache changes only when a certificate is issued now, and then takes the generated key exactly when it was empty |
| SchedulerRoute.FailureMessage | src/app/api/scheduler/route.ts:40 | the error when non-empty, otherwise 'Unknown error' |
| SchedulerRoute.PartitionCounts | src/app/api/scheduler/route.ts:32-42 | renewed + renewFailed equals the number of certificates processed |
| SchedulerRoute.PartitionMembers | src/app/api/scheduler/route.ts:36-41 | each certificate lands in the list its own outcome chooses |
| SchedulerRoute.FailuresHaveMessages | src/app/api/scheduler/route.ts:40 | every failure entry carries a non-empty message |
| SchedulerRoute.DomainsWithExpiry | src/app/api/scheduler/route.ts:47-52 | exactly the domains of certificates with an expiry |
| SchedulerRoute.RenewOne | src/app/api/scheduler/route.ts:34-38 | the result is renewCertificate's outcome for the record as stored, and certificates, notifications, challenge tokens, hook log and account key cache become RenewStep: unknown ids change nothing; otherwise the key is cached when none was and the tokens are those the issuance leaves; a renewal that issued stores the material, leaves no notification record of the certificate and appends the hook's run with the new certificate and key exactly when the record has a hook; a failed one only marks it errored |
| SchedulerRoute.RenewAll | src/app/api/scheduler/route.ts:30-42 | the i-th outcome is renewCertificate's outcome for the records as the earlier renewals left them, certificates, notifications, tokens, hook log and key cache end as the fold of RenewStep over the list, and the two lists are Renewed and Failures of the outcomes |
| SchedulerRoute.RenewFoldKeyAndHooks | src/lib/acme.ts:132-179 | the renew pass only appends to the hook log, one log id per entry; a cached account key stays, and an empty cache takes the generated key exactly when some listed certificate exists |
| SchedulerRoute.RenewPassResults | src/app/api/scheduler/route.ts:32-42 | for a list without repeated ids: an unknown id reports 'Certificate not found'; a renewed certificate is valid, expires 90 days from now and has no notification record left; a failed one is marked errored |
| SchedulerRoute.NotifyAll | src/app/api/scheduler/route.ts:45-52 | the notification log becomes the fold of one sendExpiryNotification per certificate with an expiry, in order; it lists exactly those certificates; certificates, challenge tokens and hook log unchanged |
| SchedulerRoute.NotifyFoldAppends | src/app/api/scheduler/route.ts:47-52 | the notify pass only appends, and only expiry_30d records of listed certificates that have an expiry |
| SchedulerRoute.NotifyFoldSettles | src/app/api/scheduler/route.ts:47-52 | after the pass, every listed certificate that is due has its type recorded, unless no channel delivered for it |
| SchedulerRoute.NotifyPassIdempotent | src/lib/notifications.ts:180-182 | a second notify pass with the same clock and delivery results records nothing new |
| SchedulerRoute.Post | src/app/api/scheduler/route.ts:13-62 | 401, touching nothing, exactly when a secret is set and the header is not 'Bearer ' + secret. Otherwise the certificates, challenge tokens, hook log and account key cache end as the renew fold leaves them, the counts add up to the renew list and failures carry messages; then the notification log is the notify fold, over the records in domain order, of the log the renewals left, and the certificates with an expiry are exactly the ones notified |

## Left out

- Network calls are inputs, not modelled: every `fetch`, its status and JSON
  body, Route53's XML answer (only "id captured or not"), and Telegram,
  webhook and SMTP delivery (one boolean per outgoing request).
- The `acme-client` library is an input (`Acme.AcmeRun`): account creation,
  the CSR and `client.auto`. Its challenges are applied in order, each created
  and then removed. An adapter call that throws is folded into the run's
  outcome, and the 10-second propagation wait is left out.
- SHA-256, HMAC, hex, base64url, UTF-8, key generation and `randomBytes` are
  uninterpreted functions or parameters. `child_process.exec` is a parameter.
- Time is one integer-millisecond `now` per request. `setDate(+90)` and
  `setHours(+24)` are fixed durations, which ignores daylight-saving shifts.
  `toISOString` and `toLocaleDateString` are abstract: Route53 takes the ISO
  text as input, and the message takes a date-formatting function.
- ACME_PRODUCTION and CRON_SECRET are read at module load. The model passes
  them in as inputs.
- Concurrency and async interleaving are out of scope: every handler runs
  sequentially.
- Db.Store.UpdateCertificate: the SQL text built from the `updates` array is
  not modelled. The row is updated by `Db.ApplyPatch`, which has the same
  effect on the columns.
- Db.Store.RecordNotification, Db.Store.ClearNotificationsForCertificate: the
  notification log and `hasNotificationBeenSent` are imported from `db.ts`
  but not defined there. The model assumes an append-only log of
  (certificate, type, channel) records.
- The session, settings and auto-renew stores are not defined in `db.ts`.
  - `createSession` and `upsertNotificationSetting` are modelled as emitted
    calls.
  - The settings rows are an input whose `enabled` is a boolean.
  - `getCertificatesForAutoRenew` is an input list.
- The scheduler's GET handler is left out: it only reports two store queries
  that are not defined in `db.ts`. `getCertificateByDomain` is not used by
  the modelled code.
- Catch-all 500 paths that the model cannot reach are left out: the
  scheduler's "Scheduler failed", the certificates GET and the settings GET.
  The model has no failing store reads.
- Wrappers.MapGet: request bodies are reduced to the properties the routes
  read. Prototype keys such as `constructor`, NaN and `-0` truthiness are
  left out. `CertificatesRoute.CreateBody` types its fields as strings and
  booleans. A body that cannot be parsed is `None`.
- AcmeProviders.GetAcmeProvider: `ACME_PROVIDERS[name]` also finds keys
  inherited from `Object.prototype`, such as `constructor`. The model treats
  such names as unknown, so it returns nothing where the source returns a
  function.
- AcmeProviders.GetAcmeDirectoryUrl: for an inherited key such as
  `constructor` the source returns `undefined` without throwing. The model
  treats the name as unknown and gives 'Unknown ACME provider: ' + name.
- Acme.GetCertificateStatus: `expires_at` is assumed to be an ISO timestamp
  or null, and an empty string is folded into null. Free text stored through
  the certificate PATCH route (which gives NaN days, hence 'valid', and a null
  days_until_expiry) is not modelled.
- Notifications.Request: `parseInt(SMTP_PORT)` is kept as the port text. The
  email channel's missing-nodemailer and thrown-error cases are folded into
  `deliver`.
- Route53.SignedRequest: `localeCompare` ordering is modelled as code-point
  order. The header names compared differ in their first lower-case letter,
  so both orders agree. Values are trimmed of ASCII white space only, and
  lower-casing is ASCII only.
- Route53.ChangeXml: only its non-emptiness is stated. The change it carries
  is stated by `Route53.MakeChange` and `Route53.RecordChange`.
- URLs are not percent-encoded, as in the source. The middleware's `matcher`
  configuration is left out; only the handler is modelled.
- Logging (`console.log`, `console.warn`) is left out. GoDaddy's delete
  warning is kept as a `Warned` outcome.
