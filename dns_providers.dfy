/**
 * The DNS provider registry: builds an adapter by name from the environment,
 * refusing to build one whose credentials are missing, and lists every
 * provider with a flag saying whether it could be built.
 */
module DnsProviders {
  import opened Wrappers
  import opened Env
  import opened DnsCommon

  /** An adapter as constructed: which provider, with the credentials it was given. */
  datatype ProviderConfig =
    | CloudflareConfig(apiToken: string)
    | Route53Config(accessKeyId: string, secretAccessKey: string, region: string)
    | GoDaddyConfig(apiKey: string, apiSecret: string)
    | DigitalOceanConfig(apiToken: string)
    | ManualConfig

  /** The provider a name denotes, if any. */
  function ParseName(name: string): (r: Option<ProviderName>)
    ensures r.Some? ==> ProviderNameText(r.value) == name
  {
    if name == "cloudflare" then Some(Cloudflare)
    else if name == "route53" then Some(Route53)
    else if name == "godaddy" then Some(GoDaddy)
    else if name == "digitalocean" then Some(DigitalOcean)
    else if name == "manual" then Some(Manual)
    else None
  }

  lemma ParseNameText(p: ProviderName)
    ensures ParseName(ProviderNameText(p)) == Some(p)
  {
  }

  /** The variables a provider cannot be built without (AWS_REGION has a default). */
  function RequiredVariables(p: ProviderName): seq<string> {
    match p
    case Cloudflare => ["CLOUDFLARE_API_TOKEN"]
    case Route53 => ["AWS_ACCESS_KEY_ID", "AWS_SECRET_ACCESS_KEY"]
    case GoDaddy => ["GODADDY_API_KEY", "GODADDY_API_SECRET"]
    case DigitalOcean => ["DIGITALOCEAN_API_TOKEN"]
    case Manual => []
  }

  /** Every required variable of the provider is set and non-empty. */
  predicate HasCredentials(p: ProviderName, env: Environment) {
    var vars := RequiredVariables(p);
    forall i :: 0 <= i < |vars| ==> IsSet(env, vars[i])
  }

  /**
   * `createDnsProvider`: the adapter for `name`, or the error it throws. An
   * unknown name and a provider with a missing credential both fail; otherwise
   * the adapter holds the environment's values, with Route53's region
   * defaulting to us-east-1.
   */
  function CreateDnsProvider(name: string, env: Environment): (r: Result<ProviderConfig, string>)
    ensures r.Ok? <==> ParseName(name).Some? && HasCredentials(ParseName(name).value, env)
    ensures ParseName(name).None? ==> r == Err("Unknown DNS provider: " + name)
    ensures r.Err? && ParseName(name).Some? ==> match ParseName(name).value
      case Cloudflare => r.error == "CLOUDFLARE_API_TOKEN not configured"
      case Route53 => r.error == "AWS_ACCESS_KEY_ID and AWS_SECRET_ACCESS_KEY not configured"
      case GoDaddy => r.error == "GODADDY_API_KEY and GODADDY_API_SECRET not configured"
      case DigitalOcean => r.error == "DIGITALOCEAN_API_TOKEN not configured"
      case Manual => false
    ensures r.Ok? ==> match ParseName(name).value
      case Cloudflare => r.value == CloudflareConfig(GetOr(env, "CLOUDFLARE_API_TOKEN", ""))
      case Route53 => r.value == Route53Config(GetOr(env, "AWS_ACCESS_KEY_ID", ""), GetOr(env, "AWS_SECRET_ACCESS_KEY", ""),
                                               GetOr(env, "AWS_REGION", "us-east-1"))
      case GoDaddy => r.value == GoDaddyConfig(GetOr(env, "GODADDY_API_KEY", ""), GetOr(env, "GODADDY_API_SECRET", ""))
      case DigitalOcean => r.value == DigitalOceanConfig(GetOr(env, "DIGITALOCEAN_API_TOKEN", ""))
      case Manual => r.value == ManualConfig
  {
    match ParseName(name)
    case None => Err("Unknown DNS provider: " + name)
    case Some(Cloudflare) =>
      assert RequiredVariables(Cloudflare)[0] == "CLOUDFLARE_API_TOKEN";
      if !IsSet(env, "CLOUDFLARE_API_TOKEN") then Err("CLOUDFLARE_API_TOKEN not configured")
      else Ok(CloudflareConfig(env["CLOUDFLARE_API_TOKEN"]))
    case Some(Route53) =>
      assert RequiredVariables(Route53)[0] == "AWS_ACCESS_KEY_ID";
      assert RequiredVariables(Route53)[1] == "AWS_SECRET_ACCESS_KEY";
      var region := GetOr(env, "AWS_REGION", "us-east-1");
      if !IsSet(env, "AWS_ACCESS_KEY_ID") || !IsSet(env, "AWS_SECRET_ACCESS_KEY") then
        Err("AWS_ACCESS_KEY_ID and AWS_SECRET_ACCESS_KEY not configured")
      else Ok(Route53Config(env["AWS_ACCESS_KEY_ID"], env["AWS_SECRET_ACCESS_KEY"], region))
    case Some(GoDaddy) =>
      assert RequiredVariables(GoDaddy)[0] == "GODADDY_API_KEY";
      assert RequiredVariables(GoDaddy)[1] == "GODADDY_API_SECRET";
      if !IsSet(env, "GODADDY_API_KEY") || !IsSet(env, "GODADDY_API_SECRET") then
        Err("GODADDY_API_KEY and GODADDY_API_SECRET not configured")
      else Ok(GoDaddyConfig(env["GODADDY_API_KEY"], env["GODADDY_API_SECRET"]))
    case Some(DigitalOcean) =>
      assert RequiredVariables(DigitalOcean)[0] == "DIGITALOCEAN_API_TOKEN";
      if !IsSet(env, "DIGITALOCEAN_API_TOKEN") then Err("DIGITALOCEAN_API_TOKEN not configured")
      else Ok(DigitalOceanConfig(env["DIGITALOCEAN_API_TOKEN"]))
    case Some(Manual) => Ok(ManualConfig)
  }

  /** One line of the provider listing. */
  datatype ProviderEntry = ProviderEntry(name: ProviderName, displayName: string, configured: bool)

  /**
   * `getAvailableProviders`: the five providers in fixed order; each is
   * flagged configured exactly when `createDnsProvider` would build it from
   * the same environment, so Manual always is.
   */
  function GetAvailableProviders(env: Environment): (r: seq<ProviderEntry>)
    ensures |r| == |PROVIDER_ORDER|
    ensures forall i :: 0 <= i < |r| ==> r[i].name == PROVIDER_ORDER[i]
    ensures forall i :: 0 <= i < |r| ==>
      (r[i].configured <==> CreateDnsProvider(ProviderNameText(r[i].name), env).Ok?)
    ensures r[4].configured
  {
    [
      ProviderEntry(Cloudflare, "Cloudflare", IsSet(env, "CLOUDFLARE_API_TOKEN")),
      ProviderEntry(Route53, "AWS Route53", IsSet(env, "AWS_ACCESS_KEY_ID") && IsSet(env, "AWS_SECRET_ACCESS_KEY")),
      ProviderEntry(GoDaddy, "GoDaddy", IsSet(env, "GODADDY_API_KEY") && IsSet(env, "GODADDY_API_SECRET")),
      ProviderEntry(DigitalOcean, "DigitalOcean", IsSet(env, "DIGITALOCEAN_API_TOKEN")),
      ProviderEntry(Manual, "Manual (Add TXT record yourself)", true)
    ]
  }
}
