/**
 * The catalogue of ACME certificate authorities: a fixed table keyed by
 * provider name, the directory URL to use for one (production, or staging
 * where it exists), the external-account-binding (EAB) credentials some of
 * them require, and the listing the UI shows.
 */
module AcmeProviders {
  import opened Wrappers
  import opened Env

  datatype AcmeProvider = AcmeProvider(
    name: string,
    displayName: string,
    directoryUrl: string,
    stagingUrl: Option<string>,
    website: string,
    certValidityDays: int,
    requiresEab: Option<bool>,
    eabKeyIdEnvVar: Option<string>,
    eabMacKeyEnvVar: Option<string>)
  {
    /** `provider.requiresEab` as a condition: absent counts as false. */
    predicate NeedsEab() { requiresEab == Some(true) }

    /**
     * The environment variable names the EAB lookups read. A missing name
     * indexes `process.env` with `undefined`, that is with the key "undefined".
     */
    function KeyIdVar(): string { eabKeyIdEnvVar.GetOr("undefined") }
    function MacKeyVar(): string { eabMacKeyEnvVar.GetOr("undefined") }
  }

  /** `ACME_PROVIDERS`, in the order its keys were written. */
  const TABLE: seq<(string, AcmeProvider)> := [
    ("letsencrypt", AcmeProvider("letsencrypt", "Let's Encrypt",
      "https://acme-v02.api.letsencrypt.org/directory",
      Some("https://acme-staging-v02.api.letsencrypt.org/directory"),
      "https://letsencrypt.org", 90, None, None, None)),
    ("zerossl", AcmeProvider("zerossl", "ZeroSSL",
      "https://acme.zerossl.com/v2/DV90", None,
      "https://zerossl.com", 90, Some(true), Some("ZEROSSL_EAB_KID"), Some("ZEROSSL_EAB_HMAC_KEY"))),
    ("buypass", AcmeProvider("buypass", "Buypass Go",
      "https://api.buypass.com/acme/directory",
      Some("https://api.test4.buypass.no/acme/directory"),
      "https://www.buypass.com/ssl/products/acme", 180, None, None, None)),
    ("google", AcmeProvider("google", "Google Trust Services",
      "https://dv.acme-v02.api.pki.goog/directory",
      Some("https://dv.acme-v02.test-api.pki.goog/directory"),
      "https://pki.goog", 90, Some(true), Some("GOOGLE_EAB_KID"), Some("GOOGLE_EAB_HMAC_KEY"))),
    ("sslcom", AcmeProvider("sslcom", "SSL.com",
      "https://acme.ssl.com/sslcom-dv-rsa", None,
      "https://ssl.com", 90, Some(true), Some("SSLCOM_EAB_KID"), Some("SSLCOM_EAB_HMAC_KEY")))
  ]

  /** The entry stored under `key` in a keyed table, the first one if several share it. */
  function Lookup(table: seq<(string, AcmeProvider)>, key: string): (r: Option<AcmeProvider>)
    ensures r.None? <==> forall i :: 0 <= i < |table| ==> table[i].0 != key
    ensures r.Some? ==> exists i :: 0 <= i < |table| && table[i] == (key, r.value)
    decreases |table|
  {
    if |table| == 0 then None
    else if table[0].0 == key then
      assert table[0] == (key, table[0].1);
      Some(table[0].1)
    else
      var r := Lookup(table[1..], key);
      assert forall i :: 1 <= i < |table| ==> table[i] == table[1..][i - 1];
      r
  }

  ghost predicate DistinctKeys(table: seq<(string, AcmeProvider)>) {
    forall i, j :: 0 <= i < j < |table| ==> table[i].0 != table[j].0
  }

  /** In a table whose keys are distinct, each key finds its own entry. */
  lemma {:induction false} LookupFindsEntry(table: seq<(string, AcmeProvider)>, i: int)
    requires DistinctKeys(table) && 0 <= i < |table|
    ensures Lookup(table, table[i].0) == Some(table[i].1)
    decreases |table|
  {
    if i > 0 {
      assert table[0].0 != table[i].0;
      assert DistinctKeys(table[1..]);
      assert table[1..][i - 1] == table[i];
      LookupFindsEntry(table[1..], i - 1);
    }
  }

  /**
   * The table is well formed: keys are distinct, every entry's `name` is its
   * key, and every entry that requires EAB names both of its variables.
   */
  lemma TableInvariants()
    ensures DistinctKeys(TABLE)
    ensures forall i :: 0 <= i < |TABLE| ==> TABLE[i].1.name == TABLE[i].0
    ensures forall i :: 0 <= i < |TABLE| && TABLE[i].1.NeedsEab() ==>
      TABLE[i].1.eabKeyIdEnvVar.Some? && TABLE[i].1.eabMacKeyEnvVar.Some?
  {
  }

  /** `getAcmeProvider`. */
  function GetAcmeProvider(name: string): (r: Option<AcmeProvider>)
    ensures r.Some? ==> r.value.name == name
    ensures r.None? <==> forall i :: 0 <= i < |TABLE| ==> TABLE[i].0 != name
  {
    TableInvariants();
    Lookup(TABLE, name)
  }

  /**
   * `getAcmeDirectoryUrl`: unknown names are an error; the staging URL is
   * used exactly when it is asked for and the provider has one.
   */
  function GetAcmeDirectoryUrl(providerName: string, useStaging: bool): (r: Result<string, string>)
    ensures r.Err? <==> GetAcmeProvider(providerName).None?
    ensures r.Err? ==> r.error == "Unknown ACME provider: " + providerName
    ensures r.Ok? ==> var p := GetAcmeProvider(providerName).value;
      if useStaging && p.stagingUrl.Some? then r.value == p.stagingUrl.value else r.value == p.directoryUrl
  {
    match GetAcmeProvider(providerName)
    case None => Err("Unknown ACME provider: " + providerName)
    case Some(p) =>
      if useStaging && p.stagingUrl.Some? then Ok(p.stagingUrl.value) else Ok(p.directoryUrl)
  }

  lemma DirectoryUrlExamples()
    ensures GetAcmeDirectoryUrl("letsencrypt", true) == Ok("https://acme-staging-v02.api.letsencrypt.org/directory")
    ensures GetAcmeDirectoryUrl("zerossl", true) == Ok("https://acme.zerossl.com/v2/DV90")
    ensures GetAcmeDirectoryUrl("acme", false) == Err("Unknown ACME provider: acme")
  {
    TableInvariants();
    LookupFindsEntry(TABLE, 0);
    LookupFindsEntry(TABLE, 1);
    assert |TABLE| == 5;
    assert TABLE[0].0 != "acme" && TABLE[1].0 != "acme" && TABLE[2].0 != "acme";
    assert TABLE[3].0 != "acme" && TABLE[4].0 != "acme";
    assert GetAcmeProvider("acme").None?;
    assert "Unknown ACME provider: " + "acme" == "Unknown ACME provider: acme";
  }

  datatype EabCredentials = EabCredentials(kid: string, hmacKey: string)

  /**
   * `getEabCredentials`: the two EAB values of a provider that requires EAB,
   * when both are set and non-empty; nothing otherwise.
   */
  function GetEabCredentials(providerName: string, env: Environment): (r: Option<EabCredentials>)
    ensures r.Some? <==>
      && GetAcmeProvider(providerName).Some?
      && GetAcmeProvider(providerName).value.NeedsEab()
      && IsSet(env, GetAcmeProvider(providerName).value.KeyIdVar())
      && IsSet(env, GetAcmeProvider(providerName).value.MacKeyVar())
    ensures r.Some? ==> var p := GetAcmeProvider(providerName).value;
      r.value == EabCredentials(env[p.KeyIdVar()], env[p.MacKeyVar()])
  {
    match GetAcmeProvider(providerName)
    case None => None
    case Some(p) =>
      if !p.NeedsEab() then None
      else if !IsSet(env, p.KeyIdVar()) || !IsSet(env, p.MacKeyVar()) then None
      else Some(EabCredentials(env[p.KeyIdVar()], env[p.MacKeyVar()]))
  }

  /** One line of the catalogue listing. */
  datatype ProviderEntry = ProviderEntry(name: string, displayName: string, configured: bool,
                                         requiresEab: bool, certValidityDays: int)

  function Entry(p: AcmeProvider, env: Environment): ProviderEntry {
    ProviderEntry(p.name, p.displayName,
      if p.NeedsEab() then IsSet(env, p.KeyIdVar()) && IsSet(env, p.MacKeyVar()) else true,
      p.NeedsEab(), p.certValidityDays)
  }

  /** `Object.values(ACME_PROVIDERS).map(...)`. */
  function EntriesOf(table: seq<(string, AcmeProvider)>, env: Environment): (r: seq<ProviderEntry>)
    ensures |r| == |table|
    ensures forall i :: 0 <= i < |table| ==> r[i] == Entry(table[i].1, env)
    decreases |table|
  {
    if |table| == 0 then [] else [Entry(table[0].1, env)] + EntriesOf(table[1..], env)
  }

  /**
   * `getAvailableAcmeProviders`: one entry per catalogue entry, in table
   * order; an entry is configured when it needs no EAB, or when both of its
   * EAB variables are set and non-empty.
   */
  function GetAvailableAcmeProviders(env: Environment): (r: seq<ProviderEntry>)
    ensures |r| == |TABLE|
    ensures forall i :: 0 <= i < |r| ==>
      && r[i].name == TABLE[i].0
      && r[i].displayName == TABLE[i].1.displayName
      && r[i].certValidityDays == TABLE[i].1.certValidityDays
      && (r[i].requiresEab <==> TABLE[i].1.NeedsEab())
  {
    TableInvariants();
    EntriesOf(TABLE, env)
  }

  /**
   * The listing and the credential lookup agree: an entry is configured
   * exactly when it needs no EAB or `getEabCredentials` finds its credentials.
   */
  lemma ConfiguredIffCredentials(env: Environment, i: int)
    requires 0 <= i < |TABLE|
    ensures GetAvailableAcmeProviders(env)[i].configured <==>
      !TABLE[i].1.NeedsEab() || GetEabCredentials(TABLE[i].0, env).Some?
  {
    TableInvariants();
    LookupFindsEntry(TABLE, i);
  }

  /** Exactly the providers without EAB are configured in an empty environment. */
  lemma EmptyEnvironmentListing()
    ensures forall i :: 0 <= i < |TABLE| ==>
      (GetAvailableAcmeProviders(map[])[i].configured <==> !TABLE[i].1.NeedsEab())
  {
  }
}
