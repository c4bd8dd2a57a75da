/**
 * What the DNS provider adapters share: the challenge they are given, the
 * provider names, an HTTP response as an adapter sees it, and the
 * "last two labels" rule that every adapter uses to find the zone owning a
 * record.
 */
module DnsCommon {
  import opened Strings

  /** A DNS-01 challenge: the certificate's domain and the TXT record to publish. */
  datatype DnsChallenge = DnsChallenge(domain: string, recordName: string, recordValue: string)

  datatype ProviderName = Cloudflare | Route53 | GoDaddy | DigitalOcean | Manual

  /** The names the registry accepts, in the order it lists them. */
  const PROVIDER_ORDER: seq<ProviderName> := [Cloudflare, Route53, GoDaddy, DigitalOcean, Manual]

  function ProviderNameText(p: ProviderName): string {
    match p
    case Cloudflare => "cloudflare"
    case Route53 => "route53"
    case GoDaddy => "godaddy"
    case DigitalOcean => "digitalocean"
    case Manual => "manual"
  }

  /** An HTTP response: its status code and body text. */
  datatype HttpResponse = HttpResponse(status: int, text: string) {
    /** `response.ok`: a status in the range 200-299. */
    predicate Ok() { 200 <= status <= 299 }
  }

  /** What an adapter call did: returned normally, returned after logging a warning, or threw. */
  datatype CallOutcome = Completed | Warned(warning: string) | Threw(message: string)

  /** The label in front of the domain in every DNS-01 record name. */
  const ACME_CHALLENGE_PREFIX: string := "_acme-challenge."

  /** `_acme-challenge.${domain}`: the TXT record name for a DNS-01 challenge. */
  function AcmeRecordName(domain: string): (name: string)
    ensures EndsWith(name, domain) && |name| == |ACME_CHALLENGE_PREFIX| + |domain|
  {
    ACME_CHALLENGE_PREFIX + domain
  }

  /** `domain.split('.').slice(-2).join('.')`: the zone that owns `domain`. */
  function RootDomain(domain: string): string {
    Join(LastTwo(Split(domain, '.')), ".")
  }

  /** Joining two non-empty lists of pieces is joining each and gluing them with the separator. */
  lemma {:induction false} JoinAppend(a: seq<string>, b: seq<string>, sep: string)
    requires |a| >= 1 && |b| >= 1
    ensures Join(a + b, sep) == Join(a, sep) + sep + Join(b, sep)
    decreases |a|
  {
    if |a| == 1 {
      assert (a + b)[1..] == b;
    } else {
      JoinAppend(a[1..], b, sep);
      assert (a + b)[1..] == a[1..] + b;
    }
  }

  /** The root domain consists of exactly the last two labels of the domain (or all, if fewer). */
  lemma RootDomainLabels(domain: string)
    ensures Split(RootDomain(domain), '.') == LastTwo(Split(domain, '.'))
  {
    var parts := Split(domain, '.');
    SplitPiecesFree(domain, '.');
    SplitJoin(LastTwo(parts), '.');
  }

  /** A domain of at most two labels is its own root domain. */
  lemma RootDomainOfShort(domain: string)
    requires |Split(domain, '.')| <= 2
    ensures RootDomain(domain) == domain
  {
    JoinSplit(domain, '.');
  }

  /** A longer domain ends with a dot followed by its root domain. */
  lemma RootDomainSuffix(domain: string)
    requires |Split(domain, '.')| > 2
    ensures EndsWith(domain, "." + RootDomain(domain))
  {
    var parts := Split(domain, '.');
    var k := |parts| - 2;
    JoinSplit(domain, '.');
    assert parts == parts[..k] + parts[k..];
    JoinAppend(parts[..k], parts[k..], ".");
    var head := Join(parts[..k], ".");
    assert domain == head + ("." + RootDomain(domain));
  }

  lemma RootDomainExamples()
    ensures RootDomain("a.b.example.com") == "example.com"
    ensures RootDomain("example.com") == "example.com"
  {
    var long := ["a", "b", "example", "com"];
    var short := ["example", "com"];
    assert Join(long, ".") == "a.b.example.com";
    assert Join(short, ".") == "example.com";
    SplitJoin(long, '.');
    SplitJoin(short, '.');
    assert LastTwo(long) == short;
  }

  /**
   * Whatever the domain, its DNS-01 record name ends with a dot and the
   * domain's root, so the adapters that strip that suffix always find it.
   */
  lemma AcmeRecordEndsWithRoot(domain: string)
    ensures EndsWith(AcmeRecordName(domain), "." + RootDomain(domain))
  {
    var name := AcmeRecordName(domain);
    var suffix := "." + RootDomain(domain);
    if |Split(domain, '.')| <= 2 {
      RootDomainOfShort(domain);
      assert name == "_acme-challenge" + suffix;
    } else {
      RootDomainSuffix(domain);
      assert name[|name| - |suffix|..] == domain[|domain| - |suffix|..];
    }
  }
}
