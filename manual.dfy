/**
 * The Manual adapter: no DNS is touched; the pending challenge is kept in a
 * process-wide map, keyed by domain, for the operator to read and publish by
 * hand. The map is a JavaScript `Map`, so its values come back in the order in
 * which their keys were first inserted.
 */
module ManualDns {
  import opened Wrappers
  import opened DnsCommon

  /** `s` with every occurrence of `x` taken out, the rest in order. */
  function Without(s: seq<string>, x: string): (r: seq<string>)
    ensures |r| <= |s|
    decreases |s|
  {
    if |s| == 0 then []
    else (if s[0] == x then [] else [s[0]]) + Without(s[1..], x)
  }

  lemma {:induction false} WithoutMembers(s: seq<string>, x: string, y: string)
    ensures y in Without(s, x) <==> y in s && y != x
    decreases |s|
  {
    if |s| > 0 {
      WithoutMembers(s[1..], x, y);
      assert s == [s[0]] + s[1..];
    }
  }

  ghost predicate Distinct(s: seq<string>) {
    forall i, j :: 0 <= i < j < |s| ==> s[i] != s[j]
  }

  lemma {:induction false} WithoutDistinct(s: seq<string>, x: string)
    requires Distinct(s)
    ensures Distinct(Without(s, x))
    decreases |s|
  {
    if |s| > 0 {
      WithoutDistinct(s[1..], x);
      var rest := Without(s[1..], x);
      forall y | y in rest ensures y != s[0] {
        WithoutMembers(s[1..], x, y);
        var j :| 0 <= j < |s[1..]| && s[1..][j] == y;
        assert s[j + 1] == y;
      }
      var w := Without(s, x);
      if s[0] == x {
        assert w == rest;
      } else {
        assert w == [s[0]] + rest;
        forall i, j | 0 <= i < j < |w| ensures w[i] != w[j] {
          assert w[j] == rest[j - 1] && rest[j - 1] in rest;
          if i > 0 {
            assert w[i] == rest[i - 1];
          }
        }
      }
    }
  }

  /** The static `pendingChallenges` map of `ManualProvider`. */
  class PendingChallenges {
    var entries: map<string, DnsChallenge>
    /** The keys of `entries` in insertion order. */
    var order: seq<string>

    ghost predicate Valid()
      reads this
    {
      && Distinct(order)
      && (forall k :: k in entries <==> k in order)
      && (forall k :: k in entries ==> entries[k].domain == k)
    }

    constructor ()
      ensures Valid() && entries == map[] && order == []
    {
      entries := map[];
      order := [];
    }

    /**
     * `createRecord`: `pendingChallenges.set(domain, challenge)`. A later
     * challenge for the same domain replaces the earlier one and keeps its place.
     */
    method CreateRecord(c: DnsChallenge)
      requires Valid()
      modifies this
      ensures Valid()
      ensures entries == old(entries)[c.domain := c]
      ensures order == if c.domain in old(entries) then old(order) else old(order) + [c.domain]
    {
      if c.domain !in entries {
        order := order + [c.domain];
      }
      entries := entries[c.domain := c];
    }

    /** `deleteRecord`: removes the domain's entry whatever the record value; other domains stay. */
    method DeleteRecord(c: DnsChallenge)
      requires Valid()
      modifies this
      ensures Valid()
      ensures entries == old(entries) - {c.domain}
      ensures order == Without(old(order), c.domain)
    {
      forall y ensures y in Without(order, c.domain) <==> y in order && y != c.domain {
        WithoutMembers(order, c.domain, y);
      }
      WithoutDistinct(order, c.domain);
      entries := entries - {c.domain};
      order := Without(order, c.domain);
    }

    /** `getPendingChallenge`: the domain's entry, if there is one. */
    function GetPendingChallenge(domain: string): (r: Option<DnsChallenge>)
      reads this
      ensures r.Some? <==> domain in entries
      ensures r.Some? ==> r.value == entries[domain]
    {
      if domain in entries then Some(entries[domain]) else None
    }

    /**
     * `getAllPendingChallenges`: `Array.from(map.values())`, one challenge per
     * domain in insertion order.
     */
    method GetAllPendingChallenges() returns (r: seq<DnsChallenge>)
      requires Valid()
      ensures |r| == |order|
      ensures forall i :: 0 <= i < |r| ==> order[i] in entries && r[i] == entries[order[i]]
      ensures forall i, j :: 0 <= i < j < |r| ==> r[i].domain != r[j].domain
    {
      r := [];
      var i := 0;
      while i < |order|
        invariant 0 <= i <= |order|
        invariant |r| == i
        invariant forall k :: 0 <= k < i ==> order[k] in entries && r[k] == entries[order[k]]
      {
        r := r + [entries[order[i]]];
        i := i + 1;
      }
    }

    /** `verifyCredentials`: the manual mode always reports working credentials. */
    function VerifyCredentials(): (ok: bool)
      ensures ok
    {
      true
    }
  }

  /** Two challenges for one domain: the pending entry is the second. */
  method LastCreateWins(c1: DnsChallenge, c2: DnsChallenge) returns (r: Option<DnsChallenge>)
    requires c1.domain == c2.domain
    ensures r == Some(c2)
  {
    var pending := new PendingChallenges();
    pending.CreateRecord(c1);
    pending.CreateRecord(c2);
    r := pending.GetPendingChallenge(c1.domain);
  }

  /** After a delete the domain has no pending entry, whatever value the delete carried. */
  method DeleteClears(c: DnsChallenge, other: DnsChallenge) returns (r: Option<DnsChallenge>)
    requires other.domain == c.domain
    ensures r == None
  {
    var pending := new PendingChallenges();
    pending.CreateRecord(c);
    pending.DeleteRecord(other);
    r := pending.GetPendingChallenge(c.domain);
  }
}
