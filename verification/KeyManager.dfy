/** The local key manager: per-tenant KEKs derived from a master secret, with a cache. */
module KeyManager {
  import opened Basics
  import Text

  type Master = nat
  type Dek = nat

  /** HKDF of a master with the kekID as salt, taken to be collision-free. */
  datatype Kek = Derived(master: Master, kekId: string)

  /** AES-GCM: opens under the key that sealed it and under no other. Anything else is not an
      envelope at all. */
  datatype Envelope = Sealed(kek: Kek, dek: Dek, nonce: nat) | Garbage(bytes: string)

  datatype Secrets = Secrets(master: Master, regions: map<string, Master>)

  // ---- which master -----------------------------------------------------------------

  /** The part before the first '@', unless that is at the very start. */
  function Trimmed(kekId: string): string {
    if kekId == "" || kekId[0] == '@' then kekId else Text.Split(kekId, '@')[0]
  }

  /** Four or more segments name a region; an unknown region is an error, never the global master. */
  function MasterFor(s: Secrets, kekId: string): Option<Master> {
    if s.regions == map[] then Some(s.master)
    else
      var parts := Text.Split(Trimmed(kekId), '/');
      if |parts| < 4 then Some(s.master)
      else if parts[3] in s.regions then Some(s.regions[parts[3]])
      else None
  }

  function Derive(s: Secrets, kekId: string): Option<Kek> {
    if kekId == "" then None
    else
      var m := MasterFor(s, kekId);
      if m.None? then None else Some(Derived(m.value, kekId))
  }

  function Seal(s: Secrets, kekId: string, dek: Dek, nonce: nat): Option<Envelope> {
    var k := Derive(s, kekId);
    if k.None? then None else Some(Sealed(k.value, dek, nonce))
  }

  function Open(s: Secrets, kekId: string, e: Envelope): Option<Dek> {
    var k := Derive(s, kekId);
    if k.Some? && e.Sealed? && e.kek == k.value then Some(e.dek) else None
  }

  // ---- tenant aliases never name a region --------------------------------------------------

  function Base(tenant: string): string { "vaultdms" + ['/'] + ("tenant" + ['/'] + tenant) }

  function Digit(n: nat): char
    requires n < 10
  {
    '0' + n as char
  }

  function Decimal(n: nat): (s: string)
    ensures '/' !in s && '@' !in s
  {
    if n < 10 then [Digit(n)] else Decimal(n / 10) + [Digit(n % 10)]
  }

  /** Version 1 has the bare alias, later ones a "@v<N>" suffix. */
  function Alias(tenant: string, version: nat): string {
    if version <= 1 then Base(tenant) else Base(tenant) + ['@'] + ("v" + Decimal(version))
  }

  predicate PlainTenant(tenant: string) { tenant != "" && '/' !in tenant && '@' !in tenant }

  lemma SplitBase(tenant: string)
    requires PlainTenant(tenant)
    ensures Text.Split(Base(tenant), '/') == ["vaultdms", "tenant", tenant]
    ensures '@' !in Base(tenant)
  {
    Text.SplitToken(tenant, '/');
    Text.SplitFirst("tenant", tenant, '/');
    Text.SplitFirst("vaultdms", "tenant" + ['/'] + tenant, '/');
  }

  /** Rotation keeps a tenant on the global master: every version of its alias derives, and from
      the same master. */
  lemma TenantAliasUsesGlobalMaster(s: Secrets, tenant: string, version: nat)
    requires PlainTenant(tenant)
    ensures Derive(s, Alias(tenant, version)) == Some(Derived(s.master, Alias(tenant, version)))
  {
    SplitBase(tenant);
    var base := Base(tenant);
    assert base[0] == 'v';
    if version <= 1 {
      Text.SplitToken(base, '@');
    } else {
      Text.SplitFirst(base, "v" + Decimal(version), '@');
      assert Alias(tenant, version)[0] == 'v';
    }
    assert Trimmed(Alias(tenant, version)) == base;
  }

  /** A regional alias, of any version, derives from its region's master and from no other: without any
      regions configured from the global one, and not at all when its region is unknown. */
  lemma RegionalAliasUsesRegion(s: Secrets, tenant: string, region: string, suffix: string)
    requires PlainTenant(tenant) && region != "" && '/' !in region && '@' !in region
    requires suffix == "" || suffix[0] == '@'
    ensures var kekId := Base(tenant) + ['/'] + region + suffix;
      Derive(s, kekId) ==
        if s.regions == map[] then Some(Derived(s.master, kekId))
        else if region in s.regions then Some(Derived(s.regions[region], kekId))
        else None
  {
    var core := Base(tenant) + ['/'] + region;
    var kekId := core + suffix;
    SplitRegional(tenant, region);
    SplitBase(tenant);
    assert '@' !in core && core[0] == 'v' && kekId[0] == 'v';
    if suffix == "" {
      assert kekId == core;
      Text.SplitToken(core, '@');
    } else {
      assert kekId == core + ['@'] + suffix[1..];
      Text.SplitFirst(core, suffix[1..], '@');
    }
    assert Trimmed(kekId) == core;
  }

  lemma SplitRegional(tenant: string, region: string)
    requires PlainTenant(tenant) && '/' !in region
    ensures Text.Split(Base(tenant) + ['/'] + region, '/') == ["vaultdms", "tenant", tenant, region]
  {
    hide Text.Split, Base;
    SplitBelow("vaultdms", "tenant", tenant, region);
    JoinedBase(tenant, region);
  }

  lemma SplitBelow(a: string, b: string, c: string, d: string)
    requires '/' !in a && '/' !in b && '/' !in c && '/' !in d
    ensures Text.Split(a + ['/'] + (b + ['/'] + (c + ['/'] + d)), '/') == [a, b, c, d]
  {
    hide Text.Split;
    var two := c + ['/'] + d;
    var three := b + ['/'] + two;
    Text.SplitToken(d, '/');
    Text.SplitFirst(c, d, '/');
    Text.SplitFirst(b, two, '/');
    Text.SplitFirst(a, three, '/');
    assert [a] + ([b] + ([c] + [d])) == [a, b, c, d];
  }

  lemma JoinedBase(tenant: string, region: string)
    ensures Base(tenant) + ['/'] + region == "vaultdms" + ['/'] + ("tenant" + ['/'] + (tenant + ['/'] + region))
  {
  }

  /** What one alias's key sealed, no other alias opens: not an older version, nor another tenant or
      region. */
  lemma OneAliasOpens(s: Secrets, a: string, b: string, e: Envelope)
    requires Open(s, a, e).Some? && Open(s, b, e).Some?
    ensures a == b
  {
    hide MasterFor;
  }

  /** Reading a decimal numeral. */
  function ReadDecimal(s: string): int {
    if s == "" then 0 else 10 * ReadDecimal(s[..|s| - 1]) + (s[|s| - 1] as int - '0' as int)
  }

  lemma {:induction false} DecimalReads(n: nat)
    ensures ReadDecimal(Decimal(n)) == n
  {
    var s := Decimal(n);
    if n < 10 {
      assert s[..0] == "" && ReadDecimal("") == 0;
    } else {
      DecimalReads(n / 10);
      assert s[..|s| - 1] == Decimal(n / 10);
    }
  }

  /** Different versions have different aliases. */
  lemma AliasInjective(tenant: string, v: nat, v': nat)
    requires v >= 1 && v' >= 1 && Alias(tenant, v) == Alias(tenant, v')
    ensures v == v'
  {
    var base := Base(tenant);
    if v > 1 && v' > 1 {
      DecimalReads(v);
      DecimalReads(v');
      assert Decimal(v) == Alias(tenant, v)[|base| + 2..] && Decimal(v') == Alias(tenant, v')[|base| + 2..];
    } else {
      assert v > 1 ==> |Alias(tenant, v)| > |base|;
      assert v' > 1 ==> |Alias(tenant, v')| > |base|;
    }
  }

  // ---- the manager ----------------------------------------------------------------------------

  /** The local splitter, byte by byte. */
  method SplitOnSlash(s: string) returns (out: seq<string>)
    ensures out == Text.Split(s, '/')
  {
    hide Text.Split;
    out := [];
    var start := 0;
    for i := 0 to |s|
      invariant 0 <= start <= i
      invariant '/' !in s[start..i]
      invariant out + Text.Split(s[start..], '/') == Text.Split(s, '/')
    {
      if s[i] == '/' {
        Text.SplitFirst(s[start..i], s[i + 1..], '/');
        assert s[start..] == s[start..i] + ['/'] + s[i + 1..];
        out := out + [s[start..i]];
        start := i + 1;
      } else {
        assert s[start..i + 1] == s[start..i] + [s[i]];
      }
    }
    assert s[start..|s|] == s[start..];
    Text.SplitToken(s[start..], '/');
    out := out + [s[start..]];
  }

  class LocalKeyManager {
    const secrets: Secrets
    var cache: map<string, Kek>

    /** Every cached KEK is what deriving it afresh would give. */
    ghost predicate Valid()
      reads this
    {
      forall id <- cache :: Derive(secrets, id) == Some(cache[id])
    }

    constructor (secrets: Secrets)
      ensures Valid() && this.secrets == secrets && cache == map[]
    {
      this.secrets := secrets;
      cache := map[];
    }

    method PickMaster(kekId: string) returns (m: Option<Master>)
      ensures m == MasterFor(secrets, kekId)
    {
      if secrets.regions == map[] {
        return Some(secrets.master);
      }
      var parts := SplitOnSlash(Trimmed(kekId));
      if |parts| < 4 {
        return Some(secrets.master);
      }
      if parts[3] in secrets.regions {
        return Some(secrets.regions[parts[3]]);
      }
      return None;
    }

    method DeriveKEK(kekId: string) returns (k: Option<Kek>)
      requires Valid()
      modifies this
      ensures Valid() && k == Derive(secrets, kekId)
      ensures cache == if k.Some? then old(cache)[kekId := k.value] else old(cache)
    {
      hide MasterFor;
      if kekId == "" {
        return None;
      }
      if kekId in cache {
        assert cache == cache[kekId := cache[kekId]];
        return Some(cache[kekId]);
      }
      var m := PickMaster(kekId);
      if m.None? {
        return None;
      }
      cache := cache[kekId := Derived(m.value, kekId)];
      return Some(Derived(m.value, kekId));
    }

    method EncryptDataKey(kekId: string, dek: Dek, nonce: nat) returns (e: Option<Envelope>)
      requires Valid()
      modifies this
      ensures Valid() && e == Seal(secrets, kekId, dek, nonce)
    {
      var k := DeriveKEK(kekId);
      e := if k.None? then None else Some(Sealed(k.value, dek, nonce));
    }

    method DecryptDataKey(kekId: string, e: Envelope) returns (dek: Option<Dek>)
      requires Valid()
      modifies this
      ensures Valid() && dek == Open(secrets, kekId, e)
    {
      var k := DeriveKEK(kekId);
      dek := if k.Some? && e.Sealed? && e.kek == k.value then Some(e.dek) else None;
    }
  }
}
