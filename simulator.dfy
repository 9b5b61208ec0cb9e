/** The traffic generator of components/simulator.py: batches of ordinary
    queries to well-known sites, and batches of queries that smuggle data
    through DNS with one of four techniques. Every random draw comes from an
    explicit stream, read from a cursor that each generator advances and
    returns; the clock reading `now` is passed in. */
module Simulator {
  import opened Text
  import opened Records
  import opened RandomSource
  import Base32

  // ---------------------------------------------------------------------------
  // Alphabets and fixed choices

  /** The `n` consecutive characters starting at `lo`. */
  function Range(lo: char, n: nat): (s: string)
    requires lo as int + n <= 0xD800
    ensures |s| == n && forall k | 0 <= k < n :: s[k] as int == lo as int + k
  {
    seq(n, i requires 0 <= i < n => (lo as int + i) as char)
  }

  /** `string.ascii_lowercase`. */
  const AsciiLowercase: string := Range('a', 26)
  /** `string.ascii_uppercase`. */
  const AsciiUppercase: string := Range('A', 26)
  /** `string.ascii_letters`, small letters first. */
  const AsciiLetters: string := AsciiLowercase + AsciiUppercase
  /** `string.digits`. */
  const Digits: string := Range('0', 10)

  /** The characters of the Base32 technique's random payload. */
  const Base32Source: string := AsciiLetters + Digits
  /** The characters of the Base64-like technique's random label. */
  const Base64Source: string := AsciiLetters + Digits + "+/"
  /** `'0123456789abcdef'`. */
  const HexSource: string := Digits + Range('a', 6)

  const SubdomainPrefixes: seq<string> := ["", "www.", "api.", "cdn."]
  const NormalTypes: seq<string> := ["A", "AAAA", "CNAME"]

  /** The client network; the host octet is drawn per record. */
  const SubnetPrefix: string := "192.168.1."

  const MaxNormalAgeSeconds: nat := 300
  const NormalHosts: (nat, nat) := (1, 50)
  const TunnelHosts: (nat, nat) := (100, 150)

  const Base32PayloadLength: nat := 30
  const Base64LabelLength: nat := 40
  const HexLabelLength: nat := 32
  const ChainLabels: nat := 6
  const ChainLabelLength: nat := 8
  const QueriesPerTechnique: nat := 3

  /** The well-known sites of the catalog, in catalog order. */
  const CatalogDomains: seq<string> := [
    "google.com", "youtube.com", "facebook.com", "amazon.com",
    "reddit.com", "github.com", "stackoverflow.com", "wikipedia.org",
    "twitter.com", "instagram.com", "linkedin.com", "netflix.com"
  ]

  /** The catalog read as (name, top-level domain) pairs, in catalog order. */
  const CatalogSites: seq<(string, string)> := [
    ("google", "com"), ("youtube", "com"), ("facebook", "com"), ("amazon", "com"),
    ("reddit", "com"), ("github", "com"), ("stackoverflow", "com"), ("wikipedia", "org"),
    ("twitter", "com"), ("instagram", "com"), ("linkedin", "com"), ("netflix", "com")
  ]

  /** A non-empty label of at most 13 characters. */
  predicate ShortLabel(s: string) {
    1 <= |s| <= 13 && DotFree(s)
  }

  /** Every catalog entry is a name, a dot and a top-level domain... */
  lemma CatalogSitesSpell(j: nat)
    requires j < |CatalogDomains|
    ensures |CatalogSites| == |CatalogDomains| && |CatalogDomains[j]| <= 17
    ensures CatalogDomains[j] == CatalogSites[j].0 + "." + CatalogSites[j].1
  {
  }

  /** ...both of them short labels. */
  lemma CatalogSitesShort(j: nat)
    requires j < |CatalogSites|
    ensures ShortLabel(CatalogSites[j].0) && ShortLabel(CatalogSites[j].1)
  {
  }

  /** Each prefix is empty or a three-letter label and a dot. */
  lemma PrefixRead(i: nat)
    requires i < |SubdomainPrefixes|
    ensures var p := SubdomainPrefixes[i];
            |p| <= 4 && (p == "" || (|p| == 4 && p == p[..3] + "." && ShortLabel(p[..3])))
  {
  }

  // ---------------------------------------------------------------------------
  // Client addresses

  /** An address of the client network: the prefix, then a numeral. */
  predicate IsSubnetAddress(ip: string) {
    |ip| > |SubnetPrefix| && ip[..|SubnetPrefix|] == SubnetPrefix &&
    forall k | |SubnetPrefix| <= k < |ip| :: IsDigit(ip[k])
  }

  /** The last octet of such an address, read back as a number. */
  function HostOctet(ip: string): nat
    requires IsSubnetAddress(ip)
  {
    ParseDecimal(ip[|SubnetPrefix|..])
  }

  /** `f"192.168.1.{host}"`: an address of the client network whose last
      octet reads back as `host`. */
  function ClientIp(host: nat): (ip: string)
    ensures IsSubnetAddress(ip) && HostOctet(ip) == host
  {
    var ip := SubnetPrefix + Decimal(host);
    assert ip[|SubnetPrefix|..] == Decimal(host);
    DecimalRoundTrip(host);
    ip
  }

  predicate HostIn(ip: string, range: (nat, nat)) {
    IsSubnetAddress(ip) && range.0 <= HostOctet(ip) <= range.1
  }

  // ---------------------------------------------------------------------------
  // The domains each technique builds

  /** Every character of `s` is one of `alphabet`. */
  predicate AllFrom(s: string, alphabet: string) {
    forall k | 0 <= k < |s| :: s[k] in alphabet
  }

  predicate IsAscii(s: string) {
    forall k | 0 <= k < |s| :: s[k] < 128 as char
  }

  /** `s.encode()` for an ASCII string: one byte per character. */
  function AsciiBytes(s: string): (b: seq<bv8>)
    requires IsAscii(s)
    ensures |b| == |s| && forall k | 0 <= k < |s| :: b[k] as int == s[k] as int
  {
    seq(|s|, k requires 0 <= k < |s| => s[k] as int as bv8)
  }

  /** `base64.b32encode(data.encode()).decode().lower().replace('=', '')`:
      only small letters and digits 2 to 7 remain, eight for every five
      bytes when the payload fills whole groups. */
  function Base32Label(data: string): (encoded: string)
    requires IsAscii(data)
    ensures forall k | 0 <= k < |encoded| :: IsBase32Char(encoded[k])
    ensures |data| % 5 == 0 ==> |encoded| == 8 * (|data| / 5)
  {
    var enc := Base32.Encode(AsciiBytes(data));
    RemovedPadsAreSymbols(enc);
    if |data| % 5 == 0 then
      LoweredSymbols(enc);
      WholeGroups(|data|);
      RemoveAll(Lower(enc), '=')
    else
      RemoveAll(Lower(enc), '=')
  }

  /** A length made of whole groups needs no partial group. */
  lemma WholeGroups(n: nat)
    requires n % 5 == 0
    ensures (n + 4) / 5 == n / 5
  {
  }

  /** Lowering Base32 output and removing its pads leaves small letters and
      digits 2 to 7 only. */
  lemma RemovedPadsAreSymbols(enc: string)
    requires forall k | 0 <= k < |enc| :: Base32.IsSymbolChar(enc[k]) || enc[k] == Base32.PadChar
    ensures forall k | 0 <= k < |RemoveAll(Lower(enc), '=')| :: IsBase32Char(RemoveAll(Lower(enc), '=')[k])
  {
    var low := Lower(enc);
    var r := RemoveAll(low, '=');
    RemoveAllCounts(low, '=');
    forall k | 0 <= k < |r| ensures IsBase32Char(r[k]) {
      assert r[k] in multiset(r);
      assert r[k] in multiset(low);
      var j :| 0 <= j < |low| && low[j] == r[k];
      assert Base32.IsSymbolChar(enc[j]) || enc[j] == Base32.PadChar;
    }
  }

  const Base32Zone: string := ".tunnel.evil.com"

  function Base32Domain(data: string): string
    requires IsAscii(data)
  {
    Base32Label(data) + Base32Zone
  }

  /** A character of `[A-Za-z0-9]`. */
  predicate IsAlnum(c: char) {
    'a' <= c <= 'z' || 'A' <= c <= 'Z' || '0' <= c <= '9'
  }

  /** The Base32 technique's domain: a label of 48 small letters and digits
      2 to 7, then `.tunnel.evil.com`. */
  predicate IsBase32TunnelDomain(d: string) {
    && |d| == 48 + |Base32Zone| && d[48..] == Base32Zone
    && (forall k | 0 <= k < 48 :: IsBase32Char(d[k]))
  }

  /** The label, raised to capitals, decodes to a payload of 30 bytes, each
      the code of a letter or digit. */
  predicate CarriesAlnumPayload(d: string)
    requires |d| >= 48
  {
    var payload := Base32.Decode(Upper(d[..48]));
    |payload| == Base32PayloadLength && forall k | 0 <= k < |payload| :: IsAlnum(payload[k] as int as char)
  }

  function Base64Domain(data: string): string {
    data + ".data.malicious.com"
  }

  function HexDomain(data: string): string {
    data + ".exfil.attacker.com"
  }

  function ChainDomain(labels: seq<string>): string
    requires |labels| >= 1
  {
    Join(labels) + ".covert.com"
  }

  /** The characters drawn for the Base32 payload are ASCII letters and digits. */
  lemma Base32SourceAlnum(data: string)
    requires AllFrom(data, Base32Source)
    ensures IsAscii(data) && forall k | 0 <= k < |data| :: IsAlnum(data[k])
  {
    forall k | 0 <= k < |data| ensures data[k] < 128 as char && IsAlnum(data[k]) {
      assert data[k] in AsciiLowercase || data[k] in AsciiUppercase || data[k] in Digits;
    }
  }

  /** Lowering a string of Base32 symbols gives small letters and digits
      2 to 7, and no `=` to remove; raising it again restores it. */
  lemma LoweredSymbols(enc: string)
    requires forall k | 0 <= k < |enc| :: Base32.IsSymbolChar(enc[k])
    ensures forall k | 0 <= k < |enc| :: IsBase32Char(Lower(enc)[k])
    ensures RemoveAll(Lower(enc), '=') == Lower(enc)
    ensures Upper(Lower(enc)) == enc
  {
    var low := Lower(enc);
    assert '=' !in low by {
      forall k | 0 <= k < |low| ensures low[k] != '=' {
        assert Base32.IsSymbolChar(enc[k]);
      }
    }
    assert Upper(low) == enc by {
      forall k | 0 <= k < |enc| ensures Upper(low)[k] == enc[k] {
        assert Base32.IsSymbolChar(enc[k]);
      }
    }
  }

  /** The Base32 label of a 30-character payload: 30 bytes are six whole
      groups, so the encoding is 48 characters with no padding, and after
      lowering every character is a small letter or a digit 2 to 7. Raising
      it again and decoding gives back the payload. */
  lemma Base32LabelShape(data: string)
    requires |data| == Base32PayloadLength && IsAscii(data)
    ensures var encoded := Base32Label(data);
            |encoded| == 48 &&
            (forall k | 0 <= k < 48 :: IsBase32Char(encoded[k])) &&
            Base32.Decode(Upper(encoded)) == AsciiBytes(data)
  {
    var bytes := AsciiBytes(data);
    var enc := Base32.Encode(bytes);
    assert |enc| == 48;
    LoweredSymbols(enc);
    assert Base32Label(data) == Lower(enc);
    Base32.DecodeEncode(bytes);
  }

  /** The domain built from an alphanumeric payload: a 48-character label
      of `[a-z2-7]` before the zone, decoding back to the payload. */
  lemma Base32DomainShape(data: string)
    requires |data| == Base32PayloadLength && IsAscii(data)
    requires forall k | 0 <= k < |data| :: IsAlnum(data[k])
    ensures IsBase32TunnelDomain(Base32Domain(data)) && CarriesAlnumPayload(Base32Domain(data))
  {
    Base32LabelShape(data);
    var d := Base32Domain(data);
    assert d[..48] == Base32Label(data) && d[48..] == Base32Zone;
    var payload := AsciiBytes(data);
    forall k | 0 <= k < |payload| ensures IsAlnum(payload[k] as int as char) {
      assert payload[k] as int as char == data[k];
    }
  }

  /** Every Base32-technique domain has the encoded label's shape and
      carries its alphanumeric payload. */
  lemma Base32TechniqueDomainShape(d: string)
    requires IsTechniqueDomain(Base32Tunnel, d)
    ensures IsBase32TunnelDomain(d) && CarriesAlnumPayload(d)
  {
    var data :| |data| == Base32PayloadLength && AllFrom(data, Base32Source) && IsAscii(data) && d == Base32Domain(data);
    Base32SourceAlnum(data);
    Base32DomainShape(data);
  }

  /** The chain of `labels` and `covert.com` splits into the labels, then
      `covert` and `com`. */
  lemma ChainDomainParts(labels: seq<string>)
    requires |labels| >= 1 && forall l | l in labels :: DotFree(l)
    ensures Split(ChainDomain(labels)) == labels + ["covert", "com"]
  {
    var tail := ["covert", "com"];
    assert Join(tail) == "covert.com";
    JoinAppend(labels, tail);
    assert Join(labels) + "." + "covert.com" == ChainDomain(labels);
    assert forall l | l in labels + tail :: DotFree(l);
    SplitJoin(labels + tail);
  }

  /** Six labels of eight small letters. */
  predicate ChainLabelsShape(labels: seq<string>) {
    |labels| == ChainLabels && forall l | l in labels :: |l| == ChainLabelLength && AllFrom(l, AsciiLowercase)
  }

  /** `[''.join(random.choices(string.ascii_lowercase, k=8)) for _ in range(6)]`,
      drawn from positions `k` to `k + 47`. */
  function DrawLabels(rng: Stream, k: nat): (labels: seq<string>)
    ensures ChainLabelsShape(labels)
  {
    seq(ChainLabels, i requires 0 <= i < ChainLabels =>
      Choices(rng, k + ChainLabelLength * i, AsciiLowercase, ChainLabelLength))
  }

  // ---------------------------------------------------------------------------
  // What the generators promise about each record

  /** One of the four prefixes followed by a catalog site. */
  predicate IsNormalDomain(d: string) {
    exists i, j | 0 <= i < |SubdomainPrefixes| && 0 <= j < |CatalogDomains| ::
      d == SubdomainPrefixes[i] + CatalogDomains[j]
  }

  /** A record of ordinary traffic: drawn up to 300 whole seconds in the
      past, from a host numbered 1 to 50, of type A, AAAA or CNAME, for a
      catalog site under one of the four prefixes, not marked suspicious. */
  predicate NormalRecord(q: QueryRecord, now: int)
    reads q
  {
    && q.timestamp.Some?
    && 0 <= now - q.timestamp.value <= MaxNormalAgeSeconds * MicrosPerSecond
    && (now - q.timestamp.value) % MicrosPerSecond == 0
    && HostIn(q.clientIp, NormalHosts)
    && q.qtype.Some? && q.qtype.value in NormalTypes
    && q.domain.Some? && IsNormalDomain(q.domain.value)
    && !q.suspicious && q.entropy == None
  }

  /** The four tunnelling techniques, in the order the source lists them. */
  datatype Technique = Base32Tunnel | Base64Tunnel | HexTunnel | LongSubdomainTunnel

  const Techniques: seq<Technique> := [Base32Tunnel, Base64Tunnel, HexTunnel, LongSubdomainTunnel]

  function RecordTypeOf(t: Technique): string {
    match t
    case Base32Tunnel => "TXT"
    case Base64Tunnel => "TXT"
    case HexTunnel => "NULL"
    case LongSubdomainTunnel => "A"
  }

  /** The domain shapes of the four techniques. */
  ghost predicate IsTechniqueDomain(t: Technique, d: string) {
    match t
    case Base32Tunnel =>
      exists data | |data| == Base32PayloadLength && AllFrom(data, Base32Source) && IsAscii(data) :: d == Base32Domain(data)
    case Base64Tunnel =>
      exists data | |data| == Base64LabelLength && AllFrom(data, Base64Source) :: d == Base64Domain(data)
    case HexTunnel =>
      exists data | |data| == HexLabelLength && AllFrom(data, HexSource) :: d == HexDomain(data)
    case LongSubdomainTunnel =>
      exists labels | ChainLabelsShape(labels) :: d == ChainDomain(labels)
  }

  /** A record of technique `t`: stamped now, from a host numbered 100 to
      150, of the technique's record type and domain shape, marked suspicious. */
  ghost predicate TechniqueRecord(t: Technique, q: QueryRecord, now: int)
    reads q
  {
    && q.timestamp == Some(now)
    && HostIn(q.clientIp, TunnelHosts)
    && q.qtype == Some(RecordTypeOf(t))
    && q.domain.Some? && IsTechniqueDomain(t, q.domain.value)
    && q.suspicious && q.entropy == None
  }

  // ---------------------------------------------------------------------------
  // The domain of one record, as each generator draws it

  /** A site of the catalog, then a prefix (positions `k` and `k + 1`). */
  function DrawNormalDomain(rng: Stream, k: nat): (d: string)
    ensures IsNormalDomain(d)
  {
    var domain := Choice(rng, k, CatalogDomains);
    var subdomain := Choice(rng, k + 1, SubdomainPrefixes);
    var i :| 0 <= i < |SubdomainPrefixes| && SubdomainPrefixes[i] == subdomain;
    var j :| 0 <= j < |CatalogDomains| && CatalogDomains[j] == domain;
    assert subdomain + domain == SubdomainPrefixes[i] + CatalogDomains[j];
    subdomain + domain
  }

  /** A 30-character payload (positions `k` to `k + 29`), Base32-encoded
      into the first label. */
  function DrawBase32Domain(rng: Stream, k: nat): (d: string)
    ensures IsTechniqueDomain(Base32Tunnel, d)
  {
    var randomData := Choices(rng, k, Base32Source, Base32PayloadLength);
    Base32SourceAlnum(randomData);
    Base32Domain(randomData)
  }

  /** A 40-character label (positions `k` to `k + 39`). */
  function DrawBase64Domain(rng: Stream, k: nat): (d: string)
    ensures IsTechniqueDomain(Base64Tunnel, d)
  {
    Base64Domain(Choices(rng, k, Base64Source, Base64LabelLength))
  }

  /** A 32-digit hex label (positions `k` to `k + 31`). */
  function DrawHexDomain(rng: Stream, k: nat): (d: string)
    ensures IsTechniqueDomain(HexTunnel, d)
  {
    HexDomain(Choices(rng, k, HexSource, HexLabelLength))
  }

  /** Six labels (positions `k` to `k + 47`) joined in front of `covert.com`. */
  function DrawChainDomain(rng: Stream, k: nat): (d: string)
    ensures IsTechniqueDomain(LongSubdomainTunnel, d)
  {
    ChainDomain(DrawLabels(rng, k))
  }

  /** Each round's technique once for every record the round produces. */
  function Batched(chosen: seq<Technique>): (ts: seq<Technique>)
    ensures |ts| == QueriesPerTechnique * |chosen|
    ensures forall i | 0 <= i < |ts| :: ts[i] in chosen
  {
    if chosen == [] then []
    else
      var t := chosen[|chosen| - 1];
      Batched(chosen[..|chosen| - 1]) + [t, t, t]
  }

  /** A further round appends its technique three times. */
  lemma BatchedSnoc(chosen: seq<Technique>, t: Technique)
    ensures Batched(chosen + [t]) == Batched(chosen) + [t, t, t]
  {
    assert (chosen + [t])[..|chosen|] == chosen;
  }

  /** Round `b` owns records `3b`, `3b + 1` and `3b + 2`: the technique
      changes only between rounds. */
  lemma {:induction false} BatchedRounds(chosen: seq<Technique>, b: nat, j: nat)
    requires b < |chosen| && j < QueriesPerTechnique
    ensures Batched(chosen)[QueriesPerTechnique * b + j] == chosen[b]
  {
    var init, t := chosen[..|chosen| - 1], chosen[|chosen| - 1];
    assert Batched(chosen) == Batched(init) + [t, t, t];
    if b < |init| {
      BatchedRounds(init, b, j);
      assert init[b] == chosen[b];
    }
  }

  /** `range(count)` runs `max(count, 0)` times. */
  function Times(count: int): nat {
    if count > 0 then count else 0
  }

  /** One pass of the loop of `generate_normal_traffic`: the domain from
      positions `k` and `k + 1`, then the age, the host and the type. */
  method NewNormalRecord(rng: Stream, k: nat, now: int) returns (q: QueryRecord)
    ensures fresh(q) && NormalRecord(q, now)
  {
    var fullDomain := DrawNormalDomain(rng, k);
    var age := RandInt(rng, k + 2, 0, MaxNormalAgeSeconds);
    var host := RandInt(rng, k + 3, NormalHosts.0, NormalHosts.1);
    var qtype := Choice(rng, k + 4, NormalTypes);
    q := new QueryRecord(now - age * MicrosPerSecond, ClientIp(host), qtype, fullDomain, false);
  }

  /** One pass of the loop of `_generate_*_tunnel`: the technique's domain,
      drawn from position `k`, then the host, drawn right after it, in a new
      record stamped now and marked suspicious. */
  method NewTunnelRecord(t: Technique, rng: Stream, k: nat, now: int) returns (q: QueryRecord)
    ensures fresh(q) && TechniqueRecord(t, q, now)
  {
    var domain, hostDraw;
    match t {
      case Base32Tunnel => domain, hostDraw := DrawBase32Domain(rng, k), k + Base32PayloadLength;
      case Base64Tunnel => domain, hostDraw := DrawBase64Domain(rng, k), k + Base64LabelLength;
      case HexTunnel => domain, hostDraw := DrawHexDomain(rng, k), k + HexLabelLength;
      case LongSubdomainTunnel => domain, hostDraw := DrawChainDomain(rng, k), k + ChainLabels * ChainLabelLength;
    }
    var host := RandInt(rng, hostDraw, TunnelHosts.0, TunnelHosts.1);
    q := new QueryRecord(now, ClientIp(host), RecordTypeOf(t), domain, true);
  }

  // ---------------------------------------------------------------------------
  // The generator

  /** The simulator; its one field is the catalog `__init__` sets. */
  class DnsTunnelSimulator {
    const normalDomains: seq<string> := CatalogDomains

    constructor ()
      ensures normalDomains == CatalogDomains
    {
    }

    /** `generate_normal_traffic(count)`: five draws per record (site,
        prefix, age, host, type). */
    method GenerateNormalTraffic(rng: Stream, k0: nat, now: int, count: int)
      returns (queries: seq<QueryRecord>, k: nat)
      ensures |queries| == Times(count) && k == k0 + 5 * |queries|
      ensures forall i | 0 <= i < |queries| :: NormalRecord(queries[i], now)
      ensures forall i | 0 <= i < |queries| :: fresh(queries[i])
    {
      queries := [];
      k := k0;
      var n := 0;
      while n < count
        invariant |queries| == Times(n) && k == k0 + 5 * |queries|
        invariant n <= Times(count)
        invariant forall i | 0 <= i < |queries| :: NormalRecord(queries[i], now)
        invariant forall i | 0 <= i < |queries| :: fresh(queries[i])
      {
        var q := NewNormalRecord(rng, k, now);
        ghost var prev := queries;
        queries := queries + [q];
        forall i | 0 <= i < |queries| ensures NormalRecord(queries[i], now) && fresh(queries[i]) {
          if i < |prev| {
            assert queries[i] == prev[i];
          }
        }
        k := k + 5;
        n := n + 1;
      }
    }

    /** `generate_tunnel_traffic(count)`: per round one technique is drawn
        and three of its records appended. The ghost `chosen` lists the
        technique drawn in each round, so record `i` is one of
        `Batched(chosen)[i]`. */
    method GenerateTunnelTraffic(rng: Stream, k0: nat, now: int, count: int)
      returns (queries: seq<QueryRecord>, k: nat, ghost chosen: seq<Technique>)
      ensures |chosen| == Times(count) && |queries| == QueriesPerTechnique * |chosen|
      ensures k >= k0
      ensures forall i | 0 <= i < |queries| :: TechniqueRecord(Batched(chosen)[i], queries[i], now)
      ensures forall i | 0 <= i < |queries| :: fresh(queries[i])
    {
      queries := [];
      k := k0;
      chosen := [];
      var n := 0;
      while n < count
        invariant |chosen| == Times(n) && |queries| == QueriesPerTechnique * |chosen|
        invariant n <= Times(count) && k >= k0
        invariant forall i | 0 <= i < |queries| :: TechniqueRecord(Batched(chosen)[i], queries[i], now)
        invariant forall i | 0 <= i < |queries| :: fresh(queries[i])
      {
        var technique := Choice(rng, k, Techniques);
        var batch;
        batch, k := GenerateBatch(technique, rng, k + 1, now);
        ghost var rounds := chosen;
        ghost var prev := queries;
        ghost var base := |queries|;
        queries := queries + batch;
        chosen := chosen + [technique];
        BatchedSnoc(rounds, technique);
        forall i | 0 <= i < |queries|
          ensures TechniqueRecord(Batched(chosen)[i], queries[i], now) && fresh(queries[i])
        {
          if i >= base {
            assert queries[i] == batch[i - base] && Batched(chosen)[i] == technique;
          } else {
            assert queries[i] == prev[i] && Batched(chosen)[i] == Batched(rounds)[i];
          }
        }
        n := n + 1;
      }
    }

    /** One round of `generate_tunnel_traffic`: the batch of the chosen
        technique. */
    method GenerateBatch(technique: Technique, rng: Stream, k0: nat, now: int)
      returns (batch: seq<QueryRecord>, k: nat)
      ensures |batch| == QueriesPerTechnique && k >= k0
      ensures forall j | 0 <= j < |batch| :: TechniqueRecord(technique, batch[j], now) && fresh(batch[j])
    {
      match technique {
        case Base32Tunnel => batch, k := GenerateBase32Tunnel(rng, k0, now, QueriesPerTechnique);
        case Base64Tunnel => batch, k := GenerateBase64Tunnel(rng, k0, now, QueriesPerTechnique);
        case HexTunnel => batch, k := GenerateHexTunnel(rng, k0, now, QueriesPerTechnique);
        case LongSubdomainTunnel => batch, k := GenerateLongSubdomainTunnel(rng, k0, now, QueriesPerTechnique);
      }
    }

    /** `_generate_base32_tunnel(count)`: 31 draws per record (30 payload
        characters, then the host). */
    method GenerateBase32Tunnel(rng: Stream, k0: nat, now: int, count: int)
      returns (queries: seq<QueryRecord>, k: nat)
      ensures |queries| == Times(count) && k == k0 + 31 * |queries|
      ensures forall i | 0 <= i < |queries| :: TechniqueRecord(Base32Tunnel, queries[i], now)
      ensures forall i | 0 <= i < |queries| :: fresh(queries[i])
    {
      queries := [];
      k := k0;
      var n := 0;
      while n < count
        invariant |queries| == Times(n) && k == k0 + 31 * |queries|
        invariant n <= Times(count)
        invariant forall i | 0 <= i < |queries| :: TechniqueRecord(Base32Tunnel, queries[i], now)
        invariant forall i | 0 <= i < |queries| :: fresh(queries[i])
      {
        var q := NewTunnelRecord(Base32Tunnel, rng, k, now);
        ghost var prev := queries;
        queries := queries + [q];
        forall i | 0 <= i < |queries|
          ensures TechniqueRecord(Base32Tunnel, queries[i], now) && fresh(queries[i])
        {
          if i < |prev| {
            assert queries[i] == prev[i];
          }
        }
        k := k + 31;
        n := n + 1;
      }
    }

    /** `_generate_base64_tunnel(count)`: 41 draws per record. */
    method GenerateBase64Tunnel(rng: Stream, k0: nat, now: int, count: int)
      returns (queries: seq<QueryRecord>, k: nat)
      ensures |queries| == Times(count) && k == k0 + 41 * |queries|
      ensures forall i | 0 <= i < |queries| :: TechniqueRecord(Base64Tunnel, queries[i], now)
      ensures forall i | 0 <= i < |queries| :: fresh(queries[i])
    {
      queries := [];
      k := k0;
      var n := 0;
      while n < count
        invariant |queries| == Times(n) && k == k0 + 41 * |queries|
        invariant n <= Times(count)
        invariant forall i | 0 <= i < |queries| :: TechniqueRecord(Base64Tunnel, queries[i], now)
        invariant forall i | 0 <= i < |queries| :: fresh(queries[i])
      {
        var q := NewTunnelRecord(Base64Tunnel, rng, k, now);
        ghost var prev := queries;
        queries := queries + [q];
        forall i | 0 <= i < |queries|
          ensures TechniqueRecord(Base64Tunnel, queries[i], now) && fresh(queries[i])
        {
          if i < |prev| {
            assert queries[i] == prev[i];
          }
        }
        k := k + 41;
        n := n + 1;
      }
    }

    /** `_generate_hex_tunnel(count)`: 33 draws per record. */
    method GenerateHexTunnel(rng: Stream, k0: nat, now: int, count: int)
      returns (queries: seq<QueryRecord>, k: nat)
      ensures |queries| == Times(count) && k == k0 + 33 * |queries|
      ensures forall i | 0 <= i < |queries| :: TechniqueRecord(HexTunnel, queries[i], now)
      ensures forall i | 0 <= i < |queries| :: fresh(queries[i])
    {
      queries := [];
      k := k0;
      var n := 0;
      while n < count
        invariant |queries| == Times(n) && k == k0 + 33 * |queries|
        invariant n <= Times(count)
        invariant forall i | 0 <= i < |queries| :: TechniqueRecord(HexTunnel, queries[i], now)
        invariant forall i | 0 <= i < |queries| :: fresh(queries[i])
      {
        var q := NewTunnelRecord(HexTunnel, rng, k, now);
        ghost var prev := queries;
        queries := queries + [q];
        forall i | 0 <= i < |queries|
          ensures TechniqueRecord(HexTunnel, queries[i], now) && fresh(queries[i])
        {
          if i < |prev| {
            assert queries[i] == prev[i];
          }
        }
        k := k + 33;
        n := n + 1;
      }
    }

    /** `_generate_long_subdomain_tunnel(count)`: 49 draws per record (six
        labels of eight letters, then the host). */
    method GenerateLongSubdomainTunnel(rng: Stream, k0: nat, now: int, count: int)
      returns (queries: seq<QueryRecord>, k: nat)
      ensures |queries| == Times(count) && k == k0 + 49 * |queries|
      ensures forall i | 0 <= i < |queries| :: TechniqueRecord(LongSubdomainTunnel, queries[i], now)
      ensures forall i | 0 <= i < |queries| :: fresh(queries[i])
    {
      queries := [];
      k := k0;
      var n := 0;
      while n < count
        invariant |queries| == Times(n) && k == k0 + 49 * |queries|
        invariant n <= Times(count)
        invariant forall i | 0 <= i < |queries| :: TechniqueRecord(LongSubdomainTunnel, queries[i], now)
        invariant forall i | 0 <= i < |queries| :: fresh(queries[i])
      {
        var q := NewTunnelRecord(LongSubdomainTunnel, rng, k, now);
        ghost var prev := queries;
        queries := queries + [q];
        forall i | 0 <= i < |queries|
          ensures TechniqueRecord(LongSubdomainTunnel, queries[i], now) && fresh(queries[i])
        {
          if i < |prev| {
            assert queries[i] == prev[i];
          }
        }
        k := k + 49;
        n := n + 1;
      }
    }
  }
}
