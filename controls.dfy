/** What the detector reports on the simulator's traffic: every tunnelling
    record is flagged by `analyze_query`, ordinary records never trip the
    pattern, record-type or depth checks, and the window statistics see
    every record of a fresh batch. */
module Controls {
  import opened Text
  import opened Records
  import opened Detector
  import opened Simulator

  // ---------------------------------------------------------------------------
  // Domains whose labels are short

  /** No pattern character is a dot, so a run of pattern characters lies inside one label. */
  lemma RunIsDotFree(s: string, p: Pattern, i: nat, n: nat)
    requires RunAt(s, p, i, n)
    ensures DotFreeAt(s, i, n)
  {
    forall k | i <= k < i + n ensures s[k] != '.' {
      assert InClass(p, s[k]);
    }
  }

  /** When every label is shorter than 20 characters, none of the three run patterns matches. */
  lemma ShortLabelsNoRun(d: string, p: Pattern)
    requires p != LongLabels
    requires forall part | part in Split(d) :: |part| < MinRunLength
    ensures !Matches(p, d)
  {
    if HasRun(d, p) {
      var i: nat :| i + MinRunLength <= |d| && RunAt(d, p, i, MinRunLength);
      RunIsDotFree(d, p, i, MinRunLength);
      ShortLabelsNoDotFreeRun(d, MinRunLength, i);
      assert false;
    }
  }

  /** When every label is shorter than 10 characters, `(\w{10,}\.){3,}` does not match. */
  lemma ShortLabelsNoWordChain(d: string)
    requires forall part | part in Split(d) :: |part| < MinWordLabelLength
    ensures !Matches(LongLabels, d)
  {
    if HasWordLabels(d) {
      var i: nat :| i < |d| && WordLabelChain(d, i, MinWordLabels);
      var j: nat :| i + MinWordLabelLength <= j < |d| && WordLabelAt(d, i, j) && WordLabelChain(d, j + 1, 2);
      assert DotFreeAt(d, i, MinWordLabelLength) by {
        forall k | i <= k < i + MinWordLabelLength ensures d[k] != '.' {
          assert IsWordChar(d[k]);
        }
      }
      ShortLabelsNoDotFreeRun(d, MinWordLabelLength, i);
      assert false;
    }
  }

  // ---------------------------------------------------------------------------
  // Ordinary traffic

  /** A site `name.tld` splits into its two labels. */
  lemma SiteParts(name: string, tld: string)
    requires ShortLabel(name) && ShortLabel(tld)
    ensures Split(name + "." + tld) == [name, tld]
  {
    SplitDotted(name, tld);
    SplitLabel(tld);
  }

  /** A prefix adds at most one short label in front of a site. */
  lemma PrefixedParts(prefix: string, name: string, tld: string)
    requires prefix == "" || (|prefix| == 4 && prefix == prefix[..3] + "." && ShortLabel(prefix[..3]))
    requires ShortLabel(name) && ShortLabel(tld)
    ensures |Split(prefix + (name + "." + tld))| <= 3
    ensures forall part | part in Split(prefix + (name + "." + tld)) :: |part| <= 13
  {
    var site := name + "." + tld;
    SiteParts(name, tld);
    if prefix != "" {
      assert prefix + site == prefix[..3] + "." + site;
      SplitDotted(prefix[..3], site);
    } else {
      assert prefix + site == site;
    }
  }

  /** An ordinary domain is a catalog site under an optional three-letter
      prefix: at most three labels of at most 13 characters, 21 characters in all. */
  lemma NormalDomainParts(d: string)
    requires IsNormalDomain(d)
    ensures |Split(d)| <= 3 && |d| <= 21
    ensures forall part | part in Split(d) :: |part| <= 13
  {
    var i, j :| 0 <= i < |SubdomainPrefixes| && 0 <= j < |CatalogDomains| &&
                d == SubdomainPrefixes[i] + CatalogDomains[j];
    CatalogSitesSpell(j);
    CatalogSitesShort(j);
    PrefixRead(i);
    PrefixedParts(SubdomainPrefixes[i], CatalogSites[j].0, CatalogSites[j].1);
  }

  /** An ordinary record trips none of the pattern, record-type or depth
      checks: whatever the entropy, its only possible finding is the
      high-entropy one. */
  lemma NormalRecordOnlyEntropyFinding(q: QueryRecord, now: int, shannon: EntropyOracle)
    requires NormalRecord(q, now)
    ensures var fs := QueryFindings(q.domain.GetOr(""), q.qtype.GetOr("A"), shannon);
            |fs| <= 1 && forall f | f in fs :: f.HighEntropy?
  {
    var d := q.domain.value;
    NormalDomainParts(d);
    ShortLabelsNoRun(d, Base32Run);
    ShortLabelsNoRun(d, Base64Run);
    ShortLabelsNoRun(d, HexRun);
    var ps := PatternFindings(SuspiciousPatterns, d);
    if ps != [] {
      PatternFindingsMembership(SuspiciousPatterns, d, ps[0]);
      assert false;
    }
    assert q.qtype.value != "TXT" && q.qtype.value != "NULL";
  }

  /** The bound every Shannon entropy obeys, `H <= log2(n)` for a text of
      `n` characters, at the one point the detector needs: since
      `log2(22) < 4.5`, a text of at most 22 characters never exceeds the
      high-entropy threshold. */
  ghost predicate EntropyBoundedByLength(shannon: EntropyOracle) {
    forall m: map<char, nat> | 0 < TableSum(m) <= 22 :: shannon(m) <= HighEntropyThreshold
  }

  /** With an entropy function that obeys that bound, an ordinary record
      yields no finding at all, so `analyze_query` leaves it untouched. */
  lemma NormalRecordUnflagged(q: QueryRecord, now: int, shannon: EntropyOracle)
    requires NormalRecord(q, now) && EntropyBoundedByLength(shannon)
    ensures QueryFindings(q.domain.GetOr(""), q.qtype.GetOr("A"), shannon) == []
  {
    var d := q.domain.value;
    NormalRecordOnlyEntropyFinding(q, now, shannon);
    var first := FirstLabel(d);
    NormalDomainParts(d);
    FrequencyTable(first);
    var fs := QueryFindings(d, q.qtype.value, shannon);
    if fs != [] {
      HighEntropyFindingIff(d, q.qtype.value, shannon, fs[0].bits);
      assert false;
    }
  }

  /** In a whole batch of ordinary traffic no record trips the pattern,
      record-type or depth checks. */
  lemma NormalTrafficOnlyEntropyFindings(queries: seq<QueryRecord>, now: int, shannon: EntropyOracle)
    requires forall i | 0 <= i < |queries| :: NormalRecord(queries[i], now)
    ensures forall i, f | 0 <= i < |queries| && f in QueryFindings(queries[i].domain.GetOr(""), queries[i].qtype.GetOr("A"), shannon) ::
              f.HighEntropy?
  {
    forall i | 0 <= i < |queries|
      ensures forall f | f in QueryFindings(queries[i].domain.GetOr(""), queries[i].qtype.GetOr("A"), shannon) :: f.HighEntropy?
    {
      NormalRecordOnlyEntropyFinding(queries[i], now, shannon);
    }
  }

  /** An ordinary record is in the window exactly when its age in whole
      seconds is under the window; its age never exceeds 300 seconds, so a
      window of six minutes or more holds every ordinary record. */
  lemma NormalRecordRecent(q: QueryRecord, now: int, windowMinutes: int)
    requires NormalRecord(q, now)
    ensures IsRecent(q, windowMinutes, now) <==>
            (now - q.timestamp.value) / MicrosPerSecond < windowMinutes * 60
    ensures windowMinutes >= 6 ==> IsRecent(q, windowMinutes, now)
  {
  }

  // ---------------------------------------------------------------------------
  // Tunnelling traffic

  lemma Base64SourceChars(data: string)
    requires AllFrom(data, Base64Source)
    ensures forall k | 0 <= k < |data| :: IsBase64Char(data[k])
  {
    forall k | 0 <= k < |data| ensures IsBase64Char(data[k]) {
      assert data[k] in AsciiLowercase || data[k] in AsciiUppercase || data[k] in Digits || data[k] in "+/";
    }
  }

  lemma HexSourceChars(data: string)
    requires AllFrom(data, HexSource)
    ensures forall k | 0 <= k < |data| :: IsHexChar(data[k])
  {
    forall k | 0 <= k < |data| ensures IsHexChar(data[k]) {
      assert data[k] in Digits || data[k] in Range('a', 6);
    }
  }

  /** The Base32 label is a run of 48 characters of `[a-z2-7]`: the Base32
      pattern, and with it the Base64 pattern, matches. */
  lemma Base32TunnelFindings(d: string, qtype: string, shannon: EntropyOracle)
    requires IsTechniqueDomain(Base32Tunnel, d)
    ensures var fs := QueryFindings(d, qtype, shannon);
            SuspiciousPattern(Base32Run) in fs && SuspiciousPattern(Base64Run) in fs
  {
    Base32TechniqueDomainShape(d);
    assert RunAt(d, Base32Run, 0, MinRunLength);
    PatternFindingIff(d, qtype, shannon, Base32Run);
    NarrowAlphabetsImplyBase64(d, qtype, shannon);
  }

  /** The 40 random characters of `[A-Za-z0-9+/]` match the Base64 pattern. */
  lemma Base64TunnelFindings(d: string, qtype: string, shannon: EntropyOracle)
    requires IsTechniqueDomain(Base64Tunnel, d)
    ensures SuspiciousPattern(Base64Run) in QueryFindings(d, qtype, shannon)
  {
    var data :| |data| == Base64LabelLength && AllFrom(data, Base64Source) && d == Base64Domain(data);
    Base64SourceChars(data);
    assert RunAt(d, Base64Run, 0, MinRunLength) by {
      forall k | 0 <= k < MinRunLength ensures IsBase64Char(d[k]) {
        assert d[k] == data[k];
      }
    }
    PatternFindingIff(d, qtype, shannon, Base64Run);
  }

  /** The 32 hex digits match the hex pattern, and with it the Base64 pattern. */
  lemma HexTunnelFindings(d: string, qtype: string, shannon: EntropyOracle)
    requires IsTechniqueDomain(HexTunnel, d)
    ensures var fs := QueryFindings(d, qtype, shannon);
            SuspiciousPattern(HexRun) in fs && SuspiciousPattern(Base64Run) in fs
  {
    var data :| |data| == HexLabelLength && AllFrom(data, HexSource) && d == HexDomain(data);
    HexSourceChars(data);
    assert RunAt(d, HexRun, 0, MinRunLength) by {
      forall k | 0 <= k < MinRunLength ensures IsHexChar(d[k]) {
        assert d[k] == data[k];
      }
    }
    PatternFindingIff(d, qtype, shannon, HexRun);
    NarrowAlphabetsImplyBase64(d, qtype, shannon);
  }

  /** A chain domain has eight labels, all shorter than ten characters,
      the first of them eight characters long. */
  lemma ChainDomainLabels(labels: seq<string>)
    requires ChainLabelsShape(labels)
    ensures var parts := Split(ChainDomain(labels));
            |parts| == 8 && forall part | part in parts :: |part| < MinWordLabelLength
    ensures |FirstLabel(ChainDomain(labels))| == ChainLabelLength
  {
    forall l | l in labels ensures DotFree(l) {
      forall k | 0 <= k < |l| ensures l[k] != '.' {
        assert l[k] in AsciiLowercase;
      }
    }
    ChainDomainParts(labels);
    var parts := Split(ChainDomain(labels));
    forall part | part in parts ensures |part| < MinWordLabelLength {
      if part !in labels {
        assert part == "covert" || part == "com";
      }
    }
    assert labels[0] in labels;
  }

  /** The chain domain has eight labels, none longer than eight characters:
      the depth check reports 8 levels, and no pattern matches, not even
      `(\w{10,}\.){3,}`, which the technique is named after. */
  lemma LongSubdomainTunnelFindings(d: string, qtype: string, shannon: EntropyOracle)
    requires IsTechniqueDomain(LongSubdomainTunnel, d)
    ensures var fs := QueryFindings(d, qtype, shannon);
            ExcessiveSubdomainLevels(8) in fs && forall p :: SuspiciousPattern(p) !in fs
    ensures |FirstLabel(d)| == ChainLabelLength
  {
    var labels :| ChainLabelsShape(labels) && d == ChainDomain(labels);
    ChainDomainLabels(labels);
    SplitLength(d);
    DepthFindingIff(d, qtype, shannon, 8);
    forall p ensures SuspiciousPattern(p) !in QueryFindings(d, qtype, shannon) {
      if p == LongLabels {
        ShortLabelsNoWordChain(d);
      } else {
        ShortLabelsNoRun(d, p);
      }
      PatternFindingIff(d, qtype, shannon, p);
    }
  }

  /** A chain domain has eight parts and an eight-letter first label, and
      no pattern matches it. */
  lemma ChainDomainShort(d: string)
    requires IsTechniqueDomain(LongSubdomainTunnel, d)
    ensures |Split(d)| == 8 && |FirstLabel(d)| == ChainLabelLength
    ensures forall p :: !Matches(p, d)
  {
    var labels :| ChainLabelsShape(labels) && d == ChainDomain(labels);
    ChainDomainLabels(labels);
    forall p ensures !Matches(p, d) {
      if p == LongLabels {
        ShortLabelsNoWordChain(d);
      } else {
        ShortLabelsNoRun(d, p);
      }
    }
  }

  /** The eight-letter first label of a chain domain stays under the
      entropy threshold. */
  lemma ChainEntropyLow(d: string, shannon: EntropyOracle)
    requires IsTechniqueDomain(LongSubdomainTunnel, d) && EntropyBoundedByLength(shannon)
    ensures CalculateEntropy(FirstLabel(d), shannon) <= HighEntropyThreshold
  {
    ChainDomainShort(d);
    var first := FirstLabel(d);
    FrequencyTable(first);
    assert first != [] && TableSum(Frequencies(first)) <= 22;
  }

  /** A chain record, of type A, is caught by the depth check alone: its
      eight-letter first label stays under the entropy threshold, so neither
      the entropy nor the record-type check fires, and no pattern matches. */
  lemma ChainDomainOnlyDepth(d: string, shannon: EntropyOracle)
    requires IsTechniqueDomain(LongSubdomainTunnel, d) && EntropyBoundedByLength(shannon)
    ensures QueryFindings(d, "A", shannon) == [ExcessiveSubdomainLevels(8)]
  {
    ChainDomainShort(d);
    ChainEntropyLow(d, shannon);
    assert |"A"| != |"TXT"| && |"A"| != |"NULL"|;
    OnlyDepthFinding(d, "A", shannon);
  }

  /** Every record a tunnelling technique produces yields at least one finding. */
  lemma TechniqueRecordFlagged(t: Technique, q: QueryRecord, now: int, shannon: EntropyOracle)
    requires TechniqueRecord(t, q, now)
    ensures QueryFindings(q.domain.GetOr(""), q.qtype.GetOr("A"), shannon) != []
  {
    var d, qtype := q.domain.value, q.qtype.value;
    match t
    case Base32Tunnel => Base32TunnelFindings(d, qtype, shannon);
    case Base64Tunnel => Base64TunnelFindings(d, qtype, shannon);
    case HexTunnel => HexTunnelFindings(d, qtype, shannon);
    case LongSubdomainTunnel => LongSubdomainTunnelFindings(d, qtype, shannon);
  }

  /** Every record of a batch of tunnelling traffic yields at least one
      finding, so `analyze_query` reports and marks each of them. */
  lemma TunnelTrafficFlagged(queries: seq<QueryRecord>, techniques: seq<Technique>, now: int, shannon: EntropyOracle)
    requires |techniques| == |queries|
    requires forall i | 0 <= i < |queries| :: TechniqueRecord(techniques[i], queries[i], now)
    ensures forall i | 0 <= i < |queries| :: QueryFindings(queries[i].domain.GetOr(""), queries[i].qtype.GetOr("A"), shannon) != []
  {
    forall i | 0 <= i < |queries|
      ensures QueryFindings(queries[i].domain.GetOr(""), queries[i].qtype.GetOr("A"), shannon) != []
    {
      TechniqueRecordFlagged(techniques[i], queries[i], now, shannon);
    }
  }

  /** A batch of tunnelling traffic is stamped `now`: in any window of at
      least a minute every record is recent, so the rate finding fires
      exactly when the batch has more than 100 records per minute of window. */
  lemma TunnelTrafficRate(queries: seq<QueryRecord>, techniques: seq<Technique>, now: int, windowMinutes: int, x: real)
    requires |techniques| == |queries|
    requires forall i | 0 <= i < |queries| :: TechniqueRecord(techniques[i], queries[i], now)
    requires windowMinutes > 0
    ensures RecentQueries(queries, windowMinutes, now) == queries
    ensures HighQueryRate(x) in StatisticalAnalysis(queries, windowMinutes, now) <==>
            |queries| > 100 * windowMinutes && x == |queries| as real / windowMinutes as real
  {
    assert DeltaSeconds(now, now) == 0;
    forall q | q in queries ensures IsRecent(q, windowMinutes, now) {
      var i :| 0 <= i < |queries| && queries[i] == q;
      assert TechniqueRecord(techniques[i], q, now);
    }
    AllRecentKept(queries, windowMinutes, now);
    RateFindingIff(queries, windowMinutes, now, x);
  }
}
