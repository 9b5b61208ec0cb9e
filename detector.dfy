/** The DNS tunnelling detector of components/detector.py: per-query
    heuristics (entropy of the first label, four character-run patterns, an
    unusual record type, subdomain depth) and window statistics (query rate,
    distinct domains). */
module Detector {
  import opened Text
  import opened Records

  // ---------------------------------------------------------------------------
  // Configuration

  /** The four regular expressions of `suspicious_patterns`, in list order:
      `[a-z2-7]{20,}`, `[A-Za-z0-9+/]{20,}={0,2}`, `[0-9a-f]{20,}` and
      `(\w{10,}\.){3,}`. */
  datatype Pattern = Base32Run | Base64Run | HexRun | LongLabels

  const SuspiciousPatterns: seq<Pattern> := [Base32Run, Base64Run, HexRun, LongLabels]

  const HighEntropyThreshold: real := 4.5
  const TypeEntropyThreshold: real := 3.0
  const MaxSubdomainLevels: nat := 5
  const MinRunLength: nat := 20
  const MinWordLabelLength: nat := 10
  const MinWordLabels: nat := 3
  const MaxQueriesPerMinute: real := 100.0
  const MaxUniqueDomains: nat := 50

  /** What the detector reports. The Python program reports formatted strings;
      each constructor stands for one of them with its parameter. */
  datatype Finding =
    | HighEntropy(bits: real)
    | SuspiciousPattern(pattern: Pattern)
    | UnusualRecordType(qtype: string)
    | ExcessiveSubdomainLevels(levels: nat)
    | HighQueryRate(perMinute: real)
    | HighUniqueSubdomains(count: nat)

  // ---------------------------------------------------------------------------
  // The four patterns, as predicates with the meaning of `re.search`

  predicate IsBase64Char(c: char) {
    'A' <= c <= 'Z' || 'a' <= c <= 'z' || '0' <= c <= '9' || c == '+' || c == '/'
  }

  predicate IsHexChar(c: char) {
    '0' <= c <= '9' || 'a' <= c <= 'f'
  }

  /** `\w`, taken as ASCII: letters, digits and underscore. */
  predicate IsWordChar(c: char) {
    'A' <= c <= 'Z' || 'a' <= c <= 'z' || '0' <= c <= '9' || c == '_'
  }

  /** The character class a pattern is built from. */
  predicate InClass(p: Pattern, c: char) {
    match p
    case Base32Run => IsBase32Char(c)
    case Base64Run => IsBase64Char(c)
    case HexRun => IsHexChar(c)
    case LongLabels => IsWordChar(c)
  }

  /** `s[i..i+n]` consists of characters of `p`'s class. */
  predicate RunAt(s: string, p: Pattern, i: nat, n: nat) {
    i + n <= |s| && forall k | i <= k < i + n :: InClass(p, s[k])
  }

  /** `re.search(r'[class]{20,}', s)` succeeds. The optional `={0,2}` tail of
      the Base64 pattern cannot make a search fail, so it adds nothing. */
  predicate HasRun(s: string, p: Pattern)
    ensures HasRun(s, p) ==> |s| >= MinRunLength
  {
    exists i: nat | i + MinRunLength <= |s| :: RunAt(s, p, i, MinRunLength)
  }

  /** `\w{10,}\.` matches `s[i..j+1]`, its dot at `j`. */
  predicate WordLabelAt(s: string, i: nat, j: nat) {
    i + MinWordLabelLength <= j < |s| && s[j] == '.' && forall k | i <= k < j :: IsWordChar(s[k])
  }

  /** `(\w{10,}\.){reps}` matches from position `i`. */
  predicate WordLabelChain(s: string, i: nat, reps: nat)
    ensures reps > 0 && WordLabelChain(s, i, reps) ==> i + reps * (MinWordLabelLength + 1) <= |s|
    decreases reps
  {
    reps == 0 ||
    exists j: nat | i + MinWordLabelLength <= j < |s| :: WordLabelAt(s, i, j) && WordLabelChain(s, j + 1, reps - 1)
  }

  /** `re.search(r'(\w{10,}\.){3,}', s)` succeeds: three repetitions are
      enough for the search to succeed, and every longer match contains them. */
  predicate HasWordLabels(s: string)
    ensures HasWordLabels(s) ==> |s| >= MinWordLabels * (MinWordLabelLength + 1)
  {
    exists i: nat | i < |s| :: WordLabelChain(s, i, MinWordLabels)
  }

  /** `re.search(pattern, s)` is truthy. No pattern matches a text shorter
      than 20 characters. */
  predicate Matches(p: Pattern, s: string)
    ensures Matches(p, s) ==> |s| >= MinRunLength
  {
    if p == LongLabels then HasWordLabels(s) else HasRun(s, p)
  }

  /** A chain found in `s` is still found, shifted, inside `a + s + b`. */
  lemma {:induction false} WordLabelChainShift(a: string, s: string, b: string, i: nat, reps: nat)
    requires WordLabelChain(s, i, reps)
    ensures WordLabelChain(a + s + b, |a| + i, reps)
    decreases reps
  {
    if reps > 0 {
      var t := a + s + b;
      var j: nat :| i + MinWordLabelLength <= j < |s| && WordLabelAt(s, i, j) && WordLabelChain(s, j + 1, reps - 1);
      WordLabelChainShift(a, s, b, j + 1, reps - 1);
      assert forall k | |a| + i <= k < |a| + j :: t[k] == s[k - |a|];
      assert WordLabelAt(t, |a| + i, |a| + j);
    }
  }

  /** `re.search` looks anywhere: a pattern found in `s` is found in any
      text that contains `s`. */
  lemma SearchAnywhere(p: Pattern, a: string, s: string, b: string)
    requires Matches(p, s)
    ensures Matches(p, a + s + b)
  {
    var t := a + s + b;
    if p == LongLabels {
      var i: nat :| i < |s| && WordLabelChain(s, i, MinWordLabels);
      WordLabelChainShift(a, s, b, i, MinWordLabels);
      assert |a| + i < |t|;
    } else {
      var i: nat :| i + MinRunLength <= |s| && RunAt(s, p, i, MinRunLength);
      assert forall k | |a| + i <= k < |a| + i + MinRunLength :: t[k] == s[k - |a|];
      assert RunAt(t, p, |a| + i, MinRunLength);
    }
  }

  // ---------------------------------------------------------------------------
  // Entropy

  /** `text.count(c)`. */
  function Occurrences(s: string, c: char): nat {
    if s == [] then 0 else (if s[0] == c then 1 else 0) + Occurrences(s[1..], c)
  }

  /** The character-frequency table `{c: text.count(c) for c in set(text)}`. */
  function Frequencies(s: string): map<char, nat> {
    map c | c in s :: Occurrences(s, c)
  }

  /** The floating-point part of `calculate_entropy`: given the frequency
      table, `-sum(p * log2(p))` over `p = count / len(text)`. */
  type EntropyOracle = map<char, nat> -> real

  /** `calculate_entropy(text)`: 0 for the empty text, otherwise the Shannon
      sum over the frequency table. */
  function CalculateEntropy(text: string, shannon: EntropyOracle): (e: real)
    ensures text == [] ==> e == 0.0
    ensures forall t: string | multiset(t) == multiset(text) && t != [] :: e == shannon(Frequencies(t))
  {
    if text == [] then 0.0
    else
      assert forall t: string | multiset(t) == multiset(text) :: Frequencies(t) == Frequencies(text) by {
        forall t: string | multiset(t) == multiset(text) ensures Frequencies(t) == Frequencies(text) {
          FrequenciesOfPermutation(t, text);
        }
      }
      shannon(Frequencies(text))
  }

  lemma {:induction false} OccurrencesIsMultiplicity(s: string, c: char)
    ensures Occurrences(s, c) == multiset(s)[c]
  {
    if s != [] {
      OccurrencesIsMultiplicity(s[1..], c);
      assert s == [s[0]] + s[1..];
      assert multiset(s) == multiset{s[0]} + multiset(s[1..]);
    }
  }

  /** A character that does not occur is counted zero times. */
  lemma {:induction false} OccurrencesAbsent(s: string, c: char)
    requires c !in s
    ensures Occurrences(s, c) == 0
  {
    if s != [] {
      OccurrencesAbsent(s[1..], c);
    }
  }

  /** Two texts have the same frequency table exactly when one is a
      permutation of the other. */
  lemma FrequenciesOfPermutation(s: string, t: string)
    ensures Frequencies(s) == Frequencies(t) <==> multiset(s) == multiset(t)
  {
    forall c ensures Occurrences(s, c) == multiset(s)[c] && Occurrences(t, c) == multiset(t)[c] {
      OccurrencesIsMultiplicity(s, c);
      OccurrencesIsMultiplicity(t, c);
    }
    if multiset(s) == multiset(t) {
      assert forall c :: c in s <==> c in t by {
        forall c ensures c in s <==> c in t {
          assert c in s <==> c in multiset(s);
          assert c in t <==> c in multiset(t);
        }
      }
    }
    if Frequencies(s) == Frequencies(t) {
      forall c ensures multiset(s)[c] == multiset(t)[c] {
        assert c in s <==> c in Frequencies(s);
        assert c in t <==> c in Frequencies(t);
        assert c in s <==> c in multiset(s);
        assert c in t <==> c in multiset(t);
      }
      assert multiset(s) == multiset(t);
    }
  }

  /** The sum of a table's counts. */
  ghost function TableSum(m: map<char, nat>): nat
    decreases |m|
  {
    if |m| == 0 then 0
    else
      var c :| c in m;
      m[c] + TableSum(m - {c})
  }

  lemma TableRemoveSize(m: map<char, nat>, c: char)
    requires c in m
    ensures |m - {c}| == |m| - 1
  {
    assert (m - {c}).Keys == m.Keys - {c};
    assert |m.Keys - {c}| == |m.Keys| - 1;
  }

  lemma TablePick(m: map<char, nat>) returns (c: char)
    requires |m| > 0
    ensures c in m && TableSum(m) == m[c] + TableSum(m - {c})
  {
    c :| c in m && TableSum(m) == m[c] + TableSum(m - {c});
  }

  lemma TableRemoveCommutes(m: map<char, nat>, c: char, d: char)
    ensures m - {d} - {c} == m - {c} - {d}
  {
  }

  /** The sum does not depend on which key is taken out first. */
  lemma {:induction false} TableSumRemove(m: map<char, nat>, c: char)
    requires c in m
    ensures TableSum(m) == m[c] + TableSum(m - {c})
    decreases |m|
  {
    var d := TablePick(m);
    if d != c {
      TableRemoveSize(m, d);
      TableRemoveSize(m, c);
      TableSumRemove(m - {d}, c);
      TableSumRemove(m - {c}, d);
      TableRemoveCommutes(m, c, d);
    }
  }

  /** Adding a character in front raises its count by one and leaves the others. */
  lemma FrequenciesCons(s: string)
    requires s != []
    ensures Frequencies(s) == Frequencies(s[1..])[s[0] := Occurrences(s[1..], s[0]) + 1]
  {
    var m := Frequencies(s[1..])[s[0] := Occurrences(s[1..], s[0]) + 1];
    assert forall c :: c in s <==> c == s[0] || c in s[1..];
    assert Frequencies(s).Keys == m.Keys;
  }

  /** The table `calculate_entropy` builds: one entry per distinct character,
      each count positive, the counts summing to `len(text)`. So the
      probabilities `count / len(text)` are positive and sum to 1. */
  lemma {:induction false} FrequencyTable(s: string)
    ensures Frequencies(s).Keys == set c | c in s
    ensures forall c | c in Frequencies(s) :: Frequencies(s)[c] > 0
    ensures TableSum(Frequencies(s)) == |s|
  {
    forall c | c in Frequencies(s) ensures Frequencies(s)[c] > 0 {
      OccurrencesIsMultiplicity(s, c);
    }
    FrequenciesSum(s);
  }

  lemma {:induction false} FrequenciesSum(s: string)
    ensures TableSum(Frequencies(s)) == |s|
  {
    if s == [] {
      assert Frequencies(s) == map[];
    } else {
      var m, c, n := Frequencies(s[1..]), s[0], Occurrences(s[1..], s[0]);
      FrequenciesSum(s[1..]);
      if c in m {
        assert m[c] == n;
      } else {
        assert c !in s[1..];
        OccurrencesAbsent(s[1..], c);
      }
      FrequenciesCons(s);
      FrequencyTableStep(m, c, n, Frequencies(s));
    }
  }

  /** Raising one count by one raises the sum by one. */
  lemma FrequencyTableStep(m: map<char, nat>, c: char, n: nat, raised: map<char, nat>)
    requires c in m ==> m[c] == n
    requires c !in m ==> n == 0
    requires raised == m[c := n + 1]
    ensures TableSum(raised) == TableSum(m) + 1
  {
    var rest := raised - {c};
    assert rest == if c in m then m - {c} else m;
    TableSumRemove(raised, c);
    if c in m {
      TableSumRemove(m, c);
    }
  }

  // ---------------------------------------------------------------------------
  // Per-query analysis

  function EntropyFindings(e: real): seq<Finding> {
    if e > HighEntropyThreshold then [HighEntropy(e)] else []
  }

  /** The pattern findings for the patterns in `ps`, in list order. */
  function PatternFindings(ps: seq<Pattern>, domain: string): seq<Finding> {
    if ps == [] then []
    else
      var p := ps[|ps| - 1];
      PatternFindings(ps[..|ps| - 1], domain) + (if Matches(p, domain) then [SuspiciousPattern(p)] else [])
  }

  function TypeFindings(qtype: string, e: real): seq<Finding> {
    if (qtype == "TXT" || qtype == "NULL") && e > TypeEntropyThreshold then [UnusualRecordType(qtype)] else []
  }

  function DepthFindings(domain: string): seq<Finding> {
    var levels := |Split(domain)|;
    if levels > MaxSubdomainLevels then [ExcessiveSubdomainLevels(levels)] else []
  }

  /** The findings `analyze_query` returns for a record with this domain and
      record type (after the `''` and `'A'` defaults): entropy, the patterns
      in list order, record type, depth. */
  function QueryFindings(domain: string, qtype: string, shannon: EntropyOracle): seq<Finding> {
    var e := CalculateEntropy(FirstLabel(domain), shannon);
    EntropyFindings(e) + PatternFindings(SuspiciousPatterns, domain) + TypeFindings(qtype, e) + DepthFindings(domain)
  }

  /** `analyze_query`: runs the four checks in order, none short-circuiting
      another, and annotates the record only when something was found. */
  method AnalyzeQuery(q: QueryRecord, shannon: EntropyOracle) returns (alerts: seq<Finding>)
    modifies q
    ensures alerts == QueryFindings(old(q.domain).GetOr(""), old(q.qtype).GetOr("A"), shannon)
    ensures q.timestamp == old(q.timestamp) && q.clientIp == old(q.clientIp)
    ensures q.qtype == old(q.qtype) && q.domain == old(q.domain)
    ensures alerts != [] ==>
              q.suspicious && q.entropy == Some(CalculateEntropy(FirstLabel(old(q.domain).GetOr("")), shannon))
    ensures alerts == [] ==> q.suspicious == old(q.suspicious) && q.entropy == old(q.entropy)
  {
    alerts := [];
    var domain := q.domain.GetOr("");

    var entropy := CalculateEntropy(Split(domain)[0], shannon);
    if entropy > HighEntropyThreshold {
      alerts := alerts + [HighEntropy(entropy)];
    }

    for i := 0 to |SuspiciousPatterns|
      invariant alerts == EntropyFindings(entropy) + PatternFindings(SuspiciousPatterns[..i], domain)
    {
      var pattern := SuspiciousPatterns[i];
      if Matches(pattern, domain) {
        alerts := alerts + [SuspiciousPattern(pattern)];
      }
      assert SuspiciousPatterns[..i + 1][..i] == SuspiciousPatterns[..i];
    }
    assert SuspiciousPatterns[..|SuspiciousPatterns|] == SuspiciousPatterns;

    var queryType := q.qtype.GetOr("A");
    if (queryType == "TXT" || queryType == "NULL") && entropy > TypeEntropyThreshold {
      alerts := alerts + [UnusualRecordType(queryType)];
    }

    var subdomainParts := Split(domain);
    if |subdomainParts| > MaxSubdomainLevels {
      alerts := alerts + [ExcessiveSubdomainLevels(|subdomainParts|)];
    }

    if alerts != [] {
      q.suspicious := true;
      q.entropy := Some(entropy);
    }
  }

  // ---------------------------------------------------------------------------
  // Properties of the per-query findings

  /** The position of a finding's check in the fixed order of the checks. */
  function Rank(f: Finding): nat {
    match f
    case HighEntropy(_) => 0
    case SuspiciousPattern(p) =>
      (match p case Base32Run => 1 case Base64Run => 2 case HexRun => 3 case LongLabels => 4)
    case UnusualRecordType(_) => 5
    case ExcessiveSubdomainLevels(_) => 6
    case HighQueryRate(_) => 7
    case HighUniqueSubdomains(_) => 8
  }

  predicate Ascending(fs: seq<Finding>) {
    forall i, j | 0 <= i < j < |fs| :: Rank(fs[i]) < Rank(fs[j])
  }

  lemma AscendingAppend(xs: seq<Finding>, ys: seq<Finding>)
    requires Ascending(xs) && Ascending(ys)
    requires forall i, j | 0 <= i < |xs| && 0 <= j < |ys| :: Rank(xs[i]) < Rank(ys[j])
    ensures Ascending(xs + ys)
  {
  }

  lemma {:induction false} PatternFindingsPrefix(m: nat, domain: string)
    requires m <= |SuspiciousPatterns|
    ensures var fs := PatternFindings(SuspiciousPatterns[..m], domain);
            Ascending(fs) && |fs| <= m &&
            forall f | f in fs :: f.SuspiciousPattern? && 1 <= Rank(f) <= m
  {
    if m > 0 {
      var ps := SuspiciousPatterns[..m];
      assert ps[..m - 1] == SuspiciousPatterns[..m - 1];
      PatternFindingsPrefix(m - 1, domain);
      var fs := PatternFindings(ps[..m - 1], domain);
      var p := ps[m - 1];
      var hit := if Matches(p, domain) then [SuspiciousPattern(p)] else [];
      assert PatternFindings(ps, domain) == fs + hit;
      PatternRank(m);
      AscendingAppend(fs, hit);
    }
  }

  /** The `m`-th pattern of the list ranks `m`. */
  lemma PatternRank(m: nat)
    requires 1 <= m <= |SuspiciousPatterns|
    ensures Rank(SuspiciousPattern(SuspiciousPatterns[m - 1])) == m
  {
  }

  /** `analyze_query` reports at most one finding per check, in the order of
      the checks, so at most 7 findings and never a window statistic. */
  lemma FindingsOrdered(domain: string, qtype: string, shannon: EntropyOracle)
    ensures var fs := QueryFindings(domain, qtype, shannon);
            Ascending(fs) && |fs| <= 7 && forall f | f in fs :: Rank(f) <= 6
  {
    var e := CalculateEntropy(FirstLabel(domain), shannon);
    var a := EntropyFindings(e);
    var b := PatternFindings(SuspiciousPatterns, domain);
    var c := TypeFindings(qtype, e);
    var d := DepthFindings(domain);
    PatternFindingsPrefix(4, domain);
    assert SuspiciousPatterns[..4] == SuspiciousPatterns;
    AscendingAppend(a, b);
    AscendingAppend(a + b, c);
    AscendingAppend(a + b + c, d);
  }

  lemma {:induction false} PatternFindingsMembership(ps: seq<Pattern>, domain: string, f: Finding)
    ensures f in PatternFindings(ps, domain) <==> f.SuspiciousPattern? && f.pattern in ps && Matches(f.pattern, domain)
  {
    if ps != [] {
      PatternFindingsMembership(ps[..|ps| - 1], domain, f);
      assert ps == ps[..|ps| - 1] + [ps[|ps| - 1]];
    }
  }

  /** The high-entropy finding appears exactly when the first label's entropy exceeds 4.5. */
  lemma HighEntropyFindingIff(domain: string, qtype: string, shannon: EntropyOracle, x: real)
    ensures HighEntropy(x) in QueryFindings(domain, qtype, shannon) <==>
            x == CalculateEntropy(FirstLabel(domain), shannon) && x > HighEntropyThreshold
  {
    PatternFindingsMembership(SuspiciousPatterns, domain, HighEntropy(x));
  }

  /** A pattern finding appears exactly when `re.search` of that pattern succeeds on the domain. */
  lemma PatternFindingIff(domain: string, qtype: string, shannon: EntropyOracle, p: Pattern)
    ensures SuspiciousPattern(p) in QueryFindings(domain, qtype, shannon) <==> Matches(p, domain)
  {
    PatternFindingsMembership(SuspiciousPatterns, domain, SuspiciousPattern(p));
  }

  /** The record-type finding appears exactly for TXT and NULL records whose
      first label has entropy above 3.0. */
  lemma TypeFindingIff(domain: string, qtype: string, shannon: EntropyOracle, t: string)
    ensures UnusualRecordType(t) in QueryFindings(domain, qtype, shannon) <==>
            t == qtype && (qtype == "TXT" || qtype == "NULL") &&
            CalculateEntropy(FirstLabel(domain), shannon) > TypeEntropyThreshold
  {
    PatternFindingsMembership(SuspiciousPatterns, domain, UnusualRecordType(t));
  }

  /** The depth finding appears exactly when the domain has at least five
      dots, and it reports the number of parts, one more than the dots. */
  lemma DepthFindingIff(domain: string, qtype: string, shannon: EntropyOracle, n: nat)
    ensures ExcessiveSubdomainLevels(n) in QueryFindings(domain, qtype, shannon) <==>
            n == DotCount(domain) + 1 && DotCount(domain) >= MaxSubdomainLevels
  {
    SplitLength(domain);
    PatternFindingsMembership(SuspiciousPatterns, domain, ExcessiveSubdomainLevels(n));
  }

  /** Both `[a-z2-7]` and `[0-9a-f]` are inside `[A-Za-z0-9+/]`, so a Base32
      or hex finding always comes with the Base64 finding. */
  lemma NarrowAlphabetsImplyBase64(domain: string, qtype: string, shannon: EntropyOracle)
    ensures var fs := QueryFindings(domain, qtype, shannon);
            (SuspiciousPattern(Base32Run) in fs || SuspiciousPattern(HexRun) in fs) ==>
              SuspiciousPattern(Base64Run) in fs
  {
    PatternFindingIff(domain, qtype, shannon, Base32Run);
    PatternFindingIff(domain, qtype, shannon, HexRun);
    PatternFindingIff(domain, qtype, shannon, Base64Run);
    if Matches(Base32Run, domain) {
      var i: nat :| i + MinRunLength <= |domain| && RunAt(domain, Base32Run, i, MinRunLength);
      assert RunAt(domain, Base64Run, i, MinRunLength);
    } else if Matches(HexRun, domain) {
      var i: nat :| i + MinRunLength <= |domain| && RunAt(domain, HexRun, i, MinRunLength);
      assert RunAt(domain, Base64Run, i, MinRunLength);
    }
  }

  /** Since 4.5 > 3.0, a TXT or NULL record with the high-entropy finding
      also has the record-type finding. */
  lemma HighEntropyTxtHasTypeFinding(domain: string, qtype: string, shannon: EntropyOracle)
    requires qtype == "TXT" || qtype == "NULL"
    ensures var fs := QueryFindings(domain, qtype, shannon);
            (exists x :: HighEntropy(x) in fs) ==> UnusualRecordType(qtype) in fs
  {
    var fs := QueryFindings(domain, qtype, shannon);
    var e := CalculateEntropy(FirstLabel(domain), shannon);
    if exists x :: HighEntropy(x) in fs {
      var x :| HighEntropy(x) in fs;
      HighEntropyFindingIff(domain, qtype, shannon, x);
      TypeFindingIff(domain, qtype, shannon, qtype);
    }
  }

  /** A record without a domain is read as `''`: its first label is empty
      (entropy 0), no pattern can match, and it has one part. So it yields
      no finding whatever its type. */
  lemma MissingDomainNoFindings(qtype: string, shannon: EntropyOracle)
    ensures QueryFindings("", qtype, shannon) == []
  {
    var fs := PatternFindings(SuspiciousPatterns, "");
    if fs != [] {
      PatternFindingsMembership(SuspiciousPatterns, "", fs[0]);
      assert false;
    }
  }

  /** A domain no pattern matches, with a low-entropy first label, in a
      record of another type than TXT or NULL, can only be caught by the
      depth check. */
  lemma OnlyDepthFinding(domain: string, qtype: string, shannon: EntropyOracle)
    requires CalculateEntropy(FirstLabel(domain), shannon) <= HighEntropyThreshold
    requires qtype != "TXT" && qtype != "NULL"
    requires forall p :: !Matches(p, domain)
    ensures QueryFindings(domain, qtype, shannon) == DepthFindings(domain)
  {
    var fs := PatternFindings(SuspiciousPatterns, domain);
    if fs != [] {
      PatternFindingsMembership(SuspiciousPatterns, domain, fs[0]);
      assert false;
    }
  }

  // ---------------------------------------------------------------------------
  // Window statistics

  const SecondsPerDay: int := 86400

  /** `(now - ts).seconds`: Python normalises a `timedelta` so that its
      `seconds` field is the whole seconds of the difference modulo one day. */
  function DeltaSeconds(now: int, ts: int): (s: nat)
    ensures s < SecondsPerDay
  {
    ((now - ts) / MicrosPerSecond) % SecondsPerDay
  }

  /** The filter of `statistical_analysis`; a missing timestamp reads as now. */
  predicate IsRecent(q: QueryRecord, windowMinutes: int, now: int)
    reads q
  {
    DeltaSeconds(now, q.timestamp.GetOr(now)) < windowMinutes * 60
  }

  /** `[q for q in queries if ...]`: the recent records, in their order. */
  function RecentQueries(queries: seq<QueryRecord>, windowMinutes: int, now: int): (recent: seq<QueryRecord>)
    reads queries
    ensures |recent| <= |queries|
    ensures forall q | q in recent :: q in queries && IsRecent(q, windowMinutes, now)
    ensures forall q | q in queries && IsRecent(q, windowMinutes, now) :: q in recent
  {
    if queries == [] then []
    else
      var rest := RecentQueries(queries[1..], windowMinutes, now);
      if IsRecent(queries[0], windowMinutes, now) then [queries[0]] + rest else rest
  }

  /** Each recent record is kept as often as it occurs, every other record
      is dropped: with `RecentQueriesAppend`, the filter is exactly the
      list comprehension. */
  lemma {:induction false} RecentQueriesCount(queries: seq<QueryRecord>, windowMinutes: int, now: int, q: QueryRecord)
    ensures multiset(RecentQueries(queries, windowMinutes, now))[q] ==
            if IsRecent(q, windowMinutes, now) then multiset(queries)[q] else 0
  {
    if queries != [] {
      RecentQueriesCount(queries[1..], windowMinutes, now, q);
      assert queries == [queries[0]] + queries[1..];
      assert multiset(queries) == multiset{queries[0]} + multiset(queries[1..]);
    }
  }

  /** The filter keeps the order of the list: filtering a concatenation
      concatenates the filtered halves. */
  lemma {:induction false} RecentQueriesAppend(xs: seq<QueryRecord>, ys: seq<QueryRecord>, windowMinutes: int, now: int)
    ensures RecentQueries(xs + ys, windowMinutes, now) ==
            RecentQueries(xs, windowMinutes, now) + RecentQueries(ys, windowMinutes, now)
  {
    if xs == [] {
      assert xs + ys == ys;
    } else {
      assert (xs + ys)[1..] == xs[1..] + ys;
      RecentQueriesAppend(xs[1..], ys, windowMinutes, now);
    }
  }

  /** When every record is recent the filter keeps the whole list, in order. */
  lemma {:induction false} AllRecentKept(queries: seq<QueryRecord>, windowMinutes: int, now: int)
    requires forall q | q in queries :: IsRecent(q, windowMinutes, now)
    ensures RecentQueries(queries, windowMinutes, now) == queries
  {
    if queries != [] {
      assert queries[0] in queries;
      AllRecentKept(queries[1..], windowMinutes, now);
      assert [queries[0]] + queries[1..] == queries;
    }
  }

  /** `set(q.get('domain', '') for q in recent_queries)`. */
  function RecentDomains(queries: seq<QueryRecord>, windowMinutes: int, now: int): set<string>
    reads queries
  {
    set q | q in queries && IsRecent(q, windowMinutes, now) :: q.domain.GetOr("")
  }

  /** A record can only be recent in a window of at least one minute. */
  lemma {:induction false} RecentNeedsPositiveWindow(queries: seq<QueryRecord>, windowMinutes: int, now: int)
    requires RecentQueries(queries, windowMinutes, now) != []
    ensures windowMinutes > 0
  {
    var q := RecentQueries(queries, windowMinutes, now)[0];
    assert IsRecent(q, windowMinutes, now);
  }

  /** `statistical_analysis(queries, window)`, with the clock reading passed in. */
  function StatisticalAnalysis(queries: seq<QueryRecord>, windowMinutes: int, now: int): (alerts: seq<Finding>)
    reads queries
    ensures alerts != [] ==> windowMinutes > 0 && RecentQueries(queries, windowMinutes, now) != []
  {
    var recent := RecentQueries(queries, windowMinutes, now);
    if recent == [] then []
    else
      RecentNeedsPositiveWindow(queries, windowMinutes, now);
      WindowAlerts(|recent| as real / windowMinutes as real, |RecentDomains(queries, windowMinutes, now)|)
  }

  /** The two checks on a window: the rate first, then the distinct domains. */
  function WindowAlerts(perMinute: real, unique: nat): seq<Finding> {
    (if perMinute > MaxQueriesPerMinute then [HighQueryRate(perMinute)] else []) +
    (if unique > MaxUniqueDomains then [HighUniqueSubdomains(unique)] else [])
  }

  /** With no recent record, and in particular in a window of zero or fewer
      minutes, there is nothing to report and nothing is divided. */
  lemma {:induction false} NonPositiveWindowNoFindings(queries: seq<QueryRecord>, windowMinutes: int, now: int)
    requires windowMinutes <= 0
    ensures RecentQueries(queries, windowMinutes, now) == []
    ensures StatisticalAnalysis(queries, windowMinutes, now) == []
  {
    if RecentQueries(queries, windowMinutes, now) != [] {
      RecentNeedsPositiveWindow(queries, windowMinutes, now);
      assert false;
    }
  }

  /** The rate finding appears exactly when more than `100 * window` records
      are recent, e.g. 501 in five minutes but not 500. */
  lemma RateFindingIff(queries: seq<QueryRecord>, windowMinutes: int, now: int, x: real)
    ensures var n := |RecentQueries(queries, windowMinutes, now)|;
            HighQueryRate(x) in StatisticalAnalysis(queries, windowMinutes, now) <==>
              n > 0 && windowMinutes > 0 && n > 100 * windowMinutes && x == n as real / windowMinutes as real
  {
    var n := |RecentQueries(queries, windowMinutes, now)|;
    if n > 0 {
      RecentNeedsPositiveWindow(queries, windowMinutes, now);
      RateAboveThreshold(n, windowMinutes);
    }
  }

  /** `n / w > 100` over the reals is `n > 100 * w` over the integers. */
  lemma RateAboveThreshold(n: nat, w: int)
    requires w > 0
    ensures n as real / w as real > MaxQueriesPerMinute <==> n > 100 * w
  {
    var wr := w as real;
    var rate := n as real / wr;
    assert rate * wr == n as real;
    var excess := (n - 100 * w) as real;
    assert excess == (rate - 100.0) * wr;
    if rate > 100.0 {
      ProductPositive(rate - 100.0, wr);
      assert excess > 0.0;
    } else {
      ProductPositive(100.0 - rate, wr);
      assert excess <= 0.0;
    }
  }

  lemma ProductPositive(a: real, b: real)
    requires a >= 0.0 && b > 0.0
    ensures a * b >= 0.0 && (a > 0.0 ==> a * b > 0.0)
  {
  }

  /** The distinct-domain finding appears exactly when more than 50 distinct
      domains are among the recent records, and it reports their number. */
  lemma UniqueFindingIff(queries: seq<QueryRecord>, windowMinutes: int, now: int, u: nat)
    ensures var recent := RecentQueries(queries, windowMinutes, now);
            HighUniqueSubdomains(u) in StatisticalAnalysis(queries, windowMinutes, now) <==>
              recent != [] && u == |RecentDomains(queries, windowMinutes, now)| && u > MaxUniqueDomains
  {
  }

  /** At most two window findings, the rate before the distinct-domain count. */
  lemma StatisticsOrdered(queries: seq<QueryRecord>, windowMinutes: int, now: int)
    ensures var alerts := StatisticalAnalysis(queries, windowMinutes, now);
            |alerts| <= 2 && Ascending(alerts) && forall f | f in alerts :: 7 <= Rank(f) <= 8
  {
    var recent := RecentQueries(queries, windowMinutes, now);
    if recent != [] {
      RecentNeedsPositiveWindow(queries, windowMinutes, now);
      WindowAlertsOrdered(|recent| as real / windowMinutes as real, |RecentDomains(queries, windowMinutes, now)|);
    }
  }

  lemma WindowAlertsOrdered(perMinute: real, unique: nat)
    ensures var alerts := WindowAlerts(perMinute, unique);
            |alerts| <= 2 && Ascending(alerts) && forall f | f in alerts :: 7 <= Rank(f) <= 8
  {
  }

  /** A timestamp up to one second in the future gives a negative difference,
      whose `seconds` field wraps to 86399: such a record is recent only in a
      window longer than a day. */
  lemma FutureTimestampWraps(now: int, ts: int, windowMinutes: int)
    requires now < ts <= now + MicrosPerSecond
    ensures DeltaSeconds(now, ts) == SecondsPerDay - 1
    ensures DeltaSeconds(now, ts) < windowMinutes * 60 <==> windowMinutes > 1439
  {
  }
}
