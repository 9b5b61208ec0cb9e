# DNS tunnelling detector and traffic simulator

This project models the two components of the DNS tunnelling demonstrator
and proves properties about them.

- **The detector** (`DNSDetector`) scores one DNS query record with four
  heuristics:
  - the Shannon entropy of the first label;
  - four "alphabet run" regular expressions (Base32, Base64, hex and long
    word labels);
  - an unusual TXT/NULL record type;
  - the subdomain depth.

  When any heuristic fires, the detector marks the record suspicious in place.
  Over a list of records it also computes two window statistics: the query
  rate and the number of distinct domains.
- **The simulator** (`DNSTunnelSimulator`) produces batches of ordinary
  queries to a catalog of well-known sites. It also produces batches of
  tunnelling queries, built with one of four techniques:
  - a Base32-encoded payload;
  - a Base64-like label;
  - a hex label;
  - a chain of short labels.

Modules:

- `Text`: Python's `split('.')` and `'.'.join`, the first label, `str(n)`,
  `lower`/`upper` and `replace`.
- `Records`: the query record. It is a class, because the detector updates
  it in place.
- `Detector`: the patterns as predicates, the frequency table behind the
  entropy, `AnalyzeQuery` (an imperative method with a `modifies` frame), and
  the window statistics.
- `Base32`: the encoder of section 6 of RFC 4648, as `base64.b32encode`
  applies it, with a decoder and the round trip.
- `RandomSource`: `randint`, `choice` and `choices`, read from an explicit
  stream of draws.
- `Simulator`: the catalog, and the six generators of the
  `DnsTunnelSimulator` class (`generate_normal_traffic`,
  `generate_tunnel_traffic` and the four `_generate_*_tunnel` methods) as
  loop methods. The body of each loop is a method of its own that returns one
  new record. Each method is specified by predicates on the records it
  returns, and every record it returns is freshly allocated.
- `Controls`: what the detector reports on the simulator's records:
  - every tunnelling record yields at least one finding;
  - ordinary records never trip the pattern, record-type or depth checks;
  - the window statistics see every record of a fresh tunnelling batch.

## Model

| member | source | states |
|---|---|---|
| `Detector.CalculateEntropy` | components/detector.py:15-22 | The empty text has entropy 0. Otherwise the entropy is the Shannon sum over the frequency table, the same for every permutation of the text. |
| `Detector.FrequencyTable` | components/detector.py:20 | The table has one key per distinct character. Each count is positive and the counts sum to `len(text)`, so the probabilities are positive and sum to 1. |
| `Detector.FrequenciesOfPermutation` | components/detector.py:20 | Two texts have the same frequency table if and only if one is a permutation of the other. |
| `Detector.HasRun` | components/detector.py:9-11 | A search for a 20-character run succeeds only on a text of at least 20 characters. |
| `Detector.WordLabelChain` | components/detector.py:12 | A chain of `reps` word labels, each ending in a dot, that starts at `i` needs `reps * 11` characters from `i` on. |
| `Detector.HasWordLabels` | components/detector.py:12 | A search for `(\w{10,}\.){3,}` succeeds only on a text of at least 33 characters. |
| `Detector.Matches` | components/detector.py:8-13 | No pattern matches a text shorter than 20 characters. |
| `Detector.WordLabelChainShift` | components/detector.py:12 | A chain of word labels found in `s` is still found, shifted by `len(a)`, in `a + s + b`. |
| `Detector.SearchAnywhere` | components/detector.py:35-37 | `re.search` looks anywhere: a pattern found in `s` is found in every text that contains `s`. |
| `Detector.AnalyzeQuery` | components/detector.py:24-54 | The method returns the findings of the four checks, in order. It never changes domain, type, timestamp or client address. With findings, it sets `suspicious` and stores the first-label entropy. Without findings, it leaves the record untouched. |
| `Detector.FindingsOrdered` | components/detector.py:26-47 | Findings appear in check order (entropy, four patterns in list order, type, depth). There are at most 7, and never a window finding. |
| `Detector.HighEntropyFindingIff` | components/detector.py:30-32 | The entropy finding appears if and only if the first label's entropy exceeds 4.5, and it carries that value. |
| `Detector.PatternFindingIff` | components/detector.py:35-37 | A pattern finding appears if and only if a search for that pattern succeeds on the domain. |
| `Detector.TypeFindingIff` | components/detector.py:40-42 | The record-type finding appears if and only if the type is TXT or NULL and the entropy exceeds 3.0. |
| `Detector.DepthFindingIff` | components/detector.py:45-47 | The depth finding appears if and only if the domain has at least 5 dots. It reports dots + 1 levels. |
| `Detector.NarrowAlphabetsImplyBase64` | components/detector.py:9-11 | A Base32-run or hex-run finding always comes with the Base64-run finding. |
| `Detector.HighEntropyTxtHasTypeFinding` | components/detector.py:30-42 | A TXT or NULL record with the high-entropy finding also has the record-type finding. |
| `Detector.MissingDomainNoFindings` | components/detector.py:27-47 | A record without a domain reads as `''` and yields no finding, whatever its type. |
| `Detector.OnlyDepthFinding` | components/detector.py:26-47 | With a first-label entropy of at most 4.5, a type other than TXT or NULL and no matching pattern, the findings are exactly those of the depth check. |
| `Detector.DeltaSeconds` | components/detector.py:59 | `timedelta.seconds` is always below 86400. |
| `Detector.FutureTimestampWraps` | components/detector.py:59 | A timestamp up to a second in the future wraps to 86399 seconds. It is then recent only in windows over 1439 minutes. |
| `Detector.RecentQueries` | components/detector.py:58-59 | The filter keeps exactly the recent records, and no others. |
| `Detector.RecentQueriesCount` | components/detector.py:58-59 | A recent record is kept as many times as it occurs in the input. A record that is not recent is dropped every time. |
| `Detector.RecentQueriesAppend` | components/detector.py:58-59 | Filtering a concatenation filters each half and keeps their order, as the list comprehension does. |
| `Detector.AllRecentKept` | components/detector.py:58-59 | When every record is recent, the filter returns the whole list in order. |
| `Detector.RecentNeedsPositiveWindow` | components/detector.py:58-62 | A non-empty recent list implies a positive window, so the rate division is never by zero. |
| `Detector.StatisticalAnalysis` | components/detector.py:56-76 | An alert is raised only for a positive window with at least one recent record. |
| `Detector.NonPositiveWindowNoFindings` | components/detector.py:58-62 | A window of 0 or fewer minutes has no recent record and no finding. |
| `Detector.RateFindingIff` | components/detector.py:66-69 | The rate finding appears if and only if more than `100 * window` records are recent. It reports `n / window`. |
| `Detector.RateAboveThreshold` | components/detector.py:67-68 | For a positive window, `n / w > 100` over the reals is the same as `n > 100 * w` over the integers. |
| `Detector.UniqueFindingIff` | components/detector.py:71-74 | The distinct-domain finding appears if and only if more than 50 distinct recent domains exist. It reports their count. |
| `Detector.StatisticsOrdered` | components/detector.py:64-76 | There are at most two window findings, the rate finding first. |
| `Text.FirstLabel` | components/detector.py:30 | `domain.split('.')[0]` is a dot-free prefix of the domain, ending at its first dot. |
| `Text.Split` | components/detector.py:30 | `split('.')` returns at least one part, and no part contains a dot. |
| `Text.Join` | components/simulator.py:111 | `'.'.join(parts)` starts with its first part. |
| `Text.JoinDotCount` | components/simulator.py:111 | Joining `n` dot-free labels writes exactly `n - 1` dots. |
| `Text.SplitLength` | components/detector.py:45-46 | A string with n dots splits into n + 1 parts. |
| `Text.SplitJoin` | components/simulator.py:111 | Splitting undoes joining when no label contains a dot. |
| `Text.JoinSplit` | components/simulator.py:111 | Joining undoes splitting. |
| `Text.DecimalRoundTrip` | components/simulator.py:25 | The numeral `str(n)` reads back as `n`. |
| `Text.Lower` | components/simulator.py:58 | `lower()` keeps the length, gives the same text up to case (equal after `upper()`), and leaves no ASCII capital. |
| `Text.RemoveAll` | components/simulator.py:58 | `replace('=', '')` leaves no `=`, and the result is no longer than the input. It is the identity on text without `=`. |
| `Text.RemoveAllCounts` | components/simulator.py:58 | `replace(c, '')` drops every `c` and keeps every other character exactly as often as it occurs. |
| `Text.RemoveAllAppend` | components/simulator.py:58 | Removal from a concatenation is removal from each half, in their order, so the kept characters keep their order. |
| `Base32.Encode` | components/simulator.py:58 | The output is 8 characters per started 5-byte group, all from the alphabet or `=`. Input whose length is a multiple of 5 gets no padding. |
| `Base32.GroupRoundTrip` | components/simulator.py:58 | Five bytes survive the trip through their eight 5-bit symbols. |
| `Base32.DecodeEncodeGroup` | components/simulator.py:58 | One group, padded or not, decodes back to its bytes. |
| `Base32.DecodeEncode` | components/simulator.py:58 | Decoding inverts encoding on every input. |
| `RandomSource.RandInt` | components/simulator.py:24-25 | `randint(lo, hi)` lies in `[lo, hi]`. |
| `RandomSource.Choice` | components/simulator.py:19-20 | `choice(xs)` is an element of `xs`. |
| `RandomSource.Choices` | components/simulator.py:57 | `choices(xs, k=n)` has `n` elements, each from `xs`. |
| `Records.QueryRecord.constructor` | components/simulator.py:23-29 | A generated record has every key set except `entropy`. |
| `Simulator.CatalogSitesSpell` | components/simulator.py:8-12 | Each catalog entry is a name, a dot and a top-level domain, at most 17 characters long. |
| `Simulator.CatalogSitesShort` | components/simulator.py:8-12 | Each catalog name and top-level domain is a label of 1 to 13 characters. |
| `Simulator.PrefixRead` | components/simulator.py:20 | Each subdomain prefix is empty, or a three-letter label followed by a dot. |
| `Simulator.ClientIp` | components/simulator.py:25 | `f"192.168.1.{host}"` is an address of the client network whose last octet reads back as `host`. |
| `Simulator.DrawNormalDomain` | components/simulator.py:19-21 | The full domain is a prefix followed by a catalog site. |
| `Simulator.Base32Label` | components/simulator.py:58 | The lowered, unpadded Base32 text contains only `[a-z2-7]`. For a payload of whole 5-byte groups it has 8 characters per group. |
| `Simulator.Base32LabelShape` | components/simulator.py:57-58 | 30 ASCII characters encode to a 48-character label from `[a-z2-7]`, with no `=`. Raised to capitals, it decodes back to the payload bytes. |
| `Simulator.Base32DomainShape` | components/simulator.py:57-64 | The domain is the 48-character label followed by `.tunnel.evil.com`, and it carries an alphanumeric payload. |
| `Simulator.Base32TechniqueDomainShape` | components/simulator.py:57-64 | Every domain the Base32 technique can produce has the 48-character `[a-z2-7]` label and the zone, and its label decodes to 30 alphanumeric bytes. |
| `Simulator.DrawBase32Domain` | components/simulator.py:57-64 | A drawn domain is the encoding of 30 ASCII letters and digits, followed by `.tunnel.evil.com`. |
| `Simulator.DrawBase64Domain` | components/simulator.py:75-81 | The domain is a 40-character label from `[A-Za-z0-9+/]` followed by `.data.malicious.com`. |
| `Simulator.DrawHexDomain` | components/simulator.py:92-98 | The domain is a 32-character label from `[0-9a-f]` followed by `.exfil.attacker.com`. |
| `Simulator.DrawLabels` | components/simulator.py:110 | The chain is six labels of eight lowercase letters each. |
| `Simulator.ChainDomainParts` | components/simulator.py:111 | The chain domain splits into the six labels, then `covert` and `com`. |
| `Simulator.DrawChainDomain` | components/simulator.py:110-111 | A drawn chain domain has the long-subdomain technique's shape. |
| `Simulator.Batched` | components/simulator.py:45-47 | The result holds three records' worth of technique per round, each one a technique that was drawn. |
| `Simulator.BatchedRounds` | components/simulator.py:45-47 | Records `3b` to `3b+2` belong to round `b`: the technique changes only between rounds. |
| `Simulator.BatchedSnoc` | components/simulator.py:45-47 | A further round appends its technique three times to the per-record techniques. |
| `Simulator.NewNormalRecord` | components/simulator.py:19-29 | One pass of the normal loop returns a new ordinary record. |
| `Simulator.NewTunnelRecord` | components/simulator.py:55-66 | One pass of a technique's loop returns a new record of that technique: stamped now, from host 100 to 150, of the technique's type, with the technique's domain, and suspicious. The Base32 loop is cited; the loops at lines 74-83, 91-100 and 108-119 are the same with their own domain and type. |
| `Simulator.DnsTunnelSimulator.constructor` | components/simulator.py:7-12 | The catalog field holds the twelve sites in source order. |
| `Simulator.DnsTunnelSimulator.GenerateNormalTraffic` | components/simulator.py:14-31 | Returns `max(count, 0)` records. Each is new, up to 300 whole seconds old, from host 1 to 50, of type A, AAAA or CNAME, for a prefixed catalog site, and not suspicious. |
| `Simulator.DnsTunnelSimulator.GenerateTunnelTraffic` | components/simulator.py:33-49 | Returns `3 * max(count, 0)` new records, three per drawn technique. Each is a record of its round's technique. |
| `Simulator.DnsTunnelSimulator.GenerateBatch` | components/simulator.py:45-47 | One round returns three new records of the drawn technique. |
| `Simulator.DnsTunnelSimulator.GenerateBase32Tunnel` | components/simulator.py:51-68 | Returns `count` new records, stamped now, from host 100 to 150, of type TXT, with the Base32 domain shape, and suspicious. |
| `Simulator.DnsTunnelSimulator.GenerateBase64Tunnel` | components/simulator.py:70-85 | Returns `count` new records, stamped now, from host 100 to 150, of type TXT, with the Base64-like domain shape, and suspicious. |
| `Simulator.DnsTunnelSimulator.GenerateHexTunnel` | components/simulator.py:87-102 | Returns `count` new records, stamped now, from host 100 to 150, of type NULL, with the hex domain shape, and suspicious. |
| `Simulator.DnsTunnelSimulator.GenerateLongSubdomainTunnel` | components/simulator.py:104-121 | Returns `count` new records, stamped now, from host 100 to 150, of type A, with the label-chain domain shape, and suspicious. |
| `Controls.ShortLabelsNoRun` | components/detector.py:9-11 | When every label is shorter than 20 characters, none of the three run patterns matches. |
| `Controls.ShortLabelsNoWordChain` | components/detector.py:12 | When every label is shorter than 10 characters, `(\w{10,}\.){3,}` does not match. |
| `Controls.SiteParts` | components/simulator.py:8-12 | A catalog site splits into its name and top-level domain. |
| `Controls.PrefixedParts` | components/simulator.py:20-21 | A prefixed site has at most three parts, each at most 13 characters long. |
| `Controls.NormalDomainParts` | components/simulator.py:8-21 | An ordinary domain has at most 3 parts, each of at most 13 characters, and at most 21 characters in all. |
| `Controls.NormalRecordOnlyEntropyFinding` | components/detector.py:35-47 | An ordinary record has at most one finding, and it can only be the entropy finding. |
| `Controls.NormalTrafficOnlyEntropyFindings` | components/detector.py:35-47 | No record of an ordinary batch yields a pattern, record-type or depth finding. |
| `Controls.NormalRecordUnflagged` | components/detector.py:30-54 | With an entropy function obeying `H <= log2(n)`, an ordinary record yields no finding, so `analyze_query` leaves it untouched. |
| `Controls.NormalRecordRecent` | components/detector.py:58-59 | An ordinary record is recent if and only if its whole-second age is under the window. Any window of 6 minutes or more holds it. |
| `Controls.Base32TunnelFindings` | components/detector.py:35-37 | A Base32-technique domain matches the Base32 and Base64 patterns. |
| `Controls.Base64TunnelFindings` | components/detector.py:35-37 | A Base64-technique domain matches the Base64 pattern. |
| `Controls.HexTunnelFindings` | components/detector.py:35-37 | A hex-technique domain matches the hex and Base64 patterns. |
| `Controls.ChainDomainLabels` | components/simulator.py:110-111 | A chain domain has 8 parts, all shorter than 10 characters, and its first label has 8 characters. |
| `Controls.LongSubdomainTunnelFindings` | components/detector.py:35-47 | A chain domain gets the depth finding with 8 levels, and no pattern finding, not even the long-labels pattern. |
| `Controls.ChainDomainShort` | components/simulator.py:110-111 | A chain domain has 8 parts and an 8-letter first label, and no suspicious pattern matches it. |
| `Controls.ChainEntropyLow` | components/simulator.py:110-111 | The first label of a chain domain has entropy at most 4.5, for any entropy oracle bounded by label length. |
| `Controls.ChainDomainOnlyDepth` | components/detector.py:26-47 | A type-A record with a chain domain yields exactly one finding: excessive subdomain levels, 8. |
| `Controls.TechniqueRecordFlagged` | components/detector.py:24-54 | Every record of any technique yields at least one finding. |
| `Controls.TunnelTrafficFlagged` | components/detector.py:24-54 | Every record of a tunnelling batch yields at least one finding, so every one is reported. |
| `Controls.TunnelTrafficRate` | components/detector.py:56-69 | In any positive window the whole fresh tunnelling batch is recent. The rate finding fires if and only if the batch has more than `100 * window` records. |

## Left out

- **Floating-point logarithm.** The `math.log` arithmetic of
  `calculate_entropy` is not modelled. The model computes the frequency table
  exactly and passes the Shannon sum over it in as a function (`EntropyOracle`).
  - Detector.CalculateEntropy: the value is not computed. It is the oracle
    applied to the exact frequency table.
  - Controls.NormalRecordUnflagged: assumes the information-theoretic bound
    `H <= log2(n) <= 4.5` for texts of up to 22 characters as a hypothesis
    (`EntropyBoundedByLength`). That bound is not derived from a model of
    `math.log`.
- **Rate rounding.** The rate is compared as an exact real. Float rounding of
  `len / window` is not modelled.
- **Finding text.** Findings are a datatype, one constructor per alert
  string. The `:.2f` and `:.1f` formatting of the numbers is not modelled.
- **Regular expressions.** The four patterns are hand-written search
  predicates.
  - `\w` is taken as ASCII letters, digits and underscore. Unicode word
    characters are not modelled.
  - The optional `={0,2}` tail of the Base64 pattern can never make a search
    fail, so it is dropped.
- **Randomness.** Python's generator is replaced by an arbitrary stream of
  draws and a cursor. The properties hold for every stream. The generator's
  actual distribution is not modelled.
  - Simulator.DnsTunnelSimulator.GenerateTunnelTraffic: the cursor is only
    promised not to move backwards. The exact number of draws per round
    depends on the technique drawn.
- **Clocks.** Every `datetime.now()` call is collapsed into one `now`
  parameter in microseconds.
  - In the source, each record of a batch gets its own clock reading.
  - `statistical_analysis` reads the clock once more for a record without a
    timestamp. The model reads such a record as age 0, while the source's
    second reading can come a moment later and wrap the difference to 86399
    seconds (`FutureTimestampWraps` shows what such a wrap does).
- **Missing import.** components/detector.py uses `datetime` without
  importing it. The name is looked up only inside the filter's condition
  (line 59), so `statistical_analysis` as written returns `[]` for an empty
  `queries` and raises `NameError` as soon as `queries` holds a record. The
  model follows the evident intent: a clock reading taken when the analysis
  runs.
- **Catalog field.** Simulator.DnsTunnelSimulator.GenerateNormalTraffic draws
  its site from `CatalogDomains`. This is the value the constant field
  `normalDomains` always holds, since the source never changes
  `normal_domains` after `__init__`.
- **Default arguments.** `generate_normal_traffic(count=20)`,
  `generate_tunnel_traffic(count=15)` and
  `statistical_analysis(queries, time_window_minutes=5)` have default
  arguments (components/simulator.py:14, components/simulator.py:33,
  components/detector.py:56). The model has no defaults: `count` and
  `windowMinutes` are always passed explicitly.
- **Case mapping.** Text.Lower and Text.Upper map ASCII letters only and
  keep every other character. Python's `lower()` and `upper()` follow
  Unicode, where a mapping can change the length of the text (`'İ'.lower()`
  has two characters). The model applies them only to ASCII text: the Base32
  output and the payload alphabets.
- **Ghost output.** The technique chosen in each round of
  `generate_tunnel_traffic` is returned as a ghost output so the contract can
  name it. The source does not return it.
- **Record representation.** A record is a class with optional fields, not
  a dictionary. Keys other than the six the two components use are not
  modelled.
- **Thresholds.** The detector's thresholds (4.5, 3.0, 5 levels, 20- and
  10-character runs, 100 per minute, 50 domains) are the constants written
  in components/detector.py. The user interface's sensitivity and threshold
  settings never reach the detector.
- **User interface.** app.py (the Streamlit page, session state and refresh
  loop) and components/dashboard.py (charts, tables, alert cards) are
  presentation only and are not part of this model.
