/** String operations the detector and the simulator rely on: Python's
    `str.split('.')` and `'.'.join(...)`, `str(int)` for the client address,
    and ASCII `str.lower()` / `str.upper()`. */
module Text {

  /** No character of `s` is a dot, i.e. `s` is a single DNS label. */
  predicate DotFree(s: string) {
    forall k | 0 <= k < |s| :: s[k] != '.'
  }

  /** The `n` characters of `s` starting at `i` exist and none of them is a dot. */
  predicate DotFreeAt(s: string, i: nat, n: nat) {
    i + n <= |s| && forall k | i <= k < i + n :: s[k] != '.'
  }

  /** Number of dots in `s` (Python's `s.count('.')`). */
  function DotCount(s: string): nat {
    if s == [] then 0 else (if s[0] == '.' then 1 else 0) + DotCount(s[1..])
  }

  /** Python's `s.split('.')`: the maximal dot-free pieces between dots, empty
      pieces included, so `""` splits into `[""]`. */
  function Split(s: string): (parts: seq<string>)
    ensures |parts| >= 1
    ensures forall p | p in parts :: DotFree(p)
  {
    if s == [] then [""]
    else
      var rest := Split(s[1..]);
      if s[0] == '.' then [""] + rest
      else
        assert rest[0] in rest;
        assert forall p | p in rest[1..] :: p in rest;
        [[s[0]] + rest[0]] + rest[1..]
  }

  /** Python's `'.'.join(parts)` for a non-empty list: the first part leads
      (and joining labels puts exactly one dot between neighbours, by
      `JoinDotCount`). */
  function Join(parts: seq<string>): (r: string)
    requires |parts| >= 1
    ensures parts[0] <= r
  {
    if |parts| == 1 then parts[0]
    else parts[0] + "." + Join(parts[1..])
  }

  /** Joining `n` labels writes `n - 1` dots. */
  lemma {:induction false} JoinDotCount(parts: seq<string>)
    requires |parts| >= 1
    requires forall p | p in parts :: DotFree(p)
    ensures DotCount(Join(parts)) == |parts| - 1
  {
    DotFreeNoDots(parts[0]);
    if |parts| > 1 {
      assert forall p | p in parts[1..] :: p in parts;
      JoinDotCount(parts[1..]);
      DotCountAppend(parts[0] + ".", Join(parts[1..]));
      DotCountAppend(parts[0], ".");
    }
  }

  /** The text before the first dot, the label the detector scores. */
  function FirstLabel(s: string): (first: string)
    ensures DotFree(first) && first <= s
    ensures |first| < |s| ==> s[|first|] == '.'
  {
    SplitPrefix(s);
    Split(s)[0]
  }

  /** Dots of a concatenation are the dots of its halves. */
  lemma {:induction false} DotCountAppend(a: string, b: string)
    ensures DotCount(a + b) == DotCount(a) + DotCount(b)
  {
    if a != [] {
      assert (a + b)[1..] == a[1..] + b;
      DotCountAppend(a[1..], b);
    } else {
      assert a + b == b;
    }
  }

  /** A string is a single label exactly when it has no dots to count. */
  lemma {:induction false} DotFreeNoDots(s: string)
    ensures DotFree(s) <==> DotCount(s) == 0
  {
    if s != [] {
      DotFreeNoDots(s[1..]);
    }
  }

  /** A string with `n` dots splits into `n + 1` parts. */
  lemma {:induction false} SplitLength(s: string)
    ensures |Split(s)| == DotCount(s) + 1
  {
    if s != [] {
      SplitLength(s[1..]);
    }
  }

  /** The first part is a prefix of `s`, followed by a dot when it is shorter. */
  lemma {:induction false} SplitPrefix(s: string)
    ensures DotFree(Split(s)[0]) && Split(s)[0] <= s
    ensures |Split(s)[0]| < |s| ==> s[|Split(s)[0]|] == '.'
  {
    if s != [] {
      SplitPrefix(s[1..]);
    }
  }

  /** Splitting a label, a dot and a tail gives the label followed by the tail's parts. */
  lemma {:induction false} SplitDotted(a: string, b: string)
    requires DotFree(a)
    ensures Split(a + "." + b) == [a] + Split(b)
  {
    if a == [] {
      assert a + "." + b == ['.'] + b;
      assert (['.'] + b)[1..] == b;
    } else {
      assert (a + "." + b)[1..] == a[1..] + "." + b;
      SplitDotted(a[1..], b);
      assert [a[0]] + a[1..] == a;
    }
  }

  /** A single label splits into itself. */
  lemma {:induction false} SplitLabel(a: string)
    requires DotFree(a)
    ensures Split(a) == [a]
  {
    if a != [] {
      SplitLabel(a[1..]);
      assert [a[0]] + a[1..] == a;
    }
  }

  /** `split` undoes `join` when no part contains the separator. */
  lemma {:induction false} SplitJoin(parts: seq<string>)
    requires |parts| >= 1
    requires forall p | p in parts :: DotFree(p)
    ensures Split(Join(parts)) == parts
  {
    if |parts| == 1 {
      SplitLabel(parts[0]);
    } else {
      assert parts[0] in parts;
      assert forall p | p in parts[1..] :: p in parts;
      SplitJoin(parts[1..]);
      SplitDotted(parts[0], Join(parts[1..]));
      assert [parts[0]] + parts[1..] == parts;
    }
  }

  /** `join` undoes `split`. */
  lemma {:induction false} JoinSplit(s: string)
    ensures Join(Split(s)) == s
  {
    if s != [] {
      var rest := Split(s[1..]);
      JoinSplit(s[1..]);
      assert [s[0]] + s[1..] == s;
      if s[0] == '.' {
        assert Split(s) == [""] + rest;
        JoinCons("", rest);
      } else {
        assert Split(s) == [[s[0]] + rest[0]] + rest[1..];
        JoinExtendFirst([s[0]], rest);
      }
    }
  }

  /** A label in front joins with one dot before the rest. */
  lemma JoinCons(x: string, parts: seq<string>)
    requires |parts| >= 1
    ensures Join([x] + parts) == x + "." + Join(parts)
  {
    assert ([x] + parts)[1..] == parts;
  }

  /** Extending the first part extends the joined text at its front. */
  lemma JoinExtendFirst(x: string, parts: seq<string>)
    requires |parts| >= 1
    ensures Join([x + parts[0]] + parts[1..]) == x + Join(parts)
  {
    var ps := [x + parts[0]] + parts[1..];
    if |parts| > 1 {
      var tail := Join(parts[1..]);
      assert ps[1..] == parts[1..];
      Associative(x, parts[0] + ".", tail);
      Associative(x, parts[0], ".");
    }
  }

  lemma Associative(a: string, b: string, c: string)
    ensures (a + b) + c == a + (b + c)
  {
  }

  /** Joining two lists of labels with a dot in between joins their concatenation. */
  lemma {:induction false} JoinAppend(xs: seq<string>, ys: seq<string>)
    requires |xs| >= 1 && |ys| >= 1
    ensures Join(xs + ys) == Join(xs) + "." + Join(ys)
  {
    if |xs| == 1 {
      assert (xs + ys)[1..] == ys;
    } else {
      assert (xs + ys)[1..] == xs[1..] + ys;
      JoinAppend(xs[1..], ys);
    }
  }

  /** A dot-free prefix of `s` fits in the first label. */
  lemma {:induction false} DotFreePrefixInFirstLabel(s: string, m: nat)
    requires DotFreeAt(s, 0, m)
    ensures m <= |Split(s)[0]|
  {
    if m > 0 {
      assert s[0] != '.';
      DotFreePrefixInFirstLabel(s[1..], m - 1);
    }
  }

  /** When every label is shorter than `n`, no `n` consecutive characters are free of dots. */
  lemma {:induction false} ShortLabelsNoDotFreeRun(s: string, n: nat, i: nat)
    requires n > 0
    requires forall p | p in Split(s) :: |p| < n
    ensures !DotFreeAt(s, i, n)
  {
    if DotFreeAt(s, i, n) {
      var rest := Split(s[1..]);
      if i == 0 {
        assert Split(s)[0] in Split(s);
        DotFreePrefixInFirstLabel(s, n);
        assert false;
      } else {
        forall p | p in rest ensures |p| < n {
          if s[0] == '.' {
            assert p in Split(s);
          } else if p == rest[0] {
            assert [s[0]] + rest[0] in Split(s);
          } else {
            assert p in rest[1..];
            assert p in Split(s);
          }
        }
        assert DotFreeAt(s[1..], i - 1, n);
        ShortLabelsNoDotFreeRun(s[1..], n, i - 1);
      }
    }
  }

  // ---------------------------------------------------------------------------
  // Character classes

  /** `[a-z2-7]`: small letters and the digits 2 to 7, the Base32 alphabet in
      lower case. */
  predicate IsBase32Char(c: char) {
    'a' <= c <= 'z' || '2' <= c <= '7'
  }

  // ---------------------------------------------------------------------------
  // Decimal numerals: Python's `str(n)` for a natural number, and its inverse.

  predicate IsDigit(c: char) {
    '0' <= c <= '9'
  }

  function DigitChar(d: nat): (c: char)
    requires d < 10
    ensures IsDigit(c)
  {
    ('0' as int + d) as char
  }

  function DigitValue(c: char): (d: nat)
    requires IsDigit(c)
    ensures d < 10 && DigitChar(d) == c
  {
    c as int - '0' as int
  }

  /** `str(n)`: the shortest decimal numeral of `n`. */
  function Decimal(n: nat): (s: string)
    ensures 1 <= |s| && forall k | 0 <= k < |s| :: IsDigit(s[k])
    ensures |s| > 1 ==> s[0] != '0'
  {
    if n < 10 then [DigitChar(n)] else Decimal(n / 10) + [DigitChar(n % 10)]
  }

  /** The value of a numeral made of digits only (`int(s)` for such `s`). */
  function ParseDecimal(s: string): nat
    requires forall k | 0 <= k < |s| :: IsDigit(s[k])
  {
    if s == [] then 0 else ParseDecimal(s[..|s| - 1]) * 10 + DigitValue(s[|s| - 1])
  }

  /** Reading back the numeral `str(n)` gives `n`. */
  lemma {:induction false} DecimalRoundTrip(n: nat)
    ensures ParseDecimal(Decimal(n)) == n
  {
    if n >= 10 {
      var s := Decimal(n);
      assert s[..|s| - 1] == Decimal(n / 10);
      DecimalRoundTrip(n / 10);
    }
  }

  // ---------------------------------------------------------------------------
  // ASCII case mapping (`str.lower()` / `str.upper()` restricted to ASCII).

  function LowerChar(c: char): char {
    if 'A' <= c <= 'Z' then (c as int - 'A' as int + 'a' as int) as char else c
  }

  function UpperChar(c: char): char {
    if 'a' <= c <= 'z' then (c as int - 'a' as int + 'A' as int) as char else c
  }

  /** `s.lower()`: the same text up to case, with no capital left. */
  function Lower(s: string): (r: string)
    ensures |r| == |s| && forall k | 0 <= k < |s| :: r[k] == LowerChar(s[k])
    ensures Upper(r) == Upper(s)
    ensures forall k | 0 <= k < |r| :: !('A' <= r[k] <= 'Z')
  {
    seq(|s|, k requires 0 <= k < |s| => LowerChar(s[k]))
  }

  /** `s.upper()` for ASCII. */
  function Upper(s: string): (r: string)
    ensures |r| == |s| && forall k | 0 <= k < |s| :: r[k] == UpperChar(s[k])
  {
    seq(|s|, k requires 0 <= k < |s| => UpperChar(s[k]))
  }

  /** `s.replace(c, '')`: every occurrence of `c` removed (every other
      character kept as often as it occurs, by `RemoveAllCounts`, and in
      order, by `RemoveAllAppend`). */
  function RemoveAll(s: string, c: char): (r: string)
    ensures c !in r && |r| <= |s|
    ensures c !in s ==> r == s
  {
    if s == [] then []
    else (if s[0] == c then [] else [s[0]]) + RemoveAll(s[1..], c)
  }

  /** Removal drops every copy of `c` and keeps every other character as
      many times as it occurs. */
  lemma {:induction false} RemoveAllCounts(s: string, c: char)
    ensures multiset(RemoveAll(s, c)) == multiset(s)[c := 0]
  {
    if s != [] {
      RemoveAllCounts(s[1..], c);
      assert s == [s[0]] + s[1..];
      assert multiset(s) == multiset{s[0]} + multiset(s[1..]);
    }
  }

  /** Removing from a concatenation removes from each half, keeping their order. */
  lemma {:induction false} RemoveAllAppend(a: string, b: string, c: char)
    ensures RemoveAll(a + b, c) == RemoveAll(a, c) + RemoveAll(b, c)
  {
    if a == [] {
      assert a + b == b;
    } else {
      var head := if a[0] == c then [] else [a[0]];
      assert a + b == [a[0]] + (a[1..] + b);
      RemoveAllCons(a[0], a[1..] + b, c);
      RemoveAllAppend(a[1..], b, c);
      Associative(head, RemoveAll(a[1..], c), RemoveAll(b, c));
    }
  }

  /** A character in front is kept unless it is the one removed. */
  lemma RemoveAllCons(x: char, t: string, c: char)
    ensures RemoveAll([x] + t, c) == (if x == c then [] else [x]) + RemoveAll(t, c)
  {
    assert ([x] + t)[0] == x && ([x] + t)[1..] == t;
  }
}
