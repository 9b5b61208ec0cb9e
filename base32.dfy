/** Base32 as defined in section 6 of RFC 4648, the encoding behind Python's
    `base64.b32encode`: every 5 input bytes (a 40-bit group) become 8
    characters of the alphabet `A`-`Z`, `2`-`7`, each standing for 5 bits,
    most significant first; a final group of 1 to 4 bytes is completed with
    zero bits, and the characters that carry no input bits are replaced by `=`.
    The decoder is the inverse the RFC describes. */
module Base32 {

  const PadChar: char := '='

  /** A character of the RFC 4648 Base32 alphabet. */
  predicate IsSymbolChar(c: char) {
    'A' <= c <= 'Z' || '2' <= c <= '7'
  }

  /** The alphabet: values 0 to 25 are `A` to `Z`, values 26 to 31 are `2` to `7`. */
  function SymbolChar(v: bv5): (c: char)
    ensures IsSymbolChar(c)
  {
    if v < 26 then ('A' as int + v as int) as char else ('2' as int + v as int - 26) as char
  }

  /** The value of an alphabet character; anything else (the pad) reads as 0. */
  function SymbolValue(c: char): bv5 {
    if 'A' <= c <= 'Z' then (c as int - 'A' as int) as bv5
    else if '2' <= c <= '7' then (c as int - '2' as int + 26) as bv5
    else 0
  }

  lemma SymbolRoundTrip(v: bv5)
    ensures SymbolValue(SymbolChar(v)) == v
  {
  }

  /** The 40-bit group of five bytes, the first byte most significant. */
  function Pack(g: seq<bv8>): bv40
    requires |g| == 5
  {
    (g[0] as bv40 << 32) | (g[1] as bv40 << 24) | (g[2] as bv40 << 16) | (g[3] as bv40 << 8) | (g[4] as bv40)
  }

  /** Where the `i`-th 5-bit symbol of a group starts, counted from the low end. */
  function SymbolShift(i: nat): bv40
    requires i < 8
  {
    if i == 0 then 35 else if i == 1 then 30 else if i == 2 then 25 else if i == 3 then 20
    else if i == 4 then 15 else if i == 5 then 10 else if i == 6 then 5 else 0
  }

  /** The `i`-th 5-bit symbol of a group. */
  function Symbol(v: bv40, i: nat): bv5
    requires i < 8
  {
    ((v >> SymbolShift(i)) & 31) as bv5
  }

  /** The group the eight symbols stand for, split back into its five bytes. */
  function Unpack(s: seq<bv5>): (g: seq<bv8>)
    requires |s| == 8
    ensures |g| == 5
  {
    var v := (s[0] as bv40 << 35) | (s[1] as bv40 << 30) | (s[2] as bv40 << 25) | (s[3] as bv40 << 20)
           | (s[4] as bv40 << 15) | (s[5] as bv40 << 10) | (s[6] as bv40 << 5) | (s[7] as bv40);
    [(v >> 32) as bv8, ((v >> 24) & 0xFF) as bv8, ((v >> 16) & 0xFF) as bv8, ((v >> 8) & 0xFF) as bv8, (v & 0xFF) as bv8]
  }

  function Symbols(g: seq<bv8>): (s: seq<bv5>)
    requires |g| == 5
    ensures |s| == 8
  {
    var v := Pack(g);
    [Symbol(v, 0), Symbol(v, 1), Symbol(v, 2), Symbol(v, 3), Symbol(v, 4), Symbol(v, 5), Symbol(v, 6), Symbol(v, 7)]
  }

  /** Five bytes survive the trip through their eight symbols. */
  lemma GroupRoundTrip(g: seq<bv8>)
    requires |g| == 5
    ensures Unpack(Symbols(g)) == g
  {
  }

  /** How many characters carry the bits of a final group of `r` bytes: 2, 4, 5, 7 (and 8 for a full group). */
  function CharsFor(r: nat): (k: nat)
    requires 1 <= r <= 5
    ensures k <= 8
  {
    (8 * r + 4) / 5
  }

  /** How many bytes a group with `k` significant characters holds: the inverse of `CharsFor`. */
  function BytesFor(k: nat): nat {
    (5 * k) / 8
  }

  function Zeros(n: nat): (z: seq<bv8>)
    ensures |z| == n && forall i | 0 <= i < n :: z[i] == 0
  {
    seq(n, i => 0)
  }

  function Padding(n: nat): (p: string)
    ensures |p| == n && forall i | 0 <= i < n :: p[i] == PadChar
  {
    seq(n, i => PadChar)
  }

  /** The eight characters of one group; for a final group of `r < 5` bytes
      only the first `CharsFor(r)` characters are kept and the rest are `=`. */
  function EncodeGroup(data: seq<bv8>): (s: string)
    requires 1 <= |data| <= 5
    ensures |s| == 8
    ensures forall i | 0 <= i < 8 :: IsSymbolChar(s[i]) || s[i] == PadChar
    ensures |data| == 5 ==> forall i | 0 <= i < 8 :: IsSymbolChar(s[i])
  {
    var k := CharsFor(|data|);
    var syms := Symbols(data + Zeros(5 - |data|));
    seq(8, i requires 0 <= i < 8 => if i < k then SymbolChar(syms[i]) else PadChar)
  }

  /** `base64.b32encode(data)`. */
  function Encode(data: seq<bv8>): (s: string)
    ensures |s| == 8 * ((|data| + 4) / 5)
    ensures forall i | 0 <= i < |s| :: IsSymbolChar(s[i]) || s[i] == PadChar
    ensures |data| % 5 == 0 ==> forall i | 0 <= i < |s| :: IsSymbolChar(s[i])
    decreases |data|
  {
    if |data| == 0 then []
    else if |data| <= 5 then EncodeGroup(data)
    else
      assert (|data| + 4) / 5 == (|data[5..]| + 4) / 5 + 1;
      EncodeGroup(data[..5]) + Encode(data[5..])
  }

  /** The number of `=` characters at the end of `s`. */
  function TrailingPads(s: string): (n: nat)
    ensures n <= |s|
  {
    if s != [] && s[|s| - 1] == PadChar then TrailingPads(s[..|s| - 1]) + 1 else 0
  }

  /** One group of eight characters back to its bytes: pads read as zero
      bits, and the number of pads says how many bytes the group holds. */
  function DecodeGroup(s: string): seq<bv8>
    requires |s| == 8
  {
    var bytes := Unpack(seq(8, i requires 0 <= i < 8 => SymbolValue(s[i])));
    bytes[..BytesFor(8 - TrailingPads(s))]
  }

  /** The decoder of section 6 of RFC 4648, group by group. */
  function Decode(s: string): seq<bv8>
    decreases |s|
  {
    if |s| < 8 then [] else DecodeGroup(s[..8]) + Decode(s[8..])
  }

  /** The characters of an encoded final group that carry no input bits are zero symbols. */
  lemma UnusedSymbolsZero(data: seq<bv8>, i: nat)
    requires 1 <= |data| <= 5 && CharsFor(|data|) <= i < 8
    ensures Symbols(data + Zeros(5 - |data|))[i] == 0
  {
    var g := data + Zeros(5 - |data|);
    assert g[|data|..] == Zeros(5 - |data|);
    var v := Pack(g);
    if |data| == 1 {
      assert g[1] == 0 && g[2] == 0 && g[3] == 0 && g[4] == 0;
    } else if |data| == 2 {
      assert g[2] == 0 && g[3] == 0 && g[4] == 0;
    } else if |data| == 3 {
      assert g[3] == 0 && g[4] == 0;
    } else if |data| == 4 {
      assert g[4] == 0;
    }
  }

  lemma {:induction false} TrailingPadsOfGroup(s: string, k: nat)
    requires k <= |s|
    requires forall i | 0 <= i < k :: s[i] != PadChar
    requires forall i | k <= i < |s| :: s[i] == PadChar
    ensures TrailingPads(s) == |s| - k
    decreases |s|
  {
    if |s| > k {
      TrailingPadsOfGroup(s[..|s| - 1], k);
    } else if s != [] {
      assert s[|s| - 1] != PadChar;
    }
  }

  /** Decoding an encoded group gives back its bytes. */
  lemma DecodeEncodeGroup(data: seq<bv8>)
    requires 1 <= |data| <= 5
    ensures DecodeGroup(EncodeGroup(data)) == data
  {
    var r := |data|;
    var k := CharsFor(r);
    var g := data + Zeros(5 - r);
    var s := EncodeGroup(data);
    var syms := Symbols(g);
    var read := seq(8, i requires 0 <= i < 8 => SymbolValue(s[i]));
    forall i | 0 <= i < 8 ensures read[i] == syms[i] {
      if i < k {
        SymbolRoundTrip(syms[i]);
      } else {
        UnusedSymbolsZero(data, i);
      }
    }
    assert read == syms;
    GroupRoundTrip(g);
    TrailingPadsOfGroup(s, k);
    assert BytesFor(8 - TrailingPads(s)) == r;
    assert g[..r] == data;
  }

  /** `Decode` inverts `Encode` on every input. */
  lemma {:induction false} DecodeEncode(data: seq<bv8>)
    ensures Decode(Encode(data)) == data
    decreases |data|
  {
    if |data| == 0 {
    } else if |data| <= 5 {
      DecodeEncodeGroup(data);
      assert Encode(data)[..8] == Encode(data) && Encode(data)[8..] == [];
    } else {
      var s := Encode(data);
      assert s[..8] == EncodeGroup(data[..5]);
      assert s[8..] == Encode(data[5..]);
      DecodeEncodeGroup(data[..5]);
      DecodeEncode(data[5..]);
      assert data[..5] + data[5..] == data;
    }
  }
}
