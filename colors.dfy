/**
 * `hex_to_rgb` of the game process: parses `#RGB` / `#RRGGBB` colour strings
 * (any number of leading `#` is accepted) into an RGB triple.
 */
module Colors {
  import opened Wrappers

  datatype Rgb = Rgb(r: int, g: int, b: int)

  predicate InByteRange(c: Rgb) {
    0 <= c.r <= 255 && 0 <= c.g <= 255 && 0 <= c.b <= 255
  }

  predicate IsHexDigit(ch: char) {
    '0' <= ch <= '9' || 'a' <= ch <= 'f' || 'A' <= ch <= 'F'
  }

  predicate AllHexDigits(s: string) {
    forall i :: 0 <= i < |s| ==> IsHexDigit(s[i])
  }

  function DigitValue(ch: char): (v: nat)
    requires IsHexDigit(ch)
    ensures v < 16
  {
    if '0' <= ch <= '9' then ch as int - '0' as int
    else if 'a' <= ch <= 'f' then ch as int - 'a' as int + 10
    else ch as int - 'A' as int + 10
  }

  /** `h.lstrip('#')`: drops every leading `#`. */
  function StripHashes(h: string): (s: string)
    ensures |s| <= |h| && s == h[|h| - |s|..]
    ensures s == [] || s[0] != '#'
    ensures forall i :: 0 <= i < |h| - |s| ==> h[i] == '#'
  {
    if h != [] && h[0] == '#' then StripHashes(h[1..]) else h
  }

  /** The three-digit short form with every digit doubled. */
  function Doubled(s: string): (d: string)
    requires |s| == 3
  {
    [s[0], s[0], s[1], s[1], s[2], s[2]]
  }

  /** `int(s[i:i+2], 16)`, restricted to pairs of hex digits. */
  function PairValue(s: string, i: nat): Option<int>
    requires i + 2 <= |s|
  {
    if IsHexDigit(s[i]) && IsHexDigit(s[i + 1])
    then Some(16 * DigitValue(s[i]) + DigitValue(s[i + 1]))
    else None
  }

  /** The conversion applied once the leading `#`s are gone. */
  function ParseStripped(s: string): (c: Option<Rgb>)
    ensures c.Some? ==> |s| == 3 || |s| == 6
    ensures c.Some? ==> InByteRange(c.value)
  {
    if |s| == 3 then ParsePairs(Doubled(s))
    else if |s| == 6 then ParsePairs(s)
    else None
  }

  /** The three two-digit components of a six-character colour. */
  function ParsePairs(digits: string): (c: Option<Rgb>)
    requires |digits| == 6
    ensures c.Some? ==> InByteRange(c.value)
  {
    match (PairValue(digits, 0), PairValue(digits, 2), PairValue(digits, 4))
    case (Some(r), Some(g), Some(b)) => Some(Rgb(r, g, b))
    case _ => None
  }

  /**
   * `hex_to_rgb(h)`: `None` for the empty string, for anything whose length
   * after stripping is neither 3 nor 6, and for non-hex digits.
   */
  function HexToRgb(h: string): (c: Option<Rgb>)
    ensures c.Some? ==> |StripHashes(h)| == 3 || |StripHashes(h)| == 6
    ensures c.Some? ==> InByteRange(c.value)
  {
    if h == [] then None else ParseStripped(StripHashes(h))
  }

  lemma PairsDefinedIff(s: string)
    requires |s| == 6
    ensures ParsePairs(s).Some? <==> AllHexDigits(s)
  {
    if !AllHexDigits(s) {
      var i :| 0 <= i < 6 && !IsHexDigit(s[i]);
      assert !PairValue(s, i - i % 2).Some?;
    }
  }

  lemma DoubledHexDigits(s: string)
    requires |s| == 3
    ensures AllHexDigits(Doubled(s)) <==> AllHexDigits(s)
  {
    if !AllHexDigits(s) {
      var i :| 0 <= i < 3 && !IsHexDigit(s[i]);
      assert !IsHexDigit(Doubled(s)[2 * i]);
    }
  }

  /**
   * Exactly the non-empty strings that are three or six hex digits after the
   * leading `#`s parse.
   */
  lemma HexToRgbDefinedIff(h: string)
    ensures HexToRgb(h).Some? <==>
      h != [] && (|StripHashes(h)| == 3 || |StripHashes(h)| == 6) && AllHexDigits(StripHashes(h))
  {
    if h != [] {
      var stripped := StripHashes(h);
      if |stripped| == 3 {
        DoubledHexDigits(stripped);
        PairsDefinedIff(Doubled(stripped));
      } else if |stripped| == 6 {
        PairsDefinedIff(stripped);
      }
    }
  }

  /** The lower-case hex digit of `n`. */
  function HexChar(n: nat): (ch: char)
    requires n < 16
    ensures IsHexDigit(ch) && DigitValue(ch) == n
  {
    if n < 10 then ('0' as int + n) as char else ('a' as int + n - 10) as char
  }

  /** `#rrggbb` for a colour: the form the dashboard stores and hands out. */
  function ToHex(c: Rgb): (h: string)
    requires InByteRange(c)
    ensures |h| == 7 && h[0] == '#'
  {
    ['#', HexChar(c.r / 16), HexChar(c.r % 16), HexChar(c.g / 16), HexChar(c.g % 16),
     HexChar(c.b / 16), HexChar(c.b % 16)]
  }

  lemma StripOneHash(t: string)
    requires t != [] && t[0] != '#'
    ensures StripHashes(['#'] + t) == t
  {
    assert (['#'] + t)[1..] == t;
  }

  /** Writing a colour as `#rrggbb` and parsing it back gives the colour. */
  lemma HexRoundTrip(c: Rgb)
    requires InByteRange(c)
    ensures HexToRgb(ToHex(c)) == Some(c)
  {
    var h := ToHex(c);
    StripOneHash(h[1..]);
    assert ['#'] + h[1..] == h;
    var s := h[1..];
    assert PairValue(s, 0) == Some(c.r);
    assert PairValue(s, 2) == Some(c.g);
    assert PairValue(s, 4) == Some(c.b);
  }

  /** A three-digit colour scales each digit by 17: `#abc` is `(0xaa, 0xbb, 0xcc)`. */
  lemma ShortFormScales(h: string)
    requires |StripHashes(h)| == 3 && AllHexDigits(StripHashes(h))
    ensures h != []
    ensures var s := StripHashes(h);
      HexToRgb(h) == Some(Rgb(17 * DigitValue(s[0]), 17 * DigitValue(s[1]), 17 * DigitValue(s[2])))
  {
    var s := StripHashes(h);
    var d := Doubled(s);
    DoubledPair(s, 0);
    DoubledPair(s, 1);
    DoubledPair(s, 2);
    assert ParseStripped(s) == ParsePairs(d);
  }

  /** The `k`-th pair of a doubled short form is its `k`-th digit times 17. */
  lemma DoubledPair(s: string, k: nat)
    requires |s| == 3 && k < 3 && IsHexDigit(s[k])
    ensures PairValue(Doubled(s), 2 * k) == Some(17 * DigitValue(s[k]))
  {
    var d := Doubled(s);
    assert d[2 * k] == s[k] && d[2 * k + 1] == s[k];
  }

  /** `#RGB` and its doubled six-digit form `#RRGGBB` denote the same colour. */
  lemma ShortFormMatchesLongForm(h: string)
    requires |StripHashes(h)| == 3
    ensures HexToRgb(h) == HexToRgb(['#'] + Doubled(StripHashes(h)))
  {
    var s := StripHashes(h);
    var d := Doubled(s);
    StripOneHash(d);
    assert HexToRgb(['#'] + d) == ParseStripped(d);
    assert ParseStripped(s) == ParseStripped(d);
  }
}
