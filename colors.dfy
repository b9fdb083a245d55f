/**
 * The colour resolver of the compositor: a colour token is a name from a
 * fixed table (any letter case) or six hexadecimal digits, optionally
 * preceded by '#', and becomes an opaque RGBA value.
 */
module Colors {
  import opened Results
  import opened GoStrings
  import opened GoStrconv

  type byte = x: int | 0 <= x < 256

  datatype Rgba = Rgba(r: byte, g: byte, b: byte, a: byte)

  /** Why a token was refused: the length check failed, or ParseInt did. */
  datatype ColorError = BadLength(token: string) | BadHex(token: string)

  /** The named colours, keyed by lower-case name. */
  const NamedColors: map<string, string> := map[
    "black" := "#000000",
    "white" := "#FFFFFF",
    "red" := "#FF0000",
    "lime" := "#00FF00",
    "blue" := "#0000FF",
    "yellow" := "#FFFF00",
    "cyan" := "#00FFFF",
    "magenta" := "#FF00FF",
    "silver" := "#C0C0C0",
    "gray" := "#808080",
    "grey" := "#808080",
    "maroon" := "#800000",
    "olive" := "#808000",
    "green" := "#008000",
    "purple" := "#800080",
    "teal" := "#008080",
    "navy" := "#000080",
    "darkgray" := "#A9A9A9",
    "darkgrey" := "#A9A9A9",
    "lightgray" := "#D3D3D3",
    "lightgrey" := "#D3D3D3"
  ]

  /** The token that remains once a name has been looked up and one '#' removed. */
  function HexPart(s: string): string {
    var lower := ToLower(s);
    var t := if lower in NamedColors then NamedColors[lower] else lower;
    TrimPrefix(t, "#")
  }

  /** Split a parsed 24-bit value into channels as the uint8 conversions of `c >> 16`, `c >> 8` and `c` do. */
  function Channels(c: int): (r: Rgba)
    ensures r.a == 255
  {
    Rgba((c / 0x1_0000) % 256, (c / 256) % 256, c % 256, 255)
  }

  /** parseHexColor: look the token up, drop one '#', then check and parse the six digits. */
  function ParseHexColor(s: string): (r: Result<Rgba, ColorError>)
    ensures r.Ok? ==> r.value.a == 255
  {
    ParseHexToken(HexPart(s))
  }

  /** The length check and the parse of parseHexColor, on what the lookup left. */
  function ParseHexToken(h: string): (r: Result<Rgba, ColorError>)
    ensures r.Ok? ==> r.value.a == 255
    ensures r.Err? ==> r.error.token == h
  {
    if ByteLen(h) != 6 then Err(BadLength(h))
    else match ParseInt(h, 16, 32)
      case None => Err(BadHex(h))
      case Some(c) => Ok(Channels(c))
  }

  /** Six hex digits, or a sign and five: exactly what ParseInt(_, 16, 32) accepts among six-character tokens. */
  predicate SixHexDigits(h: string) {
    |h| == 6 &&
    (IsDigits(h, 16) || ((h[0] == '+' || h[0] == '-') && IsDigits(h[1..], 16)))
  }

  lemma DigitsAreAscii(s: string, base: nat)
    requires IsDigits(s, base)
    ensures IsAscii(s)
  {
  }

  /**
   * The tokens the resolver accepts: after the name lookup and the removal of
   * one '#', six hex digits, or a sign followed by five of them.
   */
  lemma {:induction false} AcceptedTokens(s: string)
    ensures ParseHexColor(s).Ok? <==> SixHexDigits(HexPart(s))
  {
    var h := HexPart(s);
    ByteLenAtLeastLength(h);
    if ParseHexColor(s).Ok? {
      assert ByteLen(h) == 6;
      var digits := if |h| > 0 && (h[0] == '+' || h[0] == '-') then h[1..] else h;
      assert IsDigits(digits, 16);
      DigitsAreAscii(digits, 16);
      assert IsAscii(h) by {
        if digits != h {
          forall i | 0 <= i < |h| ensures h[i] as int < 0x80 {
            if i > 0 { assert h[i] == digits[i - 1]; }
          }
        }
      }
      AsciiByteLen(h);
    }
    if SixHexDigits(h) {
      var digits := if h[0] == '+' || h[0] == '-' then h[1..] else h;
      assert IsDigits(digits, 16);
      DigitsAreAscii(digits, 16);
      assert IsAscii(h) by {
        if digits != h {
          forall i | 0 <= i < |h| ensures h[i] as int < 0x80 {
            if i > 0 { assert h[i] == digits[i - 1]; }
          }
        }
      }
      AsciiByteLen(h);
      DigitsBound(digits, 16);
      assert Pow(16, |digits|) <= Pow(16, 6) == 0x100_0000;
      assert DigitsValue(digits, 16) < Cutoff(32);
    }
  }

  /** The value of a pair of hex digits, as one channel. */
  function PairValue(hi: char, lo: char): nat
    requires IsDigit(hi, 16) && IsDigit(lo, 16)
  {
    DigitValue(hi).value * 16 + DigitValue(lo).value
  }

  lemma {:induction false} SixDigitValue(h: string)
    requires |h| == 6 && IsDigits(h, 16)
    ensures DigitsValue(h, 16) ==
      PairValue(h[0], h[1]) * 0x1_0000 + PairValue(h[2], h[3]) * 0x100 + PairValue(h[4], h[5])
  {
    var d := seq(6, i requires 0 <= i < 6 => DigitValue(h[i]).value);
    assert h[..5][..4] == h[..4] && h[..4][..3] == h[..3] && h[..3][..2] == h[..2];
    assert h[..2][..1] == h[..1] && h[..1][..0] == [];
    assert IsDigits(h[..5], 16) && IsDigits(h[..4], 16) && IsDigits(h[..3], 16);
    assert IsDigits(h[..2], 16) && IsDigits(h[..1], 16);
    assert DigitsValue(h[..1], 16) == d[0];
    assert DigitsValue(h[..2], 16) == d[0] * 16 + d[1];
    assert DigitsValue(h[..3], 16) == (d[0] * 16 + d[1]) * 16 + d[2];
    assert DigitsValue(h[..4], 16) == ((d[0] * 16 + d[1]) * 16 + d[2]) * 16 + d[3];
    assert DigitsValue(h[..5], 16) == (((d[0] * 16 + d[1]) * 16 + d[2]) * 16 + d[3]) * 16 + d[4];
  }

  lemma ChannelsOfPairs(r: byte, g: byte, b: byte)
    ensures Channels(r * 0x1_0000 + g * 0x100 + b) == Rgba(r, g, b, 255)
  {
    var c := r * 0x1_0000 + g * 0x100 + b;
    assert c / 0x1_0000 == r;
    assert c / 0x100 == r * 0x100 + g;
    assert (r * 0x100 + g) % 256 == g;
  }

  /**
   * Six hex digits (after the lookup and one '#') give the colour whose red,
   * green and blue are the three digit pairs, fully opaque.
   */
  lemma HexDigitPairs(s: string)
    requires |HexPart(s)| == 6 && IsDigits(HexPart(s), 16)
    ensures var h := HexPart(s);
      ParseHexColor(s) == Ok(Rgba(PairValue(h[0], h[1]), PairValue(h[2], h[3]), PairValue(h[4], h[5]), 255))
  {
    var h := HexPart(s);
    AcceptedTokens(s);
    assert DigitValue(h[0]).Some?;
    assert ParseInt(h, 16, 32) == Some(DigitsValue(h, 16));
    SixDigitValue(h);
    ChannelsOfPairs(PairValue(h[0], h[1]), PairValue(h[2], h[3]), PairValue(h[4], h[5]));
  }

  /** Two lower-case hex digits for one channel. */
  function Hex2(x: byte): string {
    [DigitChar(x / 16), DigitChar(x % 16)]
  }

  /** The "#rrggbb" spelling of a colour's red, green and blue. */
  function FormatHexColor(c: Rgba): string {
    "#" + Hex2(c.r) + Hex2(c.g) + Hex2(c.b)
  }

  predicate NoUpperAscii(s: string) {
    forall i :: 0 <= i < |s| ==> !('A' <= s[i] <= 'Z')
  }

  lemma LowerIdentity(s: string)
    requires NoUpperAscii(s)
    ensures ToLower(s) == s
  {
  }

  lemma NamesHaveNoHash()
    ensures forall k :: k in NamedColors ==> |k| > 0 && k[0] != '#'
  {
  }

  lemma HashedIsUnnamed(t: string)
    requires |t| > 0 && t[0] == '#'
    ensures t !in NamedColors
  {
    NamesHaveNoHash();
  }

  lemma LowerHash(h: string)
    ensures ToLower("#" + h) == "#" + ToLower(h)
  {
    var t := "#" + h;
    assert forall i :: 0 <= i < |t| ==> ToLower(t)[i] == ("#" + ToLower(h))[i];
  }

  lemma HexPartOfUnnamed(s: string)
    requires ToLower(s) !in NamedColors
    ensures HexPart(s) == TrimPrefix(ToLower(s), "#")
  {
  }

  lemma Hex2Digits(x: byte)
    ensures IsDigits(Hex2(x), 16) && NoUpperAscii(Hex2(x))
    ensures PairValue(Hex2(x)[0], Hex2(x)[1]) == x
  {
    DigitCharValue(x / 16, 16);
    DigitCharValue(x % 16, 16);
  }

  /** Resolving the "#rrggbb" spelling of any opaque colour gives that colour back. */
  lemma FormatHexRoundTrip(c: Rgba)
    requires c.a == 255
    ensures ParseHexColor(FormatHexColor(c)) == Ok(c)
  {
    var t := FormatHexColor(c);
    var h := Hex2(c.r) + Hex2(c.g) + Hex2(c.b);
    Hex2Digits(c.r);
    Hex2Digits(c.g);
    Hex2Digits(c.b);
    assert t == "#" + h;
    assert NoUpperAscii(t);
    LowerIdentity(t);
    HashedIsUnnamed(t);
    HexPartOfUnnamed(t);
    assert HexPart(t) == h;
    assert h[0] == Hex2(c.r)[0] && h[1] == Hex2(c.r)[1];
    assert h[2] == Hex2(c.g)[0] && h[3] == Hex2(c.g)[1];
    assert h[4] == Hex2(c.b)[0] && h[5] == Hex2(c.b)[1];
    HexDigitPairs(t);
  }

  /** The '#' is optional: a token that is no colour name means the same with or without it. */
  lemma HashIsOptional(h: string)
    requires ToLower(h) !in NamedColors
    requires !HasPrefix(ToLower(h), "#")
    ensures ParseHexColor("#" + h) == ParseHexColor(h)
  {
    var t := "#" + h;
    LowerHash(h);
    HashedIsUnnamed(ToLower(t));
    HexPartOfUnnamed(t);
    HexPartOfUnnamed(h);
    assert HexPart(t) == ToLower(h) == HexPart(h);
  }


  /** Reads off the colour of a token whose hex part is six digits. */
  lemma SpelledChannels(s: string, c: Rgba)
    requires c.a == 255
    requires |HexPart(s)| == 6 && IsDigits(HexPart(s), 16)
    requires PairValue(HexPart(s)[0], HexPart(s)[1]) == c.r
    requires PairValue(HexPart(s)[2], HexPart(s)[3]) == c.g
    requires PairValue(HexPart(s)[4], HexPart(s)[5]) == c.b
    ensures ParseHexColor(s) == Ok(c)
  {
    HexDigitPairs(s);
  }

  /** No colour name could be mistaken for a hex token: the table never shadows one. */
  lemma NoNameIsHex()
    ensures forall k :: k in NamedColors ==> !SixHexDigits(k)
  {
  }

  lemma UnnamedPart(s: string)
    requires ToLower(s) == s && s !in NamedColors
    ensures HexPart(s) == TrimPrefix(s, "#")
  {
  }

  /** A token whose hex part repeats one digit six times is that grey level on every channel. */
  lemma UniformChannels(s: string, d: char)
    requires IsDigit(d, 16)
    requires HexPart(s) == [d, d, d, d, d, d]
    ensures PairValue(d, d) < 256
    ensures ParseHexColor(s) == Ok(Rgba(PairValue(d, d), PairValue(d, d), PairValue(d, d), 255))
  {
    var h := HexPart(s);
    assert IsDigits(h, 16) by {
      forall i | 0 <= i < |h| ensures IsDigit(h[i], 16) { assert h[i] == d; }
    }
    var v := PairValue(d, d);
    SpelledChannels(s, Rgba(v, v, v, 255));
  }

  /** A name is looked up in lower case and its table entry, less the '#', is what gets parsed. */
  lemma NamedHexPart(s: string, k: string)
    requires ToLower(s) == k && k in NamedColors
    ensures HexPart(s) == TrimPrefix(NamedColors[k], "#")
  {
  }

  /** "white" names #FFFFFF. */
  lemma WhiteExample()
    ensures ParseHexColor("white") == Ok(Rgba(255, 255, 255, 255))
  {
    assert ToLower("white") == "white";
    assert NamedColors["white"] == "#FFFFFF";
    NamedHexPart("white", "white");
    assert HexPart("white") == ['F', 'F', 'F', 'F', 'F', 'F'];
    UniformChannels("white", 'F');
  }

  /** A token resolves as its lower-case spelling does: names and hex digits match in any letter case. */
  lemma CaseInsensitive(s: string)
    ensures ParseHexColor(s) == ParseHexColor(ToLower(s))
  {
    assert ToLower(ToLower(s)) == ToLower(s);
  }

  /** "black" names #000000. */
  lemma BlackExample()
    ensures ParseHexColor("black") == Ok(Rgba(0, 0, 0, 255))
  {
    assert ToLower("black") == "black";
    assert NamedColors["black"] == "#000000";
    NamedHexPart("black", "black");
    assert HexPart("black") == ['0', '0', '0', '0', '0', '0'];
    UniformChannels("black", '0');
  }

  /** A lower-case token that is no name and has no '#' reaches the parse unchanged. */
  lemma UnnamedToken(t: string)
    requires NoUpperAscii(t) && t !in NamedColors && !HasPrefix(t, "#")
    ensures HexPart(t) == t
  {
    LowerIdentity(t);
  }

  /** "111111" is a dark grey. */
  lemma PlainHexExample()
    ensures ParseHexColor("111111") == Ok(Rgba(17, 17, 17, 255))
  {
    var h := "111111";
    assert h !in NamedColors;
    assert h[0] == '1' && !HasPrefix(h, "#");
    UnnamedToken(h);
    assert h == ['1', '1', '1', '1', '1', '1'];
    UniformChannels(h, '1');
  }

  /** "#111111" is the same grey as "111111". */
  lemma HashedHexExample()
    ensures ParseHexColor("#111111") == Ok(Rgba(17, 17, 17, 255))
  {
    var h := "111111";
    assert h == ['1', '1', '1', '1', '1', '1'];
    assert SixHexDigits(h);
    NoNameIsHex();
    assert h[0] == '1' && !HasPrefix(h, "#");
    LowerIdentity(h);
    HashIsOptional(h);
    assert "#111111" == "#" + h;
    PlainHexExample();
  }

  /** Non-hex characters are refused by the parse. */
  lemma NonHexExample()
    ensures ParseHexColor("zzzzzz") == Err(BadHex("zzzzzz"))
  {
    var z := "zzzzzz";
    assert z !in NamedColors;
    assert z[0] == 'z' && !HasPrefix(z, "#");
    UnnamedToken(z);
    NonHexToken();
  }

  lemma NonHexToken()
    ensures ParseHexToken("zzzzzz") == Err(BadHex("zzzzzz"))
  {
    var z := "zzzzzz";
    assert IsAscii(z);
    AsciiByteLen(z);
    assert !IsDigit(z[0], 16);
  }

  /** A '#' in front of a name hides the name: what remains fails the length check. */
  lemma HashedNameExample()
    ensures ParseHexColor("#white") == Err(BadLength("white"))
  {
    var w := "white";
    assert "#white" == "#" + w;
    assert NoUpperAscii(w);
    HashedNamePart(w);
    ShortToken();
  }

  /** Behind a '#', a lower-case name is not looked up: the lookup leaves the name itself. */
  lemma HashedNamePart(k: string)
    requires NoUpperAscii(k)
    ensures HexPart("#" + k) == k
  {
    LowerIdentity(k);
    LowerHash(k);
    HashedIsUnnamed("#" + k);
    HexPartOfUnnamed("#" + k);
  }

  lemma ShortToken()
    ensures ParseHexToken("white") == Err(BadLength("white"))
  {
    assert IsAscii("white");
    AsciiByteLen("white");
  }

  /** ParseInt accepts a sign, so "-00001" passes both checks and reads as -1: all channels 255. */
  lemma SignedTokenExample()
    ensures ParseHexColor("-00001") == Ok(Rgba(255, 255, 255, 255))
  {
    var t := "-00001";
    assert t !in NamedColors;
    assert t[0] == '-' && !HasPrefix(t, "#");
    UnnamedToken(t);
    SignedToken();
  }

  lemma SignedToken()
    ensures ParseHexToken("-00001") == Ok(Rgba(255, 255, 255, 255))
  {
    var t := "-00001";
    assert IsAscii(t);
    AsciiByteLen(t);
    var one := "1";
    assert one[..0] == [];
    assert DigitsValue(one, 16) == 1;
    var s2 := "0" + one;
    var s3 := "0" + s2;
    var s4 := "0" + s3;
    var s5 := "0" + s4;
    LeadingZero(one, 16);
    LeadingZero(s2, 16);
    LeadingZero(s3, 16);
    LeadingZero(s4, 16);
    assert t[1..] == s5;
    assert ParseInt(t, 16, 32) == Some(-1);
    assert Channels(-1) == Rgba(255, 255, 255, 255);
  }

  lemma NamesAreLowerCase()
    ensures forall k :: k in NamedColors ==> NoUpperAscii(k)
  {
  }

  /** No colour name is recognised behind a '#': "#white", "#navy" and the rest are all refused. */
  lemma HashedNamesRejected(k: string)
    requires k in NamedColors
    ensures ParseHexColor("#" + k).Err?
  {
    NamesAreLowerCase();
    HashedNamePart(k);
    NoNameIsHex();
    AcceptedTokens("#" + k);
  }
}
