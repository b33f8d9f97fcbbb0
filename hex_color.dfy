/**
  VFXMan.HexToColor: a colour written as hexadecimal digits, "#RGB",
  "#RRGGBB" or "#RRGGBBAA" with or without '#', becomes a Color whose
  components are the byte values divided by 255. A string of any other
  length gives white; a string of the right length with a pair that
  Convert.ToByte refuses (a character that is not a hexadecimal digit, other
  than a '+' opening a pair) makes it throw, modelled as Failure.
*/
module HexColor {
  import opened Wrappers
  import opened EngineMath

  datatype Color = Color(r: real, g: real, b: real, a: real)

  const White := Color(1.0, 1.0, 1.0, 1.0)

  /** Convert.ToByte's refusal of a pair that is not hexadecimal. */
  const FormatError := "FormatException"

  /** String.Replace("#", ""): every '#' removed, the other characters kept in order. */
  function RemoveHashes(s: string): (r: string)
    ensures '#' !in r
    ensures |r| <= |s|
    ensures '#' !in s ==> r == s
    ensures forall c :: c != '#' ==> (c in r <==> c in s)
  {
    if |s| == 0 then ""
    else (if s[0] == '#' then "" else [s[0]]) + RemoveHashes(s[1..])
  }

  /** The short form "RGB" doubled digit by digit into "RRGGBB". */
  function ExpandShort(h: string): (r: string)
    requires |h| == 3
    ensures |r| == 6
    ensures forall i :: 0 <= i < 6 ==> r[i] == h[i / 2]
  {
    [h[0], h[0], h[1], h[1], h[2], h[2]]
  }

  /** The digits HexToColor parses: without '#', a short form expanded, and "FF" appended to six digits. */
  function Prepared(hex: string): (h: string)
    ensures '#' !in hex && |hex| == 8 ==> h == hex
  {
    var h0 := RemoveHashes(hex);
    var h1 := if |h0| == 3 then ExpandShort(h0) else h0;
    if |h1| == 6 then h1 + "FF" else h1
  }

  /** The value of one hexadecimal digit, either case. */
  function HexDigit(c: char): (d: Option<int>)
    ensures d.Some? ==> 0 <= d.value < 16
  {
    if '0' <= c <= '9' then Some(c as int - '0' as int)
    else if 'A' <= c <= 'F' then Some(c as int - 'A' as int + 10)
    else if 'a' <= c <= 'f' then Some(c as int - 'a' as int + 10)
    else None
  }

  /**
    Convert.ToByte(pair, 16) on two characters: two digits, or a '+' sign
    followed by one digit. White space, a '-' sign and a "0x" prefix with no
    digit after it all make it throw.
  */
  function ParseByte(high: char, low: char): (b: Option<Byte>)
    ensures b.Some? <==> (high == '+' || HexDigit(high).Some?) && HexDigit(low).Some?
    ensures b.Some? && high == '+' ==> b.value == HexDigit(low).value
    ensures b.Some? && high != '+' ==> b.value == 16 * HexDigit(high).value + HexDigit(low).value
  {
    var h := HexDigit(high);
    var l := HexDigit(low);
    if l.None? then None
    else if high == '+' then Some(l.value)
    else if h.Some? then Some(16 * h.value + l.value)
    else None
  }

  /** The character at `i` may stand there in a pair Convert.ToByte accepts: a digit, or a sign opening the pair. */
  predicate PairChar(h: string, i: int)
    requires 0 <= i < |h|
  {
    HexDigit(h[i]).Some? || (i % 2 == 0 && h[i] == '+')
  }

  /** Every pair of the string is one Convert.ToByte accepts. */
  predicate AllPairsParse(h: string) {
    forall i :: 0 <= i < |h| ==> PairChar(h, i)
  }

  /** A byte as a colour component. */
  function Component(b: Byte): (x: real)
    ensures 0.0 <= x <= 1.0
  {
    b as real / 255.0
  }

  /** HexToColor. */
  function HexToColor(hex: string): (c: Result<Color, string>)
    ensures var h := Prepared(hex);
      && (c.Failure? <==> |h| == 8 && !AllPairsParse(h))
      && (|h| != 8 ==> c == Success(White))
    ensures c.Success? ==>
      && 0.0 <= c.value.r <= 1.0 && 0.0 <= c.value.g <= 1.0
      && 0.0 <= c.value.b <= 1.0 && 0.0 <= c.value.a <= 1.0
  {
    var h := Prepared(hex);
    if |h| != 8 then Success(White)
    else
      var r := ParseByte(h[0], h[1]);
      var g := ParseByte(h[2], h[3]);
      var b := ParseByte(h[4], h[5]);
      var a := ParseByte(h[6], h[7]);
      if r.None? || g.None? || b.None? || a.None? then
        assert !AllPairsParse(h) by {
          if r.None? { assert !PairChar(h, 0) || !PairChar(h, 1); }
          else if g.None? { assert !PairChar(h, 2) || !PairChar(h, 3); }
          else if b.None? { assert !PairChar(h, 4) || !PairChar(h, 5); }
          else { assert !PairChar(h, 6) || !PairChar(h, 7); }
        }
        Failure(FormatError)
      else
        assert AllPairsParse(h) by {
          forall i | 0 <= i < 8 ensures PairChar(h, i) {
            assert i / 2 == 0 || i / 2 == 1 || i / 2 == 2 || i / 2 == 3;
          }
        }
        Success(Color(Component(r.value), Component(g.value), Component(b.value), Component(a.value)))
  }

  /** The upper-case digit of a value below 16. */
  function DigitChar(d: int): (c: char)
    requires 0 <= d < 16
    ensures HexDigit(c) == Some(d)
  {
    if d < 10 then ('0' as int + d) as char else ('A' as int + d - 10) as char
  }

  /** A byte written as two upper-case hexadecimal digits. */
  function HexPair(b: Byte): (s: string)
    ensures |s| == 2 && '#' !in s
    ensures ParseByte(s[0], s[1]) == Some(b)
  {
    [DigitChar(b / 16), DigitChar(b % 16)]
  }

  /** Digits that prepare to the pairs of four bytes parse to those bytes as components. */
  lemma PreparedPairs(hex: string, r: Byte, g: Byte, b: Byte, a: Byte)
    requires Prepared(hex) == HexPair(r) + HexPair(g) + HexPair(b) + HexPair(a)
    ensures HexToColor(hex) == Success(Color(Component(r), Component(g), Component(b), Component(a)))
  {
    var h := Prepared(hex);
    assert h[0..2] == HexPair(r) && h[2..4] == HexPair(g) && h[4..6] == HexPair(b) && h[6..8] == HexPair(a);
  }

  /** Writing four bytes as "RRGGBBAA" and parsing gives the bytes back as components. */
  lemma EightDigitRoundTrip(r: Byte, g: Byte, b: Byte, a: Byte)
    ensures HexToColor(HexPair(r) + HexPair(g) + HexPair(b) + HexPair(a))
            == Success(Color(Component(r), Component(g), Component(b), Component(a)))
  {
    var s := HexPair(r) + HexPair(g) + HexPair(b) + HexPair(a);
    assert '#' !in s;
    PreparedPairs(s, r, g, b, a);
  }

  /** A leading '#' is dropped and the rest, without '#', kept. */
  lemma HashPrefixRemoved(digits: string)
    requires '#' !in digits
    ensures RemoveHashes("#" + digits) == digits
  {
    var s := "#" + digits;
    assert s[1..] == digits;
    assert RemoveHashes(s) == "" + RemoveHashes(s[1..]);
  }

  /** Six digits after the hashes are removed get the opaque alpha "FF". */
  lemma PreparedSix(hex: string, digits: string)
    requires RemoveHashes(hex) == digits && |digits| == 6
    ensures Prepared(hex) == digits + "FF"
  {
  }

  /** "#RRGGBB" is opaque: the alpha digits "FF" are appended, so alpha is 1. */
  lemma SixDigitsAreOpaque(r: Byte, g: Byte, b: Byte)
    ensures HexToColor("#" + HexPair(r) + HexPair(g) + HexPair(b))
            == Success(Color(Component(r), Component(g), Component(b), 1.0))
  {
    var digits := HexPair(r) + HexPair(g) + HexPair(b);
    var s := "#" + digits;
    assert "#" + HexPair(r) + HexPair(g) + HexPair(b) == s;
    HashPrefixRemoved(digits);
    PreparedSix(s, digits);
    assert HexPair(255) == "FF";
    PreparedPairs(s, r, g, b, 255);
  }

  /** The short form is the long form with every digit doubled. */
  lemma ShortFormExpands(h: string)
    requires |h| == 3 && '#' !in h
    ensures HexToColor(h) == HexToColor(ExpandShort(h))
  {
    var e := ExpandShort(h);
    assert '#' !in e by {
      forall i | 0 <= i < 6 ensures e[i] != '#' { assert e[i] == h[i / 2]; }
    }
    assert Prepared(h) == e + "FF";
    assert Prepared(e) == e + "FF";
  }

  /** "F0A" is read as "FF00AA": red 1, green 0, blue 170/255, alpha 1. */
  lemma ShortFormExample()
    ensures HexToColor("F0A") == Success(Color(1.0, 0.0, 170.0 / 255.0, 1.0))
  {
    assert Prepared("F0A") == "FF00AAFF";
    assert ParseByte('F', 'F') == Some(255);
    assert ParseByte('0', '0') == Some(0);
    assert ParseByte('A', 'A') == Some(170);
  }

  /** A '+' sign opens a pair Convert.ToByte accepts, so "+F+F+F+F" is a colour with every component 15/255. */
  lemma SignedPairs()
    ensures HexToColor("+F+F+F+F") == Success(Color(15.0 / 255.0, 15.0 / 255.0, 15.0 / 255.0, 15.0 / 255.0))
  {
    assert ParseByte('+', 'F') == Some(15);
  }
}
