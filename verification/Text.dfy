/** The text forms a signature header is made of: decimal integers, hex (section 8 of RFC 4648) and delimited parts. */
module Text {
  import opened Common

  type Byte = n: int | 0 <= n < 0x100

  // ----- Decimal

  function Digit(d: int): char
    requires 0 <= d < 10
  {
    ('0' as int + d) as char
  }

  predicate IsDigit(c: char) { '0' <= c <= '9' }

  function DigitValue(c: char): (d: nat)
    requires IsDigit(c)
    ensures d < 10
  {
    c as int - '0' as int
  }

  predicate AllDigits(s: string) { forall c :: c in s ==> IsDigit(c) }

  function PrintNat(n: nat): (s: string)
    ensures s != [] && AllDigits(s)
  {
    if n < 10 then [Digit(n)] else PrintNat(n / 10) + [Digit(n % 10)]
  }

  function Print(n: int): string {
    if n < 0 then "-" + PrintNat(-n) else PrintNat(n)
  }

  function Value(s: string): nat
    requires AllDigits(s)
  {
    if s == [] then 0 else Value(s[..|s| - 1]) * 10 + DigitValue(s[|s| - 1])
  }

  /** An optional sign, then at least one digit, and a value that fits 64 bits. */
  function ParseI64(s: string): Option<I64> {
    var signed := s != [] && (s[0] == '-' || s[0] == '+');
    var digits := if signed then s[1..] else s;
    if digits == [] || !AllDigits(digits) then None
    else Checked(if signed && s[0] == '-' then 0 - Value(digits) else Value(digits))
  }

  lemma {:induction false} ValueOfPrint(n: nat)
    ensures Value(PrintNat(n)) == n
  {
    if n >= 10 {
      ValueOfPrint(n / 10);
      assert PrintNat(n)[..|PrintNat(n)| - 1] == PrintNat(n / 10);
    }
  }

  lemma ParsePrint(n: I64)
    ensures ParseI64(Print(n)) == Some(n)
  {
    hide Value;
    if n < 0 {
      ValueOfPrint(0 - n);
      assert Print(n)[1..] == PrintNat(0 - n);
    } else {
      ValueOfPrint(n);
      assert IsDigit(PrintNat(n)[0]);
    }
  }

  /** Some integers, written out: most significant digit first, ASCII digits, a minus sign if negative. */
  lemma DecimalAsWritten()
    ensures Print(1_700) == "1700"
  {
  }

  lemma DigitsAsWritten()
    ensures Print(987) == "987" && Print(654) == "654" && Print(321) == "321"
  {
  }

  lemma NegativeAsWritten()
    ensures Print(0) == "0" && Print(-42) == "-42"
  {
  }

  /** The text is these decimal digits, under an optional sign, and n their value. */
  predicate Writes(s: string, digits: string, n: int) {
    && digits != "" && AllDigits(digits)
    && ((s == digits && n == Value(digits)) || (s == "+" + digits && n == Value(digits))
        || (s == "-" + digits && n == 0 - Value(digits)))
  }

  /** An integer parses from a text iff the text writes it and it fits 64 bits. */
  lemma ParseIff(s: string, n: I64)
    ensures ParseI64(s) == Some(n) <==> exists digits :: Writes(s, digits, n)
  {
    hide Value;
    var signed := s != [] && (s[0] == '-' || s[0] == '+');
    var digits := if signed then s[1..] else s;
    if ParseI64(s) == Some(n) {
      assert signed ==> s == [s[0]] + digits;
      assert Writes(s, digits, n);
    }
    if other :| Writes(s, other, n) {
      assert IsDigit(other[0]);
      assert digits == other;
    }
  }

  lemma ParseFits(s: string)
    ensures ParseI64(s).Some? ==> -9223372036854775808 <= ParseI64(s).value <= 9223372036854775807
    ensures ParseI64("").None? && ParseI64("-").None? && ParseI64("+").None?
  {
  }

  lemma PrintIsPlain(n: int)
    ensures forall c :: c in Print(n) ==> IsDigit(c) || c == '-'
    ensures forall k :: 0 <= k < |Print(n)| ==> IsDigit(Print(n)[k]) || Print(n)[k] == '-'
  {
  }

  // ----- Hex

  function HexDigit(d: int): char
    requires 0 <= d < 16
  {
    if d < 10 then Digit(d) else ('a' as int + (d - 10)) as char
  }

  function HexValue(c: char): (d: Option<nat>)
    ensures d.Some? ==> d.value < 16
  {
    if '0' <= c <= '9' then Some(c as int - '0' as int)
    else if 'a' <= c <= 'f' then Some(c as int - 'a' as int + 10)
    else if 'A' <= c <= 'F' then Some(c as int - 'A' as int + 10)
    else None
  }

  function HexEncode(bytes: seq<Byte>): string {
    if bytes == [] then "" else [HexDigit(bytes[0] / 16), HexDigit(bytes[0] % 16)] + HexEncode(bytes[1..])
  }

  /** Either case is accepted; an odd length or any other character is not. */
  function HexDecode(s: string): Option<seq<Byte>> {
    if s == "" then Some([])
    else if |s| == 1 then None
    else
      var (high, low, rest) := (HexValue(s[0]), HexValue(s[1]), HexDecode(s[2..]));
      if high.None? || low.None? || rest.None? then None
      else Some([high.value * 16 + low.value] + rest.value)
  }

  function Lower(c: char): char {
    if 'A' <= c <= 'Z' then (c as int - 'A' as int + 'a' as int) as char else c
  }

  function AllLower(s: string): string { seq(|s|, k requires 0 <= k < |s| => Lower(s[k])) }

  lemma HexDigitOf(c: char, d: nat)
    requires d < 16
    ensures HexValue(c) == Some(d) <==> Lower(c) == HexDigit(d)
  {
  }

  /** Up to the case of its letters, a text decodes to some bytes if and only if they encode to it. */
  lemma {:induction false} HexDecodeIffEncode(s: string, bytes: seq<Byte>)
    ensures HexDecode(s) == Some(bytes) <==> AllLower(s) == HexEncode(bytes)
  {
    if |s| >= 2 && bytes != [] {
      HexDecodeIffEncode(s[2..], bytes[1..]);
      HexDigitOf(s[0], bytes[0] / 16);
      HexDigitOf(s[1], bytes[0] % 16);
      assert AllLower(s) == [Lower(s[0]), Lower(s[1])] + AllLower(s[2..]);
      assert bytes == [bytes[0]] + bytes[1..];
      assert AllLower(s) == HexEncode(bytes) <==>
             Lower(s[0]) == HexDigit(bytes[0] / 16) && Lower(s[1]) == HexDigit(bytes[0] % 16)
             && AllLower(s[2..]) == HexEncode(bytes[1..]) by {
        TwoAndRest(AllLower(s), HexEncode(bytes));
      }
      DecodeCons(s, bytes);
    } else if s != "" && bytes == [] {
      assert |AllLower(s)| == |s|;
    }
  }

  lemma TwoAndRest(s: string, r: string)
    requires |s| >= 2 && |r| >= 2
    ensures s == r <==> s[0] == r[0] && s[1] == r[1] && s[2..] == r[2..]
  {
    if s[0] == r[0] && s[1] == r[1] && s[2..] == r[2..] {
      assert s == s[..2] + s[2..] && r == r[..2] + r[2..];
    }
  }

  lemma DecodeCons(s: string, bytes: seq<Byte>)
    requires |s| >= 2 && bytes != []
    ensures HexDecode(s) == Some(bytes) <==>
            HexValue(s[0]) == Some(bytes[0] / 16) && HexValue(s[1]) == Some(bytes[0] % 16)
            && HexDecode(s[2..]) == Some(bytes[1..])
  {
    assert bytes == [bytes[0]] + bytes[1..];
  }

  lemma {:induction false} HexRoundTrip(bytes: seq<Byte>)
    ensures HexDecode(HexEncode(bytes)) == Some(bytes)
    ensures forall c :: c in HexEncode(bytes) ==> IsDigit(c) || 'a' <= c <= 'f'
  {
    if bytes != [] {
      HexRoundTrip(bytes[1..]);
      var s := HexEncode(bytes);
      assert s[2..] == HexEncode(bytes[1..]);
      HexDigitOf(s[0], bytes[0] / 16);
      HexDigitOf(s[1], bytes[0] % 16);
      DecodeCons(s, bytes);
    }
  }

  lemma HexAsWritten()
    ensures HexEncode([0xDE, 0xAD, 0x00, 0x5F]) == "dead005f"
  {
  }

  /** The sixteen digits, written out. */
  lemma HexDigitsAsWritten(d: nat)
    requires d < 16
    ensures HexDigit(d) == "0123456789abcdef"[d]
  {
  }

  // ----- Delimited parts

  function Split(s: string, separator: char): (parts: seq<string>)
    ensures parts != []
  {
    if s == "" then [""]
    else
      var rest := Split(s[1..], separator);
      if s[0] == separator then [""] + rest else [[s[0]] + rest[0]] + rest[1..]
  }

  function Join(parts: seq<string>, separator: char): string {
    if parts == [] then "" else if |parts| == 1 then parts[0] else parts[0] + [separator] + Join(parts[1..], separator)
  }

  lemma {:induction false} SplitJoins(s: string, separator: char)
    ensures Join(Split(s, separator), separator) == s
    ensures forall part :: part in Split(s, separator) ==> separator !in part
  {
    if s != "" {
      SplitJoins(s[1..], separator);
      var rest := Split(s[1..], separator);
      if s[0] == separator {
        assert ([""] + rest)[1..] == rest;
      } else {
        assert ([[s[0]] + rest[0]] + rest[1..])[1..] == rest[1..];
        assert s == [s[0]] + s[1..];
      }
    }
  }

  lemma {:induction false} SplitFirst(first: string, rest: string, separator: char)
    requires separator !in first
    ensures Split(first + [separator] + rest, separator) == [first] + Split(rest, separator)
  {
    var s := first + [separator] + rest;
    if first == "" {
      assert s[1..] == rest;
    } else {
      assert s[1..] == first[1..] + [separator] + rest;
      SplitFirst(first[1..], rest, separator);
      assert first == [first[0]] + first[1..];
      assert ([first[1..]] + Split(rest, separator))[1..] == Split(rest, separator);
    }
  }

  lemma {:induction false} SplitNone(s: string, separator: char)
    requires separator !in s
    ensures Split(s, separator) == [s]
  {
    if s != "" {
      SplitNone(s[1..], separator);
      assert s == [s[0]] + s[1..];
    }
  }

  function SplitOnce(s: string, separator: char): Option<(string, string)> {
    if s == "" then None
    else if s[0] == separator then Some(("", s[1..]))
    else
      match SplitOnce(s[1..], separator)
      case None => None
      case Some((before, after)) => Some(([s[0]] + before, after))
  }

  /** The first separator is where the text is split. */
  lemma {:induction false} SplitOnceIff(s: string, separator: char, before: string, after: string)
    ensures SplitOnce(s, separator) == Some((before, after)) <==>
            separator !in before && s == before + [separator] + after
  {
    if s != "" && s[0] != separator && before != "" {
      SplitOnceIff(s[1..], separator, before[1..], after);
      assert before == [before[0]] + before[1..];
      assert (before + [separator] + after)[1..] == before[1..] + [separator] + after;
      assert s == [s[0]] + s[1..];
    } else if s != "" && s[0] == separator {
      assert before != "" ==> (before + [separator] + after)[0] == before[0];
      assert s == [separator] + s[1..];
      assert before == "" ==> before + [separator] + after == [separator] + after && ([separator] + after)[1..] == after;
    } else if s != "" {
      assert (before + [separator] + after)[0] == separator;
    }
  }

  // ----- UTF-8 (section 3 of RFC 3629)

  function Utf8(c: char): seq<Byte> {
    var n := c as int;
    if n < 0x80 then [n]
    else if n < 0x800 then [0xC0 + n / 64, 0x80 + n % 64]
    else if n < 0x1_0000 then [0xE0 + n / 4096, 0x80 + n / 64 % 64, 0x80 + n % 64]
    else [0xF0 + n / 262144, 0x80 + n / 4096 % 64, 0x80 + n / 64 % 64, 0x80 + n % 64]
  }

  function Encode(s: string): seq<Byte> {
    if s == "" then [] else Utf8(s[0]) + Encode(s[1..])
  }

  /** Whether UTF-8 bytes can be cut before this one: it is not a continuation byte. */
  predicate CharBoundary(bytes: seq<Byte>, index: nat)
    requires index <= |bytes|
  {
    index == 0 || index == |bytes| || bytes[index] < 0x80 || bytes[index] >= 0xC0
  }

  lemma LeadByte(c: char)
    ensures |Utf8(c)| >= 1 && (Utf8(c)[0] < 0x80 || Utf8(c)[0] >= 0xC0)
    ensures forall k :: 1 <= k < |Utf8(c)| ==> 0x80 <= Utf8(c)[k] < 0xC0
  {
  }

  lemma InsideCharacter(c: char, rest: seq<Byte>, index: nat)
    requires 0 < index < |Utf8(c)|
    ensures !CharBoundary(Utf8(c) + rest, index)
  {
    LeadByte(c);
    assert (Utf8(c) + rest)[index] == Utf8(c)[index];
  }

  lemma {:induction false} EncodePrefix(s: string, m: nat)
    requires m <= |s|
    ensures Encode(s) == Encode(s[..m]) + Encode(s[m..])
  {
    if m > 0 {
      EncodePrefix(s[1..], m - 1);
      assert s[..m][1..] == s[1..][..m - 1];
      assert s[1..][m - 1..] == s[m..];
    } else {
      assert s[..0] == "" && s[0..] == s;
    }
  }

  /** One more character takes at least one more byte. */
  lemma EncodeGrows(s: string, m: nat)
    requires m < |s|
    ensures |Encode(s[..m])| < |Encode(s[..m + 1])|
  {
    EncodePrefix(s[..m + 1], m);
    assert s[..m + 1][..m] == s[..m] && s[..m + 1][m..] == [s[m]];
    LeadByte(s[m]);
    assert Encode([s[m]]) == Utf8(s[m]) + Encode([s[m]][1..]);
  }

  /** The places where encoded text can be cut are exactly the ends of its characters. */
  lemma {:induction false} BoundaryEndsCharacters(s: string, index: nat) returns (m: nat)
    requires index <= |Encode(s)| && CharBoundary(Encode(s), index)
    ensures m <= |s| && |Encode(s[..m])| == index
  {
    if index == 0 {
      m := 0;
    } else {
      var first := Utf8(s[0]);
      LeadByte(s[0]);
      assert Encode(s) == first + Encode(s[1..]);
      if index < |first| {
        InsideCharacter(s[0], Encode(s[1..]), index);
        assert false;
      }
      assert index < |Encode(s)| ==> Encode(s)[index] == Encode(s[1..])[index - |first|];
      m := BoundaryEndsCharacters(s[1..], index - |first|);
      assert s[..m + 1][1..] == s[1..][..m];
      m := m + 1;
    }
  }

  lemma {:induction false} CharactersEndAtBoundaries(s: string, m: nat)
    requires m <= |s|
    ensures |Encode(s[..m])| <= |Encode(s)| && CharBoundary(Encode(s), |Encode(s[..m])|)
  {
    EncodePrefix(s, m);
    if m < |s| {
      LeadByte(s[m]);
      assert Encode(s[m..]) == Utf8(s[m]) + Encode(s[m..][1..]);
      assert Encode(s)[|Encode(s[..m])|] == Utf8(s[m])[0];
    } else {
      assert s[m..] == "";
    }
  }
}
