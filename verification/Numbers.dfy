/** Hexadecimal and decimal text, as the two languages print and parse it. */
module Numbers {
  import opened Common
  import opened Text

  const U64_LIMIT: nat := 0x1_0000_0000_0000_0000
  const I64_LIMIT: nat := 0x8000_0000_0000_0000

  function DigitChar(d: nat): char
    requires d < 16
  {
    if d < 10 then '0' + d as char else 'a' + (d - 10) as char
  }

  function DigitVal(c: char, radix: nat): Option<nat> {
    var d := if '0' <= c <= '9' then (c - '0') as nat
             else if 'a' <= c <= 'f' then (c - 'a') as nat + 10
             else if 'A' <= c <= 'F' then (c - 'A') as nat + 10
             else 16;
    if d < radix && d < 16 then Some(d) else None
  }

  /** The number a run of digits stands for; the empty run stands for zero. */
  function Value(s: string, radix: nat): Option<nat> {
    if s == "" then Some(0)
    else match (Value(s[..|s| - 1], radix), DigitVal(s[|s| - 1], radix))
      case (Some(v), Some(d)) => Some(v * radix + d)
      case _ => None
  }

  /** Rust's unsigned `from_str_radix`: one leading plus sign is allowed, no sign alone. */
  function ParseUnsigned(s: string, radix: nat, limit: nat): Option<nat> {
    var digits := if s != "" && s[0] == '+' then s[1..] else s;
    var v := Value(digits, radix);
    if digits != "" && v.Some? && v.value < limit then v else None
  }

  /** Go's `strconv.ParseInt(s, 10, 64)`. */
  function ParseInt64(s: string): Option<int> {
    var signed := s != "" && (s[0] == '+' || s[0] == '-');
    var digits := if signed then s[1..] else s;
    var v := Value(digits, 10);
    if digits == "" || v.None? then None
    else
      var n: int := if s[0] == '-' then 0 - v.value else v.value;
      if 0 - I64_LIMIT <= n < I64_LIMIT then Some(n) else None
  }

  // ---- decimal -------------------------------------------------------------------------

  function Decimal(n: nat): (s: string)
    ensures s != ""
  {
    if n < 10 then [DigitChar(n)] else Decimal(n / 10) + [DigitChar(n % 10)]
  }

  predicate IsDigits(s: string) {
    s != "" && forall c :: c in s ==> '0' <= c <= '9'
  }

  lemma {:induction false} DecimalValue(n: nat)
    ensures Value(Decimal(n), 10) == Some(n) && IsDigits(Decimal(n))
  {
    if n >= 10 {
      DecimalValue(n / 10);
      var s := Decimal(n);
      assert s[..|s| - 1] == Decimal(n / 10);
    }
  }

  /** `u64::parse` undoes printing exactly on 64-bit numbers. */
  lemma DecimalUnsigned(n: nat, limit: nat)
    ensures ParseUnsigned(Decimal(n), 10, limit) == if n < limit then Some(n) else None
  {
    DecimalValue(n);
    assert Decimal(n)[0] in Decimal(n);
  }

  lemma DecimalInt64(n: nat)
    ensures ParseInt64(Decimal(n)) == if n < I64_LIMIT then Some(n) else None
  {
    DecimalValue(n);
    assert Decimal(n)[0] in Decimal(n);
  }

  /** An explicit sign: Rust's unsigned parser takes a plus and no minus, Go's signed one takes
      both, down to the one number that has no positive twin. */
  lemma {:induction false} SignedDecimal(n: nat, limit: nat)
    ensures ParseUnsigned("+" + Decimal(n), 10, limit) == if n < limit then Some(n) else None
    ensures ParseUnsigned("-" + Decimal(n), 10, limit) == None
    ensures ParseInt64("+" + Decimal(n)) == if n < I64_LIMIT then Some(n) else None
    ensures ParseInt64("-" + Decimal(n)) == if n <= I64_LIMIT then Some(0 - n) else None
  {
    DecimalValue(n);
    assert ("+" + Decimal(n))[1..] == Decimal(n) && ("-" + Decimal(n))[1..] == Decimal(n);
    FirstDigit('-', Decimal(n), 10);
  }

  lemma {:induction false} FirstDigit(c: char, s: string, radix: nat)
    requires DigitVal(c, radix).None?
    ensures Value([c] + s, radix).None?
  {
    var t := [c] + s;
    if s == "" {
      assert t[..0] == "";
    } else {
      FirstDigit(c, s[..|s| - 1], radix);
      assert t[..|t| - 1] == [c] + s[..|s| - 1];
    }
  }

  function Pow(radix: nat, n: nat): nat {
    if n == 0 then 1 else Pow(radix, n - 1) * radix
  }

  /** Read from the left: a leading digit counts as often as the digits behind it can vary.
      So the most significant digit comes first, and leading zeros do not count. */
  lemma {:induction false} LeadingDigit(c: char, s: string, radix: nat)
    requires DigitVal(c, radix).Some? && Value(s, radix).Some?
    ensures Value([c] + s, radix) == Some(DigitVal(c, radix).value * Pow(radix, |s|) + Value(s, radix).value)
  {
    var t := [c] + s;
    var d := DigitVal(c, radix).value;
    if s == "" {
      assert t[..0] == "";
    } else {
      var init := s[..|s| - 1];
      LeadingDigit(c, init, radix);
      assert t[..|t| - 1] == [c] + init;
      var v := Value(init, radix).value;
      assert (d * Pow(radix, |init|) + v) * radix == d * Pow(radix, |s|) + v * radix by {
        Distribute(d, Pow(radix, |init|), v, radix);
      }
    }
  }

  lemma Distribute(d: nat, p: nat, v: nat, r: nat)
    ensures (d * p + v) * r == d * (p * r) + v * r
  {
  }

  // ---- hexadecimal ------------------------------------------------------------------------

  function HexByte(b: byte): string {
    [DigitChar(b / 16), DigitChar(b % 16)]
  }

  function Hex(bytes: seq<byte>): (s: string)
    ensures |s| == 2 * |bytes|
  {
    if bytes == [] then "" else HexByte(bytes[0]) + Hex(bytes[1..])
  }

  function Unhex(s: string): Option<seq<byte>> {
    if |s| % 2 != 0 then None
    else if s == "" then Some([])
    else match (ParseUnsigned(s[..2], 16, 256), Unhex(s[2..]))
      case (Some(b), Some(rest)) => Some([b] + rest)
      case _ => None
  }

  predicate LowerHex(c: char) {
    '0' <= c <= '9' || 'a' <= c <= 'f'
  }

  lemma ValueOne(s: string, radix: nat)
    requires |s| == 1
    ensures Value(s, radix) == DigitVal(s[0], radix)
  {
    assert s[..0] == "";
  }

  /** What the parser makes of two characters. */
  lemma PairValue(p: string)
    requires |p| == 2
    ensures var h, l := DigitVal(p[0], 16), DigitVal(p[1], 16);
            ParseUnsigned(p, 16, 256) ==
              if p[0] == '+' then l
              else if h.Some? && l.Some? then Some(16 * h.value + l.value) else None
  {
    ValueOne(p[..1], 16);
    ValueOne(p[1..], 16);
  }

  const LOWER: string := "0123456789abcdef"
  const UPPER: string := "0123456789ABCDEF"

  /** The digits, one by one: printed in lower case, read in either, and nothing else is one. */
  lemma DigitsAreThese(d: nat, c: char)
    requires d < 16
    ensures DigitChar(d) == LOWER[d]
    ensures DigitVal(c, 16) == Some(d) <==> c == LOWER[d] || c == UPPER[d]
    ensures DigitVal(c, 16).None? <==> c !in LOWER && c !in UPPER
  {
  }

  lemma DigitBack(d: nat)
    requires d < 16
    ensures DigitVal(DigitChar(d), 16) == Some(d) && LowerHex(DigitChar(d))
  {
  }

  lemma PairBack(b: byte)
    ensures ParseUnsigned(HexByte(b), 16, 256) == Some(b)
    ensures LowerHex(HexByte(b)[0]) && LowerHex(HexByte(b)[1])
  {
    DigitBack(b / 16);
    DigitBack(b % 16);
    PairValue(HexByte(b));
  }

  /** The round trip every custom payload takes. */
  lemma {:induction false} UnhexHex(bytes: seq<byte>)
    ensures Unhex(Hex(bytes)) == Some(bytes)
    ensures forall c :: c in Hex(bytes) ==> LowerHex(c)
  {
    if bytes != [] {
      UnhexHex(bytes[1..]);
      PairBack(bytes[0]);
      var s := Hex(bytes);
      assert s[..2] == HexByte(bytes[0]) && s[2..] == Hex(bytes[1..]);
      assert [bytes[0]] + bytes[1..] == bytes;
    }
  }

  /** Two digits per byte, in the order of the bytes, the high half first. */
  lemma {:induction false} HexDigits(bytes: seq<byte>, i: nat)
    requires i < |bytes|
    ensures Hex(bytes)[2 * i] == LOWER[bytes[i] / 16] && Hex(bytes)[2 * i + 1] == LOWER[bytes[i] % 16]
  {
    if i == 0 {
      DigitsAreThese(bytes[0] / 16, '0');
      DigitsAreThese(bytes[0] % 16, '0');
    } else {
      HexDigits(bytes[1..], i - 1);
      assert Hex(bytes)[2 * i] == Hex(bytes[1..])[2 * (i - 1)];
      assert Hex(bytes)[2 * i + 1] == Hex(bytes[1..])[2 * (i - 1) + 1];
    }
  }

  /** Two texts that spell the same digits, each in either case. */
  predicate SameButCase(s: string, t: string) {
    |s| == |t| && forall i :: 0 <= i < |s| ==>
      s[i] == t[i] || exists d :: 0 <= d < 16 && s[i] in [LOWER[d], UPPER[d]] && t[i] in [LOWER[d], UPPER[d]]
  }

  /** `unhex` does not care about case. */
  lemma {:induction false} CaseDoesNotMatter(s: string, t: string)
    requires SameButCase(s, t)
    ensures Unhex(s) == Unhex(t)
  {
    if |s| >= 2 {
      assert SameButCase(s[2..], t[2..]);
      CaseDoesNotMatter(s[2..], t[2..]);
      SameDigit(s, t, 0);
      SameDigit(s, t, 1);
      PairValue(s[..2]);
      PairValue(t[..2]);
    }
  }

  lemma SameDigit(s: string, t: string, i: nat)
    requires SameButCase(s, t) && i < |s|
    ensures DigitVal(s[i], 16) == DigitVal(t[i], 16) && (s[i] == '+' <==> t[i] == '+')
  {
    if s[i] != t[i] {
      var d :| 0 <= d < 16 && s[i] in [LOWER[d], UPPER[d]] && t[i] in [LOWER[d], UPPER[d]];
      DigitsAreThese(d, s[i]);
      DigitsAreThese(d, t[i]);
    }
  }

  lemma PairCanonical(p: string, b: byte)
    requires |p| == 2 && ParseUnsigned(p, 16, 256) == Some(b)
    ensures HexByte(b) == p <==> LowerHex(p[0]) && LowerHex(p[1])
  {
    PairValue(p);
    PairBack(b);
  }

  /** The other way round it is exact on lower-case payloads only: `unhex` also takes upper
      case and a plus sign in place of a leading zero, and re-printing rewrites those. */
  lemma {:induction false} HexUnhex(s: string)
    requires Unhex(s).Some?
    ensures Hex(Unhex(s).value) == s <==> forall c :: c in s ==> LowerHex(c)
    ensures |s| == 2 * |Unhex(s).value|
  {
    if s != "" {
      HexUnhex(s[2..]);
      var b := ParseUnsigned(s[..2], 16, 256).value;
      var rest := Unhex(s[2..]).value;
      PairCanonical(s[..2], b);
      assert ([b] + rest)[1..] == rest;
      assert s == s[..2] + s[2..];
      assert Hex([b] + rest)[..2] == HexByte(b) && Hex([b] + rest)[2..] == Hex(rest);
      assert forall c :: c in s <==> c == s[0] || c == s[1] || c in s[2..];
    }
  }

  /** `hex`: two digits pushed per byte. */
  method EncodeHex(bytes: seq<byte>) returns (s: string)
    ensures s == Hex(bytes)
  {
    s := "";
    for i := 0 to |bytes|
      invariant s + Hex(bytes[i..]) == Hex(bytes)
    {
      assert bytes[i..][1..] == bytes[i + 1..];
      s := s + HexByte(bytes[i]);
    }
    assert bytes[|bytes|..] == [];
  }

  /** Hexadecimal text is one clean line without spaces. */
  lemma HexIsWord(bytes: seq<byte>)
    requires bytes != []
    ensures OneLine(Hex(bytes)) && ' ' !in Hex(bytes)
  {
    UnhexHex(bytes);
    var s := Hex(bytes);
    assert s[0] in s && s[|s| - 1] in s;
  }

  lemma DecimalIsWord(n: nat)
    ensures OneLine(Decimal(n)) && ' ' !in Decimal(n)
  {
    DecimalValue(n);
    var s := Decimal(n);
    assert s[0] in s && s[|s| - 1] in s;
  }
}
