/**
 Identifiers: a 128-bit value printed as a ULID (26 characters of Crockford's
 base 32, upper case) or as a legacy UUID (8-4-4-4-12 lower-case hexadecimal
 digits).  A text is the sequence of its UTF-8 bytes, so its length is the byte
 count and any character outside ASCII is never a digit.
 */
module Ids {
  import opened Common

  const TWO_48: nat := 0x1_0000_0000_0000
  const TWO_80: nat := 0x1_0000_0000_0000_0000_0000
  const TWO_125: nat := 0x2000_0000_0000_0000_0000_0000_0000_0000
  const TWO_128: nat := 0x1_0000_0000_0000_0000_0000_0000_0000_0000

  type U64 = x: nat | x < 0x1_0000_0000_0000_0000
  type U128 = x: nat | x < 0x1_0000_0000_0000_0000_0000_0000_0000_0000

  datatype Kind = Ulid | Uuid

  datatype Id = Id(value: U128, kind: Kind)

  // ------------------------------------------------------------ digits and numbers

  type Base = b: nat | b == 16 || b == 32 witness 16

  function Pow(b: Base, n: nat): (p: nat)
    ensures p > 0
  {
    if n == 0 then 1
    else if b == 16 then 16 * Pow(b, n - 1)
    else 32 * Pow(b, n - 1)
  }

  ghost predicate AreDigits(b: Base, ds: seq<nat>)
  {
    forall i :: 0 <= i < |ds| ==> ds[i] < b
  }

  /** The number a digit string stands for, most significant digit first. */
  function Fold(b: Base, ds: seq<nat>): nat
  {
    if ds == [] then 0
    else if b == 16 then Fold(b, Front(ds)) * 16 + Last(ds)
    else Fold(b, Front(ds)) * 32 + Last(ds)
  }

  /** The last `n` digits of a number. */
  function Digits(b: Base, v: nat, n: nat): (ds: seq<nat>)
    ensures |ds| == n
    ensures forall i :: 0 <= i < n ==> ds[i] < b
  {
    if n == 0 then []
    else if b == 16 then Digits(b, v / 16, n - 1) + [v % 16]
    else Digits(b, v / 32, n - 1) + [v % 32]
  }

  lemma {:induction false} FoldDigits(b: Base, v: nat, n: nat)
    requires v < Pow(b, n)
    ensures Fold(b, Digits(b, v, n)) == v
  {
    if n > 0 {
      var ds := Digits(b, v, n);
      if b == 16 {
        FoldDigits(b, v / 16, n - 1);
        assert Front(ds) == Digits(b, v / 16, n - 1) && Last(ds) == v % 16;
      } else {
        FoldDigits(b, v / 32, n - 1);
        assert Front(ds) == Digits(b, v / 32, n - 1) && Last(ds) == v % 32;
      }
    }
  }

  lemma {:induction false} DigitsFold(b: Base, ds: seq<nat>)
    requires AreDigits(b, ds)
    ensures Fold(b, ds) < Pow(b, |ds|)
    ensures Digits(b, Fold(b, ds), |ds|) == ds
  {
    if ds != [] {
      DigitsFold(b, Front(ds));
      assert ds == Front(ds) + [Last(ds)];
      LastDigit(b, Fold(b, Front(ds)), Last(ds));
    }
  }

  lemma LastDigit(b: Base, f: nat, d: nat)
    requires d < b
    ensures b == 16 ==> (f * 16 + d) / 16 == f && (f * 16 + d) % 16 == d
    ensures b == 32 ==> (f * 32 + d) / 32 == f && (f * 32 + d) % 32 == d
  {
  }

  lemma {:induction false} FoldFromFront(b: Base, d: nat, ds: seq<nat>)
    ensures Fold(b, [d] + ds) == d * Pow(b, |ds|) + Fold(b, ds)
  {
    if ds == [] {
      assert [d] + ds == [d] && Front([d]) == [];
      assert Fold(b, [d]) == d;
    } else {
      FoldFromFront(b, d, Front(ds));
      assert Front([d] + ds) == [d] + Front(ds) && Last([d] + ds) == Last(ds);
      var p := Pow(b, |ds| - 1);
      if b == 16 {
        assert d * (16 * p) == 16 * (d * p);
      } else {
        assert d * (32 * p) == 32 * (d * p);
      }
    }
  }

  // ------------------------------------------------------------ characters

  /** The value of a digit character in base 16 or 32, either case; -1 for anything else (in base 32 also for I, L, O and U). */
  function Val(b: Base, c: char): (v: int)
    ensures -1 <= v < b
  {
    var u := Upper(c) as int;
    if '0' <= c <= '9' then c as int - '0' as int
    else if b == 16 then if 'A' as int <= u <= 'F' as int then u - 'A' as int + 10 else -1
    else if 'A' as int <= u <= 'H' as int then u - 'A' as int + 10
    else if 'J' as int <= u <= 'K' as int then u - 'J' as int + 18
    else if 'M' as int <= u <= 'N' as int then u - 'M' as int + 20
    else if 'P' as int <= u <= 'T' as int then u - 'P' as int + 22
    else if 'V' as int <= u <= 'Z' as int then u - 'V' as int + 27
    else -1
  }

  /** The digit a number is printed with: upper case in base 32, lower case in base 16. */
  function Char(b: Base, d: nat): char
    requires d < b
  {
    if d < 10 then ('0' as int + d) as char
    else if b == 16 then ('a' as int + d - 10) as char
    else if d < 18 then ('A' as int + d - 10) as char
    else if d < 20 then ('J' as int + d - 18) as char
    else if d < 22 then ('M' as int + d - 20) as char
    else if d < 27 then ('P' as int + d - 22) as char
    else ('V' as int + d - 27) as char
  }

  function Upper(c: char): char
  {
    if 'a' <= c <= 'z' then (c as int - 'a' as int + 'A' as int) as char else c
  }

  function Lower(c: char): char
  {
    if 'A' <= c <= 'Z' then (c as int - 'A' as int + 'a' as int) as char else c
  }

  lemma CharIsDigit(b: Base, d: nat, e: nat)
    requires d < b && e < b
    ensures Val(b, Char(b, d)) == d
    ensures d < e <==> Char(b, d) < Char(b, e)
  {
  }

  /** Reading a digit and printing it again only fixes the case. */
  lemma CharOfVal(b: Base, c: char)
    requires Val(b, c) >= 0
    ensures Char(b, Val(b, c)) == if b == 32 then Upper(c) else Lower(c)
    ensures c != '-'
  {
  }

  /** The alphabets, spelt out. */
  lemma Alphabets()
    ensures [Char(32, 0), Char(32, 1), Char(32, 2), Char(32, 3), Char(32, 4), Char(32, 5), Char(32, 6), Char(32, 7)] == "01234567"
    ensures [Char(32, 8), Char(32, 9), Char(32, 10), Char(32, 11), Char(32, 12), Char(32, 13), Char(32, 14), Char(32, 15)] == "89ABCDEF"
    ensures [Char(32, 16), Char(32, 17), Char(32, 18), Char(32, 19), Char(32, 20), Char(32, 21), Char(32, 22), Char(32, 23)] == "GHJKMNPQ"
    ensures [Char(32, 24), Char(32, 25), Char(32, 26), Char(32, 27), Char(32, 28), Char(32, 29), Char(32, 30), Char(32, 31)] == "RSTVWXYZ"
    ensures [Char(16, 0), Char(16, 1), Char(16, 2), Char(16, 3), Char(16, 4), Char(16, 5), Char(16, 6), Char(16, 7)] == "01234567"
    ensures [Char(16, 8), Char(16, 9), Char(16, 10), Char(16, 11), Char(16, 12), Char(16, 13), Char(16, 14), Char(16, 15)] == "89abcdef"
  {
  }

  /** Which characters are digits: in base 32 no I, L, O or U, in either case. */
  lemma DigitIff(c: char)
    ensures Val(32, c) >= 0 <==> '0' <= c <= '9' || ('A' <= c <= 'Z' && c !in "ILOU") || ('a' <= c <= 'z' && c !in "ilou")
    ensures Val(16, c) >= 0 <==> '0' <= c <= '9' || 'A' <= c <= 'F' || 'a' <= c <= 'f'
  {
  }

  predicate IsNumeral(b: Base, s: string)
  {
    forall i :: 0 <= i < |s| ==> Val(b, s[i]) >= 0
  }

  function Values(b: Base, s: string): (ds: seq<nat>)
    requires IsNumeral(b, s)
    ensures |ds| == |s| && forall i :: 0 <= i < |s| ==> ds[i] == Val(b, s[i])
  {
    seq(|s|, i requires 0 <= i < |s| => Val(b, s[i]) as nat)
  }

  function Text(b: Base, ds: seq<nat>): (s: string)
    requires AreDigits(b, ds)
    ensures |s| == |ds| && forall i :: 0 <= i < |s| ==> s[i] == Char(b, ds[i])
  {
    seq(|ds|, i requires 0 <= i < |ds| => Char(b, ds[i]))
  }

  function Map(f: char -> char, s: string): (r: string)
    ensures |r| == |s| && forall i :: 0 <= i < |s| ==> r[i] == f(s[i])
  {
    seq(|s|, i requires 0 <= i < |s| => f(s[i]))
  }

  lemma ValuesOfText(b: Base, ds: seq<nat>)
    requires AreDigits(b, ds)
    ensures IsNumeral(b, Text(b, ds)) && Values(b, Text(b, ds)) == ds
  {
    forall i | 0 <= i < |ds|
      ensures Val(b, Text(b, ds)[i]) == ds[i]
    {
      CharIsDigit(b, ds[i], ds[i]);
    }
  }

  lemma TextOfValues(b: Base, s: string)
    requires IsNumeral(b, s)
    ensures AreDigits(b, Values(b, s))
    ensures Text(b, Values(b, s)) == Map(if b == 32 then Upper else Lower, s)
    ensures '-' !in s
  {
    forall i | 0 <= i < |s|
      ensures Char(b, Val(b, s[i])) == (if b == 32 then Upper(s[i]) else Lower(s[i])) && s[i] != '-'
    {
      CharOfVal(b, s[i]);
    }
  }

  // ------------------------------------------------------------ ULIDs

  /** `value << 5 | digit`, 26 times, in 128 bits: what is shifted out at the top is lost. */
  function Decode(ds: seq<nat>): (v: U128)
    requires AreDigits(32, ds)
  {
    if ds == [] then 0
    else
      var high := Decode(Front(ds)) * 32 % TWO_128;
      ShiftLeavesRoom(Decode(Front(ds)));
      high + Last(ds)
  }

  lemma ShiftLeavesRoom(v: nat)
    ensures v * 32 % TWO_128 <= TWO_128 - 32
  {
    ScaledMod(v, 32, TWO_128 / 32);
  }

  lemma ScaledMod(v: nat, k: nat, m: nat)
    requires k == 32 && m == TWO_128 / 32
    ensures v * k % (m * k) == (v % m) * k
  {
  }

  function ParseUlid(s: string): Option<U128>
  {
    if |s| != 26 || !IsNumeral(32, s) then None
    else
      TextOfValues(32, s);
      Some(Decode(Values(32, s)))
  }

  function FormatUlid(v: U128): string
  {
    Text(32, Digits(32, v, 26))
  }

  /** Decoding reads the digits as a number and keeps its low 128 bits. */
  lemma {:induction false} DecodeMasks(ds: seq<nat>)
    requires AreDigits(32, ds)
    ensures Decode(ds) == Fold(32, ds) % TWO_128
  {
    if ds != [] {
      DecodeMasks(Front(ds));
      var f, d := Fold(32, Front(ds)), Last(ds);
      ShiftedMod(f, d);
    }
  }

  lemma ShiftedMod(f: nat, d: nat)
    requires d < 32
    ensures (f % TWO_128) * 32 % TWO_128 + d == (f * 32 + d) % TWO_128
  {
  }

  lemma FourMore(b: Base, n: nat)
    ensures Pow(b, n + 4) == if b == 16 then 0x1_0000 * Pow(b, n) else 0x10_0000 * Pow(b, n)
  {
    assert Pow(b, n + 2) == if b == 16 then 0x100 * Pow(b, n) else 0x400 * Pow(b, n);
    assert Pow(b, n + 4) == if b == 16 then 0x100 * Pow(b, n + 2) else 0x400 * Pow(b, n + 2);
  }

  lemma EightMore(b: Base, n: nat)
    ensures Pow(b, n + 8) == if b == 16 then 0x1_0000_0000 * Pow(b, n) else 0x100_0000_0000 * Pow(b, n)
  {
    FourMore(b, n);
    FourMore(b, n + 4);
  }

  lemma PowersOf32(n: nat)
    ensures n == 25 ==> Pow(32, n) == TWO_125
    ensures n == 26 ==> Pow(32, n) == 4 * TWO_128
  {
    if n == 25 || n == 26 {
      EightMore(32, n - 8);
      EightMore(32, n - 16);
      EightMore(32, n - 24);
      assert Pow(32, 1) == 32 && Pow(32, 2) == 0x400;
    }
  }

  lemma PowersOf16(n: nat)
    ensures n == 32 ==> Pow(16, n) == TWO_128
  {
    if n == 32 {
      EightMore(16, n - 32);
      assert Pow(16, n - 24) == 0x1_0000_0000;
      EightMore(16, n - 24);
      EightMore(16, n - 16);
      EightMore(16, n - 8);
    }
  }

  /** Of 26 digits the first one keeps its low three bits; the value of the rest is untouched. */
  lemma MaskFirst(ds: seq<nat>)
    requires |ds| == 26 && AreDigits(32, ds)
    ensures AreDigits(32, ds[0 := ds[0] % 8]) && Fold(32, ds) % TWO_128 == Fold(32, ds[0 := ds[0] % 8])
  {
    var rest, d := ds[1..], ds[0];
    FoldSplit(d, rest);
    FoldSplit(d % 8, rest);
    assert ds == [d] + rest && ds[0 := d % 8] == [d % 8] + rest;
    TopDigit(d, Fold(32, rest));
  }

  lemma FoldSplit(d: nat, rest: seq<nat>)
    requires |rest| == 25 && AreDigits(32, rest)
    ensures Fold(32, [d] + rest) == d * TWO_125 + Fold(32, rest) && Fold(32, rest) < TWO_125
  {
    PowersOf32(25);
    DigitsFold(32, rest);
    FoldFromFront(32, d, rest);
  }

  lemma TopDigit(d: nat, low: nat)
    requires d < 32 && low < TWO_125
    ensures (d * TWO_125 + low) % TWO_128 == d % 8 * TWO_125 + low
  {
    assert d == d / 8 * 8 + d % 8;
    assert d * TWO_125 + low == d / 8 * TWO_128 + (d % 8 * TWO_125 + low);
  }

  /** What a 26-character text becomes when it is read and printed again. */
  lemma UlidCanon(s: string)
    requires |s| == 26 && IsNumeral(32, s)
    ensures ParseUlid(s).Some?
    ensures FormatUlid(ParseUlid(s).value) == Map(Upper, s)[0 := Char(32, Val(32, s[0]) % 8)]
  {
    var ds := Values(32, s);
    TextOfValues(32, s);
    DecodeMasks(ds);
    MaskFirst(ds);
    DigitsFold(32, ds[0 := ds[0] % 8]);
  }

  lemma ReadBack(b: Base, v: U128, n: nat)
    requires (b == 32 && n == 26) || (b == 16 && n == 32)
    ensures IsNumeral(b, Text(b, Digits(b, v, n))) && Values(b, Text(b, Digits(b, v, n))) == Digits(b, v, n)
    ensures Fold(b, Digits(b, v, n)) == v
  {
    PowersOf32(n);
    PowersOf16(n);
    FoldDigits(b, v, n);
    ValuesOfText(b, Digits(b, v, n));
  }

  lemma UlidRoundTrip(v: U128)
    ensures ParseUlid(FormatUlid(v)) == Some(v)
  {
    ReadBack(32, v, 26);
    DecodeText(Digits(32, v, 26), v);
  }

  lemma DecodeText(ds: seq<nat>, v: U128)
    requires |ds| == 26 && AreDigits(32, ds) && Fold(32, ds) == v
    ensures ParseUlid(Text(32, ds)) == Some(v)
  {
    ValuesOfText(32, ds);
    DecodeMasks(ds);
    Small(v);
  }

  lemma Small(v: U128)
    ensures v % TWO_128 == v
  {
  }

  // ------------------------------------------------------------ UUIDs

  function Split(s: string): (parts: seq<string>)
    ensures parts != []
    ensures Join(parts, "-") == s
    ensures forall i :: 0 <= i < |parts| ==> '-' !in parts[i]
  {
    if s == "" then [""]
    else
      var rest := Split(s[1..]);
      if s[0] == '-' then
        assert [""] + rest != [""] && ([""] + rest)[1..] == rest;
        [""] + rest
      else
        assert ([[s[0]] + rest[0]] + rest[1..])[1..] == rest[1..];
        [[s[0]] + rest[0]] + rest[1..]
  }

  function Join(parts: seq<string>, sep: string): string
  {
    if parts == [] then ""
    else if |parts| == 1 then parts[0]
    else parts[0] + sep + Join(parts[1..], sep)
  }

  lemma SplitCons(c: char, s: string)
    requires c != '-'
    ensures Split([c] + s) == [[c] + Split(s)[0]] + Split(s)[1..]
  {
    assert ([c] + s)[1..] == s;
  }

  lemma {:induction false} SplitAtDash(a: string, rest: string)
    requires '-' !in a
    ensures Split(a + "-" + rest) == [a] + Split(rest)
  {
    if a == "" {
      assert (a + "-" + rest)[1..] == rest;
    } else {
      SplitAtDash(a[1..], rest);
      SplitCons(a[0], a[1..] + "-" + rest);
      assert [a[0]] + (a[1..] + "-" + rest) == a + "-" + rest && [a[0]] + a[1..] == a;
    }
  }

  lemma {:induction false} SplitWhole(a: string)
    requires '-' !in a
    ensures Split(a) == [a]
  {
    if a != "" {
      SplitWhole(a[1..]);
      assert [a[0]] + a[1..] == a;
    }
  }

  predicate IsUuidShape(parts: seq<string>)
  {
    |parts| == 5 && |parts[0]| == 8 && |parts[1]| == 4 && |parts[2]| == 4 && |parts[3]| == 4 && |parts[4]| == 12
  }

  /** The hexadecimal digits of a UUID text, with or without dashes. */
  function HexOf(s: string): Option<string>
  {
    if |s| == 36 then
      var parts := Split(s);
      if IsUuidShape(parts) then Some(Join(parts, "")) else None
    else if |s| == 32 then Some(s)
    else None
  }

  function ParseUuid(s: string): (r: Option<U128>)
  {
    var hex := HexOf(s);
    if hex.None? || !IsNumeral(16, hex.value) then None
    else
      HexLength(s);
      HexFits(hex.value);
      Some(Fold(16, Values(16, hex.value)))
  }

  function Dashed(hex: string): string
    requires |hex| == 32
  {
    hex[0..8] + "-" + hex[8..12] + "-" + hex[12..16] + "-" + hex[16..20] + "-" + hex[20..32]
  }

  function FormatUuid(v: U128): string
  {
    Dashed(Text(16, Digits(16, v, 32)))
  }

  lemma FiveJoined(parts: seq<string>, sep: string)
    requires |parts| == 5
    ensures Join(parts, sep) == parts[0] + sep + parts[1] + sep + parts[2] + sep + parts[3] + sep + parts[4]
  {
    assert parts[1..][1..] == parts[2..] && parts[2..][1..] == parts[3..] && parts[3..][1..] == parts[4..];
    assert Join(parts[4..], sep) == parts[4];
    assert Join(parts[3..], sep) == parts[3] + sep + parts[4];
    assert Join(parts[2..], sep) == parts[2] + sep + (parts[3] + sep + parts[4]);
    assert Join(parts[1..], sep) == parts[1] + sep + (parts[2] + sep + (parts[3] + sep + parts[4]));
  }

  /** Whatever its form, an accepted text has 32 digits, and a dashed one is its digits with the dashes put back. */
  lemma HexLength(s: string)
    ensures HexOf(s).Some? ==> |HexOf(s).value| == 32
    ensures HexOf(s).Some? && |s| == 36 ==> Dashed(HexOf(s).value) == s
  {
    if |s| == 36 && IsUuidShape(Split(s)) {
      var p := Split(s);
      FiveJoined(p, "");
      FiveJoined(p, "-");
      var hex := p[0] + p[1] + p[2] + p[3] + p[4];
      assert Join(p, "") == hex;
      assert hex[0..8] == p[0] && hex[8..12] == p[1] && hex[12..16] == p[2] && hex[16..20] == p[3] && hex[20..32] == p[4];
    }
  }

  lemma HexFits(hex: string)
    requires |hex| == 32 && IsNumeral(16, hex)
    ensures Fold(16, Values(16, hex)) < TWO_128
  {
    TextOfValues(16, hex);
    DigitsFold(16, Values(16, hex));
    PowersOf16(|hex|);
  }

  lemma SplitFive(a: string, b: string, c: string, d: string, e: string)
    requires '-' !in a && '-' !in b && '-' !in c && '-' !in d && '-' !in e
    ensures Split(a + "-" + (b + "-" + (c + "-" + (d + "-" + e)))) == [a, b, c, d, e]
  {
    SplitWhole(e);
    SplitAtDash(d, e);
    SplitAtDash(c, d + "-" + e);
    SplitAtDash(b, c + "-" + (d + "-" + e));
    SplitAtDash(a, b + "-" + (c + "-" + (d + "-" + e)));
  }

  lemma Regroup(a: string, b: string, c: string, d: string, e: string)
    ensures a + "-" + b + "-" + c + "-" + d + "-" + e == a + "-" + (b + "-" + (c + "-" + (d + "-" + e)))
  {
  }

  lemma HexOfDashed(hex: string)
    requires |hex| == 32 && '-' !in hex
    ensures |Dashed(hex)| == 36 && HexOf(Dashed(hex)) == Some(hex)
  {
    var parts := [hex[0..8], hex[8..12], hex[12..16], hex[16..20], hex[20..32]];
    SplitFive(parts[0], parts[1], parts[2], parts[3], parts[4]);
    Regroup(parts[0], parts[1], parts[2], parts[3], parts[4]);
    assert Split(Dashed(hex)) == parts;
    FiveJoined(parts, "");
    assert Join(parts, "") == hex;
  }

  lemma UuidRoundTrip(v: U128)
    ensures ParseUuid(FormatUuid(v)) == Some(v) && |FormatUuid(v)| == 36
  {
    ReadBack(16, v, 32);
    var hex := Text(16, Digits(16, v, 32));
    TextOfValues(16, hex);
    HexOfDashed(hex);
  }

  /** What a UUID text becomes when it is read and printed again: lower case, with dashes. */
  lemma UuidCanon(s: string)
    requires ParseUuid(s).Some?
    ensures FormatUuid(ParseUuid(s).value) == if |s| == 36 then Map(Lower, s) else Dashed(Map(Lower, s))
  {
    var hex := HexOf(s).value;
    HexLength(s);
    TextOfValues(16, hex);
    DigitsFold(16, Values(16, hex));
    DashedLower(hex);
  }

  lemma DashedLower(hex: string)
    requires |hex| == 32
    ensures Dashed(Map(Lower, hex)) == Map(Lower, Dashed(hex))
  {
  }

  // ------------------------------------------------------------ ids

  function FromStr(s: string): Option<Id>
  {
    var ulid := ParseUlid(s);
    if ulid.Some? then Some(Id(ulid.value, Ulid))
    else
      var uuid := ParseUuid(s);
      if uuid.Some? then Some(Id(uuid.value, Uuid)) else None
  }

  function Display(id: Id): string
  {
    match id.kind
    case Ulid => FormatUlid(id.value)
    case Uuid => FormatUuid(id.value)
  }

  /** Parsing a printed id gives it back, with the right kind. */
  lemma RoundTrip(id: Id)
    ensures FromStr(Display(id)) == Some(id)
  {
    match id.kind
    case Ulid =>
      UlidRoundTrip(id.value);
    case Uuid =>
      UuidRoundTrip(id.value);
      assert ParseUlid(FormatUuid(id.value)).None?;
  }

  /** Which texts are ids: 26 digits of base 32, 32 hexadecimal digits, or those with dashes before the 9th, 13th, 17th and 21st. */
  lemma AcceptedIff(s: string)
    ensures FromStr(s).Some? <==>
            || (|s| == 26 && forall i :: 0 <= i < 26 ==> Val(32, s[i]) >= 0)
            || (|s| == 32 && forall i :: 0 <= i < 32 ==> Val(16, s[i]) >= 0)
            || (|s| == 36 && forall i :: 0 <= i < 36 ==> if i == 8 || i == 13 || i == 18 || i == 23 then s[i] == '-' else Val(16, s[i]) >= 0)
    ensures FromStr(s).Some? ==> (FromStr(s).value.kind == Ulid <==> |s| == 26)
  {
    if |s| == 36 {
      AcceptedDashed(s);
    }
  }

  predicate IsDashed(s: string)
    requires |s| == 36
  {
    forall i :: 0 <= i < 36 ==> if i == 8 || i == 13 || i == 18 || i == 23 then s[i] == '-' else Val(16, s[i]) >= 0
  }

  lemma AcceptedDashed(s: string)
    requires |s| == 36
    ensures ParseUuid(s).Some? <==> IsDashed(s)
  {
    if ParseUuid(s).Some? {
      HexLength(s);
      DigitsDashed(HexOf(s).value);
    }
    if IsDashed(s) {
      var hex := DashesOut(s);
      TextOfValues(16, hex);
      HexOfDashed(hex);
    }
  }

  lemma DigitsDashed(hex: string)
    requires |hex| == 32 && IsNumeral(16, hex)
    ensures |Dashed(hex)| == 36 && IsDashed(Dashed(hex))
  {
    DashedAt(hex);
    forall i | 0 <= i < 36
      ensures if i == 8 || i == 13 || i == 18 || i == 23 then Dashed(hex)[i] == '-' else Val(16, Dashed(hex)[i]) >= 0
    {
      var j := if i < 8 then i else if i < 13 then i - 1 else if i < 18 then i - 2 else if i < 23 then i - 3 else i - 4;
      assert i != 8 && i != 13 && i != 18 && i != 23 ==> Val(16, hex[j]) >= 0;
    }
  }

  lemma NumeralConcat(b: Base, x: string, y: string)
    requires IsNumeral(b, x) && IsNumeral(b, y)
    ensures IsNumeral(b, x + y)
  {
  }

  /** The digits from place `i` to `j`, between two dashes. */
  lemma DigitsBetween(s: string, i: nat, j: nat)
    requires |s| == 36 && IsDashed(s) && i <= j <= 36
    requires (j <= 8 || 8 < i) && (j <= 13 || 13 < i) && (j <= 18 || 18 < i) && (j <= 23 || 23 < i)
    ensures IsNumeral(16, s[i..j])
  {
    forall k | 0 <= k < j - i
      ensures Val(16, s[i..j][k]) >= 0
    {
      assert s[i..j][k] == s[i + k];
    }
  }

  lemma DashesOut(s: string) returns (hex: string)
    requires |s| == 36 && IsDashed(s)
    ensures |hex| == 32 && IsNumeral(16, hex) && Dashed(hex) == s
  {
    var p, q, r, t, u := s[0..8], s[9..13], s[14..18], s[19..23], s[24..36];
    DigitsBetween(s, 0, 8);
    DigitsBetween(s, 9, 13);
    DigitsBetween(s, 14, 18);
    DigitsBetween(s, 19, 23);
    DigitsBetween(s, 24, 36);
    NumeralConcat(16, p, q);
    NumeralConcat(16, p + q, r);
    NumeralConcat(16, p + q + r, t);
    NumeralConcat(16, p + q + r + t, u);
    hex := p + q + r + t + u;
    assert hex[0..8] == p && hex[8..12] == q && hex[12..16] == r && hex[16..20] == t && hex[20..32] == u;
    Glued(s);
  }

  lemma Glued(s: string)
    requires |s| == 36 && s[8] == '-' && s[13] == '-' && s[18] == '-' && s[23] == '-'
    ensures s[0..8] + "-" + s[9..13] + "-" + s[14..18] + "-" + s[19..23] + "-" + s[24..36] == s
  {
    assert s[0..8] + "-" + s[9..13] == s[..13];
    assert s[..13] + "-" + s[14..18] == s[..18];
    assert s[..18] + "-" + s[19..23] == s[..23];
    assert s[..23] + "-" + s[24..36] == s;
  }

  /** Where the digits of a dashed text stand. */
  lemma DashedAt(hex: string)
    requires |hex| == 32
    ensures |Dashed(hex)| == 36
    ensures forall i :: 0 <= i < 36 ==>
              Dashed(hex)[i] == if i < 8 then hex[i] else if i == 8 then '-' else if i < 13 then hex[i - 1] else if i == 13 then '-'
                                else if i < 18 then hex[i - 2] else if i == 18 then '-' else if i < 23 then hex[i - 3]
                                else if i == 23 then '-' else hex[i - 4]
  {
  }

  /** What a text is turned into by reading it and printing it again. */
  function Reprint(s: string): string
    requires FromStr(s).Some?
  {
    Display(FromStr(s).value)
  }

  lemma ReprintOnce(s: string)
    requires FromStr(s).Some?
    ensures FromStr(Reprint(s)) == FromStr(s) && Reprint(Reprint(s)) == Reprint(s)
  {
    RoundTrip(FromStr(s).value);
  }

  lemma ReprintForm(s: string)
    requires FromStr(s).Some?
    ensures Reprint(s) ==
            if |s| == 26 then Map(Upper, s)[0 := Char(32, Val(32, s[0]) % 8)]
            else if |s| == 36 then Map(Lower, s)
            else Dashed(Map(Lower, s))
  {
    if |s| == 26 {
      UlidCanon(s);
    } else {
      UuidCanon(s);
    }
  }

  /** The texts that are printed as they stand, told by looking at their characters. */
  predicate Canonical(s: string)
  {
    && FromStr(s).Some?
    && (|s| == 26 ==> Val(32, s[0]) < 8 && forall i :: 0 <= i < |s| ==> Upper(s[i]) == s[i])
    && (|s| != 26 ==> |s| == 36 && forall i :: 0 <= i < |s| ==> Lower(s[i]) == s[i])
  }

  /** A stored id survives being read exactly when it is canonical. */
  lemma ReprintIsSameIff(s: string)
    requires FromStr(s).Some?
    ensures Reprint(s) == s <==> Canonical(s)
  {
    ReprintForm(s);
    if |s| == 26 {
      FirstDigit(s);
    } else if |s| == 36 {
      assert Map(Lower, s) == s <==> forall i :: 0 <= i < |s| ==> Lower(s[i]) == s[i];
    } else {
      HexLength(s);
      assert |Dashed(Map(Lower, s))| == 36;
    }
  }

  lemma FirstDigit(s: string)
    requires |s| == 26 && IsNumeral(32, s)
    ensures Map(Upper, s)[0 := Char(32, Val(32, s[0]) % 8)] == s <==>
            Val(32, s[0]) < 8 && forall i :: 0 <= i < |s| ==> Upper(s[i]) == s[i]
  {
    var v: nat := Val(32, s[0]);
    var r := Map(Upper, s)[0 := Char(32, v % 8)];
    CharOfVal(32, s[0]);
    CharIsDigit(32, v % 8, v);
    CharIsDigit(32, v, v % 8);
    if v < 8 {
      assert r[0] == Upper(s[0]);
      assert r == Map(Upper, s);
    } else {
      assert Val(32, r[0]) == v % 8;
    }
  }

  /** Every canonical text is the print of an id, and of one only. */
  lemma CanonicalIsImage(s: string, id: Id)
    ensures Display(id) == s <==> Canonical(s) && FromStr(s) == Some(id)
  {
    RoundTrip(id);
    if FromStr(s).Some? {
      ReprintIsSameIff(s);
    }
  }

  // ------------------------------------------------------------ order

  /** Byte order of texts, as `ORDER BY id` and `id > $1` use it. */
  predicate TextLess(a: string, b: string)
  {
    b != "" && (a == "" || a[0] < b[0] || (a[0] == b[0] && TextLess(a[1..], b[1..])))
  }

  /** Which text comes first: the one that ends first, or has the smaller character at the first place where they differ. */
  lemma {:induction false} TextLessIff(a: string, b: string)
    ensures TextLess(a, b) <==> exists k :: DiffersAt(a, b, k)
  {
    if a != "" && b != "" && a[0] == b[0] {
      TextLessIff(a[1..], b[1..]);
      if k :| DiffersAt(a[1..], b[1..], k) {
        DiffersOneOn(a, b, k);
      }
      if k :| DiffersAt(a, b, k) {
        DiffersOneOn(a, b, k - 1);
      }
    } else {
      assert TextLess(a, b) ==> DiffersAt(a, b, 0);
    }
  }

  /** The texts agree up to place `k`, where the first ends or has the smaller character. */
  predicate DiffersAt(a: string, b: string, k: int)
  {
    0 <= k <= |a| && k < |b| && (forall i :: 0 <= i < k ==> a[i] == b[i]) && (k == |a| || a[k] < b[k])
  }

  lemma DiffersOneOn(a: string, b: string, k: int)
    requires a != "" && b != "" && a[0] == b[0]
    ensures DiffersAt(a, b, k + 1) <==> DiffersAt(a[1..], b[1..], k) || (k + 1 == 0 && DiffersAt(a, b, 0))
  {
    if DiffersAt(a[1..], b[1..], k) {
      assert forall i :: 0 < i < k + 1 ==> a[i] == a[1..][i - 1] && b[i] == b[1..][i - 1];
    }
    if DiffersAt(a, b, k + 1) {
      assert forall i :: 0 <= i < k ==> a[1..][i] == a[i + 1] && b[1..][i] == b[i + 1];
    }
  }

  lemma Dominates(d: nat, e: nat, x: nat, y: nat, p: nat)
    requires d < e && x < p
    ensures d * p + x < e * p + y
  {
    Multiples(d + 1, e, p);
    assert (d + 1) * p == d * p + p;
  }

  /** A larger first digit outweighs whatever follows. */
  lemma FirstDigitDecides(b: Base, d: nat, dt: seq<nat>, e: nat, et: seq<nat>)
    requires AreDigits(b, dt) && |dt| == |et| && d < e
    ensures Fold(b, [d] + dt) < Fold(b, [e] + et)
  {
    FoldFromFront(b, d, dt);
    FoldFromFront(b, e, et);
    DigitsFold(b, dt);
    Dominates(d, e, Fold(b, dt), Fold(b, et), Pow(b, |dt|));
  }

  lemma TextStep(b: Base, ds: seq<nat>, es: seq<nat>)
    requires AreDigits(b, ds) && AreDigits(b, es) && ds != [] && es != []
    ensures TextLess(Text(b, ds), Text(b, es)) <==>
            ds[0] < es[0] || (ds[0] == es[0] && TextLess(Text(b, ds[1..]), Text(b, es[1..])))
  {
    assert Text(b, ds)[1..] == Text(b, ds[1..]) && Text(b, es)[1..] == Text(b, es[1..]);
    CharIsDigit(b, ds[0], es[0]);
    CharIsDigit(b, es[0], ds[0]);
  }

  /** For texts of one length, byte order is the order of the numbers. */
  lemma {:induction false} TextOrder(b: Base, ds: seq<nat>, es: seq<nat>)
    requires AreDigits(b, ds) && AreDigits(b, es) && |ds| == |es|
    ensures TextLess(Text(b, ds), Text(b, es)) <==> Fold(b, ds) < Fold(b, es)
  {
    if ds != [] {
      TextStep(b, ds, es);
      FoldStep(b, ds, es);
      TextOrder(b, ds[1..], es[1..]);
    }
  }

  lemma FoldStep(b: Base, ds: seq<nat>, es: seq<nat>)
    requires AreDigits(b, ds) && AreDigits(b, es) && |ds| == |es| && ds != []
    ensures Fold(b, ds) < Fold(b, es) <==>
            ds[0] < es[0] || (ds[0] == es[0] && Fold(b, ds[1..]) < Fold(b, es[1..]))
  {
    var d, e, dt, et := ds[0], es[0], ds[1..], es[1..];
    assert ds == [d] + dt && es == [e] + et;
    if d < e {
      FirstDigitDecides(b, d, dt, e, et);
    } else if e < d {
      FirstDigitDecides(b, e, et, d, dt);
    } else {
      FoldFromFront(b, d, dt);
      FoldFromFront(b, d, et);
    }
  }

  /** A dash at the same place in two texts does not change how they compare. */
  lemma {:induction false} DashIsNeutral(a: string, b: string, k: nat)
    requires |a| == |b| && k <= |a|
    ensures TextLess(a[..k] + "-" + a[k..], b[..k] + "-" + b[k..]) <==> TextLess(a, b)
  {
    var a', b' := a[..k] + "-" + a[k..], b[..k] + "-" + b[k..];
    if k == 0 {
      assert a' == "-" + a && b' == "-" + b;
      assert a'[1..] == a && b'[1..] == b;
    } else {
      DashIsNeutral(a[1..], b[1..], k - 1);
      assert a'[1..] == a[1..][..k - 1] + "-" + a[1..][k - 1..];
      assert b'[1..] == b[1..][..k - 1] + "-" + b[1..][k - 1..];
    }
  }

  function DashAt(s: string, k: nat): string
    requires k <= |s|
  {
    s[..k] + "-" + s[k..]
  }

  lemma DashedStepByStep(hex: string)
    requires |hex| == 32
    ensures Dashed(hex) == DashAt(DashAt(DashAt(DashAt(hex, 8), 13), 18), 23)
  {
    var one := DashAt(hex, 8);
    assert one[..13] == hex[0..8] + "-" + hex[8..12] && one[13..] == hex[12..32];
    var two := DashAt(one, 13);
    assert two[..18] == one[..13] + "-" + hex[12..16] && two[18..] == hex[16..32];
    var three := DashAt(two, 18);
    assert three[..23] == two[..18] + "-" + hex[16..20] && three[23..] == hex[20..32];
  }

  lemma DashedOrder(a: string, b: string)
    requires |a| == 32 && |b| == 32
    ensures TextLess(Dashed(a), Dashed(b)) <==> TextLess(a, b)
  {
    DashedStepByStep(a);
    DashedStepByStep(b);
    DashIsNeutral(a, b, 8);
    DashIsNeutral(DashAt(a, 8), DashAt(b, 8), 13);
    DashIsNeutral(DashAt(DashAt(a, 8), 13), DashAt(DashAt(b, 8), 13), 18);
    DashIsNeutral(DashAt(DashAt(DashAt(a, 8), 13), 18), DashAt(DashAt(DashAt(b, 8), 13), 18), 23);
  }

  /** Ids of one kind sort by value when they are sorted as text. */
  lemma PrintOrder(a: Id, b: Id)
    requires a.kind == b.kind
    ensures TextLess(Display(a), Display(b)) <==> a.value < b.value
  {
    if a.kind == Ulid {
      ReadBack(32, a.value, 26);
      ReadBack(32, b.value, 26);
      TextOrder(32, Digits(32, a.value, 26), Digits(32, b.value, 26));
    } else {
      ReadBack(16, a.value, 32);
      ReadBack(16, b.value, 32);
      TextOrder(16, Digits(16, a.value, 32), Digits(16, b.value, 32));
      DashedOrder(Text(16, Digits(16, a.value, 32)), Text(16, Digits(16, b.value, 32)));
    }
  }

  // ------------------------------------------------------------ rewriting UUIDs

  /** `(ms as u128) << 80 | low 80 bits of the UUID`. */
  function FromUuidWithTimestamp(uuid: string, createdAtMs: U64): (r: Option<Id>)
  {
    var parsed := ParseUuid(uuid);
    if parsed.None? then None
    else
      TimestampPart(createdAtMs);
      Some(Id(createdAtMs * TWO_80 % TWO_128 + parsed.value % TWO_80, Ulid))
  }

  lemma TimestampPart(ms: U64)
    ensures ms * TWO_80 % TWO_128 == ms % TWO_48 * TWO_80
    ensures ms % TWO_48 * TWO_80 <= TWO_128 - TWO_80
  {
    assert ms == ms / TWO_48 * TWO_48 + ms % TWO_48;
    assert ms * TWO_80 == ms / TWO_48 * TWO_128 + ms % TWO_48 * TWO_80;
  }

  lemma SplitsBack(high: nat, low: nat)
    requires low < TWO_80
    ensures (high * TWO_80 + low) / TWO_80 == high && (high * TWO_80 + low) % TWO_80 == low
  {
  }

  /** The low 80 bits always survive; the timestamp does exactly when it fits in 48 bits. */
  lemma TimestampSplitsIff(uuid: string, ms: U64)
    ensures FromUuidWithTimestamp(uuid, ms).Some? <==> ParseUuid(uuid).Some?
    ensures ParseUuid(uuid).Some? ==>
              var v := FromUuidWithTimestamp(uuid, ms).value.value;
              && FromUuidWithTimestamp(uuid, ms).value.kind == Ulid
              && v % TWO_80 == ParseUuid(uuid).value % TWO_80
              && v / TWO_80 == ms % TWO_48
              && (v / TWO_80 == ms <==> ms < TWO_48)
  {
    if ParseUuid(uuid).Some? {
      TimestampPart(ms);
      SplitsBack(ms % TWO_48, ParseUuid(uuid).value % TWO_80);
    }
  }

  lemma RewrittenValue(uuid: string, ms: U64)
    requires ParseUuid(uuid).Some? && ms < TWO_48
    ensures FromUuidWithTimestamp(uuid, ms) == Some(Id(ms * TWO_80 + ParseUuid(uuid).value % TWO_80, Ulid))
  {
    TimestampPart(ms);
  }

  lemma EarlierIsLess(ms1: nat, ms2: nat, low1: nat, low2: nat)
    requires ms1 < ms2 && low1 < TWO_80
    ensures ms1 * TWO_80 + low1 < ms2 * TWO_80 + low2
  {
  }

  /** Rewritten ids sort by creation time, as text, whenever the times fit. */
  lemma SortsByTime(first: string, second: string, ms1: U64, ms2: U64)
    requires ParseUuid(first).Some? && ParseUuid(second).Some?
    requires ms1 < ms2 < TWO_48
    ensures TextLess(Display(FromUuidWithTimestamp(first, ms1).value), Display(FromUuidWithTimestamp(second, ms2).value))
  {
    var a, b := FromUuidWithTimestamp(first, ms1).value, FromUuidWithTimestamp(second, ms2).value;
    RewrittenValue(first, ms1);
    RewrittenValue(second, ms2);
    EarlierIsLess(ms1, ms2, ParseUuid(first).value % TWO_80, ParseUuid(second).value % TWO_80);
    PrintOrder(a, b);
  }
}
