/** Small value types and the Go string/strconv helpers the gateway relies on:
    strings.Split on one separator character, strings.HasPrefix,
    strings.Contains, ASCII lower-casing, strconv.Itoa and strconv.Atoi. */
module Common {

  datatype Option<+T> = None | Some(value: T)

  datatype Result<+T, +E> = Ok(value: T) | Err(error: E)

  const MinInt64: int := -0x8000_0000_0000_0000
  const MaxInt64: int := 0x7FFF_FFFF_FFFF_FFFF

  // ---------------------------------------------------------------------------
  // Substrings and prefixes

  predicate HasPrefix(s: string, prefix: string) {
    |prefix| <= |s| && s[..|prefix|] == prefix
  }

  /** strings.Contains(s, sub): `sub` occurs somewhere in `s`. */
  predicate Contains(s: string, sub: string) {
    exists i | 0 <= i <= |s| - |sub| :: OccursAt(s, sub, i)
  }

  predicate OccursAt(s: string, sub: string, i: int) {
    0 <= i <= |s| - |sub| && s[i..i + |sub|] == sub
  }

  /** The two forms of Contains the input validation uses, stated on characters. */
  lemma ContainsChar(s: string, c: char)
    ensures Contains(s, [c]) <==> c in s
  {
    if c in s {
      var i :| 0 <= i < |s| && s[i] == c;
      assert OccursAt(s, [c], i);
    }
    if Contains(s, [c]) {
      var i :| 0 <= i <= |s| - 1 && OccursAt(s, [c], i);
      assert s[i..i + 1][0] == c;
    }
  }

  lemma ContainsPair(s: string, c: char, d: char)
    ensures Contains(s, [c, d]) <==> exists i :: 0 <= i < |s| - 1 && s[i] == c && s[i + 1] == d
  {
    if exists i :: 0 <= i < |s| - 1 && s[i] == c && s[i + 1] == d {
      var i :| 0 <= i < |s| - 1 && s[i] == c && s[i + 1] == d;
      assert OccursAt(s, [c, d], i);
    }
    if Contains(s, [c, d]) {
      var i :| 0 <= i <= |s| - 2 && OccursAt(s, [c, d], i);
      assert s[i..i + 2][0] == c && s[i..i + 2][1] == d;
    }
  }

  // ---------------------------------------------------------------------------
  // strings.Split on a one-character separator, and its inverse

  /** Joins parts with `sep` between them (strings.Join). */
  function Join(parts: seq<string>, sep: char): string
    requires |parts| >= 1
  {
    if |parts| == 1 then parts[0] else parts[0] + [sep] + Join(parts[1..], sep)
  }

  /** strings.Split(s, sep): the pieces of `s` between occurrences of `sep`;
      always at least one piece (the empty string splits to [""]). */
  function Split(s: string, sep: char): (parts: seq<string>)
    ensures |parts| >= 1
    decreases |s|
  {
    if s == [] then [[]] else SplitStep(s[0], Split(s[1..], sep), sep)
  }

  /** One step of Split: the pieces of `[c] + t`, given the pieces `rest` of `t`. */
  function SplitStep(c: char, rest: seq<string>, sep: char): (parts: seq<string>)
    requires |rest| >= 1
    ensures |parts| >= 1
  {
    if c == sep then [[]] + rest else [[c] + rest[0]] + rest[1..]
  }

  /** The pieces are separator-free and join back to `s`. */
  lemma SplitSpec(s: string, sep: char)
    ensures forall i :: 0 <= i < |Split(s, sep)| ==> sep !in Split(s, sep)[i]
    ensures Join(Split(s, sep), sep) == s
  {
    SplitPiecesFree(s, sep);
    SplitJoinsBack(s, sep);
  }

  lemma {:induction false} SplitPiecesFree(s: string, sep: char)
    ensures forall i :: 0 <= i < |Split(s, sep)| ==> sep !in Split(s, sep)[i]
    decreases |s|
  {
    if s != [] {
      SplitPiecesFree(s[1..], sep);
      StepPiecesFree(s[0], Split(s[1..], sep), sep);
    }
  }

  lemma StepPiecesFree(c: char, rest: seq<string>, sep: char)
    requires |rest| >= 1 && forall i :: 0 <= i < |rest| ==> sep !in rest[i]
    ensures forall i :: 0 <= i < |SplitStep(c, rest, sep)| ==> sep !in SplitStep(c, rest, sep)[i]
  {
    var parts := SplitStep(c, rest, sep);
    forall i | 0 <= i < |parts| ensures sep !in parts[i] {
      if i > 0 {
        assert parts[i] == if c == sep then rest[i - 1] else rest[i];
      }
    }
  }

  lemma {:induction false} SplitJoinsBack(s: string, sep: char)
    ensures Join(Split(s, sep), sep) == s
    decreases |s|
  {
    if s != [] {
      SplitJoinsBack(s[1..], sep);
      StepJoinsBack(s[0], s[1..], Split(s[1..], sep), sep);
      assert s == [s[0]] + s[1..];
    }
  }

  lemma StepJoinsBack(c: char, t: string, rest: seq<string>, sep: char)
    requires |rest| >= 1 && Join(rest, sep) == t
    ensures Join(SplitStep(c, rest, sep), sep) == [c] + t
  {
    if c == sep {
      JoinCons([], rest, sep);
    } else if |rest| > 1 {
      JoinCons(rest[0], rest[1..], sep);
      JoinCons([c] + rest[0], rest[1..], sep);
      assert [rest[0]] + rest[1..] == rest;
    }
  }

  /** Join of a list with at least two pieces: the first, a separator, the rest. */
  lemma JoinCons(p: string, ps: seq<string>, sep: char)
    requires |ps| >= 1
    ensures Join([p] + ps, sep) == p + [sep] + Join(ps, sep)
  {
    assert ([p] + ps)[1..] == ps;
  }

  /** The first piece of a split is everything before the first separator. */
  lemma {:induction false} SplitHead(a: string, b: string, sep: char)
    requires sep !in a
    ensures Split(a + [sep] + b, sep)[0] == a
    decreases |a|
  {
    var s := a + [sep] + b;
    if a != [] {
      assert s[0] == a[0] && s[1..] == a[1..] + [sep] + b;
      SplitHead(a[1..], b, sep);
      assert [a[0]] + a[1..] == a;
    } else {
      assert s[0] == sep;
    }
  }

  /** Splitting a join of separator-free pieces gives the pieces back. */
  lemma {:induction false} SplitJoin(parts: seq<string>, sep: char)
    requires |parts| >= 1
    requires forall i :: 0 <= i < |parts| ==> sep !in parts[i]
    ensures Split(Join(parts, sep), sep) == parts
    decreases |parts|, |parts[0]|
  {
    var s := Join(parts, sep);
    if parts[0] == [] {
      if |parts| == 1 {
        assert s == [];
      } else {
        SplitJoin(parts[1..], sep);
        assert s == [sep] + Join(parts[1..], sep);
        assert s[1..] == Join(parts[1..], sep);
        assert parts == [[]] + parts[1..];
      }
    } else {
      var tail := [parts[0][1..]] + parts[1..];
      assert forall i :: 0 <= i < |tail| ==> sep !in tail[i] by {
        forall i | 0 <= i < |tail| ensures sep !in tail[i] {
          if i > 0 { assert tail[i] == parts[i]; }
        }
      }
      SplitJoin(tail, sep);
      assert parts[0][0] != sep;
      if |parts| == 1 {
        assert s[1..] == Join(tail, sep);
      } else {
        assert Join(tail, sep) == parts[0][1..] + [sep] + Join(parts[1..], sep);
        assert s[1..] == Join(tail, sep);
      }
      assert [parts[0][0]] + parts[0][1..] == parts[0];
      assert parts == [[parts[0][0]] + tail[0]] + tail[1..];
    }
  }

  // ---------------------------------------------------------------------------
  // ASCII lower-casing

  function LowerChar(c: char): char {
    if 'A' <= c <= 'Z' then (c as int - 'A' as int + 'a' as int) as char else c
  }

  /** strings.ToLower, restricted to the ASCII letters. */
  function ToLower(s: string): (r: string)
    ensures |r| == |s|
    ensures forall i :: 0 <= i < |s| ==> r[i] == LowerChar(s[i])
  {
    seq(|s|, i requires 0 <= i < |s| => LowerChar(s[i]))
  }

  // ---------------------------------------------------------------------------
  // Decimal numbers: strconv.Itoa and strconv.Atoi

  predicate IsDigit(c: char) { '0' <= c <= '9' }

  predicate AllDigits(s: string) { forall i :: 0 <= i < |s| ==> IsDigit(s[i]) }

  function DigitChar(d: nat): (c: char)
    requires d < 10
    ensures IsDigit(c) && c as int - '0' as int == d
  {
    ('0' as int + d) as char
  }

  /** The value of a string of decimal digits. */
  function DecimalValue(s: string): nat
    requires AllDigits(s)
  {
    if s == [] then 0 else DecimalValue(s[..|s| - 1]) * 10 + (s[|s| - 1] as int - '0' as int)
  }

  /** The shortest decimal spelling of n (no sign, no leading zero). */
  function NatToDecimal(n: nat): (s: string)
    ensures 1 <= |s| && AllDigits(s)
    ensures |s| > 1 ==> s[0] != '0'
    decreases n
  {
    if n < 10 then [DigitChar(n)] else NatToDecimal(n / 10) + [DigitChar(n % 10)]
  }

  lemma {:induction false} DecimalRoundTrip(n: nat)
    ensures DecimalValue(NatToDecimal(n)) == n
    decreases n
  {
    if n >= 10 {
      DecimalRoundTrip(n / 10);
      var s := NatToDecimal(n);
      assert s[..|s| - 1] == NatToDecimal(n / 10);
    }
  }

  /** strconv.Itoa: decimal, with a leading '-' for negative numbers. */
  function Itoa(i: int): string {
    if i < 0 then "-" + NatToDecimal(-i) else NatToDecimal(i)
  }

  /** Itoa writes at least one character, and only digits and a sign. */
  lemma ItoaChars(i: int)
    ensures 1 <= |Itoa(i)|
    ensures forall k :: 0 <= k < |Itoa(i)| ==> IsDigit(Itoa(i)[k]) || Itoa(i)[k] == '-'
  {
    var d := NatToDecimal(if i < 0 then -i else i);
    assert AllDigits(d);
  }

  /** The value of a non-empty string of decimal digits; None when the string
      is empty or holds anything but digits. */
  function Digits(s: string): Option<nat>
    decreases |s|
  {
    if s == [] || !IsDigit(s[|s| - 1]) then None
    else
      var d := s[|s| - 1] as int - '0' as int;
      if |s| == 1 then Some(d)
      else match Digits(s[..|s| - 1]) case None => None case Some(v) => Some(v * 10 + d)
  }

  /** Digits reads exactly the non-empty digit strings, with their decimal value. */
  lemma {:induction false} DigitsValue(s: string)
    ensures Digits(s).Some? <==> s != [] && AllDigits(s)
    ensures Digits(s).Some? ==> Digits(s).value == DecimalValue(s)
    decreases |s|
  {
    if |s| > 1 {
      DigitsValue(s[..|s| - 1]);
      if AllDigits(s) {
        assert AllDigits(s[..|s| - 1]);
      }
      if AllDigits(s[..|s| - 1]) && IsDigit(s[|s| - 1]) {
        assert AllDigits(s);
      }
    } else if |s| == 1 {
      assert DecimalValue(s[..0]) == 0;
    }
  }

  /** strconv.Atoi: an optional '+' or '-' followed by at least one decimal
      digit, whose value fits a 64-bit signed int; anything else is an error. */
  function Atoi(s: string): Option<int> {
    if s == [] then None
    else
      var digits := if s[0] == '-' || s[0] == '+' then s[1..] else s;
      match Digits(digits)
      case None => None
      case Some(n) =>
        var v: int := if s[0] == '-' then -(n as int) else n;
        if v < MinInt64 || v > MaxInt64 then None else Some(v)
  }

  /** Atoi only accepts a sign or digit up front and only returns 64-bit values. */
  lemma AtoiShape(s: string)
    requires Atoi(s).Some?
    ensures MinInt64 <= Atoi(s).value <= MaxInt64
    ensures |s| > 0 && (IsDigit(s[0]) || s[0] == '+' || s[0] == '-')
  {
    DigitsValue(s);
  }

  /** The digits Itoa writes for a natural number read back as that number. */
  lemma DigitsOfDecimal(n: nat)
    ensures Digits(NatToDecimal(n)) == Some(n)
  {
    DecimalRoundTrip(n);
    DigitsValue(NatToDecimal(n));
  }

  /** Atoi reads back what Itoa writes, for every 64-bit value. */
  lemma AtoiItoa(i: int)
    requires MinInt64 <= i <= MaxInt64
    ensures Atoi(Itoa(i)) == Some(i)
  {
    var s := NatToDecimal(if i < 0 then -i else i);
    DigitsOfDecimal(if i < 0 then -i else i);
    assert IsDigit(s[0]);
    if i < 0 {
      assert Itoa(i) == "-" + s && ("-" + s)[1..] == s;
    } else {
      assert Itoa(i) == s;
    }
  }

  /** A string with no '-' in it never reads as a negative number. */
  lemma AtoiNoMinus(s: string)
    requires '-' !in s
    requires Atoi(s).Some?
    ensures Atoi(s).value >= 0
  {
    assert s[0] != '-';
  }
}
