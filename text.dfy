/** The string handling the building file format relies on: counting a
    delimiter, Java's String.split on single-character separators, joining,
    and the integer and decimal grammars of Integer.parseInt and
    Double.parseDouble. */
module Text {
  import opened Wrappers

  /** Number of occurrences of `c` in `s`. */
  function Count(s: string, c: char): (n: nat)
    ensures n <= |s|
    ensures n == 0 <==> c !in s
  {
    if s == [] then 0 else (if s[0] == c then 1 else 0) + Count(s[1..], c)
  }

  predicate FreeOf(s: string, seps: set<char>)
  {
    forall j :: 0 <= j < |s| ==> s[j] !in seps
  }

  /** Every field between separators, empty ones included: the raw pieces
      before String.split discards trailing empty strings. */
  function Fields(s: string, seps: set<char>): (r: seq<string>)
    ensures |r| >= 1
    ensures forall i :: 0 <= i < |r| ==> FreeOf(r[i], seps)
    decreases |s|
  {
    if s == [] then [""]
    else
      var rest := Fields(s[1..], seps);
      if s[0] in seps then [""] + rest
      else [[s[0]] + rest[0]] + rest[1..]
  }

  /** `parts` with its trailing empty strings removed. */
  function DropTrailingEmpty(parts: seq<string>): (r: seq<string>)
    ensures r <= parts
    ensures r == [] || r[|r| - 1] != ""
    ensures forall i :: |r| <= i < |parts| ==> parts[i] == ""
  {
    if parts == [] then []
    else if parts[|parts| - 1] == "" then DropTrailingEmpty(parts[..|parts| - 1])
    else parts
  }

  /** String.split with a pattern that matches any one character of `seps`
      (":" or ":|\\@" in the file format): the fields between separators
      without the trailing empty ones; the empty string splits into one
      empty field. */
  function Split(s: string, seps: set<char>): seq<string>
  {
    if s == [] then [""] else DropTrailingEmpty(Fields(s, seps))
  }

  /** The parts separated by `c`. */
  function Join(parts: seq<string>, c: char): string
  {
    if |parts| == 0 then ""
    else if |parts| == 1 then parts[0]
    else parts[0] + [c] + Join(parts[1..], c)
  }

  /** Joining the fields of `s` on `c` gives `s` back. */
  lemma {:induction false} JoinFields(s: string, c: char)
    ensures Join(Fields(s, {c}), c) == s
    decreases |s|
  {
    if s != [] {
      var rest := Fields(s[1..], {c});
      JoinFields(s[1..], c);
      if s[0] != c {
        var r := Fields(s, {c});
        assert r == [[s[0]] + rest[0]] + rest[1..];
        if |rest| == 1 {
          assert Join(r, c) == [s[0]] + rest[0];
        } else {
          assert r[1..] == rest[1..];
          assert Join(r, c) == [s[0]] + (rest[0] + [c] + Join(rest[1..], c));
        }
      }
    }
  }

  /** A separator-free prefix extends the first field. */
  lemma {:induction false} FieldsOfPrefix(p: string, t: string, seps: set<char>)
    requires FreeOf(p, seps)
    ensures Fields(p + t, seps) == [p + Fields(t, seps)[0]] + Fields(t, seps)[1..]
    decreases |p|
  {
    if p != [] {
      assert (p + t)[1..] == p[1..] + t;
      FieldsOfPrefix(p[1..], t, seps);
      assert [p[0]] + (p[1..] + Fields(t, seps)[0]) == p + Fields(t, seps)[0];
    } else {
      assert p + t == t;
      assert p + Fields(t, seps)[0] == Fields(t, seps)[0];
      assert Fields(t, seps) == [Fields(t, seps)[0]] + Fields(t, seps)[1..];
    }
  }

  /** Splitting a join of separator-free, non-empty parts recovers the parts. */
  lemma {:induction false} FieldsOfJoin(parts: seq<string>, c: char)
    requires |parts| >= 1
    requires forall i :: 0 <= i < |parts| ==> FreeOf(parts[i], {c})
    ensures Fields(Join(parts, c), {c}) == parts
    decreases |parts|
  {
    if |parts| == 1 {
      FieldsOfPrefix(parts[0], "", {c});
      assert parts[0] + "" == parts[0];
    } else {
      var t := Join(parts[1..], c);
      FieldsOfJoin(parts[1..], c);
      assert Fields([c] + t, {c}) == [""] + Fields(t, {c});
      assert Join(parts, c) == parts[0] + ([c] + t);
      FieldsOfPrefix(parts[0], [c] + t, {c});
      assert parts[0] + "" == parts[0];
    }
  }

  lemma SplitOfJoin(parts: seq<string>, c: char)
    requires |parts| >= 1
    requires forall i :: 0 <= i < |parts| ==> FreeOf(parts[i], {c}) && parts[i] != ""
    ensures Split(Join(parts, c), {c}) == parts
  {
    FieldsOfJoin(parts, c);
    assert |Join(parts, c)| >= |parts[0]| by {
      if |parts| > 1 { assert Join(parts, c) == parts[0] + [c] + Join(parts[1..], c); }
    }
  }

  predicate IsDigit(ch: char) { '0' <= ch <= '9' }

  predicate AllDigits(s: string) { forall i :: 0 <= i < |s| ==> IsDigit(s[i]) }

  function DigitValue(ch: char): nat
    requires IsDigit(ch)
  {
    ch as int - '0' as int
  }

  function DigitChar(d: nat): char
    requires d < 10
  {
    ('0' as int + d) as char
  }

  /** The value of a decimal digit string, read left to right. */
  function DigitsValue(s: string): nat
    requires AllDigits(s)
  {
    if s == [] then 0 else 10 * DigitsValue(s[..|s| - 1]) + DigitValue(s[|s| - 1])
  }

  function Pow10(n: nat): (p: nat)
    ensures p >= 1
  {
    if n == 0 then 1 else 10 * Pow10(n - 1)
  }

  /** Bounds of a Java int. */
  const IntMin: int := -0x8000_0000
  const IntMax: int := 0x7fff_ffff

  predicate IsSign(ch: char) { ch == '-' || ch == '+' }

  /** Integer.parseInt: an optional sign and at least one decimal digit,
      with a value that fits a Java int; None where Java throws
      NumberFormatException. */
  function ParseInt(s: string): (r: Option<int>)
    ensures r.Some? ==> IntMin <= r.value <= IntMax
  {
    var signed := |s| > 0 && IsSign(s[0]);
    var digits := if signed then s[1..] else s;
    if digits == [] || !AllDigits(digits) then None
    else
      var v: int := if signed && s[0] == '-' then -(DigitsValue(digits) as int) else DigitsValue(digits);
      if IntMin <= v <= IntMax then Some(v) else None
  }

  /** Double.parseDouble on plain decimal notation: an optional sign, digits,
      and an optional '.' followed by digits, with at least one digit in all;
      the value is exact. */
  function ParseDecimal(s: string): Option<real>
  {
    var signed := |s| > 0 && IsSign(s[0]);
    var body := if signed then s[1..] else s;
    var dot := DotIndex(body);
    var whole := if dot < |body| then body[..dot] else body;
    var frac := if dot < |body| then body[dot + 1..] else "";
    if !AllDigits(whole) || !AllDigits(frac) || |whole| + |frac| == 0 then None
    else
      var v := DigitsValue(whole) as real + DigitsValue(frac) as real / Pow10(|frac|) as real;
      Some(if signed && s[0] == '-' then -v else v)
  }

  /** Index of the first '.', or |s| when there is none. */
  function DotIndex(s: string): (i: nat)
    ensures i <= |s|
    ensures i < |s| ==> s[i] == '.'
  {
    if s == [] then 0 else if s[0] == '.' then 0 else 1 + DotIndex(s[1..])
  }

  /** Decimal notation of a natural number, without leading zeros. */
  function NatToString(n: nat): (s: string)
    ensures |s| > 0 && AllDigits(s)
  {
    if n < 10 then [DigitChar(n)] else NatToString(n / 10) + [DigitChar(n % 10)]
  }

  /** Integer.toString, the form `number + ","` produces. */
  function IntToString(n: int): (s: string)
    ensures |s| > 0
  {
    if n < 0 then "-" + NatToString(-n) else NatToString(n)
  }

  lemma {:induction false} DigitsOfNat(n: nat)
    ensures DigitsValue(NatToString(n)) == n
  {
    if n >= 10 {
      DigitsOfNat(n / 10);
      var s := NatToString(n);
      assert s[..|s| - 1] == NatToString(n / 10);
    }
  }

  /** Integer.parseInt reads back what Integer.toString writes. */
  lemma ParseIntToString(n: int)
    requires IntMin <= n <= IntMax
    ensures ParseInt(IntToString(n)) == Some(n)
  {
    var s := IntToString(n);
    if n < 0 {
      var d := NatToString(-n);
      DigitsOfNat(-n);
      assert s == "-" + d;
      assert s[1..] == d;
      assert IsSign(s[0]) && s[0] == '-';
    } else {
      DigitsOfNat(n);
      assert !IsSign(s[0]) by { assert IsDigit(s[0]); }
    }
  }

  /** Decimal notation uses no separator of the file format. */
  lemma IntToStringFreeOf(n: int, c: char)
    requires !IsDigit(c) && c != '-'
    ensures FreeOf(IntToString(n), {c})
  {
  }

  /** The parts, each followed by `c`: what appending `part + ","` in a loop
      builds. */
  function JoinTerminated(parts: seq<string>, c: char): string
  {
    if parts == [] then "" else JoinTerminated(parts[..|parts| - 1], c) + parts[|parts| - 1] + [c]
  }

  /** One more part terminated. */
  lemma JoinTerminatedStep(parts: seq<string>, i: nat, c: char)
    requires i < |parts|
    ensures JoinTerminated(parts[..i + 1], c) == JoinTerminated(parts[..i], c) + parts[i] + [c]
  {
    assert parts[..i + 1][..i] == parts[..i];
  }

  /** Dropping the last terminator of the terminated join gives the join. */
  lemma JoinTerminatedTrim(parts: seq<string>, c: char)
    requires |parts| >= 1
    ensures |JoinTerminated(parts, c)| >= 1
    ensures JoinTerminated(parts, c)[..|JoinTerminated(parts, c)| - 1] == Join(parts, c)
  {
    JoinTerminatedIsJoin(parts, c);
    var j := Join(parts, c);
    assert (j + [c])[..|j|] == j;
  }

  lemma {:induction false} JoinSnoc(parts: seq<string>, c: char)
    requires |parts| >= 2
    ensures Join(parts, c) == Join(parts[..|parts| - 1], c) + [c] + parts[|parts| - 1]
    decreases |parts|
  {
    if |parts| > 2 {
      JoinSnoc(parts[1..], c);
      assert parts[1..][..|parts| - 2] == parts[..|parts| - 1][1..];
    }
  }

  /** Dropping the last separator of a terminated join leaves the join. */
  lemma {:induction false} JoinTerminatedIsJoin(parts: seq<string>, c: char)
    requires |parts| >= 1
    ensures JoinTerminated(parts, c) == Join(parts, c) + [c]
    decreases |parts|
  {
    if |parts| == 1 {
      assert parts[..0] == [];
    } else {
      JoinTerminatedIsJoin(parts[..|parts| - 1], c);
      JoinSnoc(parts, c);
    }
  }

  /** Occurrences in a concatenation add up. */
  lemma {:induction false} CountConcat(a: string, b: string, c: char)
    ensures Count(a + b, c) == Count(a, c) + Count(b, c)
    decreases |a|
  {
    if a == [] {
      assert a + b == b;
    } else {
      assert (a + b)[1..] == a[1..] + b;
      CountConcat(a[1..], b, c);
    }
  }

  /** Joining parts free of `c` on `c` puts exactly one `c` between each
      two of them. */
  lemma {:induction false} CountJoin(parts: seq<string>, c: char)
    requires |parts| >= 1
    requires forall i :: 0 <= i < |parts| ==> FreeOf(parts[i], {c})
    ensures Count(Join(parts, c), c) == |parts| - 1
    decreases |parts|
  {
    assert c !in parts[0];
    if |parts| > 1 {
      CountJoin(parts[1..], c);
      CountConcat(parts[0] + [c], Join(parts[1..], c), c);
      CountConcat(parts[0], [c], c);
    }
  }
}
