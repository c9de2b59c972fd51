/**
 * The few pieces of Go's `strings` and `strconv` packages the registry client
 * relies on: `strings.Split` on a one-character separator, the decimal
 * rendering of `%d`, `strconv.Atoi`, and substring search.
 * Strings are sequences of characters; bytes and runes are not told apart.
 */
module Text {
  import opened Wrappers

  const MIN_INT64: int := -0x8000_0000_0000_0000
  const MAX_INT64: int := 0x7FFF_FFFF_FFFF_FFFF

  /** `sub` occurs somewhere inside `s` (Go's `strings.Contains`). */
  predicate Contains(s: string, sub: string)
    decreases |s|
  {
    sub <= s || (|s| > 0 && Contains(s[1..], sub))
  }

  lemma {:induction false} ContainsInfix(a: string, sub: string, b: string)
    ensures Contains(a + sub + b, sub)
  {
    if |a| == 0 {
      assert a + sub + b == sub + b;
      assert sub <= sub + b;
    } else {
      ContainsInfix(a[1..], sub, b);
      assert (a + sub + b)[1..] == a[1..] + sub + b;
    }
  }

  /** Number of occurrences of `c` in `s`. */
  function Count(s: string, c: char): nat
    decreases |s|
  {
    if |s| == 0 then 0 else (if s[0] == c then 1 else 0) + Count(s[1..], c)
  }

  /**
   * Go's `strings.Split(s, sep)` for a one-character separator: the pieces
   * between separators, in order; one more piece than there are separators.
   */
  function Split(s: string, sep: char): (parts: seq<string>)
    ensures |parts| > 0
    decreases |s|
  {
    if |s| == 0 then [""]
    else
      var rest := Split(s[1..], sep);
      if s[0] == sep then [""] + rest
      else [[s[0]] + rest[0]] + rest[1..]
  }

  /** There is one more piece than there are separators, and no piece holds a separator. */
  lemma {:induction false} SplitPieces(s: string, sep: char)
    ensures |Split(s, sep)| == Count(s, sep) + 1
    ensures forall i :: 0 <= i < |Split(s, sep)| ==> sep !in Split(s, sep)[i]
    decreases |s|
  {
    if |s| > 0 {
      var rest := Split(s[1..], sep);
      SplitPieces(s[1..], sep);
      if s[0] == sep {
        assert forall i :: 1 <= i < |Split(s, sep)| ==> Split(s, sep)[i] == rest[i - 1];
      } else {
        assert Split(s, sep)[0] == [s[0]] + rest[0];
        assert forall i :: 1 <= i < |Split(s, sep)| ==> Split(s, sep)[i] == rest[i];
      }
    }
  }

  /** Go's `strings.Join(parts, string(sep))`. */
  function Join(parts: seq<string>, sep: char): string
    decreases |parts|
  {
    if |parts| == 0 then ""
    else if |parts| == 1 then parts[0]
    else parts[0] + [sep] + Join(parts[1..], sep)
  }

  /** Splitting loses nothing: joining the pieces gives the original text back. */
  lemma {:induction false} JoinSplit(s: string, sep: char)
    ensures Join(Split(s, sep), sep) == s
    decreases |s|
  {
    if |s| > 0 {
      var rest := Split(s[1..], sep);
      JoinSplit(s[1..], sep);
      if s[0] == sep {
        assert ([""] + rest)[1..] == rest;
        assert s == [sep] + s[1..];
      } else if |rest| == 1 {
        assert s == [s[0]] + s[1..];
      } else {
        var parts := [[s[0]] + rest[0]] + rest[1..];
        assert parts[1..] == rest[1..];
        assert Join(rest, sep) == rest[0] + [sep] + Join(rest[1..], sep);
        assert s == [s[0]] + s[1..];
      }
    }
  }

  /** A text without separators splits into itself. */
  lemma {:induction false} SplitNoSeparator(s: string, sep: char)
    requires sep !in s
    ensures Split(s, sep) == [s]
    decreases |s|
  {
    if |s| > 0 {
      SplitNoSeparator(s[1..], sep);
      assert s == [s[0]] + s[1..];
    }
  }

  /** Splitting a text that starts with `c`: a separator opens a new piece, any other character joins the first piece. */
  lemma SplitCons(c: char, rest: string, sep: char)
    ensures var tail := Split(rest, sep);
      Split([c] + rest, sep) == if c == sep then [""] + tail else [[c] + tail[0]] + tail[1..]
  {
    assert ([c] + rest)[1..] == rest;
  }

  /** Opening or extending the first piece commutes with appending further pieces. */
  lemma ConsPieces(c: char, sep: char, left: seq<string>, right: seq<string>)
    requires |left| > 0
    ensures (if c == sep then [""] + (left + right) else [[c] + (left + right)[0]] + (left + right)[1..]) ==
            (if c == sep then [""] + left else [[c] + left[0]] + left[1..]) + right
  {
    if c != sep {
      assert (left + right)[1..] == left[1..] + right;
    }
  }

  /** A separator between two texts separates their pieces. */
  lemma {:induction false} SplitConcat(a: string, sep: char, b: string)
    ensures Split(a + [sep] + b, sep) == Split(a, sep) + Split(b, sep)
    decreases |a|
  {
    if |a| == 0 {
      SplitCons(sep, b, sep);
      assert a + [sep] + b == [sep] + b;
    } else {
      SplitConcat(a[1..], sep, b);
      SplitConcatStep(a[0], a[1..], sep, b);
      assert a == [a[0]] + a[1..];
      assert a + [sep] + b == [a[0]] + (a[1..] + [sep] + b);
    }
  }

  /** The inductive step of `SplitConcat`: one more character in front of the first text. */
  lemma SplitConcatStep(c: char, a: string, sep: char, b: string)
    requires Split(a + [sep] + b, sep) == Split(a, sep) + Split(b, sep)
    ensures Split([c] + (a + [sep] + b), sep) == Split([c] + a, sep) + Split(b, sep)
  {
    SplitCons(c, a + [sep] + b, sep);
    SplitCons(c, a, sep);
    ConsPieces(c, sep, Split(a, sep), Split(b, sep));
  }

  /** Joining pieces that hold no separator and splitting again gives the pieces back. */
  lemma {:induction false} SplitJoin(parts: seq<string>, sep: char)
    requires |parts| > 0
    requires forall i :: 0 <= i < |parts| ==> sep !in parts[i]
    ensures Split(Join(parts, sep), sep) == parts
    decreases |parts|
  {
    if |parts| == 1 {
      SplitNoSeparator(parts[0], sep);
    } else {
      SplitJoin(parts[1..], sep);
      SplitNoSeparator(parts[0], sep);
      SplitConcat(parts[0], sep, Join(parts[1..], sep));
      assert [parts[0]] + parts[1..] == parts;
    }
  }

  /** Index of the last occurrence of `c` in `s`, if any. */
  function LastIndex(s: string, c: char): (r: Option<nat>)
    ensures r.Some? ==> r.value < |s| && s[r.value] == c && c !in s[r.value + 1..]
    ensures r.None? ==> c !in s
    decreases |s|
  {
    if |s| == 0 then None
    else if s[|s| - 1] == c then Some(|s| - 1)
    else
      var r := LastIndex(s[..|s| - 1], c);
      assert s == s[..|s| - 1] + [s[|s| - 1]];
      r
  }

  /** Index of the first occurrence of `c` in `s`, if any. */
  function IndexOf(s: string, c: char): (r: Option<nat>)
    ensures r.Some? ==> r.value < |s| && s[r.value] == c && c !in s[..r.value]
    ensures r.None? ==> c !in s
    decreases |s|
  {
    if |s| == 0 then None
    else if s[0] == c then Some(0)
    else
      var r := IndexOf(s[1..], c);
      assert s == [s[0]] + s[1..];
      if r.None? then None
      else
        assert s[..r.value + 1] == [s[0]] + s[1..][..r.value];
        Some(r.value + 1)
  }

  predicate IsDigit(c: char) {
    '0' <= c <= '9'
  }

  predicate AllDigits(s: string) {
    forall i :: 0 <= i < |s| ==> IsDigit(s[i])
  }

  function DigitChar(d: nat): char
    requires d < 10
  {
    "0123456789"[d]
  }

  function DigitOf(c: char): nat
    requires IsDigit(c)
  {
    (c as int - '0' as int) as nat
  }

  /** The value of a run of decimal digits, most significant first. */
  function DigitsValue(s: string): nat
    requires AllDigits(s)
    decreases |s|
  {
    if |s| == 0 then 0 else DigitsValue(s[..|s| - 1]) * 10 + DigitOf(s[|s| - 1])
  }

  /** Decimal rendering of a natural number, as `%d` prints it. */
  function NatToDecimal(n: nat): string
    decreases n
  {
    if n < 10 then [DigitChar(n)] else NatToDecimal(n / 10) + [DigitChar(n % 10)]
  }

  /** Decimal rendering of an integer, as `%d` prints it. */
  function IntToDecimal(i: int): string {
    if i < 0 then "-" + NatToDecimal(-i) else NatToDecimal(i)
  }

  lemma {:induction false} NatToDecimalDigits(n: nat)
    ensures |NatToDecimal(n)| > 0 && AllDigits(NatToDecimal(n))
    ensures DigitsValue(NatToDecimal(n)) == n
    decreases n
  {
    if n < 10 {
      DigitRoundTrip(n);
      assert NatToDecimal(n) == [DigitChar(n)];
    } else {
      var q, d := n / 10, n % 10;
      NatToDecimalDigits(q);
      DigitRoundTrip(d);
      var s := NatToDecimal(n);
      var front := NatToDecimal(q);
      assert s == front + [DigitChar(d)];
      assert s[..|s| - 1] == front && s[|s| - 1] == DigitChar(d);
      assert forall i :: 0 <= i < |s| ==> s[i] == if i < |front| then front[i] else DigitChar(d);
      assert DigitsValue(s) == q * 10 + d;
    }
  }

  /** `DigitOf` reads back the digit `DigitChar` prints. */
  lemma DigitRoundTrip(d: nat)
    requires d < 10
    ensures IsDigit(DigitChar(d)) && DigitOf(DigitChar(d)) == d
  {
    assert "0123456789" == ['0', '1', '2', '3', '4', '5', '6', '7', '8', '9'];
  }

  /** The message `strconv.Atoi` reports for `s`. */
  function AtoiError(s: string, reason: string): string {
    "strconv.Atoi: parsing \"" + s + "\": " + reason
  }

  /**
   * Go's `strconv.Atoi`: an optional sign followed by at least one decimal
   * digit, whose value fits a 64-bit `int`.
   */
  function Atoi(s: string): Result<int, string> {
    if |s| > 0 && (s[0] == '+' || s[0] == '-') then AtoiDigits(s, s[1..], s[0] == '-')
    else AtoiDigits(s, s, false)
  }

  /** The digits after the optional sign of `s`, read as a 64-bit value. */
  function AtoiDigits(s: string, digits: string, negative: bool): Result<int, string> {
    if |digits| == 0 || !AllDigits(digits) then Err(AtoiError(s, "invalid syntax"))
    else
      var v: int := if negative then -(DigitsValue(digits) as int) else DigitsValue(digits);
      if v < MIN_INT64 || MAX_INT64 < v then Err(AtoiError(s, "value out of range"))
      else Ok(v)
  }

  /** `Atoi` reads back every 64-bit integer that `%d` prints. */
  lemma AtoiIntToDecimal(i: int)
    requires MIN_INT64 <= i <= MAX_INT64
    ensures Atoi(IntToDecimal(i)) == Ok(i)
  {
    if i < 0 {
      NatToDecimalDigits(-i);
      var s := IntToDecimal(i);
      assert s[1..] == NatToDecimal(-i);
      AtoiNegative(s);
    } else {
      NatToDecimalDigits(i);
      AtoiUnsigned(NatToDecimal(i));
    }
  }

  /** A run of digits with an in-range value reads as that value. */
  lemma AtoiUnsigned(d: string)
    requires |d| > 0 && AllDigits(d) && DigitsValue(d) <= MAX_INT64
    ensures Atoi(d) == Ok(DigitsValue(d) as int)
  {
    assert IsDigit(d[0]);
  }

  /** A minus sign before a run of digits with an in-range value reads as the negated value. */
  lemma AtoiNegative(s: string)
    requires |s| > 1 && s[0] == '-' && AllDigits(s[1..]) && MIN_INT64 <= -(DigitsValue(s[1..]) as int)
    ensures Atoi(s) == Ok(-(DigitsValue(s[1..]) as int))
  {
  }

  /** Every accepted text is an optional sign and digits, and its value is in range. */
  lemma AtoiAccepts(s: string)
    requires Atoi(s).Ok?
    ensures |s| > 0 && MIN_INT64 <= Atoi(s).value <= MAX_INT64
    ensures forall i :: 0 < i < |s| ==> IsDigit(s[i])
    ensures IsDigit(s[0]) || s[0] == '+' || s[0] == '-'
  {
    var signed := |s| > 0 && (s[0] == '+' || s[0] == '-');
    var digits := if signed then s[1..] else s;
    if signed {
      assert forall i :: 0 < i < |s| ==> s[i] == digits[i - 1];
    }
  }

  function LowerChar(c: char): char {
    if 'A' <= c <= 'Z' then (c as int + 32) as char else c
  }

  /** ASCII lower-casing (Go's `strings.ToLower` on ASCII text). */
  function Lower(s: string): (r: string)
    ensures |r| == |s|
  {
    seq(|s|, i requires 0 <= i < |s| => LowerChar(s[i]))
  }
}
