/**
 * The PHP string primitives the request classifier relies on, written out:
 * explode(' ', s), preg_replace('/ +/', ' ', s) and the (int) cast of a
 * string.
 */
module Strings {

  /** No two adjacent spaces. */
  predicate NoDoubleSpace(s: string) {
    forall i :: 0 <= i < |s| - 1 ==> !(s[i] == ' ' && s[i + 1] == ' ')
  }

  /** explode(' ', s): the pieces between single spaces; "" gives [""]. */
  function Split(s: string): (pieces: seq<string>)
    ensures |pieces| >= 1
    ensures forall p :: p in pieces ==> ' ' !in p
    decreases |s|
  {
    if s == [] then [""]
    else
      var rest := Split(s[1..]);
      if s[0] == ' ' then [""] + rest
      else [[s[0]] + rest[0]] + rest[1..]
  }

  /** implode(' ', pieces). */
  function Join(pieces: seq<string>): string {
    if pieces == [] then ""
    else if |pieces| == 1 then pieces[0]
    else pieces[0] + " " + Join(pieces[1..])
  }

  /** preg_replace('/ +/', ' ', s): every run of spaces becomes one space. */
  function Collapse(s: string): (r: string)
    ensures NoDoubleSpace(r)
    ensures (|r| > 0 && r[0] == ' ') <==> (|s| > 0 && s[0] == ' ')
    ensures |r| <= |s|
    decreases |s|
  {
    if s == [] then ""
    else if s[0] == ' ' && |s| > 1 && s[1] == ' ' then Collapse(s[1..])
    else [s[0]] + Collapse(s[1..])
  }

  /** Keeps the first and the last piece and every non-empty piece between them. */
  function DropInteriorEmpty(pieces: seq<string>): seq<string>
    requires |pieces| >= 1
  {
    [pieces[0]] + KeepNonEmptyButLast(pieces[1..])
  }

  function KeepNonEmptyButLast(pieces: seq<string>): seq<string> {
    if |pieces| <= 1 then pieces
    else (if pieces[0] == "" then [] else [pieces[0]]) + KeepNonEmptyButLast(pieces[1..])
  }

  /** Joining the pieces of a split with single spaces gives back the string. */
  lemma {:induction false} JoinSplit(s: string)
    ensures Join(Split(s)) == s
    decreases |s|
  {
    if s != [] {
      var rest := Split(s[1..]);
      JoinSplit(s[1..]);
      if s[0] == ' ' {
        assert Split(s) == [""] + rest;
        assert ([""] + rest)[1..] == rest;
        assert s == " " + s[1..];
      } else {
        var first := [s[0]] + rest[0];
        assert Split(s) == [first] + rest[1..];
        if |rest| == 1 {
          assert s == [s[0]] + s[1..];
        } else {
          assert ([first] + rest[1..])[1..] == rest[1..];
          assert Join(rest) == rest[0] + " " + Join(rest[1..]);
          assert s == [s[0]] + s[1..];
        }
      }
    }
  }

  /**
   * Collapsing runs of spaces and then splitting on a space is the same as
   * splitting first and dropping the empty pieces that a run leaves between
   * two others.
   */
  lemma {:induction false} SplitCollapse(s: string)
    ensures Split(Collapse(s)) == DropInteriorEmpty(Split(s))
    decreases |s|
  {
    if s == [] {
    } else if s[0] == ' ' && |s| > 1 && s[1] == ' ' {
      SplitCollapse(s[1..]);
      var q := Split(s[1..]);
      assert Split(s) == [""] + q;
      assert s[1..][1..] == s[2..];
      assert q == [""] + Split(s[2..]);
      assert ([""] + q)[1..] == q;
      assert q[1..] == Split(s[2..]);
      assert KeepNonEmptyButLast(q) == KeepNonEmptyButLast(q[1..]);
    } else if s[0] == ' ' {
      SplitCollapse(s[1..]);
      var q := Split(s[1..]);
      var c := Collapse(s);
      assert c == [' '] + Collapse(s[1..]);
      assert c[1..] == Collapse(s[1..]);
      assert Split(c) == [""] + Split(Collapse(s[1..]));
      assert Split(s) == [""] + q;
      assert ([""] + q)[1..] == q;
      if |q| > 1 {
        assert s[1..] != [] && s[1..][0] != ' ';
        assert q[0] != "";
      }
    } else {
      SplitCollapse(s[1..]);
      var q := Split(s[1..]);
      var c := Collapse(s);
      assert c == [s[0]] + Collapse(s[1..]);
      assert c[1..] == Collapse(s[1..]);
      var q' := Split(Collapse(s[1..]));
      assert q' == [q[0]] + KeepNonEmptyButLast(q[1..]);
      assert Split(c) == [[s[0]] + q'[0]] + q'[1..];
      assert q'[1..] == KeepNonEmptyButLast(q[1..]);
      assert Split(s) == [[s[0]] + q[0]] + q[1..];
      assert ([[s[0]] + q[0]] + q[1..])[1..] == q[1..];
    }
  }

  // ----- the (int) cast of a string -----

  predicate IsDigit(c: char) {
    '0' <= c <= '9'
  }

  predicate AllDigits(s: string) {
    forall i :: 0 <= i < |s| ==> IsDigit(s[i])
  }

  /** PHP's white space before a numeric string: space, \t, \n, \r, \v, \f. */
  predicate IsBlank(c: char) {
    c == ' ' || c == '\t' || c == '\n' || c == '\r' || c == 11 as char || c == 12 as char
  }

  function SkipBlanks(s: string): string {
    if s != [] && IsBlank(s[0]) then SkipBlanks(s[1..]) else s
  }

  /** The longest prefix of s made of decimal digits. */
  function DigitPrefix(s: string): (r: string)
    ensures AllDigits(r) && r <= s
    ensures |r| < |s| ==> !IsDigit(s[|r|])
  {
    if s != [] && IsDigit(s[0]) then [s[0]] + DigitPrefix(s[1..]) else []
  }

  function DigitsValue(ds: string): nat
    requires AllDigits(ds)
  {
    if ds == [] then 0
    else DigitsValue(ds[..|ds| - 1]) * 10 + (ds[|ds| - 1] as int - '0' as int)
  }

  /**
   * (int) s: leading white space, an optional sign and the longest run of
   * digits after it; a string with no such digits gives 0.
   */
  function IntCast(s: string): (r: int)
    ensures r < 0 ==> SkipBlanks(s) != [] && SkipBlanks(s)[0] == '-'
  {
    var t := SkipBlanks(s);
    if t != [] && t[0] == '-' then 0 - DigitsValue(DigitPrefix(t[1..]))
    else if t != [] && t[0] == '+' then DigitsValue(DigitPrefix(t[1..]))
    else DigitsValue(DigitPrefix(t))
  }

  /** The decimal digits of n, without leading zeros. */
  function DecimalString(n: nat): (s: string)
    ensures |s| > 0 && AllDigits(s)
  {
    (if n < 10 then "" else DecimalString(n / 10)) + [('0' as int + n % 10) as char]
  }

  lemma {:induction false} DecimalValue(n: nat)
    ensures DigitsValue(DecimalString(n)) == n
  {
    var s := DecimalString(n);
    assert s[..|s| - 1] == (if n < 10 then "" else DecimalString(n / 10));
    if n >= 10 {
      DecimalValue(n / 10);
    }
  }

  lemma {:induction false} DigitPrefixOfDigits(s: string)
    requires AllDigits(s)
    ensures DigitPrefix(s) == s
  {
    if s != [] {
      DigitPrefixOfDigits(s[1..]);
    }
  }

  /** A digit string, with or without a minus sign in front, casts to its value. */
  lemma IntCastDigits(s: string)
    requires s != [] && AllDigits(s)
    ensures IntCast(s) == DigitsValue(s)
    ensures IntCast("-" + s) == 0 - DigitsValue(s)
  {
    DigitPrefixOfDigits(s);
    assert IsDigit(s[0]) && !IsBlank(s[0]);
    assert SkipBlanks(s) == s;
    var m := "-" + s;
    assert m[0] == '-' && !IsBlank(m[0]);
    assert SkipBlanks(m) == m;
    assert m[1..] == s;
  }

  /** The cast reads back what the decimal form of an integer writes. */
  lemma IntCastDecimal(n: nat)
    ensures IntCast(DecimalString(n)) == n
    ensures IntCast("-" + DecimalString(n)) == 0 - n
  {
    DecimalValue(n);
    IntCastDigits(DecimalString(n));
  }

  /** Leading white space does not change the cast. */
  lemma IntCastSkipsBlank(c: char, s: string)
    requires IsBlank(c)
    ensures IntCast([c] + s) == IntCast(s)
  {
    assert ([c] + s)[1..] == s;
  }

  /** A string that starts with neither a digit, a sign nor white space casts to 0. */
  lemma IntCastNonNumeric(s: string)
    requires s != [] && !IsDigit(s[0]) && !IsBlank(s[0]) && s[0] != '-' && s[0] != '+'
    ensures IntCast(s) == 0
  {
  }
}
