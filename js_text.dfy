// The small pieces of JavaScript string and number semantics that the
// query translator and the error handler rely on: `undefined`-or-value,
// String.prototype.split / Array.prototype.join on one separator, the `\w`
// character class of a regular expression, and the `s * 1` conversion of a
// query-string value to a number.

module JsText {

  /** A property that may be `undefined`. */
  datatype Option<T> = None | Some(value: T)

  /** `\w` of a JavaScript regular expression without the `u` flag. */
  predicate IsWordChar(c: char) {
    ('a' <= c <= 'z') || ('A' <= c <= 'Z') || ('0' <= c <= '9') || c == '_'
  }

  // ---------------------------------------------------------------------
  // split / join

  /** `s.split(sep)` for a one-character separator: the pieces between
      separators, in order; never empty (`"".split(",")` is `[""]`). */
  function Split(s: string, sep: char): (parts: seq<string>)
    ensures |parts| >= 1
    ensures forall i :: 0 <= i < |parts| ==> sep !in parts[i]
  {
    if s == [] then [[]]
    else
      var rest := Split(s[1..], sep);
      if s[0] == sep then [[]] + rest
      else [[s[0]] + rest[0]] + rest[1..]
  }

  /** `parts.join(sep)`. */
  function Join(parts: seq<string>, sep: string): string
  {
    if |parts| == 0 then []
    else if |parts| == 1 then parts[0]
    else parts[0] + sep + Join(parts[1..], sep)
  }

  /** `s` with every occurrence of the character `c` replaced by `with`. */
  function ReplaceChar(s: string, c: char, with: string): string
  {
    if s == [] then []
    else (if s[0] == c then with else [s[0]]) + ReplaceChar(s[1..], c, with)
  }

  /** Joining a list whose first piece gained a leading character. */
  lemma {:induction false} JoinPrepend(x: char, parts: seq<string>, sep: string)
    requires |parts| >= 1
    ensures Join([[x] + parts[0]] + parts[1..], sep) == [x] + Join(parts, sep)
  {
    var grown := [[x] + parts[0]] + parts[1..];
    assert grown[1..] == parts[1..];
  }

  /** Splitting on a character and joining with `sep` replaces each
      occurrence of that character by `sep` and keeps everything else, in
      order. */
  lemma {:induction false} JoinSplit(s: string, c: char, sep: string)
    ensures Join(Split(s, c), sep) == ReplaceChar(s, c, sep)
  {
    if s != [] {
      JoinSplit(s[1..], c, sep);
      var rest := Split(s[1..], c);
      if s[0] == c {
        assert ([[]] + rest)[1..] == rest;
        assert Join([[]] + rest, sep) == sep + Join(rest, sep);
      } else {
        JoinPrepend(s[0], rest, sep);
      }
    }
  }

  /** Replacing a character by itself changes nothing. */
  lemma {:induction false} ReplaceCharSelf(s: string, c: char)
    ensures ReplaceChar(s, c, [c]) == s
  {
    if s != [] {
      ReplaceCharSelf(s[1..], c);
      assert s == [s[0]] + s[1..];
    }
  }

  /** Replacing distributes over concatenation. */
  lemma {:induction false} ReplaceCharConcat(a: string, b: string, c: char, with: string)
    ensures ReplaceChar(a + b, c, with) == ReplaceChar(a, c, with) + ReplaceChar(b, c, with)
  {
    if a != [] {
      ReplaceCharConcat(a[1..], b, c, with);
      assert (a + b)[1..] == a[1..] + b;
    } else {
      assert a + b == b;
    }
  }

  /** A string without the character is left as it is. */
  lemma {:induction false} ReplaceCharAbsent(a: string, c: char, with: string)
    requires c !in a
    ensures ReplaceChar(a, c, with) == a
  {
    if a != [] {
      assert a[0] in a;
      assert a[1..] == a[1..] && c !in a[1..] by {
        forall x | x in a[1..] ensures x != c { assert x in a; }
      }
      ReplaceCharAbsent(a[1..], c, with);
      assert a == [a[0]] + a[1..];
    }
  }

  /** The pieces of a split, joined back with the same separator, give the
      original string: no piece is lost or reordered. */
  lemma {:induction false} SplitJoinRoundTrip(s: string, c: char)
    ensures Join(Split(s, c), [c]) == s
  {
    JoinSplit(s, c, [c]);
    ReplaceCharSelf(s, c);
  }

  /** Joining keeps every piece: each one occurs in the joined text. */
  lemma {:induction false} JoinKeepsEach(parts: seq<string>, sep: string, i: nat)
    requires i < |parts|
    ensures exists before, after :: Join(parts, sep) == before + parts[i] + after
  {
    if |parts| == 1 {
      assert Join(parts, sep) == [] + parts[0] + [];
    } else if i == 0 {
      assert Join(parts, sep) == [] + parts[0] + (sep + Join(parts[1..], sep));
    } else {
      JoinKeepsEach(parts[1..], sep, i - 1);
      var before, after :| Join(parts[1..], sep) == before + parts[1..][i - 1] + after;
      assert Join(parts, sep) == (parts[0] + sep + before) + parts[i] + after;
    }
  }

  // ---------------------------------------------------------------------
  // Numbers

  predicate IsDigit(c: char) { '0' <= c <= '9' }

  predicate IsDigits(t: string) {
    |t| > 0 && forall i :: 0 <= i < |t| ==> IsDigit(t[i])
  }

  /** The value of a string of decimal digits (leading zeros allowed). */
  function DigitsValue(t: string): nat
    requires forall i :: 0 <= i < |t| ==> IsDigit(t[i])
  {
    if t == [] then 0
    else
      assert IsDigit(t[|t| - 1]);
      10 * DigitsValue(t[..|t| - 1]) + (t[|t| - 1] as int - '0' as int)
  }

  /** `s * 1` for a query-string value, restricted to integral decimal
      numerals: `""` is 0, an optional sign followed by decimal digits is
      that integer, and anything else is `NaN` (`None`). Only a numeral
      reads as a number, and only a leading `-` makes it negative. */
  function ToNumber(s: string): (r: Option<int>)
    ensures s == "" ==> r == Some(0)
    ensures r.Some? && s != "" ==>
      (IsDigit(s[0]) || s[0] == '-' || s[0] == '+') && forall i :: 1 <= i < |s| ==> IsDigit(s[i])
    ensures r.Some? && r.value < 0 ==> s != "" && s[0] == '-'
  {
    if s == [] then Some(0)
    else if s[0] == '-' && IsDigits(s[1..]) then Some(0 - DigitsValue(s[1..]) as int)
    else if s[0] == '+' && IsDigits(s[1..]) then Some(DigitsValue(s[1..]))
    else if IsDigits(s) then Some(DigitsValue(s))
    else None
  }

  function DigitChar(d: nat): char
    requires d < 10
  {
    ('0' as int + d) as char
  }

  /** The decimal digits of a natural number, most significant first. */
  function NatDigits(n: nat): (t: string)
    ensures IsDigits(t)
  {
    if n < 10 then [DigitChar(n)] else NatDigits(n / 10) + [DigitChar(n % 10)]
  }

  /** The canonical decimal numeral of an integer, as a client writes it
      in a query string. */
  function DecimalString(n: int): string
  {
    if n < 0 then "-" + NatDigits(-n) else NatDigits(n)
  }

  lemma {:induction false} NatDigitsValue(n: nat)
    ensures DigitsValue(NatDigits(n)) == n
  {
    if n >= 10 {
      NatDigitsValue(n / 10);
      var t := NatDigits(n);
      assert t[..|t| - 1] == NatDigits(n / 10);
    }
  }

  /** Converting the numeral of any integer gives that integer back. */
  lemma {:induction false} ToNumberDecimal(n: int)
    ensures ToNumber(DecimalString(n)) == Some(n)
  {
    if n < 0 {
      NatDigitsValue(-n);
      assert DecimalString(n)[1..] == NatDigits(-n);
    } else {
      NatDigitsValue(n);
    }
  }
}
