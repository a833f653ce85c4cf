// The "advanced filtering" rewrite of the query translator: every
// stand-alone word `gte`, `gt`, `lte` or `lt` gets a `$` in front, turning a
// parsed query string such as `{duration: {gte: "10"}}` into the document
// database's comparison operators `{duration: {$gte: "10"}}`.
//
// The source runs the regular expression /\b(gte|gt|lte|lt)\b/g over the
// JSON text of the filter object; quotes, colons, commas and braces are not
// word characters, so that is the same as running it over every key and every
// string value on its own, which is what this module does. The one exception
// is a control character right before a word: JSON writes it as an escape
// such as `\n` or `\u001f`, whose letters or digits join the word in the
// JSON text, so there the source leaves the word alone.
//
// Three definitions of the rewrite are related here:
//   * ScanReplace  — the regular-expression engine, character by character;
//   * Wordwise     — the meaning: cut the text into maximal words and
//                    prefix the words that are operators;
//   * StripSigils  — the inverse, which takes the inserted `$` out again.

module OperatorRewrite {
  import opened JsText

  /** The alternatives of the regular expression, in the order it tries them. */
  const Operators: seq<string> := ["gte", "gt", "lte", "lt"]

  /** The length of the first alternative that matches at the start of `s`
      and is followed by a word boundary (`(gte|gt|lte|lt)\b`), or 0. */
  function MatchLength(s: string, alts: seq<string>): (n: nat)
    ensures n <= |s|
  {
    if alts == [] then 0
    else
      var a := alts[0];
      if a <= s && (|s| == |a| || !IsWordChar(s[|a|])) then |a|
      else MatchLength(s, alts[1..])
  }

  /** `s.replace(/\b(gte|gt|lte|lt)\b/g, m => "$" + m)`. `afterWord` says
      whether the character before `s` is a word character, which decides
      whether there is a word boundary in front of `s[0]`. After a match
      the scan resumes behind it; otherwise one character is copied. */
  function ScanReplace(s: string, afterWord: bool): string
    decreases |s|
  {
    if s == [] then []
    else
      var n := if afterWord then 0 else MatchLength(s, Operators);
      if n > 0 then "$" + s[..n] + ScanReplace(s[n..], true)
      else [s[0]] + ScanReplace(s[1..], IsWordChar(s[0]))
  }

  /** The length of the maximal run of word characters at the start of `s`. */
  function WordLength(s: string): (n: nat)
    ensures n <= |s|
    ensures n == 0 <==> s == [] || !IsWordChar(s[0])
    ensures n < |s| ==> !IsWordChar(s[n])
  {
    if s == [] || !IsWordChar(s[0]) then 0 else 1 + WordLength(s[1..])
  }

  /** A whole word as the rewrite leaves it: `$` in front of an operator. */
  function Prefixed(w: string): string
  {
    if w in Operators then "$" + w else w
  }

  /** The word-level reading: copy every non-word character, copy every
      maximal word, and put `$` in front of the words that are operators. */
  function Wordwise(s: string): string
    decreases |s|
  {
    if s == [] then []
    else if !IsWordChar(s[0]) then [s[0]] + Wordwise(s[1..])
    else
      var n := WordLength(s);
      Prefixed(s[..n]) + Wordwise(s[n..])
  }

  /** `s` begins with a whole word that is an operator. */
  predicate StartsWithOperator(s: string) {
    s[..WordLength(s)] in Operators
  }

  /** Takes out the `$` in front of every whole operator word. */
  function StripSigils(s: string): string
  {
    if s == [] then []
    else if s[0] == '$' && StartsWithOperator(s[1..]) then StripSigils(s[1..])
    else [s[0]] + StripSigils(s[1..])
  }

  // ---------------------------------------------------------------------
  // The regular expression matches exactly the whole operator words.

  /** When every alternative is a non-empty word, an alternative matches at
      the start of `s` exactly when the first word of `s` is one of them. */
  lemma {:induction false} MatchLengthIsWholeWord(s: string, alts: seq<string>)
    requires forall a :: a in alts ==> |a| > 0 && forall i :: 0 <= i < |a| ==> IsWordChar(a[i])
    ensures MatchLength(s, alts) == (if s[..WordLength(s)] in alts then WordLength(s) else 0)
  {
    if alts != [] {
      var a := alts[0];
      var n := WordLength(s);
      assert a in alts;
      if a <= s && (|s| == |a| || !IsWordChar(s[|a|])) {
        assert s == a + s[|a|..];
        WordLengthOfWord(a, s[|a|..]);
        assert s[..n] == a;
      } else {
        MatchLengthIsWholeWord(s, alts[1..]);
        assert s[..n] in alts <==> s[..n] in alts[1..];
      }
    }
  }

  lemma OperatorsAreWords()
    ensures forall a :: a in Operators ==> |a| > 0 && forall i :: 0 <= i < |a| ==> IsWordChar(a[i])
  {
  }

  /** Once inside a word the scan only copies, up to the end of the word. */
  lemma {:induction false} ScanCopiesWord(x: string, m: nat)
    requires m <= WordLength(x)
    ensures ScanReplace(x, true) == x[..m] + ScanReplace(x[m..], true)
  {
    if m > 0 {
      ScanCopiesWord(x[1..], m - 1);
      assert x[1..][m - 1..] == x[m..];
      assert x[..m] == [x[0]] + x[1..][..m - 1];
    }
  }

  /** At a word boundary before a non-word character, whether the previous
      character was a word character makes no difference. */
  lemma {:induction false} ScanAtBoundary(x: string)
    requires x == [] || !IsWordChar(x[0])
    ensures ScanReplace(x, true) == ScanReplace(x, false)
  {
    if x != [] {
      OperatorsAreWords();
      MatchLengthIsWholeWord(x, Operators);
      assert x[..WordLength(x)] == [];
    }
  }

  /** Where the scan may start a match, it matches exactly a whole operator
      word. */
  lemma {:induction false} MatchAtStart(s: string)
    requires s != []
    ensures MatchLength(s, Operators)
      == if IsWordChar(s[0]) && s[..WordLength(s)] in Operators then WordLength(s) else 0
  {
    OperatorsAreWords();
    MatchLengthIsWholeWord(s, Operators);
    if !IsWordChar(s[0]) {
      assert s[..WordLength(s)] == [];
    }
  }

  /** The scan on a text that starts with a word that is an operator. */
  lemma {:induction false} ScanOperatorWord(s: string)
    requires s != [] && IsWordChar(s[0]) && s[..WordLength(s)] in Operators
    ensures ScanReplace(s, false)
      == "$" + s[..WordLength(s)] + ScanReplace(s[WordLength(s)..], false)
  {
    MatchAtStart(s);
    ScanAtBoundary(s[WordLength(s)..]);
  }

  /** Where nothing matches, the scan copies one character. */
  lemma {:induction false} ScanNoMatch(s: string)
    requires s != [] && MatchLength(s, Operators) == 0
    ensures ScanReplace(s, false) == [s[0]] + ScanReplace(s[1..], IsWordChar(s[0]))
  {
  }

  /** The scan on a text that starts with a word that is not an operator. */
  lemma {:induction false} ScanPlainWord(s: string)
    requires s != [] && IsWordChar(s[0]) && MatchLength(s, Operators) == 0
    ensures ScanReplace(s, false) == s[..WordLength(s)] + ScanReplace(s[WordLength(s)..], false)
  {
    var n := WordLength(s);
    var t := s[1..];
    var tail := ScanReplace(s[n..], true);
    ScanNoMatch(s);
    assert n == 1 + WordLength(t);
    ScanCopiesWord(t, n - 1);
    assert t[n - 1..] == s[n..];
    assert ScanReplace(t, true) == t[..n - 1] + tail;
    assert [s[0]] + t[..n - 1] == s[..n];
    assert [s[0]] + (t[..n - 1] + tail) == s[..n] + tail;
    ScanAtBoundary(s[n..]);
  }

  /** The regular expression rewrites exactly the whole operator words. */
  lemma {:induction false} ScanIsWordwise(s: string)
    ensures ScanReplace(s, false) == Wordwise(s)
    decreases |s|
  {
    if s != [] {
      if !IsWordChar(s[0]) {
        MatchAtStart(s);
        ScanIsWordwise(s[1..]);
      } else {
        var n := WordLength(s);
        ScanIsWordwise(s[n..]);
        if s[..n] in Operators {
          ScanOperatorWord(s);
        } else {
          MatchAtStart(s);
          ScanPlainWord(s);
        }
      }
    }
  }

  // ---------------------------------------------------------------------
  // The rewrite can be undone, so it never merges two different texts.

  /** `StripSigils` copies a word that has no `$`. */
  lemma {:induction false} StripCopies(w: string, y: string)
    requires '$' !in w
    ensures StripSigils(w + y) == w + StripSigils(y)
  {
    if w != [] {
      assert w == [w[0]] + w[1..];
      assert w[0] in w;
      StripCopies(w[1..], y);
      var s := w + y;
      assert s[1..] == w[1..] + y;
      assert s[0] == w[0] != '$';
      assert StripSigils(s) == [w[0]] + StripSigils(s[1..]);
      assert [w[0]] + (w[1..] + StripSigils(y)) == w + StripSigils(y);
    } else {
      assert w + y == y;
    }
  }

  /** A word followed by the end or a non-word character is the first word. */
  lemma {:induction false} WordLengthOfWord(w: string, y: string)
    requires forall i :: 0 <= i < |w| ==> IsWordChar(w[i])
    requires y == [] || !IsWordChar(y[0])
    ensures WordLength(w + y) == |w|
  {
    if w == [] {
      assert w + y == y;
    } else {
      WordLengthOfWord(w[1..], y);
      assert (w + y)[0] == w[0];
      assert (w + y)[1..] == w[1..] + y;
    }
  }

  /** The first word consists of word characters only. */
  lemma {:induction false} FirstWordChars(s: string)
    ensures forall i :: 0 <= i < WordLength(s) ==> IsWordChar(s[i])
  {
    if WordLength(s) > 0 {
      FirstWordChars(s[1..]);
    }
  }

  /** The rewritten text starts with the same kind of character: empty for
      empty, the same non-word character, a `$` or the same word. */
  lemma {:induction false} WordwiseStart(s: string)
    requires s == [] || !IsWordChar(s[0])
    ensures Wordwise(s) == [] || !IsWordChar(Wordwise(s)[0])
  {
  }

  /** The rewritten text never begins with an operator word: a rewritten
      operator is behind a `$`. */
  lemma {:induction false} WordwiseNoLeadingOperator(s: string)
    ensures !StartsWithOperator(Wordwise(s))
  {
    var r := Wordwise(s);
    if s != [] {
      if !IsWordChar(s[0]) {
        assert r[0] == s[0];
        assert WordLength(r) == 0;
      } else {
        var n := WordLength(s);
        var w := s[..n];
        if w in Operators {
          assert r[0] == '$';
          assert WordLength(r) == 0;
        } else {
          WordwiseStart(s[n..]);
          FirstWordChars(s);
          WordLengthOfWord(w, Wordwise(s[n..]));
          assert r[..n] == w;
        }
      }
    }
  }

  /** A word has no `$`. */
  lemma {:induction false} WordHasNoSigil(w: string)
    requires forall i :: 0 <= i < |w| ==> IsWordChar(w[i])
    ensures '$' !in w
  {
    forall i | 0 <= i < |w| ensures w[i] != '$' { assert IsWordChar(w[i]); }
  }

  /** Stripping after an inserted `$`: the operator word comes back. */
  lemma {:induction false} StripOperatorWord(w: string, rest: string)
    requires w in Operators
    requires rest == [] || !IsWordChar(rest[0])
    ensures StripSigils("$" + (w + rest)) == w + StripSigils(rest)
  {
    OperatorsAreWords();
    WordLengthOfWord(w, rest);
    var r := "$" + (w + rest);
    assert r[1..] == w + rest;
    assert (w + rest)[..|w|] == w;
    assert StripSigils(r) == StripSigils(w + rest);
    WordHasNoSigil(w);
    StripCopies(w, rest);
  }

  /** Stripping a rewritten text that starts with a non-word character. */
  lemma {:induction false} StripAfterNonWord(s: string)
    requires s != [] && !IsWordChar(s[0])
    requires StripSigils(Wordwise(s[1..])) == s[1..]
    ensures StripSigils(Wordwise(s)) == s
  {
    WordwiseNoLeadingOperator(s[1..]);
    var r := Wordwise(s);
    assert r == [s[0]] + Wordwise(s[1..]);
    assert r[1..] == Wordwise(s[1..]);
    assert s == [s[0]] + s[1..];
  }

  /** Stripping after a whole word, prefixed or not, gives the word back. */
  lemma {:induction false} StripPrefixed(w: string, rest: string)
    requires forall i :: 0 <= i < |w| ==> IsWordChar(w[i])
    requires rest == [] || !IsWordChar(rest[0])
    ensures StripSigils(Prefixed(w) + rest) == w + StripSigils(rest)
  {
    if w in Operators {
      assert "$" + w + rest == "$" + (w + rest);
      StripOperatorWord(w, rest);
    } else {
      WordHasNoSigil(w);
      StripCopies(w, rest);
    }
  }

  /** Stripping a rewritten text that starts with a word. */
  lemma {:induction false} StripAfterWord(s: string)
    requires s != [] && IsWordChar(s[0])
    requires StripSigils(Wordwise(s[WordLength(s)..])) == s[WordLength(s)..]
    ensures StripSigils(Wordwise(s)) == s
  {
    var n := WordLength(s);
    var w := s[..n];
    var rest := Wordwise(s[n..]);
    assert Wordwise(s) == Prefixed(w) + rest;
    WordwiseStart(s[n..]);
    FirstWordChars(s);
    assert forall i :: 0 <= i < |w| ==> IsWordChar(w[i]);
    StripPrefixed(w, rest);
    assert s == w + s[n..];
  }

  /** Taking the `$` signs out again gives back the original text. */
  lemma {:induction false} StripWordwise(s: string)
    ensures StripSigils(Wordwise(s)) == s
    decreases |s|
  {
    if s != [] {
      if !IsWordChar(s[0]) {
        StripWordwise(s[1..]);
        StripAfterNonWord(s);
      } else {
        StripWordwise(s[WordLength(s)..]);
        StripAfterWord(s);
      }
    }
  }

  /** The rewrite applied to a key or a string value. Its meaning is the
      word-level reading, and it can be undone. */
  function Rewrite(s: string): (r: string)
    ensures r == Wordwise(s)
    ensures StripSigils(r) == s
  {
    ScanIsWordwise(s);
    StripWordwise(s);
    ScanReplace(s, false)
  }

  /** A single word is prefixed when it is one of the four operators and
      left alone otherwise, so `lt` becomes `$lt` while `ltd` or `budget`
      stay as they are. */
  lemma {:induction false} RewriteWord(w: string)
    requires |w| > 0 && forall i :: 0 <= i < |w| ==> IsWordChar(w[i])
    ensures Rewrite(w) == if w in Operators then "$" + w else w
  {
    WordLengthOfWord(w, []);
    assert w + [] == w;
    assert w[..|w|] == w && w[|w|..] == [];
    assert Wordwise(w) == Prefixed(w) + Wordwise([]);
  }

  /** Two different texts never rewrite to the same text. */
  lemma {:induction false} RewriteInjective(a: string, b: string)
    requires Rewrite(a) == Rewrite(b)
    ensures a == b
  {
  }

  /** A text without `$` is its own preimage. */
  lemma {:induction false} StripNoSigil(s: string)
    requires '$' !in s
    ensures StripSigils(s) == s
  {
    StripCopies(s, []);
    assert s + [] == s;
  }

  // ---------------------------------------------------------------------
  // The parsed query string.

  /** A value of the parsed query string: a string, or a nested object such
      as the `{gte: "10"}` of `duration[gte]=10`. */
  datatype Value = Str(s: string) | Obj(fields: map<string, Value>)

  /** The rewrite applied to every key and every string of a value. */
  function RewriteValue(v: Value): (r: Value)
    ensures r.Str? <==> v.Str?
    ensures v.Str? ==> r.s == Wordwise(v.s)
    ensures v.Obj? ==> forall k :: k in v.fields ==>
      Wordwise(k) in r.fields && r.fields[Wordwise(k)] == RewriteValue(v.fields[k])
    decreases v, 1
  {
    match v
    case Str(s) => Str(Rewrite(s))
    case Obj(m) => Obj(RewriteObject(m))
  }

  /** The rewrite applied to an object: key `k` becomes `Rewrite(k)`. No two
      keys collide, so no entry is lost when the JSON text is read back. */
  function RewriteObject(m: map<string, Value>): (r: map<string, Value>)
    ensures forall k :: k in m ==> Rewrite(k) in r && r[Rewrite(k)] == RewriteValue(m[k])
    ensures forall k' :: k' in r ==> StripSigils(k') in m && Rewrite(StripSigils(k')) == k'
    decreases Obj(m), 0
  {
    map k | k in m :: Rewrite(k) := RewriteValue(m[k])
  }

  /** An object with one entry rewrites to an object with one entry. */
  lemma {:induction false} RewriteSingleton(k: string, v: Value)
    ensures RewriteObject(map[k := v]) == map[Rewrite(k) := RewriteValue(v)]
  {
    assert RewriteObject(map[k := v]).Keys == {Rewrite(k)};
  }

  /** Takes the inserted `$` signs out of every key and every string of a
      value. Only keys that are the rewrite of some key are kept, so no two
      of them strip to the same key. */
  function StripValue(v: Value): Value
    decreases v, 1
  {
    match v
    case Str(s) => Str(StripSigils(s))
    case Obj(m) => Obj(StripObject(m))
  }

  function StripObject(m: map<string, Value>): map<string, Value>
    decreases Obj(m), 0
  {
    map k | k in m && Rewrite(StripSigils(k)) == k :: StripSigils(k) := StripValue(m[k])
  }

  /** Stripping undoes the rewrite at every depth of a value: no key, no
      string and no nesting is lost. */
  lemma {:induction false} StripRewriteValue(v: Value)
    ensures StripValue(RewriteValue(v)) == v
    decreases v
  {
    match v
    case Str(s) =>
    case Obj(m) =>
      forall k | k in m
        ensures StripValue(RewriteValue(m[k])) == m[k]
      {
        StripRewriteValue(m[k]);
      }
      var r := RewriteObject(m);
      var back := StripObject(r);
      assert forall k :: k in m ==> Rewrite(k) in r && StripSigils(Rewrite(k)) == k;
      assert back.Keys == m.Keys;
      assert forall k :: k in m ==> back[k] == m[k];
  }
}
