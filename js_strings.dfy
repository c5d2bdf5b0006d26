/** The JavaScript string operations the application relies on, over `seq<char>`:
    `trim`, the `\s` class, `toLowerCase`, `startsWith`, `includes`, `split`/`join`
    on one separator character, and the decimal rendering of an integer. */
module JsStrings {

  /** The characters matched by the regular-expression class `\s` and removed by
      `String.prototype.trim`: ECMAScript WhiteSpace and LineTerminator code points. */
  predicate IsWhitespace(c: char) {
    c == '\t' || c == '\n' || c == '\U{B}' || c == '\U{C}' || c == '\r' || c == ' '
    || c == '\U{A0}' || c == '\U{1680}' || ('\U{2000}' <= c <= '\U{200A}')
    || c == '\U{2028}' || c == '\U{2029}' || c == '\U{202F}' || c == '\U{205F}'
    || c == '\U{3000}' || c == '\U{FEFF}'
  }

  predicate AllWhitespace(s: string) {
    forall i :: 0 <= i < |s| ==> IsWhitespace(s[i])
  }

  /** The first position at or after `i` that does not hold whitespace, or `|s|`. */
  function SkipWhitespace(s: string, i: nat): (k: nat)
    requires i <= |s|
    ensures i <= k <= |s|
    ensures forall m :: i <= m < k ==> IsWhitespace(s[m])
    ensures k < |s| ==> !IsWhitespace(s[k])
    decreases |s| - i
  {
    if i == |s| || !IsWhitespace(s[i]) then i else SkipWhitespace(s, i + 1)
  }

  /** The position just after the last character of `s[lo..hi]` that is not whitespace,
      or `lo` when there is none. */
  function SkipWhitespaceBack(s: string, lo: nat, hi: nat): (k: nat)
    requires lo <= hi <= |s|
    ensures lo <= k <= hi
    ensures forall m :: k <= m < hi ==> IsWhitespace(s[m])
    ensures lo < k ==> !IsWhitespace(s[k - 1])
    decreases hi - lo
  {
    if hi == lo || !IsWhitespace(s[hi - 1]) then hi else SkipWhitespaceBack(s, lo, hi - 1)
  }

  /** Drops all leading whitespace, as a leading `\s*` in a regular expression does. */
  function TrimStart(s: string): (r: string)
    ensures |r| <= |s| && r == s[|s| - |r|..]
    ensures AllWhitespace(s[..|s| - |r|])
    ensures r == [] || !IsWhitespace(r[0])
  {
    var k := SkipWhitespace(s, 0);
    assert forall m :: 0 <= m < k ==> s[..k][m] == s[m];
    s[k..]
  }

  /** `s.trim()`: `s` without its leading and trailing whitespace. */
  function Trim(s: string): string {
    var start := SkipWhitespace(s, 0);
    s[start..SkipWhitespaceBack(s, start, |s|)]
  }

  /** The trimmed string is the stretch of `s` between an all-whitespace prefix and an
      all-whitespace suffix, and it neither starts nor ends with whitespace; it is
      empty exactly when `s` is all whitespace. */
  lemma TrimSpec(s: string)
    ensures var r := Trim(s);
      && (r == [] <==> AllWhitespace(s))
      && (r != [] ==> !IsWhitespace(r[0]) && !IsWhitespace(r[|r| - 1]))
      && exists i :: 0 <= i <= |s| - |r| && r == s[i..i + |r|]
                     && AllWhitespace(s[..i]) && AllWhitespace(s[i + |r|..])
  {
    var i := SkipWhitespace(s, 0);
    var j := SkipWhitespaceBack(s, i, |s|);
    var r := Trim(s);
    assert r == s[i..j];
    assert AllWhitespace(s[..i]) by {
      assert forall m :: 0 <= m < i ==> s[..i][m] == s[m];
    }
    assert AllWhitespace(s[j..]) by {
      assert forall m :: 0 <= m < |s| - j ==> s[j..][m] == s[j + m];
    }
    if r != [] {
      assert r[0] == s[i] && r[|r| - 1] == s[j - 1];
    } else {
      assert i == j;
    }
  }

  /** The first non-whitespace character of `s` sits right after the whitespace run `ws`. */
  lemma {:induction false} SkipWhitespaceBefore(ws: string, c: char, rest: string, i: nat)
    requires AllWhitespace(ws) && !IsWhitespace(c) && i <= |ws|
    ensures SkipWhitespace(ws + [c] + rest, i) == |ws|
    decreases |ws| - i
  {
    var s := ws + [c] + rest;
    if i < |ws| {
      assert s[i] == ws[i];
      SkipWhitespaceBefore(ws, c, rest, i + 1);
    } else {
      assert s[i] == c;
    }
  }

  /** Trimming puts the first non-whitespace character in front. */
  lemma TrimFirstChar(ws: string, c: char, rest: string)
    requires AllWhitespace(ws) && !IsWhitespace(c)
    ensures var t := Trim(ws + [c] + rest); t != [] && t[0] == c
  {
    var s := ws + [c] + rest;
    SkipWhitespaceBefore(ws, c, rest, 0);
    assert s[|ws|] == c;
  }

  /** Leading whitespace removed from `ws + [c] + rest` leaves `[c] + rest`. */
  lemma TrimStartBefore(ws: string, c: char, rest: string)
    requires AllWhitespace(ws) && !IsWhitespace(c)
    ensures TrimStart(ws + [c] + rest) == [c] + rest
  {
    SkipWhitespaceBefore(ws, c, rest, 0);
    assert (ws + [c] + rest)[|ws|..] == [c] + rest;
  }

  /** A string without whitespace at either end trims to itself. */
  lemma TrimOfTrimmed(s: string)
    requires s != [] && !IsWhitespace(s[0]) && !IsWhitespace(s[|s| - 1])
    ensures Trim(s) == s
  {
    assert SkipWhitespace(s, 0) == 0;
    assert SkipWhitespaceBack(s, 0, |s|) == |s|;
  }

  /** Removing the leading whitespace first does not change the trimmed string. */
  lemma TrimAfterTrimStart(s: string)
    ensures Trim(TrimStart(s)) == Trim(s)
  {
    var k := SkipWhitespace(s, 0);
    var t := s[k..];
    assert TrimStart(s) == t;
    assert SkipWhitespace(t, 0) == 0;
    SkipWhitespaceBackShift(s, k, |s|);
    assert t[0..SkipWhitespaceBack(t, 0, |t|)] == s[k..SkipWhitespaceBack(s, k, |s|)];
  }

  /** Scanning back over a suffix gives the same position, shifted by where it starts. */
  lemma {:induction false} SkipWhitespaceBackShift(s: string, k: nat, hi: nat)
    requires k <= hi <= |s|
    ensures SkipWhitespaceBack(s[k..], 0, hi - k) + k == SkipWhitespaceBack(s, k, hi)
    decreases hi - k
  {
    if hi > k {
      assert s[k..][hi - k - 1] == s[hi - 1];
      if IsWhitespace(s[hi - 1]) {
        SkipWhitespaceBackShift(s, k, hi - 1);
      }
    }
  }

  /** `toLowerCase` on one character; only the ASCII letters are mapped. */
  function LowerChar(c: char): char {
    if 'A' <= c <= 'Z' then (c as int + 32) as char else c
  }

  /** `s.toLowerCase()`, ASCII letters only. */
  function ToLower(s: string): (r: string)
    ensures |r| == |s|
    ensures forall i :: 0 <= i < |s| ==> r[i] == LowerChar(s[i])
  {
    seq(|s|, i requires 0 <= i < |s| => LowerChar(s[i]))
  }

  lemma ToLowerIdempotent(s: string)
    ensures ToLower(ToLower(s)) == ToLower(s)
  {
  }

  /** Lower-casing works character by character, so it distributes over concatenation. */
  lemma ToLowerAppend(a: string, b: string)
    ensures ToLower(a + b) == ToLower(a) + ToLower(b)
  {
  }

  /** Lower-casing is settled character by character. */
  lemma ToLowerByChars(s: string, t: string)
    requires |s| == |t| && forall i :: 0 <= i < |s| ==> LowerChar(s[i]) == t[i]
    ensures ToLower(s) == t
  {
  }

  /** Lower-casing leaves a suffix without capital letters as it is. */
  lemma ToLowerKeepsRest(prefix: string, rest: string)
    requires forall i :: 0 <= i < |rest| ==> !('A' <= rest[i] <= 'Z')
    ensures ToLower(prefix + rest) == ToLower(prefix) + rest
  {
    ToLowerAppend(prefix, rest);
  }

  /** `s.startsWith(prefix)`. */
  predicate StartsWith(s: string, prefix: string) {
    prefix <= s
  }

  /** `sub` occupies the positions `j .. j + |sub|` of `s`. */
  predicate OccursAt(s: string, sub: string, j: nat) {
    j + |sub| <= |s| && s[j..j + |sub|] == sub
  }

  /** An occurrence is established character by character. */
  lemma OccursAtByChars(s: string, sub: string, j: nat)
    requires j + |sub| <= |s|
    requires forall k :: 0 <= k < |sub| ==> s[j + k] == sub[k]
    ensures OccursAt(s, sub, j)
  {
    assert s[j..j + |sub|] == sub;
  }

  /** `s.includes(sub)`: `sub` occupies some stretch of `s`. */
  predicate Contains(s: string, sub: string) {
    exists j :: 0 <= j <= |s| && OccursAt(s, sub, j)
  }

  /** `sub` occurs in `s` at position `i`, compared character by character from
      offset `k` of `sub` onwards. */
  predicate MatchesAt(s: string, sub: string, i: nat, k: nat)
    decreases |sub| - k
  {
    k >= |sub| || (i + k < |s| && s[i + k] == sub[k] && MatchesAt(s, sub, i, k + 1))
  }

  /** The scan that `includes` performs, from position `i` to the right. */
  predicate ContainsFrom(s: string, sub: string, i: nat)
    decreases |s| - i
  {
    i + |sub| <= |s| && (MatchesAt(s, sub, i, 0) || ContainsFrom(s, sub, i + 1))
  }

  lemma {:induction false} MatchesAtIff(s: string, sub: string, i: nat, k: nat)
    requires k <= |sub| && i + |sub| <= |s|
    ensures MatchesAt(s, sub, i, k) <==> s[i + k..i + |sub|] == sub[k..]
    decreases |sub| - k
  {
    if k < |sub| {
      MatchesAtIff(s, sub, i, k + 1);
      assert s[i + k..i + |sub|] == [s[i + k]] + s[i + k + 1..i + |sub|];
      assert sub[k..] == [sub[k]] + sub[k + 1..];
    }
  }

  lemma {:induction false} ContainsFromIff(s: string, sub: string, i: nat)
    ensures ContainsFrom(s, sub, i) <==> exists j :: i <= j <= |s| && OccursAt(s, sub, j)
    decreases |s| - i
  {
    if i + |sub| <= |s| {
      ContainsFromIff(s, sub, i + 1);
      MatchesAtIff(s, sub, i, 0);
      if ContainsFrom(s, sub, i) {
        if MatchesAt(s, sub, i, 0) {
          assert OccursAt(s, sub, i);
        }
      }
      if exists j :: i <= j <= |s| && OccursAt(s, sub, j) {
        var j :| i <= j <= |s| && OccursAt(s, sub, j);
        if j > i {
          assert i + 1 <= j <= |s| && OccursAt(s, sub, j);
        }
      }
    }
  }

  /** The left-to-right scan finds exactly the occurrences `includes` looks for. */
  lemma ScanFindsOccurrence(s: string, sub: string)
    ensures ContainsFrom(s, sub, 0) <==> Contains(s, sub)
  {
    ContainsFromIff(s, sub, 0);
  }

  /** Every character of a contained keyword occurs in the string; so a keyword with a
      character that the string lacks is not contained. */
  lemma ContainedCharsOccur(s: string, sub: string)
    ensures Contains(s, sub) ==> forall c :: c in sub ==> c in s
  {
    if Contains(s, sub) {
      var j :| 0 <= j <= |s| && OccursAt(s, sub, j);
      forall c | c in sub ensures c in s {
        var m :| 0 <= m < |sub| && sub[m] == c;
        assert s[j + m] == s[j..j + |sub|][m];
      }
    }
  }

  /** A keyword with a character outside the alphabet of `s` is not contained in `s`. */
  lemma AbsentChar(s: string, sub: string, c: char, alphabet: set<char>)
    requires forall i :: 0 <= i < |s| ==> s[i] in alphabet
    requires c in sub && c !in alphabet
    ensures !Contains(s, sub)
  {
    ContainedCharsOccur(s, sub);
  }

  /** A keyword whose first two characters never stand side by side in `s` is not
      contained in `s`. */
  lemma AbsentPair(s: string, sub: string)
    requires |sub| >= 2
    requires forall j :: 0 <= j < |s| - 1 ==> !(s[j] == sub[0] && s[j + 1] == sub[1])
    ensures !Contains(s, sub)
  {
    forall j | 0 <= j <= |s| ensures !OccursAt(s, sub, j) {
      if j + |sub| <= |s| {
        assert s[j..j + |sub|][0] == s[j] && s[j..j + |sub|][1] == s[j + 1];
      }
    }
  }

  /** `s.split(sep)` for a one-character separator: the maximal separator-free pieces,
      in order; the empty string gives one empty piece. */
  function Split(s: string, sep: char): (pieces: seq<string>)
    ensures |pieces| >= 1
    ensures forall k :: 0 <= k < |pieces| ==> sep !in pieces[k]
    decreases |s|
  {
    if s == [] then [""]
    else
      var rest := Split(s[1..], sep);
      if s[0] == sep then [""] + rest
      else [[s[0]] + rest[0]] + rest[1..]
  }

  /** `pieces.join(sep)`; the empty list joins to the empty string. */
  function Join(pieces: seq<string>, sep: char): string
    decreases |pieces|
  {
    if pieces == [] then ""
    else if |pieces| == 1 then pieces[0]
    else pieces[0] + [sep] + Join(pieces[1..], sep)
  }

  /** Joining the pieces of a split gives back the original string. */
  lemma {:induction false} JoinSplit(s: string, sep: char)
    ensures Join(Split(s, sep), sep) == s
    decreases |s|
  {
    if s != [] {
      JoinSplit(s[1..], sep);
      var rest := Split(s[1..], sep);
      if s[0] != sep && |rest| > 1 {
        assert Join(rest, sep) == rest[0] + [sep] + Join(rest[1..], sep);
      }
    }
  }

  /** Splitting a join of separator-free pieces gives back the pieces. */
  lemma {:induction false} SplitJoin(pieces: seq<string>, sep: char)
    requires |pieces| >= 1
    requires forall k :: 0 <= k < |pieces| ==> sep !in pieces[k]
    ensures Split(Join(pieces, sep), sep) == pieces
    decreases |pieces|, |pieces[0]|
  {
    if |pieces| == 1 {
      SplitPlain(pieces[0], sep);
    } else if pieces[0] == [] {
      SplitJoin(pieces[1..], sep);
      assert Join(pieces, sep) == [sep] + Join(pieces[1..], sep);
      assert ([sep] + Join(pieces[1..], sep))[1..] == Join(pieces[1..], sep);
    } else {
      var p := pieces[0];
      var shorter := [p[1..]] + pieces[1..];
      SplitJoin(shorter, sep);
      assert Join(shorter, sep) == p[1..] + [sep] + Join(pieces[1..], sep);
      assert Join(pieces, sep) == [p[0]] + Join(shorter, sep);
      assert Join(pieces, sep)[1..] == Join(shorter, sep);
      assert [p[0]] + p[1..] == p;
    }
  }

  /** A string without the separator splits into itself. */
  lemma {:induction false} SplitPlain(s: string, sep: char)
    requires sep !in s
    ensures Split(s, sep) == [s]
    decreases |s|
  {
    if s != [] {
      SplitPlain(s[1..], sep);
      assert [s[0]] + s[1..] == s;
    }
  }

  lemma {:induction false} JoinAppend(a: seq<string>, b: seq<string>, sep: char)
    requires |a| >= 1 && |b| >= 1
    ensures Join(a + b, sep) == Join(a, sep) + [sep] + Join(b, sep)
    decreases |a|
  {
    if |a| > 1 {
      JoinAppend(a[1..], b, sep);
      assert (a + b)[1..] == a[1..] + b;
    }
  }

  /** Splitting distributes over a separator: the lines of `a + sep + b` are the lines
      of `a` followed by the lines of `b`. */
  lemma SplitAppend(a: string, b: string, sep: char)
    ensures Split(a + [sep] + b, sep) == Split(a, sep) + Split(b, sep)
  {
    var pa, pb := Split(a, sep), Split(b, sep);
    JoinSplit(a, sep);
    JoinSplit(b, sep);
    JoinAppend(pa, pb, sep);
    SplitJoin(pa + pb, sep);
  }

  /** The decimal digit for `d`. */
  function DigitChar(d: nat): char
    requires d < 10
  {
    ('0' as int + d) as char
  }

  predicate IsDigit(c: char) {
    '0' <= c <= '9'
  }

  /** The decimal rendering of a natural number, as `String(n)` gives it. */
  function NatToString(n: nat): (s: string)
    ensures |s| >= 1 && forall i :: 0 <= i < |s| ==> IsDigit(s[i])
    ensures n > 0 ==> s[0] != '0'
    decreases n
  {
    if n < 10 then [DigitChar(n)] else NatToString(n / 10) + [DigitChar(n % 10)]
  }

  /** The value of a string of decimal digits. */
  function DigitsValue(s: string): nat
    requires forall i :: 0 <= i < |s| ==> IsDigit(s[i])
    decreases |s|
  {
    if s == [] then 0
    else
      assert IsDigit(s[|s| - 1]);
      10 * DigitsValue(s[..|s| - 1]) + (s[|s| - 1] as int - '0' as int)
  }

  /** Reading back the rendering of `n` gives `n`. */
  lemma {:induction false} NatToStringValue(n: nat)
    ensures DigitsValue(NatToString(n)) == n
    decreases n
  {
    if n >= 10 {
      NatToStringValue(n / 10);
      var s := NatToString(n);
      assert s[..|s| - 1] == NatToString(n / 10);
    }
  }

  /** `${n}` for an integer: a minus sign before the digits of a negative number. */
  function IntToString(n: int): (s: string)
    ensures n >= 0 ==> s == NatToString(n)
    ensures n < 0 ==> s == "-" + NatToString(-n)
    ensures |s| >= 1 && '\n' !in s
  {
    if n < 0 then "-" + NatToString(-n) else NatToString(n)
  }
}
