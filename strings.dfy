/**
 * The string operations of Rust's `str` and Go's `fmt` that the core relies on:
 * `trim`, `trim_end`, `contains`, `replace`, `repeat`, decimal formatting of a
 * counter, and upper-casing (ASCII letters only).
 */
module Strings {

  /** Rust's `char::is_whitespace`: the characters with the Unicode White_Space property. */
  predicate IsWhitespace(c: char) {
    || ('\t' <= c <= '\r')
    || c == ' '
    || c == '\U{0085}'
    || c == '\U{00A0}'
    || c == '\U{1680}'
    || ('\U{2000}' <= c <= '\U{200A}')
    || c == '\U{2028}'
    || c == '\U{2029}'
    || c == '\U{202F}'
    || c == '\U{205F}'
    || c == '\U{3000}'
  }

  predicate AllWhitespace(s: string) {
    forall i :: 0 <= i < |s| ==> IsWhitespace(s[i])
  }

  /** Neither the first nor the last character is whitespace. */
  predicate IsTrimmed(s: string) {
    s == [] || (!IsWhitespace(s[0]) && !IsWhitespace(s[|s| - 1]))
  }

  /** Rust's `str::trim_end`: drops trailing whitespace. */
  function TrimEnd(s: string): string {
    if s == [] || !IsWhitespace(s[|s| - 1]) then s else TrimEnd(s[..|s| - 1])
  }

  /** Rust's `str::trim_start`: drops leading whitespace. */
  function TrimStart(s: string): string {
    if s == [] || !IsWhitespace(s[0]) then s else TrimStart(s[1..])
  }

  /** Rust's `str::trim`: drops whitespace at both ends. */
  function Trim(s: string): string {
    TrimStart(TrimEnd(s))
  }

  /** `trim_end` keeps the longest prefix that does not end in whitespace. */
  lemma {:induction false} TrimEndSpec(s: string)
    ensures TrimEnd(s) <= s
    ensures AllWhitespace(s[|TrimEnd(s)|..])
    ensures TrimEnd(s) == [] || !IsWhitespace(TrimEnd(s)[|TrimEnd(s)| - 1])
  {
    if s != [] && IsWhitespace(s[|s| - 1]) {
      var p := s[..|s| - 1];
      TrimEndSpec(p);
      assert s[|TrimEnd(p)|..] == p[|TrimEnd(p)|..] + [s[|s| - 1]];
    }
  }

  /** `trim_start` keeps the longest suffix that does not start with whitespace. */
  lemma {:induction false} TrimStartSpec(s: string)
    ensures |TrimStart(s)| <= |s| && TrimStart(s) == s[|s| - |TrimStart(s)|..]
    ensures AllWhitespace(s[..|s| - |TrimStart(s)|])
    ensures TrimStart(s) == [] || !IsWhitespace(TrimStart(s)[0])
  {
    if s != [] && IsWhitespace(s[0]) {
      var t := s[1..];
      TrimStartSpec(t);
      assert s[..|s| - |TrimStart(t)|] == [s[0]] + t[..|t| - |TrimStart(t)|];
    }
  }

  /** `trim` leaves no whitespace at either end, and is empty exactly for an all-whitespace input. */
  lemma TrimSpec(s: string)
    ensures |Trim(s)| <= |s|
    ensures IsTrimmed(Trim(s))
    ensures Trim(s) == [] <==> AllWhitespace(s)
  {
    var e := TrimEnd(s);
    TrimEndSpec(s);
    TrimStartSpec(e);
    var r := TrimStart(e);
    if r == [] {
      assert s == e + s[|e|..];
      assert e == e[..|e| - |r|];
    }
  }

  /** Trim strips exactly a whitespace prefix and a whitespace suffix: it is `s[i..j]`. */
  lemma TrimIsInfix(s: string)
    ensures exists i, j :: 0 <= i <= j <= |s| && Trim(s) == s[i..j]
                          && AllWhitespace(s[..i]) && AllWhitespace(s[j..])
  {
    var e := TrimEnd(s);
    TrimEndSpec(s);
    TrimStartSpec(e);
    var r := TrimStart(e);
    var i, j := |e| - |r|, |e|;
    assert s[i..j] == e[i..];
    assert s[..i] == e[..i];
  }

  /** Trimming a trimmed string changes nothing. */
  lemma TrimTrimmed(s: string)
    requires IsTrimmed(s)
    ensures Trim(s) == s
  {
    if s != [] {
      assert TrimEnd(s) == s;
    }
  }

  /**
   * `q` occurs in `s` starting at index `i`.
   */
  predicate OccursAt(s: string, q: string, i: nat) {
    i + |q| <= |s| && s[i..i + |q|] == q
  }

  /** Rust's `str::contains` with a string pattern. */
  predicate Contains(s: string, q: string) {
    exists i: nat :: i <= |s| && OccursAt(s, q, i)
  }

  /** A string placed anywhere inside a concatenation is contained in it. */
  lemma ContainsInfix(a: string, q: string, b: string)
    ensures Contains(a + q + b, q)
  {
    assert OccursAt(a + q + b, q, |a|) by {
      assert (a + q + b)[|a|..|a| + |q|] == q;
    }
  }

  /** Containment is kept when text is added on either side. */
  lemma ContainsWiden(a: string, s: string, b: string, q: string)
    requires Contains(s, q)
    ensures Contains(a + s + b, q)
  {
    var i: nat :| i <= |s| && OccursAt(s, q, i);
    assert (a + s + b)[|a| + i..|a| + i + |q|] == s[i..i + |q|];
    assert OccursAt(a + s + b, q, |a| + i);
  }

  /** Containment is transitive: what occurs in a part occurs in the whole. */
  lemma ContainsTrans(s: string, q: string, m: string)
    requires Contains(s, q) && Contains(q, m)
    ensures Contains(s, m)
  {
    var i: nat :| i <= |s| && OccursAt(s, q, i);
    var j: nat :| j <= |q| && OccursAt(q, m, j);
    assert q == s[i..i + |q|];
    forall k | 0 <= k < |m|
      ensures s[i + j + k] == m[k]
    {
      assert m[k] == q[j..j + |m|][k] == q[j + k] == s[i..i + |q|][j + k];
    }
    assert s[i + j..i + j + |m|] == m;
    assert OccursAt(s, m, i + j);
  }

  /** `pat[k..]` occurs in `s` at index `i + k`, compared character by character. */
  predicate MatchFrom(s: string, pat: string, i: nat, k: nat)
    requires k <= |pat| && i + |pat| <= |s|
    decreases |pat| - k
  {
    k == |pat| || (s[i + k] == pat[k] && MatchFrom(s, pat, i, k + 1))
  }

  /** The matcher's test that `pat` occurs in `s` at index `i`. */
  predicate MatchAt(s: string, pat: string, i: nat) {
    i + |pat| <= |s| && MatchFrom(s, pat, i, 0)
  }

  lemma {:induction false} MatchFromSlice(s: string, pat: string, i: nat, k: nat)
    requires k <= |pat| && i + |pat| <= |s|
    ensures MatchFrom(s, pat, i, k) <==> s[i + k..i + |pat|] == pat[k..]
    decreases |pat| - k
  {
    if k < |pat| {
      MatchFromSlice(s, pat, i, k + 1);
      assert s[i + k..i + |pat|] == [s[i + k]] + s[i + k + 1..i + |pat|];
      assert pat[k..] == [pat[k]] + pat[k + 1..];
    }
  }

  /** The character-by-character test agrees with `OccursAt`. */
  lemma MatchAtOccurs(s: string, pat: string, i: nat)
    ensures MatchAt(s, pat, i) <==> OccursAt(s, pat, i)
  {
    if i + |pat| <= |s| {
      MatchFromSlice(s, pat, i, 0);
    }
  }

  /**
   * Rust's `str::replace` for a non-empty string pattern, scanning from index `i`:
   * every non-overlapping occurrence of `pat`, found left to right, is replaced by
   * `rep`.
   */
  function ReplaceFrom(s: string, pat: string, rep: string, i: nat): string
    requires pat != [] && i <= |s|
    decreases |s| - i
  {
    if |s| - i < |pat| then s[i..]
    else if MatchAt(s, pat, i) then rep + ReplaceFrom(s, pat, rep, i + |pat|)
    else [s[i]] + ReplaceFrom(s, pat, rep, i + 1)
  }

  /** Rust's `str::replace` with the empty pattern: `rep` before every character and at the end. */
  function ReplaceEmpty(s: string, rep: string): string {
    if s == [] then rep else rep + [s[0]] + ReplaceEmpty(s[1..], rep)
  }

  /** Rust's `str::replace`: the scan from the start. */
  function Replace(s: string, pat: string, rep: string): string {
    if pat == [] then ReplaceEmpty(s, rep) else ReplaceFrom(s, pat, rep, 0)
  }

  /** A character where the pattern does not start is copied. */
  lemma ReplaceFromSkip(s: string, pat: string, rep: string, i: nat)
    requires pat != [] && i < |s| && !MatchAt(s, pat, i)
    ensures ReplaceFrom(s, pat, rep, i) == [s[i]] + ReplaceFrom(s, pat, rep, i + 1)
  {
  }

  /** An occurrence of the pattern becomes `rep`, and the scan resumes after it. */
  lemma ReplaceFromMatch(s: string, pat: string, rep: string, i: nat)
    requires pat != [] && MatchAt(s, pat, i)
    ensures ReplaceFrom(s, pat, rep, i) == rep + ReplaceFrom(s, pat, rep, i + |pat|)
  {
  }

  /** Too near the end for an occurrence, the scan copies the rest. */
  lemma ReplaceFromEnd(s: string, pat: string, rep: string, i: nat)
    requires pat != [] && i <= |s| && |s| - i < |pat|
    ensures ReplaceFrom(s, pat, rep, i) == s[i..]
  {
  }

  /** `[s[i]]` in front of a slice starting after it, regrouped. */
  lemma ConsRegroup(s: string, i: nat, k: nat, y: string, z: string)
    requires i < k <= |s|
    ensures [s[i]] + (s[i + 1..k] + y + z) == s[i..k] + y + z
  {
    assert [s[i]] + s[i + 1..k] == s[i..k];
  }

  /** Without an occurrence from index `i` on, the scan copies the rest. */
  lemma {:induction false} ReplaceFromAbsent(s: string, pat: string, rep: string, i: nat)
    requires pat != [] && i <= |s|
    requires forall j :: i <= j <= |s| ==> !OccursAt(s, pat, j)
    ensures ReplaceFrom(s, pat, rep, i) == s[i..]
    decreases |s| - i
  {
    if |s| - i < |pat| {
      ReplaceFromEnd(s, pat, rep, i);
    } else {
      MatchAtOccurs(s, pat, i);
      ReplaceFromSkip(s, pat, rep, i);
      ReplaceFromAbsent(s, pat, rep, i + 1);
      assert [s[i]] + s[i + 1..] == s[i..];
    }
  }

  /** Without an occurrence of a non-empty pattern, `replace` returns its input. */
  lemma ReplaceAbsent(s: string, pat: string, rep: string)
    requires pat != [] && !Contains(s, pat)
    ensures Replace(s, pat, rep) == s
  {
    ReplaceFromAbsent(s, pat, rep, 0);
  }

  /** When the pattern occurs from index `i` on, the replacement text occurs in the scan. */
  lemma {:induction false} ReplaceFromPresent(s: string, pat: string, rep: string, i: nat, k: nat)
    requires pat != [] && i <= k && OccursAt(s, pat, k)
    ensures Contains(ReplaceFrom(s, pat, rep, i), rep)
    decreases k - i
  {
    MatchAtOccurs(s, pat, i);
    if MatchAt(s, pat, i) {
      ReplaceFromMatch(s, pat, rep, i);
      var rest := ReplaceFrom(s, pat, rep, i + |pat|);
      ContainsInfix([], rep, rest);
      assert [] + rep + rest == rep + rest;
    } else {
      ReplaceFromSkip(s, pat, rep, i);
      ReplaceFromPresent(s, pat, rep, i + 1, k);
      var rest := ReplaceFrom(s, pat, rep, i + 1);
      ContainsWiden([s[i]], rest, [], rep);
      assert [s[i]] + rest + [] == [s[i]] + rest;
    }
  }

  /** When the pattern occurs, the replacement text occurs in the result. */
  lemma ReplacePresent(s: string, pat: string, rep: string)
    requires pat != [] && Contains(s, pat)
    ensures Contains(Replace(s, pat, rep), rep)
  {
    var k: nat :| k <= |s| && OccursAt(s, pat, k);
    ReplaceFromPresent(s, pat, rep, 0, k);
  }

  /**
   * The scan from `i` when the pattern next occurs at `k`: the text in between is
   * copied, that occurrence becomes `rep`, and the scan resumes after it.
   */
  lemma {:induction false} ReplaceFromFirst(s: string, pat: string, rep: string, i: nat, k: nat)
    requires pat != [] && i <= k && OccursAt(s, pat, k)
    requires forall j :: i <= j < k ==> !OccursAt(s, pat, j)
    ensures ReplaceFrom(s, pat, rep, i) == s[i..k] + rep + ReplaceFrom(s, pat, rep, k + |pat|)
    decreases k - i
  {
    MatchAtOccurs(s, pat, i);
    if i == k {
      ReplaceFromMatch(s, pat, rep, i);
      assert s[i..k] == [];
    } else {
      ReplaceFromSkip(s, pat, rep, i);
      ReplaceFromFirst(s, pat, rep, i + 1, k);
      ConsRegroup(s, i, k, rep, ReplaceFrom(s, pat, rep, k + |pat|));
    }
  }

  /** `t` is the part of `s` from index `n` on. */
  predicate SuffixAt(s: string, n: nat, t: string) {
    n + |t| == |s| && forall k :: 0 <= k < |t| ==> t[k] == s[n + k]
  }

  /** The end of a concatenation is a suffix of it. */
  lemma SuffixOfConcat(x: string, b: string)
    ensures SuffixAt(x + b, |x|, b)
  {
  }

  /** The matcher's test at a position of the suffix `t` of `s` is its test in `s`. */
  lemma {:induction false} ShiftedMatch(s: string, n: nat, t: string, pat: string, j: nat, k: nat)
    requires SuffixAt(s, n, t) && k <= |pat| && j + |pat| <= |t|
    ensures MatchFrom(s, pat, n + j, k) <==> MatchFrom(t, pat, j, k)
    decreases |pat| - k
  {
    if k < |pat| {
      assert s[n + j + k] == t[j + k];
      ShiftedMatch(s, n, t, pat, j, k + 1);
    }
  }

  /** Equal scans from the positions after a match are equal scans from the match. */
  lemma MatchStep(s: string, t: string, pat: string, rep: string, i: nat, j: nat)
    requires pat != [] && MatchAt(s, pat, i) && MatchAt(t, pat, j)
    requires ReplaceFrom(s, pat, rep, i + |pat|) == ReplaceFrom(t, pat, rep, j + |pat|)
    ensures ReplaceFrom(s, pat, rep, i) == ReplaceFrom(t, pat, rep, j)
  {
    ReplaceFromMatch(s, pat, rep, i);
    ReplaceFromMatch(t, pat, rep, j);
  }

  /** Equal scans after an equal unmatched character are equal scans from it. */
  lemma SkipStep(s: string, t: string, pat: string, rep: string, i: nat, j: nat)
    requires pat != [] && i < |s| && j < |t| && s[i] == t[j]
    requires !MatchAt(s, pat, i) && !MatchAt(t, pat, j)
    requires ReplaceFrom(s, pat, rep, i + 1) == ReplaceFrom(t, pat, rep, j + 1)
    ensures ReplaceFrom(s, pat, rep, i) == ReplaceFrom(t, pat, rep, j)
  {
    ReplaceFromSkip(s, pat, rep, i);
    ReplaceFromSkip(t, pat, rep, j);
  }

  /** Equal short rests are copied alike. */
  lemma EndStep(s: string, t: string, pat: string, rep: string, i: nat, j: nat)
    requires pat != [] && i <= |s| && j <= |t| && |s| - i < |pat| && |t| - j < |pat| && s[i..] == t[j..]
    ensures ReplaceFrom(s, pat, rep, i) == ReplaceFrom(t, pat, rep, j)
  {
    ReplaceFromEnd(s, pat, rep, i);
    ReplaceFromEnd(t, pat, rep, j);
  }

  /** The end of `s` seen as the end of its suffix `t`. */
  lemma ShiftedRest(s: string, n: nat, t: string, j: nat)
    requires SuffixAt(s, n, t) && j <= |t|
    ensures s[n + j..] == t[j..]
  {
  }

  /** The scan of `s` from inside its suffix `t` is the scan of `t`. */
  lemma {:induction false} ReplaceFromShift(s: string, n: nat, t: string, pat: string, rep: string, i: nat, j: nat)
    requires pat != [] && SuffixAt(s, n, t) && j <= |t| && i == n + j
    ensures ReplaceFrom(s, pat, rep, i) == ReplaceFrom(t, pat, rep, j)
    decreases |t| - j, 1
  {
    if |t| - j < |pat| {
      ShiftedRest(s, n, t, j);
      EndStep(s, t, pat, rep, i, j);
    } else {
      ShiftedMatch(s, n, t, pat, j, 0);
      if MatchAt(t, pat, j) {
        ShiftMatch(s, n, t, pat, rep, i, j);
      } else {
        ShiftSkip(s, n, t, pat, rep, i, j);
      }
    }
  }

  /** The shift at a match. */
  lemma {:induction false} ShiftMatch(s: string, n: nat, t: string, pat: string, rep: string, i: nat, j: nat)
    requires pat != [] && SuffixAt(s, n, t) && i == n + j && MatchAt(s, pat, i) && MatchAt(t, pat, j)
    ensures ReplaceFrom(s, pat, rep, i) == ReplaceFrom(t, pat, rep, j)
    decreases |t| - j, 0
  {
    ReplaceFromShift(s, n, t, pat, rep, i + |pat|, j + |pat|);
    MatchStep(s, t, pat, rep, i, j);
  }

  /** The shift at a copied character. */
  lemma {:induction false} ShiftSkip(s: string, n: nat, t: string, pat: string, rep: string, i: nat, j: nat)
    requires pat != [] && SuffixAt(s, n, t) && i == n + j && j < |t|
    requires !MatchAt(s, pat, i) && !MatchAt(t, pat, j)
    ensures ReplaceFrom(s, pat, rep, i) == ReplaceFrom(t, pat, rep, j)
    decreases |t| - j, 0
  {
    ReplaceFromShift(s, n, t, pat, rep, i + 1, j + 1);
    SkipStep(s, t, pat, rep, i, j);
  }

  /** A pattern cannot start where its first character does not occur. */
  lemma NoOccurrenceBefore(s: string, pat: string, n: nat)
    requires pat != [] && forall k :: 0 <= k < n && k < |s| ==> s[k] != pat[0]
    ensures forall i :: 0 <= i < n ==> !OccursAt(s, pat, i)
  {
    forall i | 0 <= i < n
      ensures !OccursAt(s, pat, i)
    {
      if i + |pat| <= |s| {
        assert s[i..i + |pat|][0] == s[i] != pat[0];
      }
    }
  }

  /**
   * `replace` works left to right: when the pattern first occurs right after the
   * prefix `a`, the prefix is kept, that occurrence becomes `rep`, and the rest is
   * replaced on its own.
   */
  lemma ReplaceFirst(a: string, pat: string, b: string, rep: string)
    requires pat != []
    requires forall i :: 0 <= i < |a| ==> !OccursAt(a + pat + b, pat, i)
    ensures Replace(a + pat + b, pat, rep) == a + rep + Replace(b, pat, rep)
  {
    var s := a + pat + b;
    assert s[|a|..|a| + |pat|] == pat;
    ReplaceFromFirst(s, pat, rep, 0, |a|);
    assert s[..|a|] == a;
    assert s == (a + pat) + b;
    SuffixOfConcat(a + pat, b);
    ReplaceFromShift(s, |a| + |pat|, b, pat, rep, |a| + |pat|, 0);
  }

  /** Rust's `str::repeat` on a one-character string. */
  function Repeat(c: char, n: nat): (r: string)
    ensures |r| == n
    ensures forall i :: 0 <= i < n ==> r[i] == c
  {
    if n == 0 then [] else Repeat(c, n - 1) + [c]
  }

  /** The decimal digit for `d`. */
  function DigitChar(d: nat): (c: char)
    requires d < 10
    ensures '0' <= c <= '9'
  {
    ('0' as int + d) as char
  }

  /** Decimal formatting of a natural number, as Rust's `{}` and Go's `%d` print it. */
  function NatToString(n: nat): (r: string)
    ensures |r| >= 1
    ensures forall i :: 0 <= i < |r| ==> '0' <= r[i] <= '9'
    ensures r[0] == '0' ==> n == 0
  {
    if n < 10 then [DigitChar(n)] else NatToString(n / 10) + [DigitChar(n % 10)]
  }

  /** The value of a string of decimal digits: the inverse of NatToString. */
  function DecimalValue(s: string): nat
    requires forall i :: 0 <= i < |s| ==> '0' <= s[i] <= '9'
  {
    if s == [] then 0 else DecimalValue(s[..|s| - 1]) * 10 + (s[|s| - 1] as int - '0' as int)
  }

  lemma {:induction false} NatToStringRoundTrip(n: nat)
    ensures DecimalValue(NatToString(n)) == n
  {
    if n >= 10 {
      var r := NatToString(n);
      assert r[..|r| - 1] == NatToString(n / 10);
      NatToStringRoundTrip(n / 10);
    }
  }

  /** Distinct counters print differently. */
  lemma NatToStringInjective(m: nat, n: nat)
    requires NatToString(m) == NatToString(n)
    ensures m == n
  {
    NatToStringRoundTrip(m);
    NatToStringRoundTrip(n);
  }

  /** Upper-casing of one character; only the ASCII letters change. */
  function ToUpperChar(c: char): char {
    if 'a' <= c <= 'z' then (c as int - 'a' as int + 'A' as int) as char else c
  }

  /** Upper-casing of a string, character by character. */
  function ToUpper(s: string): string {
    seq(|s|, i requires 0 <= i < |s| => ToUpperChar(s[i]))
  }

  /** The upper-cased string has the same length and no lower-case ASCII letter. */
  lemma ToUpperNoLower(s: string)
    ensures |ToUpper(s)| == |s|
    ensures forall i :: 0 <= i < |s| ==> !('a' <= ToUpper(s)[i] <= 'z')
  {
  }

  /** Upper-casing is idempotent. */
  lemma ToUpperIdempotent(s: string)
    ensures ToUpper(ToUpper(s)) == ToUpper(s)
  {
  }
}
