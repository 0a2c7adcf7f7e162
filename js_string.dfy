/** The JavaScript string operations the application relies on, stated over
    `seq<char>`: `\s` and `trim`, `indexOf`, the first-occurrence `replace`
    with a string pattern (including its `$` replacement patterns), and the
    decimal rendering of a non-negative integer in a template literal. */
module JsString {
  import opened Wrappers

  /** The characters matched by `\s` in a regular expression and removed by
      `String.prototype.trim`: the WhiteSpace and LineTerminator code points
      of ECMA-262 (sections 12.2 and 12.3), Unicode category Zs included. */
  predicate IsWs(c: char) {
    || c == '\t' || c == '\n' || c == '\U{000B}' || c == '\U{000C}' || c == '\r'
    || c == ' ' || c == '\U{00A0}' || c == '\U{1680}'
    || ('\U{2000}' <= c <= '\U{200A}')
    || c == '\U{2028}' || c == '\U{2029}' || c == '\U{202F}' || c == '\U{205F}'
    || c == '\U{3000}' || c == '\U{FEFF}'
  }

  predicate AllWs(s: string) {
    forall i :: 0 <= i < |s| ==> IsWs(s[i])
  }

  /** Neither end of `s` is white space. */
  predicate Trimmed(s: string) {
    s == [] || (!IsWs(s[0]) && !IsWs(s[|s| - 1]))
  }

  /** The index greedy `\s*` reaches when it starts at `i`. */
  function SkipWs(s: string, i: nat): (j: nat)
    requires i <= |s|
    ensures i <= j <= |s|
    ensures forall k :: i <= k < j ==> IsWs(s[k])
    ensures j == |s| || !IsWs(s[j])
    decreases |s| - i
  {
    if i < |s| && IsWs(s[i]) then SkipWs(s, i + 1) else i
  }

  /** The index that stripping white space backwards from `j` reaches, not going below `lo`. */
  function BackWs(s: string, lo: nat, j: nat): (k: nat)
    requires lo <= j <= |s|
    ensures lo <= k <= j
    ensures forall m :: k <= m < j ==> IsWs(s[m])
    ensures k == lo || !IsWs(s[k - 1])
    decreases j
  {
    if j > lo && IsWs(s[j - 1]) then BackWs(s, lo, j - 1) else j
  }

  /** Where the trimmed text starts and ends. */
  function TrimLo(s: string): nat { SkipWs(s, 0) }

  function TrimHi(s: string): (hi: nat)
    ensures TrimLo(s) <= hi <= |s|
  {
    BackWs(s, TrimLo(s), |s|)
  }

  /** `String.prototype.trim`. */
  function Trim(s: string): string {
    s[TrimLo(s)..TrimHi(s)]
  }

  /** `Trim` removes exactly white space: the input is white space, the
      result, white space, and the result has no white space at either end. */
  lemma TrimSplits(s: string)
    ensures s == s[..TrimLo(s)] + Trim(s) + s[TrimHi(s)..]
    ensures AllWs(s[..TrimLo(s)]) && AllWs(s[TrimHi(s)..])
    ensures Trimmed(Trim(s))
  {
    var lo, hi := TrimLo(s), TrimHi(s);
    assert s == s[..lo] + s[lo..hi] + s[hi..];
    assert forall i :: 0 <= i < lo ==> s[..lo][i] == s[i];
    assert forall i :: 0 <= i < |s| - hi ==> s[hi..][i] == s[hi + i];
  }

  /** Any split of `s` into white space, a trimmed middle and white space has
      the trimmed text as its middle. */
  lemma TrimUnique(p: string, m: string, q: string)
    requires AllWs(p) && AllWs(q) && Trimmed(m)
    ensures Trim(p + m + q) == m
  {
    var s := p + m + q;
    assert forall i :: 0 <= i < |p| ==> s[i] == p[i];
    assert forall i :: 0 <= i < |m| ==> s[|p| + i] == m[i];
    assert forall i :: 0 <= i < |q| ==> s[|p| + |m| + i] == q[i];
    var lo, hi := TrimLo(s), TrimHi(s);
    if m == [] {
      assert forall i :: 0 <= i < |s| ==> IsWs(s[i]);
    } else {
      assert !IsWs(s[|p|]) && !IsWs(s[|p| + |m| - 1]);
      assert lo == |p|;
      assert hi == |p| + |m|;
    }
    assert s[lo..hi] == m;
  }

  /** White space added at either end does not change the trimmed text. */
  lemma TrimIgnoresWs(p: string, s: string, q: string)
    requires AllWs(p) && AllWs(q)
    ensures Trim(p + s + q) == Trim(s)
  {
    TrimSplits(s);
    var a, t, b := s[..TrimLo(s)], Trim(s), s[TrimHi(s)..];
    assert AllWs(p + a) by {
      forall i | 0 <= i < |p + a| ensures IsWs((p + a)[i]) {
        if i < |p| { assert (p + a)[i] == p[i]; } else { assert (p + a)[i] == a[i - |p|]; }
      }
    }
    assert AllWs(b + q) by {
      forall i | 0 <= i < |b + q| ensures IsWs((b + q)[i]) {
        if i < |b| { assert (b + q)[i] == b[i]; } else { assert (b + q)[i] == q[i - |b|]; }
      }
    }
    assert p + s + q == (p + a) + t + (b + q);
    TrimUnique(p + a, t, b + q);
  }

  /** The parts of `parts`, one after the other. */
  function Concat(parts: seq<string>): string {
    if parts == [] then [] else Concat(parts[..|parts| - 1]) + parts[|parts| - 1]
  }

  /** The middle part of a three-part concatenation, cut back out. */
  lemma SliceMiddle(a: string, b: string, c: string)
    ensures (a + b + c)[|a|..|a| + |b|] == b
  {
  }

  /** `s` holds `p` at index `i`. */
  predicate At(s: string, i: nat, p: string) {
    i + |p| <= |s| && s[i..i + |p|] == p
  }

  /** The position `String.prototype.indexOf(p, from)` reports: the first
      index at or after `from` where `p` occurs. */
  function IndexOf(s: string, p: string, from: nat): (r: Option<nat>)
    ensures r.Some? ==> from <= r.value && At(s, r.value, p)
    ensures r.Some? ==> forall k :: from <= k < r.value ==> !At(s, k, p)
    ensures r.None? ==> forall k :: from <= k ==> !At(s, k, p)
    decreases |s| - from
  {
    if from + |p| > |s| then None
    else if At(s, from, p) then Some(from)
    else IndexOf(s, p, from + 1)
  }

  /** The last index of the character `c` in `s`. */
  function LastIndexOf(s: string, c: char): (r: Option<nat>)
    ensures r.Some? ==> r.value < |s| && s[r.value] == c
    ensures r.Some? ==> forall k :: r.value < k < |s| ==> s[k] != c
    ensures r.None? ==> c !in s
  {
    if s == [] then None
    else if s[|s| - 1] == c then Some(|s| - 1)
    else
      var r := LastIndexOf(s[..|s| - 1], c);
      assert s == s[..|s| - 1] + [s[|s| - 1]];
      r
  }

  /** The first index at or after `from` holding the character `c`. */
  function IndexOfChar(s: string, c: char, from: nat): (r: Option<nat>)
    ensures r.Some? ==> from <= r.value < |s| && s[r.value] == c
    ensures r.Some? ==> forall k :: from <= k < r.value ==> s[k] != c
    ensures r.None? ==> forall k :: from <= k < |s| ==> s[k] != c
    decreases |s| - from
  {
    if from >= |s| then None
    else if s[from] == c then Some(from)
    else IndexOfChar(s, c, from + 1)
  }

  predicate Contains(s: string, p: string) {
    exists k :: 0 <= k <= |s| && At(s, k, p)
  }

  /** Every index at which `p` occurs in `s`. */
  function Occurrences(s: string, p: string): set<nat> {
    set k: nat | k <= |s| && At(s, k, p)
  }

  /** The replacement text of a `replace` call with a string pattern, after
      the `$` patterns are expanded (GetSubstitution, section 22.1.3.18.1 of
      ECMA-262, 2022 edition, with no captures and no named groups): `$$` is
      a dollar sign, `$&` the matched text, `` $` `` the text before the match
      and `$'` the text after it; every other `$` stands for itself. */
  function Substitute(rep: string, matched: string, before: string, after: string): string
    decreases |rep|
  {
    if |rep| >= 2 && rep[0] == '$' && rep[1] == '$' then "$" + Substitute(rep[2..], matched, before, after)
    else if |rep| >= 2 && rep[0] == '$' && rep[1] == '&' then matched + Substitute(rep[2..], matched, before, after)
    else if |rep| >= 2 && rep[0] == '$' && rep[1] == '`' then before + Substitute(rep[2..], matched, before, after)
    else if |rep| >= 2 && rep[0] == '$' && rep[1] == '\'' then after + Substitute(rep[2..], matched, before, after)
    else if rep == [] then []
    else [rep[0]] + Substitute(rep[1..], matched, before, after)
  }

  /** No `$$`, `$&`, `` $` `` or `$'` in `rep`. */
  predicate NoDollarPattern(rep: string) {
    forall i :: 0 <= i < |rep| - 1 && rep[i] == '$' ==> !(rep[i + 1] in "$&`'")
  }

  /** A replacement without `$` patterns is inserted literally. */
  lemma {:induction false} SubstituteLiteral(rep: string, matched: string, before: string, after: string)
    requires NoDollarPattern(rep)
    ensures Substitute(rep, matched, before, after) == rep
    decreases |rep|
  {
    if rep != [] {
      if |rep| >= 2 && rep[0] == '$' {
        assert !(rep[1] in "$&`'");
      }
      assert NoDollarPattern(rep[1..]) by {
        forall i | 0 <= i < |rep[1..]| - 1 && rep[1..][i] == '$' ensures !(rep[1..][i + 1] in "$&`'") {
          assert rep[i + 1] == '$';
        }
      }
      SubstituteLiteral(rep[1..], matched, before, after);
    }
  }

  /** `s.replace(pat, rep)` with a string pattern: only the first occurrence
      of `pat` is replaced, and `s` is returned unchanged when there is none. */
  function Replace(s: string, pat: string, rep: string): string {
    match IndexOf(s, pat, 0)
    case None => s
    case Some(k) => s[..k] + Substitute(rep, pat, s[..k], s[k + |pat|..]) + s[k + |pat|..]
  }

  /** When the first occurrence of `pat` is known and `rep` has no `$`
      pattern, `replace` splices `rep` in at that position. */
  lemma ReplaceAt(s: string, pat: string, rep: string, k: nat)
    requires At(s, k, pat)
    requires forall j: nat :: j < k ==> !At(s, j, pat)
    requires NoDollarPattern(rep)
    ensures Replace(s, pat, rep) == s[..k] + rep + s[k + |pat|..]
  {
    var r := IndexOf(s, pat, 0);
    assert r.Some? && r.value == k;
    SubstituteLiteral(rep, pat, s[..k], s[k + |pat|..]);
  }

  /** `replace` leaves a leading part alone when it holds no character that
      could start the pattern. */
  lemma ReplaceKeepsPrefix(a: string, s: string, pat: string, rep: string)
    requires |pat| > 0 && pat[0] !in a
    requires |a| <= |s| && s[..|a|] == a
    ensures |a| <= |Replace(s, pat, rep)| && Replace(s, pat, rep)[..|a|] == a
  {
    match IndexOf(s, pat, 0)
    case None =>
    case Some(k) =>
      assert s[k] == s[k..k + |pat|][0] == pat[0];
      assert |a| <= k;
      assert s[..k][..|a|] == a;
  }

  /** A string without `pat` is left unchanged by `replace`. */
  lemma ReplaceAbsent(s: string, pat: string, rep: string)
    requires !Contains(s, pat)
    ensures Replace(s, pat, rep) == s
  {
    match IndexOf(s, pat, 0)
    case None =>
    case Some(k) => assert false;
  }

  function DigitChar(d: nat): char
    requires d < 10
  {
    "0123456789"[d]
  }

  /** The decimal text of a non-negative integer, as `${n}` renders it. */
  function NatToString(n: nat): string
    decreases n
  {
    if n < 10 then [DigitChar(n)] else NatToString(n / 10) + [DigitChar(n % 10)]
  }

  predicate IsDigit(c: char) { '0' <= c <= '9' }

  /** The value of a string of decimal digits. */
  function DigitsValue(s: string): nat
    requires forall i :: 0 <= i < |s| ==> IsDigit(s[i])
  {
    if s == [] then 0 else DigitsValue(s[..|s| - 1]) * 10 + DigitValue(s[|s| - 1])
  }

  function DigitValue(c: char): nat
    requires IsDigit(c)
  {
    c as int - '0' as int
  }

  /** The decimal text is non-empty, is made of digits, has no leading zero
      and reads back as the number. */
  lemma {:induction false} NatToStringDecimal(n: nat)
    ensures |NatToString(n)| > 0
    ensures forall i :: 0 <= i < |NatToString(n)| ==> IsDigit(NatToString(n)[i])
    ensures NatToString(n)[0] == '0' ==> n == 0
    ensures DigitsValue(NatToString(n)) == n
    decreases n
  {
    if n >= 10 {
      NatToStringDecimal(n / 10);
      var s := NatToString(n / 10);
      var t := NatToString(n);
      assert t == s + [DigitChar(n % 10)];
      assert t[..|t| - 1] == s;
      assert t[0] == s[0];
    }
  }

  /** In a run of digits followed by a non-digit `c`, the first `c` sits
      right after the digits. */
  lemma DigitsThenChar(d: string, rest: string, c: char)
    requires forall i :: 0 <= i < |d| ==> IsDigit(d[i])
    requires !IsDigit(c) && rest != [] && rest[0] == c
    ensures IndexOfChar(d + rest, c, 0) == Some(|d|)
  {
    var t := d + rest;
    assert t[|d|] == c;
    forall k | 0 <= k < |d| ensures t[k] != c {
      assert t[k] == d[k];
    }
  }

  /** A rendered number followed by text that opens with a non-digit `c`
      determines both the number and the text. */
  lemma NumberThenTextUnique(n1: nat, n2: nat, c: char, r1: string, r2: string)
    requires !IsDigit(c) && r1 != [] && r1[0] == c && r2 != [] && r2[0] == c
    requires NatToString(n1) + r1 == NatToString(n2) + r2
    ensures n1 == n2 && r1 == r2
  {
    var d1, d2 := NatToString(n1), NatToString(n2);
    var t := d1 + r1;
    NatToStringDecimal(n1);
    NatToStringDecimal(n2);
    DigitsThenChar(d1, r1, c);
    DigitsThenChar(d2, r2, c);
    assert d1 == t[..|d1|] && r1 == t[|d1|..];
    assert d2 == t[..|d2|] && r2 == t[|d2|..];
  }

  /** JavaScript truthiness of a string that may be null or undefined: the
      empty string is falsy. */
  predicate Truthy(s: Option<string>) {
    s.Some? && s.value != ""
  }
}
