/** String helpers standing in for PHP's and JavaScript's string built-ins. */
module Text {

  /** ASCII lower-casing, as PHP's `strtolower` and `stripos` do it. */
  function LowerChar(c: char): char {
    if 'A' <= c <= 'Z' then (c as int + 32) as char else c
  }

  function Lower(s: string): (r: string)
    ensures |r| == |s|
    ensures forall i :: 0 <= i < |s| ==> r[i] == LowerChar(s[i])
  {
    if s == [] then [] else [LowerChar(s[0])] + Lower(s[1..])
  }

  lemma LowerAppend(a: string, b: string)
    ensures Lower(a + b) == Lower(a) + Lower(b)
  {
  }

  /** Character-wise reading of a case-insensitive occurrence. */
  lemma OccursCIChars(s: string, needle: string, i: int)
    requires 0 <= i && i + |needle| <= |s|
    ensures OccursCIAt(s, needle, i) <==> forall k :: 0 <= k < |needle| ==> LowerChar(s[i + k]) == LowerChar(needle[k])
  {
    var w := s[i..i + |needle|];
    assert forall k :: 0 <= k < |needle| ==> w[k] == s[i + k];
    if forall k :: 0 <= k < |needle| ==> LowerChar(s[i + k]) == LowerChar(needle[k]) {
      assert Lower(w) == Lower(needle);
    }
  }

  predicate StartsWith(s: string, prefix: string) {
    |prefix| <= |s| && s[..|prefix|] == prefix
  }

  /** Case-insensitive prefix test: `0 === stripos($s, $prefix)`. */
  predicate StartsWithCI(s: string, prefix: string) {
    |prefix| <= |s| && Lower(s[..|prefix|]) == Lower(prefix)
  }

  /** Case-insensitive occurrence of `needle` at position `i` of `s`. */
  predicate OccursCIAt(s: string, needle: string, i: int) {
    0 <= i && i + |needle| <= |s| && Lower(s[i..i + |needle|]) == Lower(needle)
  }

  /** `false !== stripos($s, $needle)`. */
  predicate ContainsCI(s: string, needle: string) {
    exists i | 0 <= i <= |s| - |needle| :: OccursCIAt(s, needle, i)
  }

  /** A character class without letters, which case folding cannot reach. */
  predicate NoLetters(cs: set<char>) {
    forall c :: c in cs ==> !('A' <= c <= 'Z') && !('a' <= c <= 'z')
  }

  /**
   * Searching case-insensitively for a needle with none of the characters of
   * a letter-free class `cs` gives the same answer before and after trimming `cs`.
   */
  lemma TrimContains(s: string, cs: set<char>, needle: string)
    requires needle != [] && NoLetters(cs) && forall k :: 0 <= k < |needle| ==> needle[k] !in cs
    ensures ContainsCI(Trim(s, cs), needle) <==> ContainsCI(s, needle)
  {
    if ContainsCI(Trim(s, cs), needle) {
      TrimmedOccurrence(s, cs, needle);
    }
    if ContainsCI(s, needle) {
      UntrimmedOccurrence(s, cs, needle);
    }
  }

  lemma TrimmedOccurrence(s: string, cs: set<char>, needle: string)
    requires ContainsCI(Trim(s, cs), needle)
    ensures ContainsCI(s, needle)
  {
    var t := Trim(s, cs);
    var a := LeadingIn(s, cs);
    var i :| 0 <= i <= |t| - |needle| && OccursCIAt(t, needle, i);
    TrimWindow(s, cs);
    WidenOccurrence(s, t, a, needle, i);
  }

  lemma UntrimmedOccurrence(s: string, cs: set<char>, needle: string)
    requires needle != [] && NoLetters(cs) && forall k :: 0 <= k < |needle| ==> needle[k] !in cs
    requires ContainsCI(s, needle)
    ensures ContainsCI(Trim(s, cs), needle)
  {
    var t := Trim(s, cs);
    var a := LeadingIn(s, cs);
    var i :| 0 <= i <= |s| - |needle| && OccursCIAt(s, needle, i);
    OccurrenceInside(s, cs, needle, i);
    TrimWindow(s, cs);
    ShiftOccurrence(s, t, a, needle, i);
  }

  /** An occurrence of a needle without characters of `cs` lies inside what trimming `cs` keeps. */
  lemma OccurrenceInside(s: string, cs: set<char>, needle: string, i: int)
    requires needle != [] && NoLetters(cs) && forall k :: 0 <= k < |needle| ==> needle[k] !in cs
    requires OccursCIAt(s, needle, i)
    ensures LeadingIn(s, cs) <= i
    ensures i + |needle| <= LeadingIn(s, cs) + |Trim(s, cs)|
  {
    var n := |needle|;
    OccursCIChars(s, needle, i);
    CaseMatchOutside(s[i], needle[0], cs);
    CaseMatchOutside(s[i + n - 1], needle[n - 1], cs);
    InsideTrim(s, cs, i, i + n - 1);
  }

  /** A character that case-folds like one outside a letter-free class is outside it too. */
  lemma CaseMatchOutside(c: char, d: char, cs: set<char>)
    requires LowerChar(c) == LowerChar(d) && d !in cs && NoLetters(cs)
    ensures c !in cs
  {
  }

  /** An occurrence in `s` inside the window of `s` that `t` spells from `a` on is one in `t`. */
  lemma ShiftOccurrence(s: string, t: string, a: nat, needle: string, i: int)
    requires a + |t| <= |s| && forall k :: 0 <= k < |t| ==> t[k] == s[a + k]
    requires a <= i && i + |needle| <= a + |t| && OccursCIAt(s, needle, i)
    ensures ContainsCI(t, needle)
  {
    var j := i - a;
    var n := |needle|;
    var w, v := t[j..j + n], s[i..i + n];
    forall k | 0 <= k < n ensures w[k] == v[k] {
      assert w[k] == t[j + k] == s[a + j + k] == v[k];
    }
    assert w == v;
    assert OccursCIAt(t, needle, j);
  }

  /** An occurrence in `t`, the window of `s` that starts at `a`, is one in `s`. */
  lemma WidenOccurrence(s: string, t: string, a: nat, needle: string, j: int)
    requires a + |t| <= |s| && forall k :: 0 <= k < |t| ==> t[k] == s[a + k]
    requires OccursCIAt(t, needle, j)
    ensures OccursCIAt(s, needle, a + j) && ContainsCI(s, needle)
  {
    var n := |needle|;
    var w, v := t[j..j + n], s[a + j..a + j + n];
    forall k | 0 <= k < n ensures w[k] == v[k] {
      assert w[k] == t[j + k] == s[a + j + k] == v[k];
    }
    assert w == v;
    var m := a + j;
    assert 0 <= m <= |s| - n && OccursCIAt(s, needle, m);
  }

  // ---------------------------------------------------------------- trimming

  /** The number of leading characters of `s` in `cs`. */
  function LeadingIn(s: string, cs: set<char>): (n: nat)
    ensures n <= |s|
    ensures forall i :: 0 <= i < n ==> s[i] in cs
    ensures n < |s| ==> s[n] !in cs
  {
    if s != [] && s[0] in cs then 1 + LeadingIn(s[1..], cs) else 0
  }

  /** Where the trailing run of characters of `cs` starts. */
  function TrailingFrom(s: string, cs: set<char>): (n: nat)
    ensures n <= |s|
    ensures forall i :: n <= i < |s| ==> s[i] in cs
    ensures 0 < n ==> s[n - 1] !in cs
  {
    if s != [] && s[|s| - 1] in cs then TrailingFrom(s[..|s| - 1], cs) else |s|
  }

  /** PHP `ltrim($s, $chars)`. */
  function TrimLeft(s: string, cs: set<char>): string {
    s[LeadingIn(s, cs)..]
  }

  /** PHP `rtrim($s, $chars)`; also `s.replace(/c+$/, '')` for a one-character class. */
  function TrimRight(s: string, cs: set<char>): string {
    s[..TrailingFrom(s, cs)]
  }

  /** PHP `trim($s, $chars)`. */
  function Trim(s: string, cs: set<char>): string {
    TrimRight(TrimLeft(s, cs), cs)
  }

  /** Characters outside the class `cs` lie inside what `Trim(s, cs)` keeps. */
  lemma InsideTrim(s: string, cs: set<char>, i: int, j: int)
    requires 0 <= i <= j < |s| && s[i] !in cs && s[j] !in cs
    ensures LeadingIn(s, cs) <= i
    ensures j < LeadingIn(s, cs) + TrailingFrom(TrimLeft(s, cs), cs)
  {
    var a := LeadingIn(s, cs);
    assert a <= i;
    assert TrimLeft(s, cs)[j - a] == s[j];
  }

  /** What `Trim(s, cs)` keeps is a window of `s`. */
  lemma TrimWindow(s: string, cs: set<char>)
    ensures LeadingIn(s, cs) + |Trim(s, cs)| <= |s|
    ensures forall k :: 0 <= k < |Trim(s, cs)| ==> Trim(s, cs)[k] == s[LeadingIn(s, cs) + k]
  {
  }

  /** What PHP's one-argument `trim` strips. */
  const PhpSpace: set<char> := {' ', '\t', '\n', '\r', '\0', '\U{B}'}

  /** PCRE `\s` without the `u` flag, as in `preg_replace('/\s+/', ...)`. */
  const PcreSpace: set<char> := {' ', '\t', '\n', '\U{B}', '\U{C}', '\r'}

  /** JavaScript's white space and line terminators (`\s`, and what `String.prototype.trim` strips). */
  predicate IsJsSpace(c: char) {
    c in {' ', '\t', '\n', '\U{B}', '\U{C}', '\r', '\U{A0}', '\U{1680}', '\U{2028}', '\U{2029}',
          '\U{202F}', '\U{205F}', '\U{3000}', '\U{FEFF}'}
    || ('\U{2000}' <= c <= '\U{200A}')
  }

  /** The number of leading JavaScript white-space characters. */
  function JsLeading(s: string): (n: nat)
    ensures n <= |s|
    ensures forall i :: 0 <= i < n ==> IsJsSpace(s[i])
    ensures n < |s| ==> !IsJsSpace(s[n])
  {
    if s != [] && IsJsSpace(s[0]) then 1 + JsLeading(s[1..]) else 0
  }

  /** Where the trailing run of JavaScript white space starts. */
  function JsTrailingFrom(s: string): (n: nat)
    ensures n <= |s|
    ensures forall i :: n <= i < |s| ==> IsJsSpace(s[i])
    ensures 0 < n ==> !IsJsSpace(s[n - 1])
  {
    if s != [] && IsJsSpace(s[|s| - 1]) then JsTrailingFrom(s[..|s| - 1]) else |s|
  }

  /** JavaScript `s.trim()`. */
  function JsTrim(s: string): string {
    var l := s[JsLeading(s)..];
    l[..JsTrailingFrom(l)]
  }

  /** True iff the string is empty or made only of JavaScript white space. */
  predicate JsBlank(s: string) {
    forall i :: 0 <= i < |s| ==> IsJsSpace(s[i])
  }

  lemma JsTrimEmptyIffBlank(s: string)
    ensures JsTrim(s) == [] <==> JsBlank(s)
  {
  }

  /** Trimming twice is trimming once. */
  lemma JsTrimIdempotent(s: string)
    ensures JsTrim(JsTrim(s)) == JsTrim(s)
  {
    var l := s[JsLeading(s)..];
    var t := l[..JsTrailingFrom(l)];
    if t != [] {
      assert t[0] == l[0] && !IsJsSpace(t[0]);
      assert t[|t| - 1] == l[|t| - 1];
      assert JsTrailingFrom(t) == |t|;
    }
  }

  /** `s.replace(/\s+/g, ' ')`: every run of white space becomes one space. */
  function JsCollapseSpace(s: string): (r: string)
    ensures forall i :: 0 <= i < |r| - 1 ==> !(IsJsSpace(r[i]) && IsJsSpace(r[i + 1]))
    ensures forall i :: 0 <= i < |r| ==> IsJsSpace(r[i]) ==> r[i] == ' '
    ensures (r == []) == (s == [])
    ensures r != [] ==> (IsJsSpace(r[0]) <==> IsJsSpace(s[0]))
    decreases |s|
  {
    if s == [] then []
    else if IsJsSpace(s[0]) then [' '] + JsCollapseSpace(s[JsLeading(s)..])
    else [s[0]] + JsCollapseSpace(s[1..])
  }

  /** Delete every character of the class `cs`: `preg_replace('/\s+/', '', $s)`. */
  function RemoveAll(s: string, cs: set<char>): (r: string)
    ensures forall i :: 0 <= i < |r| ==> r[i] !in cs
    ensures |r| <= |s|
  {
    if s == [] then [] else (if s[0] in cs then [] else [s[0]]) + RemoveAll(s[1..], cs)
  }

  /** `str_replace($from, $to, $s)` for a one-character pattern. */
  function ReplaceChar(s: string, from: char, to: string): (r: string)
    ensures from !in to ==> from !in r
  {
    if s == [] then [] else (if s[0] == from then to else [s[0]]) + ReplaceChar(s[1..], from, to)
  }

  /** Replacing a character that does not occur changes nothing. */
  lemma {:induction false} ReplaceCharAbsent(s: string, from: char, to: string)
    requires from !in s
    ensures ReplaceChar(s, from, to) == s
  {
    if s != [] {
      ReplaceCharAbsent(s[1..], from, to);
    }
  }

  lemma {:induction false} ReplaceCharAppend(a: string, b: string, from: char, to: string)
    ensures ReplaceChar(a + b, from, to) == ReplaceChar(a, from, to) + ReplaceChar(b, from, to)
  {
    if a == [] {
      assert a + b == b;
    } else {
      assert (a + b)[0] == a[0] && (a + b)[1..] == a[1..] + b;
      ReplaceCharAppend(a[1..], b, from, to);
    }
  }

  /** The part of `s` before the first `c` (all of `s` when there is none): `current(explode($c, $s))`. */
  function Before(s: string, c: char): (r: string)
    ensures |r| <= |s| && r == s[..|r|]
    ensures c !in r
    ensures |r| < |s| ==> s[|r|] == c
    ensures |r| == |s| <==> c !in s
  {
    if s == [] || s[0] == c then [] else [s[0]] + Before(s[1..], c)
  }

  /** A character absent from a string is absent from each of its slices. */
  lemma NotInSlice(s: string, c: char, i: nat, j: nat)
    requires i <= j <= |s| && c !in s
    ensures c !in s[i..j]
  {
    forall k | 0 <= k < j - i ensures s[i..j][k] != c {
      assert s[i..j][k] == s[i + k] && s[i + k] in s;
    }
  }

  /** The part before the first `c` of `a + [c] + b`, when `a` has no `c`, is `a`. */
  lemma {:induction false} BeforeAt(a: string, c: char, b: string)
    requires c !in a
    ensures Before(a + [c] + b, c) == a
  {
    if a != [] {
      assert (a + [c] + b)[1..] == a[1..] + [c] + b;
      assert a[0] in a;
      BeforeAt(a[1..], c, b);
    }
  }

  // ------------------------------------------------------------ numbers

  function DigitChar(d: nat): (c: char)
    requires d < 10
    ensures '0' <= c <= '9'
  {
    ('0' as int + d) as char
  }

  /** Decimal rendering of a natural number, as PHP's string concatenation prints it. */
  function NatToString(n: nat): (r: string)
    ensures r != []
    ensures forall i :: 0 <= i < |r| ==> '0' <= r[i] <= '9'
    ensures |r| == 1 <==> n < 10
    decreases n
  {
    if n < 10 then [DigitChar(n)] else NatToString(n / 10) + [DigitChar(n % 10)]
  }

  lemma {:induction false} NatToStringInjective(m: nat, n: nat)
    requires NatToString(m) == NatToString(n)
    ensures m == n
    decreases m
  {
    var sm, sn := NatToString(m), NatToString(n);
    if m >= 10 && n >= 10 {
      var pm, pn := NatToString(m / 10), NatToString(n / 10);
      assert sm == pm + [DigitChar(m % 10)];
      assert sn == pn + [DigitChar(n % 10)];
      assert pm == sm[..|sm| - 1] && pn == sn[..|sn| - 1];
      NatToStringInjective(m / 10, n / 10);
      assert DigitChar(m % 10) == sm[|sm| - 1] == DigitChar(n % 10);
      assert m == 10 * (m / 10) + m % 10 && n == 10 * (n / 10) + n % 10;
    } else if m < 10 && n < 10 {
      assert DigitChar(m) == sm[0] == DigitChar(n);
    }
  }

  /** `implode($sep, $pieces)` / `pieces.join(sep)`. */
  function Join(pieces: seq<string>, sep: string): string {
    if pieces == [] then ""
    else if |pieces| == 1 then pieces[0]
    else pieces[0] + sep + Join(pieces[1..], sep)
  }
}
