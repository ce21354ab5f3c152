/** License key format: generation, the legacy `lic_` prefix, and display forms. */
module LicenseKeys {

  import opened Common
  import opened Text
  import WordPress

  /** The 32 symbols of a generated key (no 0/O, no 1/I). */
  const Alphabet: string := "ABCDEFGHJKLMNPQRSTUVWXYZ23456789"

  /** The alphabet's symbols: upper-case letters other than I and O, and the digits 2 to 9. */
  predicate IsAlphabetChar(c: char) {
    (('A' <= c <= 'Z') && c != 'I' && c != 'O') || ('2' <= c <= '9')
  }

  lemma AlphabetChars()
    ensures |Alphabet| == 32
    ensures forall d :: 0 <= d < 32 ==> IsAlphabetChar(Alphabet[d])
  {
  }

  /** One result of `random_int(0, strlen($alph) - 1)`. */
  type Draw = d: int | 0 <= d < 32

  /** `is_legacy_license_key`: the key starts with `lic_`, in any case. */
  predicate IsLegacy(key: string) {
    |key| >= 4 && LowerChar(key[0]) == 'l' && LowerChar(key[1]) == 'i' && LowerChar(key[2]) == 'c' && key[3] == '_'
  }

  /** Positions of a `VL-XXXX-XXXX-XXXX` key that hold alphabet symbols. */
  predicate IsSymbolPosition(i: int) {
    3 <= i < 17 && i != 7 && i != 12
  }

  /** The generated format: `VL-` and three dash-separated groups of four alphabet symbols. */
  predicate IsCanonical(key: string) {
    && |key| == 17
    && key[..3] == "VL-" && key[7] == '-' && key[12] == '-'
    && forall i :: 0 <= i < |key| && IsSymbolPosition(i) ==> IsAlphabetChar(key[i])
  }

  /** The symbols of a 32-symbol alphabet that the draws select, in order. */
  function Spell(alph: string, ds: seq<Draw>): (s: string)
    requires |alph| == 32
    ensures |s| == |ds|
  {
    if ds == [] then [] else [alph[ds[0]]] + Spell(alph, ds[1..])
  }

  /** The key alphabet's symbols for the draws. */
  function Symbols(ds: seq<Draw>): string {
    Spell(Alphabet, ds)
  }

  /** The `$chunk` closure: four symbols, one per draw. */
  method Chunk(draws: seq<Draw>) returns (s: string)
    requires |draws| == 4
    ensures s == Symbols(draws)
  {
    s := "";
    var i := 0;
    while i < 4
      invariant 0 <= i <= 4
      invariant s == Spell(Alphabet, draws[..i])
    {
      SpellAppend(Alphabet, draws[..i], draws[i]);
      assert draws[..i + 1] == draws[..i] + [draws[i]];
      s := s + [Alphabet[draws[i]]];
      i := i + 1;
    }
    assert draws[..4] == draws;
  }

  /** The `j`-th symbol is the alphabet's symbol for the `j`-th draw. */
  lemma {:induction false} SpellAt(alph: string, ds: seq<Draw>)
    requires |alph| == 32
    ensures forall j :: 0 <= j < |ds| ==> Spell(alph, ds)[j] == alph[ds[j]]
  {
    if ds != [] {
      SpellAt(alph, ds[1..]);
      forall j | 1 <= j < |ds| ensures Spell(alph, ds)[j] == alph[ds[j]] {
        assert Spell(alph, ds)[j] == Spell(alph, ds[1..])[j - 1];
        assert ds[1..][j - 1] == ds[j];
      }
    }
  }

  lemma SpellAppend(alph: string, ds: seq<Draw>, d: Draw)
    requires |alph| == 32
    ensures Spell(alph, ds + [d]) == Spell(alph, ds) + [alph[d]]
  {
    var l, r := Spell(alph, ds + [d]), Spell(alph, ds) + [alph[d]];
    SpellAt(alph, ds + [d]);
    SpellAt(alph, ds);
    forall j | 0 <= j < |l| ensures l[j] == r[j] {
      if j < |ds| { assert (ds + [d])[j] == ds[j]; }
    }
  }

  /** Every symbol drawn belongs to the key alphabet. */
  lemma SymbolsInAlphabet(ds: seq<Draw>)
    ensures forall j :: 0 <= j < |ds| ==> IsAlphabetChar(Symbols(ds)[j])
  {
    SpellAt(Alphabet, ds);
    AlphabetChars();
  }

  /**
   * `lic_generate_key`; the twelve random draws are its input. The key is
   * `VL-` and the three groups of symbols the draws select.
   */
  method GenerateKey(draws: seq<Draw>) returns (key: string)
    requires |draws| == 12
    ensures key == "VL-" + Symbols(draws[..4]) + "-" + Symbols(draws[4..8]) + "-" + Symbols(draws[8..])
    ensures IsCanonical(key)
    ensures !IsLegacy(key)
  {
    var a := Chunk(draws[..4]);
    var b := Chunk(draws[4..8]);
    var c := Chunk(draws[8..]);
    key := "VL-" + a + "-" + b + "-" + c;
    SymbolsInAlphabet(draws[..4]);
    SymbolsInAlphabet(draws[4..8]);
    SymbolsInAlphabet(draws[8..]);
    CanonicalOfGroups(a, b, c);
    CanonicalIsNotLegacy(key);
  }

  /** Where the three groups sit in `VL-aaaa-bbbb-cccc`. */
  lemma KeyLayout(a: string, b: string, c: string)
    requires |a| == 4 && |b| == 4 && |c| == 4
    ensures var key := "VL-" + a + "-" + b + "-" + c;
      && |key| == 17 && key[..3] == "VL-" && key[7] == '-' && key[12] == '-'
      && (forall j :: 0 <= j < 4 ==> key[3 + j] == a[j] && key[8 + j] == b[j] && key[13 + j] == c[j])
  {
    var key := "VL-" + a + "-" + b + "-" + c;
    assert key == "VL-" + (a + ("-" + (b + ("-" + c))));
  }

  /** Three groups of four alphabet symbols make a canonical key. */
  lemma CanonicalOfGroups(a: string, b: string, c: string)
    requires |a| == 4 && |b| == 4 && |c| == 4
    requires forall j :: 0 <= j < 4 ==> IsAlphabetChar(a[j]) && IsAlphabetChar(b[j]) && IsAlphabetChar(c[j])
    ensures IsCanonical("VL-" + a + "-" + b + "-" + c)
  {
    var key := "VL-" + a + "-" + b + "-" + c;
    KeyLayout(a, b, c);
    forall i | 0 <= i < |key| && IsSymbolPosition(i) ensures IsAlphabetChar(key[i]) {
      if i < 7 { assert key[3 + (i - 3)] == a[i - 3]; }
      else if i < 12 { assert key[8 + (i - 8)] == b[i - 8]; }
      else { assert key[13 + (i - 13)] == c[i - 13]; }
    }
  }

  lemma CanonicalIsNotLegacy(key: string)
    requires IsCanonical(key)
    ensures !IsLegacy(key)
  {
  }

  /** `lic_redact`: the first eight characters, `...`, and the last four. */
  function Redact(key: string): (r: string)
    ensures PhpEmpty(key) <==> r == ""
  {
    if PhpEmpty(key) then ""
    else key[..Min(8, |key|)] + "..." + key[|key| - Min(4, |key|)..]
  }

  function Min(a: int, b: int): int { if a < b then a else b }

  /**
   * A redacted generated key hides its middle: two keys that agree on
   * `VL-XXXX-` and on the last group redact to the same text, and the text
   * is fifteen characters long.
   */
  lemma RedactHidesMiddle(k1: string, k2: string)
    requires IsCanonical(k1) && IsCanonical(k2)
    requires k1[..8] == k2[..8] && k1[13..] == k2[13..]
    ensures Redact(k1) == Redact(k2)
    ensures |Redact(k1)| == 15
  {
  }

  predicate IsSegmentChar(c: char) {
    ('A' <= c <= 'Z') || ('a' <= c <= 'z') || ('0' <= c <= '9') || c == '-'
  }

  /** `preg_replace('/[^A-Za-z0-9\-]/', '-', $s)`. */
  function DashOthers(s: string): (r: string)
    ensures |r| == |s|
    ensures forall i :: 0 <= i < |s| ==> r[i] == (if IsSegmentChar(s[i]) then s[i] else '-')
  {
    if s == [] then [] else [if IsSegmentChar(s[0]) then s[0] else '-'] + DashOthers(s[1..])
  }

  /** `lic_dashboard_segment`: other characters become `-`, dashes are trimmed, and the rest lower-cased. */
  function DashboardSegment(key: string): string {
    Lower(Trim(DashOthers(key), {'-'}))
  }

  /** A segment is made of `[a-z0-9-]` and neither starts nor ends with `-`. */
  lemma SegmentShape(key: string)
    ensures var r := DashboardSegment(key);
      && (forall i :: 0 <= i < |r| ==> ('a' <= r[i] <= 'z') || ('0' <= r[i] <= '9') || r[i] == '-')
      && (r == [] || (r[0] != '-' && r[|r| - 1] != '-'))
  {
    var d := DashOthers(key);
    var l := TrimLeft(d, {'-'});
    var t := TrimRight(l, {'-'});
    SegmentCharsSurvive(d, l, t);
    LowerSegment(t);
  }

  /** Trimming dashes off a dashed string leaves segment characters with no dash at either end. */
  lemma SegmentCharsSurvive(d: string, l: string, t: string)
    requires forall i :: 0 <= i < |d| ==> IsSegmentChar(d[i])
    requires l == TrimLeft(d, {'-'}) && t == TrimRight(l, {'-'})
    ensures forall i :: 0 <= i < |t| ==> IsSegmentChar(t[i])
    ensures t == [] || (t[0] != '-' && t[|t| - 1] != '-')
  {
    SegmentTrimLeft(d);
    SegmentTrimRight(l);
    if t != [] {
      assert t[0] == l[0];
    }
  }

  /** Lower-casing segment characters gives `[a-z0-9-]`, keeping dashes where they were. */
  lemma LowerSegment(t: string)
    requires forall i :: 0 <= i < |t| ==> IsSegmentChar(t[i])
    ensures forall i :: 0 <= i < |Lower(t)| ==> ('a' <= Lower(t)[i] <= 'z') || ('0' <= Lower(t)[i] <= '9') || Lower(t)[i] == '-'
    ensures forall i :: 0 <= i < |t| ==> (Lower(t)[i] == '-' <==> t[i] == '-')
  {
    var r := Lower(t);
    forall i | 0 <= i < |r|
      ensures ('a' <= r[i] <= 'z') || ('0' <= r[i] <= '9') || r[i] == '-'
      ensures r[i] == '-' <==> t[i] == '-'
    {
      LowerSegmentChar(t[i]);
    }
  }

  lemma SegmentTrimLeft(d: string)
    requires forall i :: 0 <= i < |d| ==> IsSegmentChar(d[i])
    ensures forall i :: 0 <= i < |TrimLeft(d, {'-'})| ==> IsSegmentChar(TrimLeft(d, {'-'})[i])
  {
    var l := TrimLeft(d, {'-'});
    forall i | 0 <= i < |l| ensures IsSegmentChar(l[i]) {
      assert l[i] == d[|d| - |l| + i];
    }
  }

  lemma SegmentTrimRight(l: string)
    requires forall i :: 0 <= i < |l| ==> IsSegmentChar(l[i])
    ensures forall i :: 0 <= i < |TrimRight(l, {'-'})| ==> IsSegmentChar(TrimRight(l, {'-'})[i])
  {
    var t := TrimRight(l, {'-'});
    forall i | 0 <= i < |t| ensures IsSegmentChar(t[i]) {
      assert t[i] == l[i];
    }
  }

  lemma LowerSegmentChar(c: char)
    requires IsSegmentChar(c)
    ensures ('a' <= LowerChar(c) <= 'z') || ('0' <= LowerChar(c) <= '9') || LowerChar(c) == '-'
    ensures LowerChar(c) == '-' <==> c == '-'
  {
  }

  /** A generated key's segment is the key in lower case. */
  lemma {:induction false} SegmentOfCanonical(key: string)
    requires IsCanonical(key)
    ensures DashboardSegment(key) == Lower(key)
  {
    forall i | 0 <= i < |key| ensures IsSegmentChar(key[i]) {
      if i < 3 {
        assert key[i] == key[..3][i];
      }
    }
    DashOthersKeeps(key);
    assert key[0] == key[..3][0];
    assert IsSymbolPosition(16);
    TrimKeeps(key, '-');
  }

  /** Applying the segment function twice changes nothing. */
  lemma {:induction false} SegmentIdempotent(key: string)
    ensures DashboardSegment(DashboardSegment(key)) == DashboardSegment(key)
  {
    SegmentShape(key);
    SegmentFixed(DashboardSegment(key));
  }

  /** A string already in segment form is its own segment. */
  lemma SegmentFixed(r: string)
    requires forall i :: 0 <= i < |r| ==> ('a' <= r[i] <= 'z') || ('0' <= r[i] <= '9') || r[i] == '-'
    requires r == [] || (r[0] != '-' && r[|r| - 1] != '-')
    ensures DashboardSegment(r) == r
  {
    DashOthersKeeps(r);
    TrimKeeps(r, '-');
    LowerKeeps(r);
  }

  lemma DashOthersKeeps(s: string)
    requires forall i :: 0 <= i < |s| ==> IsSegmentChar(s[i])
    ensures DashOthers(s) == s
  {
  }

  lemma TrimKeeps(s: string, c: char)
    requires s == [] || (s[0] != c && s[|s| - 1] != c)
    ensures Trim(s, {c}) == s
  {
    TrimLeftKeeps(s, {c});
    TrimRightKeeps(s, {c});
  }

  lemma TrimLeftKeeps(s: string, cs: set<char>)
    requires s == [] || s[0] !in cs
    ensures TrimLeft(s, cs) == s
  {
  }

  lemma TrimRightKeeps(s: string, cs: set<char>)
    requires s == [] || s[|s| - 1] !in cs
    ensures TrimRight(s, cs) == s
  {
  }

  lemma LowerKeeps(s: string)
    requires forall i :: 0 <= i < |s| ==> !('A' <= s[i] <= 'Z')
    ensures Lower(s) == s
  {
  }
}
