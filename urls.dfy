/**
 * Reading license keys out of URLs and requests, recognising console URLs,
 * and building the dashboard URL.
 */
module Urls {

  import opened Common
  import opened Text
  import WordPress
  import LicenseKeys
  import Registry

  // ------------------------------------------------------------ parse_url

  /** The components of `wp_parse_url` this plugin reads. */
  datatype UrlParts = UrlParts(path: Option<string>, query: Option<string>)

  predicate IsSchemeChar(c: char) {
    ('A' <= c <= 'Z') || ('a' <= c <= 'z') || ('0' <= c <= '9') || c == '+' || c == '-' || c == '.'
  }

  /** Length of the longest run starting at `q` of characters outside `stops`. */
  function Run(s: string, q: nat, stops: set<char>): (n: nat)
    requires q <= |s|
    ensures q + n <= |s|
    ensures forall i :: q <= i < q + n ==> s[i] !in stops
    ensures q + n == |s| || s[q + n] in stops
    decreases |s| - q
  {
    if q == |s| || s[q] in stops then 0 else 1 + Run(s, q + 1, stops)
  }

  /** Length of the scheme-character run at the front of `s`. */
  function SchemeRun(s: string, q: nat): (n: nat)
    requires q <= |s|
    ensures q + n <= |s|
    decreases |s| - q
  {
    if q == |s| || !IsSchemeChar(s[q]) then 0 else 1 + SchemeRun(s, q + 1)
  }

  /** Where the authority starts in a `scheme://` or `//` URL, if it has one. */
  function AuthorityStart(h: string): (a: Option<nat>)
    ensures a.Some? ==> a.value <= |h|
  {
    var n := SchemeRun(h, 0);
    if n >= 1 && StartsWith(h[n..], "://") then Some(n + 3)
    else if StartsWith(h, "//") then Some(2)
    else None
  }

  /**
   * `wp_parse_url`, for the components read here: the fragment starts at the
   * first `#`, the query at the first `?` before it, and the path is what
   * follows the authority (or the whole remainder when there is none).
   */
  function ParseUrl(url: string): (p: UrlParts)
    ensures p.query.Some? <==> '?' in Before(url, '#')
    ensures p.path.Some? ==> '?' !in p.path.value && '#' !in p.path.value && p.path.value != ""
  {
    var beforeHash := Before(url, '#');
    var hier := Before(beforeHash, '?');
    var query := if |hier| < |beforeHash| then Some(beforeHash[|hier| + 1..]) else None;
    assert '?' in beforeHash <==> |hier| < |beforeHash| by {
      if |hier| < |beforeHash| { assert beforeHash[|hier|] == '?'; }
    }
    NotInSlice(beforeHash, '#', 0, |hier|);
    assert beforeHash[..|hier|] == hier;
    UrlParts(PathOf(hier), query)
  }

  /** The path of the part before the query: what follows the authority, or all of it without one. */
  function PathOf(hier: string): (path: Option<string>)
    requires '#' !in hier && '?' !in hier
    ensures path.Some? ==> '?' !in path.value && '#' !in path.value && path.value != ""
  {
    match AuthorityStart(hier)
    case Some(a) =>
      var rest := hier[a..];
      var host := Before(rest, '/');
      NotInSlice(rest, '#', |host|, |rest|);
      NotInSlice(rest, '?', |host|, |rest|);
      if |host| < |rest| then Some(rest[|host|..]) else None
    case None =>
      if hier == "" then None else Some(hier)
  }

  // ------------------------------------------------------------ parse_str

  predicate IsHexDigit(c: char) {
    ('0' <= c <= '9') || ('a' <= c <= 'f') || ('A' <= c <= 'F')
  }

  function HexValue(c: char): nat
    requires IsHexDigit(c)
  {
    if '0' <= c <= '9' then c as nat - '0' as nat
    else if 'a' <= c <= 'f' then c as nat - 'a' as nat + 10
    else c as nat - 'A' as nat + 10
  }

  /** `urldecode`: `+` is a space and `%XY` the character with code XY. */
  function UrlDecode(s: string): (r: string)
    ensures |r| <= |s|
  {
    if s == [] then []
    else if s[0] == '+' then [' '] + UrlDecode(s[1..])
    else if s[0] == '%' && |s| >= 3 && IsHexDigit(s[1]) && IsHexDigit(s[2]) then
      [(16 * HexValue(s[1]) + HexValue(s[2])) as char] + UrlDecode(s[3..])
    else [s[0]] + UrlDecode(s[1..])
  }

  /** Decoding leaves a string without `%` and `+` as it is. */
  lemma {:induction false} UrlDecodePlain(s: string)
    requires '%' !in s && '+' !in s
    ensures UrlDecode(s) == s
  {
    if s != [] {
      UrlDecodePlain(s[1..]);
    }
  }

  /** `explode($c, $s)`. */
  function Split(s: string, c: char): (r: seq<string>)
    ensures |r| >= 1
    ensures forall i :: 0 <= i < |r| ==> c !in r[i]
    decreases |s|
  {
    var head := Before(s, c);
    if |head| == |s| then [s] else [head] + Split(s[|head| + 1..], c)
  }

  /** The variable name `parse_str` registers: leading spaces dropped, spaces and dots turned into `_`. */
  function VarName(raw: string): string {
    ReplaceChar(ReplaceChar(TrimLeft(UrlDecode(raw), {' '}), ' ', "_"), '.', "_")
  }

  /** The name/value pairs of a query string, in order; empty pieces and names are skipped. */
  function QueryPairs(pieces: seq<string>): seq<(string, string)> {
    if pieces == [] then []
    else
      var piece := pieces[0];
      var rawName := Before(piece, '=');
      var name := VarName(rawName);
      var value := if |rawName| < |piece| then UrlDecode(piece[|rawName| + 1..]) else "";
      (if piece == "" || name == "" || '[' in name then [] else [(name, value)]) + QueryPairs(pieces[1..])
  }

  /** The value `parse_str` keeps for `name`: the last one given. */
  function LastValue(pairs: seq<(string, string)>, name: string): (r: Option<string>)
    ensures r.None? <==> forall i :: 0 <= i < |pairs| ==> pairs[i].0 != name
    ensures r.Some? ==> exists i :: 0 <= i < |pairs| && pairs[i] == (name, r.value) &&
                          forall j :: i < j < |pairs| ==> pairs[j].0 != name
  {
    if pairs == [] then None
    else
      var rest := LastValue(pairs[1..], name);
      if rest.Some? then
        var i :| 0 <= i < |pairs[1..]| && pairs[1..][i] == (name, rest.value) &&
                 forall j :: i < j < |pairs[1..]| ==> pairs[1..][j].0 != name;
        assert pairs[i + 1] == (name, rest.value);
        rest
      else if pairs[0].0 == name then Some(pairs[0].1)
      else None
  }

  /** `parse_str($query, $vars); $vars[$name] ?? null`. */
  function QueryVar(query: string, name: string): Option<string> {
    LastValue(QueryPairs(Split(query, '&')), name)
  }

  // ------------------------------------------------------------ regular expressions as matchers

  /** The characters `[^/?#&]` excludes. */
  const TokenStop: set<char> := {'/', '?', '#', '&'}
  /** The characters `[^/?#]` excludes. */
  const SegmentStop: set<char> := {'/', '?', '#'}

  /** What `([^/?#&]+)` captures. */
  predicate IsToken(t: string) {
    t != [] && forall i :: 0 <= i < |t| ==> t[i] !in TokenStop
  }

  /** `t` follows an occurrence of `param` (any case) in `s`. */
  ghost predicate FollowsParam(s: string, param: string, t: string) {
    exists i :: OccursCIAt(s, param, i) && i + |param| + |t| <= |s| && s[i + |param|..i + |param| + |t|] == t
  }

  /** `([^/?#&]+)` at `q`: the longest non-empty run there. */
  function TokenAt(s: string, q: nat): (r: Option<string>)
    ensures r.Some? ==> IsToken(r.value) && q + |r.value| <= |s| && s[q..q + |r.value|] == r.value
  {
    if q > |s| then None
    else
      var n := Run(s, q, TokenStop);
      if n >= 1 then Some(s[q..q + n]) else None
  }

  /** `(?:[^/?#]+/)PARAM([^/?#&]+)` at `q`: the segment run can only be the longest one, since a `/` must follow it. */
  function SegmentMatch(s: string, q: nat, param: string): (r: Option<string>)
    ensures r.Some? ==> IsToken(r.value)
  {
    if q <= |s| then
      var n := Run(s, q, SegmentStop);
      if n >= 1 && q + n < |s| && s[q + n] == '/' && OccursCIAt(s, param, q + n + 1)
      then TokenAt(s, q + n + 1 + |param|) else None
    else None
  }

  /** `PARAM([^/?#&]+)` at `q`. */
  function DirectMatch(s: string, q: nat, param: string): (r: Option<string>)
    ensures r.Some? ==> IsToken(r.value)
  {
    if OccursCIAt(s, param, q) then TokenAt(s, q + |param|) else None
  }

  /**
   * `(?:[^/?#]+/)?PARAM([^/?#&]+)` at `q`, as a backtracking matcher runs it:
   * first with the optional segment, then without it.
   */
  function AfterHead(s: string, q: nat, segment: bool, param: string): (r: Option<string>)
    ensures r.Some? ==> IsToken(r.value)
  {
    var withSegment := if segment then SegmentMatch(s, q, param) else None;
    if withSegment.Some? then withSegment else DirectMatch(s, q, param)
  }

  /** One alternative `HEAD(?:[^/?#]+/)?PARAM([^/?#&]+)` anchored at `p`. */
  function HeadMatch(s: string, p: nat, head: string, segment: bool, param: string): (r: Option<string>)
    ensures r.Some? ==> IsToken(r.value)
  {
    if OccursCIAt(s, head, p) then AfterHead(s, p + |head|, segment, param) else None
  }

  /** The pattern anchored at `p`, trying the alternative heads in order. */
  function MatchAt(s: string, p: nat, heads: seq<string>, segment: bool, param: string): (r: Option<string>)
    ensures r.Some? ==> IsToken(r.value)
  {
    if heads == [] then None
    else
      var m := HeadMatch(s, p, heads[0], segment, param);
      if m.Some? then m else MatchAt(s, p, heads[1..], segment, param)
  }

  /** `preg_match` with the `i` flag: the leftmost position where the pattern matches. */
  function Search(s: string, p: nat, heads: seq<string>, segment: bool, param: string): (r: Option<string>)
    ensures r.Some? ==> IsToken(r.value)
    decreases |s| - p
  {
    if p >= |s| then None
    else
      var m := MatchAt(s, p, heads, segment, param);
      if m.Some? then m else Search(s, p + 1, heads, segment, param)
  }

  const ConsoleHeads: seq<string> := ["/ai-constellation-console/", "/ai-constellation-dashboard/"]
  const ConstellationHeads: seq<string> := ["/supercluster-constellation/"]
  const SlashHead: seq<string> := ["/"]

  /** `~/ai-constellation-(?:console|dashboard)/(?:[^/?#]+/)?lic=([^/?#&]+)~i`. */
  function ConsoleLicMatch(s: string): Option<string> {
    Search(s, 0, ConsoleHeads, true, "lic=")
  }

  /** `~/supercluster-constellation/(?:[^/?#]+/)?license=([^/?#&]+)~i`. */
  function ConstellationLicenseMatch(s: string): Option<string> {
    Search(s, 0, ConstellationHeads, true, "license=")
  }

  /** `~/lic=([^/?#&]+)~i`. */
  function PathLicMatch(s: string): Option<string> {
    Search(s, 0, SlashHead, false, "lic=")
  }

  /** `~/license=([^/?#&]+)~i`. */
  function PathLicenseMatch(s: string): Option<string> {
    Search(s, 0, SlashHead, false, "license=")
  }

  // ------------------------------------------------------------ what the patterns match

  /** The greedy `([^/?#&]+)` at `q` captures `t`: a token there that no token character extends. */
  ghost predicate MaximalTokenAt(s: string, q: nat, t: string) {
    IsToken(t) && q + |t| <= |s| && s[q..q + |t|] == t && (q + |t| == |s| || s[q + |t|] in TokenStop)
  }

  /** `SEG/PARAM([^/?#&]+)` matches at `q`, with `SEG` a non-empty run of `[^/?#]`, and captures `t`. */
  ghost predicate SegmentMatchAt(s: string, q: nat, param: string, t: string) {
    exists n: nat :: SegmentOfLength(s, q, n, param, t)
  }

  /** The same, with a segment of `n` characters. */
  ghost predicate SegmentOfLength(s: string, q: nat, n: nat, param: string, t: string) {
    1 <= n && q + n < |s| && s[q + n] == '/' && NoneIn(s, q, q + n, SegmentStop)
      && OccursCIAt(s, param, q + n + 1) && MaximalTokenAt(s, q + n + 1 + |param|, t)
  }

  /** `PARAM([^/?#&]+)` matches at `q` and captures `t`. */
  ghost predicate DirectMatchAt(s: string, q: nat, param: string, t: string) {
    OccursCIAt(s, param, q) && MaximalTokenAt(s, q + |param|, t)
  }

  /**
   * What follows a head ending at `q` captures `t`: through the optional
   * segment when the pattern has one and that way matches (a greedy `?`
   * tries it first), else without it.
   */
  ghost predicate RestMatchAt(s: string, q: nat, segment: bool, param: string, t: string) {
    if segment && exists t' :: SegmentMatchAt(s, q, param, t') then SegmentMatchAt(s, q, param, t)
    else DirectMatchAt(s, q, param, t)
  }

  /** The alternative with head `head` matches at `p` and captures `t`. */
  ghost predicate HeadMatchAt(s: string, p: nat, head: string, segment: bool, param: string, t: string) {
    OccursCIAt(s, head, p) && RestMatchAt(s, p + |head|, segment, param, t)
  }

  /** The pattern matches at `p` and captures `t`, through the first alternative head that matches there. */
  ghost predicate PatternAt(s: string, p: nat, heads: seq<string>, segment: bool, param: string, t: string)
    decreases |heads|
  {
    && heads != []
    && (|| HeadMatchAt(s, p, heads[0], segment, param, t)
        || ((forall t' :: !HeadMatchAt(s, p, heads[0], segment, param, t'))
            && PatternAt(s, p, heads[1..], segment, param, t)))
  }

  ghost predicate MatchesAt(s: string, p: nat, heads: seq<string>, segment: bool, param: string) {
    exists t :: PatternAt(s, p, heads, segment, param, t)
  }

  /** The pattern captures `t` at the leftmost position, at or after `from`, where it matches. */
  ghost predicate CapturesFrom(s: string, from: nat, heads: seq<string>, segment: bool, param: string, t: string) {
    exists p: nat :: from <= p < |s| && PatternAt(s, p, heads, segment, param, t)
      && forall p': nat :: from <= p' < p ==> !MatchesAt(s, p', heads, segment, param)
  }

  /** The pattern matches somewhere at or after `from` (every head used here is non-empty, so below `|s|`). */
  ghost predicate MatchesFrom(s: string, from: nat, heads: seq<string>, segment: bool, param: string) {
    exists p: nat :: from <= p < |s| && MatchesAt(s, p, heads, segment, param)
  }

  /** What `preg_match` captures: the leftmost match's group. */
  ghost predicate Captures(s: string, heads: seq<string>, segment: bool, param: string, t: string) {
    CapturesFrom(s, 0, heads, segment, param, t)
  }

  /** Whether `preg_match` finds the pattern anywhere. */
  ghost predicate Matches(s: string, heads: seq<string>, segment: bool, param: string) {
    MatchesFrom(s, 0, heads, segment, param)
  }

  predicate NoneIn(s: string, lo: nat, hi: nat, stops: set<char>)
    requires lo <= hi <= |s|
  {
    forall i :: lo <= i < hi ==> s[i] !in stops
  }

  /** A run of `n` characters outside `stops`, ended by the end or a stop, is the longest run. */
  lemma {:induction false} RunIs(s: string, q: nat, stops: set<char>, n: nat)
    requires q + n <= |s| && NoneIn(s, q, q + n, stops)
    requires q + n == |s| || s[q + n] in stops
    ensures Run(s, q, stops) == n
    decreases n
  {
    if n > 0 {
      assert s[q] !in stops;
      RunIs(s, q + 1, stops, n - 1);
    }
  }

  lemma TokenAtSpec(s: string, q: nat, t: string)
    ensures TokenAt(s, q) == Some(t) <==> MaximalTokenAt(s, q, t)
  {
    if MaximalTokenAt(s, q, t) {
      RunIs(s, q, TokenStop, |t|);
    }
  }

  lemma SegmentMatchSpec(s: string, q: nat, param: string, t: string)
    ensures SegmentMatch(s, q, param) == Some(t) <==> SegmentMatchAt(s, q, param, t)
  {
    if SegmentMatchAt(s, q, param, t) {
      SegmentMatchFound(s, q, param, t);
    }
    if SegmentMatch(s, q, param) == Some(t) {
      SegmentMatchSound(s, q, param, t);
    }
  }

  lemma SegmentMatchFound(s: string, q: nat, param: string, t: string)
    requires SegmentMatchAt(s, q, param, t)
    ensures SegmentMatch(s, q, param) == Some(t)
  {
    var n: nat :| SegmentOfLength(s, q, n, param, t);
    SegmentOfLengthFound(s, q, n, param, t);
  }

  lemma SegmentOfLengthFound(s: string, q: nat, n: nat, param: string, t: string)
    requires SegmentOfLength(s, q, n, param, t)
    ensures SegmentMatch(s, q, param) == Some(t)
  {
    assert s[q + n] in SegmentStop;
    RunIs(s, q, SegmentStop, n);
    TokenAtSpec(s, q + n + 1 + |param|, t);
  }

  lemma SegmentMatchSound(s: string, q: nat, param: string, t: string)
    requires SegmentMatch(s, q, param) == Some(t)
    ensures SegmentMatchAt(s, q, param, t)
  {
    var n := Run(s, q, SegmentStop);
    var m := q + n + 1 + |param|;
    assert 1 <= n && q + n < |s| && s[q + n] == '/' && OccursCIAt(s, param, q + n + 1);
    assert TokenAt(s, m) == Some(t);
    TokenAtSpec(s, m, t);
    assert NoneIn(s, q, q + n, SegmentStop);
    assert SegmentOfLength(s, q, n, param, t);
  }

  lemma DirectMatchSpec(s: string, q: nat, param: string, t: string)
    ensures DirectMatch(s, q, param) == Some(t) <==> DirectMatchAt(s, q, param, t)
  {
    if OccursCIAt(s, param, q) {
      TokenAtSpec(s, q + |param|, t);
    }
  }

  lemma AfterHeadSpec(s: string, q: nat, segment: bool, param: string, t: string)
    ensures AfterHead(s, q, segment, param) == Some(t) <==> RestMatchAt(s, q, segment, param, t)
  {
    if segment && SegmentMatch(s, q, param).Some? {
      var v := SegmentMatch(s, q, param).value;
      SegmentMatchSpec(s, q, param, v);
      SegmentMatchSpec(s, q, param, t);
      assert AfterHead(s, q, segment, param) == SegmentMatch(s, q, param);
    } else {
      if segment {
        forall t' ensures !SegmentMatchAt(s, q, param, t') {
          SegmentMatchSpec(s, q, param, t');
        }
      }
      assert AfterHead(s, q, segment, param) == DirectMatch(s, q, param);
      DirectMatchSpec(s, q, param, t);
    }
  }

  lemma HeadMatchSpec(s: string, p: nat, head: string, segment: bool, param: string, t: string)
    ensures HeadMatch(s, p, head, segment, param) == Some(t) <==> HeadMatchAt(s, p, head, segment, param, t)
  {
    if OccursCIAt(s, head, p) {
      assert HeadMatch(s, p, head, segment, param) == AfterHead(s, p + |head|, segment, param);
      AfterHeadSpec(s, p + |head|, segment, param, t);
    }
  }

  /** Trying the heads in order captures exactly what the first matching alternative captures. */
  lemma {:induction false} MatchAtSpec(s: string, p: nat, heads: seq<string>, segment: bool, param: string, t: string)
    ensures MatchAt(s, p, heads, segment, param) == Some(t) <==> PatternAt(s, p, heads, segment, param, t)
    decreases |heads|
  {
    if heads != [] {
      forall t' ensures HeadMatch(s, p, heads[0], segment, param) == Some(t') <==> HeadMatchAt(s, p, heads[0], segment, param, t') {
        HeadMatchSpec(s, p, heads[0], segment, param, t');
      }
      MatchAtSpec(s, p, heads[1..], segment, param, t);
    }
  }

  /**
   * The matcher finds the leftmost match: it returns `t` exactly when the
   * pattern captures `t` at the first position at or after `from` where it
   * matches, and nothing exactly when it matches nowhere there.
   */
  lemma {:induction false} SearchIsLeftmost(s: string, from: nat, heads: seq<string>, segment: bool, param: string, t: string)
    ensures Search(s, from, heads, segment, param) == Some(t) <==> CapturesFrom(s, from, heads, segment, param, t)
    ensures Search(s, from, heads, segment, param).None? <==> !MatchesFrom(s, from, heads, segment, param)
    decreases |s| - from
  {
    if from < |s| {
      forall t' ensures MatchAt(s, from, heads, segment, param) == Some(t') <==> PatternAt(s, from, heads, segment, param, t') {
        MatchAtSpec(s, from, heads, segment, param, t');
      }
      if MatchAt(s, from, heads, segment, param).None? {
        SearchIsLeftmost(s, from + 1, heads, segment, param, t);
        assert !MatchesAt(s, from, heads, segment, param);
        CapturesSkip(s, from, heads, segment, param, t);
      } else {
        var v := MatchAt(s, from, heads, segment, param).value;
        assert PatternAt(s, from, heads, segment, param, v);
        CapturesHere(s, from, heads, segment, param, t);
      }
    }
  }

  /** Where the pattern does not match, the leftmost capture is the one further right. */
  lemma CapturesSkip(s: string, from: nat, heads: seq<string>, segment: bool, param: string, t: string)
    requires from < |s| && !MatchesAt(s, from, heads, segment, param)
    ensures CapturesFrom(s, from, heads, segment, param, t) <==> CapturesFrom(s, from + 1, heads, segment, param, t)
    ensures MatchesFrom(s, from, heads, segment, param) <==> MatchesFrom(s, from + 1, heads, segment, param)
  {
    if CapturesFrom(s, from, heads, segment, param, t) {
      var p: nat :| from <= p < |s| && PatternAt(s, p, heads, segment, param, t)
        && forall p': nat :: from <= p' < p ==> !MatchesAt(s, p', heads, segment, param);
      assert p != from;
      assert CapturesFrom(s, from + 1, heads, segment, param, t);
    }
    if CapturesFrom(s, from + 1, heads, segment, param, t) {
      var p: nat :| from + 1 <= p < |s| && PatternAt(s, p, heads, segment, param, t)
        && forall p': nat :: from + 1 <= p' < p ==> !MatchesAt(s, p', heads, segment, param);
      assert forall p': nat :: from <= p' < p ==> !MatchesAt(s, p', heads, segment, param);
    }
    if MatchesFrom(s, from, heads, segment, param) {
      var p: nat :| from <= p < |s| && MatchesAt(s, p, heads, segment, param);
      assert p != from;
    }
  }

  /** Where the pattern matches, the leftmost capture is the one made there. */
  lemma CapturesHere(s: string, from: nat, heads: seq<string>, segment: bool, param: string, t: string)
    requires from < |s| && MatchesAt(s, from, heads, segment, param)
    ensures CapturesFrom(s, from, heads, segment, param, t) <==> PatternAt(s, from, heads, segment, param, t)
    ensures MatchesFrom(s, from, heads, segment, param)
  {
    if CapturesFrom(s, from, heads, segment, param, t) {
      var p: nat :| from <= p < |s| && PatternAt(s, p, heads, segment, param, t)
        && forall p': nat :: from <= p' < p ==> !MatchesAt(s, p', heads, segment, param);
      assert p == from;
    }
  }


  /** A maximal token right after an occurrence of the parameter name follows it. */
  lemma TokenFollowsParam(s: string, i: nat, param: string, t: string)
    requires OccursCIAt(s, param, i) && MaximalTokenAt(s, i + |param|, t)
    ensures IsToken(t) && FollowsParam(s, param, t)
  {
    assert i + |param| + |t| <= |s| && s[i + |param|..i + |param| + |t|] == t;
  }

  lemma RestFollowsParam(s: string, q: nat, segment: bool, param: string, t: string)
    requires RestMatchAt(s, q, segment, param, t)
    ensures IsToken(t) && FollowsParam(s, param, t)
  {
    if segment && exists t' :: SegmentMatchAt(s, q, param, t') {
      SegmentFollowsParam(s, q, param, t);
    } else {
      TokenFollowsParam(s, q, param, t);
    }
  }

  /** What the segment branch captures follows the parameter name. */
  lemma SegmentFollowsParam(s: string, q: nat, param: string, t: string)
    requires SegmentMatchAt(s, q, param, t)
    ensures IsToken(t) && FollowsParam(s, param, t)
  {
    var n: nat :| SegmentOfLength(s, q, n, param, t);
    TokenFollowsParam(s, q + n + 1, param, t);
  }

  /** What a pattern captures at a position is a token that follows the parameter name. */
  lemma {:induction false} PatternFollowsParam(s: string, p: nat, heads: seq<string>, segment: bool, param: string, t: string)
    requires PatternAt(s, p, heads, segment, param, t)
    ensures IsToken(t) && FollowsParam(s, param, t)
    decreases |heads|
  {
    if HeadMatchAt(s, p, heads[0], segment, param, t) {
      RestFollowsParam(s, p + |heads[0]|, segment, param, t);
    } else {
      PatternFollowsParam(s, p, heads[1..], segment, param, t);
    }
  }

  /** Whatever a pattern captures is a token that follows the parameter name. */
  lemma CaptureFollowsParam(s: string, heads: seq<string>, segment: bool, param: string, t: string)
    requires Captures(s, heads, segment, param, t)
    ensures IsToken(t) && FollowsParam(s, param, t)
  {
    var p: nat :| 0 <= p < |s| && PatternAt(s, p, heads, segment, param, t)
      && forall p': nat :: 0 <= p' < p ==> !MatchesAt(s, p', heads, segment, param);
    PatternFollowsParam(s, p, heads, segment, param, t);
  }

  /** The leftmost capture is unique. */
  lemma CapturesUnique(s: string, heads: seq<string>, segment: bool, param: string, t1: string, t2: string)
    requires Captures(s, heads, segment, param, t1) && Captures(s, heads, segment, param, t2)
    ensures t1 == t2
  {
    SearchIsLeftmost(s, 0, heads, segment, param, t1);
    SearchIsLeftmost(s, 0, heads, segment, param, t2);
  }

  /** `preg_match` from the start: the result is present iff the pattern matches, and it is the leftmost capture. */
  lemma PregMatch(s: string, heads: seq<string>, segment: bool, param: string)
    ensures Search(s, 0, heads, segment, param).Some? <==> Matches(s, heads, segment, param)
    ensures Search(s, 0, heads, segment, param).Some? ==> Captures(s, heads, segment, param, Search(s, 0, heads, segment, param).value)
  {
    var r := Search(s, 0, heads, segment, param);
    SearchIsLeftmost(s, 0, heads, segment, param, if r.Some? then r.value else "");
  }

  // ------------------------------------------------------------ extraction

  /** Where a request's license came from. */
  datatype Source = NoSource | FromLicense | FromLic | FromPath

  datatype Extracted = Extracted(license: string, source: Source)

  /** The parts of the current request read here; query values are the unslashed originals. */
  datatype Request = Request(get: map<string, string>, uri: Option<string>)

  /** A query argument that survives `sanitize_text_field` non-empty. */
  predicate UsableArg(h: WordPress.Host, get: map<string, string>, name: string) {
    name in get && !PhpEmpty(h.sanitizeText(get[name]))
  }

  /** The console pattern matches the request URI. */
  ghost predicate ConsolePathMatches(uri: string) {
    Matches(uri, ConsoleHeads, true, "lic=")
  }

  /** The constellation pattern matches the request URI. */
  ghost predicate ConstellationPathMatches(uri: string) {
    Matches(uri, ConstellationHeads, true, "license=")
  }

  /**
   * `lic_extract_request_license`: a usable `license` argument, else a usable
   * `lic` argument, else the key the console pattern captures in the request
   * URI, else the one the constellation pattern captures, else nothing.
   */
  function RequestLicense(h: WordPress.Host, req: Request): (r: Extracted)
    ensures r.source == FromLicense <==> UsableArg(h, req.get, "license")
    ensures r.source == FromLicense ==> r.license == h.sanitizeText(req.get["license"])
    ensures r.source == FromLic <==> !UsableArg(h, req.get, "license") && UsableArg(h, req.get, "lic")
    ensures r.source == FromLic ==> r.license == h.sanitizeText(req.get["lic"])
    ensures r.source == FromPath <==>
      && !UsableArg(h, req.get, "license") && !UsableArg(h, req.get, "lic") && req.uri.Some?
      && (ConsolePathMatches(req.uri.value) || ConstellationPathMatches(req.uri.value))
    ensures r.source == FromPath && req.uri.Some? && ConsolePathMatches(req.uri.value) ==>
      exists t :: Captures(req.uri.value, ConsoleHeads, true, "lic=", t) && r.license == h.sanitizeText(t)
    ensures r.source == FromPath && req.uri.Some? && !ConsolePathMatches(req.uri.value) ==>
      exists t :: Captures(req.uri.value, ConstellationHeads, true, "license=", t) && r.license == h.sanitizeText(t)
    ensures r.source == NoSource ==> r.license == ""
    ensures r.source != FromPath ==> (r.source == NoSource <==> r.license == "")
  {
    if UsableArg(h, req.get, "license") then Extracted(h.sanitizeText(req.get["license"]), FromLicense)
    else if UsableArg(h, req.get, "lic") then Extracted(h.sanitizeText(req.get["lic"]), FromLic)
    else if req.uri.Some? then
      var uri := req.uri.value;
      PregMatch(uri, ConsoleHeads, true, "lic=");
      PregMatch(uri, ConstellationHeads, true, "license=");
      if ConsoleLicMatch(uri).Some? then Extracted(h.sanitizeText(ConsoleLicMatch(uri).value), FromPath)
      else if ConstellationLicenseMatch(uri).Some? then
        Extracted(h.sanitizeText(ConstellationLicenseMatch(uri).value), FromPath)
      else Extracted("", NoSource)
    else Extracted("", NoSource)
  }

  /** A query variable that is set and not empty. */
  predicate UsableVar(query: Option<string>, name: string) {
    query.Some? && QueryVar(query.value, name).Some? && !PhpEmpty(QueryVar(query.value, name).value)
  }

  /**
   * `lic_extract_license_from_url`: the query's `license`, else its `lic`,
   * else the key `~/lic=...~i` captures in the path, else the one
   * `~/license=...~i` captures, else `''`.
   */
  function LicenseFromUrl(h: WordPress.Host, url: string): (r: string)
    ensures PhpEmpty(url) ==> r == ""
    ensures !PhpEmpty(url) && UsableVar(ParseUrl(url).query, LicenseParam) ==>
      r == h.sanitizeText(QueryVar(ParseUrl(url).query.value, LicenseParam).value)
    ensures !PhpEmpty(url) && !UsableVar(ParseUrl(url).query, LicenseParam) && UsableVar(ParseUrl(url).query, "lic") ==>
      r == h.sanitizeText(QueryVar(ParseUrl(url).query.value, "lic").value)
    ensures !PhpEmpty(url) && !UsableVar(ParseUrl(url).query, LicenseParam) && !UsableVar(ParseUrl(url).query, "lic") ==>
      var path := ParseUrl(url).path;
      && (path.Some? && Matches(path.value, SlashHead, false, "lic=") ==>
            exists t :: Captures(path.value, SlashHead, false, "lic=", t) && r == h.sanitizeText(t))
      && (path.Some? && !Matches(path.value, SlashHead, false, "lic=") && Matches(path.value, SlashHead, false, "license=") ==>
            exists t :: Captures(path.value, SlashHead, false, "license=", t) && r == h.sanitizeText(t))
      && ((path.None? || (!Matches(path.value, SlashHead, false, "lic=") && !Matches(path.value, SlashHead, false, "license=")))
          ==> r == "")
  {
    if PhpEmpty(url) then ""
    else
      var parts := ParseUrl(url);
      if UsableVar(parts.query, LicenseParam) then h.sanitizeText(QueryVar(parts.query.value, LicenseParam).value)
      else if UsableVar(parts.query, "lic") then h.sanitizeText(QueryVar(parts.query.value, "lic").value)
      else if parts.path.Some? then
        var path := parts.path.value;
        PregMatch(path, SlashHead, false, "lic=");
        PregMatch(path, SlashHead, false, "license=");
        if PathLicMatch(path).Some? then h.sanitizeText(PathLicMatch(path).value)
        else if PathLicenseMatch(path).Some? then h.sanitizeText(PathLicenseMatch(path).value)
        else ""
      else ""
  }

  // ------------------------------------------------------------ console paths

  /** `console_base_paths`; the first is `console_primary_path`. */
  const ConsoleBasePaths: seq<string> := ["/" + DashboardRoute + "/", "/" + ConsoleRoute + "/"]

  /** Whether the slash-trimmed `path` mentions one of `bases`, slash-trimmed, in any case. */
  predicate MentionsAny(path: string, bases: seq<string>) {
    exists i :: 0 <= i < |bases| && Trim(bases[i], {'/'}) != "" && ContainsCI(Trim(path, {'/'}), Trim(bases[i], {'/'}))
  }

  /** `url_targets_console`: the URL's path (or the URL itself, when it has none) mentions a console base. */
  predicate UrlTargetsConsole(url: string) {
    if PhpEmpty(url) then false
    else
      var parts := ParseUrl(url);
      MentionsAny(if parts.path.Some? then parts.path.value else url, ConsoleBasePaths)
  }

  /** `is_console_request`: a non-empty `license` or `lic` argument, or a console path. */
  predicate IsConsoleRequest(req: Request) {
    || ("license" in req.get && !PhpEmpty(req.get["license"]))
    || ("lic" in req.get && !PhpEmpty(req.get["lic"]))
    || (req.uri.Some? && !PhpEmpty(req.uri.value) && ParseUrl(req.uri.value).path.Some?
        && MentionsAny(ParseUrl(req.uri.value).path.value, ConsoleBasePaths))
  }

  /** A case-insensitive search for a needle without `/` ignores slashes trimmed off the ends. */
  lemma TrimSlashesContains(s: string, needle: string)
    requires needle != [] && '/' !in needle
    ensures ContainsCI(Trim(s, {'/'}), needle) <==> ContainsCI(s, needle)
  {
    TrimContains(s, {'/'}, needle);
  }

  /** Trimming slashes from `/x/` gives `x` when `x` has none. */
  lemma TrimSlashed(x: string)
    requires x != "" && '/' !in x
    ensures Trim("/" + x + "/", {'/'}) == x
  {
    var s := "/" + x + "/";
    assert s[1..] == x + "/";
    assert x[0] in x;
    assert TrimLeft(x + "/", {'/'}) == x + "/";
    assert TrimLeft(s, {'/'}) == x + "/";
    assert (x + "/")[..|x|] == x;
    assert x[|x| - 1] in x;
  }

  /** The slash-trimmed names of the console routes. */
  const DashboardRoute: string := "ai-constellation-dashboard"
  const ConsoleRoute: string := "ai-constellation-console"

  /** With two bases `/x/` and `/y/`, the test searches the path for `x` or `y`. */
  lemma MentionsTwo(path: string, x: string, y: string)
    requires x != "" && '/' !in x && y != "" && '/' !in y
    ensures MentionsAny(path, ["/" + x + "/", "/" + y + "/"]) <==> ContainsCI(path, x) || ContainsCI(path, y)
  {
    var bases := ["/" + x + "/", "/" + y + "/"];
    var t := Trim(path, {'/'});
    TrimSlashed(x);
    TrimSlashed(y);
    assert Trim(bases[0], {'/'}) == x && Trim(bases[1], {'/'}) == y;
    TrimSlashesContains(path, x);
    TrimSlashesContains(path, y);
    if MentionsAny(path, bases) {
      var i :| 0 <= i < |bases| && Trim(bases[i], {'/'}) != "" && ContainsCI(t, Trim(bases[i], {'/'}));
      assert i == 0 || i == 1;
    }
    if ContainsCI(t, x) {
      assert Trim(bases[0], {'/'}) != "" && ContainsCI(t, Trim(bases[0], {'/'}));
    }
    if ContainsCI(t, y) {
      assert Trim(bases[1], {'/'}) != "" && ContainsCI(t, Trim(bases[1], {'/'}));
    }
  }

  /** The console test is a plain case-insensitive search of the path for either route name. */
  lemma ConsolePathTest(path: string)
    ensures MentionsAny(path, ConsoleBasePaths) <==> ContainsCI(path, DashboardRoute) || ContainsCI(path, ConsoleRoute)
  {
    assert '/' !in DashboardRoute && '/' !in ConsoleRoute;
    MentionsTwo(path, DashboardRoute, ConsoleRoute);
  }

  // ------------------------------------------------------------ dashboard URL

  const DashboardHost: string := "supercluster.visiblelight.ai"
  const DashboardBase: string := "https://" + DashboardHost + "/"
  /** The query argument that carries a license key. */
  const LicenseParam: string := "license"

  /**
   * `add_query_arg('license', $key, $base)` on the dashboard base, which has
   * no query and no fragment. WordPress writes `license=KEY` without encoding
   * the key and then cleans the result up: `?` is trimmed from both ends of
   * the query, an `=` that ends a pair or the query is dropped, `?` is
   * trimmed from the end of the URL and each `?#` becomes `#`.
   */
  function DashboardLink(key: string): string {
    var query := DropBareEquals(Trim(LicenseParam + "=" + key, {'?'}));
    CollapseQueryHash(TrimRight(DashboardBase + "?" + query, {'?'}))
  }

  /** The URL `add_query_arg` would give if it did no clean-up. */
  function PlainLink(key: string): string {
    DashboardBase + "?" + LicenseParam + "=" + key
  }

  /** `preg_replace('#=(&|$)#', '$1', $s)`: drop each `=` that is followed by `&`, by the end, or by a final newline (where `$` also matches). */
  function DropBareEquals(s: string): (r: string)
    ensures |r| <= |s|
  {
    if s == [] then []
    else if s[0] == '=' && (|s| == 1 || s[1] == '&' || (|s| == 2 && s[1] == '\n')) then DropBareEquals(s[1..])
    else [s[0]] + DropBareEquals(s[1..])
  }

  /** `str_replace('?#', '#', $s)`, scanning left to right. */
  function CollapseQueryHash(s: string): (r: string)
    ensures (forall i :: 0 <= i < |s| - 1 ==> !(s[i] == '?' && s[i + 1] == '#')) ==> r == s
  {
    if |s| >= 2 && s[0] == '?' && s[1] == '#' then "#" + CollapseQueryHash(s[2..])
    else if s == [] then []
    else
      [s[0]] + CollapseQueryHash(s[1..])
  }

  /**
   * A key the clean-up leaves alone: not empty, with no `=` or `?`, and not
   * starting with `&` or a newline (either would make `license=` bare).
   */
  predicate CleanQueryValue(key: string) {
    key != "" && '=' !in key && '?' !in key && key[0] != '&' && key[0] != '\n'
  }

  /** For such a key the dashboard link is just the base plus `?license=KEY`. */
  lemma CleanLink(key: string)
    requires CleanQueryValue(key)
    ensures DashboardLink(key) == PlainLink(key)
  {
    ParamQueryGuarded(key);
    QueryKept(LicenseParam + "=" + key);
    LinkOfParamQuery(key, key);
  }

  /** A key ending in `?` loses it: the link is that of the key without it. */
  lemma LinkTrimsQuestion(key: string)
    requires CleanQueryValue(key)
    ensures DashboardLink(key + "?") == PlainLink(key)
  {
    var q := LicenseParam + "=" + key;
    assert LicenseParam + "=" + (key + "?") == q + "?";
    ParamQueryGuarded(key);
    QueryTrimsQuestion(q);
    LinkOfParamQuery(key + "?", key);
  }

  /** A key ending in `=` loses it: the link is that of the key without it. */
  lemma LinkDropsFinalEquals(key: string)
    requires CleanQueryValue(key)
    ensures DashboardLink(key + "=") == PlainLink(key)
  {
    var q := LicenseParam + "=" + key;
    assert LicenseParam + "=" + (key + "=") == q + "=";
    ParamQueryGuarded(key);
    QueryDropsFinalEquals(q);
    LinkOfParamQuery(key + "=", key);
  }

  /** An `=` just before an `&` in the key is dropped: `a=&b` links as `a&b`. */
  lemma LinkDropsEqualsBeforeAmp(a: string, b: string)
    requires CleanQueryValue(a) && '=' !in b && '?' !in b
    ensures DashboardLink(a + "=&" + b) == PlainLink(a + "&" + b)
  {
    var q := LicenseParam + "=" + a;
    assert LicenseParam + "=" + (a + "=&" + b) == q + "=&" + b;
    assert LicenseParam + "=" + (a + "&" + b) == q + "&" + b;
    ParamQueryGuarded(a);
    QueryDropsEqualsBeforeAmp(q, b);
    LinkOfParamQuery(a + "=&" + b, a + "&" + b);
  }

  /** A query the clean-up leaves alone. */
  lemma QueryKept(q: string)
    requires q != [] && q[0] != '?' && '?' !in q && EqualsGuarded(q)
    ensures DropBareEquals(Trim(q, {'?'})) == q
  {
    TrimKeeps(q);
    KeepsGuardedPrefix(q, "");
    assert q + "" == q;
  }

  lemma QueryTrimsQuestion(q: string)
    requires q != [] && q[0] != '?' && '?' !in q && EqualsGuarded(q)
    ensures DropBareEquals(Trim(q + "?", {'?'})) == q
  {
    var p := q + "?";
    assert p[..|p| - 1] == q;
    TrimKeeps(p);
    KeepsGuardedPrefix(q, "");
    assert q + "" == q;
  }

  lemma QueryDropsFinalEquals(q: string)
    requires q != [] && q[0] != '?' && '?' !in q && EqualsGuarded(q)
    ensures DropBareEquals(Trim(q + "=", {'?'})) == q
  {
    TrimKeeps(q + "=");
    KeepsGuardedPrefix(q, "=");
    assert DropBareEquals("=") == [];
  }

  lemma QueryDropsEqualsBeforeAmp(q: string, b: string)
    requires q != [] && q[0] != '?' && '?' !in q && EqualsGuarded(q) && '=' !in b && '?' !in b
    ensures DropBareEquals(Trim(q + "=&" + b, {'?'})) == q + "&" + b
  {
    var r := "=&" + b;
    var p := q + r;
    assert q + "=&" + b == p && q + "&" + b == q + ("&" + b);
    AmpTail(b);
    assert p[0] == q[0] && p[|p| - 1] == r[|r| - 1];
    TrimKeeps(p);
    KeepsGuardedPrefix(q, r);
  }

  /** `=&` then a tail without `=` loses only the `=`, and does not end in `?`. */
  lemma AmpTail(b: string)
    requires '=' !in b && '?' !in b
    ensures DropBareEquals("=&" + b) == "&" + b
    ensures ("=&" + b)[|b| + 1] != '?'
  {
    var tail := "&" + b;
    var r := "=" + tail;
    assert "=&" + b == r;
    assert r[1..] == tail && r[1] == '&';
    assert DropBareEquals(r) == DropBareEquals(tail);
    assert '=' !in tail;
    NoEqualsKept(tail);
    if b != [] { assert r[|b| + 1] == b[|b| - 1]; }
  }



  /** Every `=` is followed by something other than `&` or a newline. */
  predicate EqualsGuarded(p: string) {
    forall i :: 0 <= i < |p| && p[i] == '=' ==> i + 1 < |p| && p[i + 1] != '&' && p[i + 1] != '\n'
  }

  lemma ParamQueryGuarded(key: string)
    requires CleanQueryValue(key)
    ensures EqualsGuarded(LicenseParam + "=" + key)
    ensures '?' !in LicenseParam + "=" + key && (LicenseParam + "=" + key)[0] == 'l'
  {
    var q := LicenseParam + "=" + key;
    ParamChars();
    forall i | 0 <= i < |q| && q[i] == '=' ensures i + 1 < |q| && q[i + 1] != '&' && q[i + 1] != '\n' {
      if i == |LicenseParam| { assert q[i + 1] == key[0]; }
    }
  }

  /** Trimming `?` keeps a string that starts with something else and has at most a final `?` removed. */
  lemma TrimKeeps(p: string)
    requires p != [] && p[0] != '?'
    ensures p[|p| - 1] == '?' && '?' !in p[..|p| - 1] ==> Trim(p, {'?'}) == p[..|p| - 1]
    ensures p[|p| - 1] != '?' ==> Trim(p, {'?'}) == p
  {
    assert LeadingIn(p, {'?'}) == 0 && TrimLeft(p, {'?'}) == p;
    if p[|p| - 1] == '?' && '?' !in p[..|p| - 1] {
      assert p[..|p| - 1] != [] && p[..|p| - 1][|p| - 2] != '?';
    }
  }

  /** Without any `=` nothing is dropped. */
  lemma {:induction false} NoEqualsKept(s: string)
    requires '=' !in s
    ensures DropBareEquals(s) == s
  {
    if s != [] {
      assert s[0] in s;
      NoEqualsKept(s[1..]);
      assert s == [s[0]] + s[1..];
    }
  }

  /** Once the query is cleaned, a query with no `?` that starts with a letter is appended to the base as it is. */
  lemma LinkOfQuery(key: string, query: string)
    requires DropBareEquals(Trim(LicenseParam + "=" + key, {'?'})) == query
    requires query != "" && '?' !in query && query[0] != '#'
    ensures DashboardLink(key) == DashboardBase + "?" + query
  {
    var url := DashboardBase + "?" + query;
    assert url[|url| - 1] == query[|query| - 1];
    assert TrailingFrom(url, {'?'}) == |url|;
    assert TrimRight(url, {'?'}) == url;
    BaseChars();
    forall i | 0 <= i < |url| - 1 ensures !(url[i] == '?' && url[i + 1] == '#') {
      if i < |DashboardBase| { assert url[i] == DashboardBase[i]; }
      else if i == |DashboardBase| { assert url[i + 1] == query[0]; }
      else { assert url[i] == query[i - |DashboardBase| - 1]; }
    }
  }

  /** A cleaned query that is `license=V`, with no `?` in `V`, gives the plain link of `V`. */
  lemma LinkOfParamQuery(key: string, v: string)
    requires DropBareEquals(Trim(LicenseParam + "=" + key, {'?'})) == LicenseParam + "=" + v
    requires '?' !in v
    ensures DashboardLink(key) == PlainLink(v)
  {
    var query := LicenseParam + "=" + v;
    ParamChars();
    assert query[0] == 'l' && '?' !in query;
    LinkOfQuery(key, query);
  }

  /** Dropping bare `=` leaves alone a prefix in which every `=` is followed by something other than `&` or a newline. */
  lemma {:induction false} KeepsGuardedPrefix(p: string, s: string)
    requires EqualsGuarded(p)
    ensures DropBareEquals(p + s) == p + DropBareEquals(s)
  {
    if p != [] {
      var t := p + s;
      assert t[0] == p[0] && t[1..] == p[1..] + s;
      if p[0] == '=' { assert |t| >= 2 && t[1] == p[1]; }
      assert DropBareEquals(t) == [t[0]] + DropBareEquals(t[1..]);
      forall i | 0 <= i < |p[1..]| && p[1..][i] == '='
        ensures i + 1 < |p[1..]| && p[1..][i + 1] != '&' && p[1..][i + 1] != '\n'
      {
        assert p[i + 1] == '=';
      }
      KeepsGuardedPrefix(p[1..], s);
      assert p == [p[0]] + p[1..];
    } else {
      assert p + s == s;
    }
  }

  /**
   * `lic_dashboard_url`: the record's key (or the fallback when the record
   * has none) as the `license` argument of the dashboard base URL.
   */
  function DashboardUrl(license: Option<Registry.Record>, fallback: string): (r: string)
    ensures var key := DashboardKey(license, fallback);
      (PhpEmpty(key) ==> r == DashboardBase) && (!PhpEmpty(key) ==> r == DashboardLink(key))
  {
    var key := DashboardKey(license, fallback);
    if PhpEmpty(key) then DashboardBase else DashboardLink(key)
  }

  /** `isset($license['key']) ? $license['key'] : $fallback_key`. */
  function DashboardKey(license: Option<Registry.Record>, fallback: string): string {
    if license.Some? && "key" in license.value && license.value["key"].Str? then license.value["key"].s else fallback
  }

  /** A generated key survives the trip through the dashboard URL and back. */
  lemma DashboardRoundTrip(h: WordPress.Host, r: Registry.Record, fallback: string)
    requires WordPress.TextKeepsPlain(h)
    requires "key" in r && r["key"].Str? && LicenseKeys.IsCanonical(r["key"].s)
    ensures LicenseFromUrl(h, DashboardUrl(Some(r), fallback)) == r["key"].s
  {
    var key := r["key"].s;
    CanonicalIsPlain(key);
    CleanLink(key);
    var url := PlainLink(key);
    assert DashboardUrl(Some(r), fallback) == url;
    ParseDashboardUrl(key);
    QueryOfKey(key);
    assert |url| > 1;
  }

  /** How the dashboard URL of a key without `#` or `?` parses. */
  lemma ParseDashboardUrl(key: string)
    requires '#' !in key && '?' !in key
    ensures ParseUrl(PlainLink(key)) == UrlParts(Some("/"), Some(LicenseParam + "=" + key))
  {
    var url := PlainLink(key);
    UrlSplit(key);
    AuthorityOfBase();
  }

  lemma UrlSplit(key: string)
    requires '#' !in key && '?' !in key
    ensures var url := PlainLink(key);
      Before(url, '#') == url && Before(url, '?') == DashboardBase && url[|DashboardBase| + 1..] == LicenseParam + "=" + key
  {
    var url := PlainLink(key);
    var tail := LicenseParam + "=" + key;
    assert url == DashboardBase + ['?'] + tail;
    BaseChars();
    assert '#' !in tail;
    assert '#' !in url;
    BeforeLongest(url, '#');
    BeforeAt(DashboardBase, '?', tail);
  }

  /** A string without `c` is all before the first `c`. */
  lemma BeforeLongest(s: string, c: char)
    requires c !in s
    ensures Before(s, c) == s
  {
  }

  lemma BaseChars()
    ensures '#' !in DashboardBase && '?' !in DashboardBase && '/' !in DashboardHost
    ensures '#' !in LicenseParam && '?' !in LicenseParam
  {
    HostChars();
    ParamChars();
  }

  /** The dashboard host is made of lower-case letters and dots. */
  lemma HostChars()
    ensures forall c :: c in DashboardHost ==> ('a' <= c <= 'z') || c == '.'
  {
  }

  lemma ParamChars()
    ensures forall c :: c in LicenseParam ==> 'a' <= c <= 'z'
  {
  }

  /** The scheme run is `n` long when `n` scheme characters and then another character follow `q`. */
  lemma {:induction false} SchemeRunIs(s: string, q: nat, n: nat)
    requires q + n < |s| && !IsSchemeChar(s[q + n])
    requires forall i :: q <= i < q + n ==> IsSchemeChar(s[i])
    ensures SchemeRun(s, q) == n
    decreases n
  {
    if n > 0 {
      SchemeRunIs(s, q + 1, n - 1);
    }
  }

  /** The dashboard base is `https://`, its host, and the root path. */
  lemma AuthorityOfBase()
    ensures AuthorityStart(DashboardBase) == Some(8)
    ensures DashboardBase[8..] == DashboardHost + "/"
    ensures Before(DashboardBase[8..], '/') == DashboardHost
  {
    HttpsAuthority(DashboardHost + "/");
    assert DashboardBase == "https://" + (DashboardHost + "/");
    BaseChars();
    BeforeAt(DashboardHost, '/', []);
    assert DashboardHost + ['/'] + [] == DashboardHost + "/";
  }

  /** A `https://` URL's authority starts after the eight characters of the scheme and separator. */
  lemma HttpsAuthority(rest: string)
    ensures AuthorityStart("https://" + rest) == Some(8)
    ensures ("https://" + rest)[8..] == rest
  {
    var s := "https://" + rest;
    assert forall i :: 0 <= i < 8 ==> s[i] == "https://"[i];
    SchemeRunIs(s, 0, 5);
    assert s[5..][..3] == "://";
  }

  /** `parse_str('license=KEY')` gives the key back. */
  lemma QueryOfKey(key: string)
    requires '&' !in key && '%' !in key && '+' !in key
    ensures QueryVar(LicenseParam + "=" + key, LicenseParam) == Some(key)
  {
    assert '&' !in LicenseParam && '=' !in LicenseParam && '[' !in LicenseParam;
    assert '%' !in LicenseParam && '+' !in LicenseParam && ' ' !in LicenseParam && '.' !in LicenseParam;
    QueryOfPair(LicenseParam, key);
  }

  /** `parse_str('NAME=VALUE')` registers VALUE under NAME when neither needs decoding. */
  lemma QueryOfPair(name: string, value: string)
    requires name != "" && '&' !in name && '=' !in name && '[' !in name
    requires '%' !in name && '+' !in name && ' ' !in name && '.' !in name
    requires '&' !in value && '%' !in value && '+' !in value
    ensures QueryVar(name + "=" + value, name) == Some(value)
  {
    VarNamePlain(name);
    var query := name + "=" + value;
    assert query == name + ['='] + value;
    forall i | 0 <= i < |query| ensures query[i] != '&' {
      if i < |name| {
        assert query[i] == name[i];
      } else if i > |name| {
        assert query[i] == value[i - |name| - 1];
      }
    }
    SplitWithout(query, '&');
    BeforeAt(name, '=', value);
    assert query[|name| + 1..] == value;
    UrlDecodePlain(value);
    var pieces := [query];
    assert QueryPairs(pieces[1..]) == [];
    assert QueryPairs(pieces) == [(name, value)];
  }

  /** A name with nothing to decode, trim or replace is registered as it is. */
  lemma VarNamePlain(name: string)
    requires '%' !in name && '+' !in name && ' ' !in name && '.' !in name
    ensures VarName(name) == name
  {
    UrlDecodePlain(name);
    assert name == [] || name[0] != ' ';
    assert TrimLeft(name, {' '}) == name;
    ReplaceCharAbsent(name, ' ', "_");
    ReplaceCharAbsent(name, '.', "_");
  }

  /** The characters of a generated key are letters, digits and dashes. */
  lemma CanonicalIsPlain(key: string)
    requires LicenseKeys.IsCanonical(key)
    ensures WordPress.IsPlain(key)
    ensures '%' !in key && '+' !in key && '&' !in key && '#' !in key
    ensures CleanQueryValue(key)
  {
    forall i | 0 <= i < |key| ensures WordPress.IsPlainChar(key[i]) {
      if i < 3 { assert key[i] == key[..3][i]; }
    }
  }

  lemma SplitWithout(s: string, c: char)
    requires c !in s
    ensures Split(s, c) == [s]
  {
  }
}
