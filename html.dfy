/** The HTML escaping and answer formatting of the two browser scripts. */
module Html {

  import opened Common
  import opened Text

  /** The entity `escapeHTML` writes for each special character. */
  function EscapeChar(c: char): string {
    if c == '&' then "&amp;"
    else if c == '<' then "&lt;"
    else if c == '>' then "&gt;"
    else if c == '"' then "&quot;"
    else if c == '\'' then "&#39;"
    else [c]
  }

  /** The five global `.replace` calls of `escapeHTML`, `&` first. */
  function Escape(s: string): string {
    ReplaceChar(ReplaceChar(ReplaceChar(ReplaceChar(ReplaceChar(s, '&', "&amp;"), '<', "&lt;"), '>', "&gt;"), '"', "&quot;"), '\'', "&#39;")
  }

  /** Escaping one character at a time: the reference the chain of replacements is checked against. */
  function EscapeEach(s: string): string {
    if s == [] then [] else EscapeChar(s[0]) + EscapeEach(s[1..])
  }

  /** Decode the five entities `escapeHTML` writes; anything else is kept. */
  function Unescape(s: string): string
    decreases |s|
  {
    if s == [] then []
    else if StartsWith(s, "&amp;") then "&" + Unescape(s[5..])
    else if StartsWith(s, "&lt;") then "<" + Unescape(s[4..])
    else if StartsWith(s, "&gt;") then ">" + Unescape(s[4..])
    else if StartsWith(s, "&quot;") then "\"" + Unescape(s[6..])
    else if StartsWith(s, "&#39;") then "'" + Unescape(s[5..])
    else [s[0]] + Unescape(s[1..])
  }

  /** One replacement applied to a one-character string. */
  lemma ReplaceOne(c: char, from: char, to: string)
    ensures ReplaceChar([c], from, to) == if c == from then to else [c]
  {
    assert [c][1..] == [];
  }

  /** The chain applied to one character yields that character's entity. */
  lemma EscapeOne(c: char)
    ensures Escape([c]) == EscapeChar(c)
  {
    ReplaceOne(c, '&', "&amp;");
    if c == '&' {
      EntityKept("&amp;", '<', '>', '"', '\'');
    } else {
      ReplaceOne(c, '<', "&lt;");
      if c == '<' {
        EntityKept("&lt;", '>', '>', '"', '\'');
      } else {
        ReplaceOne(c, '>', "&gt;");
        if c == '>' {
          EntityKept("&gt;", '"', '"', '"', '\'');
        } else {
          ReplaceOne(c, '"', "&quot;");
          ReplaceOne(c, '\'', "&#39;");
          if c == '"' {
            EntityKept("&quot;", '\'', '\'', '\'', '\'');
          }
        }
      }
    }
  }

  /** An entity holds none of the characters replaced after it, so later replacements keep it. */
  lemma EntityKept(e: string, a: char, b: char, c: char, d: char)
    requires a !in e && b !in e && c !in e && d !in e
    ensures ReplaceChar(e, a, "&lt;") == e && ReplaceChar(e, b, "&gt;") == e
    ensures ReplaceChar(e, c, "&quot;") == e && ReplaceChar(e, d, "&#39;") == e
  {
    ReplaceCharAbsent(e, a, "&lt;");
    ReplaceCharAbsent(e, b, "&gt;");
    ReplaceCharAbsent(e, c, "&quot;");
    ReplaceCharAbsent(e, d, "&#39;");
  }

  lemma EscapeAppend(a: string, b: string)
    ensures Escape(a + b) == Escape(a) + Escape(b)
  {
    ReplaceCharAppend(a, b, '&', "&amp;");
    var a1, b1 := ReplaceChar(a, '&', "&amp;"), ReplaceChar(b, '&', "&amp;");
    ReplaceCharAppend(a1, b1, '<', "&lt;");
    var a2, b2 := ReplaceChar(a1, '<', "&lt;"), ReplaceChar(b1, '<', "&lt;");
    ReplaceCharAppend(a2, b2, '>', "&gt;");
    var a3, b3 := ReplaceChar(a2, '>', "&gt;"), ReplaceChar(b2, '>', "&gt;");
    ReplaceCharAppend(a3, b3, '"', "&quot;");
    var a4, b4 := ReplaceChar(a3, '"', "&quot;"), ReplaceChar(b3, '"', "&quot;");
    ReplaceCharAppend(a4, b4, '\'', "&#39;");
  }

  /** Replacing `&` before the other four makes the chain escape each character once. */
  lemma {:induction false} EscapeIsPerChar(s: string)
    ensures Escape(s) == EscapeEach(s)
  {
    if s != [] {
      assert s == [s[0]] + s[1..];
      EscapeAppend([s[0]], s[1..]);
      EscapeOne(s[0]);
      EscapeIsPerChar(s[1..]);
    }
  }

  /** Decoding an entity followed by anything. */
  lemma UnescapeChar(c: char, t: string)
    ensures Unescape(EscapeChar(c) + t) == [c] + Unescape(t)
  {
    if c == '&' {
      UnescapeAmp(t);
    } else if c == '<' {
      UnescapeLt(t);
    } else if c == '>' {
      UnescapeGt(t);
    } else if c == '"' {
      UnescapeQuot(t);
    } else if c == '\'' {
      UnescapeApos(t);
    } else {
      UnescapePlain(c, t);
    }
  }

  lemma UnescapeAmp(t: string)
    ensures Unescape("&amp;" + t) == "&" + Unescape(t)
  {
    var s := "&amp;" + t;
    assert s[..5] == "&amp;" && s[5..] == t;
  }

  lemma UnescapeLt(t: string)
    ensures Unescape("&lt;" + t) == "<" + Unescape(t)
  {
    var s := "&lt;" + t;
    assert s[1] == 'l';
    NotPrefixedAt(s, "&amp;", 1);
    assert s[..4] == "&lt;" && s[4..] == t;
  }

  lemma UnescapeGt(t: string)
    ensures Unescape("&gt;" + t) == ">" + Unescape(t)
  {
    var s := "&gt;" + t;
    assert s[1] == 'g';
    NotPrefixedAt(s, "&amp;", 1);
    NotPrefixedAt(s, "&lt;", 1);
    assert s[..4] == "&gt;" && s[4..] == t;
  }

  lemma UnescapeQuot(t: string)
    ensures Unescape("&quot;" + t) == "\"" + Unescape(t)
  {
    var s := "&quot;" + t;
    assert s[1] == 'q';
    NotPrefixedAt(s, "&amp;", 1);
    NotPrefixedAt(s, "&lt;", 1);
    NotPrefixedAt(s, "&gt;", 1);
    assert s[..6] == "&quot;" && s[6..] == t;
  }

  lemma UnescapeApos(t: string)
    ensures Unescape("&#39;" + t) == "'" + Unescape(t)
  {
    var s := "&#39;" + t;
    assert s[1] == '#';
    NotPrefixedAt(s, "&amp;", 1);
    NotPrefixedAt(s, "&lt;", 1);
    NotPrefixedAt(s, "&gt;", 1);
    NotPrefixedAt(s, "&quot;", 1);
    assert s[..5] == "&#39;" && s[5..] == t;
  }

  lemma UnescapePlain(c: char, t: string)
    requires c != '&'
    ensures Unescape([c] + t) == [c] + Unescape(t)
  {
    var s := [c] + t;
    assert s[0] == c && s[1..] == t;
    NotPrefixedAt(s, "&amp;", 0);
    NotPrefixedAt(s, "&lt;", 0);
    NotPrefixedAt(s, "&gt;", 0);
    NotPrefixedAt(s, "&quot;", 0);
    NotPrefixedAt(s, "&#39;", 0);
  }

  /** A string does not start with a prefix it differs from at some position. */
  lemma NotPrefixedAt(s: string, p: string, k: nat)
    requires k < |s| && k < |p| && s[k] != p[k]
    ensures !StartsWith(s, p)
  {
    if |p| <= |s| {
      assert s[..|p|][k] == s[k];
    }
  }

  /** Escaping loses nothing: decoding gives the text back. */
  lemma {:induction false} EscapeRoundTrip(s: string)
    ensures Unescape(Escape(s)) == s
  {
    EscapeIsPerChar(s);
    EscapeEachRoundTrip(s);
  }

  lemma {:induction false} EscapeEachRoundTrip(s: string)
    ensures Unescape(EscapeEach(s)) == s
  {
    if s != [] {
      UnescapeChar(s[0], EscapeEach(s[1..]));
      EscapeEachRoundTrip(s[1..]);
      assert [s[0]] + s[1..] == s;
    }
  }

  /** The output holds no raw `<`, `>`, `"` or `'`. */
  lemma {:induction false} EscapeIsSafe(s: string)
    ensures forall i :: 0 <= i < |Escape(s)| ==> Escape(s)[i] !in {'<', '>', '"', '\''}
  {
    EscapeIsPerChar(s);
    EscapeEachSafe(s);
  }

  lemma {:induction false} EscapeEachSafe(s: string)
    ensures forall i :: 0 <= i < |EscapeEach(s)| ==> EscapeEach(s)[i] !in {'<', '>', '"', '\''}
  {
    if s != [] {
      EscapeEachSafe(s[1..]);
      var head, rest := EscapeChar(s[0]), EscapeEach(s[1..]);
      assert forall i :: 0 <= i < |head| ==> head[i] !in {'<', '>', '"', '\''};
      forall i | 0 <= i < |head + rest| ensures (head + rest)[i] !in {'<', '>', '"', '\''} {
        if i >= |head| {
          assert (head + rest)[i] == rest[i - |head|];
        }
      }
    }
  }

  /** JavaScript `String(value || '')`, with numbers modelled as integers. */
  function JsStringOf(v: JsVal): string {
    if !JsTruthy(v) then ""
    else match v
      case JStr(s) => s
      case JBool(_) => "true"
      case JNum(n) => if n < 0 then "-" + NatToString(-n) else NatToString(n)
      case _ => "[object Object]"
  }

  /** luna-chat.js `escapeHTML`. */
  function ChatEscape(v: JsVal): (r: string)
    ensures !JsTruthy(v) ==> r == ""
    ensures v.JStr? ==> Unescape(r) == v.s
  {
    if v.JStr? then (EscapeRoundTrip(v.s); Escape(v.s)) else Escape(JsStringOf(v))
  }

  /** luna-composer-hub.js `escapeHTML`: `(input || '')` then the same chain; it is only given strings. */
  function HubEscape(input: JsVal): (r: string)
    requires input.JStr? || !JsTruthy(input)
    ensures !JsTruthy(input) ==> r == ""
    ensures input.JStr? ==> Unescape(r) == input.s
  {
    if input.JStr? then (EscapeRoundTrip(input.s); Escape(input.s)) else Escape("")
  }

  /** The length of the leading run of newlines. */
  function NewlineRun(s: string): (n: nat)
    ensures n <= |s|
    ensures forall i :: 0 <= i < n ==> s[i] == '\n'
    ensures n < |s| ==> s[n] != '\n'
  {
    if s != [] && s[0] == '\n' then 1 + NewlineRun(s[1..]) else 0
  }

  /** `.replace(/\n{2,}/g, '<br><br>')`. */
  function CollapseRuns(s: string): string
    decreases |s|
  {
    if s == [] then []
    else if s[0] == '\n' && NewlineRun(s) >= 2 then "<br><br>" + CollapseRuns(s[NewlineRun(s)..])
    else [s[0]] + CollapseRuns(s[1..])
  }

  /** The reference: a run of two or more newlines is a paragraph break, a lone newline a line break. */
  function BreakRuns(s: string): string
    decreases |s|
  {
    if s == [] then []
    else if s[0] == '\n' then
      (if NewlineRun(s) >= 2 then "<br><br>" else "<br>") + BreakRuns(s[NewlineRun(s)..])
    else [s[0]] + BreakRuns(s[1..])
  }

  /** The two replacements of `formatAnswer`. */
  function FormatNewlines(s: string): (r: string)
    ensures '\n' !in r
  {
    ReplaceChar(CollapseRuns(s), '\n', "<br>")
  }

  /** The two-step replacement breaks each run according to its length. */
  lemma {:induction false} FormatNewlinesBreaksRuns(s: string)
    ensures FormatNewlines(s) == BreakRuns(s)
    decreases |s|
  {
    if s != [] {
      var n := NewlineRun(s);
      if s[0] == '\n' && n >= 2 {
        ReplaceCharAppend("<br><br>", CollapseRuns(s[n..]), '\n', "<br>");
        ReplaceCharAbsent("<br><br>", '\n', "<br>");
        FormatNewlinesBreaksRuns(s[n..]);
      } else {
        ReplaceCharAppend([s[0]], CollapseRuns(s[1..]), '\n', "<br>");
        FormatNewlinesBreaksRuns(s[1..]);
        if s[0] == '\n' {
          assert n == 1;
        }
      }
    }
  }

  /** Text without newlines passes through the formatting unchanged. */
  lemma {:induction false} FormatPlain(s: string)
    requires '\n' !in s
    ensures FormatNewlines(s) == s
    decreases |s|
  {
    FormatNewlinesBreaksRuns(s);
    BreakRunsPlain(s);
  }

  lemma {:induction false} BreakRunsPlain(s: string)
    requires '\n' !in s
    ensures BreakRuns(s) == s
    decreases |s|
  {
    if s != [] {
      assert s[0] in s;
      assert forall c :: c in s[1..] ==> c in s;
      BreakRunsPlain(s[1..]);
      assert [s[0]] + s[1..] == s;
    }
  }

  /** luna-chat.js `formatAnswer`: escape, then turn newlines into breaks. */
  function ChatFormatAnswer(answer: JsVal): (r: string)
    ensures '\n' !in r
  {
    FormatNewlines(ChatEscape(answer))
  }

  /** luna-composer-hub.js `formatAnswer`: trim, escape, then turn newlines into breaks. */
  function HubFormatAnswer(answer: JsVal): (r: string)
    requires answer.JStr? || !JsTruthy(answer)
    ensures '\n' !in r
  {
    FormatNewlines(HubEscape(JStr(JsTrim(if JsTruthy(answer) then answer.s else ""))))
  }

  /** The composer hub formats what the chat page would format after trimming. */
  lemma HubTrimsFirst(s: string)
    ensures HubFormatAnswer(JStr(s)) == ChatFormatAnswer(JStr(JsTrim(s)))
  {
  }
}
