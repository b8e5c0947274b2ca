/** The sanitizer applied to string values before they go into the email:
    `value.replace(/</g, "&lt;").replace(/>/g, "&gt;")`. */
module Escape {

  /** `s.replace(/c/g, rep)` for a one-character pattern: every occurrence of
      `c`, left to right, becomes `rep`. */
  function ReplaceAll(s: string, c: char, rep: string): (r: string)
    ensures c !in rep ==> c !in r
  {
    if |s| == 0 then "" else (if s[0] == c then rep else [s[0]]) + ReplaceAll(s[1..], c, rep)
  }

  /** A replacement pass introduces no character that neither the input nor
      the replacement holds. */
  lemma {:induction false} ReplaceAllIntroducesNothing(s: string, c: char, rep: string, d: char)
    requires d !in s && d !in rep
    ensures d !in ReplaceAll(s, c, rep)
  {
    if |s| > 0 {
      assert s[0] in s;
      assert forall e :: e in s[1..] ==> e in s;
      ReplaceAllIntroducesNothing(s[1..], c, rep, d);
    }
  }

  predicate NoBrackets(s: string) {
    '<' !in s && '>' !in s
  }

  /** The two-pass escaping of a string value. */
  function EscapeHtml(s: string): (r: string)
    ensures NoBrackets(r)
  {
    var first := ReplaceAll(s, '<', "&lt;");
    ReplaceAllIntroducesNothing(first, '>', "&gt;", '<');
    ReplaceAll(first, '>', "&gt;")
  }

  /** The single-character map the two passes amount to. */
  function EscapeChar(c: char): string {
    if c == '<' then "&lt;" else if c == '>' then "&gt;" else [c]
  }

  /** Escaping as one left-to-right per-character map: the independent
      reference for EscapeHtml. */
  function EscapeMap(s: string): string {
    if |s| == 0 then "" else EscapeChar(s[0]) + EscapeMap(s[1..])
  }

  lemma {:induction false} ReplaceAllConcat(a: string, b: string, c: char, rep: string)
    ensures ReplaceAll(a + b, c, rep) == ReplaceAll(a, c, rep) + ReplaceAll(b, c, rep)
  {
    if |a| == 0 {
      assert a + b == b;
    } else {
      assert (a + b)[1..] == a[1..] + b;
      assert (a + b)[0] == a[0];
      ReplaceAllConcat(a[1..], b, c, rep);
    }
  }

  lemma ReplaceAllAbsent(s: string, c: char, rep: string)
    requires c !in s
    ensures ReplaceAll(s, c, rep) == s
  {
  }

  /** The two `replace` passes equal the single per-character map. */
  lemma {:induction false} TwoPassIsSingleMap(s: string)
    ensures EscapeHtml(s) == EscapeMap(s)
  {
    if |s| > 0 {
      var head := if s[0] == '<' then "&lt;" else [s[0]];
      var first := ReplaceAll(s[1..], '<', "&lt;");
      assert ReplaceAll(s, '<', "&lt;") == head + first;
      ReplaceAllConcat(head, first, '>', "&gt;");
      ReplaceAllAbsent("&lt;", '>', "&gt;");
      assert ReplaceAll([s[0]], '>', "&gt;") == (if s[0] == '>' then "&gt;" else [s[0]]);
      TwoPassIsSingleMap(s[1..]);
    }
  }

  /** A string without brackets passes through unchanged. */
  lemma {:induction false} EscapeIdentityWithoutBrackets(s: string)
    requires NoBrackets(s)
    ensures EscapeHtml(s) == s
  {
    TwoPassIsSingleMap(s);
    EscapeMapIdentity(s);
  }

  lemma {:induction false} EscapeMapIdentity(s: string)
    requires NoBrackets(s)
    ensures EscapeMap(s) == s
  {
    if |s| > 0 {
      assert s[0] in s;
      assert forall d :: d in s[1..] ==> d in s;
      EscapeMapIdentity(s[1..]);
      assert [s[0]] + s[1..] == s;
    }
  }

  /** Escaping distributes over concatenation. */
  lemma {:induction false} EscapeConcat(a: string, b: string)
    ensures EscapeHtml(a + b) == EscapeHtml(a) + EscapeHtml(b)
  {
    ReplaceAllConcat(a, b, '<', "&lt;");
    ReplaceAllConcat(ReplaceAll(a, '<', "&lt;"), ReplaceAll(b, '<', "&lt;"), '>', "&gt;");
  }

  /** Decoding of the two entities the sanitizer emits. */
  function Unescape(s: string): string
    decreases |s|
  {
    if |s| == 0 then ""
    else if |s| >= 4 && s[..4] == "&lt;" then "<" + Unescape(s[4..])
    else if |s| >= 4 && s[..4] == "&gt;" then ">" + Unescape(s[4..])
    else [s[0]] + Unescape(s[1..])
  }

  lemma {:induction false} UnescapeMap(s: string)
    requires '&' !in s
    ensures Unescape(EscapeMap(s)) == s
  {
    if |s| > 0 {
      var rest := EscapeMap(s[1..]);
      var e := EscapeChar(s[0]) + rest;
      assert s[0] in s;
      assert forall d :: d in s[1..] ==> d in s;
      UnescapeMap(s[1..]);
      if s[0] == '<' || s[0] == '>' {
        assert e[..4] == EscapeChar(s[0]);
        assert e[4..] == rest;
      } else {
        assert e[0] == s[0];
        assert e[1..] == rest;
      }
      assert [s[0]] + s[1..] == s;
    }
  }

  /** Round trip: on text without `&`, escaping loses nothing. */
  lemma EscapeRoundTrip(s: string)
    requires '&' !in s
    ensures Unescape(EscapeHtml(s)) == s
  {
    TwoPassIsSingleMap(s);
    UnescapeMap(s);
  }

  /** `&` is not escaped, so a literal "&lt;" and a real "<" render alike. */
  lemma EscapeCollision()
    ensures EscapeHtml("<") == EscapeHtml("&lt;") == "&lt;"
  {
    TwoPassIsSingleMap("<");
    TwoPassIsSingleMap("&lt;");
    assert EscapeMap("&lt;") == "&" + EscapeMap("lt;");
  }

  /** A bracket pair around bracket-free text becomes a pair of entities. */
  lemma EscapeTag(t: string)
    requires NoBrackets(t)
    ensures EscapeHtml("<" + t + ">") == "&lt;" + t + "&gt;"
  {
    EscapeConcat("<" + t, ">");
    EscapeConcat("<", t);
    EscapeIdentityWithoutBrackets(t);
    TwoPassIsSingleMap("<");
    TwoPassIsSingleMap(">");
  }

  /** Markup around bracket-free text arrives as text: with a = "script",
      m = "alert(1)", b = "/script" this is the script-tag injection. */
  lemma EscapeElement(a: string, m: string, b: string)
    requires NoBrackets(a) && NoBrackets(m) && NoBrackets(b)
    ensures EscapeHtml(("<" + a + ">") + m + ("<" + b + ">"))
         == ("&lt;" + a + "&gt;") + m + ("&lt;" + b + "&gt;")
  {
    var x, y := "<" + a + ">", "<" + b + ">";
    EscapeConcat(x + m, y);
    EscapeConcat(x, m);
    EscapeTag(a);
    EscapeTag(b);
    EscapeIdentityWithoutBrackets(m);
  }
}
