// Escaping for Telegram's HTML mode and its undoing for the plain-text
// fallback (backend/src/notifications/notification-templates.ts,
//  backend/src/notifications/telegram-sender.ts).
module Markup {

  // Replacement of every occurrence of a literal: leftmost matches, one pass.
  function ReplaceAll(s: string, pattern: string, repl: string): string
    requires pattern != ""
    decreases |s|
  {
    if s == "" then ""
    else if pattern <= s then repl + ReplaceAll(s[|pattern|..], pattern, repl)
    else [s[0]] + ReplaceAll(s[1..], pattern, repl)
  }

  function Esc(value: string): string {
    ReplaceAll(ReplaceAll(ReplaceAll(value, "&", "&amp;"), "<", "&lt;"), ">", "&gt;")
  }

  // Position of the first '>' in s, |s| when there is none.
  function FirstClose(s: string): (i: nat)
    ensures i <= |s|
    ensures i < |s| ==> s[i] == '>'
    ensures forall j | 0 <= j < i :: s[j] != '>'
    decreases |s|
  {
    if s == "" then 0 else if s[0] == '>' then 0 else 1 + FirstClose(s[1..])
  }

  // What counts as a tag: a '<', at least one character that is not '>',
  // then a '>'. A '<' that starts no such match is kept.
  function StripTags(s: string): string
    decreases |s|
  {
    if s == "" then ""
    else if s[0] == '<' then
      var close := FirstClose(s[1..]);
      if 0 < close < |s| - 1 then StripTags(s[close + 2..])
      else [s[0]] + StripTags(s[1..])
    else [s[0]] + StripTags(s[1..])
  }

  function Unescape(s: string): string {
    ReplaceAll(ReplaceAll(ReplaceAll(s, "&lt;", "<"), "&gt;", ">"), "&amp;", "&")
  }

  function HtmlToPlain(html: string): string {
    Unescape(StripTags(html))
  }

  // -------- the replacement passes, character by character --------

  // Image of a string under a character-wise substitution.
  function Subst(s: string, f: char -> string): string
    decreases |s|
  {
    if s == "" then "" else f(s[0]) + Subst(s[1..], f)
  }

  function Escaped(): char -> string {
    (c: char) => if c == '&' then "&amp;" else if c == '<' then "&lt;" else if c == '>' then "&gt;" else [c]
  }
  // What is left of Escaped after the first and the second unescape pass.
  function WithoutLt(): char -> string {
    (c: char) => if c == '&' then "&amp;" else if c == '>' then "&gt;" else [c]
  }
  function WithoutGt(): char -> string {
    (c: char) => if c == '&' then "&amp;" else [c]
  }

  lemma {:induction false} SubstConcat(a: string, b: string, f: char -> string)
    ensures Subst(a + b, f) == Subst(a, f) + Subst(b, f)
    decreases |a|
  {
    if a == "" {
      assert a + b == b;
    } else {
      SubstConcat(a[1..], b, f);
      assert (a + b)[1..] == a[1..] + b;
    }
  }

  lemma NotPrefix(p: string, s: string, i: nat)
    requires i < |p| && (i < |s| ==> s[i] != p[i])
    ensures !(p <= s)
  {
  }

  function CharReplacer(c: char, repl: string): char -> string {
    (x: char) => if x == c then repl else [x]
  }

  lemma {:induction false} ReplaceCharIsSubst(s: string, c: char, repl: string)
    ensures ReplaceAll(s, [c], repl) == Subst(s, CharReplacer(c, repl))
    decreases |s|
  {
    if s == "" {
    } else {
      ReplaceCharIsSubst(s[1..], c, repl);
      assert [c] <= s <==> s[0] == c;
    }
  }

  // A single-character pattern cannot straddle a concatenation.
  lemma ReplaceCharConcat(a: string, b: string, c: char, repl: string)
    ensures ReplaceAll(a + b, [c], repl) == ReplaceAll(a, [c], repl) + ReplaceAll(b, [c], repl)
  {
    ReplaceCharIsSubst(a, c, repl);
    ReplaceCharIsSubst(b, c, repl);
    ReplaceCharIsSubst(a + b, c, repl);
    SubstConcat(a, b, CharReplacer(c, repl));
  }

  lemma ReplaceInOneChar(x: char, c: char, repl: string)
    ensures ReplaceAll([x], [c], repl) == if x == c then repl else [x]
  {
    if x != c {
      NotPrefix([c], [x], 0);
    } else {
      ReplaceWord("", [c], repl);
      assert [c] + "" == [x];
    }
  }

  lemma EscConcat(a: string, b: string)
    ensures Esc(a + b) == Esc(a) + Esc(b)
  {
    var a1, b1 := ReplaceAll(a, "&", "&amp;"), ReplaceAll(b, "&", "&amp;");
    var a2, b2 := ReplaceAll(a1, "<", "&lt;"), ReplaceAll(b1, "<", "&lt;");
    ReplaceCharConcat(a, b, '&', "&amp;");
    ReplaceCharConcat(a1, b1, '<', "&lt;");
    ReplaceCharConcat(a2, b2, '>', "&gt;");
  }

  lemma {:induction false} ReplaceAbsent(s: string, c: char, repl: string)
    requires c !in s
    ensures ReplaceAll(s, [c], repl) == s
    decreases |s|
  {
    if s == "" {
    } else {
      ReplaceAbsent(s[1..], c, repl);
      NotPrefix([c], s, 0);
    }
  }

  lemma EscOneChar(c: char)
    ensures Esc([c]) == Escaped()(c)
    ensures c == '&' ==> Esc([c]) == "&amp;"
    ensures c == '<' ==> Esc([c]) == "&lt;"
    ensures c == '>' ==> Esc([c]) == "&gt;"
    ensures c !in {'&', '<', '>'} ==> Esc([c]) == [c]
  {
    ReplaceInOneChar(c, '&', "&amp;");
    if c == '&' {
      ReplaceAbsent("&amp;", '<', "&lt;");
      ReplaceAbsent("&amp;", '>', "&gt;");
    } else {
      ReplaceInOneChar(c, '<', "&lt;");
      if c == '<' {
        ReplaceAbsent("&lt;", '>', "&gt;");
      } else {
        ReplaceInOneChar(c, '>', "&gt;");
      }
    }
  }

  lemma {:induction false} EscIsSubst(s: string)
    ensures Esc(s) == Subst(s, Escaped())
    decreases |s|
  {
    if s == "" {
    } else {
      EscConcat([s[0]], s[1..]);
      assert s == [s[0]] + s[1..];
      EscOneChar(s[0]);
      EscIsSubst(s[1..]);
    }
  }

  // A word in which no occurrence of the pattern starts is copied.
  lemma {:induction false} CopyWord(w: string, rest: string, pattern: string, repl: string)
    requires pattern != ""
    requires forall k | 0 <= k < |w| :: !(pattern <= w[k..] + rest)
    ensures ReplaceAll(w + rest, pattern, repl) == w + ReplaceAll(rest, pattern, repl)
    decreases |w|
  {
    if w == "" {
      assert w + rest == rest;
    } else {
      forall k | 0 <= k < |w[1..]| ensures !(pattern <= w[1..][k..] + rest) {
        assert w[1..][k..] == w[k + 1..];
      }
      CopyWord(w[1..], rest, pattern, repl);
      assert w[0..] == w;
      assert (w + rest)[1..] == w[1..] + rest;
    }
  }

  lemma ReplaceWord(rest: string, pattern: string, repl: string)
    requires pattern != ""
    ensures ReplaceAll(pattern + rest, pattern, repl) == repl + ReplaceAll(rest, pattern, repl)
  {
    assert (pattern + rest)[|pattern|..] == rest;
  }

  // Entities start with '&' and have no other; two of them are told apart by
  // the character after it.
  lemma CopyEntity(w: string, rest: string, pattern: string, repl: string)
    requires |w| >= 1 && |pattern| >= 2 && pattern[0] == '&'
    requires w[0] == '&' ==> |w| >= 2 && w[1] != pattern[1]
    requires forall k | 1 <= k < |w| :: w[k] != '&'
    ensures ReplaceAll(w + rest, pattern, repl) == w + ReplaceAll(rest, pattern, repl)
  {
    forall k | 0 <= k < |w| ensures !(pattern <= w[k..] + rest) {
      var t := w[k..] + rest;
      assert t[0] == w[k];
      assert k == 0 && |w| >= 2 ==> t[1] == w[1];
      NotPrefix(pattern, t, if w[k] == '&' then 1 else 0);
    }
    CopyWord(w, rest, pattern, repl);
  }

  lemma {:induction false} UnescapeLt(s: string)
    ensures ReplaceAll(Subst(s, Escaped()), "&lt;", "<") == Subst(s, WithoutLt())
    decreases |s|
  {
    if s == "" {
    } else {
      UnescapeLt(s[1..]);
      var rest := Subst(s[1..], Escaped());
      if s[0] == '<' {
        ReplaceWord(rest, "&lt;", "<");
      } else {
        CopyEntity(Escaped()(s[0]), rest, "&lt;", "<");
      }
    }
  }

  lemma {:induction false} UnescapeGt(s: string)
    ensures ReplaceAll(Subst(s, WithoutLt()), "&gt;", ">") == Subst(s, WithoutGt())
    decreases |s|
  {
    if s == "" {
    } else {
      UnescapeGt(s[1..]);
      var rest := Subst(s[1..], WithoutLt());
      if s[0] == '>' {
        ReplaceWord(rest, "&gt;", ">");
      } else {
        CopyEntity(WithoutLt()(s[0]), rest, "&gt;", ">");
      }
    }
  }

  lemma {:induction false} UnescapeAmp(s: string)
    ensures ReplaceAll(Subst(s, WithoutGt()), "&amp;", "&") == s
    decreases |s|
  {
    if s == "" {
    } else {
      UnescapeAmp(s[1..]);
      var rest := Subst(s[1..], WithoutGt());
      if s[0] == '&' {
        ReplaceWord(rest, "&amp;", "&");
      } else {
        CopyEntity(WithoutGt()(s[0]), rest, "&amp;", "&");
      }
    }
  }

  lemma UnescapeUndoesEsc(s: string)
    ensures Unescape(Esc(s)) == s
  {
    EscIsSubst(s);
    UnescapeLt(s);
    UnescapeGt(s);
    UnescapeAmp(s);
  }

  // -------- tags --------

  lemma {:induction false} EscHasNoBrackets(s: string)
    ensures '<' !in Esc(s) && '>' !in Esc(s)
    decreases |s|
  {
    EscIsSubst(s);
    if s == "" {
    } else {
      EscHasNoBrackets(s[1..]);
      EscIsSubst(s[1..]);
    }
  }

  // Every '<' of the string starts a tag that is completed inside it, so
  // nothing that follows can be swallowed.
  predicate Closed(s: string)
    decreases |s|
  {
    s == "" ||
    if s[0] == '<' then
      var close := FirstClose(s[1..]);
      0 < close < |s| - 1 && Closed(s[close + 2..])
    else Closed(s[1..])
  }

  lemma {:induction false} FirstCloseStays(a: string, b: string)
    requires FirstClose(a) < |a|
    ensures FirstClose(a + b) == FirstClose(a)
    decreases |a|
  {
    if a[0] == '>' {
    } else {
      FirstCloseStays(a[1..], b);
      assert (a + b)[1..] == a[1..] + b;
    }
  }

  lemma {:induction false} StripConcat(a: string, b: string)
    requires Closed(a)
    ensures StripTags(a + b) == StripTags(a) + StripTags(b)
    ensures Closed(b) ==> Closed(a + b)
    decreases |a|
  {
    if a == "" {
      assert a + b == b;
    } else if a[0] == '<' {
      var close := FirstClose(a[1..]);
      FirstCloseStays(a[1..], b);
      assert (a + b)[1..] == a[1..] + b;
      assert (a + b)[close + 2..] == a[close + 2..] + b;
      StripConcat(a[close + 2..], b);
    } else {
      assert (a + b)[1..] == a[1..] + b;
      StripConcat(a[1..], b);
    }
  }

  lemma {:induction false} TextIsClosed(text: string)
    requires '<' !in text
    ensures Closed(text) && StripTags(text) == text
    decreases |text|
  {
    if text == "" {
    } else {
      TextIsClosed(text[1..]);
    }
  }

  lemma TagIsClosed(inner: string)
    requires inner != "" && '>' !in inner
    ensures Closed("<" + inner + ">") && StripTags("<" + inner + ">") == ""
  {
    var s := "<" + inner + ">";
    var tail := s[1..];
    assert tail == inner + ">";
    var close := FirstClose(tail);
    assert tail[|inner|] == '>';
    assert forall j | 0 <= j < |inner| :: tail[j] == inner[j];
    assert close == |inner|;
    assert s[close + 2..] == "";
  }

  // The round trip of the plain-text fallback, for every string.
  lemma PlainOfEscaped(s: string)
    ensures HtmlToPlain(Esc(s)) == s
  {
    EscHasNoBrackets(s);
    TextIsClosed(Esc(s));
    UnescapeUndoesEsc(s);
  }

  // What is taken for a tag: everything from a '<' to the next '>', if there is
  // something between them; an empty pair and an unclosed '<' are text.
  lemma TagsInWords(inner: string, rest: string)
    requires '>' !in inner
    ensures inner != "" ==> StripTags("<" + inner + ">" + rest) == StripTags(rest)
    ensures inner == "" ==> StripTags("<" + inner + ">" + rest) == "<" + StripTags(">" + rest)
    ensures StripTags("<" + inner) == "<" + StripTags(inner)
  {
    var s := "<" + inner + ">" + rest;
    var tail := s[1..];
    assert tail[|inner|] == '>' && forall j | 0 <= j < |inner| :: tail[j] == inner[j];
    assert FirstClose(tail) == |inner|;
    assert s[|inner| + 2..] == rest;
    assert inner == "" ==> tail == ">" + rest;
    var t := "<" + inner;
    assert t[1..] == inner && FirstClose(inner) == |inner|;
  }
}
