/** SQLite's LIKE operator, as `event_key_like` uses it: `%` matches any run,
    `_` any one character, and ASCII letters match in either case.
 */
module Like {
  import opened Events

  function Fold(c: char): char {
    if 'A' <= c <= 'Z' then c - 'A' + 'a' else c
  }

  predicate Matches(pattern: string, text: string)
    decreases |pattern| + |text|
  {
    if pattern == "" then text == ""
    else if pattern[0] == '%' then
      Matches(pattern[1..], text) || (text != "" && Matches(pattern, text[1..]))
    else
      text != "" && (pattern[0] == '_' || Fold(pattern[0]) == Fold(text[0])) && Matches(pattern[1..], text[1..])
  }

  // A pattern character other than `%` against one character of the text.
  predicate Accepts(p: char, c: char) { p == '_' || Fold(p) == Fold(c) }

  // An underscore fits any character, a letter itself in either case.
  lemma AcceptsIff(p: char, c: char)
    ensures Accepts(p, c) <==>
      || p == '_' || p == c
      || ('A' <= p <= 'Z' && c as int == p as int + 32) || ('a' <= p <= 'z' && p as int == c as int + 32)
  {
    assert 'a' as int - 'A' as int == 32;
  }

  predicate NoPercent(s: string) { forall i :: 0 <= i < |s| ==> s[i] != '%' }

  // What a pattern without `%` accepts: one character of text for each of its own.
  predicate Fits(pattern: string, text: string) {
    |pattern| == |text| && forall i :: 0 <= i < |pattern| ==> Accepts(pattern[i], text[i])
  }

  // Text may contain wildcards and is still matched by itself.
  lemma {:induction false} MatchesAfterSame(x: string, pattern: string, text: string)
    requires Matches(pattern, text)
    ensures Matches(x + pattern, x + text)
  {
    if x == "" {
      assert x + pattern == pattern && x + text == text;
    } else {
      MatchesAfterSame(x[1..], pattern, text);
      assert (x + pattern)[1..] == x[1..] + pattern && (x + text)[1..] == x[1..] + text;
      if x[0] == '%' {
        assert Matches(x + pattern, (x + text)[1..]);
      }
    }
  }

  lemma MatchesItself(x: string)
    ensures Matches(x, x)
  {
  }

  lemma {:induction false} PercentSkips(pattern: string, skipped: string, text: string)
    requires Matches(pattern, text)
    ensures Matches("%" + pattern, skipped + text)
  {
    assert ("%" + pattern)[1..] == pattern;
    if skipped == "" {
      assert skipped + text == text;
    } else {
      PercentSkips(pattern, skipped[1..], text);
      assert (skipped + text)[1..] == skipped[1..] + text;
    }
  }

  // Whatever wildcards `head` and `tail` contain, nothing that really has the
  // shape is missed.
  lemma NoTwinMissed(head: string, middle: string, tail: string)
    ensures Matches(head + "%" + tail, head + middle + tail)
  {
    MatchesItself(tail);
    PercentSkips(tail, middle, tail);
    MatchesAfterSame(head, "%" + tail, middle + tail);
    assert head + "%" + tail == head + ("%" + tail) && head + middle + tail == head + (middle + tail);
  }

  lemma FitsHead(pattern: string, text: string)
    requires pattern != "" && text != ""
    ensures Fits(pattern, text) <==> Accepts(pattern[0], text[0]) && Fits(pattern[1..], text[1..])
  {
    assert |pattern| == |text| ==> forall i :: 0 < i < |pattern| ==>
      pattern[i] == pattern[1..][i - 1] && text[i] == text[1..][i - 1];
  }

  lemma {:induction false} PrefixFits(head: string, pattern: string, text: string)
    requires NoPercent(head)
    ensures Matches(head + pattern, text) <==>
            |head| <= |text| && Fits(head, text[..|head|]) && Matches(pattern, text[|head|..])
  {
    if head == "" {
      assert head + pattern == pattern && text[|head|..] == text;
    } else {
      assert (head + pattern)[1..] == head[1..] + pattern;
      if text != "" {
        PrefixFits(head[1..], pattern, text[1..]);
        if |head| <= |text| {
          assert text[1..][..|head| - 1] == text[..|head|][1..];
          assert text[1..][|head| - 1..] == text[|head|..];
          FitsHead(head, text[..|head|]);
        }
      }
    }
  }

  lemma {:induction false} SuffixFits(tail: string, text: string)
    requires NoPercent(tail)
    ensures Matches("%" + tail, text) <==> |tail| <= |text| && Fits(tail, text[|text| - |tail|..])
  {
    assert ("%" + tail)[1..] == tail;
    PrefixFits(tail, "", text);
    assert tail + "" == tail;
    if |text| == |tail| {
      assert text[..|tail|] == text == text[0..];
    }
    if text != "" {
      SuffixFits(tail, text[1..]);
      if |tail| < |text| {
        assert text[1..][|text| - 1 - |tail|..] == text[|text| - |tail|..];
      }
    }
  }

  // A pattern without `%` accepts exactly what it fits.
  lemma FitsIsMatch(pattern: string, text: string)
    requires NoPercent(pattern)
    ensures Matches(pattern, text) <==> Fits(pattern, text)
  {
    PrefixFits(pattern, "", text);
    assert pattern + "" == pattern;
    if |pattern| == |text| { assert text[..|pattern|] == text; }
  }

  lemma TailOfTail(text: string, head: nat, tail: nat)
    requires head + tail <= |text|
    ensures |text[head..]| == |text| - head && text[head..][|text[head..]| - tail..] == text[|text| - tail..]
  {
  }

  predicate StartsLike(text: string, head: string) { |head| <= |text| && Fits(head, text[..|head|]) }

  predicate EndsLike(text: string, tail: string) { |tail| <= |text| && Fits(tail, text[|text| - |tail|..]) }

  // `head%tail` accepts exactly the texts whose start the head fits and whose
  // end the tail fits without overlap; `_` and letter case are part of fitting.
  lemma PatternExact(head: string, tail: string, text: string)
    requires NoPercent(head) && NoPercent(tail)
    ensures Matches(head + "%" + tail, text) <==>
      |head| + |tail| <= |text| && StartsLike(text, head) && EndsLike(text, tail)
  {
    var pattern := "%" + tail;
    assert head + "%" + tail == head + pattern;
    PrefixFits(head, pattern, text);
    if |head| <= |text| {
      SuffixFits(tail, text[|head|..]);
      if |head| + |tail| <= |text| { TailOfTail(text, |head|, |tail|); }
    }
  }

  // Joined patterns accept exactly the joins of what they accept.
  lemma {:induction false} MatchesSplit(p: string, q: string, t: string) returns (k: nat)
    requires Matches(p + q, t)
    ensures k <= |t| && Matches(p, t[..k]) && Matches(q, t[k..])
    decreases |p| + |t|
  {
    if p == "" {
      k := 0;
      assert p + q == q && t[0..] == t;
    } else {
      assert (p + q)[1..] == p[1..] + q;
      if p[0] == '%' && Matches(p[1..] + q, t) {
        k := MatchesSplit(p[1..], q, t);
      } else {
        k := MatchesSplit(if p[0] == '%' then p else p[1..], q, t[1..]);
        assert t[..k + 1][1..] == t[1..][..k] && t[1..][k..] == t[k + 1..];
        k := k + 1;
      }
    }
  }

  // The text starts with something the head accepts and ends with something the
  // tail accepts, without overlap.
  ghost predicate Around(head: string, tail: string, text: string) {
    exists i: nat, j: nat :: i <= j <= |text| && Matches(head, text[..i]) && Matches(tail, text[j..])
  }

  lemma PatternSplits(head: string, tail: string, text: string)
    ensures Matches(head + "%" + tail, text) <==> Around(head, tail, text)
  {
    if Matches(head + "%" + tail, text) {
      var j := MatchesSplit(head + "%", tail, text);
      var i := MatchesSplit(head, "%", text[..j]);
      assert text[..j][..i] == text[..i];
    }
    if Around(head, tail, text) {
      var i: nat, j: nat :| i <= j <= |text| && Matches(head, text[..i]) && Matches(tail, text[j..]);
      PercentSkips(tail, text[i..j], text[j..]);
      MatchesJoin(head, "%" + tail, text[..i], text[i..j] + text[j..]);
      assert head + ("%" + tail) == head + "%" + tail && text[..i] + (text[i..j] + text[j..]) == text;
    }
  }

  // ---- A name and a mark ------------------------------------------------------

  // No colon of the text is followed by the letter.
  predicate NeverAfterColon(text: string, c: char) {
    forall i :: 0 <= i < |text| - 1 && text[i] == ':' ==> Fold(text[i + 1]) != Fold(c)
  }

  predicate Literal(c: char) { c != '%' && c != '_' }

  // Such a text has no room for a colon and the letter, whatever comes before.
  lemma {:induction false} NoRoom(p: string, q: string, text: string)
    requires q != "" && Literal(q[0]) && NeverAfterColon(text, q[0])
    ensures !Matches(p + ":" + q, text)
    decreases |p| + |text|
  {
    var pattern := p + ":" + q;
    if p == "" {
      assert pattern[0] == ':' && pattern[1..] == q;
    } else {
      assert pattern[0] == p[0] && pattern[1..] == p[1..] + ":" + q;
      NoRoom(p[1..], q, text);
      if text != "" {
        TailKeeps(text, q[0]);
        NoRoom(p, q, text[1..]);
        NoRoom(p[1..], q, text[1..]);
      }
    }
  }

  lemma TailKeeps(text: string, c: char)
    requires text != "" && NeverAfterColon(text, c)
    ensures NeverAfterColon(text[1..], c)
  {
    var tail := text[1..];
    forall i | 0 <= i < |tail| - 1 && tail[i] == ':'
      ensures Fold(tail[i + 1]) != Fold(c)
    {
      assert text[i + 1] == ':';
    }
  }

  lemma {:induction false} MatchesJoin(p: string, q: string, t: string, u: string)
    requires Matches(p, t) && Matches(q, u)
    ensures Matches(p + q, t + u)
    decreases |p| + |t|
  {
    if p == "" {
      assert p + q == q && t + u == u;
    } else {
      assert (p + q)[1..] == p[1..] + q;
      if p[0] == '%' && Matches(p[1..], t) {
        MatchesJoin(p[1..], q, t, u);
      } else {
        assert (t + u)[1..] == t[1..] + u;
        MatchesJoin(if p[0] == '%' then p else p[1..], q, t[1..], u);
      }
    }
  }

  lemma ColonFirst(q: string, t: string, u: string)
    requires NoColon(t) && t != ""
    ensures !Matches(":" + q, t + ":" + u)
  {
    assert (t + ":" + u)[0] == t[0];
  }

  // With no room behind it, no wildcard can take the first colon of the text: the
  // parts before the first colons match each other.
  lemma {:induction false} ColonAligns(p: string, q: string, t: string, u: string)
    requires NoColon(p) && NoColon(t) && q != "" && Literal(q[0]) && NeverAfterColon(u, q[0])
    requires Matches(p + ":" + q, t + ":" + u)
    ensures Matches(p, t)
    decreases |p| + |t|
  {
    var pattern, text := p + ":" + q, t + ":" + u;
    assert text[1..] == if t == "" then u else t[1..] + ":" + u;
    if p == "" {
      assert pattern == ":" + q;
      if t != "" { ColonFirst(q, t, u); }
    } else {
      assert pattern[1..] == p[1..] + ":" + q;
      NoRoom(p, q, u);
      NoRoom(p[1..], q, u);
      if p[0] == '%' && Matches(p[1..] + ":" + q, text) {
        ColonAligns(p[1..], q, t, u);
      } else if t != "" {
        ColonAligns(if p[0] == '%' then p else p[1..], q, t[1..], u);
      }
    }
  }

  // So a colon-free name followed by a fixed mark, which occurs behind no later
  // colon, is found under exactly the names it matches.
  lemma NameMatchesIff(p: string, t: string, mark: string, rest: string)
    requires NoColon(p) && NoColon(t) && mark != "" && Literal(mark[0]) && NeverAfterColon(mark + rest, mark[0])
    ensures Matches(p + ":" + (mark + "%"), t + ":" + (mark + rest)) <==> Matches(p, t)
  {
    if Matches(p, t) { NameThenMark(p, t, mark, rest); }
    if Matches(p + ":" + (mark + "%"), t + ":" + (mark + rest)) {
      assert (mark + "%")[0] == mark[0];
      ColonAligns(p, mark + "%", t, mark + rest);
    }
  }

  lemma NameThenMark(p: string, t: string, mark: string, rest: string)
    requires Matches(p, t)
    ensures Matches(p + ":" + (mark + "%"), t + ":" + (mark + rest))
  {
    MatchesItself(":" + mark);
    assert "%" + "" == "%" && rest + "" == rest;
    PercentSkips("", rest, "");
    MatchesJoin(":" + mark, "%", ":" + mark, rest);
    MatchesJoin(p, ":" + mark + "%", t, ":" + mark + rest);
    assert p + ":" + (mark + "%") == p + (":" + mark + "%") && t + ":" + (mark + rest) == t + (":" + mark + rest);
  }
}
