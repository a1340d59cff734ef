/** Worked examples of the response sanitizer on particular replies. */
module SanitizerExamples {
  import opened Text
  import opened Sanitizer

  /** The reply `Here you go: [1,2,3] thanks` is cut down to its array. */
  lemma ProseAroundArrayExample(parses: string -> bool)
    requires parses("[1,2,3]")
    ensures Cleaned("Here you go: [1,2,3] thanks", parses) == "[1,2,3]"
  {
    assert "Here you go: [1,2,3] thanks" == "Here you go: " + "[1,2,3]" + " thanks";
    ProseAroundArray("Here you go: ", "[1,2,3]", " thanks", parses);
  }

  /** A fenced one-element array loses its fence. */
  lemma FencedArrayExample(parses: string -> bool)
    requires parses("[{\"a\":1}]")
    ensures Cleaned("```json\n[{\"a\":1}]\n```", parses) == "[{\"a\":1}]"
  {
    assert "```json\n[{\"a\":1}]\n```" == JsonFence + "\n" + "[{\"a\":1}]" + "\n" + Fence;
    FencedArrayUnwrapped("[{\"a\":1}]", parses);
  }

  /** The over-escaped reply `[\"a\\nb\"]`: `\n` is replaced before `\\`,
      so the repair turns it into `["a\`, a line feed, and `b"]`, not into the
      text `["a\nb"]`. */
  lemma OverEscapedReply(reply: string)
    requires reply == "[\\\"a\\\\nb\\\"]"
    ensures Repaired(reply) == "[\"a\\\nb\"]"
  {
    OverEscapedUnescaped(reply);
    OverEscapedPrintable(UnescapedAll(reply));
    assert IsTrimmed(UnescapedAll(reply));
    RepairedAfterUnescaping(reply);
  }

  /** The un-escaped reply holds no control character but a line feed. */
  lemma OverEscapedPrintable(r: string)
    requires r == "[\"a\\\nb\"]"
    ensures KeptPrintable(r) == r
  {
    assert forall k :: 0 <= k < |r| ==> Printable(r[k]);
    KeptPrintableWhenPrintable(r);
  }

  /** The un-escaping steps of the over-escaped reply, one by one. */
  lemma OverEscapedUnescaped(s: string)
    requires s == "[\\\"a\\\\nb\\\"]"
    ensures UnescapedAll(s) == "[\"a\\\nb\"]"
  {
    var s1 := Unescaped(s, 'n', '\n');
    OverEscapedNewline(s);
    OverEscapedNoOtherPair(s1);
    OverEscapedQuotes(s1);
  }

  /** Un-escaping replaces a pair at the front. */
  lemma UnescapedConsPair(t: string, letter: char, replacement: char)
    ensures Unescaped(['\\', letter] + t, letter, replacement) == [replacement] + Unescaped(t, letter, replacement)
  {
    assert (['\\', letter] + t)[2..] == t;
  }

  /** A text with no backslash followed by the letter is left unchanged. */
  lemma UnescapedNoPair(s: string, letter: char, replacement: char)
    requires forall k :: 0 <= k < |s| - 1 && s[k] == '\\' ==> s[k + 1] != letter
    ensures Unescaped(s, letter, replacement) == s
  {
    assert s + [] == s;
    UnescapedNoPairPrefix(s, [], letter, replacement);
  }

  /** `\n` is replaced first, leaving the other backslashes. */
  lemma OverEscapedNewline(s: string)
    requires s == "[\\\"a\\\\nb\\\"]"
    ensures Unescaped(s, 'n', '\n') == "[\\\"a\\\nb\\\"]"
  {
    var a, c := s[..5], s[7..];
    assert s == a + (['\\', 'n'] + c);
    UnescapedNoPairPrefix(a, ['\\', 'n'] + c, 'n', '\n');
    UnescapedConsPair(c, 'n', '\n');
    UnescapedNoPair(c, 'n', '\n');
    assert a + (['\n'] + c) == "[\\\"a\\\nb\\\"]";
  }

  /** After that step, no backslash is followed by `r`, `t` or a backslash. */
  lemma OverEscapedNoOtherPair(s: string)
    requires s == "[\\\"a\\\nb\\\"]"
    ensures Unescaped(s, 'r', '\r') == s
    ensures Unescaped(s, 't', '\t') == s
    ensures Unescaped(s, '\\', '\\') == s
  {
    UnescapedNoPair(s, 'r', '\r');
    UnescapedNoPair(s, 't', '\t');
    UnescapedNoPair(s, '\\', '\\');
  }

  /** `\"` becomes `"`. */
  lemma OverEscapedQuotes(s: string)
    requires s == "[\\\"a\\\nb\\\"]"
    ensures Unescaped(s, '"', '"') == "[\"a\\\nb\"]"
  {
    var a, t := s[..1], s[3..];
    assert s == a + (['\\', '"'] + t);
    UnescapedNoPairPrefix(a, ['\\', '"'] + t, '"', '"');
    UnescapedConsPair(t, '"', '"');
    OverEscapedQuotesTail(t);
    assert a + (['"'] + "a\\\nb\"]") == "[\"a\\\nb\"]";
  }

  /** The second `\"` of the reply becomes `"` as well. */
  lemma OverEscapedQuotesTail(t: string)
    requires t == "a\\\nb\\\"]"
    ensures Unescaped(t, '"', '"') == "a\\\nb\"]"
  {
    var m, c := t[..4], t[6..];
    assert t == m + (['\\', '"'] + c);
    UnescapedNoPairPrefix(m, ['\\', '"'] + c, '"', '"');
    UnescapedConsPair(c, '"', '"');
    UnescapedNoPair(c, '"', '"');
    assert m + (['"'] + c) == "a\\\nb\"]";
  }
}
