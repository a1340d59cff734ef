/** The response sanitizer (`cleanJsonResponse`): recovers a JSON array from the
    language model's raw reply. The pipeline is specified step by step by pure
    functions; `CleanJsonResponse` carries it out imperatively and is proved to
    agree with `Cleaned`. `JSON.parse` is not modelled: the caller supplies
    `parses`, which tells whether a text is accepted by it. */
module Sanitizer {
  import opened Text

  const JsonFence := "```json"
  const Fence := "```"

  /** `s.replace(/<opening>\n?/, '')` for an `s` that starts with `opening`:
      removes the opening marker and one line feed right after it. */
  function DropOpening(s: string, opening: string): (r: string)
    requires StartsWith(s, opening)
    ensures |r| <= |s| - |opening|
  {
    var rest := s[|opening|..];
    if StartsWith(rest, "\n") then rest[1..] else rest
  }

  /** `s.replace(/\n?```$/, '')`: removes a closing fence at the very end, with
      the line feed before it when there is one. */
  function DropClosing(s: string): (r: string)
    ensures |r| <= |s|
    ensures r == s[..|r|]
    ensures EndsWith(s, Fence) <==> |r| < |s|
  {
    if EndsWith(s, "\n" + Fence) then s[..|s| - 4]
    else if EndsWith(s, Fence) then s[..|s| - 3]
    else s
  }

  /** The two fence-stripping steps: first a ```json fence, then a bare ``` fence. */
  function Unfenced(s: string): (r: string)
    ensures |r| <= |s|
    ensures !StartsWith(s, Fence) ==> r == s
  {
    var s1 := if StartsWith(s, JsonFence) then DropClosing(DropOpening(s, JsonFence)) else s;
    if StartsWith(s1, Fence) then DropClosing(DropOpening(s1, Fence)) else s1
  }

  /** Some `[` is followed, later in `s`, by a `]`. */
  predicate HasBracketPair(s: string) {
    exists i, j :: 0 <= i < j < |s| && s[i] == '[' && s[j] == ']'
  }

  /** The source's slicing condition, `indexOf('[') !== -1 && lastIndexOf(']') + 1 >
      indexOf('[')`, holds exactly when some `[` has a `]` after it. */
  lemma SpanConditionIsBracketPair(s: string)
    ensures HasBracketPair(s) <==> (IndexOf(s, '[') != -1 && LastIndexOf(s, ']') + 1 > IndexOf(s, '['))
  {
    var start := IndexOf(s, '[');
    var end := LastIndexOf(s, ']') + 1;
    if HasBracketPair(s) {
      var i, j :| 0 <= i < j < |s| && s[i] == '[' && s[j] == ']';
    }
    if start != -1 && end > start {
      assert s[start] == '[' && s[end - 1] == ']';
    }
  }

  /** `s` starts with `[` and ends with `]`, as a JSON array's text does. */
  predicate Framed(s: string) {
    |s| >= 2 && s[0] == '[' && s[|s| - 1] == ']'
  }

  /** `s.substring(s.indexOf('['), s.lastIndexOf(']') + 1)` when that span is
      non-empty, `s` otherwise. */
  function SliceArray(s: string): (r: string)
    ensures |r| <= |s|
    ensures HasBracketPair(s) ==> Framed(r) && r == s[IndexOf(s, '[')..LastIndexOf(s, ']') + 1]
    ensures !HasBracketPair(s) ==> r == s
  {
    SpanConditionIsBracketPair(s);
    var start := IndexOf(s, '[');
    var end := LastIndexOf(s, ']') + 1;
    if start != -1 && end > start then s[start..end] else s
  }

  /** A character the repair pass keeps: code 32 and above, tab, line feed and
      carriage return. */
  predicate Printable(c: char) {
    c as int >= 32 || c == '\t' || c == '\n' || c == '\r'
  }

  /** `s.replace(/\\<letter>/g, <replacement>)`: every backslash followed by
      `letter`, scanned left to right without overlap, becomes `replacement`. */
  function Unescaped(s: string, letter: char, replacement: char): (r: string)
    ensures |r| <= |s|
  {
    if |s| >= 2 && s[0] == '\\' && s[1] == letter then [replacement] + Unescaped(s[2..], letter, replacement)
    else if s == [] then []
    else [s[0]] + Unescaped(s[1..], letter, replacement)
  }

  /** `s.split('').filter(<printable>).join('')`. */
  function KeptPrintable(s: string): (r: string)
    ensures |r| <= |s|
    ensures forall k :: 0 <= k < |r| ==> Printable(r[k])
  {
    if s == [] then []
    else (if Printable(s[0]) then [s[0]] else []) + KeptPrintable(s[1..])
  }

  /** The five un-escaping replacements, in the order the source applies them.
      Text without a backslash is left as it is. */
  function UnescapedAll(s: string): (r: string)
    ensures |r| <= |s|
    ensures '\\' !in s ==> r == s
  {
    var s1 := Unescaped(s, 'n', '\n');
    var s2 := Unescaped(s1, 'r', '\r');
    var s3 := Unescaped(s2, 't', '\t');
    var s4 := Unescaped(s3, '\\', '\\');
    var s5 := Unescaped(s4, '"', '"');
    assert '\\' !in s ==> s5 == s by {
      if '\\' !in s {
        UnescapedWithoutBackslash(s, 'n', '\n');
        UnescapedWithoutBackslash(s1, 'r', '\r');
        UnescapedWithoutBackslash(s2, 't', '\t');
        UnescapedWithoutBackslash(s3, '\\', '\\');
        UnescapedWithoutBackslash(s4, '"', '"');
      }
    }
    s5
  }

  /** The lossy repair pass: un-escape, drop control characters, trim. Its
      output holds no control character other than tab, line feed and carriage
      return, and is never longer than its input. */
  function Repaired(s: string): (r: string)
    ensures |r| <= |s|
    ensures forall k :: 0 <= k < |r| ==> Printable(r[k])
  {
    var u := UnescapedAll(s);
    var f := KeptPrintable(u);
    var r := Trim(f);
    assert forall k :: 0 <= k < |r| ==> Printable(r[k]) by {
      TrimKeepsCharacters(f);
      forall k | 0 <= k < |r| ensures Printable(r[k]) {
        var j :| 0 <= j < |f| && f[j] == r[k];
      }
    }
    r
  }

  /** The whole sanitizer: trim, strip fences, slice to the array, then return
      the slice trimmed when `parses` accepts it and the repaired slice otherwise. */
  function Cleaned(response: string, parses: string -> bool): (r: string)
    ensures |r| <= |response|
  {
    Finished(SliceArray(Unfenced(Trim(response))), parses)
  }

  /** The last step: the sliced text trimmed when `parses` accepts it, its
      repair otherwise. */
  function Finished(sliced: string, parses: string -> bool): (r: string)
    ensures |r| <= |sliced|
  {
    if parses(sliced) then Trim(sliced) else Repaired(sliced)
  }

  /** One replacement of `.replace(/\\<letter>/g, ...)`, as a scan over `s`. */
  method ReplaceEscape(s: string, letter: char, replacement: char) returns (r: string)
    ensures r == Unescaped(s, letter, replacement)
  {
    r := [];
    var i := 0;
    while i < |s|
      invariant 0 <= i <= |s|
      invariant r + Unescaped(s[i..], letter, replacement) == Unescaped(s, letter, replacement)
    {
      UnescapedFrom(s, i, letter, replacement);
      if i + 1 < |s| && s[i] == '\\' && s[i + 1] == letter {
        assert (r + [replacement]) + Unescaped(s[i + 2..], letter, replacement)
          == r + ([replacement] + Unescaped(s[i + 2..], letter, replacement));
        r := r + [replacement];
        i := i + 2;
      } else {
        assert (r + [s[i]]) + Unescaped(s[i + 1..], letter, replacement)
          == r + ([s[i]] + Unescaped(s[i + 1..], letter, replacement));
        r := r + [s[i]];
        i := i + 1;
      }
    }
    assert s[i..] == [];
  }

  /** One step of the scan from position `i`. */
  lemma UnescapedFrom(s: string, i: nat, letter: char, replacement: char)
    requires i < |s|
    ensures i + 1 < |s| && s[i] == '\\' && s[i + 1] == letter ==>
      Unescaped(s[i..], letter, replacement) == [replacement] + Unescaped(s[i + 2..], letter, replacement)
    ensures !(i + 1 < |s| && s[i] == '\\' && s[i + 1] == letter) ==>
      Unescaped(s[i..], letter, replacement) == [s[i]] + Unescaped(s[i + 1..], letter, replacement)
  {
    assert s[i..][0] == s[i];
    assert s[i..][1..] == s[i + 1..];
    if i + 1 < |s| {
      assert s[i..][1] == s[i + 1];
      assert s[i..][2..] == s[i + 2..];
    }
  }


  /** The character filter of the repair pass, as a scan over `s`. */
  method DropControlCharacters(s: string) returns (r: string)
    ensures r == KeptPrintable(s)
  {
    r := [];
    var i := 0;
    while i < |s|
      invariant 0 <= i <= |s|
      invariant r + KeptPrintable(s[i..]) == KeptPrintable(s)
    {
      assert s[i..][1..] == s[i + 1..];
      if Printable(s[i]) {
        r := r + [s[i]];
      }
      i := i + 1;
    }
  }

  /** The repair pass as the source runs it: five replacements, the filter,
      then a trim. */
  method RepairText(s: string) returns (r: string)
    ensures r == Repaired(s)
  {
    r := ReplaceEscape(s, 'n', '\n');
    r := ReplaceEscape(r, 'r', '\r');
    r := ReplaceEscape(r, 't', '\t');
    r := ReplaceEscape(r, '\\', '\\');
    r := ReplaceEscape(r, '"', '"');
    r := DropControlCharacters(r);
    r := Trim(r);
  }

  // `cleanJsonResponse` reassigns one local text; the two methods below are
  // its fence and slice steps written that way, each proved equal to the
  // function that the lemmas of this module are about.

  /** The two fence-stripping steps, each applied when its marker opens the text. */
  method StripFences(s: string) returns (r: string)
    ensures r == Unfenced(s)
  {
    r := s;
    if StartsWith(r, JsonFence) {
      r := DropClosing(DropOpening(r, JsonFence));
    }
    if StartsWith(r, Fence) {
      r := DropClosing(DropOpening(r, Fence));
    }
  }

  /** The slicing step: cut to the span from the first `[` to the last `]`. */
  method SliceToArray(s: string) returns (r: string)
    ensures r == SliceArray(s)
  {
    r := s;
    var jsonStart := IndexOf(r, '[');
    var jsonEnd := LastIndexOf(r, ']') + 1;
    if jsonStart != -1 && jsonEnd > jsonStart {
      r := r[jsonStart..jsonEnd];
    }
  }

  /** `cleanJsonResponse`: reassigns the working text step by step. */
  method CleanJsonResponse(response: string, parses: string -> bool) returns (clean: string)
    ensures clean == Cleaned(response, parses)
  {
    clean := Trim(response);
    clean := StripFences(clean);
    clean := SliceToArray(clean);
    if parses(clean) {
      clean := Trim(clean);
    } else {
      clean := RepairText(clean);
    }
  }

  /** Un-escaping keeps a first character that is not a backslash. */
  lemma UnescapedKeepsFirst(s: string, letter: char, replacement: char)
    requires |s| > 0 && s[0] != '\\'
    ensures |Unescaped(s, letter, replacement)| > 0 && Unescaped(s, letter, replacement)[0] == s[0]
  {
  }

  /** Un-escaping keeps a last character that is not the escaped letter. */
  lemma {:induction false} UnescapedKeepsLast(s: string, letter: char, replacement: char)
    requires |s| > 0 && s[|s| - 1] != letter
    ensures var r := Unescaped(s, letter, replacement); |r| > 0 && r[|r| - 1] == s[|s| - 1]
  {
    if |s| >= 2 && s[0] == '\\' && s[1] == letter {
      UnescapedKeepsLast(s[2..], letter, replacement);
    } else if |s| > 1 {
      UnescapedKeepsLast(s[1..], letter, replacement);
    }
  }

  /** Text without a backslash has nothing to un-escape. */
  lemma {:induction false} UnescapedWithoutBackslash(s: string, letter: char, replacement: char)
    requires '\\' !in s
    ensures Unescaped(s, letter, replacement) == s
  {
    if s != [] {
      assert s == [s[0]] + s[1..];
      UnescapedWithoutBackslash(s[1..], letter, replacement);
    }
  }

  /** Text before the first backslash passes through un-escaping unchanged. */
  lemma {:induction false} UnescapedPlainPrefix(a: string, b: string, letter: char, replacement: char)
    requires '\\' !in a
    ensures Unescaped(a + b, letter, replacement) == a + Unescaped(b, letter, replacement)
  {
    if a != [] {
      assert (a + b)[0] == a[0] != '\\' && (a + b)[1..] == a[1..] + b;
      assert Unescaped(a + b, letter, replacement) == [a[0]] + Unescaped(a[1..] + b, letter, replacement);
      UnescapedPlainPrefix(a[1..], b, letter, replacement);
      assert a == [a[0]] + a[1..];
    } else {
      assert a + b == b;
    }
  }

  /** Text in which no backslash is followed by the letter (looking one
      character into what comes after it) passes through un-escaping
      unchanged, backslashes included. */
  lemma {:induction false} UnescapedNoPairPrefix(a: string, b: string, letter: char, replacement: char)
    requires forall k :: 0 <= k < |a| && k + 1 < |a + b| && (a + b)[k] == '\\' ==> (a + b)[k + 1] != letter
    ensures Unescaped(a + b, letter, replacement) == a + Unescaped(b, letter, replacement)
  {
    if a != [] {
      var t := a[1..] + b;
      assert (a + b)[0] == a[0] && (a + b)[1..] == t;
      assert forall k :: 0 <= k < |t| ==> t[k] == (a + b)[k + 1];
      assert Unescaped(a + b, letter, replacement) == [a[0]] + Unescaped(t, letter, replacement);
      UnescapedNoPairPrefix(a[1..], b, letter, replacement);
      assert a == [a[0]] + a[1..];
    } else {
      assert a + b == b;
    }
  }

  /** The first backslash followed by the letter is replaced by the
      replacement, and scanning resumes after the pair. */
  lemma UnescapedPair(a: string, letter: char, replacement: char, b: string)
    requires '\\' !in a
    ensures Unescaped(a + ['\\', letter] + b, letter, replacement) == a + [replacement] + Unescaped(b, letter, replacement)
  {
    var t := ['\\', letter] + b;
    assert t[0] == '\\' && t[1] == letter && t[2..] == b;
    assert Unescaped(t, letter, replacement) == [replacement] + Unescaped(b, letter, replacement);
    assert a + ['\\', letter] + b == a + t;
    UnescapedPlainPrefix(a, t, letter, replacement);
    assert a + ([replacement] + Unescaped(b, letter, replacement))
      == a + [replacement] + Unescaped(b, letter, replacement);
  }

  /** A backslash not followed by the letter is kept, and scanning resumes
      right after it. */
  lemma UnescapedLoneBackslash(a: string, letter: char, replacement: char, b: string)
    requires '\\' !in a
    requires b == [] || b[0] != letter
    ensures Unescaped(a + ['\\'] + b, letter, replacement) == a + ['\\'] + Unescaped(b, letter, replacement)
  {
    var t := ['\\'] + b;
    assert a + ['\\'] + b == a + t;
    UnescapedPlainPrefix(a, t, letter, replacement);
    assert t[1..] == b;
  }

  /** The filter works character by character: filtering a concatenation is
      concatenating the filtered parts. */
  lemma {:induction false} KeptPrintableConcat(a: string, b: string)
    ensures KeptPrintable(a + b) == KeptPrintable(a) + KeptPrintable(b)
  {
    if a != [] {
      var head := if Printable(a[0]) then [a[0]] else [];
      assert (a + b)[0] == a[0] && (a + b)[1..] == a[1..] + b;
      assert KeptPrintable(a + b) == head + KeptPrintable(a[1..] + b);
      assert KeptPrintable(a) == head + KeptPrintable(a[1..]);
      KeptPrintableConcat(a[1..], b);
    } else {
      assert a + b == b;
    }
  }

  /** The filter keeps every printable character as often as it occurs and
      drops every other one. */
  lemma {:induction false} KeptPrintableCounts(s: string)
    ensures forall c :: multiset(KeptPrintable(s))[c] == if Printable(c) then multiset(s)[c] else 0
  {
    if s != [] {
      assert s == [s[0]] + s[1..];
      KeptPrintableCounts(s[1..]);
    }
  }

  /** The filter keeps a printable last character. */
  lemma {:induction false} KeptPrintableKeepsLast(s: string)
    requires |s| > 0 && Printable(s[|s| - 1])
    ensures var r := KeptPrintable(s); |r| > 0 && r[|r| - 1] == s[|s| - 1]
  {
    if |s| > 1 {
      KeptPrintableKeepsLast(s[1..]);
    }
  }

  /** The filter leaves text that is printable throughout unchanged. */
  lemma {:induction false} KeptPrintableWhenPrintable(s: string)
    requires forall k :: 0 <= k < |s| ==> Printable(s[k])
    ensures KeptPrintable(s) == s
  {
    if s != [] {
      assert s == [s[0]] + s[1..];
      KeptPrintableWhenPrintable(s[1..]);
    }
  }

  /** The repair pass keeps a leading `[` and a trailing `]`. */
  lemma RepairedFramesArray(s: string)
    requires Framed(s)
    ensures Framed(Repaired(s))
  {
    var s1 := Unescaped(s, 'n', '\n');
    UnescapedKeepsFirst(s, 'n', '\n');
    UnescapedKeepsLast(s, 'n', '\n');
    var s2 := Unescaped(s1, 'r', '\r');
    UnescapedKeepsFirst(s1, 'r', '\r');
    UnescapedKeepsLast(s1, 'r', '\r');
    var s3 := Unescaped(s2, 't', '\t');
    UnescapedKeepsFirst(s2, 't', '\t');
    UnescapedKeepsLast(s2, 't', '\t');
    var s4 := Unescaped(s3, '\\', '\\');
    UnescapedKeepsFirst(s3, '\\', '\\');
    UnescapedKeepsLast(s3, '\\', '\\');
    var s5 := Unescaped(s4, '"', '"');
    UnescapedKeepsFirst(s4, '"', '"');
    UnescapedKeepsLast(s4, '"', '"');
    assert s5 == UnescapedAll(s);
    var f := KeptPrintable(s5);
    KeptPrintableKeepsLast(s5);
    assert f[0] == '[';
    assert IsTrimmed(f);
  }

  /** Text free of backslashes and control characters goes through the repair
      pass with trimming as the only change. */
  lemma RepairedPlainText(s: string)
    requires '\\' !in s
    requires forall k :: 0 <= k < |s| ==> Printable(s[k])
    ensures Repaired(s) == Trim(s)
  {
    KeptPrintableWhenPrintable(s);
  }

  /** When un-escaping leaves only printable text with no whitespace at
      either end, that text is the repair. */
  lemma RepairedAfterUnescaping(s: string)
    requires KeptPrintable(UnescapedAll(s)) == UnescapedAll(s)
    requires IsTrimmed(UnescapedAll(s))
    ensures Repaired(s) == UnescapedAll(s)
  {
  }

  /** A text that starts with `[` and ends with `]` keeps both on either path
      of the last step. */
  lemma FinishedIsBracketed(sliced: string, parses: string -> bool)
    requires Framed(sliced)
    ensures Framed(Finished(sliced, parses))
  {
    if !parses(sliced) {
      RepairedFramesArray(sliced);
    }
  }

  /** When the trimmed, fence-stripped reply has a `[` with a `]` after it, the
      sanitized text starts with `[` and ends with `]`, whether it took the fast
      path or the repair pass. */
  lemma CleanedIsBracketed(response: string, parses: string -> bool)
    requires HasBracketPair(Unfenced(Trim(response)))
    ensures Framed(Cleaned(response, parses))
  {
    var sliced := SliceArray(Unfenced(Trim(response)));
    assert Cleaned(response, parses) == Finished(sliced, parses);
    FinishedIsBracketed(sliced, parses);
  }

  /** Slicing a text that starts with `[` and ends with `]` keeps all of it. */
  lemma SliceArrayKeepsArray(s: string)
    requires Framed(s)
    ensures SliceArray(s) == s
  {
    assert HasBracketPair(s) by {
      assert s[0] == '[' && s[|s| - 1] == ']';
    }
    assert IndexOf(s, '[') == 0;
    assert LastIndexOf(s, ']') == |s| - 1;
    assert s[0..|s|] == s;
  }

  /** On the fast path a text framed by `[` and `]` is already trimmed. */
  lemma FinishedFastPath(s: string, parses: string -> bool)
    requires Framed(s) && parses(s)
    ensures Finished(s, parses) == s
  {
    assert Trim(s) == s;
  }

  /** A parseable text that starts with `[` and ends with `]` comes back
      unchanged. */
  lemma CleanedFixesParsedArray(s: string, parses: string -> bool)
    requires Framed(s) && parses(s)
    ensures Cleaned(s, parses) == s
  {
    assert Trim(s) == s;
    assert !StartsWith(s, Fence) by {
      assert s[0] != Fence[0];
    }
    SliceArrayKeepsArray(s);
    FinishedFastPath(s, parses);
  }

  /** The sanitizer is idempotent on what its fast path returns. */
  lemma CleanedIdempotentOnFastPath(response: string, parses: string -> bool)
    requires HasBracketPair(Unfenced(Trim(response)))
    requires parses(SliceArray(Unfenced(Trim(response))))
    ensures Cleaned(Cleaned(response, parses), parses) == Cleaned(response, parses)
  {
    var sliced := SliceArray(Unfenced(Trim(response)));
    FinishedFastPath(sliced, parses);
    assert Cleaned(response, parses) == sliced;
    CleanedFixesParsedArray(sliced, parses);
  }

  /** Without a `[`...`]` span the slicing step changes nothing: the result is
      the trimmed, fence-stripped text itself or its repair. */
  lemma CleanedWithoutBracketPair(response: string, parses: string -> bool)
    requires !HasBracketPair(Unfenced(Trim(response)))
    ensures var t := Unfenced(Trim(response));
      Cleaned(response, parses) == if parses(t) then Trim(t) else Repaired(t)
  {
  }

  /** Prose without brackets, backslashes, control characters or a leading
      fence comes back trimmed and otherwise unchanged, whether it parses or not. */
  lemma CleanedPlainProse(response: string, parses: string -> bool)
    requires '[' !in response && '\\' !in response
    requires forall k :: 0 <= k < |response| ==> Printable(response[k])
    requires !StartsWith(Trim(response), Fence)
    ensures Cleaned(response, parses) == Trim(response)
  {
    var t := Trim(response);
    TrimKeepsCharacters(response);
    assert !HasBracketPair(t) by {
      forall i | 0 <= i < |t| ensures t[i] != '[' {
        assert t[i] in response;
      }
    }
    assert '\\' !in t by {
      forall i | 0 <= i < |t| ensures t[i] != '\\' {
        assert t[i] in response;
      }
    }
    forall i | 0 <= i < |t| ensures Printable(t[i]) {
      var j :| 0 <= j < |response| && response[j] == t[i];
    }
    if !parses(t) {
      RepairedPlainText(t);
    }
  }

  /** Removing the closing fence and the line feed before it. */
  lemma DropClosingAfterLine(x: string)
    ensures DropClosing(x + "\n" + Fence) == x
  {
    var y := x + "\n" + Fence;
    assert y[|y| - 4..] == "\n" + Fence;
    assert y[..|y| - 4] == x;
  }

  /** A text framed by `[` and `]` inside a json code fence, one line feed on
      either side, comes out of fence stripping as it was. */
  lemma UnfencedJsonBlock(x: string)
    requires Framed(x)
    ensures Unfenced(JsonFence + "\n" + x + "\n" + Fence) == x
  {
    var s := JsonFence + "\n" + x + "\n" + Fence;
    assert s[..|JsonFence|] == JsonFence;
    var rest := s[|JsonFence|..];
    assert rest == "\n" + x + "\n" + Fence;
    assert StartsWith(rest, "\n");
    assert rest[1..] == x + "\n" + Fence;
    assert DropOpening(s, JsonFence) == x + "\n" + Fence;
    DropClosingAfterLine(x);
    assert !StartsWith(x, Fence) by {
      assert x[0] != Fence[0];
    }
  }

  /** A text framed by `[` and `]` inside a bare code fence, one line feed on
      either side, comes out of fence stripping as it was. */
  lemma UnfencedBareBlock(x: string)
    requires Framed(x)
    ensures Unfenced(Fence + "\n" + x + "\n" + Fence) == x
  {
    var s := Fence + "\n" + x + "\n" + Fence;
    assert !StartsWith(s, JsonFence) by {
      assert s[3] == '\n' != JsonFence[3];
    }
    assert s[..|Fence|] == Fence;
    var rest := s[|Fence|..];
    assert rest == "\n" + x + "\n" + Fence;
    assert rest[1..] == x + "\n" + Fence;
    assert DropOpening(s, Fence) == x + "\n" + Fence;
    DropClosingAfterLine(x);
  }

  /** Without line feeds, a bare fence around a text framed by `[` and `]` is
      removed too. */
  lemma UnfencedBareInline(x: string)
    requires Framed(x)
    ensures Unfenced(Fence + x + Fence) == x
  {
    var s := Fence + x + Fence;
    assert !StartsWith(s, JsonFence) by {
      assert s[3] == '[' != JsonFence[3];
    }
    assert s[..|Fence|] == Fence;
    assert s[|Fence|..] == x + Fence;
    assert (x + Fence)[0] == '[';
    assert DropOpening(s, Fence) == x + Fence;
    DropClosingAfterFrame(x);
  }

  /** Without line feeds, a json fence around a text framed by `[` and `]` is
      removed too. */
  lemma UnfencedJsonInline(x: string)
    requires Framed(x)
    ensures Unfenced(JsonFence + x + Fence) == x
  {
    var s := JsonFence + x + Fence;
    assert s[..|JsonFence|] == JsonFence;
    assert s[|JsonFence|..] == x + Fence;
    assert (x + Fence)[0] == '[';
    assert DropOpening(s, JsonFence) == x + Fence;
    DropClosingAfterFrame(x);
    assert !StartsWith(x, Fence) by {
      assert x[0] != Fence[0];
    }
  }

  /** Removing a closing fence that directly follows a `]`. */
  lemma DropClosingAfterFrame(x: string)
    requires Framed(x)
    ensures DropClosing(x + Fence) == x
  {
    var y := x + Fence;
    assert y[|y| - 4] == ']';
    assert !EndsWith(y, "\n" + Fence) by {
      assert y[|y| - 4..][0] == ']';
    }
    assert y[|y| - 3..] == Fence;
    assert y[..|y| - 3] == x;
  }

  /** A parseable array inside a ```json fence comes back without the fence. */
  lemma FencedArrayUnwrapped(x: string, parses: string -> bool)
    requires Framed(x) && parses(x)
    ensures Cleaned(JsonFence + "\n" + x + "\n" + Fence, parses) == x
  {
    var s := JsonFence + "\n" + x + "\n" + Fence;
    assert Trim(s) == s by {
      assert s[0] == '`' && s[|s| - 1] == '`';
    }
    UnfencedJsonBlock(x);
    SliceArrayKeepsArray(x);
    FinishedFastPath(x, parses);
  }

  /** Slicing cuts away text without a `[` before an array and text without a
      `]` after it. */
  lemma SliceArrayAroundArray(before: string, x: string, after: string)
    requires Framed(x) && '[' !in before && ']' !in after
    ensures SliceArray(before + x + after) == x
  {
    var s := before + x + after;
    var a, b := |before|, |before| + |x| - 1;
    assert s[a] == '[' && s[b] == ']';
    assert forall k :: 0 <= k < a ==> s[k] == before[k];
    assert forall k :: b < k < |s| ==> s[k] == after[k - b - 1];
    assert IndexOf(s, '[') == a;
    assert LastIndexOf(s, ']') == b;
    assert s[a..b + 1] == x;
  }

  /** Commentary before and after a parseable array is cut away. */
  lemma ProseAroundArray(before: string, x: string, after: string, parses: string -> bool)
    requires Framed(x) && parses(x)
    requires '[' !in before && ']' !in after
    requires IsTrimmed(before + x + after) && !StartsWith(before + x + after, Fence)
    ensures Cleaned(before + x + after, parses) == x
  {
    var s := before + x + after;
    assert Trim(s) == s;
    SliceArrayAroundArray(before, x, after);
    assert Trim(x) == x;
    assert Finished(x, parses) == x;
  }
}
