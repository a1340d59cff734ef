/** The JavaScript string primitives the service relies on: `trim`, `startsWith`,
    `endsWith`, `includes`, `indexOf`, `lastIndexOf`, `join` and the decimal
    rendering of integers in template literals. */
module Text {

  /** The characters `String.prototype.trim` removes: ECMAScript WhiteSpace
      (tab, vertical tab, form feed, space, no-break space, zero-width no-break
      space and the Space_Separator characters) and LineTerminator (line feed,
      carriage return, line and paragraph separators). */
  predicate IsJsWhitespace(c: char) {
    var k := c as int;
    k == 0x09 || k == 0x0A || k == 0x0B || k == 0x0C || k == 0x0D || k == 0x20
    || k == 0xA0 || k == 0x1680 || (0x2000 <= k <= 0x200A) || k == 0x2028 || k == 0x2029
    || k == 0x202F || k == 0x205F || k == 0x3000 || k == 0xFEFF
  }

  /** Neither end of `s` is whitespace. */
  predicate IsTrimmed(s: string) {
    s == [] || (!IsJsWhitespace(s[0]) && !IsJsWhitespace(s[|s| - 1]))
  }

  /** The number of whitespace characters `s` starts with. */
  function LeadingWhitespace(s: string): (n: nat)
    ensures n <= |s|
    ensures forall k :: 0 <= k < n ==> IsJsWhitespace(s[k])
    ensures n == |s| || !IsJsWhitespace(s[n])
  {
    if s != [] && IsJsWhitespace(s[0]) then 1 + LeadingWhitespace(s[1..]) else 0
  }

  /** The number of whitespace characters `s` ends with. */
  function TrailingWhitespace(s: string): (n: nat)
    ensures n <= |s|
    ensures forall k :: |s| - n <= k < |s| ==> IsJsWhitespace(s[k])
    ensures n == |s| || !IsJsWhitespace(s[|s| - 1 - n])
  {
    if s != [] && IsJsWhitespace(s[|s| - 1]) then 1 + TrailingWhitespace(s[..|s| - 1]) else 0
  }

  /** `s.trim()`: `s` without its leading and trailing whitespace. The result
      is the part of `s` after its leading whitespace, every character of `s`
      outside that part is whitespace, and neither end of the result is. */
  function Trim(s: string): (r: string)
    ensures LeadingWhitespace(s) + |r| <= |s|
    ensures r == s[LeadingWhitespace(s)..LeadingWhitespace(s) + |r|]
    ensures forall k :: LeadingWhitespace(s) + |r| <= k < |s| ==> IsJsWhitespace(s[k])
    ensures IsTrimmed(r)
    ensures IsTrimmed(s) ==> r == s
  {
    var a := LeadingWhitespace(s);
    var b := TrailingWhitespace(s[a..]);
    assert forall k :: |s| - b <= k < |s| ==> s[k] == s[a..][k - a];
    s[a..|s| - b]
  }

  /** Every character of `s.trim()` comes from `s`. */
  lemma TrimKeepsCharacters(s: string)
    ensures forall k :: 0 <= k < |Trim(s)| ==> Trim(s)[k] in s
  {
    var a := LeadingWhitespace(s);
    forall k | 0 <= k < |Trim(s)| ensures Trim(s)[k] in s {
      assert Trim(s)[k] == s[a + k];
    }
  }

  predicate StartsWith(s: string, prefix: string) {
    |prefix| <= |s| && s[..|prefix|] == prefix
  }

  predicate EndsWith(s: string, suffix: string) {
    |suffix| <= |s| && s[|s| - |suffix|..] == suffix
  }

  /** `w` occurs in `s` starting at index `i`. */
  predicate OccursAt(s: string, w: string, i: int) {
    0 <= i <= |s| - |w| && s[i..i + |w|] == w
  }

  /** `s.includes(w)`. */
  predicate Contains(s: string, w: string) {
    exists i :: 0 <= i <= |s| - |w| && OccursAt(s, w, i)
  }

  /** A text contains whatever is spliced into it. */
  lemma ContainsSpliced(a: string, w: string, b: string)
    ensures Contains(a + w + b, w)
  {
    var s := a + w + b;
    assert s[|a|..|a| + |w|] == w;
    assert OccursAt(s, w, |a|);
  }

  /** A text contains itself. */
  lemma ContainsItself(w: string)
    ensures Contains(w, w)
  {
    assert w[0..|w|] == w;
    assert OccursAt(w, w, 0);
  }

  /** What either part contains, their concatenation contains. */
  lemma ContainsEitherPart(x: string, y: string, w: string)
    ensures Contains(x, w) || Contains(y, w) ==> Contains(x + y, w)
  {
    if Contains(x, w) {
      var i :| 0 <= i <= |x| - |w| && OccursAt(x, w, i);
      assert (x + y)[i..i + |w|] == x[i..i + |w|];
      assert OccursAt(x + y, w, i);
    } else if Contains(y, w) {
      var i :| 0 <= i <= |y| - |w| && OccursAt(y, w, i);
      assert (x + y)[|x| + i..|x| + i + |w|] == y[i..i + |w|];
      assert OccursAt(x + y, w, |x| + i);
    }
  }

  /** Appending keeps a prefix. */
  lemma StartsWithExtended(x: string, y: string, prefix: string)
    requires StartsWith(x, prefix)
    ensures StartsWith(x + y, prefix)
  {
    assert (x + y)[..|prefix|] == x[..|prefix|];
  }

  /** A concatenation ends with its second part. */
  lemma EndsWithSecond(x: string, y: string)
    ensures EndsWith(x + y, y)
  {
    assert (x + y)[|x + y| - |y|..] == y;
  }

  /** A word with a character that `s` lacks does not occur in `s`. */
  lemma MissingCharExcludes(s: string, w: string, c: char)
    requires c in w && c !in s
    ensures !Contains(s, w)
  {
    var j :| 0 <= j < |w| && w[j] == c;
    forall i | 0 <= i <= |s| - |w| ensures !OccursAt(s, w, i) {
      assert s[i..i + |w|][j] == s[i + j] != c;
    }
  }

  /** Putting a fixed text `p` in front of a message neither creates nor hides an
      occurrence of `w`, provided no occurrence can start inside `p`: either the
      first character of `w` is absent from `p`, or the last character of `w` is
      absent from `p` and the last character of `p` occurs nowhere in `w` but at
      its end. */
  lemma ContainsAfterPrefix(p: string, m: string, w: string)
    requires |w| > 0 && |p| > 0
    requires w[0] !in p || (w[|w| - 1] !in p && p[|p| - 1] !in w[..|w| - 1])
    ensures Contains(p + m, w) <==> Contains(m, w)
  {
    var s := p + m;
    forall i | 0 <= i < |p| && i <= |s| - |w| ensures !OccursAt(s, w, i) {
      var j;
      if w[0] !in p {
        j := 0;
        assert s[i] == p[i];
      } else if i + |w| <= |p| {
        j := |w| - 1;
        assert s[i + j] == p[i + j];
      } else {
        j := |p| - 1 - i;
        assert s[i + j] == p[|p| - 1];
        assert w[..|w| - 1][j] == w[j];
      }
      assert s[i..i + |w|][j] == s[i + j] != w[j];
    }
    if Contains(m, w) {
      var i :| 0 <= i <= |m| - |w| && OccursAt(m, w, i);
      assert s[|p| + i..|p| + i + |w|] == m[i..i + |w|];
      assert OccursAt(s, w, |p| + i);
    }
    if Contains(s, w) {
      var i :| 0 <= i <= |s| - |w| && OccursAt(s, w, i);
      assert m[i - |p|..i - |p| + |w|] == s[i..i + |w|];
      assert OccursAt(m, w, i - |p|);
    }
  }

  /** JavaScript's `s.indexOf(c)`: the first index of `c`, or -1. */
  function IndexOf(s: string, c: char): (r: int)
    ensures -1 <= r < |s|
    ensures r == -1 <==> c !in s
    ensures r >= 0 ==> s[r] == c
    ensures forall k :: 0 <= k < r ==> s[k] != c
  {
    if s == [] then -1
    else if s[0] == c then 0
    else
      var k := IndexOf(s[1..], c);
      if k == -1 then -1 else k + 1
  }

  /** JavaScript's `s.lastIndexOf(c)`: the last index of `c`, or -1. */
  function LastIndexOf(s: string, c: char): (r: int)
    ensures -1 <= r < |s|
    ensures r == -1 <==> c !in s
    ensures r >= 0 ==> s[r] == c
    ensures forall k :: r < k < |s| ==> s[k] != c
  {
    if s == [] then -1
    else if s[|s| - 1] == c then |s| - 1
    else
      var k := LastIndexOf(s[..|s| - 1], c);
      k
  }

  /** The decimal digit for `d`. */
  function Digit(d: nat): (c: char)
    requires d < 10
    ensures '0' <= c <= '9'
  {
    ('0' as int + d) as char
  }

  /** The decimal numeral JavaScript writes for a non-negative integer, as a
      template literal renders `Date.now()` or a batch index. */
  function NatToDecimal(n: nat): (r: string)
    ensures |r| > 0
    ensures IsNumeral(r)
    ensures (|r| == 1) == (n < 10)
    ensures (r[0] == '0') == (n == 0)
  {
    if n < 10 then [Digit(n)] else NatToDecimal(n / 10) + [Digit(n % 10)]
  }

  /** Every character of `d` is a decimal digit. */
  predicate IsNumeral(d: string) {
    forall k :: 0 <= k < |d| ==> '0' <= d[k] <= '9'
  }

  /** The number a run of decimal digits stands for, most significant first. */
  function DecimalValue(d: string): nat
    requires IsNumeral(d)
  {
    if d == [] then 0 else 10 * DecimalValue(d[..|d| - 1]) + (d[|d| - 1] as int - '0' as int)
  }

  /** The numeral of `n` spells `n`. */
  lemma {:induction false} NatToDecimalValue(n: nat)
    ensures DecimalValue(NatToDecimal(n)) == n
  {
    if n >= 10 {
      var d := NatToDecimal(n);
      assert d[..|d| - 1] == NatToDecimal(n / 10);
      NatToDecimalValue(n / 10);
    }
  }

  /** Different numbers have different numerals. */
  lemma NatToDecimalInjective(a: nat, b: nat)
    requires NatToDecimal(a) == NatToDecimal(b)
    ensures a == b
  {
    NatToDecimalValue(a);
    NatToDecimalValue(b);
  }

  /** The decimal numeral of any integer, with a leading minus sign when negative. */
  function IntToDecimal(n: int): (r: string)
    ensures |r| > 0
    ensures (r[0] == '-') == (n < 0)
  {
    if n < 0 then "-" + NatToDecimal(-n) else NatToDecimal(n)
  }

  /** `parts.join(separator)`. */
  function Join(parts: seq<string>, separator: string): (r: string)
    ensures parts == [] ==> r == []
    ensures |parts| == 1 ==> r == parts[0]
    ensures |parts| > 0 ==> StartsWith(r, parts[0])
    ensures r == [] <==> (forall k :: 0 <= k < |parts| ==> parts[k] == []) && (|parts| <= 1 || separator == [])
  {
    if parts == [] then []
    else if |parts| == 1 then parts[0]
    else
      var rest := Join(parts[1..], separator);
      assert forall k :: 1 <= k < |parts| ==> parts[k] == parts[1..][k - 1];
      assert (parts[0] + separator + rest)[..|parts[0]|] == parts[0];
      parts[0] + separator + rest
  }

  /** Joining one more part puts the separator between the earlier parts'
      join and the new part. */
  lemma {:induction false} JoinAppend(parts: seq<string>, last: string, separator: string)
    requires parts != []
    ensures Join(parts + [last], separator) == Join(parts, separator) + separator + last
  {
    var all := parts + [last];
    if |parts| > 1 {
      assert all[1..] == parts[1..] + [last];
      JoinAppend(parts[1..], last, separator);
    }
  }
}
