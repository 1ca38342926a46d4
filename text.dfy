/**
 * The JavaScript string built-ins the application relies on:
 * `String.prototype.trim`, `String.prototype.includes` and `Array.prototype.join`.
 * Strings are sequences of characters; the source's UTF-16 code units are not modelled.
 */
module Text {

  /** The characters `trim` strips: ECMAScript WhiteSpace and LineTerminator. */
  predicate IsWhitespace(c: char)
  {
    || c == '\t' || c == '\n' || c == '\U{000B}' || c == '\U{000C}' || c == '\r' || c == ' '
    || c == '\U{00A0}' || c == '\U{1680}' || ('\U{2000}' <= c <= '\U{200A}')
    || c == '\U{2028}' || c == '\U{2029}' || c == '\U{202F}' || c == '\U{205F}'
    || c == '\U{3000}' || c == '\U{FEFF}'
  }

  /** True when every character of `s` is whitespace (the empty string included). */
  predicate IsBlank(s: string)
  {
    forall k | 0 <= k < |s| :: IsWhitespace(s[k])
  }

  /** `s` with its leading whitespace removed. */
  function TrimStart(s: string): (r: string)
    ensures |r| <= |s| && r == s[|s| - |r|..]
    ensures forall k | 0 <= k < |s| - |r| :: IsWhitespace(s[k])
    ensures r == [] || !IsWhitespace(r[0])
    decreases |s|
  {
    if |s| > 0 && IsWhitespace(s[0]) then
      var r := TrimStart(s[1..]);
      assert forall k | 1 <= k < |s| - |r| :: s[k] == s[1..][k - 1];
      r
    else
      s
  }

  /** `s` with its trailing whitespace removed. */
  function TrimEnd(s: string): (r: string)
    ensures |r| <= |s| && r == s[..|r|]
    ensures forall k | |r| <= k < |s| :: IsWhitespace(s[k])
    ensures r == [] || !IsWhitespace(r[|r| - 1])
    decreases |s|
  {
    if |s| > 0 && IsWhitespace(s[|s| - 1]) then
      var r := TrimEnd(s[..|s| - 1]);
      assert forall k | |r| <= k < |s| - 1 :: s[k] == s[..|s| - 1][k];
      r
    else
      s
  }

  /** JavaScript `s.trim()`: `s` with exactly its leading and trailing whitespace removed, so a piece
      of `s` that neither starts nor ends with whitespace, and that is empty exactly when `s` is blank. */
  function Trim(s: string): (r: string)
    ensures exists i | 0 <= i <= |s| - |r| :: OccursAt(s, r, i) && IsBlank(s[..i]) && IsBlank(s[i + |r|..])
    ensures Includes(s, r)
    ensures r == [] || (!IsWhitespace(r[0]) && !IsWhitespace(r[|r| - 1]))
    ensures r == [] <==> IsBlank(s)
  {
    var t := TrimStart(s);
    var r := TrimEnd(t);
    StrippedPiece(s, t, r);
    r
  }

  /** Stripping whitespace from the front of `s` (giving `t`) and then from the back of `t` (giving `r`)
      leaves `r` at an index of `s` with only whitespace before and after it. */
  lemma StrippedPiece(s: string, t: string, r: string)
    requires |t| <= |s| && t == s[|s| - |t|..] && forall k | 0 <= k < |s| - |t| :: IsWhitespace(s[k])
    requires |r| <= |t| && r == t[..|r|] && forall k | |r| <= k < |t| :: IsWhitespace(t[k])
    ensures OccursAt(s, r, |s| - |t|)
    ensures IsBlank(s[..|s| - |t|]) && IsBlank(s[|s| - |t| + |r|..])
  {
    var i := |s| - |t|;
    var head, tail := s[..i], s[i + |r|..];
    assert forall k | 0 <= k < |head| :: head[k] == s[k];
    assert forall k | 0 <= k < |tail| :: tail[k] == t[|r| + k];
  }

  /** `t` occurs in `s` starting at index `i`. */
  predicate OccursAt(s: string, t: string, i: int)
  {
    0 <= i && i + |t| <= |s| && s[i..i + |t|] == t
  }

  /** JavaScript `s.includes(t)`. */
  predicate Includes(s: string, t: string)
  {
    exists i | 0 <= i <= |s| - |t| :: OccursAt(s, t, i)
  }

  /** `includes` as JavaScript defines it at the edges: the empty string is in every string, a
      string is in itself, and nothing longer than `s` is in `s`. */
  lemma IncludesEdges(s: string, t: string)
    ensures Includes(s, t) ==> |t| <= |s|
    ensures t == [] ==> Includes(s, t)
    ensures s == t ==> Includes(s, t)
  {
    if t == [] || s == t {
      assert OccursAt(s, t, 0);
    }
  }

  /** Text that contains `t` still contains it once more text is put around it. */
  lemma IncludesInContext(a: string, s: string, b: string, t: string)
    requires Includes(s, t)
    ensures Includes(a + s + b, t)
  {
    var i :| 0 <= i <= |s| - |t| && OccursAt(s, t, i);
    assert (a + s + b)[|a| + i..|a| + i + |t|] == s[i..i + |t|];
    assert OccursAt(a + s + b, t, |a| + i);
  }

  /** The middle part of a concatenation occurs in it. */
  lemma IncludesMiddle(a: string, m: string, b: string)
    ensures Includes(a + m + b, m)
  {
    assert (a + m + b)[|a|..|a| + |m|] == m;
    assert OccursAt(a + m + b, m, |a|);
  }

  /** A string lacking one of the characters of `t` does not contain `t`. */
  lemma NotIncludesWithoutChar(s: string, t: string, c: char)
    requires c in t && c !in s
    ensures !Includes(s, t)
  {
    var j :| 0 <= j < |t| && t[j] == c;
    forall i | 0 <= i <= |s| - |t| ensures !OccursAt(s, t, i) {
      assert s[i..i + |t|][j] == s[i + j];
    }
  }

  /** Joining two strings that lack `t` cannot create an occurrence of `t` across the seam
      when the last character of the first one is not a character of `t`. */
  lemma NotIncludesAppend(a: string, b: string, t: string)
    requires a != [] && a[|a| - 1] !in t
    requires !Includes(a, t) && !Includes(b, t)
    ensures !Includes(a + b, t)
  {
    var s := a + b;
    forall i | 0 <= i <= |s| - |t| ensures !OccursAt(s, t, i) {
      if i + |t| <= |a| {
        assert s[i..i + |t|] == a[i..i + |t|];
        assert !OccursAt(a, t, i);
      } else if i >= |a| {
        assert s[i..i + |t|] == b[i - |a|..i - |a| + |t|];
        assert !OccursAt(b, t, i - |a|);
      } else {
        assert s[i..i + |t|][|a| - 1 - i] == a[|a| - 1];
      }
    }
  }

  /** JavaScript `xs.join(sep)`: empty for no elements, the element itself for one, and otherwise a
      text that opens with the first element. `JoinSnoc` gives the separator and the order of the
      rest, and `JoinIncludesEach` finds every element in it. */
  function Join(xs: seq<string>, sep: string): (r: string)
    ensures |xs| == 0 ==> r == ""
    ensures |xs| == 1 ==> r == xs[0]
    ensures |xs| > 0 ==> |xs[0]| <= |r| && r[..|xs[0]|] == xs[0]
  {
    if |xs| == 0 then ""
    else if |xs| == 1 then xs[0]
    else
      var r := xs[0] + sep + Join(xs[1..], sep);
      assert r[..|xs[0]|] == xs[0];
      r
  }

  /** The left-to-right accumulation that ECMAScript defines for `join`: joining one more element
      appends the separator and then that element. */
  lemma {:induction false} JoinSnoc(xs: seq<string>, x: string, sep: string)
    requires |xs| > 0
    ensures Join(xs + [x], sep) == Join(xs, sep) + sep + x
  {
    if |xs| == 1 {
      assert xs + [x] == [xs[0], x];
      assert (xs + [x])[1..] == [x];
    } else {
      assert (xs + [x])[1..] == xs[1..] + [x];
      JoinSnoc(xs[1..], x, sep);
    }
  }

  /** Every joined element can be found in the joined text. */
  lemma {:induction false} JoinIncludesEach(xs: seq<string>, sep: string, k: nat)
    requires k < |xs|
    ensures Includes(Join(xs, sep), xs[k])
  {
    var joined := Join(xs, sep);
    if |xs| == 1 {
      assert OccursAt(joined, xs[0], 0);
    } else {
      var rest := Join(xs[1..], sep);
      assert joined == xs[0] + sep + rest;
      if k == 0 {
        assert joined[..|xs[0]|] == xs[0];
        assert OccursAt(joined, xs[0], 0);
      } else {
        JoinIncludesEach(xs[1..], sep, k - 1);
        var i :| 0 <= i <= |rest| - |xs[k]| && OccursAt(rest, xs[k], i);
        var off := |xs[0]| + |sep|;
        assert joined[off..] == rest;
        assert joined[off + i..off + i + |xs[k]|] == rest[i..i + |xs[k]|];
        assert OccursAt(joined, xs[k], off + i);
      }
    }
  }
}
