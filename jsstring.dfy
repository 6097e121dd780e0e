/**
 * The string primitives of the JavaScript runtime that the live search uses:
 * String.prototype.trim, String.prototype.toLowerCase (restricted to ASCII
 * letters) and String.prototype.includes.
 */
module JsString {

  /**
   * A code point that String.prototype.trim strips: an ECMAScript WhiteSpace
   * character (tab, vertical tab, form feed, no-break space, the byte order
   * mark, every Unicode space separator) or a LineTerminator (LF, CR, LS, PS).
   */
  predicate IsJsWhitespace(c: char) {
    var n := c as int;
    n == 0x09 || n == 0x0A || n == 0x0B || n == 0x0C || n == 0x0D
    || n == 0x20 || n == 0xA0 || n == 0x1680
    || (0x2000 <= n <= 0x200A)
    || n == 0x2028 || n == 0x2029 || n == 0x202F || n == 0x205F
    || n == 0x3000 || n == 0xFEFF
  }

  predicate AllWhitespace(s: string) {
    forall i :: 0 <= i < |s| ==> IsJsWhitespace(s[i])
  }

  /** `s` without its leading whitespace. */
  function TrimStart(s: string): (r: string)
    ensures |r| <= |s| && r == s[|s| - |r|..]
    ensures r == [] || !IsJsWhitespace(r[0])
  {
    if s != [] && IsJsWhitespace(s[0]) then TrimStart(s[1..]) else s
  }

  /** What TrimStart removes is whitespace. */
  lemma {:induction false} TrimStartRemovesWhitespace(s: string)
    ensures AllWhitespace(s[..|s| - |TrimStart(s)|])
  {
    if s != [] && IsJsWhitespace(s[0]) {
      TrimStartRemovesWhitespace(s[1..]);
      var n := |s| - |TrimStart(s)|;
      forall i | 0 <= i < n
        ensures IsJsWhitespace(s[..n][i])
      {
        if i > 0 {
          assert s[..n][i] == s[1..][..n - 1][i - 1];
        }
      }
    }
  }

  /** `s` without its trailing whitespace. */
  function TrimEnd(s: string): (r: string)
    ensures |r| <= |s| && r == s[..|r|]
    ensures r == [] || !IsJsWhitespace(r[|r| - 1])
  {
    if s != [] && IsJsWhitespace(s[|s| - 1]) then TrimEnd(s[..|s| - 1]) else s
  }

  /** What TrimEnd removes is whitespace. */
  lemma {:induction false} TrimEndRemovesWhitespace(s: string)
    ensures AllWhitespace(s[|TrimEnd(s)|..])
  {
    if s != [] && IsJsWhitespace(s[|s| - 1]) {
      var n := |s| - 1;
      TrimEndRemovesWhitespace(s[..n]);
      var m := |TrimEnd(s)|;
      forall i | 0 <= i < |s| - m
        ensures IsJsWhitespace(s[m..][i])
      {
        if m + i < n {
          assert s[m..][i] == s[..n][m..][i];
        }
      }
    }
  }

  /** The number of leading whitespace characters that Trim removes. */
  function TrimOffset(s: string): (k: nat)
    ensures k <= |s|
  {
    |s| - |TrimStart(s)|
  }

  /** String.prototype.trim: whitespace removed from both ends. */
  function Trim(s: string): string {
    TrimEnd(TrimStart(s))
  }

  /**
   * What trim yields: the slice of `s` that starts at TrimOffset(s), such that
   * everything of `s` outside it is whitespace and it neither starts nor ends
   * with whitespace.
   */
  lemma TrimSpec(s: string)
    ensures TrimOffset(s) + |Trim(s)| <= |s|
    ensures Trim(s) == s[TrimOffset(s)..TrimOffset(s) + |Trim(s)|]
    ensures AllWhitespace(s[..TrimOffset(s)])
    ensures AllWhitespace(s[TrimOffset(s) + |Trim(s)|..])
    ensures Trim(s) == [] || (!IsJsWhitespace(Trim(s)[0]) && !IsJsWhitespace(Trim(s)[|Trim(s)| - 1]))
  {
    var t := TrimStart(s);
    var r := TrimEnd(t);
    var k := TrimOffset(s);
    TrimStartRemovesWhitespace(s);
    TrimEndRemovesWhitespace(t);
    assert s[k + |r|..] == t[|r|..];
    if r != [] {
      assert r[0] == t[0];
    }
  }

  /** Trim yields the empty string exactly when the input is all whitespace. */
  lemma TrimEmptyIff(s: string)
    ensures Trim(s) == [] <==> AllWhitespace(s)
  {
    var t := TrimStart(s);
    TrimStartRemovesWhitespace(s);
    TrimEndRemovesWhitespace(t);
    if Trim(s) == [] {
      assert t[0..] == t;
      assert s[..|s|] == s;
    }
  }

  /** Trimming a trimmed string changes nothing. */
  lemma TrimIdempotent(s: string)
    ensures Trim(Trim(s)) == Trim(s)
  {
  }

  /** Whitespace added on either side of a string does not change its trimmed value. */
  lemma TrimIgnoresPadding(pre: string, s: string, post: string)
    requires AllWhitespace(pre) && AllWhitespace(post)
    ensures Trim(pre + s + post) == Trim(s)
  {
    assert pre + s + post == pre + (s + post);
    TrimStartSkipsWhitespace(pre, s + post);
    if AllWhitespace(s) {
      assert AllWhitespace(s + post);
      assert s + post + [] == s + post;
      assert s + [] == s;
      TrimStartSkipsWhitespace(s + post, []);
      TrimStartSkipsWhitespace(s, []);
    } else {
      TrimStartKeepsTail(s, post);
      TrimEndSkipsWhitespace(TrimStart(s), post);
    }
  }

  lemma {:induction false} TrimStartSkipsWhitespace(w: string, s: string)
    requires AllWhitespace(w)
    ensures TrimStart(w + s) == TrimStart(s)
  {
    if w != [] {
      assert (w + s)[0] == w[0];
      assert (w + s)[1..] == w[1..] + s;
      TrimStartSkipsWhitespace(w[1..], s);
    } else {
      assert w + s == s;
    }
  }

  lemma {:induction false} TrimStartKeepsTail(s: string, t: string)
    requires !AllWhitespace(s)
    ensures TrimStart(s + t) == TrimStart(s) + t
  {
    assert s != [];
    assert (s + t)[0] == s[0];
    if IsJsWhitespace(s[0]) {
      assert (s + t)[1..] == s[1..] + t;
      assert !AllWhitespace(s[1..]) by {
        var i :| 0 <= i < |s| && !IsJsWhitespace(s[i]);
        assert s[1..][i - 1] == s[i];
      }
      TrimStartKeepsTail(s[1..], t);
    }
  }

  lemma {:induction false} TrimEndSkipsWhitespace(s: string, w: string)
    requires AllWhitespace(w)
    ensures TrimEnd(s + w) == TrimEnd(s)
    decreases |w|
  {
    if w == [] {
      assert s + w == s;
    } else {
      var sw := s + w;
      assert sw[|sw| - 1] == w[|w| - 1];
      assert sw[..|sw| - 1] == s + w[..|w| - 1];
      TrimEndSkipsWhitespace(s, w[..|w| - 1]);
    }
  }

  /** String.prototype.toLowerCase on one character, for the ASCII letters. */
  function ToLowerChar(c: char): (d: char)
  {
    if 'A' <= c <= 'Z' then (c as int + 32) as char else c
  }

  /** String.prototype.toLowerCase, letter by letter. */
  function ToLower(s: string): (r: string)
    ensures |r| == |s|
    ensures forall i :: 0 <= i < |s| ==> r[i] == ToLowerChar(s[i])
  {
    if s == [] then [] else [ToLowerChar(s[0])] + ToLower(s[1..])
  }

  /** A lower-cased string has no upper-case ASCII letter left, and lower-casing it again changes nothing. */
  lemma ToLowerIdempotent(s: string)
    ensures forall i :: 0 <= i < |s| ==> !('A' <= ToLower(s)[i] <= 'Z')
    ensures ToLower(ToLower(s)) == ToLower(s)
  {
  }

  /** Lower-casing and trimming commute, so the order in which the search applies them does not matter. */
  lemma TrimLowerCommute(s: string)
    ensures Trim(ToLower(s)) == ToLower(Trim(s))
  {
    TrimStartLower(s);
    TrimEndLower(TrimStart(s));
  }

  /** Lower-casing maps whitespace to itself and nothing else to whitespace. */
  lemma WhitespaceLower(c: char)
    ensures IsJsWhitespace(ToLowerChar(c)) <==> IsJsWhitespace(c)
  {
  }

  lemma {:induction false} TrimStartLower(s: string)
    ensures TrimStart(ToLower(s)) == ToLower(TrimStart(s))
  {
    if s != [] {
      var l := ToLower(s);
      WhitespaceLower(s[0]);
      assert l[0] == ToLowerChar(s[0]);
      if IsJsWhitespace(s[0]) {
        assert l[1..] == ToLower(s[1..]);
        assert TrimStart(l) == TrimStart(l[1..]);
        TrimStartLower(s[1..]);
      } else {
        assert TrimStart(l) == l;
      }
    }
  }

  /** Lower-casing commutes with taking a prefix. */
  lemma ToLowerPrefix(s: string, n: nat)
    requires n <= |s|
    ensures ToLower(s)[..n] == ToLower(s[..n])
  {
    var l, m := ToLower(s)[..n], ToLower(s[..n]);
    assert |l| == |m|;
    forall k | 0 <= k < n
      ensures l[k] == m[k]
    {
      assert l[k] == ToLowerChar(s[k]);
    }
  }

  lemma {:induction false} TrimEndLower(s: string)
    ensures TrimEnd(ToLower(s)) == ToLower(TrimEnd(s))
  {
    if s != [] {
      var l := ToLower(s);
      var n := |s| - 1;
      WhitespaceLower(s[n]);
      assert l[n] == ToLowerChar(s[n]);
      if IsJsWhitespace(s[n]) {
        assert IsJsWhitespace(l[n]);
        assert TrimEnd(s) == TrimEnd(s[..n]);
        assert TrimEnd(l) == TrimEnd(l[..n]);
        ToLowerPrefix(s, n);
        TrimEndLower(s[..n]);
      } else {
        assert !IsJsWhitespace(l[n]);
        assert TrimEnd(s) == s;
        assert TrimEnd(l) == l;
      }
    }
  }

  /** String.prototype.includes: `q` occurs in `s` as a contiguous substring. */
  predicate Includes(s: string, q: string)
    decreases |s|
  {
    |q| <= |s| && (s[..|q|] == q || Includes(s[1..], q))
  }

  /** `q` occurs in `s` starting at index `k`. */
  predicate OccursAt(s: string, q: string, k: int) {
    0 <= k <= |s| - |q| && s[k..k + |q|] == q
  }

  /** Includes holds exactly when `q` occurs somewhere in `s`. */
  lemma {:induction false} IncludesIffOccurs(s: string, q: string)
    ensures Includes(s, q) <==> exists k :: OccursAt(s, q, k)
    decreases |s|
  {
    if |q| <= |s| {
      if s[..|q|] == q {
        assert OccursAt(s, q, 0);
      } else {
        IncludesIffOccurs(s[1..], q);
        if Includes(s, q) {
          var k :| OccursAt(s[1..], q, k);
          assert s[1..][k..k + |q|] == s[k + 1..k + 1 + |q|];
          assert OccursAt(s, q, k + 1);
        }
        if exists k :: OccursAt(s, q, k) {
          var k :| OccursAt(s, q, k);
          assert k != 0;
          assert s[1..][k - 1..k - 1 + |q|] == s[k..k + |q|];
          assert OccursAt(s[1..], q, k - 1);
        }
      }
    }
  }
}
