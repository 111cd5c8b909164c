/** The `java.lang.String` operations the application relies on, stated over `seq<char>`. */
module JavaString {
  import opened Common

  /** `String.trim` strips every leading and trailing char whose code is at most U+0020. */
  predicate Trimmable(c: char) {
    c <= ' '
  }

  predicate AllTrimmable(s: string) {
    forall i :: 0 <= i < |s| ==> Trimmable(s[i])
  }

  /** `s` with its leading trimmable chars removed: the longest suffix that starts with a kept char. */
  function TrimLeading(s: string): (r: string)
    ensures |r| <= |s| && r == s[|s| - |r|..]
    ensures r != [] ==> !Trimmable(r[0])
    ensures AllTrimmable(s[..|s| - |r|])
  {
    if s != [] && Trimmable(s[0]) then TrimLeading(s[1..]) else s
  }

  /** `s` with its trailing trimmable chars removed: the longest prefix that ends with a kept char. */
  function TrimTrailing(s: string): (r: string)
    ensures |r| <= |s| && r == s[..|r|]
    ensures r != [] ==> !Trimmable(r[|r| - 1])
    ensures AllTrimmable(s[|r|..])
  {
    if s != [] && Trimmable(s[|s| - 1]) then TrimTrailing(s[..|s| - 1]) else s
  }

  /** `String.trim()`. */
  function Trim(s: string): (r: string)
    ensures |r| <= |s|
    ensures r != [] ==> !Trimmable(r[0]) && !Trimmable(r[|r| - 1])
    ensures r == [] <==> AllTrimmable(s)
  {
    var l := TrimLeading(s);
    assert l != [] ==> l[0] == s[|s| - |l|];
    assert l == [] ==> AllTrimmable(s) by {
      if l == [] {
        assert s[..|s|] == s;
      }
    }
    TrimTrailing(l)
  }

  /** The Java idiom `s == null || s.trim().isEmpty()`. */
  predicate NullOrEmptyTrimmed(s: Option<string>) {
    s.None? || Trim(s.value) == []
  }

  /** The Java idiom `(s != null && !s.trim().isEmpty()) ? s.trim() : null`. */
  function TrimToNull(s: Option<string>): (r: Option<string>)
    ensures r.None? <==> NullOrEmptyTrimmed(s)
    ensures r.Some? ==> r.value == Trim(s.value) && r.value != []
  {
    if s.Some? && Trim(s.value) != [] then Some(Trim(s.value)) else None
  }

  /** `Character.isWhitespace`: the Unicode space, line and paragraph separators other than
      the three no-break spaces, and the controls U+0009..U+000D and U+001C..U+001F. */
  predicate IsJavaWhitespace(c: char) {
    || c == ' ' || ('\t' <= c <= '\r') || ('\U{1C}' <= c <= '\U{1F}')
    || c == '\U{1680}' || ('\U{2000}' <= c <= '\U{2006}') || ('\U{2008}' <= c <= '\U{200A}')
    || c == '\U{2028}' || c == '\U{2029}' || c == '\U{205F}' || c == '\U{3000}'
  }

  /** `String.isBlank()`: empty or only `Character.isWhitespace` chars. The empty string is
      blank, and a string holding a visible ASCII char never is. */
  predicate IsBlank(s: string)
    ensures s == [] ==> IsBlank(s)
    ensures IsBlank(s) ==> forall i :: 0 <= i < |s| ==> !('!' <= s[i] <= '~')
  {
    forall i :: 0 <= i < |s| ==> IsJavaWhitespace(s[i])
  }

  /** `s.startsWith(prefix)`. */
  predicate StartsWith(s: string, prefix: string) {
    |prefix| <= |s| && s[..|prefix|] == prefix
  }

  /** `s.contains(sub)`: `sub` starts at some position of `s`. */
  predicate Contains(s: string, sub: string)
    decreases |s|
  {
    StartsWith(s, sub) || (s != [] && Contains(s[1..], sub))
  }

  /** `String.toLowerCase()` on ASCII letters; every other char is kept. */
  function LowerChar(c: char): (r: char)
    ensures 'A' <= c <= 'Z' ==> r != c && 'a' <= r <= 'z'
    ensures !('A' <= c <= 'Z') ==> r == c
  {
    if 'A' <= c <= 'Z' then (c as int + 32) as char else c
  }

  function ToLower(s: string): (r: string)
    ensures |r| == |s|
    ensures forall i :: 0 <= i < |s| ==> r[i] == LowerChar(s[i])
  {
    seq(|s|, i requires 0 <= i < |s| => LowerChar(s[i]))
  }

  // ----- Properties of trimming -----

  /** Trimming an already-trimmed string changes nothing. */
  lemma TrimIdempotent(s: string)
    ensures Trim(Trim(s)) == Trim(s)
  {
    var t := Trim(s);
    if t != [] {
      assert TrimLeading(t) == t;
      assert TrimTrailing(t) == t;
    }
  }

  /** A string with kept chars at both ends is its own trim. */
  lemma TrimOfTrimmed(s: string)
    requires s != [] ==> !Trimmable(s[0]) && !Trimmable(s[|s| - 1])
    ensures Trim(s) == s
  {
    assert TrimLeading(s) == s;
    assert TrimTrailing(s) == s;
  }

  lemma {:induction false} TrimLeadingSkip(w: string, y: string)
    requires AllTrimmable(w)
    ensures TrimLeading(w + y) == TrimLeading(y)
  {
    if w != [] {
      assert (w + y)[1..] == w[1..] + y;
      TrimLeadingSkip(w[1..], y);
    } else {
      assert w + y == y;
    }
  }

  lemma {:induction false} TrimTrailingSkip(x: string, w: string)
    requires AllTrimmable(w)
    ensures TrimTrailing(x + w) == TrimTrailing(x)
  {
    if w != [] {
      assert (x + w)[..|x + w| - 1] == x + w[..|w| - 1];
      TrimTrailingSkip(x, w[..|w| - 1]);
    } else {
      assert x + w == x;
    }
  }

  lemma {:induction false} TrimLeadingAppend(x: string, w: string)
    requires !AllTrimmable(x)
    ensures TrimLeading(x + w) == TrimLeading(x) + w
  {
    if Trimmable(x[0]) {
      assert (x + w)[1..] == x[1..] + w;
      assert !AllTrimmable(x[1..]) by {
        var i :| 0 <= i < |x| && !Trimmable(x[i]);
        assert x[1..][i - 1] == x[i];
      }
      TrimLeadingAppend(x[1..], w);
    }
  }

  /** Surrounding `w1` and `w2` made of trimmable chars do not change the trim:
      `(w1 + s + w2).trim().equals(s.trim())`. */
  lemma TrimPadded(w1: string, s: string, w2: string)
    requires AllTrimmable(w1) && AllTrimmable(w2)
    ensures Trim(w1 + s + w2) == Trim(s)
  {
    assert w1 + s + w2 == w1 + (s + w2);
    TrimLeadingSkip(w1, s + w2);
    if AllTrimmable(s) {
      assert AllTrimmable(s + w2) by {
        forall i | 0 <= i < |s + w2| ensures Trimmable((s + w2)[i]) {
          if i < |s| { assert (s + w2)[i] == s[i]; } else { assert (s + w2)[i] == w2[i - |s|]; }
        }
      }
    } else {
      TrimLeadingAppend(s, w2);
      TrimTrailingSkip(TrimLeading(s), w2);
    }
  }
}
