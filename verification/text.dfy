/** Python's `str.strip()` with no argument: removes leading and trailing
    whitespace, where whitespace is the character set of `str.isspace`. */
module Text {
  import opened SeqFacts

  /** The characters `str.isspace` accepts: the ASCII controls TAB to CR and
      FS to US, space, NEL, NO-BREAK SPACE and the Unicode space separators,
      LINE SEPARATOR and PARAGRAPH SEPARATOR. */
  predicate IsSpace(c: char) {
    || ('\t' <= c <= '\r')
    || ('\U{1C}' <= c <= '\U{1F}')
    || c == ' '
    || c == '\U{85}'
    || c == '\U{A0}'
    || c == '\U{1680}'
    || ('\U{2000}' <= c <= '\U{200A}')
    || c == '\U{2028}'
    || c == '\U{2029}'
    || c == '\U{202F}'
    || c == '\U{205F}'
    || c == '\U{3000}'
  }

  predicate AllSpace(s: string) {
    forall i :: 0 <= i < |s| ==> IsSpace(s[i])
  }

  /** Neither end of `s` is whitespace. */
  predicate Stripped(s: string) {
    s == [] || (!IsSpace(s[0]) && !IsSpace(s[|s| - 1]))
  }

  /** The length of the longest all-whitespace prefix. */
  function Indent(s: string): (n: nat)
    ensures n <= |s|
    ensures AllSpace(s[..n])
    ensures n < |s| ==> !IsSpace(s[n])
  {
    if s == [] || !IsSpace(s[0]) then 0
    else
      var n := 1 + Indent(s[1..]);
      assert s[..n] == [s[0]] + s[1..][..n - 1];
      n
  }

  /** The length of the longest all-whitespace suffix. */
  function Trail(s: string): (n: nat)
    ensures n <= |s|
    ensures AllSpace(s[|s| - n..])
    ensures n < |s| ==> !IsSpace(s[|s| - n - 1])
  {
    if s == [] || !IsSpace(s[|s| - 1]) then 0
    else
      var init := s[..|s| - 1];
      var n := 1 + Trail(init);
      assert s[|s| - n..] == init[|init| - (n - 1)..] + [s[|s| - 1]];
      n
  }

  /** The stripped text is the slice of `s` that starts after its leading
      whitespace and stops before its trailing whitespace; it neither starts
      nor ends with whitespace. */
  function Strip(s: string): (r: string)
    ensures Stripped(r)
    ensures Indent(s) + |r| <= |s|
    ensures r == s[Indent(s)..Indent(s) + |r|]
    ensures AllSpace(s[..Indent(s)]) && AllSpace(s[Indent(s) + |r|..])
  {
    var t := s[Indent(s)..];
    assert Indent(s) < |s| ==> t[0] == s[Indent(s)];
    t[..|t| - Trail(t)]
  }

  /** Text without whitespace at either end is its own strip. */
  lemma {:induction false} StripOfStripped(s: string)
    requires Stripped(s)
    ensures Strip(s) == s
  {
  }

  /** Stripping twice is stripping once. */
  lemma StripIdempotent(s: string)
    ensures Strip(Strip(s)) == Strip(s)
  {
    StripOfStripped(Strip(s));
  }

  /** Whitespace added around a text does not survive the strip; in
      particular the newline a text widget appends to its content. */
  lemma {:induction false} StripPadded(pre: string, s: string, post: string)
    requires AllSpace(pre) && AllSpace(post)
    ensures Strip(pre + s + post) == Strip(s)
  {
    var u := pre + s + post;
    var r := Strip(s);
    var a := Indent(s);
    Regroup(pre, s, post, a, a + |r|);
    StripUnique(u, |pre| + a, r);
  }

  /** A slice that sits between two whitespace runs and has no whitespace at
      either end is the strip. */
  lemma {:induction false} StripUnique(s: string, a: nat, r: string)
    requires a + |r| <= |s| && r == s[a..a + |r|]
    requires AllSpace(s[..a]) && AllSpace(s[a + |r|..]) && Stripped(r)
    ensures Strip(s) == r
  {
    var b := a + |r|;
    if r == [] {
      assert AllSpace(s) by {
        forall i | 0 <= i < |s| ensures IsSpace(s[i]) {
          if i < a { assert s[i] == s[..a][i]; } else { assert s[i] == s[b..][i - b]; }
        }
      }
    } else {
      IndentAt(s, a);
      var t := s[a..];
      TrailAt(t, |r|);
      assert t[..|r|] == r;
    }
  }

  lemma IndentAt(s: string, a: nat)
    requires a < |s| && AllSpace(s[..a]) && !IsSpace(s[a])
    ensures Indent(s) == a
  {
  }

  lemma TrailAt(t: string, m: nat)
    requires 0 < m <= |t| && AllSpace(t[m..]) && !IsSpace(t[m - 1])
    ensures Trail(t) == |t| - m
  {
  }
}
