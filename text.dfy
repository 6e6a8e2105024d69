/**
  String helpers with the meaning Python gives them: the `in` operator on
  strings (substring search), `str.lower()` restricted to the letters that
  matter for the sentinels used here, and `str.strip()` with no argument.
*/
module Text {

  /** `s.startswith(p)`. */
  predicate StartsWith(s: string, p: string)
  {
    |p| <= |s| && s[..|p|] == p
  }

  /** Python's `p in s` for strings: `p` occurs in `s` as a contiguous block. */
  predicate Contains(s: string, p: string)
    decreases |s|
  {
    StartsWith(s, p) || (|s| > 0 && Contains(s[1..], p))
  }

  /** A one-character pattern occurs exactly when the character does. */
  lemma {:induction false} ContainsChar(s: string, c: char)
    ensures Contains(s, [c]) <==> c in s
    decreases |s|
  {
    if |s| > 0 {
      ContainsChar(s[1..], c);
      assert s == [s[0]] + s[1..];
    }
  }

  /** An occurrence in `t` is still an occurrence after anything is put in front of `t`. */
  lemma {:induction false} ContainsAfterPrefix(a: string, t: string, p: string)
    requires Contains(t, p)
    ensures Contains(a + t, p)
    decreases |a|
  {
    if |a| > 0 {
      assert (a + t)[1..] == a[1..] + t;
      ContainsAfterPrefix(a[1..], t, p);
    } else {
      assert a + t == t;
    }
  }

  /**
    An occurrence of `p` in `a + t` lies inside `t` when no non-empty suffix of
    `a` can begin `p`, that is when `p` begins with a character `a` lacks.
  */
  lemma {:induction false} ContainsAcrossPrefix(a: string, t: string, p: string)
    requires |p| > 0 && p[0] !in a
    requires Contains(a + t, p)
    ensures Contains(t, p)
    decreases |a|
  {
    if |a| > 0 {
      assert (a + t)[0] == a[0];
      assert !StartsWith(a + t, p);
      assert (a + t)[1..] == a[1..] + t;
      ContainsAcrossPrefix(a[1..], t, p);
    } else {
      assert a + t == t;
    }
  }

  /** ASCII upper-case letters to lower case; every other character unchanged. */
  function LowerChar(c: char): (r: char)
    ensures 'a' <= r <= 'z' <==> ('a' <= c <= 'z' || 'A' <= c <= 'Z')
  {
    if 'A' <= c <= 'Z' then (c as int + 32) as char else c
  }

  /**
    `s.lower()`. Python folds every cased code point; the only non-ASCII code
    points whose lower case contains an ASCII letter are U+0130 and U+212A (to "i" plus a
    combining dot, and to "k"), so for a pattern without 'i' or 'k', such as
    "command not found", ASCII folding finds exactly the same occurrences.
  */
  function Lower(s: string): string
  {
    seq(|s|, i requires 0 <= i < |s| => LowerChar(s[i]))
  }

  /** Folding both sides keeps a prefix a prefix. */
  lemma StartsWithLower(s: string, p: string)
    requires StartsWith(s, p)
    ensures StartsWith(Lower(s), Lower(p))
  {
    assert Lower(s)[..|p|] == Lower(s[..|p|]);
  }

  /** Folding both sides keeps an occurrence an occurrence (case-insensitive search finds it). */
  lemma {:induction false} ContainsLower(s: string, p: string)
    requires Contains(s, p)
    ensures Contains(Lower(s), Lower(p))
    decreases |s|
  {
    if StartsWith(s, p) {
      StartsWithLower(s, p);
    } else {
      assert Lower(s)[1..] == Lower(s[1..]);
      ContainsLower(s[1..], p);
    }
  }

  /** Every slice of `s` occurs in `s`. */
  lemma {:induction false} ContainsSlice(s: string, i: nat, j: nat)
    requires i <= j <= |s|
    ensures Contains(s, s[i..j])
    decreases i
  {
    if i == 0 {
      assert StartsWith(s, s[..j]);
    } else {
      var t := s[1..];
      ContainsSlice(t, i - 1, j - 1);
      assert forall k :: 0 <= k < j - i ==> t[i - 1..j - 1][k] == s[i..j][k];
      assert t[i - 1..j - 1] == s[i..j];
    }
  }

  /**
    The converse of `ContainsLower`: whatever a search of the folded text
    finds is the folding of some slice of the original text.
  */
  lemma {:induction false} LowerOccurrence(s: string, p: string)
    requires Contains(Lower(s), p)
    ensures exists i, j :: 0 <= i <= j <= |s| && Lower(s[i..j]) == p
    decreases |s|
  {
    if StartsWith(Lower(s), p) {
      assert Lower(s[0..|p|]) == Lower(s)[..|p|];
    } else {
      var t := s[1..];
      assert Lower(s)[1..] == Lower(t);
      LowerOccurrence(t, p);
      var i, j :| 0 <= i <= j <= |t| && Lower(t[i..j]) == p;
      assert t[i..j] == s[i + 1..j + 1];
      assert Lower(s[i + 1..j + 1]) == p;
    }
  }

  /** The characters for which Python's `str.isspace()` holds. */
  const Whitespace: set<char> := {
    ' ', '\t', '\n', '\U{0B}', '\U{0C}', '\r', '\U{1C}', '\U{1D}', '\U{1E}', '\U{1F}',
    '\U{85}', '\U{A0}', '\U{1680}',
    '\U{2000}', '\U{2001}', '\U{2002}', '\U{2003}', '\U{2004}', '\U{2005}',
    '\U{2006}', '\U{2007}', '\U{2008}', '\U{2009}', '\U{200A}',
    '\U{2028}', '\U{2029}', '\U{202F}', '\U{205F}', '\U{3000}'
  }

  predicate IsSpace(c: char)
  {
    c in Whitespace
  }

  /** `s.lstrip()`. */
  function StripLeft(s: string): string
    decreases |s|
  {
    if s != [] && IsSpace(s[0]) then StripLeft(s[1..]) else s
  }

  /** `s.rstrip()`. */
  function StripRight(s: string): string
    decreases |s|
  {
    if s != [] && IsSpace(s[|s| - 1]) then StripRight(s[..|s| - 1]) else s
  }

  /** `lstrip` keeps a suffix: it drops the leading white space and nothing else. */
  lemma {:induction false} StripLeftDropsLeadingSpace(s: string)
    ensures |StripLeft(s)| <= |s| && StripLeft(s) == s[|s| - |StripLeft(s)|..]
    ensures StripLeft(s) == [] || !IsSpace(StripLeft(s)[0])
    ensures forall k :: 0 <= k < |s| - |StripLeft(s)| ==> IsSpace(s[k])
    decreases |s|
  {
    if s != [] && IsSpace(s[0]) {
      StripLeftDropsLeadingSpace(s[1..]);
    }
  }

  /** `rstrip` keeps a prefix: it drops the trailing white space and nothing else. */
  lemma {:induction false} StripRightDropsTrailingSpace(s: string)
    ensures |StripRight(s)| <= |s| && StripRight(s) == s[..|StripRight(s)|]
    ensures StripRight(s) == [] || !IsSpace(StripRight(s)[|StripRight(s)| - 1])
    ensures forall k :: |StripRight(s)| <= k < |s| ==> IsSpace(s[k])
    decreases |s|
  {
    if s != [] && IsSpace(s[|s| - 1]) {
      StripRightDropsTrailingSpace(s[..|s| - 1]);
    }
  }

  /** `s.strip()`: a contiguous block of `s` with no white space at either end. */
  function Strip(s: string): (r: string)
    ensures |r| <= |s|
    ensures r == [] || (!IsSpace(r[0]) && !IsSpace(r[|r| - 1]))
    ensures s == [] || (!IsSpace(s[0]) && !IsSpace(s[|s| - 1])) ==> r == s
  {
    StripLeftDropsLeadingSpace(s);
    StripRightDropsTrailingSpace(StripLeft(s));
    var r := StripRight(StripLeft(s));
    assert r != [] ==> r[0] == StripLeft(s)[0];
    r
  }

  /** What `strip` keeps is the block of `s` between its leading and its trailing white space. */
  lemma StripKeepsBlock(s: string)
    ensures exists i, j ::
              && 0 <= i <= j <= |s| && Strip(s) == s[i..j]
              && (forall k :: 0 <= k < i ==> IsSpace(s[k]))
              && (forall k :: j <= k < |s| ==> IsSpace(s[k]))
  {
    StripLeftDropsLeadingSpace(s);
    var t := StripLeft(s);
    StripRightDropsTrailingSpace(t);
    var r := StripRight(t);
    var i := |s| - |t|;
    var j := i + |r|;
    assert r == s[i..j];
    assert forall k :: j <= k < |s| ==> s[k] == t[k - i];
  }
}
