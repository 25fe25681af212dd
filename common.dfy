/** Small helpers shared by every other module: an option type standing for
    JavaScript's `undefined`/`null` and Python's `None`, a result type for
    raised errors, the `Math.max`/`Math.min` clamps the sources use, the first position
    of a character in a text, and the stripping of whitespace that
    `str.strip()` and `int()` do. */
module Common {

  /** `None` is an absent value (`undefined`, `null`, `None`). */
  datatype Option<+T> = None | Some(value: T) {

    /** `x ?? d` in JavaScript, `x or d` for an object in Python. */
    function GetOr(default: T): (r: T)
      ensures Some? ==> r == value
      ensures None? ==> r == default
    {
      match this
      case Some(v) => v
      case None => default
    }

    /** `x ?? y` where both sides may be absent. */
    function OrElse(other: Option<T>): (r: Option<T>)
      ensures Some? ==> r == this
      ensures None? ==> r == other
    {
      if Some? then this else other
    }
  }

  /** The outcome of an operation that may raise. */
  datatype Result<+T, +E> = Ok(value: T) | Err(error: E)

  /** `Math.max(a, b)` on exact reals. */
  function Max(a: real, b: real): (r: real)
    ensures r >= a && r >= b
    ensures r == a || r == b
  {
    if a >= b then a else b
  }

  /** `Math.min(a, b)` on exact reals. */
  function Min(a: real, b: real): (r: real)
    ensures r <= a && r <= b
    ensures r == a || r == b
  {
    if a <= b then a else b
  }

  /** `Math.max(0, Math.min(1, x))`. */
  function Clamp01(x: real): (r: real)
    ensures 0.0 <= r <= 1.0
    ensures x <= 0.0 ==> r == 0.0
    ensures x >= 1.0 ==> r == 1.0
    ensures 0.0 <= x <= 1.0 ==> r == x
  {
    Max(0.0, Min(1.0, x))
  }

  /** `Math.max` on list lengths. */
  function MaxNat(a: nat, b: nat): (r: nat)
    ensures r >= a && r >= b
    ensures r == a || r == b
  {
    if a >= b then a else b
  }

  /** The position of the first `c` in `s`. */
  function FirstIndex(s: string, c: char): (r: Option<nat>)
    ensures r.None? <==> c !in s
    ensures r.Some? ==> r.value < |s| && s[r.value] == c && c !in s[..r.value]
  {
    if |s| == 0 then None
    else if s[0] == c then Some(0)
    else match FirstIndex(s[1..], c)
      case None => None
      case Some(i) =>
        assert s[..i + 1] == [s[0]] + s[1..][..i];
        Some(i + 1)
  }

  /** The characters `str.isspace()` accepts, which `str.strip()` removes. */
  const Spaces: set<char> := {
    '\U{9}', '\U{A}', '\U{B}', '\U{C}', '\U{D}', '\U{1C}', '\U{1D}', '\U{1E}', '\U{1F}', ' ',
    '\U{85}', '\U{A0}', '\U{1680}', '\U{2000}', '\U{2001}', '\U{2002}', '\U{2003}', '\U{2004}',
    '\U{2005}', '\U{2006}', '\U{2007}', '\U{2008}', '\U{2009}', '\U{200A}', '\U{2028}', '\U{2029}',
    '\U{202F}', '\U{205F}', '\U{3000}'
  }

  /** The ASCII information separators, which `str.isspace()` accepts. */
  const Separators: set<char> := {'\U{1C}', '\U{1D}', '\U{1E}', '\U{1F}'}

  /** The whitespace `int()` skips around a literal. It passes ASCII through
      unchanged and skips only the space and `\t\n\v\f\r` there, so the
      separators are refused; other whitespace becomes a space first and is
      skipped. */
  const IntSpaces: set<char> := Spaces - Separators

  // The stripping functions take the whitespace set as a parameter:
  // `Spaces` for `str.strip()`, `IntSpaces` for `int()`.

  /** `s.lstrip()` of the characters in `space`. */
  function StripStart(s: string, space: set<char>): (r: string)
    ensures |r| <= |s|
  {
    if |s| > 0 && s[0] in space then StripStart(s[1..], space) else s
  }

  /** `lstrip` keeps a suffix that does not start with whitespace, and
      everything it removes is whitespace. */
  lemma {:induction false} StripStartShape(s: string, space: set<char>)
    ensures var r := StripStart(s, space);
      && r == s[|s| - |r|..]
      && (|r| > 0 ==> r[0] !in space)
      && forall k :: 0 <= k < |s| - |r| ==> s[k] in space
  {
    if |s| > 0 && s[0] in space {
      StripStartShape(s[1..], space);
      var r := StripStart(s, space);
      assert r == StripStart(s[1..], space);
      assert s[1..][|s| - 1 - |r|..] == s[|s| - |r|..];
      forall k | 0 < k < |s| - |r|
        ensures s[k] in space
      {
        assert s[1..][k - 1] == s[k];
      }
    }
  }

  /** `s.rstrip()` of the characters in `space`. */
  function StripEnd(s: string, space: set<char>): (r: string)
    ensures |r| <= |s|
  {
    if |s| > 0 && s[|s| - 1] in space then StripEnd(s[..|s| - 1], space) else s
  }

  /** `rstrip` keeps a prefix that does not end with whitespace, and
      everything it removes is whitespace. */
  lemma {:induction false} StripEndShape(s: string, space: set<char>)
    ensures var r := StripEnd(s, space);
      && r == s[..|r|]
      && (|r| > 0 ==> r[|r| - 1] !in space)
      && forall k :: |r| <= k < |s| ==> s[k] in space
  {
    if |s| > 0 && s[|s| - 1] in space {
      var t := s[..|s| - 1];
      StripEndShape(t, space);
      var r := StripEnd(s, space);
      assert r == StripEnd(t, space);
      assert t[..|r|] == s[..|r|];
      forall k | |r| <= k < |s| - 1
        ensures s[k] in space
      {
        assert t[k] == s[k];
      }
    }
  }

  /** `s.strip()` of the characters in `space`. */
  function Strip(s: string, space: set<char>): (r: string)
    ensures |r| <= |s|
    ensures |r| > 0 ==> r[0] !in space && r[|r| - 1] !in space
  {
    StripStartShape(s, space);
    StripEndShape(StripStart(s, space), space);
    StripEnd(StripStart(s, space), space)
  }

  /** Stripping gives the empty text exactly when every character is
      whitespace. */
  lemma StripEmptyIffBlank(s: string, space: set<char>)
    ensures Strip(s, space) == "" <==> forall k :: 0 <= k < |s| ==> s[k] in space
  {
    StripStartShape(s, space);
    var inner := StripStart(s, space);
    var start := |s| - |inner|;
    StripEndShape(inner, space);
    if |inner| > 0 {
      assert inner[0] == s[start];
    }
  }

  /** Stripping keeps a text that neither starts nor ends with whitespace. */
  lemma StripKeepsTrimmed(s: string, space: set<char>)
    requires |s| > 0 && s[0] !in space && s[|s| - 1] !in space
    ensures Strip(s, space) == s
  {
    assert StripStart(s, space) == s;
  }

  /** The stripped text is the slice of the text that starts where
      `lstrip()` stopped. */
  lemma StripIsSlice(s: string, space: set<char>)
    ensures var start := |s| - |StripStart(s, space)|;
      start + |Strip(s, space)| <= |s| && Strip(s, space) == s[start..start + |Strip(s, space)|]
  {
    StripStartShape(s, space);
    var inner := StripStart(s, space);
    var start := |s| - |inner|;
    StripEndShape(inner, space);
    var r := StripEnd(inner, space);
    assert s[start..][..|r|] == s[start..start + |r|];
  }

  /** Every character after the stripped slice is whitespace. */
  lemma StripLeavesSpaceAfter(s: string, space: set<char>)
    ensures var start := |s| - |StripStart(s, space)|;
      forall k :: start + |Strip(s, space)| <= k < |s| ==> s[k] in space
  {
    StripStartShape(s, space);
    var inner := StripStart(s, space);
    var start := |s| - |inner|;
    StripEndShape(inner, space);
    var r := StripEnd(inner, space);
    forall k | start + |r| <= k < |s|
      ensures s[k] in space
    {
      assert s[k] == inner[k - start];
    }
  }

  /** `s.lstrip()` of a text with one more character at the end: that
      character stays unless the whole text is whitespace. */
  lemma {:induction false} StripStartAppend(s: string, c: char, space: set<char>)
    ensures (forall k :: 0 <= k < |s| ==> s[k] in space) ==> StripStart(s + [c], space) == StripStart([c], space)
    ensures (exists k :: 0 <= k < |s| && s[k] !in space) ==> StripStart(s + [c], space) == StripStart(s, space) + [c]
  {
    if |s| == 0 {
      assert s + [c] == [c];
    } else {
      var t := s + [c];
      assert t[0] == s[0] && t[1..] == s[1..] + [c];
      if s[0] in space {
        StripStartAppend(s[1..], c, space);
        assert StripStart(t, space) == StripStart(s[1..] + [c], space);
        if exists k :: 0 <= k < |s| && s[k] !in space {
          var k :| 0 <= k < |s| && s[k] !in space;
          assert k > 0 && s[1..][k - 1] !in space;
        }
      } else {
        assert StripStart(t, space) == t;
      }
    }
  }

  /** Whitespace added in front does not change `s.strip()`. */
  lemma StripIgnoresLeadingSpace(c: char, s: string, space: set<char>)
    requires c in space
    ensures Strip([c] + s, space) == Strip(s, space)
  {
    assert ([c] + s)[1..] == s;
  }

  /** Whitespace added at the end does not change `s.strip()`. */
  lemma StripIgnoresTrailingSpace(c: char, s: string, space: set<char>)
    requires c in space
    ensures Strip(s + [c], space) == Strip(s, space)
  {
    StripStartAppend(s, c, space);
    if forall k :: 0 <= k < |s| ==> s[k] in space {
      StripEmptyIffBlank(s, space);
      assert [c][1..] == "";
      assert StripStart([c], space) == "";
    } else {
      var inner := StripStart(s, space);
      var t := inner + [c];
      assert t[|t| - 1] == c && t[..|t| - 1] == inner;
      assert StripEnd(t, space) == StripEnd(inner, space);
    }
  }
}
