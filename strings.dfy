/**
 * The few Python string operations the recorder relies on: substring test
 * (`t in s`), `s.rstrip(chars)` and `s.strip()`.
 */
module Strings {

  /** Every character for which Python's `str.isspace()` holds; `str.strip()`
      with no argument removes exactly these from both ends. */
  const Whitespace: set<char> := {
    '\t', '\n', '\U{000B}', '\U{000C}', '\r',
    '\U{001C}', '\U{001D}', '\U{001E}', '\U{001F}', ' ',
    '\U{0085}', '\U{00A0}', '\U{1680}',
    '\U{2000}', '\U{2001}', '\U{2002}', '\U{2003}', '\U{2004}', '\U{2005}',
    '\U{2006}', '\U{2007}', '\U{2008}', '\U{2009}', '\U{200A}',
    '\U{2028}', '\U{2029}', '\U{202F}', '\U{205F}', '\U{3000}'
  }

  /** Python's `t in s` on two strings: `t` occurs in `s` as a contiguous run. */
  function Contains(s: string, t: string): (b: bool)
    ensures b ==> |t| <= |s|
    decreases |s|
  {
    |t| <= |s| && (s[..|t|] == t || (s != [] && Contains(s[1..], t)))
  }

  /** `t` occurs in `s` starting at index `i`. */
  ghost predicate OccursAt(s: string, t: string, i: int)
  {
    0 <= i && i + |t| <= |s| && s[i..i + |t|] == t
  }

  /** The recursive test agrees with the textbook definition of a substring. */
  lemma {:induction false} ContainsIff(s: string, t: string)
    ensures Contains(s, t) <==> exists i :: OccursAt(s, t, i)
    decreases |s|
  {
    if |t| > |s| {
    } else if s[..|t|] == t {
      assert OccursAt(s, t, 0);
    } else if s == [] {
    } else {
      ContainsIff(s[1..], t);
      if Contains(s[1..], t) {
        var j :| OccursAt(s[1..], t, j);
        assert s[1..][j..j + |t|] == s[j + 1..j + 1 + |t|];
        assert OccursAt(s, t, j + 1);
      }
      if i :| OccursAt(s, t, i) {
        assert i != 0;
        assert s[1..][i - 1..i - 1 + |t|] == s[i..i + |t|];
        assert OccursAt(s[1..], t, i - 1);
      }
    }
  }

  /** Any string occurs in any string built around it. */
  lemma ContainsInfix(p: string, t: string, q: string)
    ensures Contains(p + t + q, t)
  {
    var s := p + t + q;
    assert s[|p|..|p| + |t|] == t;
    assert OccursAt(s, t, |p|);
    ContainsIff(s, t);
  }

  /** Python's `s.rstrip(chars)`. */
  function StripEnd(s: string, drop: set<char>): (r: string)
    ensures |r| <= |s| && (r == [] || r[|r| - 1] !in drop)
    decreases |s|
  {
    if s != [] && s[|s| - 1] in drop then StripEnd(s[..|s| - 1], drop) else s
  }

  /** `rstrip` keeps a prefix, removes only characters of `drop`, and stops
      at the first character from the right that is not one of them. */
  lemma {:induction false} StripEndSpec(s: string, drop: set<char>)
    ensures var r := StripEnd(s, drop);
            |r| <= |s| && r == s[..|r|]
            && (r == [] || r[|r| - 1] !in drop)
            && forall i :: |r| <= i < |s| ==> s[i] in drop
    decreases |s|
  {
    if s != [] && s[|s| - 1] in drop {
      StripEndSpec(s[..|s| - 1], drop);
    }
  }

  /** Python's `s.lstrip(chars)`. */
  function StripStart(s: string, drop: set<char>): (r: string)
    ensures |r| <= |s| && (r == [] || r[0] !in drop)
    decreases |s|
  {
    if s != [] && s[0] in drop then StripStart(s[1..], drop) else s
  }

  /** `lstrip` keeps a suffix, removes only characters of `drop`, and stops
      at the first character from the left that is not one of them. */
  lemma {:induction false} StripStartSpec(s: string, drop: set<char>)
    ensures var r := StripStart(s, drop);
            |r| <= |s| && r == s[|s| - |r|..]
            && (r == [] || r[0] !in drop)
            && forall i :: 0 <= i < |s| - |r| ==> s[i] in drop
    decreases |s|
  {
    if s != [] && s[0] in drop {
      StripStartSpec(s[1..], drop);
    }
  }

  /** Python's `s.strip()`. */
  function Strip(s: string): (r: string)
    ensures |r| <= |s| && (r == [] || r[0] !in Whitespace)
  {
    StripStart(StripEnd(s, Whitespace), Whitespace)
  }

  /** What `strip()` keeps is one contiguous slice of the input that neither
      starts nor ends with whitespace, and all it drops on either side is
      whitespace. */
  lemma StripIsSlice(s: string) returns (i: nat, j: nat)
    ensures i <= j <= |s| && Strip(s) == s[i..j]
    ensures Strip(s) == [] || (Strip(s)[0] !in Whitespace && Strip(s)[|Strip(s)| - 1] !in Whitespace)
    ensures forall k :: 0 <= k < i ==> s[k] in Whitespace
    ensures forall k :: j <= k < |s| ==> s[k] in Whitespace
  {
    var e := StripEnd(s, Whitespace);
    StripEndSpec(s, Whitespace);
    var r := StripStart(e, Whitespace);
    StripStartSpec(e, Whitespace);
    i, j := |e| - |r|, |e|;
    assert r == s[i..j];
  }

  /** Stripping leaves nothing exactly when every character is whitespace, so
      Python's truthiness of `s.strip()` is "`s` has a visible character". */
  lemma StripEmptyIff(s: string)
    ensures Strip(s) == [] <==> forall k :: 0 <= k < |s| ==> s[k] in Whitespace
  {
    var i, j := StripIsSlice(s);
    if Strip(s) != [] {
      assert Strip(s)[0] == s[i];
    } else {
      assert i == j;
    }
  }

  /** Removing trailing `drop` characters ignores any extra ones appended. */
  lemma StripEndAppend(s: string, c: char, drop: set<char>)
    requires c in drop
    ensures StripEnd(s + [c], drop) == StripEnd(s, drop)
  {
    assert (s + [c])[..|s|] == s;
  }
}
