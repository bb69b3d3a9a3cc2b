/** The two string operations the attribute resolver uses: replacing the
    first occurrence of a pattern with nothing (`String.prototype.replace`
    with a plain string, or with a regular expression that has no `g` flag),
    and removing one leading character (`replace(/^#/, "")`). */
module JsStrings {

  /** `p` occurs in `s` starting at index `i`. */
  predicate OccursAt(s: string, p: string, i: int)
  {
    0 <= i && i + |p| <= |s| && s[i..i + |p|] == p
  }

  ghost predicate Contains(s: string, p: string)
  {
    exists i :: OccursAt(s, p, i)
  }

  /** `i` is the leftmost occurrence of `p` in `s`. */
  ghost predicate FirstAt(s: string, p: string, i: int)
  {
    OccursAt(s, p, i) && forall j :: 0 <= j < i ==> !OccursAt(s, p, j)
  }

  /** `r` is `s` with the leftmost occurrence of `p` cut out, or `s` itself
      when `p` does not occur. */
  ghost predicate IsRemoval(s: string, p: string, r: string)
  {
    && (!Contains(s, p) ==> r == s)
    && (Contains(s, p) ==> exists i :: FirstAt(s, p, i) && r == s[..i] + s[i + |p|..])
  }

  /** `s.replace(p, "")`: the leftmost occurrence of `p` is cut out; a
      string without `p` is returned as it is. */
  function RemoveFirst(s: string, p: string): (r: string)
    requires |p| > 0
    ensures IsRemoval(s, p, r)
    decreases |s|
  {
    if |s| < |p| then s
    else if s[..|p|] == p then
      assert FirstAt(s, p, 0);
      s[|p|..]
    else
      var rest := RemoveFirst(s[1..], p);
      RemovalStep(s, p, rest);
      [s[0]] + rest
  }

  /** When `p` does not start `s`, removing from `s[1..]` and putting the
      first character back removes from `s`. */
  lemma RemovalStep(s: string, p: string, rest: string)
    requires |p| > 0 && |s| >= |p| && s[..|p|] != p
    requires IsRemoval(s[1..], p, rest)
    ensures IsRemoval(s, p, [s[0]] + rest)
  {
    ShiftOccurrence(s, p);
    assert !OccursAt(s, p, 0);
    if Contains(s[1..], p) {
      var i :| FirstAt(s[1..], p, i) && rest == s[1..][..i] + s[1..][i + |p|..];
      forall j | 0 <= j < i + 1
        ensures !OccursAt(s, p, j)
      {
        if j > 0 {
          assert !OccursAt(s[1..], p, j - 1);
        }
      }
      assert FirstAt(s, p, i + 1);
      assert [s[0]] + rest == s[..i + 1] + s[i + 1 + |p|..];
    } else {
      forall j
        ensures !OccursAt(s, p, j)
      {
        if j > 0 {
          assert !OccursAt(s[1..], p, j - 1);
        }
      }
      assert [s[0]] + rest == s;
    }
  }

  /** Occurrences in `s[1..]` are the occurrences in `s` moved one place left. */
  lemma ShiftOccurrence(s: string, p: string)
    requires |s| > 0
    ensures forall i :: 0 <= i ==> (OccursAt(s[1..], p, i) <==> OccursAt(s, p, i + 1))
  {
    forall i | 0 <= i
      ensures OccursAt(s[1..], p, i) <==> OccursAt(s, p, i + 1)
    {
      if 0 <= i && i + |p| <= |s| - 1 {
        assert s[1..][i..i + |p|] == s[i + 1..i + 1 + |p|];
      }
    }
  }

  /** `replace(/^c/, "")`: drops `c` when the string starts with it. */
  function StripLeading(s: string, c: char): (r: string)
    ensures |s| > 0 && s[0] == c ==> r == s[1..]
    ensures (|s| == 0 || s[0] != c) ==> r == s
  {
    if |s| > 0 && s[0] == c then s[1..] else s
  }

  // ---------------------------------------------------------------------
  // Facts used by the url(...) normalisation
  // ---------------------------------------------------------------------

  /** A pattern at the very start is the first occurrence. */
  lemma RemoveLeading(p: string, t: string)
    requires |p| > 0
    ensures RemoveFirst(p + t, p) == t
  {
    assert (p + t)[..|p|] == p;
    assert (p + t)[|p|..] == t;
  }

  /** Removing a one-character pattern that occurs only as the last
      character leaves the rest. */
  lemma RemoveTrailingChar(a: string, c: char)
    requires c !in a
    ensures RemoveFirst(a + [c], [c]) == a
  {
    var p := [c];
    var s := a + p;
    assert OccursAt(s, p, |a|);
    forall j | 0 <= j < |a|
      ensures !OccursAt(s, p, j)
    {
      assert s[j..j + 1] == [a[j]];
    }
    assert Contains(s, p);
    var r := RemoveFirst(s, p);
    assert IsRemoval(s, p, r);
    var i :| FirstAt(s, p, i) && r == s[..i] + s[i + 1..];
    assert OccursAt(s, p, i);
    assert i >= |a|;
    assert s[..|a|] == a;
  }

  /** A character that is not in a string cannot start an occurrence of a
      pattern that begins with it; so prefixing it creates no occurrence. */
  lemma NoNewOccurrence(c: char, t: string, p: string)
    requires |p| > 0 && p[0] != c
    requires !Contains(t, p)
    ensures !Contains([c] + t, p)
  {
    var s := [c] + t;
    assert s[1..] == t;
    ShiftOccurrence(s, p);
    forall i
      ensures !OccursAt(s, p, i)
    {
      if i == 0 && |p| <= |s| {
        assert s[0..|p|][0] == c;
      } else if i > 0 {
        assert !OccursAt(t, p, i - 1);
      }
    }
  }

  /** A string without the character `c` contains no pattern that holds `c`. */
  lemma NoCharNoOccurrence(t: string, p: string, k: nat, c: char)
    requires k < |p| && p[k] == c && c !in t
    ensures !Contains(t, p)
  {
    forall i
      ensures !OccursAt(t, p, i)
    {
      if 0 <= i && i + |p| <= |t| {
        assert t[i..i + |p|][k] == t[i + k];
      }
    }
  }
}
