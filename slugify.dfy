/** The URL slug helper of backend/src/utils/slugify.js:
      String(str).toLowerCase().replace(/[^a-z0-9]+/g, "-")
                 .replace(/^-+|-+$/g, "").slice(0, 80)
    The building blocks (run replacement, dash stripping) are shared with the
    organisation slug of the auth controller. */
module Slugify {
  import opened Common

  const MaxSlugLength: nat := 80

  predicate IsSlugChar(c: char) { IsAsciiLower(c) || IsAsciiDigit(c) }

  /** Every character is a lower-case ASCII letter, a digit or '-'. */
  predicate IsSlugText(s: string) {
    forall i :: 0 <= i < |s| ==> IsSlugChar(s[i]) || s[i] == '-'
  }

  predicate AllSlugChars(s: string) {
    forall i :: 0 <= i < |s| ==> IsSlugChar(s[i])
  }

  /** No two consecutive '-'. */
  predicate NoDoubleDash(s: string) {
    forall i :: 0 <= i < |s| - 1 ==> !(s[i] == '-' && s[i + 1] == '-')
  }

  /** The letters and digits of `s`, in their order: the characters
      that every slug step keeps. */
  function SlugChars(s: string): string {
    if s == [] then []
    else if IsSlugChar(s[0]) then [s[0]] + SlugChars(s[1..])
    else SlugChars(s[1..])
  }

  /** It is `s.filter(IsSlugChar)`. */
  lemma {:induction false} SlugCharsIsFilter(s: string)
    ensures SlugChars(s) == Filter(IsSlugChar, s)
  {
    if s != [] {
      SlugCharsIsFilter(s[1..]);
    }
  }

  lemma {:induction false} SlugCharsAppend(a: string, b: string)
    ensures SlugChars(a + b) == SlugChars(a) + SlugChars(b)
  {
    if a == [] {
      assert a + b == b;
    } else {
      assert (a + b)[0] == a[0] && (a + b)[1..] == a[1..] + b;
      SlugCharsAppend(a[1..], b);
    }
  }

  lemma {:induction false} SlugCharsNone(s: string)
    requires forall i :: 0 <= i < |s| ==> !IsSlugChar(s[i])
    ensures SlugChars(s) == []
  {
    if s != [] {
      SlugCharsNone(s[1..]);
    }
  }

  /** Cutting off ends without letters or digits keeps the same ones. */
  lemma SlugCharsOfSlice(s: string, i: nat, j: nat)
    requires i <= j <= |s|
    requires forall k :: 0 <= k < |s| && (k < i || j <= k) ==> !IsSlugChar(s[k])
    ensures SlugChars(s[i..j]) == SlugChars(s)
  {
    assert s == s[..i] + s[i..j] + s[j..];
    SlugCharsNone(s[..i]);
    SlugCharsNone(s[j..]);
    SlugCharsAppend(s[..i], s[i..j]);
    SlugCharsAppend(s[..i] + s[i..j], s[j..]);
  }

  /** A prefix keeps a prefix of the letters and digits. */
  lemma SlugCharsOfPrefix(s: string, k: nat)
    requires k <= |s|
    ensures SlugChars(s[..k]) <= SlugChars(s)
  {
    assert s == s[..k] + s[k..];
    SlugCharsAppend(s[..k], s[k..]);
  }

  /** Length of the run of characters outside [a-z0-9] at the front of `s`. */
  function RunLength(s: string): (n: nat)
    ensures n <= |s|
    ensures forall i :: 0 <= i < n ==> !IsSlugChar(s[i])
    ensures n < |s| ==> IsSlugChar(s[n])
  {
    if s == [] || IsSlugChar(s[0]) then 0 else RunLength(s[1..]) + 1
  }

  /** `.replace(/[^a-z0-9]+/g, "-")`: every maximal run of characters outside
      [a-z0-9] becomes a single '-'. */
  function Hyphenate(s: string): (r: string)
    decreases |s|
    ensures IsSlugText(r) && NoDoubleDash(r)
    ensures |r| <= |s|
    ensures r == [] <==> s == []
    ensures r != [] ==> (r[0] == '-' <==> !IsSlugChar(s[0]))
    ensures AllSlugChars(s) ==> r == s
  {
    if s == [] then []
    else if IsSlugChar(s[0]) then
      var rest := Hyphenate(s[1..]);
      assert AllSlugChars(s) ==> AllSlugChars(s[1..]);
      [s[0]] + rest
    else
      var rest := Hyphenate(s[RunLength(s)..]);
      assert !AllSlugChars(s);
      "-" + rest
  }

  /** Hyphenating keeps every letter and digit, in order: only the
      separators change. */
  lemma {:induction false} HyphenateKeepsSlugChars(s: string)
    decreases |s|
    ensures SlugChars(Hyphenate(s)) == SlugChars(s)
  {
    if s != [] {
      var h := Hyphenate(s);
      if IsSlugChar(s[0]) {
        HyphenateKeepsSlugChars(s[1..]);
        assert h == [s[0]] + Hyphenate(s[1..]);
        assert h[1..] == Hyphenate(s[1..]);
      } else {
        var n := RunLength(s);
        HyphenateKeepsSlugChars(s[n..]);
        assert h == "-" + Hyphenate(s[n..]);
        assert h[1..] == Hyphenate(s[n..]);
        SlugCharsOfSlice(s, n, |s|);
        assert s[n..|s|] == s[n..];
      }
    }
  }

  /** The same replacement read one character at a time, as a reference:
      `inRun` says that the previous character was a separator, already
      written as '-'. A separator writes '-' only when it starts a run. */
  function Collapse(s: string, inRun: bool): string {
    if s == [] then []
    else if IsSlugChar(s[0]) then [s[0]] + Collapse(s[1..], false)
    else if inRun then Collapse(s[1..], true)
    else "-" + Collapse(s[1..], true)
  }

  /** Inside a run, the separators up to position `k` write nothing. */
  lemma {:induction false} CollapseSkipsRun(t: string, k: nat)
    requires k <= |t| && forall i :: 0 <= i < k ==> !IsSlugChar(t[i])
    ensures Collapse(t, true) == Collapse(t[k..], true)
  {
    if k > 0 {
      CollapseSkipsRun(t[1..], k - 1);
      assert t[1..][k - 1..] == t[k..];
    }
  }

  /** Replacing whole runs at once agrees with the character-by-character
      reading: each maximal run of separators gives exactly one '-'. */
  lemma {:induction false} HyphenateIsCollapse(s: string)
    decreases |s|
    ensures Hyphenate(s) == Collapse(s, false)
  {
    if s != [] {
      if IsSlugChar(s[0]) {
        HyphenateIsCollapse(s[1..]);
      } else {
        var n := RunLength(s);
        HyphenateIsCollapse(s[n..]);
        CollapseSkipsRun(s[1..], n - 1);
        assert s[1..][n - 1..] == s[n..];
        assert Collapse(s[n..], true) == Collapse(s[n..], false);
      }
    }
  }

  /** Removes every leading '-'. */
  function DropLeadingDashes(s: string): (r: string)
    ensures |r| <= |s| && r == s[|s| - |r|..]
    ensures r == [] || r[0] != '-'
    ensures s == [] || s[0] != '-' ==> r == s
  {
    if s != [] && s[0] == '-' then DropLeadingDashes(s[1..]) else s
  }

  /** Removes every trailing '-'. */
  function DropTrailingDashes(s: string): (r: string)
    ensures |r| <= |s| && r == s[..|r|]
    ensures r == [] || r[|r| - 1] != '-'
    ensures s == [] || s[|s| - 1] != '-' ==> r == s
  {
    if s != [] && s[|s| - 1] == '-' then DropTrailingDashes(s[..|s| - 1]) else s
  }

  lemma SliceKeepsSlugText(s: string, i: nat, j: nat)
    requires i <= j <= |s| && IsSlugText(s) && NoDoubleDash(s)
    ensures IsSlugText(s[i..j]) && NoDoubleDash(s[i..j])
  {
    var t := s[i..j];
    forall k | 0 <= k < |t| - 1 ensures !(t[k] == '-' && t[k + 1] == '-') {
      assert t[k] == s[i + k] && t[k + 1] == s[i + k + 1];
    }
  }

  /** `.replace(/^-+|-+$/g, "")`. */
  function TrimDashes(s: string): (r: string)
    requires IsSlugText(s) && NoDoubleDash(s)
    ensures IsSlugText(r) && NoDoubleDash(r) && |r| <= |s|
    ensures r == [] || (r[0] != '-' && r[|r| - 1] != '-')
    ensures AllSlugChars(s) ==> r == s
  {
    var a := DropLeadingDashes(s);
    SliceKeepsSlugText(s, |s| - |a|, |s|);
    var b := DropTrailingDashes(a);
    SliceKeepsSlugText(a, 0, |b|);
    assert b != [] ==> b[0] == a[0];
    b
  }

  /** What `DropLeadingDashes` removes is dashes. */
  lemma {:induction false} DropLeadingDashesRemovesDashes(s: string)
    ensures forall i :: 0 <= i < |s| - |DropLeadingDashes(s)| ==> s[i] == '-'
  {
    if s != [] && s[0] == '-' {
      DropLeadingDashesRemovesDashes(s[1..]);
      forall i | 1 <= i < |s| - |DropLeadingDashes(s)| ensures s[i] == '-' {
        assert s[i] == s[1..][i - 1];
      }
    }
  }

  /** What `DropTrailingDashes` removes is dashes. */
  lemma {:induction false} DropTrailingDashesRemovesDashes(s: string)
    ensures forall i :: |DropTrailingDashes(s)| <= i < |s| ==> s[i] == '-'
  {
    if s != [] && s[|s| - 1] == '-' {
      DropTrailingDashesRemovesDashes(s[..|s| - 1]);
      forall i | |DropTrailingDashes(s)| <= i < |s| - 1 ensures s[i] == '-' {
        assert s[i] == s[..|s| - 1][i];
      }
    }
  }

  /** Stripping the end dashes removes no letter or digit. */
  lemma TrimDashesKeepsSlugChars(s: string)
    requires IsSlugText(s) && NoDoubleDash(s)
    ensures SlugChars(TrimDashes(s)) == SlugChars(s)
  {
    var a := DropLeadingDashes(s);
    DropLeadingDashesRemovesDashes(s);
    SlugCharsOfSlice(s, |s| - |a|, |s|);
    var b := DropTrailingDashes(a);
    DropTrailingDashesRemovesDashes(a);
    SlugCharsOfSlice(a, 0, |b|);
  }

  /** `.slice(0, 80)`. */
  function Take(s: string, n: nat): (r: string)
    ensures |r| <= n && |r| <= |s| && r == s[..|r|]
    ensures |s| <= n ==> r == s
  {
    if |s| <= n then s else s[..n]
  }

  /** The slug of `str` as backend/src/utils/slugify.js computes it. */
  function Slugify(str: string): (r: string)
    ensures IsSlugText(r)
    ensures NoDoubleDash(r)
    ensures r == [] || r[0] != '-'
    ensures |r| <= MaxSlugLength
    // the letters and digits of the slug lead those of the lower-cased input,
    // and are all of them when the input is short enough not to be cut
    ensures SlugChars(r) <= SlugChars(Lower(str))
    ensures |str| <= MaxSlugLength ==> SlugChars(r) == SlugChars(Lower(str))
  {
    var trimmed := TrimDashes(Hyphenate(Lower(str)));
    var r := Take(trimmed, MaxSlugLength);
    SliceKeepsSlugText(trimmed, 0, |r|);
    SlugifySteps(Lower(str), trimmed, r);
    r
  }

  /** The slug characters through the three steps of `Slugify`. */
  lemma SlugifySteps(lowered: string, trimmed: string, r: string)
    requires trimmed == TrimDashes(Hyphenate(lowered)) && r == Take(trimmed, MaxSlugLength)
    ensures SlugChars(r) <= SlugChars(lowered)
    ensures |lowered| <= MaxSlugLength ==> SlugChars(r) == SlugChars(lowered)
  {
    HyphenateKeepsSlugChars(lowered);
    TrimDashesKeepsSlugChars(Hyphenate(lowered));
    assert SlugChars(trimmed) == SlugChars(lowered);
    assert r == trimmed[..|r|];
    SlugCharsOfPrefix(trimmed, |r|);
  }

  lemma LowerKeepsSlugChars(s: string)
    requires AllSlugChars(s)
    ensures Lower(s) == s
  {
  }

  /** A lower-case alphanumeric string of at most 80 characters is its own slug. */
  lemma SlugifyKeepsSlugs(s: string)
    requires AllSlugChars(s) && |s| <= MaxSlugLength
    ensures Slugify(s) == s
  {
    LowerKeepsSlugChars(s);
  }

  /** The cut to 80 characters happens after the dashes are stripped, so a
      trailing '-' survives only when the stripped slug was longer than 80. */
  lemma TrailingDashOnlyWhenCut(str: string)
    requires Slugify(str) != [] && Slugify(str)[|Slugify(str)| - 1] == '-'
    ensures |TrimDashes(Hyphenate(Lower(str)))| > MaxSlugLength
  {
  }

  /** Such a slug exists: the cut can land just after a separator. */
  lemma TrailingDashExample()
    ensures Slugify(seq(79, _ => 'a') + " b") == seq(79, _ => 'a') + "-"
  {
    var a79 := seq(79, _ => 'a');
    var s := a79 + " b";
    assert Lower(s) == s;
    assert AllSlugChars(a79);
    assert Hyphenate(" b") == "-b" by {
      assert RunLength(" b") == 1;
      assert " b"[1..] == "b";
    }
    HyphenateAppend(a79, " b");
    var h := a79 + "-b";
    assert h[0] == 'a' && h[|h| - 1] == 'b';
    assert TrimDashes(h) == h;
    assert h[..80] == a79 + "-";
  }

  lemma {:induction false} HyphenateAppend(a: string, b: string)
    requires AllSlugChars(a)
    ensures Hyphenate(a + b) == a + Hyphenate(b)
  {
    if a != [] {
      assert (a + b)[1..] == a[1..] + b;
      assert (a + b)[0] == a[0];
      HyphenateAppend(a[1..], b);
    } else {
      assert a + b == b;
    }
  }
}
