/**
 The alias key of `normalizeInput`: the input is trimmed, lower-cased, and each
 whitespace run is replaced by one underscore before the compound table is consulted.
 */
module AliasKeys {
  import opened Chars

  predicate NoSpace(s: string) {
    forall k :: 0 <= k < |s| ==> !IsSpace(s[k])
  }

  /** Every character of `s` is whitespace. */
  predicate AllSpace(s: string) {
    forall k :: 0 <= k < |s| ==> IsSpace(s[k])
  }

  /** Number of whitespace characters at the start of `s`. */
  function LeadingSpaces(s: string): (n: nat)
    ensures n <= |s|
    ensures forall k :: 0 <= k < n ==> IsSpace(s[k])
    ensures n == |s| || !IsSpace(s[n])
    decreases |s|
  {
    if |s| > 0 && IsSpace(s[0]) then 1 + LeadingSpaces(s[1..]) else 0
  }

  /** Number of whitespace characters at the end of `s`. */
  function TrailingSpaces(s: string): (n: nat)
    ensures n <= |s|
    ensures forall k :: |s| - n <= k < |s| ==> IsSpace(s[k])
    ensures n == |s| || !IsSpace(s[|s| - 1 - n])
    decreases |s|
  {
    if |s| > 0 && IsSpace(s[|s| - 1]) then 1 + TrailingSpaces(s[..|s| - 1]) else 0
  }

  /** `String.prototype.trim` */
  function Trim(s: string): (r: string)
    ensures r == [] || (!IsSpace(r[0]) && !IsSpace(r[|r| - 1]))
    ensures LeadingSpaces(s) + |r| <= |s|
    ensures r == s[LeadingSpaces(s)..LeadingSpaces(s) + |r|]
    ensures forall k :: LeadingSpaces(s) + |r| <= k < |s| ==> IsSpace(s[k])
  {
    var a := LeadingSpaces(s);
    var t := s[a..];
    t[..|t| - TrailingSpaces(t)]
  }

  /** `trim` removes exactly the whitespace around a core that starts and ends with a non-space. */
  lemma TrimAround(pre: string, core: string, post: string)
    requires AllSpace(pre) && AllSpace(post)
    requires core == [] || (!IsSpace(core[0]) && !IsSpace(core[|core| - 1]))
    ensures Trim(pre + core + post) == core
  {
    var s := pre + core + post;
    var n := LeadingSpaces(s);
    var r := Trim(s);
    if core == [] {
      assert n == |s|;
    } else {
      assert s[|pre|] == core[0];
      assert n == |pre|;
      assert !IsSpace(s[|pre| + |core| - 1]);
      assert |r| >= |core|;
      assert forall k :: |pre| + |core| <= k < |s| ==> IsSpace(s[k]);
      assert r[|r| - 1] == s[n + |r| - 1];
      assert |r| == |core|;
      assert r == s[|pre|..|pre| + |core|];
    }
  }

  /**
   `replace(/\s+/g, "_")` on `s[i..]`, one character at a time: `inRun` records
   that the previous character was whitespace, so a run yields a single underscore.
   */
  function Collapse(s: string, i: nat, inRun: bool): (r: string)
    requires i <= |s|
    ensures NoSpace(r)
    ensures |r| <= |s| - i
    decreases |s| - i
  {
    if i == |s| then ""
    else if IsSpace(s[i]) then (if inRun then "" else "_") + Collapse(s, i + 1, true)
    else [s[i]] + Collapse(s, i + 1, false)
  }

  function CollapseSpaces(s: string): (r: string)
    ensures NoSpace(r) && |r| <= |s|
  {
    Collapse(s, 0, false)
  }

  /** The lookup key built from the user's text. */
  function AliasKey(input: string): (key: string)
    ensures NoSpace(key) && |key| <= |input|
  {
    CollapseSpaces(Lower(Trim(input)))
  }

  /** What follows a prefix collapses as it would on its own. */
  lemma {:induction false} CollapseAfter(p: string, t: string, j: nat, inRun: bool)
    requires j <= |t|
    ensures Collapse(p + t, |p| + j, inRun) == Collapse(t, j, inRun)
    decreases |t| - j
  {
    if j < |t| {
      assert (p + t)[|p| + j] == t[j];
      CollapseAfter(p, t, j + 1, true);
      CollapseAfter(p, t, j + 1, false);
    }
  }

  lemma {:induction false} CollapseWordFrom(w: string, rest: string, i: nat, inRun: bool)
    requires NoSpace(w) && i <= |w| && (i < |w| || !inRun)
    ensures Collapse(w + rest, i, inRun) == w[i..] + Collapse(w + rest, |w|, false)
    decreases |w| - i
  {
    var x := Collapse(w + rest, |w|, false);
    if i < |w| {
      assert (w + rest)[i] == w[i];
      assert Collapse(w + rest, i, inRun) == [w[i]] + Collapse(w + rest, i + 1, false);
      CollapseWordFrom(w, rest, i + 1, false);
      assert [w[i]] + (w[i + 1..] + x) == ([w[i]] + w[i + 1..]) + x;
      assert [w[i]] + w[i + 1..] == w[i..];
    } else {
      assert w[i..] + x == x;
    }
  }

  /** A word without whitespace passes through the collapse unchanged. */
  lemma CollapseKeepsWord(w: string, rest: string)
    requires NoSpace(w)
    ensures CollapseSpaces(w + rest) == w + CollapseSpaces(rest)
  {
    CollapseWordFrom(w, rest, 0, false);
    CollapseAfter(w, rest, 0, false);
  }

  /** Inside a run, further whitespace adds nothing. */
  lemma {:induction false} RunContinues(run: string, rest: string, i: nat)
    requires i <= |run|
    requires AllSpace(run)
    ensures Collapse(run + rest, i, true) == Collapse(run + rest, |run|, true)
    decreases |run| - i
  {
    if i < |run| {
      assert (run + rest)[i] == run[i];
      RunContinues(run, rest, i + 1);
    }
  }

  /** A whitespace run followed by a non-whitespace character collapses to one underscore. */
  lemma CollapseRun(run: string, rest: string)
    requires |run| > 0
    requires AllSpace(run)
    requires rest == [] || !IsSpace(rest[0])
    ensures CollapseSpaces(run + rest) == "_" + CollapseSpaces(rest)
  {
    assert (run + rest)[0] == run[0];
    RunContinues(run, rest, 1);
    CollapseAfter(run, rest, 0, true);
    if rest != [] {
      CollapseAfter(run, rest, 0, false);
    }
  }

  /** Text without whitespace is its own alias key once lower-cased. */
  lemma NoSpaceKey(s: string)
    requires NoSpace(s)
    ensures AliasKey(s) == Lower(s)
  {
    assert LeadingSpaces(s) == 0;
    assert TrailingSpaces(s) == 0;
    assert Trim(s) == s;
    forall k | 0 <= k < |s| ensures !IsSpace(Lower(s)[k]) {
      CaseMappingKeepsClass(s[k]);
    }
    CollapseKeepsWord(Lower(s), "");
    assert Lower(s) + "" == Lower(s);
  }

  /** `s` and `t` have whitespace at exactly the same positions. */
  predicate SameSpaces(s: string, t: string) {
    |s| == |t| && forall k :: 0 <= k < |s| ==> IsSpace(s[k]) == IsSpace(t[k])
  }

  lemma {:induction false} SameLeadingSpaces(s: string, t: string)
    requires SameSpaces(s, t)
    ensures LeadingSpaces(s) == LeadingSpaces(t)
    decreases |s|
  {
    if |s| > 0 && IsSpace(s[0]) {
      assert SameSpaces(s[1..], t[1..]);
      SameLeadingSpaces(s[1..], t[1..]);
    }
  }

  lemma {:induction false} SameTrailingSpaces(s: string, t: string)
    requires SameSpaces(s, t)
    ensures TrailingSpaces(s) == TrailingSpaces(t)
    decreases |s|
  {
    if |s| > 0 && IsSpace(s[|s| - 1]) {
      assert SameSpaces(s[..|s| - 1], t[..|t| - 1]);
      SameTrailingSpaces(s[..|s| - 1], t[..|t| - 1]);
    }
  }

  lemma {:induction false} SameSpacesTrim(s: string, t: string)
    requires SameSpaces(s, t)
    ensures LeadingSpaces(s) == LeadingSpaces(t)
    ensures |Trim(s)| == |Trim(t)|
  {
    var a := LeadingSpaces(s);
    SameLeadingSpaces(s, t);
    assert SameSpaces(s[a..], t[a..]);
    SameTrailingSpaces(s[a..], t[a..]);
  }

  lemma LowerKeepsSpaces(s: string, t: string)
    requires Lower(s) == Lower(t)
    ensures SameSpaces(s, t)
  {
    forall k | 0 <= k < |s| ensures IsSpace(s[k]) == IsSpace(t[k]) {
      CaseMappingKeepsClass(s[k]);
      CaseMappingKeepsClass(t[k]);
      assert ToLower(s[k]) == Lower(s)[k] == Lower(t)[k] == ToLower(t[k]);
    }
  }

  lemma TrimIgnoresCase(s: string, t: string)
    requires Lower(s) == Lower(t)
    ensures Lower(Trim(s)) == Lower(Trim(t))
  {
    LowerKeepsSpaces(s, t);
    SameSpacesTrim(s, t);
    var a, n := LeadingSpaces(s), |Trim(s)|;
    assert Trim(s) == s[a..a + n] && Trim(t) == t[a..a + n];
    forall k | 0 <= k < n ensures ToLower(Trim(s)[k]) == ToLower(Trim(t)[k]) {
      assert Lower(s)[a + k] == Lower(t)[a + k];
    }
  }

  /** Two texts that agree once lower-cased have the same alias key. */
  lemma AliasKeyIgnoresCase(s: string, t: string)
    requires Lower(s) == Lower(t)
    ensures AliasKey(s) == AliasKey(t)
  {
    TrimIgnoresCase(s, t);
  }

  /** `toLowerCase` maps each part of a concatenation separately. */
  lemma LowerConcat(s: string, t: string)
    ensures Lower(s + t) == Lower(s) + Lower(t)
  {
  }

  lemma LowerKeepsSpaceClasses(s: string)
    ensures NoSpace(s) ==> NoSpace(Lower(s))
    ensures AllSpace(s) ==> AllSpace(Lower(s))
  {
    forall k | 0 <= k < |s| ensures IsSpace(Lower(s)[k]) == IsSpace(s[k]) {
      CaseMappingKeepsClass(s[k]);
    }
  }

  /** A word, a whitespace run and a word collapse to the two words joined by one underscore. */
  lemma CollapseTwoWords(w1: string, run: string, w2: string)
    requires NoSpace(w1) && NoSpace(w2) && |w2| > 0
    requires AllSpace(run) && |run| > 0
    ensures CollapseSpaces(w1 + run + w2) == w1 + "_" + w2
  {
    assert w1 + run + w2 == w1 + (run + w2);
    CollapseKeepsWord(w1, run + w2);
    CollapseRun(run, w2);
    CollapseKeepsWord(w2, "");
    assert w2 + "" == w2;
    assert w1 + ("_" + w2) == w1 + "_" + w2;
  }

  /**
   Two words separated by a whitespace run, with any whitespace around them, key
   as the two words lower-cased and joined by one underscore.
   */
  lemma TwoWordKey(pre: string, w1: string, mid: string, w2: string, post: string)
    requires AllSpace(pre) && AllSpace(mid) && AllSpace(post) && |mid| > 0
    requires NoSpace(w1) && NoSpace(w2) && |w1| > 0 && |w2| > 0
    ensures AliasKey(pre + (w1 + mid + w2) + post) == Lower(w1) + "_" + Lower(w2)
  {
    var core := w1 + mid + w2;
    assert core[0] == w1[0] && core[|core| - 1] == w2[|w2| - 1];
    TrimAround(pre, core, post);
    LowerConcat(w1 + mid, w2);
    LowerConcat(w1, mid);
    LowerKeepsSpaceClasses(w1);
    LowerKeepsSpaceClasses(mid);
    LowerKeepsSpaceClasses(w2);
    CollapseTwoWords(Lower(w1), Lower(mid), Lower(w2));
  }

  /** Text of lower-case letters and underscores is its own alias key. */
  lemma WordIsOwnKey(s: string)
    requires forall k :: 0 <= k < |s| ==> IsLower(s[k]) || s[k] == '_'
    ensures AliasKey(s) == s
  {
    forall k | 0 <= k < |s| ensures !IsSpace(s[k]) {
      SpaceIsNoWordChar(s[k]);
    }
    NoSpaceKey(s);
    assert Lower(s) == s;
  }
}
