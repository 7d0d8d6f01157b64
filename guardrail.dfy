/**
  The safety guardrail `validate_script` (gemini_alert.py:35-52): a fixed,
  ordered blocklist of regular expressions is searched in the script text and
  every pattern that matches is collected, in list order.

  The regular-expression engine is not modelled. A `Search` stands for
  `re.search(pattern, text)` being truthy and may be any relation between a
  pattern and a text; every result below holds for all of them.
*/
module Guardrail {
  import opened Common

  /** `search(pattern, text)`: the pattern occurs somewhere in the text. */
  type Search = (string, string) -> bool

  /** The nine forbidden patterns, in the order `validate_script` lists them. */
  const ForbiddenPatterns: seq<string> := [
    @"\brm\s+-rf\b",
    @"\bshutdown\b",
    @"\breboot\b",
    @"\bsystemctl\s+(stop|disable)\b",
    @"\bapt(-get)?\s+install\b",
    @"\byum\s+install\b",
    @"\bsysctl\b",
    @"\bmount\b|\bumount\b",
    @"\becho\s+.+\s*>\s*/etc/"
  ]

  /**
    The patterns of `patterns` that match `text`, kept in their order. This is
    the specification of the collection loop; it is defined on the last
    pattern so that it grows with the loop's prefix.
  */
  function Violations(search: Search, patterns: seq<string>, text: string): (v: seq<string>)
    ensures |v| <= |patterns|
  {
    if patterns == [] then []
    else
      var init := Violations(search, patterns[..|patterns| - 1], text);
      var last := patterns[|patterns| - 1];
      if search(last, text) then init + [last] else init
  }

  /** A pattern is a violation exactly when it is listed and it matches. */
  lemma {:induction false} ViolationsAreTheMatches(search: Search, patterns: seq<string>, text: string)
    ensures forall p :: p in Violations(search, patterns, text) <==> p in patterns && search(p, text)
  {
    if patterns != [] {
      var init := patterns[..|patterns| - 1];
      ViolationsAreTheMatches(search, init, text);
      assert patterns == init + [patterns[|patterns| - 1]];
    }
  }

  /** The indices of the patterns that match, in increasing order. */
  ghost function MatchIndices(search: Search, patterns: seq<string>, text: string): (idx: seq<nat>)
    ensures forall k :: 0 <= k < |idx| ==> idx[k] < |patterns|
    ensures forall k, l :: 0 <= k < l < |idx| ==> idx[k] < idx[l]
  {
    if patterns == [] then []
    else
      var init := MatchIndices(search, patterns[..|patterns| - 1], text);
      if search(patterns[|patterns| - 1], text) then init + [|patterns| - 1] else init
  }

  /** Violation k is the pattern at the k-th matching index. */
  lemma {:induction false} ViolationsAtMatchIndices(search: Search, patterns: seq<string>, text: string)
    ensures var v, idx := Violations(search, patterns, text), MatchIndices(search, patterns, text);
      |idx| == |v| && forall k :: 0 <= k < |idx| ==> v[k] == patterns[idx[k]]
  {
    if patterns != [] {
      var n := |patterns| - 1;
      var init := patterns[..n];
      ViolationsAtMatchIndices(search, init, text);
      var v0, idx0 := Violations(search, init, text), MatchIndices(search, init, text);
      var v, idx := Violations(search, patterns, text), MatchIndices(search, patterns, text);
      assert v == if search(patterns[n], text) then v0 + [patterns[n]] else v0;
      assert idx == if search(patterns[n], text) then idx0 + [n] else idx0;
      forall k | 0 <= k < |idx|
        ensures v[k] == patterns[idx[k]]
      {
        if k < |idx0| {
          assert v[k] == v0[k] == init[idx0[k]];
        }
      }
    }
  }

  /** An index is a match index exactly when its pattern matches the text. */
  lemma {:induction false} MatchIndicesAreTheMatches(search: Search, patterns: seq<string>, text: string)
    ensures forall i :: 0 <= i < |patterns| ==>
      (i in MatchIndices(search, patterns, text) <==> search(patterns[i], text))
  {
    if patterns != [] {
      var n := |patterns| - 1;
      var init := patterns[..n];
      MatchIndicesAreTheMatches(search, init, text);
      var idx0 := MatchIndices(search, init, text);
      assert n !in idx0;
      forall i | 0 <= i < n
        ensures patterns[i] == init[i]
      {
      }
    }
  }

  /**
    The violations are exactly the matching patterns, each taken once and in
    list order: the k-th violation is the pattern at the k-th matching index,
    those indices increase, and an index is among them iff its pattern
    matches. Nothing stops the scan at the first match.
  */
  lemma ViolationsFollowListOrder(search: Search, patterns: seq<string>, text: string)
    ensures var v, idx := Violations(search, patterns, text), MatchIndices(search, patterns, text);
      && |idx| == |v|
      && (forall k :: 0 <= k < |idx| ==> idx[k] < |patterns| && v[k] == patterns[idx[k]])
      && (forall k, l :: 0 <= k < l < |idx| ==> idx[k] < idx[l])
      && (forall i :: 0 <= i < |patterns| ==> (i in idx <==> search(patterns[i], text)))
  {
    ViolationsAtMatchIndices(search, patterns, text);
    MatchIndicesAreTheMatches(search, patterns, text);
  }

  /** A blocklist without repeated patterns yields violations without repeats. */
  lemma {:induction false} ViolationsNoDuplicates(search: Search, patterns: seq<string>, text: string)
    requires NoDuplicates(patterns)
    ensures NoDuplicates(Violations(search, patterns, text))
  {
    if patterns != [] {
      var n := |patterns| - 1;
      var init := patterns[..n];
      assert NoDuplicates(init);
      ViolationsNoDuplicates(search, init, text);
      ViolationsAreTheMatches(search, init, text);
      assert patterns[n] !in init;
      assert patterns[n] !in Violations(search, init, text);
    }
  }

  /** The nine forbidden patterns are pairwise different. */
  lemma ForbiddenPatternsDistinct()
    ensures |ForbiddenPatterns| == 9
    ensures NoDuplicates(ForbiddenPatterns)
  {
    forall i, j | 0 <= i < j < |ForbiddenPatterns|
      ensures ForbiddenPatterns[i] != ForbiddenPatterns[j]
    {
      var p, q := ForbiddenPatterns[i], ForbiddenPatterns[j];
      // After the leading `\b`, the patterns already differ at offset 2, 3 or 5.
      assert p[2] != q[2] || p[3] != q[3] || p[5] != q[5];
    }
  }

  /**
    `validate_script`: scans every forbidden pattern in order and appends each
    one that matches. The script is safe exactly when no pattern matched.
  */
  method ValidateScript(search: Search, script: string) returns (isSafe: bool, violations: seq<string>)
    ensures violations == Violations(search, ForbiddenPatterns, script)
    ensures isSafe <==> violations == []
    ensures isSafe <==> forall p :: p in ForbiddenPatterns ==> !search(p, script)
    ensures NoDuplicates(violations) && |violations| <= 9
  {
    violations := [];
    for i := 0 to |ForbiddenPatterns|
      invariant violations == Violations(search, ForbiddenPatterns[..i], script)
    {
      var pattern := ForbiddenPatterns[i];
      if search(pattern, script) {
        violations := violations + [pattern];
      }
      assert ForbiddenPatterns[..i + 1][..i] == ForbiddenPatterns[..i];
    }
    assert ForbiddenPatterns[..|ForbiddenPatterns|] == ForbiddenPatterns;
    ForbiddenPatternsDistinct();
    ViolationsNoDuplicates(search, ForbiddenPatterns, script);
    ViolationsAreTheMatches(search, ForbiddenPatterns, script);
    if violations != [] {
      assert violations[0] in violations;
    }
    isSafe := |violations| == 0;
  }
}
