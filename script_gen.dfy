/**
  The decision part of `generate_script` (gemini_alert.py:54-72): the model's
  reply is stripped of surrounding whitespace, validated, and, when it is
  flagged, a fixed `# BLOCKED: …` comment line is put in front of it. The
  flagged text itself is kept, and the annotated text is what gets written
  out and later run.
*/
module ScriptGen {
  import opened Guardrail

  /** Python's `str.isspace()` for one character (no argument to `strip`). */
  predicate IsSpace(c: char)
  {
    || ('\U{9}' <= c <= '\U{D}') || ('\U{1C}' <= c <= '\U{20}')
    || c == '\U{85}' || c == '\U{A0}' || c == '\U{1680}'
    || ('\U{2000}' <= c <= '\U{200A}') || c == '\U{2028}' || c == '\U{2029}'
    || c == '\U{202F}' || c == '\U{205F}' || c == '\U{3000}'
  }

  /** `s` with its leading whitespace removed. */
  function StripLeading(s: string): (r: string)
    ensures |r| <= |s| && r == s[|s| - |r|..]
    ensures forall i :: 0 <= i < |s| - |r| ==> IsSpace(s[i])
    ensures r == [] || !IsSpace(r[0])
  {
    if s != [] && IsSpace(s[0]) then StripLeading(s[1..]) else s
  }

  /** `s` with its trailing whitespace removed. */
  function StripTrailing(s: string): (r: string)
    ensures |r| <= |s| && r == s[..|r|]
    ensures forall i :: |r| <= i < |s| ==> IsSpace(s[i])
    ensures r == [] || !IsSpace(r[|r| - 1])
  {
    if s != [] && IsSpace(s[|s| - 1]) then StripTrailing(s[..|s| - 1]) else s
  }

  /**
    Python's `str.strip()`: the longest infix of `s` that neither starts nor
    ends with whitespace, everything cut off on either side being whitespace.
  */
  function Strip(s: string): (r: string)
    ensures var lead := |s| - |StripLeading(s)|;
      && lead + |r| <= |s|
      && r == s[lead..lead + |r|]
      && (forall i :: 0 <= i < lead ==> IsSpace(s[i]))
      && (forall i :: lead + |r| <= i < |s| ==> IsSpace(s[i]))
    ensures r == [] || (!IsSpace(r[0]) && !IsSpace(r[|r| - 1]))
  {
    StripTrailing(StripLeading(s))
  }

  /** Stripping a stripped text changes nothing. */
  lemma StripIdempotent(s: string)
    ensures Strip(Strip(s)) == Strip(s)
  {
    var r := Strip(s);
    assert StripLeading(r) == r;
    assert StripTrailing(r) == r;
  }

  /** The comment line put in front of a flagged script (without its newline). */
  const BlockedComment: string := "# BLOCKED: 危険コマンドが含まれていたため実行を停止しました。"

  /** The full annotation, a single line ending in a newline. */
  const BlockedBanner: string := BlockedComment + "\n"

  /**
    The text that `generate_script` persists for a model reply: the stripped
    reply, preceded by the BLOCKED line when the guardrail flags it. The
    stripped reply survives verbatim as a suffix in both cases.
  */
  function PersistedScript(search: Search, reply: string): (r: string)
    ensures var body := Strip(reply);
      && |body| <= |r| && r[|r| - |body|..] == body
      && (r == body <==> Violations(search, ForbiddenPatterns, body) == [])
      && (r != body ==> r == BlockedBanner + body)
  {
    var body := Strip(reply);
    if Violations(search, ForbiddenPatterns, body) == [] then body else BlockedBanner + body
  }

  /**
    `generate_script` without its model call and file write: `reply` is the
    model's response text and `script` the content written to disk, reassigned
    in place when the guardrail flags it. The source returns only the file's
    path; the guardrail verdict is passed out as well so that a caller can be
    seen to use it or not.
  */
  method GenerateScript(search: Search, reply: string) returns (script: string, isSafe: bool)
    ensures script == PersistedScript(search, reply)
    ensures isSafe <==> Violations(search, ForbiddenPatterns, Strip(reply)) == []
    ensures isSafe <==> script == Strip(reply)
  {
    script := Strip(reply);
    var violations;
    isSafe, violations := ValidateScript(search, script);
    if !isSafe {
      script := BlockedBanner + script;
    }
  }

  /** What a shell runs after the first line: the text after the first newline. */
  function AfterFirstLine(s: string): string
  {
    if s == [] then []
    else if s[0] == '\n' then s[1..]
    else AfterFirstLine(s[1..])
  }

  /** Skipping a newline-free first line leaves exactly what follows it. */
  lemma {:induction false} AfterFirstLineSkips(line: string, rest: string)
    requires '\n' !in line
    ensures AfterFirstLine(line + "\n" + rest) == rest
  {
    if line != [] {
      assert (line + "\n" + rest)[1..] == line[1..] + "\n" + rest;
      AfterFirstLineSkips(line[1..], rest);
    }
  }

  /**
    A flagged script is the original commands behind a single comment line:
    its first line starts with `#`, and everything after that line is the
    stripped reply, unchanged. A shell running it runs the flagged commands.
  */
  lemma FlaggedScriptKeepsCommands(search: Search, reply: string)
    requires Violations(search, ForbiddenPatterns, Strip(reply)) != []
    ensures PersistedScript(search, reply)[0] == '#'
    ensures AfterFirstLine(PersistedScript(search, reply)) == Strip(reply)
  {
    var body := Strip(reply);
    assert PersistedScript(search, reply) == BlockedComment + "\n" + body;
    BlockedCommentIsOneLine();
    AfterFirstLineSkips(BlockedComment, body);
  }

  /** The BLOCKED annotation is a single bash comment line. */
  lemma BlockedCommentIsOneLine()
    ensures |BlockedComment| > 0 && BlockedComment[0] == '#'
    ensures '\n' !in BlockedComment
  {
  }
}
