# Alert_AutoFix remediation loop — a Dafny model

This project models the decision logic of `gemini_alert.py`, a Flask service
that reacts to a monitoring alert. The service runs this sequence:

1. It applies defaults to the alert payload.
2. It builds a PromQL expression for the alerted memory metric and reads its
   current value from Prometheus.
3. It asks a language model for two bash scripts: a diagnostic one and a
   remediation one.
4. It screens each script with a regular-expression blocklist. A flagged
   script gets a `# BLOCKED: …` comment line in front of it.
5. It runs both scripts.
6. It reads the metric again and reports `success` (after-value below the
   threshold) and `improved` (after-value below the before-value).

Modules, one per component:

- `Guardrail` (`guardrail.dfy`): `validate_script`. The collection loop is a
  method. It is proved against the function `Violations`, and lemmas prove
  the order, completeness and uniqueness of what it collects.
- `ScriptGen` (`script_gen.dfy`): the strip, validate and annotate steps of
  `generate_script`, including Python's `str.strip()`.
- `PromQL` (`promql.dfy`): the query string. A small parser for the label
  filter gives a round-trip property.
- `Prometheus` (`prometheus.dfy`): the branching of `get_prometheus_metric`
  over a decoded JSON reply, with the exceptions that escape it.
- `Evaluation` (`evaluation.dfy`): the `success` / `improved` verdict,
  including Python truthiness.
- `Handler` (`handler.dfy`): `handle_alert` as written, plus a corrected,
  gated cycle (see Findings).
- `Common` (`common.dfy`): `Option`, a no-duplicates predicate, and the
  lemmas `SliceInLeft` / `SliceInRight` about slices of a concatenation, which
  the query layout proofs use.

The outside world enters as parameters:

- `search(pattern, text)` stands for `re.search`. The regex engine is not
  modelled, so every result holds for any matcher.
- `parseFloat` stands for `float()` on a string.
- `generate` stands for the language model: prompt in, reply text out.
- `beforeReply` and `afterReply` are the decoded JSON replies of the two
  metric queries.

What the shell would run is returned as a sequence of script texts.

`Handler.ApplyDefaults` is the plain definition of the `alert.get(key,
default)` calls at gemini_alert.py:108-112. `Handler.HandleAlert`'s contract is
stated over it, and three lemmas state what it does.

Behaviour of the code worth knowing, which the model keeps:

- Execution is never gated on the guardrail verdict: both scripts are run.
  `Handler.HandleAlert` states this.
- `improved` is false both when a reading is missing and when it did not
  fall, and the response does not tell the two apart.
- The code lets some malformed metric replies raise an exception.
- Two alerts for the same pod are handled side by side, and a script runs
  for as long as it takes.

The model follows the code. A gated cycle is modelled separately, in
`Handler.HandleAlertGated`.

## Model

| member | source | states |
|---|---|---|
| `Guardrail.Violations` | gemini_alert.py:48-51 | the collected violations are never more than the patterns scanned |
| `Guardrail.ViolationsAreTheMatches` | gemini_alert.py:48-51 | a pattern is a violation iff it is in the list and it matches the text, so the scan does not stop at the first match |
| `Guardrail.ViolationsAtMatchIndices` | gemini_alert.py:48-51 | the k-th violation is the pattern at the k-th matching index |
| `Guardrail.MatchIndicesAreTheMatches` | gemini_alert.py:48-51 | an index is among the matching indices iff its pattern matches |
| `Guardrail.ViolationsFollowListOrder` | gemini_alert.py:37-51 | the violations are exactly the matching patterns, taken at strictly increasing list positions, so they appear in blocklist order |
| `Guardrail.ViolationsNoDuplicates` | gemini_alert.py:48-51 | a blocklist without repeats yields violations without repeats |
| `Guardrail.ForbiddenPatternsDistinct` | gemini_alert.py:37-47 | the blocklist holds nine pairwise-different patterns |
| `Guardrail.ValidateScript` | gemini_alert.py:35-52 | the loop returns exactly `Violations` of the nine patterns, so its result depends on the text alone; `is_safe` holds iff the list is empty iff no pattern matches; at most 9 entries, no repeats |
| `ScriptGen.StripLeading` | gemini_alert.py:58 | the result is a suffix, everything removed is whitespace, and it does not start with whitespace |
| `ScriptGen.StripTrailing` | gemini_alert.py:58 | the result is a prefix, everything removed is whitespace, and it does not end with whitespace |
| `ScriptGen.Strip` | gemini_alert.py:58 | `str.strip()`: an infix of the reply, only whitespace cut on either side, neither starting nor ending with whitespace |
| `ScriptGen.StripIdempotent` | gemini_alert.py:58 | stripping twice is stripping once |
| `ScriptGen.PersistedScript` | gemini_alert.py:58-70 | the persisted text ends with the stripped reply; it equals the stripped reply iff nothing matched; otherwise it is the BLOCKED line plus `\n` plus the stripped reply |
| `ScriptGen.GenerateScript` | gemini_alert.py:54-72 | the in-place update leaves exactly `PersistedScript`; the verdict is safe iff no pattern matched the stripped reply iff the text was left unannotated |
| `ScriptGen.AfterFirstLineSkips` | gemini_alert.py:67 | after a first line without a newline, the rest of the text is untouched |
| `ScriptGen.BlockedCommentIsOneLine` | gemini_alert.py:67 | the BLOCKED annotation starts with `#` and holds no newline, so it is one bash comment line |
| `ScriptGen.FlaggedScriptKeepsCommands` | gemini_alert.py:63-67 | a flagged script starts with `#`, and everything after its first line is the original stripped reply, so a shell still runs the flagged commands |
| `PromQL.PodSelector` | gemini_alert.py:115 | the selector is empty iff the pod is empty; otherwise it starts with `, pod='`, ends with a quote, is eight characters longer than the pod and holds the pod between the two |
| `PromQL.LabelFilter` | gemini_alert.py:115-118 | the filter is `{namespace='`, the namespace, a quote, the pod selector and `}`, at the positions its contract gives; `PromQL.LabelFilterRoundTrip` shows both values can be read back |
| `PromQL.MetricExpr` | gemini_alert.py:116-119 | the expression opens with `(sum by (pod, namespace) (` followed by the metric name and ends with ` > 0)) * 100`; `PromQL.SameFilterInBothTerms` places the shared filter in both sums |
| `PromQL.SameFilterInBothTerms` | gemini_alert.py:116-119 | the same `{namespace=…}` filter appears right after the metric name in the usage sum and right after `container_spec_memory_limit_bytes` in the limit sum; between the first filter and the limit metric stands `)/ sum by (pod, namespace) (`, so the usage sum is divided by the limit sum |
| `PromQL.FilterSlots` | gemini_alert.py:116-119 | where the head, the metric, the first filter, the division lead, the limit metric, the second filter and the tail sit in the assembled expression, covering it end to end |
| `PromQL.UpToQuote` | gemini_alert.py:117 | returns the longest quote-free prefix, which is followed by a quote if it is not the whole text |
| `PromQL.UpToQuoteStopsAtFirstQuote` | gemini_alert.py:117 | a quote-free text followed by a quote is recovered exactly |
| `PromQL.LabelFilterRoundTrip` | gemini_alert.py:115-118 | for a namespace without a quote, the filter parses back to exactly (namespace, pod), with the empty pod for "no selector" |
| `PromQL.QuoteInNamespaceForgesPodSelector` | gemini_alert.py:115-118 | values are not escaped: namespace `<ns>', pod='<pod>` with no pod gives the same filter as namespace `<ns>` with pod `<pod>`, and reads back as the latter |
| `Prometheus.FirstSampleValue` | gemini_alert.py:93-96 | the guarded `float(result[0]["value"][1])`: a value only when the result is a non-empty array whose first entry has a `value` with an item at index 1; every failing lookup gives `None` |
| `Prometheus.GetPrometheusMetric` | gemini_alert.py:92-97 | raises iff the reply is not an object, or it says success but lacks `data.result`; `None` when the status is not `"success"` or the result is empty; a value only for a success reply with a truthy result; with `data.result` present, a value iff the result is truthy and `result[0]["value"][1]` converts; the value returned is that converted first sample |
| `Prometheus.VectorReplyReadsFirstSample` | gemini_alert.py:92-96 | on a well-formed instant-vector reply, the first sample's parsed value is returned; an empty vector or unparsable text gives `None` |
| `Prometheus.ErrorReplyIsAbsent` | gemini_alert.py:92-97 | an error reply (`status` = `"error"`) gives `None` |
| `Prometheus.SuccessWithoutDataRaises` | gemini_alert.py:92 | `{"status": "success"}` makes the function raise instead of returning `None` |
| `Prometheus.GetPrometheusMetricOrNone` | gemini_alert.py:92-97 | corrected reading: the same value wherever the original returns a value, and `None` everywhere else, including where the original raises |
| `Evaluation.Evaluate` | gemini_alert.py:136-137 | `success` iff after is present and below the threshold; `improved` iff both values are present and non-zero and after < before, so it is false if either is missing or exactly 0.0 |
| `Evaluation.EvaluateIntended` | gemini_alert.py:136-137 | corrected verdict: `improved` iff both present and after < before; same `success` as the original; differs from the original iff a 0.0 reading takes part in a real decrease |
| `Evaluation.DropBelowThreshold` | gemini_alert.py:136-137 | before 95, after 70, threshold 80 gives success and improved |
| `Evaluation.MissingBeforeIsNotImproved` | gemini_alert.py:136-137 | a missing before-value with after 70 < 80 gives success but not improved |
| `Evaluation.DropToZeroIsNotImproved` | gemini_alert.py:137 | before 95, after 0.0 gives success but not improved as written, and improved in the corrected verdict |
| `Handler.ExplicitSettingsKept` | gemini_alert.py:108-112 | a payload that names every key is taken as it is: applying the defaults to it gives back exactly its values |
| `Handler.EmptyAlertTakesDefaults` | gemini_alert.py:108-112 | an empty payload gives namespace `"default"`, no pod, `container_memory_usage_bytes`, threshold 90.0 and the cluster-local query URL |
| `Handler.KeysAreIndependent` | gemini_alert.py:108-112 | giving the namespace or the pod changes that setting to the given value and leaves every other setting as it was |
| `Handler.ConfirmPromptShape` | gemini_alert.py:126 | `Handler.ConfirmPrompt` is the namespace, ` namespace の Pod の `, the metric name and the request for a diagnostic script, at the positions the lemma gives |
| `Handler.FixPromptShape` | gemini_alert.py:127 | `Handler.FixPrompt` is the namespace, the same subject, the metric name and the request for a remediation script, and always ends by forbidding restarts and deletions |
| `Handler.PromptsDiffer` | gemini_alert.py:126-127 | for every namespace and metric the two prompts are different texts |
| `Handler.HandleAlert` | gemini_alert.py:108-137 | both probes send the same (URL, query) pair; a raising first probe ends the cycle before anything runs; otherwise both persisted scripts are run in order, whatever the guardrail said, and a flagged remediation script is run as BLOCKED line plus original; the response carries both readings and `Evaluate`'s verdict iff neither probe raised |
| `Handler.GenerateUngated` | gemini_alert.py:129-133 | as written: both persisted scripts, flagged or not, go to the shell in order |
| `Handler.Passed` | gemini_alert.py:63-67 | of one reply, the gate keeps either nothing or exactly its stripped script, and keeps nothing iff a pattern matched it |
| `Handler.PassedScriptsAreClean` | gemini_alert.py:63-67 | whatever the gate lets through of the two replies has no violations |
| `Handler.GenerateGated` | gemini_alert.py:129-133 | corrected hand-off: generation followed by the gate yields exactly the passed scripts, in order, and none of them matches a forbidden pattern |
| `Handler.HandleAlertGated` | gemini_alert.py:121-137 | corrected cycle: the same query is sent twice; no script that is run matches any forbidden pattern; the response uses the non-raising reading and the corrected verdict |

## Findings

| source | as written | input that shows it | evidently intended | confidence | as-written member | corrected member |
|---|---|---|---|---|---|---|
| gemini_alert.py:137 | `improved` tests `metric_before and metric_after` for truthiness, so a reading of 0.0 counts as missing | before 95.0, after 0.0, threshold 90.0: `success` is true but `improved` is false | presence tested with `is not None`, as `success` does on line 136 | medium, not executed | `Evaluation.DropToZeroIsNotImproved` | `Evaluation.EvaluateIntended` |
| gemini_alert.py:92 | `data["data"]["result"]` is evaluated outside the `try`, so a missing key raises out of the handler | the reply `{"status": "success"}` raises `KeyError`, and the alert gets an HTTP 500 with no verdict | every malformed reply reads as `None`, the absent value the rest of the handler already copes with | medium, not executed | `Prometheus.SuccessWithoutDataRaises` | `Prometheus.GetPrometheusMetricOrNone` |
| gemini_alert.py:67 | the BLOCKED line says execution was stopped, but it is a bash comment and lines 132-133 run the file anyway | any model reply the guardrail flags, e.g. one containing `rm -rf /var/lib/app` | a flagged script is not run | high, not executed | `Handler.HandleAlert` | `Handler.HandleAlertGated` |

## Left out

- The Flask route, `request.json`, `jsonify` and the HTTP status. A cycle that raises is modelled as `Failed`, standing for an HTTP 500.
- Payload values of other JSON types. The alert is modelled with string fields and a real threshold. A threshold sent as a string, which `float()` would parse, is not modelled. Non-string values formatted into f-strings are not modelled either.
- `requests.get` and `response.json()`. Transport errors and non-JSON bodies raise in the source and are not modelled. The decoded reply is a parameter.
- The language-model call and `genai.configure`. The reply is a parameter. Errors from the call are not modelled.
- `save_json`, directory creation, timestamped file names and all file writes. `GenerateScript` returns the text it would write, not the path. For a cycle running alone, the text run is the text written. Concurrent cycles (the development server serves requests on threads) share the two fixed file names `confirm.sh` and `fix_issue.sh` and may run each other's scripts; that is not modelled.
- `subprocess.run`: running a script is modelled only as handing its text to the shell, in order. Output, error output and exit status are not modelled.
- Console output (`print`).
- The startup check of the API key.
- Concurrent handling of several alerts, and how long a script runs.
- Guardrail.ValidateScript: regular-expression semantics are abstracted into the `search` parameter. So the model cannot show that a particular script (e.g. one containing `rm -rf /`) is flagged, only what happens once the matcher has answered.
- Prometheus.GetPrometheusMetric: `float()` on text is the `parseFloat` parameter. JSON numbers are exact reals. NaN, infinities and binary floating-point rounding are not modelled.
- Evaluation.Evaluate: comparisons are on exact reals, so NaN readings are not modelled.
