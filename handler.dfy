/**
  The decision flow of `handle_alert` (gemini_alert.py:102-146): apply the
  payload's defaults, build the query, read the metric, generate the
  diagnostic and the remediation script, run both, read the metric again and
  judge the result.

  The outside world enters as parameters: `generate` stands for the language
  model (prompt to reply text), `beforeReply` and `afterReply` for the decoded
  answers of the two metric queries, `search` for the regular-expression
  engine and `parseFloat` for `float()` on strings. What would be run by the
  shell is returned as `executed`, in order; the queries sent as `queries`.
*/
module Handler {
  import opened Common
  import opened Guardrail
  import opened ScriptGen
  import opened PromQL
  import opened Prometheus
  import opened Evaluation

  /** The alert payload; a missing key is `None`. */
  datatype Alert = Alert(
    namespace: Option<string>,
    pod: Option<string>,
    metric: Option<string>,
    threshold: Option<real>,
    prometheusUrl: Option<string>)

  /** The settings of one cycle, after the defaults are applied. */
  datatype Settings = Settings(namespace: string, pod: string, metric: string, threshold: real, url: string)

  /** The JSON body of the reply; `None` is JSON `null`. */
  datatype Response = Response(metricBefore: Option<real>, metricAfter: Option<real>, success: bool, improved: bool)

  /** A completed cycle, or an exception escaping the handler (an HTTP 500). */
  datatype Outcome = Responded(response: Response) | Failed

  const DefaultNamespace: string := "default"
  const DefaultMetric: string := "container_memory_usage_bytes"
  const DefaultThreshold: real := 90.0
  const DefaultUrl: string := "http://c0a22169-monitoring:30900/api/v1/query"

  /** `alert.get(key, default)` for every key the handler reads. */
  function ApplyDefaults(alert: Alert): Settings
  {
    Settings(
      GetOr(alert.namespace, DefaultNamespace),
      GetOr(alert.pod, ""),
      GetOr(alert.metric, DefaultMetric),
      GetOr(alert.threshold, DefaultThreshold),
      GetOr(alert.prometheusUrl, DefaultUrl))
  }

  function GetOr<T>(o: Option<T>, default: T): T
  {
    if o.Some? then o.value else default
  }

  /** The payload that names every key explicitly. */
  function Explicit(s: Settings): Alert
  {
    Alert(Some(s.namespace), Some(s.pod), Some(s.metric), Some(s.threshold), Some(s.url))
  }

  /** A payload that names every key is taken as it is: no default overrides a given value. */
  lemma ExplicitSettingsKept(s: Settings)
    ensures ApplyDefaults(Explicit(s)) == s
  {
  }

  /** An empty payload runs the cycle on the default namespace, metric, threshold and endpoint, with no pod. */
  lemma EmptyAlertTakesDefaults()
    ensures ApplyDefaults(Alert(None, None, None, None, None)) == Settings(DefaultNamespace, "", DefaultMetric, DefaultThreshold, DefaultUrl)
  {
  }

  /**
    Each key is read on its own: giving one key leaves the other settings as
    they were, and the given value is the one used.
  */
  lemma KeysAreIndependent(alert: Alert, namespace: string, pod: string)
    ensures ApplyDefaults(alert.(namespace := Some(namespace))) == ApplyDefaults(alert).(namespace := namespace)
    ensures ApplyDefaults(alert.(pod := Some(pod))) == ApplyDefaults(alert).(pod := pod)
  {
  }

  /** The text between the namespace and the metric name in both prompts. */
  const PromptSubject: string := " namespace の Pod の "

  /** What the diagnostic prompt asks for after the metric name. */
  const ConfirmRequest: string := " の状況を確認する bash スクリプトを生成してください。"

  /** What the remediation prompt asks for, ending with the ban on restarts and deletions. */
  const FixRequest: string := " を安全に低下させる bash スクリプトを生成してください。"
  const NoRestartClause: string := "ただし再起動や削除は行わないでください。"

  /** The prompt asking for the diagnostic script. */
  function ConfirmPrompt(namespace: string, metric: string): string
  {
    namespace + PromptSubject + metric + ConfirmRequest
  }

  /** The prompt asking for the remediation script. */
  function FixPrompt(namespace: string, metric: string): string
  {
    namespace + PromptSubject + metric + FixRequest + NoRestartClause
  }

  /** The diagnostic prompt is the namespace, the subject, the metric and the request, in that order. */
  lemma ConfirmPromptShape(namespace: string, metric: string)
    ensures var r, m := ConfirmPrompt(namespace, metric), |namespace| + |PromptSubject|;
      && |r| == m + |metric| + |ConfirmRequest|
      && r[..|namespace|] == namespace
      && r[|namespace|..m] == PromptSubject
      && r[m..m + |metric|] == metric
      && r[m + |metric|..] == ConfirmRequest
  {
  }

  /**
    The remediation prompt is the namespace, the subject, the metric and the
    request, and it always ends by forbidding restarts and deletions.
  */
  lemma FixPromptShape(namespace: string, metric: string)
    ensures var r, m := FixPrompt(namespace, metric), |namespace| + |PromptSubject|;
      && |r| == m + |metric| + |FixRequest| + |NoRestartClause|
      && r[..|namespace|] == namespace
      && r[|namespace|..m] == PromptSubject
      && r[m..m + |metric|] == metric
      && r[m + |metric|..|r| - |NoRestartClause|] == FixRequest
      && r[|r| - |NoRestartClause|..] == NoRestartClause
  {
  }

  /** The two prompts always differ, so the model is asked two different questions. */
  lemma PromptsDiffer(namespace: string, metric: string)
    ensures ConfirmPrompt(namespace, metric) != FixPrompt(namespace, metric)
  {
    ConfirmPromptShape(namespace, metric);
    FixPromptShape(namespace, metric);
    var m := |namespace| + |PromptSubject| + |metric|;
    assert ConfirmPrompt(namespace, metric)[m + 1] == ConfirmRequest[1] != FixRequest[1] == FixPrompt(namespace, metric)[m + 1];
  }

  /** The returned value of a probe that did not raise. */
  function ValueOf(r: Reading): Option<real>
  {
    if r.Present? then Some(r.value) else None
  }

  /**
    `handle_alert` as written. Both generated scripts are run whatever the
    guardrail said: a flagged remediation script is run with the BLOCKED
    comment in front of it. Both probes send the same query to the same
    endpoint, and an exception from a probe ends the cycle without a verdict.
  */
  method HandleAlert(
    alert: Alert, search: Search, parseFloat: ParseFloat, generate: string -> string,
    beforeReply: Json, afterReply: Json)
    returns (outcome: Outcome, queries: seq<(string, string)>, executed: seq<string>)
    ensures var s := ApplyDefaults(alert); var query := (s.url, MetricExpr(s.metric, s.namespace, s.pod));
      queries == if GetPrometheusMetric(beforeReply, parseFloat).Raised? then [query] else [query, query]
    ensures GetPrometheusMetric(beforeReply, parseFloat).Raised? ==> outcome == Failed && executed == []
    ensures var s := ApplyDefaults(alert);
      !GetPrometheusMetric(beforeReply, parseFloat).Raised? ==>
        executed == [
             PersistedScript(search, generate(ConfirmPrompt(s.namespace, s.metric))),
             PersistedScript(search, generate(FixPrompt(s.namespace, s.metric)))]
    ensures var s := ApplyDefaults(alert); var fix := Strip(generate(FixPrompt(s.namespace, s.metric)));
      !GetPrometheusMetric(beforeReply, parseFloat).Raised? && Violations(search, ForbiddenPatterns, fix) != [] ==>
        executed[1] == BlockedBanner + fix
    ensures outcome.Responded? <==>
      !GetPrometheusMetric(beforeReply, parseFloat).Raised? && !GetPrometheusMetric(afterReply, parseFloat).Raised?
    ensures outcome.Responded? ==>
      var before, after := ValueOf(GetPrometheusMetric(beforeReply, parseFloat)), ValueOf(GetPrometheusMetric(afterReply, parseFloat));
      var verdict := Evaluate(before, after, ApplyDefaults(alert).threshold);
      outcome.response == Response(before, after, verdict.success, verdict.improved)
  {
    var s := ApplyDefaults(alert);
    var query := (s.url, MetricExpr(s.metric, s.namespace, s.pod));
    var before := GetPrometheusMetric(beforeReply, parseFloat);
    if before.Raised? {
      return Failed, [query], [];
    }
    // The guardrail verdicts are not consulted: both scripts go to the shell.
    executed := GenerateUngated(search, generate(ConfirmPrompt(s.namespace, s.metric)), generate(FixPrompt(s.namespace, s.metric)));
    queries := [query, query];
    var after := GetPrometheusMetric(afterReply, parseFloat);
    if after.Raised? {
      return Failed, queries, executed;
    }
    var verdict := Evaluate(ValueOf(before), ValueOf(after), s.threshold);
    outcome := Responded(Response(ValueOf(before), ValueOf(after), verdict.success, verdict.improved));
  }

  /**
    Generation followed by execution as written: both replies are turned into
    scripts as `generate_script` does, and both go to the shell in order. The
    guardrail verdicts are not consulted.
  */
  method GenerateUngated(search: Search, confirmReply: string, fixReply: string) returns (executed: seq<string>)
    ensures executed == [PersistedScript(search, confirmReply), PersistedScript(search, fixReply)]
  {
    var confirm, confirmSafe := GenerateScript(search, confirmReply);
    var fix, fixSafe := GenerateScript(search, fixReply);
    executed := [confirm, fix];
  }

  /** The guardrail finds nothing in `script`. */
  predicate Clean(search: Search, script: string)
  {
    Violations(search, ForbiddenPatterns, script) == []
  }

  /** What the gate lets through of one model reply: its script if the guardrail passes it. */
  function Passed(search: Search, reply: string): (r: seq<string>)
    ensures r == [] || r == [Strip(reply)]
    ensures r == [] <==> !Clean(search, Strip(reply))
  {
    if Clean(search, Strip(reply)) then [Strip(reply)] else []
  }

  /** Nothing the gate lets through of two replies matches a forbidden pattern. */
  lemma PassedScriptsAreClean(search: Search, confirmReply: string, fixReply: string)
    ensures forall script :: script in Passed(search, confirmReply) + Passed(search, fixReply) ==> Clean(search, script)
  {
    var first, second := Passed(search, confirmReply), Passed(search, fixReply);
    forall script | script in first + second
      ensures Clean(search, script)
    {
      if script in first {
        assert first == [Strip(confirmReply)];
      } else {
        assert second == [Strip(fixReply)];
      }
    }
  }

  /**
    Generation followed by the gate of the intended cycle: both replies are
    turned into scripts as `generate_script` does, and only a script the
    guardrail passed goes on to the shell.
  */
  method GenerateGated(search: Search, confirmReply: string, fixReply: string) returns (executed: seq<string>)
    ensures executed == Passed(search, confirmReply) + Passed(search, fixReply)
    ensures forall script :: script in executed ==> Clean(search, script)
  {
    var confirm, confirmSafe := GenerateScript(search, confirmReply);
    var fix, fixSafe := GenerateScript(search, fixReply);
    var first: seq<string> := if confirmSafe then [confirm] else [];
    var second: seq<string> := if fixSafe then [fix] else [];
    assert first == Passed(search, confirmReply);
    assert second == Passed(search, fixReply);
    executed := first + second;
    PassedScriptsAreClean(search, confirmReply, fixReply);
  }

  /**
    The intended cycle: a probe never raises, improvement is judged on
    presence rather than truthiness, and only scripts the guardrail passed
    reach the shell, so nothing that is run matches a forbidden pattern.
  */
  method HandleAlertGated(
    alert: Alert, search: Search, parseFloat: ParseFloat, generate: string -> string,
    beforeReply: Json, afterReply: Json)
    returns (response: Response, queries: seq<(string, string)>, executed: seq<string>)
    ensures var s := ApplyDefaults(alert); var query := (s.url, MetricExpr(s.metric, s.namespace, s.pod));
      queries == [query, query]
    ensures var s := ApplyDefaults(alert);
      executed == Passed(search, generate(ConfirmPrompt(s.namespace, s.metric))) + Passed(search, generate(FixPrompt(s.namespace, s.metric)))
    ensures forall script :: script in executed ==> Clean(search, script)
    ensures var before, after := GetPrometheusMetricOrNone(beforeReply, parseFloat), GetPrometheusMetricOrNone(afterReply, parseFloat);
      var verdict := EvaluateIntended(before, after, ApplyDefaults(alert).threshold);
      response == Response(before, after, verdict.success, verdict.improved)
  {
    var s := ApplyDefaults(alert);
    var query := (s.url, MetricExpr(s.metric, s.namespace, s.pod));
    var before := GetPrometheusMetricOrNone(beforeReply, parseFloat);
    executed := GenerateGated(search, generate(ConfirmPrompt(s.namespace, s.metric)), generate(FixPrompt(s.namespace, s.metric)));
    queries := [query, query];
    var after := GetPrometheusMetricOrNone(afterReply, parseFloat);
    var verdict := EvaluateIntended(before, after, s.threshold);
    response := Response(before, after, verdict.success, verdict.improved);
  }
}
