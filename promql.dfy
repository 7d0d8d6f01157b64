/**
  The PromQL expression `handle_alert` builds (gemini_alert.py:114-119): the
  metric summed per pod and namespace, divided by the memory limit summed the
  same way, times 100. Both sums are restricted by the same label filter,
  `{namespace='<ns>'}`, extended by `, pod='<pod>'` only when a pod is given.
  Values are spliced in without any escaping.
*/
module PromQL {
  import opened Common

  const NamespacePrefix: string := "{namespace='"
  const PodPrefix: string := ", pod='"
  const LimitMetric: string := "container_spec_memory_limit_bytes"
  const UsageHead: string := "(sum by (pod, namespace) ("
  const LimitLead: string := ")/ sum by (pod, namespace) ("
  const Tail: string := " > 0)) * 100"

  /** `pod_selector`: empty exactly when no pod is named. */
  function PodSelector(pod: string): (r: string)
    ensures r == [] <==> pod == []
    ensures pod != [] ==> |r| == |PodPrefix| + |pod| + 1 && r[|PodPrefix|..|r| - 1] == pod
    ensures pod != [] ==> r[..|PodPrefix|] == PodPrefix && r[|r| - 1] == '\''
  {
    if pod != [] then PodPrefix + pod + "'" else ""
  }

  /** The label filter `{namespace='<ns>'<pod selector>}` shared by both sums. */
  function LabelFilter(namespace: string, pod: string): (f: string)
    ensures var n := |NamespacePrefix| + |namespace|;
      && |f| == n + 1 + |PodSelector(pod)| + 1
      && f[..|NamespacePrefix|] == NamespacePrefix
      && f[|NamespacePrefix|..n] == namespace
      && f[n] == '\''
      && f[n + 1..|f| - 1] == PodSelector(pod)
      && f[|f| - 1] == '}'
  {
    NamespacePrefix + namespace + "'" + PodSelector(pod) + "}"
  }

  /** `metric_expr` for the alerted metric, namespace and pod. */
  function MetricExpr(metric: string, namespace: string, pod: string): (e: string)
    ensures |UsageHead| + |metric| <= |e| && e[..|UsageHead|] == UsageHead && e[|UsageHead|..|UsageHead| + |metric|] == metric
    ensures |Tail| <= |e| && e[|e| - |Tail|..] == Tail
  {
    var filter := LabelFilter(namespace, pod);
    FilterSlots(UsageHead, metric, filter, LimitLead, LimitMetric, Tail);
    UsageHead + metric + filter + (LimitLead + LimitMetric) + filter + Tail
  }

  /**
    The usage term and the limit term are filtered identically: the filter
    stands right after the metric name in the numerator and right after the
    limit metric in the denominator, and between the two stands the division
    `)/ sum by (pod, namespace) (` that opens the limit sum.
  */
  lemma SameFilterInBothTerms(metric: string, namespace: string, pod: string)
    ensures var e, f := MetricExpr(metric, namespace, pod), LabelFilter(namespace, pod);
      var usage := |UsageHead| + |metric|;
      var limit := usage + |f| + |LimitLead| + |LimitMetric|;
      && limit + |f| + |Tail| == |e|
      && e[usage - |metric|..usage] == metric
      && e[usage..usage + |f|] == f
      && e[usage + |f|..limit - |LimitMetric|] == LimitLead
      && e[limit - |LimitMetric|..limit] == LimitMetric
      && e[limit..limit + |f|] == f
  {
    FilterSlots(UsageHead, metric, LabelFilter(namespace, pod), LimitLead, LimitMetric, Tail);
  }

  /** Where the parts of `head + metric + f + (lead + limit) + f + tail` sit. */
  lemma FilterSlots(head: string, metric: string, f: string, lead: string, limit: string, tail: string)
    ensures var e := head + metric + f + (lead + limit) + f + tail;
      var u := |head| + |metric|;
      var l := u + |f| + |lead + limit|;
      && l + |f| + |tail| == |e|
      && e[..|head|] == head
      && e[u - |metric|..u] == metric
      && e[u..u + |f|] == f
      && e[u + |f|..l - |limit|] == lead
      && e[l - |limit|..l] == limit
      && e[l..l + |f|] == f
      && e[|e| - |tail|..] == tail
  {
    var p3 := head + metric + f + (lead + limit);
    var p4 := p3 + f;
    var e := p4 + tail;
    var u, l := |head| + |metric|, |p3|;
    UsageSlots(head, metric, f, lead, limit);
    // Every slice of the prefix `p3` reads the same in `e`.
    LiftSlice(p3, f, tail, 0, |head|);
    LiftSlice(p3, f, tail, |head|, u);
    LiftSlice(p3, f, tail, u, u + |f|);
    LiftSlice(p3, f, tail, u + |f|, l - |limit|);
    LiftSlice(p3, f, tail, l - |limit|, l);
    SliceInLeft(p4, tail, l, l + |f|);
    SliceInRight(p3, f, l, l + |f|);
    SliceInRight(p4, tail, |p4|, |e|);
  }

  /** A slice of `x` reads the same in `x + y + z`. */
  lemma LiftSlice(x: string, y: string, z: string, i: nat, j: nat)
    requires i <= j <= |x|
    ensures (x + y + z)[i..j] == x[i..j]
  {
    SliceInLeft(x + y, z, i, j);
    SliceInLeft(x, y, i, j);
  }

  /** Where the parts of `head + metric + f + (lead + limit)` sit. */
  lemma UsageSlots(head: string, metric: string, f: string, lead: string, limit: string)
    ensures var p := head + metric + f + (lead + limit);
      var u := |head| + |metric|;
      && |p| == u + |f| + |lead| + |limit|
      && p[..|head|] == head
      && p[|head|..u] == metric
      && p[u..u + |f|] == f
      && p[u + |f|..u + |f| + |lead|] == lead
      && p[u + |f| + |lead|..] == limit
  {
    var p1 := head + metric;
    var p2 := p1 + f;
    var p := p2 + (lead + limit);
    var u := |p1|;
    LiftSlice(head, metric, f, 0, |head|);
    SliceInLeft(p2, lead + limit, 0, |head|);
    SliceInLeft(p2, lead + limit, |head|, u);
    SliceInLeft(p1, f, |head|, u);
    SliceInRight(head, metric, |head|, u);
    SliceInLeft(p2, lead + limit, u, u + |f|);
    SliceInRight(p1, f, u, u + |f|);
    SliceInRight(p2, lead + limit, |p2|, |p2| + |lead|);
    SliceInLeft(lead, limit, 0, |lead|);
    SliceInRight(p2, lead + limit, |p2| + |lead|, |p|);
    SliceInRight(lead, limit, |lead|, |lead| + |limit|);
  }

  /** The longest prefix of `s` without a single quote. */
  function UpToQuote(s: string): (r: string)
    ensures |r| <= |s| && r == s[..|r|] && '\'' !in r
    ensures |r| < |s| ==> s[|r|] == '\''
  {
    if s == [] || s[0] == '\'' then [] else [s[0]] + UpToQuote(s[1..])
  }

  /** A quote-free text followed by a quote is recovered up to that quote. */
  lemma {:induction false} UpToQuoteStopsAtFirstQuote(s: string, rest: string)
    requires '\'' !in s
    ensures UpToQuote(s + "'" + rest) == s
  {
    if s != [] {
      assert (s + "'" + rest)[1..] == s[1..] + "'" + rest;
      UpToQuoteStopsAtFirstQuote(s[1..], rest);
    }
  }

  /** Reads namespace and pod back out of a label filter, if it has that shape. */
  function ParseLabelFilter(f: string): Option<(string, string)>
  {
    if |f| < |NamespacePrefix| + 2 || f[..|NamespacePrefix|] != NamespacePrefix || f[|f| - 1] != '}' then None
    else
      var body := f[|NamespacePrefix|..|f| - 1];
      var namespace := UpToQuote(body);
      if |namespace| == |body| then None
      else
        var selector := body[|namespace| + 1..];
        if selector == [] then Some((namespace, ""))
        else if |selector| > |PodPrefix| + 1 && selector[..|PodPrefix|] == PodPrefix && selector[|selector| - 1] == '\''
        then Some((namespace, selector[|PodPrefix|..|selector| - 1]))
        else None
  }

  /**
    The filter carries namespace and pod faithfully: for a namespace without a
    single quote, both are read back from the filter exactly (with the empty
    pod for "no pod selector").
  */
  lemma LabelFilterRoundTrip(namespace: string, pod: string)
    requires '\'' !in namespace
    ensures ParseLabelFilter(LabelFilter(namespace, pod)) == Some((namespace, pod))
  {
    var f := LabelFilter(namespace, pod);
    var sel := PodSelector(pod);
    assert f[..|NamespacePrefix|] == NamespacePrefix;
    var body := f[|NamespacePrefix|..|f| - 1];
    assert body == namespace + "'" + sel;
    UpToQuoteStopsAtFirstQuote(namespace, sel);
    assert body[|namespace| + 1..] == sel;
    if pod != [] {
      assert sel[..|PodPrefix|] == PodPrefix;
    }
  }

  /** The regrouping behind `QuoteInNamespaceForgesPodSelector`. */
  lemma Regroup(a: string, b: string, q: string, c: string, d: string, e: string)
    ensures a + (b + q + c + d) + q + [] + e == a + b + q + (c + d + q) + e
  {
  }

  /**
    Because nothing is escaped, a quote in the namespace can forge a pod
    selector: the namespace `<ns>', pod='<pod>` without a pod gives the same
    filter as namespace `<ns>` with pod `<pod>`, and reads back as the latter.
  */
  lemma QuoteInNamespaceForgesPodSelector(namespace: string, pod: string)
    requires pod != []
    ensures LabelFilter(namespace + "'" + PodPrefix + pod, "") == LabelFilter(namespace, pod)
    ensures '\'' !in namespace ==>
      ParseLabelFilter(LabelFilter(namespace + "'" + PodPrefix + pod, "")) == Some((namespace, pod))
  {
    var forged := namespace + "'" + PodPrefix + pod;
    assert LabelFilter(forged, "") == NamespacePrefix + forged + "'" + "" + "}";
    assert LabelFilter(namespace, pod) == NamespacePrefix + namespace + "'" + (PodPrefix + pod + "'") + "}";
    Regroup(NamespacePrefix, namespace, "'", PodPrefix, pod, "}");
    if '\'' !in namespace {
      LabelFilterRoundTrip(namespace, pod);
    }
  }
}
