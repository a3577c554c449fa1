/** The rule-based hypothesis of the analyzer (agents/analyzer.py), the path
    taken when no language model is configured. The similarity search is a
    parameter: `similar` is the page text of the records it returned, best first. */
module Analysis {
  import opened Basics
  import opened Events

  /** A cpu reading at or above this value is treated as a runaway process. */
  const CriticalCpu := 95

  const NoHypothesis := "No clear hypothesis; request human triage."
  const SimilarMarker := " Similar past: "

  /** Python's `v >= bound` for a payload value: numbers and booleans compare
      (a boolean as 0 or 1); strings, lists, dicts and None raise a TypeError,
      which is `None` here. */
  function AtLeast(v: PayloadValue, bound: int): (r: Option<bool>)
    ensures r.None? <==> v.Text? || v.Structured?
    ensures v.Num? ==> r == Some(v.n >= bound)
    ensures v.Flag? ==> r == Some((if v.b then 1 else 0) >= bound)
  {
    match v
    case Num(n) => Some(n >= bound)
    case Flag(b) => Some((if b then 1 else 0) >= bound)
    case Text(_) => None
    case Structured(_) => None
  }

  /** The advice of the two rules that suggest a restart, written around the
      word the fixer looks for. */
  const CriticalCpuAdvice := ". Likely runaway process. Kill top CPU proc and " + "restart" + " service."
  const ServiceDownAdvice := " is down, likely bad deploy. Attempt " + "restart" + ", check health, consider rollback."

  function CriticalCpuText(val: PayloadValue, host: PayloadValue): string
  {
    "CPU " + Str(val) + "% on " + Str(host) + CriticalCpuAdvice
  }

  function CpuSpikeText(host: PayloadValue): string
  {
    "CPU spike on " + Str(host) + ". Consider throttling heavy jobs or scaling."
  }

  function ServiceDownText(svc: PayloadValue): string
  {
    Str(svc) + ServiceDownAdvice
  }

  function LatencyText(svc: PayloadValue): string
  {
    Str(svc) + " latency high, possible DB lock or upstream slowdown. Inspect slow queries and dependencies."
  }

  function DiskFullText(host: PayloadValue): string
  {
    "Disk nearly full on " + Str(host) + ". Rotate logs, clear temp, or expand volume."
  }

  /** The cpu reading of an event, 0 when absent. */
  function CpuValue(e: Event): PayloadValue
  {
    Get(e.payload, "value", Num(0))
  }

  /** The if/elif chain of typed heuristics. `None` is the TypeError raised
      when the cpu reading cannot be compared with the threshold. */
  function Rule(e: Event): (r: Option<string>)
    ensures r.None? <==> IsCpuAnomaly(e) && AtLeast(CpuValue(e), CriticalCpu).None?
    ensures IsCpuAnomaly(e) && AtLeast(CpuValue(e), CriticalCpu) == Some(true) ==>
              r == Some(CriticalCpuText(CpuValue(e), Get(e.payload, "host", Text("host"))))
    ensures IsCpuAnomaly(e) && AtLeast(CpuValue(e), CriticalCpu) == Some(false) ==>
              r == Some(CpuSpikeText(Get(e.payload, "host", Text("host"))))
    ensures e.evtType == ServiceDown ==> r == Some(ServiceDownText(Get(e.payload, "service", Text("app"))))
    ensures e.evtType == ApiLatencyHigh ==> r == Some(LatencyText(Get(e.payload, "service", Text("api"))))
    ensures e.evtType == DiskFull ==> r == Some(DiskFullText(Get(e.payload, "host", Text("host"))))
    ensures e.evtType == CustomAlert || (e.evtType == MetricAnomaly && !IsCpuAnomaly(e)) ==>
              r == Some(NoHypothesis)
  {
    if IsCpuAnomaly(e) then
      var val := CpuValue(e);
      var host := Get(e.payload, "host", Text("host"));
      match AtLeast(val, CriticalCpu)
      case None => None
      case Some(critical) => Some(if critical then CriticalCpuText(val, host) else CpuSpikeText(host))
    else if e.evtType == ServiceDown then
      Some(ServiceDownText(Get(e.payload, "service", Text("app"))))
    else if e.evtType == ApiLatencyHigh then
      Some(LatencyText(Get(e.payload, "service", Text("api"))))
    else if e.evtType == DiskFull then
      Some(DiskFullText(Get(e.payload, "host", Text("host"))))
    else
      Some(NoHypothesis)
  }

  /** The analyzer's answer without a language model: the rule text, followed
      by the best similar record when the search found any. */
  function Analyze(e: Event, similar: seq<string>): (r: Option<string>)
    ensures r.None? <==> Rule(e).None?
    ensures r.Some? ==> |Rule(e).value| <= |r.value| && r.value[..|Rule(e).value|] == Rule(e).value
    ensures r.Some? && similar == [] ==> r.value == Rule(e).value
    ensures r.Some? && similar != [] ==>
              r.value[|Rule(e).value|..] == SimilarMarker + similar[0]
  {
    match Rule(e)
    case None => None
    case Some(rule) => Some(rule + (if similar != [] then SimilarMarker + similar[0] else ""))
  }

  /** The hypotheses that mention a restart: a critical cpu reading and a
      service that is down. Whatever the search returns, the lower-cased
      hypothesis contains "restart". */
  lemma RestartHint(e: Event, similar: seq<string>)
    requires (IsCpuAnomaly(e) && AtLeast(CpuValue(e), CriticalCpu) == Some(true)) || e.evtType == ServiceDown
    ensures Analyze(e, similar).Some?
    ensures Contains(ToLower(Analyze(e, similar).value), "restart")
  {
    var tail := if similar != [] then SimilarMarker + similar[0] else "";
    if e.evtType == ServiceDown {
      var svc := Get(e.payload, "service", Text("app"));
      ServiceDownMentionsRestart(svc, tail, Analyze(e, similar).value);
    } else {
      var val, host := CpuValue(e), Get(e.payload, "host", Text("host"));
      CriticalCpuMentionsRestart(val, host, tail, Analyze(e, similar).value);
    }
  }

  lemma ServiceDownMentionsRestart(svc: PayloadValue, tail: string, s: string)
    requires s == ServiceDownText(svc) + tail
    ensures Contains(ToLower(s), "restart")
  {
    var pre, post := ServiceDownAround(svc, tail, s);
    LowerSplit(s, pre, post);
  }

  lemma ServiceDownAround(svc: PayloadValue, tail: string, s: string) returns (pre: string, post: string)
    requires s == ServiceDownText(svc) + tail
    ensures s == pre + "restart" + post
  {
    pre, post := AdviceAround(Str(svc), " is down, likely bad deploy. Attempt ",
                              ", check health, consider rollback.", tail, s);
  }

  /** A text made of a lead, the word "restart" and a tail, split around the word. */
  lemma AdviceAround(lead: string, a: string, b: string, tail: string, s: string) returns (pre: string, post: string)
    requires s == lead + (a + "restart" + b) + tail
    ensures s == pre + "restart" + post
  {
    pre, post := lead + a, b + tail;
  }

  lemma CriticalCpuMentionsRestart(val: PayloadValue, host: PayloadValue, tail: string, s: string)
    requires s == CriticalCpuText(val, host) + tail
    ensures Contains(ToLower(s), "restart")
  {
    var pre, post := CriticalCpuAround(val, host, tail, s);
    LowerSplit(s, pre, post);
  }

  lemma CriticalCpuAround(val: PayloadValue, host: PayloadValue, tail: string, s: string) returns (pre: string, post: string)
    requires s == CriticalCpuText(val, host) + tail
    ensures s == pre + "restart" + post
  {
    pre, post := AdviceAround("CPU " + Str(val) + "% on " + Str(host),
                              ". Likely runaway process. Kill top CPU proc and ", " service.", tail, s);
  }

  /** Lower-casing keeps an embedded "restart" in place. */
  lemma LowerSplit(s: string, a: string, b: string)
    requires s == a + "restart" + b
    ensures Contains(ToLower(s), "restart")
  {
    ToLowerConcat(a + "restart", b);
    ToLowerConcat(a, "restart");
    ToLowerOfLower("restart");
    ContainsInMiddle(ToLower(a), "restart", ToLower(b));
  }
}
