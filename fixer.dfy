/** remediation dispatch of the fixer (agents/fixer.py): one action chosen by
    a fixed priority from the hypothesis and the event, run, and recorded. */
module Remediation {
  import opened Basics
  import opened Events
  import opened Incidents

  /** What a sub-action call does: return a success flag, or raise an error
      with the given message. */
  datatype SubResult = Returned(ok: bool) | Raised(error: string)

  /** The sub-actions' behaviour for one call, one entry per action kind. */
  datatype SubActions = SubActions(restart: SubResult, kill: SubResult, clear: SubResult, check: SubResult)

  /** The sub-action that runs for a chosen kind. */
  function Call(env: SubActions, k: ActionKind): SubResult
    requires k != ExceptionRaised
  {
    match k
    case RestartService => env.restart
    case KillTopProcess => env.kill
    case ClearTempLogs => env.clear
    case CheckHealth => env.check
  }

  /** The repository's simulated sub-actions: restarting, clearing logs and
      checking health always report success; killing the top process succeeds
      by chance, so its outcome is the parameter. None of them raises. */
  function Simulated(killOk: bool): (env: SubActions)
    ensures forall k :: k != ExceptionRaised ==> Call(env, k).Returned?
    ensures forall k :: k != ExceptionRaised && k != KillTopProcess ==> Call(env, k).ok
    ensures Call(env, KillTopProcess).ok == killOk
  {
    SubActions(Returned(true), Returned(killOk), Returned(true), Returned(true))
  }

  /** `"restart" in (hypothesis or "").lower()`. */
  predicate MentionsRestart(hypothesis: Option<string>)
    ensures hypothesis.None? ==> !MentionsRestart(hypothesis)
    ensures hypothesis.Some? ==>
              forall w :: ToLower(w) == "restart" && Contains(hypothesis.value, w) ==> MentionsRestart(hypothesis)
  {
    assert hypothesis.Some? ==>
      forall w :: ToLower(w) == "restart" && Contains(hypothesis.value, w) ==> Contains(ToLower(hypothesis.value), "restart")
    by {
      if hypothesis.Some? {
        forall w | ToLower(w) == "restart" && Contains(hypothesis.value, w)
          ensures Contains(ToLower(hypothesis.value), "restart")
        {
          LowerKeepsOccurrence(hypothesis.value, w, "restart");
        }
      }
    }
    Contains(ToLower(OrEmpty(hypothesis)), "restart")
  }

  /** The dispatch priority: a restart when the hypothesis mentions one or the
      service is down; otherwise killing the top process for a cpu anomaly;
      otherwise clearing logs for a full disk; otherwise a health check. */
  function Choose(e: Event, hypothesis: Option<string>): (k: ActionKind)
    ensures k != ExceptionRaised
    ensures k == RestartService <==> MentionsRestart(hypothesis) || e.evtType == ServiceDown
    ensures k == KillTopProcess <==>
              !MentionsRestart(hypothesis) && e.evtType != ServiceDown && IsCpuAnomaly(e)
    ensures k == ClearTempLogs <==>
              !MentionsRestart(hypothesis) && e.evtType == DiskFull
    ensures k == CheckHealth <==>
              !MentionsRestart(hypothesis) && e.evtType != ServiceDown && e.evtType != DiskFull && !IsCpuAnomaly(e)
  {
    if MentionsRestart(hypothesis) || e.evtType == ServiceDown then RestartService
    else if IsCpuAnomaly(e) then KillTopProcess
    else if e.evtType == DiskFull then ClearTempLogs
    else CheckHealth
  }

  /** The `details` of a recorded action: the service for a restart (default
      "app"), the host for a kill or a clean-up (default "app-1"), nothing for
      a health check. */
  function Details(e: Event, k: ActionKind): (d: map<string, PayloadValue>)
    requires k != ExceptionRaised
    ensures k == RestartService ==> d.Keys == {"service"} && d["service"] == Get(e.payload, "service", Text("app"))
    ensures k == KillTopProcess || k == ClearTempLogs ==>
              d.Keys == {"host"} && d["host"] == Get(e.payload, "host", Text("app-1"))
    ensures k == CheckHealth ==> d == map[]
  {
    match k
    case RestartService => map["service" := Get(e.payload, "service", Text("app"))]
    case KillTopProcess => map["host" := Get(e.payload, "host", Text("app-1"))]
    case ClearTempLogs => map["host" := Get(e.payload, "host", Text("app-1"))]
    case CheckHealth => map[]
  }

  /** The single record one fixer call produces: the chosen action with the
      sub-action's flag, or the synthetic failed `exception` record carrying
      the error text when the sub-action raised. */
  function Outcome(e: Event, hypothesis: Option<string>, env: SubActions): (a: ActionRecord)
    ensures a.action == ExceptionRaised <==> Call(env, Choose(e, hypothesis)).Raised?
    ensures a.action != ExceptionRaised ==>
              a.action == Choose(e, hypothesis) && a.ok == Call(env, a.action).ok
              && a.details == Details(e, a.action)
    ensures a.action == ExceptionRaised ==>
              !a.ok && a.details == map["error" := Text(Call(env, Choose(e, hypothesis)).error)]
  {
    var k := Choose(e, hypothesis);
    match Call(env, k)
    case Returned(ok) => ActionRecord(k, ok, Details(e, k))
    case Raised(msg) => ActionRecord(ExceptionRaised, false, map["error" := Text(msg)])
  }

  /** The fixer's reply: this call's records and their aggregate flag. */
  datatype FixResult = FixResult(actions: seq<ActionRecord>, allOk: bool)

  /** Python's `all(a["ok"] for a in actions)`, true of the empty list. */
  function EveryOk(actions: seq<ActionRecord>): (b: bool)
    ensures b <==> forall i :: 0 <= i < |actions| ==> actions[i].ok
  {
    if actions == [] then true else actions[0].ok && EveryOk(actions[1..])
  }

  /** The `all_ok` flag: false for an empty list, else whether every record succeeded. */
  function AllOk(actions: seq<ActionRecord>): (b: bool)
    ensures b <==> |actions| > 0 && forall i :: 0 <= i < |actions| ==> actions[i].ok
  {
    if actions != [] then EveryOk(actions) else false
  }

  /** One remediation attempt. Only the incident's event and hypothesis are
      read, and the incident is not modified; the records are collected in a
      fresh local list. */
  method Execute(incident: Incident, env: SubActions) returns (r: FixResult)
    ensures |r.actions| == 1
    ensures r.actions[0] == Outcome(incident.event, incident.hypothesis, env)
    ensures r.allOk == r.actions[0].ok
  {
    var evt := incident.event;
    var actions: seq<ActionRecord> := [];
    var kind := Choose(evt, incident.hypothesis);
    match Call(env, kind) {
      case Returned(ok) =>
        actions := actions + [ActionRecord(kind, ok, Details(evt, kind))];
      case Raised(msg) =>
        actions := actions + [ActionRecord(ExceptionRaised, false, map["error" := Text(msg)])];
    }
    r := FixResult(actions, AllOk(actions));
  }

  /** With the repository's simulated sub-actions a call never raises, and it
      fails only when the chosen action is killing the top process and that
      kill fails. */
  lemma SimulatedOutcome(e: Event, hypothesis: Option<string>, killOk: bool)
    ensures Outcome(e, hypothesis, Simulated(killOk)).action == Choose(e, hypothesis)
    ensures Outcome(e, hypothesis, Simulated(killOk)).ok <==> Choose(e, hypothesis) != KillTopProcess || killOk
  {
  }
}
