/** The remediation policy of agents/supervisor.py as pure definitions: the
    per-type verifier, the notes, and the whole course of one incident's
    mitigation (analysis, up to two attempts, resolution or escalation) as a
    function of the collaborators' answers. `Orchestration.SupervisorAgent.Mitigate`
    is proved to follow it; the lemmas here state what that course guarantees. */
module Lifecycle {
  import opened Basics
  import opened Events
  import opened Incidents
  import opened Remediation
  import Analysis

  /** Some record of kind `k` reports success. */
  predicate AnySucceeded(actions: seq<ActionRecord>, k: ActionKind)
    ensures AnySucceeded(actions, k) <==>
              exists i :: 0 <= i < |actions| && actions[i].action == k && actions[i].ok
  {
    if actions == [] then false
    else (actions[0].action == k && actions[0].ok) || AnySucceeded(actions[1..], k)
  }

  /** The verifier, over all actions recorded so far. `probe` is the outcome
      of the external health probe, consulted only for cpu anomalies and
      high latency. */
  function Verify(e: Event, actions: seq<ActionRecord>, probe: bool): (healthy: bool)
    ensures e.evtType == ServiceDown ==>
              (healthy <==> exists i :: 0 <= i < |actions| && actions[i].action == RestartService && actions[i].ok)
    ensures e.evtType == DiskFull ==>
              (healthy <==> exists i :: 0 <= i < |actions| && actions[i].action == ClearTempLogs && actions[i].ok)
    ensures IsCpuAnomaly(e) || e.evtType == ApiLatencyHigh ==> healthy == probe
    ensures e.evtType == CustomAlert || (e.evtType == MetricAnomaly && !IsCpuAnomaly(e)) ==> !healthy
  {
    if e.evtType == ServiceDown then AnySucceeded(actions, RestartService)
    else if IsCpuAnomaly(e) then probe
    else if e.evtType == DiskFull then AnySucceeded(actions, ClearTempLogs)
    else if e.evtType == ApiLatencyHigh then probe
    else false
  }

  /** The note that records the hypothesis; the hypothesis reads back from it. */
  function HypothesisNote(h: string): (note: string)
    ensures |note| == |HypothesisLead| + |h|
    ensures note[..|HypothesisLead|] == HypothesisLead && note[|HypothesisLead|..] == h
  {
    HypothesisLead + h
  }

  const HypothesisLead := "Hypothesis: "
  const RetryLead := "Attempt "
  const RetryTail := " failed; retrying\U{2026}"

  /** The note of an unverified attempt: the attempt number in decimal, as
      Python's `str` writes it, between the lead and the tail; it reads back
      from those digits. */
  function RetryNote(attempt: nat): (note: string)
    ensures note == RetryLead + NatToString(attempt) + RetryTail
    ensures |note| > |RetryLead| + |RetryTail|
    ensures note[..|RetryLead|] == RetryLead && note[|note| - |RetryTail|..] == RetryTail
    ensures forall i :: |RetryLead| <= i < |note| - |RetryTail| ==> '0' <= note[i] <= '9'
    ensures DecimalValue(note[|RetryLead|..|note| - |RetryTail|]) == attempt
  {
    var digits := NatToString(attempt);
    var note := RetryLead + digits + RetryTail;
    assert note[|RetryLead|..|note| - |RetryTail|] == digits;
    note
  }

  const VerifiedNote := "Resolution verified."
  const EscalationNote := "Escalated to human on-call."

  /** Where a mitigation ends: the status, the attempt counter, the actions and the notes. */
  datatype Ending = Ending(status: Status, attempts: nat, actions: seq<ActionRecord>, notes: seq<string>)

  /** The attempt loop from attempt number `attempt` on, with the actions
      and notes accumulated so far. */
  function Remediate(e: Event, h: string, env: nat -> SubActions, probe: nat -> bool,
                     attempt: nat, acts: seq<ActionRecord>, notes: seq<string>): (r: Ending)
    requires 1 <= attempt <= MaxAttempts + 1
    ensures Terminal(r.status) && r.attempts <= MaxAttempts
    ensures attempt <= MaxAttempts ==> attempt <= r.attempts && |r.actions| == |acts| + r.attempts - attempt + 1
    ensures attempt > MaxAttempts ==> r.attempts == MaxAttempts && r.actions == acts
    ensures r.status == Failed ==> r.attempts == MaxAttempts
    ensures acts <= r.actions && notes <= r.notes && |r.notes| > |notes|
    ensures r.notes[|r.notes| - 1] == if r.status == Resolved then VerifiedNote else EscalationNote
    decreases MaxAttempts + 1 - attempt
  {
    if attempt > MaxAttempts then
      Ending(Failed, MaxAttempts, acts, notes + [EscalationNote])
    else
      var acts' := acts + [Outcome(e, Some(h), env(attempt))];
      if Verify(e, acts', probe(attempt)) then
        Ending(Resolved, attempt, acts', notes + [VerifiedNote])
      else
        Remediate(e, h, env, probe, attempt + 1, acts', notes + [RetryNote(attempt)])
  }

  /** The course of one mitigation. `analysis` is the analyzer's answer, `None`
      when it raised: the task then stops with the incident left mitigating.
      `env(k)` and `probe(k)` are the sub-actions' and the health probe's
      behaviour at attempt `k`. */
  function Mitigation(e: Event, analysis: Option<string>, env: nat -> SubActions, probe: nat -> bool): (r: Ending)
    ensures analysis.None? ==> r.status == Mitigating && r.attempts == 0 && r.actions == [] && r.notes == []
    ensures analysis.Some? ==>
      && Terminal(r.status) && 1 <= r.attempts <= MaxAttempts
      && |r.actions| == r.attempts
      && (r.status == Failed ==> r.attempts == MaxAttempts)
      && |r.notes| >= 2 && r.notes[0] == HypothesisNote(analysis.value)
      && r.notes[|r.notes| - 1] == (if r.status == Resolved then VerifiedNote else EscalationNote)
  {
    match analysis
    case None => Ending(Mitigating, 0, [], [])
    case Some(h) => Remediate(e, h, env, probe, 1, [], [HypothesisNote(h)])
  }

  /** The actions of attempts 1 to n, concatenated in order. */
  function ActionsUpTo(e: Event, h: string, env: nat -> SubActions, n: nat): seq<ActionRecord>
  {
    if n == 0 then [] else ActionsUpTo(e, h, env, n - 1) + [Outcome(e, Some(h), env(n))]
  }

  /** The notes after n unverified attempts with hypothesis `h`: the
      hypothesis, then one retry note per attempt, in order. */
  function NotesUpTo(h: string, n: nat): seq<string>
  {
    if n == 0 then [HypothesisNote(h)] else NotesUpTo(h, n - 1) + [RetryNote(n)]
  }

  /** Attempt k's verification, which sees the actions of attempts 1 to k. */
  predicate VerifiedAt(e: Event, h: string, env: nat -> SubActions, probe: nat -> bool, k: nat)
  {
    Verify(e, ActionsUpTo(e, h, env, k), probe(k))
  }

  lemma {:induction false} RemediateCourse(e: Event, h: string, env: nat -> SubActions, probe: nat -> bool, attempt: nat)
    requires 1 <= attempt <= MaxAttempts + 1
    requires forall k :: 1 <= k < attempt ==> !VerifiedAt(e, h, env, probe, k)
    ensures var r := Remediate(e, h, env, probe, attempt, ActionsUpTo(e, h, env, attempt - 1),
                               NotesUpTo(h, attempt - 1));
      && Terminal(r.status)
      && 1 <= r.attempts <= MaxAttempts
      && r.actions == ActionsUpTo(e, h, env, r.attempts)
      && (forall k :: 1 <= k < r.attempts ==> !VerifiedAt(e, h, env, probe, k))
      && (r.status == Resolved ==>
            VerifiedAt(e, h, env, probe, r.attempts)
            && r.notes == NotesUpTo(h, r.attempts - 1) + [VerifiedNote])
      && (r.status == Failed ==>
            r.attempts == MaxAttempts && !VerifiedAt(e, h, env, probe, MaxAttempts)
            && r.notes == NotesUpTo(h, MaxAttempts) + [EscalationNote])
    decreases MaxAttempts + 1 - attempt
  {
    if attempt <= MaxAttempts && !VerifiedAt(e, h, env, probe, attempt) {
      RemediateCourse(e, h, env, probe, attempt + 1);
    }
  }

  /** What a mitigation with a hypothesis guarantees: it ends resolved or
      failed after one or two attempts; its actions are the attempts' records
      in order; attempt k is the first whose verification succeeded exactly
      when it resolves at k, and it fails only after two unverified attempts;
      the notes are the hypothesis, one retry note per unverified attempt
      (the last included) and then the verdict. */
  lemma MitigationCourse(e: Event, h: string, env: nat -> SubActions, probe: nat -> bool)
    ensures var r := Mitigation(e, Some(h), env, probe);
      && Terminal(r.status)
      && 1 <= r.attempts <= MaxAttempts
      && r.actions == ActionsUpTo(e, h, env, r.attempts)
      && (forall k :: 1 <= k < r.attempts ==> !VerifiedAt(e, h, env, probe, k))
      && (r.status == Resolved <==> VerifiedAt(e, h, env, probe, r.attempts))
      && (r.status == Resolved ==>
            r.notes == NotesUpTo(h, r.attempts - 1) + [VerifiedNote])
      && (r.status == Failed ==>
            r.attempts == MaxAttempts
            && r.notes == NotesUpTo(h, MaxAttempts) + [EscalationNote])
  {
    RemediateCourse(e, h, env, probe, 1);
  }

  /** The mitigation resolves at the first attempt whose verification
      succeeds, with exactly that attempt's actions and notes. */
  lemma ResolvesAtFirstVerified(e: Event, h: string, env: nat -> SubActions, probe: nat -> bool, a: nat)
    requires 1 <= a <= MaxAttempts
    requires VerifiedAt(e, h, env, probe, a)
    requires forall k :: 1 <= k < a ==> !VerifiedAt(e, h, env, probe, k)
    ensures Mitigation(e, Some(h), env, probe)
            == Ending(Resolved, a, ActionsUpTo(e, h, env, a), NotesUpTo(h, a - 1) + [VerifiedNote])
  {
    MitigationCourse(e, h, env, probe);
  }

  /** When no attempt verifies, the mitigation escalates after the last one. */
  lemma EscalatesWhenNoneVerified(e: Event, h: string, env: nat -> SubActions, probe: nat -> bool)
    requires forall k :: 1 <= k <= MaxAttempts ==> !VerifiedAt(e, h, env, probe, k)
    ensures Mitigation(e, Some(h), env, probe)
            == Ending(Failed, MaxAttempts, ActionsUpTo(e, h, env, MaxAttempts),
                      NotesUpTo(h, MaxAttempts) + [EscalationNote])
  {
    MitigationCourse(e, h, env, probe);
  }

  /** Resolution of a service outage or a full disk happens only with a
      successful restart, respectively clean-up, among the recorded actions. */
  lemma ResolvedHasEvidence(e: Event, h: string, env: nat -> SubActions, probe: nat -> bool)
    requires e.evtType == ServiceDown || e.evtType == DiskFull
    requires Mitigation(e, Some(h), env, probe).status == Resolved
    ensures var r := Mitigation(e, Some(h), env, probe);
      exists i :: 0 <= i < |r.actions| && r.actions[i].ok &&
        r.actions[i].action == (if e.evtType == ServiceDown then RestartService else ClearTempLogs)
  {
    MitigationCourse(e, h, env, probe);
  }

  /** A custom alert or a non-cpu metric anomaly has no verifier rule: it is
      escalated after both attempts, whatever the actions did. */
  lemma UnmatchedTypeEscalates(e: Event, h: string, env: nat -> SubActions, probe: nat -> bool)
    requires e.evtType == CustomAlert || (e.evtType == MetricAnomaly && !IsCpuAnomaly(e))
    ensures var r := Mitigation(e, Some(h), env, probe);
      r.status == Failed && r.attempts == MaxAttempts && r.notes[|r.notes| - 1] == EscalationNote
  {
    MitigationCourse(e, h, env, probe);
  }

  /** For a cpu anomaly or high latency only the health probe decides: the
      incident resolves at the first attempt whose probe reports healthy,
      even if every action failed. */
  lemma ProbeDecides(e: Event, h: string, env: nat -> SubActions, probe: nat -> bool)
    requires IsCpuAnomaly(e) || e.evtType == ApiLatencyHigh
    ensures var r := Mitigation(e, Some(h), env, probe);
      && (r.status == Resolved <==> probe(1) || probe(2))
      && r.attempts == (if probe(1) then 1 else 2)
  {
    MitigationCourse(e, h, env, probe);
  }

  /** A service outage whose restart succeeds resolves at the first attempt,
      with one successful restart record. */
  lemma ServiceDownResolvesFirst(e: Event, h: string, env: nat -> SubActions, probe: nat -> bool)
    requires e.evtType == ServiceDown && env(1).restart == Returned(true)
    ensures var r := Mitigation(e, Some(h), env, probe);
      && r.status == Resolved && r.attempts == 1
      && r.actions == [ActionRecord(RestartService, true, Details(e, RestartService))]
      && r.notes == [HypothesisNote(h), VerifiedNote]
  {
    var acts := [Outcome(e, Some(h), env(1))];
    assert acts[0].action == RestartService && acts[0].ok;
    assert Verify(e, acts, probe(1));
  }

  /** A full disk whose hypothesis does not mention a restart gets the
      clean-up, and resolves at the first attempt when the clean-up succeeds. */
  lemma DiskFullResolvesFirst(e: Event, h: string, env: nat -> SubActions, probe: nat -> bool)
    requires e.evtType == DiskFull && !MentionsRestart(Some(h)) && env(1).clear == Returned(true)
    ensures var r := Mitigation(e, Some(h), env, probe);
      && r.status == Resolved && r.attempts == 1
      && r.actions == [ActionRecord(ClearTempLogs, true, Details(e, ClearTempLogs))]
  {
    var acts := [Outcome(e, Some(h), env(1))];
    assert acts[0].action == ClearTempLogs && acts[0].ok;
    assert Verify(e, acts, probe(1));
  }

  /** A full disk whose hypothesis mentions a restart (for instance through
      the similar past incident appended to it) is restarted instead of
      cleaned up at every attempt, so it is always escalated. */
  lemma DiskFullWithRestartHintEscalates(e: Event, h: string, env: nat -> SubActions, probe: nat -> bool)
    requires e.evtType == DiskFull && MentionsRestart(Some(h))
    ensures Mitigation(e, Some(h), env, probe).status == Failed
  {
    var r := Mitigation(e, Some(h), env, probe);
    MitigationCourse(e, h, env, probe);
    if r.status == Resolved {
      NoCleanUp(e, h, env, r.attempts);
      assert false;
    }
  }

  lemma {:induction false} NoCleanUp(e: Event, h: string, env: nat -> SubActions, n: nat)
    requires e.evtType == DiskFull && MentionsRestart(Some(h))
    ensures forall i :: 0 <= i < |ActionsUpTo(e, h, env, n)| ==> ActionsUpTo(e, h, env, n)[i].action != ClearTempLogs
  {
    if n > 0 {
      NoCleanUp(e, h, env, n - 1);
    }
  }

  /** An executor whose every sub-action reports failure never resolves a
      service outage, a full disk or an unmatched alert: two attempts, then
      escalation, and no success note. */
  lemma FailingExecutorEscalates(e: Event, h: string, env: nat -> SubActions, probe: nat -> bool)
    requires e.evtType == ServiceDown || e.evtType == DiskFull || e.evtType == CustomAlert
    requires forall k :: 1 <= k <= MaxAttempts ==> env(k) == SubActions(Returned(false), Returned(false), Returned(false), Returned(false))
    ensures var r := Mitigation(e, Some(h), env, probe);
      r.status == Failed && r.attempts == MaxAttempts && VerifiedNote !in r.notes
  {
    var r := Mitigation(e, Some(h), env, probe);
    MitigationCourse(e, h, env, probe);
    if r.status == Resolved {
      NothingSucceeds(e, h, env, r.attempts);
      assert false;
    }
    NotesAreNotVerdicts(h, MaxAttempts);
  }

  lemma {:induction false} NothingSucceeds(e: Event, h: string, env: nat -> SubActions, n: nat)
    requires n <= MaxAttempts
    requires forall k :: 1 <= k <= MaxAttempts ==> env(k) == SubActions(Returned(false), Returned(false), Returned(false), Returned(false))
    ensures forall i :: 0 <= i < |ActionsUpTo(e, h, env, n)| ==> !ActionsUpTo(e, h, env, n)[i].ok
  {
    if n > 0 {
      NothingSucceeds(e, h, env, n - 1);
    }
  }

  lemma {:induction false} NotesAreNotVerdicts(h: string, n: nat)
    ensures VerifiedNote !in NotesUpTo(h, n)
  {
    if n == 0 {
      assert HypothesisNote(h)[0] == 'H';
    } else {
      NotesAreNotVerdicts(h, n - 1);
      assert RetryNote(n)[0] == 'A';
    }
  }

  /** With the repository's simulated sub-actions a custom alert whose
      hypothesis does not mention a restart gets two successful health
      checks and is still escalated. */
  lemma CustomAlertSimulated(e: Event, h: string, kills: nat -> bool, probe: nat -> bool)
    requires e.evtType == CustomAlert && !MentionsRestart(Some(h))
    ensures var r := Mitigation(e, Some(h), (k: nat) => Simulated(kills(k)), probe);
      && r.status == Failed && r.attempts == MaxAttempts
      && r.actions == [ActionRecord(CheckHealth, true, map[]), ActionRecord(CheckHealth, true, map[])]
  {
    var env := (k: nat) => Simulated(kills(k));
    MitigationCourse(e, h, env, probe);
    SimulatedOutcome(e, Some(h), kills(1));
    SimulatedOutcome(e, Some(h), kills(2));
  }

  /** On the rule path a critical cpu reading produces a hypothesis that
      mentions a restart, so every attempt restarts the service and none
      kills the top process. */
  lemma CriticalCpuRestarts(e: Event, similar: seq<string>, env: nat -> SubActions, probe: nat -> bool)
    requires IsCpuAnomaly(e) && Analysis.AtLeast(Analysis.CpuValue(e), Analysis.CriticalCpu) == Some(true)
    ensures Analysis.Analyze(e, similar).Some?
    ensures var r := Mitigation(e, Analysis.Analyze(e, similar), env, probe);
      forall i :: 0 <= i < |r.actions| ==> r.actions[i].action in {RestartService, ExceptionRaised}
  {
    Analysis.RestartHint(e, similar);
    var h := Analysis.Analyze(e, similar).value;
    MitigationCourse(e, h, env, probe);
    RestartsOnly(e, h, env, Mitigation(e, Some(h), env, probe).attempts);
  }

  lemma {:induction false} RestartsOnly(e: Event, h: string, env: nat -> SubActions, n: nat)
    requires MentionsRestart(Some(h))
    ensures forall i :: 0 <= i < |ActionsUpTo(e, h, env, n)| ==>
              ActionsUpTo(e, h, env, n)[i].action in {RestartService, ExceptionRaised}
  {
    if n > 0 {
      RestartsOnly(e, h, env, n - 1);
    }
  }
}
