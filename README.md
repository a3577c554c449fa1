# SelfHeal ITOps incident engine, modelled in Dafny

This project models the incident engine of SelfHeal ITOps and proves properties of the model.

**The incident flow.** Monitoring events are published on an in-process FIFO event bus. The supervisor takes each event off the bus and opens an incident for it, filed in a registry under the incident's id. It then mitigates the incident:

1. The incident becomes *mitigating*.
2. The rule-based analyzer produces a hypothesis. This is the path taken without a language model; the text of the best similar past incident is appended when the search finds one.
3. There are at most two remediation attempts. Each attempt is one fixer call followed by a per-event-type verification.
4. The incident is *resolved* on the first verified attempt, and its summary is recorded into the incident memory. Otherwise it is *failed*, that is escalated to a human.

**The fixer.** It picks one action by a fixed priority: a restart when the hypothesis mentions one or the service is down, otherwise killing the top process, clearing logs, or a health check. A sub-action that raises becomes a synthetic failed `exception` record.

**Modules:**
- `Basics`: optional values, Python's `str` of integers, ASCII lower-casing and the substring test.
- `Events`: event kinds and the event bus.
- `Analysis`: the rule chain and the no-LLM answer.
- `Incidents`: the incident record as a class with its lifecycle invariant.
- `Remediation`: the fixer's dispatch.
- `Lifecycle`: the verifier and the whole course of one mitigation, as pure functions, with the lemmas about that course.
- `Orchestration`: the supervisor agent as a class; its methods are proved to follow `Lifecycle`.

**Non-deterministic collaborators** are parameters:
- the analyzer's answer, where `None` means the analyzer raised;
- the sub-actions' behaviour at each attempt (`env`);
- the verifier's random draw at each attempt (`probe`);
- the similarity search result (`similar`);
- incident ids and clock readings (`ids`, `clock`, `closedAt`, `recordedAt`).

The JSONL audit log is modelled as a ghost sequence of stage labels. The memory store is the sequence of `add_incident` calls.

## Model

| member | source | states |
|---|---|---|
| Basics.NatToString | agents/supervisor.py:67 | `str` of the attempt number: decimal digits that denote the number (`DecimalValue` reads it back), with no leading zero, one digit exactly below 10 |
| Basics.IntToString | agents/analyzer.py:18 | `str` of an integer reading: a leading minus exactly for negative numbers, followed by digits denoting the magnitude with no leading zero; for non-negative numbers the digits denote the number, with no leading zero |
| Basics.Contains | agents/fixer.py:15 | Python's `sub in s`: the empty string occurs in every string, and an occurring string is no longer than the text |
| Basics.LowerKeepsOccurrence | agents/fixer.py:8 | an occurrence in the hypothesis of any spelling of a word survives lower-casing as the lower-case word |
| Basics.ToLower | agents/fixer.py:8 | `.lower()`: same length, each character lower-cased in place (ASCII letters only) |
| Basics.ToLowerConcat | agents/fixer.py:8 | lower-casing distributes over concatenation |
| Events.ParseType | core/event_bus.py:7 | the `type` field accepts exactly the five literal names, each read back as its kind |
| Events.ParseTypeName | core/event_bus.py:7 | every kind's wire name parses back to that kind |
| Events.Str | agents/analyzer.py:18-30 | what an f-string inserts: an integer as its signed decimal digits (denoting the value, with no leading zero), a string as itself, a boolean as "True" or "False", any other value as its printed text |
| Events.Get | agents/analyzer.py:15-16 | `payload.get(key, default)`: the stored value when present, else the default |
| Events.MakeEvent | core/event_bus.py:5-10 | an event exists exactly for the five type names; omitted source defaults to "simulator", omitted payload to empty; id and ts are kept |
| Events.EventBus.constructor | core/event_bus.py:12-13 | a new bus has an empty queue and empty history |
| Events.EventBus.Publish | core/event_bus.py:15-16 | the event is appended at the tail, always succeeds, and FIFO history `delivered + queue == published` is kept |
| Events.EventBus.Consume | core/event_bus.py:18-21 | hands out exactly the head, leaves the rest in order, records it as delivered; on an empty queue nothing happens |
| Analysis.AtLeast | agents/analyzer.py:19 | `val >= 95`: for numbers the comparison itself, for booleans the comparison of 0 or 1 (so `True >= 95` is false); strings and structured values raise (`None`) |
| Analysis.Rule | agents/analyzer.py:14-32 | the if/elif chain: critical cpu (value at least 95) and cpu spike texts with defaults value 0 and host "host"; service down with service "app"; latency with service "api"; disk full with host "host"; otherwise "No clear hypothesis; request human triage."; the TypeError of a non-numeric reading is `None` |
| Analysis.Analyze | agents/analyzer.py:34-40 | the rule text, followed by " Similar past: " and the first search result exactly when the search returned any; raises exactly when the rule raises |
| Analysis.RestartHint | agents/analyzer.py:17-24 | critical cpu and service-down hypotheses contain "restart" after lower-casing, whatever the search returned |
| Incidents.LabelInjective | agents/fixer.py:11-12 | distinct action kinds have distinct `action` labels |
| Incidents.Incident.constructor | agents/supervisor.py:8-17 | a new incident is open, with no hypothesis, 0 attempts, no actions or notes, no closing time, and the given event, id and opening time |
| Incidents.PathExtend | agents/supervisor.py:38 | appending a legal transition keeps the status history a lifecycle path |
| Incidents.TerminalIsFinal | agents/supervisor.py:56 | there is no transition out of resolved or failed |
| Incidents.HistoryMonotonic | agents/supervisor.py:38 | along a status history the status only moves forward: open only first, a terminal status only last |
| Remediation.Simulated | agents/fixer.py:32-46 | the simulated sub-actions never raise; restart, clean-up and health check succeed; the kill's outcome is the chance draw |
| Remediation.MentionsRestart | agents/fixer.py:8 | `"restart" in (hypothesis or "").lower()`: false without a hypothesis; true whenever the hypothesis contains "restart" in any capitalisation |
| Remediation.Choose | agents/fixer.py:8-26 | the dispatch priority, each branch as an if-and-only-if: restart for "restart" in the lower-cased hypothesis or a service down; else kill for a cpu anomaly; else clean-up for a full disk; else health check |
| Remediation.Details | agents/fixer.py:16-26 | restart carries `service` (default "app"), kill and clean-up carry `host` (default "app-1"), health check carries nothing |
| Remediation.Outcome | agents/fixer.py:11-28 | the one record of a call: the chosen kind with the sub-action's flag and details, or a failed `exception` record with the error text exactly when the sub-action raised |
| Remediation.EveryOk | agents/fixer.py:30 | `all(...)` over the records, true of the empty list |
| Remediation.AllOk | agents/fixer.py:30 | `all_ok` holds exactly when there is at least one record and all of them succeeded |
| Remediation.Execute | agents/fixer.py:6-30 | one call returns exactly one record, the `Outcome` of the event and hypothesis, and `all_ok` is that record's flag; the incident is not modified |
| Remediation.SimulatedOutcome | agents/fixer.py:32-46 | with the simulated sub-actions the chosen action is recorded and fails only when it is the kill and the kill fails |
| Lifecycle.AnySucceeded | agents/supervisor.py:80 | `any(a["action"] == k and a["ok"] ...)` as an existential over the records |
| Lifecycle.Verify | agents/supervisor.py:75-87 | service down is healthy iff some restart succeeded; disk full iff some clean-up succeeded; cpu anomaly and high latency are decided by the probe; everything else is unhealthy |
| Lifecycle.HypothesisNote | agents/supervisor.py:43 | the note "Hypothesis: " followed by the hypothesis, which reads back from it |
| Lifecycle.RetryNote | agents/supervisor.py:67 | the note "Attempt k failed; retrying…" with k written by `str` (no leading zero): the attempt number reads back from the digits between the lead and the tail |
| Lifecycle.Remediate | agents/supervisor.py:47-73 | the attempt loop from a given attempt: it ends resolved or failed, within the bound of 2, one record per attempt appended to the actions, the notes only extended and ending in the verdict; failed only at attempt 2 |
| Lifecycle.Mitigation | agents/supervisor.py:35-73 | the course of `_mitigate`: left mitigating with nothing done when the analyzer raised; otherwise resolved or failed after 1 or 2 attempts, one record per attempt, notes starting with the hypothesis note and ending in the verdict, failed only after 2 attempts |
| Lifecycle.RemediateCourse | agents/supervisor.py:47-73 | the attempt loop from any attempt ends terminal after 1 or 2 attempts, with the attempts' actions in order and the exact notes; resolved only at a verified attempt, failed only after two unverified ones |
| Lifecycle.MitigationCourse | agents/supervisor.py:35-73 | with a hypothesis the mitigation ends resolved or failed; attempts 1 or 2; actions are the attempts' records concatenated; resolved iff the last attempt verified, with no earlier one verified; notes are the hypothesis, one retry note per unverified attempt (the last included), then the verdict; failed implies two attempts |
| Lifecycle.ResolvesAtFirstVerified | agents/supervisor.py:54-65 | the mitigation resolves at the first verified attempt, with exactly that attempt's actions and notes |
| Lifecycle.EscalatesWhenNoneVerified | agents/supervisor.py:66-73 | when no attempt verifies, the mitigation fails after two attempts with the escalation note last |
| Lifecycle.ResolvedHasEvidence | agents/supervisor.py:79-84 | a resolved service outage has a successful restart, a resolved full disk a successful clean-up, among its records |
| Lifecycle.UnmatchedTypeEscalates | agents/supervisor.py:87 | custom alerts and non-cpu metric anomalies are always escalated after two attempts |
| Lifecycle.ProbeDecides | agents/supervisor.py:81-86 | for cpu anomalies and high latency the probe alone decides: resolved iff either probe reports healthy, at the first such attempt |
| Lifecycle.ServiceDownResolvesFirst | agents/supervisor.py:79-80 | a service outage whose restart succeeds resolves at attempt 1 with one successful restart record and notes hypothesis, verified |
| Lifecycle.DiskFullResolvesFirst | agents/supervisor.py:83-84 | a full disk without a restart hint whose clean-up succeeds resolves at attempt 1 with one clean-up record |
| Lifecycle.DiskFullWithRestartHintEscalates | agents/fixer.py:15-17 | a full disk whose hypothesis mentions a restart is restarted instead of cleaned up, so it always fails |
| Lifecycle.NoCleanUp | agents/fixer.py:15-23 | with a restart hint no attempt records a clean-up |
| Lifecycle.FailingExecutorEscalates | agents/supervisor.py:79-87 | if every sub-action reports failure, service outages, full disks and custom alerts fail after two attempts and are never noted as verified |
| Lifecycle.NothingSucceeds | agents/fixer.py:14-28 | with failing sub-actions no record succeeds |
| Lifecycle.NotesAreNotVerdicts | agents/supervisor.py:43 | hypothesis and retry notes are never the verification note |
| Lifecycle.CustomAlertSimulated | agents/fixer.py:44-46 | with the simulated sub-actions a custom alert without a restart hint gets two successful health checks and is still escalated |
| Lifecycle.CriticalCpuRestarts | agents/analyzer.py:17-18 | on the rule path a critical cpu reading only ever leads to restarts, never to killing the top process |
| Lifecycle.RestartsOnly | agents/fixer.py:15-17 | with a restart hint every record is a restart or an exception |
| Orchestration.Labels | agents/supervisor.py:62 | the list of `action` labels of the records, in order |
| Orchestration.AttemptsLoggedShape | agents/supervisor.py:51 | attempt stages 1 to n are appended after the log, in order |
| Orchestration.AttemptsLoggedShift | agents/supervisor.py:51 | logging attempts does not depend on, and only extends, what was logged before |
| Orchestration.LoggedAppends | agents/supervisor.py:44-73 | a mitigation only appends its own stages to the audit log |
| Orchestration.StagesShape | agents/supervisor.py:44-73 | a mitigation logs the analysis, attempts 1 to n in order, then "resolved" or "escalated" matching its ending; nothing when the analyzer raised |
| Orchestration.Registering | agents/supervisor.py:30 | the registry after filing incidents in order: old keys stay, every new id is a key, and the last incident filed sits under its id |
| Orchestration.Ordering | agents/supervisor.py:30 | the dict's key order after filing: the old order is kept as a prefix, at most one new key per incident |
| Orchestration.CollidingIdsDropOlder | agents/supervisor.py:28-30 | two incidents filed under the same millisecond id (line 9): only the newer one stays in the registry, and the older one is no longer reachable |
| Orchestration.DistinctIdsKeepEvery | agents/supervisor.py:30 | with pairwise distinct ids, every incident filed stays under its own id |
| Orchestration.SecondMitigationReopens | agents/supervisor.py:38 | when the two tasks on a colliding id run one after another (the schedule of this model), the first leaves the incident resolved or failed, and line 38 of the second would move it to mitigating, which no transition allows; under asyncio the first task suspends before closing, so this case does not arise there |
| Orchestration.FilingStep | agents/supervisor.py:30 | filing one more incident is one dict assignment; a new key goes last in the key order, a present key keeps its place |
| Orchestration.RegisteringLatest | agents/supervisor.py:30 | after filing in order, an id maps to the last incident filed under it, untouched keys keep their incident, and the keys are the old ones plus the new ids |
| Orchestration.ValuesInOrder | agents/supervisor.py:90 | `incidents.values()` in key order |
| Orchestration.InsertNewestFirst | agents/supervisor.py:90 | one insertion step of the sort: one more element, and every element kept |
| Orchestration.SortNewestFirst | agents/supervisor.py:90 | `sorted(..., key=opened_at, reverse=True)` as an insertion sort: same length, every element kept (permutation, order and stability in the rows below) |
| Orchestration.InsertPermutes | agents/supervisor.py:90 | one insertion step of the sort keeps the multiset |
| Orchestration.InsertSorted | agents/supervisor.py:90 | one insertion step keeps newest-first order |
| Orchestration.InsertStable | agents/supervisor.py:90 | one insertion step keeps incidents with equal opening time in order |
| Orchestration.SortPermutes | agents/supervisor.py:90 | the sort is a permutation of its input |
| Orchestration.SortSorted | agents/supervisor.py:90 | the sort is newest first (`reverse=True` on `opened_at`) |
| Orchestration.SortStable | agents/supervisor.py:90 | the sort is stable: equal opening times keep their input order |
| Orchestration.Listing | agents/supervisor.py:89-90 | the listing of a registry is newest first, a permutation of its values, contains every filed incident, and is stable |
| Orchestration.SupervisorAgent.constructor | agents/supervisor.py:20-25 | a new supervisor has an empty registry, memory and log over the given bus |
| Orchestration.SupervisorAgent.OpenIncident | agents/supervisor.py:29-31 | a fresh open incident for the event is filed under its id, replacing any entry with that id and leaving all others; the "incident_opened" stage is logged; memory is unchanged |
| Orchestration.SupervisorAgent.EnterMitigation | agents/supervisor.py:37-38 | as written: the incident filed under the id is set to mitigating whatever its status; from resolved or failed this is no lifecycle transition; hypothesis, attempts, actions, notes and closing time are kept; the status history is not extended, so the incident's `Valid()` is not kept |
| Orchestration.SupervisorAgent.Mitigate | agents/supervisor.py:35-73 | only that incident changes, and it ends where `Lifecycle.Mitigation` says, with the hypothesis stored and the closing time set exactly when terminal; memory gains one record exactly when it resolved; the stages are appended to the audit log; the registry is unchanged |
| Orchestration.SupervisorAgent.Drive | agents/supervisor.py:37-73 | the incident moves to mitigating, takes the analyzer's answer and follows `Lifecycle.Mitigation`; memory and log as for `Mitigate` |
| Orchestration.SupervisorAgent.Attempts | agents/supervisor.py:46-73 | the attempt loop brings the incident to `Lifecycle.Mitigation`'s ending, closed, logging each attempt and the verdict |
| Orchestration.SupervisorAgent.Try | agents/supervisor.py:47-67 | one loop turn: it stops exactly when this attempt verifies, then resolved as `Mitigation` says; otherwise the retry note is appended and the incident stays unverified |
| Orchestration.SupervisorAgent.Retry | agents/supervisor.py:66-67 | an unverified attempt appends the retry note and leaves the incident mitigating, unverified so far |
| Orchestration.SupervisorAgent.Attempt | agents/supervisor.py:48-54 | the attempt counter becomes the attempt number, the fixer's record is appended, the verifier judges all records so far, one stage is logged |
| Orchestration.SupervisorAgent.Resolve | agents/supervisor.py:55-65 | resolved, closed, noted as verified, logged, and one summary of event type, payload and action labels with hypothesis, actions and time is recorded into memory |
| Orchestration.SupervisorAgent.Escalate | agents/supervisor.py:69-73 | failed, closed, noted as escalated and logged; memory is not touched |
| Orchestration.SupervisorAgent.Run | agents/supervisor.py:27-33 | every queued event, in FIFO order, is delivered and gets a fresh pending incident filed under its id as dict assignments in order; the bus ends empty with the events recorded as delivered; one "incident_opened" stage per event; memory is unchanged |
| Orchestration.SupervisorAgent.OpenNext | agents/supervisor.py:28-31 | one turn of the dequeue loop: the head event is delivered and gets a fresh open incident, filed under the next id |
| Orchestration.SupervisorAgent.ListIncidents | agents/supervisor.py:89-90 | all filed incidents exactly once (as a permutation of the registry's values), newest first, stable on equal opening times; nothing changes |

## Findings

| source | as written | input that shows it | evidently intended | confidence | as-written member | corrected member |
|---|---|---|---|---|---|---|
| agents/supervisor.py:9-38 | the incident id is `inc_` followed by the time in milliseconds. `run` opens every waiting event without suspending in between, so incidents opened within one millisecond share an id. The dict insert drops the older one, which stays open forever. Both tasks then mitigate the newer one. Under asyncio the first task suspends at the fixer's and the verifier's sleeps before it can close the incident, so the two runs interleave: two hypothesis notes, both runs' records, two verdicts with `closed_at` set twice, possibly resolved and then failed, and up to two memory records. Line 38 sets the status without checking it; run one after another, as this model runs tasks, the second run would move the closed incident back to mitigating | two events waiting on the bus, opened within the same millisecond | one incident and one mitigation per event: distinct ids, and an incident's status never leaves resolved or failed | medium, not executed | Orchestration.CollidingIdsDropOlder (the drop, under any schedule); Orchestration.SupervisorAgent.EnterMitigation and Orchestration.SecondMitigationReopens (the unguarded line 38, under the one-after-another schedule) | Orchestration.DistinctIdsKeepEvery, Orchestration.SupervisorAgent.Mitigate |

## Left out

- The language-model branch of the analyzer (agents/analyzer.py:43-45) and core/llm_utils.py: a foreign model call. Only the rule path, taken without a language model, is modelled.
- core/memory.py (embeddings, the FAISS index, saving to disk): `add_incident` is modelled as an appended `MemoryRecord`. The search is the `similar` parameter. The query text and the bound `k=3` are not modelled: only the first result is ever used, and any result list is allowed.
- `SupervisorAgent._log` (agents/supervisor.py:98-102), the JSONL file append: modelled as the ghost sequence `audit` of stage labels. The record payloads and timestamps are not modelled.
- Concurrency: each `_mitigate` task runs as one sequential `Mitigate` call.
  - `Run` opens every queued event before any task runs, as the event loop does while events are waiting.
  - The interleaving of several tasks, and the order their memory and log writes take across incidents, are not modelled.
  - `asyncio.sleep` is left out.
- `subscribe` never returns: it waits forever on an empty queue. `Run` stops once the queued events are drained, and `Consume` returns `None` on an empty queue instead of blocking.
- Randomness and the clock are parameters:
  - `random.random()` in the verifier and in `_kill_top_process` are the `probe` oracle and the `Simulated` kill flag;
  - `time.time()` ids and timestamps are `ids`, `clock`, `closedAt` and `recordedAt`.
- Orchestration.SupervisorAgent.Mitigate: requires the incident to be open. This is the corrected behaviour of the id collision under "## Findings"; in the source a second task runs on the same incident. Only that task's first step (`EnterMitigation`) is modelled. With tasks run one after another, as in this model, it would move the closed incident back to mitigating, and the rest of the second run would repeat the whole mitigation on it. Under asyncio that case does not arise: the first task suspends before it can close the incident, and the two runs interleave at the sleeps (agents/fixer.py:33-46, agents/supervisor.py:78). The incident can then collect two hypothesis notes and both runs' records, end resolved and later failed, and write two memory records. Those interleavings are not modelled, and the lifecycle lemmas hold only for incidents with distinct ids.
- Orchestration.SupervisorAgent.Run: describes the new incidents through `Pending` and `Registering`. It does not restate per element that each incident is newly allocated; `OpenIncident` and `OpenNext` state freshness step by step.
- Floating-point payload values and timestamps (`ts`, `opened_at`, `closed_at` are integers here): a float reading compared with 95, or its decimal rendering, is not modelled.
- Lower-casing is ASCII only. Python's Unicode case mapping is not modelled.
- The Python `repr` text of the memory summary (agents/supervisor.py:62) is kept as structured fields (`Summary`). Lists, dicts and `None` payload values are kept only as their printed text (`Structured`).
- agents/monitor.py (the random event producer) and api/main.py (the HTTP surface) are not part of this model.
- The `Incident` record's defaults that call the clock (`id`, `opened_at`) are constructor parameters.
