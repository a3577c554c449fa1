/** The incident orchestrator of agents/supervisor.py: the registry of
    incidents, the dequeue loop that opens one incident per event, the
    mitigation of one incident, and the listing. Mitigations run one after
    another here; each is proved to follow `Lifecycle.Mitigation`. */
module Orchestration {
  import opened Basics
  import opened Events
  import opened Incidents
  import opened Remediation
  import opened Lifecycle

  /** The summary stored in memory on resolution; its text rendering (the
      Python repr of the payload and of the action list) is not modelled. */
  datatype Summary = Summary(eventType: EventType, payload: Payload, resolvedVia: seq<string>)

  /** One call of the memory's `add_incident`: the summary and its metadata. */
  datatype MemoryRecord = MemoryRecord(summary: Summary, hypothesis: Option<string>, actions: seq<ActionRecord>, ts: int)

  /** The stage labels the audit log receives. */
  datatype Stage =
    | IncidentOpened(id: string)
    | Analyzed(id: string, hypothesis: string)
    | RemediationAttempt(id: string, attempt: nat)
    | ResolvedStage(id: string)
    | EscalatedStage(id: string)

  /** The `action` labels of a list of records, in order. */
  function Labels(actions: seq<ActionRecord>): (names: seq<string>)
    ensures |names| == |actions|
    ensures forall i :: 0 <= i < |actions| ==> names[i] == Label(actions[i].action)
  {
    if actions == [] then [] else [Label(actions[0].action)] + Labels(actions[1..])
  }

  /** The memory after a mitigation ending in `r`: one record appended if
      it resolved, unchanged otherwise. */
  function Remembered(memory: seq<MemoryRecord>, e: Event, analysis: Option<string>, r: Ending, ts: int): seq<MemoryRecord>
  {
    if r.status == Resolved then memory + [MemoryRecord(Summary(e.evtType, e.payload, Labels(r.actions)), analysis, r.actions, ts)]
    else memory
  }

  /** The audit log after attempts 1 to n of incident `id`, starting from `log`. */
  function AttemptsLogged(log: seq<Stage>, id: string, n: nat): seq<Stage>
  {
    if n == 0 then log else AttemptsLogged(log, id, n - 1) + [RemediationAttempt(id, n)]
  }

  /** Attempts 1 to n are logged after `log`, in order, one stage each. */
  lemma {:induction false} AttemptsLoggedShape(log: seq<Stage>, id: string, n: nat)
    ensures |AttemptsLogged(log, id, n)| == |log| + n
    ensures AttemptsLogged(log, id, n)[..|log|] == log
    ensures forall k :: 1 <= k <= n ==> AttemptsLogged(log, id, n)[|log| + k - 1] == RemediationAttempt(id, k)
  {
    if n > 0 {
      AttemptsLoggedShape(log, id, n - 1);
    }
  }

  /** Logging attempts after a longer log only prefixes it. */
  lemma {:induction false} AttemptsLoggedShift(log: seq<Stage>, x: seq<Stage>, id: string, n: nat)
    ensures AttemptsLogged(log + x, id, n) == log + AttemptsLogged(x, id, n)
  {
    if n > 0 {
      AttemptsLoggedShift(log, x, id, n - 1);
      assert log + AttemptsLogged(x, id, n - 1) + [RemediationAttempt(id, n)]
             == log + (AttemptsLogged(x, id, n - 1) + [RemediationAttempt(id, n)]);
    }
  }

  /** The closing stage of a mitigation ending in `r`. */
  function Verdict(id: string, r: Ending): Stage
  {
    if r.status == Resolved then ResolvedStage(id) else EscalatedStage(id)
  }

  /** The audit log after a mitigation ending in `r`, starting from `log`:
      nothing when the analyzer raised, else the analysis, one stage per
      attempt and the verdict. */
  function Logged(log: seq<Stage>, id: string, analysis: Option<string>, r: Ending): seq<Stage>
  {
    match analysis
    case None => log
    case Some(h) => AttemptsLogged(log + [Analyzed(id, h)], id, r.attempts) + [Verdict(id, r)]
  }

  /** The stages one mitigation writes, on their own. */
  function Stages(id: string, analysis: Option<string>, r: Ending): seq<Stage>
  {
    Logged([], id, analysis, r)
  }

  /** A mitigation only appends to the audit log: its own stages, after
      whatever was there. */
  lemma LoggedAppends(log: seq<Stage>, id: string, analysis: Option<string>, r: Ending)
    ensures Logged(log, id, analysis, r) == log + Stages(id, analysis, r)
  {
    if analysis.Some? {
      var a := [Analyzed(id, analysis.value)];
      AttemptsLoggedShift(log, a, id, r.attempts);
      assert [] + a == a;
    }
  }

  /** The stages of a mitigation with hypothesis `h`: the analysis, then
      attempts 1 to `r.attempts` in order, then the verdict, resolved exactly
      when `r` resolved. A mitigation whose analyzer raised logs nothing. */
  lemma StagesShape(id: string, analysis: Option<string>, r: Ending)
    ensures analysis.None? ==> Stages(id, analysis, r) == []
    ensures analysis.Some? ==>
      var s := Stages(id, analysis, r);
      && |s| == r.attempts + 2
      && s[0] == Analyzed(id, analysis.value)
      && (forall k :: 1 <= k <= r.attempts ==> s[k] == RemediationAttempt(id, k))
      && s[|s| - 1] == (if r.status == Resolved then ResolvedStage(id) else EscalatedStage(id))
  {
    if analysis.Some? {
      var a := [Analyzed(id, analysis.value)];
      assert [] + a == a;
      AttemptsLoggedShape(a, id, r.attempts);
      var p := AttemptsLogged(a, id, r.attempts);
      assert p[0] == p[..1][0];
    }
  }

  /** Where an incident stands: its status, attempt counter, actions and notes. */
  function Snapshot(inc: Incident): Ending
    reads inc
  {
    Ending(inc.status, inc.attempts, inc.actions, inc.notes)
  }

  /** The incident stands where the mitigation `Mitigation(...)` ends. */
  ghost predicate Settled(inc: Incident, analysis: Option<string>, env: nat -> SubActions, probe: nat -> bool, closedAt: int)
    reads inc
  {
    && Snapshot(inc) == Mitigation(inc.event, analysis, env, probe)
    && inc.hypothesis == analysis
    && inc.closedAt == (if Terminal(inc.status) then Some(closedAt) else None)
  }

  /** An incident still mitigating after `n` unverified attempts with hypothesis `h`. */
  ghost predicate Unverified(inc: Incident, h: string, env: nat -> SubActions, probe: nat -> bool, n: nat)
    reads inc
  {
    && inc.Valid() && inc.status == Mitigating && inc.hypothesis == Some(h)
    && inc.attempts == n
    && inc.actions == ActionsUpTo(inc.event, h, env, n)
    && inc.notes == NotesUpTo(h, n)
    && (forall k :: 1 <= k <= n ==> !VerifiedAt(inc.event, h, env, probe, k))
  }

  /** A new incident for event `e`, filed under `id` at time `t` and not yet
      touched by its mitigation task. */
  ghost predicate Pending(inc: Incident, e: Event, id: string, t: int)
    reads inc
  {
    && inc.event == e && inc.id == id && inc.openedAt == t
    && inc.status == Open && inc.hypothesis == None && inc.attempts == 0
    && inc.actions == [] && inc.notes == [] && inc.closedAt == None
  }

  /** The registry after inserting `incs` in order under their ids. */
  function Registering(m: map<string, Incident>, incs: seq<Incident>): (r: map<string, Incident>)
    ensures forall k :: k in m ==> k in r
    ensures forall i :: 0 <= i < |incs| ==> incs[i].id in r
    ensures incs != [] ==> r[incs[|incs| - 1].id] == incs[|incs| - 1]
  {
    if incs == [] then m
    else var n := |incs| - 1; Registering(m, incs[..n])[incs[n].id := incs[n]]
  }

  /** The key order after inserting `incs`: a new key goes last, a present
      key keeps its place. */
  function Ordering(order: seq<string>, m: map<string, Incident>, incs: seq<Incident>): (o: seq<string>)
    ensures order <= o && |o| <= |order| + |incs|
  {
    if incs == [] then order
    else
      var n := |incs| - 1;
      var o := Ordering(order, m, incs[..n]);
      if incs[n].id in Registering(m, incs[..n]) then o else o + [incs[n].id]
  }

  /** A dict filled by `incidents[inc.id] = inc` in order: its keys are the
      old keys and the new ids; an id maps to the last incident filed under
      it; a key no new incident uses keeps its old incident. */
  lemma {:induction false} RegisteringLatest(m: map<string, Incident>, incs: seq<Incident>)
    ensures forall k :: k in Registering(m, incs) <==> k in m || exists i :: 0 <= i < |incs| && incs[i].id == k
    ensures forall i :: 0 <= i < |incs| && (forall j :: i < j < |incs| ==> incs[j].id != incs[i].id) ==>
              Registering(m, incs)[incs[i].id] == incs[i]
    ensures forall k :: k in m && (forall i :: 0 <= i < |incs| ==> incs[i].id != k) ==> Registering(m, incs)[k] == m[k]
  {
    if incs != [] {
      var n := |incs| - 1;
      var front := incs[..n];
      RegisteringLatest(m, front);
      assert forall i :: 0 <= i < n ==> front[i] == incs[i];
      forall k ensures k in Registering(m, incs) <==> k in m || exists i :: 0 <= i < |incs| && incs[i].id == k {
        if k in Registering(m, front) && k != incs[n].id && k !in m {
          var i :| 0 <= i < n && front[i].id == k;
          assert incs[i].id == k;
        }
      }
    }
  }

  /** Incident ids have millisecond resolution, so two events opened in the
      same millisecond get the same id: filing both leaves only the newer one
      in the registry, and the older incident can no longer be reached by
      any mitigation task. */
  lemma CollidingIdsDropOlder(m: map<string, Incident>, older: Incident, newer: Incident)
    requires older.id == newer.id && older != newer && older !in m.Values
    ensures Registering(m, [older, newer]) == m[newer.id := newer]
    ensures older !in Registering(m, [older, newer]).Values
  {
    assert [older, newer][..1] == [older];
    assert [older][..0] == [];
    assert Registering(m, [older]) == m[older.id := older];
    assert Registering(m, [older, newer]) == m[older.id := older][newer.id := newer];
  }

  /** With pairwise distinct ids, every incident filed stays in the registry
      under its own id, so each one gets its own mitigation. */
  lemma DistinctIdsKeepEvery(m: map<string, Incident>, incs: seq<Incident>)
    requires forall i, j :: 0 <= i < j < |incs| ==> incs[i].id != incs[j].id
    ensures forall i :: 0 <= i < |incs| ==> Registering(m, incs)[incs[i].id] == incs[i]
  {
    RegisteringLatest(m, incs);
  }

  /** When the two tasks for a colliding id run one after another (the
      schedule of this model), the second finds the incident where the first
      left it, closed, and its first step moves it back to mitigating, a
      change no lifecycle transition allows. Under asyncio the first task
      suspends at the fixer's and the verifier's sleeps before it can close
      the incident, so there the second task's first step meets a mitigating
      incident and the two runs interleave instead. */
  lemma SecondMitigationReopens(e: Event, h: string, env: nat -> SubActions, probe: nat -> bool)
    ensures var first := Mitigation(e, Some(h), env, probe);
      Terminal(first.status) && !Transition(first.status, Mitigating)
  {
    TerminalIsFinal(Mitigation(e, Some(h), env, probe).status, Mitigating);
  }

  /** The audit log after opening n incidents under `ids(0)` to `ids(n - 1)`,
      starting from `log`. */
  function OpenedLogged(log: seq<Stage>, ids: nat -> string, n: nat): seq<Stage>
  {
    if n == 0 then log else OpenedLogged(log, ids, n - 1) + [IncidentOpened(ids(n - 1))]
  }

  /** The incidents opened so far, followed by the next one, are pending. */
  lemma PendingAppend(done: seq<Incident>, inc: Incident, queued: seq<Event>, ids: nat -> string, clock: nat -> int)
    requires |done| < |queued|
    requires forall i {:trigger done[i]} :: 0 <= i < |done| ==> Pending(done[i], queued[i], ids(i), clock(i))
    requires Pending(inc, queued[|done|], ids(|done|), clock(|done|))
    ensures forall i {:trigger (done + [inc])[i]} :: 0 <= i < |done| + 1 ==>
              Pending((done + [inc])[i], queued[i], ids(i), clock(i))
  {
    forall i | 0 <= i < |done| + 1 ensures Pending((done + [inc])[i], queued[i], ids(i), clock(i)) {
      if i < |done| {
        assert (done + [inc])[i] == done[i];
      }
    }
  }

  /** Filing one more incident. */
  lemma FilingStep(m: map<string, Incident>, order: seq<string>, incs: seq<Incident>, inc: Incident)
    ensures Registering(m, incs + [inc]) == Registering(m, incs)[inc.id := inc]
    ensures Ordering(order, m, incs + [inc])
            == if inc.id in Registering(m, incs) then Ordering(order, m, incs) else Ordering(order, m, incs) + [inc.id]
  {
    assert (incs + [inc])[..|incs|] == incs;
  }

  /** No key occurs twice. */
  predicate Distinct(s: seq<string>)
  {
    s == [] || (s[|s| - 1] !in s[..|s| - 1] && Distinct(s[..|s| - 1]))
  }

  /** The registry's values in key order. */
  function ValuesInOrder(m: map<string, Incident>, keys: seq<string>): (vs: seq<Incident>)
    requires forall i :: 0 <= i < |keys| ==> keys[i] in m
    ensures |vs| == |keys|
    ensures forall i :: 0 <= i < |keys| ==> vs[i] == m[keys[i]]
  {
    if keys == [] then [] else [m[keys[0]]] + ValuesInOrder(m, keys[1..])
  }

  predicate NewestFirst(s: seq<Incident>)
  {
    forall i, j :: 0 <= i < j < |s| ==> s[i].openedAt >= s[j].openedAt
  }

  /** The incidents of `s` opened at time `t`, in their order in `s`. */
  function OpenedAtTime(s: seq<Incident>, t: int): seq<Incident>
  {
    if s == [] then [] else (if s[0].openedAt == t then [s[0]] else []) + OpenedAtTime(s[1..], t)
  }

  /** Puts `x` before the first incident opened no later than it. */
  function InsertNewestFirst(x: Incident, s: seq<Incident>): (r: seq<Incident>)
    ensures |r| == |s| + 1 && x in r
    ensures forall y :: y in s ==> y in r
  {
    if s == [] || x.openedAt >= s[0].openedAt then [x] + s
    else [s[0]] + InsertNewestFirst(x, s[1..])
  }

  /** Insertion sort by opening time, newest first; incidents opened at the
      same time keep their order, as Python's stable `sorted` keeps them. */
  function SortNewestFirst(s: seq<Incident>): (r: seq<Incident>)
    ensures |r| == |s|
    ensures forall y :: y in s ==> y in r
  {
    if s == [] then [] else InsertNewestFirst(s[0], SortNewestFirst(s[1..]))
  }

  /** `OpenedAtTime` of the one-element sequence `[x]`. */
  function Selected(x: Incident, t: int): seq<Incident>
  {
    if x.openedAt == t then [x] else []
  }

  lemma {:induction false} OpenedAtCons(x: Incident, s: seq<Incident>, t: int)
    ensures OpenedAtTime([x] + s, t) == Selected(x, t) + OpenedAtTime(s, t)
  {
    assert ([x] + s)[1..] == s;
  }

  lemma {:induction false} InsertPermutes(x: Incident, s: seq<Incident>)
    ensures multiset(InsertNewestFirst(x, s)) == multiset([x] + s)
  {
    if s != [] && x.openedAt < s[0].openedAt {
      InsertPermutes(x, s[1..]);
      assert s == [s[0]] + s[1..];
    }
  }

  lemma {:induction false} InsertSorted(x: Incident, s: seq<Incident>)
    requires NewestFirst(s)
    ensures NewestFirst(InsertNewestFirst(x, s))
  {
    if s != [] && x.openedAt < s[0].openedAt {
      var rest := InsertNewestFirst(x, s[1..]);
      var r := [s[0]] + rest;
      assert InsertNewestFirst(x, s) == r;
      InsertSorted(x, s[1..]);
      InsertBounded(x, s[1..], s[0].openedAt);
      forall i, j | 0 <= i < j < |r| ensures r[i].openedAt >= r[j].openedAt {
        assert r[j] == rest[j - 1];
        if i > 0 {
          assert r[i] == rest[i - 1];
        }
      }
    }
  }

  /** Inserting keeps an upper bound on the opening times. */
  lemma {:induction false} InsertBounded(x: Incident, s: seq<Incident>, b: int)
    requires x.openedAt <= b && forall i :: 0 <= i < |s| ==> s[i].openedAt <= b
    ensures forall i :: 0 <= i < |InsertNewestFirst(x, s)| ==> InsertNewestFirst(x, s)[i].openedAt <= b
  {
    if s != [] && x.openedAt < s[0].openedAt {
      InsertBounded(x, s[1..], b);
    }
  }

  lemma {:induction false} InsertStable(x: Incident, s: seq<Incident>, t: int)
    ensures OpenedAtTime(InsertNewestFirst(x, s), t) == OpenedAtTime([x] + s, t)
  {
    if s != [] && x.openedAt < s[0].openedAt {
      var rest := InsertNewestFirst(x, s[1..]);
      var tail := s[1..];
      assert s == [s[0]] + tail;
      assert Selected(s[0], t) + Selected(x, t) == Selected(x, t) + Selected(s[0], t) by {
        assert Selected(s[0], t) == [] || Selected(x, t) == [];
      }
      calc {
        OpenedAtTime(InsertNewestFirst(x, s), t);
        { assert InsertNewestFirst(x, s) == [s[0]] + rest; }
        OpenedAtTime([s[0]] + rest, t);
        { OpenedAtCons(s[0], rest, t); }
        Selected(s[0], t) + OpenedAtTime(rest, t);
        { InsertStable(x, tail, t); OpenedAtCons(x, tail, t); }
        Selected(s[0], t) + (Selected(x, t) + OpenedAtTime(tail, t));
        Selected(x, t) + (Selected(s[0], t) + OpenedAtTime(tail, t));
        { OpenedAtCons(s[0], tail, t); }
        Selected(x, t) + OpenedAtTime(s, t);
        { OpenedAtCons(x, s, t); }
        OpenedAtTime([x] + s, t);
      }
    }
  }

  /** The listing is a permutation of its input. */
  lemma {:induction false} SortPermutes(s: seq<Incident>)
    ensures multiset(SortNewestFirst(s)) == multiset(s)
  {
    if s != [] {
      SortPermutes(s[1..]);
      InsertPermutes(s[0], SortNewestFirst(s[1..]));
      assert s == [s[0]] + s[1..];
    }
  }

  /** The listing is newest first. */
  lemma {:induction false} SortSorted(s: seq<Incident>)
    ensures NewestFirst(SortNewestFirst(s))
  {
    if s != [] {
      SortSorted(s[1..]);
      InsertSorted(s[0], SortNewestFirst(s[1..]));
    }
  }

  /** The listing is stable: the incidents opened at any one time appear in
      their input order. */
  lemma {:induction false} SortStable(s: seq<Incident>, t: int)
    ensures OpenedAtTime(SortNewestFirst(s), t) == OpenedAtTime(s, t)
  {
    if s != [] {
      SortStable(s[1..], t);
      InsertStable(s[0], SortNewestFirst(s[1..]), t);
      OpenedAtCons(s[0], SortNewestFirst(s[1..]), t);
      OpenedAtCons(s[0], s[1..], t);
      assert s == [s[0]] + s[1..];
    }
  }

  class SupervisorAgent {
    const bus: EventBus
    /** The registry, keyed by incident id. */
    var incidents: map<string, Incident>
    /** The registry's keys in insertion order, the order a Python dict keeps. */
    var order: seq<string>
    /** Every call made to the memory's `add_incident`, in order. */
    var memory: seq<MemoryRecord>
    /** The stages written to the audit log, in order. */
    ghost var audit: seq<Stage>

    /** `order` lists every key of the registry exactly once. */
    predicate OrderMatches()
      reads this
    {
      && (forall i :: 0 <= i < |order| ==> order[i] in incidents)
      && (forall k :: k in incidents ==> k in order)
      && Distinct(order)
    }

    /** Every incident is filed under its own id and keeps its lifecycle invariant. */
    ghost predicate Valid()
      reads this, incidents.Values
    {
      && OrderMatches()
      && (forall k :: k in incidents ==> incidents[k].id == k && incidents[k].Valid())
    }

    constructor (bus: EventBus)
      ensures Valid() && this.bus == bus
      ensures incidents == map[] && order == [] && memory == [] && audit == []
    {
      this.bus := bus;
      incidents := map[];
      order := [];
      memory := [];
      audit := [];
    }

    /** The body of the dequeue loop for one event: a new open incident,
        filed under its id. An incident already filed under the same id is
        replaced and keeps its place in the key order. */
    method OpenIncident(evt: Event, id: string, openedAt: int) returns (inc: Incident)
      requires Valid()
      modifies this
      ensures Valid() && fresh(inc)
      ensures inc.id == id && inc.event == evt && inc.openedAt == openedAt
      ensures inc.status == Open && inc.hypothesis == None && inc.attempts == 0
      ensures inc.actions == [] && inc.notes == [] && inc.closedAt == None
      ensures incidents == old(incidents)[id := inc]
      ensures order == if id in old(incidents) then old(order) else old(order) + [id]
      ensures memory == old(memory) && audit == old(audit) + [IncidentOpened(id)]
    {
      inc := new Incident(id, evt, openedAt);
      if id !in incidents {
        ghost var prev := order;
        order := order + [id];
        assert order[..|prev|] == prev;
      }
      incidents := incidents[id := inc];
      audit := audit + [IncidentOpened(id)];
      forall k | k in incidents ensures incidents[k].id == k && incidents[k].Valid() {
        if k != id {
          assert incidents[k] == old(incidents)[k];
        }
      }
    }

    /** The first step of a mitigation task as written (agents/supervisor.py:37-38):
        the incident filed under `id` is set to mitigating whatever its
        status. `Mitigate` takes this step only for an open incident. */
    method EnterMitigation(id: string) returns (before: Status)
      requires id in incidents
      modifies incidents[id]
      ensures before == old(incidents[id].status) && incidents[id].status == Mitigating
      ensures Terminal(before) ==> !Transition(before, incidents[id].status)
      ensures incidents[id].notes == old(incidents[id].notes) && incidents[id].actions == old(incidents[id].actions)
      ensures incidents[id].closedAt == old(incidents[id].closedAt) && incidents[id].attempts == old(incidents[id].attempts)
      ensures incidents[id].hypothesis == old(incidents[id].hypothesis) && incidents[id].history == old(incidents[id].history)
    {
      var inc := incidents[id];
      before := inc.status;
      inc.status := Mitigating;
      if Terminal(before) {
        TerminalIsFinal(before, Mitigating);
      }
    }

    /** Drives the incident filed under `id` from open to its end: the
        analyzer's hypothesis, then at most two attempts, each a fixer call
        followed by verification, then resolution (recorded into memory) or
        escalation. Only that incident, the memory and the audit log change;
        the incident ends where `Mitigation` says. */
    method Mitigate(id: string, analyze: Event -> Option<string>, env: nat -> SubActions, probe: nat -> bool,
                    closedAt: int, recordedAt: int)
      requires Valid() && id in incidents && incidents[id].status == Open
      modifies this, incidents[id]
      ensures Valid()
      ensures incidents == old(incidents) && order == old(order)
      ensures Settled(incidents[id], analyze(incidents[id].event), env, probe, closedAt)
      ensures var e := incidents[id].event; var r := Mitigation(e, analyze(e), env, probe);
        && memory == Remembered(old(memory), e, analyze(e), r, recordedAt)
        && audit == Logged(old(audit), id, analyze(e), r)
    {
      var inc := incidents[id];
      Drive(inc, analyze(inc.event), env, probe, closedAt, recordedAt);
      forall k | k in incidents ensures incidents[k].Valid() {
        if k != id {
          assert incidents[k] != inc;
        }
      }
    }

    /** The mitigation task's work on the incident itself, given the
        analyzer's answer `analysis`: the incident moves to mitigating, then
        follows the hypothesis through the attempt loop. */
    method Drive(inc: Incident, analysis: Option<string>, env: nat -> SubActions, probe: nat -> bool,
                 closedAt: int, recordedAt: int)
      requires inc.Valid() && inc.status == Open
      modifies this`memory, this`audit, inc
      ensures inc.Valid() && Settled(inc, analysis, env, probe, closedAt)
      ensures var r := Mitigation(inc.event, analysis, env, probe);
        && memory == Remembered(old(memory), inc.event, analysis, r, recordedAt)
        && audit == Logged(old(audit), inc.id, analysis, r)
    {
      inc.status := Mitigating;
      PathExtend(inc.history, Mitigating);
      inc.history := inc.history + [Mitigating];
      if analysis.Some? {
        var h := analysis.value;
        inc.hypothesis := Some(h);
        inc.notes := inc.notes + [HypothesisNote(h)];
        audit := audit + [Analyzed(inc.id, h)];
        Attempts(inc, h, env, probe, closedAt, recordedAt);
      }
    }

    /** The attempt loop of a mitigation with hypothesis `h`: each attempt
        calls the fixer and then the verifier; the first verified attempt
        resolves the incident; two unverified attempts escalate it. */
    method Attempts(inc: Incident, h: string, env: nat -> SubActions, probe: nat -> bool, closedAt: int, recordedAt: int)
      requires inc.Valid() && inc.status == Mitigating && inc.hypothesis == Some(h)
      requires inc.attempts == 0 && inc.actions == [] && inc.notes == [HypothesisNote(h)]
      modifies this`memory, this`audit, inc
      ensures inc.Valid()
      ensures Snapshot(inc) == Mitigation(inc.event, Some(h), env, probe)
      ensures inc.hypothesis == Some(h) && inc.closedAt == Some(closedAt)
      ensures memory == Remembered(old(memory), inc.event, Some(h), Snapshot(inc), recordedAt)
      ensures audit == AttemptsLogged(old(audit), inc.id, inc.attempts) + [Verdict(inc.id, Snapshot(inc))]
    {
      for attempt := 1 to MaxAttempts + 1
        invariant Unverified(inc, h, env, probe, attempt - 1)
        invariant memory == old(memory) && audit == AttemptsLogged(old(audit), inc.id, attempt - 1)
      {
        var done := Try(inc, h, env, probe, attempt, closedAt, recordedAt, old(audit));
        if done {
          return;
        }
      }
      EscalatesWhenNoneVerified(inc.event, h, env, probe);
      Escalate(inc, closedAt);
    }

    /** The body of the attempt loop for attempt number `attempt`, after
        `attempt - 1` unverified ones: the attempt, then resolution when it
        verifies, else the retry note. `log` is the audit log before the
        first attempt. */
    method Try(inc: Incident, h: string, env: nat -> SubActions, probe: nat -> bool, attempt: nat,
               closedAt: int, recordedAt: int, ghost log: seq<Stage>) returns (done: bool)
      requires 1 <= attempt <= MaxAttempts && Unverified(inc, h, env, probe, attempt - 1)
      requires audit == AttemptsLogged(log, inc.id, attempt - 1)
      modifies this`memory, this`audit, inc
      ensures done <==> VerifiedAt(inc.event, h, env, probe, attempt)
      ensures done ==> && inc.Valid()
                       && Snapshot(inc) == Mitigation(inc.event, Some(h), env, probe)
                       && inc.hypothesis == Some(h) && inc.closedAt == Some(closedAt)
                       && memory == Remembered(old(memory), inc.event, Some(h), Snapshot(inc), recordedAt)
                       && audit == AttemptsLogged(log, inc.id, inc.attempts) + [Verdict(inc.id, Snapshot(inc))]
      ensures !done ==> && Unverified(inc, h, env, probe, attempt)
                        && memory == old(memory) && audit == AttemptsLogged(log, inc.id, attempt)
    {
      done := Attempt(inc, env(attempt), probe(attempt), attempt);
      if done {
        ResolvesAtFirstVerified(inc.event, h, env, probe, attempt);
        Resolve(inc, closedAt, recordedAt);
      } else {
        Retry(inc, h, env, probe, attempt);
      }
    }

    /** An unverified attempt: the retry note is appended. */
    method Retry(inc: Incident, h: string, env: nat -> SubActions, probe: nat -> bool, attempt: nat)
      requires 1 <= attempt <= MaxAttempts && inc.Valid() && inc.status == Mitigating && inc.hypothesis == Some(h)
      requires inc.attempts == attempt && inc.actions == ActionsUpTo(inc.event, h, env, attempt)
      requires inc.notes == NotesUpTo(h, attempt - 1)
      requires forall k :: 1 <= k <= attempt ==> !VerifiedAt(inc.event, h, env, probe, k)
      modifies inc
      ensures Unverified(inc, h, env, probe, attempt)
      ensures inc.history == old(inc.history) && inc.closedAt == old(inc.closedAt)
    {
      inc.notes := inc.notes + [RetryNote(attempt)];
    }

    /** One attempt: the attempt counter moves to `attempt`, the fixer's
        records are appended, and the verifier judges all records so far. */
    method Attempt(inc: Incident, env: SubActions, probe: bool, attempt: nat) returns (ok: bool)
      requires inc.Valid() && inc.status == Mitigating && attempt <= MaxAttempts
      modifies this`audit, inc
      ensures inc.Valid()
      ensures inc.status == old(inc.status) && inc.history == old(inc.history)
      ensures inc.hypothesis == old(inc.hypothesis) && inc.notes == old(inc.notes) && inc.closedAt == old(inc.closedAt)
      ensures inc.attempts == attempt
      ensures inc.actions == old(inc.actions) + [Outcome(inc.event, inc.hypothesis, env)]
      ensures ok == Verify(inc.event, inc.actions, probe)
      ensures audit == old(audit) + [RemediationAttempt(inc.id, attempt)]
    {
      inc.attempts := attempt;
      var result := Execute(inc, env);
      inc.actions := inc.actions + result.actions;
      audit := audit + [RemediationAttempt(inc.id, attempt)];
      ok := Verify(inc.event, inc.actions, probe);
    }

    /** Resolution: the incident is closed as resolved, noted as verified,
        and its summary is recorded into memory. */
    method Resolve(inc: Incident, closedAt: int, recordedAt: int)
      requires inc.Valid() && inc.status == Mitigating
      modifies this`memory, this`audit, inc
      ensures inc.Valid()
      ensures inc.status == Resolved && inc.closedAt == Some(closedAt)
      ensures inc.history == old(inc.history) + [Resolved]
      ensures inc.notes == old(inc.notes) + [VerifiedNote]
      ensures inc.hypothesis == old(inc.hypothesis) && inc.attempts == old(inc.attempts) && inc.actions == old(inc.actions)
      ensures audit == old(audit) + [Verdict(inc.id, Snapshot(inc))]
      ensures memory == Remembered(old(memory), inc.event, inc.hypothesis, Snapshot(inc), recordedAt)
    {
      inc.status := Resolved;
      PathExtend(inc.history, Resolved);
      inc.history := inc.history + [Resolved];
      inc.closedAt := Some(closedAt);
      inc.notes := inc.notes + [VerifiedNote];
      audit := audit + [ResolvedStage(inc.id)];
      memory := memory + [MemoryRecord(Summary(inc.event.evtType, inc.event.payload, Labels(inc.actions)),
                                       inc.hypothesis, inc.actions, recordedAt)];
    }

    /** Escalation: the incident is closed as failed and noted as escalated. */
    method Escalate(inc: Incident, closedAt: int)
      requires inc.Valid() && inc.status == Mitigating
      modifies this`audit, inc
      ensures inc.Valid()
      ensures inc.status == Failed && inc.closedAt == Some(closedAt)
      ensures inc.history == old(inc.history) + [Failed]
      ensures inc.notes == old(inc.notes) + [EscalationNote]
      ensures inc.hypothesis == old(inc.hypothesis) && inc.attempts == old(inc.attempts) && inc.actions == old(inc.actions)
      ensures audit == old(audit) + [Verdict(inc.id, Snapshot(inc))]
    {
      inc.status := Failed;
      PathExtend(inc.history, Failed);
      inc.history := inc.history + [Failed];
      inc.closedAt := Some(closedAt);
      inc.notes := inc.notes + [EscalationNote];
      audit := audit + [EscalatedStage(inc.id)];
    }

    /** The dequeue loop over the events queued so far: each event, in FIFO
        order, gets a new open incident, filed under `ids(i)` at time
        `clock(i)`, whose mitigation is scheduled as a task of its own (see
        `Mitigate`). No task starts while events are waiting, so the loop
        opens every queued event before any mitigation runs. (The loop itself
        never ends: on an empty queue it waits, which is where this model stops.) */
    method Run(ids: nat -> string, clock: nat -> int) returns (incs: seq<Incident>)
      requires Valid() && bus.Valid()
      modifies this, bus
      ensures Valid() && bus.Valid()
      ensures bus.queue == [] && bus.published == old(bus.published)
      ensures bus.delivered == old(bus.delivered) + old(bus.queue)
      ensures |incs| == |old(bus.queue)|
      ensures forall i :: 0 <= i < |incs| ==> Pending(incs[i], old(bus.queue)[i], ids(i), clock(i))
      ensures incidents == Registering(old(incidents), incs)
      ensures order == Ordering(old(order), old(incidents), incs)
      ensures memory == old(memory) && audit == OpenedLogged(old(audit), ids, |incs|)
    {
      ghost var queued := bus.queue;
      incs := [];
      while bus.queue != []
        invariant Valid() && bus.Valid()
        invariant |incs| <= |queued|
        invariant bus.queue == queued[|incs|..] && bus.published == old(bus.published)
        invariant forall i {:trigger incs[i]} :: 0 <= i < |incs| ==> Pending(incs[i], queued[i], ids(i), clock(i))
        invariant incidents == Registering(old(incidents), incs)
        invariant order == Ordering(old(order), old(incidents), incs)
        invariant memory == old(memory) && audit == OpenedLogged(old(audit), ids, |incs|)
        decreases |bus.queue|
      {
        var inc := OpenNext(ids, clock, queued, incs);
        FilingStep(old(incidents), old(order), incs, inc);
        incs := incs + [inc];
      }
    }

    /** One turn of the dequeue loop, after the incidents `done` were opened
        for the first events of `queued`: the next event is delivered and gets
        a new open incident, filed under `ids(|done|)` at time `clock(|done|)`.
        The incidents opened before are not touched. */
    method OpenNext(ids: nat -> string, clock: nat -> int, ghost queued: seq<Event>, done: seq<Incident>)
      returns (inc: Incident)
      requires Valid() && bus.Valid()
      requires |done| < |queued| && bus.queue == queued[|done|..]
      requires forall i {:trigger done[i]} :: 0 <= i < |done| ==> Pending(done[i], queued[i], ids(i), clock(i))
      modifies this, bus
      ensures Valid() && bus.Valid() && fresh(inc)
      ensures bus.queue == queued[|done| + 1..] && bus.published == old(bus.published)
      ensures forall i {:trigger (done + [inc])[i]} :: 0 <= i < |done| + 1 ==>
                Pending((done + [inc])[i], queued[i], ids(i), clock(i))
      ensures incidents == old(incidents)[inc.id := inc] && inc.id == ids(|done|)
      ensures order == if inc.id in old(incidents) then old(order) else old(order) + [inc.id]
      ensures memory == old(memory) && audit == old(audit) + [IncidentOpened(inc.id)]
    {
      DropNext(queued, |done|);
      var evt := bus.Consume();
      inc := OpenIncident(evt.value, ids(|done|), clock(|done|));
      PendingAppend(done, inc, queued, ids, clock);
    }

    /** All filed incidents, newest first; incidents opened at the same time
        keep their filing order. Nothing changes. */
    function ListIncidents(): (r: seq<Incident>)
      reads this
      requires OrderMatches()
      ensures NewestFirst(r)
      ensures multiset(r) == multiset(ValuesInOrder(incidents, order))
      ensures forall i :: 0 <= i < |r| ==> r[i] in incidents.Values
      ensures forall k :: k in incidents ==> incidents[k] in r
      ensures forall t :: OpenedAtTime(r, t) == OpenedAtTime(ValuesInOrder(incidents, order), t)
    {
      Listing(incidents, order);
      SortNewestFirst(ValuesInOrder(incidents, order))
    }
  }

  /** The properties of the listing of a registry `m` with key order `order`. */
  lemma Listing(m: map<string, Incident>, order: seq<string>)
    requires forall i :: 0 <= i < |order| ==> order[i] in m
    requires forall k :: k in m ==> k in order
    ensures var r := SortNewestFirst(ValuesInOrder(m, order));
      && NewestFirst(r)
      && multiset(r) == multiset(ValuesInOrder(m, order))
      && (forall i :: 0 <= i < |r| ==> r[i] in m.Values)
      && (forall k :: k in m ==> m[k] in r)
      && (forall t :: OpenedAtTime(r, t) == OpenedAtTime(ValuesInOrder(m, order), t))
  {
    var vs := ValuesInOrder(m, order);
    var r := SortNewestFirst(vs);
    SortPermutes(vs);
    SortSorted(vs);
    forall t ensures OpenedAtTime(r, t) == OpenedAtTime(vs, t) {
      SortStable(vs, t);
    }
    forall k | k in m ensures m[k] in r {
      var i :| 0 <= i < |order| && order[i] == k;
      assert vs[i] == m[k];
      assert m[k] in multiset(vs);
    }
    forall i | 0 <= i < |r| ensures r[i] in m.Values {
      assert r[i] in multiset(vs);
      var j :| 0 <= j < |vs| && vs[j] == r[i];
      assert m[order[j]] == r[i];
    }
  }
}
