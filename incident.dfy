/** The incident record of agents/supervisor.py (lines 8-17) and the action
    records the fixer appends to it. */
module Incidents {
  import opened Basics
  import opened Events

  /** The retry bound: attempts are numbered 1 and 2. */
  const MaxAttempts := 2

  datatype Status = Open | Mitigating | Resolved | Failed

  predicate Terminal(s: Status)
  {
    s == Resolved || s == Failed
  }

  /** The only status changes there are: open to mitigating, then mitigating
      to resolved or failed. */
  predicate Transition(from: Status, to: Status)
  {
    (from == Open && to == Mitigating) || (from == Mitigating && Terminal(to))
  }

  /** The action kinds the fixer can record; `ExceptionRaised` is the
      synthetic record of a sub-action that raised. */
  datatype ActionKind = RestartService | KillTopProcess | ClearTempLogs | CheckHealth | ExceptionRaised

  /** The `action` label of a record. */
  function Label(k: ActionKind): string
  {
    match k
    case RestartService => "restart_service"
    case KillTopProcess => "kill_top_process"
    case ClearTempLogs => "clear_temp_logs"
    case CheckHealth => "check_health"
    case ExceptionRaised => "exception"
  }

  /** Distinct kinds have distinct labels, so comparing labels is comparing
      kinds. The verifier compares `action` labels; `Lifecycle.Verify`
      compares kinds, which this lemma shows decides the same. */
  lemma LabelInjective(k: ActionKind, k': ActionKind)
    ensures Label(k) == Label(k') ==> k == k'
  {
  }

  /** One `{"action", "ok", "details"}` record. */
  datatype ActionRecord = ActionRecord(action: ActionKind, ok: bool, details: map<string, PayloadValue>)

  /** The mutable incident. The id, the event and the opening time never change. */
  class Incident {
    const id: string
    const event: Event
    const openedAt: int
    var status: Status
    var hypothesis: Option<string>
    var attempts: nat
    var actions: seq<ActionRecord>
    var notes: seq<string>
    var closedAt: Option<int>
    /** Every status the incident has had, oldest first. */
    ghost var history: seq<Status>

    /** The lifecycle invariant: the statuses so far form a path of
        transitions from open; the closing time is set exactly when the
        status is terminal; the attempt count stays within the bound; and an
        incident still open has not been touched. */
    ghost predicate Valid()
      reads this
    {
      && Path(history)
      && history[|history| - 1] == status
      && (closedAt.Some? <==> Terminal(status))
      && attempts <= MaxAttempts
      && (status == Open ==> hypothesis == None && attempts == 0 && actions == [] && notes == [])
    }

    /** A new incident for a dequeued event: open, no hypothesis, no attempts,
        no actions or notes, not closed. */
    constructor (id: string, event: Event, openedAt: int)
      ensures Valid()
      ensures this.id == id && this.event == event && this.openedAt == openedAt
      ensures status == Open && hypothesis == None && attempts == 0
      ensures actions == [] && notes == [] && closedAt == None
      ensures history == [Open]
    {
      this.id := id;
      this.event := event;
      this.openedAt := openedAt;
      status := Open;
      hypothesis := None;
      attempts := 0;
      actions := [];
      notes := [];
      closedAt := None;
      history := [Open];
    }
  }

  /** A lifecycle path: it starts open and each status follows from the one before. */
  predicate Path(h: seq<Status>)
  {
    && |h| > 0
    && h[0] == Open
    && (forall i :: 0 < i < |h| ==> Transition(h[i - 1], h[i]))
  }

  /** A path extended by one transition from its last status is a path. */
  lemma PathExtend(h: seq<Status>, s: Status)
    requires Path(h) && Transition(h[|h| - 1], s)
    ensures Path(h + [s])
  {
  }

  /** Once terminal, an incident that keeps its lifecycle invariant has no
      transition left. */
  lemma TerminalIsFinal(s: Status, t: Status)
    requires Terminal(s)
    ensures !Transition(s, t)
  {
  }

  /** Along any path of transitions the status only moves forward, so a
      terminal status is the last one and open is only the first. */
  lemma {:induction false} HistoryMonotonic(h: seq<Status>, i: int, j: int)
    requires Path(h) && 0 <= i < j < |h|
    ensures !Terminal(h[i]) && h[j] != Open
    ensures Rank(h[i]) < Rank(h[j])
    decreases j - i
  {
    if j == i + 1 {
      assert Transition(h[i], h[j]);
    } else {
      HistoryMonotonic(h, i, j - 1);
      assert Transition(h[j - 1], h[j]);
    }
  }

  /** Position of a status along the lifecycle. */
  function Rank(s: Status): nat
  {
    match s
    case Open => 0
    case Mitigating => 1
    case Resolved => 2
    case Failed => 2
  }
}
