/** Activation-owned trees of reversible effects and their resumable teardown.

    A scope owns its cleanup entries and child scopes uniquely, so a subtree is a
    value held inside its parent.  Callbacks, cleanup futures and the activity
    drain are oracles: a finite number of Pending answers, then an answer. */
module EffectScopes {
  import opened Common

  // ---------------------------------------------------------------------
  // Reports
  // ---------------------------------------------------------------------

  datatype RegistrationId = RegistrationId(scope: nat, sequence: nat)

  datatype FailureKind = ReturnedError | Panicked

  datatype Outcome = Succeeded | Failed(kind: FailureKind)

  datatype CloseStep =
    | Cleanup(id: RegistrationId, outcome: Outcome)
    | ChildClosed(report: Report, alreadyClosed: bool)

  datatype Report = Report(scope: nat, steps: seq<CloseStep>)

  function StepFailures(step: CloseStep): nat
    decreases step
  {
    match step
    case Cleanup(_, outcome) => if outcome.Failed? then 1 else 0
    case ChildClosed(report, _) => FailureCount(report.steps)
  }

  function FailureCount(steps: seq<CloseStep>): nat
    decreases steps
  {
    if steps == [] then 0 else StepFailures(steps[0]) + FailureCount(steps[1..])
  }

  predicate IsClean(report: Report) { FailureCount(report.steps) == 0 }

  // ---------------------------------------------------------------------
  // Scopes
  // ---------------------------------------------------------------------

  /** What a callback, or the last poll of its future, does. */
  datatype Answer = ReturnsOk | ReturnsError | Panics

  datatype Entry =
    | Sync(id: RegistrationId, answer: Answer)
    | Async(id: RegistrationId, callPanics: bool, pending: nat, answer: Answer, dropPanics: bool)
    | Child(scope: Scope)

  datatype Current =
    | Polling(id: RegistrationId, pending: nat, answer: Answer, dropPanics: bool)
    | Closing(scope: Scope, alreadyClosed: bool)

  datatype Storage =
    | Open(entries: seq<Entry>)
    | Draining(drain: Option<nat>, remaining: seq<Entry>, current: Option<Current>, steps: seq<CloseStep>)
    | Closed(report: Report)

  /** `drain` is the number of Pending answers the scope's activity drain will give. */
  datatype Scope = Scope(id: nat, next: nat, drain: nat, storage: Storage)

  function OutcomeOf(answer: Answer): Outcome {
    match answer
    case ReturnsOk => Succeeded
    case ReturnsError => Failed(ReturnedError)
    case Panics => Failed(Panicked)
  }

  /** A panic while destroying the finished future overrides its outcome. */
  function AfterDrop(outcome: Outcome, dropPanics: bool): Outcome {
    if dropPanics then Failed(Panicked) else outcome
  }

  function Begin(s: Scope): Scope {
    if s.storage.Open? then s.(storage := Draining(Some(s.drain), s.storage.entries, None, [])) else s
  }

  // ---------------------------------------------------------------------
  // What a teardown owes: its report, its callbacks and its Pending answers
  // ---------------------------------------------------------------------

  /** The report this scope's teardown is bound to end with. */
  function Promised(s: Scope): Report
    decreases s
  {
    match s.storage
    case Open(entries) => Report(s.id, StepsOf(entries))
    case Draining(_, remaining, current, steps) => Report(s.id, steps + CurrentSteps(current) + StepsOf(remaining))
    case Closed(report) => report
  }

  function CurrentSteps(current: Option<Current>): seq<CloseStep>
    decreases current
  {
    if current.None? then []
    else match current.value
         case Polling(id, _, answer, dropPanics) => [Cleanup(id, AfterDrop(OutcomeOf(answer), dropPanics))]
         case Closing(scope, alreadyClosed) => [ChildClosed(Promised(scope), alreadyClosed)]
  }

  function StepOf(entry: Entry): CloseStep
    decreases entry
  {
    match entry
    case Sync(id, answer) => Cleanup(id, OutcomeOf(answer))
    case Async(id, callPanics, _, answer, dropPanics) =>
      Cleanup(id, if callPanics then Failed(Panicked) else AfterDrop(OutcomeOf(answer), dropPanics))
    case Child(scope) => ChildClosed(Promised(scope), scope.storage.Closed?)
  }

  /** Last registered first. */
  function StepsOf(entries: seq<Entry>): seq<CloseStep>
    decreases entries
  {
    if entries == [] then []
    else [StepOf(entries[|entries| - 1])] + StepsOf(entries[..|entries| - 1])
  }

  /** Registrations whose callbacks have not been invoked, in the order a teardown will invoke them. */
  function Uninvoked(s: Scope): seq<RegistrationId>
    decreases s
  {
    match s.storage
    case Open(entries) => UninvokedAll(entries)
    case Draining(_, remaining, current, _) => UninvokedCurrent(current) + UninvokedAll(remaining)
    case Closed(_) => []
  }

  function UninvokedCurrent(current: Option<Current>): seq<RegistrationId>
    decreases current
  {
    if current.Some? && current.value.Closing? then Uninvoked(current.value.scope) else []
  }

  function UninvokedEntry(entry: Entry): seq<RegistrationId>
    decreases entry
  {
    match entry
    case Sync(id, _) => [id]
    case Async(id, _, _, _, _) => [id]
    case Child(scope) => Uninvoked(scope)
  }

  function UninvokedAll(entries: seq<Entry>): seq<RegistrationId>
    decreases entries
  {
    if entries == [] then []
    else UninvokedEntry(entries[|entries| - 1]) + UninvokedAll(entries[..|entries| - 1])
  }

  /** Pending answers still to come. */
  function PendingLeft(s: Scope): nat
    decreases s
  {
    match s.storage
    case Open(entries) => s.drain + PendingAll(entries)
    case Draining(drain, remaining, current, _) =>
      (if drain.Some? then drain.value else 0) + PendingCurrent(current) + PendingAll(remaining)
    case Closed(_) => 0
  }

  function PendingCurrent(current: Option<Current>): nat
    decreases current
  {
    if current.None? then 0
    else match current.value
         case Polling(_, pending, _, _) => pending
         case Closing(scope, _) => PendingLeft(scope)
  }

  function PendingEntry(entry: Entry): nat
    decreases entry
  {
    match entry
    case Sync(_, _) => 0
    case Async(_, callPanics, pending, _, _) => if callPanics then 0 else pending
    case Child(scope) => PendingLeft(scope)
  }

  function PendingAll(entries: seq<Entry>): nat
    decreases entries
  {
    if entries == [] then 0
    else PendingEntry(entries[|entries| - 1]) + PendingAll(entries[..|entries| - 1])
  }

  /** Loop turns a teardown may still take. */
  function Turns(s: Scope): nat
    decreases s
  {
    match s.storage
    case Open(entries) => 1 + TurnsAll(entries)
    case Draining(_, remaining, current, _) => 1 + TurnsCurrent(current) + TurnsAll(remaining)
    case Closed(_) => 0
  }

  function TurnsCurrent(current: Option<Current>): nat
    decreases current
  {
    if current.None? then 0
    else match current.value
         case Polling(_, _, _, _) => 1
         case Closing(scope, _) => 1 + Turns(scope)
  }

  function TurnsEntry(entry: Entry): nat
    decreases entry
  {
    match entry
    case Sync(_, _) => 1
    case Async(_, _, _, _, _) => 2
    case Child(scope) => 2 + Turns(scope)
  }

  function TurnsAll(entries: seq<Entry>): nat
    decreases entries
  {
    if entries == [] then 0
    else TurnsEntry(entries[|entries| - 1]) + TurnsAll(entries[..|entries| - 1])
  }

  // ---------------------------------------------------------------------
  // One poll of the teardown
  // ---------------------------------------------------------------------

  datatype Poll<+T> = Pending | Ready(value: T)

  /** Poll the drain once; a drain that has answered is not polled again. */
  function PollDrain(drain: Option<nat>): (Poll<()>, Option<nat>) {
    if drain.None? then (Ready(()), None)
    else if drain.value == 0 then (Ready(()), None)
    else (Pending, Some(drain.value - 1))
  }

  /** Activity was admitted before the close and has not drained. */
  predicate AwaitsDrain(s: Scope) {
    match s.storage
    case Open(_) => s.drain > 0
    case Draining(drain, _, _, _) => drain.Some? && drain.value > 0
    case Closed(_) => false
  }

  /** What one poll of a scope's teardown does, whatever was done before it:
      the promised report never changes, callbacks are invoked in the promised
      order and each one once, a poll answers Pending exactly when Pending
      answers are left and then uses up exactly one, and no callback runs
      before the drain. */
  ghost predicate PollResult(s: Scope, s': Scope, poll: Poll<Report>, invoked: seq<RegistrationId>) {
    && s'.id == s.id && s'.next == s.next
    && Promised(s') == Promised(s)
    && invoked + Uninvoked(s') == Uninvoked(s)
    && (AwaitsDrain(s) ==> invoked == [] && poll.Pending?)
    && match poll
       case Pending => s'.storage.Draining? && PendingLeft(s) > 0 && PendingLeft(s') == PendingLeft(s) - 1
       case Ready(report) => s'.storage == Closed(report) && report == Promised(s) && PendingLeft(s) == 0
  }

  lemma BeginKeeps(s: Scope)
    ensures Promised(Begin(s)) == Promised(s) && Uninvoked(Begin(s)) == Uninvoked(s)
    ensures PendingLeft(Begin(s)) == PendingLeft(s) && Turns(Begin(s)) == Turns(s)
  {
    if s.storage.Open? {
      var es := s.storage.entries;
      assert CurrentSteps(None) == [] && [] + [] + StepsOf(es) == StepsOf(es);
      assert UninvokedCurrent(None) == [] && [] + UninvokedAll(es) == UninvokedAll(es);
      assert PendingCurrent(None) == 0 && TurnsCurrent(None) == 0;
    }
  }

  /** Handing over the last entry moves what it owes into the records of the scope. */
  lemma PopKeeps(s: Scope, s': Scope, invoked: seq<RegistrationId>)
    requires s.storage.Draining? && s.storage.current.None? && s.storage.remaining != []
    requires s'.storage.Draining? && s'.id == s.id && s'.storage.drain == s.storage.drain
    requires s'.storage.remaining == s.storage.remaining[..|s.storage.remaining| - 1]
    requires var entry := s.storage.remaining[|s.storage.remaining| - 1];
             && s'.storage.steps + CurrentSteps(s'.storage.current) == s.storage.steps + [StepOf(entry)]
             && invoked + UninvokedCurrent(s'.storage.current) == UninvokedEntry(entry)
             && PendingCurrent(s'.storage.current) == PendingEntry(entry)
             && TurnsCurrent(s'.storage.current) < TurnsEntry(entry)
    ensures Promised(s') == Promised(s)
    ensures invoked + Uninvoked(s') == Uninvoked(s)
    ensures PendingLeft(s') == PendingLeft(s) && Turns(s') < Turns(s)
  {
    var last := |s.storage.remaining| - 1;
    var entry, rest := s.storage.remaining[last], s.storage.remaining[..last];
    assert s.storage.steps + CurrentSteps(None) + StepsOf(s.storage.remaining)
        == s.storage.steps + [StepOf(entry)] + StepsOf(rest);
    assert UninvokedCurrent(None) + UninvokedAll(s.storage.remaining)
        == UninvokedEntry(entry) + UninvokedAll(rest);
  }

  /** Take the last remaining entry: run it, or make it the current cleanup. */
  method PopEntry(s: Scope) returns (s': Scope, invoked: seq<RegistrationId>)
    requires s.storage.Draining? && s.storage.current.None? && s.storage.remaining != []
    ensures s'.id == s.id && s'.next == s.next && s'.storage.Draining?
    ensures Promised(s') == Promised(s)
    ensures invoked + Uninvoked(s') == Uninvoked(s)
    ensures PendingLeft(s') == PendingLeft(s) && Turns(s') < Turns(s)
  {
    var last := |s.storage.remaining| - 1;
    var entry := s.storage.remaining[last];
    var storage := s.storage.(remaining := s.storage.remaining[..last]);
    match entry {
      case Sync(id, answer) =>
        invoked, storage := [id], storage.(steps := storage.steps + [Cleanup(id, OutcomeOf(answer))]);
      case Async(id, callPanics, pending, answer, dropPanics) =>
        invoked := [id];
        if callPanics {
          storage := storage.(steps := storage.steps + [Cleanup(id, Failed(Panicked))]);
        } else {
          storage := storage.(current := Some(Polling(id, pending, answer, dropPanics)));
        }
      case Child(child) =>
        BeginKeeps(child);
        invoked, storage := [], storage.(current := Some(Closing(Begin(child), child.storage.Closed?)));
    }
    s' := s.(storage := storage);
    PopKeeps(s, s', invoked);
  }

  /** Recording the step of the current cleanup keeps the promise. */
  lemma SettleKeeps(s: Scope, step: CloseStep)
    requires s.storage.Draining? && s.storage.current.Some?
    requires CurrentSteps(s.storage.current) == [step] && PendingCurrent(s.storage.current) == 0
    ensures var s' := s.(storage := s.storage.(current := None, steps := s.storage.steps + [step]));
            && Promised(s') == Promised(s) && PendingLeft(s') == PendingLeft(s) && Turns(s') < Turns(s)
            && UninvokedCurrent(s.storage.current) + Uninvoked(s') == Uninvoked(s)
  {
    assert TurnsCurrent(s.storage.current) >= 1;
    assert s.storage.steps + [step] + CurrentSteps(None) == s.storage.steps + [step];
    assert UninvokedCurrent(None) + UninvokedAll(s.storage.remaining) == UninvokedAll(s.storage.remaining);
  }

  method PollClose(scope: Scope) returns (s: Scope, poll: Poll<Report>, invoked: seq<RegistrationId>)
    ensures PollResult(scope, s, poll, invoked)
    decreases Turns(scope), 3
  {
    s, invoked := Begin(scope), [];
    BeginKeeps(scope);
    while true
      invariant s.id == scope.id && s.next == scope.next && !s.storage.Open?
      invariant Promised(s) == Promised(scope)
      invariant invoked + Uninvoked(s) == Uninvoked(scope)
      invariant PendingLeft(s) == PendingLeft(scope)
      invariant Turns(s) <= Turns(scope)
      invariant AwaitsDrain(scope) ==> s == Begin(scope) && invoked == []
      decreases Turns(s)
    {
      if s.storage.Closed? {
        return s, Ready(s.storage.report), invoked;
      }
      var (quiet, drain) := PollDrain(s.storage.drain);
      s := s.(storage := s.storage.(drain := drain));
      if quiet.Pending? {
        return s, Pending, invoked;
      }
      var answer, more;
      s, answer, more := TakeTurn(s);
      invoked := invoked + more;
      if answer.Some? { return s, answer.value, invoked; }
    }
  }

  /** One turn of a drained scope: the cleanup in hand, else the next entry, else the report. */
  method TakeTurn(s: Scope) returns (s': Scope, answer: Option<Poll<Report>>, invoked: seq<RegistrationId>)
    requires s.storage.Draining? && s.storage.drain.None?
    ensures s'.id == s.id && s'.next == s.next && Promised(s') == Promised(s)
    ensures invoked + Uninvoked(s') == Uninvoked(s)
    ensures match answer
            case None => s'.storage.Draining? && PendingLeft(s') == PendingLeft(s) && Turns(s') < Turns(s)
            case Some(Pending) => s'.storage.Draining? && PendingLeft(s) > 0 && PendingLeft(s') == PendingLeft(s) - 1
            case Some(Ready(report)) => s'.storage == Closed(report) && report == Promised(s) && PendingLeft(s) == 0
    decreases Turns(s), 2
  {
    if s.storage.current.Some? {
      var held;
      s', held, invoked := PollHeld(s);
      answer := if held.Pending? then Some(Pending) else None;
    } else if s.storage.remaining == [] {
      var report := Report(s.id, s.storage.steps);
      assert s.storage.steps + CurrentSteps(None) + StepsOf([]) == s.storage.steps;
      s', answer, invoked := s.(storage := Closed(report)), Some(Ready(report)), [];
    } else {
      s', invoked := PopEntry(s);
      answer := None;
    }
  }

  /** Poll the current cleanup; when it is ready, record its step. */
  method PollHeld(s: Scope) returns (s': Scope, poll: Poll<()>, invoked: seq<RegistrationId>)
    requires s.storage.Draining? && s.storage.current.Some?
    ensures s'.id == s.id && s'.next == s.next && s'.storage.Draining?
    ensures Promised(s') == Promised(s)
    ensures invoked + Uninvoked(s') == Uninvoked(s)
    ensures poll.Pending? ==> PendingLeft(s) > 0 && PendingLeft(s') == PendingLeft(s) - 1
    ensures poll.Ready? ==> PendingLeft(s') == PendingLeft(s) && Turns(s') < Turns(s)
    decreases Turns(s), 1
  {
    var step, rest;
    step, rest, invoked := PollCurrent(s.storage.current.value);
    if step.Pending? {
      poll, s' := Pending, s.(storage := s.storage.(current := Some(rest)));
    } else {
      SettleKeeps(s, step.value);
      poll, s' := Ready(()), s.(storage := s.storage.(current := None, steps := s.storage.steps + [step.value]));
    }
  }

  method PollCurrent(current: Current) returns (poll: Poll<CloseStep>, rest: Current, invoked: seq<RegistrationId>)
    ensures CurrentSteps(Some(rest)) == CurrentSteps(Some(current))
    ensures poll.Ready? ==> CurrentSteps(Some(current)) == [poll.value] && PendingCurrent(Some(current)) == 0
    ensures poll.Ready? ==> UninvokedCurrent(Some(rest)) == []
    ensures poll.Pending? ==> PendingCurrent(Some(current)) > 0
    ensures poll.Pending? ==> PendingCurrent(Some(rest)) == PendingCurrent(Some(current)) - 1
    ensures invoked + UninvokedCurrent(Some(rest)) == UninvokedCurrent(Some(current))
    decreases TurnsCurrent(Some(current)), 0
  {
    match current
    case Polling(id, pending, answer, dropPanics) =>
      rest, invoked := current, [];
      if pending > 0 {
        poll, rest := Pending, Polling(id, pending - 1, answer, dropPanics);
      } else {
        poll := Ready(Cleanup(id, AfterDrop(OutcomeOf(answer), dropPanics)));
      }
    case Closing(child, alreadyClosed) =>
      var child', answer, more := PollClose(child);
      rest, invoked := Closing(child', alreadyClosed), more;
      poll := if answer.Pending? then Pending else Ready(ChildClosed(answer.value, alreadyClosed));
  }
}
