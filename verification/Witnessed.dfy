/** What the execution rows say is what committed calls said: isolation is the caller's word
    at the start, quiescence the last word of an observation, a report or Root. */
module Witnessed {
  import opened Options
  import opened RowOrder
  import opened Tables
  import opened Work
  import opened Invariants
  import opened Runs
  import ExecutionOps
  import Failures
  import Finishing
  import Resolutions
  import Guarantees

  // ---------------------------------------------------------------- what a call says

  /** What a committed call says of the quiescence of an execution, if anything. */
  ghost function Word(s: Db, c: Call, x: Id): Option<bool>
    requires x in s.executions
  {
    match c
    case Working(Observe(y, _, _, quiescent)) => if y == x && quiescent then Some(true) else None
    case Settling(Succeed(a, _, _, _, quiescent, _, _)) =>
      if s.executions[x].attempt == a then Some(quiescent) else None
    case Settling(Fail(a, _, _, report, _, _)) =>
      if s.executions[x].attempt == a then Some(report.quiescent) else None
    case Settling(Resolve(k, how, vouched, _)) =>
      if vouched && how != CancelIt && k in s.escalations && s.escalations[k].cause == WriterQuiescenceUnknown
         && Resolutions.LastOf(s, x, s.escalations[k].task)
      then Some(true) else None
    case _ => None
  }

  /** The row keeps what it was started with, and its quiescence follows the word. */
  predicate Follows(e: Execution, e': Execution, word: Option<bool>) {
    && e'.task == e.task && e'.attempt == e.attempt && e'.incarnation == e.incarnation && e'.target == e.target
    && e'.isolated == e.isolated
    && e'.quiescent == match word case Some(quiet) => quiet case None => e.quiescent
  }

  /** A new row is STARTING as the call that started it asked, and neither over nor quiet. */
  ghost predicate StartedBy(s: Db, c: Call, x: Id, e: Execution) {
    && c.Working? && c.work.Create? && c.work.execution == x
    && e.attempt == c.work.attempt && e.attempt in s.attempts && e.task == s.attempts[e.attempt].task
    && e.target == c.work.target && e.isolated == c.work.isolated
    && e.state == ExecutionState.Starting && !e.terminal && !e.quiescent
  }

  ghost predicate Recorded(s: Db, s': Db, c: Call) {
    && (forall x | x in s.executions :: x in s'.executions && Follows(s.executions[x], s'.executions[x], Word(s, c, x)))
    && (forall x | x in s'.executions && x !in s.executions :: StartedBy(s, c, x, s'.executions[x]))
  }

  // ---------------------------------------------------------------- calls that say nothing

  lemma Untold(s: Db, s': Db, c: Call)
    requires s'.executions == s.executions && forall x | x in s.executions :: Word(s, c, x).None?
    ensures Recorded(s, s', c)
  {
  }

  lemma PoolRecorded(s: Db, c: PoolCall, now: real)
    requires Lawful(s) && ApplyPool(s, c, now).Ok?
    ensures Recorded(s, ApplyPool(s, c, now).value, Pool(c))
  {
    LawfulIff(s);
    PoolKeeps(s, c, now);
    Untold(s, ApplyPool(s, c, now).value, Pool(c));
  }

  lemma ClaimUntold(s: Db, a: Id, seconds: real, now: real)
    requires ClaimNextAvailable(s, a, seconds, now).Ok?
    ensures ClaimNextAvailable(s, a, seconds, now).value.0.executions == s.executions
  {
  }

  lemma ClaimNextUntold(s: Db, g: Id, a: Id, seconds: real, now: real)
    requires ClaimNext(s, g, a, seconds, now).Ok?
    ensures ClaimNext(s, g, a, seconds, now).value.0.executions == s.executions
  {
  }

  lemma SubmitUntold(s: Db, batch: Id, specs: seq<TaskSpec>, now: real)
    requires SubmitBatch(s, batch, specs, now).Ok?
    ensures SubmitBatch(s, batch, specs, now).value.executions == s.executions
  {
  }

  // ---------------------------------------------------------------- starting and observing

  lemma CreateRecorded(s: Db, a: Id, epoch: nat, target: Id, isolated: bool, x: Id, drawn: Id, now: real)
    requires CreateExecution(s, a, epoch, target, isolated, x, drawn, now).Ok?
    ensures x !in s.executions && x in CreateExecution(s, a, epoch, target, isolated, x, drawn, now).value.executions
    ensures Recorded(s, CreateExecution(s, a, epoch, target, isolated, x, drawn, now).value,
                     Working(Create(a, epoch, target, isolated, x, drawn)))
  {
    ExecutionOps.CreateValue(s, a, epoch, target, isolated, x, drawn, now);
  }

  lemma ConfirmRecorded(s: Db, a: Id, epoch: nat, x: Id, seconds: real, now: real)
    requires ConfirmRunning(s, a, epoch, x, seconds, now).Ok?
    ensures Recorded(s, ConfirmRunning(s, a, epoch, x, seconds, now).value, Working(Confirm(a, epoch, x, seconds)))
  {
  }

  lemma AmbiguousRecorded(s: Db, a: Id, epoch: nat, x: Id, now: real)
    requires RecordStartAmbiguity(s, a, epoch, x, now).Ok?
    ensures Recorded(s, RecordStartAmbiguity(s, a, epoch, x, now).value, Working(Ambiguous(a, epoch, x)))
  {
  }

  lemma ObserveRecorded(s: Db, x: Id, state: ExecutionState, terminal: bool, quiescent: bool)
    requires RecordPhysicalOutcome(s, x, state, terminal, quiescent).Ok?
    ensures Recorded(s, RecordPhysicalOutcome(s, x, state, terminal, quiescent).value,
                     Working(Observe(x, state, terminal, quiescent)))
  {
  }

  /** Calls that leave execution rows alone. */
  predicate Silent(c: WorkCall) {
    !c.Create? && !c.Confirm? && !c.Ambiguous? && !c.Observe?
  }

  lemma SilentUntold(s: Db, c: WorkCall, now: real)
    requires ApplyWork(s, c, now).Ok? && Silent(c)
    ensures ApplyWork(s, c, now).value.executions == s.executions
  {
    match c
    case Submit(batch, specs) => SubmitUntold(s, batch, specs, now);
    case ClaimAny(a, seconds) => ClaimUntold(s, a, seconds, now);
    case ClaimFor(g, a, seconds) => ClaimNextUntold(s, g, a, seconds, now);
    case _ =>
  }

  lemma WorkRecorded(s: Db, c: WorkCall, now: real)
    requires ApplyWork(s, c, now).Ok?
    ensures Recorded(s, ApplyWork(s, c, now).value, Working(c))
  {
    if Silent(c) {
      SilentUntold(s, c, now);
      Untold(s, ApplyWork(s, c, now).value, Working(c));
    } else {
      match c
      case Create(a, epoch, target, isolated, x, i) => CreateRecorded(s, a, epoch, target, isolated, x, i, now);
      case Confirm(a, epoch, x, seconds) => ConfirmRecorded(s, a, epoch, x, seconds, now);
      case Ambiguous(a, epoch, x) => AmbiguousRecorded(s, a, epoch, x, now);
      case Observe(x, state, terminal, quiescent) => ObserveRecorded(s, x, state, terminal, quiescent);
    }
  }

  // ---------------------------------------------------------------- settling

  lemma ExpireUntold(s: Db, unstarted: bool, draw: nat -> Drawn, now: real)
    requires Lawful(s) && ExpireLeases(s, unstarted, draw, now).Ok?
    ensures ExpireLeases(s, unstarted, draw, now).value.executions == s.executions
  {
    LawfulIff(s);
    Failures.ExpiryEnds(s, unstarted, draw, now);
  }

  lemma CancelUntold(s: Db, t: Id, vouched: bool, drawn: Drawn, now: real)
    requires Lawful(s) && CancelTask(s, t, vouched, drawn, now).Ok?
    ensures CancelTask(s, t, vouched, drawn, now).value.executions == s.executions
  {
    LawfulIff(s);
    Finishing.CancelEnds(s, t, vouched, drawn, now);
  }

  lemma CancelBatchUntold(s: Db, b: Id, draw: nat -> Drawn, now: real)
    requires Lawful(s) && CancelBatch(s, b, draw, now).Ok?
    ensures CancelBatch(s, b, draw, now).value.executions == s.executions
  {
    LawfulIff(s);
    Finishing.CancelBatchEnds(s, b, draw, now);
  }

  lemma AckWords(s: Db, s': Db, a: Id, epoch: nat, supplied: Option<Id>, capsule: Capsule, quiet: bool,
                 reusable: bool, drawn: Drawn)
    requires Finishing.SuccessRecorded(s, s', a, quiet)
    ensures Recorded(s, s', Settling(Succeed(a, epoch, supplied, capsule, quiet, reusable, drawn)))
  {
  }

  lemma AckRecorded(s: Db, a: Id, epoch: nat, supplied: Option<Id>, capsule: Capsule, quiet: bool, reusable: bool,
                    drawn: Drawn, now: real)
    requires Lawful(s) && AckSuccess(s, a, epoch, supplied, capsule, quiet, reusable, drawn, now).Ok?
    ensures Recorded(s, AckSuccess(s, a, epoch, supplied, capsule, quiet, reusable, drawn, now).value,
                     Settling(Succeed(a, epoch, supplied, capsule, quiet, reusable, drawn)))
  {
    LawfulIff(s);
    Finishing.AckEnds(s, a, epoch, supplied, capsule, quiet, reusable, drawn, now);
    AckWords(s, AckSuccess(s, a, epoch, supplied, capsule, quiet, reusable, drawn, now).value, a, epoch, supplied,
             capsule, quiet, reusable, drawn);
  }

  lemma NackWords(s: Db, s': Db, a: Id, epoch: nat, supplied: Option<Id>, report: Report, drawn: Drawn, at: real)
    requires Failures.FailureRecorded(s, s', a, report)
    ensures Recorded(s, s', Settling(Fail(a, epoch, supplied, report, drawn, at)))
  {
  }

  lemma NackRecorded(s: Db, a: Id, epoch: nat, supplied: Option<Id>, report: Report, drawn: Drawn, at: real, now: real)
    requires Lawful(s) && Nack(s, a, epoch, supplied, report, drawn, at, now).Ok?
    ensures Recorded(s, Nack(s, a, epoch, supplied, report, drawn, at, now).value,
                     Settling(Fail(a, epoch, supplied, report, drawn, at)))
  {
    LawfulIff(s);
    Failures.NackFails(s, a, epoch, supplied, report, drawn, at, now);
    NackWords(s, Nack(s, a, epoch, supplied, report, drawn, at, now).value, a, epoch, supplied, report, drawn, at);
  }

  lemma ReleaseWords(s: Db, s': Db, k: Id, how: Resolution, vouched: bool, notice: Id)
    requires k in s.escalations && how != CancelIt
      && Resolutions.WriterReleased(s, s', s.escalations[k], vouched)
    ensures Recorded(s, s', Settling(Resolve(k, how, vouched, notice)))
  {
  }

  lemma RetryRecorded(s: Db, k: Id, vouched: bool, notice: Id, now: real)
    requires Lawful(s) && ResolveEscalation(s, k, Retry, vouched, notice, now).Ok?
    ensures Recorded(s, ResolveEscalation(s, k, Retry, vouched, notice, now).value,
                     Settling(Resolve(k, Retry, vouched, notice)))
  {
    Resolutions.RetryResolves(s, k, vouched, notice, now);
    ReleaseWords(s, ResolveEscalation(s, k, Retry, vouched, notice, now).value, k, Retry, vouched, notice);
  }

  lemma ReleaseRecorded(s: Db, k: Id, vouched: bool, notice: Id, now: real)
    requires Lawful(s) && ResolveEscalation(s, k, ReleaseCancelledWriter, vouched, notice, now).Ok?
    ensures Recorded(s, ResolveEscalation(s, k, ReleaseCancelledWriter, vouched, notice, now).value,
                     Settling(Resolve(k, ReleaseCancelledWriter, vouched, notice)))
  {
    Resolutions.ReleaseCommits(s, k, vouched, notice, now);
    ReleaseWords(s, ResolveEscalation(s, k, ReleaseCancelledWriter, vouched, notice, now).value, k,
                 ReleaseCancelledWriter, vouched, notice);
  }

  lemma DismissRecorded(s: Db, k: Id, vouched: bool, notice: Id, now: real)
    requires Lawful(s) && ResolveEscalation(s, k, CancelIt, vouched, notice, now).Ok?
    ensures Recorded(s, ResolveEscalation(s, k, CancelIt, vouched, notice, now).value,
                     Settling(Resolve(k, CancelIt, vouched, notice)))
  {
    Resolutions.DismissCommits(s, k, vouched, notice, now);
    Untold(s, ResolveEscalation(s, k, CancelIt, vouched, notice, now).value,
           Settling(Resolve(k, CancelIt, vouched, notice)));
  }

  /** Acknowledgements, failure reports and resolutions have something to say. */
  predicate Tells(c: SettleCall) {
    c.Succeed? || c.Fail? || c.Resolve?
  }

  lemma TellingRecorded(s: Db, c: SettleCall, now: real)
    requires Lawful(s) && ApplySettle(s, c, now).Ok? && Tells(c)
    ensures Recorded(s, ApplySettle(s, c, now).value, Settling(c))
  {
    match c
    case Succeed(a, epoch, x, capsule, quiet, reusable, drawn) =>
      AckRecorded(s, a, epoch, x, capsule, quiet, reusable, drawn, now);
    case Fail(a, epoch, x, report, drawn, at) => NackRecorded(s, a, epoch, x, report, drawn, at, now);
    case Resolve(k, how, vouched, notice) =>
      match how {
        case Retry => RetryRecorded(s, k, vouched, notice, now);
        case ReleaseCancelledWriter => ReleaseRecorded(s, k, vouched, notice, now);
        case CancelIt => DismissRecorded(s, k, vouched, notice, now);
      }
  }

  lemma SettlingUntold(s: Db, c: SettleCall, now: real)
    requires Lawful(s) && ApplySettle(s, c, now).Ok? && !Tells(c)
    ensures ApplySettle(s, c, now).value.executions == s.executions
  {
    match c
    case Expire(unstarted, draw) => ExpireUntold(s, unstarted, draw, now);
    case CancelOne(t, vouched, drawn) => CancelUntold(s, t, vouched, drawn, now);
    case CancelAll(b, draw) => CancelBatchUntold(s, b, draw, now);
    case AckRow(r) =>
  }

  lemma SettlingRecorded(s: Db, c: SettleCall, now: real)
    requires Lawful(s) && ApplySettle(s, c, now).Ok?
    ensures Recorded(s, ApplySettle(s, c, now).value, Settling(c))
  {
    if Tells(c) {
      TellingRecorded(s, c, now);
    } else {
      SettlingUntold(s, c, now);
      Untold(s, ApplySettle(s, c, now).value, Settling(c));
    }
  }

  /** What every committed call does to execution rows. */
  lemma CallRecorded(s: Db, c: Call, now: real)
    requires Lawful(s) && Apply(s, c, now).Ok?
    ensures Recorded(s, Apply(s, c, now).value, c)
  {
    match c
    case Pool(p) => PoolRecorded(s, p, now);
    case Working(w) => WorkRecorded(s, w, now);
    case Settling(e) => SettlingRecorded(s, e, now);
  }

  // ---------------------------------------------------------------- a log of what was said

  /** What one step of a run said of an execution: how it was started, and whether it is quiet. */
  datatype Entry = Entry(start: Option<bool>, word: Option<bool>)

  ghost predicate Blank(log: seq<Entry>) {
    forall i | 0 <= i < |log| :: log[i] == Entry(None, None)
  }

  /** Some step started it as isolated. */
  ghost predicate StartedIsolated(log: seq<Entry>) {
    exists i | 0 <= i < |log| :: log[i].start == Some(true)
  }

  /** Some step said it is quiet and no later one took that back. */
  ghost predicate SaidQuiet(log: seq<Entry>) {
    exists i | 0 <= i < |log| :: log[i].word == Some(true) && NotDenied(log, i)
  }

  ghost predicate NotDenied(log: seq<Entry>, i: int) {
    forall j | i < j && 0 <= j < |log| :: log[j].word != Some(false)
  }

  /** The row says what the log says. */
  ghost predicate Agrees(log: seq<Entry>, executions: map<Id, Execution>, x: Id) {
    if x in executions
    then (executions[x].isolated <==> StartedIsolated(log)) && (executions[x].quiescent <==> SaidQuiet(log))
    else Blank(log)
  }

  /** What one step does to the row and says of it. */
  ghost predicate Moves(executions: map<Id, Execution>, executions': map<Id, Execution>, x: Id, entry: Entry) {
    if x in executions
    then && x in executions' && entry.start.None? && executions'[x].isolated == executions[x].isolated
         && executions'[x].quiescent == match entry.word case Some(quiet) => quiet case None => executions[x].quiescent
    else && entry.word.None? && (x in executions' <==> entry.start.Some?)
         && (x in executions' ==> executions'[x].isolated == entry.start.value && !executions'[x].quiescent)
  }

  lemma QuietGrows(log: seq<Entry>, entry: Entry)
    ensures SaidQuiet(log + [entry]) <==> match entry.word case Some(quiet) => quiet case None => SaidQuiet(log)
  {
    var more := log + [entry];
    if entry.word == Some(true) {
      assert more[|log|] == entry && NotDenied(more, |log|);
    }
    if entry.word != Some(false) && SaidQuiet(log) {
      var i :| 0 <= i < |log| && log[i].word == Some(true) && NotDenied(log, i);
      assert more[i] == log[i] && NotDenied(more, i);
    }
    if SaidQuiet(more) && entry.word != Some(true) {
      var i :| 0 <= i < |more| && more[i].word == Some(true) && NotDenied(more, i);
      assert more[|log|] == entry;
      assert log[i] == more[i];
      assert forall j | 0 <= j < |log| :: more[j] == log[j];
    }
  }

  lemma IsolatedGrows(log: seq<Entry>, entry: Entry)
    ensures StartedIsolated(log + [entry]) <==> StartedIsolated(log) || entry.start == Some(true)
  {
    var more := log + [entry];
    assert more[|log|] == entry && forall j | 0 <= j < |log| :: more[j] == log[j];
    if StartedIsolated(log) {
      var i :| 0 <= i < |log| && log[i].start == Some(true);
      assert more[i].start == Some(true);
    }
  }

  lemma LogGrows(log: seq<Entry>, executions: map<Id, Execution>, executions': map<Id, Execution>, x: Id, entry: Entry)
    requires Agrees(log, executions, x) && Moves(executions, executions', x, entry)
    ensures Agrees(log + [entry], executions', x)
  {
    QuietGrows(log, entry);
    IsolatedGrows(log, entry);
  }

  // ---------------------------------------------------------------- the log of a run

  ghost predicate Starts(c: Call, x: Id) {
    c.Working? && c.work.Create? && c.work.execution == x
  }

  ghost function EntryOf(s: Db, step: Step, x: Id): Entry {
    if Apply(s, step.call, step.now).Err? then Entry(None, None)
    else Entry(if Starts(step.call, x) then Some(step.call.work.isolated) else None,
               if x in s.executions then Word(s, step.call, x) else None)
  }

  ghost function Log(steps: seq<Step>, x: Id): (log: seq<Entry>)
    ensures |log| == |steps|
  {
    if steps == [] then []
    else
      var n := |steps| - 1;
      Log(steps[..n], x) + [EntryOf(Run(EMPTY, steps[..n]), steps[n], x)]
  }

  lemma StartMoves(s: Db, c: Call, now: real, x: Id)
    requires Apply(s, c, now).Ok? && Starts(c, x)
    ensures x !in s.executions && x in Apply(s, c, now).value.executions
  {
    CreateRecorded(s, c.work.attempt, c.work.epoch, c.work.target, c.work.isolated, x, c.work.incarnation, now);
  }

  lemma RecordedMoves(s: Db, s': Db, c: Call, x: Id)
    requires Recorded(s, s', c) && (Starts(c, x) ==> x !in s.executions && x in s'.executions)
    ensures Moves(s.executions, s'.executions, x,
                  Entry(if Starts(c, x) then Some(c.work.isolated) else None,
                        if x in s.executions then Word(s, c, x) else None))
  {
    if x in s.executions {
      assert Follows(s.executions[x], s'.executions[x], Word(s, c, x));
    } else if x in s'.executions {
      assert StartedBy(s, c, x, s'.executions[x]);
    }
  }

  lemma StepMoves(s: Db, step: Step, x: Id)
    requires Lawful(s)
    ensures Moves(s.executions, After(s, step).executions, x, EntryOf(s, step, x))
  {
    if Apply(s, step.call, step.now).Ok? {
      CallRecorded(s, step.call, step.now);
      if Starts(step.call, x) {
        StartMoves(s, step.call, step.now, x);
      }
      RecordedMoves(s, After(s, step), step.call, x);
    }
  }

  /** In every run a row is isolated exactly when it was started so, and quiescent exactly
      when the last word on it is that it is. */
  lemma {:induction false} LogAgrees(steps: seq<Step>, x: Id)
    ensures Agrees(Log(steps, x), Run(EMPTY, steps).executions, x)
  {
    if steps != [] {
      var n := |steps| - 1;
      var s := Run(EMPTY, steps[..n]);
      LogAgrees(steps[..n], x);
      ReachableInv(steps[..n]);
      LawfulIff(s);
      StepMoves(s, steps[n], x);
      LogGrows(Log(steps[..n], x), s.executions, After(s, steps[n]).executions, x, EntryOf(s, steps[n], x));
    }
  }

  /** Whatever the call, a WRITE task comes to be held only when each of its earlier executions
      was started isolated, or the last committed word on it is that it is quiet. */
  lemma ExclusiveInRun(steps: seq<Step>, step: Step, t: Id, x: Id)
    requires var s := Run(EMPTY, steps);
      && t in s.tasks && s.tasks[t].mode.Write? && !s.tasks[t].Held()
      && t in After(s, step).tasks && After(s, step).tasks[t].Held()
      && x in s.executions && s.executions[x].task == t
    ensures StartedIsolated(Log(steps, x)) || SaidQuiet(Log(steps, x))
  {
    LogAgrees(steps, x);
    Guarantees.ClaimsAreExclusive(Run(EMPTY, steps), step, t, x);
  }

  /** A writer that was not started isolated and whose last word is not quiet holds its task
      when its attempt is closed. */
  lemma UnquietSuspended(steps: seq<Step>, x: Id)
    requires var s := Run(EMPTY, steps);
      && x in s.executions && s.executions[x].attempt in s.attempts
      && !s.attempts[s.executions[x].attempt].state.Active?
      && s.executions[x].task in s.tasks && s.tasks[s.executions[x].task].mode.Write?
      && !s.tasks[s.executions[x].task].state.Cancelled?
    requires !StartedIsolated(Log(steps, x)) && !SaidQuiet(Log(steps, x))
    ensures var s := Run(EMPTY, steps);
      s.tasks[s.executions[x].task].state.Suspended? && HasHold(s.escalations, s.executions[x].task)
  {
    LogAgrees(steps, x);
    Guarantees.UnsafeClosedSuspended(Run(EMPTY, steps), x);
  }
}
