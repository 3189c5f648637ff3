/**
 * What a stored success says about the machines themselves: the observation it was decided on is
 * what the provider held at some point of the run, after the row was claimed.
 */
module Observations {
  import opened Prelude
  import opened Stages
  import opened SagaEngine
  import opened SagaRuns
  import opened EarnedSuccess
  import opened WorkflowTables
  import opened Orchestrator
  import opened Fencing
  import opened RowRuns
  import opened Provider
  import opened Effects

  // ----- What was heard was so ---------------------------------------------------------------

  /** What a worker heard is what the provider would have told it at that point of the run. */
  lemma {:induction false} HeardWasSo(start: Time, inputs: seq<CloudInput>, h: Heard) returns (n: nat)
    requires h in CloudRun(start, inputs).heard
    ensures n < |inputs| && Looks(h.ticket) && h.ticket in CloudRun(start, inputs[..n]).orc.tickets
    ensures h.reply == QueryAnswer(CloudRun(start, inputs[..n]).traffic.world, h.ticket).1
  {
    assert inputs != [];
    var before := inputs[..|inputs| - 1];
    if h in CloudRun(start, before).heard {
      n := HeardWasSo(start, before, h);
      assert before[..n] == inputs[..n];
    } else {
      n := |inputs| - 1;
      NewlyHeard(CloudRun(start, before), inputs[n], h);
    }
  }

  lemma NewlyHeard(s: Cloud, input: CloudInput, h: Heard)
    requires h in CloudStep(s, input).heard && h !in s.heard
    ensures h.ticket in s.orc.tickets && Looks(h.ticket) && h.reply == QueryAnswer(s.traffic.world, h.ticket).1
  {
  }

  // ----- What was decided on was heard -------------------------------------------------------

  /** The commit rests on something a worker heard about the row as it was claimed. */
  ghost predicate RestsOn(s: Cloud, command: Command, e: Entry, c: Ticket) {
    Heard(c, e.reply) in s.heard && c.row.command == command && c.row.saga == e.saga
  }

  ghost predicate WasHeard(s: Cloud, command: Command, e: Entry) {
    e.reply.Task? || e.reply.Observed? || e.reply.Listed? ==> exists c :: RestsOn(s, command, e, c)
  }

  ghost predicate EntriesHeard(s: Cloud) {
    forall op, k | op in s.orc.tables.workflows && op in s.orc.histories && 0 <= k < |s.orc.histories[op].run| ::
      WasHeard(s, s.orc.tables.workflows[op].command, s.orc.histories[op].run[k])
  }

  lemma HeardStays(s: Cloud, t: Cloud, command: Command, e: Entry)
    requires s.heard <= t.heard && WasHeard(s, command, e)
    ensures WasHeard(t, command, e)
  {
    if e.reply.Task? || e.reply.Observed? || e.reply.Listed? {
      var c :| RestsOn(s, command, e, c);
      assert RestsOn(t, command, e, c);
    }
  }

  /** Each row's command and run are as before, or the run has been started over. */
  ghost predicate KeepsRuns(s: Orc, t: Orc) {
    forall op | op in t.tables.workflows && op in t.histories && t.histories[op].run != [] ::
      && op in s.tables.workflows && op in s.histories
      && t.tables.workflows[op].command == s.tables.workflows[op].command && t.histories[op].run == s.histories[op].run
  }

  lemma KeptRunsWereHeard(s: Cloud, t: Cloud)
    requires EntriesHeard(s) && s.heard <= t.heard && KeepsRuns(s.orc, t.orc)
    ensures EntriesHeard(t)
  {
    forall op, k | op in t.orc.tables.workflows && op in t.orc.histories && 0 <= k < |t.orc.histories[op].run|
      ensures WasHeard(t, t.orc.tables.workflows[op].command, t.orc.histories[op].run[k])
    {
      HeardStays(s, t, s.orc.tables.workflows[op].command, s.orc.histories[op].run[k]);
    }
  }

  lemma CommitWasHeard(s: Cloud, t: Cloud, c: Ticket, e: Entry)
    requires t == s.(orc := t.orc) && CommitsRow(s.orc, t.orc, c.operationId, e) && EntriesHeard(s)
    requires s.orc.tables.workflows[c.operationId] == c.row && e.saga == c.row.saga
    requires WasHeard(s, c.row.command, e)
    ensures EntriesHeard(t)
  {
    forall op, k | op in t.orc.tables.workflows && op in t.orc.histories && 0 <= k < |t.orc.histories[op].run|
      ensures WasHeard(t, t.orc.tables.workflows[op].command, t.orc.histories[op].run[k])
    {
      if op == c.operationId && k == |s.orc.histories[op].run| {
        HeardStays(s, t, c.row.command, e);
      } else {
        HeardStays(s, t, s.orc.tables.workflows[op].command, s.orc.histories[op].run[k]);
      }
    }
  }

  /** A commit rests on the answer to its own query. */
  lemma LearnedWasHeard(s: Cloud, c: Ticket, e: Entry)
    requires Learned(s, c, e.reply) && c.row.saga.stage.At? && e.saga == c.row.saga
    requires Fits(CallOf(ActionOf(c.row.command), c.row.saga, c.row.saga.stage.stage), e.reply)
    ensures WasHeard(s, c.row.command, e)
  {
    if e.reply.Task? || e.reply.Observed? || e.reply.Listed? {
      assert RestsOn(s, c.row.command, e, c);
    }
  }

  lemma OrchestratorKeepsHeard(s: Cloud, input: Input)
    requires Fenced(s.orc) && RowsRun(s.orc) && EntriesHeard(s)
    requires input.WorkerCommits? ==> Learned(s, input.ticket, input.reply)
    ensures EntriesHeard(s.(orc := Step(s.orc, input)))
  {
    if Enabled(s.orc, input) && Step(s.orc, input) != s.orc {
      var t := s.(orc := Step(s.orc, input));
      if input.WorkerCommits? {
        var c := input.ticket;
        var e := Entry(c.row.saga, input.reply, input.decidedAt, input.random, s.orc.now,
                       DecisionOf(c, input.reply, input.decidedAt, input.random));
        CommitIsDecided(s.orc, input);
        LearnedWasHeard(s, c, e);
        CommitWasHeard(s, t, c, e);
      } else {
        OtherStepsKeepRuns(s.orc, input);
        KeptRunsWereHeard(s, t);
      }
    }
  }

  lemma OtherStepsKeepRuns(s: Orc, input: Input)
    requires Enabled(s, input) && !input.WorkerCommits? && RowsRun(s)
    ensures KeepsRuns(s, Step(s, input))
  {
    if input.WorkerClaims? {
      ClaimRowEffect(s, input.operationId, input.worker, input.leaseMs);
    } else {
      OtherStepsRestart(s, input);
      forall op | op in Step(s, input).tables.workflows && op in s.tables.workflows
        ensures op in s.histories
      {
        assert RowRun(s, op);
      }
    }
  }

  lemma StepKeepsHeard(s: Cloud, input: CloudInput)
    requires Fenced(s.orc) && RowsRun(s.orc) && EntriesHeard(s)
    ensures EntriesHeard(CloudStep(s, input))
  {
    if CloudEnabled(s, input) {
      match input
      case Orchestrate(work) => OrchestratorKeepsHeard(s, work);
      case _ => KeptRunsWereHeard(s, CloudStep(s, input));
    }
  }

  lemma {:induction false} RunsAreHeard(start: Time, inputs: seq<CloudInput>)
    ensures EntriesHeard(CloudRun(start, inputs))
  {
    if inputs != [] {
      var before := inputs[..|inputs| - 1];
      RunsAreHeard(start, before);
      RunsAreComposed(start, before);
      StepKeepsHeard(CloudRun(start, before), inputs[|inputs| - 1]);
    }
  }

  // ----- What a success says -----------------------------------------------------------------

  /** The machine is there and carries the markers of the command's instance. */
  predicate IsOurs(w: World, command: Command, id: nat) {
    id in w.vms && w.vms[id].markers == MarkersOf(command)
  }

  /** What the provider must hold for the command to have been carried out on the machine. */
  predicate Holds(w: World, command: Command, id: nat) {
    match command.data
    case CreateData(_) => IsOurs(w, command, id) && w.vms[id].power.PowerRunning?
    case PowerData(request) =>
      IsOurs(w, command, id)
      && w.vms[id].power == if request.ShutdownPower? || request.StopPower? then PowerStopped else PowerRunning
    case ResizeData(target) => IsOurs(w, command, id) && w.vms[id].sizing == target
    case SnapshotCreateData(_, name) => IsOurs(w, command, id) && name in Snapshots(w, id).Values
    case SnapshotRollbackData(_, _) => IsOurs(w, command, id)
    case SnapshotDeleteData(_, name) => IsOurs(w, command, id) && name !in Snapshots(w, id).Values
    case RetentionData(_) => IsOurs(w, command, id)
    case PurgeData(_) => id !in w.vms
  }

  /** A success decided on what the provider answered means the provider held what was asked for. */
  lemma AnswerProvesSuccess(w: World, c: Ticket, e: Entry)
    requires Decided(c.row.command, e) && e.transition.Succeed? && e.saga == c.row.saga && Looks(c)
    requires e.reply == QueryAnswer(w, c).1
    ensures c.row.saga.resource.Some? && Holds(w, c.row.command, c.row.saga.resource.value)
  {
    SuccessfulCommit(c.row.command, e);
    var target := if c.row.command.data.ResizeData? then c.row.command.data.target else Sizing(0, 0, 0);
    if e.reply.Observed? {
      ObservationIsExact(w, c.row.saga.resource.value, MarkersOf(c.row.command), target);
    }
  }

  /** The commit a stored success was decided by. */
  lemma SucceedingCommit(s: Orc, op: nat) returns (e: Entry)
    requires Invariant(s) && op in s.tables.workflows && s.tables.workflows[op].saga.status.Succeeded?
    ensures op in s.histories && s.histories[op].run != [] && e == s.histories[op].run[|s.histories[op].run| - 1]
    ensures Decided(s.tables.workflows[op].command, e) && e.transition.Succeed?
    ensures e.saga.resource == s.tables.workflows[op].saga.resource
  {
    assert RowRun(s, op);
    var h := s.histories[op];
    var last := |h.run| - 1;
    e := h.run[last];
    RunStep(s.tables.workflows[op].command, StartOf(h), h.run, last);
  }

  lemma SuccessWasHeard(s: Cloud, op: nat) returns (c: Ticket, e: Entry)
    requires Invariant(s.orc) && EntriesHeard(s)
    requires op in s.orc.tables.workflows && s.orc.tables.workflows[op].saga.status.Succeeded?
    ensures Heard(c, e.reply) in s.heard && e.saga == c.row.saga && c.row.command == s.orc.tables.workflows[op].command
    ensures Decided(c.row.command, e) && e.transition.Succeed?
    ensures c.row.saga.resource == s.orc.tables.workflows[op].saga.resource
  {
    var w := s.orc.tables.workflows[op];
    e := SucceedingCommit(s.orc, op);
    SuccessfulCommit(w.command, e);
    assert WasHeard(s, w.command, e);
    c :| RestsOn(s, w.command, e, c);
  }

  /**
   * Every stored success was so: at some point of the run the provider held exactly what the command
   * asked for, on the machine the row names - and for a purge, it held no such machine.
   */
  lemma SuccessWasSo(start: Time, inputs: seq<CloudInput>, op: nat) returns (n: nat)
    requires var s := CloudRun(start, inputs);
             op in s.orc.tables.workflows && s.orc.tables.workflows[op].saga.status.Succeeded?
    ensures n < |inputs|
    ensures var w := CloudRun(start, inputs).orc.tables.workflows[op];
            w.saga.resource.Some?
            && Holds(CloudRun(start, inputs[..n]).traffic.world, w.command, w.saga.resource.value)
  {
    RunsAreComposed(start, inputs);
    RunsAreHeard(start, inputs);
    var c, e := SuccessWasHeard(CloudRun(start, inputs), op);
    n := HeardWasSo(start, inputs, Heard(c, e.reply));
    AnswerProvesSuccess(CloudRun(start, inputs[..n]).traffic.world, c, e);
  }
}
