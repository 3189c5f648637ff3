/**
 * Turns of a worker: whatever state the orchestrator is in, a workflow that is live can be claimed, and
 * moved on by any reply its call may come back with.
 */
module Turns {
  import opened Prelude
  import opened Stages
  import opened SagaEngine
  import opened SagaRuns
  import opened WorkflowTables
  import opened Orchestrator
  import opened Fencing
  import opened RowRuns

  /** The row is due, and no other worker's lease is in the way. */
  predicate DueBy(s: Orc, op: nat, time: Time) {
    && op in s.tables.workflows && IsLive(s.tables.workflows[op].saga.status)
    && s.now <= time && s.tables.workflows[op].saga.nextAttemptAt <= time
    && (s.tables.workflows[op].instanceId in s.tables.leases ==>
          s.tables.leases[s.tables.workflows[op].instanceId].until <= time)
  }

  function DueTime(s: Orc, op: nat): Time
    requires op in s.tables.workflows
  {
    var w := s.tables.workflows[op];
    var lease := if w.instanceId in s.tables.leases then s.tables.leases[w.instanceId].until else s.now;
    Max(s.now, Max(w.saga.nextAttemptAt, lease))
  }

  function ClaimedAt(s: Orc, op: nat, time: Time): Orc
    requires op in s.tables.workflows
  {
    Claimed(s.(now := time), op, 0, MINIMUM_LEASE_MS)
  }

  function TicketAt(s: Orc, op: nat, time: Time): Ticket
    requires op in s.tables.workflows
  {
    TicketFor(ClaimRow(s.tables, op, 0, MINIMUM_LEASE_MS, time), op, 0)
  }

  /** A turn: time passes, the row is claimed, and the decision on the reply is committed. */
  ghost function Turned(s: Orc, op: nat, reply: Reply, time: Time): Orc
    requires op in s.tables.workflows
  {
    Step(ClaimedAt(s, op, time), WorkerCommits(TicketAt(s, op, time), reply, time, 0.0))
  }

  /** The reply is one the row's call may come back with. */
  predicate Answers(w: Workflow, reply: Reply) {
    && w.saga.stage.At? && Admissible(reply)
    && Fits(CallOf(ActionOf(w.command), ClaimedSaga(w.saga), w.saga.stage.stage), reply)
  }

  function TransitionAt(w: Workflow, reply: Reply, time: Time): Transition
    requires Answers(w, reply)
  {
    Decide(w.command, ClaimedSaga(w.saga), w.saga.stage.stage, reply, time, 0.0)
  }

  /** What a turn does: the row moves on, its event is published, and its lease is given up. */
  ghost predicate TakesTurn(s: Orc, t: Orc, op: nat, reply: Reply, time: Time) {
    && op in s.tables.workflows && op in t.tables.workflows && Answers(s.tables.workflows[op], reply)
    && var w, w' := s.tables.workflows[op], t.tables.workflows[op];
       var transition := TransitionAt(w, reply, time);
       && t.now == time && t.issued == s.issued
       && t.tables.workflows == s.tables.workflows[op := w']
       && w' == w.(attempt := w'.attempt, token := w'.token, failure := w'.failure, lastError := w'.lastError,
                   saga := Applied(ClaimedSaga(w.saga), transition, time))
       && t.tables.events == Append(s.tables.events, w.instanceId, EventOf(op, transition))
       && t.tables.deadLetters
          == (if transition.Exhaust?
              then WithDeadLetter(s.tables.deadLetters, w.command, true, transition.attempts, true, w.generation)
              else s.tables.deadLetters)
       && t.tables.replays == s.tables.replays && t.tables.receipts.Keys == s.tables.receipts.Keys
       && t.tables.republished == s.tables.republished
       && w.instanceId in t.tables.leases && t.tables.leases[w.instanceId].until <= time
       && t.tables.leases == s.tables.leases[w.instanceId := t.tables.leases[w.instanceId]]
  }

  /** A due row can be claimed. */
  lemma ClaimIsGranted(s: Orc, op: nat, time: Time)
    requires RowsIdentified(s) && DueBy(s, op, time)
    ensures var t := ClaimedAt(s, op, time);
            && Step(Step(s, Tick(time)), WorkerClaims(op, 0, MINIMUM_LEASE_MS)) == t
            && t.tables == ClaimRow(s.tables, op, 0, MINIMUM_LEASE_MS, time)
            && t.now == time && t.issued == s.issued && t.histories == s.histories
            && TicketAt(s, op, time) in t.tickets
            && HoldsLease(t.tables, op, 0, TicketAt(s, op, time).token, time)
  {
    assert RowIdentity(s, op);
  }

  /** A commit under a held lease is never refused. */
  lemma CommitIsTaken(s: Orc, op: nat, token: nat, transition: Transition)
    requires RowsIdentified(s) && RowsRun(s) && HoldsLease(s.tables, op, 0, token, s.now)
    ensures Commit(s.tables, op, 0, token, transition, s.now).Ok? && op in s.histories
    ensures Commit(s.tables, op, 0, token, transition, s.now).value.leases
            == Released(s.tables.leases, s.tables.workflows[op].instanceId, s.now)
    ensures var t := Commit(s.tables, op, 0, token, transition, s.now).value;
            t.replays == s.tables.replays && t.republished == s.tables.republished
  {
    assert RowIdentity(s, op) && RowRun(s, op);
    match transition
    case Progress(_, _, _, _, _) =>
    case Exhaust(_, _, _) =>
    case _ =>
  }

  lemma ClaimKeepsInvariant(s: Orc, op: nat, time: Time)
    requires Invariant(s) && DueBy(s, op, time)
    ensures Invariant(ClaimedAt(s, op, time))
  {
    ClaimIsGranted(s, op, time);
    var tick, claim := Tick(time), WorkerClaims(op, 0, MINIMUM_LEASE_MS);
    StepKeepsFenced(s, tick);
    StepKeepsIdentity(s, tick);
    StepKeepsRuns(s, tick);
    StepKeepsFenced(Step(s, tick), claim);
    StepKeepsIdentity(Step(s, tick), claim);
    StepKeepsRuns(Step(s, tick), claim);
  }

  /** A commit that may be made under a held lease is made. */
  lemma CommitGoesThrough(s: Orc, c: Ticket, reply: Reply, at: Time, random: real)
    requires RowsIdentified(s) && RowsRun(s) && MayCommit(s, c, reply, at, random)
    requires c.worker == 0 && HoldsLease(s.tables, c.operationId, 0, c.token, s.now)
    ensures var t := Step(s, WorkerCommits(c, reply, at, random));
            && |t.commits| == |s.commits| + 1 && t.now == s.now
            && t.tables.leases == Released(s.tables.leases, s.tables.workflows[c.operationId].instanceId, s.now)
            && t.tables.replays == s.tables.replays && t.tables.republished == s.tables.republished
  {
    CommitIsTaken(s, c.operationId, c.token, DecisionOf(c, reply, at, random));
  }

  function TurnEntry(s: Orc, op: nat, reply: Reply, time: Time): Entry
    requires op in s.tables.workflows && Answers(s.tables.workflows[op], reply)
  {
    Entry(TicketAt(s, op, time).row.saga, reply, time, 0.0, time, TransitionAt(s.tables.workflows[op], reply, time))
  }

  /** The commit of a turn goes through, and commits the decision. */
  lemma TurnCommits(s: Orc, op: nat, reply: Reply, time: Time)
    requires Invariant(s) && DueBy(s, op, time) && Answers(s.tables.workflows[op], reply)
    ensures var u, t := ClaimedAt(s, op, time), Turned(s, op, reply, time);
            && CommitsRow(u, t, op, TurnEntry(s, op, reply, time)) && t.now == time
            && t.tables.leases == Released(u.tables.leases, s.tables.workflows[op].instanceId, time)
            && t.tables.replays == u.tables.replays && t.tables.republished == u.tables.republished
  {
    var u, c := ClaimedAt(s, op, time), TicketAt(s, op, time);
    ClaimIsGranted(s, op, time);
    ClaimKeepsInvariant(s, op, time);
    CommitGoesThrough(u, c, reply, time, 0.0);
    CommitIsDecided(u, WorkerCommits(c, reply, time, 0.0));
  }

  lemma CommitEndsTurn(s: Orc, u: Orc, t: Orc, op: nat, reply: Reply, time: Time)
    requires op in s.tables.workflows && Answers(s.tables.workflows[op], reply)
    requires u.tables == ClaimRow(s.tables, op, 0, MINIMUM_LEASE_MS, time) && u.now == time && u.issued == s.issued
    requires CommitsRow(u, t, op, TurnEntry(s, op, reply, time)) && t.now == time
    requires t.tables.leases == Released(u.tables.leases, s.tables.workflows[op].instanceId, time)
    requires t.tables.replays == u.tables.replays && t.tables.republished == u.tables.republished
    ensures TakesTurn(s, t, op, reply, time)
  {
    assert t.tables.workflows == s.tables.workflows[op := t.tables.workflows[op]];
    assert t.tables.leases == s.tables.leases[s.tables.workflows[op].instanceId := t.tables.leases[s.tables.workflows[op].instanceId]];
  }

  lemma TurnEffect(s: Orc, op: nat, reply: Reply, time: Time)
    requires Invariant(s) && DueBy(s, op, time) && Answers(s.tables.workflows[op], reply)
    ensures TakesTurn(s, Turned(s, op, reply, time), op, reply, time)
  {
    ClaimIsGranted(s, op, time);
    TurnCommits(s, op, reply, time);
    CommitEndsTurn(s, ClaimedAt(s, op, time), Turned(s, op, reply, time), op, reply, time);
  }

  // ----- A reply that never ends in success --------------------------------------------------

  /** No reply where no call is made, and an outage where one is. */
  function Outage(w: Workflow): Reply
    requires w.saga.stage.At?
  {
    if CallOf(ActionOf(w.command), ClaimedSaga(w.saga), w.saga.stage.stage).NoCall? then NoReply
    else Transport(TransportErrorOf(Unavailable))
  }

  lemma OutageNeverSucceeds(w: Workflow, time: Time)
    requires w.saga.stage.At?
    ensures Answers(w, Outage(w)) && !TransitionAt(w, Outage(w), time).Succeed?
  {
  }
}
