/**
 * The orchestrator as a transition system: every interleaving of deliveries, redeliveries,
 * claims, stalls, lease expiries, commits and governed replays over the workflow tables.
 *
 * A worker is only the tickets it has been granted. It may present any ticket at any later time,
 * any number of times or never, which covers crashes, stalls and processes that share a worker
 * id. The provider may answer anything.
 */
module Orchestrator {
  import opened Prelude
  import opened Stages
  import opened SagaEngine
  import opened SagaRuns
  import opened WorkflowTables

  /** What `claimNext` hands to a worker: the row as claimed, and the token that fences it. */
  datatype Ticket = Ticket(operationId: nat, worker: nat, token: nat, row: Workflow)

  /** One line of the history of claims or of commits. */
  datatype Mark = Mark(instanceId: nat, token: nat, operationId: nat)

  /** The commits of a row since it was admitted or last reopened. */
  datatype History = History(resource: Option<nat>, admitted: Time, run: seq<Entry>)

  /**
   * `issued` holds the commands of the control outbox by event id. `tickets`, `grants`,
   * `commits` and `histories` record the past; no transaction reads them.
   */
  datatype Orc = Orc(
    tables: Tables,
    now: Time,
    issued: map<nat, Command>,
    tickets: set<Ticket>,
    grants: seq<Mark>,
    commits: seq<Mark>,
    histories: map<nat, History>)

  datatype Input =
    | Tick(time: Time)
    | Issue(command: Command)
    | DeliverCommand(eventId: nat, delivery: Delivery, inherited: Option<nat>)
    | DeliverReplayRequest(request: ReplayRequested, delivery: Delivery)
    | DeliverReplayCommand(command: Command, delivery: Delivery)
    | ExhaustDelivery(eventId: nat, supported: bool, delivery: Delivery, attempts: nat, replayAllowed: bool)
    | QuarantineRecord(coordinates: Coordinates)
    | WorkerClaims(operationId: nat, worker: nat, leaseMs: Time)
    | WorkerCommits(ticket: Ticket, reply: Reply, decidedAt: Time, random: real)

  function Initial(now: Time): Orc {
    Orc(EmptyTables(), now, map[], {}, [], [], map[])
  }

  // ----- What may happen ---------------------------------------------------------------------

  /** Acceptance mints an operation and its command event together, once. */
  predicate Unissued(s: Orc, command: Command) {
    && command.eventId !in s.issued
    && forall e | e in s.issued :: s.issued[e].operationId != command.operationId
  }

  predicate MayCommit(s: Orc, ticket: Ticket, reply: Reply, at: Time, random: real) {
    && ticket in s.tickets
    && ticket.row.saga.stage.At?
    && Fits(CallOf(ActionOf(ticket.row.command), ticket.row.saga, ticket.row.saga.stage.stage), reply)
    && Admissible(reply)
    && 0.0 <= random < 1.0
    && at <= s.now
  }

  /**
   * A claim may take any ready row: the query asks for the first one, but passes over rows that
   * another transaction has locked, even if that transaction then aborts.
   */
  predicate Enabled(s: Orc, input: Input) {
    match input
    case Tick(time) => s.now <= time
    case Issue(command) => Unissued(s, command)
    case DeliverCommand(eventId, delivery, inherited) =>
      eventId in s.issued && delivery.generation == 0
      && Inherits(s.tables, s.issued[eventId].instanceId, inherited)
    case DeliverReplayRequest(_, _) => true
    case DeliverReplayCommand(_, delivery) => delivery.generation > 0
    case ExhaustDelivery(eventId, _, delivery, _, _) => eventId in s.issued && delivery.generation == 0
    case QuarantineRecord(_) => true
    case WorkerClaims(operationId, worker, leaseMs) =>
      && operationId in s.tables.workflows
      && Ready(s.tables, operationId, worker, s.tables.workflows[operationId].action, s.now)
      && MINIMUM_LEASE_MS <= leaseMs <= MAXIMUM_LEASE_MS
    case WorkerCommits(ticket, reply, at, random) => MayCommit(s, ticket, reply, at, random)
  }

  // ----- What then happens -------------------------------------------------------------------

  function Opened(s: Orc, operationId: nat): map<nat, History>
    requires operationId in s.tables.workflows
  {
    s.histories[operationId := History(s.tables.workflows[operationId].saga.resource, s.now, [])]
  }

  /** Installs new tables; a row that was just admitted or reopened starts a new history. */
  function WithOpened(s: Orc, tables: Tables, operationId: nat): Orc
    requires operationId in tables.workflows
  {
    var next := s.(tables := tables);
    next.(histories := Opened(next, operationId))
  }

  ghost function Delivered(s: Orc, command: Command, delivery: Delivery, inherited: Option<nat>): Orc {
    var outcome := AdmitOriginal(s.tables, command, delivery, inherited, s.now);
    if outcome.Err? then s
    else if outcome.value.1.AdmissionAccepted? then WithOpened(s, outcome.value.0, command.operationId)
    else s.(tables := outcome.value.0)
  }

  ghost function Redelivered(s: Orc, command: Command, delivery: Delivery): Orc {
    var outcome := AdmitReplayCommand(s.tables, command, delivery, s.now);
    if outcome.Err? then s
    else if outcome.value.1.AdmissionAccepted? then WithOpened(s, outcome.value.0, command.operationId)
    else s.(tables := outcome.value.0)
  }

  ghost function Requested(s: Orc, request: ReplayRequested, delivery: Delivery): Orc {
    var outcome := AdmitReplayRequest(s.tables, request, delivery);
    if outcome.Err? then s else s.(tables := outcome.value.0)
  }

  ghost function Exhausted(s: Orc, command: Command, supported: bool, delivery: Delivery, attempts: nat,
                           replayAllowed: bool): Orc {
    var outcome := DeadLetterCommand(s.tables, command, supported, delivery, attempts, replayAllowed);
    if outcome.Err? then s else s.(tables := outcome.value.0)
  }

  function TicketFor(tables: Tables, operationId: nat, worker: nat): Ticket
    requires operationId in tables.workflows
  {
    Ticket(operationId, worker, tables.workflows[operationId].token, tables.workflows[operationId])
  }

  function Claimed(s: Orc, operationId: nat, worker: nat, leaseMs: Time): Orc
    requires operationId in s.tables.workflows
  {
    var outcome := Claim(s.tables, operationId, worker, leaseMs, s.now);
    if outcome.Err? then s
    else
      var ticket := TicketFor(outcome.value, operationId, worker);
      s.(tables := outcome.value,
         tickets := s.tickets + {ticket},
         grants := s.grants + [Mark(ticket.row.instanceId, ticket.token, operationId)])
  }

  function DecisionOf(ticket: Ticket, reply: Reply, at: Time, random: real): Transition
    requires ticket.row.saga.stage.At?
    requires Fits(CallOf(ActionOf(ticket.row.command), ticket.row.saga, ticket.row.saga.stage.stage), reply)
  {
    Decide(ticket.row.command, ticket.row.saga, ticket.row.saga.stage.stage, reply, at, random)
  }

  /** The commit of a decided transition; a fenced worker's transaction throws and changes nothing. */
  function Committed(s: Orc, ticket: Ticket, e: Entry): Orc {
    var outcome := Commit(s.tables, ticket.operationId, ticket.worker, ticket.token, e.transition, s.now);
    if outcome.Err? || ticket.operationId !in s.histories then s
    else
      var history := s.histories[ticket.operationId];
      s.(tables := outcome.value,
         commits := s.commits + [Mark(ticket.row.instanceId, ticket.token, ticket.operationId)],
         histories := s.histories[ticket.operationId := history.(run := history.run + [e])])
  }

  ghost function Step(s: Orc, input: Input): Orc {
    if !Enabled(s, input) then s
    else match input
      case Tick(time) => s.(now := time)
      case Issue(command) => s.(issued := s.issued[command.eventId := command])
      case DeliverCommand(eventId, delivery, inherited) => Delivered(s, s.issued[eventId], delivery, inherited)
      case DeliverReplayRequest(request, delivery) => Requested(s, request, delivery)
      case DeliverReplayCommand(command, delivery) => Redelivered(s, command, delivery)
      case ExhaustDelivery(eventId, supported, delivery, attempts, replayAllowed) =>
        Exhausted(s, s.issued[eventId], supported, delivery, attempts, replayAllowed)
      case QuarantineRecord(at) =>
        s.(tables := s.tables.(poison := Quarantined(s.tables.poison, at, Undecodable)))
      case WorkerClaims(operationId, worker, leaseMs) => Claimed(s, operationId, worker, leaseMs)
      case WorkerCommits(ticket, reply, at, random) =>
        Committed(s, ticket, Entry(ticket.row.saga, reply, at, random, s.now, DecisionOf(ticket, reply, at, random)))
  }

  /** The state after any finite sequence of inputs. */
  ghost function Run(start: Time, inputs: seq<Input>): Orc {
    if inputs == [] then Initial(start) else Step(Run(start, inputs[..|inputs| - 1]), inputs[|inputs| - 1])
  }
}
