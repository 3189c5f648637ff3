/**
 * The orchestrator and the provider together: workers crash before they commit, replies are lost
 * after the provider applied them, leases move to other workers, calls overlap, operators replay.
 */
module Effects {
  import opened Prelude
  import opened Stages
  import opened SagaEngine
  import opened SagaRuns
  import opened EarnedSuccess
  import opened WorkflowTables
  import opened Orchestrator
  import opened Fencing
  import opened RowRuns
  import opened Provider

  // ----- The request a worker sends ----------------------------------------------------------

  function VerbAt(command: Command, stage: Stage): Verb {
    match command.data
    case CreateData(_) =>
      if stage.SubmittingCreate? then SubmitCreate else if stage.Configuring? then ApplyConfiguration else StartVm
    case PowerData(StartPower) => StartVm
    case PowerData(ShutdownPower) => ShutdownVm
    case PowerData(StopPower) => StopVm
    case PowerData(RebootPower) => RebootVm
    case ResizeData(_) => ResizeVm
    case SnapshotCreateData(_, _) => CreateSnap
    case SnapshotRollbackData(_, _) => RollbackSnap
    case SnapshotDeleteData(_, _) => DeleteSnap
    case RetentionData(_) => MarkRetained
    case PurgeData(_) => PurgeVm
  }

  function StepAt(command: Command, stage: Stage): StepName {
    match command.data
    case CreateData(_) =>
      if stage.SubmittingCreate? then StepCreate else if stage.Configuring? then StepConfigure else StepStart
    case PowerData(request) => StepPower(request)
    case ResizeData(_) => StepResize
    case RetentionData(_) => StepRetain
    case PurgeData(_) => StepPurge
    case _ => StepSnapshot(ActionOf(command))
  }

  /** The identity a mutation presents: derived from operation and step, never drawn at random. */
  function KeyAt(command: Command, stage: Stage): Key {
    Key(VerbAt(command, stage), command.operationId, StepAt(command, stage))
  }

  function MarkersOf(command: Command): Markers {
    Markers(command.projectId, command.instanceId, command.createOperationId)
  }

  function RequestFor(command: Command, resource: Option<nat>, stage: Stage, token: nat): Request {
    Request(KeyAt(command, stage), command.correlation, token, command.instanceId,
            if stage.SubmittingCreate? then None else resource, MarkersOf(command), command.data)
  }

  function RequestOf(c: Ticket): Request
    requires c.row.saga.stage.At?
  {
    RequestFor(c.row.command, c.row.saga.resource, c.row.saga.stage.stage, c.token)
  }

  predicate Mutates(c: Ticket) {
    c.row.saga.stage.At? && CallOf(ActionOf(c.row.command), c.row.saga, c.row.saga.stage.stage).MutationCall?
  }

  /** Within one operation the request ids of different mutation stages differ. */
  lemma StagesHaveTheirOwnKeys(command: Command, stage: Stage, other: Stage)
    requires stage in MutationStages(ActionOf(command)) && other in MutationStages(ActionOf(command))
    requires KeyAt(command, stage) == KeyAt(command, other)
    ensures stage == other
  {
  }

  // ----- The composed system -----------------------------------------------------------------

  /** What a worker was told when it looked. */
  datatype Heard = Heard(ticket: Ticket, reply: Reply)

  /** `callers` and `answers` are kept per call number of a mutation, `heard` for all queries. */
  datatype Cloud = Cloud(orc: Orc, traffic: Traffic, callers: map<nat, Ticket>, answers: map<nat, Reply>, heard: set<Heard>)

  datatype CloudInput =
    | Orchestrate(input: Input)
    | BeginCall(ticket: Ticket, script: Script)
    | FinishCall(call: nat, aborted: bool)
    | Query(ticket: Ticket)
    | ProviderPolls(task: nat)

  function InitialCloud(now: Time): Cloud {
    Cloud(Initial(now), Traffic(EmptyWorld(), map[], 0), map[], map[], {})
  }

  predicate Looks(c: Ticket) {
    c.row.saga.stage.At?
    && var call := CallOf(ActionOf(c.row.command), c.row.saga, c.row.saga.stage.stage);
       call.TaskCall? || call.ObserveCall? || call.ListCall?
  }

  /** What the provider answers when the worker looks: it reads the machines as they are then. */
  function QueryAnswer(w: World, c: Ticket): (World, Reply)
    requires Looks(c)
  {
    var call := CallOf(ActionOf(c.row.command), c.row.saga, c.row.saga.stage.stage);
    if call.TaskCall? then
      var (next, state) := PollTask(w, call.task);
      (next, Task(state, None))
    else if call.ObserveCall? then (w, Observed(Some(Observe(w, c.row.saga.resource.value, MarkersOf(c.row.command)))))
    else (w, ListSnapshots(w, c.row.saga.resource.value, MarkersOf(c.row.command)))
  }

  /** A worker learns only by the provider's answer to its own call or query, or by an error. */
  ghost predicate Learned(s: Cloud, c: Ticket, reply: Reply) {
    && (reply.Mutation? ==> exists call :: call in s.answers && call in s.callers
                              && s.callers[call] == c && s.answers[call] == reply)
    && (Looks(c) && !reply.Transport? ==> Heard(c, reply) in s.heard)
  }

  ghost predicate CloudEnabled(s: Cloud, input: CloudInput) {
    match input
    case Orchestrate(input) => input.WorkerCommits? ==> Learned(s, input.ticket, input.reply)
    case BeginCall(ticket, _) => ticket in s.orc.tickets && Mutates(ticket)
    case FinishCall(call, _) => call in s.traffic.waiting
    case Query(ticket) => ticket in s.orc.tickets && Looks(ticket)
    case ProviderPolls(_) => true
  }

  function BeginAnswered(s: Cloud, c: Ticket, script: Script): Cloud
    requires Mutates(c)
  {
    var call, reply := s.traffic.begun, Begin(s.traffic.world, RequestOf(c), script).1;
    s.(traffic := TrafficStep(s.traffic, BeginInput(RequestOf(c), script)),
       callers := s.callers[call := c],
       answers := if reply.Some? then s.answers[call := reply.value] else s.answers)
  }

  function FinishAnswered(s: Cloud, call: nat, aborted: bool): Cloud
    requires call in s.traffic.waiting
  {
    var waiting := s.traffic.waiting[call];
    s.(traffic := TrafficStep(s.traffic, FinishInput(call, aborted)),
       answers := s.answers[call := Finish(s.traffic.world, waiting.request, waiting.script, aborted).1])
  }

  function Answered(s: Cloud, c: Ticket): Cloud
    requires Looks(c)
  {
    var (next, reply) := QueryAnswer(s.traffic.world, c);
    s.(traffic := s.traffic.(world := next), heard := s.heard + {Heard(c, reply)})
  }

  ghost function CloudStep(s: Cloud, input: CloudInput): Cloud {
    if !CloudEnabled(s, input) then s
    else match input
      case Orchestrate(input) => s.(orc := Step(s.orc, input))
      case BeginCall(ticket, script) => BeginAnswered(s, ticket, script)
      case FinishCall(call, aborted) => FinishAnswered(s, call, aborted)
      case Query(ticket) => Answered(s, ticket)
      case ProviderPolls(task) => s.(traffic := TrafficStep(s.traffic, PollInput(task)))
  }

  ghost function CloudRun(start: Time, inputs: seq<CloudInput>): Cloud {
    if inputs == [] then InitialCloud(start) else CloudStep(CloudRun(start, inputs[..|inputs| - 1]), inputs[|inputs| - 1])
  }

  /** No worker begins a call while another with the same operation and step is still waiting. */
  ghost predicate Sequential(start: Time, inputs: seq<CloudInput>) {
    forall k | 0 <= k < |inputs| && inputs[k].BeginCall? && inputs[k].ticket.row.saga.stage.At? ::
      !InFlight(CloudRun(start, inputs[..k]).traffic, RequestOf(inputs[k].ticket).key)
  }

  // ----- Tickets -----------------------------------------------------------------------------

  ghost predicate TicketsIdentified(s: Orc) {
    forall c | c in s.tickets :: IdentifiedRow(s, c.operationId, c.row)
  }

  lemma StepKeepsTickets(s: Orc, input: Input)
    requires Identified(s) && TicketsIdentified(s)
    ensures TicketsIdentified(Step(s, input))
  {
    StepShape(s, input);
    IssuedCommandsStay(s, input);
    var t := Step(s, input);
    forall c | c in t.tickets
      ensures IdentifiedRow(t, c.operationId, c.row)
    {
      if c !in s.tickets {
        ClaimRowEffectOn(s, input, c);
      }
    }
  }

  lemma IssuedCommandsStay(s: Orc, input: Input)
    ensures forall e | e in s.issued :: e in Step(s, input).issued && Step(s, input).issued[e] == s.issued[e]
  {
    if Enabled(s, input) && input.DeliverReplayCommand? {
      var id := ReplayCommandOutcome(s.tables, input.command, input.delivery, s.now);
    }
  }

  lemma ClaimRowEffectOn(s: Orc, input: Input, c: Ticket)
    requires Identified(s) && c in Step(s, input).tickets && c !in s.tickets
    ensures IdentifiedRow(Step(s, input), c.operationId, c.row)
    ensures c.operationId in s.tables.workflows
    ensures c.row.instanceId == s.tables.workflows[c.operationId].instanceId
    ensures c.row.saga.resource == s.tables.workflows[c.operationId].saga.resource
  {
    StepShape(s, input);
    ClaimRowEffect(s, input.operationId, input.worker, input.leaseMs);
    assert RowIdentity(s, c.operationId);
  }

  // ----- What the provider's answers rest on -------------------------------------------------

  /** The machine was created for the instance (it may be gone since). */
  ghost predicate Belongs(w: World, resource: nat, instanceId: nat) {
    resource in w.created && w.created[resource] == instanceId
  }

  /** An acceptance means the request was applied, and names a machine of the request's instance. */
  ghost predicate Grounded(w: World, result: MutationResult, key: Key, instanceId: nat) {
    && !result.state.ResultSucceeded?
    && (result.state.ResultAccepted? ==>
          && key in w.executed
          && result.resource.Some? && result.resource.value.Ref?
          && Belongs(w, result.resource.value.id, instanceId))
  }

  ghost predicate MachinesGrounded(w: World) {
    && Indexed(w) && Marked(w)
    && (forall id | id in w.vms :: Belongs(w, id, w.vms[id].instanceId))
    && (forall id | id in w.created :: id <= w.sequence)
  }

  ghost predicate CacheGrounded(w: World) {
    forall key | key in w.cache ::
      w.cache[key].canonical.key == key && Grounded(w, w.cache[key].result, key, w.cache[key].canonical.instanceId)
  }

  ghost predicate WorldGrounded(w: World) {
    MachinesGrounded(w) && CacheGrounded(w)
  }

  /** The past only grows. */
  ghost predicate Remembers(w: World, next: World) {
    && (forall id | id in w.created :: id in next.created && next.created[id] == w.created[id])
    && (forall key | key in w.executed :: key in next.executed)
  }

  lemma GroundedStays(w: World, next: World, result: MutationResult, key: Key, instanceId: nat)
    requires Remembers(w, next) && Grounded(w, result, key, instanceId)
    ensures Grounded(next, result, key, instanceId)
  {
  }

  lemma ShapesKeepMachines(w: World, next: World, r: Request)
    requires MachinesGrounded(w) && Coherent(r) && w.sequence <= next.sequence
    requires SameMachines(w, next) || (AddsMachine(w, next, r) && w.sequence < next.sequence) || RemovesMachine(w, next, r)
    ensures MachinesGrounded(next)
    ensures forall id | id in w.created :: id in next.created && next.created[id] == w.created[id]
  {
    ShapesKeepIndexed(w, next, r);
  }

  /** Only the instance's own machine is ever named by an acceptance. */
  lemma AcceptanceNamesOwn(w: World, r: Request)
    requires MachinesGrounded(w) && Coherent(r)
    ensures var (next, result) := Execute(w, r);
            && !result.state.ResultSucceeded?
            && (result.state.ResultAccepted? ==>
                  result.resource.Some? && result.resource.value.Ref? && Belongs(next, result.resource.value.id, r.instanceId))
  {
    ExecuteShape(w, r);
    if !r.key.verb.SubmitCreate? && Owned(w, r) {
      assert w.vms[r.resource.value].instanceId == r.instanceId;
      if IsSnapshotVerb(r.key.verb) {
        SnapshotAcceptance(w, r);
      } else if !r.key.verb.PurgeVm? {
        var changed := ChangedVm(w.vms[r.resource.value], r.key.verb, r.data);
        assert changed.Some? ==> Execute(w, r) == ChangeVm(w, r, changed.value);
      }
    }
  }

  lemma SnapshotAcceptance(w: World, r: Request)
    requires Owned(w, r)
    ensures var (next, result) := SnapshotChange(w, r);
            next.created == w.created && !result.state.ResultSucceeded?
            && (result.state.ResultAccepted? ==> result.resource == Some(Ref(r.resource.value)))
  {
  }

  lemma ApplyIsGrounded(w: World, r: Request)
    requires WorldGrounded(w) && Coherent(r)
    ensures var (next, result) := Apply(w, r);
            && MachinesGrounded(next) && CacheGrounded(next) && Remembers(w, next)
            && Grounded(next, result, r.key, r.instanceId)
  {
    var (next, result) := Apply(w, r);
    ExecuteShape(w, r);
    ShapesKeepMachines(w, Execute(w, r).0, r);
    AcceptanceNamesOwn(w, r);
    assert Remembers(w, next);
    forall key | key in next.cache
      ensures Grounded(next, next.cache[key].result, key, next.cache[key].canonical.instanceId)
    {
      GroundedStays(w, next, w.cache[key].result, key, w.cache[key].canonical.instanceId);
    }
  }

  lemma RememberIsGrounded(w: World, r: Request, result: MutationResult)
    requires WorldGrounded(w) && Grounded(w, result, r.key, r.instanceId)
    ensures WorldGrounded(Remember(w, r, result))
    ensures Remembers(w, Remember(w, r, result)) && Grounded(Remember(w, r, result), result, r.key, r.instanceId)
  {
  }

  /** An answer, if it is one to a mutation, is grounded for the request it answers. */
  ghost predicate AnswerGrounded(w: World, reply: Reply, key: Key, instanceId: nat) {
    reply.Mutation? ==> reply.result.Some? && Grounded(w, reply.result.value, key, instanceId)
  }

  lemma BeginIsGrounded(w: World, r: Request, script: Script)
    requires WorldGrounded(w) && Coherent(r)
    ensures var (next, reply) := Begin(w, r, script);
            && WorldGrounded(next) && Remembers(w, next)
            && (reply.Some? ==> AnswerGrounded(next, reply.value, r.key, r.instanceId))
  {
    ApplyIsGrounded(w, r);
    var (next, result) := Apply(w, r);
    RememberIsGrounded(next, r, result);
  }

  lemma PollsKeepGrounded(w: World, result: MutationResult, polls: Option<nat>)
    requires WorldGrounded(w)
    ensures WorldGrounded(WithPolls(w, result, polls)) && Remembers(w, WithPolls(w, result, polls))
  {
    var next := WithPolls(w, result, polls);
    assert next == w.(tasks := next.tasks);
  }

  lemma FinishIsGrounded(w: World, r: Request, script: Script, aborted: bool)
    requires WorldGrounded(w) && Coherent(r)
    ensures var (next, reply) := Finish(w, r, script, aborted);
            WorldGrounded(next) && Remembers(w, next) && AnswerGrounded(next, reply, r.key, r.instanceId)
  {
    if !aborted {
      ApplyIsGrounded(w, r);
      var (next, result) := Apply(w, r);
      match script
      case TimesOut(_, _) =>
      case Fails(category, code) => RememberIsGrounded(w, r, Refusal(category, code));
      case OutcomeUnknown(applied) => RememberIsGrounded(if applied then next else w, r, UNKNOWN_RESULT);
      case Works(polls) =>
        PollsKeepGrounded(next, result, polls);
        GroundedStays(next, WithPolls(next, result, polls), result, r.key, r.instanceId);
        RememberIsGrounded(WithPolls(next, result, polls), r, result);
    }
  }

  // ----- The invariant of the composed system ------------------------------------------------

  /** Every call in flight or answered was made for a granted ticket, and its answer is grounded. */
  ghost predicate CallsGrounded(s: Cloud) {
    && (forall call | call in s.traffic.waiting ::
          && call in s.callers && Mutates(s.callers[call]) && s.callers[call] in s.orc.tickets
          && s.traffic.waiting[call].request == RequestOf(s.callers[call]))
    && (forall call | call in s.answers ::
          && call in s.callers && Mutates(s.callers[call]) && s.callers[call] in s.orc.tickets
          && AnswerGrounded(s.traffic.world, s.answers[call], RequestOf(s.callers[call]).key,
                            s.callers[call].row.instanceId))
    && (forall call | call in s.callers :: call < s.traffic.begun)
  }

  ghost predicate NamesOwn(w: World, row: Workflow) {
    row.saga.resource.Some? ==> Belongs(w, row.saga.resource.value, row.instanceId)
  }

  /** No row and no ticket names a machine created for another instance. */
  ghost predicate RowsNameOwn(s: Cloud) {
    && (forall op | op in s.orc.tables.workflows :: NamesOwn(s.traffic.world, s.orc.tables.workflows[op]))
    && (forall c | c in s.orc.tickets :: NamesOwn(s.traffic.world, c.row))
  }

  /** The commit rests on a reply that the mutation was taken on or done. */
  predicate Achieved(e: Entry) {
    e.saga.stage.At? && e.reply.Mutation? && e.reply.result.Some?
    && (e.reply.result.value.state.ResultAccepted? || e.reply.result.value.state.ResultSucceeded?)
  }

  /** Every achieved mutation in the history of a row was applied by the provider. */
  ghost predicate EntriesExecuted(s: Cloud) {
    forall op, k | op in s.orc.tables.workflows && op in s.orc.histories && 0 <= k < |s.orc.histories[op].run|
      && Achieved(s.orc.histories[op].run[k]) ::
      KeyAt(s.orc.tables.workflows[op].command, s.orc.histories[op].run[k].saga.stage.stage) in s.traffic.world.executed
  }

  ghost predicate ProviderSide(s: Cloud) {
    WorldGrounded(s.traffic.world) && CallsGrounded(s)
  }

  ghost predicate RowSide(s: Cloud) {
    RowsNameOwn(s) && EntriesExecuted(s)
  }

  ghost predicate Composed(s: Cloud) {
    Invariant(s.orc) && TicketsIdentified(s.orc) && ProviderSide(s) && RowSide(s)
  }

  // ----- Provider steps keep it --------------------------------------------------------------

  /** A provider step leaves the orchestrator alone and only adds to the provider's past. */
  lemma ProviderStepKeepsRows(s: Cloud, t: Cloud)
    requires t.orc == s.orc && Remembers(s.traffic.world, t.traffic.world)
    requires RowSide(s)
    ensures RowSide(t)
  {
  }

  lemma AnswersStayGrounded(s: Cloud, next: World, call: nat)
    requires CallsGrounded(s) && Remembers(s.traffic.world, next) && call in s.answers
    ensures AnswerGrounded(next, s.answers[call], RequestOf(s.callers[call]).key, s.callers[call].row.instanceId)
  {
    if s.answers[call].Mutation? {
      GroundedStays(s.traffic.world, next, s.answers[call].result.value, RequestOf(s.callers[call]).key,
                    s.callers[call].row.instanceId);
    }
  }

  lemma RequestsAreCoherent(s: Orc, c: Ticket)
    requires TicketsIdentified(s) && c in s.tickets && Mutates(c)
    ensures Coherent(RequestOf(c)) && RequestOf(c).instanceId == c.row.instanceId
  {
  }

  lemma BeginKeepsCalls(s: Cloud, c: Ticket, script: Script)
    requires TicketsIdentified(s.orc) && ProviderSide(s) && c in s.orc.tickets && Mutates(c)
    ensures ProviderSide(BeginAnswered(s, c, script))
    ensures Remembers(s.traffic.world, BeginAnswered(s, c, script).traffic.world)
  {
    var t, r := BeginAnswered(s, c, script), RequestOf(c);
    RequestsAreCoherent(s.orc, c);
    BeginIsGrounded(s.traffic.world, r, script);
    forall call | call in t.answers
      ensures AnswerGrounded(t.traffic.world, t.answers[call], RequestOf(t.callers[call]).key, t.callers[call].row.instanceId)
    {
      if call != s.traffic.begun {
        AnswersStayGrounded(s, t.traffic.world, call);
      }
    }
  }

  lemma FinishKeepsCalls(s: Cloud, call: nat, aborted: bool)
    requires TicketsIdentified(s.orc) && ProviderSide(s) && call in s.traffic.waiting
    ensures ProviderSide(FinishAnswered(s, call, aborted))
    ensures Remembers(s.traffic.world, FinishAnswered(s, call, aborted).traffic.world)
  {
    var t, waiting := FinishAnswered(s, call, aborted), s.traffic.waiting[call];
    RequestsAreCoherent(s.orc, s.callers[call]);
    FinishIsGrounded(s.traffic.world, waiting.request, waiting.script, aborted);
    forall other | other in t.answers
      ensures AnswerGrounded(t.traffic.world, t.answers[other], RequestOf(t.callers[other]).key,
                             t.callers[other].row.instanceId)
    {
      if other != call {
        AnswersStayGrounded(s, t.traffic.world, other);
      }
    }
  }

  /** Polling and looking change at most how often a task will still be reported as running. */
  ghost predicate OnlyLooked(s: Cloud, t: Cloud) {
    && t == s.(traffic := t.traffic, heard := t.heard) && t.traffic == s.traffic.(world := t.traffic.world)
    && t.traffic.world == s.traffic.world.(tasks := t.traffic.world.tasks)
  }

  lemma LookingKeepsSides(s: Cloud, t: Cloud)
    requires ProviderSide(s) && RowSide(s) && OnlyLooked(s, t)
    ensures ProviderSide(t) && RowSide(t)
  {
    forall call | call in t.answers
      ensures AnswerGrounded(t.traffic.world, t.answers[call], RequestOf(t.callers[call]).key, t.callers[call].row.instanceId)
    {
      AnswersStayGrounded(s, t.traffic.world, call);
    }
  }

  lemma ProviderStepsKeepSides(s: Cloud, input: CloudInput)
    requires TicketsIdentified(s.orc) && ProviderSide(s) && RowSide(s)
    requires !input.Orchestrate? && CloudEnabled(s, input)
    ensures var t := CloudStep(s, input); t.orc == s.orc && ProviderSide(t) && RowSide(t)
  {
    match input
    case BeginCall(ticket, script) => BeginKeepsSides(s, ticket, script);
    case FinishCall(call, aborted) => FinishKeepsSides(s, call, aborted);
    case Query(ticket) => LookingKeepsSides(s, Answered(s, ticket));
    case ProviderPolls(task) => LookingKeepsSides(s, s.(traffic := TrafficStep(s.traffic, PollInput(task))));
  }

  lemma BeginKeepsSides(s: Cloud, c: Ticket, script: Script)
    requires TicketsIdentified(s.orc) && ProviderSide(s) && RowSide(s) && c in s.orc.tickets && Mutates(c)
    ensures ProviderSide(BeginAnswered(s, c, script)) && RowSide(BeginAnswered(s, c, script))
  {
    BeginKeepsCalls(s, c, script);
    ProviderStepKeepsRows(s, BeginAnswered(s, c, script));
  }

  lemma FinishKeepsSides(s: Cloud, call: nat, aborted: bool)
    requires TicketsIdentified(s.orc) && ProviderSide(s) && RowSide(s) && call in s.traffic.waiting
    ensures ProviderSide(FinishAnswered(s, call, aborted)) && RowSide(FinishAnswered(s, call, aborted))
  {
    FinishKeepsCalls(s, call, aborted);
    ProviderStepKeepsRows(s, FinishAnswered(s, call, aborted));
  }

  // ----- Orchestrator steps keep it ----------------------------------------------------------

  /** Where a commit's resource comes from: the claimed row, or the answer to its own mutation. */
  lemma CommitResource(command: Command, e: Entry)
    requires Decided(command, e) && e.saga.status.Running?
    ensures After(e).resource == e.saga.resource
         || (e.reply.Mutation? && Achieved(e) && After(e).resource.Some?
             && e.reply.result.value.resource == Some(Ref(After(e).resource.value)))
    ensures e.reply.Mutation? ==> CallOf(ActionOf(command), e.saga, e.saga.stage.stage).MutationCall?
  {
  }

  /** Rows old, claimed or restarted name what a row of their instance named before, or nothing. */
  ghost predicate ResourcesInherited(s: Orc, t: Orc) {
    && (forall op | op in t.tables.workflows && t.tables.workflows[op].saga.resource.Some? ::
          exists from :: from in s.tables.workflows
            && s.tables.workflows[from].instanceId == t.tables.workflows[op].instanceId
            && s.tables.workflows[from].saga.resource == t.tables.workflows[op].saga.resource)
    && t.tickets == s.tickets
  }

  lemma AdmissionInherits(s: Orc, command: Command, delivery: Delivery, inherited: Option<nat>)
    requires Inherits(s.tables, command.instanceId, inherited)
    ensures ResourcesInherited(s, Delivered(s, command, delivery, inherited))
  {
    var t := Delivered(s, command, delivery, inherited);
    AdmitOriginalOutcome(s.tables, command, delivery, inherited, s.now);
    if inherited.Some? {
      var from :| from in s.tables.workflows && IsOldestKnown(s.tables, command.instanceId, from)
                  && s.tables.workflows[from].saga.resource == inherited;
      assert s.tables.workflows[from].instanceId == command.instanceId;
    }
  }

  lemma ReopeningInherits(s: Orc, command: Command, delivery: Delivery)
    ensures ResourcesInherited(s, Redelivered(s, command, delivery))
  {
    var id := ReplayCommandOutcome(s.tables, command, delivery, s.now);
  }

  lemma OtherStepsInherit(s: Orc, input: Input)
    requires Enabled(s, input) && !input.WorkerClaims? && !input.WorkerCommits?
    ensures ResourcesInherited(s, Step(s, input))
  {
    match input
    case DeliverCommand(eventId, delivery, inherited) => AdmissionInherits(s, s.issued[eventId], delivery, inherited);
    case DeliverReplayCommand(command, delivery) => ReopeningInherits(s, command, delivery);
    case DeliverReplayRequest(request, delivery) => RequestsKeepRows(s, request, delivery);
    case ExhaustDelivery(eventId, supported, delivery, attempts, allowed) =>
      ExhaustionsKeepRows(s, s.issued[eventId], supported, delivery, attempts, allowed);
    case _ =>
  }

  lemma InheritanceKeepsOwn(s: Cloud, t: Cloud)
    requires t == s.(orc := t.orc) && ResourcesInherited(s.orc, t.orc) && RowsNameOwn(s)
    ensures RowsNameOwn(t)
  {
  }

  lemma RestartsKeepEntries(s: Cloud, t: Cloud)
    requires t == s.(orc := t.orc) && Restarts(s.orc, t.orc) && RowsRun(s.orc) && EntriesExecuted(s)
    ensures EntriesExecuted(t)
  {
    forall op, k | op in t.orc.tables.workflows && op in t.orc.histories && 0 <= k < |t.orc.histories[op].run|
      && Achieved(t.orc.histories[op].run[k])
      ensures KeyAt(t.orc.tables.workflows[op].command, t.orc.histories[op].run[k].saga.stage.stage)
              in t.traffic.world.executed
    {
      assert op in s.orc.tables.workflows ==> RowRun(s.orc, op);
    }
  }

  lemma ClaimKeepsOwn(s: Cloud, t: Cloud, op: nat, c: Ticket)
    requires t == s.(orc := t.orc) && ClaimsRow(s.orc, t.orc, op) && t.orc.tickets == s.orc.tickets + {c}
    requires c.row == t.orc.tables.workflows[op] && RowsNameOwn(s) && EntriesExecuted(s)
    ensures RowsNameOwn(t) && EntriesExecuted(t)
  {
  }

  lemma CommitKeepsOwn(s: Cloud, t: Cloud, op: nat, e: Entry)
    requires t == s.(orc := t.orc) && CommitsRow(s.orc, t.orc, op, e)
    requires Decided(s.orc.tables.workflows[op].command, e) && e.saga.status.Running? && e.now == s.orc.now
    requires RowsNameOwn(s) && EntriesExecuted(s)
    requires Achieved(e) ==>
               Grounded(s.traffic.world, e.reply.result.value, KeyAt(s.orc.tables.workflows[op].command, e.saga.stage.stage),
                        s.orc.tables.workflows[op].instanceId)
    ensures RowsNameOwn(t) && EntriesExecuted(t)
  {
    CommitResource(s.orc.tables.workflows[op].command, e);
    assert NamesOwn(s.traffic.world, t.orc.tables.workflows[op]);
  }

  lemma OrchestratorKeepsCalls(s: Cloud, t: Cloud)
    requires t == s.(orc := t.orc) && s.orc.tickets <= t.orc.tickets && ProviderSide(s)
    ensures ProviderSide(t)
  {
  }

  lemma TicketsStay(s: Orc, input: Input)
    ensures s.tickets <= Step(s, input).tickets
  {
    StepShape(s, input);
  }

  /** The answer a commit rests on is the grounded answer to its own call. */
  lemma LearnedIsGrounded(s: Cloud, c: Ticket, reply: Reply)
    requires ProviderSide(s) && Mutates(c) && Learned(s, c, reply)
    ensures AnswerGrounded(s.traffic.world, reply, KeyAt(c.row.command, c.row.saga.stage.stage), c.row.instanceId)
  {
    if reply.Mutation? {
      var call :| call in s.answers && call in s.callers && s.callers[call] == c && s.answers[call] == reply;
      assert AnswerGrounded(s.traffic.world, s.answers[call], RequestOf(s.callers[call]).key, s.callers[call].row.instanceId);
    }
  }

  lemma CommitKeepsRows(s: Cloud, input: Input)
    requires Fenced(s.orc) && ProviderSide(s) && RowSide(s)
    requires input.WorkerCommits? && Learned(s, input.ticket, input.reply)
    ensures RowSide(s.(orc := Step(s.orc, input)))
  {
    if Enabled(s.orc, input) && Step(s.orc, input) != s.orc {
      var c := input.ticket;
      var e := Entry(c.row.saga, input.reply, input.decidedAt, input.random, s.orc.now,
                     DecisionOf(c, input.reply, input.decidedAt, input.random));
      CommitIsDecided(s.orc, input);
      CommitResource(c.row.command, e);
      if Achieved(e) {
        LearnedIsGrounded(s, c, input.reply);
      }
      CommitKeepsOwn(s, s.(orc := Step(s.orc, input)), c.operationId, e);
    }
  }

  lemma ClaimKeepsRows(s: Cloud, input: Input)
    requires RowSide(s) && input.WorkerClaims?
    ensures RowSide(s.(orc := Step(s.orc, input)))
  {
    if Enabled(s.orc, input) && Step(s.orc, input) != s.orc {
      var t := Step(s.orc, input);
      ClaimRowEffect(s.orc, input.operationId, input.worker, input.leaseMs);
      ClaimEffect(s.orc, input.operationId, input.worker, input.leaseMs);
      ClaimKeepsOwn(s, s.(orc := t), input.operationId,
        Ticket(input.operationId, input.worker, t.tables.workflows[input.operationId].token,
               t.tables.workflows[input.operationId]));
    }
  }

  lemma OrchestratorKeepsRows(s: Cloud, input: Input)
    requires Fenced(s.orc) && RowsRun(s.orc) && ProviderSide(s) && RowSide(s)
    requires input.WorkerCommits? ==> Learned(s, input.ticket, input.reply)
    ensures RowSide(s.(orc := Step(s.orc, input)))
  {
    if input.WorkerCommits? {
      CommitKeepsRows(s, input);
    } else if input.WorkerClaims? {
      ClaimKeepsRows(s, input);
    } else if Enabled(s.orc, input) {
      OtherStepsInherit(s.orc, input);
      OtherStepsRestart(s.orc, input);
      InheritanceKeepsOwn(s, s.(orc := Step(s.orc, input)));
      RestartsKeepEntries(s, s.(orc := Step(s.orc, input)));
    }
  }

  lemma StepKeepsInvariant(s: Orc, input: Input)
    requires Invariant(s)
    ensures Invariant(Step(s, input))
  {
    StepKeepsFenced(s, input);
    StepKeepsIdentity(s, input);
    StepKeepsRuns(s, input);
  }

  lemma CloudStepKeepsComposed(s: Cloud, input: CloudInput)
    requires Composed(s)
    ensures Composed(CloudStep(s, input))
  {
    if CloudEnabled(s, input) {
      match input
      case Orchestrate(input) =>
        StepKeepsInvariant(s.orc, input);
        StepKeepsTickets(s.orc, input);
        TicketsStay(s.orc, input);
        OrchestratorKeepsCalls(s, s.(orc := Step(s.orc, input)));
        OrchestratorKeepsRows(s, input);
      case _ => ProviderStepsKeepSides(s, input);
    }
  }

  lemma {:induction false} RunsAreComposed(start: Time, inputs: seq<CloudInput>)
    ensures Composed(CloudRun(start, inputs))
  {
    if inputs == [] {
      RowsAreSagaRuns(start, []);
    } else {
      RunsAreComposed(start, inputs[..|inputs| - 1]);
      CloudStepKeepsComposed(CloudRun(start, inputs[..|inputs| - 1]), inputs[|inputs| - 1]);
    }
  }

  // ----- Safety of effects -------------------------------------------------------------------

  /**
   * Over crashes, lost replies, takeovers, overlapping calls and governed replay: an instance
   * never has two machines, and no row ever names a machine created for another instance.
   */
  lemma OneMachinePerInstanceAlways(start: Time, inputs: seq<CloudInput>)
    ensures var s := CloudRun(start, inputs);
            var w := s.traffic.world;
            && (forall id, id' | id in w.vms && id' in w.vms && w.vms[id].instanceId == w.vms[id'].instanceId :: id == id')
            && (forall op | op in s.orc.tables.workflows && s.orc.tables.workflows[op].saga.resource.Some? ::
                  var resource := s.orc.tables.workflows[op].saga.resource.value;
                  resource in w.created && w.created[resource] == s.orc.tables.workflows[op].instanceId)
  {
    RunsAreComposed(start, inputs);
  }

  /** A provider step made for a worker changes no machine of any other instance. */
  lemma CallsStayHome(start: Time, inputs: seq<CloudInput>, input: CloudInput, c: Ticket, id: nat)
    requires var s := CloudRun(start, inputs);
             && CloudEnabled(s, input)
             && ((input.BeginCall? && input.ticket == c) || (input.FinishCall? && input.call in s.callers && s.callers[input.call] == c))
             && id in s.traffic.world.vms && s.traffic.world.vms[id].instanceId != c.row.instanceId
    ensures var before := CloudRun(start, inputs).traffic.world;
            var after := CloudStep(CloudRun(start, inputs), input).traffic.world;
            id in after.vms && after.vms[id] == before.vms[id] && Snapshots(after, id) == Snapshots(before, id)
  {
    var s := CloudRun(start, inputs);
    RunsAreComposed(start, inputs);
    CallStaysHomeAt(s, input, c, id);
  }

  lemma BeginStaysHome(w: World, r: Request, script: Script, id: nat)
    requires Indexed(w) && Marked(w) && Coherent(r) && id in w.vms && w.vms[id].instanceId != r.instanceId
    ensures var next := Begin(w, r, script).0;
            id in next.vms && next.vms[id] == w.vms[id] && Snapshots(next, id) == Snapshots(w, id)
  {
    ExecuteStaysHome(w, r, id);
  }

  lemma FinishStaysHome(w: World, r: Request, script: Script, aborted: bool, id: nat)
    requires Indexed(w) && Marked(w) && Coherent(r) && id in w.vms && w.vms[id].instanceId != r.instanceId
    ensures var next := Finish(w, r, script, aborted).0;
            id in next.vms && next.vms[id] == w.vms[id] && Snapshots(next, id) == Snapshots(w, id)
  {
    ExecuteStaysHome(w, r, id);
    FinishIsExecute(w, r, script, aborted);
  }

  lemma CallStaysHomeAt(s: Cloud, input: CloudInput, c: Ticket, id: nat)
    requires TicketsIdentified(s.orc) && ProviderSide(s) && CloudEnabled(s, input)
    requires (input.BeginCall? && input.ticket == c) || (input.FinishCall? && input.call in s.callers && s.callers[input.call] == c)
    requires id in s.traffic.world.vms && s.traffic.world.vms[id].instanceId != c.row.instanceId
    ensures var before := s.traffic.world;
            var after := CloudStep(s, input).traffic.world;
            id in after.vms && after.vms[id] == before.vms[id] && Snapshots(after, id) == Snapshots(before, id)
  {
    RequestsAreCoherent(s.orc, c);
    if input.BeginCall? {
      BeginStaysHome(s.traffic.world, RequestOf(c), input.script, id);
    } else {
      FinishStaysHome(s.traffic.world, RequestOf(c), s.traffic.waiting[input.call].script, input.aborted, id);
    }
  }

  lemma CloudStepKeepsAtMostOnce(s: Cloud, input: CloudInput)
    requires AtMostOnce(s.traffic)
    requires input.BeginCall? && input.ticket.row.saga.stage.At? ==> !InFlight(s.traffic, RequestOf(input.ticket).key)
    ensures AtMostOnce(CloudStep(s, input).traffic)
  {
    if CloudEnabled(s, input) {
      match input
      case Orchestrate(_) =>
      case BeginCall(ticket, script) => TrafficKeepsAtMostOnce(s.traffic, BeginInput(RequestOf(ticket), script));
      case FinishCall(call, aborted) => TrafficKeepsAtMostOnce(s.traffic, FinishInput(call, aborted));
      case _ =>
    }
  }

  /**
   * Each operation's step is applied at most once over the whole run, as long as two workers are
   * never inside the same step's call at the same time.
   */
  lemma {:induction false} StepsApplyAtMostOnce(start: Time, inputs: seq<CloudInput>, key: Key)
    requires Sequential(start, inputs)
    ensures AtMostOnce(CloudRun(start, inputs).traffic)
    ensures Count(CloudRun(start, inputs).traffic.world.executed, key) <= 1
  {
    if inputs != [] {
      var before := inputs[..|inputs| - 1];
      assert forall k | 0 <= k < |before| :: before[..k] == inputs[..k];
      StepsApplyAtMostOnce(start, before, key);
      CloudStepKeepsAtMostOnce(CloudRun(start, before), inputs[|inputs| - 1]);
    }
  }

  /** A won mutation was achieved by some commit of the run. */
  lemma WonIsAchieved(run: seq<Entry>, mutation: Stage, polling: Stage) returns (k: nat)
    requires Won(run, mutation, polling)
    ensures k < |run| && run[k].saga.stage == At(mutation) && Achieved(run[k])
  {
    if j: nat :| j < |run| && DoneAtOnce(run[j], mutation) {
      k := j;
    } else {
      var j: nat, task :| j < |run| && AcceptedAs(run[j], mutation, task) && TaskFinished(run, polling, j, task);
      k := j;
    }
  }

  /**
   * Success is exact: an operation stored as `succeeded` had every mutation of its capability
   * applied by the provider exactly once - never zero times and never twice - unless it is a
   * purge that found nothing to destroy.
   */
  lemma SucceededStepsAppliedOnce(start: Time, inputs: seq<CloudInput>, op: nat, mutation: Stage)
    requires Sequential(start, inputs)
    requires op in CloudRun(start, inputs).orc.tables.workflows
    requires var w := CloudRun(start, inputs).orc.tables.workflows[op];
             w.saga.status.Succeeded? && mutation in MutationStages(w.action)
    ensures var s := CloudRun(start, inputs);
            var w := s.orc.tables.workflows[op];
            || Count(s.traffic.world.executed, KeyAt(w.command, mutation)) == 1
            || (w.action.PurgeInstance? && op in s.orc.histories && s.orc.histories[op].run != []
                && s.orc.histories[op].run[|s.orc.histories[op].run| - 1].saga.stage == At(VerifyingPurge))
  {
    var s := CloudRun(start, inputs);
    RunsAreComposed(start, inputs);
    StepsApplyAtMostOnce(start, inputs, KeyAt(s.orc.tables.workflows[op].command, mutation));
    SucceededStepsApplied(s, op, mutation);
  }

  lemma SucceededStepsApplied(s: Cloud, op: nat, mutation: Stage)
    requires Invariant(s.orc) && EntriesExecuted(s) && op in s.orc.tables.workflows
    requires var w := s.orc.tables.workflows[op]; w.saga.status.Succeeded? && mutation in MutationStages(w.action)
    ensures op in s.orc.histories && s.orc.histories[op].run != []
    ensures var w, run := s.orc.tables.workflows[op], s.orc.histories[op].run;
            || KeyAt(w.command, mutation) in s.traffic.world.executed
            || (w.action.PurgeInstance? && run[|run| - 1].saga.stage == At(VerifyingPurge))
  {
    var w := s.orc.tables.workflows[op];
    var h := SucceededRow(s.orc, op);
    var last := |h.run| - 1;
    if !(w.action.PurgeInstance? && h.run[last].saga.stage == At(VerifyingPurge)) {
      var k := WonIsAchieved(h.run[..last], mutation, RoleOf(w.action, mutation).polling);
      assert h.run[k] == h.run[..last][k];
    }
  }

  lemma SucceededRow(s: Orc, op: nat) returns (h: History)
    requires Invariant(s) && op in s.tables.workflows && s.tables.workflows[op].saga.status.Succeeded?
    ensures op in s.histories && h == s.histories[op] && h.run != []
    ensures var w, last := s.tables.workflows[op], |h.run| - 1;
            || (w.action.PurgeInstance? && h.run[last].saga.stage == At(VerifyingPurge))
            || (forall mutation :: mutation in MutationStages(w.action) ==>
                  RoleOf(w.action, mutation).Mutating? && Won(h.run[..last], mutation, RoleOf(w.action, mutation).polling))
  {
    assert RowIdentity(s, op) && RowRun(s, op);
    h := s.histories[op];
    SuccessIsEarned(s.tables.workflows[op].command, h.resource, h.admitted, h.run);
  }

  // ----- Repeating a mutation ----------------------------------------------------------------

  /**
   * A repeated step is recognised exactly when it carries the same correlation id and the request
   * either has its context at the top level or comes from the same claim. It is then answered from
   * the cache and decided exactly as the first answer was; otherwise the provider calls it a
   * protocol error. Either way nothing is applied again.
   */
  lemma RepeatedStepIsRecognised(w: World, command: Command, again: Command, saga: Saga, stage: Stage,
                                 token: nat, newToken: nat, script: Script)
    requires SameIntent(again, command) && stage in MutationStages(ActionOf(command))
    requires var key := KeyAt(command, stage);
             key in w.cache && w.cache[key].canonical == Canonical(RequestFor(command, saga.resource, stage, token))
    ensures var (next, reply) := Begin(w, RequestFor(again, saga.resource, stage, newToken), script);
            var recognised := again.correlation == command.correlation && (IsFlat(VerbAt(command, stage)) || newToken == token);
            && next == w
            && reply == Some(if recognised then Mutation(Some(w.cache[KeyAt(command, stage)].result))
                             else Transport(TransportError(ProtocolError, false)))
  {
  }

  /** The three mutations of create and every power action; the other capabilities nest their context. */
  lemma FlatSteps(command: Command, stage: Stage)
    requires stage in MutationStages(ActionOf(command))
    ensures IsFlat(VerbAt(command, stage)) <==> ActionOf(command).CreateInstance? || ActionOf(command).PowerInstance?
  {
  }
}
