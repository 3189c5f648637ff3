/**
 * Episodes of a run: a workflow is moved on by a list of replies, each followed by the projection of
 * the event it published.
 */
module Episodes {
  import opened Prelude
  import opened Stages
  import opened SagaEngine
  import opened SagaRuns
  import opened WorkflowTables
  import opened Orchestrator
  import opened RowRuns
  import opened GovernedReplay
  import opened ControlTables
  import opened Platform
  import opened Turns
  import opened Continuations

  /** The replies a workflow gets, and when. */
  datatype Cues = End | Then(reply: Reply, time: Time, rest: Cues)

  // ----- On one row --------------------------------------------------------------------------

  /** The first reply fits the call the row makes next, and the row is due by then. */
  predicate CanPlay(command: Command, saga: Saga, now: Time, cues: Cues) {
    && cues.Then? && IsLive(saga.status) && saga.stage.At? && now <= cues.time && saga.nextAttemptAt <= cues.time
    && Admissible(cues.reply)
    && Fits(CallOf(ActionOf(command), ClaimedSaga(saga), saga.stage.stage), cues.reply)
  }

  function FirstTransition(command: Command, saga: Saga, now: Time, cues: Cues): Transition
    requires CanPlay(command, saga, now, cues)
  {
    Decide(command, ClaimedSaga(saga), saga.stage.stage, cues.reply, cues.time, 0.0)
  }

  function NextSaga(command: Command, saga: Saga, now: Time, cues: Cues): Saga
    requires CanPlay(command, saga, now, cues)
  {
    Applied(ClaimedSaga(saga), FirstTransition(command, saga, now, cues), cues.time)
  }

  predicate Playable(command: Command, saga: Saga, now: Time, cues: Cues)
    decreases cues
  {
    cues.Then? ==>
      && CanPlay(command, saga, now, cues)
      && Playable(command, NextSaga(command, saga, now, cues), cues.time, cues.rest)
  }

  function EndTime(now: Time, cues: Cues): Time
    decreases cues
  {
    if cues.End? then now else EndTime(cues.time, cues.rest)
  }

  function PlayedSaga(command: Command, saga: Saga, now: Time, cues: Cues): Saga
    requires Playable(command, saga, now, cues)
    decreases cues
  {
    if cues.End? then saga else PlayedSaga(command, NextSaga(command, saga, now, cues), cues.time, cues.rest)
  }

  function PlayedInstance(command: Command, instance: Instance, saga: Saga, now: Time, cues: Cues): Instance
    requires Playable(command, saga, now, cues)
    decreases cues
  {
    if cues.End? then instance
    else
      var event := EventOf(command.operationId, FirstTransition(command, saga, now, cues));
      PlayedInstance(command, InstanceAfter(instance, event), NextSaga(command, saga, now, cues), cues.time, cues.rest)
  }

  /** Whether one of the replies exhausts the retries. */
  predicate Exhausts(command: Command, saga: Saga, now: Time, cues: Cues)
    requires Playable(command, saga, now, cues)
    decreases cues
  {
    cues.Then? && (FirstTransition(command, saga, now, cues).Exhaust?
                   || Exhausts(command, NextSaga(command, saga, now, cues), cues.time, cues.rest))
  }

  // ----- On the platform ---------------------------------------------------------------------

  /** Everything published for the instance has been projected, and nobody holds its lease. */
  predicate Calm(s: Platform, i: nat) {
    && Cursor(s, i) == |Queue(s, i)|
    && (i in s.orc.tables.leases ==> s.orc.tables.leases[i].until <= s.orc.now)
  }

  predicate SameRow(w: Workflow, w': Workflow) {
    && w'.command == w.command && w'.eventId == w.eventId && w'.instanceId == w.instanceId
    && w'.action == w.action && w'.generation == w.generation && w'.createdAt == w.createdAt
  }

  /** Nothing but the row of the operation, its instance and its letter has changed. */
  ghost predicate OnlyRow(s: Platform, t: Platform, op: nat, i: nat, e: nat) {
    && op in s.orc.tables.workflows && op in t.orc.tables.workflows
    && t.orc.tables.workflows == s.orc.tables.workflows[op := t.orc.tables.workflows[op]]
    && SameRow(s.orc.tables.workflows[op], t.orc.tables.workflows[op])
    && t.orc.issued == s.orc.issued && t.orc.tables.receipts.Keys == s.orc.tables.receipts.Keys
    && t.orc.tables.replays == s.orc.tables.replays
    && i in s.control.instances && i in t.control.instances
    && t.control.instances == s.control.instances[i := t.control.instances[i]]
    && t.control.leases == s.control.leases && t.control.records == s.control.records
    && t.control.intents == s.control.intents && t.control.operations.Keys == s.control.operations.Keys
    && (forall o | o in s.control.operations :: o in t.control.operations && InstanceOf(t, o) == InstanceOf(s, o))
  }

  /** All that was published for the instance meanwhile is about the operation. */
  ghost predicate OnlyAbout(s: Platform, t: Platform, op: nat, i: nat) {
    forall k | 0 <= k < |Queue(t, i)| && Queue(t, i)[k].operationId != op ::
      k < |Queue(s, i)| && Queue(t, i)[k] == Queue(s, i)[k]
  }

  /** The letter of a first exhaustion is open to replay; without one, no letter has changed. */
  predicate Letters(s: Platform, t: Platform, e: nat, exhausted: bool) {
    if exhausted then e !in s.orc.tables.deadLetters ==> Replayable(t.orc.tables, e)
    else t.orc.tables.deadLetters == s.orc.tables.deadLetters
  }

  /** The workflow after the replies, with all of its events projected. */
  ghost predicate Played(s: Platform, t: Platform, op: nat, i: nat, cues: Cues) {
    && op in s.orc.tables.workflows
    && var w := s.orc.tables.workflows[op];
       && w.instanceId == i && OnlyRow(s, t, op, i, w.command.eventId) && OnlyAbout(s, t, op, i)
       && Playable(w.command, w.saga, s.orc.now, cues)
       && t.orc.tables.workflows[op].saga == PlayedSaga(w.command, w.saga, s.orc.now, cues)
       && t.control.instances[i] == PlayedInstance(w.command, s.control.instances[i], w.saga, s.orc.now, cues)
       && Letters(s, t, w.command.eventId, Exhausts(w.command, w.saga, s.orc.now, cues))
       && t.orc.now == EndTime(s.orc.now, cues)
  }

  // ----- One reply ---------------------------------------------------------------------------

  /** The first reply has been committed, and its event is the last of the queue. */
  ghost predicate Published(s: Platform, u: Platform, op: nat, i: nat, cues: Cues) {
    && op in s.orc.tables.workflows && op in u.orc.tables.workflows
    && var w, w' := s.orc.tables.workflows[op], u.orc.tables.workflows[op];
       && w.instanceId == i && CanPlay(w.command, w.saga, s.orc.now, cues)
       && u == s.(orc := u.orc) && u.orc.now == cues.time && u.orc.issued == s.orc.issued
       && u.orc.tables.workflows == s.orc.tables.workflows[op := w']
       && SameRow(w, w') && w'.saga == NextSaga(w.command, w.saga, s.orc.now, cues)
       && Queue(u, i) == Queue(s, i) + [EventOf(op, FirstTransition(w.command, w.saga, s.orc.now, cues))]
       && Letters(s, u, w.command.eventId, FirstTransition(w.command, w.saga, s.orc.now, cues).Exhaust?)
       && u.orc.tables.receipts.Keys == s.orc.tables.receipts.Keys && u.orc.tables.replays == s.orc.tables.replays
       && i in u.orc.tables.leases && u.orc.tables.leases[i].until <= u.orc.now
  }

  lemma TurnPublishes(s: Platform, u: Platform, op: nat, i: nat, cues: Cues)
    requires op in s.orc.tables.workflows && s.orc.tables.workflows[op].instanceId == i
    requires CanPlay(s.orc.tables.workflows[op].command, s.orc.tables.workflows[op].saga, s.orc.now, cues)
    requires u == s.(orc := u.orc) && TakesTurn(s.orc, u.orc, op, cues.reply, cues.time)
    ensures Published(s, u, op, i, cues)
  {
  }

  lemma Publish(s: Platform, catalog: Catalog, op: nat, i: nat, cues: Cues) returns (more: seq<PlatformInput>, u: Platform)
    requires Invariant(s.orc) && Calm(s, i) && op in s.orc.tables.workflows && s.orc.tables.workflows[op].instanceId == i
    requires CanPlay(s.orc.tables.workflows[op].command, s.orc.tables.workflows[op].saga, s.orc.now, cues)
    ensures u == Continued(s, catalog, more) && Published(s, u, op, i, cues)
  {
    assert DueBy(s.orc, op, cues.time);
    more := TurnAfter(s, catalog, op, cues.reply, cues.time);
    TurnEffect(s.orc, op, cues.reply, cues.time);
    u := Continued(s, catalog, more);
    TurnPublishes(s, u, op, i, cues);
  }

  lemma ProjectLast(u: Platform, catalog: Catalog, i: nat) returns (more: seq<PlatformInput>, t: Platform)
    requires Identified(u.orc) && Ordered(u) && EventsExplained(u)
    requires Cursor(u, i) < |Queue(u, i)| && !Queue(u, i)[Cursor(u, i)].ReplayResolved?
    ensures t == Continued(u, catalog, more)
    ensures Advances(u, t, i, Queue(u, i)[Cursor(u, i)])
    ensures t.control.leases == u.control.leases && t.control.records == u.control.records
  {
    ProjectionEffect(u, i);
    AfterOne(u, catalog, ProjectNext(i));
    more, t := [ProjectNext(i)], Projected(u, i);
  }

  /** The reply has been committed and its event projected. */
  ghost predicate Steps(s: Platform, t: Platform, op: nat, i: nat, cues: Cues) {
    && op in s.orc.tables.workflows
    && var w := s.orc.tables.workflows[op];
       && w.instanceId == i && CanPlay(w.command, w.saga, s.orc.now, cues)
       && OnlyRow(s, t, op, i, w.command.eventId) && OnlyAbout(s, t, op, i)
       && t.orc.tables.workflows[op].saga == NextSaga(w.command, w.saga, s.orc.now, cues)
       && t.control.instances[i]
          == InstanceAfter(s.control.instances[i], EventOf(op, FirstTransition(w.command, w.saga, s.orc.now, cues)))
       && Letters(s, t, w.command.eventId, FirstTransition(w.command, w.saga, s.orc.now, cues).Exhaust?)
       && t.orc.now == cues.time
  }

  lemma PublishedIsNext(s: Platform, u: Platform, op: nat, i: nat, cues: Cues)
    requires Published(s, u, op, i, cues) && Calm(s, i)
    ensures Cursor(u, i) < |Queue(u, i)| && !Queue(u, i)[Cursor(u, i)].ReplayResolved?
  {
  }

  lemma PublishedThenProjected(s: Platform, u: Platform, t: Platform, op: nat, i: nat, cues: Cues)
    requires Published(s, u, op, i, cues) && Calm(s, i)
    requires Cursor(u, i) < |Queue(u, i)| && Advances(u, t, i, Queue(u, i)[Cursor(u, i)])
    requires t.control.leases == u.control.leases && t.control.records == u.control.records
    ensures Steps(s, t, op, i, cues) && Calm(t, i)
  {
    assert t.control.operations.Keys == s.control.operations.Keys;
  }

  lemma StepOn(s: Platform, catalog: Catalog, op: nat, i: nat, cues: Cues) returns (more: seq<PlatformInput>, t: Platform)
    requires Linked(s) && Calm(s, i) && op in s.orc.tables.workflows && s.orc.tables.workflows[op].instanceId == i
    requires CanPlay(s.orc.tables.workflows[op].command, s.orc.tables.workflows[op].saga, s.orc.now, cues)
    ensures t == Continued(s, catalog, more) && Steps(s, t, op, i, cues) && Calm(t, i)
  {
    var first, u := Publish(s, catalog, op, i, cues);
    AfterIsLinked(s, catalog, first);
    PublishedIsNext(s, u, op, i, cues);
    var second;
    second, t := ProjectLast(u, catalog, i);
    PublishedThenProjected(s, u, t, op, i, cues);
    AfterSplit(s, catalog, first, second);
    more := first + second;
  }

  // ----- A list of replies -------------------------------------------------------------------

  lemma NothingPlayed(s: Platform, op: nat, i: nat)
    requires op in s.orc.tables.workflows && s.orc.tables.workflows[op].instanceId == i && i in s.control.instances
    ensures Played(s, s, op, i, End)
  {
  }

  lemma OnlyRowJoins(s: Platform, u: Platform, t: Platform, op: nat, i: nat, e: nat)
    requires OnlyRow(s, u, op, i, e) && OnlyRow(u, t, op, i, e) && OnlyAbout(s, u, op, i) && OnlyAbout(u, t, op, i)
    ensures OnlyRow(s, t, op, i, e) && OnlyAbout(s, t, op, i)
  {
    assert t.orc.tables.workflows == s.orc.tables.workflows[op := t.orc.tables.workflows[op]];
    assert t.control.instances == s.control.instances[i := t.control.instances[i]];
  }

  /** Once the retries are exhausted there is nothing more to play. */
  lemma ExhaustionIsLast(command: Command, saga: Saga, now: Time, cues: Cues)
    requires Playable(command, saga, now, cues) && cues.Then? && FirstTransition(command, saga, now, cues).Exhaust?
    ensures cues.rest.End?
  {
  }

  lemma EpisodesJoin(s: Platform, u: Platform, t: Platform, op: nat, i: nat, cues: Cues)
    requires cues.Then? && Steps(s, u, op, i, cues) && Played(u, t, op, i, cues.rest)
    requires Playable(s.orc.tables.workflows[op].command, s.orc.tables.workflows[op].saga, s.orc.now, cues)
    requires s.orc.tables.workflows[op].command.operationId == op
    ensures Played(s, t, op, i, cues)
  {
    var w := s.orc.tables.workflows[op];
    OnlyRowJoins(s, u, t, op, i, w.command.eventId);
    if FirstTransition(w.command, w.saga, s.orc.now, cues).Exhaust? {
      ExhaustionIsLast(w.command, w.saga, s.orc.now, cues);
    }
  }

  lemma RowIsOwn(s: Platform, op: nat)
    requires Identified(s.orc) && CommandsHaveOperations(s) && op in s.orc.tables.workflows
    ensures s.orc.tables.workflows[op].command.operationId == op
    ensures s.orc.tables.workflows[op].instanceId in s.control.instances
  {
    RowsHaveOperations(s, op);
    assert RowIdentity(s.orc, op);
  }

  /** A playable list of replies can be played. */
  lemma {:induction false} Play(s: Platform, catalog: Catalog, op: nat, i: nat, cues: Cues)
    returns (more: seq<PlatformInput>, t: Platform)
    requires Linked(s) && Calm(s, i) && op in s.orc.tables.workflows && s.orc.tables.workflows[op].instanceId == i
    requires Playable(s.orc.tables.workflows[op].command, s.orc.tables.workflows[op].saga, s.orc.now, cues)
    ensures t == Continued(s, catalog, more) && Linked(t) && Calm(t, i) && Played(s, t, op, i, cues)
    decreases cues
  {
    RowIsOwn(s, op);
    more, t := [], s;
    if cues.End? {
      NothingPlayed(s, op, i);
    } else {
      var first, u := StepOn(s, catalog, op, i, cues);
      AfterIsLinked(s, catalog, first);
      assert u.orc.now == cues.time && SameRow(s.orc.tables.workflows[op], u.orc.tables.workflows[op]);
      var rest;
      rest, t := Play(u, catalog, op, i, cues.rest);
      EpisodesJoin(s, u, t, op, i, cues);
      AfterSplit(s, catalog, first, rest);
      more := first + rest;
    }
  }

  // ----- A request accepted and its command delivered ----------------------------------------

  /** The request has been accepted, and the workflow of its command has been started. */
  ghost predicate Launched(s: Platform, t: Platform, plan: Plan, scope: Scope, hash: nat, ids: Minted, inherited: Option<nat>) {
    var command := CommandFor(plan, ids);
    && t.control == Carry(s.control, plan, scope, hash, ids, s.orc.now)
    && t.applied == s.applied && t.orc.now == s.orc.now && t.orc.issued == s.orc.issued[ids.eventId := command]
    && ids.operationId !in s.orc.tables.workflows
    && t.orc.tables.workflows
       == s.orc.tables.workflows[ids.operationId :=
            AdmittedRow(command, 0, if plan.data.CreateData? then None else inherited, s.orc.now)]
    && t.orc.tables.leases == s.orc.tables.leases && t.orc.tables.events == s.orc.tables.events
    && t.orc.tables.deadLetters == s.orc.tables.deadLetters && t.orc.tables.replays == s.orc.tables.replays
  }

  /** The request is accepted under this plan. */
  ghost predicate IsAccepted(s: Platform, catalog: Catalog, caller: Caller, wish: Wish, ids: Minted, plan: Plan) {
    && Fresh(s, wish, ids) && ScopeOf(caller, wish) !in s.control.records
    && !(wish.PurgeWish? && wish.confirmation != wish.instanceId)
    && PlanOf(s.control, catalog, caller, wish, ids, s.orc.now) == Ok(plan)
  }

  lemma AcceptIsCarried(s: Platform, catalog: Catalog, caller: Caller, wish: Wish, ids: Minted, plan: Plan)
    returns (more: seq<PlatformInput>)
    requires IsAccepted(s, catalog, caller, wish, ids, plan)
    ensures Continued(s, catalog, more)
            == Admitted(s, Carry(s.control, plan, ScopeOf(caller, wish), caller.hash, ids, s.orc.now), CommandFor(plan, ids))
  {
    AfterOne(s, catalog, Request(caller, wish, ids));
    more := [Request(caller, wish, ids)];
  }

  lemma NewCommandIsUndelivered(s: Platform, u: Platform, e: nat)
    requires Governed(s.orc) && Governed(u.orc) && e !in s.orc.issued && e in u.orc.issued && u.orc.tables == s.orc.tables
    ensures CommandReceipt(e, 0) !in u.orc.tables.receipts
    ensures RowFollows(u.orc.tables, e, u.orc.issued[e].operationId)
  {
    assert EventGoverned(u.orc.tables, e, u.orc.issued[e].operationId);
  }

  /** A request that can be accepted is accepted, and its command delivered. */
  lemma Launch(s: Platform, catalog: Catalog, caller: Caller, wish: Wish, ids: Minted, plan: Plan, inherited: Option<nat>)
    returns (more: seq<PlatformInput>, t: Platform)
    requires Linked(s) && IsAccepted(s, catalog, caller, wish, ids, plan) && Inherits(s.orc.tables, plan.instanceId, inherited)
    ensures t == Continued(s, catalog, more) && Linked(t)
    ensures Launched(s, t, plan, ScopeOf(caller, wish), caller.hash, ids, inherited)
  {
    var first := AcceptIsCarried(s, catalog, caller, wish, ids, plan);
    AfterIsLinked(s, catalog, first);
    var u := Continued(s, catalog, first);
    NewCommandIsUndelivered(s, u, ids.eventId);
    var at := FreshCoordinates(u.orc.tables.receipts);
    DeliveryStarts(u.orc, ids.eventId, at, inherited);
    var deliver := DeliverCommand(ids.eventId, Delivery(at, 0, None), inherited);
    WorkAfter(u, catalog, deliver);
    AfterIsLinked(u, catalog, [Work(deliver)]);
    AfterSplit(s, catalog, first, [Work(deliver)]);
    more, t := first + [Work(deliver)], Continued(u, catalog, [Work(deliver)]);
    LaunchIsDone(s, u, t, plan, ScopeOf(caller, wish), caller.hash, ids, inherited);
  }

  lemma LaunchIsDone(s: Platform, u: Platform, t: Platform, plan: Plan, scope: Scope, hash: nat, ids: Minted, inherited: Option<nat>)
    requires u == Admitted(s, Carry(s.control, plan, scope, hash, ids, s.orc.now), CommandFor(plan, ids))
    requires ids.eventId in u.orc.issued && t == u.(orc := t.orc)
    requires t.orc.now == u.orc.now && t.orc.issued == u.orc.issued && ids.operationId !in u.orc.tables.workflows
    requires t.orc.tables
             == u.orc.tables.(receipts := t.orc.tables.receipts,
                              workflows := u.orc.tables.workflows[ids.operationId := StartedRow(u.orc, ids.eventId, inherited)])
    ensures Launched(s, t, plan, scope, hash, ids, inherited)
  {
  }
}
