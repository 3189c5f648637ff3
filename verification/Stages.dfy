/**
 * The stage and action vocabulary of the persisted saga, and the transition table of each
 * capability. `RoleOf` is the `switch` that every capability's `execute` makes on the persisted
 * stage; `MutationStages` is the separate list each capability declares for error handling.
 */
module Stages {
  datatype Action =
    | CreateInstance
    | PowerInstance
    | ResizeInstance
    | CreateSnapshot
    | RollbackSnapshot
    | DeleteSnapshot
    | RetainInstance
    | PurgeInstance

  datatype Stage =
    | Accepted
    | SubmittingCreate | PollingCreate | Configuring | PollingConfiguration | Starting | PollingStart | Observing
    | SubmittingPower | PollingPower | ObservingPower
    | SubmittingResize | PollingResize | ObservingResize
    | SubmittingSnapshot | PollingSnapshot | ObservingSnapshot
    | SubmittingRetention | PollingRetention | ObservingRetention
    | VerifyingPurge | SubmittingPurge | PollingPurge | ObservingPurge

  /** What the `stage` column may hold: a stage to act at, or how the workflow ended. */
  datatype PersistedStage = At(stage: Stage) | Completed | EndedFailed | EndedInReview

  /** What one claim does at a stage. `Foreign` is the `default` branch of `execute`. */
  datatype Role =
    | Start(first: Stage)
    | Mutating(polling: Stage, next: Stage)
    | Polling(next: Stage)
    | Verifying(next: Stage)
    | Closing
    | Foreign

  predicate IsSnapshotAction(action: Action) {
    action.CreateSnapshot? || action.RollbackSnapshot? || action.DeleteSnapshot?
  }

  function RoleOf(action: Action, stage: Stage): Role {
    match action
    case CreateInstance => (
      match stage
      case Accepted => Start(SubmittingCreate)
      case SubmittingCreate => Mutating(PollingCreate, Configuring)
      case PollingCreate => Polling(Configuring)
      case Configuring => Mutating(PollingConfiguration, Starting)
      case PollingConfiguration => Polling(Starting)
      case Starting => Mutating(PollingStart, Observing)
      case PollingStart => Polling(Observing)
      case Observing => Closing
      case _ => Foreign)
    case PowerInstance => (
      match stage
      case Accepted => Start(SubmittingPower)
      case SubmittingPower => Mutating(PollingPower, ObservingPower)
      case PollingPower => Polling(ObservingPower)
      case ObservingPower => Closing
      case _ => Foreign)
    case ResizeInstance => (
      match stage
      case Accepted => Start(SubmittingResize)
      case SubmittingResize => Mutating(PollingResize, ObservingResize)
      case PollingResize => Polling(ObservingResize)
      case ObservingResize => Closing
      case _ => Foreign)
    case RetainInstance => (
      match stage
      case Accepted => Start(SubmittingRetention)
      case SubmittingRetention => Mutating(PollingRetention, ObservingRetention)
      case PollingRetention => Polling(ObservingRetention)
      case ObservingRetention => Closing
      case _ => Foreign)
    case PurgeInstance => (
      match stage
      case Accepted => Start(VerifyingPurge)
      case VerifyingPurge => Verifying(SubmittingPurge)
      case SubmittingPurge => Mutating(PollingPurge, ObservingPurge)
      case PollingPurge => Polling(ObservingPurge)
      case ObservingPurge => Closing
      case _ => Foreign)
    case _ => (
      match stage
      case Accepted => Start(SubmittingSnapshot)
      case SubmittingSnapshot => Mutating(PollingSnapshot, ObservingSnapshot)
      case PollingSnapshot => Polling(ObservingSnapshot)
      case ObservingSnapshot => Closing
      case _ => Foreign)
  }

  /** The declared lists of stages whose failure may have applied a provider effect. */
  function MutationStages(action: Action): set<Stage> {
    match action
    case CreateInstance => {SubmittingCreate, Configuring, Starting}
    case PowerInstance => {SubmittingPower}
    case ResizeInstance => {SubmittingResize}
    case RetainInstance => {SubmittingRetention}
    case PurgeInstance => {SubmittingPurge}
    case _ => {SubmittingSnapshot}
  }

  /** How many commits that are neither a retry nor a repeated poll can still follow. */
  function Rank(action: Action, stage: Stage): nat {
    match stage
    case Accepted => if action.CreateInstance? then 8 else if action.PurgeInstance? then 5 else 4
    case SubmittingCreate => 7
    case PollingCreate => 6
    case Configuring => 5
    case PollingConfiguration => 4
    case VerifyingPurge => 4
    case Starting => 3
    case SubmittingPower => 3
    case SubmittingResize => 3
    case SubmittingSnapshot => 3
    case SubmittingRetention => 3
    case SubmittingPurge => 3
    case PollingStart => 2
    case PollingPower => 2
    case PollingResize => 2
    case PollingSnapshot => 2
    case PollingRetention => 2
    case PollingPurge => 2
    case _ => 1
  }

  function ProgressPercent(stage: PersistedStage): nat {
    match stage
    case At(Accepted) => 0
    case At(SubmittingCreate) => 10
    case At(PollingCreate) => 25
    case At(Configuring) => 40
    case At(PollingConfiguration) => 55
    case At(Starting) => 70
    case At(PollingStart) => 82
    case At(Observing) => 92
    case At(SubmittingPower) => 20
    case At(PollingPower) => 55
    case At(ObservingPower) => 85
    case At(SubmittingResize) => 20
    case At(PollingResize) => 55
    case At(ObservingResize) => 85
    case At(SubmittingSnapshot) => 20
    case At(PollingSnapshot) => 55
    case At(ObservingSnapshot) => 85
    case At(SubmittingRetention) => 20
    case At(PollingRetention) => 55
    case At(ObservingRetention) => 85
    case At(VerifyingPurge) => 15
    case At(SubmittingPurge) => 40
    case At(PollingPurge) => 65
    case At(ObservingPurge) => 88
    case _ => 100
  }

  /** The stages a capability's graph leads to in one non-retry commit. */
  predicate Leads(action: Action, from: Stage, to: Stage) {
    match RoleOf(action, from)
    case Start(first) => to == first
    case Mutating(polling, next) => to == polling || to == next
    case Polling(next) => to == next
    case Verifying(next) => to == next
    case Closing => false
    case Foreign => false
  }

  /**
   * The declared mutation lists name exactly the stages at which `execute` issues a mutation, so
   * error handling and the transition table cannot disagree about what may have been applied.
   */
  lemma MutationStagesAreTheMutatingRoles(action: Action, stage: Stage)
    ensures stage in MutationStages(action) <==> RoleOf(action, stage).Mutating?
  {
  }

  /** Every forward edge stays in the graph and descends in rank. */
  lemma EdgesDescend(action: Action, from: Stage, to: Stage)
    requires Leads(action, from, to)
    ensures !RoleOf(action, to).Foreign? && !RoleOf(action, to).Start?
    ensures Rank(action, to) < Rank(action, from)
  {
    match action
    case CreateInstance => CreateEdgesDescend(from, to);
    case PurgeInstance =>
    case _ =>
  }

  lemma CreateEdgesDescend(from: Stage, to: Stage)
    requires Leads(CreateInstance, from, to)
    ensures !RoleOf(CreateInstance, to).Foreign? && !RoleOf(CreateInstance, to).Start?
    ensures Rank(CreateInstance, to) < Rank(CreateInstance, from)
  {
  }

  /** The progress bar of the operation never moves backwards along the graph. */
  lemma ProgressRises(action: Action, from: Stage, to: Stage)
    requires Leads(action, from, to)
    ensures ProgressPercent(At(from)) <= ProgressPercent(At(to)) <= 100
  {
    match action
    case CreateInstance =>
    case PurgeInstance =>
    case _ =>
  }

  lemma CreateMutationsAreOnEveryPath(from: Stage, to: Stage, mutation: Stage)
    requires Leads(CreateInstance, from, to)
    requires RoleOf(CreateInstance, mutation).Mutating?
    requires Rank(CreateInstance, to) < Rank(CreateInstance, mutation)
    ensures from == mutation || Rank(CreateInstance, from) < Rank(CreateInstance, mutation)
    ensures to == RoleOf(CreateInstance, mutation).polling
            <==> from == mutation && to != RoleOf(CreateInstance, mutation).next
  {
    match mutation
    case SubmittingCreate =>
    case Configuring =>
    case Starting =>
  }

  lemma PurgeMutationsAreOnEveryPath(from: Stage, to: Stage, mutation: Stage)
    requires Leads(PurgeInstance, from, to)
    requires RoleOf(PurgeInstance, mutation).Mutating?
    requires Rank(PurgeInstance, to) < Rank(PurgeInstance, mutation)
    ensures from == mutation || Rank(PurgeInstance, from) < Rank(PurgeInstance, mutation)
    ensures to == RoleOf(PurgeInstance, mutation).polling
            <==> from == mutation && to != RoleOf(PurgeInstance, mutation).next
  {
  }

  /** A mutation stage cannot be jumped over: what lies beyond it is reached through it. */
  lemma MutationsAreOnEveryPath(action: Action, from: Stage, to: Stage, mutation: Stage)
    requires Leads(action, from, to)
    requires RoleOf(action, mutation).Mutating?
    requires Rank(action, to) < Rank(action, mutation)
    ensures from == mutation || Rank(action, from) < Rank(action, mutation)
    ensures to == RoleOf(action, mutation).polling <==> from == mutation && to != RoleOf(action, mutation).next
  {
    match action
    case CreateInstance => CreateMutationsAreOnEveryPath(from, to, mutation);
    case PurgeInstance => PurgeMutationsAreOnEveryPath(from, to, mutation);
    case _ =>
  }
}
