/**
 * The projection consumer: it reads the outbox in order, may be rewound to any earlier position at
 * any time, and may see any event any number of times. Its receipts make that harmless.
 */
module Projection {
  import opened Prelude
  import opened WorkflowTables
  import opened ControlTables

  /** One event of the log, with the instance it is addressed to. */
  datatype Logged = Logged(instanceId: nat, event: Event)

  /** The consumer's tables, the log positions it has receipts for, and where it reads next. */
  datatype Reader = Reader(control: Control, receipts: set<nat>, position: nat)

  /** Reading on, being rewound, and the acceptance transactions that write the same tables. */
  datatype ReaderInput = ReadNext | Rewind(position: nat) | Elsewhere(control: Control)

  /**
   * Handles the next event: a receipt makes it a duplicate; a missing row makes the transaction
   * throw, which leaves no receipt and does not move on.
   */
  function Read(r: Reader, log: seq<Logged>): Reader {
    if r.position >= |log| then r
    else if r.position in r.receipts then r.(position := r.position + 1)
    else if !Projectable(r.control, log[r.position].instanceId, log[r.position].event) then r
    else
      Reader(Project(r.control, log[r.position].instanceId, log[r.position].event), r.receipts + {r.position}, r.position + 1)
  }

  function ReaderStep(r: Reader, log: seq<Logged>, input: ReaderInput): Reader {
    match input
    case ReadNext => Read(r, log)
    case Rewind(position) => r.(position := Min(r.position, position) as nat)
    case Elsewhere(control) => r.(control := control)
  }

  function ReaderRun(start: Control, log: seq<Logged>, inputs: seq<ReaderInput>): Reader {
    if inputs == [] then Reader(start, {}, 0)
    else ReaderStep(ReaderRun(start, log, inputs[..|inputs| - 1]), log, inputs[|inputs| - 1])
  }

  /** The position whose event the step applies, if it applies one. */
  function AppliedBy(r: Reader, log: seq<Logged>, input: ReaderInput): Option<nat> {
    if input.ReadNext? && r.position < |log| && r.position !in r.receipts
       && Projectable(r.control, log[r.position].instanceId, log[r.position].event)
    then Some(r.position) else None
  }

  /** The positions applied over a run, in the order in which they were applied. */
  function Applications(start: Control, log: seq<Logged>, inputs: seq<ReaderInput>): seq<nat> {
    if inputs == [] then []
    else
      var before := inputs[..|inputs| - 1];
      var applied := AppliedBy(ReaderRun(start, log, before), log, inputs[|inputs| - 1]);
      Applications(start, log, before) + if applied.Some? then [applied.value] else []
  }

  /** The receipts are those of the first `high` events, and nothing is read beyond them. */
  ghost predicate ReceiptsUpTo(r: Reader, log: seq<Logged>, high: nat) {
    r.position <= high <= |log| && forall k: nat :: k in r.receipts <==> k < high
  }

  /**
   * Whatever else writes the tables in between, and however the consumer is rewound: the events
   * are applied in log order, each exactly once, without a gap. `Consumption` derives the cursors of
   * `Platform` from this.
   */
  lemma {:induction false} EachEventAppliedOnceInOrder(start: Control, log: seq<Logged>, inputs: seq<ReaderInput>)
    ensures var applied := Applications(start, log, inputs);
            && (forall k | 0 <= k < |applied| :: applied[k] == k)
            && ReceiptsUpTo(ReaderRun(start, log, inputs), log, |applied|)
  {
    if inputs != [] {
      EachEventAppliedOnceInOrder(start, log, inputs[..|inputs| - 1]);
    }
  }

  /** Each of the first n events applied once, in order. */
  function Fold(start: Control, log: seq<Logged>, n: nat): Control
    requires n <= |log|
  {
    if n == 0 then start else Project(Fold(start, log, n - 1), log[n - 1].instanceId, log[n - 1].event)
  }

  ghost predicate Folded(r: Reader, start: Control, log: seq<Logged>, high: nat) {
    && r.position <= high <= |log|
    && (forall k: nat :: k in r.receipts <==> k < high)
    && r.control == Fold(start, log, high)
  }

  lemma StepKeepsFolded(r: Reader, start: Control, log: seq<Logged>, input: ReaderInput, high: nat) returns (next: nat)
    requires Folded(r, start, log, high) && !input.Elsewhere?
    ensures high <= next && Folded(ReaderStep(r, log, input), start, log, next)
  {
    next := high;
    if input.ReadNext? && r.position == high < |log| && Projectable(r.control, log[high].instanceId, log[high].event) {
      next := high + 1;
    }
  }

  /**
   * However the consumer is rewound and whatever it sees again, its tables are those of applying
   * the events up to some point once each, in order; its receipts are exactly those events.
   */
  lemma {:induction false} ReadingIsFolding(start: Control, log: seq<Logged>, inputs: seq<ReaderInput>) returns (high: nat)
    requires forall k | 0 <= k < |inputs| :: !inputs[k].Elsewhere?
    ensures Folded(ReaderRun(start, log, inputs), start, log, high)
  {
    if inputs == [] {
      high := 0;
    } else {
      var before := inputs[..|inputs| - 1];
      var reached := ReadingIsFolding(start, log, before);
      high := StepKeepsFolded(ReaderRun(start, log, before), start, log, inputs[|inputs| - 1], reached);
    }
  }

  /** A consumer that has read to the end holds the fold of the whole log. */
  lemma ReadingToTheEnd(start: Control, log: seq<Logged>, inputs: seq<ReaderInput>)
    requires forall k | 0 <= k < |inputs| :: !inputs[k].Elsewhere?
    requires ReaderRun(start, log, inputs).position == |log|
    ensures ReaderRun(start, log, inputs).control == Fold(start, log, |log|)
  {
    var high := ReadingIsFolding(start, log, inputs);
  }
}
