/**
 * The cursors of `Platform` are what the projection consumers make of their logs: one `Reader` for
 * the queue of each instance, rewound at any time, over tables that everything else writes as well.
 */
module Consumption {
  import opened Prelude
  import opened SagaEngine
  import opened WorkflowTables
  import opened Orchestrator
  import opened ControlTables
  import opened Platform
  import opened Projection

  /** A consumer's receipts and position; its tables are shared with everyone. */
  datatype Place = Place(receipts: set<nat>, position: nat)

  /** `platform` without its cursors, which nothing here reads or moves. */
  datatype Consumers = Consumers(platform: Platform, places: map<nat, Place>)

  /** A consumer reads or is rewound, or anything else happens. */
  datatype Move = Reads(instanceId: nat) | Rewinds(instanceId: nat, position: nat) | Other(input: PlatformInput)

  function PlaceOf(s: Consumers, i: nat): Place {
    if i in s.places then s.places[i] else Place({}, 0)
  }

  function ReaderOf(s: Consumers, i: nat): Reader {
    Reader(s.platform.control, PlaceOf(s, i).receipts, PlaceOf(s, i).position)
  }

  /** What has been published so far about an instance. */
  function LogOf(s: Consumers, i: nat): seq<Logged> {
    seq(|Queue(s.platform, i)|, k requires 0 <= k < |Queue(s.platform, i)| => Logged(i, Queue(s.platform, i)[k]))
  }

  function WithReader(s: Consumers, i: nat, r: Reader): Consumers {
    Consumers(s.platform.(control := r.control), s.places[i := Place(r.receipts, r.position)])
  }

  /** To every consumer but the one that moves, a change of the tables is an `Elsewhere`. */
  ghost function MoveStep(s: Consumers, catalog: Catalog, move: Move): Consumers {
    match move
    case Reads(i) => WithReader(s, i, ReaderStep(ReaderOf(s, i), LogOf(s, i), ReadNext))
    case Rewinds(i, position) => WithReader(s, i, ReaderStep(ReaderOf(s, i), LogOf(s, i), Rewind(position)))
    case Other(input) => if input.ProjectNext? then s else s.(platform := PlatformStep(s.platform, catalog, input))
  }

  ghost function MovesRun(start: Time, catalog: Catalog, moves: seq<Move>): Consumers {
    if moves == [] then Consumers(InitialPlatform(start), map[])
    else MoveStep(MovesRun(start, catalog, moves[..|moves| - 1]), catalog, moves[|moves| - 1])
  }

  /** The platform inputs a move amounts to: a read that is no duplicate projects the next event. */
  function Amounts(s: Consumers, move: Move): seq<PlatformInput> {
    match move
    case Reads(i) => if AppliedBy(ReaderOf(s, i), LogOf(s, i), ReadNext).Some? then [ProjectNext(i)] else []
    case Rewinds(_, _) => []
    case Other(input) => if input.ProjectNext? then [] else [input]
  }

  ghost function Effective(start: Time, catalog: Catalog, moves: seq<Move>): seq<PlatformInput> {
    if moves == [] then []
    else Effective(start, catalog, moves[..|moves| - 1])
         + Amounts(MovesRun(start, catalog, moves[..|moves| - 1]), moves[|moves| - 1])
  }

  /** The consumer holds the receipts of exactly the events before the cursor. */
  ghost predicate IsAt(place: Place, cursor: nat) {
    place.position <= cursor && forall k: nat :: k in place.receipts <==> k < cursor
  }

  /** The same tables, and every consumer where its cursor is. */
  ghost predicate Agrees(s: Consumers, p: Platform) {
    s.platform == p.(applied := s.platform.applied) && forall i: nat :: IsAt(PlaceOf(s, i), Cursor(p, i))
  }

  lemma MovedPlaceAgrees(s: Consumers, p: Platform, t: Consumers, q: Platform, i: nat)
    requires Agrees(s, p) && t.places == s.places[i := PlaceOf(t, i)] && IsAt(PlaceOf(t, i), Cursor(q, i))
    requires t.platform == q.(applied := t.platform.applied)
    requires q.applied == p.applied || q.applied == p.applied[i := Cursor(q, i)]
    ensures Agrees(t, q)
  {
    forall j: nat
      ensures IsAt(PlaceOf(t, j), Cursor(q, j))
    {
      assert IsAt(PlaceOf(s, j), Cursor(p, j));
    }
  }

  /** A read that is no duplicate stands at the cursor. */
  lemma FreshReadProjects(s: Consumers, p: Platform, i: nat)
    requires Agrees(s, p) && Amounts(s, Reads(i)) != []
    ensures PlaceOf(s, i).position == Cursor(p, i) < |Queue(p, i)|
    ensures ReaderStep(ReaderOf(s, i), LogOf(s, i), ReadNext)
         == Reader(Projected(p, i).control, PlaceOf(s, i).receipts + {Cursor(p, i)}, Cursor(p, i) + 1)
  {
    assert IsAt(PlaceOf(s, i), Cursor(p, i));
    assert LogOf(s, i)[PlaceOf(s, i).position] == Logged(i, Queue(p, i)[PlaceOf(s, i).position]);
  }

  lemma FreshReadAgrees(s: Consumers, p: Platform, catalog: Catalog, i: nat)
    requires Agrees(s, p) && Amounts(s, Reads(i)) != []
    ensures Agrees(MoveStep(s, catalog, Reads(i)), PlatformStep(p, catalog, ProjectNext(i)))
  {
    FreshReadProjects(s, p, i);
    assert IsAt(PlaceOf(s, i), Cursor(p, i));
    MovedPlaceAgrees(s, p, WithReader(s, i, ReaderStep(ReaderOf(s, i), LogOf(s, i), ReadNext)), Projected(p, i), i);
  }

  /** A duplicate changes no table. */
  lemma DuplicateReadAgrees(s: Consumers, p: Platform, catalog: Catalog, i: nat)
    requires Agrees(s, p) && Amounts(s, Reads(i)) == []
    ensures Agrees(MoveStep(s, catalog, Reads(i)), p)
  {
    assert IsAt(PlaceOf(s, i), Cursor(p, i));
    MovedPlaceAgrees(s, p, WithReader(s, i, ReaderStep(ReaderOf(s, i), LogOf(s, i), ReadNext)), p, i);
  }

  /** No other step looks at a cursor. */
  lemma OthersIgnoreCursors(s: Platform, p: Platform, catalog: Catalog, input: PlatformInput)
    requires s == p.(applied := s.applied) && !input.ProjectNext?
    ensures PlatformStep(s, catalog, input) == PlatformStep(p, catalog, input).(applied := s.applied)
    ensures PlatformStep(p, catalog, input).applied == p.applied
  {
  }

  lemma OtherAgrees(s: Consumers, p: Platform, catalog: Catalog, input: PlatformInput)
    requires Agrees(s, p) && !input.ProjectNext?
    ensures Agrees(MoveStep(s, catalog, Other(input)), PlatformStep(p, catalog, input))
  {
    OthersIgnoreCursors(s.platform, p, catalog, input);
    SameCursorsAgree(s, p, s.(platform := PlatformStep(s.platform, catalog, input)), PlatformStep(p, catalog, input));
  }

  lemma SameCursorsAgree(s: Consumers, p: Platform, t: Consumers, q: Platform)
    requires Agrees(s, p) && t.places == s.places && q.applied == p.applied && t.platform == q.(applied := t.platform.applied)
    ensures Agrees(t, q)
  {
    forall i: nat
      ensures IsAt(PlaceOf(t, i), Cursor(q, i))
    {
      assert IsAt(PlaceOf(s, i), Cursor(p, i));
    }
  }

  lemma RewindAgrees(s: Consumers, p: Platform, catalog: Catalog, i: nat, position: nat)
    requires Agrees(s, p)
    ensures Agrees(MoveStep(s, catalog, Rewinds(i, position)), p)
  {
    assert IsAt(PlaceOf(s, i), Cursor(p, i));
    MovedPlaceAgrees(s, p, WithReader(s, i, ReaderStep(ReaderOf(s, i), LogOf(s, i), Rewind(position))), p, i);
  }

  lemma MoveAgrees(s: Consumers, p: Platform, catalog: Catalog, move: Move)
    requires Agrees(s, p)
    ensures Agrees(MoveStep(s, catalog, move),
                   if Amounts(s, move) == [] then p else PlatformStep(p, catalog, Amounts(s, move)[0]))
  {
    match move
    case Reads(i) =>
      if Amounts(s, move) == [] {
        DuplicateReadAgrees(s, p, catalog, i);
      } else {
        FreshReadAgrees(s, p, catalog, i);
      }
    case Rewinds(i, position) => RewindAgrees(s, p, catalog, i, position);
    case Other(input) =>
      if !input.ProjectNext? {
        OtherAgrees(s, p, catalog, input);
      }
  }

  /**
   * Consumers that read, re-read and are rewound in any order, while everything else goes on, make a
   * run of the platform: each event projected once, in the order of its queue. Their receipts are the
   * platform's cursors.
   */
  lemma {:induction false} ConsumersMakePlatformRuns(start: Time, catalog: Catalog, moves: seq<Move>)
    ensures Agrees(MovesRun(start, catalog, moves), PlatformRun(start, catalog, Effective(start, catalog, moves)))
  {
    if moves != [] {
      var before, last := moves[..|moves| - 1], moves[|moves| - 1];
      var inputs := Effective(start, catalog, before);
      ConsumersMakePlatformRuns(start, catalog, before);
      var s, p := MovesRun(start, catalog, before), PlatformRun(start, catalog, inputs);
      MoveAgrees(s, p, catalog, last);
      if Amounts(s, last) == [] {
        assert Effective(start, catalog, moves) == inputs;
      } else {
        assert Effective(start, catalog, moves) == inputs + [Amounts(s, last)[0]];
        assert (inputs + [Amounts(s, last)[0]])[..|inputs|] == inputs;
      }
    }
  }

  /** No read ever blocks: it is a duplicate, or there is nothing to read, or it projects the next event. */
  lemma ReadsNeverBlock(start: Time, catalog: Catalog, moves: seq<Move>, i: nat)
    ensures var s := MovesRun(start, catalog, moves);
            var position := PlaceOf(s, i).position;
            position < |LogOf(s, i)| ==>
              ReaderOf(MoveStep(s, catalog, Reads(i)), i).position == position + 1
              && (position in PlaceOf(s, i).receipts || Amounts(s, Reads(i)) == [ProjectNext(i)])
  {
    var s, inputs := MovesRun(start, catalog, moves), Effective(start, catalog, moves);
    ConsumersMakePlatformRuns(start, catalog, moves);
    var p := PlatformRun(start, catalog, inputs);
    assert Queue(s.platform, i) == Queue(p, i) && IsAt(PlaceOf(s, i), Cursor(p, i));
    if PlaceOf(s, i).position < |Queue(p, i)| && PlaceOf(s, i).position !in PlaceOf(s, i).receipts {
      assert PlaceOf(s, i).position == Cursor(p, i);
      ProjectionNeverBlocks(start, catalog, inputs, i);
    }
  }
}
