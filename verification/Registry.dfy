/** The rotation that gives each capability's executor its turn, and why none is starved. */
module Registry {
  import opened Prelude
  import opened Stages

  /** The executor offered a turn at the given attempt. */
  function Offered(n: nat, cursor: nat, attempt: nat): nat
    requires n > 0
  {
    (cursor + attempt) % n
  }

  /** The first attempt from `attempt` on whose executor is ready; `n` when there is none. */
  function FirstReady(n: nat, cursor: nat, ready: nat -> bool, attempt: nat): (first: nat)
    requires n > 0 && attempt <= n
    ensures attempt <= first <= n
    ensures first < n ==> ready(Offered(n, cursor, first))
    ensures forall a: nat | attempt <= a < first :: !ready(Offered(n, cursor, a))
    decreases n - attempt
  {
    if attempt == n || ready(Offered(n, cursor, attempt)) then attempt else FirstReady(n, cursor, ready, attempt + 1)
  }

  /** The cursor after a call: just past the executor that worked, or where it was. */
  function CursorAfter(n: nat, cursor: nat, ready: nat -> bool): nat
    requires n > 0
  {
    var first := FirstReady(n, cursor, ready, 0);
    if first == n then cursor else (cursor + first + 1) % n
  }

  class WorkflowRegistry {
    const executors: seq<Action>
    var cursor: nat

    constructor (executors: seq<Action>)
      requires forall i, j | 0 <= i < j < |executors| :: executors[i] != executors[j]
      ensures this.executors == executors && cursor == 0
    {
      this.executors, cursor := executors, 0;
    }

    /**
     * Offers turns from the cursor on and stops at the first executor that works. `ready` says
     * which executors would work; `offered` lists the executors that were given a turn.
     */
    method RunOne(ready: nat -> bool) returns (ran: Option<nat>, offered: seq<nat>)
      modifies this
      ensures executors == [] ==> ran.None? && cursor == old(cursor)
      ensures executors != [] ==>
                var n := |executors|;
                var first := FirstReady(n, old(cursor), ready, 0);
                && ran == (if first == n then None else Some(Offered(n, old(cursor), first)))
                && cursor == CursorAfter(n, old(cursor), ready)
                && |offered| == (if first == n then n else first + 1)
                && forall a: nat | a < |offered| :: offered[a] == Offered(n, old(cursor), a)
    {
      offered := [];
      var attempt := 0;
      while attempt < |executors|
        invariant 0 <= attempt <= |executors|
        invariant cursor == old(cursor)
        invariant |offered| == attempt
        invariant forall a: nat | a < attempt :: offered[a] == Offered(|executors|, cursor, a)
        invariant executors != [] ==>
                    FirstReady(|executors|, cursor, ready, 0) == FirstReady(|executors|, cursor, ready, attempt)
      {
        var executor := (cursor + attempt) % |executors|;
        offered := offered + [executor];
        if ready(executor) {
          cursor := (cursor + attempt + 1) % |executors|;
          return Some(executor), offered;
        }
        attempt := attempt + 1;
      }
      return None, offered;
    }
  }

  // ----- Coverage ----------------------------------------------------------------------------

  /** How many executors are offered a turn before the given one. */
  function Distance(n: nat, cursor: nat, executor: nat): nat
    requires n > 0 && cursor < n && executor < n
  {
    if cursor <= executor then executor - cursor else executor + n - cursor
  }

  lemma DistanceReaches(n: nat, cursor: nat, executor: nat)
    requires n > 0 && cursor < n && executor < n
    ensures Distance(n, cursor, executor) < n
    ensures Offered(n, cursor, Distance(n, cursor, executor)) == executor
  {
    Wrapped(cursor + Distance(n, cursor, executor), n);
  }

  /** A call that serves nobody has offered every executor a turn and found none ready. */
  lemma IdleMeansAllIdle(n: nat, cursor: nat, ready: nat -> bool, executor: nat)
    requires n > 0 && cursor < n && executor < n && FirstReady(n, cursor, ready, 0) == n
    ensures !ready(executor)
    ensures exists a: nat :: a < n && Offered(n, cursor, a) == executor
  {
    DistanceReaches(n, cursor, executor);
  }

  // ----- Fairness ----------------------------------------------------------------------------

  function CursorAt(n: nat, cursor: nat, calls: seq<nat -> bool>): nat
    requires n > 0
  {
    if calls == [] then cursor
    else CursorAfter(n, CursorAt(n, cursor, calls[..|calls| - 1]), calls[|calls| - 1])
  }

  /** The k-th of a sequence of calls served the executor. */
  ghost predicate Served(n: nat, cursor: nat, calls: seq<nat -> bool>, k: nat, executor: nat)
    requires n > 0 && k < |calls|
  {
    var before := CursorAt(n, cursor, calls[..k]);
    var first := FirstReady(n, before, calls[k], 0);
    first < n && Offered(n, before, first) == executor
  }

  /** A call that serves another executor first brings the cursor strictly closer. */
  lemma TurnComesCloser(n: nat, cursor: nat, ready: nat -> bool, executor: nat)
    requires n > 0 && cursor < n && executor < n && ready(executor)
    ensures var first := FirstReady(n, cursor, ready, 0);
            && first <= Distance(n, cursor, executor)
            && CursorAfter(n, cursor, ready) < n
            && (Offered(n, cursor, first) == executor
                || Distance(n, CursorAfter(n, cursor, ready), executor) < Distance(n, cursor, executor))
  {
    var first, distance := FirstReady(n, cursor, ready, 0), Distance(n, cursor, executor);
    DistanceReaches(n, cursor, executor);
    Wrapped(cursor + first + 1, n);
  }

  /**
   * With n executors, one that stays ready is served within n calls, whatever the others do.
   */
  lemma {:induction false} StayingReadyIsServed(n: nat, cursor: nat, calls: seq<nat -> bool>, executor: nat)
    requires n > 0 && cursor < n && executor < n
    requires forall k | 0 <= k < |calls| :: calls[k](executor)
    ensures CursorAt(n, cursor, calls) < n
    ensures (exists k: nat :: k < |calls| && Served(n, cursor, calls, k, executor))
            || Distance(n, CursorAt(n, cursor, calls), executor) + |calls| <= Distance(n, cursor, executor)
  {
    if calls != [] {
      var last := |calls| - 1;
      StayingReadyIsServed(n, cursor, calls[..last], executor);
      TurnComesCloser(n, CursorAt(n, cursor, calls[..last]), calls[last], executor);
      if k: nat :| k < last && Served(n, cursor, calls[..last], k, executor) {
        assert calls[..last][..k] == calls[..k];
        assert Served(n, cursor, calls, k, executor);
      } else {
        DistanceReaches(n, CursorAt(n, cursor, calls[..last]), executor);
        if Offered(n, CursorAt(n, cursor, calls[..last]),
                   FirstReady(n, CursorAt(n, cursor, calls[..last]), calls[last], 0)) == executor {
          assert Served(n, cursor, calls, last, executor);
        }
      }
    }
  }

  lemma ServedWithinN(n: nat, cursor: nat, calls: seq<nat -> bool>, executor: nat)
    requires n > 0 && cursor < n && executor < n && |calls| == n
    requires forall k | 0 <= k < |calls| :: calls[k](executor)
    ensures exists k: nat :: k < n && Served(n, cursor, calls, k, executor)
  {
    StayingReadyIsServed(n, cursor, calls, executor);
    DistanceReaches(n, cursor, executor);
  }
}
