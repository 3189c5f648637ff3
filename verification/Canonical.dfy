/**
 * Canonical form of a request body: object keys sorted and undefined members dropped, at every
 * depth. It is what the idempotency hash is taken of, so it should be the same for two bodies
 * exactly when they mean the same.
 */
module Canonical {
  import opened Prelude

  datatype Value =
    | Null
    | Undefined
    | Bool(b: bool)
    | Num(n: int)
    | Str(s: string)
    | Arr(items: seq<Value>)
    | Obj(members: seq<Member>)

  datatype Member = Member(key: string, value: Value)

  /**
   * The order keys are sorted into. A locale's comparison may not tell two spellings apart, as of
   * an accented letter with and without a combining mark; such keys stay in the order they came in.
   */
  ghost predicate WeakOrder(less: (string, string) -> bool) {
    && (forall a :: !less(a, a))
    && (forall a, b, c :: less(a, b) && less(b, c) ==> less(a, c))
    && (forall a, b, c :: less(a, c) ==> less(a, b) || less(b, c))
  }

  predicate Tells(less: (string, string) -> bool, a: string, b: string) {
    less(a, b) || less(b, a)
  }

  // ----- Meaning -----------------------------------------------------------------------------

  predicate KeysDistinct(members: seq<Member>) {
    forall i, j | 0 <= i < j < |members| :: members[i].key != members[j].key
  }

  /** Objects have each key once, at every depth. */
  predicate WellFormed(v: Value) {
    match v
    case Arr(items) => forall i | 0 <= i < |items| :: WellFormed(items[i])
    case Obj(members) => KeysDistinct(members) && forall i | 0 <= i < |members| :: WellFormed(members[i].value)
    case _ => true
  }

  predicate Defined(m: Member) {
    !m.value.Undefined?
  }

  /**
   * Two values mean the same: equal apart from the order of members and from undefined members,
   * at any depth.
   */
  predicate Same(v: Value, w: Value) {
    match (v, w)
    case (Arr(items), Arr(others)) =>
      |items| == |others| && forall i | 0 <= i < |items| :: Same(items[i], others[i])
    case (Obj(members), Obj(others)) =>
      && (forall i | 0 <= i < |members| && Defined(members[i]) :: HasTwin(members[i], others))
      && (forall j | 0 <= j < |others| && Defined(others[j]) :: IsTwin(members, others[j]))
    case (_, _) => v == w
  }

  /** Some defined member of the others has the key and means the same. */
  predicate HasTwin(m: Member, others: seq<Member>) {
    exists j | 0 <= j < |others| :: Defined(others[j]) && others[j].key == m.key && Same(m.value, others[j].value)
  }

  /** Some defined member has the key of the other and means the same. */
  predicate IsTwin(members: seq<Member>, other: Member) {
    exists i | 0 <= i < |members| :: Defined(members[i]) && members[i].key == other.key && Same(members[i].value, other.value)
  }

  // ----- Canonical form ----------------------------------------------------------------------

  /** Inserts a member into sorted members, before those it is not told from: it came before them. */
  function Insert(less: (string, string) -> bool, m: Member, sorted: seq<Member>): seq<Member> {
    if sorted == [] || !less(sorted[0].key, m.key) then [m] + sorted
    else [sorted[0]] + Insert(less, m, sorted[1..])
  }

  function Canon(less: (string, string) -> bool, v: Value): Value {
    match v
    case Arr(items) => Arr(CanonItems(less, items))
    case Obj(members) => Obj(CanonMembers(less, members))
    case _ => v
  }

  function CanonItems(less: (string, string) -> bool, items: seq<Value>): (r: seq<Value>)
    ensures |r| == |items|
  {
    if items == [] then [] else [Canon(less, items[0])] + CanonItems(less, items[1..])
  }

  /** Drops what is undefined, canonicalises the rest and sorts it by key. */
  function CanonMembers(less: (string, string) -> bool, members: seq<Member>): seq<Member> {
    if members == [] then []
    else
      var rest := CanonMembers(less, members[1..]);
      if members[0].value.Undefined? then rest
      else Insert(less, Member(members[0].key, Canon(less, members[0].value)), rest)
  }

  // ----- Sorting -----------------------------------------------------------------------------

  ghost predicate Sorted(less: (string, string) -> bool, members: seq<Member>) {
    forall i, j | 0 <= i < j < |members| :: !less(members[j].key, members[i].key)
  }

  lemma {:induction false} InsertMeans(less: (string, string) -> bool, m: Member, sorted: seq<Member>)
    ensures forall n :: n in Insert(less, m, sorted) <==> n == m || n in sorted
  {
    if sorted != [] && less(sorted[0].key, m.key) {
      InsertMeans(less, m, sorted[1..]);
      assert sorted == [sorted[0]] + sorted[1..];
    }
  }

  lemma {:induction false} InsertKeepsSorted(less: (string, string) -> bool, m: Member, sorted: seq<Member>)
    requires WeakOrder(less) && Sorted(less, sorted) && KeysDistinct(sorted)
    requires forall i | 0 <= i < |sorted| :: sorted[i].key != m.key
    ensures Sorted(less, Insert(less, m, sorted)) && KeysDistinct(Insert(less, m, sorted))
  {
    if sorted != [] && less(sorted[0].key, m.key) {
      var rest := Insert(less, m, sorted[1..]);
      InsertKeepsSorted(less, m, sorted[1..]);
      InsertMeans(less, m, sorted[1..]);
      forall j | 0 <= j < |rest|
        ensures !less(rest[j].key, sorted[0].key) && rest[j].key != sorted[0].key
      {
        assert rest[j] in rest;
      }
    }
  }

  /** The canonical members are sorted, and are the defined members in canonical form. */
  lemma {:induction false} CanonMembersMeans(less: (string, string) -> bool, members: seq<Member>)
    requires WeakOrder(less) && KeysDistinct(members)
    ensures Sorted(less, CanonMembers(less, members)) && KeysDistinct(CanonMembers(less, members))
    ensures forall n :: n in CanonMembers(less, members) <==>
              exists i :: 0 <= i < |members| && Defined(members[i]) && n == Member(members[i].key, Canon(less, members[i].value))
  {
    if members != [] {
      var rest := members[1..];
      CanonMembersMeans(less, rest);
      var sorted := CanonMembers(less, rest);
      var first := Member(members[0].key, Canon(less, members[0].value));
      forall n
        ensures n in sorted <==>
                  exists i :: 1 <= i < |members| && Defined(members[i]) && n == Member(members[i].key, Canon(less, members[i].value))
      {
        if n in sorted {
          var i :| 0 <= i < |rest| && Defined(rest[i]) && n == Member(rest[i].key, Canon(less, rest[i].value));
          assert members[i + 1] == rest[i];
        }
        if i :| 1 <= i < |members| && Defined(members[i]) && n == Member(members[i].key, Canon(less, members[i].value)) {
          assert rest[i - 1] == members[i];
        }
      }
      if Defined(members[0]) {
        forall k | 0 <= k < |sorted|
          ensures sorted[k].key != first.key
        {
          assert sorted[k] in sorted;
        }
        InsertMeans(less, first, sorted);
        InsertKeepsSorted(less, first, sorted);
      }
    }
  }

  ghost predicate StrictlySorted(less: (string, string) -> bool, members: seq<Member>) {
    forall i, j | 0 <= i < j < |members| :: less(members[i].key, members[j].key)
  }

  lemma FirstIsLeast(less: (string, string) -> bool, a: seq<Member>, m: Member)
    requires StrictlySorted(less, a) && m in a
    ensures m == a[0] || less(a[0].key, m.key)
  {
    var i :| 0 <= i < |a| && a[i] == m;
  }

  lemma WithoutMembers(a: seq<Member>)
    ensures (forall m :: m !in a) ==> a == []
  {
    if a != [] {
      assert a[0] in a;
    }
  }

  /** Strictly sorted members are determined by what they are. */
  lemma {:induction false} SortedUnique(less: (string, string) -> bool, a: seq<Member>, b: seq<Member>)
    requires WeakOrder(less) && StrictlySorted(less, a) && StrictlySorted(less, b) && forall m :: m in a <==> m in b
    ensures a == b
  {
    if a == [] || b == [] {
      WithoutMembers(a);
      WithoutMembers(b);
    } else {
      assert a[0] in a && b[0] in b;
      FirstIsLeast(less, a, b[0]);
      FirstIsLeast(less, b, a[0]);
      forall m
        ensures m in a[1..] <==> m in b[1..]
      {
        TailsKeepMembers(less, a, b, m);
        TailsKeepMembers(less, b, a, m);
      }
      SortedUnique(less, a[1..], b[1..]);
      assert a == [a[0]] + a[1..] && b == [b[0]] + b[1..];
    }
  }

  lemma TailsKeepMembers(less: (string, string) -> bool, a: seq<Member>, b: seq<Member>, m: Member)
    requires WeakOrder(less) && StrictlySorted(less, a) && a != [] && b != [] && a[0] == b[0] && (forall n :: n in a <==> n in b)
    ensures m in a[1..] ==> m in b[1..]
  {
    if m in a[1..] {
      var i :| 0 <= i < |a[1..]| && a[1..][i] == m;
      assert a[i + 1] == m && less(a[0].key, m.key);
      assert m in b;
      var j :| 0 <= j < |b| && b[j] == m;
      assert j != 0 && b[1..][j - 1] == m;
    }
  }

  // ----- Keys that are told apart ------------------------------------------------------------

  /** Any two defined members have keys that the order tells apart. */
  ghost predicate KeysTold(less: (string, string) -> bool, members: seq<Member>) {
    forall i, j | 0 <= i < j < |members| && Defined(members[i]) && Defined(members[j]) :: Tells(less, members[i].key, members[j].key)
  }

  /** So it is in every object of the value, at any depth. */
  ghost predicate Resolved(less: (string, string) -> bool, v: Value) {
    match v
    case Arr(items) => forall i | 0 <= i < |items| :: Resolved(less, items[i])
    case Obj(members) => KeysTold(less, members) && forall i | 0 <= i < |members| :: Resolved(less, members[i].value)
    case _ => true
  }

  /** Sorting members whose keys are told apart sorts them strictly. */
  lemma ToldKeysSortStrictly(less: (string, string) -> bool, members: seq<Member>, sorted: seq<Member>)
    requires WeakOrder(less) && KeysDistinct(members) && KeysTold(less, members)
    requires Sorted(less, sorted) && KeysDistinct(sorted) && forall m | m in sorted :: m in CanonMembers(less, members)
    ensures StrictlySorted(less, sorted)
  {
    CanonMembersMeans(less, members);
    forall p, q | 0 <= p < q < |sorted|
      ensures less(sorted[p].key, sorted[q].key)
    {
      assert sorted[p] in sorted && sorted[q] in sorted;
      var i :| 0 <= i < |members| && Defined(members[i]) && sorted[p] == Member(members[i].key, Canon(less, members[i].value));
      var j :| 0 <= j < |members| && Defined(members[j]) && sorted[q] == Member(members[j].key, Canon(less, members[j].value));
      assert i != j;
    }
  }

  // ----- One form for one meaning ------------------------------------------------------------

  lemma {:induction false} CanonItemsAt(less: (string, string) -> bool, items: seq<Value>, i: nat)
    requires i < |items|
    ensures CanonItems(less, items)[i] == Canon(less, items[i])
  {
    if i > 0 {
      CanonItemsAt(less, items[1..], i - 1);
    }
  }

  lemma CanonKeepsKind(less: (string, string) -> bool, v: Value)
    ensures Canon(less, v).Arr? <==> v.Arr?
    ensures Canon(less, v).Obj? <==> v.Obj?
    ensures !v.Arr? && !v.Obj? ==> Canon(less, v) == v
  {
  }

  /** Every defined member has a counterpart of the same canonical form among the others. */
  ghost predicate FormsFound(less: (string, string) -> bool, members: seq<Member>, others: seq<Member>) {
    forall i | 0 <= i < |members| && Defined(members[i]) :: FormFound(less, members[i], others)
  }

  ghost predicate FormFound(less: (string, string) -> bool, m: Member, others: seq<Member>) {
    exists j | 0 <= j < |others| ::
      Defined(others[j]) && others[j].key == m.key && Canon(less, others[j].value) == Canon(less, m.value)
  }

  lemma FoundFormsAreMembers(less: (string, string) -> bool, members: seq<Member>, others: seq<Member>, n: Member)
    requires WeakOrder(less) && KeysDistinct(members) && KeysDistinct(others) && n in CanonMembers(less, members)
    requires FormsFound(less, members, others)
    ensures n in CanonMembers(less, others)
  {
    CanonMembersMeans(less, members);
    CanonMembersMeans(less, others);
    var i :| 0 <= i < |members| && Defined(members[i]) && n == Member(members[i].key, Canon(less, members[i].value));
    assert FormFound(less, members[i], others);
    var j :| 0 <= j < |others| && Defined(others[j]) && others[j].key == members[i].key
             && Canon(less, others[j].value) == Canon(less, members[i].value);
  }

  lemma FoundFormsAgree(less: (string, string) -> bool, members: seq<Member>, others: seq<Member>)
    requires WeakOrder(less) && KeysDistinct(members) && KeysDistinct(others) && KeysTold(less, members)
    requires FormsFound(less, members, others) && FormsFound(less, others, members)
    ensures CanonMembers(less, members) == CanonMembers(less, others)
  {
    forall n
      ensures n in CanonMembers(less, members) <==> n in CanonMembers(less, others)
    {
      if n in CanonMembers(less, members) {
        FoundFormsAreMembers(less, members, others, n);
      }
      if n in CanonMembers(less, others) {
        FoundFormsAreMembers(less, others, members, n);
      }
    }
    CanonMembersMeans(less, members);
    CanonMembersMeans(less, others);
    ToldKeysSortStrictly(less, members, CanonMembers(less, members));
    ToldKeysSortStrictly(less, members, CanonMembers(less, others));
    SortedUnique(less, CanonMembers(less, members), CanonMembers(less, others));
  }

  lemma {:induction false} SameHasOneForm(less: (string, string) -> bool, v: Value, w: Value)
    requires WeakOrder(less) && WellFormed(v) && WellFormed(w) && Same(v, w) && Resolved(less, v)
    ensures Canon(less, v) == Canon(less, w)
    decreases v, 1
  {
    if v.Arr? && w.Arr? {
      forall i | 0 <= i < |v.items|
        ensures CanonItems(less, v.items)[i] == CanonItems(less, w.items)[i]
      {
        SameHasOneForm(less, v.items[i], w.items[i]);
        CanonItemsAt(less, v.items, i);
        CanonItemsAt(less, w.items, i);
      }
    } else if v.Obj? && w.Obj? {
      forall i | 0 <= i < |v.members| && Defined(v.members[i])
        ensures FormFound(less, v.members[i], w.members)
      {
        FormFoundThere(less, v, w, i);
      }
      forall j | 0 <= j < |w.members| && Defined(w.members[j])
        ensures FormFound(less, w.members[j], v.members)
      {
        FormFoundHere(less, v, w, j);
      }
      FoundFormsAgree(less, v.members, w.members);
    }
  }

  lemma {:induction false} FormFoundThere(less: (string, string) -> bool, v: Value, w: Value, i: nat)
    requires WeakOrder(less) && WellFormed(v) && WellFormed(w) && v.Obj? && w.Obj? && Same(v, w) && Resolved(less, v)
    requires i < |v.members| && Defined(v.members[i])
    ensures FormFound(less, v.members[i], w.members)
    decreases v, 0
  {
    assert HasTwin(v.members[i], w.members);
    var j :| 0 <= j < |w.members| && Defined(w.members[j]) && w.members[j].key == v.members[i].key
             && Same(v.members[i].value, w.members[j].value);
    SameHasOneForm(less, v.members[i].value, w.members[j].value);
  }

  lemma {:induction false} FormFoundHere(less: (string, string) -> bool, v: Value, w: Value, j: nat)
    requires WeakOrder(less) && WellFormed(v) && WellFormed(w) && v.Obj? && w.Obj? && Same(v, w) && Resolved(less, v)
    requires j < |w.members| && Defined(w.members[j])
    ensures FormFound(less, w.members[j], v.members)
    decreases v, 0
  {
    assert IsTwin(v.members, w.members[j]);
    var i :| 0 <= i < |v.members| && Defined(v.members[i]) && v.members[i].key == w.members[j].key
             && Same(v.members[i].value, w.members[j].value);
    SameHasOneForm(less, v.members[i].value, w.members[j].value);
  }

  /** A member of one object has a counterpart in another of the same canonical form. */
  lemma CounterpartOf(less: (string, string) -> bool, members: seq<Member>, others: seq<Member>, i: nat) returns (j: nat)
    requires WeakOrder(less) && KeysDistinct(members) && KeysDistinct(others)
    requires CanonMembers(less, members) == CanonMembers(less, others) && i < |members| && Defined(members[i])
    ensures j < |others| && Defined(others[j]) && others[j].key == members[i].key
    ensures Canon(less, others[j].value) == Canon(less, members[i].value)
  {
    CanonMembersMeans(less, members);
    CanonMembersMeans(less, others);
    assert Member(members[i].key, Canon(less, members[i].value)) in CanonMembers(less, others);
    j :| 0 <= j < |others| && Defined(others[j])
         && Member(members[i].key, Canon(less, members[i].value)) == Member(others[j].key, Canon(less, others[j].value));
  }

  lemma {:induction false} OneFormMeansSame(less: (string, string) -> bool, v: Value, w: Value)
    requires WeakOrder(less) && WellFormed(v) && WellFormed(w) && Canon(less, v) == Canon(less, w)
    ensures Same(v, w)
    decreases v
  {
    CanonKeepsKind(less, v);
    CanonKeepsKind(less, w);
    match (v, w)
    case (Arr(items), Arr(others)) =>
      assert CanonItems(less, items) == CanonItems(less, others);
      forall i | 0 <= i < |items|
        ensures Same(items[i], others[i])
      {
        CanonItemsAt(less, items, i);
        CanonItemsAt(less, others, i);
        OneFormMeansSame(less, items[i], others[i]);
      }
    case (Obj(members), Obj(others)) =>
      forall i | 0 <= i < |members| && Defined(members[i])
        ensures HasTwin(members[i], others)
      {
        var j := CounterpartOf(less, members, others, i);
        OneFormMeansSame(less, members[i].value, others[j].value);
      }
      forall j | 0 <= j < |others| && Defined(others[j])
        ensures IsTwin(members, others[j])
      {
        var i := CounterpartOf(less, others, members, j);
        OneFormMeansSame(less, members[i].value, others[j].value);
      }
    case (_, _) =>
  }

  // ----- Keys that are not told apart --------------------------------------------------------

  lemma {:induction false} InsertGoesBefore(less: (string, string) -> bool, m: Member, sorted: seq<Member>, q: nat) returns (p: nat)
    requires q < |sorted| && !less(sorted[q].key, m.key)
    ensures p <= q && |Insert(less, m, sorted)| == |sorted| + 1
    ensures Insert(less, m, sorted)[p] == m && Insert(less, m, sorted)[q + 1] == sorted[q]
  {
    if !less(sorted[0].key, m.key) {
      p := 0;
    } else {
      p := InsertGoesBefore(less, m, sorted[1..], q - 1);
      p := p + 1;
    }
  }

  lemma {:induction false} InsertKeepsOrder(less: (string, string) -> bool, m: Member, sorted: seq<Member>, p: nat, q: nat)
    returns (p': nat, q': nat)
    requires p < q < |sorted|
    ensures p' < q' < |Insert(less, m, sorted)|
    ensures Insert(less, m, sorted)[p'] == sorted[p] && Insert(less, m, sorted)[q'] == sorted[q]
  {
    p', q' := p + 1, q + 1;
    if less(sorted[0].key, m.key) {
      if p == 0 {
        p' := 0;
        q' := InsertKeepsMember(less, m, sorted[1..], q - 1);
      } else {
        p', q' := InsertKeepsOrder(less, m, sorted[1..], p - 1, q - 1);
        p' := p' + 1;
      }
      q' := q' + 1;
    }
  }

  lemma {:induction false} InsertKeepsMember(less: (string, string) -> bool, m: Member, sorted: seq<Member>, q: nat) returns (q': nat)
    requires q < |sorted|
    ensures q' < |Insert(less, m, sorted)| && Insert(less, m, sorted)[q'] == sorted[q]
  {
    q' := q + 1;
    if less(sorted[0].key, m.key) {
      if q == 0 {
        q' := 0;
      } else {
        q' := InsertKeepsMember(less, m, sorted[1..], q - 1);
        q' := q' + 1;
      }
    }
  }

  /** Sorting is stable: members that are not told apart stay in the order they came in. */
  lemma {:induction false} SortingIsStable(less: (string, string) -> bool, members: seq<Member>, i: nat, j: nat)
    returns (p: nat, q: nat)
    requires WeakOrder(less) && KeysDistinct(members) && i < j < |members| && Defined(members[i]) && Defined(members[j])
    requires !less(members[j].key, members[i].key)
    ensures p < q < |CanonMembers(less, members)|
    ensures CanonMembers(less, members)[p].key == members[i].key && CanonMembers(less, members)[q].key == members[j].key
  {
    var rest := members[1..];
    var sorted, first := CanonMembers(less, rest), Member(members[0].key, Canon(less, members[0].value));
    if i == 0 {
      CanonMembersMeans(less, rest);
      assert rest[j - 1] == members[j];
      assert Member(members[j].key, Canon(less, members[j].value)) in sorted;
      var k :| 0 <= k < |sorted| && sorted[k] == Member(members[j].key, Canon(less, members[j].value));
      p := InsertGoesBefore(less, first, sorted, k);
      q := k + 1;
    } else {
      p, q := SortingIsStable(less, rest, i - 1, j - 1);
      if Defined(members[0]) {
        p, q := InsertKeepsOrder(less, first, sorted, p, q);
      }
    }
  }

  function Swapped(members: seq<Member>, i: nat, j: nat): seq<Member>
    requires i < j < |members|
  {
    members[i := members[j]][j := members[i]]
  }

  /** Two keys that are not told apart: the value with these members swapped has another form. */
  lemma SwappingShows(less: (string, string) -> bool, members: seq<Member>, i: nat, j: nat)
    requires WeakOrder(less) && KeysDistinct(members) && i < j < |members| && Defined(members[i]) && Defined(members[j])
    requires !Tells(less, members[i].key, members[j].key)
    ensures KeysDistinct(Swapped(members, i, j))
    ensures CanonMembers(less, Swapped(members, i, j)) != CanonMembers(less, members)
  {
    var p, q := SortingIsStable(less, members, i, j);
    var p', q' := SortingIsStable(less, Swapped(members, i, j), i, j);
    CanonMembersMeans(less, members);
  }

  /** Members that correspond one to one make objects that mean the same. */
  lemma MatchingMembersMeanSame(members: seq<Member>, others: seq<Member>)
    requires |others| == |members|
    requires forall k | 0 <= k < |members| :: others[k].key == members[k].key && Same(members[k].value, others[k].value)
    requires forall k | 0 <= k < |members| :: Defined(others[k]) == Defined(members[k])
    ensures Same(Obj(members), Obj(others))
  {
    forall k | 0 <= k < |members| && Defined(members[k])
      ensures HasTwin(members[k], others)
    {
      assert Defined(others[k]);
    }
    forall k | 0 <= k < |others| && Defined(others[k])
      ensures IsTwin(members, others[k])
    {
      assert Defined(members[k]);
    }
  }

  lemma {:induction false} SameIsReflexive(v: Value)
    ensures Same(v, v)
    decreases v
  {
    match v
    case Arr(items) =>
      forall i | 0 <= i < |items|
        ensures Same(items[i], items[i])
      {
        SameIsReflexive(items[i]);
      }
    case Obj(members) =>
      forall i | 0 <= i < |members|
        ensures Same(members[i].value, members[i].value)
      {
        SameIsReflexive(members[i].value);
      }
      MatchingMembersMeanSame(members, members);
    case _ =>
  }

  lemma SwappedIsSame(members: seq<Member>, i: nat, j: nat)
    requires i < j < |members|
    ensures Same(Obj(members), Obj(Swapped(members, i, j)))
  {
    var others := Swapped(members, i, j);
    forall k | 0 <= k < |members|
      ensures Same(members[k].value, members[k].value)
    {
      SameIsReflexive(members[k].value);
    }
    forall k | 0 <= k < |members| && Defined(members[k])
      ensures HasTwin(members[k], others)
    {
      assert others[if k == i then j else if k == j then i else k] == members[k];
    }
    forall k | 0 <= k < |others| && Defined(others[k])
      ensures IsTwin(members, others[k])
    {
      assert others[k] == members[if k == i then j else if k == j then i else k];
    }
  }

  lemma ChangedMemberMeansSame(members: seq<Member>, i: nat, value: Value)
    requires i < |members| && Defined(members[i]) && !value.Undefined? && Same(members[i].value, value)
    ensures Same(Obj(members), Obj(members[i := Member(members[i].key, value)]))
  {
    forall k | 0 <= k < |members|
      ensures Same(members[k].value, members[i := Member(members[i].key, value)][k].value)
    {
      SameIsReflexive(members[k].value);
    }
    MatchingMembersMeanSame(members, members[i := Member(members[i].key, value)]);
  }

  /** A changed member has another form, and so has its object. */
  lemma ChangedMemberShows(less: (string, string) -> bool, members: seq<Member>, i: nat, value: Value)
    requires WeakOrder(less) && KeysDistinct(members) && i < |members| && Defined(members[i]) && !value.Undefined?
    requires Canon(less, value) != Canon(less, members[i].value)
    ensures CanonMembers(less, members[i := Member(members[i].key, value)]) != CanonMembers(less, members)
  {
    var others := members[i := Member(members[i].key, value)];
    CanonMembersMeans(less, members);
    CanonMembersMeans(less, others);
    assert Defined(others[i]) && Member(members[i].key, Canon(less, value)) in CanonMembers(less, others);
  }

  lemma ChangedItemShows(less: (string, string) -> bool, items: seq<Value>, i: nat, value: Value)
    requires WellFormed(Arr(items)) && i < |items| && WellFormed(value) && Same(items[i], value)
    requires Canon(less, value) != Canon(less, items[i])
    ensures var w := Arr(items[i := value]);
            WellFormed(w) && Same(Arr(items), w) && Canon(less, w) != Canon(less, Arr(items))
  {
    forall k | 0 <= k < |items|
      ensures Same(items[k], items[i := value][k])
    {
      SameIsReflexive(items[k]);
    }
    CanonItemsAt(less, items, i);
    CanonItemsAt(less, items[i := value], i);
  }

  /** The value is another one that means the same and has another form. */
  ghost predicate Shows(less: (string, string) -> bool, v: Value, w: Value) {
    WellFormed(w) && Same(v, w) && Canon(less, w) != Canon(less, v)
  }

  lemma ChangedObjectShows(less: (string, string) -> bool, members: seq<Member>, i: nat, value: Value) returns (w: Value)
    requires WeakOrder(less) && WellFormed(Obj(members)) && i < |members| && Defined(members[i])
    requires Shows(less, members[i].value, value) && !value.Undefined?
    ensures Shows(less, Obj(members), w)
  {
    ChangedMemberMeansSame(members, i, value);
    ChangedMemberShows(less, members, i, value);
    w := Obj(members[i := Member(members[i].key, value)]);
  }

  lemma SwappedObjectShows(less: (string, string) -> bool, members: seq<Member>, i: nat, j: nat) returns (w: Value)
    requires WeakOrder(less) && WellFormed(Obj(members)) && i < j < |members| && Defined(members[i]) && Defined(members[j])
    requires !Tells(less, members[i].key, members[j].key)
    ensures Shows(less, Obj(members), w)
  {
    SwappingShows(less, members, i, j);
    SwappedIsSame(members, i, j);
    w := Obj(Swapped(members, i, j));
  }

  /** Wherever keys are not told apart, another value that means the same has another form. */
  lemma {:induction false} UnresolvedHasTwoForms(less: (string, string) -> bool, v: Value) returns (w: Value)
    requires WeakOrder(less) && WellFormed(v) && !Resolved(less, v)
    ensures Shows(less, v, w)
    decreases v
  {
    match v
    case Arr(items) =>
      var i: nat :| i < |items| && !Resolved(less, items[i]);
      var value := UnresolvedHasTwoForms(less, items[i]);
      ChangedItemShows(less, items, i, value);
      w := Arr(items[i := value]);
    case Obj(members) =>
      if KeysTold(less, members) {
        var i: nat :| i < |members| && !Resolved(less, members[i].value);
        var value := UnresolvedHasTwoForms(less, members[i].value);
        w := ChangedObjectShows(less, members, i, value);
      } else {
        var i: nat, j: nat :| i < j < |members| && Defined(members[i]) && Defined(members[j])
                              && !Tells(less, members[i].key, members[j].key);
        w := SwappedObjectShows(less, members, i, j);
      }
  }

  // ----- The theorem -------------------------------------------------------------------------

  /** Every value that means the same as this one has its canonical form, and no other value has. */
  ghost predicate FormIsExact(less: (string, string) -> bool, v: Value) {
    forall w | WellFormed(w) :: Canon(less, v) == Canon(less, w) <==> Same(v, w)
  }

  /**
   * Canonical forms are equal exactly when the values mean the same - whatever the order of keys at
   * any depth, and only then - if and only if the order tells the keys of each object apart. What
   * has the same form always means the same.
   */
  lemma CanonicalFormIsExact(less: (string, string) -> bool, v: Value)
    requires WeakOrder(less) && WellFormed(v)
    ensures FormIsExact(less, v) <==> Resolved(less, v)
    ensures forall w | WellFormed(w) && Canon(less, v) == Canon(less, w) :: Same(v, w)
  {
    forall w | WellFormed(w) && Canon(less, v) == Canon(less, w)
      ensures Same(v, w)
    {
      OneFormMeansSame(less, v, w);
    }
    if Resolved(less, v) {
      forall w | WellFormed(w) && Same(v, w)
        ensures Canon(less, v) == Canon(less, w)
      {
        SameHasOneForm(less, v, w);
      }
    } else {
      var w := UnresolvedHasTwoForms(less, v);
    }
  }

  /** An order that tells all strings apart, as comparing code units does, leaves no such keys. */
  lemma {:induction false} TotalOrdersResolve(less: (string, string) -> bool, v: Value)
    requires WellFormed(v) && forall a, b | a != b :: Tells(less, a, b)
    ensures Resolved(less, v)
    decreases v
  {
    match v
    case Arr(items) =>
      forall i | 0 <= i < |items|
        ensures Resolved(less, items[i])
      {
        TotalOrdersResolve(less, items[i]);
      }
    case Obj(members) =>
      forall i | 0 <= i < |members|
        ensures Resolved(less, members[i].value)
      {
        TotalOrdersResolve(less, members[i].value);
      }
    case _ =>
  }

  // ----- Idempotence -------------------------------------------------------------------------

  /** Sorting sorted members that are in canonical form changes nothing. */
  lemma {:induction false} SortedStays(less: (string, string) -> bool, members: seq<Member>)
    requires Sorted(less, members)
    requires forall i | 0 <= i < |members| :: Defined(members[i]) && Canon(less, members[i].value) == members[i].value
    ensures CanonMembers(less, members) == members
  {
    if members != [] {
      SortedStays(less, members[1..]);
    }
  }

  lemma CanonStaysDefined(less: (string, string) -> bool, v: Value)
    ensures Canon(less, v).Undefined? <==> v.Undefined?
  {
  }

  /** Canonicalising twice is canonicalising once. */
  lemma {:induction false} CanonicalFormIsIdempotent(less: (string, string) -> bool, v: Value)
    requires WeakOrder(less) && WellFormed(v)
    ensures Canon(less, Canon(less, v)) == Canon(less, v)
    decreases v
  {
    match v
    case Arr(items) =>
      forall i | 0 <= i < |items|
        ensures CanonItems(less, CanonItems(less, items))[i] == CanonItems(less, items)[i]
      {
        CanonItemsAt(less, items, i);
        CanonItemsAt(less, CanonItems(less, items), i);
        CanonicalFormIsIdempotent(less, items[i]);
      }
    case Obj(members) =>
      var canon := CanonMembers(less, members);
      CanonMembersMeans(less, members);
      forall k | 0 <= k < |canon|
        ensures Defined(canon[k]) && Canon(less, canon[k].value) == canon[k].value
      {
        assert canon[k] in canon;
        var i :| 0 <= i < |members| && Defined(members[i]) && canon[k] == Member(members[i].key, Canon(less, members[i].value));
        CanonStaysDefined(less, members[i].value);
        CanonicalFormIsIdempotent(less, members[i].value);
      }
      SortedStays(less, canon);
    case _ =>
  }
}
