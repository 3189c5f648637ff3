/**
 * The ownership label of a virtual machine's description, and the search for the identifier of a
 * machine: an owned one if there is one, else the first free one of a reserved range.
 */
module Vmid {
  import opened Prelude

  // ----- The label ---------------------------------------------------------------------------

  datatype OwnershipMarkers = OwnershipMarkers(
    managedBy: string,
    environment: string,
    projectId: string,
    instanceId: string,
    createOperationId: string)

  /**
   * The runtime's JSON printer and parser, as far as labels need them: printing escapes line
   * breaks, and what was printed parses back.
   */
  datatype Json = Json(show: OwnershipMarkers -> string, parse: string -> Option<OwnershipMarkers>)

  ghost predicate Faithful(json: Json) {
    forall m :: json.parse(json.show(m)) == Some(m) && '\n' !in json.show(m)
  }

  const MARKER_PREFIX := "private-cloud-control:"

  function OwnershipDescription(json: Json, markers: OwnershipMarkers): string {
    MARKER_PREFIX + json.show(markers)
  }

  /** The label with one more line beneath it. */
  function DescribedWithTrailer(json: Json, markers: OwnershipMarkers, key: string, value: string): string {
    OwnershipDescription(json, markers) + "\n" + key + "=" + value
  }

  function FirstLine(s: string): string {
    if s == "" || s[0] == '\n' then "" else [s[0]] + FirstLine(s[1..])
  }

  predicate Complete(m: OwnershipMarkers) {
    m.managedBy != "" && m.environment != "" && m.projectId != "" && m.instanceId != "" && m.createOperationId != ""
  }

  /** Reads the label off the first line; anything else, or an empty field, is no label. */
  function ParseOwnership(json: Json, description: string): Option<OwnershipMarkers> {
    if !(MARKER_PREFIX <= description) then None
    else
      var parsed := json.parse(FirstLine(description[|MARKER_PREFIX|..]));
      if parsed.None? || !Complete(parsed.value) then None else parsed
  }

  lemma {:induction false} FirstLineStops(line: string, rest: string)
    requires '\n' !in line && (rest == "" || rest[0] == '\n')
    ensures FirstLine(line + rest) == line
  {
    if line == "" {
      assert line + rest == rest;
    } else {
      assert (line + rest)[1..] == line[1..] + rest;
      FirstLineStops(line[1..], rest);
    }
  }

  lemma LabelOnFirstLine(json: Json, markers: OwnershipMarkers, rest: string)
    requires Faithful(json) && (rest == "" || rest[0] == '\n')
    ensures ParseOwnership(json, OwnershipDescription(json, markers) + rest)
            == if Complete(markers) then Some(markers) else None
  {
    var text := json.show(markers);
    var description := OwnershipDescription(json, markers) + rest;
    assert json.parse(text) == Some(markers);
    assert description == MARKER_PREFIX + (text + rest);
    assert description[|MARKER_PREFIX|..] == text + rest;
    FirstLineStops(text, rest);
  }

  /**
   * Parsing inverts both printers exactly for labels without an empty field: with or without a
   * trailer, whatever its key and value contain.
   */
  lemma ParseInvertsPrinters(json: Json, markers: OwnershipMarkers, key: string, value: string)
    requires Faithful(json)
    ensures ParseOwnership(json, OwnershipDescription(json, markers)) == Some(markers) <==> Complete(markers)
    ensures ParseOwnership(json, DescribedWithTrailer(json, markers, key, value)) == Some(markers) <==> Complete(markers)
  {
    LabelOnFirstLine(json, markers, "");
    assert OwnershipDescription(json, markers) + "" == OwnershipDescription(json, markers);
    LabelOnFirstLine(json, markers, "\n" + key + "=" + value);
    assert DescribedWithTrailer(json, markers, key, value)
           == OwnershipDescription(json, markers) + ("\n" + key + "=" + value);
  }

  // ----- The search --------------------------------------------------------------------------

  /** The hypervisor: which identifiers are taken, and the description of each, if readable. */
  datatype Host = Host(occupied: set<nat>, descriptions: map<nat, string>)

  datatype Range = Range(minimum: nat, size: nat)

  function ProbeAt(range: Range, seed: nat, offset: nat): nat
    requires range.size > 0
  {
    range.minimum + (seed + offset) % range.size
  }

  predicate OwnedBy(json: Json, host: Host, vmid: nat, markers: OwnershipMarkers) {
    vmid in host.descriptions && ParseOwnership(json, host.descriptions[vmid]) == Some(markers)
  }

  /** The probe may stop here: the identifier is free, or already ours. */
  predicate Usable(json: Json, host: Host, vmid: nat, markers: OwnershipMarkers) {
    vmid !in host.occupied || OwnedBy(json, host, vmid, markers)
  }

  function Search(json: Json, host: Host, range: Range, seed: nat, markers: OwnershipMarkers, offset: nat): Option<nat>
    requires range.size > 0 && offset <= range.size
    decreases range.size - offset
  {
    if offset == range.size then None
    else if Usable(json, host, ProbeAt(range, seed, offset), markers) then Some(ProbeAt(range, seed, offset))
    else Search(json, host, range, seed, markers, offset + 1)
  }

  /** Probes the range once around from the seed; `None` is the exhausted range. */
  method FindOwnedOrFreeVmid(json: Json, host: Host, range: Range, seed: nat, markers: OwnershipMarkers)
    returns (found: Option<nat>)
    ensures range.size == 0 ==> found.None?
    ensures range.size > 0 ==> found == Search(json, host, range, seed, markers, 0)
  {
    var offset := 0;
    while offset < range.size
      invariant offset <= range.size
      invariant range.size > 0 ==>
                  Search(json, host, range, seed, markers, 0) == Search(json, host, range, seed, markers, offset)
    {
      var vmid := range.minimum + (seed + offset) % range.size;
      if vmid !in host.occupied {
        return Some(vmid);
      }
      if vmid in host.descriptions && ParseOwnership(json, host.descriptions[vmid]) == Some(markers) {
        return Some(vmid);
      }
      offset := offset + 1;
    }
    return None;
  }

  // ----- Every identifier once ---------------------------------------------------------------

  lemma SameRemainder(a: nat, b: nat, n: nat)
    requires 0 < n && a % n == b % n && a <= b < a + n
    ensures a == b
  {
    assert a == n * (a / n) + a % n && b == n * (b / n) + b % n;
    assert n * (b / n) - n * (a / n) == n * (b / n - a / n);
    OnlyZeroBetween(n, b / n - a / n);
  }

  /** No identifier is probed twice. */
  lemma ProbesDiffer(range: Range, seed: nat, j: nat, k: nat)
    requires j < k < range.size
    ensures ProbeAt(range, seed, j) != ProbeAt(range, seed, k)
  {
    if ProbeAt(range, seed, j) == ProbeAt(range, seed, k) {
      SameRemainder(seed + j, seed + k, range.size);
    }
  }

  /** Every identifier of the range is probed. */
  lemma ProbesCover(range: Range, seed: nat, vmid: nat) returns (offset: nat)
    requires range.minimum <= vmid < range.minimum + range.size
    ensures offset < range.size && ProbeAt(range, seed, offset) == vmid
  {
    var n, target, start := range.size, vmid - range.minimum, seed % range.size;
    offset := if start <= target then target - start else target + n - start;
    assert seed + offset == n * (seed / n) + (start + offset);
    if start <= target {
      RemainderOf(seed / n, start + offset, n);
    } else {
      assert seed + offset == n * (seed / n + 1) + target by {
        assert n * (seed / n + 1) == n * (seed / n) + n;
      }
      RemainderOf(seed / n + 1, target, n);
    }
  }

  /** Where the search stopped: everything before is taken by others. */
  lemma {:induction false} SearchStops(json: Json, host: Host, range: Range, seed: nat, markers: OwnershipMarkers, offset: nat)
    returns (k: nat)
    requires range.size > 0 && offset <= range.size
    ensures offset <= k <= range.size
    ensures forall j: nat | offset <= j < k :: !Usable(json, host, ProbeAt(range, seed, j), markers)
    ensures Search(json, host, range, seed, markers, offset)
            == if k == range.size then None else Some(ProbeAt(range, seed, k))
    ensures k < range.size ==> Usable(json, host, ProbeAt(range, seed, k), markers)
    decreases range.size - offset
  {
    if offset == range.size || Usable(json, host, ProbeAt(range, seed, offset), markers) {
      k := offset;
    } else {
      k := SearchStops(json, host, range, seed, markers, offset + 1);
    }
  }

  predicate InRange(range: Range, vmid: nat) {
    range.minimum <= vmid < range.minimum + range.size
  }

  lemma ProbesAreInRange(range: Range, seed: nat, offset: nat)
    requires range.size > 0
    ensures InRange(range, ProbeAt(range, seed, offset))
  {
  }

  /** Nothing in the range is usable: each identifier is taken, and not by us. */
  ghost predicate Exhausted(json: Json, host: Host, range: Range, markers: OwnershipMarkers) {
    forall vmid: nat | InRange(range, vmid) :: vmid in host.occupied && !OwnedBy(json, host, vmid, markers)
  }

  /**
   * The search fails exactly when every identifier of the range is occupied and none is ours; an
   * identifier it finds is in the range, and free or ours.
   */
  lemma ExhaustionIsExact(json: Json, host: Host, range: Range, seed: nat, markers: OwnershipMarkers)
    requires range.size > 0
    ensures Search(json, host, range, seed, markers, 0).None? <==> Exhausted(json, host, range, markers)
    ensures var found := Search(json, host, range, seed, markers, 0);
            found.Some? ==> Usable(json, host, found.value, markers) && InRange(range, found.value)
  {
    var k := SearchStops(json, host, range, seed, markers, 0);
    if k == range.size {
      forall vmid: nat | InRange(range, vmid)
        ensures !Usable(json, host, vmid, markers)
      {
        var offset := ProbesCover(range, seed, vmid);
      }
    } else {
      ProbesAreInRange(range, seed, k);
    }
  }

  /**
   * A repeated create finds the identifier it first took, also once a trailer has been added to
   * its description, as long as no identifier probed before it has since become free or ours.
   */
  lemma RepeatedCreateFindsItsVm(json: Json, first: Host, later: Host, range: Range, seed: nat, markers: OwnershipMarkers,
                                 vmid: nat, key: string, value: string)
    requires Faithful(json) && Complete(markers) && range.size > 0
    requires Search(json, first, range, seed, markers, 0) == Some(vmid)
    requires vmid in later.descriptions
             && later.descriptions[vmid] in {OwnershipDescription(json, markers), DescribedWithTrailer(json, markers, key, value)}
    requires forall j: nat, k: nat | j < k < range.size && ProbeAt(range, seed, k) == vmid
               && !Usable(json, first, ProbeAt(range, seed, j), markers) ::
               !Usable(json, later, ProbeAt(range, seed, j), markers)
    ensures Search(json, later, range, seed, markers, 0) == Some(vmid)
  {
    ParseInvertsPrinters(json, markers, key, value);
    assert OwnedBy(json, later, vmid, markers);
    var k := SearchStops(json, first, range, seed, markers, 0);
    var l := SearchStops(json, later, range, seed, markers, 0);
    assert l == k;
  }
}
