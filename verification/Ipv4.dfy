/**
 * IPv4 pool allocation: dotted-quad text to numbers and back, and the search for the lowest free
 * host address. Addresses are unsigned 32-bit numbers; the source reads its signed result so.
 */
module Ipv4 {
  import opened Prelude
  import opened Domain

  const ADDRESSES: nat := 0x1_0000_0000

  // ----- Text --------------------------------------------------------------------------------

  /** The text between dots, as `split` gives it: one more part than there are dots. */
  function Split(s: string): (parts: seq<string>)
    ensures |parts| >= 1
  {
    if s == "" then [""]
    else
      var rest := Split(s[1..]);
      if s[0] == '.' then [""] + rest else [[s[0]] + rest[0]] + rest[1..]
  }

  function Join(parts: seq<string>): string
    requires |parts| >= 1
  {
    if |parts| == 1 then parts[0] else parts[0] + "." + Join(parts[1..])
  }

  predicate IsDigit(c: char) {
    '0' <= c <= '9'
  }

  function DigitValue(c: char): nat
    requires IsDigit(c)
  {
    (c - '0') as nat
  }

  function DigitChar(d: nat): char
    requires d < 10
  {
    '0' + d as char
  }

  /** One to three digits, without a leading zero unless the octet is zero. */
  predicate IsOctetText(o: string) {
    && 1 <= |o| <= 3
    && (forall i | 0 <= i < |o| :: IsDigit(o[i]))
    && (o[0] == '0' ==> |o| == 1)
  }

  function OctetValue(o: string): nat
    requires IsOctetText(o)
  {
    if |o| == 1 then DigitValue(o[0])
    else if |o| == 2 then 10 * DigitValue(o[0]) + DigitValue(o[1])
    else 100 * DigitValue(o[0]) + 10 * DigitValue(o[1]) + DigitValue(o[2])
  }

  predicate IsOctet(o: string) {
    IsOctetText(o) && OctetValue(o) <= 255
  }

  /** The number the first parts stand for, most significant first. */
  function Value(parts: seq<string>): nat
    requires forall i | 0 <= i < |parts| :: IsOctet(parts[i])
  {
    if parts == [] then 0
    else
      assert IsOctet(parts[|parts| - 1]);
      Value(parts[..|parts| - 1]) * 256 + OctetValue(parts[|parts| - 1])
  }

  /** Exactly four dotted decimal octets, or nothing. */
  function Parse(s: string): Option<nat> {
    var parts := Split(s);
    if |parts| == 4 && forall i | 0 <= i < |parts| :: IsOctet(parts[i]) then Some(Value(parts)) else None
  }

  function PrintOctet(d: nat): string
    requires d < 256
  {
    if d < 10 then [DigitChar(d)]
    else if d < 100 then [DigitChar(d / 10), DigitChar(d % 10)]
    else [DigitChar(d / 100), DigitChar(d / 10 % 10), DigitChar(d % 10)]
  }

  function Octets(n: nat): seq<nat>
    requires n < ADDRESSES
  {
    [n / 0x100_0000, n / 0x1_0000 % 256, n / 0x100 % 256, n % 256]
  }

  function Print(n: nat): string
    requires n < ADDRESSES
  {
    var o := Octets(n);
    Join([PrintOctet(o[0]), PrintOctet(o[1]), PrintOctet(o[2]), PrintOctet(o[3])])
  }

  // ----- Parse and print are inverse ---------------------------------------------------------

  predicate Dotless(s: string) {
    forall i | 0 <= i < |s| :: s[i] != '.'
  }

  lemma {:induction false} SplitDotless(s: string)
    requires Dotless(s)
    ensures Split(s) == [s]
  {
    if s != "" {
      SplitDotless(s[1..]);
      assert [s[0]] + s[1..] == s;
    }
  }

  lemma {:induction false} SplitOnce(head: string, tail: string)
    requires Dotless(head)
    ensures Split(head + "." + tail) == [head] + Split(tail)
  {
    var s := head + "." + tail;
    if head == "" {
      assert s[1..] == tail;
    } else {
      SplitOnce(head[1..], tail);
      assert s[1..] == head[1..] + "." + tail;
      assert [s[0]] + head[1..] == head;
    }
  }

  lemma {:induction false} SplitJoin(parts: seq<string>)
    requires |parts| >= 1 && forall i | 0 <= i < |parts| :: Dotless(parts[i])
    ensures Split(Join(parts)) == parts
  {
    if |parts| == 1 {
      SplitDotless(parts[0]);
    } else {
      SplitJoin(parts[1..]);
      SplitOnce(parts[0], Join(parts[1..]));
    }
  }

  lemma {:induction false} JoinSplit(s: string)
    ensures Join(Split(s)) == s
  {
    if s != "" {
      JoinSplit(s[1..]);
      var rest := Split(s[1..]);
      if s[0] == '.' {
        assert Split(s)[1..] == rest;
        assert "" + "." + s[1..] == s;
      } else {
        var parts := Split(s);
        assert parts[1..] == rest[1..];
        if |rest| == 1 {
          assert [s[0]] + rest[0] == s;
        } else {
          assert Join(parts) == [s[0]] + (rest[0] + "." + Join(rest[1..]));
          assert [s[0]] + s[1..] == s;
        }
      }
    }
  }

  lemma OctetRoundTrip(d: nat)
    requires d < 256
    ensures IsOctet(PrintOctet(d)) && OctetValue(PrintOctet(d)) == d && Dotless(PrintOctet(d))
  {
    if 100 <= d {
      assert d == 100 * (d / 100) + 10 * (d / 10 % 10) + d % 10;
    }
  }

  lemma OctetTextIsCanonical(o: string)
    requires IsOctet(o)
    ensures PrintOctet(OctetValue(o)) == o
  {
    var d := OctetValue(o);
    if |o| == 1 {
      assert d < 10;
    } else if |o| == 2 {
      assert 10 <= d < 100 && d / 10 == DigitValue(o[0]) && d % 10 == DigitValue(o[1]);
    } else {
      assert 100 <= d;
      assert d / 100 == DigitValue(o[0]);
      assert d / 10 == 10 * DigitValue(o[0]) + DigitValue(o[1]);
      assert d / 10 % 10 == DigitValue(o[1]) && d % 10 == DigitValue(o[2]);
    }
  }

  lemma ValueOfFour(parts: seq<string>)
    requires |parts| == 4 && forall i | 0 <= i < 4 :: IsOctet(parts[i])
    ensures Value(parts) == ((OctetValue(parts[0]) * 256 + OctetValue(parts[1])) * 256 + OctetValue(parts[2])) * 256
                            + OctetValue(parts[3])
    ensures Value(parts) < ADDRESSES
  {
    var three := parts[..3];
    var two := three[..2];
    var one := two[..1];
    assert one[..0] == [];
    assert Value(one) == OctetValue(parts[0]);
    assert Value(two) == Value(one) * 256 + OctetValue(parts[1]);
    assert Value(three) == Value(two) * 256 + OctetValue(parts[2]);
  }

  lemma OctetsOf(a: nat, b: nat, c: nat, d: nat)
    requires a < 256 && b < 256 && c < 256 && d < 256
    ensures var n := ((a * 256 + b) * 256 + c) * 256 + d; n < ADDRESSES && Octets(n) == [a, b, c, d]
  {
    var n := ((a * 256 + b) * 256 + c) * 256 + d;
    assert n / 0x100 == (a * 256 + b) * 256 + c;
    assert n / 0x1_0000 == a * 256 + b;
  }

  lemma OctetsCompose(n: nat)
    requires n < ADDRESSES
    ensures var o := Octets(n);
            o[0] < 256 && ((o[0] * 256 + o[1]) * 256 + o[2]) * 256 + o[3] == n
  {
    assert n / 0x1_0000 == n / 0x100 / 256;
    assert n / 0x100_0000 == n / 0x1_0000 / 256;
  }

  /** Every address is the parse of its own print. */
  lemma ParsePrint(n: nat)
    requires n < ADDRESSES
    ensures Parse(Print(n)) == Some(n)
  {
    var o := Octets(n);
    OctetsCompose(n);
    var parts := [PrintOctet(o[0]), PrintOctet(o[1]), PrintOctet(o[2]), PrintOctet(o[3])];
    forall i | 0 <= i < 4
      ensures IsOctet(parts[i]) && Dotless(parts[i]) && OctetValue(parts[i]) == o[i]
    {
      OctetRoundTrip(o[i]);
    }
    SplitJoin(parts);
    ValueOfFour(parts);
  }

  /** A text that parses is the print of its address: each address has exactly one spelling. */
  lemma PrintParse(s: string)
    requires Parse(s).Some?
    ensures Parse(s).value < ADDRESSES && Print(Parse(s).value) == s
  {
    var parts := Split(s);
    ValueOfFour(parts);
    OctetsOf(OctetValue(parts[0]), OctetValue(parts[1]), OctetValue(parts[2]), OctetValue(parts[3]));
    forall i | 0 <= i < 4
      ensures PrintOctet(OctetValue(parts[i])) == parts[i]
    {
      OctetTextIsCanonical(parts[i]);
    }
    assert parts == [parts[0], parts[1], parts[2], parts[3]];
    JoinSplit(s);
  }

  // ----- Allocation --------------------------------------------------------------------------

  /** A pool; `prefix` is the integer its prefix text reads as, if it reads as one. */
  datatype Pool = Pool(networkText: string, prefix: Option<int>, gateway: string, exclusions: seq<string>)

  function PowerOf2(n: nat): nat {
    if n == 0 then 1 else 2 * PowerOf2(n - 1)
  }

  function HostCount(prefix: int): nat
    requires 1 <= prefix <= 30
  {
    PowerOf2((32 - prefix) as nat)
  }

  /** A block of addresses: the network address, the hosts after it, and broadcast at the end. */
  datatype Block = Block(network: nat, size: nat)

  predicate InSpace(block: Block) {
    4 <= block.size && block.network + block.size <= ADDRESSES
  }

  /** The block a pool describes, if the pool is well formed: a network address, a real gateway. */
  function BlockOf(pool: Pool): Option<Block> {
    if pool.networkText == "" || pool.prefix.None? || pool.prefix.value < 1 || pool.prefix.value > 30 then None
    else if Parse(pool.networkText).None? || Parse(pool.gateway).None? then None
    else
      var size := HostCount(pool.prefix.value);
      if size == 0 || Parse(pool.networkText).value % size != 0 then None
      else Some(Block(Parse(pool.networkText).value, size))
  }

  lemma {:induction false} PowersArePositive(n: nat)
    ensures 0 < PowerOf2(n)
  {
    if n > 0 {
      PowersArePositive(n - 1);
    }
  }

  lemma {:induction false} PowersSplit(m: nat, n: nat)
    ensures PowerOf2(m + n) == PowerOf2(m) * PowerOf2(n)
  {
    if m > 0 {
      PowersSplit(m - 1, n);
      assert PowerOf2(m + n) == 2 * (PowerOf2(m - 1) * PowerOf2(n));
    }
  }

  lemma KnownPowers()
    ensures PowerOf2(2) == 4 && PowerOf2(32) == ADDRESSES
  {
    PowersSplit(16, 16);
    PowersSplit(8, 8);
    PowersSplit(4, 4);
    PowersSplit(2, 2);
    assert PowerOf2(2) == 4;
  }

  /** A multiple of `size` below `size * count` leaves room for one more block. */
  lemma MultiplesBelow(n: nat, size: nat, count: nat)
    requires 0 < size && n % size == 0 && n < size * count
    ensures n + size <= size * count
  {
    var q := n / size;
    assert n == size * q;
    Scaled(size, count, q);
    Scaled(size, q + 1, count);
  }

  lemma Scaled(a: nat, b: nat, c: nat)
    ensures b <= c ==> a * b <= a * c
  {
    if b <= c {
      assert a * c == a * b + a * (c - b);
    }
  }

  lemma HostCounts(prefix: int)
    requires 1 <= prefix <= 30
    ensures 4 <= HostCount(prefix)
    ensures HostCount(prefix) * PowerOf2(prefix) == ADDRESSES
  {
    var k := (32 - prefix) as nat;
    KnownPowers();
    PowersSplit(k, prefix);
    PowersSplit(2, k - 2);
    PowersArePositive(k - 2);
  }

  /** The whole block lies in the address space, so candidates never wrap. */
  lemma BlocksFit(pool: Pool)
    requires BlockOf(pool).Some?
    ensures InSpace(BlockOf(pool).value)
  {
    PrintParse(pool.networkText);
    HostCounts(pool.prefix.value);
    MultiplesBelow(Parse(pool.networkText).value, HostCount(pool.prefix.value), PowerOf2(pool.prefix.value));
  }

  predicate Taken(pool: Pool, leased: set<string>, candidate: string) {
    candidate in pool.exclusions || candidate == pool.gateway || candidate in leased
  }

  /** Whether the candidate at an offset into the block may not be handed out. */
  function TakenAt(pool: Pool, leased: set<string>, network: nat): nat -> bool {
    (offset: nat) => network + offset >= ADDRESSES || Taken(pool, leased, Print(network + offset))
  }

  /** The first offset from `offset` on, and below `end`, that is not taken; else `end`. */
  function FirstFree(taken: nat -> bool, offset: nat, end: nat): (k: nat)
    requires offset <= end
    ensures offset <= k <= end
    ensures k < end ==> !taken(k)
    ensures forall j: nat | offset <= j < k :: taken(j)
    decreases end - offset
  {
    if offset == end || !taken(offset) then offset else FirstFree(taken, offset + 1, end)
  }

  function AllocateIn(block: Block, pool: Pool, leased: set<string>): Result<string, DomainError>
    requires InSpace(block)
  {
    var k := FirstFree(TakenAt(pool, leased, block.network), 1, block.size - 1);
    if k == block.size - 1 then Err(QuotaExceeded) else Ok(Print(block.network + k))
  }

  function Allocate(pool: Pool, leased: set<string>): Result<string, DomainError> {
    var block := BlockOf(pool);
    if block.None? then Err(ValidationFailed)
    else
      BlocksFit(pool);
      AllocateIn(block.value, pool, leased)
  }

  /** The octets read so far, as the source accumulates them. */
  method StrictIpv4(value: string) returns (result: Option<nat>)
    ensures result == Parse(value)
  {
    var octets := Split(value);
    if |octets| != 4 {
      return None;
    }
    var sum := 0;
    for i := 0 to |octets|
      invariant forall j | 0 <= j < i :: IsOctet(octets[j])
      invariant sum == Value(octets[..i])
    {
      if !IsOctetText(octets[i]) || OctetValue(octets[i]) > 255 {
        return None;
      }
      assert octets[..i + 1][..i] == octets[..i];
      sum := sum * 256 + OctetValue(octets[i]);
    }
    assert octets[..4] == octets;
    return Some(sum);
  }

  /** Reads and checks the pool: the source's guards, in its order. */
  method ReadPool(pool: Pool) returns (block: Option<Block>)
    ensures block == BlockOf(pool)
  {
    if pool.networkText == "" || pool.prefix.None? || pool.prefix.value < 1 || pool.prefix.value > 30 {
      return None;
    }
    var network := StrictIpv4(pool.networkText);
    var gateway := StrictIpv4(pool.gateway);
    if network.None? || gateway.None? {
      return None;
    }
    var hostCount := HostCount(pool.prefix.value);
    if hostCount == 0 || network.value % hostCount != 0 {
      return None;
    }
    return Some(Block(network.value, hostCount));
  }

  /** Walks the pool upwards and stops at the first address that may be handed out. */
  method AllocateIpv4(pool: Pool, leased: set<string>) returns (result: Result<string, DomainError>)
    ensures result == Allocate(pool, leased)
  {
    var read := ReadPool(pool);
    if read.None? {
      return Err(ValidationFailed);
    }
    BlocksFit(pool);
    result := WalkBlock(read.value, pool, leased);
  }

  method WalkBlock(block: Block, pool: Pool, leased: set<string>) returns (result: Result<string, DomainError>)
    requires InSpace(block)
    ensures result == AllocateIn(block, pool, leased)
  {
    var offset := 1;
    ghost var taken := TakenAt(pool, leased, block.network);
    while offset < block.size - 1
      invariant 1 <= offset <= block.size - 1
      invariant FirstFree(taken, 1, block.size - 1) == FirstFree(taken, offset, block.size - 1)
    {
      var candidate := Print(block.network + offset);
      TakenIsTested(block, pool, leased, offset);
      if candidate !in pool.exclusions && candidate != pool.gateway && candidate !in leased {
        return Ok(candidate);
      }
      offset := offset + 1;
    }
    return Err(QuotaExceeded);
  }

  /** The test the walk makes at an offset, and what its outcome means for the search. */
  lemma TakenIsTested(block: Block, pool: Pool, leased: set<string>, offset: nat)
    requires InSpace(block) && offset < block.size - 1
    ensures var taken := TakenAt(pool, leased, block.network);
            && (taken(offset) <==> Taken(pool, leased, Print(block.network + offset)))
            && FirstFree(taken, offset, block.size - 1)
               == if taken(offset) then FirstFree(taken, offset + 1, block.size - 1) else offset
  {
  }

  // ----- What an allocation means, in numbers ------------------------------------------------

  /** A host address of the block that no rule and no lease keeps back. */
  ghost predicate Free(block: Block, pool: Pool, leased: set<string>, address: nat) {
    && block.network < address < block.network + block.size - 1
    && Parse(pool.gateway) != Some(address)
    && (forall text | text in pool.exclusions :: Parse(text) != Some(address))
    && (forall text | text in leased :: Parse(text) != Some(address))
  }

  /** Comparing spellings is comparing addresses. */
  lemma FreeIsNotTaken(block: Block, pool: Pool, leased: set<string>, address: nat)
    requires InSpace(block) && block.network < address < block.network + block.size - 1
    ensures Free(block, pool, leased, address) <==> !Taken(pool, leased, Print(address))
  {
    ParsePrint(address);
    forall text | Parse(text) == Some(address)
      ensures text == Print(address)
    {
      PrintParse(text);
    }
  }

  /** The address an allocation hands out, as a number. */
  ghost predicate IsLowestFree(block: Block, pool: Pool, leased: set<string>, address: nat) {
    && Free(block, pool, leased, address)
    && (forall other: nat | other < address :: !Free(block, pool, leased, other))
  }

  /**
   * An allocation is the numerically lowest address strictly between network and broadcast that is
   * neither the gateway nor excluded nor leased, spelled out; it fails for want of an address
   * exactly when there is none, and for a malformed pool exactly when the pool is malformed.
   */
  lemma AllocationIsLowestFree(pool: Pool, leased: set<string>) returns (address: nat)
    ensures var block := BlockOf(pool);
            match Allocate(pool, leased)
            case Ok(text) =>
              block.Some? && address < ADDRESSES && text == Print(address) && IsLowestFree(block.value, pool, leased, address)
            case Err(QuotaExceeded) => block.Some? && forall other: nat :: !Free(block.value, pool, leased, other)
            case Err(ValidationFailed) => block.None?
            case Err(_) => false
  {
    address := 0;
    var block := BlockOf(pool);
    if block.Some? {
      BlocksFit(pool);
      address := LowestFree(block.value, pool, leased);
    }
  }

  lemma LowestFree(block: Block, pool: Pool, leased: set<string>) returns (address: nat)
    requires InSpace(block)
    ensures match AllocateIn(block, pool, leased)
            case Ok(text) => address < ADDRESSES && text == Print(address) && IsLowestFree(block, pool, leased, address)
            case Err(error) => error == QuotaExceeded && forall other: nat :: !Free(block, pool, leased, other)
  {
    var k := StopsAt(block, pool, leased);
    address := block.network + k;
    NothingFreeBelow(block, pool, leased, k);
    if k < block.size - 1 {
      FreeIsNotTaken(block, pool, leased, address);
    } else {
      assert forall other: nat | address <= other :: !Free(block, pool, leased, other);
    }
  }

  lemma StopsAt(block: Block, pool: Pool, leased: set<string>) returns (k: nat)
    requires InSpace(block)
    ensures 1 <= k <= block.size - 1
    ensures forall j: nat | 1 <= j < k :: TakenAt(pool, leased, block.network)(j)
    ensures k < block.size - 1 ==> !Taken(pool, leased, Print(block.network + k))
    ensures AllocateIn(block, pool, leased)
            == if k == block.size - 1 then Err(QuotaExceeded) else Ok(Print(block.network + k))
  {
    k := FirstFree(TakenAt(pool, leased, block.network), 1, block.size - 1);
  }

  lemma NothingFreeBelow(block: Block, pool: Pool, leased: set<string>, k: nat)
    requires InSpace(block) && k <= block.size - 1
    requires forall j: nat | 1 <= j < k :: TakenAt(pool, leased, block.network)(j)
    ensures forall other: nat | other < block.network + k :: !Free(block, pool, leased, other)
  {
    forall other: nat | other < block.network + k
      ensures !Free(block, pool, leased, other)
    {
      TakenIsNotFree(block, pool, leased, other, k);
    }
  }

  /** Nothing below the offset at which the search stopped is free. */
  lemma TakenIsNotFree(block: Block, pool: Pool, leased: set<string>, address: nat, k: nat)
    requires InSpace(block) && k <= block.size - 1 && address < block.network + k
    requires forall j: nat | 1 <= j < k :: TakenAt(pool, leased, block.network)(j)
    ensures !Free(block, pool, leased, address)
  {
    if block.network < address {
      assert TakenAt(pool, leased, block.network)(address - block.network);
      FreeIsNotTaken(block, pool, leased, address);
    }
  }
}
