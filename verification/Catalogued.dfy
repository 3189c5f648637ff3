/**
 * What a create is accepted for: exactly the catalog entries that are on offer, within every quota
 * and with an address left; and so every create command ever published is for such entries.
 */
module Catalogued {
  import opened Prelude
  import opened SagaEngine
  import opened WorkflowTables
  import opened Domain
  import opened ControlTables
  import opened Platform
  import opened Conservation
  import Ipv4

  predicate Enabled(catalog: Catalog, projectId: nat) {
    projectId in catalog.projects && catalog.projects[projectId]
  }

  /** The entries exist and are enabled, and the project has a quota. */
  predicate Available(catalog: Catalog, projectId: nat, imageId: nat, flavorId: nat, networkId: nat) {
    && imageId in catalog.images && catalog.images[imageId].enabled
    && flavorId in catalog.flavors && catalog.flavors[flavorId].enabled
    && networkId in catalog.networks && catalog.networks[networkId].enabled
    && projectId in catalog.quotas
  }

  /** The image's provider profile is active and serves the network. */
  predicate Served(catalog: Catalog, imageId: nat, networkId: nat) {
    imageId in catalog.images && catalog.images[imageId].profileActive && catalog.images[imageId].networkId == networkId
  }

  predicate Offered(catalog: Catalog, projectId: nat, imageId: nat, flavorId: nat, networkId: nat) {
    Enabled(catalog, projectId) && Available(catalog, projectId, imageId, flavorId, networkId)
    && Served(catalog, imageId, networkId)
  }

  /** Every limit of the project still holds with one more machine and one more address. */
  ghost predicate Affordable(c: Control, catalog: Catalog, projectId: nat, flavorId: nat, networkId: nat)
    requires projectId in catalog.quotas && flavorId in catalog.flavors
  {
    && CreateFits(c, catalog.quotas[projectId], projectId, catalog.flavors[flavorId].sizing)
    && |HeldOn(c.leases, networkId)| < catalog.quotas[projectId].addresses
  }

  predicate WellFormed(pool: Ipv4.Pool) {
    Ipv4.BlockOf(pool).Some?
  }

  ghost predicate AddressLeft(c: Control, pool: Ipv4.Pool, networkId: nat)
    requires WellFormed(pool)
  {
    exists address: nat :: Ipv4.Free(Ipv4.BlockOf(pool).value, pool, HeldAddresses(c.leases, networkId), address)
  }

  lemma ReservationIsExact(c: Control, quota: Quota, network: Network, networkId: nat)
    ensures var reserved := ReserveAddress(c, quota, network, networkId);
            var full := |HeldOn(c.leases, networkId)| >= quota.addresses;
            && (reserved.Ok? <==> !full && WellFormed(network.pool) && AddressLeft(c, network.pool, networkId))
            && (reserved == Err(ValidationFailed) <==> !full && !WellFormed(network.pool))
            && (reserved == Err(QuotaExceeded) <==> full || (WellFormed(network.pool) && !AddressLeft(c, network.pool, networkId)))
  {
    var address := Ipv4.AllocationIsLowestFree(network.pool, HeldAddresses(c.leases, networkId));
  }

  /**
   * A create under a key not used before is accepted if and only if its entries are on offer, every
   * quota has room for it and its network has an address left; and every other create is refused
   * with the error of its reason.
   */
  lemma CreateIsAcceptedExactly(c: Control, catalog: Catalog, caller: Caller, wish: Wish, ids: Minted, now: Time)
    requires wish.CreateWish? && ScopeOf(caller, wish) !in c.records
    ensures var p, network := caller.projectId, wish.networkId;
            var outcome := Accept(c, catalog, caller, wish, ids, now);
            var available := Available(catalog, p, wish.imageId, wish.flavorId, network);
            var offered := Offered(catalog, p, wish.imageId, wish.flavorId, network);
            && (outcome.Ok? <==>
                  offered && Affordable(c, catalog, p, wish.flavorId, network)
                  && WellFormed(catalog.networks[network].pool) && AddressLeft(c, catalog.networks[network].pool, network))
            && (outcome == Err(ProjectNotFound) <==> p !in catalog.projects)
            && (outcome == Err(ProjectAccessDenied) <==> p in catalog.projects && !Enabled(catalog, p))
            && (outcome == Err(ProfileDisabled) <==>
                  Enabled(catalog, p) && available && !catalog.images[wish.imageId].profileActive)
            && (outcome == Err(QuotaExceeded) <==>
                  offered && (!Affordable(c, catalog, p, wish.flavorId, network)
                              || (WellFormed(catalog.networks[network].pool)
                                  && !AddressLeft(c, catalog.networks[network].pool, network))))
            && (outcome == Err(ValidationFailed) <==>
                  Enabled(catalog, p)
                  && (!available
                      || (catalog.images[wish.imageId].profileActive && !Served(catalog, wish.imageId, network))
                      || (offered && Affordable(c, catalog, p, wish.flavorId, network)
                          && !WellFormed(catalog.networks[network].pool))))
  {
    if Offered(catalog, caller.projectId, wish.imageId, wish.flavorId, wish.networkId) {
      ReservationIsExact(c, catalog.quotas[caller.projectId], catalog.networks[wish.networkId], wish.networkId);
    }
  }

  // ----- Every create ever published ---------------------------------------------------------

  /** The address is one the pool may hand out. */
  ghost predicate FromPool(pool: Ipv4.Pool, text: string) {
    WellFormed(pool)
    && exists address: nat :: address < Ipv4.ADDRESSES && text == Ipv4.Print(address)
                              && Ipv4.Free(Ipv4.BlockOf(pool).value, pool, {}, address)
  }

  /** The create asked for these entries, and its instance holds an address of their network. */
  ghost predicate SoldAs(c: Control, catalog: Catalog, command: Command, imageId: nat, flavorId: nat, networkId: nat) {
    && Offered(catalog, command.projectId, imageId, flavorId, networkId)
    && command.data == CreateData(catalog.flavors[flavorId].sizing)
    && command.instanceId in c.leases && c.leases[command.instanceId].networkId == networkId
    && FromPool(catalog.networks[networkId].pool, c.leases[command.instanceId].address)
  }

  ghost predicate Sold(c: Control, catalog: Catalog, command: Command) {
    command.data.CreateData? ==> exists imageId, flavorId, networkId :: SoldAs(c, catalog, command, imageId, flavorId, networkId)
  }

  ghost predicate AllSold(c: Control, catalog: Catalog) {
    forall k | 0 <= k < |c.outbox| :: Sold(c, catalog, c.outbox[k])
  }

  lemma SoldStays(c: Control, d: Control, catalog: Catalog, command: Command)
    requires Sold(c, catalog, command) && LeasesForward(c, d)
    ensures Sold(d, catalog, command)
  {
    if command.data.CreateData? {
      var imageId, flavorId, networkId :| SoldAs(c, catalog, command, imageId, flavorId, networkId);
      assert SoldAs(d, catalog, command, imageId, flavorId, networkId);
    }
  }

  lemma AllocationIsFromPool(pool: Ipv4.Pool, leased: set<string>)
    requires Ipv4.Allocate(pool, leased).Ok?
    ensures FromPool(pool, Ipv4.Allocate(pool, leased).value)
  {
    var address := Ipv4.AllocationIsLowestFree(pool, leased);
    assert Ipv4.Free(Ipv4.BlockOf(pool).value, pool, {}, address);
  }

  lemma CreateIsSold(c: Control, d: Control, catalog: Catalog, caller: Caller, wish: Wish, ids: Minted, now: Time)
    requires Accepts(c, d, catalog, caller, wish, ids, now) && wish.CreateWish?
    ensures Sold(d, catalog, CommandFor(PlanOf(c, catalog, caller, wish, ids, now).value, ids))
  {
    AllocationIsFromPool(catalog.networks[wish.networkId].pool, HeldAddresses(c.leases, wish.networkId));
    assert SoldAs(d, catalog, CommandFor(PlanOf(c, catalog, caller, wish, ids, now).value, ids),
                  wish.imageId, wish.flavorId, wish.networkId);
  }

  /** Only creates are published as creates. */
  lemma OtherPlansAreNoCreates(c: Control, catalog: Catalog, caller: Caller, wish: Wish, ids: Minted, now: Time)
    requires !wish.CreateWish? && PlanOf(c, catalog, caller, wish, ids, now).Ok?
    ensures !PlanOf(c, catalog, caller, wish, ids, now).value.data.CreateData?
  {
  }

  lemma MoveKeepsSold(c: Control, d: Control, catalog: Catalog, move: Move)
    requires Moves(c, d, catalog, move) && LeasesForward(c, d) && AllSold(c, catalog)
    ensures AllSold(d, catalog)
  {
    forall k | 0 <= k < |d.outbox|
      ensures Sold(d, catalog, d.outbox[k])
    {
      if k < |c.outbox| {
        assert d.outbox[k] == c.outbox[k];
        SoldStays(c, d, catalog, c.outbox[k]);
      } else if move.wish.CreateWish? {
        CreateIsSold(c, d, catalog, move.caller, move.wish, move.ids, move.now);
      } else {
        OtherPlansAreNoCreates(c, catalog, move.caller, move.wish, move.ids, move.now);
      }
    }
  }

  /**
   * Every create command ever published was for an enabled project with a quota, and for an enabled
   * image, flavor and network that share an active provider profile; it asks for the flavor's sizing,
   * and its instance holds an address that the network's pool may hand out.
   */
  lemma {:induction false} CreatesAreCatalogued(start: Time, catalog: Catalog, inputs: seq<PlatformInput>)
    ensures AllSold(PlatformRun(start, catalog, inputs).control, catalog)
  {
    if inputs != [] {
      var before := inputs[..|inputs| - 1];
      CreatesAreCatalogued(start, catalog, before);
      RunsAreLinked(start, catalog, before);
      RunsAreKept(start, catalog, before);
      var s := PlatformRun(start, catalog, before);
      var move := StepMoves(s, catalog, inputs[|inputs| - 1]);
      MoveKeepsAll(s.control, PlatformStep(s, catalog, inputs[|inputs| - 1]).control, catalog, move);
      MoveKeepsSold(s.control, PlatformStep(s, catalog, inputs[|inputs| - 1]).control, catalog, move);
    }
  }
}
