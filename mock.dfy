/** The mock runtime's `CurrencyIdConvert`: the three conversions between the
    numeric `CurrencyId`, XCM locations and XCM assets, each a fixed sentinel
    rule in front of a registry lookup. The registry is an explicit argument;
    every conversion is total and only reads it. */
module Mock {
  import opened Wrappers
  import opened Xcm
  import opened Registry

  /** `convert(CurrencyId) -> Option<MultiLocation>`: handle 0 is the parent
      chain's asset; any other handle is the location the registry holds for
      it, and a failed or empty lookup becomes `None`. */
  function ConvertId(reg: AssetRegistry, id: CurrencyId): (r: Option<MultiLocation>)
    ensures id == 0 ==> r == Some(Parent())
    ensures id != 0 ==> forall l :: r == Some(l) <==> RegisteredAt(reg, id, l)
  {
    match id
    case 0 => Some(Parent())
    case _ => UnwrapOrDefault(Multilocation(reg, id))
  }

  /** `convert(MultiLocation) -> Option<CurrencyId>`: the parent location is
      handle 0; any other location is the registry's reverse index entry,
      `None` when there is none. */
  function ConvertLocation(reg: AssetRegistry, l: MultiLocation): (r: Option<CurrencyId>)
    ensures l == Parent() ==> r == Some(0)
    ensures l != Parent() ==> (r.Some? <==> l in reg.locationToAssetId)
    ensures l != Parent() && r.Some? ==> reg.locationToAssetId[l] == r.value
  {
    if l == Parent() then Some(0)
    else if LocationToAssetId(reg, l).Some? then Some(LocationToAssetId(reg, l).value)
    else None
  }

  /** `convert(MultiAsset) -> Option<CurrencyId>`: only a fungible amount of a
      concretely located asset converts, to the handle of its location. */
  function ConvertAsset(reg: AssetRegistry, a: MultiAsset): (r: Option<CurrencyId>)
    ensures a.fun.Fungible? && a.id.Concrete? ==> r == ConvertLocation(reg, a.id.location)
    ensures a.fun.NonFungible? || a.id.Abstract? ==> r == None
  {
    if a.fun.Fungible? && a.id.Concrete? then ConvertLocation(reg, a.id.location)
    else None
  }

  // ---------------------------------------------------------------------------
  // Sentinel rules

  /** Whatever metadata the registry holds for handle 0, with or without a
      location, the forward conversion of 0 is the same: registering 0 is
      never seen by it. */
  lemma SentinelShadowsZeroRegistration(reg: AssetRegistry, m: AssetMetadata)
    ensures ConvertId(AssetRegistry(reg.metadata[0 := m], reg.locationToAssetId), 0) == ConvertId(reg, 0)
    ensures forall l :: m.location == Some(Current(l)) && l != Parent() ==>
              ConvertId(AssetRegistry(reg.metadata[0 := m], reg.locationToAssetId), 0) != Some(l)
  {
  }

  /** A reverse index entry sending the parent location to a handle other than
      0 is unreachable. */
  lemma SentinelShadowsParentEntry(reg: AssetRegistry)
    requires Parent() in reg.locationToAssetId && reg.locationToAssetId[Parent()] != 0
    ensures ConvertLocation(reg, Parent()) == Some(0)
    ensures ConvertLocation(reg, Parent()) != Some(reg.locationToAssetId[Parent()])
  {
  }

  // ---------------------------------------------------------------------------
  // Registry-backed cases

  /** For a handle other than 0 the forward conversion is absent exactly when
      the handle is unknown, registered without a location, or its stored
      location cannot be converted; the lookup's error never surfaces. */
  lemma ForwardAbsence(reg: AssetRegistry, id: CurrencyId)
    requires id != 0
    ensures ConvertId(reg, id) == None <==>
              || id !in reg.metadata
              || reg.metadata[id].location == None
              || reg.metadata[id].location == Some(Unconvertible)
  {
  }

  // ---------------------------------------------------------------------------
  // Assets

  /** Only the fungible, concretely located shape converts, and then to the
      location's handle. */
  lemma AssetConverts(reg: AssetRegistry, a: MultiAsset, id: CurrencyId)
    ensures ConvertAsset(reg, a) == Some(id) <==>
              a.fun.Fungible? && a.id.Concrete? && ConvertLocation(reg, a.id.location) == Some(id)
  {
  }

  /** The amount of a fungible asset does not influence its conversion. */
  lemma AssetAmountIrrelevant(reg: AssetRegistry, l: MultiLocation, x: u128, y: u128)
    ensures ConvertAsset(reg, MultiAsset(Concrete(l), Fungible(x)))
         == ConvertAsset(reg, MultiAsset(Concrete(l), Fungible(y)))
  {
  }

  /** A fungible amount of the parent chain's asset is handle 0. */
  lemma ParentAssetIsZero(reg: AssetRegistry, amount: u128)
    ensures ConvertAsset(reg, MultiAsset(Concrete(Parent()), Fungible(amount))) == Some(0)
  {
  }

  // ---------------------------------------------------------------------------
  // Round trips

  /** Over a consistent registry that keeps the parent location for handle 0,
      every handle with a location converts back to itself. */
  lemma RoundTripId(reg: AssetRegistry, id: CurrencyId)
    requires Consistent(reg) && ParentUnaliased(reg)
    requires ConvertId(reg, id).Some?
    ensures ConvertLocation(reg, ConvertId(reg, id).value) == Some(id)
  {
  }

  /** Over a consistent registry that keeps handle 0 for the parent location,
      the parent location and every indexed location convert back to
      themselves. */
  lemma RoundTripLocation(reg: AssetRegistry, l: MultiLocation)
    requires Consistent(reg) && ZeroUnaliased(reg)
    requires l == Parent() || l in reg.locationToAssetId
    ensures ConvertLocation(reg, l).Some?
    ensures ConvertId(reg, ConvertLocation(reg, l).value) == Some(l)
  {
  }

  /** Distinct handles never convert to one location. */
  lemma ForwardInjective(reg: AssetRegistry, a: CurrencyId, b: CurrencyId)
    requires Consistent(reg) && ParentUnaliased(reg)
    requires ConvertId(reg, a).Some? && ConvertId(reg, a) == ConvertId(reg, b)
    ensures a == b
  {
  }

  /** Distinct locations never convert to one handle. */
  lemma ReverseInjective(reg: AssetRegistry, l1: MultiLocation, l2: MultiLocation)
    requires Consistent(reg) && ZeroUnaliased(reg)
    requires ConvertLocation(reg, l1).Some? && ConvertLocation(reg, l1) == ConvertLocation(reg, l2)
    ensures l1 == l2
  {
  }

  // ---------------------------------------------------------------------------
  // Why the round trips need the sentinel side conditions

  function MetadataAt(l: Option<StoredLocation>): AssetMetadata
  {
    AssetMetadata(12, [], [], 0, l, CustomMetadata(0))
  }

  /** Handle 5 registered at the parent location, consistently indexed. */
  function ParentAliasedRegistry(): AssetRegistry
  {
    AssetRegistry(map[5 := MetadataAt(Some(Current(Parent())))], map[Parent() := 5])
  }

  /** Consistency alone does not give the handle round trip: a handle other
      than 0 registered at the parent location comes back as 0. */
  lemma ParentAliasBreaksRoundTrip()
    ensures Consistent(ParentAliasedRegistry()) && !ParentUnaliased(ParentAliasedRegistry())
    ensures ConvertId(ParentAliasedRegistry(), 5) == Some(Parent())
    ensures ConvertLocation(ParentAliasedRegistry(), Parent()) == Some(0)
  {
    var reg := ParentAliasedRegistry();
    assert RegisteredAt(reg, 5, Parent());
  }

  function SiblingChain(): MultiLocation
  {
    MultiLocation(1, [Parachain(4)])
  }

  /** Handle 0 registered at a sibling chain's location, consistently indexed. */
  function ZeroAliasedRegistry(): AssetRegistry
  {
    AssetRegistry(map[0 := MetadataAt(Some(Current(SiblingChain())))], map[SiblingChain() := 0])
  }

  /** Consistency alone does not give the location round trip: a location
      indexed under handle 0 comes back as the parent location. */
  lemma ZeroAliasBreaksRoundTrip()
    ensures Consistent(ZeroAliasedRegistry()) && !ZeroUnaliased(ZeroAliasedRegistry())
    ensures ConvertLocation(ZeroAliasedRegistry(), SiblingChain()) == Some(0)
    ensures ConvertId(ZeroAliasedRegistry(), 0) == Some(Parent())
  {
  }

  // ---------------------------------------------------------------------------
  // The `ParaG` genesis

  /** `str::as_bytes` for ASCII text: one byte per character, equal to its
      code. (Characters beyond ASCII, which UTF-8 would spread over several
      bytes, do not occur in the genesis data.) */
  function AsciiBytes(s: string): (b: seq<u8>)
    ensures |b| == |s|
    ensures forall i | 0 <= i < |s| && s[i] as int < 0x80 :: b[i] as int == s[i] as int
  {
    seq(|s|, i requires 0 <= i < |s| => (s[i] as int % 0x80) as u8)
  }

  /** The metadata `ParaG`'s genesis gives each of its assets: twelve
      decimals, no existential deposit, no location, and a fee of 10^12 per
      second. */
  function ParaGMetadata(name: string, symbol: string): (m: AssetMetadata)
    ensures m.decimals == 12 && m.existentialDeposit == 0 && m.location == None
    ensures m.name == AsciiBytes(name) && m.symbol == AsciiBytes(symbol)
    ensures m.additional.feePerSecond == 1_000_000_000_000
  {
    AssetMetadata(12, AsciiBytes(name), AsciiBytes(symbol), 0, None, CustomMetadata(1_000_000_000_000))
  }

  /** `ParaG`'s registry after genesis: handle 0 (its native token) and
      handle 1 (a foreign token), neither with a location, and an empty
      reverse index. */
  function ParaGRegistry(): (reg: AssetRegistry)
    ensures reg.metadata.Keys == {0, 1} && reg.locationToAssetId == map[]
    ensures reg.metadata[0] == ParaGMetadata("para G native token", "paraG")
    ensures reg.metadata[1] == ParaGMetadata("para G foreign token", "paraF")
  {
    AssetRegistry(map[0 := ParaGMetadata("para G native token", "paraG"),
                      1 := ParaGMetadata("para G foreign token", "paraF")], map[])
  }

  /** `ParaG`'s genesis registers no location, so it keeps every invariant
      the round trips need. */
  lemma ParaGWellFormed()
    ensures Consistent(ParaGRegistry()) && ParentUnaliased(ParaGRegistry()) && ZeroUnaliased(ParaGRegistry())
  {
  }

  /** On `ParaG` handle 0 still converts to the parent location although the
      chain registers it itself, handle 1 has no location, and only the parent
      location converts back. */
  lemma ParaGConversions()
    ensures 0 in ParaGRegistry().metadata && ConvertId(ParaGRegistry(), 0) == Some(Parent())
    ensures 1 in ParaGRegistry().metadata && ConvertId(ParaGRegistry(), 1) == None
    ensures forall l :: ConvertLocation(ParaGRegistry(), l) == (if l == Parent() then Some(0) else None)
  {
  }

  // ---------------------------------------------------------------------------
  // A registered foreign asset

  /** A location on chain 4: pallet `pallet`, general index 0. */
  function ForeignLocation(pallet: u8): (l: MultiLocation)
    ensures l != Parent()
  {
    MultiLocation(1, [Parachain(4), PalletInstance(pallet), GeneralIndex(0)])
  }

  /** A registry holding only handle 1 at `ForeignLocation(pallet)`. */
  function ForeignRegistry(pallet: u8): AssetRegistry
  {
    AssetRegistry(map[1 := MetadataAt(Some(Current(ForeignLocation(pallet))))],
                  map[ForeignLocation(pallet) := 1])
  }

  /** Handle 1 converts to its location and back, and an unregistered handle
      such as 99 has no location. */
  lemma ForeignAssetConversions(pallet: u8)
    ensures Consistent(ForeignRegistry(pallet))
    ensures ConvertId(ForeignRegistry(pallet), 1) == Some(ForeignLocation(pallet))
    ensures ConvertLocation(ForeignRegistry(pallet), ForeignLocation(pallet)) == Some(1)
    ensures ConvertId(ForeignRegistry(pallet), 99) == None
  {
  }
}
