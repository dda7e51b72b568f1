/** The two lookups of the asset-registry pallet that the currency conversion
    calls, over the registry's storage taken as a plain value. How entries get
    into storage is not part of this model; what the conversions need from the
    storage is stated as predicates below. */
module Registry {
  import opened Wrappers
  import opened Xcm

  /** The mock runtime's asset handle. */
  type CurrencyId = u32

  /** The mock runtime's chain-specific metadata payload. */
  datatype CustomMetadata = CustomMetadata(feePerSecond: u128)

  /** A location as the registry stores it: either convertible to the current
      `MultiLocation`, or in a form that cannot be converted (the registry then
      reports a version error). */
  datatype StoredLocation = Current(location: MultiLocation) | Unconvertible

  datatype AssetMetadata = AssetMetadata(
    decimals: u32,
    name: seq<u8>,
    symbol: seq<u8>,
    existentialDeposit: u128,
    location: Option<StoredLocation>,
    additional: CustomMetadata)

  datatype RegistryError = BadVersion

  /** The registry's storage: metadata per handle, and the reverse index from
      location to handle. */
  datatype AssetRegistry = AssetRegistry(
    metadata: map<CurrencyId, AssetMetadata>,
    locationToAssetId: map<MultiLocation, CurrencyId>)

  /** `AssetRegistry::multilocation`: `Ok(None)` for an unknown handle or one
      registered without a location, `Ok(Some(l))` for a handle registered at
      `l`, `Err(BadVersion)` when the stored location cannot be converted. */
  function Multilocation(reg: AssetRegistry, id: CurrencyId): (r: Result<Option<MultiLocation>, RegistryError>)
    ensures r == Ok(None) <==> id !in reg.metadata || reg.metadata[id].location == None
    ensures r.Ok? && r.value.Some? ==> RegisteredAt(reg, id, r.value.value)
    ensures r.Err? <==> id in reg.metadata && reg.metadata[id].location == Some(Unconvertible)
  {
    if id !in reg.metadata then Ok(None)
    else match reg.metadata[id].location
      case None => Ok(None)
      case Some(Current(l)) => Ok(Some(l))
      case Some(Unconvertible) => Err(BadVersion)
  }

  /** `AssetRegistry::location_to_asset_id`: the reverse index, `None` when the
      location is not in it. */
  function LocationToAssetId(reg: AssetRegistry, l: MultiLocation): (r: Option<CurrencyId>)
    ensures r.Some? <==> l in reg.locationToAssetId
    ensures r.Some? ==> reg.locationToAssetId[l] == r.value
  {
    if l in reg.locationToAssetId then Some(reg.locationToAssetId[l]) else None
  }

  /** The handle `id` is registered at location `l`. */
  ghost predicate RegisteredAt(reg: AssetRegistry, id: CurrencyId, l: MultiLocation)
  {
    id in reg.metadata && reg.metadata[id].location == Some(Current(l))
  }

  /** The two storage maps are mutually inverse: every handle registered at a
      location is the reverse index's entry for that location, and every entry
      of the reverse index names a handle registered at that location. At most
      one handle therefore sits at any location. */
  ghost predicate Consistent(reg: AssetRegistry)
  {
    && (forall id | id in reg.metadata && reg.metadata[id].location.Some? && reg.metadata[id].location.value.Current? ::
          var l := reg.metadata[id].location.value.location;
          l in reg.locationToAssetId && reg.locationToAssetId[l] == id)
    && (forall l | l in reg.locationToAssetId ::
          RegisteredAt(reg, reg.locationToAssetId[l], l))
  }

  /** No handle other than 0 is registered at the parent location, which the
      conversion reserves for handle 0. */
  ghost predicate ParentUnaliased(reg: AssetRegistry)
  {
    forall id | id in reg.metadata && id != 0 :: reg.metadata[id].location != Some(Current(Parent()))
  }

  /** Handle 0, which the conversion reserves for the parent location, is not
      registered at any other location. */
  ghost predicate ZeroUnaliased(reg: AssetRegistry)
  {
    0 in reg.metadata ==>
      forall l :: reg.metadata[0].location == Some(Current(l)) ==> l == Parent()
  }

  /** In a consistent registry no two handles are registered at one location. */
  lemma RegisteredAtUnique(reg: AssetRegistry, a: CurrencyId, b: CurrencyId, l: MultiLocation)
    requires Consistent(reg)
    requires RegisteredAt(reg, a, l) && RegisteredAt(reg, b, l)
    ensures a == b
  {
  }
}
