/** The XCM value types the conversions read: locations and assets. Equality
    on every one of them is structural, as the derived `PartialEq` in Rust is. */
module Xcm {

  newtype u8 = x: int | 0 <= x < 0x100
  newtype u32 = x: int | 0 <= x < 0x1_0000_0000
  newtype u128 = x: int | 0 <= x < 0x1_0000_0000_0000_0000_0000_0000_0000_0000

  /** One step of a location's interior path. */
  datatype Junction =
    | Parachain(paraId: u32)
    | AccountId32(id: seq<u8>)
    | AccountKey20(key: seq<u8>)
    | PalletInstance(index: u8)
    | GeneralIndex(generalIndex: u128)
    | GeneralKey(generalKey: seq<u8>)
    | OnlyChild

  /** `Junctions` is `Here` or `X1` .. `X8`: at most eight steps. */
  type Junctions = s: seq<Junction> | |s| <= 8

  /** A location relative to the current chain: go up `parents` levels, then
      down along `interior`. */
  datatype MultiLocation = MultiLocation(parents: u8, interior: Junctions)

  /** `MultiLocation::parent()`, also what `Parent.into()` produces: one level
      up, nothing below. */
  function Parent(): (l: MultiLocation)
    ensures l.parents == 1 && l.interior == []
  {
    MultiLocation(1, [])
  }

  /** The instance of a non-fungible asset. */
  datatype AssetInstance = Undefined | Index(index: u128) | Blob(bytes: seq<u8>)

  /** Whether the asset is an amount of something or one identified item. */
  datatype Fungibility = Fungible(amount: u128) | NonFungible(instance: AssetInstance)

  /** How the asset is named: by where it lives, or by an opaque byte string. */
  datatype AssetId = Concrete(location: MultiLocation) | Abstract(name: seq<u8>)

  datatype MultiAsset = MultiAsset(id: AssetId, fun: Fungibility)
}
