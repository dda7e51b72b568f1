# CurrencyIdConvert: sentinel-plus-registry asset conversion

This project models the currency conversion adapter of the asset-registry
crate's mock runtime. The adapter translates between a chain-local numeric
`CurrencyId` (a `u32`) and XCM's structured `MultiLocation`, and from an XCM
`MultiAsset` to a `CurrencyId`. Each of its three conversions puts a fixed
sentinel rule in front of a registry lookup. Handle `0` and the parent
location `{parents: 1, interior: Here}` always correspond. Every other value
goes to the asset registry.

Files:

- `wrappers.dfy` (`Wrappers`): `Option`, `Result`, and
  `Result<Option<T>, E>::unwrap_or_default`.
- `xcm.dfy` (`Xcm`): the XCM value types the conversions read. These are
  `MultiLocation` (parents plus at most eight junctions), `Junction`,
  `MultiAsset`, `AssetId` (`Concrete` or `Abstract`) and `Fungibility`.
  Integer widths are explicit newtypes.
- `registry.dfy` (`Registry`): the registry's storage as a value. It holds a
  metadata map from handle to `AssetMetadata` (which includes an optional
  stored location) and a reverse index from location to handle. The module
  gives the two lookups the adapter calls. It also states the invariants the
  round trips need:
  - `Consistent`: the two maps are mutually inverse.
  - `ParentUnaliased`: no handle other than 0 sits at the parent location.
  - `ZeroUnaliased`: handle 0 sits at no other location.
- `mock.dfy` (`Mock`): the three conversions, what they guarantee, the round
  trips and their side conditions, and two concrete registries. The first is
  `ParaG`'s genesis registry. The second holds one registered foreign asset.

The registry is an explicit argument to every conversion, and the conversions
are functions with no precondition. So they are total, and they cannot change
the registry.

## Model

| member | source | states |
|---|---|---|
| Mock.ConvertId | asset-registry/src/mock/mod.rs:24-29 | Handle 0 gives `Some(parent)` whatever the registry holds. Any other handle gives `Some(l)` exactly when the registry has it registered at `l`, and `None` otherwise. |
| Mock.ConvertLocation | asset-registry/src/mock/mod.rs:32-42 | The parent location gives `Some(0)` whatever the registry holds. Any other location gives the reverse index's entry, or `None` when there is no entry. |
| Mock.ConvertAsset | asset-registry/src/mock/mod.rs:45-55 | A `Fungible` asset with a `Concrete` id converts like its location. A `NonFungible` asset or one with an `Abstract` id gives `None`. |
| Mock.AssetConverts | asset-registry/src/mock/mod.rs:46-54 | An asset converts to `id` if and only if it is fungible, has a concrete id, and its location converts to `id`. |
| Mock.AssetAmountIrrelevant | asset-registry/src/mock/mod.rs:46-51 | Two fungible amounts of one concrete location convert to the same result. |
| Mock.ParentAssetIsZero | asset-registry/src/mock/mod.rs:33-51 | Any fungible amount of the parent location's asset converts to handle 0, whatever the registry holds. |
| Mock.SentinelShadowsZeroRegistration | asset-registry/src/mock/mod.rs:25-26 | Replacing handle 0's metadata with any entry, with or without a location, leaves the forward conversion of 0 unchanged; a location registered for 0 other than the parent is never returned. |
| Mock.SentinelShadowsParentEntry | asset-registry/src/mock/mod.rs:33-38 | When the reverse index sends the parent location to a nonzero handle, the parent location still converts to `Some(0)` and never to that handle. |
| Mock.ForwardAbsence | asset-registry/src/mock/mod.rs:27 | For a nonzero handle, forward conversion is `None` if and only if one of three holds: the handle is unknown, it has no location, or its stored location cannot be converted. The lookup's error becomes `None`, never a fault. |
| Mock.RoundTripId | asset-registry/src/mock/mod.rs:24-42 | Given `Consistent` and `ParentUnaliased`, every handle with a location converts back to itself. |
| Mock.RoundTripLocation | asset-registry/src/mock/mod.rs:24-42 | Given `Consistent` and `ZeroUnaliased`, the parent location and every indexed location convert to a handle and back to themselves. |
| Mock.ForwardInjective | asset-registry/src/mock/mod.rs:24-29 | Under the same conditions, no two handles convert to one location. |
| Mock.ReverseInjective | asset-registry/src/mock/mod.rs:32-42 | Under the same conditions, no two locations convert to one handle. |
| Mock.ParentAliasBreaksRoundTrip | asset-registry/src/mock/mod.rs:26-35 | A consistent registry that registers handle 5 at the parent location breaks the handle round trip: 5 goes to the parent, and the parent comes back as 0. So `ParentUnaliased` is needed. |
| Mock.ZeroAliasBreaksRoundTrip | asset-registry/src/mock/mod.rs:26-35 | A consistent registry that indexes a sibling chain's location under handle 0 breaks the location round trip: that location gives 0, and 0 gives the parent. So `ZeroUnaliased` is needed. |
| Mock.ParaGRegistry | asset-registry/src/mock/mod.rs:93-117 | `ParaG`'s genesis registry holds exactly handles 0 and 1 and an empty reverse index. Each entry has twelve decimals, existential deposit 0, no location and `fee_per_second` 10^12, with the names `para G native token`/`paraG` and `para G foreign token`/`paraF`. |
| Mock.ParaGMetadata | asset-registry/src/mock/mod.rs:96-105 | The genesis metadata shape: twelve decimals, existential deposit 0, no location, `fee_per_second` 10^12, and the given name and symbol as bytes. |
| Mock.ParaGWellFormed | asset-registry/src/mock/mod.rs:93-118 | `ParaG`'s genesis registry (handles 0 and 1, neither with a location) satisfies all three invariants. |
| Mock.ParaGConversions | asset-registry/src/mock/mod.rs:93-118 | On `ParaG`, handle 0 gives the parent location although genesis registers 0 itself. Handle 1 gives `None`. Only the parent location converts back, to 0. |
| Mock.ForeignAssetConversions | asset-registry/src/mock/mod.rs:24-42 | With handle 1 registered at `{1, [Parachain(4), PalletInstance(p), GeneralIndex(0)]}`: 1 converts to that location, the location converts back to 1, and the unregistered handle 99 gives `None`. |
| Mock.AsciiBytes | asset-registry/src/mock/mod.rs:98-99 | It gives one byte per character, equal to the character's code for ASCII text, as `as_bytes()` does for the genesis names. |
| Registry.Multilocation | asset-registry/src/mock/mod.rs:27 | An unknown handle or one without a location gives `Ok(None)`. A handle registered at `l` gives `Ok(Some(l))`. An unconvertible stored location gives `Err(BadVersion)`. |
| Registry.LocationToAssetId | asset-registry/src/mock/mod.rs:37 | It gives `Some(id)` exactly when the reverse index maps the location to `id`. |
| Registry.RegisteredAtUnique | asset-registry/src/mock/mod.rs:24-42 | In a consistent registry, at most one handle is registered at a given location. |
| Wrappers.UnwrapOrDefault | asset-registry/src/mock/mod.rs:27 | `Ok(v)` gives `v`. An error gives `None`, the default of `Option`. |
| Xcm.Parent | asset-registry/src/mock/mod.rs:26 | `Parent.into()` and `MultiLocation::parent()` are one level up with an empty interior. |

A registered handle without a location converts to `None`.
`unwrap_or_default()` on a `Result<Option<MultiLocation>, _>` gives `None` on
an error, and `Ok(None)` passes through unchanged. No default location is
substituted (`Mock.ForwardAbsence`, `Mock.ParaGConversions`).

The functions `Mock.MetadataAt`, `Mock.ParentAliasedRegistry`,
`Mock.SiblingChain`, `Mock.ZeroAliasedRegistry`, `Mock.ForeignLocation` and
`Mock.ForeignRegistry` are example registries and locations only. They are the
fixtures of the counterexample and registered-foreign-asset lemmas, and they
model nothing in the source themselves.

## Left out

- The asset-registry pallet's own code (metadata storage, registration, version conversion of stored locations) is not part of this model. The registry is an arbitrary value of two maps. The invariants the round trips need are stated as predicates, not derived from a registration operation.
- `Registry.Multilocation`: the reason a stored location fails to convert is shown only as `Unconvertible`. The versioned location formats are not modelled.
- The `decl_test_parachain!`, `decl_test_relay_chain!` and `decl_test_network!` topology (lines 61-140) is left out. It is simulated message passing provided by the `xcm_simulator` macros, which this project does not model.
- The genesis builders `para_ext` and `relay_ext` (lines 145-192) are left out. They build storage sandboxes through foreign genesis APIs. Only `ParaG`'s registry contents are modelled, and the trailing `5` of its asset data is ignored, as `para_ext` ignores it.
- SCALE encoding of `AssetMetadata` in the genesis data is left out. The model keeps the decoded metadata.
- The account constants `ALICE`, `BOB`, `CHARLIE` and the `Balance`/`Amount` aliases carry no logic and are left out.
- `Xcm.Junction` omits the `AccountIndex64` and `Plurality` junctions and the network field of account junctions. Its `AccountId32` and `AccountKey20` carry byte sequences of any length, where the real types are `[u8; 32]` and `[u8; 20]`. `Xcm.AssetInstance` folds the fixed-size array instances into `Blob`. The conversions only compare these values for equality.
- Mock.AsciiBytes: for characters beyond ASCII it does not produce their UTF-8 bytes. Such characters do not occur in the modelled genesis names.
