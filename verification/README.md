# Smart assembly resolver — Dafny model

This project models the composition step of the `useSmartAssembly` React hook
of the smart-assembly scaffold client. The hook resolves one "smart assembly",
a deployable game object identified by `smartObjectId`. It reads several store
tables and the owner that was fetched from the indexer. From these it builds a
base assembly object and, depending on the assembly-type discriminant, one
tagged variant (storage unit, turret or gate).

Once the record snapshots and the owner are fixed, the step is a pure
function. The model follows its four parts:

1. **Dependent keys.** The CharactersByAddress read is keyed by the
   checksummed owner, or by the placeholder `"0x"` while the owner is unknown.
   The owner's character record is read from the off-chain entity table at the
   mapped character id, or at the placeholder `0`
   (`SmartAssembly.AddressKey`, `SmartAssembly.CharacterKey`).
2. **Presence gate.** A base exists exactly when the owner is known, the
   owner's character record is present, and the deployable state is present
   for a non-zero object id (`SmartAssembly.Complete`, `SmartAssembly.Base`).
3. **Field composition** with JavaScript `||` fallbacks. `undefined`, `0n`,
   `0`, `NaN`, `""` and `false` are falsy, so a present zero falls back just
   like a missing value (module `JsValues`). The one field where this is
   visible is the fuel unit volume: 0 becomes 10.
4. **Variant selection.** Discriminant 0, 1 or 2 extends the base, unchanged,
   with a storage, turret or gate payload. Any other value, or none, gives no
   variant (`SmartAssembly.SelectVariant`, `SmartAssembly.Resolve`).

Modules:

- `Wrappers` (`wrappers.dfy`): `Option`, with `Chain` for optional chaining `x?.f`.
- `Decimal` (`decimal.dfy`): `bigint.toString()` for non-negative values as
  `ToDecimal`. Its partner `Parse` reads canonical numerals back. The two are
  proved inverse in both directions.
- `JsValues` (`js_values.dfy`): JavaScript `||` for bigints, numbers, strings
  and booleans; `Number(x)` with `NaN` for `undefined`.
- `Tables` (`tables.dfy`): one datatype per store table, holding the columns
  the hook reads; the `State` enumeration values NULL = 0 and ONLINE = 3.
- `SmartAssembly` (`smart_assembly.dfy`): the inputs of one pass, the output
  types, the default table and the composition itself.
- `SmartAssemblyFacts` (`facts.dfy`): lemmas about whole passes.

Store reads keyed by the assembly's own id are `Option` snapshots in `Inputs`.
The two reads whose keys depend on the owner are whole tables, given as
functions from key to `Option`: `charactersByAddress` and `entityOffchain`.
The assembly's own off-chain record is read from the same `entityOffchain`
function at `smartObjectId`, as the hook reads both from one table. The viem
`getAddress` checksum is the function field `getAddress`. The chain id from
the environment is a plain input.

Behaviour of the code worth noting:

- The placeholder character key `0` is an ordinary read of entity 0. If the
  store held an off-chain record for entity 0, an owner without a character
  mapping would still pass the gate (`UnmappedOwnerReadsPlaceholder`).
- `solarSystemId` has no fallback: it is `NaN` when the location record is
  absent (`BaseLocationFields`).
- `destinationGateId.toString() || undefined` never yields `undefined` for a
  present link record, because a rendering is never empty; destination id 0
  gives `"0"` (`UnlinkedGateRendersZero`).
- The code has no guard against a late owner result arriving after the
  object id changes, so the model claims none.
- The gate tests the `smartObjectId` key field of the DeployableState read.
  That field is the key of the read, so the model takes it from the object
  id: an object id of 0 never yields a base.

## Model

| member | source | states |
|---|---|---|
| SmartAssembly.AddressKey | smart-assembly-scaffold/packages/client/src/hooks/useSmartAssembly.ts:133-139 | the address key is the placeholder "0x" while the owner is absent (or empty), and the checksummed owner once it is known |
| SmartAssembly.CharacterKey | smart-assembly-scaffold/packages/client/src/hooks/useSmartAssembly.ts:141-147 | the character key is 0 when the owner's address has no character mapping, and the mapped character id otherwise (a stored 0 stays 0) |
| SmartAssembly.Rendered | smart-assembly-scaffold/packages/client/src/hooks/useSmartAssembly.ts:181-183 | `x?.toString() \|\| ""` is empty exactly when the value is absent; a present value renders to a numeral that parses back to it |
| SmartAssembly.ComposeFuel | smart-assembly-scaffold/packages/client/src/hooks/useSmartAssembly.ts:184-190 | no fuel record gives amount, consumption and capacity 0 and unit volume 10; a present record's amount, consumption and capacity are copied; its unit volume is copied unless 0, which becomes 10; the unit volume is never 0 |
| SmartAssembly.Base | smart-assembly-scaffold/packages/client/src/hooks/useSmartAssembly.ts:150-192 | the base exists iff the owner, the owner's character record and the deployable state are present and the object id is non-zero; then ownerId is the owner, ownerName the character's name, isOnline holds iff the state is ONLINE, stateId and state are the stored state, the id parses back to the assembly's own object id and the anchor time to the stored value, region and image are empty; object id 0 gives no base |
| SmartAssembly.SelectVariant | smart-assembly-scaffold/packages/client/src/hooks/useSmartAssembly.ts:220-253 | a variant exists iff the discriminant is 0, 1 or 2; it keeps the base unchanged and its kind's code is the discriminant; storage capacity and used capacity come from the inventory or default to 0 with empty item lists; a gate is linked iff the link record says so, has a destination iff the link record is present, and that destination parses back to the stored gate id; gatesInRange is empty |
| SmartAssembly.Resolve | smart-assembly-scaffold/packages/client/src/hooks/useSmartAssembly.ts:201-255 | one pass returns the gated base, and a variant exactly when the base exists and the discriminant is known; a returned variant's base is the returned base; when the base exists, the variant is the one the switch builds from the snapshot's discriminant, inventory and gate-link records, so the storage-unit and gate payload promises of SmartAssembly.SelectVariant hold for the pass |
| Decimal.ToDecimal | smart-assembly-scaffold/packages/client/src/hooks/useSmartAssembly.ts:158 | `toString()` of a non-negative bigint is a non-empty digit string without a leading zero, starting with '0' only for 0 |
| Decimal.ValueOfToDecimal | smart-assembly-scaffold/packages/client/src/hooks/useSmartAssembly.ts:171 | the digits of a rendering denote the rendered value |
| Decimal.ParseIsInverse | smart-assembly-scaffold/packages/client/src/hooks/useSmartAssembly.ts:174-177 | parsing a string gives n exactly when the string is the rendering of n, so renderings are canonical and lossless |
| Decimal.ToDecimalInjective | smart-assembly-scaffold/packages/client/src/hooks/useSmartAssembly.ts:249 | distinct ids render to distinct strings |
| SmartAssemblyFacts.UnresolvedOwner | smart-assembly-scaffold/packages/client/src/hooks/useSmartAssembly.ts:137-156 | before the owner is known the address key is "0x" and the pass yields neither base nor variant |
| SmartAssemblyFacts.UnmappedOwnerReadsPlaceholder | smart-assembly-scaffold/packages/client/src/hooks/useSmartAssembly.ts:145 | an owner without a mapping, or mapped to id 0, reads the character record at key 0 |
| SmartAssemblyFacts.CharacterMappingReadOnlyAtAddressKey | smart-assembly-scaffold/packages/client/src/hooks/useSmartAssembly.ts:133-147 | the base depends on the address-to-character table only at the key derived from the owner |
| SmartAssemblyFacts.OffchainReadOnlyAtTwoKeys | smart-assembly-scaffold/packages/client/src/hooks/useSmartAssembly.ts:141-165 | the base depends on the off-chain entity table only at the character key and at the assembly's own id |
| SmartAssemblyFacts.BaseIgnoresVariantRecords | smart-assembly-scaffold/packages/client/src/hooks/useSmartAssembly.ts:150-192 | the base does not depend on the assembly-type, gate-link or inventory records |
| SmartAssemblyFacts.BaseOffchainFields | smart-assembly-scaffold/packages/client/src/hooks/useSmartAssembly.ts:163-165 | name, description and dApp URL are the off-chain values, or "" when the record is absent |
| SmartAssemblyFacts.BaseLocationFields | smart-assembly-scaffold/packages/client/src/hooks/useSmartAssembly.ts:172-183 | without a location, the coordinates and solar-system strings are "" and the numeric solar-system id is NaN; with one, each string parses back to its stored value and the three solar-system strings agree |
| SmartAssemblyFacts.BaseEntityFields | smart-assembly-scaffold/packages/client/src/hooks/useSmartAssembly.ts:159-179 | item id and type id are the entity record's values, or 0 without one |
| SmartAssemblyFacts.BaseFuel | smart-assembly-scaffold/packages/client/src/hooks/useSmartAssembly.ts:184-190 | the base's fuel is composed from the fuel record alone; without one, the unit volume is 10 |
| SmartAssemblyFacts.DefaultTable | smart-assembly-scaffold/packages/client/src/hooks/useSmartAssembly.ts:157-191 | with every optional record absent, the base equals the declarative default table filled with the gate's inputs |
| SmartAssemblyFacts.VariantTag | smart-assembly-scaffold/packages/client/src/hooks/useSmartAssembly.ts:220-253 | with the gate passed and discriminant 0, 1 or 2, a variant exists and its assemblyType is "SmartStorageUnit", "SmartTurret" or "SmartGate" respectively |
| SmartAssemblyFacts.UnlinkedGateRendersZero | smart-assembly-scaffold/packages/client/src/hooks/useSmartAssembly.ts:247-249 | a link record with destination 0 and not linked gives isLinked false and destination "0" |
| SmartAssemblyFacts.StorageUnitExample | smart-assembly-scaffold/packages/client/src/hooks/useSmartAssembly.ts:222-232 | discriminant 0 with inventory 1000/250 for assembly 42 gives a SmartStorageUnit with id "42", capacity 1000, used 250, empty lists |
| SmartAssemblyFacts.GateExample | smart-assembly-scaffold/packages/client/src/hooks/useSmartAssembly.ts:241-251 | discriminant 2 with link {linked, 99} for assembly 7 gives a SmartGate with id "7", linked, destination "99" |

## Left out

- The owner fetch (lines 103-131): `getWorldDeploy`, the HTTP POST to the indexer, JSON parsing and `mapApiResult` are network I/O; the fetched owner is the input `owner`. `mapApiResult` is not part of this model.
- React machinery (`useState`, `useEffect`, re-rendering) and the reactive `useRecord`/`stash` store: every read is a snapshot or a key-to-`Option` function given to one pass.
- Ordering of a late owner result after the object id changes: the code has no guard, so nothing is claimed.
- `getAddress` from viem is an opaque total function; its checksum rules and its exception on a malformed address are not modelled.
- `Number(...)` of a bigint (item id, type id, solar-system id) is the exact natural or `NaN`; rounding of values above 2^53 is not modelled.
- The object id and chain id from the environment are plain inputs; the `BigInt(...)` parse of the object id is not modelled.
- The turret's proximity payload is the empty object and the reserved item and gate lists are always empty, so their element shapes are plain naturals.
- The `State` enumeration and the record schemas come from the game's type library and world configuration, which are not part of this model; only the columns the hook reads are kept.
- SmartAssembly.AddressKey: the contract does not say what `getAddress` returns, since the library call is opaque.
