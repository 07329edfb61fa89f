/** The composition step of the `useSmartAssembly` hook.
    Given point-in-time snapshots of the store reads and the owner fetched from
    the indexer, the hook
      1. derives the keys of the two reads that depend on the owner,
      2. decides whether a base assembly exists at all,
      3. composes the base assembly from the optional records with JavaScript
         `||` fallbacks, and
      4. switches on the assembly-type discriminant to extend the base with at
         most one tagged variant.
    Every step is a pure function of `Inputs`.
 */
module SmartAssembly {
  import opened Wrappers
  import opened Tables
  import opened JsValues
  import Decimal

  /** A hex account address such as "0xf39f...". */
  type Address = string

  /** Everything one resolution pass reads.
      The reads keyed by the assembly's own id are given as snapshots. The two
      reads whose keys depend on the owner are given as whole tables, so the
      chain owner -> address key -> character id -> character record is
      explicit. The assembly's own off-chain record is read from the same
      `entityOffchain` table at `smartObjectId`. `getAddress` is the address
      checksum normalisation of the viem library. */
  datatype Inputs = Inputs(
    smartObjectId: nat,
    chainId: string,
    owner: Option<Address>,
    deployableState: Option<DeployableState>,
    assemblyType: Option<SmartAssemblyRecord>,
    location: Option<Location>,
    entityRecord: Option<EntityRecord>,
    fuelBalance: Option<FuelBalance>,
    gateLink: Option<GateLink>,
    inventory: Option<Inventory>,
    charactersByAddress: Address -> Option<CharacterByAddress>,
    entityOffchain: nat -> Option<EntityOffchain>,
    getAddress: Address -> Address)

  datatype SolarSystem = SolarSystem(
    solarSystemId: string,
    solarSystemName: string,
    solarSystemNameId: string)

  datatype Fuel = Fuel(
    fuelAmount: nat,
    fuelConsumptionPerMin: nat,
    fuelMaxCapacity: nat,
    fuelUnitVolume: nat)

  /** The type-independent projection of an assembly. */
  datatype BaseAssembly = BaseAssembly(
    id: string,
    itemId: nat,
    ownerId: Address,
    ownerName: string,
    chainId: string,
    name: string,
    description: string,
    dappUrl: string,
    image: string,
    isValid: bool,
    isOnline: bool,
    stateId: nat,
    state: nat,
    anchoredAtTime: string,
    solarSystemId: Number,
    solarSystem: SolarSystem,
    typeId: nat,
    region: string,
    locationX: string,
    locationY: string,
    locationZ: string,
    fuel: Fuel)

  /** Elements of the reserved item and gate lists. Their shape belongs to the
      game's type library; the resolver always leaves these lists empty. */
  type ItemRef = nat
  type GateRef = nat

  datatype InventoryInfo = InventoryInfo(
    storageCapacity: nat,
    usedCapacity: nat,
    storageItems: seq<ItemRef>,
    ephemeralInventoryList: seq<ItemRef>)

  datatype GateLinkInfo = GateLinkInfo(
    gatesInRange: seq<GateRef>,
    isLinked: bool,
    destinationGate: Option<string>)

  /** The closed set of variants; a turret's proximity payload is the empty object. */
  datatype Kind =
    | SmartStorageUnit(inventory: InventoryInfo)
    | SmartTurret
    | SmartGate(gateLink: GateLinkInfo)

  /** A variant: the base, spread unchanged, plus its tag and payload. */
  datatype Assembly = Assembly(base: BaseAssembly, kind: Kind)

  /** What the hook returns. */
  datatype Resolution = Resolution(base: Option<BaseAssembly>, assembly: Option<Assembly>)

  // The default table: values a field takes when its source is absent or falsy.

  const DefaultFuelUnitVolume: nat := 10
  const AddressPlaceholder: Address := "0x"
  const CharacterPlaceholder: nat := 0

  /** The base assembly composed when every optional record is absent: the
      declarative default of each field. Only the gate's inputs show through. */
  function DefaultBase(smartObjectId: nat, owner: Address, ownerName: string, chainId: string,
                       deployable: DeployableState): BaseAssembly
  {
    BaseAssembly(
      id := Decimal.ToDecimal(smartObjectId),
      itemId := 0,
      ownerId := owner,
      ownerName := ownerName,
      chainId := chainId,
      name := "",
      description := "",
      dappUrl := "",
      image := "",
      isValid := deployable.isValid,
      isOnline := deployable.currentState == StateOnline,
      stateId := deployable.currentState,
      state := deployable.currentState,
      anchoredAtTime := Decimal.ToDecimal(deployable.anchoredAt),
      solarSystemId := NaN,
      solarSystem := SolarSystem("", "", ""),
      typeId := 0,
      region := "",
      locationX := "",
      locationY := "",
      locationZ := "",
      fuel := Fuel(0, 0, 0, DefaultFuelUnitVolume))
  }

  /** The discriminants the variant switch knows. */
  const KnownTypes: set<nat> := {0, 1, 2}

  /** The discriminant each variant is selected by. */
  function TypeCode(k: Kind): nat
  {
    match k
    case SmartStorageUnit(_) => 0
    case SmartTurret => 1
    case SmartGate(_) => 2
  }

  /** The `assemblyType` tag each variant carries. */
  function AssemblyTypeName(k: Kind): string
  {
    match k
    case SmartStorageUnit(_) => "SmartStorageUnit"
    case SmartTurret => "SmartTurret"
    case SmartGate(_) => "SmartGate"
  }

  /** The key of the CharactersByAddressTable read: the checksummed owner once
      it is known, the placeholder "0x" before. */
  function AddressKey(owner: Option<Address>, getAddress: Address -> Address): (k: Address)
    ensures owner.None? || owner.value == "" ==> k == AddressPlaceholder
    ensures owner.Some? && owner.value != "" ==> k == getAddress(owner.value)
  {
    if owner.Some? && owner.value != "" then getAddress(owner.value) else AddressPlaceholder
  }

  /** The record the owner's address maps to. */
  function OwnerCharacterLink(snap: Inputs): Option<CharacterByAddress>
  {
    snap.charactersByAddress(AddressKey(snap.owner, snap.getAddress))
  }

  /** The key of the owner's character-record read: the character id the
      owner's address maps to, or the placeholder 0. A stored id of 0 and a
      missing mapping both give 0. */
  function CharacterKey(snap: Inputs): (k: nat)
    ensures OwnerCharacterLink(snap).None? ==> k == CharacterPlaceholder
    ensures OwnerCharacterLink(snap).Some? ==> k == OwnerCharacterLink(snap).value.characterId
  {
    OrNat(OwnerCharacterLink(snap).Chain((c: CharacterByAddress) => c.characterId), CharacterPlaceholder)
  }

  /** The owner's character record, read from the off-chain entity table. */
  function OwnerCharacter(snap: Inputs): Option<EntityOffchain>
  {
    snap.entityOffchain(CharacterKey(snap))
  }

  /** The assembly's own off-chain record. */
  function AssemblyOffchain(snap: Inputs): Option<EntityOffchain>
  {
    snap.entityOffchain(snap.smartObjectId)
  }

  /** The assembly-type discriminant, when the record is present. */
  function Discriminant(snap: Inputs): Option<nat>
  {
    snap.assemblyType.Chain((t: SmartAssemblyRecord) => t.smartAssemblyType)
  }

  /** When a base assembly may exist: the owner is resolved, the owner's
      character record is present, and the deployable state of a non-zero
      object id is present. */
  predicate Complete(snap: Inputs)
  {
    && snap.owner.Some?
    && OwnerCharacter(snap).Some?
    && snap.deployableState.Some?
    && snap.smartObjectId > 0
  }

  /** `x?.toString() || ""` for an optional unsigned bigint `x`. The fallback
      only applies to an absent value: a rendering is never empty. */
  function Rendered(x: Option<nat>): (s: string)
    ensures x.None? <==> s == ""
    ensures x.Some? ==> Decimal.Parse(s) == Some(x.value)
  {
    var s := OrString(x.Chain(Decimal.ToDecimal), "");
    if x.Some? then Decimal.ParseToDecimal(x.value); s else s
  }

  /** The fuel sub-object. Amount, consumption and capacity fall back to 0,
      which leaves present values unchanged; the unit volume falls back to 10,
      so a stored zero volume is replaced as well. */
  function ComposeFuel(f: Option<FuelBalance>): (r: Fuel)
    ensures f.None? ==> r == Fuel(0, 0, 0, DefaultFuelUnitVolume)
    ensures f.Some? ==> && r.fuelAmount == f.value.fuelAmount
                        && r.fuelConsumptionPerMin == f.value.fuelConsumptionPerMinute
                        && r.fuelMaxCapacity == f.value.fuelMaxCapacity
    ensures f.Some? && f.value.fuelUnitVolume != 0 ==> r.fuelUnitVolume == f.value.fuelUnitVolume
    ensures f.Some? && f.value.fuelUnitVolume == 0 ==> r.fuelUnitVolume == DefaultFuelUnitVolume
    ensures r.fuelUnitVolume != 0
  {
    Fuel(
      fuelAmount := OrNat(f.Chain((b: FuelBalance) => b.fuelAmount), 0),
      fuelConsumptionPerMin := OrNat(f.Chain((b: FuelBalance) => b.fuelConsumptionPerMinute), 0),
      fuelMaxCapacity := OrNat(f.Chain((b: FuelBalance) => b.fuelMaxCapacity), 0),
      fuelUnitVolume := OrNat(f.Chain((b: FuelBalance) => b.fuelUnitVolume), DefaultFuelUnitVolume))
  }

  /** The base object literal, built once the presence gate has passed. The
      gate has made the owner, the character record and the deployable state
      present, so their `?.` reads are plain field reads here; the `||`
      fallbacks on them are kept. */
  function Compose(snap: Inputs, owner: Address, character: EntityOffchain, deployable: DeployableState): BaseAssembly
  {
    var offchain := AssemblyOffchain(snap);
    var solarSystem := Rendered(snap.location.Chain((l: Location) => l.solarSystemId));
    BaseAssembly(
      id := Rendered(Some(snap.smartObjectId)),
      itemId := NumberOr(ToNumber(snap.entityRecord.Chain((e: EntityRecord) => e.itemId)), 0),
      ownerId := owner,
      ownerName := OrString(Some(character.name), ""),
      chainId := snap.chainId,
      name := OrString(offchain.Chain((o: EntityOffchain) => o.name), ""),
      description := OrString(offchain.Chain((o: EntityOffchain) => o.description), ""),
      dappUrl := OrString(offchain.Chain((o: EntityOffchain) => o.dappURL), ""),
      image := "",
      isValid := OrBool(Some(deployable.isValid), false),
      isOnline := deployable.currentState == StateOnline,
      stateId := OrNat(Some(deployable.currentState), StateNull),
      state := OrNat(Some(deployable.currentState), StateNull),
      anchoredAtTime := Rendered(Some(deployable.anchoredAt)),
      solarSystemId := ToNumber(snap.location.Chain((l: Location) => l.solarSystemId)),
      solarSystem := SolarSystem(solarSystem, solarSystem, solarSystem),
      typeId := NumberOr(ToNumber(snap.entityRecord.Chain((e: EntityRecord) => e.typeId)), 0),
      region := "",
      locationX := Rendered(snap.location.Chain((l: Location) => l.x)),
      locationY := Rendered(snap.location.Chain((l: Location) => l.y)),
      locationZ := Rendered(snap.location.Chain((l: Location) => l.z)),
      fuel := ComposeFuel(snap.fuelBalance))
  }

  /** The base assembly: present exactly when the inputs are complete, and
      then owned by the resolved owner, online exactly in the ONLINE state,
      and identified by the rendering of the assembly's own object id. */
  function Base(snap: Inputs): (r: Option<BaseAssembly>)
    ensures r.Some? <==> Complete(snap)
    ensures r.Some? ==> && r.value.ownerId == snap.owner.value
                        && r.value.ownerName == OwnerCharacter(snap).value.name
                        && r.value.chainId == snap.chainId
    ensures r.Some? ==> && (r.value.isOnline <==> snap.deployableState.value.currentState == StateOnline)
                        && r.value.stateId == snap.deployableState.value.currentState
                        && r.value.state == snap.deployableState.value.currentState
                        && r.value.isValid == snap.deployableState.value.isValid
    ensures snap.smartObjectId == 0 ==> r.None?
    ensures r.Some? ==> && Decimal.Parse(r.value.id) == Some(snap.smartObjectId)
                        && Decimal.Parse(r.value.anchoredAtTime) == Some(snap.deployableState.value.anchoredAt)
    ensures r.Some? ==> r.value.region == "" && r.value.image == ""
  {
    if snap.owner != None && OwnerCharacter(snap) != None
       && OrNat(snap.deployableState.Chain((s: DeployableState) => snap.smartObjectId), 0) != 0
    then
      Some(Compose(snap, snap.owner.value, OwnerCharacter(snap).value, snap.deployableState.value))
    else
      None
  }

  /** The variant switch: a known discriminant extends the base, unchanged,
      with that variant's tag and payload; any other value, or none, gives no
      variant. */
  function SelectVariant(base: BaseAssembly, discriminant: Option<nat>,
                         inventory: Option<Inventory>, gateLink: Option<GateLink>): (r: Option<Assembly>)
    ensures r.Some? <==> discriminant.Some? && discriminant.value in KnownTypes
    ensures r.Some? ==> r.value.base == base && TypeCode(r.value.kind) == discriminant.value
    ensures r.Some? && r.value.kind.SmartStorageUnit? ==>
              && r.value.kind.inventory.storageCapacity == inventory.Chain((i: Inventory) => i.capacity).GetOr(0)
              && r.value.kind.inventory.usedCapacity == inventory.Chain((i: Inventory) => i.usedCapacity).GetOr(0)
              && r.value.kind.inventory.storageItems == []
              && r.value.kind.inventory.ephemeralInventoryList == []
    ensures r.Some? && r.value.kind.SmartGate? ==>
              && r.value.kind.gateLink.gatesInRange == []
              && (r.value.kind.gateLink.isLinked <==> gateLink.Some? && gateLink.value.isLinked)
              && (r.value.kind.gateLink.destinationGate.Some? <==> gateLink.Some?)
              && (gateLink.Some? ==>
                    Decimal.Parse(r.value.kind.gateLink.destinationGate.value) == Some(gateLink.value.destinationGateId))
  {
    if discriminant == Some(0) then
      Some(Assembly(base, SmartStorageUnit(InventoryInfo(
        storageCapacity := OrNat(inventory.Chain((i: Inventory) => i.capacity), 0),
        usedCapacity := OrNat(inventory.Chain((i: Inventory) => i.usedCapacity), 0),
        storageItems := [],
        ephemeralInventoryList := []))))
    else if discriminant == Some(1) then
      Some(Assembly(base, SmartTurret))
    else if discriminant == Some(2) then
      var destination := OrUndefined(gateLink.Chain((g: GateLink) => Decimal.ToDecimal(g.destinationGateId)));
      var gate := Some(Assembly(base, SmartGate(GateLinkInfo(
        gatesInRange := [],
        isLinked := OrBool(gateLink.Chain((g: GateLink) => g.isLinked), false),
        destinationGate := destination))));
      if gateLink.Some? then Decimal.ParseToDecimal(gateLink.value.destinationGateId); gate else gate
    else
      None
  }

  /** One resolution pass: the base and, built on it, at most one variant. */
  function Resolve(snap: Inputs): (r: Resolution)
    ensures r.base == Base(snap)
    ensures r.assembly.Some? <==> r.base.Some? && Discriminant(snap).Some? && Discriminant(snap).value in KnownTypes
    ensures r.assembly.Some? ==> r.base == Some(r.assembly.value.base)
    ensures r.base.Some? ==> r.assembly == SelectVariant(r.base.value, Discriminant(snap), snap.inventory, snap.gateLink)
  {
    var base := Base(snap);
    var assembly :=
      if base.Some? then SelectVariant(base.value, Discriminant(snap), snap.inventory, snap.gateLink) else None;
    Resolution(base, assembly)
  }
}
