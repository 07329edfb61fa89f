/** The store records the resolver reads, one datatype per table, holding the
    fields the resolver uses. Unsigned integer columns (`uint8` up to `uint256`)
    are naturals.
 */
module Tables {

  /** Lifecycle states, numbered as in the game's `State` enumeration
      (NULL, UNANCHORED, ANCHORED, ONLINE, DESTROYED). */
  const StateNull: nat := 0
  const StateOnline: nat := 3

  /** DeployableState, keyed by smartObjectId. A read returns the key field
      `smartObjectId` alongside these columns; it always equals the key of the
      read, so the model takes it from the key rather than from the record. */
  datatype DeployableState = DeployableState(
    isValid: bool,
    anchoredAt: nat,
    currentState: nat)

  /** SmartAssemblyTable, keyed by smartObjectId: the assembly-type discriminant. */
  datatype SmartAssemblyRecord = SmartAssemblyRecord(smartAssemblyType: nat)

  /** LocationTable, keyed by smartObjectId. */
  datatype Location = Location(solarSystemId: nat, x: nat, y: nat, z: nat)

  /** EntityRecordOffchainTable, keyed by entityId: display metadata of an
      assembly or of a character. */
  datatype EntityOffchain = EntityOffchain(name: string, dappURL: string, description: string)

  /** EntityRecordTable, keyed by entityId. */
  datatype EntityRecord = EntityRecord(itemId: nat, typeId: nat)

  /** DeployableFuelBalance, keyed by smartObjectId. */
  datatype FuelBalance = FuelBalance(
    fuelUnitVolume: nat,
    fuelConsumptionPerMinute: nat,
    fuelMaxCapacity: nat,
    fuelAmount: nat)

  /** CharactersByAddressTable, keyed by characterAddress. */
  datatype CharacterByAddress = CharacterByAddress(characterId: nat)

  /** SmartGateLinkTable, keyed by sourceGateId. */
  datatype GateLink = GateLink(destinationGateId: nat, isLinked: bool)

  /** InventoryTable, keyed by smartObjectId. */
  datatype Inventory = Inventory(capacity: nat, usedCapacity: nat)
}
