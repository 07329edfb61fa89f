/** Properties of the resolver that relate several reads, several calls, or a
    whole resolution pass to the default table and to the rendering partner
    `Decimal.Parse`.
 */
module SmartAssemblyFacts {
  import opened Wrappers
  import opened Tables
  import opened JsValues
  import opened SmartAssembly
  import Decimal

  /** Before the owner is fetched the address read uses the placeholder key,
      and the pass yields neither a base nor a variant. */
  lemma UnresolvedOwner(snap: Inputs)
    requires snap.owner.None?
    ensures AddressKey(snap.owner, snap.getAddress) == AddressPlaceholder
    ensures Resolve(snap) == Resolution(None, None)
  {
  }

  /** An owner with no character mapping, or one mapped to id 0, reads the
      character record at the placeholder key 0. */
  lemma UnmappedOwnerReadsPlaceholder(snap: Inputs)
    requires OwnerCharacterLink(snap).None? || OwnerCharacterLink(snap).value.characterId == 0
    ensures OwnerCharacter(snap) == snap.entityOffchain(CharacterPlaceholder)
  {
  }

  /** The address-to-character table is read only at the address key derived
      from the owner: two tables that agree there give the same base. */
  lemma CharacterMappingReadOnlyAtAddressKey(snap: Inputs, table: Address -> Option<CharacterByAddress>)
    requires table(AddressKey(snap.owner, snap.getAddress)) == OwnerCharacterLink(snap)
    ensures Base(snap.(charactersByAddress := table)) == Base(snap)
  {
  }

  /** The off-chain entity table is read only at the character key and at the
      assembly's own id: two tables that agree there give the same base. */
  lemma OffchainReadOnlyAtTwoKeys(snap: Inputs, table: nat -> Option<EntityOffchain>)
    requires table(CharacterKey(snap)) == OwnerCharacter(snap)
    requires table(snap.smartObjectId) == AssemblyOffchain(snap)
    ensures Base(snap.(entityOffchain := table)) == Base(snap)
  {
  }

  /** The base does not depend on the records only the variants read. */
  lemma BaseIgnoresVariantRecords(snap: Inputs, assemblyType: Option<SmartAssemblyRecord>,
                                  gateLink: Option<GateLink>, inventory: Option<Inventory>)
    ensures Base(snap.(assemblyType := assemblyType, gateLink := gateLink, inventory := inventory)) == Base(snap)
  {
  }

  /** Name, description and dApp URL are the assembly's off-chain values, or
      empty when that record is absent. */
  lemma BaseOffchainFields(snap: Inputs)
    requires Complete(snap)
    ensures var b := Base(snap).value; var o := AssemblyOffchain(snap);
            && b.name == o.Chain((e: EntityOffchain) => e.name).GetOr("")
            && b.description == o.Chain((e: EntityOffchain) => e.description).GetOr("")
            && b.dappUrl == o.Chain((e: EntityOffchain) => e.dappURL).GetOr("")
  {
  }

  /** Location strings are empty when the location record is absent and
      otherwise read back as the stored coordinates; the numeric solar-system
      id is NaN when the record is absent. */
  lemma BaseLocationFields(snap: Inputs)
    requires Complete(snap)
    ensures var b := Base(snap).value;
            snap.location.None? ==>
              && b.locationX == "" && b.locationY == "" && b.locationZ == ""
              && b.solarSystem == SolarSystem("", "", "")
              && b.solarSystemId == NaN
    ensures snap.location.Some? ==>
              var b := Base(snap).value; var l := snap.location.value;
              && Decimal.Parse(b.locationX) == Some(l.x)
              && Decimal.Parse(b.locationY) == Some(l.y)
              && Decimal.Parse(b.locationZ) == Some(l.z)
              && Decimal.Parse(b.solarSystem.solarSystemId) == Some(l.solarSystemId)
              && b.solarSystem.solarSystemName == b.solarSystem.solarSystemId
              && b.solarSystem.solarSystemNameId == b.solarSystem.solarSystemId
              && b.solarSystemId == Finite(l.solarSystemId)
  {
  }

  /** Item and type ids are the entity record's values, or 0 when it is absent. */
  lemma BaseEntityFields(snap: Inputs)
    requires Complete(snap)
    ensures var b := Base(snap).value; var e := snap.entityRecord;
            && b.itemId == e.Chain((r: EntityRecord) => r.itemId).GetOr(0)
            && b.typeId == e.Chain((r: EntityRecord) => r.typeId).GetOr(0)
  {
  }

  /** The fuel sub-object is composed from the fuel record alone, so the
      fuel defaults of `ComposeFuel` apply to the base. */
  lemma BaseFuel(snap: Inputs)
    requires Complete(snap)
    ensures Base(snap).value.fuel == ComposeFuel(snap.fuelBalance)
    ensures snap.fuelBalance.None? ==> Base(snap).value.fuel.fuelUnitVolume == DefaultFuelUnitVolume
  {
  }

  /** With every optional record absent, the base is exactly the default table
      filled in with the gate's inputs. */
  lemma DefaultTable(snap: Inputs)
    requires Complete(snap)
    requires snap.location.None? && snap.entityRecord.None? && snap.fuelBalance.None?
    requires AssemblyOffchain(snap).None?
    ensures Base(snap) == Some(DefaultBase(snap.smartObjectId, snap.owner.value, OwnerCharacter(snap).value.name,
                                           snap.chainId, snap.deployableState.value))
  {
  }

  /** A produced variant carries the tag its discriminant names. */
  lemma VariantTag(snap: Inputs)
    requires Complete(snap) && Discriminant(snap).Some? && Discriminant(snap).value in KnownTypes
    ensures Resolve(snap).assembly.Some?
    ensures AssemblyTypeName(Resolve(snap).assembly.value.kind)
            == ["SmartStorageUnit", "SmartTurret", "SmartGate"][Discriminant(snap).value]
  {
  }

  /** A gate whose link record holds destination id 0 gets the destination
      "0", not `undefined`: a rendering is never empty, so `|| undefined`
      never applies to a present link record. */
  lemma UnlinkedGateRendersZero(snap: Inputs)
    requires Complete(snap) && Discriminant(snap) == Some(2)
    requires snap.gateLink == Some(GateLink(0, false))
    ensures Resolve(snap).assembly.value.kind.gateLink == GateLinkInfo([], false, Some("0"))
  {
  }

  /** Storage unit 42 with capacity 1000 and 250 used. */
  lemma StorageUnitExample(snap: Inputs)
    requires Complete(snap) && snap.smartObjectId == 42
    requires Discriminant(snap) == Some(0)
    requires snap.inventory == Some(Inventory(1000, 250))
    ensures var a := Resolve(snap).assembly.value;
            && a.base.id == "42"
            && AssemblyTypeName(a.kind) == "SmartStorageUnit"
            && a.kind.inventory == InventoryInfo(1000, 250, [], [])
  {
  }

  /** Gate 7 linked to gate 99. */
  lemma GateExample(snap: Inputs)
    requires Complete(snap) && snap.smartObjectId == 7
    requires Discriminant(snap) == Some(2)
    requires snap.gateLink == Some(GateLink(99, true))
    ensures var a := Resolve(snap).assembly.value;
            && a.base.id == "7"
            && AssemblyTypeName(a.kind) == "SmartGate"
            && a.kind.gateLink == GateLinkInfo([], true, Some("99"))
  {
    var a := Resolve(snap).assembly.value;
    var link := a.kind.gateLink;
    Decimal.ParseIsInverse(a.base.id, 7);
    assert Decimal.DigitChar(7) == '7';
    assert Decimal.ToDecimal(7) == "7";
    Decimal.ParseIsInverse(link.destinationGate.value, 99);
    assert Decimal.DigitChar(9) == '9';
    assert Decimal.ToDecimal(9) == "9";
    assert Decimal.ToDecimal(99) == "99";
  }
}
