/**
 * Zones group restaurants. A zone's name is looked up exactly as the
 * request spells it, while `Zone` stores it trimmed.
 */
module Zones {
  import opened Outcomes
  import opened Persistence
  import Text
  import Access
  import UT = UserTypeEnum
  import ZoneEntity

  /** No two stored zones carry the same name. */
  predicate NamesUnique(db: Db)
  {
    forall a, b :: a in db.zones && b in db.zones && db.zones[a].name == db.zones[b].name ==> a == b
  }

  /** Every restaurant that is assigned a zone is assigned a stored one. */
  predicate ZonesAssigned(db: Db)
  {
    forall id :: id in db.restaurants && id in db.zoneOf ==> db.zoneOf[id] in db.zones
  }

  /**
   * `CreateZoneUseCase.execute`: a zone found under the requested name is a
   * conflict; otherwise `Zone.create` validates and the zone is stored.
   */
  function CreateZone(db: Db, name: string, ownerId: int): (r: (Result<ZoneEntity.ZoneData>, Db))
    ensures FindZoneByName(db, name).Some? ==> r == (Err(Conflict(DuplicateZone)), db)
    ensures r.0.Err? ==> r.1 == db
    ensures r.0.Ok? <==> FindZoneByName(db, name).None? && ZoneEntity.Create(name, ownerId).Ok?
    ensures r.0.Ok? ==> r.1 == InsertZone(db, ZoneEntity.ZoneData(0, Text.Trim(name), ownerId))
                        && r.0.value == ZoneEntity.ZoneData(db.nextId, Text.Trim(name), ownerId)
  {
    if FindZoneByName(db, name).Some? then (Err(Conflict(DuplicateZone)), db)
    else
      match ZoneEntity.Create(name, ownerId)
      case Err(f) => (Err(f), db)
      case Ok(z) => (Ok(z.(id := db.nextId)), InsertZone(db, z))
  }

  /**
   * `UpdateZoneUseCase.execute`: the zone must exist and the requester may
   * act on it; another zone found under the new name is a conflict (the
   * zone's own name is not); then `updateName` trims and checks the name.
   */
  function UpdateZone(db: Db, zoneId: int, requesterId: int, requesterType: UT.UserType, name: string)
    : (r: (Result<()>, Db))
    ensures zoneId !in db.zones ==> r == (Err(NotFound(ZoneResource)), db)
    ensures zoneId in db.zones && !Access.CanActOn(requesterType, requesterId, db.zones[zoneId].ownerId)
            ==> r == (Err(Forbidden(NotOwner("zona"))), db)
    ensures (zoneId in db.zones && Access.CanActOn(requesterType, requesterId, db.zones[zoneId].ownerId)
             && FindZoneByName(db, name).Some? && FindZoneByName(db, name).value != zoneId)
            ==> r == (Err(Conflict(DuplicateZone)), db)
    ensures r.0.Err? ==> r.1 == db
    ensures r.0.Ok? <==> zoneId in db.zones && Access.CanActOn(requesterType, requesterId, db.zones[zoneId].ownerId)
                         && (FindZoneByName(db, name).None? || FindZoneByName(db, name).value == zoneId)
                         && Text.Utf16Length(Text.Trim(name)) >= 3
    ensures r.0.Ok? ==> r.1 == ReplaceZone(db, db.zones[zoneId].(name := Text.Trim(name)))
    ensures r.0.Ok? && Identified(db) ==> r.1.zones == db.zones[zoneId := db.zones[zoneId].(name := Text.Trim(name))]
  {
    if zoneId !in db.zones then (Err(NotFound(ZoneResource)), db)
    else
      var z := db.zones[zoneId];
      if !Access.CanActOn(requesterType, requesterId, z.ownerId) then (Err(Forbidden(NotOwner("zona"))), db)
      else if FindZoneByName(db, name).Some? && FindZoneByName(db, name).value != zoneId then
        (Err(Conflict(DuplicateZone)), db)
      else if Text.Utf16Length(Text.Trim(name)) < 3 then (Err(Failed(ZoneEntity.NameTooShort)), db)
      else (Ok(()), ReplaceZone(db, z.(name := Text.Trim(name))))
  }

  /**
   * `DeleteZoneUseCase.execute`: the zone must exist, the requester may act
   * on it, and no restaurant may still be assigned to it.
   */
  function DeleteZone(db: Db, zoneId: int, requesterId: int, requesterType: UT.UserType): (r: (Result<()>, Db))
    ensures zoneId !in db.zones ==> r == (Err(NotFound(ZoneResource)), db)
    ensures zoneId in db.zones && !Access.CanActOn(requesterType, requesterId, db.zones[zoneId].ownerId)
            ==> r == (Err(Forbidden(NotOwner("zona"))), db)
    ensures (zoneId in db.zones && Access.CanActOn(requesterType, requesterId, db.zones[zoneId].ownerId)
             && ZoneInUse(db, zoneId))
            ==> r == (Err(Conflict(ResourceInUse)), db)
    ensures r.0.Err? ==> r.1 == db
    ensures r.0.Ok? <==> zoneId in db.zones && Access.CanActOn(requesterType, requesterId, db.zones[zoneId].ownerId)
                         && !ZoneInUse(db, zoneId)
    ensures r.0.Ok? ==> r.1 == RemoveZone(db, zoneId) && zoneId !in r.1.zones
  {
    if zoneId !in db.zones then (Err(NotFound(ZoneResource)), db)
    else if !Access.CanActOn(requesterType, requesterId, db.zones[zoneId].ownerId) then
      (Err(Forbidden(NotOwner("zona"))), db)
    else if ZoneInUse(db, zoneId) then (Err(Conflict(ResourceInUse)), db)
    else (Ok(()), RemoveZone(db, zoneId))
  }

  class CreateZoneUseCase {
    const store: Store

    constructor (store: Store)
      ensures this.store == store
    {
      this.store := store;
    }

    method Execute(name: string, ownerId: int) returns (r: Result<ZoneEntity.ZoneData>)
      modifies store
      ensures (r, store.Snap()) == CreateZone(old(store.Snap()), name, ownerId)
    {
      if FindZoneByName(store.Snap(), name).Some? {
        return Err(Conflict(DuplicateZone));
      }
      var zone := ZoneEntity.Create(name, ownerId);
      if zone.Err? {
        return Err(zone.failure);
      }
      var id := store.SaveZone(zone.value);
      return Ok(zone.value.(id := id));
    }
  }

  class UpdateZoneUseCase {
    const store: Store

    constructor (store: Store)
      ensures this.store == store
    {
      this.store := store;
    }

    method Execute(zoneId: int, requesterId: int, requesterType: UT.UserType, name: string) returns (r: Result<()>)
      modifies store
      ensures (r, store.Snap()) == UpdateZone(old(store.Snap()), zoneId, requesterId, requesterType, name)
    {
      if zoneId !in store.zones {
        return Err(NotFound(ZoneResource));
      }
      var zone := new ZoneEntity.Zone(store.zones[zoneId]);
      if requesterType != UT.Admin && zone.ownerId != requesterId {
        return Err(Forbidden(NotOwner("zona")));
      }
      var existing := FindZoneByName(store.Snap(), name);
      if existing.Some? && existing.value != zoneId {
        return Err(Conflict(DuplicateZone));
      }
      var renamed := zone.UpdateName(name);
      if renamed.Err? {
        return Err(renamed.failure);
      }
      store.UpdateZone(zone.Data());
      return Ok(());
    }
  }

  class DeleteZoneUseCase {
    const store: Store

    constructor (store: Store)
      ensures this.store == store
    {
      this.store := store;
    }

    method Execute(zoneId: int, requesterId: int, requesterType: UT.UserType) returns (r: Result<()>)
      modifies store
      ensures (r, store.Snap()) == DeleteZone(old(store.Snap()), zoneId, requesterId, requesterType)
    {
      if zoneId !in store.zones {
        return Err(NotFound(ZoneResource));
      }
      var zone := store.zones[zoneId];
      if requesterType != UT.Admin && zone.ownerId != requesterId {
        return Err(Forbidden(NotOwner("zona")));
      }
      if ZoneInUse(store.Snap(), zoneId) {
        return Err(Conflict(ResourceInUse));
      }
      store.DeleteZone(zoneId);
      return Ok(());
    }
  }

  /** Creating a zone under an already trimmed name keeps zone names unique. */
  lemma CreateKeepsNamesUnique(db: Db, name: string, ownerId: int)
    requires IdsBelowNext(db) && NamesUnique(db)
    requires Text.Trim(name) == name
    ensures NamesUnique(CreateZone(db, name, ownerId).1)
  {
    var r := CreateZone(db, name, ownerId);
    if r.0.Ok? {
      var id := db.nextId;
      assert id !in db.zones;
      assert forall z :: z in db.zones ==> db.zones[z].name != name;
      assert r.1.zones == db.zones[id := ZoneEntity.ZoneData(id, name, ownerId)];
    }
  }

  /** Every stored zone name is already trimmed, as `Zone` leaves it. */
  predicate NamesTrimmed(db: Db)
  {
    forall id {:trigger Text.Trim(db.zones[id].name)} :: id in db.zones ==> Text.Trim(db.zones[id].name) == db.zones[id].name
  }

  /**
   * The uniqueness check looks for the name as requested, but the zone
   * stores it trimmed: a request that pads an existing zone's name with
   * blanks passes the check and creates a second zone with that name.
   */
  lemma PaddedNameDuplicates(db: Db, zoneId: int, padded: string, ownerId: int)
    requires IdsBelowNext(db) && NamesTrimmed(db)
    requires zoneId in db.zones && |db.zones[zoneId].name| >= 3 && ownerId > 0
    requires Text.Trim(padded) == db.zones[zoneId].name && padded != db.zones[zoneId].name
    ensures CreateZone(db, padded, ownerId).0.Ok?
    ensures !NamesUnique(CreateZone(db, padded, ownerId).1)
  {
    NoZoneNamed(db, padded);
    var r := CreateZone(db, padded, ownerId);
    assert r.1 == InsertZone(db, ZoneEntity.ZoneData(0, db.zones[zoneId].name, ownerId));
    InsertSameName(db, zoneId, ZoneEntity.ZoneData(0, db.zones[zoneId].name, ownerId));
  }

  /**
   * `CreateZone` as evidently intended: the duplicate check looks for the
   * name as it will be stored, trimmed.
   */
  function CreateZoneChecked(db: Db, name: string, ownerId: int): (r: (Result<ZoneEntity.ZoneData>, Db))
    ensures FindZoneByName(db, Text.Trim(name)).Some? ==> r == (Err(Conflict(DuplicateZone)), db)
    ensures r.0.Err? ==> r.1 == db
    ensures r.0.Ok? <==> FindZoneByName(db, Text.Trim(name)).None? && ZoneEntity.Create(name, ownerId).Ok?
    ensures r.0.Ok? ==> r.1 == InsertZone(db, ZoneEntity.ZoneData(0, Text.Trim(name), ownerId))
  {
    if FindZoneByName(db, Text.Trim(name)).Some? then (Err(Conflict(DuplicateZone)), db)
    else
      match ZoneEntity.Create(name, ownerId)
      case Err(f) => (Err(f), db)
      case Ok(z) => (Ok(z.(id := db.nextId)), InsertZone(db, z))
  }

  /** The corrected creation keeps zone names unique whatever name is requested, padded or not. */
  lemma CreateZoneCheckedKeepsNamesUnique(db: Db, name: string, ownerId: int)
    requires IdsBelowNext(db) && NamesUnique(db)
    ensures NamesUnique(CreateZoneChecked(db, name, ownerId).1)
  {
    var r := CreateZoneChecked(db, name, ownerId);
    if r.0.Ok? {
      var id := db.nextId;
      assert id !in db.zones;
      assert forall z :: z in db.zones ==> db.zones[z].name != Text.Trim(name);
      assert r.1.zones == db.zones[id := ZoneEntity.ZoneData(id, Text.Trim(name), ownerId)];
    }
  }

  lemma NoZoneNamed(db: Db, padded: string)
    requires IdsBelowNext(db) && NamesTrimmed(db) && Text.Trim(padded) != padded
    ensures FindZoneByName(db, padded).None?
  {
    forall id | id in db.zones
      ensures db.zones[id].name != padded
    {
      assert Text.Trim(db.zones[id].name) == db.zones[id].name;
    }
  }

  lemma InsertSameName(db: Db, zoneId: int, z: ZoneEntity.ZoneData)
    requires IdsBelowNext(db) && zoneId in db.zones && z.name == db.zones[zoneId].name
    ensures !NamesUnique(InsertZone(db, z))
  {
    var after := InsertZone(db, z);
    assert db.nextId !in db.zones;
    assert after.zones[db.nextId].name == after.zones[zoneId].name;
  }

  /**
   * Renaming a zone to the name it already has is not a conflict, whoever
   * else's zones exist, as long as names are unique.
   */
  lemma RenameToOwnNameAllowed(db: Db, zoneId: int, requesterId: int, requesterType: UT.UserType)
    requires IdsBelowNext(db) && NamesUnique(db)
    requires zoneId in db.zones && Access.CanActOn(requesterType, requesterId, db.zones[zoneId].ownerId)
    requires Text.Utf16Length(Text.Trim(db.zones[zoneId].name)) >= 3
    ensures UpdateZone(db, zoneId, requesterId, requesterType, db.zones[zoneId].name).0.Ok?
  {
    var name := db.zones[zoneId].name;
    var found := FindZoneByName(db, name);
    assert found.Some? by {
      assert !(forall id :: id in db.zones ==> db.zones[id].name != name);
    }
    assert found.value == zoneId;
  }

  /** Renaming to a trimmed name no other zone carries keeps zone names unique. */
  lemma UpdateKeepsNamesUnique(db: Db, zoneId: int, requesterId: int, requesterType: UT.UserType, name: string)
    requires IdsBelowNext(db) && Identified(db) && NamesUnique(db)
    requires Text.Trim(name) == name
    ensures NamesUnique(UpdateZone(db, zoneId, requesterId, requesterType, name).1)
  {
    var r := UpdateZone(db, zoneId, requesterId, requesterType, name);
    if r.0.Ok? {
      var found := FindZoneByName(db, name);
      forall z | z in db.zones && z != zoneId
        ensures db.zones[z].name != name
      {
        if found.None? {
          assert forall id :: id in db.zones ==> db.zones[id].name != name;
        } else {
          assert found.value == zoneId;
          assert db.zones[zoneId].name == name;
        }
      }
      assert r.1.zones == db.zones[zoneId := db.zones[zoneId].(name := name)];
    }
  }

  /** A zone is created with its name trimmed, so stored names stay trimmed. */
  lemma CreateKeepsNamesTrimmed(db: Db, name: string, ownerId: int)
    requires NamesTrimmed(db)
    ensures NamesTrimmed(CreateZone(db, name, ownerId).1)
  {
    var r := CreateZone(db, name, ownerId);
    if r.0.Ok? {
      Text.TrimIdempotent(name);
      assert r.1.zones == db.zones[db.nextId := ZoneEntity.ZoneData(db.nextId, Text.Trim(name), ownerId)];
      TrimmedWith(db, r.1, db.nextId, ZoneEntity.ZoneData(db.nextId, Text.Trim(name), ownerId));
    }
  }

  /** A zone is renamed to the trimmed name, so stored names stay trimmed. */
  lemma UpdateKeepsNamesTrimmed(db: Db, zoneId: int, requesterId: int, requesterType: UT.UserType, name: string)
    requires NamesTrimmed(db)
    ensures NamesTrimmed(UpdateZone(db, zoneId, requesterId, requesterType, name).1)
  {
    var r := UpdateZone(db, zoneId, requesterId, requesterType, name);
    if r.0.Ok? {
      Text.TrimIdempotent(name);
      var z := db.zones[zoneId].(name := Text.Trim(name));
      assert r.1.zones == db.zones[z.id := z];
      TrimmedWith(db, r.1, z.id, z);
    }
  }

  /** Storing one zone with a trimmed name, under its key, keeps stored names trimmed. */
  lemma TrimmedWith(db: Db, after: Db, k: int, z: ZoneEntity.ZoneData)
    requires NamesTrimmed(db) && Text.Trim(z.name) == z.name
    requires after.zones == db.zones[k := z]
    ensures NamesTrimmed(after)
  {
    forall id | id in after.zones
      ensures Text.Trim(after.zones[id].name) == after.zones[id].name
    {
      if id != k {
        assert after.zones[id] == db.zones[id];
      }
    }
  }

  /** A zone is deleted only once no restaurant is assigned to it, so every assignment still names a stored zone. */
  lemma DeleteKeepsZonesAssigned(db: Db, zoneId: int, requesterId: int, requesterType: UT.UserType)
    requires ZonesAssigned(db)
    ensures ZonesAssigned(DeleteZone(db, zoneId, requesterId, requesterType).1)
  {
    var r := DeleteZone(db, zoneId, requesterId, requesterType);
    if r.0.Ok? {
      forall id | id in r.1.restaurants && id in r.1.zoneOf
        ensures r.1.zoneOf[id] in r.1.zones
      {
        assert db.zoneOf[id] != zoneId;
      }
    }
  }
}
