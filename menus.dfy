/**
 * A restaurant's menus: created, given a new status and removed by an
 * administrator or the owner of the restaurant the menu belongs to.
 */
module Menus {
  import opened Outcomes
  import opened Persistence
  import Access
  import UT = UserTypeEnum
  import MS = MenuStatusEnum
  import MenuEntity

  /**
   * `CreateMenuUseCase.execute`: the restaurant must exist and be the
   * requester's (or the requester an administrator); `Menu.create` then
   * validates the links and the menu is stored under the next id.
   */
  function CreateMenu(db: Db, fileUrl: string, menuUrl: string, status: MS.MenuStatus, restaurantId: int,
                      requesterId: int, requesterType: UT.UserType): (r: (Result<MenuEntity.MenuData>, Db))
    ensures restaurantId !in db.restaurants ==> r == (Err(NotFound(RestaurantResource)), db)
    ensures restaurantId in db.restaurants
            && !Access.CanActOn(requesterType, requesterId, db.restaurants[restaurantId].ownerId)
            ==> r == (Err(Forbidden(NotOwner("restaurante"))), db)
    ensures r.0.Err? ==> r.1 == db
    ensures r.0.Ok? <==> restaurantId in db.restaurants
                         && Access.CanActOn(requesterType, requesterId, db.restaurants[restaurantId].ownerId)
                         && MenuEntity.Create(fileUrl, menuUrl, status, restaurantId).Ok?
    ensures r.0.Ok? ==>
              var m := MenuEntity.Create(fileUrl, menuUrl, status, restaurantId).value;
              r.1 == InsertMenu(db, m) && r.0.value == m.(id := db.nextId)
              && r.0.value.status == status && r.0.value.downloadCount == 0 && r.0.value.restaurantId == restaurantId
  {
    if restaurantId !in db.restaurants then (Err(NotFound(RestaurantResource)), db)
    else if !Access.CanActOn(requesterType, requesterId, db.restaurants[restaurantId].ownerId) then
      (Err(Forbidden(NotOwner("restaurante"))), db)
    else
      match MenuEntity.Create(fileUrl, menuUrl, status, restaurantId)
      case Err(f) => (Err(f), db)
      case Ok(m) => (Ok(m.(id := db.nextId)), InsertMenu(db, m))
  }

  /** The menu after the status setter `updateMenu` chose, if a status was given. */
  function WithStatus(m: MenuEntity.MenuData, status: Option<MS.MenuStatus>): (r: MenuEntity.MenuData)
    ensures status.None? ==> r == m
    ensures status.Some? ==> r == m.(status := status.value)
  {
    match status
    case None => m
    case Some(s) => m.(status := s)
  }

  /**
   * `UpdateMenuUseCase.execute`: the menu and its restaurant must exist and
   * the requester may act on that restaurant; only the status is applied
   * (the links the request carries are ignored).
   */
  function UpdateMenu(db: Db, menuId: int, requesterId: int, requesterType: UT.UserType, status: Option<MS.MenuStatus>)
    : (r: (Result<()>, Db))
    ensures menuId !in db.menus ==> r == (Err(NotFound(MenuResource)), db)
    ensures menuId in db.menus && db.menus[menuId].restaurantId !in db.restaurants
            ==> r == (Err(NotFound(RestaurantResource)), db)
    ensures menuId in db.menus && db.menus[menuId].restaurantId in db.restaurants
            && !Access.CanActOn(requesterType, requesterId, db.restaurants[db.menus[menuId].restaurantId].ownerId)
            ==> r == (Err(Forbidden(NotOwner("menú"))), db)
    ensures r.0.Err? ==> r.1 == db
    ensures r.0.Ok? <==> menuId in db.menus && db.menus[menuId].restaurantId in db.restaurants
                         && Access.CanActOn(requesterType, requesterId, db.restaurants[db.menus[menuId].restaurantId].ownerId)
    ensures r.0.Ok? ==> r.1 == ReplaceMenu(db, WithStatus(db.menus[menuId], status))
    ensures r.0.Ok? && Identified(db) ==> r.1.menus == db.menus[menuId := WithStatus(db.menus[menuId], status)]
  {
    if menuId !in db.menus then (Err(NotFound(MenuResource)), db)
    else
      var m := db.menus[menuId];
      if m.restaurantId !in db.restaurants then (Err(NotFound(RestaurantResource)), db)
      else if !Access.CanActOn(requesterType, requesterId, db.restaurants[m.restaurantId].ownerId) then
        (Err(Forbidden(NotOwner("menú"))), db)
      else (Ok(()), ReplaceMenu(db, WithStatus(m, status)))
  }

  /**
   * The file deletions `deleteMenu` asks the storage for: the menu file,
   * then the menu link unless the first deletion failed (the shared `try`
   * ends at the first failure, and the failure itself is swallowed).
   */
  function RequestedDeletions(m: MenuEntity.MenuData, deleteErrors: map<string, Failure>): (r: seq<string>)
    ensures 1 <= |r| <= 2 && r[0] == m.fileUrl.value
    ensures |r| == 2 <==> m.fileUrl.value !in deleteErrors
    ensures |r| == 2 ==> r[1] == m.menuUrl.value
  {
    if m.fileUrl.value in deleteErrors then [m.fileUrl.value] else [m.fileUrl.value, m.menuUrl.value]
  }

  /**
   * `DeleteMenuUseCase.execute`: after the same checks as `updateMenu` the
   * files are deleted (failures are swallowed) and the record is removed.
   * The third component lists the deletions requested from the storage.
   */
  function DeleteMenu(db: Db, menuId: int, requesterId: int, requesterType: UT.UserType,
                      deleteErrors: map<string, Failure>): (r: (Result<()>, Db, seq<string>))
    ensures menuId !in db.menus ==> r == (Err(NotFound(MenuResource)), db, [])
    ensures menuId in db.menus && db.menus[menuId].restaurantId !in db.restaurants
            ==> r == (Err(NotFound(RestaurantResource)), db, [])
    ensures menuId in db.menus && db.menus[menuId].restaurantId in db.restaurants
            && !Access.CanActOn(requesterType, requesterId, db.restaurants[db.menus[menuId].restaurantId].ownerId)
            ==> r == (Err(Forbidden(NotOwner("menú"))), db, [])
    ensures r.0.Err? ==> r.1 == db && r.2 == []
    ensures r.0.Ok? <==> menuId in db.menus && db.menus[menuId].restaurantId in db.restaurants
                         && Access.CanActOn(requesterType, requesterId, db.restaurants[db.menus[menuId].restaurantId].ownerId)
    ensures r.0.Ok? ==> r.1 == RemoveMenu(db, menuId) && menuId !in r.1.menus
                        && r.2 == RequestedDeletions(db.menus[menuId], deleteErrors)
  {
    if menuId !in db.menus then (Err(NotFound(MenuResource)), db, [])
    else
      var m := db.menus[menuId];
      if m.restaurantId !in db.restaurants then (Err(NotFound(RestaurantResource)), db, [])
      else if !Access.CanActOn(requesterType, requesterId, db.restaurants[m.restaurantId].ownerId) then
        (Err(Forbidden(NotOwner("menú"))), db, [])
      else (Ok(()), RemoveMenu(db, menuId), RequestedDeletions(m, deleteErrors))
  }

  class CreateMenuUseCase {
    const store: Store

    constructor (store: Store)
      ensures this.store == store
    {
      this.store := store;
    }

    method Execute(fileUrl: string, menuUrl: string, status: MS.MenuStatus, restaurantId: int,
                   requesterId: int, requesterType: UT.UserType) returns (r: Result<MenuEntity.MenuData>)
      modifies store
      ensures (r, store.Snap())
              == CreateMenu(old(store.Snap()), fileUrl, menuUrl, status, restaurantId, requesterId, requesterType)
    {
      if restaurantId !in store.restaurants {
        return Err(NotFound(RestaurantResource));
      }
      var restaurant := store.restaurants[restaurantId];
      if requesterType != UT.Admin && restaurant.ownerId != requesterId {
        return Err(Forbidden(NotOwner("restaurante")));
      }
      var menu := MenuEntity.Create(fileUrl, menuUrl, status, restaurantId);
      if menu.Err? {
        return Err(menu.failure);
      }
      var id := store.SaveMenu(menu.value);
      return Ok(menu.value.(id := id));
    }
  }

  class UpdateMenuUseCase {
    const store: Store

    constructor (store: Store)
      ensures this.store == store
    {
      this.store := store;
    }

    method Execute(menuId: int, requesterId: int, requesterType: UT.UserType, status: Option<MS.MenuStatus>)
      returns (r: Result<()>)
      modifies store
      ensures (r, store.Snap()) == UpdateMenu(old(store.Snap()), menuId, requesterId, requesterType, status)
    {
      if menuId !in store.menus {
        return Err(NotFound(MenuResource));
      }
      var menu := new MenuEntity.Menu(store.menus[menuId]);
      if menu.restaurantId !in store.restaurants {
        return Err(NotFound(RestaurantResource));
      }
      var restaurant := store.restaurants[menu.restaurantId];
      if requesterType != UT.Admin && restaurant.ownerId != requesterId {
        return Err(Forbidden(NotOwner("menú")));
      }
      if status.Some? {
        match status.value
        case Active => menu.Activate();
        case Inactive => menu.Deactivate();
        case Pending => menu.SetToPending();
        case Revision => menu.SetToRevision();
      }
      store.UpdateMenu(menu.Data());
      return Ok(());
    }
  }

  class DeleteMenuUseCase {
    const store: Store

    constructor (store: Store)
      ensures this.store == store
    {
      this.store := store;
    }

    /** `deletions` is what was asked of the file storage, in order. */
    method Execute(menuId: int, requesterId: int, requesterType: UT.UserType, deleteErrors: map<string, Failure>)
      returns (r: Result<()>, deletions: seq<string>)
      modifies store
      ensures (r, store.Snap(), deletions) == DeleteMenu(old(store.Snap()), menuId, requesterId, requesterType, deleteErrors)
    {
      deletions := [];
      if menuId !in store.menus {
        return Err(NotFound(MenuResource)), deletions;
      }
      var menu := store.menus[menuId];
      if menu.restaurantId !in store.restaurants {
        return Err(NotFound(RestaurantResource)), deletions;
      }
      var restaurant := store.restaurants[menu.restaurantId];
      if requesterType != UT.Admin && restaurant.ownerId != requesterId {
        return Err(Forbidden(NotOwner("menú"))), deletions;
      }
      deletions := deletions + [menu.fileUrl.value];
      if menu.fileUrl.value !in deleteErrors {
        deletions := deletions + [menu.menuUrl.value];
      }
      assert deletions == RequestedDeletions(menu, deleteErrors);
      store.DeleteMenu(menuId);
      return Ok(()), deletions;
    }
  }

  /**
   * A menu put into ACTIVE by `updateMenu` is then the one a download of its
   * restaurant can find.
   */
  lemma ActivatedMenuIsDownloadable(db: Db, menuId: int, requesterId: int, requesterType: UT.UserType)
    requires IdsBelowNext(db) && Identified(db)
    requires UpdateMenu(db, menuId, requesterId, requesterType, Some(MS.Active)).0.Ok?
    ensures FindActiveMenu(UpdateMenu(db, menuId, requesterId, requesterType, Some(MS.Active)).1,
                           db.menus[menuId].restaurantId).Some?
  {
    var after := UpdateMenu(db, menuId, requesterId, requesterType, Some(MS.Active)).1;
    assert after.menus == db.menus[menuId := db.menus[menuId].(status := MS.Active)];
    assert after.menus.Keys == db.menus.Keys;
    assert IdsBelowNext(after);
    assert after.menus[menuId].status == MS.Active;
  }

  /** Setting the same status twice stores the same as setting it once. */
  lemma UpdateMenuIdempotent(db: Db, menuId: int, requesterId: int, requesterType: UT.UserType,
                             status: Option<MS.MenuStatus>)
    requires Identified(db)
    requires UpdateMenu(db, menuId, requesterId, requesterType, status).0.Ok?
    ensures var once := UpdateMenu(db, menuId, requesterId, requesterType, status).1;
            UpdateMenu(once, menuId, requesterId, requesterType, status) == (Ok(()), once)
  {
    var once := UpdateMenu(db, menuId, requesterId, requesterType, status).1;
    var m := WithStatus(db.menus[menuId], status);
    assert once.menus == db.menus[menuId := m];
    assert WithStatus(m, status) == m;
    assert once.menus[menuId := m] == once.menus;
  }

  /**
   * Whether deleting the files fails changes neither the outcome nor the
   * store: `deleteMenu` swallows those failures.
   */
  lemma DeleteMenuIgnoresStorageFailures(db: Db, menuId: int, requesterId: int, requesterType: UT.UserType,
                                         errors: map<string, Failure>, otherErrors: map<string, Failure>)
    ensures DeleteMenu(db, menuId, requesterId, requesterType, errors).0
            == DeleteMenu(db, menuId, requesterId, requesterType, otherErrors).0
    ensures DeleteMenu(db, menuId, requesterId, requesterType, errors).1
            == DeleteMenu(db, menuId, requesterId, requesterType, otherErrors).1
  {
  }
}
