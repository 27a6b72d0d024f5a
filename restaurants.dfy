/**
 * Editing and removing a restaurant: only an administrator or the
 * restaurant's owner may do either.
 */
module Restaurants {
  import opened Outcomes
  import opened Persistence
  import Access
  import UT = UserTypeEnum
  import RestaurantEntity

  /**
   * `UpdateRestaurantUseCase.execute`: after the existence and ownership
   * checks, `updateInfo` assigns the supplied fields; if it throws, nothing
   * is stored, otherwise the edited record replaces the stored one.
   */
  function UpdateRestaurant(db: Db, restaurantId: int, requesterId: int, requesterType: UT.UserType,
                            u: RestaurantEntity.InfoUpdate, parse: RestaurantEntity.UrlParser)
    : (r: (Result<()>, Db))
    ensures restaurantId !in db.restaurants ==> r == (Err(NotFound(RestaurantResource)), db)
    ensures restaurantId in db.restaurants
            && !Access.CanActOn(requesterType, requesterId, db.restaurants[restaurantId].ownerId)
            ==> r == (Err(Forbidden(NotOwner("restaurante"))), db)
    ensures r.0.Err? ==> r.1 == db
    ensures r.0.Ok? <==> restaurantId in db.restaurants
                         && Access.CanActOn(requesterType, requesterId, db.restaurants[restaurantId].ownerId)
                         && RestaurantEntity.ApplyInfo(db.restaurants[restaurantId], u, parse).0.Ok?
    ensures r.0.Ok? ==> r.1 == ReplaceRestaurant(db, RestaurantEntity.ApplyInfo(db.restaurants[restaurantId], u, parse).1)
    ensures r.0.Ok? ==>
              var d := db.restaurants[restaurantId];
              var e := RestaurantEntity.ApplyInfo(d, u, parse).1;
              e.id == d.id && e.ownerId == d.ownerId && e.applicationId == d.applicationId && e.likesCount == d.likesCount
  {
    if restaurantId !in db.restaurants then (Err(NotFound(RestaurantResource)), db)
    else
      var d := db.restaurants[restaurantId];
      if !Access.CanActOn(requesterType, requesterId, d.ownerId) then (Err(Forbidden(NotOwner("restaurante"))), db)
      else
        var (res, edited) := RestaurantEntity.ApplyInfo(d, u, parse);
        if res.Err? then (Err(res.failure), db)
        else (Ok(()), ReplaceRestaurant(db, edited))
  }

  /**
   * `DeleteRestaurantUseCase.execute`: the record is removed; its menus,
   * favorites and files are left as they are.
   */
  function DeleteRestaurant(db: Db, restaurantId: int, requesterId: int, requesterType: UT.UserType)
    : (r: (Result<()>, Db))
    ensures restaurantId !in db.restaurants ==> r == (Err(NotFound(RestaurantResource)), db)
    ensures restaurantId in db.restaurants
            && !Access.CanActOn(requesterType, requesterId, db.restaurants[restaurantId].ownerId)
            ==> r == (Err(Forbidden(NotOwner("restaurante"))), db)
    ensures r.0.Err? ==> r.1 == db
    ensures r.0.Ok? <==> restaurantId in db.restaurants
                         && Access.CanActOn(requesterType, requesterId, db.restaurants[restaurantId].ownerId)
    ensures r.0.Ok? ==> r.1 == RemoveRestaurant(db, restaurantId) && restaurantId !in r.1.restaurants
  {
    if restaurantId !in db.restaurants then (Err(NotFound(RestaurantResource)), db)
    else if !Access.CanActOn(requesterType, requesterId, db.restaurants[restaurantId].ownerId) then
      (Err(Forbidden(NotOwner("restaurante"))), db)
    else (Ok(()), RemoveRestaurant(db, restaurantId))
  }

  class UpdateRestaurantUseCase {
    const store: Store

    constructor (store: Store)
      ensures this.store == store
    {
      this.store := store;
    }

    method Execute(restaurantId: int, requesterId: int, requesterType: UT.UserType,
                   u: RestaurantEntity.InfoUpdate, parse: RestaurantEntity.UrlParser) returns (r: Result<()>)
      modifies store
      ensures (r, store.Snap()) == UpdateRestaurant(old(store.Snap()), restaurantId, requesterId, requesterType, u, parse)
    {
      if restaurantId !in store.restaurants {
        return Err(NotFound(RestaurantResource));
      }
      var restaurant := new RestaurantEntity.Restaurant(store.restaurants[restaurantId]);
      if requesterType != UT.Admin && restaurant.ownerId != requesterId {
        return Err(Forbidden(NotOwner("restaurante")));
      }
      var edited := restaurant.UpdateInfo(u, parse);
      if edited.Err? {
        return Err(edited.failure);
      }
      store.UpdateRestaurant(restaurant.Data());
      return Ok(());
    }
  }

  class DeleteRestaurantUseCase {
    const store: Store

    constructor (store: Store)
      ensures this.store == store
    {
      this.store := store;
    }

    method Execute(restaurantId: int, requesterId: int, requesterType: UT.UserType) returns (r: Result<()>)
      modifies store
      ensures (r, store.Snap()) == DeleteRestaurant(old(store.Snap()), restaurantId, requesterId, requesterType)
    {
      if restaurantId !in store.restaurants {
        return Err(NotFound(RestaurantResource));
      }
      var restaurant := store.restaurants[restaurantId];
      if requesterType != UT.Admin && restaurant.ownerId != requesterId {
        return Err(Forbidden(NotOwner("restaurante")));
      }
      store.DeleteRestaurant(restaurantId);
      return Ok(());
    }
  }

  /**
   * Editing a restaurant's information never touches its like counter, so
   * counters that matched the favorites still match afterwards.
   */
  lemma UpdateKeepsLikesConsistent(db: Db, restaurantId: int, requesterId: int, requesterType: UT.UserType,
                                   u: RestaurantEntity.InfoUpdate, parse: RestaurantEntity.UrlParser)
    requires Identified(db) && LikesConsistent(db)
    ensures LikesConsistent(UpdateRestaurant(db, restaurantId, requesterId, requesterType, u, parse).1)
  {
    var r := UpdateRestaurant(db, restaurantId, requesterId, requesterType, u, parse);
    if r.0.Ok? {
      var e := RestaurantEntity.ApplyInfo(db.restaurants[restaurantId], u, parse).1;
      assert e.id == restaurantId;
      assert r.1.restaurants == db.restaurants[restaurantId := e];
      forall id | id in r.1.restaurants
        ensures r.1.restaurants[id].likesCount == |FavoritesOf(r.1.favorites, id)|
      {
        assert id in db.restaurants;
      }
    }
  }

  /**
   * An update that supplies no field at all, by an allowed requester,
   * succeeds and leaves the whole store as it was.
   */
  lemma {:induction false} EmptyUpdateChangesNothing(db: Db, restaurantId: int, requesterId: int,
                                                     requesterType: UT.UserType, parse: RestaurantEntity.UrlParser)
    requires Identified(db)
    requires restaurantId in db.restaurants
    requires Access.CanActOn(requesterType, requesterId, db.restaurants[restaurantId].ownerId)
    ensures UpdateRestaurant(db, restaurantId, requesterId, requesterType,
                             RestaurantEntity.InfoUpdate(None, None, None, None, None, None, None), parse)
            == (Ok(()), db)
  {
    var u := RestaurantEntity.InfoUpdate(None, None, None, None, None, None, None);
    var d := db.restaurants[restaurantId];
    var (res, e) := RestaurantEntity.ApplyInfo(d, u, parse);
    assert e == d;
    assert res.Ok?;
    assert db.restaurants[restaurantId := d] == db.restaurants;
  }
}
