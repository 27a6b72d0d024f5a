/**
 * The repositories the use cases talk to, realised as one in-memory store.
 *
 * Every repository of the backend becomes a field of `Store`: a map from
 * id to the persisted fields of an entity, a set of user ids for the
 * administrator and restaurant-owner role records, and a set of
 * (client, restaurant) pairs for the favorites. `save` assigns the next
 * free id, shared by all tables. `Db` is the value of the whole store; the
 * use cases are specified as functions from one `Db` to the next.
 */
module Persistence {
  import opened Outcomes
  import ApplicationEntity
  import RestaurantEntity
  import MenuEntity
  import UserPhotoEntity
  import DocumentEntity
  import ImageEntity
  import ZoneEntity
  import UserEntity
  import ClientEntity
  import SurveyEntity
  import MS = MenuStatusEnum
  import AS = ApplicationStatusEnum

  /** A favorite: client `clientId` likes restaurant `restaurantId`. */
  datatype Like = Like(clientId: int, restaurantId: int)

  datatype Db = Db(
    users: map<int, UserEntity.UserData>,
    admins: set<int>,
    owners: set<int>,
    clients: map<int, ClientEntity.ClientData>,
    applications: map<int, ApplicationEntity.ApplicationData>,
    restaurants: map<int, RestaurantEntity.RestaurantData>,
    /** The zone each restaurant belongs to, as `findByZoneId` sees it. */
    zoneOf: map<int, int>,
    favorites: set<Like>,
    menus: map<int, MenuEntity.MenuData>,
    photos: map<int, UserPhotoEntity.UserPhoto>,
    documents: map<int, DocumentEntity.DocumentData>,
    images: map<int, ImageEntity.Image>,
    zones: map<int, ZoneEntity.ZoneData>,
    surveys: map<int, SurveyEntity.SurveyData>,
    nextId: int)

  /** The store the repositories share; each use case reassigns the fields it writes. */
  class Store {
    var users: map<int, UserEntity.UserData>
    var admins: set<int>
    var owners: set<int>
    var clients: map<int, ClientEntity.ClientData>
    var applications: map<int, ApplicationEntity.ApplicationData>
    var restaurants: map<int, RestaurantEntity.RestaurantData>
    var zoneOf: map<int, int>
    var favorites: set<Like>
    var menus: map<int, MenuEntity.MenuData>
    var photos: map<int, UserPhotoEntity.UserPhoto>
    var documents: map<int, DocumentEntity.DocumentData>
    var images: map<int, ImageEntity.Image>
    var zones: map<int, ZoneEntity.ZoneData>
    var surveys: map<int, SurveyEntity.SurveyData>
    var nextId: int

    /** An empty store; the first saved record gets id 1. */
    constructor ()
      ensures Snap() == EmptyDb
      ensures WellFormed(Snap())
    {
      users, admins, owners, clients := map[], {}, {}, map[];
      applications, restaurants, zoneOf, favorites := map[], map[], map[], {};
      menus, photos, documents, images := map[], map[], map[], map[];
      zones, surveys, nextId := map[], map[], 1;
    }

    function Snap(): Db
      reads this
    {
      Db(users, admins, owners, clients, applications, restaurants, zoneOf, favorites,
         menus, photos, documents, images, zones, surveys, nextId)
    }

    // The repository operations the use cases call, one per table and verb.

    method SaveApplication(a: ApplicationEntity.ApplicationData) returns (id: int)
      modifies this
      ensures id == old(nextId)
      ensures Snap() == InsertApplication(old(Snap()), a)
    {
      id := nextId;
      applications := applications[id := a.(id := id)];
      nextId := id + 1;
    }

    method UpdateApplication(a: ApplicationEntity.ApplicationData)
      modifies this
      ensures Snap() == ReplaceApplication(old(Snap()), a)
    {
      applications := applications[a.id := a];
    }

    method SaveRestaurant(d: RestaurantEntity.RestaurantData) returns (id: int)
      modifies this
      ensures id == old(nextId)
      ensures Snap() == InsertRestaurant(old(Snap()), d)
    {
      id := nextId;
      restaurants := restaurants[id := d.(id := id)];
      nextId := id + 1;
    }

    method UpdateRestaurant(d: RestaurantEntity.RestaurantData)
      modifies this
      ensures Snap() == ReplaceRestaurant(old(Snap()), d)
    {
      restaurants := restaurants[d.id := d];
    }

    method DeleteRestaurant(id: int)
      modifies this
      ensures Snap() == RemoveRestaurant(old(Snap()), id)
    {
      restaurants := restaurants - {id};
    }

    method SaveMenu(m: MenuEntity.MenuData) returns (id: int)
      modifies this
      ensures id == old(nextId)
      ensures Snap() == InsertMenu(old(Snap()), m)
    {
      id := nextId;
      menus := menus[id := m.(id := id)];
      nextId := id + 1;
    }

    method UpdateMenu(m: MenuEntity.MenuData)
      modifies this
      ensures Snap() == ReplaceMenu(old(Snap()), m)
    {
      menus := menus[m.id := m];
    }

    method DeleteMenu(id: int)
      modifies this
      ensures Snap() == RemoveMenu(old(Snap()), id)
    {
      menus := menus - {id};
    }

    method SavePhoto(p: UserPhotoEntity.UserPhoto) returns (id: int)
      modifies this
      ensures id == old(nextId)
      ensures Snap() == InsertPhoto(old(Snap()), p)
    {
      id := nextId;
      photos := photos[id := p.(id := id)];
      nextId := id + 1;
    }

    method DeletePhoto(id: int)
      modifies this
      ensures Snap() == RemovePhoto(old(Snap()), id)
    {
      photos := photos - {id};
    }

    method SaveDocument(d: DocumentEntity.DocumentData) returns (id: int)
      modifies this
      ensures id == old(nextId)
      ensures Snap() == InsertDocument(old(Snap()), d)
    {
      id := nextId;
      documents := documents[id := d.(id := id)];
      nextId := id + 1;
    }

    method DeleteDocument(id: int)
      modifies this
      ensures Snap() == RemoveDocument(old(Snap()), id)
    {
      documents := documents - {id};
    }

    method SaveImage(i: ImageEntity.Image) returns (id: int)
      modifies this
      ensures id == old(nextId)
      ensures Snap() == InsertImage(old(Snap()), i)
    {
      id := nextId;
      images := images[id := i.(id := id)];
      nextId := id + 1;
    }

    method DeleteImage(id: int)
      modifies this
      ensures Snap() == RemoveImage(old(Snap()), id)
    {
      images := images - {id};
    }

    method SaveZone(z: ZoneEntity.ZoneData) returns (id: int)
      modifies this
      ensures id == old(nextId)
      ensures Snap() == InsertZone(old(Snap()), z)
    {
      id := nextId;
      zones := zones[id := z.(id := id)];
      nextId := id + 1;
    }

    method UpdateZone(z: ZoneEntity.ZoneData)
      modifies this
      ensures Snap() == ReplaceZone(old(Snap()), z)
    {
      zones := zones[z.id := z];
    }

    method DeleteZone(id: int)
      modifies this
      ensures Snap() == RemoveZone(old(Snap()), id)
    {
      zones := zones - {id};
    }

    method SaveUser(u: UserEntity.UserData) returns (id: int)
      modifies this
      ensures id == old(nextId)
      ensures Snap() == InsertUser(old(Snap()), u)
    {
      id := nextId;
      users := users[id := u.(id := id)];
      nextId := id + 1;
    }

    method UpdateUser(u: UserEntity.UserData)
      modifies this
      ensures Snap() == ReplaceUser(old(Snap()), u)
    {
      users := users[u.id := u];
    }

    method DeleteUser(id: int)
      modifies this
      ensures Snap() == RemoveUser(old(Snap()), id)
    {
      users := users - {id};
    }

    method SaveSurvey(s: SurveyEntity.SurveyData) returns (id: int)
      modifies this
      ensures id == old(nextId)
      ensures Snap() == InsertSurvey(old(Snap()), s)
    {
      id := nextId;
      surveys := surveys[id := s.(id := id)];
      nextId := id + 1;
    }

    method SaveClient(c: ClientEntity.ClientData)
      modifies this
      ensures Snap() == ReplaceClient(old(Snap()), c)
    {
      clients := clients[c.userId := c];
    }

    method UpdateClient(c: ClientEntity.ClientData)
      modifies this
      ensures Snap() == ReplaceClient(old(Snap()), c)
    {
      clients := clients[c.userId := c];
    }

    method DeleteClient(userId: int)
      modifies this
      ensures Snap() == RemoveClient(old(Snap()), userId)
    {
      clients := clients - {userId};
    }

    method SaveAdministrator(userId: int)
      modifies this
      ensures Snap() == old(Snap()).(admins := old(admins) + {userId})
    {
      admins := admins + {userId};
    }

    method DeleteAdministrator(userId: int)
      modifies this
      ensures Snap() == old(Snap()).(admins := old(admins) - {userId})
    {
      admins := admins - {userId};
    }

    method SaveRestaurantOwner(userId: int)
      modifies this
      ensures Snap() == old(Snap()).(owners := old(owners) + {userId})
    {
      owners := owners + {userId};
    }

    method DeleteRestaurantOwner(userId: int)
      modifies this
      ensures Snap() == old(Snap()).(owners := old(owners) - {userId})
    {
      owners := owners - {userId};
    }

    method SaveFavorite(l: Like)
      modifies this
      ensures Snap() == old(Snap()).(favorites := old(favorites) + {l})
    {
      favorites := favorites + {l};
    }

    method DeleteFavorite(l: Like)
      modifies this
      ensures Snap() == old(Snap()).(favorites := old(favorites) - {l})
    {
      favorites := favorites - {l};
    }

    /** `menuRepository.incrementDownloadCount`: the stored menu counts one more download. */
    method IncrementDownloadCount(menuId: int)
      requires menuId in menus
      modifies this
      ensures Snap() == CountDownload(old(Snap()), menuId)
    {
      var menu := new MenuEntity.Menu(menus[menuId]);
      menu.IncrementDownloadCount();
      menus := menus[menuId := menu.Data()];
    }

    /** `incrementLikesCount`: the stored counter goes up by one and is returned. */
    method IncrementLikesCount(restaurantId: int) returns (count: int)
      requires restaurantId in restaurants
      modifies this
      ensures count == old(restaurants[restaurantId].likesCount) + 1
      ensures Snap() == SetLikes(old(Snap()), restaurantId, count)
    {
      count := restaurants[restaurantId].likesCount + 1;
      restaurants := restaurants[restaurantId := restaurants[restaurantId].(likesCount := count)];
    }

    /** `decrementLikesCount`: the stored counter goes down by one, never below zero, and is returned. */
    method DecrementLikesCount(restaurantId: int) returns (count: int)
      requires restaurantId in restaurants
      modifies this
      ensures count == RestaurantEntity.Decremented(old(restaurants[restaurantId].likesCount))
      ensures Snap() == SetLikes(old(Snap()), restaurantId, count)
    {
      count := RestaurantEntity.Decremented(restaurants[restaurantId].likesCount);
      restaurants := restaurants[restaurantId := restaurants[restaurantId].(likesCount := count)];
    }
  }

  /** A store with no records, whose first id is 1. */
  const EmptyDb := Db(map[], {}, {}, map[], map[], map[], map[], {}, map[], map[], map[], map[], map[], map[], 1)

  /** `save`: the record is stored under the next id, which is then used up. */
  function InsertApplication(db: Db, a: ApplicationEntity.ApplicationData): Db
  {
    db.(applications := db.applications[db.nextId := a.(id := db.nextId)], nextId := db.nextId + 1)
  }

  /** `update`: the record replaces the one stored under its id. */
  function ReplaceApplication(db: Db, a: ApplicationEntity.ApplicationData): Db
  {
    db.(applications := db.applications[a.id := a])
  }

  /** `save`: the record is stored under the next id, which is then used up. */
  function InsertRestaurant(db: Db, d: RestaurantEntity.RestaurantData): Db
  {
    db.(restaurants := db.restaurants[db.nextId := d.(id := db.nextId)], nextId := db.nextId + 1)
  }

  /** `update`: the record replaces the one stored under its id. */
  function ReplaceRestaurant(db: Db, d: RestaurantEntity.RestaurantData): Db
  {
    db.(restaurants := db.restaurants[d.id := d])
  }

  /** `delete`: the record stored under `id` is removed. */
  function RemoveRestaurant(db: Db, id: int): Db
  {
    db.(restaurants := db.restaurants - {id})
  }

  /** `save`: the record is stored under the next id, which is then used up. */
  function InsertMenu(db: Db, m: MenuEntity.MenuData): Db
  {
    db.(menus := db.menus[db.nextId := m.(id := db.nextId)], nextId := db.nextId + 1)
  }

  /** `update`: the record replaces the one stored under its id. */
  function ReplaceMenu(db: Db, m: MenuEntity.MenuData): Db
  {
    db.(menus := db.menus[m.id := m])
  }

  /** `delete`: the record stored under `id` is removed. */
  function RemoveMenu(db: Db, id: int): Db
  {
    db.(menus := db.menus - {id})
  }

  /** `save`: the record is stored under the next id, which is then used up. */
  function InsertPhoto(db: Db, p: UserPhotoEntity.UserPhoto): Db
  {
    db.(photos := db.photos[db.nextId := p.(id := db.nextId)], nextId := db.nextId + 1)
  }

  /** `delete`: the record stored under `id` is removed. */
  function RemovePhoto(db: Db, id: int): Db
  {
    db.(photos := db.photos - {id})
  }

  /** `save`: the record is stored under the next id, which is then used up. */
  function InsertDocument(db: Db, d: DocumentEntity.DocumentData): Db
  {
    db.(documents := db.documents[db.nextId := d.(id := db.nextId)], nextId := db.nextId + 1)
  }

  /** `delete`: the record stored under `id` is removed. */
  function RemoveDocument(db: Db, id: int): Db
  {
    db.(documents := db.documents - {id})
  }

  /** `save`: the record is stored under the next id, which is then used up. */
  function InsertImage(db: Db, i: ImageEntity.Image): Db
  {
    db.(images := db.images[db.nextId := i.(id := db.nextId)], nextId := db.nextId + 1)
  }

  /** `delete`: the record stored under `id` is removed. */
  function RemoveImage(db: Db, id: int): Db
  {
    db.(images := db.images - {id})
  }

  /** `save`: the record is stored under the next id, which is then used up. */
  function InsertZone(db: Db, z: ZoneEntity.ZoneData): Db
  {
    db.(zones := db.zones[db.nextId := z.(id := db.nextId)], nextId := db.nextId + 1)
  }

  /** `update`: the record replaces the one stored under its id. */
  function ReplaceZone(db: Db, z: ZoneEntity.ZoneData): Db
  {
    db.(zones := db.zones[z.id := z])
  }

  /** `delete`: the record stored under `id` is removed. */
  function RemoveZone(db: Db, id: int): Db
  {
    db.(zones := db.zones - {id})
  }

  /** `save`: the record is stored under the next id, which is then used up. */
  function InsertUser(db: Db, u: UserEntity.UserData): Db
  {
    db.(users := db.users[db.nextId := u.(id := db.nextId)], nextId := db.nextId + 1)
  }

  /** `update`: the record replaces the one stored under its id. */
  function ReplaceUser(db: Db, u: UserEntity.UserData): Db
  {
    db.(users := db.users[u.id := u])
  }

  /** `delete`: the record stored under `id` is removed. */
  function RemoveUser(db: Db, id: int): Db
  {
    db.(users := db.users - {id})
  }

  /** `save`: the record is stored under the next id, which is then used up. */
  function InsertSurvey(db: Db, s: SurveyEntity.SurveyData): Db
  {
    db.(surveys := db.surveys[db.nextId := s.(id := db.nextId)], nextId := db.nextId + 1)
  }

  /** The store after the menu under `menuId` counted one more download. */
  function CountDownload(db: Db, menuId: int): Db
    requires menuId in db.menus
  {
    db.(menus := db.menus[menuId := db.menus[menuId].(downloadCount := db.menus[menuId].downloadCount + 1)])
  }

  /** The store after the restaurant under `restaurantId` has its cached counter set to `count`. */
  function SetLikes(db: Db, restaurantId: int, count: int): Db
    requires restaurantId in db.restaurants
  {
    db.(restaurants := db.restaurants[restaurantId := db.restaurants[restaurantId].(likesCount := count)])
  }

  /** `clientRepository.save`/`update`: clients are keyed by their user id. */
  function ReplaceClient(db: Db, c: ClientEntity.ClientData): Db
  {
    db.(clients := db.clients[c.userId := c])
  }

  /** `clientRepository.delete`. */
  function RemoveClient(db: Db, userId: int): Db
  {
    db.(clients := db.clients - {userId})
  }

  /**
   * Every stored id lies in `[1, nextId)`: a scan up to `nextId` sees every
   * record, and `save` never overwrites one.
   */
  predicate IdsBelowNext(db: Db)
  {
    (forall id :: id in db.users ==> 0 < id < db.nextId)
    && (forall id :: id in db.applications ==> 0 < id < db.nextId)
    && (forall id :: id in db.restaurants ==> 0 < id < db.nextId)
    && (forall id :: id in db.menus ==> 0 < id < db.nextId)
    && (forall id :: id in db.photos ==> 0 < id < db.nextId)
    && (forall id :: id in db.documents ==> 0 < id < db.nextId)
    && (forall id :: id in db.images ==> 0 < id < db.nextId)
    && (forall id :: id in db.zones ==> 0 < id < db.nextId)
    && (forall id :: id in db.surveys ==> 0 < id < db.nextId)
  }

  /** Every record is stored under its own id, as `findById` and `update` assume. */
  predicate Identified(db: Db)
  {
    (forall id :: id in db.users ==> db.users[id].id == id)
    && (forall id :: id in db.clients ==> db.clients[id].userId == id)
    && (forall id :: id in db.applications ==> db.applications[id].id == id)
    && (forall id :: id in db.restaurants ==> db.restaurants[id].id == id)
    && (forall id :: id in db.menus ==> db.menus[id].id == id)
    && (forall id :: id in db.photos ==> db.photos[id].id == id)
    && (forall id :: id in db.documents ==> db.documents[id].id == id)
    && (forall id :: id in db.images ==> db.images[id].id == id)
    && (forall id :: id in db.zones ==> db.zones[id].id == id)
    && (forall id :: id in db.surveys ==> db.surveys[id].id == id)
  }

  /** The shape every store reached from the empty one keeps. */
  predicate WellFormed(db: Db)
  {
    IdsBelowNext(db) && Identified(db)
  }

  /**
   * The lowest member of `s` in `[from, bound)`: how a repository `findBy…`
   * that returns one record picks among several matches.
   */
  function Lowest(s: set<int>, from: int, bound: int): (r: Option<int>)
    decreases bound - from
    ensures r.Some? ==> r.value in s && from <= r.value < bound
    ensures r.Some? ==> forall j :: from <= j < r.value ==> j !in s
    ensures r.None? <==> forall j :: from <= j < bound ==> j !in s
  {
    if from >= bound then None
    else if from in s then Some(from)
    else Lowest(s, from + 1, bound)
  }

  /** A scan from 0 that covers the whole set finds nothing only in an empty set. */
  lemma LowestCovers(s: set<int>, bound: int)
    requires forall x :: x in s ==> 0 <= x < bound
    ensures Lowest(s, 0, bound).None? <==> s == {}
  {
    if Lowest(s, 0, bound).None? {
      assert forall x :: x !in s;
    }
  }

  /** The ids of the users stored with exactly this email. */
  function UsersWithEmail(db: Db, email: string): set<int>
  {
    set id | id in db.users && db.users[id].email.value == email
  }

  /** `userRepository.findByEmail`: the user stored with exactly this email, if any. */
  function FindUserByEmail(db: Db, email: string): (r: Option<int>)
    ensures r.Some? ==> r.value in db.users && db.users[r.value].email.value == email
    ensures IdsBelowNext(db) ==> (r.None? <==> UsersWithEmail(db, email) == {})
  {
    var s := UsersWithEmail(db, email);
    assert IdsBelowNext(db) ==> (Lowest(s, 0, db.nextId).None? <==> s == {}) by {
      if IdsBelowNext(db) { LowestCovers(s, db.nextId); }
    }
    Lowest(s, 0, db.nextId)
  }

  /** `zoneRepository.findByName`: the zone stored with exactly this name, if any. */
  function FindZoneByName(db: Db, name: string): (r: Option<int>)
    ensures r.Some? ==> r.value in db.zones && db.zones[r.value].name == name
    ensures IdsBelowNext(db) ==> (r.None? <==> forall id :: id in db.zones ==> db.zones[id].name != name)
  {
    var s := set id | id in db.zones && db.zones[id].name == name;
    assert IdsBelowNext(db) ==> (Lowest(s, 0, db.nextId).None? <==> s == {}) by {
      if IdsBelowNext(db) { LowestCovers(s, db.nextId); }
    }
    assert s == {} <==> forall id :: id in db.zones ==> db.zones[id].name != name by {
      if s == {} {
        forall id | id in db.zones ensures db.zones[id].name != name { assert db.zones[id].name == name ==> id in s; }
      }
      if forall id :: id in db.zones ==> db.zones[id].name != name {
        assert forall x :: x !in s;
      }
    }
    Lowest(s, 0, db.nextId)
  }

  /** `menuRepository.findActiveByRestaurant`: an ACTIVE menu of the restaurant, if any. */
  function FindActiveMenu(db: Db, restaurantId: int): (r: Option<int>)
    ensures r.Some? ==> r.value in db.menus && db.menus[r.value].restaurantId == restaurantId
                        && db.menus[r.value].status == MS.Active
    ensures IdsBelowNext(db) ==>
              (r.None? <==> forall id :: id in db.menus ==> !(db.menus[id].restaurantId == restaurantId
                                                               && db.menus[id].status == MS.Active))
  {
    var s := set id | id in db.menus && db.menus[id].restaurantId == restaurantId && db.menus[id].status == MS.Active;
    assert IdsBelowNext(db) ==> (Lowest(s, 0, db.nextId).None? <==> s == {}) by {
      if IdsBelowNext(db) { LowestCovers(s, db.nextId); }
    }
    assert s == {} <==> forall id :: id in db.menus ==> !(db.menus[id].restaurantId == restaurantId
                                                         && db.menus[id].status == MS.Active) by {
      if s == {} {
        forall id | id in db.menus
          ensures !(db.menus[id].restaurantId == restaurantId && db.menus[id].status == MS.Active)
        {
          assert db.menus[id].restaurantId == restaurantId && db.menus[id].status == MS.Active ==> id in s;
        }
      }
      if forall id :: id in db.menus ==> !(db.menus[id].restaurantId == restaurantId && db.menus[id].status == MS.Active) {
        assert forall x :: x !in s;
      }
    }
    Lowest(s, 0, db.nextId)
  }

  /** The favorites of one restaurant. */
  function FavoritesOf(favorites: set<Like>, restaurantId: int): set<Like>
  {
    set l | l in favorites && l.restaurantId == restaurantId
  }

  /** Every stored restaurant's cached `likesCount` is its number of favorites. */
  predicate LikesConsistent(db: Db)
  {
    forall id :: id in db.restaurants ==> db.restaurants[id].likesCount == |FavoritesOf(db.favorites, id)|
  }

  /** `restaurantRepository.findByOwnerId(ownerId).length > 0`. */
  predicate OwnsRestaurants(db: Db, ownerId: int)
  {
    exists id :: id in db.restaurants && db.restaurants[id].ownerId == ownerId
  }

  /** `restaurantRepository.findByZoneId(zoneId).length > 0`. */
  predicate ZoneInUse(db: Db, zoneId: int)
  {
    exists id :: id in db.restaurants && id in db.zoneOf && db.zoneOf[id] == zoneId
  }

  /** `restaurantRepository.existsByApplicationId`. */
  predicate HasRestaurantFor(db: Db, applicationId: int)
  {
    exists id :: id in db.restaurants && db.restaurants[id].applicationId == applicationId
  }

  /** `surveyRepository.existsByClientAndRestaurant`. */
  predicate HasSurvey(db: Db, clientId: int, restaurantId: int)
  {
    exists id :: id in db.surveys && db.surveys[id].clientId == clientId && db.surveys[id].restaurantId == restaurantId
  }

  /** Adding a favorite that was absent adds one to its restaurant's count and nothing to the others. */
  lemma FavoritesOfAdd(favorites: set<Like>, l: Like, restaurantId: int)
    requires l !in favorites
    ensures |FavoritesOf(favorites + {l}, restaurantId)|
            == |FavoritesOf(favorites, restaurantId)| + (if l.restaurantId == restaurantId then 1 else 0)
  {
    if l.restaurantId == restaurantId {
      assert FavoritesOf(favorites + {l}, restaurantId) == FavoritesOf(favorites, restaurantId) + {l};
    } else {
      assert FavoritesOf(favorites + {l}, restaurantId) == FavoritesOf(favorites, restaurantId);
    }
  }

  /** Removing a present favorite takes one from its restaurant's count and nothing from the others. */
  lemma FavoritesOfRemove(favorites: set<Like>, l: Like, restaurantId: int)
    requires l in favorites
    ensures |FavoritesOf(favorites - {l}, restaurantId)|
            == |FavoritesOf(favorites, restaurantId)| - (if l.restaurantId == restaurantId then 1 else 0)
  {
    if l.restaurantId == restaurantId {
      assert FavoritesOf(favorites - {l}, restaurantId) == FavoritesOf(favorites, restaurantId) - {l};
    } else {
      assert FavoritesOf(favorites - {l}, restaurantId) == FavoritesOf(favorites, restaurantId);
    }
  }
}
