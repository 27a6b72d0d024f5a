/**
 * The engagement ledger: clients mark restaurants as favorites, which
 * keeps each restaurant's cached like counter, and a favorite is the
 * ticket for downloading a restaurant's menu and for posting a visit
 * photo. Surveys are one per client and restaurant.
 */
module Engagement {
  import opened Outcomes
  import opened Persistence
  import Text
  import Access
  import UT = UserTypeEnum
  import MS = MenuStatusEnum
  import RestaurantEntity
  import FavoriteEntity
  import MenuEntity
  import UserPhotoEntity
  import SurveyEntity

  const NoActiveMenu := "No hay menú disponible para este restaurante"

  /** What `ToggleFavorite` reports. */
  datatype Toggled = Toggled(isFavorite: bool, likesCount: int)

  /** What `DownloadMenu` reports. */
  datatype MenuDownload = MenuDownload(menuUrl: string, fileName: string)

  /** What `UploadUserPhoto` reports. */
  datatype PhotoUploaded = PhotoUploaded(photoId: int, photoUrl: string, restaurantId: int)

  /** What `SubmitSurvey` reports. */
  datatype SurveySubmitted = SurveySubmitted(surveyId: int, isComplete: bool, completionPercentage: int)

  /** The name under which a restaurant's menu is offered for download. */
  function MenuFileName(restaurantId: int): string
  {
    "menu-restaurante-" + Text.IntToString(restaurantId) + ".pdf"
  }

  /**
   * `ToggleFavoriteUseCase.execute`: an existing favorite is removed and the
   * counter goes down (never below zero); otherwise a favorite is created
   * and the counter goes up. The reported count is the stored one.
   */
  function ToggleFavorite(db: Db, clientId: int, restaurantId: int): (r: (Result<Toggled>, Db))
    ensures restaurantId !in db.restaurants ==> r == (Err(NotFound(RestaurantResource)), db)
    ensures r.0.Err? ==> r.1 == db
    ensures r.0.Ok? ==> restaurantId in db.restaurants && restaurantId in r.1.restaurants
    ensures r.0.Ok? ==> (r.0.value.isFavorite <==> Like(clientId, restaurantId) in r.1.favorites)
    ensures r.0.Ok? ==> (r.0.value.isFavorite <==> Like(clientId, restaurantId) !in db.favorites)
    ensures r.0.Ok? ==> r.0.value.likesCount == r.1.restaurants[restaurantId].likesCount
    ensures restaurantId in db.restaurants && Like(clientId, restaurantId) in db.favorites
            ==> r.0.Ok? && r.1 == SetLikes(db.(favorites := db.favorites - {Like(clientId, restaurantId)}), restaurantId,
                                           RestaurantEntity.Decremented(db.restaurants[restaurantId].likesCount))
    ensures restaurantId in db.restaurants && Like(clientId, restaurantId) !in db.favorites
            ==> (r.0.Ok? <==> clientId > 0 && restaurantId > 0)
    ensures r.0.Ok? && Like(clientId, restaurantId) !in db.favorites
            ==> r.1 == SetLikes(db.(favorites := db.favorites + {Like(clientId, restaurantId)}), restaurantId,
                                db.restaurants[restaurantId].likesCount + 1)
  {
    if restaurantId !in db.restaurants then (Err(NotFound(RestaurantResource)), db)
    else
      var like := Like(clientId, restaurantId);
      var likes := db.restaurants[restaurantId].likesCount;
      if like in db.favorites then
        var count := RestaurantEntity.Decremented(likes);
        (Ok(Toggled(false, count)), SetLikes(db.(favorites := db.favorites - {like}), restaurantId, count))
      else
        match FavoriteEntity.Create(clientId, restaurantId)
        case Err(f) => (Err(f), db)
        case Ok(_) =>
          (Ok(Toggled(true, likes + 1)), SetLikes(db.(favorites := db.favorites + {like}), restaurantId, likes + 1))
  }

  /**
   * `DownloadMenuUseCase.execute`: only a client who likes the restaurant
   * may download, and only its ACTIVE menu; the download is counted on
   * that menu alone.
   */
  function DownloadMenu(db: Db, clientId: int, restaurantId: int): (r: (Result<MenuDownload>, Db))
    ensures Like(clientId, restaurantId) !in db.favorites ==> r == (Err(Forbidden(LikeRequired)), db)
    ensures Like(clientId, restaurantId) in db.favorites && FindActiveMenu(db, restaurantId).None?
            ==> r == (Err(NotFound(NoActiveMenu)), db)
    ensures r.0.Err? ==> r.1 == db
    ensures r.0.Ok? <==> Like(clientId, restaurantId) in db.favorites && FindActiveMenu(db, restaurantId).Some?
    ensures r.0.Ok? ==>
              var id := FindActiveMenu(db, restaurantId).value;
              && r.0.value == MenuDownload(db.menus[id].menuUrl.value, MenuFileName(restaurantId))
              && r.1 == CountDownload(db, id)
              && db.menus[id].restaurantId == restaurantId && db.menus[id].status == MS.Active
  {
    if Like(clientId, restaurantId) !in db.favorites then (Err(Forbidden(LikeRequired)), db)
    else
      match FindActiveMenu(db, restaurantId)
      case None => (Err(NotFound(NoActiveMenu)), db)
      case Some(id) => (Ok(MenuDownload(db.menus[id].menuUrl.value, MenuFileName(restaurantId))), CountDownload(db, id))
  }

  /**
   * `UploadUserPhotoUseCase.execute`. The restaurant must exist and be a
   * favorite of the client; then the file is uploaded (`upload` is what the
   * storage returned, or the failure it threw) and the photo recorded.
   */
  function UploadUserPhoto(db: Db, clientId: int, restaurantId: int, upload: Result<string>)
    : (r: (Result<PhotoUploaded>, Db))
    ensures restaurantId !in db.restaurants ==> r == (Err(NotFound(RestaurantResource)), db)
    ensures restaurantId in db.restaurants && Like(clientId, restaurantId) !in db.favorites
            ==> r == (Err(Forbidden(FavoriteRequired)), db)
    ensures restaurantId in db.restaurants && Like(clientId, restaurantId) in db.favorites && upload.Err?
            ==> r == (Err(upload.failure), db)
    ensures r.0.Err? ==> r.1 == db
    ensures r.0.Ok? <==> restaurantId in db.restaurants && Like(clientId, restaurantId) in db.favorites && upload.Ok?
                         && UserPhotoEntity.Create(upload.value, clientId, restaurantId).Ok?
    ensures r.0.Ok? ==> r.1 == InsertPhoto(db, UserPhotoEntity.Create(upload.value, clientId, restaurantId).value)
                        && r.0.value == PhotoUploaded(db.nextId, Text.Trim(upload.value), restaurantId)
                        && r.1.photos[db.nextId].clientId == clientId
                        && r.1.photos[db.nextId].restaurantId == restaurantId
  {
    if restaurantId !in db.restaurants then (Err(NotFound(RestaurantResource)), db)
    else if Like(clientId, restaurantId) !in db.favorites then (Err(Forbidden(FavoriteRequired)), db)
    else if upload.Err? then (Err(upload.failure), db)
    else
      match UserPhotoEntity.Create(upload.value, clientId, restaurantId)
      case Err(f) => (Err(f), db)
      case Ok(p) => (Ok(PhotoUploaded(db.nextId, p.photoUrl.value, p.restaurantId)), InsertPhoto(db, p))
  }

  /**
   * `DeleteUserPhotoUseCase.execute`: an administrator or the client who
   * posted the photo deletes its file, then its record. A failure of the
   * file deletion (`deleteErrors`, by link) propagates and keeps the record.
   */
  function DeleteUserPhoto(db: Db, photoId: int, requesterId: int, requesterType: UT.UserType,
                           deleteErrors: map<string, Failure>): (r: (Result<()>, Db))
    ensures photoId !in db.photos ==> r == (Err(NotFound(PhotoResource)), db)
    ensures photoId in db.photos && !Access.CanActOn(requesterType, requesterId, db.photos[photoId].clientId)
            ==> r == (Err(Forbidden(NotOwner("foto"))), db)
    ensures r.0.Err? ==> r.1 == db
    ensures r.0.Ok? <==> photoId in db.photos && Access.CanActOn(requesterType, requesterId, db.photos[photoId].clientId)
                         && db.photos[photoId].photoUrl.value !in deleteErrors
    ensures r.0.Ok? ==> r.1 == RemovePhoto(db, photoId) && photoId !in r.1.photos
  {
    if photoId !in db.photos then (Err(NotFound(PhotoResource)), db)
    else if !Access.CanActOn(requesterType, requesterId, db.photos[photoId].clientId) then
      (Err(Forbidden(NotOwner("foto"))), db)
    else if db.photos[photoId].photoUrl.value in deleteErrors then
      (Err(deleteErrors[db.photos[photoId].photoUrl.value]), db)
    else (Ok(()), RemovePhoto(db, photoId))
  }

  /**
   * `SubmitSurveyUseCase.execute`: the client and the restaurant must exist
   * and the client must not have answered for this restaurant yet.
   */
  function SubmitSurvey(db: Db, clientId: int, restaurantId: int, answers: SurveyEntity.Answers)
    : (r: (Result<SurveySubmitted>, Db))
    ensures clientId !in db.clients ==> r == (Err(NotFound(ClientResource)), db)
    ensures clientId in db.clients && restaurantId !in db.restaurants ==> r == (Err(NotFound(RestaurantResource)), db)
    ensures clientId in db.clients && restaurantId in db.restaurants && HasSurvey(db, clientId, restaurantId)
            ==> r == (Err(Conflict(DuplicateSurvey)), db)
    ensures r.0.Err? ==> r.1 == db
    ensures r.0.Ok? <==> clientId in db.clients && restaurantId in db.restaurants && !HasSurvey(db, clientId, restaurantId)
                         && clientId > 0 && restaurantId > 0
    ensures r.0.Ok? ==>
              var s := SurveyEntity.Create(clientId, restaurantId, answers).value;
              && r.1 == InsertSurvey(db, s)
              && r.0.value == SurveySubmitted(db.nextId, SurveyEntity.IsComplete(s), SurveyEntity.CompletionPercentage(s))
  {
    if clientId !in db.clients then (Err(NotFound(ClientResource)), db)
    else if restaurantId !in db.restaurants then (Err(NotFound(RestaurantResource)), db)
    else if HasSurvey(db, clientId, restaurantId) then (Err(Conflict(DuplicateSurvey)), db)
    else
      match SurveyEntity.Create(clientId, restaurantId, answers)
      case Err(f) => (Err(f), db)
      case Ok(s) =>
        (Ok(SurveySubmitted(db.nextId, SurveyEntity.IsComplete(s), SurveyEntity.CompletionPercentage(s))),
         InsertSurvey(db, s))
  }

  class ToggleFavoriteUseCase {
    const store: Store

    constructor (store: Store)
      ensures this.store == store
    {
      this.store := store;
    }

    method Execute(clientId: int, restaurantId: int) returns (r: Result<Toggled>)
      modifies store
      ensures (r, store.Snap()) == ToggleFavorite(old(store.Snap()), clientId, restaurantId)
    {
      if restaurantId !in store.restaurants {
        return Err(NotFound(RestaurantResource));
      }
      var existing := Like(clientId, restaurantId);
      if existing in store.favorites {
        store.DeleteFavorite(existing);
        var count := store.DecrementLikesCount(restaurantId);
        return Ok(Toggled(false, count));
      }
      var favorite := FavoriteEntity.Create(clientId, restaurantId);
      if favorite.Err? {
        return Err(favorite.failure);
      }
      store.SaveFavorite(Like(favorite.value.clientId, favorite.value.restaurantId));
      var count := store.IncrementLikesCount(restaurantId);
      return Ok(Toggled(true, count));
    }
  }

  class DownloadMenuUseCase {
    const store: Store

    constructor (store: Store)
      ensures this.store == store
    {
      this.store := store;
    }

    method Execute(clientId: int, restaurantId: int) returns (r: Result<MenuDownload>)
      modifies store
      ensures (r, store.Snap()) == DownloadMenu(old(store.Snap()), clientId, restaurantId)
    {
      if Like(clientId, restaurantId) !in store.favorites {
        return Err(Forbidden(LikeRequired));
      }
      var menu := FindActiveMenu(store.Snap(), restaurantId);
      if menu.None? {
        return Err(NotFound(NoActiveMenu));
      }
      var found := store.menus[menu.value];
      store.IncrementDownloadCount(menu.value);
      return Ok(MenuDownload(found.menuUrl.value, MenuFileName(restaurantId)));
    }
  }

  class UploadUserPhotoUseCase {
    const store: Store

    constructor (store: Store)
      ensures this.store == store
    {
      this.store := store;
    }

    method Execute(clientId: int, restaurantId: int, upload: Result<string>) returns (r: Result<PhotoUploaded>)
      modifies store
      ensures (r, store.Snap()) == UploadUserPhoto(old(store.Snap()), clientId, restaurantId, upload)
    {
      if restaurantId !in store.restaurants {
        return Err(NotFound(RestaurantResource));
      }
      if Like(clientId, restaurantId) !in store.favorites {
        return Err(Forbidden(FavoriteRequired));
      }
      if upload.Err? {
        return Err(upload.failure);
      }
      var photo := UserPhotoEntity.Create(upload.value, clientId, restaurantId);
      if photo.Err? {
        return Err(photo.failure);
      }
      var id := store.SavePhoto(photo.value);
      return Ok(PhotoUploaded(id, photo.value.photoUrl.value, photo.value.restaurantId));
    }
  }

  class DeleteUserPhotoUseCase {
    const store: Store

    constructor (store: Store)
      ensures this.store == store
    {
      this.store := store;
    }

    method Execute(photoId: int, requesterId: int, requesterType: UT.UserType, deleteErrors: map<string, Failure>)
      returns (r: Result<()>)
      modifies store
      ensures (r, store.Snap()) == DeleteUserPhoto(old(store.Snap()), photoId, requesterId, requesterType, deleteErrors)
    {
      if photoId !in store.photos {
        return Err(NotFound(PhotoResource));
      }
      var photo := store.photos[photoId];
      if requesterType != UT.Admin && photo.clientId != requesterId {
        return Err(Forbidden(NotOwner("foto")));
      }
      if photo.photoUrl.value in deleteErrors {
        return Err(deleteErrors[photo.photoUrl.value]);
      }
      store.DeletePhoto(photoId);
      return Ok(());
    }
  }

  class SubmitSurveyUseCase {
    const store: Store

    constructor (store: Store)
      ensures this.store == store
    {
      this.store := store;
    }

    method Execute(clientId: int, restaurantId: int, answers: SurveyEntity.Answers) returns (r: Result<SurveySubmitted>)
      modifies store
      ensures (r, store.Snap()) == SubmitSurvey(old(store.Snap()), clientId, restaurantId, answers)
    {
      if clientId !in store.clients {
        return Err(NotFound(ClientResource));
      }
      if restaurantId !in store.restaurants {
        return Err(NotFound(RestaurantResource));
      }
      if HasSurvey(store.Snap(), clientId, restaurantId) {
        return Err(Conflict(DuplicateSurvey));
      }
      var survey := SurveyEntity.Create(clientId, restaurantId, answers);
      if survey.Err? {
        return Err(survey.failure);
      }
      var id := store.SaveSurvey(survey.value);
      return Ok(SurveySubmitted(id, SurveyEntity.IsComplete(survey.value), SurveyEntity.CompletionPercentage(survey.value)));
    }
  }

  /**
   * If every restaurant's counter equals its number of favorites before a
   * toggle, the same holds after it.
   */
  lemma ToggleKeepsLikesConsistent(db: Db, clientId: int, restaurantId: int)
    requires LikesConsistent(db)
    ensures LikesConsistent(ToggleFavorite(db, clientId, restaurantId).1)
  {
    var r := ToggleFavorite(db, clientId, restaurantId);
    if r.0.Ok? {
      var like := Like(clientId, restaurantId);
      var after := r.1;
      forall id | id in after.restaurants
        ensures after.restaurants[id].likesCount == |FavoritesOf(after.favorites, id)|
      {
        if like in db.favorites {
          FavoritesOfRemove(db.favorites, like, id);
          if id == restaurantId {
            assert like in FavoritesOf(db.favorites, id);
          }
        } else {
          FavoritesOfAdd(db.favorites, like, id);
        }
      }
    }
  }

  /**
   * Toggling the same pair twice gives back the store it started from,
   * favorites and counters alike, when the counters agree with the
   * favorites (so that the first un-like does not hit the zero floor) and
   * both ids are positive (so that `Favorite.create` accepts the re-like).
   */
  lemma ToggleTwiceRestores(db: Db, clientId: int, restaurantId: int)
    requires LikesConsistent(db)
    requires restaurantId in db.restaurants && clientId > 0 && restaurantId > 0
    ensures ToggleFavorite(ToggleFavorite(db, clientId, restaurantId).1, clientId, restaurantId).0.Ok?
    ensures ToggleFavorite(ToggleFavorite(db, clientId, restaurantId).1, clientId, restaurantId).1 == db
  {
    var like := Like(clientId, restaurantId);
    var once := ToggleFavorite(db, clientId, restaurantId).1;
    if like in db.favorites {
      assert like in FavoritesOf(db.favorites, restaurantId);
      assert db.restaurants[restaurantId].likesCount > 0;
      assert db.favorites - {like} + {like} == db.favorites;
    } else {
      assert db.favorites + {like} - {like} == db.favorites;
    }
    assert db.restaurants[restaurantId := db.restaurants[restaurantId]] == db.restaurants;
  }

  /** A download never touches favorites or like counters. */
  lemma DownloadKeepsLikes(db: Db, clientId: int, restaurantId: int)
    ensures DownloadMenu(db, clientId, restaurantId).1.favorites == db.favorites
    ensures DownloadMenu(db, clientId, restaurantId).1.restaurants == db.restaurants
  {
  }

  /** A download counts one on the active menu and leaves every other menu as it was. */
  lemma DownloadCountsOnce(db: Db, clientId: int, restaurantId: int, other: int)
    requires DownloadMenu(db, clientId, restaurantId).0.Ok?
    ensures var id := FindActiveMenu(db, restaurantId).value;
            var after := DownloadMenu(db, clientId, restaurantId).1;
            after.menus.Keys == db.menus.Keys
            && after.menus[id].downloadCount == db.menus[id].downloadCount + 1
            && (other in db.menus && other != id ==> after.menus[other] == db.menus[other])
  {
    var id := FindActiveMenu(db, restaurantId).value;
    assert DownloadMenu(db, clientId, restaurantId).1 == CountDownload(db, id);
  }

  /** No client has two surveys for the same restaurant. */
  predicate OneSurveyPerPair(db: Db)
  {
    forall i, j ::
      (i in db.surveys && j in db.surveys && db.surveys[i].clientId == db.surveys[j].clientId
       && db.surveys[i].restaurantId == db.surveys[j].restaurantId) ==> i == j
  }

  /** Submitting surveys keeps at most one survey per client and restaurant. */
  lemma SubmitKeepsOneSurveyPerPair(db: Db, clientId: int, restaurantId: int, answers: SurveyEntity.Answers)
    requires IdsBelowNext(db) && OneSurveyPerPair(db)
    ensures OneSurveyPerPair(SubmitSurvey(db, clientId, restaurantId, answers).1)
  {
    var r := SubmitSurvey(db, clientId, restaurantId, answers);
    if r.0.Ok? {
      var after := r.1;
      var n := db.nextId;
      assert n !in db.surveys;
      assert after.surveys[n].clientId == clientId && after.surveys[n].restaurantId == restaurantId;
      forall i, j | i in after.surveys && j in after.surveys && after.surveys[i].clientId == after.surveys[j].clientId
                    && after.surveys[i].restaurantId == after.surveys[j].restaurantId
        ensures i == j
      {
        if i != n && j == n {
          assert db.surveys[i].clientId == clientId && db.surveys[i].restaurantId == restaurantId;
          assert HasSurvey(db, clientId, restaurantId);
        } else if i == n && j != n {
          assert db.surveys[j].clientId == clientId && db.surveys[j].restaurantId == restaurantId;
          assert HasSurvey(db, clientId, restaurantId);
        }
      }
    }
  }
}
