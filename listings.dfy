/**
 * Listings: the restaurant and user lists with their optional filter and
 * offset/limit window, and a client's favorites joined with the current
 * restaurant records.
 *
 * A repository query that returns rows is a sequence parameter holding the
 * rows in the order the repository returns them; a query that takes an
 * argument is a function parameter.
 */
module Listings {
  import opened Outcomes
  import RestaurantEntity
  import FavoriteEntity
  import UserEntity
  import Accounts

  // ---------------------------------------------------------------------
  // Array.prototype.slice and the offset/limit window

  function Min(a: int, b: int): int
  {
    if a <= b then a else b
  }

  /** Where `slice` starts or stops for the argument `i`: a negative one counts from the end; both are clamped to the array. */
  function SliceIndex(i: int, len: nat): (r: nat)
    ensures r <= len
    ensures 0 <= i ==> r == Min(i, len)
    ensures i < 0 ==> r == (if len + i < 0 then 0 else len + i)
  {
    if i < 0 then (if len + i < 0 then 0 else len + i)
    else if i > len then len
    else i
  }

  /** `xs.slice(start, end)`: the elements from the start index up to, not including, the end index; none when the end comes first. */
  function Slice<T>(xs: seq<T>, start: int, end: int): (r: seq<T>)
    ensures SliceIndex(start, |xs|) + |r| <= |xs|
    ensures |r| == if SliceIndex(start, |xs|) < SliceIndex(end, |xs|)
                   then SliceIndex(end, |xs|) - SliceIndex(start, |xs|) else 0
    ensures forall k :: 0 <= k < |r| ==> r[k] == xs[SliceIndex(start, |xs|) + k]
  {
    var s := SliceIndex(start, |xs|);
    var e := SliceIndex(end, |xs|);
    if s < e then xs[s..e] else []
  }

  /** Where a page starts: the offset, 0 when it is missing or 0. */
  function PageStart(len: nat, offset: Option<int>): (r: nat)
    ensures r <= len
  {
    SliceIndex(if offset.Some? then offset.value else 0, len)
  }

  /**
   * The paging step of both list use cases: nothing happens unless an
   * offset or a limit is given; then `offset || 0` and `limit || length`
   * choose the window `slice(offset, offset + limit)`.
   */
  function Paged<T>(xs: seq<T>, offset: Option<int>, limit: Option<int>): (r: seq<T>)
    ensures offset.None? && limit.None? ==> r == xs
    ensures PageStart(|xs|, offset) + |r| <= |xs|
    ensures forall k :: 0 <= k < |r| ==> r[k] == xs[PageStart(|xs|, offset) + k]
  {
    if offset.None? && limit.None? then xs
    else
      var o := if offset.Some? then offset.value else 0;
      var l := if limit.Some? && limit.value != 0 then limit.value else |xs|;
      Slice(xs, o, o + l)
  }

  /** A page never holds more than a positive limit, whatever the offset, even a negative one. */
  lemma PagedBounded<T>(xs: seq<T>, offset: Option<int>, limit: Option<int>)
    ensures limit.Some? && limit.value > 0 ==> |Paged(xs, offset, limit)| <= limit.value
  {
    var o := if offset.Some? then offset.value else 0;
    var l := if limit.Some? && limit.value != 0 then limit.value else |xs|;
    var s := SliceIndex(o, |xs|);
    var e := SliceIndex(o + l, |xs|);
    if limit.Some? && limit.value > 0 && s < e {
      if o < 0 && o + l >= 0 {
        assert e <= o + l;
        assert s >= |xs| + o || s == 0;
      }
    }
  }

  /** For a non-negative offset and a positive limit the page is the window `[offset, offset + limit)` cut to the list. */
  lemma PagedWindow<T>(xs: seq<T>, o: int, l: int)
    requires o >= 0 && l > 0
    ensures Paged(xs, Some(o), Some(l)) == xs[Min(o, |xs|)..Min(o + l, |xs|)]
  {
  }

  /** Without an offset, a limit gives the first `limit` entries. */
  lemma FirstPage<T>(xs: seq<T>, l: int)
    requires l > 0
    ensures Paged(xs, None, Some(l)) == xs[..Min(l, |xs|)]
  {
  }

  /** A missing or zero limit means everything from the offset on. */
  lemma PagedRest<T>(xs: seq<T>, o: int, limit: Option<int>)
    requires o >= 0
    requires limit.None? || limit.value == 0
    ensures Paged(xs, Some(o), limit) == xs[Min(o, |xs|)..]
  {
  }

  /** Two consecutive pages of one size are the page of twice that size: paging skips and repeats nothing. */
  lemma {:induction false} PagesTile<T>(xs: seq<T>, o: int, l: int)
    requires o >= 0 && l > 0
    ensures Paged(xs, Some(o), Some(l)) + Paged(xs, Some(o + l), Some(l)) == Paged(xs, Some(o), Some(2 * l))
  {
    var a := Min(o, |xs|);
    var b := Min(o + l, |xs|);
    var c := Min(o + 2 * l, |xs|);
    PagedWindow(xs, o, l);
    PagedWindow(xs, o + l, l);
    PagedWindow(xs, o, 2 * l);
    ConsecutiveSlices(xs, a, b, c);
  }

  lemma ConsecutiveSlices<T>(xs: seq<T>, a: int, b: int, c: int)
    requires 0 <= a <= b <= c <= |xs|
    ensures xs[a..b] + xs[b..c] == xs[a..c]
  {
  }

  // ---------------------------------------------------------------------
  // GetAllRestaurants

  /** One entry of the restaurant list: the phone as its digits, the timestamps not modelled. */
  datatype RestaurantSummary = RestaurantSummary(
    id: int,
    name: string,
    schedule: string,
    phone: string,
    tags: seq<string>,
    address: string,
    facebook: Option<string>,
    instagram: Option<string>,
    likesCount: int)

  datatype RestaurantListing = RestaurantListing(restaurants: seq<RestaurantSummary>, total: int)

  function Summary(d: RestaurantEntity.RestaurantData): RestaurantSummary
  {
    RestaurantSummary(d.id, d.name, d.schedule, d.phone.value, d.tags, d.address, d.facebook, d.instagram, d.likesCount)
  }

  function Summaries(rs: seq<RestaurantEntity.RestaurantData>): (r: seq<RestaurantSummary>)
    ensures |r| == |rs|
    ensures forall k :: 0 <= k < |r| ==> r[k] == Summary(rs[k])
  {
    if rs == [] then [] else Summaries(rs[..|rs| - 1]) + [Summary(rs[|rs| - 1])]
  }

  /** Whether the tag filter applies: tags given and not empty. */
  predicate TagsRequested(tags: Option<seq<string>>)
  {
    tags.Some? && |tags.value| > 0
  }

  /**
   * `GetAllRestaurantsUseCase.execute`: `findByTags` for a non-empty tag
   * list, otherwise `findAll`; then the page; `total` is the repository's
   * `count`, whatever the filter and the page.
   */
  function GetAllRestaurants(
    all: seq<RestaurantEntity.RestaurantData>,
    findByTags: seq<string> -> seq<RestaurantEntity.RestaurantData>,
    count: int,
    tags: Option<seq<string>>,
    limit: Option<int>,
    offset: Option<int>)
    : (r: RestaurantListing)
    ensures r.total == count
    ensures var source := if TagsRequested(tags) then findByTags(tags.value) else all;
            var start := PageStart(|source|, offset);
            && start + |r.restaurants| <= |source|
            && forall k :: 0 <= k < |r.restaurants| ==> r.restaurants[k] == Summary(source[start + k])
    ensures offset.None? && limit.None? && !TagsRequested(tags) ==> r.restaurants == Summaries(all)
    ensures limit.Some? && limit.value > 0 ==> |r.restaurants| <= limit.value
  {
    var source := if TagsRequested(tags) then findByTags(tags.value) else all;
    PagedBounded(source, offset, limit);
    RestaurantListing(Summaries(Paged(source, offset, limit)), count)
  }

  // ---------------------------------------------------------------------
  // GetAllUsers

  datatype UserListing = UserListing(users: seq<Accounts.UserView>, total: int)

  function Views(us: seq<UserEntity.UserData>): (r: seq<Accounts.UserView>)
    ensures |r| == |us|
    ensures forall k :: 0 <= k < |r| ==> r[k] == Accounts.ViewOf(us[k])
  {
    if us == [] then [] else Views(us[..|us| - 1]) + [Accounts.ViewOf(us[|us| - 1])]
  }

  /** Whether the type filter applies: a type given and not the empty string. */
  predicate TypeRequested(userType: Option<string>)
  {
    userType.Some? && userType.value != ""
  }

  /**
   * `GetAllUsersUseCase.execute`: `findByType` for a non-empty type,
   * otherwise `findAll`; then the page; `total` is the repository's
   * `count`. The entries carry id, name, e-mail and type, never the
   * password.
   */
  function GetAllUsers(
    all: seq<UserEntity.UserData>,
    findByType: string -> seq<UserEntity.UserData>,
    count: int,
    userType: Option<string>,
    limit: Option<int>,
    offset: Option<int>)
    : (r: UserListing)
    ensures r.total == count
    ensures var source := if TypeRequested(userType) then findByType(userType.value) else all;
            var start := PageStart(|source|, offset);
            && start + |r.users| <= |source|
            && forall k :: 0 <= k < |r.users| ==> r.users[k] == Accounts.ViewOf(source[start + k])
    ensures limit.Some? && limit.value > 0 ==> |r.users| <= limit.value
  {
    var source := if TypeRequested(userType) then findByType(userType.value) else all;
    PagedBounded(source, offset, limit);
    UserListing(Views(Paged(source, offset, limit)), count)
  }

  // ---------------------------------------------------------------------
  // GetClientFavorites

  /** The restaurant data shown with a favorite. */
  datatype RestaurantCard = RestaurantCard(id: int, name: string, address: string, phone: string, likesCount: int)

  datatype FavoriteView = FavoriteView(id: int, restaurantId: int, restaurant: RestaurantCard)

  datatype FavoritesListing = FavoritesListing(favorites: seq<FavoriteView>, total: int)

  function Card(d: RestaurantEntity.RestaurantData): RestaurantCard
  {
    RestaurantCard(d.id, d.name, d.address, d.phone.value, d.likesCount)
  }

  function ViewWith(f: FavoriteEntity.Favorite, d: RestaurantEntity.RestaurantData): FavoriteView
  {
    FavoriteView(f.id, f.restaurantId, Card(d))
  }

  /**
   * The favorites whose restaurant `findById` still finds, each with the
   * current restaurant record, in the order the favorites were read.
   */
  function Kept(favorites: seq<FavoriteEntity.Favorite>, restaurants: map<int, RestaurantEntity.RestaurantData>)
    : (r: seq<FavoriteView>)
    ensures |r| <= |favorites|
    ensures forall v :: v in r ==> v.restaurantId in restaurants && v.restaurant == Card(restaurants[v.restaurantId])
    ensures forall v :: v in r ==> exists f :: f in favorites && f.restaurantId in restaurants && v == ViewWith(f, restaurants[f.restaurantId])
    ensures forall f :: f in favorites && f.restaurantId in restaurants ==> ViewWith(f, restaurants[f.restaurantId]) in r
    ensures (forall f :: f in favorites ==> f.restaurantId in restaurants) ==> |r| == |favorites|
  {
    if favorites == [] then []
    else
      var front := favorites[..|favorites| - 1];
      var f := favorites[|favorites| - 1];
      assert favorites == front + [f];
      var kept := Kept(front, restaurants);
      if f.restaurantId in restaurants then kept + [ViewWith(f, restaurants[f.restaurantId])] else kept
  }

  /** Joining keeps the order of the favorites: the join of two runs is the two joins one after the other. */
  lemma {:induction false} KeptAppend(a: seq<FavoriteEntity.Favorite>, b: seq<FavoriteEntity.Favorite>, restaurants: map<int, RestaurantEntity.RestaurantData>)
    ensures Kept(a + b, restaurants) == Kept(a, restaurants) + Kept(b, restaurants)
  {
    if b != [] {
      var front := b[..|b| - 1];
      var f := b[|b| - 1];
      assert a + b == (a + front) + [f];
      assert (a + b)[..|a + b| - 1] == a + front;
      KeptAppend(a, front, restaurants);
      assert b == front + [f];
    } else {
      assert a + b == a;
    }
  }

  /**
   * `GetClientFavoritesUseCase.execute`: the client's favorites as
   * `findByClientId` returns them, joined with `findById` on the
   * restaurants table; those whose restaurant is gone are dropped, and
   * `total` counts the ones kept.
   */
  function GetClientFavorites(favorites: seq<FavoriteEntity.Favorite>, restaurants: map<int, RestaurantEntity.RestaurantData>)
    : (r: FavoritesListing)
    ensures r.total == |r.favorites| <= |favorites|
    ensures forall v :: v in r.favorites ==> v.restaurantId in restaurants && v.restaurant == Card(restaurants[v.restaurantId])
    ensures forall f :: f in favorites && f.restaurantId in restaurants ==> ViewWith(f, restaurants[f.restaurantId]) in r.favorites
    ensures forall f :: f in favorites && f.restaurantId !in restaurants ==> (forall v :: v in r.favorites ==> v.id != f.id || v.restaurantId != f.restaurantId)
  {
    var kept := Kept(favorites, restaurants);
    FavoritesListing(kept, |kept|)
  }
}
