/**
 * Statistics: survey statistics grouped by restaurant, an owner's
 * per-restaurant figures and the global counts.
 *
 * A repository query that returns rows is a sequence parameter holding
 * those rows in the order the repository returns them.
 */
module Statistics {
  import opened Outcomes
  import opened Persistence
  import SurveyEntity
  import RestaurantEntity
  import MenuEntity
  import UT = UserTypeEnum

  // ---------------------------------------------------------------------
  // Survey statistics

  /** One entry of `byRestaurant`. */
  datatype RestaurantCount = RestaurantCount(restaurantId: int, count: nat)

  datatype SurveyStats = SurveyStats(
    totalSurveys: nat,
    completedSurveys: nat,
    completionRate: real,
    byRestaurant: seq<RestaurantCount>)

  /** `findByRestaurantId`: the surveys of one restaurant, in the order of `findAll`. */
  function OfRestaurant(all: seq<SurveyEntity.SurveyData>, restaurantId: int): (r: seq<SurveyEntity.SurveyData>)
    ensures |r| <= |all|
    ensures forall s :: s in r <==> s in all && s.restaurantId == restaurantId
  {
    if all == [] then []
    else
      var rest := OfRestaurant(all[..|all| - 1], restaurantId);
      var last := all[|all| - 1];
      assert all == all[..|all| - 1] + [last];
      if last.restaurantId == restaurantId then rest + [last] else rest
  }

  /** The surveys `execute` reads: `findByRestaurantId` for a truthy id, otherwise `findAll`. */
  function Selected(all: seq<SurveyEntity.SurveyData>, restaurantId: Option<int>): seq<SurveyEntity.SurveyData>
  {
    if restaurantId.Some? && restaurantId.value != 0 then OfRestaurant(all, restaurantId.value) else all
  }

  /** `surveys.filter(s => s.isComplete()).length`. */
  function CompletedCount(surveys: seq<SurveyEntity.SurveyData>): (n: nat)
    ensures n <= |surveys|
    ensures n == |surveys| <==> forall s :: s in surveys ==> SurveyEntity.IsComplete(s)
  {
    if surveys == [] then 0
    else
      var last := surveys[|surveys| - 1];
      assert surveys == surveys[..|surveys| - 1] + [last];
      CompletedCount(surveys[..|surveys| - 1]) + (if SurveyEntity.IsComplete(last) then 1 else 0)
  }

  /** `Math.round(x * 100) / 100`, with `Math.round(y)` being the floor of `y + 0.5`. */
  function RoundCents(x: real): real
  {
    ((x * 100.0 + 0.5).Floor as real) / 100.0
  }

  /** The completion rate in percent, rounded to two decimals; 0 when there are no surveys. */
  function CompletionRate(completed: nat, total: nat): (rate: real)
    requires completed <= total
    ensures total == 0 ==> rate == 0.0
    ensures 0.0 <= rate <= 100.0
    ensures 0 < total && completed == total ==> rate == 100.0
    ensures completed == 0 ==> rate == 0.0
  {
    var raw := if total > 0 then (completed as real / total as real) * 100.0 else 0.0;
    RatioBounds(completed, total);
    RoundCents(raw)
  }

  /** The unrounded rate lies between 0 and 100, and the rounding keeps it there. */
  lemma RatioBounds(completed: nat, total: nat)
    requires completed <= total
    ensures total > 0 ==> 0.0 <= (completed as real / total as real) * 100.0 <= 100.0
    ensures total > 0 ==> 0.0 <= RoundCents((completed as real / total as real) * 100.0) <= 100.0
    ensures total > 0 && completed == total ==> RoundCents((completed as real / total as real) * 100.0) == 100.0
    ensures RoundCents(0.0) == 0.0
  {
    if total > 0 {
      var q := completed as real / total as real;
      assert q * (total as real) == completed as real;
      assert 0.0 <= q <= 1.0;
      var y := q * 100.0 * 100.0 + 0.5;
      assert 0.5 <= y <= 10000.5;
      assert 0 <= y.Floor <= 10000;
      if completed == total {
        assert (total as real) / (total as real) == 1.0;
        assert y == 10000.5;
      }
    }
    assert (0.0 * 100.0 + 0.5).Floor == 0;
  }

  /** The restaurant id of each survey, in order. */
  function Ids(surveys: seq<SurveyEntity.SurveyData>): (r: seq<int>)
    ensures |r| == |surveys|
    ensures forall i :: 0 <= i < |r| ==> r[i] == surveys[i].restaurantId
  {
    if surveys == [] then [] else Ids(surveys[..|surveys| - 1]) + [surveys[|surveys| - 1].restaurantId]
  }

  predicate NoDuplicates(keys: seq<int>)
  {
    forall i, j :: 0 <= i < j < |keys| ==> keys[i] != keys[j]
  }

  /** The distinct ids in order of first appearance: the key order of a JavaScript `Map`. */
  function FirstSeen(ids: seq<int>): (r: seq<int>)
    ensures forall x :: x in r <==> x in ids
    ensures NoDuplicates(r)
    ensures |r| <= |ids|
  {
    if ids == [] then []
    else
      var seen := FirstSeen(ids[..|ids| - 1]);
      var last := ids[|ids| - 1];
      assert ids == ids[..|ids| - 1] + [last];
      if last in seen then seen else seen + [last]
  }

  /** How many times `x` occurs in `ids`. */
  function Occurrences(ids: seq<int>, x: int): (n: nat)
    ensures n > 0 <==> x in ids
    ensures n <= |ids|
  {
    if ids == [] then 0
    else
      var last := ids[|ids| - 1];
      assert ids == ids[..|ids| - 1] + [last];
      Occurrences(ids[..|ids| - 1], x) + (if last == x then 1 else 0)
  }

  /** The count of each key among `ids`, in the order of `keys`. */
  function Tally(keys: seq<int>, ids: seq<int>): (r: seq<RestaurantCount>)
    ensures |r| == |keys|
    ensures forall j :: 0 <= j < |r| ==> r[j] == RestaurantCount(keys[j], Occurrences(ids, keys[j]))
  {
    if keys == [] then [] else Tally(keys[..|keys| - 1], ids) + [RestaurantCount(keys[|keys| - 1], Occurrences(ids, keys[|keys| - 1]))]
  }

  /** `byRestaurant` as a specification: each restaurant id once, in order of first appearance, with its count. */
  function Grouped(surveys: seq<SurveyEntity.SurveyData>): seq<RestaurantCount>
  {
    Tally(FirstSeen(Ids(surveys)), Ids(surveys))
  }

  function SumCounts(g: seq<RestaurantCount>): int
  {
    if g == [] then 0 else SumCounts(g[..|g| - 1]) + g[|g| - 1].count
  }

  lemma SumCountsAppend(g: seq<RestaurantCount>, e: RestaurantCount)
    ensures SumCounts(g + [e]) == SumCounts(g) + e.count
  {
    assert (g + [e])[..|g|] == g;
  }

  /** One more id adds one to the sum of the counts exactly when its key is listed. */
  lemma {:induction false} TallyOneMore(keys: seq<int>, ids: seq<int>, x: int)
    requires NoDuplicates(keys)
    ensures SumCounts(Tally(keys, ids + [x])) == SumCounts(Tally(keys, ids)) + (if x in keys then 1 else 0)
  {
    if keys != [] {
      var front := keys[..|keys| - 1];
      var k := keys[|keys| - 1];
      assert keys == front + [k];
      assert (ids + [x])[..|ids|] == ids;
      TallyOneMore(front, ids, x);
      SumCountsAppend(Tally(front, ids + [x]), RestaurantCount(k, Occurrences(ids + [x], k)));
      SumCountsAppend(Tally(front, ids), RestaurantCount(k, Occurrences(ids, k)));
      assert x in keys <==> x in front || x == k;
      assert x in front ==> x != k;
    }
  }

  /** The counts of `byRestaurant` add up to the number of surveys read. */
  lemma {:induction false} GroupedCountsSum(ids: seq<int>)
    ensures SumCounts(Tally(FirstSeen(ids), ids)) == |ids|
  {
    if ids != [] {
      var front := ids[..|ids| - 1];
      var x := ids[|ids| - 1];
      assert ids == front + [x];
      GroupedCountsSum(front);
      var seen := FirstSeen(front);
      TallyOneMore(seen, front, x);
      if x !in seen {
        assert Tally(seen + [x], ids)[..|seen|] == Tally(seen, ids);
        SumCountsAppend(Tally(seen, ids), RestaurantCount(x, Occurrences(ids, x)));
        assert Occurrences(front, x) == 0;
      }
    }
  }

  /**
   * `GetSurveyStatsUseCase.execute` as a specification: the totals over the
   * surveys read, the rounded completion rate, and the grouping.
   */
  function SurveyStatsOf(all: seq<SurveyEntity.SurveyData>, restaurantId: Option<int>): (r: SurveyStats)
    ensures r.totalSurveys == |Selected(all, restaurantId)|
    ensures r.completedSurveys <= r.totalSurveys
    ensures r.totalSurveys == 0 ==> r.completionRate == 0.0
    ensures 0.0 <= r.completionRate <= 100.0
    ensures NoDuplicates(RestaurantIds(r.byRestaurant))
    ensures forall s :: s in Selected(all, restaurantId) ==> s.restaurantId in RestaurantIds(r.byRestaurant)
    ensures forall e :: e in r.byRestaurant ==> e.count > 0
    ensures SumCounts(r.byRestaurant) == r.totalSurveys
  {
    var surveys := Selected(all, restaurantId);
    var completed := CompletedCount(surveys);
    GroupedCountsSum(Ids(surveys));
    var g := Grouped(surveys);
    assert RestaurantIds(g) == FirstSeen(Ids(surveys));
    IdsListed(surveys);
    SurveyStats(|surveys|, completed, CompletionRate(completed, |surveys|), g)
  }

  /** Every survey's restaurant id is among the ids read. */
  lemma IdsListed(surveys: seq<SurveyEntity.SurveyData>)
    ensures forall s :: s in surveys ==> s.restaurantId in Ids(surveys)
  {
    forall s | s in surveys
      ensures s.restaurantId in Ids(surveys)
    {
      var i :| 0 <= i < |surveys| && surveys[i] == s;
      assert Ids(surveys)[i] == s.restaurantId;
    }
  }

  /** The restaurant ids of `byRestaurant`, in order. */
  function RestaurantIds(g: seq<RestaurantCount>): (r: seq<int>)
    ensures |r| == |g|
    ensures forall j :: 0 <= j < |r| ==> r[j] == g[j].restaurantId
  {
    if g == [] then [] else RestaurantIds(g[..|g| - 1]) + [g[|g| - 1].restaurantId]
  }

  /**
   * `execute`: the surveys read, the totals by `filter` and `length`, then
   * the grouping by restaurant.
   */
  method GetSurveyStats(all: seq<SurveyEntity.SurveyData>, restaurantId: Option<int>) returns (r: SurveyStats)
    ensures r == SurveyStatsOf(all, restaurantId)
  {
    var surveys := if restaurantId.Some? && restaurantId.value != 0 then OfRestaurant(all, restaurantId.value) else all;
    var totalSurveys := |surveys|;
    var completedSurveys := CompletedCount(surveys);
    var byRestaurant := CountByRestaurant(surveys);
    r := SurveyStats(totalSurveys, completedSurveys, CompletionRate(completedSurveys, totalSurveys), byRestaurant);
  }

  /**
   * The `forEach` loop that counts surveys per restaurant in a `Map`, whose
   * key order, the order of first insertion, is kept in `order`; then the
   * map's entries.
   */
  method CountByRestaurant(surveys: seq<SurveyEntity.SurveyData>) returns (byRestaurant: seq<RestaurantCount>)
    ensures byRestaurant == Grouped(surveys)
  {
    var counts: map<int, nat> := map[];
    var order: seq<int> := [];
    for i := 0 to |surveys|
      invariant Counted(Ids(surveys[..i]), order, counts)
    {
      var id := surveys[i].restaurantId;
      IdsStep(surveys, i);
      CountStep(Ids(surveys[..i]), id, order, counts);
      var count := if id in counts then counts[id] else 0;
      counts := counts[id := count + 1];
      if id !in order {
        order := order + [id];
      }
    }
    assert surveys[..|surveys|] == surveys;
    CountedEntries(Ids(surveys), order, counts);
    byRestaurant := Entries(order, counts);
  }

  /** The loop's state after reading `ids`: the map's keys in insertion order, and each key's count. */
  ghost predicate Counted(ids: seq<int>, order: seq<int>, counts: map<int, nat>)
  {
    && order == FirstSeen(ids)
    && (forall k :: k in counts <==> k in order)
    && (forall k :: k in counts ==> counts[k] == Occurrences(ids, k))
  }

  /** One iteration of the `forEach` keeps `Counted`. */
  lemma CountStep(ids: seq<int>, x: int, order: seq<int>, counts: map<int, nat>)
    requires Counted(ids, order, counts)
    ensures Counted(ids + [x], if x in order then order else order + [x], counts[x := (if x in counts then counts[x] else 0) + 1])
  {
    FirstSeenStep(ids, x);
    OccurrencesStep(ids, x);
  }

  lemma FirstSeenStep(ids: seq<int>, x: int)
    ensures FirstSeen(ids + [x]) == if x in FirstSeen(ids) then FirstSeen(ids) else FirstSeen(ids) + [x]
  {
    assert (ids + [x])[..|ids|] == ids;
  }

  lemma OccurrencesStep(ids: seq<int>, x: int)
    ensures forall k :: Occurrences(ids + [x], k) == Occurrences(ids, k) + (if k == x then 1 else 0)
  {
    assert (ids + [x])[..|ids|] == ids;
  }

  /** At the end of the loop the map's entries are the grouping of the ids read. */
  lemma CountedEntries(ids: seq<int>, order: seq<int>, counts: map<int, nat>)
    requires Counted(ids, order, counts)
    ensures forall j :: 0 <= j < |order| ==> order[j] in counts
    ensures Entries(order, counts) == Tally(FirstSeen(ids), ids)
  {
  }

  /** Taking one more survey appends its restaurant id. */
  lemma IdsStep(surveys: seq<SurveyEntity.SurveyData>, i: int)
    requires 0 <= i < |surveys|
    ensures Ids(surveys[..i + 1]) == Ids(surveys[..i]) + [surveys[i].restaurantId]
    ensures Ids(surveys[..i + 1])[..i] == Ids(surveys[..i])
  {
    assert surveys[..i + 1][..i] == surveys[..i];
  }

  /** `Array.from(byRestaurant.entries()).map(...)`: the map's entries in key order. */
  function Entries(order: seq<int>, counts: map<int, nat>): (r: seq<RestaurantCount>)
    requires forall j :: 0 <= j < |order| ==> order[j] in counts
    ensures |r| == |order|
    ensures forall j :: 0 <= j < |r| ==> r[j] == RestaurantCount(order[j], counts[order[j]])
  {
    if order == [] then [] else Entries(order[..|order| - 1], counts) + [RestaurantCount(order[|order| - 1], counts[order[|order| - 1]])]
  }

  // ---------------------------------------------------------------------
  // An owner's statistics

  datatype RestaurantStats = RestaurantStats(id: int, name: string, likes: nat, photos: nat, downloads: int)

  datatype OwnerStats = OwnerStats(
    total: nat,
    list: seq<RestaurantStats>,
    totalLikes: int,
    totalPhotos: int,
    totalDownloads: int)

  /** `favoriteRepository.countByRestaurant`: the favorites of the restaurant. */
  function LikesOf(db: Db, restaurantId: int): nat
  {
    |FavoritesOf(db.favorites, restaurantId)|
  }

  /** `userPhotoRepository.countByRestaurant`: the photos uploaded for the restaurant. */
  function PhotosOf(db: Db, restaurantId: int): nat
  {
    |set id | id in db.photos && db.photos[id].restaurantId == restaurantId|
  }

  /** `menuRepository.getTotalDownloadsByRestaurant`: the download counts of its menus, added up. */
  function DownloadsOf(menus: seq<MenuEntity.MenuData>, restaurantId: int): int
  {
    if menus == [] then 0
    else DownloadsOf(menus[..|menus| - 1], restaurantId)
         + (if menus[|menus| - 1].restaurantId == restaurantId then menus[|menus| - 1].downloadCount else 0)
  }

  /** The sum of `downloadCount` over all menus, as `reduce` adds them. */
  function TotalDownloads(menus: seq<MenuEntity.MenuData>): int
  {
    if menus == [] then 0 else TotalDownloads(menus[..|menus| - 1]) + menus[|menus| - 1].downloadCount
  }

  function StatsOf(db: Db, menus: seq<MenuEntity.MenuData>, r: RestaurantEntity.RestaurantData): RestaurantStats
  {
    RestaurantStats(r.id, r.name, LikesOf(db, r.id), PhotosOf(db, r.id), DownloadsOf(menus, r.id))
  }

  function ListStats(db: Db, menus: seq<MenuEntity.MenuData>, owned: seq<RestaurantEntity.RestaurantData>)
    : (r: seq<RestaurantStats>)
    ensures |r| == |owned|
    ensures forall i :: 0 <= i < |r| ==> r[i] == StatsOf(db, menus, owned[i])
  {
    if owned == [] then [] else ListStats(db, menus, owned[..|owned| - 1]) + [StatsOf(db, menus, owned[|owned| - 1])]
  }

  function SumLikes(list: seq<RestaurantStats>): int
  {
    if list == [] then 0 else SumLikes(list[..|list| - 1]) + list[|list| - 1].likes
  }

  function SumPhotos(list: seq<RestaurantStats>): int
  {
    if list == [] then 0 else SumPhotos(list[..|list| - 1]) + list[|list| - 1].photos
  }

  function SumDownloads(list: seq<RestaurantStats>): int
  {
    if list == [] then 0 else SumDownloads(list[..|list| - 1]) + list[|list| - 1].downloads
  }

  /**
   * `GetOwnerStatsUseCase.execute` on the rows `findByOwnerId` returned:
   * one entry per restaurant in the same order, likes counted from the
   * favorites, and the three totals.
   */
  function GetOwnerStats(db: Db, owned: seq<RestaurantEntity.RestaurantData>, menus: seq<MenuEntity.MenuData>)
    : (r: OwnerStats)
    ensures r.total == |owned| && |r.list| == |owned|
    ensures forall i :: 0 <= i < |owned| ==> r.list[i].id == owned[i].id && r.list[i].name == owned[i].name
                                              && r.list[i].likes == |FavoritesOf(db.favorites, owned[i].id)|
    ensures forall i :: 0 <= i < |owned| ==> r.list[i] == StatsOf(db, menus, owned[i])
    ensures r.totalLikes == SumLikes(r.list) && r.totalPhotos == SumPhotos(r.list)
            && r.totalDownloads == SumDownloads(r.list)
    ensures r.totalLikes >= 0 && r.totalPhotos >= 0
  {
    var list := ListStats(db, menus, owned);
    SumsNonNegative(list);
    OwnerStats(|owned|, list, SumLikes(list), SumPhotos(list), SumDownloads(list))
  }

  /**
   * One more restaurant in the owner's list adds its own likes, photos and
   * downloads to the three totals and leaves the earlier rows as they were.
   */
  lemma OwnerTotalsOfOneMore(db: Db, owned: seq<RestaurantEntity.RestaurantData>,
                             r: RestaurantEntity.RestaurantData, menus: seq<MenuEntity.MenuData>)
    ensures GetOwnerStats(db, owned + [r], menus).list == GetOwnerStats(db, owned, menus).list + [StatsOf(db, menus, r)]
    ensures GetOwnerStats(db, owned + [r], menus).totalLikes
            == GetOwnerStats(db, owned, menus).totalLikes + |FavoritesOf(db.favorites, r.id)|
    ensures GetOwnerStats(db, owned + [r], menus).totalPhotos
            == GetOwnerStats(db, owned, menus).totalPhotos + PhotosOf(db, r.id)
    ensures GetOwnerStats(db, owned + [r], menus).totalDownloads
            == GetOwnerStats(db, owned, menus).totalDownloads + DownloadsOf(menus, r.id)
  {
    assert (owned + [r])[..|owned|] == owned;
    var list := ListStats(db, menus, owned + [r]);
    assert list == ListStats(db, menus, owned) + [StatsOf(db, menus, r)];
    assert list[..|list| - 1] == ListStats(db, menus, owned);
  }

  lemma {:induction false} SumsNonNegative(list: seq<RestaurantStats>)
    ensures SumLikes(list) >= 0 && SumPhotos(list) >= 0
  {
    if list != [] {
      SumsNonNegative(list[..|list| - 1]);
    }
  }

  function SumLikesCount(rs: seq<RestaurantEntity.RestaurantData>): int
  {
    if rs == [] then 0 else SumLikesCount(rs[..|rs| - 1]) + rs[|rs| - 1].likesCount
  }

  /**
   * While every restaurant's counter matches its favorites, the likes an
   * owner's statistics count from favorites equal the stored counters,
   * one by one and in total.
   */
  lemma OwnerLikesMatchCounters(db: Db, owned: seq<RestaurantEntity.RestaurantData>,
                                 menus: seq<MenuEntity.MenuData>)
    requires LikesConsistent(db)
    requires forall r :: r in owned ==> r.id in db.restaurants && db.restaurants[r.id] == r
    ensures forall i :: 0 <= i < |owned| ==> GetOwnerStats(db, owned, menus).list[i].likes == owned[i].likesCount
    ensures GetOwnerStats(db, owned, menus).totalLikes == SumLikesCount(owned)
  {
    ListLikesMatch(db, menus, owned);
    forall i | 0 <= i < |owned|
      ensures GetOwnerStats(db, owned, menus).list[i].likes == owned[i].likesCount
    {
      assert owned[i] in owned;
    }
  }

  /** The likes the list counts from favorites add up to the stored counters, row by row. */
  lemma {:induction false} ListLikesMatch(db: Db, menus: seq<MenuEntity.MenuData>,
                                          owned: seq<RestaurantEntity.RestaurantData>)
    requires LikesConsistent(db)
    requires forall r :: r in owned ==> r.id in db.restaurants && db.restaurants[r.id] == r
    ensures SumLikes(ListStats(db, menus, owned)) == SumLikesCount(owned)
  {
    if owned != [] {
      var front := owned[..|owned| - 1];
      var last := owned[|owned| - 1];
      assert forall r :: r in front ==> r in owned;
      ListLikesMatch(db, menus, front);
      assert last in owned;
      var list := ListStats(db, menus, owned);
      assert list[..|list| - 1] == ListStats(db, menus, front);
    }
  }

  /** The downloads of one restaurant's menus are part of the total, when no count is negative. */
  lemma {:induction false} RestaurantDownloadsWithinTotal(menus: seq<MenuEntity.MenuData>, restaurantId: int)
    requires forall m :: m in menus ==> m.downloadCount >= 0
    ensures 0 <= DownloadsOf(menus, restaurantId) <= TotalDownloads(menus)
  {
    if menus != [] {
      var front := menus[..|menus| - 1];
      assert forall m :: m in front ==> m in menus;
      assert menus[|menus| - 1] in menus;
      RestaurantDownloadsWithinTotal(front, restaurantId);
    }
  }

  // ---------------------------------------------------------------------
  // Global statistics

  datatype PopularRestaurant = PopularRestaurant(id: int, name: string, likesCount: int)

  datatype GlobalStats = GlobalStats(
    totalUsers: nat,
    clients: nat,
    restaurantOwners: nat,
    administrators: nat,
    totalRestaurants: nat,
    mostPopular: seq<PopularRestaurant>,
    totalFavorites: nat,
    totalDownloads: int)

  /** `countByType`: the users of one type. */
  function UsersOfType(db: Db, t: UT.UserType): set<int>
  {
    set id | id in db.users && db.users[id].userType == t
  }

  /** The number of restaurants `findMostPopular` is asked for. */
  const PopularCount := 5

  function Popular(rs: seq<RestaurantEntity.RestaurantData>): (r: seq<PopularRestaurant>)
    ensures |r| == |rs|
    ensures forall i :: 0 <= i < |r| ==> r[i] == PopularRestaurant(rs[i].id, rs[i].name, rs[i].likesCount)
  {
    if rs == [] then [] else Popular(rs[..|rs| - 1]) + [PopularRestaurant(rs[|rs| - 1].id, rs[|rs| - 1].name, rs[|rs| - 1].likesCount)]
  }

  /**
   * `GetGlobalStatsUseCase.execute`: user counts overall and per type,
   * restaurant and favorite counts, the five most popular restaurants as
   * `findMostPopular` ranks them, and the downloads of all menus.
   */
  function GetGlobalStats(db: Db, findMostPopular: nat -> seq<RestaurantEntity.RestaurantData>,
                          menus: seq<MenuEntity.MenuData>): (r: GlobalStats)
    ensures r.clients + r.restaurantOwners + r.administrators == r.totalUsers == |db.users|
    ensures r.totalRestaurants == |db.restaurants| && r.totalFavorites == |db.favorites|
    ensures |r.mostPopular| == |findMostPopular(PopularCount)|
    ensures forall i :: 0 <= i < |r.mostPopular| ==>
              var p := findMostPopular(PopularCount)[i];
              r.mostPopular[i] == PopularRestaurant(p.id, p.name, p.likesCount)
    ensures r.totalDownloads == TotalDownloads(menus)
  {
    UserTypesPartition(db);
    GlobalStats(|db.users|, |UsersOfType(db, UT.Client)|, |UsersOfType(db, UT.RestaurantOwner)|,
                |UsersOfType(db, UT.Admin)|, |db.restaurants|, Popular(findMostPopular(PopularCount)),
                |db.favorites|, TotalDownloads(menus))
  }

  /** Every user has exactly one type, so the three per-type counts add up to the user count. */
  lemma UserTypesPartition(db: Db)
    ensures |UsersOfType(db, UT.Client)| + |UsersOfType(db, UT.RestaurantOwner)| + |UsersOfType(db, UT.Admin)|
            == |db.users|
  {
    var c, o, a := UsersOfType(db, UT.Client), UsersOfType(db, UT.RestaurantOwner), UsersOfType(db, UT.Admin);
    assert c * o == {};
    assert |c + o| == |c| + |o|;
    assert (c + o) * a == {};
    assert |c + o + a| == |c + o| + |a|;
    forall id | id in db.users
      ensures id in c + o + a
    {
      match db.users[id].userType {
        case Client =>
        case RestaurantOwner =>
        case Admin =>
      }
    }
    assert c + o + a == db.users.Keys;
  }

  /** Adding menus adds their downloads: `reduce` distributes over concatenation. */
  lemma {:induction false} TotalDownloadsAppend(a: seq<MenuEntity.MenuData>, b: seq<MenuEntity.MenuData>)
    ensures TotalDownloads(a + b) == TotalDownloads(a) + TotalDownloads(b)
  {
    if b != [] {
      var front := b[..|b| - 1];
      assert (a + b)[..|a + b| - 1] == a + front;
      TotalDownloadsAppend(a, front);
    } else {
      assert a + b == a;
    }
  }
}
