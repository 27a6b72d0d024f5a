/**
 * LikeCounterService: popularity levels, featuring, milestones and
 * recommendations derived from a restaurant's like count.
 */
module LikeCounter {
  import opened Outcomes

  datatype Level = Low | Medium | High | Trending

  const PopularThreshold := 10
  const TrendingThreshold := 50

  /** `isPopular` */
  predicate IsPopular(likes: int) { likes >= PopularThreshold }

  /** `isTrending` */
  predicate IsTrending(likes: int) { likes >= TrendingThreshold }

  /** `getPopularityLevel`: below 10 low, below 30 medium, below 50 high, else trending. */
  function PopularityLevel(likes: int): Level
  {
    if likes < 10 then Low
    else if likes < 30 then Medium
    else if likes < 50 then High
    else Trending
  }

  function LevelRank(l: Level): nat
  {
    match l
    case Low => 0
    case Medium => 1
    case High => 2
    case Trending => 3
  }

  /** `getPopularityLabel` */
  function PopularityLabel(likes: int): string
  {
    match PopularityLevel(likes)
    case Low => "Nuevo"
    case Medium => "Popular"
    case High => "Muy Popular"
    case Trending => "\U{1F525} Trending"
  }

  /** `getPopularityColor` */
  function PopularityColor(likes: int): string
  {
    match PopularityLevel(likes)
    case Low => "#9CA3AF"
    case Medium => "#3B82F6"
    case High => "#8B5CF6"
    case Trending => "#EF4444"
  }

  /** `shouldFeature`: a young restaurant with 5 likes, or any popular one. */
  predicate ShouldFeature(likes: int, daysSinceCreation: int)
  {
    (daysSinceCreation <= 30 && likes >= 5) || IsPopular(likes)
  }

  datatype Milestone = Milestone(likes: int, title: string)

  /** The milestones in ascending order of likes. */
  const Milestones: seq<Milestone> := [
    Milestone(10, "Popular"), Milestone(30, "Muy Popular"), Milestone(50, "Trending"),
    Milestone(100, "Top 100"), Milestone(250, "Top 50"), Milestone(500, "Top 10"),
    Milestone(1000, "Leyenda")]

  predicate Ascending(ms: seq<Milestone>)
  {
    forall i, j :: 0 <= i < j < |ms| ==> ms[i].likes < ms[j].likes
  }

  /** `milestones.find(m => m.likes > current)`: the first milestone above the count. */
  function FirstAbove(ms: seq<Milestone>, current: int): (r: Option<Milestone>)
    ensures r.None? <==> forall i :: 0 <= i < |ms| ==> ms[i].likes <= current
    ensures r.Some? ==> r.value in ms && r.value.likes > current
    ensures r.Some? && Ascending(ms) ==> forall i :: 0 <= i < |ms| && ms[i].likes > current ==> r.value.likes <= ms[i].likes
  {
    if ms == [] then None
    else if ms[0].likes > current then Some(ms[0])
    else
      var r := FirstAbove(ms[1..], current);
      assert forall i :: 1 <= i < |ms| ==> ms[i] == ms[1..][i - 1];
      r
  }

  datatype NextStep = NextStep(likes: int, title: string, remaining: int)

  const TopLabel := "Máximo Nivel"

  /** `getNextMilestone` */
  function NextMilestone(current: int): NextStep
  {
    match FirstAbove(Milestones, current)
    case Some(m) => NextStep(m.likes, m.title, m.likes - current)
    case None => NextStep(current, TopLabel, 0)
  }

  const ShareTip := "Comparte tu restaurante en redes sociales"
  const InviteTip := "Invita a tus clientes a marcar como favorito"
  const PhotoTip := "Anima a tus clientes a subir fotos de su visita"
  const MenuTip := "Asegúrate de tener un menú atractivo y actualizado"
  const UpdateTip := "Mantén tu información actualizada para seguir creciendo"
  const ReplyTip := "Responde a los comentarios de tus clientes"

  /**
   * `getRecommendations`. The menu test `downloads < likes * 0.5` is
   * `2 * downloads < likes` on integers.
   */
  function Recommendations(likes: int, photos: int, downloads: int): seq<string>
  {
    (if likes < 10 then [ShareTip, InviteTip] else [])
    + (if photos < 5 then [PhotoTip] else [])
    + (if 2 * downloads < likes then [MenuTip] else [])
    + (if 10 <= likes < 50 then [UpdateTip, ReplyTip] else [])
  }

  /** The integer part of `getInsights`. */
  datatype Insights = Insights(
    current: int, previous: int, growth: int, isGrowing: bool, level: Level,
    levelLabel: string, levelColor: string, isPopular: bool, isTrending: bool, nextMilestone: NextStep)

  function GetInsights(likes: int, previous: int): (r: Insights)
    ensures r.growth == likes - previous && (r.isGrowing <==> likes > previous)
    ensures r.level == PopularityLevel(likes) && r.nextMilestone == NextMilestone(likes)
    ensures r.isPopular <==> r.level != Low
    ensures r.isTrending <==> r.level == Trending
  {
    var growth := likes - previous;
    LevelAgreesWithFlags(likes);
    Insights(likes, previous, growth, growth > 0, PopularityLevel(likes), PopularityLabel(likes),
      PopularityColor(likes), IsPopular(likes), IsTrending(likes), NextMilestone(likes))
  }

  // ---------------------------------------------------------------------
  // Properties

  /** The level never goes down as likes go up. */
  lemma LevelMonotone(a: int, b: int)
    requires a <= b
    ensures LevelRank(PopularityLevel(a)) <= LevelRank(PopularityLevel(b))
  {
  }

  /** Popular means any level above low; trending means the trending level. */
  lemma LevelAgreesWithFlags(likes: int)
    ensures IsPopular(likes) <==> PopularityLevel(likes) != Low
    ensures IsTrending(likes) <==> PopularityLevel(likes) == Trending
    ensures IsTrending(likes) ==> IsPopular(likes)
  {
  }

  /** Featuring needs at least 5 likes, and 10 always suffice. */
  lemma FeatureBounds(likes: int, days: int)
    ensures ShouldFeature(likes, days) ==> likes >= 5
    ensures likes >= 10 ==> ShouldFeature(likes, days)
    ensures days > 30 ==> (ShouldFeature(likes, days) <==> IsPopular(likes))
  {
  }

  lemma MilestonesAscending()
    ensures Ascending(Milestones)
  {
  }

  /** Below 1000 likes the next milestone is the smallest one above the count, with a positive distance. */
  lemma NextMilestoneBelowTop(current: int)
    requires current < 1000
    ensures var n := NextMilestone(current);
      Milestone(n.likes, n.title) in Milestones
      && n.likes > current && n.remaining == n.likes - current && n.remaining > 0
      && forall m :: m in Milestones && m.likes > current ==> n.likes <= m.likes
  {
    MilestonesAscending();
    assert Milestones[6].likes > current;
  }

  /** From 1000 likes on, every milestone is reached. */
  lemma NextMilestoneAtTop(current: int)
    requires current >= 1000
    ensures NextMilestone(current) == NextStep(current, TopLabel, 0)
  {
  }

  /** Which tips appear, each under its own condition, in the order they are checked. */
  lemma RecommendationsContent(likes: int, photos: int, downloads: int)
    ensures var r := Recommendations(likes, photos, downloads);
      (ShareTip in r <==> likes < 10) && (InviteTip in r <==> likes < 10)
      && (PhotoTip in r <==> photos < 5)
      && (MenuTip in r <==> 2 * downloads < likes)
      && (UpdateTip in r <==> 10 <= likes < 50) && (ReplyTip in r <==> 10 <= likes < 50)
      && (likes < 10 ==> r[..2] == [ShareTip, InviteTip])
      && |r| <= 6
  {
    var a := if likes < 10 then [ShareTip, InviteTip] else [];
    var b := if photos < 5 then [PhotoTip] else [];
    var c := if 2 * downloads < likes then [MenuTip] else [];
    var d := if 10 <= likes < 50 then [UpdateTip, ReplyTip] else [];
    var r := Recommendations(likes, photos, downloads);
    assert r == a + b + c + d;
    TipsDistinct();
    forall t ensures t in r <==> t in a || t in b || t in c || t in d { }
  }

  /** The six tips are six different texts. */
  lemma TipsDistinct()
    ensures ShareTip != InviteTip && ShareTip != PhotoTip && ShareTip != MenuTip && ShareTip != UpdateTip && ShareTip != ReplyTip
    ensures InviteTip != PhotoTip && InviteTip != MenuTip && InviteTip != UpdateTip && InviteTip != ReplyTip
    ensures PhotoTip != MenuTip && PhotoTip != UpdateTip && PhotoTip != ReplyTip
    ensures MenuTip != UpdateTip && MenuTip != ReplyTip && UpdateTip != ReplyTip
  {
  }
}
