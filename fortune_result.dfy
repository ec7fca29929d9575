/**
 * The fortune report card: the rating tier looked up in a fixed profile table,
 * the score shown as text and as a progress value, and the recommendations
 * split into a "do" column and an "avoid" column.
 */
module FortuneResult {
  import opened Wrappers
  import NumberText
  import opened Recommendations

  /** The five values the `rating` prop may take. */
  datatype Rating = GreatFortune | GoodFortune | Neutral | BadFortune | TerribleFortune

  /** The property name under which the profile table stores a tier. */
  function Key(r: Rating): string {
    match r
    case GreatFortune => "great-fortune"
    case GoodFortune => "good-fortune"
    case Neutral => "neutral"
    case BadFortune => "bad-fortune"
    case TerribleFortune => "terrible-fortune"
  }

  /** The tier whose key is `s`, if any. */
  function ParseRating(s: string): Option<Rating> {
    if s == "great-fortune" then Some(GreatFortune)
    else if s == "good-fortune" then Some(GoodFortune)
    else if s == "neutral" then Some(Neutral)
    else if s == "bad-fortune" then Some(BadFortune)
    else if s == "terrible-fortune" then Some(TerribleFortune)
    else None
  }

  /** Key and ParseRating are inverse to each other, in both directions. */
  lemma KeyRoundTrip(r: Rating, s: string)
    ensures ParseRating(Key(r)) == Some(r)
    ensures ParseRating(s) == Some(r) <==> s == Key(r)
  {
  }

  datatype Icon = CheckCircle | ThumbsUp | Info | ThumbsDown | AlertTriangle

  /** One entry of the profile table. */
  datatype RatingProfile = RatingProfile(
    labelText: string,
    color: string,
    textColor: string,
    icon: Icon,
    description: string)

  /** The profile table, keyed by property name. */
  const RatingConfig: map<string, RatingProfile> := map[
    "great-fortune" := RatingProfile("大吉", "bg-green-500", "text-green-500", CheckCircle,
                                     "今日运势极佳，万事顺遂"),
    "good-fortune" := RatingProfile("小吉", "bg-emerald-400", "text-emerald-400", ThumbsUp,
                                    "今日运势良好，适合进行大多数活动"),
    "neutral" := RatingProfile("中平", "bg-blue-400", "text-blue-400", Info,
                               "今日运势平稳，宜守不宜进"),
    "bad-fortune" := RatingProfile("小凶", "bg-orange-400", "text-orange-400", ThumbsDown,
                                   "今日运势欠佳，需谨慎行事"),
    "terrible-fortune" := RatingProfile("大凶", "bg-red-500", "text-red-500", AlertTriangle,
                                        "今日运势不佳，宜静养避祸")
  ]

  /**
   * Property access on the table restricted to its own keys: a string that is
   * not one of the five yields no profile (rendering would fail on it). Names a
   * plain object inherits from its prototype are not part of this model.
   */
  function LookupProfile(key: string): (p: Option<RatingProfile>)
    ensures p.Some? <==> ParseRating(key).Some?
  {
    if key in RatingConfig then Some(RatingConfig[key]) else None
  }

  /** The profile shown for a tier (`ratingConfig[rating]`). */
  function Profile(r: Rating): (p: RatingProfile)
    ensures LookupProfile(Key(r)) == Some(p)
  {
    RatingConfig[Key(r)]
  }

  /** The table has exactly one entry per tier and nothing else. */
  lemma RatingConfigTotal()
    ensures forall r: Rating :: Key(r) in RatingConfig
    ensures forall k :: k in RatingConfig <==> ParseRating(k).Some?
    ensures |RatingConfig| == 5
  {
    assert RatingConfig.Keys == {"great-fortune", "good-fortune", "neutral", "bad-fortune", "terrible-fortune"};
  }

  /** The tier a badge label stands for. */
  function TierOfLabel(labelText: string): Option<Rating> {
    if labelText == "大吉" then Some(GreatFortune)
    else if labelText == "小吉" then Some(GoodFortune)
    else if labelText == "中平" then Some(Neutral)
    else if labelText == "小凶" then Some(BadFortune)
    else if labelText == "大凶" then Some(TerribleFortune)
    else None
  }

  /** The badge labels: great 大吉, good 小吉, neutral 中平, bad 小凶, terrible 大凶. */
  lemma ProfileLabels(r: Rating)
    ensures Profile(r).labelText == match r
      case GreatFortune => "大吉"
      case GoodFortune => "小吉"
      case Neutral => "中平"
      case BadFortune => "小凶"
      case TerribleFortune => "大凶"
    ensures TierOfLabel(Profile(r).labelText) == Some(r)
  {
  }

  /** No two tiers share a badge label. */
  lemma ProfileLabelsDistinct(a: Rating, b: Rating)
    requires Profile(a).labelText == Profile(b).labelText
    ensures a == b
  {
    ProfileLabels(a);
    ProfileLabels(b);
  }

  /** The props of the report, each optional prop already replaced by its default when absent. */
  datatype Props = Props(
    name: string,
    birthdate: string,
    rating: Rating,
    score: int,
    recommendations: seq<Recommendation>,
    interpretation: string)

  /** The props a caller passes; None is a prop left out. */
  datatype Args = Args(
    name: Option<string>,
    birthdate: Option<string>,
    rating: Option<Rating>,
    score: Option<int>,
    recommendations: Option<seq<Recommendation>>,
    interpretation: Option<string>)

  const DefaultRecommendations: seq<Recommendation> := [
    Recommendation("宜：投资理财", "今日财运亨通，适合进行投资活动或理财规划。", Do),
    Recommendation("宜：社交活动", "人缘运势佳，适合参加社交活动，拓展人脉。", Do),
    Recommendation("宜：学习进修", "思维敏捷，记忆力增强，是学习新知识的好时机。", Do),
    Recommendation("忌：冲动消费", "虽然财运不错，但仍需避免不必要的冲动消费。", Avoid),
    Recommendation("忌：激烈运动", "身体能量略有不足，不宜进行剧烈运动。", Avoid)
  ]

  const DefaultInterpretation: string :=
    "根据紫微斗数和八字分析，您今日的整体运势良好。财运和人际关系方面尤为突出，可把握机会拓展人脉和进行适度投资。"
    + "健康方面需要注意休息，避免过度劳累。工作学习效率较高，适合处理需要专注力的任务。感情方面平稳，已有伴侣的人可增进感情交流。"

  const DefaultProps: Props :=
    Props("张三", "1990-01-01", GoodFortune, 78, DefaultRecommendations, DefaultInterpretation)

  /** Destructuring with defaults: a prop that is passed wins, a missing one takes its default. */
  function WithDefaults(a: Args): (p: Props)
    ensures a.name == Some(p.name) || (a.name.None? && p.name == DefaultProps.name)
    ensures a.birthdate == Some(p.birthdate) || (a.birthdate.None? && p.birthdate == DefaultProps.birthdate)
    ensures a.rating == Some(p.rating) || (a.rating.None? && p.rating == DefaultProps.rating)
    ensures a.score == Some(p.score) || (a.score.None? && p.score == DefaultProps.score)
    ensures a.recommendations == Some(p.recommendations)
         || (a.recommendations.None? && p.recommendations == DefaultProps.recommendations)
    ensures a.interpretation == Some(p.interpretation)
         || (a.interpretation.None? && p.interpretation == DefaultProps.interpretation)
  {
    Props(
      a.name.GetOr(DefaultProps.name),
      a.birthdate.GetOr(DefaultProps.birthdate),
      a.rating.GetOr(DefaultProps.rating),
      a.score.GetOr(DefaultProps.score),
      a.recommendations.GetOr(DefaultProps.recommendations),
      a.interpretation.GetOr(DefaultProps.interpretation))
  }

  /** The default report: tier good-fortune, score 78, three "do" items, then two "avoid" items. */
  lemma DefaultReport()
    ensures WithDefaults(Args(None, None, None, None, None, None)) == DefaultProps
    ensures DefaultProps.rating == GoodFortune && DefaultProps.score == 78
    ensures Column(DefaultRecommendations, Do) == DefaultRecommendations[..3]
    ensures Column(DefaultRecommendations, Avoid) == DefaultRecommendations[3..]
  {
    var d := DefaultRecommendations;
    assert d == d[..3] + d[3..];
    ColumnAppend(d[..3], d[3..], Do);
    ColumnAppend(d[..3], d[3..], Avoid);
    ColumnOfOneKind(d[..3], Do);
    ColumnOfOneKind(d[3..], Avoid);
  }

  /** The header text `{name} · {birthdate}`. */
  function Header(name: string, birthdate: string): string {
    name + " · " + birthdate
  }

  /** The score text `{score}/100`. */
  function ScoreText(score: int): string {
    NumberText.IntToText(score) + "/100"
  }

  /** Reads the score back from a score text. */
  function ParseScoreText(s: string): Option<int> {
    if |s| >= 4 && s[|s| - 4..] == "/100" then NumberText.ParseInt(s[..|s| - 4]) else None
  }

  /** What the report card shows. */
  datatype ResultView = ResultView(
    header: string,
    badgeLabel: string,
    badgeColor: string,
    headline: string,
    headlineColor: string,
    scoreText: string,
    progress: int,
    doColumn: seq<Recommendation>,
    avoidColumn: seq<Recommendation>,
    interpretation: string)

  /** Renders the report from its props. */
  function Render(p: Props): (v: ResultView)
    ensures TierOfLabel(v.badgeLabel) == Some(p.rating)
    ensures v.progress == p.score
    ensures |v.doColumn| + |v.avoidColumn| == |p.recommendations|
  {
    ProfileLabels(p.rating);
    ColumnsPartition(p.recommendations);
    var profile := Profile(p.rating);
    ResultView(
      Header(p.name, p.birthdate),
      profile.labelText, profile.color,
      profile.description, profile.textColor,
      ScoreText(p.score), p.score,
      Column(p.recommendations, Do), Column(p.recommendations, Avoid),
      p.interpretation)
  }

  /** The score is shown unchanged, as text and as progress value, without clamping. */
  lemma RenderShowsScore(p: Props)
    ensures ParseScoreText(Render(p).scoreText) == Some(p.score)
    ensures Render(p).progress == p.score
  {
    var s := Render(p).scoreText;
    NumberText.IntToTextRoundTrip(p.score);
    assert s[..|s| - 4] == NumberText.IntToText(p.score);
  }

  /** The header starts with the name and ends with the birthdate, both verbatim. */
  lemma RenderShowsIdentity(p: Props)
    ensures p.name <= Render(p).header
    ensures var h := Render(p).header; |h| == |p.name| + 3 + |p.birthdate| && h[|h| - |p.birthdate|..] == p.birthdate
  {
    var h := Render(p).header;
    assert h[..|p.name|] == p.name;
    assert h[|h| - |p.birthdate|..] == p.birthdate;
  }

  /** The badge and headline are the tier's profile entry. */
  lemma RenderShowsRating(p: Props)
    ensures LookupProfile(Key(p.rating)) ==
      Some(RatingProfile(Render(p).badgeLabel, Render(p).badgeColor, Render(p).headlineColor,
                         Profile(p.rating).icon, Render(p).headline))
  {
  }

  /** The two columns together hold every recommendation exactly once. */
  lemma RenderColumnsPartition(p: Props)
    ensures multiset(Render(p).doColumn) + multiset(Render(p).avoidColumn) == multiset(p.recommendations)
    ensures forall r :: r in Render(p).doColumn <==> r in p.recommendations && r.kind == Do
    ensures forall r :: r in Render(p).avoidColumn <==> r in p.recommendations && r.kind == Avoid
  {
    ColumnsPartition(p.recommendations);
    forall r
      ensures r in Render(p).doColumn <==> r in p.recommendations && r.kind == Do
      ensures r in Render(p).avoidColumn <==> r in p.recommendations && r.kind == Avoid
    {
      ColumnMembers(p.recommendations, Do, r);
      ColumnMembers(p.recommendations, Avoid, r);
    }
  }

  /**
   * A report of tier good-fortune, score 78, one "do" item then one "avoid" item:
   * the card shows 小吉, "78/100", and one entry in each column.
   */
  lemma RenderExample(doItem: Recommendation, avoidItem: Recommendation)
    requires doItem.kind == Do && avoidItem.kind == Avoid
    ensures var v := Render(Props("张三", "1990-01-01", GoodFortune, 78, [doItem, avoidItem], "…"));
      v.badgeLabel == "小吉" && v.scoreText == "78/100" && v.progress == 78
      && v.doColumn == [doItem] && v.avoidColumn == [avoidItem]
  {
    ColumnAppend([doItem], [avoidItem], Do);
    ColumnAppend([doItem], [avoidItem], Avoid);
    assert NumberText.NatToText(78) == "78" by {
      assert NumberText.NatToText(7) == "7";
    }
  }
}
