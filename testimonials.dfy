/**
 * The testimonial cards: a five-star rating row and the avatar's fallback
 * initial. A testimonial's `rating` is a JavaScript number; here it is an
 * integer.
 */
module Testimonials {

  datatype StarStyle = Filled | Unfilled

  /** A rating row always has this many stars. */
  const StarCount: nat := 5

  /** `[...Array(5)].map((_, i) => i < rating ? filled : unfilled)`. */
  function StarRating(rating: int): (stars: seq<StarStyle>)
    ensures |stars| == StarCount
  {
    seq(StarCount, i => if i < rating then Filled else Unfilled)
  }

  /** Star `i` is filled exactly when `i < rating`, so the filled stars form a prefix. */
  lemma StarFilledIff(rating: int, i: nat, j: nat)
    requires j <= i < StarCount
    ensures StarRating(rating)[i] == Filled <==> i < rating
    ensures StarRating(rating)[i] == Filled ==> StarRating(rating)[j] == Filled
  {
  }

  function CountFilled(stars: seq<StarStyle>): (n: nat)
    ensures n <= |stars|
  {
    if stars == [] then 0 else (if stars[0] == Filled then 1 else 0) + CountFilled(stars[1..])
  }

  function Clamp(rating: int): (n: nat)
    ensures n <= StarCount
  {
    if rating < 0 then 0 else if rating > StarCount then StarCount else rating
  }

  /** A row whose first `m` stars are filled and the rest not has `m` filled stars. */
  lemma {:induction false} CountFilledPrefix(stars: seq<StarStyle>, m: nat)
    requires m <= |stars|
    requires forall i :: 0 <= i < |stars| ==> (stars[i] == Filled <==> i < m)
    ensures CountFilled(stars) == m
  {
    if stars != [] {
      CountFilledPrefix(stars[1..], if m == 0 then 0 else m - 1);
    }
  }

  /** The number of filled stars is the rating clamped to the range 0..5. */
  lemma FilledCountIsClamped(rating: int)
    ensures CountFilled(StarRating(rating)) == Clamp(rating)
  {
    CountFilledPrefix(StarRating(rating), Clamp(rating));
  }

  /** `name.charAt(0)`: the first character, or the empty string for an empty name. */
  function AvatarFallback(name: string): (initial: string)
    ensures |initial| == (if |name| == 0 then 0 else 1)
    ensures initial <= name
  {
    if |name| == 0 then "" else name[..1]
  }

  datatype Testimonial = Testimonial(name: string, avatar: string, role: string, content: string, rating: int)

  const DefaultTestimonials: seq<Testimonial> := [
    Testimonial("李明", "https://api.dicebear.com/7.x/avataaars/svg?seed=lisa", "企业家",
      "这个运势计算网站太神奇了！预测的事项非常准确，帮我避开了几次潜在的商业风险。现在我每天早上都会查看我的运势报告，作为决策参考。", 5),
    Testimonial("王芳", "https://api.dicebear.com/7.x/avataaars/svg?seed=john", "自由职业者",
      "作为一名自由职业者，时间管理对我来说非常重要。这个网站帮助我选择最佳时机进行重要会议和项目启动，效果显著！", 4),
    Testimonial("张伟", "https://api.dicebear.com/7.x/avataaars/svg?seed=sarah", "学生",
      "起初我抱着怀疑的态度使用这个网站，但连续几次准确的预测让我彻底信服。特别是在考试和面试前查看运势，给了我很大帮助。", 5)
  ]

  /** The default cards show 5, 4 and 5 filled stars. */
  lemma DefaultStars()
    ensures |DefaultTestimonials| == 3
    ensures CountFilled(StarRating(DefaultTestimonials[0].rating)) == 5
    ensures CountFilled(StarRating(DefaultTestimonials[1].rating)) == 4
    ensures CountFilled(StarRating(DefaultTestimonials[2].rating)) == 5
  {
    FilledCountIsClamped(5);
    FilledCountIsClamped(4);
  }
}
