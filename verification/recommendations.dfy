/** The consultation recommendation list: one entry for the priority tier
    the lead score falls in, then a cattle-nutrition entry and an
    equine-nutrition entry when the inquiry mentions those animals. */
module Recommendations {
  import opened Text

  /** Priority tier of a lead. */
  datatype Tier = High | Medium | Standard

  const HighThreshold: int := 80
  const MediumThreshold: int := 60

  /** The tier a lead score falls in: at least 80 is HIGH, at least 60 is
      MEDIUM, anything lower is STANDARD. */
  function TierOf(score: int): Tier {
    if score >= HighThreshold then High
    else if score >= MediumThreshold then Medium
    else Standard
  }

  /** Position of a tier in the order STANDARD < MEDIUM < HIGH. */
  function Rank(t: Tier): nat {
    match t
    case Standard => 0
    case Medium => 1
    case High => 2
  }

  /** The product lines the generator knows about. */
  datatype ProductLine = Cattle | Equine

  /** One entry of the list. Tier entries carry the `priority` label of
      their tier; product entries carry the label `PRODUCT`. */
  datatype Recommendation =
    | TierAdvice(tier: Tier, action: string, timeline: string, reason: string)
    | ProductAdvice(line: ProductLine, action: string, products: seq<string>, specialist: string)
  {
    /** The `priority` field of the entry. */
    function Priority(): string {
      match this
      case TierAdvice(t, _, _, _) =>
        (match t case High => "HIGH" case Medium => "MEDIUM" case Standard => "STANDARD")
      case ProductAdvice(_, _, _, _) => "PRODUCT"
    }
  }

  /** The tier-driven entry, with its fixed wording. */
  function TierEntry(t: Tier): Recommendation {
    match t
    case High =>
      TierAdvice(High, "Immediate personal consultation", "Within 24 hours",
        "High-value lead with urgent needs")
    case Medium =>
      TierAdvice(Medium, "Scheduled consultation call", "Within 3 business days",
        "Qualified lead requiring personalized attention")
    case Standard =>
      TierAdvice(Standard, "Email follow-up with resources", "Within 1 week",
        "General inquiry, provide educational materials")
  }

  const CattleEntry: Recommendation := ProductAdvice(Cattle, "Cattle nutrition consultation",
    ["High-energy cattle feed", "Mineral supplements", "Pasture management"],
    "Cattle nutrition expert")

  const EquineEntry: Recommendation := ProductAdvice(Equine, "Equine feed consultation",
    ["Premium horse feed", "Performance supplements", "Hay quality assessment"],
    "Equine nutrition specialist")

  /** The lower-cased inquiry mentions cattle or beef. */
  predicate AsksAboutCattle(text: string) {
    Contains(text, "cattle") || Contains(text, "beef")
  }

  /** The lower-cased inquiry mentions horses. */
  predicate AsksAboutHorses(text: string) {
    Contains(text, "horse") || Contains(text, "equine")
  }

  /** `generateConsultationRecommendations(customer, inquiry, leadScore)`.
      `generateConsultationRecommendations` never reads its `customer`
      argument, so it is omitted; an absent inquiry is the empty string. */
  function Recommend(inquiry: string, score: int): (r: seq<Recommendation>)
    ensures |r| >= 1 && r[0].TierAdvice? && r[0].tier == TierOf(score)
    ensures |r| == 1 + (if AsksAboutCattle(ToLower(inquiry)) then 1 else 0)
                     + (if AsksAboutHorses(ToLower(inquiry)) then 1 else 0)
    ensures forall i :: 1 <= i < |r| ==> r[i].ProductAdvice?
    ensures CattleEntry in r <==> AsksAboutCattle(ToLower(inquiry))
    ensures EquineEntry in r <==> AsksAboutHorses(ToLower(inquiry))
  {
    var text := ToLower(inquiry);
    [TierEntry(TierOf(score))]
    + (if AsksAboutCattle(text) then [CattleEntry] else [])
    + (if AsksAboutHorses(text) then [EquineEntry] else [])
  }

  /** The product entries in terms of what the inquiry mentions: the cattle
      entry is present exactly when "cattle" or "beef" occurs somewhere in
      the lower-cased inquiry, the equine entry exactly when "horse" or
      "equine" does. */
  lemma RecommendByMentions(inquiry: string, score: int)
    ensures CattleEntry in Recommend(inquiry, score) <==> Mentions(ToLower(inquiry), ["cattle", "beef"])
    ensures EquineEntry in Recommend(inquiry, score) <==> Mentions(ToLower(inquiry), ["horse", "equine"])
  {
    var text := ToLower(inquiry);
    ContainsAnyPair(text, "cattle", "beef");
    ContainsAnyIffMentions(text, ["cattle", "beef"]);
    ContainsAnyPair(text, "horse", "equine");
    ContainsAnyIffMentions(text, ["horse", "equine"]);
  }

  // ---------------------------------------------------------------------
  // Properties of the tiers and of the list
  // ---------------------------------------------------------------------

  /** Each tier corresponds exactly to its score band. */
  lemma TierBands(score: int)
    ensures TierOf(score) == High <==> score >= 80
    ensures TierOf(score) == Medium <==> 60 <= score < 80
    ensures TierOf(score) == Standard <==> score < 60
  {
  }

  /** A higher score never earns a lower tier. */
  lemma TierMonotone(a: int, b: int)
    requires a <= b
    ensures Rank(TierOf(a)) <= Rank(TierOf(b))
  {
  }

  /** The first entry's priority label follows the score bands. */
  lemma FirstEntryLabel(inquiry: string, score: int)
    ensures Recommend(inquiry, score)[0].Priority() == "HIGH" <==> score >= 80
    ensures Recommend(inquiry, score)[0].Priority() == "MEDIUM" <==> 60 <= score < 80
    ensures Recommend(inquiry, score)[0].Priority() == "STANDARD" <==> score < 60
  {
  }

  /** When both product entries are present, the cattle entry comes first,
      and it is then the second entry of the list. */
  lemma CattleBeforeEquine(inquiry: string, score: int, i: int, j: int)
    requires var r := Recommend(inquiry, score);
      0 <= i < |r| && 0 <= j < |r| && r[i] == CattleEntry && r[j] == EquineEntry
    ensures i == 1 && i < j
  {
  }

  /** The list ignores the letter case of the inquiry. */
  lemma RecommendIgnoresCase(a: string, b: string, score: int)
    requires SameIgnoringCase(a, b)
    ensures Recommend(a, score) == Recommend(b, score)
  {
    LowerOfCaseVariant(a, b);
  }
}
