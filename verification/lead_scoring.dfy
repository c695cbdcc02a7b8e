/** The lead-scoring heuristic of the consultation service: a base score,
    fixed bonuses for a known customer's history and spend, one bonus per
    keyword group found in the inquiry, and a clamp to the range 0..100. */
module LeadScoring {
  import opened Wrappers
  import opened Text

  /** The two fields of a stored customer record that scoring reads.
      `purchaseCount` is the length of `purchase_history` (0 when the field
      is null); `totalSpent` is `total_spent` (0 when null). */
  datatype Customer = Customer(purchaseCount: nat, totalSpent: int)

  const BaseScore: int := 50
  const ExistingCustomerBonus: int := 20
  const HighSpendThreshold: int := 10000
  const HighSpendBonus: int := 15
  const UrgentBonus: int := 25
  const HighValueBonus: int := 20
  const BudgetBonus: int := 10
  const MinScore: int := 0
  const MaxScore: int := 100

  const UrgentKeywords: seq<string> := ["urgent", "asap", "emergency", "immediately", "crisis"]
  const HighValueKeywords: seq<string> := ["bulk", "large order", "contract", "partnership"]
  const BudgetKeywords: seq<string> := ["budget", "price", "cost", "quote"]

  /** `Math.min(MaxScore, Math.max(MinScore, x))`. */
  function Clamp(x: int): (r: int)
    ensures MinScore <= r <= MaxScore
    ensures MinScore <= x <= MaxScore ==> r == x
    ensures x > MaxScore ==> r == MaxScore
    ensures x < MinScore ==> r == MinScore
  {
    if x > MaxScore then MaxScore else if x < MinScore then MinScore else x
  }

  /** Bonus from the stored customer record, if there is one. */
  function CustomerBonus(customer: Option<Customer>): int {
    match customer
    case None => 0
    case Some(c) =>
      (if c.purchaseCount > 0 then ExistingCustomerBonus else 0)
      + (if c.totalSpent > HighSpendThreshold then HighSpendBonus else 0)
  }

  /** Bonus from the inquiry text: each keyword group is searched once in the
      lower-cased text; an empty inquiry is falsy and adds nothing. */
  function InquiryBonus(inquiry: string): int {
    if inquiry == [] then 0
    else
      var text := ToLower(inquiry);
      (if ContainsAny(text, UrgentKeywords) then UrgentBonus else 0)
      + (if ContainsAny(text, HighValueKeywords) then HighValueBonus else 0)
      + (if ContainsAny(text, BudgetKeywords) then BudgetBonus else 0)
  }

  /** The score before clamping. */
  function RawScore(customer: Option<Customer>, inquiry: string): int {
    BaseScore + CustomerBonus(customer) + InquiryBonus(inquiry)
  }

  /** `calculateLeadScore(customer, inquiry)`. Every bonus is non-negative,
      so the score never drops below the base value. */
  function LeadScore(customer: Option<Customer>, inquiry: string): (r: int)
    ensures MinScore <= r <= MaxScore
    ensures BaseScore <= r
  {
    Clamp(RawScore(customer, inquiry))
  }

  // ---------------------------------------------------------------------
  // Reference definition of the score, stated with `Mentions` (a keyword
  // occurs somewhere) instead of the left-to-right scan.
  // ---------------------------------------------------------------------

  /** The score the heuristic promises: the base value plus each bonus at
      most once, clamped to 0..100. */
  ghost function ReferenceScore(customer: Option<Customer>, inquiry: string): int {
    Clamp(
      BaseScore
      + (if customer.Some? && customer.value.purchaseCount > 0 then 20 else 0)
      + (if customer.Some? && customer.value.totalSpent > 10000 then 15 else 0)
      + (if Mentions(ToLower(inquiry), UrgentKeywords) then 25 else 0)
      + (if Mentions(ToLower(inquiry), HighValueKeywords) then 20 else 0)
      + (if Mentions(ToLower(inquiry), BudgetKeywords) then 10 else 0))
  }

  /** The scan of one keyword group agrees with the reference meaning.
      Every keyword is non-empty, so nothing is found in the empty text. */
  lemma ScanFindsGroup(inquiry: string, group: seq<string>)
    requires forall k :: 0 <= k < |group| ==> |group[k]| > 0
    ensures ContainsAny(ToLower(inquiry), group) <==> Mentions(ToLower(inquiry), group)
    ensures inquiry == [] ==> !Mentions(ToLower(inquiry), group)
  {
    ContainsAnyIffMentions(ToLower(inquiry), group);
  }

  /** The three keyword tables hold no empty keyword. */
  lemma KeywordsNonEmpty()
    ensures forall k :: 0 <= k < |UrgentKeywords| ==> |UrgentKeywords[k]| > 0
    ensures forall k :: 0 <= k < |HighValueKeywords| ==> |HighValueKeywords[k]| > 0
    ensures forall k :: 0 <= k < |BudgetKeywords| ==> |BudgetKeywords[k]| > 0
  {
  }

  /** Additive decomposition: the computed score is the base value plus
      every earned bonus exactly once, clamped. Several keywords of one group
      still earn that group's bonus once. */
  lemma LeadScoreMatchesReference(customer: Option<Customer>, inquiry: string)
    ensures LeadScore(customer, inquiry) == ReferenceScore(customer, inquiry)
  {
    KeywordsNonEmpty();
    ScanFindsGroup(inquiry, UrgentKeywords);
    ScanFindsGroup(inquiry, HighValueKeywords);
    ScanFindsGroup(inquiry, BudgetKeywords);
  }

  /** No customer and an empty (or absent) inquiry: exactly the base score. */
  lemma NoSignalsGivesBaseScore()
    ensures LeadScore(None, "") == BaseScore
  {
  }

  /** Holding the customer and the other two keyword groups fixed, an
      inquiry that mentions an urgency keyword scores exactly the urgency
      bonus more before clamping than one that does not. */
  lemma UrgencyAddsItsBonus(customer: Option<Customer>, with: string, without: string)
    requires Mentions(ToLower(with), UrgentKeywords) && !Mentions(ToLower(without), UrgentKeywords)
    requires Mentions(ToLower(with), HighValueKeywords) == Mentions(ToLower(without), HighValueKeywords)
    requires Mentions(ToLower(with), BudgetKeywords) == Mentions(ToLower(without), BudgetKeywords)
    ensures RawScore(customer, with) == RawScore(customer, without) + UrgentBonus
    ensures LeadScore(customer, with) == Clamp(LeadScore(customer, without) + UrgentBonus)
  {
    LeadScoreMatchesReference(customer, with);
    LeadScoreMatchesReference(customer, without);
    KeywordsNonEmpty();
    ScanFindsGroup(with, UrgentKeywords);
    ScanFindsGroup(with, HighValueKeywords);
    ScanFindsGroup(with, BudgetKeywords);
    ScanFindsGroup(without, UrgentKeywords);
    ScanFindsGroup(without, HighValueKeywords);
    ScanFindsGroup(without, BudgetKeywords);
  }

  /** Keyword matching ignores letter case: inquiries that differ only in
      case score the same, in particular an upper-cased inquiry. */
  lemma ScoreIgnoresCase(customer: Option<Customer>, a: string, b: string)
    requires SameIgnoringCase(a, b)
    ensures LeadScore(customer, a) == LeadScore(customer, b)
  {
    LowerOfCaseVariant(a, b);
  }

  /** ASCII upper-casing the inquiry keeps its score. */
  lemma UpperCasingKeepsScore(customer: Option<Customer>, inquiry: string)
    ensures LeadScore(customer, ToUpper(inquiry)) == LeadScore(customer, inquiry)
  {
    UpperIsCaseVariant(inquiry);
    ScoreIgnoresCase(customer, ToUpper(inquiry), inquiry);
  }

  /** Keyword bonuses only accumulate: writing more text before or after an
      inquiry never lowers its score. */
  lemma LongerInquiryNeverScoresLower(customer: Option<Customer>, inquiry: string, extra: string)
    ensures LeadScore(customer, inquiry) <= LeadScore(customer, inquiry + extra)
    ensures LeadScore(customer, inquiry) <= LeadScore(customer, extra + inquiry)
  {
    if inquiry != [] {
      var text := ToLower(inquiry);
      ToLowerConcat(inquiry, extra);
      ToLowerConcat(extra, inquiry);
      var more := ToLower(extra);
      if ContainsAny(text, UrgentKeywords) { ContainsAnyExtend(text, more, UrgentKeywords); }
      if ContainsAny(text, HighValueKeywords) { ContainsAnyExtend(text, more, HighValueKeywords); }
      if ContainsAny(text, BudgetKeywords) { ContainsAnyExtend(text, more, BudgetKeywords); }
    }
  }

  /** A returning customer with spend 15000 asking for "an urgent bulk
      cattle order" earns every bonus but the budget one: 130, clamped to
      the maximum. */
  lemma UrgentBulkOrderScoresMaximum()
    ensures LeadScore(Some(Customer(1, 15000)), "We need an urgent bulk cattle order") == MaxScore
  {
    var inquiry := "We need an urgent bulk cattle order";
    var text := ToLower(inquiry);
    assert text[11] == 'u' && text[12] == 'r' && text[13] == 'g';
    assert text[14] == 'e' && text[15] == 'n' && text[16] == 't';
    assert text[11..17] == "urgent";
    assert OccursAt(text, UrgentKeywords[0], 11);
    assert text[18] == 'b' && text[19] == 'u' && text[20] == 'l' && text[21] == 'k';
    assert text[18..22] == "bulk";
    assert OccursAt(text, HighValueKeywords[0], 18);
    ScanFindsGroup(inquiry, UrgentKeywords);
    ScanFindsGroup(inquiry, HighValueKeywords);
  }
}
