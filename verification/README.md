# Lead evaluation engine of the Montana Feed Company server, in Dafny

The server in `mfcagent/server.js` is almost entirely a pass-through to a
hosted database and a text-to-speech service. Its own logic is a small
deterministic lead-evaluation engine, and that engine is what this project models:

- **Lead scoring** (`calculateLeadScore`). The score starts at 50. A stored
  customer with a purchase history adds 20, and one who has spent more than
  10000 adds 15. The inquiry adds 25 for an urgency keyword, 20 for a
  high-value keyword and 10 for a budget keyword. Each keyword is a
  case-insensitive substring, and each group counts at most once. The total
  is clamped to 0..100.
- **Territory assignment** (`getTerritoryByLocation`). The fixed table holds five
  territories in declaration order. The location is lower-cased, and the first
  territory with a place name occurring in it wins. When none matches, the
  answer is `central`.
- **Recommendations** (`generateConsultationRecommendations`). The list starts
  with one HIGH / MEDIUM / STANDARD entry (score at least 80 / at least 60 /
  lower). A cattle entry follows if the inquiry mentions cattle or beef, then
  an equine entry if it mentions horse or equine.
- **The consultation request**. It is rejected when customer info or the inquiry
  is missing. The location is the request's location if present and non-empty, else the customer info's location under the same condition, else the empty string.
  The `nextSteps` block promises an urgent callback exactly for scores of at
  least 80.
- **The conversation step** (`/api/conversation`). This is a first-match-wins
  cascade over the lower-cased message: hello/hi, feed/cattle, horse/equine,
  then price/cost. Only the price/cost branch transfers the caller to sales.

Modules: `Text` (ASCII `toLowerCase`, `includes`, `some`), `LeadScoring`,
`Territories`, `Recommendations`, `Conversation`, `Consultation`, and the
`Wrappers` datatypes `Option` and `Result`.

Each of the following operations is paired with an independent statement of what it means:
- the left-to-right substring scan is paired with "occurs at some position" (`OccursAt`, `Mentions`);
- the sequential score bonuses are paired with a reference sum (`ReferenceScore`);
- the territory scan is paired with "first covering row in declaration order";
- the if / else-if conversation cascade is paired with an ordered rule table (`Rules`, `Fires`);
- the product entries of the recommendation list are paired with "a keyword occurs somewhere" (`Mentions`).

The MEDIUM band starts at 60 (`mfcagent/server.js:151`).

The greeting test is a plain substring test for "hi", so words such as
"this", "which" or "shipping" count as a greeting. A price question that
contains one of them is greeted rather than transferred to sales. The model
keeps this behaviour and exhibits it in `Conversation.PriceQuestionWithThisIsGreeted`.

## Model

| member | source | states |
|---|---|---|
| Text.ContainsIffOccurs | mfcagent/server.js:77-84 | the `includes` scan finds a pattern exactly when the pattern occurs contiguously at some position of the text |
| Text.ContainsAnyIffSome | mfcagent/server.js:77-84 | `keywords.some(k => text.includes(k))` holds exactly when some keyword of the list is found |
| Text.ContainsAnyIffMentions | mfcagent/server.js:130 | a scan over a pattern list agrees with "some pattern occurs somewhere" |
| Text.ContainsExtend | mfcagent/server.js:77-84 | a pattern found in a text is still found after text is added before or after it |
| LeadScoring.LeadScore | mfcagent/server.js:56-89 | the lead score is always in 0..100 and never below the base score 50 |
| LeadScoring.Clamp | mfcagent/server.js:88 | `Math.min(100, Math.max(0, x))` lies in 0..100, keeps values already in range, and sends values above to 100 and below to 0 |
| LeadScoring.ScanFindsGroup | mfcagent/server.js:72-84 | a keyword group's scan of the lower-cased inquiry succeeds exactly when one of its keywords occurs in it; an empty inquiry mentions no group |
| LeadScoring.LeadScoreMatchesReference | mfcagent/server.js:57-88 | the score equals the clamp of 50 plus 20 for any purchase history, 15 for spend above 10000, 25 / 20 / 10 when an urgency / high-value / budget keyword occurs; each bonus is added at most once, however many keywords of the group occur |
| LeadScoring.NoSignalsGivesBaseScore | mfcagent/server.js:57-70 | with no customer and an empty or absent inquiry the score is exactly 50 |
| LeadScoring.UrgencyAddsItsBonus | mfcagent/server.js:76-79 | with the customer and the other two groups held fixed, an inquiry with an urgency keyword scores exactly 25 more before clamping than one without, and the clamped score is the clamp of that sum |
| LeadScoring.ScoreIgnoresCase | mfcagent/server.js:75 | inquiries that differ only in letter case get the same score |
| LeadScoring.UpperCasingKeepsScore | mfcagent/server.js:75-84 | upper-casing the ASCII letters of the inquiry never changes the score |
| LeadScoring.LongerInquiryNeverScoresLower | mfcagent/server.js:72-86 | adding text before or after an inquiry never lowers its score |
| LeadScoring.UrgentBulkOrderScoresMaximum | mfcagent/server.js:56-88 | a returning customer with spend 15000 asking for "an urgent bulk cattle order" scores 100 |
| Territories.FirstCovering | mfcagent/server.js:129-133 | the scan returns the index of a covering row with no covering row before it, or nothing when no row covers the location |
| Territories.ResolveIn | mfcagent/server.js:127-136 | the result is the fallback when no row covers the lower-cased location, and otherwise the earliest covering row |
| Territories.Resolve | mfcagent/server.js:92-137 | the assigned territory is always one of the five table rows |
| Territories.TableRowsDistinct | mfcagent/server.js:93-124 | the five territory ids are pairwise distinct |
| Territories.FirstCoveringRowWins | mfcagent/server.js:129-133 | a location covered by a row and by no earlier row is assigned to that row |
| Territories.UncoveredLocationIsCentral | mfcagent/server.js:135-136 | a location no row covers is assigned to central, with Lisa Chen's phone and email |
| Territories.EmptyLocationIsCentral | mfcagent/server.js:127-136 | the empty location, which callers pass for an absent one, is assigned to central |
| Territories.MissoulaGoesNorthwest | mfcagent/server.js:94-133 | any location containing "missoula" in any case goes to northwest and never to southwest, although both list Missoula |
| Territories.SouthwestOnlyThroughItsOwnTowns | mfcagent/server.js:118-133 | southwest is assigned only to locations naming Hamilton, Dillon or Anaconda and not Missoula |
| Territories.CentralExactly | mfcagent/server.js:93-136 | central is assigned exactly when neither northwest nor northeast matches, and either central matches or neither south nor southwest does |
| Territories.ResolveIgnoresCase | mfcagent/server.js:127-130 | locations differing only in letter case get the same territory |
| Territories.BillingsIsSouth | mfcagent/server.js:112-133 | "Billings" in any letter case is assigned to the south territory |
| Recommendations.Recommend | mfcagent/server.js:140-189 | the list is never empty and starts with the tier entry of the score's band; its length is 1 plus one per mentioned product line; every later entry is a product entry; the cattle / equine entry is present exactly when cattle or beef / horse or equine occurs in the lower-cased inquiry |
| Recommendations.RecommendByMentions | mfcagent/server.js:168-186 | the cattle entry is present exactly when "cattle" or "beef" occurs somewhere in the lower-cased inquiry, the equine entry exactly when "horse" or "equine" does |
| Recommendations.TierBands | mfcagent/server.js:144-165 | HIGH exactly for scores at least 80, MEDIUM exactly for 60..79, STANDARD exactly below 60 |
| Recommendations.TierMonotone | mfcagent/server.js:144-165 | a higher score never gets a lower tier |
| Recommendations.FirstEntryLabel | mfcagent/server.js:144-165 | the first entry's `priority` label is HIGH, MEDIUM or STANDARD following the same score bands |
| Recommendations.CattleBeforeEquine | mfcagent/server.js:168-186 | when both product entries are present, the cattle entry is second and precedes the equine entry |
| Recommendations.RecommendIgnoresCase | mfcagent/server.js:168 | inquiries differing only in letter case get the same list |
| Conversation.Converse | mfcagent/server.js:784-818 | an absent message fails with the processing error; otherwise the action is transfer-to-sales exactly when price or cost occurs and no hello, hi, feed, cattle, horse or equine does |
| Conversation.ClassifyIsFirstMatch | mfcagent/server.js:797-810 | the cascade answers with the intent of the first rule, in order, whose keywords occur and no earlier rule's do; it falls back exactly when no keyword of any rule occurs |
| Conversation.OnlyPricingTransfers | mfcagent/server.js:791-808 | the reply's action is transfer-to-sales for the pricing branch and `continue` for every other branch |
| Conversation.ConverseIgnoresCase | mfcagent/server.js:797 | messages differing only in letter case get the same reply |
| Conversation.PriceQuestionWithThisIsGreeted | mfcagent/server.js:799-806 | "Is this the price?" is answered with the greeting and not transferred, because "hi" occurs in "this" |
| Consultation.FirstTruthy | mfcagent/server.js:368 | the or-chain of the request location, the customer info location and the empty string picks the first present non-empty string, else the empty string |
| Consultation.PlanNextSteps | mfcagent/server.js:413-420 | the urgent callback wording and the "< 4 hours" timeline are given exactly for scores of at least 80; the rep, phone and email are the assigned territory's |
| Consultation.Evaluate | mfcagent/server.js:364-371 | the evaluation has a score in 0..100, a territory from the table, a first recommendation of the score's tier, and next steps naming the territory's rep |
| Consultation.Consult | mfcagent/server.js:339-371 | the request fails exactly when customer info is absent or the inquiry is absent or empty; a request with a non-empty phone number scores the customers-table row looked up for it, one without is scored as an unknown customer |
| Consultation.NextStepsAgreeWithTier | mfcagent/server.js:413-415 | the urgent callback is promised exactly when the first recommendation is HIGH |
| Consultation.EmptyEvaluation | mfcagent/server.js:364-371 | no customer, no inquiry and no location give score 50, the central territory, a STANDARD lead and standard processing |
| Consultation.ConsultTerritory | mfcagent/server.js:368 | the territory comes from the request's location if given, else the customer info's location, else it is central |
| Consultation.NoPhoneIgnoresStoredCustomer | mfcagent/server.js:353-362 | without a phone number the stored customer record has no influence on the outcome |
| Consultation.UrgentHighValueReturningCustomer | mfcagent/server.js:364-371 | a returning customer with spend above 10000 and an urgent, high-value inquiry gets score 100, a HIGH lead and the urgent callback; if the inquiry mentions cattle, the cattle entry follows the tier entry |

## Left out

- Express routing, middleware and `app.listen`: HTTP plumbing. Lines 1-22 of the file are also a broken duplicate stub.
- The database: every customers, products, territories and consultations query and insert, and the 500 responses when they fail. The stored customer row is a parameter of `Consultation.Consult`. The consultation record and the customer-notes update are not built.
- The `/api/customer/create`, `/api/customer/lookup`, `/api/products`, `/api/territories` and `/api/health` handlers: they do little besides database access.
- The text-to-speech endpoints and `debugEnvironmentVars`: network calls, environment variables and logging.
- Timestamps (`new Date()`) and the notes string formatting.
- `toLowerCase` is modelled as ASCII lower-casing; JavaScript also lower-cases non-ASCII letters.
- LeadScoring.UpperCasingKeepsScore: holds only for ASCII upper-casing. JavaScript's `toUpperCase` maps some non-ASCII letters to ASCII ones (U+0131 to I, U+017F to S) or to several characters (ß to SS), which can change the score.
- LeadScoring.Customer: `total_spent` is modelled as an integer (null as 0), not a JavaScript number. `purchase_history` is modelled by its length (null as 0).
- Recommendations.Recommend: `generateConsultationRecommendations` never reads its `customer` argument, so it is omitted.
- Conversation.Reply: the `data` field is always null and is omitted. `customerPhone` and `context` are never read.
- Conversation.Converse: only an absent message is modelled as failing. A non-string message also fails in the source, because it has no `toLowerCase`.
- Consultation.ConsultationRequest: `urgency` and `preferredContact` only feed the database record and are omitted.
- Purity and idempotence of the evaluation need no lemma: every member is a Dafny function, so equal inputs give equal results.
