/** The scripted voice-agent conversation step: the lower-cased message is
    matched against four keyword pairs in a fixed order, and the first pair
    found decides the reply; only a pricing question hands the caller over
    to sales. */
module Conversation {
  import opened Wrappers
  import opened Text

  /** Which branch of the cascade answered. */
  datatype Intent = Greeting | FeedQuestion | HorseQuestion | PricingQuestion | Unrecognised

  /** What the agent does after replying. */
  datatype Action = Continue | TransferToSales

  /** The response body `{ text, action, data }`; `data` is always null and
      is omitted. */
  datatype Reply = Reply(text: string, action: Action)

  /** A request whose message cannot be lower-cased (absent) fails with
      status 500. */
  datatype ConversationError = ProcessingFailed

  /** The keyword pairs in the order the cascade tests them. */
  const GreetingWords: seq<string> := ["hello", "hi"]
  const FeedWords: seq<string> := ["feed", "cattle"]
  const HorseWords: seq<string> := ["horse", "equine"]
  const PricingWords: seq<string> := ["price", "cost"]

  /** The if / else-if cascade over the lower-cased message. */
  function Classify(lowerMessage: string): Intent {
    if Contains(lowerMessage, "hello") || Contains(lowerMessage, "hi") then Greeting
    else if Contains(lowerMessage, "feed") || Contains(lowerMessage, "cattle") then FeedQuestion
    else if Contains(lowerMessage, "horse") || Contains(lowerMessage, "equine") then HorseQuestion
    else if Contains(lowerMessage, "price") || Contains(lowerMessage, "cost") then PricingQuestion
    else Unrecognised
  }

  /** The fixed reply of each branch. */
  function ReplyFor(intent: Intent): Reply {
    match intent
    case Greeting => Reply(GreetingText, Continue)
    case FeedQuestion => Reply(FeedText, Continue)
    case HorseQuestion => Reply(HorseText, Continue)
    case PricingQuestion => Reply(PricingText, TransferToSales)
    case Unrecognised => Reply(FallbackText, Continue)
  }

  const GreetingText: string := "Hello! Welcome to Montana Feed Company. I'm here to help you with all your livestock feed needs. How can I assist you today?"
  const FeedText: string := "Great! We have excellent cattle feed options. Can you tell me about your operation? How many head of cattle do you have?"
  const HorseText: string := "Perfect! We specialize in premium horse feed and equine nutrition. What type of horses do you have, and what are you currently feeding them?"
  const PricingText: string := "I'd be happy to get you pricing information. Let me connect you with our sales representative who can provide you with the most current pricing and volume discounts. What's the best number to reach you at?"
  const FallbackText: string := "I understand. Let me make sure I get you connected with the right person who can help. Can you tell me a bit more about what you're looking for?"

  /** The `/api/conversation` handler. The action is a transfer to sales
      exactly when the message asks about price or cost and none of the
      earlier keywords. */
  function Converse(message: Option<string>): (r: Result<Reply, ConversationError>)
    ensures r.Failure? <==> message.None?
    ensures r.Success? ==>
      var text := ToLower(message.value);
      (r.value.action == TransferToSales <==>
        !ContainsAny(text, GreetingWords) && !ContainsAny(text, FeedWords)
        && !ContainsAny(text, HorseWords) && ContainsAny(text, PricingWords))
  {
    match message
    case None => Failure(ProcessingFailed)
    case Some(m) => Success(ReplyFor(Classify(ToLower(m))))
  }

  // ---------------------------------------------------------------------
  // Reference semantics: the cascade as an ordered rule table
  // ---------------------------------------------------------------------

  /** The rules in the order they are tried. */
  const Rules: seq<(Intent, seq<string>)> :=
    [(Greeting, GreetingWords), (FeedQuestion, FeedWords),
     (HorseQuestion, HorseWords), (PricingQuestion, PricingWords)]

  /** Rule `n` fires on `text`: one of its keywords occurs and no keyword
      of an earlier rule does. */
  ghost predicate Fires(text: string, n: int)
    requires 0 <= n < |Rules|
  {
    Mentions(text, Rules[n].1) && forall m :: 0 <= m < n ==> !Mentions(text, Rules[m].1)
  }

  /** The cascade is first-match-wins over the rule table: it answers with
      the intent of the rule that fires, and with the fallback exactly when
      no keyword of any rule occurs. */
  lemma ClassifyIsFirstMatch(text: string)
    ensures forall n :: 0 <= n < |Rules| ==> (Classify(text) == Rules[n].0 <==> Fires(text, n))
    ensures Classify(text) == Unrecognised <==> forall m :: 0 <= m < |Rules| ==> !Mentions(text, Rules[m].1)
  {
    ContainsAnyPair(text, "hello", "hi");
    ContainsAnyPair(text, "feed", "cattle");
    ContainsAnyPair(text, "horse", "equine");
    ContainsAnyPair(text, "price", "cost");
    ContainsAnyIffMentions(text, GreetingWords);
    ContainsAnyIffMentions(text, FeedWords);
    ContainsAnyIffMentions(text, HorseWords);
    ContainsAnyIffMentions(text, PricingWords);
    assert Rules[0] == (Greeting, GreetingWords) && Rules[1] == (FeedQuestion, FeedWords);
    assert Rules[2] == (HorseQuestion, HorseWords) && Rules[3] == (PricingQuestion, PricingWords);
  }

  /** Every branch but the pricing one keeps the conversation going. */
  lemma OnlyPricingTransfers(intent: Intent)
    ensures ReplyFor(intent).action == TransferToSales <==> intent == PricingQuestion
  {
  }

  /** The routing ignores the letter case of the message. */
  lemma ConverseIgnoresCase(a: string, b: string)
    requires SameIgnoringCase(a, b)
    ensures Converse(Some(a)) == Converse(Some(b))
  {
    LowerOfCaseVariant(a, b);
  }

  /** The greeting test is a plain substring test, so "hi" inside "this"
      already counts as a greeting: a price question phrased this way is
      answered with the welcome text and is not transferred to sales. */
  lemma PriceQuestionWithThisIsGreeted()
    ensures Converse(Some("Is this the price?")) == Success(ReplyFor(Greeting))
    ensures Converse(Some("Is this the price?")).value.action == Continue
  {
    var text := ToLower("Is this the price?");
    assert text[4] == 'h' && text[5] == 'i';
    assert text[4..6] == "hi";
    assert OccursAt(text, "hi", 4);
    ContainsIffOccurs(text, "hi");
  }
}
