/** The pure part of the consultation request: validating the request,
    choosing which location to assign a territory from, scoring the lead,
    generating recommendations, and the next-steps block of the response.
    The customer lookup and the inserts around it belong to the database
    and are outside this model: the stored customer record is a parameter. */
module Consultation {
  import opened Wrappers
  import opened Text
  import opened LeadScoring
  import opened Territories
  import opened Recommendations

  /** The `customerInfo` object of the request body. */
  datatype CustomerInfo = CustomerInfo(
    name: Option<string>,
    phone: Option<string>,
    email: Option<string>,
    location: Option<string>)

  /** The fields of the request body the evaluation reads. */
  datatype ConsultationRequest = ConsultationRequest(
    customerInfo: Option<CustomerInfo>,
    inquiry: Option<string>,
    location: Option<string>)

  /** The `nextSteps` block of the response. */
  datatype NextSteps = NextSteps(
    immediate: string,
    timeline: string,
    assignedRep: string,
    contactPhone: string,
    contactEmail: string)

  /** Everything the lead-evaluation engine computes for one request. */
  datatype Evaluation = Evaluation(
    leadScore: int,
    territory: Territory,
    recommendations: seq<Recommendation>,
    nextSteps: NextSteps)

  /** The request is rejected with status 400. */
  datatype ConsultationError = MissingCustomerOrInquiry

  const UrgentCallback: string := "High priority - immediate callback"
  const StandardProcessing: string := "Standard processing"
  const UrgentTimeline: string := "< 4 hours"
  const StandardTimeline: string := "1-2 business days"
  const NextStepsThreshold: int := 80

  /** JavaScript truthiness of an optional string: present and non-empty. */
  predicate Truthy(s: Option<string>) {
    s.Some? && s.value != ""
  }

  /** `a || b || ''` on optional strings. */
  function FirstTruthy(a: Option<string>, b: Option<string>): (r: string)
    ensures Truthy(a) ==> r == a.value
    ensures !Truthy(a) && Truthy(b) ==> r == b.value
    ensures !Truthy(a) && !Truthy(b) ==> r == ""
  {
    if Truthy(a) then a.value else if Truthy(b) then b.value else ""
  }

  /** The `nextSteps` block: the urgent wording exactly for a score of at
      least 80, the contact details of the assigned territory otherwise
      unchanged. */
  function PlanNextSteps(score: int, territory: Territory): (n: NextSteps)
    ensures n.immediate == UrgentCallback <==> score >= 80
    ensures n.timeline == UrgentTimeline <==> score >= 80
    ensures n.assignedRep == territory.rep
    ensures n.contactPhone == territory.phone && n.contactEmail == territory.email
  {
    var urgent := score >= NextStepsThreshold;
    NextSteps(
      if urgent then UrgentCallback else StandardProcessing,
      if urgent then UrgentTimeline else StandardTimeline,
      territory.rep, territory.phone, territory.email)
  }

  /** The lead-evaluation engine: score, territory, recommendations and next
      steps for a (possibly absent) stored customer, an inquiry and a
      location string. */
  function Evaluate(customer: Option<Customer>, inquiry: string, location: string): (e: Evaluation)
    ensures MinScore <= e.leadScore <= MaxScore
    ensures e.territory in Table
    ensures |e.recommendations| >= 1 && e.recommendations[0].TierAdvice?
    ensures e.recommendations[0].tier == TierOf(e.leadScore)
    ensures e.nextSteps.assignedRep == e.territory.rep
  {
    var score := LeadScore(customer, inquiry);
    var territory := Resolve(location);
    Evaluation(score, territory, Recommend(inquiry, score), PlanNextSteps(score, territory))
  }

  /** The `/api/consultation` handler up to the database insert. `stored`
      is the customers-table row for the request's phone number, which is
      only looked up when the phone number is present and non-empty. */
  function Consult(request: ConsultationRequest, stored: Option<Customer>): (r: Result<Evaluation, ConsultationError>)
    ensures r.Failure? <==> request.customerInfo.None? || !Truthy(request.inquiry)
    ensures r.Success? ==> MinScore <= r.value.leadScore <= MaxScore
    ensures r.Success? && !Truthy(request.customerInfo.value.phone) ==>
              r.value.leadScore == LeadScore(None, request.inquiry.value)
    ensures r.Success? && Truthy(request.customerInfo.value.phone) ==>
              r.value.leadScore == LeadScore(stored, request.inquiry.value)
  {
    if request.customerInfo.None? || !Truthy(request.inquiry) then
      Failure(MissingCustomerOrInquiry)
    else
      var info := request.customerInfo.value;
      var customer := if Truthy(info.phone) then stored else None;
      var location := FirstTruthy(request.location, info.location);
      Success(Evaluate(customer, request.inquiry.value, location))
  }

  // ---------------------------------------------------------------------
  // Properties of the whole evaluation
  // ---------------------------------------------------------------------

  /** The next-steps wording and the first recommendation agree: the urgent
      callback is promised exactly for HIGH leads. */
  lemma NextStepsAgreeWithTier(customer: Option<Customer>, inquiry: string, location: string)
    ensures var e := Evaluate(customer, inquiry, location);
      e.nextSteps.immediate == UrgentCallback <==> e.recommendations[0].tier == High
  {
  }

  /** With no stored customer, no inquiry and no location, the evaluation
      is the base score, the central territory and a STANDARD lead. */
  lemma EmptyEvaluation()
    ensures Evaluate(None, "", "").leadScore == 50
    ensures Evaluate(None, "", "").territory == Central
    ensures Evaluate(None, "", "").recommendations[0].tier == Standard
    ensures Evaluate(None, "", "").nextSteps.immediate == StandardProcessing
  {
    NoSignalsGivesBaseScore();
    EmptyLocationIsCentral();
  }

  /** The territory comes from the request's location when it is given,
      else from the customer info's location, else it is central. */
  lemma ConsultTerritory(request: ConsultationRequest, stored: Option<Customer>)
    requires request.customerInfo.Some? && Truthy(request.inquiry)
    ensures var t := Consult(request, stored).value.territory;
      var info := request.customerInfo.value;
      && (Truthy(request.location) ==> t == Resolve(request.location.value))
      && (!Truthy(request.location) && Truthy(info.location) ==> t == Resolve(info.location.value))
      && (!Truthy(request.location) && !Truthy(info.location) ==> t == Central)
  {
    EmptyLocationIsCentral();
  }

  /** A request without a phone number is scored as an unknown customer,
      whatever the customers table holds. */
  lemma NoPhoneIgnoresStoredCustomer(request: ConsultationRequest, a: Option<Customer>, b: Option<Customer>)
    requires request.customerInfo.Some? && !Truthy(request.customerInfo.value.phone)
    ensures Consult(request, a) == Consult(request, b)
  {
  }

  /** A returning customer who has spent more than 10000 and writes an
      urgent, high-value inquiry is a HIGH lead with the maximum score and
      the urgent callback; if the inquiry mentions cattle or beef, the
      cattle specialist follows the tier entry. The inquiry "We need an
      urgent bulk cattle order" is such a case. */
  lemma UrgentHighValueReturningCustomer(customer: Customer, inquiry: string, location: string)
    requires customer.purchaseCount > 0 && customer.totalSpent > 10000
    requires Mentions(ToLower(inquiry), UrgentKeywords) && Mentions(ToLower(inquiry), HighValueKeywords)
    ensures var e := Evaluate(Some(customer), inquiry, location);
      && e.leadScore == 100
      && e.recommendations[0].tier == High
      && e.nextSteps.immediate == UrgentCallback
      && (AsksAboutCattle(ToLower(inquiry)) ==> e.recommendations[1] == CattleEntry)
  {
    LeadScoreMatchesReference(Some(customer), inquiry);
  }
}
