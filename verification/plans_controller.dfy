/** The plan catalog, the plan-to-billing-config mapping and the three JSON
    request handlers of web/app/Http/Controllers/PlansController.php.

    The Billing API call `EnsureBilling::check($session, $config)` is a
    parameter, `provider`, that answers either with `[hasPayment,
    confirmationUrl]` or by throwing. Every handler returns, next to its
    reply, the list of provider calls it made, in order, so that the number
    and the arguments of those calls can be stated. */
module PlansController {
  import opened Optional
  import opened Http
  import BillingErrors

  /** The shop session the authentication middleware attaches to a request. */
  datatype Session = Session(shop: string)

  /** A billing configuration: the associative array read from
      `shopify.billing`, possibly with plan-specific entries written over it. */
  type Config = map<string, Json>

  /** What a step may throw: the billing exception, any other `\Exception`,
      or a PHP `\Error` (a TypeError, say), which is not an `\Exception` and
      so passes every `catch (\Exception $e)`. Only messages are kept. */
  datatype Failure =
    | BillingFailure(exception: BillingErrors.BillingException)
    | OtherFailure(message: string)
    | EngineError(message: string)

  /** What `EnsureBilling::check` does: return `[hasPayment, confirmationUrl]`
      or throw. */
  datatype CheckResult =
    | Checked(hasPayment: bool, confirmationUrl: Option<string>)
    | Threw(failure: Failure)

  /** The Billing API, as seen by the controller. */
  type Provider = (Session, Config) -> CheckResult

  /** One call of the Billing API and its arguments. */
  datatype ProviderCall = ProviderCall(session: Session, config: Config)

  /** How a handler ends: with a reply, or with an exception it does not catch. */
  datatype Outcome = Replied(reply: Reply) | Raised(failure: Failure)

  /** A handler's outcome together with the provider calls it made, in order. */
  datatype Exchange = Exchange(outcome: Outcome, calls: seq<ProviderCall>)

  // ---------------------------------------------------------------------
  // Plan catalog

  datatype Interval = Every30Days

  /** An offered plan; `priceCents` is the price in cents. */
  datatype Plan = Plan(id: string, name: string, priceCents: nat, interval: Interval, features: seq<string>)

  const BasicId: string := "basic"
  const PremiumId: string := "premium"

  /** The plan ids a subscription request may name. */
  predicate IsKnownPlan(planId: string)
  {
    planId == BasicId || planId == PremiumId
  }

  /** The static catalog `getPlans` lists, in order. */
  const Catalog: seq<Plan> := [
    Plan(BasicId, "Basic Plan", 499, Every30Days, ["Feature 1", "Feature 2"]),
    Plan(PremiumId, "Premium Plan", 999, Every30Days, ["Feature 1", "Feature 2", "Feature 3", "Feature 4"])
  ]

  /** `getPlans`: the catalog; it holds exactly the plans a subscription may
      name, basic before premium, each under its own id. */
  function GetPlans(): (plans: seq<Plan>)
    ensures |plans| == 2
    ensures plans[0].id == BasicId && plans[1].id == PremiumId
    ensures forall id :: IsKnownPlan(id) <==> exists i :: 0 <= i < |plans| && plans[i].id == id
  {
    Catalog
  }

  // ---------------------------------------------------------------------
  // Plan-to-config mapping

  /** The two entries the plan mapping writes over the base configuration. */
  const ChargeNameKey: string := "chargeName"
  const AmountKey: string := "amount"

  /** `getBillingConfigForPlan`: the base configuration with the plan's charge
      name and amount written over it; any other id throws
      `InvalidArgumentException`. */
  function BillingConfigForPlan(base: Config, planId: string): (r: Result<Config, Failure>)
    ensures r.Ok? <==> IsKnownPlan(planId)
    ensures r.Err? ==> r.error == OtherFailure("Invalid plan ID: " + planId)
    ensures planId == BasicId ==>
              r.Ok? && ChargeNameKey in r.value && AmountKey in r.value
              && r.value[ChargeNameKey] == JString("Basic Plan") && r.value[AmountKey] == JAmount(499)
    ensures planId == PremiumId ==>
              r.Ok? && ChargeNameKey in r.value && AmountKey in r.value
              && r.value[ChargeNameKey] == JString("Premium Plan") && r.value[AmountKey] == JAmount(999)
    ensures r.Ok? ==> r.value.Keys == base.Keys + {ChargeNameKey, AmountKey}
    ensures r.Ok? ==> forall k :: k in base && k != ChargeNameKey && k != AmountKey ==> r.value[k] == base[k]
  {
    if planId == BasicId then
      Ok(base[ChargeNameKey := JString("Basic Plan")][AmountKey := JAmount(499)])
    else if planId == PremiumId then
      Ok(base[ChargeNameKey := JString("Premium Plan")][AmountKey := JAmount(999)])
    else
      Err(OtherFailure("Invalid plan ID: " + planId))
  }

  // ---------------------------------------------------------------------
  // Replies

  const NoSessionMessage: string := "No valid Shopify session found"
  const InvalidPlanMessage: string := "Invalid plan ID"
  const UnexpectedMessage: string := "An unexpected error occurred"
  const SubscribeFailedMessage: string := "Failed to process subscription"
  const CheckFailedMessage: string := "Failed to check subscription status"
  const CurrentPlanFailedMessage: string := "Failed to get current plan"

  /** The reply every handler sends when the request carries no session. */
  const Unauthorized: Reply := Reply(StatusUnauthorized, map["error" := JString(NoSessionMessage)])

  /** The two `catch` blocks of `subscribe` and `checkSubscription`: a billing
      exception yields a 500 reply with `failedMessage` and the exception's
      message; any other exception a 500 reply with only a generic error; a
      PHP `\Error` is caught by neither and escapes. */
  function CatchInHandler(failure: Failure, failedMessage: string): (o: Outcome)
    ensures o.Raised? <==> failure.EngineError?
    ensures o.Raised? ==> o.failure == failure
    ensures o.Replied? ==> o.reply.status == StatusServerError && "error" in o.reply.body
    ensures o.Replied? ==> ("message" in o.reply.body <==> failure.BillingFailure?)
    ensures failure.BillingFailure? ==>
              o.reply.body == map["error" := JString(failedMessage),
                                  "message" := JString(BillingErrors.GetMessage(failure.exception))]
    ensures failure.OtherFailure? ==> o.reply.body == map["error" := JString(UnexpectedMessage)]
  {
    match failure
    case BillingFailure(e) =>
      Replied(Reply(StatusServerError, map["error" := JString(failedMessage),
                                           "message" := JString(BillingErrors.GetMessage(e))]))
    case OtherFailure(_) =>
      Replied(Reply(StatusServerError, map["error" := JString(UnexpectedMessage)]))
    case EngineError(_) => Raised(failure)
  }

  // ---------------------------------------------------------------------
  // Handlers

  /** `subscribe`: reject a request without a session (401), then one whose
      plan id is missing or unknown (400); otherwise ask the provider once,
      with the plan's configuration, and echo its answer. */
  function Subscribe(session: Option<Session>, planId: Option<string>, base: Config, provider: Provider): (x: Exchange)
    ensures x.outcome.Raised? ==> x.calls != [] && x.outcome.failure.EngineError?
    ensures session.None? ==> x.outcome == Replied(Unauthorized) && x.calls == []
    ensures session.Some? && !(planId.Some? && IsKnownPlan(planId.value)) ==>
              x.outcome.Replied? && x.outcome.reply.status == StatusBadRequest && x.calls == []
    ensures x.calls != [] <==> session.Some? && planId.Some? && IsKnownPlan(planId.value)
    ensures x.calls != [] ==>
              x.calls == [ProviderCall(session.value, BillingConfigForPlan(base, planId.value).value)]
  {
    if session.None? then
      Exchange(Replied(Unauthorized), [])
    else if !(planId.Some? && IsKnownPlan(planId.value)) then
      Exchange(Replied(Reply(StatusBadRequest, map["error" := JString(InvalidPlanMessage)])), [])
    else
      match BillingConfigForPlan(base, planId.value)
      case Err(f) => Exchange(CatchInHandler(f, SubscribeFailedMessage), [])
      case Ok(config) =>
        var call := ProviderCall(session.value, config);
        match provider(session.value, config)
        case Threw(f) => Exchange(CatchInHandler(f, SubscribeFailedMessage), [call])
        case Checked(hasPayment, confirmationUrl) =>
          Exchange(Replied(Reply(StatusOk, map["hasActiveSubscription" := JBool(hasPayment),
                                               "confirmationUrl" := Nullable(confirmationUrl)])), [call])
  }

  /** `checkSubscription`: reject a request without a session (401);
      otherwise ask the provider once with the base configuration as read and
      reply with whether a payment exists. */
  function CheckSubscription(session: Option<Session>, base: Config, provider: Provider): (x: Exchange)
    ensures x.outcome.Raised? ==> x.calls != [] && x.outcome.failure.EngineError?
    ensures session.None? ==> x.outcome == Replied(Unauthorized) && x.calls == []
    ensures session.Some? ==> x.calls == [ProviderCall(session.value, base)]
    ensures x.outcome.Replied? && x.outcome.reply.status == StatusOk ==>
              x.outcome.reply.body.Keys == {"hasActiveSubscription"}
  {
    if session.None? then
      Exchange(Replied(Unauthorized), [])
    else
      var call := ProviderCall(session.value, base);
      match provider(session.value, base)
      case Threw(f) => Exchange(CatchInHandler(f, CheckFailedMessage), [call])
      case Checked(hasPayment, _) =>
        Exchange(Replied(Reply(StatusOk, map["hasActiveSubscription" := JBool(hasPayment)])), [call])
  }

  /** The `catch` block of `getCurrentPlan`: only the billing exception is
      caught, and answered with safe defaults; any other exception escapes. */
  function CatchInCurrentPlan(failure: Failure): (o: Outcome)
    ensures o.Replied? <==> failure.BillingFailure?
    ensures o.Replied? ==>
              o.reply == Reply(StatusServerError, map["error" := JString(CurrentPlanFailedMessage),
                                                      "currentPlan" := JNull,
                                                      "hasActiveSubscription" := JBool(false)])
    ensures o.Raised? ==> o.failure == failure
  {
    match failure
    case BillingFailure(_) =>
      Replied(Reply(StatusServerError, map["error" := JString(CurrentPlanFailedMessage),
                                           "currentPlan" := JNull,
                                           "hasActiveSubscription" := JBool(false)]))
    case OtherFailure(_) => Raised(failure)
    case EngineError(_) => Raised(failure)
  }

  /** The plan `getCurrentPlan` reports from the two answers: premium wins
      over basic. */
  function CurrentPlan(hasBasic: bool, hasPremium: bool): (plan: Option<string>)
    ensures plan.Some? <==> hasBasic || hasPremium
    ensures plan.Some? ==> IsKnownPlan(plan.value)
    ensures hasPremium ==> plan == Some(PremiumId)
    ensures hasBasic && !hasPremium ==> plan == Some(BasicId)
  {
    if hasPremium then Some(PremiumId)
    else if hasBasic then Some(BasicId)
    else None
  }

  /** `getCurrentPlan`: reject a request without a session (401); otherwise
      ask the provider about basic, then about premium, and report the
      active plan, premium first. */
  function GetCurrentPlan(session: Option<Session>, base: Config, provider: Provider): (x: Exchange)
    ensures session.None? ==> x.outcome == Replied(Unauthorized) && x.calls == []
    ensures session.Some? ==> 1 <= |x.calls| <= 2
    ensures session.Some? ==> x.calls[0] == ProviderCall(session.value, BillingConfigForPlan(base, BasicId).value)
    ensures |x.calls| == 2 ==> x.calls[1] == ProviderCall(session.value, BillingConfigForPlan(base, PremiumId).value)
    ensures session.Some? && provider(session.value, BillingConfigForPlan(base, BasicId).value).Checked? ==>
              |x.calls| == 2
  {
    if session.None? then
      Exchange(Replied(Unauthorized), [])
    else
      match BillingConfigForPlan(base, BasicId)
      case Err(f) => Exchange(Raised(f), [])
      case Ok(basicConfig) =>
        match BillingConfigForPlan(base, PremiumId)
        case Err(f) => Exchange(Raised(f), [])
        case Ok(premiumConfig) =>
          var s := session.value;
          var basicCall := ProviderCall(s, basicConfig);
          var premiumCall := ProviderCall(s, premiumConfig);
          match provider(s, basicConfig)
          case Threw(f) => Exchange(CatchInCurrentPlan(f), [basicCall])
          case Checked(hasBasic, _) =>
            match provider(s, premiumConfig)
            case Threw(f) => Exchange(CatchInCurrentPlan(f), [basicCall, premiumCall])
            case Checked(hasPremium, _) =>
              var plan := CurrentPlan(hasBasic, hasPremium);
              Exchange(Replied(Reply(StatusOk, map["currentPlan" := Nullable(plan),
                                                   "hasActiveSubscription" := JBool(plan.Some?)])),
                       [basicCall, premiumCall])
  }
}
