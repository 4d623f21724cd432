/** Properties of the plans controller and of the billing exception that
    relate several calls, or a handler to an independent definition of what
    it should compute. */
module PlansProperties {
  import opened Optional
  import opened Http
  import opened PlansController
  import BillingErrors

  // ---------------------------------------------------------------------
  // Billing exception

  /** The constructor keeps its message and its error list; without a list
      the exception has no errors and no first error. */
  lemma ConstructorRoundTrip(message: string, errors: seq<BillingErrors.ErrorItem>)
    ensures BillingErrors.GetMessage(BillingErrors.New(message, errors)) == message
    ensures BillingErrors.GetErrors(BillingErrors.New(message, errors)) == errors
    ensures BillingErrors.GetErrors(BillingErrors.New(message)) == []
    ensures !BillingErrors.HasErrors(BillingErrors.New(message))
    ensures BillingErrors.GetFirstError(BillingErrors.New(message)) == None
  {
  }

  /** `getFirstError` looks at the first item only: exceptions whose error
      lists start with the same item agree, whatever follows and whatever
      their messages. */
  lemma FirstErrorDependsOnlyOnHead(m1: string, m2: string,
                                    first: BillingErrors.ErrorItem,
                                    rest1: seq<BillingErrors.ErrorItem>, rest2: seq<BillingErrors.ErrorItem>)
    ensures BillingErrors.GetFirstError(BillingErrors.New(m1, [first] + rest1))
         == BillingErrors.GetFirstError(BillingErrors.New(m2, [first] + rest2))
    ensures BillingErrors.GetFirstError(BillingErrors.New(m1, [first] + rest1)).Some?
  {
  }

  /** Chaining `??` over a list of keys is the same as trying the first key
      and then chaining over the others. */
  lemma {:induction false} CoalesceSplits(fields: BillingErrors.Fields, front: seq<string>, back: seq<string>, fallback: string)
    ensures BillingErrors.Coalesce(fields, front + back, fallback)
         == BillingErrors.Coalesce(fields, front, BillingErrors.Coalesce(fields, back, fallback))
    decreases |front|
  {
    if front == [] {
      assert front + back == back;
    } else {
      assert (front + back)[1..] == front[1..] + back;
      CoalesceSplits(fields, front[1..], back, fallback);
    }
  }

  // ---------------------------------------------------------------------
  // Catalog and config mapping

  /** The catalog and the config mapping agree: for every plan the catalog
      lists, the mapping charges the plan's name and price and keeps the
      rest of the base configuration. */
  lemma CatalogAgreesWithConfig(base: Config)
    ensures forall i :: 0 <= i < |GetPlans()| ==>
              BillingConfigForPlan(base, GetPlans()[i].id)
              == Ok(base[ChargeNameKey := JString(GetPlans()[i].name)][AmountKey := JAmount(GetPlans()[i].priceCents)])
  {
  }

  /** The config mapping writes over exactly two entries: whatever the base
      configuration held elsewhere, two bases that agree outside the charge
      name and amount give the same configuration. */
  lemma ConfigIgnoresOverriddenEntries(base1: Config, base2: Config, planId: string)
    requires base1.Keys + {ChargeNameKey, AmountKey} == base2.Keys + {ChargeNameKey, AmountKey}
    requires forall k :: k in base1 && k in base2 && k != ChargeNameKey && k != AmountKey ==> base1[k] == base2[k]
    ensures BillingConfigForPlan(base1, planId) == BillingConfigForPlan(base2, planId)
  {
    var r1 := BillingConfigForPlan(base1, planId);
    var r2 := BillingConfigForPlan(base2, planId);
    if r1.Ok? {
      assert r1.value.Keys == r2.value.Keys;
      forall k | k in r1.value
        ensures r1.value[k] == r2.value[k]
      {
      }
      assert r1.value == r2.value;
    }
  }

  // ---------------------------------------------------------------------
  // subscribe

  /** Without a session, `subscribe` answers 401 before looking at anything
      else: the plan id, the configuration and the provider make no
      difference, and the provider is never called. */
  lemma SubscribeChecksSessionFirst(planId1: Option<string>, planId2: Option<string>,
                                    base1: Config, base2: Config,
                                    provider1: Provider, provider2: Provider)
    ensures Subscribe(None, planId1, base1, provider1) == Subscribe(None, planId2, base2, provider2)
    ensures Subscribe(None, planId1, base1, provider1) == Exchange(Replied(Unauthorized), [])
  {
  }

  /** With a session but a missing or unknown plan id, `subscribe` answers
      400 without calling the provider; neither the configuration nor the
      provider make a difference. */
  lemma SubscribeRejectsUnknownPlanBeforeProvider(session: Session, planId: Option<string>,
                                                  base1: Config, base2: Config,
                                                  provider1: Provider, provider2: Provider)
    requires planId.None? || !IsKnownPlan(planId.value)
    ensures Subscribe(Some(session), planId, base1, provider1) == Subscribe(Some(session), planId, base2, provider2)
    ensures Subscribe(Some(session), planId, base1, provider1)
         == Exchange(Replied(Reply(StatusBadRequest, map["error" := JString(InvalidPlanMessage)])), [])
  {
  }

  /** A subscription request that passes both guards never reaches the
      invalid-plan branch of the config mapping; it calls the provider once,
      with the requested plan's configuration, and echoes the provider's
      answer exactly, or maps its exception to a 500 reply. */
  lemma SubscribeEchoesProvider(session: Session, planId: string, base: Config, provider: Provider)
    requires IsKnownPlan(planId)
    ensures BillingConfigForPlan(base, planId).Ok?
    ensures var config := BillingConfigForPlan(base, planId).value;
            var answer := provider(session, config);
            var x := Subscribe(Some(session), Some(planId), base, provider);
            && x.calls == [ProviderCall(session, config)]
            && (answer.Checked? ==>
                  x.outcome == Replied(Reply(StatusOk, map["hasActiveSubscription" := JBool(answer.hasPayment),
                                                           "confirmationUrl" := Nullable(answer.confirmationUrl)])))
            && (answer.Threw? ==> x.outcome == CatchInHandler(answer.failure, SubscribeFailedMessage))
  {
  }

  /** A billing exception thrown while subscribing reaches the client as its
      message; any other exception reaches it as the generic error only; a
      PHP `\Error` escapes the handler unchanged. */
  lemma SubscribeErrorMapping(session: Session, planId: string, base: Config, provider: Provider)
    requires IsKnownPlan(planId)
    requires provider(session, BillingConfigForPlan(base, planId).value).Threw?
    ensures var f := provider(session, BillingConfigForPlan(base, planId).value).failure;
            var o := Subscribe(Some(session), Some(planId), base, provider).outcome;
            && (o.Raised? <==> f.EngineError?)
            && (f.EngineError? ==> o.failure == f)
            && (o.Replied? ==>
                  && o.reply.status == StatusServerError
                  && o.reply.body["error"] == JString(if f.BillingFailure? then SubscribeFailedMessage else UnexpectedMessage))
            && (f.BillingFailure? ==> o.reply.body["message"] == JString(f.exception.message))
            && (f.OtherFailure? ==> "message" !in o.reply.body)
  {
  }

  /** The provider's contract for its answers: an active subscription comes
      without a confirmation URL, an inactive one with one. */
  ghost predicate WellBehaved(provider: Provider)
  {
    forall s, c :: provider(s, c).Checked? ==>
      (provider(s, c).hasPayment <==> provider(s, c).confirmationUrl.None?)
  }

  /** When the provider keeps its contract, a successful `subscribe` reply
      carries a confirmation URL exactly when there is no active
      subscription. */
  lemma SubscribeStatusInvariant(session: Option<Session>, planId: Option<string>, base: Config, provider: Provider)
    requires WellBehaved(provider)
    ensures var o := Subscribe(session, planId, base, provider).outcome;
            o.Replied? && o.reply.status == StatusOk ==>
              && "hasActiveSubscription" in o.reply.body && "confirmationUrl" in o.reply.body
              && (o.reply.body["hasActiveSubscription"] == JBool(true) <==> o.reply.body["confirmationUrl"] == JNull)
  {
  }

  // ---------------------------------------------------------------------
  // checkSubscription

  /** The provider with every confirmation URL it returns replaced by `url`. */
  function WithConfirmationUrl(provider: Provider, url: Option<string>): (p: Provider)
    ensures forall s, c :: provider(s, c).Threw? ==> p(s, c) == provider(s, c)
  {
    (s, c) => match provider(s, c)
              case Checked(hasPayment, _) => Checked(hasPayment, url)
              case Threw(f) => Threw(f)
  }

  /** `checkSubscription` calls the provider once with the base
      configuration unchanged, and discards the confirmation URL: providers
      that differ only in the URL they return give the same exchange. */
  lemma CheckSubscriptionDiscardsUrl(session: Session, base: Config, provider: Provider, url: Option<string>)
    ensures CheckSubscription(Some(session), base, provider).calls == [ProviderCall(session, base)]
    ensures CheckSubscription(Some(session), base, provider)
         == CheckSubscription(Some(session), base, WithConfirmationUrl(provider, url))
  {
  }

  /** The reply of `checkSubscription` reports the provider's answer, and
      maps its exceptions as `subscribe` does (a PHP `\Error` escapes). */
  lemma CheckSubscriptionReportsProvider(session: Session, base: Config, provider: Provider)
    ensures var answer := provider(session, base);
            var o := CheckSubscription(Some(session), base, provider).outcome;
            && (answer.Checked? ==> o == Replied(Reply(StatusOk, map["hasActiveSubscription" := JBool(answer.hasPayment)])))
            && (answer.Threw? ==> o == CatchInHandler(answer.failure, CheckFailedMessage))
  {
  }

  /** Without a session, `checkSubscription` answers 401 whatever the
      configuration and the provider, without calling it. */
  lemma CheckSubscriptionChecksSessionFirst(base1: Config, base2: Config, provider1: Provider, provider2: Provider)
    ensures CheckSubscription(None, base1, provider1) == CheckSubscription(None, base2, provider2)
    ensures CheckSubscription(None, base1, provider1) == Exchange(Replied(Unauthorized), [])
  {
  }

  // ---------------------------------------------------------------------
  // getCurrentPlan

  /** The priority order in which plans are reported, highest tier first. */
  const Priority: seq<string> := [PremiumId, BasicId]

  /** Reference definition: the first plan of `order` that is active. */
  function FirstActive(order: seq<string>, active: string -> bool): (r: Option<string>)
    ensures r.None? <==> forall i :: 0 <= i < |order| ==> !active(order[i])
    ensures forall i :: 0 <= i < |order| && active(order[i]) && (forall j :: 0 <= j < i ==> !active(order[j]))
                        ==> r == Some(order[i])
    decreases |order|
  {
    if order == [] then None
    else if active(order[0]) then Some(order[0])
    else FirstActive(order[1..], active)
  }

  /** The plan `getCurrentPlan` reports is the first active plan in
      priority order: premium over basic, none when neither is active. */
  lemma CurrentPlanFollowsPriority(hasBasic: bool, hasPremium: bool)
    ensures CurrentPlan(hasBasic, hasPremium)
         == FirstActive(Priority, id => if id == PremiumId then hasPremium else id == BasicId && hasBasic)
  {
  }

  /** Without a session, `getCurrentPlan` answers 401 whatever the
      configuration and the provider, without calling it. */
  lemma CurrentPlanChecksSessionFirst(base1: Config, base2: Config, provider1: Provider, provider2: Provider)
    ensures GetCurrentPlan(None, base1, provider1) == GetCurrentPlan(None, base2, provider2)
    ensures GetCurrentPlan(None, base1, provider1) == Exchange(Replied(Unauthorized), [])
  {
  }

  /** When both provider calls answer, `getCurrentPlan` has asked about
      basic and then premium, and replies 200 with the plan of highest
      priority that is active; `hasActiveSubscription` holds exactly when a
      plan is reported, and a reported plan is one of the known plans. */
  lemma CurrentPlanReportsActivePlan(session: Session, base: Config, provider: Provider)
    requires provider(session, BillingConfigForPlan(base, BasicId).value).Checked?
    requires provider(session, BillingConfigForPlan(base, PremiumId).value).Checked?
    ensures var basicConfig := BillingConfigForPlan(base, BasicId).value;
            var premiumConfig := BillingConfigForPlan(base, PremiumId).value;
            var hasBasic := provider(session, basicConfig).hasPayment;
            var hasPremium := provider(session, premiumConfig).hasPayment;
            var plan := CurrentPlan(hasBasic, hasPremium);
            var x := GetCurrentPlan(Some(session), base, provider);
            && x.calls == [ProviderCall(session, basicConfig), ProviderCall(session, premiumConfig)]
            && x.outcome == Replied(Reply(StatusOk, map["currentPlan" := Nullable(plan),
                                                        "hasActiveSubscription" := JBool(plan.Some?)]))
            && (plan.Some? <==> hasBasic || hasPremium)
            && (plan.Some? ==> IsKnownPlan(plan.value))
            && (hasPremium ==> plan == Some(PremiumId))
  {
  }

  /** A billing exception from either provider call gives the 500 reply
      with safe defaults; any other exception escapes the handler. A failing
      basic check stops the handler before premium is asked about; a basic
      check that answers is always followed by the premium check. */
  lemma CurrentPlanErrorMapping(session: Session, base: Config, provider: Provider)
    ensures var basicConfig := BillingConfigForPlan(base, BasicId).value;
            var premiumConfig := BillingConfigForPlan(base, PremiumId).value;
            var basicAnswer := provider(session, basicConfig);
            var premiumAnswer := provider(session, premiumConfig);
            var x := GetCurrentPlan(Some(session), base, provider);
            && (basicAnswer.Threw? ==>
                  x.calls == [ProviderCall(session, basicConfig)] && x.outcome == CatchInCurrentPlan(basicAnswer.failure))
            && (basicAnswer.Checked? && premiumAnswer.Threw? ==>
                  && x.calls == [ProviderCall(session, basicConfig), ProviderCall(session, premiumConfig)]
                  && x.outcome == CatchInCurrentPlan(premiumAnswer.failure))
            && (x.outcome.Raised? <==>
                  (basicAnswer.Threw? && !basicAnswer.failure.BillingFailure?)
                  || (basicAnswer.Checked? && premiumAnswer.Threw? && !premiumAnswer.failure.BillingFailure?))
  {
  }
}
