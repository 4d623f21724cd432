# Plans and billing controller of a Shopify embedded app, in Dafny

This project models the backend decision logic of a Shopify embedded app
that sells two recurring plans, "basic" and "premium":

- `PlansController` (plans_controller.dfy) models the static plan catalog and
  the mapping from a plan id to a billing configuration. That mapping writes
  the plan's charge name and amount over a base configuration. The module
  also models the three JSON request handlers:
  - `subscribe` subscribes to a plan;
  - `checkSubscription` asks whether the charge that the base billing
    configuration describes is paid;
  - `getCurrentPlan` reports the active plan.
- `BillingErrors` (billing_errors.dfy) models the billing exception. It holds
  a message and the ordered list of errors the Billing API reported. Its
  accessors pick a readable first error from that list.
- `Http` (http.dfy) holds JSON values and replies. `Optional` (optional.dfy)
  holds `Option` and `Result`.
- `PlansProperties` (plans_properties.dfy) holds the lemmas that relate
  several calls, or relate a handler to an independent definition.

The Billing API call `EnsureBilling::check($session, $config)` is a
parameter `provider` of each handler. It answers either
`Checked(hasPayment, confirmationUrl)` or `Threw(failure)`. A failure is
the billing exception, some other `\Exception`, or a PHP `\Error`. Each
handler returns
an `Exchange`, which holds two things:

- the handler's outcome: a `Reply` (HTTP status plus top-level JSON object),
  or an exception that escapes the handler;
- the list of provider calls the handler made, in order, with their
  arguments.

This list is what lets the contracts state guard order. For example, a
request without a session is answered 401 with no provider call. A request
with an unknown plan is answered 400 with no provider call.

Amounts are decimals with two fractional digits, kept as integer cents
(4.99 is `JAmount(499)`).

Facts about the code that the model keeps:

- The billing-error replies of `subscribe` and `checkSubscription` carry
  the exception's `getMessage()`; the controller never uses
  `getFirstError()`.
- In `subscribe` and `checkSubscription`, any other `\Exception` gets a
  reply with only a generic `error`.
- The 500 reply of `getCurrentPlan` carries no `message`: only `error`,
  `currentPlan` (null) and `hasActiveSubscription` (false).
- A PHP `\Error` (a TypeError, say) is not an `\Exception`: it passes every
  `catch` block and escapes all three handlers. The model's `EngineError`
  failure stands for it.
- `getCurrentPlan` catches only the billing exception. Any other exception
  escapes the handler.
- `getCurrentPlan` asks about basic first and then premium, and never
  short-circuits. Premium wins when both are active.
- A failing basic check stops `getCurrentPlan` before premium is asked
  about.

## Model

| member | source | states |
|---|---|---|
| BillingErrors.New | web/app/Exceptions/ShopifyBillingException.php:11-15 | the exception keeps the given message and error list; the list defaults to empty |
| BillingErrors.GetMessage | web/app/Exceptions/ShopifyBillingException.php:13 | the message, together with the error list, rebuilds the exception through the constructor |
| BillingErrors.GetErrors | web/app/Exceptions/ShopifyBillingException.php:17-20 | the error list, together with the message, rebuilds the exception through the constructor |
| BillingErrors.IsSet | web/app/Exceptions/ShopifyBillingException.php:37 | definition: an entry counts for `??` exactly when its key is present and its value is not null |
| BillingErrors.HasErrors | web/app/Exceptions/ShopifyBillingException.php:22-25 | true exactly when the error list is non-empty |
| BillingErrors.Coalesce | web/app/Exceptions/ShopifyBillingException.php:37 | a `??` chain yields the value of the first key that is present and non-null, and the fallback when no key is |
| BillingErrors.Describe | web/app/Exceptions/ShopifyBillingException.php:36-40 | a keyed item gives its `message` if set, else its `field` if set, else "Unknown error"; a scalar item gives its string form |
| BillingErrors.GetFirstError | web/app/Exceptions/ShopifyBillingException.php:27-41 | null exactly when the error list is empty, otherwise the text of the first item |
| PlansProperties.ConstructorRoundTrip | web/app/Exceptions/ShopifyBillingException.php:11-20 | getMessage and getErrors return what the constructor was given; with no list there are no errors and no first error |
| PlansProperties.FirstErrorDependsOnlyOnHead | web/app/Exceptions/ShopifyBillingException.php:33 | exceptions whose lists start with the same item have the same first error, whatever follows and whatever their messages |
| PlansProperties.CoalesceSplits | web/app/Exceptions/ShopifyBillingException.php:37 | a `??` chain over a concatenation of keys is the chain over the front with the chain over the back as fallback |
| PlansController.IsKnownPlan | web/app/Http/Controllers/PlansController.php:50 | definition: the plan ids the subscribe guard and the config switch (lines 154 and 158) accept, exactly "basic" and "premium" |
| PlansController.GetPlans | web/app/Http/Controllers/PlansController.php:14-34 | the catalog lists basic then premium, and its ids are exactly the ids a subscription accepts |
| PlansController.BillingConfigForPlan | web/app/Http/Controllers/PlansController.php:149-167 | basic sets chargeName "Basic Plan" and amount 4.99; premium sets "Premium Plan" and 9.99; every other base entry is unchanged; any other id throws "Invalid plan ID: <id>" |
| PlansController.CatchInHandler | web/app/Http/Controllers/PlansController.php:74-97 | the catch blocks of `subscribe` (lines 74-97) and of `checkSubscription` (lines 122-143, with "Failed to check subscription status"): a billing exception gives 500 with `error` and the exception's `message`; any other `\Exception` gives 500 with only the generic `error`; a PHP `\Error` is not caught and escapes unchanged |
| PlansController.Subscribe | web/app/Http/Controllers/PlansController.php:36-98 | no session gives 401 and no provider call; otherwise a missing or unknown plan gives 400 and no call; otherwise exactly one call, with the plan's configuration; only a PHP `\Error` from that call escapes |
| PlansController.CheckSubscription | web/app/Http/Controllers/PlansController.php:100-144 | no session gives 401 and no call; otherwise one call with the base configuration unchanged; only a PHP `\Error` from it escapes; a 200 reply holds only `hasActiveSubscription` |
| PlansController.CatchInCurrentPlan | web/app/Http/Controllers/PlansController.php:200-211 | a billing exception gives 500 with currentPlan null and hasActiveSubscription false; any other exception escapes unchanged |
| PlansController.GetCurrentPlan | web/app/Http/Controllers/PlansController.php:172-212 | no session gives 401 and no call; otherwise the first call checks basic's configuration; whenever it answers, a second call checks premium's |
| PlansController.CurrentPlan | web/app/Http/Controllers/PlansController.php:189-194 | a plan is reported exactly when basic or premium is active; premium when premium is active, otherwise basic; always a known plan |
| PlansProperties.CatalogAgreesWithConfig | web/app/Http/Controllers/PlansController.php:19-30 | for every catalog plan, the config mapping charges that plan's name and price over the base configuration |
| PlansProperties.ConfigIgnoresOverriddenEntries | web/app/Http/Controllers/PlansController.php:151-166 | two base configurations that agree outside chargeName and amount give the same plan configuration |
| PlansProperties.SubscribeChecksSessionFirst | web/app/Http/Controllers/PlansController.php:43-45 | without a session the exchange is 401 with no call, whatever the plan id, configuration and provider |
| PlansProperties.SubscribeRejectsUnknownPlanBeforeProvider | web/app/Http/Controllers/PlansController.php:50-52 | with a session and a missing or unknown plan id the exchange is 400 with no call, whatever the configuration and provider |
| PlansProperties.SubscribeEchoesProvider | web/app/Http/Controllers/PlansController.php:54-73 | after both guards the invalid-plan throw is unreachable; the single call uses the plan's configuration; hasPayment and confirmationUrl are echoed exactly |
| PlansProperties.SubscribeErrorMapping | web/app/Http/Controllers/PlansController.php:74-97 | a billing exception gives 500 whose body carries its message; any other `\Exception` gives 500 with no `message`; a PHP `\Error` escapes unchanged |
| PlansProperties.SubscribeStatusInvariant | web/app/Http/Controllers/PlansController.php:70-73 | if the provider keeps its contract, a 200 reply has a confirmation URL exactly when there is no active subscription |
| PlansProperties.CheckSubscriptionDiscardsUrl | web/app/Http/Controllers/PlansController.php:110-121 | the call uses the base configuration as read; providers that differ only in the confirmation URL give the same exchange |
| PlansProperties.CheckSubscriptionReportsProvider | web/app/Http/Controllers/PlansController.php:117-143 | the reply reports hasPayment, or maps the provider's exception as subscribe does, with "Failed to check subscription status" |
| PlansProperties.CheckSubscriptionChecksSessionFirst | web/app/Http/Controllers/PlansController.php:106-108 | without a session the exchange is 401 with no call, whatever the configuration and provider |
| PlansProperties.FirstActive | web/app/Http/Controllers/PlansController.php:189-194 | reference definition: the first active plan of a priority order, or null exactly when none is active |
| PlansProperties.CurrentPlanFollowsPriority | web/app/Http/Controllers/PlansController.php:189-194 | the reported plan is the first active one in the order premium, basic |
| PlansProperties.CurrentPlanChecksSessionFirst | web/app/Http/Controllers/PlansController.php:178-180 | without a session the exchange is 401 with no call, whatever the configuration and provider |
| PlansProperties.CurrentPlanReportsActivePlan | web/app/Http/Controllers/PlansController.php:183-199 | both checks run, basic then premium; premium wins; hasActiveSubscription holds exactly when a plan is reported; a reported plan is a known plan |
| PlansProperties.CurrentPlanErrorMapping | web/app/Http/Controllers/PlansController.php:200-211 | a billing exception from either call gives the safe-default 500; any other exception escapes; a failing basic check makes no premium call; a basic check that answers is followed by the premium call even when that one throws |

## Left out

- `EnsureBilling::check` and the Shopify Billing API are network I/O whose code is not part of this model. They are the `provider` parameter. The provider's own contract is stated as an assumption (`WellBehaved`), never as a fact.
- `Config::get('shopify.billing')` reads configuration. The base configuration is a parameter, an opaque map from keys to JSON values.
- `Log::info` and `Log::error` are write-only diagnostics with no effect on any reply, so they are omitted. So is the `$session?->getShop()` they read.
- The HTTP request and the session object are reduced to `Option<Session>` and `Option<string>` for the plan id. PHP's loose comparison in `in_array` and `switch` on non-string plan ids is not modelled. In PHP a JSON `true` plan id passes `in_array` (`true == 'basic'`), is coerced to `"1"` by the non-strict `string $planId` parameter, and reaches the `InvalidArgumentException` at PlansController.php:163, giving the generic 500. So the unreachability of that throw (`SubscribeEchoesProvider`) holds for string plan ids only.
- `getPlans`' JSON wrapping `{ "plans": [...] }` is left out, because the catalog's interval is the constant `EnsureBilling::INTERVAL_EVERY_30_DAYS`, whose value is not part of this model. The catalog is modelled as a list of `Plan` records.
- Prices and amounts are integer cents, not floating-point numbers.
- Replies are maps, so the order of keys in the JSON text is not modelled.
- The error list is a PHP array: `getErrors` returns its keys too, and `reset` follows its insertion order. The model's `seq<ErrorItem>` keeps that order and drops the keys.
- Error items hold only string or null entries. A scalar item is represented by its string form, so PHP's `(string)` cast of numbers, booleans or null is not modelled. Neither is the type error `getFirstError` would raise for an entry holding an array.
- The React pages and components are presentation and `fetch` calls, with no decision logic, so they are left out.
