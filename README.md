# Flutterwave billing reconciliation: a Dafny model

This project models how the link-management web application keeps its billing state in
step with the Flutterwave payment provider. It covers three parts of the application.

- **The webhook route** (`POST /api/flutterwave/webhook`):
  - It checks the `verif-hash` header against the configured secret.
  - It dispatches on the event name.
  - On `charge.completed` it:
    - decodes the transaction reference (`tx_ref`);
    - finds the workspace it names;
    - upserts the paying customer;
    - writes the paid plan and its limits onto the workspace;
    - records a sale, and a lead for a new customer, behind an idempotency key in the key-value store;
    - fires the workspace webhooks.
  - On `subscription.cancelled` and `subscription.disabled` it downgrades the subscribed workspace to the free plan.
- **The pricing helpers**: signature validation, the display currency for a country, and the display price of a plan.
- **The checkout button**:
  - its own price table;
  - `getPlanConfig`, which maps a display plan name to a provider plan id and an amount;
  - the template of the transaction reference it builds (`txRef`).

The checkout as written builds `txRef` but never passes it to `initiateSubscription`
(lines 123-135), so no charge the route decodes carries it today. The model still sets
the template against the route's decoder, and records where the two would disagree once
the reference is passed as `tx_ref`.

The modules follow the source:

- `Js`: the JavaScript string semantics the route relies on:
  - `split` on one character;
  - ASCII `toLowerCase`;
  - `replace` of the first occurrence;
  - the keys every object inherits.
- `Flutterwave`: the pricing helpers of `lib/flutterwave.ts`, and the `lnking` namespace token that both ends of the transaction reference use.
- `Checkout`: the pure parts of the checkout button.
- `Webhook`: the entities and the handlers as pure functions over a snapshot of the tables.
- `WebhookProperties`: what those handlers promise.
- `WebhookRoute.Engine`: the route as a class.
  - Its fields are the tables the route changes in place: workspaces, customers, the guard keys and the log of downstream calls.
  - Each handler method performs the source's steps in order and is proved to end in the state the `Webhook` functions describe.
- `TxRefRoundTrip`: the checkout-to-route round trip, the findings, and the corrected checkout.

`prisma.customer.findFirst` and `prisma.project.findFirst` have no ordering. A lookup
is therefore modelled by its admissible answers: `IsFindFirst` and
`IsFindBySubscription`.

- The pure handlers take the answer as a parameter.
- The engine's methods pick one with `:|` and return it.

Fresh ids, random event ids, the day of the month and the timestamp come in as a
`Fresh` parameter.

## Model

| member | source | states |
|---|---|---|
| Js.Split | apps/web/app/api/flutterwave/webhook/route.ts:95 | `split("_")` returns at least one part, no part holds the separator, and joining the parts with it gives the input back |
| Js.SplitJoin | apps/web/app/api/flutterwave/webhook/route.ts:95 | splitting the join of separator-free parts gives exactly those parts |
| Js.SplitAfterJoin | apps/web/app/api/flutterwave/webhook/route.ts:95 | splitting separator-free parts joined and followed by a delimited tail yields those parts, then the tail's parts |
| Js.SplitUnique | apps/web/app/api/flutterwave/webhook/route.ts:95 | any list of separator-free parts that joins to the string is the split of the string |
| Js.JoinAppend | apps/web/app/api/flutterwave/webhook/route.ts:95 | joining two non-empty lists of parts is joining each and putting the separator between |
| Js.JoinFive | apps/web/components/billing/flutterwave-checkout.tsx:123 | a five-part join is the parts with the separator between each pair |
| Js.JoinCons | apps/web/components/billing/flutterwave-checkout.tsx:123 | joining a head and a non-empty tail is the head, the separator, then the tail's join |
| Js.ToLowerCase | apps/web/app/api/flutterwave/webhook/route.ts:212 | `toLowerCase()` keeps the length and lower-cases each character on its own |
| Js.ToLowerCaseIsLower | apps/web/app/api/flutterwave/webhook/route.ts:212 | the result of lower-casing holds no upper-case letter |
| Js.ToLowerCaseOfLower | apps/web/components/billing/flutterwave-checkout.tsx:95 | lower-casing a string with no upper-case letter returns it unchanged |
| Js.LowerChar | apps/web/app/api/flutterwave/webhook/route.ts:212 | an upper-case letter maps to its lower-case letter; every other character maps to itself |
| Js.IndexOf | apps/web/components/billing/flutterwave-checkout.tsx:123 | the index of the first occurrence of a character, or -1 exactly when the character is absent |
| Js.RemoveFirst | apps/web/components/billing/flutterwave-checkout.tsx:123 | `replace(" ", "")` removes exactly the first space: the length drops by one when there is a space, and the string is unchanged when there is none |
| Flutterwave.GetDisplayCurrency | apps/web/lib/flutterwave.ts:232-241 | an absent or empty country gives USD; the result is NGN exactly for the twelve listed country codes |
| Flutterwave.GetPriceForDisplay | apps/web/lib/flutterwave.ts:246-304 | a price is returned exactly for the five paid plan keys and is positive; other names throw, with a TypeError exactly for the inherited object keys |
| Flutterwave.AuthenticatesIff | apps/web/app/api/flutterwave/webhook/route.ts:35-40 | a request passes the signature check exactly when the configured hash is non-empty and the header equals it |
| Flutterwave.EmptyHashAuthenticatesNothing | apps/web/lib/flutterwave.ts:225-227 | with no configured hash, no header passes |
| Flutterwave.NairaCaseSensitive | apps/web/lib/flutterwave.ts:240 | the country match is case-sensitive: "NG" gives naira, "ng" gives dollars |
| Flutterwave.YearlyDiscount | apps/web/lib/flutterwave.ts:247-298 | every yearly price exceeds one month and stays below twelve months |
| Checkout.MappedPlan | apps/web/components/billing/flutterwave-checkout.tsx:87-95 | a lower-cased name in the name table `Checkout.PlanKeyByName` maps to its key; any other name maps to "pro", except that the mapping fails exactly when the lower-cased name is "constructor" or "__proto__"; every result is a key of the price table `Checkout.PlanPrices` |
| Checkout.LowerCaseInheritedKeys | apps/web/components/billing/flutterwave-checkout.tsx:95 | of the inherited keys, only "constructor" and "__proto__" are lower-case |
| Checkout.GetPlanConfig | apps/web/components/billing/flutterwave-checkout.tsx:84-107 | the config exists exactly when the mapping gives a key; it keeps the currency; its plan id splits into key, period and lower-case currency; its amount is the display price of that key |
| Checkout.PlanIdSegments | apps/web/components/billing/flutterwave-checkout.tsx:98 | the plan id template splits back into its three fields |
| Checkout.PlanKeyHasNoUnderscore | apps/web/components/billing/flutterwave-checkout.tsx:30-81 | no price-table key contains the underscore delimiter |
| Checkout.CurrencyTokenHasNoUnderscore | apps/web/components/billing/flutterwave-checkout.tsx:98 | the lower-cased currency code contains no underscore |
| Checkout.PriceTablesAgree | apps/web/components/billing/flutterwave-checkout.tsx:30-81 | the checkout's price table and the display price table have the same keys and the same prices |
| Checkout.DisplayNamesMapped | apps/web/components/billing/flutterwave-checkout.tsx:87-95 | each lower-case display name maps to its camelCase key |
| Checkout.CapitalisedProMapped | apps/web/components/billing/flutterwave-checkout.tsx:95 | the mapping ignores case: "Pro" maps to "pro" |
| Flutterwave.ValidateWebhookSignature | apps/web/lib/flutterwave.ts:225-227 | `validateWebhookSignature`: plain equality with the configured hash; its properties are those of `Flutterwave.AuthenticatesIff` and `Flutterwave.EmptyHashAuthenticatesNothing` |
| Flutterwave.Authenticates | apps/web/app/api/flutterwave/webhook/route.ts:38 | a request passes the route's guard when its header is present, non-empty and validates; characterised by `Flutterwave.AuthenticatesIff` and used by `Webhook.Post` |
| Checkout.CheckoutTxRef | apps/web/components/billing/flutterwave-checkout.tsx:123 | the reference template; `TxRefRoundTrip.CheckoutTxRefSegments` shows it is the route's five-segment encoding plus the delimited nonce, and `TxRefRoundTrip.CheckoutRoundTrip` that the route decodes it back |
| Webhook.UpsertCustomer | apps/web/app/api/flutterwave/webhook/route.ts:135-152 | the upsert adds exactly the chosen id, whose row carries the payer's name and is findable by the payer's email (its only lookup key) in the workspace; every other row is kept |
| Webhook.ApplyPlan | apps/web/app/api/flutterwave/webhook/route.ts:209-217 | the plan patch keeps the workspace's identity, stores the plan name lower-cased (so holding no upper-case letter), the provider reference and the billing day, and takes the limits of `Webhook.PlanMapping` only when the raw name is a key, otherwise keeping them |
| Webhook.Downgrade | apps/web/app/api/flutterwave/webhook/route.ts:335-347 | the free plan with `Webhook.FreeLimits`; identity, stored provider reference and billing day are kept, so the workspace is found again by its reference |
| Webhook.GuardKey | apps/web/app/api/flutterwave/webhook/route.ts:220 | the key is the fixed prefix followed by the provider reference, which can be read back from it |
| Webhook.SaleEventName | apps/web/app/api/flutterwave/webhook/route.ts:235 | "Yearly Subscription" exactly for the interval "yearly", "Monthly Subscription" exactly for every other interval |
| Webhook.Emissions | apps/web/app/api/flutterwave/webhook/route.ts:230-309 | two calls for a returning customer, four for a new one: the sale first (named for the interval, with the customer, amount and provider reference), the "Sign up" lead next for a new customer, then `sale.created`, then `lead.created` for a new customer |
| Webhook.ChargeCompleted | apps/web/app/api/flutterwave/webhook/route.ts:90-309 | an ignored charge changes nothing; no charge adds or removes a workspace; the guard set only grows; the log only grows at its end |
| Webhook.ReconcileCharge | apps/web/app/api/flutterwave/webhook/route.ts:124-309 | a charge for an existing workspace is never ignored; it leaves the guard key in the set, is recorded exactly when the key was new, reports a new customer exactly when the lookup found none, and only appends to the log (nothing when already processed) |
| Webhook.SubscriptionCancelled | apps/web/app/api/flutterwave/webhook/route.ts:323-349 | customers, guard keys and log are untouched and no workspace is added or removed; a found workspace ends on plan "free" with the free limits; without a match nothing changes |
| Webhook.Post | apps/web/app/api/flutterwave/webhook/route.ts:33-72 | the answer is the 401 or the 200 acknowledgement; it is 401 exactly when the request does not authenticate, and then the tables are unchanged |
| Webhook.DecodeTxRef | apps/web/app/api/flutterwave/webhook/route.ts:95-107 | a decoded reference has four non-empty, underscore-free fields, and the input starts with their five-segment encoding followed by nothing or by a delimiter |
| Webhook.DecodeEncoded | apps/web/app/api/flutterwave/webhook/route.ts:95-107 | decoding the encoding of a well-formed reference, followed by any delimited tail, gives the reference back |
| Webhook.DecodeRejects | apps/web/app/api/flutterwave/webhook/route.ts:97-107 | fewer than five parts or a wrong namespace is an invalid format; an empty field among the four is missing data |
| WebhookProperties.CountSales | apps/web/app/api/flutterwave/webhook/route.ts:269 | counting helper for the emission lemmas: the number of sale events in a log (bounded by its length) |
| WebhookProperties.CountLeads | apps/web/app/api/flutterwave/webhook/route.ts:279 | counting helper for the emission lemmas: the number of lead events in a log (bounded by its length) |
| WebhookProperties.CountAppend | apps/web/app/api/flutterwave/webhook/route.ts:269-279 | counting helper: the counts of sales and leads add up over concatenated logs |
| WebhookProperties.PlanKeySetsAgree | apps/web/app/api/flutterwave/webhook/route.ts:155-206 | the route's limits table and the display price table have the same keys: the five paid plans |
| WebhookProperties.PlanTiersOrdered | apps/web/app/api/flutterwave/webhook/route.ts:155-206 | the limits table `Webhook.PlanMapping` is ordered by tier: each paid plan allows at least every limit of the plan below it |
| WebhookProperties.DowngradeNeverRaisesLimits | apps/web/app/api/flutterwave/webhook/route.ts:335-347 | the free limits `Webhook.FreeLimits` are at most those of every paid plan, so downgrading a workspace on a paid plan raises no limit |
| WebhookProperties.GuardKeyInjective | apps/web/app/api/flutterwave/webhook/route.ts:220 | two provider references share a guard key exactly when they are equal, so one invoice never blocks another |
| WebhookProperties.UpsertKeepsOneCustomer | apps/web/app/api/flutterwave/webhook/route.ts:125-152 | if emails were unique per workspace, they stay unique after the upsert, and exactly the upserted customer matches the payer's email in that workspace |
| WebhookProperties.ChargeIgnoredLeavesTables | apps/web/app/api/flutterwave/webhook/route.ts:95-122 | a charge is ignored exactly when decoding fails or the workspace is missing, and an ignored charge changes no table |
| WebhookProperties.ChargeReconciledStep | apps/web/app/api/flutterwave/webhook/route.ts:125-309 | a reconciled charge upserts the found (or the new) customer, patches the named workspace, and, when recorded, appends exactly its emissions to the log |
| WebhookProperties.ChargeCustomer | apps/web/app/api/flutterwave/webhook/route.ts:125-152 | an existing customer keeps its id and a new one gets the fresh id; all other rows are kept; if emails were unique per workspace, exactly that customer is findable by the email afterwards |
| WebhookProperties.ChargeWorkspacePatch | apps/web/app/api/flutterwave/webhook/route.ts:209-217 | the workspace gets the lower-cased plan name, the provider reference and the billing day; it gets the plan's limits only when the raw name is a limits-table key, and otherwise keeps its limits; no other workspace or field changes |
| WebhookProperties.PlanSwitch | apps/web/app/api/flutterwave/webhook/route.ts:209-217 | a second paid plan overrides the first completely; an unknown name keeps the first plan's limits |
| WebhookProperties.ApplyPlanIdempotent | apps/web/app/api/flutterwave/webhook/route.ts:209-217 | writing the same plan patch twice is writing it once |
| WebhookProperties.ChargeGuard | apps/web/app/api/flutterwave/webhook/route.ts:220-228 | the guard key ends up in the set; the charge is recorded exactly when the key was absent, and the log grows exactly then |
| WebhookProperties.EmissionCounts | apps/web/app/api/flutterwave/webhook/route.ts:269-309 | the emissions of one charge hold exactly one sale, and one lead exactly when the customer is new |
| WebhookProperties.ChargeEmissions | apps/web/app/api/flutterwave/webhook/route.ts:230-309 | a recorded charge appends to the log exactly one sale, named for the interval and carrying the customer, amount, currency and provider reference, plus one lead exactly when the customer is new |
| WebhookProperties.Redelivery | apps/web/app/api/flutterwave/webhook/route.ts:220-228 | a second delivery of the same reconciled charge is reported as already processed and records nothing |
| WebhookProperties.RedeliveryFindsCustomer | apps/web/app/api/flutterwave/webhook/route.ts:125-133 | if emails were unique per workspace, the customer lookup of a redelivery finds exactly the customer the first delivery wrote |
| WebhookProperties.RedeliveryConverges | apps/web/app/api/flutterwave/webhook/route.ts:125-228 | if emails were unique per workspace, a second delivery on the same day leaves the tables exactly as the first delivery did, with the same customer |
| WebhookProperties.CancelDowngrades | apps/web/app/api/flutterwave/webhook/route.ts:323-349 | the matched workspace gets plan "free" and the free limits and keeps every other field; nothing else changes, and without a match nothing changes at all |
| WebhookProperties.CancelIdempotent | apps/web/app/api/flutterwave/webhook/route.ts:323-349 | cancelling a second time finds the workspace again and changes nothing |
| WebhookProperties.PostRejectsBadSignature | apps/web/app/api/flutterwave/webhook/route.ts:35-40 | the answer is 401 exactly when the header is absent, empty or different from the hash; then nothing changes; every other answer is the 200 acknowledgement |
| WebhookProperties.PostIgnoresOtherEvents | apps/web/app/api/flutterwave/webhook/route.ts:46-72 | an authenticated `subscription.created` or unknown event is acknowledged and changes nothing |
| WebhookProperties.PostDisabledIsCancelled | apps/web/app/api/flutterwave/webhook/route.ts:354-357 | `subscription.disabled` behaves exactly like `subscription.cancelled` |
| WebhookRoute.Engine.constructor | apps/web/app/api/flutterwave/webhook/route.ts:110-133 | starts from workspace and customer tables keyed by id, with no guard keys and an empty log |
| WebhookRoute.Engine.FindCustomer | apps/web/app/api/flutterwave/webhook/route.ts:125-133 | the answer is none exactly when no customer of the workspace matches the email or external id; otherwise it is a matching customer |
| WebhookRoute.Engine.FindWorkspaceBySubscription | apps/web/app/api/flutterwave/webhook/route.ts:325-327 | the answer is none exactly when no workspace stores the reference; otherwise it is one that does |
| WebhookRoute.Engine.SetIfAbsent | apps/web/app/api/flutterwave/webhook/route.ts:220-223 | `SET NX`: succeeds exactly when the key was absent, and the key is present afterwards |
| WebhookRoute.Engine.WriteCustomer | apps/web/app/api/flutterwave/webhook/route.ts:142-152 | the customer table becomes the upsert of the customer data under the id |
| WebhookRoute.Engine.EmitCharge | apps/web/app/api/flutterwave/webhook/route.ts:269-309 | the log is extended by `Webhook.Emissions`: the sale, the lead for a new customer, the `sale.created` webhook, and the `lead.created` webhook for a new customer, in that order |
| WebhookRoute.Engine.Emit | apps/web/app/api/flutterwave/webhook/route.ts:269-306 | one downstream call appends exactly that event to the log |
| WebhookRoute.Engine.WriteCustomerAndPlan | apps/web/app/api/flutterwave/webhook/route.ts:124-217 | the lookup answer is admissible; the customer table becomes the upsert under the found or fresh id; the named workspace gets the plan patch; rows stay keyed by id |
| WebhookRoute.Engine.Settle | apps/web/app/api/flutterwave/webhook/route.ts:219-309 | the guard key is added; when it was present, the outcome is "already processed" and the log is unchanged; otherwise the outcome is "recorded" and the log grows by the charge's emissions |
| WebhookRoute.Engine.HandleChargeCompleted | apps/web/app/api/flutterwave/webhook/route.ts:90-309 | the lookup answer is admissible, and the new tables and the outcome are those of `Webhook.ChargeCompleted` on the old tables |
| WebhookRoute.Engine.Reconcile | apps/web/app/api/flutterwave/webhook/route.ts:124-309 | once the workspace is found, the new tables and the outcome are those of `Webhook.ReconcileCharge` |
| WebhookRoute.Engine.HandleSubscriptionCreated | apps/web/app/api/flutterwave/webhook/route.ts:315-318 | changes nothing |
| WebhookRoute.Engine.HandleSubscriptionCancelled | apps/web/app/api/flutterwave/webhook/route.ts:323-349 | the new tables are `Webhook.SubscriptionCancelled` of the old ones, for an admissible lookup answer |
| WebhookRoute.Engine.HandleSubscriptionDisabled | apps/web/app/api/flutterwave/webhook/route.ts:354-357 | the same state change as the cancellation handler |
| WebhookRoute.Engine.Post | apps/web/app/api/flutterwave/webhook/route.ts:33-72 | the response and the new tables are those of `Webhook.Post` on the old tables |
| TxRefRoundTrip.CheckoutTxRefSegments | apps/web/components/billing/flutterwave-checkout.tsx:123 | the checkout's `txRef` template is the route's five-segment encoding followed by a delimiter and the nonce |
| TxRefRoundTrip.CheckoutRoundTrip | apps/web/components/billing/flutterwave-checkout.tsx:123 | with underscore-free, non-empty user id, slug and plan name, the route would decode the checkout's `txRef` template to exactly those fields and the period |
| TxRefRoundTrip.SlugLookedUpAsId | apps/web/app/api/flutterwave/webhook/route.ts:102-122 | the route reads the checkout's slug as the workspace id; when the slug is no workspace id, the charge is ignored as "workspace not found" and nothing changes |
| TxRefRoundTrip.BusinessPlusSpelling | apps/web/components/billing/flutterwave-checkout.tsx:123 | the template writes "business plus" as "businessplus", which is its own lower-case form and not a limits-table key |
| TxRefRoundTrip.FirstSpaceOfBusinessPlus | apps/web/components/billing/flutterwave-checkout.tsx:123 | the first space of "business plus" is at index 8, and removing it gives "businessplus" |
| TxRefRoundTrip.UnkeyedPlanKeepsLimits | apps/web/app/api/flutterwave/webhook/route.ts:209-217 | a charge carrying a template plan name that is not a limits-table key relabels the workspace with that name lower-cased and leaves its limits as they were |
| TxRefRoundTrip.InheritedPlanNameThrows | apps/web/components/billing/flutterwave-checkout.tsx:95-102 | a plan name that lower-cases to "constructor" or "__proto__" makes `getPlanConfig` fail |
| TxRefRoundTrip.IntendedPlanKey | apps/web/components/billing/flutterwave-checkout.tsx:87-95 | corrected mapping: a lower-cased name in the name table maps to its key and every other name to "pro"; the result is always a key of both the price table and the limits table, and a valid reference field |
| TxRefRoundTrip.IntendedPlanKeyAgrees | apps/web/components/billing/flutterwave-checkout.tsx:95 | wherever the checkout's mapping gives a key, the corrected mapping gives the same one |
| TxRefRoundTrip.IntendedTxRefDecodes | apps/web/components/billing/flutterwave-checkout.tsx:123 | the corrected reference decodes to the workspace id and the price-table key |
| TxRefRoundTrip.IntendedTxRefSegments | apps/web/components/billing/flutterwave-checkout.tsx:123 | the corrected reference is the route's five-segment encoding followed by the delimited nonce |
| TxRefRoundTrip.IntendedCheckoutReconciles | apps/web/app/api/flutterwave/webhook/route.ts:95-217 | with the corrected reference, the charge reaches the intended workspace and gives it the limits of the plan that was priced |

## Left out

- Network calls to the provider are left out because they are I/O. These are `createPaymentPlan`, `initiateSubscription`, `verifyTransaction`, `cancelSubscription` and `getSubscription`.
- The checkout's `initiateSubscription` call, its redirect and its UI state are left out for the same reason.
- The checkout as written never sends its transaction reference: `txRef` (flutterwave-checkout.tsx:123) is not among the fields passed to `initiateSubscription` (lines 126-135), `SubscriptionPayload` (lib/flutterwave.ts:22-32) has no `tx_ref` field, and `initiateSubscription` sends only the payload and its own fields (lib/flutterwave.ts:109-117). The round-trip lemmas are therefore conditional: they hold for a charge whose `tx_ref` is the template.
- The database and the key-value store are modelled as two maps and a set of keys. Their connections, the transactions they lack and their failures are not modelled.
- The seven-day expiry of the guard key is not modelled; a guard key never expires. So `Redelivery` holds only for deliveries within the expiry window.
- Request body parsing and the 500 path of `POST` are left out. The model handles no throw from the handlers. `JSON.parse` errors and store errors are therefore outside it.
- `waitUntil` runs the workspace webhooks after the response. The model appends them to the log in order, as if they ran before the response. Concurrency between deliveries is not modelled.
- The contents of the outgoing records are cut down:
  - a sale and a lead keep only the id, name, customer, amount, currency, invoice reference and timestamp; the empty click fields and the `metadata` string are left out;
  - a workspace webhook keeps only its trigger, workspace id and customer id, not the transformed payload.
- `createId`, `nanoid`, `new Date()` and the timestamp are inputs (`Fresh`).
- `WebhookRoute.Engine.HandleChargeCompleted`, `WebhookRoute.Engine.Reconcile`, `WebhookRoute.Engine.WriteCustomerAndPlan` and `WebhookRoute.Engine.Post` require that the fresh customer id (`NewCustomerId(fr)`) is not already taken, which `createId` is trusted to ensure. `Post` carries this requirement on every request, including one answered with 401, where the id is never used.
- `Js.ToLowerCase`: lower-cases ASCII letters only, not the full Unicode mapping of `toLowerCase`.
- `Flutterwave.ValidateWebhookSignature`: is plain equality, as in the source. Timing side channels are not modelled.
- An unset `FLUTTERWAVE_WEBHOOK_HASH` is modelled as the empty string. Like `undefined`, it matches no non-empty header.
- The payment amount is an integer. The source's floating-point `number` is not modelled.
- `getDisplayCurrency` takes an `Option` for the optional parameter. Any other falsy JavaScript value is not modelled.
- A plan switch could be expected to set every limit field. The code spreads `planMapping[planName]`, which sets nothing for a name that is not a key. The model follows the code: `Webhook.ApplyPlan` keeps the old limits for such a name.
- The plan name is lower-cased only for the `plan` column. The limits lookup uses the raw name, as the code does.

## Findings

| source | as written | input that shows it | evidently intended | confidence | as-written member | corrected member |
|---|---|---|---|---|---|---|
| apps/web/components/billing/flutterwave-checkout.tsx:123 | latent mismatch between the template and the decoder: the `txRef` template puts the workspace slug in the segment the route looks up as the workspace id (route.ts:102-122); it shows only once `txRef` is passed as `tx_ref`, which the checkout as written never does | a workspace with id "ws1" and slug "acme": the reference `lnking_u1_acme_pro_monthly_x`, with no workspace whose id is "acme" | the reference is passed as `tx_ref` and carries the workspace id, so that the charge reaches the workspace that paid | high, not executed | TxRefRoundTrip.SlugLookedUpAsId | TxRefRoundTrip.IntendedCheckoutReconciles |
| apps/web/components/billing/flutterwave-checkout.tsx:123 | latent mismatch between the template and the decoder: the `txRef` template writes the plan name with only its first space removed; the route looks up its limits with the raw name (route.ts:215), whose keys are camelCase; it shows only once `txRef` is passed as `tx_ref` | plan "business plus" becomes "businessplus", which is not a key of `planMapping`: the workspace is labelled "businessplus" and keeps its old limits | the reference carries the price-table key ("businessPlus"), which is also a limits-table key | high, not executed | TxRefRoundTrip.UnkeyedPlanKeepsLimits | TxRefRoundTrip.IntendedCheckoutReconciles |
| apps/web/components/billing/flutterwave-checkout.tsx:95 | `planMapping[plan.toLowerCase()] \|\| "pro"` reads inherited keys, so the `"pro"` fallback is skipped and the price lookup throws | plan "constructor" (or "__proto__") | every name outside the table falls back to "pro" | medium, not executed | TxRefRoundTrip.InheritedPlanNameThrows | TxRefRoundTrip.IntendedPlanKey |
