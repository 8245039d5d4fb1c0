/**
 * The reconciliation logic of the Flutterwave webhook route as pure functions over the
 * tables it touches: workspaces and customers (keyed by id), the set of idempotency-guard
 * keys, and the log of downstream events (sale and lead records, workspace webhooks).
 * The class in module WebhookRoute performs the same steps in place and is proved to
 * agree with these functions.
 */
module Webhook {
  import opened Wrappers
  import Js
  import Flutterwave

  // ---------------------------------------------------------------- entities

  /** The eight limit fields a plan sets on a workspace. */
  datatype Limits = Limits(usage: int, links: int, domains: int, tags: int,
                           folders: int, users: int, ai: int, sales: int)

  /** The workspace (Prisma `project`) fields this route reads or writes. */
  datatype Workspace = Workspace(id: string, name: string, slug: string, plan: string,
                                 flutterwaveSubscriptionId: Option<string>,
                                 billingCycleStart: int, limits: Limits)

  /** A customer row; email and externalId may be null in the store. */
  datatype Customer = Customer(id: string, name: string, email: Option<string>,
                               externalId: Option<string>, projectId: string)

  datatype PayloadCustomer = PayloadCustomer(id: int, name: string, email: string, phoneNumber: string)

  /** The `data` object of a webhook body. Amounts are carried through unchanged. */
  datatype Payload = Payload(id: int, txRef: string, flwRef: string, amount: int, currency: string,
                             status: string, paymentType: string, customer: PayloadCustomer)

  /** The fields of a sale or lead record that the model keeps. */
  datatype Record = Record(eventId: string, eventName: string, customerId: string, amount: int,
                           currency: string, invoiceId: string, timestamp: string)

  /** One downstream effect, in the order the route issues them. */
  datatype Event =
    | Sale(record: Record)
    | Lead(record: Record)
    | WorkspaceWebhook(trigger: string, workspaceId: string, customerId: string)

  /** Everything the route can change. */
  datatype Tables = Tables(workspaces: map<string, Workspace>, customers: map<string, Customer>,
                           guard: set<string>, events: seq<Event>)

  /**
   * The values the route takes from randomness and the clock: the random part of a new
   * customer id, the two 16-character event ids, the day of the month and the timestamp.
   */
  datatype Fresh = Fresh(customerSuffix: string, saleEventId: string, leadEventId: string,
                         dayOfMonth: int, timestamp: string)

  /** `createId({ prefix: "cus_" })`. */
  function NewCustomerId(fr: Fresh): string
  {
    "cus_" + fr.customerSuffix
  }

  /** Every row sits under its own id. */
  ghost predicate KeyedById(t: Tables)
  {
    && (forall id :: id in t.workspaces ==> t.workspaces[id].id == id)
    && (forall id :: id in t.customers ==> t.customers[id].id == id)
  }

  // ---------------------------------------------------------------- plan tables

  /** `Number.MAX_SAFE_INTEGER`, the "unlimited" tag allowance. */
  const MaxSafeInteger: int := 9007199254740991

  /** `planMapping`: the limits of each paid plan, keyed by its camelCase name. */
  const PlanMapping: map<string, Limits> := map[
    "pro" := Limits(50000, 1000, 10, 25, 3, 5, 1000, 0),
    "business" := Limits(150000, 5000, 40, MaxSafeInteger, 10, 15, 1000, 500000),
    "businessPlus" := Limits(400000, 15000, 100, MaxSafeInteger, 25, 30, 1000, 1500000),
    "businessExtra" := Limits(1000000, 40000, 250, MaxSafeInteger, 50, 50, 1000, 4000000),
    "businessMax" := Limits(2500000, 100000, 500, MaxSafeInteger, 100, 100, 1000, 10000000)
  ]

  /** The limits a cancelled or disabled subscription falls back to. */
  const FreeLimits: Limits := Limits(1000, 25, 3, 5, 0, 1, 10, 0)

  // ---------------------------------------------------------------- tx_ref codec

  /** The four fields a transaction reference carries. */
  datatype TxRef = TxRef(userId: string, workspaceId: string, planName: string, interval: string)

  /** "Invalid tx_ref format" and "Missing required data in tx_ref". */
  datatype TxRefError = InvalidFormat | MissingData

  /** A field that decoding can return: non-empty and free of the delimiter. */
  predicate IsField(s: string)
  {
    s != "" && '_' !in s
  }

  predicate WellFormed(t: TxRef)
  {
    IsField(t.userId) && IsField(t.workspaceId) && IsField(t.planName) && IsField(t.interval)
  }

  /** The leading five segments that describe `t`. */
  function Encoded(t: TxRef): string
  {
    Js.Join([Flutterwave.Namespace, t.userId, t.workspaceId, t.planName, t.interval], '_')
  }

  /** `s` begins with `p`, and `p` ends at the end of `s` or at a delimiter. */
  predicate StartsWithSegments(s: string, p: string)
  {
    |p| <= |s| && s[..|p|] == p && (|s| == |p| || s[|p|] == '_')
  }

  /**
   * The split-and-check at the top of `handleChargeCompleted`. A decoded reference is
   * well formed, and the string is its five segments followed by nothing or by a further
   * delimited tail (the nonce). DecodeEncoded is the converse.
   */
  function DecodeTxRef(txRef: string): (r: Result<TxRef, TxRefError>)
    ensures r.Success? ==> WellFormed(r.value) && StartsWithSegments(txRef, Encoded(r.value))
  {
    var parts := Js.Split(txRef, '_');
    if |parts| < 5 || parts[0] != Flutterwave.Namespace then Failure(InvalidFormat)
    else if parts[1] == "" || parts[2] == "" || parts[3] == "" || parts[4] == "" then Failure(MissingData)
    else
      var t := TxRef(parts[1], parts[2], parts[3], parts[4]);
      assert parts[..5] == [Flutterwave.Namespace, t.userId, t.workspaceId, t.planName, t.interval];
      if |parts| == 5 then
        assert parts[..5] == parts;
        Success(t)
      else
        Js.JoinAppend(parts[..5], parts[5..], '_');
        assert parts[..5] + parts[5..] == parts;
        Success(t)
  }

  /** Decoding a well-formed reference followed by any delimited tail gives it back. */
  lemma DecodeEncoded(t: TxRef, tail: string)
    requires WellFormed(t)
    requires tail == "" || tail[0] == '_'
    ensures DecodeTxRef(Encoded(t) + tail) == Success(t)
  {
    var fields := [Flutterwave.Namespace, t.userId, t.workspaceId, t.planName, t.interval];
    if tail == "" {
      assert Encoded(t) + tail == Js.Join(fields, '_');
      Js.SplitJoin(fields, '_');
    } else {
      assert tail == ['_'] + tail[1..];
      assert Encoded(t) + tail == Js.Join(fields, '_') + ['_'] + tail[1..];
      Js.SplitAfterJoin(fields, '_', tail[1..]);
    }
  }

  /** The four rejections the route logs: each one leaves decoding failed. */
  lemma DecodeRejects(txRef: string)
    ensures var parts := Js.Split(txRef, '_');
      (|parts| < 5 || parts[0] != "lnking") ==> DecodeTxRef(txRef) == Failure(InvalidFormat)
    ensures var parts := Js.Split(txRef, '_');
      (|parts| >= 5 && parts[0] == "lnking" && (parts[1] == "" || parts[2] == "" || parts[3] == "" || parts[4] == ""))
        ==> DecodeTxRef(txRef) == Failure(MissingData)
  {
  }

  // ---------------------------------------------------------------- customers

  /** The `findFirst` filter: same workspace, and the email equals the email or the externalId. */
  predicate Matches(c: Customer, projectId: string, email: string)
  {
    c.projectId == projectId && (c.email == Some(email) || c.externalId == Some(email))
  }

  function MatchingIds(cs: map<string, Customer>, projectId: string, email: string): set<string>
  {
    set id | id in cs && Matches(cs[id], projectId, email)
  }

  /**
   * What `findFirst` may return: nothing exactly when no customer matches, otherwise some
   * matching customer (the query has no ordering, so which one is left open).
   */
  predicate IsFindFirst(cs: map<string, Customer>, projectId: string, email: string, found: Option<string>)
  {
    match found
    case None => MatchingIds(cs, projectId, email) == {}
    case Some(id) => id in cs && Matches(cs[id], projectId, email)
  }

  /** The strings a customer can be found by. */
  function LookupKeys(c: Customer): set<string>
  {
    (if c.email.Some? then {c.email.value} else {}) + (if c.externalId.Some? then {c.externalId.value} else {})
  }

  /** No email finds two customers of one workspace. */
  ghost predicate CustomersUnique(cs: map<string, Customer>)
  {
    forall a, b :: a in cs && b in cs && a != b && cs[a].projectId == cs[b].projectId
      ==> LookupKeys(cs[a]) !! LookupKeys(cs[b])
  }

  /**
   * The customer row the route writes: `customerData` under the chosen id. The row is
   * findable by the payer's email in the workspace; every other row is kept.
   */
  function UpsertCustomer(cs: map<string, Customer>, projectId: string, c: PayloadCustomer, id: string)
    : (r: map<string, Customer>)
    ensures r.Keys == cs.Keys + {id}
    ensures r[id].id == id && r[id].name == c.name && Matches(r[id], projectId, c.email)
    ensures LookupKeys(r[id]) == {c.email}
    ensures forall other :: other in cs && other != id ==> r[other] == cs[other]
  {
    cs[id := Customer(id, c.name, Some(c.email), Some(c.email), projectId)]
  }

  // ---------------------------------------------------------------- workspace patches

  /**
   * The `prisma.project.update` of a completed charge: the lower-cased plan, the provider
   * reference, the billing day, and the limits of `planName` only when the raw name is a
   * key of `planMapping` (spreading `undefined` sets nothing).
   */
  function ApplyPlan(w: Workspace, planName: string, flwRef: string, day: int): (r: Workspace)
    ensures r.id == w.id && r.name == w.name && r.slug == w.slug
    ensures r.plan == Js.ToLowerCase(planName)
    ensures Js.IsLowerCase(r.plan) && r.flutterwaveSubscriptionId == Some(flwRef) && r.billingCycleStart == day
    ensures planName in PlanMapping ==> r.limits == PlanMapping[planName]
    ensures planName !in PlanMapping ==> r.limits == w.limits
  {
    Js.ToLowerCaseIsLower(planName);
    w.(plan := Js.ToLowerCase(planName),
       flutterwaveSubscriptionId := Some(flwRef),
       billingCycleStart := day,
       limits := if planName in PlanMapping then PlanMapping[planName] else w.limits)
  }

  /**
   * The downgrade of a cancelled or disabled subscription: the free plan and its limits.
   * The stored provider reference stays, so the workspace is found again by it.
   */
  function Downgrade(w: Workspace): (r: Workspace)
    ensures r.plan == "free" && r.limits == FreeLimits
    ensures r.id == w.id && r.name == w.name && r.slug == w.slug
    ensures r.flutterwaveSubscriptionId == w.flutterwaveSubscriptionId && r.billingCycleStart == w.billingCycleStart
  {
    w.(plan := "free", limits := FreeLimits)
  }

  // ---------------------------------------------------------------- charge.completed

  const GuardPrefix: string := "lnking_sale_events:invoiceId:"

  /** The idempotency key of an invoice: the prefix, then the provider reference. */
  function GuardKey(flwRef: string): (k: string)
    ensures |k| == |GuardPrefix| + |flwRef|
    ensures k[..|GuardPrefix|] == GuardPrefix && k[|GuardPrefix|..] == flwRef
  {
    GuardPrefix + flwRef
  }

  /** The sale's event name: yearly exactly for the interval "yearly", monthly for anything else. */
  function SaleEventName(interval: string): (n: string)
    ensures n == "Yearly Subscription" <==> interval == "yearly"
    ensures n == "Monthly Subscription" <==> interval != "yearly"
  {
    if interval == "yearly" then "Yearly Subscription" else "Monthly Subscription"
  }

  /** Why a completed charge was logged and acknowledged without effect. */
  datatype IgnoreReason = InvalidTxRef | MissingTxRefData | WorkspaceNotFound

  datatype ChargeOutcome =
    | Ignored(reason: IgnoreReason)
    | AlreadyProcessed(customerId: string, newCustomer: bool)
    | Recorded(customerId: string, newCustomer: bool)

  datatype ChargeStep = ChargeStep(after: Tables, outcome: ChargeOutcome)

  /**
   * The customer lookup is a legal `findFirst` answer for the workspace the reference
   * names, and nothing when the route stops before the lookup.
   */
  predicate ChargeLookupValid(t: Tables, data: Payload, found: Option<string>)
  {
    match DecodeTxRef(data.txRef)
    case Failure(_) => found.None?
    case Success(ref) =>
      if ref.workspaceId in t.workspaces then IsFindFirst(t.customers, ref.workspaceId, data.customer.email, found)
      else found.None?
  }

  /** The sale record, the lead record for a new customer, then the two webhooks. */
  function Emissions(workspaceId: string, customerId: string, newCustomer: bool, interval: string,
                     data: Payload, fr: Fresh): (es: seq<Event>)
    ensures |es| == (if newCustomer then 4 else 2)
    ensures es[0].Sale? && es[0].record.customerId == customerId && es[0].record.invoiceId == data.flwRef
    ensures es[0].record.eventName == SaleEventName(interval) && es[0].record.amount == data.amount
    ensures newCustomer ==> es[1].Lead? && es[1].record.eventName == "Sign up" && es[1].record.customerId == customerId
    ensures es[if newCustomer then 2 else 1] == WorkspaceWebhook("sale.created", workspaceId, customerId)
    ensures newCustomer ==> es[3] == WorkspaceWebhook("lead.created", workspaceId, customerId)
  {
    var sale := Record(fr.saleEventId, SaleEventName(interval), customerId, data.amount, data.currency,
                       data.flwRef, fr.timestamp);
    var lead := sale.(eventId := fr.leadEventId, eventName := "Sign up");
    [Sale(sale)]
    + (if newCustomer then [Lead(lead)] else [])
    + [WorkspaceWebhook("sale.created", workspaceId, customerId)]
    + (if newCustomer then [WorkspaceWebhook("lead.created", workspaceId, customerId)] else [])
  }

  /** `handleChargeCompleted`, given the answer of the customer lookup. */
  function ChargeCompleted(t: Tables, data: Payload, fr: Fresh, found: Option<string>): (s: ChargeStep)
    requires ChargeLookupValid(t, data, found)
    ensures s.outcome.Ignored? ==> s.after == t
    ensures s.after.workspaces.Keys == t.workspaces.Keys
    ensures t.guard <= s.after.guard
    ensures |t.events| <= |s.after.events| && s.after.events[..|t.events|] == t.events
  {
    match DecodeTxRef(data.txRef)
    case Failure(e) => ChargeStep(t, Ignored(if e == InvalidFormat then InvalidTxRef else MissingTxRefData))
    case Success(ref) =>
      var wid := ref.workspaceId;
      if wid !in t.workspaces then ChargeStep(t, Ignored(WorkspaceNotFound))
      else ReconcileCharge(t, ref, data, fr, found)
  }

  /** The writes of a charge whose reference names an existing workspace. */
  function ReconcileCharge(t: Tables, ref: TxRef, data: Payload, fr: Fresh, found: Option<string>): (s: ChargeStep)
    requires ref.workspaceId in t.workspaces
    ensures !s.outcome.Ignored? && s.outcome.newCustomer == found.None?
    ensures s.after.workspaces.Keys == t.workspaces.Keys
    ensures s.after.guard == t.guard + {GuardKey(data.flwRef)}
    ensures s.outcome.Recorded? <==> GuardKey(data.flwRef) !in t.guard
    ensures |t.events| <= |s.after.events| && s.after.events[..|t.events|] == t.events
    ensures s.outcome.AlreadyProcessed? ==> s.after.events == t.events
  {
    var wid := ref.workspaceId;
    var newCustomer := found.None?;
    var cid := if newCustomer then NewCustomerId(fr) else found.value;
    var customers := UpsertCustomer(t.customers, wid, data.customer, cid);
    var workspaces := t.workspaces[wid := ApplyPlan(t.workspaces[wid], ref.planName, data.flwRef, fr.dayOfMonth)];
    var key := GuardKey(data.flwRef);
    if key in t.guard then
      ChargeStep(Tables(workspaces, customers, t.guard, t.events), AlreadyProcessed(cid, newCustomer))
    else
      ChargeStep(Tables(workspaces, customers, t.guard + {key},
                        t.events + Emissions(wid, cid, newCustomer, ref.interval, data, fr)),
                 Recorded(cid, newCustomer))
  }

  // ---------------------------------------------------------------- subscription.cancelled / .disabled

  /** What `findFirst({ where: { flutterwaveSubscriptionId } })` may return. */
  predicate IsFindBySubscription(ws: map<string, Workspace>, flwRef: string, found: Option<string>)
  {
    match found
    case None => forall id :: id in ws ==> ws[id].flutterwaveSubscriptionId != Some(flwRef)
    case Some(id) => id in ws && ws[id].flutterwaveSubscriptionId == Some(flwRef)
  }

  /** `handleSubscriptionCancelled`, given the answer of the workspace lookup. */
  function SubscriptionCancelled(t: Tables, flwRef: string, found: Option<string>): (r: Tables)
    requires IsFindBySubscription(t.workspaces, flwRef, found)
    ensures r.customers == t.customers && r.guard == t.guard && r.events == t.events
    ensures r.workspaces.Keys == t.workspaces.Keys
    ensures found.Some? ==> r.workspaces[found.value].plan == "free" && r.workspaces[found.value].limits == FreeLimits
    ensures found.None? ==> r == t
  {
    match found
    case None => t
    case Some(id) => t.(workspaces := t.workspaces[id := Downgrade(t.workspaces[id])])
  }

  // ---------------------------------------------------------------- POST

  datatype Response = Response(status: int, body: string)

  const Unauthorized: Response := Response(401, "Invalid webhook signature")
  const Acknowledged: Response := Response(200, "{\"success\":true}")

  /** The lookup answer is legal for whichever handler the event name selects. */
  predicate LookupValid(t: Tables, event: string, data: Payload, found: Option<string>)
  {
    if event == "charge.completed" then ChargeLookupValid(t, data, found)
    else if event == "subscription.cancelled" || event == "subscription.disabled" then
      IsFindBySubscription(t.workspaces, data.flwRef, found)
    else found.None?
  }

  /** An unauthenticated request performs no lookup. */
  predicate PostLookupValid(t: Tables, configuredHash: string, signature: Option<string>, event: string,
                            data: Payload, found: Option<string>)
  {
    if Flutterwave.Authenticates(configuredHash, signature) then LookupValid(t, event, data, found)
    else found.None?
  }

  /** `POST`: the signature check, then the dispatch on the event name. */
  function Post(t: Tables, configuredHash: string, signature: Option<string>, event: string,
                data: Payload, fr: Fresh, found: Option<string>): (r: (Tables, Response))
    requires PostLookupValid(t, configuredHash, signature, event, data, found)
    ensures r.1 == Unauthorized || r.1 == Acknowledged
    ensures r.1 == Unauthorized <==> !Flutterwave.Authenticates(configuredHash, signature)
    ensures r.1 == Unauthorized ==> r.0 == t
  {
    if !Flutterwave.Authenticates(configuredHash, signature) then (t, Unauthorized)
    else if event == "charge.completed" then (ChargeCompleted(t, data, fr, found).after, Acknowledged)
    else if event == "subscription.cancelled" || event == "subscription.disabled" then
      (SubscriptionCancelled(t, data.flwRef, found), Acknowledged)
    else (t, Acknowledged)
  }
}
