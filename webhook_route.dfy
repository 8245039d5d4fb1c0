/**
 * The webhook route as an object whose fields are the tables it changes in place: the
 * workspace and customer tables of the store, the set of guard keys of the key-value
 * store, and the log of downstream calls. Each handler performs the source's steps in
 * order and is proved to end in the state the pure functions of module Webhook describe.
 */
module WebhookRoute {
  import opened Wrappers
  import Flutterwave
  import opened Webhook

  class Engine {
    /** `FLUTTERWAVE_WEBHOOK_HASH`, or "" when unset. */
    const webhookHash: string
    var workspaces: map<string, Workspace>
    var customers: map<string, Customer>
    var guard: set<string>
    var events: seq<Event>

    function Snapshot(): Tables
      reads this
    {
      Tables(workspaces, customers, guard, events)
    }

    ghost predicate Valid()
      reads this
    {
      KeyedById(Snapshot())
    }

    constructor (hash: string, ws: map<string, Workspace>, cs: map<string, Customer>)
      requires KeyedById(Tables(ws, cs, {}, []))
      ensures Valid()
      ensures webhookHash == hash && Snapshot() == Tables(ws, cs, {}, [])
    {
      webhookHash := hash;
      workspaces, customers, guard, events := ws, cs, {}, [];
    }

    /** `prisma.customer.findFirst` on the workspace and the email-or-externalId filter. */
    method FindCustomer(projectId: string, email: string) returns (found: Option<string>)
      ensures IsFindFirst(customers, projectId, email, found)
    {
      if exists id :: id in customers && Matches(customers[id], projectId, email) {
        var id :| id in customers && Matches(customers[id], projectId, email);
        found := Some(id);
      } else {
        found := None;
        assert MatchingIds(customers, projectId, email) == {};
      }
    }

    /** `prisma.project.findFirst` on the stored provider reference. */
    method FindWorkspaceBySubscription(flwRef: string) returns (found: Option<string>)
      ensures IsFindBySubscription(workspaces, flwRef, found)
    {
      if exists id :: id in workspaces && workspaces[id].flutterwaveSubscriptionId == Some(flwRef) {
        var id :| id in workspaces && workspaces[id].flutterwaveSubscriptionId == Some(flwRef);
        found := Some(id);
      } else {
        found := None;
      }
    }

    /** `redis.set(key, 1, { nx: true })`: true when the key was absent; the key is present afterwards. */
    method SetIfAbsent(key: string) returns (ok: bool)
      modifies this`guard
      ensures ok == (key !in old(guard))
      ensures guard == old(guard) + {key}
    {
      ok := key !in guard;
      if ok {
        guard := guard + {key};
      }
    }

    /** One call to the analytics sink or the workspace-webhook dispatcher. */
    method Emit(e: Event)
      modifies this`events
      ensures events == old(events) + [e]
    {
      events := events + [e];
    }

    /** `prisma.customer.update` of the found customer, or `create` under the fresh id. */
    method WriteCustomer(id: string, c: PayloadCustomer, projectId: string)
      modifies this`customers
      ensures customers == UpsertCustomer(old(customers), projectId, c, id)
    {
      customers := customers[id := Customer(id, c.name, Some(c.email), Some(c.email), projectId)];
    }

    /** `recordSale`, `recordLead` for a new customer, then the `sale.created` and `lead.created` webhooks. */
    method EmitCharge(workspaceId: string, customerId: string, newCustomer: bool, interval: string,
                      data: Payload, fr: Fresh)
      modifies this`events
      ensures events == old(events) + Emissions(workspaceId, customerId, newCustomer, interval, data, fr)
    {
      var sale := Record(fr.saleEventId, SaleEventName(interval), customerId, data.amount, data.currency,
                         data.flwRef, fr.timestamp);
      Emit(Sale(sale));
      if newCustomer {
        Emit(Lead(sale.(eventId := fr.leadEventId, eventName := "Sign up")));
      }
      Emit(WorkspaceWebhook("sale.created", workspaceId, customerId));
      if newCustomer {
        Emit(WorkspaceWebhook("lead.created", workspaceId, customerId));
      }
    }

    /** `handleChargeCompleted`; `existing` is what the customer lookup answered. */
    method HandleChargeCompleted(data: Payload, fr: Fresh) returns (outcome: ChargeOutcome, existing: Option<string>)
      requires Valid()
      requires NewCustomerId(fr) !in customers
      modifies this
      ensures Valid()
      ensures ChargeLookupValid(old(Snapshot()), data, existing)
      ensures ChargeCompleted(old(Snapshot()), data, fr, existing) == ChargeStep(Snapshot(), outcome)
    {
      var parsed := DecodeTxRef(data.txRef);
      if parsed.Failure? {
        existing := None;
        outcome := Ignored(if parsed.error == InvalidFormat then InvalidTxRef else MissingTxRefData);
        return;
      }
      var ref := parsed.value;
      if ref.workspaceId !in workspaces {
        existing := None;
        outcome := Ignored(WorkspaceNotFound);
        return;
      }
      outcome, existing := Reconcile(ref, data, fr);
    }

    /**
     * The writes of `handleChargeCompleted` once the workspace is found: the customer upsert,
     * the plan update, the guard and the emissions.
     */
    method Reconcile(ref: TxRef, data: Payload, fr: Fresh) returns (outcome: ChargeOutcome, existing: Option<string>)
      requires Valid()
      requires ref.workspaceId in workspaces
      requires NewCustomerId(fr) !in customers
      modifies this
      ensures Valid()
      ensures IsFindFirst(old(customers), ref.workspaceId, data.customer.email, existing)
      ensures ReconcileCharge(old(Snapshot()), ref, data, fr, existing) == ChargeStep(Snapshot(), outcome)
    {
      var customerId;
      existing, customerId := WriteCustomerAndPlan(ref, data, fr);
      outcome := Settle(ref.workspaceId, customerId, existing.None?, ref.interval, data, fr);
    }

    /** The customer `findFirst` and upsert, then the `prisma.project.update` of the plan. */
    method WriteCustomerAndPlan(ref: TxRef, data: Payload, fr: Fresh) returns (existing: Option<string>, customerId: string)
      requires Valid()
      requires ref.workspaceId in workspaces
      requires NewCustomerId(fr) !in customers
      modifies this`customers, this`workspaces
      ensures Valid()
      ensures IsFindFirst(old(customers), ref.workspaceId, data.customer.email, existing)
      ensures customerId == if existing.Some? then existing.value else NewCustomerId(fr)
      ensures customers == UpsertCustomer(old(customers), ref.workspaceId, data.customer, customerId)
      ensures workspaces == old(workspaces)[ref.workspaceId :=
                ApplyPlan(old(workspaces)[ref.workspaceId], ref.planName, data.flwRef, fr.dayOfMonth)]
    {
      var workspace := workspaces[ref.workspaceId];
      assert workspace.id == ref.workspaceId;
      existing := FindCustomer(workspace.id, data.customer.email);
      customerId := if existing.Some? then existing.value else NewCustomerId(fr);
      WriteCustomer(customerId, data.customer, workspace.id);
      workspaces := workspaces[workspace.id := ApplyPlan(workspace, ref.planName, data.flwRef, fr.dayOfMonth)];
    }

    /**
     * The guarded tail of `handleChargeCompleted`: `SET NX` on the invoice key, then the
     * emissions only when the key was new.
     */
    method Settle(workspaceId: string, customerId: string, newCustomer: bool, interval: string,
                  data: Payload, fr: Fresh) returns (outcome: ChargeOutcome)
      modifies this`guard, this`events
      ensures guard == old(guard) + {GuardKey(data.flwRef)}
      ensures GuardKey(data.flwRef) in old(guard) ==>
                outcome == AlreadyProcessed(customerId, newCustomer) && events == old(events)
      ensures GuardKey(data.flwRef) !in old(guard) ==>
                && outcome == Recorded(customerId, newCustomer)
                && events == old(events) + Emissions(workspaceId, customerId, newCustomer, interval, data, fr)
    {
      var ok := SetIfAbsent(GuardKey(data.flwRef));
      if !ok {
        outcome := AlreadyProcessed(customerId, newCustomer);
        return;
      }
      EmitCharge(workspaceId, customerId, newCustomer, interval, data, fr);
      outcome := Recorded(customerId, newCustomer);
    }

    /** `handleSubscriptionCreated`: logs the payload and changes nothing. */
    method HandleSubscriptionCreated(data: Payload)
      ensures unchanged(this)
    {
    }

    /** `handleSubscriptionCancelled`; `found` is what the workspace lookup answered. */
    method HandleSubscriptionCancelled(data: Payload) returns (found: Option<string>)
      requires Valid()
      modifies this
      ensures Valid()
      ensures IsFindBySubscription(old(workspaces), data.flwRef, found)
      ensures Snapshot() == SubscriptionCancelled(old(Snapshot()), data.flwRef, found)
    {
      found := FindWorkspaceBySubscription(data.flwRef);
      if found.None? {
        return;
      }
      var workspace := workspaces[found.value];
      workspaces := workspaces[workspace.id := workspace.(plan := "free", limits := FreeLimits)];
    }

    /** `handleSubscriptionDisabled`: the cancellation handler. */
    method HandleSubscriptionDisabled(data: Payload) returns (found: Option<string>)
      requires Valid()
      modifies this
      ensures Valid()
      ensures IsFindBySubscription(old(workspaces), data.flwRef, found)
      ensures Snapshot() == SubscriptionCancelled(old(Snapshot()), data.flwRef, found)
    {
      found := HandleSubscriptionCancelled(data);
    }

    /** `POST`: check `verif-hash`, then dispatch on the event name and acknowledge. */
    method Post(signature: Option<string>, event: string, data: Payload, fr: Fresh)
      returns (res: Response, ghost found: Option<string>)
      requires Valid()
      requires NewCustomerId(fr) !in customers
      modifies this
      ensures Valid()
      ensures PostLookupValid(old(Snapshot()), webhookHash, signature, event, data, found)
      ensures Webhook.Post(old(Snapshot()), webhookHash, signature, event, data, fr, found) == (Snapshot(), res)
    {
      found := None;
      if signature.None? || signature.value == "" || !Flutterwave.ValidateWebhookSignature(webhookHash, signature.value) {
        return Unauthorized, found;
      }
      match event {
        case "charge.completed" =>
          var _, existing := HandleChargeCompleted(data, fr);
          found := existing;
        case "subscription.created" =>
          HandleSubscriptionCreated(data);
        case "subscription.cancelled" =>
          var w := HandleSubscriptionCancelled(data);
          found := w;
        case "subscription.disabled" =>
          var w := HandleSubscriptionDisabled(data);
          found := w;
        case _ =>
      }
      res := Acknowledged;
    }
  }
}
