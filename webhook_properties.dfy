/**
 * What the webhook route promises, stated over the pure functions of module Webhook:
 * rejections change nothing, one customer per (workspace, email), the shape of the plan
 * patch, at-most-once emission behind the guard key, and the idempotent downgrade.
 */
module WebhookProperties {
  import opened Wrappers
  import Js
  import Flutterwave
  import opened Webhook

  // ---------------------------------------------------------------- counting the log

  function CountSales(es: seq<Event>): (n: nat)
    ensures n <= |es|
  {
    if es == [] then 0 else (if es[0].Sale? then 1 else 0) + CountSales(es[1..])
  }

  function CountLeads(es: seq<Event>): (n: nat)
    ensures n <= |es|
  {
    if es == [] then 0 else (if es[0].Lead? then 1 else 0) + CountLeads(es[1..])
  }

  lemma {:induction false} CountAppend(a: seq<Event>, b: seq<Event>)
    ensures CountSales(a + b) == CountSales(a) + CountSales(b)
    ensures CountLeads(a + b) == CountLeads(a) + CountLeads(b)
    decreases |a|
  {
    if a == [] {
      assert a + b == b;
    } else {
      assert (a + b)[1..] == a[1..] + b;
      CountAppend(a[1..], b);
    }
  }

  // ---------------------------------------------------------------- tables

  /** The three plan tables share one key set: the paid plans. */
  lemma PlanKeySetsAgree()
    ensures PlanMapping.Keys == Flutterwave.DisplayPlans.Keys == Flutterwave.PaidPlans
  {
  }

  /** Every limit of `a` is at most the same limit of `b`. */
  predicate AtMost(a: Limits, b: Limits)
  {
    && a.usage <= b.usage && a.links <= b.links && a.domains <= b.domains && a.tags <= b.tags
    && a.folders <= b.folders && a.users <= b.users && a.ai <= b.ai && a.sales <= b.sales
  }

  /** The paid tiers are ordered: each plan allows at least what the one below it allows. */
  lemma PlanTiersOrdered()
    ensures AtMost(PlanMapping["pro"], PlanMapping["business"])
    ensures AtMost(PlanMapping["business"], PlanMapping["businessPlus"])
    ensures AtMost(PlanMapping["businessPlus"], PlanMapping["businessExtra"])
    ensures AtMost(PlanMapping["businessExtra"], PlanMapping["businessMax"])
  {
  }

  /**
   * A downgrade never raises a limit: the free limits are below those of every paid plan,
   * so a workspace holding a paid plan's limits loses allowance and gains none.
   */
  lemma DowngradeNeverRaisesLimits(w: Workspace, planName: string)
    requires planName in PlanMapping && w.limits == PlanMapping[planName]
    ensures AtMost(FreeLimits, PlanMapping[planName])
    ensures AtMost(Downgrade(w).limits, w.limits)
  {
  }

  /** Distinct provider references use distinct guard keys, so one invoice never blocks another. */
  lemma {:induction false} GuardKeyInjective(a: string, b: string)
    ensures GuardKey(a) == GuardKey(b) <==> a == b
  {
    if GuardKey(a) == GuardKey(b) {
      assert a == GuardKey(a)[|GuardPrefix|..] == GuardKey(b)[|GuardPrefix|..] == b;
    }
  }

  // ---------------------------------------------------------------- customers

  /**
   * The upsert leaves exactly the chosen customer findable by that email in that workspace,
   * keeps every other row, and keeps emails unique per workspace.
   */
  lemma UpsertKeepsOneCustomer(cs: map<string, Customer>, projectId: string, c: PayloadCustomer,
                               found: Option<string>, newId: string)
    requires IsFindFirst(cs, projectId, c.email, found)
    requires newId !in cs
    requires CustomersUnique(cs)
    ensures var id := if found.Some? then found.value else newId;
      var after := UpsertCustomer(cs, projectId, c, id);
      CustomersUnique(after) && MatchingIds(after, projectId, c.email) == {id}
  {
    var id := if found.Some? then found.value else newId;
    var after := UpsertCustomer(cs, projectId, c, id);
    var row := Customer(id, c.name, Some(c.email), Some(c.email), projectId);
    assert LookupKeys(row) == {c.email};
    // Nobody else in the workspace can be found by this email.
    forall other | other in cs && other != id && cs[other].projectId == projectId
      ensures c.email !in LookupKeys(cs[other])
    {
      assert c.email in LookupKeys(cs[other]) ==> other in MatchingIds(cs, projectId, c.email);
      assert other in MatchingIds(cs, projectId, c.email) ==> found.Some? && c.email in LookupKeys(cs[id]);
    }
    forall a, b | a in after && b in after && a != b && after[a].projectId == after[b].projectId
      ensures LookupKeys(after[a]) !! LookupKeys(after[b])
    {
      if a == id {
        assert after[b] == cs[b];
      } else if b == id {
        assert after[a] == cs[a];
      } else {
        assert after[a] == cs[a] && after[b] == cs[b];
      }
    }
    forall other | other in after && other != id ensures !Matches(after[other], projectId, c.email) {
      assert after[other] == cs[other];
    }
    assert id in MatchingIds(after, projectId, c.email);
  }

  // ---------------------------------------------------------------- charge.completed

  /** A charge is ignored, and changes nothing, exactly when decoding fails or the workspace is missing. */
  lemma ChargeIgnoredLeavesTables(t: Tables, data: Payload, fr: Fresh, found: Option<string>)
    requires ChargeLookupValid(t, data, found)
    ensures var s := ChargeCompleted(t, data, fr, found);
      var rejected := DecodeTxRef(data.txRef).Failure? || DecodeTxRef(data.txRef).value.workspaceId !in t.workspaces;
      s.outcome.Ignored? <==> rejected
    ensures ChargeCompleted(t, data, fr, found).outcome.Ignored? ==> ChargeCompleted(t, data, fr, found).after == t
  {
  }

  /** A charge that gets past the lookups: the reference decodes and names an existing workspace. */
  predicate Reconciles(t: Tables, data: Payload)
  {
    DecodeTxRef(data.txRef).Success? && DecodeTxRef(data.txRef).value.workspaceId in t.workspaces
  }

  /** A reconciled charge upserts the chosen customer and patches the named workspace. */
  lemma ChargeReconciledStep(t: Tables, data: Payload, fr: Fresh, found: Option<string>)
    requires ChargeLookupValid(t, data, found)
    requires Reconciles(t, data)
    ensures var ref := DecodeTxRef(data.txRef).value;
      var cid := if found.Some? then found.value else NewCustomerId(fr);
      var s := ChargeCompleted(t, data, fr, found);
      && s.after.customers == UpsertCustomer(t.customers, ref.workspaceId, data.customer, cid)
      && s.after.workspaces == t.workspaces[ref.workspaceId := ApplyPlan(t.workspaces[ref.workspaceId], ref.planName, data.flwRef, fr.dayOfMonth)]
      && !s.outcome.Ignored? && s.outcome.customerId == cid && s.outcome.newCustomer == found.None?
      && (s.outcome.Recorded? ==>
            s.after.events == t.events + Emissions(ref.workspaceId, cid, found.None?, ref.interval, data, fr))
  {
  }

  /**
   * After a reconciled charge the customer it names is the one findable by the payer's email:
   * an existing customer keeps its id, a new one gets the fresh `cus_` id, all other rows stay.
   */
  lemma ChargeCustomer(t: Tables, data: Payload, fr: Fresh, found: Option<string>)
    requires ChargeLookupValid(t, data, found)
    requires Reconciles(t, data)
    requires NewCustomerId(fr) !in t.customers
    ensures var s := ChargeCompleted(t, data, fr, found);
      var wid := DecodeTxRef(data.txRef).value.workspaceId;
      var cid := s.outcome.customerId;
      && !s.outcome.Ignored?
      && s.outcome.newCustomer == found.None?
      && cid in s.after.customers
      && s.after.customers[cid] == Customer(cid, data.customer.name, Some(data.customer.email), Some(data.customer.email), wid)
      && (found.Some? ==> cid == found.value && s.after.customers.Keys == t.customers.Keys)
      && (found.None? ==> cid == NewCustomerId(fr) && s.after.customers.Keys == t.customers.Keys + {cid})
      && (forall id :: id in t.customers && id != cid ==> s.after.customers[id] == t.customers[id])
      && (CustomersUnique(t.customers) ==>
            CustomersUnique(s.after.customers) && MatchingIds(s.after.customers, wid, data.customer.email) == {cid})
  {
    var wid := DecodeTxRef(data.txRef).value.workspaceId;
    var cid := if found.Some? then found.value else NewCustomerId(fr);
    ChargeReconciledStep(t, data, fr, found);
    if CustomersUnique(t.customers) {
      UpsertKeepsOneCustomer(t.customers, wid, data.customer, found, NewCustomerId(fr));
    }
  }

  /**
   * The workspace patch of a reconciled charge: the lower-cased plan, the provider
   * reference and the billing day are written; the limits become the plan's entry only
   * when the raw plan name is a key of the table; nothing else in any workspace changes.
   */
  lemma ChargeWorkspacePatch(t: Tables, data: Payload, fr: Fresh, found: Option<string>)
    requires ChargeLookupValid(t, data, found)
    requires Reconciles(t, data)
    ensures var ref := DecodeTxRef(data.txRef).value;
      var before := t.workspaces[ref.workspaceId];
      var ws := ChargeCompleted(t, data, fr, found).after.workspaces;
      && ws.Keys == t.workspaces.Keys
      && (forall id :: id in t.workspaces && id != ref.workspaceId ==> ws[id] == t.workspaces[id])
      && ws[ref.workspaceId].plan == Js.ToLowerCase(ref.planName)
      && Js.IsLowerCase(ws[ref.workspaceId].plan)
      && ws[ref.workspaceId].flutterwaveSubscriptionId == Some(data.flwRef)
      && ws[ref.workspaceId].billingCycleStart == fr.dayOfMonth
      && (ref.planName in PlanMapping ==> ws[ref.workspaceId].limits == PlanMapping[ref.planName])
      && (ref.planName !in PlanMapping ==> ws[ref.workspaceId].limits == before.limits)
      && ws[ref.workspaceId].id == before.id
      && ws[ref.workspaceId].name == before.name
      && ws[ref.workspaceId].slug == before.slug
  {
    Js.ToLowerCaseIsLower(DecodeTxRef(data.txRef).value.planName);
  }

  /** Switching to a known plan forgets the previous one; to an unknown name, it keeps the old limits. */
  lemma PlanSwitch(w: Workspace, p1: string, r1: string, d1: int, p2: string, r2: string, d2: int)
    ensures p2 in PlanMapping ==> ApplyPlan(ApplyPlan(w, p1, r1, d1), p2, r2, d2) == ApplyPlan(w, p2, r2, d2)
    ensures p2 !in PlanMapping ==> ApplyPlan(ApplyPlan(w, p1, r1, d1), p2, r2, d2).limits == ApplyPlan(w, p1, r1, d1).limits
  {
  }

  /** Writing the same plan, reference and day twice is writing them once. */
  lemma ApplyPlanIdempotent(w: Workspace, planName: string, flwRef: string, day: int)
    ensures ApplyPlan(ApplyPlan(w, planName, flwRef, day), planName, flwRef, day) == ApplyPlan(w, planName, flwRef, day)
  {
  }

  /**
   * The guard: a reconciled charge leaves its key in the set, and records anything
   * exactly when the key was absent before.
   */
  lemma ChargeGuard(t: Tables, data: Payload, fr: Fresh, found: Option<string>)
    requires ChargeLookupValid(t, data, found)
    requires Reconciles(t, data)
    ensures var s := ChargeCompleted(t, data, fr, found);
      && s.after.guard == t.guard + {GuardKey(data.flwRef)}
      && (s.outcome.Recorded? <==> GuardKey(data.flwRef) !in t.guard)
      && (s.outcome.AlreadyProcessed? <==> GuardKey(data.flwRef) in t.guard)
      && (s.after.events == t.events <==> GuardKey(data.flwRef) in t.guard)
  {
    var s := ChargeCompleted(t, data, fr, found);
    if GuardKey(data.flwRef) !in t.guard {
      assert |s.after.events| > |t.events|;
    }
  }

  /**
   * What a recorded charge emits: one sale, named for the interval, and one lead exactly
   * when the customer is new, after the events already in the log.
   */
  lemma ChargeEmissions(t: Tables, data: Payload, fr: Fresh, found: Option<string>)
    requires ChargeLookupValid(t, data, found)
    requires ChargeCompleted(t, data, fr, found).outcome.Recorded?
    ensures var s := ChargeCompleted(t, data, fr, found);
      var ref := DecodeTxRef(data.txRef).value;
      var added := s.after.events[|t.events|..];
      && |s.after.events| > |t.events|
      && s.after.events[..|t.events|] == t.events
      && CountSales(added) == 1
      && added[0] == Sale(Record(fr.saleEventId, SaleEventName(ref.interval), s.outcome.customerId,
                                 data.amount, data.currency, data.flwRef, fr.timestamp))
      && CountLeads(added) == (if found.None? then 1 else 0)
      && (found.None? <==> s.outcome.newCustomer)
  {
    var s := ChargeCompleted(t, data, fr, found);
    var ref := DecodeTxRef(data.txRef).value;
    assert Reconciles(t, data);
    ChargeReconciledStep(t, data, fr, found);
    var added := Emissions(ref.workspaceId, s.outcome.customerId, found.None?, ref.interval, data, fr);
    assert s.after.events[|t.events|..] == added;
    EmissionCounts(ref.workspaceId, s.outcome.customerId, found.None?, ref.interval, data, fr);
  }

  /** The emissions of one charge hold one sale, and one lead exactly for a new customer. */
  lemma EmissionCounts(workspaceId: string, customerId: string, newCustomer: bool, interval: string,
                       data: Payload, fr: Fresh)
    ensures var added := Emissions(workspaceId, customerId, newCustomer, interval, data, fr);
      CountSales(added) == 1 && CountLeads(added) == (if newCustomer then 1 else 0)
  {
    var added := Emissions(workspaceId, customerId, newCustomer, interval, data, fr);
    var sale := Record(fr.saleEventId, SaleEventName(interval), customerId,
                       data.amount, data.currency, data.flwRef, fr.timestamp);
    var lead := sale.(eventId := fr.leadEventId, eventName := "Sign up");
    var leads: seq<Event> := if newCustomer then [Lead(lead)] else [];
    var later: seq<Event> := if newCustomer then [WorkspaceWebhook("lead.created", workspaceId, customerId)] else [];
    var hooks: seq<Event> := [WorkspaceWebhook("sale.created", workspaceId, customerId)] + later;
    assert added == [Sale(sale)] + leads + hooks;
    CountAppend([Sale(sale)] + leads, hooks);
    CountAppend([Sale(sale)], leads);
    CountAppend([WorkspaceWebhook("sale.created", workspaceId, customerId)], later);
  }

  /** A redelivery of a reconciled charge (same payload) records nothing and keeps the guard. */
  lemma Redelivery(t: Tables, data: Payload, fr1: Fresh, found1: Option<string>, fr2: Fresh, found2: Option<string>)
    requires ChargeLookupValid(t, data, found1)
    requires Reconciles(t, data)
    requires ChargeLookupValid(ChargeCompleted(t, data, fr1, found1).after, data, found2)
    ensures var s1 := ChargeCompleted(t, data, fr1, found1);
      var s2 := ChargeCompleted(s1.after, data, fr2, found2);
      && s2.outcome.AlreadyProcessed?
      && s2.after.events == s1.after.events
      && s2.after.guard == s1.after.guard
  {
    var s1 := ChargeCompleted(t, data, fr1, found1);
    ChargeGuard(t, data, fr1, found1);
    assert Reconciles(s1.after, data);
    ChargeGuard(s1.after, data, fr2, found2);
  }

  /**
   * If customers were unique, the lookup of a redelivery can only find the customer the
   * first delivery wrote; with the same billing day the tables then end up exactly as
   * after the first delivery.
   */
  lemma RedeliveryConverges(t: Tables, data: Payload, fr1: Fresh, found1: Option<string>, fr2: Fresh, found2: Option<string>)
    requires ChargeLookupValid(t, data, found1)
    requires Reconciles(t, data)
    requires ChargeLookupValid(ChargeCompleted(t, data, fr1, found1).after, data, found2)
    requires CustomersUnique(t.customers) && NewCustomerId(fr1) !in t.customers
    requires fr2.dayOfMonth == fr1.dayOfMonth
    ensures var s1 := ChargeCompleted(t, data, fr1, found1);
      var s2 := ChargeCompleted(s1.after, data, fr2, found2);
      s2.after == s1.after && s2.outcome.customerId == s1.outcome.customerId
  {
    var s1 := ChargeCompleted(t, data, fr1, found1);
    var wid := DecodeTxRef(data.txRef).value.workspaceId;
    Redelivery(t, data, fr1, found1, fr2, found2);
    RedeliveryFindsCustomer(t, data, fr1, found1, found2);
    var ref := DecodeTxRef(data.txRef).value;
    var s2 := ChargeCompleted(s1.after, data, fr2, found2);
    ChargeReconciledStep(t, data, fr1, found1);
    ChargeReconciledStep(s1.after, data, fr2, found2);
    var w1 := ApplyPlan(t.workspaces[wid], ref.planName, data.flwRef, fr1.dayOfMonth);
    assert s1.after.workspaces[wid] == w1;
    ApplyPlanIdempotent(t.workspaces[wid], ref.planName, data.flwRef, fr1.dayOfMonth);
    assert s2.after.workspaces == s1.after.workspaces;
    assert s2.after.customers == s1.after.customers;
  }

  /** With unique emails, the lookup of a redelivery finds the customer the first delivery wrote. */
  lemma RedeliveryFindsCustomer(t: Tables, data: Payload, fr1: Fresh, found1: Option<string>, found2: Option<string>)
    requires ChargeLookupValid(t, data, found1)
    requires Reconciles(t, data)
    requires ChargeLookupValid(ChargeCompleted(t, data, fr1, found1).after, data, found2)
    requires CustomersUnique(t.customers) && NewCustomerId(fr1) !in t.customers
    ensures found2 == Some(ChargeCompleted(t, data, fr1, found1).outcome.customerId)
  {
    var s1 := ChargeCompleted(t, data, fr1, found1);
    var wid := DecodeTxRef(data.txRef).value.workspaceId;
    ChargeCustomer(t, data, fr1, found1);
    var cid := s1.outcome.customerId;
    assert MatchingIds(s1.after.customers, wid, data.customer.email) == {cid};
    assert IsFindFirst(s1.after.customers, wid, data.customer.email, found2);
    assert found2.Some? ==> found2.value in MatchingIds(s1.after.customers, wid, data.customer.email);
  }

  // ---------------------------------------------------------------- subscription.cancelled / .disabled

  /** At most one workspace stores this provider reference. */
  ghost predicate SubscriptionUnique(ws: map<string, Workspace>, flwRef: string)
  {
    forall a, b :: (a in ws && b in ws && ws[a].flutterwaveSubscriptionId == Some(flwRef)
                    && ws[b].flutterwaveSubscriptionId == Some(flwRef)) ==> a == b
  }

  /**
   * The matched workspace gets plan "free" and the free limits and keeps every other
   * field; no other row, no customer, no guard key and no event changes. Without a match
   * nothing changes.
   */
  lemma CancelDowngrades(t: Tables, flwRef: string, found: Option<string>)
    requires IsFindBySubscription(t.workspaces, flwRef, found)
    ensures var after := SubscriptionCancelled(t, flwRef, found);
      && after.customers == t.customers && after.guard == t.guard && after.events == t.events
      && after.workspaces.Keys == t.workspaces.Keys
      && (found.None? ==> after == t)
      && (found.Some? ==>
            var w := t.workspaces[found.value];
            && after.workspaces[found.value].plan == "free"
            && after.workspaces[found.value].limits == FreeLimits
            && after.workspaces[found.value] == w.(plan := "free", limits := FreeLimits)
            && forall id :: id in t.workspaces && id != found.value ==> after.workspaces[id] == t.workspaces[id])
  {
  }

  /**
   * Cancelling twice is cancelling once: the workspace still stores the reference, so a
   * second lookup finds it (the same one when the reference is unique), and downgrading
   * it again changes nothing.
   */
  lemma CancelIdempotent(t: Tables, flwRef: string, found: Option<string>, again: Option<string>)
    requires IsFindBySubscription(t.workspaces, flwRef, found)
    requires IsFindBySubscription(SubscriptionCancelled(t, flwRef, found).workspaces, flwRef, again)
    requires again == found || SubscriptionUnique(t.workspaces, flwRef)
    ensures found.Some? ==> again.Some?
    ensures SubscriptionCancelled(SubscriptionCancelled(t, flwRef, found), flwRef, again)
              == SubscriptionCancelled(t, flwRef, found)
  {
    var once := SubscriptionCancelled(t, flwRef, found);
    if found.Some? {
      assert once.workspaces[found.value].flutterwaveSubscriptionId == Some(flwRef);
      assert again.Some?;
      assert again.value == found.value;
      assert once.workspaces[found.value := Downgrade(once.workspaces[found.value])] == once.workspaces;
    } else {
      assert again.None?;
    }
  }

  // ---------------------------------------------------------------- POST

  /** A request without a non-empty matching `verif-hash` gets 401 and changes nothing. */
  lemma PostRejectsBadSignature(t: Tables, hash: string, signature: Option<string>, event: string,
                                data: Payload, fr: Fresh, found: Option<string>)
    requires PostLookupValid(t, hash, signature, event, data, found)
    ensures var (after, res) := Post(t, hash, signature, event, data, fr, found);
      && (res.status == 401 <==> signature.None? || signature.value == "" || signature.value != hash)
      && (res.status == 401 ==> after == t && res == Unauthorized)
      && (res.status != 401 ==> res == Acknowledged)
  {
  }

  /** `subscription.created` and names the route does not handle change nothing and are acknowledged. */
  lemma PostIgnoresOtherEvents(t: Tables, hash: string, signature: Option<string>, event: string,
                               data: Payload, fr: Fresh, found: Option<string>)
    requires LookupValid(t, event, data, found)
    requires Flutterwave.Authenticates(hash, signature)
    requires event !in {"charge.completed", "subscription.cancelled", "subscription.disabled"}
    ensures Post(t, hash, signature, event, data, fr, found) == (t, Acknowledged)
  {
  }

  /** `subscription.disabled` does exactly what `subscription.cancelled` does. */
  lemma PostDisabledIsCancelled(t: Tables, hash: string, signature: Option<string>,
                                data: Payload, fr: Fresh, found: Option<string>)
    requires PostLookupValid(t, hash, signature, "subscription.cancelled", data, found)
    ensures PostLookupValid(t, hash, signature, "subscription.disabled", data, found)
    ensures Post(t, hash, signature, "subscription.disabled", data, fr, found)
         == Post(t, hash, signature, "subscription.cancelled", data, fr, found)
  {
  }
}
