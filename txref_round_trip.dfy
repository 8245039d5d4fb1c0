/**
 * The checkout's `txRef` template against the webhook route's decoder. The checkout as
 * written builds the template but never sends it, so every lemma here is about a charge
 * whose `tx_ref` is the template. The round trip holds on the four fields; what the fields
 * then mean to the route does not match what the template put there (see the findings:
 * the workspace slug where an id is expected, and plan names that are not limit-table keys).
 */
module TxRefRoundTrip {
  import opened Wrappers
  import Js
  import opened Flutterwave
  import Checkout
  import opened Webhook
  import WebhookProperties

  /** The checkout's reference is the route's five segments followed by the delimited nonce. */
  lemma CheckoutTxRefSegments(userId: string, slug: string, plan: string, period: Interval, nonce: string)
    ensures Checkout.CheckoutTxRef(userId, slug, plan, period, nonce)
         == Encoded(TxRef(userId, slug, Js.RemoveFirst(plan, ' '), IntervalName(period))) + "_" + nonce
  {
    Js.JoinFive(Namespace, userId, slug, Js.RemoveFirst(plan, ' '), IntervalName(period), '_');
  }

  /**
   * Round trip: when the user id, the slug and the plan name (first space removed) are
   * non-empty and free of underscores, the route decodes the checkout's reference to
   * exactly those fields and the period, whatever the nonce holds.
   */
  lemma CheckoutRoundTrip(userId: string, slug: string, plan: string, period: Interval, nonce: string)
    requires IsField(userId) && IsField(slug) && IsField(Js.RemoveFirst(plan, ' '))
    ensures DecodeTxRef(Checkout.CheckoutTxRef(userId, slug, plan, period, nonce))
         == Success(TxRef(userId, slug, Js.RemoveFirst(plan, ' '), IntervalName(period)))
  {
    var t := TxRef(userId, slug, Js.RemoveFirst(plan, ' '), IntervalName(period));
    CheckoutTxRefSegments(userId, slug, plan, period, nonce);
    assert Encoded(t) + "_" + nonce == Encoded(t) + ("_" + nonce);
    DecodeEncoded(t, "_" + nonce);
  }

  // ---------------------------------------------------------------- finding: slug as workspace id

  /**
   * As written: the route takes the checkout's slug for a workspace id. A checkout for a
   * workspace whose id differs from its slug, with no workspace having that slug as id,
   * is ignored and changes nothing.
   */
  lemma SlugLookedUpAsId(t: Tables, userId: string, plan: string, period: Interval, nonce: string,
                         wid: string, data: Payload, fr: Fresh, found: Option<string>)
    requires wid in t.workspaces
    requires IsField(userId) && IsField(t.workspaces[wid].slug) && IsField(Js.RemoveFirst(plan, ' '))
    requires t.workspaces[wid].slug !in t.workspaces
    requires data.txRef == Checkout.CheckoutTxRef(userId, t.workspaces[wid].slug, plan, period, nonce)
    requires ChargeLookupValid(t, data, found)
    ensures DecodeTxRef(data.txRef).Success? && DecodeTxRef(data.txRef).value.workspaceId == t.workspaces[wid].slug
    ensures ChargeCompleted(t, data, fr, found) == ChargeStep(t, Ignored(WorkspaceNotFound))
  {
    CheckoutRoundTrip(userId, t.workspaces[wid].slug, plan, period, nonce);
  }

  // ---------------------------------------------------------------- finding: plan spelling

  /** The checkout's "business plus" becomes "businessplus", which is no key of the limits table. */
  lemma BusinessPlusSpelling(plan: string)
    requires plan == "business plus"
    ensures Js.RemoveFirst(plan, ' ') == "businessplus"
    ensures Js.ToLowerCase(Js.RemoveFirst(plan, ' ')) == "businessplus"
    ensures "businessplus" !in PlanMapping
  {
    FirstSpaceOfBusinessPlus(plan);
    var spelled := Js.RemoveFirst(plan, ' ');
    BusinessPlusIsLower(spelled);
    Js.ToLowerCaseOfLower(spelled);
  }

  lemma FirstSpaceOfBusinessPlus(plan: string)
    requires plan == "business plus"
    ensures Js.IndexOf(plan, ' ') == 8
    ensures Js.RemoveFirst(plan, ' ') == "businessplus"
  {
    assert plan[8] == ' ' && ' ' !in plan[..8];
    assert plan[..8] + plan[9..] == "businessplus";
  }

  lemma BusinessPlusIsLower(s: string)
    requires s == "businessplus"
    ensures Js.IsLowerCase(s)
  {
  }

  /**
   * As written: a checkout whose plan name, first space removed, is not a key of the
   * limits table (such as "business plus", which becomes "businessplus") labels the
   * workspace with that name lower-cased and leaves its limits as they were.
   */
  lemma UnkeyedPlanKeepsLimits(t: Tables, userId: string, slug: string, plan: string, period: Interval,
                               nonce: string, data: Payload, fr: Fresh, found: Option<string>)
    requires IsField(userId) && IsField(slug) && IsField(Js.RemoveFirst(plan, ' ')) && slug in t.workspaces
    requires Js.RemoveFirst(plan, ' ') !in PlanMapping
    requires data.txRef == Checkout.CheckoutTxRef(userId, slug, plan, period, nonce)
    requires ChargeLookupValid(t, data, found)
    ensures var after := ChargeCompleted(t, data, fr, found).after.workspaces[slug];
      after.plan == Js.ToLowerCase(Js.RemoveFirst(plan, ' ')) && after.limits == t.workspaces[slug].limits
  {
    CheckoutRoundTrip(userId, slug, plan, period, nonce);
    assert DecodeTxRef(data.txRef).value.planName == Js.RemoveFirst(plan, ' ');
    WebhookProperties.ChargeWorkspacePatch(t, data, fr, found);
  }

  // ---------------------------------------------------------------- finding: inherited keys

  /**
   * As written: a plan name lower-casing to an inherited key bypasses the `|| "pro"`
   * fallback and `getPlanConfig` throws.
   */
  lemma InheritedPlanNameThrows(plan: string, period: Interval, currency: Currency)
    requires Js.ToLowerCase(plan) == "constructor" || Js.ToLowerCase(plan) == "__proto__"
    ensures Checkout.GetPlanConfig(plan, period, currency).Failure?
  {
  }

  // ---------------------------------------------------------------- corrected checkout

  /** The intended mapping: own keys of the name table only, "pro" for every other name. */
  function IntendedPlanKey(plan: string): (key: string)
    ensures key in Checkout.PlanPrices && key in PlanMapping
    ensures IsField(key)
    ensures Js.ToLowerCase(plan) in Checkout.PlanKeyByName ==> key == Checkout.PlanKeyByName[Js.ToLowerCase(plan)]
    ensures Js.ToLowerCase(plan) !in Checkout.PlanKeyByName ==> key == "pro"
  {
    var name := Js.ToLowerCase(plan);
    if name in Checkout.PlanKeyByName then Checkout.PlanKeyByName[name] else "pro"
  }

  /** Where the checkout's mapping yields a key, the intended mapping yields the same one. */
  lemma IntendedPlanKeyAgrees(plan: string)
    ensures Checkout.MappedPlan(plan).Some? ==> IntendedPlanKey(plan) == Checkout.MappedPlan(plan).value
  {
  }

  /** The intended reference: the workspace id and the price-table key of the plan. */
  function IntendedTxRef(userId: string, workspaceId: string, plan: string, period: Interval, nonce: string): string
  {
    Namespace + "_" + userId + "_" + workspaceId + "_" + IntendedPlanKey(plan) + "_" + IntervalName(period) + "_" + nonce
  }

  /** The intended reference decodes to the workspace id and the price-table key. */
  lemma IntendedTxRefDecodes(userId: string, wid: string, plan: string, period: Interval, nonce: string)
    requires IsField(userId) && IsField(wid)
    ensures DecodeTxRef(IntendedTxRef(userId, wid, plan, period, nonce))
            == Success(TxRef(userId, wid, IntendedPlanKey(plan), IntervalName(period)))
  {
    IntendedTxRefSegments(userId, wid, plan, period, nonce);
    DecodeEncoded(TxRef(userId, wid, IntendedPlanKey(plan), IntervalName(period)), "_" + nonce);
  }

  /**
   * With the intended reference a charge reaches the workspace the checkout was for and
   * gives it the limits of the plan that was priced.
   */
  lemma IntendedCheckoutReconciles(t: Tables, userId: string, wid: string, plan: string, period: Interval,
                                   nonce: string, data: Payload, fr: Fresh, found: Option<string>)
    requires IsField(userId) && IsField(wid) && wid in t.workspaces
    requires data.txRef == IntendedTxRef(userId, wid, plan, period, nonce)
    requires ChargeLookupValid(t, data, found)
    ensures var s := ChargeCompleted(t, data, fr, found);
      && !s.outcome.Ignored?
      && s.after.workspaces[wid].limits == PlanMapping[IntendedPlanKey(plan)]
      && s.after.workspaces[wid].plan == Js.ToLowerCase(IntendedPlanKey(plan))
  {
    IntendedTxRefDecodes(userId, wid, plan, period, nonce);
    WebhookProperties.ChargeWorkspacePatch(t, data, fr, found);
    WebhookProperties.ChargeIgnoredLeavesTables(t, data, fr, found);
  }

  lemma IntendedTxRefSegments(userId: string, wid: string, plan: string, period: Interval, nonce: string)
    ensures IntendedTxRef(userId, wid, plan, period, nonce)
         == Encoded(TxRef(userId, wid, IntendedPlanKey(plan), IntervalName(period))) + ("_" + nonce)
  {
    Js.JoinFive(Namespace, userId, wid, IntendedPlanKey(plan), IntervalName(period), '_');
  }
}
