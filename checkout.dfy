/**
 * The pure parts of the Flutterwave checkout button: its own copy of the price table,
 * the mapping from a display plan name to a price-table key (`getPlanConfig`), and the
 * template of the transaction reference it builds. The button as written never passes
 * that reference to `initiateSubscription`; the template is modelled so that it can be
 * set against the route's decoder.
 */
module Checkout {
  import opened Wrappers
  import Js
  import opened Flutterwave

  /** The checkout's own price table. */
  const PlanPrices: map<string, Prices> := map[
    "pro" := Prices(PerCurrency(10000, 15), PerCurrency(96000, 144)),
    "business" := Prices(PerCurrency(25000, 37), PerCurrency(240000, 355)),
    "businessPlus" := Prices(PerCurrency(50000, 75), PerCurrency(480000, 720)),
    "businessExtra" := Prices(PerCurrency(105000, 155), PerCurrency(1008000, 1488)),
    "businessMax" := Prices(PerCurrency(205000, 312), PerCurrency(1968000, 2995))
  ]

  /** Lower-cased display names and the price-table key each one selects. */
  const PlanKeyByName: map<string, string> := map[
    "pro" := "pro",
    "business" := "business",
    "business plus" := "businessPlus",
    "business extra" := "businessExtra",
    "business max" := "businessMax"
  ]

  /** The inherited keys that a lower-cased name can be equal to. */
  lemma LowerCaseInheritedKeys(name: string)
    requires Js.IsLowerCase(name)
    ensures name in Js.InheritedObjectKeys <==> name == "constructor" || name == "__proto__"
  {
    assert "toString"[2] == 'S' && "toLocaleString"[2] == 'L' && "valueOf"[5] == 'O';
    assert "hasOwnProperty"[3] == 'O' && "isPrototypeOf"[2] == 'P' && "propertyIsEnumerable"[8] == 'I';
    assert "__defineGetter__"[8] == 'G' && "__defineSetter__"[8] == 'S';
    assert "__lookupGetter__"[8] == 'G' && "__lookupSetter__"[8] == 'S';
  }

  /**
   * `planMapping[plan.toLowerCase()] || "pro"`. None stands for the two lower-case names
   * that reach an inherited key: the lookup is then truthy and not a string key, so the
   * later price lookup throws.
   */
  function MappedPlan(plan: string): (r: Option<string>)
    ensures r.Some? ==> r.value in PlanPrices
    ensures r.None? <==> Js.ToLowerCase(plan) == "constructor" || Js.ToLowerCase(plan) == "__proto__"
    ensures Js.ToLowerCase(plan) in PlanKeyByName ==> r == Some(PlanKeyByName[Js.ToLowerCase(plan)])
    ensures Js.ToLowerCase(plan) !in PlanKeyByName && r.Some? ==> r.value == "pro"
  {
    var name := Js.ToLowerCase(plan);
    Js.ToLowerCaseIsLower(plan);
    LowerCaseInheritedKeys(name);
    if name in PlanKeyByName then Some(PlanKeyByName[name])
    else if name in Js.InheritedObjectKeys then None
    else Some("pro")
  }

  /** What `getPlanConfig` returns: the provider plan id, the amount and the currency. */
  datatype PlanConfig = PlanConfig(planId: string, amount: nat, currency: Currency)

  /** `getPlanConfig`: fails (throws) only where MappedPlan does. */
  function GetPlanConfig(plan: string, period: Interval, currency: Currency): (r: Result<PlanConfig, string>)
    ensures r.Success? <==> MappedPlan(plan).Some?
    ensures r.Success? ==> r.value.currency == currency
    ensures r.Success? ==> Js.Split(r.value.planId, '_')
                             == [MappedPlan(plan).value, IntervalName(period), Js.ToLowerCase(CurrencyCode(currency))]
    ensures r.Success? ==> GetPriceForDisplay(MappedPlan(plan).value, period, currency) == Success(r.value.amount)
  {
    match MappedPlan(plan)
    case None => Failure(plan)
    case Some(key) =>
      var planId := key + "_" + IntervalName(period) + "_" + Js.ToLowerCase(CurrencyCode(currency));
      PlanIdSegments(key, period, currency);
      Success(PlanConfig(planId, PlanPrices[key].At(period, currency), currency))
  }

  /** No key of the price table contains the underscore that separates plan-id fields. */
  lemma PlanKeyHasNoUnderscore(key: string)
    requires key in PlanPrices
    ensures '_' !in key
  {
    assert key == "pro" || key == "business" || key == "businessPlus" || key == "businessExtra" || key == "businessMax";
  }

  /** A plan id is the price key, the period and the lower-case currency, split back by underscores. */
  lemma PlanIdSegments(key: string, period: Interval, currency: Currency)
    requires key in PlanPrices
    ensures Js.Split(key + "_" + IntervalName(period) + "_" + Js.ToLowerCase(CurrencyCode(currency)), '_')
            == [key, IntervalName(period), Js.ToLowerCase(CurrencyCode(currency))]
  {
    var cur := Js.ToLowerCase(CurrencyCode(currency));
    var idParts := [key, IntervalName(period), cur];
    assert Js.Join(idParts[1..], '_') == IntervalName(period) + "_" + cur;
    assert Js.Join(idParts, '_') == key + "_" + IntervalName(period) + "_" + cur;
    PlanKeyHasNoUnderscore(key);
    assert '_' !in IntervalName(period);
    CurrencyTokenHasNoUnderscore(currency);
    Js.SplitJoin(idParts, '_');
  }

  /** The lower-cased currency code has no underscore. */
  lemma CurrencyTokenHasNoUnderscore(currency: Currency)
    ensures '_' !in Js.ToLowerCase(CurrencyCode(currency))
  {
    var code := CurrencyCode(currency);
    assert forall i :: 0 <= i < |code| ==> code[i] != '_';
  }

  /**
   * The `txRef` template: namespace, user id, the workspace SLUG, the plan name with its
   * first space removed, the period and a random nonce, joined by underscores.
   */
  function CheckoutTxRef(userId: string, slug: string, plan: string, period: Interval, nonce: string): string
  {
    Namespace + "_" + userId + "_" + slug + "_" + Js.RemoveFirst(plan, ' ') + "_" + IntervalName(period) + "_" + nonce
  }

  /** Both copies of the price table agree entry by entry. */
  lemma PriceTablesAgree(planName: string, period: Interval, currency: Currency)
    ensures planName in PlanPrices <==> planName in DisplayPlans
    ensures planName in PlanPrices ==>
      GetPriceForDisplay(planName, period, currency) == Success(PlanPrices[planName].At(period, currency))
  {
  }

  /** Each lower-case display name maps to its camelCase key, "business plus" to "businessPlus". */
  lemma DisplayNamesMapped(name: string)
    requires name in PlanKeyByName
    ensures MappedPlan(name) == Some(PlanKeyByName[name])
    ensures name == "business plus" ==> MappedPlan(name) == Some("businessPlus")
  {
    assert Js.IsLowerCase(name) by {
      assert name in {"pro", "business", "business plus", "business extra", "business max"};
    }
    Js.ToLowerCaseOfLower(name);
  }

  /** Capitalisation of the display name does not matter. */
  lemma CapitalisedProMapped()
    ensures MappedPlan("Pro") == Some("pro")
  {
    assert Js.ToLowerCase("Pro") == "pro";
  }
}
