/**
 * The pure helpers of the Flutterwave client library: webhook signature equality,
 * the choice of display currency from a country code, and the display price table.
 */
module Flutterwave {
  import opened Wrappers
  import Js

  datatype Interval = Monthly | Yearly

  datatype Currency = NGN | USD

  function IntervalName(i: Interval): string
  {
    match i
    case Monthly => "monthly"
    case Yearly => "yearly"
  }

  function CurrencyCode(c: Currency): string
  {
    match c
    case NGN => "NGN"
    case USD => "USD"
  }

  /**
   * The namespace token that opens every transaction reference. It is defined once here
   * and used by both ends of the reference: the checkout's template and the route's decoder.
   */
  const Namespace: string := "lnking"

  /** One price per currency. */
  datatype PerCurrency = PerCurrency(ngn: nat, usd: nat)
  {
    function In(c: Currency): nat
    {
      match c
      case NGN => ngn
      case USD => usd
    }
  }

  /** The monthly and yearly prices of one plan. */
  datatype Prices = Prices(monthly: PerCurrency, yearly: PerCurrency)
  {
    function At(i: Interval, c: Currency): nat
    {
      match i
      case Monthly => monthly.In(c)
      case Yearly => yearly.In(c)
    }
  }

  /**
   * `validateWebhookSignature`: plain (not constant-time) equality with the configured
   * hash, which is the empty string when the environment does not set one.
   */
  predicate ValidateWebhookSignature(configuredHash: string, signature: string)
  {
    signature == configuredHash
  }

  /** The countries shown prices in naira. */
  const AfricanCountries: seq<string> :=
    ["NG", "GH", "KE", "ZA", "TZ", "UG", "RW", "CM", "CI", "SN", "ZM", "ET"]

  /** `getDisplayCurrency`: an absent or empty country shows dollars; the listed codes show naira. */
  function GetDisplayCurrency(country: Option<string>): (c: Currency)
    ensures country == None || country == Some("") ==> c == USD
    ensures c == NGN <==> country.Some? && country.value in AfricanCountries
  {
    match country
    case None => USD
    case Some(code) =>
      if code == "" then USD
      else if code in AfricanCountries then NGN
      else USD
  }

  /** The plan table of `getPriceForDisplay`. */
  const DisplayPlans: map<string, Prices> := map[
    "pro" := Prices(PerCurrency(10000, 15), PerCurrency(96000, 144)),
    "business" := Prices(PerCurrency(25000, 37), PerCurrency(240000, 355)),
    "businessPlus" := Prices(PerCurrency(50000, 75), PerCurrency(480000, 720)),
    "businessExtra" := Prices(PerCurrency(105000, 155), PerCurrency(1008000, 1488)),
    "businessMax" := Prices(PerCurrency(205000, 312), PerCurrency(1968000, 2995))
  ]

  /** The paid plan names, in the camelCase spelling both price tables use as keys. */
  const PaidPlans: set<string> := {"pro", "business", "businessPlus", "businessExtra", "businessMax"}

  /**
   * What `getPriceForDisplay` throws: its own "not found" error for a missing plan, or a
   * TypeError when the name is a key every object inherits (the lookup then yields a
   * function, and reading an interval of it gives `undefined`).
   */
  datatype PriceError = PlanNotFound(planName: string) | TypeError(planName: string)

  function GetPriceForDisplay(planName: string, interval: Interval, currency: Currency): (r: Result<nat, PriceError>)
    ensures r.Success? <==> planName in PaidPlans
    ensures r.Success? ==> r.value > 0
    ensures r.Failure? ==> r.error.planName == planName
    ensures r.Failure? ==> (r.error.TypeError? <==> planName in Js.InheritedObjectKeys)
  {
    if planName in DisplayPlans then Success(DisplayPlans[planName].At(interval, currency))
    else if planName in Js.InheritedObjectKeys then Failure(TypeError(planName))
    else Failure(PlanNotFound(planName))
  }

  /** A request authenticates when it carries a non-empty `verif-hash` equal to the configured hash. */
  predicate Authenticates(configuredHash: string, signature: Option<string>)
  {
    signature.Some? && signature.value != "" && ValidateWebhookSignature(configuredHash, signature.value)
  }

  lemma AuthenticatesIff(configuredHash: string, signature: Option<string>)
    ensures Authenticates(configuredHash, signature) <==> configuredHash != "" && signature == Some(configuredHash)
  {
  }

  /** With no hash configured, no request authenticates. */
  lemma EmptyHashAuthenticatesNothing(signature: Option<string>)
    ensures !Authenticates("", signature)
  {
  }

  /** The match on the country code is case-sensitive. */
  lemma NairaCaseSensitive()
    ensures GetDisplayCurrency(Some("NG")) == NGN && GetDisplayCurrency(Some("ng")) == USD
  {
  }

  /** Every yearly price is dearer than one month and cheaper than twelve. */
  lemma YearlyDiscount(planName: string, currency: Currency)
    requires planName in PaidPlans
    ensures GetPriceForDisplay(planName, Monthly, currency).value
              < GetPriceForDisplay(planName, Yearly, currency).value
              < 12 * GetPriceForDisplay(planName, Monthly, currency).value
  {
  }
}
