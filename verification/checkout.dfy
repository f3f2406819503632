/** Hosted-checkout links and prices per tier, and the checkout URL that
    carries a submission id as the client reference. */
module Checkout {

  import opened Wrappers
  import opened Text
  import opened Plans

  /** `STRIPE_PRICING_LINKS`. */
  function PricingLink(p: Plan): (link: string)
    ensures '?' !in link && |link| > 0
  {
    match p
    case Starter => "https://buy.stripe.com/9AQbKU5A3dKk4is5kO"
    case Pro => "https://buy.stripe.com/fZe6s24dV8p80NOdQQ"
    case ProPlus => "https://buy.stripe.com/28EeVe9V06nY4is59l8Vi02"
  }

  /** One entry of `STRIPE_PRICES`: the amount in cents. */
  datatype Price = Price(amount: nat, currency: string, name: string)

  /** `STRIPE_PRICES`: every tier is billed in US dollars, and each tier
      costs $50 more than the one below it, starting at $100. */
  function StripePrice(p: Plan): (r: Price)
    ensures r.currency == "usd"
    ensures r.amount == 10000 + 5000 * Rank(p)
  {
    match p
    case Starter => Price(10000, "usd", "Starter Plan")
    case Pro => Price(15000, "usd", "Pro Plan")
    case ProPlus => Price(20000, "usd", "Pro Plus Plan")
  }

  const ReferenceMarker := "?client_reference_id="

  /** `getStripeCheckoutUrl`: the tier's link, followed by the submission id
      as `client_reference_id` when an id is given and not empty. The id is
      inserted without any encoding. */
  function CheckoutUrl(p: Plan, submissionId: Option<string>): (url: string)
    ensures StartsWith(url, PricingLink(p))
    ensures submissionId.Some? && submissionId.value != [] ==>
      url == PricingLink(p) + ReferenceMarker + submissionId.value
    ensures submissionId.None? || submissionId.value == [] ==> url == PricingLink(p)
  {
    var base := PricingLink(p);
    if submissionId.Some? && submissionId.value != [] then
      assert (base + ReferenceMarker + submissionId.value)[..|base|] == base;
      base + ReferenceMarker + submissionId.value
    else base
  }

  /** The client reference a checkout URL carries: everything after the
      marker that opens its query string. */
  function ClientReference(url: string): Option<string>
  {
    match IndexOf(url, '?')
    case None => None
    case Some(i) =>
      if StartsWith(url[i..], ReferenceMarker) then Some(url[i + |ReferenceMarker|..]) else None
  }

  /** The reference read back from a checkout URL is the submission id,
      character for character, even when the id itself contains `?`, `&`
      or `#`; without an id there is no reference. */
  lemma CheckoutReferenceRoundTrip(p: Plan, submissionId: Option<string>)
    ensures ClientReference(CheckoutUrl(p, submissionId)) ==
      (if submissionId.Some? && submissionId.value != [] then submissionId else None)
  {
    if submissionId.Some? && submissionId.value != [] {
      ReferenceAfterMarker(PricingLink(p), submissionId.value);
    }
  }

  /** Behind a link without a query string, the marker opens the query and
      everything after it is the reference. */
  lemma ReferenceAfterMarker(base: string, id: string)
    requires '?' !in base
    ensures ClientReference(base + ReferenceMarker + id) == Some(id)
  {
    var url := base + ReferenceMarker + id;
    assert url == base + ['?'] + (ReferenceMarker[1..] + id);
    IndexOfAfterPrefix(base, '?', ReferenceMarker[1..] + id);
    assert url[|base|..] == ReferenceMarker + id;
    assert url[|base| + |ReferenceMarker|..] == id;
  }
}
