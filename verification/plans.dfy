/** Pricing tiers, the plan taken from a page's query string, and the
    social logins each tier asks for on the legacy form. */
module Plans {

  import opened Wrappers

  /** `PricingTier`: 'starter' | 'pro' | 'pro_plus'. */
  datatype Plan = Starter | Pro | ProPlus

  function PlanName(p: Plan): string
  {
    match p
    case Starter => "starter"
    case Pro => "pro"
    case ProPlus => "pro_plus"
  }

  /** The tier a text names, if it names one (`validPlans.includes(plan)`,
      or zod's `z.enum(['starter', 'pro', 'pro_plus'])`). */
  function ParsePlan(s: string): (r: Option<Plan>)
    ensures r.Some? ==> PlanName(r.value) == s
  {
    if s == "starter" then Some(Starter)
    else if s == "pro" then Some(Pro)
    else if s == "pro_plus" then Some(ProPlus)
    else None
  }

  /** Each tier's name is read back as that tier, so `ParsePlan` recognises
      exactly the three names. */
  lemma ParsePlanName(p: Plan)
    ensures ParsePlan(PlanName(p)) == Some(p)
  {
  }

  /** A query-string parameter as Next.js hands it over: absent, one value,
      or an array when the parameter is repeated. */
  datatype QueryValue = Absent | Single(text: string) | Repeated(texts: seq<string>)

  /** `getServerSideProps` of the start and onboarding pages: a valid plan
      is kept, anything else (absent, unknown, repeated) becomes starter. */
  function NormalizePlan(q: QueryValue): (p: Plan)
    ensures q.Single? && ParsePlan(q.text).Some? ==> p == ParsePlan(q.text).value
    ensures !(q.Single? && ParsePlan(q.text).Some?) ==> p == Starter
  {
    match q
    case Single(s) => ParsePlan(s).GetOr(Starter)
    case _ => Starter
  }

  /** A valid plan in the query is returned unchanged. */
  lemma NormalizeKeepsValidPlan(p: Plan)
    ensures NormalizePlan(Single(PlanName(p))) == p
  {
    ParsePlanName(p);
  }

  /** Normalising the normalised plan's name gives the same plan. */
  lemma NormalizeIdempotent(q: QueryValue)
    ensures NormalizePlan(Single(PlanName(NormalizePlan(q)))) == NormalizePlan(q)
  {
    ParsePlanName(NormalizePlan(q));
  }

  // ---------------------------------------------------------------- legacy login fields

  const InstagramLogin := "instagram_login"
  const FacebookLogin := "facebook_login"
  const TwitterLogin := "twitter_login"
  const LinkedinLogin := "linkedin_login"
  const TiktokLogin := "tiktok_login"

  /** `getRequiredLoginFields`: the login fields the legacy form marks as
      required for a tier. Its `default` branch returns the starter list;
      with a typed tier that branch is not reachable. */
  function RequiredLoginFields(p: Plan): (r: seq<string>)
    ensures |r| >= 1 && r[0] == InstagramLogin
    ensures p == Starter <==> |r| == 1
    ensures p == Pro <==> |r| == 3
    ensures p == ProPlus <==> |r| == 5
  {
    match p
    case Starter => [InstagramLogin]
    case Pro => [InstagramLogin, FacebookLogin, TwitterLogin]
    case ProPlus => [InstagramLogin, FacebookLogin, TwitterLogin, LinkedinLogin, TiktokLogin]
  }

  /** The order of tiers: starter < pro < pro_plus. */
  function Rank(p: Plan): nat
  {
    match p
    case Starter => 0
    case Pro => 1
    case ProPlus => 2
  }

  /** A higher tier asks for every login a lower tier asks for, in the same
      order: each tier's list is a prefix of the next tier's. */
  lemma RequiredFieldsNested(p: Plan, q: Plan)
    requires Rank(p) <= Rank(q)
    ensures RequiredLoginFields(p) <= RequiredLoginFields(q)
  {
  }
}
