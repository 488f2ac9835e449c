/** Billing products offered for purchase: product kinds, experience tiers, and the
    labels derived from a product. Prices are reals: floating-point rounding is not
    modelled. */
module Billing {
  import opened Wrappers
  import opened Text

  datatype ProductType = Subscription | OneTime | Credits
  {
    /** The wire name of the case. */
    function RawValue(): string
    {
      match this
      case Subscription => "SUBSCRIPTION"
      case OneTime => "ONE_TIME"
      case Credits => "CREDITS"
    }

    /** `displayName`. */
    function DisplayName(): string
    {
      match this
      case Subscription => "Subscription"
      case OneTime => "One-Time Purchase"
      case Credits => "Credits"
    }
  }

  /** `ProductType(rawValue:)`: the case with exactly that wire name, if any. */
  function ProductTypeFromRaw(s: string): (r: Option<ProductType>)
    ensures r.Some? ==> r.value.RawValue() == s
  {
    match s
    case "SUBSCRIPTION" => Some(Subscription)
    case "ONE_TIME" => Some(OneTime)
    case "CREDITS" => Some(Credits)
    case _ => None
  }

  /** Every product type survives a trip through its wire name, and the names differ. */
  lemma ProductTypeRoundTrip(p: ProductType, q: ProductType)
    ensures ProductTypeFromRaw(p.RawValue()) == Some(p)
    ensures p.RawValue() == q.RawValue() ==> p == q
  {
  }

  datatype ProductExperience = Basic | PremiumExperience | ProExperience
  {
    /** The wire name of the case. */
    function RawValue(): string
    {
      match this
      case Basic => "BASIC"
      case PremiumExperience => "PREMIUM"
      case ProExperience => "PRO"
    }

    /** `displayName`. */
    function DisplayName(): string
    {
      match this
      case Basic => "Basic"
      case PremiumExperience => "Premium"
      case ProExperience => "Pro"
    }
  }

  /** `ProductExperience(rawValue:)`: the case with exactly that wire name, if any. */
  function ProductExperienceFromRaw(s: string): (r: Option<ProductExperience>)
    ensures r.Some? ==> r.value.RawValue() == s
  {
    match s
    case "BASIC" => Some(Basic)
    case "PREMIUM" => Some(PremiumExperience)
    case "PRO" => Some(ProExperience)
    case _ => None
  }

  /** Every experience survives a trip through its wire name, and the names differ. */
  lemma ProductExperienceRoundTrip(p: ProductExperience, q: ProductExperience)
    ensures ProductExperienceFromRaw(p.RawValue()) == Some(p)
    ensures p.RawValue() == q.RawValue() ==> p == q
  {
  }

  /** The words that follow the day count in a trial description. */
  const TrialSuffix := "-day free trial"

  datatype BillingProduct = BillingProduct(
    id: string,
    title: string,
    shortTitle: string,
    description: string,
    productType: string,
    featuresIncluded: seq<string>,
    featuresExcluded: seq<string>,
    creditsMultiplier: real,
    price: real,
    currency: string,
    isFree: bool,
    canOrder: bool,
    hasTrial: bool,
    trialPeriodInDays: int,
    current: bool,
    priority: int,
    experience: string)
  {
    /** `productType`: the kind the wire name denotes, if it denotes one. */
    function Kind(): Option<ProductType>
    {
      ProductTypeFromRaw(productType)
    }

    /** `productExperience`: the tier the wire name denotes, if it denotes one. */
    function Tier(): Option<ProductExperience>
    {
      ProductExperienceFromRaw(experience)
    }

    /** `formattedPrice`. A free product reads "Free"; any other shows what the
        currency formatter renders (`rendered`), or the plain printed number
        (`printed`) when the formatter gives nothing. */
    function FormattedPrice(rendered: Option<string>, printed: string): (r: string)
      ensures isFree ==> r == "Free"
      ensures !isFree ==> r == rendered.GetOr(printed)
    {
      if isFree then "Free" else rendered.GetOr(printed)
    }

    /** `trialDescription`: the trial length in words, only for a product with a trial
        of at least one day. */
    function TrialDescription(): (r: Option<string>)
      ensures r.Some? <==> hasTrial && trialPeriodInDays > 0
    {
      if hasTrial && trialPeriodInDays > 0 then Some(IntToString(trialPeriodInDays) + TrialSuffix) else None
    }

    /** `isPremium`: the experience is PREMIUM or PRO. */
    predicate IsPremium()
    {
      experience == "PREMIUM" || experience == "PRO"
    }
  }

  /** A product is premium exactly when its experience names one of the two paid
      tiers. */
  lemma PremiumIffPaidTier(p: BillingProduct)
    ensures p.IsPremium() <==> p.Tier() == Some(PremiumExperience) || p.Tier() == Some(ProExperience)
  {
  }

  /** The trial description gives the length of the trial away: it starts with the
      day count in decimal and two products with a description have the same one
      exactly when their trials are equally long. */
  lemma TrialDescriptionNamesDays(p: BillingProduct, q: BillingProduct)
    requires p.TrialDescription().Some? && q.TrialDescription().Some?
    ensures p.TrialDescription().value == NatToString(p.trialPeriodInDays) + TrialSuffix
    ensures p.TrialDescription() == q.TrialDescription() <==> p.trialPeriodInDays == q.trialPeriodInDays
  {
    var a := NatToString(p.trialPeriodInDays);
    var b := NatToString(q.trialPeriodInDays);
    if a + TrialSuffix == b + TrialSuffix {
      assert a == (a + TrialSuffix)[..|a + TrialSuffix| - |TrialSuffix|];
      assert b == (b + TrialSuffix)[..|b + TrialSuffix| - |TrialSuffix|];
      NatToStringInjective(p.trialPeriodInDays, q.trialPeriodInDays);
    }
  }

  /** `makeProduct`, the preview factory: a product with a seven-day trial whose
      experience is basic when it is free and premium otherwise. */
  function MakeProduct(id: string, title: string := "Premium Plan", price: real := 9.99,
                       isFree: bool := false): (p: BillingProduct)
    ensures p.id == id && p.title == title && p.price == price && p.isFree == isFree
  {
    BillingProduct(id, title, "Premium", "Unlock all features", "SUBSCRIPTION",
                   ["Unlimited transactions", "Advanced analytics", "Priority support"], [],
                   1.0, price, "USD", isFree, true, true, 7, false, 0,
                   if isFree then "BASIC" else "PREMIUM")
  }

  /** A factory product is premium exactly when it is not free, is a subscription,
      and offers a seven-day free trial; a free one reads "Free" as its price. */
  lemma MakeProductFacts(id: string, title: string, price: real, isFree: bool, rendered: Option<string>, printed: string)
    ensures var p := MakeProduct(id, title, price, isFree);
      && (p.IsPremium() <==> !isFree)
      && p.Kind() == Some(Subscription)
      && p.TrialDescription() == Some("7-day free trial")
      && (isFree ==> p.FormattedPrice(rendered, printed) == "Free")
  {
    assert IntToString(7) == "7";
    assert "7" + TrialSuffix == "7-day free trial";
  }

  /** `freePlan`. */
  const FreePlan := BillingProduct("free", "Free Plan", "Free", "Basic features", "SUBSCRIPTION",
                                   ["Up to 100 transactions", "Basic reports"],
                                   ["Advanced analytics", "Priority support", "API access"],
                                   1.0, 0.0, "USD", true, true, false, 0, false, 0, "BASIC")

  /** The free plan costs nothing, reads "Free", is basic and not premium, and offers
      no trial. */
  lemma FreePlanFacts(rendered: Option<string>, printed: string)
    ensures FreePlan.price == 0.0 && FreePlan.FormattedPrice(rendered, printed) == "Free"
    ensures FreePlan.Tier() == Some(Basic) && !FreePlan.IsPremium()
    ensures FreePlan.TrialDescription() == None
  {
  }

  /** The `billingProductFormatting` test: a paid product titled "Premium" at 9.99
      keeps its title and price and has a trial. */
  lemma BillingProductFormattingExample(id: string)
    ensures var p := MakeProduct(id, title := "Premium", price := 9.99);
      p.title == "Premium" && p.price == 9.99 && !p.isFree && p.hasTrial && p.IsPremium()
  {
  }
}
