/** The profile entity: subscription plans and how they are recognised from the
    server's plan names, limit periods, and the profile's derived display name. */
module Profiles {
  import opened Wrappers
  import opened Clock
  import opened Text

  /** Period of a spending limit. */
  datatype LimitPeriod = Daily | Weekly | Monthly | Yearly
  {
    /** The wire name of the case. */
    function RawValue(): string
    {
      match this
      case Daily => "DAILY"
      case Weekly => "WEEKLY"
      case Monthly => "MONTHLY"
      case Yearly => "YEARLY"
    }

    /** `displayName`. */
    function DisplayName(): string
    {
      match this
      case Daily => "Daily"
      case Weekly => "Weekly"
      case Monthly => "Monthly"
      case Yearly => "Yearly"
    }
  }

  /** `LimitPeriod(rawValue:)`: the case with exactly that wire name, if any. */
  function LimitPeriodFromRaw(s: string): (r: Option<LimitPeriod>)
    ensures r.Some? ==> r.value.RawValue() == s
  {
    match s
    case "DAILY" => Some(Daily)
    case "WEEKLY" => Some(Weekly)
    case "MONTHLY" => Some(Monthly)
    case "YEARLY" => Some(Yearly)
    case _ => None
  }

  /** Every period survives a trip through its wire name, and the four names differ, as do the four display names. */
  lemma LimitPeriodRoundTrip(p: LimitPeriod, q: LimitPeriod)
    ensures LimitPeriodFromRaw(p.RawValue()) == Some(p)
    ensures p.RawValue() == q.RawValue() ==> p == q
    ensures p.DisplayName() == q.DisplayName() ==> p == q
  {
  }

  const FreePlanName := "DIBBA_AI_FREE"
  const PremiumPlanName := "DIBBA_AI_PREMIUM"
  const ProPlanName := "DIBBA_AI_PRO"

  /** The plan name mentions a paid tier. */
  predicate HasPaidMarker(s: string)
  {
    Contains(s, "PREMIUM") || Contains(s, "PRO")
  }

  /** One of the three canonical plan names. */
  predicate IsCanonicalPlanName(s: string)
  {
    s == FreePlanName || s == PremiumPlanName || s == ProPlanName
  }

  /** The user's subscription plan. `UnknownPlan` keeps a dated or regional paid plan
      name such as "DIBBA_AI_PREMIUM_1Y_2025_01_LIVE". */
  datatype SubscriptionPlan = Free | Premium | Pro | UnknownPlan(name: string)
  {
    /** `rawValue`. */
    function RawValue(): string
    {
      match this
      case Free => FreePlanName
      case Premium => PremiumPlanName
      case Pro => ProPlanName
      case UnknownPlan(name) => name
    }

    /** `isPremium`: the paid plans, and unknown names that mention a paid tier. */
    predicate IsPremium()
    {
      match this
      case Free => false
      case Premium => true
      case Pro => true
      case UnknownPlan(name) => HasPaidMarker(name)
    }

    /** `displayName`: an unknown name is shown by the first paid tier it mentions,
        PREMIUM before PRO, and as "Free" when it mentions none. */
    function DisplayName(): string
    {
      match this
      case Free => "Free"
      case Premium => "Premium"
      case Pro => "Pro"
      case UnknownPlan(name) =>
        if Contains(name, "PREMIUM") then "Premium"
        else if Contains(name, "PRO") then "Pro"
        else "Free"
    }
  }

  /** `SubscriptionPlan(rawValue:)`: the canonical names give their plan; any other
      name that mentions a paid tier is kept as unknown; the rest fall back to free. */
  function PlanFromRaw(s: string): (r: SubscriptionPlan)
    ensures r == Free || r.RawValue() == s
    ensures r.UnknownPlan? ==> !IsCanonicalPlanName(s)
  {
    match s
    case "DIBBA_AI_FREE" => Free
    case "DIBBA_AI_PREMIUM" => Premium
    case "DIBBA_AI_PRO" => Pro
    case _ => if HasPaidMarker(s) then UnknownPlan(s) else Free
  }

  /** Which canonical names mention a paid tier. */
  lemma CanonicalMarkers()
    ensures Contains(PremiumPlanName, "PREMIUM")
    ensures Contains(ProPlanName, "PRO")
    ensures !HasPaidMarker(FreePlanName)
  {
    assert OccursAt(PremiumPlanName, "PREMIUM", 9);
    assert OccursAt(ProPlanName, "PRO", 9);
    NotContainsWithoutFirstChar(FreePlanName, "PREMIUM");
    NotContainsWithoutFirstChar(FreePlanName, "PRO");
  }

  /** Parsing keeps the server's name exactly when it is canonical or mentions a paid
      tier; every other name comes back as the free plan's name. */
  lemma PlanRawRoundTrip(s: string)
    ensures PlanFromRaw(s).RawValue() == if IsCanonicalPlanName(s) || HasPaidMarker(s) then s else FreePlanName
  {
  }

  /** A parsed plan is premium exactly when its name mentions PREMIUM or PRO. */
  lemma PlanPremiumIffMarker(s: string)
    ensures PlanFromRaw(s).IsPremium() <==> HasPaidMarker(s)
  {
    CanonicalMarkers();
  }

  /** Which plans survive printing and parsing again: all but the unknown plans whose
      name is canonical or mentions no paid tier (those read back as something else). */
  lemma PlanFromRawOfRawValue(p: SubscriptionPlan)
    ensures PlanFromRaw(p.RawValue()) == p <==>
      !(p.UnknownPlan? && (IsCanonicalPlanName(p.name) || !HasPaidMarker(p.name)))
  {
    CanonicalMarkers();
  }

  /** The display name is one of the three tier names, and it is "Free" exactly for
      the plans that are not premium. */
  lemma PlanDisplayNameAgreesWithPremium(p: SubscriptionPlan)
    ensures p.DisplayName() in {"Free", "Premium", "Pro"}
    ensures p.DisplayName() == "Free" <==> !p.IsPremium()
  {
  }

  datatype ProfileAchievement = ProfileAchievement(id: string, name: string, createdAt: Date)

  datatype ProfileLimit = ProfileLimit(id: string, period: LimitPeriod, currency: string, target: real, emoji: string)

  datatype Profile = Profile(
    goals: seq<string>,
    occupation: seq<string>,
    housing: seq<string>,
    transport: seq<string>,
    currency: Option<string>,
    age: Option<string>,
    achievements: seq<ProfileAchievement>,
    limits: seq<ProfileLimit>,
    notifyDailyReport: bool,
    notifyWeeklyReport: bool,
    notifyMonthlyReport: bool,
    notifyAnnualReport: bool,
    notifyNewRecommendation: bool,
    favoriteRealtimeVoice: Option<string>,
    createdAt: Date,
    name: string,
    email: string,
    firstName: string,
    lastName: string,
    picture: Option<string>,
    plan: SubscriptionPlan,
    planStartsAt: Option<Date>,
    planExpiresAt: Option<Date>)
  {
    /** `isPremium`. */
    predicate IsPremium()
    {
      plan.IsPremium()
    }

    /** `displayName`: the name; failing that, first and last name joined by a space
        and trimmed; failing that, the email. */
    function DisplayName(): (r: string)
      ensures name != "" ==> r == name
      ensures name == "" && firstName == "" && lastName == "" ==> r == email
    {
      if name != "" then name
      else if firstName != "" || lastName != "" then Trim(firstName + " " + lastName)
      else email
    }
  }

  /** `Profile.init` with every argument left at its default; the creation date is a
      parameter because the default reads the clock. */
  function NewProfile(createdAt: Date): (p: Profile)
    ensures p.createdAt == createdAt
  {
    Profile(
      goals := [], occupation := [], housing := [], transport := [],
      currency := None, age := None, achievements := [], limits := [],
      notifyDailyReport := false, notifyWeeklyReport := true, notifyMonthlyReport := true,
      notifyAnnualReport := true, notifyNewRecommendation := true,
      favoriteRealtimeVoice := None, createdAt := createdAt,
      name := "", email := "", firstName := "", lastName := "", picture := None,
      plan := Free, planStartsAt := None, planExpiresAt := None)
  }

  /** A default profile is on the free plan, shows an empty name, subscribes to every
      report except the daily one, and holds no preferences. */
  lemma NewProfileDefaults(createdAt: Date)
    ensures var p := NewProfile(createdAt);
      && !p.IsPremium() && p.DisplayName() == ""
      && !p.notifyDailyReport
      && p.notifyWeeklyReport && p.notifyMonthlyReport && p.notifyAnnualReport && p.notifyNewRecommendation
      && p.goals == p.occupation == p.housing == p.transport == []
  {
  }

  /** With no name, the display name is the non-empty name parts joined by one space,
      when the parts carry no surrounding whitespace of their own. */
  lemma DisplayNameJoinsNameParts(p: Profile)
    requires p.name == "" && (p.firstName != "" || p.lastName != "")
    requires Trimmed(p.firstName) && Trimmed(p.lastName)
    ensures p.DisplayName() ==
      if p.firstName == "" then p.lastName
      else if p.lastName == "" then p.firstName
      else p.firstName + " " + p.lastName
  {
    var s := p.firstName + " " + p.lastName;
    if p.firstName == "" {
      assert TrimmedAt(s, p.lastName, 1);
      TrimExact(s, p.lastName, 1);
    } else if p.lastName == "" {
      assert TrimmedAt(s, p.firstName, 0);
      TrimExact(s, p.firstName, 0);
    } else {
      assert TrimmedAt(s, s, 0);
      TrimExact(s, s, 0);
    }
  }

  /** Name parts made only of blanks still take precedence over the email, so such a
      profile is displayed with an empty name. */
  lemma BlankNamePartsHideEmail(p: Profile)
    requires p.name == "" && p.firstName == " " && p.lastName == ""
    ensures p.DisplayName() == ""
  {
    var s := p.firstName + " " + p.lastName;
    assert s == "  ";
    assert IsWhitespace(s[0]) && IsWhitespace(s[1]);
    assert TrimmedAt(s, "", 0);
    TrimExact(s, "", 0);
  }

  /** `makeProfile`, the preview factory. */
  function MakeProfile(now: Date, name: string := "Test User", email: string := "test@example.com",
                       currency: string := "USD", plan: SubscriptionPlan := Free): (p: Profile)
    ensures p.createdAt == now
  {
    NewProfile(now).(currency := Some(currency), name := name, email := email,
                     firstName := "Test", lastName := "User", plan := plan)
  }

  /** The factory's profile is shown by its name, or as "Test User" when the name is
      empty, and is premium exactly when its plan is. */
  lemma MakeProfileShows(now: Date, name: string, email: string, currency: string, plan: SubscriptionPlan)
    ensures var p := MakeProfile(now, name, email, currency, plan);
      && p.DisplayName() == (if name != "" then name else "Test User")
      && p.email == email && p.plan == plan
      && (p.IsPremium() <==> plan.IsPremium())
  {
    var p := MakeProfile(now, name, email, currency, plan);
    if name == "" {
      TestUserShown(p);
    }
  }

  /** "Test" and "User" are shown as "Test User". */
  lemma TestUserShown(p: Profile)
    requires p.name == "" && p.firstName == "Test" && p.lastName == "User"
    ensures p.DisplayName() == "Test User"
  {
    var s := p.firstName + " " + p.lastName;
    assert s == "Test User";
    assert Trimmed(s);
    assert TrimmedAt(s, s, 0);
    TrimExact(s, s, 0);
  }

  /** The profile built by the `profileCreation` test is on the free plan. */
  lemma ProfileCreationExample(now: Date)
    ensures var p := MakeProfile(now, name := "Test User", email := "test@example.com");
      p.name == "Test User" && p.email == "test@example.com" && p.plan == Free && !p.IsPremium()
  {
  }
}
