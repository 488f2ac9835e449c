/** The savings target entity: its strategy enumeration and the progress figures
    derived from the saved and target amounts. Amounts are reals: floating-point
    rounding is not modelled. */
module Targets {
  import opened Wrappers
  import opened Clock
  import opened Numbers

  datatype TargetStrategy = FixedAmountWeekly | FixedAmountMonthly | FixedIncomePercent | Open
  {
    /** The wire name of the case. */
    function RawValue(): string
    {
      match this
      case FixedAmountWeekly => "FIXED_AMOUNT_WEEKLY"
      case FixedAmountMonthly => "FIXED_AMOUNT_MONTHLY"
      case FixedIncomePercent => "FIXED_INCOME_PERCENT"
      case Open => "OPEN"
    }

    /** `displayName`. */
    function DisplayName(): string
    {
      match this
      case FixedAmountWeekly => "Fixed Weekly"
      case FixedAmountMonthly => "Fixed Monthly"
      case FixedIncomePercent => "Income Percentage"
      case Open => "Open (Manual)"
    }

    /** `description`. */
    function Description(): string
    {
      match this
      case FixedAmountWeekly => "Save a fixed amount every week"
      case FixedAmountMonthly => "Save a fixed amount every month"
      case FixedIncomePercent => "Save a percentage of your income"
      case Open => "Add to savings manually whenever you want"
    }
  }

  /** `TargetStrategy(rawValue:)`: the case with exactly that wire name, if any. */
  function TargetStrategyFromRaw(s: string): (r: Option<TargetStrategy>)
    ensures r.Some? ==> r.value.RawValue() == s
  {
    match s
    case "FIXED_AMOUNT_WEEKLY" => Some(FixedAmountWeekly)
    case "FIXED_AMOUNT_MONTHLY" => Some(FixedAmountMonthly)
    case "FIXED_INCOME_PERCENT" => Some(FixedIncomePercent)
    case "OPEN" => Some(Open)
    case _ => None
  }

  /** Each strategy is told apart by its display name alone and by its description alone. */
  lemma TargetStrategyLabelsDistinct(p: TargetStrategy, q: TargetStrategy)
    ensures p.DisplayName() == q.DisplayName() ==> p == q
    ensures p.Description() == q.Description() ==> p == q
  {
  }

  /** Every strategy survives a trip through its wire name, and the names differ. */
  lemma TargetStrategyRoundTrip(p: TargetStrategy, q: TargetStrategy)
    ensures TargetStrategyFromRaw(p.RawValue()) == Some(p)
    ensures p.RawValue() == q.RawValue() ==> p == q
  {
  }

  datatype Target = Target(
    id: string,
    userId: string,
    emoji: string,
    name: string,
    strategy: TargetStrategy,
    currency: string,
    amountSaved: real,
    amountTarget: real,
    expectedStartAt: Date,
    expectedEndAt: Date,
    remindWeekly: bool,
    remindMonthly: bool,
    completed: bool,
    archived: bool,
    createdAt: Date,
    updatedAt: Date)
  {
    /** `progress`: the saved share of the target, capped at 1; a target that is not
        positive has made no progress. */
    function Progress(): (r: real)
      ensures r <= 1.0
      ensures amountTarget <= 0.0 ==> r == 0.0
      ensures 0.0 <= amountSaved ==> 0.0 <= r
      ensures 0.0 < amountTarget <= amountSaved ==> r == 1.0
    {
      if amountTarget <= 0.0 then 0.0
      else if amountSaved / amountTarget < 1.0 then amountSaved / amountTarget
      else 1.0
    }

    /** `progressPercent`: the progress in hundredths, truncated. */
    function ProgressPercent(): (r: int)
      ensures r <= 100
      ensures 0.0 <= amountSaved ==> 0 <= r
    {
      Truncate(Progress() * 100.0)
    }

    /** `amountRemaining`: what is still to be saved, never negative. */
    function AmountRemaining(): (r: real)
      ensures 0.0 <= r && amountTarget - amountSaved <= r
      ensures r == 0.0 || r == amountTarget - amountSaved
    {
      if amountTarget - amountSaved > 0.0 then amountTarget - amountSaved else 0.0
    }

    /** `isActive`. */
    predicate IsActive()
    {
      !completed && !archived
    }

    /** `isOverdue`, with the current time `now` as a parameter. */
    predicate IsOverdue(now: Date)
    {
      !completed && expectedEndAt < now
    }
  }

  /** A completed target is never overdue, and an open one is overdue exactly once its
      end date has passed: it stays overdue as time goes on and was not overdue before
      its end date. */
  lemma OverdueAsTimePasses(t: Target, now: Date, later: Date)
    requires now <= later
    ensures t.completed ==> !t.IsOverdue(later)
    ensures t.IsOverdue(now) ==> t.IsOverdue(later)
    ensures !t.completed && later > t.expectedEndAt >= now ==> !t.IsOverdue(now) && t.IsOverdue(later)
  {
  }

  /** For a positive target and a non-negative saving, the progress and the remaining
      amount account for the whole target: the progressed part plus what remains is
      the target, and nothing remains exactly when the progress is complete. */
  lemma ProgressAndRemainderCoverTarget(t: Target)
    requires 0.0 < t.amountTarget && 0.0 <= t.amountSaved
    ensures t.Progress() * t.amountTarget + t.AmountRemaining() == t.amountTarget
    ensures t.AmountRemaining() == 0.0 <==> t.Progress() == 1.0
  {
    var share := t.amountSaved / t.amountTarget;
    assert share * t.amountTarget == t.amountSaved;
    if share < 1.0 {
      assert t.amountSaved < t.amountTarget;
    }
  }

  /** A target reached or exceeded shows full progress, 100 percent and nothing left. */
  lemma ReachedTargetIsComplete(t: Target)
    requires 0.0 < t.amountTarget <= t.amountSaved
    ensures t.Progress() == 1.0 && t.ProgressPercent() == 100 && t.AmountRemaining() == 0.0
  {
  }

  /** `makeTarget`, the preview factory; the identifier and the end date, which the
      factory draws from a UUID and the calendar, are parameters. */
  function MakeTarget(id: string, now: Date, endsAt: Date, name: string := "Vacation Fund",
                      emoji: string := "\U{1F3D6}\U{FE0F}", amountSaved: real := 500.0,
                      amountTarget: real := 2000.0, currency: string := "USD"): (t: Target)
    ensures t.IsActive() && t.strategy == Open
  {
    Target(id, "", emoji, name, Open, currency, amountSaved, amountTarget, now, endsAt,
           false, true, false, false, now, now)
  }

  /** The `targetProgress` test: 500 saved of 1000 is half-way, 50 percent, 500 left. */
  lemma TargetProgressExample(id: string, now: Date, endsAt: Date)
    ensures var t := MakeTarget(id, now, endsAt, amountSaved := 500.0, amountTarget := 1000.0);
      t.Progress() == 0.5 && t.ProgressPercent() == 50 && t.AmountRemaining() == 500.0
  {
    var t := MakeTarget(id, now, endsAt, amountSaved := 500.0, amountTarget := 1000.0);
    assert t.Progress() == 0.5;
    assert (50.0).Floor == 50;
  }
}
