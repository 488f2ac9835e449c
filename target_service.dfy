/** `TargetService`: the cached list of savings targets, its updates, and the DTO
    mapper.

    A server call is represented by its answer, the DTOs or the error the call would
    throw. The fetch slot `getTargetsTask` is represented by the result of the fetch
    already under way, if any. The clock is the `now` parameter, and `sixMonthsOn`
    stands for the calendar date six months after it, the default end date. */
module TargetSync {
  import opened Wrappers
  import opened Clock
  import opened ApiErrors
  import opened Keyed
  import opened Targets

  datatype TargetDto = TargetDto(
    id: string,
    name: string,
    emoji: Option<string>,
    strategy: Option<string>,
    currency: Option<string>,
    amountSaved: Option<real>,
    amountTarget: Option<real>,
    expectedStartAt: Option<Date>,
    expectedEndAt: Option<Date>,
    remindWeekly: Option<bool>,
    remindMonthly: Option<bool>,
    completed: Option<bool>,
    archived: Option<bool>,
    createdAt: Option<Date>,
    updatedAt: Option<Date>)

  /** The emoji of a target that has none, a direct hit. */
  const DefaultTargetEmoji := "\U{1F3AF}"

  /** The strategy named by the DTO; an unknown or missing name is the open strategy. */
  function StrategyFromDto(strategy: Option<string>): (r: TargetStrategy)
    ensures strategy.Some? && TargetStrategyFromRaw(strategy.value).Some? ==> r.RawValue() == strategy.value
    ensures strategy.Some? && TargetStrategyFromRaw(strategy.value).None? ==> r == Open
    ensures strategy.None? ==> r == Open
  {
    if strategy.Some? then TargetStrategyFromRaw(strategy.value).GetOr(Open) else Open
  }

  /** `Target(from:)`: missing amounts are 0, the currency is USD, the monthly reminder
      is on and every other flag off; missing dates are now, or six months on for the
      end date. */
  function TargetFromDto(dto: TargetDto, now: Date, sixMonthsOn: Date): (t: Target)
    ensures t.id == dto.id && t.name == dto.name && t.userId == ""
  {
    Target(
      id := dto.id,
      userId := "",
      emoji := dto.emoji.GetOr(DefaultTargetEmoji),
      name := dto.name,
      strategy := StrategyFromDto(dto.strategy),
      currency := dto.currency.GetOr("USD"),
      amountSaved := dto.amountSaved.GetOr(0.0),
      amountTarget := dto.amountTarget.GetOr(0.0),
      expectedStartAt := dto.expectedStartAt.GetOr(now),
      expectedEndAt := dto.expectedEndAt.GetOr(sixMonthsOn),
      remindWeekly := dto.remindWeekly.GetOr(false),
      remindMonthly := dto.remindMonthly.GetOr(true),
      completed := dto.completed.GetOr(false),
      archived := dto.archived.GetOr(false),
      createdAt := dto.createdAt.GetOr(now),
      updatedAt := dto.updatedAt.GetOr(now))
  }

  /** A DTO with nothing but its id and name is an open, active target in US dollars
      with no progress, that reminds monthly and not weekly. */
  lemma BareTargetDefaults(id: string, name: string, now: Date, sixMonthsOn: Date)
    ensures var t := TargetFromDto(TargetDto(id, name, None, None, None, None, None, None, None, None, None, None, None, None, None), now, sixMonthsOn);
      && t.strategy == Open && t.currency == "USD" && t.emoji == DefaultTargetEmoji
      && t.IsActive() && t.Progress() == 0.0 && t.AmountRemaining() == 0.0
      && t.remindMonthly && !t.remindWeekly
      && t.expectedStartAt == now && t.expectedEndAt == sixMonthsOn
  {
  }

  /** The DTO that encodes a target with every field present. */
  function TargetToDto(t: Target): TargetDto
  {
    TargetDto(t.id, t.name, Some(t.emoji), Some(t.strategy.RawValue()), Some(t.currency),
              Some(t.amountSaved), Some(t.amountTarget), Some(t.expectedStartAt), Some(t.expectedEndAt),
              Some(t.remindWeekly), Some(t.remindMonthly), Some(t.completed), Some(t.archived),
              Some(t.createdAt), Some(t.updatedAt))
  }

  /** The mapper loses only the owner, which the DTO does not carry. */
  lemma TargetFromDtoRoundTrip(t: Target, now: Date, sixMonthsOn: Date)
    requires t.userId == ""
    ensures TargetFromDto(TargetToDto(t), now, sixMonthsOn) == t
  {
    TargetStrategyRoundTrip(t.strategy, t.strategy);
  }

  function MapTargetDtos(dtos: seq<TargetDto>, now: Date, sixMonthsOn: Date): (r: seq<Target>)
    ensures |r| == |dtos|
    ensures forall i :: 0 <= i < |dtos| ==> r[i] == TargetFromDto(dtos[i], now, sixMonthsOn)
  {
    seq(|dtos|, i requires 0 <= i < |dtos| => TargetFromDto(dtos[i], now, sixMonthsOn))
  }

  function TargetId(t: Target): string
  {
    t.id
  }

  /** The cache edit of `updateTarget`: archiving drops every target with the id;
      any other update puts the server's target in place of the first one with the id. */
  function UpdatedTargets(targets: seq<Target>, id: string, archived: Option<bool>, target: Target): seq<Target>
  {
    if archived == Some(true) then RemoveKey(targets, TargetId, id)
    else ReplaceFirst(targets, TargetId, id, target)
  }

  /** What an update does to the cached ids: archiving removes the id and keeps the
      others, any other update keeps the same ids when the server's target has the id;
      an id that is not cached leaves the list as it was. */
  lemma UpdatedTargetsEffect(targets: seq<Target>, id: string, archived: Option<bool>, target: Target)
    ensures archived == Some(true) ==> Keys(UpdatedTargets(targets, id, archived, target), TargetId) == Keys(targets, TargetId) - {id}
    ensures archived != Some(true) && target.id == id ==>
      Keys(UpdatedTargets(targets, id, archived, target), TargetId) == Keys(targets, TargetId)
    ensures id !in Keys(targets, TargetId) ==> UpdatedTargets(targets, id, archived, target) == targets
  {
    RemoveKeyEffect(targets, TargetId, id);
    ReplaceFirstChanges(targets, TargetId, id, target);
    if target.id == id {
      ReplaceFirstSameKey(targets, TargetId, id, target);
    }
  }

  class TargetService {
    /** `_cachedTargets`. */
    var cache: Option<seq<Target>>
    /** Occupancy of `getTargetsTask`: the result of a fetch already under way. */
    var inFlight: Option<Result<seq<Target>, Thrown>>

    constructor ()
      ensures cache == None && inFlight == None
    {
      cache := None;
      inFlight := None;
    }

    /** `cachedTargets`: the cache, or nothing when there is none. */
    function CachedTargets(): (r: seq<Target>)
      reads this
      ensures cache.Some? ==> r == cache.value
      ensures cache.None? ==> r == []
    {
      cache.GetOr([])
    }

    /** `getTargets(force:)`. A fetch under way answers every caller; a cached list
        that is not empty answers an unforced call; otherwise the server's list
        replaces the cache wholesale, or its failure is passed on with the cache as it
        was. The slot is free again after. */
    method GetTargets(force: bool, answer: Result<seq<TargetDto>, Thrown>, now: Date, sixMonthsOn: Date)
      returns (r: Result<seq<Target>, Thrown>)
      modifies this
      ensures old(inFlight).Some? ==> r == old(inFlight).value && cache == old(cache) && inFlight == old(inFlight)
      ensures old(inFlight).None? && old(CachedTargets()) != [] && !force ==>
        r == Success(old(cache).value) && cache == old(cache) && inFlight == None
      ensures old(inFlight).None? && (old(CachedTargets()) == [] || force) ==>
        && inFlight == None
        && match answer
           case Success(dtos) => r == Success(MapTargetDtos(dtos, now, sixMonthsOn)) && cache == Some(r.value)
           case Failure(e) => r == Failure(e) && cache == old(cache)
    {
      if inFlight.Some? {
        return inFlight.value;
      }
      if cache.Some? && cache.value != [] && !force {
        return Success(cache.value);
      }
      var task: Result<seq<Target>, Thrown> :=
        if answer.Success? then Success(MapTargetDtos(answer.value, now, sixMonthsOn)) else Failure(answer.error);
      inFlight := Some(task);
      if task.Success? {
        cache := Some(task.value);
      }
      inFlight := None;
      return task;
    }

    /** `createTarget(_:)`: the server's target goes in front of the cached list; with
        nothing cached the list is that target alone. */
    method CreateTarget(answer: Result<TargetDto, Thrown>, now: Date, sixMonthsOn: Date) returns (r: Result<Target, Thrown>)
      modifies this
      ensures inFlight == old(inFlight)
      ensures answer.Failure? ==> r == Failure(answer.error) && cache == old(cache)
      ensures answer.Success? ==>
        && r == Success(TargetFromDto(answer.value, now, sixMonthsOn))
        && cache == Some([r.value] + old(CachedTargets()))
    {
      if answer.Failure? {
        return Failure(answer.error);
      }
      var target := TargetFromDto(answer.value, now, sixMonthsOn);
      var targets := CachedTargets();
      targets := [target] + targets;
      cache := Some(targets);
      return Success(target);
    }

    /** `updateTarget(id:input:)`, of whose input only `archived` matters here: the
        cached list is edited by `UpdatedTargets`, and a missing cache stays missing. */
    method UpdateTarget(id: string, archived: Option<bool>, answer: Result<TargetDto, Thrown>, now: Date, sixMonthsOn: Date)
      returns (r: Result<Target, Thrown>)
      modifies this
      ensures inFlight == old(inFlight)
      ensures answer.Failure? ==> r == Failure(answer.error) && cache == old(cache)
      ensures answer.Success? ==>
        && r == Success(TargetFromDto(answer.value, now, sixMonthsOn))
        && cache == if old(cache).None? then None else Some(UpdatedTargets(old(cache).value, id, archived, r.value))
    {
      if answer.Failure? {
        return Failure(answer.error);
      }
      var target := TargetFromDto(answer.value, now, sixMonthsOn);
      if cache.Some? {
        var targets := cache.value;
        if archived == Some(true) {
          targets := RemoveKey(targets, TargetId, id);
        } else {
          var index := FirstIndexOf(targets, TargetId, id);
          if index.Some? {
            targets := targets[index.value := target];
          }
        }
        cache := Some(targets);
      }
      return Success(target);
    }

    /** `clearCache`: no cached list and no fetch under way. */
    method ClearCache()
      modifies this
      ensures cache == None && inFlight == None
    {
      cache := None;
      inFlight := None;
    }
  }
}
