/** `ReportService`: the cache of monthly spending reports, the test that decides
    whether the cache can answer a request, and the upsert of fetched reports.

    A server call is represented by its answer, the report DTOs or the error the call
    would throw. The report payload is the already decoded content of the DTO's JSON
    strings. The fetch slots `getReportsTask` are represented by the results of the
    fetches under way, keyed like the source's dictionary. */
module ReportSync {
  import opened Wrappers
  import opened ApiErrors
  import opened Text
  import opened Keyed

  datatype ReportSum = ReportSum(total: real, diff: real, transfer: real, purchase: real, atm: real, credit: real, debit: real)

  /** The decoded dictionaries of a report. */
  datatype ReportContent = ReportContent(
    cards: map<string, string>,
    counts: map<string, string>,
    merchantCategories: map<string, string>,
    orgNames: map<string, string>,
    sums: map<string, ReportSum>)

  datatype ReportDto = ReportDto(id: string, content: ReportContent)

  datatype Report = Report(id: string, content: ReportContent, isCurrent: bool)

  /** `Report(from:isCurrent:)`, past the decoding of the payload. */
  function ReportFromDto(dto: ReportDto, isCurrent: bool): (r: Report)
    ensures r.id == dto.id && r.content == dto.content && r.isCurrent == isCurrent
  {
    Report(dto.id, dto.content, isCurrent)
  }

  /** The fetched reports, one per DTO and in order, all flagged with `isCurrent`. */
  function MapReportDtos(dtos: seq<ReportDto>, isCurrent: bool): (r: seq<Report>)
    ensures |r| == |dtos|
    ensures forall i :: 0 <= i < |r| ==> r[i].id == dtos[i].id && r[i].isCurrent == isCurrent
  {
    seq(|dtos|, i requires 0 <= i < |dtos| => ReportFromDto(dtos[i], isCurrent))
  }

  function ReportId(r: Report): string
  {
    r.id
  }

  /** The key of the fetch slot for a request: the ids joined by commas. */
  function SlotKey(ids: seq<string>): string
  {
    Join(ids, ",")
  }

  /** The slot key does not tell apart an id that holds a comma from the ids around
      it, so such requests would share one fetch. */
  lemma SlotKeysCanCollide()
    ensures ["a,b"] != ["a", "b"] && SlotKey(["a,b"]) == SlotKey(["a", "b"])
  {
    assert ["a", "b"][1..] == ["b"];
  }

  /** The set of requested ids. */
  function IdSet(ids: seq<string>): set<string>
  {
    set i | i in ids
  }

  /** No id is requested twice. */
  predicate NoRepeats(ids: seq<string>)
  {
    forall i, j :: 0 <= i < j < |ids| ==> ids[i] != ids[j]
  }

  /** `cachedForIds`: the cached reports whose id is requested, in cache order. */
  function CachedForIds(cached: seq<Report>, ids: seq<string>): (r: seq<Report>)
    ensures forall i :: 0 <= i < |r| ==> r[i] in cached && r[i].id in ids
    ensures forall i :: 0 <= i < |cached| && cached[i].id in ids ==> cached[i] in r
  {
    WithKeys(cached, ReportId, IdSet(ids))
  }

  /** The cache answers when it holds as many requested reports as ids were asked for. */
  predicate IsCacheHit(cached: seq<Report>, ids: seq<string>)
  {
    |CachedForIds(cached, ids)| == |ids|
  }

  /** A list of ids has at most as many distinct ids as entries, and exactly as many
      when no id repeats. */
  lemma {:induction false} IdSetCount(ids: seq<string>)
    ensures |IdSet(ids)| <= |ids|
    ensures |IdSet(ids)| == |ids| <==> NoRepeats(ids)
  {
    if ids != [] {
      var tail := ids[1..];
      IdSetCount(tail);
      assert IdSet(ids) == {ids[0]} + IdSet(tail) by {
        assert ids == [ids[0]] + tail;
      }
      NoRepeatsCons(ids);
    }
  }

  /** A list has no repeats exactly when its head is not in its tail and its tail has
      none. */
  lemma NoRepeatsCons(ids: seq<string>)
    requires ids != []
    ensures NoRepeats(ids) <==> ids[0] !in ids[1..] && NoRepeats(ids[1..])
  {
    var tail := ids[1..];
    if ids[0] in tail {
      var j :| 0 <= j < |tail| && tail[j] == ids[0];
      assert ids[j + 1] == ids[0];
    } else if NoRepeats(tail) {
      forall i, j | 0 <= i < j < |ids|
        ensures ids[i] != ids[j]
      {
        assert ids[j] == tail[j - 1];
        if i > 0 {
          assert ids[i] == tail[i - 1];
        }
      }
    } else {
      var i, j :| 0 <= i < j < |tail| && tail[i] == tail[j];
      assert ids[i + 1] == ids[j + 1];
    }
  }

  /** A set has at most as many elements in common with `k` as it has, and exactly
      as many when it lies inside `k`. */
  lemma CommonCount(s: set<string>, k: set<string>)
    ensures |k * s| <= |s|
    ensures |k * s| == |s| <==> s <= k
  {
    assert s == (k * s) + (s - k) && (k * s) * (s - k) == {};
    assert |s| == |k * s| + |s - k|;
    if |s - k| == 0 {
      assert s - k == {};
    } else {
      var x :| x in s - k;
    }
  }

  /** With a cache whose ids are distinct, the cache answers exactly when no id is
      requested twice and every requested id is cached. A request that repeats an id
      is always sent to the server. */
  lemma CacheHitExactly(cached: seq<Report>, ids: seq<string>)
    requires DistinctKeys(cached, ReportId)
    ensures IsCacheHit(cached, ids) <==> NoRepeats(ids) && IdSet(ids) <= Keys(cached, ReportId)
  {
    var k, s := Keys(cached, ReportId), IdSet(ids);
    var f := WithKeys(cached, ReportId, s);
    WithKeysKeys(cached, ReportId, s);
    WithKeysDistinct(cached, ReportId, s);
    DistinctKeysCount(f, ReportId);
    assert |f| == |k * s|;
    IdSetCount(ids);
    CommonCount(s, k);
  }

  /** An empty request is answered from the cache, with nothing. */
  lemma EmptyRequestIsHit(cached: seq<Report>)
    ensures IsCacheHit(cached, []) && CachedForIds(cached, []) == []
  {
    assert IdSet([]) == {};
    WithKeysNone(cached, ReportId);
  }

  /** Without distinct cached ids the test could be fooled: two cached reports for
      "a" pass for a request of "a" and "b" while "b" is missing. */
  lemma RepeatedCachedIdsFoolTheTest(c: ReportContent)
    ensures var cached := [Report("a", c, false), Report("a", c, true)];
      IsCacheHit(cached, ["a", "b"]) && "b" !in Keys(CachedForIds(cached, ["a", "b"]), ReportId)
  {
    var cached := [Report("a", c, false), Report("a", c, true)];
    var ids := IdSet(["a", "b"]);
    assert ids == {"a", "b"};
    assert cached[1..] == [cached[1]] && cached[1..][1..] == [];
    assert WithKeys(cached[1..], ReportId, ids) == [cached[1]];
    assert CachedForIds(cached, ["a", "b"]) == cached;
  }

  /** The cache after a fetch: each fetched report, in order, replaces the first cached
      report with its id or is appended. */
  function UpsertAll(existing: seq<Report>, reports: seq<Report>): seq<Report>
    decreases |reports|
  {
    if reports == [] then existing
    else Upsert(UpsertAll(existing, reports[..|reports| - 1]), ReportId, reports[|reports| - 1])
  }

  /** The merged cache holds the old ids and the fetched ones, and is no shorter. */
  lemma {:induction false} UpsertAllKeys(existing: seq<Report>, reports: seq<Report>)
    ensures Keys(UpsertAll(existing, reports), ReportId) == Keys(existing, ReportId) + Keys(reports, ReportId)
    ensures |existing| <= |UpsertAll(existing, reports)|
  {
    if reports != [] {
      var prefix, x := reports[..|reports| - 1], reports[|reports| - 1];
      assert reports == prefix + [x];
      UpsertAllKeys(existing, prefix);
      UpsertEffect(UpsertAll(existing, prefix), ReportId, x);
      KeysAppend(prefix, [x], ReportId);
      KeysSingleton(x, ReportId);
    }
  }

  /** Every cached report whose id was not fetched keeps its place. */
  lemma {:induction false} UpsertAllKeepsOthers(existing: seq<Report>, reports: seq<Report>, i: nat)
    requires i < |existing| && existing[i].id !in Keys(reports, ReportId)
    ensures i < |UpsertAll(existing, reports)| && UpsertAll(existing, reports)[i] == existing[i]
  {
    if reports != [] {
      var prefix, x := reports[..|reports| - 1], reports[|reports| - 1];
      assert reports == prefix + [x];
      KeysAppend(prefix, [x], ReportId);
      UpsertAllKeepsOthers(existing, prefix, i);
      UpsertEffect(UpsertAll(existing, prefix), ReportId, x);
    }
  }

  /** Merging never puts two reports with one id in a cache that had none. */
  lemma {:induction false} UpsertAllDistinct(existing: seq<Report>, reports: seq<Report>)
    requires DistinctKeys(existing, ReportId)
    ensures DistinctKeys(UpsertAll(existing, reports), ReportId)
  {
    if reports != [] {
      UpsertAllDistinct(existing, reports[..|reports| - 1]);
      UpsertDistinct(UpsertAll(existing, reports[..|reports| - 1]), ReportId, reports[|reports| - 1]);
    }
  }

  /** When fetched ids repeat, the last report with an id wins: over a cache with
      distinct ids, the last fetched report is the only entry with its id. */
  lemma UpsertAllLastWins(existing: seq<Report>, reports: seq<Report>)
    requires DistinctKeys(existing, ReportId) && reports != []
    ensures var merged, last := UpsertAll(existing, reports), reports[|reports| - 1];
      last in merged && forall i :: 0 <= i < |merged| && merged[i].id == last.id ==> merged[i] == last
  {
    var prefix, last := reports[..|reports| - 1], reports[|reports| - 1];
    UpsertAllDistinct(existing, prefix);
    UpsertOnlyEntry(UpsertAll(existing, prefix), ReportId, last);
  }

  /** When the server sends each id once, every fetched report ends up in the cache. */
  lemma {:induction false} UpsertAllHoldsFetched(existing: seq<Report>, reports: seq<Report>)
    requires DistinctKeys(reports, ReportId)
    ensures forall x :: x in reports ==> x in UpsertAll(existing, reports)
  {
    if reports != [] {
      var prefix, last := reports[..|reports| - 1], reports[|reports| - 1];
      var before := UpsertAll(existing, prefix);
      assert DistinctKeys(prefix, ReportId) by {
        assert forall i :: 0 <= i < |prefix| ==> prefix[i] == reports[i];
      }
      UpsertAllHoldsFetched(existing, prefix);
      UpsertEffect(before, ReportId, last);
      forall x | x in reports
        ensures x in UpsertAll(existing, reports)
      {
        if x != last {
          var i :| 0 <= i < |reports| && reports[i] == x;
          assert i < |prefix| && x in prefix;
          assert x.id != last.id;
          var j :| 0 <= j < |before| && before[j] == x;
          assert UpsertAll(existing, reports)[j] == x;
        }
      }
    }
  }

  class ReportService {
    /** `_cachedReports`. */
    var cache: Option<seq<Report>>
    /** `getReportsTask`: the result of each fetch under way, by slot key. */
    var inFlight: map<string, Result<seq<Report>, Thrown>>

    /** No two cached reports share an id. */
    predicate Valid()
      reads this
    {
      cache.Some? ==> DistinctKeys(cache.value, ReportId)
    }

    constructor ()
      ensures Valid()
      ensures cache == None && inFlight == map[]
    {
      cache := None;
      inFlight := map[];
    }

    /** `cachedReports`: the cache, or nothing when there is none. */
    function CachedReports(): (r: seq<Report>)
      reads this
      ensures cache.Some? ==> r == cache.value
      ensures cache.None? ==> r == []
    {
      cache.GetOr([])
    }

    /** The update of `getReports`: the fetched reports merged into the cached ones. */
    static method MergeReports(cached: seq<Report>, reports: seq<Report>) returns (existing: seq<Report>)
      ensures existing == UpsertAll(cached, reports)
    {
      existing := cached;
      for i := 0 to |reports|
        invariant existing == UpsertAll(cached, reports[..i])
      {
        var report := reports[i];
        assert reports[..i + 1][..i] == reports[..i];
        var index := FirstIndexOf(existing, ReportId, report.id);
        if index.Some? {
          existing := existing[index.value := report];
        } else {
          existing := existing + [report];
        }
      }
      assert reports[..|reports|] == reports;
    }

    /** The fetch of `getReports` and the merge of its result into the cache. */
    method FetchReports(isCurrent: bool, answer: Result<seq<ReportDto>, Thrown>)
      returns (task: Result<seq<Report>, Thrown>)
      requires Valid()
      modifies this
      ensures Valid()
      ensures inFlight == old(inFlight)
      ensures answer.Success? ==>
        task == Success(MapReportDtos(answer.value, isCurrent)) && cache == Some(UpsertAll(old(CachedReports()), task.value))
      ensures answer.Failure? ==> task == Failure(answer.error) && cache == old(cache)
    {
      if answer.Failure? {
        return Failure(answer.error);
      }
      var reports := MapReportDtos(answer.value, isCurrent);
      var cached := CachedReports();
      var existing := MergeReports(cached, reports);
      UpsertAllDistinct(cached, reports);
      cache := Some(existing);
      return Success(reports);
    }

    /** `getReports(ids:isCurrent:)`. A fetch under way with the same slot key answers
        the call; a cache hit answers with the cached reports for the ids, in cache
        order; otherwise all the ids are fetched, the reports (flagged `isCurrent`) are
        merged into the cache, and the fetched list itself is the answer. A failure
        leaves the cache as it was. The slot is free again after, so the slots are
        as they were. */
    method GetReports(ids: seq<string>, isCurrent: bool, answer: Result<seq<ReportDto>, Thrown>)
      returns (r: Result<seq<Report>, Thrown>)
      requires Valid()
      modifies this
      ensures Valid()
      ensures SlotKey(ids) in old(inFlight) ==>
        r == old(inFlight)[SlotKey(ids)] && cache == old(cache) && inFlight == old(inFlight)
      ensures SlotKey(ids) !in old(inFlight) && IsCacheHit(old(CachedReports()), ids) ==>
        r == Success(CachedForIds(old(CachedReports()), ids)) && cache == old(cache) && inFlight == old(inFlight)
      ensures SlotKey(ids) !in old(inFlight) && !IsCacheHit(old(CachedReports()), ids) ==>
        && inFlight == old(inFlight)
        && (answer.Success? ==>
             r == Success(MapReportDtos(answer.value, isCurrent)) && cache == Some(UpsertAll(old(CachedReports()), r.value)))
        && (answer.Failure? ==> r == Failure(answer.error) && cache == old(cache))
    {
      var key := SlotKey(ids);
      if key in inFlight {
        return inFlight[key];
      }
      var cachedForIds := CachedForIds(CachedReports(), ids);
      if |cachedForIds| == |ids| {
        return Success(cachedForIds);
      }
      // The slot under `key` is taken only while the fetch is under way.
      r := FetchReports(isCurrent, answer);
    }

    /** `clearCache`: no cached reports and no fetch under way. */
    method ClearCache()
      modifies this
      ensures Valid()
      ensures cache == None && inFlight == map[]
    {
      cache := None;
      inFlight := map[];
    }
  }
}
