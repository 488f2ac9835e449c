/** File import jobs: their status enumeration and the progress figures derived from
    the page counters. Ratios are reals: floating-point rounding is not modelled. */
module ImportJobs {
  import opened Wrappers
  import opened Clock
  import opened Numbers

  datatype ImportJobStatus = Pending | Processing | Completed | Failed
  {
    /** The wire name of the case. */
    function RawValue(): string
    {
      match this
      case Pending => "PENDING"
      case Processing => "PROCESSING"
      case Completed => "COMPLETED"
      case Failed => "FAILED"
    }

    /** `displayName`. */
    function DisplayName(): string
    {
      match this
      case Pending => "Pending"
      case Processing => "Processing"
      case Completed => "Completed"
      case Failed => "Failed"
    }

    /** `emoji`: an hourglass, arrows in a circle, a check mark, a cross. */
    function Emoji(): string
    {
      match this
      case Pending => "\U{23F3}"
      case Processing => "\U{1F504}"
      case Completed => "\U{2705}"
      case Failed => "\U{274C}"
    }

    /** `isTerminal`: the job will not change status again. */
    predicate IsTerminal()
    {
      this == Completed || this == Failed
    }
  }

  /** `ImportJobStatus(rawValue:)`: the case with exactly that wire name, if any. */
  function ImportJobStatusFromRaw(s: string): (r: Option<ImportJobStatus>)
    ensures r.Some? ==> r.value.RawValue() == s
  {
    match s
    case "PENDING" => Some(Pending)
    case "PROCESSING" => Some(Processing)
    case "COMPLETED" => Some(Completed)
    case "FAILED" => Some(Failed)
    case _ => None
  }

  /** Every status survives a trip through its wire name, and the names differ. */
  lemma ImportJobStatusRoundTrip(p: ImportJobStatus, q: ImportJobStatus)
    ensures ImportJobStatusFromRaw(p.RawValue()) == Some(p)
    ensures p.RawValue() == q.RawValue() ==> p == q
  {
  }

  datatype ImportFileJob = ImportFileJob(
    id: string,
    fileName: string,
    fileType: string,
    pagesCount: int,
    pagesFailedTotal: int,
    pagesProcessedTotal: int,
    transactionsTotal: int,
    purchasesTotal: int,
    transfersTotal: int,
    atmTotal: int,
    creditTotal: int,
    debitTotal: int,
    s3FilesUploadUrls: seq<string>,
    status: string,
    errors: Option<seq<string>>,
    createdAt: Option<Date>,
    startedAt: Option<Date>,
    finishedAt: Option<Date>)
  {
    /** `jobStatus`: the status the wire name denotes; an unrecognised name reads as
        pending. */
    function JobStatus(): (r: ImportJobStatus)
      ensures ImportJobStatusFromRaw(status).Some? ==> r.RawValue() == status
      ensures ImportJobStatusFromRaw(status).None? ==> r == Pending
    {
      ImportJobStatusFromRaw(status).GetOr(Pending)
    }

    predicate IsCompleted()
    {
      JobStatus() == Completed
    }

    predicate IsFailed()
    {
      JobStatus() == Failed
    }

    predicate IsProcessing()
    {
      JobStatus() == Processing
    }

    /** `progress`: the processed share of the pages; a job with no pages has made no
        progress. */
    function Progress(): (r: real)
      ensures pagesCount <= 0 ==> r == 0.0
      ensures pagesCount > 0 ==> r * pagesCount as real == pagesProcessedTotal as real
    {
      if pagesCount <= 0 then 0.0 else pagesProcessedTotal as real / pagesCount as real
    }

    /** `progressPercent`: the progress in hundredths, truncated. */
    function ProgressPercent(): int
    {
      Truncate(Progress() * 100.0)
    }

    /** `hasErrors`. */
    predicate HasErrors()
    {
      errors.Some? && errors.value != []
    }

    /** `processingDuration`: the time from start to finish, known only once both are. */
    function ProcessingDuration(): (r: Option<real>)
      ensures r.Some? <==> startedAt.Some? && finishedAt.Some?
      ensures r.Some? ==> startedAt.value + r.value == finishedAt.value
    {
      if startedAt.Some? && finishedAt.Some? then Some(finishedAt.value - startedAt.value) else None
    }
  }

  /** The three status tests exclude each other, and a job is in a terminal status
      exactly when it is completed or failed. */
  lemma StatusTestsExclusive(job: ImportFileJob)
    ensures !(job.IsCompleted() && job.IsFailed())
    ensures !(job.IsCompleted() && job.IsProcessing())
    ensures !(job.IsFailed() && job.IsProcessing())
    ensures job.JobStatus().IsTerminal() <==> job.IsCompleted() || job.IsFailed()
  {
  }

  /** An unrecognised status is pending and so neither terminal nor under way. */
  lemma UnknownStatusIsPending(job: ImportFileJob)
    requires ImportJobStatusFromRaw(job.status).None?
    ensures !job.JobStatus().IsTerminal() && !job.IsProcessing()
  {
  }

  /** While the processed pages do not outnumber the pages, the progress lies between
      0 and 1 and the percentage between 0 and 100. The figures are not capped: more
      processed pages than pages give a progress above 1. */
  lemma ProgressBounds(job: ImportFileJob)
    requires 0 <= job.pagesProcessedTotal <= job.pagesCount
    ensures 0.0 <= job.Progress() <= 1.0
    ensures 0 <= job.ProgressPercent() <= 100
  {
    if job.pagesCount > 0 {
      ShareBounds(job.pagesProcessedTotal as real, job.pagesCount as real);
    }
  }

  /** The progress is not capped: a job that reports more processed pages than pages
      shows a progress above 1. */
  lemma ProgressNotCapped(job: ImportFileJob)
    requires 0 < job.pagesCount < job.pagesProcessedTotal
    ensures job.Progress() > 1.0
  {
    var c := job.pagesCount as real;
    assert job.Progress() * c > 1.0 * c;
  }

  /** A part of a positive whole is a share between 0 and 1. */
  lemma ShareBounds(part: real, whole: real)
    requires 0.0 <= part <= whole && 0.0 < whole
    ensures 0.0 <= part / whole <= 1.0
  {
  }

  /** `makeJob`, the preview factory; the identifier and the creation time are
      parameters. */
  function MakeJob(id: string, now: Date, fileName: string := "statement.pdf", status: string := "PENDING",
                   pagesCount: int := 10, pagesProcessed: int := 0): (job: ImportFileJob)
    ensures job.pagesCount == pagesCount && job.pagesProcessedTotal == pagesProcessed && job.status == status
    ensures !job.HasErrors() && job.ProcessingDuration().None?
  {
    ImportFileJob(id, fileName, "pdf", pagesCount, 0, pagesProcessed, 0, 0, 0, 0, 0, 0, [], status,
                  None, Some(now), None, None)
  }

  /** The `importJobProgress` test: five of ten pages is half-way, 50 percent, and the
      default job is pending. */
  lemma ImportJobProgressExample(id: string, now: Date)
    ensures var job := MakeJob(id, now, pagesCount := 10, pagesProcessed := 5);
      job.Progress() == 0.5 && job.ProgressPercent() == 50 && job.JobStatus() == Pending
  {
    var job := MakeJob(id, now, pagesCount := 10, pagesProcessed := 5);
    assert job.Progress() == 0.5;
    assert (50.0).Floor == 50;
  }
}
