/** The library window's import flow: an information alert, the folder
    picker and a failure alert, driven by one status field whose every
    assignment sets the three "is showing" flags. */
module ImportFlows {
  import opened Wrappers

  datatype ImportStatus = Idle | Info | Importing | Failure | Success

  /** The status `advanceImportFlow` assigns from `status`, given the optional
      outcome of an import; `None` when it assigns nothing. */
  function Next(status: ImportStatus, result: Option<ImportStatus>): (r: Option<ImportStatus>)
    ensures r.None? <==> status == Success
    ensures status == Importing ==> r == Some(if result.Some? then result.value else Info)
    ensures r == Some(Idle) ==> status == Importing && result == Some(Idle)
    ensures r == Some(Importing) ==> status == Info || status == Failure || result == Some(Importing)
  {
    match status
    case Idle => Some(Info)
    case Info => Some(Importing)
    case Importing => if result.None? then Some(Info) else result
    case Failure => Some(Importing)
    case Success => None
  }

  /** An outcome matters only while the picker is up. */
  lemma ResultIgnoredOutsideImporting(status: ImportStatus, result: Option<ImportStatus>)
    requires status != Importing
    ensures Next(status, result) == Next(status, None)
  {
  }

  /** The status after advancing once per outcome in `results`, in order. */
  function Run(status: ImportStatus, results: seq<Option<ImportStatus>>): ImportStatus
    decreases |results|
  {
    if results == [] then status
    else
      var next := Next(status, results[0]);
      Run(if next.Some? then next.value else status, results[1..])
  }

  /** Once an import succeeded, no advance leaves `Success`. */
  lemma {:induction false} SuccessIsFinal(results: seq<Option<ImportStatus>>)
    ensures Run(Success, results) == Success
    decreases |results|
  {
    if results != [] {
      SuccessIsFinal(results[1..]);
    }
  }

  /** Advancing never returns to `Idle` unless an outcome is `Idle` itself. */
  lemma {:induction false} NeverBackToIdle(status: ImportStatus, results: seq<Option<ImportStatus>>)
    requires status != Idle
    requires forall k :: 0 <= k < |results| ==> results[k] != Some(Idle)
    ensures Run(status, results) != Idle
    decreases |results|
  {
    if results != [] {
      var next := Next(status, results[0]);
      NeverBackToIdle(if next.Some? then next.value else status, results[1..]);
    }
  }

  /** The first launch: the information alert, then the picker; a good folder
      ends the flow, a bad one leads back to the picker, a cancelled picker
      back to the information alert. */
  lemma FirstImport()
    ensures Run(Idle, [None, None, Some(Success)]) == Success
    ensures Run(Idle, [None, None, Some(Failure), None, Some(Success)]) == Success
    ensures Run(Idle, [None, None, None]) == Info
  {
  }

  /** The view model: the status and the three flags that present the
      information alert, the picker and the failure alert. */
  class ImportFlow {
    var importStatus: ImportStatus
    var isShowingImportInfo: bool
    var isShowingImportDialogue: bool
    var isShowingImportFailure: bool

    /** What the `didSet` observer establishes. */
    predicate FlagsMatch()
      reads this
    {
      isShowingImportInfo == (importStatus == Info) && isShowingImportDialogue == (importStatus == Importing)
      && isShowingImportFailure == (importStatus == Failure)
    }

    /** Property initializers run without the observer: idle, nothing shown. */
    constructor ()
      ensures importStatus == Idle && FlagsMatch()
      ensures !isShowingImportInfo && !isShowingImportDialogue && !isShowingImportFailure
    {
      importStatus := Idle;
      isShowingImportInfo := false;
      isShowingImportDialogue := false;
      isShowingImportFailure := false;
    }

    /** An assignment to `importStatus`, followed by its `didSet`. */
    method SetStatus(status: ImportStatus)
      modifies this
      ensures importStatus == status && FlagsMatch()
    {
      importStatus := status;
      isShowingImportInfo := importStatus == Info;
      isShowingImportDialogue := importStatus == Importing;
      isShowingImportFailure := importStatus == Failure;
    }

    /** `advanceImportFlow(result:)`. */
    method Advance(result: Option<ImportStatus>)
      modifies this
      ensures Next(old(importStatus), result).None? ==> unchanged(this)
      ensures Next(old(importStatus), result).Some? ==>
        importStatus == Next(old(importStatus), result).value && FlagsMatch()
    {
      match importStatus
      case Idle =>
        SetStatus(Info);
      case Info =>
        SetStatus(Importing);
      case Importing =>
        if result.None? {
          SetStatus(Info);
        } else {
          SetStatus(result.value);
        }
      case Failure =>
        SetStatus(Importing);
      case Success =>
    }
  }

  /** While the flags match the status, at most one dialogue is presented. */
  lemma AtMostOneDialogue(flow: ImportFlow)
    requires flow.FlagsMatch()
    ensures !(flow.isShowingImportInfo && flow.isShowingImportDialogue)
    ensures !(flow.isShowingImportInfo && flow.isShowingImportFailure)
    ensures !(flow.isShowingImportDialogue && flow.isShowingImportFailure)
  {
  }
}
