/**
 * The per-file pipeline of client.py: the pre-processing gate
 * `download_and_preprocess`, the tool adapter `process`, and the loop of
 * `execute` that drives every listed Drive file through them.
 *
 * Drive and the subprocesses are not modelled; what they do for one file is
 * an input (`Env`): whether the download raises `HttpError`, whether writing
 * the downloaded file raises an `OSError`, or a table is delivered; what the
 * tool run does; and whether removing the file's directory runs into an OS
 * error.
 */
module Client {
  import opened Validation
  import opened FileNames
  import opened Falstar
  import opened LocalWorkspace

  datatype Option<T> = None | Some(value: T)

  /** A file record from the Drive listing. */
  datatype DriveFile = DriveFile(id: FileId, name: string)

  /**
   * What downloading one file does: deliver its parsed content; raise
   * `HttpError` while fetching; or fetch it and then raise an `OSError`
   * when writing it to `data/<id>/<name>` (for instance a name holding a '/'
   * whose subdirectory does not exist, so `open` raises `FileNotFoundError`).
   */
  datatype Fetch = Fetched(data: CsvData) | FetchHttpError | WriteOsError

  /** A Python call that returns a value or lets an `HttpError` or an `OSError` escape. */
  datatype Raises<T> = Returned(value: T) | RaisedHttpError | RaisedOsError

  /** Everything outside the program that decides how one file fares. */
  datatype Env = Env(fetch: Fetch, run: VerifierRun, rmFault: bool)

  datatype Entry = Entry(file: DriveFile, env: Env)

  /** The descriptor file `process` writes into the file's directory: its name and its text. */
  datatype JobFile = JobFile(name: string, text: string)

  // ---------------------------------------------------------------------
  // download_csv_file and download_and_preprocess
  // ---------------------------------------------------------------------

  /**
   * `download_csv_file`: an `HttpError` of the download is logged and
   * re-raised before the directory is made; otherwise `data/<id>` exists
   * afterwards, whether or not it existed before, and an `OSError` of the
   * write escapes (only `HttpError` is caught) after the directory was made.
   */
  method DownloadCsvFile(ws: Workspace, file: DriveFile, fetch: Fetch) returns (r: Raises<CsvData>)
    modifies ws
    ensures fetch.FetchHttpError? ==> r == RaisedHttpError && ws.dirs == old(ws.dirs)
    ensures fetch.WriteOsError? ==> r == RaisedOsError && ws.dirs == old(ws.dirs) + {file.id}
    ensures fetch.Fetched? ==> r == Returned(fetch.data) && ws.dirs == old(ws.dirs) + {file.id}
  {
    match fetch
    case FetchHttpError =>
      r := RaisedHttpError;
    case WriteOsError =>
      ws.EnsureDir(file.id);
      r := RaisedOsError;
    case Fetched(data) =>
      ws.EnsureDir(file.id);
      r := Returned(data);
  }

  /** How the gate treats one file. */
  datatype GateOutcome = Skip | Reject | Accept | RaiseHttpError | RaiseOsError
  {
    /** An exception escapes the gate; nothing in `execute` or `main` lets the loop go on. */
    predicate Raising()
    {
      RaiseHttpError? || RaiseOsError?
    }
  }

  function Gate(name: string, fetch: Fetch): GateOutcome
  {
    if !IsCsv(name) then Skip
    else match fetch
      case FetchHttpError => RaiseHttpError
      case WriteOsError => RaiseOsError
      case Fetched(data) => if Validate(data) == Valid then Accept else Reject
  }

  /**
   * `download_and_preprocess`: a file whose extension is not ".csv" is skipped
   * without a download; any other file is downloaded and validated. A
   * validation failure returns False and leaves the new directory in place.
   */
  method DownloadAndPreprocess(ws: Workspace, file: DriveFile, fetch: Fetch) returns (r: Raises<bool>)
    modifies ws
    ensures !IsCsv(file.name) ==> r == Returned(false) && ws.dirs == old(ws.dirs)
    ensures IsCsv(file.name) && fetch.FetchHttpError? ==>
              r == RaisedHttpError && ws.dirs == old(ws.dirs)
    ensures IsCsv(file.name) && fetch.WriteOsError? ==>
              r == RaisedOsError && ws.dirs == old(ws.dirs) + {file.id}
    ensures IsCsv(file.name) && fetch.Fetched? ==>
              r == Returned(Validate(fetch.data) == Valid) && ws.dirs == old(ws.dirs) + {file.id}
  {
    if Ext(file.name) != ".csv" {
      return Returned(false);
    }
    var data := DownloadCsvFile(ws, file, fetch);
    match data {
      case RaisedHttpError => return RaisedHttpError;
      case RaisedOsError => return RaisedOsError;
      case Returned(_) =>
    }
    if Validate(data.value) != Valid {
      return Returned(false);
    }
    return Returned(true);
  }

  // ---------------------------------------------------------------------
  // process
  // ---------------------------------------------------------------------

  /**
   * The value `process` returns. Its try block would return True exactly on
   * `Succeeded`, but the `return False` in its `finally` clause replaces the
   * try block's outcome, a returned value and a caught exception alike.
   */
  function ProcessResult(verdict: Verdict): bool
  {
    false
  }

  /**
   * `process`: stage the model file, write the descriptor, run the tool and
   * look for the failure marker in its output; whatever happened, the
   * `finally` clause cleans up the file's directory and returns False.
   */
  method Process(ws: Workspace, file: DriveFile, run: VerifierRun, rmFault: bool)
    returns (ok: bool, verdict: Verdict, ghost job: Option<JobFile>)
    modifies ws
    ensures verdict == Classify(run)
    ensures ok == ProcessResult(verdict) && !ok
    ensures job == if run.StagingRaised? then None
                   else Some(JobFile(CfgFileName(file.name), CfgText(file.name)))
    ensures ws.dirs == CleanedDirs(old(ws.dirs), file.id, rmFault)
  {
    job := None;
    match run {
      case StagingRaised =>
        verdict := LaunchFailure;
      case ToolRaised =>
        job := Some(JobFile(CfgFileName(file.name), CfgText(file.name)));
        verdict := LaunchFailure;
      case Finished(output) =>
        job := Some(JobFile(CfgFileName(file.name), CfgText(file.name)));
        if Contains(output, FAILURE_MARKER) {
          verdict := ReportedFailure;
        } else {
          verdict := Succeeded;
        }
    }
    // finally:
    var _ := ws.Cleanup(file.id, rmFault);
    ok := ProcessResult(verdict);
  }

  /**
   * The body of `if process(file):` in `execute`: upload the file's results
   * (remote, not modelled) and clean up its directory, only on True.
   */
  method PublishIfProcessed(ws: Workspace, file: DriveFile, ok: bool, rmFault: bool)
    returns (uploaded: bool)
    modifies ws
    ensures uploaded == ok
    ensures ws.dirs == if ok then CleanedDirs(old(ws.dirs), file.id, rmFault) else old(ws.dirs)
  {
    uploaded := false;
    if ok {
      uploaded := true;
      var _ := ws.Cleanup(file.id, rmFault);
    }
  }

  // ---------------------------------------------------------------------
  // execute
  // ---------------------------------------------------------------------

  /** What `execute` did with one listed file, in the order it did it. */
  datatype Event =
    | Declined(id: FileId)              // the gate returned False
    | Processed(id: FileId, verdict: Verdict, returned: bool, uploaded: bool)
                                        // `process` ran and returned `returned`; the results were uploaded or not
    | DownloadRaised(id: FileId)        // the download's HttpError ended the run
    | WriteRaised(id: FileId)           // writing the downloaded file raised an OSError, which ended the run
    | Listed(id: FileId)                                        // on a later page: only logged

  datatype Trace = Trace(events: seq<Event>, dirs: set<FileId>, aborted: bool)

  function Prepend(ev: Event, t: Trace): Trace
  {
    Trace([ev] + t.events, t.dirs, t.aborted)
  }

  function GateOf(e: Entry): GateOutcome
  {
    Gate(e.file.name, e.env.fetch)
  }

  /** The event one first-page file produces. */
  function StepEvent(e: Entry): Event
  {
    match GateOf(e)
    case RaiseHttpError => DownloadRaised(e.file.id)
    case RaiseOsError => WriteRaised(e.file.id)
    case Skip => Declined(e.file.id)
    case Reject => Declined(e.file.id)
    case Accept =>
      var verdict := Classify(e.env.run);
      Processed(e.file.id, verdict, ProcessResult(verdict), ProcessResult(verdict))
  }

  /** The directories after one first-page file has been handled. */
  function StepDirs(e: Entry, d: set<FileId>): set<FileId>
  {
    var id := e.file.id;
    match GateOf(e)
    case RaiseHttpError => d
    case RaiseOsError => d + {id}
    case Skip => d
    case Reject => d + {id}
    case Accept =>
      var afterProcess := CleanedDirs(d + {id}, id, e.env.rmFault);
      if ProcessResult(Classify(e.env.run)) then CleanedDirs(afterProcess, id, e.env.rmFault)
      else afterProcess
  }

  /** The reference for the loop over the first page: files in listing order, from directories `d`. */
  function Run(es: seq<Entry>, d: set<FileId>): Trace
    decreases |es|
  {
    if es == [] then Trace([], d, false)
    else if GateOf(es[0]).Raising() then Trace([StepEvent(es[0])], StepDirs(es[0], d), true)
    else Prepend(StepEvent(es[0]), Run(es[1..], StepDirs(es[0], d)))
  }

  // ---------------------------------------------------------------------
  // What the loop over the first page guarantees
  // ---------------------------------------------------------------------

  /**
   * Files are handled one by one in listing order: the k-th event is the k-th
   * file's, and when no exception escaped the gate, every file has its event.
   */
  lemma {:induction false} RunFollowsListing(es: seq<Entry>, d: set<FileId>)
    ensures var t := Run(es, d);
            |t.events| <= |es| &&
            (forall k :: 0 <= k < |t.events| ==> t.events[k] == StepEvent(es[k])) &&
            (!t.aborted ==> |t.events| == |es|)
    decreases |es|
  {
    if es != [] && !GateOf(es[0]).Raising() {
      var d1 := StepDirs(es[0], d);
      RunFollowsListing(es[1..], d1);
      var t, t1 := Run(es, d), Run(es[1..], d1);
      assert t.events == [StepEvent(es[0])] + t1.events;
      assert t.events[0] == StepEvent(es[0]);
      forall k | 0 < k < |t.events| ensures t.events[k] == StepEvent(es[k]) {
        assert t.events[k] == t1.events[k - 1] && es[k] == es[1..][k - 1];
      }
    }
  }

  /** The run is cut short exactly when the download or the write of some file raises. */
  lemma {:induction false} RunAbortsIffRaise(es: seq<Entry>, d: set<FileId>)
    ensures Run(es, d).aborted <==> exists k :: 0 <= k < |es| && GateOf(es[k]).Raising()
    decreases |es|
  {
    if es != [] && !GateOf(es[0]).Raising() {
      RunAbortsIffRaise(es[1..], StepDirs(es[0], d));
      if exists k :: 0 <= k < |es| && GateOf(es[k]).Raising() {
        var k :| 0 <= k < |es| && GateOf(es[k]).Raising();
        assert es[1..][k - 1] == es[k];
      }
    }
  }

  /** An aborted run stops right after the first file whose download or write raised: its event is the last. */
  lemma {:induction false} RunStopsAtFirstRaise(es: seq<Entry>, d: set<FileId>)
    ensures var n := |Run(es, d).events|;
            Run(es, d).aborted ==>
              0 < n <= |es| && GateOf(es[n - 1]).Raising() &&
              forall k :: 0 <= k < n - 1 ==> !GateOf(es[k]).Raising()
    decreases |es|
  {
    if es != [] && !GateOf(es[0]).Raising() {
      var d1 := StepDirs(es[0], d);
      RunStopsAtFirstRaise(es[1..], d1);
      var t, t1 := Run(es, d), Run(es[1..], d1);
      assert |t.events| == |t1.events| + 1 && t.aborted == t1.aborted;
      if t.aborted {
        var n := |t.events|;
        forall k | 0 <= k < n - 1 ensures !GateOf(es[k]).Raising() {
          if k > 0 {
            assert es[k] == es[1..][k - 1];
          }
        }
        assert es[n - 1] == es[1..][n - 2];
      }
    }
  }

  /**
   * Since `process` always returns False, no file is ever uploaded, not even
   * one the tool accepted.
   */
  lemma {:induction false} RunNeverUploads(es: seq<Entry>, d: set<FileId>)
    ensures forall k :: 0 <= k < |Run(es, d).events| ==>
              (Run(es, d).events[k].Processed? ==>
                 !Run(es, d).events[k].returned && !Run(es, d).events[k].uploaded)
    decreases |es|
  {
    if es != [] && !GateOf(es[0]).Raising() {
      var d1 := StepDirs(es[0], d);
      RunNeverUploads(es[1..], d1);
      assert Run(es, d).events == [StepEvent(es[0])] + Run(es[1..], d1).events;
    }
  }

  predicate DistinctIds(es: seq<Entry>)
  {
    forall i, j :: 0 <= i < j < |es| ==> es[i].file.id != es[j].file.id
  }

  /** Whether a handled file's directory exists afterwards, given whether it existed before. */
  function Leaves(e: Entry, present: bool): bool
  {
    match GateOf(e)
    case RaiseHttpError => present
    case RaiseOsError => true
    case Skip => present
    case Reject => true
    case Accept => e.env.rmFault
  }

  /**
   * The directories after the loop: a rejected file keeps the directory its
   * download made, and so does a file whose write raised; an accepted file's
   * directory is gone unless removing it ran into an OS error; skipped files,
   * a file whose fetch raised, files after the one that raised and ids of no
   * listed file keep whatever state they had.
   */
  lemma {:induction false} RunWorkspaces(es: seq<Entry>, d: set<FileId>)
    requires DistinctIds(es)
    ensures forall x :: (forall k :: 0 <= k < |es| ==> es[k].file.id != x) ==>
                          (x in Run(es, d).dirs <==> x in d)
    ensures forall k :: 0 <= k < |es| ==>
              (es[k].file.id in Run(es, d).dirs <==>
                 if k < |Run(es, d).events| then Leaves(es[k], es[k].file.id in d)
                 else es[k].file.id in d)
    decreases |es|
  {
    if es != [] && !GateOf(es[0]).Raising() {
      var e, rest := es[0], es[1..];
      var d1 := StepDirs(e, d);
      assert DistinctIds(rest) by {
        forall i, j | 0 <= i < j < |rest| ensures rest[i].file.id != rest[j].file.id {
          assert rest[i] == es[i + 1] && rest[j] == es[j + 1];
        }
      }
      RunWorkspaces(rest, d1);
      var t, t1 := Run(es, d), Run(rest, d1);
      assert t.dirs == t1.dirs && |t.events| == |t1.events| + 1;
      assert forall x :: x != e.file.id ==> (x in d1 <==> x in d);
      assert e.file.id in d1 <==> Leaves(e, e.file.id in d);
      forall x | forall k :: 0 <= k < |es| ==> es[k].file.id != x
        ensures x in t.dirs <==> x in d
      {
        assert es[0].file.id != x;
        forall k | 0 <= k < |rest| ensures rest[k].file.id != x {
          assert rest[k] == es[k + 1];
        }
      }
      forall k | 0 <= k < |es|
        ensures es[k].file.id in t.dirs <==>
                  if k < |t.events| then Leaves(es[k], es[k].file.id in d) else es[k].file.id in d
      {
        if k == 0 {
          forall j | 0 <= j < |rest| ensures rest[j].file.id != e.file.id {
            assert rest[j] == es[j + 1];
          }
        } else {
          assert es[k] == rest[k - 1];
          assert es[k].file.id != e.file.id;
        }
      }
    } else if es != [] {
      var t := Run(es, d);
      assert t.dirs == StepDirs(es[0], d) && |t.events| == 1;
      assert es[0].file.id in t.dirs <==> Leaves(es[0], es[0].file.id in d);
      forall k | 0 < k < |es| ensures es[k].file.id in t.dirs <==> es[k].file.id in d {
        assert es[k].file.id != es[0].file.id;
      }
    }
  }

  /**
   * With distinct ids, no directory present beforehand, no OS error and no
   * exception escaping the gate, a listed file's directory is left over exactly
   * when the file was rejected.
   */
  lemma OnlyRejectedFilesLeaveDirectories(es: seq<Entry>, d: set<FileId>)
    requires DistinctIds(es)
    requires forall k :: 0 <= k < |es| ==> es[k].file.id !in d && !es[k].env.rmFault
    requires !Run(es, d).aborted
    ensures forall k :: 0 <= k < |es| ==> (es[k].file.id in Run(es, d).dirs <==> GateOf(es[k]) == Reject)
  {
    RunFollowsListing(es, d);
    RunAbortsIffRaise(es, d);
    RunWorkspaces(es, d);
    forall k | 0 <= k < |es| ensures es[k].file.id in Run(es, d).dirs <==> GateOf(es[k]) == Reject {
      assert k < |Run(es, d).events| && !GateOf(es[k]).Raising();
    }
  }

  function ListedPage(files: seq<DriveFile>): seq<Event>
    decreases |files|
  {
    if files == [] then []
    else ListedPage(files[..|files| - 1]) + [Listed(files[|files| - 1].id)]
  }

  function ListedPages(pages: seq<seq<DriveFile>>): seq<Event>
    decreases |pages|
  {
    if pages == [] then []
    else ListedPages(pages[..|pages| - 1]) + ListedPage(pages[|pages| - 1])
  }

  /** Each file of a later page yields one log event, in page order. */
  lemma {:induction false} ListedPageLogsEach(files: seq<DriveFile>)
    ensures |ListedPage(files)| == |files|
    ensures forall k :: 0 <= k < |files| ==> ListedPage(files)[k] == Listed(files[k].id)
    decreases |files|
  {
    if files != [] {
      var init := files[..|files| - 1];
      ListedPageLogsEach(init);
      forall k | 0 <= k < |init| ensures ListedPage(files)[k] == Listed(files[k].id) {
        assert init[k] == files[k];
      }
    }
  }

  /** Files of later pages are only logged: every event they produce is a `Listed` one. */
  lemma {:induction false} ListedPagesOnlyLog(pages: seq<seq<DriveFile>>)
    ensures forall k :: 0 <= k < |ListedPages(pages)| ==> ListedPages(pages)[k].Listed?
    decreases |pages|
  {
    if pages != [] {
      var init, last := pages[..|pages| - 1], pages[|pages| - 1];
      ListedPagesOnlyLog(init);
      ListedPageLogsEach(last);
      var a: seq<Event>, b: seq<Event> := ListedPages(init), ListedPage(last);
      forall k | 0 <= k < |a + b| ensures (a + b)[k].Listed? {
        if k >= |a| {
          assert (a + b)[k] == b[k - |a|];
        }
      }
    }
  }

  /**
   * The body of the `for file in files` loop of `execute` for one file:
   * gate it, and when the gate lets it through, run `process` and the
   * publish step. `raised` says that the download's `HttpError` or the
   * write's `OSError` escaped.
   */
  method HandleFile(ws: Workspace, e: Entry) returns (ev: Event, raised: bool)
    modifies ws
    ensures ev == StepEvent(e)
    ensures raised <==> GateOf(e).Raising()
    ensures ws.dirs == StepDirs(e, old(ws.dirs))
  {
    var gate := DownloadAndPreprocess(ws, e.file, e.env.fetch);
    match gate {
      case RaisedHttpError => return DownloadRaised(e.file.id), true;
      case RaisedOsError => return WriteRaised(e.file.id), true;
      case Returned(passed) =>
        if !passed {
          return Declined(e.file.id), false;   // continue
        }
    }
    var ok, verdict, job := Process(ws, e.file, e.env.run, e.env.rmFault);
    var uploaded := PublishIfProcessed(ws, e.file, ok, e.env.rmFault);
    return Processed(e.file.id, verdict, ok, uploaded), false;
  }

  /**
   * `execute`, from the listing of the base folder's files on: every file of
   * the first page goes through the gate, `process` and the publish step in
   * listing order; a download's `HttpError` or a write's `OSError` ends the run. Only when the first
   * page is not empty are the later pages requested, and their files are only
   * logged.
   */
  method Execute(ws: Workspace, firstPage: seq<Entry>, laterPages: seq<seq<DriveFile>>)
    returns (events: seq<Event>, aborted: bool)
    modifies ws
    ensures var t := Run(firstPage, old(ws.dirs));
            ws.dirs == t.dirs && aborted == t.aborted &&
            events == t.events + if aborted || firstPage == [] then [] else ListedPages(laterPages)
  {
    if firstPage == [] {
      return [], false;   // "No new files found."
    }
    events, aborted := HandleFirstPage(ws, firstPage);
    if !aborted {
      var listed := LogLaterPages(laterPages);
      events := events + listed;
    }
  }

  lemma RunCons(es: seq<Entry>, d: set<FileId>)
    requires es != []
    ensures var raises := GateOf(es[0]).Raising();
            Run(es, d) == if raises then Trace([StepEvent(es[0])], StepDirs(es[0], d), true)
                          else Prepend(StepEvent(es[0]), Run(es[1..], StepDirs(es[0], d)))
  {
  }

  /** The `for file in files` loop of `execute` over the first page. */
  method HandleFirstPage(ws: Workspace, files: seq<Entry>) returns (events: seq<Event>, aborted: bool)
    modifies ws
    ensures Trace(events, ws.dirs, aborted) == Run(files, old(ws.dirs))
  {
    events := [];
    var i := 0;
    while i < |files|
      invariant 0 <= i <= |files|
      invariant var rest := Run(files[i..], ws.dirs);
                Run(files, old(ws.dirs)) == Trace(events + rest.events, rest.dirs, rest.aborted)
    {
      ghost var rest := files[i..];
      assert rest[0] == files[i] && rest[1..] == files[i + 1..];
      RunCons(rest, ws.dirs);
      var ev, raised := HandleFile(ws, files[i]);
      if raised {
        return events + [ev], true;
      }
      ghost var tail := Run(files[i + 1..], ws.dirs);
      assert events + [ev] + tail.events == events + ([ev] + tail.events);
      events := events + [ev];
      i := i + 1;
    }
    assert files[i..] == [];
    aborted := false;
  }

  /** The `while "nextPageToken" in results` loop: every file of every later page is only logged. */
  method LogLaterPages(laterPages: seq<seq<DriveFile>>) returns (events: seq<Event>)
    ensures events == ListedPages(laterPages)
  {
    events := [];
    var p := 0;
    while p < |laterPages|
      invariant 0 <= p <= |laterPages|
      invariant events == ListedPages(laterPages[..p])
    {
      var page := laterPages[p];
      var j := 0;
      while j < |page|
        invariant 0 <= j <= |page|
        invariant events == ListedPages(laterPages[..p]) + ListedPage(page[..j])
      {
        assert page[..j + 1][..j] == page[..j];
        events := events + [Listed(page[j].id)];
        j := j + 1;
      }
      assert page[..j] == page;
      assert laterPages[..p + 1][..p] == laterPages[..p];
      p := p + 1;
    }
    assert laterPages[..p] == laterPages;
  }
}
