# archcomp client pipeline, modelled in Dafny

This project models what `client.py` does with each CSV file it finds in the
`Archcomp` folder on Google Drive. It covers the per-file pipeline:

- the schema check `validate`: both headers `system` and `property` must be
  present, and every `system` value must be one of eight benchmark codes;
- the gate `download_and_preprocess`: a file whose extension is not `.csv` is
  skipped; any other file is downloaded into `data/<id>` and then validated;
- the tool adapter `process`: it writes the job descriptor for the
  falsification tool, runs the tool, and treats any output containing
  `Exception` as a failure;
- the local workspace: the set of `data/<id>` directories, created by
  `download_csv_file` and removed by `cleanup`;
- the loop of `execute`, which handles every file of the first listing page
  in order. Files on later pages are only logged.

Drive, the subprocesses and CSV parsing are inputs rather than models.
For each file, an `Env` value says three things:

- whether the download raises `HttpError`, whether writing the downloaded
  file into `data/<id>` raises an `OSError` after the directory was made, or
  a parsed table is delivered;
- what the tool run does (staging raised, tool raised, or finished with
  some output);
- whether removing the file's directory hits an OS error.

Modules, one per component of `client.py`:

- `Validation` (`validation.dfy`): `validate`.
- `FileNames` (`filenames.dfy`): `os.path.splitext` and `name.split(".")[0]`.
- `Falstar` (`falstar.dfy`): the descriptor text, the descriptor file name,
  and how the tool's output is classified.
- `LocalWorkspace` (`workspace.dfy`): class `Workspace`. Its field `dirs` holds
  the set of file ids whose directory exists.
- `Client` (`client.dfy`): `download_csv_file`, `download_and_preprocess`,
  `process`, and the loop of `execute`. The loop's methods are proved against
  the reference function `Run`, and the listed properties are lemmas about `Run`.

Things the code does that a reader might not expect:

- **`process` always returns False.** Its `finally` clause ends in
  `return False` (client.py:133-135). In Python, that return replaces both the
  try block's `return True` (client.py:127) and any exception caught on the
  way. So the upload branch of `execute` (client.py:224-226) never runs, and
  no file is ever uploaded. The model keeps this as written:
  - `Client.ProcessResult` is constantly false;
  - `Client.RunNeverUploads` proves the consequence.
  - The branch itself is kept in `Client.PublishIfProcessed`, with the result
    of `process` as a parameter.
- **Validation failure does not clean up.** When validation fails,
  `download_and_preprocess` returns False without calling `cleanup`. The
  directory made by the download stays behind (`Client.RunWorkspaces`).
- **The descriptor's second line ends in 8 spaces.** The backslash continuation
  at client.py:103 pulls the 8 leading spaces of client.py:104 into the text,
  after `(set-log "validation-log.csv")`.
- **The two name splits disagree.** The CSV gate uses the extension after the
  LAST dot. The descriptor name uses the part before the FIRST dot. So
  `a.b.csv` passes the gate and gets the descriptor `a.cfg`.
- **A failed write ends the run.** `download_csv_file` catches only
  `HttpError`. A write into `data/<id>` that raises, for instance because the
  Drive name holds a `/` whose subdirectory does not exist, escapes
  `execute` and `main` after the directory was made. The directory stays
  behind (`Client.RunWorkspaces`).
- **The failure marker is searched in a bytes repr.** `"Exception" in str(p)`
  (client.py:124) looks in the `b'...'` repr of the captured bytes, not in
  the decoded text. The model searches the output itself. The answer is the
  same. The repr keeps printable ASCII characters, replaces every other byte
  by an escape that starts with a backslash, and wraps the whole in `b'...'`.
  `Exception` holds no backslash, and no escape can produce its letters, so
  an escape can neither create an occurrence nor break one.
- **Hidden names have no extension.** Following `os.path.splitext`, a name
  such as `.csv` has no extension at all, so the gate skips it.

## Model

| member | source | states |
|---|---|---|
| `Validation.DistinctValues` | client.py:73 | the set built from the `system` column holds exactly the column's values |
| `Validation.Validate` | client.py:64-76 | fails on missing headers exactly when `system` or `property` is absent, whatever the values; otherwise fails on values exactly when some `system` value is outside the 8 codes; passes exactly when both headers are present and every value is a code; an unparseable file fails |
| `Validation.EmptyTableIsValid` | client.py:70-76 | a table with both headers and zero data rows passes |
| `Validation.ValidateDependsOnValueSet` | client.py:73-75 | the verdict depends only on the set of distinct `system` values, not on order or repetition |
| `FileNames.SplitExtJoins` | client.py:51 | root and extension concatenate back to the name; a non-empty extension starts at a dot and contains no other dot and no `/` |
| `FileNames.CsvSuffix` | client.py:51-52 | a name of the form `<q>.csv` passes the extension test exactly when the base name of `<q>` is not all dots |
| `FileNames.CsvIff` | client.py:51-52 | the gate's extension test passes exactly when the name ends in `.csv` and the base name before that suffix is not all dots |
| `FileNames.BeforeFirstDot` | client.py:106 | the result is the dot-free prefix of the name that ends at its first dot, or the whole name when it has no dot |
| `FileNames.BeforeFirstDotOf` | client.py:106 | a dot-free stem followed by nothing or by a dot yields exactly that stem |
| `Falstar.ContainsIff` | client.py:124 | the substring test succeeds exactly when the marker occurs at some position of the output |
| `Falstar.CfgFileName` | client.py:106-108 | the descriptor's name ends in `.cfg`, and the part before that is the data file's name up to its first dot |
| `Falstar.CfgFileNameOfStem` | client.py:106-108 | `<stem><ext>` with a dot-free stem gets the descriptor `<stem>.cfg` |
| `Falstar.CfgDirectives` | client.py:103-104 | the descriptor is exactly four lines, in order: include `models.cfg`, set-log `validation-log.csv` followed by 8 spaces, set-report `validation-report.csv`, validate `"<filename>"` |
| `Falstar.Classify` | client.py:113-132 | the run counts as a reported failure exactly when the tool finished and its output contains `Exception` (case-sensitive); it succeeds exactly when the output does not contain it; every raised step is a launch failure |
| `Falstar.PlantIsCsv` | client.py:51-52 | `plant.csv` passes the extension test |
| `Falstar.PlantCfgName` | client.py:106-108 | `plant.csv` gets the descriptor `plant.cfg` |
| `Falstar.HiddenCsvIsSkipped` | client.py:51-54 | the hidden name `.csv` has no extension, so the gate skips it |
| `LocalWorkspace.CleanedDirs` | client.py:79-87 | cleaning an id never touches other ids; the id is gone afterwards unless an OS error hit an existing directory |
| `LocalWorkspace.CleanupIdempotent` | client.py:79-87 | cleaning the same id twice leaves what cleaning it once left |
| `LocalWorkspace.Workspace.EnsureDir` | client.py:35-37 | the id's directory exists afterwards, and nothing else changes; an existing directory is kept |
| `LocalWorkspace.Workspace.Cleanup` | client.py:79-87 | reports not-found exactly for an absent id and an OS error exactly for a fault on a present id; never raises; the new directory set is `CleanedDirs` of the old one |
| `Client.DownloadCsvFile` | client.py:21-47 | a download `HttpError` escapes and leaves the directories unchanged; an `OSError` of the write escapes after the id's directory was made; otherwise the content is returned and the id's directory exists |
| `Client.DownloadAndPreprocess` | client.py:50-61 | a non-`.csv` name returns False with no download and no new directory; otherwise a download `HttpError` escapes with no new directory, a write `OSError` escapes (the `try` covers only `validate`) with the directory made, or the result is True exactly when `validate` passes, and the directory made by the download stays even when validation fails |
| `Client.Process` | client.py:90-135 | whatever the tool run does, `process` returns False and cleans up the file's directory; the verdict is `Classify` of the run; unless staging raised, it writes `CfgFileName` with text `CfgText` |
| `Client.PublishIfProcessed` | client.py:224-226 | upload and the following cleanup happen exactly when `process` returned True |
| `Client.HandleFile` | client.py:221-226 | one loop iteration: the gate, then `process` and the publish step only for a file the gate let through; matches `StepEvent` and `StepDirs` (including whether the results were uploaded), and reports an exception escaping the gate |
| `Client.Execute` | client.py:217-237 | the events, directories and abort flag are those of `Run` over the first page; later pages are listed and logged only if the first page is not empty and no exception escaped the gate |
| `Client.LogLaterPages` | client.py:228-237 | every file of every later page yields a log event, in page order, and nothing else happens to it |
| `Client.ListedPageLogsEach` | client.py:235-237 | a later page yields exactly one `Listed` event per file, the k-th for the k-th file |
| `Client.ListedPagesOnlyLog` | client.py:228-237 | every event the later pages produce is a log event: no gate, no `process`, no upload |
| `Client.HandleFirstPage` | client.py:221-226 | the loop over the first page yields exactly the events, directories and abort flag of `Run` over that page |
| `Client.RunFollowsListing` | client.py:221-226 | the k-th event belongs to the k-th listed file; unless an exception escaped the gate, every file has its event |
| `Client.RunAbortsIffRaise` | client.py:221-222 | the run is cut short exactly when, for some listed `.csv` file, the download raises `HttpError` or writing it raises `OSError` |
| `Client.RunStopsAtFirstRaise` | client.py:221-222 | an aborted run ends with the event of the first file whose download or write raised; no earlier file's gate raised |
| `Client.RunNeverUploads` | client.py:127-135 | every processed file's `process` call returned False and its results were not uploaded, even when the tool accepted it |
| `Client.RunWorkspaces` | client.py:221-226 | with distinct ids: a rejected file keeps its directory, and so does a file whose write raised; an accepted file's directory is gone unless removal hit an OS error; skipped files, a file whose fetch raised, files after an abort and unlisted ids keep their state |
| `Client.OnlyRejectedFilesLeaveDirectories` | client.py:55-60 | with distinct new ids, no OS errors and no abort, a listed file's directory is left afterwards exactly when the file failed validation |

## Left out

- Google Drive calls are remote I/O and are not modelled. This covers folder
  lookup and creation, listing and pagination requests, downloads in chunks,
  and `upload_files` (client.py:138-216). What a download does is an input.
  Drive can fail while listing or uploading; those `HttpError`s are not
  modelled.
- `upload_files` rebinds its loop variable `file` (client.py:178). Its final
  `delete` (client.py:187) therefore removes the last uploaded object, not the
  input file. This sits inside the unmodelled Drive code, and that code is
  unreachable anyway because `process` always returns False.
- The OAuth and credential start-up in `main`, and `SCOPES`
  (client.py:240-271), deal with token files and a browser flow.
- The `scp` and `bash falstar.sh` subprocesses (client.py:94-120) are
  external. Their effect is the abstract `VerifierRun` input. The files they
  write into the directory are not tracked; the workspace is modelled only as
  which directories exist.
- pandas CSV parsing (client.py:65) is not modelled. A table arrives as its
  headers and its `system` cells, or as unreadable. pandas turns cells into
  numbers or NaN, but the model treats every cell as a string.
- Logging setup and log messages carry no behaviour and are left out.
- `Client.DownloadCsvFile`: whether writing the downloaded file raises is an
  input (`WriteOsError`). It is not derived from the name. Whether a name
  with a `/`, or an absolute name, can be written depends on what already
  exists on disk, and the model tracks only which `data/<id>` exist.
- Creating `data/<id>` assumes `data/` exists. The `FileNotFoundError` that
  `os.mkdir` raises when it does not is left out.
- `LocalWorkspace.Workspace.Cleanup`: does not model a partial removal. An OS
  error from `shutil.rmtree` keeps the whole directory.
- `Falstar.CfgDirectives`: stated only for file names without a newline
  character. A name containing one would split the last directive over
  several lines.
- Splitting a file by a grouping key, merging partition outputs, and
  relocating the input after publishing do not exist in this `client.py` and
  are not modelled.
