/**
 * The pure parts of `process` in client.py: the job descriptor it writes for
 * the external falsification tool (client.py:103-111) and the way it reads
 * the tool's captured output (client.py:124-125).
 */
module Falstar {
  import FileNames

  // ---------------------------------------------------------------------
  // Substring search (Python's `pattern in text`)
  // ---------------------------------------------------------------------

  predicate OccursAt(text: string, pattern: string, i: int)
  {
    0 <= i && i + |pattern| <= |text| && text[i..i + |pattern|] == pattern
  }

  function Contains(text: string, pattern: string): bool
    decreases |text|
  {
    if |text| < |pattern| then false
    else text[..|pattern|] == pattern || Contains(text[1..], pattern)
  }

  /** `Contains` finds the pattern exactly when it occurs at some position. */
  lemma {:induction false} ContainsIff(text: string, pattern: string)
    ensures Contains(text, pattern) <==> exists i :: OccursAt(text, pattern, i)
    decreases |text|
  {
    if |text| < |pattern| {
    } else if text[..|pattern|] == pattern {
      assert OccursAt(text, pattern, 0);
    } else {
      ContainsIff(text[1..], pattern);
      if exists i :: OccursAt(text[1..], pattern, i) {
        var i :| OccursAt(text[1..], pattern, i);
        assert text[i + 1..i + 1 + |pattern|] == text[1..][i..i + |pattern|];
        assert OccursAt(text, pattern, i + 1);
      }
      if exists i :: OccursAt(text, pattern, i) {
        var i :| OccursAt(text, pattern, i);
        assert i != 0;
        assert text[1..][i - 1..i - 1 + |pattern|] == text[i..i + |pattern|];
        assert OccursAt(text[1..], pattern, i - 1);
      }
    }
  }

  // ---------------------------------------------------------------------
  // Job descriptor
  // ---------------------------------------------------------------------

  const INCLUDE_DIRECTIVE := "(include \"models.cfg\")"
  const SET_LOG_DIRECTIVE := "(set-log \"validation-log.csv\")"
  const SET_REPORT_DIRECTIVE := "(set-report \"validation-report.csv\")"

  function ValidateDirective(filename: string): string
  {
    "(validate \"" + filename + "\")"
  }

  /**
   * The descriptor text for a data file: the source builds it as one string
   * literal. The backslash at the end of client.py:103 continues that literal
   * onto client.py:104, so that line's 8 leading spaces become part of the
   * text, right after the set-log directive.
   */
  function CfgText(filename: string): string
  {
    INCLUDE_DIRECTIVE + "\n" +
      (SET_LOG_DIRECTIVE + "        " + "\n" + (SET_REPORT_DIRECTIVE + "\n" + ValidateDirective(filename)))
  }

  /** The name of the descriptor file: the data file's name up to its first '.', then ".cfg". */
  function CfgFileName(filename: string): (cfg: string)
    ensures |cfg| >= 4 && cfg[|cfg| - 4..] == ".cfg" && '.' !in cfg[..|cfg| - 4]
    ensures cfg[..|cfg| - 4] <= filename
    ensures |cfg| - 4 < |filename| ==> filename[|cfg| - 4] == '.'
  {
    var stem := FileNames.BeforeFirstDot(filename);
    assert (stem + ".cfg")[..|stem|] == stem;
    stem + ".cfg"
  }

  /** For "plant.csv" (a dot-free stem and its extension) the descriptor is "plant.cfg". */
  lemma CfgFileNameOfStem(stem: string, ext: string)
    requires '.' !in stem
    requires ext == [] || ext[0] == '.'
    ensures CfgFileName(stem + ext) == stem + ".cfg"
  {
    FileNames.BeforeFirstDotOf(stem, ext);
  }

  /** Index of the first `c` in `s` at or after `lo`, or -1. */
  function IndexFrom(s: string, c: char, lo: int): (i: int)
    requires 0 <= lo <= |s|
    ensures i == -1 || lo <= i < |s|
    ensures i >= 0 ==> s[i] == c
    ensures forall k :: lo <= k < |s| && (i < 0 || k < i) ==> s[k] != c
    decreases |s| - lo
  {
    if lo == |s| then -1
    else if s[lo] == c then lo
    else IndexFrom(s, c, lo + 1)
  }

  /** Index of the first `c` in `s`, or -1 (Python's `str.find`). */
  function IndexOf(s: string, c: char): (i: int)
    ensures -1 <= i < |s|
    ensures i >= 0 ==> s[i] == c
    ensures forall k :: 0 <= k < |s| && (i < 0 || k < i) ==> s[k] != c
  {
    IndexFrom(s, c, 0)
  }

  lemma IndexOfAfter(a: string, rest: string, c: char)
    requires c !in a && rest != [] && rest[0] == c
    ensures IndexOf(a + rest, c) == |a|
  {
    var s := a + rest;
    assert s[|a|] == c;
    assert forall k :: 0 <= k < |a| ==> s[k] == a[k] != c;
  }

  /** The lines of a text (Python's `str.split("\n")`). */
  function Lines(s: string): (ls: seq<string>)
    ensures |ls| >= 1
    decreases |s|
  {
    var i := IndexOf(s, '\n');
    if i < 0 then [s] else [s[..i]] + Lines(s[i + 1..])
  }

  lemma LinesCons(a: string, b: string)
    requires '\n' !in a
    ensures Lines(a + "\n" + b) == [a] + Lines(b)
  {
    var s := a + "\n" + b;
    assert s == a + ("\n" + b);
    IndexOfAfter(a, "\n" + b, '\n');
    assert s[..|a|] == a && s[|a| + 1..] == b;
  }

  /** A text without a newline is a single line. */
  lemma OneLine(s: string)
    requires '\n' !in s
    ensures Lines(s) == [s]
  {
  }

  /**
   * The descriptor is exactly four directives, one per line and in this
   * order: include the model file, set the log file, set the report file,
   * validate the data file. The set-log line ends in 8 spaces.
   */
  lemma CfgDirectives(filename: string)
    requires '\n' !in filename
    ensures Lines(CfgText(filename)) ==
              [INCLUDE_DIRECTIVE, SET_LOG_DIRECTIVE + "        ", SET_REPORT_DIRECTIVE,
               ValidateDirective(filename)]
  {
    var l1, l2, l3, l4 := INCLUDE_DIRECTIVE, SET_LOG_DIRECTIVE + "        ",
                          SET_REPORT_DIRECTIVE, ValidateDirective(filename);
    DirectivesAreSingleLines();
    ValidateIsOneLine(filename);
    var t3 := l3 + "\n" + l4;
    var t2 := l2 + "\n" + t3;
    LinesCons(l3, l4);
    LinesCons(l2, t3);
    LinesCons(l1, t2);
    FourLines(l1, l2, l3, l4);
  }

  lemma FourLines<T>(a: T, b: T, c: T, d: T)
    ensures [a] + ([b] + ([c] + [d])) == [a, b, c, d]
  {
  }

  lemma DirectivesAreSingleLines()
    ensures '\n' !in INCLUDE_DIRECTIVE
    ensures '\n' !in SET_LOG_DIRECTIVE + "        "
    ensures '\n' !in SET_REPORT_DIRECTIVE
  {
  }

  lemma ValidateIsOneLine(filename: string)
    requires '\n' !in filename
    ensures Lines(ValidateDirective(filename)) == [ValidateDirective(filename)]
  {
    assert '\n' !in ValidateDirective(filename);
    OneLine(ValidateDirective(filename));
  }

  // ---------------------------------------------------------------------
  // Running the tool and reading its output
  // ---------------------------------------------------------------------

  /** The text whose presence in the captured output marks a failed run (case-sensitive). */
  const FAILURE_MARKER := "Exception"

  /**
   * What the subprocesses of one `process` call did, as far as the model sees:
   * `StagingRaised`: copying models.cfg or writing the descriptor raised;
   * `ToolRaised`: launching the tool raised or it exited with a non-zero status;
   * `Finished`: the tool exited with status 0 and printed `output`.
   */
  datatype VerifierRun = StagingRaised | ToolRaised | Finished(output: string)

  /**
   * Which handler of `process` ran: none (the try block reached `return True`),
   * `except ValueError` (raised on the failure marker), or `except Exception`.
   */
  datatype Verdict = Succeeded | ReportedFailure | LaunchFailure

  function Classify(run: VerifierRun): (v: Verdict)
    ensures v == Succeeded <==>
              run.Finished? && forall i :: !OccursAt(run.output, FAILURE_MARKER, i)
    ensures v == ReportedFailure <==>
              run.Finished? && exists i :: OccursAt(run.output, FAILURE_MARKER, i)
    ensures v == LaunchFailure <==> !run.Finished?
  {
    match run
    case Finished(output) =>
      ContainsIff(output, FAILURE_MARKER);
      if Contains(output, FAILURE_MARKER) then ReportedFailure else Succeeded
    case _ => LaunchFailure
  }

  /** A worked example: "plant.csv" passes the CSV gate ... */
  lemma PlantIsCsv()
    ensures FileNames.IsCsv("plant.csv")
  {
    var p := "plant.csv";
    assert p[..|p| - 4] == "plant" && p[|p| - 4..] == ".csv";
    assert FileNames.LastIndexOf("plant", '/') == -1 by {
      assert '/' !in "plant";
    }
    assert !FileNames.AllDots(FileNames.BaseName("plant")) by {
      assert FileNames.BaseName("plant") == "plant";
    }
    FileNames.CsvIff(p);
  }

  /** ... and its descriptor is "plant.cfg". */
  lemma PlantCfgName()
    ensures CfgFileName("plant.csv") == "plant.cfg"
  {
    assert "plant.csv" == "plant" + ".csv";
    CfgFileNameOfStem("plant", ".csv");
  }

  /** A hidden file named ".csv" has no extension, so the gate skips it. */
  lemma HiddenCsvIsSkipped()
    ensures !FileNames.IsCsv(".csv")
  {
    FileNames.CsvIff(".csv");
    assert ".csv"[..0] == [];
  }
}
