/**
 * The session-start pipeline around the summary generator: the trigger filter,
 * the loading of the two intelligence documents, and the output sink that wraps
 * the summary in `codebase-intelligence` tags. Reading stdin and the files is
 * outside the model; what they deliver arrives as already-parsed values.
 */
module SessionHook {
  import opened Wrappers
  import opened Text
  import opened IntelSummary

  /** The invocation payload; `source` is absent when the field is missing or not a string. */
  datatype Payload = Payload(source: Option<string>)

  /** What reading and parsing one intelligence document produced. */
  datatype Document<T> = Absent | Malformed | Parsed(value: T)

  /** The session-start reasons that get a summary: a fresh start and a resumed session. */
  const TRIGGER_SOURCES: seq<string> := ["startup", "resume"]
  const OPEN_TAG := "<codebase-intelligence>\n"
  const CLOSE_TAG := "\n</codebase-intelligence>"

  /** The conventions used when the conventions document does not exist. */
  const DEFAULT_CONVENTIONS := Conventions(Some(Naming(None)), Some([]), Some([]))

  /** The trigger filter: proceed only for a fresh start or a resume. */
  function ShouldInject(source: Option<string>): (r: bool)
    ensures r <==> source == Some("startup") || source == Some("resume")
  {
    source.Some? && source.value in TRIGGER_SOURCES
  }

  function Wrap(summary: string): string {
    OPEN_TAG + summary + CLOSE_TAG
  }

  /** Recovers the summary from written output, when the output carries both tags. */
  function Unwrap(output: string): Option<string> {
    if |output| >= |OPEN_TAG| + |CLOSE_TAG|
       && output[..|OPEN_TAG|] == OPEN_TAG
       && output[|output| - |CLOSE_TAG|..] == CLOSE_TAG
    then Some(output[|OPEN_TAG|..|output| - |CLOSE_TAG|])
    else None
  }

  /** The wrapped summary can always be taken back out of the tags. */
  lemma UnwrapWrap(summary: string)
    ensures Unwrap(Wrap(summary)) == Some(summary)
  {
  }

  /**
   * The output sink: JavaScript's `if (summary)` writes nothing for a missing
   * summary and nothing for an empty one either.
   */
  function Emit(summary: Option<string>): (output: string)
    ensures output == "" <==> summary.None? || summary.value == ""
    ensures output != "" ==> Unwrap(output) == summary
  {
    if summary.Some? && summary.value != "" then
      UnwrapWrap(summary.value);
      Wrap(summary.value)
    else ""
  }

  /** The conventions the generator sees: the parsed document, or the default when there is none. */
  function ConventionsOrDefault(conventions: Document<Conventions>): Conventions {
    if conventions.Parsed? then conventions.value else DEFAULT_CONVENTIONS
  }

  /**
   * Everything the hook writes for one invocation. `payload` is absent when stdin
   * is not valid JSON; any malformed document ends the run silently.
   */
  function SessionOutput(payload: Option<Payload>, index: Document<FileIndex>, conventions: Document<Conventions>): string {
    if payload.None? || !ShouldInject(payload.value.source) then ""
    else if !index.Parsed? || conventions.Malformed? then ""
    else Emit(Summary(index.value, ConventionsOrDefault(conventions)))
  }

  /** The hook's run, with its early exits, using the step-by-step generator. */
  method RunSessionStart(payload: Option<Payload>, index: Document<FileIndex>, conventions: Document<Conventions>)
    returns (output: string)
    ensures output == SessionOutput(payload, index, conventions)
  {
    output := "";
    if payload.None? {
      return;
    }
    if !ShouldInject(payload.value.source) {
      return;
    }
    if index.Absent? || index.Malformed? {
      return;
    }
    var effective := DEFAULT_CONVENTIONS;
    match conventions {
      case Malformed => return;
      case Parsed(c) => effective := c;
      case Absent =>
    }
    var summary := GenerateSummary(index.value, effective);
    if summary.Some? && summary.value != "" {
      output := Wrap(summary.value);
    }
  }

  /**
   * The hook writes something exactly when the trigger matches, both documents
   * are usable and the index lists a file; what it writes is then the summary
   * inside the tags. An empty summary never occurs, so `if (summary)` only
   * filters out the missing one.
   */
  lemma SessionOutputIff(payload: Option<Payload>, index: Document<FileIndex>, conventions: Document<Conventions>)
    ensures SessionOutput(payload, index, conventions) != "" <==>
      && payload.Some? && ShouldInject(payload.value.source)
      && index.Parsed? && !conventions.Malformed?
      && |Files(index.value)| > 0
    ensures SessionOutput(payload, index, conventions) != "" ==>
      SessionOutput(payload, index, conventions)
        == Wrap(Summary(index.value, ConventionsOrDefault(conventions)).value)
  {
  }

  /** Outside a fresh start or a resume nothing is written, whatever the documents hold. */
  lemma OtherSourcesWriteNothing(source: Option<string>, index: Document<FileIndex>, conventions: Document<Conventions>)
    requires source != Some("startup") && source != Some("resume")
    ensures SessionOutput(Some(Payload(source)), index, conventions) == ""
  {
  }

  /** A missing conventions document behaves as one whose fields are all missing. */
  lemma MissingConventionsAreEmpty(index: FileIndex)
    ensures Summary(index, DEFAULT_CONVENTIONS) == Summary(index, Conventions(None, None, None))
    ensures |Files(index)| > 0 ==>
      SummaryLines(index, DEFAULT_CONVENTIONS) == [HeaderLine(|Files(index)|)] + ExportSection(AllExports(Files(index)))
  {
  }

  /** Three files without exports, no conventions document, a fresh start: only the file count is written. */
  lemma ScenarioThreeFilesNoConventions()
    ensures
      var record := FileRecord(None);
      var index := FileIndex(Some([("a.js", record), ("b.js", record), ("c.js", record)]));
      SessionOutput(Some(Payload(Some("startup"))), Parsed(index), Absent) == OPEN_TAG + "Indexed files: 3" + CLOSE_TAG
  {
  }

  /** Two files with twelve distinct exports besides one default export. */
  const TWELVE_EXPORT_FILES: seq<(string, FileRecord)> := [
    ("src/a.js", FileRecord(Some(["a1", "a2", "a3", "a4", "default", "a5", "a6"]))),
    ("src/b.js", FileRecord(Some(["b1", "b2", "b3", "b4", "b5", "b6"])))]

  /** Conventions with two directories, one suffix pattern and no naming record. */
  const TWO_DIRECTORY_CONVENTIONS := Conventions(None,
    Some([("src", DirectoryInfo("source", "2")), ("lib", DirectoryInfo("library", "0"))]),
    Some([(".test.js", SuffixInfo("tests", "4"))]))

  /** The default export is left out of the total, and twelve names are too many to list. */
  lemma TwelveExportsCounted()
    ensures |AllExports(TWELVE_EXPORT_FILES)| == 12
    ensures ExportSection(AllExports(TWELVE_EXPORT_FILES)) == ["", TotalLine(12)]
  {
  }

  /** Both convention sections are shown in full, in document order. */
  lemma TwoDirectoriesShown()
    ensures
      var dirs := Directories(TWO_DIRECTORY_CONVENTIONS);
      var suffixes := Suffixes(TWO_DIRECTORY_CONVENTIONS);
      && DirectorySection(TWO_DIRECTORY_CONVENTIONS) == ["", DIRECTORIES_TITLE, DirectoryLine(dirs[0]), DirectoryLine(dirs[1])]
      && SuffixSection(TWO_DIRECTORY_CONVENTIONS) == ["", SUFFIXES_TITLE, SuffixLine(suffixes[0])]
  {
  }

  /**
   * Twelve exports, two directories and one suffix pattern: both sections and
   * the total are shown, the names are not.
   */
  lemma ScenarioTwelveExports()
    ensures
      var dirs := Directories(TWO_DIRECTORY_CONVENTIONS);
      var suffixes := Suffixes(TWO_DIRECTORY_CONVENTIONS);
      SummaryLines(FileIndex(Some(TWELVE_EXPORT_FILES)), TWO_DIRECTORY_CONVENTIONS)
        == [HeaderLine(2)]
         + ["", DIRECTORIES_TITLE, DirectoryLine(dirs[0]), DirectoryLine(dirs[1])]
         + ["", SUFFIXES_TITLE, SuffixLine(suffixes[0])]
         + ["", TotalLine(12)]
  {
    TwelveExportsCounted();
    TwoDirectoriesShown();
    assert NamingSection(TWO_DIRECTORY_CONVENTIONS) == [];
    assert |Files(FileIndex(Some(TWELVE_EXPORT_FILES)))| == 2;
  }
}
