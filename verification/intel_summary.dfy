/**
 * The summary generator of the session-start hook: it compresses a file index
 * and a conventions report into a short digest of at most MAX_LINES lines, or
 * reports that there is nothing to say.
 *
 * JSON objects are modelled as sequences of (key, record) pairs in the order
 * `Object.entries` yields them, because that order decides which entries are
 * shown. A field the source reads as `x || {}` or `x || []` is an `Option`.
 * Numbers the upstream documents carry (a percentage, file counts) are kept as
 * the text a template literal renders for them.
 */
module IntelSummary {
  import opened Wrappers
  import opened Text

  /** An index entry: the names a file exports, in the order the indexer listed them. */
  datatype FileRecord = FileRecord(exports: Option<seq<string>>)

  /** The index document: file path to record. */
  datatype FileIndex = FileIndex(files: Option<seq<(string, FileRecord)>>)

  /** `naming.exports`: the most common export naming style and its rendered percentage. */
  datatype NamingExports = NamingExports(dominant: Option<string>, percentage: string)

  datatype Naming = Naming(exports: Option<NamingExports>)

  /** A directory's inferred purpose and its rendered file count. */
  datatype DirectoryInfo = DirectoryInfo(purpose: string, files: string)

  /** A file-suffix pattern's inferred purpose and its rendered count. */
  datatype SuffixInfo = SuffixInfo(purpose: string, count: string)

  /** The conventions document; every part may be missing. */
  datatype Conventions = Conventions(
    naming: Option<Naming>,
    directories: Option<seq<(string, DirectoryInfo)>>,
    suffixes: Option<seq<(string, SuffixInfo)>>)

  /** The export name that stands for a default export and carries no name of its own. */
  const DEFAULT_EXPORT := "default"
  const MAX_DIRECTORIES := 5
  const MAX_SUFFIXES := 3
  const MAX_LISTED_EXPORTS := 10
  /** Header, naming line, two sections of title plus entries, and three export lines. */
  const MAX_LINES := 1 + 1 + (2 + MAX_DIRECTORIES) + (2 + MAX_SUFFIXES) + 3

  const HEADER_PREFIX := "Indexed files: "
  const NAMING_PREFIX := "Export naming: "
  const DIRECTORIES_TITLE := "Key directories:"
  const SUFFIXES_TITLE := "File patterns:"
  const ENTRY_INDENT := "  "
  const TOTAL_PREFIX := "Total exports: "
  const NAMES_PREFIX := "Exports: "

  function Min(a: int, b: int): int {
    if a <= b then a else b
  }

  /** `index.files || {}` */
  function Files(index: FileIndex): seq<(string, FileRecord)> {
    index.files.GetOr([])
  }

  /** `fileData.exports || []` */
  function ExportsOf(record: FileRecord): seq<string> {
    record.exports.GetOr([])
  }

  /** `conventions.directories || {}` */
  function Directories(conventions: Conventions): seq<(string, DirectoryInfo)> {
    conventions.directories.GetOr([])
  }

  /** `conventions.suffixes || {}` */
  function Suffixes(conventions: Conventions): seq<(string, SuffixInfo)> {
    conventions.suffixes.GetOr([])
  }

  /** `conventions.naming?.exports?.dominant` is truthy: present and a non-empty string. */
  predicate HasDominant(conventions: Conventions) {
    && conventions.naming.Some?
    && conventions.naming.value.exports.Some?
    && conventions.naming.value.exports.value.dominant.Some?
    && conventions.naming.value.exports.value.dominant.value != ""
  }

  function HeaderLine(fileCount: nat): string {
    HEADER_PREFIX + Decimal(fileCount)
  }

  /** The percentage is shown as supplied, without rounding. */
  function NamingLine(dominant: string, percentage: string): string {
    NAMING_PREFIX + dominant + " (" + percentage + "%)"
  }

  function DirectoryLine(entry: (string, DirectoryInfo)): string {
    ENTRY_INDENT + entry.0 + ": " + entry.1.purpose + " (" + entry.1.files + " files)"
  }

  function SuffixLine(entry: (string, SuffixInfo)): string {
    ENTRY_INDENT + entry.0 + ": " + entry.1.purpose + " (" + entry.1.count + " files)"
  }

  function TotalLine(total: nat): string {
    TOTAL_PREFIX + Decimal(total)
  }

  function NamesLine(names: seq<string>): string {
    NAMES_PREFIX + Join(names, ", ")
  }

  function NamingSection(conventions: Conventions): seq<string> {
    if HasDominant(conventions) then
      var n := conventions.naming.value.exports.value;
      [NamingLine(n.dominant.value, n.percentage)]
    else []
  }

  function DirectoryLines(dirs: seq<(string, DirectoryInfo)>): seq<string> {
    seq(|dirs|, k requires 0 <= k < |dirs| => DirectoryLine(dirs[k]))
  }

  function SuffixLines(suffixes: seq<(string, SuffixInfo)>): seq<string> {
    seq(|suffixes|, k requires 0 <= k < |suffixes| => SuffixLine(suffixes[k]))
  }

  /** A blank line, a title and the first `limit` entry lines; nothing at all without entries. */
  function Section(title: string, entryLines: seq<string>, limit: nat): seq<string> {
    if |entryLines| == 0 then [] else ["", title] + entryLines[..Min(limit, |entryLines|)]
  }

  /** The directory section shows the first five directories in document order, unranked. */
  function DirectorySection(conventions: Conventions): (r: seq<string>)
    ensures |r| == 0 <==> |Directories(conventions)| == 0
    ensures |r| <= 2 + MAX_DIRECTORIES
    ensures |Directories(conventions)| > 0 ==>
      && |r| == 2 + Min(MAX_DIRECTORIES, |Directories(conventions)|)
      && r[..2] == ["", DIRECTORIES_TITLE]
      && forall k :: 2 <= k < |r| ==> r[k] == DirectoryLine(Directories(conventions)[k - 2])
  {
    Section(DIRECTORIES_TITLE, DirectoryLines(Directories(conventions)), MAX_DIRECTORIES)
  }

  /** The suffix section shows the first three suffix patterns in document order, unranked. */
  function SuffixSection(conventions: Conventions): (r: seq<string>)
    ensures |r| == 0 <==> |Suffixes(conventions)| == 0
    ensures |r| <= 2 + MAX_SUFFIXES
    ensures |Suffixes(conventions)| > 0 ==>
      && |r| == 2 + Min(MAX_SUFFIXES, |Suffixes(conventions)|)
      && r[..2] == ["", SUFFIXES_TITLE]
      && forall k :: 2 <= k < |r| ==> r[k] == SuffixLine(Suffixes(conventions)[k - 2])
  {
    Section(SUFFIXES_TITLE, SuffixLines(Suffixes(conventions)), MAX_SUFFIXES)
  }

  function Kept(name: string): seq<string> {
    if name == DEFAULT_EXPORT then [] else [name]
  }

  /** The exports of one file other than the default export, in their order, duplicates kept. */
  function NonDefault(exports: seq<string>): (r: seq<string>)
    ensures DEFAULT_EXPORT !in r
    decreases |exports|
  {
    if exports == [] then []
    else
      assert exports == [exports[0]] + exports[1..];
      Kept(exports[0]) + NonDefault(exports[1..])
  }

  /** Exactly the occurrences of the default export are dropped. */
  lemma {:induction false} NonDefaultLength(exports: seq<string>)
    ensures |NonDefault(exports)| == |exports| - multiset(exports)[DEFAULT_EXPORT]
    decreases |exports|
  {
    if exports != [] {
      NonDefaultLength(exports[1..]);
      assert exports == [exports[0]] + exports[1..];
    }
  }

  /** Filtering keeps every occurrence of every other name: duplicates are counted. */
  lemma {:induction false} NonDefaultKeepsOccurrences(exports: seq<string>, name: string)
    requires name != DEFAULT_EXPORT
    ensures multiset(NonDefault(exports))[name] == multiset(exports)[name]
    decreases |exports|
  {
    if exports != [] {
      NonDefaultKeepsOccurrences(exports[1..], name);
      assert exports == [exports[0]] + exports[1..];
      assert multiset(exports) == multiset([exports[0]]) + multiset(exports[1..]);
      assert multiset(NonDefault(exports)) == multiset(Kept(exports[0])) + multiset(NonDefault(exports[1..]));
    }
  }

  /** Every export string of every file, default exports included: file order, then order within the file. */
  function RawExports(files: seq<(string, FileRecord)>): seq<string>
    decreases |files|
  {
    if files == [] then [] else ExportsOf(files[0].1) + RawExports(files[1..])
  }

  /** Every non-default export name of every file: file order, then order within the file. */
  function AllExports(files: seq<(string, FileRecord)>): seq<string>
    decreases |files|
  {
    if files == [] then [] else NonDefault(ExportsOf(files[0].1)) + AllExports(files[1..])
  }

  lemma {:induction false} NonDefaultAppend(a: seq<string>, b: seq<string>)
    ensures NonDefault(a + b) == NonDefault(a) + NonDefault(b)
    decreases |a|
  {
    if a != [] {
      NonDefaultAppend(a[1..], b);
      assert (a + b)[0] == a[0];
      assert (a + b)[1..] == a[1..] + b;
      assert NonDefault(a + b) == Kept(a[0]) + NonDefault(a[1..] + b);
    } else {
      assert a + b == b;
    }
  }

  lemma {:induction false} AllExportsAppend(a: seq<(string, FileRecord)>, b: seq<(string, FileRecord)>)
    ensures AllExports(a + b) == AllExports(a) + AllExports(b)
    decreases |a|
  {
    if a != [] {
      AllExportsAppend(a[1..], b);
      assert (a + b)[1..] == a[1..] + b;
    } else {
      assert a + b == b;
    }
  }

  /** Nothing when no names remain; the total otherwise, and the names themselves up to ten. */
  function ExportSection(names: seq<string>): seq<string> {
    if |names| == 0 then []
    else ["", TotalLine(|names|)] + (if |names| <= MAX_LISTED_EXPORTS then [NamesLine(names)] else [])
  }

  /** The lines of the summary, before they are joined. */
  function SummaryLines(index: FileIndex, conventions: Conventions): (r: seq<string>)
    ensures 1 <= |r| <= MAX_LINES
    ensures r[0] == HeaderLine(|Files(index)|)
  {
    [HeaderLine(|Files(index)|)]
      + NamingSection(conventions)
      + DirectorySection(conventions)
      + SuffixSection(conventions)
      + ExportSection(AllExports(Files(index)))
  }

  /**
   * The digest of `generateSummary`: absent exactly when the index lists no file,
   * otherwise a non-empty text that starts with the file count.
   */
  function Summary(index: FileIndex, conventions: Conventions): (r: Option<string>)
    ensures r.None? <==> |Files(index)| == 0
    ensures index.files.None? ==> r.None?
    ensures r.Some? ==> HeaderLine(|Files(index)|) <= r.value && r.value != ""
  {
    if |Files(index)| == 0 then None else Some(Join(SummaryLines(index, conventions), "\n"))
  }

  /** The inner loop: push each export of one file that is not the default export. */
  method PushNonDefault(allExports: seq<string>, exports: seq<string>) returns (r: seq<string>)
    ensures r == allExports + NonDefault(exports)
  {
    r := allExports;
    for j := 0 to |exports|
      invariant r == allExports + NonDefault(exports[..j])
    {
      var name := exports[j];
      if name != DEFAULT_EXPORT {
        r := r + [name];
      }
      assert exports[..j + 1] == exports[..j] + [name];
      NonDefaultAppend(exports[..j], [name]);
      assert NonDefault([name]) == Kept(name) + NonDefault([]);
    }
    assert exports[..|exports|] == exports;
  }

  /** The nested loop gathering every non-default export name, duplicates included. */
  method CollectExports(files: seq<(string, FileRecord)>) returns (allExports: seq<string>)
    ensures allExports == AllExports(files)
  {
    allExports := [];
    for i := 0 to |files|
      invariant allExports == AllExports(files[..i])
    {
      allExports := PushNonDefault(allExports, ExportsOf(files[i].1));
      assert files[..i + 1] == files[..i] + [files[i]];
      AllExportsAppend(files[..i], [files[i]]);
    }
    assert files[..|files|] == files;
  }

  /** Push the directory section: its title and the first five directory lines. */
  method PushDirectorySection(lines: seq<string>, conventions: Conventions) returns (r: seq<string>)
    ensures r == lines + DirectorySection(conventions)
  {
    r := lines;
    var dirs := Directories(conventions);
    if |dirs| > 0 {
      r := r + ["", DIRECTORIES_TITLE];
      ghost var base := r;
      var shown := dirs[..Min(MAX_DIRECTORIES, |dirs|)];
      for i := 0 to |shown|
        invariant r == base + DirectoryLines(dirs)[..i]
      {
        assert DirectoryLines(dirs)[..i + 1] == DirectoryLines(dirs)[..i] + [DirectoryLine(shown[i])];
        r := r + [DirectoryLine(shown[i])];
      }
    }
  }

  /** Push the suffix section: its title and the first three suffix lines. */
  method PushSuffixSection(lines: seq<string>, conventions: Conventions) returns (r: seq<string>)
    ensures r == lines + SuffixSection(conventions)
  {
    r := lines;
    var suffixes := Suffixes(conventions);
    if |suffixes| > 0 {
      r := r + ["", SUFFIXES_TITLE];
      ghost var base := r;
      var shown := suffixes[..Min(MAX_SUFFIXES, |suffixes|)];
      for i := 0 to |shown|
        invariant r == base + SuffixLines(suffixes)[..i]
      {
        assert SuffixLines(suffixes)[..i + 1] == SuffixLines(suffixes)[..i] + [SuffixLine(shown[i])];
        r := r + [SuffixLine(shown[i])];
      }
    }
  }

  /** `generateSummary`, building its lines step by step as the hook does. */
  method GenerateSummary(index: FileIndex, conventions: Conventions) returns (summary: Option<string>)
    ensures summary == Summary(index, conventions)
  {
    var files := Files(index);
    var fileCount := |files|;
    if fileCount == 0 {
      return None;
    }
    var lines := [HeaderLine(fileCount)];
    if HasDominant(conventions) {
      var n := conventions.naming.value.exports.value;
      lines := lines + [NamingLine(n.dominant.value, n.percentage)];
    }
    assert lines == [HeaderLine(fileCount)] + NamingSection(conventions);
    lines := PushDirectorySection(lines, conventions);
    lines := PushSuffixSection(lines, conventions);
    ghost var conventionLines := lines;
    var allExports := CollectExports(files);
    if |allExports| > 0 {
      lines := lines + ["", TotalLine(|allExports|)];
      if |allExports| <= MAX_LISTED_EXPORTS {
        lines := lines + [NamesLine(allExports)];
      }
    }
    assert lines == conventionLines + ExportSection(allExports);
    summary := Some(Join(lines, "\n"));
  }
}
