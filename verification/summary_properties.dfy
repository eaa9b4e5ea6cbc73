/**
 * What the digest promises, stated over its lines and over the joined text:
 * which lines appear and when, how the export total is counted, and that the
 * text splits back into exactly its lines.
 */
module SummaryProperties {
  import opened Wrappers
  import opened Text
  import opened IntelSummary

  /** Some line of `lines` begins with `prefix`. */
  predicate HasLineStarting(lines: seq<string>, prefix: string) {
    exists k :: 0 <= k < |lines| && prefix <= lines[k]
  }

  lemma HasLineStartingAppend(a: seq<string>, b: seq<string>, prefix: string)
    ensures HasLineStarting(a + b, prefix) <==> HasLineStarting(a, prefix) || HasLineStarting(b, prefix)
  {
    if HasLineStarting(a + b, prefix) {
      var k :| 0 <= k < |a + b| && prefix <= (a + b)[k];
      if k < |a| {
        assert prefix <= a[k];
      } else {
        assert prefix <= b[k - |a|];
      }
    }
    if HasLineStarting(a, prefix) {
      var k :| 0 <= k < |a| && prefix <= a[k];
      assert (a + b)[k] == a[k];
    }
    if HasLineStarting(b, prefix) {
      var k :| 0 <= k < |b| && prefix <= b[k];
      assert (a + b)[|a| + k] == b[k];
    }
  }

  /** A prefix that differs from `head` at position `i` begins no text that begins with `head`. */
  lemma DiffersFromHead(prefix: string, head: string, rest: string, i: nat)
    requires i < |prefix| && i < |head| && prefix[i] != head[i]
    ensures !(prefix <= head + rest)
  {
  }

  /** A line begins with `prefix` in the summary exactly when it does in one of its parts. */
  lemma SummaryLinesStarting(index: FileIndex, conventions: Conventions, prefix: string)
    requires |prefix| > 0 && prefix[0] != HEADER_PREFIX[0]
    ensures HasLineStarting(SummaryLines(index, conventions), prefix) <==>
      || HasLineStarting(NamingSection(conventions), prefix)
      || HasLineStarting(DirectorySection(conventions), prefix)
      || HasLineStarting(SuffixSection(conventions), prefix)
      || HasLineStarting(ExportSection(AllExports(Files(index))), prefix)
  {
    var header := [HeaderLine(|Files(index)|)];
    var naming := NamingSection(conventions);
    var dirs := DirectorySection(conventions);
    var suffixes := SuffixSection(conventions);
    var exports := ExportSection(AllExports(Files(index)));
    DiffersFromHead(prefix, HEADER_PREFIX, Decimal(|Files(index)|), 0);
    assert !HasLineStarting(header, prefix);
    HasLineStartingAppend(header, naming, prefix);
    HasLineStartingAppend(header + naming, dirs, prefix);
    HasLineStartingAppend(header + naming + dirs, suffixes, prefix);
    HasLineStartingAppend(header + naming + dirs + suffixes, exports, prefix);
  }

  /** The directory section holds a blank line, its title and indented entries only. */
  lemma DirectorySectionAvoids(conventions: Conventions, prefix: string)
    requires |prefix| > 0 && prefix[0] != ENTRY_INDENT[0] && prefix[0] != DIRECTORIES_TITLE[0]
    ensures !HasLineStarting(DirectorySection(conventions), prefix)
  {
  }

  /** The suffix section holds a blank line, its title and indented entries only. */
  lemma SuffixSectionAvoids(conventions: Conventions, prefix: string)
    requires |prefix| > 0 && prefix[0] != ENTRY_INDENT[0] && prefix[0] != SUFFIXES_TITLE[0]
    ensures !HasLineStarting(SuffixSection(conventions), prefix)
  {
  }

  /** The naming section is at most the one naming line. */
  lemma NamingSectionAvoids(conventions: Conventions, prefix: string, i: nat)
    requires i < |prefix| && i < |NAMING_PREFIX| && prefix[i] != NAMING_PREFIX[i]
    ensures !HasLineStarting(NamingSection(conventions), prefix)
  {
  }

  /** The export section is a blank line, the total line and possibly the names line. */
  lemma ExportSectionAvoids(names: seq<string>, prefix: string, i: nat, j: nat)
    requires 0 < |prefix|
    requires i < |prefix| && i < |TOTAL_PREFIX| && prefix[i] != TOTAL_PREFIX[i]
    requires j < |prefix| && j < |NAMES_PREFIX| && prefix[j] != NAMES_PREFIX[j]
    ensures !HasLineStarting(ExportSection(names), prefix)
  {
  }

  lemma NamingSectionStarting(conventions: Conventions)
    ensures HasLineStarting(NamingSection(conventions), NAMING_PREFIX) <==> HasDominant(conventions)
  {
    if HasDominant(conventions) {
      var n := conventions.naming.value.exports.value;
      assert NamingSection(conventions)[0] == NAMING_PREFIX + (n.dominant.value + " (" + n.percentage + "%)");
    }
  }

  /** The naming line appears exactly when a non-empty dominant style is recorded. */
  lemma NamingLineIff(index: FileIndex, conventions: Conventions)
    ensures HasLineStarting(SummaryLines(index, conventions), NAMING_PREFIX) <==> HasDominant(conventions)
  {
    SummaryLinesStarting(index, conventions, NAMING_PREFIX);
    NamingSectionStarting(conventions);
    DirectorySectionAvoids(conventions, NAMING_PREFIX);
    SuffixSectionAvoids(conventions, NAMING_PREFIX);
    ExportSectionAvoids(AllExports(Files(index)), NAMING_PREFIX, 0, 6);
  }

  /** When present, the naming line follows the header and shows the percentage as supplied. */
  lemma NamingLineFollowsHeader(index: FileIndex, conventions: Conventions)
    requires HasDominant(conventions)
    ensures
      var n := conventions.naming.value.exports.value;
      SummaryLines(index, conventions)[1] == NAMING_PREFIX + n.dominant.value + " (" + n.percentage + "%)"
  {
  }

  /** The directory section appears exactly when the conventions list at least one directory. */
  lemma DirectorySectionIff(index: FileIndex, conventions: Conventions)
    ensures HasLineStarting(SummaryLines(index, conventions), DIRECTORIES_TITLE) <==> |Directories(conventions)| > 0
  {
    SummaryLinesStarting(index, conventions, DIRECTORIES_TITLE);
    NamingSectionAvoids(conventions, DIRECTORIES_TITLE, 0);
    SuffixSectionAvoids(conventions, DIRECTORIES_TITLE);
    ExportSectionAvoids(AllExports(Files(index)), DIRECTORIES_TITLE, 0, 0);
    if |Directories(conventions)| > 0 {
      assert DirectorySection(conventions)[1] == DIRECTORIES_TITLE;
    }
  }

  /** The suffix section appears exactly when the conventions list at least one suffix pattern. */
  lemma SuffixSectionIff(index: FileIndex, conventions: Conventions)
    ensures HasLineStarting(SummaryLines(index, conventions), SUFFIXES_TITLE) <==> |Suffixes(conventions)| > 0
  {
    SummaryLinesStarting(index, conventions, SUFFIXES_TITLE);
    NamingSectionAvoids(conventions, SUFFIXES_TITLE, 0);
    DirectorySectionAvoids(conventions, SUFFIXES_TITLE);
    ExportSectionAvoids(AllExports(Files(index)), SUFFIXES_TITLE, 0, 0);
    if |Suffixes(conventions)| > 0 {
      assert SuffixSection(conventions)[1] == SUFFIXES_TITLE;
    }
  }

  /** Only the export section can hold a line beginning with `prefix`. */
  lemma OnlyExportSectionStarts(index: FileIndex, conventions: Conventions, prefix: string, i: nat)
    requires |prefix| > 0 && prefix[0] != HEADER_PREFIX[0] && prefix[0] != ENTRY_INDENT[0]
    requires prefix[0] != DIRECTORIES_TITLE[0] && prefix[0] != SUFFIXES_TITLE[0]
    requires i < |prefix| && i < |NAMING_PREFIX| && prefix[i] != NAMING_PREFIX[i]
    ensures HasLineStarting(SummaryLines(index, conventions), prefix) <==>
      HasLineStarting(ExportSection(AllExports(Files(index))), prefix)
  {
    SummaryLinesStarting(index, conventions, prefix);
    NamingSectionAvoids(conventions, prefix, i);
    DirectorySectionAvoids(conventions, prefix);
    SuffixSectionAvoids(conventions, prefix);
  }

  /** `Total exports: K` appears exactly when some non-default export exists; K is their number. */
  lemma TotalLineIff(index: FileIndex, conventions: Conventions)
    ensures var total := |AllExports(Files(index))|;
      && (HasLineStarting(SummaryLines(index, conventions), TOTAL_PREFIX) <==> total > 0)
      && (total > 0 ==> TotalLine(total) in SummaryLines(index, conventions))
  {
    var names := AllExports(Files(index));
    var lines := ExportSection(names);
    OnlyExportSectionStarts(index, conventions, TOTAL_PREFIX, 0);
    if |names| > 0 {
      assert lines[1] == TOTAL_PREFIX + Decimal(|names|);
      if |names| <= MAX_LISTED_EXPORTS {
        DiffersFromHead(TOTAL_PREFIX, NAMES_PREFIX, Join(names, ", "), 0);
        assert lines[2] == NAMES_PREFIX + Join(names, ", ");
      }
    }
  }

  /**
   * `Exports: ...` appears exactly when there are between one and ten non-default
   * exports, and then it lists all of them in file order, joined by ", ".
   */
  lemma NamesLineIff(index: FileIndex, conventions: Conventions)
    ensures var names := AllExports(Files(index));
      && (HasLineStarting(SummaryLines(index, conventions), NAMES_PREFIX) <==> 1 <= |names| <= MAX_LISTED_EXPORTS)
      && (1 <= |names| <= MAX_LISTED_EXPORTS ==> NAMES_PREFIX + Join(names, ", ") in SummaryLines(index, conventions))
  {
    var names := AllExports(Files(index));
    var lines := ExportSection(names);
    OnlyExportSectionStarts(index, conventions, NAMES_PREFIX, 6);
    if |names| > 0 {
      DiffersFromHead(NAMES_PREFIX, TOTAL_PREFIX, Decimal(|names|), 0);
      assert lines[1] == TOTAL_PREFIX + Decimal(|names|);
      if |names| <= MAX_LISTED_EXPORTS {
        assert lines[2] == NAMES_PREFIX + Join(names, ", ");
      }
    }
  }

  /** Filtering file by file and concatenating equals concatenating and then filtering once. */
  lemma {:induction false} AllExportsFiltersRaw(files: seq<(string, FileRecord)>)
    ensures AllExports(files) == NonDefault(RawExports(files))
    decreases |files|
  {
    if files != [] {
      AllExportsFiltersRaw(files[1..]);
      NonDefaultAppend(ExportsOf(files[0].1), RawExports(files[1..]));
    }
  }

  /**
   * The export total counts every export string of every file except "default",
   * duplicates included: each other name keeps all its occurrences.
   */
  lemma ExportTotalCountsDuplicates(files: seq<(string, FileRecord)>)
    ensures |AllExports(files)| == |RawExports(files)| - multiset(RawExports(files))[DEFAULT_EXPORT]
    ensures DEFAULT_EXPORT !in AllExports(files)
    ensures forall name :: name != DEFAULT_EXPORT ==>
      multiset(AllExports(files))[name] == multiset(RawExports(files))[name]
  {
    AllExportsFiltersRaw(files);
    NonDefaultLength(RawExports(files));
    forall name | name != DEFAULT_EXPORT
      ensures multiset(AllExports(files))[name] == multiset(RawExports(files))[name]
    {
      NonDefaultKeepsOccurrences(RawExports(files), name);
    }
  }

  /**
   * No export name the summary lists contains a line break. The names are listed
   * only when there are at most MAX_LISTED_EXPORTS of them; otherwise only their
   * count is shown, and the names themselves are unconstrained.
   */
  predicate IndexNewlineFree(index: FileIndex) {
    var names := AllExports(Files(index));
    |names| <= MAX_LISTED_EXPORTS ==> LinesNewlineFree(names)
  }

  /** No text of the conventions that the summary shows contains a line break. */
  predicate ConventionsNewlineFree(conventions: Conventions) {
    NamingNewlineFree(conventions) && DirectoriesNewlineFree(conventions) && SuffixesNewlineFree(conventions)
  }

  /** The dominant style and its percentage, checked only when the naming line is shown. */
  predicate NamingNewlineFree(conventions: Conventions) {
    HasDominant(conventions) ==>
      var n := conventions.naming.value.exports.value;
      '\n' !in n.percentage && '\n' !in n.dominant.value
  }

  /** The first MAX_DIRECTORIES directory entries, the only ones shown. */
  predicate DirectoriesNewlineFree(conventions: Conventions) {
    forall k :: 0 <= k < Min(MAX_DIRECTORIES, |Directories(conventions)|) ==>
      var d := Directories(conventions)[k];
      '\n' !in d.0 && '\n' !in d.1.purpose && '\n' !in d.1.files
  }

  /** The first MAX_SUFFIXES suffix entries, the only ones shown. */
  predicate SuffixesNewlineFree(conventions: Conventions) {
    forall k :: 0 <= k < Min(MAX_SUFFIXES, |Suffixes(conventions)|) ==>
      var x := Suffixes(conventions)[k];
      '\n' !in x.0 && '\n' !in x.1.purpose && '\n' !in x.1.count
  }

  /** No line of `lines` contains a line break. */
  predicate LinesNewlineFree(lines: seq<string>) {
    forall k :: 0 <= k < |lines| ==> '\n' !in lines[k]
  }

  lemma LinesNewlineFreeAppend(a: seq<string>, b: seq<string>)
    requires LinesNewlineFree(a) && LinesNewlineFree(b)
    ensures LinesNewlineFree(a + b)
  {
  }

  lemma ExportSectionNewlineFree(names: seq<string>)
    requires |names| <= MAX_LISTED_EXPORTS ==> LinesNewlineFree(names)
    ensures LinesNewlineFree(ExportSection(names))
  {
    DigitsHaveNoNewline(Decimal(|names|));
    if |names| <= MAX_LISTED_EXPORTS {
      JoinAvoids(names, ", ", '\n');
    }
  }

  lemma NamingSectionNewlineFree(conventions: Conventions)
    requires NamingNewlineFree(conventions)
    ensures LinesNewlineFree(NamingSection(conventions))
  {
  }

  lemma DirectorySectionNewlineFree(conventions: Conventions)
    requires DirectoriesNewlineFree(conventions)
    ensures LinesNewlineFree(DirectorySection(conventions))
  {
  }

  lemma SuffixSectionNewlineFree(conventions: Conventions)
    requires SuffixesNewlineFree(conventions)
    ensures LinesNewlineFree(SuffixSection(conventions))
  {
  }

  /** When no text the summary shows holds a line break, no summary line does. */
  lemma SummaryLinesNewlineFree(index: FileIndex, conventions: Conventions)
    requires IndexNewlineFree(index) && ConventionsNewlineFree(conventions)
    ensures LinesNewlineFree(SummaryLines(index, conventions))
  {
    var header := [HeaderLine(|Files(index)|)];
    var naming := NamingSection(conventions);
    var dirs := DirectorySection(conventions);
    var suffixes := SuffixSection(conventions);
    var exports := ExportSection(AllExports(Files(index)));
    DigitsHaveNoNewline(Decimal(|Files(index)|));
    NamingSectionNewlineFree(conventions);
    DirectorySectionNewlineFree(conventions);
    SuffixSectionNewlineFree(conventions);
    ExportSectionNewlineFree(AllExports(Files(index)));
    LinesNewlineFreeAppend(header, naming);
    LinesNewlineFreeAppend(header + naming, dirs);
    LinesNewlineFreeAppend(header + naming + dirs, suffixes);
    LinesNewlineFreeAppend(header + naming + dirs + suffixes, exports);
  }

  /**
   * The summary text is its lines joined by a line break and nothing more: split
   * at line breaks it gives back exactly the lines (no trailing newline, no
   * merged lines), provided the input texts it shows hold no line break
   * themselves. Entries beyond the shown limits, names that are only counted and
   * a percentage without a dominant style may contain anything.
   */
  lemma SummaryTextSplitsIntoLines(index: FileIndex, conventions: Conventions)
    requires IndexNewlineFree(index) && ConventionsNewlineFree(conventions)
    ensures Summary(index, conventions).Some? ==>
      Split(Summary(index, conventions).value, '\n') == SummaryLines(index, conventions)
  {
    if Summary(index, conventions).Some? {
      SummaryLinesNewlineFree(index, conventions);
      SplitJoin(SummaryLines(index, conventions), '\n');
    }
  }

  /**
   * Text the summary does not show is free to hold line breaks: a sixth directory
   * whose name contains one leaves the round trip intact, because only the first
   * MAX_DIRECTORIES entries are listed.
   */
  lemma HiddenDirectoryKeepsSplit(index: FileIndex)
    requires IndexNewlineFree(index)
    ensures
      var info := DirectoryInfo("source", "4");
      var dirs := [("a", info), ("b", info), ("c", info), ("d", info), ("e", info), ("x\ny", info)];
      var conventions := Conventions(None, Some(dirs), None);
      Summary(index, conventions).Some? ==>
        Split(Summary(index, conventions).value, '\n') == SummaryLines(index, conventions)
  {
    var info := DirectoryInfo("source", "4");
    var dirs := [("a", info), ("b", info), ("c", info), ("d", info), ("e", info), ("x\ny", info)];
    var conventions := Conventions(None, Some(dirs), None);
    assert Min(MAX_DIRECTORIES, |Directories(conventions)|) == 5;
    SummaryTextSplitsIntoLines(index, conventions);
  }
}
