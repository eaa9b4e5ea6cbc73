# Codebase-intelligence session-start hook, modelled in Dafny

The hook runs when an assistant session starts. It reads a precomputed file index and a
conventions report, and writes a short digest wrapped in `<codebase-intelligence>` tags. It
fails silently on any problem. This project models the digest (`generateSummary`), the
trigger filter on the payload's `source`, the output sink, and the pipeline that joins them.
It then proves what the digest promises.

- `wrappers.dfy`: `Option`. It stands for JSON fields that may be absent; `GetOr` plays the role of `x || {}` and `x || []`.
- `text.dfy`: the string operations the hook relies on. `Decimal` is how a template literal renders an integer; `ParseDecimal` reads it back. `Join` is `Array.prototype.join` and `Split` is its inverse on a one-character separator. Both round trips are proved.
- `intel_summary.dfy`: the data model (index, file records, conventions) and the digest as specification functions, one per section (`SummaryLines`, `Summary`). It also holds `GenerateSummary`, the imperative generator. That method builds `lines` with loops as the source does and is proved equal to `Summary`.
- `summary_properties.dfy`: lemmas about the digest. They cover which lines appear and exactly when, how the export total counts names, the 17-line bound, and that the text splits back into exactly its lines.
- `session_hook.dfy`: the trigger filter, the tag wrapping and its inverse, the pipeline as a function (`SessionOutput`) and as a method with early exits (`RunSessionStart`), plus two worked scenarios.

JSON objects are sequences of `(key, record)` pairs in `Object.entries` order, because the
directory and suffix sections show the first entries in that order. Numbers that arrive from
the documents (`percentage`, `files`, `count`) are kept as the text the template literal
renders for them. The file count and the export total are computed here, so they are
naturals rendered by `Decimal`.

Two details of the code that the model keeps:
- The naming line needs `naming.exports.dominant` to be truthy: present and non-empty. Presence alone is not enough (`HasDominant`).
- The sink tests `if (summary)`, so an empty string would also write nothing. `Emit` models this. `SessionOutputIff` proves it makes no difference, because a summary is never empty.

## Model

| member | source | states |
|---|---|---|
| IntelSummary.Summary | hooks/gsd-intel-session.js:16-19 | the digest is absent exactly when the index lists no file, and a missing `files` field counts as none. Otherwise the text is non-empty and begins with `Indexed files: N`, where N is the number of file keys |
| IntelSummary.SummaryLines | hooks/gsd-intel-session.js:12-66 | there are between 1 and 17 lines whatever the input size, and the first is the `Indexed files: N` header |
| IntelSummary.DirectorySection | hooks/gsd-intel-session.js:28-35 | the section is empty iff there are no directories. Otherwise it is a blank line and `Key directories:`, then exactly the first min(5, n) directories in document order, each as `  dir: purpose (files files)` |
| IntelSummary.SuffixSection | hooks/gsd-intel-session.js:38-45 | the section is empty iff there are no suffix patterns. Otherwise it is a blank line and `File patterns:`, then exactly the first min(3, n) patterns in document order |
| IntelSummary.NonDefault | hooks/gsd-intel-session.js:50-54 | the names kept from one file never include `"default"` |
| IntelSummary.NonDefaultLength | hooks/gsd-intel-session.js:50-54 | exactly the occurrences of `"default"` are dropped from a file's exports |
| IntelSummary.NonDefaultKeepsOccurrences | hooks/gsd-intel-session.js:50-54 | every other name keeps all its occurrences, so duplicates are counted |
| IntelSummary.NonDefaultAppend | hooks/gsd-intel-session.js:50-54 | filtering preserves order: it distributes over concatenation |
| IntelSummary.AllExportsAppend | hooks/gsd-intel-session.js:49-55 | the gathered names of two runs of files are the names of the first run followed by those of the second |
| IntelSummary.PushNonDefault | hooks/gsd-intel-session.js:50-54 | the inner loop appends exactly the file's non-default exports, in order, to the running list |
| IntelSummary.CollectExports | hooks/gsd-intel-session.js:48-55 | the nested loop produces every non-default export of every file, in file order and then within-file order |
| IntelSummary.PushDirectorySection | hooks/gsd-intel-session.js:28-35 | the loop over `dirs.slice(0, 5)` appends exactly the directory section |
| IntelSummary.PushSuffixSection | hooks/gsd-intel-session.js:38-45 | the loop over `suffixes.slice(0, 3)` appends exactly the suffix section |
| IntelSummary.GenerateSummary | hooks/gsd-intel-session.js:12-67 | the step-by-step generator returns exactly `Summary`, so every property proved of `Summary` holds of it |
| SummaryProperties.NamingLineIff | hooks/gsd-intel-session.js:22-25 | a line starting `Export naming: ` appears iff `naming.exports.dominant` is present and non-empty |
| SummaryProperties.NamingLineFollowsHeader | hooks/gsd-intel-session.js:22-25 | when present, the naming line is the second line and shows the dominant style and the percentage verbatim, with no rounding |
| SummaryProperties.DirectorySectionIff | hooks/gsd-intel-session.js:28-31 | a `Key directories:` line appears in the digest iff there is at least one directory entry |
| SummaryProperties.SuffixSectionIff | hooks/gsd-intel-session.js:38-41 | a `File patterns:` line appears in the digest iff there is at least one suffix entry |
| SummaryProperties.TotalLineIff | hooks/gsd-intel-session.js:57-59 | a `Total exports: ` line appears iff K ≥ 1, where K is the number of non-default exports. The line is then `Total exports: K` |
| SummaryProperties.NamesLineIff | hooks/gsd-intel-session.js:57-63 | an `Exports: ` line appears iff 1 ≤ K ≤ 10. The line then lists all non-default names in file order, joined by `", "` |
| SummaryProperties.AllExportsFiltersRaw | hooks/gsd-intel-session.js:48-55 | filtering file by file and concatenating equals concatenating every export list and filtering once |
| SummaryProperties.ExportTotalCountsDuplicates | hooks/gsd-intel-session.js:48-59 | K is the number of export strings across all files minus the `"default"` occurrences. `"default"` is never listed, and every other name keeps its multiplicity |
| SummaryProperties.SummaryLinesNewlineFree | hooks/gsd-intel-session.js:19-62 | when no text the digest shows contains a line break, no line of the digest does. The condition covers the dominant style and percentage when the naming line is shown, the first 5 directories, the first 3 suffix patterns, and the export names when at most 10 are listed |
| SummaryProperties.SummaryTextSplitsIntoLines | hooks/gsd-intel-session.js:66 | when no text the digest shows contains a line break (the condition of `SummaryLinesNewlineFree`), the text is the lines joined by `\n` and nothing more. Splitting it at `\n` gives back exactly the lines: no trailing newline, and no line merged or lost. Entries past the shown limits may contain anything |
| SummaryProperties.HiddenDirectoryKeepsSplit | hooks/gsd-intel-session.js:28-35 | a sixth directory whose name contains a line break is not shown, so it does not affect the round trip |
| Text.Decimal | hooks/gsd-intel-session.js:19 | the rendered count is a non-empty run of digits with no leading zero |
| Text.ParseDecimalOfDecimal | hooks/gsd-intel-session.js:59 | the rendered count reads back as the same number |
| Text.Join | hooks/gsd-intel-session.js:66 | the joined text begins with the first part, followed by the separator when there is more than one part |
| Text.Split | hooks/gsd-intel-session.js:66 | the source only joins at this line; `Split` is the inverse through which that join is specified. Splitting gives at least one piece, and no piece contains the separator |
| Text.SplitJoin | hooks/gsd-intel-session.js:66 | splitting joined parts at the separator gives the parts back when none contains the separator |
| Text.JoinSplit | hooks/gsd-intel-session.js:66 | joining the pieces of a split with the same separator rebuilds the text |
| SessionHook.ShouldInject | hooks/gsd-intel-session.js:78 | the hook proceeds iff `source` is `"startup"` or `"resume"` |
| SessionHook.OtherSourcesWriteNothing | hooks/gsd-intel-session.js:78-79 | any other `source`, including a missing one, writes nothing whatever the documents hold |
| SessionHook.UnwrapWrap | hooks/gsd-intel-session.js:102 | the summary can be taken back out of the tagged output |
| SessionHook.Emit | hooks/gsd-intel-session.js:101-102 | nothing is written iff the summary is missing or empty. Otherwise the output carries the tags, and removing them gives the summary back |
| SessionHook.RunSessionStart | hooks/gsd-intel-session.js:74-109 | the run with its early exits writes exactly `SessionOutput` |
| SessionHook.SessionOutputIff | hooks/gsd-intel-session.js:74-109 | output is written iff all of these hold: the trigger matches, the index exists and parses, the conventions are absent or parse, and the index lists a file. The output is then exactly the summary between `<codebase-intelligence>\n` and `\n</codebase-intelligence>` |
| SessionHook.MissingConventionsAreEmpty | hooks/gsd-intel-session.js:93-97 | without a conventions document the digest is the header plus the export overview, the same as for a document whose fields are all missing |
| SessionHook.ScenarioThreeFilesNoConventions | hooks/gsd-intel-session.js:12-102 | three files without exports, no conventions, a fresh start: the output is exactly the tags around `Indexed files: 3` |
| SessionHook.TwelveExportsCounted | hooks/gsd-intel-session.js:48-63 | twelve names plus one `"default"` give a total of 12, and the names are not listed |
| SessionHook.ScenarioTwelveExports | hooks/gsd-intel-session.js:12-66 | with twelve exports, two directories and one suffix pattern, the digest is the header, both sections in full and `Total exports: 12`, with no names line |

## Left out

- Reading the payload from stdin in chunks (hooks/gsd-intel-session.js:70-73) is stream I/O. The payload arrives as a parsed value, or as `None` when it is not valid JSON.
- `JSON.parse` of the payload, the index and the conventions (hooks/gsd-intel-session.js:75,91,96) is a foreign library. Each document arrives as `Absent`, `Malformed` or `Parsed(value)`.
- File-system access and path building (`fs.existsSync`, `fs.readFileSync`, `path.join`, `process.cwd`) are I/O. Only their outcome is modelled: present or absent.
- `process.exit(0)` and the blanket `try/catch` are process control. They are modelled as "the run writes nothing". The exit status is always success and is not represented.
- Inputs of the wrong JSON type are not modelled, because the model's inputs are typed and these cases cannot be written down. The source treats them as follows:
  - A `null` file record or a `null` directory or suffix entry throws when its field is read (hooks/gsd-intel-session.js:33,43,50). The catch then writes nothing.
  - A non-string export passes the `!== 'default'` test (:51). It is counted by the total (:59) and printed by the join (:62): a number as its digits, `null` as empty text.
  - A string-valued `exports` is walked character by character (:50), and each character counts as one export.
  - A `files` value that is not an object goes through `Object.keys` and `Object.entries` (:16,49). A number has no keys, so no summary is produced. A string has one key per character, and each of its records has no exports.
- A non-string `source` is modelled as a missing one. In the source, `includes` never matches it either.
- How JavaScript renders the numbers `percentage`, `files` and `count` is not modelled. These may be floats, so they are carried as opaque text.
- The order of `Object.entries` is taken as given by the sequence. That includes JavaScript putting integer-like keys first in ascending order.
- Repeated runs on the same documents give the same output, because every member is a deterministic function of its inputs. No lemma states it.
