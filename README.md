# Agent: a Dafny model of the turn-taking engine and its tools

This project models the core of ReginRavi/Agent, a small command-line coding
agent. It covers four parts:

- **The agent** (agent.py). The `Agent` class owns a conversation history that
  is only ever appended to. `run` appends the user turn and sends the whole
  history to the model with every tool declaration. It then appends the
  model's reply. If the reply asks for tools, `run` resolves each call against
  the registry and calls itself with the responses.
- **The console loop** of `main` (agent.py). It decides whether a line is
  skipped, ends the session, or is sent. It also chooses what is printed
  for a reply.
- **The tool registry** `ALL_TOOLS` (tools/__init__.py). It merges nine
  module dictionaries and asserts that the result holds 44 tools.
- **The tools' pure logic**:
  - `_query_json`'s dot-path walk;
  - the `_read_csv` summary and `_write_csv` row splitting;
  - the line classification and counters of `_count_code_lines`;
  - the per-line tagging and the 50-entry cap of `_find_todos`;
  - the counts of `_analyze_code`;
  - the eight `_format_text` conversions, on ASCII;
  - the numbered, capped listing of `_regex_search`.

Modules:

- `Json`: JSON values.
- `Strings`: `strip`, `split`, `join`, ASCII case mapping and `str(n)`.
- `Registry`: tools/__init__.py.
- `Agent`: agent.py.
- `DataProcessing`, `CodeAnalysis`, `TextUtils`: the three tool files.

The model's shape follows the source:

- The agent is a class. `contents` is a field that `Run` reassigns, and a ghost
  `requests` field records every request sent.
- `Run` is proved against `Exchange`, a function that computes the whole
  exchange from the history. The lemmas about `Exchange` state what a run
  does: its round count, how it ends, the chain of requests, and the fact that
  every request advertises every tool.
- The loops of the tools are methods: `QueryJson`, `ReadCsv`, `CountKinds`,
  `CountCodeLines`, `HasMarker`, `ScanLines`, `FindTodos`, `RegexSearch` and
  `Agent.Dispatch`. Each is proved equal to a specification function. The
  lemmas beside each function state what the source promises.
- Comprehensions and chained expressions are functions.

Some behaviours of the source look accidental but are kept as written. The
lemmas below exhibit them:

- `_count_code_lines` tests for the leading dot before stripping. So the
  item ` .js` of `.py, .js` becomes `..js` and matches no file
  (`LeadingSpaceGainsADot`).
- `snake_case` inserts its separator before a capital before collapsing
  whitespace. So a space before a capitalised word yields two underscores
  (`SpaceBeforeCapitalDoublesSeparator`).

The model endpoint is a parameter: a function from the request to the content
of the reply's first candidate. Some inputs are given instead of computed:

- the files a tool would read;
- the decoded JSON document;
- the rows of the CSV reader;
- the matches of `re.findall`;
- the outcome of `compile`.

## Model

| member | source | states |
|---|---|---|
| `Registry.MergeKeys` | tools/__init__.py:18-28 | A name is in `ALL_TOOLS` exactly when some module supplies it. |
| `Registry.Provider` | tools/__init__.py:18-28 | For a supplied name, the last module that supplies it; no later module has the name. |
| `Registry.MergeValue` | tools/__init__.py:18-28 | Every registered entry is, unchanged, the entry of the last module that supplies its name: on a duplicate the later module wins. |
| `Registry.MergeSize` | tools/__init__.py:18-31 | The merge holds at most the sum of the module sizes, and exactly that many iff no name is supplied by two modules. |
| `Registry.MergeKeepsNames` | tools/__init__.py:18-28 | If each module names its entries by their keys, so does the merge. |
| `Registry.AllTools` | tools/__init__.py:18-31 | Start-up succeeds iff the merge holds 44 tools, and then registers exactly the merge. |
| `Registry.ShippedTotal` | tools/__init__.py:19-27 | The shipped module sizes 5+10+3+4+6+6+5+3+2 add up to 44. |
| `Registry.StartupAssertionMeansUniqueNames` | tools/__init__.py:18-31 | With the shipped sizes, the size assertion passes iff no tool name is duplicated across modules. |
| `Agent.UserTurn` | agent.py:42-45 | The appended turn has role `user`; text input becomes one text part, a list of responses becomes the parts unchanged. |
| `Agent.Declarations` | agent.py:47-56 | The advertised declarations are exactly the definitions of the registered tools. |
| `Agent.CallsIn` | agent.py:65-67 | The function calls of a reply are exactly its call parts, no more of them than parts. |
| `Agent.CallsInConcat` | agent.py:65-67 | The calls of two runs of parts are the first run's calls followed by the second's: call order is part order. |
| `Agent.CallsInSingle` | agent.py:65-67 | A call part contributes exactly its call; a text or response part contributes none. |
| `Agent.NotFoundMessageNamesTool` | agent.py:69-70 | The not-found text determines the tool name. |
| `Agent.Resolve` | agent.py:67-82 | Each function response is a response part that echoes the call's name. |
| `Agent.ResolvePayload` | agent.py:69-73 | The payload has one key: `error` with `Tool '<name>' not found.` iff the tool is unknown (nothing invoked), otherwise `result` with the tool applied to the arguments. |
| `Agent.DispatchAll` | agent.py:66-82 | One response per call, in call order, each the resolution of that call. |
| `Agent.Turns` | agent.py:43-63 | The rounds append two history entries each. |
| `Agent.TurnsLayout` | agent.py:43-63 | Round i appends its user turn at offset 2i and the model's reply at 2i+1. |
| `Agent.Requests` | agent.py:58-62 | The requests sent are the rounds' requests, in order. |
| `Agent.FirstRound` | agent.py:42-63 | One round sends the history followed by the new user turn, with every registered declaration, and its reply is the endpoint's answer to that request. |
| `Agent.Followup` | agent.py:65-84 | The input of the recursive call is a list of function responses, one per call of the reply, in order, each naming its call's tool. |
| `Agent.ExchangeBegins` | agent.py:38-63 | Every exchange makes at least one round, and its first round is the one for the given input. |
| `Agent.ExchangeStops` | agent.py:65-86 | A reply without calls ends the exchange after one round with that reply. |
| `Agent.ExchangeRecurs` | agent.py:65-84 | A reply with calls is followed by the exchange on the function responses, one round later. |
| `Agent.ExchangeLength` | agent.py:65-84 | An exchange makes between 1 and fuel+1 rounds, all fuel+1 when it reaches the bound. |
| `Agent.ExchangeCallsBeforeLast` | agent.py:65-84 | Every reply but the last asked for tools. |
| `Agent.ExchangeLastReply` | agent.py:65-86 | The exchange ends `Done` iff its last reply asks for no tool, and then returns that reply. |
| `Agent.ExchangeRounds` | agent.py:38-86 | N replies with calls and then one without make exactly N+1 model requests and 2(N+1) history entries, and return the last reply. |
| `Agent.ExchangeChain` | agent.py:42-84 | The first turn is the input, each later turn carries the responses to the previous reply's calls, and each reply answers its round's request. |
| `Agent.ExchangeSnapshots` | agent.py:42-62 | Every request carries the whole history so far, ending with its own turn. |
| `Agent.EveryRequestAdvertisesAllTools` | agent.py:47-62 | Every request carries every registered declaration, the system instruction and the model name: no per-turn filtering. |
| `Agent.Agent.constructor` | agent.py:25-36 | A new agent has the given configuration and an empty history. |
| `Agent.Agent.Dispatch` | agent.py:66-82 | The response-building loop yields one response per call, in order, equal to `DispatchAll`. |
| `Agent.Agent.Ask` | agent.py:42-63 | One model call: the history gains exactly the user turn and the reply, earlier entries unchanged, and one request is sent. |
| `Agent.Agent.Run` | agent.py:38-86 | `run` appends exactly the turns of `Exchange` after the old history, sends exactly its requests and returns its outcome. |
| `Agent.Agent.Respond` | agent.py:65-84 | Dispatching a reply and running again appends the exchange on the function responses. |
| `Agent.ReadCommand` | agent.py:117-125 | A line blank after stripping is skipped; `exit` or `quit` in any case ends the session; anything else is sent stripped and non-empty. |
| `Agent.QuitInAnyCase` | agent.py:124-125 | Every case variant of `exit` or `quit` ends the session. |
| `Agent.TextOfConcat` | agent.py:128 | The text of a reply is the text of its parts in order: the text of two runs of parts is the first's text followed by the second's. |
| `Agent.TextOfSingle` | agent.py:128 | A text part contributes its text; a call or a response part contributes nothing. |
| `Agent.DisplayedText` | agent.py:128-129 | The printed text is the stripped reply text, or `[no text returned]` when that is empty, and is never blank. |
| `Agent.FramedLayout` | agent.py:129 | The printed text is `Linus: `, then the displayed text, which has no whitespace at either end, then a newline. |
| `Strings.Strip` | agent.py:117 | Stripping leaves no whitespace at either end, and gives the empty string iff the input is all whitespace. |
| `Strings.StripIsSlice` | agent.py:117 | What stripping keeps is the contiguous slice of the input that starts right after its leading whitespace. |
| `Strings.StripDropsOnlySpace` | agent.py:117 | Everything stripping drops, before and after that slice, is whitespace. |
| `Strings.StripIdempotent` | agent.py:117 | Stripping twice strips nothing more. |
| `Strings.CaseMappingLaws` | tools/text_utils.py:52-55 | On ASCII, `lower` and `upper` are idempotent and each ignores a preceding case mapping. |
| `Strings.LowerIsLowerCase` | tools/text_utils.py:54-55 | Lower-cased text has no upper-case ASCII letter. |
| `Strings.Split` | tools/data_processing.py:65 | `split` gives one piece more than there are separators, no piece holds the separator, and joining the pieces gives the text back. |
| `Strings.SplitOfJoin` | tools/data_processing.py:122 | `split` undoes `join` when no piece holds the separator. |
| `DataProcessing.Descend` | tools/data_processing.py:69-78 | A present key of an object descends; an all-digit in-range index of an array descends; an all-digit index past the end is out of range; anything else is a missing key naming the segment. |
| `DataProcessing.WalkPath` | tools/data_processing.py:68-78 | An empty path reaches the document itself, and a missing key reported by the walk is one of the path's segments. |
| `DataProcessing.WalkConcat` | tools/data_processing.py:68-78 | Walking two segment lists in a row is walking the first and then the second from where it stopped. |
| `DataProcessing.WalkOne` | tools/data_processing.py:68-78 | A walk over one segment is one descent. |
| `DataProcessing.WalkStopsAtFailure` | tools/data_processing.py:68-78 | The walk stops at the first failing segment: later segments are never looked at. |
| `DataProcessing.ScalarHasNoKeys` | tools/data_processing.py:69-78 | A scalar with segments left fails with a missing key for the next segment. |
| `DataProcessing.NegativeIndexIsMissingKey` | tools/data_processing.py:71-78 | `-1` on an array is a missing key, not an index. |
| `DataProcessing.QueryAnswer` | tools/data_processing.py:65-80 | A query succeeds iff the walk over the dot-separated path reaches a value, and returns that value. |
| `DataProcessing.QueryCompositional` | tools/data_processing.py:65-80 | When `p1` reaches v, querying `p1.p2` is querying `p2` on v. |
| `DataProcessing.SingleSegmentQuery` | tools/data_processing.py:65-70 | A path without dots is a single lookup of that key or index. |
| `DataProcessing.QueryJson` | tools/data_processing.py:64-80 | The loop that reassigns `result` per segment returns exactly the query's answer, with the first failure's error text. |
| `DataProcessing.NumberedRows` | tools/data_processing.py:103-105 | The listed rows are numbered from 1, one line per row. |
| `DataProcessing.CsvLines` | tools/data_processing.py:99-110 | The header gives the row count and the first row's column count; then min(20, n) rows numbered from 1; then `... and n-20 more rows` only when n > 20. |
| `DataProcessing.CsvSummaryAccountsForEveryRow` | tools/data_processing.py:102-108 | Listed rows plus the rows counted in the closing line are all the rows, with at most 20 listed. |
| `DataProcessing.ReadCsv` | tools/data_processing.py:96-110 | The listing loop yields exactly the summary, or `CSV file is empty` for no rows. |
| `DataProcessing.CsvRows` | tools/data_processing.py:122 | One row per newline-separated line of the stripped data. |
| `DataProcessing.CsvRowsCells` | tools/data_processing.py:122 | Each row's cells rejoined by the delimiter give its stripped line, and no cell holds the delimiter. |
| `DataProcessing.CsvRowsRoundTrip` | tools/data_processing.py:122 | Rows that can be written without being altered by stripping are parsed back from their rendering unchanged. |
| `DataProcessing.WriteCsvReport` | tools/data_processing.py:115-130 | An empty delimiter and a longer one give their errors; otherwise the reported row count is the number of lines of the stripped data. |
| `CodeAnalysis.LinesOf` | tools/code_analysis.py:18 | A text has one more line than newlines, and the lines joined give it back. |
| `CodeAnalysis.LastIndexOf` | tools/code_analysis.py:63 | The last occurrence of a character, or -1 when there is none. |
| `CodeAnalysis.BaseName` | tools/code_analysis.py:63 | The file name is a slash-free ending of the path. |
| `CodeAnalysis.BaseNameFollowsSlash` | tools/code_analysis.py:63 | The file name is the whole path or starts right after a slash, so with the slash-free ending above it is everything after the last slash. |
| `CodeAnalysis.Suffix` | tools/code_analysis.py:63 | A non-empty suffix is a dot and at least one more character, holds no further dot, ends the file name and is shorter than it. |
| `CodeAnalysis.SuffixIsFromLastInnerDot` | tools/code_analysis.py:102 | A file has a suffix iff the last dot of its name is neither the first nor the last character. |
| `CodeAnalysis.NormaliseExtension` | tools/code_analysis.py:96 | An item starting with `.` is kept stripped; any other gets a dot before the stripped item; the result always starts with a dot. |
| `CodeAnalysis.ParseExtensions` | tools/code_analysis.py:96-97 | One normalised extension per comma-separated item, in order. |
| `CodeAnalysis.LeadingSpaceGainsADot` | tools/code_analysis.py:96 | ` .js` becomes `..js`: the dot test happens before stripping. |
| `CodeAnalysis.ClassifyMeaning` | tools/code_analysis.py:110-116 | Blank iff all whitespace; comment iff non-blank and starting with `#` or `//` after stripping; code otherwise. |
| `CodeAnalysis.KindsPartitionLines` | tools/code_analysis.py:109-116 | Blank, comment and code lines add up to all lines. |
| `CodeAnalysis.FileStatsAddUp` | tools/code_analysis.py:104-116 | A counted file adds one file and newlines+1 lines, split into the three kinds. |
| `CodeAnalysis.TallyCountsFiles` | tools/code_analysis.py:101-106 | The file counter is the number of readable files with a requested suffix. |
| `CodeAnalysis.TallyCountsLines` | tools/code_analysis.py:105-107 | The line counter sums newlines+1 over the counted files. |
| `CodeAnalysis.TallyKindsAddUp` | tools/code_analysis.py:101-116 | In the totals, blank + comment + code lines equal total lines. |
| `CodeAnalysis.CountReport` | tools/code_analysis.py:88-93 | A missing directory and a path that is not a directory give their two error texts. |
| `CodeAnalysis.ListingReport` | tools/code_analysis.py:120-128 | With no counted file the report is `No files found with extensions: ...`, otherwise the statistics. |
| `CodeAnalysis.CountKinds` | tools/code_analysis.py:109-116 | The classification loop counts each kind of line exactly. |
| `CodeAnalysis.CountFileLines` | tools/code_analysis.py:104-116 | The counters one file adds are its statistics. |
| `CodeAnalysis.CountCodeLines` | tools/code_analysis.py:86-130 | The counting loop over the files yields exactly the report, including the two directory errors. |
| `CodeAnalysis.MarkerFromMeaning` | tools/code_analysis.py:67-70 | Trying the markers from the p-th on finds one iff one of them occurs. |
| `CodeAnalysis.MentionsTodoMeaning` | tools/code_analysis.py:59-70 | A line is tagged iff one of TODO, FIXME, HACK, XXX, NOTE occurs in it in any letter case. |
| `CodeAnalysis.LineEntriesAtMostOnePerLine` | tools/code_analysis.py:66-70 | A file yields at most one entry per line. |
| `CodeAnalysis.LineEntriesComplete` | tools/code_analysis.py:66-69 | Every tagged line has its entry, with its 1-based line number. |
| `CodeAnalysis.LineEntriesSound` | tools/code_analysis.py:66-69 | Every entry belongs to a tagged line and carries that line's number. |
| `CodeAnalysis.TodoEntriesConcat` | tools/code_analysis.py:62-72 | The entries of two runs of files are the first run's entries followed by the second's: entries keep file order. |
| `CodeAnalysis.UnsearchedFileHasNoEntries` | tools/code_analysis.py:62-72 | A file with another suffix, or whose text cannot be read, adds no entry. |
| `CodeAnalysis.TodoListing` | tools/code_analysis.py:74-81 | No entries give the no-TODO message; up to 50 are all listed; more give the first 50 and `showing first 50 of N total`. |
| `CodeAnalysis.TodoReport` | tools/code_analysis.py:52-81 | A missing directory and a path that is not a directory give their two error texts; a directory gives the listing of its entries. |
| `CodeAnalysis.HasMarker` | tools/code_analysis.py:67-70 | The pattern loop with `break` finds a marker iff the line mentions one. |
| `CodeAnalysis.ScanLines` | tools/code_analysis.py:66-70 | The loop over one file's lines yields exactly its entries. |
| `CodeAnalysis.FindTodos` | tools/code_analysis.py:50-83 | The loop over the files yields exactly the report, including the two directory errors. |
| `CodeAnalysis.AnnouncesAtMostOne` | tools/code_analysis.py:37-39 | No stripped line counts as two of import, function and class. |
| `CodeAnalysis.DeclarationsFitInLines` | tools/code_analysis.py:22-39 | Non-empty lines never outnumber lines, and imports + functions + classes never outnumber non-empty lines. |
| `CodeAnalysis.AnalysisLines` | tools/code_analysis.py:20-43 | Four report lines, and four more (syntax, imports, functions, classes) only for a `.py` path. |
| `CodeAnalysis.AnalysisLinesValues` | tools/code_analysis.py:18-43 | Line by line: the path, the number of newline-separated lines, the non-blank ones, the size, and for `.py` the syntax verdict and the import, function and class counts. |
| `CodeAnalysis.AnalyzeCode` | tools/code_analysis.py:8-46 | A missing path and a path that is not a file give their two error texts; a readable file's report starts with `File: <path>` and is exactly the analysis lines (`AnalysisLines`, whose values `AnalysisLinesValues` states) joined by newlines. |
| `TextUtils.Title` | tools/text_utils.py:56-57 | Title-casing keeps the length. |
| `TextUtils.TitleIdempotent` | tools/text_utils.py:56-57 | Title-casing twice is title-casing once. |
| `TextUtils.TitleIgnoresCase` | tools/text_utils.py:56-57 | Upper- or lower-casing before title-casing changes nothing. |
| `TextUtils.TitleMeaning` | tools/text_utils.py:56-57 | The title differs from the text only in case, and one of its letters is upper-case exactly when it is first or follows a non-letter. |
| `TextUtils.Capitalize` | tools/text_utils.py:58-59 | Capitalising keeps the length. |
| `TextUtils.CapitalizeLaws` | tools/text_utils.py:58-59 | Capitalising is idempotent and ignores the case the text had. |
| `TextUtils.CapitalizeMeaning` | tools/text_utils.py:58-59 | The capitalised text differs from the text only in case; its first character is not lower-case and no later character is upper-case. |
| `TextUtils.MarkedCapitalsFollowSeparator` | tools/text_utils.py:62 | Every marked upper-case letter after the first character follows the separator. |
| `TextUtils.MarkCapitalsFromRoundTrip` | tools/text_utils.py:62 | Removing the separators undoes the marking of a text that had none. |
| `TextUtils.MarkCapitalsPlacesSeparators` | tools/text_utils.py:62 | The separator goes before every upper-case letter except at position 0; the first character stays in place; the text grows by exactly one separator per upper-case letter after position 0; removing the separators gives back a text that had none. |
| `TextUtils.MarkCapitalsFromLength` | tools/text_utils.py:62 | Marking the characters from `i` on keeps them all and adds one separator per marked letter. |
| `TextUtils.ReplaceRunsKeeps` | tools/text_utils.py:63-64 | After run replacement no character of the class remains, and properties of the other characters and of the replacement carry over. |
| `TextUtils.ReplaceRunsMeaning` | tools/text_utils.py:63-64 | Run replacement keeps every character outside the class other than the replacement, in order, and adds exactly one replacement character per maximal run. |
| `TextUtils.SnakeIsClean` | tools/text_utils.py:60-64 | snake_case output has no whitespace, no `-` and no upper-case letter. |
| `TextUtils.KebabIsClean` | tools/text_utils.py:73-77 | kebab-case output has no whitespace, no `_` and no upper-case letter. |
| `TextUtils.SpaceBeforeCapitalDoublesSeparator` | tools/text_utils.py:60-64 | `Ab Cd` becomes `ab__cd`: marking comes before whitespace collapsing. |
| `TextUtils.Words` | tools/text_utils.py:67 | Splitting on separator runs gives at least one word. |
| `TextUtils.WordsKeepEverythingElse` | tools/text_utils.py:67 | The words concatenated are the text without its separators. |
| `TextUtils.WordsKeep` | tools/text_utils.py:67 | No word holds a separator, and properties of the other characters carry over to the words. |
| `TextUtils.WordsOfSeparatorFree` | tools/text_utils.py:67 | A text without separators is a single word. |
| `TextUtils.WordsAroundRun` | tools/text_utils.py:67 | A maximal run of separators between two texts splits the words of the first from those of the second; with the row above this fixes the words of every text. |
| `TextUtils.CapitalizeAll` | tools/text_utils.py:68 | One capitalised word per word. |
| `TextUtils.CapitalizedSeparatorFree` | tools/text_utils.py:72 | Capitalised separator-free words concatenate to separator-free text. |
| `TextUtils.CapitalizedStartsUpper` | tools/text_utils.py:72 | A non-empty concatenation of capitalised words starts with an upper-cased character. |
| `TextUtils.LoweredWords` | tools/text_utils.py:67 | The words of the lower-cased text are separator-free and lower-case. |
| `TextUtils.CamelAndPascalHaveNoSeparators` | tools/text_utils.py:65-72 | Neither camelCase nor PascalCase output holds `_`, whitespace or `-`. |
| `TextUtils.CamelAndPascalDifferOnlyFirst` | tools/text_utils.py:65-72 | camelCase and PascalCase have the same length and agree except at the first character, which PascalCase upper-cases. |
| `TextUtils.OperationNamed` | tools/text_utils.py:52-77 | An accepted name selects the operation of that name. |
| `TextUtils.OperationNamesRoundTrip` | tools/text_utils.py:52-77 | Each of the eight operations' names is accepted and selects that operation and no other. |
| `TextUtils.FormatText` | tools/text_utils.py:49-81 | An unknown operation gives only the error listing the eight operations; a known one applies that conversion. |
| `TextUtils.FormatTextSelects` | tools/text_utils.py:52-79 | Passing an operation's name applies that operation. |
| `TextUtils.Apply` | tools/text_utils.py:52-77 | `upper`, `lower`, `title` and `capitalize` keep the length; `upper` leaves no lower-case letter and `lower` no upper-case one. |
| `TextUtils.NumberedMatches` | tools/text_utils.py:20-24 | The listed matches are numbered from 1, one line each. |
| `TextUtils.MatchLines` | tools/text_utils.py:16-27 | The count line, then min(50, n) matches numbered from 1 with group tuples joined by `, `, then `... and n-50 more matches` only when n > 50. |
| `TextUtils.RegexReport` | tools/text_utils.py:8-31 | An invalid pattern gives the error text, no match gives the no-match text, and otherwise the report starts with `Found <n> match(es):` and is exactly the listing `MatchLines` (numbered from 1, capped at 50, with the `... and n-50 more matches` line) joined by newlines. |
| `TextUtils.RegexSearch` | tools/text_utils.py:8-31 | The listing loop yields exactly the report: the invalid-pattern error, the no-match message, or the listing. |

## Left out

- The Gemini client and the network call. The endpoint is a function from the request to the reply's first candidate; a response with no candidate and API errors are not modelled.
- Agent.Agent.Run: the source recurses without bound. `fuel` bounds the number of tool rounds, and `RoundLimit` reports a reply that still asked for tools when the bound was reached.
- Tool functions raising exceptions. A tool is a total function from the keyword arguments to a JSON value.
- Dictionary order. The registry is a map and declarations are a set, so the order in which declarations are advertised is not modelled.
- The banner, `input()`, end of input and keyboard interrupts in `main`, and the line end `print` adds after the reply text: console I/O.
- Reading and writing files, `expanduser`, creating parent directories, and the generic `Error ...: <exception>` paths. File contents, the decoded JSON document and the rows produced by the CSV reader are inputs.
- `json.dumps` rendering of the value a query reaches. `QueryAnswer` returns the value itself.
- The `csv` module's quoting and dialects. `_write_csv` is modelled up to the rows it hands to the writer; a delimiter longer than one character is the writer's error.
- `rglob` traversal order and the `is_file` test. A directory is given as its regular files in traversal order, and a file whose text cannot be read is skipped.
- `compile`. The syntax check's outcome is an input, and a syntax error always carries a line number, so `None` is not modelled.
- CodeAnalysis.AnalysisLines: `Size` counts characters, not bytes.
- Regular expressions. The matches of `re.findall` are an input, and the TODO patterns are case-insensitive literal substrings. `_regex_replace` is not part of this model; it is a single `re.sub` call.
- Default arguments. Every parameter is passed explicitly, so `system_instruction="You are a helpful assistant."` (agent.py:30), `extensions=".py"` (tools/code_analysis.py:86) and `delimiter=","` (tools/data_processing.py:85, 115) are not modelled.
- `response.text` being `None`. `ReplyText` gives the empty text for a reply without text parts; if the SDK gives `None` there, `.strip()` would raise, and that failure is not modelled.
- Strings.IsDigits: accepts only the ASCII digits, whereas `str.isdigit` also accepts other Unicode digits; such a segment would reach `int(key)` in the source.
- Registry.AllTools: models the size assertion of tools/__init__.py:31 as always checked; under `python -O` Python skips it and a merge of any size is registered.
- JSON numbers. `Json.JNumber` holds integers only, whereas `json.load` also produces floats such as `1.5`. A query never inspects a number, so no query result depends on this.
- Unicode. Case mapping, `title`, `capitalize` and whitespace cover ASCII only, with `isspace` restricted to ASCII.
- The other tool modules (file, git, network, environment, archive and system monitoring) are not part of this model. The registry sees only their sizes.
