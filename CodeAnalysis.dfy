/**
  The counting and reporting logic of the code-analysis tools
  (tools/code_analysis.py): line classification and the counters of
  `_count_code_lines`, the per-line tagging and the 50-entry cap of
  `_find_todos`, and the line counts `_analyze_code` reports.

  The filesystem is a parameter: a directory is given as the list of its
  regular files in traversal order, each with its path relative to the
  directory and its text, or no text when reading it failed.
*/
module CodeAnalysis {
  import opened Strings

  datatype Option<T> = None | Some(value: T)

  /** A regular file found under the searched directory. */
  datatype SourceFile = SourceFile(path: string, content: Option<string>)

  /** What the tools find at the directory path they are given. */
  datatype Directory =
    | NoSuchDirectory
    | NotADirectory
    | Listing(files: seq<SourceFile>)

  function MissingDirectoryMessage(directoryPath: string): string {
    "Error: Directory '" + directoryPath + "' does not exist."
  }

  function NotADirectoryMessage(directoryPath: string): string {
    "Error: '" + directoryPath + "' is not a directory."
  }

  /** The lines of a text: `content.split("\n")`. */
  function LinesOf(content: string): (lines: seq<string>)
    ensures |lines| == Occurrences(content, '\n') + 1
    ensures Join(lines, "\n") == content
  {
    Split(content, '\n')
  }

  // ---------------------------------------------------------------------------
  // File suffixes (`Path.suffix`)
  // ---------------------------------------------------------------------------

  /** The index of the last occurrence of `c` among the first `n` characters of `s`, or -1. */
  function LastIndexBefore(s: string, c: char, n: nat): (i: int)
    requires n <= |s|
    ensures -1 <= i < n
    ensures i >= 0 ==> s[i] == c
    ensures forall j :: i < j < n ==> s[j] != c
  {
    if n == 0 then -1
    else if s[n - 1] == c then n - 1
    else LastIndexBefore(s, c, n - 1)
  }

  /** `s.rfind(c)`: the index of the last occurrence of `c` in `s`, or -1. */
  function LastIndexOf(s: string, c: char): (i: int)
    ensures -1 <= i < |s|
    ensures i >= 0 ==> s[i] == c
    ensures forall j :: i < j < |s| ==> s[j] != c
  {
    LastIndexBefore(s, c, |s|)
  }

  /** The last component of a relative path. */
  function BaseName(path: string): (name: string)
    ensures '/' !in name && EndsWith(path, name)
  {
    var slash := LastIndexOf(path, '/');
    path[slash + 1..]
  }

  /** The file name is the whole path, or it starts right after a slash. */
  lemma BaseNameFollowsSlash(path: string)
    ensures var name := BaseName(path);
      |name| == |path| || path[|path| - |name| - 1] == '/'
  {
  }

  /**
    `Path.suffix`: from the last dot of the file name to its end, provided
    that dot is neither the first nor the last character of the name;
    otherwise empty.
  */
  function Suffix(path: string): (suffix: string)
    ensures suffix != [] ==>
      var name := BaseName(path);
      && 2 <= |suffix| < |name|
      && suffix[0] == '.' && '.' !in suffix[1..]
      && EndsWith(name, suffix)
  {
    var name := BaseName(path);
    var dot := LastIndexOf(name, '.');
    if 0 < dot < |name| - 1 then name[dot..] else ""
  }

  /**
    A suffix exists exactly when the last dot of the file name is neither its
    first nor its last character: a hidden file's leading dot starts none.
  */
  lemma SuffixIsFromLastInnerDot(path: string)
    ensures var name := BaseName(path);
      Suffix(path) != [] <==>
        exists i :: 0 < i < |name| - 1 && name[i] == '.' && '.' !in name[i + 1..]
  {
    var name := BaseName(path);
    var dot := LastIndexOf(name, '.');
    if exists i :: 0 < i < |name| - 1 && name[i] == '.' && '.' !in name[i + 1..] {
      var i :| 0 < i < |name| - 1 && name[i] == '.' && '.' !in name[i + 1..];
      assert dot >= i;
    }
  }

  // ---------------------------------------------------------------------------
  // `_count_code_lines`
  // ---------------------------------------------------------------------------

  /** One requested extension: kept as it is (stripped) if it starts with a dot, else given one. */
  function NormaliseExtension(e: string): (ext: string)
    ensures ext != [] && ext[0] == '.'
    ensures StartsWith(e, ".") ==> ext == Strip(e)
    ensures !StartsWith(e, ".") ==> ext == "." + Strip(e)
  {
    if StartsWith(e, ".") then
      assert !IsSpace(e[0]);
      Strip(e)
    else "." + Strip(e)
  }

  /** `ext_list`: every comma-separated item of the argument, normalised. */
  function ParseExtensions(extensions: string): (exts: seq<string>)
    ensures |exts| == Occurrences(extensions, ',') + 1
    ensures forall i :: 0 <= i < |exts| ==>
      exts[i] == NormaliseExtension(Split(extensions, ',')[i]) && exts[i][0] == '.'
  {
    var items := Split(extensions, ',');
    seq(|items|, i requires 0 <= i < |items| => NormaliseExtension(items[i]))
  }

  /** The dot test looks at the item before stripping: ` .js` gains a second dot. */
  lemma LeadingSpaceGainsADot()
    ensures NormaliseExtension(" .js") == "..js"
  {
    assert !StartsWith(" .js", ".");
    assert LStrip(" .js") == ".js";
    assert RStrip(".js") == ".js";
  }

  /** How a line is counted. */
  datatype LineKind = Blank | Comment | Code

  /** Blank when empty after stripping; a comment when it then starts with `#` or `//`; code otherwise. */
  function Classify(line: string): LineKind {
    var stripped := Strip(line);
    if stripped == "" then Blank
    else if StartsWith(stripped, "#") || StartsWith(stripped, "//") then Comment
    else Code
  }

  /**
    A line is blank exactly when it is empty after stripping, a comment
    exactly when it is not blank and then starts with a comment marker, and
    code when it is neither: in particular a non-blank line that does not
    start with a marker after stripping is code.
  */
  lemma ClassifyMeaning(line: string)
    ensures Classify(line) == Blank <==> forall i :: 0 <= i < |line| ==> IsSpace(line[i])
    ensures Classify(line) == Comment <==>
      Strip(line) != "" && (Strip(line)[0] == '#' || StartsWith(Strip(line), "//"))
    ensures Classify(line) == Code <==>
      Strip(line) != "" && Strip(line)[0] != '#' && !StartsWith(Strip(line), "//")
  {
  }

  /** The number of lines of the given kind. */
  function KindCount(lines: seq<string>, k: LineKind): nat {
    if lines == [] then 0
    else KindCount(lines[..|lines| - 1], k) + (if Classify(lines[|lines| - 1]) == k then 1 else 0)
  }

  lemma KindCountStep(lines: seq<string>, j: nat)
    requires j < |lines|
    ensures var k := Classify(lines[j]);
      && KindCount(lines[..j + 1], k) == KindCount(lines[..j], k) + 1
      && forall other :: other != k ==> KindCount(lines[..j + 1], other) == KindCount(lines[..j], other)
  {
    assert lines[..j + 1][..j] == lines[..j];
  }

  /** Every line is exactly one kind, so the three counts add up to the number of lines. */
  lemma {:induction false} KindsPartitionLines(lines: seq<string>)
    ensures KindCount(lines, Blank) + KindCount(lines, Comment) + KindCount(lines, Code) == |lines|
  {
    if lines != [] {
      KindsPartitionLines(lines[..|lines| - 1]);
    }
  }

  /** The counters of `stats`. */
  datatype Stats = Stats(files: nat, lines: nat, code: nat, blank: nat, comment: nat)

  const NoStats := Stats(0, 0, 0, 0, 0)

  /** What one counted file adds: one file, its lines, and its lines by kind. */
  function FileStats(content: string): Stats {
    var lines := LinesOf(content);
    Stats(1, |lines|, KindCount(lines, Code), KindCount(lines, Blank), KindCount(lines, Comment))
  }

  function Plus(a: Stats, b: Stats): Stats {
    Stats(a.files + b.files, a.lines + b.lines, a.code + b.code, a.blank + b.blank, a.comment + b.comment)
  }

  /** A file is counted when its suffix is requested and its text could be read. */
  predicate IsCounted(f: SourceFile, exts: seq<string>) {
    Suffix(f.path) in exts && f.content.Some?
  }

  /** The counters after the given files, in order. */
  function Tally(files: seq<SourceFile>, exts: seq<string>): Stats {
    if files == [] then NoStats
    else
      var last := files[|files| - 1];
      var before := Tally(files[..|files| - 1], exts);
      if IsCounted(last, exts) then Plus(before, FileStats(last.content.value)) else before
  }

  /** The number of counted files among `files`. */
  function CountedFiles(files: seq<SourceFile>, exts: seq<string>): nat {
    if files == [] then 0
    else CountedFiles(files[..|files| - 1], exts) + (if IsCounted(files[|files| - 1], exts) then 1 else 0)
  }

  /** The number of lines of the counted files: one more than its newlines, for each. */
  function CountedLines(files: seq<SourceFile>, exts: seq<string>): nat {
    if files == [] then 0
    else
      var last := files[|files| - 1];
      CountedLines(files[..|files| - 1], exts)
        + (if IsCounted(last, exts) then Occurrences(last.content.value, '\n') + 1 else 0)
  }

  /** One counted file: one file, its newlines plus one lines, each line of exactly one kind. */
  lemma FileStatsAddUp(content: string)
    ensures FileStats(content).files == 1
    ensures FileStats(content).lines == Occurrences(content, '\n') + 1
    ensures FileStats(content).blank + FileStats(content).comment + FileStats(content).code
      == FileStats(content).lines
  {
    KindsPartitionLines(LinesOf(content));
  }

  /** One file is counted per readable file with a requested suffix. */
  lemma {:induction false} TallyCountsFiles(files: seq<SourceFile>, exts: seq<string>)
    ensures Tally(files, exts).files == CountedFiles(files, exts)
  {
    if files != [] {
      TallyCountsFiles(files[..|files| - 1], exts);
      var last := files[|files| - 1];
      if IsCounted(last, exts) {
        FileStatsAddUp(last.content.value);
      }
    }
  }

  /** Each counted file contributes its newlines plus one lines. */
  lemma {:induction false} TallyCountsLines(files: seq<SourceFile>, exts: seq<string>)
    ensures Tally(files, exts).lines == CountedLines(files, exts)
  {
    if files != [] {
      TallyCountsLines(files[..|files| - 1], exts);
      var last := files[|files| - 1];
      if IsCounted(last, exts) {
        FileStatsAddUp(last.content.value);
      }
    }
  }

  /** Blank, comment and code lines add up to all counted lines. */
  lemma {:induction false} TallyKindsAddUp(files: seq<SourceFile>, exts: seq<string>)
    ensures Tally(files, exts).blank + Tally(files, exts).comment + Tally(files, exts).code
      == Tally(files, exts).lines
  {
    if files != [] {
      TallyKindsAddUp(files[..|files| - 1], exts);
      var last := files[|files| - 1];
      if IsCounted(last, exts) {
        FileStatsAddUp(last.content.value);
      }
    }
  }

  function StatsReport(directoryPath: string, extensions: string, st: Stats): string {
    "Code statistics for " + directoryPath + " (" + extensions + "):\n"
      + "Files: " + NatToString(st.files) + "\n"
      + "Total lines: " + NatToString(st.lines) + "\n"
      + "Code lines: " + NatToString(st.code) + "\n"
      + "Blank lines: " + NatToString(st.blank) + "\n"
      + "Comment lines: " + NatToString(st.comment)
  }

  function NoFilesMessage(extensions: string): string {
    "No files found with extensions: " + extensions
  }

  /** What `_count_code_lines` returns. */
  function CountReport(directoryPath: string, extensions: string, dir: Directory): (report: string)
    ensures dir.NoSuchDirectory? ==> report == MissingDirectoryMessage(directoryPath)
    ensures dir.NotADirectory? ==> report == NotADirectoryMessage(directoryPath)
  {
    match dir
    case NoSuchDirectory => MissingDirectoryMessage(directoryPath)
    case NotADirectory => NotADirectoryMessage(directoryPath)
    case Listing(files) =>
      var st := Tally(files, ParseExtensions(extensions));
      if st.files == 0 then NoFilesMessage(extensions) else StatsReport(directoryPath, extensions, st)
  }

  /**
    The report of a listed directory is the no-files message when no file was
    counted, and otherwise the statistics, whose file count is the number of
    counted files.
  */
  lemma ListingReport(directoryPath: string, extensions: string, files: seq<SourceFile>)
    ensures var exts := ParseExtensions(extensions);
      CountReport(directoryPath, extensions, Listing(files)) ==
        if CountedFiles(files, exts) == 0 then NoFilesMessage(extensions)
        else StatsReport(directoryPath, extensions, Tally(files, exts))
    ensures Tally(files, ParseExtensions(extensions)).files == CountedFiles(files, ParseExtensions(extensions))
  {
    TallyCountsFiles(files, ParseExtensions(extensions));
  }

  /** The inner loop of `_count_code_lines`: classify each line of one file. */
  method CountKinds(lines: seq<string>) returns (code: nat, blank: nat, comment: nat)
    ensures code == KindCount(lines, Code)
    ensures blank == KindCount(lines, Blank)
    ensures comment == KindCount(lines, Comment)
  {
    code, blank, comment := 0, 0, 0;
    for j := 0 to |lines|
      invariant code == KindCount(lines[..j], Code)
      invariant blank == KindCount(lines[..j], Blank)
      invariant comment == KindCount(lines[..j], Comment)
    {
      KindCountStep(lines, j);
      var k := Classify(lines[j]);
      if k == Blank {
        blank := blank + 1;
      } else if k == Comment {
        comment := comment + 1;
      } else {
        code := code + 1;
      }
    }
    assert lines[..|lines|] == lines;
  }

  /** The counters one readable file with a requested suffix adds. */
  method CountFileLines(content: string) returns (st: Stats)
    ensures st == FileStats(content)
  {
    var lines := LinesOf(content);
    var code, blank, comment := CountKinds(lines);
    st := Stats(1, |lines|, code, blank, comment);
  }

  /** The counting loop of `_count_code_lines` over the files, and its report. */
  method CountCodeLines(directoryPath: string, extensions: string, dir: Directory) returns (report: string)
    ensures report == CountReport(directoryPath, extensions, dir)
  {
    if dir.NoSuchDirectory? {
      return MissingDirectoryMessage(directoryPath);
    }
    if dir.NotADirectory? {
      return NotADirectoryMessage(directoryPath);
    }
    var files := dir.files;
    var extList := ParseExtensions(extensions);
    var stats := NoStats;
    for i := 0 to |files|
      invariant stats == Tally(files[..i], extList)
    {
      var file := files[i];
      assert files[..i + 1][..i] == files[..i];
      if Suffix(file.path) in extList && file.content.Some? {
        var counted := CountFileLines(file.content.value);
        stats := Plus(stats, counted);
      }
    }
    assert files[..|files|] == files;
    if stats.files == 0 {
      return NoFilesMessage(extensions);
    }
    report := StatsReport(directoryPath, extensions, stats);
  }

  // ---------------------------------------------------------------------------
  // `_find_todos`
  // ---------------------------------------------------------------------------

  /** The markers searched for; matching ignores letter case. */
  const TodoPatterns: seq<string> := ["TODO", "FIXME", "HACK", "XXX", "NOTE"]

  /** The suffixes of the files searched. */
  const TodoSuffixes: seq<string> := [".py", ".js", ".java", ".cpp", ".c", ".go", ".rs"]

  /** Case-insensitive occurrence of an upper-case pattern, on ASCII. */
  predicate MatchesIgnoringCase(line: string, pattern: string) {
    Contains(Upper(line), pattern)
  }

  /** One of the markers from the `p`-th on occurs in the upper-cased line. */
  predicate MarkerFrom(upper: string, p: nat)
    decreases |TodoPatterns| - p
  {
    p < |TodoPatterns| && (Contains(upper, TodoPatterns[p]) || MarkerFrom(upper, p + 1))
  }

  /** Some marker occurs in the line, ignoring case. */
  predicate MentionsTodo(line: string) {
    MarkerFrom(Upper(line), 0)
  }

  lemma {:induction false} MarkerFromMeaning(upper: string, p: nat)
    ensures MarkerFrom(upper, p) <==> exists q :: p <= q < |TodoPatterns| && Contains(upper, TodoPatterns[q])
    decreases |TodoPatterns| - p
  {
    if p < |TodoPatterns| {
      MarkerFromMeaning(upper, p + 1);
      if exists q :: p <= q < |TodoPatterns| && Contains(upper, TodoPatterns[q]) {
        var q :| p <= q < |TodoPatterns| && Contains(upper, TodoPatterns[q]);
        if q > p {
          assert p + 1 <= q;
        }
      }
    }
  }

  /** A line mentions a marker exactly when one of the five occurs in it, in any letter case. */
  lemma MentionsTodoMeaning(line: string)
    ensures MentionsTodo(line) <==> exists q :: 0 <= q < |TodoPatterns| && MatchesIgnoringCase(line, TodoPatterns[q])
  {
    MarkerFromMeaning(Upper(line), 0);
  }

  /** `{relative path}:{line number}: {stripped line}`. */
  function TodoEntry(path: string, number: nat, line: string): string {
    path + ":" + NatToString(number) + ": " + Strip(line)
  }

  /** The entries for the first `n` lines of a file: one per line that mentions a marker. */
  function LineEntries(path: string, lines: seq<string>, n: nat): seq<string>
    requires n <= |lines|
  {
    if n == 0 then []
    else
      LineEntries(path, lines, n - 1)
        + (if MentionsTodo(lines[n - 1]) then [TodoEntry(path, n, lines[n - 1])] else [])
  }

  /** A line yields at most one entry. */
  lemma {:induction false} LineEntriesAtMostOnePerLine(path: string, lines: seq<string>, n: nat)
    requires n <= |lines|
    ensures |LineEntries(path, lines, n)| <= n
  {
    if n > 0 {
      LineEntriesAtMostOnePerLine(path, lines, n - 1);
    }
  }

  /** Every line that mentions a marker has its entry, numbered from 1. */
  lemma {:induction false} LineEntriesComplete(path: string, lines: seq<string>, n: nat, i: nat)
    requires i < n <= |lines| && MentionsTodo(lines[i])
    ensures TodoEntry(path, i + 1, lines[i]) in LineEntries(path, lines, n)
  {
    if i < n - 1 {
      LineEntriesComplete(path, lines, n - 1, i);
    }
  }

  /** Every entry is the entry of a line that mentions a marker. */
  lemma {:induction false} LineEntriesSound(path: string, lines: seq<string>, n: nat, e: string)
    requires n <= |lines| && e in LineEntries(path, lines, n)
    ensures exists i :: 0 <= i < n && MentionsTodo(lines[i]) && e == TodoEntry(path, i + 1, lines[i])
  {
    if e in LineEntries(path, lines, n - 1) {
      LineEntriesSound(path, lines, n - 1, e);
    }
  }

  /** A file is searched when its suffix is one of the source suffixes and its text could be read. */
  predicate IsSearched(f: SourceFile) {
    Suffix(f.path) in TodoSuffixes && f.content.Some?
  }

  /** The entries of one file. */
  function FileEntries(f: SourceFile): seq<string> {
    if IsSearched(f) then
      var lines := LinesOf(f.content.value);
      LineEntries(f.path, lines, |lines|)
    else []
  }

  /** The entries of all files, in traversal order. */
  function TodoEntries(files: seq<SourceFile>): seq<string> {
    if files == [] then []
    else TodoEntries(files[..|files| - 1]) + FileEntries(files[|files| - 1])
  }

  /** The entries of two runs of files are those of the first, then those of the second: file order is kept. */
  lemma {:induction false} TodoEntriesConcat(a: seq<SourceFile>, b: seq<SourceFile>)
    ensures TodoEntries(a + b) == TodoEntries(a) + TodoEntries(b)
    decreases |b|
  {
    if b == [] {
      assert a + b == a;
    } else {
      assert (a + b)[..|a + b| - 1] == a + b[..|b| - 1];
      TodoEntriesConcat(a, b[..|b| - 1]);
    }
  }

  /** A file that is not searched, or cannot be read, contributes no entry. */
  lemma UnsearchedFileHasNoEntries(files: seq<SourceFile>, f: SourceFile)
    requires !IsSearched(f)
    ensures TodoEntries(files + [f]) == TodoEntries(files)
  {
    assert (files + [f])[..|files|] == files;
  }

  /** At most this many entries are listed. */
  const MaxListedTodos: nat := 50

  function NoTodosMessage(directoryPath: string): string {
    "No TODO/FIXME comments found in '" + directoryPath + "'"
  }

  function TruncationNote(total: nat): string {
    "\n\n... (showing first 50 of " + NatToString(total) + " total)"
  }

  /** The report for the collected entries. */
  function TodoListing(directoryPath: string, results: seq<string>): (report: string)
    ensures results == [] ==> report == NoTodosMessage(directoryPath)
    ensures 0 < |results| <= MaxListedTodos ==> report == Join(results, "\n")
    ensures |results| > MaxListedTodos ==>
      report == Join(results[..MaxListedTodos], "\n") + TruncationNote(|results|)
  {
    if results == [] then NoTodosMessage(directoryPath)
    else if |results| > MaxListedTodos then
      Join(results[..MaxListedTodos], "\n") + TruncationNote(|results|)
    else Join(results, "\n")
  }

  /** What `_find_todos` returns. */
  function TodoReport(directoryPath: string, dir: Directory): (report: string)
    ensures dir.NoSuchDirectory? ==> report == MissingDirectoryMessage(directoryPath)
    ensures dir.NotADirectory? ==> report == NotADirectoryMessage(directoryPath)
    ensures dir.Listing? ==> report == TodoListing(directoryPath, TodoEntries(dir.files))
  {
    match dir
    case NoSuchDirectory => MissingDirectoryMessage(directoryPath)
    case NotADirectory => NotADirectoryMessage(directoryPath)
    case Listing(files) => TodoListing(directoryPath, TodoEntries(files))
  }

  /** The innermost loop of `_find_todos`: try the markers in order until one matches. */
  method HasMarker(line: string) returns (found: bool)
    ensures found <==> MentionsTodo(line)
  {
    var upper := Upper(line);
    var p := 0;
    while p < |TodoPatterns|
      invariant 0 <= p <= |TodoPatterns|
      invariant MentionsTodo(line) == MarkerFrom(upper, p)
      decreases |TodoPatterns| - p
    {
      if Contains(upper, TodoPatterns[p]) {
        return true;
      }
      p := p + 1;
    }
    return false;
  }

  /** The loop over one file's lines, numbered from 1. */
  method ScanLines(path: string, lines: seq<string>) returns (entries: seq<string>)
    ensures entries == LineEntries(path, lines, |lines|)
  {
    entries := [];
    for i := 0 to |lines|
      invariant entries == LineEntries(path, lines, i)
    {
      var found := HasMarker(lines[i]);
      if found {
        entries := entries + [TodoEntry(path, i + 1, lines[i])];
      }
    }
  }

  /** The loop of `_find_todos` over the files, and its report. */
  method FindTodos(directoryPath: string, dir: Directory) returns (report: string)
    ensures report == TodoReport(directoryPath, dir)
  {
    if dir.NoSuchDirectory? {
      return MissingDirectoryMessage(directoryPath);
    }
    if dir.NotADirectory? {
      return NotADirectoryMessage(directoryPath);
    }
    var files := dir.files;
    var results: seq<string> := [];
    for f := 0 to |files|
      invariant results == TodoEntries(files[..f])
    {
      var file := files[f];
      assert files[..f + 1][..f] == files[..f];
      if Suffix(file.path) in TodoSuffixes && file.content.Some? {
        var entries := ScanLines(file.path, LinesOf(file.content.value));
        results := results + entries;
      }
    }
    assert files[..|files|] == files;
    report := TodoListing(directoryPath, results);
  }

  // ---------------------------------------------------------------------------
  // `_analyze_code`
  // ---------------------------------------------------------------------------

  /** What `_analyze_code` finds at the path it is given. */
  datatype FileEntry = NoSuchFile | NotAFile | Regular(content: string)

  /** The outcome of compiling a Python file, supplied by the caller. */
  datatype SyntaxCheck = SyntaxOk | SyntaxError(lineNumber: nat, msg: string)

  /** The number of lines that are not blank after stripping. */
  function NonEmptyCount(lines: seq<string>): nat {
    if lines == [] then 0
    else NonEmptyCount(lines[..|lines| - 1]) + (if Strip(lines[|lines| - 1]) != "" then 1 else 0)
  }

  /** The structure a stripped line can announce. */
  datatype Declares = Import | FunctionDef | ClassDef

  predicate Announces(line: string, d: Declares) {
    var stripped := Strip(line);
    match d
    case Import => StartsWith(stripped, "import ") || StartsWith(stripped, "from ")
    case FunctionDef => StartsWith(stripped, "def ")
    case ClassDef => StartsWith(stripped, "class ")
  }

  function DeclarationCount(lines: seq<string>, d: Declares): nat {
    if lines == [] then 0
    else DeclarationCount(lines[..|lines| - 1], d) + (if Announces(lines[|lines| - 1], d) then 1 else 0)
  }

  /** A line announces at most one kind of declaration: the prefixes start with different letters. */
  lemma AnnouncesAtMostOne(line: string)
    ensures !(Announces(line, Import) && Announces(line, FunctionDef))
    ensures !(Announces(line, Import) && Announces(line, ClassDef))
    ensures !(Announces(line, FunctionDef) && Announces(line, ClassDef))
  {
    var s := Strip(line);
    if s != [] {
      FirstOfPrefix(s, "import ");
      FirstOfPrefix(s, "from ");
      FirstOfPrefix(s, "def ");
      FirstOfPrefix(s, "class ");
    }
  }

  lemma FirstOfPrefix(s: string, prefix: string)
    requires prefix != []
    ensures StartsWith(s, prefix) ==> s[0] == prefix[0]
  {
    if StartsWith(s, prefix) {
      assert s[..|prefix|][0] == prefix[0];
    }
  }

  /**
    The non-blank lines never outnumber the lines, and imports, functions and
    classes together never outnumber the non-blank lines.
  */
  lemma {:induction false} DeclarationsFitInLines(lines: seq<string>)
    ensures NonEmptyCount(lines) <= |lines|
    ensures DeclarationCount(lines, Import) + DeclarationCount(lines, FunctionDef)
      + DeclarationCount(lines, ClassDef) <= NonEmptyCount(lines)
  {
    if lines != [] {
      DeclarationsFitInLines(lines[..|lines| - 1]);
      var last := lines[|lines| - 1];
      AnnouncesAtMostOne(last);
      if Strip(last) == "" {
        assert !Announces(last, Import) && !Announces(last, FunctionDef) && !Announces(last, ClassDef);
      }
    }
  }

  function SyntaxLine(check: SyntaxCheck): string {
    match check
    case SyntaxOk => "Python syntax: \U{2713} Valid"
    case SyntaxError(n, msg) => "Python syntax: \U{2717} Error on line " + NatToString(n) + ": " + msg
  }

  /** The four report lines of `_analyze_code` for any readable file. */
  function CommonLines(filePath: string, content: string): seq<string> {
    var lines := LinesOf(content);
    [ "File: " + filePath,
      "Total lines: " + NatToString(|lines|),
      "Non-empty lines: " + NatToString(NonEmptyCount(lines)),
      "Size: " + NatToString(|content|) + " bytes" ]
  }

  /** The four further lines for a `.py` path. */
  function PythonLines(content: string, check: SyntaxCheck): seq<string> {
    var lines := LinesOf(content);
    [ SyntaxLine(check),
      "Imports: " + NatToString(DeclarationCount(lines, Import)),
      "Functions: " + NatToString(DeclarationCount(lines, FunctionDef)),
      "Classes: " + NatToString(DeclarationCount(lines, ClassDef)) ]
  }

  /** The report lines of `_analyze_code` for a readable file. */
  function AnalysisLines(filePath: string, content: string, check: SyntaxCheck): (info: seq<string>)
    ensures |info| == (if EndsWith(filePath, ".py") then 8 else 4)
  {
    CommonLines(filePath, content) + (if EndsWith(filePath, ".py") then PythonLines(content, check) else [])
  }

  /**
    Each report line holds its label and its count: the lines and non-blank
    lines of the newline split, the size, and for a `.py` path the syntax
    verdict and the import, function and class counts.
  */
  lemma AnalysisLinesValues(filePath: string, content: string, check: SyntaxCheck)
    ensures var info := AnalysisLines(filePath, content, check);
      var lines := LinesOf(content);
      && info[0] == "File: " + filePath
      && info[1] == "Total lines: " + NatToString(|lines|)
      && info[2] == "Non-empty lines: " + NatToString(NonEmptyCount(lines))
      && info[3] == "Size: " + NatToString(|content|) + " bytes"
    ensures EndsWith(filePath, ".py") ==>
      var info := AnalysisLines(filePath, content, check);
      var lines := LinesOf(content);
      && info[4] == SyntaxLine(check)
      && info[5] == "Imports: " + NatToString(DeclarationCount(lines, Import))
      && info[6] == "Functions: " + NatToString(DeclarationCount(lines, FunctionDef))
      && info[7] == "Classes: " + NatToString(DeclarationCount(lines, ClassDef))
  {
    var info := AnalysisLines(filePath, content, check);
    assert info[..4] == CommonLines(filePath, content);
    if EndsWith(filePath, ".py") {
      assert info[4..] == PythonLines(content, check);
    }
  }

  /** What `_analyze_code` returns. */
  function AnalyzeCode(filePath: string, entry: FileEntry, check: SyntaxCheck): (report: string)
    ensures entry.NoSuchFile? ==> report == "Error: File '" + filePath + "' does not exist."
    ensures entry.NotAFile? ==> report == "Error: '" + filePath + "' is not a file."
    ensures entry.Regular? ==> StartsWith(report, "File: " + filePath)
    ensures entry.Regular? ==> report == Join(AnalysisLines(filePath, entry.content, check), "\n")
  {
    match entry
    case NoSuchFile => "Error: File '" + filePath + "' does not exist."
    case NotAFile => "Error: '" + filePath + "' is not a file."
    case Regular(content) =>
      var info := AnalysisLines(filePath, content, check);
      var report := Join(info, "\n");
      assert info[0] == CommonLines(filePath, content)[0];
      assert report[..|info[0]|] == info[0];
      report
  }
}
