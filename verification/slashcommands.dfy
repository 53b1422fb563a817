/**
 * The slash-command dispatcher of the chat panel: recognising a command, splitting it into a
 * lower-cased command word and its arguments, and answering each of the eight commands with
 * a text. The file system, the settings and the working directory are inputs.
 */
module SlashCommands {
  import opened Wrappers
  import opened Text
  import opened Host
  import opened Utils
  import opened Configuration

  /** What /clear answers: a signal to the panel rather than a text to show. */
  const ClearSignal: string := "CLEAR_CONVERSATION"

  /** The opening of the answers that report a mistake in the command. */
  const ErrorTag: string := "Error: "

  const ReadUsage: string := ErrorTag + "Please specify a file path. Usage: /read <file-path>"
  const SearchUsage: string := ErrorTag + "Please specify a search pattern. Usage: /search <pattern>"
  const WriteUsage: string := ErrorTag + "Please specify a file path. Usage: /write <path>"
  const InvalidPathMessage: string := ErrorTag + "Invalid file path."
  const TooLargeMessage: string := ErrorTag + "File too large (max 1MB)"

  /**
   * The command word: everything before the first space. For an input that does not start
   * with a space this is the first part of Split(new[] {' '}, 2, RemoveEmptyEntries).
   */
  function CommandWord(s: string): (r: string)
    ensures r <= s && ' ' !in r
    ensures |r| < |s| ==> s[|r|] == ' '
  {
    if s == [] || s[0] == ' ' then [] else [s[0]] + CommandWord(s[1..])
  }

  /** Drops the leading spaces (and only spaces). */
  function SkipSpaces(s: string): (r: string)
    ensures |r| <= |s| && r == s[|s| - |r|..]
    ensures forall i :: 0 <= i < |s| - |r| ==> s[i] == ' '
    ensures r == [] || r[0] != ' '
  {
    if s != [] && s[0] == ' ' then SkipSpaces(s[1..]) else s
  }

  /**
   * The arguments: the second part of the split, which is what follows the command word and
   * the run of spaces after it, or "" when nothing does.
   */
  function CommandArgs(s: string): string {
    SkipSpaces(s[|CommandWord(s)|..])
  }

  /**
   * The split cuts the input into the word, a run of spaces and the arguments; the word holds
   * no space and the arguments do not start with one. Only ' ' separates: a tab stays in the word.
   */
  lemma SplitParts(s: string)
    ensures var word, args := CommandWord(s), CommandArgs(s);
      && ' ' !in word
      && (args == [] || args[0] != ' ')
      && exists n :: 0 <= n && s == word + Repeat(' ', n) + args
  {
    var n := SplitAt(s);
  }

  /** The number of spaces between the command word and the arguments. */
  lemma {:induction false} SplitAt(s: string) returns (n: nat)
    ensures s == CommandWord(s) + Repeat(' ', n) + CommandArgs(s)
  {
    if s == [] || s[0] == ' ' {
      n := LeadingSpaceSplit(s);
    } else {
      n := SplitAt(s[1..]);
      WordCharSplit(s, n);
    }
  }

  /** With no command word, the split is the run of spaces and what follows it. */
  lemma LeadingSpaceSplit(s: string) returns (n: nat)
    requires s == [] || s[0] == ' '
    ensures s == CommandWord(s) + Repeat(' ', n) + CommandArgs(s)
  {
    var word := CommandWord(s);
    assert word == [];
    assert s[|word|..] == s;
    assert CommandArgs(s) == SkipSpaces(s);
    n := SkipSpacesSplits(s);
  }

  /** A split of the tail extends to the whole input when its first character joins the word. */
  lemma WordCharSplit(s: string, n: nat)
    requires s != [] && s[0] != ' '
    requires s[1..] == CommandWord(s[1..]) + Repeat(' ', n) + CommandArgs(s[1..])
    ensures s == CommandWord(s) + Repeat(' ', n) + CommandArgs(s)
  {
    CommandStep(s);
    ConsSplit(s, CommandWord(s[1..]), Repeat(' ', n), CommandArgs(s[1..]));
  }

  lemma ConsSplit(s: string, word: string, spaces: string, args: string)
    requires s != [] && s[1..] == word + spaces + args
    ensures s == [s[0]] + word + spaces + args
  {
    assert s == [s[0]] + s[1..];
  }

  /** A character other than a space joins the command word and leaves the arguments alone. */
  lemma CommandStep(s: string)
    requires s != [] && s[0] != ' '
    ensures CommandWord(s) == [s[0]] + CommandWord(s[1..])
    ensures CommandArgs(s) == CommandArgs(s[1..])
  {
    assert s[|CommandWord(s)|..] == s[1..][|CommandWord(s[1..])|..];
  }

  /** SkipSpaces drops a run of spaces and nothing else. */
  lemma SkipSpacesSplits(s: string) returns (n: nat)
    ensures s == Repeat(' ', n) + SkipSpaces(s)
  {
    var r := SkipSpaces(s);
    n := |s| - |r|;
    assert s[..n] == Repeat(' ', n);
    assert s == s[..n] + s[n..];
  }

  /** SlashCommandHandler.IsCommand: not blank, and '/' first once the leading white space is dropped. */
  function IsCommand(input: string): bool {
    !IsBlank(input) && "/" <= TrimStart(input)
  }

  /** An input is a command exactly when some '/' is preceded by white space only. */
  lemma IsCommandMeans(input: string)
    ensures IsCommand(input) <==> exists k :: 0 <= k < |input| && input[k] == '/' && IsBlank(input[..k])
  {
    if exists k :: 0 <= k < |input| && input[k] == '/' && IsBlank(input[..k]) {
      var k :| 0 <= k < |input| && input[k] == '/' && IsBlank(input[..k]);
      SlashAfterBlankIsCommand(input, k);
    }
    if IsCommand(input) {
      var t := TrimStart(input);
      var d := |input| - |t|;
      assert t[0] == '/';
      assert input[d] == t[0];
      assert 0 <= d < |input| && input[d] == '/' && IsBlank(input[..d]);
    }
  }

  lemma SlashAfterBlankIsCommand(input: string, k: nat)
    requires k < |input| && input[k] == '/' && IsBlank(input[..k])
    ensures IsCommand(input)
  {
    assert !IsWhiteSpace(input[k]);
    TrimStartAt(input, k);
    assert !IsBlank(input);
    assert input[k..][0] == '/';
  }

  /** The leading white space ends at the first character that is not white space. */
  lemma {:induction false} TrimStartAt(s: string, k: nat)
    requires k < |s| && !IsWhiteSpace(s[k]) && IsBlank(s[..k])
    ensures TrimStart(s) == s[k..]
  {
    if k > 0 {
      assert IsWhiteSpace(s[..k][0]);
      assert s[1..][..k - 1] == s[..k][1..];
      TrimStartAt(s[1..], k - 1);
    }
  }

  /** The answer to /read: the file's name and text, or the first check that fails, in the
      source's order: usage, sandbox rule for a relative path, existence, size, reading. */
  function ReadFile(workingDirectory: string, filePath: string, fs: FileSystem): string {
    if IsBlank(filePath) then ReadUsage
    else
      var fullPath := if IsPathRooted(filePath) then filePath else Combine(workingDirectory, filePath);
      if !ValidateRelativePath(filePath) && !IsPathRooted(filePath) then InvalidPathMessage
      else if fullPath !in fs.files then "Error: File not found: " + fullPath
      else if !ValidateFileSize(fs, fullPath, MaxFileSize) then TooLargeMessage
      else
        match fs.files[fullPath].text
        case Err(m) => "Error reading file: " + m
        case Ok(content) => "File: " + GetFileName(fullPath) + "\n\n" + content
  }

  /** The answer to /write: an announcement; nothing is written. */
  function PrepareWriteFile(args: string): string {
    if IsBlank(args) then WriteUsage
    else "Ready to write to: " + args + "\nPlease provide the content in your next message."
  }

  /** The names shown for a list of paths: their file names, ordered, at most cap of them. */
  function ShownNames(paths: seq<string>, cap: nat): seq<string> {
    Take(SortNames(FileNames(paths)), cap)
  }

  /** The lines of a directory listing with the given directory and file names. */
  function ListingLines(target: string, dirs: seq<string>, files: seq<string>): seq<string> {
    ["Directory: " + target, ""]
    + (if dirs != [] then ["Directories:"] + Prefixed("  [DIR] ", dirs) + [""] else [])
    + (if files != [] then ["Files:"] + Prefixed("  ", files) else [])
    + (if dirs == [] && files == [] then ["(empty directory)"] else [])
  }

  /** The three optional sections of a listing, appended one after the other, give ListingLines. */
  lemma ListingParts(target: string, dirs: seq<string>, files: seq<string>,
                     head: seq<string>, withDirs: seq<string>, withFiles: seq<string>, all: seq<string>)
    requires head == ["Directory: " + target, ""]
    requires withDirs == head + (if dirs != [] then ["Directories:"] + Prefixed("  [DIR] ", dirs) + [""] else [])
    requires withFiles == withDirs + (if files != [] then ["Files:"] + Prefixed("  ", files) else [])
    requires all == withFiles + (if dirs == [] && files == [] then ["(empty directory)"] else [])
    ensures all == ListingLines(target, dirs, files)
  {
  }

  /** The answer to /list: the working directory when no directory is given. */
  function ListDirectoryText(workingDirectory: string, directoryPath: string, fs: FileSystem): string {
    var target := if IsBlank(directoryPath) then workingDirectory else directoryPath;
    if target !in fs.directories then "Error: Directory not found: " + target
    else
      match fs.directories[target]
      case Unlistable(m) => "Error listing directory: " + m
      case Children(subdirectories, files) =>
        Unlines(ListingLines(target, ShownNames(subdirectories, 20), ShownNames(files, 50)))
  }

  /** The lines of a search result with the given matches. */
  function SearchLines(pattern: string, shown: seq<string>): seq<string> {
    ["Files matching '" + pattern + "':", ""] + Prefixed("  ", shown)
  }

  /** The answer to /search: at most 30 matches, ordered. */
  function SearchFilesText(workingDirectory: string, pattern: string, fs: FileSystem): string {
    if IsBlank(pattern) then SearchUsage
    else
      match fs.search(workingDirectory, pattern)
      case Err(m) => "Error searching files: " + m
      case Ok(found) =>
        var shown := Take(SortNames(found), 30);
        if shown == [] then "No files found matching: " + pattern
        else Unlines(SearchLines(pattern, shown))
  }

  /** The help text: a heading, the file commands, the session commands and examples. */
  const HelpHeadingLines: seq<string> := [
    "Available Slash Commands:",
    "",
    "/help - Show this help message"]

  const HelpFileCommandLines: seq<string> := [
    "/read <file-path> - Read a SQL script or file into context",
    "/list [directory] - List files in a directory",
    "/search <pattern> - Search for files matching pattern",
    "/write <path> - Prepare to write content to a file"]

  const HelpSessionCommandLines: seq<string> := [
    "/clear - Clear conversation history",
    "/config - Show current configuration",
    "/info - Show extension information"]

  const HelpExampleLines: seq<string> := [
    "",
    "Examples:",
    "  /read script.sql",
    "  /list C:\\SQLScripts",
    "  /search *.sql"]

  const HelpLines: seq<string> :=
    HelpHeadingLines + HelpFileCommandLines + HelpSessionCommandLines + HelpExampleLines

  /** How /config shows the token: only whether one is set. */
  function TokenState(token: string): string {
    if token == [] then "(not set)" else "***set***"
  }

  /** The /config text: a heading, the server, the generation limits, the token, the
      working directory and a tip. */
  function ConfigLines(config: LlmConfig, workingDirectory: string): seq<string> {
    ConfigHeadingLines
    + ServerLines(config)
    + LimitLines(config)
    + ["  Bearer Token: " + TokenState(config.bearerToken)]
    + ConfigFooterLines(workingDirectory)
  }

  const ConfigHeadingLines: seq<string> := ["Current Configuration:", "", "LLM Settings:"]

  function ServerLines(config: LlmConfig): seq<string> {
    [ "  Provider: " + ProviderName(config.provider),
      "  API URL: " + config.apiUrl,
      "  Model: " + config.modelName]
  }

  function LimitLines(config: LlmConfig): seq<string> {
    [ "  Temperature: " + config.temperature.literal,
      "  Max Tokens: " + IntToString(config.maxTokens),
      "  Timeout: " + IntToString(config.timeoutSeconds) + "s",
      "  Max History: " + IntToString(config.maxHistoryLength)]
  }

  function ConfigFooterLines(workingDirectory: string): seq<string> {
    [ "",
      "Working Directory: " + workingDirectory,
      "",
      "Tip: Change settings in Tools \U{2192} Options \U{2192} Local LLM Chat"]
  }

  const InfoLines: seq<string> := [
    "Local LLM Chat for SSMS",
    "",
    "Author: Markus Begerow",
    "Version: 1.0.0",
    "GitHub: https://github.com/markusbegerow/local-llm-chat-ssms"]

  function UnknownCommandText(cmd: string): string {
    "Unknown command: " + cmd + ". Type /help for available commands."
  }

  /** The answer to a lower-cased command word with its arguments. */
  function Respond(workingDirectory: string, config: LlmConfig, fs: FileSystem, cmd: string, args: string): string {
    if cmd == "/help" then Unlines(HelpLines)
    else if cmd == "/read" then ReadFile(workingDirectory, args, fs)
    else if cmd == "/list" then ListDirectoryText(workingDirectory, args, fs)
    else if cmd == "/search" then SearchFilesText(workingDirectory, args, fs)
    else if cmd == "/write" then PrepareWriteFile(args)
    else if cmd == "/clear" then ClearSignal
    else if cmd == "/config" then Unlines(ConfigLines(config, workingDirectory))
    else if cmd == "/info" then Unlines(InfoLines)
    else UnknownCommandText(cmd)
  }

  /** ProcessCommand's answer: none for blank input or input not starting with '/'. */
  function Dispatch(workingDirectory: string, config: LlmConfig, fs: FileSystem, command: string): Option<string> {
    if IsBlank(command) || !("/" <= command) then None
    else Some(Respond(workingDirectory, config, fs, ToLower(CommandWord(command)), CommandArgs(command)))
  }

  /** A text is not another text whose opening differs from its own at some position. */
  lemma DiffersAt(s: string, p: string, q: string, i: nat)
    requires p <= s && i < |p| && i < |q| && p[i] != q[i]
    ensures s != q
  {
    assert s[i] == p[i];
  }

  /**
   * ProcessCommand answers exactly the inputs whose very first character is '/', and each of
   * those is a command; a command typed after white space is recognised by IsCommand but
   * gets no answer.
   */
  lemma DispatchAnswersIff(workingDirectory: string, config: LlmConfig, fs: FileSystem, input: string)
    ensures Dispatch(workingDirectory, config, fs, input).Some? <==> input != [] && input[0] == '/'
    ensures input != [] && input[0] == '/' ==> IsCommand(input)
    ensures IsCommand(input) && IsWhiteSpace(input[0]) ==> Dispatch(workingDirectory, config, fs, input) == None
  {
    if input != [] && input[0] == '/' {
      assert !IsWhiteSpace(input[0]);
      TrimStartAt(input, 0);
    }
  }

  /** The command word is compared in lower case: "/HELP" is answered as "/help" is. */
  lemma CommandWordIgnoresCase(workingDirectory: string, config: LlmConfig, fs: FileSystem)
    ensures Dispatch(workingDirectory, config, fs, "/HELP") == Dispatch(workingDirectory, config, fs, "/help")
    ensures Dispatch(workingDirectory, config, fs, "/help") == Some(Unlines(HelpLines))
  {
    UpperHelpWord();
    LowerHelpWord();
    HelpLowered();
    DispatchAnswersIff(workingDirectory, config, fs, "/HELP");
    DispatchAnswersIff(workingDirectory, config, fs, "/help");
  }

  lemma HelpLowered()
    ensures ToLower("/HELP") == "/help" && ToLower("/help") == "/help"
  {
    assert ToLower("/HELP")[1] == 'h';
  }

  /** "/HELP" is one command word without arguments. */
  lemma UpperHelpWord()
    ensures CommandWord("/HELP") == "/HELP" && CommandArgs("/HELP") == []
  {
    assert CommandWord("P") == "P";
    assert CommandWord("LP") == "LP";
    assert CommandWord("ELP") == "ELP";
    assert CommandWord("HELP") == "HELP";
  }

  /** "/help" is one command word without arguments. */
  lemma LowerHelpWord()
    ensures CommandWord("/help") == "/help" && CommandArgs("/help") == []
  {
    assert CommandWord("p") == "p";
    assert CommandWord("lp") == "lp";
    assert CommandWord("elp") == "elp";
    assert CommandWord("help") == "help";
  }

  /** Only /clear answers the signal that makes the panel clear its conversation. */
  lemma ClearSignalOnlyFromClear(workingDirectory: string, config: LlmConfig, fs: FileSystem, cmd: string, args: string)
    ensures Respond(workingDirectory, config, fs, cmd, args) == ClearSignal <==> cmd == "/clear"
  {
    if cmd == "/help" {
      HelpNotSignal();
    } else if cmd == "/read" {
      ReadNotSignal(workingDirectory, args, fs);
    } else if cmd == "/list" {
      ListNotSignal(workingDirectory, args, fs);
    } else if cmd == "/search" {
      SearchNotSignal(workingDirectory, args, fs);
    } else if cmd == "/write" {
      WriteNotSignal(args);
    } else if cmd == "/config" {
      ConfigNotSignal(config, workingDirectory);
    } else if cmd == "/info" {
      InfoNotSignal();
    } else if cmd != "/clear" {
      DiffersAt(UnknownCommandText(cmd), "Unknown", ClearSignal, 0);
    }
  }

  /** The help, configuration and information texts are not the clear signal. */
  lemma HelpNotSignal()
    ensures Unlines(HelpLines) != ClearSignal
  {
    OpeningNotSignal(HelpLines, 0);
  }

  lemma ConfigNotSignal(config: LlmConfig, workingDirectory: string)
    ensures Unlines(ConfigLines(config, workingDirectory)) != ClearSignal
  {
    OpeningNotSignal(ConfigLines(config, workingDirectory), 1);
  }

  lemma InfoNotSignal()
    ensures Unlines(InfoLines) != ClearSignal
  {
    OpeningNotSignal(InfoLines, 0);
  }

  /** A text whose first line differs from the clear signal at position i is not the signal. */
  lemma OpeningNotSignal(lines: seq<string>, i: nat)
    requires lines != [] && i < |lines[0]| && i < |ClearSignal| && lines[0][i] != ClearSignal[i]
    ensures Unlines(lines) != ClearSignal
  {
    UnlinesStartsWithFirst(lines);
    DiffersAt(Unlines(lines), lines[0], ClearSignal, i);
  }

  lemma ReadNotSignal(workingDirectory: string, filePath: string, fs: FileSystem)
    ensures ReadFile(workingDirectory, filePath, fs) != ClearSignal
  {
    ReadFileOutcomes(workingDirectory, filePath, fs);
    var r := ReadFile(workingDirectory, filePath, fs);
    if "File: " <= r { DiffersAt(r, "File: ", ClearSignal, 0); } else { DiffersAt(r, "Error", ClearSignal, 0); }
  }

  lemma ListNotSignal(workingDirectory: string, directoryPath: string, fs: FileSystem)
    ensures ListDirectoryText(workingDirectory, directoryPath, fs) != ClearSignal
  {
    ListDirectoryOpening(workingDirectory, directoryPath, fs);
    var r := ListDirectoryText(workingDirectory, directoryPath, fs);
    if "Error" <= r { DiffersAt(r, "Error", ClearSignal, 0); } else { DiffersAt(r, "Directory: ", ClearSignal, 0); }
  }

  lemma SearchNotSignal(workingDirectory: string, pattern: string, fs: FileSystem)
    ensures SearchFilesText(workingDirectory, pattern, fs) != ClearSignal
  {
    SearchOpening(workingDirectory, pattern, fs);
    var r := SearchFilesText(workingDirectory, pattern, fs);
    if "Error" <= r { DiffersAt(r, "Error", ClearSignal, 0); }
    else if "No files" <= r { DiffersAt(r, "No files", ClearSignal, 0); }
    else { DiffersAt(r, "Files matching '", ClearSignal, 0); }
  }

  /** /write answers its usage line or an announcement, never the clear signal. */
  lemma WriteNotSignal(args: string)
    ensures PrepareWriteFile(args) != ClearSignal
  {
    if IsBlank(args) {
      DiffersAt(WriteUsage, ErrorTag, ClearSignal, 0);
    } else {
      DiffersAt(PrepareWriteFile(args), "Ready", ClearSignal, 0);
    }
  }

  /**
   * /read succeeds, answering "File: " then the file's name, a blank line and its text,
   * exactly when a path is given, is rooted or passes the sandbox rule, and names an existing
   * file that is small enough and can be read; every other answer is an error.
   */
  lemma ReadFileOutcomes(workingDirectory: string, filePath: string, fs: FileSystem)
    ensures var r := ReadFile(workingDirectory, filePath, fs);
      var full := if IsPathRooted(filePath) then filePath else Combine(workingDirectory, filePath);
      && ("File: " <= r || "Error" <= r)
      && ("File: " <= r <==>
            && !IsBlank(filePath)
            && (IsPathRooted(filePath) || ValidateRelativePath(filePath))
            && full in fs.files
            && ValidateFileSize(fs, full, MaxFileSize)
            && fs.files[full].text.Ok?)
  {
    var r := ReadFile(workingDirectory, filePath, fs);
    var full := if IsPathRooted(filePath) then filePath else Combine(workingDirectory, filePath);
    var failed := if IsBlank(filePath) then ReadUsage
      else if !ValidateRelativePath(filePath) && !IsPathRooted(filePath) then InvalidPathMessage
      else if full !in fs.files then "Error: File not found: "
      else if !ValidateFileSize(fs, full, MaxFileSize) then TooLargeMessage
      else "Error reading file: ";
    if failed <= r {
      assert "Error" <= failed[..5];
      DiffersAt(r, failed, "File: ", 0);
    }
  }

  /**
   * The sandbox rule is applied to a relative path before the file system is consulted, and
   * a rooted path is never refused by it.
   */
  lemma ReadFileSandboxFirst(workingDirectory: string, filePath: string, fs: FileSystem)
    ensures !IsBlank(filePath) && !IsPathRooted(filePath) && !ValidateRelativePath(filePath) ==>
      ReadFile(workingDirectory, filePath, fs) == InvalidPathMessage
    ensures IsPathRooted(filePath) ==> ReadFile(workingDirectory, filePath, fs) != InvalidPathMessage
  {
    var r := ReadFile(workingDirectory, filePath, fs);
    if IsPathRooted(filePath) && !IsBlank(filePath) {
      if filePath !in fs.files {
        DiffersAt(r, "Error: File not found: ", InvalidPathMessage, 7);
      } else if !ValidateFileSize(fs, filePath, MaxFileSize) {
        DiffersAt(r, TooLargeMessage, InvalidPathMessage, 7);
      } else if fs.files[filePath].text.Err? {
        DiffersAt(r, "Error reading file: ", InvalidPathMessage, 5);
      } else {
        DiffersAt(r, "File: ", InvalidPathMessage, 0);
      }
    }
  }

  /** /read, /search and /write without arguments answer their usage line, whatever the
      file system holds. */
  lemma UsageWithoutArguments(workingDirectory: string, config: LlmConfig, fs: FileSystem, args: string)
    requires IsBlank(args)
    ensures Respond(workingDirectory, config, fs, "/read", args) == ReadUsage
    ensures Respond(workingDirectory, config, fs, "/search", args) == SearchUsage
    ensures Respond(workingDirectory, config, fs, "/write", args) == WriteUsage
  {
  }

  /** /write writes nothing: its answer depends on its arguments alone and announces the path. */
  lemma WriteOnlyAnnounces(workingDirectory: string, config: LlmConfig, fs: FileSystem, other: FileSystem, args: string)
    ensures Respond(workingDirectory, config, fs, "/write", args) == Respond(workingDirectory, config, other, "/write", args)
    ensures !IsBlank(args) ==> "Ready to write to: " + args <= Respond(workingDirectory, config, fs, "/write", args)
  {
  }

  /** A listing opens with its directory, or is an error. */
  lemma ListDirectoryOpening(workingDirectory: string, directoryPath: string, fs: FileSystem)
    ensures var r := ListDirectoryText(workingDirectory, directoryPath, fs);
      "Error" <= r || "Directory: " <= r
  {
    var target := if IsBlank(directoryPath) then workingDirectory else directoryPath;
    if target !in fs.directories {
      assert "Error" <= "Error: Directory not found: ";
    } else if fs.directories[target].Unlistable? {
      assert "Error" <= "Error listing directory: ";
    } else {
      var entry := fs.directories[target];
      ListingOpening(target, ShownNames(entry.subdirectories, 20), ShownNames(entry.files, 50));
    }
  }

  lemma ListingOpening(target: string, dirs: seq<string>, files: seq<string>)
    ensures "Directory: " <= Unlines(ListingLines(target, dirs, files))
  {
    var lines := ListingLines(target, dirs, files);
    UnlinesStartsWithFirst(lines);
    assert lines[0] == "Directory: " + target;
  }

  /** A search answer is an error, a "No files" notice or the list of matches. */
  lemma SearchOpening(workingDirectory: string, pattern: string, fs: FileSystem)
    ensures var r := SearchFilesText(workingDirectory, pattern, fs);
      "Error" <= r || "No files" <= r || "Files matching '" <= r
  {
    var r := SearchFilesText(workingDirectory, pattern, fs);
    if IsBlank(pattern) {
      assert SearchUsage[..5] == "Error";
    } else if fs.search(workingDirectory, pattern).Err? {
      assert "Error" <= "Error searching files: ";
    } else {
      var shown := Take(SortNames(fs.search(workingDirectory, pattern).value), 30);
      if shown != [] {
        UnlinesStartsWithFirst(SearchLines(pattern, shown));
      } else {
        assert "No files" <= "No files found matching: ";
      }
    }
  }

  /** A line that opens differently from the prefix is none of the prefixed lines. */
  lemma NotPrefixed(prefix: string, names: seq<string>, line: string)
    requires prefix != [] && line != [] && line[0] != prefix[0]
    ensures line !in Prefixed(prefix, names)
  {
  }

  /** "(empty directory)" is shown exactly when there is neither a directory nor a file to show. */
  lemma EmptyDirectoryIff(target: string, dirs: seq<string>, files: seq<string>)
    ensures "(empty directory)" in ListingLines(target, dirs, files) <==> dirs == [] && files == []
  {
    var empty := "(empty directory)";
    NotPrefixed("  [DIR] ", dirs, empty);
    NotPrefixed("  ", files, empty);
    assert empty != "Directory: " + target by { DiffersAt("Directory: " + target, "Directory: ", empty, 0); }
  }

  /** The file names of the given paths. */
  function FileNames(paths: seq<string>): seq<string> {
    seq(|paths|, i requires 0 <= i < |paths| => GetFileName(paths[i]))
  }

  /**
   * A listing shows no more than cap names, in ascending ordinal order, all file names of
   * the given paths, and every name it leaves out sorts at or after every name it shows.
   */
  lemma ShownNamesMeans(paths: seq<string>, cap: nat)
    ensures var r := ShownNames(paths, cap);
      && |r| == (if |paths| <= cap then |paths| else cap)
      && SortedNames(r)
      && multiset(r) <= multiset(FileNames(paths))
      && forall x, y :: x in r && y in multiset(FileNames(paths)) - multiset(r) ==> Below(x, y)
  {
    FirstSortedNames(FileNames(paths), cap);
  }

  /**
   * A search with a pattern that completes answers "No files found" exactly when it finds
   * nothing; otherwise it lists at most 30 of the matches, in ascending ordinal order.
   */
  lemma SearchFindsNothingIff(workingDirectory: string, pattern: string, fs: FileSystem)
    requires !IsBlank(pattern) && fs.search(workingDirectory, pattern).Ok?
    ensures var found := fs.search(workingDirectory, pattern).value;
      var r := SearchFilesText(workingDirectory, pattern, fs);
      && (r == "No files found matching: " + pattern <==> found == [])
      && (found != [] ==> exists shown ::
            && r == Unlines(SearchLines(pattern, shown))
            && |shown| == (if |found| <= 30 then |found| else 30)
            && SortedNames(shown) && multiset(shown) <= multiset(found))
  {
    var found := fs.search(workingDirectory, pattern).value;
    var r := SearchFilesText(workingDirectory, pattern, fs);
    var shown := Take(SortNames(found), 30);
    FirstSortedNames(found, 30);
    if found != [] {
      UnlinesStartsWithFirst(SearchLines(pattern, shown));
      DiffersAt(r, "Files matching '", "No files found matching: " + pattern, 0);
    }
  }

  /** /config tells only whether a bearer token is set: settings that differ in nothing but a
      token that is set in both give the same text. */
  lemma ConfigHidesToken(config: LlmConfig, workingDirectory: string, token: string)
    requires (token == []) == (config.bearerToken == [])
    ensures ConfigLines(config.(bearerToken := token), workingDirectory) == ConfigLines(config, workingDirectory)
  {
  }

  /** SlashCommandHandler: the directory relative paths are resolved against. */
  class SlashCommandHandler {
    const workingDirectory: string

    /** Without a directory the handler works in the user's documents folder. */
    constructor (workingDirectory: Option<string>, myDocuments: string)
      ensures this.workingDirectory == if workingDirectory.Some? then workingDirectory.value else myDocuments
    {
      this.workingDirectory := if workingDirectory.Some? then workingDirectory.value else myDocuments;
    }

    method ProcessCommand(command: string, config: LlmConfig, fs: FileSystem) returns (r: Option<string>)
      ensures r == Dispatch(workingDirectory, config, fs, command)
    {
      if IsBlank(command) || !("/" <= command) {
        return None;
      }
      var cmd := ToLower(CommandWord(command));
      var args := CommandArgs(command);
      var text: string;
      if cmd == "/help" {
        text := GetHelpText();
      } else if cmd == "/read" {
        text := ReadFile(workingDirectory, args, fs);
      } else if cmd == "/list" {
        text := ListDirectory(args, fs);
      } else if cmd == "/search" {
        text := SearchFiles(args, fs);
      } else if cmd == "/write" {
        text := PrepareWriteFile(args);
      } else if cmd == "/clear" {
        text := ClearSignal;
      } else if cmd == "/config" {
        text := GetConfigInfo(config);
      } else if cmd == "/info" {
        text := GetInfoText();
      } else {
        text := UnknownCommandText(cmd);
      }
      return Some(text);
    }

    method GetHelpText() returns (r: string)
      ensures r == Unlines(HelpLines)
    {
      var sb := new StringBuilder();
      sb.AppendLine("Available Slash Commands:");
      sb.AppendLine("");
      sb.AppendLine("/help - Show this help message");
      AppendFileCommands(sb);
      AppendSessionCommands(sb);
      AppendExamples(sb);
      assert sb.lines == HelpHeadingLines + HelpFileCommandLines + HelpSessionCommandLines + HelpExampleLines;
      r := sb.ToString();
    }

    static method AppendFileCommands(sb: StringBuilder)
      requires sb.Valid()
      modifies sb
      ensures sb.Valid() && sb.lines == old(sb.lines) + HelpFileCommandLines
    {
      sb.AppendLine("/read <file-path> - Read a SQL script or file into context");
      sb.AppendLine("/list [directory] - List files in a directory");
      sb.AppendLine("/search <pattern> - Search for files matching pattern");
      sb.AppendLine("/write <path> - Prepare to write content to a file");
    }

    static method AppendSessionCommands(sb: StringBuilder)
      requires sb.Valid()
      modifies sb
      ensures sb.Valid() && sb.lines == old(sb.lines) + HelpSessionCommandLines
    {
      sb.AppendLine("/clear - Clear conversation history");
      sb.AppendLine("/config - Show current configuration");
      sb.AppendLine("/info - Show extension information");
    }

    static method AppendExamples(sb: StringBuilder)
      requires sb.Valid()
      modifies sb
      ensures sb.Valid() && sb.lines == old(sb.lines) + HelpExampleLines
    {
      sb.AppendLine("");
      sb.AppendLine("Examples:");
      sb.AppendLine("  /read script.sql");
      sb.AppendLine("  /list C:\\SQLScripts");
      sb.AppendLine("  /search *.sql");
    }

    /** Appends one indented line per name. */
    static method AppendNames(sb: StringBuilder, prefix: string, names: seq<string>)
      requires sb.Valid()
      modifies sb
      ensures sb.Valid() && sb.lines == old(sb.lines) + Prefixed(prefix, names)
    {
      for i := 0 to |names|
        invariant sb.Valid()
        invariant sb.lines == old(sb.lines) + Prefixed(prefix, names[..i])
      {
        sb.AppendLine(prefix + names[i]);
        assert Prefixed(prefix, names[..i + 1]) == Prefixed(prefix, names[..i]) + [prefix + names[i]];
      }
      assert names[..|names|] == names;
    }

    method ListDirectory(directoryPath: string, fs: FileSystem) returns (r: string)
      ensures r == ListDirectoryText(workingDirectory, directoryPath, fs)
    {
      var targetDir := if IsBlank(directoryPath) then workingDirectory else directoryPath;
      if targetDir !in fs.directories {
        return "Error: Directory not found: " + targetDir;
      }
      match fs.directories[targetDir]
      case Unlistable(m) =>
        return "Error listing directory: " + m;
      case Children(subdirectories, entries) =>
        var files := ShownNames(entries, 50);
        var dirs := ShownNames(subdirectories, 20);
        r := FormatListing(targetDir, dirs, files);
    }

    /** The StringBuilder part of ListDirectory, once the names are chosen. */
    static method FormatListing(targetDir: string, dirs: seq<string>, files: seq<string>) returns (r: string)
      ensures r == Unlines(ListingLines(targetDir, dirs, files))
    {
      var sb := new StringBuilder();
      sb.AppendLine("Directory: " + targetDir);
      sb.AppendLine("");
      ghost var head := sb.lines;
      AppendDirectories(sb, dirs);
      ghost var withDirs := sb.lines;
      AppendFiles(sb, files);
      ghost var withFiles := sb.lines;
      if dirs == [] && files == [] {
        sb.AppendLine("(empty directory)");
      }
      ListingParts(targetDir, dirs, files, head, withDirs, withFiles, sb.lines);
      return sb.ToString();
    }

    static method AppendDirectories(sb: StringBuilder, dirs: seq<string>)
      requires sb.Valid()
      modifies sb
      ensures sb.Valid()
      ensures sb.lines == old(sb.lines) + (if dirs != [] then ["Directories:"] + Prefixed("  [DIR] ", dirs) + [""] else [])
    {
      if dirs != [] {
        sb.AppendLine("Directories:");
        AppendNames(sb, "  [DIR] ", dirs);
        sb.AppendLine("");
      }
    }

    static method AppendFiles(sb: StringBuilder, files: seq<string>)
      requires sb.Valid()
      modifies sb
      ensures sb.Valid()
      ensures sb.lines == old(sb.lines) + (if files != [] then ["Files:"] + Prefixed("  ", files) else [])
    {
      if files != [] {
        sb.AppendLine("Files:");
        AppendNames(sb, "  ", files);
      }
    }

    method SearchFiles(pattern: string, fs: FileSystem) returns (r: string)
      ensures r == SearchFilesText(workingDirectory, pattern, fs)
    {
      if IsBlank(pattern) {
        return SearchUsage;
      }
      match fs.search(workingDirectory, pattern)
      case Err(m) =>
        return "Error searching files: " + m;
      case Ok(found) =>
        var files := Take(SortNames(found), 30);
        if files == [] {
          return "No files found matching: " + pattern;
        }
        var sb := new StringBuilder();
        sb.AppendLine("Files matching '" + pattern + "':");
        sb.AppendLine("");
        AppendNames(sb, "  ", files);
        assert sb.lines == SearchLines(pattern, files);
        return sb.ToString();
    }

    /** The configuration is the one the settings hold at the time of the call. */
    method GetConfigInfo(config: LlmConfig) returns (r: string)
      ensures r == Unlines(ConfigLines(config, workingDirectory))
    {
      var sb := new StringBuilder();
      AppendConfigHeading(sb);
      AppendServer(sb, config);
      AppendLimits(sb, config);
      sb.AppendLine("  Bearer Token: " + TokenState(config.bearerToken));
      AppendFooter(sb, workingDirectory);
      assert sb.lines == [] + ConfigHeadingLines + ServerLines(config) + LimitLines(config)
        + ["  Bearer Token: " + TokenState(config.bearerToken)] + ConfigFooterLines(workingDirectory);
      assert sb.lines == ConfigLines(config, workingDirectory);
      r := sb.ToString();
    }

    static method AppendConfigHeading(sb: StringBuilder)
      requires sb.Valid()
      modifies sb
      ensures sb.Valid() && sb.lines == old(sb.lines) + ConfigHeadingLines
    {
      sb.AppendLine("Current Configuration:");
      sb.AppendLine("");
      sb.AppendLine("LLM Settings:");
    }

    static method AppendServer(sb: StringBuilder, config: LlmConfig)
      requires sb.Valid()
      modifies sb
      ensures sb.Valid() && sb.lines == old(sb.lines) + ServerLines(config)
    {
      sb.AppendLine("  Provider: " + ProviderName(config.provider));
      sb.AppendLine("  API URL: " + config.apiUrl);
      sb.AppendLine("  Model: " + config.modelName);
    }

    static method AppendLimits(sb: StringBuilder, config: LlmConfig)
      requires sb.Valid()
      modifies sb
      ensures sb.Valid() && sb.lines == old(sb.lines) + LimitLines(config)
    {
      sb.AppendLine("  Temperature: " + config.temperature.literal);
      sb.AppendLine("  Max Tokens: " + IntToString(config.maxTokens));
      sb.AppendLine("  Timeout: " + IntToString(config.timeoutSeconds) + "s");
      sb.AppendLine("  Max History: " + IntToString(config.maxHistoryLength));
    }

    static method AppendFooter(sb: StringBuilder, workingDirectory: string)
      requires sb.Valid()
      modifies sb
      ensures sb.Valid() && sb.lines == old(sb.lines) + ConfigFooterLines(workingDirectory)
    {
      sb.AppendLine("");
      sb.AppendLine("Working Directory: " + workingDirectory);
      sb.AppendLine("");
      sb.AppendLine("Tip: Change settings in Tools \U{2192} Options \U{2192} Local LLM Chat");
    }

    method GetInfoText() returns (r: string)
      ensures r == Unlines(InfoLines)
    {
      var sb := new StringBuilder();
      sb.AppendLine("Local LLM Chat for SSMS");
      sb.AppendLine("");
      sb.AppendLine("Author: Markus Begerow");
      sb.AppendLine("Version: 1.0.0");
      sb.AppendLine("GitHub: https://github.com/markusbegerow/local-llm-chat-ssms");
      assert sb.lines == InfoLines;
      r := sb.ToString();
    }
  }
}
