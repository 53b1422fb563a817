# Local LLM Chat for SSMS: the conversation engine in Dafny

This project models the conversation engine of the Local LLM Chat extension for SQL Server
Management Studio. The engine is the chat panel's logic, without its WPF and Visual Studio
plumbing. The model covers:

- **Slash commands** (`SlashCommands`). It recognises a command and splits it into a
  lower-cased command word and its arguments. It answers `/help`, `/read`, `/list`,
  `/search`, `/write`, `/clear`, `/config` and `/info`. Unknown commands get an
  "Unknown command" text. The file system is an input value.
- **Validation and history helpers** (`Utils`). These are the sandbox rule for relative
  paths, the 1 MiB file-size rule, the HTML escaping chain, and trimming the message list
  in place from the front.
- **The LLM client** (`LlmClient`, with the JSON tree in `Json`). It builds the request
  body for Ollama and for the OpenAI-compatible servers. It picks the endpoint, reads the
  reply out of the answer in a fixed order, and maps transport failures to the exceptions
  the panel catches. It also keeps the bearer header in step with the settings. The HTTP
  exchange is a parameter: a function from the request sent to what came back.
- **The chat panel** (`ChatWindow`). It holds the message list and models one press of the
  send button:
  - blank input does nothing;
  - a command is answered inside the list;
  - any other text starts a chat turn. The turn trims the list, filters out the startup
    banner, and puts the system prompt in front when no system message is left. It shows a
    "Thinking..." placeholder, then replaces it with the reply or leaves it and adds the
    failure.
- **The settings record** (`Configuration`): the settings with their defaults, and the four
  kinds of server.

The .NET pieces the engine relies on are in `Text`, `Host` and `Collections`:
- string trimming, ASCII lower-casing, `StringBuilder.AppendLine`, ordinal ordering;
- the Windows path rules, and the file system as a value;
- `ObservableCollection` as a class whose item sequence its methods reassign.

Each imperative piece of the source is a method on a class with `modifies` clauses:
- `TrimHistory` (a `for` loop of `RemoveAt(0)`);
- the `StringBuilder` formatting of `/help`, `/list`, `/search`, `/config` and `/info`;
- `UpdateConfig`;
- the panel's `SendButton_Click`, `AddMessage` and `ClearConversation`.

Each of these is proved against a function that specifies it: `TrimmedHistory`, `Unlines`
of the line lists, `Turn`, `ChatTurn`, `ChatRequest` and `CommandTurn`. The lemmas then
state what the source promises about those functions.

Where the specification and the code disagree, the model follows the code:
- After assembly, the history may hold several system messages. Command answers such as the
  `/config` text stay in it, and the prompt is put in front only when no system message
  remains.
- `/list` does not apply the sandbox rule to its argument. Only `/read` does.

## Model

| member | source | states |
|---|---|---|
| Text.TrimStart | SlashCommandHandler.cs:104 | TrimStart drops exactly the leading white space: the result is a suffix, everything dropped is white space, and the result is empty or opens with a non-white-space character |
| Text.TrimEmptyIffBlank | ChatWindowControl.xaml.cs:35-37 | the trimmed input is empty exactly when the input is blank (null or white space only) |
| Text.TrimmedEnds | ChatWindowControl.xaml.cs:35 | a non-empty trimmed text starts and ends with a character that is not white space |
| Text.TrimTrailing | LlmClient.cs:72 | TrimEnd('/') gives a prefix of the URL that does not end in '/', and only '/' characters were dropped |
| Text.TrimTrailingRun | LlmClient.cs:72 | appending more '/' characters does not change what TrimEnd('/') leaves |
| Text.NatToStringRoundTrip | SlashCommandHandler.cs:262-264 | the decimal text of a number reads back as that number |
| Text.IntToStringRoundTrip | SlashCommandHandler.cs:262-264 | the text of an integer, minus sign included, is integer text that reads back as the integer |
| Text.StringBuilder.constructor | SlashCommandHandler.cs:109 | a new StringBuilder holds no lines |
| Text.StringBuilder.AppendLine | SlashCommandHandler.cs:110 | AppendLine adds exactly one line, followed by the newline, at the end of the text |
| Text.StringBuilder.ToString | SlashCommandHandler.cs:126 | the text is the appended lines in order, each followed by CR LF |
| Text.UnlinesAppend | SlashCommandHandler.cs:254-271 | the text of two runs of AppendLine is the first run's text followed by the second's |
| Text.UnlinesStartsWithFirst | SlashCommandHandler.cs:182 | a built text opens with its first line |
| Text.SortNamesCorrect | SlashCommandHandler.cs:173 | OrderBy yields the names in ascending ordinal order and is a permutation of them |
| Text.FirstSortedNames | SlashCommandHandler.cs:171-174 | OrderBy then Take(cap) yields min(count, cap) names, sorted, drawn from the input, and every name left out sorts at or after every name kept |
| Host.Combine | SlashCommandHandler.cs:137-139 | Path.Combine of the working directory and a non-empty relative path is the directory followed by the path; one separator goes between them exactly when the directory does not already end in a separator or ':' |
| Host.GetFileName | SlashCommandHandler.cs:152 | Path.GetFileName is the part of the path after its last separator or volume colon, and holds neither |
| Collections.ObservableList.constructor | ChatWindowControl.xaml.cs:23 | a new collection is empty |
| Collections.ObservableList.Add | ChatWindowControl.xaml.cs:146 | Add appends exactly the item at the end |
| Collections.ObservableList.RemoveAt | Utils.cs:93 | RemoveAt fails (ArgumentOutOfRangeException) exactly when the index is not an element's; otherwise it removes that element and keeps the others in order |
| Collections.ObservableList.Clear | ChatWindowControl.xaml.cs:152 | Clear leaves the collection empty |
| Json.GetFindsLast | LlmClient.cs:108 | JObject[name] finds something exactly when some property has that name, and then it finds the value of the last such property |
| Json.WithoutKeeps | LlmClient.cs:118-124 | the object seen without choices keeps exactly the properties whose name is not choices |
| Json.GetWithout | LlmClient.cs:118-124 | removing every property with one name leaves every lookup of another name as it was |
| Json.Child | LlmClient.cs:110-111 | the JToken indexer succeeds exactly for a name on an object or an in-range position on an array; a position gives that element, and a name gives the last property of that name, or null when there is none |
| Utils.ValidateRelativePathMeans | Utils.cs:22-45 | the sandbox rule accepts exactly the paths that have a non-white-space character, are not rooted, contain no character the host forbids, and have no two adjacent dots |
| Utils.DotDotAt | Utils.cs:36-37 | ".." occurs in a path exactly when two adjacent characters are both '.' (so "a..b" is refused as well) |
| Utils.SandboxRejections | Utils.cs:24-37 | "../etc/passwd", "a..b", a path holding NUL, and a drive-rooted path are refused |
| Utils.SandboxAcceptance | Utils.cs:22-45 | a plain relative file name such as "q.sql" is accepted |
| Utils.SandboxedResolution | SlashCommandHandler.cs:137-143 | an accepted path, combined with a non-empty working directory, stays under it: the directory, at most one separator, then a path with no ".." |
| Utils.FileSizeBoundary | Utils.cs:53-60 | the size rule with MaxFileSize accepts an existing file exactly when it has at most 1048576 bytes: exactly 1 MiB passes and 1 MiB + 1 does not |
| Utils.EscapeHtmlIsPerCharacter | Utils.cs:67-78 | because '&' is replaced first, the chain of five replacements equals escaping each character once, so no entity is escaped twice |
| Utils.EscapeHtmlHasNoMarkup | Utils.cs:72-77 | escaped text holds no raw '<', '>', '"' or '\'' |
| Utils.EscapeHtmlRoundTrip | Utils.cs:67-78 | decoding the five entities in the escaped text gives back the original, the empty string included |
| Utils.TrimHistory | Utils.cs:85-97 | the list left is TrimmedHistory of the old list; the result is 0 when the list is short enough; otherwise the loop runs toRemove times, toRemove being Count − max in int arithmetic: RemoveAt(0) raises once the list is empty (a negative bound whose difference fits), and otherwise toRemove is returned, negative and with nothing removed when the difference wraps |
| Utils.ToRemove | Utils.cs:90 | Count − max is computed as a C# int: it is the difference itself when that fits, else the difference less 2^32, which is then negative |
| Utils.NegativeBoundTrim | Utils.cs:87-96 | with a negative bound the loop raises, after emptying the list, exactly when Count − bound fits in an int; when it wraps, nothing is removed |
| Utils.TrimmedHistoryKeepsNewest | Utils.cs:87-96 | with a bound of at least 0, trimming keeps exactly the newest min(count, bound) entries in their order, and trimming again changes nothing |
| Utils.TrimmedHistoryKeepsAdded | Utils.cs:87-96 | with a bound of at least 1, the message added just before the trim survives it, as the last message |
| LlmClient.MessagesJson | LlmClient.cs:64 | the messages array has one element per message |
| LlmClient.MessagesRoundTrip | LlmClient.cs:49 | the messages travel in order, with role and content unchanged: reading the array back gives the messages |
| LlmClient.RequestBodyLayout | LlmClient.cs:43-69 | Ollama gets {model, messages, stream, options{temperature, num_predict}}; the other providers get {model, messages, temperature, max_tokens, stream} |
| LlmClient.RequestBodyCarriesConversation | LlmClient.cs:46-68 | the body carries the configured model, the messages (which decode to the input) and stream = false |
| LlmClient.RequestBodyCarriesSampling | LlmClient.cs:51-66 | the sampling settings carry the configured temperature, and under the provider's name the token limit as a number equal to MaxTokens |
| LlmClient.Endpoint | LlmClient.cs:72-90 | the endpoint is the URL without its trailing '/' characters, followed by "/api/chat" for Ollama and by nothing for the other providers |
| LlmClient.EndpointIgnoresTrailingSlashes | LlmClient.cs:72 | any number of trailing slashes on the URL leads to the same endpoint |
| LlmClient.DefaultEndpoint | LlmClient.cs:72-80 | with the default settings the client posts to http://localhost:11434/api/chat |
| LlmClient.DefaultSettingsUsable | LlmConfig.cs:28-56 | the default timeout (120) is one the client accepts, no Authorization header is sent, and num_predict is 2048 |
| LlmClient.OpenAiShapeFirst | LlmClient.cs:108-115 | an answer with choices[0].message.content yields that content, whatever else it holds |
| LlmClient.ChoicesWithoutContentFallThrough | LlmClient.cs:108-121 | choices that are empty, a plain value, or whose first element lacks message.content do not end the search: the reply is read as if there were no choices |
| LlmClient.OllamaShapeSecond | LlmClient.cs:117-121 | without choices, message.content is the reply |
| LlmClient.LegacyShapeThird | LlmClient.cs:123-127 | without choices or message, response is the reply |
| LlmClient.RawTextLast | LlmClient.cs:129-130 | an answer in none of the three shapes is returned as its raw text |
| LlmClient.ExtractReplyFailures | LlmClient.cs:108-126 | extraction fails only with an exception of the JSON indexers: a child of a plain value, a name on an array, or a position on an object |
| LlmClient.NullMessageRaises | LlmClient.cs:118 | a message that is JSON null raises instead of falling through to response |
| LlmClient.RequestFailureReported | LlmClient.cs:137-140 | an HTTP failure is raised again as "Network error: " followed by its message |
| LlmClient.StatusFailureReported | LlmClient.cs:95-100 | an unsuccessful status is raised as a "Network error" ending in the status name and the answer's text |
| LlmClient.SettleReportsParseAndTimeout | LlmClient.cs:133-144 | an unparsable answer becomes "Failed to parse LLM response: …", and a cancellation becomes a TimeoutException naming the configured seconds |
| LlmClient.SettleRepliesIff | LlmClient.cs:95-130 | a reply is returned exactly when the status is a success, the answer parses, and extraction succeeds; the reply is the extracted text |
| LlmClient.AuthorizationFor | LlmClient.cs:27-31 | a header is set exactly when the token is non-empty, and it is "Bearer " followed by the token |
| LlmClient.Client.constructor | LlmClient.cs:18-32 | the client holds the given settings, or the defaults when none are given; its timeout and header follow them |
| LlmClient.NewClient | LlmClient.cs:18-32 | construction fails, with the setter's ArgumentOutOfRangeException, exactly when the timeout is out of range; otherwise a fresh client consistent with the settings |
| LlmClient.Client.ChatAsync | LlmClient.cs:133-136 | as written: every cancellation, including one by the caller, comes out as a TimeoutException, so an OperationCanceledException never escapes |
| LlmClient.Client.ChatAsyncReportingCancellation | LlmClient.cs:133-136 | corrected: OperationCanceledException escapes exactly when the caller cancelled; in every other case the result is ChatAsync's |
| LlmClient.Client.UpdateConfig | LlmClient.cs:150-167 | the change is applied (none for a null action); a timeout out of range raises before the timeout or header change; otherwise the header is "Bearer token" when a token is set and removed when not |
| LlmClient.TokenOnlyInHeader | LlmClient.cs:43-90 | the token affects neither the body nor the endpoint |
| SlashCommands.CommandWord | SlashCommandHandler.cs:64-65 | the command word is the longest prefix without a space, and is followed by a space or the end |
| SlashCommands.SplitParts | SlashCommandHandler.cs:64-66 | the input is the word, a run of spaces and the arguments; the word holds no space and the arguments do not start with one (only ' ' separates) |
| SlashCommands.IsCommandMeans | SlashCommandHandler.cs:102-105 | IsCommand holds exactly when some '/' is preceded by white space only |
| SlashCommands.DispatchAnswersIff | SlashCommandHandler.cs:61-62 | ProcessCommand answers exactly the inputs that open with '/'; those are commands; a command typed after white space gets null |
| SlashCommands.CommandWordIgnoresCase | SlashCommandHandler.cs:64-71 | "/HELP" is answered as "/help" is, with the help text |
| SlashCommands.ClearSignalOnlyFromClear | SlashCommandHandler.cs:68-96 | the answer is the CLEAR_CONVERSATION signal exactly when the lower-cased command word is /clear |
| SlashCommands.ReadFileOutcomes | SlashCommandHandler.cs:129-158 | /read answers "File: …" exactly when a path is given, is rooted or passes the sandbox rule, names an existing file within the size rule, and the file can be read; every other answer opens with "Error" |
| SlashCommands.ReadFileSandboxFirst | SlashCommandHandler.cs:137-143 | a relative path that fails the sandbox rule is refused before the file system is consulted, and a rooted path is never refused by that rule |
| SlashCommands.UsageWithoutArguments | SlashCommandHandler.cs:131-132 | /read, /search and /write with blank arguments answer their usage line (also lines 213-214 and 243-244), whatever the file system holds |
| SlashCommands.WriteOnlyAnnounces | SlashCommandHandler.cs:241-247 | /write's answer does not depend on the file system, and with a path it announces that path |
| SlashCommands.ListDirectoryOpening | SlashCommandHandler.cs:160-209 | a /list answer is an error or opens with "Directory: " |
| SlashCommands.EmptyDirectoryIff | SlashCommandHandler.cs:185-201 | "(empty directory)" is printed exactly when there is neither a directory nor a file to show |
| SlashCommands.ShownNamesMeans | SlashCommandHandler.cs:171-179 | a listing shows at most the cap (50 files, 20 directories) of file names, in ascending order, drawn from the entries, and every name left out sorts at or after every name shown |
| SlashCommands.SearchOpening | SlashCommandHandler.cs:211-239 | a /search answer is an error, the "No files" notice, or a "Files matching" list |
| SlashCommands.SearchFindsNothingIff | SlashCommandHandler.cs:218-233 | a search that completes answers "No files found matching" exactly when nothing matched; otherwise it lists min(count, 30) of the matches in ascending order |
| SlashCommands.ConfigHidesToken | SlashCommandHandler.cs:265 | /config shows only whether a token is set: settings that differ only in a token that is set in both give the same text |
| SlashCommands.SlashCommandHandler.constructor | SlashCommandHandler.cs:15-19 | without a working directory the handler works in the documents folder |
| SlashCommands.SlashCommandHandler.ProcessCommand | SlashCommandHandler.cs:59-97 | the answer is Dispatch: null for blank input or input not opening with '/', else the answer of the lower-cased command word |
| SlashCommands.SlashCommandHandler.GetHelpText | SlashCommandHandler.cs:107-127 | the StringBuilder text is the help lines: heading, file commands, session commands, examples |
| SlashCommands.SlashCommandHandler.ListDirectory | SlashCommandHandler.cs:160-209 | the listing is ListDirectoryText: the working directory by default, then the not-found, enumeration-error or formatted-listing cases |
| SlashCommands.SlashCommandHandler.FormatListing | SlashCommandHandler.cs:181-203 | the StringBuilder text is the listing's lines: header, optional directories and files sections, and the empty notice |
| SlashCommands.SlashCommandHandler.AppendNames | SlashCommandHandler.cs:188-189 | the foreach loop appends one indented line per name, in order |
| SlashCommands.SlashCommandHandler.SearchFiles | SlashCommandHandler.cs:211-239 | the answer is SearchFilesText: usage, the search's error, the "No files" notice, or the sorted matches, at most 30 |
| SlashCommands.SlashCommandHandler.GetConfigInfo | SlashCommandHandler.cs:249-272 | the StringBuilder text is the configuration lines for the settings and working directory |
| SlashCommands.SlashCommandHandler.GetInfoText | SlashCommandHandler.cs:274-284 | the StringBuilder text is the information lines |
| ChatWindow.FilterHistoryAppend | ChatWindowControl.xaml.cs:80-83 | the history query treats each message on its own: it distributes over concatenation |
| ChatWindow.FilterHistorySources | ChatWindowControl.xaml.cs:80-83 | every message of the history is a shown message that is not banner-like, with its role lower-cased |
| ChatWindow.NoBannerInHistory | ChatWindowControl.xaml.cs:81 | no system message of the history opens with "Local LLM" |
| ChatWindow.BannerAndInfoNotSent | ChatWindowControl.xaml.cs:80-83 | the startup banner (line 30), and the /info answer, which opens the same way, are never sent |
| ChatWindow.AssembleHistoryMeans | ChatWindowControl.xaml.cs:85-89 | the history sent always has a system message; the prompt is put in front exactly when the query found none; the query's messages follow in order and system messages are not merged |
| ChatWindow.FailureNotice | ChatWindowControl.xaml.cs:109-120 | the failure text is "Request cancelled." exactly for an OperationCanceledException |
| ChatWindow.BlankInputChangesNothing | ChatWindowControl.xaml.cs:35-37 | blank input leaves the list as it was and sends nothing |
| ChatWindow.CommandAnswered | ChatWindowControl.xaml.cs:40-55 | a trimmed command opens with '/', so the handler always answers it |
| ChatWindow.CommandTurnMeans | ChatWindowControl.xaml.cs:40-57 | a command adds the user's line and the answer; after /clear, and only then, the list is the cleared notice alone, the user's line removed too |
| ChatWindow.RequestMadeIff | ChatWindowControl.xaml.cs:35-98 | a request is made exactly for chat input, a timeout the client accepts, and a history bound that is at least 0 or so far below 0 that Count − bound wraps in TrimHistory |
| ChatWindow.UserTextSentLast | ChatWindowControl.xaml.cs:61-89 | with a bound of at least 1, the user's text is the last message sent, as a user message |
| ChatWindow.SentHistoryHasSystem | ChatWindowControl.xaml.cs:80-89 | the history sent has a system message, and the only system message in it opening like the banner is the prompt, in front |
| ChatWindow.PlaceholderSentOnlyIfLeftBefore | ChatWindowControl.xaml.cs:80-92 | the turn's placeholder is added after the history is built, so a placeholder in the history sent was left in the list by an earlier turn |
| ChatWindow.ReplyReplacesPlaceholder | ChatWindowControl.xaml.cs:92-104 | on success the list ends with the reply, holds at most bound + 1 messages, has the user's line just before the reply when the bound is at least 1, and shows a placeholder only where an earlier turn left one |
| ChatWindow.FailureKeepsPlaceholder | ChatWindowControl.xaml.cs:109-120 | on failure the trimmed list is followed by the placeholder and exactly one system message, which reports a cancellation exactly when the request was cancelled |
| ChatWindow.CancelledNoticeIff | ChatWindowControl.xaml.cs:109-112 | once the request is made, the turn ends in "Request cancelled." exactly when the outcome is an OperationCanceledException |
| ChatWindow.PanelNeverReportsCancellation | ChatWindowControl.xaml.cs:109-112 | with the client as written, no server behaviour makes the turn end in "Request cancelled." |
| ChatWindow.PanelReportsCancellation | ChatWindowControl.xaml.cs:109-112 | with the corrected client, the turn ends in "Request cancelled." exactly when the panel's side cancelled the request |
| ChatWindow.LeftPlaceholderIsSent | ChatWindowControl.xaml.cs:92-120 | a placeholder left by a failed turn is sent with the next turn's history as an assistant message, when the bound keeps it |
| ChatWindow.NegativeBoundEmptiesList | ChatWindowControl.xaml.cs:77 | a negative history bound for which Count − bound fits in an int removes every message, the user's line included, and the turn fails with the RemoveAt error before any request |
| ChatWindow.WrappedBoundKeepsList | ChatWindowControl.xaml.cs:77-98 | a bound so far below 0 that Count − bound wraps removes nothing: the list keeps every message with the user's line last, and the whole list is sent when the timeout is accepted |
| ChatWindow.ChatWindowControl.constructor | ChatWindowControl.xaml.cs:18-31 | the list opens with the banner alone; the handler works in the documents folder; the button is enabled and no cancellation source is held |
| ChatWindow.ChatWindowControl.AddMessage | ChatWindowControl.xaml.cs:129-148 | the message is appended at the end, and its position is returned |
| ChatWindow.ChatWindowControl.ClearConversation | ChatWindowControl.xaml.cs:150-153 | the list is empty |
| ChatWindow.ChatWindowControl.SendButtonClick | ChatWindowControl.xaml.cs:33-127 | the list becomes Turn of the old list and the input, the history sent is SentHistory; after a chat turn, on every exit path, the button is enabled and no cancellation source is held; blank input and commands leave both untouched |
| ChatWindow.ChatWindowControl.CommandClick | ChatWindowControl.xaml.cs:40-58 | for a command the list becomes Turn of the old list and the input, and nothing is sent |
| ChatWindow.ChatWindowControl.ChatClick | ChatWindowControl.xaml.cs:61-126 | for chat input the list becomes Turn of the old list and the input, the history sent is SentHistory, and the button ends enabled with no cancellation source held |
| ChatWindow.ChatWindowControl.HandleCommand | ChatWindowControl.xaml.cs:40-58 | the command branch leaves CommandTurn of the handler's answer |
| ChatWindow.ChatWindowControl.HandleChat | ChatWindowControl.xaml.cs:61-126 | the chat branch leaves ChatTurn, sends ChatRequest, and its finally block re-enables the button and drops the cancellation source |
| ChatWindow.ChatWindowControl.SendChat | ChatWindowControl.xaml.cs:79-107 | the history built from the trimmed list is sent when the client can be constructed; the list gains the reply in place of the placeholder, or keeps the placeholder and gains the failure |

## Left out

- Null strings: every string input is a non-null value. The `messages == null` test of TrimHistory and `InputBox.Text?` are not modelled.
- Culture-sensitive operations (ToLower, StartsWith with a string, OrderBy on strings) are modelled by ASCII lower-casing and ordinal comparison.
- Text.ToLower: lower-cases ASCII letters only; other letters are left as they are.
- Temperature is a double in the source. It is carried as its decimal text, with no floating-point arithmetic and no culture-specific formatting.
- JSON serialisation and parsing (Newtonsoft) are not modelled. The request body is a JSON tree. The server's answer arrives already parsed, or as the parser's error message. The text of a token that is not a string follows JToken.ToString only roughly: containers are rendered without white space.
- HTTP transport, the HttpClient timeout itself, and header objects are not modelled. The exchange is a function from the request to its outcome: an answer with status and text, a cancellation (by the caller or not), an HTTP failure, or another exception.
- The HttpClient.Timeout setter also raises once a request has been sent (for UpdateConfig on a used client). This is not modelled: UpdateConfig only checks the range.
- async/await, the CancellationTokenSource, and the cancel-previous rule (ChatWindowControl.xaml.cs:70-71) are concurrency and are not modelled. Only the sequential state after each outcome is modelled. The awaited ChatAsync result is an input (`outcome`) to the send button.
- SettingsManager.cs is not part of this model. The settings the panel and /config read are a parameter.
- The file system (File.Exists, FileInfo.Length, ReadAllText, Directory.Exists, GetFiles, GetDirectories and the recursive search) is a value. The recursive search already yields paths relative to the working directory: GetRelativePath and AppendDirectorySeparatorChar (System.Uri semantics) are not modelled.
- On .NET Framework, Path.IsPathRooted and Path.Combine raise for characters the host forbids in paths. /read then answers "Error reading file: …" instead of "Error: Invalid file path.". The model's IsPathRooted and Combine do not raise.
- The exception messages of the .NET runtime (ArgumentOutOfRangeException, the JSON indexers) are fixed texts chosen to match the runtime's English messages.
- Utils.ExtractFileSuggestions (regular expressions), Utils.SafeReadFile and SafeWriteFile (file I/O) are not modelled, and neither are OptionsPage.cs and ChatWindow.cs (Visual Studio plumbing).
- WPF specifics are not modelled: InputBox and its clearing, brushes, ScrollToBottom, MessagesList binding, and InputBox_KeyDown (Enter calls the send handler).
- ChatWindow.ChatWindowControl.AddMessage returns the position of the new message rather than the view model. Removing the placeholder by reference (`_messages.Remove(loadingMsg)`) is RemoveAt at that position, which is the same element because nothing is added in between.
- ChatWindow.ChatWindowControl.SendButtonClick: sendEnabled and hasCancellationSource are booleans standing for SendButton.IsEnabled and the cancellation-source field; the source's Cancel and Dispose calls are not modelled.
- SlashCommands.SearchFindsNothingIff: states that the listed matches are sorted and drawn from the matches, not that they are the first 30 in order. ShownNamesMeans states that for listings, and both use the same Take(SortNames(…)).
- Json.TokenText: JObject.Parse reads a string that looks like an ISO 8601 date as a date token, and that token's ToString is the date in the current culture's format. The model keeps such a string as a string and replies with its original text.
- Utils.TrimmedHistory: list lengths are unbounded naturals. A .NET list's Count is an int, so the lemmas about a turn's trim (RequestMadeIff, UserTextSentLast, ReplyReplacesPlaceholder, WrappedBoundKeepsList) require the list with the user's line added to hold at most Int32.MaxValue messages.
- Json: only the lookups the client makes (property by name, element by position, HasValues, ToString) are modelled, not the whole Newtonsoft API.

## Findings

| source | as written | input that shows it | evidently intended | confidence | as-written member | corrected member |
|---|---|---|---|---|---|---|
| LlmClient.cs:133-136 | ChatAsync catches TaskCanceledException, which is also what a cancellation by the caller raises, and rethrows it as a TimeoutException. The panel's catch of OperationCanceledException (ChatWindowControl.xaml.cs:109-112) can never run, so "Request cancelled." is never shown. | Type another chat message that is not a command and press Enter while a reply is pending: InputBox_KeyDown calls the send handler even though the button is disabled, and for non-blank, non-command text its `_cancellationTokenSource?.Cancel()` cancels the pending request, and the first turn reports "Timeout: Request timed out after N seconds" (N the configured timeout) at once. | A cancellation by the caller is let out as itself, so the panel reports "Request cancelled."; only the client's own timeout becomes a TimeoutException | not executed | LlmClient.Client.ChatAsync, ChatWindow.PanelNeverReportsCancellation | LlmClient.Client.ChatAsyncReportingCancellation, ChatWindow.PanelReportsCancellation |
