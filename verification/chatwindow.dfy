/**
 * The chat panel: the list of messages it shows and what one press of the send button does
 * to it. A command is answered inside the list; any other text starts a chat turn that trims
 * the list, sends the conversation to the server, shows a placeholder while it waits, and
 * then shows the reply or the failure.
 */
module ChatWindow {
  import opened Wrappers
  import opened Text
  import opened Collections
  import opened Configuration
  import opened Host
  import opened Utils
  import opened LlmClient
  import opened SlashCommands

  /** How the startup banner opens; a system message that opens this way is never sent. */
  const BannerOpening: string := "Local LLM"

  const Banner: string := BannerOpening + " Chat ready! Type /help for available commands."
  const ClearedNotice: string := "Conversation cleared."
  const CancelledNotice: string := "Request cancelled."

  /** The message shown while the server is working on a reply. */
  const Waiting: ChatMessage := ChatMessage("assistant", "Thinking...")

  /** The history query leaves out system messages that open like the banner. */
  predicate IsBannerLike(m: ChatMessage) {
    ToLower(m.role) == "system" && BannerOpening <= m.content
  }

  /** A shown message as the history carries it: the role lower-cased. */
  function Lowered(m: ChatMessage): ChatMessage {
    ChatMessage(ToLower(m.role), m.content)
  }

  /** The history query over the shown messages: those that are not banner-like, in order, lowered. */
  function FilterHistory(shown: seq<ChatMessage>): seq<ChatMessage> {
    if shown == [] then []
    else
      var last := shown[|shown| - 1];
      FilterHistory(shown[..|shown| - 1]) + (if IsBannerLike(last) then [] else [Lowered(last)])
  }

  /** The query treats each message on its own: it distributes over concatenation. */
  lemma {:induction false} FilterHistoryAppend(a: seq<ChatMessage>, b: seq<ChatMessage>)
    ensures FilterHistory(a + b) == FilterHistory(a) + FilterHistory(b)
    decreases |b|
  {
    if b == [] {
      assert a + b == a;
    } else {
      var b' := b[..|b| - 1];
      assert (a + b)[..|a + b| - 1] == a + b';
      FilterHistoryAppend(a, b');
    }
  }

  /** Every message of the history is a shown message that is not banner-like, lowered. */
  lemma {:induction false} FilterHistorySources(shown: seq<ChatMessage>)
    ensures forall m :: m in FilterHistory(shown) ==>
      exists i :: 0 <= i < |shown| && !IsBannerLike(shown[i]) && m == Lowered(shown[i])
  {
    if shown != [] {
      var init := shown[..|shown| - 1];
      FilterHistorySources(init);
      forall m | m in FilterHistory(shown)
        ensures exists i :: 0 <= i < |shown| && !IsBannerLike(shown[i]) && m == Lowered(shown[i])
      {
        if m in FilterHistory(init) {
          var i :| 0 <= i < |init| && !IsBannerLike(init[i]) && m == Lowered(init[i]);
          assert shown[i] == init[i];
        } else {
          assert m == Lowered(shown[|shown| - 1]);
        }
      }
    }
  }

  /** No system message of the history opens like the banner. */
  lemma NoBannerInHistory(shown: seq<ChatMessage>)
    ensures forall m :: m in FilterHistory(shown) ==> !(m.role == "system" && BannerOpening <= m.content)
  {
    FilterHistorySources(shown);
  }

  /** The three roles the panel uses are already lower case. */
  lemma RolesLowered()
    ensures ToLower("user") == "user" && ToLower("assistant") == "assistant" && ToLower("system") == "system"
  {
  }

  /** The startup banner, and the answer to /info, which opens the same way, are never sent. */
  lemma BannerAndInfoNotSent()
    ensures FilterHistory([ChatMessage("system", Banner)]) == []
    ensures FilterHistory([ChatMessage("system", Unlines(InfoLines))]) == []
  {
    RolesLowered();
    UnlinesStartsWithFirst(InfoLines);
    assert BannerOpening <= InfoLines[0];
  }

  /** The history query's test for a system message: the roles are lower-cased by then. */
  predicate HasSystem(history: seq<ChatMessage>) {
    exists i :: 0 <= i < |history| && history[i].role == "system"
  }

  /** The history sent: the query's result, with the system prompt put first when it holds no system message. */
  function AssembleHistory(shown: seq<ChatMessage>, systemPrompt: string): seq<ChatMessage> {
    var history := FilterHistory(shown);
    if HasSystem(history) then history else [ChatMessage("system", systemPrompt)] + history
  }

  /**
   * The history sent always holds a system message; the prompt is put in exactly when the
   * query found none, and then in front; the query's messages follow, in order, and nothing
   * else is added (existing system messages are not merged).
   */
  lemma AssembleHistoryMeans(shown: seq<ChatMessage>, systemPrompt: string)
    ensures var history, r := FilterHistory(shown), AssembleHistory(shown, systemPrompt);
      && HasSystem(r)
      && (r == history <==> HasSystem(history))
      && (!HasSystem(history) ==> r == [ChatMessage("system", systemPrompt)] + history)
      && history == r[|r| - |history|..]
  {
    var history := FilterHistory(shown);
    if !HasSystem(history) {
      var r := [ChatMessage("system", systemPrompt)] + history;
      assert r[0].role == "system";
      assert r[1..] == history;
    }
  }

  /** The text a failure is reported with: which exception the turn ended in, and its message. */
  function FailureNotice(e: Raised): (r: string)
    ensures r == CancelledNotice <==> e == OperationCanceled
  {
    match e
    case OperationCanceled => CancelledNotice
    case TimeoutException(m) =>
      var r := "Timeout: " + m;
      DiffersAt(r, "Timeout: ", CancelledNotice, 0);
      r
    case OtherException(m) =>
      var r := "Error: " + m;
      DiffersAt(r, "Error: ", CancelledNotice, 0);
      r
  }

  /** A command answered in the list: the user's line and the answer, or only the notice after /clear. */
  function CommandTurn(shown: seq<ChatMessage>, text: string, answer: Option<string>): seq<ChatMessage> {
    if answer == Some(ClearSignal) then [ChatMessage("system", ClearedNotice)]
    else shown + [ChatMessage("user", text)] + (if answer.Some? then [ChatMessage("system", answer.value)] else [])
  }

  /**
   * A chat turn: the user's line is added and the list trimmed (a negative bound empties it
   * and fails, unless Count - bound wraps, when nothing is removed); the placeholder is shown; a timeout the client refuses fails; otherwise the
   * reply takes the placeholder's place, or the placeholder stays and the failure follows it.
   */
  function ChatTurn(shown: seq<ChatMessage>, text: string, config: LlmConfig, outcome: ChatResult): seq<ChatMessage> {
    var trimmed := TrimmedHistory(shown + [ChatMessage("user", text)], config.maxHistoryLength);
    if TrimRaises(|shown| + 1, config.maxHistoryLength) then
      trimmed + [ChatMessage("system", FailureNotice(OtherException(IndexOutOfRangeMessage)))]
    else if !TimeoutAccepted(config.timeoutSeconds) then
      trimmed + [Waiting, ChatMessage("system", FailureNotice(OtherException(TimeoutRangeMessage)))]
    else
      match outcome
      case Reply(reply) => trimmed + [ChatMessage("assistant", reply)]
      case Threw(e) => trimmed + [Waiting, ChatMessage("system", FailureNotice(e))]
  }

  /** The history a chat turn sends, or none when the turn fails before the request. */
  function ChatRequest(shown: seq<ChatMessage>, text: string, config: LlmConfig): Option<seq<ChatMessage>> {
    if TrimRaises(|shown| + 1, config.maxHistoryLength) || !TimeoutAccepted(config.timeoutSeconds) then None
    else Some(AssembleHistory(TrimmedHistory(shown + [ChatMessage("user", text)], config.maxHistoryLength), config.systemPrompt))
  }

  /** Input that starts a chat turn: not blank once trimmed, and not a command. */
  predicate IsChatInput(input: string) {
    Trim(input) != [] && !IsCommand(Trim(input))
  }

  /** The list after one press of the send button with the given input. */
  function Turn(shown: seq<ChatMessage>, input: string, workingDirectory: string, config: LlmConfig,
                fs: FileSystem, outcome: ChatResult): seq<ChatMessage>
  {
    var text := Trim(input);
    if text == [] then shown
    else if IsCommand(text) then CommandTurn(shown, text, Dispatch(workingDirectory, config, fs, text))
    else ChatTurn(shown, text, config, outcome)
  }

  /** The history one press of the send button sends to the server, if it sends one. */
  function SentHistory(shown: seq<ChatMessage>, input: string, config: LlmConfig): Option<seq<ChatMessage>> {
    var text := Trim(input);
    if text == [] || IsCommand(text) then None else ChatRequest(shown, text, config)
  }

  /** The branch of a turn the trimmed input selects. */
  lemma TurnByInput(shown: seq<ChatMessage>, input: string, workingDirectory: string, config: LlmConfig,
                    fs: FileSystem, outcome: ChatResult)
    ensures var text := Trim(input);
      && (text == [] ==> Turn(shown, input, workingDirectory, config, fs, outcome) == shown)
      && (text != [] && IsCommand(text) ==>
            Turn(shown, input, workingDirectory, config, fs, outcome) == CommandTurn(shown, text, Dispatch(workingDirectory, config, fs, text)))
      && (IsChatInput(input) ==> Turn(shown, input, workingDirectory, config, fs, outcome) == ChatTurn(shown, text, config, outcome))
  {
  }

  /** Input that is blank once trimmed changes nothing and sends nothing. */
  lemma BlankInputChangesNothing(shown: seq<ChatMessage>, input: string, workingDirectory: string,
                                 config: LlmConfig, fs: FileSystem, outcome: ChatResult)
    requires IsBlank(input)
    ensures Turn(shown, input, workingDirectory, config, fs, outcome) == shown
    ensures SentHistory(shown, input, config) == None
  {
    TrimEmptyIffBlank(input);
  }

  /** A trimmed command opens with '/', so the handler always answers it. */
  lemma CommandAnswered(workingDirectory: string, config: LlmConfig, fs: FileSystem, input: string)
    requires Trim(input) != [] && IsCommand(Trim(input))
    ensures Dispatch(workingDirectory, config, fs, Trim(input)).Some?
  {
    var text := Trim(input);
    TrimmedEnds(input);
    TrimStartAt(text, 0);
    DispatchAnswersIff(workingDirectory, config, fs, text);
  }

  /**
   * A command adds the user's line and the handler's answer; /clear, and only /clear, leaves
   * the list holding the notice alone, the user's line included in what it removed.
   */
  lemma CommandTurnMeans(shown: seq<ChatMessage>, text: string, workingDirectory: string, config: LlmConfig, fs: FileSystem)
    requires "/" <= text
    ensures var cmd, args := ToLower(CommandWord(text)), CommandArgs(text);
      CommandTurn(shown, text, Dispatch(workingDirectory, config, fs, text)) ==
        if cmd == "/clear" then [ChatMessage("system", ClearedNotice)]
        else shown + [ChatMessage("user", text), ChatMessage("system", Respond(workingDirectory, config, fs, cmd, args))]
  {
    var cmd, args := ToLower(CommandWord(text)), CommandArgs(text);
    var answer := Respond(workingDirectory, config, fs, cmd, args);
    DispatchAnswersIff(workingDirectory, config, fs, text);
    assert Dispatch(workingDirectory, config, fs, text) == Some(answer);
    ClearSignalOnlyFromClear(workingDirectory, config, fs, cmd, args);
    CommandTurnOf(shown, text, answer, cmd == "/clear");
  }

  lemma CommandTurnOf(shown: seq<ChatMessage>, text: string, answer: string, clears: bool)
    requires answer == ClearSignal <==> clears
    ensures CommandTurn(shown, text, Some(answer)) ==
      if clears then [ChatMessage("system", ClearedNotice)]
      else shown + [ChatMessage("user", text), ChatMessage("system", answer)]
  {
  }

  /**
   * A request is made exactly for chat input with a timeout the client accepts and a history
   * bound that is at least 0, or so negative that Count - bound overflows an int and wraps
   * (the list, the user's line included, holds at most Int32.MaxValue messages).
   */
  lemma RequestMadeIff(shown: seq<ChatMessage>, input: string, config: LlmConfig)
    requires |shown| < Int32Max
    ensures SentHistory(shown, input, config).Some? <==>
      && IsChatInput(input)
      && (config.maxHistoryLength >= 0 || |shown| + 1 - config.maxHistoryLength > Int32Max)
      && TimeoutAccepted(config.timeoutSeconds)
  {
    var all := shown + [ChatMessage("user", Trim(input))];
    if config.maxHistoryLength >= 0 {
      TrimmedHistoryKeepsNewest(all, config.maxHistoryLength);
    } else {
      NegativeBoundTrim(all, config.maxHistoryLength);
    }
  }

  /** With a bound of at least one, the user's text is the last message sent, as a user message. */
  lemma UserTextSentLast(shown: seq<ChatMessage>, text: string, config: LlmConfig)
    requires ChatRequest(shown, text, config).Some? && config.maxHistoryLength >= 1 && |shown| < Int32Max
    ensures var history := ChatRequest(shown, text, config).value;
      history != [] && history[|history| - 1] == ChatMessage("user", text)
  {
    var user := ChatMessage("user", text);
    var trimmed := TrimmedHistory(shown + [user], config.maxHistoryLength);
    TrimmedHistoryKeepsAdded(shown, user, config.maxHistoryLength);
    var init := trimmed[..|trimmed| - 1];
    FilterHistoryAppend(init, [user]);
    LoweredUser(text);
    AssembleHistoryMeans(trimmed, config.systemPrompt);
  }

  /** A user message passes the history query unchanged. */
  lemma LoweredUser(text: string)
    ensures FilterHistory([ChatMessage("user", text)]) == [ChatMessage("user", text)]
  {
    RolesLowered();
    assert [ChatMessage("user", text)][..0] == [];
  }

  /**
   * The history sent holds a system message, and the only system message in it that opens
   * like the banner is the configured prompt, put in front.
   */
  lemma SentHistoryHasSystem(shown: seq<ChatMessage>, text: string, config: LlmConfig)
    requires ChatRequest(shown, text, config).Some?
    ensures var history := ChatRequest(shown, text, config).value;
      && HasSystem(history)
      && forall i :: 0 <= i < |history| && history[i].role == "system" && BannerOpening <= history[i].content ==>
           i == 0 && history[0] == ChatMessage("system", config.systemPrompt)
  {
    var trimmed := TrimmedHistory(shown + [ChatMessage("user", text)], config.maxHistoryLength);
    AssembleHistoryMeans(trimmed, config.systemPrompt);
    NoBannerInHistory(trimmed);
  }

  /**
   * The turn's own placeholder is shown only after the history is built, so a placeholder in
   * the history sent is one an earlier turn left in the list.
   */
  lemma PlaceholderSentOnlyIfLeftBefore(shown: seq<ChatMessage>, text: string, config: LlmConfig)
    requires ChatRequest(shown, text, config).Some?
    requires Waiting in ChatRequest(shown, text, config).value
    ensures exists i :: 0 <= i < |shown| && Lowered(shown[i]) == Waiting
  {
    var user := ChatMessage("user", text);
    var trimmed := TrimmedHistory(shown + [user], config.maxHistoryLength);
    SentComesFromShown(trimmed, config.systemPrompt, Waiting);
    var j :| 0 <= j < |trimmed| && Lowered(trimmed[j]) == Waiting;
    RolesLowered();
    assert Lowered(user) != Waiting;
    var i := KeptFromBefore(shown, user, config.maxHistoryLength, j);
    assert Lowered(shown[i]) == Waiting;
  }

  /** An entry the trim keeps that is not the one just added was in the list before. */
  lemma KeptFromBefore<T>(s: seq<T>, x: T, maxMessages: Int32, j: nat) returns (i: nat)
    requires j < |TrimmedHistory(s + [x], maxMessages)| && TrimmedHistory(s + [x], maxMessages)[j] != x
    ensures i < |s| && s[i] == TrimmedHistory(s + [x], maxMessages)[j]
  {
    var all := s + [x];
    var t := TrimmedHistory(all, maxMessages);
    i := |all| - |t| + j;
    assert all[i] == t[j];
  }

  /** A message of the history sent other than a system message is a shown message, lowered. */
  lemma SentComesFromShown(shown: seq<ChatMessage>, systemPrompt: string, m: ChatMessage)
    requires m in AssembleHistory(shown, systemPrompt) && m.role != "system"
    ensures exists j :: 0 <= j < |shown| && Lowered(shown[j]) == m
  {
    var history := FilterHistory(shown);
    AssembleHistoryMeans(shown, systemPrompt);
    assert m in history by {
      if !HasSystem(history) {
        assert m in [ChatMessage("system", systemPrompt)] + history;
      }
    }
    FilterHistorySources(shown);
  }

  /**
   * A reply takes the placeholder's place: the list ends with the reply, holds no more than
   * the bound and the reply, keeps the user's line just before the reply when the bound allows
   * one message, and shows a placeholder only where an earlier turn left one.
   */
  lemma ReplyReplacesPlaceholder(shown: seq<ChatMessage>, text: string, config: LlmConfig, reply: string)
    requires config.maxHistoryLength >= 0 && TimeoutAccepted(config.timeoutSeconds) && |shown| < Int32Max
    ensures var r := ChatTurn(shown, text, config, Reply(reply));
      && r != [] && r[|r| - 1] == ChatMessage("assistant", reply)
      && |r| <= config.maxHistoryLength + 1
      && (config.maxHistoryLength >= 1 ==> |r| >= 2 && r[|r| - 2] == ChatMessage("user", text))
      && (Waiting in r[..|r| - 1] ==> Waiting in shown)
  {
    ReplyAppended(shown, text, config, reply);
    ReplyAfterTrim(shown, text, config.maxHistoryLength, ChatMessage("assistant", reply));
  }

  /** The shape of the trimmed list with one message appended after it. */
  lemma ReplyAfterTrim(shown: seq<ChatMessage>, text: string, maxMessages: Int32, a: ChatMessage)
    requires maxMessages >= 0 && |shown| < Int32Max
    ensures var r := TrimmedHistory(shown + [ChatMessage("user", text)], maxMessages) + [a];
      && r != [] && r[|r| - 1] == a
      && |r| <= maxMessages + 1
      && (maxMessages >= 1 ==> |r| >= 2 && r[|r| - 2] == ChatMessage("user", text))
      && (Waiting in r[..|r| - 1] ==> Waiting in shown)
  {
    var user := ChatMessage("user", text);
    var trimmed := TrimmedHistory(shown + [user], maxMessages);
    TrimmedHistoryKeepsNewest(shown + [user], maxMessages);
    AppendOne(trimmed, a);
    if maxMessages >= 1 {
      TrimmedHistoryKeepsAdded(shown, user, maxMessages);
    }
    PlaceholderKeptOnlyFromBefore(shown, text, maxMessages);
  }

  /** The trim shows a placeholder only where the list already held one. */
  lemma PlaceholderKeptOnlyFromBefore(shown: seq<ChatMessage>, text: string, maxMessages: Int32)
    ensures Waiting in TrimmedHistory(shown + [ChatMessage("user", text)], maxMessages) ==> Waiting in shown
  {
    var user := ChatMessage("user", text);
    var trimmed := TrimmedHistory(shown + [user], maxMessages);
    if Waiting in trimmed {
      var j :| 0 <= j < |trimmed| && trimmed[j] == Waiting;
      assert user.role != Waiting.role by { assert user.role[0] != Waiting.role[0]; }
      var i := KeptFromBefore(shown, user, maxMessages, j);
    }
  }

  /** Once the request is made, a reply is appended to the trimmed list. */
  lemma ReplyAppended(shown: seq<ChatMessage>, text: string, config: LlmConfig, reply: string)
    requires !TrimRaises(|shown| + 1, config.maxHistoryLength) && TimeoutAccepted(config.timeoutSeconds)
    ensures ChatTurn(shown, text, config, Reply(reply))
      == TrimmedHistory(shown + [ChatMessage("user", text)], config.maxHistoryLength) + [ChatMessage("assistant", reply)]
  {
  }

  lemma AppendOne<T>(s: seq<T>, x: T)
    ensures var r := s + [x];
      && |r| == |s| + 1 && r[|r| - 1] == x && r[..|r| - 1] == s
      && (s != [] ==> r[|r| - 2] == s[|s| - 1])
  {
  }

  /**
   * A failure leaves the placeholder where it is and adds exactly one system message after
   * it, which reports a cancellation exactly when the request was cancelled.
   */
  lemma FailureKeepsPlaceholder(shown: seq<ChatMessage>, text: string, config: LlmConfig, e: Raised)
    requires !TrimRaises(|shown| + 1, config.maxHistoryLength) && TimeoutAccepted(config.timeoutSeconds)
    ensures var r := ChatTurn(shown, text, config, Threw(e));
      && |r| >= 2
      && r[..|r| - 2] == TrimmedHistory(shown + [ChatMessage("user", text)], config.maxHistoryLength)
      && r[|r| - 2] == Waiting
      && r[|r| - 1].role == "system"
      && (r[|r| - 1].content == CancelledNotice <==> e == OperationCanceled)
  {
    var trimmed := TrimmedHistory(shown + [ChatMessage("user", text)], config.maxHistoryLength);
    var r := trimmed + [Waiting, ChatMessage("system", FailureNotice(e))];
    assert r[..|r| - 2] == trimmed;
  }

  /** Once the request is made, the turn ends in the cancellation notice exactly when the outcome is a cancellation. */
  lemma CancelledNoticeIff(shown: seq<ChatMessage>, text: string, config: LlmConfig, outcome: ChatResult)
    requires ChatRequest(shown, text, config).Some?
    ensures var r := ChatTurn(shown, text, config, outcome);
      r != [] && (r[|r| - 1] == ChatMessage("system", CancelledNotice) <==> outcome == Threw(OperationCanceled))
  {
    match outcome
    case Reply(reply) =>
      var trimmed := TrimmedHistory(shown + [ChatMessage("user", text)], config.maxHistoryLength);
      assert ChatTurn(shown, text, config, outcome) == trimmed + [ChatMessage("assistant", reply)];
    case Threw(e) =>
      FailureKeepsPlaceholder(shown, text, config, e);
  }

  /**
   * With the client as written, the panel never reports a cancellation: whatever the server
   * does with the history sent, the turn does not end in "Request cancelled.".
   */
  lemma PanelNeverReportsCancellation(client: Client, shown: seq<ChatMessage>, text: string, config: LlmConfig,
                                      server: WireRequest -> Transport)
    requires ChatRequest(shown, text, config).Some?
    ensures var outcome := client.ChatAsync(ChatRequest(shown, text, config).value, server);
      var r := ChatTurn(shown, text, config, outcome);
      r != [] && r[|r| - 1] != ChatMessage("system", CancelledNotice)
  {
    CancelledNoticeIff(shown, text, config, client.ChatAsync(ChatRequest(shown, text, config).value, server));
  }

  /**
   * With a client that lets a cancellation through, the panel reports one exactly when the
   * request was cancelled from the panel's side.
   */
  lemma PanelReportsCancellation(client: Client, shown: seq<ChatMessage>, text: string, config: LlmConfig,
                                 server: WireRequest -> Transport)
    requires ChatRequest(shown, text, config).Some?
    ensures var history := ChatRequest(shown, text, config).value;
      var r := ChatTurn(shown, text, config, client.ChatAsyncReportingCancellation(history, server));
      r != [] && (r[|r| - 1] == ChatMessage("system", CancelledNotice) <==> server(client.Request(history)) == Cancelled(true))
  {
    var history := ChatRequest(shown, text, config).value;
    CancelledNoticeIff(shown, text, config, client.ChatAsyncReportingCancellation(history, server));
  }

  /**
   * A placeholder a failed turn leaves behind is sent with the next turn's history, as an
   * assistant message (when the bound keeps it).
   */
  lemma LeftPlaceholderIsSent(shown: seq<ChatMessage>, first: string, second: string, config: LlmConfig, e: Raised)
    requires config.maxHistoryLength >= |shown| + 4 && TimeoutAccepted(config.timeoutSeconds)
    ensures var after := ChatTurn(shown, first, config, Threw(e));
      ChatRequest(after, second, config).Some? && Waiting in ChatRequest(after, second, config).value
  {
    var before := shown + [ChatMessage("user", first)];
    var notice := ChatMessage("system", FailureNotice(e));
    var after := ChatTurn(shown, first, config, Threw(e));
    assert after == before + [Waiting, notice];
    var all := after + [ChatMessage("user", second)];
    assert TrimmedHistory(all, config.maxHistoryLength) == all;
    assert all == (before + [Waiting]) + [notice, ChatMessage("user", second)];
    FilterHistoryAppend(before + [Waiting], [notice, ChatMessage("user", second)]);
    FilterHistoryAppend(before, [Waiting]);
    assert FilterHistory([Waiting]) == [Waiting] by {
      RolesLowered();
      assert [Waiting][..0] == [];
    }
    assert Waiting in FilterHistory(all);
    AssembleHistoryMeans(all, config.systemPrompt);
  }

  /**
   * A negative history bound for which Count - bound still fits in an int removes every
   * message, the user's line too, and the turn fails before any request.
   */
  lemma NegativeBoundEmptiesList(shown: seq<ChatMessage>, text: string, config: LlmConfig, outcome: ChatResult)
    requires config.maxHistoryLength < 0 && |shown| + 1 - config.maxHistoryLength <= Int32Max
    ensures ChatTurn(shown, text, config, outcome) == [ChatMessage("system", "Error: " + IndexOutOfRangeMessage)]
    ensures ChatRequest(shown, text, config) == None
  {
    NegativeBoundTrim(shown + [ChatMessage("user", text)], config.maxHistoryLength);
  }

  /**
   * A negative bound so low that Count - bound overflows an int removes nothing: the whole
   * list and the user's line stay, and with an accepted timeout all of it is sent.
   */
  lemma WrappedBoundKeepsList(shown: seq<ChatMessage>, text: string, config: LlmConfig, outcome: ChatResult)
    requires config.maxHistoryLength < 0 && |shown| < Int32Max
    requires |shown| + 1 - config.maxHistoryLength > Int32Max
    ensures var all := shown + [ChatMessage("user", text)];
      && ChatTurn(shown, text, config, outcome)[..|all|] == all
      && ChatRequest(shown, text, config) ==
           if TimeoutAccepted(config.timeoutSeconds) then Some(AssembleHistory(all, config.systemPrompt)) else None
  {
    var all := shown + [ChatMessage("user", text)];
    NegativeBoundTrim(all, config.maxHistoryLength);
    var r := ChatTurn(shown, text, config, outcome);
    assert r == all + r[|all|..];
  }

  /**
   * ChatWindowControl: the messages it shows, the command handler, whether the send button
   * is enabled and whether it holds a cancellation source for a request in flight.
   */
  class ChatWindowControl {
    const messages: ObservableList<ChatMessage>
    const commandHandler: SlashCommandHandler
    var sendEnabled: bool
    var hasCancellationSource: bool

    /** The handler works in the documents folder; the list opens with the banner. */
    constructor (myDocuments: string)
      ensures fresh(messages)
      ensures messages.items == [ChatMessage("system", Banner)]
      ensures commandHandler.workingDirectory == myDocuments
      ensures sendEnabled && !hasCancellationSource
    {
      messages := new ObservableList<ChatMessage>();
      commandHandler := new SlashCommandHandler(None, myDocuments);
      sendEnabled := true;
      hasCancellationSource := false;
      new;
      var banner := AddMessage("system", Banner);
    }

    /** Shows a message at the end; the position returned stands for the view model the source returns. */
    method AddMessage(role: string, content: string) returns (position: nat)
      modifies messages
      ensures messages.items == old(messages.items) + [ChatMessage(role, content)]
      ensures position == |old(messages.items)|
    {
      position := |messages.items|;
      messages.Add(ChatMessage(role, content));
    }

    method ClearConversation()
      modifies messages
      ensures messages.items == []
    {
      messages.Clear();
    }

    /**
     * The send button: nothing for blank input; a command is answered in the list; other
     * text is a chat turn, whose awaited result is the outcome. Returns the history sent.
     */
    method SendButtonClick(input: string, config: LlmConfig, fs: FileSystem, outcome: ChatResult)
      returns (sent: Option<seq<ChatMessage>>)
      modifies this, messages
      ensures messages.items == Turn(old(messages.items), input, commandHandler.workingDirectory, config, fs, outcome)
      ensures sent == SentHistory(old(messages.items), input, config)
      ensures if IsChatInput(input) then sendEnabled && !hasCancellationSource
              else sendEnabled == old(sendEnabled) && hasCancellationSource == old(hasCancellationSource)
    {
      var text := Trim(input);
      if text == [] {
        TurnByInput(messages.items, input, commandHandler.workingDirectory, config, fs, outcome);
        return None;
      }
      if IsCommand(text) {
        sent := CommandClick(input, config, fs, outcome);
      } else {
        sent := ChatClick(input, config, fs, outcome);
      }
    }

    /** The send button on a command. */
    method CommandClick(input: string, config: LlmConfig, fs: FileSystem, outcome: ChatResult)
      returns (sent: Option<seq<ChatMessage>>)
      requires Trim(input) != [] && IsCommand(Trim(input))
      modifies messages
      ensures messages.items == Turn(old(messages.items), input, commandHandler.workingDirectory, config, fs, outcome)
      ensures sent == SentHistory(old(messages.items), input, config) == None
    {
      TurnByInput(messages.items, input, commandHandler.workingDirectory, config, fs, outcome);
      HandleCommand(Trim(input), config, fs);
      sent := None;
    }

    /** The send button on a chat message. */
    method ChatClick(input: string, config: LlmConfig, fs: FileSystem, outcome: ChatResult)
      returns (sent: Option<seq<ChatMessage>>)
      requires IsChatInput(input)
      modifies this, messages
      ensures messages.items == Turn(old(messages.items), input, commandHandler.workingDirectory, config, fs, outcome)
      ensures sent == SentHistory(old(messages.items), input, config)
      ensures sendEnabled && !hasCancellationSource
    {
      TurnByInput(messages.items, input, commandHandler.workingDirectory, config, fs, outcome);
      sent := HandleChat(Trim(input), config, outcome);
    }

    /** The command branch of the send button. */
    method HandleCommand(text: string, config: LlmConfig, fs: FileSystem)
      modifies messages
      ensures messages.items == CommandTurn(old(messages.items), text, Dispatch(commandHandler.workingDirectory, config, fs, text))
    {
      var line := AddMessage("user", text);
      var result := commandHandler.ProcessCommand(text, config, fs);
      if result == Some(ClearSignal) {
        ClearConversation();
        var notice := AddMessage("system", ClearedNotice);
      } else if result.Some? {
        var answer := AddMessage("system", result.value);
      }
    }

    /** The chat branch of the send button, up to and including its finally block. */
    method HandleChat(text: string, config: LlmConfig, outcome: ChatResult) returns (sent: Option<seq<ChatMessage>>)
      modifies this, messages
      ensures messages.items == ChatTurn(old(messages.items), text, config, outcome)
      ensures sent == ChatRequest(old(messages.items), text, config)
      ensures sendEnabled && !hasCancellationSource
    {
      sent := None;
      var line := AddMessage("user", text);
      sendEnabled := false;
      hasCancellationSource := true;
      var trim := TrimHistory(messages, config.maxHistoryLength);
      if trim == IndexOutOfRange {
        var error := AddMessage("system", FailureNotice(OtherException(IndexOutOfRangeMessage)));
      } else {
        sent := SendChat(text, config, outcome);
      }
      sendEnabled := true;
      hasCancellationSource := false;
    }

    /** The rest of the chat branch once the list is trimmed: build the history, show the placeholder, settle. */
    method SendChat(text: string, config: LlmConfig, outcome: ChatResult) returns (sent: Option<seq<ChatMessage>>)
      modifies messages
      ensures sent == (if TimeoutAccepted(config.timeoutSeconds) then Some(AssembleHistory(old(messages.items), config.systemPrompt)) else None)
      ensures messages.items == old(messages.items) +
        if !TimeoutAccepted(config.timeoutSeconds) then [Waiting, ChatMessage("system", FailureNotice(OtherException(TimeoutRangeMessage)))]
        else if outcome.Reply? then [ChatMessage("assistant", outcome.text)]
        else [Waiting, ChatMessage("system", FailureNotice(outcome.error))]
    {
      var history := FilterHistory(messages.items);
      if !HasSystem(history) {
        history := [ChatMessage("system", config.systemPrompt)] + history;
      }
      var loading := AddMessage(Waiting.role, Waiting.content);
      var client := NewClient(Some(config));
      if client.Err? {
        var error := AddMessage("system", FailureNotice(OtherException(client.message)));
        return None;
      }
      sent := Some(history);
      match outcome
      case Reply(reply) =>
        var removed := messages.RemoveAt(loading);
        var answer := AddMessage("assistant", reply);
      case Threw(e) =>
        var notice := AddMessage("system", FailureNotice(e));
    }
  }
}
