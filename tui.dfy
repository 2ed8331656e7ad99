/** The terminal front-end's chat state (goose-tui.py): the `GooseTUI` fields
    `current_session_name` and `chat_history`, the chat bubbles it mounts, the
    argument vectors it hands to the process runner, and its input field. */
module Tui {
  import opened Text
  import opened Wrappers
  import opened Agent
  import opened Response

  /** One chat message: both an entry of `chat_history` (a dictionary with
      the keys "role", "content" and "timestamp") and a mounted `ChatBubble`,
      which carries the same three values. */
  datatype Message = Message(role: string, content: string, timestamp: string)

  /** The CSS class and the heading of a bubble (`ChatBubble.compose`). */
  datatype Style = Style(cssClass: string, prefix: string)

  const UserStyle: Style := Style("user-bubble", "You")
  const GooseStyle: Style := Style("goose-bubble", "🪿 Goose")
  const SystemStyle: Style := Style("system-bubble", "System")

  /** Role mapping of `ChatBubble.compose`: "user" and "assistant" have their
      own styles, and every other role, not only "system", is shown as a
      system notice. */
  function StyleOf(role: string): (st: Style)
    ensures st == UserStyle || st == GooseStyle || st == SystemStyle
    ensures st == UserStyle <==> role == "user"
    ensures st == GooseStyle <==> role == "assistant"
  {
    if role == "user" then UserStyle
    else if role == "assistant" then GooseStyle
    else SystemStyle
  }

  /** The markup a bubble shows: a dim timestamp, the bold heading, then the
      content on the next line. */
  function Markup(m: Message): (text: string)
    ensures var n, p := |m.timestamp|, |StyleOf(m.role).prefix|;
      && |text| == 19 + n + p + |m.content|
      && text[..5 + n] == "[dim]" + m.timestamp
      && text[5 + n..15 + n] == "[/] [bold]"
      && text[15 + n..15 + n + p] == StyleOf(m.role).prefix
      && text[15 + n + p..19 + n + p] == "[/]\n"
      && text[19 + n + p..] == m.content
  {
    var head := "[dim]" + m.timestamp;
    var bold := head + "[/] [bold]";
    var heading := bold + StyleOf(m.role).prefix;
    var line := heading + "[/]\n";
    var text := line + m.content;
    assert text[..|line|] == line;
    assert line[..|heading|] == heading;
    assert heading[..|bold|] == bold;
    assert bold[..|head|] == head;
    text
  }

  const Thinking: string := "🪿 Goose is thinking..."

  /** A system notice as `add_system_message` mounts it. */
  function Notice(text: string, at: Instant): (m: Message)
    ensures StyleOf(m.role) == SystemStyle && m.content == text
  {
    Message("system", text, at.clock)
  }

  /** The messages `chat_history` may hold: system notices never enter it. */
  predicate NoNotices(h: seq<Message>) {
    forall k :: 0 <= k < |h| ==> h[k].role == "user" || h[k].role == "assistant"
  }

  /** The conversation a display shows: its bubbles without the notices. */
  function Conversation(bubbles: seq<Message>): (c: seq<Message>)
    ensures NoNotices(c)
    ensures |c| <= |bubbles|
  {
    if bubbles == [] then []
    else
      var last := bubbles[|bubbles| - 1];
      Conversation(bubbles[..|bubbles| - 1])
        + (if last.role == "user" || last.role == "assistant" then [last] else [])
  }

  predicate IsSuffix(s: seq<Message>, t: seq<Message>) {
    |s| <= |t| && t[|t| - |s|..] == s
  }

  /** Appending a bubble appends it to the conversation when it is a user or
      assistant message and leaves the conversation alone otherwise. */
  lemma ConversationAppend(bubbles: seq<Message>, m: Message)
    ensures Conversation(bubbles + [m]) ==
      Conversation(bubbles) + (if m.role == "user" || m.role == "assistant" then [m] else [])
  {
    assert (bubbles + [m])[..|bubbles|] == bubbles;
  }

  /** Keeping history a suffix of the conversation across one appended bubble. */
  lemma SuffixAfterAppend(h: seq<Message>, bubbles: seq<Message>, m: Message, h': seq<Message>)
    requires IsSuffix(h, Conversation(bubbles))
    requires h' == (if m.role == "user" || m.role == "assistant" then h + [m] else h)
    ensures IsSuffix(h', Conversation(bubbles + [m]))
  {
    ConversationAppend(bubbles, m);
    if m.role == "user" || m.role == "assistant" {
      SuffixExtend(h, Conversation(bubbles), m);
    }
  }

  lemma EmptySuffix(t: seq<Message>)
    ensures IsSuffix([], t)
  {
    assert t[|t|..] == [];
  }

  /** Two bubbles appended one after the other are appended as a pair. */
  lemma AppendTwo(b0: seq<Message>, x: Message, y: Message)
    ensures b0 + [x] + [y] == b0 + [x, y]
  {
  }

  lemma SuffixExtend(h: seq<Message>, c: seq<Message>, m: Message)
    requires IsSuffix(h, c)
    ensures IsSuffix(h + [m], c + [m])
  {
    assert (c + [m])[|c| - |h|..] == c[|c| - |h|..] + [m];
  }

  /** How the steps of one send add up to its history and bubbles. */
  lemma SendSteps(h0: seq<Message>, b0: seq<Message>, message: string, run: AgentRun,
                  sent: Instant, done: Instant)
    ensures h0 + [Message("user", message, sent.clock)] + RunEntries(run, done)
         == h0 + SendHistory(message, run, sent, done)
    ensures b0 + [Message("user", message, sent.clock)] + [Notice(Thinking, sent)]
           + RunEntries(run, done) + RunNotices(run, done)
         == b0 + SendBubbles(message, run, sent, done)
  {
  }

  /** The invocation `send_to_goose` builds: it resumes the current session
      when there is one and runs one-shot otherwise; the prompt is the message. */
  function ChatInvocation(sessionName: string, message: string): (inv: Invocation)
    ensures inv.Resume? <==> sessionName != ""
    ensures inv.Resume? || inv.OneShot?
    ensures inv.Resume? ==> inv.name == sessionName
    ensures inv.prompt == message
  {
    if sessionName != "" then Resume(sessionName, message) else OneShot(message)
  }

  /** What `send_to_goose` records once the run is over: the assistant's
      message when the process ran to exit (even with a non-zero exit, and
      even when its error output then cannot be read), nothing when spawning
      or reading the output raised. */
  function RunEntries(run: AgentRun, done: Instant): (r: seq<Message>)
    ensures |r| <= 1 && NoNotices(r)
    ensures !run.Raised? <==> |r| == 1
    ensures !run.Raised? ==> r[0].role == "assistant" && r[0].timestamp == done.clock
  {
    match run
    case Finished(stdout, _, _) => [Message("assistant", Reply(Survivors(stdout)), done.clock)]
    case StderrUnreadable(stdout, _) => [Message("assistant", Reply(Survivors(stdout)), done.clock)]
    case Raised(_, _) => []
  }

  /** The notices `send_to_goose` adds after the run: the captured error
      output on a non-zero exit when there is any, or the exception's text. */
  function RunNotices(run: AgentRun, done: Instant): (r: seq<Message>)
    ensures |r| <= 1
    ensures forall k :: 0 <= k < |r| ==> r[k].role == "system"
    ensures r == [] <==> run.Finished? && (run.exitCode == 0 || run.stderr == "")
  {
    match run
    case Finished(_, exitCode, stderr) =>
      if exitCode != 0 && stderr != "" then [Notice("⚠️ Error: " + stderr, done)] else []
    case StderrUnreadable(_, error) => [Notice("❌ Error: " + error, done)]
    case Raised(_, error) => [Notice("❌ Error: " + error, done)]
  }

  /** The entries one send adds to `chat_history`. */
  function SendHistory(message: string, run: AgentRun, sent: Instant, done: Instant): (h: seq<Message>)
    ensures |h| == 1 + |RunEntries(run, done)|
    ensures h[0] == Message("user", message, sent.clock)
    ensures h[1..] == RunEntries(run, done)
  {
    [Message("user", message, sent.clock)] + RunEntries(run, done)
  }

  /** The bubbles one send mounts, in order. */
  function SendBubbles(message: string, run: AgentRun, sent: Instant, done: Instant): (b: seq<Message>)
    ensures |b| == 2 + |RunEntries(run, done)| + |RunNotices(run, done)|
    ensures b[0] == Message("user", message, sent.clock) && b[1] == Notice(Thinking, sent)
    ensures b[2..2 + |RunEntries(run, done)|] == RunEntries(run, done)
    ensures b[2 + |RunEntries(run, done)|..] == RunNotices(run, done)
  {
    [Message("user", message, sent.clock), Notice(Thinking, sent)]
      + RunEntries(run, done) + RunNotices(run, done)
  }

  /** A completed send grows the history by exactly two entries: first the
      user's message, then the assistant's aggregated response (the sentinel
      when no output line survived). */
  lemma SendHistoryShape(message: string, run: AgentRun, sent: Instant, done: Instant)
    requires !run.Raised?
    ensures var h := SendHistory(message, run, sent, done);
      && |h| == 2
      && h[0] == Message("user", message, sent.clock)
      && h[1].role == "assistant" && h[1].timestamp == done.clock
      && (Survivors(run.stdout) == [] ==> h[1].content == Sentinel)
      && (Survivors(run.stdout) != [] ==> h[1].content == Join(Survivors(run.stdout), '\n'))
  {
    ReplyOfSurvivors(run.stdout);
  }

  /** When the error output cannot be read after a failed exit, the reply is
      still recorded, and the exception's notice follows its bubble. */
  lemma UnreadableStderrShape(message: string, run: AgentRun, sent: Instant, done: Instant)
    requires run.StderrUnreadable?
    ensures var b := SendBubbles(message, run, sent, done);
      && |b| == 4 && b[2].role == "assistant" && b[2].content == Reply(Survivors(run.stdout))
      && b[3] == Notice("❌ Error: " + run.error, done)
      && SendHistory(message, run, sent, done) == [b[0], b[2]]
  {
    var b := SendBubbles(message, run, sent, done);
    assert b[2..3] == RunEntries(run, done);
    assert b[3..] == RunNotices(run, done);
  }

  /** The history entries of a send are exactly the conversation its bubbles
      add: the thinking indicator and the error notices stay out of history. */
  lemma SendHistoryIsConversation(message: string, run: AgentRun, sent: Instant, done: Instant)
    ensures NoNotices(SendHistory(message, run, sent, done))
    ensures Conversation(SendBubbles(message, run, sent, done)) == SendHistory(message, run, sent, done)
  {
    var u := Message("user", message, sent.clock);
    var t := Notice(Thinking, sent);
    var e := RunEntries(run, done);
    var n := RunNotices(run, done);
    assert SendBubbles(message, run, sent, done) == [u, t] + e + n;
    assert SendHistory(message, run, sent, done) == [u] + e;
    ConversationOfSend(u, t, e, n);
  }

  /** The conversation of one send's bubbles: a user message, a notice, at
      most one reply and at most one further notice. */
  lemma ConversationOfSend(u: Message, t: Message, e: seq<Message>, n: seq<Message>)
    requires u.role == "user" && t.role == "system"
    requires |e| <= 1 && NoNotices(e)
    requires |n| <= 1 && forall k :: 0 <= k < |n| ==> n[k].role == "system"
    ensures Conversation([u, t] + e + n) == [u] + e
  {
    ConversationStart(u, t);
    ConversationTail([u, t], e);
    ConversationTail([u, t] + e, n);
  }

  lemma ConversationStart(u: Message, t: Message)
    requires u.role == "user" && t.role == "system"
    ensures Conversation([u, t]) == [u]
  {
    ConversationAppend([], u);
    assert [] + [u] == [u];
    ConversationAppend([u], t);
    assert [u] + [t] == [u, t];
  }

  /** Appending at most one bubble: it joins the conversation exactly when it
      is a user or assistant message. */
  lemma ConversationTail(b: seq<Message>, x: seq<Message>)
    requires |x| <= 1
    ensures x == [] ==> Conversation(b + x) == Conversation(b)
    ensures x != [] && (x[0].role == "user" || x[0].role == "assistant") ==>
      Conversation(b + x) == Conversation(b) + x
    ensures x != [] && x[0].role != "user" && x[0].role != "assistant" ==>
      Conversation(b + x) == Conversation(b)
  {
    if x == [] {
      assert b + x == b;
    } else {
      assert x == [x[0]];
      ConversationAppend(b, x[0]);
    }
  }

  /** The notice `action_show_history` shows for a history of n entries. */
  function HistoryReport(n: nat): (text: string)
    ensures n == 0 <==> text == "📋 No history in current session"
  {
    if n > 0 then "📋 Current session has " + NatToString(n) + " messages"
    else "📋 No history in current session"
  }

  /** For a non-empty history the report carries its length, and the number
      reads back from the report. */
  lemma HistoryReportReadsBack(n: nat)
    requires n > 0
    ensures var text := HistoryReport(n);
      var head := "📋 Current session has ";
      && |head| + 9 <= |text|
      && (forall k :: |head| <= k < |text| - 9 ==> '0' <= text[k] <= '9')
      && ParseNat(text[|head|..|text| - 9]) == n
  {
    var head := "📋 Current session has ";
    var digits := NatToString(n);
    var text := HistoryReport(n);
    assert text == head + digits + " messages";
    assert text[|head|..|text| - 9] == digits;
    ParseNatToString(n);
  }

  /** The notice of `action_save_session`. */
  function SaveNotice(sessionName: string): (text: string)
    ensures sessionName == "" <==> text == "⚠️ No active session to save"
    ensures sessionName != "" ==> |text| == 23 + |sessionName| && text[11..11 + |sessionName|] == sessionName
  {
    if sessionName != "" then
      var text := "💾 Session '" + sessionName + "' auto-saved";
      assert text[0] == '💾';
      text
    else "⚠️ No active session to save"
  }

  /** The notice after `goose session start` returned or raised. */
  function InitNotice(name: string, init: InitOutcome): (text: string)
    ensures init.Started? ==> |text| == 30 + |name| && text[17..17 + |name|] == name
    ensures init.InitFailed? ==> |text| == 23 + |init.error| && text[23..] == init.error
  {
    match init
    case Started => "✅ Goose session '" + name + "' initialized"
    case InitFailed(e) => "⚠️ Session init error: " + e
  }

  /** The buttons `on_button_pressed` dispatches on, as a closed set. */
  datatype ButtonCommand = SendButton | NewButton | SaveButton | LoadButton | HistoryButton
                         | ExtensionsButton | ClearButton

  /** The widget id of each button. */
  function ButtonId(c: ButtonCommand): (id: string)
    ensures |id| > 4 && id[..4] == "btn-"
  {
    match c
    case SendButton => "btn-send"
    case NewButton => "btn-new"
    case SaveButton => "btn-save"
    case LoadButton => "btn-load"
    case HistoryButton => "btn-history"
    case ExtensionsButton => "btn-ext"
    case ClearButton => "btn-clear"
  }

  /** The command a pressed button's id selects; other ids select nothing. */
  function CommandOf(id: string): (c: Option<ButtonCommand>)
    ensures c.Some? ==> ButtonId(c.value) == id
  {
    if id == "btn-send" then Some(SendButton)
    else if id == "btn-new" then Some(NewButton)
    else if id == "btn-save" then Some(SaveButton)
    else if id == "btn-load" then Some(LoadButton)
    else if id == "btn-history" then Some(HistoryButton)
    else if id == "btn-ext" then Some(ExtensionsButton)
    else if id == "btn-clear" then Some(ClearButton)
    else None
  }

  /** Every button's id dispatches to that button's command. */
  lemma CommandOfButtonId(c: ButtonCommand)
    ensures CommandOf(ButtonId(c)) == Some(c)
  {
  }

  const LoadHint: string := "📂 Select a session from the sidebar to load"
  const ExtensionsHint: string := "🔌 Extensions: developer, github, computer, screen"
  const Cleared: string := "🗑️ Chat cleared"

  /** Lines 312-326 of `send_to_goose`: collects `response_lines` and joins
      them, substituting the sentinel for an empty join. */
  method AssistantContent(stdout: seq<string>) returns (content: string)
    ensures content == Reply(Survivors(stdout))
  {
    var responseLines := Collect(stdout);
    var fullResponse := Join(responseLines, '\n');
    if fullResponse != [] {
      content := fullResponse;
    } else {
      content := Sentinel;
    }
  }

  class GooseTui {
    var currentSessionName: string
    var chatHistory: seq<Message>
    /** The bubbles mounted in the chat container, oldest first. */
    var bubbles: seq<Message>
    /** The argument vectors handed to the process runner, oldest first. */
    var commands: seq<seq<string>>
    /** The value of the chat input field. */
    var input: string

    /** History holds no notices and is what the display has shown of the
        conversation since the last new session or clear. */
    ghost predicate Valid()
      reads this`chatHistory, this`bubbles
    {
      NoNotices(chatHistory) && IsSuffix(chatHistory, Conversation(bubbles))
    }

    constructor ()
      ensures Valid()
      ensures currentSessionName == "" && chatHistory == [] && bubbles == []
      ensures commands == [] && input == ""
    {
      currentSessionName, chatHistory, bubbles, commands, input := "", [], [], [], "";
    }

    /** `add_system_message`: mounts a notice; history is untouched. */
    method AddSystemMessage(message: string, now: Instant)
      requires Valid()
      modifies this`bubbles
      ensures Valid()
      ensures bubbles == old(bubbles) + [Notice(message, now)]
    {
      SuffixAfterAppend(chatHistory, bubbles, Notice(message, now), chatHistory);
      bubbles := bubbles + [Notice(message, now)];
    }

    /** `add_user_message`: mounts the message and appends it to history. */
    method AddUserMessage(message: string, now: Instant)
      requires Valid()
      modifies this`bubbles, this`chatHistory
      ensures Valid()
      ensures bubbles == old(bubbles) + [Message("user", message, now.clock)]
      ensures chatHistory == old(chatHistory) + [Message("user", message, now.clock)]
    {
      var m := Message("user", message, now.clock);
      SuffixAfterAppend(chatHistory, bubbles, m, chatHistory + [m]);
      bubbles := bubbles + [m];
      chatHistory := chatHistory + [m];
    }

    /** `add_goose_message`: mounts the response and appends it to history. */
    method AddGooseMessage(message: string, now: Instant)
      requires Valid()
      modifies this`bubbles, this`chatHistory
      ensures Valid()
      ensures bubbles == old(bubbles) + [Message("assistant", message, now.clock)]
      ensures chatHistory == old(chatHistory) + [Message("assistant", message, now.clock)]
    {
      var m := Message("assistant", message, now.clock);
      SuffixAfterAppend(chatHistory, bubbles, m, chatHistory + [m]);
      bubbles := bubbles + [m];
      chatHistory := chatHistory + [m];
    }

    /** `start_new_session`: switches to `name` (or `session_<stamp>` when
        it is absent or empty), empties history, and runs
        `goose session start -n <name>`. `now` is read before the run,
        `later` after it. */
    method StartNewSession(name: Option<string>, init: InitOutcome, now: Instant, later: Instant)
      requires Valid()
      modifies this`currentSessionName, this`chatHistory, this`bubbles, this`commands
      ensures Valid()
      ensures currentSessionName == NameOr(name, "session_" + now.stamp)
      ensures chatHistory == []
      ensures bubbles == old(bubbles)
        + [Notice("🆕 Started new session: " + currentSessionName, now),
           Notice(InitNotice(currentSessionName, init), later)]
      ensures commands == old(commands) + [Argv(Start(currentSessionName))]
    {
      ghost var b0 := bubbles;
      var n := NameOr(name, "session_" + now.stamp);
      var heading, outcome := "🆕 Started new session: " + n, InitNotice(n, init);
      currentSessionName := n;
      EmptySuffix(Conversation(bubbles));
      chatHistory := [];
      AddSystemMessage(heading, now);
      commands := commands + [Argv(Start(n))];
      AddSystemMessage(outcome, later);
      AppendTwo(b0, Notice(heading, now), Notice(outcome, later));
    }

    /** `send_to_goose`: a message that is blank after stripping changes
        nothing. Otherwise the user's message is recorded, the agent is run
        (resuming the current session if there is one), and its aggregated
        output is recorded as the assistant's message, followed by a notice
        for a failed exit with error output or for an exception. `sent` is
        read before the run, `done` after it. */
    method SendToGoose(message: string, run: AgentRun, sent: Instant, done: Instant)
      requires Valid()
      modifies this`chatHistory, this`bubbles, this`commands
      ensures Valid()
      ensures Strip(message) == [] ==>
        chatHistory == old(chatHistory) && bubbles == old(bubbles) && commands == old(commands)
      ensures Strip(message) != [] ==>
        && chatHistory == old(chatHistory) + SendHistory(message, run, sent, done)
        && bubbles == old(bubbles) + SendBubbles(message, run, sent, done)
        && commands == old(commands) + [Argv(ChatInvocation(currentSessionName, message))]
    {
      if Strip(message) == [] {
        return;
      }
      ghost var h0, b0 := chatHistory, bubbles;
      AddUserMessage(message, sent);
      AddSystemMessage(Thinking, sent);
      commands := commands + [Argv(ChatInvocation(currentSessionName, message))];
      RecordRun(run, done);
      SendSteps(h0, b0, message, run, sent, done);
    }

    /** The part of `send_to_goose` after the process was started: the
        aggregated response, then the error notice if any. */
    method RecordRun(run: AgentRun, done: Instant)
      requires Valid()
      modifies this`chatHistory, this`bubbles
      ensures Valid()
      ensures chatHistory == old(chatHistory) + RunEntries(run, done)
      ensures bubbles == old(bubbles) + RunEntries(run, done) + RunNotices(run, done)
    {
      match run {
        case Finished(stdout, exitCode, stderr) =>
          var content := AssistantContent(stdout);
          AddGooseMessage(content, done);
          if exitCode != 0 && stderr != [] {
            AddSystemMessage("⚠️ Error: " + stderr, done);
          }
        case StderrUnreadable(stdout, error) =>
          var content := AssistantContent(stdout);
          AddGooseMessage(content, done);
          AddSystemMessage("❌ Error: " + error, done);
        case Raised(_, error) =>
          AddSystemMessage("❌ Error: " + error, done);
      }
    }

    /** `clear_chat`: empties the display and history, then shows a notice. */
    method ClearChat(now: Instant)
      requires Valid()
      modifies this`chatHistory, this`bubbles
      ensures Valid()
      ensures chatHistory == [] && bubbles == [Notice(Cleared, now)]
    {
      bubbles := [];
      chatHistory := [];
      AddSystemMessage(Cleared, now);
    }

    /** `handle_send_message`: sends the stripped input and clears the field,
        but only when the stripped input is non-empty. */
    method HandleSendMessage(run: AgentRun, sent: Instant, done: Instant)
      requires Valid()
      modifies this`chatHistory, this`bubbles, this`commands, this`input
      ensures Valid()
      ensures Strip(old(input)) == [] ==>
        input == old(input) && chatHistory == old(chatHistory)
        && bubbles == old(bubbles) && commands == old(commands)
      ensures Strip(old(input)) != [] ==>
        && input == ""
        && chatHistory == old(chatHistory) + SendHistory(Strip(old(input)), run, sent, done)
        && bubbles == old(bubbles) + SendBubbles(Strip(old(input)), run, sent, done)
        && commands == old(commands) + [Argv(ChatInvocation(currentSessionName, Strip(old(input))))]
    {
      var message := Strip(input);
      if message != [] {
        StripIdempotent(input);
        SendToGoose(message, run, sent, done);
        input := "";
      }
    }

    /** `on_input_submitted`: Enter in the chat input sends it. */
    method OnInputSubmitted(inputId: string, run: AgentRun, sent: Instant, done: Instant)
      requires Valid()
      modifies this`chatHistory, this`bubbles, this`commands, this`input
      ensures Valid()
      ensures inputId != "chat-input" ==>
        input == old(input) && chatHistory == old(chatHistory)
        && bubbles == old(bubbles) && commands == old(commands)
      ensures inputId == "chat-input" && Strip(old(input)) == [] ==>
        input == old(input) && chatHistory == old(chatHistory)
        && bubbles == old(bubbles) && commands == old(commands)
      ensures inputId == "chat-input" && Strip(old(input)) != [] ==>
        && input == ""
        && chatHistory == old(chatHistory) + SendHistory(Strip(old(input)), run, sent, done)
        && bubbles == old(bubbles) + SendBubbles(Strip(old(input)), run, sent, done)
        && commands == old(commands) + [Argv(ChatInvocation(currentSessionName, Strip(old(input))))]
    {
      if inputId == "chat-input" {
        HandleSendMessage(run, sent, done);
      }
    }

    /** `action_new_session`: starts a session named `chat_<stamp>`. */
    method ActionNewSession(init: InitOutcome, now: Instant, later: Instant)
      requires Valid()
      modifies this`currentSessionName, this`chatHistory, this`bubbles, this`commands
      ensures Valid()
      ensures currentSessionName == "chat_" + now.stamp && chatHistory == []
      ensures bubbles == old(bubbles)
        + [Notice("🆕 Started new session: " + currentSessionName, now),
           Notice(InitNotice(currentSessionName, init), later)]
      ensures commands == old(commands) + [Argv(Start(currentSessionName))]
    {
      StartNewSession(Some("chat_" + now.stamp), init, now, later);
    }

    /** `action_save_session`: only reports; nothing is written. */
    method ActionSaveSession(now: Instant)
      requires Valid()
      modifies this`bubbles
      ensures Valid()
      ensures bubbles == old(bubbles) + [Notice(SaveNotice(currentSessionName), now)]
    {
      AddSystemMessage(SaveNotice(currentSessionName), now);
    }

    /** `action_show_history`: reports the number of history entries. */
    method ActionShowHistory(now: Instant)
      requires Valid()
      modifies this`bubbles
      ensures Valid()
      ensures bubbles == old(bubbles) + [Notice(HistoryReport(|chatHistory|), now)]
    {
      AddSystemMessage(HistoryReport(|chatHistory|), now);
    }

    /** `on_button_pressed`: dispatches on the button's id; an unknown id
        does nothing. Send reads the input field; New starts `chat_<stamp>`;
        Clear empties history; the others only add one notice. */
    method OnButtonPressed(buttonId: string, run: AgentRun, init: InitOutcome, now: Instant, later: Instant)
      requires Valid()
      modifies this`currentSessionName, this`chatHistory, this`bubbles, this`commands, this`input
      ensures Valid()
      ensures CommandOf(buttonId).None? ==>
        && currentSessionName == old(currentSessionName) && chatHistory == old(chatHistory)
        && bubbles == old(bubbles) && commands == old(commands) && input == old(input)
      ensures CommandOf(buttonId) == Some(SendButton) ==> currentSessionName == old(currentSessionName)
      ensures CommandOf(buttonId) == Some(SendButton) && Strip(old(input)) == [] ==>
        && input == old(input) && chatHistory == old(chatHistory)
        && bubbles == old(bubbles) && commands == old(commands)
      ensures CommandOf(buttonId) == Some(SendButton) && Strip(old(input)) != [] ==>
        && input == ""
        && chatHistory == old(chatHistory) + SendHistory(Strip(old(input)), run, now, later)
        && bubbles == old(bubbles) + SendBubbles(Strip(old(input)), run, now, later)
        && commands == old(commands) + [Argv(ChatInvocation(currentSessionName, Strip(old(input))))]
      ensures CommandOf(buttonId) == Some(NewButton) ==>
        && currentSessionName == "chat_" + now.stamp && chatHistory == []
        && bubbles == old(bubbles)
             + [Notice("🆕 Started new session: " + currentSessionName, now),
                Notice(InitNotice(currentSessionName, init), later)]
        && commands == old(commands) + [Argv(Start(currentSessionName))] && input == old(input)
      ensures CommandOf(buttonId) == Some(ClearButton) ==>
        && chatHistory == [] && bubbles == [Notice(Cleared, now)]
        && currentSessionName == old(currentSessionName) && commands == old(commands)
        && input == old(input)
      ensures CommandOf(buttonId) == Some(SaveButton) ==>
        bubbles == old(bubbles) + [Notice(SaveNotice(currentSessionName), now)]
      ensures CommandOf(buttonId) == Some(LoadButton) ==>
        bubbles == old(bubbles) + [Notice(LoadHint, now)]
      ensures CommandOf(buttonId) == Some(HistoryButton) ==>
        bubbles == old(bubbles) + [Notice(HistoryReport(|chatHistory|), now)]
      ensures CommandOf(buttonId) == Some(ExtensionsButton) ==>
        bubbles == old(bubbles) + [Notice(ExtensionsHint, now)]
      ensures CommandOf(buttonId) in {Some(SaveButton), Some(LoadButton), Some(HistoryButton), Some(ExtensionsButton)} ==>
        && currentSessionName == old(currentSessionName) && chatHistory == old(chatHistory)
        && commands == old(commands) && input == old(input)
    {
      var command := CommandOf(buttonId);
      if command.Some? {
        Press(command.value, run, init, now, later);
      }
    }

    /** The action of a recognised button, in the branch order of
        `on_button_pressed`. */
    method Press(command: ButtonCommand, run: AgentRun, init: InitOutcome, now: Instant, later: Instant)
      requires Valid()
      modifies this`currentSessionName, this`chatHistory, this`bubbles, this`commands, this`input
      ensures Valid()
      ensures command == SendButton ==> currentSessionName == old(currentSessionName)
      ensures command == SendButton && Strip(old(input)) == [] ==>
        && input == old(input) && chatHistory == old(chatHistory)
        && bubbles == old(bubbles) && commands == old(commands)
      ensures command == SendButton && Strip(old(input)) != [] ==>
        && input == ""
        && chatHistory == old(chatHistory) + SendHistory(Strip(old(input)), run, now, later)
        && bubbles == old(bubbles) + SendBubbles(Strip(old(input)), run, now, later)
        && commands == old(commands) + [Argv(ChatInvocation(currentSessionName, Strip(old(input))))]
      ensures command == NewButton ==>
        && currentSessionName == "chat_" + now.stamp && chatHistory == []
        && bubbles == old(bubbles)
             + [Notice("🆕 Started new session: " + currentSessionName, now),
                Notice(InitNotice(currentSessionName, init), later)]
        && commands == old(commands) + [Argv(Start(currentSessionName))] && input == old(input)
      ensures command == ClearButton ==>
        && chatHistory == [] && bubbles == [Notice(Cleared, now)]
        && currentSessionName == old(currentSessionName) && commands == old(commands)
        && input == old(input)
      ensures command == SaveButton ==>
        bubbles == old(bubbles) + [Notice(SaveNotice(currentSessionName), now)]
      ensures command == LoadButton ==>
        bubbles == old(bubbles) + [Notice(LoadHint, now)]
      ensures command == HistoryButton ==>
        bubbles == old(bubbles) + [Notice(HistoryReport(|chatHistory|), now)]
      ensures command == ExtensionsButton ==>
        bubbles == old(bubbles) + [Notice(ExtensionsHint, now)]
      ensures command in {SaveButton, LoadButton, HistoryButton, ExtensionsButton} ==>
        && currentSessionName == old(currentSessionName) && chatHistory == old(chatHistory)
        && commands == old(commands) && input == old(input)
    {
      match command
      case SendButton => HandleSendMessage(run, now, later);
      case NewButton => ActionNewSession(init, now, later);
      case SaveButton => ActionSaveSession(now);
      case LoadButton => AddSystemMessage(LoadHint, now);
      case HistoryButton => ActionShowHistory(now);
      case ExtensionsButton => AddSystemMessage(ExtensionsHint, now);
      case ClearButton => ClearChat(now);
    }
  }
}
