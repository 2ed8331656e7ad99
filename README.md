# goose-dashboard bridge, modelled in Dafny

goose-dashboard puts two chat front-ends in front of the external `goose`
command-line agent: a terminal UI (`goose-tui.py`, Textual) and a browser
dashboard (`goose-web.py`, Flask with Socket.IO). This project models the
logic that bridges a chat message to the agent and back. That logic is:

- **Output aggregation.** Each raw standard-output line of one agent run is
  stripped as Python's `str.strip()` does. Blank results are dropped. The
  survivors keep their emission order. They are newline-joined into one
  assistant message. The terminal UI records a "no output" sentinel when
  nothing survives. The web UI instead emits a `message` event whose
  content is `""`, and it also broadcasts every survivor as a
  `partial_response` event.
- **Command construction.** The argument vectors of the three agent
  invocations: start, resume and one-shot.
- **The terminal UI's chat state.** `GooseTUI` keeps `current_session_name`,
  `chat_history`, the mounted chat bubbles and the input field. Send, new
  session, clear, save, show-history and button dispatch change this state.
- **The web UI's rules.** These cover config defaults and the
  `config.update` merge, the `send_message` and `new_session` socket handlers
  and the events they emit, and the mapping of database rows to JSON records.

Modules, one file each:

- `text.dfy` (`Text`): Python string semantics. The `isspace` set,
  `strip()`, `sep.join`, `split`, line iteration over a text-mode stream,
  and `str(n)`.
- `agent.dfy` (`Agent`): what one agent run looks like from the bridge
  (`AgentRun`), clock readings (`Instant`), argument vectors with their
  inverse, and session-name defaulting.
- `response.dfy` (`Response`): the aggregation both front-ends share.
- `tui.dfy` (`Tui`): the `GooseTui` class, modelled state-changing method by
  state-changing method, plus `ChatBubble`'s role mapping.
- `web.dfy` (`Web`): the `WebServer` class holding the global config, the
  socket handlers, and the REST listing endpoints.
- `wrappers.dfy` (`Wrappers`): `Option`.

The outside world comes in as inputs. Each agent run is an `AgentRun` value:
the lines read from its standard output, then either its exit code and
error text, or the text of the exception raised while reading the error
output of a failed run, or the text of the exception that ended the run
before any reply. A database query is a `Query`
value: no database file, the rows in query order, or an error. Each clock
reading is an opaque `Instant` carrying the three renderings the code uses
(`%H:%M:%S`, `%Y%m%d_%H%M%S`, ISO 8601). Emitted socket events are an output
sequence tagged with their audience: the requesting client (`emit`) or
every client (`socketio.emit`). The argument vectors handed to the process
runner are recorded in the `commands` field of `GooseTui`, or returned by
the web handlers.

Some facts about the code that the model keeps:

- The web UI has no "no output" sentinel. Its final message is the plain
  join, so it is `""` when nothing survived.
- The socket payload keys are `message` and `session`, and the event names
  use underscores (`send_message`, `partial_response`, `session_created`).
- Neither front-end persists transcripts, locks a session, applies
  backpressure or makes session creation idempotent, so the model has none
  of these.

## Model

| member | source | states |
|---|---|---|
| Text.SkipLead | goose-tui.py:314 | the leading whitespace run that `strip()` removes: everything before the result is whitespace, and the character at the result is not |
| Text.SkipTrail | goose-tui.py:314 | the trailing whitespace run that `strip()` removes, described symmetrically |
| Text.Strip | goose-tui.py:314 | the result is no longer than the input and has no whitespace at either end; it is empty exactly when the input is all whitespace |
| Text.StripExact | goose-tui.py:314 | a blank prefix and a blank suffix around a stripped middle strip to exactly that middle |
| Text.StripShape | goose-tui.py:314 | every string is a blank prefix, its strip, then a blank suffix (with `StripExact`, a full characterization of `strip()`) |
| Text.StripIdempotent | goose-tui.py:436 | stripping twice is stripping once: `handle_send_message` passes an already stripped message on, and the blank guard of `send_to_goose` sees the same text |
| Text.Join | goose-tui.py:321 | `sep.join`: no parts give "", and one part gives that part |
| Text.JoinEmpty | goose-tui.py:321-323 | a join of non-empty parts is empty exactly when there are no parts |
| Text.JoinHoldsSeparator | goose-tui.py:321 | a join of two or more parts contains the separator |
| Text.IndexOf | goose-web.py:199 | the first occurrence of a character, or the length when it is absent; a helper of `Split`, which the code never calls: it is the inverse used to prove that the join loses nothing |
| Text.Split | goose-web.py:199 | Python's `split` on one character always yields at least one piece; the code never splits, and `Split` is the inverse used to prove that the join loses nothing |
| Text.SplitJoin | goose-web.py:199 | splitting a newline join gives the parts back when no part holds a newline: the join loses nothing |
| Text.SplitAt | goose-web.py:199 | a separator-free piece followed by the separator splits off as the first piece (a step of the proof that the join loses nothing) |
| Text.IndexOfAbsent | goose-web.py:199 | a character that is absent is found at the end (a step of the proof that the join loses nothing) |
| Text.IndexOfFirst | goose-web.py:199 | in `p + sep + tail`, with `sep` not in `p`, the first separator is at `|p|` (a step of the proof that the join loses nothing) |
| Text.Lines | goose-tui.py:313 | iteration over a text-mode stream yields only non-empty lines, with a newline at most as the last character, and every line but the last ends with a newline (with `LinesConcat`, this fixes where the lines break) |
| Text.LinesConcat | goose-web.py:189 | line iteration loses nothing: the lines concatenate back to the text |
| Text.RawLineStripNoNewline | goose-web.py:190 | a stripped stream line holds no newline |
| Text.NatToString | goose-tui.py:475-476 | the rendering of a count is non-empty and all decimal digits, with no leading zero except for 0 itself (with `ParseNatToString`, this fixes the rendering) |
| Text.ParseNatToString | goose-tui.py:475-476 | the rendering of a count reads back as the same number |
| Agent.Argv | goose-tui.py:295-301 | each invocation's argument vector starts with the `goose` program and has the start, resume or one-shot shape |
| Agent.ParseArgv | goose-web.py:177 | every invocation reads back from its argument vector, for any name and prompt, including "" or ones that look like flags |
| Agent.ArgvInjective | goose-web.py:220 | distinct invocations never share an argument vector |
| Agent.NameOr | goose-web.py:216 | a given truthy name is kept; an absent or empty one is replaced by the fallback |
| Response.Keep | goose-tui.py:314-316 | one raw line contributes at most one line |
| Response.Survivors | goose-tui.py:312-316 | `response_lines` is no longer than the output, and each element is non-empty and stripped |
| Response.Kept | goose-tui.py:315-316 | the positions of the surviving raw lines are in range and strictly ascending |
| Response.SurvivorsInOrder | goose-tui.py:312-316 | survivor k is the strip of raw line `Kept[k]`, and there are as many survivors as kept positions, so emission order is kept |
| Response.InOrderExtend | goose-tui.py:313-316 | the step of that proof: one more raw line keeps survivor k equal to the strip of raw line `Kept[k]` |
| Response.KeptExactly | goose-tui.py:315 | a raw line's position is kept exactly when the line is not blank |
| Response.SurvivorsSnoc | goose-tui.py:313-316 | one more raw line adds what `Keep` gives for it, at the end |
| Response.SurvivorsConcat | goose-web.py:189-192 | aggregation is compositional over consecutive chunks of output |
| Response.SurvivorsEmpty | goose-tui.py:321-326 | nothing survives exactly when every raw line is blank |
| Response.Collect | goose-tui.py:312-316 | the loop collects exactly `Survivors(stdout)` |
| Response.Reply | goose-tui.py:321-326 | the terminal UI's assistant content is never empty |
| Response.ReplyOfSurvivors | goose-tui.py:321-326 | the sentinel is substituted exactly when no line survived; otherwise the content is the newline join of the survivors |
| Response.ReplyIsSentinel | goose-tui.py:321-326 | for every output, the recorded content is the sentinel exactly when nothing survived or the only survivor is the sentinel text itself |
| Response.ReplyIsSentinelOf | goose-tui.py:321-326 | the same for any list of non-empty lines: a join of two or more holds a newline, which the sentinel does not |
| Response.SentinelIsAmbiguous | goose-tui.py:326 | an agent that prints exactly the sentinel text is recorded the same as one that printed nothing |
| Response.JoinedSurvivorsSplitBack | goose-web.py:199 | the newline join of the survivors of stream lines splits back into those survivors |
| Response.StreamSplitsBack | goose-web.py:189-199 | the same, end to end from the standard-output text |
| Tui.StyleOf | goose-tui.py:29-39 | "user" maps to ("user-bubble", "You") and "assistant" to ("goose-bubble", "🪿 Goose"), each if and only if; every other role maps to ("system-bubble", "System") |
| Tui.Markup | goose-tui.py:41-44 | the bubble text is, piece by piece and nothing else: `[dim]`, the timestamp, `[/] [bold]`, the role heading of `StyleOf`, `[/]` and a newline, then the content |
| Tui.Notice | goose-tui.py:215-218 | a notice is shown in the system style and carries the given text |
| Tui.Conversation | goose-tui.py:233-254 | the user and assistant bubbles of a display hold no notice, and there are no more of them than bubbles |
| Tui.ConversationStart | goose-tui.py:288-291 | after the user's message and the thinking notice, the conversation is just the user's message |
| Tui.ConversationTail | goose-tui.py:221 | mounting at most one bubble extends the conversation by it exactly when it is a user or assistant message |
| Tui.ConversationOfSend | goose-tui.py:288-337 | the bubbles of one send (user message, notice, at most one reply, at most one further notice) have the user message and the reply as their conversation |
| Tui.ConversationAppend | goose-tui.py:221 | mounting a bubble extends the conversation by that bubble exactly when it is a user or assistant message |
| Tui.SuffixAfterAppend | goose-tui.py:224-254 | appending to history what is appended to the conversation keeps history a suffix of the conversation |
| Tui.SuffixExtend | goose-tui.py:233-254 | appending one entry to history and conversation alike keeps history a suffix |
| Tui.ChatInvocation | goose-tui.py:295-301 | resume with the current session exactly when its name is non-empty, otherwise one-shot; the prompt is the message |
| Tui.RunEntries | goose-tui.py:323-326 | exactly one assistant entry, stamped after the run, for a run that reached the reply, whatever its exit code and also when reading its error output then raised; none when the run raised before the reply |
| Tui.RunNotices | goose-tui.py:328-337 | one system notice at most, all of them system notices, and none exactly when the run finished with exit code 0 or with empty error output (the text of the notice when reading the error output raised is stated by `UnreadableStderrShape`) |
| Tui.SendHistory | goose-tui.py:288-337 | one send's history entries: the user's message, then the run's entries |
| Tui.SendBubbles | goose-tui.py:288-337 | one send's bubbles, in order: the user's message, the thinking notice, the run's entries, then its notices |
| Tui.SendHistoryShape | goose-tui.py:288-326 | a send that reaches the reply adds exactly two history entries: the user's message, then the assistant's aggregated response, or the sentinel when nothing survived |
| Tui.SendHistoryIsConversation | goose-tui.py:288-337 | a send's history entries are exactly the conversation of the bubbles it mounts: the thinking indicator and error notices stay out |
| Tui.UnreadableStderrShape | goose-tui.py:323-337 | when reading the error output of a failed run raises, the bubbles are the user's message, the thinking notice, the reply and then the `❌ Error:` notice, and history holds the user's message and the reply |
| Tui.SendSteps | goose-tui.py:288-337 | the user entry, the thinking notice, the run's entry and its notice, added one after another, make up `SendHistory` and `SendBubbles` |
| Tui.HistoryReport | goose-tui.py:472-478 | the no-history notice is shown exactly for an empty history |
| Tui.SaveNotice | goose-tui.py:460-465 | the no-session notice exactly when there is no session; otherwise the notice holds the session's name at its place |
| Tui.InitNotice | goose-tui.py:278-280 | the success notice holds the session name at its place; the failure notice ends with the error text |
| Tui.HistoryReportReadsBack | goose-tui.py:474-476 | the report of a non-empty history contains its length as digits that read back as that length |
| Tui.ButtonId | goose-tui.py:152-157 | every button id has the `btn-` prefix followed by a non-empty name (the send button's id is at goose-tui.py:181) |
| Tui.CommandOf | goose-tui.py:416-431 | a recognised id selects the button that has that id |
| Tui.CommandOfButtonId | goose-tui.py:418-431 | each button's id dispatches to that button's command |
| Tui.AssistantContent | goose-tui.py:312-326 | the recorded content is the join of `Survivors(stdout)`, or the sentinel when that join is empty |
| Tui.GooseTui.constructor | goose-tui.py:46 | no session, empty history, no bubbles, no commands, and an empty input |
| Tui.GooseTui.AddSystemMessage | goose-tui.py:215-222 | mounts one system notice and leaves history unchanged |
| Tui.GooseTui.AddUserMessage | goose-tui.py:224-238 | mounts the user bubble and appends the same entry to history |
| Tui.GooseTui.AddGooseMessage | goose-tui.py:240-254 | mounts the assistant bubble and appends the same entry to history |
| Tui.GooseTui.StartNewSession | goose-tui.py:256-280 | the session becomes the name, or `session_<stamp>` when the name is absent or empty; history is emptied; the start command is recorded, followed by the new-session notice and then the init-success or init-error notice |
| Tui.GooseTui.SendToGoose | goose-tui.py:282-337 | a message that is blank after stripping changes nothing; otherwise history grows by `SendHistory`, the bubbles by `SendBubbles`, and the chosen invocation's argument vector is recorded |
| Tui.GooseTui.RecordRun | goose-tui.py:312-337 | adds the assistant entry of a run that reached the reply, then the error notice when the exit code is non-zero and error output is present, or the exception notice when reading the error output raised or the run raised |
| Tui.GooseTui.ClearChat | goose-tui.py:447-452 | history and display are emptied, and then only the "cleared" notice is shown |
| Tui.GooseTui.HandleSendMessage | goose-tui.py:433-440 | sends the stripped input and clears the field only when the stripped input is non-empty; otherwise nothing changes |
| Tui.GooseTui.OnInputSubmitted | goose-tui.py:442-445 | Enter in the chat input has exactly the effect of `HandleSendMessage`, in both the blank and the non-blank case; Enter in any other input changes nothing |
| Tui.GooseTui.ActionNewSession | goose-tui.py:455-458 | starts a session named `chat_<stamp>` with empty history |
| Tui.GooseTui.ActionSaveSession | goose-tui.py:460-465 | adds the auto-saved notice, or the no-session notice; nothing else changes |
| Tui.GooseTui.ActionShowHistory | goose-tui.py:472-478 | adds a notice reporting the history's length; history is unchanged |
| Tui.GooseTui.OnButtonPressed | goose-tui.py:414-431 | each id has its action's full effect: Send as `HandleSendMessage` (nothing changes for a blank input), New as `ActionNewSession` with its two notices, Clear as `ClearChat` with the input kept, and Save, Load, History and Extensions add just their notice; an unknown id changes nothing |
| Tui.GooseTui.Press | goose-tui.py:418-431 | the action of each recognised button, with the same per-button effect `OnButtonPressed` states, the button given as a command rather than an id |
| Web.LoadConfig | goose-web.py:28-37 | the file's object when the file exists; otherwise exactly the keys provider, model, port and host, with "openai", "gpt-4", 8080 and "localhost" |
| Web.Update | goose-web.py:53 | the keys are the union; every posted key takes the posted value; every other key keeps its value |
| Web.UpdateLaws | goose-web.py:51-59 | posting the same data twice equals posting it once, and two posts equal one post of their merge |
| Web.WebServer.constructor | goose-web.py:39 | the config is `LoadConfig` of the file |
| Web.WebServer.GetConfig | goose-web.py:61 | answers with the current config |
| Web.WebServer.PostConfig | goose-web.py:51-59 | the new config is the old one updated with the data, and the reply is the success status with that new config |
| Web.Partials | goose-web.py:191-194 | one broadcast `partial_response` per line, with that line as content, in order |
| Web.PartialContentsOfPartials | goose-web.py:188-194 | the contents of the partial events are exactly the lines they were made from |
| Web.Final | goose-web.py:196-207 | the closing event is broadcast; it is an `error` event with the exception's text exactly when the run raised, and otherwise the assistant `message` stamped after the run |
| Web.RunEvents | goose-web.py:188-207 | one event per survivor followed by one closing event: the partials of the survivors, then `Final` |
| Web.RunEventsShape | goose-web.py:188-207 | the partial contents are exactly the survivors, all broadcast and followed by one closing event; for a finished run the closing message is the newline join of the partial contents, and it is "" exactly when there were none |
| Web.Stream | goose-web.py:188-194 | the loop collects exactly the survivors and broadcasts exactly one partial per survivor, in order |
| Web.RunGoose | goose-web.py:175-207 | the argument vector is always the resume form for the session and message, and the emitted events are `RunEvents` of the run |
| Web.HandleMessage | goose-web.py:159-211 | a falsy message emits nothing and starts nothing; otherwise the user echo to the requester comes before the run's events; the session is "default" only when the key is absent |
| Web.HandleNewSession | goose-web.py:214-228 | the name is the given truthy name or `session_<stamp>`; the start command is issued; the reply is `session_created` with status success, or the failure error |
| Web.SessionRecord | goose-web.py:81-86 | a session record has exactly the keys name, created, accessed and directory |
| Web.SessionRecordReadsBack | goose-web.py:81-86 | each column lands under its own key |
| Web.MessageRecord | goose-web.py:113-117 | a message record has exactly the keys role, content and timestamp |
| Web.MessageRecordReadsBack | goose-web.py:113-117 | each column lands under its own key |
| Web.ApiSessions | goose-web.py:63-92 | no database gives an empty `sessions` list; a query error gives status 500 with its text; otherwise one record per row, in query order |
| Web.ApiSessionHistory | goose-web.py:94-123 | the same for `messages` |
| Web.Listing.Status | goose-web.py:92 | a listing answers 200 and an error answers 500, and no other status (likewise at goose-web.py:123) |
| Wrappers.Option.GetOr | goose-web.py:161-162 | a present value is returned; an absent one gives the default, as `data.get(key, default)` does |

## Left out

- goose-hybrid.py: it only starts and stops the two front-end processes and handles signals; there is no bridge logic in it.
- Process spawning, pipes, `bufsize`, `process.wait()`, the `timeout=10` of the start call, and the daemon thread of `run_goose`: each run is an `AgentRun` input, and start calls are an `InitOutcome`.
- The `except subprocess.TimeoutExpired` branch of `send_to_goose` (goose-tui.py:334-335): `Popen` is given no timeout, so the branch cannot be taken.
- A child that fills its error pipe never ends, because both front-ends read its standard output to the end before waiting, and the web UI never reads the error output. In the terminal UI this freezes the whole interface, since `send_to_goose` runs inside the button and Enter handlers (goose-tui.py:419, 439, 445). In the web UI only that run's worker thread hangs (goose-web.py:209-211), so its closing `message` or `error` event is never emitted while the server keeps serving. The model assumes every run ends. The web UI treats a run whose error output is unreadable as finished, since it never reads that output.
- POST bodies to `/api/config` that are not JSON objects: `null` makes `update` raise, giving a 500 with the config unchanged, and a list of key-value pairs is accepted by `dict.update`. `Update` takes an object.
- `chat_history` is a class attribute (goose-tui.py:138), so it is shared by all instances until `start_new_session` or `clear_chat` rebinds it on the instance. The model gives each `GooseTui` object its own `chatHistory`; the program creates only one.
- Universal-newline translation of `\r\n` and `\r` in text-mode streams: `Lines` splits on `\n` only.
- SQLite access and the `ORDER BY` clauses: rows arrive in query order as a `Query` value.
- Non-string JSON values in the socket payloads, such as `null` or numbers for `message` or `session`: the fields are `Option<string>`, with None meaning the key is absent.
- Floating-point and blob columns, and config values that are floating-point numbers, arrays or nested objects: `Value` has null, booleans, integers and strings. The source accepts a POST such as `{"extensions": ["developer"]}` (goose-web.py:52-53), or a `config.json` holding a list, and the model cannot express either.
- Writing `config.json` after a POST (goose-web.py:56-57) and reading it: the file's contents at start-up are the `LoadConfig` input.
- The order in which broadcasts from concurrent `run_goose` threads interleave: each run's events are modelled as one contiguous sequence.
- Textual widget composition, CSS, keybindings, scrolling and the session-status widget; the Flask page route, CORS, the click CLI and the Socket.IO transport.
- Rich markup interpretation: `Markup` is the markup string, not what it renders to.
- `on_mount` and its `goose --version` probe, the startup banner, `load_recent_sessions` (SQLite, sidebar widgets), and `load_session_history`, which nothing calls. They are interface or database code outside the bridge, so their notices are not modelled.
- `action_resume_session`, `action_extensions` and `action_help`: each only shows a fixed notice and is bound to a key, not to a button. `handle_connect`'s status event and the fixed `/api/extensions` list are likewise constant replies.
- `strftime` and `isoformat`: each clock reading is an opaque `Instant`. The code reads the clock afresh in every helper call: `add_user_message`, `add_goose_message` and each `add_system_message` take their own reading, `start_new_session` takes one more for a default name, and `action_new_session` one for its name. The model merges these readings. `SendToGoose` gets one `Instant` for everything before the run (the user bubble and the thinking notice) and one for everything after it (the reply and its notice). `StartNewSession` gets one for the name and the first notice and one for the init notice. `ActionNewSession` and `OnButtonPressed` pass the first on as the name's reading. So the model cannot show, for instance, a user bubble and the thinking notice with different timestamps.
