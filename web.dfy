/** The browser front-end's bridge logic (goose-web.py): configuration
    defaults and updates, the `send_message` and `new_session` socket
    handlers with the events they emit, and the mapping of database rows to
    the JSON records the REST endpoints return. */
module Web {
  import opened Text
  import opened Wrappers
  import opened Agent
  import opened Response

  /** A JSON scalar, as held in the configuration and in database columns. */
  datatype Value = Null | Bool(b: bool) | Int(i: int) | Str(s: string)

  /** A JSON object of scalars. */
  type Object = map<string, Value>

  const ConfigKeys: set<string> := {"provider", "model", "port", "host"}

  /** `load_config`: the file's contents when `config.json` exists, else the
      built-in defaults. */
  function LoadConfig(file: Option<Object>): (config: Object)
    ensures file.Some? ==> config == file.value
    ensures file.None? ==> config.Keys == ConfigKeys
    ensures file.None? ==>
      && config["provider"] == Str("openai") && config["model"] == Str("gpt-4")
      && config["port"] == Int(8080) && config["host"] == Str("localhost")
  {
    match file
    case Some(c) => c
    case None =>
      map["provider" := Str("openai"), "model" := Str("gpt-4"),
          "port" := Int(8080), "host" := Str("localhost")]
  }

  /** Python's `config.update(data)`: every key of `data` takes its value from
      `data`; every other key keeps its old value; no key is dropped. */
  function Update(config: Object, data: Object): (r: Object)
    ensures r.Keys == config.Keys + data.Keys
    ensures forall k :: k in data ==> r[k] == data[k]
    ensures forall k :: k in config && k !in data ==> r[k] == config[k]
  {
    config + data
  }

  /** Posting the same data twice has the effect of posting it once, and the
      later of two posts wins on the keys they share. */
  lemma UpdateLaws(config: Object, d1: Object, d2: Object)
    ensures Update(Update(config, d1), d1) == Update(config, d1)
    ensures Update(Update(config, d1), d2) == Update(config, Update(d1, d2))
  {
    var a := Update(Update(config, d1), d1);
    assert a.Keys == Update(config, d1).Keys;
    var b, c := Update(Update(config, d1), d2), Update(config, Update(d1, d2));
    assert b.Keys == c.Keys;
    forall k | k in b ensures b[k] == c[k] {
      if k !in d2 && k !in d1 { assert k in config; }
    }
  }

  /** The reply of `GET /api/config` and `POST /api/config`. */
  datatype ConfigReply = ConfigBody(config: Object) | Saved(status: string, config: Object)

  /** The process-wide `config` of goose-web.py. */
  class WebServer {
    var config: Object

    constructor (file: Option<Object>)
      ensures config == LoadConfig(file)
    {
      config := LoadConfig(file);
    }

    /** `GET /api/config`. */
    method GetConfig() returns (reply: ConfigReply)
      ensures reply == ConfigBody(config)
    {
      reply := ConfigBody(config);
    }

    /** `POST /api/config`: merges the posted object into the configuration
        and answers with the merged configuration. */
    method PostConfig(data: Object) returns (reply: ConfigReply)
      modifies this
      ensures config == Update(old(config), data)
      ensures reply == Saved("success", config)
    {
      config := Update(config, data);
      reply := Saved("success", config);
    }
  }

  /** The events of the socket channel. */
  datatype Event =
    | MessageEvent(role: string, content: string, timestamp: string)
    | PartialResponse(content: string)
    | SessionCreated(name: string, status: string)
    | ErrorEvent(message: string)

  /** `emit` answers the client that sent the request; `socketio.emit`
      broadcasts to every connected client. */
  datatype Audience = Requester | Everyone

  datatype Emission = Emission(to: Audience, event: Event)

  /** One broadcast `partial_response` event per line, in order. */
  function Partials(lines: seq<string>): (r: seq<Emission>)
    ensures |r| == |lines|
    ensures forall k :: 0 <= k < |r| ==> r[k] == Emission(Everyone, PartialResponse(lines[k]))
  {
    if lines == [] then []
    else Partials(lines[..|lines| - 1]) + [Emission(Everyone, PartialResponse(lines[|lines| - 1]))]
  }

  /** The contents of the partial events of a stream, in order. */
  function PartialContents(out: seq<Emission>): seq<string> {
    if out == [] then []
    else
      var e := out[|out| - 1];
      PartialContents(out[..|out| - 1])
        + (if e.event.PartialResponse? then [e.event.content] else [])
  }

  /** The event that closes a run: the assistant's message, whose content is
      the newline join of the surviving lines, or the exception's text. The
      error output is never read here, so a run whose error output could not
      be read counts as finished. */
  function Final(run: AgentRun, done: Instant): (e: Emission)
    ensures e.to == Everyone
    ensures run.Raised? <==> e.event.ErrorEvent?
    ensures run.Raised? ==> e.event.message == run.error
    ensures !run.Raised? ==>
      e.event.MessageEvent? && e.event.role == "assistant" && e.event.timestamp == done.iso
  {
    if run.Raised? then Emission(Everyone, ErrorEvent(run.error))
    else Emission(Everyone, MessageEvent("assistant", Join(Survivors(run.stdout), '\n'), done.iso))
  }

  /** Everything `run_goose` emits for one run: the partials, then exactly
      one closing event. */
  function RunEvents(run: AgentRun, done: Instant): (out: seq<Emission>)
    ensures |out| == |Survivors(run.stdout)| + 1
    ensures out[..|out| - 1] == Partials(Survivors(run.stdout))
    ensures out[|out| - 1] == Final(run, done)
  {
    Partials(Survivors(run.stdout)) + [Final(run, done)]
  }

  lemma {:induction false} PartialContentsOfPartials(lines: seq<string>)
    ensures PartialContents(Partials(lines)) == lines
  {
    if lines != [] {
      var init := lines[..|lines| - 1];
      PartialContentsOfPartials(init);
      var p := Partials(lines);
      assert p[..|p| - 1] == Partials(init);
      assert lines == init + [lines[|lines| - 1]];
    }
  }

  /** The partial events of a run carry exactly the surviving lines, in
      emission order, and are followed by one closing event; when the run
      finished, the closing message's content is the newline join of the
      partial contents, and it is empty exactly when there was no partial
      (the browser front-end has no sentinel). The exit code and the error
      output play no part. */
  lemma RunEventsShape(run: AgentRun, done: Instant)
    ensures var out := RunEvents(run, done);
      && PartialContents(out[..|out| - 1]) == Survivors(run.stdout)
      && (forall k :: 0 <= k < |out| - 1 ==> out[k].to == Everyone && out[k].event.PartialResponse?)
      && out[|out| - 1] == Final(run, done)
      && !out[|out| - 1].event.PartialResponse?
      && (!run.Raised? ==>
            && out[|out| - 1].event.content == Join(PartialContents(out[..|out| - 1]), '\n')
            && (out[|out| - 1].event.content == [] <==> Survivors(run.stdout) == []))
  {
    var lines := Survivors(run.stdout);
    var out := RunEvents(run, done);
    var init := out[..|out| - 1];
    PartialContentsOfPartials(lines);
    JoinEmpty(lines, '\n');
    forall k | 0 <= k < |out| - 1
      ensures out[k].to == Everyone && out[k].event.PartialResponse?
    {
      assert out[k] == init[k];
    }
  }

  /** The streaming loop of `run_goose`: collects `response_lines` and
      broadcasts one partial event per surviving line as it is collected. */
  method Stream(stdout: seq<string>) returns (responseLines: seq<string>, out: seq<Emission>)
    ensures responseLines == Survivors(stdout)
    ensures out == Partials(responseLines)
  {
    responseLines, out := [], [];
    for i := 0 to |stdout|
      invariant responseLines == Survivors(stdout[..i])
      invariant out == Partials(responseLines)
    {
      assert stdout[..i + 1][..i] == stdout[..i];
      var line := Strip(stdout[i]);
      if line != [] {
        assert (responseLines + [line])[..|responseLines|] == responseLines;
        responseLines := responseLines + [line];
        out := out + [Emission(Everyone, PartialResponse(line))];
      }
    }
    assert stdout[..|stdout|] == stdout;
  }

  /** `run_goose`: always the resume form for the given session; streams a
      partial event per surviving line, then the closing event. */
  method RunGoose(sessionName: string, message: string, run: AgentRun, done: Instant)
    returns (argv: seq<string>, out: seq<Emission>)
    ensures argv == Argv(Resume(sessionName, message))
    ensures out == RunEvents(run, done)
  {
    argv := [Program, "session", "resume", "-n", sessionName, "-t", message];
    var responseLines, partials := Stream(run.stdout);
    if run.Raised? {
      out := partials + [Emission(Everyone, ErrorEvent(run.error))];
    } else {
      var fullResponse := Join(responseLines, '\n');
      out := partials + [Emission(Everyone, MessageEvent("assistant", fullResponse, done.iso))];
    }
  }

  /** The payload of `send_message`; a field is None when the key is absent. */
  datatype SendRequest = SendRequest(message: Option<string>, session: Option<string>)

  /** `handle_message`: an empty (falsy) message emits nothing and starts no
      run; a whitespace-only one proceeds. The session defaults to "default"
      only when the key is absent. The user's message is echoed to the sender
      before the run's events. `now` is read before the run, `done` after. */
  method HandleMessage(data: SendRequest, run: AgentRun, now: Instant, done: Instant)
    returns (argv: Option<seq<string>>, out: seq<Emission>)
    ensures data.message.GetOr("") == "" ==> argv == None && out == []
    ensures data.message.GetOr("") != "" ==>
      && argv == Some(Argv(Resume(data.session.GetOr("default"), data.message.value)))
      && out == [Emission(Requester, MessageEvent("user", data.message.value, now.iso))]
                + RunEvents(run, done)
  {
    var message := data.message.GetOr("");
    var sessionName := data.session.GetOr("default");
    if message == "" {
      return None, [];
    }
    var echo := Emission(Requester, MessageEvent("user", message, now.iso));
    var cmd, events := RunGoose(sessionName, message, run, done);
    argv, out := Some(cmd), [echo] + events;
  }

  /** The payload of `new_session`. */
  datatype NewSessionRequest = NewSessionRequest(name: Option<string>)

  /** `handle_new_session`: the given name if truthy, else `session_<stamp>`;
      runs `goose session start -n <name>` and reports the outcome. */
  method HandleNewSession(data: NewSessionRequest, init: InitOutcome, now: Instant)
    returns (argv: seq<string>, out: seq<Emission>)
    ensures argv == Argv(Start(NameOr(data.name, "session_" + now.stamp)))
    ensures init.Started? ==>
      out == [Emission(Requester, SessionCreated(NameOr(data.name, "session_" + now.stamp), "success"))]
    ensures init.InitFailed? ==>
      out == [Emission(Requester, ErrorEvent("Failed to create session: " + init.error))]
  {
    var name := if data.name.Some? && data.name.value != "" then data.name.value
                else "session_" + now.stamp;
    argv := [Program, "session", "start", "-n", name];
    match init {
      case Started => out := [Emission(Requester, SessionCreated(name, "success"))];
      case InitFailed(e) => out := [Emission(Requester, ErrorEvent("Failed to create session: " + e))];
    }
  }

  /** A row of `SELECT name, created_at, last_accessed, directory FROM sessions`. */
  datatype SessionRow = SessionRow(name: Value, createdAt: Value, lastAccessed: Value, directory: Value)

  /** A row of `SELECT role, content, timestamp FROM messages`. */
  datatype MessageRow = MessageRow(role: Value, content: Value, timestamp: Value)

  /** The record `api_sessions` builds from a row (its keys are renamed). */
  function SessionRecord(row: SessionRow): (r: Object)
    ensures r.Keys == {"name", "created", "accessed", "directory"}
  {
    map["name" := row.name, "created" := row.createdAt,
        "accessed" := row.lastAccessed, "directory" := row.directory]
  }

  /** Reads a session record back as the row it came from. */
  function SessionRowOf(r: Object): SessionRow
    requires {"name", "created", "accessed", "directory"} <= r.Keys
  {
    SessionRow(r["name"], r["created"], r["accessed"], r["directory"])
  }

  /** No column is lost or confused in a session record. */
  lemma SessionRecordReadsBack(row: SessionRow)
    ensures SessionRowOf(SessionRecord(row)) == row
  {
  }

  /** The record `api_session_history` builds from a row. */
  function MessageRecord(row: MessageRow): (r: Object)
    ensures r.Keys == {"role", "content", "timestamp"}
  {
    map["role" := row.role, "content" := row.content, "timestamp" := row.timestamp]
  }

  function MessageRowOf(r: Object): MessageRow
    requires {"role", "content", "timestamp"} <= r.Keys
  {
    MessageRow(r["role"], r["content"], r["timestamp"])
  }

  /** No column is lost or confused in a message record. */
  lemma MessageRecordReadsBack(row: MessageRow)
    ensures MessageRowOf(MessageRecord(row)) == row
  {
  }

  /** What a query against the sessions database yields: no database file,
      the rows in the order the query returns them, or a raised error. */
  datatype Query<T> = NoDatabase | Rows(rows: seq<T>) | QueryFailed(error: string)

  /** The JSON reply of a listing endpoint: `{key: items}`, or
      `{"error": message}` with status 500. */
  datatype Listing = Listing(key: string, items: seq<Object>) | ServerError(message: string) {
    function Status(): (code: int)
      ensures code == 200 || code == 500
      ensures code == 200 <==> Listing?
    {
      if Listing? then 200 else 500
    }
  }

  /** `GET /api/sessions`: one record per row, in query order; an empty list
      when there is no database. */
  method ApiSessions(query: Query<SessionRow>) returns (reply: Listing)
    ensures query.NoDatabase? ==> reply == Listing("sessions", [])
    ensures query.QueryFailed? ==> reply == ServerError(query.error)
    ensures query.Rows? ==>
      && reply.Listing? && reply.key == "sessions" && |reply.items| == |query.rows|
      && forall k :: 0 <= k < |query.rows| ==> reply.items[k] == SessionRecord(query.rows[k])
  {
    match query {
      case NoDatabase => return Listing("sessions", []);
      case QueryFailed(e) => return ServerError(e);
      case Rows(rows) =>
        var sessions: seq<Object> := [];
        for i := 0 to |rows|
          invariant |sessions| == i
          invariant forall k :: 0 <= k < i ==> sessions[k] == SessionRecord(rows[k])
        {
          sessions := sessions + [SessionRecord(rows[i])];
        }
        return Listing("sessions", sessions);
    }
  }

  /** `GET /api/session/<name>/history`: one record per message row of that
      session, in query order; an empty list when there is no database. */
  method ApiSessionHistory(query: Query<MessageRow>) returns (reply: Listing)
    ensures query.NoDatabase? ==> reply == Listing("messages", [])
    ensures query.QueryFailed? ==> reply == ServerError(query.error)
    ensures query.Rows? ==>
      && reply.Listing? && reply.key == "messages" && |reply.items| == |query.rows|
      && forall k :: 0 <= k < |query.rows| ==> reply.items[k] == MessageRecord(query.rows[k])
  {
    match query {
      case NoDatabase => return Listing("messages", []);
      case QueryFailed(e) => return ServerError(e);
      case Rows(rows) =>
        var messages: seq<Object> := [];
        for i := 0 to |rows|
          invariant |messages| == i
          invariant forall k :: 0 <= k < i ==> messages[k] == MessageRecord(rows[k])
        {
          messages := messages + [MessageRecord(rows[i])];
        }
        return Listing("messages", messages);
    }
  }
}
