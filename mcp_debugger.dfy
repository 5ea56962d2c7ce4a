/** The Deepgram debugging tool server: a `DeepgramDebugger` object that keeps an optional
    speech-service client and a bounded log (at most 100 entries, oldest dropped first) of the
    requests it makes, and the dispatcher that maps a tool name and its arguments to calls on it.

    The speech service's answers are given as outcomes (`Backend`); a clock reading is given
    per tool call as one timestamp and one duration. Thrown errors are `Err(message)`. */
module McpDebugger {
  import opened Common

  /** A payload returned by the speech service, kept as its serialized JSON. */
  type Json = string

  /** `{ model, language, smart_format, punctuate, diarize }`, each key present or not. */
  datatype TranscriptionOptions = TranscriptionOptions(model: Option<string>, language: Option<string>,
                                                       smartFormat: Option<bool>, punctuate: Option<bool>,
                                                       diarize: Option<bool>)

  /** The options used when none are given. */
  const DefaultOptions := TranscriptionOptions(Some("nova-2"), None, Some(true), None, None)
  const NoOptions := TranscriptionOptions(None, None, None, None, None)
  const SampleAudioUrl := "https://dpgr.am/spacewalk.wav"

  datatype LogType = RequestLog | ResponseLog | ErrorLog

  datatype LogData =
    | TranscribeRequest(url: string, options: TranscriptionOptions)
    | Payload(payload: Json)
    | ErrorMessage(error: string)   // `{ error: message }`
    | ErrorObject(error: string)    // `{ error }`, the returned error record itself

  datatype DebugLog = DebugLog(timestamp: string, logType: LogType, endpoint: Option<string>,
                               data: LogData, duration: Option<int>)

  /** `maxLogs`. */
  const MaxLogs := 100

  // ---------------------------------------------------------------------------------
  // The log buffer as values

  /** `logs.push(log)` followed by `logs.shift()` when the length then exceeds 100: the result
      ends with `log` and keeps the most recent entries in their order. */
  function Appended(logs: seq<DebugLog>, log: DebugLog): (r: seq<DebugLog>)
    ensures |r| >= 1 && r[|r| - 1] == log
    ensures |r| <= |logs| + 1 && r == (logs + [log])[|logs| + 1 - |r|..]
    ensures |logs| <= MaxLogs ==> |r| == Min(|logs| + 1, MaxLogs)
  {
    var pushed := logs + [log];
    if |pushed| > MaxLogs then pushed[1..] else pushed
  }

  /** The last `n` entries of `s` (all of them when there are fewer). */
  function Newest(s: seq<DebugLog>, n: nat): (r: seq<DebugLog>)
    ensures |r| == Min(|s|, n) && r == s[|s| - |r|..]
  {
    if |s| <= n then s else s[|s| - n..]
  }

  /** `addLog` applied to each of `entries` in turn. */
  function AppendAll(logs: seq<DebugLog>, entries: seq<DebugLog>): seq<DebugLog> {
    if entries == [] then logs
    else Appended(AppendAll(logs, entries[..|entries| - 1]), entries[|entries| - 1])
  }

  lemma AppendedNewest(s: seq<DebugLog>, log: DebugLog)
    ensures Appended(Newest(s, MaxLogs), log) == Newest(s + [log], MaxLogs)
  {
    if |s| > MaxLogs {
      assert Newest(s, MaxLogs) + [log] == (s + [log])[|s| - MaxLogs..];
    }
  }

  /** However many entries are added, the log holds exactly the most recent 100 (or all of
      them while there are fewer), oldest first. */
  lemma {:induction false} AppendAllKeepsNewest(logs: seq<DebugLog>, entries: seq<DebugLog>)
    requires |logs| <= MaxLogs
    ensures AppendAll(logs, entries) == Newest(logs + entries, MaxLogs)
  {
    if entries == [] {
      assert logs + entries == logs;
    } else {
      var init := entries[..|entries| - 1];
      var last := entries[|entries| - 1];
      calc {
        AppendAll(logs, entries);
        Appended(AppendAll(logs, init), last);
        { AppendAllKeepsNewest(logs, init); }
        Appended(Newest(logs + init, MaxLogs), last);
        { AppendedNewest(logs + init, last); }
        Newest((logs + init) + [last], MaxLogs);
        { assert (logs + init) + [last] == logs + entries; }
        Newest(logs + entries, MaxLogs);
      }
    }
  }

  /** `Array.prototype.slice(start)` for an integer `start`: a negative start counts from the end. */
  function SliceFrom(s: seq<DebugLog>, start: int): (r: seq<DebugLog>)
    ensures start >= 0 ==> r == s[Min(start, |s|)..]
    ensures start < 0 ==> r == s[Max(|s| + start, 0)..]
  {
    if start < 0 then s[Max(|s| + start, 0)..] else s[Min(start, |s|)..]
  }

  /** `getLogs(limit)` on the entries `logs`. */
  function LogsFor(logs: seq<DebugLog>, limit: Option<int>): (r: seq<DebugLog>)
    // no limit, or a limit of 0: every entry
    ensures !TruthyNumber(limit) ==> r == logs
    // a positive limit: the last min(limit, length) entries
    ensures TruthyNumber(limit) && limit.value > 0 ==>
              |r| == Min(limit.value, |logs|) && r == logs[|logs| - |r|..]
    // a negative limit: `slice(-limit)` drops the first |limit| entries
    ensures TruthyNumber(limit) && limit.value < 0 ==> r == logs[Min(-limit.value, |logs|)..]
  {
    if TruthyNumber(limit) then SliceFrom(logs, -limit.value) else logs
  }

  // ---------------------------------------------------------------------------------
  // Outcomes of the speech service's calls

  /** The outcome of `manage.getProjects()`. */
  datatype ProjectsOutcome =
    | ProjectsListed(payload: Json, firstProjectId: Option<string>)  // the response has a `projects` list
    | ProjectsWithoutList(payload: Json)                             // the response has no `projects` key
    | ProjectsThrew(message: string)

  /** The outcome of `listen.prerecorded.transcribeUrl(...)`. */
  datatype TranscribeOutcome =
    | Transcribed(result: Json, channels: Option<int>, durationSeconds: Option<real>, words: Option<int>)
    | ApiError(error: string)        // `error` is set in the returned record
    | TranscribeThrew(message: string)

  /** The outcome of `manage.getUsage(id, ...)` or `manage.getBalances(id)`. */
  datatype FetchOutcome = Fetched(payload: Json) | FetchThrew(message: string)

  datatype ConnectionDetails = NoDetails | ProjectsDetails(projects: Json) | ErrorDetails(error: string, duration: int)

  datatype ConnectionReport = ConnectionReport(success: bool, message: string, details: ConnectionDetails)

  /** `{ success: true, duration, result, metadata }`. */
  datatype TranscriptionReport = TranscriptionReport(duration: int, result: Json, model: Option<string>,
                                                     channels: int, durationSeconds: real, words: int)

  /** `{ success: true, duration, usage }` or `{ success: true, duration, balances }`. */
  datatype ProjectReport = ProjectReport(duration: int, payload: Json)

  const NotInitialized := "Deepgram client not initialized"

  /** The `DeepgramDebugger` object. `clientKey` is the API key the current client was created
      with; None stands for `client === null`. */
  class Debugger {
    var clientKey: Option<string>
    var logs: seq<DebugLog>

    ghost predicate Valid()
      reads this
    {
      |logs| <= MaxLogs
    }

    /** `new DeepgramDebugger()` with `DEEPGRAM_API_KEY` set to `envApiKey`. */
    constructor (envApiKey: Option<string>)
      ensures Valid() && logs == []
      ensures clientKey == if TruthyString(envApiKey) then envApiKey else None
    {
      logs := [];
      clientKey := if TruthyString(envApiKey) then envApiKey else None;
    }

    /** `initializeClient`: a client is created only when a key is set; otherwise the current
        client is kept. */
    method InitializeClient(apiKey: Option<string>)
      modifies this
      ensures logs == old(logs)
      ensures clientKey == if TruthyString(apiKey) then apiKey else old(clientKey)
    {
      if TruthyString(apiKey) {
        clientKey := apiKey;
      }
    }

    method AddLog(log: DebugLog)
      requires Valid()
      modifies this
      ensures Valid()
      ensures logs == Appended(old(logs), log) && clientKey == old(clientKey)
    {
      logs := logs + [log];
      if |logs| > MaxLogs {
        logs := logs[1..];
      }
    }

    /** `getLogs(limit)`: reads the log and changes nothing. */
    function GetLogs(limit: Option<int>): (r: seq<DebugLog>)
      reads this
      ensures !TruthyNumber(limit) ==> r == logs
      ensures TruthyNumber(limit) && limit.value > 0 ==>
                |r| == Min(limit.value, |logs|) && r == logs[|logs| - |r|..]
    {
      LogsFor(logs, limit)
    }

    method ClearLogs()
      modifies this
      ensures logs == [] && clientKey == old(clientKey)
    {
      logs := [];
    }

    /** `testConnection`: without a client it fails at once and logs nothing; otherwise it logs
        exactly one entry, a response or an error. */
    method TestConnection(projects: ProjectsOutcome, timestamp: string, duration: int) returns (r: ConnectionReport)
      requires Valid()
      modifies this
      ensures Valid() && clientKey == old(clientKey)
      ensures old(clientKey).None? ==>
                r == ConnectionReport(false, NotInitialized + ". Please set DEEPGRAM_API_KEY environment variable.", NoDetails)
                && logs == old(logs)
      ensures old(clientKey).Some? ==> r.success == !projects.ProjectsThrew?
      ensures old(clientKey).Some? && !projects.ProjectsThrew? ==>
                r.message == "Successfully connected to Deepgram API (" + IntToString(duration) + "ms)" &&
                r.details == ProjectsDetails(projects.payload)
      ensures old(clientKey).Some? && projects.ProjectsThrew? ==>
                r.message == "Failed to connect to Deepgram API: " + projects.message &&
                r.details == ErrorDetails(projects.message, duration)
      ensures old(clientKey).Some? && !projects.ProjectsThrew? ==>
                logs == Appended(old(logs), DebugLog(timestamp, ResponseLog, Some("manage.getProjects"),
                                                     Payload(projects.payload), Some(duration)))
      ensures old(clientKey).Some? && projects.ProjectsThrew? ==>
                logs == Appended(old(logs), DebugLog(timestamp, ErrorLog, Some("manage.getProjects"),
                                                     ErrorMessage(projects.message), Some(duration)))
    {
      if clientKey.None? {
        return ConnectionReport(false, NotInitialized + ". Please set DEEPGRAM_API_KEY environment variable.", NoDetails);
      }
      var endpoint := Some("manage.getProjects");
      match projects
      case ProjectsThrew(message) =>
        AddLog(DebugLog(timestamp, ErrorLog, endpoint, ErrorMessage(message), Some(duration)));
        r := ConnectionReport(false, "Failed to connect to Deepgram API: " + message, ErrorDetails(message, duration));
      case _ =>
        AddLog(DebugLog(timestamp, ResponseLog, endpoint, Payload(projects.payload), Some(duration)));
        r := ConnectionReport(true, "Successfully connected to Deepgram API (" + IntToString(duration) + "ms)",
                              ProjectsDetails(projects.payload));
    }

    /** `testTranscription(audioUrl, options)`: a request entry, then a response entry on
        success; on a returned API error two error entries (the error record before it is
        rethrown, its message in the `catch`); on a thrown error one. */
    method TestTranscription(audioUrl: string, options: Option<TranscriptionOptions>,
                             transcribe: (string, TranscriptionOptions) -> TranscribeOutcome,
                             timestamp: string, duration: int) returns (r: Result<TranscriptionReport>)
      requires Valid()
      modifies this
      ensures Valid() && clientKey == old(clientKey)
      ensures old(clientKey).None? ==> r == Err(NotInitialized) && logs == old(logs)
      ensures old(clientKey).Some? ==>
                var used := options.GetOr(DefaultOptions);
                var endpoint := Some("listen.prerecorded.transcribeUrl");
                var request := DebugLog(timestamp, RequestLog, endpoint, TranscribeRequest(audioUrl, used), None);
                match transcribe(audioUrl, used)
                case Transcribed(result, channels, seconds, words) =>
                  && logs == Appended(Appended(old(logs), request),
                                      DebugLog(timestamp, ResponseLog, endpoint, Payload(result), Some(duration)))
                  && r == Ok(TranscriptionReport(duration, result, used.model, channels.GetOr(0), seconds.GetOr(0.0), words.GetOr(0)))
                case ApiError(error) =>
                  var returned := DebugLog(timestamp, ErrorLog, endpoint, ErrorObject(error), Some(duration));
                  var caught := DebugLog(timestamp, ErrorLog, endpoint, ErrorMessage(error), Some(duration));
                  && logs == Appended(Appended(Appended(old(logs), request), returned), caught)
                  && r == Err("Transcription failed: " + error)
                case TranscribeThrew(message) =>
                  && logs == Appended(Appended(old(logs), request),
                                      DebugLog(timestamp, ErrorLog, endpoint, ErrorMessage(message), Some(duration)))
                  && r == Err("Transcription failed: " + message)
    {
      if clientKey.None? {
        return Err(NotInitialized);
      }
      var used := if options.Some? then options.value else DefaultOptions;
      var endpoint := Some("listen.prerecorded.transcribeUrl");
      var request := DebugLog(timestamp, RequestLog, endpoint, TranscribeRequest(audioUrl, used), None);
      AddLog(request);
      match transcribe(audioUrl, used)
      case Transcribed(result, channels, seconds, words) =>
        var response := DebugLog(timestamp, ResponseLog, endpoint, Payload(result), Some(duration));
        AddLog(response);
        r := Ok(TranscriptionReport(duration, result, used.model, channels.GetOr(0), seconds.GetOr(0.0), words.GetOr(0)));
      case ApiError(error) =>
        var returned := DebugLog(timestamp, ErrorLog, endpoint, ErrorObject(error), Some(duration));
        var caught := DebugLog(timestamp, ErrorLog, endpoint, ErrorMessage(error), Some(duration));
        AddLog(returned);
        AddLog(caught);
        r := Err("Transcription failed: " + error);
      case TranscribeThrew(message) =>
        var failure := DebugLog(timestamp, ErrorLog, endpoint, ErrorMessage(message), Some(duration));
        AddLog(failure);
        r := Err("Transcription failed: " + message);
    }

    /** The shared shape of `getUsage` and `getBalances`: list the projects, choose the given
        project id or else the first project's, fetch, and log one response or one error entry. */
    method FetchForProject(endpoint: string, failurePrefix: string, projectId: Option<string>,
                           projects: ProjectsOutcome, fetch: string -> FetchOutcome,
                           timestamp: string, duration: int) returns (r: Result<ProjectReport>)
      requires Valid()
      modifies this
      ensures Valid() && clientKey == old(clientKey)
      ensures old(clientKey).None? ==> r == Err(NotInitialized) && logs == old(logs)
      ensures old(clientKey).Some? ==>
                var target := TargetProject(projectId, projects);
                if target.Some? && fetch(target.value).Fetched? then
                  && r == Ok(ProjectReport(duration, fetch(target.value).payload))
                  && logs == Appended(old(logs), DebugLog(timestamp, ResponseLog, Some(endpoint),
                                                          Payload(fetch(target.value).payload), Some(duration)))
                else
                  var message := FetchFailure(projects, target, fetch);
                  && r == Err(failurePrefix + message)
                  && logs == Appended(old(logs), DebugLog(timestamp, ErrorLog, Some(endpoint),
                                                          ErrorMessage(message), Some(duration)))
    {
      if clientKey.None? {
        return Err(NotInitialized);
      }
      var target := TargetProject(projectId, projects);
      if target.Some? && fetch(target.value).Fetched? {
        var payload := fetch(target.value).payload;
        AddLog(DebugLog(timestamp, ResponseLog, Some(endpoint), Payload(payload), Some(duration)));
        r := Ok(ProjectReport(duration, payload));
      } else {
        var message := FetchFailure(projects, target, fetch);
        AddLog(DebugLog(timestamp, ErrorLog, Some(endpoint), ErrorMessage(message), Some(duration)));
        r := Err(failurePrefix + message);
      }
    }

    method GetUsage(projectId: Option<string>, projects: ProjectsOutcome, usage: string -> FetchOutcome,
                    timestamp: string, duration: int) returns (r: Result<ProjectReport>)
      requires Valid()
      modifies this
      ensures Valid() && clientKey == old(clientKey)
      ensures old(clientKey).None? ==> r == Err(NotInitialized) && logs == old(logs)
      ensures old(clientKey).Some? ==>
                var target := TargetProject(projectId, projects);
                if target.Some? && usage(target.value).Fetched? then
                  && r == Ok(ProjectReport(duration, usage(target.value).payload))
                  && logs == Appended(old(logs), DebugLog(timestamp, ResponseLog, Some("manage.getUsage"),
                                                          Payload(usage(target.value).payload), Some(duration)))
                else
                  var message := FetchFailure(projects, target, usage);
                  && r == Err("Failed to get usage: " + message)
                  && logs == Appended(old(logs), DebugLog(timestamp, ErrorLog, Some("manage.getUsage"),
                                                          ErrorMessage(message), Some(duration)))
    {
      r := FetchForProject("manage.getUsage", "Failed to get usage: ", projectId, projects, usage, timestamp, duration);
    }

    method GetBalances(projectId: Option<string>, projects: ProjectsOutcome, balances: string -> FetchOutcome,
                       timestamp: string, duration: int) returns (r: Result<ProjectReport>)
      requires Valid()
      modifies this
      ensures Valid() && clientKey == old(clientKey)
      ensures old(clientKey).None? ==> r == Err(NotInitialized) && logs == old(logs)
      ensures old(clientKey).Some? ==>
                var target := TargetProject(projectId, projects);
                if target.Some? && balances(target.value).Fetched? then
                  && r == Ok(ProjectReport(duration, balances(target.value).payload))
                  && logs == Appended(old(logs), DebugLog(timestamp, ResponseLog, Some("manage.getBalances"),
                                                          Payload(balances(target.value).payload), Some(duration)))
                else
                  var message := FetchFailure(projects, target, balances);
                  && r == Err("Failed to get balances: " + message)
                  && logs == Appended(old(logs), DebugLog(timestamp, ErrorLog, Some("manage.getBalances"),
                                                          ErrorMessage(message), Some(duration)))
    {
      r := FetchForProject("manage.getBalances", "Failed to get balances: ", projectId, projects, balances,
                           timestamp, duration);
    }
  }

  /** `projectId || projects[0]?.project_id`, when the project list was obtained. */
  function TargetProject(projectId: Option<string>, projects: ProjectsOutcome): (r: Option<string>)
    ensures r.Some? ==> r.value != "" && projects.ProjectsListed?
    ensures projects.ProjectsListed? && TruthyString(projectId) ==> r == projectId
    ensures projects.ProjectsListed? && !TruthyString(projectId) ==>
              r == if TruthyString(projects.firstProjectId) then projects.firstProjectId else None
  {
    match projects
    case ProjectsListed(_, first) =>
      if TruthyString(projectId) then projectId
      else if TruthyString(first) then first
      else None
    case _ => None
  }

  /** The message of the error thrown when no report can be produced, as the catch renders it:
      the script's own `new Error(…)` through `String(error)`, so with an "Error: " prefix, and
      an error from the speech service by its message. */
  function FetchFailure(projects: ProjectsOutcome, target: Option<string>, fetch: string -> FetchOutcome): string {
    match projects
    case ProjectsThrew(message) => message
    case ProjectsWithoutList(_) => "Error: Failed to get projects"
    case ProjectsListed(_, _) =>
      if target.None? then "Error: No project ID available"
      else if fetch(target.value).FetchThrew? then fetch(target.value).message
      else ""
  }

  /** The two errors `getUsage` and `getBalances` throw themselves are not `DeepgramError`s, so
      they are logged and rethrown as `String(error)` renders an `Error`; a failing service
      call is reported by its own message. */
  lemma LocalErrorsAreRendered(projectId: Option<string>, projects: ProjectsOutcome, fetch: string -> FetchOutcome)
    ensures projects.ProjectsWithoutList? ==>
              FetchFailure(projects, TargetProject(projectId, projects), fetch) == "Error: Failed to get projects"
    ensures projects.ProjectsListed? && !TruthyString(projectId) && !TruthyString(projects.firstProjectId) ==>
              FetchFailure(projects, TargetProject(projectId, projects), fetch) == "Error: No project ID available"
    ensures projects.ProjectsThrew? ==>
              FetchFailure(projects, TargetProject(projectId, projects), fetch) == projects.message
    ensures var target := TargetProject(projectId, projects);
            target.Some? && fetch(target.value).FetchThrew? ==>
              FetchFailure(projects, target, fetch) == fetch(target.value).message
  {
  }

  // ---------------------------------------------------------------------------------
  // The tool dispatcher

  /** The tool arguments the dispatcher reads (an absent `arguments` object has every field None). */
  datatype ToolArgs = ToolArgs(audioUrl: Option<string>, model: Option<string>, language: Option<string>,
                               smartFormat: Option<bool>, punctuate: Option<bool>, diarize: Option<bool>,
                               limit: Option<int>, projectId: Option<string>, apiKey: Option<string>)

  /** The `test_transcription` option object: `model` and `language` when truthy, the three
      flags whenever they are given (also when false). */
  function BuildOptions(args: ToolArgs): (o: TranscriptionOptions)
    ensures o.model.Some? <==> TruthyString(args.model)
    ensures o.language.Some? <==> TruthyString(args.language)
    ensures o.model.Some? ==> o.model == args.model
    ensures o.language.Some? ==> o.language == args.language
    ensures o.smartFormat == args.smartFormat && o.punctuate == args.punctuate && o.diarize == args.diarize
  {
    TranscriptionOptions(if TruthyString(args.model) then args.model else None,
                         if TruthyString(args.language) then args.language else None,
                         args.smartFormat, args.punctuate, args.diarize)
  }

  /** What `testTranscription` is handed: the built options when at least one key is set,
      otherwise undefined. */
  function OptionsArgument(args: ToolArgs): (r: Option<TranscriptionOptions>)
    ensures r.Some? <==> BuildOptions(args) != NoOptions
    ensures r.Some? ==> r.value == BuildOptions(args)
  {
    var options := BuildOptions(args);
    if options != NoOptions then Some(options) else None
  }

  /** No option argument is set: `model` and `language` falsy, the three flags undefined. */
  predicate NothingGiven(args: ToolArgs) {
    !TruthyString(args.model) && !TruthyString(args.language) &&
    args.smartFormat.None? && args.punctuate.None? && args.diarize.None?
  }

  /** The options the transcription is requested with: only what was given, or the defaults
      `{ model: "nova-2", smart_format: true }` when nothing was. */
  lemma EffectiveOptions(args: ToolArgs)
    ensures NothingGiven(args) ==> OptionsArgument(args).GetOr(DefaultOptions) == DefaultOptions
    ensures !NothingGiven(args) ==> OptionsArgument(args).GetOr(DefaultOptions) == BuildOptions(args)
  {
  }

  /** `args?.audioUrl || "https://dpgr.am/spacewalk.wav"`. */
  function AudioUrlOf(args: ToolArgs): (url: string)
    ensures TruthyString(args.audioUrl) ==> url == args.audioUrl.value
    ensures !TruthyString(args.audioUrl) ==> url == SampleAudioUrl
  {
    OrString(args.audioUrl, SampleAudioUrl)
  }

  /** What a tool call answers. */
  datatype ToolReply =
    | ConnectionReply(connection: ConnectionReport)
    | TranscriptionReply(transcription: TranscriptionReport)
    | LogsReply(count: int, entries: seq<DebugLog>)
    | MessageReply(message: string)                // `{ success: true, message }`
    | ProjectReply(report: ProjectReport)
    | FailureReply(error: string)                  // `{ success: false, error }`

  datatype ToolOutcome = Replied(reply: ToolReply) | McpErrorThrown(code: string, message: string)

  /** The speech service's answers, and the clock, during one tool call. */
  datatype Backend = Backend(projects: ProjectsOutcome, transcribe: (string, TranscriptionOptions) -> TranscribeOutcome,
                             usage: string -> FetchOutcome, balances: string -> FetchOutcome,
                             timestamp: string, duration: int)

  function FromResult<R>(r: Result<R>, reply: R -> ToolReply): ToolReply {
    match r
    case Ok(v) => reply(v)
    case Err(message) => FailureReply(message)
  }

  /** The `test_connection` case. */
  method ConnectionTool(dbg: Debugger, backend: Backend) returns (r: ToolOutcome)
    requires dbg.Valid()
    modifies dbg
    ensures dbg.Valid()
    ensures dbg.clientKey == old(dbg.clientKey) && r.Replied? && r.reply.ConnectionReply?
    ensures old(dbg.clientKey).None? ==>
              r == Replied(ConnectionReply(ConnectionReport(false, NotInitialized + ". Please set DEEPGRAM_API_KEY environment variable.",
                                                            NoDetails)))
              && dbg.logs == old(dbg.logs)
    ensures old(dbg.clientKey).Some? ==>
              var projects := backend.projects;
              var report := r.reply.connection;
              var endpoint := Some("manage.getProjects");
              if projects.ProjectsThrew? then
                && report == ConnectionReport(false, "Failed to connect to Deepgram API: " + projects.message,
                                              ErrorDetails(projects.message, backend.duration))
                && dbg.logs == Appended(old(dbg.logs), DebugLog(backend.timestamp, ErrorLog, endpoint,
                                                                ErrorMessage(projects.message), Some(backend.duration)))
              else
                && report == ConnectionReport(true, "Successfully connected to Deepgram API (" + IntToString(backend.duration) + "ms)",
                                              ProjectsDetails(projects.payload))
                && dbg.logs == Appended(old(dbg.logs), DebugLog(backend.timestamp, ResponseLog, endpoint,
                                                                Payload(projects.payload), Some(backend.duration)))
  {
    var report := dbg.TestConnection(backend.projects, backend.timestamp, backend.duration);
    r := Replied(ConnectionReply(report));
  }

  /** The `test_transcription` case. */
  method TranscriptionTool(dbg: Debugger, args: ToolArgs, backend: Backend) returns (r: ToolOutcome)
    requires dbg.Valid()
    modifies dbg
    ensures dbg.Valid()
    ensures old(dbg.clientKey).Some? ==>
              var used := OptionsArgument(args).GetOr(DefaultOptions);
              var endpoint := Some("listen.prerecorded.transcribeUrl");
              var request := DebugLog(backend.timestamp, RequestLog, endpoint, TranscribeRequest(AudioUrlOf(args), used), None);
              dbg.clientKey == old(dbg.clientKey) &&
              match backend.transcribe(AudioUrlOf(args), used)
              case Transcribed(result, channels, seconds, words) =>
                && r == Replied(TranscriptionReply(TranscriptionReport(backend.duration, result, used.model,
                                                                       channels.GetOr(0), seconds.GetOr(0.0), words.GetOr(0))))
                && dbg.logs == Appended(Appended(old(dbg.logs), request),
                                        DebugLog(backend.timestamp, ResponseLog, endpoint, Payload(result), Some(backend.duration)))
              case ApiError(error) =>
                && r == Replied(FailureReply("Transcription failed: " + error))
                && dbg.logs == Appended(Appended(Appended(old(dbg.logs), request),
                                                 DebugLog(backend.timestamp, ErrorLog, endpoint, ErrorObject(error), Some(backend.duration))),
                                        DebugLog(backend.timestamp, ErrorLog, endpoint, ErrorMessage(error), Some(backend.duration)))
              case TranscribeThrew(message) =>
                && r == Replied(FailureReply("Transcription failed: " + message))
                && dbg.logs == Appended(Appended(old(dbg.logs), request),
                                        DebugLog(backend.timestamp, ErrorLog, endpoint, ErrorMessage(message), Some(backend.duration)))
    ensures old(dbg.clientKey).None? ==>
              r == Replied(FailureReply(NotInitialized)) && dbg.logs == old(dbg.logs)
  {
    var result := dbg.TestTranscription(AudioUrlOf(args), OptionsArgument(args), backend.transcribe,
                                        backend.timestamp, backend.duration);
    r := Replied(FromResult(result, t => TranscriptionReply(t)));
  }

  /** The service call behind `get_usage` when `usage` holds, behind `get_balances` otherwise. */
  function ProjectFetch(usage: bool, backend: Backend): string -> FetchOutcome {
    if usage then backend.usage else backend.balances
  }

  /** The `get_usage` case when `usage` holds, the `get_balances` case otherwise. */
  method ProjectTool(dbg: Debugger, usage: bool, args: ToolArgs, backend: Backend) returns (r: ToolOutcome)
    requires dbg.Valid()
    modifies dbg
    ensures dbg.Valid()
    ensures dbg.clientKey == old(dbg.clientKey)
    ensures old(dbg.clientKey).None? ==>
              r == Replied(FailureReply(NotInitialized)) && dbg.logs == old(dbg.logs)
    ensures old(dbg.clientKey).Some? ==>
              var fetch := ProjectFetch(usage, backend);
              var endpoint := Some(if usage then "manage.getUsage" else "manage.getBalances");
              var target := TargetProject(args.projectId, backend.projects);
              if target.Some? && fetch(target.value).Fetched? then
                && r == Replied(ProjectReply(ProjectReport(backend.duration, fetch(target.value).payload)))
                && dbg.logs == Appended(old(dbg.logs), DebugLog(backend.timestamp, ResponseLog, endpoint,
                                                                Payload(fetch(target.value).payload), Some(backend.duration)))
              else
                var message := FetchFailure(backend.projects, target, fetch);
                && r == Replied(FailureReply((if usage then "Failed to get usage: " else "Failed to get balances: ") + message))
                && dbg.logs == Appended(old(dbg.logs), DebugLog(backend.timestamp, ErrorLog, endpoint,
                                                                ErrorMessage(message), Some(backend.duration)))
  {
    var fetch := ProjectFetch(usage, backend);
    assert dbg.clientKey == old(dbg.clientKey);
    var result;
    if usage {
      assert fetch == backend.usage;
      result := dbg.GetUsage(args.projectId, backend.projects, fetch, backend.timestamp, backend.duration);
    } else {
      assert fetch == backend.balances;
      result := dbg.GetBalances(args.projectId, backend.projects, fetch, backend.timestamp, backend.duration);
    }
    match result {
      case Ok(report) => r := Replied(ProjectReply(report));
      case Err(message) => r := Replied(FailureReply(message));
    }
  }

  /** The `CallToolRequestSchema` handler. Thrown errors become `{ success: false, error }`,
      except the one for an unknown tool, which propagates. */
  method CallTool(dbg: Debugger, name: string, args: ToolArgs, backend: Backend) returns (r: ToolOutcome)
    requires dbg.Valid()
    modifies dbg
    ensures dbg.Valid()
    ensures r.McpErrorThrown? <==>
              name !in {"test_connection", "test_transcription", "get_debug_logs", "clear_debug_logs",
                        "get_usage", "get_balances", "set_api_key"}
    ensures r.McpErrorThrown? ==>
              r == McpErrorThrown("InvalidRequest", "Tool not found: " + name) && dbg.logs == old(dbg.logs)
              && dbg.clientKey == old(dbg.clientKey)
    ensures name == "get_debug_logs" ==>
              r == Replied(LogsReply(|LogsFor(old(dbg.logs), args.limit)|, LogsFor(old(dbg.logs), args.limit)))
              && dbg.logs == old(dbg.logs) && dbg.clientKey == old(dbg.clientKey)
    ensures name == "clear_debug_logs" ==>
              r == Replied(MessageReply("Debug logs cleared")) && dbg.logs == [] && dbg.clientKey == old(dbg.clientKey)
    ensures name == "set_api_key" && !TruthyString(args.apiKey) ==>
              r == Replied(FailureReply("API key is required"))
              && dbg.logs == old(dbg.logs) && dbg.clientKey == old(dbg.clientKey)
    ensures name == "set_api_key" && TruthyString(args.apiKey) ==>
              r == Replied(MessageReply("API key updated successfully"))
              && dbg.logs == old(dbg.logs) && dbg.clientKey == args.apiKey
    ensures name == "test_connection" ==>
              dbg.clientKey == old(dbg.clientKey) && r.Replied? && r.reply.ConnectionReply?
    ensures name == "test_connection" && old(dbg.clientKey).None? ==>
              r == Replied(ConnectionReply(ConnectionReport(false, NotInitialized + ". Please set DEEPGRAM_API_KEY environment variable.",
                                                            NoDetails)))
              && dbg.logs == old(dbg.logs)
    ensures name == "test_connection" && old(dbg.clientKey).Some? ==>
              var projects := backend.projects;
              var report := r.reply.connection;
              var endpoint := Some("manage.getProjects");
              if projects.ProjectsThrew? then
                && report == ConnectionReport(false, "Failed to connect to Deepgram API: " + projects.message,
                                              ErrorDetails(projects.message, backend.duration))
                && dbg.logs == Appended(old(dbg.logs), DebugLog(backend.timestamp, ErrorLog, endpoint,
                                                                ErrorMessage(projects.message), Some(backend.duration)))
              else
                && report == ConnectionReport(true, "Successfully connected to Deepgram API (" + IntToString(backend.duration) + "ms)",
                                              ProjectsDetails(projects.payload))
                && dbg.logs == Appended(old(dbg.logs), DebugLog(backend.timestamp, ResponseLog, endpoint,
                                                                Payload(projects.payload), Some(backend.duration)))
    ensures name == "test_transcription" && old(dbg.clientKey).Some? ==>
              var used := OptionsArgument(args).GetOr(DefaultOptions);
              var endpoint := Some("listen.prerecorded.transcribeUrl");
              var request := DebugLog(backend.timestamp, RequestLog, endpoint, TranscribeRequest(AudioUrlOf(args), used), None);
              dbg.clientKey == old(dbg.clientKey) &&
              match backend.transcribe(AudioUrlOf(args), used)
              case Transcribed(result, channels, seconds, words) =>
                && r == Replied(TranscriptionReply(TranscriptionReport(backend.duration, result, used.model,
                                                                       channels.GetOr(0), seconds.GetOr(0.0), words.GetOr(0))))
                && dbg.logs == Appended(Appended(old(dbg.logs), request),
                                        DebugLog(backend.timestamp, ResponseLog, endpoint, Payload(result), Some(backend.duration)))
              case ApiError(error) =>
                && r == Replied(FailureReply("Transcription failed: " + error))
                && dbg.logs == Appended(Appended(Appended(old(dbg.logs), request),
                                                 DebugLog(backend.timestamp, ErrorLog, endpoint, ErrorObject(error), Some(backend.duration))),
                                        DebugLog(backend.timestamp, ErrorLog, endpoint, ErrorMessage(error), Some(backend.duration)))
              case TranscribeThrew(message) =>
                && r == Replied(FailureReply("Transcription failed: " + message))
                && dbg.logs == Appended(Appended(old(dbg.logs), request),
                                        DebugLog(backend.timestamp, ErrorLog, endpoint, ErrorMessage(message), Some(backend.duration)))
    ensures name == "test_transcription" && old(dbg.clientKey).None? ==>
              r == Replied(FailureReply(NotInitialized)) && dbg.logs == old(dbg.logs)
    // get_usage and get_balances: the report, or the prefixed failure, and the one entry logged
    ensures (name == "get_usage" || name == "get_balances") ==> dbg.clientKey == old(dbg.clientKey)
    ensures (name == "get_usage" || name == "get_balances") && old(dbg.clientKey).None? ==>
              r == Replied(FailureReply(NotInitialized)) && dbg.logs == old(dbg.logs)
    ensures (name == "get_usage" || name == "get_balances") && old(dbg.clientKey).Some? ==>
              var usage := name == "get_usage";
              var fetch := ProjectFetch(usage, backend);
              var endpoint := Some(if usage then "manage.getUsage" else "manage.getBalances");
              var target := TargetProject(args.projectId, backend.projects);
              if target.Some? && fetch(target.value).Fetched? then
                && r == Replied(ProjectReply(ProjectReport(backend.duration, fetch(target.value).payload)))
                && dbg.logs == Appended(old(dbg.logs), DebugLog(backend.timestamp, ResponseLog, endpoint,
                                                                Payload(fetch(target.value).payload), Some(backend.duration)))
              else
                var message := FetchFailure(backend.projects, target, fetch);
                && r == Replied(FailureReply((if usage then "Failed to get usage: " else "Failed to get balances: ") + message))
                && dbg.logs == Appended(old(dbg.logs), DebugLog(backend.timestamp, ErrorLog, endpoint,
                                                                ErrorMessage(message), Some(backend.duration)))
  {
    if name == "test_connection" {
      r := ConnectionTool(dbg, backend);
    } else if name == "test_transcription" {
      r := TranscriptionTool(dbg, args, backend);
    } else if name == "get_debug_logs" {
      var logs := dbg.GetLogs(args.limit);
      r := Replied(LogsReply(|logs|, logs));
    } else if name == "clear_debug_logs" {
      dbg.ClearLogs();
      r := Replied(MessageReply("Debug logs cleared"));
    } else if name == "get_usage" || name == "get_balances" {
      r := ProjectTool(dbg, name == "get_usage", args, backend);
    } else if name == "set_api_key" {
      if !TruthyString(args.apiKey) {
        r := Replied(FailureReply("API key is required"));
      } else {
        dbg.InitializeClient(args.apiKey);
        r := Replied(MessageReply("API key updated successfully"));
      }
    } else {
      r := McpErrorThrown("InvalidRequest", "Tool not found: " + name);
    }
  }
}
