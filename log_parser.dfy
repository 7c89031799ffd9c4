/**
 * `analyze_logs_with_ai`, `parse_log_file` and `main` of the log analyzer script:
 * where the log comes from, the prompt sent to the completion endpoint, and how
 * its answer (or its failure) becomes the suggestion text.
 *
 * The endpoint is a parameter of type `Client`; `MockClient.MockCreate` is the one
 * the script uses. File reads are a parameter too (`readFile`), as are the
 * command-line arguments.
 */
module LogParser {
  import opened Wrappers
  import opened Text
  import opened MockClient

  const EmptyLogSuggestion := "No specific suggestions: Log content was empty."
  const ErrorPrefix := "Could not get AI suggestion due to an error: "
  /** `str(e)` of the `IndexError` raised by `choices[0]` on an empty list. */
  const IndexErrorText := "list index out of range"
  const SystemInstruction := "You are an expert DevOps assistant. Analyze the following logs and provide concise, actionable troubleshooting suggestions. Focus on common root causes for CI/CD failures, Terraform errors, and application deployment issues."
  const ModelId := "gpt-3.5-turbo"
  const PreviewLimit: nat := 500
  const PreviewEllipsis := "...\n"

  // ---------------------------------------------------------------------------
  // analyze_logs_with_ai
  // ---------------------------------------------------------------------------

  /** A completion endpoint: model name and message list in, response or exception out. */
  type Client = (string, seq<Message>) -> Completion

  /** The arguments of the `create` call. */
  datatype PromptRequest = PromptRequest(model: string, messages: seq<Message>)

  /**
   * One run of the analyzer: the preview it prints (if it gets that far), the
   * request it sends (None when the endpoint is never called), and the suggestion.
   */
  datatype Analysis = Analysis(preview: Option<string>, request: Option<PromptRequest>, suggestion: string)

  /** The log as the analyzer echoes it: at most 500 characters, marked when cut. */
  function Preview(log: string): (p: string)
    ensures |p| <= PreviewLimit + |PreviewEllipsis|
    ensures |log| <= PreviewLimit ==> p == log
    ensures |log| > PreviewLimit ==>
      |p| == PreviewLimit + |PreviewEllipsis| && p[..PreviewLimit] == log[..PreviewLimit] && p[PreviewLimit..] == PreviewEllipsis
  {
    if |log| > PreviewLimit then log[..PreviewLimit] + PreviewEllipsis else log
  }

  /** Previewing a preview changes nothing. */
  lemma PreviewIdempotent(log: string)
    ensures Preview(Preview(log)) == Preview(log)
  {
    if |log| > PreviewLimit {
      var p := Preview(log);
      assert p[..PreviewLimit] == log[..PreviewLimit];
    }
  }

  /** The fixed system instruction followed by the log, verbatim, as the user message. */
  function BuildPrompt(log: string): (p: PromptRequest)
    ensures p.model == ModelId
    ensures |p.messages| == 2 && p.messages[0] == Message("system", SystemInstruction)
    ensures p.messages[1] == Message("user", log)
    ensures UserText(p.messages) == log
  {
    var messages := [Message("system", SystemInstruction), Message("user", log)];
    assert messages[1..][1..] == [];
    assert UserText(messages[1..]) == log + UserText([]);
    PromptRequest(ModelId, messages)
  }

  /**
   * `response.choices[0].message.content` inside the `try`; an exception raised by
   * the call, or the `IndexError` of a response without choices, becomes the
   * error message.
   */
  function SuggestionFrom(c: Completion): (s: string)
    ensures c.Raised? ==> s == ErrorPrefix + c.error
    ensures c.Returned? && c.response.choices != [] ==> s == c.response.choices[0].message.content
    ensures c.Returned? && c.response.choices == [] ==> s == ErrorPrefix + IndexErrorText
  {
    match c
    case Raised(e) => ErrorPrefix + e
    case Returned(response) =>
      match FirstContent(response)
      case Some(content) => content
      case None => ErrorPrefix + IndexErrorText
  }

  /** `analyze_logs_with_ai(log_content)`; the API key is ignored by the mock and left out. */
  function AnalyzeLogs(log: string, client: Client): (a: Analysis)
    ensures a.request.None? <==> log == ""
    ensures log == "" ==> a.suggestion == EmptyLogSuggestion && a.preview == None
    ensures log != "" ==> a.preview == Some(Preview(log)) && a.request == Some(BuildPrompt(log))
    ensures log != "" ==> a.suggestion == SuggestionFrom(client(ModelId, BuildPrompt(log).messages))
  {
    if log == "" then
      Analysis(None, None, EmptyLogSuggestion)
    else
      var prompt := BuildPrompt(log);
      Analysis(Some(Preview(log)), Some(prompt), SuggestionFrom(client(prompt.model, prompt.messages)))
  }

  /** On an empty log the endpoint plays no part: every client gives the same analysis. */
  lemma EmptyLogIgnoresClient(c1: Client, c2: Client)
    ensures AnalyzeLogs("", c1) == AnalyzeLogs("", c2) == Analysis(None, None, EmptyLogSuggestion)
  {
  }

  /** With the mock endpoint, the suggestion for a non-empty log is the keyword verdict on that log. */
  lemma MockSuggestionIsVerdict(log: string)
    requires log != ""
    ensures AnalyzeLogs(log, MockCreate).suggestion == Advice(Classify(log))
  {
    var p := BuildPrompt(log);
    assert MockCreate(ModelId, p.messages) == Returned(NewResponse(Advice(Classify(log))));
  }

  /** An exception from the endpoint is never fatal: its text follows the fixed prefix. */
  lemma RaisedErrorIsReported(log: string, client: Client)
    requires log != "" && client(ModelId, BuildPrompt(log).messages).Raised?
    ensures var s := AnalyzeLogs(log, client).suggestion;
      |s| >= |ErrorPrefix| && s[..|ErrorPrefix|] == ErrorPrefix &&
      s[|ErrorPrefix|..] == client(ModelId, BuildPrompt(log).messages).error
  {
  }

  // ---------------------------------------------------------------------------
  // parse_log_file
  // ---------------------------------------------------------------------------

  /** What opening and reading a file gives: its text, or one of the two failures. */
  datatype FileRead = FileContents(text: string) | NotFound | ReadFailed(cause: string)

  /** `parse_log_file`: the file's text, or "" on any failure. */
  function ParseLogFile(read: FileRead): (content: string)
    ensures read.FileContents? ==> content == read.text
    ensures content != "" ==> read == FileContents(content)
  {
    match read
    case FileContents(text) => text
    case NotFound => ""
    case ReadFailed(_) => ""
  }

  // ---------------------------------------------------------------------------
  // main
  // ---------------------------------------------------------------------------

  /** The `--log-file` and `--log-string` options; None when not given. */
  datatype Args = Args(logFile: Option<string>, logString: Option<string>)

  /** Python truthiness of an optional string: given and not empty. */
  predicate Given(arg: Option<string>)
  {
    arg.Some? && arg.value != ""
  }

  /** `json.dumps(simulated_errors, indent=2)` of the three built-in log records. */
  const SimulatedLog :=
    "[\n" +
    "  {\n" +
    "    \"timestamp\": \"2023-10-27T10:00:00Z\",\n" +
    "    \"level\": \"ERROR\",\n" +
    "    \"message\": \"Failed to connect to database\",\n" +
    "    \"service\": \"auth-service\"\n" +
    "  },\n" +
    "  {\n" +
    "    \"timestamp\": \"2023-10-27T10:00:05Z\",\n" +
    "    \"level\": \"ERROR\",\n" +
    "    \"message\": \"NullPointerException in UserServlet\",\n" +
    "    \"service\": \"user-service\"\n" +
    "  },\n" +
    "  {\n" +
    "    \"timestamp\": \"2023-10-27T10:01:00Z\",\n" +
    "    \"level\": \"WARN\",\n" +
    "    \"message\": \"High latency detected for payment-gateway\",\n" +
    "    \"service\": \"checkout-service\"\n" +
    "  }\n" +
    "]"

  /** The log `main` settles on: the file if named, else the string if given, else the built-in log. */
  function ResolveContent(args: Args, readFile: string -> FileRead): string
  {
    if Given(args.logFile) then ParseLogFile(readFile(args.logFile.value))
    else if Given(args.logString) then args.logString.value
    else SimulatedLog
  }

  /** A non-empty `--log-file` wins: `--log-string` is then never looked at. */
  lemma LogFileTakesPrecedence(args: Args, readFile: string -> FileRead, other: Option<string>)
    requires Given(args.logFile)
    ensures ResolveContent(args, readFile) == ParseLogFile(readFile(args.logFile.value))
    ensures ResolveContent(args.(logString := other), readFile) == ResolveContent(args, readFile)
  {
  }

  /** A named file that cannot be read leaves nothing to analyze, even when a log string is given. */
  lemma UnreadableFileDoesNotFallBack(args: Args, readFile: string -> FileRead)
    requires Given(args.logFile) && !readFile(args.logFile.value).FileContents?
    ensures ResolveContent(args, readFile) == ""
  {
  }

  /** Without a usable `--log-file`, a non-empty `--log-string` is analysed as it is. */
  lemma LogStringUsedVerbatim(args: Args, readFile: string -> FileRead)
    requires !Given(args.logFile) && Given(args.logString)
    ensures ResolveContent(args, readFile) == args.logString.value
  {
  }

  /** With neither option usable, the built-in log is analysed. */
  lemma SimulatedLogByDefault(args: Args, readFile: string -> FileRead)
    requires !Given(args.logFile) && !Given(args.logString)
    ensures ResolveContent(args, readFile) == SimulatedLog
  {
  }

  /**
   * The resolved log is empty exactly when a file was named and it could not be
   * read or was empty: the string and built-in routes always have content.
   */
  lemma EmptyContentOnlyFromFile(args: Args, readFile: string -> FileRead)
    ensures ResolveContent(args, readFile) == "" <==>
      Given(args.logFile) &&
      (readFile(args.logFile.value) == FileContents("") || !readFile(args.logFile.value).FileContents?)
  {
    assert |SimulatedLog| > 0;
  }

  /** What one run of the script ends with. */
  datatype RunOutcome = NothingToAnalyze | Suggested(analysis: Analysis)

  /**
   * `main`: picks the log by the options, stops early when it is empty, and
   * otherwise analyses it with the given endpoint.
   */
  method Run(args: Args, readFile: string -> FileRead, client: Client) returns (outcome: RunOutcome)
    ensures outcome.NothingToAnalyze? <==> ResolveContent(args, readFile) == ""
    ensures outcome.Suggested? ==> outcome.analysis == AnalyzeLogs(ResolveContent(args, readFile), client)
    ensures outcome.Suggested? ==> outcome.analysis.request.Some?
  {
    var logContentToAnalyze := "";
    if Given(args.logFile) {
      logContentToAnalyze := ParseLogFile(readFile(args.logFile.value));
    } else if Given(args.logString) {
      logContentToAnalyze := args.logString.value;
    } else {
      logContentToAnalyze := SimulatedLog;
    }
    if logContentToAnalyze == "" {
      return NothingToAnalyze;
    }
    var analysis := AnalyzeLogs(logContentToAnalyze, client);
    outcome := Suggested(analysis);
  }
}
