# Log analyzer: a Dafny model

This project models `scripts/log_parser.py`, the script of a CI troubleshooting bot.
The script reads a CI log, asks a completion endpoint for a suggestion, and returns that suggestion.
The endpoint it actually uses is a mock, `MockOpenAIClient`. The mock joins the user messages of the prompt.
It then answers with one of four fixed texts, picked by keyword rules tried in a fixed order.

Modules:

- `Wrappers` (`wrappers.dfy`): `Option`.
- `Text` (`text.dfy`): Python's `str.lower()` as `Lower` and Python's `needle in hay` as `Contains`. It also holds lemmas that connect the two (lower-casing distributes over `+`, commutes with slicing, is idempotent, and keeps substrings; `in` is transitive and survives concatenation).
- `MockClient` (`mock_client.dfy`): the response shape (`MockOpenAIResponse`, `MockChoice`, `MockMessage`), the joining of user contents (`UserText`, and the loop in `Create`), and the keyword rules (`Classify`, `Advice`).
- `LogParser` (`log_parser.dfy`): `analyze_logs_with_ai` as `AnalyzeLogs`, the line-77 preview as `Preview`, `parse_log_file` as `ParseLogFile`, and `main` as the method `Run` with its specification `ResolveContent`.

External things are parameters:

- The completion endpoint is a function value of type `Client`. It returns a response or an exception, kept as its text `str(e)`. `MockCreate` is the mock.
- The file system is `readFile: string -> FileRead`. A read gives the file's text, `NotFound`, or `ReadFailed(cause)`.
- The command line is `Args`, with two optional strings.

Whether `analyze_logs_with_ai` calls the endpoint is visible in the result: `Analysis.request` is `None` exactly when no call is made.

Behaviour of the script worth noting:

- Input selection: a non-empty `--log-file` wins over `--log-string`, and giving both is not an error. With neither, a built-in simulated log is used.
- Unreadable files: an unreadable file yields `""`, and `main` then returns without analysing anything.
- The log is sent to the endpoint in full; only the printed preview is cut at 500 characters. The answer's content is returned as it is, without trimming.
- Exceptions: an exception from the endpoint becomes the text `"Could not get AI suggestion due to an error: "` followed by `str(e)`.
- No choices: a response with no choices makes `choices[0]` raise `IndexError`. The same handler catches it, with the text `list index out of range`.

## Model

| member | source | states |
|---|---|---|
| `MockClient.Create` | scripts/log_parser.py:36-51 | The loop gathers exactly `UserText(messages)`, the in-order join of the user-role contents. The result is what `MockCreate` specifies: a response whose sole choice carries `Advice(Classify(...))` of that text, whatever the model name. |
| `MockClient.NewResponse` | scripts/log_parser.py:53-63 | A response built from a content has exactly one choice, and `choices[0].message.content` gives that content back. |
| `MockClient.UserTextAppend` | scripts/log_parser.py:39-42 | Joining user contents over `a + b` is the join over `a` followed by the join over `b`. The loop's accumulation depends on this. |
| `MockClient.NonUserMessageIgnored` | scripts/log_parser.py:40-42 | A message whose role is not `"user"` adds nothing to the analysed text, wherever it stands in the list. |
| `MockClient.NoUserMessagesNoText` | scripts/log_parser.py:39-42 | A list with no user message gives the empty analysed text. |
| `MockClient.AdviceInjective` | scripts/log_parser.py:44-51 | The four suggestion texts are pairwise distinct. From the text one can tell which rule fired. |
| `MockClient.ClassifyTotal` | scripts/log_parser.py:44-51 | Every text gets one of the four fixed suggestion texts. |
| `MockClient.ClassifyPriority` | scripts/log_parser.py:44-51 | Each verdict is given exactly when its own rule matches and no earlier rule does. The order is Terraform (case-insensitive "terraform plan" and "error"), then case-sensitive "500 Internal Server Error", then case-insensitive "timeout". The general advice is given exactly when no rule matches. |
| `MockClient.ServerErrorSatisfiesErrorKeyword` | scripts/log_parser.py:44-46 | A text holding "500 Internal Server Error" always satisfies the case-insensitive "error" test of the first rule. |
| `MockClient.TerraformPlanBeatsServerError` | scripts/log_parser.py:44-47 | A log holding both "500 Internal Server Error" and "terraform plan" (any case) gets the Terraform suggestion. |
| `MockClient.ClassifyMonotone` | scripts/log_parser.py:44-51 | Adding text before or after a log never moves its verdict to a later rule. Each of the three rules, once it matches, still matches the extended log. |
| `MockClient.LowerCaseLogLosesOnlyServerError` | scripts/log_parser.py:44-49 | Only the second rule is case-sensitive. A lower-cased log never gets the server-error suggestion, and otherwise keeps its verdict. A log that lost the server-error match falls through to the timeout rule or the general advice. |
| `MockClient.MoreMessagesNeverLowerPriority` | scripts/log_parser.py:39-51 | Appending messages to the prompt never moves the mock's verdict to a later rule. |
| `LogParser.Preview` | scripts/log_parser.py:77 | The preview is the whole log when it has at most 500 characters. Otherwise it is the first 500 characters followed by `"...\n"`. It never exceeds 504 characters. |
| `LogParser.PreviewIdempotent` | scripts/log_parser.py:77 | Previewing a preview gives the same preview. |
| `LogParser.BuildPrompt` | scripts/log_parser.py:85-92 | The request names model `gpt-3.5-turbo` and has exactly two messages. The first is the fixed system instruction. The second is a user message whose content is the log, unchanged. The user text an endpoint would gather from it is the log, verbatim. |
| `LogParser.SuggestionFrom` | scripts/log_parser.py:94-100 | A returned response yields `choices[0].message.content`. An exception yields the error prefix followed by its text. A response without choices yields the prefix followed by the `IndexError` text. |
| `LogParser.AnalyzeLogs` | scripts/log_parser.py:66-100 | An empty log gives exactly "No specific suggestions: Log content was empty." with no preview and no request. The request is absent exactly for the empty log. A non-empty log is previewed, sent as `BuildPrompt(log)`, and its suggestion is extracted from the endpoint's answer. |
| `LogParser.EmptyLogIgnoresClient` | scripts/log_parser.py:72-74 | On an empty log, every endpoint gives the same analysis. |
| `LogParser.MockSuggestionIsVerdict` | scripts/log_parser.py:85-97 | With the mock endpoint, the suggestion for a non-empty log equals the keyword verdict's text on the log itself. |
| `LogParser.RaisedErrorIsReported` | scripts/log_parser.py:98-100 | When the endpoint raises, the suggestion starts with the fixed error prefix, and the rest is the exception's text. |
| `LogParser.ParseLogFile` | scripts/log_parser.py:102-117 | A successful read gives the file's text. A non-empty result always comes from a successful read, so both failure kinds give `""`. |
| `LogParser.LogFileTakesPrecedence` | scripts/log_parser.py:128-130 | With a non-empty `--log-file`, the content is `parse_log_file` of it. Changing `--log-string` then changes nothing. |
| `LogParser.UnreadableFileDoesNotFallBack` | scripts/log_parser.py:107-130 | An unreadable named file leaves empty content. Neither the log string nor the built-in log is used instead. |
| `LogParser.LogStringUsedVerbatim` | scripts/log_parser.py:131-133 | Without a usable `--log-file`, a non-empty `--log-string` is the content, unchanged. |
| `LogParser.SimulatedLogByDefault` | scripts/log_parser.py:134-142 | With neither option usable, the built-in simulated log is the content. |
| `LogParser.EmptyContentOnlyFromFile` | scripts/log_parser.py:126-146 | The resolved content is empty exactly when a file was named and its read failed or gave an empty text. |
| `LogParser.Run` | scripts/log_parser.py:119-157 | `main` stops with nothing to analyze exactly when the resolved content is empty. Otherwise it runs the analysis on that content, and the endpoint is called. |

## Left out

- All console output (`print`) is left out, apart from the preview text. It is kept as `Analysis.preview` because the preview is a value worth stating.
- The API key and `os.getenv("OPENAI_API_KEY")` are left out. The mock ignores the key.
- `argparse` is left out, including its error exits for malformed command lines. The parsed options are the `Args` input.
- File opening and reading become the `readFile` parameter.
- The commented-out real OpenAI client and the PR-comment and Slack delivery sketches are left out. They are never executed.
- `Text.Lower`: lower-cases only `A`..`Z`, where Python's `str.lower()` lower-cases all of Unicode. The keyword tests use only the lower-case ASCII needles "terraform plan", "error" and "timeout". The only non-ASCII characters whose lower case contains ASCII letters are U+212A (to `k`) and U+0130 (to `i` plus a combining mark). Neither can complete one of these needles. This argument is not itself proved in Dafny.
- `LogParser.SimulatedLog` is written out as the text `json.dumps(..., indent=2)` produces for the three records. The lemmas use it only as a non-empty constant.
- `LogParser.SuggestionFrom`: models only exceptions raised by the endpoint call and by `choices[0]`. An exception raised while printing inside the `try` is not considered.
- `LogParser.ParseLogFile`: models only a failing `open` or `read`. The diagnostic `print` after a successful read could in principle raise, and the function would then return `""`; that case is not considered.
- `MockClient.Completion`: `Raised` stands for an exception that `except Exception` catches. A `BaseException` that is not an `Exception` (such as `KeyboardInterrupt`) escapes both `analyze_logs_with_ai` and `parse_log_file` and ends the script; the model does not represent it.
- `LogParser.Run`: the exit status is not modelled. `main` returns normally on both paths.
