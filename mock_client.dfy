/**
 * `MockOpenAIClient.Chat.Completions.create` and the response objects it builds
 * (`MockOpenAIResponse`, `MockChoice`, `MockMessage`).
 *
 * `create` joins the content of the user-role messages and answers with one of
 * four fixed suggestion texts, chosen by keyword rules tried in a fixed order.
 */
module MockClient {
  import opened Wrappers
  import opened Text

  /** One entry of the `messages` list: a dictionary with a `role` and a `content`. */
  datatype Message = Message(role: string, content: string)

  datatype MockMessage = MockMessage(content: string)
  datatype MockChoice = MockChoice(message: MockMessage)
  datatype MockOpenAIResponse = MockOpenAIResponse(choices: seq<MockChoice>)

  /**
   * What a call of the completion endpoint gives back to its caller: a response
   * object, or an exception, kept as its text `str(e)`.
   */
  datatype Completion = Returned(response: MockOpenAIResponse) | Raised(error: string)

  /** `MockOpenAIResponse(content)`: a response whose only choice carries `content`. */
  function NewResponse(content: string): (r: MockOpenAIResponse)
    ensures |r.choices| == 1
    ensures FirstContent(r) == Some(content)
  {
    MockOpenAIResponse([MockChoice(MockMessage(content))])
  }

  /**
   * `response.choices[0].message.content`; None where Python raises an
   * `IndexError` because there is no first choice.
   */
  function FirstContent(response: MockOpenAIResponse): Option<string>
  {
    if |response.choices| == 0 then None else Some(response.choices[0].message.content)
  }

  // ---------------------------------------------------------------------------
  // The text `create` analyses
  // ---------------------------------------------------------------------------

  /** The contents of the messages whose role is exactly "user", joined in order. */
  function UserText(messages: seq<Message>): string
  {
    if messages == [] then ""
    else (if messages[0].role == "user" then messages[0].content else "") + UserText(messages[1..])
  }

  /** Joining is compatible with splitting the message list anywhere. */
  lemma {:induction false} UserTextAppend(a: seq<Message>, b: seq<Message>)
    ensures UserText(a + b) == UserText(a) + UserText(b)
  {
    if a == [] {
      assert a + b == b;
    } else {
      assert (a + b)[1..] == a[1..] + b;
      UserTextAppend(a[1..], b);
    }
  }

  /** A message whose role is not "user" contributes nothing, wherever it stands. */
  lemma NonUserMessageIgnored(before: seq<Message>, m: Message, after: seq<Message>)
    requires m.role != "user"
    ensures UserText(before + [m] + after) == UserText(before + after)
  {
    UserTextAppend(before + [m], after);
    UserTextAppend(before, [m]);
    UserTextAppend(before, after);
  }

  /** A list without user messages yields the empty text. */
  lemma {:induction false} NoUserMessagesNoText(messages: seq<Message>)
    requires forall k :: 0 <= k < |messages| ==> messages[k].role != "user"
    ensures UserText(messages) == ""
  {
    if messages != [] {
      NoUserMessagesNoText(messages[1..]);
    }
  }

  // ---------------------------------------------------------------------------
  // The keyword rules
  // ---------------------------------------------------------------------------

  /** Which of the four fixed answers `create` gives. */
  datatype Verdict = TerraformPlanError | InternalServerError | Timeout | NoIssue
  {
    /** The position of the verdict's rule in the order the rules are tried. */
    function Rank(): nat
    {
      match this
      case TerraformPlanError => 0
      case InternalServerError => 1
      case Timeout => 2
      case NoIssue => 3
    }
  }

  const TerraformAdvice := "Simulated OpenAI: Detected a Terraform plan error. Suggestion: Check your Terraform configuration for syntax errors or resource misconfigurations. Ensure all required variables are set and provider versions are compatible."
  const ServerErrorAdvice := "Simulated OpenAI: Detected 'Internal Server Error'. Suggestion: Review application logs on the affected server. Look for stack traces or specific error messages around the time of the failure."
  const TimeoutAdvice := "Simulated OpenAI: Detected a timeout. Suggestion: Investigate network connectivity between services. Check for resource exhaustion (CPU, memory, network bandwidth) on the involved systems."
  const GeneralAdvice := "Simulated OpenAI: Log analysis complete. No specific critical issues automatically detected by mock. General advice: Review logs manually for any warnings or errors."

  /** The suggestion text returned for each verdict. */
  function Advice(v: Verdict): string
  {
    match v
    case TerraformPlanError => TerraformAdvice
    case InternalServerError => ServerErrorAdvice
    case Timeout => TimeoutAdvice
    case NoIssue => GeneralAdvice
  }

  /** First rule: "terraform plan" and "error" both occur, ignoring case. */
  predicate TerraformRule(text: string)
  {
    Contains(Lower(text), "terraform plan") && Contains(Lower(text), "error")
  }

  /** Second rule: "500 Internal Server Error" occurs exactly as written. */
  predicate ServerErrorRule(text: string)
  {
    Contains(text, "500 Internal Server Error")
  }

  /** Third rule: "timeout" occurs, ignoring case. */
  predicate TimeoutRule(text: string)
  {
    Contains(Lower(text), "timeout")
  }

  /** The first rule that matches decides; with none, the general advice. */
  function Classify(text: string): Verdict
  {
    if TerraformRule(text) then TerraformPlanError
    else if ServerErrorRule(text) then InternalServerError
    else if TimeoutRule(text) then Timeout
    else NoIssue
  }

  /** The four suggestion texts are pairwise different, so the text tells the verdict. */
  lemma AdviceInjective(v: Verdict, w: Verdict)
    ensures Advice(v) == Advice(w) <==> v == w
  {
    if v != w {
      assert |Advice(v)| != |Advice(w)|;
    }
  }

  /** `create` always answers with exactly one of the four fixed texts. */
  lemma ClassifyTotal(text: string)
    ensures Advice(Classify(text)) in {TerraformAdvice, ServerErrorAdvice, TimeoutAdvice, GeneralAdvice}
  {
  }

  /**
   * A verdict is given exactly when its own rule matches and no earlier rule does;
   * the general advice exactly when no rule matches.
   */
  lemma ClassifyPriority(text: string)
    ensures Classify(text) == TerraformPlanError <==> TerraformRule(text)
    ensures Classify(text) == InternalServerError <==> !TerraformRule(text) && ServerErrorRule(text)
    ensures Classify(text) == Timeout <==> !TerraformRule(text) && !ServerErrorRule(text) && TimeoutRule(text)
    ensures Classify(text) == NoIssue <==> !TerraformRule(text) && !ServerErrorRule(text) && !TimeoutRule(text)
  {
  }

  /**
   * "500 Internal Server Error" already contains "Error", so a log holding it and
   * "terraform plan" (in any case) gets the Terraform answer, not the server-error one.
   */
  lemma ServerErrorSatisfiesErrorKeyword(text: string)
    requires ServerErrorRule(text)
    ensures Contains(Lower(text), "error")
  {
    assert OccursAt("500 Internal Server Error", "Error", 20);
    ContainsTransitive(text, "500 Internal Server Error", "Error");
    ContainsLower(text, "Error");
    assert Lower("Error") == "error" by {
      LowerAt("Error");
    }
  }

  lemma TerraformPlanBeatsServerError(text: string)
    requires ServerErrorRule(text) && Contains(Lower(text), "terraform plan")
    ensures Classify(text) == TerraformPlanError
  {
    ServerErrorSatisfiesErrorKeyword(text);
  }

  /**
   * Adding text before or after a log can only move its verdict to an earlier rule,
   * never to a later one: every rule, once matched, stays matched.
   */
  lemma ClassifyMonotone(before: string, text: string, after: string)
    ensures TerraformRule(text) ==> TerraformRule(before + text + after)
    ensures ServerErrorRule(text) ==> ServerErrorRule(before + text + after)
    ensures TimeoutRule(text) ==> TimeoutRule(before + text + after)
    ensures Classify(before + text + after).Rank() <= Classify(text).Rank()
  {
    LowerAppend(before + text, after);
    LowerAppend(before, text);
    if TerraformRule(text) {
      ContainsExtended(Lower(text), "terraform plan", Lower(before), Lower(after));
      ContainsExtended(Lower(text), "error", Lower(before), Lower(after));
    }
    if ServerErrorRule(text) {
      ContainsExtended(text, "500 Internal Server Error", before, after);
    }
    if TimeoutRule(text) {
      ContainsExtended(Lower(text), "timeout", Lower(before), Lower(after));
    }
  }

  /**
   * Only the server-error rule is case-sensitive: lower-casing a log never yields the
   * server-error answer, and leaves every other answer as it was.
   */
  lemma LowerCaseLogLosesOnlyServerError(text: string)
    ensures Classify(Lower(text)) != InternalServerError
    ensures Classify(text) != InternalServerError ==> Classify(Lower(text)) == Classify(text)
    ensures ServerErrorRule(text) && !TerraformRule(text) ==>
              Classify(Lower(text)) == (if TimeoutRule(text) then Timeout else NoIssue)
  {
    LowerIdempotent(text);
    CapitalNeverInLower(text, "500 Internal Server Error", 4);
  }

  // ---------------------------------------------------------------------------
  // The completion call
  // ---------------------------------------------------------------------------

  /**
   * What a call of `create` gives its caller, as a value: it never raises, and its
   * answer ignores the model name. This is the specification of the method `Create`
   * and the endpoint the analyzer is run with.
   */
  function MockCreate(model: string, messages: seq<Message>): Completion
  {
    Returned(NewResponse(Advice(Classify(UserText(messages)))))
  }

  /**
   * `create(model, messages)`: accumulates the user contents in a loop, then
   * answers by the keyword rules.
   */
  method Create(model: string, messages: seq<Message>) returns (response: MockOpenAIResponse)
    ensures Returned(response) == MockCreate(model, messages)
    ensures FirstContent(response) == Some(Advice(Classify(UserText(messages))))
  {
    var logContent := "";
    for i := 0 to |messages|
      invariant logContent == UserText(messages[..i])
    {
      if messages[i].role == "user" {
        logContent := logContent + messages[i].content;
      }
      assert messages[..i + 1] == messages[..i] + [messages[i]];
      UserTextAppend(messages[..i], [messages[i]]);
    }
    assert messages[..|messages|] == messages;
    response := NewResponse(Advice(Classify(logContent)));
  }

  /** More user messages can only move the mock's answer to an earlier rule. */
  lemma MoreMessagesNeverLowerPriority(messages: seq<Message>, extra: seq<Message>)
    ensures Classify(UserText(messages + extra)).Rank() <= Classify(UserText(messages)).Rank()
  {
    UserTextAppend(messages, extra);
    ClassifyMonotone("", UserText(messages), UserText(extra));
    assert "" + UserText(messages) + UserText(extra) == UserText(messages) + UserText(extra);
  }
}
