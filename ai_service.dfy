/** The request gating, prompt assembly and reply normalisation shared by the
    five AI endpoints of the service (analyze-code, generate-tests,
    security-scan, chat, optimize-code), written as one gateway function over a
    per-task descriptor table. The completion provider and the JSON decoder are
    parameters of the gateway: the service cannot see inside either. */
module AiService {
  import opened JsonValue

  // ---------------------------------------------------------------------------
  // Tasks and their descriptors
  // ---------------------------------------------------------------------------

  datatype Task = Analyze | GenerateTests | SecurityScan | Chat | Optimize

  /** The fixed configuration of one endpoint: the body field it cannot do
      without and the message refusing a request that lacks it, the system
      instruction and sampling parameters of its single completion request,
      and the action named in its failure message. */
  datatype Descriptor = Descriptor(
    required: string,
    missing: string,
    system: string,
    temperature: real,
    maxTokens: nat,
    action: string)

  const AnalyzeSystem: string :=
    "You are an expert code analyzer specializing in security, performance, and testing. Always respond with valid JSON."
  const TestsSystem: string :=
    "You are an expert test engineer. Generate comprehensive test cases and respond with valid JSON."
  const SecuritySystem: string :=
    "You are a cybersecurity expert specializing in code security analysis. Always respond with valid JSON."
  const ChatSystem: string :=
    "You are a helpful AI coding assistant. Provide clear, concise, and actionable advice."
  const OptimizeSystem: string :=
    "You are an expert software engineer specializing in code optimization. Always respond with valid JSON."

  function Describe(task: Task): Descriptor
  {
    match task
    case Analyze => Descriptor("code", "No code provided", AnalyzeSystem, 0.3, 2000, "Analysis")
    case GenerateTests => Descriptor("code", "No code provided", TestsSystem, 0.3, 2000, "Test generation")
    case SecurityScan => Descriptor("code", "No code provided", SecuritySystem, 0.2, 2000, "Security scan")
    case Chat => Descriptor("message", "No message provided", ChatSystem, 0.7, 1000, "Chat")
    case Optimize => Descriptor("code", "No code provided", OptimizeSystem, 0.3, 2000, "Code optimization")
  }

  /** The completion model every endpoint asks for. */
  const Model: string := "gpt-4"

  /** The top-level keys a caller of each endpoint expects in the envelope. */
  function ExpectedKeys(task: Task): seq<string>
  {
    match task
    case Analyze => ["suggestions"]
    case GenerateTests => ["tests"]
    case SecurityScan => ["security_score", "issues", "recommendations"]
    case Chat => ["response", "timestamp"]
    case Optimize => ["optimized_code", "improvements", "performance_gain"]
  }

  /** How many characters of the reply a fallback envelope keeps; `None`
      means the whole reply, untruncated. */
  function ExcerptLimit(task: Task): Option<nat>
    requires task != Chat
  {
    match task
    case Analyze => Some(200)
    case GenerateTests => Some(300)
    case SecurityScan => Some(200)
    case Optimize => None
  }

  // ---------------------------------------------------------------------------
  // Requests, provider calls and responses
  // ---------------------------------------------------------------------------

  /** The decoded request body: either a JSON object of string fields, or a
      body whose decoding or field access raised, with the error's text. */
  datatype Body = Malformed(error: string) | Fields(values: map<string, string>)

  /** One request to the completion provider: a system message, a user
      message and the sampling parameters. */
  datatype Call = Call(model: string, system: string, prompt: string, temperature: real, maxTokens: nat)

  /** What the provider did with a call: replied with text, or raised an
      exception with the given text. */
  datatype Completion = Replied(text: string) | Raised(message: string)

  datatype Response = Response(status: nat, body: Json)

  /** The HTTP response together with the provider calls made to produce it. */
  datatype Exchange = Exchange(response: Response, calls: seq<Call>)

  /** `values.get(key, default)`. */
  function Field(values: map<string, string>, key: string, default: string): string
  {
    if key in values then values[key] else default
  }

  /** The declared language: the `language` field when the body has one
      (even an empty one), otherwise "javascript". */
  function Language(values: map<string, string>): string
  {
    Field(values, "language", "javascript")
  }

  function ErrorBody(message: string): Json
  {
    JObj([("error", JStr(message))])
  }

  /** The 500 response for an exception raised while serving `task`. */
  function Failed(task: Task, error: string): Response
  {
    Response(500, ErrorBody(Describe(task).action + " failed: " + error))
  }

  // ---------------------------------------------------------------------------
  // Prompt assembly
  // ---------------------------------------------------------------------------

  /** The indentation the prompt templates carry on every line. */
  const Indent: string := "        "

  /** `s` occurs as a contiguous piece of `t`. */
  ghost predicate IsInfix(s: string, t: string)
  {
    exists i, j :: 0 <= i <= j <= |t| && t[i..j] == s
  }

  /** The fenced block, tagged with the language, holding the user's code
      verbatim on its own indented line between the opening and closing fences. */
  function Fence(language: string, code: string): (r: string)
    ensures |r| == |language| + |code| + 2 * |Indent| + 8
    ensures r[..|language| + 4] == "```" + language + "\n"
    ensures r[|r| - 3..] == "```"
    ensures r[|language| + 4..|language| + 4 + |Indent|] == Indent
    ensures r[|language| + 4 + |Indent|..|r| - |Indent| - 4] == code
    ensures r[|r| - |Indent| - 4..|r| - 3] == "\n" + Indent
    ensures IsInfix(code, r)
  {
    var open := "```" + language + "\n" + Indent;
    var close := "\n" + Indent + "```";
    var r := open + code + close;
    assert r[..|language| + 4] == open[..|language| + 4];
    assert r[|open|..|open| + |code|] == code;
    assert r[|language| + 4..|language| + 4 + |Indent|] == open[|language| + 4..];
    assert r[|r| - 3..] == close[|close| - 3..];
    assert r[|r| - |Indent| - 4..|r| - 3] == close[..|close| - 3];
    r
  }

  const AnalyzeLead: string := "Analyze the following "
  const AnalyzeAsk: string := " code and provide suggestions in three categories:"
  const TestsLead: string := "Generate comprehensive test cases for the following "
  const SecurityLead: string := "Perform a comprehensive security analysis of this "
  const OptimizeLead: string := "Optimize the following "
  const OptimizeAsk: string := " code for better performance, readability, and maintainability."

  /** The first instruction line of a code task's prompt, naming the language. */
  function Headline(task: Task, language: string): string
    requires task != Chat
  {
    match task
    case Analyze => AnalyzeLead + language + AnalyzeAsk
    case GenerateTests => TestsLead + language + " code."
    case SecurityScan => SecurityLead + language + " code."
    case Optimize => OptimizeLead + language + OptimizeAsk
  }

  function CodeLabel(task: Task): string
    requires task != Chat
  {
    match task
    case Analyze => "Code to analyze:"
    case GenerateTests => "Code to test:"
    case SecurityScan => "Code to analyze:"
    case Optimize => "Original code:"
  }

  const AnalyzeFormat: string := "Respond in JSON format with an array of suggestions:"
  const TestsFormat: string := "Respond with JSON containing test cases:"

  /** The closing instruction line of a code task's prompt. */
  function ResponseFormat(task: Task): string
    requires task != Chat
  {
    match task
    case Analyze => AnalyzeFormat
    case GenerateTests => TestsFormat
    case SecurityScan => "Respond with JSON:"
    case Optimize => "Respond in JSON format:"
  }

  /** The prompt text before the fenced block. */
  function Preamble(task: Task, language: string): string
    requires task != Chat
  {
    "\n" + Indent + Headline(task, language) + "\n" + Indent + CodeLabel(task) + "\n" + Indent
  }

  /** The prompt text after the fenced block. */
  function Postamble(task: Task): string
    requires task != Chat
  {
    "\n" + Indent + ResponseFormat(task) + "\n" + Indent
  }

  /** The user prompt of the four code tasks (instruction lines abbreviated to
      their headline). */
  function TaskPrompt(task: Task, language: string, code: string): string
    requires task != Chat
  {
    Preamble(task, language) + Fence(language, code) + Postamble(task)
  }

  /** The context block the chat prompt carries when a code context is given. */
  function ContextBlock(context: string): string
  {
    ContextHeader + context + "\n```"
  }

  const ContextHeader: string := "\n\nCurrent code context:\n```\n"

  /** The chat prompt text before the question. */
  const ChatRole: string :=
    "You are an AI coding assistant integrated into a Smart IDE. Help the developer with their question."
  const ChatIntro: string := "\n" + Indent + ChatRole + "\n" + Indent + "\n" + Indent

  /** The chat prompt text after the question and its context. */
  const ChatAsk: string :=
    "Provide helpful, concise, and actionable advice. If relevant to the code context, reference specific lines or functions."
  const ChatAdvice: string := "\n" + Indent + "\n" + Indent + ChatAsk + "\n" + Indent

  /** The user prompt of the chat task: the question, then the code context
      block only when `context` is non-empty. */
  function ChatPrompt(message: string, context: string): string
  {
    var question := "User question: " + message;
    var contextPrompt := if context != "" then ContextBlock(context) else "";
    ChatIntro + question + contextPrompt + ChatAdvice
  }

  /** The single provider call an accepted request makes. */
  function BuildCall(task: Task, values: map<string, string>): Call
  {
    var d := Describe(task);
    var prompt :=
      if task == Chat then ChatPrompt(Field(values, "message", ""), Field(values, "code_context", ""))
      else TaskPrompt(task, Language(values), Field(values, "code", ""));
    Call(Model, d.system, prompt, d.temperature, d.maxTokens)
  }

  // ---------------------------------------------------------------------------
  // JSON-candidate extraction: re.search(r"\{.*\}", reply, re.DOTALL)
  // ---------------------------------------------------------------------------

  /** The position of the first `c` in `s`. */
  function FirstIndex(s: string, c: char): (r: Option<nat>)
    ensures r.Some? ==> r.value < |s| && s[r.value] == c
    ensures r.Some? ==> forall k :: 0 <= k < r.value ==> s[k] != c
    ensures r.None? ==> forall k :: 0 <= k < |s| ==> s[k] != c
  {
    if s == [] then None
    else if s[0] == c then Some(0)
    else
      match FirstIndex(s[1..], c)
      case None => None
      case Some(k) => Some(k + 1)
  }

  /** The position of the last `c` in `s`. */
  function LastIndex(s: string, c: char): (r: Option<nat>)
    ensures r.Some? ==> r.value < |s| && s[r.value] == c
    ensures r.Some? ==> forall k :: r.value < k < |s| ==> s[k] != c
    ensures r.None? ==> forall k :: 0 <= k < |s| ==> s[k] != c
  {
    if s == [] then None
    else if s[|s| - 1] == c then Some(|s| - 1)
    else LastIndex(s[..|s| - 1], c)
  }

  /** `t` matches the pattern `\{.*\}` in DOTALL mode: an opening brace, any
      characters at all, and a closing brace. */
  ghost predicate BraceDelimited(t: string)
  {
    |t| >= 2 && t[0] == '{' && t[|t| - 1] == '}'
  }

  /** `s[i..j]` is the match `re.search` reports: the leftmost position at
      which the pattern matches at all, and there the longest match, since
      `.*` is greedy. */
  ghost predicate IsSearchMatch(s: string, i: int, j: int)
  {
    && 0 <= i <= j <= |s|
    && BraceDelimited(s[i..j])
    && (forall i', j' :: 0 <= i' < i && i' <= j' <= |s| ==> !BraceDelimited(s[i'..j']))
    && (forall j' :: j < j' <= |s| ==> !BraceDelimited(s[i..j']))
  }

  /** The span from the first `{` to just past the last `}`, when that `}`
      comes after that `{`. */
  function MatchSpan(s: string): (r: Option<(nat, nat)>)
    ensures r.Some? <==> exists i, j :: 0 <= i < j < |s| && s[i] == '{' && s[j] == '}'
    ensures r.Some? ==> r.value.0 + 2 <= r.value.1 <= |s|
    ensures r.Some? ==> s[r.value.0] == '{' && s[r.value.1 - 1] == '}'
    ensures r.Some? ==> forall k :: 0 <= k < r.value.0 ==> s[k] != '{'
    ensures r.Some? ==> forall k :: r.value.1 <= k < |s| ==> s[k] != '}'
  {
    var open, close := FirstIndex(s, '{'), LastIndex(s, '}');
    if open.Some? && close.Some? && open.value < close.value then Some((open.value, close.value + 1))
    else None
  }

  /** The span `MatchSpan` finds is exactly the match `re.search` reports. */
  lemma MatchSpanIsSearchMatch(s: string, i: int, j: int)
    ensures IsSearchMatch(s, i, j) <==> MatchSpan(s) == Some((i, j))
  {
    var m := MatchSpan(s);
    if m.Some? {
      var (a, b) := m.value;
      assert BraceDelimited(s[a..b]);
      forall i', j' | 0 <= i' < a && i' <= j' <= |s|
        ensures !BraceDelimited(s[i'..j'])
      {
        if j' > i' { assert s[i'..j'][0] == s[i']; }
      }
      forall j' | b < j' <= |s|
        ensures !BraceDelimited(s[a..j'])
      {
        assert s[a..j'][j' - a - 1] == s[j' - 1];
      }
      assert IsSearchMatch(s, a, b);
      if IsSearchMatch(s, i, j) {
        assert s[i..j][0] == s[i] && s[i..j][j - i - 1] == s[j - 1];
      }
    }
  }

  /** No span is found exactly when no piece of `s` matches the pattern. */
  lemma NoSpanIffNoMatch(s: string)
    ensures MatchSpan(s).None? <==> forall i, j :: 0 <= i <= j <= |s| ==> !BraceDelimited(s[i..j])
  {
    if MatchSpan(s).Some? {
      var (a, b) := MatchSpan(s).value;
      MatchSpanIsSearchMatch(s, a, b);
    } else {
      forall i, j | 0 <= i <= j <= |s|
        ensures !BraceDelimited(s[i..j])
      {
        if j - i >= 2 {
          assert s[i..j][0] == s[i] && s[i..j][j - i - 1] == s[j - 1];
        }
      }
    }
  }

  /** The JSON candidate of a reply: what `re.search(r"\{.*\}", reply,
      re.DOTALL).group()` returns, or `None` where the search finds nothing. */
  function JsonCandidate(reply: string): (r: Option<string>)
    ensures r.Some? <==> exists i, j :: 0 <= i < j < |reply| && reply[i] == '{' && reply[j] == '}'
    ensures r.Some? ==> exists i, j :: IsSearchMatch(reply, i, j) && r.value == reply[i..j]
    ensures r.None? ==> forall i, j :: 0 <= i <= j <= |reply| ==> !BraceDelimited(reply[i..j])
  {
    NoSpanIffNoMatch(reply);
    match MatchSpan(reply)
    case None => None
    case Some((i, j)) =>
      MatchSpanIsSearchMatch(reply, i, j);
      Some(reply[i..j])
  }

  /** A candidate starts at the first `{` of the reply, ends at its last `}`,
      and so has the shape of a JSON object's text. */
  lemma CandidateFromFirstOpenToLastClose(reply: string)
    requires JsonCandidate(reply).Some?
    ensures var t := JsonCandidate(reply).value;
      && |t| >= 2 && t[0] == '{' && t[|t| - 1] == '}'
      && exists i, j :: 0 <= i < j <= |reply| && t == reply[i..j]
           && (forall k :: 0 <= k < i ==> reply[k] != '{')
           && (forall k :: j <= k < |reply| ==> reply[k] != '}')
  {
  }

  // ---------------------------------------------------------------------------
  // Envelopes
  // ---------------------------------------------------------------------------

  /** `text[:n] + "..."`. */
  function Excerpt(text: string, n: nat): (r: string)
    ensures |r| == (if |text| < n then |text| else n) + 3
    ensures |r| <= n + 3
    ensures r[..|r| - 3] <= text
    ensures r[|r| - 3..] == "..."
    ensures |text| <= n ==> r == text + "..."
  {
    var kept := if |text| < n then text else text[..n];
    assert (kept + "...")[..|kept|] == kept;
    kept + "..."
  }

  /** The reply text a fallback envelope carries. */
  function FallbackText(task: Task, reply: string): string
    requires task != Chat
  {
    match ExcerptLimit(task)
    case Some(n) => Excerpt(reply, n)
    case None => reply
  }

  function GetIn(j: Option<Json>, key: string): Option<Json>
  {
    if j.Some? then Get(j.value, key) else None
  }

  /** The string at the place in an envelope where each task's fallback puts
      the reply: the first suggestion's recommendation, the first test's code,
      the first issue's suggestion, the optimized code, the chat response. */
  function ReplySlot(task: Task, envelope: Json): Option<string>
  {
    match task
    case Analyze => Text(GetIn(Head(Get(envelope, "suggestions")), "recommendation"))
    case GenerateTests => Text(GetIn(Head(Get(envelope, "tests")), "code"))
    case SecurityScan => Text(GetIn(Head(Get(envelope, "issues")), "suggestion"))
    case Chat => Text(Get(envelope, "response"))
    case Optimize => Text(Get(envelope, "optimized_code"))
  }

  const AnalysisMessage: string := "AI analysis completed"
  const TestDescription: string := "Test case generated by AI"
  const SecurityDescription: string := "AI security analysis completed"
  const SecurityRecommendation: string := "Review AI analysis results"
  const OptimizeImprovement: string := "AI optimization analysis completed"

  /** The single suggestion of the analyze fallback. */
  function AnalysisSuggestion(text: string): Json
  {
    JObj([
      ("type", JStr("analysis")),
      ("line", JNum(1.0)),
      ("severity", JStr("info")),
      ("message", JStr(AnalysisMessage)),
      ("recommendation", JStr(text))])
  }

  /** The single test of the generate-tests fallback. */
  function GeneratedTest(text: string): Json
  {
    JObj([
      ("name", JStr("AI Generated Test")),
      ("description", JStr(TestDescription)),
      ("code", JStr(text)),
      ("expected", JStr("See test code")),
      ("category", JStr("unit"))])
  }

  /** The single issue of the security-scan fallback. */
  function SecurityIssue(text: string): Json
  {
    JObj([
      ("type", JStr("Security Analysis")),
      ("severity", JStr("info")),
      ("line", JNum(1.0)),
      ("description", JStr(SecurityDescription)),
      ("suggestion", JStr(text)),
      ("cwe", JStr("N/A"))])
  }

  /** The fixed envelope a code task returns when its reply yields no parsed JSON. */
  function Fallback(task: Task, reply: string): Json
    requires task != Chat
  {
    FallbackEnvelope(task, FallbackText(task, reply))
  }

  /** The fallback envelope of a code task around the text it carries. */
  function FallbackEnvelope(task: Task, text: string): Json
    requires task != Chat
  {
    match task
    case Analyze => JObj([("suggestions", JArr([AnalysisSuggestion(text)]))])
    case GenerateTests => JObj([("tests", JArr([GeneratedTest(text)]))])
    case SecurityScan =>
      JObj([
        ("security_score", JNum(75.0)),
        ("issues", JArr([SecurityIssue(text)])),
        ("recommendations", JArr([JStr(SecurityRecommendation)]))])
    case Optimize =>
      JObj([
        ("optimized_code", JStr(text)),
        ("improvements", JArr([JStr(OptimizeImprovement)])),
        ("performance_gain", JStr("See optimized code"))])
  }

  /** Every fallback envelope has all the keys its task's callers expect, and
      carries the fallback text at the task's reply slot. */
  lemma FallbackShape(task: Task, reply: string)
    requires task != Chat
    ensures forall k :: k in ExpectedKeys(task) ==> Get(Fallback(task, reply), k).Some?
    ensures ReplySlot(task, Fallback(task, reply)) == Some(FallbackText(task, reply))
  {
    var text := FallbackText(task, reply);
    assert Fallback(task, reply) == FallbackEnvelope(task, text);
    match task
    case Analyze => AnalyzeEnvelopeShape(text);
    case GenerateTests => TestsEnvelopeShape(text);
    case SecurityScan => SecurityEnvelopeShape(text);
    case Optimize => OptimizeEnvelopeShape(text);
  }

  lemma AnalyzeEnvelopeShape(text: string)
    ensures forall k :: k in ExpectedKeys(Analyze) ==> Get(FallbackEnvelope(Analyze, text), k).Some?
    ensures ReplySlot(Analyze, FallbackEnvelope(Analyze, text)) == Some(text)
  {
    FindFirst(FallbackEnvelope(Analyze, text).members, "suggestions", 0);
    FindFirst(AnalysisSuggestion(text).members, "recommendation", 4);
  }

  lemma TestsEnvelopeShape(text: string)
    ensures forall k :: k in ExpectedKeys(GenerateTests) ==> Get(FallbackEnvelope(GenerateTests, text), k).Some?
    ensures ReplySlot(GenerateTests, FallbackEnvelope(GenerateTests, text)) == Some(text)
  {
    FindFirst(FallbackEnvelope(GenerateTests, text).members, "tests", 0);
    FindFirst(GeneratedTest(text).members, "code", 2);
  }

  lemma SecurityEnvelopeShape(text: string)
    ensures forall k :: k in ExpectedKeys(SecurityScan) ==> Get(FallbackEnvelope(SecurityScan, text), k).Some?
    ensures ReplySlot(SecurityScan, FallbackEnvelope(SecurityScan, text)) == Some(text)
  {
    var r := FallbackEnvelope(SecurityScan, text);
    FindFirst(r.members, "security_score", 0);
    FindFirst(r.members, "issues", 1);
    FindFirst(r.members, "recommendations", 2);
    FindFirst(SecurityIssue(text).members, "suggestion", 4);
  }

  lemma OptimizeEnvelopeShape(text: string)
    ensures forall k :: k in ExpectedKeys(Optimize) ==> Get(FallbackEnvelope(Optimize, text), k).Some?
    ensures ReplySlot(Optimize, FallbackEnvelope(Optimize, text)) == Some(text)
  {
    var r := FallbackEnvelope(Optimize, text);
    FindFirst(r.members, "optimized_code", 0);
    FindFirst(r.members, "improvements", 1);
    FindFirst(r.members, "performance_gain", 2);
  }

  /** The envelope of a code task: the parsed candidate when there is one and
      it parses, the task's fallback otherwise. */
  function Normalise(task: Task, reply: string, parse: string -> Option<Json>): Json
    requires task != Chat
  {
    match JsonCandidate(reply)
    case None => Fallback(task, reply)
    case Some(candidate) =>
      match parse(candidate)
      case Some(parsed) => parsed
      case None => Fallback(task, reply)
  }

  function ChatEnvelope(reply: string): Json
  {
    JObj([("response", JStr(reply)), ("timestamp", JStr("now"))])
  }

  // ---------------------------------------------------------------------------
  // The gateway
  // ---------------------------------------------------------------------------

  /** The response to a provider outcome for an accepted request. */
  function Respond(task: Task, completion: Completion, parse: string -> Option<Json>): Response
  {
    match completion
    case Raised(message) => Failed(task, message)
    case Replied(text) =>
      Response(200, if task == Chat then ChatEnvelope(text) else Normalise(task, text, parse))
  }

  /** One request to one endpoint: validate, build the prompt, make the one
      provider call, and shape its outcome into the response. */
  function Handle(task: Task, body: Body, provider: Call -> Completion, parse: string -> Option<Json>): (x: Exchange)
    ensures |x.calls| <= 1
    ensures x.response.status in {200, 400, 500}
    ensures x.response.status == 400 <==> body.Fields? && Field(body.values, Describe(task).required, "") == ""
    ensures x.calls == [] <==> body.Malformed? || x.response.status == 400
  {
    match body
    case Malformed(error) => Exchange(Failed(task, error), [])
    case Fields(values) =>
      var required := Describe(task).required;
      if Field(values, required, "") == "" then
        Exchange(Response(400, ErrorBody(Describe(task).missing)), [])
      else
        var call := BuildCall(task, values);
        Exchange(Respond(task, provider(call), parse), [call])
  }

  // ---------------------------------------------------------------------------
  // Properties
  // ---------------------------------------------------------------------------

  /** An empty or absent required field is refused with 400 and the fixed
      message, before any provider call. */
  lemma MissingInputRejectedBeforeCall(
    task: Task, values: map<string, string>, provider: Call -> Completion, parse: string -> Option<Json>)
    requires Field(values, Describe(task).required, "") == ""
    ensures var x := Handle(task, Fields(values), provider, parse);
      && x.calls == []
      && x.response == Response(400, ErrorBody(if task == Chat then "No message provided" else "No code provided"))
  {
  }

  /** A body that cannot be read is a 500 with the task's action prefix, and
      no provider call is made. */
  lemma MalformedBodyReported(
    task: Task, error: string, provider: Call -> Completion, parse: string -> Option<Json>)
    ensures var x := Handle(task, Malformed(error), provider, parse);
      && x.calls == []
      && x.response.status == 500
      && x.response.body == ErrorBody(Describe(task).action + " failed: " + error)
  {
  }

  /** An accepted request makes exactly one provider call, with the task's
      system instruction and sampling parameters; for a code task its prompt
      holds the code verbatim in a block fenced with the declared language,
      which is "javascript" only when the body has no `language` field; for
      chat it is the question prompt over the message and code context. */
  lemma AcceptedRequestMakesOneCall(
    task: Task, values: map<string, string>, provider: Call -> Completion, parse: string -> Option<Json>)
    requires Field(values, Describe(task).required, "") != ""
    ensures var x := Handle(task, Fields(values), provider, parse);
      && |x.calls| == 1
      && x.calls[0] == BuildCall(task, values)
      && x.calls[0].model == "gpt-4"
      && x.calls[0].system == Describe(task).system
      && x.calls[0].temperature == Describe(task).temperature
      && x.calls[0].maxTokens == Describe(task).maxTokens
      && (task != Chat ==>
            var language := if "language" in values then values["language"] else "javascript";
            IsInfix(Fence(language, values["code"]), x.calls[0].prompt))
      && (task == Chat ==>
            x.calls[0].prompt == ChatPrompt(values["message"], Field(values, "code_context", "")))
  {
    var call := BuildCall(task, values);
    assert Handle(task, Fields(values), provider, parse).calls == [call];
    if task != Chat {
      PromptEmbedsFence(task, Language(values), values["code"]);
    }
  }

  /** The fenced code block appears verbatim in a code task's prompt. */
  lemma PromptEmbedsFence(task: Task, language: string, code: string)
    requires task != Chat
    ensures IsInfix(Fence(language, code), TaskPrompt(task, language, code))
  {
    var pre, f := Preamble(task, language), Fence(language, code);
    var p := TaskPrompt(task, language, code);
    assert p[|pre|..|pre| + |f|] == f;
  }

  /** A piece placed between two others occurs in the result. */
  lemma InfixOfConcat(left: string, s: string, right: string)
    ensures IsInfix(s, left + s + right)
  {
    assert (left + s + right)[|left|..|left| + |s|] == s;
  }

  /** A piece of a piece is a piece of the whole. */
  lemma InfixTransitive(s: string, t: string, u: string)
    requires IsInfix(s, t) && IsInfix(t, u)
    ensures IsInfix(s, u)
  {
    var i, j :| 0 <= i <= j <= |t| && t[i..j] == s;
    var i', j' :| 0 <= i' <= j' <= |u| && u[i'..j'] == t;
    var w := u[i' + i..i' + j];
    forall k | 0 <= k < |s|
      ensures w[k] == s[k]
    {
      assert w[k] == u[i'..j'][i + k];
      assert s[k] == t[i..j][k];
    }
    assert w == s;
  }

  /** The chat prompt always quotes the message. */
  lemma ChatQuotesMessage(message: string, context: string)
    ensures IsInfix("User question: " + message, ChatPrompt(message, context))
  {
    var question := "User question: " + message;
    var contextPrompt := if context != "" then ContextBlock(context) else "";
    InfixOfConcat(ChatIntro, question, contextPrompt);
    InfixOfConcat([], ChatIntro + question + contextPrompt, ChatAdvice);
    assert [] + (ChatIntro + question + contextPrompt) == ChatIntro + question + contextPrompt;
    InfixTransitive(question, ChatIntro + question + contextPrompt, ChatPrompt(message, context));
  }

  /** The context block is inserted right after the question exactly when
      the context is non-empty; the rest of the prompt is the same with or
      without it. Without a context the question is followed directly by the
      closing advice. */
  lemma ChatContextOnlyWhenNonEmpty(message: string, context: string)
    ensures var bare, at := ChatPrompt(message, ""), |ChatIntro| + |"User question: " + message|;
      && at <= |bare|
      && bare[..at] == ChatIntro + ("User question: " + message)
      && bare[at..] == ChatAdvice
      && ChatPrompt(message, context)
         == bare[..at] + (if context != "" then ContextBlock(context) else "") + bare[at..]
    ensures context != "" ==> IsInfix(context, ChatPrompt(message, context))
  {
    var head := ChatIntro + ("User question: " + message);
    var bare := ChatPrompt(message, "");
    assert bare == head + "" + ChatAdvice;
    assert bare == head + ChatAdvice;
    assert bare[..|head|] == head;
    assert bare[|head|..] == ChatAdvice;
    if context != "" {
      var block := ContextBlock(context);
      InfixOfConcat(head, block, ChatAdvice);
      InfixOfConcat(ContextHeader, context, "\n```");
      InfixTransitive(context, block, ChatPrompt(message, context));
    }
  }

  /** Chat never looks for a JSON candidate: its envelope is the reply,
      verbatim, stamped "now", whatever the reply and whatever the decoder. */
  lemma ChatReturnsReplyVerbatim(
    values: map<string, string>, provider: Call -> Completion, parse: string -> Option<Json>,
    other: string -> Option<Json>, reply: string)
    requires Field(values, "message", "") != ""
    requires provider(BuildCall(Chat, values)) == Replied(reply)
    ensures Handle(Chat, Fields(values), provider, parse).response
         == Response(200, JObj([("response", JStr(reply)), ("timestamp", JStr("now"))]))
    ensures Handle(Chat, Fields(values), provider, parse) == Handle(Chat, Fields(values), provider, other)
    ensures var body := Handle(Chat, Fields(values), provider, parse).response.body;
      && (forall k :: k in ExpectedKeys(Chat) ==> Get(body, k).Some?)
      && ReplySlot(Chat, body) == Some(reply)
  {
    var members := ChatEnvelope(reply).members;
    FindFirst(members, "response", 0);
    FindFirst(members, "timestamp", 1);
  }

  /** A provider exception after validation is a 500 whose message is the
      task's action, " failed: ", and the exception's text. */
  lemma ProviderFailureReported(
    task: Task, values: map<string, string>, provider: Call -> Completion, parse: string -> Option<Json>,
    message: string)
    requires Field(values, Describe(task).required, "") != ""
    requires provider(BuildCall(task, values)) == Raised(message)
    ensures var r := Handle(task, Fields(values), provider, parse).response;
      && r.status == 500
      && r.body == ErrorBody(
           (match task
            case Analyze => "Analysis"
            case GenerateTests => "Test generation"
            case SecurityScan => "Security scan"
            case Chat => "Chat"
            case Optimize => "Code optimization") + " failed: " + message)
  {
  }

  /** A code task's reply is answered with 200 and its normalised envelope. */
  lemma ReplyNormalised(
    task: Task, values: map<string, string>, provider: Call -> Completion, parse: string -> Option<Json>,
    reply: string)
    requires task != Chat
    requires Field(values, "code", "") != ""
    requires provider(BuildCall(task, values)) == Replied(reply)
    ensures Handle(task, Fields(values), provider, parse).response == Response(200, Normalise(task, reply, parse))
  {
  }

  /** When the candidate parses, the envelope is the parsed value itself,
      whatever keys it has. */
  lemma ParsedCandidateReturnedVerbatim(task: Task, reply: string, parse: string -> Option<Json>)
    requires task != Chat
    requires JsonCandidate(reply).Some? && parse(JsonCandidate(reply).value).Some?
    ensures Normalise(task, reply, parse) == parse(JsonCandidate(reply).value).value
  {
  }

  /** No candidate and a candidate that does not parse give the same fallback
      envelope, and it depends on the reply alone. */
  lemma FallbackWhateverTheCause(task: Task, reply: string, parse: string -> Option<Json>)
    requires task != Chat
    requires JsonCandidate(reply).None? || parse(JsonCandidate(reply).value).None?
    ensures Normalise(task, reply, parse) == Fallback(task, reply)
    ensures forall k :: k in ExpectedKeys(task) ==> Get(Normalise(task, reply, parse), k).Some?
  {
    FallbackShape(task, reply);
  }

  /** A reply with no `{` followed later by a `}` is never handed to the
      decoder: every decoder gives the same envelope. */
  lemma NoBracesNoDecoding(task: Task, reply: string, parse: string -> Option<Json>, other: string -> Option<Json>)
    requires task != Chat
    requires forall i, j :: 0 <= i < j < |reply| ==> !(reply[i] == '{' && reply[j] == '}')
    ensures Normalise(task, reply, parse) == Normalise(task, reply, other) == Fallback(task, reply)
  {
  }

  /** The expected keys are guaranteed only on the fallback path: a reply
      whose candidate decodes to an object lacking a key is passed through as
      it is, so the response lacks that key too. */
  lemma ParsedEnvelopeNotShapeChecked(
    task: Task, reply: string, parse: string -> Option<Json>, members: seq<(string, Json)>, key: string)
    requires task != Chat
    requires JsonCandidate(reply).Some? && parse(JsonCandidate(reply).value) == Some(JObj(members))
    requires forall m :: 0 <= m < |members| ==> members[m].0 != key
    ensures Get(Normalise(task, reply, parse), key).None?
  {
    FindAbsent(members, key);
  }

  /** The fallback text is the first min(N, |reply|) characters of the reply
      followed by "...", which is always appended, with N 200 for analyze and
      security scan and 300 for tests; optimize keeps the whole reply. */
  lemma FallbackTextBounds(task: Task, reply: string)
    requires task != Chat
    ensures var t := FallbackText(task, reply);
      match task
      case Analyze =>
        |t| == (if |reply| < 200 then |reply| else 200) + 3 && t[..|t| - 3] <= reply && t[|t| - 3..] == "..."
      case SecurityScan =>
        |t| == (if |reply| < 200 then |reply| else 200) + 3 && t[..|t| - 3] <= reply && t[|t| - 3..] == "..."
      case GenerateTests =>
        |t| == (if |reply| < 300 then |reply| else 300) + 3 && t[..|t| - 3] <= reply && t[|t| - 3..] == "..."
      case Optimize => t == reply
  {
  }

  /** The security fallback always scores 75 and recommends only reviewing
      the analysis. */
  lemma SecurityFallbackConstants(reply: string)
    ensures Get(Fallback(SecurityScan, reply), "security_score") == Some(JNum(75.0))
    ensures Get(Fallback(SecurityScan, reply), "recommendations") == Some(JArr([JStr("Review AI analysis results")]))
  {
    var r := Fallback(SecurityScan, reply);
    FindFirst(r.members, "security_score", 0);
    FindFirst(r.members, "recommendations", 2);
  }
}
