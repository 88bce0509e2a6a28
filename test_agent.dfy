/**
 * The test agent: an agent backed by a Google chat model that answers chat
 * requests and analyses texts, extracting short insights from the model's
 * reply. The model is a function from prompt to reply (or error).
 */
module TestAgents {
  import opened Wrappers
  import opened Values
  import opened Text
  import Config
  import opened Agents

  /* ---------------- Insight extraction ---------------- */

  /** The bullet characters `lstrip('-•')` removes. */
  const Bullets: set<char> := {'-', '\U{2022}'}

  /** The filter on one stripped reply line: non-empty, and bulleted or mentioning an insight. */
  predicate Qualifies(stripped: string)
  {
    stripped != "" &&
    (StartsWith(stripped, "-") || StartsWith(stripped, "\U{2022}") ||
     Contains(Lower(stripped), "insight") || Contains(Lower(stripped), "important"))
  }

  /** The insight kept for a line: stripped, bullets removed, stripped again. */
  function Clean(line: string): (insight: string)
  {
    Strip(LStrip(Strip(line), Bullets))
  }

  /** What one line contributes: its cleaned form if it qualifies, nothing otherwise. */
  function Extracted(line: string): (r: seq<string>)
    ensures |r| <= 1
    ensures r != [] <==> Qualifies(Strip(line))
    ensures r != [] ==> r[0] == Clean(line)
  {
    if Qualifies(Strip(line)) then [Clean(line)] else []
  }

  /** What `f` yields for each item, concatenated in item order. */
  function Gather<T>(f: T -> seq<string>, items: seq<T>): (gathered: seq<string>)
  {
    if items == [] then [] else Gather(f, items[..|items| - 1]) + f(items[|items| - 1])
  }

  /** One more item adds what `f` yields for it at the end. */
  lemma GatherStep<T>(f: T -> seq<string>, items: seq<T>, i: nat)
    requires i < |items|
    ensures Gather(f, items[..i + 1]) == Gather(f, items[..i]) + f(items[i])
  {
    assert items[..i + 1][..i] == items[..i] && items[..i + 1][i] == items[i];
  }

  /** Gathering over two blocks of items concatenates what each block gives. */
  lemma {:induction false} GatherAppend<T>(f: T -> seq<string>, a: seq<T>, b: seq<T>)
    ensures Gather(f, a + b) == Gather(f, a) + Gather(f, b)
    decreases |b|
  {
    if b == [] {
      assert a + b == a;
    } else {
      var front := b[..|b| - 1];
      assert (a + b)[..|a + b| - 1] == a + front;
      assert (a + b)[|a + b| - 1] == b[|b| - 1];
      GatherAppend(f, a, front);
    }
  }

  /** A text is gathered exactly when some item yields it. */
  lemma {:induction false} GatherMembership<T>(f: T -> seq<string>, items: seq<T>, x: string)
    ensures x in Gather(f, items) <==> exists i :: 0 <= i < |items| && x in f(items[i])
  {
    if items != [] {
      var n := |items| - 1;
      var front := items[..n];
      GatherMembership(f, front, x);
      assert Gather(f, items) == Gather(f, front) + f(items[n]);
      if x in Gather(f, front) {
        var i :| 0 <= i < |front| && x in f(front[i]);
        assert front[i] == items[i];
      }
      if exists i :: 0 <= i < |items| && x in f(items[i]) {
        var i :| 0 <= i < |items| && x in f(items[i]);
        if i < n {
          assert front[i] == items[i];
        }
      }
    }
  }

  /** Every line that qualifies, cleaned, in line order. */
  function Matches(lines: seq<string>): (matches: seq<string>)
  {
    Gather(Extracted, lines)
  }

  /** The insights of a reply: the first five matches over its lines. */
  function Insights(reply: string): (r: seq<string>)
    ensures |r| <= 5
    ensures r <= Matches(Split(reply, '\n'))
    ensures |r| < 5 ==> r == Matches(Split(reply, '\n'))
  {
    var all := Matches(Split(reply, '\n'));
    if |all| <= 5 then all else all[..5]
  }

  /** Matching works line by line: the matches of two blocks of lines are concatenated. */
  lemma MatchesAppend(a: seq<string>, b: seq<string>)
    ensures Matches(a + b) == Matches(a) + Matches(b)
  {
    GatherAppend(Extracted, a, b);
  }

  /** A text is a match exactly when it is the cleaned form of some qualifying line. */
  lemma MatchesMembership(lines: seq<string>, x: string)
    ensures x in Matches(lines) <==> exists i :: 0 <= i < |lines| && Qualifies(Strip(lines[i])) && x == Clean(lines[i])
  {
    GatherMembership(Extracted, lines, x);
  }

  /** An insight is a stretch of its line with no surrounding whitespace. */
  lemma CleanIsSlice(line: string) returns (i: nat, j: nat)
    ensures i <= j <= |line| && Clean(line) == line[i..j]
    ensures Trimmed(Clean(line))
  {
    i, j := StripLStripStripIsSlice(line, Bullets);
  }

  /** `strip` after `lstrip(chars)` after `strip` still leaves a trimmed slice of the line. */
  lemma StripLStripStripIsSlice(line: string, chars: set<char>) returns (i: nat, j: nat)
    ensures i <= j <= |line| && Strip(LStrip(Strip(line), chars)) == line[i..j]
    ensures Trimmed(Strip(LStrip(Strip(line), chars)))
  {
    var i0, j0 := StripSlice(line);
    var d := LStripOfSlice(line, i0, j0, chars, Strip(line));
    i, j := StripOfSlice(line, i0 + d, j0, LStrip(Strip(line), chars));
  }

  /** `lstrip` of a slice is a later-starting slice. */
  lemma LStripOfSlice(s: string, lo: nat, hi: nat, chars: set<char>, t: string) returns (d: nat)
    requires lo <= hi <= |s| && t == s[lo..hi]
    ensures lo + d <= hi && LStrip(t, chars) == s[lo + d..hi]
  {
    d := |t| - |LStrip(t, chars)|;
    SliceOfSlice(s, lo, hi, d, hi - lo);
  }

  /** `strip` of a slice is a narrower slice that neither starts nor ends with whitespace. */
  lemma StripOfSlice(s: string, lo: nat, hi: nat, t: string) returns (a: nat, b: nat)
    requires lo <= hi <= |s| && t == s[lo..hi]
    ensures lo <= a <= b <= hi && Strip(t) == s[a..b]
    ensures Trimmed(Strip(t))
  {
    var i1, j1 := StripSlice(t);
    SliceOfSlice(s, lo, hi, i1, j1);
    a, b := lo + i1, lo + j1;
  }

  /** A slice of a slice is a slice of the whole. */
  lemma SliceOfSlice(s: string, lo: nat, hi: nat, a: nat, b: nat)
    requires lo <= hi <= |s| && a <= b <= hi - lo
    ensures s[lo..hi][a..b] == s[lo + a..lo + b]
  {
    assert forall k :: 0 <= k < b - a ==> s[lo..hi][a..b][k] == s[lo + a..lo + b][k];
  }

  /* ---------------- Prompts ---------------- */

  const SystemPrompt := "You are a helpful AI assistant for the Mairie Radar system, "
    + "which analyzes French municipal budget data for anomalies. "
    + "You can help users understand budget information, explain "
    + "financial terms, and provide insights about municipal spending."

  /** The chat prompt: the system prompt, then the user's turn. */
  function ChatPrompt(message: Value): (prompt: string)
  {
    SystemPrompt + "\n\nUser: " + Render(message) + "\nAssistant:"
  }

  const BudgetLead := "Analyze this budget-related text for key insights, anomalies, or important financial information:\n\n"
  const BudgetTail := "\n\nProvide a structured analysis with specific insights."
  const AnomalyLead := "Look for potential anomalies or irregularities in this text:\n\n"
  const AnomalyTail := "\n\nIdentify any unusual patterns, discrepancies, or concerning elements."
  const GeneralLead := "Analyze this text and provide insights:\n\n"

  /** The analysis prompt chosen by the analysis type: budget, anomaly, or the general one. */
  function AnalysisPrompt(analysisType: Value, text: Value): (prompt: string)
  {
    if analysisType == Str("budget") then BudgetLead + Render(text) + BudgetTail
    else if analysisType == Str("anomaly") then AnomalyLead + Render(text) + AnomalyTail
    else GeneralLead + Render(text)
  }

  /** Every analysis prompt carries the text; any type but budget and anomaly gets the general prompt. */
  lemma AnalysisPromptCarriesText(analysisType: Value, text: Value)
    ensures Contains(AnalysisPrompt(analysisType, text), Render(text))
    ensures analysisType != Str("budget") && analysisType != Str("anomaly") ==>
              AnalysisPrompt(analysisType, text) == AnalysisPrompt(Str("general"), text)
  {
    ContainsMiddle(BudgetLead, Render(text), BudgetTail);
    ContainsMiddle(AnomalyLead, Render(text), AnomalyTail);
    ContainsMiddle(GeneralLead, Render(text), "");
    assert GeneralLead + Render(text) + "" == GeneralLead + Render(text);
  }

  /** The chat prompt carries the user's message after the system prompt. */
  lemma ChatPromptCarriesMessage(message: Value)
    ensures StartsWith(ChatPrompt(message), SystemPrompt)
    ensures Contains(ChatPrompt(message), Render(message))
  {
    ContainsMiddle(SystemPrompt + "\n\nUser: ", Render(message), "\nAssistant:");
    assert ChatPrompt(message)[..|SystemPrompt|] == SystemPrompt;
  }

  /* ---------------- Handlers ---------------- */

  /** The chat model the agent holds once initialised; `complete` stands for the remote call. */
  datatype ChatModel = ChatModel(
    model: string,
    apiKey: string,
    temperature: real,
    maxTokens: int,
    complete: string -> Result<string, string>)

  const NotInitialized := "LLM not initialized"

  /** `min(0.9, len(reply) / 200.0 + 0.3)`, over the reals. */
  function ChatConfidence(replyLength: nat): (c: real)
    ensures 0.3 <= c <= 0.9
    ensures c == 0.9 || c == replyLength as real / 200.0 + 0.3
    ensures c <= replyLength as real / 200.0 + 0.3
  {
    var estimate := replyLength as real / 200.0 + 0.3;
    if 0.9 <= estimate then 0.9 else estimate
  }

  /** A chat answer: the response text and its confidence. */
  datatype ChatReply = ChatReply(response: string, confidence: real)

  /**
   * `_handle_chat`: raises without a model; otherwise the model's reply
   * with its length-based confidence, or an apology with confidence 0.
   */
  function Chat(llm: Option<ChatModel>, message: Value): (r: Result<ChatReply, string>)
    ensures llm.None? <==> r == Failure(NotInitialized)
    ensures r.Success? ==> 0.0 <= r.value.confidence <= 0.9
    ensures llm.Some? && llm.value.complete(ChatPrompt(message)).Success? ==>
              r == Success(ChatReply(llm.value.complete(ChatPrompt(message)).value,
                                     ChatConfidence(|llm.value.complete(ChatPrompt(message)).value|)))
    ensures llm.Some? && llm.value.complete(ChatPrompt(message)).Failure? ==>
              r == Success(ChatReply("I'm sorry, I encountered an error: " + llm.value.complete(ChatPrompt(message)).error, 0.0))
  {
    if llm.None? then Failure(NotInitialized)
    else match llm.value.complete(ChatPrompt(message))
      case Success(reply) => Success(ChatReply(reply, ChatConfidence(|reply|)))
      case Failure(e) => Success(ChatReply("I'm sorry, I encountered an error: " + e, 0.0))
  }

  /** An analysis: the model's reply (or a failure note) and the insights drawn from it. */
  datatype Analysis = Analysis(analysis: string, insights: seq<string>)

  /**
   * `_handle_text_analysis`: raises without a model; otherwise the reply to
   * the chosen prompt and its insights, or a failure note and no insights.
   */
  function Analyze(llm: Option<ChatModel>, text: Value, analysisType: Value): (r: Result<Analysis, string>)
    ensures llm.None? <==> r == Failure(NotInitialized)
    ensures r.Success? ==> |r.value.insights| <= 5
    ensures llm.Some? && llm.value.complete(AnalysisPrompt(analysisType, text)).Success? ==>
              var reply := llm.value.complete(AnalysisPrompt(analysisType, text)).value;
              r == Success(Analysis(reply, Insights(reply)))
    ensures llm.Some? && llm.value.complete(AnalysisPrompt(analysisType, text)).Failure? ==>
              r == Success(Analysis("Analysis failed: " + llm.value.complete(AnalysisPrompt(analysisType, text)).error, []))
  {
    if llm.None? then Failure(NotInitialized)
    else match llm.value.complete(AnalysisPrompt(analysisType, text))
      case Success(reply) => Success(Analysis(reply, Insights(reply)))
      case Failure(e) => Success(Analysis("Analysis failed: " + e, []))
  }

  /** The insight loop over the reply's lines, then the cut to five. */
  method ExtractInsights(reply: string) returns (insights: seq<string>)
    ensures insights == Insights(reply)
  {
    var lines := Split(reply, '\n');
    var matches: seq<string> := [];
    for i := 0 to |lines|
      invariant matches == Matches(lines[..i])
    {
      var line := Strip(lines[i]);
      GatherStep(Extracted, lines, i);
      if Qualifies(line) {
        matches := matches + [Strip(LStrip(line, Bullets))];
      }
    }
    assert lines[..|lines|] == lines;
    insights := if |matches| <= 5 then matches else matches[..5];
  }

  /** The two capabilities the agent adds when it starts. */
  const ChatCapability := AgentCapability("chat", "Chat with Gemini Flash LLM",
    map["message" := Str("string")], map["response" := Str("string"), "confidence" := Str("float")])
  const AnalyzeCapability := AgentCapability("analyze_text", "Analyze text for insights",
    map["text" := Str("string"), "analysis_type" := Str("string")],
    map["analysis" := Str("string"), "insights" := Str("array")])

  const SupportedActions := List([Str("chat"), Str("analyze_text")])

  /** The insights as a list value. */
  function InsightList(insights: seq<string>): (v: Value)
    ensures v.List? && |v.items| == |insights|
    ensures forall k :: 0 <= k < |insights| ==> v.items[k] == Str(insights[k])
  {
    if insights == [] then List([])
    else List([Str(insights[0])] + InsightList(insights[1..]).items)
  }

  class TestAgent {
    const base: BaseAgent
    const settings: Config.Settings
    var llm: Option<ChatModel>

    /** The settings are the process-wide ones the source imports; the id defaults as in the source. */
    constructor (settings: Config.Settings, agentId: string := "test_agent")
      ensures fresh(base) && base.agentId == agentId && base.name == "Test Agent"
      ensures base.status == Idle && base.capabilities == []
      ensures this.settings == settings && llm == None
    {
      base := new BaseAgent(agentId, "Test Agent");
      this.settings := settings;
      llm := None;
    }

    /**
     * `initialize`: succeeds exactly when the settings choose Google and
     * the chat client is built (`client` is the client constructor's
     * outcome: the model's completion function or the raised error), then
     * holds the Google model and adds the two capabilities; otherwise
     * nothing changes.
     */
    method Initialize(client: Result<string -> Result<string, string>, string>) returns (ok: bool)
      modifies this`llm, base`capabilities
      ensures ok <==> Config.IsSet(settings.googleApiKey) && client.Success?
      ensures ok ==> llm == Some(ChatModel(settings.googleModel, settings.googleApiKey.value, 0.7, 1000, client.value))
      ensures ok ==> base.capabilities == old(base.capabilities) + [ChatCapability, AnalyzeCapability]
      ensures !ok ==> llm == old(llm) && base.capabilities == old(base.capabilities)
    {
      var config := Config.GetLlmConfig(settings);
      if config.Failure? {
        return false;
      }
      if config.value.provider != "google" {
        return false;
      }
      if client.Failure? {
        return false;
      }
      llm := Some(ChatModel(config.value.model, config.value.apiKey, 0.7, 1000, client.value));
      base.AddCapability(ChatCapability);
      base.AddCapability(AnalyzeCapability);
      return true;
    }

    /** `_handle_chat`. */
    method HandleChat(message: Value) returns (r: Result<ChatReply, string>)
      ensures r == Chat(llm, message)
    {
      if llm.None? {
        return Failure(NotInitialized);
      }
      var reply := llm.value.complete(ChatPrompt(message));
      if reply.Failure? {
        return Success(ChatReply("I'm sorry, I encountered an error: " + reply.error, 0.0));
      }
      return Success(ChatReply(reply.value, ChatConfidence(|reply.value|)));
    }

    /** `_handle_text_analysis`. */
    method HandleTextAnalysis(text: Value, analysisType: Value) returns (r: Result<Analysis, string>)
      ensures r == Analyze(llm, text, analysisType)
    {
      if llm.None? {
        return Failure(NotInitialized);
      }
      var reply := llm.value.complete(AnalysisPrompt(analysisType, text));
      if reply.Failure? {
        return Success(Analysis("Analysis failed: " + reply.error, []));
      }
      var insights := ExtractInsights(reply.value);
      return Success(Analysis(reply.value, insights));
    }

    /**
     * `process_message`: every reply goes back to the sender, correlated
     * with the request. Chat and analysis requests get a response (or an
     * error message when the model is missing); other actions get an error
     * listing the supported ones. A response carries two clock readings:
     * the one written into its content, then the message's own timestamp.
     */
    method ProcessMessage(message: Message, replyId: string, contentTime: Instant, replyTime: Instant) returns (reply: Message)
      ensures reply.id == replyId && reply.sender == base.agentId && reply.receiver == message.sender
      ensures reply.correlationId == Some(message.id) && reply.timestamp == replyTime
      ensures var action := Get(message.content, "action");
        && (action == Str("chat") ==>
              var r := Chat(llm, GetOr(message.content, "message", Str("")));
              && (r.Success? ==>
                    reply.messageType == Response &&
                    reply.content == map["action" := Str("chat_response"), "response" := Str(r.value.response),
                                         "confidence" := Float(r.value.confidence), "timestamp" := Timestamp(contentTime)])
              && (r.Failure? ==> reply.messageType == Error && reply.content == map["error" := Str(r.error)]))
        && (action == Str("analyze_text") ==>
              var r := Analyze(llm, GetOr(message.content, "text", Str("")),
                               GetOr(message.content, "analysis_type", Str("general")));
              && (r.Success? ==>
                    reply.messageType == Response &&
                    reply.content == map["action" := Str("analysis_response"), "analysis" := Str(r.value.analysis),
                                         "insights" := InsightList(r.value.insights), "timestamp" := Timestamp(contentTime)])
              && (r.Failure? ==> reply.messageType == Error && reply.content == map["error" := Str(r.error)]))
        && (action != Str("chat") && action != Str("analyze_text") ==>
              reply.messageType == Error &&
              reply.content == map["error" := Str("Unknown action: " + Render(action)),
                                   "supported_actions" := SupportedActions])
      ensures reply.messageType == Response <==>
                llm.Some? && Get(message.content, "action") in {Str("chat"), Str("analyze_text")}
    {
      var content := message.content;
      var action := Get(content, "action");
      var body: map<string, Value>;
      var kind := Response;
      if action == Str("chat") {
        var r := HandleChat(GetOr(content, "message", Str("")));
        if r.Failure? {
          kind, body := Error, map["error" := Str(r.error)];
        } else {
          body := map["action" := Str("chat_response"), "response" := Str(r.value.response),
                      "confidence" := Float(r.value.confidence), "timestamp" := Timestamp(contentTime)];
        }
      } else if action == Str("analyze_text") {
        var r := HandleTextAnalysis(GetOr(content, "text", Str("")), GetOr(content, "analysis_type", Str("general")));
        if r.Failure? {
          kind, body := Error, map["error" := Str(r.error)];
        } else {
          body := map["action" := Str("analysis_response"), "analysis" := Str(r.value.analysis),
                      "insights" := InsightList(r.value.insights), "timestamp" := Timestamp(contentTime)];
        }
      } else {
        kind := Error;
        body := map["error" := Str("Unknown action: " + Render(action)), "supported_actions" := SupportedActions];
      }
      reply := Message(replyId, base.agentId, message.sender, kind, body, replyTime, Some(message.id));
    }

    /**
     * `execute_task`: a chat or analysis task succeeds with the handler's
     * result and the model name; an unknown type or a missing model fails
     * with an error and no result. The task id defaults to "unknown".
     */
    method ExecuteTask(task: map<string, Value>, elapsed: real) returns (r: TaskResult)
      ensures r.taskId == GetOr(task, "id", Str("unknown")) && r.agentId == base.agentId
      ensures r.executionTime == elapsed
      ensures r.success <==> llm.Some? && Get(task, "type") in {Str("chat"), Str("analyze_text")}
      ensures r.success ==> r.error == None && r.metadata == map["model" := Str(settings.googleModel)]
      ensures r.success && Get(task, "type") == Str("chat") ==>
                var c := Chat(llm, GetOr(task, "message", Str(""))).value;
                r.result == Dict(map["response" := Str(c.response), "confidence" := Float(c.confidence)])
      ensures r.success && Get(task, "type") == Str("analyze_text") ==>
                var a := Analyze(llm, GetOr(task, "text", Str("")), GetOr(task, "analysis_type", Str("general"))).value;
                r.result == Dict(map["analysis" := Str(a.analysis), "insights" := InsightList(a.insights)])
      ensures !r.success ==> r.result == Null && r.error.Some? && r.error.value != "" && r.metadata == map[]
      ensures Get(task, "type") !in {Str("chat"), Str("analyze_text")} ==>
                r.error == Some("Unknown task type: " + Render(Get(task, "type")))
      ensures llm.None? && Get(task, "type") in {Str("chat"), Str("analyze_text")} ==> r.error == Some(NotInitialized)
    {
      var taskId := GetOr(task, "id", Str("unknown"));
      var taskType := Get(task, "type");
      var result: Value;
      if taskType == Str("chat") {
        var c := HandleChat(GetOr(task, "message", Str("")));
        if c.Failure? {
          return TaskResult(taskId, base.agentId, false, Null, Some(c.error), elapsed, map[]);
        }
        result := Dict(map["response" := Str(c.value.response), "confidence" := Float(c.value.confidence)]);
      } else if taskType == Str("analyze_text") {
        var a := HandleTextAnalysis(GetOr(task, "text", Str("")), GetOr(task, "analysis_type", Str("general")));
        if a.Failure? {
          return TaskResult(taskId, base.agentId, false, Null, Some(a.error), elapsed, map[]);
        }
        result := Dict(map["analysis" := Str(a.value.analysis), "insights" := InsightList(a.value.insights)]);
      } else {
        return TaskResult(taskId, base.agentId, false, Null,
                          Some("Unknown task type: " + Render(taskType)), elapsed, map[]);
      }
      return TaskResult(taskId, base.agentId, true, result, None, elapsed, map["model" := Str(settings.googleModel)]);
    }

    /** `get_capabilities`: the capabilities added so far. */
    function GetCapabilities(): (caps: seq<AgentCapability>)
      reads base
      ensures caps == base.capabilities
    {
      base.capabilities
    }
  }
}
