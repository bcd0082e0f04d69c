/** The graph's nodes, each a step that reads the conversation state and
    returns the keys it updates: `receive_input_node`, `direct_answer_node`,
    `search_node`, `tool_node` and `generate_final_answer_node`
    (Agent.py:149-430). `decide_action_node` and `router_node` are in
    `Routing`. Backend replies, the clock and the search outcome are
    parameters. */
module Nodes {
  import opened Wrappers
  import opened Text
  import opened Routing
  import opened CalculatorTool
  import opened WebSearchTool
  import opened DateTimeTool

  datatype Message = Human(content: string) | Ai(content: string) | System(content: string)

  /** The keys a branch or answer node returns; `None` for a key it does not
      return. `note` is the assistant message it appends to the history. */
  datatype Update = Update(
    searchResults: Option<string>,
    step: Step,
    toolOutput: Option<Tool>,
    finalAnswer: Option<string>,
    note: Option<string>)

  // ---------------------------------------------------------------- receive_input_node

  /** The position of the last human message, if there is one. */
  function LatestHumanIndex(messages: seq<Message>): (r: Option<nat>)
    ensures r.None? ==> forall k :: 0 <= k < |messages| ==> !messages[k].Human?
    ensures r.Some? ==> r.value < |messages| && messages[r.value].Human?
                        && forall j :: r.value < j < |messages| ==> !messages[j].Human?
  {
    if messages == [] then None
    else if messages[|messages| - 1].Human? then Some(|messages| - 1)
    else
      var earlier := messages[..|messages| - 1];
      assert forall k :: 0 <= k < |earlier| ==> earlier[k] == messages[k];
      LatestHumanIndex(earlier)
  }

  /** The content of the last human message, if there is one. */
  function LatestHuman(messages: seq<Message>): Option<string>
  {
    match LatestHumanIndex(messages)
    case Some(k) => Some(messages[k].content)
    case None => None
  }

  /** `receive_input_node`: scan the history backwards for the latest human
      message; if there is none, or it is empty, use the state's `user_query`
      (empty when absent). The chosen text is appended as a human message. */
  method ReceiveInput(messages: seq<Message>, userQuery: Option<string>)
    returns (query: string, history: seq<Message>, step: Step)
    ensures LatestHuman(messages).Some? && LatestHuman(messages).value != "" ==> query == LatestHuman(messages).value
    ensures LatestHuman(messages).None? || LatestHuman(messages).value == "" ==> query == userQuery.GetOr("")
    ensures history == messages + [Human(query)] && step == ReceivedInput
  {
    var userMessage := "";
    var i := |messages|;
    while i > 0
      invariant 0 <= i <= |messages|
      invariant LatestHumanIndex(messages) == LatestHumanIndex(messages[..i])
      invariant userMessage == ""
    {
      i := i - 1;
      ghost var upto := messages[..i + 1];
      assert upto[..i] == messages[..i] && upto[i] == messages[i];
      if messages[i].Human? {
        userMessage := messages[i].content;
        assert LatestHumanIndex(upto) == Some(i);
        break;
      }
      assert LatestHumanIndex(upto) == LatestHumanIndex(messages[..i]);
    }
    assert i == 0 && userMessage == "" ==> messages[..i] == [];
    if userMessage == "" {
      userMessage := userQuery.GetOr("");
    }
    query := userMessage;
    history := messages + [Human(query)];
    step := ReceivedInput;
  }

  // ---------------------------------------------------------------- direct_answer_node

  /** `direct_answer_node` once the backend has answered with `content`. */
  function DirectAnswer(content: string): (u: Update)
    ensures u.step == AnsweredDirectly && u.finalAnswer == Some(content) && u.note == Some(content)
    ensures u.searchResults.None? && u.toolOutput.None?
  {
    Update(None, AnsweredDirectly, None, Some(content), Some(content))
  }

  // ---------------------------------------------------------------- search_node

  /** `not state.get("search_needed", True)` */
  predicate SearchSkipped(searchNeeded: Option<bool>)
  {
    searchNeeded == Some(false)
  }

  /** The search digest handed on is cut to 1000 characters plus a marker. */
  function TruncateDigest(s: string): (r: string)
    ensures |s| <= 1000 ==> r == s
    ensures |s| > 1000 ==> r == s[..1000] + "...\n(内容已截断)"
  {
    Truncate(s, 1000, "...\n(内容已截断)")
  }

  /** `search_node`: skipped, with empty results, when the decision turned
      the search flag off; otherwise the truncated `web_search` text, and the
      tool recorded becomes `web_search`. */
  method SearchNode(searchNeeded: Option<bool>, configured: bool, reply: SearchReply) returns (u: Update)
    ensures SearchSkipped(searchNeeded) ==> u == Update(Some(""), SkippedSearch, None, None, Some("无需搜索，直接回答"))
    ensures !SearchSkipped(searchNeeded) ==>
      u == Update(Some(TruncateDigest(SearchText(configured, reply))), Searched, Some(WebSearch), None,
                  Some("✅ 搜索完成，获取到最新信息"))
  {
    if !searchNeeded.GetOr(true) {
      return Update(Some(""), SkippedSearch, None, None, Some("无需搜索，直接回答"));
    }
    var searchResults := Search(configured, reply);
    if |searchResults| > 1000 {
      searchResults := searchResults[..1000] + "...\n(内容已截断)";
    }
    u := Update(Some(searchResults), Searched, Some(WebSearch), None, Some("✅ 搜索完成，获取到最新信息"));
  }

  // ---------------------------------------------------------------- tool_node

  /** A tool's output is cut to 800 characters plus a marker. */
  function TruncateToolOutput(s: string): (r: string)
    ensures |s| <= 800 ==> r == s
    ensures |s| > 800 ==> r == s[..800] + "...\n(结果已截断)"
  {
    Truncate(s, 800, "...\n(结果已截断)")
  }

  /** `tool_node`: dispatch on the recorded tool (default `none`). The
      calculator gets the stripped leftmost arithmetic run of the query, or
      the whole query; the clock tool formats `clock`; every other value,
      `none` and unknown names included, runs the web search on the query. */
  method ToolNode(toolOutput: Option<Tool>, userQuery: string, eval: string -> Option<string>,
                  clock: Clock, configured: bool, reply: SearchReply) returns (u: Update)
    requires clock.weekday < 7
    ensures u.step == ToolsExecuted && u.toolOutput == Some(toolOutput.GetOr(NoTool))
    ensures u.finalAnswer.None? && u.note == Some("工具执行完成")
    ensures toolOutput.GetOr(NoTool) == Calculator ==>
      u.searchResults == Some(TruncateToolOutput(Calculate(CalculatorInput(userQuery), eval)))
    ensures toolOutput.GetOr(NoTool) == DateTime ==>
      u.searchResults == Some(TruncateToolOutput(Report(Items(clock))))
    ensures toolOutput.GetOr(NoTool) != Calculator && toolOutput.GetOr(NoTool) != DateTime ==>
      u.searchResults == Some(TruncateToolOutput(SearchText(configured, reply)))
  {
    var toolNeeded := toolOutput.GetOr(NoTool);
    var result := "";
    if toolNeeded.Calculator? {
      var expressionMatch := ExpressionMatch(userQuery);
      if expressionMatch.Some? {
        var expression := Strip(expressionMatch.value);
        result := Calculate(expression, eval);
      } else {
        result := Calculate(userQuery, eval);
      }
    } else if toolNeeded.DateTime? {
      result := DateTimeInfo(clock);
    } else if toolNeeded.WebSearch? {
      result := Search(configured, reply);
    } else {
      result := Search(configured, reply);
    }
    if |result| > 800 {
      result := result[..800] + "...\n(结果已截断)";
    }
    u := Update(Some(result), ToolsExecuted, Some(toolNeeded), None, Some("工具执行完成"));
  }

  // ---------------------------------------------------------------- generate_final_answer_node

  /** What the answer-generation call produced. */
  datatype AnswerReply = Answered(content: string) | AnswerRaised(error: string)

  const Apology := "抱歉，无法回答这个问题。"

  function Footer(toolName: string): string
  {
    "\n\n---\nℹ️ 本次使用了 " + toolName + " 工具获取信息"
  }

  /** The recorded tool (default the empty string) is neither empty nor "none". */
  predicate CreditsTool(toolOutput: Option<Tool>)
  {
    toolOutput.Some? && ToolName(toolOutput.value) != "" && ToolName(toolOutput.value) != "none"
  }

  /** `generate_final_answer_node`. After a direct answer the state's answer
      is passed through (the apology when absent) and nothing is appended to
      the history; otherwise the generated answer gets the footer naming the
      recorded tool exactly when one is credited, and a failed call becomes an
      apology carrying the error. */
  function GenerateFinalAnswer(step: Step, finalAnswer: Option<string>, toolOutput: Option<Tool>, reply: AnswerReply): (u: Update)
    ensures step == AnsweredDirectly ==> u == Update(None, Completed, None, Some(finalAnswer.GetOr(Apology)), None)
    ensures step != AnsweredDirectly && reply.Answered? ==>
      && u.searchResults.None? && u.step == Completed && u.toolOutput.None?
      && u.finalAnswer.Some? && u.note == u.finalAnswer
      && StartsWith(u.finalAnswer.value, reply.content)
      && (CreditsTool(toolOutput) ==> u.finalAnswer.value[|reply.content|..] == Footer(ToolName(toolOutput.value)))
      && (!CreditsTool(toolOutput) ==> u.finalAnswer.value == reply.content)
    ensures step != AnsweredDirectly && reply.AnswerRaised? ==>
      u == Update(None, Error, None, Some("抱歉，生成回答时遇到问题。错误信息: " + reply.error), Some("生成回答时遇到问题"))
  {
    if step == AnsweredDirectly then
      Update(None, Completed, None, Some(finalAnswer.GetOr(Apology)), None)
    else match reply
      case Answered(content) =>
        var answer := if CreditsTool(toolOutput) then content + Footer(ToolName(toolOutput.value)) else content;
        assert answer[..|content|] == content;
        Update(None, Completed, None, Some(answer), Some(answer))
      case AnswerRaised(e) =>
        Update(None, Error, None, Some("抱歉，生成回答时遇到问题。错误信息: " + e), Some("生成回答时遇到问题"))
  }

  // ---------------------------------------------------------------- across nodes

  /** A direct answer reaches the user unchanged, with no footer and no
      second backend call, whatever that call would have returned. */
  lemma DirectAnswerPassesThrough(content: string, toolOutput: Option<Tool>, reply: AnswerReply)
    ensures var d := DirectAnswer(content);
      GenerateFinalAnswer(d.step, d.finalAnswer, toolOutput, reply).finalAnswer == Some(content)
  {
  }

  /** The footer names a tool exactly when the recorded tool is a known one
      other than `none`, or an unknown non-empty name. */
  lemma CreditsToolExactly(t: Tool)
    ensures CreditsTool(Some(t)) <==> t != NoTool && t != OtherTool("")
  {
  }

  /** A decoded decision that asks to search first while naming another tool
      (say the calculator) reaches the search node with the search flag off,
      so nothing is searched and the results are empty; the tool named by the
      decision stays recorded and the answer's footer still credits it. */
  lemma SkippedSearchStillCredited(userQuery: string, d: Decision, content: string)
    requires d.nextAction == Some(SearchFirst) && d.toolNeeded.Some?
    requires d.toolNeeded.value !in {WebSearch, NoTool, OtherTool("")}
    ensures var o := DecideAction(userQuery, Reply(Some(d)));
      && Route(Some(o.nextAction)) == SearchBranch
      && SearchSkipped(Some(o.searchNeeded))
      && GenerateFinalAnswer(SkippedSearch, None, Some(o.toolOutput), Answered(content)).finalAnswer
         == Some(content + Footer(ToolName(d.toolNeeded.value)))
  {
    var o := DecideAction(userQuery, Reply(Some(d)));
    assert o.toolOutput == d.toolNeeded.value;
    CreditsToolExactly(o.toolOutput);
  }

  /** On the keyword fallback the search branch is only ever taken with the
      search flag on, and the answer then credits `web_search`. */
  lemma FallbackSearchRuns(userQuery: string, content: string)
    requires OccursAny(SearchKeywords, userQuery)
    ensures var o := DecideAction(userQuery, Reply(None));
      && Route(Some(o.nextAction)) == SearchBranch
      && !SearchSkipped(Some(o.searchNeeded))
      && o.searchQuery == userQuery
      && GenerateFinalAnswer(Searched, None, Some(WebSearch), Answered(content)).finalAnswer
         == Some(content + Footer("web_search"))
  {
    FallbackRoutes(userQuery);
  }

  /** A decoded `use_tools` decision without a tool name routes to the tool
      node with `none` recorded and the search flag off, and the answer
      credits nothing. */
  lemma ToolsWithoutToolCreditsNothing(userQuery: string, d: Decision, content: string)
    requires d.nextAction == Some(UseTools) && d.toolNeeded.None?
    ensures var o := DecideAction(userQuery, Reply(Some(d)));
      && Route(Some(o.nextAction)) == ToolsBranch
      && o.toolOutput == NoTool
      && !o.searchNeeded
      && GenerateFinalAnswer(ToolsExecuted, None, Some(o.toolOutput), Answered(content)).finalAnswer == Some(content)
  {
  }
}
