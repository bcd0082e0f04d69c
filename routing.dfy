/** The decision step (`decide_action_node`, Agent.py:167-267) without its
    model call, and the router (`router_node`, Agent.py:432-447).

    The reasoning backend's reply enters as a `DecisionReply`: either the call
    raised, or it returned text that `json.loads` either decoded into a
    decision object or rejected. The decision's string fields are modelled as
    datatypes with a case for every other string. */
module Routing {
  import opened Wrappers
  import opened Text

  /** A `next_action` string: one of the three names the router compares
      against, or any other string. */
  datatype ActionText = AnswerDirectly | SearchFirst | UseTools | OtherAction(name: string)

  /** A `tool_needed` string, also kept in the state as `tool_output`: one of
      the four names the nodes compare against, or any other string. */
  datatype ToolText = Calculator | DateTime | WebSearch | NoTool | OtherTool(name: string)

  /** An `OtherAction` never carries one of the three known names. */
  predicate CanonicalAction(a: ActionText)
  {
    a.OtherAction? ==> a.name != "answer_directly" && a.name != "search_first" && a.name != "use_tools"
  }

  /** An `OtherTool` never carries one of the four known names. */
  predicate CanonicalTool(t: ToolText)
  {
    t.OtherTool? ==> t.name != "calculator" && t.name != "date_time" && t.name != "web_search" && t.name != "none"
  }

  /** The `next_action` field: each string has exactly one value, so comparing
      values is comparing the strings. */
  type NextAction = a: ActionText | CanonicalAction(a) witness AnswerDirectly

  /** The `tool_needed` field, with the same one value per string. */
  type Tool = t: ToolText | CanonicalTool(t) witness NoTool

  function ActionName(a: NextAction): string
  {
    match a
    case AnswerDirectly => "answer_directly"
    case SearchFirst => "search_first"
    case UseTools => "use_tools"
    case OtherAction(name) => name
  }

  function ParseAction(s: string): (a: NextAction)
    ensures ActionName(a) == s
  {
    if s == "answer_directly" then AnswerDirectly
    else if s == "search_first" then SearchFirst
    else if s == "use_tools" then UseTools
    else OtherAction(s)
  }

  lemma ActionRoundTrip(a: NextAction)
    ensures ParseAction(ActionName(a)) == a
  {
  }

  function ToolName(t: Tool): string
  {
    match t
    case Calculator => "calculator"
    case DateTime => "date_time"
    case WebSearch => "web_search"
    case NoTool => "none"
    case OtherTool(name) => name
  }

  function ParseTool(s: string): (t: Tool)
    ensures ToolName(t) == s
  {
    if s == "calculator" then Calculator
    else if s == "date_time" then DateTime
    else if s == "web_search" then WebSearch
    else if s == "none" then NoTool
    else OtherTool(s)
  }

  lemma ToolRoundTrip(t: Tool)
    ensures ParseTool(ToolName(t)) == t
  {
  }

  /** A decoded decision object; a field is `None` when its key is absent.
      The `reason` field is only logged and is left out. */
  datatype Decision = Decision(
    analysis: Option<string>,
    nextAction: Option<NextAction>,
    searchQuery: Option<string>,
    toolNeeded: Option<Tool>)

  /** What the backend call produced: it raised, or its text was or was not JSON. */
  datatype DecisionReply = CallFailed | Reply(decoded: Option<Decision>)

  /** The state's `step` tag, as the nodes set it. */
  datatype Step =
    | ReceivedInput | DecidedAction | AnsweredDirectly | SkippedSearch
    | Searched | ToolsExecuted | Completed | Error

  /** What `decide_action_node` writes into the state. */
  datatype Outcome = Outcome(
    step: Step,
    nextAction: NextAction,
    searchNeeded: bool,
    searchQuery: string,
    toolOutput: Tool,
    note: string)

  const SearchKeywords: seq<string> :=
    ["最新", "新闻", "实时", "今天", "现在", "搜索", "查一下",
     "如何", "怎样", "2025", "股价", "天气", "行情", "新冠"]
  const ToolKeywords: seq<string> := ["计算", "等于", "+", "-", "*", "/", "加", "减", "乘", "除"]
  const TimeKeywords: seq<string> := ["时间", "日期", "星期", "几号", "年月日"]

  /** The keyword classifier used when the reply is not JSON. The query is
      matched as is: no keyword has a cased character, so `.lower()` cannot
      create or destroy a match. Search keywords are tried first, then
      arithmetic keywords, then time keywords; the first set that matches wins. */
  function KeywordDecision(query: string): (d: Decision)
    ensures d.analysis == Some("自动分析")
    ensures d.nextAction == Some(SearchFirst) <==> OccursAny(SearchKeywords, query)
    ensures d.nextAction == Some(SearchFirst) ==> d.searchQuery == Some(query) && d.toolNeeded == Some(WebSearch)
    ensures d.toolNeeded == Some(Calculator)
      <==> !OccursAny(SearchKeywords, query) && OccursAny(ToolKeywords, query)
    ensures d.toolNeeded == Some(DateTime)
      <==> !OccursAny(SearchKeywords, query) && !OccursAny(ToolKeywords, query) && OccursAny(TimeKeywords, query)
    ensures d.nextAction == Some(UseTools) <==> d.toolNeeded == Some(Calculator) || d.toolNeeded == Some(DateTime)
    ensures d.nextAction == Some(AnswerDirectly)
      <==> !OccursAny(SearchKeywords, query) && !OccursAny(ToolKeywords, query) && !OccursAny(TimeKeywords, query)
    ensures d.nextAction != Some(SearchFirst) ==> d.searchQuery == None
    ensures d.nextAction == Some(AnswerDirectly) ==> d.toolNeeded == Some(NoTool)
  {
    var base := Decision(Some("自动分析"), None, None, Some(NoTool));
    if OccursAny(SearchKeywords, query) then
      base.(nextAction := Some(SearchFirst), searchQuery := Some(query), toolNeeded := Some(WebSearch))
    else if OccursAny(ToolKeywords, query) then
      base.(nextAction := Some(UseTools), toolNeeded := Some(Calculator))
    else if OccursAny(TimeKeywords, query) then
      base.(nextAction := Some(UseTools), toolNeeded := Some(DateTime))
    else
      base.(nextAction := Some(AnswerDirectly))
  }

  /** Reading the decision's fields with their defaults (Agent.py:238-241). */
  function Extract(d: Decision, userQuery: string): (o: Outcome)
    ensures o.step == DecidedAction
    ensures o.nextAction == d.nextAction.GetOr(AnswerDirectly)
    ensures o.searchQuery == d.searchQuery.GetOr(userQuery)
    ensures o.toolOutput == d.toolNeeded.GetOr(NoTool)
    ensures o.searchNeeded <==> (o.nextAction == SearchFirst || o.nextAction == UseTools) && o.toolOutput == WebSearch
    ensures o.note == "决策结果：" + d.analysis.GetOr("")
  {
    var next := d.nextAction.GetOr(AnswerDirectly);
    Outcome(DecidedAction,
            next,
            (next == SearchFirst || next == UseTools) && d.toolNeeded == Some(WebSearch),
            d.searchQuery.GetOr(userQuery),
            d.toolNeeded.GetOr(NoTool),
            "决策结果：" + d.analysis.GetOr(""))
  }

  /** `decide_action_node` with the backend's reply as a parameter. A failed
      call falls back to answering directly without any tool. */
  function DecideAction(userQuery: string, reply: DecisionReply): (o: Outcome)
    ensures o.step == DecidedAction
    ensures reply == CallFailed ==>
      o == Outcome(DecidedAction, AnswerDirectly, false, userQuery, NoTool, "使用默认决策：直接回答")
    ensures reply == Reply(None) ==> o == Extract(KeywordDecision(userQuery), userQuery)
    ensures reply == Reply(None) ==> o.searchQuery == userQuery && o.note == "决策结果：自动分析"
    ensures reply.Reply? && reply.decoded.Some? ==> o == Extract(reply.decoded.value, userQuery)
  {
    match reply
    case CallFailed => Outcome(DecidedAction, AnswerDirectly, false, userQuery, NoTool, "使用默认决策：直接回答")
    case Reply(Some(d)) => Extract(d, userQuery)
    case Reply(None) => Extract(KeywordDecision(userQuery), userQuery)
  }

  /** The three successors of the decision step. */
  datatype Branch = DirectAnswerBranch | SearchBranch | ToolsBranch

  function BranchName(b: Branch): string
  {
    match b
    case DirectAnswerBranch => "direct_answer"
    case SearchBranch => "search"
    case ToolsBranch => "tools"
  }

  /** `router_node`: the state's `next_action`, defaulting to `answer_directly`,
      selects the branch; every value other than the two named ones answers
      directly. */
  function Route(nextAction: Option<NextAction>): (b: Branch)
    ensures b == SearchBranch <==> nextAction == Some(SearchFirst)
    ensures b == ToolsBranch <==> nextAction == Some(UseTools)
    ensures b == DirectAnswerBranch <==> nextAction != Some(SearchFirst) && nextAction != Some(UseTools)
  {
    match nextAction.GetOr(AnswerDirectly)
    case AnswerDirectly => DirectAnswerBranch
    case SearchFirst => SearchBranch
    case UseTools => ToolsBranch
    case OtherAction(_) => DirectAnswerBranch
  }

  /** Whatever the backend replies, the decision selects one branch, and the
      search flag is only ever set when that branch is search or tools. */
  lemma SearchNeededOnlyOffDirect(userQuery: string, reply: DecisionReply)
    ensures var o := DecideAction(userQuery, reply);
      o.searchNeeded ==> Route(Some(o.nextAction)) != DirectAnswerBranch
  {
  }

  /** The keyword fallback: the search flag is set exactly when it routes to
      search, and the search uses the whole query; the three routes follow
      the keyword priority. */
  lemma {:induction false} FallbackRoutes(userQuery: string)
    ensures var o := DecideAction(userQuery, Reply(None));
      && (o.searchNeeded <==> Route(Some(o.nextAction)) == SearchBranch)
      && o.searchQuery == userQuery
      && (Route(Some(o.nextAction)) == SearchBranch <==> OccursAny(SearchKeywords, userQuery))
      && (Route(Some(o.nextAction)) == ToolsBranch
          <==> !OccursAny(SearchKeywords, userQuery)
               && (OccursAny(ToolKeywords, userQuery) || OccursAny(TimeKeywords, userQuery)))
      && (o.toolOutput == Calculator <==> !OccursAny(SearchKeywords, userQuery) && OccursAny(ToolKeywords, userQuery))
      && (o.toolOutput == DateTime
          <==> !OccursAny(SearchKeywords, userQuery) && !OccursAny(ToolKeywords, userQuery)
               && OccursAny(TimeKeywords, userQuery))
  {
    var d := KeywordDecision(userQuery);
    var o := Extract(d, userQuery);
    assert o.nextAction == SearchFirst <==> d.nextAction == Some(SearchFirst);
    assert o.nextAction == UseTools <==> d.nextAction == Some(UseTools);
  }

  /** A failed backend call ends where the fallback ends for a query without
      any keyword, except for the message it records. */
  lemma CallFailedLikeNoKeyword(userQuery: string)
    requires !OccursAny(SearchKeywords, userQuery) && !OccursAny(ToolKeywords, userQuery)
    requires !OccursAny(TimeKeywords, userQuery)
    ensures DecideAction(userQuery, CallFailed).(note := "") == DecideAction(userQuery, Reply(None)).(note := "")
  {
  }

  /** Search keywords take priority over time keywords: "今天星期几？" holds both
      "今天" and "星期" and is routed to search, not to the clock. */
  lemma SearchBeatsTime()
    ensures var o := DecideAction("今天星期几？", Reply(None));
      Route(Some(o.nextAction)) == SearchBranch && o.toolOutput == WebSearch && o.searchNeeded
  {
    assert Occurs(SearchKeywords[3], "今天星期几？") by {
      assert StartsWith("今天星期几？"[0..], "今天");
    }
  }

  /** "2025" is a search keyword, so a date question naming that year searches. */
  lemma YearQuerySearches()
    ensures DecideAction("2025年的春节是几月几号？", Reply(None)).nextAction == SearchFirst
  {
    assert Occurs(SearchKeywords[9], "2025年的春节是几月几号？") by {
      assert StartsWith("2025年的春节是几月几号？"[0..], "2025");
    }
  }

  /** A decoded decision that asks to search first but names another tool
      routes to the search branch with the search flag off. */
  lemma SearchFirstWithoutWebSearch(userQuery: string, d: Decision)
    requires d.nextAction == Some(SearchFirst) && d.toolNeeded != Some(WebSearch)
    ensures var o := DecideAction(userQuery, Reply(Some(d)));
      Route(Some(o.nextAction)) == SearchBranch && !o.searchNeeded
  {
  }
}
