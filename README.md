# Routing and shaping helpers of the travel-agent assistant

`Agent.py` is a LangGraph agent. It asks a chat model whether a user's
question should be answered directly, searched on the web (Tavily) or handed
to a tool (a calculator or a clock). Then it asks the model again for the
final answer. This project models the deterministic part of that agent in
Dafny: everything that decides and shapes the data passed between the two
network services. The replies of those services are parameters.

- `Routing` (`routing.dfy`): the decision step `decide_action_node`. This
  covers the keyword classifier used when the model's reply is not JSON, the
  reading of the decision's fields with their defaults, the `search_needed`
  flag and the failure default. It also covers the three-way `router_node`.
  `next_action` and `tool_needed` are datatypes with a case for any other
  string. A subset type keeps that case off the known names, so each string
  has exactly one value. The decoded reply is an `Option<Decision>` whose fields are
  optional.
- `CalculatorTool` (`calculator.dfy`): how `tool_node` finds the arithmetic
  run in the query, and how `calculator` sanitises it and rejects an empty
  expression.
- `WebSearchTool` (`websearch.dfy`): the digest that `web_search` builds from
  a response. It holds an optional answer, then at most three numbered hits
  with default texts for missing fields and hit content cut to 200
  characters. When the response has neither, it is replaced by a
  "nothing found" text. The digest is built by a loop proved equal to its
  functional definition.
- `DateTimeTool` (`datetime.dfy`): the Gregorian leap-year flag, the weekday
  table, and the report loop of `date_time_info`.
- `Nodes` (`nodes.dfy`): `receive_input_node`'s backward scan for the latest
  human message, `direct_answer_node`, `search_node` with its skip rule and
  1000-character cut, and `tool_node`'s dispatch with its 800-character cut.
  It also has the pass-through and provenance footer of
  `generate_final_answer_node`, and lemmas that follow one decision through
  the nodes.
- `Text` and `Wrappers`: whitespace, `strip`, substring search, truncation
  with a marker, `str(n)`, and `Option`.

Assumptions:

- Whitespace is the set of characters for which Python's `str.isspace()`
  holds. This is the set that `\s` matches in a `str` pattern and that
  `strip()` removes.
- Digits are the ASCII digits `0`..`9`. Python's `\d` also matches other
  Unicode decimal digits.
- `.lower()` on the query is taken as the identity. No keyword contains a
  cased character, so lower-casing can neither create nor destroy a match.

Behaviour as written, which the model follows:

- The calculator gets the leftmost run of allowed characters, not the longest
  one. In "what is 2+2" that run is the single space after "what", so the
  calculator reports an empty expression
  (`CalculatorTool.EnglishQueryIsRejected`).
- The footer credits whatever tool name the state records, whether or not
  that tool ran. A decoded decision "search_first" with a tool other than
  `web_search` routes to the search node, which skips the search. The answer
  still names that tool (`Nodes.SkippedSearchStillCredited`).
- A skipped search leaves the search results empty on a non-direct route.
- The tool node's web search goes through `web_search`, which itself adds the
  date to the query.
- The weekday table is indexed 0 (Monday, 一) to 6 (Sunday, 日).

## Model

| member | source | states |
|---|---|---|
| `Routing.ParseAction` | Agent.py:440-446 | every `next_action` string maps to the one action whose name is that string |
| `Routing.ActionRoundTrip` | Agent.py:440-446 | every action survives naming and parsing back |
| `Routing.ParseTool` | Agent.py:336-352 | every `tool_needed` string maps to the one tool whose name is that string |
| `Routing.ToolRoundTrip` | Agent.py:336-352 | every tool survives naming and parsing back |
| `Routing.KeywordDecision` | Agent.py:210-235 | the fallback searches iff a search keyword occurs (then search query = query, tool = web_search); it uses the calculator iff no search keyword and an arithmetic keyword occur; it uses the clock iff only a time keyword occurs; it answers directly iff none occurs |
| `Routing.Extract` | Agent.py:237-241 | the step becomes decided_action; missing fields default to answer_directly, the user query and none; `search_needed` holds iff the action is search_first or use_tools and the tool is web_search |
| `Routing.DecideAction` | Agent.py:203-267 | the step becomes decided_action; a failed call answers directly with no tool and no search, and appends the default-decision note; a non-JSON reply is the keyword classifier's decision read with the same defaults, its search query being the user query; a decoded reply is read field by field |
| `Routing.Route` | Agent.py:432-447 | search iff next_action is search_first, tools iff use_tools, direct answer for every other or missing value |
| `Routing.SearchNeededOnlyOffDirect` | Agent.py:238-241 | whatever the reply, the search flag is set only when the route is not the direct answer |
| `Routing.FallbackRoutes` | Agent.py:219-241 | on the fallback the flag is set iff the route is search; the route is search iff a search keyword occurs; it is tools iff no search keyword and an arithmetic or time keyword occur; the tool is the calculator iff an arithmetic but no search keyword occurs, and the clock iff only a time keyword occurs |
| `Routing.CallFailedLikeNoKeyword` | Agent.py:257-267 | a failed call ends where the fallback ends for a query without keywords |
| `Routing.SearchBeatsTime` | Agent.py:219-235 | "今天星期几？" (holding 今天 and 星期) routes to search with web_search |
| `Routing.YearQuerySearches` | Agent.py:219-225 | a question naming 2025 routes to search_first |
| `Routing.SearchFirstWithoutWebSearch` | Agent.py:238-241 | search_first with a tool other than web_search routes to search with the flag off |
| `CalculatorTool.ExpressionMatch` | Agent.py:338-339 | no match iff no allowed character; otherwise the match is a non-empty slice of allowed characters, has no allowed character before it, and is not followed by one |
| `CalculatorTool.Sanitise` | Agent.py:114 | the result holds only allowed characters and is no longer than the input |
| `CalculatorTool.SanitiseIsSubsequence` | Agent.py:114 | the sanitised string is a subsequence of the input |
| `CalculatorTool.SanitiseCounts` | Agent.py:114 | each allowed character is kept as often as it occurs, every other is dropped |
| `CalculatorTool.SanitiseAppend` | Agent.py:114 | sanitising distributes over concatenation |
| `CalculatorTool.SanitiseKeepsAllowed` | Agent.py:114 | a string of allowed characters is unchanged |
| `CalculatorTool.SanitiseIdempotent` | Agent.py:114 | sanitising twice is sanitising once |
| `CalculatorTool.Calculate` | Agent.py:110-124 | a whitespace-only sanitised expression gives the fixed error; a non-blank expression that evaluates gives exactly "计算结果: <sanitised> = <value>", and the answer starts with that echo only then; a failed evaluation gives the other fixed error |
| `CalculatorTool.EchoesExtractedExpression` | Agent.py:338-341 | for a non-blank extracted run that evaluates, the calculator's left-hand side is exactly the stripped run |
| `CalculatorTool.NoMatchIsRejected` | Agent.py:342-344 | a query with no allowed character is passed whole and rejected as empty |
| `CalculatorTool.SpaceRunIsRejected` | Agent.py:338-341 | a whitespace-only first run strips to nothing and is rejected |
| `CalculatorTool.EnglishQueryIsRejected` | Agent.py:338-341 | "what is 2+2" is rejected as an empty expression |
| `CalculatorTool.ChineseQueryExtractsExpression` | Agent.py:338-340 | "计算 25 * 4 + 100" hands "25 * 4 + 100" to the calculator |
| `Text.Strip` | Agent.py:340 | the result is a slice of the input with only whitespace removed at both ends; it neither starts nor ends with whitespace; it is empty iff the input is all whitespace |
| `Text.Truncate` | Agent.py:97-98 | at most `limit` characters are kept unchanged; a longer string becomes its first `limit` characters followed by the marker |
| `Text.Decimal` | Agent.py:99 | `str(n)` is non-empty, all digits, without a leading zero |
| `Text.DecimalRoundTrip` | Agent.py:138 | reading the digits of `str(n)` gives back n |
| `WebSearchTool.TruncateContent` | Agent.py:96-98 | content of at most 200 characters is kept, longer content becomes its first 200 characters and "..." |
| `WebSearchTool.FirstHits` | Agent.py:92 | `results[:3]`: a prefix of at most three hits, exactly three when there are that many |
| `WebSearchTool.MissingFieldsUseDefaults` | Agent.py:93-95 | a missing title, content or url renders as 无标题, 无内容, 无链接 |
| `WebSearchTool.EntriesConcat` | Agent.py:92-99 | the entries of two runs are the first run's entries followed by the second's, numbered on |
| `WebSearchTool.EntriesAppend` | Agent.py:92-99 | appending a hit appends its entry numbered after the earlier ones |
| `WebSearchTool.EntriesOrder` | Agent.py:92-99 | hit k appears numbered first + k between the entries of the hits before and after it |
| `WebSearchTool.OnlyFirstThreeShown` | Agent.py:92 | results after the third never change the digest |
| `WebSearchTool.NotFoundExactlyWhenEmpty` | Agent.py:101-102 | the digest is the "nothing found" text iff there is neither answer nor result; it is never empty |
| `WebSearchTool.AnswerComesFirst` | Agent.py:86-87 | the digest starts with the answer heading iff there is a non-empty answer, and then with the whole answer section |
| `WebSearchTool.RenderHits` | Agent.py:92-99 | the loop's text equals the numbered entries of the hits |
| `WebSearchTool.BuildDigest` | Agent.py:83-104 | the accumulated text equals the digest of the response |
| `WebSearchTool.Search` | Agent.py:62-107 | an unconfigured client gives the fixed message, a raised call the failure text, a response its digest |
| `DateTimeTool.LeapExamples` | Agent.py:139 | 2000 and 2024 are leap years, 1900 and 2023 are not |
| `DateTimeTool.LeapYearsBelowClosedForm` | Agent.py:139 | the number of leap years below n is ⌈n/4⌉ − ⌈n/100⌉ + ⌈n/400⌉ |
| `DateTimeTool.LeapYearsPer400` | Agent.py:139 | every 400 consecutive years hold exactly 97 leap years |
| `DateTimeTool.LeapFlag` | Agent.py:139 | the flag is 是 iff the year is a Gregorian leap year, else 否 |
| `DateTimeTool.WeekdayIndex` | Agent.py:136 | a name found in the table is the name of its index; a name not found is no weekday's name |
| `DateTimeTool.WeekdayTable` | Agent.py:136 | index 0..6 maps to seven distinct names, 一 first and 日 last |
| `DateTimeTool.Items` | Agent.py:133-140 | the info dictionary has six entries |
| `DateTimeTool.LinesConcat` | Agent.py:143-144 | the lines of two item runs are the first run's lines followed by the second's |
| `DateTimeTool.LinesAppend` | Agent.py:143-144 | appending an item appends its line |
| `DateTimeTool.LinesOrder` | Agent.py:143-144 | each item's line sits between the lines of the items before and after it |
| `DateTimeTool.ReportNamesWeekday` | Agent.py:136-144 | the report contains the weekday line |
| `DateTimeTool.ReportEndsWithLeapFlag` | Agent.py:139-144 | the report ends with the leap-year line |
| `DateTimeTool.DateTimeInfo` | Agent.py:142-146 | the accumulated text equals the header followed by one line per info item |
| `Nodes.LatestHumanIndex` | Agent.py:153-156 | none iff no human message; otherwise a human message with no human message after it |
| `Nodes.ReceiveInput` | Agent.py:149-165 | the query is the latest human message if it is non-empty, else the state's user query (default empty); an earlier human message is never used; the history gains the query as a human message and the step becomes received_input |
| `Nodes.DirectAnswer` | Agent.py:286-290 | the answer is recorded as the final answer and as the appended message, with step answered_directly |
| `Nodes.TruncateDigest` | Agent.py:308-309 | at most 1000 characters are kept unchanged, a longer digest becomes its first 1000 characters and the "(内容已截断)" marker |
| `Nodes.SearchNode` | Agent.py:295-316 | a false search flag skips the search with empty results and no tool change; otherwise the cut digest is stored and web_search is recorded |
| `Nodes.TruncateToolOutput` | Agent.py:357-358 | at most 800 characters are kept unchanged, a longer output becomes its first 800 characters and the "(结果已截断)" marker |
| `Nodes.ToolNode` | Agent.py:326-368 | calculator gets the stripped match or the query; date_time formats the clock; every other selector searches; the output is cut at 800 and the selector recorded |
| `Nodes.GenerateFinalAnswer` | Agent.py:370-430 | after a direct answer the stored answer (or the apology) passes through unchanged; otherwise the node returns only the step completed and the reply, which gets the footer naming the tool iff it is credited; a failed call gives the apology with the error |
| `Nodes.DirectAnswerPassesThrough` | Agent.py:374-380 | a direct answer reaches the user unchanged whatever the second call would return |
| `Nodes.CreditsToolExactly` | Agent.py:413-414 | the footer is added iff the recorded tool is neither none nor empty |
| `Nodes.SkippedSearchStillCredited` | Agent.py:413-415 | search_first with a non-search tool skips the search yet the footer names that tool |
| `Nodes.FallbackSearchRuns` | Agent.py:295-315 | on the fallback the search route always searches with the user query and the answer credits web_search |
| `Nodes.ToolsWithoutToolCreditsNothing` | Agent.py:352-354 | use_tools without a tool name routes to the tool node with none recorded and the search flag off, and the answer gets no footer |

## Left out

- The chat-model calls and their prompts (Agent.py:172-204, 272-284, 383-410). They are network calls, so each reply is a parameter.
- `json.loads` (Agent.py:208) is replaced by the decoded `Option<Decision>`. Decision fields are strings. A JSON value of another type, or a top-level value that is not an object, is not modelled. The `reason` field is only printed and is left out.
- The Tavily client and its `search` call (Agent.py:46-80), including the query with today's date appended. Its outcome is a `SearchReply` plus a flag for whether a key is configured, so the search query itself does not appear in the model.
- Null values in a search hit (Agent.py:93-97). A `Hit` field is `None` only when its key is absent; a present title, content or url is taken to be a string. A null title would be rendered as "None", and a null content would make `len` raise, which `web_search` turns into its failure text (Agent.py:106-107).
- The arithmetic `eval` (Agent.py:121) is a parameter from the sanitised expression to the text of its value. Python's operator semantics are not modelled.
- The clock (Agent.py:132-138): `datetime.now()`, `strftime` and the locale month name. The date, time and month texts, the year and the weekday index are inputs.
- The outer `except` branches of `calculator` (Agent.py:126-127), `search_node` (Agent.py:317-324) and `tool_node` (Agent.py:360-361), so the `search_failed` step is never produced. `calculator` and `web_search` catch their own errors. `date_time_info` has no `try` (Agent.py:129-146), but the only things it does that could raise are the clock and locale calls, which are inputs here. What is left for these branches is a failure of the tool framework, which is not part of this model.
- An exception raised by `direct_answer_node`'s call is not caught (Agent.py:284). It ends the turn outside the graph and is not modelled.
- The graph wiring, the `add_messages` reducer and the in-memory checkpoint store `InMemorySaver` (Agent.py:450-488). This is library behaviour. Each node is modelled as the update it returns, not as the merged state.
- The `start` step that the interactive loop sets (Agent.py:525); the `Step` datatype holds only the steps the modelled nodes return.
- The diagnostic `print` calls inside the tools and nodes (Agent.py:66, 243-246, 258, 319, 333, 425, 438). They only write to the console and change no state.
- Message ids and message types other than human, assistant and system.
- The interactive loop, `input` and `print` (Agent.py:491-562), and the `test_agent` text (Agent.py:563-594), which sits inside a string literal and never runs.
- `CalculatorTool.ExpressionMatch`: Python's `\d` also matches non-ASCII decimal digits; only ASCII digits are allowed here.
- `DateTimeTool.Items`: its contract states only the number of entries; what each entry holds is stated by `DateTimeTool.ReportNamesWeekday`, `DateTimeTool.ReportEndsWithLeapFlag` and `DateTimeTool.DateTimeInfo`.
