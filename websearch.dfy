/** The `web_search` tool (Agent.py:51-107) after the search call: how the
    search backend's response is turned into the text handed to the answer
    step. The call itself (query augmented with today's date, depth, result
    cap) is outside the model; its outcome is a `SearchReply`. */
module WebSearchTool {
  import opened Wrappers
  import opened Text

  /** One entry of the response's `results`; a field is `None` when its key is absent. */
  datatype Hit = Hit(title: Option<string>, content: Option<string>, url: Option<string>)

  /** The search call raised, or it returned a response with an optional
      synthesized `answer` and optional `results`. */
  datatype SearchReply = SearchRaised(error: string) | Response(answer: Option<string>, results: Option<seq<Hit>>)

  const AnswerHeading := "【综合答案】\n"
  const ResultsHeading := "【相关信息】\n"
  const NotFound := "抱歉，没有找到相关信息。请尝试不同的关键词。"
  const NotConfigured := "错误：未配置Tavily API密钥，无法进行搜索。请在.env文件中设置TAVILY_API_KEY。"
  const ShownHits := 3

  /** A hit's content is cut to 200 characters followed by "...". */
  function TruncateContent(content: string): (r: string)
    ensures |content| <= 200 ==> r == content
    ensures |content| > 200 ==> r == content[..200] + "..."
  {
    Truncate(content, 200, "...")
  }

  /** `response.get("answer")` is truthy: present and not empty. */
  predicate HasAnswer(answer: Option<string>)
  {
    answer.Some? && answer.value != ""
  }

  /** `response.get("results")` is truthy: present and not empty. */
  predicate HasResults(results: Option<seq<Hit>>)
  {
    results.Some? && results.value != []
  }

  function AnswerSection(answer: Option<string>): string
  {
    if HasAnswer(answer) then AnswerHeading + answer.value + "\n\n" else ""
  }

  /** The line block for the hit numbered `n`, with the defaults for a
      missing title, content or url. */
  function HitEntry(n: nat, h: Hit): string
  {
    Decimal(n) + ". 📰 " + h.title.GetOr("无标题")
    + "\n   📝 " + TruncateContent(h.content.GetOr("无内容"))
    + "\n   🔗 来源: " + h.url.GetOr("无链接") + "\n\n"
  }

  /** The entries of `hits`, numbered from `first` in input order. */
  function Entries(hits: seq<Hit>, first: nat): string
  {
    if hits == [] then "" else HitEntry(first, hits[0]) + Entries(hits[1..], first + 1)
  }

  /** `results[:3]` */
  function FirstHits(hits: seq<Hit>): (r: seq<Hit>)
    ensures |r| <= ShownHits && |r| <= |hits| && r == hits[..|r|]
    ensures |hits| >= ShownHits ==> |r| == ShownHits
    ensures |hits| < ShownHits ==> r == hits
  {
    if |hits| <= ShownHits then hits else hits[..ShownHits]
  }

  function ResultsSection(results: Option<seq<Hit>>): string
  {
    if HasResults(results) then ResultsHeading + Entries(FirstHits(results.value), 1) else ""
  }

  /** The digest: the answer section if any, then the first three hits, or
      the fixed "nothing found" text when both are missing. */
  function Digest(answer: Option<string>, results: Option<seq<Hit>>): string
  {
    var s := AnswerSection(answer) + ResultsSection(results);
    if s == "" then NotFound else s
  }

  /** What `web_search` returns for a configured or unconfigured client and
      the outcome of the call. */
  function SearchText(configured: bool, reply: SearchReply): string
  {
    if !configured then NotConfigured
    else match reply
      case SearchRaised(e) => "搜索失败: " + e + "。请检查网络连接或API密钥。"
      case Response(answer, results) => Digest(answer, results)
  }

  /** The entries of two runs of hits, the second numbered on from the first. */
  lemma {:induction false} EntriesConcat(a: seq<Hit>, b: seq<Hit>, first: nat)
    ensures Entries(a + b, first) == Entries(a, first) + Entries(b, first + |a|)
  {
    if a == [] {
      assert a + b == b;
    } else {
      assert (a + b)[0] == a[0];
      assert (a + b)[1..] == a[1..] + b;
      EntriesConcat(a[1..], b, first + 1);
    }
  }

  /** Appending a hit appends its entry, numbered after the ones before it. */
  lemma EntriesAppend(hits: seq<Hit>, h: Hit, first: nat)
    ensures Entries(hits + [h], first) == Entries(hits, first) + HitEntry(first + |hits|, h)
  {
    EntriesConcat(hits, [h], first);
    assert [h][1..] == [];
  }

  /** Hit `k` appears numbered `first + k`, after the entries of the hits
      before it and before the entries of the hits after it. */
  lemma EntriesOrder(hits: seq<Hit>, k: nat, first: nat)
    requires k < |hits|
    ensures Entries(hits, first)
      == Entries(hits[..k], first) + HitEntry(first + k, hits[k]) + Entries(hits[k + 1..], first + k + 1)
  {
    var rest := hits[k..];
    assert hits == hits[..k] + rest;
    EntriesConcat(hits[..k], rest, first);
    assert rest[0] == hits[k] && rest[1..] == hits[k + 1..];
  }

  /** A missing title, content or url is rendered as its default text. */
  lemma MissingFieldsUseDefaults(n: nat, h: Hit)
    ensures HitEntry(n, h)
      == HitEntry(n, Hit(Some(h.title.GetOr("无标题")), Some(h.content.GetOr("无内容")), Some(h.url.GetOr("无链接"))))
    ensures HitEntry(n, Hit(None, None, None)) == Decimal(n) + ". 📰 无标题\n   📝 无内容\n   🔗 来源: 无链接\n\n"
  {
  }

  /** Results beyond the first three never reach the digest. */
  lemma OnlyFirstThreeShown(answer: Option<string>, hits: seq<Hit>, more: seq<Hit>)
    requires |hits| >= ShownHits
    ensures Digest(answer, Some(hits + more)) == Digest(answer, Some(hits))
  {
    assert (hits + more)[..ShownHits] == hits[..ShownHits];
  }

  /** The digest is the "nothing found" text exactly when the response has
      neither an answer nor results; it is never empty. */
  lemma NotFoundExactlyWhenEmpty(answer: Option<string>, results: Option<seq<Hit>>)
    ensures Digest(answer, results) == NotFound <==> !HasAnswer(answer) && !HasResults(results)
    ensures Digest(answer, results) != ""
  {
    var s := AnswerSection(answer) + ResultsSection(results);
    if HasAnswer(answer) {
      assert s[0] == '【' && NotFound[0] == '抱';
    } else if HasResults(results) {
      assert s[0] == '【' && NotFound[0] == '抱';
    }
  }

  /** The digest opens with the answer section exactly when there is an answer. */
  lemma AnswerComesFirst(answer: Option<string>, results: Option<seq<Hit>>)
    ensures HasAnswer(answer) ==> StartsWith(Digest(answer, results), AnswerHeading + answer.value + "\n\n")
    ensures StartsWith(Digest(answer, results), AnswerHeading) <==> HasAnswer(answer)
  {
    var d := Digest(answer, results);
    var p := AnswerSection(answer);
    if HasAnswer(answer) {
      assert d == p + ResultsSection(results);
      assert d[..|p|] == p;
      assert d[..|AnswerHeading|] == p[..|AnswerHeading|];
    } else if HasResults(results) {
      assert d[1] == ResultsHeading[1] != AnswerHeading[1];
    } else {
      assert d[0] != AnswerHeading[0];
    }
  }

  /** The loop of `web_search` that renders each of the first hits. */
  method RenderHits(shown: seq<Hit>) returns (block: string)
    ensures block == Entries(shown, 1)
  {
    block := "";
    for i := 0 to |shown|
      invariant block == Entries(shown[..i], 1)
    {
      var hit := shown[i];
      var title := hit.title.GetOr("无标题");
      var content := hit.content.GetOr("无内容");
      var url := hit.url.GetOr("无链接");
      if |content| > 200 {
        content := content[..200] + "...";
      }
      var entry := Decimal(i + 1) + ". 📰 " + title + "\n   📝 " + content + "\n   🔗 来源: " + url + "\n\n";
      assert entry == HitEntry(1 + |shown[..i]|, hit);
      EntriesAppend(shown[..i], hit, 1);
      assert shown[..i + 1] == shown[..i] + [hit];
      block := block + entry;
    }
    assert shown[..|shown|] == shown;
  }

  /** The part of `web_search` that renders the response. */
  method BuildDigest(answer: Option<string>, results: Option<seq<Hit>>) returns (text: string)
    ensures text == Digest(answer, results)
  {
    text := "";
    if answer.Some? && answer.value != "" {
      text := AnswerHeading + answer.value + "\n\n";
    }
    ghost var head := text;
    assert head == AnswerSection(answer);
    if results.Some? && results.value != [] {
      text := text + ResultsHeading;
      var shown := if |results.value| <= ShownHits then results.value else results.value[..ShownHits];
      assert shown == FirstHits(results.value);
      var block := RenderHits(shown);
      text := text + block;
      assert text == head + (ResultsHeading + block);
    } else {
      assert ResultsSection(results) == "";
      assert text == head + "";
    }
    assert text == AnswerSection(answer) + ResultsSection(results);
    if text == "" {
      text := NotFound;
    }
  }

  /** `web_search` once the backend has answered. */
  method Search(configured: bool, reply: SearchReply) returns (text: string)
    ensures text == SearchText(configured, reply)
  {
    if !configured {
      return NotConfigured;
    }
    match reply {
      case SearchRaised(e) =>
        text := "搜索失败: " + e + "。请检查网络连接或API密钥。";
      case Response(answer, results) =>
        text := BuildDigest(answer, results);
    }
  }
}
