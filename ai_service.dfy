/** The chat client: the chart text handed to the model, the message list
    of a request (system prompt, recent history, current message), the
    reply read from the service's answer and the fallback reply when the
    request fails. */
module AiService {
  import opened Wrappers
  import opened Text
  import opened Types

  /** The fixed system prompt. Its wording is not part of this model;
      only the place it takes in each request is. */
  const SystemPrompt: string

  const DefaultModel := "deepseek-chat"
  const ApiEndpoint := "/api/ai/chat"
  const NoReplyText := "抱歉，我无法生成回复。"
  const UnknownErrorText := "未知错误"

  // ---------------------------------------------------------------------
  // Counting lines

  function CountChar(s: string, c: char): nat
  {
    if s == [] then 0 else CountChar(s[..|s| - 1], c) + (if s[|s| - 1] == c then 1 else 0)
  }

  lemma {:induction false} CountCharAppend(a: string, b: string, c: char)
    ensures CountChar(a + b, c) == CountChar(a, c) + CountChar(b, c)
    decreases |b|
  {
    if b == [] {
      assert a + b == a;
    } else {
      var b' := b[..|b| - 1];
      assert (a + b)[..|a + b| - 1] == a + b';
      CountCharAppend(a, b', c);
    }
  }

  // ---------------------------------------------------------------------
  // The chart text

  /** The part of the chart text built from the basic information. Reports
      carry no raw upstream data, so every optional upstream section is
      skipped and the fallbacks read from the basic information are used. */
  function ReportHeader(b: BasicInfo): string
  {
    "\n════════ 基础信息 ════════\n" +
    "公历时间：" + b.gongli + "\n" +
    "\n────── 四柱信息 ──────\n" +
    "四柱：" + b.sizhu + "\n" +
    "\n────── 奇门遁甲信息 ──────\n" +
    "值符：" + b.zhifu + "\n" +
    "值使：" + b.zhishi + "\n" +
    "遁局：" + b.dunju + "\n"
  }

  /** The question type, and the question when it is non-empty. */
  function QuestionLines(input: QimenInput): (r: string)
    ensures Truthy(input.question) ==>
      r == "\n\n════════ 问卜信息 ════════\n" + "问题类型：" + input.questionType + "\n" + "具体问题：" + input.question.value + "\n"
    ensures !Truthy(input.question) ==>
      r == "\n\n════════ 问卜信息 ════════\n" + "问题类型：" + input.questionType + "\n"
  {
    "\n\n════════ 问卜信息 ════════\n" +
    "问题类型：" + input.questionType + "\n" +
    (if Truthy(input.question) then "具体问题：" + input.question.value + "\n" else "")
  }

  /** The analysis section, present exactly when there is an analysis. */
  function AnalysisLines(analysis: string): (r: string)
    ensures r == "" <==> analysis == ""
    ensures analysis != "" ==> r == "\n════════ 排盘分析 ════════\n" + analysis + "\n"
  {
    if analysis != "" then "\n════════ 排盘分析 ════════\n" + analysis + "\n" else ""
  }

  /** The line of the suggestion at position `index`, numbered from one. */
  function SuggestionLine(index: nat, suggestion: string): string
  {
    NatToString(index + 1) + ". " + suggestion + "\n"
  }

  /** The numbered suggestion lines, in order. */
  function SuggestionLines(s: seq<string>): string
  {
    if s == [] then "" else SuggestionLines(s[..|s| - 1]) + SuggestionLine(|s| - 1, s[|s| - 1])
  }

  /** One line per suggestion: suggestions without line breaks give
      exactly as many lines as there are suggestions. */
  lemma {:induction false} SuggestionLinesCount(s: seq<string>)
    requires forall i :: 0 <= i < |s| ==> CountChar(s[i], '\n') == 0
    ensures CountChar(SuggestionLines(s), '\n') == |s|
    decreases |s|
  {
    if s != [] {
      var n := |s| - 1;
      var init, x := s[..n], s[n];
      assert SuggestionLines(s) == SuggestionLines(init) + SuggestionLine(n, x);
      SuggestionLinesCount(init);
      var digits := NatToString(n + 1);
      CountCharAppend(SuggestionLines(init), SuggestionLine(n, x), '\n');
      CountCharAppend(digits + ". " + x, "\n", '\n');
      CountCharAppend(digits + ". ", x, '\n');
      CountCharAppend(digits, ". ", '\n');
      assert CountChar(digits, '\n') == 0 by {
        DigitsHaveNoBreak(digits);
      }
      assert CountChar(". ", '\n') == 0 by {
        assert ". "[..1] == ".";
        assert "."[..0] == "";
      }
      assert CountChar("\n", '\n') == 1 by {
        assert "\n"[..0] == "";
      }
    }
  }

  lemma {:induction false} DigitsHaveNoBreak(s: string)
    requires AllDigits(s)
    ensures CountChar(s, '\n') == 0
    decreases |s|
  {
    if s != [] {
      DigitsHaveNoBreak(s[..|s| - 1]);
    }
  }

  /** The suggestions section, present exactly when there are
      suggestions. */
  function SuggestionsBlock(s: seq<string>): (r: string)
    ensures r == "" <==> |s| == 0
    ensures |s| > 0 ==> r == "\n════════ 初步建议 ════════\n" + SuggestionLines(s)
  {
    if |s| > 0 then "\n════════ 初步建议 ════════\n" + SuggestionLines(s) else ""
  }

  /** `formatQimenReport` on the reports the application builds: it opens
      with the basic information and ends with the numbered suggestions. */
  function ReportText(report: QimenReport): (r: string)
    ensures ReportHeader(report.result.basicInfo) <= r
    ensures r == ReportHeader(report.result.basicInfo) + QuestionLines(report.input) +
      AnalysisLines(report.result.analysis) + SuggestionsBlock(report.result.suggestions)
    ensures var lines := SuggestionLines(report.result.suggestions);
      |lines| <= |r| && r[|r| - |lines|..] == lines
  {
    ReportHeader(report.result.basicInfo) +
    QuestionLines(report.input) +
    AnalysisLines(report.result.analysis) +
    SuggestionsBlock(report.result.suggestions)
  }

  /** The text depends only on the chart's basic information, analysis and
      suggestions and on the question: not on the id, the time stamp, the
      plates or the detailed text. */
  lemma ReportTextDependsOn(r1: QimenReport, r2: QimenReport)
    requires r1.result.basicInfo.gongli == r2.result.basicInfo.gongli
    requires r1.result.basicInfo.sizhu == r2.result.basicInfo.sizhu
    requires r1.result.basicInfo.zhifu == r2.result.basicInfo.zhifu
    requires r1.result.basicInfo.zhishi == r2.result.basicInfo.zhishi
    requires r1.result.basicInfo.dunju == r2.result.basicInfo.dunju
    requires r1.result.analysis == r2.result.analysis && r1.result.suggestions == r2.result.suggestions
    requires r1.input.questionType == r2.input.questionType
    requires Truthy(r1.input.question) == Truthy(r2.input.question)
    requires Truthy(r1.input.question) ==> r1.input.question == r2.input.question
    ensures ReportText(r1) == ReportText(r2)
  {
    assert ReportHeader(r1.result.basicInfo) == ReportHeader(r2.result.basicInfo);
    assert QuestionLines(r1.input) == QuestionLines(r2.input);
  }

  lemma {:induction false} SuggestionLinesSnoc(prefix: string, s: seq<string>, i: nat)
    requires i < |s|
    ensures prefix + SuggestionLines(s[..i]) + SuggestionLine(i, s[i]) == prefix + SuggestionLines(s[..i + 1])
  {
    var next := s[..i + 1];
    assert next[..i] == s[..i];
    AppendAssoc(prefix, SuggestionLines(s[..i]), SuggestionLine(i, s[i]));
  }

  /** `formatQimenReport`: the fixed parts, then one numbered line per
      suggestion. */
  method FormatQimenReport(report: QimenReport) returns (text: string)
    ensures text == ReportText(report)
  {
    text := ReportHeader(report.result.basicInfo) + QuestionLines(report.input) + AnalysisLines(report.result.analysis);
    var suggestions := report.result.suggestions;
    if |suggestions| > 0 {
      var prefix := text + "\n════════ 初步建议 ════════\n";
      text := prefix;
      var i := 0;
      while i < |suggestions|
        invariant 0 <= i <= |suggestions|
        invariant text == prefix + SuggestionLines(suggestions[..i])
      {
        SuggestionLinesSnoc(prefix, suggestions, i);
        text := text + SuggestionLine(i, suggestions[i]);
        i := i + 1;
      }
      assert suggestions[..i] == suggestions;
      AppendAssoc(ReportHeader(report.result.basicInfo) + QuestionLines(report.input) + AnalysisLines(report.result.analysis),
        "\n════════ 初步建议 ════════\n", SuggestionLines(suggestions));
    }
  }

  // ---------------------------------------------------------------------
  // The request

  /** One entry of the request's message list. */
  datatype ApiMessage = ApiMessage(role: Role, content: string)

  /** `history.slice(-n)`: the last `n` messages, or all of them. */
  function Recent(history: seq<ChatMessage>, n: nat): (r: seq<ChatMessage>)
    ensures |r| == if |history| < n then |history| else n
    ensures r == history[|history| - |r|..]
  {
    if |history| <= n then history else history[|history| - n..]
  }

  /** The non-system messages, in order, as role and content. */
  function Conversational(history: seq<ChatMessage>): (r: seq<ApiMessage>)
    ensures |r| <= |history|
    ensures forall i :: 0 <= i < |r| ==> r[i].role != System
  {
    if history == [] then []
    else
      var last := history[|history| - 1];
      Conversational(history[..|history| - 1]) +
      (if last.role != System then [ApiMessage(last.role, last.content)] else [])
  }

  /** Filtering distributes over concatenation. */
  lemma {:induction false} ConversationalAppend(a: seq<ChatMessage>, b: seq<ChatMessage>)
    ensures Conversational(a + b) == Conversational(a) + Conversational(b)
    decreases |b|
  {
    if b == [] {
      assert a + b == a;
    } else {
      var b' := b[..|b| - 1];
      assert (a + b)[..|a + b| - 1] == a + b';
      ConversationalAppend(a, b');
      var last := b[|b| - 1];
      var tail := if last.role != System then [ApiMessage(last.role, last.content)] else [];
      AppendAssoc(Conversational(a), Conversational(b'), tail);
    }
  }

  /** One message is kept, as its role and content, exactly when it is
      not a system message. */
  lemma ConversationalSingle(m: ChatMessage)
    ensures Conversational([m]) == if m.role != System then [ApiMessage(m.role, m.content)] else []
  {
    assert [m][..0] == [];
  }

  /** A history without system messages passes through whole. */
  lemma {:induction false} ConversationalKeepsChat(history: seq<ChatMessage>)
    requires forall i :: 0 <= i < |history| ==> history[i].role != System
    ensures |Conversational(history)| == |history|
    ensures forall i :: 0 <= i < |history| ==>
      Conversational(history)[i] == ApiMessage(history[i].role, history[i].content)
    decreases |history|
  {
    if history != [] {
      ConversationalKeepsChat(history[..|history| - 1]);
    }
  }

  /** The system message's content: the prompt, and the chart text after a
      blank line when a report is given. */
  function SystemContent(report: Option<QimenReport>): string
  {
    if report.Some? then SystemPrompt + "\n\n" + ReportText(report.value) else SystemPrompt
  }

  /** The message list of a request: the system message, the non-system
      messages among the last ten of the history, and the current message. */
  function Messages(history: seq<ChatMessage>, current: string, report: Option<QimenReport>): (r: seq<ApiMessage>)
    ensures 2 <= |r| <= 12
    ensures r[0] == ApiMessage(System, SystemContent(report))
    ensures r[|r| - 1] == ApiMessage(User, current)
    ensures forall i :: 0 < i < |r| - 1 ==> r[i].role != System
    ensures r[1..|r| - 1] == Conversational(Recent(history, 10))
  {
    [ApiMessage(System, SystemContent(report))] + Conversational(Recent(history, 10)) + [ApiMessage(User, current)]
  }

  /** Adding a message to a long history drops the oldest one from the
      request. */
  lemma MessagesWindow(history: seq<ChatMessage>, m: ChatMessage, current: string, report: Option<QimenReport>)
    requires |history| >= 10
    ensures Messages(history + [m], current, report) ==
      [ApiMessage(System, SystemContent(report))] + Conversational(history[|history| - 9..] + [m]) + [ApiMessage(User, current)]
  {
    var h := history + [m];
    assert Recent(h, 10) == history[|history| - 9..] + [m];
  }

  lemma {:induction false} PushConversational(messages: seq<ApiMessage>, recent: seq<ChatMessage>, i: nat)
    requires i < |recent|
    ensures messages + Conversational(recent[..i]) +
      (if recent[i].role != System then [ApiMessage(recent[i].role, recent[i].content)] else []) ==
      messages + Conversational(recent[..i + 1])
  {
    assert recent[..i + 1][..i] == recent[..i];
    AppendAssoc(messages, Conversational(recent[..i]),
      if recent[i].role != System then [ApiMessage(recent[i].role, recent[i].content)] else []);
  }

  /** `buildMessages`: pushes the system message, the recent non-system
      history and the current message. */
  method BuildMessages(history: seq<ChatMessage>, current: string, report: Option<QimenReport>) returns (messages: seq<ApiMessage>)
    ensures messages == Messages(history, current, report)
  {
    var systemContent := SystemPrompt;
    if report.Some? {
      var text := FormatQimenReport(report.value);
      systemContent := systemContent + "\n\n" + text;
    }
    var head := [ApiMessage(System, systemContent)];
    messages := head;
    var recent := Recent(history, 10);
    var i := 0;
    while i < |recent|
      invariant 0 <= i <= |recent|
      invariant messages == head + Conversational(recent[..i])
    {
      PushConversational(head, recent, i);
      if recent[i].role != System {
        messages := messages + [ApiMessage(recent[i].role, recent[i].content)];
      } else {
        assert messages + [] == messages;
      }
      i := i + 1;
    }
    assert recent[..i] == recent;
    messages := messages + [ApiMessage(User, current)];
  }

  // ---------------------------------------------------------------------
  // The reply

  datatype ReplyMessage = ReplyMessage(content: Option<string>)
  datatype Choice = Choice(message: Option<ReplyMessage>)

  /** What the request came to: something was thrown before a body was
      read (a network failure, a body that is not JSON, a body without a
      `choices` list), a non-OK status with its body text, or a parsed
      body with its choices. */
  datatype ChatOutcome =
    | Threw(thrown: Thrown)
    | HttpError(status: int, body: string)
    | Answered(choices: seq<Choice>)

  /** `choices[0]?.message?.content || '抱歉，我无法生成回复。'`. */
  function ReplyText(choices: seq<Choice>): (r: string)
    ensures r != ""
    ensures r != NoReplyText ==>
      |choices| > 0 && choices[0].message.Some? && choices[0].message.value.content == Some(r)
    ensures |choices| > 0 && choices[0].message.Some? && Truthy(choices[0].message.value.content) ==>
      r == choices[0].message.value.content.value
    ensures !(|choices| > 0 && choices[0].message.Some? && Truthy(choices[0].message.value.content)) ==>
      r == NoReplyText
  {
    if |choices| > 0 && choices[0].message.Some? && Truthy(choices[0].message.value.content)
    then choices[0].message.value.content.value
    else NoReplyText
  }

  /** The message of the error a failed request ends in. */
  function FailureMessage(outcome: ChatOutcome): string
    requires !outcome.Answered?
  {
    match outcome
    case HttpError(status, body) => "AI Service API error: " + IntToString(status) + " - " + body
    case Threw(ErrorObject(m)) => m
    case Threw(NonError) => UnknownErrorText
  }

  /** The assistant's text for an outcome: the reply, or the fallback
      text naming the failure. */
  function ReplyContent(outcome: ChatOutcome): (r: string)
    ensures r != ""
    ensures !outcome.Answered? ==> r == "请求失败：" + FailureMessage(outcome) + "。请检查后端服务配置。"
    ensures outcome.Answered? ==> r == ReplyText(outcome.choices)
  {
    if outcome.Answered? then ReplyText(outcome.choices)
    else "请求失败：" + FailureMessage(outcome) + "。请检查后端服务配置。"
  }

  /** A failure is reported in the reply, wrapped in a fixed frame. */
  lemma FailureReplyFrame(outcome: ChatOutcome)
    requires !outcome.Answered?
    ensures var r, m := ReplyContent(outcome), FailureMessage(outcome);
      r[..5] == "请求失败：" && r[5..5 + |m|] == m && r[5 + |m|..] == "。请检查后端服务配置。"
  {
  }

  /** `sendMessage`: the request it sends and the assistant message it
      returns (with `freshId` and `now` standing for `nanoid()` and the
      clock); it never fails. */
  method SendMessage(message: string, history: seq<ChatMessage>, report: Option<QimenReport>, outcome: ChatOutcome, freshId: string, now: int)
    returns (request: seq<ApiMessage>, reply: ChatMessage)
    ensures request == Messages(history, message, report)
    ensures reply.id == freshId && reply.role == Assistant && reply.timestamp == now
    ensures reply.content == ReplyContent(outcome) && reply.content != ""
    ensures reply.kind.None? && reply.reportId.None?
  {
    request := BuildMessages(history, message, report);
    reply := ChatMessage(freshId, Assistant, ReplyContent(outcome), now, None, None);
  }
}
