/** The conversation store: a list of conversations (newest first) and the
    current conversation's id. Selecting a conversation also sets the
    chart store's current report and empties the global chat list, so the
    store holds both of those stores. */
module ConversationStore {
  import opened Wrappers
  import opened Text
  import opened Types
  import QimenStore
  import ChatStore

  const DefaultTitle := "新对话"
  const TitleLength := 20

  datatype Conversation = Conversation(
    id: string,
    title: string,
    qimenReport: Option<QimenReport>,
    messages: seq<ChatMessage>,
    createdAt: int,
    updatedAt: int)

  /** The fields an update may carry; a missing field is None. The report
      may be set to a report or explicitly to nothing, hence the nested
      Option. `updatedAt` is always overwritten with the clock. */
  datatype Patch = Patch(
    id: Option<string>,
    title: Option<string>,
    qimenReport: Option<Option<QimenReport>>,
    messages: Option<seq<ChatMessage>>,
    createdAt: Option<int>)

  // ---------------------------------------------------------------------
  // New conversations

  /** The title of a new conversation: `<gongli> - <questionType>` when a
      report is given, else the title passed, else '新对话'. */
  function NewTitle(title: Option<string>, report: Option<QimenReport>): (r: string)
    ensures report.Some? ==> r == report.value.result.basicInfo.gongli + " - " + report.value.input.questionType
    ensures report.None? && title.Some? ==> r == title.value
    ensures report.None? && title.None? ==> r == DefaultTitle
  {
    if report.Some? then report.value.result.basicInfo.gongli + " - " + report.value.input.questionType
    else title.GetOr(DefaultTitle)
  }

  function NewConversation(title: Option<string>, report: Option<QimenReport>, freshId: string, now: int): (c: Conversation)
    ensures c.id == freshId && c.title == NewTitle(title, report) && c.qimenReport == report
    ensures c.messages == [] && c.createdAt == now && c.updatedAt == now
  {
    Conversation(freshId, NewTitle(title, report), report, [], now, now)
  }

  // ---------------------------------------------------------------------
  // Finding and removing

  /** `conversations.find(c => c.id === id)`: the first with that id. */
  function FindConversation(cs: seq<Conversation>, id: string): (r: Option<Conversation>)
    ensures r.None? <==> forall i :: 0 <= i < |cs| ==> cs[i].id != id
    ensures r.Some? ==> r.value.id == id && exists k :: (0 <= k < |cs| && cs[k] == r.value &&
      forall j :: 0 <= j < k ==> cs[j].id != id)
  {
    if cs == [] then None
    else if cs[0].id == id then Some(cs[0])
    else
      var rest := FindConversation(cs[1..], id);
      assert forall i :: 1 <= i < |cs| ==> cs[i] == cs[1..][i - 1];
      if rest.Some? then
        assert exists k :: (0 <= k < |cs| && cs[k] == rest.value &&
          forall j :: 0 <= j < k ==> cs[j].id != id) by {
          var k' :| 0 <= k' < |cs[1..]| && cs[1..][k'] == rest.value &&
            forall j :: 0 <= j < k' ==> cs[1..][j].id != id;
          assert cs[k' + 1] == rest.value;
        }
        rest
      else rest
  }

  /** `conversations.filter(c => c.id !== id)`. */
  function RemoveConversation(cs: seq<Conversation>, id: string): (r: seq<Conversation>)
    ensures |r| <= |cs|
    ensures forall i :: 0 <= i < |r| ==> r[i].id != id
    ensures forall c :: c in r <==> c in cs && c.id != id
  {
    if cs == [] then []
    else
      var last := cs[|cs| - 1];
      RemoveConversation(cs[..|cs| - 1], id) + (if last.id != id then [last] else [])
  }

  /** A single conversation stays exactly when its id differs. */
  lemma RemoveConversationSingle(x: Conversation, id: string)
    ensures RemoveConversation([x], id) == if x.id != id then [x] else []
  {
  }

  /** The filter keeps order: it distributes over concatenation. */
  lemma {:induction false} RemoveConversationAppend(a: seq<Conversation>, b: seq<Conversation>, id: string)
    ensures RemoveConversation(a + b, id) == RemoveConversation(a, id) + RemoveConversation(b, id)
    decreases |b|
  {
    if b == [] {
      assert a + b == a;
    } else {
      var init, last := b[..|b| - 1], b[|b| - 1];
      var kept := if last.id != id then [last] else [];
      RemoveConversationAppend(a, init, id);
      calc {
        RemoveConversation(a + b, id);
        { assert (a + b)[..|a + b| - 1] == a + init && (a + b)[|a + b| - 1] == last; }
        RemoveConversation(a + init, id) + kept;
        (RemoveConversation(a, id) + RemoveConversation(init, id)) + kept;
        RemoveConversation(a, id) + (RemoveConversation(init, id) + kept);
        RemoveConversation(a, id) + RemoveConversation(b, id);
      }
    }
  }

  function CountId(cs: seq<Conversation>, id: string): nat
  {
    if cs == [] then 0 else CountId(cs[..|cs| - 1], id) + (if cs[|cs| - 1].id == id then 1 else 0)
  }

  /** Exactly the conversations with that id go. */
  lemma {:induction false} RemoveConversationCount(cs: seq<Conversation>, id: string)
    ensures |RemoveConversation(cs, id)| == |cs| - CountId(cs, id)
    decreases |cs|
  {
    if cs != [] {
      RemoveConversationCount(cs[..|cs| - 1], id);
    }
  }

  /** The current id after deleting `id`: when the current one is deleted,
      the first remaining conversation's id (an empty id counts as none),
      otherwise unchanged. */
  function CurrentAfterDelete(current: Option<string>, remaining: seq<Conversation>, id: string): (r: Option<string>)
    ensures current != Some(id) ==> r == current
    ensures current == Some(id) && |remaining| > 0 && remaining[0].id != "" ==> r == Some(remaining[0].id)
    ensures current == Some(id) && (|remaining| == 0 || remaining[0].id == "") ==> r.None?
  {
    if current == Some(id) then
      if |remaining| > 0 && remaining[0].id != "" then Some(remaining[0].id) else None
    else current
  }

  /** After a delete the current id never names the deleted conversation. */
  lemma CurrentAfterDeleteNotDeleted(cs: seq<Conversation>, current: Option<string>, id: string)
    ensures CurrentAfterDelete(current, RemoveConversation(cs, id), id) != Some(id)
  {
  }

  // ---------------------------------------------------------------------
  // Per-conversation updates

  function PatchOne(c: Conversation, patch: Patch, now: int): Conversation
  {
    Conversation(
      patch.id.GetOr(c.id),
      patch.title.GetOr(c.title),
      patch.qimenReport.GetOr(c.qimenReport),
      patch.messages.GetOr(c.messages),
      patch.createdAt.GetOr(c.createdAt),
      now)
  }

  /** `updateConversation`: every conversation with that id takes the
      supplied fields and the new `updatedAt`; the rest are untouched. */
  function PatchConversations(cs: seq<Conversation>, id: string, patch: Patch, now: int): (r: seq<Conversation>)
    ensures |r| == |cs|
    ensures forall i :: 0 <= i < |cs| && cs[i].id != id ==> r[i] == cs[i]
    ensures forall i :: 0 <= i < |cs| && cs[i].id == id ==>
      r[i].updatedAt == now &&
      (patch.title.None? ==> r[i].title == cs[i].title) &&
      (patch.title.Some? ==> r[i].title == patch.title.value) &&
      (patch.id.None? ==> r[i].id == cs[i].id) &&
      (patch.id.Some? ==> r[i].id == patch.id.value) &&
      (patch.qimenReport.None? ==> r[i].qimenReport == cs[i].qimenReport) &&
      (patch.qimenReport.Some? ==> r[i].qimenReport == patch.qimenReport.value) &&
      (patch.messages.None? ==> r[i].messages == cs[i].messages) &&
      (patch.messages.Some? ==> r[i].messages == patch.messages.value) &&
      (patch.createdAt.None? ==> r[i].createdAt == cs[i].createdAt) &&
      (patch.createdAt.Some? ==> r[i].createdAt == patch.createdAt.value)
  {
    seq(|cs|, i requires 0 <= i < |cs| => if cs[i].id == id then PatchOne(cs[i], patch, now) else cs[i])
  }

  function AddMessageOne(c: Conversation, m: ChatMessage, now: int): Conversation
  {
    c.(messages := c.messages + [m], updatedAt := now)
  }

  /** `addMessageToConversation` on the list. */
  function AddMessageTo(cs: seq<Conversation>, id: string, m: ChatMessage, now: int): (r: seq<Conversation>)
    ensures |r| == |cs|
    ensures forall i :: 0 <= i < |cs| && cs[i].id != id ==> r[i] == cs[i]
    ensures forall i :: 0 <= i < |cs| && cs[i].id == id ==>
      r[i].messages == cs[i].messages + [m] && r[i].updatedAt == now &&
      r[i].id == cs[i].id && r[i].title == cs[i].title &&
      r[i].qimenReport == cs[i].qimenReport && r[i].createdAt == cs[i].createdAt
  {
    seq(|cs|, i requires 0 <= i < |cs| => if cs[i].id == id then AddMessageOne(cs[i], m, now) else cs[i])
  }

  function UpdateMessageOne(c: Conversation, messageId: string, text: string, now: int): Conversation
  {
    c.(messages := AppendContent(c.messages, messageId, text), updatedAt := now)
  }

  /** `updateMessageInConversation` on the list. */
  function UpdateMessageIn(cs: seq<Conversation>, id: string, messageId: string, text: string, now: int): (r: seq<Conversation>)
    ensures |r| == |cs|
    ensures forall i :: 0 <= i < |cs| && cs[i].id != id ==> r[i] == cs[i]
    ensures forall i :: 0 <= i < |cs| && cs[i].id == id ==>
      r[i].messages == AppendContent(cs[i].messages, messageId, text) && r[i].updatedAt == now &&
      r[i].id == cs[i].id && r[i].title == cs[i].title &&
      r[i].qimenReport == cs[i].qimenReport && r[i].createdAt == cs[i].createdAt
  {
    seq(|cs|, i requires 0 <= i < |cs| => if cs[i].id == id then UpdateMessageOne(cs[i], messageId, text, now) else cs[i])
  }

  /** An unknown conversation id changes nothing. */
  lemma UnknownConversationUnchanged(cs: seq<Conversation>, id: string, m: ChatMessage, messageId: string, text: string, now: int)
    requires forall i :: 0 <= i < |cs| ==> cs[i].id != id
    ensures AddMessageTo(cs, id, m, now) == cs
    ensures UpdateMessageIn(cs, id, messageId, text, now) == cs
  {
    assert forall i :: 0 <= i < |cs| ==> AddMessageTo(cs, id, m, now)[i] == cs[i];
    assert forall i :: 0 <= i < |cs| ==> UpdateMessageIn(cs, id, messageId, text, now)[i] == cs[i];
  }

  /** Two streamed chunks in a row leave the same messages as one chunk
      with both texts. */
  lemma UpdateMessageInTwice(cs: seq<Conversation>, id: string, messageId: string, a: string, b: string, t1: int, t2: int)
    ensures UpdateMessageIn(UpdateMessageIn(cs, id, messageId, a, t1), id, messageId, b, t2) ==
      UpdateMessageIn(cs, id, messageId, a + b, t2)
  {
    var mid := UpdateMessageIn(cs, id, messageId, a, t1);
    var lhs, rhs := UpdateMessageIn(mid, id, messageId, b, t2), UpdateMessageIn(cs, id, messageId, a + b, t2);
    forall i | 0 <= i < |cs| ensures lhs[i] == rhs[i] {
      if cs[i].id == id {
        AppendContentTwice(cs[i].messages, messageId, a, b);
      }
    }
  }

  // ---------------------------------------------------------------------
  // Automatic title

  /** The first message with the user role. */
  function FirstUserMessage(messages: seq<ChatMessage>): (r: Option<ChatMessage>)
    ensures r.None? <==> forall i :: 0 <= i < |messages| ==> messages[i].role != User
    ensures r.Some? ==> r.value.role == User && exists k :: (0 <= k < |messages| && messages[k] == r.value &&
      forall j :: 0 <= j < k ==> messages[j].role != User)
  {
    if messages == [] then None
    else if messages[0].role == User then Some(messages[0])
    else
      var rest := FirstUserMessage(messages[1..]);
      assert forall i :: 1 <= i < |messages| ==> messages[i] == messages[1..][i - 1];
      if rest.Some? then
        assert exists k :: (0 <= k < |messages| && messages[k] == rest.value &&
          forall j :: 0 <= j < k ==> messages[j].role != User) by {
          var k' :| 0 <= k' < |messages[1..]| && messages[1..][k'] == rest.value &&
            forall j :: 0 <= j < k' ==> messages[1..][j].role != User;
          assert messages[k' + 1] == rest.value;
        }
        rest
      else rest
  }

  /** The first twenty characters of the text, with '...' only when the
      text is longer. */
  function Shorten(text: string): (r: string)
    ensures |text| <= TitleLength ==> r == text
    ensures |text| > TitleLength ==> |r| == TitleLength + 3 && r[..TitleLength] == text[..TitleLength] && r[TitleLength..] == "..."
  {
    Take(text, TitleLength) + (if |text| > TitleLength then "..." else "")
  }

  /** The title `generateConversationTitle` would set, if any. */
  function AutoTitle(c: Option<Conversation>): (r: Option<string>)
    ensures r.Some? <==> c.Some? && FirstUserMessage(c.value.messages).Some?
    ensures r.Some? ==> r.value == Shorten(FirstUserMessage(c.value.messages).value.content)
  {
    if c.None? || |c.value.messages| == 0 then None
    else
      var first := FirstUserMessage(c.value.messages);
      if first.Some? then Some(Shorten(first.value.content)) else None
  }

  // ---------------------------------------------------------------------
  // Summary and relative time

  datatype ConversationSummary = ConversationSummary(
    id: string, title: string, messageCount: nat, lastMessage: Option<ChatMessage>,
    hasQimenReport: bool, updatedAt: int)

  /** `getConversationSummary`. */
  function Summary(c: Conversation): (r: ConversationSummary)
    ensures r.id == c.id && r.title == c.title && r.updatedAt == c.updatedAt
    ensures r.messageCount == |c.messages|
    ensures r.lastMessage.None? <==> c.messages == []
    ensures r.lastMessage.Some? ==> r.lastMessage.value == c.messages[|c.messages| - 1]
    ensures r.hasQimenReport <==> c.qimenReport.Some?
  {
    ConversationSummary(
      c.id, c.title, |c.messages|,
      if |c.messages| > 0 then Some(c.messages[|c.messages| - 1]) else None,
      c.qimenReport.Some?, c.updatedAt)
  }

  const Minute := 60 * 1000
  const Hour := 60 * Minute
  const Day := 24 * Hour
  const Week := 7 * Day

  /** A difference in `[unit, k * unit)` counts between 1 and k - 1 units. */
  lemma DivBucket(diff: int, unit: int, k: int)
    requires 0 < unit <= diff < k * unit
    ensures 1 <= diff / unit < k
  {
  }

  /** `formatConversationTime` for the relative buckets; None stands for
      the locale-formatted date used from a week on. */
  function FormatConversationTime(timestamp: int, now: int): (r: Option<string>)
    ensures var diff := now - timestamp;
      (diff < Minute ==> r == Some("刚刚")) &&
      (Minute <= diff < Hour ==> 1 <= diff / Minute < 60 && r == Some(NatToString(diff / Minute) + "分钟前")) &&
      (Hour <= diff < Day ==> 1 <= diff / Hour < 24 && r == Some(NatToString(diff / Hour) + "小时前")) &&
      (Day <= diff < Week ==> 1 <= diff / Day < 7 && r == Some(NatToString(diff / Day) + "天前")) &&
      (diff >= Week <==> r.None?)
  {
    var diff := now - timestamp;
    if diff < Minute then Some("刚刚")
    else if diff < Hour then DivBucket(diff, Minute, 60); Some(NatToString(diff / Minute) + "分钟前")
    else if diff < Day then DivBucket(diff, Hour, 24); Some(NatToString(diff / Hour) + "小时前")
    else if diff < Week then DivBucket(diff, Day, 7); Some(NatToString(diff / Day) + "天前")
    else None
  }

  /** Within the minute bucket the label shows a whole number of minutes
      between 1 and 59, and that number never goes down as time passes. */
  lemma FormatConversationTimeMonotone(timestamp: int, now1: int, now2: int)
    requires Minute <= now1 - timestamp <= now2 - timestamp < Hour
    ensures exists k1: nat, k2: nat ::
      1 <= k1 <= k2 < 60 &&
      FormatConversationTime(timestamp, now1) == Some(NatToString(k1) + "分钟前") &&
      FormatConversationTime(timestamp, now2) == Some(NatToString(k2) + "分钟前")
  {
    var k1, k2 := (now1 - timestamp) / Minute, (now2 - timestamp) / Minute;
    assert 1 <= k1 <= k2 < 60;
    assert FormatConversationTime(timestamp, now1) == Some(NatToString(k1) + "分钟前");
  }

  // ---------------------------------------------------------------------
  // The conversation list, most recently updated first

  predicate NewestFirst(cs: seq<Conversation>)
  {
    forall i, j :: 0 <= i < j < |cs| ==> cs[i].updatedAt >= cs[j].updatedAt
  }

  /** Inserts `c` after every conversation updated no earlier than it. */
  function InsertByUpdate(c: Conversation, cs: seq<Conversation>): (r: seq<Conversation>)
    ensures |r| == |cs| + 1
    ensures multiset(r) == multiset(cs) + multiset{c}
    ensures forall x :: x in r <==> x in cs || x == c
    ensures r[0] == c || (|cs| > 0 && r[0] == cs[0])
  {
    if cs == [] then [c]
    else if cs[0].updatedAt < c.updatedAt then [c] + cs
    else
      assert cs == [cs[0]] + cs[1..];
      [cs[0]] + InsertByUpdate(c, cs[1..])
  }

  /** Insertion keeps a list in order. */
  lemma {:induction false} InsertKeepsOrder(c: Conversation, cs: seq<Conversation>)
    requires NewestFirst(cs)
    ensures NewestFirst(InsertByUpdate(c, cs))
  {
    if cs != [] && cs[0].updatedAt >= c.updatedAt {
      InsertKeepsOrder(c, cs[1..]);
      var rest := InsertByUpdate(c, cs[1..]);
      assert InsertByUpdate(c, cs) == [cs[0]] + rest;
      forall j | 0 < j < |rest| + 1
        ensures cs[0].updatedAt >= ([cs[0]] + rest)[j].updatedAt
      {
        assert rest[j - 1] in rest;
      }
    }
  }

  /** The order `useConversationList` puts the conversations in: by update
      time, most recent first. */
  function ConversationList(cs: seq<Conversation>): (r: seq<Conversation>)
    ensures multiset(r) == multiset(cs)
    ensures NewestFirst(r)
  {
    if cs == [] then []
    else
      var init := cs[..|cs| - 1];
      assert cs == init + [cs[|cs| - 1]];
      InsertKeepsOrder(cs[|cs| - 1], ConversationList(init));
      InsertByUpdate(cs[|cs| - 1], ConversationList(init))
  }

  // ---------------------------------------------------------------------
  // Persistence

  /** The persisted object: the saved conversations, and the current id
      the version-0 migration adds. A missing field is None. */
  datatype Persisted = Persisted(conversations: Option<seq<Conversation>>, currentConversationId: Option<Option<string>>)

  const Version := 1

  /** `migrate`: from version 0 the object gains `currentConversationId:
      null`; any other version passes through. */
  function Migrate(p: Persisted, version: int): (r: Persisted)
    ensures r.conversations == p.conversations
    ensures version == 0 ==> r.currentConversationId == Some(None)
    ensures version != 0 ==> r == p
  {
    if version == 0 then p.(currentConversationId := Some(None)) else p
  }

  // ---------------------------------------------------------------------
  // The store

  class ConversationStore {
    var conversations: seq<Conversation>
    var currentConversationId: Option<string>
    const chart: QimenStore.ChartStore
    const chat: ChatStore.MessageStore

    constructor (chart: QimenStore.ChartStore, chat: ChatStore.MessageStore)
      ensures conversations == [] && currentConversationId.None?
      ensures this.chart == chart && this.chat == chat
    {
      conversations := [];
      currentConversationId := None;
      this.chart := chart;
      this.chat := chat;
    }

    /** `createConversation`: prepends one new, empty conversation, makes
        it current and returns its id. */
    method CreateConversation(title: Option<string>, report: Option<QimenReport>, freshId: string, now: int) returns (id: string)
      modifies this
      ensures id == freshId && currentConversationId == Some(freshId)
      ensures conversations == [NewConversation(title, report, freshId, now)] + old(conversations)
      ensures |conversations| == |old(conversations)| + 1 && conversations[1..] == old(conversations)
    {
      var conversation := NewConversation(title, report, freshId, now);
      conversations := [conversation] + conversations;
      currentConversationId := Some(freshId);
      id := freshId;
    }

    /** `deleteConversation`. */
    method DeleteConversation(id: string)
      modifies this
      ensures conversations == RemoveConversation(old(conversations), id)
      ensures currentConversationId == CurrentAfterDelete(old(currentConversationId), conversations, id)
      ensures currentConversationId != Some(id)
    {
      var remaining := RemoveConversation(conversations, id);
      currentConversationId := CurrentAfterDelete(currentConversationId, remaining, id);
      conversations := remaining;
    }

    /** `updateConversation`; `now` is the clock. */
    method UpdateConversation(id: string, patch: Patch, now: int)
      modifies this
      ensures conversations == PatchConversations(old(conversations), id, patch, now)
      ensures currentConversationId == old(currentConversationId)
    {
      conversations := PatchConversations(conversations, id, patch, now);
    }

    /** `setCurrentConversation`: with a known id, that conversation
        becomes current, its report (or none) becomes the chart store's
        current report, and the global chat list is emptied. An unknown id
        changes nothing in any of the three stores. */
    method SetCurrentConversation(id: string)
      modifies this, chart, chat
      ensures FindConversation(old(conversations), id).None? ==>
        unchanged(this) && unchanged(chart) && unchanged(chat)
      ensures FindConversation(old(conversations), id).Some? ==>
        currentConversationId == Some(id) &&
        chart.currentReport == FindConversation(old(conversations), id).value.qimenReport &&
        chat.messages == []
      ensures conversations == old(conversations)
      ensures chart.reports == old(chart.reports) && chart.isGenerating == old(chart.isGenerating) &&
        chart.error == old(chart.error)
    {
      var conversation := FindConversation(conversations, id);
      if conversation.Some? {
        currentConversationId := Some(id);
        chart.SetCurrentReport(conversation.value.qimenReport);
        chat.ClearMessages();
      }
    }

    /** `getCurrentConversation`: the first conversation with the current
        id, or none when there is no current id. */
    function GetCurrentConversation(): (r: Option<Conversation>)
      reads this
      ensures currentConversationId.None? ==> r.None?
      ensures r.Some? ==> r.value in conversations && Some(r.value.id) == currentConversationId
      ensures (currentConversationId.Some? &&
        exists i :: 0 <= i < |conversations| && conversations[i].id == currentConversationId.value) ==> r.Some?
      ensures r.Some? ==> exists k :: (0 <= k < |conversations| && conversations[k] == r.value &&
        forall j :: 0 <= j < k ==> conversations[j].id != r.value.id)
    {
      if currentConversationId.None? then None else FindConversation(conversations, currentConversationId.value)
    }

    /** `selectCurrentConversation`: like `getCurrentConversation`, except
        that an empty current id counts as none. */
    function SelectCurrentConversation(): (r: Option<Conversation>)
      reads this
      ensures currentConversationId != Some("") ==> r == GetCurrentConversation()
      ensures currentConversationId == Some("") ==> r.None?
    {
      if currentConversationId.None? || currentConversationId.value == "" then None
      else FindConversation(conversations, currentConversationId.value)
    }

    /** `addMessageToConversation`. */
    method AddMessageToConversation(conversationId: string, message: ChatMessage, now: int)
      modifies this
      ensures conversations == AddMessageTo(old(conversations), conversationId, message, now)
      ensures currentConversationId == old(currentConversationId)
    {
      conversations := AddMessageTo(conversations, conversationId, message, now);
    }

    /** `updateMessageInConversation`. */
    method UpdateMessageInConversation(conversationId: string, messageId: string, text: string, now: int)
      modifies this
      ensures conversations == UpdateMessageIn(old(conversations), conversationId, messageId, text, now)
      ensures currentConversationId == old(currentConversationId)
    {
      conversations := UpdateMessageIn(conversations, conversationId, messageId, text, now);
    }

    /** `generateConversationTitle`: titles every conversation with that id
        after the first user message of the first one; nothing changes
        when there is no such conversation or no user message. */
    method GenerateConversationTitle(conversationId: string, now: int)
      modifies this
      ensures var t := AutoTitle(FindConversation(old(conversations), conversationId));
        (t.None? ==> conversations == old(conversations)) &&
        (t.Some? ==> conversations == PatchConversations(old(conversations), conversationId, Patch(None, t, None, None, None), now))
      ensures currentConversationId == old(currentConversationId)
    {
      var conversation := FindConversation(conversations, conversationId);
      if conversation.None? || |conversation.value.messages| == 0 {
        return;
      }
      var first := FirstUserMessage(conversation.value.messages);
      if first.Some? {
        var title := Shorten(first.value.content);
        UpdateConversation(conversationId, Patch(None, Some(title), None, None, None), now);
      }
    }

    /** `clearAllConversations`. */
    method ClearAllConversations()
      modifies this
      ensures conversations == [] && currentConversationId.None?
    {
      conversations := [];
      currentConversationId := None;
    }

    /** `partialize`: only the conversations are saved. */
    function Partialize(): (p: Persisted)
      reads this
      ensures p.conversations == Some(conversations) && p.currentConversationId.None?
    {
      Persisted(Some(conversations), None)
    }

    /** Rehydration: the saved fields replace the current ones, then the
        current id is reset. */
    method Rehydrate(p: Persisted)
      modifies this
      ensures currentConversationId.None?
      ensures conversations == if p.conversations.Some? then p.conversations.value else old(conversations)
    {
      if p.conversations.Some? {
        conversations := p.conversations.value;
      }
      if p.currentConversationId.Some? {
        currentConversationId := p.currentConversationId.value;
      }
      currentConversationId := None;
    }
  }
}
