/** The application's records: chat messages, the chart request
    (QimenInput), the normalised chart (QimenResult), the stored report,
    and the upstream chart service's response as it arrives, with every
    field that may be missing wrapped in an Option. */
module Types {
  import opened Wrappers
  import opened Text

  // ---------------------------------------------------------------------
  // Chat messages

  datatype Role = System | User | Assistant

  /** The optional message kind: plain text or a chart card. */
  datatype MessageKind = TextKind | ReportKind

  datatype ChatMessage = ChatMessage(
    id: string,
    role: Role,
    content: string,
    timestamp: int,
    kind: Option<MessageKind>,
    reportId: Option<string>)

  /** One message with `text` appended to its content when its id is `id`. */
  function AppendIfId(m: ChatMessage, id: string, text: string): ChatMessage
  {
    if m.id == id then m.(content := m.content + text) else m
  }

  /** A list of messages with `text` appended to the content of every
      message whose id is `id`, as the streaming updates do. */
  function AppendContent(messages: seq<ChatMessage>, id: string, text: string): (r: seq<ChatMessage>)
    ensures |r| == |messages|
    ensures forall i :: 0 <= i < |r| ==>
      r[i].id == messages[i].id && r[i].role == messages[i].role &&
      r[i].timestamp == messages[i].timestamp && r[i].kind == messages[i].kind &&
      r[i].reportId == messages[i].reportId
    ensures forall i :: 0 <= i < |r| ==>
      r[i].content == if messages[i].id == id then messages[i].content + text else messages[i].content
  {
    seq(|messages|, i requires 0 <= i < |messages| => AppendIfId(messages[i], id, text))
  }

  /** Appending nothing changes nothing. */
  lemma AppendContentEmpty(messages: seq<ChatMessage>, id: string)
    ensures AppendContent(messages, id, "") == messages
  {
    assert forall i :: 0 <= i < |messages| ==> AppendContent(messages, id, "")[i] == messages[i];
  }

  /** An unknown id changes nothing. */
  lemma AppendContentUnknownId(messages: seq<ChatMessage>, id: string, text: string)
    requires forall i :: 0 <= i < |messages| ==> messages[i].id != id
    ensures AppendContent(messages, id, text) == messages
  {
    assert forall i :: 0 <= i < |messages| ==> AppendContent(messages, id, text)[i] == messages[i];
  }

  /** Two streamed chunks arrive in order: appending `a` and then `b` is
      appending `a + b`, so the content ends in `a + b`. */
  lemma AppendContentTwice(messages: seq<ChatMessage>, id: string, a: string, b: string)
    ensures AppendContent(AppendContent(messages, id, a), id, b) == AppendContent(messages, id, a + b)
  {
    var mid := AppendContent(messages, id, a);
    var lhs, rhs := AppendContent(mid, id, b), AppendContent(messages, id, a + b);
    forall i | 0 <= i < |messages| ensures lhs[i] == rhs[i] {
      var m := messages[i];
      assert mid[i] == AppendIfId(m, id, a);
      assert lhs[i] == AppendIfId(mid[i], id, b);
      assert rhs[i] == AppendIfId(m, id, a + b);
      AppendAssoc(m.content, a, b);
    }
  }

  // ---------------------------------------------------------------------
  // Dates

  /** The local-time view of a JavaScript `Date`, as its getters return
      it: `getFullYear`, `getMonth` (0 = January), `getDate`, `getHours`,
      `getMinutes`. Seconds and milliseconds are not modelled. */
  datatype DateTime = DateTime(year: int, monthIndex: int, day: int, hours: int, minutes: int)

  // ---------------------------------------------------------------------
  // Chart request and result

  /** A chart request. `datetime` is None when the value is not a `Date`
      object (for instance a string that came back from storage);
      `gender` is the raw string, checked at run time. */
  datatype QimenInput = QimenInput(
    datetime: Option<DateTime>,
    gender: string,
    questionType: string,
    question: Option<string>,
    year: int,
    month: int,
    day: int,
    hours: int,
    minute: int,
    juModel: Option<int>,
    panModel: Option<int>,
    feiPanModel: Option<int>,
    zhen: Option<int>,
    province: Option<string>,
    city: Option<string>)

  datatype BasicInfo = BasicInfo(
    gongli: string,
    nongli: string,
    sizhu: string,
    zhifu: string,
    zhishi: string,
    dunju: string)

  /** The normalised chart: four plates (heaven, earth, human, spirit),
      the analysis text, suggestions, the basic information and the
      detailed text. */
  datatype QimenResult = QimenResult(
    tianpan: seq<string>,
    dipan: seq<string>,
    renpan: seq<string>,
    shenpan: seq<string>,
    analysis: string,
    suggestions: seq<string>,
    basicInfo: BasicInfo,
    detailedInfo: string)

  datatype QimenReport = QimenReport(
    id: string,
    input: QimenInput,
    result: QimenResult,
    timestamp: int)

  // ---------------------------------------------------------------------
  // Upstream chart service response

  datatype SizhuInfo = SizhuInfo(
    yearGan: Option<string>, yearZhi: Option<string>,
    monthGan: Option<string>, monthZhi: Option<string>,
    dayGan: Option<string>, dayZhi: Option<string>,
    hourGan: Option<string>, hourZhi: Option<string>)

  datatype XunkongInfo = XunkongInfo(
    yearXunkong: Option<string>, monthXunkong: Option<string>,
    dayXunkong: Option<string>, hourXunkong: Option<string>)

  datatype ZhifuInfo = ZhifuInfo(
    zhifuName: Option<string>, zhifuLuogong: Option<string>,
    zhishiName: Option<string>, zhishiLuogong: Option<string>)

  datatype ShenpanCell = ShenpanCell(bashen: Option<string>)
  datatype TianpanCell = TianpanCell(jiuxing: Option<string>, sanqiliuyi: Option<string>)
  datatype DipanCell = DipanCell(sanqiliuyi: Option<string>)
  datatype RenpanCell = RenpanCell(bamen: Option<string>)
  datatype PalaceDescription = PalaceDescription(gongJu: Option<string>, luoGongDesc: Option<string>)

  /** One palace of the upstream `gong_pan` list; each part may be missing. */
  datatype GongPan = GongPan(
    shenpan: Option<ShenpanCell>,
    tianpan: Option<TianpanCell>,
    dipan: Option<DipanCell>,
    renpan: Option<RenpanCell>,
    description: Option<PalaceDescription>)

  /** The `gong_pan` field: missing (or falsy), present but not an array,
      or an array whose elements may be null (None). */
  datatype GongPanField = Absent | NotAList | Palaces(entries: seq<Option<GongPan>>)

  datatype ApiData = ApiData(
    gongli: Option<string>,
    nongli: Option<string>,
    sizhuInfo: Option<SizhuInfo>,
    xunkongInfo: Option<XunkongInfo>,
    zhifuInfo: Option<ZhifuInfo>,
    fushou: Option<string>,
    xunshou: Option<string>,
    dunju: Option<string>,
    dingju: Option<string>,
    panlei: Option<string>,
    jieqiPre: Option<string>,
    jieqiNext: Option<string>,
    gongPan: GongPanField)

  datatype ApiResponse = ApiResponse(errcode: int, errmsg: string, notice: string, data: ApiData)

  /** A value caught by a `catch` clause: an `Error` with its message, or
      anything else that was thrown. */
  datatype Thrown = ErrorObject(message: string) | NonError
}
