/** The chart service client: the form sent to the upstream chart
    service, the outcome of the call, the normaliser that turns the
    upstream palace list into four index-aligned plates with their
    fallback strings, the detailed text, and the canned mock chart. */
module QimenApi {
  import opened Wrappers
  import opened Text
  import opened Types

  // ---------------------------------------------------------------------
  // Constants

  /** The fixed palace order used to name palaces in the detailed text. */
  const GongOrder: seq<string> := ["坎", "艮", "震", "巽", "离", "坤", "兑", "乾", "中"]

  const MissingPalacesMessage := "API响应数据格式错误：缺少九宫数据"
  const DataError := "数据错误"
  const DetailedInfoFailed := "生成详细信息失败"
  const LocationRequiredMessage := "使用真太阳时必须提供省市信息"

  /** The analysis text; it does not depend on the chart. */
  const AnalysisText := "基于奇门遁甲排盘的详细分析请查看【奇门遁甲报告】中的具体内容。AI助手将结合这些信息为您提供更深入的解读。"

  /** The suggestions; they do not depend on the chart. */
  const DefaultSuggestions: seq<string> := [
    "建议结合具体问题咨询AI助手",
    "注意观察时局变化",
    "吉凶仅供参考，决策需谨慎",
    "心诚则灵，意动则行"
  ]

  // ---------------------------------------------------------------------
  // Optional chaining into one palace (`pan.tianpan?.jiuxing` and so on)

  function Bashen(p: GongPan): Option<string> { if p.shenpan.Some? then p.shenpan.value.bashen else None }
  function Jiuxing(p: GongPan): Option<string> { if p.tianpan.Some? then p.tianpan.value.jiuxing else None }
  function TianpanSanqi(p: GongPan): Option<string> { if p.tianpan.Some? then p.tianpan.value.sanqiliuyi else None }
  function DipanSanqi(p: GongPan): Option<string> { if p.dipan.Some? then p.dipan.value.sanqiliuyi else None }
  function Bamen(p: GongPan): Option<string> { if p.renpan.Some? then p.renpan.value.bamen else None }

  // ---------------------------------------------------------------------
  // Plates

  /** The four plate cells of one palace: heaven, earth, human, spirit. */
  datatype PlateRow = PlateRow(tian: string, di: string, ren: string, shen: string)

  /** The cells for one `gong_pan` element. A null element makes the
      property reads throw, and the catch fills all four cells with the
      data-error marker; otherwise missing parts become '' (and '无' for
      the spirit plate). */
  function PalaceCells(entry: Option<GongPan>): (r: PlateRow)
    ensures entry.None? ==> r == PlateRow(DataError, DataError, DataError, DataError)
    ensures entry.Some? ==> r.tian == OrElse(Jiuxing(entry.value), "") + OrElse(TianpanSanqi(entry.value), "")
    ensures entry.Some? ==> r.di == OrElse(DipanSanqi(entry.value), "") && r.ren == OrElse(Bamen(entry.value), "")
    ensures entry.Some? && Truthy(Bashen(entry.value)) ==> r.shen == Bashen(entry.value).value
    ensures entry.Some? && !Truthy(Bashen(entry.value)) ==> r.shen == "无"
    ensures r.shen != ""
  {
    match entry
    case None => PlateRow(DataError, DataError, DataError, DataError)
    case Some(p) =>
      PlateRow(
        OrElse(Jiuxing(p), "") + OrElse(TianpanSanqi(p), ""),
        OrElse(DipanSanqi(p), ""),
        OrElse(Bamen(p), ""),
        OrElse(Bashen(p), "无"))
  }

  datatype PlateKind = Tian | Di | Ren | Shen

  function Cell(row: PlateRow, kind: PlateKind): string
  {
    match kind
    case Tian => row.tian
    case Di => row.di
    case Ren => row.ren
    case Shen => row.shen
  }

  /** One plate: the cell of that kind for every palace, in list order. */
  function Plate(entries: seq<Option<GongPan>>, kind: PlateKind): (r: seq<string>)
    ensures |r| == |entries|
    ensures forall i :: 0 <= i < |r| ==> r[i] == Cell(PalaceCells(entries[i]), kind)
  {
    seq(|entries|, i requires 0 <= i < |entries| => Cell(PalaceCells(entries[i]), kind))
  }

  /** A palace with every part missing yields empty cells and '无'. */
  lemma EmptyPalaceCells()
    ensures PalaceCells(Some(GongPan(None, None, None, None, None))) == PlateRow("", "", "", "无")
  {
  }

  // ---------------------------------------------------------------------
  // Basic information

  function GanZhi(gan: Option<string>, zhi: Option<string>): string
  {
    OrElse(gan, "") + OrElse(zhi, "")
  }

  /** The basic-information record, each field with its fixed fallback. */
  function BasicInfoOf(d: ApiData): (r: BasicInfo)
    ensures Truthy(d.gongli) ==> r.gongli == d.gongli.value
    ensures !Truthy(d.gongli) ==> r.gongli == "公历时间获取失败"
    ensures Truthy(d.nongli) ==> r.nongli == d.nongli.value
    ensures !Truthy(d.nongli) ==> r.nongli == "农历时间获取失败"
    ensures d.sizhuInfo.None? ==> r.sizhu == "四柱信息获取失败"
    ensures d.sizhuInfo.Some? ==> var s := d.sizhuInfo.value;
      r.sizhu == GanZhi(s.yearGan, s.yearZhi) + " " + GanZhi(s.monthGan, s.monthZhi) + " " +
        GanZhi(s.dayGan, s.dayZhi) + " " + GanZhi(s.hourGan, s.hourZhi)
    ensures d.zhifuInfo.None? ==> r.zhifu == "值符信息获取失败" && r.zhishi == "值使信息获取失败"
    ensures d.zhifuInfo.Some? ==> var z := d.zhifuInfo.value;
      r.zhifu == OrElse(z.zhifuName, "") + "星（落" + OrElse(z.zhifuLuogong, "") + "宫）" &&
      r.zhishi == OrElse(z.zhishiName, "") + "（落" + OrElse(z.zhishiLuogong, "") + "宫）"
    ensures r.dunju == OrElse(d.dunju, "遁局获取失败") + "（" + OrElse(d.dingju, "定局获取失败") + "）"
  {
    BasicInfo(
      OrElse(d.gongli, "公历时间获取失败"),
      OrElse(d.nongli, "农历时间获取失败"),
      match d.sizhuInfo
      case Some(s) =>
        GanZhi(s.yearGan, s.yearZhi) + " " + GanZhi(s.monthGan, s.monthZhi) + " " +
        GanZhi(s.dayGan, s.dayZhi) + " " + GanZhi(s.hourGan, s.hourZhi)
      case None => "四柱信息获取失败",
      match d.zhifuInfo
      case Some(z) => OrElse(z.zhifuName, "") + "星（落" + OrElse(z.zhifuLuogong, "") + "宫）"
      case None => "值符信息获取失败",
      match d.zhifuInfo
      case Some(z) => OrElse(z.zhishiName, "") + "（落" + OrElse(z.zhishiLuogong, "") + "宫）"
      case None => "值使信息获取失败",
      OrElse(d.dunju, "遁局获取失败") + "（" + OrElse(d.dingju, "定局获取失败") + "）")
  }

  /** A response whose data carries none of the optional fields gets the
      fixed fallback for every basic-information field. */
  lemma BasicInfoFallbacks(d: ApiData)
    requires d.gongli.None? && d.nongli.None? && d.sizhuInfo.None? && d.zhifuInfo.None?
    requires d.dunju.None? && d.dingju.None?
    ensures BasicInfoOf(d) == BasicInfo(
      "公历时间获取失败", "农历时间获取失败", "四柱信息获取失败",
      "值符信息获取失败", "值使信息获取失败", "遁局获取失败（定局获取失败）")
  {
  }

  // ---------------------------------------------------------------------
  // Detailed text

  /** The palace name: from the fixed order for the first nine, and
      `第<i+1>宫` after that, whose digits read back as the one-based
      position. */
  function GongName(index: nat): (r: string)
    ensures index < |GongOrder| ==> r == GongOrder[index]
    ensures index >= |GongOrder| ==>
      |r| >= 3 && r[..1] == "第" && r[|r| - 1..] == "宫" &&
      AllDigits(r[1..|r| - 1]) && ParseDigits(r[1..|r| - 1]) == index + 1
  {
    if index < |GongOrder| then GongOrder[index]
    else
      var digits := NatToString(index + 1);
      ParseNatToString(index + 1);
      var name := "第" + digits + "宫";
      assert name[1..|name| - 1] == digits;
      name
  }

  /** Distinct palaces get distinct names. */
  lemma GongNameInjective(i: nat, j: nat)
    requires i != j
    ensures GongName(i) != GongName(j)
  {
    if i >= 9 && j >= 9 {
      // the digits of the two names read back as different numbers
    } else if i >= 9 || j >= 9 {
      var k, h := if i >= 9 then i else j, if i >= 9 then j else i;
      assert |GongName(h)| == 1;
      assert |GongName(k)| >= 3;
    } else {
      assert GongOrder[i] != GongOrder[j];
    }
  }

  function DescriptionLines(desc: Option<PalaceDescription>): string
  {
    match desc
    case None => ""
    case Some(x) =>
      (if Truthy(x.gongJu) then "\n◎ 宫局状态：" + x.gongJu.value else "") +
      (if Truthy(x.luoGongDesc) then "\n◎ 详细解读：" + x.luoGongDesc.value else "")
  }

  /** The text of one palace at position `index`. */
  function PalaceSection(p: GongPan, index: nat): string
  {
    "\n────── " + GongName(index) + "宫 ──────" +
    "\n【神盘】" + OrElse(Bashen(p), "无") +
    "\n【天盘】九星：" + OrElse(Jiuxing(p), "") + " | 三奇六仪：" + OrElse(TianpanSanqi(p), "") +
    "\n【地盘】三奇六仪：" + OrElse(DipanSanqi(p), "") +
    "\n【人盘】八门：" + OrElse(Bamen(p), "") +
    DescriptionLines(p.description)
  }

  predicate AllPresent(entries: seq<Option<GongPan>>)
  {
    forall k :: 0 <= k < |entries| ==> entries[k].Some?
  }

  /** The palace sections in list order, each named by its position. */
  function PalaceSections(entries: seq<Option<GongPan>>): string
    requires AllPresent(entries)
  {
    if entries == [] then ""
    else PalaceSections(entries[..|entries| - 1]) + PalaceSection(entries[|entries| - 1].value, |entries| - 1)
  }

  function SizhuSection(info: Option<SizhuInfo>): string
  {
    match info
    case None => ""
    case Some(s) =>
      "────── 四柱信息 ──────\n" +
      "年柱：" + GanZhi(s.yearGan, s.yearZhi) + "\n" +
      "月柱：" + GanZhi(s.monthGan, s.monthZhi) + "\n" +
      "日柱：" + GanZhi(s.dayGan, s.dayZhi) + "\n" +
      "时柱：" + GanZhi(s.hourGan, s.hourZhi) + "\n\n"
  }

  function XunkongSection(info: Option<XunkongInfo>): string
  {
    match info
    case None => ""
    case Some(x) =>
      "────── 旬空信息 ──────\n" +
      "年柱旬空：" + OrElse(x.yearXunkong, "获取失败") + "\n" +
      "月柱旬空：" + OrElse(x.monthXunkong, "获取失败") + "\n" +
      "日柱旬空：" + OrElse(x.dayXunkong, "获取失败") + "\n" +
      "时柱旬空：" + OrElse(x.hourXunkong, "获取失败") + "\n\n"
  }

  function ZhifuLines(info: Option<ZhifuInfo>): string
  {
    match info
    case None => ""
    case Some(z) =>
      "值符：" + OrElse(z.zhifuName, "获取失败") + "星（落" + OrElse(z.zhifuLuogong, "") + "宫）\n" +
      "值使：" + OrElse(z.zhishiName, "获取失败") + "（落" + OrElse(z.zhishiLuogong, "") + "宫）\n"
  }

  function JieqiSection(d: ApiData): string
  {
    if Truthy(d.jieqiPre) || Truthy(d.jieqiNext) then
      "\n────── 节气信息 ──────\n" +
      (if Truthy(d.jieqiPre) then "上一节气：" + d.jieqiPre.value + "\n" else "") +
      (if Truthy(d.jieqiNext) then "下一节气：" + d.jieqiNext.value + "\n" else "")
    else ""
  }

  const BasicInfoBanner := "════════ 基础信息 ════════\n"

  /** Everything of the detailed text before the palace sections. */
  function DetailHeader(d: ApiData): (r: string)
    ensures |r| > 0 && r[0] == '═'
    ensures BasicInfoBanner <= r
  {
    BasicInfoBanner + DetailHeaderBody(d)
  }

  function DetailHeaderBody(d: ApiData): string
  {
    "公历时间：" + OrElse(d.gongli, "获取失败") + "\n" +
    "农历时间：" + OrElse(d.nongli, "获取失败") + "\n\n" +
    SizhuSection(d.sizhuInfo) +
    XunkongSection(d.xunkongInfo) +
    "────── 奇门遁甲信息 ──────\n" +
    ZhifuLines(d.zhifuInfo) +
    "符首：" + OrElse(d.fushou, "获取失败") + "\n" +
    "旬首：" + OrElse(d.xunshou, "获取失败") + "\n" +
    "遁局：" + OrElse(d.dunju, "获取失败") + "（" + OrElse(d.dingju, "获取失败") + "）\n" +
    (if Truthy(d.panlei) then "盘类：" + d.panlei.value + "\n" else "") +
    JieqiSection(d)
  }

  const PalaceBanner := "\n════════ 奇门遁甲宫盘分析 ════════"

  /** A null palace makes the whole detailed text fall back. */
  predicate HasNullPalace(field: GongPanField)
  {
    field.Palaces? && !AllPresent(field.entries)
  }

  /** The detailed text: the header, then (when the palace list is a list)
      the banner and one section per palace; a null palace turns the whole
      text into the failure message. */
  function DetailedInfo(d: ApiData): (r: string)
    ensures r == DetailedInfoFailed <==> HasNullPalace(d.gongPan)
  {
    if HasNullPalace(d.gongPan) then DetailedInfoFailed
    else
      var r := DetailHeader(d) + if d.gongPan.Palaces? then PalaceBanner + PalaceSections(d.gongPan.entries) else "";
      assert r[0] == '═' != DetailedInfoFailed[0];
      r
  }

  /** One more present palace appends one more section. */
  lemma {:induction false} PalaceSectionsSnoc(prefix: string, entries: seq<Option<GongPan>>, i: nat)
    requires i < |entries| && AllPresent(entries[..i]) && entries[i].Some?
    ensures AllPresent(entries[..i + 1])
    ensures prefix + PalaceSections(entries[..i]) + PalaceSection(entries[i].value, i) ==
            prefix + PalaceSections(entries[..i + 1])
  {
    var next := entries[..i + 1];
    assert next[..i] == entries[..i];
    assert AllPresent(next) by {
      forall k | 0 <= k < |next| ensures next[k].Some? {
        if k < i { assert next[k] == entries[..i][k]; }
      }
    }
    var a, b := PalaceSections(entries[..i]), PalaceSection(entries[i].value, i);
    assert PalaceSections(next) == a + b;
    AppendAssoc(prefix, a, b);
  }

  /** With every palace present, the detailed text is the header, the
      banner and the sections, in that order. */
  lemma DetailedInfoSections(d: ApiData)
    requires d.gongPan.Palaces? && AllPresent(d.gongPan.entries)
    ensures DetailedInfo(d) == DetailHeader(d) + PalaceBanner + PalaceSections(d.gongPan.entries)
  {
    AppendAssoc(DetailHeader(d), PalaceBanner, PalaceSections(d.gongPan.entries));
  }

  /** `generateDetailedInfo`: appends the palace sections one by one. */
  method GenerateDetailedInfo(d: ApiData) returns (text: string)
    ensures text == DetailedInfo(d)
  {
    var header := DetailHeader(d);
    if !d.gongPan.Palaces? {
      return header;
    }
    var entries := d.gongPan.entries;
    var prefix := header + PalaceBanner;
    text := prefix;
    var i := 0;
    while i < |entries|
      invariant 0 <= i <= |entries|
      invariant AllPresent(entries[..i])
      invariant text == prefix + PalaceSections(entries[..i])
    {
      if entries[i].None? {
        // reading a part of a null palace throws; the catch returns the failure text
        assert !AllPresent(entries);
        return DetailedInfoFailed;
      }
      PalaceSectionsSnoc(prefix, entries, i);
      text := text + PalaceSection(entries[i].value, i);
      i := i + 1;
    }
    assert entries[..i] == entries;
    DetailedInfoSections(d);
  }

  // ---------------------------------------------------------------------
  // The normaliser

  /** `processApiResponse` as a value: fails when `gong_pan` is missing or
      not an array; otherwise one cell per palace in each of the four
      plates, at the same index, plus the basic information, the fixed
      analysis and suggestions, and the detailed text. */
  function Normalise(d: ApiData): (r: Result<QimenResult, string>)
    ensures r.Failure? <==> !d.gongPan.Palaces?
    ensures r.Failure? ==> r.error == MissingPalacesMessage
    ensures r.Success? ==>
      var e, q := d.gongPan.entries, r.value;
      |q.tianpan| == |e| && |q.dipan| == |e| && |q.renpan| == |e| && |q.shenpan| == |e| &&
      (forall i :: 0 <= i < |e| ==> PlateRow(q.tianpan[i], q.dipan[i], q.renpan[i], q.shenpan[i]) == PalaceCells(e[i])) &&
      q.analysis == AnalysisText && q.suggestions == DefaultSuggestions &&
      q.basicInfo == BasicInfoOf(d) && q.detailedInfo == DetailedInfo(d)
  {
    if !d.gongPan.Palaces? then Failure(MissingPalacesMessage)
    else
      var e := d.gongPan.entries;
      Success(QimenResult(
        Plate(e, Tian), Plate(e, Di), Plate(e, Ren), Plate(e, Shen),
        AnalysisText,
        DefaultSuggestions,
        BasicInfoOf(d),
        DetailedInfo(d)))
  }

  /** Four lists whose cells agree with the palaces row by row are the
      four plates. */
  lemma PlatesFromRows(entries: seq<Option<GongPan>>, tianpan: seq<string>, dipan: seq<string>, renpan: seq<string>, shenpan: seq<string>)
    requires |tianpan| == |entries| && |dipan| == |entries| && |renpan| == |entries| && |shenpan| == |entries|
    requires forall k :: 0 <= k < |entries| ==>
      PlateRow(tianpan[k], dipan[k], renpan[k], shenpan[k]) == PalaceCells(entries[k])
    ensures tianpan == Plate(entries, Tian) && dipan == Plate(entries, Di)
    ensures renpan == Plate(entries, Ren) && shenpan == Plate(entries, Shen)
  {
    assert tianpan == Plate(entries, Tian);
    assert dipan == Plate(entries, Di);
    assert renpan == Plate(entries, Ren);
    assert shenpan == Plate(entries, Shen);
  }

  /** The loop of `processApiResponse`: one cell per palace pushed onto
      each of the four plates. */
  method PushPlates(entries: seq<Option<GongPan>>) returns (tianpan: seq<string>, dipan: seq<string>, renpan: seq<string>, shenpan: seq<string>)
    ensures tianpan == Plate(entries, Tian) && dipan == Plate(entries, Di)
    ensures renpan == Plate(entries, Ren) && shenpan == Plate(entries, Shen)
  {
    tianpan, dipan, renpan, shenpan := [], [], [], [];
    var i := 0;
    while i < |entries|
      invariant 0 <= i <= |entries|
      invariant |tianpan| == i && |dipan| == i && |renpan| == i && |shenpan| == i
      invariant forall k :: 0 <= k < i ==>
        PlateRow(tianpan[k], dipan[k], renpan[k], shenpan[k]) == PalaceCells(entries[k])
    {
      // the guarded reads of one palace (a null palace takes the catch)
      var row := PalaceCells(entries[i]);
      tianpan, dipan, renpan, shenpan := tianpan + [row.tian], dipan + [row.di], renpan + [row.ren], shenpan + [row.shen];
      i := i + 1;
    }
    PlatesFromRows(entries, tianpan, dipan, renpan, shenpan);
  }

  /** `processApiResponse`: the four plates, the basic information, the
      fixed analysis and suggestions, and the detailed text. */
  method ProcessApiResponse(response: ApiResponse) returns (r: Result<QimenResult, string>)
    ensures r == Normalise(response.data)
  {
    var d := response.data;
    if !d.gongPan.Palaces? {
      return Failure(MissingPalacesMessage);
    }
    var tianpan, dipan, renpan, shenpan := PushPlates(d.gongPan.entries);
    var detailed := GenerateDetailedInfo(d);
    r := Success(QimenResult(tianpan, dipan, renpan, shenpan, AnalysisText, DefaultSuggestions, BasicInfoOf(d), detailed));
  }

  // ---------------------------------------------------------------------
  // The request

  /** The fields `callQimenAPI` appends to its form, as strings. The last
      three are appended only in some cases. */
  datatype Form = Form(
    name: string,
    sex: string,
    chartType: string,
    year: string,
    month: string,
    day: string,
    hours: string,
    minute: string,
    juModel: string,
    panModel: string,
    zhen: string,
    feiPanModel: Option<string>,
    province: Option<string>,
    city: Option<string>)

  /** True solar time (`zhen === 1`) without both a province and a city. */
  predicate MissingLocation(input: QimenInput)
    ensures MissingLocation(input) ==> input.zhen == Some(1)
    ensures input.zhen == Some(1) && Truthy(input.province) && Truthy(input.city) ==> !MissingLocation(input)
    ensures input.zhen == Some(1) && (input.province.None? || input.city.None?) ==> MissingLocation(input)
  {
    input.zhen == Some(1) && (!Truthy(input.province) || !Truthy(input.city))
  }

  /** The form of `callQimenAPI`, or the error it throws when true solar
      time is asked for without a location. */
  function BuildForm(input: QimenInput): (r: Result<Form, string>)
    ensures r.Failure? <==> MissingLocation(input)
    ensures r.Failure? ==> r.error == LocationRequiredMessage
    ensures r.Success? ==>
      var f := r.value;
      f.name == "用户" && f.chartType == "1" &&
      (f.sex == "0" <==> input.gender == "male") && (f.sex == "1" <==> input.gender != "male") &&
      (f.feiPanModel.Some? <==> input.feiPanModel.Some? && input.panModel == Some(0)) &&
      (f.province.Some? <==> input.zhen == Some(1)) && (f.city.Some? <==> input.zhen == Some(1)) &&
      (input.zhen == Some(1) ==> Truthy(f.province) && Truthy(f.city)) &&
      (input.zhen == Some(1) ==> f.province == input.province && f.city == input.city) &&
      (f.feiPanModel.Some? ==> f.feiPanModel.value == IntToString(input.feiPanModel.value))
  {
    if MissingLocation(input) then Failure(LocationRequiredMessage)
    else
      var located := input.zhen == Some(1);
      Success(Form(
        "用户",
        if input.gender == "male" then "0" else "1",
        "1",
        IntToString(input.year),
        IntToString(input.month),
        IntToString(input.day),
        IntToString(input.hours),
        IntToString(input.minute),
        IntToString(OrInt(input.juModel, 0)),
        IntToString(OrInt(input.panModel, 1)),
        IntToString(OrInt(input.zhen, 2)),
        if input.feiPanModel.Some? && input.panModel == Some(0) then Some(IntToString(input.feiPanModel.value)) else None,
        if located then input.province else None,
        if located then input.city else None))
  }

  /** The numeric fields read back as the request's numbers, with the
      defaults 0, 1 and 2 standing in for missing (or zero) models. */
  lemma {:induction false} BuildFormNumbers(input: QimenInput)
    requires !MissingLocation(input)
    requires input.year >= 0 && input.month >= 0 && input.day >= 0 && input.hours >= 0 && input.minute >= 0
    requires input.juModel.Some? ==> input.juModel.value >= 0
    requires input.panModel.Some? ==> input.panModel.value >= 0
    requires input.zhen.Some? ==> input.zhen.value >= 0
    ensures var f := BuildForm(input).value;
      ParseDigits(f.year) == input.year && ParseDigits(f.month) == input.month &&
      ParseDigits(f.day) == input.day && ParseDigits(f.hours) == input.hours &&
      ParseDigits(f.minute) == input.minute &&
      ParseDigits(f.juModel) == (if input.juModel.Some? && input.juModel.value != 0 then input.juModel.value else 0) &&
      ParseDigits(f.panModel) == (if input.panModel.Some? && input.panModel.value != 0 then input.panModel.value else 1) &&
      ParseDigits(f.zhen) == (if input.zhen.Some? && input.zhen.value != 0 then input.zhen.value else 2)
  {
    ParseNatToString(input.year);
    ParseNatToString(input.month);
    ParseNatToString(input.day);
    ParseNatToString(input.hours);
    ParseNatToString(input.minute);
    ParseNatToString(OrInt(input.juModel, 0));
    ParseNatToString(OrInt(input.panModel, 1));
    ParseNatToString(OrInt(input.zhen, 2));
  }

  /** The outcome of `callQimenAPI` given what the transport produced
      (None for a network failure, an HTTP error status or a body that is
      not JSON). The missing-location error is raised before the guarded
      block and escapes; everything else that fails, including a non-zero
      `errcode`, becomes null. */
  function CallQimenApi(input: QimenInput, transport: Option<ApiResponse>): (r: Result<Option<ApiResponse>, string>)
    ensures r.Failure? <==> MissingLocation(input)
    ensures r.Failure? ==> r.error == LocationRequiredMessage
    ensures r.Success? && r.value.Some? <==> !MissingLocation(input) && transport.Some? && transport.value.errcode == 0
    ensures r.Success? && r.value.Some? ==> r.value == transport
  {
    if MissingLocation(input) then Failure(LocationRequiredMessage)
    else if transport.Some? && transport.value.errcode == 0 then Success(transport)
    else Success(None)
  }

  // ---------------------------------------------------------------------
  // The mock chart

  const MockTianpan: seq<string> := ["天蓬甲", "天芮乙", "天冲丙", "天辅丁", "天禽戊", "天心己", "天柱庚", "天任辛", "天英壬"]
  const MockDipan: seq<string> := ["戊", "己", "庚", "辛", "壬", "癸", "丁", "丙", "乙"]
  const MockRenpan: seq<string> := ["休门", "死门", "伤门", "杜门", "开门", "惊门", "生门", "景门", "中宫"]
  const MockShenpan: seq<string> := ["值符", "腾蛇", "太阴", "六合", "白虎", "玄武", "九地", "九天", "无"]
  const MockAnalysis := "根据您提供的时间进行奇门遁甲排盘分析：\n\n当前时局显示为模拟数据，实际使用时将调用真实API获取准确的排盘结果。\n\n请注意这是开发测试版本，正式使用前请配置正确的API密钥。"
  const MockSuggestions: seq<string> := [
    "这是模拟建议1：建议在吉时进行重要决策",
    "这是模拟建议2：注意避开不利的方位和时间",
    "这是模拟建议3：可以考虑佩戴相应的吉祥物品",
    "这是模拟建议4：保持积极的心态和行动"
  ]
  const MockDetailedInfo := "这是模拟的详细信息，实际使用时将显示完整的奇门遁甲分析内容。"

  /** `mockApiCall`: a fixed nine-palace chart whose calendar time is the
      request's date fields as `YYYY-MM-DD HH:mm`. */
  function MockResult(input: QimenInput): (r: QimenResult)
    ensures |r.tianpan| == 9 && |r.dipan| == 9 && |r.renpan| == 9 && |r.shenpan| == 9
    ensures |r.suggestions| == 4
    ensures r.basicInfo.gongli == Stamp(input.year, input.month, input.day, input.hours, input.minute)
  {
    QimenResult(
      MockTianpan, MockDipan, MockRenpan, MockShenpan,
      MockAnalysis, MockSuggestions,
      BasicInfo(
        Stamp(input.year, input.month, input.day, input.hours, input.minute),
        "农历时间（模拟）", "四柱信息（模拟）", "值符信息（模拟）", "值使信息（模拟）", "遁局信息（模拟）"),
      MockDetailedInfo)
  }

  /** A request for 2024-01-01 12:00 gets the calendar time "2024-01-01 12:00". */
  lemma MockGongliExample(input: QimenInput)
    requires input.year == 2024 && input.month == 1 && input.day == 1 && input.hours == 12 && input.minute == 0
    ensures MockResult(input).basicInfo.gongli == "2024-01-01 12:00"
  {
    assert NatToString(2024) == "2024" by {
      assert NatToString(2) == "2";
      assert NatToString(20) == "20";
      assert NatToString(202) == "202";
    }
    assert Pad2(1) == "01";
    assert Pad2(12) == "12" by { assert NatToString(1) == "1"; }
    assert Pad2(0) == "00";
  }
}
