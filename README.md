# Qimen Dunjia chart and chat core, modelled in Dafny

The application casts a Qimen Dunjia (奇门遁甲) chart for a moment in time
and then discusses the chart with a language model. This project models
its core logic:

- **Chart calculation.** The calculator checks a request and derives the
  upstream request from the date. It builds the form sent to the chart
  service. It normalises the service's answer into four plates (heaven,
  earth, human, spirit), the basic information and a detailed text. When
  the service cannot be used it falls back to a fixed mock chart.
- **AI chat requests.** The chart text handed to the model, the message
  list of a request (system prompt, at most ten recent messages, the
  current message) and the assistant reply, including the fallback text
  for every failure.
- **Client stores.** The chat message list, the chart history (at most
  50 reports, newest first), the conversations (creation, deletion,
  selection, per-conversation messages, automatic titles, relative
  times), the theme (light/dark/system cycle) and the user profile with
  its birth chart.

Values the program reads from its environment are parameters:

- `freshId` stands for `nanoid()` and `now` for `Date.now()`.
- `transport` is what the chart service request produced (None when it
  failed at the network, HTTP or JSON level).
- `outcome` is what the chat request came to.
- `prefersDark` is the window's colour-scheme preference.

Stores are classes whose fields are the store state. Every state change is
a method with a `modifies` clause and a full statement of the new state.
The pure functions those methods use carry the properties: round trips,
filters, bounds and idempotence.

Modules, one per file: `Wrappers` (Option, Result), `Text` (JavaScript
string conversions), `Types`, `QimenApi`, `QimenCalculator`, `AiService`,
`ChatStore`, `QimenStore`, `ConversationStore`, `ThemeStore`, `UserStore`.

## Model

| member | source | states |
|---|---|---|
| Text.Take | src/store/useQimenStore.ts:108 | `slice(0, n)`: the first `n` characters, or the whole string when it is shorter |
| Text.NatToString | src/lib/qimen-api.ts:26-33 | `toString()` of a non-negative number: at least one digit, only digits, no leading zero, one digit exactly below 10 |
| Text.ParseNatToString | src/lib/qimen-api.ts:26-33 | reading the decimal digits back gives the number: `toString` is inverted by parsing |
| Text.ParseLeadingZero | src/lib/qimen-calculator.ts:121-124 | a leading `0` does not change the value a digit string reads as, so a padded field reads back as its number |
| Text.Pad2Digits | src/lib/qimen-calculator.ts:121-124 | `toString().padStart(2, '0')` of 0..99 is two digits that read back as the number |
| Text.StampFields | src/lib/qimen-api.ts:292 | the `YYYY-MM-DD HH:mm` stamp has every field at a fixed position from the end and each field reads back as its number |
| Types.AppendContent | src/store/useChatStore.ts:27-34 | the same messages in the same order; only those with the given id have the text appended to their content |
| Types.AppendContentEmpty | src/store/useChatStore.ts:27-34 | appending the empty text changes nothing |
| Types.AppendContentUnknownId | src/store/useChatStore.ts:27-34 | an id no message has changes nothing |
| Types.AppendContentTwice | src/store/useChatStore.ts:27-34 | two streamed chunks in a row equal one chunk holding both texts |
| QimenApi.PalaceCells | src/lib/qimen-api.ts:116-129 | a null palace gives `数据错误` in all four cells; otherwise heaven is star plus heaven stem, earth is the earth stem, human is the door, each `''` when missing, and spirit is the spirit when non-empty, else `无`; the spirit cell is never empty |
| QimenApi.Plate | src/lib/qimen-api.ts:105-129 | one cell per palace, in palace order |
| QimenApi.EmptyPalaceCells | src/lib/qimen-api.ts:118-121 | a palace without any sub-object gives empty cells and `无` for the spirit |
| QimenApi.BasicInfoOf | src/lib/qimen-api.ts:147-160 | a non-empty calendar or lunar time is copied, else its fixed fallback; the pillars are the four stem-branch pairs joined by spaces, else `四柱信息获取失败`; the duty star and duty door are name plus palace, else their fixed fallbacks; the ju is ju plus fixed ju in full-width brackets, each part with its own fallback |
| QimenApi.BasicInfoFallbacks | src/lib/qimen-api.ts:147-160 | data without any of the optional fields gives the fixed fallback text for every basic-information field |
| QimenApi.GongName | src/lib/qimen-api.ts:215 | the trigram name of the first nine positions; after them `第<n>宫`, whose digits read back as the one-based position |
| QimenApi.GongNameInjective | src/lib/qimen-api.ts:215 | distinct palace indices get distinct palace names (the nine trigram names, then `第N宫`) |
| QimenApi.DetailHeader | src/lib/qimen-api.ts:172-209 | the detailed text starts with the basic-information banner `════════ 基础信息 ════════` |
| QimenApi.DetailedInfo | src/lib/qimen-api.ts:168-247 | the text is the failure message exactly when the palace list holds a null palace |
| QimenApi.DetailedInfoSections | src/lib/qimen-api.ts:211-240 | with only present palaces, the text is the header, the palace banner and one section per palace in order |
| QimenApi.GenerateDetailedInfo | src/lib/qimen-api.ts:168-247 | the loop that appends one section per palace builds exactly the detailed text |
| QimenApi.Normalise | src/lib/qimen-api.ts:98-163 | no palace list means the missing-palace error; otherwise four plates as long as the list, row by row equal to the palace cells, the fixed analysis and suggestions, the basic information and the detailed text |
| QimenApi.PushPlates | src/lib/qimen-api.ts:105-129 | the loop pushing one cell per palace onto four lists builds the four plates |
| QimenApi.ProcessApiResponse | src/lib/qimen-api.ts:98-163 | the imperative normalisation equals the normalised result, including the error |
| QimenApi.BuildForm | src/lib/qimen-api.ts:21-47 | fails exactly when true solar time lacks a province or a city, with that message; otherwise the fixed name and calendar type, `sex` 0 exactly for male, `fei_pan_model` exactly when given with `pan_model` 0 and then its decimal text, province and city exactly with true solar time and then the input's own |
| QimenApi.MissingLocation | src/lib/qimen-api.ts:41-44 | a location can be missing only with true solar time; with both province and city non-empty it is not, and with either absent it is |
| QimenApi.BuildFormNumbers | src/lib/qimen-api.ts:26-33 | every numeric form field reads back as the request's number, and missing or zero models read back as the defaults 0, 1 and 2 |
| QimenApi.CallQimenApi | src/lib/qimen-api.ts:14-93 | the missing-location error escapes; a response is returned exactly when the transport produced one with `errcode` 0; every other failure is null |
| QimenApi.MockResult | src/lib/qimen-api.ts:274-301 | nine cells in each mock plate, four suggestions, and the calendar time stamped from the request's fields |
| QimenApi.MockGongliExample | src/lib/qimen-api.ts:292 | 2024-01-01 12:00 is stamped as `2024-01-01 12:00` |
| QimenCalculator.ValidInput | src/lib/qimen-calculator.ts:79-86 | a valid input has a date and a non-empty question type; a gender other than male or female is never valid |
| QimenCalculator.ApiInput | src/lib/qimen-calculator.ts:22-32 | the date fields are read from the date (month one-based); the models default through `\|\|` to 0, 1 and 2; every other field is kept |
| QimenCalculator.ApiInputIdempotent | src/lib/qimen-calculator.ts:22-32 | a derived request is valid and deriving it again changes nothing |
| QimenCalculator.ApiInputNeverFlyingPlate | src/lib/qimen-calculator.ts:30 | the derived plate model is never 0, so the form never carries `fei_pan_model` |
| QimenCalculator.Calculate | src/lib/qimen-calculator.ts:15-77 | fails exactly on invalid input with the fixed message; otherwise a report with the fresh id, the clock and the derived request, holding the upstream chart when the service answered usably and the mock chart otherwise |
| QimenCalculator.CalculateTotal | src/lib/qimen-calculator.ts:34-62 | after validation every failure falls back, so a valid input always yields a report |
| QimenCalculator.MissingLocationFallsBack | src/lib/qimen-calculator.ts:57-62 | true solar time without a location yields the mock chart |
| QimenCalculator.MockGongliIsFormatted | src/lib/qimen-calculator.ts:68-77 | the mock chart's calendar time equals the formatted date of the request |
| QimenCalculator.GetCurrentTimeInput | src/lib/qimen-calculator.ts:91-103 | the date and its fields, with the question type defaulting to `general` and the gender to `male` only when missing |
| QimenCalculator.CurrentTimeInputValid | src/lib/qimen-calculator.ts:79-103 | the default current-time request passes validation and keeps its date fields through derivation |
| QimenCalculator.NotAfterTransitive | src/lib/qimen-calculator.ts:113 | the date order is transitive |
| QimenCalculator.NotAfterTotal | src/lib/qimen-calculator.ts:113 | any two dates are comparable |
| QimenCalculator.ValidateDateTime | src/lib/qimen-calculator.ts:108-114 | an accepted date lies between 1900 and ten years after the present year; both ends of the window are accepted |
| QimenCalculator.ValidateDateTimeConvex | src/lib/qimen-calculator.ts:108-114 | the accepted dates form an interval |
| QimenCalculator.ValidateDateTimeBounds | src/lib/qimen-calculator.ts:108-114 | the present is accepted, so is every date of the next ten years, and nothing after the last year or before 1900 |
| QimenCalculator.FormatDateTime | src/lib/qimen-calculator.ts:119-127 | `YYYY-MM-DD HH:mm` with a one-based month; the stamp of a well-formed date reads back as its year, one-based month, day, hour and minute |
| QimenCalculator.FormatDateTimeInjective | src/lib/qimen-calculator.ts:119-127 | distinct dates are formatted differently |
| AiService.SuggestionLinesCount | src/lib/ai-service.ts:319-324 | suggestions without line breaks give exactly one line each |
| AiService.QuestionLines | src/lib/ai-service.ts:306-310 | the question banner and the question type, then the `具体问题` line exactly when the question is non-empty |
| AiService.AnalysisLines | src/lib/ai-service.ts:313-316 | the analysis banner and the analysis exactly when the analysis is non-empty, else nothing |
| AiService.SuggestionsBlock | src/lib/ai-service.ts:319-324 | the `初步建议` banner and the numbered lines exactly when there are suggestions, else nothing |
| AiService.ReportText | src/lib/ai-service.ts:203-327 | the basic-information block, then the question lines, the analysis section and the suggestions section, each present under the conditions stated for it; the text opens with the basic information and ends with the numbered suggestion lines |
| AiService.ReportTextDependsOn | src/lib/ai-service.ts:203-327 | the chart text depends only on the basic information, analysis, suggestions and question, not on the id, time stamp, plates or detailed text |
| AiService.FormatQimenReport | src/lib/ai-service.ts:203-327 | the loop numbering the suggestions builds exactly the chart text |
| AiService.Recent | src/lib/ai-service.ts:155 | `slice(-n)`: the last `n` messages, or all of them |
| AiService.Conversational | src/lib/ai-service.ts:156-163 | no system message passes, and never more messages than given; with `ConversationalSingle` and `ConversationalAppend` it keeps exactly the non-system messages, in order |
| AiService.ConversationalSingle | src/lib/ai-service.ts:157-162 | one message becomes its role and content exactly when it is not a system message, and is dropped otherwise |
| AiService.ConversationalAppend | src/lib/ai-service.ts:156-163 | filtering distributes over concatenation |
| AiService.ConversationalKeepsChat | src/lib/ai-service.ts:156-163 | a history without system messages passes through whole, as role and content |
| AiService.Messages | src/lib/ai-service.ts:134-172 | between 2 and 12 messages: the system message first (prompt, plus the chart text when there is a report), the current user message last, and in between exactly the non-system messages among the last ten of the history |
| AiService.MessagesWindow | src/lib/ai-service.ts:155 | once the history holds ten messages, a new message pushes the oldest out of the request |
| AiService.BuildMessages | src/lib/ai-service.ts:134-172 | the loop builds exactly the message list |
| AiService.ReplyText | src/lib/ai-service.ts:128 | the first choice's content when it exists and is non-empty, otherwise the fixed no-reply text; never empty |
| AiService.ReplyContent | src/lib/ai-service.ts:89-101 | never empty; a failure gives the fixed frame around the error's message |
| AiService.FailureReplyFrame | src/lib/ai-service.ts:93-94 | the failure message sits between the fixed prefix and suffix |
| AiService.SendMessage | src/lib/ai-service.ts:71-103 | the request is the message list; the reply is an assistant message with the fresh id, the clock and a non-empty content; it never fails |
| ChatStore.NewMessage | src/store/useChatStore.ts:17-22 | a message with the fresh id, role, content and clock, and no kind or report id |
| ChatStore.MessageStore.constructor | src/store/useChatStore.ts:10 | the list starts empty |
| ChatStore.MessageStore.AddMessage | src/store/useChatStore.ts:13-24 | exactly one message appended, the rest kept |
| ChatStore.MessageStore.UpdateMessage | src/store/useChatStore.ts:27-34 | the list becomes the appended-content list; same length; an unknown id changes nothing |
| ChatStore.MessageStore.ClearMessages | src/store/useChatStore.ts:37 | the list is empty |
| ChatStore.MessageStore.Partialize | src/store/useChatStore.ts:39-42 | only the message list is saved |
| ChatStore.MessageStore.Rehydrate | src/store/useChatStore.ts:39-42 | a saved list replaces the current one; without one the list is kept |
| ChatStore.SaveAndRestore | src/store/useChatStore.ts:39-42 | saving and restoring carries the message list over unchanged |
| QimenStore.Prefix | src/store/useQimenStore.ts:33 | `slice(0, n)`: the first `n` elements, or all of them |
| QimenStore.PushHistory | src/store/useQimenStore.ts:33 | the new report first, then the older ones cut so that at most 50 remain |
| QimenStore.PushAllNewestFirst | src/store/useQimenStore.ts:33 | after several reports the history is the newest 50 of all of them, newest first |
| QimenStore.PushAllBounded | src/store/useQimenStore.ts:33 | the history never exceeds 50 and starts with the last report added |
| QimenStore.RemoveById | src/store/useQimenStore.ts:57 | a report stays exactly when its id differs; none with the id remains; never longer |
| QimenStore.RemoveByIdSingle | src/store/useQimenStore.ts:57 | a single report is kept exactly when its id differs |
| QimenStore.RemoveByIdAppend | src/store/useQimenStore.ts:57 | filtering distributes over concatenation, so the kept reports stay in their order |
| QimenStore.RemoveByIdAbsent | src/store/useQimenStore.ts:57 | removing an id no report has changes nothing |
| QimenStore.RemoveByIdIdempotent | src/store/useQimenStore.ts:57 | removing twice is removing once |
| QimenStore.FindById | src/store/useQimenStore.ts:52 | none exactly when no report has the id; otherwise the first report with it |
| QimenStore.FindAfterPushAndRemove | src/store/useQimenStore.ts:31-64 | a generated report is found by its id; a deleted id is not found |
| QimenStore.Summary | src/store/useQimenStore.ts:103-111 | the title is calendar time and question type; the preview is at most 100 characters of the analysis followed by `...` |
| QimenStore.CaughtMessage | src/store/useQimenStore.ts:38 | an Error's own message, anything else the fixed unknown-error text |
| QimenStore.Migrate | src/store/useQimenStore.ts:76-85 | version 0 gains a null error; other versions pass through |
| QimenStore.ChartStore.constructor | src/store/useQimenStore.ts:22-25 | no current report, no reports, not generating, no error; the history bound holds |
| QimenStore.ChartStore.BeginGenerate | src/store/useQimenStore.ts:28 | generating, error cleared, reports kept |
| QimenStore.ChartStore.FinishGenerate | src/store/useQimenStore.ts:31-44 | a report becomes current and is pushed onto the history; a thrown error sets the message; never generating afterwards; a new report leaves at most 50 reports, and a bounded history stays bounded |
| QimenStore.ChartStore.GenerateReport | src/store/useQimenStore.ts:27-45 | valid input makes the calculator's report current and first in the history, leaving at most 50; invalid input sets the calculator's message and keeps the reports |
| QimenStore.ChartStore.SetCurrentReport | src/store/useQimenStore.ts:47 | only the current report changes |
| QimenStore.ChartStore.ClearCurrentReport | src/store/useQimenStore.ts:49 | only the current report is cleared |
| QimenStore.ChartStore.GetReportById | src/store/useQimenStore.ts:51-53 | the first report with that id |
| QimenStore.ChartStore.DeleteReport | src/store/useQimenStore.ts:55-64 | the reports with that id go; the current report is cleared exactly when it has that id; a bounded history stays bounded |
| QimenStore.ChartStore.ClearError | src/store/useQimenStore.ts:66 | only the error is cleared |
| QimenStore.ChartStore.Partialize | src/store/useQimenStore.ts:70-73 | only the reports are saved |
| QimenStore.ChartStore.Rehydrate | src/store/useQimenStore.ts:87-91 | the saved fields are restored and the current report is reset; a saved history of at most 50 leaves the store bounded |
| QimenStore.SaveAndRestore | src/store/useQimenStore.ts:70-91 | saving and restoring keeps the reports and drops the current report; a bounded history stays bounded |
| ConversationStore.NewTitle | src/store/useConversationStore.ts:36-60 | a report's calendar time and question type; else the given title; else `新对话` |
| ConversationStore.NewConversation | src/store/useConversationStore.ts:36-60 | a new conversation has no messages, and its creation and update times are both the clock |
| ConversationStore.FindConversation | src/store/useConversationStore.ts:87-88 | none exactly when no conversation has the id; otherwise a conversation with the id such that none before it has the id |
| ConversationStore.RemoveConversation | src/store/useConversationStore.ts:64 | a conversation stays exactly when its id differs; none with the id remains; never longer |
| ConversationStore.RemoveConversationSingle | src/store/useConversationStore.ts:64 | a single conversation is kept exactly when its id differs |
| ConversationStore.RemoveConversationAppend | src/store/useConversationStore.ts:64 | filtering distributes over concatenation, so the kept conversations stay in their order |
| ConversationStore.RemoveConversationCount | src/store/useConversationStore.ts:64 | exactly the conversations with that id are removed |
| ConversationStore.CurrentAfterDelete | src/store/useConversationStore.ts:65-67 | deleting the current conversation selects the first remaining one (none when there is none or its id is empty); otherwise the selection stays |
| ConversationStore.CurrentAfterDeleteNotDeleted | src/store/useConversationStore.ts:62-74 | the selection never names the deleted conversation |
| ConversationStore.PatchConversations | src/store/useConversationStore.ts:76-84 | same length; conversations with the id take each supplied field (id, title, report, messages, creation time), keep each field not supplied, and take the clock as update time; others are untouched |
| ConversationStore.AddMessageTo | src/store/useConversationStore.ts:108-120 | the message is appended to the conversations with the id, and their update time becomes the clock; others are untouched |
| ConversationStore.UpdateMessageIn | src/store/useConversationStore.ts:122-138 | the message's content is appended to within the conversations with the id; others are untouched |
| ConversationStore.UnknownConversationUnchanged | src/store/useConversationStore.ts:108-138 | an unknown conversation id changes nothing |
| ConversationStore.UpdateMessageInTwice | src/store/useConversationStore.ts:122-138 | two streamed chunks equal one chunk holding both texts |
| ConversationStore.FirstUserMessage | src/store/useConversationStore.ts:146 | none exactly when no message is from the user; otherwise a user message such that no message before it is from the user |
| ConversationStore.Shorten | src/store/useConversationStore.ts:148-150 | at most 20 characters are kept, and `...` follows exactly when the text was longer |
| ConversationStore.AutoTitle | src/store/useConversationStore.ts:140-152 | a title exactly when the conversation exists and has a user message; it is the shortened first user message |
| ConversationStore.Summary | src/store/useConversationStore.ts:212-221 | id, title, update time, message count, the last message (none when empty) and whether a report is attached |
| ConversationStore.InsertByUpdate | src/store/useConversationStore.ts:201-205 | one more element, the same elements plus the inserted one |
| ConversationStore.InsertKeepsOrder | src/store/useConversationStore.ts:201-205 | inserting into a list ordered by update time keeps it ordered |
| ConversationStore.ConversationList | src/store/useConversationStore.ts:201-205 | a permutation of the conversations, ordered by update time, most recent first |
| ConversationStore.FormatConversationTime | src/store/useConversationStore.ts:223-251 | under a minute (or in the future) `刚刚`; then whole minutes 1..59, hours 1..23 or days 1..6 with their suffix; from a week on the locale date |
| ConversationStore.FormatConversationTimeMonotone | src/store/useConversationStore.ts:232-235 | within the first hour after the first minute, the label at both times is `<k>分钟前` with 1 <= k < 60, and the later time shows a count at least as large |
| ConversationStore.Migrate | src/store/useConversationStore.ts:168-177 | version 0 gains a null current id; other versions pass through |
| ConversationStore.ConversationStore.constructor | src/store/useConversationStore.ts:31-34 | no conversations, no current id |
| ConversationStore.ConversationStore.CreateConversation | src/store/useConversationStore.ts:36-60 | the new conversation is prepended and made current, and its id is returned |
| ConversationStore.ConversationStore.DeleteConversation | src/store/useConversationStore.ts:62-74 | the conversations with the id go and the selection moves as stated, never to the deleted id |
| ConversationStore.ConversationStore.UpdateConversation | src/store/useConversationStore.ts:76-84 | the list is patched; the selection stays |
| ConversationStore.ConversationStore.SetCurrentConversation | src/store/useConversationStore.ts:86-101 | an unknown id changes nothing in the conversation, chart or chat store; a known one becomes current, its report becomes the chart store's current report, the chat list is emptied |
| ConversationStore.ConversationStore.GetCurrentConversation | src/store/useConversationStore.ts:103-106 | none without a current id; some exactly when a listed conversation has the current id, and then the first such conversation |
| ConversationStore.ConversationStore.SelectCurrentConversation | src/store/useConversationStore.ts:191-194 | agrees with the getter except that an empty current id selects nothing |
| ConversationStore.ConversationStore.AddMessageToConversation | src/store/useConversationStore.ts:108-120 | the list becomes the list with the message added |
| ConversationStore.ConversationStore.UpdateMessageInConversation | src/store/useConversationStore.ts:122-138 | the list becomes the list with the content appended |
| ConversationStore.ConversationStore.GenerateConversationTitle | src/store/useConversationStore.ts:140-152 | with an automatic title the list is patched with it; otherwise nothing changes |
| ConversationStore.ConversationStore.ClearAllConversations | src/store/useConversationStore.ts:154-159 | no conversations, no current id |
| ConversationStore.ConversationStore.Partialize | src/store/useConversationStore.ts:164-166 | only the conversations are saved |
| ConversationStore.ConversationStore.Rehydrate | src/store/useConversationStore.ts:179-183 | the saved conversations are restored and the current id is reset |
| ThemeStore.IndexOf | src/store/useThemeStore.ts:50-51 | the position of the theme in the cycle order |
| ThemeStore.NextTheme | src/store/useThemeStore.ts:50-52 | never the same theme; the next position in the cycle, wrapping round |
| ThemeStore.NextThemeCycle | src/store/useThemeStore.ts:48-55 | three toggles bring the theme back, passing through all three themes |
| ThemeStore.SystemTheme | src/store/useThemeStore.ts:15-18 | dark without a window; otherwise dark exactly when the window prefers dark |
| ThemeStore.ResolveTheme | src/store/useThemeStore.ts:36-41 | the system preference for `system`; otherwise the theme itself |
| ThemeStore.ThemeIcon | src/store/useThemeStore.ts:87-98 | sun, moon and monitor, each for exactly one theme |
| ThemeStore.ThemeLabel | src/store/useThemeStore.ts:100-111 | the three labels, each for exactly one theme |
| ThemeStore.ThemeStore.constructor | src/store/useThemeStore.ts:45-46 | following the system, light applied |
| ThemeStore.ThemeStore.InitializeTheme | src/store/useThemeStore.ts:62-78 | the applied theme becomes the resolved theme; the chosen one is kept |
| ThemeStore.ThemeStore.SetTheme | src/store/useThemeStore.ts:57-60 | the chosen theme is set and resolved |
| ThemeStore.ThemeStore.ToggleTheme | src/store/useThemeStore.ts:48-55 | the next theme is chosen and resolved |
| ThemeStore.ThemeStore.IsSystemTheme | src/store/useThemeStore.ts:116 | holds exactly when the chosen theme is neither light nor dark |
| ThemeStore.ThemeStore.IsDarkMode | src/store/useThemeStore.ts:117 | holds exactly when the applied theme is not light |
| ThemeStore.ThemeStore.DarkModeWhenResolved | src/store/useThemeStore.ts:114-117 | once resolved, dark mode holds exactly when dark is chosen, or the system is chosen and the window prefers dark |
| ThemeStore.ThemeStore.Partialize | src/store/useThemeStore.ts:80-83 | both the chosen and the applied theme are saved |
| ThemeStore.ThemeStore.Rehydrate | src/store/useThemeStore.ts:80-83 | a saved object of version 1 restores each field it has; any other version changes nothing |
| ThemeStore.SaveAndRestore | src/store/useThemeStore.ts:80-83 | saving and restoring carries both themes over |
| UserStore.GenderName | src/store/useUserStore.ts:8 | `male` and `female`, each for exactly one gender |
| UserStore.ApplyPatch | src/store/useUserStore.ts:32-35 | the given fields replace the profile's; the others are kept |
| UserStore.ApplyPatchIdempotent | src/store/useUserStore.ts:32-35 | applying an update twice is applying it once |
| UserStore.BirthChartInput | src/store/useUserStore.ts:40-53 | the birth date and its fields, the profile's gender, question type `命盘`, models 0, 1 and 2 |
| UserStore.BirthChartInputAccepted | src/store/useUserStore.ts:55-62 | the birth-chart request is valid, the calculator sends it unchanged, and calculation always succeeds, so the error branch is never taken |
| UserStore.BirthChart | src/store/useUserStore.ts:56 | the stored chart has the fresh id, the clock and the birth-chart request |
| UserStore.UserStore.constructor | src/store/useUserStore.ts:24-30 | name `用户`, male, no birth date, no chart, panel closed |
| UserStore.UserStore.SetOpen | src/store/useUserStore.ts:31 | only the panel flag changes |
| UserStore.UserStore.UpdateProfile | src/store/useUserStore.ts:32-35 | the profile becomes the patched profile |
| UserStore.UserStore.BeginBirthChart | src/store/useUserStore.ts:37-53 | the birth-chart request built from the profile read before the await, none without a birth date; the request always validates |
| UserStore.UserStore.FinishBirthChart | src/store/useUserStore.ts:55-62 | after the await the chart is merged into the profile as it is then; a thrown error changes nothing |
| UserStore.UserStore.GenerateBirthChart | src/store/useUserStore.ts:36-63 | both steps with nothing in between: without a birth date nothing changes; otherwise only the birth chart changes, to the calculated chart |
| UserStore.UserStore.Partialize | src/store/useUserStore.ts:65-67 | only the profile is saved |
| UserStore.UserStore.Rehydrate | src/store/useUserStore.ts:65-68 | the saved profile replaces the current one; the panel flag is kept |
| UserStore.Calculated | src/store/useUserStore.ts:56 | the report for a valid request; the calculator's error for an invalid one |
| UserStore.BirthChartWithUpdateDuring | src/store/useUserStore.ts:36-63 | a profile update made during the await survives, and the chart from the earlier birth date is merged into the updated profile |
| UserStore.SaveAndRestore | src/store/useUserStore.ts:65-68 | saving and restoring carries the profile over |

## Left out

- I/O and the environment:
  - The HTTP requests to the chart and chat endpoints, and the two server proxy routes.
  - Console logging and the one-second mock delay.
  - `nanoid()`, `Date.now()` and `new Date()`. These are parameters.
- The request header values and the form's field order and key strings are not modelled. The form is the `QimenApi.Form` record, with one field per form key.
- `QimenApi.CallQimenApi` takes what the transport produced as a parameter. The reason a request failed (network error, HTTP status, a body that is not JSON) is not distinguished because the function turns all of them into null.
- A response without a `data` object, and palace objects with non-object sub-fields, are not modelled. The types require the data object, and the palace sub-objects are Options.
- Text is a sequence of characters. UTF-16 code units versus code points are not distinguished, so `slice` and `length` on text with astral characters are not modelled exactly.
- The system prompt is an opaque constant. Its wording is not modelled.
- `AiService.ReportText` covers only the reports the application builds. Those reports have no raw upstream data, so the branches of `formatQimenReport` that read `apiData` cannot be reached and are not modelled: the lunar line, the detailed pillars, empty months, the duty lines, `fushou`, `xunshou`, `dingju`, `panlei`, the solar terms and the palace sections. The palace naming those branches share with the detailed text is modelled in `QimenApi.GongName`.
- `getSystemPrompt`, `validateConfig` and `getAPIStatus` return constants. They are not modelled beyond the constants `AiService.SystemPrompt`, `AiService.DefaultModel` and `AiService.ApiEndpoint`.
- QimenCalculator.ValidateDateTimeBounds: dates are compared to the minute in local fields. `new Date('1900-01-01')` is UTC midnight, and seconds and milliseconds are not modelled.
- The unused element tables of the calculator are not modelled.
- Persistence middleware is not modelled: localStorage, serialisation, and the Date objects coming back from storage as strings. For every store the saved object, its migration where the store has one, and its rehydration are modelled, with the saved object as a `Persisted` record.
- The React hooks and selectors that only read one field are not modelled: `useCurrentReport`, `useReports`, `useIsGenerating`, `useQimenError`, `selectTheme`, `selectActualTheme`, `selectConversations`, `selectCurrentConversationId`, `useCurrentConversation`, `useCurrentConversationId` and `useThemeInitialization`.
- The DOM side of the theme is not modelled: `applyTheme`, the root element's class list and the meta colour tag. The module-level `React` require is not modelled either.
- ThemeStore.ThemeStore.ToggleTheme: a theme value outside the three (possible only from corrupted storage) is not modelled. There `indexOf` gives -1 and the next theme would be `light`.
- ThemeStore.ThemeStore.Rehydrate: a saved object with no version number, which the persistence middleware applies like one of the current version, is represented by passing version 1.
- ThemeStore.ThemeStore.InitializeTheme: the model takes the window to be present. On the server `window.matchMedia` would throw, which is not modelled.
- UserStore.UserStore.GenerateBirthChart: the profile's gender is one of the two genders the type allows. A stored value outside them, which would make validation fail silently, is not modelled.
- ConversationStore.ConversationList: ties in update time are not proved to keep their original order, although the source's sort is stable. The source sorts the store's own array in place during rendering, and that mutation of the store is not modelled.
- ConversationStore.FormatConversationTime: from a week on the source formats a locale date (`toLocaleDateString` in zh-CN). That text is not modelled; None stands for it.
- Saved user profiles and the UI components are not part of this model.
