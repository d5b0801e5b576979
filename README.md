# MindLink screens in Dafny

MindLink is a React Native journaling and mental-health companion app. The user does several things in it:

- gives a name on the welcome screen;
- holds a first guided chat with a language model;
- gets a written report of that chat;
- keeps a diary with a mood score and tags;
- chats daily with a model that watches for crisis keywords;
- asks for an "Insight" session brief built from all diary entries.

This project models the logic of those screens and proves what they promise. It covers:

- what every screen reads from and writes to storage;
- the texts and requests the screens send to the language-model proxies;
- what the screens do with the replies;
- how chat text is split into bold, plain and phone-link spans.

Layout, modules in dependency order:

| file | module | models |
|---|---|---|
| wrappers.dfy | Wrappers | `Option`, `Result` |
| jstext.dfy | JsText | the JavaScript string operations the screens use |
| dates.dfy | Dates | the zero-padded `YYYY-MM-DD` date |
| storage.dfy | Storage | AsyncStorage, `window.localStorage` and the document directory as one store |
| records.dfy, json.dfy, remote.dfy | DiaryRecords, Json, Remote | diary records, JSON values, proxy replies |
| seqs.dfy, sorting.dfy | Seqs, Sorting | `filter`; the in-place sort by date |
| insight.dfy | Insight | `screens/InsightScreen.js` |
| diary.dfy | Diary | `screens/HomeScreen.js` |
| legacy_diary.dfy | LegacyDiary | `HomeScreen.js` |
| reports.dfy | Reports | `screens/SummaryScreen.js` |
| markup.dfy | Markup | the message renderers of the three chat screens |
| chat_messages.dfy | ChatMessages | the message shape shared by the onboarding and plain chats |
| init_chat.dfy, chat.dfy, daily_chat.dfy | InitChat, Chat, DailyChat | `InitChatScreen.js`, `ChatScreen.js`, `DailyChatScreen.js` |
| onboarding.dfy | Onboarding | `WelcomeScreen.js`, `JourneyContinuesScreen.js` |

How the model stands in for the things it cannot see:

- **Storage.** It is one `map<string, string>` in a `KeyValueStore` object. A file is stored under its file name.
- **Storage failures.** Each screen operation takes `failAt`: the position of the first storage operation of that call that throws, if any.
- **Remote calls.** The language-model replies are parameters: `ProxyReply` for the proxy's `data.reply`, and `CandidatesReply` for `data.candidates[0].content.parts[0].text`.
- **JSON.** `JSON.parse` and `JSON.stringify` are function parameters. A parse that throws is `None`.
- **Listings.** The order in which keys or directory entries are listed is a parameter.
- **Clock.** The clock is a `Clock` value, or a `now: nat` for `Date.now()`.

State-changing screen code is modelled as classes whose methods update fields. Those fields are the screen's React state. The pure helpers are functions, and lemmas relate them.

## Model

| member | source | states |
|---|---|---|
| Storage.KeyValueStore.SetItem | WelcomeScreen.js:50 | a write that does not throw stores the value under the key; a write that throws changes nothing |
| Storage.KeyValueStore.GetItem | WelcomeScreen.js:34 | a read that does not throw returns the stored value, or null for a missing key |
| Storage.KeyValueStore.SetItemsInTurn | screens/HomeScreen.js:367-375 | three awaited writes stop at the first one that throws; the store then holds exactly the writes done before it |
| Storage.KeyValueStore.Clear | App.js:60-67 | `AsyncStorage.clear()` empties the store unless it throws |
| Storage.Completed | screens/HomeScreen.js:367-375 | the number of sequential operations that finish is below `n` exactly when one of them throws, and the one after them is the one that throws |
| Remote.ReplyText | InitChatScreen.js:343-349 | the reply or the empty string, trimmed: fails only when the call fails; the result is trimmed, empty exactly when the reply is absent or blank, and contained in the reply |
| Json.Property | screens/InsightScreen.js:263-264 | reading a property of `null` throws; on an object it gives the field, or undefined when the key is absent; on any other value it gives undefined |
| Dates.FormatDateRoundTrip | screens/SummaryScreen.js:157-163 | the zero-padded date is an ISO date that reads back as the year, month and day |
| Dates.FormatDateSameDay | screens/SummaryScreen.js:157-163 | two clocks give the same date string exactly when they fall on the same day |
| Dates.FormatDateChronological | screens/HomeScreen.js:181 | comparing two formatted dates as strings gives their calendar order |
| Sorting.SortByKeyDescending | screens/HomeScreen.js:181 | the in-place sort leaves a permutation of the rows, latest date first |
| Insight.GetAllDiaryEntries | screens/InsightScreen.js:134-161 | the keys are listed (operation 0) and the diary files read in key order; the read fails exactly when the listing fails, one of the file reads fails, or some non-empty content does not parse; otherwise it returns the parsed records in key order |
| Insight.ReadDiaryFiles | screens/InsightScreen.js:152-158 | diary file n is read by operation n + 1; the loop fails exactly when one of those reads fails or a non-empty content does not parse, and otherwise pushes the parsed contents in order |
| Insight.ParseAll | screens/InsightScreen.js:140-145 | fails exactly when some content does not parse; otherwise one record per content, in order |
| Insight.DiaryContents | screens/InsightScreen.js:137-142 | keeps only non-empty contents of diary keys, at most one per key |
| Insight.ReadFailsAt | screens/InsightScreen.js:143 | one stored diary text that is not JSON makes the whole read fail |
| Insight.MoodTrajectory | screens/InsightScreen.js:168-170 | one point per entry, in order, carrying that entry's date and mood |
| Insight.CountTags | screens/InsightScreen.js:181-183 | each tag's count grows by its number of occurrences; exactly the seen tags are keys; counts stay positive |
| Insight.TagFrequency | screens/InsightScreen.js:177-187 | every tag's count equals its occurrences over all entries' tag lists; absent tags are not keys; the counts sum to the number of tags |
| Insight.Responses | screens/InsightScreen.js:73 | one response per entry, in order; an absent response joins as the empty string |
| Insight.LowMoodTextEmpty | screens/InsightScreen.js:83-85 | the low-mood text is empty, so the correlations call is skipped, exactly when no entry has mood below 4, or the only one has an empty response |
| Insight.NoMoodIsNotLow | screens/InsightScreen.js:83 | an entry without a mood is never a low-mood day |
| Insight.Themes | screens/InsightScreen.js:221-233 | a failed call propagates; a reply that parses is returned; one that does not gives the fallback list |
| Insight.ThemesOfNonJson | screens/InsightScreen.js:229-232 | a reply that is not JSON gives exactly `["Could not determine themes."]` |
| Insight.LeadingLetters | screens/InsightScreen.js:261 | `[a-zA-Z]*` after a fence matches the maximal run of ASCII letters |
| Insight.StripFencesRemovesAll | screens/InsightScreen.js:261 | no three backticks remain after the cleanse |
| Insight.StripFencesWrapped | screens/InsightScreen.js:261 | a fence with a language name around backtick-free text is removed whole |
| Insight.CriticalQuote | screens/InsightScreen.js:254-269 | a failed call propagates; a cleansed reply that parses to an object gives its `quote`, or undefined without one; one that parses to another non-null value gives undefined; one that does not parse, or parses to null, gives the fallback sentence |
| Insight.FencedQuote | screens/InsightScreen.js:255-264 | a reply fenced as a code block with a language name yields the quote of the JSON object inside |
| Insight.PlannedRequests | screens/InsightScreen.js:73-94 | themes, correlations only for a non-empty low-mood text, then the quote: two or three calls before the synthesis |
| Insight.GenerateInsights | screens/InsightScreen.js:39-127 | a read that fails (listing, file read or parse) gives "Failed to generate insights." and no call; an empty read gives "Not enough data…" and no call; otherwise the outcome of the pipeline |
| Insight.Analyse | screens/InsightScreen.js:64-85 | local aggregates from the records, themes and correlations from the replies to the calls made, stopping at the first failed call |
| Insight.Conclude | screens/InsightScreen.js:94-123 | the quote and the session brief follow the plan; the run fails exactly when the last reply failed; every field of the report comes from the records or the matching reply |
| Insight.Scenario | screens/InsightScreen.js:64-85 | for two entries, one low-mood: the trajectory copies both, only `school` is counted, only that entry's text goes to correlations |
| Diary.DailyPrompt | screens/HomeScreen.js:69-87 | the prompt of the day is one of the ten prompts |
| Diary.PromptsDistinct | screens/HomeScreen.js:70-81 | the ten prompts are pairwise different texts |
| Diary.DailyPromptRepeats | screens/HomeScreen.js:84-86 | a day of the month gets the prompt at position day modulo 10 and at no other; two days get the same prompt exactly when they agree modulo 10 |
| Diary.Toggled | screens/HomeScreen.js:94-100 | the tag is present after a tap exactly when it was absent before; other tags keep their counts; an absent tag is appended |
| Diary.ToggledTwice | screens/HomeScreen.js:94-100 | tapping an unselected tag twice restores the list |
| Diary.ToggledKeepsOrder | screens/HomeScreen.js:94-100 | any two other tags keep their relative order after a tap, whether the tap removes or appends |
| Diary.DiaryScreen.constructor | screens/HomeScreen.js:20-30 | mounts with an empty entry, mood 5, no tags and the prompt of the day |
| Diary.DiaryScreen.ToggleTag | screens/HomeScreen.js:94-100 | the selected tags become the toggled list; nothing else changes |
| Diary.TimeSuffix | screens/HomeScreen.js:349-355 | nine digits: hours, minutes, seconds, milliseconds |
| Diary.TimeSuffixRoundTrip | screens/HomeScreen.js:349-355 | the digits read back as the hours, minutes, seconds and milliseconds |
| Diary.DiaryFileName | screens/HomeScreen.js:356 | the name is one the listing recognises as a diary record |
| Diary.DiaryFileNameLayout | screens/HomeScreen.js:353-356 | the name holds the ISO date at positions 6–15 and the time digits at 17–25 |
| Diary.DiaryFileNameUnique | screens/HomeScreen.js:354-356 | two saves share a file name exactly when they are at the same millisecond |
| Diary.FallbackDateOfFileName | screens/HomeScreen.js:127-131 | the listing's fallback date for a name of this screen starts with that day's date |
| Diary.Unsorted | screens/HomeScreen.js:109-139 | one row per diary key, in key order |
| Diary.SortedListing | screens/HomeScreen.js:109-181 | the rows, sorted latest date first, are a permutation of the unsorted rows |
| Diary.ListedKeys | screens/HomeScreen.js:109-139 | the listing has a row for each stored diary key and nothing else |
| Diary.SavedEntryListedDate | screens/HomeScreen.js:116-131 | a saved record is listed under its date, or under the fallback that starts with that date |
| Diary.ListingNewestFirst | screens/HomeScreen.js:181 | a row listed before another is never on an earlier day |
| Diary.SavedRecord | screens/HomeScreen.js:359-365 | the stored record is exactly the date, the prompt, the text, the mood and the tags given |
| Diary.SaveWritesStore | screens/HomeScreen.js:367-370 | after a complete save the record, the text and the date are under their keys and no other key changed |
| Diary.DiaryScreen.LoadDiaryEntries | screens/HomeScreen.js:103-189 | the rows are the stored diary records, latest date first; a listing that throws gives no rows; loading ends |
| Diary.DiaryScreen.SaveDiaryWithContent | screens/HomeScreen.js:334-390 | blank text writes nothing; otherwise the three writes up to the first that throws; only a complete save clears the entry, tags and mood |
| Diary.DiaryScreen.HandleSave | screens/HomeScreen.js:244-254 | blank text changes nothing, neither the store nor the text, mood or tags; otherwise the tab's text, mood and tags become the screen's, then the save; the prompt, the listing and the loading flag are never changed |
| LegacyDiary.LegacyFileName | HomeScreen.js:89 | `diary-<date>.txt` |
| LegacyDiary.LegacyFileNameSameDay | HomeScreen.js:80-89 | two saves write the same file exactly when they fall on the same day |
| LegacyDiary.LegacyFileNotListed | HomeScreen.js:89 | the text files are not records that the newer diary listing shows |
| LegacyDiary.EntryTextRoundTrip | HomeScreen.js:86 | the date, the one-line prompt and any response read back from the file text |
| LegacyDiary.SameDaySaveReplaces | HomeScreen.js:89-96 | a second complete save on the same day leaves only its own text in the day's file |
| LegacyDiary.LegacyDiaryScreen.constructor | HomeScreen.js:17-69 | mounts with no text, the name "User" and the prompt of the day |
| LegacyDiary.LegacyDiaryScreen.FetchUserName | HomeScreen.js:35-44 | a stored non-empty name replaces the default; otherwise it stays |
| LegacyDiary.LegacyDiaryScreen.SaveDiaryEntry | HomeScreen.js:71-109 | blank text writes nothing; otherwise file, text and date are written in turn up to the first that throws; only a complete save clears the text |
| Reports.ReportFileName | screens/SummaryScreen.js:171 | `userReport-….txt` |
| Reports.ReportWritesStore | screens/SummaryScreen.js:174-179 | after a complete save the report, its name and its date are under their keys; the listing shows that date; no other key changed |
| Reports.SummaryScreen.SaveReport | screens/SummaryScreen.js:166-198 | empty content or a report already saved writes nothing; otherwise the writes up to the first that throws; the flag is set only after all three |
| Reports.NativeListsMore | screens/SummaryScreen.js:100-102 | the device listing keeps every file the browser listing keeps, and also prefixed files with another suffix |
| Reports.ReportDateOfFileName | screens/SummaryScreen.js:104-107 | a report saved by this screen is listed under its own date |
| Reports.UnsortedReports | screens/SummaryScreen.js:100-136 | one row per report key, in key order |
| Reports.SortedReports | screens/SummaryScreen.js:100-139 | the rows sorted latest date first are a permutation of the unsorted rows |
| Reports.ListedReports | screens/SummaryScreen.js:95-140 | the listing has a row for each stored report key and nothing else, each under its name's date |
| Reports.SummaryScreen.FindSavedReports | screens/SummaryScreen.js:95-145 | the stored reports latest first; a listing that throws gives none |
| Reports.LastReportText | screens/SummaryScreen.js:73-87 | the stored report's text, or the "could not be loaded" message when it is missing, empty or unreadable; never empty |
| Reports.SummaryScreen.CheckForReports | screens/SummaryScreen.js:62-151 | a read that throws ends the check; a stored path and date mark a report; without a chat that report is shown; then the reports are listed |
| Reports.SummaryText | screens/SummaryScreen.js:266-274 | the trimmed reply, "No summary available." for a blank one, or the failure message; never empty |
| Reports.ExtractJson | screens/SummaryScreen.js:323-330 | nothing exactly when the reply lacks `{` or `}` |
| Reports.ExtractJsonWrapped | screens/SummaryScreen.js:323-330 | the text before the first `{` and after the last `}` is cut away |
| Reports.ExtractJsonInverted | screens/SummaryScreen.js:327-330 | when the last `}` comes before the first `{`, `substring` swaps its bounds and the cut holds no brace |
| Reports.KeyTakeaways | screens/SummaryScreen.js:318-343 | the parsed text between the braces, or `[]` on a failed call, a missing brace or a parse error |
| Reports.KeyTakeawaysOfWrapped | screens/SummaryScreen.js:323-332 | an object wrapped in other text still yields its points |
| Reports.FailedPointsHidden | screens/SummaryScreen.js:375 | after any failure no key point is shown |
| Reports.SummaryScreen.constructor | screens/SummaryScreen.js:24-33 | mounts loading, with no summary, no points and no reports |
| Reports.SummaryScreen.FetchSummary | screens/SummaryScreen.js:228-278 | the summary is shown and then saved; a failed call shows the failure message and saves nothing; loading ends |
| Reports.SummaryScreen.FetchPoints | screens/SummaryScreen.js:280-347 | the key points are those of the reply; loading ends |
| Reports.SummaryScreen.Generate | screens/SummaryScreen.js:225-361 | with messages, summary and points are fetched; without messages and without a report, the "No reports available yet" text |
| Markup.CloseBold | ChatScreen.js:141 | the lazy `.*?\*\*` tail ends at the first `**` that follows with no line break before it |
| Markup.MatchIsToken | InitChatScreen.js:410 | every match of a pattern is a bold token or a phone token |
| Markup.Split | ChatScreen.js:141 | `split` with one capturing group gives an odd number of pieces |
| Markup.SplitConcat | ChatScreen.js:141 | the pieces of a split concatenate back to the text |
| Markup.SplitTokens | InitChatScreen.js:397 | the odd pieces of a split are exactly the matched tokens |
| Markup.PhoneTokenSplitsOut | InitChatScreen.js:410-411 | a phone number on its own splits into `["", number, ""]` |
| Markup.Inner | ChatScreen.js:146 | `slice(2, -2)`: a piece of length 4 or more is its markers around the inner text |
| Markup.ChatSpans | ChatScreen.js:140-152 | one span per piece of the split |
| Markup.ChatSpansShowText | ChatScreen.js:140-152 | the spans show the whole text, and every matched piece is shown bold without its markers |
| Markup.LoneMarkersVanish | ChatScreen.js:143-146 | a lone `**` renders as an empty bold span |
| Markup.RemoveSpaces | InitChatScreen.js:429 | `replace(/\s/g, "")` leaves no whitespace |
| Markup.SpacedNumberJoined | InitChatScreen.js:429 | removing the one space joins the two digit groups |
| Markup.PhoneSpanLinks | InitChatScreen.js:423-429 | a piece is a link exactly when it is "2896 0000" or "2382 0000", dialling "tel:28960000" and "tel:23820000" |
| Markup.RichBlocks | InitChatScreen.js:395-437 | one block per piece of the bold split |
| Markup.RichBlocksShowText | DailyChatScreen.js:243-291 | the blocks show the whole text, and matched pieces are bold blocks |
| Markup.UnspacedNumberNotLinked | DailyChatScreen.js:258-271 | "28960000" matches the phone pattern but is shown as plain text |
| ChatMessages.StripIds | InitChatScreen.js:40 | one payload per message, the same message without its id |
| ChatMessages.StripIdsAndReplies | InitChatScreen.js:286-288 | one payload per message, without its id and suggested replies |
| ChatMessages.StripIdsAppend | ChatScreen.js:42 | cleaning the list with the new message appended cleans the old list and appends the cleaned message |
| ChatMessages.ChatKey | ChatScreen.js:116 | `@chat_` followed by the time |
| ChatMessages.ChatKeyDistinct | InitChatScreen.js:367 | two chats get the same key exactly when stored at the same millisecond; no chat key is a diary or report key, or one of the fixed keys: the user's name, the onboarding flag, the daily chat's messages, or the diary and report bookkeeping keys |
| InitChat.Shown | InitChatScreen.js:251 | a missing name reads "null" in the template |
| InitChat.InitialMessage | InitChatScreen.js:246-267 | a model message greeting the stored name, with the five suggested replies |
| InitChat.BotReply | InitChatScreen.js:343-359 | the trimmed reply with a "-bot" id, or the apology with an "-error" id |
| InitChat.InitChatScreen.ShowInitialBotMessage | InitChatScreen.js:242-273 | the greeting is appended after the name is read; a read that throws adds nothing |
| InitChat.InitChatScreen.ChooseSuggestedReply | InitChatScreen.js:475 | the tapped reply fills the input |
| InitChat.SuggestedRepliesSendable | InitChatScreen.js:260-266 | each suggested reply is sent as it is: not blank, nothing to trim |
| InitChat.InitChatScreen.HandleSend | InitChatScreen.js:275-363 | blank input changes nothing; otherwise the trimmed user message and then the reply or the apology are appended, and the old list without ids and suggested replies, plus the message, is sent |
| InitChat.InitChatScreen.FirstReport | InitChatScreen.js:38-44 | the messages without ids, suggested replies kept, flagged as the initial flow |
| InitChat.InitChatScreen.StoreChat | InitChatScreen.js:365-375 | the messages are written under `@chat_<now>` unless the write throws |
| Chat.BotMessage | ChatScreen.js:90-106 | the first candidate's text, untrimmed, with a "-bot" id, or the apology with an "-error" id |
| Chat.ChatScreen.constructor | ChatScreen.js:21-23 | mounts with no messages and an empty input |
| Chat.ChatScreen.HandleSend | ChatScreen.js:31-110 | blank input changes nothing; otherwise the untrimmed message and one model message are appended; the old list without ids, plus the message, is sent; user and model turns keep alternating |
| Chat.AlternatesAfterSend | ChatScreen.js:40-49 | a send keeps the user and model turns alternating |
| Chat.ChatScreen.StoreChat | ChatScreen.js:114-121 | the messages are written under `@chat_<now>` unless the write throws |
| DailyChat.CheckCrisis | DailyChatScreen.js:131-134 | a crisis exactly when some keyword occurs in the lower-cased text |
| DailyChat.AnyContained | DailyChatScreen.js:133 | `some(includes)`: true exactly when some keyword occurs |
| DailyChat.CrisisIgnoresCase | DailyChatScreen.js:132-133 | a keyword written in any letter case still triggers detection |
| DailyChat.CrisisOfLowered | DailyChatScreen.js:132 | detection gives the same answer on the lower-cased text |
| DailyChat.Role | DailyChatScreen.js:171 | "user" exactly for user id 1, otherwise "model" |
| DailyChat.Contents | DailyChatScreen.js:169-178 | one content per message with its role and text; nothing when a message has no `user`, which throws |
| DailyChat.ReportContents | DailyChatScreen.js:68-71 | one content per message; a message without `user` counts as the model's |
| DailyChat.ReportContentsAgree | DailyChatScreen.js:68-71 | where the send mapping succeeds, the report mapping gives the same contents |
| DailyChat.LatestReport | DailyChatScreen.js:181-194 | the heading and the report under the stored path, or nothing when no path, a failed read or an empty report |
| DailyChat.LatestReportAfterSave | DailyChatScreen.js:183-189 | after the summary screen saves a report, the daily chat passes exactly that report |
| DailyChat.SystemText | DailyChatScreen.js:210 | the instruction, three newlines and the name, ending with the latest report |
| DailyChat.BotText | DailyChatScreen.js:219-221 | a reply is shown exactly when the first candidate has non-blank text, trimmed |
| DailyChat.Greeting | DailyChatScreen.js:110-112 | "Hi <name>!" or "Hi there!" for an empty name |
| DailyChat.DailyChatScreen.constructor | DailyChatScreen.js:84-129 | mounts with no messages, no name, the crisis modal hidden and never shown |
| DailyChat.DailyChatScreen.FetchUserName | DailyChatScreen.js:85-94 | a stored non-empty name replaces the shown one |
| DailyChat.DailyChatScreen.LoadMessages | DailyChatScreen.js:99-126 | the stored messages when some are stored, the greeting when none; a read or parse that throws leaves the list |
| DailyChat.DailyChatScreen.HideCrisisModal | DailyChatScreen.js:137 | the modal is hidden; it still counts as shown |
| DailyChat.DailyChatScreen.SendMessage | DailyChatScreen.js:139-241 | blank input changes nothing; a crisis opens the modal at most once per screen; otherwise the trimmed message is appended, the prior contents plus the text are sent, and a reply with text follows |
| DailyChat.DailyChatScreen.NoteCrisis | DailyChatScreen.js:143-146 | the modal opens only on a crisis and only if it was never shown |
| DailyChat.DailyChatScreen.Exchange | DailyChatScreen.js:148-240 | the user message is appended; the request goes out unless a prior message lacks `user`; the model's message follows only when the reply has text |
| Onboarding.WelcomeScreen.ContinueEnabled | WelcomeScreen.js:88-92 | Continue is enabled exactly when the name has a visible character |
| Onboarding.WelcomeScreen.LoadName | WelcomeScreen.js:16-29 | a stored non-empty name fills the field |
| Onboarding.WelcomeScreen.SkipScreen | WelcomeScreen.js:31-45 | straight to the main app exactly when the flag reads "true"; otherwise the screen stays |
| Onboarding.WelcomeScreen.HandleNavigate | WelcomeScreen.js:47-68 | the name is stored; to the main app exactly when both operations succeed and the flag is "true", else to the first chat; the flag is unchanged |
| Onboarding.JourneyContinuesScreen.HandleContinue | JourneyContinuesScreen.js:14-24 | the flag is written; only a write that succeeds leads to the main app, where onboarding is done |
| Onboarding.ContinueUnlocksWelcome | JourneyContinuesScreen.js:17 | once the closing screen's write succeeds, the welcome screen lets the user through, also after storing the name |
| Onboarding.OtherWritesKeepFlag | WelcomeScreen.js:50 | a write under any other key keeps the onboarding state |
| Onboarding.OnlyExactTrue | WelcomeScreen.js:35 | only the exact text "true" counts as done |
| Onboarding.ResetToWelcome | App.js:60-67 | the reset clears the storage and opens the welcome screen; a clear that throws leaves the store and stays |
| Onboarding.ResetThenSkipCheck | WelcomeScreen.js:31-45 | after a successful reset the welcome screen's skip check finds the store empty and keeps the user there, so onboarding starts over; a failed reset leaves the user in the main app |

## Left out

- Networking, `fetch`, HTTP status checks and JSON bodies. Replies are parameters; `JSON.parse` and `JSON.stringify` are function parameters.
- React rendering, navigation side effects, `Alert`, `console` logging, timers (the 2.5 s greeting delay) and keyboard listeners.
- Concurrency between effects. Each effect or handler is one atomic method. The two summary fetches run one after the other.
- Locale dates (`toLocaleDateString`), the date heading and the display date of a listing row are not modelled.
- Directory paths:
  - the native path of `@last_report_path` is `documentDirectory + name`; the model stores the file name, as the web branch does;
  - the daily chat reads the report with `FileSystem.readAsStringAsync`, which throws on the web; that is the `readFails` parameter.
- Storage structure:
  - listing row sizes are the stored text's length; native `fileInfo.size` is not modelled;
  - the listing reload after a save is not modelled;
  - viewing a single diary entry or report (`viewDiaryEntry`, `viewReport`) is not modelled.
- Names fetched only for display or logging:
  - the summary screen's `fetchUserName` (display only);
  - the onboarding chat's `fetchStoredName` (logged only);
  - the diary screen's `fetchUserName` (display only).
- The contents of `systemInstruction.js` are not part of this model. The instruction is a parameter or an opaque constant.
- The health-data screen and the small `SummaryScreen.js` at the top level are not part of this model.
- `toLowerCase` is modelled for ASCII letters only.
- Insight.Themes and Insight.CriticalQuote: the code lets a failed proxy call escape the extractors into the pipeline's single `catch`. The model follows that, so the whole run reports "Failed to generate insights.". Only a reply that does not parse is absorbed.
- Sorting.SortByKeyDescending: `localeCompare` is modelled as code-unit order. Locale collation is not modelled. The listings sort the `YYYY-MM-DD` dates the app writes, whose digits and dashes sit at the same positions; other date texts may sort differently under a locale.
- Insight.NoMoodIsNotLow: a stored JSON `null` mood is read as an absent mood. In JavaScript `null < 4` holds, so the source counts such an entry as a low-mood day; the model does not. The app itself always writes a number.
- Insight.GetAllDiaryEntries: both platforms get the same numbered operations (the listing, then one read per diary key). On the web, `Object.keys` and `getItem` are synchronous calls that rarely throw.
- DailyChat.Contents: a stored message whose `text` is undefined is modelled as a string; the undefined value is not modelled.
- Markup.LoneMarkersVanish: a piece that starts and ends with `**` but is shorter than four characters renders as an empty bold span. The model states this instead of treating it as a finding.
