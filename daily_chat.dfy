/** The daily check-in chat (`DailyChatScreen.js`): crisis-keyword
    detection with a modal shown at most once, the message list, the
    contents and system instruction sent to the model, and the greeting of
    an empty conversation. */
module DailyChat {
  import opened Wrappers
  import opened JsText
  import opened Dates
  import opened Storage
  import opened Remote
  import Reports

  /** Words and phrases whose presence in the lowered input opens the
      crisis modal (the last two are Chinese for "die" and "suicide"). */
  const CRISIS_KEYWORDS: seq<string> := [
    "suicide", "kill myself", "end my life", "can't go on", "want to die",
    "hopeless", "worthless", "no way out", "give up", "self-harm",
    "cut myself", "hurt myself", "overdose", "jump off", "hang myself",
    "take my life", "死", "自殺"
  ]

  const DAILY_CHAT_MESSAGES := "@daily_chat_messages"
  const USER_ID := 1
  const BOT_ID := 2
  const REPORT_HEADING := "\n\nLatest User Report:\n"
  const GREETING_TAIL := " How are you feeling today? I'm here to listen and chat with you."

  // ----- Crisis detection -----

  /** `keywords.some((k) => s.includes(k))`. */
  function AnyContained(s: string, keywords: seq<string>): (r: bool)
    ensures r <==> exists k :: 0 <= k < |keywords| && Contains(s, keywords[k])
  {
    if keywords == [] then false
    else Contains(s, keywords[0]) || AnyContained(s, keywords[1..])
  }

  /** `checkCrisis`: some keyword occurs in the lowered text. */
  function CheckCrisis(text: string): (r: bool)
    ensures r <==> exists k :: 0 <= k < |CRISIS_KEYWORDS| && Contains(ToLower(text), CRISIS_KEYWORDS[k])
  {
    AnyContained(ToLower(text), CRISIS_KEYWORDS)
  }

  /** Lowering commutes with taking a piece of the text. */
  lemma {:induction false} ToLowerSlice(s: string, i: nat, j: nat)
    requires i <= j <= |s|
    ensures ToLower(s)[i..j] == ToLower(s[i..j])
  {
    assert |ToLower(s)[i..j]| == j - i;
    forall m | 0 <= m < j - i ensures ToLower(s)[i..j][m] == ToLower(s[i..j])[m] {
      assert s[i..j][m] == s[i + m];
    }
  }

  /** Detection ignores ASCII case: a text holding any spelling of a
      keyword, in upper, lower or mixed case, is a crisis. */
  lemma CrisisIgnoresCase(text: string, spelling: string, k: nat)
    requires k < |CRISIS_KEYWORDS| && Contains(text, spelling) && ToLower(spelling) == CRISIS_KEYWORDS[k]
    ensures CheckCrisis(text)
  {
    var i :| 0 <= i <= |text| - |spelling| && MatchAt(text, spelling, i);
    ToLowerSlice(text, i, i + |spelling|);
    assert MatchAt(ToLower(text), CRISIS_KEYWORDS[k], i);
  }

  lemma LowerCharIdempotent(c: char)
    ensures LowerChar(LowerChar(c)) == LowerChar(c)
  {
  }

  /** Lowering the text first changes nothing: detection only sees the
      lowered text. */
  lemma {:induction false} CrisisOfLowered(text: string)
    ensures CheckCrisis(ToLower(text)) == CheckCrisis(text)
  {
    var a := ToLower(ToLower(text));
    var b := ToLower(text);
    forall m | 0 <= m < |a| ensures a[m] == b[m] {
      LowerCharIdempotent(text[m]);
    }
    assert a == b;
  }

  // ----- Messages and the request -----

  /** A message of the list: `user._id` is 1 for the user and 2 for the
      model; a message read back from storage may have no `user` at all. */
  datatype DailyMessage = DailyMessage(id: string, text: string, userId: Option<int>)

  /** One entry of `contents` in the request. */
  datatype Content = Content(role: string, text: string)

  /** The request body: the contents and the system instruction's text. */
  datatype ChatRequest = ChatRequest(contents: seq<Content>, systemText: string)

  /** `msg.user._id === 1 ? "user" : "model"`. */
  function Role(userId: int): (r: string)
    ensures r == "user" <==> userId == USER_ID
    ensures r == "user" || r == "model"
  {
    if userId == USER_ID then "user" else "model"
  }

  /** The `contents` of the prior messages; a message without `user`
      makes the mapping throw. */
  function Contents(ms: seq<DailyMessage>): (cs: Option<seq<Content>>)
    ensures cs.Some? <==> forall i :: 0 <= i < |ms| ==> ms[i].userId.Some?
    ensures cs.Some? ==> |cs.value| == |ms|
    ensures cs.Some? ==> forall i :: 0 <= i < |ms| ==> cs.value[i] == Content(Role(ms[i].userId.value), ms[i].text)
  {
    if ms == [] then Some([])
    else match (ms[0].userId, Contents(ms[1..]))
      case (Some(id), Some(rest)) => Some([Content(Role(id), ms[0].text)] + rest)
      case _ => None
  }

  /** The "View Report" button's mapping, which guards `msg.user`: a
      message without one counts as the model's. */
  function ReportContents(ms: seq<DailyMessage>): (cs: seq<Content>)
    ensures |cs| == |ms|
    ensures forall i :: 0 <= i < |ms| ==>
      cs[i].text == ms[i].text && (cs[i].role == "user" <==> ms[i].userId == Some(USER_ID))
  {
    if ms == [] then []
    else
      var role := if ms[0].userId == Some(USER_ID) then "user" else "model";
      [Content(role, ms[0].text)] + ReportContents(ms[1..])
  }

  /** Where both mappings succeed they agree. */
  lemma ReportContentsAgree(ms: seq<DailyMessage>)
    requires Contents(ms).Some?
    ensures ReportContents(ms) == Contents(ms).value
  {
    var a := ReportContents(ms);
    var b := Contents(ms).value;
    forall i | 0 <= i < |ms| ensures a[i] == b[i] {
      assert a[i].role == "user" || a[i].role == "model";
    }
  }

  /** The latest report as the system instruction carries it: the heading
      and the report's text, or nothing when no path is stored, the read
      throws, or the report is empty. */
  function LatestReport(items: map<string, string>, readFails: bool): (r: string)
    ensures r != "" <==>
      var path := Lookup(items, Reports.LAST_REPORT_PATH);
      IsTruthy(path) && !readFails && IsTruthy(Lookup(items, path.value))
    ensures r != "" ==> r == REPORT_HEADING + Lookup(items, Lookup(items, Reports.LAST_REPORT_PATH).value).value
  {
    var path := Lookup(items, Reports.LAST_REPORT_PATH);
    if !IsTruthy(path) || readFails then ""
    else
      var content := Lookup(items, path.value).GetOr("");
      if content != "" then REPORT_HEADING + content else ""
  }

  /** Once the summary screen has saved a non-empty report, the daily chat
      passes exactly that report to the model. */
  lemma LatestReportAfterSave(items: map<string, string>, c: Clock, content: string)
    requires ValidClock(c) && content != ""
    ensures LatestReport(Applied(items, Reports.ReportWrites(c, content)), false) == REPORT_HEADING + content
  {
    Reports.ReportWritesStore(items, c, content);
    assert Reports.ReportFileName(c) != "" by {
      assert |Reports.ReportFileName(c)| >= |Reports.REPORT_PREFIX|;
    }
  }

  /** `SYSTEM_INSTRUCTION + "\n\n\n" + userName + latestReport`. */
  function SystemText(instruction: string, userName: string, latestReport: string): (t: string)
    ensures StartsWith(t, instruction + "\n\n\n" + userName) && EndsWith(t, latestReport)
  {
    var head := instruction + "\n\n\n" + userName;
    var t := head + latestReport;
    assert t[..|head|] == head && t[|t| - |latestReport|..] == latestReport;
    t
  }

  /** `data.candidates[0]?.content?.parts[0]?.text.trim()` when it is
      truthy: the trimmed text of a reply that has some. */
  function BotText(reply: CandidatesReply): (t: Option<string>)
    ensures t.Some? <==> reply.CandidateText? && !IsBlank(reply.text)
    ensures t.Some? ==> t.value == Trim(reply.text) && Trim(t.value) == t.value
  {
    match reply
    case CandidateText(s) =>
      TrimIdempotent(s);
      if Trim(s) != "" then Some(Trim(s)) else None
    case _ => None
  }

  /** The greeting of an empty conversation. */
  function Greeting(userName: string): (g: string)
    ensures userName != "" ==> StartsWith(g, "Hi " + userName + "!")
    ensures userName == "" ==> StartsWith(g, "Hi there!")
  {
    var head := "Hi " + (if userName == "" then "there" else userName);
    var g := head + "!" + GREETING_TAIL;
    assert g[..|head| + 1] == head + "!";
    g
  }

  class DailyChatScreen {
    var messages: seq<DailyMessage>
    var inputMessage: string
    var isLoading: bool
    var userName: string
    var crisisModalVisible: bool
    var crisisModalShown: bool
    /** How many times the crisis modal has been opened. */
    ghost var timesShown: nat
    const store: KeyValueStore
    const systemInstruction: string

    /** The modal is only ever open once it has been shown, and it has been
        opened at most once. */
    ghost predicate Valid()
      reads this
    {
      && (crisisModalVisible ==> crisisModalShown)
      && timesShown == (if crisisModalShown then 1 else 0)
    }

    constructor (store: KeyValueStore, systemInstruction: string)
      ensures this.store == store && this.systemInstruction == systemInstruction
      ensures messages == [] && inputMessage == "" && !isLoading && userName == ""
      ensures !crisisModalVisible && !crisisModalShown
      ensures Valid()
    {
      this.store := store;
      this.systemInstruction := systemInstruction;
      messages := [];
      inputMessage := "";
      isLoading := false;
      userName := "";
      crisisModalVisible := false;
      crisisModalShown := false;
      timesShown := 0;
    }

    /** `fetchUserName`: a stored, non-empty name replaces the shown one. */
    method FetchUserName(readFails: bool)
      modifies this
      ensures var name := Lookup(store.items, USER_NAME);
              userName == if !readFails && IsTruthy(name) then name.value else old(userName)
      ensures messages == old(messages) && inputMessage == old(inputMessage) && isLoading == old(isLoading)
      ensures crisisModalVisible == old(crisisModalVisible) && crisisModalShown == old(crisisModalShown)
      ensures timesShown == old(timesShown)
    {
      var name := store.GetItem(USER_NAME, readFails);
      if name.Ok? && IsTruthy(name.value) {
        userName := name.value.value;
      }
    }

    /** `loadMessages`: stored messages are parsed and shown; with none
        stored the conversation opens with the greeting. A read or parse
        that throws leaves the list as it was. */
    method LoadMessages(now: nat, parse: string -> Option<seq<DailyMessage>>, readFails: bool)
      modifies this
      ensures var saved := Lookup(store.items, DAILY_CHAT_MESSAGES);
              messages ==
                if readFails then old(messages)
                else if IsTruthy(saved) then parse(saved.value).GetOr(old(messages))
                else [DailyMessage("initial-message-" + NatToString(now), Greeting(userName), Some(BOT_ID))]
      ensures userName == old(userName) && inputMessage == old(inputMessage) && isLoading == old(isLoading)
      ensures crisisModalVisible == old(crisisModalVisible) && crisisModalShown == old(crisisModalShown)
      ensures timesShown == old(timesShown)
    {
      var saved := store.GetItem(DAILY_CHAT_MESSAGES, readFails);
      if saved.Ok? {
        if IsTruthy(saved.value) {
          var parsed := parse(saved.value.value);
          if parsed.Some? {
            messages := parsed.value;
          }
        } else {
          messages := [DailyMessage("initial-message-" + NatToString(now), Greeting(userName), Some(BOT_ID))];
        }
      }
    }

    /** `hideCrisisModal`: only the visibility is cleared. */
    method HideCrisisModal()
      requires Valid()
      modifies this
      ensures Valid()
      ensures !crisisModalVisible && crisisModalShown == old(crisisModalShown)
      ensures messages == old(messages) && inputMessage == old(inputMessage) && isLoading == old(isLoading)
      ensures userName == old(userName)
    {
      crisisModalVisible := false;
    }

    /** `sendMessage`: blank input changes nothing. Otherwise the modal is
        opened when the input is a crisis and it was never shown, and the
        trimmed input is exchanged with the model. Returns the request, or
        `None` when none was sent. */
    method SendMessage(sentAt: nat, repliedAt: nat, reportReadFails: bool, reply: CandidatesReply)
      returns (request: Option<ChatRequest>)
      requires Valid()
      modifies this
      ensures Valid()
      ensures old(crisisModalShown) ==> crisisModalVisible == old(crisisModalVisible)
      ensures IsBlank(old(inputMessage)) ==>
                && request.None? && messages == old(messages) && inputMessage == old(inputMessage)
                && crisisModalVisible == old(crisisModalVisible) && crisisModalShown == old(crisisModalShown)
                && isLoading == old(isLoading)
      ensures !IsBlank(old(inputMessage)) ==>
                var crisis := CheckCrisis(old(inputMessage));
                && crisisModalShown == (old(crisisModalShown) || crisis)
                && crisisModalVisible == (old(crisisModalVisible) || (crisis && !old(crisisModalShown)))
                && Exchanged(old(messages), Trim(old(inputMessage)), sentAt, repliedAt,
                             SystemText(systemInstruction, userName, LatestReport(store.items, reportReadFails)),
                             reply, messages, request)
                && inputMessage == "" && !isLoading
      ensures userName == old(userName)
    {
      if IsBlank(inputMessage) {
        return None;
      }
      NoteCrisis(CheckCrisis(inputMessage));
      var system := SystemText(systemInstruction, userName, LatestReport(store.items, reportReadFails));
      request := Exchange(Trim(inputMessage), sentAt, repliedAt, system, reply);
    }

    /** `showCrisisModal` and `setCrisisModalShown(true)` when a crisis is
        detected and the modal was never shown. */
    method NoteCrisis(crisis: bool)
      requires Valid()
      modifies this
      ensures Valid()
      ensures crisisModalShown == (old(crisisModalShown) || crisis)
      ensures crisisModalVisible == (old(crisisModalVisible) || (crisis && !old(crisisModalShown)))
      ensures messages == old(messages) && inputMessage == old(inputMessage) && isLoading == old(isLoading)
      ensures userName == old(userName)
    {
      if crisis && !crisisModalShown {
        crisisModalVisible := true;
        crisisModalShown := true;
        timesShown := timesShown + 1;
      }
    }

    /** The exchange with the model: the user's message is appended, the
        prior messages and the text go out, and a reply with text follows. */
    method Exchange(text: string, sentAt: nat, repliedAt: nat, system: string, reply: CandidatesReply)
      returns (request: Option<ChatRequest>)
      modifies this
      ensures Exchanged(old(messages), text, sentAt, repliedAt, system, reply, messages, request)
      ensures inputMessage == "" && !isLoading
      ensures userName == old(userName)
      ensures crisisModalVisible == old(crisisModalVisible) && crisisModalShown == old(crisisModalShown)
      ensures timesShown == old(timesShown)
    {
      var prior := Contents(messages);
      messages := messages + [DailyMessage("user-" + NatToString(sentAt), text, Some(USER_ID))];
      inputMessage := "";
      isLoading := true;
      if prior.None? {
        request := None;
      } else {
        request := Some(ChatRequest(prior.value + [Content("user", text)], system));
        var bot := BotText(reply);
        if bot.Some? {
          messages := messages + [DailyMessage("bot-" + NatToString(repliedAt), bot.value, Some(BOT_ID))];
        }
      }
      isLoading := false;
    }
  }

  /** What one exchange does to the list and what it sends: the user's
      message goes at the end; the request is the prior contents and the
      text, unless a prior message has no `user`, which throws before
      anything is sent; the model's message follows only when the request
      went out and its reply has text. */
  predicate Exchanged(before: seq<DailyMessage>, text: string, sentAt: nat, repliedAt: nat,
                      system: string, reply: CandidatesReply,
                      after: seq<DailyMessage>, request: Option<ChatRequest>)
  {
    var prior := Contents(before);
    var user := DailyMessage("user-" + NatToString(sentAt), text, Some(USER_ID));
    && request == (if prior.None? then None else Some(ChatRequest(prior.value + [Content("user", text)], system)))
    && after == before + [user] +
         (if prior.Some? && BotText(reply).Some?
          then [DailyMessage("bot-" + NatToString(repliedAt), BotText(reply).value, Some(BOT_ID))]
          else [])
  }
}
