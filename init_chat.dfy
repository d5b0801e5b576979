/** The onboarding chat (`InitChatScreen.js`): a greeting with suggested
    replies, a message list the user and the language model append to, the
    list sent without ids and suggested replies, and the "1st Report" hand-off
    to the summary screen. */
module InitChat {
  import opened Wrappers
  import opened JsText
  import opened Storage
  import opened Remote
  import opened ChatMessages

  const SUGGESTED_REPLIES: seq<string> := [
    "Talk about school",
    "Talk about family",
    "Talk about friends",
    "Talk about stress",
    "Talk about something good"
  ]

  const WELCOME_BODY :=
    "I'm here to be your personal, private guide for exploring your emotions and mental well-being. "
    + "To start, we'll have a gentle chat to help me understand how best to support you.\n\n"
    + "Individual conversations will **never** be stored, and summaries and insights are stored "
    + "securely and locally on your device only. We will **never** share your personal data "
    + "without your explicit consent!\n\n"
    + "This is a safe, confidential space just for you."

  /** A stored value placed in a template literal: a missing one reads
      `null`. */
  function Shown(v: Option<string>): (t: string)
    ensures v.Some? ==> t == v.value
    ensures v.None? ==> t == "null"
  {
    match v
    case Some(s) => s
    case None => "null"
  }

  const WELCOME_HEAD := ", welcome to MindLink!"

  function WelcomeText(storedName: Option<string>): string {
    "Hello " + Shown(storedName) + WELCOME_HEAD + "\n\n" + WELCOME_BODY
  }

  /** The greeting that opens the onboarding chat: a model message that
      greets the stored name (or `null` when none is stored) and offers five
      suggested replies. */
  function InitialMessage(now: nat, storedName: Option<string>): (m: ChatMessage)
    ensures m.role == MODEL_ROLE && m.id == NatToString(now) + "-bot"
    ensures m.suggestedReplies == Some(SUGGESTED_REPLIES) && |m.suggestedReplies.value| == 5
    ensures StartsWith(m.text, "Hello " + Shown(storedName) + WELCOME_HEAD)
  {
    var head := "Hello " + Shown(storedName) + WELCOME_HEAD;
    var text := WelcomeText(storedName);
    assert text == head + ("\n\n" + WELCOME_BODY);
    assert text[..|head|] == head;
    ChatMessage(NatToString(now) + "-bot", MODEL_ROLE, WelcomeText(storedName), Some(SUGGESTED_REPLIES))
  }

  /** The model message appended after a call: the trimmed `reply` (empty
      when the body has none), or the apology when the call failed. */
  function BotReply(now: nat, reply: ProxyReply): (m: ChatMessage)
    ensures m.role == MODEL_ROLE && m.suggestedReplies.None?
    ensures reply.ProxyFailed? ==> m.id == NatToString(now) + "-error" && m.text == APOLOGY
    ensures reply.ProxyBody? ==> m.id == NatToString(now) + "-bot" && m.text == ReplyText(reply).value
  {
    match ReplyText(reply)
    case Ok(text) => ChatMessage(NatToString(now) + "-bot", MODEL_ROLE, text, None)
    case Failed => ChatMessage(NatToString(now) + "-error", MODEL_ROLE, APOLOGY, None)
  }

  /** What "1st Report" hands to the summary screen. */
  datatype SummaryRequest = SummaryRequest(cleanedMessages: seq<Payload>, isInitialFlow: bool)

  class InitChatScreen {
    var messages: seq<ChatMessage>
    var inputMessage: string
    var isLoading: bool
    const store: KeyValueStore

    constructor (store: KeyValueStore)
      ensures this.store == store
      ensures messages == [] && inputMessage == "" && !isLoading
    {
      this.store := store;
      messages := [];
      inputMessage := "";
      isLoading := false;
    }

    /** `showInitialBotMessage`: the greeting is appended after the stored
        name is read; a read that throws adds nothing. */
    method ShowInitialBotMessage(now: nat, readFails: bool)
      modifies this
      ensures readFails ==> messages == old(messages)
      ensures !readFails ==> messages == old(messages) + [InitialMessage(now, Lookup(store.items, USER_NAME))]
      ensures inputMessage == old(inputMessage) && isLoading == old(isLoading)
    {
      var name := store.GetItem(USER_NAME, readFails);
      if name.Ok? {
        messages := messages + [InitialMessage(now, name.value)];
      }
    }

    /** Tapping a suggested reply puts it in the input field. */
    method ChooseSuggestedReply(reply: string)
      modifies this
      ensures inputMessage == reply
      ensures messages == old(messages) && isLoading == old(isLoading)
    {
      inputMessage := reply;
    }

    /** `handleSend` followed by `sendToApi`: blank input is ignored.
        Otherwise the trimmed input is appended as a user message, the whole
        list goes out without ids and suggested replies, and the model's
        reply (or the apology) is appended after it. Returns what was sent. */
    method HandleSend(sentAt: nat, repliedAt: nat, reply: ProxyReply) returns (sent: Option<seq<Payload>>)
      modifies this
      ensures IsBlank(old(inputMessage)) ==>
                sent.None? && messages == old(messages) && inputMessage == old(inputMessage)
                && isLoading == old(isLoading)
      ensures !IsBlank(old(inputMessage)) ==>
                var user := ChatMessage(NatToString(sentAt), USER_ROLE, Trim(old(inputMessage)), None);
                && messages == old(messages) + [user, BotReply(repliedAt, reply)]
                && sent == Some(StripIdsAndReplies(old(messages)) + [Payload(USER_ROLE, Trim(old(inputMessage)), None)])
                && inputMessage == "" && !isLoading
    {
      if IsBlank(inputMessage) {
        return None;
      }
      var text := Trim(inputMessage);
      var user := ChatMessage(NatToString(sentAt), USER_ROLE, text, None);
      var bot := BotReply(repliedAt, reply);
      StripIdsAppend(messages, user);
      assert WithoutIdOrReplies(user) == Payload(USER_ROLE, text, None);
      sent := Some(StripIdsAndReplies(messages + [user]));
      assert messages + [user] + [bot] == messages + [user, bot];
      messages := messages + [user];
      inputMessage := "";
      isLoading := true;
      messages := messages + [bot];
      isLoading := false;
    }

    /** The "1st Report" button: the messages with only their ids removed
        (suggested replies stay), flagged as the initial flow. */
    function FirstReport(): (r: SummaryRequest)
      reads this
      ensures r.isInitialFlow
      ensures |r.cleanedMessages| == |messages|
      ensures forall i :: 0 <= i < |messages| ==>
                r.cleanedMessages[i] == Payload(messages[i].role, messages[i].text, messages[i].suggestedReplies)
    {
      SummaryRequest(StripIds(messages), true)
    }

    /** `storeChat`: the list is written under `@chat_<now>`. */
    method StoreChat(now: nat, stringify: seq<ChatMessage> -> string, fails: bool)
      modifies store
      ensures store.items == if fails then old(store.items) else old(store.items)[ChatKey(now) := stringify(messages)]
    {
      var _ := store.SetItem(ChatKey(now), stringify(messages), fails);
    }
  }

  /** Every suggested reply, once chosen, is sent as it is: none is blank,
      and none has whitespace to trim. */
  lemma SuggestedRepliesSendable(k: nat)
    requires k < |SUGGESTED_REPLIES|
    ensures !IsBlank(SUGGESTED_REPLIES[k]) && Trim(SUGGESTED_REPLIES[k]) == SUGGESTED_REPLIES[k]
  {
    var r := SUGGESTED_REPLIES[k];
    assert r[0] == 'T' && 'a' <= r[|r| - 1] <= 'z';
    Untrimmed(r);
  }

  lemma Untrimmed(r: string)
    requires r != [] && !IsSpace(r[0]) && !IsSpace(r[|r| - 1])
    ensures Trim(r) == r && !IsBlank(r)
  {
    TrimPadded("", r, "");
    assert "" + r + "" == r;
  }
}
