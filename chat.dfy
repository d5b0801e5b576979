/** The plain chat screen (`ChatScreen.js`): the input is appended as it
    was typed, the list goes out with only the ids removed, and the first
    candidate's text (or the apology) is appended after it. */
module Chat {
  import opened Wrappers
  import opened JsText
  import opened Storage
  import opened Remote
  import opened ChatMessages

  /** The model message appended after a call:
      `data.candidates[0].content.parts[0].text` as it is, or the apology
      when the call fails or any step of that path is missing. */
  function BotMessage(now: nat, reply: CandidatesReply): (m: ChatMessage)
    ensures m.role == MODEL_ROLE && m.suggestedReplies.None?
    ensures reply.CandidateText? ==> m.id == NatToString(now) + "-bot" && m.text == reply.text
    ensures !reply.CandidateText? ==> m.id == NatToString(now) + "-error" && m.text == APOLOGY
  {
    match reply
    case CandidateText(text) => ChatMessage(NatToString(now) + "-bot", MODEL_ROLE, text, None)
    case _ => ChatMessage(NatToString(now) + "-error", MODEL_ROLE, APOLOGY, None)
  }

  class ChatScreen {
    var messages: seq<ChatMessage>
    var inputMessage: string
    var isLoading: bool
    const store: KeyValueStore

    constructor (store: KeyValueStore)
      ensures this.store == store
      ensures messages == [] && inputMessage == "" && !isLoading
      ensures Alternates(messages)
    {
      this.store := store;
      messages := [];
      inputMessage := "";
      isLoading := false;
    }

    /** `handleSend` followed by `sendToApi`: blank input is ignored.
        Otherwise the input, untrimmed, is appended as a user message, the
        list goes out with only the ids removed, and one model message
        follows it. Returns what was sent. */
    method HandleSend(sentAt: nat, repliedAt: nat, reply: CandidatesReply) returns (sent: Option<seq<Payload>>)
      modifies this
      ensures IsBlank(old(inputMessage)) ==>
                sent.None? && messages == old(messages) && inputMessage == old(inputMessage)
                && isLoading == old(isLoading)
      ensures !IsBlank(old(inputMessage)) ==>
                var user := ChatMessage(NatToString(sentAt), USER_ROLE, old(inputMessage), None);
                && messages == old(messages) + [user, BotMessage(repliedAt, reply)]
                && sent == Some(StripIds(old(messages)) + [Payload(USER_ROLE, old(inputMessage), None)])
                && inputMessage == "" && !isLoading
      ensures Alternates(old(messages)) ==> Alternates(messages)
    {
      if IsBlank(inputMessage) {
        return None;
      }
      var user := ChatMessage(NatToString(sentAt), USER_ROLE, inputMessage, None);
      if Alternates(messages) {
        AlternatesAfterSend(messages, user, BotMessage(repliedAt, reply));
      }
      StripIdsAppend(messages, user);
      sent := Some(StripIds(messages + [user]));
      messages := messages + [user];
      inputMessage := "";
      isLoading := true;
      messages := messages + [BotMessage(repliedAt, reply)];
      isLoading := false;
    }

    /** `storeChat`: the list is written under `@chat_<now>`. */
    method StoreChat(now: nat, stringify: seq<ChatMessage> -> string, fails: bool)
      modifies store
      ensures store.items == if fails then old(store.items) else old(store.items)[ChatKey(now) := stringify(messages)]
    {
      var _ := store.SetItem(ChatKey(now), stringify(messages), fails);
    }
  }

  /** Every non-blank send adds exactly two messages, the user's first,
      so after any run of sends the messages alternate user, model. */
  predicate Alternates(ms: seq<ChatMessage>) {
    |ms| % 2 == 0 && forall i :: 0 <= i < |ms| ==> (ms[i].role == USER_ROLE <==> i % 2 == 0)
  }

  lemma AlternatesAfterSend(ms: seq<ChatMessage>, user: ChatMessage, bot: ChatMessage)
    requires Alternates(ms) && user.role == USER_ROLE && bot.role == MODEL_ROLE
    ensures Alternates(ms + [user, bot])
  {
    var ns := ms + [user, bot];
    forall i | 0 <= i < |ns| ensures ns[i].role == USER_ROLE <==> i % 2 == 0 {
      if i < |ms| {
        assert ns[i] == ms[i];
      }
    }
  }
}
