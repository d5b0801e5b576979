/** The message list shared by the onboarding chat and the plain chat
    screen: each message is `{ id, role, parts: [{ text }] }`, and the
    onboarding greeting also carries `suggestedReplies`. Before a list is
    sent, the screens drop fields with `({ id, ...rest }) => rest`. */
module ChatMessages {
  import opened Wrappers
  import opened JsText
  import opened DiaryRecords
  import Storage
  import Diary
  import Reports
  import DailyChat
  import Onboarding

  datatype ChatMessage = ChatMessage(id: string, role: string, text: string, suggestedReplies: Option<seq<string>>)

  /** A message as it is sent: without `id`, and without
      `suggestedReplies` when those are dropped too (`None`). */
  datatype Payload = Payload(role: string, text: string, suggestedReplies: Option<seq<string>>)

  const USER_ROLE := "user"
  const MODEL_ROLE := "model"
  const APOLOGY := "Sorry, I encountered an error. Please try again."

  /** `({ id, ...rest }) => rest`. */
  function WithoutId(m: ChatMessage): Payload {
    Payload(m.role, m.text, m.suggestedReplies)
  }

  /** `({ suggestedReplies, id, ...rest }) => rest`. */
  function WithoutIdOrReplies(m: ChatMessage): Payload {
    Payload(m.role, m.text, None)
  }

  function StripIds(ms: seq<ChatMessage>): (ps: seq<Payload>)
    ensures |ps| == |ms|
    ensures forall i :: 0 <= i < |ms| ==> ps[i] == WithoutId(ms[i])
  {
    if ms == [] then [] else [WithoutId(ms[0])] + StripIds(ms[1..])
  }

  function StripIdsAndReplies(ms: seq<ChatMessage>): (ps: seq<Payload>)
    ensures |ps| == |ms|
    ensures forall i :: 0 <= i < |ms| ==> ps[i] == WithoutIdOrReplies(ms[i])
  {
    if ms == [] then [] else [WithoutIdOrReplies(ms[0])] + StripIdsAndReplies(ms[1..])
  }

  /** Cleaning a list with one more message appended cleans the list and
      appends that message, cleaned: the order of the conversation is kept
      and nothing else is added. */
  lemma {:induction false} StripIdsAppend(ms: seq<ChatMessage>, m: ChatMessage)
    ensures StripIds(ms + [m]) == StripIds(ms) + [WithoutId(m)]
    ensures StripIdsAndReplies(ms + [m]) == StripIdsAndReplies(ms) + [WithoutIdOrReplies(m)]
  {
    var a := StripIds(ms + [m]);
    var b := StripIds(ms) + [WithoutId(m)];
    assert |a| == |b|;
    forall i | 0 <= i < |a| ensures a[i] == b[i] {
      if i < |ms| {
        assert (ms + [m])[i] == ms[i];
      }
    }
    var c := StripIdsAndReplies(ms + [m]);
    var d := StripIdsAndReplies(ms) + [WithoutIdOrReplies(m)];
    forall i | 0 <= i < |c| ensures c[i] == d[i] {
      if i < |ms| {
        assert (ms + [m])[i] == ms[i];
      }
    }
  }

  /** The storage key a finished conversation is written under:
      `"@chat_" + Date.now()`. */
  function ChatKey(now: nat): (key: string)
    ensures |key| > 6 && key[..6] == "@chat_"
  {
    "@chat_" + NatToString(now)
  }

  lemma NatToStringInjective(a: nat, b: nat)
    requires NatToString(a) == NatToString(b)
    ensures a == b
  {
    NatToStringRoundTrip(a);
    NatToStringRoundTrip(b);
  }

  /** Conversations stored at different times get different keys, and none
      of those keys is a diary entry, a report, or any of the fixed keys the
      app stores: the user's name, the onboarding flag, the daily chat's
      messages and the diary and report bookkeeping keys. */
  lemma ChatKeyDistinct(now1: nat, now2: nat)
    ensures ChatKey(now1) == ChatKey(now2) <==> now1 == now2
    ensures !IsDiaryKey(ChatKey(now1))
    ensures !StartsWith(ChatKey(now1), Reports.REPORT_PREFIX)
    ensures ChatKey(now1) != Reports.LAST_REPORT_PATH && ChatKey(now1) != Reports.LAST_REPORT_DATE
    ensures ChatKey(now1) != Diary.LAST_DIARY_ENTRY && ChatKey(now1) != Diary.LAST_DIARY_DATE
    ensures ChatKey(now1) != Storage.USER_NAME
    ensures ChatKey(now1) != Onboarding.INITIAL_CHAT_COMPLETED
    ensures ChatKey(now1) != DailyChat.DAILY_CHAT_MESSAGES
  {
    var k1 := ChatKey(now1);
    if k1 == ChatKey(now2) {
      assert NatToString(now1) == k1[6..] == NatToString(now2);
      NatToStringInjective(now1, now2);
    }
    assert k1[0] == '@';
    assert k1[1] == 'c';
    assert k1[5] == '_';
  }
}
