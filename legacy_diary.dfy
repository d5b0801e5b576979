/** The older diary screen (HomeScreen.js): one text file per day,
    `diary-YYYY-MM-DD.txt`, headed by the date and the prompt. */
module LegacyDiary {
  import opened Wrappers
  import opened JsText
  import opened Dates
  import opened Storage
  import opened DiaryRecords
  import opened Diary

  const ENTRY_HEADING := "# Diary Entry - "
  const PROMPT_HEADING := "\n\n## Prompt:\n"
  const RESPONSE_HEADING := "\n\n## Response:\n"
  const TEXT_SUFFIX := ".txt"
  const DEFAULT_USER_NAME := "User"

  /** `diary-${formattedDate}.txt`. */
  function LegacyFileName(c: Clock): (name: string)
    ensures StartsWith(name, DIARY_PREFIX) && EndsWith(name, TEXT_SUFFIX)
  {
    DIARY_PREFIX + FormatDate(c) + TEXT_SUFFIX
  }

  /** Two saves target the same file exactly when they fall on the same
      day: a later save that day replaces the earlier file. */
  lemma LegacyFileNameSameDay(c1: Clock, c2: Clock)
    requires ValidClock(c1) && ValidClock(c2)
    ensures LegacyFileName(c1) == LegacyFileName(c2) <==>
            (c1.year, c1.monthIndex, c1.day) == (c2.year, c2.monthIndex, c2.day)
  {
    FormatDateRoundTrip(c1);
    FormatDateRoundTrip(c2);
    FormatDateSameDay(c1, c2);
    assert LegacyFileName(c1)[6..16] == FormatDate(c1);
    assert LegacyFileName(c2)[6..16] == FormatDate(c2);
  }

  /** The text files of this screen are not diary records: the listing of
      the newer screen does not show them. */
  lemma LegacyFileNotListed(c: Clock)
    requires ValidClock(c)
    ensures !IsDiaryKey(LegacyFileName(c))
  {
    FormatDateRoundTrip(c);
    var d := FormatDate(c);
    var name := LegacyFileName(c);
    assert name == DIARY_PREFIX + d + TEXT_SUFFIX;
    assert name[15] == d[9] == d[8..][1];
    assert name[|name| - 5..][0] == name[15];
  }

  datatype EntryParts = EntryParts(date: string, prompt: string, response: string)

  /** The file text: a heading with the date, then the prompt, then the
      response, each under its own heading. */
  function EntryText(date: string, prompt: string, response: string): string {
    ENTRY_HEADING + date + PROMPT_HEADING + prompt + RESPONSE_HEADING + response + "\n"
  }

  /** Reads the date, prompt and response back from a file text. */
  function ReadEntryText(t: string): Option<EntryParts> {
    if |t| < 39 || t[..16] != ENTRY_HEADING || t[26..39] != PROMPT_HEADING then None
    else
      var rest := t[39..];
      var i := IndexOf(rest, RESPONSE_HEADING);
      if i == -1 || |rest| < i + 16 || rest[|rest| - 1] != '\n' then None
      else Some(EntryParts(t[16..26], rest[..i], rest[i + 15..|rest| - 1]))
  }

  /** A file written for a `YYYY-MM-DD` date and a one-line prompt reads
      back as that date, prompt and response, whatever the response holds. */
  lemma EntryTextRoundTrip(date: string, prompt: string, response: string)
    requires |date| == 10
    requires forall i :: 0 <= i < |prompt| ==> prompt[i] != '\n'
    ensures ReadEntryText(EntryText(date, prompt, response)) == Some(EntryParts(date, prompt, response))
  {
    var rest := prompt + RESPONSE_HEADING + response + "\n";
    var t := EntryText(date, prompt, response);
    assert t == ENTRY_HEADING + date + PROMPT_HEADING + rest;
    assert t[..16] == ENTRY_HEADING && t[16..26] == date;
    assert t[26..39] == PROMPT_HEADING && t[39..] == rest;
    forall j | 0 <= j < |prompt|
      ensures !MatchAt(rest, RESPONSE_HEADING, j)
    {
      assert rest[j] == prompt[j];
    }
    assert rest[|prompt|..|prompt| + 15] == RESPONSE_HEADING;
    IndexOfFirst(rest, RESPONSE_HEADING, |prompt|);
    assert rest[..|prompt|] == prompt;
    assert rest[|prompt| + 15..|rest| - 1] == response;
  }

  /** Two complete saves on the same day leave only the second text in the
      day's file. */
  lemma SameDaySaveReplaces(items: map<string, string>, c1: Clock, c2: Clock,
                            text1: string, text2: string, entry1: string, entry2: string)
    requires ValidClock(c1) && ValidClock(c2)
    requires (c1.year, c1.monthIndex, c1.day) == (c2.year, c2.monthIndex, c2.day)
    ensures var first := Applied(items, SaveWrites(LegacyFileName(c1), text1, entry1, FormatDate(c1)));
            var second := Applied(first, SaveWrites(LegacyFileName(c2), text2, entry2, FormatDate(c2)));
            Lookup(second, LegacyFileName(c1)) == Some(text2)
  {
    LegacyFileNameSameDay(c1, c2);
    assert LegacyFileName(c2)[0] == 'd';
    var first := Applied(items, SaveWrites(LegacyFileName(c1), text1, entry1, FormatDate(c1)));
    SaveWritesStore(first, LegacyFileName(c2), text2, entry2, FormatDate(c2));
  }

  class LegacyDiaryScreen {
    var diaryEntry: string
    var prompt: string
    var userName: string
    const store: KeyValueStore

    /** The screen as mounted: no text, the default name and the prompt of
        the day. */
    constructor (store: KeyValueStore, dayOfMonth: nat)
      ensures this.store == store
      ensures diaryEntry == "" && userName == DEFAULT_USER_NAME && prompt == DailyPrompt(dayOfMonth)
    {
      this.store := store;
      diaryEntry := "";
      prompt := DailyPrompt(dayOfMonth);
      userName := DEFAULT_USER_NAME;
    }

    /** `fetchUserName`: a stored non-empty name replaces the shown one; a
        missing or empty name, or a read that throws, leaves it. */
    method FetchUserName(fails: bool)
      modifies this
      ensures !fails && IsTruthy(Lookup(store.items, USER_NAME)) ==> userName == store.items[USER_NAME]
      ensures fails || !IsTruthy(Lookup(store.items, USER_NAME)) ==> userName == old(userName)
      ensures diaryEntry == old(diaryEntry) && prompt == old(prompt)
    {
      var stored := store.GetItem(USER_NAME, fails);
      if stored.Ok? && IsTruthy(stored.value) {
        userName := stored.value.value;
      }
    }

    /** `saveDiaryEntry`: blank text is refused before any write. Otherwise
        the day's file, the text and the date are written in turn, stopping
        at the first write that throws; the text is cleared only after a
        complete save. */
    method SaveDiaryEntry(c: Clock, failAt: Option<nat>) returns (outcome: SaveOutcome)
      modifies this, store
      ensures Trim(old(diaryEntry)) == "" ==> outcome == EmptyEntry && store.items == old(store.items)
      ensures Trim(old(diaryEntry)) != "" ==>
                var date := FormatDate(c);
                var text := EntryText(date, old(prompt), old(diaryEntry));
                && store.items == Applied(old(store.items),
                                          SaveWrites(LegacyFileName(c), text, old(diaryEntry), date)[..Completed(failAt, 3)])
                && (outcome == Saved <==> Completed(failAt, 3) == 3)
                && outcome != EmptyEntry
      ensures diaryEntry == if outcome == Saved then "" else old(diaryEntry)
      ensures prompt == old(prompt) && userName == old(userName)
    {
      if Trim(diaryEntry) == "" {
        outcome := EmptyEntry;
      } else {
        outcome := SaveEntry(c, failAt);
      }
    }

    /** A save of non-blank text. */
    method SaveEntry(c: Clock, failAt: Option<nat>) returns (outcome: SaveOutcome)
      modifies this, store
      ensures var date := FormatDate(c);
              var text := EntryText(date, old(prompt), old(diaryEntry));
              store.items == Applied(old(store.items),
                                     SaveWrites(LegacyFileName(c), text, old(diaryEntry), date)[..Completed(failAt, 3)])
      ensures outcome == Saved <==> Completed(failAt, 3) == 3
      ensures outcome != EmptyEntry
      ensures diaryEntry == if outcome == Saved then "" else old(diaryEntry)
      ensures prompt == old(prompt) && userName == old(userName)
    {
      var date := FormatDate(c);
      var text := EntryText(date, prompt, diaryEntry);
      var ok := store.SetItemsInTurn((LegacyFileName(c), text), (LAST_DIARY_ENTRY, diaryEntry),
                                    (LAST_DIARY_DATE, date), failAt);
      if ok {
        diaryEntry := "";
        outcome := Saved;
      } else {
        outcome := SaveFailed;
      }
    }
  }
}
