/** The diary screen (screens/HomeScreen.js): a daily prompt, a mood and a
    set of tags; saving an entry as a JSON record under a time-stamped
    `diary-….json` key; listing the saved entries, most recent date first. */
module Diary {
  import opened Wrappers
  import opened JsText
  import opened Seqs
  import opened Dates
  import opened Storage
  import opened DiaryRecords
  import opened Sorting

  /** The ten daily prompts, in the order both diary screens list them. */
  const PROMPTS: seq<string> := [
    "How are you feeling today? Share your thoughts and emotions.",
    "What's one thing that made you smile today?",
    "What are you grateful for today?",
    "Is there anything that's bothering you that you'd like to talk about?",
    "What are your goals for today?",
    "How did you sleep last night? How is your energy level today?",
    "Describe your mood today using three words.",
    "What's something you're looking forward to today or this week?",
    "If you could change one thing about today, what would it be?",
    "What's something you did today that you're proud of?"
  ]

  /** The prompt for a day of the month: the list is indexed by the day
      modulo its length, so every day picks one of the ten prompts. */
  function DailyPrompt(dayOfMonth: nat): (p: string)
    ensures p in PROMPTS
  {
    PROMPTS[dayOfMonth % |PROMPTS|]
  }

  /** The ten prompts are different texts: they differ in length, or, for
      the two pairs of equal length, in their closing punctuation. */
  lemma PromptsDistinct()
    ensures forall i, j :: 0 <= i < j < |PROMPTS| ==> PROMPTS[i] != PROMPTS[j]
  {
    var lengths := [60, 43, 32, 69, 30, 61, 43, 62, 60, 52];
    forall k | 0 <= k < |PROMPTS|
      ensures |PROMPTS[k]| == lengths[k]
    {
      assert k in {0, 1, 2, 3, 4, 5, 6, 7, 8, 9};
    }
    assert PROMPTS[0][59] == '.' && PROMPTS[8][59] == '?';
    assert PROMPTS[1][42] == '?' && PROMPTS[6][42] == '.';
  }

  /** A day gets the prompt listed at position `day % 10` and at no other
      position; two days get the same prompt exactly when they agree modulo
      ten, so the prompts repeat every ten days and differ within any ten. */
  lemma DailyPromptRepeats(day1: nat, day2: nat)
    ensures forall k :: 0 <= k < |PROMPTS| ==> (DailyPrompt(day1) == PROMPTS[k] <==> k == day1 % 10)
    ensures DailyPrompt(day1) == DailyPrompt(day2) <==> day1 % 10 == day2 % 10
  {
    PromptsDistinct();
    if day1 % 10 < day2 % 10 {
      assert PROMPTS[day1 % 10] != PROMPTS[day2 % 10];
    } else if day2 % 10 < day1 % 10 {
      assert PROMPTS[day2 % 10] != PROMPTS[day1 % 10];
    }
  }

  // ----- Tags -----

  function Other(tag: string): string -> bool {
    t => t != tag
  }

  /** The tag list after tapping `tag`: a selected tag is removed, every
      occurrence of it, and an unselected one is appended at the end. The
      other tags keep their number of occurrences. */
  function Toggled(tags: seq<string>, tag: string): (r: seq<string>)
    ensures tag in r <==> tag !in tags
    ensures forall t :: t != tag ==> multiset(r)[t] == multiset(tags)[t]
    ensures tag !in tags ==> r == tags + [tag]
  {
    if tag in tags then
      FilterMembers(tags, Other(tag));
      assert forall t :: t != tag ==> multiset(Filter(tags, Other(tag)))[t] == multiset(tags)[t] by {
        forall t | t != tag
          ensures multiset(Filter(tags, Other(tag)))[t] == multiset(tags)[t]
        {
          FilterCount(tags, Other(tag), t);
        }
      }
      Filter(tags, Other(tag))
    else
      tags + [tag]
  }

  /** Tapping an unselected tag twice gives back the original list. */
  lemma ToggledTwice(tags: seq<string>, tag: string)
    requires tag !in tags
    ensures Toggled(Toggled(tags, tag), tag) == tags
  {
    FilterSnoc(tags, tag, Other(tag));
    FilterAll(tags, Other(tag));
  }

  /** A tag that passes the filter lands at the position given by the
      number of passing elements before it. */
  lemma FilterPosition(s: seq<string>, p: string -> bool, i: nat)
    requires i < |s| && p(s[i])
    ensures |Filter(s[..i], p)| < |Filter(s, p)|
    ensures Filter(s, p)[|Filter(s[..i], p)|] == s[i]
  {
    assert s == s[..i] + s[i..];
    FilterConcat(s[..i], s[i..], p);
    assert s[i..] == [s[i]] + s[i + 1..];
    FilterConcat([s[i]], s[i + 1..], p);
    assert Filter([s[i]], p) == [s[i]] by {
      assert [s[i]][..0] == [];
    }
  }

  /** Tapping a tag keeps the other tags in their relative order: two of
      them that come one before the other in `tags` still do afterwards. */
  lemma ToggledKeepsOrder(tags: seq<string>, tag: string, i: nat, j: nat)
    requires i < j < |tags| && tags[i] != tag && tags[j] != tag
    ensures exists i', j' :: 0 <= i' < j' < |Toggled(tags, tag)|
              && Toggled(tags, tag)[i'] == tags[i] && Toggled(tags, tag)[j'] == tags[j]
  {
    var r := Toggled(tags, tag);
    if tag in tags {
      var p := Other(tag);
      FilterPosition(tags, p, i);
      FilterPosition(tags, p, j);
      FilterPosition(tags[..j], p, i);
      assert tags[..j][..i] == tags[..i];
      assert r[|Filter(tags[..i], p)|] == tags[i] && r[|Filter(tags[..j], p)|] == tags[j];
    } else {
      assert r[i] == tags[i] && r[j] == tags[j];
    }
  }

  // ----- File name -----

  /** `${hours}${minutes}${seconds}${ms}`, padded to 2, 2, 2 and 3 digits. */
  function TimeSuffix(c: Clock): (s: string)
    ensures AllDigits(s)
    ensures ValidClock(c) ==> |s| == 9
  {
    ZeroPad(c.hours, 2) + ZeroPad(c.minutes, 2) + ZeroPad(c.seconds, 2) + ZeroPad(c.millis, 3)
  }

  /** `diary-${formattedDate}-${uniqueSuffix}.json`: a key the listing
      recognises as a diary record. */
  function DiaryFileName(c: Clock): (name: string)
    ensures IsDiaryKey(name)
  {
    DIARY_PREFIX + FormatDate(c) + "-" + TimeSuffix(c) + DIARY_SUFFIX
  }

  /** The file name holds the `YYYY-MM-DD` date at positions 6 to 15 and
      the nine time digits at 17 to 25. */
  lemma DiaryFileNameLayout(c: Clock)
    requires ValidClock(c)
    ensures |DiaryFileName(c)| == 31
    ensures DiaryFileName(c)[6..16] == FormatDate(c) && IsIsoDate(FormatDate(c))
    ensures DiaryFileName(c)[16] == '-' && DiaryFileName(c)[17..26] == TimeSuffix(c)
  {
    FormatDateRoundTrip(c);
    var d, t := FormatDate(c), TimeSuffix(c);
    assert DiaryFileName(c) == DIARY_PREFIX + d + "-" + t + DIARY_SUFFIX;
  }

  /** The time digits read back as the hours, minutes, seconds and
      milliseconds. */
  lemma TimeSuffixRoundTrip(c: Clock)
    requires ValidClock(c)
    ensures DigitsValue(TimeSuffix(c)[..2]) == c.hours
    ensures DigitsValue(TimeSuffix(c)[2..4]) == c.minutes
    ensures DigitsValue(TimeSuffix(c)[4..6]) == c.seconds
    ensures DigitsValue(TimeSuffix(c)[6..]) == c.millis
  {
    var h, m, s, ms := ZeroPad(c.hours, 2), ZeroPad(c.minutes, 2), ZeroPad(c.seconds, 2), ZeroPad(c.millis, 3);
    var t := TimeSuffix(c);
    assert t == h + m + s + ms;
    assert t[..2] == h && t[2..4] == m && t[4..6] == s && t[6..] == ms;
    ZeroPadValue(c.hours, 2);
    ZeroPadValue(c.minutes, 2);
    ZeroPadValue(c.seconds, 2);
    ZeroPadValue(c.millis, 3);
  }

  /** Two saves get the same file name only at the same millisecond: the
      name is unique for each entry. */
  lemma DiaryFileNameUnique(c1: Clock, c2: Clock)
    requires ValidClock(c1) && ValidClock(c2)
    ensures DiaryFileName(c1) == DiaryFileName(c2) <==> c1 == c2
  {
    if DiaryFileName(c1) == DiaryFileName(c2) {
      DiaryFileNameLayout(c1);
      DiaryFileNameLayout(c2);
      FormatDateSameDay(c1, c2);
      TimeSuffixRoundTrip(c1);
      TimeSuffixRoundTrip(c2);
    }
  }

  /** The date the listing falls back to: the key with the first `diary-`
      and then the first `.json` removed. */
  function FallbackDate(key: string): string {
    ReplaceFirst(ReplaceFirst(key, DIARY_PREFIX, ""), DIARY_SUFFIX, "")
  }

  /** The date and time part of a file name holds digits and dashes only. */
  lemma StampHasNoDot(c: Clock)
    requires ValidClock(c)
    ensures forall i :: 0 <= i < |FormatDate(c) + "-" + TimeSuffix(c)| ==>
              (FormatDate(c) + "-" + TimeSuffix(c))[i] != '.'
  {
    var d, t := FormatDate(c), TimeSuffix(c);
    var x := d + "-" + t;
    FormatDateHasNoDot(c);
    forall i | 0 <= i < |x|
      ensures x[i] != '.'
    {
      if i < |d| {
        assert x[i] == d[i];
      } else if i > |d| {
        assert x[i] == t[i - |d| - 1];
      }
    }
  }

  /** For a name this screen builds, the fallback date is the date, a dash
      and the time digits: it still begins with the `YYYY-MM-DD` date. */
  lemma FallbackDateOfFileName(c: Clock)
    requires ValidClock(c)
    ensures FallbackDate(DiaryFileName(c)) == FormatDate(c) + "-" + TimeSuffix(c)
    ensures FallbackDate(DiaryFileName(c))[..10] == FormatDate(c)
  {
    var x := FormatDate(c) + "-" + TimeSuffix(c);
    assert DiaryFileName(c) == DIARY_PREFIX + (x + DIARY_SUFFIX);
    RemovePrefixOnce(DIARY_PREFIX, x + DIARY_SUFFIX);
    StampHasNoDot(c);
    RemoveSuffixOnce(x, DIARY_SUFFIX);
    FormatDateRoundTrip(c);
  }

  // ----- Listing -----

  /** One row of the history tab: the key, the date it is listed under and
      the length of the stored text. */
  datatype DiaryListing = DiaryListing(name: string, date: string, size: nat)

  function DateOf(d: DiaryListing): string {
    d.date
  }

  /** The row for a stored key: the record's `date` when the text parses
      as a record that has one, otherwise the fallback date. */
  function ListingOf(key: string, items: map<string, string>,
                     parse: string -> Option<DiaryRecord>): DiaryListing
  {
    var content := Lookup(items, key).GetOr("");
    var parsed := parse(content);
    var date := if parsed.Some? && parsed.value.date.Some? then parsed.value.date.value
                else FallbackDate(key);
    DiaryListing(key, date, |content|)
  }

  /** The rows in key order, one per diary key, before sorting. */
  function Unsorted(order: seq<string>, items: map<string, string>,
                    parse: string -> Option<DiaryRecord>): (ds: seq<DiaryListing>)
    ensures |ds| == |Filter(order, IsDiaryKey)|
    ensures forall i :: 0 <= i < |ds| ==> ds[i].name == Filter(order, IsDiaryKey)[i]
  {
    var keys := Filter(order, IsDiaryKey);
    seq(|keys|, i requires 0 <= i < |keys| => ListingOf(keys[i], items, parse))
  }

  /** Builds the rows and sorts them in place, latest date first. */
  method SortedListing(order: seq<string>, items: map<string, string>,
                       parse: string -> Option<DiaryRecord>) returns (listing: seq<DiaryListing>)
    ensures multiset(listing) == multiset(Unsorted(order, items, parse))
    ensures SortedDescending(listing, DateOf)
  {
    var details := Unsorted(order, items, parse);
    var a := new DiaryListing[|details|](i requires 0 <= i < |details| => details[i]);
    assert a[..] == details;
    SortByKeyDescending(a, DateOf);
    listing := a[..];
  }

  /** The listing has a row for every stored diary key and for nothing
      else. */
  lemma ListedKeys(order: seq<string>, items: map<string, string>,
                   parse: string -> Option<DiaryRecord>, listing: seq<DiaryListing>)
    requires IsEnumeration(order, items)
    requires multiset(listing) == multiset(Unsorted(order, items, parse))
    ensures forall d :: d in listing ==> d.name in items && IsDiaryKey(d.name)
    ensures forall key :: key in items && IsDiaryKey(key) ==>
              exists d :: d in listing && d.name == key
  {
    var keys := Filter(order, IsDiaryKey);
    var ds := Unsorted(order, items, parse);
    FilterMembers(order, IsDiaryKey);
    forall d | d in listing
      ensures d.name in items && IsDiaryKey(d.name)
    {
      assert d in multiset(ds);
      var i :| 0 <= i < |ds| && ds[i] == d;
      assert keys[i] in keys;
    }
    forall key | key in items && IsDiaryKey(key)
      ensures exists d :: d in listing && d.name == key
    {
      assert key in keys;
      var i :| 0 <= i < |keys| && keys[i] == key;
      assert ds[i] in multiset(listing);
    }
  }

  /** A record this screen saved lists under its `YYYY-MM-DD` date when the
      stored text reads back as the record, and under a string that begins
      with that date when it does not. */
  lemma SavedEntryListedDate(c: Clock, record: DiaryRecord, items: map<string, string>,
                             parse: string -> Option<DiaryRecord>)
    requires ValidClock(c)
    requires record.date == Some(FormatDate(c))
    requires DiaryFileName(c) in items
    ensures parse(items[DiaryFileName(c)]) == Some(record) ==>
              ListingOf(DiaryFileName(c), items, parse).date == FormatDate(c)
    ensures parse(items[DiaryFileName(c)]).None? ==>
              ListingOf(DiaryFileName(c), items, parse).date[..10] == FormatDate(c)
  {
    FallbackDateOfFileName(c);
  }

  /** In the sorted listing, an earlier row with an app-written date is
      never on an earlier day than a later row. */
  lemma ListingNewestFirst(listing: seq<DiaryListing>, i: nat, j: nat, c1: Clock, c2: Clock)
    requires SortedDescending(listing, DateOf)
    requires i < j < |listing|
    requires ValidClock(c1) && ValidClock(c2)
    requires listing[i].date == FormatDate(c1) && listing[j].date == FormatDate(c2)
    ensures c2.year < c1.year
            || (c2.year == c1.year && c2.monthIndex < c1.monthIndex)
            || (c2.year == c1.year && c2.monthIndex == c1.monthIndex && c2.day <= c1.day)
  {
    assert LexLe(DateOf(listing[j]), DateOf(listing[i]));
    FormatDateChronological(c2, c1);
  }

  // ----- Saving -----

  const LAST_DIARY_ENTRY := "@last_diary_entry"
  const LAST_DIARY_DATE := "@last_diary_date"
  const DEFAULT_MOOD := 5

  datatype SaveOutcome = EmptyEntry | Saved | SaveFailed

  /** The record written for an entry: exactly the date, prompt, text,
      mood and tags. */
  function SavedRecord(c: Clock, prompt: string, content: string, mood: int, tags: seq<string>): (r: DiaryRecord)
    ensures r.date == Some(FormatDate(c)) && r.response == Some(content)
    ensures r.prompt == Some(prompt) && r.mood == Some(mood) && r.tags == Some(tags)
  {
    DiaryRecord(Some(FormatDate(c)), Some(prompt), Some(content), Some(mood), Some(tags))
  }

  /** The writes of a save, in order: the entry file under its name, then
      the entry text and the date under the two bookkeeping keys. */
  function SaveWrites(fileName: string, text: string, content: string, date: string): seq<(string, string)> {
    [(fileName, text), (LAST_DIARY_ENTRY, content), (LAST_DIARY_DATE, date)]
  }

  /** After a complete save the file is under its name, the entry text and
      the date are under the bookkeeping keys, and no other key changed. */
  lemma SaveWritesStore(items: map<string, string>, fileName: string, text: string,
                        content: string, date: string)
    requires fileName != LAST_DIARY_ENTRY && fileName != LAST_DIARY_DATE
    ensures Lookup(Applied(items, SaveWrites(fileName, text, content, date)), fileName) == Some(text)
    ensures Lookup(Applied(items, SaveWrites(fileName, text, content, date)), LAST_DIARY_ENTRY) == Some(content)
    ensures Lookup(Applied(items, SaveWrites(fileName, text, content, date)), LAST_DIARY_DATE) == Some(date)
    ensures forall key :: key != fileName && key != LAST_DIARY_ENTRY && key != LAST_DIARY_DATE ==>
              Lookup(Applied(items, SaveWrites(fileName, text, content, date)), key) == Lookup(items, key)
  {
    var ws := SaveWrites(fileName, text, content, date);
    AppliedWritten(items, ws, 0);
    AppliedWritten(items, ws, 1);
    AppliedWritten(items, ws, 2);
    forall key | key != fileName && key != LAST_DIARY_ENTRY && key != LAST_DIARY_DATE
      ensures Lookup(Applied(items, ws), key) == Lookup(items, key)
    {
      AppliedUntouched(items, ws, key);
    }
  }

  /** A diary file name is neither bookkeeping key. */
  lemma DiaryFileNameNotBookkeeping(c: Clock)
    ensures DiaryFileName(c) != LAST_DIARY_ENTRY && DiaryFileName(c) != LAST_DIARY_DATE
  {
    assert DiaryFileName(c)[0] == 'd';
  }

  class DiaryScreen {
    var diaryEntry: string
    var prompt: string
    var moodValue: int
    var selectedTags: seq<string>
    var savedDiaries: seq<DiaryListing>
    var isLoading: bool
    const store: KeyValueStore

    /** The screen as mounted: an empty entry, mood 5, no tags, and the
        prompt of the day. */
    constructor (store: KeyValueStore, dayOfMonth: nat)
      ensures this.store == store
      ensures diaryEntry == "" && moodValue == DEFAULT_MOOD && selectedTags == []
      ensures prompt == DailyPrompt(dayOfMonth)
      ensures savedDiaries == [] && !isLoading
    {
      this.store := store;
      diaryEntry := "";
      prompt := DailyPrompt(dayOfMonth);
      moodValue := DEFAULT_MOOD;
      selectedTags := [];
      savedDiaries := [];
      isLoading := false;
    }

    /** `toggleTag`. */
    method ToggleTag(tag: string)
      modifies this
      ensures selectedTags == Toggled(old(selectedTags), tag)
      ensures diaryEntry == old(diaryEntry) && prompt == old(prompt) && moodValue == old(moodValue)
      ensures savedDiaries == old(savedDiaries) && isLoading == old(isLoading)
    {
      selectedTags := Toggled(selectedTags, tag);
    }

    /** `loadDiaryEntries`: the stored diary records, latest date first;
        when listing throws, no rows. Loading is over afterwards. */
    method LoadDiaryEntries(order: seq<string>, parse: string -> Option<DiaryRecord>, fails: bool)
      modifies this
      ensures fails ==> savedDiaries == []
      ensures !fails ==> multiset(savedDiaries) == multiset(Unsorted(order, store.items, parse))
      ensures SortedDescending(savedDiaries, DateOf)
      ensures !isLoading
      ensures diaryEntry == old(diaryEntry) && prompt == old(prompt) && moodValue == old(moodValue)
      ensures selectedTags == old(selectedTags)
    {
      isLoading := true;
      if fails {
        savedDiaries := [];
      } else {
        savedDiaries := SortedListing(order, store.items, parse);
      }
      isLoading := false;
    }

    /** `saveDiaryWithContent`: blank text is refused without a write.
        Otherwise the record, the text and the date are written in turn,
        stopping at the first write that throws; only a complete save
        clears the entry, the tags and the mood. */
    method SaveDiaryWithContent(content: string, mood: int, tags: seq<string>, c: Clock,
                                stringify: DiaryRecord -> string, failAt: Option<nat>)
      returns (outcome: SaveOutcome)
      modifies this, store
      ensures Trim(content) == "" ==> outcome == EmptyEntry && store.items == old(store.items)
      ensures Trim(content) != "" ==>
                var json := stringify(SavedRecord(c, old(prompt), content, mood, tags));
                && store.items == Applied(old(store.items), SaveWrites(DiaryFileName(c), json, content, FormatDate(c))[..Completed(failAt, 3)])
                && (outcome == Saved <==> Completed(failAt, 3) == 3)
                && outcome != EmptyEntry
      ensures outcome == Saved ==> diaryEntry == "" && selectedTags == [] && moodValue == DEFAULT_MOOD
      ensures outcome != Saved ==>
                diaryEntry == old(diaryEntry) && selectedTags == old(selectedTags) && moodValue == old(moodValue)
      ensures prompt == old(prompt) && savedDiaries == old(savedDiaries) && isLoading == old(isLoading)
    {
      if Trim(content) == "" {
        outcome := EmptyEntry;
      } else {
        outcome := SaveEntry(content, mood, tags, c, stringify, failAt);
      }
    }

    /** A save of non-blank text. */
    method SaveEntry(content: string, mood: int, tags: seq<string>, c: Clock,
                     stringify: DiaryRecord -> string, failAt: Option<nat>)
      returns (outcome: SaveOutcome)
      modifies this, store
      ensures var json := stringify(SavedRecord(c, old(prompt), content, mood, tags));
              store.items == Applied(old(store.items), SaveWrites(DiaryFileName(c), json, content, FormatDate(c))[..Completed(failAt, 3)])
      ensures outcome == Saved <==> Completed(failAt, 3) == 3
      ensures outcome != EmptyEntry
      ensures outcome == Saved ==> diaryEntry == "" && selectedTags == [] && moodValue == DEFAULT_MOOD
      ensures outcome != Saved ==>
                diaryEntry == old(diaryEntry) && selectedTags == old(selectedTags) && moodValue == old(moodValue)
      ensures prompt == old(prompt) && savedDiaries == old(savedDiaries) && isLoading == old(isLoading)
    {
      var json := stringify(SavedRecord(c, prompt, content, mood, tags));
      var ok := store.SetItemsInTurn((DiaryFileName(c), json), (LAST_DIARY_ENTRY, content),
                                    (LAST_DIARY_DATE, FormatDate(c)), failAt);
      if ok {
        diaryEntry := "";
        selectedTags := [];
        moodValue := DEFAULT_MOOD;
        outcome := Saved;
      } else {
        outcome := SaveFailed;
      }
    }

    /** `handleSave` of the writing tab: blank text is refused; otherwise
        the tab's text, mood and tags become the screen's before the save. */
    method HandleSave(localEntry: string, localMood: int, localTags: seq<string>, c: Clock,
                      stringify: DiaryRecord -> string, failAt: Option<nat>)
      returns (outcome: SaveOutcome)
      modifies this, store
      ensures Trim(localEntry) == "" ==>
                && outcome == EmptyEntry && store.items == old(store.items)
                && diaryEntry == old(diaryEntry) && moodValue == old(moodValue) && selectedTags == old(selectedTags)
      ensures prompt == old(prompt) && savedDiaries == old(savedDiaries) && isLoading == old(isLoading)
      ensures Trim(localEntry) != "" ==>
                var json := stringify(SavedRecord(c, old(prompt), localEntry, localMood, localTags));
                && store.items == Applied(old(store.items), SaveWrites(DiaryFileName(c), json, localEntry, FormatDate(c))[..Completed(failAt, 3)])
                && (outcome == Saved <==> Completed(failAt, 3) == 3)
      ensures outcome == Saved ==> diaryEntry == "" && selectedTags == [] && moodValue == DEFAULT_MOOD
      ensures outcome == SaveFailed ==>
                diaryEntry == localEntry && selectedTags == localTags && moodValue == localMood
    {
      if Trim(localEntry) == "" {
        return EmptyEntry;
      }
      diaryEntry := localEntry;
      moodValue := localMood;
      selectedTags := localTags;
      outcome := SaveDiaryWithContent(localEntry, localMood, localTags, c, stringify, failAt);
    }
  }
}
