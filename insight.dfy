/** The Insight Engine of the insight screen: it reads every stored diary
    record, aggregates mood and tags, asks the language model for themes,
    low-mood stressors and a critical quote, and has it write a session
    brief from all of that. */
module Insight {
  import opened Wrappers
  import opened JsText
  import opened Seqs
  import opened Json
  import opened Remote
  import opened Storage
  import opened DiaryRecords

  // ---------------------------------------------------------------------
  // Reading the stored records
  // ---------------------------------------------------------------------

  /** The non-empty stored contents of the diary keys among `keys`, in
      their order (`if (content)` skips `null` and `""`). */
  function DiaryContents(keys: seq<string>, items: map<string, string>): (r: seq<string>)
    ensures |r| <= |keys|
    ensures forall c :: c in r ==> c != ""
  {
    if keys == [] then []
    else
      var k := keys[|keys| - 1];
      DiaryContents(keys[..|keys| - 1], items)
        + (if IsDiaryKey(k) && k in items && items[k] != "" then [items[k]] else [])
  }

  lemma {:induction false} DiaryContentsConcat(a: seq<string>, b: seq<string>, items: map<string, string>)
    ensures DiaryContents(a + b, items) == DiaryContents(a, items) + DiaryContents(b, items)
    decreases |b|
  {
    if b == [] {
      assert a + b == a;
    } else {
      var b' := b[..|b| - 1];
      assert (a + b)[..|a + b| - 1] == a + b';
      DiaryContentsConcat(a, b', items);
    }
  }

  /** `JSON.parse` applied to every content in order; the first text that
      does not parse makes the whole read throw. */
  function ParseAll(contents: seq<string>, parse: string -> Option<DiaryRecord>): (r: Result<seq<DiaryRecord>>)
    ensures r.Failed? <==> exists i :: 0 <= i < |contents| && parse(contents[i]).None?
    ensures r.Ok? ==> |r.value| == |contents|
    ensures r.Ok? ==> forall i :: 0 <= i < |contents| ==> parse(contents[i]) == Some(r.value[i])
  {
    if contents == [] then Ok([])
    else
      var init := contents[..|contents| - 1];
      var last := contents[|contents| - 1];
      assert forall i :: 0 <= i < |init| ==> init[i] == contents[i];
      match ParseAll(init, parse)
      case Failed => Failed
      case Ok(records) =>
        match parse(last)
        case None => Failed
        case Some(record) => Ok(records + [record])
  }

  /** What reading the store gives: the records, or a failure that the
      pipeline's one `catch` turns into its error message. */
  ghost function StoredEntries(keys: seq<string>, items: map<string, string>,
                               parse: string -> Option<DiaryRecord>): Result<seq<DiaryRecord>>
  {
    ParseAll(DiaryContents(keys, items), parse)
  }

  lemma DiaryContentsSnoc(keys: seq<string>, k: string, items: map<string, string>)
    ensures DiaryContents(keys + [k], items) == DiaryContents(keys, items)
              + (if IsDiaryKey(k) && k in items && items[k] != "" then [items[k]] else [])
  {
    assert (keys + [k])[..|keys|] == keys;
  }

  lemma ParseAllSnoc(contents: seq<string>, c: string, parse: string -> Option<DiaryRecord>)
    requires ParseAll(contents, parse).Ok? && parse(c).Some?
    ensures ParseAll(contents + [c], parse) == Ok(ParseAll(contents, parse).value + [parse(c).value])
  {
    assert (contents + [c])[..|contents|] == contents;
  }

  /** One diary record that does not parse makes the whole read fail. */
  lemma ReadFailsAt(keys: seq<string>, i: nat, items: map<string, string>, parse: string -> Option<DiaryRecord>)
    requires i < |keys| && IsDiaryKey(keys[i]) && keys[i] in items && items[keys[i]] != ""
    requires parse(items[keys[i]]).None?
    ensures StoredEntries(keys, items, parse).Failed?
  {
    var before := DiaryContents(keys[..i], items);
    assert keys[..i + 1] == keys[..i] + [keys[i]];
    DiaryContentsSnoc(keys[..i], keys[i], items);
    DiaryContentsConcat(keys[..i + 1], keys[i + 1..], items);
    assert keys[..i + 1] + keys[i + 1..] == keys;
    var cs := DiaryContents(keys, items);
    assert cs[|before|] == items[keys[i]];
  }

  /** The diary keys among `keys`, in their order: the files the read
      opens one after the other. */
  function DiaryKeys(keys: seq<string>): (r: seq<string>)
    ensures forall k :: k in r <==> k in keys && IsDiaryKey(k)
  {
    FilterMembers(keys, IsDiaryKey);
    Filter(keys, IsDiaryKey)
  }

  /** The storage operations of a read are the listing of the keys (op 0)
      and then the read of each diary key in turn (op `n + 1` for the
      `n`-th); the read throws when one of them fails. */
  predicate ReadThrows(keys: seq<string>, failAt: Option<nat>) {
    Completed(failAt, 1 + |DiaryKeys(keys)|) < 1 + |DiaryKeys(keys)|
  }

  /** What reading the store gives when storage operation `failAt` (if
      any) fails: a failed listing or file read, like a record that does
      not parse, makes the read throw. */
  ghost function ReadEntries(keys: seq<string>, items: map<string, string>,
                             parse: string -> Option<DiaryRecord>, failAt: Option<nat>): Result<seq<DiaryRecord>>
  {
    if ReadThrows(keys, failAt) then Failed else StoredEntries(keys, items, parse)
  }

  /** Reading only the diary keys finds the same contents as going
      through all the keys. */
  lemma {:induction false} DiaryContentsOfDiaryKeys(keys: seq<string>, items: map<string, string>)
    ensures DiaryContents(DiaryKeys(keys), items) == DiaryContents(keys, items)
    decreases |keys|
  {
    if keys != [] {
      var init := keys[..|keys| - 1];
      var last := keys[|keys| - 1];
      assert keys == init + [last];
      FilterSnoc(init, last, IsDiaryKey);
      DiaryContentsOfDiaryKeys(init, items);
      DiaryContentsSnoc(init, last, items);
      if IsDiaryKey(last) {
        assert DiaryKeys(keys) == DiaryKeys(init) + [last];
        DiaryContentsSnoc(DiaryKeys(init), last, items);
      } else {
        assert DiaryKeys(keys) == DiaryKeys(init);
      }
    }
  }

  /** The loop of `getAllDiaryEntries` over the diary files (the keys
      already filtered): file `n` is
      read by storage operation `n + 1`, and its content, when non-empty,
      is parsed and pushed. */
  method ReadDiaryFiles(diaryKeys: seq<string>, items: map<string, string>,
                        parse: string -> Option<DiaryRecord>, failAt: Option<nat>)
    returns (r: Result<seq<DiaryRecord>>)
    requires forall k :: k in diaryKeys ==> IsDiaryKey(k)
    ensures r == if failAt.Some? && 0 < failAt.value <= |diaryKeys| then Failed
                 else ParseAll(DiaryContents(diaryKeys, items), parse)
  {
    var details: seq<DiaryRecord> := [];
    var n := 0;
    while n < |diaryKeys|
      invariant 0 <= n <= |diaryKeys|
      invariant failAt.Some? && 0 < failAt.value ==> failAt.value > n
      invariant ParseAll(DiaryContents(diaryKeys[..n], items), parse) == Ok(details)
    {
      var key := diaryKeys[n];
      if FailsAt(failAt, n + 1) {
        return Failed;
      }
      assert diaryKeys[..n + 1] == diaryKeys[..n] + [key];
      DiaryContentsSnoc(diaryKeys[..n], key, items);
      var content := Lookup(items, key);
      if content.Some? && content.value != "" {
        var parsed := parse(content.value);
        if parsed.None? {
          ReadFailsAt(diaryKeys, n, items, parse);
          return Failed;
        }
        ParseAllSnoc(DiaryContents(diaryKeys[..n], items), content.value, parse);
        details := details + [parsed.value];
      } else {
        assert DiaryContents(diaryKeys[..n + 1], items) == DiaryContents(diaryKeys[..n], items);
      }
      n := n + 1;
    }
    assert diaryKeys[..n] == diaryKeys;
    r := Ok(details);
  }

  /** `getAllDiaryEntries`: lists the keys (storage operation 0), keeps
      the `diary-….json` ones, then reads and parses the non-empty content
      of each, pushing the records in key order. A failed listing or read,
      or a text that is not JSON, makes the read throw. */
  method GetAllDiaryEntries(keys: seq<string>, items: map<string, string>,
                            parse: string -> Option<DiaryRecord>, failAt: Option<nat>)
    returns (r: Result<seq<DiaryRecord>>)
    ensures r == ReadEntries(keys, items, parse, failAt)
  {
    if FailsAt(failAt, 0) {
      return Failed;
    }
    var diaryKeys := DiaryKeys(keys);
    DiaryContentsOfDiaryKeys(keys, items);
    r := ReadDiaryFiles(diaryKeys, items, parse, failAt);
  }

  // ---------------------------------------------------------------------
  // Quantitative aggregation
  // ---------------------------------------------------------------------

  /** One point of the mood trajectory: the entry's date and mood, either
      of which may be absent. */
  datatype MoodPoint = MoodPoint(date: Option<string>, mood: Option<int>)

  /** `getMoodTrajectory`: one point per entry, in entry order. */
  function MoodTrajectory(entries: seq<DiaryRecord>): (r: seq<MoodPoint>)
    ensures |r| == |entries|
    ensures forall i :: 0 <= i < |entries| ==>
              r[i].date == entries[i].date && r[i].mood == entries[i].mood
  {
    if entries == [] then []
    else [MoodPoint(entries[0].date, entries[0].mood)] + MoodTrajectory(entries[1..])
  }

  /** The tags an entry contributes: none when `tags` is absent. */
  function TagsOf(e: DiaryRecord): seq<string> {
    e.tags.GetOr([])
  }

  /** Every tag of every entry, in order. */
  function AllTags(entries: seq<DiaryRecord>): seq<string> {
    if entries == [] then []
    else AllTags(entries[..|entries| - 1]) + TagsOf(entries[|entries| - 1])
  }

  /** `Σ |tags(e)|` over the entries. */
  function TotalTags(entries: seq<DiaryRecord>): nat {
    if entries == [] then 0
    else |TagsOf(entries[0])| + TotalTags(entries[1..])
  }

  lemma {:induction false} AllTagsLength(entries: seq<DiaryRecord>)
    ensures |AllTags(entries)| == TotalTags(entries)
    decreases |entries|
  {
    if entries != [] {
      var n := |entries| - 1;
      AllTagsLength(entries[..n]);
      AllTagsLength(entries[1..]);
      if n > 0 {
        assert entries[1..][..n - 1] == entries[1..n];
        AllTagsLength(entries[1..n]);
        assert entries[..n][1..] == entries[1..n];
        assert entries[..n][0] == entries[0];
      }
    }
  }

  /** The sum of the counts in a frequency map. */
  ghost function SumOfCounts(m: map<string, nat>): nat
    decreases |m|
  {
    if m == map[] then 0
    else
      var k :| k in m;
      m[k] + SumOfCounts(m - {k})
  }

  lemma {:induction false} MultisetSplitAt(ms: multiset<string>, k: string)
    ensures |ms| == ms[k] + |ms[k := 0]|
    decreases ms[k]
  {
    if ms[k] > 0 {
      var ms1 := ms[k := ms[k] - 1];
      assert ms == ms1 + multiset{k};
      MultisetSplitAt(ms1, k);
      assert ms1[k := 0] == ms[k := 0];
    }
  }

  /** A frequency map that agrees with a multiset sums to its size. */
  lemma {:induction false} SumOfCountsIsSize(m: map<string, nat>, ms: multiset<string>)
    requires forall t :: ms[t] == if t in m then m[t] else 0
    ensures SumOfCounts(m) == |ms|
    decreases |m|
  {
    if m == map[] {
      assert ms == multiset{};
    } else {
      var k :| k in m && SumOfCounts(m) == m[k] + SumOfCounts(m - {k});
      MultisetSplitAt(ms, k);
      SumOfCountsIsSize(m - {k}, ms[k := 0]);
    }
  }

  /** How often `t` occurs in a frequency map (`tagCounts[t] || 0`). */
  function CountOf(counts: map<string, nat>, t: string): nat {
    if t in counts then counts[t] else 0
  }

  /** The inner `forEach` of `getTagFrequency`: adds one to the count of
      each tag of one entry. */
  method CountTags(counts0: map<string, nat>, tags: seq<string>) returns (counts: map<string, nat>)
    requires forall t :: t in counts0 ==> counts0[t] > 0
    ensures forall t :: t in counts ==> counts[t] > 0
    ensures forall t :: CountOf(counts, t) == CountOf(counts0, t) + multiset(tags)[t]
    ensures forall t :: t in counts <==> t in counts0 || t in tags
  {
    counts := counts0;
    var j := 0;
    while j < |tags|
      invariant 0 <= j <= |tags|
      invariant forall t :: t in counts ==> counts[t] > 0
      invariant forall t :: CountOf(counts, t) == CountOf(counts0, t) + multiset(tags[..j])[t]
      invariant forall t :: t in counts <==> t in counts0 || t in tags[..j]
    {
      var tag := tags[j];
      counts := counts[tag := CountOf(counts, tag) + 1];
      assert tags[..j + 1] == tags[..j] + [tag];
      j := j + 1;
    }
    assert tags[..j] == tags;
  }

  /** `getTagFrequency`: counts, for every tag, its occurrences across all
      entries' tag lists (exact string equality); tags that never occur
      are not keys, and the counts sum to the number of tags. */
  method TagFrequency(entries: seq<DiaryRecord>) returns (counts: map<string, nat>)
    ensures forall t :: t in counts ==> counts[t] > 0
    ensures forall t :: multiset(AllTags(entries))[t] == CountOf(counts, t)
    ensures SumOfCounts(counts) == TotalTags(entries)
  {
    counts := map[];
    var i := 0;
    while i < |entries|
      invariant 0 <= i <= |entries|
      invariant forall t :: t in counts ==> counts[t] > 0
      invariant forall t :: multiset(AllTags(entries[..i]))[t] == CountOf(counts, t)
    {
      var e := entries[i];
      assert entries[..i + 1][..i] == entries[..i];
      assert AllTags(entries[..i + 1]) == AllTags(entries[..i]) + TagsOf(e);
      if e.tags.Some? {
        counts := CountTags(counts, e.tags.value);
      }
      i := i + 1;
    }
    assert entries[..i] == entries;
    SumOfCountsIsSize(counts, multiset(AllTags(entries)));
    AllTagsLength(entries);
  }

  // ---------------------------------------------------------------------
  // Texts sent to the language model
  // ---------------------------------------------------------------------

  /** `e.response` as `join` writes it: an absent response joins as "". */
  function ResponseText(e: DiaryRecord): string {
    e.response.GetOr("")
  }

  function Responses(entries: seq<DiaryRecord>): (r: seq<string>)
    ensures |r| == |entries|
    ensures forall i :: 0 <= i < |entries| ==> r[i] == ResponseText(entries[i])
  {
    if entries == [] then [] else [ResponseText(entries[0])] + Responses(entries[1..])
  }

  const SEPARATOR := "\n\n"

  /** `allEntries.map((e) => e.response).join("\n\n")`. */
  function AllText(entries: seq<DiaryRecord>): string {
    Join(Responses(entries), SEPARATOR)
  }

  /** `e.mood < 4`: an absent mood compares as `undefined < 4`, which is
      false. */
  predicate IsLowMood(e: DiaryRecord) {
    e.mood.Some? && e.mood.value < 4
  }

  function LowMoodDays(entries: seq<DiaryRecord>): seq<DiaryRecord> {
    Filter(entries, IsLowMood)
  }

  /** The responses of exactly the low-mood entries, in order, joined. */
  function LowMoodText(entries: seq<DiaryRecord>): string {
    Join(Responses(LowMoodDays(entries)), SEPARATOR)
  }

  /** The low-mood text is empty exactly when no entry is low-mood, or the
      only low-mood entry has an empty response: only then are the
      correlations skipped. */
  lemma LowMoodTextEmpty(entries: seq<DiaryRecord>)
    ensures LowMoodText(entries) == "" <==>
            (forall e :: e in entries ==> !IsLowMood(e))
            || (|LowMoodDays(entries)| == 1 && ResponseText(LowMoodDays(entries)[0]) == "")
  {
    var low := LowMoodDays(entries);
    JoinEmpty(Responses(low), SEPARATOR);
    FilterMembers(entries, IsLowMood);
    if |low| != 0 {
      assert low[0] in entries && IsLowMood(low[0]);
    }
  }

  /** An entry with no mood never enters the low-mood text. */
  lemma NoMoodIsNotLow(entries: seq<DiaryRecord>, e: DiaryRecord)
    requires e.mood.None?
    ensures e !in LowMoodDays(entries)
  {
  }

  /** The four questions `generateInsights` asks, in the order it asks them. */
  datatype Step = ThemesStep | CorrelationsStep | QuoteStep | BriefStep

  /** A remote call: the fixed prompt of its step followed by the data the
      step is about, sent with the step's system instruction. */
  datatype Request = Request(step: Step, data: string)

  const THEMES_PROMPT := "Analyze the following journal entries. Identify and extract the top 3-5 recurring emotional themes. Respond ONLY with a JSON array. Example: [\"Exam-related stress\", \"Conflict with mother\", \"Feelings of social isolation\"]\n\nEntries:\n"
  const THEMES_INSTRUCTION := "You are an expert in thematic analysis."
  const CORRELATIONS_PROMPT := "The user reported feeling very low on these days. Based ONLY on the following text from those days, what are the primary stressors or topics mentioned? Respond with a short list.\n\nText:\n"
  const CORRELATIONS_INSTRUCTION := "You are an expert in identifying stressors."
  const QUOTE_PROMPT := "Review the following personal journal entries. Extract the single most poignant, emotionally resonant, and representative sentence that encapsulates the writer's core struggle. It should be a direct quote. Respond with ONLY the sentence in a JSON object: {\"quote\": \"The chosen sentence.\"}\n\nEntries:\n"
  const QUOTE_INSTRUCTION := "You are an expert in identifying emotionally significant quotes."
  const BRIEF_PROMPT := "You are a clinical assistant writing a summary for a busy psychiatrist. Based on the following structured data, write a concise, professional, and empathetic 'Session Brief'. Start with the mood trajectory, then highlight the key correlations and themes, include the critical quote to humanize the data, and conclude with two suggested opening questions for the psychiatrist to use in their session. Be brief and scannable.\n\nData:\n"
  const BRIEF_INSTRUCTION := "You are a helpful clinical assistant."

  function PromptOf(step: Step): string {
    match step
    case ThemesStep => THEMES_PROMPT
    case CorrelationsStep => CORRELATIONS_PROMPT
    case QuoteStep => QUOTE_PROMPT
    case BriefStep => BRIEF_PROMPT
  }

  function InstructionOf(step: Step): string {
    match step
    case ThemesStep => THEMES_INSTRUCTION
    case CorrelationsStep => CORRELATIONS_INSTRUCTION
    case QuoteStep => QUOTE_INSTRUCTION
    case BriefStep => BRIEF_INSTRUCTION
  }

  /** The prompt text of a request as it goes over the wire. */
  function PromptText(r: Request): string {
    PromptOf(r.step) + r.data
  }

  // ---------------------------------------------------------------------
  // Reply post-processing
  // ---------------------------------------------------------------------

  const THEMES_FALLBACK := "Could not determine themes."
  const NO_LOW_MOOD_DAYS := "No low mood days recorded."
  const QUOTE_FALLBACK := "Could not extract a critical quote."

  /** `getThemes` after its call: the parsed reply, or the one-element
      fallback list when parsing fails. The call's own failure is not
      caught here. */
  function Themes(reply: ProxyReply, parseJson: string -> Option<Json>): (r: Result<Json>)
    ensures r.Failed? <==> reply.ProxyFailed?
    ensures r.Ok? && parseJson(ReplyText(reply).value).Some? ==>
              r.value == parseJson(ReplyText(reply).value).value
    ensures r.Ok? && parseJson(ReplyText(reply).value).None? ==>
              r.value == JArray([JString(THEMES_FALLBACK)])
  {
    match ReplyText(reply)
    case Failed => Failed
    case Ok(text) =>
      match parseJson(text)
      case Some(v) => Ok(v)
      case None => Ok(JArray([JString(THEMES_FALLBACK)]))
  }

  /** A reply that is not JSON gives exactly the fallback list. */
  lemma ThemesOfNonJson(text: string, parseJson: string -> Option<Json>)
    requires text != [] && !IsSpace(text[0]) && !IsSpace(text[|text| - 1])
    requires parseJson(text).None?
    ensures Themes(ProxyBody(Some(text)), parseJson) == Ok(JArray([JString(THEMES_FALLBACK)]))
  {
    TrimPadded("", text, "");
    assert "" + text + "" == text;
  }

  predicate IsAsciiLetter(c: char) {
    'a' <= c <= 'z' || 'A' <= c <= 'Z'
  }

  /** Number of ASCII letters at the front of `s`. */
  function LeadingLetters(s: string): (n: nat)
    ensures n <= |s|
    ensures forall k :: 0 <= k < n ==> IsAsciiLetter(s[k])
    ensures n < |s| ==> !IsAsciiLetter(s[n])
  {
    if |s| > 0 && IsAsciiLetter(s[0]) then 1 + LeadingLetters(s[1..]) else 0
  }

  const FENCE := "```"

  /** `s.replace(/```[a-zA-Z]*|```/g, "")`: scanning from the left, every
      three backticks are removed together with the letters right after
      them. */
  function StripFences(s: string): string
    decreases |s|
  {
    if |s| < 3 then s
    else if s[..3] == FENCE then StripFences(s[3 + LeadingLetters(s[3..])..])
    else [s[0]] + StripFences(s[1..])
  }

  lemma StripFencesHead(s: string)
    requires s != [] && !StartsWith(s, FENCE)
    ensures StripFences(s) != [] && StripFences(s)[0] == s[0]
  {
  }

  /** No three backticks survive the cleanse, not even ones that removing a
      fence could have brought together. */
  lemma {:induction false} StripFencesRemovesAll(s: string)
    ensures !Contains(StripFences(s), FENCE)
    decreases |s|
  {
    if |s| < 3 {
    } else if s[..3] == FENCE {
      StripFencesRemovesAll(s[3 + LeadingLetters(s[3..])..]);
    } else {
      var t := s[1..];
      var rest := StripFences(t);
      StripFencesRemovesAll(t);
      var r := [s[0]] + rest;
      assert StripFences(s) == r;
      forall j | 0 <= j <= |r| - 3
        ensures !MatchAt(r, FENCE, j)
      {
        if j >= 1 {
          assert r[j..j + 3] == rest[j - 1..j + 2];
          assert !MatchAt(rest, FENCE, j - 1);
        } else if s[0] == '`' {
          // s does not start with a fence, so s[1] and s[2] are not both
          // backticks, and the cleansed rest starts with them unchanged.
          assert !(s[1] == '`' && s[2] == '`');
          assert !StartsWith(t, FENCE);
          StripFencesHead(t);
          if s[1] == '`' {
            var u := s[2..];
            assert t[1..] == u;
            assert !StartsWith(u, FENCE);
            if |t| < 3 {
              assert rest == t;
            } else {
              assert rest == [t[0]] + StripFences(u);
              StripFencesHead(u);
            }
            assert rest[1] == s[2];
          }
        }
      }
    }
  }

  predicate NoBacktick(s: string) {
    forall i :: 0 <= i < |s| ==> s[i] != '`'
  }

  /** Text that does not start with a backtick keeps its first character. */
  lemma StripFencesStep(s: string)
    requires s != [] && s[0] != '`'
    ensures StripFences(s) == [s[0]] + StripFences(s[1..])
  {
    if |s| >= 3 {
      assert s[..3][0] == s[0];
    } else {
      assert s == [s[0]] + s[1..];
    }
  }

  /** Text without backticks passes through the cleanse unchanged. */
  lemma {:induction false} StripFencesPrefix(u: string, v: string)
    requires NoBacktick(u)
    ensures StripFences(u + v) == u + StripFences(v)
    decreases |u|
  {
    if u != [] {
      var u' := u[1..];
      assert NoBacktick(u');
      StripFencesPrefix(u', v);
      assert (u + v)[0] == u[0] && (u + v)[1..] == u' + v;
      StripFencesStep(u + v);
      assert u == [u[0]] + u';
      assert [u[0]] + (u' + StripFences(v)) == u + StripFences(v);
    } else {
      assert u + v == v;
    }
  }

  /** An opening fence is removed together with the language name after it. */
  lemma StripFencesOpening(lang: string, rest: string)
    requires forall i :: 0 <= i < |lang| ==> IsAsciiLetter(lang[i])
    requires rest == [] || !IsAsciiLetter(rest[0])
    ensures StripFences(FENCE + lang + rest) == StripFences(rest)
  {
    var s := FENCE + (lang + rest);
    assert |s| >= 3 && s[..3] == FENCE;
    assert s[3..] == lang + rest;
    LeadingLettersOf(lang, rest);
    assert s[3 + |lang|..] == rest;
    assert FENCE + lang + rest == s;
  }

  /** A fence opening with a language name and closing at the end is
      removed whole. */
  lemma StripFencesWrapped(lang: string, body: string)
    requires forall i :: 0 <= i < |lang| ==> IsAsciiLetter(lang[i])
    requires NoBacktick(body) && (body == [] || !IsAsciiLetter(body[0]))
    ensures StripFences(FENCE + lang + body + FENCE) == body
  {
    assert FENCE + lang + body + FENCE == FENCE + lang + (body + FENCE);
    StripFencesOpening(lang, body + FENCE);
    StripFencesPrefix(body, FENCE);
    assert StripFences(FENCE) == StripFences([]);
    assert body + [] == body;
  }

  lemma {:induction false} LeadingLettersOf(w: string, rest: string)
    requires forall i :: 0 <= i < |w| ==> IsAsciiLetter(w[i])
    requires rest == [] || !IsAsciiLetter(rest[0])
    ensures LeadingLetters(w + rest) == |w|
    decreases |w|
  {
    if w != [] {
      assert (w + rest)[1..] == w[1..] + rest;
      LeadingLettersOf(w[1..], rest);
    }
  }

  /** `getCriticalQuote` after its call: the cleansed, trimmed reply is
      parsed and its `quote` read; a reply that does not parse, or parses
      to `null`, gives the fallback sentence. An object gives its `quote`
      field, or `undefined` (`None`) without one; any other parsed value
      (a number, a string, an array) has no `quote` and gives `undefined`. */
  function CriticalQuote(reply: ProxyReply, parseJson: string -> Option<Json>): (r: Result<Option<Json>>)
    ensures r.Failed? <==> reply.ProxyFailed?
    ensures r.Ok? ==>
              var cleansed := Trim(StripFences(ReplyText(reply).value));
              ((parseJson(cleansed).None? || parseJson(cleansed) == Some(JNull))
                 ==> r.value == Some(JString(QUOTE_FALLBACK)))
              && (parseJson(cleansed).Some? && parseJson(cleansed).value.JObject? ==>
                    var fields := parseJson(cleansed).value.fields;
                    r.value == if "quote" in fields then Some(fields["quote"]) else None)
              && (parseJson(cleansed).Some? && !parseJson(cleansed).value.JObject? && !parseJson(cleansed).value.JNull? ==>
                    r.value == None)
  {
    match ReplyText(reply)
    case Failed => Failed
    case Ok(text) =>
      var cleansed := Trim(StripFences(text));
      match parseJson(cleansed)
      case None => Ok(Some(JString(QUOTE_FALLBACK)))
      case Some(parsed) =>
        match Property(parsed, "quote")
        case Failed => Ok(Some(JString(QUOTE_FALLBACK)))
        case Ok(quote) => Ok(quote)
  }

  lemma FencedBodyStripped(lang: string, json: string)
    requires forall i :: 0 <= i < |lang| ==> IsAsciiLetter(lang[i])
    requires NoBacktick(json)
    ensures StripFences(FENCE + lang + "\n" + json + "\n" + FENCE) == "\n" + json + "\n"
  {
    var body := "\n" + json + "\n";
    var open := FENCE + lang;
    assert open + "\n" + json == open + ("\n" + json);
    assert open + ("\n" + json) + "\n" == open + body;
    forall i | 0 <= i < |body| ensures body[i] != '`' {
      if 1 <= i <= |json| {
        assert body[i] == json[i - 1];
      }
    }
    StripFencesWrapped(lang, body);
  }

  lemma FencedReplyUntrimmed(text: string)
    requires |text| >= 2 && text[0] == '`' && text[|text| - 1] == '`'
    ensures ReplyText(ProxyBody(Some(text))) == Ok(text)
  {
    TrimPadded("", text, "");
    assert "" + text + "" == text;
  }

  /** A reply wrapped in a code fence with a language name, the JSON on
      lines of its own, yields the quote inside the JSON. */
  lemma FencedQuote(lang: string, json: string, parseJson: string -> Option<Json>, quote: Json)
    requires forall i :: 0 <= i < |lang| ==> IsAsciiLetter(lang[i])
    requires NoBacktick(json) && json != [] && !IsSpace(json[0]) && !IsSpace(json[|json| - 1])
    requires parseJson(json).Some? && parseJson(json).value.JObject?
    requires "quote" in parseJson(json).value.fields && parseJson(json).value.fields["quote"] == quote
    ensures CriticalQuote(ProxyBody(Some(FENCE + lang + "\n" + json + "\n" + FENCE)), parseJson)
            == Ok(Some(quote))
  {
    var reply := FENCE + lang + "\n" + json + "\n" + FENCE;
    assert reply[0] == '`' && reply[|reply| - 1] == '`';
    FencedReplyUntrimmed(reply);
    FencedBodyStripped(lang, json);
    TrimPadded("\n", json, "\n");
    CriticalQuoteOfObject(reply, json, parseJson);
  }

  lemma CriticalQuoteOfObject(text: string, json: string, parseJson: string -> Option<Json>)
    requires ReplyText(ProxyBody(Some(text))) == Ok(text)
    requires Trim(StripFences(text)) == json
    requires parseJson(json).Some? && parseJson(json).value.JObject?
    requires "quote" in parseJson(json).value.fields
    ensures CriticalQuote(ProxyBody(Some(text)), parseJson) == Ok(Some(parseJson(json).value.fields["quote"]))
  {
  }

  // ---------------------------------------------------------------------
  // The pipeline
  // ---------------------------------------------------------------------

  /** The structured data handed to the final synthesis. */
  datatype BriefData = BriefData(
    moodData: seq<MoodPoint>,
    tagCounts: map<string, nat>,
    themes: Json,
    correlations: string,
    criticalQuote: Option<Json>)

  /** What `setInsights` receives: an error message or the full report. */
  datatype Insights =
    | InsightsError(error: string)
    | InsightsReport(
        moodTrajectory: seq<MoodPoint>,
        tagFrequency: map<string, nat>,
        themes: Json,
        correlations: string,
        criticalQuote: Option<Json>,
        sessionBrief: string)

  const NOT_ENOUGH_DATA := "Not enough data to generate insights. Keep journaling!"
  const FAILED_TO_GENERATE := "Failed to generate insights."

  /** The remote requests made before the synthesis, given the text of all
      entries and the text of the low-mood ones: themes, correlations (only
      for a non-empty low-mood text) and the quote. */
  function PlannedRequests(allText: string, lowMoodText: string): (r: seq<Request>)
    ensures 2 <= |r| <= 3
  {
    [Request(ThemesStep, allText)]
    + (if lowMoodText == "" then [] else [Request(CorrelationsStep, lowMoodText)])
    + [Request(QuoteStep, allText)]
  }

  /** What the remote model answers to each of the four calls; a reply to a
      call that is never made is never looked at. */
  datatype Replies = Replies(themes: ProxyReply, correlations: ProxyReply,
                             quote: ProxyReply, brief: ProxyReply)

  function ReplyTo(replies: Replies, step: Step): ProxyReply {
    match step
    case ThemesStep => replies.themes
    case CorrelationsStep => replies.correlations
    case QuoteStep => replies.quote
    case BriefStep => replies.brief
  }

  /** The requests sent follow the plan, followed by the synthesis request,
      and stop at the first failed reply: every reply but the last one
      came back. */
  ghost predicate FollowsPlan(requests: seq<Request>, planned: seq<Request>, replies: Replies) {
    && 1 <= |requests| <= |planned| + 1
    && (forall i :: 0 <= i < |requests| && i < |planned| ==> requests[i] == planned[i])
    && (forall i :: 0 <= i < |requests| - 1 ==> ReplyTo(replies, requests[i].step).ProxyBody?)
  }

  /** What is known before the quote call: the trajectory and the tag
      counts come from the records, the themes and the correlations from
      the replies that were asked for. */
  ghost predicate Gathered(entries: seq<DiaryRecord>, lowMoodText: string,
                           parseJson: string -> Option<Json>, replies: Replies,
                           moodTrajectory: seq<MoodPoint>, tagFrequency: map<string, nat>,
                           themes: Json, correlations: string)
  {
    && moodTrajectory == MoodTrajectory(entries)
    && (forall t :: multiset(AllTags(entries))[t] == CountOf(tagFrequency, t))
    && Themes(replies.themes, parseJson) == Ok(themes)
    && (lowMoodText == "" ==> correlations == NO_LOW_MOOD_DAYS)
    && (lowMoodText != "" ==> ReplyText(replies.correlations) == Ok(correlations))
  }

  /** Every field of a finished report comes from the records or from the
      reply to the request that asked for it. */
  ghost predicate ReportFromReplies(entries: seq<DiaryRecord>, allText: string, lowMoodText: string,
                                    parseJson: string -> Option<Json>,
                                    stringify: BriefData -> string, replies: Replies,
                                    insights: Insights, requests: seq<Request>)
    requires insights.InsightsReport?
  {
    var planned := PlannedRequests(allText, lowMoodText);
    && |requests| == |planned| + 1
    && Gathered(entries, lowMoodText, parseJson, replies, insights.moodTrajectory,
                insights.tagFrequency, insights.themes, insights.correlations)
    && CriticalQuote(replies.quote, parseJson) == Ok(insights.criticalQuote)
    && requests[|planned|] == Request(BriefStep, stringify(BriefData(
         insights.moodTrajectory, insights.tagFrequency, insights.themes,
         insights.correlations, insights.criticalQuote)))
    && ReplyText(replies.brief) == Ok(insights.sessionBrief)
  }

  /** The outcome of the remote half of `generateInsights`, given the texts
      it sends: the requests follow the plan, the run fails exactly when
      the last reply failed, and a report is built from the replies. */
  ghost predicate Outcome(entries: seq<DiaryRecord>, allText: string, lowMoodText: string,
                          parseJson: string -> Option<Json>, stringify: BriefData -> string,
                          replies: Replies, insights: Insights, requests: seq<Request>)
  {
    && FollowsPlan(requests, PlannedRequests(allText, lowMoodText), replies)
    && (insights.InsightsError? <==> ReplyTo(replies, requests[|requests| - 1].step).ProxyFailed?)
    && (insights.InsightsError? ==> insights.error == FAILED_TO_GENERATE)
    && (insights.InsightsReport? ==>
          ReportFromReplies(entries, allText, lowMoodText, parseJson, stringify, replies, insights, requests))
  }

  /** Once every planned call has been answered, the synthesis request
      follows the plan. */
  lemma FollowsWholePlan(planned: seq<Request>, brief: Request, replies: Replies)
    requires |planned| >= 1
    requires forall i :: 0 <= i < |planned| ==> ReplyTo(replies, planned[i].step).ProxyBody?
    ensures FollowsPlan(planned + [brief], planned, replies)
  {
  }

  lemma RepliesForPlan(allText: string, lowMoodText: string, replies: Replies)
    requires replies.themes.ProxyBody? && replies.quote.ProxyBody?
    requires lowMoodText != "" ==> replies.correlations.ProxyBody?
    ensures forall i :: 0 <= i < |PlannedRequests(allText, lowMoodText)| ==>
              ReplyTo(replies, PlannedRequests(allText, lowMoodText)[i].step).ProxyBody?
  {
  }

  /** `generateInsights`. `replies` holds the model's answer to each call
      and `stringify` stands for `JSON.stringify(data, null, 2)`; `failAt`
      names the storage operation of the read that fails, if any. Returns
      the outcome and the requests sent, in order.

      Failures: the read of the records and every remote call throw into
      the single `catch`; only a reply that does not parse is absorbed by
      an extractor. An empty store ends early with no remote call. */
  method GenerateInsights(keys: seq<string>, items: map<string, string>,
                          parse: string -> Option<DiaryRecord>,
                          parseJson: string -> Option<Json>,
                          stringify: BriefData -> string,
                          replies: Replies, failAt: Option<nat>)
    returns (insights: Insights, requests: seq<Request>)
    ensures ReadEntries(keys, items, parse, failAt).Failed? ==>
              insights == InsightsError(FAILED_TO_GENERATE) && requests == []
    ensures ReadEntries(keys, items, parse, failAt) == Ok([]) ==>
              insights == InsightsError(NOT_ENOUGH_DATA) && requests == []
    ensures ReadEntries(keys, items, parse, failAt).Ok? && ReadEntries(keys, items, parse, failAt).value != [] ==>
              var entries := ReadEntries(keys, items, parse, failAt).value;
              Outcome(entries, AllText(entries), LowMoodText(entries), parseJson, stringify,
                      replies, insights, requests)
  {
    var read := GetAllDiaryEntries(keys, items, parse, failAt);
    if read.Failed? {
      return InsightsError(FAILED_TO_GENERATE), [];
    }
    var entries := read.value;
    if |entries| == 0 {
      return InsightsError(NOT_ENOUGH_DATA), [];
    }
    var allText := AllText(entries);
    var lowMoodText := LowMoodText(entries);
    insights, requests := Analyse(entries, allText, lowMoodText, parseJson, stringify, replies);
  }

  /** The part of `generateInsights` after a non-empty read, up to the
      quote call: the local aggregates, the themes and the correlations.
      `allText` and `lowMoodText` are the texts the calls carry. */
  method Analyse(entries: seq<DiaryRecord>, allText: string, lowMoodText: string,
                 parseJson: string -> Option<Json>,
                 stringify: BriefData -> string,
                 replies: Replies)
    returns (insights: Insights, requests: seq<Request>)
    ensures Outcome(entries, allText, lowMoodText, parseJson, stringify, replies, insights, requests)
  {
    var moodTrajectory := MoodTrajectory(entries);
    var tagFrequency := TagFrequency(entries);

    requests := [Request(ThemesStep, allText)];
    var themes := Themes(replies.themes, parseJson);
    if themes.Failed? {
      assert requests[|requests| - 1].step == ThemesStep;
      return InsightsError(FAILED_TO_GENERATE), requests;
    }

    var correlations := NO_LOW_MOOD_DAYS;
    if lowMoodText != "" {
      requests := requests + [Request(CorrelationsStep, lowMoodText)];
      var reply := ReplyText(replies.correlations);
      if reply.Failed? {
        assert requests[|requests| - 1].step == CorrelationsStep;
        return InsightsError(FAILED_TO_GENERATE), requests;
      }
      correlations := reply.value;
    }
    assert requests + [Request(QuoteStep, allText)] == PlannedRequests(allText, lowMoodText);
    insights, requests := Conclude(entries, allText, lowMoodText, parseJson, stringify, replies,
                                   moodTrajectory, tagFrequency, themes.value, correlations, requests);
  }

  /** Up to the quote call, every call of the plan but the last has been
      answered. */
  lemma PlanUpToQuote(allText: string, lowMoodText: string, replies: Replies)
    requires replies.themes.ProxyBody?
    requires lowMoodText != "" ==> replies.correlations.ProxyBody?
    ensures FollowsPlan(PlannedRequests(allText, lowMoodText), PlannedRequests(allText, lowMoodText), replies)
    ensures PlannedRequests(allText, lowMoodText)[|PlannedRequests(allText, lowMoodText)| - 1].step == QuoteStep
  {
  }

  /** A failed quote call ends the run after the planned calls. */
  lemma QuoteFailedOutcome(entries: seq<DiaryRecord>, allText: string, lowMoodText: string,
                           parseJson: string -> Option<Json>, stringify: BriefData -> string,
                           replies: Replies)
    requires replies.themes.ProxyBody?
    requires lowMoodText != "" ==> replies.correlations.ProxyBody?
    requires replies.quote.ProxyFailed?
    ensures Outcome(entries, allText, lowMoodText, parseJson, stringify, replies,
                    InsightsError(FAILED_TO_GENERATE), PlannedRequests(allText, lowMoodText))
  {
    PlanUpToQuote(allText, lowMoodText, replies);
  }

  /** Once the quote is in, the synthesis request is sent over the
      gathered data, and its reply decides between the report and the
      error. */
  lemma BriefOutcome(entries: seq<DiaryRecord>, allText: string, lowMoodText: string,
                     parseJson: string -> Option<Json>, stringify: BriefData -> string,
                     replies: Replies,
                     moodTrajectory: seq<MoodPoint>, tagFrequency: map<string, nat>,
                     themes: Json, correlations: string, quote: Option<Json>, insights: Insights)
    requires replies.themes.ProxyBody?
    requires lowMoodText != "" ==> replies.correlations.ProxyBody?
    requires CriticalQuote(replies.quote, parseJson) == Ok(quote)
    requires Gathered(entries, lowMoodText, parseJson, replies, moodTrajectory, tagFrequency, themes, correlations)
    requires insights == match ReplyText(replies.brief)
                         case Failed => InsightsError(FAILED_TO_GENERATE)
                         case Ok(text) => InsightsReport(moodTrajectory, tagFrequency, themes, correlations, quote, text)
    ensures Outcome(entries, allText, lowMoodText, parseJson, stringify, replies, insights,
                    PlannedRequests(allText, lowMoodText)
                    + [Request(BriefStep, stringify(BriefData(moodTrajectory, tagFrequency, themes, correlations, quote)))])
  {
    var planned := PlannedRequests(allText, lowMoodText);
    var brief := Request(BriefStep, stringify(BriefData(moodTrajectory, tagFrequency, themes, correlations, quote)));
    RepliesForPlan(allText, lowMoodText, replies);
    FollowsWholePlan(planned, brief, replies);
    var requests := planned + [brief];
    assert requests[|requests| - 1] == brief && requests[|planned|] == brief;
    assert FollowsPlan(requests, planned, replies);
    assert ReplyTo(replies, requests[|requests| - 1].step) == replies.brief;
    if insights.InsightsReport? {
      assert ReportFromReplies(entries, allText, lowMoodText, parseJson, stringify, replies, insights, requests);
    }
  }

  /** The rest of `generateInsights`: the quote call, then the session
      brief over the gathered data. */
  method Conclude(entries: seq<DiaryRecord>, allText: string, lowMoodText: string,
                  parseJson: string -> Option<Json>,
                  stringify: BriefData -> string,
                  replies: Replies,
                  moodTrajectory: seq<MoodPoint>, tagFrequency: map<string, nat>,
                  themes: Json, correlations: string, sent: seq<Request>)
    returns (insights: Insights, requests: seq<Request>)
    requires sent + [Request(QuoteStep, allText)] == PlannedRequests(allText, lowMoodText)
    requires replies.themes.ProxyBody?
    requires lowMoodText != "" ==> replies.correlations.ProxyBody?
    requires Gathered(entries, lowMoodText, parseJson, replies, moodTrajectory, tagFrequency, themes, correlations)
    ensures Outcome(entries, allText, lowMoodText, parseJson, stringify, replies, insights, requests)
  {
    requests := sent + [Request(QuoteStep, allText)];
    var quote := CriticalQuote(replies.quote, parseJson);
    if quote.Failed? {
      QuoteFailedOutcome(entries, allText, lowMoodText, parseJson, stringify, replies);
      return InsightsError(FAILED_TO_GENERATE), requests;
    }

    var data := BriefData(moodTrajectory, tagFrequency, themes, correlations, quote.value);
    requests := requests + [Request(BriefStep, stringify(data))];
    var text := ReplyText(replies.brief);
    if text.Failed? {
      insights := InsightsError(FAILED_TO_GENERATE);
    } else {
      insights := InsightsReport(moodTrajectory, tagFrequency, themes, correlations, quote.value, text.value);
    }
    BriefOutcome(entries, allText, lowMoodText, parseJson, stringify, replies,
                 moodTrajectory, tagFrequency, themes, correlations, quote.value, insights);
  }

  // ---------------------------------------------------------------------
  // A worked scenario
  // ---------------------------------------------------------------------

  const SCENARIO := [
    DiaryRecord(Some("2024-01-01"), None, Some("a"), Some(3), Some(["school"])),
    DiaryRecord(Some("2024-01-02"), None, Some("b"), Some(8), Some([]))]

  /** Two entries, one of them low-mood: the trajectory copies both date and
      mood pairs, the only tag counted is `school`, and only `"a"` is sent
      for correlations. */
  lemma Scenario()
    ensures MoodTrajectory(SCENARIO) ==
            [MoodPoint(Some("2024-01-01"), Some(3)), MoodPoint(Some("2024-01-02"), Some(8))]
    ensures multiset(AllTags(SCENARIO)) == multiset{"school"}
    ensures LowMoodText(SCENARIO) == "a"
  {
    assert SCENARIO[..1][..0] == [];
    assert AllTags(SCENARIO[..1]) == ["school"];
    assert SCENARIO[..|SCENARIO| - 1] == SCENARIO[..1];
    assert AllTags(SCENARIO) == ["school"] + [];
    assert SCENARIO[..|SCENARIO| - 1] == [SCENARIO[0]];
    assert LowMoodDays([SCENARIO[0]]) == [SCENARIO[0]] by {
      assert [SCENARIO[0]][..0] == [];
    }
    assert LowMoodDays(SCENARIO) == [SCENARIO[0]];
    assert Responses([SCENARIO[0]]) == ["a"];
  }
}
