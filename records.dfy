/** The diary record that the diary screen stores as JSON under a
    `diary-….json` key and that the insight screen reads back. Every field
    may be absent in a record read back (`undefined` in the source). */
module DiaryRecords {
  import opened Wrappers
  import opened JsText

  datatype DiaryRecord = DiaryRecord(
    date: Option<string>,
    prompt: Option<string>,
    response: Option<string>,
    mood: Option<int>,
    tags: Option<seq<string>>)

  const DIARY_PREFIX := "diary-"
  const DIARY_SUFFIX := ".json"

  /** `key.startsWith("diary-") && key.endsWith(".json")`. */
  predicate IsDiaryKey(key: string) {
    StartsWith(key, DIARY_PREFIX) && EndsWith(key, DIARY_SUFFIX)
  }
}
