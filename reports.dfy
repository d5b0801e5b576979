/** The report screen (screens/SummaryScreen.js): at the end of a chat it
    asks the proxy for a report and for three key points, saves the report
    once under `userReport-YYYY-MM-DD.txt`, and lists the saved reports,
    most recent date first. Storage is the browser's: files and
    bookkeeping keys live in one store, keyed by file name. */
module Reports {
  import opened Wrappers
  import opened JsText
  import opened Seqs
  import opened Dates
  import opened Storage
  import opened Sorting
  import opened Json
  import opened Remote

  const REPORT_PREFIX := "userReport-"
  const REPORT_SUFFIX := ".txt"
  const LAST_REPORT_PATH := "@last_report_path"
  const LAST_REPORT_DATE := "@last_report_date"
  const NO_SUMMARY := "No summary available."
  const SUMMARY_FAILED := "Failed to generate summary. Please try again."
  const REPORT_NOT_LOADED := "Previously saved report could not be loaded."
  const NO_REPORTS := "No reports available yet. Complete a chat session to generate a report."

  /** The key points before any arrive, and after a failure: `[]`. */
  const NO_POINTS := JArray([])

  // ----- Saving -----

  /** `userReport-${formattedDate}.txt`, the date being `getFormattedDate()`. */
  function ReportFileName(c: Clock): (name: string)
    ensures StartsWith(name, REPORT_PREFIX) && EndsWith(name, REPORT_SUFFIX)
  {
    REPORT_PREFIX + FormatDate(c) + REPORT_SUFFIX
  }

  /** The writes of a save, in order: the report, then its file name and
      its date under the two bookkeeping keys. */
  function ReportWrites(c: Clock, content: string): seq<(string, string)> {
    [(ReportFileName(c), content), (LAST_REPORT_PATH, ReportFileName(c)), (LAST_REPORT_DATE, FormatDate(c))]
  }

  /** What `saveReport` does to the store and to the `reportSaved` flag:
      nothing for empty content or once a report is saved; otherwise the
      writes up to the first that throws, and the flag set only when all
      three succeed. */
  ghost predicate Saving(items0: map<string, string>, saved0: bool, content: string, c: Clock,
                         failAt: Option<nat>, items1: map<string, string>, saved1: bool) {
    if content == "" || saved0 then items1 == items0 && saved1 == saved0
    else items1 == Applied(items0, ReportWrites(c, content)[..Completed(failAt, 3)])
         && saved1 == (Completed(failAt, 3) == 3)
  }

  /** After a complete save, the report is under its file name, the path
      key names that file and the date key holds the date the listing
      shows for it; no other key changed. */
  lemma ReportWritesStore(items: map<string, string>, c: Clock, content: string)
    requires ValidClock(c)
    ensures var after := Applied(items, ReportWrites(c, content));
            && Lookup(after, ReportFileName(c)) == Some(content)
            && Lookup(after, LAST_REPORT_PATH) == Some(ReportFileName(c))
            && Lookup(after, LAST_REPORT_DATE) == Some(FormatDate(c))
            && ReportDate(ReportFileName(c)) == FormatDate(c)
    ensures forall key :: key != ReportFileName(c) && key != LAST_REPORT_PATH && key != LAST_REPORT_DATE ==>
              Lookup(Applied(items, ReportWrites(c, content)), key) == Lookup(items, key)
  {
    var ws := ReportWrites(c, content);
    assert ReportFileName(c)[0] == 'u';
    AppliedWritten(items, ws, 0);
    AppliedWritten(items, ws, 1);
    AppliedWritten(items, ws, 2);
    forall key | key != ReportFileName(c) && key != LAST_REPORT_PATH && key != LAST_REPORT_DATE
      ensures Lookup(Applied(items, ws), key) == Lookup(items, key)
    {
      AppliedUntouched(items, ws, key);
    }
    ReportDateOfFileName(c);
  }

  // ----- Listing -----

  datatype Platform = Web | Native

  /** The browser listing wants the prefix and the `.txt` suffix; the
      device listing only the prefix. */
  predicate IsReportKey(platform: Platform, key: string) {
    match platform
    case Web => StartsWith(key, REPORT_PREFIX) && EndsWith(key, REPORT_SUFFIX)
    case Native => StartsWith(key, REPORT_PREFIX)
  }

  function ReportKeyTest(platform: Platform): string -> bool {
    key => IsReportKey(platform, key)
  }

  /** The device listing keeps every file the browser listing keeps, and
      also prefixed files with another suffix. */
  lemma NativeListsMore(key: string)
    ensures IsReportKey(Web, key) ==> IsReportKey(Native, key)
    ensures IsReportKey(Native, "userReport-draft") && !IsReportKey(Web, "userReport-draft")
  {
    assert "userReport-draft"[..|REPORT_PREFIX|] == REPORT_PREFIX;
    assert "userReport-draft"[12] != REPORT_SUFFIX[0];
  }

  /** The listed date: the name with the first `userReport-` and then the
      first `.txt` removed. */
  function ReportDate(name: string): string {
    ReplaceFirst(ReplaceFirst(name, REPORT_PREFIX, ""), REPORT_SUFFIX, "")
  }

  /** A report saved by this screen is listed under its `YYYY-MM-DD` date. */
  lemma ReportDateOfFileName(c: Clock)
    requires ValidClock(c)
    ensures ReportDate(ReportFileName(c)) == FormatDate(c)
  {
    var d := FormatDate(c);
    assert ReportFileName(c) == REPORT_PREFIX + (d + REPORT_SUFFIX);
    RemovePrefixOnce(REPORT_PREFIX, d + REPORT_SUFFIX);
    FormatDateHasNoDot(c);
    RemoveSuffixOnce(d, REPORT_SUFFIX);
  }

  /** One row of the history tab. */
  datatype ReportListing = ReportListing(name: string, date: string, size: nat)

  function ReportDateOf(r: ReportListing): string {
    r.date
  }

  function ReportRow(key: string, items: map<string, string>): ReportListing {
    ReportListing(key, ReportDate(key), |Lookup(items, key).GetOr("")|)
  }

  /** The rows in key order, one per report key, before sorting. */
  function UnsortedReports(platform: Platform, order: seq<string>, items: map<string, string>)
    : (rs: seq<ReportListing>)
    ensures |rs| == |Filter(order, ReportKeyTest(platform))|
    ensures forall i :: 0 <= i < |rs| ==> rs[i].name == Filter(order, ReportKeyTest(platform))[i]
  {
    var keys := Filter(order, ReportKeyTest(platform));
    seq(|keys|, i requires 0 <= i < |keys| => ReportRow(keys[i], items))
  }

  /** Builds the rows and sorts them in place, latest date first. */
  method SortedReports(platform: Platform, order: seq<string>, items: map<string, string>)
    returns (listing: seq<ReportListing>)
    ensures multiset(listing) == multiset(UnsortedReports(platform, order, items))
    ensures SortedDescending(listing, ReportDateOf)
  {
    var rows := UnsortedReports(platform, order, items);
    var a := new ReportListing[|rows|](i requires 0 <= i < |rows| => rows[i]);
    assert a[..] == rows;
    SortByKeyDescending(a, ReportDateOf);
    listing := a[..];
  }

  /** The listing has a row for every stored report key and for nothing
      else, each under the date its name carries. */
  lemma ListedReports(platform: Platform, order: seq<string>, items: map<string, string>,
                      listing: seq<ReportListing>)
    requires IsEnumeration(order, items)
    requires multiset(listing) == multiset(UnsortedReports(platform, order, items))
    ensures forall r :: r in listing ==>
              r.name in items && IsReportKey(platform, r.name) && r.date == ReportDate(r.name)
    ensures forall key :: key in items && IsReportKey(platform, key) ==>
              exists r :: r in listing && r.name == key
  {
    var keys := Filter(order, ReportKeyTest(platform));
    var rows := UnsortedReports(platform, order, items);
    FilterMembers(order, ReportKeyTest(platform));
    forall r | r in listing
      ensures r.name in items && IsReportKey(platform, r.name) && r.date == ReportDate(r.name)
    {
      assert r in multiset(rows);
      var i :| 0 <= i < |rows| && rows[i] == r;
      assert keys[i] in keys;
    }
    forall key | key in items && IsReportKey(platform, key)
      ensures exists r :: r in listing && r.name == key
    {
      assert key in keys;
      var i :| 0 <= i < |keys| && keys[i] == key;
      assert rows[i] in multiset(listing);
    }
  }

  // ----- Summary and key points -----

  /** `(data.reply || "").trim() || "No summary available."`, or the
      failure message when the call fails. The summary is never empty. */
  function SummaryText(reply: ProxyReply): (r: string)
    ensures r != ""
    ensures reply.ProxyFailed? ==> r == SUMMARY_FAILED
    ensures reply.ProxyBody? && ReplyText(reply).value != "" ==> r == ReplyText(reply).value
    ensures reply.ProxyBody? && ReplyText(reply).value == "" ==> r == NO_SUMMARY
  {
    match ReplyText(reply)
    case Failed => SUMMARY_FAILED
    case Ok(text) => if text == "" then NO_SUMMARY else text
  }

  predicate NoBrace(s: string) {
    forall i :: 0 <= i < |s| ==> s[i] != '{' && s[i] != '}'
  }

  /** `points.substring(points.indexOf("{"), points.lastIndexOf("}") + 1)`,
      or nothing when either brace is missing. */
  function ExtractJson(points: string): (r: Option<string>)
    ensures r.None? <==> !Contains(points, "{") || !Contains(points, "}")
  {
    var start := IndexOf(points, "{");
    var end := LastIndexOf(points, "}");
    if start == -1 || end == -1 then None else Some(Substring(points, start, end + 1))
  }

  /** Text before the first `{` and after the last `}` is cut away. */
  lemma ExtractJsonWrapped(pre: string, json: string, post: string)
    requires forall i :: 0 <= i < |pre| ==> pre[i] != '{'
    requires forall i :: 0 <= i < |post| ==> post[i] != '}'
    requires |json| >= 2 && json[0] == '{' && json[|json| - 1] == '}'
    ensures ExtractJson(pre + json + post) == Some(json)
  {
    var s := pre + json + post;
    var start, end := |pre|, |pre| + |json| - 1;
    forall j | 0 <= j < start
      ensures !MatchAt(s, "{", j)
    {
      assert s[j..j + 1] == [pre[j]];
    }
    assert s[start..start + 1] == "{";
    IndexOfFirst(s, "{", start);
    forall j | end < j <= |s| - 1
      ensures !MatchAt(s, "}", j)
    {
      assert s[j..j + 1] == [post[j - end - 1]];
    }
    assert s[end..end + 1] == "}";
    LastIndexOfLast(s, "}", end);
    assert s[start..end + 1] == json;
  }

  /** When the last `}` comes before the first `{`, `substring` swaps its
      bounds and the cut text holds no brace at all. */
  lemma ExtractJsonInverted(points: string)
    requires Contains(points, "{") && Contains(points, "}")
    requires LastIndexOf(points, "}") < IndexOf(points, "{")
    ensures ExtractJson(points).Some? && NoBrace(ExtractJson(points).value)
  {
    var start := IndexOf(points, "{");
    var end := LastIndexOf(points, "}");
    var r := ExtractJson(points).value;
    assert r == points[end + 1..start];
    forall i | 0 <= i < |r|
      ensures r[i] != '{' && r[i] != '}'
    {
      var k := end + 1 + i;
      assert r[i] == points[k] == points[k..k + 1][0];
      assert !MatchAt(points, "{", k);
      assert !MatchAt(points, "}", k);
    }
  }

  /** The key takeaways: the parsed text between the braces, or `[]` when
      the call fails, a brace is missing or the text does not parse. */
  function KeyTakeaways(reply: ProxyReply, parseJson: string -> Option<Json>): (r: Json)
    ensures reply.ProxyFailed? ==> r == NO_POINTS
    ensures reply.ProxyBody? && ExtractJson(ReplyText(reply).value).None? ==> r == NO_POINTS
    ensures reply.ProxyBody? && ExtractJson(ReplyText(reply).value).Some? ==>
              r == parseJson(ExtractJson(ReplyText(reply).value).value).GetOr(NO_POINTS)
  {
    match ReplyText(reply)
    case Failed => NO_POINTS
    case Ok(points) =>
      match ExtractJson(points)
      case None => NO_POINTS
      case Some(json) => parseJson(json).GetOr(NO_POINTS)
  }

  /** A reply whose object is wrapped in other text still yields the
      object's points. */
  lemma KeyTakeawaysOfWrapped(reply: ProxyReply, parseJson: string -> Option<Json>,
                              pre: string, json: string, post: string)
    requires ReplyText(reply) == Ok(pre + json + post)
    requires forall i :: 0 <= i < |pre| ==> pre[i] != '{'
    requires forall i :: 0 <= i < |post| ==> post[i] != '}'
    requires |json| >= 2 && json[0] == '{' && json[|json| - 1] == '}'
    requires parseJson(json).Some?
    ensures KeyTakeaways(reply, parseJson) == parseJson(json).value
  {
    ExtractJsonWrapped(pre, json, post);
  }

  /** After any failure no key point is shown. */
  lemma FailedPointsHidden(reply: ProxyReply, parseJson: string -> Option<Json>)
    requires reply.ProxyFailed? || ExtractJson(ReplyText(reply).value).None?
    ensures !HasKeys(KeyTakeaways(reply, parseJson))
  {
  }

  /** The saved report shown when the screen opens without a chat: the
      stored text, or the fallback when it is missing, empty or unreadable. */
  function LastReportText(items: map<string, string>, path: string, readFails: bool): (r: string)
    ensures r != ""
    ensures !readFails && IsTruthy(Lookup(items, path)) ==> r == items[path]
  {
    if !readFails && IsTruthy(Lookup(items, path)) then items[path] else REPORT_NOT_LOADED
  }

  // ----- The screen -----

  class SummaryScreen {
    var summary: string
    var keyTakeaways: Json
    var isLoading: bool
    var reportSaved: bool
    var hasReport: bool
    var savedReports: seq<ReportListing>
    /** Whether the screen was opened with the messages of a chat. */
    const hasMessages: bool
    const platform: Platform
    const store: KeyValueStore

    constructor (store: KeyValueStore, hasMessages: bool, platform: Platform)
      ensures this.store == store && this.hasMessages == hasMessages && this.platform == platform
      ensures summary == "" && keyTakeaways == NO_POINTS && isLoading
      ensures !reportSaved && !hasReport && savedReports == []
    {
      this.store := store;
      this.hasMessages := hasMessages;
      this.platform := platform;
      summary := "";
      keyTakeaways := NO_POINTS;
      isLoading := true;
      reportSaved := false;
      hasReport := false;
      savedReports := [];
    }

    /** `saveReport`: at most one report per screen. */
    method SaveReport(content: string, c: Clock, failAt: Option<nat>)
      modifies this, store
      ensures Saving(old(store.items), old(reportSaved), content, c, failAt, store.items, reportSaved)
      ensures summary == old(summary) && keyTakeaways == old(keyTakeaways) && isLoading == old(isLoading)
      ensures hasReport == old(hasReport) && savedReports == old(savedReports)
    {
      if content == "" || reportSaved {
        return;
      }
      var ok := store.SetItemsInTurn((ReportFileName(c), content), (LAST_REPORT_PATH, ReportFileName(c)),
                                     (LAST_REPORT_DATE, FormatDate(c)), failAt);
      if ok {
        reportSaved := true;
      }
    }

    /** `fetchSummary`: the summary is shown, then saved; a failed call
        shows the failure message and saves nothing. Loading ends. */
    method FetchSummary(reply: ProxyReply, c: Clock, failAt: Option<nat>)
      modifies this, store
      ensures summary == SummaryText(reply) && !isLoading
      ensures reply.ProxyFailed? ==> store.items == old(store.items) && reportSaved == old(reportSaved)
      ensures reply.ProxyBody? ==>
                Saving(old(store.items), old(reportSaved), summary, c, failAt, store.items, reportSaved)
      ensures keyTakeaways == old(keyTakeaways) && hasReport == old(hasReport)
      ensures savedReports == old(savedReports)
    {
      summary := SummaryText(reply);
      if reply.ProxyBody? {
        SaveReport(summary, c, failAt);
      }
      isLoading := false;
    }

    /** `fetchPoints`. Loading ends. */
    method FetchPoints(reply: ProxyReply, parseJson: string -> Option<Json>)
      modifies this
      ensures keyTakeaways == KeyTakeaways(reply, parseJson) && !isLoading
      ensures summary == old(summary) && reportSaved == old(reportSaved)
      ensures hasReport == old(hasReport) && savedReports == old(savedReports)
    {
      keyTakeaways := KeyTakeaways(reply, parseJson);
      isLoading := false;
    }

    /** The effect on the chat messages: with messages, the summary and
        the key points are fetched (one after the other here); without
        messages and without a saved report, the screen says there is no
        report yet. */
    method Generate(summaryReply: ProxyReply, pointsReply: ProxyReply,
                    parseJson: string -> Option<Json>, c: Clock, failAt: Option<nat>)
      modifies this, store
      ensures hasMessages ==>
                && summary == SummaryText(summaryReply)
                && keyTakeaways == KeyTakeaways(pointsReply, parseJson)
                && (summaryReply.ProxyBody? ==>
                      Saving(old(store.items), old(reportSaved), summary, c, failAt, store.items, reportSaved))
      ensures !hasMessages && !old(hasReport) ==> summary == NO_REPORTS
      ensures !hasMessages && old(hasReport) ==> summary == old(summary) && isLoading == old(isLoading)
      ensures !hasMessages ==> store.items == old(store.items) && reportSaved == old(reportSaved)
      ensures hasMessages || !old(hasReport) ==> !isLoading
      ensures hasReport == old(hasReport) && savedReports == old(savedReports)
    {
      if hasMessages {
        FetchSummary(summaryReply, c, failAt);
        FetchPoints(pointsReply, parseJson);
      } else if !hasReport {
        isLoading := false;
        summary := NO_REPORTS;
      }
    }

    /** `findSavedReports`: the stored reports, latest date first; when
        listing throws, no rows. */
    method FindSavedReports(order: seq<string>, listFails: bool)
      modifies this
      ensures listFails ==> savedReports == []
      ensures !listFails ==> multiset(savedReports) == multiset(UnsortedReports(platform, order, store.items))
      ensures SortedDescending(savedReports, ReportDateOf)
      ensures summary == old(summary) && keyTakeaways == old(keyTakeaways) && isLoading == old(isLoading)
      ensures reportSaved == old(reportSaved) && hasReport == old(hasReport)
    {
      if listFails {
        savedReports := [];
      } else {
        savedReports := SortedReports(platform, order, store.items);
      }
    }

    /** `checkForReports`: a stored path and date mark that a report
        exists; opened without a chat, the screen shows that report. A read
        of either key that throws ends the check; otherwise the saved
        reports are listed. */
    method CheckForReports(failAt: Option<nat>, order: seq<string>, listFails: bool)
      modifies this
      ensures FailsAt(failAt, 0) || FailsAt(failAt, 1) ==>
                && summary == old(summary) && isLoading == old(isLoading)
                && hasReport == old(hasReport) && savedReports == old(savedReports)
      ensures !FailsAt(failAt, 0) && !FailsAt(failAt, 1) ==>
                var path := Lookup(store.items, LAST_REPORT_PATH);
                var found := IsTruthy(path) && IsTruthy(Lookup(store.items, LAST_REPORT_DATE));
                && hasReport == (old(hasReport) || found)
                && (found && !hasMessages ==>
                      summary == LastReportText(store.items, path.value, FailsAt(failAt, 2)) && !isLoading)
                && (!(found && !hasMessages) ==> summary == old(summary) && isLoading == old(isLoading))
                && (listFails ==> savedReports == [])
                && (!listFails ==> multiset(savedReports) == multiset(UnsortedReports(platform, order, store.items)))
                && SortedDescending(savedReports, ReportDateOf)
      ensures keyTakeaways == old(keyTakeaways) && reportSaved == old(reportSaved)
    {
      var path := store.GetItem(LAST_REPORT_PATH, FailsAt(failAt, 0));
      if path.Failed? {
        return;
      }
      var date := store.GetItem(LAST_REPORT_DATE, FailsAt(failAt, 1));
      if date.Failed? {
        return;
      }
      if IsTruthy(path.value) && IsTruthy(date.value) {
        hasReport := true;
        if !hasMessages {
          var content := store.GetItem(path.value.value, FailsAt(failAt, 2));
          summary := if content.Ok? && IsTruthy(content.value) then content.value.value else REPORT_NOT_LOADED;
          isLoading := false;
        }
      }
      FindSavedReports(order, listFails);
    }
  }
}
