/** The `renderFormattedText` helpers of the chat screens: a reply is cut at
    every `**bold**` run (the regular expression `(\*\*.*?\*\*)`), and on the
    onboarding and daily chat screens every other piece is cut again at the
    helpline numbers (`(2896\s*0000|2382\s*0000)`). Only the text each span
    shows and its kind are modelled, not the React elements around it. */
module Markup {
  import opened Wrappers
  import opened JsText

  /** The two regular expressions the screens split with. */
  datatype Pattern = BoldPattern | PhonePattern

  /** The lazy `.*?\*\*` tail of the bold pattern from `j`: the end of the
      first `**` at or after `j`, provided no line terminator comes first. */
  function CloseBold(s: string, j: nat): (e: Option<nat>)
    ensures e.Some? ==> j + 2 <= e.value <= |s| && s[e.value - 2..e.value] == "**"
    ensures e.Some? ==> forall k :: j <= k < e.value - 2 ==> !IsLineTerminator(s[k])
    decreases |s| - j
  {
    if j + 2 > |s| then None
    else if s[j] == '*' && s[j + 1] == '*' then Some(j + 2)
    else if IsLineTerminator(s[j]) then None
    else CloseBold(s, j + 1)
  }

  /** The greedy `\s*` from `j`: the end of the whitespace run there. */
  function SpaceRunEnd(s: string, j: nat): (k: nat)
    requires j <= |s|
    ensures j <= k <= |s|
    ensures forall i :: j <= i < k ==> IsSpace(s[i])
    ensures k < |s| ==> !IsSpace(s[k])
    decreases |s| - j
  {
    if j < |s| && IsSpace(s[j]) then SpaceRunEnd(s, j + 1) else j
  }

  /** The whitespace run from `j` ends at `k` when `k` is the first
      non-space at or after `j`. */
  lemma {:induction false} SpaceRunEndAt(s: string, j: nat, k: nat)
    requires j <= k <= |s|
    requires forall i :: j <= i < k ==> IsSpace(s[i])
    requires k < |s| ==> !IsSpace(s[k])
    ensures SpaceRunEnd(s, j) == k
    decreases k - j
  {
    if j < k {
      SpaceRunEndAt(s, j + 1, k);
    }
  }

  predicate IsPhonePrefix(t: string) {
    t == "2896" || t == "2382"
  }

  /** Where the match of `pat` that starts at `i` ends, if one starts there. */
  function MatchEnd(pat: Pattern, s: string, i: nat): (e: Option<nat>)
    requires i <= |s|
    ensures e.Some? ==> i < e.value <= |s|
  {
    match pat
    case BoldPattern =>
      if i + 2 <= |s| && s[i..i + 2] == "**" then CloseBold(s, i + 2) else None
    case PhonePattern =>
      if i + 4 <= |s| && IsPhonePrefix(s[i..i + 4]) then
        var k := SpaceRunEnd(s, i + 4);
        if k + 4 <= |s| && s[k..k + 4] == "0000" then Some(k + 4) else None
      else None
  }

  /** What a match of each pattern looks like on its own. */
  predicate IsToken(pat: Pattern, t: string) {
    match pat
    case BoldPattern =>
      |t| >= 4 && t[..2] == "**" && t[|t| - 2..] == "**"
      && forall k :: 2 <= k < |t| - 2 ==> !IsLineTerminator(t[k])
    case PhonePattern =>
      |t| >= 8 && IsPhonePrefix(t[..4]) && t[|t| - 4..] == "0000" && AllSpace(t[4..|t| - 4])
  }

  /** A match always has the shape of a token. */
  lemma MatchIsToken(pat: Pattern, s: string, i: nat)
    requires i <= |s| && MatchEnd(pat, s, i).Some?
    ensures IsToken(pat, s[i..MatchEnd(pat, s, i).value])
  {
    var e := MatchEnd(pat, s, i).value;
    var t := s[i..e];
    match pat
    case BoldPattern =>
      assert t[..2] == s[i..i + 2];
      assert t[|t| - 2..] == s[e - 2..e];
      forall k | 2 <= k < |t| - 2 ensures !IsLineTerminator(t[k]) {
        assert t[k] == s[i + k];
      }
    case PhonePattern =>
      var k := SpaceRunEnd(s, i + 4);
      assert t[..4] == s[i..i + 4];
      assert t[|t| - 4..] == s[k..k + 4];
      var u := t[4..|t| - 4];
      forall m | 0 <= m < |u| ensures IsSpace(u[m]) {
        assert u[m] == s[i + 4 + m];
      }
  }

  /** `s.split(re)` for a pattern wrapped in one capturing group, scanning
      from `i` with the current piece starting at `start`: the text between
      matches and the matches themselves, alternately. */
  function SplitFrom(pat: Pattern, s: string, start: nat, i: nat): (parts: seq<string>)
    requires start <= i <= |s|
    ensures |parts| % 2 == 1
    decreases |s| - i
  {
    if i == |s| then [s[start..]]
    else match MatchEnd(pat, s, i)
      case Some(e) => [s[start..i], s[i..e]] + SplitFrom(pat, s, e, e)
      case None => SplitFrom(pat, s, start, i + 1)
  }

  /** `s.split(re)`: always an odd number of pieces, the matches at the odd
      positions. */
  function Split(pat: Pattern, s: string): (parts: seq<string>)
    ensures |parts| % 2 == 1
  {
    SplitFrom(pat, s, 0, 0)
  }

  /** The pieces shown one after another. */
  function Concat(parts: seq<string>): string {
    if parts == [] then "" else parts[0] + Concat(parts[1..])
  }

  lemma {:induction false} SplitFromConcat(pat: Pattern, s: string, start: nat, i: nat)
    requires start <= i <= |s|
    ensures Concat(SplitFrom(pat, s, start, i)) == s[start..]
    decreases |s| - i
  {
    if i == |s| {
      assert Concat([s[start..]]) == s[start..] + Concat([]);
    } else {
      match MatchEnd(pat, s, i)
      case Some(e) =>
        var rest := SplitFrom(pat, s, e, e);
        SplitFromConcat(pat, s, e, e);
        var parts := [s[start..i], s[i..e]] + rest;
        assert parts[1..] == [s[i..e]] + rest;
        assert ([s[i..e]] + rest)[1..] == rest;
        calc {
          Concat(parts);
          s[start..i] + Concat([s[i..e]] + rest);
          s[start..i] + (s[i..e] + Concat(rest));
          s[start..i] + (s[i..e] + s[e..]);
          { assert s[i..e] + s[e..] == s[i..]; assert s[start..i] + s[i..] == s[start..]; }
          s[start..];
        }
      case None =>
        SplitFromConcat(pat, s, start, i + 1);
    }
  }

  /** Splitting loses and adds nothing: the pieces put back together are the
      text. */
  lemma SplitConcat(pat: Pattern, s: string)
    ensures Concat(Split(pat, s)) == s
  {
    SplitFromConcat(pat, s, 0, 0);
  }

  lemma {:induction false} SplitFromTokens(pat: Pattern, s: string, start: nat, i: nat)
    requires start <= i <= |s|
    ensures forall k :: 0 <= k < |SplitFrom(pat, s, start, i)| && k % 2 == 1 ==>
      IsToken(pat, SplitFrom(pat, s, start, i)[k])
    decreases |s| - i
  {
    if i < |s| {
      match MatchEnd(pat, s, i)
      case Some(e) =>
        MatchIsToken(pat, s, i);
        SplitFromTokens(pat, s, e, e);
        var rest := SplitFrom(pat, s, e, e);
        var parts := [s[start..i], s[i..e]] + rest;
        forall k | 0 <= k < |parts| && k % 2 == 1 ensures IsToken(pat, parts[k]) {
          if k > 1 {
            assert parts[k] == rest[k - 2];
          }
        }
      case None =>
        SplitFromTokens(pat, s, start, i + 1);
    }
  }

  /** Every piece at an odd position is a match of the pattern. */
  lemma SplitTokens(pat: Pattern, s: string)
    ensures forall k :: 0 <= k < |Split(pat, s)| && k % 2 == 1 ==> IsToken(pat, Split(pat, s)[k])
  {
    SplitFromTokens(pat, s, 0, 0);
  }

  /** A phone token on its own is split out whole, with empty text on both
      sides. */
  lemma PhoneTokenSplitsOut(t: string)
    requires IsToken(PhonePattern, t)
    ensures Split(PhonePattern, t) == ["", t, ""]
  {
    var n := |t|;
    assert t[0..4] == t[..4];
    var u := t[4..n - 4];
    forall m | 4 <= m < n - 4 ensures IsSpace(t[m]) {
      assert t[m] == u[m - 4];
    }
    assert t[n - 4] == t[n - 4..][0] == '0';
    SpaceRunEndAt(t, 4, n - 4);
    assert t[n - 4..n] == t[n - 4..];
    assert MatchEnd(PhonePattern, t, 0) == Some(n);
    assert t[0..0] == "" && t[0..n] == t && t[n..] == "";
    assert SplitFrom(PhonePattern, t, n, n) == [""];
    assert SplitFrom(PhonePattern, t, 0, 0) == [t[0..0], t[0..n]] + SplitFrom(PhonePattern, t, n, n);
  }

  /** A text with no `*` is not cut at all by the bold pattern. */
  lemma {:induction false} NoStarsNoSplit(s: string, start: nat, i: nat)
    requires start <= i <= |s|
    requires forall k :: 0 <= k < |s| ==> s[k] != '*'
    ensures SplitFrom(BoldPattern, s, start, i) == [s[start..]]
    decreases |s| - i
  {
    if i < |s| {
      if i + 2 <= |s| {
        assert s[i..i + 2][0] == s[i];
      }
      NoStarsNoSplit(s, start, i + 1);
    }
  }

  /** What one span shows. */
  datatype Span = Plain(text: string) | Bold(text: string) | Link(text: string, url: string)

  /** The test the renderers apply to each piece:
      `part.startsWith("**") && part.endsWith("**")`. */
  predicate LooksBold(part: string) {
    StartsWith(part, "**") && EndsWith(part, "**")
  }

  /** `part.slice(2, -2)`, which is empty when the piece is shorter than four. */
  function Inner(part: string): (r: string)
    ensures |part| >= 4 ==> part == part[..2] + r + part[|part| - 2..]
  {
    if |part| >= 4 then part[2..|part| - 2] else ""
  }

  /** The text a span stands for, with the `**` markers of a bold span put
      back. */
  function Source(sp: Span): string {
    match sp
    case Plain(t) => t
    case Bold(t) => "**" + t + "**"
    case Link(t, _) => t
  }

  function Sources(spans: seq<Span>): string {
    if spans == [] then "" else Source(spans[0]) + Sources(spans[1..])
  }

  /** One piece on the plain chat screen. */
  function ChatSpan(part: string): Span {
    if LooksBold(part) then Bold(Inner(part)) else Plain(part)
  }

  function ChatSpansOf(parts: seq<string>): (spans: seq<Span>)
    ensures |spans| == |parts|
    ensures forall k :: 0 <= k < |parts| ==> spans[k] == ChatSpan(parts[k])
  {
    if parts == [] then [] else [ChatSpan(parts[0])] + ChatSpansOf(parts[1..])
  }

  /** `renderFormattedText` of the plain chat screen: bold runs and plain
      text, one span per piece of the bold split. */
  function ChatSpans(text: string): (spans: seq<Span>)
    ensures |spans| == |Split(BoldPattern, text)|
  {
    ChatSpansOf(Split(BoldPattern, text))
  }

  /** A piece that looks bold but is only two or three characters long
      (`**` or `***`) loses its asterisks when shown. */
  predicate ShortBold(part: string) {
    LooksBold(part) && |part| < 4
  }

  lemma {:induction false} ChatSourcesOf(parts: seq<string>)
    requires forall k :: 0 <= k < |parts| ==> !ShortBold(parts[k])
    ensures Sources(ChatSpansOf(parts)) == Concat(parts)
  {
    if parts != [] {
      ChatSourcesOf(parts[1..]);
      var p := parts[0];
      if LooksBold(p) {
        assert p == "**" + Inner(p) + "**";
      }
      assert ChatSpansOf(parts)[1..] == ChatSpansOf(parts[1..]);
    }
  }

  /** Every bold run of the reply is shown bold without its markers, and
      putting the markers back gives the reply again, unless a stray `**`
      or `***` is left between the runs. */
  lemma ChatSpansShowText(text: string)
    requires forall k :: 0 <= k < |Split(BoldPattern, text)| ==> !ShortBold(Split(BoldPattern, text)[k])
    ensures Sources(ChatSpans(text)) == text
    ensures forall k :: 0 <= k < |ChatSpans(text)| && k % 2 == 1 ==>
      ChatSpans(text)[k] == Bold(Inner(Split(BoldPattern, text)[k]))
  {
    var parts := Split(BoldPattern, text);
    ChatSourcesOf(parts);
    SplitConcat(BoldPattern, text);
    SplitTokens(BoldPattern, text);
    forall k | 0 <= k < |parts| && k % 2 == 1 ensures LooksBold(parts[k]) {
      assert parts[k][..2] == "**";
    }
  }

  /** A reply that is just `**` is shown as an empty bold span: the two
      asterisks disappear. */
  lemma LoneMarkersVanish()
    ensures ChatSpans("**") == [Bold("")]
  {
    NoStarsNoSplit("", 0, 0);
    assert CloseBold("**", 2) == None;
    assert MatchEnd(BoldPattern, "**", 0) == None;
    assert MatchEnd(BoldPattern, "**", 1) == None;
    assert SplitFrom(BoldPattern, "**", 0, 0) == ["**"];
  }

  /** The two numbers that become a `tel:` link, written exactly like this. */
  predicate IsLinkedNumber(t: string) {
    t == "2896 0000" || t == "2382 0000"
  }

  /** `s.replace(/\s/g, "")`. */
  function RemoveSpaces(s: string): (r: string)
    ensures |r| <= |s|
    ensures forall k :: 0 <= k < |r| ==> !IsSpace(r[k])
  {
    if s == [] then "" else (if IsSpace(s[0]) then "" else [s[0]]) + RemoveSpaces(s[1..])
  }

  lemma {:induction false} RemoveSpacesConcat(a: string, b: string)
    ensures RemoveSpaces(a + b) == RemoveSpaces(a) + RemoveSpaces(b)
  {
    if a != [] {
      assert (a + b)[1..] == a[1..] + b;
      RemoveSpacesConcat(a[1..], b);
    } else {
      assert a + b == b;
    }
  }

  /** A text without whitespace is kept as it is. */
  lemma {:induction false} RemoveSpacesKeeps(s: string)
    requires forall k :: 0 <= k < |s| ==> !IsSpace(s[k])
    ensures RemoveSpaces(s) == s
  {
    if s != [] {
      forall k | 0 <= k < |s[1..]| ensures !IsSpace(s[1..][k]) {
        assert s[1..][k] == s[k + 1];
      }
      RemoveSpacesKeeps(s[1..]);
    }
  }

  /** Removing the whitespace of `a + " " + b` joins the two halves. */
  lemma SpacedNumberJoined(a: string, b: string)
    requires forall k :: 0 <= k < |a| ==> !IsSpace(a[k])
    requires forall k :: 0 <= k < |b| ==> !IsSpace(b[k])
    ensures RemoveSpaces(a + " " + b) == a + b
  {
    RemoveSpacesConcat(a + " ", b);
    RemoveSpacesConcat(a, " ");
    RemoveSpacesKeeps(a);
    RemoveSpacesKeeps(b);
    assert RemoveSpaces(" ") == "" by {
      assert IsSpace(" "[0]);
      assert " "[1..] == "";
    }
    calc {
      RemoveSpaces(a + " " + b);
      RemoveSpaces(a + " ") + RemoveSpaces(b);
      RemoveSpaces(a) + RemoveSpaces(" ") + RemoveSpaces(b);
      a + "" + b;
      { assert a + "" == a; }
      a + b;
    }
  }

  /** One piece of the phone split. */
  function PhoneSpan(sub: string): Span {
    if IsLinkedNumber(sub) then Link(sub, "tel:" + RemoveSpaces(sub)) else Plain(sub)
  }

  function PhoneSpansOf(subs: seq<string>): (spans: seq<Span>)
    ensures |spans| == |subs|
    ensures forall k :: 0 <= k < |subs| ==> spans[k] == PhoneSpan(subs[k])
  {
    if subs == [] then [] else [PhoneSpan(subs[0])] + PhoneSpansOf(subs[1..])
  }

  lemma {:induction false} PhoneSourcesOf(subs: seq<string>)
    ensures Sources(PhoneSpansOf(subs)) == Concat(subs)
  {
    if subs != [] {
      PhoneSourcesOf(subs[1..]);
      assert PhoneSpansOf(subs)[1..] == PhoneSpansOf(subs[1..]);
    }
  }

  /** A helpline number becomes a link that dials it without the space;
      every other piece, including a number written another way, is plain
      text. */
  lemma PhoneSpanLinks(sub: string)
    ensures PhoneSpan(sub).Link? <==> IsLinkedNumber(sub)
    ensures sub == "2896 0000" ==> PhoneSpan(sub) == Link(sub, "tel:28960000")
    ensures sub == "2382 0000" ==> PhoneSpan(sub) == Link(sub, "tel:23820000")
    ensures !IsLinkedNumber(sub) ==> PhoneSpan(sub) == Plain(sub)
  {
    if sub == "2896 0000" {
      SpacedNumberJoined("2896", "0000");
      assert sub == "2896" + " " + "0000";
    } else if sub == "2382 0000" {
      SpacedNumberJoined("2382", "0000");
      assert sub == "2382" + " " + "0000";
    }
  }

  /** One piece of the bold split on the onboarding and daily chat screens:
      a bold run, or a row of spans from the phone split. */
  datatype Block = BoldBlock(text: string) | TextBlock(spans: seq<Span>)

  function RichBlock(part: string): Block {
    if LooksBold(part) then BoldBlock(Inner(part))
    else
      var subs := Split(PhonePattern, part);
      if |subs| == 1 then TextBlock([Plain(part)]) else TextBlock(PhoneSpansOf(subs))
  }

  function RichBlocksOf(parts: seq<string>): (blocks: seq<Block>)
    ensures |blocks| == |parts|
    ensures forall k :: 0 <= k < |parts| ==> blocks[k] == RichBlock(parts[k])
  {
    if parts == [] then [] else [RichBlock(parts[0])] + RichBlocksOf(parts[1..])
  }

  /** `renderFormattedText` of the onboarding and daily chat screens. */
  function RichBlocks(text: string): (blocks: seq<Block>)
    ensures |blocks| == |Split(BoldPattern, text)|
  {
    RichBlocksOf(Split(BoldPattern, text))
  }

  function BlockSource(b: Block): string {
    match b
    case BoldBlock(t) => "**" + t + "**"
    case TextBlock(spans) => Sources(spans)
  }

  function BlockSources(blocks: seq<Block>): string {
    if blocks == [] then "" else BlockSource(blocks[0]) + BlockSources(blocks[1..])
  }

  lemma RichBlockSource(part: string)
    requires !ShortBold(part)
    ensures BlockSource(RichBlock(part)) == part
  {
    if LooksBold(part) {
      assert part == "**" + Inner(part) + "**";
    } else {
      var subs := Split(PhonePattern, part);
      SplitConcat(PhonePattern, part);
      if |subs| == 1 {
        assert Sources([Plain(part)]) == part + Sources([]);
      } else {
        PhoneSourcesOf(subs);
      }
    }
  }

  lemma {:induction false} RichSourcesOf(parts: seq<string>)
    requires forall k :: 0 <= k < |parts| ==> !ShortBold(parts[k])
    ensures BlockSources(RichBlocksOf(parts)) == Concat(parts)
  {
    if parts != [] {
      RichSourcesOf(parts[1..]);
      RichBlockSource(parts[0]);
      assert RichBlocksOf(parts)[1..] == RichBlocksOf(parts[1..]);
    }
  }

  /** The richer renderer shows the whole reply too: bold runs in bold, the
      helpline numbers as links, and the rest as it is. */
  lemma RichBlocksShowText(text: string)
    requires forall k :: 0 <= k < |Split(BoldPattern, text)| ==> !ShortBold(Split(BoldPattern, text)[k])
    ensures BlockSources(RichBlocks(text)) == text
    ensures forall k :: 0 <= k < |RichBlocks(text)| && k % 2 == 1 ==>
      RichBlocks(text)[k] == BoldBlock(Inner(Split(BoldPattern, text)[k]))
  {
    var parts := Split(BoldPattern, text);
    RichSourcesOf(parts);
    SplitConcat(BoldPattern, text);
    SplitTokens(BoldPattern, text);
    forall k | 0 <= k < |parts| && k % 2 == 1 ensures LooksBold(parts[k]) {
      assert parts[k][..2] == "**";
    }
  }

  /** A helpline number written without the space is cut out of the text by
      the phone pattern, but is shown as plain text, not as a link. */
  lemma UnspacedNumberNotLinked()
    ensures IsToken(PhonePattern, "28960000")
    ensures RichBlock("28960000") == TextBlock([Plain(""), Plain("28960000"), Plain("")])
  {
    var t := "28960000";
    assert t[..4] == "2896";
    assert t[4..|t| - 4] == "";
    assert t[|t| - 4..] == "0000";
    PhoneTokenSplitsOut(t);
    assert !LooksBold(t) by {
      assert t[..2][0] == '2';
    }
    var spans := PhoneSpansOf(["", t, ""]);
    assert !IsLinkedNumber("") && !IsLinkedNumber(t);
    assert spans == [Plain(""), Plain(t), Plain("")];
  }
}
