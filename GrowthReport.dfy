/** The growth report: the conversation-time text, the emotion styling,
    the display caps and the empty state. */
module GrowthReport {
  import opened Wrappers
  import Strings
  import Emotions

  /** JavaScript's `%`: the remainder takes the sign of the dividend. */
  function JsRem(a: int, b: int): (r: int)
    requires b > 0
    ensures a >= 0 ==> r == a % b
    ensures a < 0 ==> -b < r <= 0
  {
    if a >= 0 then a % b else -((-a) % b)
  }

  /** `Math.floor(seconds / 3600)` and `Math.floor((seconds % 3600) / 60)`. */
  function DurationParts(seconds: int): (parts: (int, int))
    ensures seconds >= 0 ==> 0 <= parts.1 < 60
    ensures parts.0 > 0 <==> seconds >= 3600
  {
    (seconds / 3600, JsRem(seconds, 3600) / 60)
  }

  /** For a non-negative count the parts account for every whole minute:
      only the leftover seconds, fewer than sixty, are lost. */
  lemma DurationPartsCover(seconds: int)
    requires seconds >= 0
    ensures var parts := DurationParts(seconds);
      parts.0 * 3600 + parts.1 * 60 <= seconds < parts.0 * 3600 + parts.1 * 60 + 60
  {
  }

  /** `formatDuration(seconds)`: "{h}小时{m}分钟" when there is at least an
      hour, else "{m}分钟"; leftover seconds are dropped. */
  function FormatDuration(seconds: int): (text: string)
    ensures 0 <= seconds < 3600 ==> text == Strings.IntToString(seconds / 60) + "分钟"
    ensures seconds >= 3600 ==>
      text == Strings.IntToString(seconds / 3600) + "小时" + Strings.IntToString(seconds % 3600 / 60) + "分钟"
  {
    var parts := DurationParts(seconds);
    DurationText(parts.0, parts.1)
  }

  /** The text for whole hours and minutes. */
  function DurationText(hours: int, mins: int): string
  {
    if hours > 0 then Strings.IntToString(hours) + "小时" + Strings.IntToString(mins) + "分钟"
    else Strings.IntToString(mins) + "分钟"
  }

  /** Under an hour the text is the whole minutes alone, and adding fewer
      than sixty seconds to a whole minute changes nothing. */
  lemma {:induction false} FormatDurationDropsSeconds(mins: int, secs: int)
    requires 0 <= mins < 60 && 0 <= secs < 60
    ensures FormatDuration(mins * 60 + secs) == Strings.IntToString(mins) + "分钟"
  {
    var s := mins * 60 + secs;
    assert s / 3600 == 0;
    assert JsRem(s, 3600) == s;
    assert s / 60 == mins;
  }

  /** From an hour on, the hours are shown before the minutes. */
  lemma {:induction false} FormatDurationWithHours(hours: int, mins: int, secs: int)
    requires hours > 0 && 0 <= mins < 60 && 0 <= secs < 60
    ensures FormatDuration(hours * 3600 + mins * 60 + secs)
         == Strings.IntToString(hours) + "小时" + Strings.IntToString(mins) + "分钟"
  {
    var rest := mins * 60 + secs;
    HoursOf(hours, rest);
    MinutesOf(mins, secs);
    var s := hours * 3600 + mins * 60 + secs;
    assert s == hours * 3600 + rest;
    assert DurationParts(s) == (hours, mins);
    assert FormatDuration(s) == DurationText(hours, mins);
  }

  lemma HoursOf(hours: int, rest: int)
    requires hours > 0 && 0 <= rest < 3600
    ensures (hours * 3600 + rest) / 3600 == hours
    ensures JsRem(hours * 3600 + rest, 3600) == rest
  {
  }

  lemma MinutesOf(mins: int, secs: int)
    requires 0 <= mins < 60 && 0 <= secs < 60
    ensures (mins * 60 + secs) / 60 == mins
  {
  }

  /** The total-time tile: a missing or zero total shows "0分钟" without
      formatting. */
  function TotalDurationText(totalDuration: Option<int>): (text: string)
    ensures totalDuration.None? || totalDuration.value == 0 ==> text == "0分钟"
    ensures totalDuration.Some? && totalDuration.value != 0 ==> text == FormatDuration(totalDuration.value)
  {
    if totalDuration.None? || totalDuration.value == 0 then "0分钟"
    else FormatDuration(totalDuration.value)
  }

  /** The shortcut agrees with what formatting zero would give. */
  lemma ZeroTotalAgrees()
    ensures TotalDurationText(Some(0)) == FormatDuration(0)
  {
    FormatDurationDropsSeconds(0, 0);
    assert Strings.IntToString(0) == "0";
  }

  /** This page's copy of the emotion table, identical to the emotion page's. */
  const EmotionConfig: seq<(string, Emotions.EmotionStyle)> := [
    ("happy", Emotions.EmotionStyle("开心", "#10b981", "emoticon-happy")),
    ("sad", Emotions.EmotionStyle("难过", "#6366f1", "emoticon-sad")),
    ("anxious", Emotions.EmotionStyle("焦虑", "#f59e0b", "emoticon-confused")),
    ("calm", Emotions.EmotionStyle("平静", "#06b6d4", "emoticon-neutral")),
    ("angry", Emotions.EmotionStyle("生气", "#ef4444", "emoticon-angry")),
    ("excited", Emotions.EmotionStyle("兴奋", "#ec4899", "emoticon-excited")),
    ("neutral", Emotions.EmotionStyle("平常", "#6b7280", "emoticon-neutral-outline"))
  ]

  /** `getEmotionConfig(emotion)`, with the neutral entry as fallback. */
  function GetEmotionConfig(emotion: string): (style: Emotions.EmotionStyle)
    ensures (forall i :: 0 <= i < |EmotionConfig| ==> EmotionConfig[i].0 != emotion) ==> style == EmotionConfig[6].1
    ensures forall i :: 0 <= i < |EmotionConfig| && EmotionConfig[i].0 == emotion ==> style == EmotionConfig[i].1
  {
    Emotions.LookupStyle(EmotionConfig, emotion).GetOr(EmotionConfig[6].1)
  }

  /** The report and the emotion page style every emotion the same way. */
  lemma SameStylesAsEmotionPage(emotion: string)
    ensures GetEmotionConfig(emotion) == Emotions.GetEmotionConfig(emotion)
  {
    assert EmotionConfig == Emotions.EmotionConfig;
  }

  datatype MemoryItem = MemoryItem(content: string, tags: seq<string>)

  datatype EventItem = EventItem(title: string, date: string)

  /** The report fields the page reads. */
  datatype Report = Report(
    conversationCount: Option<int>,
    totalDuration: Option<int>,
    newMemories: Option<seq<MemoryItem>>,
    upcomingEvents: Option<seq<EventItem>>)

  /** At most five new memories are listed, each with at most three tags. */
  function ShownMemories(memories: seq<MemoryItem>): (shown: seq<MemoryItem>)
    ensures |shown| == if |memories| < 5 then |memories| else 5
    ensures forall i :: 0 <= i < |shown| ==> |shown[i].tags| == if |memories[i].tags| < 3 then |memories[i].tags| else 3
    ensures forall i :: 0 <= i < |shown| ==> shown[i].content == memories[i].content && shown[i].tags <= memories[i].tags
  {
    var first := Strings.Take(memories, 5);
    seq(|first|, i requires 0 <= i < |first| => MemoryItem(first[i].content, Strings.Take(first[i].tags, 3)))
  }

  /** At most three upcoming events are listed, the first three. */
  function ShownEvents(events: seq<EventItem>): (shown: seq<EventItem>)
    ensures |shown| == if |events| < 3 then |events| else 3
    ensures shown <= events
  {
    Strings.Take(events, 3)
  }

  /** The empty state: not loading, and either no report or a report with
      zero conversations and a present, empty list of new memories. */
  function ShowEmptyState(isLoading: bool, report: Option<Report>): (empty: bool)
    ensures isLoading ==> !empty
    ensures !isLoading && report.None? ==> empty
    ensures report.Some? && report.value.newMemories.None? ==> !empty
    ensures report.Some? && report.value.conversationCount != Some(0) ==> !empty
    ensures !isLoading && report.Some? && report.value.conversationCount == Some(0) && report.value.newMemories == Some([]) ==> empty
    ensures report.Some? && report.value.newMemories.Some? && |report.value.newMemories.value| > 0 ==> !empty
  {
    !isLoading &&
    (report.None? ||
     (report.value.conversationCount == Some(0) && report.value.newMemories.Some? && |report.value.newMemories.value| == 0))
  }
}
