/** The emotion page: the emotion styling table, the chart's window over
    the timeline and its axis labels, the day-range picker and the
    per-log trigger cap. */
module Emotions {
  import opened Wrappers
  import Strings

  /** How an emotion is drawn. */
  datatype EmotionStyle = EmotionStyle(name: string, color: string, icon: string)

  const NeutralStyle: EmotionStyle := EmotionStyle("平常", "#6b7280", "emoticon-neutral-outline")

  const EmotionConfig: seq<(string, EmotionStyle)> := [
    ("happy", EmotionStyle("开心", "#10b981", "emoticon-happy")),
    ("sad", EmotionStyle("难过", "#6366f1", "emoticon-sad")),
    ("anxious", EmotionStyle("焦虑", "#f59e0b", "emoticon-confused")),
    ("calm", EmotionStyle("平静", "#06b6d4", "emoticon-neutral")),
    ("angry", EmotionStyle("生气", "#ef4444", "emoticon-angry")),
    ("excited", EmotionStyle("兴奋", "#ec4899", "emoticon-excited")),
    ("neutral", NeutralStyle)
  ]

  function LookupStyle(table: seq<(string, EmotionStyle)>, key: string): (r: Option<EmotionStyle>)
    ensures r.None? <==> forall i :: 0 <= i < |table| ==> table[i].0 != key
    ensures r.Some? ==> exists i :: 0 <= i < |table| && table[i] == (key, r.value)
  {
    if table == [] then None
    else if table[0].0 == key then Some(table[0].1)
    else LookupStyle(table[1..], key)
  }

  /** `getEmotionConfig(emotion)`: the emotion's own entry, or the neutral
      one for an emotion the table does not list. */
  function GetEmotionConfig(emotion: string): (style: EmotionStyle)
    ensures (forall i :: 0 <= i < |EmotionConfig| ==> EmotionConfig[i].0 != emotion) ==> style == NeutralStyle
    ensures forall i :: 0 <= i < |EmotionConfig| && EmotionConfig[i].0 == emotion ==> style == EmotionConfig[i].1
  {
    LookupStyle(EmotionConfig, emotion).GetOr(NeutralStyle)
  }

  /** One point of the emotion timeline. */
  datatype TimelinePoint = TimelinePoint(date: string, emotion: string, intensity: int)

  const ChartWindow: nat := 14

  /** `stats?.timeline?.length ? timeline.slice(-14) : no chart`: the last
      (at most) fourteen points, in their original order. */
  function ChartTimeline(timeline: Option<seq<TimelinePoint>>): (chart: Option<seq<TimelinePoint>>)
    ensures chart.None? <==> timeline.None? || |timeline.value| == 0
    ensures chart.Some? ==> |chart.value| == if |timeline.value| < ChartWindow then |timeline.value| else ChartWindow
    ensures chart.Some? ==> chart.value == timeline.value[|timeline.value| - |chart.value|..]
  {
    if timeline.None? || |timeline.value| == 0 then None
    else
      var window := Strings.TakeLast(timeline.value, ChartWindow);
      assert window == timeline.value[|timeline.value| - |window|..];
      Some(window)
  }

  /** Whether point `i` of an `n`-point chart gets an axis label. */
  predicate Labelled(i: int, n: int)
  {
    i % 3 == 0 || i == n - 1
  }

  /** The labelled indices among `from .. n-1`, in increasing order
      (`timeline.filter((_, i) => i % 3 === 0 || i === timeline.length - 1)`). */
  function LabelIndices(from: nat, n: nat): (r: seq<nat>)
    requires from <= n
    ensures forall k :: 0 <= k < |r| ==> from <= r[k] < n && Labelled(r[k], n)
    ensures forall k, l :: 0 <= k < l < |r| ==> r[k] < r[l]
    ensures forall i :: from <= i < n && Labelled(i, n) ==> i in r
    decreases n - from
  {
    if from == n then []
    else if Labelled(from, n) then [from] + LabelIndices(from + 1, n)
    else LabelIndices(from + 1, n)
  }

  /** The last point of a non-empty chart always has a label, and so does the first. */
  lemma EndsLabelled(n: nat)
    requires n > 0
    ensures n - 1 in LabelIndices(0, n)
    ensures LabelIndices(0, n)[0] == 0
  {
  }

  /** The axis labels: the dates of the labelled points, in order. */
  function AxisLabels(chart: seq<TimelinePoint>): (labels: seq<string>)
    ensures |labels| == |LabelIndices(0, |chart|)|
    ensures forall k :: 0 <= k < |labels| ==> labels[k] == MonthDay(chart[LabelIndices(0, |chart|)[k]].date)
  {
    var idx := LabelIndices(0, |chart|);
    seq(|idx|, k requires 0 <= k < |idx| => MonthDay(chart[idx[k]].date))
  }

  /** `date.slice(5)`: the date without its first five characters (the
      year and its dash), or "" for a shorter date. */
  function MonthDay(date: string): (md: string)
    ensures |date| >= 5 ==> date[..5] + md == date
    ensures |date| < 5 ==> md == ""
  {
    if |date| <= 5 then "" else date[5..]
  }

  /** An ISO day "YYYY-MM-DD" is labelled "MM-DD". */
  lemma MonthDayOfIsoDate(year: string, month: string, day: string)
    requires |year| == 4 && |month| == 2 && |day| == 2
    ensures MonthDay(year + "-" + month + "-" + day) == month + "-" + day
  {
    var date := year + "-" + month + "-" + day;
    assert date[..5] == year + "-";
    assert date[5..] == month + "-" + day;
  }

  /** The day ranges offered. */
  const DayChoices: seq<int> := [7, 30, 90]

  /** The subtitle: the server's range text, or "最近{days}天" for the
      selected number of days. */
  function RangeText(dateRange: Option<string>, days: int): (text: string)
    ensures dateRange.Some? && dateRange.value != "" ==> text == dateRange.value
    ensures dateRange.None? || dateRange.value == "" ==> text == "最近" + Strings.IntToString(days) + "天"
  {
    if dateRange.Some? && dateRange.value != "" then dateRange.value
    else "最近" + Strings.IntToString(days) + "天"
  }

  /** At most three triggers are shown for a log, the first three. */
  function ShownTriggers(triggers: seq<string>): (shown: seq<string>)
    ensures |shown| == if |triggers| < 3 then |triggers| else 3
    ensures shown <= triggers
    ensures |triggers| <= 3 ==> shown == triggers
  {
    Strings.Take(triggers, 3)
  }
}
