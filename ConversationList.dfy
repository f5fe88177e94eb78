/** The conversation list: paging, relative times and call durations.
    Timestamps are integers that may be in seconds or in milliseconds; the
    current time is a parameter. */
module ConversationList {
  import opened Wrappers
  import opened Json

  const PageSize: int := 20

  /** Above this value a timestamp is taken to be in milliseconds. */
  const MillisThreshold: int := 1000000000000

  /** The largest distance from the epoch a JavaScript Date can hold. */
  const MaxDateMillis: int := 8640000000000000

  /** `getNextPageParam`: a nested `data` object inside `lastPage.data` is
      unwrapped before `total` is read. */
  function BusinessData(lastPage: Json): (d: Json)
    ensures var p := Get(lastPage, "data"); HasKey(p, "data") ==> d == Get(p, "data")
    ensures var p := Get(lastPage, "data"); !HasKey(p, "data") ==> d == p
  {
    var serverPayload := Get(lastPage, "data");
    if Truthy(serverPayload) && serverPayload.JObj? && HasKey(serverPayload, "data") then Get(serverPayload, "data")
    else serverPayload
  }

  function NextPageParam(lastPage: Json, pageCount: nat): (next: Option<nat>)
    ensures next.Some? <==> pageCount * PageSize < TotalOf(BusinessData(lastPage))
    ensures next.Some? ==> next.value == pageCount + 1
  {
    var currentTotal := pageCount * PageSize;
    var totalCount := TotalOf(BusinessData(lastPage));
    if currentTotal < totalCount then Some(pageCount + 1) else None
  }

  /** `businessData?.total || 0`, for numeric totals. */
  function TotalOf(payload: Json): (total: int)
    ensures Get(payload, "total").JNum? ==> total == Get(payload, "total").n
    ensures !Get(payload, "total").JNum? ==> total == 0
  {
    match Get(payload, "total")
    case JNum(n) => n
    case _ => 0
  }

  /** A response wrapped once more (`{code, data: {list, total}}`) pages the
      same as the bare one. */
  lemma WrappedPayloadPagesAlike(inner: Json, pageCount: nat)
    requires inner.JObj? && !HasKey(inner, "data")
    ensures NextPageParam(JObj([("data", JObj([("code", JNum(0)), ("data", inner)]))]), pageCount)
         == NextPageParam(JObj([("data", inner)]), pageCount)
  {
    var wrapped := JObj([("code", JNum(0)), ("data", inner)]);
    assert wrapped.fields[1].0 == "data";
    assert Get(JObj([("data", wrapped)]), "data") == wrapped;
    assert Get(JObj([("data", inner)]), "data") == inner;
  }

  /** Timestamps above 10^12 are milliseconds; the rest are seconds. */
  function ToMillis(ts: int): (ms: int)
    ensures ts > MillisThreshold ==> ms == ts
    ensures ts <= MillisThreshold ==> ms == ts * 1000
  {
    if ts > MillisThreshold then ts else ts * 1000
  }

  /** The same instant given in seconds or in milliseconds normalises to
      the same value, for every instant after 2001-09-09 that is not itself
      beyond 10^12 seconds. */
  lemma SecondsAndMillisAgree(seconds: int)
    requires 1000000000 < seconds <= MillisThreshold
    ensures ToMillis(seconds) == ToMillis(seconds * 1000)
  {
  }

  datatype RelativeTime =
    | UnknownTime
    | InvalidDate
    | JustNow
    | MinutesAgo(count: int)
    | HoursAgo(count: int)
    | Older(millis: int)    // today / yesterday / month-day, by the host calendar

  /** Whole seconds elapsed between the timestamp and `now` (milliseconds). */
  function ElapsedSeconds(ms: int, now: int): int
  {
    (now - ms) / 1000
  }

  /** `formatRelativeTime(timestamp)` with `Date.now()` given as `now`. */
  function FormatRelativeTime(timestamp: Option<int>, now: int): (r: RelativeTime)
    ensures timestamp.None? || timestamp.value == 0 <==> r == UnknownTime
    ensures r == InvalidDate <==> timestamp.Some? && timestamp.value != 0 &&
                                  !(-MaxDateMillis <= ToMillis(timestamp.value) <= MaxDateMillis)
    ensures r == JustNow ==> ElapsedSeconds(ToMillis(timestamp.value), now) < 60
    ensures r.MinutesAgo? ==> 1 <= r.count <= 59
    ensures r.MinutesAgo? ==> r.count * 60 <= ElapsedSeconds(ToMillis(timestamp.value), now) < r.count * 60 + 60
    ensures r.HoursAgo? ==> 1 <= r.count <= 23
    ensures r.HoursAgo? ==> r.count * 3600 <= ElapsedSeconds(ToMillis(timestamp.value), now) < r.count * 3600 + 3600
    ensures r.Older? ==> r.millis == ToMillis(timestamp.value) && ElapsedSeconds(r.millis, now) >= 86400
  {
    if timestamp.None? || timestamp.value == 0 then UnknownTime
    else
      var tsInMs := ToMillis(timestamp.value);
      if !(-MaxDateMillis <= tsInMs <= MaxDateMillis) then InvalidDate
      else
        var diff := ElapsedSeconds(tsInMs, now);
        if diff < 60 then JustNow
        else if diff < 3600 then MinutesAgo(diff / 60)
        else if diff < 86400 then HoursAgo(diff / 3600)
        else Older(tsInMs)
  }

  /** Future times, however far ahead, read as "just now". */
  lemma FutureIsJustNow(timestamp: int, now: int)
    requires timestamp != 0 && -MaxDateMillis <= ToMillis(timestamp) <= MaxDateMillis
    requires ToMillis(timestamp) >= now
    ensures FormatRelativeTime(Some(timestamp), now) == JustNow
  {
  }

  /** The buckets follow time: a later `now` never gives a smaller bucket. */
  function BucketRank(r: RelativeTime): int
  {
    match r
    case JustNow => 0
    case MinutesAgo(_) => 1
    case HoursAgo(_) => 2
    case Older(_) => 3
    case _ => -1
  }

  lemma BucketsMonotone(timestamp: int, now1: int, now2: int)
    requires timestamp != 0 && -MaxDateMillis <= ToMillis(timestamp) <= MaxDateMillis
    requires now1 <= now2
    ensures BucketRank(FormatRelativeTime(Some(timestamp), now1)) <= BucketRank(FormatRelativeTime(Some(timestamp), now2))
  {
    var ms := ToMillis(timestamp);
    assert ElapsedSeconds(ms, now1) <= ElapsedSeconds(ms, now2);
  }

  /** A call duration: minutes and seconds, or seconds alone under a minute. */
  datatype Duration = MinSec(min: int, sec: int) | Sec(sec: int)

  /** Seconds for the duration: millisecond values are floored to seconds. */
  function ToSeconds(ts: int): (s: int)
    ensures ts > MillisThreshold ==> s * 1000 <= ts < s * 1000 + 1000
    ensures ts <= MillisThreshold ==> s == ts
  {
    if ts > MillisThreshold then ts / 1000 else ts
  }

  /** `getDuration(start, end)`. */
  function GetDuration(start: Option<int>, end: Option<int>): (r: Option<Duration>)
    ensures start.None? || end.None? || start.value == 0 || end.value == 0 || start.value == end.value ==> r.None?
    ensures start.Some? && end.Some? && ToSeconds(end.value) <= ToSeconds(start.value) ==> r.None?
    ensures r.Some? ==> var d := ToSeconds(end.value) - ToSeconds(start.value);
              d > 0 &&
              (r.value.MinSec? <==> d >= 60) &&
              (r.value.MinSec? ==> r.value.min > 0 && 0 <= r.value.sec < 60 && r.value.min * 60 + r.value.sec == d) &&
              (r.value.Sec? ==> r.value.sec == d)
    ensures (start.Some? && end.Some? && start.value != 0 && end.value != 0 && start.value != end.value &&
             ToSeconds(end.value) > ToSeconds(start.value)) ==> r.Some?
  {
    if start.None? || end.None? || start.value == 0 || end.value == 0 || start.value == end.value then None
    else
      var s := ToSeconds(start.value);
      var e := ToSeconds(end.value);
      var duration := e - s;
      if duration <= 0 then None
      else
        var mins := duration / 60;
        var secs := duration % 60;
        if mins > 0 then Some(MinSec(mins, secs)) else Some(Sec(secs))
  }
}
