/** The analytics tracker: events are queued in memory and sent in batches
    by a timer once the app has started it. Clock readings, random ids and
    the device metadata are parameters. */
module Tracker {
  import opened Wrappers
  import opened Json

  const AppId: string := "voiceagent-rn"
  const SchemaVersion: string := "1.0.0"
  const StartDelay: int := 10000
  const RetryDelay: int := 20000

  /** A payload as sent: string values under string keys. */
  type Payload = seq<(string, string)>

  function Find(fields: Payload, key: string): (r: Option<string>)
    ensures r.None? <==> forall i :: 0 <= i < |fields| ==> fields[i].0 != key
    ensures r.Some? ==> exists i :: 0 <= i < |fields| && fields[i] == (key, r.value)
  {
    if fields == [] then None
    else if fields[0].0 == key then Some(fields[0].1)
    else
      var r := Find(fields[1..], key);
      assert forall i :: 0 <= i < |fields| - 1 ==> fields[1..][i] == fields[i + 1];
      r
  }

  /** No key appears twice (as in a JavaScript object). */
  predicate KeysDistinct<V>(fields: seq<(string, V)>)
  {
    forall i, j :: 0 <= i < j < |fields| ==> fields[i].0 != fields[j].0
  }

  /** Every payload value through `String(...)`, keys and order kept. */
  function Stringify(payload: seq<(string, Json)>): (r: Payload)
    ensures |r| == |payload|
    ensures forall i :: 0 <= i < |r| ==> r[i] == (payload[i].0, ToJsString(payload[i].1))
  {
    if payload == [] then [] else [(payload[0].0, ToJsString(payload[0].1))] + Stringify(payload[1..])
  }

  /** The fields other than `key`, in order. */
  function Without(fields: Payload, key: string): (r: Payload)
    ensures forall i :: 0 <= i < |r| ==> r[i].0 != key
    ensures forall k :: k != key ==> Find(r, k) == Find(fields, k)
  {
    if fields == [] then []
    else if fields[0].0 == key then Without(fields[1..], key)
    else [fields[0]] + Without(fields[1..], key)
  }

  /** `{event: eventName, ...stringified payload}`: `event` comes first and
      a payload key of that name replaces its value. */
  function EventPayload(eventName: string, payload: seq<(string, Json)>): (r: Payload)
    ensures |r| > 0 && r[0].0 == "event"
    ensures Find(r, "event") == Some(match Find(Stringify(payload), "event") case Some(v) => v case None => eventName)
    ensures forall k :: k != "event" ==> Find(r, k) == Find(Stringify(payload), k)
  {
    var stringified := Stringify(payload);
    [("event", Find(stringified, "event").GetOr(eventName))] + Without(stringified, "event")
  }

  /** A payload value is found under its key, stringified. */
  lemma {:induction false} PayloadValueStringified(eventName: string, payload: seq<(string, Json)>, i: int)
    requires KeysDistinct(payload) && 0 <= i < |payload|
    ensures Find(EventPayload(eventName, payload), payload[i].0) == Some(ToJsString(payload[i].1))
  {
    var s := Stringify(payload);
    FindDistinct(s, i);
  }

  lemma {:induction false} FindDistinct(fields: Payload, i: int)
    requires KeysDistinct(fields) && 0 <= i < |fields|
    ensures Find(fields, fields[i].0) == Some(fields[i].1)
  {
    if i > 0 {
      FindDistinct(fields[1..], i - 1);
    }
  }

  /** A queued event. */
  datatype QueuedEvent = QueuedEvent(deviceTs: int, eventId: string, payload: Payload, sendAt: int)

  /** An event as sent to the server. */
  datatype TrackingEvent = TrackingEvent(
    appId: string,
    packageName: string,
    appVersion: string,
    clientId: string,
    deviceTs: int,
    eventId: string,
    payload: Payload,
    platform: string,
    sendAt: int,
    sessionId: string,
    version: string)

  /** The device metadata the tracker reads once. */
  datatype DeviceInfo = DeviceInfo(uniqueId: string, bundleId: string, version: string)

  class Tracker {
    const sessionId: string
    const platform: string
    var clientId: string
    var packageName: string
    var appVersion: string
    var queue: seq<QueuedEvent>
    var sending: bool
    var timerPending: bool
    var initialized: bool
    var started: bool

    /** A send only happens after start. */
    ghost predicate Valid()
      reads this
    {
      sending ==> started
    }

    /** Once started, queued events always have a flush on the way: a
        pending timer or a send in progress. */
    predicate FlushPending()
      reads this
    {
      started && |queue| > 0 ==> timerPending || sending
    }

    /** Events are waiting after start with neither a timer nor a send:
        only a timer leads to a flush, so nothing will send them. */
    predicate Stalled()
      reads this
    {
      started && !sending && !timerPending && |queue| > 0
    }

    constructor (sessionId: string, platform: string)
      ensures Valid()
      ensures this.sessionId == sessionId && this.platform == platform
      ensures queue == [] && !sending && !timerPending && !initialized && !started
      ensures clientId == "" && packageName == "" && appVersion == ""
    {
      this.sessionId := sessionId;
      this.platform := platform;
      clientId := "";
      packageName := "";
      appVersion := "";
      queue := [];
      sending := false;
      timerPending := false;
      initialized := false;
      started := false;
    }

    /** `scheduleFlush`: a timer is set unless one is pending or a send is
        in progress. */
    method ScheduleFlush(delay: int) returns (scheduled: bool)
      requires Valid()
      modifies this`timerPending
      ensures Valid()
      ensures scheduled <==> !old(timerPending) && !sending
      ensures timerPending == (old(timerPending) || scheduled)
    {
      if timerPending || sending {
        return false;
      }
      timerPending := true;
      return true;
    }

    /** `start`: only the first call starts the tracker and asks for a flush. */
    method Start() returns (scheduled: bool)
      requires Valid()
      modifies this`started, this`timerPending
      ensures Valid()
      ensures old(started) ==> !scheduled && unchanged(this)
      ensures !old(started) ==> started && scheduled == (!old(timerPending) && !sending)
      ensures timerPending == (old(timerPending) || scheduled)
    {
      if started {
        return false;
      }
      started := true;
      scheduled := ScheduleFlush(StartDelay);
    }

    /** `track`: exactly one event is appended; the queue is otherwise untouched. */
    method Track(eventName: string, payload: seq<(string, Json)>, now: int, eventId: string)
      modifies this`queue
      ensures queue == old(queue) + [QueuedEvent(now, eventId, EventPayload(eventName, payload), now)]
    {
      queue := queue + [QueuedEvent(now, eventId, EventPayload(eventName, payload), now)];
    }

    /** `trackPageView(p)` is `track("page_view", {page: p})`. */
    method TrackPageView(pageName: string, now: int, eventId: string)
      modifies this`queue
      ensures queue == old(queue) + [QueuedEvent(now, eventId, EventPayload("page_view", [("page", JStr(pageName))]), now)]
    {
      Track("page_view", [("page", JStr(pageName))], now, eventId);
    }

    /** `track` followed by a flush request once the tracker has started:
        the queued event always has a flush on the way. */
    method TrackAndSchedule(eventName: string, payload: seq<(string, Json)>, now: int, eventId: string)
      returns (scheduled: bool)
      requires Valid()
      modifies this`queue, this`timerPending
      ensures Valid()
      ensures queue == old(queue) + [QueuedEvent(now, eventId, EventPayload(eventName, payload), now)]
      ensures scheduled <==> started && !old(timerPending) && !sending
      ensures timerPending == (old(timerPending) || scheduled)
      ensures FlushPending()
    {
      Track(eventName, payload, now, eventId);
      scheduled := false;
      if started {
        scheduled := ScheduleFlush(RetryDelay);
      }
    }

    /** The timer fires: it clears itself before the flush runs. */
    method TimerFired()
      modifies this`timerPending
      ensures !timerPending
    {
      timerPending := false;
    }

    /** The guard at the top of `flush`. */
    method FlushStart() returns (proceeds: bool)
      requires Valid()
      modifies this`sending
      ensures Valid()
      ensures proceeds <==> old(started) && !old(sending) && |queue| > 0
      ensures sending == (old(sending) || proceeds)
    {
      if !started || sending || |queue| == 0 {
        return false;
      }
      sending := true;
      return true;
    }

    /** After the metadata wait: the whole queue becomes one batch, in
        order, and the queue is emptied before the send, so events of a
        failed send are not retried. A failed metadata read (None) leaves
        the fields as they were. `clock` holds the clock reading taken for
        each event's send time, in order. */
    method FlushSnapshot(metadata: Option<DeviceInfo>, clock: seq<int>) returns (batch: seq<TrackingEvent>)
      requires Valid() && sending && |clock| == |queue|
      modifies this`clientId, this`packageName, this`appVersion, this`initialized, this`queue
      ensures Valid()
      ensures queue == []
      ensures |batch| == |old(queue)|
      ensures forall i :: 0 <= i < |batch| ==>
        batch[i] == TrackingEvent(AppId, packageName, appVersion, clientId, old(queue)[i].deviceTs,
          old(queue)[i].eventId, old(queue)[i].payload, platform, clock[i], sessionId, SchemaVersion)
      ensures !old(initialized) && metadata.Some? ==>
        initialized && clientId == metadata.value.uniqueId && packageName == metadata.value.bundleId && appVersion == metadata.value.version
      ensures old(initialized) || metadata.None? ==>
        initialized == old(initialized) && clientId == old(clientId) && packageName == old(packageName) && appVersion == old(appVersion)
    {
      if !initialized && metadata.Some? {
        clientId := metadata.value.uniqueId;
        packageName := metadata.value.bundleId;
        appVersion := metadata.value.version;
        initialized := true;
      }
      batch := [];
      var i := 0;
      while i < |queue|
        invariant 0 <= i <= |queue|
        invariant |batch| == i
        invariant forall k :: 0 <= k < i ==>
          batch[k] == TrackingEvent(AppId, packageName, appVersion, clientId, queue[k].deviceTs,
            queue[k].eventId, queue[k].payload, platform, clock[k], sessionId, SchemaVersion)
      {
        var e := queue[i];
        batch := batch + [TrackingEvent(AppId, packageName, appVersion, clientId, e.deviceTs, e.eventId, e.payload, platform, clock[i], sessionId, SchemaVersion)];
        i := i + 1;
      }
      queue := [];
    }

    /** The `finally` of `flush`: sending ends, and another flush is asked
        for only if events arrived meanwhile. */
    method FlushFinish() returns (scheduled: bool)
      requires Valid()
      modifies this`sending, this`timerPending
      ensures Valid() && !sending
      ensures scheduled ==> |queue| > 0
      ensures scheduled <==> |queue| > 0 && !old(timerPending)
      ensures timerPending == (old(timerPending) || scheduled)
      ensures FlushPending()
    {
      sending := false;
      scheduled := false;
      if |queue| > 0 {
        scheduled := ScheduleFlush(RetryDelay);
      }
    }
  }

  /** A whole flush with nothing tracked meanwhile: every queued event is
      sent once, in order, and the queue ends empty with no new timer. */
  method FlushAll(t: Tracker, metadata: Option<DeviceInfo>, clock: seq<int>) returns (batch: seq<TrackingEvent>)
    requires t.Valid() && t.started && !t.sending && |t.queue| > 0 && |clock| == |t.queue|
    modifies t
    ensures t.Valid() && !t.sending && t.queue == []
    ensures |batch| == |old(t.queue)|
    ensures forall i :: 0 <= i < |batch| ==> batch[i].eventId == old(t.queue)[i].eventId && batch[i].payload == old(t.queue)[i].payload
    ensures t.timerPending == old(t.timerPending)
  {
    var proceeds := t.FlushStart();
    batch := t.FlushSnapshot(metadata, clock);
    var scheduled := t.FlushFinish();
  }

  /** As written, a started tracker whose timer fires on an empty queue
      has no timer left, and an event tracked after that stalls. */
  method EmptyFlushThenTrack(t: Tracker, eventName: string, payload: seq<(string, Json)>, now: int, eventId: string)
    returns (proceeds: bool)
    requires t.Valid() && t.started && !t.sending && t.timerPending && t.queue == []
    modifies t
    ensures !proceeds && t.Stalled() && !t.FlushPending()
  {
    t.TimerFired();
    proceeds := t.FlushStart();
    t.Track(eventName, payload, now, eventId);
  }

  /** Nothing but a timer gets a stalled tracker going again: starting it
      again, tracking and page views all leave it stalled. */
  method StalledStaysStalled(t: Tracker, pageName: string, eventName: string, payload: seq<(string, Json)>, now: int, eventId: string)
    requires t.Valid() && t.Stalled()
    modifies t
    ensures t.Stalled() && |t.queue| == |old(t.queue)| + 2
  {
    var scheduled := t.Start();
    t.Track(eventName, payload, now, eventId);
    t.TrackPageView(pageName, now, eventId);
  }
}
