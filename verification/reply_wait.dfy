/**
 * The gateway's reply wait (`dispatchMessage`): a listener on the client's
 * single message stream plus a timer. The stream and the timer are
 * modelled as a finite trace of events in delivery order; the first
 * message on the watched topic, or the timer, decides the one outcome,
 * and the listener is removed so every later event is ignored.
 */
module ReplyWait {
  import opened Wrappers
  import opened Json

  /** The timeout used when the caller passes none. */
  const DefaultTimeoutMs: nat := 5000

  datatype Event = Message(topic: string, payload: string) | TimerFired

  /** State of the returned promise after the trace, and the deciding event. */
  datatype Wait =
    | Resolved(value: Value, at: nat)
    | Rejected(reason: string, at: nat)
    | Waiting

  function TimeoutReason(topic: string): string {
    "Timeout: No message received on " + topic
  }

  function ParseFailureReason(topic: string, err: string): string {
    "Failed to parse message on " + topic + ":\n" + err
  }

  /** Events the listener or the timer acts on; all others are ignored. */
  predicate Decides(topic: string, e: Event) {
    e.TimerFired? || e.topic == topic
  }

  /** The outcome fixed by one deciding event. */
  function Decide(topic: string, e: Event, at: nat, parse: string -> Result<Value, string>): Wait
    requires Decides(topic, e)
  {
    if e.TimerFired? then Rejected(TimeoutReason(topic), at)
    else
      match parse(e.payload)
      case Success(v) => Resolved(v, at)
      case Failure(err) => Rejected(ParseFailureReason(topic, err), at)
  }

  function Shift(w: Wait): Wait {
    match w
    case Resolved(v, at) => Resolved(v, at + 1)
    case Rejected(r, at) => Rejected(r, at + 1)
    case Waiting => Waiting
  }

  /**
   * `dispatchMessage(client, topic)` run against `trace`: the promise stays
   * pending exactly when no event decides; otherwise the first deciding
   * event fixes it. A timer rejects with the timeout reason, a matching
   * message resolves with its parse, or rejects when it does not parse.
   */
  function DispatchMessage(topic: string, trace: seq<Event>, parse: string -> Result<Value, string>): (w: Wait)
    ensures w.Waiting? <==> forall i :: 0 <= i < |trace| ==> !Decides(topic, trace[i])
    ensures !w.Waiting? ==>
      && w.at < |trace|
      && Decides(topic, trace[w.at])
      && (forall i :: 0 <= i < w.at ==> !Decides(topic, trace[i]))
      && w == Decide(topic, trace[w.at], w.at, parse)
    decreases |trace|
  {
    if |trace| == 0 then Waiting
    else if Decides(topic, trace[0]) then Decide(topic, trace[0], 0, parse)
    else Shift(DispatchMessage(topic, trace[1..], parse))
  }

  /**
   * Once decided, the listener is gone and the timer cleared: appending
   * any events leaves the outcome unchanged.
   */
  lemma {:induction false} LaterEventsIgnored(topic: string, trace: seq<Event>, more: seq<Event>, parse: string -> Result<Value, string>)
    requires !DispatchMessage(topic, trace, parse).Waiting?
    ensures DispatchMessage(topic, trace + more, parse) == DispatchMessage(topic, trace, parse)
    decreases |trace|
  {
    if !Decides(topic, trace[0]) {
      assert (trace + more)[1..] == trace[1..] + more;
      LaterEventsIgnored(topic, trace[1..], more, parse);
    }
  }

  /** Messages on other topics never reach the caller. */
  lemma OtherTopicsIgnored(topic: string, other: string, payload: string, trace: seq<Event>, parse: string -> Result<Value, string>)
    requires other != topic
    ensures DispatchMessage(topic, [Message(other, payload)] + trace, parse)
         == Shift(DispatchMessage(topic, trace, parse))
  {
    assert ([Message(other, payload)] + trace)[1..] == trace;
  }

  // ---------------------------------------------------------------------
  // Timed deliveries and the timer.
  // ---------------------------------------------------------------------

  /** A message delivered `at` milliseconds after the wait started. */
  datatype Arrival = Arrival(at: nat, topic: string, payload: string)

  /** The deliveries of `arrivals` that happen strictly before `deadline`. */
  function Early(deadline: nat, arrivals: seq<Arrival>): (events: seq<Event>)
    ensures forall i :: 0 <= i < |events| ==> events[i].Message?
    decreases |arrivals|
  {
    if |arrivals| == 0 then []
    else
      var a := arrivals[0];
      (if a.at < deadline then [Message(a.topic, a.payload)] else []) + Early(deadline, arrivals[1..])
  }

  /** The deliveries that happen at or after `deadline`. */
  function Late(deadline: nat, arrivals: seq<Arrival>): seq<Event>
    decreases |arrivals|
  {
    if |arrivals| == 0 then []
    else
      var a := arrivals[0];
      (if a.at >= deadline then [Message(a.topic, a.payload)] else []) + Late(deadline, arrivals[1..])
  }

  /** The stream the listener sees: early deliveries, the timer, the rest. */
  function Schedule(timeoutMs: nat, arrivals: seq<Arrival>): seq<Event> {
    Early(timeoutMs, arrivals) + [TimerFired] + Late(timeoutMs, arrivals)
  }

  /** True when some delivery on `topic` arrives before the deadline. */
  predicate ArrivesInTime(topic: string, timeoutMs: nat, arrivals: seq<Arrival>) {
    exists i :: 0 <= i < |arrivals| && arrivals[i].topic == topic && arrivals[i].at < timeoutMs
  }

  lemma {:induction false} EarlyOnTopic(topic: string, timeoutMs: nat, arrivals: seq<Arrival>)
    ensures (exists j :: 0 <= j < |Early(timeoutMs, arrivals)| && Early(timeoutMs, arrivals)[j].topic == topic)
        <==> ArrivesInTime(topic, timeoutMs, arrivals)
    decreases |arrivals|
  {
    if |arrivals| > 0 {
      var a := arrivals[0];
      var rest := Early(timeoutMs, arrivals[1..]);
      EarlyOnTopic(topic, timeoutMs, arrivals[1..]);
      var head: seq<Event> := if a.at < timeoutMs then [Message(a.topic, a.payload)] else [];
      var all := Early(timeoutMs, arrivals);
      assert all == head + rest;
      if ArrivesInTime(topic, timeoutMs, arrivals) {
        var i :| 0 <= i < |arrivals| && arrivals[i].topic == topic && arrivals[i].at < timeoutMs;
        if i == 0 {
          assert all[0].topic == topic;
        } else {
          assert arrivals[1..][i - 1] == arrivals[i];
          var j :| 0 <= j < |rest| && rest[j].topic == topic;
          assert all[|head| + j] == rest[j];
        }
      }
      if exists j :: 0 <= j < |all| && all[j].topic == topic {
        var j :| 0 <= j < |all| && all[j].topic == topic;
        if j < |head| {
          assert arrivals[0].topic == topic && arrivals[0].at < timeoutMs;
        } else {
          var k := j - |head|;
          assert all[j] == rest[k];
          assert 0 <= k < |rest| && rest[k].topic == topic;
          assert exists j' :: 0 <= j' < |Early(timeoutMs, arrivals[1..])| && Early(timeoutMs, arrivals[1..])[j'].topic == topic;
          assert ArrivesInTime(topic, timeoutMs, arrivals[1..]);
          var i :| 0 <= i < |arrivals[1..]| && arrivals[1..][i].topic == topic && arrivals[1..][i].at < timeoutMs;
          assert arrivals[i + 1] == arrivals[1..][i];
        }
      }
    }
  }

  /** With nothing on the topic before the deadline, no early delivery decides. */
  lemma NoneEarlyOnTopic(topic: string, timeoutMs: nat, arrivals: seq<Arrival>)
    requires !ArrivesInTime(topic, timeoutMs, arrivals)
    ensures forall j :: 0 <= j < |Early(timeoutMs, arrivals)| ==>
      Early(timeoutMs, arrivals)[j].Message? && Early(timeoutMs, arrivals)[j].topic != topic
  {
    EarlyOnTopic(topic, timeoutMs, arrivals);
  }

  /** The timer sits after the early deliveries, so the wait always ends by it. */
  lemma ScheduleDecides(topic: string, timeoutMs: nat, arrivals: seq<Arrival>, parse: string -> Result<Value, string>)
    ensures var w := DispatchMessage(topic, Schedule(timeoutMs, arrivals), parse);
      && !w.Waiting?
      && ((w == Rejected(TimeoutReason(topic), |Early(timeoutMs, arrivals)|)) == !ArrivesInTime(topic, timeoutMs, arrivals))
      && (ArrivesInTime(topic, timeoutMs, arrivals) ==>
            && w.at < |Early(timeoutMs, arrivals)|
            && Early(timeoutMs, arrivals)[w.at].topic == topic
            && (forall i :: 0 <= i < w.at ==> Early(timeoutMs, arrivals)[i].topic != topic)
            && w == Decide(topic, Early(timeoutMs, arrivals)[w.at], w.at, parse))
  {
    var early := Early(timeoutMs, arrivals);
    var trace := Schedule(timeoutMs, arrivals);
    assert trace[|early|] == TimerFired;
    var w := DispatchMessage(topic, trace, parse);
    if ArrivesInTime(topic, timeoutMs, arrivals) {
      EarlyOnTopic(topic, timeoutMs, arrivals);
      var j :| 0 <= j < |early| && early[j].topic == topic;
      assert trace[j] == early[j];
      assert w.at <= j;
      assert trace[w.at] == early[w.at];
      forall i | 0 <= i < w.at ensures early[i].topic != topic {
        assert trace[i] == early[i];
      }
    } else {
      NoneEarlyOnTopic(topic, timeoutMs, arrivals);
      forall i | 0 <= i < |early| ensures !Decides(topic, trace[i]) {
        assert trace[i] == early[i];
      }
      assert w.at == |early|;
    }
  }

  /**
   * `dispatchMessage(client, topic, timeoutMs)` against timed deliveries,
   * with the deadline defaulting to 5000 ms when none is passed: exactly
   * one outcome always occurs, it is the timeout rejection exactly when
   * nothing arrives on the topic before the deadline, and otherwise the
   * first delivery on the topic decides it: its parse, or the parse failure.
   */
  function WaitForReply(topic: string, timeout: Option<nat>, arrivals: seq<Arrival>, parse: string -> Result<Value, string>): (w: Wait)
    ensures !w.Waiting?
    ensures var early := Early(timeout.GetOr(DefaultTimeoutMs), arrivals);
      w == Rejected(TimeoutReason(topic), |early|) <==> !ArrivesInTime(topic, timeout.GetOr(DefaultTimeoutMs), arrivals)
    ensures var early := Early(timeout.GetOr(DefaultTimeoutMs), arrivals);
      ArrivesInTime(topic, timeout.GetOr(DefaultTimeoutMs), arrivals) ==>
        && w.at < |early|
        && early[w.at].topic == topic
        && (forall i :: 0 <= i < w.at ==> early[i].topic != topic)
        && w == Decide(topic, early[w.at], w.at, parse)
  {
    var timeoutMs := timeout.GetOr(DefaultTimeoutMs);
    ScheduleDecides(topic, timeoutMs, arrivals, parse);
    DispatchMessage(topic, Schedule(timeoutMs, arrivals), parse)
  }
}
