/**
 * The alarm service of the docker monitor: Docker container lifecycle events
 * are classified into alarm records, and a loop consumes the event stream,
 * opening a new subscription whenever one ends or fails with an API error.
 *
 * The unbounded `while True` loop is modelled over a finite sequence of
 * subscriptions, each given by the events it delivered and how it ended.
 */
module Alarms {
  import opened Options

  /** Classification string carried by every alarm. */
  const Namespace: string := "dojot.docker.container"

  /** Alarm category carried by every alarm. */
  const Domain: string := "docker container status change"

  datatype Severity = Major | Clear

  /** The container an alarm is about. */
  datatype Subject = Subject(container: string, image: string)

  /** An alarm record, one per classified event. */
  datatype Alarm = Alarm(
    namespace: string,
    domain: string,
    eventTimestamp: int,
    description: string,
    severity: Severity,
    primarySubject: Subject)

  /**
   * A container event as decoded from the stream: its action, its time, and
   * the name and image among its actor's attributes.
   */
  datatype Event = Event(action: string, time: int, actorName: string, actorImage: string)

  /** The actions that raise an alarm; every other action is dropped. */
  predicate IsMonitored(action: string) {
    action == "die" || action == "stop" || action == "start" || action == "pause" || action == "unpause"
  }

  /** The actions whose alarm has severity Major. */
  predicate IsDown(action: string) {
    action == "die" || action == "stop" || action == "pause"
  }

  /**
   * The alarm for one event, if its action is monitored. The alarm carries
   * the constant namespace and domain, the event's time unchanged, and the
   * actor's name and image; it is Major for die, stop and pause and Clear
   * for start and unpause.
   */
  function Classify(e: Event): (r: Option<Alarm>)
    ensures r.Some? <==> IsMonitored(e.action)
    ensures r.Some? ==>
      r.value.namespace == Namespace && r.value.domain == Domain &&
      r.value.eventTimestamp == e.time &&
      r.value.primarySubject == Subject(e.actorName, e.actorImage)
    ensures r.Some? ==> (r.value.severity == Major <==> IsDown(e.action))
  {
    if !IsMonitored(e.action) then None
    else
      var subject := Subject(e.actorName, e.actorImage);
      var alarm := Alarm(Namespace, Domain, e.time, "", Major, subject);
      if e.action == "die" || e.action == "stop" then
        Some(alarm.(description := "container went down", severity := Major))
      else if e.action == "start" then
        Some(alarm.(description := "container went up", severity := Clear))
      else if e.action == "pause" then
        Some(alarm.(description := "container processes were paused", severity := Major))
      else
        Some(alarm.(description := "container processes were unpaused", severity := Clear))
  }

  /** The description and severity each monitored action yields. */
  lemma ClassificationTable(e: Event)
    ensures e.action == "die" || e.action == "stop" ==>
      Classify(e).Some? && Classify(e).value.description == "container went down" && Classify(e).value.severity == Major
    ensures e.action == "start" ==>
      Classify(e).Some? && Classify(e).value.description == "container went up" && Classify(e).value.severity == Clear
    ensures e.action == "pause" ==>
      Classify(e).Some? && Classify(e).value.description == "container processes were paused" &&
      Classify(e).value.severity == Major
    ensures e.action == "unpause" ==>
      Classify(e).Some? && Classify(e).value.description == "container processes were unpaused" &&
      Classify(e).value.severity == Clear
  {
  }

  // ---------------------------------------------------------------------------
  // One subscription

  /** Number of monitored events in a stream. */
  function CountMonitored(events: seq<Event>): (n: nat)
    ensures n <= |events|
  {
    if events == [] then 0
    else (if IsMonitored(events[0].action) then 1 else 0) + CountMonitored(events[1..])
  }

  /** The alarms one subscription's events give, in stream order: a filter-map of `Classify`. */
  function StreamAlarms(events: seq<Event>): (r: seq<Alarm>)
    ensures |r| == CountMonitored(events)
  {
    if events == [] then []
    else
      match Classify(events[0])
      case Some(a) => [a] + StreamAlarms(events[1..])
      case None => StreamAlarms(events[1..])
  }

  /** Consuming a stream in two parts gives the alarms of each part, one after the other. */
  lemma {:induction false} StreamAlarmsAppend(a: seq<Event>, b: seq<Event>)
    ensures StreamAlarms(a + b) == StreamAlarms(a) + StreamAlarms(b)
  {
    if a != [] {
      assert (a + b)[0] == a[0];
      assert (a + b)[1..] == a[1..] + b;
      StreamAlarmsAppend(a[1..], b);
      match Classify(a[0])
      case Some(x) =>
        assert StreamAlarms(a + b) == [x] + StreamAlarms(a[1..] + b);
      case None =>
    } else {
      assert a + b == b;
    }
  }

  /**
   * One alarm per monitored event, in order: the monitored event at position
   * `i` yields the alarm at the index that counts the monitored events before it.
   */
  lemma {:induction false} AlarmOfEvent(events: seq<Event>, i: nat)
    requires i < |events| && IsMonitored(events[i].action)
    ensures CountMonitored(events[..i]) < |StreamAlarms(events)|
    ensures Some(StreamAlarms(events)[CountMonitored(events[..i])]) == Classify(events[i])
  {
    if i == 0 {
      assert events[..0] == [];
    } else {
      AlarmOfEvent(events[1..], i - 1);
      assert events[1..][..i - 1] == events[..i][1..];
      assert events[..i][0] == events[0];
    }
  }

  /** Every alarm of a stream is the classification of one of its events. */
  lemma {:induction false} AlarmHasEvent(events: seq<Event>, k: nat)
    requires k < |StreamAlarms(events)|
    ensures exists i :: 0 <= i < |events| && Classify(events[i]) == Some(StreamAlarms(events)[k])
  {
    if events != [] {
      match Classify(events[0])
      case Some(a) =>
        if k == 0 {
          assert Classify(events[0]) == Some(StreamAlarms(events)[0]);
        } else {
          AlarmHasEvent(events[1..], k - 1);
          var i :| 0 <= i < |events[1..]| && Classify(events[1..][i]) == Some(StreamAlarms(events[1..])[k - 1]);
          assert Classify(events[i + 1]) == Some(StreamAlarms(events)[k]);
        }
      case None =>
        AlarmHasEvent(events[1..], k);
        var i :| 0 <= i < |events[1..]| && Classify(events[1..][i]) == Some(StreamAlarms(events[1..])[k]);
        assert Classify(events[i + 1]) == Some(StreamAlarms(events)[k]);
    }
  }

  // ---------------------------------------------------------------------------
  // The monitoring loop across subscriptions

  /**
   * How a subscription ended: the stream ran out, it raised the client's
   * APIError (caught; the loop subscribes again), or it raised another
   * exception (not caught; the monitoring thread ends).
   */
  datatype Ending = Exhausted | ApiErrorRaised | OtherErrorRaised

  /** One subscription: the events it delivered before it ended, and how it ended. */
  datatype Subscription = Subscription(events: seq<Event>, ending: Ending)

  /** Whether no subscription in `subs` ends the thread. */
  predicate Survives(subs: seq<Subscription>) {
    subs == [] || (subs[0].ending != OtherErrorRaised && Survives(subs[1..]))
  }

  /** `subs` survives exactly when none of its subscriptions raised an exception other than an APIError. */
  lemma {:induction false} SurvivesIffNoFatal(subs: seq<Subscription>)
    ensures Survives(subs) <==> forall i :: 0 <= i < |subs| ==> subs[i].ending != OtherErrorRaised
  {
    if subs != [] {
      SurvivesIffNoFatal(subs[1..]);
      assert forall i :: 1 <= i < |subs| ==> subs[i] == subs[1..][i - 1];
    }
  }

  /**
   * The alarms logged while consuming `subs` in turn: each subscription's
   * alarms, until one ends with an exception other than an APIError.
   */
  function Monitor(subs: seq<Subscription>): seq<Alarm> {
    if subs == [] then []
    else StreamAlarms(subs[0].events) + (if subs[0].ending == OtherErrorRaised then [] else Monitor(subs[1..]))
  }

  /** Number of subscriptions opened: all of them, or up to the one that ends the thread. */
  function Opened(subs: seq<Subscription>): (n: nat)
    ensures n <= |subs|
  {
    if subs == [] then 0
    else if subs[0].ending == OtherErrorRaised then 1
    else 1 + Opened(subs[1..])
  }

  /**
   * Every subscription is opened while none ends the thread; otherwise the
   * last one opened is the first that raised an exception other than an
   * APIError.
   */
  lemma {:induction false} OpenedUpToFatal(subs: seq<Subscription>)
    ensures Survives(subs) ==> Opened(subs) == |subs|
    ensures !Survives(subs) ==>
      0 < Opened(subs) && subs[Opened(subs) - 1].ending == OtherErrorRaised && Survives(subs[..Opened(subs) - 1])
  {
    if subs != [] {
      if subs[0].ending == OtherErrorRaised {
        assert subs[..0] == [];
      } else {
        var tail := subs[1..];
        OpenedUpToFatal(tail);
        if !Survives(tail) {
          var n := Opened(tail);
          assert subs[n] == tail[n - 1];
          var front := subs[..n];
          assert front[0] == subs[0] && front[1..] == tail[..n - 1];
        }
      }
    }
  }

  /** Unfolding the loop's specification at the subscription `subs[i]`. */
  lemma MonitorStep(subs: seq<Subscription>, i: nat)
    requires i < |subs|
    ensures Monitor(subs[i..]) ==
      StreamAlarms(subs[i].events) + (if subs[i].ending == OtherErrorRaised then [] else Monitor(subs[i + 1..]))
    ensures Opened(subs[i..]) == if subs[i].ending == OtherErrorRaised then 1 else 1 + Opened(subs[i + 1..])
    ensures Survives(subs[i..]) == (subs[i].ending != OtherErrorRaised && Survives(subs[i + 1..]))
  {
  }

  /**
   * While no subscription has ended the thread, the alarms split at any
   * subscription boundary: those of the subscriptions before it, then those
   * of the rest.
   */
  lemma {:induction false} MonitorSplit(subs: seq<Subscription>, i: nat)
    requires i <= |subs| && Survives(subs[..i])
    ensures Monitor(subs) == Monitor(subs[..i]) + Monitor(subs[i..])
  {
    if i > 0 {
      var front := subs[..i];
      assert front[0] == subs[0] && front[1..] == subs[1..][..i - 1];
      assert subs[1..][i - 1..] == subs[i..];
      MonitorSplit(subs[1..], i - 1);
      ConcatAssoc(StreamAlarms(subs[0].events), Monitor(subs[1..][..i - 1]), Monitor(subs[i..]));
    } else {
      assert subs[..0] == [] && subs[0..] == subs;
    }
  }

  /**
   * Resubscription: after a subscription that failed with an APIError, the
   * events of the next subscription are still classified, and their alarms
   * follow those logged so far.
   */
  lemma ResubscribeAfterApiError(subs: seq<Subscription>, i: nat)
    requires i + 1 < |subs| && subs[i].ending == ApiErrorRaised && Survives(subs[..i + 1])
    ensures Monitor(subs) ==
      Monitor(subs[..i + 1]) + StreamAlarms(subs[i + 1].events) +
      (if subs[i + 1].ending == OtherErrorRaised then [] else Monitor(subs[i + 2..]))
  {
    MonitorSplit(subs, i + 1);
    MonitorStep(subs, i + 1);
    var rest := if subs[i + 1].ending == OtherErrorRaised then [] else Monitor(subs[i + 2..]);
    ConcatAssoc(Monitor(subs[..i + 1]), StreamAlarms(subs[i + 1].events), rest);
  }

  /** The events of all subscriptions, in the order they were delivered. */
  function AllEvents(subs: seq<Subscription>): seq<Event> {
    if subs == [] then [] else subs[0].events + AllEvents(subs[1..])
  }

  /**
   * Across reconnects, while the thread survives, the log holds exactly one
   * alarm per monitored event of the concatenated streams, in order.
   */
  lemma {:induction false} MonitorAcrossReconnects(subs: seq<Subscription>)
    requires Survives(subs)
    ensures Monitor(subs) == StreamAlarms(AllEvents(subs))
  {
    if subs != [] {
      MonitorAcrossReconnects(subs[1..]);
      StreamAlarmsAppend(subs[0].events, AllEvents(subs[1..]));
    }
  }

  /** An exception other than an APIError ends monitoring: later subscriptions log nothing. */
  lemma StopsOnOtherError(subs: seq<Subscription>, i: nat)
    requires i < |subs| && subs[i].ending == OtherErrorRaised && Survives(subs[..i])
    ensures Monitor(subs) == Monitor(subs[..i]) + StreamAlarms(subs[i].events)
  {
    MonitorSplit(subs, i);
    MonitorStep(subs, i);
  }

  /** Consuming one subscription: the alarm of every monitored event, in stream order. */
  method Consume(events: seq<Event>) returns (alarms: seq<Alarm>)
    ensures alarms == StreamAlarms(events)
  {
    alarms := [];
    for k := 0 to |events|
      invariant alarms == StreamAlarms(events[..k])
    {
      var event := events[k];
      var alarm := Classify(event);
      StreamAlarmsAppend(events[..k], [event]);
      assert events[..k + 1] == events[..k] + [event];
      if alarm.Some? {
        alarms := alarms + [alarm.value];
      }
    }
    assert events[..|events|] == events;
  }

  /**
   * The monitoring loop: subscribe, log the alarm of every monitored event,
   * and on the end of the stream or an APIError subscribe again; an exception
   * of any other kind ends the loop. Returns the logged alarms, the number of
   * subscriptions opened and whether the loop ended.
   */
  method Run(subs: seq<Subscription>) returns (logged: seq<Alarm>, subscribed: nat, stopped: bool)
    ensures logged == Monitor(subs)
    ensures subscribed == Opened(subs)
    ensures stopped <==> !Survives(subs)
  {
    logged, subscribed, stopped := [], 0, false;
    while subscribed < |subs|
      invariant subscribed <= |subs|
      invariant Monitor(subs) == logged + Monitor(subs[subscribed..])
      invariant Opened(subs) == subscribed + Opened(subs[subscribed..])
      invariant Survives(subs) == Survives(subs[subscribed..])
    {
      var subscription := subs[subscribed];
      var alarms := Consume(subscription.events);
      RunStep(subs, subscribed, logged, alarms);
      logged := logged + alarms;
      subscribed := subscribed + 1;
      if subscription.ending == OtherErrorRaised {
        stopped := true;
        return;
      }
    }
    assert subs[subscribed..] == [];
  }

  /** One iteration of the monitoring loop keeps its invariant, or ends it with the final values. */
  lemma RunStep(subs: seq<Subscription>, i: nat, logged: seq<Alarm>, alarms: seq<Alarm>)
    requires i < |subs| && alarms == StreamAlarms(subs[i].events)
    requires Monitor(subs) == logged + Monitor(subs[i..])
    requires Opened(subs) == i + Opened(subs[i..])
    requires Survives(subs) == Survives(subs[i..])
    ensures subs[i].ending != OtherErrorRaised ==>
      Monitor(subs) == (logged + alarms) + Monitor(subs[i + 1..]) &&
      Opened(subs) == (i + 1) + Opened(subs[i + 1..]) &&
      Survives(subs) == Survives(subs[i + 1..])
    ensures subs[i].ending == OtherErrorRaised ==>
      Monitor(subs) == logged + alarms && Opened(subs) == i + 1 && !Survives(subs)
  {
    MonitorStep(subs, i);
    var rest := Monitor(subs[i + 1..]);
    if subs[i].ending != OtherErrorRaised {
      ConcatAssoc(logged, alarms, rest);
    } else {
      assert alarms + [] == alarms;
    }
  }

  /** Concatenation is associative (stated apart so that its proof sees nothing else). */
  lemma ConcatAssoc<T>(a: seq<T>, b: seq<T>, c: seq<T>)
    ensures a + (b + c) == (a + b) + c
  {
  }
}
