/** The IoT sensor page (aquasentry-frontend/src/pages/IoTSensors.jsx): the
    `sensors` state cell that each poll overwrites, and the trailing window
    `recentData = sensors.slice(0, 20).reverse()` the charts and the table
    draw. The backend returns readings newest first. */
module IoTSensors {
  import opened Models
  import opened Counting

  /** How many readings the window keeps. */
  const WindowSize: nat := 20

  /** `s` in the opposite order. */
  function Reverse<T>(s: seq<T>): seq<T>
  {
    if s == [] then [] else [s[|s| - 1]] + Reverse(s[..|s| - 1])
  }

  lemma {:induction false} ReverseAt<T>(s: seq<T>)
    ensures |Reverse(s)| == |s|
    ensures forall k :: 0 <= k < |s| ==> Reverse(s)[k] == s[|s| - 1 - k]
  {
    if s != [] {
      var init := s[..|s| - 1];
      ReverseAt(init);
      assert forall k :: 0 < k < |s| ==> Reverse(s)[k] == Reverse(init)[k - 1];
    }
  }

  /** Reversal keeps every element with its multiplicity. */
  lemma {:induction false} ReverseMultiset<T>(s: seq<T>)
    ensures multiset(Reverse(s)) == multiset(s)
  {
    if s != [] {
      var init := s[..|s| - 1];
      ReverseMultiset(init);
      assert s == init + [s[|s| - 1]];
    }
  }

  /** `recentData`: the `WindowSize` newest readings, oldest first. */
  function RecentData(sensors: seq<SensorReading>): (r: seq<SensorReading>)
    ensures |r| == if |sensors| < WindowSize then |sensors| else WindowSize
    ensures forall k :: 0 <= k < |r| ==> r[k] == sensors[|r| - 1 - k]
  {
    var newest := Take(sensors, WindowSize);
    ReverseAt(newest);
    Reverse(newest)
  }

  /** The window is empty exactly when there are no readings. */
  lemma RecentEmptyIff(sensors: seq<SensorReading>)
    ensures RecentData(sensors) == [] <==> sensors == []
  {
  }

  /** The last point of a non-empty window is the newest reading. */
  lemma RecentEndsWithNewest(sensors: seq<SensorReading>)
    requires sensors != []
    ensures RecentData(sensors)[|RecentData(sensors)| - 1] == sensors[0]
  {
  }

  /** Readings as the backend returns them: timestamps never increase. */
  ghost predicate NewestFirst(s: seq<SensorReading>)
  {
    forall i, j :: 0 <= i < j < |s| ==> s[i].timestamp >= s[j].timestamp
  }

  /** Readings in chart order: timestamps never decrease. */
  ghost predicate Chronological(s: seq<SensorReading>)
  {
    forall i, j :: 0 <= i < j < |s| ==> s[i].timestamp <= s[j].timestamp
  }

  /** Over a newest-first payload the window is in chronological order. */
  lemma RecentIsChronological(sensors: seq<SensorReading>)
    requires NewestFirst(sensors)
    ensures Chronological(RecentData(sensors))
  {
    var r := RecentData(sensors);
    forall i, j | 0 <= i < j < |r| ensures r[i].timestamp <= r[j].timestamp {
      assert r[i] == sensors[|r| - 1 - i] && r[j] == sensors[|r| - 1 - j];
    }
  }

  /** The window holds exactly the `WindowSize` newest readings, each as many
      times as there, so it introduces no duplicate and drops none. */
  lemma RecentIsNewestPermuted(sensors: seq<SensorReading>)
    ensures multiset(RecentData(sensors)) == multiset(Take(sensors, WindowSize))
  {
    var newest := Take(sensors, WindowSize);
    ReverseAt(newest);
    ReverseMultiset(newest);
  }

  /** Windowing the window does not give the window back: it restores the
      newest-first prefix. */
  lemma RecentTwice(sensors: seq<SensorReading>)
    ensures RecentData(RecentData(sensors)) == Take(sensors, WindowSize)
  {
    var r := RecentData(sensors);
    var rr := RecentData(r);
    assert |rr| == |Take(sensors, WindowSize)|;
    forall k | 0 <= k < |rr| ensures rr[k] == Take(sensors, WindowSize)[k] {
      assert rr[k] == r[|rr| - 1 - k];
    }
  }

  /** The sensor page's state: the last payload a poll delivered. */
  class SensorsPage {
    var sensors: seq<SensorReading>
    // how many `GET sensors/` requests have been issued
    var requestsIssued: nat
    // requests issued whose response has not arrived yet
    ghost var pendingFetches: nat

    /** Mounting starts with no readings and issues the first fetch at once. */
    constructor ()
      ensures sensors == [] && requestsIssued == 1 && pendingFetches == 1
    {
      sensors := [];
      requestsIssued := 1;
      pendingFetches := 1;
    }

    /** A tick of the 5-second interval issues another fetch, whether or not an earlier one is still pending. */
    method PollTick()
      modifies this
      ensures sensors == old(sensors)
      ensures requestsIssued == old(requestsIssued) + 1 && pendingFetches == old(pendingFetches) + 1
    {
      requestsIssued := requestsIssued + 1;
      pendingFetches := pendingFetches + 1;
    }

    /** `fetchData` settles: a payload replaces `sensors` wholesale, a failure leaves it as it was. */
    method FetchSettled(result: Option<seq<SensorReading>>)
      requires pendingFetches > 0
      modifies this
      ensures sensors == if result.Some? then result.value else old(sensors)
      ensures requestsIssued == old(requestsIssued) && pendingFetches == old(pendingFetches) - 1
    {
      match result {
        case Some(payload) => sensors := payload;
        case None =>
      }
      pendingFetches := pendingFetches - 1;
    }

    /** What the charts and the table draw. */
    function Recent(): seq<SensorReading>
      reads this
    {
      RecentData(sensors)
    }

    /** The "No sensor data available" row is shown exactly when there are no readings at all. */
    predicate ShowsNoData()
      reads this
      ensures ShowsNoData() <==> sensors == []
    {
      |Recent()| == 0
    }
  }
}
