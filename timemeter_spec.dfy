/** Value-level semantics of the TimeMeter helper.

    A meter is a table from dot name to timestamp, the timestamp taken when the
    meter was created, and the optionally selected current event. Timestamps are
    integer clock ticks; every operation that reads the clock takes the reading
    as an explicit `now` argument. Failures are `None`, so a zero duration is a
    success distinct from a failure.
 */
module TimeMeterSpec {

  datatype Option<T> = None | Some(value: T)

  /** The default argument of `timeBetween`: "no dot", an ordinary string. */
  const Sentinel: string := "#"
  /** Prefixes of the dot names that `start` and `end` stamp. */
  const StartPrefix: string := "start_"
  const EndPrefix: string := "end_"

  datatype Meter = Meter(times: map<string, int>, creationTime: int, currentEvent: Option<string>)

  /** PHP `abs` on an integer difference. */
  function Abs(x: int): (r: int)
    ensures r >= 0
    ensures r == x || r == -x
  {
    if x < 0 then -x else x
  }

  /** PHP `empty` applied to the current-event slot: unset, "" and "0" are empty. */
  predicate IsEmptyName(e: Option<string>)
  {
    e.None? || e.value == "" || e.value == "0"
  }

  function StartName(e: string): string { StartPrefix + e }

  function EndName(e: string): string { EndPrefix + e }

  /** A fresh meter created at clock reading `now`. */
  function Create(now: int): (r: Meter)
    ensures forall n :: !DotExists(r, n)
    ensures r.creationTime == now
    ensures GetCurrentEvent(r) == None
  {
    Meter(map[], now, None)
  }

  /** `newDot`: stamp `name` with the current clock reading, overwriting
      any earlier stamp of the same name. */
  function NewDot(m: Meter, name: string, now: int): (r: Meter)
    ensures DotExists(r, name) && r.times[name] == now
    ensures forall n :: n != name ==> (DotExists(r, n) <==> DotExists(m, n))
    ensures forall n :: n != name && n in m.times ==> n in r.times && r.times[n] == m.times[n]
    ensures r.creationTime == m.creationTime && r.currentEvent == m.currentEvent
  {
    m.(times := m.times[name := now])
  }

  /** `dotExists`: whether `name` has been stamped. */
  predicate DotExists(m: Meter, name: string)
    ensures DotExists(m, name) <==> name in m.times.Keys
  {
    name in m.times
  }

  /** `event` (through `setCurrentEvent`): select the current event. */
  function Event(m: Meter, name: string): (r: Meter)
    ensures r.currentEvent == Some(name)
    ensures r.times == m.times && r.creationTime == m.creationTime
  {
    m.(currentEvent := Some(name))
  }

  /** `getCurrentEvent`: the selected event, or failure when it is PHP-empty. */
  function GetCurrentEvent(m: Meter): (r: Option<string>)
    ensures r.None? <==> IsEmptyName(m.currentEvent)
    ensures r.Some? ==> r == m.currentEvent && r.value != "" && r.value != "0"
  {
    if IsEmptyName(m.currentEvent) then None else m.currentEvent
  }

  /** `start`: stamp the start dot of the current event. */
  function Start(m: Meter, now: int): (r: Option<Meter>)
    ensures r.None? <==> IsEmptyName(m.currentEvent)
    ensures r.Some? ==>
      r.value.times == m.times[StartName(m.currentEvent.value) := now] &&
      r.value.creationTime == m.creationTime && r.value.currentEvent == m.currentEvent
  {
    var event := GetCurrentEvent(m);
    if event.None? then None else Some(NewDot(m, StartPrefix + event.value, now))
  }

  /** `end`: stamp the end dot of the current event. */
  function End(m: Meter, now: int): (r: Option<Meter>)
    ensures r.None? <==> IsEmptyName(m.currentEvent)
    ensures r.Some? ==>
      r.value.times == m.times[EndName(m.currentEvent.value) := now] &&
      r.value.creationTime == m.creationTime && r.value.currentEvent == m.currentEvent
  {
    var event := GetCurrentEvent(m);
    if event.None? then None else Some(NewDot(m, EndPrefix + event.value, now))
  }

  /** `timeBetween(dot1, dot2)`: the absolute distance between two endpoints.
      A sentinel first endpoint means "creation until now" and ignores `dot2`;
      a sentinel second endpoint means "creation time" (not the clock). A named
      endpoint that was never stamped is a failure. */
  function TimeBetween(m: Meter, dot1: string, dot2: string, now: int): (r: Option<int>)
    ensures r.Some? ==> r.value >= 0
    ensures r.None? <==>
      dot1 != Sentinel && (!DotExists(m, dot1) || (dot2 != Sentinel && !DotExists(m, dot2)))
  {
    if dot1 != Sentinel then
      if dot1 !in m.times then None
      else
        var dot1Time := m.times[dot1];
        if dot2 != Sentinel then
          if dot2 !in m.times then None
          else Some(Abs(m.times[dot2] - dot1Time))
        else
          Some(Abs(m.creationTime - dot1Time))
    else
      Some(Abs(now - m.creationTime))
  }

  /** `time`: the duration of the current event. A missing start or end dot
      is replaced by the sentinel before delegating to `timeBetween`. */
  function Time(m: Meter, now: int): (r: Option<int>)
    ensures r.None? <==> IsEmptyName(m.currentEvent)
    ensures !IsEmptyName(m.currentEvent) && !DotExists(m, StartName(m.currentEvent.value)) ==>
      r == Some(Abs(now - m.creationTime))
    ensures !IsEmptyName(m.currentEvent) && DotExists(m, StartName(m.currentEvent.value)) &&
            !DotExists(m, EndName(m.currentEvent.value)) ==>
      r == Some(Abs(m.times[StartName(m.currentEvent.value)] - m.creationTime))
    ensures !IsEmptyName(m.currentEvent) && DotExists(m, StartName(m.currentEvent.value)) &&
            DotExists(m, EndName(m.currentEvent.value)) ==>
      r == Some(Abs(m.times[EndName(m.currentEvent.value)] - m.times[StartName(m.currentEvent.value)]))
  {
    var event := GetCurrentEvent(m);
    if event.None? then None
    else
      var startName := StartPrefix + event.value;
      var startName := if DotExists(m, startName) then startName else Sentinel;
      var endName := EndPrefix + event.value;
      var endName := if DotExists(m, endName) then endName else Sentinel;
      TimeBetween(m, startName, endName, now)
  }

  /** Neither generated dot name is ever the sentinel. */
  lemma EventNamesNotSentinel(e: string)
    ensures StartName(e) != Sentinel && EndName(e) != Sentinel
  {
  }

  /** A start dot name never equals an end dot name, whatever the events. */
  lemma {:induction false} StartEndNamesDiffer(e1: string, e2: string)
    ensures StartName(e1) != EndName(e2)
  {
    assert StartName(e1)[0] == 's';
    assert EndName(e2)[0] == 'e';
  }

  /** Distinct events have distinct start dots and distinct end dots. */
  lemma {:induction false} EventNamesInjective(e1: string, e2: string)
    ensures StartName(e1) == StartName(e2) ==> e1 == e2
    ensures EndName(e1) == EndName(e2) ==> e1 == e2
  {
    if StartName(e1) == StartName(e2) {
      assert e1 == StartName(e1)[|StartPrefix|..];
      assert e2 == StartName(e2)[|StartPrefix|..];
    }
    if EndName(e1) == EndName(e2) {
      assert e1 == EndName(e1)[|EndPrefix|..];
      assert e2 == EndName(e2)[|EndPrefix|..];
    }
  }

  /** After `newDot(n)`, `dotExists(n)` holds and the dot holds the new
      reading, whatever it held before. */
  lemma NewDotOverwrites(m: Meter, name: string, earlier: int, now: int, clock: int)
    requires name != Sentinel
    ensures DotExists(NewDot(NewDot(m, name, earlier), name, now), name)
    ensures TimeBetween(NewDot(NewDot(m, name, earlier), name, now), name, Sentinel, clock)
            == Some(Abs(now - m.creationTime))
  {
  }

  /** The sentinel is an ordinary dot name to `newDot` and `dotExists`, yet
      `timeBetween` still reads it as the sentinel. */
  lemma SentinelCollision(m: Meter, stamp: int, dot2: string, now: int)
    ensures DotExists(NewDot(m, Sentinel, stamp), Sentinel)
    ensures TimeBetween(NewDot(m, Sentinel, stamp), Sentinel, dot2, now) == Some(Abs(now - m.creationTime))
  {
  }

  /** Once `#` is stamped, `timeBetween` is no longer symmetric: `#` first
      measures creation against now, `#` second measures against creation. */
  lemma SymmetryBreaksOnSentinel()
    ensures var m := NewDot(NewDot(Create(0), Sentinel, 5), "x", 7);
      TimeBetween(m, Sentinel, "x", 100) == Some(100) &&
      TimeBetween(m, "x", Sentinel, 100) == Some(7)
  {
    var m := NewDot(NewDot(Create(0), Sentinel, 5), "x", 7);
    assert "x" != Sentinel;
    assert m.times["x"] == 7;
  }

  /** A sentinel first argument measures creation until now, ignoring `dot2`. */
  lemma TimeBetweenSentinelFirst(m: Meter, dot2: string, now: int)
    ensures TimeBetween(m, Sentinel, dot2, now) == Some(Abs(now - m.creationTime))
  {
  }

  /** A sentinel second argument measures against the creation time, not the clock. */
  lemma TimeBetweenSentinelSecond(m: Meter, dot1: string, now: int)
    requires dot1 != Sentinel && DotExists(m, dot1)
    ensures TimeBetween(m, dot1, Sentinel, now) == Some(Abs(m.times[dot1] - m.creationTime))
  {
  }

  /** Unstamped named dots fail. */
  lemma TimeBetweenMissing(m: Meter, dot1: string, dot2: string, now: int)
    requires dot1 != Sentinel
    ensures !DotExists(m, dot1) ==> TimeBetween(m, dot1, dot2, now) == None
    ensures DotExists(m, dot1) && dot2 != Sentinel && !DotExists(m, dot2) ==>
      TimeBetween(m, dot1, dot2, now) == None
  {
  }

  /** Between two stamped named dots the distance is symmetric and independent of the clock. */
  lemma TimeBetweenSymmetric(m: Meter, a: string, b: string, now1: int, now2: int)
    requires a != Sentinel && b != Sentinel && DotExists(m, a) && DotExists(m, b)
    ensures TimeBetween(m, a, b, now1) == TimeBetween(m, b, a, now2) == Some(Abs(m.times[b] - m.times[a]))
  {
  }

  /** Selecting an event, then stamping its start at `t1` and its end at `t2`,
      makes `time` report the distance between the two stamps. */
  lemma StartEndTime(m: Meter, e: string, t1: int, t2: int, now: int)
    requires e != "" && e != "0"
    ensures Start(Event(m, e), t1).Some?
    ensures End(Start(Event(m, e), t1).value, t2).Some?
    ensures Time(End(Start(Event(m, e), t1).value, t2).value, now) == Some(Abs(t2 - t1))
    ensures t1 <= t2 ==> Time(End(Start(Event(m, e), t1).value, t2).value, now) == Some(t2 - t1)
  {
  }

  /** Stamping the start alone makes `time` report start ago creation. */
  lemma StartOnlyTime(m: Meter, e: string, t1: int, now: int)
    requires e != "" && e != "0" && !DotExists(m, EndName(e))
    ensures Time(Start(Event(m, e), t1).value, now) == Some(Abs(t1 - m.creationTime))
  {
  }
}
