/** The TimeMeter object: a dot table and a current-event slot updated in
    place, and a creation time fixed by the constructor. Each method's new
    state is tied to the value-level operation of TimeMeterSpec; the queries
    read the fields through the same definitions. */
module TimeMeterObject {
  import opened TimeMeterSpec

  class TimeMeter {
    /** Dot name to timestamp. */
    var times: map<string, int>
    /** Timestamp of construction; no method writes it afterwards. */
    const creationTime: int
    /** Name of the current event; unset until `Event` is first called. */
    var currentEvent: Option<string>

    /** The meter's state as a value. */
    function Snapshot(): Meter
      reads this
    {
      Meter(times, creationTime, currentEvent)
    }

    /** Capture the creation time; no dots, no event. */
    constructor (now: int)
      ensures Snapshot() == Create(now)
      ensures times == map[] && creationTime == now && currentEvent == None
    {
      times := map[];
      creationTime := now;
      currentEvent := None;
    }

    /** Stamp `name` at clock reading `now`, overwriting any earlier stamp. */
    method NewDot(name: string, now: int)
      modifies this
      ensures Snapshot() == TimeMeterSpec.NewDot(old(Snapshot()), name, now)
      ensures times == old(times)[name := now] && currentEvent == old(currentEvent)
      ensures DotExists(name)
    {
      times := times[name := now];
    }

    /** Whether `name` has been stamped: membership in the dot table. */
    predicate DotExists(name: string)
      reads this
      ensures DotExists(name) <==> name in times
    {
      TimeMeterSpec.DotExists(Snapshot(), name)
    }

    /** `timeBetween` on the object's current state. */
    function TimeBetween(dot1: string, dot2: string, now: int): (r: Option<int>)
      reads this
      ensures r == TimeMeterSpec.TimeBetween(Snapshot(), dot1, dot2, now)
      ensures r.Some? ==> r.value >= 0
      ensures r.None? <==> dot1 != Sentinel && (dot1 !in times || (dot2 != Sentinel && dot2 !in times))
    {
      TimeMeterSpec.TimeBetween(Snapshot(), dot1, dot2, now)
    }

    method SetCurrentEvent(name: string)
      modifies this
      ensures Snapshot() == TimeMeterSpec.Event(old(Snapshot()), name)
      ensures currentEvent == Some(name) && times == old(times)
    {
      currentEvent := Some(name);
    }

    /** The selected event, or failure when it is PHP-empty. */
    function GetCurrentEvent(): (r: Option<string>)
      reads this
      ensures r == TimeMeterSpec.GetCurrentEvent(Snapshot())
      ensures r.None? <==> IsEmptyName(currentEvent)
      ensures r.Some? ==> r == currentEvent
    {
      TimeMeterSpec.GetCurrentEvent(Snapshot())
    }

    /** Select the current event; nothing else changes. */
    method Event(name: string)
      modifies this
      ensures Snapshot() == TimeMeterSpec.Event(old(Snapshot()), name)
      ensures currentEvent == Some(name) && times == old(times)
    {
      SetCurrentEvent(name);
    }

    /** Stamp the start dot of the current event; fail, changing nothing,
        when no non-empty event is selected. */
    method Start(now: int) returns (ok: bool)
      modifies this
      ensures ok == !IsEmptyName(old(currentEvent))
      ensures ok ==> Snapshot() == TimeMeterSpec.Start(old(Snapshot()), now).value
      ensures ok ==> times == old(times)[StartName(currentEvent.value) := now]
      ensures !ok ==> times == old(times)
      ensures currentEvent == old(currentEvent)
    {
      var event := GetCurrentEvent();
      if event.None? {
        return false;
      }
      NewDot(StartPrefix + event.value, now);
      ok := true;
    }

    /** Stamp the end dot of the current event; fail, changing nothing,
        when no non-empty event is selected. */
    method End(now: int) returns (ok: bool)
      modifies this
      ensures ok == !IsEmptyName(old(currentEvent))
      ensures ok ==> Snapshot() == TimeMeterSpec.End(old(Snapshot()), now).value
      ensures ok ==> times == old(times)[EndName(currentEvent.value) := now]
      ensures !ok ==> times == old(times)
      ensures currentEvent == old(currentEvent)
    {
      var event := GetCurrentEvent();
      if event.None? {
        return false;
      }
      NewDot(EndPrefix + event.value, now);
      ok := true;
    }

    /** `time` on the object's current state. */
    function Time(now: int): (r: Option<int>)
      reads this
      ensures r == TimeMeterSpec.Time(Snapshot(), now)
      ensures r.None? <==> IsEmptyName(currentEvent)
      ensures r.Some? ==> r.value >= 0
    {
      TimeMeterSpec.Time(Snapshot(), now)
    }
  }
}
