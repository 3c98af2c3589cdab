/** Usage scenarios of the TimeMeter object, each driving a fresh meter
    through its public calls with the clock readings given as arguments. */
module TimeMeterScenarios {
  import opened TimeMeterSpec
  import opened TimeMeterObject

  /** Create at `t0`, select "load", start at `t1`, end at `t2`: `time`
      reports the distance between the two stamps, at any later reading. */
  method LoadEvent(t0: int, t1: int, t2: int, now: int) returns (started: bool, ended: bool, r: Option<int>)
    ensures started && ended
    ensures r == Some(Abs(t2 - t1))
    ensures t1 <= t2 ==> r == Some(t2 - t1)
  {
    var meter := new TimeMeter(t0);
    meter.Event("load");
    started := meter.Start(t1);
    ended := meter.End(t2);
    r := meter.Time(now);
  }

  /** Before any event is selected, `start`, `end` and `time` all fail and no
      dot is created. */
  method NoEventSelected(t0: int, t1: int, t2: int, now: int)
    returns (started: bool, ended: bool, r: Option<int>, dots: map<string, int>)
    ensures !started && !ended && r == None && dots == map[]
  {
    var meter := new TimeMeter(t0);
    started := meter.Start(t1);
    ended := meter.End(t2);
    r := meter.Time(now);
    dots := meter.times;
  }

  /** An empty event name ("" or "0") is treated like no event at all. */
  method EmptyEventName(t0: int, name: string, t1: int, now: int) returns (started: bool, r: Option<int>)
    requires name == "" || name == "0"
    ensures !started && r == None
  {
    var meter := new TimeMeter(t0);
    meter.Event(name);
    started := meter.Start(t1);
    r := meter.Time(now);
  }

  /** Re-stamping a dot replaces its timestamp: later distances use the new one. */
  method Restamp(t0: int, a: string, b: string, t1: int, t2: int, t3: int, now: int)
    returns (r: Option<int>, back: Option<int>)
    requires a != b && a != Sentinel && b != Sentinel
    ensures r == Some(Abs(t3 - t2)) && back == r
  {
    var meter := new TimeMeter(t0);
    meter.NewDot(a, t1);
    meter.NewDot(b, t3);
    meter.NewDot(a, t2);
    r := meter.TimeBetween(a, b, now);
    back := meter.TimeBetween(b, a, now);
  }

  /** Only the start stamped: `time` reports start against creation; nothing
      stamped: `time` reports creation against the clock. */
  method StartWithoutEnd(t0: int, t1: int, now: int) returns (before: Option<int>, after: Option<int>)
    ensures before == Some(Abs(now - t0))
    ensures after == Some(Abs(t1 - t0))
  {
    var meter := new TimeMeter(t0);
    meter.Event("query");
    before := meter.Time(now);
    var ok := meter.Start(t1);
    after := meter.Time(now);
  }
}
