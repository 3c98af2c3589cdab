/** Sequences of meter operations, each applied at its own clock reading,
    and what stays true of the meter along any such sequence. */
module TimeMeterTrace {
  import opened TimeMeterSpec

  /** The state-changing calls of the meter. A failing `start` or `end`
      leaves the meter as it was. */
  datatype Op = NewDotOp(name: string) | EventOp(event: string) | StartOp | EndOp

  /** An operation together with the clock reading it sees. */
  datatype Step = Step(op: Op, tick: int)

  function Apply(m: Meter, s: Step): Meter
  {
    match s.op
    case NewDotOp(name) => NewDot(m, name, s.tick)
    case EventOp(event) => Event(m, event)
    case StartOp => (match Start(m, s.tick) case None => m case Some(m') => m')
    case EndOp => (match End(m, s.tick) case None => m case Some(m') => m')
  }

  function Run(m: Meter, steps: seq<Step>): Meter
    decreases |steps|
  {
    if steps == [] then m else Run(Apply(m, steps[0]), steps[1..])
  }

  /** Every step reads the clock somewhere in `lo..hi`. */
  predicate TicksWithin(steps: seq<Step>, lo: int, hi: int)
  {
    forall i :: 0 <= i < |steps| ==> lo <= steps[i].tick <= hi
  }

  /** Every recorded dot lies in `lo..hi`. */
  predicate DotsWithin(m: Meter, lo: int, hi: int)
  {
    forall n :: n in m.times ==> lo <= m.times[n] <= hi
  }

  /** No operation writes the creation time. */
  lemma {:induction false} RunKeepsCreationTime(m: Meter, steps: seq<Step>)
    ensures Run(m, steps).creationTime == m.creationTime
    decreases |steps|
  {
    if steps != [] {
      RunKeepsCreationTime(Apply(m, steps[0]), steps[1..]);
    }
  }

  /** Dots are only ever added or overwritten, never removed. */
  lemma {:induction false} RunKeepsDots(m: Meter, steps: seq<Step>)
    ensures m.times.Keys <= Run(m, steps).times.Keys
    decreases |steps|
  {
    if steps != [] {
      RunKeepsDots(Apply(m, steps[0]), steps[1..]);
    }
  }

  /** Operations other than `newDot`, `start` and `end` leave the dot table alone. */
  lemma {:induction false} EventsOnlyKeepTimes(m: Meter, steps: seq<Step>)
    requires forall i :: 0 <= i < |steps| ==> steps[i].op.EventOp?
    ensures Run(m, steps).times == m.times
    decreases |steps|
  {
    if steps != [] {
      EventsOnlyKeepTimes(Apply(m, steps[0]), steps[1..]);
    }
  }

  /** When the clock stays within `lo..hi`, so do all recorded dots. */
  lemma {:induction false} RunDotsWithin(m: Meter, steps: seq<Step>, lo: int, hi: int)
    requires DotsWithin(m, lo, hi) && TicksWithin(steps, lo, hi)
    ensures DotsWithin(Run(m, steps), lo, hi)
    decreases |steps|
  {
    if steps != [] {
      assert lo <= steps[0].tick <= hi;
      assert TicksWithin(steps[1..], lo, hi) by {
        forall i | 0 <= i < |steps[1..]| ensures lo <= steps[1..][i].tick <= hi {
          assert steps[1..][i] == steps[i + 1];
        }
      }
      RunDotsWithin(Apply(m, steps[0]), steps[1..], lo, hi);
    }
  }

  /** On a clock that never reads before the meter's creation, no result of
      `timeBetween` or `time` at a later reading `now` exceeds the time elapsed
      since creation. */
  lemma ElapsedBound(t0: int, steps: seq<Step>, now: int, dot1: string, dot2: string)
    requires t0 <= now && TicksWithin(steps, t0, now)
    ensures var m := Run(Create(t0), steps);
      (TimeBetween(m, dot1, dot2, now).Some? ==> TimeBetween(m, dot1, dot2, now).value <= now - t0) &&
      (Time(m, now).Some? ==> Time(m, now).value <= now - t0)
  {
    RunDotsWithin(Create(t0), steps, t0, now);
    RunKeepsCreationTime(Create(t0), steps);
  }
}
