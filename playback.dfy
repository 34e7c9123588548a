/** The gapless playback clock of pages/VoiceAssistantPage.tsx: each decoded
    segment starts at `max(nextStartTime, currentTime)` and moves `nextStartTime`
    to its own end; the set of sources still playing is emptied, and the clock
    reset to 0, when the model is interrupted. */
module Playback {

  /** `Math.max(nextStartTimeRef.current, outputCtx.currentTime)` */
  function StartOf(nextStart: real, now: real): (start: real)
    ensures start >= nextStart && start >= now
    ensures start == nextStart || start == now
  {
    if nextStart >= now then nextStart else now
  }

  /** A decoded segment reaching the scheduler at context time `now`. */
  datatype Arrival = Arrival(now: real, duration: real)

  /** One `source.start(when)` call and the length of its buffer. */
  datatype Segment = Segment(start: real, duration: real)
  {
    function End(): real
    {
      start + duration
    }
  }

  /** The start times the scheduler gives successive arrivals when the clock
      starts at `next` and nothing interrupts. */
  function Starts(next: real, arrivals: seq<Arrival>): (starts: seq<real>)
    ensures |starts| == |arrivals|
    decreases |arrivals|
  {
    if arrivals == [] then []
    else
      var s := StartOf(next, arrivals[0].now);
      [s] + Starts(s + arrivals[0].duration, arrivals[1..])
  }

  /** Every segment starts no earlier than it arrives and no earlier than the
      clock; it never overlaps the previous one; and when it arrives before the
      previous one ends it starts exactly at that end (no gap, no overlap), while
      one arriving after the end starts at its arrival time. */
  lemma {:induction false} StartsSchedule(next: real, arrivals: seq<Arrival>)
    ensures var st := Starts(next, arrivals);
            && (|arrivals| > 0 ==> st[0] == StartOf(next, arrivals[0].now))
            && (forall i :: 0 <= i < |arrivals| ==> st[i] >= arrivals[i].now)
            && (forall i :: 0 <= i < |arrivals| - 1 ==> st[i + 1] >= st[i] + arrivals[i].duration)
            && (forall i :: 0 <= i < |arrivals| - 1 && arrivals[i + 1].now <= st[i] + arrivals[i].duration ==>
                  st[i + 1] == st[i] + arrivals[i].duration)
            && (forall i :: 0 <= i < |arrivals| - 1 && arrivals[i + 1].now > st[i] + arrivals[i].duration ==>
                  st[i + 1] == arrivals[i + 1].now)
    decreases |arrivals|
  {
    if arrivals != [] {
      var s := StartOf(next, arrivals[0].now);
      var rest := Starts(s + arrivals[0].duration, arrivals[1..]);
      StartsSchedule(s + arrivals[0].duration, arrivals[1..]);
      var st := Starts(next, arrivals);
      assert st == [s] + rest;
      forall i | 0 <= i < |arrivals|
        ensures st[i] >= arrivals[i].now
      {
        if i > 0 {
          assert st[i] == rest[i - 1] && arrivals[i] == arrivals[1..][i - 1];
        }
      }
      forall i | 0 <= i < |arrivals| - 1
        ensures st[i + 1] >= st[i] + arrivals[i].duration
        ensures arrivals[i + 1].now <= st[i] + arrivals[i].duration ==> st[i + 1] == st[i] + arrivals[i].duration
        ensures arrivals[i + 1].now > st[i] + arrivals[i].duration ==> st[i + 1] == arrivals[i + 1].now
      {
        assert arrivals[i + 1] == arrivals[1..][i];
        if i > 0 {
          assert st[i] == rest[i - 1] && arrivals[i] == arrivals[1..][i - 1];
        }
      }
    }
  }

  /** `nextStartTimeRef` together with `audioSourcesRef`, and a record of the
      `start` and `stop` calls made on the sources. A source is named by its
      position in `started`. */
  class Player {
    var nextStartTime: real
    var pending: set<nat>       // the sources in `audioSourcesRef`
    var started: seq<Segment>   // every `source.start(when)`, in call order
    var stopped: set<nat>       // the sources `stop()` was called on

    ghost predicate Valid()
      reads this
    {
      && nextStartTime >= 0.0
      && (forall id :: id in pending ==> id < |started|)
      && (forall i :: 0 <= i < |started| ==> started[i].start >= 0.0 && started[i].duration >= 0.0)
      && (nextStartTime == 0.0 || (|started| > 0 && nextStartTime == started[|started| - 1].End()))
    }

    constructor ()
      ensures Valid()
      ensures nextStartTime == 0.0 && pending == {} && started == [] && stopped == {}
    {
      nextStartTime := 0.0;
      pending := {};
      started := [];
      stopped := {};
    }

    /** `stopAllAudio`: stop every pending source, forget them all, reset the
        clock, so that the next segment starts at whatever the context time is. */
    method StopAll()
      requires Valid()
      modifies this
      ensures Valid()
      ensures pending == {} && nextStartTime == 0.0
      ensures stopped == old(stopped) + old(pending) && started == old(started)
      ensures forall now :: now >= 0.0 ==> StartOf(nextStartTime, now) == now
    {
      stopped := stopped + pending;
      pending := {};
      nextStartTime := 0.0;
    }

    /** The scheduling block of `onmessage`: start a segment of `duration`
        seconds at `max(nextStartTime, now)`, move the clock to its end, and add
        the source to the pending set. */
    method Play(now: real, duration: real) returns (id: nat)
      requires Valid()
      requires now >= 0.0 && duration >= 0.0
      modifies this
      ensures Valid()
      ensures id == |old(started)|
      ensures started == old(started) + [Segment(StartOf(old(nextStartTime), now), duration)]
      ensures nextStartTime == StartOf(old(nextStartTime), now) + duration
      ensures pending == old(pending) + {id} && stopped == old(stopped)
    {
      var start := StartOf(nextStartTime, now);
      id := |started|;
      started := started + [Segment(start, duration)];
      nextStartTime := start + duration;
      pending := pending + {id};
    }

    /** `source.onended`: the source leaves the pending set. */
    method Ended(id: nat)
      requires Valid()
      modifies this
      ensures Valid()
      ensures pending == old(pending) - {id}
      ensures nextStartTime == old(nextStartTime) && started == old(started) && stopped == old(stopped)
    {
      pending := pending - {id};
    }
  }
}
