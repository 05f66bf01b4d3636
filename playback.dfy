/**
 * The playback schedule of App.tsx:108-131 as values. The playhead
 * (nextStartTimeRef) is the next free time on the output device's clock; each
 * audio fragment is started at `max(playhead, device time)` and pushes the
 * playhead past its own duration. `Starts` and `Final` give the start times and
 * the resulting playhead for a run of fragments between two interruptions; the
 * lemmas state that such units never overlap and, while the fragments arrive
 * before the queued audio runs out, are exactly back-to-back.
 */
module Playback {

  /** Math.max(playhead, currentTime): never start in the past, never before the queued audio ends. */
  function StartOf(playhead: real, deviceTime: real): (t: real)
    ensures t >= playhead && t >= deviceTime
    ensures t == playhead || t == deviceTime
  {
    if playhead >= deviceTime then playhead else deviceTime
  }

  /** One inbound audio fragment: the device clock when it is scheduled and its decoded duration. */
  datatype Fragment = Fragment(deviceTime: real, duration: real)

  ghost predicate NonNegative(fs: seq<Fragment>)
  {
    forall i :: 0 <= i < |fs| ==> fs[i].duration >= 0.0
  }

  /** The start time of each fragment, in order, from playhead `p`. */
  function Starts(p: real, fs: seq<Fragment>): (r: seq<real>)
    ensures |r| == |fs|
    decreases |fs|
  {
    if fs == [] then []
    else
      var t := StartOf(p, fs[0].deviceTime);
      [t] + Starts(t + fs[0].duration, fs[1..])
  }

  /** The playhead after scheduling every fragment of `fs` from playhead `p`. */
  function Final(p: real, fs: seq<Fragment>): real
    decreases |fs|
  {
    if fs == [] then p
    else Final(StartOf(p, fs[0].deviceTime) + fs[0].duration, fs[1..])
  }

  /** Total duration of a run of fragments. */
  function Sum(fs: seq<Fragment>): real
    decreases |fs|
  {
    if fs == [] then 0.0 else fs[0].duration + Sum(fs[1..])
  }

  /** The playhead never decreases, and every unit lies between the playhead
      it was scheduled from and the final playhead. */
  lemma {:induction false} UnitsWithinPlayhead(p: real, fs: seq<Fragment>)
    requires NonNegative(fs)
    ensures p <= Final(p, fs)
    ensures forall i :: 0 <= i < |fs| ==>
      p <= Starts(p, fs)[i] && Starts(p, fs)[i] + fs[i].duration <= Final(p, fs)
    decreases |fs|
  {
    if fs != [] {
      var t := StartOf(p, fs[0].deviceTime);
      var q := t + fs[0].duration;
      UnitsWithinPlayhead(q, fs[1..]);
      forall i | 1 <= i < |fs|
        ensures p <= Starts(p, fs)[i] && Starts(p, fs)[i] + fs[i].duration <= Final(p, fs)
      {
        assert Starts(p, fs)[i] == Starts(q, fs[1..])[i - 1];
        assert fs[i] == fs[1..][i - 1];
      }
    }
  }

  /** The i-th unit ends no later than the j-th unit starts, for i < j. */
  lemma {:induction false} EndsBeforeLaterStart(p: real, fs: seq<Fragment>, i: nat, j: nat)
    requires NonNegative(fs)
    requires i < j < |fs|
    ensures Starts(p, fs)[i] + fs[i].duration <= Starts(p, fs)[j]
    decreases |fs|
  {
    var q := StartOf(p, fs[0].deviceTime) + fs[0].duration;
    assert Starts(p, fs)[j] == Starts(q, fs[1..])[j - 1];
    if i == 0 {
      UnitsWithinPlayhead(q, fs[1..]);
    } else {
      assert Starts(p, fs)[i] == Starts(q, fs[1..])[i - 1];
      assert fs[i] == fs[1..][i - 1];
      EndsBeforeLaterStart(q, fs[1..], i - 1, j - 1);
    }
  }

  /** Units scheduled by successive fragments never overlap: each starts no
      earlier than every earlier unit ends. */
  lemma NoOverlap(p: real, fs: seq<Fragment>)
    requires NonNegative(fs)
    ensures forall i, j :: 0 <= i < j < |fs| ==> Starts(p, fs)[i] + fs[i].duration <= Starts(p, fs)[j]
  {
    forall i, j | 0 <= i < j < |fs|
      ensures Starts(p, fs)[i] + fs[i].duration <= Starts(p, fs)[j]
    {
      EndsBeforeLaterStart(p, fs, i, j);
    }
  }

  /** How each unit's start follows from the previous unit's end: exactly at
      that end when the device clock has not passed it, otherwise at the device
      clock (a gap, because the device idled). */
  lemma {:induction false} StartFollowsPrevious(p: real, fs: seq<Fragment>)
    ensures fs != [] ==> Starts(p, fs)[0] == StartOf(p, fs[0].deviceTime)
    ensures forall i :: 0 < i < |fs| ==>
      var end := Starts(p, fs)[i - 1] + fs[i - 1].duration;
      (fs[i].deviceTime <= end ==> Starts(p, fs)[i] == end) &&
      (fs[i].deviceTime > end ==> Starts(p, fs)[i] == fs[i].deviceTime)
    decreases |fs|
  {
    if fs != [] {
      var t := StartOf(p, fs[0].deviceTime);
      var q := t + fs[0].duration;
      StartFollowsPrevious(q, fs[1..]);
      forall i | 0 < i < |fs|
        ensures var end := Starts(p, fs)[i - 1] + fs[i - 1].duration;
          (fs[i].deviceTime <= end ==> Starts(p, fs)[i] == end) &&
          (fs[i].deviceTime > end ==> Starts(p, fs)[i] == fs[i].deviceTime)
      {
        assert Starts(p, fs)[i] == Starts(q, fs[1..])[i - 1];
        assert fs[i] == fs[1..][i - 1];
        if i > 1 {
          assert Starts(p, fs)[i - 1] == Starts(q, fs[1..])[i - 2];
          assert fs[i - 1] == fs[1..][i - 2];
        }
      }
    }
  }

  /** Every fragment arrives before the audio queued ahead of it has run
      out: the device clock when the i-th fragment is scheduled is no later
      than the initial playhead plus the durations of the fragments before it. */
  ghost predicate InTime(p: real, fs: seq<Fragment>)
  {
    forall i :: 0 <= i < |fs| ==> fs[i].deviceTime <= p + Sum(fs[..i])
  }

  lemma SumPrefixStep(fs: seq<Fragment>, i: nat)
    requires 0 < i <= |fs|
    ensures Sum(fs[..i]) == fs[0].duration + Sum(fs[1..][..i - 1])
  {
    assert fs[..i][1..] == fs[1..][..i - 1];
  }

  lemma InTimeTail(p: real, fs: seq<Fragment>)
    requires fs != [] && InTime(p, fs)
    ensures InTime(p + fs[0].duration, fs[1..])
  {
    forall i | 0 <= i < |fs| - 1
      ensures fs[1..][i].deviceTime <= p + fs[0].duration + Sum(fs[1..][..i])
    {
      SumPrefixStep(fs, i + 1);
    }
  }

  /** Gap-free playback: while the fragments arrive in time, the i-th unit
      starts at the initial playhead plus the durations of all earlier units,
      and the playhead ends at the initial playhead plus the total duration. */
  lemma {:induction false} BackToBack(p: real, fs: seq<Fragment>)
    requires InTime(p, fs)
    ensures forall i :: 0 <= i < |fs| ==> Starts(p, fs)[i] == p + Sum(fs[..i])
    ensures Final(p, fs) == p + Sum(fs)
    decreases |fs|
  {
    if fs != [] {
      assert fs[..0] == [];
      var q := p + fs[0].duration;
      InTimeTail(p, fs);
      BackToBack(q, fs[1..]);
      forall i | 1 <= i < |fs|
        ensures Starts(p, fs)[i] == p + Sum(fs[..i])
      {
        assert Starts(p, fs)[i] == Starts(q, fs[1..])[i - 1];
        SumPrefixStep(fs, i);
      }
    }
  }

  /** Scheduling one more fragment extends the schedule: it starts at the
      later of the current playhead and its device time, and moves the
      playhead past its own end. This is the step each inbound fragment takes. */
  lemma {:induction false} ScheduleAppend(p: real, fs: seq<Fragment>, f: Fragment)
    ensures Starts(p, fs + [f]) == Starts(p, fs) + [StartOf(Final(p, fs), f.deviceTime)]
    ensures Final(p, fs + [f]) == StartOf(Final(p, fs), f.deviceTime) + f.duration
    decreases |fs|
  {
    if fs == [] {
      assert fs + [f] == [f];
      assert [f][1..] == [];
    } else {
      var q := StartOf(p, fs[0].deviceTime) + fs[0].duration;
      assert (fs + [f])[1..] == fs[1..] + [f];
      ScheduleAppend(q, fs[1..], f);
    }
  }

  /** The two fragments of 0.5 s and 0.3 s arriving at device time 0 start at
      0 and 0.5 and leave the playhead at 0.8. */
  lemma TwoFragmentsFromZero()
    ensures Starts(0.0, [Fragment(0.0, 0.5), Fragment(0.0, 0.3)]) == [0.0, 0.5]
    ensures Final(0.0, [Fragment(0.0, 0.5), Fragment(0.0, 0.3)]) == 0.8
  {
    var fs := [Fragment(0.0, 0.5), Fragment(0.0, 0.3)];
    assert fs[1..][1..] == [];
  }
}
