/**
  The simple metronome of the tools panel, on the code path wired to its button:
  the tempo is read through a ref that an effect keeps in step with the slider,
  and every click is an unaccented one-beat tick.
*/
module SimpleMetronome {

  import opened Arith
  import opened BeatSchedule

  /** Bounds of the tempo slider. */
  const SliderMin: int := 40
  const SliderMax: int := 200

  /** One scheduler pass: the click times in order and the clock it leaves. */
  datatype Run = Run(clicks: seq<real>, nextNoteTime: real)

  /** Every beat time from `t` on, one beat of `spb` seconds apart, that is
      before `horizon`. */
  function SafePass(t: real, spb: real, horizon: real): (r: Run)
    requires spb > 0.0
    ensures horizon <= r.nextNoteTime
    ensures r.clicks == [] <==> horizon <= t
    decreases BeatsDue(t, spb, horizon)
  {
    if t < horizon then
      BeatsDueDecreases(t, spb, horizon);
      var rest := SafePass(t + spb, spb, horizon);
      Run([t] + rest.clicks, rest.nextNoteTime)
    else
      Run([], t)
  }

  /** Click i sounds exactly i beats after the start, the clock ends one beat
      after the last click, and the pass stops at the first beat not before the
      horizon: every click is before it and the clock is not. */
  lemma {:induction false} SafePassTimeline(t: real, spb: real, horizon: real)
    requires spb > 0.0
    ensures var r := SafePass(t, spb, horizon);
      && (forall i :: 0 <= i < |r.clicks| ==> r.clicks[i] == t + Span(i, spb))
      && r.nextNoteTime == t + Span(|r.clicks|, spb)
      && (forall i :: 0 <= i < |r.clicks| ==> r.clicks[i] < horizon)
      && horizon <= r.nextNoteTime
      && (r.clicks == [] <==> horizon <= t)
    decreases BeatsDue(t, spb, horizon)
  {
    var r := SafePass(t, spb, horizon);
    if t < horizon {
      BeatsDueDecreases(t, spb, horizon);
      var rest := SafePass(t + spb, spb, horizon);
      SafePassTimeline(t + spb, spb, horizon);
      forall i | 0 < i < |r.clicks|
        ensures r.clicks[i] == t + Span(i, spb)
      {
        SpanShift(i - 1, spb);
      }
      SpanShift(|rest.clicks|, spb);
    }
  }

  /** Span(k + 1) counted from one beat later. */
  lemma {:induction false} SpanShift(k: nat, spb: real)
    ensures spb + Span(k, spb) == Span(k + 1, spb)
  {
  }

  /** Consecutive clicks of a pass are exactly one beat apart, so their times
      strictly increase. */
  lemma SafePassSpacing(t: real, spb: real, horizon: real)
    requires spb > 0.0
    ensures var c := SafePass(t, spb, horizon).clicks;
      && (forall i :: 0 <= i < |c| - 1 ==> c[i + 1] == c[i] + spb)
      && (forall i, j :: 0 <= i < j < |c| ==> c[i] < c[j])
  {
    var c := SafePass(t, spb, horizon).clicks;
    SafePassTimeline(t, spb, horizon);
    forall i, j | 0 <= i < j < |c|
      ensures c[i] < c[j]
    {
      SpanMono(i, j, spb);
    }
  }

  /** The simple scheduler is the full one with a one-beat bar and no
      subdivision, reading only the click times. */
  lemma {:induction false} SafePassIsPlainPass(t: real, spb: real, horizon: real)
    requires spb > 0.0
    ensures var r, p := SafePass(t, spb, horizon), SchedulePass(t, 0, spb, 1, 1, horizon);
      && |r.clicks| == |p.clicks|
      && (forall i :: 0 <= i < |r.clicks| ==> r.clicks[i] == p.clicks[i].time)
      && r.nextNoteTime == p.nextNoteTime
    decreases BeatsDue(t, spb, horizon)
  {
    if t < horizon {
      BeatsDueDecreases(t, spb, horizon);
      SafePassIsPlainPass(t + spb, spb, horizon);
    }
  }

  class Metronome {
    /** The slider value. */
    var bpm: int
    /** The tempo the scheduler reads; an effect copies `bpm` into it. */
    var bpmRef: int
    var isPlaying: bool
    /** Whether the audio context has been created. */
    var hasContext: bool
    var nextNoteTime: real
    var timerPending: bool
    /** Times of every click handed to the audio graph so far. */
    var played: seq<real>

    /** Both tempos stay within the slider's range (so a beat has positive
        length), a timeout is armed exactly while playing, and playing needs an
        audio context. */
    ghost predicate Valid()
      reads this
    {
      && SliderMin <= bpm <= SliderMax
      && SliderMin <= bpmRef <= SliderMax
      && timerPending == isPlaying
      && (isPlaying ==> hasContext)
    }

    /** Mounting: 120 bpm, stopped, no audio context yet. */
    constructor ()
      ensures Valid()
      ensures bpm == 120 && bpmRef == 120
      ensures !isPlaying && !hasContext && played == []
    {
      bpm := 120;
      bpmRef := 120;
      isPlaying := false;
      hasContext := false;
      nextNoteTime := 0.0;
      timerPending := false;
      played := [];
    }

    /** The slider. */
    method SetBpm(value: int)
      requires Valid()
      requires SliderMin <= value <= SliderMax
      modifies this`bpm
      ensures Valid() && bpm == value
    {
      bpm := value;
    }

    /** The effect that runs after a tempo change: the ref mirrors the slider. */
    method SyncBpmRef()
      requires Valid()
      modifies this`bpmRef
      ensures Valid() && bpmRef == bpm
    {
      bpmRef := bpm;
    }

    /** Advance the clock by one beat at the tempo in the ref. */
    method NextNoteSafe()
      requires Valid()
      modifies this`nextNoteTime
      ensures Valid()
      ensures nextNoteTime == old(nextNoteTime) + SecondsPerBeat(bpmRef)
    {
      var secondsPerBeat := 60.0 / bpmRef as real;
      nextNoteTime := nextNoteTime + secondsPerBeat;
    }

    /** One scheduler poll at audio time `now`: a click on every beat due before
        `now + 0.1`, then the timer is re-armed. */
    method SchedulerSafe(now: real)
      requires Valid() && hasContext
      modifies this`nextNoteTime, this`played, this`timerPending
      ensures timerPending
      ensures old(timerPending) ==> Valid()
      ensures var r := SafePass(old(nextNoteTime), SecondsPerBeat(bpmRef), now + ScheduleAheadTime);
        played == old(played) + r.clicks && nextNoteTime == r.nextNoteTime
    {
      var horizon := now + ScheduleAheadTime;
      ghost var spb := SecondsPerBeat(bpmRef);
      ghost var whole := SafePass(nextNoteTime, spb, horizon);
      ghost var done: seq<real> := [];
      while nextNoteTime < horizon
        invariant Valid()
        invariant played == old(played) + done
        invariant var rest := SafePass(nextNoteTime, spb, horizon);
          whole.clicks == done + rest.clicks && whole.nextNoteTime == rest.nextNoteTime
        decreases BeatsDue(nextNoteTime, spb, horizon)
      {
        BeatsDueDecreases(nextNoteTime, spb, horizon);
        ghost var next := SafePass(nextNoteTime + spb, spb, horizon);
        assert SafePass(nextNoteTime, spb, horizon).clicks == [nextNoteTime] + next.clicks;
        assert done + ([nextNoteTime] + next.clicks) == (done + [nextNoteTime]) + next.clicks;
        played := played + [nextNoteTime];
        done := done + [nextNoteTime];
        NextNoteSafe();
      }
      timerPending := true;
    }

    /** The armed timeout fires at audio time `now`; without one nothing happens. */
    method Tick(now: real)
      requires Valid()
      modifies this`nextNoteTime, this`played, this`timerPending
      ensures Valid()
      ensures !old(timerPending) ==> nextNoteTime == old(nextNoteTime) && played == old(played)
      ensures old(timerPending) ==>
        var r := SafePass(old(nextNoteTime), SecondsPerBeat(bpmRef), now + ScheduleAheadTime);
        played == old(played) + r.clicks && nextNoteTime == r.nextNoteTime
    {
      if timerPending {
        SchedulerSafe(now);
      }
    }

    /** Start or stop at audio time `now`. Stopping only cancels the timeout.
        Starting creates the audio context if there is none, restarts the clock
        50 ms ahead and runs one poll at once, whose first click is at `now + 0.05`. */
    method TogglePlaySafe(now: real)
      requires Valid()
      modifies this`nextNoteTime, this`played, this`timerPending, this`isPlaying, this`hasContext
      ensures Valid()
      ensures isPlaying == !old(isPlaying)
      ensures old(isPlaying) ==>
        nextNoteTime == old(nextNoteTime) && played == old(played) && hasContext == old(hasContext)
      ensures !old(isPlaying) ==>
        var r := SafePass(now + StartLead, SecondsPerBeat(bpmRef), now + ScheduleAheadTime);
        hasContext && played == old(played) + r.clicks && nextNoteTime == r.nextNoteTime
      ensures !old(isPlaying) ==> |played| > |old(played)| && played[|old(played)|] == now + StartLead
    {
      if isPlaying {
        timerPending := false;
        isPlaying := false;
      } else {
        if !hasContext {
          hasContext := true;
        }
        nextNoteTime := now + StartLead;
        SchedulerSafe(now);
        isPlaying := true;
      }
    }
  }
}
