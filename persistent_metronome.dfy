/**
  The persistent (bottom-bar) metronome: its settings, its tap-tempo buffer and
  its lookahead scheduler, as an object whose methods update its state in place.

  The audio clock reading (`currentTime`) and the wall clock (`Date.now()`) are
  parameters; the audio sink is the `played` field, the clicks handed to the
  audio graph in order. The 25 ms re-arming timer is the `timerPending` flag and
  its firing is `Tick`.
*/
module PersistentMetronome {

  import opened Wrappers
  import opened BeatSchedule
  import opened TapTempo

  /** Which of the three click sounds a click uses. */
  datatype ClickSound = SubdivisionClick | AccentClick | NormalClick

  /** The sound of a click: the subdivision flag wins over the accent flag. */
  function SoundOf(c: ClickEvent): (s: ClickSound)
    ensures s == SubdivisionClick <==> c.isSubdivision
    ensures s == AccentClick <==> c.isAccent && !c.isSubdivision
    ensures s == NormalClick <==> !c.isAccent && !c.isSubdivision
  {
    if c.isSubdivision then SubdivisionClick
    else if c.isAccent then AccentClick
    else NormalClick
  }

  /** Peak gain of a click at master volume `volume`: full for the accent, 0.7 of
      it for a normal click and 0.3 of it for a half-beat click, so the three
      are ordered and never exceed the master volume. */
  function PeakGain(s: ClickSound, volume: real): (g: real)
    requires 0.0 <= volume <= 1.0
    ensures 0.0 <= g <= volume
    ensures s == AccentClick ==> g == volume
  {
    match s
    case SubdivisionClick => 0.3 * volume
    case AccentClick => 1.0 * volume
    case NormalClick => 0.7 * volume
  }

  /** At any audible volume a half-beat click is quieter than a normal click,
      which is quieter than an accent. */
  lemma LoudnessOrder(volume: real)
    requires 0.0 < volume <= 1.0
    ensures PeakGain(SubdivisionClick, volume) < PeakGain(NormalClick, volume) < PeakGain(AccentClick, volume)
  {
  }

  /** From a fresh start, click i of a pass sounds as: a half-beat click at every
      odd position under subdivision 2, an accent on the first beat of every bar,
      and a normal click otherwise. */
  lemma PassSounds(t: real, spb: real, bars: nat, subdivision: int, horizon: real)
    requires spb > 0.0 && bars > 0
    ensures var c := SchedulePass(t, 0, spb, bars, subdivision, horizon).clicks;
      forall i :: 0 <= i < |c| ==>
        SoundOf(c[i]) == (if subdivision == 2 && i % 2 == 1 then SubdivisionClick
                          else if BeatOf(subdivision, i) % bars == 0 then AccentClick
                          else NormalClick)
  {
    PassBeatSpacing(t, 0, spb, bars, subdivision, horizon);
    PassAccentsFromDownbeat(t, spb, bars, subdivision, horizon);
  }

  /** The loop of the tap handler that lists the gaps between consecutive taps. */
  method CollectIntervals(taps: seq<int>) returns (intervals: seq<int>)
    ensures intervals == Intervals(taps)
  {
    intervals := [];
    if |taps| == 0 {
      return;
    }
    var i := 1;
    while i < |taps|
      invariant 1 <= i <= |taps|
      invariant intervals == Intervals(taps[..i])
    {
      assert Intervals(taps[..i + 1]) == intervals + [taps[i] - taps[i - 1]];
      intervals := intervals + [taps[i] - taps[i - 1]];
      i := i + 1;
    }
    assert taps[..i] == taps;
  }

  class Metronome {
    var bpm: int
    var isPlaying: bool
    var timeSignature: string
    /** 1 = quarter notes, 2 = eighth notes. */
    var subdivision: int
    var volume: real
    /** Recent tap times in ms, oldest first. */
    var tapTimes: seq<int>
    /** Audio time (s) of the next beat to schedule. */
    var nextNoteTime: real
    /** Index of the next beat within its bar. */
    var currentBeat: nat
    /** Whether a scheduler timeout is armed. */
    var timerPending: bool
    /** Every click handed to the audio graph so far, in order. */
    var played: seq<ClickEvent>

    /** The settings stay in the ranges the controls allow. */
    ghost predicate Settings()
      reads this
    {
      && MinBpm <= bpm <= MaxBpm
      && (subdivision == 1 || subdivision == 2)
      && 0.0 <= volume <= 1.0
      && |tapTimes| <= MaxTaps
      && currentBeat < MaxBeatsPerBar
    }

    /** Settings in range, and a scheduler timeout is armed exactly while playing. */
    ghost predicate Valid()
      reads this
    {
      Settings() && timerPending == isPlaying
    }

    /** Mounting: 120 bpm, 4/4, quarter notes, volume 0.7, stopped. */
    constructor ()
      ensures Valid()
      ensures bpm == 120 && timeSignature == "4/4" && subdivision == 1 && volume == 0.7
      ensures !isPlaying && tapTimes == [] && played == []
      ensures nextNoteTime == 0.0 && currentBeat == 0
    {
      bpm := 120;
      isPlaying := false;
      timeSignature := "4/4";
      subdivision := 1;
      volume := 0.7;
      tapTimes := [];
      nextNoteTime := 0.0;
      currentBeat := 0;
      timerPending := false;
      played := [];
    }

    /** Advance by one beat at the current tempo and wrap within the bar. */
    method NextNote()
      requires Settings()
      modifies this`nextNoteTime, this`currentBeat
      ensures Settings()
      ensures nextNoteTime == old(nextNoteTime) + SecondsPerBeat(bpm)
      ensures currentBeat == (old(currentBeat) + 1) % BeatsPerBar(timeSignature)
    {
      var secondsPerBeat := 60.0 / bpm as real;
      nextNoteTime := nextNoteTime + secondsPerBeat;
      var beatsPerBar := BeatsPerBar(timeSignature);
      currentBeat := (currentBeat + 1) % beatsPerBar;
    }

    /** Hand one click to the audio graph. */
    method PlayClick(time: real, isAccent: bool, isSubdivision: bool)
      modifies this`played
      ensures played == old(played) + [ClickEvent(time, isAccent, isSubdivision)]
    {
      played := played + [ClickEvent(time, isAccent, isSubdivision)];
    }

    /** The clicks of the beat due at `nextNoteTime`: the main click, accented
        on the downbeat, then the half-beat click under eighth notes. */
    method PlayBeat()
      requires Settings()
      modifies this`played
      ensures played == old(played) + BeatClicks(nextNoteTime, currentBeat, SecondsPerBeat(bpm), subdivision)
    {
      var isAccent := currentBeat == 0;
      PlayClick(nextNoteTime, isAccent, false);
      if subdivision == 2 {
        var secondsPerBeat := 60.0 / bpm as real;
        PlayClick(nextNoteTime + secondsPerBeat / 2.0, false, true);
      }
    }

    /** One scheduler poll at audio time `now`: schedule every beat due before
        `now + 0.1`, then re-arm the timer. What it plays and the state it leaves
        are exactly one `SchedulePass` with the current settings. */
    method Scheduler(now: real)
      requires Settings()
      modifies this`nextNoteTime, this`currentBeat, this`played, this`timerPending
      ensures Settings() && timerPending
      ensures var p := SchedulePass(old(nextNoteTime), old(currentBeat), SecondsPerBeat(bpm),
                                    BeatsPerBar(timeSignature), subdivision, now + ScheduleAheadTime);
        played == old(played) + p.clicks && nextNoteTime == p.nextNoteTime && currentBeat == p.currentBeat
    {
      var horizon := now + ScheduleAheadTime;
      ghost var spb, bars := SecondsPerBeat(bpm), BeatsPerBar(timeSignature);
      ghost var whole := SchedulePass(nextNoteTime, currentBeat, spb, bars, subdivision, horizon);
      ghost var done: seq<ClickEvent> := [];
      ghost var rest := whole;
      while nextNoteTime < horizon
        invariant Settings()
        invariant played == old(played) + done
        invariant rest == SchedulePass(nextNoteTime, currentBeat, spb, bars, subdivision, horizon)
        invariant whole.clicks == done + rest.clicks
        invariant whole.nextNoteTime == rest.nextNoteTime && whole.currentBeat == rest.currentBeat
        decreases BeatsDue(nextNoteTime, spb, horizon)
      {
        BeatsDueDecreases(nextNoteTime, spb, horizon);
        ghost var beat := BeatClicks(nextNoteTime, currentBeat, spb, subdivision);
        ghost var next := SchedulePass(nextNoteTime + spb, (currentBeat + 1) % bars, spb, bars, subdivision, horizon);
        assert rest == Pass(beat + next.clicks, next.beats + 1, next.nextNoteTime, next.currentBeat);
        assert done + (beat + next.clicks) == (done + beat) + next.clicks;
        done, rest := done + beat, next;
        PlayBeat();
        NextNote();
      }
      timerPending := true;
    }

    /** The armed timeout fires at audio time `now`: one more scheduler poll.
        Without an armed timeout nothing happens. */
    method Tick(now: real)
      requires Valid()
      modifies this`nextNoteTime, this`currentBeat, this`played, this`timerPending
      ensures Valid()
      ensures !old(timerPending) ==>
        nextNoteTime == old(nextNoteTime) && currentBeat == old(currentBeat) && played == old(played)
      ensures old(timerPending) ==>
        var p := SchedulePass(old(nextNoteTime), old(currentBeat), SecondsPerBeat(bpm),
                              BeatsPerBar(timeSignature), subdivision, now + ScheduleAheadTime);
        played == old(played) + p.clicks && nextNoteTime == p.nextNoteTime && currentBeat == p.currentBeat
    {
      if timerPending {
        Scheduler(now);
      }
    }

    /** Start or stop at audio time `now`. Stopping cancels the timeout and keeps
        the beat position; starting restarts on the downbeat 50 ms ahead and runs
        one poll at once, so its first click is the accented downbeat at `now + 0.05`. */
    method TogglePlay(now: real)
      requires Valid()
      modifies this`nextNoteTime, this`currentBeat, this`played, this`timerPending, this`isPlaying
      ensures Valid()
      ensures isPlaying == !old(isPlaying)
      ensures old(isPlaying) ==>
        nextNoteTime == old(nextNoteTime) && currentBeat == old(currentBeat) && played == old(played)
      ensures !old(isPlaying) ==>
        var p := SchedulePass(now + StartLead, 0, SecondsPerBeat(bpm),
                              BeatsPerBar(timeSignature), subdivision, now + ScheduleAheadTime);
        played == old(played) + p.clicks && nextNoteTime == p.nextNoteTime && currentBeat == p.currentBeat
      ensures !old(isPlaying) ==>
        |played| > |old(played)| && played[|old(played)|] == ClickEvent(now + StartLead, true, false)
    {
      if isPlaying {
        timerPending := false;
        isPlaying := false;
      } else {
        nextNoteTime := now + StartLead;
        currentBeat := 0;
        Scheduler(now);
        isPlaying := true;
      }
    }

    /** A tap on the tap-tempo button at wall-clock time `now` (ms). */
    method HandleTap(now: int)
      requires Valid()
      modifies this`tapTimes, this`bpm
      ensures Valid()
      ensures TapState(tapTimes, bpm) == RegisterTap(old(tapTimes), old(bpm), now)
    {
      var newTapTimes := tapTimes + [now];
      if |newTapTimes| > 1 {
        var lastDiff := newTapTimes[|newTapTimes| - 1] - newTapTimes[|newTapTimes| - 2];
        assert lastDiff == now - tapTimes[|tapTimes| - 1];
        if lastDiff > ResetGapMs {
          tapTimes := [now];
          return;
        }
      }
      var recentTaps := Newest(newTapTimes, MaxTaps);
      tapTimes := recentTaps;
      if |recentTaps| > 1 {
        var intervals := CollectIntervals(recentTaps);
        assert |intervals| == |recentTaps| - 1;
        var avgInterval := Sum(intervals) as real / |intervals| as real;
        assert avgInterval == MeanInterval(recentTaps);
        bpm := TapBpm(avgInterval);
      }
    }

    /** The -/+ buttons: step the tempo, clamped to [40, 300]. */
    method AdjustBpm(amount: int)
      requires Valid()
      modifies this`bpm
      ensures Valid()
      ensures bpm == AdjustedBpm(old(bpm), amount)
    {
      bpm := Clamp(bpm + amount, MinBpm, MaxBpm);
    }

    /** The number input; `parsed` is the integer parse of its text, if any. */
    method SetBpmFromInput(parsed: Option<int>)
      requires Valid()
      modifies this`bpm
      ensures Valid()
      ensures bpm == TypedBpm(parsed)
    {
      var v := if parsed.None? || parsed.value == 0 then MinBpm else parsed.value;
      bpm := Clamp(v, MinBpm, MaxBpm);
    }

    /** The tempo slider, whose range is 40 to 240. */
    method SetBpmFromSlider(value: int)
      requires Valid()
      requires 40 <= value <= 240
      modifies this`bpm
      ensures Valid() && bpm == value
    {
      bpm := value;
    }

    /** The time-signature buttons; the bar length applies from the next beat. */
    method SetTimeSignature(sig: string)
      requires Valid()
      modifies this`timeSignature
      ensures Valid() && timeSignature == sig
    {
      timeSignature := sig;
    }

    /** The quarter / eighth buttons. */
    method SetSubdivision(value: int)
      requires Valid()
      requires value == 1 || value == 2
      modifies this`subdivision
      ensures Valid() && subdivision == value
    {
      subdivision := value;
    }

    /** The volume slider, whose range is 0 to 1. */
    method SetVolume(value: real)
      requires Valid()
      requires 0.0 <= value <= 1.0
      modifies this`volume
      ensures Valid() && volume == value
    {
      volume := value;
    }

    /** Unmounting cancels any armed timeout. */
    method Unmount()
      modifies this`timerPending
      ensures !timerPending
    {
      timerPending := false;
    }
  }
}
