/**
  One pass of the lookahead beat scheduler of the persistent metronome,
  written as a pure function of the scheduler state at the start of the pass.

  A pass emits every beat that falls due before the lookahead horizon
  (`currentTime + scheduleAheadTime`), advancing a logical clock by exactly one
  beat per emitted beat; the clock is never re-read from the audio clock.
  The imperative scheduler in module PersistentMetronome is proved to do what
  `SchedulePass` says, and the lemmas here say what that means: the clicks form
  the ideal drift-free timeline, they are strictly increasing, and splitting
  the work into several polls changes nothing.
*/
module BeatSchedule {

  import opened Arith

  /** A request to the audio sink: a click sounding exactly at `time`. */
  datatype ClickEvent = ClickEvent(time: real, isAccent: bool, isSubdivision: bool)

  /** What one pass produces: the clicks in emission order, how many beats
      were scheduled, and the scheduler state it leaves behind. */
  datatype Pass = Pass(clicks: seq<ClickEvent>, beats: nat, nextNoteTime: real, currentBeat: nat)

  /** Seconds of audio scheduled ahead on every poll. */
  const ScheduleAheadTime: real := 0.1
  /** Lead before the first beat when playback starts. */
  const StartLead: real := 0.05
  /** The largest bar length any time signature yields. */
  const MaxBeatsPerBar: nat := 6

  /** Beats per bar of a time-signature label; anything unknown counts as 4/4. */
  function BeatsPerBar(sig: string): (n: nat)
    ensures 3 <= n <= MaxBeatsPerBar
    ensures n == 3 <==> sig == "3/4"
    ensures n == 6 <==> sig == "6/8"
    ensures n == 4 <==> sig != "3/4" && sig != "6/8"
  {
    if sig == "3/4" then 3
    else if sig == "6/8" then 6
    else 4
  }

  /** Length of one beat in seconds. */
  function SecondsPerBeat(bpm: int): (spb: real)
    requires bpm > 0
    ensures spb > 0.0
    ensures spb * bpm as real == 60.0
  {
    60.0 / bpm as real
  }

  /** Clicks emitted for one beat: the main click, then the half-beat click
      when eighth-note subdivision (value 2) is selected. */
  function BeatClicks(t: real, beat: nat, spb: real, subdivision: int): seq<ClickEvent>
  {
    [ClickEvent(t, beat == 0, false)]
    + (if subdivision == 2 then [ClickEvent(t + spb / 2.0, false, true)] else [])
  }

  /** A bound on the beats still due before `horizon`; it drops by one per beat. */
  function BeatsDue(t: real, spb: real, horizon: real): nat
    requires spb > 0.0
  {
    if t < horizon then ((horizon - t) / spb).Floor + 1 else 0
  }

  lemma BeatsDueDecreases(t: real, spb: real, horizon: real)
    requires spb > 0.0 && t < horizon
    ensures BeatsDue(t + spb, spb, horizon) < BeatsDue(t, spb, horizon)
  {
    if t + spb < horizon {
      DivSub(horizon - t, spb);
      assert horizon - (t + spb) == (horizon - t) - spb;
    }
  }

  /** One scheduler pass starting from logical time `t` and bar position `beat`. */
  function SchedulePass(t: real, beat: nat, spb: real, bars: nat, subdivision: int, horizon: real): Pass
    requires spb > 0.0 && bars > 0
    decreases BeatsDue(t, spb, horizon)
  {
    if t < horizon then
      BeatsDueDecreases(t, spb, horizon);
      var rest := SchedulePass(t + spb, (beat + 1) % bars, spb, bars, subdivision, horizon);
      Pass(BeatClicks(t, beat, spb, subdivision) + rest.clicks, rest.beats + 1,
           rest.nextNoteTime, rest.currentBeat)
    else
      Pass([], 0, t, beat)
  }

  // ---------------------------------------------------------------------------
  // The ideal timeline the scheduler is meant to realise

  /** Bar position of the k-th beat after one at position `b0`: each beat
      moves on by one and wraps at the bar length. */
  function BeatAt(b0: nat, k: nat, bars: nat): nat
    requires bars > 0
  {
    if k == 0 then b0 else (BeatAt(b0, k - 1, bars) + 1) % bars
  }

  /** Clicks per beat. */
  function Width(subdivision: int): nat
  {
    if subdivision == 2 then 2 else 1
  }

  /** The duration of k beats of spb seconds each, laid end to end. */
  function Span(k: nat, spb: real): real
  {
    if k == 0 then 0.0 else Span(k - 1, spb) + spb
  }

  /** Adding beats one at a time accumulates no error: k beats last exactly k * spb. */
  lemma {:induction false} SpanIsProduct(k: nat, spb: real)
    ensures Span(k, spb) == k as real * spb
  {
    if k > 0 {
      SpanIsProduct(k - 1, spb);
      MulSucc(k - 1, spb);
    }
  }

  /** Later beats start later: at least one beat per extra beat counted. */
  lemma {:induction false} SpanMono(a: nat, b: nat, spb: real)
    requires a <= b && spb > 0.0
    ensures Span(a, spb) <= Span(b, spb)
    ensures a < b ==> Span(a, spb) + spb <= Span(b, spb)
    decreases b - a
  {
    if a < b {
      SpanMono(a, b - 1, spb);
    }
  }

  /** The beat that the i-th click of a pass belongs to. */
  function BeatOf(subdivision: int, i: nat): nat
  {
    if subdivision == 2 then i / 2 else i
  }

  /** The i-th click of the ideal timeline that starts at `t` on bar position `b0`:
      beat k sounds at exactly t + k * spb, accented iff it falls on the downbeat,
      and under subdivision 2 its unaccented companion follows half a beat later. */
  function IdealClick(t: real, b0: nat, spb: real, bars: nat, subdivision: int, i: nat): ClickEvent
    requires bars > 0
  {
    var k := BeatOf(subdivision, i);
    if subdivision == 2 && i % 2 == 1 then
      ClickEvent(t + Span(k, spb) + spb / 2.0, false, true)
    else
      ClickEvent(t + Span(k, spb), BeatAt(b0, k, bars) == 0, false)
  }

  lemma {:induction false} BeatAtShift(b0: nat, k: nat, bars: nat)
    requires bars > 0
    ensures BeatAt((b0 + 1) % bars, k, bars) == BeatAt(b0, k + 1, bars)
  {
    var b1 := (b0 + 1) % bars;
    if k > 0 {
      BeatAtShift(b0, k - 1, bars);
      assert BeatAt(b1, k, bars) == (BeatAt(b1, k - 1, bars) + 1) % bars;
      assert BeatAt(b0, k + 1, bars) == (BeatAt(b0, k, bars) + 1) % bars;
    } else {
      assert BeatAt(b0, 1, bars) == (BeatAt(b0, 0, bars) + 1) % bars;
    }
  }

  /** From the downbeat, the bar position of beat k is k modulo the bar length. */
  lemma {:induction false} BeatAtFromDownbeat(k: nat, bars: nat)
    requires bars > 0
    ensures BeatAt(0, k, bars) == k % bars
  {
    if k == 0 {
      ModUnique(0, 0, 0, bars);
    } else {
      BeatAtFromDownbeat(k - 1, bars);
      var q, r := (k - 1) / bars, (k - 1) % bars;
      ModUnique(k - 1, q, r, bars);
      if r + 1 < bars {
        ModUnique(r + 1, 0, r + 1, bars);
        ModUnique(k, q, r + 1, bars);
      } else {
        ModUnique(r + 1, 1, 0, bars);
        ModUnique(k, q + 1, 0, bars);
      }
    }
  }

  lemma IdealClickHead(t: real, b0: nat, spb: real, bars: nat, subdivision: int, i: nat)
    requires bars > 0 && i < Width(subdivision)
    ensures BeatClicks(t, b0, spb, subdivision)[i] == IdealClick(t, b0, spb, bars, subdivision, i)
  {
    assert BeatOf(subdivision, i) == 0;
  }

  lemma IdealClickShift(t: real, b0: nat, spb: real, bars: nat, subdivision: int, i: nat)
    requires bars > 0 && i >= Width(subdivision)
    ensures IdealClick(t + spb, (b0 + 1) % bars, spb, bars, subdivision, i - Width(subdivision))
         == IdealClick(t, b0, spb, bars, subdivision, i)
  {
    var j := i - Width(subdivision);
    var k := BeatOf(subdivision, j);
    if subdivision == 2 {
      assert BeatOf(subdivision, i) == k + 1 && j % 2 == i % 2;
    } else {
      assert BeatOf(subdivision, i) == k + 1;
    }
    BeatAtShift(b0, k, bars);
  }

  /** A pass schedules `beats` beats, beat k at exactly t + k * spb (no drift),
      and hands the time and bar position of the following beat to the next pass. */
  lemma {:induction false} PassExtent(t: real, b0: nat, spb: real, bars: nat, subdivision: int, horizon: real)
    requires spb > 0.0 && bars > 0
    ensures var p := SchedulePass(t, b0, spb, bars, subdivision, horizon);
      && |p.clicks| == Width(subdivision) * p.beats
      && p.nextNoteTime == t + Span(p.beats, spb)
      && p.currentBeat == BeatAt(b0, p.beats, bars)
    decreases BeatsDue(t, spb, horizon)
  {
    if t < horizon {
      BeatsDueDecreases(t, spb, horizon);
      var b1 := (b0 + 1) % bars;
      var rest := SchedulePass(t + spb, b1, spb, bars, subdivision, horizon);
      var p := SchedulePass(t, b0, spb, bars, subdivision, horizon);
      PassExtent(t + spb, b1, spb, bars, subdivision, horizon);
      assert p.beats == rest.beats + 1 && p.nextNoteTime == rest.nextNoteTime;
      assert |p.clicks| == Width(subdivision) + |rest.clicks|;
      BeatAtShift(b0, rest.beats, bars);
    }
  }

  /** A pass stops exactly at the horizon: it schedules nothing when the next
      beat is already at or past the horizon, the last beat it schedules is due
      before the horizon, and the beat it leaves for later is due at or after it. */
  lemma {:induction false} PassHorizon(t: real, b0: nat, spb: real, bars: nat, subdivision: int, horizon: real)
    requires spb > 0.0 && bars > 0
    ensures var p := SchedulePass(t, b0, spb, bars, subdivision, horizon);
      && horizon <= p.nextNoteTime
      && (p.beats == 0 <==> horizon <= t)
      && (p.beats > 0 ==> p.nextNoteTime - spb < horizon)
    decreases BeatsDue(t, spb, horizon)
  {
    if t < horizon {
      BeatsDueDecreases(t, spb, horizon);
      PassHorizon(t + spb, (b0 + 1) % bars, spb, bars, subdivision, horizon);
    }
  }

  /** Click by click, a pass emits exactly the ideal timeline. */
  lemma {:induction false} PassTimeline(t: real, b0: nat, spb: real, bars: nat, subdivision: int, horizon: real)
    requires spb > 0.0 && bars > 0
    ensures var p := SchedulePass(t, b0, spb, bars, subdivision, horizon);
      forall i :: 0 <= i < |p.clicks| ==> p.clicks[i] == IdealClick(t, b0, spb, bars, subdivision, i)
    decreases BeatsDue(t, spb, horizon)
  {
    if t < horizon {
      BeatsDueDecreases(t, spb, horizon);
      var b1 := (b0 + 1) % bars;
      var rest := SchedulePass(t + spb, b1, spb, bars, subdivision, horizon);
      PassTimeline(t + spb, b1, spb, bars, subdivision, horizon);
      var p := SchedulePass(t, b0, spb, bars, subdivision, horizon);
      var w := Width(subdivision);
      var head := BeatClicks(t, b0, spb, subdivision);
      assert p.clicks == head + rest.clicks && |head| == w;
      forall i | 0 <= i < |p.clicks|
        ensures p.clicks[i] == IdealClick(t, b0, spb, bars, subdivision, i)
      {
        if i < w {
          IdealClickHead(t, b0, spb, bars, subdivision, i);
        } else {
          assert p.clicks[i] == rest.clicks[i - w];
          IdealClickShift(t, b0, spb, bars, subdivision, i);
        }
      }
    }
  }

  /** Scheduling in several polls, with horizons h1 <= h2, emits exactly what one
      poll up to h2 would: late or early wake-ups neither drop nor repeat a beat. */
  lemma {:induction false} PassCompose(t: real, b0: nat, spb: real, bars: nat, subdivision: int, h1: real, h2: real)
    requires spb > 0.0 && bars > 0 && h1 <= h2
    ensures var p1 := SchedulePass(t, b0, spb, bars, subdivision, h1);
      var p2 := SchedulePass(p1.nextNoteTime, p1.currentBeat, spb, bars, subdivision, h2);
      SchedulePass(t, b0, spb, bars, subdivision, h2)
        == Pass(p1.clicks + p2.clicks, p1.beats + p2.beats, p2.nextNoteTime, p2.currentBeat)
    decreases BeatsDue(t, spb, h1)
  {
    var p1 := SchedulePass(t, b0, spb, bars, subdivision, h1);
    var p2 := SchedulePass(p1.nextNoteTime, p1.currentBeat, spb, bars, subdivision, h2);
    if t < h1 {
      BeatsDueDecreases(t, spb, h1);
      var b1 := (b0 + 1) % bars;
      PassCompose(t + spb, b1, spb, bars, subdivision, h1, h2);
      var r1 := SchedulePass(t + spb, b1, spb, bars, subdivision, h1);
      assert p1.clicks == BeatClicks(t, b0, spb, subdivision) + r1.clicks;
      assert (BeatClicks(t, b0, spb, subdivision) + r1.clicks) + p2.clicks
          == BeatClicks(t, b0, spb, subdivision) + (r1.clicks + p2.clicks);
    } else {
      assert p1.clicks + p2.clicks == p2.clicks;
    }
  }

  // ---------------------------------------------------------------------------
  // Consequences of the timeline

  lemma IdealTimeBounds(t: real, b0: nat, spb: real, bars: nat, subdivision: int, i: nat, beats: nat)
    requires spb > 0.0 && bars > 0 && i < Width(subdivision) * beats
    ensures var c := IdealClick(t, b0, spb, bars, subdivision, i);
      && t <= c.time
      && c.time + spb <= t + Span(beats, spb) + (if c.isSubdivision then spb / 2.0 else 0.0)
  {
    var k := BeatOf(subdivision, i);
    assert k + 1 <= beats;
    SpanMono(0, k, spb);
    SpanMono(k + 1, beats, spb);
  }

  /** Every main click of a pass is due before the horizon, every half-beat click
      before the horizon plus half a beat, and none precedes the pass's start. */
  lemma PassClicksInWindow(t: real, b0: nat, spb: real, bars: nat, subdivision: int, horizon: real)
    requires spb > 0.0 && bars > 0
    ensures var p := SchedulePass(t, b0, spb, bars, subdivision, horizon);
      forall i :: 0 <= i < |p.clicks| ==>
        && t <= p.clicks[i].time
        && (!p.clicks[i].isSubdivision ==> p.clicks[i].time < horizon)
        && (p.clicks[i].isSubdivision ==> p.clicks[i].time < horizon + spb / 2.0)
  {
    var p := SchedulePass(t, b0, spb, bars, subdivision, horizon);
    PassExtent(t, b0, spb, bars, subdivision, horizon);
    PassHorizon(t, b0, spb, bars, subdivision, horizon);
    PassTimeline(t, b0, spb, bars, subdivision, horizon);
    forall i | 0 <= i < |p.clicks|
      ensures t <= p.clicks[i].time
      ensures !p.clicks[i].isSubdivision ==> p.clicks[i].time < horizon
      ensures p.clicks[i].isSubdivision ==> p.clicks[i].time < horizon + spb / 2.0
    {
      IdealTimeBounds(t, b0, spb, bars, subdivision, i, p.beats);
    }
  }

  lemma IdealTimeIncreasing(t: real, b0: nat, spb: real, bars: nat, subdivision: int, i: nat, j: nat)
    requires spb > 0.0 && bars > 0 && i < j
    ensures IdealClick(t, b0, spb, bars, subdivision, i).time < IdealClick(t, b0, spb, bars, subdivision, j).time
  {
    var ki, kj := BeatOf(subdivision, i), BeatOf(subdivision, j);
    if ki < kj {
      SpanMono(ki + 1, kj, spb);
    } else {
      assert subdivision == 2 && i % 2 == 0 && j % 2 == 1;
    }
  }

  /** Click times within a pass strictly increase, so no two clicks coincide. */
  lemma PassStrictlyIncreasing(t: real, b0: nat, spb: real, bars: nat, subdivision: int, horizon: real)
    requires spb > 0.0 && bars > 0
    ensures var p := SchedulePass(t, b0, spb, bars, subdivision, horizon);
      forall i, j :: 0 <= i < j < |p.clicks| ==> p.clicks[i].time < p.clicks[j].time
  {
    var p := SchedulePass(t, b0, spb, bars, subdivision, horizon);
    PassTimeline(t, b0, spb, bars, subdivision, horizon);
    forall i, j | 0 <= i < j < |p.clicks|
      ensures p.clicks[i].time < p.clicks[j].time
    {
      IdealTimeIncreasing(t, b0, spb, bars, subdivision, i, j);
    }
  }

  /** Every click of a pass is due before the beat it hands to the next pass. */
  lemma PassBeforeNext(t: real, b0: nat, spb: real, bars: nat, subdivision: int, horizon: real)
    requires spb > 0.0 && bars > 0
    ensures var p := SchedulePass(t, b0, spb, bars, subdivision, horizon);
      forall i :: 0 <= i < |p.clicks| ==> p.clicks[i].time < p.nextNoteTime
  {
    var p := SchedulePass(t, b0, spb, bars, subdivision, horizon);
    PassExtent(t, b0, spb, bars, subdivision, horizon);
    PassTimeline(t, b0, spb, bars, subdivision, horizon);
    forall i | 0 <= i < |p.clicks|
      ensures p.clicks[i].time < p.nextNoteTime
    {
      IdealTimeBounds(t, b0, spb, bars, subdivision, i, p.beats);
    }
  }

  /** Two polls in a row, the second under different settings (tempo, beats per
      bar, subdivision, horizon) but picking up the time and bar position the
      first handed over: together they still emit strictly increasing times, so
      a settings change never makes a click repeat or run backwards. */
  lemma PassesChain(t: real, b0: nat, spb1: real, bars1: nat, sub1: int, h1: real,
                    spb2: real, bars2: nat, sub2: int, h2: real)
    requires spb1 > 0.0 && bars1 > 0 && spb2 > 0.0 && bars2 > 0
    ensures var p1 := SchedulePass(t, b0, spb1, bars1, sub1, h1);
      var c := p1.clicks + SchedulePass(p1.nextNoteTime, p1.currentBeat, spb2, bars2, sub2, h2).clicks;
      forall i, j :: 0 <= i < j < |c| ==> c[i].time < c[j].time
  {
    var p1 := SchedulePass(t, b0, spb1, bars1, sub1, h1);
    var p2 := SchedulePass(p1.nextNoteTime, p1.currentBeat, spb2, bars2, sub2, h2);
    var c := p1.clicks + p2.clicks;
    var n := |p1.clicks|;
    PassBeforeNext(t, b0, spb1, bars1, sub1, h1);
    PassStrictlyIncreasing(t, b0, spb1, bars1, sub1, h1);
    PassClicksInWindow(p1.nextNoteTime, p1.currentBeat, spb2, bars2, sub2, h2);
    PassStrictlyIncreasing(p1.nextNoteTime, p1.currentBeat, spb2, bars2, sub2, h2);
    assert var p := SchedulePass(t, b0, spb1, bars1, sub1, h1);
      && (forall i :: 0 <= i < |p.clicks| ==> p.clicks[i].time < p.nextNoteTime)
      && (forall i, j :: 0 <= i < j < |p.clicks| ==> p.clicks[i].time < p.clicks[j].time);
    assert var p := SchedulePass(p1.nextNoteTime, p1.currentBeat, spb2, bars2, sub2, h2);
      && (forall i :: 0 <= i < |p.clicks| ==> p1.nextNoteTime <= p.clicks[i].time)
      && (forall i, j :: 0 <= i < j < |p.clicks| ==> p.clicks[i].time < p.clicks[j].time);
    forall i, j | 0 <= i < j < |c|
      ensures c[i].time < c[j].time
    {
      if j < n {
        assert c[i] == p1.clicks[i] && c[j] == p1.clicks[j];
      } else if i < n {
        assert c[i] == p1.clicks[i] && c[j] == p2.clicks[j - n];
        assert p1.clicks[i].time < p1.nextNoteTime <= p2.clicks[j - n].time;
      } else {
        assert c[i] == p2.clicks[i - n] && c[j] == p2.clicks[j - n];
      }
    }
  }

  lemma IdealSpacing(t: real, b0: nat, spb: real, bars: nat, subdivision: int, i: nat)
    requires bars > 0
    ensures var c, d := IdealClick(t, b0, spb, bars, subdivision, i),
                        IdealClick(t, b0, spb, bars, subdivision, i + Width(subdivision));
      d.time == c.time + spb && c.isSubdivision == d.isSubdivision
    ensures i > 0 && IdealClick(t, b0, spb, bars, subdivision, i).isSubdivision ==>
      IdealClick(t, b0, spb, bars, subdivision, i).time
        == IdealClick(t, b0, spb, bars, subdivision, i - 1).time + spb / 2.0
  {
    var k := BeatOf(subdivision, i);
    if subdivision == 2 {
      assert BeatOf(subdivision, i + 2) == k + 1 && (i + 2) % 2 == i % 2;
      assert i % 2 == 1 ==> BeatOf(subdivision, i - 1) == k && (i - 1) % 2 == 0;
    }
  }

  /** Consecutive main clicks are exactly one beat apart; half-beat clicks exist
      only under subdivision 2, alternate with the main clicks, are never accented,
      and sound exactly half a beat after the main click just before them. */
  lemma PassBeatSpacing(t: real, b0: nat, spb: real, bars: nat, subdivision: int, horizon: real)
    requires spb > 0.0 && bars > 0
    ensures var c, w := SchedulePass(t, b0, spb, bars, subdivision, horizon).clicks, Width(subdivision);
      && (forall i :: 0 <= i < |c| ==> (c[i].isSubdivision <==> subdivision == 2 && i % 2 == 1))
      && (forall i :: 0 <= i < |c| && c[i].isSubdivision ==>
            !c[i].isAccent && c[i].time == c[i - 1].time + spb / 2.0)
      && (forall i, j :: 0 <= i && j == i + w && j < |c| ==>
            c[j].time == c[i].time + spb && c[i].isSubdivision == c[j].isSubdivision)
  {
    var c, w := SchedulePass(t, b0, spb, bars, subdivision, horizon).clicks, Width(subdivision);
    PassTimeline(t, b0, spb, bars, subdivision, horizon);
    forall i | 0 <= i < |c| && c[i].isSubdivision
      ensures c[i].time == c[i - 1].time + spb / 2.0
    {
      IdealSpacing(t, b0, spb, bars, subdivision, i);
    }
    forall i, j | 0 <= i && j == i + w && j < |c|
      ensures c[j].time == c[i].time + spb && c[i].isSubdivision == c[j].isSubdivision
    {
      IdealSpacing(t, b0, spb, bars, subdivision, i);
    }
  }

  /** Starting on the downbeat, the main click of beat k is accented exactly when
      k is a multiple of the bar length: the first click, then every bars-th one. */
  lemma PassAccentsFromDownbeat(t: real, spb: real, bars: nat, subdivision: int, horizon: real)
    requires spb > 0.0 && bars > 0
    ensures var c := SchedulePass(t, 0, spb, bars, subdivision, horizon).clicks;
      forall i :: 0 <= i < |c| ==>
        c[i].isAccent == (!c[i].isSubdivision && BeatOf(subdivision, i) % bars == 0)
  {
    var c := SchedulePass(t, 0, spb, bars, subdivision, horizon).clicks;
    PassTimeline(t, 0, spb, bars, subdivision, horizon);
    forall i | 0 <= i < |c|
      ensures c[i].isAccent == (!c[i].isSubdivision && BeatOf(subdivision, i) % bars == 0)
    {
      BeatAtFromDownbeat(BeatOf(subdivision, i), bars);
    }
  }
}
