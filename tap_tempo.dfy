/**
  Tap tempo and the bpm clamps of the persistent metronome.

  The tap buffer holds the most recent tap timestamps (milliseconds). A tap more
  than two seconds after the previous one starts a new session; otherwise the
  newest four taps are kept and, from two taps on, the tempo becomes the rounded,
  clamped reciprocal of the mean interval between consecutive taps.
*/
module TapTempo {

  import opened Wrappers

  const MinBpm: int := 40
  const MaxBpm: int := 300
  /** A gap longer than this (ms) between two taps starts a new session. */
  const ResetGapMs: int := 2000
  /** How many taps the buffer keeps. */
  const MaxTaps: nat := 4

  /** `Math.min(Math.max(x, lo), hi)`. */
  function Clamp(x: int, lo: int, hi: int): (r: int)
    requires lo <= hi
    ensures lo <= r <= hi
    ensures lo <= x <= hi ==> r == x
    ensures x < lo ==> r == lo
    ensures hi < x ==> r == hi
  {
    if x < lo then lo else if hi < x then hi else x
  }

  /** `Math.round`: the nearest integer, halves rounded up. */
  function Round(x: real): (r: int)
    ensures x - 0.5 < r as real <= x + 0.5
  {
    (x + 0.5).Floor
  }

  /** Differences between consecutive taps, oldest first. */
  function Intervals(taps: seq<int>): (r: seq<int>)
    ensures |r| == if |taps| < 2 then 0 else |taps| - 1
  {
    if |taps| < 2 then []
    else seq(|taps| - 1, k requires 0 <= k < |taps| - 1 => taps[k + 1] - taps[k])
  }

  /** Left-to-right sum, as `reduce((a, b) => a + b, 0)`. */
  function Sum(xs: seq<int>): int
  {
    if xs == [] then 0 else Sum(xs[..|xs| - 1]) + xs[|xs| - 1]
  }

  /** The intervals between consecutive taps add up to the time from the first
      tap to the last: the mean interval is (last - first) / (n - 1). */
  lemma {:induction false} IntervalsTelescope(taps: seq<int>)
    requires |taps| >= 2
    ensures Sum(Intervals(taps)) == taps[|taps| - 1] - taps[0]
  {
    var n := |taps|;
    var front := taps[..n - 1];
    assert Intervals(taps)[..n - 2] == Intervals(front);
    if n > 2 {
      IntervalsTelescope(front);
    }
  }

  /** Mean interval (ms) between consecutive taps. */
  function MeanInterval(taps: seq<int>): (mean: real)
    requires |taps| >= 2
    ensures mean * (|taps| - 1) as real == (taps[|taps| - 1] - taps[0]) as real
  {
    IntervalsTelescope(taps);
    Sum(Intervals(taps)) as real / (|taps| - 1) as real
  }

  /** The tempo a mean interval yields: `clamp(round(60000 / mean), 40, 300)`;
      a zero mean divides to Infinity, which the clamp turns into 300. */
  function TapBpm(mean: real): (bpm: int)
    ensures MinBpm <= bpm <= MaxBpm
    ensures mean > 0.0 && MinBpm as real - 0.5 <= 60000.0 / mean < MaxBpm as real + 0.5 ==>
      bpm == Round(60000.0 / mean)
    ensures mean == 0.0 ==> bpm == MaxBpm
    ensures mean > 0.0 && 60000.0 / mean >= MaxBpm as real + 0.5 ==> bpm == MaxBpm
    ensures mean > 0.0 && 60000.0 / mean < MinBpm as real - 0.5 ==> bpm == MinBpm
    ensures mean < 0.0 ==> bpm == MinBpm
  {
    if mean == 0.0 then MaxBpm else Clamp(Round(60000.0 / mean), MinBpm, MaxBpm)
  }

  /** State after a tap: the new buffer and the new tempo. */
  datatype TapState = TapState(taps: seq<int>, bpm: int)

  /** The newest `n` elements (all of them when there are fewer), as `slice(-n)`. */
  function Newest(s: seq<int>, n: nat): (r: seq<int>)
    ensures |r| == if |s| < n then |s| else n
    ensures r == s[|s| - |r|..]
  {
    if |s| <= n then s else s[|s| - n..]
  }

  /** One tap at time `now` (ms) against buffer `taps` and tempo `bpm`. */
  function RegisterTap(taps: seq<int>, bpm: int, now: int): (r: TapState)
    ensures 1 <= |r.taps| <= MaxTaps && r.taps[|r.taps| - 1] == now
  {
    var newTaps := taps + [now];
    if |newTaps| > 1 && now - taps[|taps| - 1] > ResetGapMs then
      TapState([now], bpm)
    else
      var recent := Newest(newTaps, MaxTaps);
      if |recent| > 1 then TapState(recent, TapBpm(MeanInterval(recent)))
      else TapState(recent, bpm)
  }

  /** What one tap does: a pause of more than two seconds resets the buffer to the
      new tap and keeps the tempo; otherwise the buffer becomes the newest four
      taps, a lone tap keeps the tempo, and two or more set it from the mean
      interval, which is the span from the oldest kept tap to `now` over the
      number of gaps. The tempo never leaves [40, 300]. */
  lemma RegisterTapSpec(taps: seq<int>, bpm: int, now: int)
    requires MinBpm <= bpm <= MaxBpm
    ensures var r := RegisterTap(taps, bpm, now);
      && MinBpm <= r.bpm <= MaxBpm
      && 1 <= |r.taps| <= MaxTaps
      && r.taps[|r.taps| - 1] == now
      && (taps != [] && now - taps[|taps| - 1] > ResetGapMs ==> r == TapState([now], bpm))
      && (!(taps != [] && now - taps[|taps| - 1] > ResetGapMs) ==>
            && r.taps == Newest(taps + [now], MaxTaps)
            && (|r.taps| == 1 ==> r.bpm == bpm)
            && (|r.taps| > 1 ==> r.bpm == TapBpm((now - r.taps[0]) as real / (|r.taps| - 1) as real)))
  {
    var r := RegisterTap(taps, bpm, now);
    if |r.taps| > 1 && !(taps != [] && now - taps[|taps| - 1] > ResetGapMs) {
      IntervalsTelescope(r.taps);
    }
  }

  /** Evenly spaced taps, `gap` ms apart, have mean interval exactly `gap`. */
  lemma {:induction false} EvenTapsMean(first: int, gap: int, n: nat)
    requires n >= 2
    ensures var taps := seq(n, k => first + k * gap);
      MeanInterval(taps) == gap as real
  {
    var taps := seq(n, k => first + k * gap);
    IntervalsTelescope(taps);
    assert taps[n - 1] - taps[0] == (n - 1) * gap;
  }

  /** Four taps exactly 500 ms apart give 120 bpm. */
  lemma FourTapsAt500ms(bpm: int)
    requires MinBpm <= bpm <= MaxBpm
    ensures RegisterTap([0, 500, 1000], bpm, 1500).bpm == 120
  {
    assert Newest([0, 500, 1000] + [1500], MaxTaps) == [0, 500, 1000, 1500];
    EvenTapsMean(0, 500, 4);
    assert seq(4, k => 0 + k * 500) == [0, 500, 1000, 1500];
  }

  /** A second tap 3 s after the first restarts the session and keeps the tempo. */
  lemma PauseResets(bpm: int, first: int)
    ensures RegisterTap([first], bpm, first + 3000) == TapState([first + 3000], bpm)
  {
  }

  /** `adjustBpm`: step the tempo by `amount`, clamped to [40, 300]. */
  function AdjustedBpm(bpm: int, amount: int): (r: int)
    ensures MinBpm <= r <= MaxBpm
    ensures MinBpm <= bpm + amount <= MaxBpm ==> r == bpm + amount
    ensures bpm + amount > MaxBpm ==> r == MaxBpm
    ensures bpm + amount < MinBpm ==> r == MinBpm
  {
    Clamp(bpm + amount, MinBpm, MaxBpm)
  }

  /** The number input: `parseInt(value) || 40`, then clamped; `parsed` is None
      when the text is not a number (NaN). NaN and 0 both fall back to 40. */
  function TypedBpm(parsed: Option<int>): (r: int)
    ensures MinBpm <= r <= MaxBpm
    ensures parsed.None? || parsed == Some(0) ==> r == MinBpm
    ensures parsed.Some? && MinBpm <= parsed.value <= MaxBpm ==> r == parsed.value
    ensures parsed.Some? && parsed.value > MaxBpm ==> r == MaxBpm
    ensures parsed.Some? && parsed.value < MinBpm ==> r == MinBpm
  {
    var v := if parsed.None? || parsed.value == 0 then MinBpm else parsed.value;
    Clamp(v, MinBpm, MaxBpm)
  }
}
