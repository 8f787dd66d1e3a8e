/**
 * The `Metronome` of the tuner page: a small state machine over the playing
 * flag, the tempo, the volume, the time signature and the current beat.
 * The browser timer is a flag (`intervalActive`) plus an explicit `Tick()`
 * standing for one run of the interval body; the audio context is reduced
 * to whether the click buffers exist (`audioReady`), and a played click is
 * reported as the buffer it would use.
 */
module Metronomes {
  import opened Wrappers

  /** `{ beats, division }`. */
  datatype TimeSignature = TimeSignature(beats: int, division: int)

  /** The two click buffers: the accent (first beat) and the regular click. */
  datatype Click = Accent | Regular

  const MinTempo: real := 40.0
  const MaxTempo: real := 200.0
  const DefaultTempo: real := 120.0
  const MinVolume: real := 0.0
  const MaxVolume: real := 1.0
  const DefaultVolume: real := 0.5

  function Min(a: real, b: real): real { if a <= b then a else b }
  function Max(a: real, b: real): real { if a >= b then a else b }

  /** `Math.max(lo, Math.min(hi, x))`: `x` pulled into `[lo, hi]`. */
  function Clamp(lo: real, hi: real, x: real): (r: real)
    requires lo <= hi
    ensures lo <= r <= hi
    ensures lo <= x <= hi ==> r == x
    ensures x < lo ==> r == lo
    ensures x > hi ==> r == hi
  {
    Max(lo, Min(hi, x))
  }

  /** Clamping twice changes nothing more than clamping once. */
  lemma ClampIdempotent(lo: real, hi: real, x: real)
    requires lo <= hi
    ensures Clamp(lo, hi, Clamp(lo, hi, x)) == Clamp(lo, hi, x)
  {
  }

  function Abs(x: int): int { if x < 0 then -x else x }

  /**
   * JavaScript's `a % b` on integers: `None` is the NaN of a zero divisor,
   * otherwise the remainder takes the sign of the dividend (truncating
   * division), unlike Dafny's `%`, whose remainder is never negative.
   */
  function JsRem(a: int, b: int): (r: Option<int>)
    ensures r.Some? <==> b != 0
    ensures r.Some? && a >= 0 ==> 0 <= r.value < Abs(b)
    ensures r.Some? && a < 0 ==> -Abs(b) < r.value <= 0
  {
    if b == 0 then None
    else if a >= 0 then Some(a % Abs(b))
    else Some(-((-a) % Abs(b)))
  }

  /** A dividend in [0, |b|] is its own remainder, except |b| itself, which leaves 0. */
  lemma JsRemSmall(a: int, b: int)
    requires b != 0 && 0 <= a <= Abs(b)
    ensures JsRem(a, b) == Some(if a == Abs(b) then 0 else a)
  {
    if a == Abs(b) {
      ModUnique(a, Abs(b), 1, 0);
    } else {
      ModUnique(a, Abs(b), 0, a);
    }
  }

  /**
   * The beat after one run of the interval body:
   * `(currentBeat + 1) % beats`, where NaN stays NaN.
   */
  function NextBeat(beat: Option<int>, beats: int): (r: Option<int>)
    ensures r.Some? <==> beat.Some? && beats != 0
    ensures r.Some? && beat.value >= -1 ==> 0 <= r.value < Abs(beats)
  {
    match beat
    case None => None
    case Some(b) => JsRem(b + 1, beats)
  }

  /**
   * The beats a beat value can take under time signature `beats`: NaN only
   * once a zero-beat signature has been ticked, and otherwise a value in
   * `[0, |beats|)`, or the 0 that every reset writes.
   */
  ghost predicate BeatInRange(beat: Option<int>, beats: int)
  {
    match beat
    case None => beats == 0
    case Some(b) => 0 <= b && (b < Abs(beats) || b == 0)
  }

  /** A tick keeps the beat in range. */
  lemma NextBeatInRange(beat: Option<int>, beats: int)
    requires BeatInRange(beat, beats)
    ensures BeatInRange(NextBeat(beat, beats), beats)
    ensures beats > 0 ==> NextBeat(beat, beats).Some? && 0 <= NextBeat(beat, beats).value < beats
  {
  }

  /** The beat after `n` ticks from the reset beat 0. */
  function BeatAfter(n: nat, beats: int): Option<int>
  {
    if n == 0 then Some(0) else NextBeat(BeatAfter(n - 1, beats), beats)
  }

  /**
   * With a positive number of beats, `n` ticks after a reset the beat is
   * `n % beats`: the count wraps to the accent every `beats` ticks.
   */
  lemma {:induction false} BeatAfterTicks(n: nat, beats: int)
    requires beats > 0
    ensures BeatAfter(n, beats) == Some(n % beats)
  {
    if n > 0 {
      BeatAfterTicks(n - 1, beats);
      JsRemSmall((n - 1) % beats + 1, beats);
      ModSuccessor(n - 1, beats);
    }
  }

  /** Counting one further wraps the remainder to 0 after b - 1. */
  lemma ModSuccessor(m: nat, b: int)
    requires b > 0
    ensures (m + 1) % b == (if m % b + 1 == b then 0 else m % b + 1)
  {
    var q := m / b;
    var p := m % b;
    assert m == q * b + p;
    if p + 1 == b {
      assert m + 1 == (q + 1) * b;
      ModUnique(m + 1, b, q + 1, 0);
    } else {
      ModUnique(m + 1, b, q, p + 1);
    }
  }

  /** A product with a factor of at least one is at least the other factor. */
  lemma MulAtLeast(d: int, b: int)
    requires d >= 1 && b > 0
    ensures d * b >= b
  {
  }

  /** The remainder is the one value in [0, b) that differs from x by a multiple of b. */
  lemma ModUnique(x: int, b: int, q: int, r: int)
    requires b > 0 && 0 <= r < b && x == q * b + r
    ensures x % b == r
  {
    var q' := x / b;
    var r' := x % b;
    assert q * b + r == q' * b + r';
    assert (q - q') * b == r' - r;
    if q > q' {
      MulAtLeast(q - q', b);
    } else if q < q' {
      MulAtLeast(q' - q, b);
    }
  }

  /** The accent sounds exactly on the ticks that are multiples of `beats`. */
  lemma AccentEveryBar(n: nat, beats: int)
    requires beats > 0
    ensures BeatAfter(n, beats) == Some(0) <==> n % beats == 0
  {
    BeatAfterTicks(n, beats);
  }

  class Metronome {
    var isPlaying: bool
    var tempo: real
    var timeSignature: TimeSignature
    /** The zero-based beat; `None` is the NaN of a tick under zero beats. */
    var currentBeat: Option<int>
    /** Whether the interval timer is set (`intervalId` is not null). */
    var intervalActive: bool
    var volume: real
    /** Whether the audio context and both click buffers exist. */
    const audioReady: bool

    ghost predicate Valid()
      reads this
    {
      && MinTempo <= tempo <= MaxTempo
      && MinVolume <= volume <= MaxVolume
      && intervalActive == isPlaying
      && BeatInRange(currentBeat, timeSignature.beats)
    }

    /** A stopped metronome at 120 BPM in 4/4 on the first beat, at half volume. */
    constructor(audioAvailable: bool)
      ensures Valid()
      ensures !isPlaying && !intervalActive
      ensures tempo == DefaultTempo && volume == DefaultVolume
      ensures timeSignature == TimeSignature(4, 4) && currentBeat == Some(0)
      ensures audioReady == audioAvailable
    {
      isPlaying := false;
      tempo := DefaultTempo;
      timeSignature := TimeSignature(4, 4);
      currentBeat := Some(0);
      intervalActive := false;
      volume := DefaultVolume;
      audioReady := audioAvailable;
    }

    /**
     * `playClick`: nothing when audio is not ready, otherwise the accent
     * buffer on the first beat and the regular click on every other beat.
     */
    method PlayClick() returns (click: Option<Click>)
      ensures click.Some? <==> audioReady
      ensures click == Some(Accent) <==> audioReady && currentBeat == Some(0)
      ensures click == Some(Regular) <==> audioReady && currentBeat != Some(0)
    {
      if !audioReady {
        return None;
      }
      click := Some(if currentBeat == Some(0) then Accent else Regular);
    }

    /**
     * `start`: nothing when already playing; otherwise playing from the
     * first beat, with the timer set, sounding the first (accent) click at
     * once.
     */
    method Start() returns (click: Option<Click>)
      requires Valid()
      modifies this
      ensures Valid()
      ensures old(isPlaying) ==> unchanged(this) && click == None
      ensures !old(isPlaying) ==> isPlaying && intervalActive && currentBeat == Some(0)
      ensures !old(isPlaying) ==> click == (if audioReady then Some(Accent) else None)
      ensures tempo == old(tempo) && volume == old(volume) && timeSignature == old(timeSignature)
    {
      if isPlaying {
        return None;
      }
      isPlaying := true;
      currentBeat := Some(0);
      click := PlayClick();
      intervalActive := true;
    }

    /** `stop`: nothing when not playing; otherwise stopped, timer cleared, back at the first beat. */
    method Stop()
      requires Valid()
      modifies this
      ensures Valid()
      ensures !old(isPlaying) ==> unchanged(this)
      ensures old(isPlaying) ==> !isPlaying && !intervalActive && currentBeat == Some(0)
      ensures tempo == old(tempo) && volume == old(volume) && timeSignature == old(timeSignature)
    {
      if !isPlaying {
        return;
      }
      isPlaying := false;
      if intervalActive {
        intervalActive := false;
      }
      currentBeat := Some(0);
    }

    /**
     * One run of the interval body: advance the beat modulo the number of
     * beats, then play the click for the new beat.
     */
    method Tick() returns (click: Option<Click>)
      requires Valid() && intervalActive
      modifies this`currentBeat
      ensures Valid()
      ensures currentBeat == NextBeat(old(currentBeat), timeSignature.beats)
      ensures timeSignature.beats > 0 ==> currentBeat.Some? && 0 <= currentBeat.value < timeSignature.beats
      ensures click == (if audioReady then Some(if currentBeat == Some(0) then Accent else Regular) else None)
    {
      NextBeatInRange(currentBeat, timeSignature.beats);
      currentBeat := NextBeat(currentBeat, timeSignature.beats);
      click := PlayClick();
    }

    /**
     * `setTempo`: the tempo clamped to [40, 200]; a playing metronome is
     * stopped and started again, so it keeps playing from the first beat
     * and sounds the accent.
     */
    method SetTempo(t: real) returns (click: Option<Click>)
      requires Valid()
      modifies this
      ensures Valid()
      ensures tempo == Clamp(MinTempo, MaxTempo, t)
      ensures isPlaying == old(isPlaying) && intervalActive == old(intervalActive)
      ensures old(isPlaying) ==> currentBeat == Some(0)
      ensures old(isPlaying) ==> click == (if audioReady then Some(Accent) else None)
      ensures !old(isPlaying) ==> currentBeat == old(currentBeat) && click == None
      ensures volume == old(volume) && timeSignature == old(timeSignature)
    {
      tempo := Clamp(MinTempo, MaxTempo, t);
      click := None;
      if isPlaying {
        Stop();
        click := Start();
      }
    }

    /** `setVolume`: the volume clamped to [0, 1]. */
    method SetVolume(v: real)
      requires Valid()
      modifies this`volume
      ensures Valid()
      ensures volume == Clamp(MinVolume, MaxVolume, v)
    {
      volume := Clamp(MinVolume, MaxVolume, v);
    }

    /** `setTimeSignature`: stores the signature as given and resets the beat. */
    method SetTimeSignature(beats: int, division: int)
      requires Valid()
      modifies this`timeSignature, this`currentBeat
      ensures Valid()
      ensures timeSignature == TimeSignature(beats, division)
      ensures currentBeat == Some(0)
    {
      timeSignature := TimeSignature(beats, division);
      currentBeat := Some(0);
    }

    /**
     * `getCurrentBeat`: the one-based beat (NaN stays NaN); with a positive
     * number of beats it lies in [1, beats].
     */
    function GetCurrentBeat(): (n: Option<int>)
      reads this
      ensures n.Some? <==> currentBeat.Some?
      ensures Valid() && timeSignature.beats > 0 ==> n.Some? && 1 <= n.value <= timeSignature.beats
    {
      match currentBeat
      case None => None
      case Some(b) => Some(b + 1)
    }

    /** `isAccentBeat`: on the first beat, the one `getCurrentBeat` numbers 1. */
    function IsAccentBeat(): (accent: bool)
      reads this
      ensures accent <==> GetCurrentBeat() == Some(1)
    {
      currentBeat == Some(0)
    }
  }
}
