/**
 * The decision logic of the guitar tuner's note detector: the band table
 * built from the target notes, peak picking in a magnitude spectrum, band
 * scoring, the choice of the dominant band, the nearest-note lookup and the
 * small display rules. Frequencies and magnitudes are exact reals; the
 * magnitude spectrum itself (window, FFT butterflies, square roots) is an
 * input.
 *
 * note-detector.js keeps its note and band tables in objects keyed by note name and
 * walks them with `Object.entries`, which keeps insertion order. Object keys
 * are unique, so the tables are modelled as sequences in that order and a
 * lookup by name is a lookup at the position where the name was found.
 */
module NoteDetection {
  import opened Wrappers

  // Analysis parameters fixed by the detector's constructor.
  const BlockSize: nat := 32768
  const PowerThreshold: real := 0.00001
  const MinFreq: real := 60.0
  const MaxFreq: real := 4000.0

  /** Target notes as (name, reference frequency in Hz), in table order. */
  type NoteTable = seq<(string, real)>

  /** The six open strings of a guitar in standard tuning. */
  const GuitarNotes: NoteTable :=
    [("E2", 82.41), ("A2", 110.0), ("D3", 146.83), ("G3", 196.0), ("B3", 246.94), ("E4", 329.63)]

  datatype Band = Band(note: string, min: real, max: real, center: real)
  datatype Peak = Peak(freq: real, amplitude: real)
  /** What `findDominantFrequency` returns when it finds a band. */
  datatype Detection = Detection(freq: real, confidence: real)
  /** A difference that is still `Infinity` when no note was compared. */
  datatype Distance = Finite(value: real) | Infinity
  datatype NoteMatch = NoteMatch(note: Option<string>, frequency: Option<real>, difference: Distance, cents: int)
  /** What `findPeakFrequency` returns. */
  datatype PitchResult = PitchResult(frequency: Option<real>, amplitude: real)

  function Abs(x: real): real { if x < 0.0 then -x else x }

  /** JavaScript truthiness of a number that may be `null`. */
  predicate Truthy(x: Option<real>) { x.Some? && x.value != 0.0 }

  /** Strict comparison of a difference against the running minimum. */
  predicate Below(d: real, m: Distance) { m.Infinity? || d < m.value }

  // ---------------------------------------------------------------------
  // Band table

  /** Relative half-width of a band: 2% for notes whose name contains '2'. */
  function BandWidth(note: string): real
  {
    if '2' in note then 0.02 else 0.01
  }

  function BandOf(note: string, freq: real): Band
  {
    var w := BandWidth(note);
    Band(note, freq * (1.0 - w), freq * (1.0 + w), freq)
  }

  /** The band table the detector derives from its note table. */
  function BandTable(notes: NoteTable): seq<Band>
  {
    seq(|notes|, i requires 0 <= i < |notes| => BandOf(notes[i].0, notes[i].1))
  }

  /** A band whose center lies strictly inside it, at equal distance from both edges. */
  predicate Centered(b: Band)
  {
    b.min < b.center < b.max && b.center - b.min == b.max - b.center
  }

  predicate AllCentered(bands: seq<Band>)
  {
    forall j :: 0 <= j < |bands| ==> Centered(bands[j])
  }

  predicate PositiveFrequencies(notes: NoteTable)
  {
    forall i :: 0 <= i < |notes| ==> notes[i].1 > 0.0
  }

  /** The shape of one band: width fraction chosen by the octave digit, center at the note. */
  lemma BandShape(note: string, freq: real)
    ensures var b := BandOf(note, freq);
      && b.note == note && b.center == freq
      && (BandWidth(note) == 0.02 <==> '2' in note)
      && (BandWidth(note) == 0.01 <==> '2' !in note)
      && b.center - b.min == b.max - b.center == BandWidth(note) * freq
      && (freq > 0.0 ==> Centered(b))
  {
  }

  /** Every band built from positive frequencies is centered. */
  lemma BandTableCentered(notes: NoteTable)
    requires PositiveFrequencies(notes)
    ensures |BandTable(notes)| == |notes|
    ensures AllCentered(BandTable(notes))
  {
    forall j | 0 <= j < |notes| ensures Centered(BandTable(notes)[j]) {
      BandShape(notes[j].0, notes[j].1);
    }
  }

  /** The fixed table has positive frequencies and non-empty, distinct names. */
  lemma GuitarNotesWellFormed()
    ensures PositiveFrequencies(GuitarNotes)
    ensures forall i :: 0 <= i < |GuitarNotes| ==> GuitarNotes[i].0 != ""
    ensures forall i, j :: 0 <= i < j < |GuitarNotes| ==> GuitarNotes[i].0 != GuitarNotes[j].0
  {
  }

  // ---------------------------------------------------------------------
  // Peak extraction

  /** The largest element, as `Math.max(...s)`. */
  function SeqMax(s: seq<real>): (m: real)
    requires |s| > 0
    ensures forall i :: 0 <= i < |s| ==> s[i] <= m
    ensures exists i :: 0 <= i < |s| && s[i] == m
  {
    if |s| == 1 then s[0]
    else
      var m := SeqMax(s[..|s| - 1]);
      if s[|s| - 1] > m then s[|s| - 1] else m
  }

  /** Relative acceptance threshold: relaxed just above 100 Hz and below 120 Hz. */
  function Threshold(freq: real): (t: real)
    ensures t == 0.05 <==> 100.0 < freq < 120.0
    ensures t == 0.1 <==> !(100.0 < freq < 120.0)
  {
    if 100.0 < freq < 120.0 then 0.05 else 0.1
  }

  function BinFrequency(i: int, deltaFreq: real): real
  {
    i as real * deltaFreq
  }

  /** `minIndex`: the bin of the lowest searched frequency, rounded down. */
  function MinIndex(deltaFreq: real): (r: int)
    requires deltaFreq > 0.0
    ensures r >= 0
  {
    (MinFreq / deltaFreq).Floor
  }

  /** `maxIndex`: the bin of the highest searched frequency, clipped to the spectrum. */
  function MaxIndex(len: nat, deltaFreq: real): (r: int)
    requires deltaFreq > 0.0
    ensures r <= len && r <= (MaxFreq / deltaFreq).Floor
    ensures r == len || r == (MaxFreq / deltaFreq).Floor
  {
    var hi := (MaxFreq / deltaFreq).Floor;
    if hi < len then hi else len
  }

  /**
   * Bin i is reported: a strict local maximum whose magnitude exceeds the
   * threshold for its frequency times the largest magnitude in the spectrum.
   */
  predicate Accepted(s: seq<real>, deltaFreq: real, i: int)
    requires 1 <= i < |s| - 1
  {
    && s[i] > s[i - 1]
    && s[i] > s[i + 1]
    && s[i] > Threshold(BinFrequency(i, deltaFreq)) * SeqMax(s)
  }

  /** The peak bin i contributes to the list: one peak if accepted, none otherwise. */
  function BinPeak(s: seq<real>, deltaFreq: real, i: int): seq<Peak>
    requires 1 <= i < |s| - 1
  {
    if Accepted(s, deltaFreq, i) then [Peak(BinFrequency(i, deltaFreq), s[i])] else []
  }

  /** Peaks among bins lo .. hi-1, in bin order. */
  function ScanPeaks(s: seq<real>, deltaFreq: real, lo: int, hi: int): seq<Peak>
    requires 1 <= lo && hi <= |s| - 1
    decreases hi - lo
  {
    if lo >= hi then []
    else BinPeak(s, deltaFreq, lo) + ScanPeaks(s, deltaFreq, lo + 1, hi)
  }

  /** The peaks `findPeaks` reports for a spectrum. */
  function SpectrumPeaks(s: seq<real>, deltaFreq: real): seq<Peak>
    requires deltaFreq > 0.0
  {
    ScanPeaks(s, deltaFreq, MinIndex(deltaFreq) + 1, MaxIndex(|s|, deltaFreq) - 1)
  }

  /** `p` is the peak reported for bin i. */
  predicate PeakFromBin(s: seq<real>, deltaFreq: real, i: int, p: Peak)
  {
    1 <= i < |s| - 1 && Accepted(s, deltaFreq, i) && p == Peak(BinFrequency(i, deltaFreq), s[i])
  }

  lemma MulMonotonic(i: int, j: int, d: real)
    requires i < j && d > 0.0
    ensures BinFrequency(i, d) < BinFrequency(j, d)
  {
    assert BinFrequency(j, d) - BinFrequency(i, d) == (j - i) as real * d;
  }

  /** Every scanned peak comes from an accepted bin of the scanned range. */
  lemma {:induction false} ScanPeaksSound(s: seq<real>, deltaFreq: real, lo: int, hi: int, k: int)
    requires 1 <= lo && hi <= |s| - 1
    requires 0 <= k < |ScanPeaks(s, deltaFreq, lo, hi)|
    ensures exists i :: lo <= i < hi && PeakFromBin(s, deltaFreq, i, ScanPeaks(s, deltaFreq, lo, hi)[k])
    decreases hi - lo
  {
    var ps := ScanPeaks(s, deltaFreq, lo, hi);
    var head := BinPeak(s, deltaFreq, lo);
    var rest := ScanPeaks(s, deltaFreq, lo + 1, hi);
    assert ps == head + rest;
    if k < |head| {
      assert PeakFromBin(s, deltaFreq, lo, ps[k]);
    } else {
      ScanPeaksSound(s, deltaFreq, lo + 1, hi, k - |head|);
      var i :| lo + 1 <= i < hi && PeakFromBin(s, deltaFreq, i, rest[k - |head|]);
      assert ps[k] == rest[k - |head|];
      assert PeakFromBin(s, deltaFreq, i, ps[k]);
    }
  }

  /** Every accepted bin of the scanned range is reported. */
  lemma {:induction false} ScanPeaksComplete(s: seq<real>, deltaFreq: real, lo: int, hi: int, i: int)
    requires 1 <= lo <= i < hi <= |s| - 1
    requires Accepted(s, deltaFreq, i)
    ensures Peak(BinFrequency(i, deltaFreq), s[i]) in ScanPeaks(s, deltaFreq, lo, hi)
    decreases hi - lo
  {
    var p := Peak(BinFrequency(i, deltaFreq), s[i]);
    var head := BinPeak(s, deltaFreq, lo);
    var rest := ScanPeaks(s, deltaFreq, lo + 1, hi);
    assert ScanPeaks(s, deltaFreq, lo, hi) == head + rest;
    if i > lo {
      ScanPeaksComplete(s, deltaFreq, lo + 1, hi, i);
      var k :| 0 <= k < |rest| && rest[k] == p;
      assert (head + rest)[|head| + k] == p;
    } else {
      assert head == [p];
      assert (head + rest)[0] == p;
    }
  }

  /** Peak frequencies strictly increase along the list. */
  predicate IncreasingFrequencies(ps: seq<Peak>)
  {
    forall a, b :: 0 <= a < b < |ps| ==> ps[a].freq < ps[b].freq
  }

  /** The first scanned peak lies at or above the frequency of the first scanned bin. */
  lemma {:induction false} ScanPeaksAbove(s: seq<real>, deltaFreq: real, lo: int, hi: int)
    requires 1 <= lo && hi <= |s| - 1 && deltaFreq > 0.0
    ensures |ScanPeaks(s, deltaFreq, lo, hi)| > 0 ==>
      ScanPeaks(s, deltaFreq, lo, hi)[0].freq >= BinFrequency(lo, deltaFreq)
    decreases hi - lo
  {
    if lo < hi {
      var head := BinPeak(s, deltaFreq, lo);
      var rest := ScanPeaks(s, deltaFreq, lo + 1, hi);
      assert ScanPeaks(s, deltaFreq, lo, hi) == head + rest;
      if head == [] {
        assert head + rest == rest;
        ScanPeaksAbove(s, deltaFreq, lo + 1, hi);
        MulMonotonic(lo, lo + 1, deltaFreq);
      } else {
        assert head == [Peak(BinFrequency(lo, deltaFreq), s[lo])];
        assert (head + rest)[0] == head[0];
      }
    }
  }

  /** Each peak's frequency is below the next one's. */
  predicate Ascending(ps: seq<Peak>)
  {
    |ps| <= 1 || (ps[0].freq < ps[1].freq && Ascending(ps[1..]))
  }

  /** Ascending neighbours give ascending pairs throughout. */
  lemma {:induction false} AscendingPairwise(ps: seq<Peak>)
    requires Ascending(ps)
    ensures IncreasingFrequencies(ps)
  {
    if |ps| > 1 {
      var tail := ps[1..];
      AscendingPairwise(tail);
      forall a, b | 0 <= a < b < |ps| ensures ps[a].freq < ps[b].freq {
        assert ps[b] == tail[b - 1];
        if a > 0 {
          assert ps[a] == tail[a - 1];
        } else if b > 1 {
          assert tail[0].freq < tail[b - 1].freq;
        }
      }
    }
  }

  /** Scanned peaks come out in strictly increasing frequency. */
  lemma {:induction false} ScanPeaksAscending(s: seq<real>, deltaFreq: real, lo: int, hi: int)
    requires 1 <= lo && hi <= |s| - 1 && deltaFreq > 0.0
    ensures Ascending(ScanPeaks(s, deltaFreq, lo, hi))
    decreases hi - lo
  {
    if lo < hi {
      var head := BinPeak(s, deltaFreq, lo);
      var rest := ScanPeaks(s, deltaFreq, lo + 1, hi);
      assert ScanPeaks(s, deltaFreq, lo, hi) == head + rest;
      ScanPeaksAscending(s, deltaFreq, lo + 1, hi);
      if head != [] {
        ScanPeaksAbove(s, deltaFreq, lo + 1, hi);
        MulMonotonic(lo, lo + 1, deltaFreq);
        assert head == [Peak(BinFrequency(lo, deltaFreq), s[lo])];
        assert (head + rest)[0] == head[0];
        assert (head + rest)[1..] == rest;
      } else {
        assert head + rest == rest;
      }
    }
  }

  lemma ConcatAssociative<T>(a: seq<T>, b: seq<T>, c: seq<T>)
    ensures a + (b + c) == (a + b) + c
  {
  }

  /** `p` is reported for a bin of the window minIndex+1 .. maxIndex-2. */
  predicate FromWindow(s: seq<real>, deltaFreq: real, p: Peak)
    requires deltaFreq > 0.0
  {
    exists i :: MinIndex(deltaFreq) + 1 <= i < MaxIndex(|s|, deltaFreq) - 1 && PeakFromBin(s, deltaFreq, i, p)
  }

  /**
   * What `findPeaks` promises: every reported peak is an accepted bin of
   * the window minIndex+1 .. maxIndex-2 (so every read is inside the
   * spectrum), every accepted bin of the window is reported, and the peaks
   * come out in increasing frequency.
   */
  lemma SpectrumPeaksSpec(s: seq<real>, deltaFreq: real)
    requires deltaFreq > 0.0
    ensures MaxIndex(|s|, deltaFreq) <= |s|
    ensures forall k :: 0 <= k < |SpectrumPeaks(s, deltaFreq)| ==>
      FromWindow(s, deltaFreq, SpectrumPeaks(s, deltaFreq)[k])
    ensures forall i ::
      MinIndex(deltaFreq) + 1 <= i < MaxIndex(|s|, deltaFreq) - 1 && Accepted(s, deltaFreq, i) ==>
        Peak(BinFrequency(i, deltaFreq), s[i]) in SpectrumPeaks(s, deltaFreq)
    ensures IncreasingFrequencies(SpectrumPeaks(s, deltaFreq))
  {
    var lo, hi := MinIndex(deltaFreq) + 1, MaxIndex(|s|, deltaFreq) - 1;
    var ps := ScanPeaks(s, deltaFreq, lo, hi);
    assert ps == SpectrumPeaks(s, deltaFreq);
    forall k | 0 <= k < |ps|
      ensures FromWindow(s, deltaFreq, ps[k])
    {
      ScanPeaksSound(s, deltaFreq, lo, hi, k);
      var i :| lo <= i < hi && PeakFromBin(s, deltaFreq, i, ps[k]);
    }
    forall i | lo <= i < hi && Accepted(s, deltaFreq, i)
      ensures Peak(BinFrequency(i, deltaFreq), s[i]) in ps
    {
      ScanPeaksComplete(s, deltaFreq, lo, hi, i);
    }
    ScanPeaksAscending(s, deltaFreq, lo, hi);
    AscendingPairwise(ps);
  }

  /** One turn of `findPeaks`' loop: the peak bin i contributes, if any. */
  method PeakAtBin(spectrum: seq<real>, deltaFreq: real, i: int) returns (found: seq<Peak>)
    requires 1 <= i < |spectrum| - 1
    ensures Accepted(spectrum, deltaFreq, i) ==> found == [Peak(BinFrequency(i, deltaFreq), spectrum[i])]
    ensures !Accepted(spectrum, deltaFreq, i) ==> found == []
  {
    found := [];
    if spectrum[i] > spectrum[i - 1] && spectrum[i] > spectrum[i + 1] {
      var freq := i as real * deltaFreq;
      var amplitude := spectrum[i];
      var threshold := if freq > 100.0 && freq < 120.0 then 0.05 else 0.1;
      if amplitude > threshold * SeqMax(spectrum) {
        found := [Peak(freq, amplitude)];
      }
    }
  }

  /**
   * `findPeaks`: scan bins minIndex+1 .. maxIndex-2 for accepted local
   * maxima.
   */
  method FindPeaks(spectrum: seq<real>, deltaFreq: real) returns (peaks: seq<Peak>)
    requires deltaFreq > 0.0
    ensures peaks == SpectrumPeaks(spectrum, deltaFreq)
  {
    var minIndex, maxIndex := SearchWindow(|spectrum|, deltaFreq);
    peaks := ScanWindow(spectrum, deltaFreq, minIndex + 1, maxIndex - 1);
  }

  /** The loop of `findPeaks` over bins lo .. hi-1, collecting peaks in bin order. */
  method ScanWindow(spectrum: seq<real>, deltaFreq: real, lo: int, hi: int) returns (peaks: seq<Peak>)
    requires 1 <= lo && hi <= |spectrum| - 1
    ensures peaks == ScanPeaks(spectrum, deltaFreq, lo, hi)
  {
    peaks := [];
    var i := lo;
    while i < hi
      invariant lo <= i && (i <= hi || i == lo)
      invariant peaks + ScanPeaks(spectrum, deltaFreq, i, hi) == ScanPeaks(spectrum, deltaFreq, lo, hi)
      decreases hi - i
    {
      var found := PeakAtBin(spectrum, deltaFreq, i);
      ScanPeaksStep(spectrum, deltaFreq, i, hi, peaks, found);
      peaks := peaks + found;
      i := i + 1;
    }
    assert ScanPeaks(spectrum, deltaFreq, i, hi) == [];
    assert peaks + [] == peaks;
  }

  /** `minIndex` and `maxIndex` of `findPeaks`. */
  method SearchWindow(len: nat, deltaFreq: real) returns (minIndex: int, maxIndex: int)
    requires deltaFreq > 0.0
    ensures minIndex == MinIndex(deltaFreq) && maxIndex == MaxIndex(len, deltaFreq)
    ensures minIndex >= 0 && maxIndex <= len
  {
    minIndex := (MinFreq / deltaFreq).Floor;
    maxIndex := (MaxFreq / deltaFreq).Floor;
    if len < maxIndex {
      maxIndex := len;
    }
  }

  /** Appending the peak of bin i moves the scan on by one bin. */
  lemma ScanPeaksStep(s: seq<real>, deltaFreq: real, i: int, hi: int, done: seq<Peak>, found: seq<Peak>)
    requires 1 <= i < hi <= |s| - 1
    requires Accepted(s, deltaFreq, i) ==> found == [Peak(BinFrequency(i, deltaFreq), s[i])]
    requires !Accepted(s, deltaFreq, i) ==> found == []
    ensures done + ScanPeaks(s, deltaFreq, i, hi) == (done + found) + ScanPeaks(s, deltaFreq, i + 1, hi)
  {
    assert found == BinPeak(s, deltaFreq, i);
    ConcatAssociative(done, found, ScanPeaks(s, deltaFreq, i + 1, hi));
  }

  // ---------------------------------------------------------------------
  // Band scoring

  /** Proximity weight of a frequency in a band: 1 at the center, falling linearly. */
  function Weight(f: real, b: Band): real
    requires b.min < b.max
  {
    1.0 - Abs(f - b.center) / (b.max - b.min)
  }

  predicate Inside(p: Peak, b: Band)
  {
    b.min <= p.freq <= b.max
  }

  /** What one peak adds to one band's score. */
  function Contribution(p: Peak, b: Band): real
    requires b.min < b.max
  {
    if Inside(p, b) then p.amplitude * Weight(p.freq, b) else 0.0
  }

  /** A band's score after the given peaks, accumulated in list order. */
  function BandEnergy(peaks: seq<Peak>, b: Band): real
    requires b.min < b.max
  {
    if |peaks| == 0 then 0.0
    else BandEnergy(peaks[..|peaks| - 1], b) + Contribution(peaks[|peaks| - 1], b)
  }

  /** The score of every band, in table order. */
  function BandEnergies(bands: seq<Band>, peaks: seq<Peak>): (e: seq<real>)
    requires AllCentered(bands)
    ensures |e| == |bands|
  {
    seq(|bands|, j requires 0 <= j < |bands| => BandEnergy(peaks, bands[j]))
  }

  predicate NonNegativeAmplitudes(peaks: seq<Peak>)
  {
    forall k :: 0 <= k < |peaks| ==> peaks[k].amplitude >= 0.0
  }

  /**
   * Inside a centered band the weight lies in [1/2, 1]: the divisor is the
   * full width, so a peak on either edge still gets half weight, and only a
   * peak exactly at the center gets full weight.
   */
  lemma WeightBounds(f: real, b: Band)
    requires Centered(b) && b.min <= f <= b.max
    ensures 0.5 <= Weight(f, b) <= 1.0
    ensures Weight(f, b) == 1.0 <==> f == b.center
    ensures f == b.min || f == b.max ==> Weight(f, b) == 0.5
  {
    var w := b.max - b.min;
    var h := b.center - b.min;
    var d := Abs(f - b.center);
    assert w == 2.0 * h && 0.0 <= d <= h;
    QuotientAtMost(d, w, 0.5);
    assert d == 0.0 <==> f == b.center;
    QuotientZero(d, w);
    if f == b.min || f == b.max {
      assert d == h;
      HalfOfDouble(h, w);
    }
  }

  /** Dividing by a positive count keeps an upper bound scaled by it. */
  lemma QuotientAtMost(s: real, n: real, t: real)
    requires n > 0.0 && s <= t * n
    ensures s / n <= t
  {
    assert s / n * n == s;
  }

  /** A quotient by a positive number is zero exactly when the dividend is. */
  lemma QuotientZero(s: real, n: real)
    requires n > 0.0
    ensures s / n == 0.0 <==> s == 0.0
  {
    assert s / n * n == s;
  }

  /** Half of a doubled positive amount. */
  lemma HalfOfDouble(h: real, w: real)
    requires h > 0.0 && w == 2.0 * h
    ensures h / w == 0.5
  {
    assert 0.5 * w == h;
  }

  /** A non-negative amount scaled by a positive weight keeps its sign. */
  lemma ScaledSign(a: real, w: real)
    requires a >= 0.0 && w > 0.0
    ensures a * w >= 0.0
    ensures a * w > 0.0 <==> a > 0.0
  {
    if a > 0.0 {
      assert a * w > 0.0;
    } else {
      assert a * w == 0.0 * w;
    }
  }

  /** A peak of non-negative amplitude adds a non-negative amount, positive exactly when it is inside with positive amplitude. */
  lemma ContributionSign(p: Peak, b: Band)
    requires Centered(b) && p.amplitude >= 0.0
    ensures Contribution(p, b) >= 0.0
    ensures Contribution(p, b) > 0.0 <==> Inside(p, b) && p.amplitude > 0.0
  {
    if Inside(p, b) {
      WeightBounds(p.freq, b);
      ScaledSign(p.amplitude, Weight(p.freq, b));
    }
  }

  /** Scores of centered bands built from non-negative peaks are non-negative. */
  lemma {:induction false} BandEnergyNonNegative(peaks: seq<Peak>, b: Band)
    requires Centered(b) && NonNegativeAmplitudes(peaks)
    ensures BandEnergy(peaks, b) >= 0.0
  {
    if |peaks| > 0 {
      var p := peaks[|peaks| - 1];
      BandEnergyNonNegative(peaks[..|peaks| - 1], b);
      ContributionSign(p, b);
    }
  }

  /** A band that no peak falls into keeps its initial score of zero. */
  lemma {:induction false} BandEnergyWithoutPeaks(peaks: seq<Peak>, b: Band)
    requires b.min < b.max
    requires forall k :: 0 <= k < |peaks| ==> !Inside(peaks[k], b)
    ensures BandEnergy(peaks, b) == 0.0
  {
    if |peaks| > 0 {
      BandEnergyWithoutPeaks(peaks[..|peaks| - 1], b);
    }
  }

  /**
   * With non-negative amplitudes, a band scores above zero exactly when
   * some peak of positive amplitude falls inside it.
   */
  lemma {:induction false} BandEnergyPositive(peaks: seq<Peak>, b: Band)
    requires Centered(b) && NonNegativeAmplitudes(peaks)
    ensures BandEnergy(peaks, b) > 0.0 <==>
      exists k :: 0 <= k < |peaks| && Inside(peaks[k], b) && peaks[k].amplitude > 0.0
  {
    if |peaks| > 0 {
      var init := peaks[..|peaks| - 1];
      var p := peaks[|peaks| - 1];
      BandEnergyPositive(init, b);
      BandEnergyNonNegative(init, b);
      var c := Contribution(p, b);
      assert BandEnergy(peaks, b) == BandEnergy(init, b) + c;
      ContributionSign(p, b);
      if BandEnergy(peaks, b) > 0.0 {
        if BandEnergy(init, b) > 0.0 {
          var k :| 0 <= k < |init| && Inside(init[k], b) && init[k].amplitude > 0.0;
          assert peaks[k] == init[k];
        } else {
          assert Inside(peaks[|peaks| - 1], b) && peaks[|peaks| - 1].amplitude > 0.0;
        }
      }
      if exists k :: 0 <= k < |peaks| && Inside(peaks[k], b) && peaks[k].amplitude > 0.0 {
        var k :| 0 <= k < |peaks| && Inside(peaks[k], b) && peaks[k].amplitude > 0.0;
        if k < |peaks| - 1 {
          assert init[k] == peaks[k];
          assert BandEnergy(init, b) > 0.0;
        } else {
          assert c > 0.0;
        }
      }
    }
  }

  /**
   * `calculateBandEnergies`: every band starts at zero, then each peak adds
   * its weighted amplitude to every band that contains it.
   */
  method CalculateBandEnergies(bands: seq<Band>, peaks: seq<Peak>) returns (energies: seq<real>)
    requires AllCentered(bands)
    ensures energies == BandEnergies(bands, peaks)
  {
    energies := [];
    var j := 0;
    while j < |bands|
      invariant 0 <= j <= |bands| && |energies| == j
      invariant forall m :: 0 <= m < j ==> energies[m] == 0.0
    {
      energies := energies + [0.0];
      j := j + 1;
    }
    var k := 0;
    while k < |peaks|
      invariant 0 <= k <= |peaks| && |energies| == |bands|
      invariant forall m :: 0 <= m < |bands| ==> energies[m] == BandEnergy(peaks[..k], bands[m])
    {
      assert peaks[..k + 1][..k] == peaks[..k];
      energies := AddPeak(bands, energies, peaks[k]);
      k := k + 1;
    }
    assert peaks[..k] == peaks;
  }

  /** The inner loop of `calculateBandEnergies`: one peak added to every band that contains it. */
  method AddPeak(bands: seq<Band>, energies: seq<real>, peak: Peak) returns (updated: seq<real>)
    requires AllCentered(bands) && |energies| == |bands|
    ensures |updated| == |bands|
    ensures forall m :: 0 <= m < |bands| ==> updated[m] == energies[m] + Contribution(peak, bands[m])
  {
    updated := energies;
    var j := 0;
    while j < |bands|
      invariant 0 <= j <= |bands| && |updated| == |bands|
      invariant forall m :: 0 <= m < j ==> updated[m] == energies[m] + Contribution(peak, bands[m])
      invariant forall m :: j <= m < |bands| ==> updated[m] == energies[m]
    {
      var band := bands[j];
      if peak.freq >= band.min && peak.freq <= band.max {
        var distanceFromCenter := Abs(peak.freq - band.center);
        var weight := 1.0 - distanceFromCenter / (band.max - band.min);
        updated := updated[j := updated[j] + peak.amplitude * weight];
      }
      j := j + 1;
    }
  }

  // ---------------------------------------------------------------------
  // Dominant band

  /** Index k holds the largest of e[0..n), and no earlier index reaches it. */
  predicate FirstMaxBelow(e: seq<real>, n: int, k: int)
    requires n <= |e|
  {
    && 0 <= k < n
    && (forall m :: 0 <= m < n ==> e[m] <= e[k])
    && (forall m :: 0 <= m < k ==> e[m] < e[k])
  }

  predicate FirstMax(e: seq<real>, k: int)
  {
    FirstMaxBelow(e, |e|, k)
  }

  /** A non-empty sequence has a first maximum. */
  lemma {:induction false} FirstMaxExists(e: seq<real>, n: int)
    requires 0 < n <= |e|
    ensures exists k :: FirstMaxBelow(e, n, k)
  {
    if n == 1 {
      assert FirstMaxBelow(e, 1, 0);
    } else {
      FirstMaxExists(e, n - 1);
      var k :| FirstMaxBelow(e, n - 1, k);
      if e[n - 1] > e[k] {
        assert FirstMaxBelow(e, n, n - 1);
      } else {
        assert FirstMaxBelow(e, n, k);
      }
    }
  }

  /** The first maximum is unique. */
  lemma FirstMaxUnique(e: seq<real>, k1: int, k2: int)
    requires FirstMax(e, k1) && FirstMax(e, k2)
    ensures k1 == k2
  {
    assert e[k1] <= e[k2] && e[k2] <= e[k1];
  }

  /**
   * The outcome of the scan over band scores: no detection unless the first
   * band with the largest score scores above zero (and has a name, which the
   * JavaScript code tests for truthiness); otherwise that band's center with its
   * score as confidence.
   */
  predicate DominantChoice(bands: seq<Band>, e: seq<real>, r: Option<Detection>)
    requires |e| == |bands|
  {
    match r
    case None => forall k :: 0 <= k < |e| && FirstMax(e, k) ==> e[k] <= 0.0 || bands[k].note == ""
    case Some(d) =>
      exists k :: 0 <= k < |e| && FirstMax(e, k) && e[k] > 0.0 && bands[k].note != ""
        && d == Detection(bands[k].center, e[k])
  }

  /** With named bands, the scan finds nothing exactly when no score is positive. */
  lemma DominantChoiceNone(bands: seq<Band>, e: seq<real>, r: Option<Detection>)
    requires |e| == |bands| && DominantChoice(bands, e, r)
    requires forall j :: 0 <= j < |bands| ==> bands[j].note != ""
    ensures r.None? <==> forall j :: 0 <= j < |e| ==> e[j] <= 0.0
  {
    if |e| > 0 {
      FirstMaxExists(e, |e|);
    }
  }

  /** The magnitude loop of `findDominantFrequency`: `Math.abs` of every bin. */
  method MagnitudeSpectrum(fft: seq<real>) returns (magnitudes: seq<real>)
    ensures |magnitudes| == |fft|
    ensures forall i :: 0 <= i < |fft| ==> magnitudes[i] == Abs(fft[i]) && magnitudes[i] >= 0.0
  {
    magnitudes := [];
    var i := 0;
    while i < |fft|
      invariant 0 <= i <= |fft| && |magnitudes| == i
      invariant forall m :: 0 <= m < i ==> magnitudes[m] == Abs(fft[m])
    {
      magnitudes := magnitudes + [Abs(fft[i])];
      i := i + 1;
    }
  }

  function Magnitudes(fft: seq<real>): seq<real>
  {
    seq(|fft|, i requires 0 <= i < |fft| => Abs(fft[i]))
  }

  /** Peaks of a magnitude spectrum have non-negative amplitudes. */
  lemma PeaksOfMagnitudesNonNegative(fft: seq<real>, deltaFreq: real)
    requires deltaFreq > 0.0
    ensures NonNegativeAmplitudes(SpectrumPeaks(Magnitudes(fft), deltaFreq))
  {
    var s := Magnitudes(fft);
    SpectrumPeaksSpec(s, deltaFreq);
    forall k | 0 <= k < |SpectrumPeaks(s, deltaFreq)|
      ensures SpectrumPeaks(s, deltaFreq)[k].amplitude >= 0.0
    {
      assert FromWindow(s, deltaFreq, SpectrumPeaks(s, deltaFreq)[k]);
    }
  }

  /** The band scores `findDominantFrequency` computes for a spectrum. */
  function SpectrumEnergies(fft: seq<real>, deltaFreq: real, bands: seq<Band>): (e: seq<real>)
    requires deltaFreq > 0.0 && AllCentered(bands)
    ensures |e| == |bands|
  {
    BandEnergies(bands, SpectrumPeaks(Magnitudes(fft), deltaFreq))
  }

  /**
   * `findDominantFrequency`: score the bands from the spectrum's peaks and
   * keep the first band whose score strictly beats the running maximum,
   * which starts at zero.
   */
  method FindDominantFrequency(fft: seq<real>, deltaFreq: real, bands: seq<Band>) returns (r: Option<Detection>)
    requires deltaFreq > 0.0 && AllCentered(bands)
    ensures DominantChoice(bands, SpectrumEnergies(fft, deltaFreq, bands), r)
    ensures r.Some? ==> r.value.confidence > 0.0 && exists j :: 0 <= j < |bands| && r.value.freq == bands[j].center
  {
    var magnitudeSpectrum := MagnitudeSpectrum(fft);
    assert magnitudeSpectrum == Magnitudes(fft);
    var peaks := FindPeaks(magnitudeSpectrum, deltaFreq);
    var energies := CalculateBandEnergies(bands, peaks);
    var dominant := StrongestBand(energies);
    if dominant.Some? && bands[dominant.value].note != "" {
      r := Some(Detection(bands[dominant.value].center, energies[dominant.value]));
    } else {
      r := None;
      forall k | 0 <= k < |energies| && FirstMax(energies, k)
        ensures energies[k] <= 0.0 || bands[k].note == ""
      {
        if dominant.Some? {
          FirstMaxUnique(energies, k, dominant.value);
        }
      }
    }
  }

  /**
   * The scan of `findDominantFrequency` over the band scores: the running
   * maximum starts at zero and only a strictly larger score replaces it, so
   * the result is the first band with the largest score, or none when no
   * score is positive.
   */
  method StrongestBand(energies: seq<real>) returns (dominant: Option<nat>)
    ensures dominant.None? <==> forall m :: 0 <= m < |energies| ==> energies[m] <= 0.0
    ensures dominant.Some? ==> FirstMax(energies, dominant.value) && energies[dominant.value] > 0.0
  {
    var maxEnergy := 0.0;
    dominant := None;
    var j := 0;
    while j < |energies|
      invariant 0 <= j <= |energies|
      invariant dominant.None? ==> maxEnergy == 0.0 && forall m :: 0 <= m < j ==> energies[m] <= 0.0
      invariant dominant.Some? ==>
        && FirstMaxBelow(energies, j, dominant.value)
        && maxEnergy == energies[dominant.value] && maxEnergy > 0.0
    {
      if energies[j] > maxEnergy {
        maxEnergy := energies[j];
        dominant := Some(j);
      }
      j := j + 1;
    }
  }

  // ---------------------------------------------------------------------
  // Nearest note, cents and tuning status

  /**
   * `calculateCents`' guard: zero unless both frequencies are truthy; the
   * rounded logarithm itself is the parameter `centsOf`.
   */
  function CalculateCents(actualFreq: Option<real>, targetFreq: Option<real>, centsOf: (real, real) -> int): (c: int)
    ensures !Truthy(actualFreq) || !Truthy(targetFreq) ==> c == 0
    ensures Truthy(actualFreq) && Truthy(targetFreq) ==> c == centsOf(actualFreq.value, targetFreq.value)
  {
    if !Truthy(actualFreq) || !Truthy(targetFreq) then 0
    else centsOf(actualFreq.value, targetFreq.value)
  }

  /** Note k is nearest to f among notes[0..n), and strictly nearer than every earlier note. */
  predicate NearestBelow(notes: NoteTable, f: real, n: int, k: int)
    requires n <= |notes|
  {
    && 0 <= k < n
    && (forall m :: 0 <= m < n ==> Abs(notes[k].1 - f) <= Abs(notes[m].1 - f))
    && (forall m :: 0 <= m < k ==> Abs(notes[k].1 - f) < Abs(notes[m].1 - f))
  }

  /** The answer `findClosestNote` gives. */
  predicate ClosestMatch(notes: NoteTable, frequency: Option<real>, centsOf: (real, real) -> int, m: NoteMatch)
  {
    if !Truthy(frequency) || |notes| == 0 then
      m == NoteMatch(None, None, Infinity, 0)
    else
      exists k :: 0 <= k < |notes| && NearestBelow(notes, frequency.value, |notes|, k)
        && m == NoteMatch(Some(notes[k].0), Some(notes[k].1), Finite(Abs(notes[k].1 - frequency.value)),
                          CalculateCents(frequency, Some(notes[k].1), centsOf))
  }

  /**
   * `findClosestNote`: the first note of the table with the smallest
   * absolute difference to the frequency, its reference frequency, that
   * difference and the cents offset.
   */
  method FindClosestNote(notes: NoteTable, frequency: Option<real>, centsOf: (real, real) -> int) returns (m: NoteMatch)
    ensures ClosestMatch(notes, frequency, centsOf, m)
  {
    if !Truthy(frequency) {
      return NoteMatch(None, None, Infinity, 0);
    }
    var f := frequency.value;
    var closest: Option<nat> := None;
    var minDiff := Infinity;
    var j := 0;
    while j < |notes|
      invariant 0 <= j <= |notes|
      invariant closest.None? <==> j == 0
      invariant closest.None? ==> minDiff == Infinity
      invariant closest.Some? ==>
        NearestBelow(notes, f, j, closest.value) && minDiff == Finite(Abs(notes[closest.value].1 - f))
    {
      var diff := Abs(notes[j].1 - f);
      if Below(diff, minDiff) {
        minDiff := Finite(diff);
        closest := Some(j);
      }
      j := j + 1;
    }
    var targetFreq: Option<real> := if closest.Some? then Some(notes[closest.value].1) else None;
    var cents := CalculateCents(frequency, targetFreq, centsOf);
    m := NoteMatch(if closest.Some? then Some(notes[closest.value].0) else None, targetFreq, minDiff, cents);
  }

  /**
   * Looking up a table frequency finds the first note with that frequency,
   * at difference zero; the cents are zero whenever the logarithm gives zero
   * for equal frequencies.
   */
  lemma ClosestMatchOfTableFrequency(notes: NoteTable, k: int, centsOf: (real, real) -> int, m: NoteMatch)
    requires 0 <= k < |notes| && notes[k].1 != 0.0
    requires forall j :: 0 <= j < k ==> notes[j].1 != notes[k].1
    requires ClosestMatch(notes, Some(notes[k].1), centsOf, m)
    ensures m.note == Some(notes[k].0) && m.frequency == Some(notes[k].1) && m.difference == Finite(0.0)
    ensures centsOf(notes[k].1, notes[k].1) == 0 ==> m.cents == 0
  {
    var f := notes[k].1;
    var k' :| 0 <= k' < |notes| && NearestBelow(notes, f, |notes|, k')
      && m == NoteMatch(Some(notes[k'].0), Some(notes[k'].1), Finite(Abs(notes[k'].1 - f)),
                        CalculateCents(Some(f), Some(notes[k'].1), centsOf));
    NearestOfTableFrequency(notes, f, k, k');
  }

  /** The nearest note to a table frequency is its first occurrence. */
  lemma NearestOfTableFrequency(notes: NoteTable, f: real, k: int, k': int)
    requires 0 <= k < |notes| && notes[k].1 == f
    requires forall j :: 0 <= j < k ==> notes[j].1 != f
    requires NearestBelow(notes, f, |notes|, k')
    ensures k' == k
  {
    assert Abs(notes[k'].1 - f) <= Abs(notes[k].1 - f);
    assert notes[k'].1 == f;
  }

  /**
   * `getTuningStatus`: no status without a target, "Perfect!" within half a
   * hertz, otherwise the direction of the error.
   */
  function GetTuningStatus(currentFreq: real, targetFreq: Option<real>): (status: string)
    ensures status == "" <==> !Truthy(targetFreq)
    ensures status == "Perfect!" <==> Truthy(targetFreq) && Abs(currentFreq - targetFreq.value) < 0.5
    ensures status == "Too high" <==> Truthy(targetFreq) && currentFreq - targetFreq.value >= 0.5
    ensures status == "Too low" <==> Truthy(targetFreq) && currentFreq - targetFreq.value <= -0.5
  {
    if !Truthy(targetFreq) then ""
    else
      var diff := currentFreq - targetFreq.value;
      if Abs(diff) < 0.5 then "Perfect!"
      else if diff > 0.0 then "Too high" else "Too low"
  }

  // ---------------------------------------------------------------------
  // Power gate and the detector object

  /** `val * val`. */
  function Square(x: real): real
  {
    x * x
  }

  /** `data.reduce((sum, val) => sum + val * val, 0)`. */
  function SumOfSquares(data: seq<real>): real
  {
    if |data| == 0 then 0.0 else SumOfSquares(data[..|data| - 1]) + Square(data[|data| - 1])
  }

  /**
   * The block is rejected by the power gate: its mean square lies below the
   * threshold. An empty block gives NaN in JavaScript, which compares false,
   * so it is not rejected here.
   */
  predicate TooWeak(data: seq<real>)
  {
    |data| > 0 && SumOfSquares(data) / (|data| as real) < PowerThreshold
  }

  /** A square is never negative. */
  lemma SquareNonNegative(x: real)
    ensures Square(x) >= 0.0
  {
    if x < 0.0 {
      assert (-x) * (-x) > 0.0;
    }
  }

  /**
   * The sum of squares is non-negative, at least every single square in it,
   * and zero for an all-zero block.
   */
  lemma {:induction false} SumOfSquaresBounds(data: seq<real>)
    ensures SumOfSquares(data) >= 0.0
    ensures forall i :: 0 <= i < |data| ==> SumOfSquares(data) >= Square(data[i])
    ensures (forall i :: 0 <= i < |data| ==> data[i] == 0.0) ==> SumOfSquares(data) == 0.0
  {
    if |data| > 0 {
      var init := data[..|data| - 1];
      SumOfSquaresBounds(init);
      SquareNonNegative(data[|data| - 1]);
      forall i | 0 <= i < |init| ensures data[i] == init[i] { }
    }
  }

  /** Dividing by a positive count keeps a lower bound scaled by it. */
  lemma DivideBound(s: real, n: real, t: real)
    requires n > 0.0 && s >= t * n
    ensures s / n >= t
  {
    assert s / n * n == s;
  }

  /** A silent, non-empty block never passes the power gate. */
  lemma SilentBlockRejected(data: seq<real>)
    requires |data| > 0 && forall i :: 0 <= i < |data| ==> data[i] == 0.0
    ensures TooWeak(data)
  {
    SumOfSquaresBounds(data);
  }

  /**
   * A block holding one sample whose square reaches the threshold times the
   * block length always passes the power gate.
   */
  lemma LoudSampleAccepted(data: seq<real>, i: int)
    requires 0 <= i < |data|
    requires Square(data[i]) >= PowerThreshold * (|data| as real)
    ensures !TooWeak(data)
  {
    SumOfSquaresBounds(data);
    DivideBound(SumOfSquares(data), |data| as real, PowerThreshold);
  }

  /** A detection as `findPeakFrequency` hands it back. */
  function AsPitchResult(r: Option<Detection>): PitchResult
  {
    match r
    case None => PitchResult(None, 0.0)
    case Some(d) => PitchResult(Some(d.freq), d.confidence)
  }

  /**
   * The detector: its sample rate, its note tables and the band table that
   * `initializeFrequencyBands` fills. The Hann window is not part of this
   * model; the spectrum of the windowed block is handed in.
   */
  class NoteDetector {
    const sampleRate: real
    const guitarNotes: NoteTable
    const extendedNotes: NoteTable
    var frequencyBands: seq<Band>

    ghost predicate Valid()
      reads this
    {
      && sampleRate > 0.0
      && guitarNotes == GuitarNotes
      && extendedNotes == guitarNotes
      && frequencyBands == BandTable(extendedNotes)
    }

    constructor (sampleRate: real)
      requires sampleRate > 0.0
      ensures Valid() && this.sampleRate == sampleRate
    {
      this.sampleRate := sampleRate;
      guitarNotes := GuitarNotes;
      extendedNotes := GuitarNotes;
      new;
      InitializeFrequencyBands();
    }

    /**
     * `initializeFrequencyBands`: one band per note, in table order; every
     * note of positive frequency gets a band that strictly contains it.
     */
    method InitializeFrequencyBands()
      modifies this`frequencyBands
      ensures frequencyBands == BandTable(extendedNotes)
      ensures forall i :: 0 <= i < |extendedNotes| && extendedNotes[i].1 > 0.0 ==>
        frequencyBands[i].note == extendedNotes[i].0 && frequencyBands[i].center == extendedNotes[i].1
        && Centered(frequencyBands[i])
    {
      frequencyBands := [];
      var i := 0;
      while i < |extendedNotes|
        invariant 0 <= i <= |extendedNotes|
        invariant frequencyBands == BandTable(extendedNotes[..i])
      {
        var (note, freq) := extendedNotes[i];
        var bandWidth := if '2' in note then 0.02 else 0.01;
        frequencyBands := frequencyBands + [Band(note, freq * (1.0 - bandWidth), freq * (1.0 + bandWidth), freq)];
        i := i + 1;
      }
      assert extendedNotes[..i] == extendedNotes;
      forall i | 0 <= i < |extendedNotes| && extendedNotes[i].1 > 0.0
        ensures Centered(frequencyBands[i])
      {
        BandShape(extendedNotes[i].0, extendedNotes[i].1);
      }
    }

    /**
     * `findPeakFrequency`: the power gate, then the dominant band of the
     * block's spectrum. `spectrum` stands for the FFT magnitudes of the
     * windowed block.
     */
    method FindPeakFrequency(data: seq<real>, spectrum: seq<real>) returns (result: PitchResult)
      requires Valid()
      ensures TooWeak(data) ==> result == PitchResult(None, 0.0)
      ensures !TooWeak(data) ==>
        exists r :: result == AsPitchResult(r)
          && DominantChoice(frequencyBands, SpectrumEnergies(spectrum, sampleRate / BlockSize as real, frequencyBands), r)
      ensures result.frequency.None? <==> result.amplitude == 0.0
      ensures result.frequency.Some? ==>
        result.amplitude > 0.0 && exists i :: 0 <= i < |extendedNotes| && result.frequency.value == extendedNotes[i].1
    {
      GuitarNotesWellFormed();
      BandTableCentered(extendedNotes);
      if |data| > 0 {
        var signalPower := SumOfSquares(data) / (|data| as real);
        if signalPower < PowerThreshold {
          return PitchResult(None, 0.0);
        }
      }
      var deltaFreq := sampleRate / BlockSize as real;
      var dominantFreq := FindDominantFrequency(spectrum, deltaFreq, frequencyBands);
      result := AsPitchResult(dominantFreq);
    }
  }
}
