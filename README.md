# Guitar tuner core in Dafny

A model of the two computational parts of the guitar-tools tuner page, with proofs of what they promise.

**Note detector** (`note-detector.js`). It turns one block of audio samples into a detected pitch:
- a power gate rejects quiet blocks;
- local maxima of the magnitude spectrum between 60 Hz and 4000 Hz become peaks;
- each peak adds weighted energy to the frequency band of every target note that contains it;
- the first band with the largest positive energy is the detection, and its center frequency is the pitch.

Around this sit the nearest-note lookup, the guard of the cents calculation, the tuning status text, `reverseBits` and the bit-reversal swap loop that opens the radix-2 FFT.

**Metronome** (`src/metronome.js`). A small state machine: playing or stopped, a tempo clamped to 40–200 BPM, a volume clamped to [0, 1], a time signature and the current beat. The interval body advances the beat with JavaScript's `%`. The click played is the accent buffer on the first beat and the regular buffer otherwise.

Files:
- `wrappers.dfy`: `Option`, standing for JavaScript's `null`.
- `bit_reversal.dfy` (module `BitReversal`): `reverseBits` and the in-place swap loop of `fft`, on two arrays.
- `note_detector.dfy` (module `NoteDetection`): the band table, peak picking, band scoring, the dominant-band scan, the nearest note, cents, tuning status, the power gate, and the `NoteDetector` class that owns the band table.
- `metronome.dfy` (module `Metronomes`): the `Metronome` class, clamping, and JavaScript's remainder.

Modelling choices:
- Note tables and band tables are JavaScript objects walked with `Object.entries`, which keeps insertion order; their keys are unique. They are modelled as sequences in that order.
- Frequencies, magnitudes, tempo and volume are exact reals.
- The magnitude spectrum is an input to the detector.
- A metronome's `currentBeat` is `Option<int>`. `None` is the NaN that `(currentBeat + 1) % 0` produces after a time signature of zero beats.
- The browser timer is the flag `intervalActive`. `Tick()` is one run of the interval body.
- Audio availability is fixed when the metronome is constructed (`audioReady`), and a played click is reported as the buffer it would use. This is exact: `initializeAudio` runs synchronously up to its first `await`, and by then it has created the audio context and `createClickSounds` has assigned both click buffers (`src/metronome.js:18-33`), so when the constructor returns audio is either ready or has failed.
- The detector is constructed with a positive sample rate, as the tuner page does with the audio context's rate (`tuner.js:303`). In the JavaScript code a zero or negative rate is not rejected; it makes `findPeaks` scan no bins, so nothing is ever detected.

Behaviour of the code a reader might not expect:
- The band weight divides by the full band width, so a peak on a band edge gets weight ½, not 0 (`WeightBounds`).
- Peaks come out in strictly increasing frequency, not as an unordered list (`SpectrumPeaksSpec`).
- No configuration is checked at construction.
- An empty sample block is not rejected by the power gate: its power is NaN, and NaN is not below the threshold (`TooWeak`).

## Model

| member | source | states |
|---|---|---|
| BitReversal.Reverse | note-detector.js:234-241 | the value with the `bits` low bits of x reversed is below 2^bits |
| BitReversal.ReverseBits | note-detector.js:234-241 | the shift loop returns exactly the bit reversal of x's `bits` low bits, which is below 2^bits |
| BitReversal.ShiftInLowBit | note-detector.js:237-238 | one turn of the shift loop (shift the low bit of x into y, halve x) keeps y·2^(bits−i) + Reverse(x, bits−i) unchanged |
| BitReversal.ReverseTopZero | note-detector.js:234-241 | reversing a value whose top bit is clear doubles the reversal of the remaining bits |
| BitReversal.ReverseTopOne | note-detector.js:234-241 | reversing a value whose top bit is set gives twice the reversal of the rest, plus one |
| BitReversal.ReverseInvolutive | note-detector.js:234-241 | bit reversal is its own inverse on [0, 2^bits), so each index's swap partner has that index as its partner |
| BitReversal.BitReversedTwice | note-detector.js:207-213 | applying the bit-reversed order twice restores the original sequence |
| BitReversal.ReorderStep | note-detector.js:208-212 | swapping i with its partner when the partner is larger moves the loop state from "indices below i handled" to "indices below i+1 handled" |
| BitReversal.ReorderedAll | note-detector.js:207-213 | once every index is handled, the array is the bit-reversed original |
| BitReversal.OneElementReversed | note-detector.js:204 | a transform of length at most 1 is already in bit-reversed order (the early return) |
| BitReversal.SwapKeepsElements | note-detector.js:210-211 | one destructuring swap keeps the multiset of elements |
| BitReversal.ProgressStart | note-detector.js:207 | before the first turn nothing is handled and nothing has moved |
| BitReversal.ProgressDone | note-detector.js:207-213 | after the last turn the array is bit-reversed and holds the original elements |
| BitReversal.BitReversedSameElements | note-detector.js:207-213 | the bit-reversed order is a permutation of the input |
| BitReversal.ReorderTurn | note-detector.js:208-212 | one turn of the loop on both arrays advances the handled prefix of each |
| BitReversal.BitReverseReorder | note-detector.js:202-213 | `real` and `imag` each end in bit-reversed order of their old contents, and each is a permutation of its old contents |
| NoteDetection.BandShape | note-detector.js:45-50 | a band is centered on its note with half-width 2% of the frequency when the name contains '2' and 1% otherwise; for a positive frequency the center lies strictly inside |
| NoteDetection.BandTableCentered | note-detector.js:40-52 | one band per note, and every band built from a positive frequency is centered |
| NoteDetection.GuitarNotesWellFormed | note-detector.js:11-23 | the six standard-tuning notes have positive frequencies and distinct, non-empty names |
| NoteDetection.SeqMax | note-detector.js:149 | `Math.max(...spectrum)` bounds every magnitude and is one of them |
| NoteDetection.MinIndex | note-detector.js:133 | the lowest searched bin, `floor(60 / deltaFreq)`, is non-negative |
| NoteDetection.MaxIndex | note-detector.js:134-137 | the highest searched bin is `floor(4000 / deltaFreq)` clipped to the spectrum length, so it never exceeds either |
| NoteDetection.Threshold | note-detector.js:147 | the relative threshold is 0.05 exactly for frequencies strictly between 100 and 120 Hz, and 0.1 otherwise |
| NoteDetection.ScanPeaksSound | note-detector.js:138-156 | every reported peak is an accepted local maximum of the scanned bin range, with frequency `i * deltaFreq` and its own magnitude |
| NoteDetection.ScanPeaksComplete | note-detector.js:138-156 | every accepted bin of the scanned range is reported |
| NoteDetection.ScanPeaksAbove | note-detector.js:138-145 | the first reported peak lies at or above the frequency of the first scanned bin |
| NoteDetection.AscendingPairwise | note-detector.js:138-156 | peaks ascending neighbour by neighbour ascend pairwise |
| NoteDetection.ScanPeaksAscending | note-detector.js:138-156 | reported peaks come out in strictly increasing frequency |
| NoteDetection.SpectrumPeaksSpec | note-detector.js:131-160 | the scan never reads outside the spectrum; every reported peak is an accepted bin of minIndex+1 .. maxIndex−2; every such accepted bin is reported; frequencies strictly increase |
| NoteDetection.PeakAtBin | note-detector.js:142-156 | bin i yields one peak exactly when it is a strict local maximum above the threshold (5% between 100 and 120 Hz, 10% elsewhere) times the spectrum maximum, and nothing otherwise |
| NoteDetection.FindPeaks | note-detector.js:131-160 | `findPeaks` returns exactly the peaks that `SpectrumPeaksSpec` characterises |
| NoteDetection.SearchWindow | note-detector.js:132-136 | `minIndex` and `maxIndex` are the window bounds `MinIndex` and `MaxIndex`: minIndex is non-negative and maxIndex never exceeds the spectrum length |
| NoteDetection.ScanWindow | note-detector.js:138-157 | the loop over bins lo .. hi−1 collects exactly the peaks of those bins, in bin order |
| NoteDetection.WeightBounds | note-detector.js:173-176 | inside a centered band the weight lies in [½, 1], equals 1 exactly at the center and ½ on either edge |
| NoteDetection.ContributionSign | note-detector.js:172-177 | a peak adds a non-negative amount to a band, positive exactly when it lies inside the band with positive amplitude |
| NoteDetection.BandEnergyNonNegative | note-detector.js:162-183 | band energies from non-negative peaks are non-negative |
| NoteDetection.BandEnergyWithoutPeaks | note-detector.js:165-168 | a band that no peak falls into keeps its initial energy 0 |
| NoteDetection.BandEnergyPositive | note-detector.js:162-183 | a band's energy is positive if and only if some peak of positive amplitude falls inside it |
| NoteDetection.BandEnergies | note-detector.js:165-168 | one energy per band |
| NoteDetection.CalculateBandEnergies | note-detector.js:162-183 | the two loops give every band the sum, over the peaks in order, of their weighted contributions |
| NoteDetection.AddPeak | note-detector.js:172-179 | one peak adds its contribution to every band and changes nothing else |
| NoteDetection.FirstMaxExists | note-detector.js:110-117 | a non-empty score list has a first maximum |
| NoteDetection.FirstMaxUnique | note-detector.js:110-117 | the first maximum is unique |
| NoteDetection.DominantChoiceNone | note-detector.js:110-128 | with named bands there is no detection if and only if no band energy is positive |
| NoteDetection.MagnitudeSpectrum | note-detector.js:95-99 | every bin becomes its absolute value, which is non-negative |
| NoteDetection.PeaksOfMagnitudesNonNegative | note-detector.js:95-102 | peaks of a magnitude spectrum have non-negative amplitudes |
| NoteDetection.SpectrumEnergies | note-detector.js:94-107 | one energy per band for the peaks of the magnitude spectrum |
| NoteDetection.FindDominantFrequency | note-detector.js:94-129 | the result is the first band with the largest energy, if that energy is positive and the band is named, as (its center, its energy); otherwise null; a detection has positive confidence and a band center as its frequency |
| NoteDetection.StrongestBand | note-detector.js:110-117 | the scan from maxEnergy = 0 with strict `>` finds nothing if and only if no energy is positive, and otherwise the first index of the largest energy |
| NoteDetection.CalculateCents | note-detector.js:269-272 | 0 unless both frequencies are truthy; otherwise the rounded cents function of the two |
| NoteDetection.FindClosestNote | note-detector.js:243-267 | a falsy frequency or an empty table gives (null, null, Infinity, 0); otherwise the first note with the smallest absolute difference, its frequency, that difference and the cents |
| NoteDetection.ClosestMatchOfTableFrequency | note-detector.js:243-267 | looking up a table frequency finds the first note with that frequency at difference 0, and its cents are 0 whenever the cents function gives 0 for equal frequencies |
| NoteDetection.NearestOfTableFrequency | note-detector.js:250-256 | the nearest note to a table frequency is the first note with that frequency |
| NoteDetection.GetTuningStatus | note-detector.js:274-280 | "" if and only if the target is falsy; otherwise "Perfect!" if and only if within 0.5 Hz, "Too high" if and only if at least 0.5 Hz above, "Too low" if and only if at least 0.5 Hz below |
| NoteDetection.SumOfSquaresBounds | note-detector.js:56 | the sum of squares is non-negative, at least each sample's square, and 0 for an all-zero block |
| NoteDetection.SilentBlockRejected | note-detector.js:56-64 | a non-empty silent block is rejected by the power gate |
| NoteDetection.LoudSampleAccepted | note-detector.js:56-64 | a block with one sample whose square reaches threshold × length passes the power gate |
| NoteDetection.NoteDetector.constructor | note-detector.js:2-30 | the detector holds its sample rate, the six guitar notes as both tables, and the band table built from them |
| NoteDetection.NoteDetector.InitializeFrequencyBands | note-detector.js:40-52 | the band table has one band per note in table order, and each note of positive frequency gets a centered band with that name and center |
| NoteDetection.NoteDetector.FindPeakFrequency | note-detector.js:54-92 | a weak block gives (null, 0); otherwise the dominant band for the spectrum at `deltaFreq = sampleRate / 32768`; frequency is null exactly when amplitude is 0, and a detected frequency is a note frequency with positive amplitude |
| Metronomes.Clamp | src/metronome.js:93 | `Math.max(lo, Math.min(hi, x))` lies in [lo, hi]; it is x inside the range, lo below and hi above |
| Metronomes.ClampIdempotent | src/metronome.js:106 | clamping an already clamped value changes nothing |
| Metronomes.JsRem | src/metronome.js:61 | JavaScript `%` is NaN exactly for a zero divisor; otherwise the remainder has the dividend's sign and is smaller in magnitude than the divisor |
| Metronomes.JsRemSmall | src/metronome.js:61 | a dividend between 0 and abs(b) is its own remainder, except abs(b) itself, which gives 0 |
| Metronomes.NextBeat | src/metronome.js:61 | the next beat is NaN exactly when the beat is NaN or the signature has zero beats; from a beat of at least −1 it lies in [0, abs(beats)) |
| Metronomes.NextBeatInRange | src/metronome.js:60-63 | the interval body keeps the beat in range, and with positive beats it lies in [0, beats) |
| Metronomes.BeatAfterTicks | src/metronome.js:53-63 | n ticks after a reset to 0, the beat is n mod beats |
| Metronomes.ModSuccessor | src/metronome.js:61 | counting one further wraps the remainder to 0 after beats − 1 |
| Metronomes.AccentEveryBar | src/metronome.js:60-63 | after a reset, the beat is back at the accent beat exactly on the ticks that are multiples of `beats` |
| Metronomes.Metronome.constructor | src/metronome.js:2-16 | a new metronome is stopped, at 120 BPM in 4/4, on the first beat, at volume 0.5, with no timer |
| Metronomes.Metronome.PlayClick | src/metronome.js:77-90 | no click without audio; otherwise the accent buffer exactly on beat 0 and the regular buffer on every other beat |
| Metronomes.Metronome.Start | src/metronome.js:49-64 | a no-op when already playing; otherwise playing, timer set, beat reset to 0 and the accent clicked at once; tempo, volume and signature unchanged |
| Metronomes.Metronome.Stop | src/metronome.js:66-75 | a no-op when stopped; otherwise stopped, timer cleared, beat reset to 0; tempo, volume and signature unchanged |
| Metronomes.Metronome.Tick | src/metronome.js:60-63 | the beat becomes `(beat + 1) % beats` (NaN for zero beats), stays in [0, beats) for positive beats, and the click for the new beat is played |
| Metronomes.Metronome.SetTempo | src/metronome.js:92-98 | the tempo is clamped to [40, 200]; a playing metronome is restarted from the first beat with an accent click; a stopped one keeps its beat |
| Metronomes.Metronome.SetVolume | src/metronome.js:105-108 | the volume is clamped to [0, 1] and nothing else changes |
| Metronomes.Metronome.SetTimeSignature | src/metronome.js:100-103 | the signature is stored as given, with no check, and the beat is reset to 0 |
| Metronomes.Metronome.GetCurrentBeat | src/metronome.js:110-112 | the one-based beat, NaN exactly when the beat is NaN, and in [1, beats] for positive beats |
| Metronomes.Metronome.IsAccentBeat | src/metronome.js:114-116 | true exactly when the one-based beat is 1 |

## Left out

- The FFT butterflies (`note-detector.js:216-231`), the Hann window (`note-detector.js:32-38`) and the square-root magnitudes of `calculateFFT` (`note-detector.js:185-200`) are floating-point trigonometry and roots. The detector takes the magnitude spectrum as an input instead.
- NoteDetection.NoteDetector.FindPeakFrequency: takes the spectrum of the windowed block as a parameter. It states nothing about how that spectrum relates to the samples.
- BitReversal.BitReverseReorder: requires the length to be a power of two, 2^log2n. `fft` passes `Math.log2(n)`, which is fractional for other lengths. The transform runs on the samples handed to `findPeakFrequency`; the tuner page hands it `analyser.frequencyBinCount` samples, half its `fftSize` of 32768 (`tuner.js:298`, `tuner.js:337-341`), so the transform has 16384 points, a power of two.
- BitReversal.ReverseBits: uses unbounded naturals. JavaScript's `<<` and `>>>` work on 32 bits, which makes no difference for the 14-bit indices of a 16384-point transform.
- NoteDetection.CalculateCents: `Math.round(1200 * Math.log2(a / t))` is the parameter `centsOf`. Only the guard around it is modelled.
- NoteDetection.SumOfSquaresBounds: states that an all-zero block sums to 0, and not the converse. `LoudSampleAccepted` gives the other direction at the level of the power gate.
- Float32 rounding and NaN or infinite samples are not modelled. Frequencies, magnitudes and energies are exact reals.
- `console.log` output is not modelled.
- The audio side of the metronome is not modelled: `initializeAudio`, `createClickSounds`, `createClickBuffer`, resuming the context and starting a buffer source (`src/metronome.js:18-47`, `src/metronome.js:80-89`). This includes the buffer rebuild in `setVolume`.
- The timer period, `60 / tempo` seconds, is not modelled. Timing and the scheduling of `setInterval` are outside the model; a tick is an explicit `Tick()` call.
- `destroy` (`src/metronome.js:118-123`) is `stop` followed by closing the audio context. Its state effect is that of `Stop`.
- Non-numeric tempo and volume values (NaN from parsing user input) are not modelled: `SetTempo` and `SetVolume` take reals.
- `tuner.js` (page wiring, microphone capture and display) and `webpack.config.js` are not part of this model.
