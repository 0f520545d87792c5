# procedural-ambient-pwa, the sequencing core in Dafny

This project models the sequencing logic of procedural-ambient-pwa, a browser
app that plays generative ambient music. The model covers three parts:

- **The two ambient engines.** The current one is `src/audio/engine.ts`; the
  earlier one is `src/Audio/engine.ts`. Once per beat, an engine picks a
  scale degree: the current engine uses a Markov interval table blended
  toward uniform by the complexity, and the earlier one uses a centre-weighted
  random walk. The current engine also has a cadence override every 16 beats,
  a chord offset that changes every bar, and a Euclidean 3-in-8 bass rhythm.
  The engine then schedules a melody note, a detuned two-voice pad and a
  bass note, each with an attack/decay/sustain/release gain envelope. The
  parameter setters and idempotent `start`/`stop` are modelled too.
- **The sequencer core** (`src/core`). The `Transport` play/pause/stop
  state machine has a clamped tempo, loop points, subscriber lists and a
  look-ahead loop that advances the position beat by beat. The
  `AudioEngine` holds a track registry and a pattern registry and applies
  the solo/mute rule. The data model is made of `Note`, `Clip`, `Pattern`
  and `Track`.
- **The helpers.** These are `clamp`, `lerp`, the beat/second conversions,
  the delay and master-filter mix mappings, and the sample-and-hold
  bitcrusher.

Code that updates objects in place is modelled as classes with `modifies`
frames: `Transport`, `AudioEngine`, `Track`, `Pattern`, `Note`, both
engines and the bitcrusher. The bitcrusher works in place on an `array`.
Code made of expressions is modelled as functions: `Clip`, `clamp`, `lerp`,
the conversions and the effect mappings. Loops in the source are methods
with loop invariants: the transport's look-ahead, the weighted selection,
the bitcrusher block, pattern transpose/quantize/clone and the solo/mute
update.

The model makes these choices:

- **Random values are parameters.** Each `Math.random()` a step consumes is
  an explicit draw.
- **The transcendental weights are parameters.** The earlier engine's two
  `Math.exp` weights are passed in.
- **Timers are handles.** The `setTimeout` handle is a parameter, and the
  audio clock (`currentTime`) is an input.
- **Ids are opaque.** They are strings chosen by the caller.
- **Pitches are semitone offsets.** A pitch is kept as an offset from the
  root frequency, plus a multiplicative factor for the pad detune and the
  bass halving. `2^(x/12)` is never computed.
- **JavaScript arithmetic is written out.** The truncating `%`, `Math.round`
  (halves up), `||` defaults on strings, and the stable `Array.prototype.sort`
  appear exactly where the program relies on them.
- **Numbers are exact reals.** Times, gains and weights are `real`, and
  integers are unbounded.

Where the comments and the code disagree, the model follows the code:

- At `src/audio/engine.ts:93-96` the comments speak of an "8-bar section"
  cycle. The code takes `Math.floor(beatCount / 4) % 4`, so the four chord
  offsets change every four beats and the cycle repeats every 16 beats
  (`SectionOffsetCycle`).
- The comments in the quantize test (`src/__tests__/pattern.test.ts:113-115`)
  name 0.25, 1.75 and 2. The assertions and the code give 0.3125, 1.6875
  and 2.125 (`QuantizedSixteenths`).

## Model

| member | source | states |
|---|---|---|
| Common.Clamp | src/utils/common.ts:18-20 | with min <= max the result lies in [min, max] and equals the value when it already does; below or above the range it is min or max; with min > max it is min |
| Common.ClampIdempotent | src/utils/common.ts:18-20 | clamping twice equals clamping once, for any bounds |
| Common.ClampMonotone | src/utils/common.ts:18-20 | clamping preserves the order of values |
| Conversion.Lerp | src/utils/audio/conversion.ts:47-49 | t <= 0 gives a, t >= 1 gives b |
| Conversion.LerpBetween | src/utils/audio/conversion.ts:47-49 | the result always lies between a and b inclusive |
| Conversion.BeatsToSeconds | src/utils/audio/conversion.ts:57-59 | converting the seconds back to beats gives the beats again (both orders in BeatsSecondsRoundTrip) |
| Conversion.SecondsToBeats | src/utils/audio/conversion.ts:67-69 | at a positive tempo the beats are positive exactly when the seconds are, and zero exactly when they are |
| Conversion.BeatsSecondsRoundTrip | src/utils/audio/conversion.ts:57-69 | for bpm != 0, seconds-to-beats undoes beats-to-seconds and the other way round |
| Conversion.BeatsToSecondsLinear | src/utils/audio/conversion.ts:57-59 | one beat lasts 60/bpm seconds and durations add up |
| JsSemantics.JsRem | src/audio/engine.ts:81 | JavaScript's remainder: the Euclidean residue for a non-negative dividend, the negated residue of the magnitude otherwise, always smaller in magnitude than the divisor |
| JsSemantics.Round | src/core/sequencer/Pattern.ts:48 | `Math.round` lands within half a unit of x, halves going up |
| JsSemantics.OrDefault | src/core/sequencer/Pattern.ts:21 | `name \|\| d` gives d exactly when the name is absent, empty or d itself, and the name otherwise |
| Seqs.Filter | src/core/sequencer/Pattern.ts:32 | the filtered list is no longer than the input and holds only input elements that pass |
| Seqs.FilterCount | src/core/sequencer/Pattern.ts:32 | each kept element keeps its multiplicity and each dropped one goes entirely |
| Seqs.FilterMembership | src/core/sequencer/Track.ts:81 | x survives exactly when it is in the list and passes |
| Seqs.FilterConcat | src/core/sequencer/Track.ts:117 | filtering distributes over concatenation, so the relative order is kept |
| Seqs.FilterAll | src/core/sequencer/Track.ts:81 | a filter every element passes changes nothing |
| Seqs.FindIndex | src/core/sequencer/Pattern.ts:36 | -1 when nothing passes, otherwise the first passing index |
| Seqs.Find | src/core/sequencer/Track.ts:85 | none exactly when nothing passes; otherwise the element at the first passing index |
| Seqs.IndexOf | src/core/engine/Transport.ts:123 | -1 exactly when x is absent; otherwise the first position of x |
| Seqs.RemoveFirst | src/core/engine/Transport.ts:123-124 | an absent x leaves the list alone; otherwise exactly the first occurrence is spliced out |
| Seqs.RemoveFirstCount | src/core/engine/Transport.ts:123-124 | the removal takes exactly one copy of x away, as multisets |
| Seqs.InsertionPoint | src/core/sequencer/Pattern.ts:28 | the stable insertion point: every element before it has key <= key(x), and the next one is strictly larger |
| Seqs.InsertBy | src/core/sequencer/Pattern.ts:27-28 | inserting adds exactly one x, as multisets |
| Seqs.InsertBySorted | src/core/sequencer/Pattern.ts:28 | insertion into a sorted list keeps it sorted |
| Seqs.SortBy | src/core/sequencer/Track.ts:77 | the sort is a permutation of its input |
| Seqs.SortBySorted | src/core/sequencer/Track.ts:77 | the sort's result is ordered by the key |
| Seqs.InsertByLargest | src/core/sequencer/Track.ts:76-77 | an element no smaller than the rest is placed last |
| Seqs.SortBySortedIdentity | src/core/sequencer/Track.ts:77 | stability: sorting a sorted list changes nothing |
| Seqs.SortAfterAppend | src/core/sequencer/Track.ts:76-77 | push followed by sort on a sorted list is one stable insertion |
| Clips.NewClip | src/core/sequencer/Clip.ts:12-23 | the id, span and pattern are as given; the name is 'Clip' exactly when it was absent, empty or 'Clip' |
| Clips.CloneClip | src/core/sequencer/Clip.ts:36-38 | the clone has a new id and the same span and pattern; a non-empty name is copied and an empty one becomes 'Clip' |
| Clips.Overlaps | src/core/sequencer/Clip.ts:25-30 | a beat both clips contain makes them overlap (symmetry and the converse for positive lengths are in OverlapsIsCommonBeat) |
| Clips.Contains | src/core/sequencer/Clip.ts:32-34 | a clip that contains a beat has positive length and starts at or before it (the zero-length case is in ZeroLengthClip) |
| Clips.OverlapsIsCommonBeat | src/core/sequencer/Clip.ts:25-34 | overlap is symmetric; a beat both clips contain makes them overlap, and for positive lengths the converse holds |
| Clips.ZeroLengthClip | src/core/sequencer/Clip.ts:25-34 | a zero-length clip contains no beat yet overlaps a clip whose open span covers its position |
| Notes.Note.constructor | src/core/sequencer/Note.ts:15-26 | the fields are as given; the duration defaults to 1 and the velocity to 0.8 |
| Notes.Note.Clone | src/core/sequencer/Note.ts:28-31 | a fresh note with a new id and equal pitch, time, duration and velocity |
| Notes.Note.Transpose | src/core/sequencer/Note.ts:33-35 | pitch grows by k and nothing else is in the frame |
| Notes.TransposeBackAndClone | src/core/sequencer/Note.ts:28-35 | transposing by k and then by -k restores the pitch; a transposed clone is a different object and the original keeps its values |
| Patterns.QuantizedNearest | src/core/sequencer/Pattern.ts:45-50 | for n > 0 a snapped time moves by more than -1/(2n) and at most 1/(2n), and snapping twice is snapping once |
| Patterns.QuantizedMonotone | src/core/sequencer/Pattern.ts:45-50 | snapping is monotone, so it never reorders notes |
| Patterns.QuantizedSixteenths | src/__tests__/pattern.test.ts:110-134 | on the sixteenth grid, 0.3, 1.7 and 2.1 snap to 0.3125, 1.6875 and 2.125 |
| Patterns.Pattern.constructor | src/core/sequencer/Pattern.ts:19-24 | the length defaults to 16, the name to 'Pattern' (also for an empty name), and there are no notes |
| Patterns.Pattern.AddNote | src/core/sequencer/Pattern.ts:26-29 | the notes gain exactly that note and are time-ordered; in an ordered list it goes after every note not later than itself and before every later one |
| Patterns.Pattern.RemoveNote | src/core/sequencer/Pattern.ts:31-33 | exactly the notes with another id remain, in order, with their multiplicities |
| Patterns.Pattern.GetNote | src/core/sequencer/Pattern.ts:35-37 | none exactly when no note has the id; otherwise the first such note |
| Patterns.Pattern.Transpose | src/core/sequencer/Pattern.ts:39-43 | each listed note's pitch grows by k once per occurrence; times, durations, velocities and the list are unchanged |
| Patterns.RepeatedIsProduct | src/core/sequencer/Pattern.ts:39-43 | k added m times is m*k, so a note listed once moves by exactly k |
| Patterns.Pattern.Quantize | src/core/sequencer/Pattern.ts:45-50 | each onset becomes its snapped value and nothing else changes; a time-ordered pattern stays time-ordered |
| Patterns.Pattern.NotesInRange | src/core/sequencer/Pattern.ts:62-66 | a note is returned exactly when its onset lies in [start, end) |
| Patterns.Pattern.Clone | src/core/sequencer/Pattern.ts:68-72 | a fresh pattern with the same length and name, whose notes are fresh, pairwise distinct copies in the same order |
| Patterns.CloneIsIndependent | src/__tests__/pattern.test.ts:166-194 | transposing a clone leaves every note of the original at its old pitch, while the clone's notes move by k |
| Patterns.Pattern.Clear | src/core/sequencer/Pattern.ts:74-76 | no notes remain |
| Patterns.SortByOnset | src/core/sequencer/Pattern.ts:28 | sorting by onset yields a time-ordered permutation |
| Patterns.SortByOnsetInserts | src/core/sequencer/Pattern.ts:26-29 | on a time-ordered list, push and sort is a single stable insertion |
| Tracks.Track.constructor | src/core/sequencer/Track.ts:18-45 | defaults 'New Track', audio and '#4CAF50'; volume 0.8 applied to the output; pan 0; not muted, soloed or armed; no clips |
| Tracks.Track.AddClip | src/core/sequencer/Track.ts:75-78 | the clips gain exactly that clip and are position-ordered; in an ordered list it lands at its stable insertion point |
| Tracks.Track.RemoveClip | src/core/sequencer/Track.ts:80-82 | exactly the clips with another id remain, in order, with their multiplicities |
| Tracks.Track.GetClip | src/core/sequencer/Track.ts:84-86 | none exactly when no clip has the id; otherwise the first such clip |
| Tracks.Track.ClipsAt | src/core/sequencer/Track.ts:116-118 | a clip is returned exactly when it contains the beat |
| Tracks.Track.SetVolume | src/core/sequencer/Track.ts:88-95 | the stored volume is clamp(v, 0, 1); the output gain is 0 if muted, otherwise that volume |
| Tracks.Track.SetPan | src/core/sequencer/Track.ts:97-101 | the stored pan is clamp(p, -1, 1) |
| Tracks.Track.SetMute | src/core/sequencer/Track.ts:103-106 | the flag is set, a clamped volume is kept, and the output gain follows the mute rule |
| Tracks.Track.SetSolo | src/core/sequencer/Track.ts:108-110 | only the solo flag changes |
| Tracks.Track.SetArmed | src/core/sequencer/Track.ts:112-114 | only the armed flag changes |
| Tracks.MuteRoundTrip | src/core/sequencer/Track.ts:103-106 | mute then unmute then restore leaves the flag and volume as they were, with the gain following the mute rule |
| Transports.NotifyPosition | src/core/engine/Transport.ts:150 | every position subscriber is called once, in registration order, with the position |
| Transports.NotifyPlayState | src/core/engine/Transport.ts:71 | every play-state subscriber is called once, in registration order, with the flag |
| Transports.AdvanceWithoutLoop | src/core/engine/Transport.ts:138-141 | without looping, n look-ahead iterations add n beats |
| Transports.AdvanceWithLoop | src/core/engine/Transport.ts:143-146 | with looping, after any iteration the position is before the loop end or at the loop start; a position inside a well-formed loop stays inside |
| Transports.ScheduleDivergesWhenBpmNegative | src/core/engine/Transport.ts:135-141 | with a negative tempo the schedule time only falls, so the look-ahead loop never exits |
| Transports.Transport.constructor | src/core/engine/Transport.ts:10-29 | not playing, position 0, loop [0, 32) disabled, no subscribers, and the tempo as given (unclamped) |
| Transports.Transport.State | src/core/engine/Transport.ts:55-64 | the snapshot carries the six public properties |
| Transports.Transport.Schedule | src/core/engine/Transport.ts:133-159 | the loop runs the fewest iterations that carry the schedule time past now + 0.1 s; the position is that many loop-aware steps on; the position subscribers are told; the timer is re-armed only while playing |
| Transports.Transport.Play | src/core/engine/Transport.ts:66-72 | a no-op while playing; otherwise it plays, schedules from now (at least one beat), re-arms the timer, and sends the position notices then `true` to each play-state subscriber |
| Transports.Transport.Pause | src/core/engine/Transport.ts:74-82 | a no-op while stopped; otherwise it stops, drops the timer and sends `false`; the position is kept |
| Transports.Transport.Stop | src/core/engine/Transport.ts:84-88 | always ends not playing at position 0; the pause notices, if any, come before a 0 to each position subscriber; the timer is dropped if it was playing and kept otherwise |
| Transports.Transport.SetBpm | src/core/engine/Transport.ts:90-92 | the tempo is clamp(bpm, 20, 999): values inside are kept, those below become 20 and those above become 999 |
| Transports.Transport.SetPosition | src/core/engine/Transport.ts:94-97 | the position is set as given and reported to every position subscriber |
| Transports.Transport.SetLoop | src/core/engine/Transport.ts:99-103 | both points are stored and looping is on |
| Transports.Transport.DisableLoop | src/core/engine/Transport.ts:105-107 | only the flag is cleared; the loop points stay |
| Transports.Transport.Subscribe | src/core/engine/Transport.ts:109-118 | each callback given is appended to its list |
| Transports.Transport.Unsubscribe | src/core/engine/Transport.ts:121-130 | each list given a callback loses exactly its first registration of it, the rest keeping their order; a list without a callback given is untouched |
| Transports.SubscribeThenUnsubscribe | src/core/engine/Transport.ts:109-131 | subscribe and then the returned closure leave both lists as they were, as multisets, and exactly, order included, when the callback was not registered before |
| AudioEngines.AudioEngine.constructor | src/core/engine/AudioEngine.ts:21-33 | master gain 0.8, a fresh stopped transport at 120 BPM with position 0, the loop [0, 32) disabled, no timer, last schedule time 0 and no subscribers; empty registries, not initialised |
| AudioEngines.AudioEngine.Initialize | src/core/engine/AudioEngine.ts:39-46 | afterwards the engine is initialised, whether or not it was before |
| AudioEngines.AudioEngine.AddTrack | src/core/engine/AudioEngine.ts:50-53 | the track is found under its id and every other id finds what it found before |
| AudioEngines.AudioEngine.RemoveTrack | src/core/engine/AudioEngine.ts:55-62 | the id no longer finds a track; an unknown id changes nothing |
| AudioEngines.AudioEngine.GetTrack | src/core/engine/AudioEngine.ts:64-66 | some exactly when the id is registered, and then that track |
| AudioEngines.AudioEngine.AddPattern | src/core/engine/AudioEngine.ts:74-76 | a map put: the pattern is found under its id and other ids are unaffected |
| AudioEngines.AudioEngine.RemovePattern | src/core/engine/AudioEngine.ts:78-80 | a map delete: the id finds nothing and other ids are unaffected |
| AudioEngines.AudioEngine.GetPattern | src/core/engine/AudioEngine.ts:82-84 | some exactly when the id is registered, and then that pattern |
| AudioEngines.AudioEngine.Play | src/core/engine/AudioEngine.ts:92-97 | afterwards the engine is initialised and the transport plays; if it already played, no notices go out and the position, the timer and the last schedule time stay as they were; otherwise the timer is armed, the last schedule time lies in [now + 0.1, now + 0.1 + 60/bpm), the position is at least one loop-aware step on, and the position notices then `true` go to the subscribers |
| AudioEngines.AudioEngine.Pause | src/core/engine/AudioEngine.ts:99-101 | the transport stops and keeps its position; if it was playing the timer is dropped and each play-state subscriber gets `false`, otherwise nothing is sent and the timer is kept |
| AudioEngines.AudioEngine.Stop | src/core/engine/AudioEngine.ts:103-105 | the transport stops at position 0; the timer is dropped if it was playing and kept otherwise; the pause notices, if any, come before a 0 to each position subscriber |
| AudioEngines.AudioEngine.SetBpm | src/core/engine/AudioEngine.ts:107-109 | the transport tempo becomes clamp(bpm, 20, 999) |
| AudioEngines.AudioEngine.SetPosition | src/core/engine/AudioEngine.ts:111-113 | the transport position becomes the given beat and every position subscriber is told it, in registration order |
| AudioEngines.AudioEngine.UpdateSoloMute | src/core/engine/AudioEngine.ts:117-132 | with any track soloed, soloed tracks sound at their volume even when muted and the rest are silent; with none, each track's gain is 0 if muted and its volume otherwise; flags and volumes are unchanged |
| AudioEngines.AudioEngine.Destroy | src/core/engine/AudioEngine.ts:151-164 | the transport is stopped at position 0 with the same timer and notices as its stop, and both registries are empty |
| Fx.DelayTimeFor | src/audio/fx.ts:21-22 | for a mix in [0, 1] the delay time lies in [0.3, 0.7] s, and the mapping is inverted by (t - 0.3) / 0.4 |
| Fx.FeedbackFor | src/audio/fx.ts:23 | for a mix in [0, 1] the feedback lies in [0.2, 0.7], and the mapping is inverted by (g - 0.2) / 0.5 |
| Fx.CreateDelay | src/audio/fx.ts:21-28 | the wet gain is the mix, the dry gain is 1, and the delay and feedback follow the mappings |
| Fx.DelaySetMix | src/audio/fx.ts:42-50 | the dry gain is left alone |
| Fx.DelaySetMixAgrees | src/audio/fx.ts:21-50 | setMix lands on the settings createDelay gives that mix, and the last mix set wins |
| Fx.CutoffFor | src/audio/fx.ts:225 | for a mix in [0, 1] the cutoff lies in [5000, 9000] Hz, and the mapping is inverted by (f - 5000) / 4000 |
| Fx.MasterFilterSetMix | src/audio/fx.ts:224-229 | the current frequency is held at now, then the filter glides to the new cutoff, reached 0.5 s later |
| Fx.DefaultCutoffIsMidMix | src/audio/fx.ts:221-228 | the initial 7 kHz is the cutoff for mix 0.5, and re-applying a mix from its own cutoff is a flat glide |
| Fx.HeldIndexIsLatestReset | src/audio/fx.ts:141-152 | the held index is the latest index at or before i where the counter was 0 |
| Fx.CounterStep | src/audio/fx.ts:150 | the counter advances by one modulo holdSamples |
| Fx.HeldSampleStep | src/audio/fx.ts:145-151 | each output refreshes from the input when the counter is 0, and otherwise repeats the previous output or the carried sample |
| Fx.FreshBlock | src/audio/fx.ts:138-151 | from a fresh counter, output[i] = input[i - i mod holdSamples] |
| Fx.Bitcrusher.constructor | src/audio/fx.ts:128-139 | holdSamples defaults to 3; the counter and the carried sample start at 0 |
| Fx.Bitcrusher.Process | src/audio/fx.ts:141-152 | after one 256-sample block the counter is (c0 + 256) mod holdSamples and stays in range; each output is the input at the latest reset, or the carried sample; the carried sample becomes the last output |
| Pentatonic.ScaleTable | src/audio/engine.ts:10-11 | five strictly rising semitones from 0, within one octave |
| Pentatonic.WrapDegree | src/audio/engine.ts:50 | for every integer degree, negative ones included, ((d % 5) + 5) % 5 with the truncating % is the residue d mod 5 in [0, 5) |
| Pentatonic.Semitone | src/audio/engine.ts:49-51 | `noteHz`'s semitone offset is a scale step plus 12 per octave shift, so it lies in [12k, 12k + 12) for shift k (periodicity in SemitoneStructure) |
| Pentatonic.SemitoneStructure | src/audio/engine.ts:47-51 | the semitone repeats every five degrees, an octave shift adds 12, and octave k spans [12k, 12k + 12) |
| Voices.PlaySine | src/audio/engine.ts:136-161 | five gain events starting silent at the onset, the oscillator starting there too, and a vibrato oscillator exactly when vibrato is requested (ordering in PlaySineOrdered) |
| Voices.PlaySineOrdered | src/audio/engine.ts:136-161 | with non-negative stages the five gain breakpoints never go back in time; the note starts silent at the onset, peaks at amp after the attack, and holds the sustain level for at least the note's duration before releasing to the floor; the oscillator starts at the onset and stops 0.05 s after the last ramp; the vibrato exists exactly when requested, starts with the note and never outlives the oscillator |
| Voices.BeatSeconds | src/audio/engine.ts:90 | the beat length is beatsToSeconds(1, bpm), positive for a positive tempo |
| Voices.PartsStartWell | src/audio/engine.ts:114-128 | for a positive beat length the melody, both pad voices and the bass start at t0, last a positive time, and have well-shaped envelopes |
| Selection.FirstReachingFrom | src/audio/engine.ts:75-77 | the loop's stopping index: every proper prefix before it stays below r, and the prefix through it reaches r unless it is the last index |
| Selection.SelectIndex | src/audio/engine.ts:75-77 | the selection loop returns an index in range, the first whose running total reaches the draw, or the last |
| Selection.SelectedInterval | src/audio/engine.ts:74-77 | with non-negative weights the chosen index counts exactly the proper prefixes below the draw |
| AmbientEngines.TransitionRowIsIndexLookup | src/audio/engine.ts:66-67 | the row is the one indexOf finds, and an interval outside -2..2 uses the centre row |
| AmbientEngines.BaseRowsAreDistributions | src/audio/engine.ts:58-64 | every row of the 5x5 table is non-negative and sums to 1 |
| AmbientEngines.BlendIsDistribution | src/audio/engine.ts:69-74 | for a complexity in [0, 1] the blended weights are non-negative and sum to 1; complexity 0 keeps the row and 1 is uniform |
| AmbientEngines.MarkovNext | src/audio/engine.ts:79-81 | the new interval is the chosen table entry in -2..2; the degree moves by it modulo 5 and stays in [0, 5) |
| AmbientEngines.MarkovDrawSlot | src/audio/engine.ts:74-77 | with a complexity in [0, 1] the chosen interval is the one whose cumulative slot holds the raw draw |
| AmbientEngines.EuclideanRhythm | src/audio/engine.ts:85-87 | no pulses never sound, and as many pulses as steps sound on every non-negative step (the exact count is in EuclideanPulseCount) |
| AmbientEngines.EuclideanPulseCount | src/audio/engine.ts:85-87 | for 0 <= p <= s the rhythm sounds on exactly p of the s steps |
| AmbientEngines.BassRhythm | src/audio/engine.ts:124-125 | the 3-in-8 bass pattern is [T, F, F, T, F, F, T, F] |
| AmbientEngines.SectionOffset | src/audio/engine.ts:94-96 | the chord offset lies in -3..2 |
| AmbientEngines.SectionOffsetCycle | src/audio/engine.ts:94-96 | the offset is fixed within a bar of four beats, bar b takes entry b mod 4, and it repeats every 16 beats |
| AmbientEngines.PadDegree | src/audio/engine.ts:118 | the pad degree is (degree + 2 + offset) mod 5, in [0, 5) |
| AmbientEngines.BassDegree | src/audio/engine.ts:126 | the bass degree is (degree + offset) mod 5, in [0, 5) |
| AmbientEngines.RestProbability | src/audio/engine.ts:108 | for a complexity in [0, 1] the rest chance lies in [0.15, 0.4] |
| AmbientEngines.TickVoices | src/audio/engine.ts:107-129 | a beat plays between two and four voices (which ones in TickVoicesShape) |
| AmbientEngines.TickVoicesShape | src/audio/engine.ts:107-129 | a beat plays the melody exactly when the rest draw exceeds the rest chance, two octaves up only at a phrase end; it always plays two pad voices, two octaves up, detuned either side of one pitch, and the bass exactly on rhythm beats, an octave down and halved; every voice starts at t0 with a well-shaped envelope |
| AmbientEngines.AmbientEngine.constructor | src/audio/engine.ts:19-45 | degree, interval and beat count 0; not running; input gain 0.3, delay 0.45 s, feedback 0.35 |
| AmbientEngines.AmbientEngine.MarkovStep | src/audio/engine.ts:55-82 | the new degree and interval are MarkovNext of the old ones: the interval is in -2..2 and the degree stays on the scale |
| AmbientEngines.AmbientEngine.Tick | src/audio/engine.ts:89-134 | on a cadence beat, when the draw is below 0.75, the degree becomes 0 or 2 and the interval 0; otherwise a Markov step is made; the beat's voices are as TickVoices says; the beat count grows by exactly 1 and the timer is re-armed |
| AmbientEngines.AmbientEngine.SetMix | src/audio/engine.ts:163-167 | the mix is stored, the other parameters are unchanged, and the delay and feedback follow the mappings |
| AmbientEngines.AmbientEngine.SetScale | src/audio/engine.ts:169-171 | only the scale parameter changes |
| AmbientEngines.AmbientEngine.SetRootHz | src/audio/engine.ts:173-175 | only the root parameter changes |
| AmbientEngines.AmbientEngine.SetBpm | src/audio/engine.ts:177-179 | only the tempo parameter changes |
| AmbientEngines.AmbientEngine.SetComplexity | src/audio/engine.ts:181-183 | only the complexity parameter changes |
| AmbientEngines.AmbientEngine.Start | src/audio/engine.ts:185-191 | a no-op while running; otherwise the stored mix is applied, the engine runs and the first beat plays from the current degree: the cadence picks degree 0 or 2 with interval 0, otherwise the degree and interval are the Markov step of the old ones |
| AmbientEngines.AmbientEngine.Stop | src/audio/engine.ts:193-198 | afterwards the engine is stopped; if it was running, the timer is dropped; stopping a stopped engine changes nothing |
| AmbientEngines.RestartKeepsMix | src/audio/engine.ts:163-191 | a mix set while running is still in force after stop and start |
| LegacyEngines.WalkJump | src/Audio/engine.ts:57-58 | the jump the selection picks lies in -2..2 |
| LegacyEngines.RandomWalkNext | src/Audio/engine.ts:52-59 | the degree moves by the jump modulo 5 and stays in [0, 5) if it started there |
| LegacyEngines.WalkSelection | src/Audio/engine.ts:53-57 | the weights are positive and mirror-symmetric about staying put; the draw lands in the slot holding it; full complexity gives equal weights |
| LegacyEngines.BassProbability | src/Audio/engine.ts:74 | for a complexity in [0, 1] the bass chance lies in [0.3, 0.8] |
| LegacyEngines.LegacyTickVoices | src/Audio/engine.ts:65-75 | a beat plays three voices, or four with the bass (their shape in LegacyTickShape and LegacyTickPitches) |
| LegacyEngines.LegacyTickParts | src/Audio/engine.ts:65-75 | a beat is the melody, the two pad voices, then the bass exactly when its draw is below the bass chance |
| LegacyEngines.LegacyTickShape | src/Audio/engine.ts:61-75 | a beat plays three voices, or four with the bass; all start at t0 with well-shaped envelopes; the melody has vibrato, the pad is detuned either side and the bass is halved |
| LegacyEngines.LegacyTickPitches | src/Audio/engine.ts:66-73 | the melody's semitone is the degree one octave up, the pad's is the degree two steps higher two octaves up, and the bass's is the degree one octave down, which its 0.5 factor then halves (`noteHz(degree, -1)/2`) |
| LegacyEngines.LegacyEngine.constructor | src/Audio/engine.ts:19-43 | degree 0; not running; input gain 0.3, delay 0.45 s, feedback 0.35 |
| LegacyEngines.LegacyEngine.RandomWalkStep | src/Audio/engine.ts:52-59 | the degree becomes RandomWalkNext of the old one and stays on the scale |
| LegacyEngines.LegacyEngine.Tick | src/Audio/engine.ts:61-79 | one walk step, then the beat's voices from the new degree, and the timer is re-armed |
| LegacyEngines.LegacyEngine.SetMix | src/Audio/engine.ts:108-111 | the delay and feedback follow the mappings; the parameters are not in the frame, so the mix is not stored |
| LegacyEngines.LegacyEngine.Start | src/Audio/engine.ts:113-119 | a no-op while running; otherwise the stored mix is applied, the engine runs and the first beat plays |
| LegacyEngines.LegacyEngine.Stop | src/Audio/engine.ts:121-126 | afterwards the engine is stopped; if it was running, the timer is dropped |
| LegacyEngines.RestartRevertsMix | src/Audio/engine.ts:108-119 | after setMix, stop and start, the delay is back at the stored mix's value, and a different mix set before the restart is lost |

## Left out

- The Web Audio graph is not modelled. That covers oscillators, gain, delay, filter, reverb and phaser nodes and their wiring, `ctx.resume`, `ctx.close` and `Track.destroy`. Only the numbers handed to the nodes are modelled, as values or fields such as a track's `outputGain`, an engine's `inputGain`, `delayTime`, `feedback` and the `Voice` schedule.
- `Math.pow` is not computed. Frequencies are kept as semitone offsets and factors.
- The earlier engine's `Math.exp` weights are parameters (`near`, `far`). The midi/frequency and decibel conversions of `src/utils/audio/conversion.ts` are not part of this model.
- `Math.random` draws are parameters. `Pattern.humanize`, which is only random nudging and a clamp, is not part of this model.
- Timers and `async` are reduced to handles and steps. A `setTimeout` handle is a parameter, and each self-rescheduled `tick`/`schedule` call is a separate method call. Re-entrancy and interleavings through a pending `await ctx.resume()` are not modelled.
- `generateId` reads the clock and randomness. Ids are strings supplied by the caller.
- Floating-point rounding is not modelled: all arithmetic is on exact reals. A subscriber callback is identified by a number; what it does is not modelled.
- `getAllTracks`/`getAllPatterns` (Map iteration order), `AudioEngine.getState`, `getCurrentTime` and the track's visual fields (`height`, `collapsed`) are not part of this model.
- The `params` object handed to an engine's constructor is copied as a value. Aliasing by the caller, who could later mutate the same object, is not modelled.
- Transports.Transport.Schedule: requires a positive tempo. With a zero tempo the beat length is infinite. With a negative tempo the loop never exits (`ScheduleDivergesWhenBpmNegative`). The constructor does not clamp the tempo, so both are reachable in the source.
- Transports.Transport.Play: requires a positive tempo when not already playing, for the same reason.
- AmbientEngines.AmbientEngine.Tick: requires a non-zero tempo. `60 / 0` is Infinity in JavaScript, which the model does not represent.
- AmbientEngines.AmbientEngine.Start: requires a non-zero tempo when starting from stopped, because it plays the first beat through `tick`, whose `60 / bpm` is Infinity at 0.
- LegacyEngines.LegacyEngine.Tick: requires a non-zero tempo. `60 / 0` is Infinity in JavaScript, which the model does not represent.
- LegacyEngines.LegacyEngine.Start: requires a non-zero tempo when starting from stopped, because it plays the first beat through `tick`, whose `60 / bpm` is Infinity at 0.
- Patterns.Pattern.Quantize: requires a positive subdivision. Zero gives a NaN grid in JavaScript. A negative subdivision gives a negative grid, which the model does not cover.
- Fx.Bitcrusher.constructor: requires `holdSamples >= 1`, a whole number of samples. With 0 the JavaScript counter becomes NaN and the buffer is held forever; a fractional count such as 2.5 (the counter then runs 0, 1, 2, 0.5, 1.5, 0) is not modelled, since the parameter is typed as an integer.
- Voices.PlaySine: the oscillator frequency `rootHz * 2^(semitone/12) * factor` stays abstract. The vibrato LFO's 4.5 Hz rate and depth are recorded but not its effect.

## Findings

| source | as written | input that shows it | evidently intended | confidence | as-written member | corrected member |
|---|---|---|---|---|---|---|
| src/Audio/engine.ts:108-111 | `setMix` retunes the delay and feedback but does not store the mix in `params`, while `start` re-applies `params.mix` | a running engine with `params.mix = 0.5`; `setMix(1.0)`, `stop()`, `start()`: the delay returns to 0.5 s instead of 0.7 s | the mix last set stays in force across a restart, as `setMix` in src/audio/engine.ts:164 does by storing it | not executed | LegacyEngines.RestartRevertsMix | AmbientEngines.RestartKeepsMix |
