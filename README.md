# Microtonal MIDI generators, modelled in Dafny

Two small C programs write a MIDI file as CSV-MIDI text. This project models the arithmetic and the order of events in each of them.

- `microtonal.c` plays a just-intonation chord above a bass entry of its script.
  - It looks up a note name in the twelve-name chromatic scale (`chromatic_index`).
  - It looks up an interval name in the 25-entry sruti table (`sruti_ratio`).
  - It computes the bass offset `base - 12 log2(ratio)` and splits it into `root = round(semitones)` and a remainder `delta`. It corrects `root` into a pitch class by one octave.
  - It resolves the third and the seventh on the unrounded offset. Each tone is rounded on its own, normalised by one step of 12, and sent as a 14-bit pitch bend `8192 + round(4096 delta)` just before its note-on.
  - Each voice track first sets pitch-bend sensitivity to two semitones at tick 0, using Registered Parameter Number 00 00 of the MIDI 1.0 Detailed Specification.
  - A tick cursor starts at 0 and advances by 240 ticks per duration unit. The note-offs mirror the note-ons, and the end of track comes 480 ticks later.
- `microtonal2.c` retunes keys 48 to 71 to a twelve-ratio just scale and then plays them.
  - It uses one MIDI Tuning Standard "single note tuning change" per key: universal real-time SysEx with sub-ID#1 08 and sub-ID#2 02, tuning program 1, one change, and frequency data `key xx yy zz`.
  - `xx` is the floor of the exact pitch in semitones. `yy zz` are the two 7-bit halves of the remaining fraction, in units of 1/16384 semitone.
  - Track 2 sets itself up at tick 0. It gives channels 1 and 2 program 1 and pans them to 0 and 127. On channel 2 it sets pitch-bend sensitivity to two semitones (RPN 00 00), selects tuning bank 0 (RPN 00 04) and selects tuning program 1 (RPN 00 03), the program the SysEx messages retune.
  - It then plays the 24 keys back to back, 480 ticks each, on channel 2.

The files:

| file | contents |
|---|---|
| `wrappers.dfy` | `Option` |
| `cmath.dfy` | C's `round`, `floor`, the `(int)` conversion, `>> 7` and `& 0x7f`; `log(x)/log(2.0)` as a parameter `lg` with its assumed properties `IsLog2` |
| `midi.dfy` | the events and records of a listing; the RPN 0 set-up, and what a stream of controller events writes into a channel's registered parameters; time-order predicates |
| `microtonal.dfy` | the two tables, the two lookups, and the arithmetic of one chord tone |
| `microtonal_tracks.dfy` | the bass script, chord resolution, the two voice tracks and `main` |
| `microtonal2.dfy` | the tuning table, the per-key tuning, the SysEx layout, the note loop and `main` |

How the model is built:
- Each `main` is a method that builds the listing as a `seq<Record>`, in the order the `printf`s write it. Its postcondition ties the listing to a function of the inputs. The properties are proved as lemmas about those functions.
- The two lookups are methods with the C `for` loop and early return. They are proved against the reference function `IndexOf`.
- Reals are exact. The logarithm is the function parameter `lg`. Every property that depends on it assumes `IsLog2(lg)`: `lg(1) = 0`, `lg(2) = 1`, and `lg` strictly increasing.

In these details the model follows the code exactly:
- **Chord tones.** The third and seventh are built from the unrounded bass offset `semitones` (microtonal.c:229, :251), not from the rounded root.
- **Normalisation.** It adds or subtracts 12 once, under the tests `> 12` and `< 0`. It does not repeat until the value is in range.
- **Registered parameters.** A controller stream is read as a MIDI receiver reads it: CC 101 and CC 100 select the parameter MSB and LSB of their channel, and CC 6 and CC 38 write its coarse and fine value (`Writes`).
- **Tuning messages.** `microtonal2.c` sends single note tuning changes, not a bulk dump.
- **Remainder range.** Under C's `round`, the remainder `delta` lies in [-1/2, 1/2], both ends included.

## Model

| member | source | states |
|---|---|---|
| `CMath.Round` | microtonal.c:205-206 | the result is within 1/2 of x, and a halfway case goes away from zero |
| `CMath.RoundOfInt` | microtonal.c:205-206 | an integer rounds to itself |
| `CMath.RoundMonotone` | microtonal.c:244-245 | rounding preserves order |
| `CMath.FloorShift` | microtonal2.c:62-63 | adding a whole number of semitones adds it to the floor |
| `CMath.Trunc` | microtonal2.c:65 | `(int)` truncates toward zero: for x >= 0 the result r satisfies r <= x < r + 1, and symmetrically for x < 0 |
| `CMath.ShiftRight7` | microtonal2.c:68 | `fractional_rounded >> 7`; what it yields is stated by `CMath.SplitFourteenBits` |
| `CMath.Low7` | microtonal2.c:68 | `fractional_rounded & 0x7f`; what it yields is stated by `CMath.SplitFourteenBits` |
| `CMath.SplitFourteenBits` | microtonal2.c:68 | for a 14-bit value, `n >> 7` and `n & 0x7f` are 7-bit bytes and `msb*128 + lsb == n` |
| `CMath.Log2WithinOctave` | microtonal.c:204 | `log2` of a ratio in [1, 2) lies in [0, 1) |
| `Midi.BendSensitivity` | microtonal.c:179-182 | the four controller events of the sensitivity set-up, in the order the code sends them; what they do is stated by `Midi.BendSensitivityWrites` |
| `Midi.Writes` | microtonal.c:179-182 | the parameter writes a controller stream makes on one channel, with the parameter selected (by `Select` and `SelectedRpn`) when each arrives; its laws are `Midi.WritesAppend` and `Midi.ParameterFreeWrites` |
| `Midi.WritesAppend` | microtonal.c:174-196 | the writes of a concatenation are those of the first part, then those of the second from the selection the first leaves |
| `Midi.ParameterFreeWrites` | microtonal.c:177-178 | program changes, pan and every other event that is not CC 101, 100, 6 or 38 leave the selection alone and write nothing |
| `Midi.BendSensitivityWrites` | microtonal.c:179-182 | on its channel the four events select RPN 00 00 whatever was selected before and write 0 (CC 38) and then the semitones (CC 6) into it; on every other channel they select and write nothing |
| `Midi.SelectLsbThenWrite` | microtonal2.c:80-83 | CC 100 then CC 6 on a channel selects the new parameter LSB under the current MSB and writes the value into that parameter; other channels are untouched |
| `Midi.At` | microtonal.c:174-195 | events written at one tick of one track; its property is stated by `Midi.AtChronological` |
| `Midi.AtChronological` | microtonal.c:174-195 | the events written at one tick form a listing in time order, all at that tick, all on that track |
| `Midi.FramedChronological` | microtonal.c:295-296 | a tick-0 opening, a body in time order on [0, end], then the end of track at end + 480: the whole is in time order within [0, end + 480], on one track |
| `Midi.OrderlyAppend` | microtonal2.c:85-93 | two time-ordered runs on one track, the second starting where the first ends, join into one time-ordered run on that track |
| `Midi.ChronologicalAppend` | microtonal.c:272 | two time-ordered runs, the second starting no earlier than the first ends, join into one time-ordered run |
| `Microtonal.SrutiNames` | microtonal.c:82-108 | the names of the sruti table in table order; they are distinct by `Microtonal.SrutiNamesDistinct` |
| `Microtonal.SrutiTableWithinOctave` | microtonal.c:82-108 | every entry has 0 < den <= num < 2 den |
| `Microtonal.Ratio` | microtonal.c:118-119 | num/den of such an entry lies in [1, 2), and is exactly 1 for a unison |
| `Microtonal.IndexOf` | microtonal.c:68-73 | the answer is None exactly when the name is absent; otherwise it is the first position holding the name |
| `Microtonal.IndexOfFirst` | microtonal.c:68-73 | a position holding the name, with no earlier occurrence, is the answer |
| `Microtonal.ChromaticIndex` | microtonal.c:64-74 | returns -1 exactly on a miss; otherwise returns the first i in [0, 11] with `chromatic_scale[i] == s`, which agrees with `IndexOf`; the loop bound 12 is the table length |
| `Microtonal.ChromaticScaleDistinct` | microtonal.c:34-47 | the twelve names are pairwise different |
| `Microtonal.SrutiNamesDistinct` | microtonal.c:82-108 | the 25 interval names are pairwise different |
| `Microtonal.IndexOfDistinct` | microtonal.c:64-74 | in a table of distinct names, looking up the name at k answers k |
| `Microtonal.ChromaticIndexOfName` | microtonal.c:64-74 | looking up the name of pitch class k answers k |
| `Microtonal.SrutiIndexOfName` | microtonal.c:110-123 | looking up the name of entry k finds entry k |
| `Microtonal.IntervalsFound` | microtonal.c:82-108 | sa is entry 0; g3 and n3 are in the table |
| `Microtonal.RatioOf` | microtonal.c:110-123 | the ratio that a hit answers lies in [1, 2) |
| `Microtonal.Semis` | microtonal.c:204 | `12 log2(ratio)`; its range is stated by `Microtonal.SemisWithinOctave` |
| `Microtonal.SrutiRatio` | microtonal.c:110-123 | returns 0.0 exactly on a miss; on a hit returns num/den of the first entry of that name, which is in [1, 2), so a hit never looks like a miss; the loop bound 25 is the entry count |
| `Microtonal.SemisWithinOctave` | microtonal.c:203-204 | 12 log2 of a ratio in [1, 2) lies in [0, 12) |
| `Microtonal.BassSemitones` | microtonal.c:203-204 | `base - 12 log2(ratio)`; its range is stated by `Microtonal.BassSemitonesRange` |
| `Microtonal.BassSemitonesRange` | microtonal.c:202-204 | for a pitch class in [0, 11] and such a ratio, the bass offset lies in (-12, 11] |
| `Microtonal.SplitSemitones` | microtonal.c:205-206 | `root + delta == semitones`, with abs(delta) <= 1/2 and root = round(semitones) |
| `Microtonal.RootModulo` | microtonal.c:207-211 | the correction keeps the pitch class modulo 12, leaves a non-negative root unchanged, and maps [-12, 11] into [0, 11] |
| `Microtonal.RootIsPitchClass` | microtonal.c:202-212 | for a valid bass entry the root lies in [-12, 11] and `root_modulo` indexes the chromatic scale |
| `Microtonal.ToneModulo` | microtonal.c:233-241 | the normalisation as written: it subtracts 12 only above 12 and adds 12 only below 0, keeps the value modulo 12, and maps [-12, 24] into [0, 12], so 12 stays 12 |
| `Microtonal.PitchClass` | microtonal.c:233-242 | the corrected normalisation of the finding below: for every tone, whatever its octave shift, a value in [0, 11] (a valid index of the twelve names) equal to the tone modulo 12; on [-12, 24) other than 12 it agrees with the single step as written |
| `Microtonal.OctaveMultiple` | microtonal.c:233-241 | a whole number k of octaves has pitch class 0, while the single step as written leaves it at 12 or above exactly when k >= 1 |
| `Microtonal.ToneModuloAboveOctave` | microtonal.c:233-241 | a tone of 24 or more stays at 12 or above after the single step, and its pitch class is that value modulo 12 |
| `Microtonal.ChordTone` | microtonal.c:229-241 | the tone is round(semitones + 12 log2(ratio) + 12 octave), rounded on its own; the remainder makes up the exact value and has magnitude <= 1/2; the normalised value is the as-written `ToneModulo` of the rounded tone |
| `Microtonal.BendWord` | microtonal.c:244-245 | `8192 + round(4096 delta)` lies in [6144, 10240] for abs(delta) <= 1/2, and equals 8192 for delta = 0 |
| `Microtonal.BendWordMonotone` | microtonal.c:266-267 | a larger remainder never bends lower |
| `Microtonal.BendWordIsFourteenBits` | microtonal.c:244-245 | every remainder the split leaves gives a word in [0, 16383] |
| `Microtonal.BendWordAtHalfSemitone` | microtonal.c:244-245 | the extreme remainders of plus and minus 1/2 give 10240 and 6144 |
| `Microtonal.ChordToneRange` | microtonal.c:229-241 | on a bass offset in (-12, 11] with no octave shift, a tone rounds into [-12, 23]; its normalised value lies in [0, 12] and is 12 exactly when the tone rounds to 12; the corrected `PitchClass` of the tone indexes the twelve names |
| `MicrotonalTracks.BaseIndex` | microtonal.c:202 | the pitch class found for the entry's note names that note |
| `MicrotonalTracks.EntrySemitones` | microtonal.c:202-204 | the entry's bass offset; its range is stated by `Microtonal.BassSemitonesRange` and its split by `MicrotonalTracks.ResolveChord` |
| `MicrotonalTracks.ThirdTone` | microtonal.c:229-233 | the entry's third as a `ChordTone` on the unrounded offset; computed by `MicrotonalTracks.ResolveTone` |
| `MicrotonalTracks.SeventhTone` | microtonal.c:251-255 | the entry's seventh as a `ChordTone` on the unrounded offset; computed by `MicrotonalTracks.ResolveTone` |
| `MicrotonalTracks.ChordOf` | microtonal.c:202-270 | a resolved entry keeps its duration, has a pitch class in [0, 11], and has a third or a seventh exactly when the entry names one |
| `MicrotonalTracks.Chords` | microtonal.c:200-270 | the chords of the script, in order; computed by `MicrotonalTracks.ResolveScript`, and for the script's own entry stated by `MicrotonalTracks.BassChord` |
| `MicrotonalTracks.ToneOnset` | microtonal.c:244-247 | a tone's pitch bend then its note-on; ordered by `MicrotonalTracks.BendPrecedesNote` |
| `MicrotonalTracks.ToneRelease` | microtonal.c:283-291 | a tone's note-off; mirrored by `MicrotonalTracks.ToneNotes` |
| `MicrotonalTracks.Onsets` | microtonal.c:226-269 | the events at a chord's start; stated by `MicrotonalTracks.BendPrecedesNote` and `MicrotonalTracks.OnsetNotes` |
| `MicrotonalTracks.Releases` | microtonal.c:282-292 | the events at a chord's release; stated by `MicrotonalTracks.ReleaseNotes` and `MicrotonalTracks.ReleasesMirrorOnsets` |
| `MicrotonalTracks.ChordRecords` | microtonal.c:215-293 | one chord's records: none on track 2, onsets then releases 240 duration later on track 3; stated by `MicrotonalTracks.ChordRecordsChronological` and `MicrotonalTracks.NoteOffFollowsNoteOn` |
| `MicrotonalTracks.TotalDuration` | microtonal.c:272 | the sum of the chords' durations; how it grows is stated by `MicrotonalTracks.BodySnoc` and `MicrotonalTracks.ChordBody` |
| `MicrotonalTracks.Body` | microtonal.c:198-294 | the records of the chords, each at the cursor the ones before it leave; stated by `MicrotonalTracks.BodySnoc`, `MicrotonalTracks.BodyChronological` and `MicrotonalTracks.ChordBody` |
| `MicrotonalTracks.Setup` | microtonal.c:175-196 | the tick-0 programs, pan and sensitivity set-up of each voice track; stated by `MicrotonalTracks.SensitivitySetup` and `MicrotonalTracks.SetupWrites` |
| `MicrotonalTracks.TrackListing` | microtonal.c:172-296 | one voice track; stated by `MicrotonalTracks.TrackListingChronological`, `MicrotonalTracks.TrackListingOnTrack` and `MicrotonalTracks.TrackListingBounds` |
| `MicrotonalTracks.BodySnoc` | microtonal.c:272 | appending a chord appends its records, starting at the cursor where the chords before it ended |
| `MicrotonalTracks.ChordOfRounded` | microtonal.c:231-254 | the remainders of a resolved chord's tones are at most 1/2 |
| `MicrotonalTracks.BendPrecedesNote` | microtonal.c:244-269 | the bass note-on comes first; every pitch bend is immediately followed by the note-on of its channel and has a word in [6144, 10240]; every later note-on is immediately preceded by its channel's pitch bend |
| `MicrotonalTracks.NotesOn` | microtonal.c:226-269 | the channel and key of every note-on, in order; its law is `MicrotonalTracks.NotesOnAppend` |
| `MicrotonalTracks.NotesOff` | microtonal.c:282-292 | the channel and key of every note-off, in order; its law is `MicrotonalTracks.NotesOffAppend` |
| `MicrotonalTracks.NotesOnAppend` | microtonal.c:226-269 | the note-ons of a concatenation are those of its parts, in order |
| `MicrotonalTracks.NotesOffAppend` | microtonal.c:282-292 | the note-offs of a concatenation are those of its parts, in order |
| `MicrotonalTracks.ToneNotes` | microtonal.c:244-291 | a sounding chord tone has exactly one note-on when it starts and exactly one note-off when it is released, on the same channel and key |
| `MicrotonalTracks.ToneNote` | microtonal.c:244-291 | the channel and key a tone sounds on, if there is one; stated by `MicrotonalTracks.ToneNotes` |
| `MicrotonalTracks.OnsetNotes` | microtonal.c:226-269 | a chord starts the bass on channel 2, then its third on 3 and its seventh on 4, and stops nothing |
| `MicrotonalTracks.ReleaseNotes` | microtonal.c:282-292 | a chord's release stops the bass on channel 2, then its third on 3 and its seventh on 4, and starts nothing |
| `MicrotonalTracks.ReleasesMirrorOnsets` | microtonal.c:226-292 | the note-offs of a release are the note-ons of the onset: same channels, same keys, same order |
| `MicrotonalTracks.NoteOffFollowsNoteOn` | microtonal.c:226-292 | on the chord track every note-on is at the chord's tick t, and a later note-off with the same channel, key and velocity is at t + 240 duration |
| `MicrotonalTracks.ChordRecordsChronological` | microtonal.c:226-292 | one chord's records are in time order, between its start and its release, on its track |
| `MicrotonalTracks.BodyChronological` | microtonal.c:198-294 | the cursor only advances: all chord records are in time order within [0, 240 total duration], on their track |
| `MicrotonalTracks.TrackListingChronological` | microtonal.c:172-296 | a whole voice track is in time order |
| `MicrotonalTracks.TrackListingOnTrack` | microtonal.c:172-296 | every record of a voice track carries that track's number |
| `MicrotonalTracks.TrackListingBounds` | microtonal.c:174-296 | a voice track opens with its start at tick 0 and closes with its end 480 ticks after the last release |
| `MicrotonalTracks.SensitivitySetup` | microtonal.c:175-196 | RPN 0 sensitivity (two semitones) is set up at tick 0 on channel 1 by track 2 and on channel 3 by track 3; no RPN or data-entry controller goes to any other channel, so channel 4 gets none |
| `MicrotonalTracks.SetupWrites` | microtonal.c:175-196 | whatever was selected before, the set-up writes 0 cents and then 2 semitones into RPN 00 00 of channel 1 (track 2) or channel 3 (track 3), and nothing into any other channel |
| `MicrotonalTracks.BassResolvable` | microtonal.c:138-140 | every name of the script is found, and A is pitch class 9 |
| `MicrotonalTracks.BassChord` | microtonal.c:138-140 | the script's chord: bass key 69 for 4 units; its seventh n3 comes back to A exactly (key 69, remainder 0, bend 8192); the note-offs of the bass and the seventh mirror their note-ons |
| `MicrotonalTracks.SingleChord` | microtonal.c:272 | a one-chord body starts at tick 0 and lasts that chord's duration |
| `MicrotonalTracks.BassBodies` | microtonal.c:272-294 | for the script, one chord of 4 units: track 2 has no chord records, and track 3 sounds the chord at tick 0 and releases it at 960 |
| `MicrotonalTracks.BassListing` | microtonal.c:272-296 | for the script, track 2 has no chord records; track 3 sounds the chord at tick 0 and releases it at 960; both tracks end at 1440 |
| `MicrotonalTracks.OctaveThirdOutOfRange` | microtonal.c:233-243 | for the entry C, sa, third sa one octave up, the resolved third rounds to 12 and its normalised value is 12, one past the last name; the corrected normalisation gives 0 (C) |
| `MicrotonalTracks.UnisonThird` | microtonal.c:125-136 | an entry C, sa, with a unison third `octave` octaves up; what it resolves to is stated by `MicrotonalTracks.UnisonThirdOutOfRange` |
| `MicrotonalTracks.UnisonThirdOutOfRange` | microtonal.c:229-243 | that third rounds to 12 octave; the single step as written leaves it at 12 or above, past the twelve names, exactly when the octave is 1 or more, while the corrected normalisation gives pitch class 0 for every octave |
| `MicrotonalTracks.ResolveTone` | microtonal.c:229-247 | the C steps (ratio lookup, log, octave shift, round, remainder, and the normalisation under `> 12` and `< 0`) compute `ChordTone` |
| `MicrotonalTracks.ResolveChord` | microtonal.c:202-270 | the loop body computes the chord of the entry, the root/remainder split of the unrounded offset, and `root_modulo`, which under `IsLog2` indexes the chromatic scale |
| `MicrotonalTracks.ResolveScript` | microtonal.c:200-270 | every entry is resolved, in order |
| `MicrotonalTracks.ChordBody` | microtonal.c:198-294 | starting from 0, the cursor advances by 240 duration per chord; the records written are `Body`, and the final cursor is 240 times the total duration |
| `MicrotonalTracks.VoiceTrack` | microtonal.c:172-296 | one pass of the track loop writes the start, the set-up, the chords, and the end 480 ticks later |
| `MicrotonalTracks.Generate` | microtonal.c:172-297 | the voice part of `main` writes track 2 and then track 3 |
| `Microtonal2.TuningAscending` | microtonal2.c:30-43 | 12 ratios, the first exactly 1; all lie in [1, 2) and strictly increase |
| `Microtonal2.AdjacentAscending` | microtonal2.c:30-43 | any earlier ratio is below any later one |
| `Microtonal2.KeySemitones` | microtonal2.c:61-62 | the exact pitch of key 48 + i; stated by `Microtonal2.KeySemitonesRange`, `Microtonal2.SemitonesAscending` and `Microtonal2.OctavePeriodicity` |
| `Microtonal2.Fractional` | microtonal2.c:63-64 | `semitones - floor(semitones)` lies in [0, 1) and adds back to `semitones` |
| `Microtonal2.FractionalRounded` | microtonal2.c:65 | `(int)(fractional*16384)` lies in [0, 16383] and is the whole number of 1/16384 steps |
| `Microtonal2.TuningOf` | microtonal2.c:59-68 | key 48 + i gets the floor of its pitch and two 7-bit bytes whose `msb*128 + lsb` is the 14-bit fraction |
| `Microtonal2.TuningMessage` | microtonal2.c:67-68 | the SysEx of one key; its layout is stated by `Microtonal2.TuningMessagesWellFormed` |
| `Microtonal2.TuningRecords` | microtonal2.c:59-69 | the tuning changes of the first n keys at tick 0 on track 1; stated by `Microtonal2.TuningMessagesWellFormed` and `Microtonal2.TuningTrackAtStart` |
| `Microtonal2.NoteRecords` | microtonal2.c:85-91 | n notes give 2n records |
| `Microtonal2.Setup` | microtonal2.c:72-83 | programs 1 on channels 1 and 2, pan 0 and 127, RPN 00 00 (two semitones), RPN 00 04 (bank 0) and RPN 00 03 (program 1) on channel 2; what it writes is stated by `Microtonal2.SetupWrites` |
| `Microtonal2.SetupWrites` | microtonal2.c:72-83 | whatever was selected before, the set-up writes into channel 2, in order, 0 cents and 2 semitones into RPN 00 00, 0 into RPN 00 04 and 1 into RPN 00 03, and nothing into any other channel |
| `Microtonal2.TuningListing` | microtonal2.c:55-70 | the tuning track; stated by `Microtonal2.TuningTrackAtStart` |
| `Microtonal2.PlayingListing` | microtonal2.c:71-93 | the playing track; stated by `Microtonal2.NoteTrackChronological` |
| `Microtonal2.Listing` | microtonal2.c:54-94 | the whole listing; its two tracks and its time order are stated by `Microtonal2.ListingTracks` |
| `Microtonal2.FractionRoundTrip` | microtonal2.c:61-68 | decoding the three data bytes gives `xx + (yy*128 + zz)/16384`, which is at most 1/16384 semitone below the exact pitch |
| `Microtonal2.UnisonKeys` | microtonal2.c:31-68 | key 48 gets (48, 0, 0) and key 60 gets (60, 0, 0) |
| `Microtonal2.OctavePeriodicity` | microtonal2.c:61-68 | key i + 12 gets a semitone 12 higher, with the same msb and lsb |
| `Microtonal2.KeySemitonesRange` | microtonal2.c:61-62 | the pitch of key i lies in the octave [48 + 12(i/12), 60 + 12(i/12)) |
| `Microtonal2.SemitonesAscending` | microtonal2.c:61-63 | the pitch strictly increases with the key, and every semitone byte lies in [48, 71] |
| `Microtonal2.TuningMessagesWellFormed` | microtonal2.c:59-68 | every one of the 24 messages is a SysEx whose length field 10 counts its bytes, laid out `7F 00 08 02 01 01 key xx yy zz` with the key's tuning, each byte in [0, 127]; the keys ascend strictly, so each key is retuned once, and all are below 128 |
| `Microtonal2.NoteRecordsAt` | microtonal2.c:85-91 | note k goes on at tick 480 k and off at 480 (k + 1), as key 48 + k on channel 2 at velocity 81 |
| `Microtonal2.NotesBackToBack` | microtonal2.c:85-91 | each note ends at the tick the next one starts: no overlap and no gap |
| `Microtonal2.NoteRecordsChronological` | microtonal2.c:85-91 | the notes are in time order within [0, 480 n], on track 2 |
| `Microtonal2.NoteTrackChronological` | microtonal2.c:71-93 | the playing track is in time order within [0, 11520], all on track 2; its last note-off and its end of track are both at 11520 |
| `Microtonal2.TuningTrackAtStart` | microtonal2.c:55-70 | the tuning track has 26 records, all on track 1 at tick 0, opening with its start and closing with its end |
| `Microtonal2.ListingTracks` | microtonal2.c:54-94 | the listing is the tuning track followed by the playing track; every retuning comes at tick 0 before any note, and the whole is in time order within [0, 11520] |
| `Microtonal2.TuningTrack` | microtonal2.c:59-69 | the tuning loop (log, floor, fraction, truncation, shift and mask) writes `TuningRecords` for the 24 keys |
| `Microtonal2.NoteTrack` | microtonal2.c:85-91 | the note loop writes `NoteRecords` for the 24 keys, and leaves the cursor at 480 * 24 |
| `Microtonal2.Generate` | microtonal2.c:55-93 | `main` writes the tuning track and then the playing track, as `Listing` |

## Left out

- The environment: `setlocale(LC_ALL, getenv("LANG"))` (microtonal.c:163). It does not affect any event.
- The wide-character flats table (microtonal.c:49-62). Nothing reads it.
- The CSV text: the `printf` formatting, the `#` comment lines, and the float tempo `(int)(1.0E6*60.0/bpm)` (microtonal.c:168). Events are modelled as datatypes.
- The fixed boilerplate: the file header, the time, tempo and key signatures, the tempo track 1 of microtonal.c, and `End_of_file`. These are constant events with no logic.
- The code under `#if 0` (microtonal.c:217-222, 275-278). Track 2 writes only its set-up and its end of track, as the compiled code does.
- The `ninth`/`ninth_octave` fields and the entry's `octave`. They are read only by disabled code.
- IEEE-754 doubles and libm `log`:
  - reals are exact;
  - the logarithm is the abstract parameter `lg`, with the properties `IsLog2`;
  - no claim is made about which integer a particular double computation rounds or truncates to.
- The consequences of a failed lookup. A miss passes `log(0)`, minus infinity, into the arithmetic. The lookups return their sentinels, and `ResolveChord`, `ResolveScript` and `MicrotonalTracks.Generate` require every name of the script to be found (`Resolvable`).
- The comment `printf` that indexes `chromatic_scale[root_modulo]`, `[third_modulo]` and `[seventh_modulo]`. The model proves that `root_modulo` is a valid index (`RootIsPitchClass`), and that the third and seventh values lie in [0, 12] when there is no octave shift, where 12 is out of range (`ChordToneRange`). An octave-shifted tone can stay at 12 or above (`UnisonThirdOutOfRange`, `ToneModuloAboveOctave`); see the finding below.
- MicrotonalTracks.Generate: resolves the script once, before both tracks, where the C code repeats the same resolution for each track. The resolution has no side effects, so the listing is the same.
- MicrotonalTracks.Generate: takes any script of resolvable entries. The C loop `i<1` runs over the one-entry `bass` table. `BassListing` states the result for that table.
- The sign of the bass entry's `duration`. The model's field is a `nat` where the C field is an `int` (microtonal.c:135). A negative duration would move the cursor backwards; the time-order lemmas rely on durations being non-negative. The script's duration is 4.
- Microtonal.RatioOf: the model proves only that the answer lies in [1, 2), not a closed value for each of the 25 names. `SrutiRatio` ties the looked-up answer to the table entry.

## Findings

| source | as written | input that shows it | evidently intended | confidence | as-written member | corrected member |
|---|---|---|---|---|---|---|
| microtonal.c:233-243 | the chord-tone normalisation subtracts 12 once and only when the tone is above 12. A tone that rounds to exactly 12 keeps `third_modulo == 12`, and one shifted up by an octave or more can stay at 12 or above, since a single step of 12 cannot normalise it. The comment line then reads `chromatic_scale[12]` or beyond, past the end of the 12-name table (the same holds for the seventh at microtonal.c:255-265) | an entry with base C, interval sa, and third sa with third octave 1: semitones 0, third 12, rounded 12; with the real logarithm, base B, interval sa, third n3 at octave 1 rounds to 34, which the step leaves at 22 | the full pitch class (the tone modulo 12), giving 0 (C) for the first input; the script's own entry (A, n3, g3, n3, no octave shift) does not reach it | not executed | `MicrotonalTracks.OctaveThirdOutOfRange`, `MicrotonalTracks.UnisonThirdOutOfRange` | `Microtonal.PitchClass` |
