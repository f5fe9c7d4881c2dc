/**
 * The two voice tracks that main() of microtonal.c writes, as MIDI records:
 * the channel set-up at tick 0, one chord per bass entry (the bass note, its
 * third and its seventh, each chord tone with a pitch bend just before it),
 * and the end of track after a silence of 480 ticks.
 */
module MicrotonalTracks {
  import opened Wrappers
  import opened CMath
  import opened Midi
  import opened Microtonal

  /** One bass entry: a note, the interval below it, and the chord tones above, by name. */
  datatype NoteOffset = NoteOffset(
    base: string,
    interval: string,
    third: Option<string>,
    thirdOctave: int,
    seventh: Option<string>,
    seventhOctave: int,
    duration: nat)

  /** The script of microtonal.c: A, a major seventh (n3) below, with a third g3 and a seventh n3 above. */
  const Bass: seq<NoteOffset> := [NoteOffset("A", "n3", Some("g3"), 0, Some("n3"), 0, 4)]

  /** The velocity of every note-on and note-off. */
  const Velocity := 81

  /** Every name of the entry is found by the lookups it goes through. */
  ghost predicate Resolvable(e: NoteOffset)
  {
    && IndexOf(ChromaticScale, e.base).Some?
    && IndexOf(SrutiNames(), e.interval).Some?
    && (e.third.Some? ==> IndexOf(SrutiNames(), e.third.value).Some?)
    && (e.seventh.Some? ==> IndexOf(SrutiNames(), e.seventh.value).Some?)
  }

  function BaseIndex(e: NoteOffset): (b: nat)
    requires IndexOf(ChromaticScale, e.base).Some?
    ensures b < 12 && ChromaticScale[b] == e.base
  {
    IndexOf(ChromaticScale, e.base).value
  }

  /** The bass offset of the entry: its note, less the interval below it. */
  function EntrySemitones(lg: real -> real, e: NoteOffset): real
    requires Resolvable(e)
  {
    BassSemitones(lg, BaseIndex(e), RatioOf(e.interval))
  }

  function ThirdTone(lg: real -> real, e: NoteOffset): Tone
    requires Resolvable(e) && e.third.Some?
  {
    ChordTone(lg, EntrySemitones(lg, e), RatioOf(e.third.value), e.thirdOctave)
  }

  function SeventhTone(lg: real -> real, e: NoteOffset): Tone
    requires Resolvable(e) && e.seventh.Some?
  {
    ChordTone(lg, EntrySemitones(lg, e), RatioOf(e.seventh.value), e.seventhOctave)
  }

  /** A resolved bass entry: the pitch class of its note, its chord tones, and how long it sounds. */
  datatype Chord = Chord(base: int, third: Option<Tone>, seventh: Option<Tone>, duration: nat)

  function ChordOf(lg: real -> real, e: NoteOffset): (c: Chord)
    requires Resolvable(e)
    ensures 0 <= c.base < 12 && c.duration == e.duration
    ensures c.third.Some? <==> e.third.Some?
    ensures c.seventh.Some? <==> e.seventh.Some?
  {
    Chord(BaseIndex(e),
          if e.third.Some? then Some(ThirdTone(lg, e)) else None,
          if e.seventh.Some? then Some(SeventhTone(lg, e)) else None,
          e.duration)
  }

  /** Every entry of the script resolved, in order. */
  function Chords(lg: real -> real, s: seq<NoteOffset>): seq<Chord>
    requires forall k :: 0 <= k < |s| ==> Resolvable(s[k])
  {
    seq(|s|, k requires 0 <= k < |s| => ChordOf(lg, s[k]))
  }

  /** A chord tone sounding on `channel`: its pitch bend, then its note. */
  function ToneOnset(channel: int, t: Option<Tone>): seq<Event>
  {
    match t
    case None => []
    case Some(t) => [PitchBend(channel, BendWord(t.delta)), NoteOn(channel, 60 + t.rounded, Velocity)]
  }

  function ToneRelease(channel: int, t: Option<Tone>): seq<Event>
  {
    match t
    case None => []
    case Some(t) => [NoteOff(channel, 60 + t.rounded, Velocity)]
  }

  /** The events at the onset of a chord on the chord track: the bass note on channel 2, the third on 3, the seventh on 4. */
  function Onsets(c: Chord): seq<Event>
  {
    [NoteOn(2, 60 + c.base, Velocity)] + ToneOnset(3, c.third) + ToneOnset(4, c.seventh)
  }

  /** The events at the release of a chord on the chord track. */
  function Releases(c: Chord): seq<Event>
  {
    [NoteOff(2, 60 + c.base, Velocity)] + ToneRelease(3, c.third) + ToneRelease(4, c.seventh)
  }

  /**
   * What one chord starting at tick `t` adds to `track`: nothing on track 2,
   * whose notes are compiled out, and its onsets and releases on track 3.
   */
  function ChordRecords(track: int, t: int, c: Chord): seq<Record>
  {
    if track == 2 then []
    else At(track, t, Onsets(c)) + At(track, t + 240 * c.duration, Releases(c))
  }

  /** The total duration of a sequence of chords, in duration units. */
  function TotalDuration(cs: seq<Chord>): nat
  {
    if cs == [] then 0 else TotalDuration(cs[..|cs| - 1]) + cs[|cs| - 1].duration
  }

  /** The records of a sequence of chords, each starting where the one before it ends. */
  function Body(track: int, cs: seq<Chord>): seq<Record>
  {
    if cs == [] then []
    else
      var init := cs[..|cs| - 1];
      Body(track, init) + ChordRecords(track, 240 * TotalDuration(init), cs[|cs| - 1])
  }

  /** Appending a chord appends its records, starting where the others ended. */
  lemma BodySnoc(track: int, cs: seq<Chord>, c: Chord)
    ensures TotalDuration(cs + [c]) == TotalDuration(cs) + c.duration
    ensures Body(track, cs + [c]) == Body(track, cs) + ChordRecords(track, 240 * TotalDuration(cs), c)
  {
    assert (cs + [c])[..|cs|] == cs;
  }

  /** The tick-0 set-up: programs, pan, and pitch bend sensitivity (RPN 0) of two semitones. */
  function Setup(track: int): seq<Event>
  {
    if track == 2 then
      [ProgramChange(1, 68), ControlChange(1, Pan, 64)] + BendSensitivity(1, 2)
    else
      [ProgramChange(2, 70), ControlChange(2, Pan, 64), ProgramChange(3, 70), ControlChange(3, Pan, 64)]
      + BendSensitivity(3, 2)
      + [ProgramChange(4, 70), ControlChange(4, Pan, 64)]
  }

  /** The listing of one voice track. */
  function TrackListing(track: int, cs: seq<Chord>): seq<Record>
  {
    At(track, 0, [StartTrack] + Setup(track))
    + Body(track, cs)
    + [Record(track, 240 * TotalDuration(cs) + 480, EndTrack)]
  }

  /** The remainders of a chord's tones are at most half a semitone, as the rounding leaves them. */
  ghost predicate TonesRounded(c: Chord)
  {
    && (c.third.Some? ==> -0.5 <= c.third.value.delta <= 0.5)
    && (c.seventh.Some? ==> -0.5 <= c.seventh.value.delta <= 0.5)
  }

  lemma ChordOfRounded(lg: real -> real, e: NoteOffset)
    requires Resolvable(e)
    ensures TonesRounded(ChordOf(lg, e))
  {
  }

  /**
   * The onsets of a chord: the bass note comes first, and every pitch bend
   * is immediately followed by the note-on of its channel, with a word in
   * [6144, 10240]; conversely every chord-tone note-on is immediately
   * preceded by the pitch bend of its channel.
   */
  lemma BendPrecedesNote(c: Chord)
    requires TonesRounded(c)
    ensures Onsets(c)[0] == NoteOn(2, 60 + c.base, Velocity)
    ensures forall k :: 0 <= k < |Onsets(c)| && Onsets(c)[k].PitchBend? ==>
      && k + 1 < |Onsets(c)|
      && Onsets(c)[k + 1].NoteOn?
      && Onsets(c)[k + 1].channel == Onsets(c)[k].channel
      && 6144 <= Onsets(c)[k].value <= 10240
    ensures forall k :: 0 < k < |Onsets(c)| && Onsets(c)[k].NoteOn? ==>
      Onsets(c)[k - 1].PitchBend? && Onsets(c)[k - 1].channel == Onsets(c)[k].channel
  {
    var os := Onsets(c);
    var a, b := ToneOnset(3, c.third), ToneOnset(4, c.seventh);
    assert os == [NoteOn(2, 60 + c.base, Velocity)] + a + b;
    forall k | 0 <= k < |os|
      ensures os[k] == if k == 0 then NoteOn(2, 60 + c.base, Velocity) else if k <= |a| then a[k - 1] else b[k - 1 - |a|]
    {
    }
  }

  /** The channel and key of every note-on, in order. */
  function NotesOn(es: seq<Event>): seq<(int, int)>
  {
    if es == [] then []
    else (if es[0].NoteOn? then [(es[0].channel, es[0].key)] else []) + NotesOn(es[1..])
  }

  /** The channel and key of every note-off, in order. */
  function NotesOff(es: seq<Event>): seq<(int, int)>
  {
    if es == [] then []
    else (if es[0].NoteOff? then [(es[0].channel, es[0].key)] else []) + NotesOff(es[1..])
  }

  lemma {:induction false} NotesOnAppend(a: seq<Event>, b: seq<Event>)
    ensures NotesOn(a + b) == NotesOn(a) + NotesOn(b)
  {
    if a == [] {
      assert a + b == b;
    } else {
      var head := if a[0].NoteOn? then [(a[0].channel, a[0].key)] else [];
      assert (a + b)[0] == a[0];
      assert (a + b)[1..] == a[1..] + b;
      NotesOnAppend(a[1..], b);
      assert NotesOn(a + b) == head + (NotesOn(a[1..]) + NotesOn(b));
      assert head + (NotesOn(a[1..]) + NotesOn(b)) == (head + NotesOn(a[1..])) + NotesOn(b);
    }
  }

  lemma {:induction false} NotesOffAppend(a: seq<Event>, b: seq<Event>)
    ensures NotesOff(a + b) == NotesOff(a) + NotesOff(b)
  {
    if a == [] {
      assert a + b == b;
    } else {
      var head := if a[0].NoteOff? then [(a[0].channel, a[0].key)] else [];
      assert (a + b)[0] == a[0];
      assert (a + b)[1..] == a[1..] + b;
      NotesOffAppend(a[1..], b);
      assert NotesOff(a + b) == head + (NotesOff(a[1..]) + NotesOff(b));
      assert head + (NotesOff(a[1..]) + NotesOff(b)) == (head + NotesOff(a[1..])) + NotesOff(b);
    }
  }

  /** The channel and key a chord tone sounds on, if there is one. */
  function ToneNote(channel: int, t: Option<Tone>): seq<(int, int)>
  {
    if t.Some? then [(channel, 60 + t.value.rounded)] else []
  }

  lemma ToneNotes(channel: int, t: Option<Tone>)
    ensures NotesOn(ToneOnset(channel, t)) == ToneNote(channel, t) && NotesOff(ToneOnset(channel, t)) == []
    ensures NotesOff(ToneRelease(channel, t)) == ToneNote(channel, t) && NotesOn(ToneRelease(channel, t)) == []
  {
    if t.Some? {
      var on := ToneOnset(channel, t);
      assert on[1..][1..] == [];
      assert NotesOn(on[1..][1..]) == NotesOff(on[1..][1..]) == [];
      assert NotesOn(on[1..]) == [(channel, 60 + t.value.rounded)] && NotesOff(on[1..]) == [];
      var off := ToneRelease(channel, t);
      assert off[1..] == [];
    }
  }

  /** The notes a chord starts: the bass on channel 2, then its third on 3 and its seventh on 4; it stops none. */
  lemma OnsetNotes(c: Chord)
    ensures NotesOn(Onsets(c)) == [(2, 60 + c.base)] + ToneNote(3, c.third) + ToneNote(4, c.seventh)
    ensures NotesOff(Onsets(c)) == []
  {
    var on2 := [NoteOn(2, 60 + c.base, Velocity)];
    assert on2[1..] == [];
    assert NotesOn(on2[1..]) == [] && NotesOff(on2[1..]) == [];
    assert NotesOn(on2) == [(2, 60 + c.base)] && NotesOff(on2) == [];
    ToneNotes(3, c.third);
    ToneNotes(4, c.seventh);
    NotesOnAppend(on2, ToneOnset(3, c.third));
    NotesOnAppend(on2 + ToneOnset(3, c.third), ToneOnset(4, c.seventh));
    NotesOffAppend(on2, ToneOnset(3, c.third));
    NotesOffAppend(on2 + ToneOnset(3, c.third), ToneOnset(4, c.seventh));
  }

  /** The notes a chord stops: the bass on channel 2, then its third on 3 and its seventh on 4; it starts none. */
  lemma ReleaseNotes(c: Chord)
    ensures NotesOff(Releases(c)) == [(2, 60 + c.base)] + ToneNote(3, c.third) + ToneNote(4, c.seventh)
    ensures NotesOn(Releases(c)) == []
  {
    var off2 := [NoteOff(2, 60 + c.base, Velocity)];
    assert off2[1..] == [];
    assert NotesOn(off2[1..]) == [] && NotesOff(off2[1..]) == [];
    assert NotesOff(off2) == [(2, 60 + c.base)] && NotesOn(off2) == [];
    ToneNotes(3, c.third);
    ToneNotes(4, c.seventh);
    NotesOnAppend(off2, ToneRelease(3, c.third));
    NotesOnAppend(off2 + ToneRelease(3, c.third), ToneRelease(4, c.seventh));
    NotesOffAppend(off2, ToneRelease(3, c.third));
    NotesOffAppend(off2 + ToneRelease(3, c.third), ToneRelease(4, c.seventh));
  }

  /** A chord stops exactly the notes it started, channel by channel and key by key, in the same order. */
  lemma ReleasesMirrorOnsets(c: Chord)
    ensures NotesOff(Releases(c)) == NotesOn(Onsets(c))
    ensures NotesOn(Releases(c)) == [] && NotesOff(Onsets(c)) == []
  {
    OnsetNotes(c);
    ReleaseNotes(c);
  }

  /**
   * On the chord track every note-on of a chord starting at tick `t` is at
   * `t`, and the note-off with the same channel, key and velocity follows
   * it at `t` plus 240 ticks per duration unit.
   */
  lemma NoteOffFollowsNoteOn(t: int, c: Chord)
    ensures forall i :: 0 <= i < |ChordRecords(3, t, c)| && ChordRecords(3, t, c)[i].event.NoteOn? ==>
      && ChordRecords(3, t, c)[i].time == t
      && exists j :: i < j < |ChordRecords(3, t, c)|
           && ChordRecords(3, t, c)[j].time == t + 240 * c.duration
           && ChordRecords(3, t, c)[j].event == NoteOff(ChordRecords(3, t, c)[i].event.channel,
                                                        ChordRecords(3, t, c)[i].event.key,
                                                        ChordRecords(3, t, c)[i].event.velocity)
  {
    var ons, offs := Onsets(c), Releases(c);
    var rs := ChordRecords(3, t, c);
    var n := |ons|;
    assert |rs| == n + |offs|;
    forall k | 0 <= k < |rs|
      ensures rs[k] == if k < n then Record(3, t, ons[k]) else Record(3, t + 240 * c.duration, offs[k - n])
    {
    }
    // the note-ons sit at 0, then 2 and 4 after any pitch bends; their
    // releases at n, n + 1 and n + 2 in the same order
    var on3, on4 := ToneOnset(3, c.third), ToneOnset(4, c.seventh);
    assert ons == [NoteOn(2, 60 + c.base, Velocity)] + on3 + on4;
    assert rs[n].event == NoteOff(2, 60 + c.base, Velocity);
    if c.third.Some? {
      assert rs[n + 1].event == NoteOff(3, 60 + c.third.value.rounded, Velocity);
    }
    if c.seventh.Some? {
      var j := n + |offs| - 1;
      assert rs[j].event == NoteOff(4, 60 + c.seventh.value.rounded, Velocity);
    }
  }

  /** The records of one chord lie in time order, from its start to its release. */
  lemma ChordRecordsChronological(track: int, t: int, c: Chord)
    ensures Chronological(ChordRecords(track, t, c))
    ensures Within(ChordRecords(track, t, c), t, t + 240 * c.duration)
    ensures OnTrack(ChordRecords(track, t, c), track)
  {
    if track != 2 {
      AtChronological(track, t, Onsets(c));
      AtChronological(track, t + 240 * c.duration, Releases(c));
      ChronologicalAppend(At(track, t, Onsets(c)), At(track, t + 240 * c.duration, Releases(c)),
                          t, t, t + 240 * c.duration);
    }
  }

  /** The records of a sequence of chords lie in time order, within the span of their total duration. */
  lemma {:induction false} BodyChronological(track: int, cs: seq<Chord>)
    ensures Chronological(Body(track, cs))
    ensures Within(Body(track, cs), 0, 240 * TotalDuration(cs))
    ensures OnTrack(Body(track, cs), track)
  {
    if cs != [] {
      var init, c := cs[..|cs| - 1], cs[|cs| - 1];
      var start := 240 * TotalDuration(init);
      BodyChronological(track, init);
      ChordRecordsChronological(track, start, c);
      ChronologicalAppend(Body(track, init), ChordRecords(track, start, c), 0, start, start + 240 * c.duration);
    }
  }

  /** A voice track is in time order: no record comes before the one ahead of it. */
  lemma TrackListingChronological(track: int, cs: seq<Chord>)
    ensures Chronological(TrackListing(track, cs))
  {
    BodyChronological(track, cs);
    FramedChronological(track, [StartTrack] + Setup(track), Body(track, cs), 240 * TotalDuration(cs));
  }

  /** Every record of a voice track belongs to it. */
  lemma TrackListingOnTrack(track: int, cs: seq<Chord>)
    ensures OnTrack(TrackListing(track, cs), track)
  {
    BodyChronological(track, cs);
    FramedChronological(track, [StartTrack] + Setup(track), Body(track, cs), 240 * TotalDuration(cs));
  }

  /** A voice track opens with its start at tick 0 and closes with its end, 480 ticks after the last release. */
  lemma TrackListingBounds(track: int, cs: seq<Chord>)
    ensures TrackListing(track, cs)[0] == Record(track, 0, StartTrack)
    ensures TrackListing(track, cs)[|TrackListing(track, cs)| - 1] == Record(track, 240 * TotalDuration(cs) + 480, EndTrack)
  {
    var header := At(track, 0, [StartTrack] + Setup(track));
    assert header[0] == Record(track, 0, StartTrack);
  }

  /**
   * Pitch bend sensitivity (RPN 0, two semitones) is set up at tick 0 on
   * channel 1 by track 2 and on channel 3 by track 3, and on no other
   * channel; channel 4 receives its pitch bends without it.
   */
  lemma SensitivitySetup(track: int)
    ensures track == 2 ==> Setup(track)[2..6] == BendSensitivity(1, 2)
    ensures track != 2 ==> Setup(track)[4..8] == BendSensitivity(3, 2)
    ensures forall k ::
      (&& 0 <= k < |Setup(track)| && Setup(track)[k].ControlChange?
       && Setup(track)[k].controller in {RpnMsb, RpnLsb, DataEntryMsb, DataEntryLsb}) ==>
      Setup(track)[k].channel == if track == 2 then 1 else 3
  {
  }

  /**
   * What the set-up of a voice track writes into registered parameters:
   * on channel 1 for track 2 and on channel 3 for track 3, 0 cents and then
   * 2 semitones into RPN 00 00, pitch bend sensitivity, whatever was
   * selected before; on every other channel, nothing.
   */
  lemma SetupWrites(track: int, c: int, current: Rpn)
    ensures Writes(Setup(track), c, current)
      == if c == (if track == 2 then 1 else 3)
         then [ParameterWrite(Rpn(0, 0), DataEntryLsb, 0), ParameterWrite(Rpn(0, 0), DataEntryMsb, 2)]
         else []
  {
    if track == 2 {
      var a := [ProgramChange(1, 68), ControlChange(1, Pan, 64)];
      assert Setup(track) == a + BendSensitivity(1, 2);
      ParameterFreeWrites(a, c, current);
      WritesAppend(a, BendSensitivity(1, 2), c, current);
      BendSensitivityWrites(1, 2, c, current);
    } else {
      var a := [ProgramChange(2, 70), ControlChange(2, Pan, 64), ProgramChange(3, 70), ControlChange(3, Pan, 64)];
      var b := [ProgramChange(4, 70), ControlChange(4, Pan, 64)];
      assert Setup(track) == (a + BendSensitivity(3, 2)) + b;
      ParameterFreeWrites(a, c, current);
      WritesAppend(a, BendSensitivity(3, 2), c, current);
      BendSensitivityWrites(3, 2, c, current);
      var after := SelectedRpn(a + BendSensitivity(3, 2), c, current);
      ParameterFreeWrites(b, c, after);
      WritesAppend(a + BendSensitivity(3, 2), b, c, current);
    }
  }

  /** The names of the script are found: A is pitch class 9, and both intervals are in the table. */
  lemma BassResolvable()
    ensures forall k :: 0 <= k < |Bass| ==> Resolvable(Bass[k])
    ensures IndexOf(ChromaticScale, "A") == Some(9)
  {
    assert ChromaticScale[9] == "A";
    ChromaticIndexOfName(9);
    IntervalsFound();
    assert |Bass| == 1;
  }

  /**
   * The chord of the script: the bass note A sounds as key 69 for 4 units.
   * The seventh n3 is the same interval the bass offset lies below A, so it
   * comes back to A exactly: key 69, no remainder, the centre bend 8192.
   */
  lemma BassChord(lg: real -> real)
    ensures forall k :: 0 <= k < |Bass| ==> Resolvable(Bass[k])
    ensures |Chords(lg, Bass)| == 1
    ensures Chords(lg, Bass)[0].base == 9 && Chords(lg, Bass)[0].duration == 4
    ensures Chords(lg, Bass)[0].third.Some?
    ensures Chords(lg, Bass)[0].seventh == Some(Tone(9, 0.0, 9))
    ensures Onsets(Chords(lg, Bass)[0])[0] == NoteOn(2, 69, 81)
    ensures Onsets(Chords(lg, Bass)[0])[3..] == [PitchBend(4, 8192), NoteOn(4, 69, 81)]
    ensures Releases(Chords(lg, Bass)[0])[0] == NoteOff(2, 69, 81)
    ensures Releases(Chords(lg, Bass)[0])[2] == NoteOff(4, 69, 81)
  {
    BassResolvable();
    var e := Bass[0];
    var semitones := EntrySemitones(lg, e);
    assert semitones == 9.0 - 12.0 * lg(RatioOf("n3"));
    var t := SeventhTone(lg, e);
    assert semitones + Semis(lg, RatioOf("n3")) + 12.0 * 0 as real == 9.0;
    RoundOfInt(9);
    assert t == Tone(9, 0.0, 9);
  }

  /** A track of one chord: its records start at tick 0, and the chord's duration is the track's. */
  lemma SingleChord(track: int, cs: seq<Chord>)
    requires |cs| == 1
    ensures Body(track, cs) == ChordRecords(track, 0, cs[0])
    ensures TotalDuration(cs) == cs[0].duration
  {
    BodySnoc(track, [], cs[0]);
    assert [] + [cs[0]] == cs;
  }

  /**
   * The chord records of the script: none on track 2; on track 3 the chord
   * sounds at tick 0 and is released at tick 960, four units of 240 ticks.
   */
  lemma BassBodies(lg: real -> real)
    ensures forall k :: 0 <= k < |Bass| ==> Resolvable(Bass[k])
    ensures |Chords(lg, Bass)| == 1 && TotalDuration(Chords(lg, Bass)) == 4
    ensures Body(2, Chords(lg, Bass)) == []
    ensures Body(3, Chords(lg, Bass))
      == At(3, 0, Onsets(Chords(lg, Bass)[0])) + At(3, 960, Releases(Chords(lg, Bass)[0]))
  {
    BassChord(lg);
    SingleChord(2, Chords(lg, Bass));
    SingleChord(3, Chords(lg, Bass));
  }

  /**
   * The two voice tracks of the script: track 2 has no chord records; on
   * track 3 the chord sounds at tick 0 and is released at tick 960; both
   * tracks end at tick 1440.
   */
  lemma BassListing(lg: real -> real)
    ensures forall k :: 0 <= k < |Bass| ==> Resolvable(Bass[k])
    ensures Body(2, Chords(lg, Bass)) == []
    ensures Body(3, Chords(lg, Bass))
      == At(3, 0, Onsets(Chords(lg, Bass)[0])) + At(3, 960, Releases(Chords(lg, Bass)[0]))
    ensures TrackListing(2, Chords(lg, Bass))[|TrackListing(2, Chords(lg, Bass))| - 1] == Record(2, 1440, EndTrack)
    ensures TrackListing(3, Chords(lg, Bass))[|TrackListing(3, Chords(lg, Bass))| - 1] == Record(3, 1440, EndTrack)
  {
    BassBodies(lg);
    TrackListingBounds(2, Chords(lg, Bass));
    TrackListingBounds(3, Chords(lg, Bass));
  }

  /** An entry whose third lies exactly one octave above its bass: C, a unison below, a unison third one octave up. */
  const OctaveThird := UnisonThird(1)

  /**
   * The normalisation as written leaves such a third at 12, one past the
   * last of the twelve names, where the corrected one answers pitch class
   * 0 (C).
   */
  lemma OctaveThirdOutOfRange(lg: real -> real)
    requires IsLog2(lg)
    ensures Resolvable(OctaveThird)
    ensures ThirdTone(lg, OctaveThird).rounded == 12
    ensures ThirdTone(lg, OctaveThird).modulo == |ChromaticScale|
    ensures PitchClass(ThirdTone(lg, OctaveThird).rounded) == 0 && ChromaticScale[0] == OctaveThird.base
  {
    assert ChromaticScale[0] == "C";
    ChromaticIndexOfName(0);
    IntervalsFound();
    var unison := RatioOf("sa");
    assert unison == Ratio(SrutiTable[0]);
    assert SrutiTable[0].numerator == 1 && SrutiTable[0].denominator == 1;
    assert unison == 1.0;
    var semitones := EntrySemitones(lg, OctaveThird);
    assert semitones == 0.0 - 12.0 * lg(1.0) == 0.0;
    var value := semitones + Semis(lg, unison) + 12.0 * 1 as real;
    assert value == 12.0;
    RoundOfInt(12);
  }

  /** An entry whose third is a unison `octave` octaves above its bass note C. */
  function UnisonThird(octave: int): NoteOffset
  {
    NoteOffset("C", "sa", Some("sa"), octave, None, 0, 1)
  }

  /**
   * Such a third rounds to 12 octave; from one octave up, the normalisation
   * as written leaves it at 12 or above, past the twelve names, while the
   * corrected one answers pitch class 0 (C) for every octave.
   */
  lemma UnisonThirdOutOfRange(lg: real -> real, octave: int)
    requires IsLog2(lg)
    ensures Resolvable(UnisonThird(octave))
    ensures ThirdTone(lg, UnisonThird(octave)).rounded == 12 * octave
    ensures octave >= 1 <==> ThirdTone(lg, UnisonThird(octave)).modulo >= |ChromaticScale|
    ensures PitchClass(ThirdTone(lg, UnisonThird(octave)).rounded) == 0
  {
    var e := UnisonThird(octave);
    assert ChromaticScale[0] == "C";
    ChromaticIndexOfName(0);
    IntervalsFound();
    var unison := RatioOf("sa");
    assert unison == Ratio(SrutiTable[0]);
    assert SrutiTable[0].numerator == 1 && SrutiTable[0].denominator == 1;
    assert unison == 1.0;
    var semitones := EntrySemitones(lg, e);
    assert semitones == 0.0 - 12.0 * lg(1.0) == 0.0;
    var value := semitones + Semis(lg, unison) + 12.0 * octave as real;
    assert value == (12 * octave) as real;
    RoundOfInt(12 * octave);
    var t := ThirdTone(lg, e);
    assert t.rounded == 12 * octave;
    OctaveMultiple(octave);
  }

  /**
   * The resolution of one chord tone on the unrounded bass offset
   * `semitones`: the interval named `name` above it, `octave` octaves up,
   * rounded to the nearest semitone, and the rounded value normalised.
   */
  method ResolveTone(lg: real -> real, semitones: real, name: string, octave: int) returns (t: Tone)
    requires IndexOf(SrutiNames(), name).Some?
    ensures t == ChordTone(lg, semitones, RatioOf(name), octave)
  {
    var r := SrutiRatio(name);
    var value := semitones + 12.0 * lg(r);
    value := value + 12.0 * octave as real;
    var rounded := Round(value);
    var delta := value - rounded as real;
    var modulo := rounded;
    if modulo > 12 {
      modulo := modulo - 12;
    } else if modulo < 0 {
      modulo := modulo + 12;
    }
    t := Tone(rounded, delta, modulo);
  }

  /**
   * The arithmetic of the bass-entry loop of main() in microtonal.c: the
   * note is looked up, the interval below it gives the unrounded bass
   * offset, and the third and the seventh are resolved on that offset.
   */
  method ResolveChord(lg: real -> real, e: NoteOffset) returns (c: Chord, root: Split, rootModulo: int)
    requires Resolvable(e)
    ensures c == ChordOf(lg, e)
    ensures root == SplitSemitones(EntrySemitones(lg, e))
    ensures rootModulo == RootModulo(root.root)
    ensures IsLog2(lg) ==> 0 <= rootModulo < |ChromaticScale|
  {
    var base := ChromaticIndex(e.base);
    var ratio := SrutiRatio(e.interval);
    var semitones := base as real - 12.0 * lg(ratio);
    assert semitones == EntrySemitones(lg, e);
    var nearest := Round(semitones);
    var delta := semitones - nearest as real;
    root := Split(nearest, delta);
    rootModulo := nearest;
    if rootModulo < 0 {
      rootModulo := rootModulo + 12;
    }
    assert IsLog2(lg) ==> 0 <= rootModulo < |ChromaticScale| by {
      if IsLog2(lg) {
        RootIsPitchClass(lg, base, ratio);
      }
    }
    var third: Option<Tone> := None;
    if e.third.Some? {
      var t := ResolveTone(lg, semitones, e.third.value, e.thirdOctave);
      third := Some(t);
    }
    var seventh: Option<Tone> := None;
    if e.seventh.Some? {
      var t := ResolveTone(lg, semitones, e.seventh.value, e.seventhOctave);
      seventh := Some(t);
    }
    c := Chord(base, third, seventh, e.duration);
  }

  /** Every entry of the script resolved, in order. */
  method ResolveScript(lg: real -> real, script: seq<NoteOffset>) returns (cs: seq<Chord>)
    requires forall k :: 0 <= k < |script| ==> Resolvable(script[k])
    ensures cs == Chords(lg, script)
  {
    cs := [];
    for i := 0 to |script|
      invariant |cs| == i
      invariant forall k :: 0 <= k < i ==> cs[k] == ChordOf(lg, script[k])
    {
      var c, _, _ := ResolveChord(lg, script[i]);
      cs := cs + [c];
    }
  }

  /**
   * The bass-entry loop of one pass of the track loop of main() in
   * microtonal.c: each chord written at the tick cursor, the cursor
   * advanced by 240 ticks per duration unit, then the releases.
   */
  method ChordBody(track: int, cs: seq<Chord>) returns (body: seq<Record>, time: int)
    ensures body == Body(track, cs)
    ensures time == 240 * TotalDuration(cs)
  {
    body := [];
    time := 0;
    for i := 0 to |cs|
      invariant time == 240 * TotalDuration(cs[..i])
      invariant body == Body(track, cs[..i])
    {
      var c := cs[i];
      assert cs[..i + 1] == cs[..i] + [c];
      BodySnoc(track, cs[..i], c);
      body := body + ChordRecords(track, time, c);
      time := time + 240 * c.duration;
    }
    assert cs[..|cs|] == cs;
  }

  /** One pass of the track loop: the start of track and set-up, the chords, and the end of track 480 ticks after the last release. */
  method VoiceTrack(track: int, cs: seq<Chord>) returns (out: seq<Record>)
    ensures out == TrackListing(track, cs)
  {
    var header := At(track, 0, [StartTrack] + Setup(track));
    var body, time := ChordBody(track, cs);
    time := time + 480;
    out := header + body + [Record(track, time, EndTrack)];
  }

  /** main() of microtonal.c from track 2 on: the script resolved, then the bass track and the chord track. */
  method Generate(lg: real -> real, script: seq<NoteOffset>) returns (out: seq<Record>)
    requires forall k :: 0 <= k < |script| ==> Resolvable(script[k])
    ensures out == TrackListing(2, Chords(lg, script)) + TrackListing(3, Chords(lg, script))
  {
    var cs := ResolveScript(lg, script);
    out := [];
    for track := 2 to 4
      invariant out == if track == 2 then [] else if track == 3 then TrackListing(2, cs)
                       else TrackListing(2, cs) + TrackListing(3, cs)
    {
      var listing := VoiceTrack(track, cs);
      out := out + listing;
    }
  }
}
