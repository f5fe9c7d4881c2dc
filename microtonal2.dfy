/**
 * microtonal2.c: twenty-four keys, 48 to 71, retuned to just intonation
 * through the MIDI Tuning Standard, one single note tuning change per key,
 * then each key played in turn for 480 ticks.
 */
module Microtonal2 {
  import opened CMath
  import opened Midi

  /** The just ratio of each pitch class above C, in the order C, C#, ..., B. */
  const Tuning: seq<real> :=
    [1.0, 16.0 / 15.0, 9.0 / 8.0, 6.0 / 5.0, 5.0 / 4.0, 4.0 / 3.0,
     45.0 / 32.0, 3.0 / 2.0, 8.0 / 5.0, 5.0 / 3.0, 9.0 / 5.0, 15.0 / 8.0]

  /** The number of keys retuned and played, starting from key 48. */
  const Keys := 24

  /** Every ratio lies within one octave above C, and they rise strictly from C to B. */
  lemma TuningAscending()
    ensures |Tuning| == 12 && Tuning[0] == 1.0
    ensures forall i :: 0 <= i < |Tuning| ==> 1.0 <= Tuning[i] < 2.0
    ensures forall i, j :: 0 <= i < j < |Tuning| ==> Tuning[i] < Tuning[j]
  {
    forall i, j | 0 <= i < j < |Tuning|
      ensures Tuning[i] < Tuning[j]
    {
      AdjacentAscending(i, j);
    }
  }

  /** Each ratio is below the next. */
  lemma {:induction false} AdjacentAscending(i: nat, j: nat)
    requires i < j < |Tuning|
    ensures Tuning[i] < Tuning[j]
    decreases j - i
  {
    assert forall k :: 0 <= k < |Tuning| - 1 ==> Tuning[k] < Tuning[k + 1];
    if i + 1 < j {
      AdjacentAscending(i + 1, j);
    }
  }

  /** The exact pitch that key 48 + i is tuned to, in semitones above MIDI key 0 (C four octaves below middle C). */
  function KeySemitones(lg: real -> real, i: nat): real
  {
    48.0 + 12.0 * lg(Tuning[i % 12]) + 12.0 * (i / 12) as real
  }

  /**
   * The frequency data of one single note tuning change: the key, the
   * semitone xx below (or at) its pitch, and the remaining fraction of a
   * semitone in units of 1/16384, sent as the 7-bit bytes yy and zz.
   */
  datatype KeyTuning = KeyTuning(key: int, semitone: int, msb: int, lsb: int)

  /** The fraction of a semitone above the floor, in [0, 1). */
  function Fractional(x: real): (f: real)
    ensures 0.0 <= f < 1.0
    ensures x.Floor as real + f == x
  {
    x - x.Floor as real
  }

  /** The fraction in units of 1/16384, truncated as the cast (int) does. */
  function FractionalRounded(x: real): (fr: int)
    ensures 0 <= fr < 0x4000
    ensures fr as real <= Fractional(x) * 16384.0 < fr as real + 1.0
  {
    Trunc(Fractional(x) * 16384.0)
  }

  /** The tuning of key 48 + i: the floor of its pitch, and the 14-bit fraction split into two 7-bit bytes. */
  function TuningOf(lg: real -> real, i: nat): (t: KeyTuning)
    ensures t.key == 48 + i
    ensures t.semitone == KeySemitones(lg, i).Floor
    ensures 0 <= t.msb < 128 && 0 <= t.lsb < 128
    ensures t.msb * 128 + t.lsb == FractionalRounded(KeySemitones(lg, i))
  {
    var fr := FractionalRounded(KeySemitones(lg, i));
    SplitFourteenBits(fr);
    KeyTuning(48 + i, KeySemitones(lg, i).Floor, ShiftRight7(fr), Low7(fr))
  }

  /**
   * The universal real-time message: 7F, device 0, sub-ID#1 08 (MIDI
   * tuning standard), sub-ID#2 02 (single note tuning change), tuning
   * program 1, one change, then the key and its frequency data.
   */
  function TuningMessage(t: KeyTuning): Event
  {
    SystemExclusive(10, [0x7f, 0, 8, 2, 1, 1, t.key, t.semitone, t.msb, t.lsb])
  }

  /** The tuning changes for the first `n` keys, all at tick 0 of track 1. */
  function TuningRecords(lg: real -> real, n: nat): seq<Record>
  {
    seq(n, k requires 0 <= k < n => Record(1, 0, TuningMessage(TuningOf(lg, k))))
  }

  /** Note k turns on key 48 + k at tick 480 k and turns it off 480 ticks later. */
  function NoteRecords(n: nat): (rs: seq<Record>)
    ensures |rs| == 2 * n
  {
    if n == 0 then []
    else
      var k := n - 1;
      NoteRecords(k)
      + [Record(2, 480 * k, NoteOn(2, 48 + k, 81)), Record(2, 480 * (k + 1), NoteOff(2, 48 + k, 81))]
  }

  /** The set-up of track 2, at tick 0. */
  function Setup(): seq<Event>
  {
    [ProgramChange(1, 1), ProgramChange(2, 1),
     ControlChange(1, Pan, 0), ControlChange(2, Pan, 127)]
    + BendSensitivity(2, 2)
    + [ControlChange(2, RpnLsb, 4), ControlChange(2, DataEntryMsb, 0),   // RPN 0 4: tuning bank 0
       ControlChange(2, RpnLsb, 3), ControlChange(2, DataEntryMsb, 1)]   // RPN 0 3: tuning program 1
  }

  /** The listing of microtonal2.c: the tuning track, then the track that plays the keys. */
  function Listing(lg: real -> real): seq<Record>
  {
    TuningListing(lg) + PlayingListing()
  }

  /** Track 1: the tuning changes, all at tick 0. */
  function TuningListing(lg: real -> real): seq<Record>
  {
    [Record(1, 0, StartTrack)] + TuningRecords(lg, Keys) + [Record(1, 0, EndTrack)]
  }

  /** Track 2: the set-up at tick 0, the notes, and the end of track at the last release. */
  function PlayingListing(): seq<Record>
  {
    At(2, 0, [StartTrack] + Setup())
    + NoteRecords(Keys)
    + [Record(2, 480 * Keys, EndTrack)]
  }

  /**
   * The tuning data round-trips: the semitone plus the 14-bit fraction
   * rebuilt from its two bytes lies at most 1/16384 of a semitone below the
   * exact pitch.
   */
  lemma FractionRoundTrip(lg: real -> real, i: nat)
    ensures var t := TuningOf(lg, i);
      var approx := t.semitone as real + (t.msb * 128 + t.lsb) as real / 16384.0;
      approx <= KeySemitones(lg, i) < approx + 1.0 / 16384.0
  {
    var x := KeySemitones(lg, i);
    var fr := FractionalRounded(x);
    assert fr as real / 16384.0 <= Fractional(x) < fr as real / 16384.0 + 1.0 / 16384.0;
  }

  /** C is tuned to itself: key 48 and key 60 get exactly 48 and 60 semitones, with no fraction. */
  lemma UnisonKeys(lg: real -> real)
    requires IsLog2(lg)
    ensures TuningOf(lg, 0) == KeyTuning(48, 48, 0, 0)
    ensures TuningOf(lg, 12) == KeyTuning(60, 60, 0, 0)
  {
    assert KeySemitones(lg, 0) == 48.0;
    assert KeySemitones(lg, 12) == 60.0;
    assert FractionalRounded(48.0) == 0;
    assert FractionalRounded(60.0) == 0;
  }

  /** One octave up gives the same fraction and a semitone exactly twelve higher. */
  lemma OctavePeriodicity(lg: real -> real, i: nat)
    ensures TuningOf(lg, i + 12).semitone == TuningOf(lg, i).semitone + 12
    ensures TuningOf(lg, i + 12).msb == TuningOf(lg, i).msb
    ensures TuningOf(lg, i + 12).lsb == TuningOf(lg, i).lsb
  {
    var x := KeySemitones(lg, i);
    assert (i + 12) % 12 == i % 12 && (i + 12) / 12 == i / 12 + 1;
    assert KeySemitones(lg, i + 12) == x + 12 as real;
    FloorShift(x, 12);
    assert Fractional(x + 12 as real) == Fractional(x);
  }

  /** Each key of an octave lies in the twelve semitones from that octave's C. */
  lemma KeySemitonesRange(lg: real -> real, i: nat)
    requires IsLog2(lg)
    ensures 48.0 + 12.0 * (i / 12) as real <= KeySemitones(lg, i) < 60.0 + 12.0 * (i / 12) as real
  {
    TuningAscending();
    Log2WithinOctave(lg, Tuning[i % 12]);
  }

  /** The pitches rise strictly with the key, and every semitone byte lies in [48, 71]. */
  lemma SemitonesAscending(lg: real -> real)
    requires IsLog2(lg)
    ensures forall i, j :: 0 <= i < j < Keys ==> KeySemitones(lg, i) < KeySemitones(lg, j)
    ensures forall i :: 0 <= i < Keys ==> 48 <= TuningOf(lg, i).semitone <= 71
  {
    TuningAscending();
    forall i, j | 0 <= i < j < Keys
      ensures KeySemitones(lg, i) < KeySemitones(lg, j)
    {
      KeySemitonesRange(lg, i);
      KeySemitonesRange(lg, j);
      if i / 12 == j / 12 {
        assert i % 12 < j % 12;
        assert lg(Tuning[i % 12]) < lg(Tuning[j % 12]);
      }
    }
    forall i | 0 <= i < Keys
      ensures 48 <= TuningOf(lg, i).semitone <= 71
    {
      KeySemitonesRange(lg, i);
    }
  }

  /**
   * Every tuning message is a single note tuning change of tuning program 1
   * whose length field counts its ten bytes, each a 7-bit data byte, and
   * message k carries the tuning of key 48 + k: each key once, in
   * ascending order.
   */
  lemma TuningMessagesWellFormed(lg: real -> real)
    requires IsLog2(lg)
    ensures forall k :: 0 <= k < Keys ==>
      var e := TuningRecords(lg, Keys)[k].event;
      && e.SystemExclusive? && e.length == |e.data| == 10
      && e.data[..6] == [0x7f, 0, 8, 2, 1, 1]
      && e.data[6..] == [TuningOf(lg, k).key, TuningOf(lg, k).semitone, TuningOf(lg, k).msb, TuningOf(lg, k).lsb]
      && forall b :: b in e.data ==> 0 <= b < 128
    ensures forall j, k :: 0 <= j < k < Keys ==>
      TuningRecords(lg, Keys)[j].event.data[6] < TuningRecords(lg, Keys)[k].event.data[6] < 128
  {
    SemitonesAscending(lg);
    forall k | 0 <= k < Keys
      ensures var e := TuningRecords(lg, Keys)[k].event;
        && e.SystemExclusive? && e.length == |e.data| == 10
        && e.data[..6] == [0x7f, 0, 8, 2, 1, 1]
        && e.data[6..] == [TuningOf(lg, k).key, TuningOf(lg, k).semitone, TuningOf(lg, k).msb, TuningOf(lg, k).lsb]
        && forall b :: b in e.data ==> 0 <= b < 128
    {
      var t := TuningOf(lg, k);
      assert TuningRecords(lg, Keys)[k].event.data == [0x7f, 0, 8, 2, 1, 1, t.key, t.semitone, t.msb, t.lsb];
    }
  }

  /** Note k of a run of `n` is turned on at tick 480 k and off at tick 480 (k + 1). */
  lemma {:induction false} NoteRecordsAt(n: nat, k: nat)
    requires k < n
    ensures NoteRecords(n)[2 * k] == Record(2, 480 * k, NoteOn(2, 48 + k, 81))
    ensures NoteRecords(n)[2 * k + 1] == Record(2, 480 * (k + 1), NoteOff(2, 48 + k, 81))
  {
    if k < n - 1 {
      NoteRecordsAt(n - 1, k);
    }
  }

  /** Each note ends at the tick the next one starts: the notes neither overlap nor leave gaps. */
  lemma NotesBackToBack(n: nat, k: nat)
    requires k + 1 < n
    ensures NoteRecords(n)[2 * k + 1].time == NoteRecords(n)[2 * k + 2].time
  {
    NoteRecordsAt(n, k);
    NoteRecordsAt(n, k + 1);
  }

  /** The notes are in time order, between tick 0 and tick 480 n. */
  lemma {:induction false} NoteRecordsChronological(n: nat)
    ensures Chronological(NoteRecords(n)) && Within(NoteRecords(n), 0, 480 * n) && OnTrack(NoteRecords(n), 2)
  {
    if n > 0 {
      var k := n - 1;
      var pair := [Record(2, 480 * k, NoteOn(2, 48 + k, 81)), Record(2, 480 * (k + 1), NoteOff(2, 48 + k, 81))];
      NoteRecordsChronological(k);
      ChronologicalAppend(NoteRecords(k), pair, 0, 480 * k, 480 * n);
      forall j | 0 <= j < |NoteRecords(n)|
        ensures NoteRecords(n)[j].track == 2
      {
        if j < 2 * k {
          assert NoteRecords(n)[j] == NoteRecords(k)[j];
        }
      }
    }
  }

  /**
   * The playing track is in time order, all on track 2, and its end of
   * track comes at tick 11520, the release of its last note.
   */
  lemma NoteTrackChronological()
    ensures Orderly(PlayingListing(), 2, 0, 11520)
    ensures NoteRecords(Keys)[2 * Keys - 1].time == 11520
    ensures PlayingListing()[|PlayingListing()| - 1] == Record(2, 11520, EndTrack)
  {
    var header := At(2, 0, [StartTrack] + Setup());
    AtChronological(2, 0, [StartTrack] + Setup());
    NoteRecordsChronological(Keys);
    OrderlyAppend(header, NoteRecords(Keys), 2, 0, 0, 480 * Keys);
    OrderlyAppend(header + NoteRecords(Keys), [Record(2, 480 * Keys, EndTrack)], 2, 0, 480 * Keys, 480 * Keys);
    NoteRecordsAt(Keys, Keys - 1);
  }

  /**
   * The tuning track opens and closes at tick 0, with the 24 tuning
   * changes between, all on track 1.
   */
  lemma TuningTrackAtStart(lg: real -> real)
    ensures Orderly(TuningListing(lg), 1, 0, 0) && |TuningListing(lg)| == Keys + 2
    ensures TuningListing(lg)[0] == Record(1, 0, StartTrack)
    ensures TuningListing(lg)[Keys + 1] == Record(1, 0, EndTrack)
  {
    var rs := TuningListing(lg);
    forall k | 0 <= k < |rs|
      ensures rs[k].track == 1 && rs[k].time == 0
    {
      if 0 < k < Keys + 1 {
        assert rs[k] == TuningRecords(lg, Keys)[k - 1];
      }
    }
  }

  /**
   * The listing is the tuning track followed by the playing track: every
   * retuning comes at tick 0, before any note sounds, and the whole listing
   * is in time order from tick 0 to tick 11520.
   */
  lemma ListingTracks(lg: real -> real)
    ensures Listing(lg)[..Keys + 2] == TuningListing(lg)
    ensures Listing(lg)[Keys + 2..] == PlayingListing()
    ensures Orderly(Listing(lg)[..Keys + 2], 1, 0, 0)
    ensures Orderly(Listing(lg)[Keys + 2..], 2, 0, 11520)
    ensures Chronological(Listing(lg)) && Within(Listing(lg), 0, 11520)
  {
    TuningTrackAtStart(lg);
    NoteTrackChronological();
    ChronologicalAppend(TuningListing(lg), PlayingListing(), 0, 0, 11520);
  }

  /**
   * The set-up of the playing track writes into the registered parameters
   * of channel 2, whatever was selected before: 0 cents and 2 semitones
   * into RPN 00 00 (pitch bend sensitivity), then 0 into RPN 00 04 (tuning
   * bank select) and 1 into RPN 00 03 (tuning program select), so that the
   * notes sound with tuning program 1; channel 1 and every other channel
   * get nothing.
   */
  lemma SetupWrites(c: int, current: Rpn)
    ensures Writes(Setup(), c, current)
      == if c == 2
         then [ParameterWrite(Rpn(0, 0), DataEntryLsb, 0), ParameterWrite(Rpn(0, 0), DataEntryMsb, 2),
               ParameterWrite(Rpn(0, 4), DataEntryMsb, 0), ParameterWrite(Rpn(0, 3), DataEntryMsb, 1)]
         else []
  {
    var a := [ProgramChange(1, 1), ProgramChange(2, 1), ControlChange(1, Pan, 0), ControlChange(2, Pan, 127)];
    var bank := [ControlChange(2, RpnLsb, 4), ControlChange(2, DataEntryMsb, 0)];
    var program := [ControlChange(2, RpnLsb, 3), ControlChange(2, DataEntryMsb, 1)];
    var sens := BendSensitivity(2, 2);
    assert Setup() == ((a + sens) + bank) + program;
    ParameterFreeWrites(a, c, current);
    WritesAppend(a, sens, c, current);
    BendSensitivityWrites(2, 2, c, current);
    var r1 := SelectedRpn(a + sens, c, current);
    SelectLsbThenWrite(2, 4, 0, c, r1);
    WritesAppend(a + sens, bank, c, current);
    var r2 := SelectedRpn((a + sens) + bank, c, current);
    SelectLsbThenWrite(2, 3, 1, c, r2);
    WritesAppend((a + sens) + bank, program, c, current);
  }


  /**
   * The tuning loop of main(): for each key the pitch, its floor, the
   * fraction in units of 1/16384 and its two 7-bit bytes, sent as one
   * single note tuning change.
   */
  method TuningTrack(lg: real -> real) returns (out: seq<Record>)
    ensures out == TuningRecords(lg, Keys)
  {
    out := [];
    for i := 0 to Keys
      invariant out == TuningRecords(lg, i)
    {
      var semitones := 48.0 + 12.0 * lg(Tuning[i % 12]);
      semitones := semitones + 12.0 * (i / 12) as real;
      var rounded := semitones.Floor;
      var fractional := semitones - rounded as real;
      var fractionalRounded := Trunc(fractional * 16384.0);
      var msb, lsb := ShiftRight7(fractionalRounded), Low7(fractionalRounded);
      assert KeyTuning(48 + i, rounded, msb, lsb) == TuningOf(lg, i);
      out := out + [Record(1, 0, SystemExclusive(10, [0x7f, 0, 8, 2, 1, 1, 48 + i, rounded, msb, lsb]))];
    }
  }

  /** The playing loop of main(): the tick cursor advances by 480 per key, between its note-on and its note-off. */
  method NoteTrack() returns (out: seq<Record>, time: int)
    ensures out == NoteRecords(Keys)
    ensures time == 480 * Keys
  {
    out := [];
    time := 0;
    for i := 0 to Keys
      invariant out == NoteRecords(i)
      invariant time == 480 * i
    {
      out := out + [Record(2, time, NoteOn(2, 48 + i, 81))];
      time := time + 480;
      out := out + [Record(2, time, NoteOff(2, 48 + i, 81))];
    }
  }

  /** main() of microtonal2.c. */
  method Generate(lg: real -> real) returns (out: seq<Record>)
    ensures out == Listing(lg)
  {
    var tunings := TuningTrack(lg);
    out := [Record(1, 0, StartTrack)] + tunings + [Record(1, 0, EndTrack)];
    out := out + At(2, 0, [StartTrack] + Setup());
    var notes, time := NoteTrack();
    out := out + notes + [Record(2, time, EndTrack)];
  }
}
