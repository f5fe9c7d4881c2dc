/**
 * The MIDI events the generators write, one record per line of the
 * CSV-MIDI listing (track number, absolute tick, event), without the text.
 */
module Midi {

  datatype Event =
    | StartTrack
    | ProgramChange(channel: int, program: int)
    | ControlChange(channel: int, controller: int, value: int)
    | NoteOn(channel: int, key: int, velocity: int)
    | NoteOff(channel: int, key: int, velocity: int)
    | PitchBend(channel: int, value: int)
    /** `length` is the byte count written before the data bytes. */
    | SystemExclusive(length: int, data: seq<int>)
    | EndTrack

  datatype Record = Record(track: int, time: int, event: Event)

  /** Controller numbers of the Registered Parameter Number protocol. */
  const RpnMsb := 101
  const RpnLsb := 100
  const DataEntryMsb := 6
  const DataEntryLsb := 38
  const Pan := 10

  /**
   * Registered Parameter Number 00 00 (pitch bend sensitivity) set to
   * `semitones` semitones and 0 cents on `channel`, in the order the
   * generators send it: parameter MSB, parameter LSB, data LSB, data MSB.
   */
  function BendSensitivity(channel: int, semitones: int): seq<Event>
  {
    [ ControlChange(channel, RpnMsb, 0), ControlChange(channel, RpnLsb, 0),
      ControlChange(channel, DataEntryLsb, 0), ControlChange(channel, DataEntryMsb, semitones) ]
  }

  /** A registered parameter number, as its parameter MSB (CC 101) and LSB (CC 100). */
  datatype Rpn = Rpn(msb: int, lsb: int)

  /** A data-entry controller (CC 6 or CC 38) and its value, with the parameter selected when it arrives. */
  datatype ParameterWrite = ParameterWrite(parameter: Rpn, controller: int, value: int)

  /** The parameter `channel` has selected once `e` has arrived, having selected `current` before. */
  function Select(e: Event, channel: int, current: Rpn): Rpn
  {
    if e.ControlChange? && e.channel == channel && e.controller == RpnMsb then current.(msb := e.value)
    else if e.ControlChange? && e.channel == channel && e.controller == RpnLsb then current.(lsb := e.value)
    else current
  }

  /** The parameter `channel` has selected after the events `es`. */
  function SelectedRpn(es: seq<Event>, channel: int, current: Rpn): Rpn
  {
    if es == [] then current
    else SelectedRpn(es[1..], channel, Select(es[0], channel, current))
  }

  /** What the events `es` write into the registered parameters of `channel`, in order. */
  function Writes(es: seq<Event>, channel: int, current: Rpn): seq<ParameterWrite>
  {
    if es == [] then []
    else
      var e := es[0];
      var here :=
        if e.ControlChange? && e.channel == channel && e.controller in {DataEntryMsb, DataEntryLsb}
        then [ParameterWrite(current, e.controller, e.value)]
        else [];
      here + Writes(es[1..], channel, Select(e, channel, current))
  }

  /** The parameter writes of a concatenation: those of the first part, then those of the second from where the first left the selection. */
  lemma {:induction false} WritesAppend(a: seq<Event>, b: seq<Event>, channel: int, current: Rpn)
    ensures SelectedRpn(a + b, channel, current) == SelectedRpn(b, channel, SelectedRpn(a, channel, current))
    ensures Writes(a + b, channel, current) == Writes(a, channel, current) + Writes(b, channel, SelectedRpn(a, channel, current))
  {
    if a == [] {
      assert a + b == b;
    } else {
      var next := Select(a[0], channel, current);
      assert (a + b)[0] == a[0];
      assert (a + b)[1..] == a[1..] + b;
      WritesAppend(a[1..], b, channel, next);
    }
  }

  /** No event of `es` selects a parameter or writes one. */
  ghost predicate ParameterFree(es: seq<Event>)
  {
    forall k :: 0 <= k < |es| ==>
      !(es[k].ControlChange? && es[k].controller in {RpnMsb, RpnLsb, DataEntryMsb, DataEntryLsb})
  }

  /** Events that touch no parameter leave every channel's selection alone and write nothing. */
  lemma {:induction false} ParameterFreeWrites(es: seq<Event>, channel: int, current: Rpn)
    requires ParameterFree(es)
    ensures SelectedRpn(es, channel, current) == current
    ensures Writes(es, channel, current) == []
  {
    if es != [] {
      assert ParameterFree(es[1..]) by {
        forall k | 0 <= k < |es[1..]|
          ensures !(es[1..][k].ControlChange? && es[1..][k].controller in {RpnMsb, RpnLsb, DataEntryMsb, DataEntryLsb})
        {
          assert es[1..][k] == es[k + 1];
        }
      }
      ParameterFreeWrites(es[1..], channel, current);
    }
  }

  /**
   * The sensitivity set-up selects RPN 00 00 on its channel, whatever was
   * selected before, and writes 0 cents and then `semitones` semitones into
   * it; on every other channel it selects and writes nothing.
   */
  lemma BendSensitivityWrites(channel: int, semitones: int, c: int, current: Rpn)
    ensures c == channel ==> SelectedRpn(BendSensitivity(channel, semitones), c, current) == Rpn(0, 0)
    ensures c == channel ==>
      Writes(BendSensitivity(channel, semitones), c, current)
      == [ParameterWrite(Rpn(0, 0), DataEntryLsb, 0), ParameterWrite(Rpn(0, 0), DataEntryMsb, semitones)]
    ensures c != channel ==> SelectedRpn(BendSensitivity(channel, semitones), c, current) == current
    ensures c != channel ==> Writes(BendSensitivity(channel, semitones), c, current) == []
  {
    var es := BendSensitivity(channel, semitones);
    var t2, t3 := es[2..], es[3..];
    assert t3[1..] == [] && t2[1..] == t3 && es[1..][1..] == t2;
    var r1 := Select(es[0], c, current);
    var r2 := Select(es[1], c, r1);
    assert Select(t3[0], c, r2) == r2 && Select(t2[0], c, r2) == r2;
    assert SelectedRpn(t3, c, r2) == r2;
    assert SelectedRpn(t2, c, r2) == r2;
    assert Writes(t3, c, r2) == (if c == channel then [ParameterWrite(r2, DataEntryMsb, semitones)] else []);
    assert Writes(t2, c, r2) == (if c == channel then [ParameterWrite(r2, DataEntryLsb, 0)] else []) + Writes(t3, c, r2);
    assert Writes(es[1..], c, r1) == Writes(t2, c, r2);
  }

  /** Selecting a parameter LSB and then writing its coarse value: one write, into the newly selected parameter, on that channel only. */
  lemma SelectLsbThenWrite(channel: int, lsb: int, value: int, c: int, current: Rpn)
    ensures var es := [ControlChange(channel, RpnLsb, lsb), ControlChange(channel, DataEntryMsb, value)];
      && SelectedRpn(es, c, current) == (if c == channel then current.(lsb := lsb) else current)
      && Writes(es, c, current) == (if c == channel then [ParameterWrite(current.(lsb := lsb), DataEntryMsb, value)] else [])
  {
    var es := [ControlChange(channel, RpnLsb, lsb), ControlChange(channel, DataEntryMsb, value)];
    var r1 := Select(es[0], c, current);
    assert es[1..][1..] == [];
    assert Select(es[1], c, r1) == r1;
    assert SelectedRpn(es[1..], c, r1) == r1;
    assert Writes(es[1..], c, r1) == (if c == channel then [ParameterWrite(r1, DataEntryMsb, value)] else []);
  }

  /** Every event of `es` written on `track` at tick `time`. */
  function At(track: int, time: int, es: seq<Event>): seq<Record>
  {
    seq(|es|, k requires 0 <= k < |es| => Record(track, time, es[k]))
  }

  /** The ticks of a listing never go backwards. */
  ghost predicate Chronological(rs: seq<Record>)
  {
    forall i, j :: 0 <= i < j < |rs| ==> rs[i].time <= rs[j].time
  }

  /** Every record of the listing lies between ticks `lo` and `hi`. */
  ghost predicate Within(rs: seq<Record>, lo: int, hi: int)
  {
    forall k :: 0 <= k < |rs| ==> lo <= rs[k].time <= hi
  }

  /** Every record of the listing belongs to `track`. */
  ghost predicate OnTrack(rs: seq<Record>, track: int)
  {
    forall k :: 0 <= k < |rs| ==> rs[k].track == track
  }

  /** Events written at one tick form a chronological listing at that tick. */
  lemma AtChronological(track: int, time: int, es: seq<Event>)
    ensures Chronological(At(track, time, es)) && Within(At(track, time, es), time, time)
    ensures OnTrack(At(track, time, es), track)
  {
  }

  /** A listing of `track` in time order between ticks `lo` and `hi`. */
  ghost predicate Orderly(rs: seq<Record>, track: int, lo: int, hi: int)
  {
    Chronological(rs) && Within(rs, lo, hi) && OnTrack(rs, track)
  }

  /**
   * A track framed by its opening events at tick 0 and its end of track at
   * `end` plus 480: chronological when its body is, between 0 and `end`.
   */
  lemma FramedChronological(track: int, opening: seq<Event>, body: seq<Record>, end: int)
    requires 0 <= end
    requires Chronological(body) && Within(body, 0, end) && OnTrack(body, track)
    ensures Orderly(At(track, 0, opening) + body + [Record(track, end + 480, EndTrack)], track, 0, end + 480)
  {
    var header := At(track, 0, opening);
    var last := [Record(track, end + 480, EndTrack)];
    AtChronological(track, 0, opening);
    ChronologicalAppend(header, body, 0, 0, end);
    ChronologicalAppend(header + body, last, 0, end, end + 480);
    var rs := header + body + last;
    forall k | 0 <= k < |rs|
      ensures rs[k].track == track
    {
      if k < |header| {
        assert rs[k] == header[k];
      } else if k < |header| + |body| {
        assert rs[k] == body[k - |header|];
      }
    }
  }

  /** Two orderly listings of one track, the second starting no earlier than the first ends, make one. */
  lemma OrderlyAppend(a: seq<Record>, b: seq<Record>, track: int, lo: int, mid: int, hi: int)
    requires lo <= mid <= hi
    requires Orderly(a, track, lo, mid) && Orderly(b, track, mid, hi)
    ensures Orderly(a + b, track, lo, hi)
  {
    ChronologicalAppend(a, b, lo, mid, hi);
    forall k | 0 <= k < |a + b|
      ensures (a + b)[k].track == track
    {
      if k >= |a| {
        assert (a + b)[k] == b[k - |a|];
      }
    }
  }

  /** Two chronological listings, the second starting no earlier than the first ends, make one. */
  lemma ChronologicalAppend(a: seq<Record>, b: seq<Record>, lo: int, mid: int, hi: int)
    requires lo <= mid <= hi
    requires Chronological(a) && Within(a, lo, mid)
    requires Chronological(b) && Within(b, mid, hi)
    ensures Chronological(a + b) && Within(a + b, lo, hi)
  {
    forall i, j | 0 <= i < j < |a + b|
      ensures (a + b)[i].time <= (a + b)[j].time
    {
      if j < |a| {
      } else if i >= |a| {
        assert (a + b)[i] == b[i - |a|] && (a + b)[j] == b[j - |a|];
      } else {
        assert (a + b)[i] == a[i] && (a + b)[j] == b[j - |a|];
      }
    }
    forall k | 0 <= k < |a + b|
      ensures lo <= (a + b)[k].time <= hi
    {
      if k >= |a| {
        assert (a + b)[k] == b[k - |a|];
      }
    }
  }
}
