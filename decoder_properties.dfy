/**
 What the decoder promises its callers, stated over all inputs: which
 messages are ignored, what each keyboard message becomes, that the signed
 value mappings are one-to-one onto their ranges, that every strip of eight
 is numbered from its first data-1 value, and that port names resolve
 exactly.
 */
module DecoderProperties {
  import opened Remote25SL
  import opened SurfaceMap

  /** Port C messages and messages that are not 3 bytes long are never decoded. */
  lemma Ignored<LetterOctave>(port: InputPort, msg: seq<Byte>, letterOctaveOf: Byte -> LetterOctave)
    requires port == InputPort.C || |msg| != 3
    ensures EventFromMidi(port, msg, letterOctaveOf) == None
  {
  }

  /**
   Port A, case by case: the pitch bend and the modulation are recognised
   only with data byte 1 equal to 0 and 1 respectively; every other
   message is a key event exactly when its status is Note On or Note Off.
   */
  lemma {:induction false} KeyboardMessages<LetterOctave>(status: Byte, data1: DataByte, data2: DataByte, letterOctaveOf: Byte -> LetterOctave)
    ensures var r := EventFromMidi(InputPort.A, [status, data1, data2], letterOctaveOf);
      && (status == PITCH_BEND && data1 == 0 ==> r == Some(Event.Control(Pitch(data2 - 64))))
      && (status == CONTROL_CHANGE && data1 == 1 ==> r == Some(Event.Control(Mod(data2))))
      && (status == NOTE_ON ==> r == Some(Key(On, letterOctaveOf(data1), data2)))
      && (status == NOTE_OFF ==> r == Some(Key(Off, letterOctaveOf(data1), data2)))
      && (r == None <==>
            && !(status == PITCH_BEND && data1 == 0)
            && !(status == CONTROL_CHANGE && data1 == 1)
            && status != NOTE_ON && status != NOTE_OFF)
  {
    var msg := [status, data1, data2];
    assert msg[0] == status && msg[1] == data1 && msg[2] == data2;
  }

  /** Port B decodes exactly what the assignment table assigns, and only control events. */
  lemma {:induction false} SurfaceMessages<LetterOctave>(status: Byte, data1: DataByte, data2: DataByte, letterOctaveOf: Byte -> LetterOctave)
    ensures var r := EventFromMidi(InputPort.B, [status, data1, data2], letterOctaveOf);
      var t := TableControl(status, data1, data2);
      && (r == None <==> Unassigned(status, data1))
      && (t.Some? ==> r == Some(Event.Control(t.value)))
      && (t.None? ==> r == None)
  {
    var msg := [status, data1, data2];
    assert msg[0] == status && msg[1] == data1 && msg[2] == data2;
    SurfaceControlFollowsTable(status, data1, data2);
    SurfaceControlNoneIff(status, data1, data2);
  }

  /**
   Every strip of eight is numbered from its first data-1 value: the k-th
   control of each strip has `Oct` discriminant k, inclusive at both ends.
   Sliders and pads pass their value through.
   */
  lemma {:induction false} StripsOfEight(k: nat, v: DataByte)
    requires k < 8
    ensures SurfaceControl(CONTROL_CHANGE, 56 + k, v) == Some(RotaryDial(OctIds[k], DialMagnitude(v)))
    ensures SurfaceControl(CONTROL_CHANGE, 8 + k, v) == Some(RotarySlider(OctIds[k], v))
    ensures SurfaceControl(CONTROL_CHANGE, 16 + k, v) == Some(VerticalSlider(OctIds[k], v))
    ensures SurfaceControl(NOTE_ON, 36 + k, v) == Some(PressurePad(OctIds[k], v))
    ensures SurfaceControl(CONTROL_CHANGE, 24 + k, v) == Some(Button(TopLeft, OctIds[k], ButtonState(v)))
    ensures SurfaceControl(CONTROL_CHANGE, 32 + k, v) == Some(Button(BottomLeft, OctIds[k], ButtonState(v)))
    ensures SurfaceControl(CONTROL_CHANGE, 40 + k, v) == Some(Button(TopRight, OctIds[k], ButtonState(v)))
    ensures SurfaceControl(CONTROL_CHANGE, 48 + k, v) == Some(Button(BottomRight, OctIds[k], ButtonState(v)))
    ensures OctIndex(OctIds[k]) == k
  {
    OctFromU8IsStripOrder(k);
  }

  /**
   The touch pad axes and the fixed button groups are numbered from their
   first data-1 value in the device's order; a zero value is a release and
   any other value a press.
   */
  lemma {:induction false} ButtonGroups(k: nat, v: DataByte)
    ensures k < 2 ==> SurfaceControl(CONTROL_CHANGE, 68 + k, v) == Some(TouchPad(AxisIds[k], v))
    ensures k < 4 ==> SurfaceControl(CONTROL_CHANGE, 88 + k, v) == Some(Control.Page(PageIds[k].0, PageIds[k].1, ButtonState(v)))
    ensures k < 4 ==> SurfaceControl(CONTROL_CHANGE, 80 + k, v) == Some(Control.LeftButton(LeftButtonIds[k], ButtonState(v)))
    ensures k < 3 ==> SurfaceControl(CONTROL_CHANGE, 85 + k, v) == Some(Control.RightButton(RightButtonIds[k], ButtonState(v)))
    ensures k < 6 ==> SurfaceControl(CONTROL_CHANGE, 72 + k, v) == Some(Control.Playback(PlaybackIds[k], ButtonState(v)))
  {
  }

  /** The raw byte a dial sends for a given turn: the inverse of `DialMagnitude`. */
  function DialValue(m: int): (v: DataByte)
    requires -63 <= m <= 64
    ensures m < 0 <==> v > 64
  {
    if m < 0 then 64 - m else m
  }

  /**
   The dial mapping is one-to-one from the data bytes onto [-63, 64]: 0 to 64
   stand for themselves and 65 to 127 for -1 to -63. (The doc comment on
   `RotaryDial` says the range is -64 to 64 exclusive; the code also yields 64.)
   */
  lemma DialRoundTrip(v: DataByte)
    ensures DialValue(DialMagnitude(v)) == v
  {
  }

  lemma DialOnto(m: int)
    requires -63 <= m <= 64
    ensures DialMagnitude(DialValue(m)) == m
  {
  }

  lemma DialBoundaries()
    ensures DialMagnitude(0) == 0 && DialMagnitude(64) == 64
    ensures DialMagnitude(65) == -1 && DialMagnitude(127) == -63
  {
  }

  /**
   The pitch bender mapping is one-to-one from the data bytes onto
   [-64, 63], 64 being the rest position. (The doc comment on `Pitch` says
   -64 to 64 exclusive; the code also yields -64, for data byte 0.)
   */
  lemma PitchOnto(m: int)
    requires -64 <= m <= 63
    ensures PitchMagnitude(m + 64) == m
  {
  }

  /** `Oct::from_u8` inverts the `Oct` discriminant. */
  lemma OctRoundTrip(o: Oct)
    ensures OctFromU8(OctIndex(o)) == Some(o)
  {
  }

  /** Each port is found from its own name, and the three names differ. */
  lemma PortNameRoundTrip(port: InputPort)
    ensures InputPortFromName(PortName(port)) == Some(port)
  {
  }

  lemma PortNamesDistinct(p1: InputPort, p2: InputPort)
    requires p1 != p2
    ensures PortName(p1) != PortName(p2)
  {
  }
}
