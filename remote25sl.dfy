/**
 Decoding of the MIDI output of the Novation ReMOTE 25SL into typed events.

 The device emits 3-byte channel-voice messages on three input ports. Port A
 carries the keyboard, the pitch bender and the modulation bender; port B
 carries the control surface (dials, sliders, pads, buttons, touch pad);
 port C carries preset notifications, which are not decoded.

 Every entity is an immutable value, and decoding is a pure function of the
 port and the message bytes.
 */
module Remote25SL {

  datatype Option<+T> = None | Some(value: T)

  /** A raw byte of a MIDI message (Rust `u8`). */
  type Byte = b: int | 0 <= b < 256

  /** A MIDI data byte: the top bit is clear. */
  type DataByte = b: int | 0 <= b < 128

  /** A Rust `i8`. */
  type I8 = x: int | -128 <= x < 128

  /** Rust's `b as i8`: the byte's bits read as two's complement. */
  function AsI8(b: Byte): (x: I8)
    ensures 0 <= x ==> x == b
    ensures x < 0 ==> x + 256 == b
  {
    if b < 128 then b else b - 256
  }

  // The names under which the host's MIDI system lists the device's input ports.
  const MIDI_INPUT_PORT_0: string := "ReMOTE SL 24:0"
  const MIDI_INPUT_PORT_1: string := "ReMOTE SL 24:1"
  const MIDI_INPUT_PORT_2: string := "ReMOTE SL 24:2"

  // MIDI 1.0 channel-voice status bytes on channel 1.
  const NOTE_OFF: Byte := 128
  const NOTE_ON: Byte := 144
  const CONTROL_CHANGE: Byte := 176
  const PITCH_BEND: Byte := 224

  /** The input ports on which the device emits messages. */
  datatype InputPort =
    | A  // keyboard notes, pitch and modulation benders
    | B  // every other control
    | C  // preset notifications

  /** Whether a key or button went down (On) or up (Off). */
  datatype State = On | Off

  /** The position of a control within a strip of eight. */
  datatype Oct = A | B | C | D | E | F | G | H

  datatype ButtonRow = TopLeft | BottomLeft | TopRight | BottomRight

  datatype Axis = X | Y

  datatype Side = Left | Right

  datatype Page = Up | Down

  datatype LeftButton = A | B | C | D

  datatype RightButton = A | B | C

  datatype Playback = Previous | Next | Stop | Play | Loop | Record

  /** Control-surface and bender events. `i8` payloads are signed magnitudes, `u8` ones levels. */
  datatype Control =
    | RotaryDial(oct: Oct, magnitude: I8)
    | RotarySlider(oct: Oct, level: Byte)
    | VerticalSlider(oct: Oct, level: Byte)
    | PressurePad(oct: Oct, level: Byte)
    | Button(row: ButtonRow, oct: Oct, state: State)
    | TouchPad(axis: Axis, level: Byte)
    | Pitch(magnitude: I8)
    | Mod(level: Byte)
    | Page(side: Side, page: Page, state: State)
    | LeftButton(leftButton: LeftButton, state: State)
    | RightButton(rightButton: RightButton, state: State)
    | Playback(playback: Playback, state: State)

  /**
   Every event the device can emit. `LetterOctave` is the pitch type of the
   external pitch-naming library: a key event carries the pitch of its note.
   */
  datatype Event<LetterOctave> =
    | Control(control: Control)
    | Key(state: State, letterOctave: LetterOctave, velocity: Byte)

  /** The `#[repr(u8)]` discriminant of an `Oct`. */
  function OctIndex(o: Oct): (k: nat)
    ensures k < 8
  {
    match o
    case A => 0 case B => 1 case C => 2 case D => 3
    case E => 4 case F => 5 case G => 6 case H => 7
  }

  /** `Oct::from_u8`: 0 is A, 1 is B, ..., 7 is H; anything else has no `Oct`. */
  function OctFromU8(n: Byte): (r: Option<Oct>)
    ensures r.Some? <==> n < 8
    ensures r.Some? ==> OctIndex(r.value) == n
  {
    match n
    case 0 => Some(Oct.A)
    case 1 => Some(Oct.B)
    case 2 => Some(Oct.C)
    case 3 => Some(Oct.D)
    case 4 => Some(Oct.E)
    case 5 => Some(Oct.F)
    case 6 => Some(Oct.G)
    case 7 => Some(Oct.H)
    case _ => None
  }

  /** The port name the device's driver reports for each input port. */
  function PortName(port: InputPort): string
  {
    match port
    case A => MIDI_INPUT_PORT_0
    case B => MIDI_INPUT_PORT_1
    case C => MIDI_INPUT_PORT_2
  }

  /** `InputPort::from_name`: exact match against the three port names. */
  function InputPortFromName(name: string): (r: Option<InputPort>)
    ensures r.Some? <==> name == MIDI_INPUT_PORT_0 || name == MIDI_INPUT_PORT_1 || name == MIDI_INPUT_PORT_2
    ensures r.Some? ==> PortName(r.value) == name
  {
    if name == MIDI_INPUT_PORT_0 then Some(InputPort.A)
    else if name == MIDI_INPUT_PORT_1 then Some(InputPort.B)
    else if name == MIDI_INPUT_PORT_2 then Some(InputPort.C)
    else None
  }

  /** `From<Control> for Event`. */
  function EventFromControl<LetterOctave>(control: Control): (e: Event<LetterOctave>)
    ensures e.Control? && e.control == control
  {
    Event.Control(control)
  }

  /** A button's state: a zero value is a release, any other value a press. */
  function ButtonState(value: Byte): (s: State)
    ensures s == Off <==> value == 0
  {
    if value == 0 then Off else On
  }

  /**
   The pitch bender's magnitude, `value as i8 - 64`: 64 is the rest
   position. The subtraction cannot overflow an `i8`.
   */
  function PitchMagnitude(value: DataByte): (m: I8)
    ensures -64 <= m <= 63
    ensures m + 64 == value
  {
    var raw: I8 := AsI8(value);
    var m: I8 := raw - 64;
    m
  }

  /**
   A rotary dial's turn: values up to 64 are turns one way, values above 64
   turns the other way, `64 - value`. Neither the subtraction nor the
   negation can overflow an `i8`.
   */
  function DialMagnitude(value: DataByte): (m: I8)
    ensures -63 <= m <= 64
    ensures m < 0 <==> value > 64
    ensures m == 0 <==> value == 0
  {
    var raw: I8 := AsI8(value);
    if value > 64 then
      var offset: I8 := raw - 64;
      var turn: I8 := -offset;
      turn
    else
      raw
  }

  /**
   Port A: the pitch bender, the modulation bender and the keys. Only
   `(224, 0, _)` is a pitch bend and `(176, 1, _)` a modulation; every other
   message is a note if its status is Note On or Note Off.
   */
  function KeyboardEvent<LetterOctave>(status: Byte, data1: DataByte, data2: DataByte, letterOctaveOf: Byte -> LetterOctave)
    : (r: Option<Event<LetterOctave>>)
    ensures r.Some? ==> status in {NOTE_OFF, NOTE_ON, CONTROL_CHANGE, PITCH_BEND}
    ensures r.Some? && r.value.Key? ==> r.value.velocity == data2 && r.value.letterOctave == letterOctaveOf(data1)
    ensures r.Some? && r.value.Key? ==> (r.value.state == On <==> status == NOTE_ON)
  {
    if status == PITCH_BEND && data1 == 0 then
      Some(EventFromControl(Pitch(PitchMagnitude(data2))))
    else if status == CONTROL_CHANGE && data1 == 1 then
      Some(EventFromControl(Mod(data2)))
    else
      var letterOctave := letterOctaveOf(data1);
      var note :=
        if status == NOTE_ON then Some(On)
        else if status == NOTE_OFF then Some(Off)
        else None;
      match note
      case Some(s) => Some(Key(s, letterOctave, data2))
      case None => None
  }

  /**
   Port B: the control surface. The arms are tried in the order below and
   the data-1 ranges are disjoint; the strips of eight turn `data1 - first`
   into an `Oct`, which always exists.
   */
  function SurfaceControl(status: Byte, data1: DataByte, data2: DataByte): (r: Option<Control>)
    ensures r.Some? ==> status == CONTROL_CHANGE || (status == NOTE_ON && r.value.PressurePad?)
    ensures r.Some? && (r.value.RotarySlider? || r.value.VerticalSlider? || r.value.PressurePad? || r.value.TouchPad?)
      ==> r.value.level == data2
    ensures r.Some? && (r.value.Button? || r.value.Page? || r.value.LeftButton? || r.value.RightButton? || r.value.Playback?)
      ==> (r.value.state == Off <==> data2 == 0)
  {
    if status == CONTROL_CHANGE && 56 <= data1 <= 63 then
      var oct := OctFromU8(data1 - 56).value;
      Some(RotaryDial(oct, DialMagnitude(data2)))
    else if status == CONTROL_CHANGE && 8 <= data1 <= 15 then
      var oct := OctFromU8(data1 - 8).value;
      Some(RotarySlider(oct, data2))
    else if status == CONTROL_CHANGE && 16 <= data1 <= 23 then
      var oct := OctFromU8(data1 - 16).value;
      Some(VerticalSlider(oct, data2))
    else if status == NOTE_ON && 36 <= data1 <= 43 then
      var oct := OctFromU8(data1 - 36).value;
      Some(PressurePad(oct, data2))
    else if status == CONTROL_CHANGE && 68 <= data1 <= 69 then
      var axis := if data1 == 68 then X else Y;
      Some(TouchPad(axis, data2))
    else if status == CONTROL_CHANGE && 24 <= data1 <= 31 then
      var oct := OctFromU8(data1 - 24).value;
      Some(Button(TopLeft, oct, ButtonState(data2)))
    else if status == CONTROL_CHANGE && 32 <= data1 <= 39 then
      var oct := OctFromU8(data1 - 32).value;
      Some(Button(BottomLeft, oct, ButtonState(data2)))
    else if status == CONTROL_CHANGE && 40 <= data1 <= 47 then
      var oct := OctFromU8(data1 - 40).value;
      Some(Button(TopRight, oct, ButtonState(data2)))
    else if status == CONTROL_CHANGE && 48 <= data1 <= 55 then
      var oct := OctFromU8(data1 - 48).value;
      Some(Button(BottomRight, oct, ButtonState(data2)))
    else if status == CONTROL_CHANGE && 88 <= data1 <= 91 then
      var (side, page) :=
        match data1
        case 88 => (Left, Up)
        case 89 => (Left, Down)
        case 90 => (Right, Up)
        case 91 => (Right, Down)
        case _ => assert false; (Left, Up);
      Some(Control.Page(side, page, ButtonState(data2)))
    else if status == CONTROL_CHANGE && 80 <= data1 <= 83 then
      var button :=
        match data1
        case 80 => LeftButton.A
        case 81 => LeftButton.B
        case 82 => LeftButton.C
        case 83 => LeftButton.D
        case _ => assert false; LeftButton.A;
      Some(Control.LeftButton(button, ButtonState(data2)))
    else if status == CONTROL_CHANGE && 85 <= data1 <= 87 then
      var button :=
        match data1
        case 85 => RightButton.A
        case 86 => RightButton.B
        case 87 => RightButton.C
        case _ => assert false; RightButton.A;
      Some(Control.RightButton(button, ButtonState(data2)))
    else if status == CONTROL_CHANGE && 72 <= data1 <= 77 then
      var playback :=
        match data1
        case 72 => Previous
        case 73 => Next
        case 74 => Stop
        case 75 => Play
        case 76 => Record
        case 77 => Loop
        case _ => assert false; Previous;
      Some(Control.Playback(playback, ButtonState(data2)))
    else
      None
  }

  /**
   What the decoder needs of a message: on ports A and B a 3-byte message
   carries MIDI data bytes (top bit clear) after its status byte.
   */
  predicate DataBytesClear(port: InputPort, msg: seq<Byte>)
  {
    port == InputPort.C || |msg| != 3 || (msg[1] < 128 && msg[2] < 128)
  }

  /**
   `Event::from_midi`: the event a message on `port` stands for, if any.
   `letterOctaveOf` is the external note-number-to-pitch conversion.
   */
  function EventFromMidi<LetterOctave>(port: InputPort, msg: seq<Byte>, letterOctaveOf: Byte -> LetterOctave)
    : (r: Option<Event<LetterOctave>>)
    requires DataBytesClear(port, msg)
    ensures r.Some? ==> |msg| == 3 && port != InputPort.C
    ensures r.Some? && port == InputPort.B ==> r.value.Control?
    ensures r.Some? && r.value.Key? ==> port == InputPort.A && r.value.letterOctave == letterOctaveOf(msg[1])
  {
    match port
    case A =>
      if |msg| == 3 then KeyboardEvent(msg[0], msg[1], msg[2], letterOctaveOf) else None
    case B =>
      if |msg| == 3 then
        match SurfaceControl(msg[0], msg[1], msg[2])
        case Some(control) => Some(EventFromControl(control))
        case None => None
      else
        None
    case C =>
      None
  }
}
