# Novation ReMOTE 25SL MIDI decoder, in Dafny

A model of the decoder in `src/lib.rs` of the `novation_remote_25sl` crate,
which turns the raw MIDI messages of a Novation ReMOTE 25SL into typed
events. The device emits 3-byte channel-1 channel-voice messages (status
bytes Note Off 128, Note On 144, Control Change 176, Pitch Bend 224, as the
MIDI 1.0 Detailed Specification defines them) on three input ports:

- port A: the keyboard (`Key` events), the pitch bender and the modulation bender;
- port B: the control surface: eight rotary dials, rotary sliders, vertical
  sliders and pressure pads, four rows of eight buttons, the touch pad, the
  page buttons, the left and right side buttons and the playback buttons.
  Each group answers to its own run of data-1 values;
- port C: preset notifications, which are never decoded.

Decoding is a pure function, so the model is datatypes and functions:

- `remote25sl.dfy`, module `Remote25SL`: the enums of the crate as
  datatypes, the port-name constants, `Oct::from_u8`, `InputPort::from_name`,
  `From<Control> for Event`, and `Event::from_midi` (`EventFromMidi`, with
  its port-A arm `KeyboardEvent` and port-B arm `SurfaceControl`). The
  arms are written in the crate's order, with its guards and constants.
  Rust's `as i8` is written out (`AsI8`), and the signed arithmetic is done in
  an `I8` subset type, so the verifier checks that no subtraction or negation
  overflows. Every `.unwrap()` of `Oct::from_u8` is the `.value` of an
  `Option`, which the verifier checks is a `Some`. Every `unreachable!()` arm
  is an `assert false` that the verifier discharges.
- `surface_map.dfy`, module `SurfaceMap`: the control surface's assignment
  map as a table of runs `(status, first data-1 value, count, group)`. The
  table comes with a first-match lookup. It is proved that no two runs
  overlap, and that the decoder's chain of arms yields exactly the table's
  control on every message. The messages the table leaves unassigned are
  listed explicitly, and the decoder yields nothing on exactly those.
- `decoder_properties.dfy`, module `DecoderProperties`: the decoder's
  promises over all inputs. Port C and wrong-length messages are ignored.
  Each port-A message is covered case by case. Port B is tied to the
  table. The strips of eight are numbered from their first data-1 value. The
  dial and pitch-bend mappings are one-to-one onto their ranges. `Oct` and
  port names round-trip.

The pitch of a key, `pitch_calc::Step(step as f32).to_letter_octave()`, comes
from a foreign crate. It is a parameter `letterOctaveOf: Byte -> LetterOctave`
of the decoder, and `Event` is generic in the pitch type `LetterOctave`.

Where the doc comments and the code disagree, the model follows the code:

- `RotaryDial`'s comment (src/lib.rs:96) gives its range as -64 to 64
  exclusive. The code maps data byte 64 to 64, so the range is [-63, 64].
- `Pitch`'s comment (src/lib.rs:124) gives the same range. The code maps
  data byte 0 to -64, so the range is [-64, 63].
- An out-of-range octet would make `.unwrap()` panic rather than yield
  nothing. The model proves that this never happens.

## Model

| member | source | states |
|---|---|---|
| Remote25SL.AsI8 | src/lib.rs:192 | `as i8` keeps bytes below 128 and takes 256 off the others |
| Remote25SL.OctIndex | src/lib.rs:40-42 | the `repr(u8)` discriminant of an `Oct` is below 8 |
| Remote25SL.OctFromU8 | src/lib.rs:149-161 | an `Oct` exists exactly for 0..7, and it is the one whose discriminant is the input |
| Remote25SL.InputPortFromName | src/lib.rs:169-176 | a port is found exactly for the three port names, and it is the port bearing that name |
| Remote25SL.EventFromControl | src/lib.rs:349-353 | the event is the control event carrying the given control |
| Remote25SL.ButtonState | src/lib.rs:255 | a button state is Off exactly when the value is 0 |
| Remote25SL.PitchMagnitude | src/lib.rs:192 | the pitch bend lies in [-64, 63], 64 below the data byte, with no `i8` overflow |
| Remote25SL.DialMagnitude | src/lib.rs:219 | the dial turn lies in [-63, 64] with no `i8` overflow; it is negative exactly above 64 and zero exactly at 0 |
| Remote25SL.KeyboardEvent | src/lib.rs:191-206 | port A yields only for the four status bytes; a key event carries the note's pitch and the velocity, and is On exactly for Note On |
| Remote25SL.SurfaceControl | src/lib.rs:214-334 | port B yields only for Control Change, or Note On for a pad; sliders, pads and the touch pad carry the value; buttons are Off exactly for value 0 |
| Remote25SL.EventFromMidi | src/lib.rs:184-344 | nothing is decoded on port C or from a message that is not 3 bytes; port B yields only control events; key events come only from port A and carry the pitch of data byte 1 |
| SurfaceMap.Lookup | src/lib.rs:214-333 | the first-match lookup finds nothing exactly when no run holds the message, and otherwise a run of the table that holds it |
| SurfaceMap.AssignmentsDisjoint | src/lib.rs:217-331 | no two runs of the control surface's map overlap |
| SurfaceMap.LookupFindsHolder | src/lib.rs:214-333 | in a table without overlaps, the first run that holds a message is any run that holds it |
| SurfaceMap.OctFromU8IsStripOrder | src/lib.rs:149-161 | `Oct::from_u8` of k is the k-th `Oct` of a strip, for every k below 8 |
| SurfaceMap.NoRunIsUnassigned | src/lib.rs:333 | a message no run holds is in the listed unassigned set |
| SurfaceMap.UnassignedHasNoRun | src/lib.rs:333 | no run holds a message of the listed unassigned set |
| SurfaceMap.SurfaceControlNoneIff | src/lib.rs:217-333 | port B yields nothing exactly for Control Change 0-7, 64-67, 70-71, 78-79, 84 and 92 up, Note On outside 36-43, and other status bytes |
| SurfaceMap.SurfaceControlOnRun | src/lib.rs:217-331 | on a message a run holds, port B yields that run's control at index data1 minus the run's first value |
| SurfaceMap.SurfaceControlOffRuns | src/lib.rs:333 | on a message no run holds, port B yields nothing |
| SurfaceMap.SurfaceControlFollowsTable | src/lib.rs:214-334 | port B's chain of arms equals the table lookup on every message |
| DecoderProperties.Ignored | src/lib.rs:185-342 | port C messages and messages whose length is not 3 decode to nothing |
| DecoderProperties.KeyboardMessages | src/lib.rs:191-206 | (224, 0, v) is Pitch(v - 64); (176, 1, v) is Mod(v); (144, n, vel) is a key On and (128, n, vel) a key Off with n's pitch; nothing else decodes |
| DecoderProperties.SurfaceMessages | src/lib.rs:213-337 | a 3-byte port-B message decodes to the table's control, and to nothing exactly when unassigned |
| DecoderProperties.StripsOfEight | src/lib.rs:217-278 | data1 = first + k for k in 0..7 gives the k-th dial, slider, pad or button of the strip, both ends included; sliders and pads pass the value through |
| DecoderProperties.ButtonGroups | src/lib.rs:242-331 | 68/69 are X/Y; 88-91 Left/Up, Left/Down, Right/Up, Right/Down; 80-83 left buttons A-D; 85-87 right buttons A-C; 72-77 Previous, Next, Stop, Play, Record, Loop |
| DecoderProperties.DialValue | src/lib.rs:219 | the byte a dial sends for a turn is above 64 exactly for a negative turn |
| DecoderProperties.DialRoundTrip | src/lib.rs:219 | distinct dial bytes give distinct turns |
| DecoderProperties.DialOnto | src/lib.rs:219 | every turn in [-63, 64] comes from some dial byte |
| DecoderProperties.DialBoundaries | src/lib.rs:219 | dial bytes 0, 64, 65 and 127 give 0, 64, -1 and -63 (64 lies outside the range the doc comment gives) |
| DecoderProperties.PitchOnto | src/lib.rs:192 | every pitch bend in [-64, 63] comes from some data byte, so -64 is reached although the doc comment excludes it |
| DecoderProperties.OctRoundTrip | src/lib.rs:149-161 | `Oct::from_u8` of an `Oct`'s discriminant gives back that `Oct` |
| DecoderProperties.PortNameRoundTrip | src/lib.rs:169-176 | each port is found from its own name |
| DecoderProperties.PortNamesDistinct | src/lib.rs:8-10 | the three port names differ |

## Left out

- Remote25SL.EventFromMidi: requires the two data bytes of a 3-byte message on ports A and B to be below 128, as MIDI data bytes are. For larger bytes the crate's `as i8` casts wrap, and `-(value as i8 - 64)` overflows, which panics in a debug build. Behaviour there is not modelled. Port C and other lengths are unrestricted.
- `pitch_calc::Step(step as f32).to_letter_octave()` goes through `f32` in a foreign crate. It is the parameter `letterOctaveOf` and is not modelled.
- examples/test.rs is not part of this model. It holds the `midir` port enumeration and connection, the callback, the `mpsc` channel and the printing loop: I/O and thread glue over a library that is not shown.
- The derived traits (`Debug`, `Hash`, `PartialOrd`, `Ord`) and the `pub extern crate` / `pub use` re-exports are not modelled.
- Purity is not stated separately: a Dafny function always gives the same result for the same arguments.
