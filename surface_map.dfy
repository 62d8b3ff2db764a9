/**
 The control surface's assignment table, written out as data: which status
 byte and which run of data-1 values belong to which group of controls, and
 what the k-th control of each group is. It is an independent statement of
 the device's control-change map, against which the decoder's chain of
 guarded arms is proved: the runs never overlap, the decoder picks the one
 run that holds a message, and it yields nothing outside every run.
 */
module SurfaceMap {
  import opened Remote25SL

  /** The strips of eight identical controls. */
  datatype Strip = RotaryDials | RotarySliders | VerticalSliders | PressurePads | Buttons(row: ButtonRow)

  datatype Group =
    | Strip(strip: Strip)
    | TouchPadAxes
    | PageButtons
    | LeftButtons
    | RightButtons
    | PlaybackButtons

  /** The controls `first`, `first + 1`, ..., `first + count - 1` of `group` answer to `status`. */
  datatype Run = Run(status: Byte, first: nat, count: nat, group: Group)

  const OctIds: seq<Oct> := [Oct.A, Oct.B, Oct.C, Oct.D, Oct.E, Oct.F, Oct.G, Oct.H]
  const AxisIds: seq<Axis> := [X, Y]
  const PageIds: seq<(Side, Page)> := [(Left, Up), (Left, Down), (Right, Up), (Right, Down)]
  const LeftButtonIds: seq<LeftButton> := [LeftButton.A, LeftButton.B, LeftButton.C, LeftButton.D]
  const RightButtonIds: seq<RightButton> := [RightButton.A, RightButton.B, RightButton.C]
  const PlaybackIds: seq<Playback> := [Previous, Next, Stop, Play, Record, Loop]

  /** How many controls a group has. */
  function GroupSize(group: Group): nat
  {
    match group
    case Strip(_) => |OctIds|
    case TouchPadAxes => |AxisIds|
    case PageButtons => |PageIds|
    case LeftButtons => |LeftButtonIds|
    case RightButtons => |RightButtonIds|
    case PlaybackButtons => |PlaybackIds|
  }

  /** The control surface's assignments, in the decoder's order. */
  const Assignments: seq<Run> := [
    Run(CONTROL_CHANGE, 56, 8, Strip(RotaryDials)),
    Run(CONTROL_CHANGE, 8, 8, Strip(RotarySliders)),
    Run(CONTROL_CHANGE, 16, 8, Strip(VerticalSliders)),
    Run(NOTE_ON, 36, 8, Strip(PressurePads)),
    Run(CONTROL_CHANGE, 68, 2, TouchPadAxes),
    Run(CONTROL_CHANGE, 24, 8, Strip(Buttons(TopLeft))),
    Run(CONTROL_CHANGE, 32, 8, Strip(Buttons(BottomLeft))),
    Run(CONTROL_CHANGE, 40, 8, Strip(Buttons(TopRight))),
    Run(CONTROL_CHANGE, 48, 8, Strip(Buttons(BottomRight))),
    Run(CONTROL_CHANGE, 88, 4, PageButtons),
    Run(CONTROL_CHANGE, 80, 4, LeftButtons),
    Run(CONTROL_CHANGE, 85, 3, RightButtons),
    Run(CONTROL_CHANGE, 72, 6, PlaybackButtons)
  ]

  predicate Holds(run: Run, status: Byte, data1: int)
  {
    run.status == status && run.first <= data1 < run.first + run.count
  }

  /** Two runs share a message: same status byte and intersecting data-1 ranges. */
  predicate Overlap(r1: Run, r2: Run)
  {
    r1.status == r2.status && r1.first < r2.first + r2.count && r2.first < r1.first + r1.count
  }

  /** No two different runs of `table` overlap. */
  predicate Disjoint(table: seq<Run>)
  {
    forall r1, r2 | r1 in table && r2 in table && r1 != r2 :: !Overlap(r1, r2)
  }

  /** Every run of `table` has exactly as many data-1 values as its group has controls. */
  predicate SizesMatch(table: seq<Run>)
  {
    forall run | run in table :: run.count == GroupSize(run.group)
  }

  /** The first run of `table` that holds `(status, data1)`. */
  function Lookup(table: seq<Run>, status: Byte, data1: int): (r: Option<Run>)
    ensures r.None? <==> forall run | run in table :: !Holds(run, status, data1)
    ensures r.Some? ==> r.value in table && Holds(r.value, status, data1)
  {
    if table == [] then None
    else if Holds(table[0], status, data1) then Some(table[0])
    else Lookup(table[1..], status, data1)
  }

  /** The `index`-th control of `group`, carrying `value`. */
  function ControlAt(group: Group, index: nat, value: DataByte): Control
    requires index < GroupSize(group)
  {
    match group
    case Strip(RotaryDials) => RotaryDial(OctIds[index], DialMagnitude(value))
    case Strip(RotarySliders) => RotarySlider(OctIds[index], value)
    case Strip(VerticalSliders) => VerticalSlider(OctIds[index], value)
    case Strip(PressurePads) => PressurePad(OctIds[index], value)
    case Strip(Buttons(row)) => Button(row, OctIds[index], ButtonState(value))
    case TouchPadAxes => TouchPad(AxisIds[index], value)
    case PageButtons => Control.Page(PageIds[index].0, PageIds[index].1, ButtonState(value))
    case LeftButtons => Control.LeftButton(LeftButtonIds[index], ButtonState(value))
    case RightButtons => Control.RightButton(RightButtonIds[index], ButtonState(value))
    case PlaybackButtons => Control.Playback(PlaybackIds[index], ButtonState(value))
  }

  /** The control the table assigns to a control-surface message. */
  function TableControl(status: Byte, data1: DataByte, data2: DataByte): Option<Control>
  {
    SizesAgree();
    match Lookup(Assignments, status, data1)
    case None => None
    case Some(run) => Some(ControlAt(run.group, data1 - run.first, data2))
  }

  lemma SizesAgree()
    ensures SizesMatch(Assignments)
  {
  }

  /** The device's runs never overlap, so the order of the decoder's arms does not matter. */
  lemma AssignmentsDisjoint()
    ensures Disjoint(Assignments)
  {
  }

  /** In a table without overlaps the first run that holds a message is the only one. */
  lemma {:induction false} LookupFindsHolder(table: seq<Run>, run: Run, status: Byte, data1: int)
    requires Disjoint(table)
    requires run in table && Holds(run, status, data1)
    ensures Lookup(table, status, data1) == Some(run)
  {
  }

  /** `Oct::from_u8` agrees with the strip order A..H. */
  lemma OctFromU8IsStripOrder(k: nat)
    requires k < 8
    ensures OctFromU8(k) == Some(OctIds[k])
  {
  }

  /** On a message that a run holds, the decoder yields that run's control. */
  lemma SurfaceControlOnRun(run: Run, status: Byte, data1: DataByte, data2: DataByte)
    requires run in Assignments && Holds(run, status, data1)
    ensures SurfaceControl(status, data1, data2) == Some(ControlAt(run.group, data1 - run.first, data2))
  {
    if run.group.Strip? {
      OctFromU8IsStripOrder(data1 - run.first);
    }
  }

  /**
   The control-surface messages the device map leaves unassigned: control
   changes 0-7, 64-67, 70-71, 78-79, 84 and 92 up, note-ons outside the pads'
   36-43, and every other status byte.
   */
  predicate Unassigned(status: Byte, data1: DataByte)
  {
    || (status == CONTROL_CHANGE
        && (data1 <= 7 || 64 <= data1 <= 67 || 70 <= data1 <= 71 || 78 <= data1 <= 79 || data1 == 84 || 92 <= data1))
    || (status == NOTE_ON && !(36 <= data1 <= 43))
    || (status != CONTROL_CHANGE && status != NOTE_ON)
  }

  /** A message no run of the table holds is unassigned. */
  lemma NoRunIsUnassigned(status: Byte, data1: DataByte)
    requires forall run | run in Assignments :: !Holds(run, status, data1)
    ensures Unassigned(status, data1)
  {
    var t := Assignments;
    assert t[0] in t && t[1] in t && t[2] in t && t[3] in t && t[4] in t && t[5] in t && t[6] in t
      && t[7] in t && t[8] in t && t[9] in t && t[10] in t && t[11] in t && t[12] in t;
  }

  /** No run of the table holds an unassigned message. */
  lemma UnassignedHasNoRun(status: Byte, data1: DataByte, run: Run)
    requires Unassigned(status, data1) && run in Assignments
    ensures !Holds(run, status, data1)
  {
    var t := Assignments;
    var i :| 0 <= i < |t| && t[i] == run;
  }

  /** The decoder yields nothing exactly on the unassigned messages. */
  lemma SurfaceControlNoneIff(status: Byte, data1: DataByte, data2: DataByte)
    ensures SurfaceControl(status, data1, data2).None? <==> Unassigned(status, data1)
  {
  }

  /** On a message that no run holds, the decoder yields nothing. */
  lemma SurfaceControlOffRuns(status: Byte, data1: DataByte, data2: DataByte)
    requires forall run | run in Assignments :: !Holds(run, status, data1)
    ensures SurfaceControl(status, data1, data2) == None
  {
    NoRunIsUnassigned(status, data1);
    SurfaceControlNoneIff(status, data1, data2);
  }

  /**
   The decoder's arms and the assignment table agree on every
   control-surface message: both directions, matched and unmatched.
   */
  lemma {:induction false} SurfaceControlFollowsTable(status: Byte, data1: DataByte, data2: DataByte)
    ensures SurfaceControl(status, data1, data2) == TableControl(status, data1, data2)
  {
    AssignmentsDisjoint();
    match Lookup(Assignments, status, data1)
    case None =>
      SurfaceControlOffRuns(status, data1, data2);
    case Some(run) =>
      SurfaceControlOnRun(run, status, data1, data2);
  }
}
