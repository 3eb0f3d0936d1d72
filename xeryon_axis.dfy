/** What the Xeryon motor wrapper needs of its surroundings: the vendor
    controller (writes are recorded in a ghost trace, readings are fields the
    hardware fills in), the serial-port lookup, the axis-letter table, and
    the decision tables that turn a poll of the axis into LED signals. */
module XeryonAxis {
  import opened Common
  import LedWidget

  /** The stages the wrapper knows; the two XLS stages are linear, the XRTU
      stage is rotary. */
  datatype Stage = XLS_1250 | XLS_1250_3N | XRTU_30_109

  predicate IsLinear(s: Stage)
  {
    s != XRTU_30_109
  }

  /** The vendor library's position units. */
  datatype Units = Mm | Mu | Nm | Inch | Minch | Enc | Mrad | Rad | Deg

  /** A serial port as the operating system lists it; a port whose USB
      device reports no serial number has `None`. */
  datatype Device = Device(serialNumber: Option<string>, port: string)

  /** `get_serial_port` as written: the first listed port whose serial number
      equals the one asked for, with `None` compared like any other value. */
  function FindPortAsWritten(devices: seq<Device>, sn: Option<string>): (r: Option<string>)
    ensures r.Some? <==> exists i :: 0 <= i < |devices| && devices[i].serialNumber == sn
    ensures r.Some? ==> exists i :: 0 <= i < |devices| && devices[i] == Device(sn, r.value)
                          && forall j :: 0 <= j < i ==> devices[j].serialNumber != sn
  {
    if devices == [] then None
    else if devices[0].serialNumber == sn then Some(devices[0].port)
    else
      var r := FindPortAsWritten(devices[1..], sn);
      assert forall i :: 1 <= i < |devices| ==> devices[i] == devices[1..][i - 1];
      r
  }

  /** The lookup as intended: a port is found only for a known serial number,
      and it is the first port listing that number. */
  function FindPort(devices: seq<Device>, sn: Option<string>): (r: Option<string>)
    ensures sn.None? ==> r.None?
    ensures sn.Some? ==> r == FindPortAsWritten(devices, sn)
  {
    if sn.None? then None else FindPortAsWritten(devices, sn)
  }

  /** An axis letter with no table entry still finds the first port that has
      no serial number when the lookup is used as written. */
  lemma UnknownLetterFindsAPort()
    ensures FindPortAsWritten([Device(None, "/dev/ttyS0")], None) == Some("/dev/ttyS0")
    ensures FindPort([Device(None, "/dev/ttyS0")], None) == None
  {
  }

  datatype AxisEntry = AxisEntry(serialNumber: string, stage: Stage)

  /** The wrapper's table of known axes: serial number of the controller and
      the stage mounted on it. */
  function AxisTable(letter: string): (r: Option<AxisEntry>)
    ensures r.Some? <==> letter in {"X", "Y", "Z", "Z3", "R"}
    ensures r.Some? ==> (IsLinear(r.value.stage) <==> letter != "R")
    ensures r.Some? ==> |r.value.serialNumber| == 20
  {
    if letter == "X" then Some(AxisEntry("7583835373835180D020", XLS_1250))
    else if letter == "Y" then Some(AxisEntry("75838353738351213130", XLS_1250))
    else if letter == "Z" then Some(AxisEntry("75838353738351319090", XLS_1250))
    else if letter == "Z3" then Some(AxisEntry("9593332343335101A020", XLS_1250_3N))
    else if letter == "R" then Some(AxisEntry("95933323433351212070", XRTU_30_109))
    else None
  }

  /** No two axes share a controller. */
  lemma AxisTableIsInjective(a: string, b: string)
    requires AxisTable(a).Some? && AxisTable(b).Some?
    requires AxisTable(a).value.serialNumber == AxisTable(b).value.serialNumber
    ensures a == b
  {
  }

  /** The limit settings of the axis, already converted to millimetres;
      absent when the settings file does not have them. */
  datatype AxisSettings = AxisSettings(llim: Option<real>, hlim: Option<real>)

  /** What the axis reports when polled; `epos` is already in the motor's units. */
  datatype AxisReading = AxisReading(
    epos: real,
    encoderError: bool,
    encoderValid: bool,
    searchingIndex: bool,
    positionReached: bool,
    atLeftEnd: bool,
    atRightEnd: bool)

  datatype AxisCall =
    | Start
    | Stop
    | SetUnits(units: Units)
    | SetSpeed(speed: real)
    | SetDpos(position: real)
    | SearchIndex

  /** The vendor controller together with the one axis added to it. */
  class Controller {
    const port: string
    const baudrate: int
    const stage: Stage
    const letter: string
    const settings: AxisSettings
    var units: Units
    var reading: AxisReading
    ghost var calls: seq<AxisCall>

    /** `Xeryon(port, baudrate)` followed by `addAxis(stage, letter)`. */
    constructor(port: string, baudrate: int, stage: Stage, letter: string, settings: AxisSettings)
      ensures this.port == port && this.baudrate == baudrate && this.stage == stage
      ensures this.letter == letter && this.settings == settings
      ensures units == Mm && calls == []
    {
      this.port := port;
      this.baudrate := baudrate;
      this.stage := stage;
      this.letter := letter;
      this.settings := settings;
      units := Mm;
      reading := AxisReading(0.0, false, false, false, false, false, false);
      calls := [];
    }

    method Record(c: AxisCall)
      modifies this
      ensures calls == old(calls) + [c] && units == old(units) && reading == old(reading)
    {
      calls := calls + [c];
    }

    method SetUnitsTo(u: Units)
      modifies this
      ensures calls == old(calls) + [SetUnits(u)] && units == u && reading == old(reading)
    {
      units := u;
      calls := calls + [SetUnits(u)];
    }
  }

  datatype Channel = ConnectedLed | FindIndexLed | MovingLed | LowLimitLed | HighLimitLed

  /** The colours the motor puts on its LED signals. */
  datatype LedColor = Green | Red | Orange | Gray

  /** The colour name carried by the signal and looked up by the LED widget. */
  function ColorName(c: LedColor): (name: string)
  {
    match c
    case Green => "green"
    case Red => "red"
    case Orange => "orange"
    case Gray => "gray"
  }

  /** Every colour the motor emits is one the LED widget's table knows, and
      different colours have different names, so the widget shows them apart. */
  lemma ColorNamesAreKnown(c: LedColor, d: LedColor)
    ensures LedWidget.IsKnownColor(ColorName(c))
    ensures ColorName(c) == ColorName(d) ==> c == d
    ensures LedWidget.PaletteOf(ColorName(c)).Some?
  {
  }

  /** One emission of an LED signal: on/off, colour and tooltip. */
  datatype LedEvent = LedEvent(channel: Channel, on: bool, color: LedColor, toolTip: string)

  /** The five emissions of a poll while disconnected. */
  function DisconnectedBurst(): (r: seq<LedEvent>)
    ensures |r| == 5
    ensures forall i :: 0 <= i < 5 ==> !r[i].on && r[i].toolTip == "Disconnected"
    ensures r[0].channel == ConnectedLed && r[1].channel == FindIndexLed && r[2].channel == MovingLed
            && r[3].channel == LowLimitLed && r[4].channel == HighLimitLed
  {
    [LedEvent(ConnectedLed, false, Green, "Disconnected"),
     LedEvent(FindIndexLed, false, Green, "Disconnected"),
     LedEvent(MovingLed, false, Green, "Disconnected"),
     LedEvent(LowLimitLed, false, Red, "Disconnected"),
     LedEvent(HighLimitLed, false, Red, "Disconnected")]
  }

  /** The limit LEDs of a rotary stage, greyed out once at connection. */
  function UnlimitedRotationLeds(): (r: seq<LedEvent>)
    ensures |r| == 2
    ensures r[0].channel == LowLimitLed && r[1].channel == HighLimitLed
    ensures !r[0].on && !r[1].on && r[0].color == Gray && r[1].color == Gray
  {
    [LedEvent(LowLimitLed, false, Gray, "Unlimited rotation"),
     LedEvent(HighLimitLed, false, Gray, "Unlimited rotation")]
  }

  /** The connection LED lit green when the connection is made. */
  function ConnectedEvent(): (e: LedEvent)
    ensures e.channel == ConnectedLed && e.on && e.color == Green
  {
    LedEvent(ConnectedLed, true, Green, "Connected")
  }

  /** The connection LED after the encoder-error flag changed: lit, red on an
      error and green otherwise. */
  function EncoderLed(error: bool): (e: LedEvent)
    ensures e.channel == ConnectedLed && e.on
    ensures e.color == Red <==> error
  {
    if error then LedEvent(ConnectedLed, true, Red, "Encoder error")
    else LedEvent(ConnectedLed, true, Green, "Connected")
  }

  /** The index LED: lit while the encoder is valid or an index search runs,
      green exactly when the index is known. */
  function IndexLed(valid: bool, searching: bool): (e: LedEvent)
    ensures e.channel == FindIndexLed
    ensures e.on <==> valid || searching
    ensures e.color == Orange <==> !valid && searching
  {
    if valid then LedEvent(FindIndexLed, true, Green, "Encoder valid")
    else if searching then LedEvent(FindIndexLed, true, Orange, "Searching index")
    else LedEvent(FindIndexLed, false, Green, "Index not found")
  }

  /** The motion LED: orange while moving, green once the position is
      reached; lit unless the position is reached but not known. */
  function MotionLed(valid: bool, reached: bool): (e: LedEvent)
    ensures e.channel == MovingLed
    ensures e.color == (if reached then Green else Orange)
    ensures !e.on <==> reached && !valid
    ensures e.toolTip == "Ready" <==> reached && valid
  {
    if valid then
      if reached then LedEvent(MovingLed, true, Green, "Ready")
      else LedEvent(MovingLed, true, Orange, "Moving")
    else
      if reached then LedEvent(MovingLed, false, Green, "Unknown position")
      else LedEvent(MovingLed, true, Orange, "Moving")
  }

  /** The low-limit LED: red and lit at the left end switch, orange and lit
      when the desired position presses against the limit, dark otherwise. */
  function LowLimitLedFor(atLeftEnd: bool, dpos: real, low: int): (e: LedEvent)
    ensures e.channel == LowLimitLed
    ensures e.on <==> atLeftEnd || dpos <= low as real
    ensures e.color == Orange <==> !atLeftEnd && dpos <= low as real
  {
    if atLeftEnd then LedEvent(LowLimitLed, true, Red, "Low limit reached!")
    else if dpos <= low as real then LedEvent(LowLimitLed, true, Orange, "Trying to set lower limit!")
    else LedEvent(LowLimitLed, false, Red, "Low limit OK")
  }

  /** The high-limit LED, symmetric to the low one. */
  function HighLimitLedFor(atRightEnd: bool, dpos: real, high: int): (e: LedEvent)
    ensures e.channel == HighLimitLed
    ensures e.on <==> atRightEnd || dpos >= high as real
    ensures e.color == Orange <==> !atRightEnd && dpos >= high as real
  {
    if atRightEnd then LedEvent(HighLimitLed, true, Red, "High limit reached!")
    else if dpos >= high as real then LedEvent(HighLimitLed, true, Orange, "Trying to set higher limit!")
    else LedEvent(HighLimitLed, false, Red, "High limit OK")
  }

  /** The LED emissions of one poll of a connected axis: the connection LED
      only when the encoder-error flag differs from the one last seen, then
      the index and motion LEDs every time, then the two limit LEDs on a
      linear stage only. */
  function PollLeds(r: AxisReading, errorPrev: Option<bool>, linear: bool,
                    dpos: real, low: int, high: int): (ev: seq<LedEvent>)
    ensures |ev| == (if errorPrev != Some(r.encoderError) then 1 else 0) + 2 + (if linear then 2 else 0)
    ensures errorPrev != Some(r.encoderError) ==> ev[0] == EncoderLed(r.encoderError)
    ensures IndexLed(r.encoderValid, r.searchingIndex) in ev && MotionLed(r.encoderValid, r.positionReached) in ev
    ensures !linear ==> forall e :: e in ev ==> e.channel != LowLimitLed && e.channel != HighLimitLed
  {
    (if errorPrev != Some(r.encoderError) then [EncoderLed(r.encoderError)] else [])
    + [IndexLed(r.encoderValid, r.searchingIndex), MotionLed(r.encoderValid, r.positionReached)]
    + (if linear then [LowLimitLedFor(r.atLeftEnd, dpos, low), HighLimitLedFor(r.atRightEnd, dpos, high)]
       else [])
  }

  function Channels(events: seq<LedEvent>): (r: seq<Channel>)
    ensures |r| == |events| && forall i :: 0 <= i < |r| ==> r[i] == events[i].channel
  {
    seq(|events|, i requires 0 <= i < |events| => events[i].channel)
  }

  /** A poll emits on each channel at most once and in a fixed order: the
      connection LED exactly when the encoder-error flag changed, the index
      and motion LEDs always, the limit LEDs exactly on a linear stage. */
  lemma PollLedsShape(r: AxisReading, errorPrev: Option<bool>, linear: bool,
                      dpos: real, low: int, high: int)
    ensures var ev := PollLeds(r, errorPrev, linear, dpos, low, high);
            Channels(ev) == (if errorPrev != Some(r.encoderError) then [ConnectedLed] else [])
                               + [FindIndexLed, MovingLed]
                               + (if linear then [LowLimitLed, HighLimitLed] else [])
  {
  }
}
