/** The per-axis wrapper `Motor` around a Xeryon controller: connection,
    position limits, the desired-position re-entry, polling of the axis into
    LED signals, index search, stepping and disconnection. Qt signals are
    ordinary calls: after a `DynVar` is set, the slot connected to it is
    called. The update timer is the flag `timerActive`. */
module XeryonMotor {
  import opened Common
  import opened DesiredPosition
  import opened XeryonAxis
  import Ablolib

  /** Interval of the update timer, in milliseconds. */
  const UpdateIntervalMs: int := 500

  const DefaultBaudrate: int := 9600

  /** Speed used while searching for the index, and the position the axis is
      sent to before the search starts. */
  const IndexSearchSpeed: real := 500.0
  const IndexSearchStart: real := -300.0

  /** The limits a linear stage would get from its settings, before the
      ordering check: each setting truncated to whole millimetres, or -5 and
      +5 for a missing one. A rotary stage always gets [0, 360]. */
  function CandidateLimits(linear: bool, s: AxisSettings): (int, int)
  {
    if linear then
      (if s.llim.Some? then Trunc(s.llim.value) else -5,
       if s.hlim.Some? then Trunc(s.hlim.value) else 5)
    else (0, 360)
  }

  /** The limits `connect` installs: the candidates when they are ordered,
      and [-1, 1] otherwise, so the low limit is always below the high one. */
  function LimitsFor(linear: bool, s: AxisSettings): (r: (int, int))
    ensures r.0 < r.1
    ensures !linear ==> r == (0, 360)
    ensures linear && s.llim.None? && s.hlim.None? ==> r == (-5, 5)
    ensures CandidateLimits(linear, s).0 < CandidateLimits(linear, s).1 ==> r == CandidateLimits(linear, s)
    ensures CandidateLimits(linear, s).0 >= CandidateLimits(linear, s).1 ==> r == (-1, 1)
  {
    var c := CandidateLimits(linear, s);
    if c.0 >= c.1 then (-1, 1) else c
  }

  /** A linear limit taken from a setting lies within one millimetre of it,
      on the side of zero. */
  lemma SettingLimitNearSetting(s: AxisSettings)
    requires s.llim.Some? && s.hlim.Some?
    requires CandidateLimits(true, s).0 < CandidateLimits(true, s).1
    ensures var r := LimitsFor(true, s);
            Abs(r.0 as real) <= Abs(s.llim.value) < Abs(r.0 as real) + 1.0
            && Abs(r.1 as real) <= Abs(s.hlim.value) < Abs(r.1 as real) + 1.0
  {
  }

  /** The position a poll reports, in integer thousandths of a unit. */
  function Thousandths(position: real): (k: int)
    ensures Abs(k as real / 1000.0 - position) <= 0.0005
  {
    Round(position * 1000.0)
  }

  /** Rounding a value already in thousandths a second time keeps it. */
  lemma ThousandthsRoundTrip(k: int)
    ensures Round((k as real / 1000.0) * 1000.0) == k
  {
    assert (k as real / 1000.0) * 1000.0 == k as real;
    RoundOfInteger(k);
  }

  /** The serial number the axis letter asks the port lookup for. */
  function SerialNumberFor(letter: string): (r: Option<string>)
  {
    if AxisTable(letter).Some? then Some(AxisTable(letter).value.serialNumber) else None
  }

  /** The calls one run of the index-search body makes on the axis. */
  function IndexSearchCalls(k: AxisKind, previousSpeed: real): (c: seq<AxisCall>)
    requires WellFormed(k)
    ensures |c| == 5 && c[0] == SetSpeed(IndexSearchSpeed) && c[|c| - 1] == SetSpeed(previousSpeed)
    ensures c[1] == SetDpos(IndexSearchStart) && c[2] == SearchIndex
    ensures c[3].SetDpos? && InRange(k, c[3].position)
  {
    [SetSpeed(IndexSearchSpeed), SetDpos(IndexSearchStart), SearchIndex,
     SetDpos(Normalize(k, 0.0)), SetSpeed(previousSpeed)]
  }

  class Motor {
    const letter: string
    var connected: bool
    var indexFound: bool
    var units: Units
    var lowLimit: int
    var highLimit: int
    var serial: Option<string>
    var stage: Option<Stage>
    var controller: Controller?
    var timerActive: bool
    var encoderErrorPrev: Option<bool>
    var encoderValidPrev: Option<bool>
    var eposPrev: Option<int>
    const dpos: Ablolib.DynVar
    const epos: Ablolib.DynVar
    const speed: Ablolib.DynVar
    const stepSize: Ablolib.DynVar
    /** Every LED signal the motor has emitted. */
    ghost var leds: seq<LedEvent>

    /** The four notifying cells are distinct and each is consistent. */
    ghost predicate CellsValid()
      reads dpos, epos, speed, stepSize
    {
      dpos != epos && dpos != speed && dpos != stepSize
      && epos != speed && epos != stepSize && speed != stepSize
      && dpos.Valid() && epos.Valid() && speed.Valid() && stepSize.Valid()
    }

    /** The limits are ordered; a port is only ever stored with its stage; a
        controller exists only for a known port and carries that stage, and a
        rotary one has limits [0, 360]; and the motor is connected only with
        a controller and exactly while the update timer runs. */
    ghost predicate Valid()
      reads this, dpos, epos, speed, stepSize
    {
      CellsValid()
      && lowLimit < highLimit
      && (serial.Some? ==> stage.Some?)
      && (controller != null ==>
            serial.Some? && controller.stage == stage.value
            && (!IsLinear(controller.stage) ==> lowLimit == 0 && highLimit == 360))
      && (connected ==> controller != null)
      && timerActive == connected
    }

    /** The shape of the range the desired position is kept in. */
    function Kind(): (k: AxisKind)
      reads this
      requires controller != null
      ensures lowLimit < highLimit ==> WellFormed(k)
    {
      if IsLinear(controller.stage) then Linear(lowLimit, highLimit) else Rotary
    }

    /** A motor for axis `letter`, not connected, with limits [-5, 5] until
        `Connect` reads the real ones; the serial port is looked up at once. */
    constructor(letter: string, devices: seq<Device>, units: Units := Mm,
                speedValue: real := 10.0, stepValue: real := 1.0)
      requires letter != ""
      ensures Valid() && fresh(dpos) && fresh(epos) && fresh(speed) && fresh(stepSize)
      ensures this.letter == letter && !connected && !indexFound && !timerActive
      ensures controller == null && lowLimit == -5 && highLimit == 5
      ensures this.units == (if letter == "R" then Deg else units)
      ensures encoderErrorPrev.None? && encoderValidPrev.None? && eposPrev.None?
      ensures dpos.value == 0.0 && epos.value == 0.0 && speed.value == speedValue
      ensures stepSize.value == stepValue && leds == []
      ensures dpos.emitted == [] && epos.emitted == [] && speed.emitted == [] && stepSize.emitted == []
      ensures var port := FindPort(devices, SerialNumberFor(letter));
              serial == port && (port.Some? ==> stage == Some(AxisTable(letter).value.stage))
    {
      this.letter := letter;
      connected := false;
      indexFound := false;
      controller := null;
      stage := None;
      serial := None;
      this.units := units;
      lowLimit, highLimit := -5, 5;
      timerActive := false;
      encoderErrorPrev, encoderValidPrev, eposPrev := None, None, None;
      var s := new Ablolib.DynVar(speedValue);
      var d := new Ablolib.DynVar(0.0);
      var e := new Ablolib.DynVar(0.0);
      var z := new Ablolib.DynVar(stepValue);
      speed, dpos, epos, stepSize := s, d, e, z;
      leds := [];
      new;
      ResolveSerial(devices);
    }

    /** `__getSerial`: the letter selects serial number and stage; a rotary
        letter also switches the units to degrees. Port and stage are kept
        only when the port is found. */
    method ResolveSerial(devices: seq<Device>)
      modifies this
      requires Valid() && serial.None?
      ensures Valid()
      ensures units == (if letter == "R" then Deg else old(units))
      ensures var port := FindPort(devices, SerialNumberFor(letter));
              serial == port && (port.Some? ==> stage == Some(AxisTable(letter).value.stage))
              && (port.None? ==> stage == old(stage))
      ensures connected == old(connected) && controller == old(controller)
      ensures lowLimit == old(lowLimit) && highLimit == old(highLimit) && leds == old(leds)
      ensures indexFound == old(indexFound) && timerActive == old(timerActive)
      ensures encoderErrorPrev == old(encoderErrorPrev) && encoderValidPrev == old(encoderValidPrev)
      ensures eposPrev == old(eposPrev)
    {
      var entry := AxisTable(letter);
      if letter == "R" {
        units := Deg;
      }
      var sn := if entry.Some? then Some(entry.value.serialNumber) else None;
      var port := FindPort(devices, sn);
      if port.Some? {
        serial := port;
        stage := Some(entry.value.stage);
      }
    }

    /** `__setSpeed`, the slot of the speed variable. */
    method OnSpeedChanged()
      modifies controller
      requires controller != null && speed.Valid()
      ensures controller.calls == old(controller.calls) + [SetSpeed(speed.value)]
      ensures controller.units == old(controller.units)
    {
      controller.Record(SetSpeed(speed.Get()));
    }

    /** `DPOS.set(v)` with its slot: the value goes through the re-entry
        chain, each value set emits once, and the axis receives exactly one
        write, of the normalised value. */
    method SetDesired(v: real)
      modifies dpos, controller
      requires Valid() && controller != null
      ensures Valid()
      ensures dpos.value == Normalize(Kind(), v)
      ensures dpos.emitted == old(dpos.emitted) + Chain(Kind(), v)
      ensures controller.calls == old(controller.calls) + [SetDpos(Normalize(Kind(), v))]
      ensures controller.units == old(controller.units)
      decreases Measure(Kind(), v), 1
    {
      dpos.Set(v);
      OnDesiredChanged();
    }

    /** `__setDPOS`, the slot of the desired position: a value below the low
        limit is set again as the limit (linear) or one turn higher (rotary),
        one above the high limit symmetrically, and an in-range value is
        written to the axis. */
    method OnDesiredChanged()
      modifies dpos, controller
      requires Valid() && controller != null
      ensures Valid()
      ensures dpos.value == Normalize(Kind(), old(dpos.value))
      ensures dpos.emitted == old(dpos.emitted) + Chain(Kind(), old(dpos.value))[1..]
      ensures controller.calls == old(controller.calls) + [SetDpos(Normalize(Kind(), old(dpos.value)))]
      ensures controller.units == old(controller.units)
      decreases Measure(Kind(), dpos.value), 0
    {
      var k := Kind();
      var v := dpos.Get();
      if !InRange(k, v) {
        CorrectedDecreases(k, v);
        NormalizeStep(k, v);
      }
      if v < lowLimit as real {
        if IsLinear(controller.stage) {
          SetDesired(lowLimit as real);
        } else {
          SetDesired(v + 360.0);
        }
      } else if v > highLimit as real {
        if IsLinear(controller.stage) {
          SetDesired(highLimit as real);
        } else {
          SetDesired(v - 360.0);
        }
      } else {
        controller.Record(SetDpos(v));
      }
    }

    /** `step`: asks for the current desired position plus the step, which
        defaults to the step-size variable. */
    method Step(size: Option<real>)
      modifies dpos, controller
      requires Valid() && controller != null
      ensures Valid()
      ensures var d := if size.Some? then size.value else stepSize.value;
              dpos.value == Normalize(Kind(), old(dpos.value) + d)
              && dpos.emitted == old(dpos.emitted) + Chain(Kind(), old(dpos.value) + d)
              && controller.calls == old(controller.calls) + [SetDpos(Normalize(Kind(), old(dpos.value) + d))]
    {
      var d := if size.Some? then size.value else stepSize.Get();
      SetDesired(dpos.Get() + d);
    }

    /** `connect`: without a port (even after a second lookup) it answers
        false and changes nothing else. Otherwise it opens the controller and
        answers nothing (Python's `None`). */
    method Connect(devices: seq<Device>, settings: AxisSettings, baudrate: int := DefaultBaudrate)
      returns (r: Option<bool>)
      modifies this, stepSize
      requires Valid()
      ensures Valid()
      ensures r == Some(false) <==> serial.None?
      ensures r.Some? ==> !connected && controller == old(controller) && leds == old(leds)
                          && stepSize.emitted == old(stepSize.emitted)
                          && lowLimit == old(lowLimit) && highLimit == old(highLimit)
      ensures r.None? ==> connected && fresh(controller) && controller.settings == settings
                          && controller.baudrate == baudrate
                          && controller.port == serial.value && controller.stage == stage.value
                          && (lowLimit, highLimit) == LimitsFor(IsLinear(stage.value), settings)
      ensures old(serial).Some? ==> serial == old(serial) && stage == old(stage)
      ensures old(serial).None? ==> units == (if letter == "R" then Deg else old(units))
      ensures old(serial).Some? ==> units == old(units)
      ensures stepSize.value == old(stepSize.value) && dpos.value == old(dpos.value)
      ensures indexFound == old(indexFound) && eposPrev == old(eposPrev)
      ensures encoderErrorPrev == old(encoderErrorPrev) && encoderValidPrev == old(encoderValidPrev)
    {
      if serial.None? {
        ResolveSerial(devices);
        if serial.None? {
          return Some(false);
        }
      }
      OpenController(settings, baudrate);
      r := None;
    }

    /** The rest of `connect` once a port is known: open and start the
        controller, set units and speed, install the limits (a rotary stage
        also greys out both limit LEDs and is switched to degrees), start the
        update timer, light the connection LED and re-emit the step size. */
    method OpenController(settings: AxisSettings, baudrate: int)
      modifies this, stepSize
      requires Valid() && serial.Some?
      ensures Valid()
      ensures connected && timerActive && fresh(controller)
      ensures controller.port == serial.value && controller.baudrate == baudrate
      ensures controller.stage == stage.value && controller.settings == settings
      ensures (lowLimit, highLimit) == LimitsFor(IsLinear(stage.value), settings)
      ensures controller.calls == [Start, SetUnits(units), SetSpeed(speed.value)]
                 + (if !IsLinear(stage.value) && units != Deg then [SetUnits(Deg)] else [])
      ensures leds == old(leds) + (if IsLinear(stage.value) then [] else UnlimitedRotationLeds())
                     + [ConnectedEvent()]
      ensures stepSize.emitted == old(stepSize.emitted) + [stepSize.value]
      ensures serial == old(serial) && stage == old(stage) && units == old(units)
      ensures stepSize.value == old(stepSize.value) && dpos.value == old(dpos.value)
      ensures indexFound == old(indexFound) && eposPrev == old(eposPrev)
      ensures encoderErrorPrev == old(encoderErrorPrev) && encoderValidPrev == old(encoderValidPrev)
    {
      var c := StartController(settings, baudrate);
      var lo, hi, limitLeds := ConfigureLimits(c);
      InstallController(c, lo, hi, limitLeds);
      stepSize.Notify();
    }

    /** Adopts the started controller: installs its limits, starts the
        update timer, marks the motor connected and lights the LEDs. */
    method InstallController(c: Controller, lo: int, hi: int, limitLeds: seq<LedEvent>)
      modifies this
      requires Valid() && serial.Some? && c.port == serial.value && c.stage == stage.value
      requires (lo, hi) == LimitsFor(IsLinear(c.stage), c.settings)
      ensures Valid()
      ensures connected && timerActive && controller == c
      ensures (lowLimit, highLimit) == LimitsFor(IsLinear(c.stage), c.settings)
      ensures leds == old(leds) + limitLeds + [ConnectedEvent()]
      ensures serial == old(serial) && stage == old(stage) && units == old(units)
      ensures indexFound == old(indexFound) && eposPrev == old(eposPrev)
      ensures encoderErrorPrev == old(encoderErrorPrev) && encoderValidPrev == old(encoderValidPrev)
    {
      controller, lowLimit, highLimit, timerActive, connected := c, lo, hi, true, true;
      leds := leds + limitLeds + [ConnectedEvent()];
    }

    /** `Xeryon(serial, baudrate)`, `addAxis(stage, letter)`, `start()`,
        then the motor's units and speed written to the axis. */
    method StartController(settings: AxisSettings, baudrate: int) returns (c: Controller)
      requires serial.Some? && stage.Some? && speed.Valid()
      ensures fresh(c) && c.port == serial.value && c.baudrate == baudrate
      ensures c.stage == stage.value && c.letter == letter && c.settings == settings
      ensures c.calls == [Start, SetUnits(units), SetSpeed(speed.value)]
    {
      c := new Controller(serial.value, baudrate, stage.value, letter, settings);
      c.Record(Start);
      c.SetUnitsTo(units);
      c.Record(SetSpeed(speed.Get()));
    }

    /** The limit part of `connect`: a linear stage takes its limits from the
        settings, a rotary stage greys out both limit LEDs, is switched to
        degrees if needed and gets [0, 360]; unordered limits become [-1, 1]. */
    method ConfigureLimits(c: Controller) returns (lo: int, hi: int, limitLeds: seq<LedEvent>)
      modifies c
      ensures (lo, hi) == LimitsFor(IsLinear(c.stage), c.settings)
      ensures limitLeds == (if IsLinear(c.stage) then [] else UnlimitedRotationLeds())
      ensures c.calls == old(c.calls) + (if !IsLinear(c.stage) && units != Deg then [SetUnits(Deg)] else [])
      ensures c.reading == old(c.reading)
    {
      limitLeds := [];
      if IsLinear(c.stage) {
        lo := if c.settings.llim.Some? then Trunc(c.settings.llim.value) else -5;
        hi := if c.settings.hlim.Some? then Trunc(c.settings.hlim.value) else 5;
      } else {
        limitLeds := UnlimitedRotationLeds();
        if units != Deg {
          c.SetUnitsTo(Deg);
        }
        lo, hi := 0, 360;
      }
      if lo >= hi {
        lo, hi := -1, 1;
      }
    }

    /** The position part of a poll: the reading, rounded to thousandths, is
        stored and emitted only when it differs from the last one stored. */
    method UpdatePosition()
      modifies this, epos
      requires Valid() && connected
      ensures Valid()
      ensures connected && controller == old(controller) && leds == old(leds)
      ensures lowLimit == old(lowLimit) && highLimit == old(highLimit)
      ensures indexFound == old(indexFound) && encoderValidPrev == old(encoderValidPrev)
      ensures encoderErrorPrev == old(encoderErrorPrev)
      ensures serial == old(serial) && stage == old(stage) && units == old(units)
      ensures var k := Thousandths(controller.reading.epos);
              eposPrev == Some(k)
              && (old(eposPrev) != Some(k) ==>
                    epos.value == k as real / 1000.0 && epos.emitted == old(epos.emitted) + [epos.value])
              && (old(eposPrev) == Some(k) ==>
                    epos.value == old(epos.value) && epos.emitted == old(epos.emitted))
    {
      var k := Thousandths(controller.reading.epos);
      if eposPrev != Some(k) {
        var again := Round((k as real / 1000.0) * 1000.0);
        ThousandthsRoundTrip(k);
        epos.Set(again as real / 1000.0);
        eposPrev := Some(k);
      }
    }

    /** `updateData`, one tick of the update timer. While connected: the
        reported position, rounded to thousandths, is stored and emitted only
        when it differs from the last one stored; the connection LED is
        emitted only when the encoder-error flag changed; then the LED table
        of the poll. While disconnected: "Disconnected" on all five LEDs. */
    method UpdateData()
      modifies this, epos
      requires Valid()
      ensures Valid()
      ensures connected == old(connected) && controller == old(controller)
      ensures lowLimit == old(lowLimit) && highLimit == old(highLimit)
      ensures indexFound == old(indexFound) && encoderValidPrev == old(encoderValidPrev)
      ensures serial == old(serial) && stage == old(stage) && units == old(units)
      ensures !connected ==>
                leds == old(leds) + DisconnectedBurst() && epos.value == old(epos.value)
                && epos.emitted == old(epos.emitted)
                && eposPrev == old(eposPrev) && encoderErrorPrev == old(encoderErrorPrev)
      ensures connected ==>
                var rd := controller.reading;
                var k := Thousandths(rd.epos);
                eposPrev == Some(k) && encoderErrorPrev == Some(rd.encoderError)
                && (old(eposPrev) != Some(k) ==>
                      epos.value == k as real / 1000.0 && epos.emitted == old(epos.emitted) + [epos.value])
                && (old(eposPrev) == Some(k) ==>
                      epos.value == old(epos.value) && epos.emitted == old(epos.emitted))
                && leds == old(leds) + PollLeds(rd, old(encoderErrorPrev), IsLinear(controller.stage),
                                                dpos.value, lowLimit, highLimit)
    {
      if connected {
        ConnectedPoll();
      } else {
        DisconnectedPoll();
      }
    }

    /** A tick of the update timer while connected: the position check, the
        LED signals of `PollLeds` (whose shape `PollLedsShape` states), and
        the encoder-error flag recorded. */
    method ConnectedPoll()
      modifies this, epos
      requires Valid() && connected
      ensures Valid() && connected && controller == old(controller)
      ensures lowLimit == old(lowLimit) && highLimit == old(highLimit)
      ensures indexFound == old(indexFound) && encoderValidPrev == old(encoderValidPrev)
      ensures serial == old(serial) && stage == old(stage) && units == old(units)
      ensures var rd := controller.reading;
              var k := Thousandths(rd.epos);
              eposPrev == Some(k) && encoderErrorPrev == Some(rd.encoderError)
              && (old(eposPrev) != Some(k) ==>
                    epos.value == k as real / 1000.0 && epos.emitted == old(epos.emitted) + [epos.value])
              && (old(eposPrev) == Some(k) ==>
                    epos.value == old(epos.value) && epos.emitted == old(epos.emitted))
              && leds == old(leds) + PollLeds(rd, old(encoderErrorPrev), IsLinear(controller.stage),
                                              dpos.value, lowLimit, highLimit)
    {
      var rd := controller.reading;
      UpdatePosition();
      leds := leds + PollLeds(rd, encoderErrorPrev, IsLinear(controller.stage), dpos.value, lowLimit, highLimit);
      if encoderErrorPrev != Some(rd.encoderError) {
        encoderErrorPrev := Some(rd.encoderError);
      }
    }

    /** A tick of the update timer while disconnected: every LED is switched
        off with the tooltip "Disconnected", and nothing else changes. */
    method DisconnectedPoll()
      modifies this
      requires Valid() && !connected
      ensures Valid() && leds == old(leds) + DisconnectedBurst()
      ensures connected == old(connected) && controller == old(controller)
      ensures lowLimit == old(lowLimit) && highLimit == old(highLimit)
      ensures indexFound == old(indexFound) && timerActive == old(timerActive)
      ensures encoderValidPrev == old(encoderValidPrev) && encoderErrorPrev == old(encoderErrorPrev)
      ensures eposPrev == old(eposPrev)
      ensures serial == old(serial) && stage == old(stage) && units == old(units)
    {
      leds := leds + DisconnectedBurst();
    }

    /** `disconnect`: stops the controller if there is one, clears the
        connection, timer and index flags, polls once (which, now
        disconnected, emits "Disconnected" on every LED) and forgets the
        encoder flags, but not the last position. */
    method Disconnect()
      modifies this, controller
      requires Valid()
      ensures Valid()
      ensures !connected && !timerActive && !indexFound
      ensures encoderErrorPrev.None? && encoderValidPrev.None? && eposPrev == old(eposPrev)
      ensures leds == old(leds) + DisconnectedBurst()
      ensures controller == old(controller)
      ensures controller != null ==> controller.calls == old(controller.calls) + [Stop]
                                     && controller.units == old(controller.units)
                                     && controller.reading == old(controller.reading)
      ensures serial == old(serial) && stage == old(stage) && units == old(units)
      ensures lowLimit == old(lowLimit) && highLimit == old(highLimit)
      ensures epos.value == old(epos.value) && dpos.value == old(dpos.value)
    {
      if controller != null {
        controller.Record(Stop);
      }
      ClearConnection();
    }

    /** The rest of `disconnect` once the controller is stopped: the flags
        are cleared, the poll it makes emits "Disconnected" on every LED,
        and the encoder flags are forgotten. */
    method ClearConnection()
      modifies this
      requires Valid()
      ensures Valid() && !connected && !timerActive && !indexFound
      ensures encoderErrorPrev.None? && encoderValidPrev.None? && eposPrev == old(eposPrev)
      ensures leds == old(leds) + DisconnectedBurst()
      ensures controller == old(controller)
      ensures lowLimit == old(lowLimit) && highLimit == old(highLimit)
      ensures serial == old(serial) && stage == old(stage) && units == old(units)
    {
      connected, timerActive, indexFound := false, false, false;
      // The poll `disconnect` makes now takes its disconnected branch.
      DisconnectedPoll();
      encoderErrorPrev, encoderValidPrev := None, None;
    }

    /** `findIndexThread`, the sequential body of the index search: remember
        the speed, search at high speed from the far end, mark the index as
        found, return the desired position to 0 through the usual re-entry,
        and restore the speed. */
    method FindIndexThread()
      modifies this, dpos, speed, controller
      requires Valid() && controller != null
      ensures Valid()
      ensures indexFound && encoderValidPrev.None?
      ensures controller == old(controller) && connected == old(connected)
      ensures lowLimit == old(lowLimit) && highLimit == old(highLimit) && leds == old(leds)
      ensures speed.value == old(speed.value)
      ensures speed.emitted == old(speed.emitted) + [IndexSearchSpeed, old(speed.value)]
      ensures timerActive == old(timerActive) && encoderErrorPrev == old(encoderErrorPrev)
      ensures eposPrev == old(eposPrev) && serial == old(serial) && stage == old(stage) && units == old(units)
      ensures dpos.value == Normalize(Kind(), 0.0)
      ensures dpos.emitted == old(dpos.emitted) + Chain(Kind(), 0.0)
      ensures controller.calls == old(controller.calls) + IndexSearchCalls(Kind(), old(speed.value))
    {
      var previous := speed.Get();
      SearchIndexAtSpeed();
      SetDesired(0.0);
      RestoreSpeed(previous);
    }

    /** The search itself: the speed variable goes to the search speed (its
        slot writes it to the axis), the axis is sent to the far end and
        searches, and the index is marked found. */
    method SearchIndexAtSpeed()
      modifies this, speed, controller
      requires Valid() && controller != null
      ensures Valid() && indexFound
      ensures controller == old(controller) && connected == old(connected)
      ensures lowLimit == old(lowLimit) && highLimit == old(highLimit) && leds == old(leds)
      ensures encoderValidPrev == old(encoderValidPrev)
      ensures timerActive == old(timerActive) && encoderErrorPrev == old(encoderErrorPrev)
      ensures eposPrev == old(eposPrev) && serial == old(serial) && stage == old(stage) && units == old(units)
      ensures speed.value == IndexSearchSpeed && speed.emitted == old(speed.emitted) + [IndexSearchSpeed]
      ensures controller.calls == old(controller.calls)
                + [SetSpeed(IndexSearchSpeed), SetDpos(IndexSearchStart), SearchIndex]
    {
      speed.Set(IndexSearchSpeed);
      OnSpeedChanged();
      controller.Record(SetDpos(IndexSearchStart));
      controller.Record(SearchIndex);
      indexFound := true;
    }

    /** The end of the search: the speed variable is set back (its slot
        writes it to the axis) and the encoder-valid flag is forgotten. */
    method RestoreSpeed(previous: real)
      modifies this, speed, controller
      requires Valid() && controller != null
      ensures Valid() && encoderValidPrev.None?
      ensures controller == old(controller) && connected == old(connected) && indexFound == old(indexFound)
      ensures lowLimit == old(lowLimit) && highLimit == old(highLimit) && leds == old(leds)
      ensures speed.value == previous && speed.emitted == old(speed.emitted) + [previous]
      ensures timerActive == old(timerActive) && encoderErrorPrev == old(encoderErrorPrev)
      ensures eposPrev == old(eposPrev) && serial == old(serial) && stage == old(stage) && units == old(units)
      ensures controller.calls == old(controller.calls) + [SetSpeed(previous)]
    {
      speed.Set(previous);
      OnSpeedChanged();
      encoderValidPrev := None;
    }

    /** `findIndex`: does nothing unless connected. Otherwise it forgets the
        encoder-valid flag, lights the index LED orange, and hands the search
        body to a worker, whose `run` calls it twice. */
    method FindIndex()
      modifies this, dpos, speed, controller
      requires Valid()
      ensures Valid()
      ensures connected == old(connected) && controller == old(controller) && speed.value == old(speed.value)
      ensures lowLimit == old(lowLimit) && highLimit == old(highLimit)
      ensures timerActive == old(timerActive) && encoderErrorPrev == old(encoderErrorPrev)
      ensures eposPrev == old(eposPrev) && serial == old(serial) && stage == old(stage) && units == old(units)
      ensures !old(connected) ==>
                leds == old(leds) && indexFound == old(indexFound)
                && dpos.value == old(dpos.value) && dpos.emitted == old(dpos.emitted)
                && speed.emitted == old(speed.emitted)
                && encoderValidPrev == old(encoderValidPrev)
                && (controller != null ==> controller.calls == old(controller.calls))
      ensures old(connected) ==>
                indexFound && encoderValidPrev.None?
                && leds == old(leds) + [IndexLed(false, true)]
                && speed.emitted == old(speed.emitted) + [IndexSearchSpeed, old(speed.value)]
                                                       + [IndexSearchSpeed, old(speed.value)]
                && dpos.value == Normalize(Kind(), 0.0)
                && dpos.emitted == old(dpos.emitted) + Chain(Kind(), 0.0) + Chain(Kind(), 0.0)
                && controller.calls == old(controller.calls)
                   + IndexSearchCalls(Kind(), old(speed.value)) + IndexSearchCalls(Kind(), old(speed.value))
    {
      if connected {
        encoderValidPrev := None;
        leds := leds + [IndexLed(false, true)];
        FindIndexThread();
        FindIndexThread();
      }
    }
  }
}
