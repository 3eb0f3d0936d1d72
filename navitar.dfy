/** The Navitar zoom motor: a serial line to the controller, the framing of
    a command and the parsing of its answer, the desired-position re-entry
    clamped to the fixed limits [-5, 5], stepping, and the step buttons of
    the vertical control widget. */
module Navitar {
  import opened Common
  import opened DesiredPosition
  import XeryonAxis
  import XeryonGui
  import Ablolib

  /** The motor's limits; they are fixed and never read from the device. */
  const NavitarLimits: AxisKind := Linear(-5, 5)

  const Baudrate: int := 115200

  /** The placeholder command the desired-position slot sends. */
  const DposMessage: string := "my_DPOS_message"

  /** A serial line. The controller's answer is modelled as lines arriving in
      `input`; `sent` is every string written. A port object built without a
      port name is not open, and reading or writing it fails. */
  class SerialPort {
    const port: Option<string>
    var isOpen: bool
    var input: seq<string>
    var sent: seq<string>

    constructor(port: Option<string>)
      ensures this.port == port && isOpen == port.Some? && input == [] && sent == []
    {
      this.port := port;
      isOpen := port.Some?;
      input := [];
      sent := [];
    }

    /** Whether anything waits to be read. */
    function InWaiting(): (n: nat)
      reads this
      ensures n > 0 <==> input != []
    {
      |input|
    }

    /** The next line, or the empty string when nothing waits, since the
        port never waits for data. */
    method ReadLine() returns (line: string)
      modifies this
      requires isOpen
      ensures isOpen && sent == old(sent)
      ensures old(input) == [] ==> line == "" && input == []
      ensures old(input) != [] ==> line == old(input)[0] && input == old(input)[1..]
    {
      if input == [] {
        line := "";
      } else {
        line := input[0];
        input := input[1..];
      }
    }

    method Write(s: string)
      modifies this
      requires isOpen
      ensures isOpen && input == old(input) && sent == old(sent) + [s]
    {
      sent := sent + [s];
    }

    /** The controller answers with `lines`. */
    method Receive(lines: seq<string>)
      modifies this
      ensures isOpen == old(isOpen) && sent == old(sent) && input == old(input) + lines
    {
      input := input + lines;
    }

    method Close()
      modifies this
      ensures !isOpen && input == old(input) && sent == old(sent)
    {
      isOpen := false;
    }
  }

  /** The framed command: trailing whitespace, line ends included, removed,
      and one newline of its own appended. */
  function Frame(cmd: string): (f: string)
    ensures |f| >= 1 && f[|f| - 1] == '\n' && f[..|f| - 1] == RStrip(cmd)
    ensures |f| == 1 || !IsSpace(f[|f| - 2])
    ensures RStrip(f) == RStrip(cmd)
  {
    RStripDropsSpaces(RStrip(cmd), "\n");
    RStrip(cmd) + "\n"
  }

  /** Trailing whitespace after a command does not change its frame; in
      particular framing a framed command changes nothing. */
  lemma FrameIgnoresTrailingSpace(cmd: string, ending: string)
    requires forall k :: 0 <= k < |ending| ==> IsSpace(ending[k])
    ensures Frame(cmd + ending) == Frame(cmd)
    ensures Frame(Frame(cmd)) == Frame(cmd)
  {
    var r := RStrip(cmd);
    var t := cmd[|r|..];
    assert cmd == r + t;
    assert cmd + ending == r + (t + ending);
    RStripDropsSpaces(r, t + ending);
  }

  /** The line `readline` returns at position `i` of what the controller
      sent, or the empty string when there is none. */
  function LineAt(lines: seq<string>, i: nat): (line: string)
  {
    if i < |lines| then lines[i] else ""
  }

  /** The number a command's answer carries: the first line is the echo and
      is thrown away, the second, stripped, is the number or is not one. */
  function Response(reply: seq<string>): (r: Option<int>)
    ensures |reply| < 2 ==> r.None?
    ensures |reply| >= 2 ==> r == ParseInt(reply[1])
  {
    ParseIntOfRStrip(LineAt(reply, 1));
    BlankIsNotANumber(RStrip(""));
    ParseInt(RStrip(LineAt(reply, 1)))
  }

  /** An answer whose second line is a number, followed by any line end,
      yields that number. */
  lemma NumberAnswer(echo: string, n: int, ending: string)
    requires forall k :: 0 <= k < |ending| ==> IsSpace(ending[k])
    ensures Response([echo, ShowInt(n) + ending]) == Some(n)
  {
    var line := ShowInt(n) + ending;
    assert LineAt([echo, line], 1) == line;
    ParseShowInt(n, ending);
    ParseIntOfRStrip(line);
  }

  /** No second line, or a blank one, yields no number. */
  lemma NoAnswer(reply: seq<string>)
    requires |reply| < 2
    ensures Response(reply) == None
  {
    BlankIsNotANumber(RStrip(""));
  }

  /** `Motor`: as written the serial port name stays unset (see the
      constructor; `OnPort` looks it up as intended), the port object exists
      from `Connect` on, and `connected` follows `Connect` and `Disconnect`. */
  class Motor {
    const letter: string
    var connected: bool
    var ser: SerialPort?
    var serial: Option<string>
    const dpos: Ablolib.DynVar
    const epos: Ablolib.DynVar
    const stepSize: Ablolib.DynVar

    ghost predicate Valid()
      reads this, dpos, epos, stepSize
    {
      dpos != epos && dpos != stepSize && epos != stepSize
      && dpos.Valid() && epos.Valid() && stepSize.Valid()
      && (connected ==> ser != null)
    }

    /** A disconnected motor with no port object. The lookup of its serial
        port asks for the integer 0, which no device's serial number (a
        string, or nothing) equals, so the port name stays unset. */
    constructor(letter: string)
      requires letter != ""
      ensures Valid() && this.letter == letter && !connected && ser == null && serial.None?
      ensures dpos.value == 0.0 && epos.value == 0.0 && stepSize.value == 1.0
      ensures dpos.emitted == [] && epos.emitted == [] && stepSize.emitted == []
    {
      this.letter := letter;
      connected := false;
      ser := null;
      serial := None;
      var d := new Ablolib.DynVar(0.0);
      var e := new Ablolib.DynVar(0.0);
      var z := new Ablolib.DynVar(1.0);
      dpos, epos, stepSize := d, e, z;
    }

    /** A motor whose port lookup asks for its controller's serial number, as
        the lookup evidently intends: the port name is that of the first
        listed device reporting that number, and unset when none does. */
    constructor OnPort(letter: string, devices: seq<XeryonAxis.Device>, serialNumber: string)
      requires letter != ""
      ensures Valid() && this.letter == letter && !connected && ser == null
      ensures serial == XeryonAxis.FindPort(devices, Some(serialNumber))
      ensures dpos.value == 0.0 && epos.value == 0.0 && stepSize.value == 1.0
      ensures dpos.emitted == [] && epos.emitted == [] && stepSize.emitted == []
    {
      this.letter := letter;
      connected := false;
      ser := null;
      serial := XeryonAxis.FindPort(devices, Some(serialNumber));
      var d := new Ablolib.DynVar(0.0);
      var e := new Ablolib.DynVar(0.0);
      var z := new Ablolib.DynVar(1.0);
      dpos, epos, stepSize := d, e, z;
    }

    /** `connect`: builds the port object on the stored port name (open only
        when there is one) and marks the motor connected. */
    method Connect()
      modifies this
      requires Valid()
      ensures Valid() && connected && fresh(ser)
      ensures ser.port == serial && ser.isOpen == serial.Some? && ser.input == [] && ser.sent == []
      ensures serial == old(serial)
    {
      ser := new SerialPort(serial);
      connected := true;
    }

    /** `disconnect`: closes the port and marks the motor disconnected. */
    method Disconnect()
      modifies this, ser
      requires Valid() && ser != null
      ensures Valid() && !connected && ser == old(ser) && !ser.isOpen
      ensures ser.input == old(ser.input) && ser.sent == old(ser.sent)
    {
      ser.Close();
      connected := false;
    }

    /** `sendCommand`: drains whatever waits on the line, writes the framed
        command, and, while the half-second window is still open
        (`inTime`), throws away the echo and parses the next line. The
        controller's answer is `reply`. */
    method SendCommand(cmd: string, reply: seq<string>, inTime: bool) returns (r: Option<int>)
      modifies ser
      requires ser != null && ser.isOpen
      ensures ser.isOpen && ser.sent == old(ser.sent) + [Frame(cmd)]
      ensures inTime ==> r == Response(reply)
                         && ser.input == reply[(if |reply| < 2 then |reply| else 2)..]
      ensures !inTime ==> r.None? && ser.input == reply
    {
      var p := ser;
      while p.InWaiting() > 0
        invariant p.isOpen && p.sent == old(p.sent)
        decreases |p.input|
      {
        var _ := p.ReadLine();
      }
      p.Write(Frame(cmd));
      p.Receive(reply);
      if !inTime {
        return None;
      }
      assert p.input == reply;
      var _ := p.ReadLine();
      assert p.input == if reply == [] then [] else reply[1..];
      var line := p.ReadLine();
      assert line == LineAt(reply, 1);
      r := ParseInt(RStrip(line));
    }

    /** `DPOS.set(v)` with its slot: the value goes through the re-entry
        chain, each value set emits once, and exactly one command is sent,
        once the value lies in [-5, 5]. */
    method SetDesired(v: real, reply: seq<string>, inTime: bool)
      modifies dpos, ser
      requires Valid() && ser != null && ser.isOpen
      ensures Valid() && ser.isOpen
      ensures dpos.value == Normalize(NavitarLimits, v) && dpos.value == Clamp(v, -5.0, 5.0)
      ensures dpos.emitted == old(dpos.emitted) + Chain(NavitarLimits, v)
      ensures ser.sent == old(ser.sent) + [Frame(DposMessage)]
      decreases Measure(NavitarLimits, v), 1
    {
      dpos.Set(v);
      OnDesiredChanged(reply, inTime);
    }

    /** `__setDPOS`: a value below the low limit is set again as the low
        limit, one above the high limit as the high limit, and an in-range
        value is sent to the controller. */
    method OnDesiredChanged(reply: seq<string>, inTime: bool)
      modifies dpos, ser
      requires Valid() && ser != null && ser.isOpen
      ensures Valid() && ser.isOpen
      ensures dpos.value == Normalize(NavitarLimits, old(dpos.value))
      ensures dpos.emitted == old(dpos.emitted) + Chain(NavitarLimits, old(dpos.value))[1..]
      ensures ser.sent == old(ser.sent) + [Frame(DposMessage)]
      decreases Measure(NavitarLimits, dpos.value), 0
    {
      var v := dpos.Get();
      if !InRange(NavitarLimits, v) {
        CorrectedDecreases(NavitarLimits, v);
        NormalizeStep(NavitarLimits, v);
      }
      if v < -5.0 {
        SetDesired(-5.0, reply, inTime);
      } else if v > 5.0 {
        SetDesired(5.0, reply, inTime);
      } else {
        SendDesired(reply, inTime);
      }
    }

    /** The in-range branch of the slot: the placeholder command is sent and
        its answer ignored. */
    method SendDesired(reply: seq<string>, inTime: bool)
      modifies ser
      requires ser != null && ser.isOpen
      ensures ser.isOpen && ser.sent == old(ser.sent) + [Frame(DposMessage)]
    {
      var _ := SendCommand(DposMessage, reply, inTime);
    }

    /** `step`: asks for the current desired position plus the step, which
        defaults to the step-size variable. */
    method Step(size: Option<real>, reply: seq<string>, inTime: bool)
      modifies dpos, ser
      requires Valid() && ser != null && ser.isOpen
      ensures Valid()
      ensures var d := if size.Some? then size.value else stepSize.value;
              dpos.value == Clamp(old(dpos.value) + d, -5.0, 5.0)
              && dpos.emitted == old(dpos.emitted) + Chain(NavitarLimits, old(dpos.value) + d)
              && ser.sent == old(ser.sent) + [Frame(DposMessage)]
    {
      var d := if size.Some? then size.value else stepSize.Get();
      SetDesired(dpos.Get() + d, reply, inTime);
    }
  }

  /** As written, a motor never gets an open port: its lookup asks for the
      integer 0, which no serial number equals, so `connect` builds the port
      object without a port name, and the first command sent to it fails. */
  method ConnectAsWritten(letter: string) returns (m: Motor)
    requires letter != ""
    ensures m.Valid() && m.connected && m.ser != null && m.serial.None? && !m.ser.isOpen
  {
    m := new Motor(letter);
    m.Connect();
  }

  /** With the lookup by the controller's serial number, a motor connects on
      an open port exactly when a listed device reports that number, and then
      its commands can be sent. */
  method ConnectOnListedPort(letter: string, devices: seq<XeryonAxis.Device>, serialNumber: string)
    returns (m: Motor)
    requires letter != ""
    ensures m.Valid() && m.connected && m.ser != null
    ensures m.ser.isOpen <==> exists i :: 0 <= i < |devices| && devices[i].serialNumber == Some(serialNumber)
  {
    m := new Motor.OnPort(letter, devices, serialNumber);
    m.Connect();
  }

  /** The names of the six buttons of the vertical control, in the order
      up 1..3, down 1..3, as they are written: the down buttons carry the
      names of the up buttons. */
  const ButtonNamesAsWritten: seq<string> := ["U1", "U2", "U3", "U1", "U2", "U3"]

  /** The names the down buttons were evidently meant to carry, matching
      their down-chevron icons and their "+" tooltips. */
  const ButtonNames: seq<string> := ["U1", "U2", "U3", "D1", "D2", "D3"]

  /** The step button `i` asks for, with the click handler shared with the
      Xeryon vertical widget ("U" steps negative, "D" positive). */
  function ButtonStep(names: seq<string>, i: nat, stepSize: real): (r: Option<real>)
    requires i < |names|
    ensures var n := names[i];
            r.Some? <==> |n| >= 2 && (n[0] == 'U' || n[0] == 'D') && (n[1] == '1' || n[1] == '2' || n[1] == '3')
    ensures r.Some? && stepSize > 0.0 ==> (r.value < 0.0 <==> names[i][0] == 'U')
  {
    XeryonGui.ButtonStep(names[i], 'U', 'D', stepSize)
  }

  /** As written, every button of the control steps negative, and each down
      button steps exactly like the up button of its tier. */
  lemma AllButtonsStepDownAsWritten(i: nat, stepSize: real)
    requires i < 6 && stepSize > 0.0
    ensures ButtonStep(ButtonNamesAsWritten, i, stepSize).Some?
    ensures ButtonStep(ButtonNamesAsWritten, i, stepSize).value < 0.0
    ensures i >= 3 ==> ButtonStep(ButtonNamesAsWritten, i, stepSize)
                       == ButtonStep(ButtonNamesAsWritten, i - 3, stepSize)
  {
    var n := ButtonNamesAsWritten[i];
    assert n[0] == 'U' && (n[1] == '1' || n[1] == '2' || n[1] == '3');
  }

  /** With the intended names, each down button steps exactly opposite to
      the up button of its tier, and the tiers are a tenth, one and five
      step sizes. */
  lemma DownButtonsMirrorUp(i: nat, stepSize: real)
    requires i < 3
    ensures ButtonStep(ButtonNames, i, stepSize).Some?
    ensures ButtonStep(ButtonNames, i + 3, stepSize).Some?
    ensures ButtonStep(ButtonNames, i + 3, stepSize).value == -ButtonStep(ButtonNames, i, stepSize).value
    ensures ButtonStep(ButtonNames, i + 3, stepSize).value
            == [0.1, 1.0, 5.0][i] * stepSize
  {
    var up, down := ButtonNames[i], ButtonNames[i + 3];
    assert up[0] == 'U' && down[0] == 'D' && up[1] == down[1];
    assert down[1] == ['1', '2', '3'][i];
  }
}
