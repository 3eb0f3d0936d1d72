/** The Basler camera: connecting with retries, disconnecting, the
    resolution slot that turns a percentage into a frame size, the grab
    thread's pause and stop flags, and the stream controls of the camera
    widget. Image grabbing, the view window and the frame-rate display are
    not modelled. */
module Basler {
  import opened Common
  import Ablolib

  /** The number of times `connect` tries to open the first camera. */
  const MaxOpenAttempts: nat := 10

  /** Width steps are whole multiples of this many pixels above the minimum. */
  const WidthStep: int := 32

  /** The resolution percentage a camera starts with. */
  const DefaultResolution: real := 30.0

  /** What the camera reports about itself: its width and height ranges and
      the shortest exposure time. */
  datatype CameraLimits = CameraLimits(minW: int, maxW: int, minH: int, maxH: int, exposureMin: real)

  predicate LimitsValid(l: CameraLimits)
  {
    0 < l.minW <= l.maxW && 0 < l.minH <= l.maxH
  }

  /** The number of width steps `res` percent of the width range asks for,
      rounded to the nearest step (ties to even). */
  function WidthSteps(minW: int, maxW: int, res: real): (n: int)
    ensures -0.5 <= res * ((maxW - minW) as real / 32.0) / 100.0 - n as real <= 0.5
  {
    Round(res * ((maxW - minW) as real / 32.0) / 100.0)
  }

  /** The new width as the resolution slot computes it. */
  function NewWidthAsWritten(minW: int, maxW: int, res: real): (w: int)
    ensures (w - minW) % WidthStep == 0
  {
    minW + WidthStep * WidthSteps(minW, maxW, res)
  }

  /** At full resolution, a width range of 84 pixels (2.625 steps) rounds
      to 3 steps, so the width asked for is 112, above the maximum 100. */
  lemma FullResolutionOvershoots()
    ensures NewWidthAsWritten(16, 100, 100.0) == 112
    ensures NewWidthAsWritten(16, 100, 100.0) > 100
  {
    assert 100.0 * ((100 - 16) as real / 32.0) / 100.0 == 2.625;
    assert Round(2.625) == 3;
  }

  /** The new width with the step count capped at the last whole step that
      fits the range, so that the width never exceeds the maximum. */
  function NewWidth(minW: int, maxW: int, res: real): (w: int)
    requires minW <= maxW
    ensures (w - minW) % WidthStep == 0
    ensures 0.0 <= res ==> minW <= w <= maxW
    ensures (maxW - minW) % WidthStep == 0 && res <= 100.0 ==> w == NewWidthAsWritten(minW, maxW, res)
  {
    var steps := WidthSteps(minW, maxW, res);
    var fit := (maxW - minW) / WidthStep;
    StepsFit(minW, maxW, res);
    StepsInRange(minW, maxW, res);
    minW + WidthStep * (if steps > fit then fit else steps)
  }

  /** The capped step count lies between 0 and the whole steps of the range,
      so its width lies within the range. */
  lemma StepsInRange(minW: int, maxW: int, res: real)
    requires minW <= maxW
    ensures var steps := WidthSteps(minW, maxW, res);
            var fit := (maxW - minW) / WidthStep;
            var capped := if steps > fit then fit else steps;
            0 <= fit && minW + WidthStep * fit <= maxW
            && (0.0 <= res ==> 0 <= capped && minW <= minW + WidthStep * capped <= maxW)
  {
    var fit := (maxW - minW) / WidthStep;
    assert WidthStep * fit <= maxW - minW;
    if 0.0 <= res {
      var x := res * ((maxW - minW) as real / 32.0) / 100.0;
      assert 0.0 <= (maxW - minW) as real / 32.0;
      assert 0.0 <= x;
    }
  }

  /** On a range of whole steps, a percentage up to 100 never asks for more
      steps than the range holds. */
  lemma StepsFit(minW: int, maxW: int, res: real)
    requires minW <= maxW
    ensures (maxW - minW) % WidthStep == 0 && res <= 100.0 ==>
              WidthSteps(minW, maxW, res) <= (maxW - minW) / WidthStep
  {
    if (maxW - minW) % WidthStep == 0 && res <= 100.0 {
      var fit := (maxW - minW) / WidthStep;
      assert (maxW - minW) as real / 32.0 == fit as real;
      assert (100.0 - res) * fit as real >= 0.0;
      assert res * fit as real / 100.0 <= fit as real;
    }
  }

  /** Resolution 0 asks for the minimum width. */
  lemma ZeroResolutionIsMinimum(minW: int, maxW: int)
    requires minW <= maxW
    ensures NewWidth(minW, maxW, 0.0) == minW
  {
    assert 0.0 * ((maxW - minW) as real / 32.0) / 100.0 == 0 as real;
    RoundOfInteger(0);
  }

  /** Resolution 100 asks for the maximum width whenever the range is whole
      steps. */
  lemma FullResolutionIsMaximum(minW: int, maxW: int)
    requires minW <= maxW && (maxW - minW) % WidthStep == 0
    ensures NewWidth(minW, maxW, 100.0) == maxW
  {
    var fit := (maxW - minW) / WidthStep;
    assert 100.0 * ((maxW - minW) as real / 32.0) / 100.0 == fit as real;
    RoundOfInteger(fit);
  }

  /** A higher resolution never asks for a smaller width. */
  lemma WidthMonotone(minW: int, maxW: int, res1: real, res2: real)
    requires minW <= maxW && res1 <= res2
    ensures NewWidth(minW, maxW, res1) <= NewWidth(minW, maxW, res2)
  {
    var x1 := res1 * ((maxW - minW) as real / 32.0) / 100.0;
    var x2 := res2 * ((maxW - minW) as real / 32.0) / 100.0;
    assert x1 <= x2;
    RoundMonotone(x1, x2);
  }

  lemma RoundMonotone(x: real, y: real)
    requires x <= y
    ensures Round(x) <= Round(y)
  {
  }

  /** The new height: the new width scaled by the aspect ratio of the full
      frame, rounded. */
  function NewHeight(w: int, maxW: int, maxH: int): (h: int)
    requires maxW > 0
    ensures -0.5 <= w as real / maxW as real * maxH as real - h as real <= 0.5
  {
    Round(w as real / maxW as real * maxH as real)
  }

  /** The full width gives the full height, and a width within the range
      gives a height within [0, maxH]. */
  lemma HeightBounds(w: int, maxW: int, maxH: int)
    requires maxW > 0 && 0 <= maxH
    ensures NewHeight(maxW, maxW, maxH) == maxH
    ensures 0 <= w <= maxW ==> 0 <= NewHeight(w, maxW, maxH) <= maxH
  {
    assert maxW as real / maxW as real * maxH as real == maxH as real;
    RoundOfInteger(maxH);
    if 0 <= w <= maxW {
      var x := w as real / maxW as real * maxH as real;
      assert w as real / maxW as real <= 1.0;
      assert 0.0 <= x <= maxH as real;
    }
  }

  /** A camera object: its limits, frame size and exposure time, and whether
      it is open and grabbing. A new camera object is not yet open; it sits
      at its full frame. */
  class Camera {
    const limits: CameraLimits
    var width: int
    var height: int
    var exposure: real
    var isOpen: bool
    var grabbing: bool

    constructor(limits: CameraLimits)
      ensures this.limits == limits && !isOpen && !grabbing
      ensures width == limits.maxW && height == limits.maxH && exposure == limits.exposureMin
    {
      this.limits := limits;
      width, height := limits.maxW, limits.maxH;
      exposure := limits.exposureMin;
      isOpen := false;
      grabbing := false;
    }

    method Open()
      modifies this
      ensures isOpen && grabbing == old(grabbing)
      ensures width == old(width) && height == old(height) && exposure == old(exposure)
    {
      isOpen := true;
    }

    method SetSize(w: int, h: int)
      modifies this
      ensures width == w && height == h
      ensures exposure == old(exposure) && isOpen == old(isOpen) && grabbing == old(grabbing)
    {
      width, height := w, h;
    }

    method SetExposure(e: real)
      modifies this
      ensures exposure == e
      ensures width == old(width) && height == old(height)
      ensures isOpen == old(isOpen) && grabbing == old(grabbing)
    {
      exposure := e;
    }

    method Shut()
      modifies this
      ensures !isOpen && !grabbing
      ensures width == old(width) && height == old(height) && exposure == old(exposure)
    {
      grabbing := false;
      isOpen := false;
    }
  }

  /** How one attempt of `connect` ends: no camera device is found, a camera
      object is made but opening it fails, or the camera opens. */
  datatype Attempt = NoDevice | OpenFails | Opened

  /** Whether attempt `i` opens the camera; attempts that `opens` does not
      describe find no device. */
  predicate Opens(opens: seq<Attempt>, i: nat)
  {
    i < |opens| && opens[i] == Opened
  }

  /** Whether attempt `i` finds a device, so that a camera object is stored. */
  predicate HasDevice(opens: seq<Attempt>, i: nat)
  {
    i < |opens| && opens[i] != NoDevice
  }

  /** Whether one of the first `n` attempts finds a device. */
  predicate DeviceFound(opens: seq<Attempt>, n: nat)
  {
    exists i :: 0 <= i < n && HasDevice(opens, i)
  }

  /** The first of the ten attempts that succeeds, counting from `from`. */
  function FirstOpen(opens: seq<Attempt>, from: nat := 0): (r: Option<nat>)
    requires from <= MaxOpenAttempts
    ensures r.Some? ==> from <= r.value < MaxOpenAttempts && Opens(opens, r.value)
    ensures r.Some? ==> forall i :: from <= i < r.value ==> !Opens(opens, i)
    ensures r.None? ==> forall i :: from <= i < MaxOpenAttempts ==> !Opens(opens, i)
    decreases MaxOpenAttempts - from
  {
    if from == MaxOpenAttempts then None
    else if Opens(opens, from) then Some(from)
    else FirstOpen(opens, from + 1)
  }

  /** `Basler`: the camera handle, the connection flag, which follows every
      emission of the connection signal, and the resolution and exposure
      variables. `connectionEvents` and `messages` are the ghost traces of
      the connection signal and of the status messages. */
  class Basler {
    var cam: Camera?
    var connected: bool
    const resolution: Ablolib.DynVar
    const exposureT: Ablolib.DynVar
    ghost var connectionEvents: seq<bool>
    ghost var messages: seq<string>
    ghost var openAttempts: nat

    /** The variables are distinct and consistent, a camera reports sensible
        limits, and the object is connected only with a camera handle. */
    ghost predicate Valid()
      reads this, resolution, exposureT
    {
      CellsValid() && (connected ==> cam != null)
    }

    ghost predicate CellsValid()
      reads this, resolution, exposureT
    {
      resolution != exposureT && resolution.Valid() && exposureT.Valid()
      && (cam != null ==> LimitsValid(cam.limits))
    }

    /** A camera object at resolution 30% that tries to connect at once. */
    constructor(limits: CameraLimits, opens: seq<Attempt>)
      requires LimitsValid(limits)
      ensures Valid()
      ensures connected <==> FirstOpen(opens).Some?
      ensures openAttempts == (if connected then FirstOpen(opens).value + 1 else MaxOpenAttempts)
      ensures connectionEvents == [connected]
      ensures fresh(resolution) && fresh(exposureT)
      ensures resolution.value == DefaultResolution && resolution.emitted == []
      ensures exposureT.value == (if connected then limits.exposureMin else 0.0)
      ensures exposureT.emitted == (if connected then [limits.exposureMin] else [])
      ensures connected ==> messages == ["Basler camera connected!"]
      ensures !connected ==> messages == [" Connection failed!"]
                                         + (if DeviceFound(opens, MaxOpenAttempts) then ["Basler camera disconnected!"] else [])
    {
      cam := null;
      connected := false;
      var r := new Ablolib.DynVar(DefaultResolution);
      var e := new Ablolib.DynVar(0.0);
      resolution, exposureT := r, e;
      connectionEvents, messages, openAttempts := [], [], 0;
      new;
      var ok := Connect(limits, opens);
      connected := ok;
    }

    /** `connect`: up to ten attempts to open the camera, stopping at the
        first that succeeds. On success the exposure goes to its minimum,
        the resolution slot runs, and connection true is emitted; on failure
        the camera is disconnected, which emits connection false and, when a
        camera object is held (an earlier one, or one that failed to open),
        closes it. */
    method Connect(limits: CameraLimits, opens: seq<Attempt>) returns (ok: bool)
      modifies this, resolution, exposureT, cam
      requires Valid() && LimitsValid(limits)
      ensures Valid() && ok == connected
      ensures ok <==> FirstOpen(opens).Some?
      ensures openAttempts == (if ok then FirstOpen(opens).value + 1 else MaxOpenAttempts)
      ensures openAttempts <= MaxOpenAttempts
      ensures connectionEvents == old(connectionEvents) + [ok]
      ensures ok ==> fresh(cam) && cam.limits == limits && cam.isOpen && !cam.grabbing
                     && cam.exposure == limits.exposureMin
                     && cam.width == NewWidth(limits.minW, limits.maxW, resolution.value)
                     && cam.height == NewHeight(cam.width, limits.maxW, limits.maxH)
      ensures !ok ==> cam == null
      ensures resolution.value == old(resolution.value) && resolution.emitted == old(resolution.emitted)
      ensures ok ==> exposureT.value == limits.exposureMin
                     && exposureT.emitted == old(exposureT.emitted) + [limits.exposureMin]
                     && messages == old(messages) + ["Basler camera connected!"]
      ensures !ok ==> exposureT.value == old(exposureT.value) && exposureT.emitted == old(exposureT.emitted)
                      && messages == old(messages) + [" Connection failed!"]
                                     + (if old(cam) != null || DeviceFound(opens, MaxOpenAttempts)
                                        then ["Basler camera disconnected!"] else [])
    {
      TryOpen(limits, opens);
      if connected {
        exposureT.Set(limits.exposureMin);
        OnExposureChanged();
        OnResolutionChanged();
        messages := messages + ["Basler camera connected!"];
        EmitConnection(true);
        return true;
      } else {
        messages := messages + [" Connection failed!"];
        Disconnect();
        return false;
      }
    }

    /** The retry loop of `connect`: the flag is cleared, then each attempt
        either finds no device and leaves the camera handle as it was, or
        stores a new camera object and opens it. A camera that opens ends
        the loop; one that fails to open stays stored. */
    method TryOpen(limits: CameraLimits, opens: seq<Attempt>)
      modifies this
      requires CellsValid() && LimitsValid(limits)
      ensures CellsValid()
      ensures connected <==> FirstOpen(opens).Some?
      ensures openAttempts == (if connected then FirstOpen(opens).value + 1 else MaxOpenAttempts)
      ensures connected ==> fresh(cam) && cam.limits == limits && cam.isOpen && !cam.grabbing
      ensures !connected && DeviceFound(opens, MaxOpenAttempts) ==>
                fresh(cam) && cam.limits == limits && !cam.isOpen && !cam.grabbing
      ensures !connected && !DeviceFound(opens, MaxOpenAttempts) ==> cam == old(cam)
      ensures connectionEvents == old(connectionEvents) && messages == old(messages)
    {
      connected := false;
      openAttempts := 0;
      for i := 0 to MaxOpenAttempts
        invariant !connected && openAttempts == i
        invariant DeviceFound(opens, i) ==> fresh(cam) && cam.limits == limits && !cam.isOpen && !cam.grabbing
        invariant !DeviceFound(opens, i) ==> cam == old(cam)
        invariant connectionEvents == old(connectionEvents) && messages == old(messages)
        invariant FirstOpen(opens) == FirstOpen(opens, i)
      {
        openAttempts := openAttempts + 1;
        if HasDevice(opens, i) {
          var c := new Camera(limits);
          cam := c;
          if opens[i] == Opened {
            c.Open();
            connected := true;
            break;
          }
        }
        assert DeviceFound(opens, i + 1) <==> DeviceFound(opens, i) || HasDevice(opens, i);
      }
    }

    /** The connection signal and the camera's own slot, which stores the
        status. The widget's slot on the same signal is called by
        `BaslerGui.ClickConnect` and `ClickDisconnect`. */
    method EmitConnection(status: bool)
      modifies this
      requires CellsValid() && (status ==> cam != null)
      ensures Valid() && connected == status && cam == old(cam)
      ensures connectionEvents == old(connectionEvents) + [status]
      ensures messages == old(messages) && openAttempts == old(openAttempts)
    {
      connectionEvents := connectionEvents + [status];
      connected := status;
    }

    /** `disconnect`: a camera, if there is one, stops grabbing, is closed
        and dropped; connection false is emitted in every case. */
    method Disconnect()
      modifies this, cam
      requires Valid()
      ensures Valid() && !connected && cam == null
      ensures connectionEvents == old(connectionEvents) + [false]
      ensures old(cam) != null ==> !old(cam).isOpen && !old(cam).grabbing
                                   && messages == old(messages) + ["Basler camera disconnected!"]
      ensures old(cam) == null ==> messages == old(messages)
      ensures openAttempts == old(openAttempts)
    {
      if cam != null {
        cam.Shut();
        cam := null;
        messages := messages + ["Basler camera disconnected!"];
      }
      EmitConnection(false);
    }

    /** `__setExposureT`: writes the exposure variable to the camera. */
    method OnExposureChanged()
      modifies cam
      requires cam != null && exposureT.Valid()
      ensures cam.exposure == exposureT.value
      ensures cam.width == old(cam.width) && cam.height == old(cam.height)
      ensures cam.isOpen == old(cam.isOpen) && cam.grabbing == old(cam.grabbing)
    {
      cam.SetExposure(exposureT.Get());
    }

    /** `__setResolution`: while connected, the frame size follows the
        resolution percentage; while disconnected, nothing is written. */
    method OnResolutionChanged()
      modifies cam
      requires Valid()
      ensures Valid()
      ensures connected ==> (cam.width == NewWidth(cam.limits.minW, cam.limits.maxW, resolution.value)
                             && cam.height == NewHeight(cam.width, cam.limits.maxW, cam.limits.maxH))
      ensures !connected && cam != null ==> cam.width == old(cam.width) && cam.height == old(cam.height)
      ensures cam != null ==> cam.exposure == old(cam.exposure) && cam.isOpen == old(cam.isOpen)
                              && cam.grabbing == old(cam.grabbing)
    {
      if connected {
        var l := cam.limits;
        var w := NewWidth(l.minW, l.maxW, resolution.Get());
        cam.SetSize(w, NewHeight(w, l.maxW, l.maxH));
      }
    }

    /** `resolution.set(value)` with its slot. */
    method SetResolution(value: real)
      modifies resolution, cam
      requires Valid()
      ensures Valid() && resolution.value == value
      ensures resolution.emitted == old(resolution.emitted) + [value]
      ensures connected ==> (cam.width == NewWidth(cam.limits.minW, cam.limits.maxW, value)
                             && cam.height == NewHeight(cam.width, cam.limits.maxW, cam.limits.maxH))
      ensures !connected && cam != null ==> cam.width == old(cam.width) && cam.height == old(cam.height)
      ensures cam != null ==> cam.exposure == old(cam.exposure) && cam.isOpen == old(cam.isOpen)
                              && cam.grabbing == old(cam.grabbing)
    {
      resolution.Set(value);
      OnResolutionChanged();
    }
  }

  /** After a resolution change to a percentage between 0 and 100, the width
      written lies in [minW, maxW] and the height in [0, maxH]. The height is
      not bounded below by minH (see `HeightCanFallBelowMinimum`). */
  lemma FrameFits(l: CameraLimits, res: real)
    requires LimitsValid(l) && 0.0 <= res <= 100.0
    ensures var w := NewWidth(l.minW, l.maxW, res);
            l.minW <= w <= l.maxW && 0 <= NewHeight(w, l.maxW, l.maxH) <= l.maxH
  {
    HeightBounds(NewWidth(l.minW, l.maxW, res), l.maxW, l.maxH);
  }

  /** The aspect-ratio height ignores the height minimum: on limits of whole
      width steps, 36..100 wide and 50..100 high, 0% gives width 36 and
      height 36, below the minimum 50. */
  lemma HeightCanFallBelowMinimum()
    ensures var l := CameraLimits(36, 100, 50, 100, 0.0);
            LimitsValid(l) && (l.maxW - l.minW) % WidthStep == 0
            && NewWidth(l.minW, l.maxW, 0.0) == 36
            && NewHeight(36, l.maxW, l.maxH) == 36 < l.minH
  {
    ZeroResolutionIsMinimum(36, 100);
    assert 36 as real / 100 as real * 100 as real == 36 as real;
    RoundOfInteger(36);
  }


  /** `Thread`: the flags the stop and pause signals act on. */
  class GrabThread {
    var streaming: bool
    var pause: bool

    constructor()
      ensures streaming && !pause
    {
      streaming := true;
      pause := false;
    }

    method TogglePause()
      modifies this
      ensures pause == !old(pause) && streaming == old(streaming)
    {
      pause := !pause;
    }

    method StopStreaming()
      modifies this
      ensures !streaming && pause == old(pause)
    {
      streaming := false;
    }
  }

  /** `BaslerGUI`: the streaming flag of the widget and the grab thread most
      recently started; the thread runs exactly while the widget streams. */
  class BaslerGui {
    const basler: Basler
    var streaming: bool
    var thread: GrabThread?
    ghost var messages: seq<string>

    ghost predicate Valid()
      reads this, thread
    {
      streaming ==> thread != null && thread.streaming
    }

    constructor(basler: Basler)
      ensures Valid() && this.basler == basler && !streaming && thread == null && messages == []
    {
      this.basler := basler;
      streaming := false;
      thread := null;
      messages := [];
    }

    /** `startStream`: starts a new grab thread unless already streaming. */
    method StartStream()
      modifies this
      requires Valid()
      ensures Valid() && streaming
      ensures old(streaming) ==> thread == old(thread) && messages == old(messages)
      ensures !old(streaming) ==> fresh(thread) && !thread.pause
                                  && messages == old(messages) + ["Streaming started"]
    {
      if !streaming {
        streaming := true;
        thread := new GrabThread();
        messages := messages + ["Streaming started"];
      }
    }

    /** `stopStream`: tells the thread to stop, unless not streaming. */
    method StopStream()
      modifies this, thread
      requires Valid()
      ensures Valid() && !streaming && thread == old(thread)
      ensures old(streaming) ==> !thread.streaming && thread.pause == old(thread.pause)
                                 && messages == old(messages) + ["Streaming stopped"]
      ensures !old(streaming) ==> messages == old(messages)
                                  && (thread != null ==> thread.streaming == old(thread.streaming)
                                                         && thread.pause == old(thread.pause))
    {
      if streaming {
        streaming := false;
        thread.StopStreaming();
        messages := messages + ["Streaming stopped"];
      }
    }

    /** `__toggleConnection`: losing the connection stops the stream. */
    method OnConnectionChanged(connection: bool)
      modifies this, thread
      requires Valid()
      ensures Valid() && thread == old(thread)
      ensures !connection ==> !streaming
      ensures !connection && old(streaming) ==> !thread.streaming && thread.pause == old(thread.pause)
                                                && messages == old(messages) + ["Streaming stopped"]
      ensures connection || !old(streaming) ==>
                streaming == (connection && old(streaming)) && messages == old(messages)
                && (thread != null ==> thread.streaming == old(thread.streaming) && thread.pause == old(thread.pause))
    {
      if !connection {
        StopStream();
      }
    }

    /** The connect button while disconnected: `Basler.connect`. The
        connection signal it emits reaches the camera's slot and then this
        widget's `__toggleConnection`, so a failed connect also stops a
        running stream. */
    method ClickConnect(limits: CameraLimits, opens: seq<Attempt>) returns (ok: bool)
      modifies basler, basler.resolution, basler.exposureT, basler.cam, this, thread
      requires Valid() && basler.Valid() && LimitsValid(limits)
      ensures Valid() && basler.Valid() && thread == old(thread)
      ensures ok == basler.connected && (ok <==> FirstOpen(opens).Some?)
      ensures basler.connectionEvents == old(basler.connectionEvents) + [ok]
      ensures ok ==> fresh(basler.cam) && basler.cam.isOpen && basler.cam.limits == limits
      ensures !ok ==> basler.cam == null && !streaming
      ensures !ok && old(streaming) ==> !thread.streaming && messages == old(messages) + ["Streaming stopped"]
      ensures ok || !old(streaming) ==>
                streaming == (ok && old(streaming)) && messages == old(messages)
                && (thread != null ==> thread.streaming == old(thread.streaming) && thread.pause == old(thread.pause))
    {
      ok := basler.Connect(limits, opens);
      OnConnectionChanged(ok);
    }

    /** The connect button while connected: `Basler.disconnect`. The
        connection signal it emits reaches the camera's slot and then this
        widget's `__toggleConnection`, which stops a running stream. */
    method ClickDisconnect()
      modifies basler, basler.cam, this, thread
      requires Valid() && basler.Valid()
      ensures Valid() && basler.Valid() && thread == old(thread)
      ensures !basler.connected && basler.cam == null && !streaming
      ensures basler.connectionEvents == old(basler.connectionEvents) + [false]
      ensures old(basler.cam) != null ==> !old(basler.cam).isOpen
                                          && basler.messages == old(basler.messages) + ["Basler camera disconnected!"]
      ensures old(basler.cam) == null ==> basler.messages == old(basler.messages)
      ensures old(streaming) ==> !thread.streaming && messages == old(messages) + ["Streaming stopped"]
      ensures !old(streaming) ==> messages == old(messages)
    {
      basler.Disconnect();
      OnConnectionChanged(false);
    }

    /** `__sldResValueChanged`: when the user moves the slider, a running
        stream is paused, the resolution is set, the new frame size is read
        back, and the stream is resumed, so the pause flag ends as it was. */
    method ChangeResolution(value: int, hasFocus: bool) returns (size: Option<(int, int)>)
      modifies basler.resolution, basler.cam, thread
      requires Valid() && basler.Valid() && (hasFocus ==> basler.cam != null)
      ensures Valid() && basler.Valid()
      ensures thread != null ==> thread.pause == old(thread.pause) && thread.streaming == old(thread.streaming)
      ensures !hasFocus ==> size.None? && basler.resolution.value == old(basler.resolution.value)
      ensures hasFocus ==> basler.resolution.value == value as real
                           && size == Some((basler.cam.width, basler.cam.height))
      ensures hasFocus ==> basler.resolution.emitted == old(basler.resolution.emitted) + [value as real]
      ensures !hasFocus ==> basler.resolution.emitted == old(basler.resolution.emitted)
      ensures hasFocus && basler.connected ==>
                basler.cam.width == NewWidth(basler.cam.limits.minW, basler.cam.limits.maxW, value as real)
                && basler.cam.height == NewHeight(basler.cam.width, basler.cam.limits.maxW, basler.cam.limits.maxH)
      ensures basler.cam != null && (!hasFocus || !basler.connected) ==>
                basler.cam.width == old(basler.cam.width) && basler.cam.height == old(basler.cam.height)
      ensures basler.cam != null ==> basler.cam.exposure == old(basler.cam.exposure)
                                     && basler.cam.isOpen == old(basler.cam.isOpen)
                                     && basler.cam.grabbing == old(basler.cam.grabbing)
      ensures messages == old(messages) && streaming == old(streaming) && thread == old(thread)
    {
      size := None;
      if hasFocus {
        if streaming {
          thread.TogglePause();
        }
        basler.SetResolution(value as real);
        size := Some((basler.cam.width, basler.cam.height));
        if streaming {
          thread.TogglePause();
        }
      }
    }
  }
}
