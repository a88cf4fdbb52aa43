// The Nunchuk extension (CWR_WiiNunchuk): its reports arrive encrypted inside the
// remote's report; it has two active-low buttons, its own accelerometer and an analog stick.

module Nunchuk {
  import opened Wrappers
  import opened Buttons
  import opened Motion
  import Data

  /** WR_MAX_PAYLOAD: every report buffer is 22 bytes. */
  const PAYLOAD: nat := 22

  /** WR_NCBUTTON_Z and WR_NCBUTTON_C, in button-index order. */
  const BUTTON_Z: bv32 := 0x01
  const BUTTON_C: bv32 := 0x02
  const NUNCHUK_MASKS: seq<bv32> := [BUTTON_Z, BUTTON_C]

  /** WR_NUNCHUK_OFFSETS: where each field lies after the extension offset. */
  const ANALOG_X: nat := 0
  const ANALOG_Y: nat := 1
  const MOTION_X: nat := 2
  const MOTION_Y: nat := 3
  const MOTION_Z: nat := 4
  const BUTTONS: nat := 5

  /** WR_EXTENSION_UPDATE_REPORT: the only update ID the Nunchuk acts on. */
  const UPDATE_REPORT: int := 1

  /** WR_NUNCHUK_CALIBRATION_LOC / _SIZE. */
  const CALIBRATION_LOC: int := 0x04a40020
  const CALIBRATION_SIZE: int := 16

  /** One byte of the extension's obfuscation undone: (b XOR 0x17) + 0x17, modulo 256. */
  function Decrypt(b: bv8): bv8
  {
    (b ^ 0x17) + 0x17
  }

  /** The extension's own encoding, the inverse of Decrypt. */
  function Encrypt(b: bv8): bv8
  {
    (b - 0x17) ^ 0x17
  }

  /** Decryption loses nothing: each is the other's inverse, so it is a bijection on bytes. */
  lemma DecryptRoundTrip(b: bv8)
    ensures Encrypt(Decrypt(b)) == b && Decrypt(Encrypt(b)) == b
  {
  }

  lemma DecryptInjective(a: bv8, b: bv8)
    ensures Decrypt(a) == Decrypt(b) ==> a == b
  {
    DecryptRoundTrip(a);
    DecryptRoundTrip(b);
  }

  function Decrypted(buffer: seq<bv8>): (r: seq<bv8>)
    ensures |r| == |buffer| && forall i :: 0 <= i < |buffer| ==> r[i] == Decrypt(buffer[i])
  {
    seq(|buffer|, i requires 0 <= i < |buffer| => Decrypt(buffer[i]))
  }

  function Encrypted(buffer: seq<bv8>): (r: seq<bv8>)
    ensures |r| == |buffer| && forall i :: 0 <= i < |buffer| ==> r[i] == Encrypt(buffer[i])
  {
    seq(|buffer|, i requires 0 <= i < |buffer| => Encrypt(buffer[i]))
  }

  /** Decrypting a whole buffer is undone by encrypting it. */
  lemma DecryptedRoundTrip(buffer: seq<bv8>)
    ensures Encrypted(Decrypted(buffer)) == buffer && Decrypted(Encrypted(buffer)) == buffer
  {
    forall i | 0 <= i < |buffer| {
      DecryptRoundTrip(buffer[i]);
    }
  }

  /** DecryptBuffer: every byte of the 22-byte buffer, in place in a fresh buffer. */
  method DecryptBuffer(buffer: seq<bv8>) returns (out: seq<bv8>)
    requires |buffer| == PAYLOAD
    ensures out == Decrypted(buffer) && Encrypted(out) == buffer
  {
    out := seq(PAYLOAD, _ => 0);
    var i := 0;
    while i < |buffer|
      invariant 0 <= i <= |buffer| && |out| == PAYLOAD
      invariant forall k :: 0 <= k < i ==> out[k] == Decrypt(buffer[k])
    {
      out := out[i := Decrypt(buffer[i])];
      i := i + 1;
    }
    DecryptedRoundTrip(buffer);
  }

  /** The Nunchuk's masks are distinct single bits, so single-button queries read one button. */
  lemma NunchukMasksSingleBits()
    ensures forall i, j :: 0 <= i < j < |NUNCHUK_MASKS| ==> NUNCHUK_MASKS[i] != NUNCHUK_MASKS[j]
    ensures forall i :: 0 <= i < |NUNCHUK_MASKS| ==> IsPow2(NUNCHUK_MASKS[i])
  {
  }

  /** The analog stick sample: raw byte minus the calibration centre byte, scaled by the ratio once calibrated. */
  function Stick(raw: Byte, centre: Byte, ratio: real, calibrated: bool): (r: real)
    ensures raw == centre ==> r == 0.0
  {
    var v := ByteReal(raw) - ByteReal(centre);
    if calibrated then v * ratio else v
  }

  /** 2 / (max - min), with the degenerate range mapped to 0 (where C yields infinity). */
  function StickRatio(max: Byte, min: Byte): (r: real)
    ensures max != min ==> r * (ByteReal(max) - ByteReal(min)) == 2.0
  {
    if max == min then 0.0 else 2.0 / (ByteReal(max) - ByteReal(min))
  }

  /** OnExtensionAnalogUpdate(stick, x, y). */
  datatype AnalogEvent = AnalogChanged(stick: int, x: real, y: real)

  /** The analog event due when the stick moves from (px, py) to (x, y): one exactly when either changed. */
  function AnalogChanges(px: real, py: real, x: real, y: real): (r: seq<AnalogEvent>)
    ensures |r| <= 1
    ensures r != [] <==> (x != px || y != py)
    ensures r != [] ==> r[0] == AnalogChanged(1, x, y)
  {
    if x != px || y != py then [AnalogChanged(1, x, y)] else []
  }

  /** What an update report and the post-update pass change on a Nunchuk: its buttons, its
      accelerometer, the stick position and the stick notifications so far. */
  datatype NunchukState = NunchukState(pad: PadState, motion: MotionState, analogX: real, analogY: real,
                                       analogEvents: seq<AnalogEvent>)

  /** The Nunchuk's calibration: the accelerometer's, the stick's extremes and its ratios. */
  datatype NunchukCalibration = NunchukCalibration(motion: Calibration, analogMax: Vec3b, analogMin: Vec3b,
                                                   ratioX: real, ratioY: real)

  /** The calibration a reply block carries once decrypted: zero point bytes 0-2, 1G bytes
      4-6, stick maxima bytes 8, 11, 10 and minima 9, 12, 13, whatever the reply's address. */
  function CalibrationOf(data: seq<bv8>): NunchukCalibration
    requires |data| >= 14
  {
    var mx := Bytes3(Decrypt(data[8]), Decrypt(data[11]), Decrypt(data[10]));
    var mn := Bytes3(Decrypt(data[9]), Decrypt(data[12]), Decrypt(data[13]));
    NunchukCalibration(CalibrationFrom(Bytes3(Decrypt(data[0]), Decrypt(data[1]), Decrypt(data[2])),
                                       Bytes3(Decrypt(data[4]), Decrypt(data[5]), Decrypt(data[6]))),
                       mx, mn, StickRatio(mx.x, mn.x), StickRatio(mx.y, mn.y))
  }

  /** The state of CWR_WiiNunchuk: a button pad with active-low Z and C, an accelerometer
      window, and the analog stick's calibration and last position. */
  class Nunchuk {
    const pad: ButtonPad
    const motion: MotionSensor
    var analogMax: Vec3b
    var analogMin: Vec3b
    var ratioX: real
    var ratioY: real
    var analogX: real
    var analogY: real
    var analogEvents: seq<AnalogEvent>

    ghost predicate Valid()
      reads this, pad, motion
    {
      pad.Valid() && motion.Valid() && pad.masks == NUNCHUK_MASKS && pad.activeLow
    }

    /** The Nunchuk's state as reports and the post-update pass see it. */
    ghost function Snapshot(): NunchukState
      reads this, pad, pad.status, pad.stamp, motion
    {
      NunchukState(pad.Snapshot(), motion.Snapshot(), analogX, analogY, analogEvents)
    }

    function Calib(): NunchukCalibration
      reads this, motion
    {
      NunchukCalibration(motion.Calib(), analogMax, analogMin, ratioX, ratioY)
    }

    /** One decrypted update report taken in under this Nunchuk's calibration: the buttons
        step on byte off+5 (active low), the accelerometer sample off+2..off+4 is windowed
        and then raised as a single sample, and the stick (off+0, off+1, centred on the
        maximum's z and the minimum's z) moves, with a notification when it moved. */
    function AfterReport(s: NunchukState, dec: seq<bv8>, off: nat, buffered: bool, now: real): NunchukState
      requires |dec| == PAYLOAD && off + BUTTONS < PAYLOAD
      requires |s.pad.status| == |NUNCHUK_MASKS| && |s.pad.stamp| == |NUNCHUK_MASKS|
      reads this, motion
    {
      var x := Stick(dec[off + ANALOG_X] as int, analogMax.z, ratioX, motion.calibrated);
      var y := Stick(dec[off + ANALOG_Y] as int, analogMin.z, ratioY, motion.calibrated);
      NunchukState(AfterWord(s.pad, NUNCHUK_MASKS, true, dec[off + BUTTONS] as bv32, buffered, now),
                   motion.Sample(s.motion, Bytes3(dec[off + MOTION_X], dec[off + MOTION_Y], dec[off + MOTION_Z]), false),
                   x, y, s.analogEvents + AnalogChanges(s.analogX, s.analogY, x, y))
    }

    constructor (orient: Vec3 -> Orientation)
      ensures Valid() && fresh(pad) && fresh(pad.status) && fresh(pad.stamp) && fresh(motion)
      ensures pad.status[..] == [Up, Up] && pad.stamp[..] == [0.0, 0.0] && pad.seed == 0 && pad.word == 0
      ensures !pad.wasUpdated && pad.actions == [] && pad.events == []
      ensures motion.minSize == MIN_MOTION_SIZE && !motion.calibrated && !motion.active && motion.lifetime == 0
      ensures motion.queue == [] && motion.events == [] && motion.orient == orient
      ensures analogX == 0.0 && analogY == 0.0 && analogEvents == []
    {
      NunchukMasksSingleBits();
      pad := new ButtonPad(NUNCHUK_MASKS, true);
      motion := new MotionSensor(orient);
      analogMax := Vec3b(0, 0, 0);
      analogMin := Vec3b(0, 0, 0);
      ratioX := 0.0;
      ratioY := 0.0;
      analogX := 0.0;
      analogY := 0.0;
      analogEvents := [];
      new;
      assert pad.status[..] == [Up, Up];
      assert pad.stamp[..] == [0.0, 0.0];
    }

    /** Initialize: without a remote, false; otherwise the flags clear and both buttons go Up
        with time 0 and the ID seed restarts. */
    method Initialize(remote: bool) returns (ok: bool)
      requires Valid()
      modifies pad, pad.status, pad.stamp, motion`attached, motion`calibrated, motion`active
      ensures Valid() && ok == remote
      ensures ok ==> pad.word == 0 && pad.seed == 0 && pad.status[..] == [Up, Up] && pad.stamp[..] == [0.0, 0.0]
      ensures ok ==> !motion.calibrated && !motion.active
      ensures pad.actions == old(pad.actions) && pad.events == old(pad.events)
    {
      ok := pad.Initialize(remote);
      var _ := motion.Initialize(remote);
      if ok {
        assert pad.status[..] == [Up, Up];
        assert pad.stamp[..] == [0.0, 0.0];
      }
    }

    /** Calibrate: ask for the Nunchuk's encrypted calibration block. */
    method Calibrate(d: Data.DataChannel, rumble: bool)
      requires d.Valid()
      modifies d`callbacks, d.out
      ensures d.Valid()
      ensures d.callbacks == old(d.callbacks)[CALIBRATION_LOC % 0x1_0000 :=
                Data.Queued(old(d.callbacks), CALIBRATION_LOC % 0x1_0000) + [Data.NunchukCalibration]]
      ensures d.out.queue == old(d.out.queue) + Data.ReadPackets(CALIBRATION_LOC, CALIBRATION_SIZE, 0, rumble)
    {
      d.ReadData(CALIBRATION_LOC, CALIBRATION_SIZE, Data.NunchukCalibration, rumble);
    }

    /** OnCalibrateData: the reply is taken whatever its address; each byte is decrypted.
        Zero point bytes 0-2, 1G bytes 4-6; stick maxima bytes 8, 11, 10 and minima 9, 12, 13. */
    method OnCalibrateData(addr: int, data: seq<bv8>)
      requires Valid() && |data| >= 14
      modifies motion`zero, motion`oneG, motion`ratio, motion`calibrated, this`analogMax, this`analogMin,
               this`ratioX, this`ratioY
      ensures Valid() && motion.calibrated
      ensures motion.zero == Bytes3(Decrypt(data[0]), Decrypt(data[1]), Decrypt(data[2]))
      ensures motion.oneG == Bytes3(Decrypt(data[4]), Decrypt(data[5]), Decrypt(data[6]))
      ensures motion.ratio == Ratio(motion.zero, motion.oneG)
      ensures analogMax == Bytes3(Decrypt(data[8]), Decrypt(data[11]), Decrypt(data[10]))
      ensures analogMin == Bytes3(Decrypt(data[9]), Decrypt(data[12]), Decrypt(data[13]))
      ensures ratioX == StickRatio(analogMax.x, analogMin.x) && ratioY == StickRatio(analogMax.y, analogMin.y)
      ensures Calib() == CalibrationOf(data) && Snapshot() == old(Snapshot())
    {
      var c := CalibrationOf(data);
      motion.SetCalibration(c.motion.zero, c.motion.oneG);
      analogMax, analogMin, ratioX, ratioY := c.analogMax, c.analogMin, c.ratioX, c.ratioY;
    }

    /** OnUpdate: nothing happens for any ID but the report update. On a report the buffer
        is decrypted; the buttons step on byte off+5 (a set bit is a released button), the
        accelerometer sample off+2..off+4 is windowed and then raised as a single sample, and
        the stick (off+0, off+1, centred on the maximum's z and the minimum's z) raises an
        event when it moved. */
    method OnUpdate(id: int, buffer: seq<bv8>, off: nat, buffered: bool, now: real)
      requires Valid() && |buffer| == PAYLOAD && off + BUTTONS < PAYLOAD
      modifies pad`word, pad`wasUpdated, pad`events, pad.status, pad.stamp,
               motion`accel, motion`dir, motion`pitch, motion`roll, motion`lifetime, motion`queue,
               motion`active, motion`events, this`analogX, this`analogY, this`analogEvents
      ensures Valid()
      ensures Calib() == old(Calib()) && (id != UPDATE_REPORT ==> Snapshot() == old(Snapshot()))
      ensures id == UPDATE_REPORT ==> Snapshot() == AfterReport(old(Snapshot()), Decrypted(buffer), off, buffered, now)
    {
      var dec := DecryptBuffer(buffer);
      if id == UPDATE_REPORT {
        Report(dec, off, buffered, now);
      }
    }

    /** The report branch of OnUpdate. */
    method Report(dec: seq<bv8>, off: nat, buffered: bool, now: real)
      requires Valid() && |dec| == PAYLOAD && off + BUTTONS < PAYLOAD
      modifies pad`word, pad`wasUpdated, pad`events, pad.status, pad.stamp,
               motion`accel, motion`dir, motion`pitch, motion`roll, motion`lifetime, motion`queue,
               motion`active, motion`events, this`analogX, this`analogY, this`analogEvents
      ensures Valid() && Snapshot() == AfterReport(old(Snapshot()), dec, off, buffered, now) && Calib() == old(Calib())
    {
      pad.Update(dec[off + BUTTONS] as bv32, buffered, now);
      motion.OnExtensionMotion(Bytes3(dec[off + MOTION_X], dec[off + MOTION_Y], dec[off + MOTION_Z]));
      UpdateStick(dec[off + ANALOG_X] as int, dec[off + ANALOG_Y] as int);
    }

    /** The analog half of OnUpdate, on the decrypted stick bytes. */
    method UpdateStick(rawX: Byte, rawY: Byte)
      modifies this`analogX, this`analogY, this`analogEvents
      ensures analogX == Stick(rawX, analogMax.z, ratioX, motion.calibrated)
      ensures analogY == Stick(rawY, analogMin.z, ratioY, motion.calibrated)
      ensures analogEvents == old(analogEvents) + AnalogChanges(old(analogX), old(analogY), analogX, analogY)
    {
      var px, py := analogX, analogY;
      analogX := Stick(rawX, analogMax.z, ratioX, motion.calibrated);
      analogY := Stick(rawY, analogMin.z, ratioY, motion.calibrated);
      if analogX != px || analogY != py {
        analogEvents := analogEvents + [AnalogChanged(1, analogX, analogY)];
      }
    }

    /** StopMotion: the queue empties, the lifetime is 0 and no motion is active. */
    method StopMotion()
      requires Valid()
      modifies motion`queue, motion`lifetime, motion`active
      ensures Valid() && motion.queue == [] && motion.lifetime == 0 && !motion.active
    {
      motion.StopMotion();
    }

    /** OnPostUpdate: the same finaliser as the remote's buttons. */
    method OnPostUpdate(now: real, delta: real)
      requires Valid()
      modifies pad`actions, pad`wasUpdated, pad`events, pad.status
      ensures Valid() && !pad.wasUpdated
      ensures pad.status[..] == if old(pad.wasUpdated) then old(pad.status[..]) else Settled(old(pad.status[..]))
      ensures pad.actions == Refreshed(old(pad.actions), NUNCHUK_MASKS, pad.status[..], pad.stamp[..], now, delta)
      ensures pad.events == old(pad.events) + Changes(NUNCHUK_MASKS, old(pad.status[..]), pad.status[..], 2) +
                            ActionChanges(old(pad.actions), pad.actions, |pad.actions|)
      ensures Snapshot() == old(Snapshot()).(pad := AfterPost(old(pad.Snapshot()), NUNCHUK_MASKS, now, delta))
      ensures Calib() == old(Calib())
    {
      pad.OnPostUpdate(now, delta);
    }

    /** GetButtonStatus: the remote's rules over Z and C. */
    method GetButtonStatus(mask: bv32, now: real, err: real) returns (r: Status)
      requires Valid()
      ensures r == ButtonStatus(NUNCHUK_MASKS, pad.status[..], pad.stamp[..], mask, now, err)
      ensures mask == BUTTON_Z ==> r == pad.status[0]
      ensures mask == BUTTON_C ==> r == pad.status[1]
    {
      r := pad.GetButtonStatus(mask, now, err);
      if mask == BUTTON_Z || mask == BUTTON_C {
        NunchukMasksSingleBits();
        SingleButtonStatus(NUNCHUK_MASKS, pad.status[..], pad.stamp[..], if mask == BUTTON_Z then 0 else 1, now, err);
      }
    }

    /** RegisterAction: the remote's registry, on the Nunchuk's own seed and map. */
    method RegisterAction(name: string, mask: bv32) returns (id: ActionId)
      requires Valid()
      modifies pad
      ensures Valid()
      ensures FindName(pad.actions, name).Some? && FindName(pad.actions, name).value.id == id
      ensures FindName(pad.actions, name).value.mask == mask
      ensures FindName(old(pad.actions), name).Some? ==> id == FindName(old(pad.actions), name).value.id
      ensures FindName(old(pad.actions), name).None? ==>
                id == NextId(old(pad.seed)) && pad.actions == Put(old(pad.actions), Action(id, name, mask, Up))
    {
      id := pad.RegisterAction(name, mask);
    }

    /** SetMotionSize: never below 10. */
    method SetMotionSize(n: int)
      requires Valid()
      modifies motion`minSize
      ensures Valid() && motion.minSize == MotionSize(n)
    {
      motion.SetMotionSize(n);
    }
  }

  /** The Nunchuk's calibration block fits one read request, and its reply is expected at 0x0020. */
  lemma CalibrationReadIsOnePacket(rumble: bool)
    ensures Data.ReadPackets(CALIBRATION_LOC, CALIBRATION_SIZE, 0, rumble) ==
              [Data.ReadRequest(CALIBRATION_LOC, CALIBRATION_SIZE, rumble)]
    ensures CALIBRATION_LOC % 0x1_0000 == 0x0020
  {
  }
}
