// Accelerometer handling of the Wii Remote (WR_CWiiMotion), also used for
// the Nunchuk's accelerometer: calibration, acceleration and orientation of
// each sample, and the windowing of samples into motions.
module Motion {
  import opened Wrappers
  import Data

  /** SMotionVec3F, a float vector. */
  datatype Vec3 = Vec3(x: real, y: real, z: real)

  const ZERO: Vec3 := Vec3(0.0, 0.0, 0.0)

  /** SMotionVec3, the byte vector of calibration points. */
  datatype Vec3b = Vec3b(x: Byte, y: Byte, z: Byte)

  /** Three bytes of a report or reply as a byte vector. */
  function Bytes3(x: bv8, y: bv8, z: bv8): Vec3b
  {
    Vec3b(x as int, y as int, z as int)
  }

  function ByteReal(b: Byte): real
  {
    b as real
  }

  /** Direction, pitch and roll derived from an acceleration near 1 g. */
  datatype Orientation = Orientation(dir: Vec3, pitch: real, roll: real)

  /** SMotionElement. */
  datatype Element = Element(lifetime: int, gforce: real, pitch: real, roll: real, accel: Vec3, dir: Vec3)

  /** Listener notifications of the motion helper (and of the Nunchuk's motion part). */
  datatype MotionEvent = Single(e: Element) | Start(e: Element) | Update(e: Element) | End(e: Element)

  /** WR_MOTION_1GEPSILON and WR_MOTION_GESTUREEPSILON. */
  const ONE_G_EPSILON: real := 0.2
  const GESTURE_EPSILON: real := 0.1

  /** The address and size the Wii Remote's calibration is read from. */
  const REMOTE_CALIBRATION_ADDR: int := 0x16
  const REMOTE_CALIBRATION_SIZE: int := 8

  /** The smallest window SetMotionSize accepts. */
  const MIN_MOTION_SIZE: int := 10

  /** 1/x, with 0 where the division would be by zero. */
  function Recip(x: real): (r: real)
    ensures x != 0.0 ==> r * x == 1.0
  {
    if x == 0.0 then 0.0 else 1.0 / x
  }

  /** The calibration ratio per axis: 1/(1G - zero). */
  function Ratio(zero: Vec3b, oneG: Vec3b): Vec3
  {
    Vec3(Recip(ByteReal(oneG.x) - ByteReal(zero.x)), Recip(ByteReal(oneG.y) - ByteReal(zero.y)),
         Recip(ByteReal(oneG.z) - ByteReal(zero.z)))
  }

  /** One axis: the raw byte less the zero point, scaled by the ratio once calibrated. */
  function Axis(raw: Byte, zero: Byte, ratio: real, calibrated: bool): real
  {
    if calibrated then (ByteReal(raw) - ByteReal(zero)) * ratio else ByteReal(raw) - ByteReal(zero)
  }

  function Acceleration(raw: Vec3b, zero: Vec3b, ratio: Vec3, calibrated: bool): Vec3
  {
    Vec3(Axis(raw.x, zero.x, ratio.x, calibrated), Axis(raw.y, zero.y, ratio.y, calibrated),
         Axis(raw.z, zero.z, ratio.z, calibrated))
  }

  /** With a calibration in place a reading at the zero point measures 0 and a reading
      at the 1G point measures exactly 1 on that axis. */
  lemma CalibratedScale(zero: Byte, oneG: Byte)
    requires oneG != zero
    ensures Axis(zero, zero, Recip(ByteReal(oneG) - ByteReal(zero)), true) == 0.0
    ensures Axis(oneG, zero, Recip(ByteReal(oneG) - ByteReal(zero)), true) == 1.0
  {
    var d := ByteReal(oneG) - ByteReal(zero);
    assert d != 0.0;
    assert d * Recip(d) == 1.0;
  }

  /** Before calibration the zero point is (0,0,0), so the acceleration is the raw reading. */
  lemma UncalibratedIsRaw(raw: Vec3b, ratio: Vec3)
    ensures Acceleration(raw, Vec3b(0, 0, 0), ratio, false) == Vec3(ByteReal(raw.x), ByteReal(raw.y), ByteReal(raw.z))
  {
  }

  function LengthSq(v: Vec3): real
  {
    v.x * v.x + v.y * v.y + v.z * v.z
  }

  /** The sample is close enough to 1 g for its direction to be trusted. */
  predicate NearOneG(lengthSq: real)
  {
    1.0 - ONE_G_EPSILON <= lengthSq <= 1.0 + ONE_G_EPSILON
  }

  /** No axis moved by more than the gesture epsilon. */
  predicate Stable(prev: Vec3, cur: Vec3)
  {
    Abs(prev.x - cur.x) <= GESTURE_EPSILON && Abs(prev.y - cur.y) <= GESTURE_EPSILON &&
    Abs(prev.z - cur.z) <= GESTURE_EPSILON
  }

  // ----- Windowing samples into motions -----

  /** The queue of samples not yet delivered, the active-motion flag and the motion lifetime. */
  datatype Window = Window(queue: seq<Element>, active: bool, lifetime: int)

  predicate WindowValid(w: Window)
  {
    w.active ==> w.queue == []
  }

  function Updates(q: seq<Element>): (r: seq<MotionEvent>)
    ensures |r| == |q| && forall i :: 0 <= i < |q| ==> r[i] == Update(q[i])
  {
    seq(|q|, i requires 0 <= i < |q| => Update(q[i]))
  }

  /** What one sample does to the window, and the window events it raises. */
  function WindowStep(w: Window, e: Element, stable: bool, minSize: int): (Window, seq<MotionEvent>)
  {
    if stable then (Window([], false, 0), if w.active then [End(e)] else [])
    else if !w.active then
      if |w.queue| + 1 <= minSize then (w.(queue := w.queue + [e]), [])
      else (w.(queue := [], active := true), [Start((w.queue + [e])[0])] + Updates((w.queue + [e])[1..]))
    else (w, [Update(e)])
  }

  /** A run of changing samples. */
  function Run(w: Window, es: seq<Element>, minSize: int): (Window, seq<MotionEvent>)
    decreases |es|
  {
    if es == [] then (w, [])
    else
      var (w1, ev1) := WindowStep(w, es[0], false, minSize);
      var (w2, ev2) := Run(w1, es[1..], minSize);
      (w2, ev1 + ev2)
  }

  /** The samples carried by Start and Update events, in order. */
  function Delivered(evs: seq<MotionEvent>): seq<Element>
  {
    if evs == [] then []
    else (if evs[0].Start? || evs[0].Update? then [evs[0].e] else []) + Delivered(evs[1..])
  }

  lemma {:induction false} DeliveredAppend(a: seq<MotionEvent>, b: seq<MotionEvent>)
    ensures Delivered(a + b) == Delivered(a) + Delivered(b)
  {
    if a == [] {
      assert a + b == b;
    } else {
      var head := if a[0].Start? || a[0].Update? then [a[0].e] else [];
      assert (a + b)[0] == a[0];
      assert (a + b)[1..] == a[1..] + b;
      assert Delivered(a + b) == head + Delivered(a[1..] + b);
      DeliveredAppend(a[1..], b);
      assert Delivered(a) == head + Delivered(a[1..]);
    }
  }

  lemma {:induction false} DeliveredUpdates(q: seq<Element>)
    ensures Delivered(Updates(q)) == q
  {
    if q != [] {
      assert Updates(q)[1..] == Updates(q[1..]);
      DeliveredUpdates(q[1..]);
    }
  }

  /** A sample that is not stable never raises End, and a step keeps an active window empty. */
  lemma StepKeepsOrder(w: Window, e: Element, minSize: int)
    requires WindowValid(w)
    ensures WindowValid(WindowStep(w, e, false, minSize).0)
    ensures Delivered(WindowStep(w, e, false, minSize).1) + WindowStep(w, e, false, minSize).0.queue == w.queue + [e]
  {
    var q := w.queue + [e];
    if !w.active && |w.queue| + 1 > minSize {
      assert q == [q[0]] + q[1..];
      DeliveredUpdates(q[1..]);
      DeliveredAppend([Start(q[0])], Updates(q[1..]));
    }
  }

  /** Over a run of changing samples nothing is lost and nothing is reordered: the
      samples delivered in Start/Update events, followed by what is still queued,
      are exactly the queued samples followed by the new ones. */
  lemma {:induction false} RunKeepsOrder(w: Window, es: seq<Element>, minSize: int)
    requires WindowValid(w)
    ensures WindowValid(Run(w, es, minSize).0)
    ensures Delivered(Run(w, es, minSize).1) + Run(w, es, minSize).0.queue == w.queue + es
    decreases |es|
  {
    if es != [] {
      var (w1, ev1) := WindowStep(w, es[0], false, minSize);
      StepKeepsOrder(w, es[0], minSize);
      RunKeepsOrder(w1, es[1..], minSize);
      var (w2, ev2) := Run(w1, es[1..], minSize);
      assert Run(w, es, minSize) == (w2, ev1 + ev2);
      DeliveredAppend(ev1, ev2);
      assert es == [es[0]] + es[1..];
      Append(Delivered(ev1), Delivered(ev2), w2.queue);
      Append(Delivered(ev1), w1.queue, es[1..]);
      Append(w.queue, [es[0]], es[1..]);
    }
  }

  /** Changing samples never raise End (nor the single-sample event, which is not a window event). */
  lemma {:induction false} RunNeverEnds(w: Window, es: seq<Element>, minSize: int)
    ensures forall ev :: ev in Run(w, es, minSize).1 ==> ev.Start? || ev.Update?
    decreases |es|
  {
    if es != [] {
      var (w1, ev1) := WindowStep(w, es[0], false, minSize);
      RunNeverEnds(w1, es[1..], minSize);
      var (w2, ev2) := Run(w1, es[1..], minSize);
      assert Run(w, es, minSize) == (w2, ev1 + ev2);
      assert forall ev :: ev in ev1 ==> ev.Start? || ev.Update?;
    }
  }

  /** From an empty, idle window, up to minSize changing samples are only queued; the
      next one starts the motion with the oldest sample and delivers the rest as updates. */
  lemma {:induction false} StartNeedsMoreThanMin(es: seq<Element>, minSize: int, lifetime: int)
    requires 0 <= minSize && |es| <= minSize + 1
    ensures |es| <= minSize ==> Run(Window([], false, lifetime), es, minSize) == (Window(es, false, lifetime), [])
    ensures |es| == minSize + 1 ==>
              Run(Window([], false, lifetime), es, minSize) ==
              (Window([], true, lifetime), [Start(es[0])] + Updates(es[1..]))
  {
    QueueUntilFull([], es, minSize, lifetime);
    assert [] + es == es;
  }

  lemma {:induction false} QueueUntilFull(q: seq<Element>, es: seq<Element>, minSize: int, lifetime: int)
    requires |q| + |es| <= minSize + 1
    ensures |q| + |es| <= minSize ==> Run(Window(q, false, lifetime), es, minSize) == (Window(q + es, false, lifetime), [])
    ensures |q| + |es| == minSize + 1 && es != [] ==>
              Run(Window(q, false, lifetime), es, minSize) ==
              (Window([], true, lifetime), [Start((q + es)[0])] + Updates((q + es)[1..]))
    decreases |es|
  {
    if es == [] {
      assert q + es == q;
    } else {
      var w := Window(q, false, lifetime);
      var (w1, ev1) := WindowStep(w, es[0], false, minSize);
      var (w2, ev2) := Run(w1, es[1..], minSize);
      assert Run(w, es, minSize) == (w2, ev1 + ev2);
      if |q| + 1 <= minSize {
        assert w1 == Window(q + [es[0]], false, lifetime) && ev1 == [];
        QueueUntilFull(q + [es[0]], es[1..], minSize, lifetime);
        assert q + [es[0]] + es[1..] == q + es;
        assert ev1 + ev2 == ev2;
      } else {
        assert |es| == 1;
        assert es[1..] == [];
        assert q + es == q + [es[0]];
        assert (w2, ev2) == (w1, []);
        assert ev1 + ev2 == ev1;
      }
    }
  }

  /** Once a motion is active, every changing sample raises exactly one Update with that sample. */
  lemma {:induction false} ActiveRunUpdatesOnly(es: seq<Element>, minSize: int, lifetime: int)
    ensures Run(Window([], true, lifetime), es, minSize) == (Window([], true, lifetime), Updates(es))
  {
    if es != [] {
      ActiveRunUpdatesOnly(es[1..], minSize, lifetime);
      assert Updates(es) == [Update(es[0])] + Updates(es[1..]);
    }
  }

  /** A stable sample ends the motion, raising End exactly when one was active. */
  lemma StableEnds(w: Window, e: Element, minSize: int)
    ensures WindowStep(w, e, true, minSize).0 == Window([], false, 0)
    ensures WindowStep(w, e, true, minSize).1 == (if w.active then [End(e)] else [])
  {
  }

  /** SetMotionSize: MAX(n, 10). */
  function MotionSize(n: int): (r: int)
    ensures r >= MIN_MOTION_SIZE && (n >= MIN_MOTION_SIZE ==> r == n) && (n < MIN_MOTION_SIZE ==> r == MIN_MOTION_SIZE)
  {
    Max(n, MIN_MOTION_SIZE)
  }

  /** What a sample and the post-update pass change on an accelerometer: the was-updated
      flag, the acceleration, the orientation, the window and the notifications so far. */
  datatype MotionState = MotionState(updated: bool, accel: Vec3, dir: Vec3, pitch: real, roll: real,
                                     win: Window, events: seq<MotionEvent>)

  /** The orientation after a sample of acceleration `a`: what `orient` makes of it when it
      is near 1 g, the previous one otherwise. */
  function Oriented(a: Vec3, prev: Orientation, orient: Vec3 -> Orientation): Orientation
  {
    if NearOneG(LengthSq(a)) then orient(a) else prev
  }

  /** The measuring step of a sample: the calibrated acceleration, the orientation after
      it, and the next lifetime. */
  function Measured(s: MotionState, raw: Vec3b, zero: Vec3b, ratio: Vec3, calibrated: bool,
                    orient: Vec3 -> Orientation): MotionState
  {
    var a := Acceleration(raw, zero, ratio, calibrated);
    var o := Oriented(a, Orientation(s.dir, s.pitch, s.roll), orient);
    s.(accel := a, dir := o.dir, pitch := o.pitch, roll := o.roll, win := s.win.(lifetime := s.win.lifetime + 1))
  }

  /** The element a measured sample is raised as. */
  function Latest(s: MotionState): Element
  {
    Element(s.win.lifetime, LengthSq(s.accel), s.pitch, s.roll, s.accel, s.dir)
  }

  /** The windowing step of a sample, with the events it raises. */
  function Windowed(s: MotionState, e: Element, stable: bool, minSize: int): MotionState
  {
    var step := WindowStep(s.win, e, stable, minSize);
    s.(win := step.0, events := s.events + step.1)
  }

  /** One raw sample taken in: measured, then windowed against the previous acceleration.
      The remote marks itself updated and raises the single-sample event before the window's
      events; the Nunchuk keeps its flag and raises it after them. */
  function AfterSample(s: MotionState, raw: Vec3b, zero: Vec3b, ratio: Vec3, calibrated: bool, minSize: int,
                       orient: Vec3 -> Orientation, remote: bool): MotionState
  {
    var m := Measured(s, raw, zero, ratio, calibrated, orient);
    var e := Latest(m);
    var stable := Stable(s.accel, m.accel);
    if remote then Windowed(m.(updated := true, events := m.events + [Single(e)]), e, stable, minSize)
    else var t := Windowed(m, e, stable, minSize); t.(events := t.events + [Single(e)])
  }

  /** What a sample does to the orientation and what it delivers: the new acceleration is the
      calibrated one; direction, pitch and roll follow `orient` for a sample near 1 g and stay
      otherwise; and the single-sample event carries that acceleration and orientation. */
  lemma SampleOrients(s: MotionState, raw: Vec3b, zero: Vec3b, ratio: Vec3, calibrated: bool, minSize: int,
                      orient: Vec3 -> Orientation, remote: bool)
    ensures var t := AfterSample(s, raw, zero, ratio, calibrated, minSize, orient, remote);
            var a := Acceleration(raw, zero, ratio, calibrated);
            var o := if NearOneG(LengthSq(a)) then orient(a) else Orientation(s.dir, s.pitch, s.roll);
            var single := Single(Element(s.win.lifetime + 1, LengthSq(a), o.pitch, o.roll, a, o.dir));
            t.accel == a && t.dir == o.dir && t.pitch == o.pitch && t.roll == o.roll &&
            |t.events| > |s.events| && t.events[..|s.events|] == s.events &&
            (if remote then t.events[|s.events|] == single else t.events[|t.events| - 1] == single)
  {
    var m := Measured(s, raw, zero, ratio, calibrated, orient);
    var e := Latest(m);
    var stable := Stable(s.accel, m.accel);
    if remote {
      var u := m.(updated := true, events := m.events + [Single(e)]);
      assert Windowed(u, e, stable, minSize).events == u.events + WindowStep(u.win, e, stable, minSize).1;
    } else {
      var t := Windowed(m, e, stable, minSize);
      assert t.events == s.events + WindowStep(m.win, e, stable, minSize).1;
    }
  }

  /** The calibration of an accelerometer: zero point, 1 g point, ratio and the flag. */
  datatype Calibration = Calibration(zero: Vec3b, oneG: Vec3b, ratio: Vec3, calibrated: bool)

  /** The calibration points taken from a reply, the ratio derived from them. */
  function CalibrationFrom(z: Vec3b, g: Vec3b): Calibration
  {
    Calibration(z, g, Ratio(z, g), true)
  }

  /** A calibration reply from `addr`: only the calibration block counts, its bytes 0-2 being
      the zero point and 4-6 the 1 g point. */
  function Recalibrated(c: Calibration, addr: int, data: seq<bv8>): Calibration
    requires |data| >= 7
  {
    if addr == REMOTE_CALIBRATION_ADDR then CalibrationFrom(Bytes3(data[0], data[1], data[2]), Bytes3(data[4], data[5], data[6]))
    else c
  }

  /** The accelerometer state of CWR_WiiMotion. `orient` stands for the sqrt/asin
      orientation step, applied to an acceleration near 1 g. */
  class MotionSensor {
    const orient: Vec3 -> Orientation
    var attached: bool
    var wasUpdated: bool
    var calibrated: bool
    var zero: Vec3b
    var oneG: Vec3b
    var ratio: Vec3
    var accel: Vec3
    var dir: Vec3
    var pitch: real
    var roll: real
    var minSize: int
    var active: bool
    var lifetime: int
    var queue: seq<Element>
    var events: seq<MotionEvent>

    ghost predicate Valid()
      reads this
    {
      minSize >= MIN_MOTION_SIZE && (active ==> queue == [])
    }

    function Win(): Window
      reads this
    {
      Window(queue, active, lifetime)
    }

    /** The accelerometer's state as samples and the post-update pass see it. */
    function Snapshot(): MotionState
      reads this
    {
      MotionState(wasUpdated, accel, dir, pitch, roll, Win(), events)
    }

    function Calib(): Calibration
      reads this
    {
      Calibration(zero, oneG, ratio, calibrated)
    }

    /** A raw sample taken in under this sensor's calibration, window size and orientation step. */
    function Sample(s: MotionState, raw: Vec3b, remote: bool): MotionState
      reads this
    {
      AfterSample(s, raw, zero, ratio, calibrated, minSize, orient, remote)
    }

    /** The constructor: window size 10, no flags, lifetime 0, zero vectors. */
    constructor (orient: Vec3 -> Orientation)
      ensures Valid() && this.orient == orient
      ensures !attached && !wasUpdated && !calibrated && !active && lifetime == 0 && queue == []
      ensures minSize == MIN_MOTION_SIZE && events == []
      ensures zero == Vec3b(0, 0, 0) && oneG == Vec3b(0, 0, 0) && ratio == ZERO
      ensures accel == ZERO && dir == ZERO && pitch == 0.0 && roll == 0.0
    {
      this.orient := orient;
      attached := false;
      wasUpdated := false;
      calibrated := false;
      zero := Vec3b(0, 0, 0);
      oneG := Vec3b(0, 0, 0);
      ratio := ZERO;
      accel := ZERO;
      dir := ZERO;
      pitch := 0.0;
      roll := 0.0;
      minSize := MotionSize(0);
      active := false;
      lifetime := 0;
      queue := [];
      events := [];
    }

    /** Initialize: refuses a missing remote, otherwise clears the calibrated and active flags. */
    method Initialize(remote: bool) returns (ok: bool)
      requires Valid()
      modifies this`attached, this`calibrated, this`active
      ensures Valid() && ok == remote && attached == remote
      ensures ok ==> !calibrated && !active
      ensures !ok ==> calibrated == old(calibrated) && active == old(active)
    {
      attached := remote;
      if !remote {
        return false;
      }
      calibrated := false;
      active := false;
      ok := true;
    }

    /** The calibration points taken from a reply, and the ratio derived from them. */
    method SetCalibration(z: Vec3b, g: Vec3b)
      modifies this`zero, this`oneG, this`ratio, this`calibrated
      ensures zero == z && oneG == g && ratio == Ratio(z, g) && calibrated
      ensures Calib() == CalibrationFrom(z, g) && Snapshot() == old(Snapshot())
    {
      zero := z;
      oneG := g;
      ratio := Ratio(z, g);
      calibrated := true;
    }

    /** Calibrate: ask for the calibration block; the reply comes back to OnCalibrateData. */
    method Calibrate(d: Data.DataChannel, rumble: bool)
      requires d.Valid()
      modifies d`callbacks, d.out
      ensures d.Valid()
      ensures d.callbacks == old(d.callbacks)[REMOTE_CALIBRATION_ADDR :=
                Data.Queued(old(d.callbacks), REMOTE_CALIBRATION_ADDR) + [Data.RemoteCalibration]]
      ensures d.out.queue == old(d.out.queue) + Data.ReadPackets(REMOTE_CALIBRATION_ADDR, REMOTE_CALIBRATION_SIZE, 0, rumble)
    {
      d.ReadData(REMOTE_CALIBRATION_ADDR, REMOTE_CALIBRATION_SIZE, Data.RemoteCalibration, rumble);
    }

    /** OnCalibrateData: replies from any address but the calibration block are ignored;
        bytes 0-2 are the zero point and bytes 4-6 the 1G point. */
    method OnCalibrateData(addr: int, data: seq<bv8>)
      requires |data| >= 7
      modifies this`zero, this`oneG, this`ratio, this`calibrated
      ensures addr != REMOTE_CALIBRATION_ADDR ==>
                zero == old(zero) && oneG == old(oneG) && ratio == old(ratio) && calibrated == old(calibrated)
      ensures addr == REMOTE_CALIBRATION_ADDR ==>
                zero == Bytes3(data[0], data[1], data[2]) && oneG == Bytes3(data[4], data[5], data[6]) &&
                ratio == Ratio(zero, oneG) && calibrated
      ensures Calib() == Recalibrated(old(Calib()), addr, data) && Snapshot() == old(Snapshot())
    {
      if addr != REMOTE_CALIBRATION_ADDR {
        return;
      }
      SetCalibration(Bytes3(data[0], data[1], data[2]), Bytes3(data[4], data[5], data[6]));
    }

    /** The measuring half of OnMotionUpdate: the new acceleration, the orientation when
        the sample is near 1 g, and the element with the next lifetime. */
    method Measure(raw: Vec3b) returns (e: Element)
      modifies this`accel, this`dir, this`pitch, this`roll, this`lifetime
      ensures accel == Acceleration(raw, zero, ratio, calibrated)
      ensures NearOneG(LengthSq(accel)) ==>
                dir == orient(accel).dir && pitch == orient(accel).pitch && roll == orient(accel).roll
      ensures !NearOneG(LengthSq(accel)) ==> dir == old(dir) && pitch == old(pitch) && roll == old(roll)
      ensures lifetime == old(lifetime) + 1
      ensures e == Element(lifetime, LengthSq(accel), pitch, roll, accel, dir)
      ensures Snapshot() == Measured(old(Snapshot()), raw, zero, ratio, calibrated, orient) && e == Latest(Snapshot())
    {
      accel := Acceleration(raw, zero, ratio, calibrated);
      var lengthSq := LengthSq(accel);
      if NearOneG(lengthSq) {
        var o := orient(accel);
        dir := o.dir;
        pitch := o.pitch;
        roll := o.roll;
      }
      lifetime := lifetime + 1;
      e := Element(lifetime, lengthSq, pitch, roll, accel, dir);
    }

    /** StopMotion: empty the queue, zero the lifetime and clear the active flag. */
    method StopMotion()
      modifies this`queue, this`lifetime, this`active
      ensures queue == [] && lifetime == 0 && !active
    {
      while queue != []
        decreases |queue|
      {
        queue := queue[1..];
      }
      lifetime := 0;
      active := false;
    }

    /** Pops the oldest queued sample as the start of a motion and every other one as an update. */
    method Flush()
      requires queue != []
      modifies this`queue, this`events
      ensures queue == []
      ensures events == old(events) + [Start(old(queue)[0])] + Updates(old(queue)[1..])
    {
      ghost var all := queue;
      var front := queue[0];
      queue := queue[1..];
      events := events + [Start(front)];
      ghost var mid := events;
      while queue != []
        invariant |queue| <= |all| - 1 && queue == all[|all| - |queue|..]
        invariant events == mid + Updates(all[1..|all| - |queue|])
        decreases |queue|
      {
        var next := queue[0];
        assert all[1..|all| - |queue| + 1] == all[1..|all| - |queue|] + [next];
        queue := queue[1..];
        events := events + [Update(next)];
      }
      assert all[1..|all| - 0] == all[1..];
    }

    /** The windowing half of OnMotionUpdate for one sample. */
    method Track(e: Element, stable: bool)
      requires Valid()
      modifies this`queue, this`active, this`lifetime, this`events
      ensures Valid()
      ensures Win() == WindowStep(old(Win()), e, stable, minSize).0
      ensures events == old(events) + WindowStep(old(Win()), e, stable, minSize).1
      ensures Snapshot() == Windowed(old(Snapshot()), e, stable, minSize)
    {
      if stable {
        if active {
          events := events + [End(e)];
        } else {
          assert events == old(events) + [];
        }
        StopMotion();
        return;
      }
      if !active {
        queue := queue + [e];
        if |queue| <= minSize {
          assert events == old(events) + [];
          return;
        }
        ghost var q := queue;
        Flush();
        active := true;
        assert events == old(events) + ([Start(q[0])] + Updates(q[1..]));
      } else {
        events := events + [Update(e)];
      }
    }

    /** OnMotionUpdate of the Wii Remote: measure, raise the single-sample event, then
        window the sample against the previous acceleration. */
    method OnMotionUpdate(buffer: seq<bv8>, off: nat, now: real)
      requires Valid() && off + 2 < |buffer|
      modifies this`wasUpdated, this`accel, this`dir, this`pitch, this`roll, this`lifetime, this`queue,
               this`active, this`events
      ensures Valid() && wasUpdated
      ensures Snapshot() == Sample(old(Snapshot()), Bytes3(buffer[off], buffer[off + 1], buffer[off + 2]), true)
      ensures Calib() == old(Calib())
    {
      var prev := accel;
      var e := Measure(Bytes3(buffer[off], buffer[off + 1], buffer[off + 2]));
      ghost var m := Snapshot();
      wasUpdated, events := true, events + [Single(e)];
      assert Snapshot() == m.(updated := true, events := m.events + [Single(e)]);
      Track(e, Stable(prev, accel));
    }

    /** The Nunchuk's motion update: measure, window the sample, and only then raise the
        single-sample event. */
    method OnExtensionMotion(raw: Vec3b)
      requires Valid()
      modifies this`accel, this`dir, this`pitch, this`roll, this`lifetime, this`queue, this`active, this`events
      ensures Valid()
      ensures Snapshot() == Sample(old(Snapshot()), raw, false) && Calib() == old(Calib())
    {
      var prev := accel;
      var e := Measure(raw);
      Track(e, Stable(prev, accel));
      events := events + [Single(e)];
    }

    /** OnPostUpdate: only the was-updated flag resets. */
    method OnPostUpdate()
      modifies this`wasUpdated
      ensures !wasUpdated
      ensures Snapshot() == old(Snapshot()).(updated := false) && Calib() == old(Calib())
    {
      wasUpdated := false;
    }

    /** SetMotionSize: never below 10. */
    method SetMotionSize(n: int)
      requires Valid()
      modifies this`minSize
      ensures Valid() && minSize == MotionSize(n)
    {
      minSize := MotionSize(n);
    }

    /** GetMotionLifetime: the number of samples since the window last stopped. */
    function GetMotionLifetime(): int
      reads this
    {
      lifetime
    }
  }

  /** The remote's calibration block fits one read request, for 8 bytes at 0x16. */
  lemma CalibrationReadIsOnePacket(rumble: bool)
    ensures Data.ReadPackets(REMOTE_CALIBRATION_ADDR, REMOTE_CALIBRATION_SIZE, 0, rumble) ==
              [Data.ReadRequest(REMOTE_CALIBRATION_ADDR, REMOTE_CALIBRATION_SIZE, rumble)]
  {
  }
}
