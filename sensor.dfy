// The IR camera of the Wii Remote (WR_CWiiSensor): four tracked dots unpacked
// from the report's packed 10-bit coordinates, the cursor folded from them, the
// enter / leave / update notifications, and the register writes that switch the
// camera on.
module Sensor {
  import opened Wrappers
  import Data

  /** The raw value of a coordinate no dot has reported. */
  const NO_DOT: int := 0x3FF

  /** The number of dots the remote tracks. */
  const DOTS: nat := 4

  /** WR_OUT_IR_RUMBLE and WR_OUT_IR2. */
  const OUT_IR_RUMBLE: Byte := 0x13
  const OUT_IR2: Byte := 0x1A

  /** WR_WIISENSOR_REG. */
  const REG_MASTER: int := 0x04b00030
  const REG_SENSITIVITY_1: int := 0x04b00000
  const REG_SENSITIVITY_2: int := 0x04b0001a
  const REG_MODE: int := 0x04b00033

  /** The data OnSetReport writes to those registers. */
  const IR_MASTER: seq<Byte> := [0x08]
  const IR_SENSITIVITY_1: seq<Byte> := [0x00, 0x00, 0x00, 0x00, 0x00, 0x00, 0x90, 0x00, 0xC0]
  const IR_SENSITIVITY_2: seq<Byte> := [0x40, 0x00]
  const IR_MODE: seq<Byte> := [0x01]

  /** tSensorDot. */
  datatype Dot = Dot(targeted: bool, rawX: int, rawY: int)

  /** The dot a fresh or re-initialised sensor holds. */
  const UNSEEN: Dot := Dot(false, NO_DOT, NO_DOT)

  /** Listener notifications of the sensor, with the cursor position they carry. */
  datatype SensorEvent = EnterScreen(x: real, y: real) | LeaveScreen(x: real, y: real) | CursorUpdate(x: real, y: real)

  // ----- Dot unpacking -----

  /** Two bits of the shared byte, `(b >> pos) & 0x3`. */
  function HighBits(b: Byte, pos: nat): (r: int)
    requires pos == 0 || pos == 2 || pos == 4 || pos == 6
    ensures 0 <= r < 4
  {
    if pos == 6 then b / 64 % 4
    else if pos == 4 then b / 16 % 4
    else if pos == 2 then b / 4 % 4
    else b % 4
  }

  /** `lo | (hi << 8)`: a 10-bit coordinate from its low byte and two high bits. */
  function Coord(lo: Byte, hi: int): (r: int)
    requires 0 <= hi < 4
    ensures 0 <= r <= NO_DOT && r % 256 == lo && r / 256 == hi
  {
    lo + 256 * hi
  }

  /** A dot is reported unless both of its low bytes are 0xFF. */
  predicate Reported(lx: Byte, ly: Byte)
  {
    lx != 0xFF || ly != 0xFF
  }

  /** One dot after a report: untargeted and unchanged, or targeted at the unpacked position. */
  function SenseDot(d: Dot, lx: Byte, ly: Byte, shared: Byte, posX: nat, posY: nat): Dot
    requires (posX == 0 || posX == 4) && (posY == 2 || posY == 6)
  {
    if Reported(lx, ly) then Dot(true, Coord(lx, HighBits(shared, posX)), Coord(ly, HighBits(shared, posY)))
    else d.(targeted := false)
  }

  /** The dots after OnSensorUpdate on the report at `off`: dot 0 from bytes 0, 1
      (high bits 4-5 and 6-7 of byte 2), dot 1 from bytes 3, 4 (high bits 0-1 and
      2-3 of byte 2); dots 2 and 3 are only untargeted. */
  function Sensed(ds: seq<Dot>, b: seq<bv8>, off: nat): (r: seq<Dot>)
    requires |ds| == DOTS && off + 4 < |b|
    ensures |r| == DOTS
  {
    [SenseDot(ds[0], b[off] as int, b[off + 1] as int, b[off + 2] as int, 4, 6),
     SenseDot(ds[1], b[off + 3] as int, b[off + 4] as int, b[off + 2] as int, 0, 2),
     ds[2].(targeted := false),
     ds[3].(targeted := false)]
  }

  /** Every raw coordinate fits in 10 bits. */
  predicate RawInRange(ds: seq<Dot>)
  {
    forall i :: 0 <= i < |ds| ==> 0 <= ds[i].rawX <= NO_DOT && 0 <= ds[i].rawY <= NO_DOT
  }

  /** What a report does to the dots: a dot is targeted exactly when its bytes are
      not both 0xFF, an untargeted dot keeps its raw position, the far dots are never
      targeted, and raw coordinates stay within 10 bits. */
  lemma SensedSpec(ds: seq<Dot>, b: seq<bv8>, off: nat)
    requires |ds| == DOTS && off + 4 < |b| && RawInRange(ds)
    ensures var r := Sensed(ds, b, off);
            RawInRange(r) &&
            (r[0].targeted <==> Reported(b[off] as int, b[off + 1] as int)) &&
            (r[1].targeted <==> Reported(b[off + 3] as int, b[off + 4] as int)) &&
            !r[2].targeted && !r[3].targeted &&
            (forall i :: 0 <= i < DOTS && !r[i].targeted ==> r[i].rawX == ds[i].rawX && r[i].rawY == ds[i].rawY)
  {
    var r := Sensed(ds, b, off);
    forall i | 0 <= i < DOTS && !r[i].targeted
      ensures r[i].rawX == ds[i].rawX && r[i].rawY == ds[i].rawY
    {
      if i == 0 {
        assert !Reported(b[off] as int, b[off + 1] as int);
      } else if i == 1 {
        assert !Reported(b[off + 3] as int, b[off + 4] as int);
      }
    }
  }

  /** The bytes the camera sends for dot 0 at (x, y) and dot 1 at (u, v). */
  function PackDots(x: int, y: int, u: int, v: int): (b: seq<Byte>)
    requires 0 <= x <= NO_DOT && 0 <= y <= NO_DOT && 0 <= u <= NO_DOT && 0 <= v <= NO_DOT
    ensures |b| == 5
  {
    [x % 256, y % 256, (x / 256) * 16 + (y / 256) * 64 + (u / 256) + (v / 256) * 4, u % 256, v % 256]
  }

  /** Unpacking inverts packing: both dots come back at their coordinates. */
  lemma UnpackPackDots(x: int, y: int, u: int, v: int)
    requires 0 <= x <= NO_DOT && 0 <= y <= NO_DOT && 0 <= u <= NO_DOT && 0 <= v <= NO_DOT
    ensures var b := PackDots(x, y, u, v);
            Coord(b[0], HighBits(b[2], 4)) == x && Coord(b[1], HighBits(b[2], 6)) == y &&
            Coord(b[3], HighBits(b[2], 0)) == u && Coord(b[4], HighBits(b[2], 2)) == v
  {
    SharedByte(x / 256, y / 256, u / 256, v / 256);
  }

  /** The shared byte holds the four pairs of high bits at 4-5, 6-7, 0-1 and 2-3. */
  lemma SharedByte(a: int, b: int, c: int, d: int)
    requires 0 <= a < 4 && 0 <= b < 4 && 0 <= c < 4 && 0 <= d < 4
    ensures var s := a * 16 + b * 64 + c + d * 4;
            s / 64 % 4 == b && s / 16 % 4 == a && s / 4 % 4 == d && s % 4 == c
  {
    var s := a * 16 + b * 64 + c + d * 4;
    DivMod64(b, 16 * a + 4 * d + c);
    DivMod16(4 * b + a, 4 * d + c);
    DivMod4(b, a);
    DivMod4(16 * b + 4 * a, d);
    DivMod4(4 * b + a, d);
    DivMod4(16 * b + 4 * a + d, c);
  }

  lemma DivMod64(q: int, r: int)
    requires 0 <= r < 64
    ensures (64 * q + r) / 64 == q && (64 * q + r) % 64 == r
  { }

  lemma DivMod16(q: int, r: int)
    requires 0 <= r < 16
    ensures (16 * q + r) / 16 == q && (16 * q + r) % 16 == r
  { }

  lemma DivMod4(q: int, r: int)
    requires 0 <= r < 4
    ensures (4 * q + r) / 4 == q && (4 * q + r) % 4 == r
  { }

  // ----- The cursor -----

  /** The horizontal fold over dots 1..n-1: dot 0 seeds 1 - x/maxX; each later dot
      with a raw x other than 0x3FF is averaged in, whether targeted or not. */
  function FoldX(ds: seq<Dot>, n: nat): real
    requires 1 <= n <= |ds|
  {
    if n == 1 then 1.0 - (ds[0].rawX as real) / 1016.0
    else if ds[n - 1].rawX != NO_DOT then (FoldX(ds, n - 1) + 1.0 - (ds[n - 1].rawX as real) / 1016.0) * 0.5
    else FoldX(ds, n - 1)
  }

  function FoldY(ds: seq<Dot>, n: nat): real
    requires 1 <= n <= |ds|
  {
    if n == 1 then (ds[0].rawY as real) / 760.0
    else if ds[n - 1].rawY != NO_DOT then (FoldY(ds, n - 1) + (ds[n - 1].rawY as real) / 760.0) * 0.5
    else FoldY(ds, n - 1)
  }

  /** The cursor is a running halving average, so it stays within the range of its
      contributions: on-camera coordinates (x <= 1016, y <= 760) give a cursor in [0, 1]. */
  lemma {:induction false} FoldInUnitRange(ds: seq<Dot>, n: nat)
    requires 1 <= n <= |ds|
    requires forall i :: 0 <= i < n ==> 0 <= ds[i].rawX <= 1016 || (i > 0 && ds[i].rawX == NO_DOT)
    requires forall i :: 0 <= i < n ==> 0 <= ds[i].rawY <= 760 || (i > 0 && ds[i].rawY == NO_DOT)
    ensures 0.0 <= FoldX(ds, n) <= 1.0 && 0.0 <= FoldY(ds, n) <= 1.0
  {
    if n > 1 {
      FoldInUnitRange(ds, n - 1);
    }
  }

  /** Dots whose coordinates are both 0x3FF contribute nothing to the cursor. */
  lemma {:induction false} UnseenDotsIgnored(ds: seq<Dot>, n: nat)
    requires 1 <= n <= |ds|
    requires forall i :: 1 <= i < n ==> ds[i].rawX == NO_DOT && ds[i].rawY == NO_DOT
    ensures FoldX(ds, n) == 1.0 - (ds[0].rawX as real) / 1016.0 && FoldY(ds, n) == (ds[0].rawY as real) / 760.0
  {
    if n > 1 {
      UnseenDotsIgnored(ds, n - 1);
    }
  }

  predicate AnyTargeted(ds: seq<Dot>)
  {
    exists i :: 0 <= i < |ds| && ds[i].targeted
  }

  // ----- Enter / leave edges -----

  /** The enter (true) and leave (false) notifications of a log, in order. */
  function Edges(evs: seq<SensorEvent>): seq<bool>
  {
    if evs == [] then []
    else Edges(evs[..|evs| - 1]) +
         (match evs[|evs| - 1]
          case EnterScreen(_, _) => [true]
          case LeaveScreen(_, _) => [false]
          case CursorUpdate(_, _) => [])
  }

  lemma EdgesAppend(evs: seq<SensorEvent>, e: SensorEvent)
    ensures Edges(evs + [e]) == Edges(evs) + Edges([e])
  {
    assert (evs + [e])[..|evs + [e]| - 1] == evs;
    assert [e][..0] == [];
  }

  /** An enter while off screen, a leave while on, or an update keeps the edges alternating. */
  lemma AlternatingStep(edges: seq<bool>, onScreen: bool, e: SensorEvent)
    requires Alternating(edges, onScreen)
    requires e.EnterScreen? ==> !onScreen
    requires e.LeaveScreen? ==> onScreen
    ensures Alternating(edges + Edges([e]), if e.CursorUpdate? then onScreen else e.EnterScreen?)
  {
    assert [e][..0] == [];
    if !e.CursorUpdate? {
      Toggle(edges, onScreen);
    }
  }

  /** What the post-update pass changes on the sensor: the cursor, whether it is on screen,
      when it last was, and the notifications so far. */
  datatype Cursor = Cursor(onScreen: bool, x: real, y: real, lastOnScreen: real, events: seq<SensorEvent>)

  /** The post-update pass on the dots of the last report: with any dot targeted the cursor
      goes to the folded position, is on screen as of `now` and an enter (from off screen)
      or an update is raised; with none the cursor leaves the screen, back at the origin,
      with a leave notification when it was on screen. */
  function Tracked(c: Cursor, ds: seq<Dot>, now: real): Cursor
    requires |ds| == DOTS
  {
    if AnyTargeted(ds) then
      var x, y := FoldX(ds, DOTS), FoldY(ds, DOTS);
      Cursor(true, x, y, now, c.events + [if c.onScreen then CursorUpdate(x, y) else EnterScreen(x, y)])
    else
      Cursor(false, 0.0, 0.0, c.lastOnScreen, c.events + (if c.onScreen then [LeaveScreen(c.x, c.y)] else []))
  }

  /** The state of CWR_WiiSensor. */
  class IRSensor {
    const dots: array<Dot>
    var enabled: bool
    var onScreen: bool
    var lastOnScreen: real
    var x: real
    var y: real
    var events: seq<SensorEvent>
    /** Where the log stands at the last Initialize. */
    ghost var since: nat

    /** Four dots with 10-bit coordinates; the far dots are never targeted and stay
        unseen; the cursor is at the origin while off screen; and since the last
        Initialize, enters and leaves alternate. */
    ghost predicate Valid()
      reads this, dots
    {
      dots.Length == DOTS && RawInRange(dots[..]) &&
      !dots[2].targeted && !dots[3].targeted &&
      dots[2].rawX == NO_DOT && dots[2].rawY == NO_DOT && dots[3].rawX == NO_DOT && dots[3].rawY == NO_DOT &&
      (!onScreen ==> x == 0.0 && y == 0.0) &&
      since <= |events| && Alternating(Edges(events[since..]), onScreen)
    }

    /** The cursor state as the post-update pass sees it. */
    function Pointer(): Cursor
      reads this
    {
      Cursor(onScreen, x, y, lastOnScreen, events)
    }

    constructor ()
      ensures Valid() && fresh(dots) && dots[..] == seq(DOTS, _ => UNSEEN)
      ensures !enabled && !onScreen && lastOnScreen == 0.0 && x == 0.0 && y == 0.0 && events == []
    {
      dots := new Dot[DOTS](_ => UNSEEN);
      enabled := false;
      onScreen := false;
      lastOnScreen := 0.0;
      x := 0.0;
      y := 0.0;
      events := [];
      since := 0;
      new;
      assert events[0..] == [];
    }

    /** Initialize: fails without a remote; otherwise every dot is unseen, the camera is
        off and the cursor is at the origin, off screen. */
    method Initialize(remote: bool) returns (ok: bool)
      requires Valid()
      modifies this`enabled, this`onScreen, this`lastOnScreen, this`x, this`y, this`since, dots
      ensures Valid() && ok == remote
      ensures !remote ==> enabled == old(enabled) && onScreen == old(onScreen) && x == old(x) && y == old(y) &&
                          lastOnScreen == old(lastOnScreen) && dots[..] == old(dots[..])
      ensures remote ==> !enabled && !onScreen && lastOnScreen == 0.0 && x == 0.0 && y == 0.0 &&
                         dots[..] == seq(DOTS, _ => UNSEEN)
      ensures events == old(events)
    {
      if !remote {
        return false;
      }
      var i := 0;
      while i < DOTS
        invariant 0 <= i <= DOTS
        invariant forall k :: 0 <= k < i ==> dots[k] == UNSEEN
      {
        dots[i] := UNSEEN;
        i := i + 1;
      }
      assert dots[..] == seq(DOTS, _ => UNSEEN);
      enabled := false;
      onScreen := false;
      lastOnScreen := 0.0;
      x := 0.0;
      y := 0.0;
      since := |events|;
      assert events[since..] == [];
      return true;
    }

    /** OnSensorUpdate: every dot is untargeted, then dots 0 and 1 are unpacked from the
        report at `off` (dots 2 and 3 are not read). */
    method OnSensorUpdate(buffer: seq<bv8>, off: nat)
      requires Valid() && off + 4 < |buffer|
      modifies dots
      ensures Valid()
      ensures dots[..] == Sensed(old(dots[..]), buffer, off) && Pointer() == old(Pointer())
    {
      ghost var ds := dots[..];
      SensedSpec(ds, buffer, off);
      dots[0] := dots[0].(targeted := false);
      dots[1] := dots[1].(targeted := false);
      dots[2] := dots[2].(targeted := false);
      dots[3] := dots[3].(targeted := false);
      var b2: Byte := buffer[off + 2] as int;
      if Reported(buffer[off] as int, buffer[off + 1] as int) {
        dots[0] := Dot(true, Coord(buffer[off] as int, HighBits(b2, 4)), Coord(buffer[off + 1] as int, HighBits(b2, 6)));
      }
      if Reported(buffer[off + 3] as int, buffer[off + 4] as int) {
        dots[1] := Dot(true, Coord(buffer[off + 3] as int, HighBits(b2, 0)), Coord(buffer[off + 4] as int, HighBits(b2, 2)));
      }
      assert dots[..] == Sensed(ds, buffer, off);
    }

    /** The fold loop of OnPostUpdate. */
    method FoldCursor()
      requires dots.Length == DOTS
      modifies this`x, this`y
      ensures x == FoldX(dots[..], DOTS) && y == FoldY(dots[..], DOTS)
    {
      x := 1.0 - (dots[0].rawX as real) / 1016.0;
      y := (dots[0].rawY as real) / 760.0;
      var i := 1;
      while i < DOTS
        invariant 1 <= i <= DOTS
        invariant x == FoldX(dots[..], i) && y == FoldY(dots[..], i)
      {
        if dots[i].rawX != NO_DOT {
          x := (x + 1.0 - (dots[i].rawX as real) / 1016.0) * 0.5;
        }
        if dots[i].rawY != NO_DOT {
          y := (y + (dots[i].rawY as real) / 760.0) * 0.5;
        }
        i := i + 1;
      }
    }

    /** OnPostUpdate, with any dot targeted: the cursor is refolded and either enters the
        screen or moves on it. With none: the far dots are reset, a leave is raised from
        the last position if the cursor was on screen, and the cursor returns to the origin. */
    method OnPostUpdate(now: real)
      requires Valid()
      modifies this`x, this`y, this`onScreen, this`lastOnScreen, this`events, dots
      ensures Valid() && dots[..] == old(dots[..])
      ensures AnyTargeted(old(dots[..])) ==>
                x == FoldX(old(dots[..]), DOTS) && y == FoldY(old(dots[..]), DOTS) &&
                onScreen && lastOnScreen == now &&
                events == old(events) + [if old(onScreen) then CursorUpdate(x, y) else EnterScreen(x, y)]
      ensures !AnyTargeted(old(dots[..])) ==>
                !onScreen && x == 0.0 && y == 0.0 && lastOnScreen == old(lastOnScreen) &&
                events == old(events) + (if old(onScreen) then [LeaveScreen(old(x), old(y))] else [])
      ensures Pointer() == Tracked(old(Pointer()), old(dots[..]), now)
    {
      ghost var ds := dots[..];
      if dots[0].targeted || dots[1].targeted || dots[2].targeted || dots[3].targeted {
        assert AnyTargeted(ds);
        FoldCursor();
        var e := if onScreen then CursorUpdate(x, y) else EnterScreen(x, y);
        AlternatingStep(Edges(events[since..]), onScreen, e);
        EdgesAppend(events[since..], e);
        assert (events + [e])[since..] == events[since..] + [e];
        onScreen := true;
        events := events + [e];
        lastOnScreen := now;
      } else {
        assert !AnyTargeted(ds);
        dots[2] := UNSEEN;
        dots[3] := UNSEEN;
        assert dots[..] == ds;
        if onScreen {
          var e := LeaveScreen(x, y);
          AlternatingStep(Edges(events[since..]), onScreen, e);
          EdgesAppend(events[since..], e);
          assert (events + [e])[since..] == events[since..] + [e];
          events := events + [e];
        }
        onScreen := false;
        x := 0.0;
        y := 0.0;
      }
    }

    /** OnSetReport: the two IR control packets (byte 1 = 0x04 with the rumble bit), then
        the register writes in order, master, both sensitivity blocks and the mode; then
        the camera counts as enabled. */
    method OnSetReport(d: Data.DataChannel, rumble: bool, now: real)
      requires Valid()
      modifies d.out, this`enabled, this`lastOnScreen
      ensures Valid() && enabled && lastOnScreen == now
      ensures d.out.queue == old(d.out.queue) + SetReportPackets(rumble)
    {
      d.out.Send(IRPacket(OUT_IR_RUMBLE, rumble));
      d.out.Send(IRPacket(OUT_IR2, rumble));
      d.WriteData(REG_MASTER, IR_MASTER, rumble);
      d.WriteData(REG_SENSITIVITY_1, IR_SENSITIVITY_1, rumble);
      d.WriteData(REG_SENSITIVITY_2, IR_SENSITIVITY_2, rumble);
      d.WriteData(REG_MODE, IR_MODE, rumble);
      enabled := true;
      lastOnScreen := now;
    }
  }

  /** An IR control report: the opcode, then 0x04 with the rumble bit. */
  function IRPacket(op: Byte, rumble: bool): Data.Out
  {
    Data.Control(op, Data.WithRumble(0x04, rumble), 0)
  }

  /** The bytes of an IR control report: the opcode, 0x04 carrying the rumble bit, zeros. */
  lemma IRPacketLayout(op: Byte, rumble: bool)
    ensures var p := Data.Encode(IRPacket(op, rumble));
            Data.IsPacket(p) && p[0] == op && p[1] % 2 == (if rumble then 1 else 0) && p[1] / 2 == 2 &&
            forall i :: 2 <= i < Data.PAYLOAD ==> p[i] == 0
  {
    Data.ControlLayout(op, Data.WithRumble(0x04, rumble), 0);
  }

  /** Everything OnSetReport queues, in order. */
  function SetReportPackets(rumble: bool): seq<Data.Out>
  {
    [IRPacket(OUT_IR_RUMBLE, rumble), IRPacket(OUT_IR2, rumble)] +
    Data.WritePackets(REG_MASTER, IR_MASTER, 0, rumble) +
    Data.WritePackets(REG_SENSITIVITY_1, IR_SENSITIVITY_1, 0, rumble) +
    Data.WritePackets(REG_SENSITIVITY_2, IR_SENSITIVITY_2, 0, rumble) +
    Data.WritePackets(REG_MODE, IR_MODE, 0, rumble)
  }

  /** Each register block fits one write packet, so switching the camera on takes six
      packets: the two control reports, then one write per register block, in order,
      each carrying exactly that block. */
  lemma SetReportIsSixPackets(rumble: bool)
    ensures var ps := SetReportPackets(rumble);
            |ps| == 6 && ps[0] == IRPacket(OUT_IR_RUMBLE, rumble) && ps[1] == IRPacket(OUT_IR2, rumble) &&
            ps[2] == Data.WriteRequest(REG_MASTER, IR_MASTER, rumble) && Data.Payload(Data.Encode(ps[2])) == IR_MASTER &&
            ps[3] == Data.WriteRequest(REG_SENSITIVITY_1, IR_SENSITIVITY_1, rumble) &&
            Data.Payload(Data.Encode(ps[3])) == IR_SENSITIVITY_1 &&
            ps[4] == Data.WriteRequest(REG_SENSITIVITY_2, IR_SENSITIVITY_2, rumble) &&
            Data.Payload(Data.Encode(ps[4])) == IR_SENSITIVITY_2 &&
            ps[5] == Data.WriteRequest(REG_MODE, IR_MODE, rumble) && Data.Payload(Data.Encode(ps[5])) == IR_MODE
  {
    Data.WriteIsOnePacket(REG_MASTER, IR_MASTER, rumble);
    Data.WriteIsOnePacket(REG_SENSITIVITY_1, IR_SENSITIVITY_1, rumble);
    Data.WriteIsOnePacket(REG_SENSITIVITY_2, IR_SENSITIVITY_2, rumble);
    Data.WriteIsOnePacket(REG_MODE, IR_MODE, rumble);
  }
}
