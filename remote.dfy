// The Wii Remote connection (WR_CWiiRemote) without its reading and writing
// threads: the flag word, the connect / attempt / timeout state machine, the
// output packets, the dispatch of input reports to the helpers, the status
// report and the extension plug / unplug handshake.
module Remote {
  import opened Wrappers
  import Listeners
  import Data
  import Buttons
  import Motion
  import Nunchuk
  import Sensor

  // ----- WR_WIIREMOTE_FLAGS -----
  const CONNECTED: bv32 := 0x01
  const ATTEMPTCONNECT: bv32 := 0x02
  const RUMBLEON: bv32 := 0x04
  const UPDATESTATUS: bv32 := 0x08
  const CONTINUOUSREPORT: bv32 := 0x10
  const CHECKEDEXT: bv32 := 0x20
  const STATUS_RUMBLE: bv32 := 0x100
  const STATUS_EXPANSION: bv32 := 0x200
  const STATUS_SPEAKER: bv32 := 0x400
  const STATUS_IR: bv32 := 0x800
  const STATUS_LED1: bv32 := 0x1000
  const STATUS_LED2: bv32 := 0x2000
  const STATUS_LED3: bv32 := 0x4000
  const STATUS_LED4: bv32 := 0x8000

  const STATUS_MASK: bv32 := 0xFF00

  /** The status half of the flag word (bits 8-15): the rumble bit and the expansion,
      speaker, IR and four LED bits of the last status report. */
  datatype Status = Status(rumble: bool, expansion: bool, speaker: bool, ir: bool,
                           led1: bool, led2: bool, led3: bool, led4: bool)

  /** The flag word, one field per bit it defines; Word gives the bit positions. */
  datatype Flags = Flags(connected: bool, attempt: bool, rumbleOn: bool, updateStatus: bool,
                         continuous: bool, checkedExt: bool, status: Status)

  const NO_FLAGS: Flags := Flags(false, false, false, false, false, false,
                                 Status(false, false, false, false, false, false, false, false))

  function Bit(on: bool, bit: bv32): bv32
  {
    if on then bit else 0
  }

  /** Bits 0-5 of the word. */
  function LowWord(f: Flags): bv32
  {
    Bit(f.connected, CONNECTED) | Bit(f.attempt, ATTEMPTCONNECT) | Bit(f.rumbleOn, RUMBLEON) |
    Bit(f.updateStatus, UPDATESTATUS) | Bit(f.continuous, CONTINUOUSREPORT) | Bit(f.checkedExt, CHECKEDEXT)
  }

  /** Bits 8-15 of the word. */
  function StatusWord(s: Status): bv32
  {
    Bit(s.rumble, STATUS_RUMBLE) | Bit(s.expansion, STATUS_EXPANSION) | Bit(s.speaker, STATUS_SPEAKER) |
    Bit(s.ir, STATUS_IR) | Bit(s.led1, STATUS_LED1) | Bit(s.led2, STATUS_LED2) |
    Bit(s.led3, STATUS_LED3) | Bit(s.led4, STATUS_LED4)
  }

  /** The unsigned int the source keeps, each field at its WRF_ bit. */
  function Word(f: Flags): bv32
  {
    LowWord(f) | StatusWord(f.status)
  }

  /** CheckFlags of each status bit of a word. */
  function StatusOf(w: bv32): Status
  {
    Status(CheckBits(STATUS_RUMBLE, w), CheckBits(STATUS_EXPANSION, w), CheckBits(STATUS_SPEAKER, w),
           CheckBits(STATUS_IR, w), CheckBits(STATUS_LED1, w), CheckBits(STATUS_LED2, w),
           CheckBits(STATUS_LED3, w), CheckBits(STATUS_LED4, w))
  }

  /** CheckFlags of every defined bit of a word. */
  function FromWord(w: bv32): Flags
  {
    Flags(CheckBits(CONNECTED, w), CheckBits(ATTEMPTCONNECT, w), CheckBits(RUMBLEON, w),
          CheckBits(UPDATESTATUS, w), CheckBits(CONTINUOUSREPORT, w), CheckBits(CHECKEDEXT, w),
          StatusOf(w))
  }

  /** The low fields sit at bits 0-5 and nowhere else. */
  lemma LowBits(f: Flags)
    ensures LowWord(f) & 0xFFFF_FFC0 == 0
    ensures CheckBits(CONNECTED, LowWord(f)) == f.connected && CheckBits(ATTEMPTCONNECT, LowWord(f)) == f.attempt &&
            CheckBits(RUMBLEON, LowWord(f)) == f.rumbleOn && CheckBits(UPDATESTATUS, LowWord(f)) == f.updateStatus &&
            CheckBits(CONTINUOUSREPORT, LowWord(f)) == f.continuous && CheckBits(CHECKEDEXT, LowWord(f)) == f.checkedExt
  {
  }

  /** The status fields sit at bits 8-15 and nowhere else. */
  lemma StatusBits(s: Status)
    ensures StatusWord(s) & 0xFFFF_00FF == 0
    ensures CheckBits(STATUS_RUMBLE, StatusWord(s)) == s.rumble && CheckBits(STATUS_EXPANSION, StatusWord(s)) == s.expansion &&
            CheckBits(STATUS_SPEAKER, StatusWord(s)) == s.speaker && CheckBits(STATUS_IR, StatusWord(s)) == s.ir &&
            CheckBits(STATUS_LED1, StatusWord(s)) == s.led1 && CheckBits(STATUS_LED2, StatusWord(s)) == s.led2 &&
            CheckBits(STATUS_LED3, StatusWord(s)) == s.led3 && CheckBits(STATUS_LED4, StatusWord(s)) == s.led4
  {
  }

  /** Each field is what CheckFlags reads at its bit. */
  lemma FromWordOfWord(f: Flags)
    ensures FromWord(Word(f)) == f
  {
    LowBits(f);
    StatusBits(f.status);
  }

  lemma LowOfFromWord(w: bv32)
    ensures LowWord(FromWord(w)) == w & 0x3F
  {
  }

  lemma StatusOfFromWord(w: bv32)
    ensures StatusWord(StatusOf(w)) == w & 0xFF00
  {
  }

  /** A word is its defined bits: WRF_ALL without the unused bits 6 and 7. */
  lemma WordOfFromWord(w: bv32)
    ensures Word(FromWord(w)) == w & 0xFF3F
  {
    LowOfFromWord(w);
    StatusOfFromWord(w);
  }

  lemma WordStatus(f: Flags)
    ensures Word(f) & STATUS_MASK == StatusWord(f.status)
  {
    LowBits(f);
    StatusBits(f.status);
  }

  lemma StatusRoundTrip(s: Status)
    ensures StatusOf(StatusWord(s)) == s
  {
    StatusBits(s);
  }

  /** The status-changed test of UpdateStatus, which compares the words' status halves,
      compares the status fields. */
  lemma StatusHalf(f: Flags, g: Flags)
    ensures (Word(f) & STATUS_MASK == Word(g) & STATUS_MASK) <==> f.status == g.status
  {
    WordStatus(f);
    WordStatus(g);
    StatusRoundTrip(f.status);
    StatusRoundTrip(g.status);
  }

  // ----- Input opcodes and report bits -----
  const IN_EXPANSION: bv8 := 0x20
  const IN_DATAREAD: bv8 := 0x21
  const IN_DATAWROTE: bv8 := 0x22
  const IN_INPUTMASK: bv8 := 0x3F
  const REPORT_DEFAULT: int := 0x30

  // ----- Output opcodes -----
  const OUT_LED: Byte := 0x11
  const OUT_REPORT: Byte := 0x12
  const OUT_SPEAKER: Byte := 0x14
  const OUT_STATUS: Byte := 0x15
  const LED_NONE: int := 0x00

  // ----- The extension handshake -----
  const EXTENSION_REGISTERLOC: int := 0x04a40040
  const EXTENSION_TYPELOC: int := 0x04a400fe
  const EXTENSION_TYPESIZE: int := 2
  const EXTENSION_NUNCHUK: int := 0xFEFE

  // ----- WR_WIIREMOTE_ERROR -----
  const REMOTE_OK: int := 0
  const REMOTE_BADINIT: int := 1
  const REMOTE_INVALIDHANDLE: int := 2
  const REMOTEID_INVALID: Byte := 0

  /** Connection notifications of the remote's listeners. */
  datatype Link = Connecting | Connected | Disconnected(timedOut: bool)

  /** Report and status notifications of the remote's listeners. */
  datatype Notice = ReportChanged(mode: int, continuous: bool) | StatusChanged(flags: Flags, battery: int)

  /** Which helper an input report is handed to, and from which byte. */
  datatype Route = StatusAt | ButtonsAt(off: nat) | DataAt(off: nat) | MotionAt(off: nat) | SensorAt(off: nat) | ExtensionAt(off: nat)

  // ----- Output packets -----

  /** SetReport's report: continuity in bit 2 and the rumble bit of byte 1, the mode's low six bits in byte 2. */
  function ReportPacket(mode: int, continuous: bool, rumble: bool): (o: Data.Out)
    ensures o.Control? && o.op == OUT_REPORT && o.b2 == mode % 64
    ensures o.b1 % 2 == (if rumble then 1 else 0) && o.b1 / 2 == (if continuous then 2 else 0)
  {
    Data.Control(OUT_REPORT, Data.WithRumble(if continuous then 0x04 else 0x00, rumble), mode % 64)
  }

  /** SetLEDs' report: the high nibble of the LED mask's low byte, with the rumble bit. */
  function LedPacket(leds: int, rumble: bool): (o: Data.Out)
    ensures o.Control? && o.op == OUT_LED && o.b2 == 0
    ensures o.b1 / 16 == leds % 256 / 16 && o.b1 % 16 == (if rumble then 1 else 0)
  {
    Data.Control(OUT_LED, Data.WithRumble(leds % 256 / 16 * 16, rumble), 0)
  }

  /** SetRumble's report and RequestStatusUpdate's report carry only the rumble bit. */
  function RumblePacket(rumble: bool): Data.Out
  {
    Data.Control(OUT_SPEAKER, if rumble then 1 else 0, 0)
  }

  function StatusPacket(rumble: bool): Data.Out
  {
    Data.Control(OUT_STATUS, if rumble then 1 else 0, 0)
  }

  /** Everything SetReport queues while connected: the camera's packets, then the report request. */
  function ReportPackets(mode: int, continuous: bool, rumble: bool): seq<Data.Out>
  {
    Sensor.SetReportPackets(rumble) + [ReportPacket(mode, continuous, rumble)]
  }

  /** The wire bytes of the report-mode request: opcode, control byte, mode byte, zeros. */
  lemma ReportPacketBytes(mode: int, continuous: bool, rumble: bool)
    ensures var p := Data.Encode(ReportPacket(mode, continuous, rumble));
            Data.IsPacket(p) && p[0] == OUT_REPORT && p[2] == mode % 64 &&
            p[1] % 2 == (if rumble then 1 else 0) && p[1] / 2 == (if continuous then 2 else 0) &&
            forall i :: 3 <= i < Data.PAYLOAD ==> p[i] == 0
  {
    var o := ReportPacket(mode, continuous, rumble);
    Data.ControlLayout(o.op, o.b1, o.b2);
  }

  // ----- The status report -----

  /** UpdateStatus on the flags: bits 1-7 of status byte 3 set or clear the expansion,
      speaker, IR and four LED flags; the rest is kept. */
  function StatusFlags(f: Flags, b: bv8): Flags
  {
    f.(status := f.status.(expansion := b & 0x02 != 0, speaker := b & 0x04 != 0, ir := b & 0x08 != 0,
                           led1 := b & 0x10 != 0, led2 := b & 0x20 != 0, led3 := b & 0x40 != 0,
                           led4 := b & 0x80 != 0))
  }

  lemma LowNine(f: Flags)
    ensures Word(f) & 0x1FF == LowWord(f) | Bit(f.status.rumble, STATUS_RUMBLE)
  {
    LowBits(f);
    StatusBits(f.status);
  }

  /** On the word: byte 3's bits 1-7 land at bits 9-15, one for one, and bits 0-8 (the
      remote's own flags and the status rumble bit) are kept. */
  lemma StatusFlagsSpec(f: Flags, b: bv8)
    ensures var w := Word(StatusFlags(f, b));
            (CheckBits(STATUS_EXPANSION, w) <==> b & 0x02 != 0) &&
            (CheckBits(STATUS_SPEAKER, w) <==> b & 0x04 != 0) &&
            (CheckBits(STATUS_IR, w) <==> b & 0x08 != 0) &&
            (CheckBits(STATUS_LED1, w) <==> b & 0x10 != 0) &&
            (CheckBits(STATUS_LED2, w) <==> b & 0x20 != 0) &&
            (CheckBits(STATUS_LED3, w) <==> b & 0x40 != 0) &&
            (CheckBits(STATUS_LED4, w) <==> b & 0x80 != 0)
    ensures Word(StatusFlags(f, b)) & 0x1FF == Word(f) & 0x1FF
  {
    FromWordOfWord(StatusFlags(f, b));
    LowNine(f);
    LowNine(StatusFlags(f, b));
  }

  /** A status report leaves the connection flags alone, whatever it does to the flag
      that an extension was checked. */
  lemma StatusKeepsLink(f: Flags, g: Flags, b: bv8)
    requires g.(checkedExt := false) == StatusFlags(f, b).(checkedExt := false)
    ensures g.connected == f.connected && g.attempt == f.attempt
  {
    assert g.connected == g.(checkedExt := false).connected;
    assert g.attempt == g.(checkedExt := false).attempt;
  }

  /** The packets of the extension handshake: the zero written to the init register, the
      report re-sent (only while connected), and the read of the type register. */
  function ProbePackets(connected: bool, mode: int, continuous: bool, rumble: bool): seq<Data.Out>
  {
    Data.WritePackets(EXTENSION_REGISTERLOC, [0x00], 0, rumble) +
    (if connected then ReportPackets(mode, continuous, rumble) else []) +
    Data.ReadPackets(EXTENSION_TYPELOC, EXTENSION_TYPESIZE, 0, rumble)
  }
  // ----- Dispatch -----

  /** The bytes each helper reads from an input report. */
  function Width(r: Route): nat
  {
    match r
    case StatusAt => 0
    case ButtonsAt(_) => 2
    case DataAt(_) => 19
    case MotionAt(_) => 3
    case SensorAt(_) => 10
    case ExtensionAt(_) => 6
  }

  function Offset(r: Route): nat
  {
    match r
    case StatusAt => 0
    case ButtonsAt(o) => o
    case DataAt(o) => o
    case MotionAt(o) => o
    case SensorAt(o) => o
    case ExtensionAt(o) => o
  }

  /** Where the motion, IR and extension sections of an input report start: each right
      after the sections before it that the opcode asks for. */
  function MotionOffset(op: bv8): nat
  {
    if op & 0x30 == 0x30 then 3 else 1
  }

  function SensorOffset(op: bv8): nat
  {
    if op & 0x01 != 0 then MotionOffset(op) + 3 else MotionOffset(op)
  }

  function ExtensionOffset(op: bv8): nat
  {
    if op & 0x02 != 0 then SensorOffset(op) + 10 else SensorOffset(op)
  }

  /** The input-mask branch: buttons when both bits 4 and 5 are set, motion for bit 0,
      IR for bit 1 and the extension for bit 2 (when one is plugged in), each from the
      byte after the previous section. */
  function InputRoutes(op: bv8, ext: bool): seq<Route>
  {
    var b := op & 0x30 == 0x30;
    var o1 := MotionOffset(op);
    var m := op & 0x01 != 0;
    var o2 := SensorOffset(op);
    var ir := op & 0x02 != 0;
    var o3 := ExtensionOffset(op);
    (if b then [ButtonsAt(1)] else []) + (if m then [MotionAt(o1)] else []) +
    (if ir then [SensorAt(o2)] else []) + (if op & 0x04 != 0 && ext then [ExtensionAt(o3)] else [])
  }

  /** The sections read one after another, each from the offset the previous one left,
      make up the input routes. */
  lemma InputRoutesOf(op: bv8, ext: bool, o1: nat, o2: nat, o3: nat,
                      r1: seq<Route>, r2: seq<Route>, r3: seq<Route>, r4: seq<Route>)
    requires o1 == (if op & 0x30 == 0x30 then 3 else 1) && r1 == (if op & 0x30 == 0x30 then [ButtonsAt(1)] else [])
    requires o2 == (if op & 0x01 != 0 then o1 + 3 else o1) && r2 == (if op & 0x01 != 0 then [MotionAt(o1)] else [])
    requires o3 == (if op & 0x02 != 0 then o2 + 10 else o2) && r3 == (if op & 0x02 != 0 then [SensorAt(o2)] else [])
    requires r4 == if ext && op & 0x04 != 0 then [ExtensionAt(o3)] else []
    ensures r1 + r2 + r3 + r4 == InputRoutes(op, ext)
  {
  }

  /** A section is present exactly when its report bit asks for it. */
  predicate Asked(op: bv8, ext: bool, r: Route)
  {
    match r
    case ButtonsAt(_) => op & 0x30 == 0x30
    case MotionAt(_) => op & 0x01 != 0
    case SensorAt(_) => op & 0x02 != 0
    case ExtensionAt(_) => op & 0x04 != 0 && ext
    case _ => false
  }

  /** The sections of an input report tile it from byte 1 in the order buttons, motion,
      IR, extension, without gaps or overlaps, and all fit in the 22-byte report. */
  lemma InputRoutesTile(op: bv8, ext: bool)
    ensures var rs := InputRoutes(op, ext);
            (|rs| > 0 ==> Offset(rs[0]) == 1) &&
            (forall i :: 0 <= i < |rs| - 1 ==> Offset(rs[i + 1]) == Offset(rs[i]) + Width(rs[i])) &&
            (forall i :: 0 <= i < |rs| ==> Asked(op, ext, rs[i]) && Offset(rs[i]) + Width(rs[i]) <= Data.PAYLOAD)
  {
  }

  /** The helpers each opcode reaches, as the source dispatches it: status, data read,
      then any opcode with an input bit, the write acknowledgement 0x22 included. */
  function RoutesAsWritten(op: bv8, ext: bool): seq<Route>
  {
    if op == IN_EXPANSION then [StatusAt]
    else if op == IN_DATAREAD then [ButtonsAt(1), DataAt(3)]
    else if op & IN_INPUTMASK != 0 then InputRoutes(op, ext)
    else []
  }

  /** A write acknowledgement is read as IR data from byte 1: its button bytes become dot 0. */
  lemma DataWroteReadAsIR(ext: bool)
    ensures RoutesAsWritten(IN_DATAWROTE, ext) == [SensorAt(1)]
  {
  }

  /** The dispatch this model runs: as written, except that the write acknowledgement is
      not an input report and reaches no helper. */
  function Routes(op: bv8, ext: bool): seq<Route>
  {
    if op == IN_DATAWROTE then [] else RoutesAsWritten(op, ext)
  }

  /** The acknowledgement reaches no helper, and every other opcode is dispatched as written. */
  lemma RoutesCorrected(op: bv8, ext: bool)
    ensures Routes(IN_DATAWROTE, ext) == []
    ensures op != IN_DATAWROTE ==> Routes(op, ext) == RoutesAsWritten(op, ext)
  {
  }

  // ----- Connection timeout -----

  /** The lost-connection test of Update: only with a positive timeout, when an attempt
      or the last receipt is older than the timeout. */
  predicate TimedOut(f: Flags, now: real, start: real, lastRecv: real, timeout: real)
  {
    timeout > 0.0 && ((f.attempt && now - start > timeout) || (f.connected && now - lastRecv > timeout))
  }

  /** A remote that just received a packet is no longer attempting and was heard from now,
      so it cannot time out on that tick. */
  lemma ReceiptPreventsTimeout(f: Flags, now: real, start: real, timeout: real)
    requires !f.attempt
    ensures !TimedOut(f, now, start, now, timeout)
  {
  }

  /** Without a positive timeout a remote never times out, however stale it is. */
  lemma NoTimeoutWithoutLimit(f: Flags, now: real, start: real, lastRecv: real, timeout: real)
    requires timeout <= 0.0
    ensures !TimedOut(f, now, start, lastRecv, timeout)
  {
  }

  /** A report as the reading thread delivers it: always a full 22-byte buffer. */
  type InReport = p: seq<bv8> | |p| == Data.PAYLOAD
    witness [0, 0, 0, 0, 0, 0, 0, 0, 0, 0, 0, 0, 0, 0, 0, 0, 0, 0, 0, 0, 0, 0]

  /** CreateButtonHelper: the remote's button pad, with the eleven remote masks. */
  method CreateButtonHelper() returns (b: Buttons.ButtonPad)
    ensures fresh(b) && fresh(b.status) && fresh(b.stamp) && b.Valid()
    ensures b.masks == Buttons.REMOTE_MASKS && !b.activeLow && !b.attached
  {
    Buttons.RemoteMasksSingleBits();
    b := new Buttons.ButtonPad(Buttons.REMOTE_MASKS, false);
  }

  /** CreateMotionHelper: the remote's accelerometer. */
  method CreateMotionHelper(orient: Motion.Vec3 -> Motion.Orientation) returns (m: Motion.MotionSensor)
    ensures fresh(m) && m.Valid() && m.orient == orient && !m.attached
  {
    m := new Motion.MotionSensor(orient);
  }

  /** CreateDataHelper: the data channel, writing through the remote's (empty) outbound queue. */
  method CreateDataHelper() returns (d: Data.DataChannel)
    ensures fresh(d) && fresh(d.out) && d.Valid() && d.out.queue == [] && !d.attached
  {
    var out := new Data.Outbox();
    d := new Data.DataChannel(out);
  }

  /** CreateSensorHelper: the IR camera, switched off. */
  method CreateSensorHelper() returns (s: Sensor.IRSensor)
    ensures fresh(s) && fresh(s.dots) && s.Valid() && !s.enabled
  {
    s := new Sensor.IRSensor();
  }

  /** CreateExtensionHelper for the one type the source knows, initialised. */
  method CreateNunchuk(orient: Motion.Vec3 -> Motion.Orientation) returns (n: Nunchuk.Nunchuk)
    ensures fresh(n) && fresh(n.pad) && fresh(n.pad.status) && fresh(n.pad.stamp) && fresh(n.motion)
    ensures n.Valid()
  {
    n := new Nunchuk.Nunchuk(orient);
    var ok := n.Initialize(true);
  }

  /** The state of CWR_WiiRemote and its helpers. */
  class WiiRemote {
    const orient: Motion.Vec3 -> Motion.Orientation
    const buttons: Buttons.ButtonPad
    const motion: Motion.MotionSensor
    const data: Data.DataChannel
    const sensor: Sensor.IRSensor
    var ext: Nunchuk.Nunchuk?
    var id: Byte
    var flags: Flags
    var reportMode: int
    var battery: Byte
    var attemptStart: real
    var lastRecv: real
    var timeout: real
    var statusFreq: real
    var nextStatus: real
    /** The packets the reading thread has queued, oldest first. */
    var readQueue: seq<InReport>
    var listeners: seq<nat>
    var links: seq<Link>
    var notices: seq<Notice>
    /** Extension plugged-in (true) and unplugged (false) notifications. */
    var plugs: seq<bool>

    ghost function ExtRepr(): set<object>
      reads this`ext
    {
      if ext == null then {} else {ext, ext.pad, ext.pad.status, ext.pad.stamp, ext.motion}
    }

    /** The extension objects whose state its validity depends on. */
    ghost function ExtParts(): set<object>
      reads this`ext
    {
      if ext == null then {} else {ext, ext.pad, ext.motion}
    }

    ghost function Repr(): set<object>
      reads this
    {
      {this, buttons, buttons.status, buttons.stamp, motion, data, data.out, sensor, sensor.dots} + ExtRepr()
    }

    /** A remote is never connecting and connected at once, the extension-checked flag is
        set exactly while an extension exists, and the logs are well-formed. */
    ghost predicate Valid()
      reads this`flags, this`ext, this`plugs, this`listeners
    {
      !(flags.connected && flags.attempt) && (flags.checkedExt <==> ext != null) && Logs()
    }

    /** Plug and unplug notifications alternate, ending in a plug exactly while an extension
        exists, and listeners are distinct. */
    ghost predicate Logs()
      reads this`ext, this`plugs, this`listeners
    {
      Alternating(plugs, ext != null) && Listeners.NoDup(listeners)
    }

    /** The helpers are valid, and the extension's objects are its own. */
    ghost predicate Parts()
      reads this`ext, buttons, motion, data, sensor, sensor.dots, ExtParts()
    {
      OwnParts() && ExtPart()
    }

    /** The remote's own helpers are valid. */
    ghost predicate OwnParts()
      reads buttons, motion, data, sensor, sensor.dots
    {
      buttons.Valid() && motion.Valid() && data.Valid() && sensor.Valid()
    }

    /** The extension, if any, is valid and shares no object with the remote's helpers. */
    ghost predicate ExtPart()
      reads this`ext, ExtParts()
    {
      ext != null ==> ext.Valid() && ext.pad != buttons && ext.motion != motion &&
                      ext.pad.status != buttons.status && ext.pad.stamp != buttons.stamp
    }

    /** An extension present now is the one there before, or was created since then. */
    twostate predicate Grown()
      reads this
    {
      ext == null || ext == old(ext) ||
      (fresh(ext) && fresh(ext.pad) && fresh(ext.pad.status) && fresh(ext.pad.stamp) && fresh(ext.motion))
    }

    predicate IsConnected()
      reads this`flags
    {
      flags.connected
    }

    /** IsContinuousReport: what the pad and the Nunchuk read as their buffered-input
        setting, so that EnableBufferedInput is TriggerContinuousReport. */
    predicate IsContinuousReport()
      reads this`flags
    {
      flags.continuous
    }

    predicate IsConnecting()
      reads this`flags
    {
      flags.attempt
    }

    /** GetRumbleBit, as the flag it is read from. */
    predicate Rumble()
      reads this`flags
    {
      flags.rumbleOn
    }

    /** The state the constructor leaves: no ID, no flags, mode 0, battery 0, every time
        at 0, and nothing queued, listening or announced. */
    ghost predicate Initial()
      reads this
    {
      ext == null && id == REMOTEID_INVALID && flags == NO_FLAGS && reportMode == 0 && battery == 0 &&
      attemptStart == 0.0 && lastRecv == 0.0 && timeout == 0.0 && statusFreq == 0.0 && nextStatus == 0.0 &&
      readQueue == [] && listeners == [] && links == [] && notices == [] && plugs == []
    }

    /** The constructor: the initial state, with fresh helpers. */
    constructor (orient: Motion.Vec3 -> Motion.Orientation)
      ensures Valid() && Parts() && Initial()
      ensures fresh(buttons) && fresh(buttons.status) && fresh(buttons.stamp) && fresh(motion) &&
              fresh(data) && fresh(data.out) && fresh(sensor) && fresh(sensor.dots)
      ensures buttons.masks == Buttons.REMOTE_MASKS && !buttons.activeLow && motion.orient == orient
    {
      var b := CreateButtonHelper();
      var m := CreateMotionHelper(orient);
      var d := CreateDataHelper();
      var s := CreateSensorHelper();
      this.orient := orient;
      buttons := b;
      motion := m;
      data := d;
      sensor := s;
      ext := null;
      id := REMOTEID_INVALID;
      flags := NO_FLAGS;
      reportMode := 0;
      battery := 0;
      attemptStart := 0.0;
      lastRecv := 0.0;
      timeout := 0.0;
      statusFreq := 0.0;
      nextStatus := 0.0;
      readQueue := [];
      listeners := [];
      links := [];
      notices := [];
      plugs := [];
    }

    /** Initialize: refuses a remote that already has an ID, or an invalid new ID. Otherwise
        it takes the ID and attaches the helpers; a device handle that did not open is
        reported, and an open one starts a connection attempt with the default report. */
    method Initialize(newId: Byte, handleOpen: bool, now: real) returns (err: int)
      requires Valid() && Parts()
      modifies this`id, this`flags, this`attemptStart, this`reportMode, this`notices, this`links,
               buttons, buttons.status, buttons.stamp, motion, data, data.out, sensor, sensor.dots
      ensures Valid() && Parts()
      ensures old(id) != REMOTEID_INVALID || newId == REMOTEID_INVALID ==>
                err == REMOTE_BADINIT && id == old(id) && flags == old(flags) && links == old(links)
      ensures old(id) == REMOTEID_INVALID && newId != REMOTEID_INVALID ==>
                id == newId && buttons.attached && motion.attached && data.attached &&
                (!handleOpen ==> err == REMOTE_INVALIDHANDLE && flags == old(flags) && links == old(links)) &&
                (handleOpen ==> err == REMOTE_OK && IsConnecting() && !IsConnected() && attemptStart == now &&
                                reportMode == REPORT_DEFAULT && links == old(links) + [Connecting])
    {
      if id != REMOTEID_INVALID || newId == REMOTEID_INVALID {
        return REMOTE_BADINIT;
      }
      id := newId;
      AttachHelpers();
      if !handleOpen {
        return REMOTE_INVALIDHANDLE;
      }
      Reconnect(false, now);
      return REMOTE_OK;
    }

    /** The helper half of Initialize: every helper is initialised against this remote.
        The pad's buttons are all Up at time 0 with a restarted ID seed, the accelerometer
        is uncalibrated and at rest, and the camera is off with four unseen dots and the
        cursor at the origin off screen. */
    method AttachHelpers()
      requires Parts()
      modifies buttons, buttons.status, buttons.stamp, motion, data, sensor, sensor.dots
      ensures Parts() && buttons.attached && motion.attached && data.attached
      ensures buttons.word == 0 && buttons.seed == 0 && buttons.status[..] == seq(|buttons.masks|, _ => Buttons.Up) &&
              buttons.stamp[..] == seq(|buttons.masks|, _ => 0.0) && buttons.actions == old(buttons.actions)
      ensures !motion.calibrated && !motion.active
      ensures !sensor.enabled && !sensor.onScreen && sensor.lastOnScreen == 0.0 && sensor.x == 0.0 && sensor.y == 0.0 &&
              sensor.dots[..] == seq(Sensor.DOTS, _ => Sensor.UNSEEN)
    {
      var ok := buttons.Initialize(true);
      ok := motion.Initialize(true);
      ok := data.Initialize(true);
      ok := sensor.Initialize(true);
    }

    /** AddListener / RemoveListener: no null and no duplicates; the one occurrence goes. */
    method AddListener(l: Option<nat>)
      requires Valid()
      modifies this`listeners
      ensures Valid() && listeners == Listeners.Add(old(listeners), l)
    {
      Listeners.AddSpec(listeners, l);
      listeners := Listeners.Add(listeners, l);
    }

    method RemoveListener(l: Option<nat>)
      requires Valid()
      modifies this`listeners
      ensures Valid() && listeners == Listeners.Remove(old(listeners), l)
    {
      Listeners.RemoveNoDup(listeners, l);
      listeners := Listeners.Remove(listeners, l);
    }

    /** Shutdown: the remote is reset, its flags are cleared and the extension is deleted
        without an unplug notification, so the notifications stay consistent only when none
        was plugged in; then the listeners hear a disconnect that did not time out. */
    method Shutdown(now: real)
      requires Valid()
      modifies this`flags, this`notices, this`nextStatus, this`ext, this`links, data.out
      ensures flags == NO_FLAGS && ext == null && !IsConnected() && !IsConnecting()
      ensures old(ext) == null ==> Valid()
      ensures plugs == old(plugs) && links == old(links) + [Disconnected(false)]
      ensures nextStatus == if old(flags).updateStatus then now + statusFreq else old(nextStatus)
      ensures !old(IsConnected()) ==> notices == old(notices) && data.out.queue == old(data.out.queue)
      ensures old(IsConnected()) ==>
                data.out.queue == old(data.out.queue) + [LedPacket(LED_NONE, old(Rumble())), RumblePacket(false)] &&
                notices == old(notices) +
                           [StatusChanged(old(flags).(rumbleOn := false, status := old(flags).status.(rumble := false)), battery)]
    {
      Reset(now);
      flags := NO_FLAGS;
      ext := null;
      links := links + [Disconnected(false)];
    }

    /** WriteData: the report joins the outbound queue. */
    method WriteData(p: Data.Out)
      modifies data.out
      ensures data.out.queue == old(data.out.queue) + [p]
    {
      data.out.Send(p);
    }

    /** Reconnect: a connection attempt starts now, the report (kept or the default) is sent
        through the connect bypass, and listeners hear that the remote is connecting. */
    method Reconnect(keep: bool, now: real)
      requires Valid() && sensor.Valid()
      modifies this`flags, this`attemptStart, this`reportMode, this`notices, this`links,
               data.out, sensor`enabled, sensor`lastOnScreen
      ensures Valid() && sensor.Valid()
      ensures flags == old(flags).(connected := false, attempt := true, continuous := false)
      ensures attemptStart == now && links == old(links) + [Connecting]
      ensures reportMode == if keep then old(reportMode) else REPORT_DEFAULT
      ensures data.out.queue == old(data.out.queue) + ReportPackets(reportMode, false, Rumble())
    {
      flags := flags.(attempt := true);
      attemptStart := now;
      SetReportConnect(if keep then reportMode else REPORT_DEFAULT, now);
      links := links + [Connecting];
    }

    /** SetReport_Connect: SetReport with the connected flag forced on for the call and
        cleared after it. */
    method SetReportConnect(mode: int, now: real)
      requires sensor.Valid()
      modifies this`flags, this`reportMode, this`notices, data.out, sensor`enabled, sensor`lastOnScreen
      ensures sensor.Valid()
      ensures flags == old(flags).(connected := false, continuous := false) && reportMode == mode
      ensures notices == old(notices) + (if mode != old(reportMode) || old(flags).continuous
                                         then [ReportChanged(mode, false)] else [])
      ensures data.out.queue == old(data.out.queue) + ReportPackets(mode, false, Rumble())
    {
      flags := flags.(connected := true);
      SetReport(mode, false, now);
      flags := flags.(connected := false);
    }

    /** SetReport: nothing unless connected. Otherwise the mode and continuity are recorded,
        a change of either is announced, the IR camera is switched on, and the report
        packet goes out after the camera's packets. */
    method SetReport(mode: int, continuous: bool, now: real)
      requires sensor.Valid()
      modifies this`flags, this`reportMode, this`notices, data.out, sensor`enabled, sensor`lastOnScreen
      ensures sensor.Valid()
      ensures !old(IsConnected()) ==>
                flags == old(flags) && reportMode == old(reportMode) && notices == old(notices) &&
                data.out.queue == old(data.out.queue) && sensor.enabled == old(sensor.enabled)
      ensures old(IsConnected()) ==>
                reportMode == mode && flags == old(flags).(continuous := continuous) &&
                notices == old(notices) + (if mode != old(reportMode) || continuous != old(flags).continuous
                                           then [ReportChanged(mode, continuous)] else []) &&
                sensor.enabled && sensor.lastOnScreen == now &&
                data.out.queue == old(data.out.queue) + ReportPackets(mode, continuous, Rumble())
    {
      if !IsConnected() {
        return;
      }
      var prevMode := reportMode;
      var prevContinuous := flags.continuous;
      reportMode := mode;
      flags := flags.(continuous := continuous);
      if reportMode != prevMode || continuous != prevContinuous {
        notices := notices + [ReportChanged(reportMode, continuous)];
      }
      sensor.OnSetReport(data, Rumble(), now);
      WriteData(ReportPacket(mode, continuous, Rumble()));
    }

    /** TriggerContinuousReport: SetReport with the current mode. */
    method TriggerContinuousReport(continuous: bool, now: real)
      requires sensor.Valid()
      modifies this`flags, this`reportMode, this`notices, data.out, sensor`enabled, sensor`lastOnScreen
      ensures sensor.Valid() && reportMode == old(reportMode)
      ensures flags == if old(IsConnected()) then old(flags).(continuous := continuous) else old(flags)
      ensures IsContinuousReport() == if old(IsConnected()) then continuous else old(IsContinuousReport())
    {
      SetReport(reportMode, continuous, now);
    }

    /** SetStatusUpdate: a positive frequency schedules status requests from now, any other disables them. */
    method SetStatusUpdate(freq: real, now: real)
      requires Valid()
      modifies this`statusFreq, this`flags, this`nextStatus
      ensures Valid() && statusFreq == freq && flags == old(flags).(updateStatus := freq > 0.0)
      ensures nextStatus == if freq > 0.0 then now + freq else old(nextStatus)
    {
      statusFreq := freq;
      if freq > 0.0 {
        flags := flags.(updateStatus := true);
        nextStatus := now + freq;
      } else {
        flags := flags.(updateStatus := false);
      }
    }

    /** RequestStatusUpdate: when connected, the status request goes out. */
    method RequestStatusUpdate()
      modifies data.out
      ensures data.out.queue == old(data.out.queue) + (if IsConnected() then [StatusPacket(Rumble())] else [])
    {
      if IsConnected() {
        WriteData(StatusPacket(Rumble()));
      }
    }

    /** SetLEDs: when connected, the LED packet goes out. */
    method SetLEDs(leds: int)
      modifies data.out
      ensures data.out.queue == old(data.out.queue) + (if IsConnected() then [LedPacket(leds, Rumble())] else [])
    {
      if IsConnected() {
        WriteData(LedPacket(leds, Rumble()));
      }
    }

    /** SetRumble: when connected, both rumble flags follow `on`, the rumble packet goes out
        with the new bit, and listeners hear the status. */
    method SetRumble(on: bool)
      requires Valid()
      modifies this`flags, this`notices, data.out
      ensures Valid()
      ensures !old(IsConnected()) ==> flags == old(flags) && notices == old(notices) && data.out.queue == old(data.out.queue)
      ensures old(IsConnected()) ==>
                flags == old(flags).(rumbleOn := on, status := old(flags).status.(rumble := on)) &&
                data.out.queue == old(data.out.queue) + [RumblePacket(on)] &&
                notices == old(notices) + [StatusChanged(flags, battery)]
    {
      if !IsConnected() {
        return;
      }
      flags := flags.(rumbleOn := on, status := flags.status.(rumble := on));
      WriteData(RumblePacket(Rumble()));
      notices := notices + [StatusChanged(flags, battery)];
    }

    /** Reset: when connected the LEDs go off and the rumble stops; the next status request
        is rescheduled from now when status updates are on. */
    method Reset(now: real)
      requires Valid()
      modifies this`flags, this`notices, this`nextStatus, data.out
      ensures Valid()
      ensures !old(IsConnected()) ==> flags == old(flags) && notices == old(notices) && data.out.queue == old(data.out.queue)
      ensures old(IsConnected()) ==>
                flags == old(flags).(rumbleOn := false, status := old(flags).status.(rumble := false)) &&
                data.out.queue == old(data.out.queue) + [LedPacket(LED_NONE, old(Rumble())), RumblePacket(false)] &&
                notices == old(notices) + [StatusChanged(flags, battery)]
      ensures nextStatus == if old(flags).updateStatus then now + statusFreq else old(nextStatus)
    {
      SetLEDs(LED_NONE);
      SetRumble(false);
      if flags.updateStatus {
        nextStatus := now + statusFreq;
      }
    }

    /** The reading thread queues a 22-byte report. */
    method Push(p: InReport)
      requires Valid()
      modifies this`readQueue
      ensures Valid() && readQueue == old(readQueue) + [p]
    {
      readQueue := readQueue + [p];
    }

    /** Update: every queued report is handled, the helpers are finalised, a stale connection
        or attempt is dropped, and otherwise a due status request goes out. Any report
        completes a pending connection attempt. */
    method Update(now: real, delta: real)
      requires Valid() && Parts()
      modifies Repr()
      ensures Valid() && Parts() && Grown() && readQueue == []
      ensures old(readQueue) != [] ==>
                !IsConnecting() && lastRecv == now &&
                (old(IsConnecting()) || old(IsConnected()) ==> IsConnected()) &&
                links == old(links) + (if old(IsConnecting()) then [Connected] else [])
      ensures old(readQueue) == [] && TimedOut(old(flags), now, old(attemptStart), old(lastRecv), old(timeout)) ==>
                !IsConnecting() && !IsConnected() && ext == null && attemptStart == 0.0 &&
                links == old(links) + [Disconnected(true)]
      ensures old(readQueue) == [] && !TimedOut(old(flags), now, old(attemptStart), old(lastRecv), old(timeout)) ==>
                links == old(links) && flags == old(flags) && ext == old(ext)
    {
      Drain(now);
      Finish(now, delta);
    }

    /** The second half of Update: the helpers' finalisers, then the supervision of the link. */
    method Finish(now: real, delta: real)
      requires Valid() && Parts()
      modifies Repr()
      ensures Valid() && Parts() && (ext == null || ext == old(ext))
      ensures readQueue == old(readQueue) && lastRecv == old(lastRecv) && timeout == old(timeout)
      ensures TimedOut(old(flags), now, old(attemptStart), lastRecv, timeout) ==>
                !IsConnecting() && !IsConnected() && ext == null && attemptStart == 0.0 &&
                links == old(links) + [Disconnected(true)]
      ensures !TimedOut(old(flags), now, old(attemptStart), lastRecv, timeout) ==>
                links == old(links) && flags == old(flags) && ext == old(ext)
    {
      PostUpdates(buttons, motion, data, sensor, ext, now, delta);
      Supervise(now);
    }

    /** The end of Update: the connection timeout, then, while still connected, the
        periodic status request. */
    method Supervise(now: real)
      requires Valid()
      modifies this`flags, this`attemptStart, this`ext, this`plugs, this`links, this`nextStatus, data.out
      ensures Valid() && (ext == null || ext == old(ext))
      ensures TimedOut(old(flags), now, old(attemptStart), lastRecv, timeout) ==>
                !IsConnecting() && !IsConnected() && ext == null && attemptStart == 0.0 &&
                links == old(links) + [Disconnected(true)]
      ensures !TimedOut(old(flags), now, old(attemptStart), lastRecv, timeout) ==>
                links == old(links) && flags == old(flags) && ext == old(ext)
    {
      var lost := CheckTimeout(now);
      if lost {
        return;
      }
      if flags.updateStatus && now >= nextStatus {
        RequestStatusUpdate();
        nextStatus := now + statusFreq;
      }
    }

    /** The read loop of Update: the queue is emptied oldest first. */
    method Drain(now: real)
      requires Valid() && Parts()
      modifies Repr()
      ensures Valid() && Parts() && Grown() && readQueue == [] && timeout == old(timeout)
      ensures attemptStart == if old(readQueue) != [] && old(IsConnecting()) then 0.0 else old(attemptStart)
      ensures old(readQueue) == [] ==>
                flags == old(flags) && lastRecv == old(lastRecv) && links == old(links) && ext == old(ext)
      ensures old(readQueue) != [] ==>
                !IsConnecting() && lastRecv == now &&
                (old(IsConnecting()) || old(IsConnected()) ==> IsConnected()) &&
                links == old(links) + (if old(IsConnecting()) then [Connected] else [])
      ensures old(readQueue) != [] ==> !TimedOut(flags, now, attemptStart, lastRecv, timeout)
    {
      ghost var connecting := IsConnecting();
      ghost var connected := IsConnected();
      ghost var n := 0;
      while readQueue != []
        invariant Valid() && Parts() && Grown() && timeout == old(timeout)
        invariant n <= |old(readQueue)| && readQueue == old(readQueue)[n..]
        invariant n == 0 ==> flags == old(flags) && lastRecv == old(lastRecv) && links == old(links) &&
                             attemptStart == old(attemptStart) && ext == old(ext)
        invariant n > 0 ==>
                    !IsConnecting() && lastRecv == now && (connecting || connected ==> IsConnected()) &&
                    links == old(links) + (if connecting then [Connected] else []) &&
                    attemptStart == (if connecting then 0.0 else old(attemptStart))
        decreases |readQueue|
      {
        var p := readQueue[0];
        readQueue := readQueue[1..];
        n := n + 1;
        Receive(p, now);
      }
      if n > 0 {
        ReceiptPreventsTimeout(flags, now, attemptStart, timeout);
      }
    }

    /** One queued report: it marks the receipt time, completes a pending connection attempt
        (reset, then the connected notification), and is dispatched. */
    method Receive(p: InReport, now: real)
      requires Valid() && Parts()
      modifies this`lastRecv, this`flags, this`attemptStart, this`notices, this`nextStatus, this`links,
               this`battery, this`reportMode, this`ext, this`plugs,
               buttons, buttons.status, buttons.stamp, motion, data, data.out, sensor, sensor.dots, ExtRepr()
      ensures Valid() && Parts() && Grown()
      ensures lastRecv == now && !IsConnecting()
      ensures old(IsConnecting()) || old(IsConnected()) ==> IsConnected()
      ensures links == old(links) + (if old(IsConnecting()) then [Connected] else [])
      ensures attemptStart == if old(IsConnecting()) then 0.0 else old(attemptStart)
    {
      lastRecv := now;
      if IsConnecting() {
        Establish(now);
      }
      ghost var rs := Dispatch(p, now);
    }

    /** The first report of a connection attempt: the remote is connected, the attempt
        clock stops, the remote is reset and the listeners hear of it. */
    method Establish(now: real)
      requires Valid() && IsConnecting()
      modifies this`flags, this`attemptStart, this`notices, this`nextStatus, this`links, data.out
      ensures Valid() && IsConnected() && !IsConnecting() && attemptStart == 0.0
      ensures links == old(links) + [Connected]
    {
      flags := flags.(attempt := false, connected := true);
      attemptStart := 0.0;
      Reset(now);
      links := links + [Connected];
    }

    /** The opcode dispatch of one report; Routes says which helper gets which bytes. */
    method Dispatch(p: InReport, now: real) returns (ghost rs: seq<Route>)
      requires Valid() && Parts()
      modifies this`flags, this`battery, this`notices, this`reportMode, this`ext, this`plugs,
               buttons, buttons.status, buttons.stamp, motion, data, data.out, sensor, sensor.dots, ExtRepr()
      ensures Valid() && Parts() && Grown()
      ensures flags.connected == old(flags).connected && flags.attempt == old(flags).attempt
      ensures rs == Routes(p[0], old(ext) != null)
      ensures p[0] != IN_EXPANSION && old(ext) != null ==> ext == old(ext)
    {
      var op := p[0];
      rs := [];
      if op == IN_EXPANSION {
        ghost var f := flags;
        UpdateStatus(p, now);
        StatusKeepsLink(f, flags, p[3]);
        rs := [StatusAt];
      } else if op == IN_DATAREAD {
        ReadReply(p, now);
        rs := [ButtonsAt(1), DataAt(3)];
      } else if op == IN_DATAWROTE {
      } else if op & IN_INPUTMASK != 0 {
        rs := DispatchInput(p, now);
      }
    }

    /** The data-read branch: the buttons from byte 1, the reply from byte 3, the callback it
        hands back, then the remote's own look at the reply. */
    method ReadReply(p: InReport, now: real)
      requires Valid() && Parts()
      modifies buttons`word, buttons`wasUpdated, buttons`events, buttons.status, buttons.stamp,
               data`wasUpdated, data`events, data`callbacks, motion`zero, motion`oneG, motion`ratio,
               motion`calibrated, ExtRepr(), this`ext, this`flags, this`plugs
      ensures Valid() && Parts() && Grown()
      ensures flags.connected == old(flags).connected && flags.attempt == old(flags).attempt
      ensures old(ext) != null ==> ext == old(ext)
    {
      ReplyPart(p, now);
      OnDataRead(p);
    }

    /** The helpers' share of the data-read branch: the reply and the callback it hands back. */
    method ReplyPart(p: InReport, now: real)
      requires Parts()
      modifies buttons`word, buttons`wasUpdated, buttons`events, buttons.status, buttons.stamp,
               data`wasUpdated, data`events, data`callbacks, motion`zero, motion`oneG, motion`ratio,
               motion`calibrated, ExtRepr()
      ensures Parts()
    {
      var call := ReplyHelpers(buttons, data, p, now, IsContinuousReport());
      Invoke(call);
    }


    /** The helpers' part of the data-read branch: the buttons from byte 1 and the reply from
        byte 3, which hands back the callback waiting on its address. */
    static method ReplyHelpers(buttons: Buttons.ButtonPad, data: Data.DataChannel, p: InReport, now: real, buffered: bool)
      returns (call: Option<Data.Invocation>)
      requires buttons.Valid() && data.Valid()
      modifies buttons`word, buttons`wasUpdated, buttons`events, buttons.status, buttons.stamp,
               data`wasUpdated, data`events, data`callbacks
      ensures buttons.Valid() && data.Valid() && (call.Some? ==> |call.value.data| >= 14)
      ensures buttons.Snapshot() == Buttons.AfterWord(old(buttons.Snapshot()), buttons.masks, buttons.activeLow,
                                                      Buttons.ButtonWord(p[1], p[2]), buffered, now)
      ensures (data.Snapshot(), call) == Data.Replied(old(data.Snapshot()), p, 3)
    {
      buttons.OnButtonUpdate(p, 1, buffered, now);
      call := data.OnDataRead(p, 3);
    }

    /** The input-mask branch of the dispatch: the remote's own sections, then the
        extension's while one is plugged in; `rs` are the sections read. */
    method DispatchInput(p: InReport, now: real) returns (ghost rs: seq<Route>)
      requires Parts()
      modifies buttons`word, buttons`wasUpdated, buttons`events, buttons.status, buttons.stamp,
               motion`wasUpdated, motion`accel, motion`dir, motion`pitch, motion`roll, motion`lifetime, motion`queue,
               motion`active, motion`events, sensor.dots, ExtRepr()
      ensures Parts() && rs == InputRoutes(p[0], ext != null)
    {
      var buffered := IsContinuousReport();
      var off, r := OwnSections(buttons, motion, sensor, p, buffered, now);
      assert Parts();
      ghost var r4: seq<Route> := [];
      if ext != null {
        r4 := ExtensionInput(ext, p, off, buffered, now);
      }
      rs := r + r4;
    }

    /** The remote's own sections of an input report: buttons, then motion and IR; `next`
        is the offset after them. */
    static method OwnSections(buttons: Buttons.ButtonPad, motion: Motion.MotionSensor, sensor: Sensor.IRSensor,
                              p: InReport, buffered: bool, now: real) returns (next: nat, ghost rs: seq<Route>)
      requires buttons.Valid() && motion.Valid() && sensor.Valid()
      modifies buttons`word, buttons`wasUpdated, buttons`events, buttons.status, buttons.stamp,
               motion`wasUpdated, motion`accel, motion`dir, motion`pitch, motion`roll, motion`lifetime, motion`queue,
               motion`active, motion`events, sensor.dots
      ensures buttons.Valid() && motion.Valid() && sensor.Valid() && next <= 16
      ensures rs + (if p[0] & 0x04 != 0 then [ExtensionAt(next)] else []) == InputRoutes(p[0], true)
      ensures rs == InputRoutes(p[0], false)
      ensures next == ExtensionOffset(p[0])
    {
      var off, r1 := ButtonSection(buttons, p, buffered, now);
      ghost var off2 := if p[0] & 0x01 != 0 then off + 3 else off;
      var off3, r23 := PointerSections(motion, sensor, p, off, now);
      next, rs := off3, r1 + r23;
      ghost var r2 := if p[0] & 0x01 != 0 then [MotionAt(off)] else [];
      ghost var r3 := if p[0] & 0x02 != 0 then [SensorAt(off2)] else [];
      assert r1 + r23 == r1 + r2 + r3;
      InputRoutesOf(p[0], true, off, off2, off3, r1, r2, r3, if p[0] & 0x04 != 0 then [ExtensionAt(off3)] else []);
      InputRoutesOf(p[0], false, off, off2, off3, r1, r2, r3, []);
    }

    /** Motion, then IR, from the offset the buttons leave. */
    static method PointerSections(motion: Motion.MotionSensor, sensor: Sensor.IRSensor, p: InReport, off: nat, now: real)
      returns (next: nat, ghost rs: seq<Route>)
      requires motion.Valid() && sensor.Valid() && off <= 3
      modifies motion`wasUpdated, motion`accel, motion`dir, motion`pitch, motion`roll, motion`lifetime, motion`queue,
               motion`active, motion`events, sensor.dots
      ensures motion.Valid() && sensor.Valid()
      ensures var m, ir := p[0] & 0x01 != 0, p[0] & 0x02 != 0;
              var o2 := if m then off + 3 else off;
              next == (if ir then o2 + 10 else o2) &&
              rs == (if m then [MotionAt(off)] else []) + (if ir then [SensorAt(o2)] else [])
    {
      var off2, r2 := MotionSection(motion, p, off, now);
      var off3, r3 := SensorSection(sensor, p, off2);
      next, rs := off3, r2 + r3;
    }

    /** Buttons when both bits 4 and 5 are set: m_pButtons->OnButtonUpdate(buffer, 1, tick). */
    static method ButtonSection(buttons: Buttons.ButtonPad, p: InReport, buffered: bool, now: real)
      returns (next: nat, ghost rs: seq<Route>)
      requires buttons.Valid()
      modifies buttons`word, buttons`wasUpdated, buttons`events, buttons.status, buttons.stamp
      ensures buttons.Valid()
      ensures var b := p[0] & 0x30 == 0x30;
              next == (if b then 3 else 1) && rs == (if b then [ButtonsAt(1)] else [])
      ensures buttons.Snapshot() == if p[0] & 0x30 == 0x30
                                    then Buttons.AfterWord(old(buttons.Snapshot()), buttons.masks, buttons.activeLow,
                                                           Buttons.ButtonWord(p[1], p[2]), buffered, now)
                                    else old(buttons.Snapshot())
    {
      next, rs := 1, [];
      if p[0] & 0x30 == 0x30 {
        buttons.OnButtonUpdate(p, 1, buffered, now);
        next, rs := 3, [ButtonsAt(1)];
      }
    }

    /** Motion for bit 0: m_pMotion->OnMotionUpdate(buffer, offset, tick). */
    static method MotionSection(motion: Motion.MotionSensor, p: InReport, off: nat, now: real)
      returns (next: nat, ghost rs: seq<Route>)
      requires motion.Valid() && off <= 3
      modifies motion`wasUpdated, motion`accel, motion`dir, motion`pitch, motion`roll, motion`lifetime,
               motion`queue, motion`active, motion`events
      ensures motion.Valid()
      ensures var m := p[0] & 0x01 != 0;
              next == (if m then off + 3 else off) && rs == (if m then [MotionAt(off)] else [])
      ensures motion.Snapshot() == if p[0] & 0x01 != 0
                                   then motion.Sample(old(motion.Snapshot()), Motion.Bytes3(p[off], p[off + 1], p[off + 2]), true)
                                   else old(motion.Snapshot())
    {
      next, rs := off, [];
      if p[0] & 0x01 != 0 {
        motion.OnMotionUpdate(p, off, now);
        next, rs := off + 3, [MotionAt(off)];
      }
    }

    /** IR for bit 1: m_pSensor->OnSensorUpdate(buffer, offset, tick). */
    static method SensorSection(sensor: Sensor.IRSensor, p: InReport, off: nat) returns (next: nat, ghost rs: seq<Route>)
      requires sensor.Valid() && off <= 6
      modifies sensor.dots
      ensures sensor.Valid()
      ensures var ir := p[0] & 0x02 != 0;
              next == (if ir then off + 10 else off) && rs == (if ir then [SensorAt(off)] else [])
      ensures sensor.dots[..] == if p[0] & 0x02 != 0 then Sensor.Sensed(old(sensor.dots[..]), p, off) else old(sensor.dots[..])
    {
      next, rs := off, [];
      if p[0] & 0x02 != 0 {
        sensor.OnSensorUpdate(p, off);
        next, rs := off + 10, [SensorAt(off)];
      }
    }

    /** The extension's section as the dispatch sees it: the routes it reads. */
    static method ExtensionInput(e: Nunchuk.Nunchuk, p: InReport, off: nat, buffered: bool, now: real)
      returns (ghost rs: seq<Route>)
      requires e.Valid() && off <= 16
      modifies e.pad`word, e.pad`wasUpdated, e.pad`events, e.pad.status, e.pad.stamp,
               e.motion`accel, e.motion`dir, e.motion`pitch, e.motion`roll, e.motion`lifetime, e.motion`queue,
               e.motion`active, e.motion`events, e`analogX, e`analogY, e`analogEvents
      ensures e.Valid() && rs == if p[0] & 0x04 != 0 then [ExtensionAt(off)] else []
    {
      rs := ExtensionSection(e, p, off, buffered, now);
    }

    /** The extension for bit 2 while one is plugged in:
        m_pExtension->OnUpdate(WR_EXTENSION_UPDATE_REPORT, buffer, offset, tick). */
    static method ExtensionSection(e: Nunchuk.Nunchuk, p: InReport, off: nat, buffered: bool, now: real)
      returns (ghost rs: seq<Route>)
      requires e.Valid() && off <= 16
      modifies e.pad`word, e.pad`wasUpdated, e.pad`events, e.pad.status, e.pad.stamp,
               e.motion`accel, e.motion`dir, e.motion`pitch, e.motion`roll, e.motion`lifetime, e.motion`queue,
               e.motion`active, e.motion`events, e`analogX, e`analogY, e`analogEvents
      ensures e.Valid() && rs == if p[0] & 0x04 != 0 then [ExtensionAt(off)] else []
      ensures e.Snapshot() == if p[0] & 0x04 != 0
                              then e.AfterReport(old(e.Snapshot()), Nunchuk.Decrypted(p), off, buffered, now)
                              else old(e.Snapshot())
    {
      rs := [];
      if p[0] & 0x04 != 0 {
        e.OnUpdate(Nunchuk.UPDATE_REPORT, p, off, buffered, now);
        rs := [ExtensionAt(off)];
      }
    }


    /** The callback a data reply hands back: calibration of the remote's accelerometer, or of
        the Nunchuk while one is plugged in. */
    method Invoke(call: Option<Data.Invocation>)
      requires Parts() && (call.Some? ==> |call.value.data| >= 14)
      modifies motion`zero, motion`oneG, motion`ratio, motion`calibrated, ExtRepr()
      ensures Parts()
      ensures motion.Calib() == if call.Some? && call.value.cb == Data.RemoteCalibration
                                then Motion.Recalibrated(old(motion.Calib()), call.value.addr, call.value.data)
                                else old(motion.Calib())
      ensures ext != null ==>
                ext.Snapshot() == old(ext.Snapshot()) &&
                ext.Calib() == if call.Some? && call.value.cb == Data.NunchukCalibration
                               then Nunchuk.CalibrationOf(call.value.data) else old(ext.Calib())
    {
      if call.Some? {
        var c := call.value;
        if c.cb == Data.RemoteCalibration {
          motion.OnCalibrateData(c.addr, c.data);
        } else if c.cb == Data.NunchukCalibration && ext != null {
          ext.OnCalibrateData(c.addr, c.data);
        }
      }
    }

    /** UpdateStatus: the status flags and battery are read from bytes 3 and 6 and announced
        when either changed; an expansion not yet checked is probed, and an expansion gone
        takes the extension with it. */
    method UpdateStatus(p: InReport, now: real)
      requires Valid() && Parts()
      modifies this`flags, this`battery, this`notices, this`reportMode, this`ext, this`plugs,
               data`callbacks, data.out, sensor`enabled, sensor`lastOnScreen
      ensures Valid() && Parts() && (ext == null || ext == old(ext))
      ensures flags.(checkedExt := false) == StatusFlags(old(flags), p[3]).(checkedExt := false)
      ensures battery == p[6] as int && reportMode == old(reportMode)
      ensures var f := StatusFlags(old(flags), p[3]);
              notices == old(notices) + (if f.status != old(flags).status || p[6] as int != old(battery)
                                         then [StatusChanged(f, p[6] as int)] else [])
      ensures var f := StatusFlags(old(flags), p[3]);
              if !f.checkedExt && f.status.expansion then
                flags == f && ext == old(ext) && plugs == old(plugs) &&
                data.out.queue == old(data.out.queue) + ProbePackets(f.connected, reportMode, f.continuous, f.rumbleOn)
              else if !f.status.expansion && old(ext) != null then
                flags == f.(checkedExt := false) && ext == null && plugs == old(plugs) + [false] &&
                data.out.queue == old(data.out.queue)
              else
                flags == f && ext == old(ext) && plugs == old(plugs) && data.out.queue == old(data.out.queue)
    {
      ApplyStatus(p);
      assert flags == StatusFlags(old(flags), p[3]);
      assert ext == old(ext) && plugs == old(plugs) && data.out.queue == old(data.out.queue);
      CheckExtension(now);
    }

    /** The extension half of UpdateStatus: an expansion reported but not yet checked is
        probed, an extension no longer reported is unplugged. */
    method CheckExtension(now: real)
      requires Valid() && Parts()
      modifies this`flags, this`reportMode, this`notices, this`ext, this`plugs,
               data`callbacks, data.out, sensor`enabled, sensor`lastOnScreen
      ensures Valid() && Parts() && reportMode == old(reportMode) && notices == old(notices)
      ensures var f := old(flags);
              if !f.checkedExt && f.status.expansion then
                flags == f && ext == old(ext) && plugs == old(plugs) &&
                data.out.queue == old(data.out.queue) + ProbePackets(f.connected, reportMode, f.continuous, f.rumbleOn)
              else if !f.status.expansion && old(ext) != null then
                flags == f.(checkedExt := false) && ext == null && plugs == old(plugs) + [false] &&
                data.out.queue == old(data.out.queue)
              else
                flags == f && ext == old(ext) && plugs == old(plugs) && data.out.queue == old(data.out.queue)
    {
      if !flags.checkedExt && flags.status.expansion {
        ProbeExtension(now);
      } else if !flags.status.expansion && ext != null {
        Unplug();
      }
    }

    /** The status byte and the battery level taken over, with a notice when either changed. */
    method ApplyStatus(p: InReport)
      requires Valid()
      modifies this`flags, this`battery, this`notices
      ensures Valid()
      ensures flags == StatusFlags(old(flags), p[3]) && battery == p[6] as int
      ensures notices == old(notices) + (if flags.status != old(flags).status || battery != old(battery)
                                         then [StatusChanged(flags, battery)] else [])
    {
      var prevStatus := flags.status;
      var prevBattery := battery;
      flags := StatusFlags(flags, p[3]);
      battery := p[6] as int;
      if flags.status != prevStatus || battery != prevBattery {
        notices := notices + [StatusChanged(flags, battery)];
      }
    }

    /** The extension is gone: it is released, unplugging is logged and the
        extension-checked flag cleared. */
    method Unplug()
      requires Valid() && ext != null
      modifies this`ext, this`flags, this`plugs
      ensures Valid() && ext == null && flags == old(flags).(checkedExt := false) && plugs == old(plugs) + [false]
    {
      Toggle(plugs, true);
      plugs := plugs + [false];
      ext := null;
      flags := flags.(checkedExt := false);
    }

    /** The extension handshake of UpdateStatus: zero written to the init register, the
        report re-sent with the current mode and continuity, and the type register read
        with no callback. */
    method ProbeExtension(now: real)
      requires data.Valid() && sensor.Valid()
      modifies this`flags, this`reportMode, this`notices, data`callbacks, data.out, sensor`enabled, sensor`lastOnScreen
      ensures data.Valid() && sensor.Valid()
      ensures flags == old(flags) && reportMode == old(reportMode) && notices == old(notices)
      ensures data.out.queue == old(data.out.queue) + ProbePackets(flags.connected, reportMode, flags.continuous, Rumble())
      ensures data.callbacks == old(data.callbacks)[EXTENSION_TYPELOC % 0x1_0000 :=
                Data.Queued(old(data.callbacks), EXTENSION_TYPELOC % 0x1_0000) + [Data.NoCallback]]
    {
      ghost var q0 := data.out.queue;
      ghost var w := Data.WritePackets(EXTENSION_REGISTERLOC, [0x00], 0, Rumble());
      ghost var r := if flags.connected then ReportPackets(reportMode, flags.continuous, Rumble()) else [];
      ghost var d := Data.ReadPackets(EXTENSION_TYPELOC, EXTENSION_TYPESIZE, 0, Rumble());
      data.WriteData(EXTENSION_REGISTERLOC, [0x00], Rumble());
      SetReport(reportMode, flags.continuous, now);
      data.ReadData(EXTENSION_TYPELOC, EXTENSION_TYPESIZE, Data.NoCallback, Rumble());
      assert data.out.queue == q0 + w + r + d;
      Append(q0 + w, r, d);
      Append(q0, w, r + d);
      Append(w, r, d);
    }

    /** OnDataRead: a reply from the extension type register (low address 0x00FE) while no
        extension exists creates a Nunchuk when the type is 0xFEFE; it is initialised,
        marked checked and announced. */
    method OnDataRead(p: InReport)
      requires Valid() && Parts()
      modifies this`ext, this`flags, this`plugs
      ensures Valid() && Parts() && Grown()
      ensures var created := old(ext) == null && ExtensionReply(p) == Some(EXTENSION_NUNCHUK);
              (created ==> ext != null && flags == old(flags).(checkedExt := true) && plugs == old(plugs) + [true]) &&
              (!created ==> ext == old(ext) && flags == old(flags) && plugs == old(plugs))
    {
      var addr := (p[4] as int) * 256 + (p[5] as int);
      if addr == EXTENSION_TYPELOC % 0x1_0000 && ext == null {
        var kind := (p[6] as int) * 256 + (p[7] as int);
        if kind == EXTENSION_NUNCHUK {
          var n := CreateNunchuk(orient);
          flags := flags.(checkedExt := true);
          ext := n;
          Toggle(plugs, false);
          plugs := plugs + [true];
        }
      }
    }

    /** The finalisers of every helper, once per Update. */
    static method PostUpdates(buttons: Buttons.ButtonPad, motion: Motion.MotionSensor, data: Data.DataChannel,
                              sensor: Sensor.IRSensor, ext: Nunchuk.Nunchuk?, now: real, delta: real)
      requires buttons.Valid() && motion.Valid() && data.Valid() && sensor.Valid()
      requires ext != null ==> ext.Valid() && ext.pad != buttons && ext.pad.status != buttons.status
      modifies buttons`actions, buttons`wasUpdated, buttons`events, buttons.status, motion`wasUpdated,
               data`wasUpdated, sensor`x, sensor`y, sensor`onScreen, sensor`lastOnScreen, sensor`events,
               sensor.dots, if ext == null then {} else {ext.pad, ext.pad.status}
      ensures buttons.Valid() && motion.Valid() && data.Valid() && sensor.Valid() && (ext != null ==> ext.Valid())
      ensures !buttons.wasUpdated && !motion.wasUpdated && !data.wasUpdated && (ext != null ==> !ext.pad.wasUpdated)
    {
      PostOwn(buttons, motion, data, sensor, now, delta);
      if ext != null {
        PostExtension(ext, now, delta);
      }
    }

    /** The extension's finaliser. */
    static method PostExtension(ext: Nunchuk.Nunchuk, now: real, delta: real)
      requires ext.Valid()
      modifies ext.pad, ext.pad.status
      ensures ext.Valid() && !ext.pad.wasUpdated
    {
      ext.OnPostUpdate(now, delta);
    }

    /** The post-update pass over the remote's own helpers. */
    static method PostOwn(buttons: Buttons.ButtonPad, motion: Motion.MotionSensor, data: Data.DataChannel,
                          sensor: Sensor.IRSensor, now: real, delta: real)
      requires buttons.Valid() && sensor.Valid()
      modifies buttons`actions, buttons`wasUpdated, buttons`events, buttons.status, motion`wasUpdated,
               data`wasUpdated, sensor`x, sensor`y, sensor`onScreen, sensor`lastOnScreen, sensor`events,
               sensor.dots
      ensures buttons.Valid() && sensor.Valid() && !buttons.wasUpdated && !motion.wasUpdated && !data.wasUpdated
      ensures buttons.Snapshot() == Buttons.AfterPost(old(buttons.Snapshot()), buttons.masks, now, delta)
      ensures motion.Snapshot() == old(motion.Snapshot()).(updated := false)
      ensures data.Snapshot() == old(data.Snapshot()).(updated := false)
      ensures sensor.dots[..] == old(sensor.dots[..]) && sensor.Pointer() == Sensor.Tracked(old(sensor.Pointer()), old(sensor.dots[..]), now)
    {
      buttons.OnPostUpdate(now, delta);
      motion.OnPostUpdate();
      data.OnPostUpdate();
      sensor.OnPostUpdate(now);
    }

    /** The timeout check of Update: a stale connection or attempt clears the connection
        flags, unplugs the extension and is announced as a timed-out disconnect. */
    method CheckTimeout(now: real) returns (lost: bool)
      requires Valid()
      modifies this`flags, this`attemptStart, this`ext, this`plugs, this`links
      ensures Valid() && lost == TimedOut(old(flags), now, old(attemptStart), lastRecv, timeout)
      ensures lost ==> flags == old(flags).(attempt := false, connected := false, checkedExt := false) &&
                       ext == null && attemptStart == 0.0 && links == old(links) + [Disconnected(true)] &&
                       plugs == old(plugs) + (if old(ext) != null then [false] else [])
      ensures !lost ==> flags == old(flags) && attemptStart == old(attemptStart) && ext == old(ext) &&
                        links == old(links) && plugs == old(plugs)
    {
      lost := TimedOut(flags, now, attemptStart, lastRecv, timeout);
      if lost {
        flags := flags.(attempt := false, connected := false, checkedExt := false);
        attemptStart := 0.0;
        if ext != null {
          Toggle(plugs, true);
          plugs := plugs + [false];
          ext := null;
        }
        links := links + [Disconnected(true)];
      }
    }

    /** SetConnectionTimeout. */
    method SetConnectionTimeout(t: real)
      requires Valid()
      modifies this`timeout
      ensures Valid() && timeout == t
    {
      timeout := t;
    }
  }
  /** The extension type a data reply carries, when it answers the type register. */
  function ExtensionReply(p: seq<bv8>): (r: Option<int>)
    requires |p| >= 8
    ensures r.Some? <==> (p[4] as int) * 256 + (p[5] as int) == 0x00FE
    ensures r.Some? ==> 0 <= r.value < 0x1_0000 && r.value / 256 == p[6] as int && r.value % 256 == p[7] as int
  {
    if (p[4] as int) * 256 + (p[5] as int) == EXTENSION_TYPELOC % 0x1_0000 then Some((p[6] as int) * 256 + (p[7] as int)) else None
  }
}
