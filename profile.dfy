// CWiiRemoteProfile (CWiiRemoteProfile.cpp, IWiiRemoteProfile.h): the table of
// named, grouped, typed settings behind the game's gesture thresholds and key
// bindings, its factory defaults, and the translation of a binding into the
// button mask the Wii Remote or the Nunchuk is queried with.
module Profile {
  import opened Wrappers
  import Buttons
  import Nunchuk

  // ---------------------------------------------------------------- buttons

  /** EWiiButton: the bindable buttons; WIIBTN_MAX counts them. */
  const WIIBTN_NONE: int := 0
  const WIIBTN_DPAD_UP: int := 1
  const WIIBTN_DPAD_DOWN: int := 2
  const WIIBTN_DPAD_LEFT: int := 3
  const WIIBTN_DPAD_RIGHT: int := 4
  const WIIBTN_A: int := 5
  const WIIBTN_B: int := 6
  const WIIBTN_1: int := 7
  const WIIBTN_2: int := 8
  const WIIBTN_HOME: int := 9
  const WIIBTN_MINUS: int := 10
  const WIIBTN_PLUS: int := 11
  const WIIBTN_C: int := 12
  const WIIBTN_Z: int := 13
  const WIIBTN_MAX: int := 14

  /** NUNCHUK_BIT: marks a translated mask as one of the Nunchuk's buttons. */
  const NUNCHUK_BIT: bv32 := 0xF0

  /** szWiiButtonNames, indexed by EWiiButton. */
  const BUTTON_NAMES: seq<string> := ["None", "DPad Up", "DPad Down", "DPad Left", "DPad Right", "A", "B",
                                      "1", "2", "Home", "Minus", "Plus", "C", "Z"]

  /** The Wii Remote's buttons in the order of its button pad's masks. */
  const REMOTE_BUTTONS: seq<int> := [WIIBTN_DPAD_UP, WIIBTN_DPAD_DOWN, WIIBTN_DPAD_LEFT, WIIBTN_DPAD_RIGHT,
                                     WIIBTN_A, WIIBTN_B, WIIBTN_MINUS, WIIBTN_PLUS, WIIBTN_1, WIIBTN_2,
                                     WIIBTN_HOME]

  /**
   * TranslateButton: a Wii Remote button becomes its mask in the remote's button word,
   * C and Z become the Nunchuk's mask with NUNCHUK_BIT added, and anything else 0.
   */
  function TranslateButton(b: int): (r: bv32)
    ensures r == 0 <==> !(WIIBTN_NONE < b < WIIBTN_MAX)
    ensures WIIBTN_NONE < b < WIIBTN_C ==> r in Buttons.REMOTE_MASKS
    ensures b == WIIBTN_C ==> r == Nunchuk.BUTTON_C | NUNCHUK_BIT
    ensures b == WIIBTN_Z ==> r == Nunchuk.BUTTON_Z | NUNCHUK_BIT
  {
    if b == WIIBTN_DPAD_UP then Buttons.DPAD_UP
    else if b == WIIBTN_DPAD_DOWN then Buttons.DPAD_DOWN
    else if b == WIIBTN_DPAD_LEFT then Buttons.DPAD_LEFT
    else if b == WIIBTN_DPAD_RIGHT then Buttons.DPAD_RIGHT
    else if b == WIIBTN_A then Buttons.BUTTON_A
    else if b == WIIBTN_B then Buttons.BUTTON_B
    else if b == WIIBTN_1 then Buttons.BUTTON_ONE
    else if b == WIIBTN_2 then Buttons.BUTTON_TWO
    else if b == WIIBTN_HOME then Buttons.BUTTON_HOME
    else if b == WIIBTN_MINUS then Buttons.BUTTON_MINUS
    else if b == WIIBTN_PLUS then Buttons.BUTTON_PLUS
    else if b == WIIBTN_C then Nunchuk.BUTTON_C | NUNCHUK_BIT
    else if b == WIIBTN_Z then Nunchuk.BUTTON_Z | NUNCHUK_BIT
    else 0
  }

  /** No two bindable buttons share a mask. */
  lemma TranslateInjective(a: int, b: int)
    requires WIIBTN_NONE < a < WIIBTN_MAX && WIIBTN_NONE < b < WIIBTN_MAX && a != b
    ensures TranslateButton(a) != TranslateButton(b)
  {
  }

  /** The Wii Remote's buttons translate to the pad's masks, position by position. */
  lemma TranslateRemoteOrder()
    ensures |REMOTE_BUTTONS| == |Buttons.REMOTE_MASKS|
    ensures forall k :: 0 <= k < |REMOTE_BUTTONS| ==> TranslateButton(REMOTE_BUTTONS[k]) == Buttons.REMOTE_MASKS[k]
  {
  }

  /** The Nunchuk's side of a query: its button statuses and buffered times, when one is plugged in. */
  datatype Pad = Pad(status: seq<Buttons.Status>, stamps: seq<real>)

  /**
   * CWiiRemoteManager::IsButtonDown on a binding: C and Z ask the Nunchuk (and are up when
   * there is none), every other binding asks the Wii Remote, both with no error window.
   */
  predicate BindingDown(b: int, remote: Pad, nunchuk: Option<Pad>, now: real)
    requires |remote.status| == |remote.stamps| == |Buttons.REMOTE_MASKS|
    requires nunchuk.Some? ==> |nunchuk.value.status| == |nunchuk.value.stamps| == |Nunchuk.NUNCHUK_MASKS|
  {
    if b == WIIBTN_C || b == WIIBTN_Z then
      nunchuk.Some? &&
      Buttons.ButtonStatus(Nunchuk.NUNCHUK_MASKS, nunchuk.value.status, nunchuk.value.stamps,
                           TranslateButton(b), now, 0.0) != Buttons.Up
    else
      Buttons.ButtonStatus(Buttons.REMOTE_MASKS, remote.status, remote.stamps, TranslateButton(b), now, 0.0)
        != Buttons.Up
  }

  /** A binding to one of the Wii Remote's buttons reads exactly that button. */
  lemma RemoteBindingReadsItsButton(k: nat, remote: Pad, nunchuk: Option<Pad>, now: real)
    requires k < |REMOTE_BUTTONS|
    requires |remote.status| == |remote.stamps| == |Buttons.REMOTE_MASKS|
    requires nunchuk.Some? ==> |nunchuk.value.status| == |nunchuk.value.stamps| == |Nunchuk.NUNCHUK_MASKS|
    ensures BindingDown(REMOTE_BUTTONS[k], remote, nunchuk, now) <==> remote.status[k] != Buttons.Up
  {
    TranslateRemoteOrder();
    Buttons.RemoteMasksSingleBits();
    Buttons.SingleButtonStatus(Buttons.REMOTE_MASKS, remote.status, remote.stamps, k, now, 0.0);
  }

  /**
   * A binding to C or Z reads that Nunchuk button (C is the pad's second button, Z its
   * first), although NUNCHUK_BIT makes the query a chord of the buttons it contains; with
   * no Nunchuk it is up.
   */
  lemma NunchukBindingReadsItsButton(b: int, remote: Pad, nunchuk: Option<Pad>, now: real)
    requires b == WIIBTN_C || b == WIIBTN_Z
    requires |remote.status| == |remote.stamps| == |Buttons.REMOTE_MASKS|
    requires nunchuk.Some? ==> |nunchuk.value.status| == |nunchuk.value.stamps| == |Nunchuk.NUNCHUK_MASKS|
    ensures BindingDown(b, remote, nunchuk, now) <==>
              nunchuk.Some? && nunchuk.value.status[if b == WIIBTN_C then 1 else 0] != Buttons.Up
  {
    if nunchuk.Some? {
      var st, sp := nunchuk.value.status, nunchuk.value.stamps;
      var m := TranslateButton(b);
      assert !IsPow2(m);
      var k := if b == WIIBTN_C then 1 else 0;
      var s := Buttons.Effective(st[k], sp[k], now, 0.0);
      assert s == st[k];
      assert Buttons.Members(Nunchuk.NUNCHUK_MASKS, st, sp, m, now, 0.0, 1) == (if k == 0 then [s] else []);
      assert Buttons.Members(Nunchuk.NUNCHUK_MASKS, st, sp, m, now, 0.0, 2) == [s];
    }
  }

  /** An unbound slot (WIIBTN_NONE, or any value outside the buttons) is never down. */
  lemma UnboundNeverDown(b: int, remote: Pad, nunchuk: Option<Pad>, now: real)
    requires !(WIIBTN_NONE < b < WIIBTN_MAX)
    requires |remote.status| == |remote.stamps| == |Buttons.REMOTE_MASKS|
    requires nunchuk.Some? ==> |nunchuk.value.status| == |nunchuk.value.stamps| == |Nunchuk.NUNCHUK_MASKS|
    ensures !BindingDown(b, remote, nunchuk, now)
  {
    Buttons.RemoteMasksSingleBits();
    assert 0 !in Buttons.REMOTE_MASKS;
    Buttons.LookupMissing(Buttons.REMOTE_MASKS, remote.status, 0);
  }

  /** The button names are distinct, so a name stands for one button. */
  lemma NamesDistinct()
    ensures forall i, j :: 0 <= i < j < |BUTTON_NAMES| ==> BUTTON_NAMES[i] != BUTTON_NAMES[j]
  {
  }

  /**
   * TranslateStrButton: the first button whose name is exactly `name` (a case-sensitive
   * comparison), or WIIBTN_NONE when no button has that name.
   */
  method TranslateStrButton(name: string) returns (r: int)
    ensures WIIBTN_NONE <= r < WIIBTN_MAX
    ensures name in BUTTON_NAMES <==> BUTTON_NAMES[r] == name
    ensures forall b :: 0 <= b < WIIBTN_MAX && BUTTON_NAMES[b] == name ==> r == b
    ensures name !in BUTTON_NAMES ==> r == WIIBTN_NONE
  {
    NamesDistinct();
    for i := 0 to WIIBTN_MAX
      invariant forall j :: 0 <= j < i ==> BUTTON_NAMES[j] != name
    {
      if BUTTON_NAMES[i] == name {
        return i;
      }
    }
    return WIIBTN_NONE;
  }

  /** Every button's name translates back to that button. */
  lemma NameRoundTrip(b: int)
    requires WIIBTN_NONE <= b < WIIBTN_MAX
    ensures BUTTON_NAMES[b] in BUTTON_NAMES
    ensures forall c :: 0 <= c < WIIBTN_MAX && BUTTON_NAMES[c] == BUTTON_NAMES[b] ==> c == b
  {
    NamesDistinct();
  }

  // ---------------------------------------------------------------- variables

  /** WRP_VARIABLE_TYPE. */
  const NOTYPE: int := 0
  const FLOAT: int := 1
  const BUTTON: int := 2
  const BOOL: int := 3

  /** FLT_MIN (2^-126) and FLT_MAX ((2 - 2^-23) * 2^127), the default range of a variable. */
  const FLT_MIN: real := 1.0 / 85070591730234615865843651857942052864.0
  const FLT_MAX: real := 340282346638528859811704183484516925440.0

  /** m_nType together with the union it selects: a variable holds a float, a button or a bool. */
  datatype Value = NoType | FloatVal(f: real) | ButtonVal(b: int) | BoolVal(x: bool)
  {
    /** GetType. */
    function Type(): (r: int)
      ensures NOTYPE <= r <= BOOL
      ensures r == NOTYPE <==> NoType?
      ensures r == FLOAT <==> FloatVal?
      ensures r == BUTTON <==> ButtonVal?
    {
      match this
      case NoType => NOTYPE
      case FloatVal(_) => FLOAT
      case ButtonVal(_) => BUTTON
      case BoolVal(_) => BOOL
    }

    /** GetValueFloat: 0 unless the variable is a float. */
    function Float(): (r: real)
      ensures Type() != FLOAT ==> r == 0.0
      ensures FloatVal? ==> r == f
    {
      if FloatVal? then f else 0.0
    }

    /** GetValueButton: WIIBTN_NONE unless the variable is a button. */
    function Button(): (r: int)
      ensures Type() != BUTTON ==> r == WIIBTN_NONE
      ensures ButtonVal? ==> r == b
    {
      if ButtonVal? then b else WIIBTN_NONE
    }

    /** GetValueBool: false unless the variable is a bool. */
    function Bool(): (r: bool)
      ensures Type() != BOOL ==> !r
      ensures BoolVal? ==> r == x
    {
      if BoolVal? then x else false
    }

    /** SetValue(float): a float variable takes the value clamped to its range; any other is left alone. */
    function SetFloat(v: real, lo: real, hi: real): (r: Value)
      ensures r.Type() == Type()
      ensures !FloatVal? ==> r == this
      ensures FloatVal? && lo <= hi ==> lo <= r.Float() <= hi
      ensures FloatVal? && lo <= v <= hi ==> r.Float() == v
    {
      if FloatVal? then FloatVal(Clamp(v, lo, hi)) else this
    }

    /** SetValue(EWiiButton): a button variable takes the value clamped to the real buttons. */
    function SetButton(v: int): (r: Value)
      ensures r.Type() == Type()
      ensures !ButtonVal? ==> r == this
      ensures ButtonVal? ==> WIIBTN_NONE < r.Button() < WIIBTN_MAX
      ensures ButtonVal? && WIIBTN_NONE < v < WIIBTN_MAX ==> r.Button() == v
    {
      if ButtonVal? then ButtonVal(ClampInt(v, WIIBTN_NONE + 1, WIIBTN_MAX - 1)) else this
    }

    /** SetValue(bool): a bool variable takes the value. */
    function SetBool(v: bool): (r: Value)
      ensures r.Type() == Type()
      ensures !BoolVal? ==> r == this
      ensures BoolVal? ==> r.Bool() == v
    {
      if BoolVal? then BoolVal(v) else this
    }
  }

  /** A button variable given WIIBTN_NONE, as TranslateStrButton returns for an unknown name, binds DPad Up. */
  lemma UnknownNameBindsFirstButton(v: Value)
    requires v.ButtonVal?
    ensures v.SetButton(WIIBTN_NONE).Button() == WIIBTN_DPAD_UP
  {
  }

  /** What a variable holds. */
  datatype VarState = VarState(value: Value, name: string, group: string, min: real, max: real)

  /** A variable as its constructor leaves it. */
  const FRESH: VarState := VarState(NoType, "", "", FLT_MIN, FLT_MAX)

  /** The value lies in the range its setter keeps it in. */
  predicate InRange(st: VarState)
  {
    (st.value.FloatVal? ==> st.min <= st.value.f <= st.max) &&
    (st.value.ButtonVal? ==> WIIBTN_NONE < st.value.b < WIIBTN_MAX)
  }

  /** The setters keep a variable in range as long as its range is not empty. */
  lemma SettersKeepRange(st: VarState, x: real, b: int, flag: bool)
    requires InRange(st) && (st.value.FloatVal? ==> st.min <= st.max)
    ensures InRange(st.(value := st.value.SetFloat(x, st.min, st.max)))
    ensures InRange(st.(value := st.value.SetButton(b)))
    ensures InRange(st.(value := st.value.SetBool(flag)))
  {
  }

  /** CWiiRemoteProfileVariable. */
  class Variable {
    var value: Value
    var name: string
    var group: string
    var min: real
    var max: real

    function State(): VarState
      reads this
    {
      VarState(value, name, group, min, max)
    }

    /** No type, no name, and the range from FLT_MIN to FLT_MAX. */
    constructor()
      ensures State() == FRESH
    {
      value, name, group, min, max := NoType, "", "", FLT_MIN, FLT_MAX;
    }

    /** Initialize(name, group, float): names the variable and makes it a float; the range is kept. */
    method InitializeFloat(n: string, g: string, x: real)
      modifies this
      ensures State() == old(State()).(value := FloatVal(x), name := n, group := g)
    {
      name, group, value := n, g, FloatVal(x);
    }

    /** Initialize(name, group, EWiiButton). */
    method InitializeButton(n: string, g: string, b: int)
      modifies this
      ensures State() == old(State()).(value := ButtonVal(b), name := n, group := g)
    {
      name, group, value := n, g, ButtonVal(b);
    }

    /** Initialize(name, group, bool). */
    method InitializeBool(n: string, g: string, x: bool)
      modifies this
      ensures State() == old(State()).(value := BoolVal(x), name := n, group := g)
    {
      name, group, value := n, g, BoolVal(x);
    }

    /** SetRange(min, max); called with the minimum alone, the maximum is FLT_MAX. */
    method SetRange(lo: real, hi: real)
      modifies this
      ensures State() == old(State()).(min := lo, max := hi)
    {
      min, max := lo, hi;
    }

    method SetValueFloat(x: real)
      modifies this
      ensures State() == old(State()).(value := old(value).SetFloat(x, min, max))
    {
      value := value.SetFloat(x, min, max);
    }

    method SetValueButton(b: int)
      modifies this
      ensures State() == old(State()).(value := old(value).SetButton(b))
    {
      value := value.SetButton(b);
    }

    method SetValueBool(x: bool)
      modifies this
      ensures State() == old(State()).(value := old(value).SetBool(x))
    {
      value := value.SetBool(x);
    }

    /** One slot of SetToDefault: its Initialize call, then its SetRange call if it has one. */
    method Apply(s: Option<Setting>)
      modifies this
      ensures State() == Applied(s, old(State()))
    {
      if s.Some? {
        match s.value.init {
          case FloatVal(x) => InitializeFloat(s.value.name, s.value.group, x);
          case ButtonVal(b) => InitializeButton(s.value.name, s.value.group, b);
          case BoolVal(x) => InitializeBool(s.value.name, s.value.group, x);
          case NoType => value, name, group := NoType, s.value.name, s.value.group;
        }
        if s.value.range.Some? {
          SetRange(s.value.range.value.lo, s.value.range.value.hi);
        }
      }
    }
  }

  // ---------------------------------------------------------------- defaults

  /** A SetRange call. */
  datatype Bounds = Bounds(lo: real, hi: real)

  /** One slot of SetToDefault: the Initialize call's name, group and value, and the SetRange call if any. */
  datatype Setting = Setting(name: string, group: string, init: Value, range: Option<Bounds>)

  /** A variable after its slot of SetToDefault; a slot SetToDefault does not touch is left as it was. */
  function Applied(s: Option<Setting>, st: VarState): VarState
  {
    match s
    case None => st
    case Some(x) =>
      var named := st.(value := x.init, name := x.name, group := x.group);
      if x.range.Some? then named.(min := x.range.value.lo, max := x.range.value.hi) else named
  }

  /** A float slot: Initialize with a float, then SetRange. */
  function Real(name: string, group: string, x: real, lo: real, hi: real): (r: Option<Setting>)
    ensures lo <= x <= hi ==> Sound(r)
  {
    Some(Setting(name, group, FloatVal(x), Some(Bounds(lo, hi))))
  }

  /** A button slot: Initialize with a button. */
  function Key(name: string, group: string, b: int): (r: Option<Setting>)
    ensures WIIBTN_NONE < b < WIIBTN_MAX ==> Sound(r)
  {
    Some(Setting(name, group, ButtonVal(b), None))
  }

  /** A bool slot: Initialize with a bool. */
  function Flag(name: string, group: string, x: bool): (r: Option<Setting>)
    ensures Sound(r)
  {
    Some(Setting(name, group, BoolVal(x), None))
  }

  /** EPROFILEVARIABLES_COUNT. */
  const COUNT: nat := 109

  /** The slot of EnableRumble, which gates every rumble request of the game. */
  const ENABLE_RUMBLE: nat := 6

  /** A slot SetToDefault leaves usable: initialised, float defaults inside their range, button defaults a button. */
  predicate Sound(s: Option<Setting>)
  {
    s.Some? &&
    match s.value.init
    case NoType => false
    case FloatVal(x) => s.value.range.Some? && s.value.range.value.lo <= x <= s.value.range.value.hi
    case ButtonVal(b) => WIIBTN_NONE < b < WIIBTN_MAX && s.value.range.None?
    case BoolVal(_) => s.value.range.None?
  }

  /** SetToDefault as written, slot by slot: every slot but EnableRumble's gets an Initialize call. */
  function DefaultAsWritten(i: int): (r: Option<Setting>)
    ensures 0 <= i < COUNT && i != ENABLE_RUMBLE ==> Sound(r)
    ensures i == ENABLE_RUMBLE ==> r == None
  {
    if i < 0 then None
    else if i < 7 then OptionSlot(i)
    else if i < 17 then PlayerTiltSlot(i)
    else if i < 29 then PlayerGestureSlot(i)
    else if i < 44 then PlayerKeySlot(i)
    else if i < 60 then VehicleSlot(i)
    else if i < 69 then VehicleKeySlot(i)
    else if i < 81 then HelicopterSlot(i)
    else if i < 88 then HelicopterKeySlot(i)
    else if i < 102 then VtolSlot(i)
    else if i < 109 then VtolKeySlot(i)
    else None
  }

  /** The Options group. */
  function OptionSlot(i: int): (r: Option<Setting>)
    requires 0 <= i < 7
    ensures i != ENABLE_RUMBLE ==> Sound(r)
    ensures i == ENABLE_RUMBLE ==> r == None
  {
    match i
    case 0 => Flag("RetainViewMode", "Options", true)
    case 1 => Flag("HardLockView", "Options", true)
    case 2 => Flag("UseIRSensor", "Options", false)
    case 3 => Flag("ShowIRDot", "Options", true)
    case 4 => Real("IRDotOpacity", "Options", 0.8, 0.0, 1.0)
    case 5 => Real("MaxLockViewDist", "Options", 250.0, 1.0, FLT_MAX)
    case _ => None // EnableRumble
  }

  /** The Player group: jump, tilt, look and turn tuning. */
  function PlayerTiltSlot(i: int): (r: Option<Setting>)
    requires 7 <= i < 17
    ensures Sound(r)
  {
    match i
    case 7 => Real("JumpSensitivity", "Player", 2.0, 1.0, FLT_MAX)
    case 8 => Real("CrouchTilt", "Player", 30.0, 0.0, 90.0)
    case 9 => Real("ProneTilt", "Player", 60.0, 0.0, 90.0)
    case 10 => Real("LeanTilt", "Player", 45.0, 0.0, 90.0)
    case 11 => Real("PunchSensitivity", "Player", 2.0, 1.0, FLT_MAX)
    case 12 => Real("LookUpSensitivity", "Player", 0.01, 0.00001, 1.0)
    case 13 => Real("LookUpMaxTilt", "Player", 60.0, 10.0, 90.0)
    case 14 => Real("LookUpError", "Player", 1.5, 0.0, FLT_MAX)
    case 15 => Real("TurnSensitivity", "Player", 0.015, 0.00001, FLT_MAX)
    case _ => Real("TurnTilt", "Player", 10.0, 0.0, 90.0)
  }

  /** The Player group: gesture thresholds and the IR-sensor and soft-lock tuning. */
  function PlayerGestureSlot(i: int): (r: Option<Setting>)
    requires 17 <= i < 29
    ensures Sound(r)
  {
    match i
    case 17 => Real("ZoomInSensitivity", "Player", 1.5, 1.0, FLT_MAX)
    case 18 => Real("ZoomOutSensitivity", "Player", 1.5, 1.0, FLT_MAX)
    case 19 => Real("HolsterItemSensitivity", "Player", 2.0, 2.0, FLT_MAX)
    case 20 => Real("MeleeSensitivity", "Player", 2.0, 1.0, FLT_MAX)
    case 21 => Real("PickUpSensitivity", "Player", 3.0, 1.0, FLT_MAX)
    case 22 => Real("ThrowSensitivity", "Player", 3.0, 1.0, FLT_MAX)
    case 23 => Real("DropSensitivity", "Player", 2.0, 1.0, FLT_MAX)
    case 24 => Real("IRSensor_TurnSensitivity", "Player", 0.1875, 0.00001, FLT_MAX)
    case 25 => Real("IRSensor_LookUpSensitivity", "Player", 0.1875, 0.00001, FLT_MAX)
    case 26 => Real("SoftLock_LookUpSensitivity", "Player", 0.05, 0.00001, 1.0)
    case 27 => Real("SoftLock_TurnSensitivity", "Player", 0.075, 0.00001, FLT_MAX)
    case _ => Flag("InverseLook", "Player", false)
  }

  /** The Player group: key bindings. */
  function PlayerKeySlot(i: int): (r: Option<Setting>)
    requires 29 <= i < 44
    ensures Sound(r)
  {
    match i
    case 29 => Key("Button_Sprint", "Player", WIIBTN_C) // SprintButton
    case 30 => Key("Button_NanoSuitMenu", "Player", WIIBTN_Z) // NanoSuitMenuButton
    case 31 => Key("Button_WeaponMenu", "Player", WIIBTN_DPAD_UP) // WeaponMenuButton
    case 32 => Key("Button_PrevWeapon", "Player", WIIBTN_MINUS) // PrevWeaponButton
    case 33 => Key("Button_NextWeapon", "Player", WIIBTN_PLUS) // NextWeaponButton
    case 34 => Key("Button_LockView", "Player", WIIBTN_A) // LockViewButton
    case 35 => Key("Button_Fire", "Player", WIIBTN_B) // FireButton
    case 36 => Key("Button_Reload", "Player", WIIBTN_HOME) // ReloadButton
    case 37 => Key("Button_Binoculars", "Player", WIIBTN_DPAD_LEFT) // BinocularsButton
    case 38 => Key("Button_NightVision", "Player", WIIBTN_DPAD_RIGHT) // NightVisionButton
    case 39 => Key("Button_ZoomIn", "Player", WIIBTN_PLUS) // ZoomInButton
    case 40 => Key("Button_ZoomOut", "Player", WIIBTN_MINUS) // ZoomOutButton
    case 41 => Key("Button_ToggleFiremode", "Player", WIIBTN_1) // ToggleFiremodeButton
    case 42 => Key("Button_ToggleGrenade3", "Player", WIIBTN_2) // ToggleGrenadeButton
    case _ => Key("Button_Use", "Player", WIIBTN_DPAD_DOWN) // UseButton
  }

  /** The Vehicle group: look, turn and steering tuning. */
  function VehicleSlot(i: int): (r: Option<Setting>)
    requires 44 <= i < 60
    ensures Sound(r)
  {
    match i
    case 44 => Real("LookUpSensitivity", "Vehicle", 1.0, 0.001, 100.0) // Veh_LookUpSensitivity
    case 45 => Real("LookUpMaxTilt", "Vehicle", 60.0, 10.0, 90.0) // Veh_LookUpMaxTilt
    case 46 => Real("LookUpError", "Vehicle", 1.5, 0.0, FLT_MAX) // Veh_LookUpError
    case 47 => Real("TurnSensitivity", "Vehicle", 5.0, 1.0, FLT_MAX) // Veh_TurnSensitivity
    case 48 => Real("TurnTilt", "Vehicle", 10.0, 0.0, 90.0) // Veh_TurnTilt
    case 49 => Real("IRSensor_TurnSensitivity", "Vehicle", 62.5, 1.0, FLT_MAX) // Veh_IRSensor_TurnSensitivity
    case 50 => Real("IRSensor_LookUpSensitivity", "Vehicle", 62.5, 1.0, FLT_MAX) // Veh_IRSensor_LookUpSensitivity
    case 51 => Real("SeatPrevSensitivity", "Vehicle", 1.5, 1.0, FLT_MAX) // Veh_SeatPrevSensitivity
    case 52 => Real("SeatNextSensitivity", "Vehicle", 1.5, 1.0, FLT_MAX) // Veh_SeatNextSensitivity
    case 53 => Flag("UseStickSteer_Land", "Vehicle", false) // Veh_UseStickSteer_Land
    case 54 => Real("SteerTilt_Land", "Vehicle", 10.0, 0.0, 90.0) // Veh_SteerTilt_Land
    case 55 => Real("SteerSensitivity_Land", "Vehicle", 0.35, 0.001, FLT_MAX) // Veh_SteerSensitivity_Land
    case 56 => Flag("UseStickSteer_Sea", "Vehicle", false) // Veh_UseStickSteer_Sea
    case 57 => Real("SteerTilt_Sea", "Vehicle", 10.0, 0.0, 90.0) // Veh_SteerTilt_Sea
    case 58 => Real("SteerSensitivity_Sea", "Vehicle", 0.75, 0.001, FLT_MAX) // Veh_SteerSensitivity_Sea
    case _ => Flag("InverseLook", "Vehicle", false) // Veh_InverseLook
  }

  /** The Vehicle group: key bindings. */
  function VehicleKeySlot(i: int): (r: Option<Setting>)
    requires 60 <= i < 69
    ensures Sound(r)
  {
    match i
    case 60 => Key("Button_Use", "Vehicle", WIIBTN_DPAD_DOWN) // Veh_UseButton
    case 61 => Key("Button_Horn", "Vehicle", WIIBTN_DPAD_RIGHT) // Veh_HornButton
    case 62 => Key("Button_Lights", "Vehicle", WIIBTN_2) // Veh_LightsButton
    case 63 => Key("Button_PrevSeat", "Vehicle", WIIBTN_MINUS) // Veh_PrevSeatButton
    case 64 => Key("Button_NextSeat", "Vehicle", WIIBTN_PLUS) // Veh_NextSeatButton
    case 65 => Key("Button_Boost", "Vehicle", WIIBTN_C) // Veh_BoostButton
    case 66 => Key("Button_Fire", "Vehicle", WIIBTN_B) // Veh_FireButton
    case 67 => Key("Button_Reload", "Vehicle", WIIBTN_HOME) // Veh_ReloadButton
    case _ => Key("Button_View", "Vehicle", WIIBTN_1) // Veh_ViewButton
  }

  /** The Helicopter group: pitch, turn and roll tuning. */
  function HelicopterSlot(i: int): (r: Option<Setting>)
    requires 69 <= i < 81
    ensures Sound(r)
  {
    match i
    case 69 => Real("PitchSensitivity", "Helicopter", 10.0, 0.001, 100.0) // Heli_PitchSensitivity
    case 70 => Real("PitchTilt", "Helicopter", 10.0, 0.0, 90.0) // Heli_PitchTilt
    case 71 => Real("TurnSensitivity", "Helicopter", 2.5, 1.0, FLT_MAX) // Heli_TurnSensitivity
    case 72 => Real("TurnTilt", "Helicopter", 10.0, 0.0, 90.0) // Heli_TurnTilt
    case 73 => Real("IRSensor_PitchSensitivity", "Helicopter", 30.0, 1.0, FLT_MAX) // Heli_IRSensor_PitchSensitivity
    case 74 => Real("IRSensor_TurnSensitivity", "Helicopter", 30.0, 1.0, FLT_MAX) // Heli_IRSensor_TurnSensitivity
    case 75 => Real("RollSensitivity", "Helicopter", 2.0, 0.001, 100.0) // Heli_RollSensitivity
    case 76 => Real("RollTilt", "Helicopter", 10.0, 0.0, 90.0) // Heli_RollTilt
    case 77 => Real("SeatPrevSensitivity", "Helicopter", 1.5, 1.0, FLT_MAX) // Heli_SeatPrevSensitivity
    case 78 => Real("SeatNextSensitivity", "Helicopter", 1.5, 1.0, FLT_MAX) // Heli_SeatNextSensitivity
    case 79 => Flag("InverseLook", "Helicopter", false) // Heli_InverseLook
    case _ => Flag("UseStickRoll", "Helicopter", false) // Heli_UseStickRoll
  }

  /** The Helicopter group: key bindings. */
  function HelicopterKeySlot(i: int): (r: Option<Setting>)
    requires 81 <= i < 88
    ensures Sound(r)
  {
    match i
    case 81 => Key("Button_Use", "Helicopter", WIIBTN_DPAD_DOWN) // Heli_UseButton
    case 82 => Key("Button_Boost", "Helicopter", WIIBTN_C) // Heli_BoostButton
    case 83 => Key("Button_PrevSeat", "Helicopter", WIIBTN_MINUS) // Heli_PrevSeatButton
    case 84 => Key("Button_NextSeat", "Helicopter", WIIBTN_PLUS) // Heli_NextSeatButton
    case 85 => Key("Button_FireGun", "Helicopter", WIIBTN_B) // Heli_FireGunButton
    case 86 => Key("Button_FireRocket", "Helicopter", WIIBTN_HOME) // Heli_FireRocketButton
    case _ => Key("Button_View", "Helicopter", WIIBTN_1) // Heli_ViewButton
  }

  /** The VTOL group: pitch, turn and strafe tuning. */
  function VtolSlot(i: int): (r: Option<Setting>)
    requires 88 <= i < 102
    ensures Sound(r)
  {
    match i
    case 88 => Real("PitchSensitivity", "VTOL", 10.0, 0.001, 100.0) // VTOL_PitchSensitivity
    case 89 => Real("PitchTilt", "VTOL", 10.0, 0.0, 90.0) // VTOL_PitchTilt
    case 90 => Real("TurnSensitivity", "VTOL", 2.5, 1.0, FLT_MAX) // VTOL_TurnSensitivity
    case 91 => Real("TurnTilt", "VTOL", 10.0, 0.0, 90.0) // VTOL_TurnTilt
    case 92 => Real("IRSensor_PitchSensitivity", "VTOL", 30.0, 1.0, FLT_MAX) // VTOL_IRSensor_PitchSensitivity
    case 93 => Real("IRSensor_TurnSensitivity", "VTOL", 30.0, 1.0, FLT_MAX) // VTOL_IRSensor_TurnSensitivity
    case 94 => Real("VSensitivity", "VTOL", 2.0, 0.001, 100.0) // VTOL_VSensitivity
    case 95 => Real("VTilt", "VTOL", 10.0, 0.0, 90.0) // VTOL_VTilt
    case 96 => Real("HSensitivity", "VTOL", 2.0, 0.001, 100.0) // VTOL_HSensitivity
    case 97 => Real("HTilt", "VTOL", 10.0, 0.0, 90.0) // VTOL_HTilt
    case 98 => Real("SeatPrevSensitivity", "VTOL", 1.5, 1.0, FLT_MAX) // VTOL_SeatPrevSensitivity
    case 99 => Real("SeatNextSensitivity", "VTOL", 1.5, 1.0, FLT_MAX) // VTOL_SeatNextSensitivity
    case 100 => Flag("InverseLook", "VTOL", false) // VTOL_InverseLook
    case _ => Flag("UseStickStrafe", "VTOL", true) // VTOL_UseStickStrafe
  }

  /** The VTOL group: key bindings. */
  function VtolKeySlot(i: int): (r: Option<Setting>)
    requires 102 <= i < 109
    ensures Sound(r)
  {
    match i
    case 102 => Key("Button_Use", "VTOL", WIIBTN_DPAD_DOWN) // VTOL_UseButton
    case 103 => Key("Button_Boost", "VTOL", WIIBTN_C) // VTOL_BoostButton
    case 104 => Key("Button_PrevSeat", "VTOL", WIIBTN_MINUS) // VTOL_PrevSeatButton
    case 105 => Key("Button_NextSeat", "VTOL", WIIBTN_PLUS) // VTOL_NextSeatButton
    case 106 => Key("Button_FireGun", "VTOL", WIIBTN_B) // VTOL_FireGunButton
    case 107 => Key("Button_FireRocket", "VTOL", WIIBTN_HOME) // VTOL_FireRocketButton
    case _ => Key("Button_View", "VTOL", WIIBTN_1) // VTOL_ViewButton
  }

  /**
   * So EnableRumble's variable stays without a type: GetValueBool reads false and
   * SetValue(bool) cannot change that, and every rumble request of the game is refused.
   */
  lemma RumbleStaysOff(st: VarState, x: bool)
    requires st == FRESH
    ensures Applied(DefaultAsWritten(ENABLE_RUMBLE), st).value.Type() == NOTYPE
    ensures !Applied(DefaultAsWritten(ENABLE_RUMBLE), st).value.SetBool(x).Bool()
  {
  }

  /** The rumble option as its declaration describes it: a bool, rumble allowed by default. */
  const RUMBLE_DEFAULT: Option<Setting> := Flag("EnableRumble", "Options", true)

  /** SetToDefault with the EnableRumble slot initialised: every slot is initialised and in range. */
  function Default(i: int): (r: Option<Setting>)
    ensures 0 <= i < COUNT ==> Sound(r)
    ensures i != ENABLE_RUMBLE ==> r == DefaultAsWritten(i)
  {
    if i == ENABLE_RUMBLE then RUMBLE_DEFAULT else DefaultAsWritten(i)
  }

  /** With the corrected defaults rumble starts allowed and the option can be switched either way. */
  lemma RumbleSettable(st: VarState, x: bool)
    ensures Applied(Default(ENABLE_RUMBLE), st).value.Bool()
    ensures Applied(Default(ENABLE_RUMBLE), st).value.SetBool(x).Bool() == x
  {
  }

  /** The value a slot's Initialize call gives, if it has one. */
  function Initial(s: Option<Setting>): Option<Value>
  {
    if s.Some? then Some(s.value.init) else None
  }

  /** A variable the game can rely on: it has a type, its value is in range, and a float's range is not empty. */
  predicate Usable(st: VarState)
  {
    st.value != NoType && InRange(st) && (st.value.FloatVal? ==> st.min <= st.max)
  }

  /** A sound slot leaves its variable usable, whatever the variable held before. */
  lemma SoundApplied(s: Option<Setting>, st: VarState)
    requires Sound(s)
    ensures Usable(Applied(s, st))
    ensures Some(Applied(s, st).value) == Initial(s)
  {
  }

  /** Setters keep a usable variable usable, with the same type. */
  lemma SettersKeepUsable(st: VarState, x: real, b: int, flag: bool)
    requires Usable(st)
    ensures Usable(st.(value := st.value.SetFloat(x, st.min, st.max)))
    ensures Usable(st.(value := st.value.SetButton(b)))
    ensures Usable(st.(value := st.value.SetBool(flag)))
  {
    SettersKeepRange(st, x, b, flag);
  }

  // ---------------------------------------------------------------- lookup by name

  /** stricmp's folding of one character: ASCII upper case to lower case. */
  function Lower(c: char): (r: char)
    ensures 'A' <= c <= 'Z' ==> r as int == c as int + 32
    ensures !('A' <= c <= 'Z') ==> r == c
  {
    if 'A' <= c <= 'Z' then (c as int + 32) as char else c
  }

  /** stricmp(a, b) == 0: equal up to ASCII case. */
  predicate SameText(a: string, b: string)
  {
    |a| == |b| && forall i :: 0 <= i < |a| ==> Lower(a[i]) == Lower(b[i])
  }

  /** Comparing up to case is an equivalence that equal strings satisfy. */
  lemma SameTextEquivalence(a: string, b: string, c: string)
    ensures SameText(a, a)
    ensures SameText(a, b) ==> SameText(b, a)
    ensures SameText(a, b) && SameText(b, c) ==> SameText(a, c)
  {
  }

  /** Case matters nowhere but in letters: a name differing from another in a digit is not the same text. */
  lemma SameTextNotEqual()
    ensures SameText("Button_Use", "button_use")
    ensures !SameText("Button_Use", "Button_Us")
    ensures !SameText("1", "2")
  {
    assert Lower("1"[0]) != Lower("2"[0]);
    assert Lower('B') == Lower('b');
    assert Lower('U') == Lower('u');
  }

  /** The variable is the one GetVariable(name, group) is asking for. */
  predicate Named(st: VarState, name: string, group: string)
  {
    SameText(name, st.name) && SameText(group, st.group)
  }

  /** CWiiRemoteProfile: one variable object per slot, created once. */
  class Profile {
    const vars: seq<Variable>

    ghost predicate Valid()
      reads this
    {
      |vars| == COUNT && forall i, j :: 0 <= i < j < |vars| ==> vars[i] != vars[j]
    }

    /** Creates the variables, each as its constructor leaves it. */
    constructor()
      ensures Valid()
      ensures forall i :: 0 <= i < COUNT ==> fresh(vars[i]) && vars[i].State() == FRESH
    {
      var vs: seq<Variable> := [];
      for i := 0 to COUNT
        invariant |vs| == i
        invariant forall j :: 0 <= j < i ==> fresh(vs[j]) && vs[j].State() == FRESH
        invariant forall j, k :: 0 <= j < k < i ==> vs[j] != vs[k]
      {
        var v := new Variable();
        vs := vs + [v];
      }
      vars := vs;
    }

    /** GetVariable(index): the slot's variable, or null outside the slots. */
    function GetVariable(index: int): (r: Variable?)
      requires Valid()
      reads this
      ensures r == null <==> !(0 <= index < COUNT)
      ensures r != null ==> r in vars && forall j :: 0 <= j < COUNT && vars[j] == r ==> j == index
    {
      if index < 0 || index >= COUNT then null else vars[index]
    }

    /** GetVariable(name, group): the first variable with that name and group up to case, or null. */
    method GetVariableNamed(name: string, group: string) returns (r: Variable?)
      requires Valid()
      ensures r == null <==> forall i :: 0 <= i < COUNT ==> !Named(vars[i].State(), name, group)
      ensures r != null ==> exists k :: 0 <= k < COUNT && vars[k] == r && Named(vars[k].State(), name, group) &&
                                       forall j :: 0 <= j < k ==> !Named(vars[j].State(), name, group)
    {
      for i := 0 to COUNT
        invariant forall j :: 0 <= j < i ==> !Named(vars[j].State(), name, group)
      {
        var v := vars[i];
        if SameText(name, v.name) && SameText(group, v.group) {
          assert Named(vars[i].State(), name, group);
          return v;
        }
      }
      return null;
    }

    /** SetToDefault: every slot gets its default from the table; the variable objects stay. */
    method SetToDefault()
      requires Valid()
      modifies vars
      ensures forall i :: 0 <= i < COUNT ==> vars[i].State() == Applied(Default(i), old(vars[i].State()))
    {
      for i := 0 to COUNT
        invariant forall j :: 0 <= j < i ==> vars[j].State() == Applied(Default(j), old(vars[j].State()))
        invariant forall j :: i <= j < COUNT ==> vars[j].State() == old(vars[j].State())
      {
        vars[i].Apply(Default(i));
      }
    }
  }

  /** After SetToDefault every variable is usable, and its value is the slot's default. */
  lemma AfterDefaultsUsable(before: seq<VarState>, after: seq<VarState>)
    requires |before| == |after| == COUNT
    requires forall i :: 0 <= i < COUNT ==> after[i] == Applied(Default(i), before[i])
    ensures forall i :: 0 <= i < COUNT ==> Usable(after[i]) && Some(after[i].value) == Initial(Default(i))
  {
    forall i | 0 <= i < COUNT
      ensures Usable(after[i]) && Some(after[i].value) == Initial(Default(i))
    {
      SoundApplied(Default(i), before[i]);
    }
  }
}
