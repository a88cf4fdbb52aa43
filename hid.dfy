// The HID device registry: which Bluetooth HID devices are Wii Remotes, the list of
// device paths found so far (at most four, no repeats), and the four remote slots.
// Operating-system enumeration is replaced by a list of scans, each the devices one
// enumeration pass reported and the time that pass took.

module Hid {
  import opened Wrappers
  import Listeners
  import Motion
  import Remote

  const VENDOR_ID: int := 0x057e
  const PRODUCT_ID: int := 0x0306
  const MAX_REMOTES: int := 4

  const HID_OK: int := 0
  const HID_NODEVICES: int := 1

  /** One device interface of an enumeration pass: its path, whether its details could be
      read and a handle opened on it, whether its attributes could be read, and those
      attributes. */
  datatype Device = Device(path: string, handle: bool, attributes: bool, vendor: int, product: int)

  /** One enumeration pass: whether the OS returned a device list at all, the devices
      in it, and the time the pass took. */
  datatype Scan = Scan(listed: bool, devices: seq<Device>, elapsed: real)

  /** What a poll leaves behind: the found paths and the value it returns. */
  datatype Outcome = Outcome(found: seq<string>, result: int)

  /** A Wii Remote: the handle opened, and Nintendo's vendor and the remote's product ID. */
  predicate IsRemote(d: Device)
  {
    d.handle && d.attributes && d.vendor == VENDOR_ID && d.product == PRODUCT_ID
  }

  /** One device of a pass: a remote whose path is new joins the list while it has room. */
  function Admit(found: seq<string>, d: Device): seq<string>
  {
    if IsRemote(d) && d.path !in found && |found| < MAX_REMOTES then found + [d.path] else found
  }

  /** A whole pass, device by device in the order the OS lists them. */
  function AdmitAll(found: seq<string>, ds: seq<Device>): seq<string>
    decreases |ds|
  {
    if ds == [] then found else Admit(AdmitAll(found, ds[..|ds| - 1]), ds[|ds| - 1])
  }

  /** PoolRemoteDevices over the scans: at least one pass (when the environment supplies
      one), repeated while the elapsed time is below the timeout and fewer than `wanted`
      paths are known; a pass without a device list ends the poll with the error. */
  function Poll(found: seq<string>, wanted: int, timeout: real, tick: real, scans: seq<Scan>): Outcome
    decreases |scans|
  {
    if scans == [] then Outcome(found, |found|)
    else if !scans[0].listed then Outcome(found, HID_NODEVICES)
    else
      var f := AdmitAll(found, scans[0].devices);
      var t := tick + scans[0].elapsed;
      if timeout > t && |f| < wanted then Poll(f, wanted, timeout, t, scans[1..]) else Outcome(f, |f|)
  }

  /** The part of a list past a prefix, split at a longer prefix. */
  lemma Extended(a: seq<string>, b: seq<string>, c: seq<string>)
    requires a <= b <= c
    ensures c[|a|..] == b[|a|..] + c[|b|..]
  {
    assert c == b + c[|b|..];
  }

  /** One device keeps the found list repeat-free and within four entries, only ever
      appends, and appends only a remote's path. */
  lemma AdmitSpec(found: seq<string>, d: Device)
    requires Listeners.NoDup(found) && |found| <= MAX_REMOTES
    ensures var f := Admit(found, d);
            Listeners.NoDup(f) && |f| <= MAX_REMOTES && f[..|found|] == found &&
            (|f| > |found| ==> f == found + [d.path] && IsRemote(d) && d.path !in found)
  {
  }

  /** A pass keeps the found list repeat-free and within four entries, extends it, and
      every path it adds belongs to a listed remote. */
  lemma {:induction false} AdmitAllSpec(found: seq<string>, ds: seq<Device>)
    requires Listeners.NoDup(found) && |found| <= MAX_REMOTES
    ensures var f := AdmitAll(found, ds);
            Listeners.NoDup(f) && |found| <= |f| <= MAX_REMOTES && f[..|found|] == found &&
            forall i :: |found| <= i < |f| ==> exists d :: d in ds && IsRemote(d) && d.path == f[i]
    decreases |ds|
  {
    if ds != [] {
      var init := ds[..|ds| - 1];
      var last := ds[|ds| - 1];
      AdmitAllSpec(found, init);
      var g := AdmitAll(found, init);
      AdmitSpec(g, last);
      var f := Admit(g, last);
      forall i | |found| <= i < |f|
        ensures exists d :: d in ds && IsRemote(d) && d.path == f[i]
      {
        if i < |g| {
          assert f[i] == g[i];
          var d :| d in init && IsRemote(d) && d.path == g[i];
          assert d in ds;
        } else {
          assert f[i] == last.path && last in ds;
        }
      }
    }
  }

  /** A remote the pass lists is known afterwards, unless four paths are known by then. */
  lemma {:induction false} AdmitAllKeeps(found: seq<string>, ds: seq<Device>, i: int)
    requires Listeners.NoDup(found) && |found| <= MAX_REMOTES && 0 <= i < |ds| && IsRemote(ds[i])
    ensures var f := AdmitAll(found, ds); ds[i].path in f || |f| == MAX_REMOTES
    decreases |ds|
  {
    var init := ds[..|ds| - 1];
    AdmitAllSpec(found, init);
    var g := AdmitAll(found, init);
    AdmitSpec(g, ds[|ds| - 1]);
    if i < |ds| - 1 {
      AdmitAllKeeps(found, init, i);
      assert init[i] == ds[i];
      var f := Admit(g, ds[|ds| - 1]);
      assert g == f[..|g|];
      assert ds[i].path in g ==> ds[i].path in f;
    }
  }

  /** The path belongs to a remote listed by one of the passes. */
  ghost predicate Scanned(path: string, scans: seq<Scan>)
  {
    exists k, d :: 0 <= k < |scans| && d in scans[k].devices && IsRemote(d) && d.path == path
  }

  lemma ScannedRest(path: string, scans: seq<Scan>)
    requires scans != [] && Scanned(path, scans[1..])
    ensures Scanned(path, scans)
  {
    var k, d :| 0 <= k < |scans[1..]| && d in scans[1..][k].devices && IsRemote(d) && d.path == path;
    assert scans[1..][k] == scans[k + 1];
  }

  /** A poll keeps the paths it started with, adds only remotes' paths, never repeats a
      path and never holds more than four. */
  lemma {:induction false} PollSpec(found: seq<string>, wanted: int, timeout: real, tick: real, scans: seq<Scan>)
    requires Listeners.NoDup(found) && |found| <= MAX_REMOTES
    ensures var o := Poll(found, wanted, timeout, tick, scans);
            Listeners.NoDup(o.found) && |found| <= |o.found| <= MAX_REMOTES && o.found[..|found|] == found &&
            (o.result == |o.found| || o.result == HID_NODEVICES) &&
            forall i :: |found| <= i < |o.found| ==> Scanned(o.found[i], scans)
    decreases |scans|
  {
    if scans != [] && scans[0].listed {
      var f := AdmitAll(found, scans[0].devices);
      var t := tick + scans[0].elapsed;
      AdmitAllSpec(found, scans[0].devices);
      forall i | |found| <= i < |f|
        ensures Scanned(f[i], scans)
      {
        var d :| d in scans[0].devices && IsRemote(d) && d.path == f[i];
        assert 0 <= 0 < |scans| && d in scans[0].devices;
      }
      if timeout > t && |f| < wanted {
        PollSpec(f, wanted, timeout, t, scans[1..]);
        var o := Poll(f, wanted, timeout, t, scans[1..]);
        assert o.found[..|f|] == f;
        forall i | |found| <= i < |o.found|
          ensures Scanned(o.found[i], scans)
        {
          if i < |f| {
            assert o.found[i] == f[i];
          } else {
            ScannedRest(o.found[i], scans);
          }
        }
      } else {
        assert Poll(found, wanted, timeout, tick, scans) == Outcome(f, |f|);
      }
    }
  }

  /** A poll stops after a pass only once the timeout has run out or enough paths are known. */
  lemma PollStops(found: seq<string>, wanted: int, timeout: real, tick: real, s: Scan, rest: seq<Scan>)
    requires s.listed
    ensures var f := AdmitAll(found, s.devices);
            var t := tick + s.elapsed;
            Poll(found, wanted, timeout, tick, [s] + rest) ==
              if timeout > t && |f| < wanted then Poll(f, wanted, timeout, t, rest) else Outcome(f, |f|)
  {
    assert ([s] + rest)[1..] == rest;
  }

  /** The number of taken slots. */
  function Occupied(slots: seq<Remote.WiiRemote?>): nat
  {
    if slots == [] then 0 else (if slots[0] != null then 1 else 0) + Occupied(slots[1..])
  }

  /** Filling an empty slot adds one remote; emptying a taken slot removes one. */
  lemma {:induction false} OccupiedUpdate(slots: seq<Remote.WiiRemote?>, i: int, r: Remote.WiiRemote?)
    requires 0 <= i < |slots|
    ensures Occupied(slots[i := r]) ==
            Occupied(slots) - (if slots[i] != null then 1 else 0) + (if r != null then 1 else 0)
  {
    if i > 0 {
      OccupiedUpdate(slots[1..], i - 1, r);
      assert slots[i := r][1..] == slots[1..][i - 1 := r];
    } else {
      assert slots[i := r][1..] == slots[1..];
    }
  }

  /** At most one remote per slot. */
  lemma {:induction false} OccupiedBound(slots: seq<Remote.WiiRemote?>)
    ensures Occupied(slots) <= |slots|
    ensures Occupied(slots) == 0 <==> forall i :: 0 <= i < |slots| ==> slots[i] == null
  {
    if slots != [] {
      OccupiedBound(slots[1..]);
      assert forall i :: 1 <= i < |slots| ==> slots[i] == slots[1..][i - 1];
    }
  }

  /** GetRemote as written: IDs below 1 and from 4 up give no remote, so the fourth slot
      can never be read back. */
  function RemoteAtAsWritten(slots: seq<Remote.WiiRemote?>, id: Byte): Remote.WiiRemote?
    requires |slots| == MAX_REMOTES
  {
    if id < 1 || id >= MAX_REMOTES then null else slots[id - 1]
  }

  /** A remote in the fourth slot, which InitializeRemote(4) fills, is not what
      GetRemote(4) returns. */
  lemma FourthSlotUnreachable(slots: seq<Remote.WiiRemote?>)
    requires |slots| == MAX_REMOTES && slots[3] != null
    ensures RemoteAtAsWritten(slots, 4) != slots[3]
  {
  }

  /** GetRemote with the evidently intended bound: IDs 1 to 4 name slots 0 to 3. */
  function RemoteAt(slots: seq<Remote.WiiRemote?>, id: Byte): (r: Remote.WiiRemote?)
    requires |slots| == MAX_REMOTES
    ensures 1 <= id <= MAX_REMOTES ==> r == slots[id - 1]
    ensures id < 1 || id > MAX_REMOTES ==> r == null
  {
    if id < 1 || id > MAX_REMOTES then null else slots[id - 1]
  }

  /** InitializeRemote's slot is the one GetRemote reads back, for every slot. */
  lemma RemoteAtEverySlot(slots: seq<Remote.WiiRemote?>, i: int)
    requires |slots| == MAX_REMOTES && 0 <= i < MAX_REMOTES
    ensures RemoteAt(slots, i + 1) == slots[i]
  {
  }

  class Controller {
    const orient: Motion.Vec3 -> Motion.Orientation
    /** m_FoundRemotes: the found device paths; m_nFoundCount of them are in use. */
    const paths: array<string>
    var count: int
    /** m_Remotes: slot i holds the remote with ID i + 1. */
    const slots: array<Remote.WiiRemote?>
    var listeners: seq<nat>
    /** The paths announced to the listeners as found, in order. */
    var announced: seq<string>
    /** The remote IDs announced to the listeners as initialized, in order. */
    var initialized: seq<int>

    /** The found paths are distinct, at most four, and the unused entries are empty. */
    ghost predicate Valid()
      reads this, paths
    {
      paths.Length == MAX_REMOTES && slots.Length == MAX_REMOTES && 0 <= count <= MAX_REMOTES &&
      Listeners.NoDup(paths[..count]) && (forall i :: count <= i < MAX_REMOTES ==> paths[i] == "") &&
      Listeners.NoDup(listeners)
    }

    ghost function Found(): seq<string>
      reads this, paths
      requires 0 <= count <= paths.Length
    {
      paths[..count]
    }

    /** The constructor: no paths, no remotes, no listeners. */
    constructor (orient: Motion.Vec3 -> Motion.Orientation)
      ensures Valid() && fresh(paths) && fresh(slots)
      ensures count == 0 && paths[..] == ["", "", "", ""] && slots[..] == [null, null, null, null]
      ensures listeners == [] && announced == [] && initialized == []
    {
      this.orient := orient;
      paths := new string[MAX_REMOTES](_ => "");
      slots := new Remote.WiiRemote?[MAX_REMOTES](_ => null);
      count := 0;
      listeners := [];
      announced := [];
      initialized := [];
    }

    /** ClearFoundRemotes: every path emptied and the count zeroed. */
    method ClearFoundRemotes()
      requires Valid()
      modifies paths, this`count
      ensures Valid() && count == 0 && paths[..] == ["", "", "", ""]
    {
      var i := 0;
      while i < MAX_REMOTES
        invariant 0 <= i <= MAX_REMOTES
        invariant forall j :: 0 <= j < i ==> paths[j] == ""
      {
        paths[i] := "";
        i := i + 1;
      }
      count := 0;
    }

    /** The duplicate check of a pass: the scan stops by jumping past the end, and the
        result is below four exactly when the path is new and there is room. */
    method Place(path: string) returns (temp: int)
      requires Valid()
      ensures temp < MAX_REMOTES <==> path !in Found() && count < MAX_REMOTES
      ensures temp < MAX_REMOTES ==> temp == count
    {
      temp := 0;
      while temp < count
        invariant (0 <= temp <= count && path !in paths[..temp]) ||
                  (temp == MAX_REMOTES + 1 && path in paths[..count])
        decreases count - temp
      {
        if paths[temp] == path {
          temp := MAX_REMOTES;
        }
        temp := temp + 1;
      }
    }

    /** One device of a pass: a remote with a new path is added and announced. */
    method AdmitDevice(d: Device)
      requires Valid()
      modifies paths, this`count, this`announced
      ensures Valid()
      ensures Found() == Admit(old(Found()), d) && old(Found()) <= Found()
      ensures announced == old(announced) + Found()[|old(Found())|..]
    {
      if IsRemote(d) {
        var temp := Place(d.path);
        if temp < MAX_REMOTES {
          paths[count] := d.path;
          count := count + 1;
          announced := announced + [d.path];
          assert Found() == old(Found()) + [d.path];
        }
      }
    }

    /** One enumeration pass over the listed devices, in order. */
    method ScanDevices(ds: seq<Device>)
      requires Valid()
      modifies paths, this`count, this`announced
      ensures Valid()
      ensures Found() == AdmitAll(old(Found()), ds) && old(Found()) <= Found()
      ensures announced == old(announced) + Found()[|old(Found())|..]
    {
      var k := 0;
      while k < |ds|
        invariant 0 <= k <= |ds| && Valid()
        invariant Found() == AdmitAll(old(Found()), ds[..k])
        invariant old(Found()) <= Found()
        invariant announced == old(announced) + Found()[|old(Found())|..]
      {
        ghost var before := Found();
        AdmitDevice(ds[k]);
        AdmitSpec(before, ds[k]);
        assert ds[..k + 1][..k] == ds[..k];
        k := k + 1;
      }
      assert ds[..k] == ds;
    }

    /** PoolRemoteDevices(nCount, fTimeout): passes until the timeout runs out or enough
        remotes are found; returns the found count, or the error of a pass without a list. */
    method PoolRemoteDevices(wanted: int, timeout: real, scans: seq<Scan>) returns (r: int)
      requires Valid()
      modifies paths, this`count, this`announced
      ensures Valid()
      ensures Found() == Poll(old(Found()), wanted, timeout, 0.0, scans).found
      ensures r == Poll(old(Found()), wanted, timeout, 0.0, scans).result && old(Found()) <= Found()
      ensures announced == old(announced) + Found()[|old(Found())|..]
    {
      var k := 0;
      var tick := 0.0;
      var more := true;
      while more && k < |scans|
        invariant 0 <= k <= |scans| && Valid()
        invariant old(Found()) <= Found()
        invariant announced == old(announced) + Found()[|old(Found())|..]
        invariant more ==> Poll(old(Found()), wanted, timeout, 0.0, scans) == Poll(Found(), wanted, timeout, tick, scans[k..])
        invariant !more ==> Poll(old(Found()), wanted, timeout, 0.0, scans) == Outcome(Found(), count)
        decreases |scans| - k, more
      {
        if !scans[k].listed {
          assert scans[k..][0] == scans[k];
          return HID_NODEVICES;
        }
        ghost var before := Found();
        ScanDevices(scans[k].devices);
        assert announced == old(announced) + Found()[|old(Found())|..] by {
          Extended(old(Found()), before, Found());
        }
        PollStops(before, wanted, timeout, tick, scans[k], scans[k + 1..]);
        assert scans[k..] == [scans[k]] + scans[k + 1..];
        tick := tick + scans[k].elapsed;
        k := k + 1;
        if !(timeout > tick && count < wanted) {
          more := false;
        }
      }
      assert more ==> scans[k..] == [];
      r := count;
    }

    /** GetFoundRemoteCount. */
    function FoundCount(): (n: int)
      reads this, paths
      requires Valid()
      ensures n == |Found()| && 0 <= n <= MAX_REMOTES
    {
      count
    }

    /** InitializeRemote(nID): for IDs 1 to 4 with a found path and an empty slot, a new
        remote is initialized with that ID; only if that succeeds does it take the slot
        and get announced. `handleOpen` is whether the remote could open its device. */
    method InitializeRemote(id: int, handleOpen: bool, now: real) returns (r: Remote.WiiRemote?)
      requires Valid()
      modifies slots, this`initialized
      ensures Valid()
      ensures var ok := 1 <= id <= MAX_REMOTES && paths[id - 1] != "" && old(slots[id - 1]) == null;
              (r != null <==> ok && handleOpen) &&
              (r != null ==> fresh(r) && r.id == id && slots[..] == old(slots[..])[id - 1 := r] &&
                             initialized == old(initialized) + [id]) &&
              (r == null ==> slots[..] == old(slots[..]) && initialized == old(initialized))
    {
      var slot := id - 1;
      if slot < 0 || slot >= MAX_REMOTES {
        return null;
      }
      if paths[slot] == "" || slots[slot] != null {
        return null;
      }
      var remote, ok := Open(orient, slot + 1, handleOpen, now);
      if ok {
        slots[slot] := remote;
        initialized := initialized + [remote.id as int];
        return remote;
      }
      return null;
    }

    /** A new remote initialized with a valid ID succeeds exactly when it can open its device. */
    static method Open(orient: Motion.Vec3 -> Motion.Orientation, id: Byte, handleOpen: bool, now: real)
      returns (remote: Remote.WiiRemote, ok: bool)
      requires id != Remote.REMOTEID_INVALID
      ensures fresh(remote) && (ok <==> handleOpen) && remote.id == id
    {
      remote := new Remote.WiiRemote(orient);
      var err := remote.Initialize(id, handleOpen, now);
      ok := err == Remote.REMOTE_OK;
    }

    /** GetRemote(nID), with the bound that reaches all four slots. */
    function GetRemote(id: Byte): (r: Remote.WiiRemote?)
      reads this, paths, slots
      requires Valid()
      ensures 1 <= id <= MAX_REMOTES ==> r == slots[id - 1]
      ensures id < 1 || id > MAX_REMOTES ==> r == null
    {
      RemoteAt(slots[..], id)
    }

    /** GetRemoteCount: the slots holding a remote, counted in a loop. */
    method GetRemoteCount() returns (n: int)
      requires Valid()
      ensures n == Occupied(slots[..]) && 0 <= n <= MAX_REMOTES
    {
      n := 0;
      var i := 0;
      while i < MAX_REMOTES
        invariant 0 <= i <= MAX_REMOTES
        invariant n + Occupied(slots[i..]) == Occupied(slots[..])
      {
        assert slots[i..][1..] == slots[i + 1..];
        if slots[i] != null {
          n := n + 1;
        }
        i := i + 1;
      }
      OccupiedBound(slots[..]);
    }

    method AddListener(l: Option<nat>)
      requires Valid()
      modifies this`listeners
      ensures Valid() && listeners == Listeners.Add(old(listeners), l)
    {
      Listeners.AddSpec(listeners, l);
      listeners := Listeners.Add(listeners, l);
    }

    method RemoveListener(l: Option<nat>)
      requires Valid()
      modifies this`listeners
      ensures Valid() && listeners == Listeners.Remove(old(listeners), l)
    {
      Listeners.RemoveNoDup(listeners, l);
      listeners := Listeners.Remove(listeners, l);
    }
  }
}
