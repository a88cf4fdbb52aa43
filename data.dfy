// The data channel of the Wii Remote (WR_CWiiData) and the outbound packet queue
// it writes through (CWR_WiiRemote::WriteData): flash reads and writes are split
// into 16-byte chunks, and read replies are matched with the callbacks waiting for
// them.
module Data {
  import opened Wrappers

  /** WR_MAX_PAYLOAD: every packet is a 22-byte buffer, zeroed before it is filled. */
  const PAYLOAD: nat := 22
  function Empty(): (p: seq<Byte>)
    ensures |p| == PAYLOAD && forall i :: 0 <= i < |p| ==> p[i] == 0
  {
    seq(PAYLOAD, _ => 0)
  }

  /** WR_OUT_WRITEDATA and WR_OUT_READDATA. */
  const OUT_WRITEDATA: Byte := 0x16
  const OUT_READDATA: Byte := 0x17

  /** The largest chunk one packet carries. */
  const CHUNK: int := 16

  /** WR_DATAERROR_SUCCESS. */
  const DATAERROR_SUCCESS: int := 0

  predicate IsPacket(p: seq<Byte>)
  {
    |p| == PAYLOAD
  }

  /** The byte at bit `shift` of the 32-bit pattern of `n` (two's complement for negative n). */
  function ByteOf(n: int, shift: nat): (b: Byte)
    requires shift == 0 || shift == 8 || shift == 16 || shift == 24
  {
    var u := n % 0x1_0000_0000;
    if shift == 24 then u / 0x100_0000
    else if shift == 16 then u / 0x1_0000 % 0x100
    else if shift == 8 then u / 0x100 % 0x100
    else u % 0x100
  }

  /** `b | GetRumbleBit()`: bit 0 carries the rumble state, the other bits are kept. */
  function WithRumble(b: Byte, rumble: bool): (r: Byte)
    ensures r % 2 == (if rumble then 1 else b % 2) && r / 2 == b / 2
  {
    if rumble && b % 2 == 0 then b + 1 else b
  }

  // ----- Outbound messages -----

  /** One outbound report before it is laid out in its 22-byte buffer: a control
      report (opcode and two argument bytes), a read request or a write request. */
  datatype Out =
    | Control(op: Byte, b1: Byte, b2: Byte)
    | ReadRequest(addr: int, size: int, rumble: bool)
    | WriteRequest(addr: int, payload: seq<Byte>, rumble: bool)

  /** A write request carries at most one chunk. */
  predicate WellFormed(o: Out)
  {
    o.WriteRequest? ==> |o.payload| <= CHUNK
  }

  /** The bytes of the buffer a message is written into. */
  function Encode(o: Out): (p: seq<Byte>)
    requires WellFormed(o)
    ensures IsPacket(p)
  {
    match o
    case Control(op, b1, b2) => Empty()[0 := op][1 := b1][2 := b2]
    case ReadRequest(addr, size, rumble) => ReadPacket(addr, size, rumble)
    case WriteRequest(addr, payload, rumble) => WritePacket(addr, payload, rumble)
  }

  /** A control report is its opcode and two argument bytes, zero-padded. */
  lemma ControlLayout(op: Byte, b1: Byte, b2: Byte)
    ensures var p := Encode(Control(op, b1, b2));
            p[0] == op && p[1] == b1 && p[2] == b2 && forall i :: 3 <= i < PAYLOAD ==> p[i] == 0
  {
  }

  /** The remote's write queue: messages are only ever appended here. */
  class Outbox {
    var queue: seq<Out>

    constructor ()
      ensures queue == []
    {
      queue := [];
    }

    /** CWR_WiiRemote::WriteData: push one message. */
    method Send(p: Out)
      modifies this
      ensures queue == old(queue) + [p]
    {
      queue := queue + [p];
    }
  }

  // ----- Chunking -----

  /** The header of ReadData: opcode, address (with the rumble bit in the top byte) and a 16-bit size. */
  function ReadPacket(addr: int, size: int, rumble: bool): (p: seq<Byte>)
    ensures IsPacket(p)
  {
    Empty()[0 := OUT_READDATA][1 := WithRumble(ByteOf(addr, 24), rumble)][2 := ByteOf(addr, 16)][3 := ByteOf(addr, 8)]
         [4 := ByteOf(addr, 0)][5 := ByteOf(size, 8)][6 := ByteOf(size, 0)]
  }

  /** The layout of a read request, byte by byte. */
  lemma ReadPacketLayout(addr: int, size: int, rumble: bool)
    ensures var p := ReadPacket(addr, size, rumble);
            p[0] == OUT_READDATA && p[1] == WithRumble(ByteOf(addr, 24), rumble) &&
            p[2] == ByteOf(addr, 16) && p[3] == ByteOf(addr, 8) && p[4] == ByteOf(addr, 0) &&
            p[5] == ByteOf(size, 8) && p[6] == ByteOf(size, 0) &&
            (forall i :: 7 <= i < PAYLOAD ==> p[i] == 0)
  {
  }

  /** The size of the chunk sent once `sent` bytes have gone: MIN(size - sent, 16). */
  function ChunkSize(size: int, sent: int): (n: int)
    ensures n <= CHUNK && (size - sent <= CHUNK ==> n == size - sent) && (size - sent >= CHUNK ==> n == CHUNK)
  {
    Min(size - sent, CHUNK)
  }

  /** The read-request packets of the do-while loop from `sent` bytes on. */
  function ReadPackets(addr: int, size: int, sent: int, rumble: bool): seq<Out>
    decreases Max(size - sent, 0)
  {
    var n := ChunkSize(size, sent);
    [ReadRequest(addr + sent, n, rumble)] + (if sent + n < size then ReadPackets(addr, size, sent + n, rumble) else [])
  }

  /** The number of packets a transfer of `size` bytes takes: one, or ceil(size / 16). */
  function PacketCount(size: int): (r: int)
    ensures r >= 1 && (size <= CHUNK ==> r == 1)
    ensures size > CHUNK ==> 16 * (r - 1) < size <= 16 * r
  {
    if size <= CHUNK then 1 else (size + 16 - 1) / 16
  }

  /** A read of `size` bytes takes one packet, or one per started 16-byte chunk. */
  lemma {:induction false} ReadPacketsCount(addr: int, size: int, sent: int, rumble: bool)
    requires 0 <= sent && (sent == 0 || sent < size) && sent % 16 == 0
    ensures |ReadPackets(addr, size, sent, rumble)| == PacketCount(size) - sent / 16
    decreases Max(size - sent, 0)
  {
    var n := ChunkSize(size, sent);
    if sent + n < size {
      ReadPacketsCount(addr, size, sent + n, rumble);
      assert (sent + n) / 16 == sent / 16 + 1;
    } else if sent > 0 {
      var q := sent / 16;
      assert sent == 16 * q;
      assert (size + 16 - 1) / 16 == q + 1;
    }
  }

  /** Chunk k of a read starts 16k bytes in and asks for MIN(16, what is left). */
  lemma {:induction false} ReadPacketAt(addr: int, size: int, sent: int, rumble: bool, k: nat)
    requires k < |ReadPackets(addr, size, sent, rumble)|
    ensures ReadPackets(addr, size, sent, rumble)[k] ==
              ReadRequest(addr + sent + 16 * k, ChunkSize(size, sent + 16 * k), rumble)
    decreases k
  {
    var n := ChunkSize(size, sent);
    if k > 0 {
      assert sent + n < size;
      var rest := ReadPackets(addr, size, sent + n, rumble);
      assert ReadPackets(addr, size, sent, rumble)[k] == rest[k - 1];
      ReadPacketAt(addr, size, sent + n, rumble, k - 1);
      assert sent + n + 16 * (k - 1) == sent + 16 * k;
    }
  }

  /** WriteData's packet: opcode, address (with the rumble bit), the chunk size byte, then the payload from byte 6. */
  function WritePacket(addr: int, payload: seq<Byte>, rumble: bool): (p: seq<Byte>)
    requires |payload| <= CHUNK
    ensures IsPacket(p)
  {
    var h := Empty()[0 := OUT_WRITEDATA][1 := WithRumble(ByteOf(addr, 24), rumble)][2 := ByteOf(addr, 16)]
                 [3 := ByteOf(addr, 8)][4 := ByteOf(addr, 0)][5 := |payload|];
    h[..6] + payload + h[6 + |payload|..]
  }

  /** The layout of a write packet, byte by byte. */
  lemma WritePacketLayout(addr: int, payload: seq<Byte>, rumble: bool)
    requires |payload| <= CHUNK
    ensures var p := WritePacket(addr, payload, rumble);
            p[0] == OUT_WRITEDATA && p[1] == WithRumble(ByteOf(addr, 24), rumble) &&
            p[2] == ByteOf(addr, 16) && p[3] == ByteOf(addr, 8) && p[4] == ByteOf(addr, 0) &&
            p[5] == |payload| && p[6..6 + |payload|] == payload &&
            (forall i :: 6 <= i < 6 + |payload| ==> p[i] == payload[i - 6]) &&
            (forall i :: 6 + |payload| <= i < PAYLOAD ==> p[i] == 0)
  {
  }

  /** The payload a write packet carries, read back from its size byte (none from a malformed packet). */
  function Payload(p: seq<Byte>): seq<Byte>
  {
    if IsPacket(p) && p[5] <= CHUNK then p[6..6 + p[5]] else []
  }

  /** The write packets from `sent` bytes on. */
  function WritePackets(addr: int, data: seq<Byte>, sent: nat, rumble: bool): (os: seq<Out>)
    requires sent <= |data|
    ensures forall o :: o in os ==> WellFormed(o)
    decreases |data| - sent
  {
    var n := ChunkSize(|data|, sent);
    [WriteRequest(addr + sent, data[sent..sent + n], rumble)] +
      (if sent + n < |data| then WritePackets(addr, data, sent + n, rumble) else [])
  }

  /** The payloads of a run of write packets, read back from their bytes and concatenated. */
  function Payloads(ps: seq<Out>): seq<Byte>
    requires forall o :: o in ps ==> WellFormed(o)
  {
    if ps == [] then [] else Payload(Encode(ps[0])) + Payloads(ps[1..])
  }

  /** A write packet's payload is read back intact. */
  lemma PayloadOfWritePacket(addr: int, payload: seq<Byte>, rumble: bool)
    requires |payload| <= CHUNK
    ensures Payload(WritePacket(addr, payload, rumble)) == payload
  {
    WritePacketLayout(addr, payload, rumble);
  }

  /** Proof step of WritePacketsCarryData: the payloads of a packet list, one packet at a time. */
  lemma PayloadsCons(p: Out, rest: seq<Out>)
    requires WellFormed(p) && forall o :: o in rest ==> WellFormed(o)
    ensures Payloads([p] + rest) == Payload(Encode(p)) + Payloads(rest)
  {
    assert ([p] + rest)[1..] == rest;
  }

  /** The first write packet carries the first chunk; the rest carry the others. */
  lemma WritePacketsStep(addr: int, data: seq<Byte>, sent: nat, rumble: bool)
    requires sent <= |data|
    ensures var n := ChunkSize(|data|, sent);
            Payloads(WritePackets(addr, data, sent, rumble)) ==
              data[sent..sent + n] + (if sent + n < |data| then Payloads(WritePackets(addr, data, sent + n, rumble)) else [])
  {
    var n := ChunkSize(|data|, sent);
    var chunk := data[sent..sent + n];
    var first := WriteRequest(addr + sent, chunk, rumble);
    assert Payload(Encode(first)) == chunk by {
      PayloadOfWritePacket(addr + sent, chunk, rumble);
    }
    var rest := if sent + n < |data| then WritePackets(addr, data, sent + n, rumble) else [];
    assert WritePackets(addr, data, sent, rumble) == [first] + rest;
    PayloadsCons(first, rest);
  }

  /** The payloads of the write packets, in order, are exactly the data written. */
  lemma {:induction false} WritePacketsCarryData(addr: int, data: seq<Byte>, sent: nat, rumble: bool)
    requires sent <= |data|
    ensures Payloads(WritePackets(addr, data, sent, rumble)) == data[sent..]
    decreases |data| - sent
  {
    var n := ChunkSize(|data|, sent);
    WritePacketsStep(addr, data, sent, rumble);
    if sent + n < |data| {
      WritePacketsCarryData(addr, data, sent + n, rumble);
      assert data[sent..] == data[sent..sent + n] + data[sent + n..];
    } else {
      assert data[sent..] == data[sent..sent + n] + [];
    }
  }

  /** A write of at most one chunk is a single packet carrying all of it. */
  lemma WriteIsOnePacket(addr: int, data: seq<Byte>, rumble: bool)
    requires |data| <= CHUNK
    ensures WritePackets(addr, data, 0, rumble) == [WriteRequest(addr, data, rumble)]
    ensures Payload(Encode(WriteRequest(addr, data, rumble))) == data
  {
    assert data[0..|data|] == data;
    PayloadOfWritePacket(addr, data, rumble);
  }

  /** A write of `size` bytes takes one packet, or one per started 16-byte chunk. */
  lemma {:induction false} WritePacketsCount(addr: int, data: seq<Byte>, sent: nat, rumble: bool)
    requires sent <= |data|
    ensures |WritePackets(addr, data, sent, rumble)| == PacketCount(|data| - sent)
    decreases |data| - sent
  {
    var n := ChunkSize(|data|, sent);
    if sent + n < |data| {
      WritePacketsCount(addr, data, sent + n, rumble);
      var s := |data| - sent;
      assert (s + 16 - 1) / 16 == (s - 16 + 16 - 1) / 16 + 1;
    }
  }

  // ----- Replies -----

  /** The header of a read reply: the 16-bit address, the size (high nibble + 1) and the error (low nibble). */
  datatype Reply = Reply(addr: int, size: int, error: int)

  predicate ReplyValid(r: Reply)
  {
    0 <= r.addr < 0x1_0000 && 1 <= r.size <= CHUNK && 0 <= r.error < 0x10
  }

  /** The header bytes off, off+1 and off+2 of a reply, read as numbers. */
  function DecodeReply(b0: Byte, b1: Byte, b2: Byte): (r: Reply)
    ensures ReplyValid(r)
  {
    Reply(b1 * 0x100 + b2, b0 / 0x10 + 1, b0 % 0x10)
  }

  /** The three header bytes the remote sends for a reply. */
  function EncodeReply(r: Reply): (bs: (Byte, Byte, Byte))
    requires ReplyValid(r)
  {
    ((r.size - 1) * 0x10 + r.error, r.addr / 0x100, r.addr % 0x100)
  }

  /** Decoding a header recovers every field... */
  lemma ReplyRoundTrip(r: Reply)
    requires ReplyValid(r)
    ensures DecodeReply(EncodeReply(r).0, EncodeReply(r).1, EncodeReply(r).2) == r
  {
  }

  /** ...and every header is the encoding of the reply it decodes to. */
  lemma ReplyBytesRoundTrip(b0: Byte, b1: Byte, b2: Byte)
    ensures EncodeReply(DecodeReply(b0, b1, b2)) == (b0, b1, b2)
  {
  }

  /** The read callbacks of the driver (function pointer and parameter); NoCallback is NULL. */
  datatype Callback = NoCallback | RemoteCalibration | NunchukCalibration

  /** A callback invoked with the reply's address, size and data (the buffer from off+3). */
  datatype Invocation = Invocation(cb: Callback, addr: int, size: int, data: seq<bv8>)

  /** Listener notifications of the data channel. */
  datatype DataEvent = DataError(addr: int, error: int) | DataRead(addr: int, size: int, data: seq<bv8>)

  /** The notifications one reply raises: an error first when the error nibble is set, then the data. */
  function ReplyEvents(r: Reply, data: seq<bv8>): (evs: seq<DataEvent>)
    ensures |evs| == (if r.error != DATAERROR_SUCCESS then 2 else 1)
    ensures evs[|evs| - 1] == DataRead(r.addr, r.size, data)
    ensures r.error != DATAERROR_SUCCESS ==> evs[0] == DataError(r.addr, r.error)
  {
    (if r.error != DATAERROR_SUCCESS then [DataError(r.addr, r.error)] else []) + [DataRead(r.addr, r.size, data)]
  }

  /** What a reply at `addr` does to the callback map: the oldest entry is the one called,
      then the whole list for that address goes. */
  function Consume(m: map<int, seq<Callback>>, addr: int): (Option<Callback>, map<int, seq<Callback>>)
  {
    if addr in m && m[addr] != [] then (Some(m[addr][0]), m - {addr}) else (None, m)
  }

  /** The state of CWR_WiiData. */
  /** What a reply and the post-update pass change on the data channel: the was-updated
      flag, the waiting callbacks and the notifications so far. */
  datatype ChannelState = ChannelState(updated: bool, callbacks: map<int, seq<Callback>>, events: seq<DataEvent>)

  /** A reply at `off` taken in: it is notified (after its error, if any), the first callback
      waiting on its address is consumed together with the rest of that list, and that
      callback, unless it is the empty one, is handed back with the reply's bytes. */
  function Replied(s: ChannelState, buffer: seq<bv8>, off: nat): (r: (ChannelState, Option<Invocation>))
    requires off + 3 <= |buffer|
    ensures r.1.Some? ==> r.1.value.data == buffer[off + 3..] && r.1.value.cb != NoCallback
  {
    var r := DecodeReply(buffer[off] as int, buffer[off + 1] as int, buffer[off + 2] as int);
    var (cb, rest) := Consume(s.callbacks, r.addr);
    (ChannelState(true, rest, s.events + ReplyEvents(r, buffer[off + 3..])),
     if cb.Some? && cb.value != NoCallback then Some(Invocation(cb.value, r.addr, r.size, buffer[off + 3..])) else None)
  }

  class DataChannel {
    const out: Outbox
    var attached: bool
    var wasUpdated: bool
    var callbacks: map<int, seq<Callback>>
    var events: seq<DataEvent>

    /** Every address in the map has at least one callback waiting. */
    ghost predicate Valid()
      reads this
    {
      forall a :: a in callbacks ==> callbacks[a] != []
    }

    /** The channel's state as replies and the post-update pass see it. */
    function Snapshot(): ChannelState
      reads this
    {
      ChannelState(wasUpdated, callbacks, events)
    }

    constructor (out: Outbox)
      ensures Valid() && this.out == out && !attached && !wasUpdated && callbacks == map[] && events == []
    {
      this.out := out;
      attached := false;
      wasUpdated := false;
      callbacks := map[];
      events := [];
    }

    method Initialize(remote: bool) returns (ok: bool)
      modifies this`attached
      ensures ok == remote && attached == remote
    {
      attached := remote;
      ok := remote;
    }

    /** ReadData: the callback joins the FIFO of the address's low 16 bits, then the
        request goes out in 16-byte chunks; a size of 16 or less (0 and negative sizes
        included) takes exactly one packet. */
    method ReadData(addr: int, size: int, cb: Callback, rumble: bool)
      requires Valid()
      modifies this`callbacks, out
      ensures Valid()
      ensures callbacks == old(callbacks)[addr % 0x1_0000 := Queued(old(callbacks), addr % 0x1_0000) + [cb]]
      ensures out.queue == old(out.queue) + ReadPackets(addr, size, 0, rumble)
    {
      var key := addr % 0x1_0000;
      callbacks := callbacks[key := Queued(callbacks, key) + [cb]];
      SendReads(out, addr, size, rumble);
    }

    /** The do-while loop of ReadData. */
    static method SendReads(out: Outbox, addr: int, size: int, rumble: bool)
      modifies out
      ensures out.queue == old(out.queue) + ReadPackets(addr, size, 0, rumble)
    {
      var sent := 0;
      var more := true;
      while more
        invariant out.queue + (if more then ReadPackets(addr, size, sent, rumble) else []) ==
                  old(out.queue) + ReadPackets(addr, size, 0, rumble)
        decreases more, Max(size - sent, 0)
      {
        var n := ChunkSize(size, sent);
        var p := ReadRequest(addr + sent, n, rumble);
        ghost var rest := if sent + n < size then ReadPackets(addr, size, sent + n, rumble) else [];
        assert ReadPackets(addr, size, sent, rumble) == [p] + rest;
        ghost var before := out.queue;
        out.Send(p);
        Append(before, [p], rest);
        assert sent + n < size ==> n == CHUNK;
        sent := sent + n;
        more := sent < size;
        assert rest == if more then ReadPackets(addr, size, sent, rumble) else [];
      }
    }

    /** WriteData: the data goes out in 16-byte chunks, byte for byte from position 6. */
    method WriteData(addr: int, data: seq<Byte>, rumble: bool)
      modifies out
      ensures out.queue == old(out.queue) + WritePackets(addr, data, 0, rumble)
    {
      var sent := 0;
      var more := true;
      while more
        invariant sent <= |data|
        invariant out.queue + (if more then WritePackets(addr, data, sent, rumble) else []) ==
                  old(out.queue) + WritePackets(addr, data, 0, rumble)
        decreases more, |data| - sent
      {
        var n := ChunkSize(|data|, sent);
        assert 0 <= n && sent + n <= |data|;
        assert sent + n < |data| ==> n == CHUNK;
        ghost var rest := if sent + n < |data| then WritePackets(addr, data, sent + n, rumble) else [];
        var p := WriteRequest(addr + sent, data[sent..sent + n], rumble);
        assert WritePackets(addr, data, sent, rumble) == [p] + rest;
        ghost var before := out.queue;
        out.Send(p);
        Append(before, [p], rest);
        sent := sent + n;
        more := sent < |data|;
        assert rest == if more then WritePackets(addr, data, sent, rumble) else [];
      }
    }

    /** The copy loop of WriteData: the header, then payload bytes from position 6 while any
        remain; it lays out exactly the bytes of the write request that WriteData queues. */
    static method FillPacket(addr: int, data: seq<Byte>, offset: nat, n: nat, rumble: bool) returns (p: seq<Byte>)
      requires offset + n <= |data| && n <= CHUNK
      ensures p == Encode(WriteRequest(addr, data[offset..offset + n], rumble))
    {
      p := Empty()[0 := OUT_WRITEDATA][1 := WithRumble(ByteOf(addr, 24), rumble)][2 := ByteOf(addr, 16)]
               [3 := ByteOf(addr, 8)][4 := ByteOf(addr, 0)][5 := n];
      ghost var h := p;
      var i := 6;
      while i < PAYLOAD && i - 6 < n
        invariant 6 <= i <= 6 + n && |p| == PAYLOAD
        invariant forall j :: 0 <= j < 6 || i <= j < PAYLOAD ==> p[j] == h[j]
        invariant forall j :: 6 <= j < i ==> p[j] == data[offset + j - 6]
      {
        p := p[i := data[offset + i - 6]];
        i := i + 1;
      }
      ghost var w := WritePacket(addr, data[offset..offset + n], rumble);
      WritePacketLayout(addr, data[offset..offset + n], rumble);
      assert forall j :: 0 <= j < PAYLOAD ==> p[j] == w[j];
    }

    /** OnDataRead: decode the header at `off`, notify, then hand back the oldest callback
        waiting on that address (nothing when none waits or it is NULL) and drop the
        address's whole list. */
    method OnDataRead(buffer: seq<bv8>, off: nat) returns (call: Option<Invocation>)
      requires Valid() && off + 3 <= |buffer|
      modifies this`wasUpdated, this`events, this`callbacks
      ensures Valid() && wasUpdated
      ensures var r := DecodeReply(buffer[off] as int, buffer[off + 1] as int, buffer[off + 2] as int);
              var cb := Consume(old(callbacks), r.addr).0;
              events == old(events) + ReplyEvents(r, buffer[off + 3..]) && callbacks == Consume(old(callbacks), r.addr).1 &&
              call == (if cb.Some? && cb.value != NoCallback then Some(Invocation(cb.value, r.addr, r.size, buffer[off + 3..]))
                       else None)
      ensures (Snapshot(), call) == Replied(old(Snapshot()), buffer, off)
    {
      wasUpdated := true;
      var r := DecodeReply(buffer[off] as int, buffer[off + 1] as int, buffer[off + 2] as int);
      if r.error != DATAERROR_SUCCESS {
        events := events + [DataError(r.addr, r.error)];
      }
      events := events + [DataRead(r.addr, r.size, buffer[off + 3..])];
      call := None;
      if r.addr in callbacks {
        var entry := callbacks[r.addr][0];
        if entry != NoCallback {
          call := Some(Invocation(entry, r.addr, r.size, buffer[off + 3..]));
        }
        callbacks := callbacks - {r.addr};
      }
    }

    method OnPostUpdate()
      modifies this`wasUpdated
      ensures !wasUpdated
      ensures Snapshot() == old(Snapshot()).(updated := false)
    {
      wasUpdated := false;
    }
  }

  /** The callbacks waiting on `key`, none when the address has no list. */
  function Queued(m: map<int, seq<Callback>>, key: int): seq<Callback>
  {
    if key in m then m[key] else []
  }

  /** A reply consumes exactly one waiting callback and drops any queued behind it for the same address. */
  lemma ConsumeDropsLater(m: map<int, seq<Callback>>, addr: int)
    requires addr in m && m[addr] != []
    ensures Consume(m, addr).0 == Some(m[addr][0]) && addr !in Consume(m, addr).1
    ensures forall a :: a in m && a != addr ==> a in Consume(m, addr).1 && Consume(m, addr).1[a] == m[a]
  {
  }

  /** A reply at an address nobody waits on consumes nothing. */
  lemma ConsumeUnregistered(m: map<int, seq<Callback>>, addr: int)
    requires addr !in m
    ensures Consume(m, addr) == (None, m)
  {
  }

  /** Reading and then receiving the reply at the same 16-bit address calls back the oldest reader. */
  lemma ReadThenReply(m: map<int, seq<Callback>>, addr: int, cb: Callback)
    requires 0 <= addr < 0x1_0000
    ensures var m1 := m[addr := Queued(m, addr) + [cb]];
            Consume(m1, addr).0 == Some(if addr in m && m[addr] != [] then m[addr][0] else cb)
  {
  }
}
