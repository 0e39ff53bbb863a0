/** The receive side of the network driver: a pool of equally long buffers, all of them with the device
    between successful calls. */
module Net {
  import opened Wrap
  import opened Sequences
  import opened QueueRuns
  import opened Interference
  import opened PoolModel
  import opened PoolSchedules
  import opened PoolDriver
  import opened Queue
  import opened Layout
  import opened Mmio
  import opened Setup
  import opened NetHeader

  const MIN_BUFFER_LEN: nat := 1526

  /** What a receive buffer holds at each offset.  A device that writes only part of it leaves the rest as it
      was. */
  type Content = nat -> u8

  function Zeroed(i: nat): u8 {
    0
  }

  /** The bytes of a receive buffer of length `n`. */
  function Frame(bytes: Content, n: nat): (f: seq<u8>)
    ensures |f| == n && forall i :: 0 <= i < n ==> f[i] == bytes(i)
  {
    seq(n, i requires 0 <= i < n => bytes(i))
  }

  /** The first `n` bytes behind the header went to the front of the caller's buffer; its rest is untouched. */
  ghost predicate Delivered(frame: seq<u8>, n: nat, before: seq<u8>, after: seq<u8>) {
    && n <= |before| && NET_HDR_SIZE + n <= |frame|
    && after == frame[NET_HDR_SIZE..NET_HDR_SIZE + n] + before[n..]
  }

  /** How a call of `receive` ends. */
  datatype Received = Packet(n: nat) | Failed(error: Error) | Panics

  /** A completion whose packet lies inside its buffer and fits the caller's. */
  predicate Fits(len: nat, bufLen: nat, room: nat) {
    NET_HDR_SIZE <= len <= bufLen && len <= NET_HDR_SIZE + room
  }

  /** What `receive` returns for a completion of `len` bytes; `sole`: no other descriptor is free; `told`: the
      device did not want a notification, or got it. */
  ghost predicate Outcome(r: Received, len: nat, bytes: Content, bufLen: nat, sole: bool, told: bool,
                          before: seq<u8>, after: seq<u8>)
  {
    if Fits(len, bufLen, |before|) then
      && Delivered(Frame(bytes, bufLen), len - NET_HDR_SIZE, before, after)
      && r == (if !told then Failed(IoError) else if sole then Packet(len - NET_HDR_SIZE) else Panics)
    else
      && r == (if len < NET_HDR_SIZE then Failed(IoError) else Panics)
      && after == before
  }

  /** Puts the default header in front of a packet; nothing behind it changes. */
  method FillBufferHeader(buffer: array<u8>) returns (r: Result<nat>)
    modifies buffer
    ensures buffer.Length < NET_HDR_SIZE ==> r == Err(InvalidParam) && buffer[..] == old(buffer[..])
    ensures buffer.Length >= NET_HDR_SIZE ==>
      && r == Ok(NET_HDR_SIZE) && (forall i :: 0 <= i < 10 ==> buffer[i] == 0)
      && Decode(buffer[..]) == DEFAULT_HDR && buffer[NET_HDR_SIZE..] == old(buffer[NET_HDR_SIZE..])
  {
    if buffer.Length < NET_HDR_SIZE {
      return Err(InvalidParam);
    }
    WriteTo(DEFAULT_HDR, buffer);
    ZeroHeader(buffer[..]);
    r := Ok(NET_HDR_SIZE);
  }

  /** Accepts exactly the buffers that start with the default header, as `FillBufferHeader` leaves them. */
  method CheckTxBufHeader(buffer: array<u8>) returns (r: Result<()>)
    ensures r == if buffer.Length >= NET_HDR_SIZE && Decode(buffer[..]) == DEFAULT_HDR then Ok(())
                 else Err(InvalidParam)
    ensures r.Ok? <==> 10 <= buffer.Length && forall i :: 0 <= i < 10 ==> buffer[i] == 0
  {
    if buffer.Length < NET_HDR_SIZE {
      return Err(InvalidParam);
    }
    var same := Equal(DEFAULT_HDR, buffer);
    ZeroHeader(buffer[..]);
    r := if same then Ok(()) else Err(InvalidParam);
  }

  class VirtIONet {
    const transport: MmioTransport
    const pool: BufferPool<Content>
    const sendQueue: VirtIoQueue
    const bufLen: nat

    /** The receive buffers belong to queue 0. */
    ghost predicate Wired() {
      pool.queue.index == 0 && pool.len == bufLen % 0x1_0000_0000
    }

    /** Every outstanding token is bound to its own buffer. */
    ghost predicate Usable()
      reads this, pool, pool.bufs, pool.queue, pool.queue.desc, pool.queue.availRing, pool.queue.usedRing
    {
      Wired() && pool.Valid() && bufLen >= MIN_BUFFER_LEN
    }

    /** All tokens are outstanding. */
    ghost predicate Valid()
      reads this, pool, pool.bufs, pool.queue, pool.queue.desc, pool.queue.availRing, pool.queue.usedRing
    {
      Usable() && pool.queue.availDescIndex == []
    }

    ghost predicate Separate(data: array<u8>)
      reads this
    {
      data as object !in {pool.bufs as object, pool.queue.availRing as object, pool.queue.desc as object,
                          pool.queue.usedRing as object}
    }

    constructor (transport: MmioTransport, pool: BufferPool<Content>, sendQueue: VirtIoQueue, bufLen: nat)
      ensures this.transport == transport && this.pool == pool && this.sendQueue == sendQueue && this.bufLen == bufLen
    {
      this.transport, this.pool, this.sendQueue, this.bufLen := transport, pool, sendQueue, bufLen;
    }

    /** Brings the device into service and submits all receive buffers; each gets its own index as token,
        whatever the device does meanwhile.  Fails if the device lacks a queue, if the buffers are too short for
        any packet, or if a notification fails. */
    static method New(t: MmioTransport, alloc: BumpAllocator, supported: u64, addrs: seq<u64>, bufLen: nat,
                      script: Script<Content>, notifyOk: bool)
      returns (r: Result<VirtIONet>)
      requires t.Valid() && alloc.Valid() && Spacious(alloc.next, 2) && NoDup(addrs)
      modifies t, alloc
      ensures t.Valid() && alloc.Valid() && Initialized(t, old(t.seen), supported, OffersPair(t.bank.maxSizes, |addrs|))
      ensures r == Err(InvalidParam) <==> !OffersPair(t.bank.maxSizes, |addrs|) || bufLen < 1526
      ensures r.Err? && r.error != InvalidParam ==> r.error == IoError && !notifyOk
      ensures r.Ok? ==>
        r.value.Valid() && r.value.bufLen == bufLen && r.value.pool.returned == [] && r.value.pool.addrs == addrs
      ensures r.Ok? ==> forall i: nat :: i < |addrs| ==> BoundTo(r.value.pool.View(), i)
      ensures r.Ok? ==> r.value.transport == t && r.value.sendQueue.index == 1
      ensures r.Ok? ==> PairRegistered(t.version, t.bank, old(alloc.grants), alloc.grants,
                                       r.value.pool.queue, r.value.sendQueue, |addrs|)
      ensures r.Ok? && script == [] && notifyOk ==>
        t.bank.notified == old(t.bank).notified + Bells(0, 0, |addrs|)
    {
      var queues := NewPair(t, alloc, supported, |addrs|);
      if queues.Err? {
        return Err(queues.error);
      }
      ghost var calls;
      r, calls := StartInit(t, queues.value.0, queues.value.1, addrs, bufLen, script, notifyOk, old(t.seen), supported);
    }

    /** `new` once the raw driver is there: nothing that it does disturbs what was agreed with the device. */
    static method StartInit(t: MmioTransport, queue: VirtIoQueue, sendQueue: VirtIoQueue, addrs: seq<u64>, bufLen: nat,
                            script: Script<Content>, notifyOk: bool, ghost before: seq<Bank>, ghost supported: u64)
      returns (r: Result<VirtIONet>, ghost calls: seq<u32>)
      requires Accepted(|addrs|) && NoDup(addrs) && queue.View() == Fresh(|addrs|) && queue.index == 0
      requires t.Valid() && Initialized(t, before, supported, true)
      modifies t, queue, queue.desc, queue.availRing, queue.usedRing
      ensures t.Valid() && Initialized(t, before, supported, true)
      ensures t.bank == old(t.bank).(notified := old(t.bank).notified + calls)
      ensures Started(r, t, queue, sendQueue, addrs, bufLen, script, notifyOk, calls)
    {
      r, calls := Start(t, queue, sendQueue, addrs, bufLen, script, notifyOk);
      RungHandshake(t.version, old(t.seen), old(t.bank), t.seen, t.bank, calls, |before|);
    }

    /** How the creation of a driver over given queues ends, with which notifications. */
    static ghost predicate Started(r: Result<VirtIONet>, t: MmioTransport, queue: VirtIoQueue, sendQueue: VirtIoQueue,
                                   addrs: seq<u64>, bufLen: nat, script: Script<Content>, notifyOk: bool,
                                   calls: seq<u32>)
      reads if r.Ok? then {r.value, r.value.pool, r.value.pool.bufs, r.value.pool.queue, r.value.pool.queue.desc,
                           r.value.pool.queue.availRing, r.value.pool.queue.usedRing} else {}
    {
      && (r == Err(InvalidParam) <==> bufLen < MIN_BUFFER_LEN)
      && (r.Err? && r.error != InvalidParam ==> r.error == IoError && !notifyOk)
      && (r.Ok? ==>
            && r.value.Valid() && r.value.bufLen == bufLen && r.value.pool.returned == []
            && r.value.pool.addrs == addrs && (forall i: nat :: i < |addrs| ==> BoundTo(r.value.pool.View(), i))
            && r.value.transport == t && r.value.pool.queue == queue && r.value.sendQueue == sendQueue)
      && (r.Ok? && script == [] && notifyOk ==> calls == Bells(0, 0, |addrs|))
    }

    /** Creates the buffers and submits them. */
    static method Start(t: MmioTransport, queue: VirtIoQueue, sendQueue: VirtIoQueue, addrs: seq<u64>, bufLen: nat,
                        script: Script<Content>, notifyOk: bool)
      returns (r: Result<VirtIONet>, ghost calls: seq<u32>)
      requires Accepted(|addrs|) && NoDup(addrs) && queue.View() == Fresh(|addrs|) && queue.index == 0
      modifies t, queue, queue.desc, queue.availRing, queue.usedRing
      ensures t.Told(calls) && Started(r, t, queue, sendQueue, addrs, bufLen, script, notifyOk, calls)
    {
      var p := new BufferPool<Content>(queue, addrs, bufLen % 0x1_0000_0000, Zeroed);
      if bufLen < MIN_BUFFER_LEN {
        return Err(InvalidParam), [];
      }
      var net := new VirtIONet(t, p, sendQueue, bufLen);
      var ok;
      ok, calls := Fill(t, p, script, notifyOk);
      r := if ok then Ok(net) else Err(IoError);
    }

    /** The loop of `new`: submits every buffer, notifying the device after each if it wants that. */
    static method Fill(t: MmioTransport, p: BufferPool<Content>, script: Script<Content>, notifyOk: bool)
      returns (ok: bool, ghost calls: seq<u32>)
      requires p.Valid() && Counting(p.queue.availDescIndex, 0, p.bufs.Length)
      modifies t, p`written, p.bufs, p.queue, p.queue.desc, p.queue.availRing, p.queue.usedRing
      ensures notifyOk ==> ok
      ensures ok ==> p.Valid() && p.queue.availDescIndex == []
      ensures ok ==> forall t: nat :: t < p.bufs.Length ==> BoundTo(p.View(), t)
      ensures t.Told(calls)
      ensures ok && script == [] && notifyOk ==> calls == Bells(old(p.queue.usedFlags), p.queue.index, p.bufs.Length)
    {
      calls := [];
      for i := 0 to p.bufs.Length
        invariant p.Valid() && Counting(p.queue.availDescIndex, i, p.bufs.Length)
        invariant t.Told(calls)
        invariant script == [] ==> p.queue.usedFlags == old(p.queue.usedFlags)
        invariant script == [] && notifyOk ==> calls == Bells(old(p.queue.usedFlags), p.queue.index, i)
      {
        ghost var seen, bank := t.seen, t.bank;
        ok := FillOne(t, p, i, script, notifyOk);
        RungTwice(old(t.seen), old(t.bank), seen, bank, t.seen, t.bank, calls,
                  Bell(p.queue.usedFlags, notifyOk, p.queue.index));
        calls := calls + Bell(p.queue.usedFlags, notifyOk, p.queue.index);
        if !ok {
          return;
        }
      }
      forall t: nat | t < p.bufs.Length
        ensures BoundTo(p.View(), t)
      {
        AllBound(p.View(), t);
      }
      ok := true;
    }

    /** One turn of the loop: buffer `i` gets token `i`. */
    static method FillOne(t: MmioTransport, p: BufferPool<Content>, i: u16, script: Script<Content>, notifyOk: bool)
      returns (ok: bool)
      requires p.Valid() && i < p.bufs.Length && Counting(p.queue.availDescIndex, i, p.bufs.Length)
      modifies t, p`written, p.bufs, p.queue, p.queue.desc, p.queue.availRing, p.queue.usedRing
      ensures p.Valid() && Counting(p.queue.availDescIndex, i + 1, p.bufs.Length)
      ensures ok <==> p.queue.usedFlags % 2 == 1 || notifyOk
      ensures t.Told(Bell(p.queue.usedFlags, notifyOk, p.queue.index))
      ensures script == [] ==> p.queue.usedFlags == old(p.queue.usedFlags)
    {
      var token := p.SubmitNext(i, script, 3 * i);
      assert token == Ok(i);
      ok := p.NotifyInOrder(t, script, 3 * i + 2, notifyOk);
    }

    /** Pops the oldest completion, hands out its packet, and submits its buffer again.
        A completion shorter than the header is an error that leaves its descriptor unused, and the next
        packet then fails the check on its token: see `ShortThenPanics`. */
    method Receive(data: array<u8>, script: Script<Content>, notifyOk: bool) returns (r: Received)
      requires Usable() && Separate(data)
      modifies transport, pool, pool.bufs, pool.queue, pool.queue.desc, pool.queue.availRing, pool.queue.usedRing, data
      ensures PoolTries(old(pool.View()), Cue(script, 0)).written <= pool.written
      ensures PoolTries(old(pool.View()), Cue(script, 0)).sys.hist.used <= pool.queue.hist.used
      ensures |script| <= 1 ==> pool.written == PoolTries(old(pool.View()), Cue(script, 0)).written
      ensures r == Failed(NotReady) ==>
        && Usable() && pool.queue.availDescIndex == old(pool.queue.availDescIndex)
        && pool.returned == old(pool.returned) && |pool.returned| == |pool.written| && transport.Told([])
      ensures r != Failed(NotReady) ==>
        Handled(r, |old(pool.returned)|, |old(pool.queue.availDescIndex)|, notifyOk, old(data[..]), data)
        && transport.Told(Rings(pool.returned[|old(pool.returned)|].0, data.Length, notifyOk))
    {
      var token := pool.Poll(script, 0);
      if token == -1 {
        return Failed(NotReady);
      }
      r := ReceiveToken(token, data, script, notifyOk);
    }

    /** Completion number `k` was popped while `free` descriptors were free, and `receive` ended as it should. */
    ghost predicate Handled(r: Received, k: nat, free: nat, notifyOk: bool, before: seq<u8>, data: array<u8>)
      reads this, pool, pool.bufs, pool.queue, pool.queue.desc, pool.queue.availRing, pool.queue.usedRing, data
    {
      && |pool.returned| == k + 1 <= |pool.written| && k < |pool.queue.hist.used|
      && var (len, bytes) := pool.returned[k];
         && len == pool.queue.hist.used[k].len && bytes == pool.written[k]
         && Outcome(r, len, bytes, bufLen, free == 0, pool.queue.usedFlags % 2 == 1 || notifyOk, before, data[..])
         && (len < NET_HDR_SIZE ==> Usable() && |pool.queue.availDescIndex| == free + 1)
         && (Fits(len, bufLen, data.Length) && free == 0 ==> Valid())
    }

    /** The notifications of a call that popped a completion of `len` bytes: one if the buffer was submitted again
        and the device wants it. */
    ghost function Rings(len: nat, room: nat, notifyOk: bool): seq<u32>
      reads pool.queue
    {
      if Fits(len, bufLen, room) then Bell(pool.queue.usedFlags, notifyOk, 0) else []
    }

    /** `receive` once `peek_used` has reported `token`. */
    method ReceiveToken(token: u16, data: array<u8>, script: Script<Content>, notifyOk: bool) returns (r: Received)
      requires Usable() && Separate(data) && Peek(pool.queue.View()) == token
      modifies transport, pool, pool.bufs, pool.queue, pool.queue.desc, pool.queue.availRing, pool.queue.usedRing, data
      ensures old(pool.written) <= pool.written && old(pool.queue.hist.used) <= pool.queue.hist.used
      ensures |script| <= 1 ==> pool.written == old(pool.written)
      ensures r != Failed(NotReady)
      ensures Handled(r, |old(pool.returned)|, |old(pool.queue.availDescIndex)|, notifyOk, old(data[..]), data)
      ensures transport.Told(Rings(pool.returned[|old(pool.returned)|].0, data.Length, notifyOk))
    {
      var len, bytes, at := pool.Collect(token, script, 1);
      ghost var k, written, used := |old(pool.returned)|, pool.written, pool.queue.hist.used;
      assert pool.returned[k] == (used[k].len, written[k]);
      r := Deliver(token, len, bytes, data, script, at, notifyOk);
      PrefixTwice(old(pool.written), written, pool.written);
      PrefixTwice(old(pool.queue.hist.used), used, pool.queue.hist.used);
    }

    /** Copies out the packet of a token that was popped, and submits its buffer again. */
    method Deliver(token: u16, len: u32, bytes: Content, data: array<u8>, script: Script<Content>, at: nat,
                   notifyOk: bool)
      returns (r: Received)
      requires Usable() && Separate(data) && token < pool.bufs.Length
      requires 0 < |pool.queue.availDescIndex| && pool.queue.availDescIndex[|pool.queue.availDescIndex| - 1] == token
      modifies transport, pool`written, pool.bufs
      modifies pool.queue, pool.queue.desc, pool.queue.availRing, pool.queue.usedRing, data
      ensures old(pool.written) <= pool.written && old(pool.queue.hist.used) <= pool.queue.hist.used
      ensures |script| <= at ==> pool.written == old(pool.written)
      ensures r != Failed(NotReady)
      ensures Outcome(r, len, bytes, bufLen, old(pool.queue.availDescIndex) == [token],
                      pool.queue.usedFlags % 2 == 1 || notifyOk, old(data[..]), data[..])
      ensures transport.Told(Rings(len, data.Length, notifyOk))
      ensures len < NET_HDR_SIZE ==> Usable() && pool.queue.availDescIndex == old(pool.queue.availDescIndex)
      ensures Fits(len, bufLen, data.Length) && old(pool.queue.availDescIndex) == [token] ==> Valid()
    {
      if len < NET_HDR_SIZE {
        return Failed(IoError);
      }
      var n := len - NET_HDR_SIZE;
      if n > data.Length || len > bufLen {
        return Panics;
      }
      Copy(Frame(bytes, bufLen), data, n);
      var same, told := Return(token, script, at, notifyOk);
      r := if !told then Failed(IoError) else if same then Packet(n) else Panics;
    }

    /** Submits the buffer of a popped token again and notifies the device. */
    method Return(token: u16, script: Script<Content>, at: nat, notifyOk: bool) returns (same: bool, told: bool)
      requires Usable() && token < pool.bufs.Length
      requires 0 < |pool.queue.availDescIndex| && pool.queue.availDescIndex[|pool.queue.availDescIndex| - 1] == token
      modifies transport, pool`written, pool.bufs
      modifies pool.queue, pool.queue.desc, pool.queue.availRing, pool.queue.usedRing
      ensures old(pool.written) <= pool.written && old(pool.queue.hist.used) <= pool.queue.hist.used
      ensures |script| <= at ==> pool.written == old(pool.written)
      ensures same <==> old(pool.queue.availDescIndex) == [token]
      ensures same ==> Valid()
      ensures told <==> pool.queue.usedFlags % 2 == 1 || notifyOk
      ensures transport.Told(Bell(pool.queue.usedFlags, notifyOk, 0))
    {
      var newToken := pool.Resubmit(token, script, at);
      same := newToken == Ok(token);
      ghost var p := pool.View();
      if same {
        TriesUndisturbed(p, Cue(script, AddEnd(at, 1)));
      }
      TriesGrow(p, Cue(script, AddEnd(at, 1)));
      told := pool.Notify(transport, script, AddEnd(at, 1), notifyOk);
      PrefixTwice(old(pool.written), p.written, pool.written);
      PrefixTwice(old(pool.queue.hist.used), p.sys.hist.used, pool.queue.hist.used);
    }

    /** From every state without pending packets, if there are two buffers or more: a completion shorter than the
        header, and then any packet that fits makes the call panic. */
    method ShortThenPanics(data: array<u8>, short: u32, len: u32, bytes: Content)
      returns (first: Received, second: Received)
      requires Valid() && Separate(data) && |pool.returned| == |pool.written| && 2 <= pool.bufs.Length
      requires short < NET_HDR_SIZE && Fits(len, bufLen, data.Length)
      modifies transport, pool, pool.bufs, pool.queue, pool.queue.desc, pool.queue.availRing, pool.queue.usedRing, data
      ensures first == Failed(IoError) && second == Panics
    {
      var h := pool.Grab();
      first := ReceiveFrom(h, short, bytes, data);
      h := pool.Grab();
      second := ReceiveFrom(h, len, bytes, data);
    }

    /** The device completes a chain that it holds, and nothing else happens. */
    method ReceiveFrom(h: u16, len: u32, bytes: Content, data: array<u8>) returns (r: Received)
      requires Usable() && Separate(data) && |pool.returned| == |pool.written| && h in pool.queue.dev.held
      modifies transport, pool, pool.bufs, pool.queue, pool.queue.desc, pool.queue.availRing, pool.queue.usedRing, data
      ensures |pool.returned| == |pool.written|
      ensures r != Failed(NotReady)
      ensures Outcome(r, len, bytes, bufLen, old(pool.queue.availDescIndex) == [], true, old(data[..]), data[..])
      ensures len < NET_HDR_SIZE ==> Usable() && |pool.queue.availDescIndex| == 1 + |old(pool.queue.availDescIndex)|
    {
      var acts := Filling(h, bytes, len);
      FillingDelivers(pool.View(), h, bytes, len);
      r := Receive(data, [acts], true);
    }

    /** Copies a packet behind its header into the caller's buffer. */
    method Copy(frame: seq<u8>, data: array<u8>, n: nat)
      requires n <= data.Length && NET_HDR_SIZE + n <= |frame|
      modifies data
      ensures Delivered(frame, n, old(data[..]), data[..])
    {
      for i := 0 to n
        invariant forall j :: 0 <= j < i ==> data[j] == frame[NET_HDR_SIZE + j]
        invariant forall j :: i <= j < data.Length ==> data[j] == old(data[j])
      {
        data[i] := frame[NET_HDR_SIZE + i];
      }
    }
  }
}
