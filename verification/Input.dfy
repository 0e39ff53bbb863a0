/** The input driver: 32 event buffers, all of them with the device between calls. */
module Input {
  import opened Wrap
  import opened Sequences
  import opened QueueRuns
  import opened Interference
  import opened PoolModel
  import opened PoolSchedules
  import opened PoolDriver
  import opened Queue
  import opened Layout
  import opened Records
  import opened Mmio
  import opened Setup

  const QUEUE_SIZE := 32
  const EVENT_SIZE: u32 := 8
  const SUPPORTED_FEATURES: u64 := 0

  datatype InputEvent = InputEvent(eventType: u16, code: u16, value: u32)

  datatype Option<+T> = None | Some(value: T)

  /** The addresses of the elements of `event_buf`. */
  function EventAddrs(base: u64): (addrs: seq<u64>)
    requires base + QUEUE_SIZE * EVENT_SIZE <= 0x1_0000_0000_0000_0000
    ensures |addrs| == QUEUE_SIZE
  {
    seq(QUEUE_SIZE, i requires 0 <= i < QUEUE_SIZE => base + i * EVENT_SIZE)
  }

  /** The size is that of the record `InputEvent`. */
  lemma EventSize()
    ensures EVENT_SIZE == SizeOf([U16, U16, U32])
  {
    EndNext([], U16);
    EndNext([U16], U16);
    EndNext([U16, U16], U32);
    assert [] + [U16] == [U16] && [U16] + [U16] == [U16, U16] && [U16, U16] + [U32] == [U16, U16, U32];
  }

  /** Byte `a` belongs to event buffer `i`. */
  predicate InEvent(base: u64, i: int, a: nat)
    requires base + QUEUE_SIZE * EVENT_SIZE <= 0x1_0000_0000_0000_0000
  {
    0 <= i < QUEUE_SIZE && EventAddrs(base)[i] <= a < EventAddrs(base)[i] + EVENT_SIZE
  }

  /** Every byte of the 32 events of 8 bytes belongs to exactly one event buffer, and no other byte to any. */
  lemma EventsTile(base: u64, a: nat)
    requires base + QUEUE_SIZE * EVENT_SIZE <= 0x1_0000_0000_0000_0000
    ensures base <= a < base + 256 <==> exists i :: InEvent(base, i, a)
    ensures forall i, j :: InEvent(base, i, a) && InEvent(base, j, a) ==> i == j
  {
    if base <= a < base + 256 {
      assert InEvent(base, (a - base) / 8, a);
    }
  }

  class VirtIOInput {
    const transport: MmioTransport
    const pool: BufferPool<InputEvent>
    const statusQueue: VirtIoQueue

    /** The event buffers belong to queue 0. */
    ghost predicate Wired() {
      pool.queue.index == 0 && pool.len == EVENT_SIZE
    }

    /** Every event buffer is submitted under its own token. */
    ghost predicate Valid()
      reads this, pool, pool.bufs, pool.queue, pool.queue.desc, pool.queue.availRing, pool.queue.usedRing
    {
      Wired() && pool.Valid() && pool.queue.availDescIndex == []
    }

    /** Submits all event buffers; each gets its own index as token, whatever the device does meanwhile. */
    constructor (transport: MmioTransport, queue: VirtIoQueue, statusQueue: VirtIoQueue, base: u64,
                 script: Script<InputEvent>)
      requires queue.index == 0
      requires base + QUEUE_SIZE * EVENT_SIZE <= 0x1_0000_0000_0000_0000 && queue.View() == Fresh(QUEUE_SIZE)
      modifies queue, queue.desc, queue.availRing, queue.usedRing
      ensures Valid() && pool.queue == queue && fresh(pool) && fresh(pool.bufs)
      ensures this.transport == transport && this.statusQueue == statusQueue
      ensures pool.returned == [] && pool.addrs == EventAddrs(base)
      ensures forall t: nat :: t < QUEUE_SIZE ==> BoundTo(pool.View(), t)
    {
      assert Accepted(32) by { assert IsPowerOfTwo(4); assert IsPowerOfTwo(8); assert IsPowerOfTwo(16); }
      var p := new BufferPool<InputEvent>(queue, EventAddrs(base), EVENT_SIZE, InputEvent(0, 0, 0));
      for i := 0 to QUEUE_SIZE
        invariant p.Valid() && p.bufs.Length == QUEUE_SIZE && Counting(p.queue.availDescIndex, i, QUEUE_SIZE)
        invariant p.returned == []
      {
        var token := p.SubmitNext(i, script, 2 * i);
        assert token == Ok(i);
      }
      pool, this.transport, this.statusQueue := p, transport, statusQueue;
      new;
      forall t: nat | t < QUEUE_SIZE
        ensures BoundTo(pool.View(), t)
      {
        AllBound(pool.View(), t);
      }
    }

    /** Brings the device into service: the event queue and the status queue, all event buffers submitted, one
        notification, and only then the driver is ready. */
    static method New(t: MmioTransport, alloc: BumpAllocator, base: u64, script: Script<InputEvent>, notifyOk: bool)
      returns (r: Result<VirtIOInput>)
      requires base + QUEUE_SIZE * EVENT_SIZE <= 0x1_0000_0000_0000_0000
      requires t.Valid() && alloc.Valid() && Spacious(alloc.next, 2)
      modifies t, alloc
      ensures t.Valid() && alloc.Valid() && Initialized(t, old(t.seen), 0, r.Ok?)
      ensures r == Err(InvalidParam) <==> !OffersPair(t.bank.maxSizes, 32)
      ensures r.Err? && r.error != InvalidParam ==> r.error == IoError && !notifyOk
      ensures r.Ok? ==> Ready(r.value, base) && r.value.transport == t && r.value.statusQueue.index == 1
      ensures r.Ok? ==> PairRegistered(t.version, t.bank, old(alloc.grants), alloc.grants,
                                       r.value.pool.queue, r.value.statusQueue, QUEUE_SIZE)
      ensures r.Ok? ==> t.bank.notified == old(t.bank).notified + Bell(r.value.pool.queue.usedFlags, notifyOk, 0)
    {
      var queues := BeginPair(t, alloc, SUPPORTED_FEATURES, QUEUE_SIZE);
      if queues.Err? {
        return Err(queues.error);
      }
      r := Finish(t, queues.value.0, queues.value.1, base, script, notifyOk, old(t.seen));
    }

    /** `new` once the queues are there. */
    static method Finish(t: MmioTransport, queue: VirtIoQueue, statusQueue: VirtIoQueue, base: u64,
                         script: Script<InputEvent>, notifyOk: bool, ghost before: seq<Bank>)
      returns (r: Result<VirtIOInput>)
      requires queue.index == 0
      requires base + QUEUE_SIZE * EVENT_SIZE <= 0x1_0000_0000_0000_0000 && queue.View() == Fresh(QUEUE_SIZE)
      requires t.Valid() && Begun(t, before, SUPPORTED_FEATURES)
      modifies t, queue, queue.desc, queue.availRing, queue.usedRing
      ensures t.Valid() && Initialized(t, before, SUPPORTED_FEATURES, r.Ok?)
      ensures t.bank == old(t.bank).(status := t.bank.status,
                                     notified := old(t.bank).notified + Bell(queue.usedFlags, notifyOk, 0))
      ensures r.Err? ==> r.error == IoError && !notifyOk
      ensures r.Ok? ==> Ready(r.value, base) && r.value.Over(t, queue, statusQueue)
    {
      r := Start(t, queue, statusQueue, base, script, notifyOk);
      RungHandshake(t.version, old(t.seen), old(t.bank), t.seen, t.bank, Bell(queue.usedFlags, notifyOk, 0), |before|);
      if r.Ok? {
        FinishInit(t, before, SUPPORTED_FEATURES);
      }
    }

    /** Submits all event buffers and notifies the device if it wants that. */
    static method Start(t: MmioTransport, queue: VirtIoQueue, statusQueue: VirtIoQueue, base: u64,
                        script: Script<InputEvent>, notifyOk: bool)
      returns (r: Result<VirtIOInput>)
      requires queue.index == 0
      requires base + QUEUE_SIZE * EVENT_SIZE <= 0x1_0000_0000_0000_0000 && queue.View() == Fresh(QUEUE_SIZE)
      modifies t, queue, queue.desc, queue.availRing, queue.usedRing
      ensures r.Err? <==> queue.usedFlags % 2 == 0 && !notifyOk
      ensures t.Told(Bell(queue.usedFlags, notifyOk, 0))
      ensures r.Err? ==> r.error == IoError
      ensures r.Ok? ==> Ready(r.value, base) && r.value.Over(t, queue, statusQueue)
    {
      var driver := new VirtIOInput(t, queue, statusQueue, base, script);
      var ok := driver.pool.NotifyInOrder(t, script, 2 * QUEUE_SIZE, notifyOk);
      r := if ok then Ok(driver) else Err(IoError);
    }

    ghost predicate Over(t: MmioTransport, queue: VirtIoQueue, statusQueue: VirtIoQueue) {
      transport == t && pool.queue == queue && this.statusQueue == statusQueue
    }

    /** All buffers are submitted and nothing was handed out yet. */
    static ghost predicate Ready(d: VirtIOInput, base: u64)
      requires base + QUEUE_SIZE * EVENT_SIZE <= 0x1_0000_0000_0000_0000
      reads d, d.pool, d.pool.bufs, d.pool.queue, d.pool.queue.desc, d.pool.queue.availRing, d.pool.queue.usedRing
    {
      d.Valid() && d.pool.returned == [] && d.pool.addrs == EventAddrs(base)
    }

    /** Pops the oldest completion, hands out its event, and submits its buffer again.  If the notification
        fails the event is lost: it is popped but not handed out.
        Without device steps inside the call it is the `Service` step of the pool. */
    method PopPendingEvent(script: Script<InputEvent>, notifyOk: bool) returns (r: Result<Option<InputEvent>>)
      requires Valid()
      modifies transport, pool, pool.bufs, pool.queue, pool.queue.desc, pool.queue.availRing, pool.queue.usedRing
      ensures Valid() && PoolTries(old(pool.View()), Cue(script, 0)).written <= pool.written
      ensures r == Ok(None) ==> pool.returned == old(pool.returned) && |pool.returned| == |pool.written|
      ensures r != Ok(None) ==> |pool.returned| == |old(pool.returned)| + 1 <= |pool.written|
      ensures r.Ok? && r.value.Some? ==> r.value.value == pool.written[|old(pool.returned)|]
      ensures transport.Told(if r == Ok(None) then [] else Bell(pool.queue.usedFlags, notifyOk, 0))
      ensures r.Err? ==> r.error == IoError
      ensures r.Err? <==> |pool.returned| == |old(pool.returned)| + 1 && pool.queue.usedFlags % 2 == 0 && !notifyOk
      ensures |script| <= 1 ==> pool.View() == PoolStep(PoolTries(old(pool.View()), Cue(script, 0)), Service)
    {
      var token := pool.Poll(script, 0);
      if token == -1 {
        return Ok(None);
      }
      ghost var p := pool.View();
      ghost var mid;
      r, mid := HandOut(token, script, notifyOk);
      if |script| <= 1 {
        ServiceIs(p, token, mid, pool.View());
      }
      PrefixTwice(PoolTries(old(pool.View()), Cue(script, 0)).written, p.written, pool.written);
    }

    /** `pop_pending_event` once `peek_used` has reported `token`. */
    method HandOut(token: u16, script: Script<InputEvent>, notifyOk: bool)
      returns (r: Result<Option<InputEvent>>, ghost mid: Pool<InputEvent>)
      requires Valid() && Peek(pool.queue.View()) == token
      modifies transport, pool, pool.bufs, pool.queue, pool.queue.desc, pool.queue.availRing, pool.queue.usedRing
      ensures Valid() && old(pool.written) <= pool.written
      ensures |pool.returned| == |old(pool.returned)| + 1 <= |pool.written|
      ensures r == if pool.queue.usedFlags % 2 == 0 && !notifyOk then Err(IoError)
                   else Ok(Some(pool.written[|old(pool.returned)|]))
      ensures transport.Told(Bell(pool.queue.usedFlags, notifyOk, 0))
      ensures |script| <= 1 ==> PoppedAndReturned(old(pool.View()), token, mid, pool.View())
    {
      var event, at;
      event, at, mid := Deliver(token, script, 1);
      ghost var delivered := pool.written;
      var ok := pool.NotifyInOrder(transport, script, at, notifyOk);
      PrefixTwice(old(pool.written), delivered, pool.written);
      r := if ok then Ok(Some(event)) else Err(IoError);
    }

    /** From every state without pending events the device can complete an event that no call ever hands out: the
        notification fails, the call returns an error, and the next one finds nothing. */
    method LoseEvent(event: InputEvent) returns (first: Result<Option<InputEvent>>, second: Result<Option<InputEvent>>)
      requires Valid() && |pool.returned| == |pool.written|
      modifies transport, pool, pool.bufs, pool.queue, pool.queue.desc, pool.queue.availRing, pool.queue.usedRing
      ensures Valid() && pool.written == old(pool.written) + [event]
      ensures first == Err(IoError) && second == Ok(None)
    {
      var h := pool.Grab();
      first := LoseHeld(h, event);
      ServiceSame(pool.View());
      assert PoolTries(pool.View(), Cue([], 0)) == pool.View();
      second := PopPendingEvent([], true);
    }

    method LoseHeld(h: u16, event: InputEvent) returns (r: Result<Option<InputEvent>>)
      requires Valid() && |pool.returned| == |pool.written| && h in pool.queue.dev.held
      modifies transport, pool, pool.bufs, pool.queue, pool.queue.desc, pool.queue.availRing, pool.queue.usedRing
      ensures Valid() && pool.written == old(pool.written) + [event] && |pool.returned| == |pool.written|
      ensures r == Err(IoError)
    {
      var acts := Filling(h, event, EVENT_SIZE);
      FillingDelivers(pool.View(), h, event, EVENT_SIZE);
      ServiceSame(PoolTries(pool.View(), acts));
      r := PopPendingEvent([acts], false);
    }

    /** Pops the token that `peek_used` reported, copies its event and submits its buffer again. */
    method Deliver(token: u16, script: Script<InputEvent>, lo: nat)
      returns (event: InputEvent, hi: nat, ghost mid: Pool<InputEvent>)
      requires Valid() && Peek(pool.queue.View()) == token
      modifies pool, pool.bufs, pool.queue, pool.queue.desc, pool.queue.availRing, pool.queue.usedRing
      ensures lo < hi && Valid() && old(pool.written) <= pool.written
      ensures |pool.returned| == |old(pool.returned)| + 1 <= |pool.written|
      ensures event == pool.written[|old(pool.returned)|]
      ensures |script| <= lo ==> PoppedAndReturned(old(pool.View()), token, mid, pool.View())
    {
      var len;
      len, event, hi := pool.Collect(token, script, lo);
      mid := pool.View();
      var newToken := pool.Resubmit(token, script, hi);
      assert newToken == Ok(token);
      PrefixTwice(old(pool.written), mid.written, pool.written);
      hi := AddEnd(hi, 1);
    }
  }
}
