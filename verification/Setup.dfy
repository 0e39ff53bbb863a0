/** Creating queues and bringing a device into service. */
module Setup {
  import opened Wrap
  import opened QueueRuns
  import opened Queue
  import opened Layout
  import opened Mmio

  /** An address space in which `n` more queues can be placed without overflow. */
  predicate Spacious(next: nat, n: nat) {
    next + n * 0x10_0000 < 0x1_0000_0000_0000_0000
  }

  lemma TotalSizeBound(size: nat)
    requires Wrap.Accepted(size)
    ensures AvailOffset(size) <= UsedOffset(size) <= Pages(TotalSize(size)) * PAGE_SIZE < 0x10_0000
  {
    AcceptedBound(size);
    NoSparePage(size);
  }

  /** A handshake that began with the reset at position `from` of the trace has settled the features. */
  ghost predicate Agreed(t: MmioTransport, from: nat)
    reads t
  {
    t.Shaking(from) && t.bank.status == ACKNOWLEDGE + DRIVER + FEATURES_OK
  }

  /** The queue is in use. */
  ghost predicate Taken(c: seq<Config>, idx: u16) {
    idx < |c| && c[idx] != Unset
  }

  /** The device has the queue, and it can be as long as asked. */
  ghost predicate Offers(maxSizes: seq<u32>, idx: u16, size: nat) {
    Wrap.Accepted(size) && idx < |maxSizes| && size <= maxSizes[idx]
  }

  predicate Addressable(base: nat, size: nat) {
    base + AvailOffset(size) < 0x1_0000_0000_0000_0000 && base + UsedOffset(size) < 0x1_0000_0000_0000_0000
  }

  /** The addresses that `new` computes satisfy the assertions of the legacy `queue_set`. */
  lemma LegacyAssertionsHold(base: nat, size: u32)
    requires Addressable(base, size)
    ensures LegacyLayout(size, base, base + AvailOffset(size), base + UsedOffset(size))
  {
    assert DescBytes(size) + AvailBytes(size) == 16 * size + 2 * (size + 3);
  }

  /** What the device learns of a queue of `size` entries placed at `base`. */
  function Placed(version: Version, pageSize: u32, size: u32, base: nat): Config
    requires Addressable(base, size)
  {
    Mmio.Stored(version, pageSize, size, base, base + AvailOffset(size), base + UsedOffset(size))
  }

  /** The configuration that puts a queue where the driver has it. */
  function Asked(size: u32, base: nat): Config {
    Set(size, base, base + AvailOffset(size), base + UsedOffset(size))
  }

  /** The device is told where the queue is, unless it is a legacy device that cannot find it there. */
  lemma PlacedAsAsked(version: Version, size: u32, base: nat)
    requires Addressable(base, size) && base % PAGE_SIZE == 0
    ensures Placed(version, PAGE_SIZE, size, base) == Asked(size, base) <==> version.Modern? || Placeable(size, base)
  {
    if version.Legacy? {
      LegacyAssertionsHold(base, size);
      StoredAsAsked(PAGE_SIZE, size, base, base + AvailOffset(size), base + UsedOffset(size));
    }
  }

  /** The device knows the queue with index `idx` to be at `base`, if it can: see `PlacedAsAsked`. */
  ghost predicate Registered(version: Version, b: Bank, base: nat, idx: u16, size: nat) {
    && size < 0x1_0000 && Addressable(base, size)
    && idx < |b.queues| && Configs(version, b)[idx] == Placed(version, b.pageSize, size, base)
    && (version.Modern? || (b.pageSize == PAGE_SIZE && 0 < base < 0x1000_0000_0000) ==>
          Configs(version, b)[idx] == Asked(size, base))
  }

  /** Creates a queue: refuses one that is in use or longer than the device allows, and otherwise places it,
      tells the device where it is, and starts with every descriptor free. */
  method NewQueue(t: MmioTransport, alloc: BumpAllocator, idx: u16, size: nat, ghost from: nat)
    returns (r: Result<VirtIoQueue>)
    requires t.Valid() && alloc.Valid() && Spacious(alloc.next, 1)
    modifies t, alloc
    ensures t.Valid() && alloc.Valid() && Registers(old(t.bank), t.bank)
    ensures old(t.seen) <= t.seen && (old(Agreed(t, from)) ==> Agreed(t, from))
    ensures r == Err(AlreadyUsed) <==> Taken(old(t.View()), idx)
    ensures r == Err(InvalidParam) <==> !Taken(old(t.View()), idx) && !Offers(t.bank.maxSizes, idx, size)
    ensures r.Err? ==> (r.error.AlreadyUsed? || r.error.InvalidParam?)
    ensures r.Err? ==> t.View() == old(t.View()) && alloc.next == old(alloc.next) && alloc.grants == old(alloc.grants)
    ensures r.Ok? ==>
      && alloc.grants == old(alloc.grants) + [Grant(old(alloc.next), ForQueue(size))]
      && alloc.next < old(alloc.next) + 0x10_0000
      && Addressable(old(alloc.next), size) && size < 0x1_0000
      && r.value.index == idx && r.value.base == old(alloc.next)
      && t.View() == Update(old(t.View()), idx, Placed(t.version, t.bank.pageSize, size, r.value.base))
      && Registered(t.version, t.bank, r.value.base, idx, size)
      && fresh({r.value as object, r.value.desc, r.value.availRing, r.value.usedRing}) && r.value.View() == Fresh(size)
  {
    var checked := CheckQueue(t, idx, size, from);
    if checked.Err? {
      return Err(checked.error);
    }
    var base := PlaceQueue(t, alloc, idx, size, from);
    var queue := new VirtIoQueue(size, idx, base);
    r := Ok(queue);
  }

  /** The conditions under which a queue is refused. */
  method CheckQueue(t: MmioTransport, idx: u16, size: nat, ghost from: nat) returns (r: Result<()>)
    requires t.Valid()
    modifies t
    ensures t.Valid() && Registers(old(t.bank), t.bank) && old(t.seen) <= t.seen
    ensures (old(Agreed(t, from)) ==> Agreed(t, from)) && t.View() == old(t.View())
    ensures r == if Taken(old(t.View()), idx) then Err(AlreadyUsed)
                 else if !Offers(t.bank.maxSizes, idx, size) then Err(InvalidParam) else Ok(())
  {
    ghost var before, agreed := t.seen, Agreed(t, from);
    var used := t.QueueUsed(idx);
    r := Ok(());
    if used {
      r := Err(AlreadyUsed);
    } else if !IsPowerOfTwo(size) || size > 0xFFFF {
      r := Err(InvalidParam);
    } else {
      var max := t.MaxQueueSize(idx);
      if max < size {
        r := Err(InvalidParam);
      }
    }
    if agreed {
      HandshakeAgreed(t.version, before, t.seen, from);
    }
  }

  /** Finds room for a queue and tells the device where it is. */
  method PlaceQueue(t: MmioTransport, alloc: BumpAllocator, idx: u16, size: nat, ghost from: nat) returns (base: u64)
    requires t.Valid() && alloc.Valid() && Spacious(alloc.next, 1) && Wrap.Accepted(size)
    modifies t, alloc
    ensures t.Valid() && alloc.Valid() && Registers(old(t.bank), t.bank)
    ensures old(t.seen) <= t.seen && (old(Agreed(t, from)) ==> Agreed(t, from))
    ensures base == old(alloc.next) && alloc.grants == old(alloc.grants) + [Grant(base, ForQueue(size))]
    ensures alloc.next < old(alloc.next) + 0x10_0000
    ensures Addressable(base, size) && size < 0x1_0000
    ensures t.View() == Update(old(t.View()), idx, Placed(t.version, t.bank.pageSize, size, base))
    ensures idx < |t.View()| ==> Registered(t.version, t.bank, base, idx, size)
    ensures !Taken(old(t.View()), idx) && idx < |t.View()| ==>
      Atomic(t.version, t.seen, |old(t.seen)|, old(t.View()), t.View())
  {
    ghost var before, agreed := t.seen, Agreed(t, from);
    TotalSizeBound(size);
    LegacyAssertionsHold(alloc.next, size);
    NeverWholePages(size);
    PlacedAsAsked(t.version, size, alloc.next);
    base := alloc.DmaAlloc(Pages(TotalSize(size)), ForQueue(size));
    t.QueueSet(idx, size, base, base + AvailOffset(size), base + UsedOffset(size));
    if agreed {
      HandshakeAgreed(t.version, before, t.seen, from);
    }
  }

  // ---------------------------------------------------------------- bringing a device into service

  /** What every initialisation does, whether it succeeds or stops half way.  In the end the status bits 0, 1 and 3
      are set (acknowledged, driver, features agreed), and bit 2 (driver ready) exactly if it succeeded. */
  ghost predicate Initialized(t: MmioTransport, before: seq<Bank>, supported: u64, ok: bool)
    reads t
  {
    && before < t.seen && t.seen[|before|].status == 0 && Handshake(t.version, t.seen, |before|)
    && (forall i: nat :: Bits.Bit(t.bank.Accepted(), i) <==> Bits.Bit(t.bank.offered, i) && Bits.Bit(supported, i))
    && t.bank.status == (if ok then 15 else 11) && t.seen[|t.seen| - 1] == t.bank
    && (t.version.Legacy? ==> t.bank.pageSize == PAGE_SIZE)
  }

  /** Initialisation that began after the trace `before` is under way. */
  ghost predicate Begun(t: MmioTransport, before: seq<Bank>, supported: u64)
    reads t
  {
    Initialized(t, before, supported, false)
  }

  /** `finish_init`. */
  method FinishInit(t: MmioTransport, ghost before: seq<Bank>, ghost supported: u64)
    requires t.Valid() && Begun(t, before, supported)
    modifies t
    ensures t.Valid() && Initialized(t, before, supported, true)
    ensures t.bank == old(t.bank).(status := t.bank.status)
  {
    assert Bits.And(11, 15) == 11;
    StatusBits();
    t.SetStatus(ACKNOWLEDGE + DRIVER + FEATURES_OK + DRIVER_OK, |before|);
  }

  /** `new` of the block driver: one queue of 16.  It never finds its queue in use. */
  method NewBlk(t: MmioTransport, alloc: BumpAllocator, supported: u64) returns (r: Result<VirtIoQueue>)
    requires t.Valid() && alloc.Valid() && Spacious(alloc.next, 1)
    modifies t, alloc
    ensures t.Valid() && alloc.Valid() && Initialized(t, old(t.seen), supported, r.Ok?)
    ensures r.Ok? <==> Offers(t.bank.maxSizes, 0, 16)
    ensures r.Err? ==> r.error == InvalidParam
    ensures r.Ok? ==>
      && r.value.View() == Fresh(16) && r.value.index == 0
      && alloc.grants == old(alloc.grants) + [Grant(r.value.base, ForQueue(16))]
      && Registered(t.version, t.bank, r.value.base, 0, 16)
  {
    ghost var from := |t.seen|;
    var negotiated := t.BeginInit(supported);
    r := NewQueue(t, alloc, 0, 16, from);
    if r.Ok? {
      FinishInit(t, old(t.seen), supported);
    }
  }

  /** `new` of the GPU driver, and of the raw network driver: two queues of one size. */
  method NewPair(t: MmioTransport, alloc: BumpAllocator, supported: u64, size: nat)
    returns (r: Result<(VirtIoQueue, VirtIoQueue)>)
    requires t.Valid() && alloc.Valid() && Spacious(alloc.next, 2)
    modifies t, alloc
    ensures t.Valid() && alloc.Valid() && Initialized(t, old(t.seen), supported, r.Ok?)
    ensures r.Ok? <==> OffersPair(t.bank.maxSizes, size)
    ensures r.Err? ==> r.error == InvalidParam
    ensures t.bank.notified == old(t.bank).notified
    ensures r.Ok? ==> FreshPair(r.value.0, r.value.1, size) && fresh(Memory(r.value.0, r.value.1))
    ensures r.Ok? ==> PairRegistered(t.version, t.bank, old(alloc.grants), alloc.grants, r.value.0, r.value.1, size)
  {
    r := BeginPair(t, alloc, supported, size);
    if r.Ok? {
      FinishInit(t, old(t.seen), supported);
    }
  }

  /** Agrees on the features and creates queues 0 and 1. */
  method BeginPair(t: MmioTransport, alloc: BumpAllocator, supported: u64, size: nat)
    returns (r: Result<(VirtIoQueue, VirtIoQueue)>)
    requires t.Valid() && alloc.Valid() && Spacious(alloc.next, 2)
    modifies t, alloc
    ensures t.Valid() && alloc.Valid() && Begun(t, old(t.seen), supported)
    ensures r.Ok? <==> OffersPair(t.bank.maxSizes, size)
    ensures r.Err? ==> r.error == InvalidParam
    ensures t.bank.notified == old(t.bank).notified
    ensures r.Ok? ==> FreshPair(r.value.0, r.value.1, size) && fresh(Memory(r.value.0, r.value.1))
    ensures r.Ok? ==> PairRegistered(t.version, t.bank, old(alloc.grants), alloc.grants, r.value.0, r.value.1, size)
  {
    ghost var from := |t.seen|;
    var negotiated := t.BeginInit(supported);
    r := OpenPair(t, alloc, size, from);
  }

  ghost predicate OffersPair(maxSizes: seq<u32>, size: nat) {
    Offers(maxSizes, 0, size) && Offers(maxSizes, 1, size)
  }

  /** Two new queues, with indices 0 and 1. */
  ghost predicate FreshPair(p: VirtIoQueue, q: VirtIoQueue, size: nat)
    reads p, p.desc, p.availRing, p.usedRing, q, q.desc, q.availRing, q.usedRing
  {
    p.View() == Fresh(size) && q.View() == Fresh(size) && p.index == 0 && q.index == 1
  }

  ghost function Memory(p: VirtIoQueue, q: VirtIoQueue): set<object> {
    {p, p.desc, p.availRing, p.usedRing, q, q.desc, q.availRing, q.usedRing}
  }

  /** Both queues are known to the device under their indices, at the memory that each was granted. */
  ghost predicate PairRegistered(version: Version, b: Bank, before: seq<Grant>, grants: seq<Grant>,
                                 p: VirtIoQueue, q: VirtIoQueue, size: nat)
  {
    && grants == before + [Grant(p.base, ForQueue(size)), Grant(q.base, ForQueue(size))]
    && Registered(version, b, p.base, p.index, size)
    && Registered(version, b, q.base, q.index, size)
  }

  /** Queues 0 and 1, after the features are agreed on. */
  method OpenPair(t: MmioTransport, alloc: BumpAllocator, size: nat, ghost from: nat)
    returns (r: Result<(VirtIoQueue, VirtIoQueue)>)
    requires t.Valid() && alloc.Valid() && Spacious(alloc.next, 2) && Agreed(t, from)
    requires !Taken(t.View(), 0) && !Taken(t.View(), 1)
    modifies t, alloc
    ensures t.Valid() && alloc.Valid() && Registers(old(t.bank), t.bank) && old(t.seen) <= t.seen && Agreed(t, from)
    ensures r.Ok? <==> OffersPair(t.bank.maxSizes, size)
    ensures r.Err? ==> r.error == InvalidParam
    ensures t.bank.notified == old(t.bank).notified
    ensures r.Ok? ==> FreshPair(r.value.0, r.value.1, size) && fresh(Memory(r.value.0, r.value.1))
    ensures r.Ok? ==> PairRegistered(t.version, t.bank, old(alloc.grants), alloc.grants, r.value.0, r.value.1, size)
  {
    var first := NewQueue(t, alloc, 0, size, from);
    if first.Err? {
      return Err(first.error);
    }
    var second := NewQueue(t, alloc, 1, size, from);
    if second.Err? {
      return Err(second.error);
    }
    r := Ok((first.value, second.value));
  }
}
