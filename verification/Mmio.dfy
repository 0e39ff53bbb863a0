/** The memory-mapped transport: a bank of registers in which one selector chooses the queue that the queue
    registers refer to, and the calls that the drivers make of it. */
module Mmio {
  import opened Wrap
  import opened Bits
  import opened Layout
  import opened Records

  datatype Version = Legacy | Modern

  /** The registers of one queue.  `ready` is what the driver wrote last; the device stops using the queue
      some time after it reads zero there, and `live` tells whether it still uses it. */
  datatype QueueRegs = QueueRegs(
    num: u32, align: u32, pfn: u32, ready: u32, live: bool,
    descLow: u32, descHigh: u32, driverLow: u32, driverHigh: u32, deviceLow: u32, deviceHigh: u32)

  const IDLE := QueueRegs(0, 0, 0, 0, false, 0, 0, 0, 0, 0, 0)

  /** `notified` is every value that was written to the notification register. */
  datatype Bank = Bank(
    maxSizes: seq<u32>, queues: seq<QueueRegs>, sel: u32, status: u32, pageSize: u32,
    offered: u64, offeredSel: u32, acceptedLow: u32, acceptedHigh: u32, acceptedSel: u32, notified: seq<u32>)
  {
    predicate Ok() {
      |maxSizes| == |queues|
    }

    function Accepted(): u64 {
      Join(acceptedLow, acceptedHigh)
    }
  }

  function Low32(a: u64): u32 { a % 0x1_0000_0000 }

  function High32(a: u64): u32 { a / 0x1_0000_0000 }

  function Join(low: u32, high: u32): u64 { low + high * 0x1_0000_0000 }

  // ---------------------------------------------------------------- the device's side of the registers

  /** A write to one of the registers of the selected queue. */
  function QueueWrite(r: QueueRegs, offset: nat, v: u32): QueueRegs {
    match offset
    case 0x38 => r.(num := v)
    case 0x3C => r.(align := v)
    case 0x40 => r.(pfn := v)
    case 0x44 => r.(ready := v, live := r.live || v != 0)
    case 0x80 => r.(descLow := v)
    case 0x84 => r.(descHigh := v)
    case 0x90 => r.(driverLow := v)
    case 0x94 => r.(driverHigh := v)
    case 0xA0 => r.(deviceLow := v)
    case 0xA4 => r.(deviceHigh := v)
    case _ => r
  }

  /** A write to any register; writing zero to the status register resets the device. */
  function WriteAt(b: Bank, offset: nat, v: u32): Bank {
    match offset
    case 0x14 => b.(offeredSel := v)
    case 0x20 =>
      if b.acceptedSel == 0 then b.(acceptedLow := v) else if b.acceptedSel == 1 then b.(acceptedHigh := v) else b
    case 0x24 => b.(acceptedSel := v)
    case 0x28 => b.(pageSize := v)
    case 0x30 => b.(sel := v)
    case 0x50 => b.(notified := b.notified + [v])
    case 0x70 =>
      if v == 0 then b.(status := 0, queues := seq(|b.queues|, _ => IDLE), acceptedLow := 0, acceptedHigh := 0)
      else b.(status := v)
    case _ => if b.sel < |b.queues| then b.(queues := b.queues[b.sel := QueueWrite(b.queues[b.sel], offset, v)]) else b
  }

  function ReadAt(b: Bank, offset: nat): u32
    requires b.Ok()
  {
    match offset
    case 0x10 => if b.offeredSel == 0 then Low32(b.offered) else if b.offeredSel == 1 then High32(b.offered) else 0
    case 0x34 => if b.sel < |b.queues| then b.maxSizes[b.sel] else 0
    case 0x40 => if b.sel < |b.queues| then b.queues[b.sel].pfn else 0
    case 0x44 => if b.sel < |b.queues| && b.queues[b.sel].live then 1 else 0
    case 0x70 => b.status
    case _ => 0
  }

  /** The device stops using the selected queue if the driver has asked for that. */
  function Quiesce(b: Bank): Bank {
    if b.sel < |b.queues| && b.queues[b.sel].ready == 0 then
      b.(queues := b.queues[b.sel := b.queues[b.sel].(live := false)])
    else b
  }

  // ---------------------------------------------------------------- one configuration per queue

  /** What the device takes a queue to be. */
  datatype Config = Unset | Set(size: u32, descriptors: nat, driver: nat, device: nat)

  /** What a legacy device takes a queue to be: its pages are as long as the driver said, and the used ring starts
      at the next multiple of the alignment behind the available ring (section 2.6.2 of VIRTIO 1.1). */
  function FromPage(pageSize: u32, align: u32, size: u32, pfn: u32): Config {
    if pfn == 0 then Unset
    else
      var base := pfn * pageSize;
      Set(size, base, base + 16 * size, base + RoundTo(16 * size + 2 * (size + 3), align))
  }

  function ConfigOf(version: Version, pageSize: u32, r: QueueRegs): Config {
    if version.Legacy? then FromPage(pageSize, r.align, r.num, r.pfn)
    else if !r.live then Unset
    else Set(r.num, Join(r.descLow, r.descHigh), Join(r.driverLow, r.driverHigh), Join(r.deviceLow, r.deviceHigh))
  }

  function Configs(version: Version, b: Bank): (c: seq<Config>)
    ensures |c| == |b.queues|
  {
    seq(|b.queues|, q requires 0 <= q < |b.queues| => ConfigOf(version, b.pageSize, b.queues[q]))
  }

  /** The configuration that `queue_set` stores: a legacy device keeps 32 bits of the page number. */
  function Stored(version: Version, pageSize: u32, size: u32, descriptors: u64, driver: u64, device: u64): Config {
    if version.Modern? then Set(size, descriptors, driver, device)
    else FromPage(pageSize, PAGE_SIZE, size, Low32(descriptors / PAGE_SIZE))
  }

  function Update(c: seq<Config>, q: u16, x: Config): (d: seq<Config>)
    ensures |d| == |c|
  {
    if q < |c| then c[q := x] else c
  }

  /** The layout that a legacy device imposes, and that `queue_set` asserts. */
  predicate LegacyLayout(size: u32, descriptors: u64, driver: u64, device: u64) {
    driver - descriptors == 16 * size && device - descriptors == AlignUp(16 * size + 2 * (size + 3))
  }

  /** A queue that a legacy device can find where the driver has it: in the low 16 TiB, at a page other than the
      first, and not of a size that `align_up` rounds too far. */
  predicate Placeable(size: nat, descriptors: nat) {
    0 < descriptors < 0x1000_0000_0000 && (16 * size + 2 * (size + 3)) % PAGE_SIZE != 0
  }

  /** A legacy device that was told the page size registers exactly the queues that are placeable as asked; with
      another page size it registers none of them so.  A page number whose low 32 bits are zero leaves the queue
      unregistered. */
  lemma StoredAsAsked(pageSize: u32, size: u32, descriptors: u64, driver: u64, device: u64)
    requires LegacyLayout(size, descriptors, driver, device) && descriptors % PAGE_SIZE == 0
    ensures var stored, asked := Stored(Legacy, pageSize, size, descriptors, driver, device),
                                 Set(size, descriptors, driver, device);
      && (pageSize == PAGE_SIZE ==> (stored == asked <==> Placeable(size, descriptors)))
      && (Placeable(size, descriptors) ==> (stored == asked <==> pageSize == PAGE_SIZE))
      && (stored == Unset <==> descriptors % 0x1000_0000_0000 == 0)
  {
    StoredNowhere(pageSize, size, descriptors, driver, device);
    if pageSize == PAGE_SIZE {
      StoredOnPages(size, descriptors, driver, device);
    } else if Placeable(size, descriptors) {
      StoredNeedsPages(pageSize, size, descriptors, driver, device);
    }
  }

  lemma StoredNowhere(pageSize: u32, size: u32, descriptors: u64, driver: u64, device: u64)
    requires descriptors % PAGE_SIZE == 0
    ensures Stored(Legacy, pageSize, size, descriptors, driver, device) == Unset <==>
      descriptors % 0x1000_0000_0000 == 0
  {
    PageIsZero(descriptors / PAGE_SIZE);
  }

  lemma PageIsZero(page: u64)
    ensures Low32(page) == 0 <==> PAGE_SIZE * page % 0x1000_0000_0000 == 0
  {
  }

  lemma StoredOnPages(size: u32, descriptors: u64, driver: u64, device: u64)
    requires LegacyLayout(size, descriptors, driver, device) && descriptors % PAGE_SIZE == 0
    ensures Stored(Legacy, PAGE_SIZE, size, descriptors, driver, device) == Set(size, descriptors, driver, device) <==>
      Placeable(size, descriptors)
  {
    RoundsAlike(16 * size + 2 * (size + 3));
    PageOf(descriptors / PAGE_SIZE, PAGE_SIZE);
  }

  lemma StoredNeedsPages(pageSize: u32, size: u32, descriptors: u64, driver: u64, device: u64)
    requires LegacyLayout(size, descriptors, driver, device) && descriptors % PAGE_SIZE == 0
    requires pageSize != PAGE_SIZE && Placeable(size, descriptors)
    ensures Stored(Legacy, pageSize, size, descriptors, driver, device) != Set(size, descriptors, driver, device)
  {
    PageOf(descriptors / PAGE_SIZE, pageSize);
  }

  /** For 1365 entries descriptors and available ring take six whole pages; `queue_set` insists on a used ring one page
      further than the device has it. */
  lemma RoundsTooFar()
    ensures LegacyLayout(1365, 4096, 25936, 32768)
    ensures Stored(Legacy, PAGE_SIZE, 1365, 4096, 25936, 32768) != Set(1365, 4096, 25936, 32768)
  {
    assert AlignUp(24576) == 28672;
    StoredOnPages(1365, 4096, 25936, 32768);
  }

  lemma RoundsAlike(n: nat)
    ensures RoundTo(n, PAGE_SIZE) == AlignUp(n) <==> n % PAGE_SIZE != 0
  {
    AlignUpIsRoundUp(n);
  }

  /** What becomes of a page number. */
  lemma PageOf(page: nat, pageSize: nat)
    requires page < 0x10_0000_0000_0000
    ensures Low32(page) * PAGE_SIZE == PAGE_SIZE * page <==> page < 0x1_0000_0000
    ensures 0 < page < 0x1_0000_0000 ==> (Low32(page) * pageSize == PAGE_SIZE * page <==> pageSize == PAGE_SIZE)
  {
    if 0 < page < 0x1_0000_0000 && pageSize != PAGE_SIZE {
      OtherMultiple(page, pageSize, PAGE_SIZE);
    }
  }

  lemma OtherMultiple(k: nat, a: nat, b: nat)
    requires 0 < k && a != b
    ensures k * a != k * b
  {
  }

  // ---------------------------------------------------------------- runs of calls

  datatype Call =
    | SetCall(queue: u16, size: u32, descriptors: u64, driver: u64, device: u64)
    | UnsetCall(queue: u16, lag: nat)
    | UsedCall(queue: u16)
    | MaxCall(queue: u16)

  datatype Answer = Done | InUse(used: bool) | Max(n: u32)

  predicate Callable(version: Version, call: Call) {
    version.Legacy? && call.SetCall? ==> LegacyLayout(call.size, call.descriptors, call.driver, call.device)
  }

  /** A call acts on the configuration of its queue alone, whatever is selected. */
  function Spec(version: Version, pageSize: u32, c: seq<Config>, call: Call): (d: seq<Config>)
    ensures |d| == |c|
  {
    match call
    case SetCall(q, size, descriptors, driver, device) =>
      Update(c, q, Stored(version, pageSize, size, descriptors, driver, device))
    case UnsetCall(q, _) => Update(c, q, Unset)
    case _ => c
  }

  function SpecAnswer(c: seq<Config>, maxSizes: seq<u32>, call: Call): Answer
    requires |maxSizes| == |c|
  {
    match call
    case UsedCall(q) => InUse(q < |c| && c[q] != Unset)
    case MaxCall(q) => Max(if q < |c| then maxSizes[q] else 0)
    case _ => Done
  }

  function SpecRun(version: Version, pageSize: u32, c: seq<Config>, calls: seq<Call>): (d: seq<Config>)
    ensures |d| == |c|
  {
    if calls == [] then c
    else Spec(version, pageSize, SpecRun(version, pageSize, c, calls[..|calls| - 1]), calls[|calls| - 1])
  }

  /** Call number `k` of a run is answered as it should. */
  ghost predicate Answers(version: Version, pageSize: u32, c: seq<Config>, maxSizes: seq<u32>, calls: seq<Call>, k: nat,
                          answer: Answer)
  {
    && k < |calls| && |maxSizes| == |c|
    && answer == SpecAnswer(SpecRun(version, pageSize, c, calls[..k]), maxSizes, calls[k])
  }

  lemma SpecRunNext(version: Version, pageSize: u32, c: seq<Config>, calls: seq<Call>, i: nat)
    requires i < |calls|
    ensures SpecRun(version, pageSize, c, calls[..i + 1]) ==
      Spec(version, pageSize, SpecRun(version, pageSize, c, calls[..i]), calls[i])
  {
    assert calls[..i + 1][..i] == calls[..i];
  }

  predicate Touches(call: Call, q: nat) {
    (call.SetCall? || call.UnsetCall?) && call.queue == q
  }

  /** No call after number `k` sets or unsets queue `q`. */
  predicate Latest(calls: seq<Call>, k: int, q: nat) {
    && -1 <= k < |calls|
    && (k >= 0 ==> Touches(calls[k], q))
    && forall j :: k < j < |calls| ==> !Touches(calls[j], q)
  }

  /** A queue is in use exactly if the latest call that set or unset it was a set (and, on a legacy device,
      its page number survives the cut to 32 bits). */
  lemma {:induction false} UsedIffLatestSet(version: Version, pageSize: u32, c: seq<Config>, calls: seq<Call>, k: int,
                                            q: nat)
    requires q < |c| && Latest(calls, k, q)
    ensures k < 0 ==> SpecRun(version, pageSize, c, calls)[q] == c[q]
    ensures k >= 0 ==> (SpecRun(version, pageSize, c, calls)[q] != Unset <==>
      calls[k].SetCall? && (version.Legacy? ==> calls[k].descriptors / PAGE_SIZE % 0x1_0000_0000 != 0))
    decreases |calls|
  {
    if calls != [] && k < |calls| - 1 {
      var rest := calls[..|calls| - 1];
      UsedIffLatestSet(version, pageSize, c, rest, k, q);
    }
  }

  /** At every register write the device saw the configurations `before` or `after`. */
  ghost predicate Atomic(version: Version, seen: seq<Bank>, from: nat, before: seq<Config>, after: seq<Config>) {
    forall i :: from <= i < |seen| ==> Configs(version, seen[i]) == before || Configs(version, seen[i]) == after
  }

  /** Nothing but queue registers changed. */
  ghost predicate Same(b: Bank, d: Bank) {
    d == b.(queues := d.queues) && |d.queues| == |b.queues|
  }

  /** Nothing but the selector and queue registers changed. */
  ghost predicate Registers(b: Bank, d: Bank) {
    d == b.(queues := d.queues, sel := d.sel) && |d.queues| == |b.queues|
  }

  /** The configuration of the selected queue did not change. */
  ghost predicate Unnoticed(version: Version, b: Bank, d: Bank)
    requires |b.queues| == |d.queues|
  {
    d.sel < |d.queues| ==>
      ConfigOf(version, d.pageSize, d.queues[d.sel]) == ConfigOf(version, b.pageSize, b.queues[d.sel])
  }

  /** The configuration of one queue changed. */
  lemma ConfigsUpdated(version: Version, b: Bank, d: Bank, q: u16, x: Config)
    requires d.pageSize == b.pageSize && |b.queues| == |d.queues|
    requires forall i :: 0 <= i < |d.queues| && i != q ==> d.queues[i] == b.queues[i]
    requires q < |d.queues| ==> ConfigOf(version, d.pageSize, d.queues[q]) == x
    ensures Configs(version, d) == Update(Configs(version, b), q, x)
  {
  }

  lemma Halves(a: u64)
    ensures Join(Low32(a), High32(a)) == a
  {
  }

  lemma FilledConfig(pageSize: u32, r: QueueRegs, size: u32, descriptors: u64, driver: u64, device: u64)
    ensures ConfigOf(Modern, pageSize, QueueWrite(Filled(r, size, descriptors, driver, device), 0x44, 1)) ==
      Set(size, descriptors, driver, device)
  {
    Halves(descriptors);
    Halves(driver);
    Halves(device);
  }

  /** The status register did not change since position `from` of the trace. */
  ghost predicate StatusKept(seen: seq<Bank>, from: nat, status: u32) {
    forall i :: from <= i < |seen| ==> seen[i].status == status
  }

  ghost predicate FeaturesKept(seen: seq<Bank>, from: nat, b: Bank) {
    forall i :: from <= i < |seen| ==> seen[i].acceptedLow == b.acceptedLow && seen[i].acceptedHigh == b.acceptedHigh
  }

  /** The trace grew, up to the bank `b`, and the status register kept its value. */
  ghost predicate Traced(before: seq<Bank>, seen: seq<Bank>, b: Bank) {
    && before < seen && seen[|seen| - 1] == b
    && StatusKept(seen, |before|, b.status) && FeaturesKept(seen, |before|, b)
  }

  /** The queue registers and the page size did not change either. */
  ghost predicate QueuesKept(seen: seq<Bank>, from: nat, b: Bank) {
    forall i :: from <= i < |seen| ==> seen[i].queues == b.queues && seen[i].pageSize == b.pageSize
  }

  const QUEUE_REGISTERS: set<nat> := {0x38, 0x3C, 0x40, 0x44, 0x80, 0x84, 0x90, 0x94, 0xA0, 0xA4}

  /** Both halves of an address written. */
  function Address(r: QueueRegs, offset: nat, v: u64): QueueRegs {
    QueueWrite(QueueWrite(r, offset, Low32(v)), offset + 4, High32(v))
  }

  /** The size and the three addresses written. */
  function Filled(r: QueueRegs, size: u32, descriptors: u64, driver: u64, device: u64): QueueRegs {
    Address(Address(Address(r.(num := size), 0x80, descriptors), 0x90, driver), 0xA0, device)
  }

  /** The registers of a queue that was taken out of use. */
  function Cleared(version: Version, r: QueueRegs): QueueRegs {
    if version.Legacy? then r.(num := 0, align := 0, pfn := 0)
    else IDLE.(align := r.align, pfn := r.pfn)
  }

  /** What a legacy device sees of a queue while it is taken out of use. */
  ghost predicate HalfUnset(seen: seq<Bank>, from: nat, b: Bank, c: seq<Config>, queue: u16)
    requires queue < |b.queues|
  {
    var r := b.queues[queue];
    && from + 2 < |seen|
    && Configs(Legacy, seen[from + 1]) == Update(c, queue, FromPage(b.pageSize, r.align, 0, r.pfn))
    && Configs(Legacy, seen[from + 2]) == Update(c, queue, FromPage(b.pageSize, 0, 0, r.pfn))
  }

  lemma HalfWay(b: Bank, first: Bank, second: Bank, queue: u16)
    requires queue < |b.queues| == |first.queues| == |second.queues| && b.pageSize == first.pageSize == second.pageSize
    requires forall q :: 0 <= q < |b.queues| && q != queue ==> first.queues[q] == b.queues[q]
    requires forall q :: 0 <= q < |b.queues| && q != queue ==> second.queues[q] == b.queues[q]
    requires first.queues[queue] == b.queues[queue].(num := 0)
    requires second.queues[queue] == b.queues[queue].(num := 0, align := 0)
    ensures var r, c := b.queues[queue], Configs(Legacy, b);
      && Configs(Legacy, first) == Update(c, queue, FromPage(b.pageSize, r.align, 0, r.pfn))
      && Configs(Legacy, second) == Update(c, queue, FromPage(b.pageSize, 0, 0, r.pfn))
  {
    var r := b.queues[queue];
    ConfigsUpdated(Legacy, b, first, queue, FromPage(b.pageSize, r.align, 0, r.pfn));
    ConfigsUpdated(Legacy, b, second, queue, FromPage(b.pageSize, 0, 0, r.pfn));
  }

  const ACKNOWLEDGE: u32 := 1
  const DRIVER: u32 := 2
  const DRIVER_OK: u32 := 4
  const FEATURES_OK: u32 := 8

  /** From position `from` of the trace on: bits of the status register are only ever set, and in order; features
      are written only before they are acknowledged; and a queue is put to use only after that, while the driver has
      not yet said that it is ready. */
  ghost predicate Handshake(version: Version, seen: seq<Bank>, from: nat) {
    forall i :: from < i < |seen| ==> HandshakeStep(version, seen[i - 1], seen[i])
  }

  ghost predicate HandshakeStep(version: Version, b: Bank, d: Bank) {
    && Gains(b.status, d.status)
    && (Configs(version, b) != Configs(version, d) ==> Accepting(d.status))
    && (b.Accepted() != d.Accepted() ==> b.status == d.status && Negotiating(b.status))
    && InOrder(b.status, d.status)
  }

  /** The driver has said that it is there (bits 0 and 1), and has not yet acknowledged the features (bit 3). */
  predicate Negotiating(status: nat) {
    Bit(status, 0) && Bit(status, 1) && !Bit(status, 3)
  }

  /** The features are acknowledged only after they could be negotiated, and the driver is ready (bit 2) only after
      they are: the order of section 3.1.1 of VIRTIO 1.1. */
  predicate InOrder(before: nat, after: nat) {
    && (Bit(after, 3) && !Bit(before, 3) ==> Negotiating(before))
    && (Bit(after, 2) && !Bit(before, 2) ==> Bit(before, 3))
  }

  /** The driver has acknowledged the features (bit 3) and has not yet said that it is ready (bit 2): see section
      2.1 of VIRTIO 1.1. */
  predicate Accepting(status: nat) {
    Bit(status, 3) && !Bit(status, 2)
  }

  lemma SameStep(version: Version, b: Bank, d: Bank)
    requires b.status == d.status && b.queues == d.queues && b.pageSize == d.pageSize
    requires Negotiating(b.status) || b.Accepted() == d.Accepted()
    ensures HandshakeStep(version, b, d)
  {
  }

  /** Without queues the page size means nothing. */
  lemma PageSizeStep(b: Bank, d: Bank)
    requires d == b.(pageSize := d.pageSize) && forall q :: 0 <= q < |b.queues| ==> b.queues[q] == IDLE
    ensures HandshakeStep(Legacy, b, d) && Configs(Legacy, b) == Configs(Legacy, d)
  {
  }

  lemma HandshakeContinues(version: Version, seen: seq<Bank>, more: seq<Bank>, from: nat)
    requires Handshake(version, seen, from) && from < |seen| && seen <= more
    requires StatusKept(more, |seen| - 1, seen[|seen| - 1].status)
    requires QueuesKept(more, |seen| - 1, seen[|seen| - 1])
    requires Negotiating(seen[|seen| - 1].status) || FeaturesKept(more, |seen| - 1, seen[|seen| - 1])
    ensures Handshake(version, more, from)
  {
    forall i | from < i < |more|
      ensures HandshakeStep(version, more[i - 1], more[i])
    {
      if i >= |seen| {
        SameStep(version, more[i - 1], more[i]);
      }
    }
  }

  lemma AgreedAccepts()
    ensures Accepting(ACKNOWLEDGE + DRIVER + FEATURES_OK)
  {
    StatusBits();
  }

  /** The bits of the four values that the status register takes during a handshake. */
  lemma StatusBits()
    ensures !Bit(0, 0) && !Bit(0, 1) && !Bit(0, 2) && !Bit(0, 3)
    ensures Bit(3, 0) && Bit(3, 1) && !Bit(3, 2) && !Bit(3, 3)
    ensures Bit(11, 0) && Bit(11, 1) && !Bit(11, 2) && Bit(11, 3)
    ensures Bit(15, 0) && Bit(15, 1) && Bit(15, 2) && Bit(15, 3)
  {
    assert Bit(3, 1) == Bit(1, 0) && Bit(3, 2) == Bit(1, 1) == Bit(0, 0) && Bit(3, 3) == Bit(1, 2) == Bit(0, 1);
    assert Bit(11, 1) == Bit(5, 0) && Bit(11, 2) == Bit(5, 1) == Bit(2, 0) && Bit(11, 3) == Bit(5, 2) == Bit(2, 1);
    assert Bit(2, 1) == Bit(1, 0);
    assert Bit(15, 1) == Bit(7, 0) && Bit(15, 2) == Bit(7, 1) == Bit(3, 0) && Bit(15, 3) == Bit(7, 2) == Bit(3, 1);
  }

  lemma HandshakeAgreed(version: Version, seen: seq<Bank>, more: seq<Bank>, from: nat)
    requires Handshake(version, seen, from) && from < |seen| && seen <= more
    requires StatusKept(more, |seen| - 1, ACKNOWLEDGE + DRIVER + FEATURES_OK)
    requires FeaturesKept(more, |seen| - 1, seen[|seen| - 1])
    ensures Handshake(version, more, from)
  {
    AgreedAccepts();
  }

  /** Features that were acknowledged never change. */
  lemma {:induction false} FeaturesFrozen(version: Version, seen: seq<Bank>, from: nat, i: nat, j: nat)
    requires Handshake(version, seen, from) && from <= i <= j < |seen| && Bit(seen[i].status, 3)
    ensures seen[j].Accepted() == seen[i].Accepted() && Bit(seen[j].status, 3)
    decreases j
  {
    if i < j {
      FeaturesFrozen(version, seen, from, i, j - 1);
      assert HandshakeStep(version, seen[j - 1], seen[j]);
    }
  }

  /** Nothing happened but that the values `calls` were written to the notification register. */
  ghost predicate Rung(seen: seq<Bank>, b: Bank, more: seq<Bank>, d: Bank, calls: seq<u32>) {
    && |more| == |seen| + |calls| && seen <= more && d == b.(notified := b.notified + calls)
    && (calls != [] ==> more[|more| - 1] == d)
    && forall i :: |seen| <= i < |more| ==> more[i] == b.(notified := more[i].notified)
  }

  lemma RungTwice(s: seq<Bank>, b: Bank, t: seq<Bank>, c: Bank, u: seq<Bank>, d: Bank, x: seq<u32>, y: seq<u32>)
    requires Rung(s, b, t, c, x) && Rung(t, c, u, d, y)
    ensures Rung(s, b, u, d, x + y)
  {
    assert b.notified + x + y == b.notified + (x + y);
  }

  /** Notifications do not disturb a handshake. */
  lemma RungHandshake(version: Version, seen: seq<Bank>, b: Bank, more: seq<Bank>, d: Bank, calls: seq<u32>, from: nat)
    requires Rung(seen, b, more, d, calls) && from < |seen| && seen[|seen| - 1] == b && Handshake(version, seen, from)
    ensures Handshake(version, more, from) && more[|more| - 1] == d && more[from] == seen[from]
  {
    HandshakeContinues(version, seen, more, from);
  }

  /** Over a whole handshake, not only from one write to the next. */
  lemma {:induction false} StatusOnlyGains(version: Version, seen: seq<Bank>, from: nat, i: nat, j: nat)
    requires Handshake(version, seen, from) && from <= i <= j < |seen|
    ensures Gains(seen[i].status, seen[j].status)
    decreases j
  {
    if i < j {
      StatusOnlyGains(version, seen, from, i, j - 1);
      assert HandshakeStep(version, seen[j - 1], seen[j]);
    }
  }

  class MmioTransport {
    const version: Version
    var bank: Bank
    /** The bank after each register write. */
    ghost var seen: seq<Bank>

    /** Between calls a queue is in use exactly if the driver last said so. */
    ghost predicate Valid()
      reads this
    {
      bank.Ok() && forall q :: 0 <= q < |bank.queues| ==> bank.queues[q].live == (bank.queues[q].ready != 0)
    }

    ghost function View(): (c: seq<Config>)
      reads this
      ensures |c| == |bank.queues|
    {
      Configs(version, bank)
    }

    constructor (version: Version, bank: Bank)
      requires bank.Ok() && forall q :: 0 <= q < |bank.queues| ==> bank.queues[q].live == (bank.queues[q].ready != 0)
      ensures Valid() && this.version == version && this.bank == bank && seen == []
    {
      this.version, this.bank, seen := version, bank, [];
    }

    /** Since position `from` of the trace the device has seen nothing but the configurations `c`. */
    ghost predicate Held(from: nat, c: seq<Config>)
      reads this
    {
      from <= |seen| && View() == c && Atomic(version, seen, from, c, c)
    }

    method Write(offset: nat, v: u32)
      modifies this
      ensures bank == WriteAt(old(bank), offset, v) && seen == old(seen) + [bank]
    {
      bank := WriteAt(bank, offset, v);
      seen := seen + [bank];
    }

    method Select(queue: u16, ghost from: nat, ghost c: seq<Config>)
      requires Held(from, c)
      modifies this
      ensures bank == old(bank).(sel := queue) && Held(from, c) && seen == old(seen) + [bank]
    {
      Write(0x30, queue);
    }

    /** Writes a register of the selected queue; the device notices only if the configuration changes. */
    method Put(offset: nat, v: u32, ghost from: nat, ghost c: seq<Config>)
      requires offset in QUEUE_REGISTERS
      modifies this
      ensures Same(old(bank), bank) && Traced(old(seen), seen, bank)
      ensures forall q :: 0 <= q < |bank.queues| ==>
        bank.queues[q] == if q == bank.sel then QueueWrite(old(bank).queues[q], offset, v) else old(bank).queues[q]
      ensures seen == old(seen) + [bank]
      ensures old(Held(from, c)) && Unnoticed(version, old(bank), bank) ==> Held(from, c)
    {
      Write(offset, v);
    }

    /** A 64-bit register is written in two halves. */
    method Put64(offset: nat, v: u64, ghost from: nat, ghost c: seq<Config>)
      requires offset in {0x80, 0x90, 0xA0}
      modifies this
      ensures Same(old(bank), bank) && Traced(old(seen), seen, bank)
      ensures forall q :: 0 <= q < |bank.queues| ==>
        bank.queues[q] == if q == bank.sel then Address(old(bank).queues[q], offset, v) else old(bank).queues[q]
      ensures old(Held(from, c)) && (bank.sel < |bank.queues| ==> !bank.queues[bank.sel].live) && version.Modern? ==>
        Held(from, c)
    {
      Put(offset, Low32(v), from, c);
      Put(offset + 4, High32(v), from, c);
    }

    /** Writes the size and the addresses of the selected queue. */
    method Fill(size: u32, descriptors: u64, driver: u64, device: u64, ghost from: nat, ghost c: seq<Config>)
      requires version.Modern?
      modifies this
      ensures Same(old(bank), bank) && Traced(old(seen), seen, bank)
      ensures forall q :: 0 <= q < |bank.queues| ==>
        bank.queues[q] == if q == bank.sel then Filled(old(bank).queues[q], size, descriptors, driver, device)
                          else old(bank).queues[q]
      ensures old(Held(from, c)) && (bank.sel < |bank.queues| ==> !bank.queues[bank.sel].live) ==> Held(from, c)
    {
      Put(0x38, size, from, c);
      Put64(0x80, descriptors, from, c);
      Put64(0x90, driver, from, c);
      Put64(0xA0, device, from, c);
    }

    method QueueSet(queue: u16, size: u32, descriptors: u64, driver: u64, device: u64)
      requires Valid() && (version.Legacy? ==> LegacyLayout(size, descriptors, driver, device))
      modifies this
      ensures Valid() && Registers(old(bank), bank) && Traced(old(seen), seen, bank)
      ensures View() == Update(old(View()), queue, Stored(version, bank.pageSize, size, descriptors, driver, device))
      ensures queue < |old(View())| && old(View())[queue] == Unset ==>
        Atomic(version, seen, |old(seen)|, old(View()), View())
    {
      match version {
        case Legacy => SetLegacy(queue, size, Low32(descriptors / PAGE_SIZE));
        case Modern => SetModern(queue, size, descriptors, driver, device);
      }
    }

    method SetModern(queue: u16, size: u32, descriptors: u64, driver: u64, device: u64)
      requires Valid() && version.Modern?
      modifies this
      ensures Valid() && Registers(old(bank), bank) && Traced(old(seen), seen, bank)
      ensures View() == Update(old(View()), queue, Set(size, descriptors, driver, device))
      ensures queue < |old(View())| && old(View())[queue] == Unset ==>
        Atomic(version, seen, |old(seen)|, old(View()), View())
    {
      ghost var from, c := |seen|, View();
      Select(queue, from, c);
      Fill(size, descriptors, driver, device, from, c);
      Put(0x44, 1, from, c);
      if queue < |bank.queues| {
        FilledConfig(bank.pageSize, old(bank.queues[queue]), size, descriptors, driver, device);
      }
      ConfigsUpdated(version, old(bank), bank, queue, Set(size, descriptors, driver, device));
    }

    method SetLegacy(queue: u16, size: u32, pfn: u32)
      requires Valid() && version.Legacy?
      modifies this
      ensures Valid() && Registers(old(bank), bank) && Traced(old(seen), seen, bank)
      ensures View() == Update(old(View()), queue, FromPage(bank.pageSize, PAGE_SIZE, size, pfn))
      ensures queue < |old(View())| && old(View())[queue] == Unset ==>
        Atomic(version, seen, |old(seen)|, old(View()), View())
    {
      ghost var from, c := |seen|, View();
      Select(queue, from, c);
      Put(0x38, size, from, c);
      Put(0x3C, PAGE_SIZE, from, c);
      Put(0x40, pfn, from, c);
      ConfigsUpdated(version, old(bank), bank, queue, FromPage(bank.pageSize, PAGE_SIZE, size, pfn));
    }

    /** Takes a queue out of use.  The device may go on using it for `lag` reads after it was told to stop;
        the addresses are cleared only once it has stopped.
        A legacy device has no such handshake: on the way it sees the queue with size zero, and then without
        alignment. */
    method QueueUnset(queue: u16, lag: nat)
      requires Valid()
      modifies this
      ensures Valid() && Registers(old(bank), bank) && Traced(old(seen), seen, bank)
      ensures View() == Update(old(View()), queue, Unset)
      ensures queue < |bank.queues| ==> bank.queues[queue] == Cleared(version, old(bank).queues[queue])
      ensures version.Modern? ==> Atomic(version, seen, |old(seen)|, old(View()), View())
      ensures version.Legacy? && queue < |bank.queues| ==>
        HalfUnset(seen, |old(seen)|, old(bank), old(View()), queue)
    {
      match version {
        case Legacy => UnsetLegacy(queue);
        case Modern => UnsetModern(queue, lag);
      }
    }

    method UnsetLegacy(queue: u16)
      requires Valid() && version.Legacy?
      modifies this
      ensures Valid() && Registers(old(bank), bank) && Traced(old(seen), seen, bank)
      ensures View() == Update(old(View()), queue, Unset)
      ensures queue < |bank.queues| ==> bank.queues[queue] == Cleared(version, old(bank).queues[queue])
      ensures queue < |bank.queues| ==> HalfUnset(seen, |old(seen)|, old(bank), old(View()), queue)
    {
      ghost var from, c := |seen|, View();
      Select(queue, from, c);
      Put(0x38, 0, from, c);
      ghost var first := bank;
      Put(0x3C, 0, from, c);
      ghost var second := bank;
      Put(0x40, 0, from, c);
      ConfigsUpdated(version, old(bank), bank, queue, Unset);
      assert seen[from + 1] == first && seen[from + 2] == second;
      if queue < |bank.queues| {
        HalfWay(old(bank), first, second, queue);
      }
    }

    method UnsetModern(queue: u16, lag: nat)
      requires Valid() && version.Modern?
      modifies this
      ensures Valid() && Registers(old(bank), bank) && Traced(old(seen), seen, bank)
      ensures View() == Update(old(View()), queue, Unset)
      ensures queue < |bank.queues| ==> bank.queues[queue] == Cleared(version, old(bank).queues[queue])
      ensures Atomic(version, seen, |old(seen)|, old(View()), View())
    {
      ghost var from, c := |seen|, View();
      Select(queue, from, c);
      Put(0x44, 0, from, c);
      ghost var mid := AwaitStop(lag, from, c);
      Fill(0, 0, 0, 0, mid, View());
    }

    /** Polls the ready register until the device has stopped using the selected queue. */
    method AwaitStop(lag: nat, ghost from: nat, ghost c: seq<Config>) returns (ghost mid: nat)
      requires bank.Ok() && version.Modern? && Held(from, c)
      requires bank.sel < |bank.queues| ==> bank.queues[bank.sel].ready == 0
      modifies this
      ensures Same(old(bank), bank) && old(seen) <= seen
      ensures StatusKept(seen, |old(seen)|, bank.status) && FeaturesKept(seen, |old(seen)|, bank)
      ensures forall q :: 0 <= q < |bank.queues| ==>
        bank.queues[q] == if q == bank.sel then old(bank).queues[q].(live := false) else old(bank).queues[q]
      ensures mid == |seen| && Atomic(version, seen, from, c, View())
    {
      var left := lag;
      var ready := ReadAt(bank, 0x44);
      while ready != 0
        invariant (bank == old(bank) && seen == old(seen)) || (bank == Quiesce(old(bank)) && seen == old(seen) + [bank])
        invariant ready == ReadAt(bank, 0x44)
        decreases ready, left
      {
        if left == 0 {
          bank := Quiesce(bank);
          seen := seen + [bank];
        } else {
          left := left - 1;
        }
        ready := ReadAt(bank, 0x44);
      }
      mid := |seen|;
    }

    method QueueUsed(queue: u16) returns (used: bool)
      requires Valid()
      modifies this
      ensures Valid() && Registers(old(bank), bank) && Traced(old(seen), seen, bank)
      ensures View() == old(View()) && Held(|old(seen)|, old(View()))
      ensures used == (queue < |View()| && View()[queue] != Unset)
    {
      Select(queue, |seen|, View());
      match version {
        case Legacy => used := ReadAt(bank, 0x40) != 0;
        case Modern => used := ReadAt(bank, 0x44) != 0;
      }
    }

    method MaxQueueSize(queue: u16) returns (n: u32)
      requires Valid()
      modifies this
      ensures Valid() && Registers(old(bank), bank) && Traced(old(seen), seen, bank)
      ensures View() == old(View()) && Held(|old(seen)|, old(View()))
      ensures n == if queue < |View()| then bank.maxSizes[queue] else 0
    {
      Select(queue, |seen|, View());
      n := ReadAt(bank, 0x34);
    }

    method Perform(call: Call) returns (answer: Answer)
      requires Valid() && Callable(version, call)
      modifies this
      ensures Valid() && Registers(old(bank), bank) && old(seen) <= seen
      ensures View() == Spec(version, bank.pageSize, old(View()), call)
      ensures answer == SpecAnswer(old(View()), old(bank).maxSizes, call)
    {
      answer := Done;
      match call {
        case SetCall(q, size, descriptors, driver, device) => QueueSet(q, size, descriptors, driver, device);
        case UnsetCall(q, lag) => QueueUnset(q, lag);
        case UsedCall(q) =>
          var used := QueueUsed(q);
          answer := InUse(used);
        case MaxCall(q) =>
          var n := MaxQueueSize(q);
          answer := Max(n);
      }
    }

    /** Over any run of calls the shared bank behaves like one independent configuration per queue. */
    method PerformAll(calls: seq<Call>) returns (answers: seq<Answer>)
      requires Valid() && forall k :: 0 <= k < |calls| ==> Callable(version, calls[k])
      modifies this
      ensures Valid() && Registers(old(bank), bank) && View() == SpecRun(version, bank.pageSize, old(View()), calls)
      ensures |answers| == |calls|
      ensures forall k :: 0 <= k < |calls| ==>
        answers[k] == SpecAnswer(SpecRun(version, bank.pageSize, old(View()), calls[..k]), bank.maxSizes, calls[k])
    {
      ghost var page, c, maxSizes := bank.pageSize, View(), bank.maxSizes;
      answers := [];
      for i := 0 to |calls|
        invariant Valid() && Registers(old(bank), bank)
        invariant View() == SpecRun(version, page, c, calls[..i])
        invariant |answers| == i
        invariant forall k :: 0 <= k < i ==> Answers(version, page, c, maxSizes, calls, k, answers[k])
      {
        SpecRunNext(version, page, c, calls, i);
        var answer := Perform(calls[i]);
        assert Answers(version, page, c, maxSizes, calls, i, answer);
        answers := answers + [answer];
      }
      assert calls[..|calls|] == calls;
    }

    /** Nothing happened but that the values `calls` were written to the notification register. */
    twostate predicate Told(calls: seq<u32>)
      reads this
    {
      Rung(old(seen), old(bank), seen, bank, calls)
    }

    /** Tells the device that there is something new in a queue. */
    method Notify(queue: u16)
      modifies this
      ensures Told([queue])
    {
      Write(0x50, queue);
    }

    // -------------------------------------------------------------- initialisation

    /** A handshake that began with the reset at position `from` of the trace is under way. */
    ghost predicate Shaking(from: nat)
      reads this
    {
      from < |seen| && seen[|seen| - 1] == bank && Handshake(version, seen, from)
    }

    /** Sets bits of the status register. */
    method SetStatus(status: u32, ghost from: nat)
      requires Valid() && Shaking(from) && status != 0 && And(bank.status, status) == bank.status
      requires InOrder(bank.status, status)
      modifies this
      ensures Valid() && Shaking(from) && old(seen) <= seen && bank == old(bank).(status := status)
    {
      AndGains(bank.status, status);
      Write(0x70, status);
    }

    /** Both words of the features the device offers. */
    method ReadDeviceFeatures() returns (features: u64)
      requires Valid()
      modifies this
      ensures Valid() && old(seen) <= seen && bank == old(bank).(offeredSel := 1)
      ensures features == bank.offered
      ensures StatusKept(seen, |old(seen)|, bank.status) && QueuesKept(seen, |old(seen)|, bank)
      ensures old(seen) < seen && seen[|seen| - 1] == bank
    {
      Write(0x14, 0);
      var low := ReadAt(bank, 0x10);
      Write(0x14, 1);
      var high := ReadAt(bank, 0x10);
      features := Join(low, high);
    }

    /** Both words of the features the driver accepts. */
    method WriteDriverFeatures(features: u64)
      requires Valid()
      modifies this
      ensures Valid() && old(seen) <= seen
      ensures bank == old(bank).(acceptedSel := 1, acceptedLow := bank.acceptedLow, acceptedHigh := bank.acceptedHigh)
      ensures bank.Accepted() == features
      ensures StatusKept(seen, |old(seen)|, bank.status) && QueuesKept(seen, |old(seen)|, bank)
      ensures old(seen) < seen && seen[|seen| - 1] == bank
    {
      Write(0x24, 0);
      Write(0x20, Low32(features));
      Write(0x24, 1);
      Write(0x20, High32(features));
    }

    /** Resets the device and agrees with it on the features that it offers and the driver supports. */
    method BeginInit(supported: u64) returns (negotiated: u64)
      requires Valid()
      modifies this
      ensures Valid() && old(seen) < seen && |bank.queues| == |old(bank).queues|
      ensures bank.maxSizes == old(bank).maxSizes && bank.offered == old(bank).offered
      ensures bank.notified == old(bank).notified
      ensures bank.status == ACKNOWLEDGE + DRIVER + FEATURES_OK
      ensures forall q :: 0 <= q < |View()| ==> View()[q] == Unset
      ensures bank.Accepted() == negotiated
      ensures forall i: nat :: Bit(negotiated, i) <==> Bit(bank.offered, i) && Bit(supported, i)
      ensures version.Legacy? ==> bank.pageSize == PAGE_SIZE
      ensures Shaking(|old(seen)|) && seen[|old(seen)|].status == 0
    {
      ghost var from := |seen|;
      StatusBits();
      Write(0x70, 0);
      SetStatus(ACKNOWLEDGE + DRIVER, from);
      negotiated := Negotiate(supported, from);
      SetStatus(ACKNOWLEDGE + DRIVER + FEATURES_OK, from);
      if version.Legacy? {
        ghost var before := seen;
        Write(0x28, PAGE_SIZE);
        PageSizeStep(before[|before| - 1], bank);
      }
    }

    /** The driver accepts what the device offers and the driver supports. */
    method Negotiate(supported: u64, ghost from: nat) returns (negotiated: u64)
      requires Valid() && Shaking(from) && Negotiating(bank.status)
      modifies this
      ensures Valid() && Shaking(from) && old(seen) <= seen
      ensures bank == old(bank).(offeredSel := 1, acceptedSel := 1,
                                 acceptedLow := bank.acceptedLow, acceptedHigh := bank.acceptedHigh)
      ensures bank.Accepted() == negotiated
      ensures forall i: nat :: Bit(negotiated, i) <==> Bit(bank.offered, i) && Bit(supported, i)
    {
      ghost var before := seen;
      var features := ReadDeviceFeatures();
      negotiated := And(features, supported);
      WriteDriverFeatures(negotiated);
      HandshakeContinues(version, before, seen, from);
      forall i: nat
        ensures Bit(negotiated, i) <==> Bit(bank.offered, i) && Bit(supported, i)
      {
        AndBits(bank.offered, supported, i);
      }
    }
  }
}
