/** A split virtqueue as a value: the shared memory, the driver's private fields, the device's
    private fields, and a history that no party reads.

    `AddStep` and `PopStep` are the driver's operations, `DeviceStep` is what a device may do between
    any two driver instructions, and `Inv` is what every step keeps. */
module QueueModel {
  import opened Wrap
  import opened Sequences

  // ---------------------------------------------------------------- data

  const NEXT: u16 := 1
  const WRITE: u16 := 2

  datatype Descriptor = Descriptor(addr: u64, len: u32, flags: u16, next: u16) {
    /** `flags & DescFlag::NEXT != 0` */
    predicate HasNext() {
      flags % 2 == 1
    }

    /** The part of a descriptor that describes a buffer; `next` belongs to the queue. */
    predicate SameBuffer(d: Descriptor) {
      addr == d.addr && len == d.len && flags == d.flags
    }
  }

  datatype UsedElem = UsedElem(id: u32, len: u32)

  /** What a device obtained by following one entry of the available ring. */
  datatype Fetch = Fetch(head: u16, buffers: seq<Descriptor>)

  /** The device's private state: what it has fetched so far, and the heads it still works on. */
  datatype Device = Device(fetched: seq<Fetch>, held: set<u16>)

  /** Where an outstanding chain is: in the available ring, with the device, or in the used ring. */
  datatype Stage = Queued(pos: nat) | Held | Done(pos: nat)

  datatype Chain = Chain(ids: seq<u16>, buffers: seq<Descriptor>)

  /** History and bookkeeping.  `cursor` and `read` are unbounded versions of `last_seen_used` and
      `poped_used`; `live` maps the head of every outstanding chain to that chain and `stage` to where
      it is. */
  datatype History = History(
    heads: seq<u16>,
    added: seq<seq<Descriptor>>,
    used: seq<UsedElem>,
    cursor: nat,
    read: set<nat>,
    live: map<nat, Chain>,
    stage: map<nat, Stage>)

  datatype System = System(
    // shared memory
    desc: seq<Descriptor>,
    availIdx: u16,
    availRing: seq<u16>,
    usedEvent: u16,
    usedFlags: u16,
    usedIdx: u16,
    usedRing: seq<UsedElem>,
    // the driver
    free: seq<u16>,
    last: u16,
    popped: set<u16>,
    // the device
    dev: Device,
    // nobody
    hist: History)
  {
    /** Number of descriptor-table, ring and ring entries agree and the size is one `new` accepts. */
    ghost predicate Shape() {
      && Accepted(|desc|)
      && |availRing| == |desc|
      && |usedRing| == |desc|
    }
  }

  // ---------------------------------------------------------------- descriptor chains

  /** The descriptors reached from `now` by following `next` while the NEXT flag is set. */
  function Walk(desc: seq<Descriptor>, now: nat, fuel: nat): seq<u16>
    decreases fuel
  {
    if fuel == 0 || now >= |desc| || now >= 0x1_0000 then []
    else if desc[now].HasNext() then [now as u16] + Walk(desc, desc[now].next, fuel - 1)
    else [now as u16]
  }

  function Contents(desc: seq<Descriptor>, ids: seq<u16>): seq<Descriptor>
    requires Below(ids, |desc|)
  {
    seq(|ids|, i requires 0 <= i < |ids| => desc[ids[i]])
  }

  /** `ids` is exactly the chain that starts at its first element. */
  ghost predicate Linked(desc: seq<Descriptor>, ids: seq<u16>) {
    && 0 < |ids|
    && Below(ids, |desc|)
    && (forall j :: 0 <= j < |ids| - 1 ==> desc[ids[j]].HasNext() && desc[ids[j]].next == ids[j + 1])
    && !desc[ids[|ids| - 1]].HasNext()
  }

  ghost predicate SameBuffers(a: seq<Descriptor>, b: seq<Descriptor>) {
    && |a| == |b|
    && forall j :: 0 <= j < |a| ==> a[j].SameBuffer(b[j])
  }

  /** What `add` expects of its caller: NEXT on every descriptor but the last. */
  ghost predicate WellFlagged(data: seq<Descriptor>) {
    && 0 < |data|
    && (forall j :: 0 <= j < |data| - 1 ==> data[j].HasNext())
    && !data[|data| - 1].HasNext()
  }

  // ---------------------------------------------------------------- driver: add

  /** The ids of a new chain, head first: `add` hands out the front of the free list from the tail
      of the chain to its head. */
  function NewIds(free: seq<u16>, n: nat): (ids: seq<u16>)
    requires n <= |free|
    ensures |ids| == n
  {
    seq(n, j requires 0 <= j < n => free[n - 1 - j])
  }

  /** Descriptor `j` of the chain as it is stored. */
  function Link(data: seq<Descriptor>, ids: seq<u16>, j: nat): Descriptor
    requires j < |data| == |ids|
  {
    if j + 1 < |data| then data[j].(next := ids[j + 1]) else data[j]
  }

  /** The table after descriptors `j..` of the chain are stored. */
  function Place(desc: seq<Descriptor>, ids: seq<u16>, data: seq<Descriptor>, j: nat): (r: seq<Descriptor>)
    requires j <= |data| == |ids|
    requires Below(ids, |desc|)
    ensures |r| == |desc|
    decreases |data| - j
  {
    if j == |data| then desc
    else Place(desc, ids, data, j + 1)[ids[j] := Link(data, ids, j)]
  }

  predicate CanAdd(s: System, data: seq<Descriptor>) {
    && 0 < |data| <= |s.free|
    && 0 < |s.availRing|
    && Below(s.free, |s.desc|)
  }

  function AddStep(s: System, data: seq<Descriptor>): System
    requires CanAdd(s, data)
  {
    var ids := NewIds(s.free, |data|);
    var head := ids[0];
    s.(desc := Place(s.desc, ids, data, 0),
       availRing := s.availRing[s.availIdx % |s.availRing| := head],
       availIdx := WrappingAdd(s.availIdx, 1),
       free := s.free[|data|..],
       hist := s.hist.(heads := s.hist.heads + [head],
                       added := s.hist.added + [data],
                       live := s.hist.live[head := Chain(ids, data)],
                       stage := s.hist.stage[head := Queued(|s.hist.heads|)]))
  }

  // ---------------------------------------------------------------- driver: pop

  /** Offset from index `at` of the first of `n` used entries that carries `id`; `n` if none does. */
  function Scan(ring: seq<UsedElem>, at: u16, n: nat, id: nat): (i: nat)
    requires 0 < |ring|
    ensures i <= n
    decreases n
  {
    if n == 0 then 0
    else if ring[at % |ring|].id == id then 0
    else 1 + Scan(ring, WrappingAdd(at, 1), n - 1, id)
  }

  function Window(s: System): u16 {
    WrappingSub(s.usedIdx, s.last)
  }

  /** `can_pop` */
  predicate CanPop(s: System, id: nat) {
    0 < |s.usedRing| && Scan(s.usedRing, s.last, Window(s), id) < Window(s)
  }

  /** The index `pop_used` pops for `id`. */
  function Header(s: System, id: nat): u16
    requires CanPop(s, id)
  {
    WrappingAdd(s.last, Scan(s.usedRing, s.last, Window(s), id))
  }

  /** The length `pop_used` returns for `id`. */
  function PopLen(s: System, id: nat): u32
    requires CanPop(s, id)
  {
    s.usedRing[Header(s, id) % |s.usedRing|].len
  }

  /** `last_seen_used` and `poped_used` after the catch-up loop at the end of `pop_used`. */
  function Advance(last: u16, popped: set<u16>): (u16, set<u16>)
    decreases popped
  {
    if last in popped then Advance(WrappingAdd(last, 1), popped - {last}) else (last, popped)
  }

  function AdvancePos(cursor: nat, read: set<nat>): (nat, set<nat>)
    decreases read
  {
    if cursor in read then AdvancePos(cursor + 1, read - {cursor}) else (cursor, read)
  }

  function PopStep(s: System, id: nat): System
    requires CanPop(s, id)
  {
    var popped := s.popped + {Header(s, id)};
    var (last', popped') := Advance(s.last, popped);
    var k := s.hist.cursor + Scan(s.usedRing, s.last, Window(s), id);
    var (cursor', read') := AdvancePos(s.hist.cursor, s.hist.read + {k});
    s.(free := s.free + Walk(s.desc, id, |s.desc|),
       last := last',
       popped := popped',
       usedEvent := if s.last in popped then last' else s.usedEvent,
       hist := s.hist.(cursor := cursor', read := read', live := s.hist.live - {id}, stage := s.hist.stage - {id}))
  }

  // ---------------------------------------------------------------- device

  datatype DeviceAct =
    | Take                            // follow the next entry of the available ring
    | Complete(id: u16, written: u32) // hand a chain back through the used ring
    | SetFlags(flags: u16)            // suppress or allow notifications

  /** What a conforming device may do.  It only looks at the available index and its own state. */
  predicate DeviceMay(s: System, a: DeviceAct) {
    match a
    case Take => 0 < |s.availRing| && s.availIdx != Low16(|s.dev.fetched|)
    case Complete(id, _) => 0 < |s.usedRing| && id in s.dev.held
    case SetFlags(_) => true
  }

  function DeviceStep(s: System, a: DeviceAct): System
    requires DeviceMay(s, a)
  {
    match a
    case Take =>
      var h := s.availRing[Low16(|s.dev.fetched|) % |s.availRing|];
      var ids := Walk(s.desc, h, |s.desc|);
      WalkBelow(s.desc, h, |s.desc|);
      s.(dev := Device(s.dev.fetched + [Fetch(h, Contents(s.desc, ids))], s.dev.held + {h}),
         hist := s.hist.(stage := s.hist.stage[h := Held]))
    case Complete(id, written) =>
      var e := UsedElem(id, written);
      s.(usedRing := s.usedRing[s.usedIdx % |s.usedRing| := e],
         usedIdx := WrappingAdd(s.usedIdx, 1),
         dev := s.dev.(held := s.dev.held - {id}),
         hist := s.hist.(used := s.hist.used + [e],
                         stage := s.hist.stage[id := Done(|s.hist.used|)]))
    case SetFlags(f) =>
      s.(usedFlags := f)
  }

  lemma {:induction false} WalkBelow(desc: seq<Descriptor>, now: nat, fuel: nat)
    ensures Below(Walk(desc, now, fuel), |desc|)
    ensures |Walk(desc, now, fuel)| <= fuel
    decreases fuel
  {
    if fuel == 0 || now >= |desc| || now >= 0x1_0000 {
    } else if desc[now].HasNext() {
      WalkBelow(desc, desc[now].next, fuel - 1);
    }
  }

  /** There is a free slot in the used ring: the entry about to be written is not one the driver has
      yet to pass. */
  predicate Room(s: System) {
    |s.hist.used| < s.hist.cursor + |s.desc|
  }

  // ---------------------------------------------------------------- the invariant

  /** The free list and the outstanding chains partition the `n` descriptors of the table. */
  ghost predicate Ownership(n: nat, free: seq<u16>, live: map<nat, Chain>) {
    && NoDup(free)
    && Below(free, n)
    && (forall h :: h in live ==> OwnedChain(n, free, h, live[h].ids))
    && (forall g, h, x :: g in live && h in live && x in live[g].ids && x in live[h].ids ==> g == h)
    && (forall x :: 0 <= x < n ==> x in free || exists h :: h in live && x in live[h].ids)
  }

  ghost predicate OwnedChain(n: nat, free: seq<u16>, h: nat, ids: seq<u16>) {
    && 0 < |ids|
    && ids[0] == h
    && NoDup(ids)
    && Below(ids, n)
    && Apart(ids, free)
  }

  /** Every outstanding chain is stored in the table as it was submitted. */
  ghost predicate Stored(desc: seq<Descriptor>, live: map<nat, Chain>) {
    forall h :: h in live ==> StoredChain(desc, live[h])
  }

  ghost predicate StoredChain(desc: seq<Descriptor>, c: Chain) {
    && Linked(desc, c.ids)
    && SameBuffers(Contents(desc, c.ids), c.buffers)
  }

  ghost predicate AvailOk(s: System) {
    && s.availIdx == Low16(|s.hist.heads|)
    && |s.dev.fetched| <= |s.hist.heads| <= |s.dev.fetched| + |s.desc|
    && |s.hist.added| == |s.hist.heads|
    && Mirrors(s.availRing, s.hist.heads, |s.dev.fetched|)
  }

  ghost predicate UsedOk(s: System) {
    && s.usedIdx == Low16(|s.hist.used|)
    && s.last == Low16(s.hist.cursor)
    && s.hist.cursor <= |s.hist.used| <= s.hist.cursor + |s.desc|
    && Mirrors(s.usedRing, s.hist.used, s.hist.cursor)
    && (forall k :: k in s.hist.read ==> s.hist.cursor < k < |s.hist.used|)
    && s.popped == Lows(s.hist.read)
  }

  function Lows(read: set<nat>): set<u16> {
    set k | k in read :: Low16(k)
  }

  /** A completion is unread when it lies in the window and was not popped ahead of the cursor. */
  predicate Unread(s: System, k: nat) {
    s.hist.cursor <= k < |s.hist.used| && k !in s.hist.read
  }

  /** Every outstanding chain is at exactly one stage, and every entry of the two windows and of the
      device's hands is an outstanding chain. */
  ghost predicate Staged(s: System) {
    && s.hist.stage.Keys == s.hist.live.Keys
    && (forall h :: h in s.hist.stage ==> StageOk(s, h, s.hist.stage[h]))
    && (forall p :: |s.dev.fetched| <= p < |s.hist.heads| ==> AtStage(s, s.hist.heads[p], Queued(p)))
    && (forall h :: h in s.dev.held ==> AtStage(s, h, Held))
    && (forall k: nat :: Unread(s, k) ==> AtStage(s, s.hist.used[k].id, Done(k)))
  }

  ghost predicate AtStage(s: System, h: nat, stage: Stage) {
    h in s.hist.stage && s.hist.stage[h] == stage
  }

  ghost predicate StageOk(s: System, h: nat, stage: Stage) {
    match stage
    case Queued(p) =>
      |s.dev.fetched| <= p < |s.hist.heads| && s.hist.heads[p] == h
      && p < |s.hist.added| && h in s.hist.live && s.hist.live[h].buffers == s.hist.added[p]
    case Held => h in s.dev.held
    case Done(k) => Unread(s, k) && s.hist.used[k].id == h
  }

  /** The device has read exactly what the driver submitted, in submission order. */
  ghost predicate Faithful(s: System) {
    forall p :: 0 <= p < |s.dev.fetched| && p < |s.hist.heads| && p < |s.hist.added| ==>
      && s.dev.fetched[p].head == s.hist.heads[p]
      && SameBuffers(s.dev.fetched[p].buffers, s.hist.added[p])
  }

  /** The driver's record of what it has popped lies within what the device has completed. */
  ghost predicate Logged(s: System) {
    s.hist.cursor <= |s.hist.used| && forall k :: k in s.hist.read ==> s.hist.cursor < k < |s.hist.used|
  }

  /** Completions carry numbers of descriptors. */
  ghost predicate Named(used: seq<UsedElem>, n: nat) {
    forall k :: 0 <= k < |used| ==> used[k].id < n
  }

  /** The part of the invariant that does not depend on the used ring: a conforming device keeps it even
      where it overwrites completions that were not read. */
  ghost predicate Core(s: System) {
    && s.Shape()
    && Ownership(|s.desc|, s.free, s.hist.live)
    && Stored(s.desc, s.hist.live)
    && AvailOk(s)
    && Logged(s)
    && Named(s.hist.used, |s.desc|)
    && Staged(s)
    && Faithful(s)
  }

  ghost predicate Inv(s: System) {
    && s.Shape()
    && Ownership(|s.desc|, s.free, s.hist.live)
    && Stored(s.desc, s.hist.live)
    && AvailOk(s)
    && UsedOk(s)
    && s.usedEvent == s.last
    && Named(s.hist.used, |s.desc|)
    && Staged(s)
    && Faithful(s)
  }
}
