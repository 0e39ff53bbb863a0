/** `VirtIoQueue`, the driver side of a split virtqueue, over the memory it shares with the device.

    Every method that touches shared memory takes a schedule of device steps and plays it between its
    own accesses.  The contracts say that the call then behaves as if it were atomic. */
module Queue {
  import opened Wrap
  import opened QueueModel
  import opened QueueProofs
  import opened QueueRuns
  import opened QueueTheorems
  import opened Endings
  import opened Interference
  import opened Blocking
  import Mmio

  datatype Error = QueueFull | NotReady | AlreadyUsed | InvalidParam | IoError

  datatype Result<+T> = Ok(value: T) | Err(error: Error)

  /** The device wants a notification that it cannot get. */
  predicate Unheard(s: System, notifyOk: bool) {
    s.usedFlags % 2 == 0 && !notifyOk
  }

  /** What is written to the notification register for queue `index`. */
  function Bell(flags: u16, notifyOk: bool, index: u16): seq<u32> {
    if flags % 2 == 0 && notifyOk then [index] else []
  }

  /** One notification for each of `n` chains, if the device wants them. */
  function Bells(flags: u16, index: u16, n: nat): (calls: seq<u32>)
    ensures flags % 2 == 0 ==> |calls| == n && forall i :: 0 <= i < n ==> calls[i] == index
    ensures flags % 2 == 1 ==> calls == []
  {
    if flags % 2 == 0 then seq(n, _ => index) else []
  }

  /** The chain was popped in state `s`. */
  ghost predicate PoppedIn(s: System, token: u16, r: Result<u32>, now: System) {
    CanPop(s, token) && r == Ok(PopLen(s, token)) && now == PopStep(s, token)
  }

  /** The chain of `token` is the only one outstanding. */
  ghost predicate Alone(s: System, token: u16) {
    s.hist.live.Keys == {token as nat} && s.hist.read == {}
  }

  /** How a request ends whose chain is published, when the device's flags are read at point `at`: with an error and
      the chain outstanding, if the device wants a notification that it cannot get, and otherwise with the chain
      popped at point `hi`. */
  ghost predicate Ended(path: Path, at: nat, hi: nat, token: u16, notifyOk: bool, r: Result<u32>, now: System) {
    && at in path && hi in path && at <= hi
    && if Unheard(path[at], notifyOk) then r == Err(IoError) && now == path[at]
       else PoppedIn(path[hi], token, r, now)
  }

  class VirtIoQueue {
    /** Which queue of the device it is, and where its pages are. */
    const index: u16
    const base: u64

    const desc: array<Descriptor>
    const availRing: array<u16>
    const usedRing: array<UsedElem>
    var availIdx: u16
    var usedEvent: u16
    var usedFlags: u16
    var usedIdx: u16

    var availDescIndex: seq<u16>
    var lastSeenUsed: u16
    var popedUsed: set<u16>

    /** The device's own state, which the driver never reads. */
    var dev: Device
    ghost var hist: History

    ghost function View(): System
      reads this, desc, availRing, usedRing
    {
      System(desc[..], availIdx, availRing[..], usedEvent, usedFlags, usedIdx, usedRing[..],
             availDescIndex, lastSeenUsed, popedUsed, dev, hist)
    }

    ghost predicate Valid()
      reads this, desc, availRing, usedRing
    {
      Inv(View())
    }

    /** The queue over freshly zeroed DMA pages. */
    constructor (size: nat, index: u16, base: u64)
      requires Accepted(size)
      ensures this.index == index && this.base == base
      ensures fresh(desc) && fresh(availRing) && fresh(usedRing)
      ensures View() == Fresh(size) && Valid()
    {
      AcceptedBound(size);
      this.index, this.base := index, base;
      desc := new Descriptor[size](_ => Descriptor(0, 0, 0, 0));
      availRing := new u16[size](_ => 0);
      usedRing := new UsedElem[size](_ => UsedElem(0, 0));
      availIdx, usedEvent, usedFlags, usedIdx := 0, 0, 0, 0;
      availDescIndex := seq(size, i requires 0 <= i < size => i as u16);
      lastSeenUsed, popedUsed := 0, {};
      dev, hist := Device([], {}), History([], [], [], 0, {}, map[], map[]);
      new;
      assert View() == Fresh(size);
      FreshInv(size);
    }

    // -------------------------------------------------------------- the device

    /** The device takes those of the given steps that it may.  It writes nothing but the used ring. */
    method Play(acts: seq<DeviceAct>, ghost next: System)
      requires DeviceMoves(View(), acts, next)
      modifies this`usedFlags, this`usedIdx, this`dev, this`hist, usedRing
      ensures View() == next
    {
      ghost var tr: seq<System> :| DeviceTrace(tr, acts) && tr[0] == View() && tr[|acts|] == next;
      for i := 0 to |acts|
        invariant View() == tr[i]
      {
        assert DeviceTurn(tr, acts, i);
        var may := May(acts[i]);
        if may {
          PlayOne(acts[i]);
        }
      }
    }

    method PlayOne(a: DeviceAct)
      requires DeviceMay(View(), a)
      modifies this`usedFlags, this`usedIdx, this`dev, this`hist, usedRing
      ensures View() == DeviceStep(old(View()), a)
    {
      ghost var t := DeviceStep(View(), a);
      match a {
        case Take =>
          var h := availRing[Low16(|dev.fetched|) % availRing.Length];
          var ids := Walk(desc[..], h, desc.Length);
          WalkBelow(desc[..], h, desc.Length);
          dev := Device(dev.fetched + [Fetch(h, Contents(desc[..], ids))], dev.held + {h});
        case Complete(id, written) =>
          usedRing[usedIdx % usedRing.Length] := UsedElem(id, written);
          usedIdx := WrappingAdd(usedIdx, 1);
          dev := dev.(held := dev.held - {id});
        case SetFlags(f) =>
          usedFlags := f;
      }
      hist := t.hist;
    }

    /** Whether the device may take a step now. */
    method May(a: DeviceAct) returns (r: bool)
      ensures r <==> DeviceMay(View(), a)
    {
      match a
      case Take => r := 0 < availRing.Length && availIdx != Low16(|dev.fetched|);
      case Complete(id, _) => r := 0 < usedRing.Length && id in dev.held;
      case SetFlags(_) => r := true;
    }

    // -------------------------------------------------------------- queries

    method ShouldNotify() returns (r: bool)
      ensures r <==> usedFlags % 2 == 0
    {
      r := usedFlags % 2 == 0;
    }

    /** Notifies the device under the index of the queue, unless it asked not to be; fails if the transport does. */
    method Notify(t: Mmio.MmioTransport, notifyOk: bool) returns (ok: bool)
      modifies t
      ensures ok <==> usedFlags % 2 == 1 || notifyOk
      ensures t.Told(Bell(usedFlags, notifyOk, index))
    {
      var wanted := ShouldNotify();
      ok := !wanted || notifyOk;
      if wanted && notifyOk {
        t.Notify(index);
      }
    }

    method AvailableDesc() returns (n: nat)
      requires Valid()
      ensures n + |AllIds(hist.live)| == desc.Length
    {
      n := |availDescIndex|;
      Conservation(desc.Length, availDescIndex, hist.live);
    }

    /** `peek_used`: the token of the oldest completion that was not popped, if there is any. */
    method PeekUsed() returns (r: int)
      requires Valid()
      ensures r == Peek(View())
      ensures r == -1 <==> (forall k: nat :: !Unread(View(), k))
      ensures r != -1 ==> Unread(View(), hist.cursor) && r == hist.used[hist.cursor].id
    {
      PeekIsOldest(View());
      if lastSeenUsed == usedIdx {
        return -1;
      }
      r := usedRing[lastSeenUsed % usedRing.Length].id;
    }

    // -------------------------------------------------------------- add

    /** Adds a chain.  While the call runs, a conforming device leads the queue from `path[lo]` to `path[hi]`;
        the outcome is that of the same device steps followed by an atomic add.  Completions may even
        overwrite unread ones meanwhile: the add does not depend on the used ring. */
    method Add(data: seq<Descriptor>, sched: Schedule, lo: nat, ghost path: Path) returns (r: Result<u16>, hi: nat)
      requires Core(View()) && 0 < |data| && DeviceLeads(path, sched, lo, AddEnd(lo, |data|)) && View() == path[lo]
      modifies this, desc, availRing, usedRing
      ensures |data| > old(|availDescIndex|) ==> r == Err(QueueFull) && hi == lo && View() == path[lo]
      ensures |data| <= old(|availDescIndex|) ==>
        && hi == AddEnd(lo, |data|)
        && CanAdd(path[hi], data)
        && View() == AddStep(path[hi], data)
        && r == Ok(NewIds(old(availDescIndex), |data|)[0])
      ensures WellFlagged(data) ==> Core(View()) && (Inv(path[hi]) ==> Valid())
    {
      if |availDescIndex| < |data| {
        return Err(QueueFull), lo;
      }
      assert CanAdd(View(), data);
      StoringTurns(path, sched, lo, data);
      var head := Store(data, sched, lo, path);
      hi := lo + |data|;
      PublishPoint(path, sched, lo, data);
      Push(head, At(sched, hi), Ringed(path[lo], data, path[hi + 1]), AddStep(path[hi + 1], data).hist);
      hi := hi + 1;
      r := Ok(head);
      if WellFlagged(data) {
        PublishKeeps(path, sched, lo, data);
      }
    }

    /** The loop of `add`: stores the chain from its tail to its head in free descriptors. */
    method Store(data: seq<Descriptor>, sched: Schedule, lo: nat, ghost path: Path) returns (head: u16)
      requires StoreTurns(path, sched, lo, data) && View() == path[lo]
      modifies this, desc, usedRing
      ensures head == NewIds(path[lo].free, |data|)[0]
      ensures View() == Storing(path[lo], data, path[lo + |data|], 0)
    {
      var j := |data|;
      head := 0;
      StoringStarts(path[lo], data);
      while j > 0
        invariant 0 <= j <= |data|
        invariant j < |data| ==> head == NewIds(path[lo].free, |data|)[j]
        invariant View() == Storing(path[lo], data, path[lo + |data| - j], j)
      {
        head := StoreNext(data, j - 1, head, sched, lo, lo + |data| - j, path);
        j := j - 1;
      }
    }

    method StoreNext(data: seq<Descriptor>, j: nat, last: u16, sched: Schedule, ghost lo: nat, at: nat,
                     ghost path: Path)
      returns (id: u16)
      requires StoreTurns(path, sched, lo, data) && lo <= at < lo + |data| && j < |data|
      requires j + 1 < |data| ==> last == NewIds(path[lo].free, |data|)[j + 1]
      requires View() == Storing(path[lo], data, path[at], j + 1)
      modifies this, desc, usedRing
      ensures id == NewIds(path[lo].free, |data|)[j]
      ensures View() == Storing(path[lo], data, path[at + 1], j)
    {
      assert StoreTurnAt(path, sched, lo, data, at, j);
      var d := if j < |data| - 1 then data[j].(next := last) else data[j];
      id := StoreOne(At(sched, at), Storing(path[lo], data, path[at + 1], j + 1), d);
    }

    method StoreOne(acts: seq<DeviceAct>, ghost next: System, d: Descriptor) returns (id: u16)
      requires DeviceMoves(View(), acts, next) && 0 < |next.free| && next.free[0] < |next.desc|
      modifies this, desc, usedRing
      ensures id == next.free[0] && View() == next.(desc := next.desc[id := d], free := next.free[1..])
    {
      Play(acts, next);
      id := availDescIndex[0];
      availDescIndex := availDescIndex[1..];
      ModSmall(id, desc.Length);
      desc[id % desc.Length] := d;
    }

    /** `AvailRing::push`, with device steps between the ring write and the index write. */
    method Push(head: u16, acts: seq<DeviceAct>, ghost next: System, ghost after: History)
      requires 0 < availRing.Length
      requires DeviceMoves(View().(availRing := View().availRing[availIdx % |View().availRing| := head]), acts, next)
      modifies this, availRing, usedRing
      ensures View() == next.(availIdx := WrappingAdd(old(availIdx), 1), hist := after)
    {
      var res := availIdx;
      availRing[res % availRing.Length] := head;
      Play(acts, next);
      availIdx := WrappingAdd(res, 1);
      hist := after;
    }

    // -------------------------------------------------------------- pop

    /** The scan of `can_pop` and `pop_used`: the offset from the cursor of the first of `skip` used
        entries that carries `id`, or `skip`.  The device runs before every read. */
    method FindUsed(ghost path: Path, ghost c: nat, ghost u: seq<UsedElem>, id: u16, skip: nat, sched: Schedule,
                    at: nat)
      returns (i: nat, hi: nat)
      requires Follows(path, sched, at) && Steady(path, at, c, u) && View() == path[at]
      requires c + skip <= |u| && lastSeenUsed == Low16(c)
      modifies this`usedFlags, this`usedIdx, this`dev, this`hist, usedRing
      ensures at <= hi && View() == path[hi]
      ensures i <= skip
      ensures i < skip ==> u[c + i].id == id
      ensures forall k :: c <= k < c + i ==> u[k].id != id
    {
      i, hi := 0, at;
      var cur := lastSeenUsed;
      while i < skip
        invariant i <= skip && at <= hi
        invariant View() == path[hi]
        invariant cur == Low16(c + i)
        invariant forall k :: c <= k < c + i ==> u[k].id != id
      {
        assert Hop(path, sched, hi);
        Play(At(sched, hi), path[hi + 1]);
        hi := hi + 1;
        assert Reads(path[hi], c + i, u[c + i]);
        if usedRing[cur % usedRing.Length].id == id {
          return;
        }
        LowAdd(c + i, 1);
        cur := WrappingAdd(cur, 1);
        i := i + 1;
      }
    }

    /** `can_pop`: answers for the moment after the device steps at point `lo`, whatever the device
        does during the scan. */
    method CanPopNow(id: u16, sched: Schedule, lo: nat, ghost path: Path) returns (r: bool, hi: nat)
      requires Valid() && Guided(path, sched, lo) && View() == path[lo]
      modifies this`usedFlags, this`usedIdx, this`dev, this`hist, usedRing
      ensures lo < hi && View() == path[hi] && Valid()
      ensures r <==> CanPop(path[lo + 1], id)
    {
      GuidedFollows(path, sched, lo);
      LoadsAt(path, sched, lo, lo, id);
      r, hi := LoadAndScan(path, id, sched, lo);
      PathKeeps(path, sched, lo, hi);
    }

    method LoadAndScan(ghost path: Path, id: u16, sched: Schedule, lo: nat) returns (r: bool, hi: nat)
      requires Loads(path, sched, lo, id) && View() == path[lo]
      modifies this`usedFlags, this`usedIdx, this`dev, this`hist, usedRing
      ensures lo < hi && hi in path && View() == path[hi]
      ensures r <==> CanPop(path[lo + 1], id)
    {
      Play(At(sched, lo), path[lo + 1]);
      var idx := usedIdx;
      if lastSeenUsed == idx {
        return false, lo + 1;
      }
      var skip, i := WrappingSub(idx, lastSeenUsed), 0;
      i, hi := FindUsed(path, hist.cursor, hist.used, id, skip, sched, lo + 1);
      assert Scanned(path[lo + 1], id, i);
      r := i < skip;
    }

    /** Pops a completion.  No device step meanwhile can take a poppable token away, make an assertion
        fail, or change the length: the call acts atomically at its end.  A stale entry is popped as well, if
        the walk from the token ends (see `AlwaysEnds`), but then the queue is no longer valid. */
    method PopUsed(id: u16, sched: Schedule, lo: nat, ghost path: Path) returns (r: Result<u32>, hi: nat)
      requires Valid() && Guided(path, sched, lo) && View() == path[lo]
      requires Stale(View(), id) ==> Ends(desc[..], id)
      modifies this, usedRing
      ensures lo < hi && (Valid() || Stale(path[lo], id))
      ensures CanPop(path[lo + 1], id) ==>
        CanPop(path[hi], id) && r == Ok(PopLen(path[lo + 1], id)) && View() == PopStep(path[hi], id)
      ensures !CanPop(path[lo + 1], id) ==> r == Err(NotReady) && View() == path[hi]
    {
      var ready;
      ready, hi := CanPopNow(id, sched, lo, path);
      if !ready {
        return Err(NotReady), hi;
      }
      GuidedFollows(path, sched, lo);
      var len;
      len, hi := PopAgreed(path, id, sched, lo, hi);
      r := Ok(len);
    }

    /** `pop_used` after its call of `can_pop`. */
    method PopAgreed(ghost path: Path, id: u16, sched: Schedule, ghost lo: nat, at: nat) returns (len: u32, hi: nat)
      requires Popping(path, sched, lo, id) && lo < at && View() == path[at]
      modifies this, usedRing
      ensures at < hi && (Valid() || Stale(path[lo], id)) && CanPop(path[hi], id)
      ensures len == PopLen(path[lo + 1], id) && View() == PopStep(path[hi], id)
    {
      var header;
      header, hi := Search(path, id, sched, lo, at);
      len := PopFound(path, header, id, sched, lo, hi);
      hi := hi + 1;
    }

    method Search(ghost path: Path, id: u16, sched: Schedule, ghost lo: nat, at: nat) returns (header: u16, hi: nat)
      requires Popping(path, sched, lo, id) && lo < at && View() == path[at]
      modifies this`usedFlags, this`usedIdx, this`dev, this`hist, usedRing
      ensures at < hi && View() == path[hi] && header == Header(path[lo + 1], id)
    {
      SearchPoint(path, sched, lo, at, id);
      header, hi := FindHeader(path, id, sched, at);
    }

    method PopFound(ghost path: Path, header: u16, id: u16, sched: Schedule, ghost lo: nat, at: nat) returns (len: u32)
      requires Popping(path, sched, lo, id) && lo < at && View() == path[at] && header == Header(path[lo + 1], id)
      modifies this, usedRing
      ensures (Valid() || Stale(path[lo], id)) && CanPop(path[at + 1], id)
      ensures len == PopLen(path[lo + 1], id) && View() == PopStep(path[at + 1], id)
    {
      FinishPoint(path, sched, lo, at, id);
      len := Finish(At(sched, at), path[at + 1], id, header, Match(path[lo + 1], id),
                    UsedElem(id, PopLen(path[lo + 1], id)));
    }

    /** The second load of the used index and the search for the entry to pop.  Neither assertion of
        `pop_used` can fail. */
    method FindHeader(ghost path: Path, id: u16, sched: Schedule, at: nat) returns (header: u16, hi: nat)
      requires Loads(path, sched, at, id) && CanPop(path[at + 1], id) && View() == path[at]
      modifies this`usedFlags, this`usedIdx, this`dev, this`hist, usedRing
      ensures at < hi && hi in path && View() == path[hi]
      ensures header == Header(path[at + 1], id)
    {
      Play(At(sched, at), path[at + 1]);
      var idx, last := usedIdx, lastSeenUsed;
      assert last != idx;
      header := WrappingSub(last, 1);
      var skip, i := WrappingSub(idx, last), 0;
      i, hi := FindUsed(path, hist.cursor, hist.used, id, skip, sched, at + 1);
      assert Scanned(path[at + 1], id, i);
      if i < skip {
        header := WrappingAdd(last, i);
      }
      assert header != WrappingSub(last, 1);
    }

    method Finish(acts: seq<DeviceAct>, ghost next: System, id: u16, header: u16, ghost k: nat, ghost e: UsedElem)
      returns (len: u32)
      requires DeviceMoves(View(), acts, next)
      requires header == Low16(k) && Reads(next, k, e) && Retirable(next, id, header)
      modifies this, usedRing
      ensures len == e.len
      ensures CanPop(next, id) && View() == PopStep(next, id)
    {
      Play(acts, next);
      len := usedRing[header % usedRing.Length].len;
      Retire(id, header);
    }

    /** The driver-private part of `pop_used`: returns the chain to the free list and moves the cursor. */
    method Retire(id: u16, header: u16)
      requires Retirable(View(), id, header)
      modifies this
      ensures View() == PopStep(old(View()), id)
    {
      ghost var t := PopStep(View(), id);
      FreeChain(id, Walk(desc[..], id, desc.Length));
      popedUsed := popedUsed + {header};
      CatchUp();
      hist := t.hist;
    }

    method FreeChain(id: u16, ghost ids: seq<u16>)
      requires Linked(desc[..], ids) && ids[0] == id
      modifies this`availDescIndex
      ensures availDescIndex == old(availDescIndex) + ids
    {
      ghost var free := availDescIndex;
      var now := id;
      ghost var j := 0;
      availDescIndex := availDescIndex + [now];
      while desc[now].HasNext()
        invariant 0 <= j < |ids| && now == ids[j]
        invariant availDescIndex == free + ids[..j + 1]
        decreases |ids| - j
      {
        assert desc[..][ids[j]].HasNext();
        ModSmall(now, desc.Length);
        now := desc[now % desc.Length].next;
        j := j + 1;
        availDescIndex := availDescIndex + [now];
      }
      assert ids[..j + 1] == ids;
    }

    method CatchUp()
      modifies this`lastSeenUsed, this`popedUsed, this`usedEvent
      ensures (lastSeenUsed, popedUsed) == Advance(old(lastSeenUsed), old(popedUsed))
      ensures usedEvent == if old(lastSeenUsed) in old(popedUsed) then lastSeenUsed else old(usedEvent)
    {
      while lastSeenUsed in popedUsed
        invariant Advance(lastSeenUsed, popedUsed) == Advance(old(lastSeenUsed), old(popedUsed))
        invariant (lastSeenUsed == old(lastSeenUsed) && popedUsed == old(popedUsed) && usedEvent == old(usedEvent))
               || (old(lastSeenUsed) in old(popedUsed) && usedEvent == lastSeenUsed)
        decreases popedUsed
      {
        popedUsed := popedUsed - {lastSeenUsed};
        lastSeenUsed := WrappingAdd(lastSeenUsed, 1);
        usedEvent := lastSeenUsed;
      }
    }

    // -------------------------------------------------------------- blocking requests

    /** Adds a chain, notifies the device unless it asked not to be, spins until the device is done with
        the chain, and pops it.  The device conforms to the protocol and completes the chain by point
        `bound`.  From rest, the queue is at rest again afterwards. */
    method AddNotifyWaitPop(t: Mmio.MmioTransport, data: seq<Descriptor>, notifyOk: bool, sched: Schedule, lo: nat,
                            ghost before: Path, ghost token: u16, ghost after: Path, ghost bound: nat)
      returns (r: Result<u32>, hi: nat, ghost at: nat)
      requires Valid() && WellFlagged(data) && Serving(View(), data, sched, lo, before, token, after, bound)
      requires |data| <= |availDescIndex| ==> Unhindered(View(), |data|, sched, lo, before, token, after)
      modifies t, this, desc, availRing, usedRing
      ensures Valid() && at == AddEnd(lo, |data|) + 1
      ensures |data| > old(|availDescIndex|) ==> r == Err(QueueFull) && View() == old(View()) && t.Told([])
      ensures |data| <= old(|availDescIndex|) ==> Ended(after, at, hi, token, notifyOk, r, View())
      ensures |data| <= old(|availDescIndex|) ==> t.Told(Bell(after[at].usedFlags, notifyOk, index))
      ensures old(hist.live) == map[] && r.Ok? ==> Rest(View())
    {
      var added;
      added, hi := Post(data, sched, lo, before, token, after, bound);
      if added.Err? {
        assert t.bank.notified + [] == t.bank.notified;
        return Err(added.error), hi, AddEnd(lo, |data|) + 1;
      }
      r, hi, at := NotifyWaitPop(t, added.value, token, notifyOk, sched, AddEnd(lo, |data|), after);
    }

    /** Adds the chain of a blocking request. */
    method Post(data: seq<Descriptor>, sched: Schedule, lo: nat,
                ghost before: Path, ghost token: u16, ghost after: Path, ghost bound: nat)
      returns (r: Result<u16>, hi: nat)
      requires Valid() && WellFlagged(data) && Serving(View(), data, sched, lo, before, token, after, bound)
      requires |data| <= |availDescIndex| ==> Unhindered(View(), |data|, sched, lo, before, token, after)
      modifies this, desc, availRing, usedRing
      ensures |data| > old(|availDescIndex|) ==> r == Err(QueueFull) && View() == old(View())
      ensures |data| <= old(|availDescIndex|) ==>
        && r == Ok(token) && hi == AddEnd(lo, |data|)
        && Awaits(after, sched, hi, token) && hi in after && View() == after[hi]
        && (old(hist.live) == map[] ==> Alone(after[hi], token))
    {
      if hist.live == map[] {
        RestMeans(View());
      }
      if |data| <= |availDescIndex| {
        WaitingFrom(before, data, token, after, sched, lo, bound);
      }
      r, hi := Add(data, sched, lo, before);
    }

    method NotifyWaitPop(t: Mmio.MmioTransport, head: u16, ghost token: u16, notifyOk: bool, sched: Schedule, lo: nat,
                         ghost path: Path)
      returns (r: Result<u32>, hi: nat, ghost at: nat)
      requires head == token && Awaits(path, sched, lo, token) && lo in path && View() == path[lo]
      modifies t, this, usedRing
      ensures Valid() && at == lo + 1 && Ended(path, at, hi, token, notifyOk, r, View())
      ensures t.Told(Bell(path[at].usedFlags, notifyOk, index))
      ensures Alone(path[lo], token) && r.Ok? ==> Rest(View())
    {
      ghost var bound: nat :| lo + 1 < bound && Waiting(path, sched, lo, token, bound);
      WaitingNext(path, sched, lo, token, bound);
      Play(At(sched, lo), path[lo + 1]);
      at := lo + 1;
      var ok := Notify(t, notifyOk);
      if !ok {
        return Err(IoError), lo + 1, at;
      }
      var len;
      len, hi := WaitAndPop(head, sched, lo + 1, path, bound);
      PopPoint(path, sched, lo + 1, hi, token);
      r := Ok(len);
    }

    /** Spins on `can_pop`, then pops. */
    method WaitAndPop(token: u16, sched: Schedule, lo: nat, ghost path: Path, ghost bound: nat)
      returns (len: u32, hi: nat)
      requires Waiting(path, sched, lo, token, bound) && View() == path[lo]
      modifies this, usedRing
      ensures lo < hi && CanPop(path[hi], token) && len == PopLen(path[hi], token) && View() == PopStep(path[hi], token)
    {
      PollableFrom(path, sched, lo, token, bound);
      ghost var seen;
      hi, seen := Wait(token, sched, lo, path, bound);
      PoppingAt(path, sched, lo, seen, hi, token);
      len, hi := PopSeen(token, sched, hi, path);
    }

    method PopSeen(token: u16, sched: Schedule, lo: nat, ghost path: Path) returns (len: u32, hi: nat)
      requires Popping(path, sched, lo, token) && View() == path[lo]
      modifies this, usedRing
      ensures lo < hi && CanPop(path[hi], token) && len == PopLen(path[hi], token) && View() == PopStep(path[hi], token)
    {
      var ready;
      LoadsAt(path, sched, lo, lo, token);
      ready, hi := LoadAndScan(path, token, sched, lo);
      len, hi := PopAgreed(path, token, sched, lo, hi);
      PopTarget(path, sched, lo, lo + 1, hi, token);
    }

    method Wait(token: u16, sched: Schedule, lo: nat, ghost path: Path, ghost bound: nat)
      returns (hi: nat, ghost seen: nat)
      requires Pollable(path, sched, lo, token, bound) && lo in path && View() == path[lo]
      modifies this`usedFlags, this`usedIdx, this`dev, this`hist, usedRing
      ensures lo < seen <= hi && hi in path && View() == path[hi]
      ensures seen in path && CanPop(path[seen], token)
    {
      var ready := false;
      hi, seen := lo, lo;
      while !ready
        invariant lo <= seen <= hi && hi in path && View() == path[hi]
        invariant ready ==> lo < seen && seen in path && CanPop(path[seen], token)
        decreases !ready, bound - hi
      {
        assert Loads(path, sched, hi, token);
        seen := hi + 1;
        ready, hi := LoadAndScan(path, token, sched, hi);
      }
    }
  }
}
