/** Every step of the queue keeps the invariant of `QueueModel`. */
module QueueProofs {
  import opened Wrap
  import opened Sequences
  import opened QueueModel

  // ---------------------------------------------------------------- rings

  /** Writing entry |log| into its slot keeps the window mirrored when the window is not full. */
  lemma MirrorsPush<T>(ring: seq<T>, log: seq<T>, lo: nat, at: nat, x: T)
    requires Mirrors(ring, log, lo)
    requires lo <= |log| < lo + |ring|
    requires at == |log| % |ring|
    ensures Mirrors(ring[at := x], log + [x], lo)
  {
    forall k | lo <= k < |log| + 1
      ensures ring[at := x][k % |ring|] == (log + [x])[k]
    {
      if k < |log| && k % |ring| == at {
        SlotInjective(k, |log|, |ring|);
      }
    }
  }

  // ---------------------------------------------------------------- chains

  lemma {:induction false} WalkOfLinked(desc: seq<Descriptor>, ids: seq<u16>, fuel: nat)
    requires Linked(desc, ids) && |ids| <= fuel
    ensures Walk(desc, ids[0], fuel) == ids
    decreases fuel
  {
    if |ids| > 1 {
      var rest := ids[1..];
      assert Linked(desc, rest) by {
        forall j | 0 <= j < |rest| - 1
          ensures desc[rest[j]].HasNext() && desc[rest[j]].next == rest[j + 1]
        {
          assert rest[j] == ids[j + 1] && rest[j + 1] == ids[j + 2];
        }
      }
      WalkOfLinked(desc, rest, fuel - 1);
      assert ids == [ids[0]] + rest;
    }
  }

  /** Following `next` from the head of an outstanding chain gives that chain. */
  lemma WalkOfLive(s: System, h: nat)
    requires s.Shape() && Ownership(|s.desc|, s.free, s.hist.live) && Stored(s.desc, s.hist.live) && h in s.hist.live
    ensures Walk(s.desc, h, |s.desc|) == s.hist.live[h].ids
  {
    var ids := s.hist.live[h].ids;
    assert OwnedChain(|s.desc|, s.free, h, s.hist.live[h].ids) && StoredChain(s.desc, s.hist.live[h]);
    Pigeonhole(ids, |s.desc|);
    WalkOfLinked(s.desc, ids, |s.desc|);
  }

  lemma {:induction false} PlaceHere(desc: seq<Descriptor>, ids: seq<u16>, data: seq<Descriptor>, j: nat, i: nat)
    requires j <= i < |data| == |ids|
    requires Below(ids, |desc|) && NoDup(ids)
    ensures Place(desc, ids, data, j)[ids[i]] == Link(data, ids, i)
    decreases |data| - j
  {
    if j < i {
      PlaceHere(desc, ids, data, j + 1, i);
    }
  }

  lemma {:induction false} PlaceElsewhere(desc: seq<Descriptor>, ids: seq<u16>, data: seq<Descriptor>, j: nat, x: nat)
    requires j <= |data| == |ids|
    requires Below(ids, |desc|) && x < |desc| && x !in ids
    ensures Place(desc, ids, data, j)[x] == desc[x]
    decreases |data| - j
  {
    if j < |data| {
      PlaceElsewhere(desc, ids, data, j + 1, x);
    }
  }

  /** `Place` stores the chain and touches no other cell. */
  lemma PlaceAt(desc: seq<Descriptor>, ids: seq<u16>, data: seq<Descriptor>)
    requires |data| == |ids|
    requires Below(ids, |desc|) && NoDup(ids)
    ensures forall i :: 0 <= i < |ids| ==> Place(desc, ids, data, 0)[ids[i]] == Link(data, ids, i)
    ensures forall x :: 0 <= x < |desc| && x !in ids ==> Place(desc, ids, data, 0)[x] == desc[x]
  {
    forall i | 0 <= i < |ids|
      ensures Place(desc, ids, data, 0)[ids[i]] == Link(data, ids, i)
    {
      PlaceHere(desc, ids, data, 0, i);
    }
    forall x | 0 <= x < |desc| && x !in ids
      ensures Place(desc, ids, data, 0)[x] == desc[x]
    {
      PlaceElsewhere(desc, ids, data, 0, x);
    }
  }

  lemma NewIdsOk(free: seq<u16>, n: nat)
    requires n <= |free| && NoDup(free)
    ensures NoDup(NewIds(free, n))
    ensures forall x :: x in NewIds(free, n) <==> x in free[..n]
    ensures Apart(NewIds(free, n), free[n..])
  {
    var ids := NewIds(free, n);
    forall x | x in free[..n]
      ensures x in ids
    {
      var i :| 0 <= i < n && free[i] == x;
      assert ids[n - 1 - i] == x;
    }
    forall x | x in ids
      ensures x in free[..n] && x !in free[n..]
    {
      var j :| 0 <= j < n && ids[j] == x;
      assert free[..n][n - 1 - j] == x;
    }
  }

  lemma LinkedIffFlagged(d: seq<Descriptor>, ids: seq<u16>, data: seq<Descriptor>)
    requires 0 < |data| == |ids| && Below(ids, |d|)
    requires forall j :: 0 <= j < |ids| ==> d[ids[j]] == Link(data, ids, j)
    ensures SameBuffers(Contents(d, ids), data)
    ensures Linked(d, ids) <==> WellFlagged(data)
  {
    forall j | 0 <= j < |ids|
      ensures d[ids[j]].HasNext() <==> data[j].HasNext()
    {
      assert d[ids[j]] == Link(data, ids, j);
    }
    if Linked(d, ids) {
      forall j | 0 <= j < |data| - 1
        ensures data[j].HasNext()
      {
        assert d[ids[j]].HasNext();
      }
    }
  }

  /** Following `next` from the stored head gives back exactly the chain's ids, hence exactly the
      submitted buffers in order, if and only if the caller set NEXT on all descriptors but the last. */
  lemma ChainRoundTrip(desc: seq<Descriptor>, ids: seq<u16>, data: seq<Descriptor>)
    requires 0 < |data| == |ids| && Below(ids, |desc|) && NoDup(ids)
    ensures SameBuffers(Contents(Place(desc, ids, data, 0), ids), data)
    ensures Linked(Place(desc, ids, data, 0), ids) <==> WellFlagged(data)
  {
    PlaceAt(desc, ids, data);
    LinkedIffFlagged(Place(desc, ids, data, 0), ids, data);
  }

  // ---------------------------------------------------------------- add

  /** Moving descriptors from the free list into a new chain keeps the partition. */
  lemma GiveChain(n: nat, free: seq<u16>, live: map<nat, Chain>, c: Chain, rest: seq<u16>)
    requires Ownership(n, free, live)
    requires 0 < |c.ids| && NoDup(c.ids) && NoDup(rest) && Apart(c.ids, rest)
    requires forall x :: x in free <==> x in c.ids || x in rest
    ensures c.ids[0] !in live
    ensures Ownership(n, rest, live[c.ids[0] := c])
  {
    var head, live' := c.ids[0], live[c.ids[0] := c];
    forall h | h in live
      ensures h != head && Apart(live[h].ids, rest) && Apart(c.ids, live[h].ids)
    {
      assert OwnedChain(n, free, h, live[h].ids) && h in live[h].ids;
      assert head in c.ids;
    }
    assert forall x :: x in c.ids || x in rest ==> 0 <= x < n;
    assert forall i :: 0 <= i < |c.ids| ==> c.ids[i] in c.ids;
    assert forall i :: 0 <= i < |rest| ==> rest[i] in rest;
    forall h | h in live'
      ensures OwnedChain(n, rest, h, live'[h].ids)
    {
      assert h != head ==> OwnedChain(n, free, h, live[h].ids);
    }
    forall x | 0 <= x < n && x !in rest
      ensures exists h :: h in live' && x in live'[h].ids
    {
      if x in c.ids {
        assert x in live'[head].ids;
      } else {
        var h :| h in live && x in live[h].ids;
        assert h in live' && x in live'[h].ids;
      }
    }
  }

  lemma AddOwnership(s: System, data: seq<Descriptor>)
    requires Ownership(|s.desc|, s.free, s.hist.live) && CanAdd(s, data)
    ensures NewIds(s.free, |data|)[0] !in s.hist.live
    ensures Ownership(|s.desc|, s.free[|data|..], AddStep(s, data).hist.live)
  {
    var n := |data|;
    NewIdsOk(s.free, n);
    assert s.free == s.free[..n] + s.free[n..];
    GiveChain(|s.desc|, s.free, s.hist.live, Chain(NewIds(s.free, n), data), s.free[n..]);
  }

  /** `add` leaves the cells of every other outstanding chain as they are. */
  lemma AddLeavesChains(s: System, data: seq<Descriptor>, h: nat)
    requires Ownership(|s.desc|, s.free, s.hist.live) && CanAdd(s, data) && h in s.hist.live
    ensures Contents(AddStep(s, data).desc, s.hist.live[h].ids) == Contents(s.desc, s.hist.live[h].ids)
  {
    var ids, c := NewIds(s.free, |data|), s.hist.live[h].ids;
    NewIdsOk(s.free, |data|);
    assert OwnedChain(|s.desc|, s.free, h, s.hist.live[h].ids);
    PlaceAt(s.desc, ids, data);
    forall i | 0 <= i < |c|
      ensures AddStep(s, data).desc[c[i]] == s.desc[c[i]]
    {
      assert c[i] in c && c[i] !in s.free;
      assert s.free == s.free[..|data|] + s.free[|data|..];
    }
  }

  /** A chain whose cells are unchanged is still stored. */
  lemma StoredSame(d: seq<Descriptor>, e: seq<Descriptor>, c: Chain)
    requires |d| == |e| && StoredChain(d, c)
    requires Contents(e, c.ids) == Contents(d, c.ids)
    ensures StoredChain(e, c)
  {
    forall j | 0 <= j < |c.ids|
      ensures e[c.ids[j]] == d[c.ids[j]]
    {
      assert Contents(e, c.ids)[j] == Contents(d, c.ids)[j];
    }
  }

  lemma AddStored(s: System, data: seq<Descriptor>)
    requires Ownership(|s.desc|, s.free, s.hist.live)
    requires Stored(s.desc, s.hist.live) && CanAdd(s, data) && WellFlagged(data)
    ensures Stored(AddStep(s, data).desc, AddStep(s, data).hist.live)
  {
    var t := AddStep(s, data);
    var ids := NewIds(s.free, |data|);
    NewIdsOk(s.free, |data|);
    ChainRoundTrip(s.desc, ids, data);
    forall h | h in t.hist.live
      ensures StoredChain(t.desc, t.hist.live[h])
    {
      if h != ids[0] {
        assert StoredChain(s.desc, s.hist.live[h]);
        AddLeavesChains(s, data, h);
        StoredSame(s.desc, t.desc, s.hist.live[h]);
      }
    }
  }

  /** Heads the device has not fetched yet, followed by a head that is not outstanding, are distinct
      descriptors: the available ring has space for that head. */
  lemma AvailSpace(s: System, head: u16)
    requires s.Shape() && Ownership(|s.desc|, s.free, s.hist.live) && AvailOk(s) && Staged(s)
    requires head < |s.desc| && head !in s.hist.live
    ensures |s.hist.heads| < |s.dev.fetched| + |s.desc|
  {
    var n := |s.dev.fetched|;
    var w := s.hist.heads[n..] + [head];
    forall i | 0 <= i < |w|
      ensures 0 <= w[i] < |s.desc|
      ensures i < |w| - 1 ==> AtStage(s, w[i], Queued(n + i))
    {
      if i < |w| - 1 {
        assert w[i] == s.hist.heads[n + i];
        assert OwnedChain(|s.desc|, s.free, w[i], s.hist.live[w[i]].ids);
      }
    }
    Pigeonhole(w, |s.desc|);
  }

  /** The push finds the slot of the new head and loses no head the device has yet to fetch. */
  lemma AddAvail(s: System, data: seq<Descriptor>)
    requires s.Shape() && AvailOk(s) && CanAdd(s, data)
    requires |s.hist.heads| < |s.dev.fetched| + |s.desc|
    ensures AvailOk(AddStep(s, data))
  {
    var head := NewIds(s.free, |data|)[0];
    SlotOfIndex(|s.hist.heads|, |s.desc|);
    MirrorsPush(s.availRing, s.hist.heads, |s.dev.fetched|, s.availIdx % |s.availRing|, head);
    LowAdd(|s.hist.heads|, 1);
  }

  lemma AddStaged(s: System, data: seq<Descriptor>)
    requires AvailOk(s) && Staged(s) && CanAdd(s, data)
    requires NewIds(s.free, |data|)[0] !in s.hist.live
    ensures Staged(AddStep(s, data))
  {
    var t := AddStep(s, data);
    var head := NewIds(s.free, |data|)[0];
    forall h | h in t.hist.stage
      ensures StageOk(t, h, t.hist.stage[h])
    {
      if h != head {
        assert StageOk(s, h, s.hist.stage[h]);
      }
    }
    forall p | |t.dev.fetched| <= p < |t.hist.heads|
      ensures AtStage(t, t.hist.heads[p], Queued(p))
    {
      if p < |s.hist.heads| {
        assert AtStage(s, s.hist.heads[p], Queued(p));
      }
    }
    forall k: nat | Unread(t, k)
      ensures AtStage(t, t.hist.used[k].id, Done(k))
    {
      assert Unread(s, k);
    }
    forall h | h in t.dev.held
      ensures AtStage(t, h, Held)
    {
      assert AtStage(s, h, Held);
    }
  }

  lemma AddKeepsCore(s: System, data: seq<Descriptor>)
    requires Core(s) && CanAdd(s, data) && WellFlagged(data)
    ensures Core(AddStep(s, data))
  {
    AddOwnership(s, data);
    AddStored(s, data);
    AvailSpace(s, NewIds(s.free, |data|)[0]);
    AddAvail(s, data);
    AddStaged(s, data);
    FaithfulGrows(s, AddStep(s, data));
  }

  lemma AddKeeps(s: System, data: seq<Descriptor>)
    requires Inv(s) && CanAdd(s, data) && WellFlagged(data)
    ensures Inv(AddStep(s, data))
  {
    AddKeepsCore(s, data);
  }

  /** What the device has read stays faithful while the submission log grows. */
  lemma FaithfulGrows(s: System, t: System)
    requires AvailOk(s) && Faithful(s)
    requires t.dev.fetched == s.dev.fetched
    requires s.hist.heads <= t.hist.heads && s.hist.added <= t.hist.added
    ensures Faithful(t)
  {
  }

  // ---------------------------------------------------------------- device steps

  /** What the device fetches next is the oldest head it has not fetched, and its walk yields the
      buffers submitted under that head. */
  lemma TakeReads(s: System)
    requires s.Shape() && Ownership(|s.desc|, s.free, s.hist.live) && Stored(s.desc, s.hist.live)
    requires AvailOk(s) && Staged(s) && DeviceMay(s, Take)
    ensures |s.dev.fetched| < |s.hist.heads|
    ensures s.availRing[Low16(|s.dev.fetched|) % |s.availRing|] == s.hist.heads[|s.dev.fetched|]
    ensures AtStage(s, s.hist.heads[|s.dev.fetched|], Queued(|s.dev.fetched|))
    ensures Walk(s.desc, s.hist.heads[|s.dev.fetched|], |s.desc|) == s.hist.live[s.hist.heads[|s.dev.fetched|]].ids
    ensures StoredChain(s.desc, s.hist.live[s.hist.heads[|s.dev.fetched|]])
    ensures s.hist.live[s.hist.heads[|s.dev.fetched|]].buffers == s.hist.added[|s.dev.fetched|]
  {
    var n := |s.dev.fetched|;
    SlotOfIndex(n, |s.desc|);
    var h := s.hist.heads[n];
    assert AtStage(s, h, Queued(n)) && StageOk(s, h, s.hist.stage[h]);
    WalkOfLive(s, h);
  }

  lemma TakeStaged(s: System, h: u16)
    requires Staged(s) && DeviceMay(s, Take)
    requires h == s.availRing[Low16(|s.dev.fetched|) % |s.availRing|]
    requires AtStage(s, h, Queued(|s.dev.fetched|))
    ensures Staged(DeviceStep(s, Take))
  {
    var t := DeviceStep(s, Take);
    forall g | g in t.hist.stage
      ensures StageOk(t, g, t.hist.stage[g])
    {
      assert StageOk(s, g, s.hist.stage[g]);
      assert g != h && s.hist.stage[g].Queued? ==> s.hist.stage[g].pos != |s.dev.fetched|;
    }
    forall k: nat | Unread(t, k)
      ensures AtStage(t, t.hist.used[k].id, Done(k))
    {
      assert Unread(s, k) && AtStage(s, s.hist.used[k].id, Done(k));
    }
    forall p | |t.dev.fetched| <= p < |t.hist.heads|
      ensures AtStage(t, t.hist.heads[p], Queued(p))
    {
      assert AtStage(s, s.hist.heads[p], Queued(p));
    }
    forall g | g in t.dev.held
      ensures AtStage(t, g, Held)
    {
      assert g != h ==> AtStage(s, g, Held);
    }
  }

  /** What the device fetches next is what was submitted next. */
  lemma TakeFetches(s: System)
    requires Core(s) && DeviceMay(s, Take)
    ensures var n, t := |s.dev.fetched|, DeviceStep(s, Take);
      && n < |s.hist.heads| && n < |s.hist.added|
      && exists f: Fetch ::
           t.dev.fetched == s.dev.fetched + [f] && f.head == s.hist.heads[n] && SameBuffers(f.buffers, s.hist.added[n])
  {
    var n, t := |s.dev.fetched|, DeviceStep(s, Take);
    TakeReads(s);
    var f := t.dev.fetched[n];
    assert t.dev.fetched == s.dev.fetched + [f];
  }

  lemma TakeFaithful(s: System)
    requires Core(s) && DeviceMay(s, Take)
    ensures Faithful(DeviceStep(s, Take))
  {
    TakeFetches(s);
    var t := DeviceStep(s, Take);
    var f: Fetch :| t.dev.fetched == s.dev.fetched + [f] && f.head == s.hist.heads[|s.dev.fetched|]
      && SameBuffers(f.buffers, s.hist.added[|s.dev.fetched|]);
    FaithfulPush(s, t, f);
  }

  lemma FaithfulPush(s: System, t: System, f: Fetch)
    requires Faithful(s) && |s.dev.fetched| < |s.hist.heads| && |s.dev.fetched| < |s.hist.added|
    requires t.hist.heads == s.hist.heads && t.hist.added == s.hist.added && t.dev.fetched == s.dev.fetched + [f]
    requires f.head == s.hist.heads[|s.dev.fetched|] && SameBuffers(f.buffers, s.hist.added[|s.dev.fetched|])
    ensures Faithful(t)
  {
  }

  lemma TakeKeepsCore(s: System)
    requires Core(s) && DeviceMay(s, Take)
    ensures Core(DeviceStep(s, Take))
  {
    TakeReads(s);
    TakeStaged(s, s.hist.heads[|s.dev.fetched|]);
    TakeFaithful(s);
  }

  /** A completion that finds room overwrites no entry the driver has yet to pass. */
  lemma CompleteUsed(s: System, id: u16, written: u32)
    requires s.Shape() && UsedOk(s) && DeviceMay(s, Complete(id, written)) && Room(s)
    ensures UsedOk(DeviceStep(s, Complete(id, written)))
  {
    SlotOfIndex(|s.hist.used|, |s.desc|);
    MirrorsPush(s.usedRing, s.hist.used, s.hist.cursor, s.usedIdx % |s.usedRing|, UsedElem(id, written));
    LowAdd(|s.hist.used|, 1);
  }

  lemma CompleteKeepsCore(s: System, id: u16, written: u32)
    requires Core(s) && DeviceMay(s, Complete(id, written))
    ensures Core(DeviceStep(s, Complete(id, written)))
  {
    CompleteStaged(s, id, written);
    HeldBelow(s, id);
    CompleteNamed(s, id, written);
    CoreSame(s, DeviceStep(s, Complete(id, written)));
  }

  lemma HeldBelow(s: System, id: nat)
    requires Ownership(|s.desc|, s.free, s.hist.live) && Staged(s) && id in s.dev.held
    ensures id < |s.desc|
  {
    assert AtStage(s, id, Held);
    assert id in s.hist.live.Keys;
    assert OwnedChain(|s.desc|, s.free, id, s.hist.live[id].ids);
  }

  lemma CompleteNamed(s: System, id: u16, written: u32)
    requires Logged(s) && Named(s.hist.used, |s.desc|) && id < |s.desc| && DeviceMay(s, Complete(id, written))
    ensures var t := DeviceStep(s, Complete(id, written)); Logged(t) && Named(t.hist.used, |s.desc|)
  {
  }

  /** A step of the device that takes no chain. */
  lemma CoreSame(s: System, t: System)
    requires Core(s) && Logged(t) && Named(t.hist.used, |s.desc|) && Staged(t)
    requires t.desc == s.desc && t.availIdx == s.availIdx && t.availRing == s.availRing
    requires |t.usedRing| == |s.usedRing| && t.free == s.free
    requires t.dev.fetched == s.dev.fetched && t.hist.heads == s.hist.heads
    requires t.hist.added == s.hist.added && t.hist.live == s.hist.live
    ensures Core(t)
  {
    FaithfulGrows(s, t);
  }

  lemma CompleteStaged(s: System, id: u16, written: u32)
    requires Logged(s) && Staged(s) && DeviceMay(s, Complete(id, written))
    ensures Staged(DeviceStep(s, Complete(id, written)))
  {
    var t := DeviceStep(s, Complete(id, written));
    assert AtStage(s, id, Held);
    forall g | g in t.hist.stage
      ensures StageOk(t, g, t.hist.stage[g])
    {
      assert StageOk(s, g, s.hist.stage[g]);
    }
    forall k: nat | Unread(t, k)
      ensures AtStage(t, t.hist.used[k].id, Done(k))
    {
      if k < |s.hist.used| {
        assert Unread(s, k) && AtStage(s, s.hist.used[k].id, Done(k));
      }
    }
    forall p | |t.dev.fetched| <= p < |t.hist.heads|
      ensures AtStage(t, t.hist.heads[p], Queued(p))
    {
      assert AtStage(s, s.hist.heads[p], Queued(p));
    }
  }

  lemma FlagsKeepCore(s: System, f: u16)
    requires Core(s)
    ensures Core(DeviceStep(s, SetFlags(f)))
  {
    var t := DeviceStep(s, SetFlags(f));
    StagedSame(s, t);
  }

  /** `Staged` does not depend on the memory. */
  lemma StagedSame(s: System, t: System)
    requires Staged(s) && t.dev == s.dev && t.hist == s.hist
    ensures Staged(t)
  {
    forall h | h in t.hist.stage
      ensures StageOk(t, h, t.hist.stage[h])
    {
      assert StageOk(s, h, s.hist.stage[h]);
    }
    forall k: nat | Unread(t, k)
      ensures AtStage(t, t.hist.used[k].id, Done(k))
    {
      assert Unread(s, k) && AtStage(s, s.hist.used[k].id, Done(k));
    }
    forall p | |t.dev.fetched| <= p < |t.hist.heads|
      ensures AtStage(t, t.hist.heads[p], Queued(p))
    {
      assert AtStage(s, s.hist.heads[p], Queued(p));
    }
    forall h | h in t.dev.held
      ensures AtStage(t, h, Held)
    {
      assert AtStage(s, h, Held);
    }
  }

  /** Every step of a conforming device keeps what does not depend on the used ring. */
  lemma DeviceKeepsCore(s: System, a: DeviceAct)
    requires Core(s) && DeviceMay(s, a)
    ensures Core(DeviceStep(s, a))
  {
    match a
    case Take => TakeKeepsCore(s);
    case Complete(id, written) => CompleteKeepsCore(s, id, written);
    case SetFlags(f) => FlagsKeepCore(s, f);
  }

  lemma DeviceUsed(s: System, a: DeviceAct)
    requires s.Shape() && UsedOk(s) && DeviceMay(s, a)
    ensures UsedOk(DeviceStep(s, a)) <==> (a.Complete? ==> Room(s))
  {
    if a.Complete? && Room(s) {
      CompleteUsed(s, a.id, a.written);
    }
  }

  /** A device step keeps the whole invariant if and only if it is not a completion without room. */
  lemma DeviceKeeps(s: System, a: DeviceAct)
    requires Inv(s) && DeviceMay(s, a)
    ensures Inv(DeviceStep(s, a)) <==> (a.Complete? ==> Room(s))
  {
    DeviceKeepsCore(s, a);
    DeviceUsed(s, a);
  }

  // ---------------------------------------------------------------- pop

  /** Scanning the ring by wrapped indices finds the first matching entry of the log. */
  lemma {:induction false} ScanLog(ring: seq<UsedElem>, log: seq<UsedElem>, lo: nat, at: nat, n: nat, id: nat)
    requires Mirrors(ring, log, lo) && Accepted(|ring|)
    requires lo <= at && at + n <= |log|
    ensures var i := Scan(ring, Low16(at), n, id);
      && (i < n ==> log[at + i].id == id)
      && (forall j :: at <= j < at + i ==> log[j].id != id)
    decreases n
  {
    if n > 0 {
      SlotOfIndex(at, |ring|);
      LowAdd(at, 1);
      if log[at].id != id {
        ScanLog(ring, log, lo, at + 1, n - 1, id);
      }
    }
  }

  /** The position of the used entry that `pop_used` picks for `id`. */
  ghost function Match(s: System, id: nat): nat {
    if 0 < |s.usedRing| then s.hist.cursor + Scan(s.usedRing, s.last, Window(s), id) else 0
  }

  lemma MatchOk(s: System, id: nat)
    requires s.Shape() && UsedOk(s)
    ensures Window(s) == |s.hist.used| - s.hist.cursor
    ensures CanPop(s, id) <==> Match(s, id) < |s.hist.used|
    ensures CanPop(s, id) ==> s.hist.used[Match(s, id)].id == id
    ensures CanPop(s, id) ==> Header(s, id) == Low16(Match(s, id))
    ensures CanPop(s, id) ==> PopLen(s, id) == s.hist.used[Match(s, id)].len
    ensures forall k :: s.hist.cursor <= k < Match(s, id) ==> s.hist.used[k].id != id
    ensures s.hist.cursor <= Match(s, id) <= |s.hist.used|
  {
    AcceptedBound(|s.desc|);
    LowSub(s.hist.cursor, |s.hist.used|);
    ScanLog(s.usedRing, s.hist.used, s.hist.cursor, s.hist.cursor, Window(s), id);
    LowAdd(s.hist.cursor, Match(s, id) - s.hist.cursor);
    SlotOfIndex(Match(s, id), |s.desc|);
  }

  /** `AdvancePos` stops at the least position that is not read and forgets the ones it passed. */
  lemma {:induction false} AdvancePosOk(cursor: nat, read: set<nat>)
    ensures var (c, r) := AdvancePos(cursor, read);
      && cursor <= c && c !in read
      && (forall k :: cursor <= k < c ==> k in read)
      && (forall k :: k in r <==> k in read && !(cursor <= k < c))
    decreases read
  {
    if cursor in read {
      AdvancePosOk(cursor + 1, read - {cursor});
    }
  }

  /** The catch-up loop on 16-bit indices does what `AdvancePos` does on positions. */
  lemma {:induction false} AdvanceMatches(cursor: nat, read: set<nat>)
    requires forall k :: k in read ==> cursor <= k < cursor + 0x1_0000
    ensures var (c, r) := AdvancePos(cursor, read);
      Advance(Low16(cursor), Lows(read)) == (Low16(c), Lows(r))
    decreases read
  {
    LowsHas(cursor, read);
    if cursor in read {
      var rest := read - {cursor};
      assert Lows(rest) == Lows(read) - {Low16(cursor)} by {
        LowsHas(cursor, rest);
        assert read == rest + {cursor};
      }
      LowAdd(cursor, 1);
      AdvanceMatches(cursor + 1, rest);
    }
  }

  lemma LowsHas(cursor: nat, read: set<nat>)
    requires forall k :: k in read ==> cursor <= k < cursor + 0x1_0000
    ensures Low16(cursor) in Lows(read) <==> cursor in read
  {
    if Low16(cursor) in Lows(read) {
      var k :| k in read && Low16(k) == Low16(cursor);
      LowInjective(cursor, k);
    }
  }

  /** The driver's 16-bit cursor and set after a pop stand for the positions. */
  lemma PopCursor(s: System, id: nat)
    requires s.Shape() && UsedOk(s) && CanPop(s, id)
    ensures var t := PopStep(s, id);
      && (t.hist.cursor, t.hist.read) == AdvancePos(s.hist.cursor, s.hist.read + {Match(s, id)})
      && t.last == Low16(t.hist.cursor) && t.popped == Lows(t.hist.read)
  {
    MatchOk(s, id);
    AcceptedBound(|s.desc|);
    var read := s.hist.read + {Match(s, id)};
    assert Lows(read) == s.popped + {Header(s, id)};
    AdvanceMatches(s.hist.cursor, read);
  }

  lemma PopUsedOk(s: System, id: nat)
    requires s.Shape() && UsedOk(s) && CanPop(s, id)
    ensures UsedOk(PopStep(s, id))
    ensures var t := PopStep(s, id);
      forall k: nat :: Unread(t, k) <==> Unread(s, k) && k != Match(s, id)
  {
    var t := PopStep(s, id);
    MatchOk(s, id);
    AcceptedBound(|s.desc|);
    var read := s.hist.read + {Match(s, id)};
    PopCursor(s, id);
    AdvancePosOk(s.hist.cursor, read);
    assert t.hist.cursor > s.hist.cursor ==> t.hist.cursor - 1 in read;
  }

  /** Appending a chain to the free list keeps the partition. */
  lemma ReturnChain(n: nat, free: seq<u16>, live: map<nat, Chain>, h: nat)
    requires Ownership(n, free, live) && h in live
    ensures Ownership(n, free + live[h].ids, live - {h})
  {
    var ids, live' := live[h].ids, live - {h};
    var free' := free + ids;
    assert OwnedChain(n, free, h, ids);
    forall i, j | 0 <= i < j < |free'|
      ensures free'[i] != free'[j]
    {
      if i < |free| <= j {
        assert ids[j - |free|] in ids;
      }
    }
    forall g | g in live'
      ensures OwnedChain(n, free', g, live'[g].ids)
    {
      assert OwnedChain(n, free, g, live[g].ids);
    }
    forall x | 0 <= x < n && x !in free'
      ensures exists g :: g in live' && x in live'[g].ids
    {
      var g :| g in live && x in live[g].ids;
      assert g in live' && x in live'[g].ids;
    }
  }

  lemma PopOwnership(s: System, id: nat)
    requires s.Shape() && Ownership(|s.desc|, s.free, s.hist.live) && Stored(s.desc, s.hist.live)
    requires id in s.hist.live && CanPop(s, id)
    ensures PopStep(s, id).free == s.free + s.hist.live[id].ids
    ensures Ownership(|s.desc|, PopStep(s, id).free, PopStep(s, id).hist.live)
    ensures Stored(s.desc, PopStep(s, id).hist.live)
  {
    WalkOfLive(s, id);
    ReturnChain(|s.desc|, s.free, s.hist.live, id);
  }

  lemma PopStaged(s: System, id: nat)
    requires s.Shape() && UsedOk(s) && Staged(s) && CanPop(s, id) && Match(s, id) !in s.hist.read
    ensures AtStage(s, id, Done(Match(s, id)))
    ensures Staged(PopStep(s, id))
  {
    var t := PopStep(s, id);
    MatchOk(s, id);
    PopUsedOk(s, id);
    assert Unread(s, Match(s, id));
    forall h | h in t.hist.stage
      ensures StageOk(t, h, t.hist.stage[h])
    {
      assert StageOk(s, h, s.hist.stage[h]);
    }
    forall k: nat | Unread(t, k)
      ensures AtStage(t, t.hist.used[k].id, Done(k))
    {
      assert Unread(s, k) && AtStage(s, s.hist.used[k].id, Done(k));
    }
    forall p | |t.dev.fetched| <= p < |t.hist.heads|
      ensures AtStage(t, t.hist.heads[p], Queued(p))
    {
      assert AtStage(s, s.hist.heads[p], Queued(p));
    }
    forall h | h in t.dev.held
      ensures AtStage(t, h, Held)
    {
      assert AtStage(s, h, Held);
    }
  }

  /** Popping an entry that was not popped before keeps the invariant, whatever its place in the
      window. */
  lemma PopKeeps(s: System, id: nat)
    requires Inv(s) && CanPop(s, id) && Match(s, id) !in s.hist.read
    ensures Inv(PopStep(s, id))
  {
    PopUsedOk(s, id);
    PopStaged(s, id);
    PopOwnership(s, id);
  }
}
