/** Device steps that happen while a driver call is under way. */
module Interference {
  import opened Wrap
  import opened Sequences
  import opened QueueModel
  import opened QueueProofs
  import opened QueueRuns
  import opened QueueTheorems
  import opened Endings

  // ---------------------------------------------------------------- device runs and paths

  /** A conforming device takes a step if it may, and otherwise does nothing; so every list of steps is one
      that it can be given. */
  function DeviceTry(s: System, a: DeviceAct): System {
    if DeviceMay(s, a) then DeviceStep(s, a) else s
  }

  /** Step `i` of a conforming device, between states `tr[i]` and `tr[i + 1]`. */
  ghost predicate DeviceTurn(tr: seq<System>, acts: seq<DeviceAct>, i: nat) {
    i < |acts| && |tr| == |acts| + 1 && DeviceTry(tr[i], acts[i]) == tr[i + 1]
  }

  /** The same, and a completion finds room. */
  ghost predicate Turn(tr: seq<System>, acts: seq<DeviceAct>, i: nat) {
    DeviceTurn(tr, acts, i) && (acts[i].Complete? && DeviceMay(tr[i], acts[i]) ==> Room(tr[i]))
  }

  ghost predicate DeviceTrace(tr: seq<System>, acts: seq<DeviceAct>) {
    |tr| == |acts| + 1 && forall i: nat :: i < |acts| ==> DeviceTurn(tr, acts, i)
  }

  ghost predicate Trace(tr: seq<System>, acts: seq<DeviceAct>) {
    |tr| == |acts| + 1 && forall i: nat :: i < |acts| ==> Turn(tr, acts, i)
  }

  /** A conforming device that takes the steps `acts` leads from `u` to `v`. */
  ghost predicate DeviceMoves(u: System, acts: seq<DeviceAct>, v: System) {
    exists tr: seq<System> :: DeviceTrace(tr, acts) && tr[0] == u && tr[|acts|] == v
  }

  /** The same, and every completion finds room. */
  ghost predicate Moves(u: System, acts: seq<DeviceAct>, v: System) {
    exists tr: seq<System> :: Trace(tr, acts) && tr[0] == u && tr[|acts|] == v
  }

  /** What the device does at each of the points where a driver call touches shared memory. */
  type Schedule = seq<seq<DeviceAct>>

  function At(sched: Schedule, point: nat): seq<DeviceAct> {
    if point < |sched| then sched[point] else []
  }

  /** The queue at every point of a call, were the driver to do nothing. */
  type Path = imap<nat, System>

  /** A conforming device leads from one point to the next. */
  ghost predicate DeviceHop(path: Path, sched: Schedule, at: nat) {
    at in path && at + 1 in path && DeviceMoves(path[at], At(sched, at), path[at + 1])
  }

  /** The same, and every completion finds room. */
  ghost predicate Hop(path: Path, sched: Schedule, at: nat) {
    DeviceHop(path, sched, at) && Moves(path[at], At(sched, at), path[at + 1])
  }

  /** A conforming device leads along the path from point `lo` to point `hi`; what the schedule holds for
      later points does not matter. */
  ghost predicate DeviceLeads(path: Path, sched: Schedule, lo: nat, hi: nat) {
    && (forall at: nat :: at in path)
    && (forall at: nat :: lo <= at < hi ==> DeviceHop(path, sched, at))
  }

  /** The same, and every completion finds room. */
  ghost predicate Leads(path: Path, sched: Schedule, lo: nat, hi: nat) {
    && (forall at: nat :: at in path)
    && (forall at: nat :: lo <= at < hi ==> Hop(path, sched, at))
  }

  /** A conforming device leads along the path from point `lo` on. */
  ghost predicate DeviceFollows(path: Path, sched: Schedule, lo: nat) {
    && (forall at: nat :: at in path)
    && (forall at: nat :: lo <= at ==> DeviceHop(path, sched, at))
  }

  /** The same, and every completion finds room. */
  ghost predicate Follows(path: Path, sched: Schedule, lo: nat) {
    && (forall at: nat :: at in path)
    && (forall at: nat :: lo <= at ==> Hop(path, sched, at))
  }

  /** A conforming device leads along the path from point `lo` on.  Only where the driver has popped
      completions ahead of the cursor does it take care to find room. */
  ghost predicate Guided(path: Path, sched: Schedule, lo: nat) {
    DeviceFollows(path, sched, lo) && (path[lo].hist.read == {} || Follows(path, sched, lo))
  }

  lemma GuidedFollows(path: Path, sched: Schedule, lo: nat)
    requires Guided(path, sched, lo) && Inv(path[lo])
    ensures Follows(path, sched, lo)
  {
    if path[lo].hist.read == {} {
      RoomAlways(path, sched, lo);
    }
  }

  /** Where a conforming device leads that is given the steps `acts`. */
  ghost function Tries(s: System, acts: seq<DeviceAct>): System
    decreases |acts|
  {
    if acts == [] then s else DeviceTry(Tries(s, acts[..|acts| - 1]), acts[|acts| - 1])
  }

  ghost function TryTrace(s: System, acts: seq<DeviceAct>): (tr: seq<System>)
    ensures |tr| == |acts| + 1 && forall i :: 0 <= i <= |acts| ==> tr[i] == Tries(s, acts[..i])
  {
    seq(|acts| + 1, i requires 0 <= i <= |acts| => Tries(s, acts[..i]))
  }

  lemma TriesMoves(s: System, acts: seq<DeviceAct>)
    ensures DeviceMoves(s, acts, Tries(s, acts))
  {
    var tr := TryTrace(s, acts);
    forall i: nat | i < |acts|
      ensures DeviceTurn(tr, acts, i)
    {
      assert acts[..i + 1][..i] == acts[..i];
    }
    assert acts[..|acts|] == acts;
    assert DeviceTrace(tr, acts);
  }

  ghost function StateAt(s: System, sched: Schedule, lo: nat, at: nat): System
    decreases at
  {
    if at <= lo then s else Tries(StateAt(s, sched, lo, at - 1), At(sched, at - 1))
  }

  /** Every schedule leads along a path from every state. */
  ghost function PathFrom(s: System, sched: Schedule, lo: nat): (path: Path)
    ensures DeviceFollows(path, sched, lo) && path[lo] == s && forall at: nat :: path[at] == StateAt(s, sched, lo, at)
  {
    var path: Path := imap at: nat | 0 <= at :: StateAt(s, sched, lo, at);
    assert forall at: nat :: lo <= at ==> DeviceHop(path, sched, at) by {
      forall at: nat | lo <= at
        ensures DeviceHop(path, sched, at)
      {
        TriesMoves(path[at], At(sched, at));
      }
    }
    path
  }

  /** With nothing popped ahead of the cursor, a conforming device always finds room. */
  lemma TurnHasRoom(tr: seq<System>, acts: seq<DeviceAct>, i: nat)
    requires DeviceTurn(tr, acts, i) && Inv(tr[i]) && tr[i].hist.read == {}
    ensures Turn(tr, acts, i) && Inv(tr[i + 1]) && Later(tr[i], tr[i + 1])
  {
    if DeviceMay(tr[i], acts[i]) {
      if acts[i].Complete? {
        RoomForHeld(tr[i], acts[i].id);
      }
      DeviceKeeps(tr[i], acts[i]);
    }
  }

  lemma {:induction false} TraceHasRoom(tr: seq<System>, acts: seq<DeviceAct>, i: nat)
    requires DeviceTrace(tr, acts) && i <= |acts| && Inv(tr[0]) && tr[0].hist.read == {}
    ensures Inv(tr[i]) && Later(tr[0], tr[i])
  {
    if i > 0 {
      TraceHasRoom(tr, acts, i - 1);
      assert DeviceTurn(tr, acts, i - 1);
      TurnHasRoom(tr, acts, i - 1);
    }
  }

  lemma MovesHaveRoom(u: System, acts: seq<DeviceAct>, v: System)
    requires Inv(u) && u.hist.read == {} && DeviceMoves(u, acts, v)
    ensures Moves(u, acts, v) && Inv(v) && Later(u, v)
  {
    var tr: seq<System> :| DeviceTrace(tr, acts) && tr[0] == u && tr[|acts|] == v;
    forall i: nat | i < |acts|
      ensures Turn(tr, acts, i)
    {
      TraceHasRoom(tr, acts, i);
      assert DeviceTurn(tr, acts, i);
      TurnHasRoom(tr, acts, i);
    }
    TraceHasRoom(tr, acts, |acts|);
    assert Trace(tr, acts);
  }

  lemma {:induction false} PathHasRoom(path: Path, sched: Schedule, lo: nat, at: nat)
    requires DeviceFollows(path, sched, lo) && lo <= at && Inv(path[lo]) && path[lo].hist.read == {}
    ensures Inv(path[at]) && Later(path[lo], path[at]) && Hop(path, sched, at)
    decreases at
  {
    if lo < at {
      PathHasRoom(path, sched, lo, at - 1);
      MovesKeeps(path[at - 1], At(sched, at - 1), path[at]);
    }
    assert DeviceHop(path, sched, at);
    MovesHaveRoom(path[at], At(sched, at), path[at + 1]);
  }

  lemma RoomAlways(path: Path, sched: Schedule, lo: nat)
    requires DeviceFollows(path, sched, lo) && Inv(path[lo]) && path[lo].hist.read == {}
    ensures Follows(path, sched, lo)
  {
    forall at: nat | lo <= at
      ensures Hop(path, sched, at)
    {
      PathHasRoom(path, sched, lo, at);
    }
  }

  lemma {:induction false} TraceKeeps(tr: seq<System>, acts: seq<DeviceAct>, i: nat)
    requires Trace(tr, acts) && i <= |acts| && Inv(tr[0])
    ensures Inv(tr[i]) && Later(tr[0], tr[i])
  {
    if i > 0 {
      TraceKeeps(tr, acts, i - 1);
      assert Turn(tr, acts, i - 1);
      if DeviceMay(tr[i - 1], acts[i - 1]) {
        DeviceKeeps(tr[i - 1], acts[i - 1]);
      }
    }
  }

  lemma MovesKeeps(u: System, acts: seq<DeviceAct>, v: System)
    requires Inv(u) && Moves(u, acts, v)
    ensures Inv(v) && Later(u, v)
  {
    var tr: seq<System> :| Trace(tr, acts) && tr[0] == u && tr[|acts|] == v;
    TraceKeeps(tr, acts, |acts|);
  }

  lemma {:induction false} PathKeeps(path: Path, sched: Schedule, lo: nat, at: nat)
    requires Follows(path, sched, lo) && lo <= at && Inv(path[lo])
    ensures Inv(path[at]) && Later(path[lo], path[at])
    decreases at
  {
    if lo < at {
      PathKeeps(path, sched, lo, at - 1);
      assert Hop(path, sched, at - 1);
      MovesKeeps(path[at - 1], At(sched, at - 1), path[at]);
    }
  }

  lemma {:induction false} LeadsKeep(path: Path, sched: Schedule, lo: nat, hi: nat, at: nat)
    requires Leads(path, sched, lo, hi) && lo <= at <= hi && Inv(path[lo])
    ensures Inv(path[at]) && Later(path[lo], path[at])
    decreases at
  {
    if lo < at {
      LeadsKeep(path, sched, lo, hi, at - 1);
      assert Hop(path, sched, at - 1);
      MovesKeeps(path[at - 1], At(sched, at - 1), path[at]);
    }
  }

  lemma PathLater(path: Path, sched: Schedule, lo: nat, mid: nat, hi: nat)
    requires Follows(path, sched, lo) && lo <= mid <= hi && Inv(path[lo])
    ensures Later(path[mid], path[hi])
  {
    PathKeeps(path, sched, lo, mid);
    PathKeeps(path, sched, mid, hi);
  }

  lemma {:induction false} TraceKeepsCore(tr: seq<System>, acts: seq<DeviceAct>, i: nat)
    requires DeviceTrace(tr, acts) && i <= |acts| && Core(tr[0])
    ensures Core(tr[i]) && Later(tr[0], tr[i])
  {
    if i > 0 {
      TraceKeepsCore(tr, acts, i - 1);
      assert DeviceTurn(tr, acts, i - 1);
      TryKeepsCore(tr[i - 1], acts[i - 1]);
    }
  }

  lemma TryKeepsCore(s: System, a: DeviceAct)
    requires Core(s)
    ensures Core(DeviceTry(s, a)) && Later(s, DeviceTry(s, a))
  {
    if DeviceMay(s, a) {
      DeviceKeepsCore(s, a);
    }
  }

  lemma MovesKeepCore(u: System, acts: seq<DeviceAct>, v: System)
    requires Core(u) && DeviceMoves(u, acts, v)
    ensures Core(v) && Later(u, v)
  {
    var tr: seq<System> :| DeviceTrace(tr, acts) && tr[0] == u && tr[|acts|] == v;
    TraceKeepsCore(tr, acts, |acts|);
  }

  lemma {:induction false} PathKeepsCore(path: Path, sched: Schedule, lo: nat, hi: nat, at: nat)
    requires DeviceLeads(path, sched, lo, hi) && lo <= at <= hi && Core(path[lo])
    ensures Core(path[at]) && Later(path[lo], path[at])
    decreases at
  {
    if lo < at {
      PathKeepsCore(path, sched, lo, hi, at - 1);
      assert DeviceHop(path, sched, at - 1);
      MovesKeepCore(path[at - 1], At(sched, at - 1), path[at]);
    }
  }

  /** With nothing popped ahead of the cursor the whole invariant survives. */
  lemma {:induction false} PathKeepsInOrder(path: Path, sched: Schedule, lo: nat, hi: nat, at: nat)
    requires DeviceLeads(path, sched, lo, hi) && lo <= at <= hi && Inv(path[lo]) && path[lo].hist.read == {}
    ensures Inv(path[at]) && Later(path[lo], path[at])
    decreases at
  {
    if lo < at {
      PathKeepsInOrder(path, sched, lo, hi, at - 1);
      assert DeviceHop(path, sched, at - 1);
      MovesHaveRoom(path[at - 1], At(sched, at - 1), path[at]);
    }
  }

  // ---------------------------------------------------------------- writes the device cannot see

  /** Table `d` and ring `ar` differ from the ones in `s` only in free descriptors and in slots that
      hold no head the device has yet to fetch. */
  ghost predicate Hidden(s: System, d: seq<Descriptor>, ar: seq<u16>) {
    && |d| == |s.desc| && |ar| == |s.availRing| && 0 < |ar|
    && (forall x :: 0 <= x < |d| && x !in s.free ==> d[x] == s.desc[x])
    && (forall p :: |s.dev.fetched| <= p < |s.hist.heads| ==> ar[p % |ar|] == s.availRing[p % |ar|])
  }

  ghost function Overlay(s: System, d: seq<Descriptor>, ar: seq<u16>, free: seq<u16>): System {
    s.(desc := d, availRing := ar, free := free)
  }

  lemma SameCells(d: seq<Descriptor>, e: seq<Descriptor>, ids: seq<u16>)
    requires |d| == |e| && Linked(d, ids) && NoDup(ids)
    requires forall i :: 0 <= i < |ids| ==> e[ids[i]] == d[ids[i]]
    ensures Walk(e, ids[0], |e|) == ids && Contents(e, ids) == Contents(d, ids)
  {
    Pigeonhole(ids, |e|);
    WalkOfLinked(e, ids, |e|);
  }

  lemma HiddenTake(s: System, d: seq<Descriptor>, ar: seq<u16>)
    requires Core(s) && DeviceMay(s, Take) && Hidden(s, d, ar)
    ensures var h, g := s.availRing[Low16(|s.dev.fetched|) % |s.availRing|], ar[Low16(|s.dev.fetched|) % |ar|];
      && h == g
      && Walk(d, h, |d|) == Walk(s.desc, h, |s.desc|)
      && Below(Walk(d, h, |d|), |d|)
      && Contents(d, Walk(d, h, |d|)) == Contents(s.desc, Walk(d, h, |d|))
  {
    TakeReads(s);
    var n := |s.dev.fetched|;
    SlotOfIndex(n, |s.desc|);
    var h := s.hist.heads[n];
    var ids := s.hist.live[h].ids;
    assert OwnedChain(|s.desc|, s.free, h, ids);
    forall i | 0 <= i < |ids|
      ensures d[ids[i]] == s.desc[ids[i]]
    {
      assert ids[i] in ids;
    }
    SameCells(s.desc, d, ids);
  }

  /** Device steps commute with unpublished driver writes. */
  lemma HiddenStep(s: System, a: DeviceAct, d: seq<Descriptor>, ar: seq<u16>, free: seq<u16>)
    requires Core(s) && Hidden(s, d, ar)
    ensures DeviceTry(Overlay(s, d, ar, free), a) == Overlay(DeviceTry(s, a), d, ar, free)
  {
    if a.Take? && DeviceMay(s, a) {
      HiddenTake(s, d, ar);
    }
  }

  lemma HiddenTry(s: System, a: DeviceAct, d: seq<Descriptor>, ar: seq<u16>)
    requires Hidden(s, d, ar)
    ensures Hidden(DeviceTry(s, a), d, ar)
  {
  }

  lemma {:induction false} HiddenTrace(tr: seq<System>, acts: seq<DeviceAct>, i: nat, d: seq<Descriptor>, ar: seq<u16>)
    requires DeviceTrace(tr, acts) && i <= |acts| && Core(tr[0]) && Hidden(tr[0], d, ar)
    ensures Core(tr[i]) && Hidden(tr[i], d, ar)
  {
    if i > 0 {
      HiddenTrace(tr, acts, i - 1, d, ar);
      assert DeviceTurn(tr, acts, i - 1);
      TryKeepsCore(tr[i - 1], acts[i - 1]);
      HiddenTry(tr[i - 1], acts[i - 1], d, ar);
    }
  }

  /** A device run does the same with unpublished driver writes in memory. */
  lemma HiddenMoves(u: System, acts: seq<DeviceAct>, v: System, d: seq<Descriptor>, ar: seq<u16>, free: seq<u16>)
    requires Core(u) && DeviceMoves(u, acts, v) && Hidden(u, d, ar)
    ensures DeviceMoves(Overlay(u, d, ar, free), acts, Overlay(v, d, ar, free))
  {
    var tr: seq<System> :| DeviceTrace(tr, acts) && tr[0] == u && tr[|acts|] == v;
    var tr' := seq(|tr|, i requires 0 <= i < |tr| => Overlay(tr[i], d, ar, free));
    forall i: nat | i < |acts|
      ensures DeviceTurn(tr', acts, i)
    {
      HiddenTrace(tr, acts, i, d, ar);
      assert DeviceTurn(tr, acts, i);
      HiddenStep(tr[i], acts[i], d, ar, free);
    }
    assert DeviceTrace(tr', acts);
  }

  /** Storing a chain in free descriptors is hidden from the device. */
  lemma HiddenPlace(s: System, t: System, data: seq<Descriptor>, j: nat)
    requires s.Shape() && t.Shape() && Later(s, t) && CanAdd(s, data) && j <= |data|
    requires NoDup(s.free)
    ensures Hidden(t, Place(s.desc, NewIds(s.free, |data|), data, j), s.availRing)
  {
    AcceptedBound(|s.desc|);
    var ids := NewIds(s.free, |data|);
    NewIdsOk(s.free, |data|);
    forall x | 0 <= x < |s.desc| && x !in s.free
      ensures Place(s.desc, ids, data, j)[x] == s.desc[x]
    {
      assert x !in s.free[..|data|];
      PlaceElsewhere(s.desc, ids, data, j, x);
    }
  }

  /** Writing the next slot of the available ring is hidden until the index moves. */
  lemma HiddenPush(s: System, d: seq<Descriptor>, head: u16)
    requires Core(s) && Hidden(s, d, s.availRing)
    requires head < |s.desc| && head !in s.hist.live
    ensures Hidden(s, d, s.availRing[s.availIdx % |s.availRing| := head])
  {
    AvailSpace(s, head);
    var n := |s.desc|;
    SlotOfIndex(|s.hist.heads|, n);
    forall p | |s.dev.fetched| <= p < |s.hist.heads|
      ensures p % n != |s.hist.heads| % n
    {
      if p % n == |s.hist.heads| % n {
        SlotInjective(p, |s.hist.heads|, n);
      }
    }
  }

  // ---------------------------------------------------------------- the middle of an add

  /** State `u` with descriptors `j..` of a new chain stored; the add started in `s`. */
  ghost function Storing(s: System, data: seq<Descriptor>, u: System, j: nat): System
    requires CanAdd(s, data) && j <= |data|
  {
    Overlay(u, Place(s.desc, NewIds(s.free, |data|), data, j), s.availRing, s.free[|data| - j..])
  }

  /** The same once the head is in the ring but the index has not moved. */
  ghost function Ringed(s: System, data: seq<Descriptor>, u: System): System
    requires CanAdd(s, data)
  {
    Storing(s, data, u, 0).(availRing := s.availRing[s.availIdx % |s.availRing| := NewIds(s.free, |data|)[0]])
  }

  lemma StoringMoves(s: System, data: seq<Descriptor>, u: System, acts: seq<DeviceAct>, v: System, j: nat)
    requires Core(s) && CanAdd(s, data) && j <= |data| && Core(u) && Later(s, u) && DeviceMoves(u, acts, v)
    ensures DeviceMoves(Storing(s, data, u, j), acts, Storing(s, data, v, j))
  {
    HiddenPlace(s, u, data, j);
    HiddenMoves(u, acts, v, Place(s.desc, NewIds(s.free, |data|), data, j), s.availRing, s.free[|data| - j..]);
  }

  lemma RingedMoves(s: System, data: seq<Descriptor>, u: System, acts: seq<DeviceAct>, v: System)
    requires Core(s) && CanAdd(s, data) && Core(u) && Later(s, u) && DeviceMoves(u, acts, v)
    ensures DeviceMoves(Ringed(s, data, u), acts, Ringed(s, data, v))
  {
    var d, head := Place(s.desc, NewIds(s.free, |data|), data, 0), NewIds(s.free, |data|)[0];
    HiddenPlace(s, u, data, 0);
    AddOwnership(s, data);
    HiddenPush(u, d, head);
    HiddenMoves(u, acts, v, d, s.availRing[s.availIdx % |s.availRing| := head], s.free[|data|..]);
  }

  /** Storing one more descriptor takes the front of the free list. */
  lemma StoringNext(s: System, data: seq<Descriptor>, u: System, j: nat)
    requires CanAdd(s, data) && j < |data|
    ensures var t, ids := Storing(s, data, u, j + 1), NewIds(s.free, |data|);
      && 0 < |t.free| && t.free[0] == ids[j] < |t.desc|
      && Storing(s, data, u, j) == t.(desc := t.desc[ids[j] := Link(data, ids, j)], free := t.free[1..])
  {
    assert s.free[|data| - j - 1..][1..] == s.free[|data| - j..];
  }

  /** Moving the index publishes the chain: the add takes effect after the device steps. */
  lemma RingedPublishes(s: System, data: seq<Descriptor>, u: System)
    requires CanAdd(s, data) && Later(s, u) && |u.availRing| == |s.availRing|
    ensures CanAdd(u, data)
    ensures AddStep(u, data) ==
      Ringed(s, data, u).(availIdx := WrappingAdd(s.availIdx, 1), hist := AddStep(u, data).hist)
  {
  }

  /** One turn of the storing loop: the device moves from `u` to `t`, then descriptor `j` of the chain
      goes to the front of the free list, which gives `v`. */
  ghost predicate StoreTurn(u: System, t: System, v: System, ids: seq<u16>, data: seq<Descriptor>,
                            acts: seq<DeviceAct>, j: nat)
  {
    && j < |data| == |ids|
    && DeviceMoves(u, acts, t)
    && 0 < |t.free| && t.free[0] == ids[j] < |t.desc|
    && v == t.(desc := t.desc[ids[j] := Link(data, ids, j)], free := t.free[1..])
  }

  lemma StoringStarts(s: System, data: seq<Descriptor>)
    requires CanAdd(s, data)
    ensures Storing(s, data, s, |data|) == s
  {
    assert s.free[0..] == s.free;
  }

  ghost predicate StoreTurnAt(path: Path, sched: Schedule, lo: nat, data: seq<Descriptor>, at: nat, j: nat) {
    && lo in path && at in path && at + 1 in path
    && CanAdd(path[lo], data) && j < |data|
    && var s := path[lo];
    StoreTurn(Storing(s, data, path[at], j + 1), Storing(s, data, path[at + 1], j + 1),
              Storing(s, data, path[at + 1], j),
              NewIds(s.free, |data|), data, At(sched, at), j)
  }

  /** The points of an add of `n` descriptors that starts at point `lo`: one per descriptor, and one between
      the write to the ring and the write of the index. */
  function AddEnd(lo: nat, n: nat): nat {
    lo + n + 1
  }

  /** An add that starts in `path[lo]` can take any turn of its storing loop at any of its points. */
  ghost predicate StoreTurns(path: Path, sched: Schedule, lo: nat, data: seq<Descriptor>) {
    && (forall at: nat :: at in path) && CanAdd(path[lo], data)
    && forall at: nat, j: nat :: lo <= at < lo + |data| && j < |data| ==> StoreTurnAt(path, sched, lo, data, at, j)
  }

  lemma StoringTurn(path: Path, sched: Schedule, lo: nat, data: seq<Descriptor>, at: nat, j: nat)
    requires DeviceLeads(path, sched, lo, AddEnd(lo, |data|)) && Core(path[lo]) && CanAdd(path[lo], data)
    requires lo <= at < lo + |data| && j < |data|
    ensures StoreTurnAt(path, sched, lo, data, at, j)
  {
    PathKeepsCore(path, sched, lo, AddEnd(lo, |data|), at);
    assert DeviceHop(path, sched, at);
    StoringMoves(path[lo], data, path[at], At(sched, at), path[at + 1], j + 1);
    StoringNext(path[lo], data, path[at + 1], j);
  }

  lemma StoringTurns(path: Path, sched: Schedule, lo: nat, data: seq<Descriptor>)
    requires DeviceLeads(path, sched, lo, AddEnd(lo, |data|)) && Core(path[lo]) && CanAdd(path[lo], data)
    ensures StoreTurns(path, sched, lo, data)
  {
    forall at: nat, j: nat | lo <= at < lo + |data| && j < |data|
      ensures StoreTurnAt(path, sched, lo, data, at, j)
    {
      StoringTurn(path, sched, lo, data, at, j);
    }
  }

  /** The end of an add: ring write, device steps at the last point, index write. */
  lemma PublishPoint(path: Path, sched: Schedule, lo: nat, data: seq<Descriptor>)
    requires DeviceLeads(path, sched, lo, AddEnd(lo, |data|)) && Core(path[lo]) && CanAdd(path[lo], data)
    ensures var at := lo + |data|;
      var s, u, v := path[lo], path[at], path[at + 1];
      && DeviceMoves(Ringed(s, data, u), At(sched, at), Ringed(s, data, v))
      && CanAdd(v, data)
      && AddStep(v, data) == Ringed(s, data, v).(availIdx := WrappingAdd(s.availIdx, 1), hist := AddStep(v, data).hist)
      && u.availIdx == s.availIdx
  {
    var at := lo + |data|;
    LastHop(path, sched, lo, data);
    RingedMoves(path[lo], data, path[at], At(sched, at), path[at + 1]);
    RingedPublishes(path[lo], data, path[at + 1]);
  }

  lemma LastHop(path: Path, sched: Schedule, lo: nat, data: seq<Descriptor>)
    requires DeviceLeads(path, sched, lo, AddEnd(lo, |data|)) && Core(path[lo])
    ensures var at := lo + |data|;
      var s, u, v := path[lo], path[at], path[at + 1];
      && Core(u) && Later(s, u) && Later(s, v) && |v.availRing| == |s.availRing|
      && DeviceMoves(u, At(sched, at), v)
  {
    var at, hi := lo + |data|, AddEnd(lo, |data|);
    PathKeepsCore(path, sched, lo, hi, at);
    PathKeepsCore(path, sched, lo, hi, hi);
    assert DeviceHop(path, sched, at);
  }

  /** Publishing a well-flagged chain keeps what the state before it satisfied. */
  lemma PublishKeeps(path: Path, sched: Schedule, lo: nat, data: seq<Descriptor>)
    requires DeviceLeads(path, sched, lo, AddEnd(lo, |data|)) && Core(path[lo]) && WellFlagged(data)
    requires CanAdd(path[AddEnd(lo, |data|)], data)
    ensures var v := path[AddEnd(lo, |data|)]; Core(AddStep(v, data)) && (Inv(v) ==> Inv(AddStep(v, data)))
  {
    var hi := AddEnd(lo, |data|);
    PathKeepsCore(path, sched, lo, hi, hi);
    AddKeepsCore(path[hi], data);
    if Inv(path[hi]) {
      AddKeeps(path[hi], data);
    }
  }

  // ---------------------------------------------------------------- the middle of a pop

  lemma MatchUnread(s: System, t: System, id: nat)
    requires s.Shape() && t.Shape() && |t.desc| == |s.desc| && UsedOk(s) && UsedOk(t) && Later(s, t) && CanPop(t, id)
    requires CanPop(s, id) ==> Header(s, id) !in s.popped
    ensures Match(t, id) !in t.hist.read
  {
    MatchOk(t, id);
    MatchOk(s, id);
    assert forall k :: 0 <= k < |s.hist.used| ==> t.hist.used[k] == s.hist.used[k];
    if CanPop(s, id) {
      PoppableIsStable(s, t, id);
      HeaderPopped(s, id);
    }
  }

  /** Offset `i` is what a scan of the used entries in the window for `id` may answer. */
  ghost predicate Scanned(t: System, id: nat, i: nat) {
    && i <= Window(t)
    && t.hist.cursor + Window(t) <= |t.hist.used|
    && (i < Window(t) ==> t.hist.used[t.hist.cursor + i].id == id)
    && (forall k :: t.hist.cursor <= k < t.hist.cursor + i ==> t.hist.used[k].id != id)
  }

  lemma ScannedIsMatch(t: System, id: nat, i: nat)
    requires t.Shape() && UsedOk(t) && Scanned(t, id, i)
    ensures ScanTells(t, id, i)
  {
    MatchOk(t, id);
    AcceptedBound(|t.desc|);
    if CanPop(t, id) {
      ScannedUnique(t, id, i);
      LowNotBefore(t.hist.cursor, i);
    }
  }

  lemma ScannedUnique(t: System, id: nat, i: nat)
    requires t.Shape() && UsedOk(t) && Scanned(t, id, i) && CanPop(t, id)
    ensures i < Window(t) && t.hist.cursor + i == Match(t, id)
  {
    MatchOk(t, id);
    var k := Match(t, id);
    assert !(k < t.hist.cursor + i);
    assert !(t.hist.cursor + i < k);
  }

  /** What loading the used index in state `t` and scanning up to it for `id` amounts to. */
  ghost predicate Scannable(t: System, id: nat) {
    && t.last == Low16(t.hist.cursor)
    && t.hist.cursor + Window(t) <= |t.hist.used|
    && (t.last == t.usedIdx ==> !CanPop(t, id))
    && (forall i: nat :: Scanned(t, id, i) ==> ScanTells(t, id, i))
  }

  /** A scan that stops at offset `i` tells whether the token is poppable, and under which index. */
  ghost predicate ScanTells(t: System, id: nat, i: nat) {
    && (i < Window(t) <==> CanPop(t, id))
    && (CanPop(t, id) ==> WrappingAdd(t.last, i) == Header(t, id) != WrappingSub(t.last, 1))
  }

  lemma WindowInLog(t: System, id: nat)
    requires t.Shape() && UsedOk(t)
    ensures t.hist.cursor + Window(t) == |t.hist.used|
    ensures t.last == t.usedIdx ==> !CanPop(t, id)
  {
    MatchOk(t, id);
  }

  lemma ScannableNow(t: System, id: nat)
    requires t.Shape() && UsedOk(t)
    ensures Scannable(t, id)
  {
    WindowInLog(t, id);
    forall i: nat | Scanned(t, id, i)
      ensures ScanTells(t, id, i)
    {
      ScannedIsMatch(t, id, i);
    }
  }

  ghost predicate Reads(t: System, k: nat, e: UsedElem) {
    0 < |t.usedRing| && t.usedRing[Low16(k) % |t.usedRing|] == e
  }

  /** The used entries `u[c..]` can be read at any point from `mid` on. */
  ghost predicate Steady(path: Path, mid: nat, c: nat, u: seq<UsedElem>) {
    forall hi: nat, k: nat :: mid <= hi && c <= k < |u| ==> hi in path && Reads(path[hi], k, u[k])
  }

  lemma SteadyFrom(path: Path, sched: Schedule, lo: nat, mid: nat)
    requires Follows(path, sched, lo) && lo <= mid && Inv(path[lo])
    ensures Steady(path, mid, path[mid].hist.cursor, path[mid].hist.used)
  {
    var c, u := path[mid].hist.cursor, path[mid].hist.used;
    forall hi: nat, k: nat | mid <= hi && c <= k < |u|
      ensures Reads(path[hi], k, u[k])
    {
      PathKeeps(path, sched, lo, hi);
      PathLater(path, sched, lo, mid, hi);
      SlotOfIndex(k, |path[hi].desc|);
    }
  }

  /** What a load of the used index at point `at` and a scan up to it rely on. */
  ghost predicate Loads(path: Path, sched: Schedule, at: nat, id: nat) {
    && Follows(path, sched, at)
    && Hop(path, sched, at)
    && Steady(path, at + 1, path[at + 1].hist.cursor, path[at + 1].hist.used)
    && Scannable(path[at + 1], id)
  }

  lemma LoadsAt(path: Path, sched: Schedule, lo: nat, at: nat, id: nat)
    requires Follows(path, sched, lo) && Inv(path[lo]) && lo <= at
    ensures Loads(path, sched, at, id)
  {
    PathKeeps(path, sched, lo, at + 1);
    SteadyFrom(path, sched, lo, at + 1);
    ScannableNow(path[at + 1], id);
    assert Hop(path, sched, at);
  }

  /** What the end of `pop_used` relies on: the entry to pop is the one at index `header`. */
  ghost predicate Retirable(t: System, id: nat, header: u16) {
    CanPop(t, id) && Header(t, id) == header && Ends(t.desc, id)
  }

  /** The first entry that matches the token was popped before. */
  ghost predicate Stale(s: System, id: nat) {
    CanPop(s, id) && Header(s, id) in s.popped
  }

  lemma NeverStaleInOrder(s: System, id: nat)
    requires UsedOk(s) && s.hist.read == {}
    ensures !Stale(s, id)
  {
    assert Lows({}) == {};
  }

  lemma RetirableNow(t: System, id: nat)
    requires Inv(t) && CanPop(t, id) && Match(t, id) !in t.hist.read
    ensures Retirable(t, id, Header(t, id))
  {
    MatchOk(t, id);
    PopStaged(t, id);
    assert id in t.hist.live.Keys;
    WalkOfLive(t, id);
    assert OwnedChain(|t.desc|, t.free, id, t.hist.live[id].ids) && StoredChain(t.desc, t.hist.live[id]);
  }

  /** Once `can_pop` has said yes for a token, its entry stays first, keeps its length, and can be popped at
      any later point; the invariant survives that unless the entry was popped before. */
  lemma PopTarget(path: Path, sched: Schedule, lo: nat, mid: nat, at: nat, id: nat)
    requires Follows(path, sched, lo) && Inv(path[lo]) && lo <= mid <= at
    requires CanPop(path[mid], id)
    requires Stale(path[lo], id) ==> Ends(path[lo].desc, id)
    ensures var first, t := path[mid], path[at];
      && CanPop(t, id) && Match(t, id) == Match(first, id) && Header(t, id) == Header(first, id)
      && PopLen(t, id) == PopLen(first, id)
      && Retirable(t, id, Header(first, id))
      && (!Stale(path[lo], id) ==> Inv(PopStep(t, id)))
  {
    var s, first, t := path[lo], path[mid], path[at];
    PathKeeps(path, sched, lo, mid);
    PathKeeps(path, sched, lo, at);
    PathLater(path, sched, lo, mid, at);
    PoppableIsStable(first, t, id);
    if !Stale(s, id) {
      MatchUnread(s, first, id);
      RetirableNow(t, id);
      PopKeeps(t, id);
    }
  }

  lemma EntryAt(path: Path, sched: Schedule, lo: nat, at: nat, id: u16)
    requires Follows(path, sched, lo) && Inv(path[lo]) && lo <= at && CanPop(path[at], id)
    ensures var t := path[at];
      Header(t, id) == Low16(Match(t, id)) && Reads(t, Match(t, id), UsedElem(id, PopLen(t, id)))
  {
    PathKeeps(path, sched, lo, at);
    MatchOk(path[at], id);
    SlotOfIndex(Match(path[at], id), |path[at].desc|);
  }

  /** `can_pop` has said yes at point `lo`. */
  ghost predicate Popping(path: Path, sched: Schedule, lo: nat, id: nat) {
    && Follows(path, sched, lo) && Inv(path[lo])
    && CanPop(path[lo + 1], id)
    && (Stale(path[lo], id) ==> Ends(path[lo].desc, id))
  }

  /** The second load and scan of `pop_used`, at point `at`. */
  lemma SearchPoint(path: Path, sched: Schedule, lo: nat, at: nat, id: u16)
    requires Popping(path, sched, lo, id) && lo < at
    ensures Loads(path, sched, at, id)
    ensures CanPop(path[at + 1], id) && Header(path[at + 1], id) == Header(path[lo + 1], id)
  {
    LoadsAt(path, sched, lo, at, id);
    PopTarget(path, sched, lo, lo + 1, at + 1, id);
  }

  lemma FollowsHops(path: Path, sched: Schedule, lo: nat, at: nat)
    requires Follows(path, sched, lo) && lo <= at
    ensures DeviceMoves(path[at], At(sched, at), path[at + 1])
  {
    assert Hop(path, sched, at);
  }

  /** The read of the length and the end of `pop_used`, at point `at`. */
  lemma FinishPoint(path: Path, sched: Schedule, lo: nat, at: nat, id: u16)
    requires Popping(path, sched, lo, id) && lo < at
    ensures DeviceMoves(path[at], At(sched, at), path[at + 1])
    ensures var header, len, t := Header(path[lo + 1], id), PopLen(path[lo + 1], id), path[at + 1];
      && Reads(t, Match(path[lo + 1], id), UsedElem(id, len)) && header == Low16(Match(path[lo + 1], id))
      && Retirable(t, id, header)
      && (!Stale(path[lo], id) ==> Inv(PopStep(t, id)))
  {
    PopTarget(path, sched, lo, lo + 1, at + 1, id);
    EntryAt(path, sched, lo, at + 1, id);
    FollowsHops(path, sched, lo, at);
  }
}
