/** A pool of device-written buffers behind one queue: buffer `t` always belongs to token `t`.

    The input driver and the receive side of the network driver both keep such a pool: they pop what
    `peek_used` reports, read the buffer, and submit the same buffer again. */
module PoolModel {
  import opened Wrap
  import opened Sequences
  import opened QueueModel
  import opened QueueProofs
  import opened QueueRuns

  /** `addrs[t]` is the address of buffer `t` and `bufs[t]` its contents.  `written[k]` is what the
      device had put in the buffer of completion `k`; `returned` is what the driver handed out. */
  datatype Pool<T> = Pool(
    sys: System, addrs: seq<u64>, len: u32, bufs: seq<T>, written: seq<T>, returned: seq<(u32, T)>)

  function Submission<T>(p: Pool<T>, t: nat): seq<Descriptor>
    requires t < |p.addrs|
  {
    [Descriptor(p.addrs[t], p.len, WRITE, 0)]
  }

  /** Every outstanding chain is the single descriptor of its own buffer. */
  ghost predicate Bound<T>(p: Pool<T>) {
    && |p.addrs| == |p.bufs| == |p.sys.desc| && NoDup(p.addrs)
    && forall h :: h in p.sys.hist.live ==> BoundTo(p, h)
  }

  ghost predicate BoundTo<T>(p: Pool<T>, h: nat) {
    && h in p.sys.hist.live && p.sys.hist.live[h].ids == [h]
    && h < |p.sys.desc| == |p.addrs|
    && p.sys.desc[h] == Descriptor(p.addrs[h], p.len, WRITE, 0)
  }

  /** The buffers of unread completions still hold what the device wrote, and the driver has handed out
      the others in order. */
  ghost predicate Intact<T>(p: Pool<T>) {
    && |p.written| == |p.sys.hist.used| && |p.returned| == p.sys.hist.cursor <= |p.written|
    && (forall k :: 0 <= k < |p.returned| ==> p.returned[k] == (p.sys.hist.used[k].len, p.written[k]))
    && (forall k :: p.sys.hist.cursor <= k < |p.written| ==>
          p.sys.hist.used[k].id < |p.bufs| && p.bufs[p.sys.hist.used[k].id] == p.written[k])
  }

  ghost predicate PoolInv<T>(p: Pool<T>) {
    Inv(p.sys) && p.sys.hist.read == {} && Bound(p) && Intact(p)
  }

  // ---------------------------------------------------------------- the device

  datatype PoolAct<T> =
    | Scribble(id: u16, payload: T)        // write the buffer of a chain in its hands
    | Signal(act: DeviceAct)               // a queue step

  /** Where a write to address `a` lands. */
  function SlotOf(addrs: seq<u64>, a: u64): (t: nat)
    ensures t <= |addrs| && (t < |addrs| ==> addrs[t] == a)
    ensures forall i :: 0 <= i < t ==> addrs[i] != a
  {
    if addrs == [] || addrs[0] == a then 0 else 1 + SlotOf(addrs[1..], a)
  }

  ghost predicate PoolMay<T>(p: Pool<T>, a: PoolAct<T>) {
    match a
    case Scribble(id, _) => id in p.sys.dev.held
    case Signal(d) => DeviceMay(p.sys, d)
  }

  /** The buffer a chain's first descriptor points at. */
  function Target<T>(p: Pool<T>, id: nat): nat {
    if id < |p.sys.desc| then SlotOf(p.addrs, p.sys.desc[id].addr) else |p.addrs|
  }

  function PoolDevice<T>(p: Pool<T>, a: PoolAct<T>): Pool<T>
    requires a.Signal? ==> DeviceMay(p.sys, a.act)
  {
    match a
    case Scribble(id, v) =>
      if Target(p, id) < |p.bufs| then p.(bufs := p.bufs[Target(p, id) := v]) else p
    case Signal(d) =>
      var done := if d.Complete? && Target(p, d.id) < |p.bufs| then [p.bufs[Target(p, d.id)]] else [];
      p.(sys := DeviceStep(p.sys, d), written := p.written + done)
  }

  lemma HeldTarget<T>(p: Pool<T>, id: u16)
    requires PoolInv(p) && id in p.sys.dev.held
    ensures id < |p.bufs| && Target(p, id) == id && AtStage(p.sys, id, Held)
  {
    assert AtStage(p.sys, id, Held);
    assert id in p.sys.hist.live.Keys;
    assert BoundTo(p, id);
    var t := SlotOf(p.addrs, p.addrs[id]);
    assert t <= id;
  }

  lemma ScribbleKeeps<T>(p: Pool<T>, id: u16, v: T)
    requires PoolInv(p) && id in p.sys.dev.held
    ensures PoolInv(PoolDevice(p, Scribble(id, v)))
  {
    HeldTarget(p, id);
    var q := PoolDevice(p, Scribble(id, v));
    forall k | p.sys.hist.cursor <= k < |p.written|
      ensures q.bufs[p.sys.hist.used[k].id] == p.written[k]
    {
      assert Unread(p.sys, k) && AtStage(p.sys, p.sys.hist.used[k].id, Done(k));
    }
    BoundSame(p, q);
  }

  lemma BoundSame<T>(p: Pool<T>, q: Pool<T>)
    requires Bound(p) && q.sys.desc == p.sys.desc && q.sys.hist.live == p.sys.hist.live
    requires q.addrs == p.addrs && q.len == p.len && |q.bufs| == |p.bufs|
    ensures Bound(q)
  {
    forall h | h in q.sys.hist.live
      ensures BoundTo(q, h)
    {
      assert BoundTo(p, h);
    }
  }

  lemma CompleteIntact<T>(p: Pool<T>, id: u16, written: u32)
    requires Intact(p) && DeviceMay(p.sys, Complete(id, written)) && id < |p.bufs| && Target(p, id) == id
    ensures Intact(PoolDevice(p, Signal(Complete(id, written))))
  {
  }

  lemma DeviceKeepsInOrder(s: System, d: DeviceAct)
    requires Inv(s) && s.hist.read == {} && DeviceMay(s, d)
    ensures var t := DeviceStep(s, d); Inv(t) && t.hist.read == {}
  {
    if d.Complete? {
      RoomForHeld(s, d.id);
    }
    DeviceKeeps(s, d);
  }

  lemma SignalIntact<T>(p: Pool<T>, d: DeviceAct)
    requires Intact(p) && DeviceMay(p.sys, d)
    requires d.Complete? ==> d.id < |p.bufs| && Target(p, d.id) == d.id
    ensures Intact(PoolDevice(p, Signal(d)))
  {
    if d.Complete? {
      CompleteIntact(p, d.id, d.written);
    }
  }

  lemma SignalKeeps<T>(p: Pool<T>, d: DeviceAct)
    requires PoolInv(p) && DeviceMay(p.sys, d)
    ensures PoolInv(PoolDevice(p, Signal(d)))
    ensures PoolDevice(p, Signal(d)).sys.free == p.sys.free
  {
    if d.Complete? {
      HeldTarget(p, d.id);
    }
    SignalIntact(p, d);
    DeviceKeepsInOrder(p.sys, d);
    BoundSame(p, PoolDevice(p, Signal(d)));
  }

  /** Nothing the device may do disturbs the pool. */
  lemma PoolDeviceKeeps<T>(p: Pool<T>, a: PoolAct<T>)
    requires PoolInv(p) && PoolMay(p, a)
    ensures PoolInv(PoolDevice(p, a)) && PoolDevice(p, a).sys.free == p.sys.free
    ensures PoolDevice(p, a).addrs == p.addrs && PoolDevice(p, a).returned == p.returned
  {
    match a
    case Scribble(id, v) => ScribbleKeeps(p, id, v);
    case Signal(d) => SignalKeeps(p, d);
  }

  // ---------------------------------------------------------------- the driver

  /** Pops the completion that `peek_used` reports and hands out its buffer. */
  function PoolPop<T>(p: Pool<T>, token: nat): Pool<T>
    requires CanPop(p.sys, token) && token < |p.bufs|
  {
    p.(sys := PopStep(p.sys, token), returned := p.returned + [(PopLen(p.sys, token), p.bufs[token])])
  }

  /** Popping what `peek_used` reports, at the level of the queue. */
  lemma PopPeeked(s: System, token: u16)
    requires Inv(s) && s.hist.read == {} && Peek(s) == token
    ensures CanPop(s, token) && token in s.hist.live
    ensures var t := PopStep(s, token);
      && Inv(t) && t.hist.read == {} && t.hist.cursor == s.hist.cursor + 1 <= |s.hist.used|
      && t.free == s.free + s.hist.live[token].ids
    ensures s.hist.used[s.hist.cursor] == UsedElem(token, PopLen(s, token))
  {
    PeekPops(s, token);
    PopOldest(s, token);
    PopKeeps(s, token);
    PopStaged(s, token);
    assert token in s.hist.live.Keys;
    PopOwnership(s, token);
  }

  lemma PopKeepsPool<T>(p: Pool<T>, token: u16)
    requires PoolInv(p) && Peek(p.sys) == token
    ensures CanPop(p.sys, token) && token < |p.bufs|
    ensures PopLen(p.sys, token) == p.sys.hist.used[p.sys.hist.cursor].len
    ensures var q := PoolPop(p, token);
      && PoolInv(q)
      && q.sys.free == p.sys.free + [token]
      && p.sys.hist.cursor < |p.written|
      && q.returned == p.returned + [(p.sys.hist.used[p.sys.hist.cursor].len, p.written[p.sys.hist.cursor])]
  {
    PopPeeked(p.sys, token);
    assert BoundTo(p, token);
    PopBound(p, token);
    PopIntact(p, PoolPop(p, token));
  }

  /** The buffer of the oldest completion that was not handed out yet is handed out. */
  lemma PopIntact<T>(p: Pool<T>, q: Pool<T>)
    requires Intact(p) && p.sys.hist.cursor < |p.sys.hist.used| && p.sys.hist.used[p.sys.hist.cursor].id < |p.bufs|
    requires q.written == p.written && q.bufs == p.bufs && q.sys.hist.used == p.sys.hist.used
    requires q.sys.hist.cursor == p.sys.hist.cursor + 1
    requires var e := p.sys.hist.used[p.sys.hist.cursor]; q.returned == p.returned + [(e.len, p.bufs[e.id])]
    ensures Intact(q) && p.bufs[p.sys.hist.used[p.sys.hist.cursor].id] == p.written[p.sys.hist.cursor]
  {
  }

  lemma PopBound<T>(p: Pool<T>, token: nat)
    requires Bound(p) && CanPop(p.sys, token) && token < |p.bufs|
    ensures Bound(PoolPop(p, token))
  {
    var q := PoolPop(p, token);
    forall h | h in q.sys.hist.live
      ensures BoundTo(q, h)
    {
      assert BoundTo(p, h);
    }
  }

  /** What `peek_used` reports can be popped. */
  lemma PeekPops(s: System, token: u16)
    requires Inv(s) && Peek(s) == token
    ensures CanPop(s, token)
  {
    PeekIsOldest(s);
    MatchOk(s, token);
  }

  /** Submits buffer `t` again. */
  function PoolAdd<T>(p: Pool<T>, t: nat): Pool<T>
    requires t < |p.addrs| && CanAdd(p.sys, Submission(p, t))
  {
    p.(sys := AddStep(p.sys, Submission(p, t)))
  }

  lemma AddBound<T>(p: Pool<T>, t: u16)
    requires Bound(p) && Ownership(|p.sys.desc|, p.sys.free, p.sys.hist.live)
    requires t < |p.addrs| && CanAdd(p.sys, Submission(p, t)) && NewIds(p.sys.free, 1) == [t]
    ensures Bound(PoolAdd(p, t))
  {
    var data, q := Submission(p, t), PoolAdd(p, t);
    PlaceAt(p.sys.desc, [t], data);
    AddOwnership(p.sys, data);
    forall h | h in q.sys.hist.live
      ensures BoundTo(q, h)
    {
      if h != t {
        assert BoundTo(p, h);
      }
    }
  }

  /** When `t` is at the front of the free list, the submission of buffer `t` gets token `t`. */
  lemma AddKeepsPool<T>(p: Pool<T>, t: u16)
    requires PoolInv(p) && 0 < |p.sys.free| && p.sys.free[0] == t
    ensures t < |p.addrs| && CanAdd(p.sys, Submission(p, t))
    ensures NewIds(p.sys.free, 1)[0] == t
    ensures PoolInv(PoolAdd(p, t)) && PoolAdd(p, t).sys.free == p.sys.free[1..]
  {
    AcceptedBound(|p.sys.desc|);
    assert NewIds(p.sys.free, 1) == [t];
    AddKeeps(p.sys, Submission(p, t));
    AddBound(p, t);
  }

  // ---------------------------------------------------------------- runs

  datatype PoolEvent<T> = Device(act: PoolAct<T>) | Service

  /** The driver can service token `t`: pop it, hand out its buffer, submit the buffer again. */
  ghost predicate CanService<T>(p: Pool<T>, t: nat) {
    && CanPop(p.sys, t) && t < |p.bufs| && t < |p.addrs|
    && CanAdd(PoolPop(p, t).sys, Submission(p, t))
  }

  ghost function Serviced<T>(p: Pool<T>, t: nat): Pool<T>
    requires CanService(p, t)
  {
    PoolAdd(PoolPop(p, t), t)
  }

  /** One call of the driver changes nothing if the used ring is empty. */
  ghost function PoolStep<T>(p: Pool<T>, e: PoolEvent<T>): Pool<T>
    requires e.Device? && e.act.Signal? ==> DeviceMay(p.sys, e.act.act)
  {
    match e
    case Device(a) => PoolDevice(p, a)
    case Service =>
      if 0 < |p.sys.usedRing| && Peek(p.sys) != -1 && CanService(p, Peek(p.sys)) then Serviced(p, Peek(p.sys)) else p
  }

  ghost predicate PoolLegal<T>(p: Pool<T>, es: seq<PoolEvent<T>>)
    decreases |es|
  {
    es == [] || ((es[0].Device? ==> PoolMay(p, es[0].act)) && PoolLegal(PoolStep(p, es[0]), es[1..]))
  }

  ghost function PoolRun<T>(p: Pool<T>, es: seq<PoolEvent<T>>): Pool<T>
    requires PoolLegal(p, es)
    decreases |es|
  {
    if es == [] then p else PoolRun(PoolStep(p, es[0]), es[1..])
  }

  lemma ServiceAdd<T>(p: Pool<T>, q: Pool<T>, token: u16)
    requires p.addrs == q.addrs && p.len == q.len && PoolInv(q) && q.sys.free == [token]
    ensures token < |p.addrs| && CanAdd(q.sys, Submission(p, token))
    ensures var r := PoolAdd(q, token);
      PoolInv(r) && r.sys.free == [] && r.written == q.written && r.addrs == q.addrs && r.returned == q.returned
  {
    AddKeepsPool(q, token);
  }

  /** A service call that finds a completion hands out the oldest one, and the buffer gets its own token
      back. */
  lemma ServiceReady<T>(p: Pool<T>, token: u16)
    requires PoolInv(p) && p.sys.free == [] && Peek(p.sys) == token
    ensures CanService(p, token) && p.sys.hist.cursor < |p.written|
    ensures var q := Serviced(p, token);
      && PoolInv(q) && q.sys.free == [] && q.written == p.written && q.addrs == p.addrs
      && q.returned == p.returned + [(p.sys.hist.used[p.sys.hist.cursor].len, p.written[p.sys.hist.cursor])]
  {
    PopKeepsPool(p, token);
    ServiceAdd(p, PoolPop(p, token), token);
  }

  /** What `peek_used` reports is a token, and it reports one exactly when a completion is unread. */
  lemma PeekIsToken<T>(p: Pool<T>)
    requires PoolInv(p)
    ensures 0 < |p.sys.usedRing| && Peek(p.sys) < 0x1_0000
    ensures Peek(p.sys) != -1 <==> p.sys.hist.cursor < |p.written|
  {
    AcceptedBound(|p.sys.desc|);
    PeekIsOldest(p.sys);
  }

  /** The pool `q` is `p` with `token` popped and, after the state `mid`, submitted again. */
  ghost predicate PoppedAndReturned<T>(p: Pool<T>, token: nat, mid: Pool<T>, q: Pool<T>) {
    && CanPop(p.sys, token) && token < |p.bufs| && mid == PoolPop(p, token)
    && token < |mid.addrs| && CanAdd(mid.sys, Submission(mid, token)) && q == PoolAdd(mid, token)
  }

  lemma ServiceIs<T>(p: Pool<T>, token: u16, mid: Pool<T>, q: Pool<T>)
    requires PoppedAndReturned(p, token, mid, q) && Peek(p.sys) == token
    ensures q == PoolStep(p, Service)
  {
  }

  /** A service call completes nothing and does not touch the device's flags. */
  lemma ServiceSame<T>(p: Pool<T>)
    ensures var q := PoolStep(p, Service); q.written == p.written && q.sys.usedFlags == p.sys.usedFlags
  {
  }

  lemma ServiceKeeps<T>(p: Pool<T>)
    requires PoolInv(p) && p.sys.free == []
    ensures PoolInv(PoolStep(p, Service)) && PoolStep(p, Service).sys.free == []
  {
    PeekIsToken(p);
    if Peek(p.sys) != -1 {
      ServiceReady(p, Peek(p.sys));
    }
  }

  /** Over any run of device steps and service calls the driver hands out exactly what the device
      completed, in completion order, none lost and none twice, and every buffer is with the device
      again between calls. */
  lemma {:induction false} PoolRunIsFifo<T>(p: Pool<T>, es: seq<PoolEvent<T>>)
    requires PoolInv(p) && p.sys.free == [] && PoolLegal(p, es)
    ensures var q := PoolRun(p, es);
      && PoolInv(q) && q.sys.free == []
      && |q.returned| <= |q.written|
      && forall k :: 0 <= k < |q.returned| ==> q.returned[k] == (q.sys.hist.used[k].len, q.written[k])
    decreases |es|
  {
    if es != [] {
      match es[0] {
        case Device(a) => PoolDeviceKeeps(p, a);
        case Service => ServiceKeeps(p);
      }
      PoolRunIsFifo(PoolStep(p, es[0]), es[1..]);
    }
  }

  /** With an empty free list, every token is outstanding, bound to its own buffer. */
  lemma AllBound<T>(p: Pool<T>, t: nat)
    requires PoolInv(p) && p.sys.free == [] && t < |p.addrs|
    ensures BoundTo(p, t)
  {
    assert t !in p.sys.free;
    var h :| h in p.sys.hist.live && t in p.sys.hist.live[h].ids;
    assert BoundTo(p, h);
  }

  // ---------------------------------------------------------------- interference

  /** The device takes step `a` if it may. */
  ghost function PoolTry<T>(p: Pool<T>, a: PoolAct<T>): Pool<T> {
    if PoolMay(p, a) then PoolDevice(p, a) else p
  }

  /** What the driver can rely on after device steps: the pool is in order, what is free is untouched,
      and completions only get added. */
  ghost predicate Undisturbed<T>(p: Pool<T>, q: Pool<T>) {
    PoolInv(q) && Kept(p, q)
  }

  ghost predicate Kept<T>(p: Pool<T>, q: Pool<T>) {
    && q.sys.desc == p.sys.desc && q.sys.availIdx == p.sys.availIdx && q.sys.availRing == p.sys.availRing
    && |q.sys.usedRing| == |p.sys.usedRing|
    && q.sys.free == p.sys.free && q.addrs == p.addrs && q.len == p.len && q.returned == p.returned
    && q.sys.hist.cursor == p.sys.hist.cursor && p.sys.hist.used <= q.sys.hist.used && p.written <= q.written
    && |q.bufs| == |p.bufs| && forall t :: t in p.sys.free && t < |p.bufs| ==> q.bufs[t] == p.bufs[t]
  }

  lemma ScribbleUndisturbed<T>(p: Pool<T>, id: u16, v: T)
    requires PoolInv(p) && id in p.sys.dev.held
    ensures Undisturbed(p, PoolDevice(p, Scribble(id, v)))
  {
    ScribbleKeeps(p, id, v);
    ScribbleKept(p, id, v);
  }

  lemma ScribbleKept<T>(p: Pool<T>, id: u16, v: T)
    requires PoolInv(p) && id in p.sys.dev.held
    ensures Kept(p, PoolDevice(p, Scribble(id, v)))
  {
    HeldTarget(p, id);
    LiveNotFree(p.sys, id);
  }

  lemma SignalUndisturbed<T>(p: Pool<T>, d: DeviceAct)
    requires PoolInv(p) && DeviceMay(p.sys, d)
    ensures Undisturbed(p, PoolDevice(p, Signal(d)))
  {
    SignalKeeps(p, d);
  }

  lemma TryUndisturbed<T>(p: Pool<T>, a: PoolAct<T>)
    requires PoolInv(p)
    ensures Undisturbed(p, PoolTry(p, a))
  {
    if PoolMay(p, a) {
      match a
      case Scribble(id, v) => ScribbleUndisturbed(p, id, v);
      case Signal(d) => SignalUndisturbed(p, d);
    }
  }

  lemma LiveNotFree(s: System, h: nat)
    requires Ownership(|s.desc|, s.free, s.hist.live) && Staged(s) && h in s.hist.stage
    ensures h !in s.free
  {
    assert h in s.hist.live.Keys;
    assert OwnedChain(|s.desc|, s.free, h, s.hist.live[h].ids);
    assert h in s.hist.live[h].ids;
  }

  lemma UndisturbedTwice<T>(p: Pool<T>, q: Pool<T>, r: Pool<T>)
    requires Undisturbed(p, q) && Undisturbed(q, r)
    ensures Undisturbed(p, r)
  {
  }

  /** Device steps do not change what `peek_used` reports, once it reports something. */
  lemma PeekStable<T>(p: Pool<T>, q: Pool<T>)
    requires PoolInv(p) && Undisturbed(p, q) && Peek(p.sys) != -1
    ensures 0 < |q.sys.usedRing| && Peek(q.sys) == Peek(p.sys)
  {
    PeekIsOldest(p.sys);
    AcceptedBound(|q.sys.desc|);
    PeekIsOldest(q.sys);
  }

  /** If no completion is unread and some chain is outstanding, the device holds one or can take one. */
  lemma HeldOrTakable(s: System, h: nat)
    requires s.Shape() && AvailOk(s) && Staged(s) && s.hist.cursor == |s.hist.used| && h in s.hist.live
    ensures s.dev.held != {} || (DeviceMay(s, Take) && DeviceStep(s, Take).dev.held != {})
  {
    assert h in s.hist.stage.Keys;
    assert StageOk(s, h, s.hist.stage[h]);
    if s.hist.stage[h].Queued? {
      AcceptedBound(|s.desc|);
      if s.availIdx == Low16(|s.dev.fetched|) {
        LowInjective(|s.dev.fetched|, |s.hist.heads|);
      }
    }
  }

  /** Some chain is outstanding as long as not every descriptor is free. */
  lemma SomeLive(n: nat, free: seq<u16>, live: map<nat, Chain>) returns (h: nat)
    requires Ownership(n, free, live) && |free| < n
    ensures h in live
  {
    if forall x :: 0 <= x < n ==> x in free {
      NoDupSize<int>(free);
      SubsetSize(Upto(n), Elements<int>(free));
    } else {
      var x :| 0 <= x < n && x !in free;
      h :| h in live && x in live[h].ids;
    }
  }

  /** After it has tried to take a chain the device holds one. */
  lemma CanGrab<T>(p: Pool<T>)
    requires PoolInv(p) && |p.returned| == |p.written| && |p.sys.free| < |p.sys.desc|
    ensures var q := PoolTry(p, Signal(Take));
      q.sys.dev.held != {} && q.sys.hist.used == p.sys.hist.used && q.written == p.written
  {
    var h := SomeLive(|p.sys.desc|, p.sys.free, p.sys.hist.live);
    HeldOrTakable(p.sys, h);
  }
}
