/** The buffers of a driver that keeps all of them with the device: the event buffers of the input driver
    and the receive buffers of the network driver. */
module PoolDriver {
  import opened Wrap
  import opened Sequences
  import opened QueueModel
  import opened QueueRuns
  import opened Interference
  import opened PoolModel
  import opened PoolSchedules
  import opened Queue
  import Mmio

  /** The numbers from `lo` to `n`, in order. */
  predicate Counting(s: seq<u16>, lo: nat, n: nat) {
    lo + |s| == n && forall j :: 0 <= j < |s| ==> s[j] == lo + j
  }

  /** `add` while the device acts at the points from `lo` on. */
  method AddUnder(queue: VirtIoQueue, data: seq<Descriptor>, sched: Schedule, lo: nat) returns (r: Result<u16>)
    requires Core(queue.View()) && 0 < |data| <= |queue.availDescIndex|
    modifies queue, queue.desc, queue.availRing, queue.usedRing
    ensures var t := StateAt(old(queue.View()), sched, lo, AddEnd(lo, |data|));
      CanAdd(t, data) && queue.View() == AddStep(t, data)
    ensures r == Ok(NewIds(old(queue.availDescIndex), |data|)[0])
  {
    var hi;
    r, hi := queue.Add(data, sched, lo, PathFrom(queue.View(), sched, lo));
  }

  /** `pop_used` of a token that stays poppable, while the device acts at the points from `lo` on. */
  method PopUnder(queue: VirtIoQueue, token: u16, sched: Schedule, lo: nat) returns (r: Result<u32>, hi: nat)
    requires queue.Valid() && queue.hist.read == {} && CanPop(StateAt(queue.View(), sched, lo, lo + 1), token)
    modifies queue, queue.usedRing
    ensures lo < hi && r == Ok(PopLen(StateAt(old(queue.View()), sched, lo, lo + 1), token))
    ensures var t := StateAt(old(queue.View()), sched, lo, hi); CanPop(t, token) && queue.View() == PopStep(t, token)
  {
    NeverStaleInOrder(queue.View(), token);
    r, hi := queue.PopUsed(token, sched, lo, PathFrom(queue.View(), sched, lo));
  }

  class BufferPool<T> {
    const queue: VirtIoQueue
    const addrs: seq<u64>
    const len: u32
    const bufs: array<T>
    ghost var written: seq<T>
    ghost var returned: seq<(u32, T)>

    ghost predicate Shaped()
      reads this
    {
      && queue as object != this && |addrs| == bufs.Length
      && bufs as object !in {queue.desc as object, queue.availRing as object, queue.usedRing as object}
    }

    ghost function View(): Pool<T>
      reads this, bufs, queue, queue.desc, queue.availRing, queue.usedRing
    {
      Pool(queue.View(), addrs, len, bufs[..], written, returned)
    }

    ghost predicate Valid()
      reads this, bufs, queue, queue.desc, queue.availRing, queue.usedRing
    {
      Shaped() && PoolInv(View())
    }

    /** A new queue and zeroed buffers, nothing submitted yet. */
    constructor (queue: VirtIoQueue, addrs: seq<u64>, len: u32, zero: T)
      requires Accepted(|addrs|) && queue.View() == Fresh(|addrs|) && NoDup(addrs)
      ensures Valid() && View() == Pool(Fresh(|addrs|), addrs, len, seq(|addrs|, _ => zero), [], [])
      ensures this.queue == queue && fresh(bufs)
    {
      this.queue := queue;
      bufs := new T[|addrs|](_ => zero);
      this.addrs, this.len, written, returned := addrs, len, [], [];
      new;
      FreshInv(|addrs|);
      assert bufs[..] == seq(|addrs|, _ => zero);
    }

    // -------------------------------------------------------------- the device

    /** The device takes a step if it may. */
    method PlayOne(a: PoolAct<T>)
      requires Shaped()
      modifies this`written, queue`usedFlags, queue`usedIdx, queue`dev, queue`hist, queue.usedRing, bufs
      ensures View() == PoolTry(old(View()), a)
    {
      match a
      case Scribble(id, v) =>
        if id in queue.dev.held && id < queue.desc.Length {
          var t := SlotOf(addrs, queue.desc[id].addr);
          if t < bufs.Length {
            bufs[t] := v;
          }
        }
      case Signal(d) =>
        var may := queue.May(d);
        if may {
          written := PoolDevice(View(), a).written;
          queue.PlayOne(d);
        }
    }

    /** The device takes those of the given steps that it may. */
    method Play(acts: seq<PoolAct<T>>)
      requires Shaped()
      modifies this`written, queue`usedFlags, queue`usedIdx, queue`dev, queue`hist, queue.usedRing, bufs
      ensures View() == PoolTries(old(View()), acts)
    {
      for i := 0 to |acts|
        invariant View() == PoolTries(old(View()), acts[..i])
      {
        PlayOne(acts[i]);
        assert acts[..i + 1][..i] == acts[..i];
      }
      assert acts[..|acts|] == acts;
    }

    /** The part of the given steps that concerns the buffers, for a device in state `dev`.  The queue code reads
        no buffer, so it does not matter when during a call of the queue it happens. */
    method PlayBuffers(acts: seq<PoolAct<T>>, dev: Device, ghost p: Pool<T>)
      requires Shaped() && dev == p.sys.dev && bufs[..] == p.bufs && written == p.written && addrs == p.addrs
      requires queue.desc[..] == p.sys.desc && queue.availIdx == p.sys.availIdx
      requires queue.availRing[..] == p.sys.availRing
      requires queue.usedRing.Length == |p.sys.usedRing|
      modifies this`written, bufs
      ensures bufs[..] == PoolTries(p, acts).bufs && written == PoolTries(p, acts).written
      ensures queue.View() == old(queue.View())
    {
      var held, fetched := dev.held, |dev.fetched|;
      for i := 0 to |acts|
        invariant var q := PoolTries(p, acts[..i]);
          && bufs[..] == q.bufs && held == q.sys.dev.held && fetched == |q.sys.dev.fetched|
          && addrs == q.addrs && queue.desc[..] == q.sys.desc && queue.availIdx == q.sys.availIdx
          && queue.availRing[..] == q.sys.availRing && queue.usedRing.Length == |q.sys.usedRing|
      {
        assert acts[..i + 1][..i] == acts[..i];
        match acts[i]
        case Scribble(id, v) =>
          if id in held && id < queue.desc.Length {
            var t := SlotOf(addrs, queue.desc[id].addr);
            if t < bufs.Length {
              bufs[t] := v;
            }
          }
        case Signal(Take) =>
          if 0 < queue.availRing.Length && queue.availIdx != Low16(fetched) {
            held := held + {queue.availRing[Low16(fetched) % queue.availRing.Length]};
            fetched := fetched + 1;
          }
        case Signal(Complete(id, _)) =>
          if 0 < queue.usedRing.Length {
            held := held - {id};
          }
        case Signal(SetFlags(_)) => {}
      }
      assert acts[..|acts|] == acts;
      written := PoolTries(p, acts).written;
    }

    /** The device takes a chain if it can; it holds one then. */
    method Grab() returns (h: u16)
      requires Valid() && |returned| == |written| && |queue.availDescIndex| < bufs.Length
      modifies this`written, queue`usedFlags, queue`usedIdx, queue`dev, queue`hist, queue.usedRing, bufs
      ensures Undisturbed(old(View()), View()) && h in queue.dev.held
      ensures queue.hist.used == old(queue.hist.used) && written == old(written)
    {
      CanGrab(View());
      TryUndisturbed(View(), Signal(Take));
      PlayOne(Signal(Take));
      h :| h in queue.dev.held;
    }

    // -------------------------------------------------------------- the driver

    /** Submits buffer `t` while the device acts at the points from `lo` on: the effect is that of the same
        device steps followed by an atomic submission.  The token is the head of the free list; the buffer stays
        bound to its own index if that is `t`. */
    method Submit(t: u16, script: Script<T>, lo: nat) returns (r: Result<u16>)
      requires Valid() && t in queue.availDescIndex && t < bufs.Length
      modifies this`written, queue, queue.desc, queue.availRing, queue.usedRing, bufs
      ensures r == Ok(old(queue.availDescIndex)[0])
      ensures var q := PoolTries(old(View()), Points(script, lo, AddEnd(lo, 1)));
        t < |q.addrs| && CanAdd(q.sys, Submission(q, t)) && View() == PoolAdd(q, t)
      ensures r == Ok(t) ==> Valid()
    {
      ghost var p := View();
      TriesUndisturbed(p, Points(script, lo, AddEnd(lo, 1)));
      PoolPath(p, script, lo, AddEnd(lo, 1));
      r := AddBuffer(t, script, lo);
      if r == Ok(t) {
        AddKeepsPool(PoolTries(p, Points(script, lo, AddEnd(lo, 1))), t);
      }
    }

    method AddBuffer(t: u16, script: Script<T>, lo: nat) returns (r: Result<u16>)
      requires Shaped() && Core(queue.View()) && 0 < |queue.availDescIndex| && t < bufs.Length
      requires Together(View(), script, lo, AddEnd(lo, 1))
      requires var q := PoolTries(View(), Points(script, lo, AddEnd(lo, 1)));
        q.addrs == addrs && q.len == len && q.returned == returned
      modifies this`written, queue, queue.desc, queue.availRing, queue.usedRing, bufs
      ensures r == Ok(old(queue.availDescIndex)[0])
      ensures var q := PoolTries(old(View()), Points(script, lo, AddEnd(lo, 1)));
        t < |q.addrs| && CanAdd(q.sys, Submission(q, t)) && View() == PoolAdd(q, t)
    {
      ghost var p := View();
      var acts := Points(script, lo, AddEnd(lo, 1));
      PlayBuffers(acts, queue.dev, p);
      r := AddUnder(queue, [Descriptor(addrs[t], len, WRITE, 0)], QueueSchedule(script), lo);
    }

    /** One turn of the loop that submits all buffers: buffer `i` gets token `i`. */
    method SubmitNext(i: u16, script: Script<T>, lo: nat) returns (r: Result<u16>)
      requires Valid() && i < bufs.Length && Counting(queue.availDescIndex, i, bufs.Length)
      modifies this`written, queue, queue.desc, queue.availRing, queue.usedRing, bufs
      ensures Valid() && r == Ok(i) && Counting(queue.availDescIndex, i + 1, bufs.Length)
      ensures |script| <= lo ==> queue.usedFlags == old(queue.usedFlags)
    {
      assert queue.availDescIndex[0] == i;
      TriesUndisturbed(View(), Points(script, lo, AddEnd(lo, 1)));
      if |script| <= lo {
        NoCues(script, lo, AddEnd(lo, 1));
      }
      r := Submit(i, script, lo);
    }

    /** Pops the completion that `peek_used` reported while the device acts at the points from `lo` on: the effect
        is that of the device steps up to point `hi` followed by an atomic pop. */
    method Pop(token: u16, script: Script<T>, lo: nat) returns (r: Result<u32>, hi: nat)
      requires Valid() && Peek(queue.View()) == token
      modifies this, queue, queue.usedRing, bufs
      ensures lo < hi
      ensures var q := PoolTries(old(View()), Points(script, lo, hi));
        CanPop(q.sys, token) && token < |q.bufs| && r == Ok(PopLen(q.sys, token)) && View() == PoolPop(q, token)
    {
      ghost var p := View();
      var dev := queue.dev;
      PointPops(p, script, token, lo, lo + 1);
      r, hi := PopUnder(queue, token, QueueSchedule(script), lo);
      PointPops(p, script, token, lo, hi);
      Settle(token, script, lo, hi, dev, p);
    }

    /** The part of a pop that concerns the buffers. */
    method Settle(token: u16, script: Script<T>, lo: nat, hi: nat, dev: Device, ghost p: Pool<T>)
      requires Shaped() && dev == p.sys.dev && bufs[..] == p.bufs && written == p.written && returned == p.returned
      requires var q := PoolTries(p, Points(script, lo, hi));
        && CanPop(q.sys, token) && token < |q.bufs| && queue.View() == PopStep(q.sys, token)
        && p.sys.desc == q.sys.desc && p.sys.availIdx == q.sys.availIdx && p.sys.availRing == q.sys.availRing
        && |p.sys.usedRing| == |q.sys.usedRing|
        && q.addrs == p.addrs == addrs && q.len == len && q.returned == p.returned
      modifies this, bufs
      ensures View() == PoolPop(PoolTries(p, Points(script, lo, hi)), token)
    {
      PlayBuffers(Points(script, lo, hi), dev, p);
      returned := returned + [(PopLen(PoolTries(p, Points(script, lo, hi)).sys, token), bufs[token])];
    }

    /** Pops the completion that `peek_used` reported; its buffer counts as handed out. */
    method Retrieve(token: u16, script: Script<T>, lo: nat) returns (r: Result<u32>, hi: nat)
      requires Valid() && Peek(queue.View()) == token
      modifies this, queue, queue.usedRing, bufs
      ensures lo < hi && Valid() && old(written) <= written && |old(returned)| < |written|
      ensures r.Ok? && returned == old(returned) + [(r.value, written[|old(returned)|])]
      ensures queue.availDescIndex == old(queue.availDescIndex) + [token] && old(queue.hist.used) <= queue.hist.used
      ensures token < bufs.Length && bufs[token] == written[|old(returned)|]
      ensures |script| <= lo ==> CanPop(old(queue.View()), token) && View() == PoolPop(old(View()), token)
    {
      ghost var p := View();
      r, hi := Pop(token, script, lo);
      RetrievedOk(p, token, Points(script, lo, hi));
      if |script| <= lo {
        NoCues(script, lo, hi);
      }
    }

    /** `peek_used` after device steps: -1 if every completion was handed out. */
    method Poll(script: Script<T>, at: nat) returns (token: int)
      requires Valid()
      modifies this`written, queue`usedFlags, queue`usedIdx, queue`dev, queue`hist, queue.usedRing, bufs
      ensures View() == PoolTries(old(View()), Cue(script, at)) && Undisturbed(old(View()), View())
      ensures token == -1 ==> |returned| == |written|
      ensures token != -1 ==> 0 <= token < 0x1_0000 && Peek(queue.View()) == token
    {
      TriesUndisturbed(View(), Cue(script, at));
      Play(Cue(script, at));
      PeekIsToken(View());
      token := queue.PeekUsed();
    }

    /** Reads a buffer that is not with the device, after device steps. */
    method Read(t: u16, script: Script<T>, at: nat) returns (v: T)
      requires Valid() && t in queue.availDescIndex && t < bufs.Length
      modifies this`written, queue`usedFlags, queue`usedIdx, queue`dev, queue`hist, queue.usedRing, bufs
      ensures View() == PoolTries(old(View()), Cue(script, at)) && Undisturbed(old(View()), View())
      ensures v == old(bufs[t])
    {
      TriesUndisturbed(View(), Cue(script, at));
      Play(Cue(script, at));
      v := bufs[t];
    }

    /** Pops the completion that `peek_used` reported and reads its buffer. */
    method Collect(token: u16, script: Script<T>, lo: nat) returns (len: u32, v: T, hi: nat)
      requires Valid() && Peek(queue.View()) == token
      modifies this, queue, queue.usedRing, bufs
      ensures lo < hi && Valid() && old(written) <= written && |old(returned)| < |written|
      ensures v == written[|old(returned)|] && returned == old(returned) + [(len, v)]
      ensures queue.availDescIndex == old(queue.availDescIndex) + [token] && old(queue.hist.used) <= queue.hist.used
      ensures token < bufs.Length
      ensures |script| <= lo ==> CanPop(old(queue.View()), token) && View() == PoolPop(old(View()), token)
    {
      var r;
      r, hi := Retrieve(token, script, lo);
      v := Read(token, script, hi);
      len, hi := r.value, hi + 1;
    }

    /** Submits the buffer of the token that was just popped.  The new token is the old one exactly if no other
        descriptor was free. */
    method Resubmit(token: u16, script: Script<T>, lo: nat) returns (r: Result<u16>)
      requires Valid() && token < bufs.Length
      requires 0 < |queue.availDescIndex| && queue.availDescIndex[|queue.availDescIndex| - 1] == token
      modifies this`written, queue, queue.desc, queue.availRing, queue.usedRing, bufs
      ensures r == Ok(token) <==> old(queue.availDescIndex) == [token]
      ensures r == Ok(token) ==> Valid() && queue.availDescIndex == []
      ensures Shaped() && old(written) <= written && old(queue.hist.used) <= queue.hist.used
      ensures |script| <= lo ==>
        CanAdd(old(queue.View()), Submission(old(View()), token)) && View() == PoolAdd(old(View()), token)
    {
      ghost var free := queue.availDescIndex;
      assert NoDup(free);
      TriesUndisturbed(View(), Points(script, lo, AddEnd(lo, 1)));
      r := Submit(token, script, lo);
      if |script| <= lo {
        NoCues(script, lo, AddEnd(lo, 1));
      }
    }

    /** Notifies the device if it wants that, after device steps; fails if the transport does. */
    method Notify(t: Mmio.MmioTransport, script: Script<T>, at: nat, notifyOk: bool) returns (ok: bool)
      requires Shaped()
      modifies t, this`written, queue`usedFlags, queue`usedIdx, queue`dev, queue`hist, queue.usedRing, bufs
      ensures View() == PoolTries(old(View()), Cue(script, at))
      ensures ok <==> queue.usedFlags % 2 == 1 || notifyOk
      ensures t.Told(Bell(queue.usedFlags, notifyOk, queue.index))
    {
      Play(Cue(script, at));
      ok := queue.Notify(t, notifyOk);
    }

    /** The same on a pool in order, which stays so. */
    method NotifyInOrder(t: Mmio.MmioTransport, script: Script<T>, at: nat, notifyOk: bool) returns (ok: bool)
      requires Valid()
      modifies t, this`written, queue`usedFlags, queue`usedIdx, queue`dev, queue`hist, queue.usedRing, bufs
      ensures Valid() && queue.availDescIndex == old(queue.availDescIndex) && old(written) <= written
      ensures ok <==> queue.usedFlags % 2 == 1 || notifyOk
      ensures t.Told(Bell(queue.usedFlags, notifyOk, queue.index))
      ensures |script| <= at ==> View() == old(View())
    {
      TriesUndisturbed(View(), Cue(script, at));
      ok := Notify(t, script, at, notifyOk);
    }
  }

  lemma RetrievedOk<T>(p: Pool<T>, token: u16, acts: seq<PoolAct<T>>)
    requires PoolInv(p) && Peek(p.sys) == token
    ensures var q := PoolTries(p, acts);
      && Undisturbed(p, q) && CanPop(q.sys, token) && token < |q.bufs|
      && var w := PoolPop(q, token);
         && PoolInv(w) && w.sys.free == p.sys.free + [token] && |p.returned| < |w.written|
         && w.returned == p.returned + [(PopLen(q.sys, token), w.written[|p.returned|])]
         && w.bufs[token] == w.written[|p.returned|]
  {
    var q := PoolTries(p, acts);
    TriesUndisturbed(p, acts);
    PeekIsToken(p);
    PeekStable(p, q);
    PopKeepsPool(q, token);
  }

  /** What `peek_used` reports is poppable at every later point, with one and the same length. */
  lemma PointPops<T>(p: Pool<T>, script: Script<T>, token: u16, lo: nat, at: nat)
    requires PoolInv(p) && Peek(p.sys) == token && lo <= at
    ensures var q := PoolTries(p, Points(script, lo, at));
      && StateAt(p.sys, QueueSchedule(script), lo, at) == q.sys
      && p.sys.hist.cursor < |p.sys.hist.used|
      && CanPop(q.sys, token) && token < |q.bufs| && PopLen(q.sys, token) == p.sys.hist.used[p.sys.hist.cursor].len
      && p.sys.desc == q.sys.desc && p.sys.availIdx == q.sys.availIdx && p.sys.availRing == q.sys.availRing
      && |p.sys.usedRing| == |q.sys.usedRing| && q.addrs == p.addrs && q.len == p.len && q.returned == p.returned
  {
    var q := PoolTries(p, Points(script, lo, at));
    PoolPath(p, script, lo, at);
    TriesUndisturbed(p, Points(script, lo, at));
    PeekIsOldest(p.sys);
    PeekStable(p, q);
    PopKeepsPool(q, token);
  }
}
