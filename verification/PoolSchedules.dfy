/** Device steps on a pool, at the points of a driver operation. */
module PoolSchedules {
  import opened Wrap
  import opened QueueModel
  import opened Interference
  import opened PoolModel

  /** What the device does at each of the points where a driver operation touches shared memory. */
  type Script<T> = seq<seq<PoolAct<T>>>

  function Cue<T>(script: Script<T>, at: nat): seq<PoolAct<T>> {
    if at < |script| then script[at] else []
  }

  /** Everything the device does from point `lo` up to point `hi`. */
  function Points<T>(script: Script<T>, lo: nat, hi: nat): seq<PoolAct<T>>
    decreases hi
  {
    if hi <= lo then [] else Points(script, lo, hi - 1) + Cue(script, hi - 1)
  }

  /** The steps that concern the queue. */
  function Signals<T>(acts: seq<PoolAct<T>>): seq<DeviceAct>
    decreases |acts|
  {
    if acts == [] then []
    else
      var last := acts[|acts| - 1];
      Signals(acts[..|acts| - 1]) + if last.Signal? then [last.act] else []
  }

  function QueueSchedule<T>(script: Script<T>): (sched: Schedule)
    ensures forall at: nat :: At(sched, at) == Signals(Cue(script, at))
  {
    seq(|script|, i requires 0 <= i < |script| => Signals(script[i]))
  }

  /** Where a device leads that is given the steps `acts` and takes those that it may. */
  ghost function PoolTries<T>(p: Pool<T>, acts: seq<PoolAct<T>>): Pool<T>
    decreases |acts|
  {
    if acts == [] then p else PoolTry(PoolTries(p, acts[..|acts| - 1]), acts[|acts| - 1])
  }

  lemma {:induction false} TriesAppend<T>(p: Pool<T>, a: seq<PoolAct<T>>, b: seq<PoolAct<T>>)
    ensures PoolTries(p, a + b) == PoolTries(PoolTries(p, a), b)
    decreases |b|
  {
    if b == [] {
      assert a + b == a;
    } else {
      var c := b[..|b| - 1];
      TriesAppend(p, a, c);
      assert (a + b)[..|a + b| - 1] == a + c;
    }
  }

  /** The queue does what it does without the buffers. */
  lemma {:induction false} TriesSignals<T>(p: Pool<T>, acts: seq<PoolAct<T>>)
    ensures PoolTries(p, acts).sys == Tries(p.sys, Signals(acts))
    decreases |acts|
  {
    if acts != [] {
      var c, last := acts[..|acts| - 1], acts[|acts| - 1];
      TriesSignals(p, c);
      if last.Signal? {
        assert Signals(acts)[..|Signals(acts)| - 1] == Signals(c);
      } else {
        assert Signals(acts) == Signals(c);
      }
    }
  }

  ghost predicate Together<T>(p: Pool<T>, script: Script<T>, lo: nat, at: nat) {
    StateAt(p.sys, QueueSchedule(script), lo, at) == PoolTries(p, Points(script, lo, at)).sys
  }

  /** The path along which the queue goes is that of the pool. */
  lemma {:induction false} PoolPath<T>(p: Pool<T>, script: Script<T>, lo: nat, hi: nat)
    requires lo <= hi
    ensures Together(p, script, lo, hi)
    decreases hi
  {
    if hi == lo {
      TogetherFirst(p, script, lo);
    } else {
      PoolPath(p, script, lo, hi - 1);
      TogetherNext(p, script, lo, hi - 1);
    }
  }

  lemma TogetherFirst<T>(p: Pool<T>, script: Script<T>, lo: nat)
    ensures Together(p, script, lo, lo)
  {
    assert Points(script, lo, lo) == [];
  }

  lemma TogetherNext<T>(p: Pool<T>, script: Script<T>, lo: nat, at: nat)
    requires lo <= at && Together(p, script, lo, at)
    ensures Together(p, script, lo, at + 1)
  {
    var sched, a, b := QueueSchedule(script), Points(script, lo, at), Cue(script, at);
    var x := StateAt(p.sys, sched, lo, at);
    PathNext(p.sys, sched, lo, at);
    assert StateAt(p.sys, sched, lo, at + 1) == Tries(x, Signals(b));
    PoolHop(p, a, b);
    assert Points(script, lo, at + 1) == a + b;
  }

  lemma PathNext(s: System, sched: Schedule, lo: nat, at: nat)
    requires lo <= at
    ensures StateAt(s, sched, lo, at + 1) == Tries(StateAt(s, sched, lo, at), At(sched, at))
  {
  }

  lemma PoolHop<T>(p: Pool<T>, a: seq<PoolAct<T>>, b: seq<PoolAct<T>>)
    ensures PoolTries(p, a + b).sys == Tries(PoolTries(p, a).sys, Signals(b))
  {
    TriesAppend(p, a, b);
    TriesSignals(PoolTries(p, a), b);
  }

  lemma {:induction false} TriesUndisturbed<T>(p: Pool<T>, acts: seq<PoolAct<T>>)
    requires PoolInv(p)
    ensures Undisturbed(p, PoolTries(p, acts))
    decreases |acts|
  {
    if acts != [] {
      var q := PoolTries(p, acts[..|acts| - 1]);
      TriesUndisturbed(p, acts[..|acts| - 1]);
      TryUndisturbed(q, acts[|acts| - 1]);
      UndisturbedTwice(p, q, PoolTries(p, acts));
    }
  }

  /** Completions are only added, in whatever state the pool is. */
  lemma {:induction false} TriesGrow<T>(p: Pool<T>, acts: seq<PoolAct<T>>)
    ensures var q := PoolTries(p, acts); p.written <= q.written && p.sys.hist.used <= q.sys.hist.used
    decreases |acts|
  {
    if acts != [] {
      TriesGrow(p, acts[..|acts| - 1]);
    }
  }

  lemma {:induction false} NoCues<T>(script: Script<T>, lo: nat, hi: nat)
    requires |script| <= lo
    ensures Points(script, lo, hi) == []
    decreases hi
  {
    if lo < hi {
      NoCues(script, lo, hi - 1);
    }
  }

  /** The device fills the buffer of a chain that it holds, asks for notifications, and completes the chain. */
  function Filling<T>(h: u16, v: T, len: u32): seq<PoolAct<T>> {
    [Scribble(h, v), Signal(SetFlags(0)), Signal(Complete(h, len))]
  }

  lemma TriesThree<T>(p: Pool<T>, x: PoolAct<T>, y: PoolAct<T>, z: PoolAct<T>)
    ensures PoolTries(p, [x, y, z]) == PoolTry(PoolTry(PoolTry(p, x), y), z)
  {
    var acts := [x, y, z];
    assert acts[..2] == [x, y] && [x, y][..1] == [x] && [x][..0] == [];
    assert PoolTries(p, [x]) == PoolTry(p, x);
    assert PoolTries(p, [x, y]) == PoolTry(PoolTry(p, x), y);
  }

  lemma FillingDelivers<T>(p: Pool<T>, h: u16, v: T, len: u32)
    requires PoolInv(p) && h in p.sys.dev.held
    ensures var q := PoolTries(p, Filling(h, v, len));
      && q.written == p.written + [v] && q.sys.usedFlags == 0 && q.returned == p.returned
      && q.sys.hist.used == p.sys.hist.used + [UsedElem(h, len)]
  {
    HeldTarget(p, h);
    AcceptedBound(|p.sys.desc|);
    FillsHeld(p, h, v, len);
  }

  lemma FillsHeld<T>(p: Pool<T>, h: u16, v: T, len: u32)
    requires h in p.sys.dev.held && h < |p.bufs| && Target(p, h) == h && 0 < |p.sys.usedRing|
    ensures var q := PoolTries(p, Filling(h, v, len));
      && q.written == p.written + [v] && q.sys.usedFlags == 0 && q.returned == p.returned
      && q.sys.hist.used == p.sys.hist.used + [UsedElem(h, len)]
  {
    TriesThree(p, Scribble(h, v), Signal(SetFlags(0)), Signal(Complete(h, len)));
  }
}
