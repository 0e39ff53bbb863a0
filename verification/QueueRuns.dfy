/** Whole runs of a virtqueue: any interleaving of driver calls and device steps. */
module QueueRuns {
  import opened Wrap
  import opened Sequences
  import opened QueueModel
  import opened QueueProofs

  // ---------------------------------------------------------------- runs

  /** A new queue over zeroed memory. */
  function Fresh(size: nat): System {
    System(seq(size, _ => Descriptor(0, 0, 0, 0)), 0, seq(size, _ => 0), 0, 0, 0, seq(size, _ => UsedElem(0, 0)),
           seq(size, i requires 0 <= i < size => Low16(i)), 0, {},
           Device([], {}),
           History([], [], [], 0, {}, map[], map[]))
  }

  datatype Event =
    | Add(data: seq<Descriptor>)
    | Pop(id: u16)
    | Dev(act: DeviceAct)

  /** Driver calls that fail (queue full, not ready) change nothing. */
  function Step(s: System, e: Event): System
    requires e.Dev? ==> DeviceMay(s, e.act)
  {
    match e
    case Add(data) => if CanAdd(s, data) then AddStep(s, data) else s
    case Pop(id) => if CanPop(s, id) then PopStep(s, id) else s
    case Dev(a) => DeviceStep(s, a)
  }

  /** What the callers of the queue and the device promise, whatever the order of events. */
  ghost predicate Legal(s: System, e: Event) {
    match e
    case Add(data) => WellFlagged(data)
    case Pop(_) => true
    case Dev(a) => DeviceMay(s, a)
  }

  /** The two conditions under which an out-of-order driver is safe: a completion finds room, and the
      first entry that matches a popped id has not been popped before. */
  ghost predicate Guarded(s: System, e: Event) {
    match e
    case Add(_) => true
    case Pop(id) => CanPop(s, id) ==> Match(s, id) !in s.hist.read
    case Dev(a) => a.Complete? ==> Room(s)
  }

  ghost predicate LegalRun(s: System, es: seq<Event>)
    decreases |es|
  {
    es == [] || (Legal(s, es[0]) && LegalRun(Step(s, es[0]), es[1..]))
  }

  ghost predicate GuardedRun(s: System, es: seq<Event>)
    requires LegalRun(s, es)
    decreases |es|
  {
    es == [] || (Guarded(s, es[0]) && GuardedRun(Step(s, es[0]), es[1..]))
  }

  ghost function Run(s: System, es: seq<Event>): System
    requires LegalRun(s, es)
    decreases |es|
  {
    if es == [] then s else Run(Step(s, es[0]), es[1..])
  }

  lemma FreshInv(size: nat)
    requires Accepted(size)
    ensures Inv(Fresh(size)) && Fresh(size).hist.read == {}
  {
    AcceptedBound(size);
    var s := Fresh(size);
    assert Lows({}) == {};
    forall x | 0 <= x < size
      ensures x in s.free
    {
      assert s.free[x] == x;
    }
  }

  lemma StepKeeps(s: System, e: Event)
    requires Inv(s) && Legal(s, e) && Guarded(s, e)
    ensures Inv(Step(s, e))
  {
    match e
    case Add(data) => if CanAdd(s, data) { AddKeeps(s, data); }
    case Pop(id) => if CanPop(s, id) { PopKeeps(s, id); }
    case Dev(a) => DeviceKeeps(s, a);
  }

  /** Every guarded run keeps the invariant: no descriptor is leaked, freed twice or rewritten while
      it is outstanding, no ring entry is lost, and the device reads what was submitted. */
  lemma {:induction false} GuardedRunKeeps(s: System, es: seq<Event>)
    requires Inv(s) && LegalRun(s, es) && GuardedRun(s, es)
    ensures Inv(Run(s, es))
    decreases |es|
  {
    if es != [] {
      StepKeeps(s, es[0]);
      GuardedRunKeeps(Step(s, es[0]), es[1..]);
    }
  }

  // ---------------------------------------------------------------- popping what peek_used reports

  /** `peek_used` */
  function Peek(s: System): (r: int)
    requires 0 < |s.usedRing|
    ensures -1 <= r
  {
    if s.last == s.usedIdx then -1 else s.usedRing[s.last % |s.usedRing|].id
  }

  /** `peek_used` reports the oldest entry that was not popped, and nothing exactly when there is
      none; a popped entry is never reported. */
  lemma PeekIsOldest(s: System)
    requires s.Shape() && UsedOk(s)
    ensures Peek(s) == -1 <==> s.hist.cursor == |s.hist.used|
    ensures Peek(s) != -1 ==> Unread(s, s.hist.cursor) && Peek(s) == s.hist.used[s.hist.cursor].id
    ensures Peek(s) == -1 <==> (forall k: nat :: !Unread(s, k))
    ensures forall k: nat :: Unread(s, k) ==> s.hist.cursor <= k
  {
    AcceptedBound(|s.desc|);
    if s.hist.cursor < |s.hist.used| {
      if s.last == s.usedIdx {
        LowInjective(s.hist.cursor, |s.hist.used|);
      }
      SlotOfIndex(s.hist.cursor, |s.desc|);
      assert Unread(s, s.hist.cursor);
    }
  }

  ghost predicate InOrder(s: System, e: Event) {
    e.Pop? && 0 < |s.usedRing| && CanPop(s, e.id) ==> e.id == Peek(s)
  }

  ghost predicate InOrderRun(s: System, es: seq<Event>)
    requires LegalRun(s, es)
    decreases |es|
  {
    es == [] || (InOrder(s, es[0]) && InOrderRun(Step(s, es[0]), es[1..]))
  }

  lemma LiveBelow(s: System, h: nat)
    requires Ownership(|s.desc|, s.free, s.hist.live) && Staged(s) && h in s.hist.stage
    ensures h < |s.desc|
  {
    assert h in s.hist.live.Keys;
    assert OwnedChain(|s.desc|, s.free, h, s.hist.live[h].ids);
  }

  /** Unread completions and one chain in the device's hands are distinct descriptors, so in an
      in-order run a completion always finds room. */
  lemma RoomForHeld(s: System, id: u16)
    requires Ownership(|s.desc|, s.free, s.hist.live) && Staged(s)
    requires s.hist.cursor <= |s.hist.used| && s.hist.read == {} && id in s.dev.held
    ensures Room(s)
  {
    var c, n := s.hist.cursor, |s.hist.used| - s.hist.cursor;
    var w: seq<nat> := seq(n, i requires 0 <= i < n => s.hist.used[c + i].id) + [id];
    assert AtStage(s, id, Held);
    LiveBelow(s, id);
    forall i | 0 <= i < n
      ensures 0 <= w[i] < |s.desc| && AtStage(s, w[i], Done(c + i))
    {
      assert Unread(s, c + i);
      LiveBelow(s, w[i]);
    }
    Pigeonhole(w, |s.desc|);
  }

  /** In order, a pop takes exactly the entry at the cursor and moves the cursor by one. */
  lemma PopOldest(s: System, id: nat)
    requires s.Shape() && UsedOk(s) && s.hist.read == {} && CanPop(s, id) && id == Peek(s)
    ensures Match(s, id) == s.hist.cursor
    ensures s.hist.used[s.hist.cursor] == UsedElem(id, PopLen(s, id))
    ensures var t := PopStep(s, id); t.hist.cursor == s.hist.cursor + 1 && t.hist.read == {} && t.popped == {}
  {
    MatchOk(s, id);
    PeekIsOldest(s);
    var c := s.hist.cursor;
    assert s.hist.read + {c} == {c};
    AdvancePosOk(c, {c});
    PopUsedOk(s, id);
    assert PopStep(s, id).hist.read == {};
    assert Lows({}) == {};
  }

  lemma InOrderGuarded(s: System, e: Event)
    requires Inv(s) && s.hist.read == {} && Legal(s, e) && InOrder(s, e)
    ensures Guarded(s, e) && Step(s, e).hist.read == {}
  {
    match e
    case Add(_) =>
    case Pop(id) => if CanPop(s, id) { PopOldest(s, id); }
    case Dev(a) => if a.Complete? { RoomForHeld(s, a.id); }
  }

  /** The completions the driver obtained from a run, in the order it obtained them. */
  ghost function Results(s: System, es: seq<Event>): seq<UsedElem>
    requires LegalRun(s, es)
    decreases |es|
  {
    if es == [] then []
    else
      var rest := Results(Step(s, es[0]), es[1..]);
      if es[0].Pop? && CanPop(s, es[0].id) then [UsedElem(es[0].id, PopLen(s, es[0].id))] + rest else rest
  }

  /** A driver that pops what `peek_used` reports needs no condition on the device's timing. */
  lemma {:induction false} InOrderRunKeeps(s: System, es: seq<Event>)
    requires Inv(s) && s.hist.read == {} && LegalRun(s, es) && InOrderRun(s, es)
    ensures GuardedRun(s, es)
    ensures Inv(Run(s, es)) && Run(s, es).hist.read == {}
    decreases |es|
  {
    if es != [] {
      InOrderGuarded(s, es[0]);
      InOrderStep(s, es[0]);
      InOrderRunKeeps(Step(s, es[0]), es[1..]);
    }
  }

  /** In-order drivers obtain exactly the device's completions, each once, in completion order. */
  lemma {:induction false} InOrderRunIsFifo(s: System, es: seq<Event>)
    requires Inv(s) && s.hist.read == {} && LegalRun(s, es) && InOrderRun(s, es)
    ensures var t := Run(s, es);
      && s.hist.cursor <= t.hist.cursor <= |t.hist.used|
      && s.hist.used <= t.hist.used
      && Results(s, es) == t.hist.used[s.hist.cursor..t.hist.cursor]
    decreases |es|
  {
    if es == [] {
      assert s.hist.used[s.hist.cursor..s.hist.cursor] == [];
    } else {
      InOrderStep(s, es[0]);
      InOrderRunIsFifo(Step(s, es[0]), es[1..]);
      FifoCons(s, es);
    }
  }

  lemma FifoCons(s: System, es: seq<Event>)
    requires es != [] && LegalRun(s, es)
    requires var u, t := Step(s, es[0]), Run(s, es);
      && CursorMoves(s, es[0], u)
      && u.hist.cursor <= t.hist.cursor <= |t.hist.used|
      && u.hist.used <= t.hist.used
      && Results(u, es[1..]) == t.hist.used[u.hist.cursor..t.hist.cursor]
    ensures var t := Run(s, es);
      && s.hist.used <= t.hist.used
      && Results(s, es) == t.hist.used[s.hist.cursor..t.hist.cursor]
  {
    var u, c, t := Step(s, es[0]), s.hist.cursor, Run(s, es);
    if es[0].Pop? && CanPop(s, es[0].id) {
      assert t.hist.used[c] == s.hist.used[c];
      assert t.hist.used[c..t.hist.cursor] == [t.hist.used[c]] + t.hist.used[c + 1..t.hist.cursor];
    }
  }

  /** One in-order event: the completion log only grows, and the cursor moves past exactly the entry
      that was popped. */
  ghost predicate CursorMoves(s: System, e: Event, u: System) {
    var popped := e.Pop? && CanPop(s, e.id);
    && s.hist.used <= u.hist.used
    && u.hist.cursor == s.hist.cursor + (if popped then 1 else 0)
    && (popped ==> s.hist.cursor < |s.hist.used| && s.hist.used[s.hist.cursor] == UsedElem(e.id, PopLen(s, e.id)))
  }

  lemma InOrderStep(s: System, e: Event)
    requires Inv(s) && s.hist.read == {} && Legal(s, e) && InOrder(s, e)
    ensures Inv(Step(s, e)) && Step(s, e).hist.read == {}
    ensures CursorMoves(s, e, Step(s, e))
  {
    InOrderGuarded(s, e);
    StepKeeps(s, e);
    if e.Pop? && CanPop(s, e.id) {
      PopOldest(s, e.id);
      MatchOk(s, e.id);
    }
  }

  // ---------------------------------------------------------------- popping out of order

  /** Completion `k` was popped. */
  predicate Taken(h: History, k: nat) {
    k < h.cursor || k in h.read
  }

  /** The positions in the completion log of what the driver obtained from a run. */
  ghost function Positions(s: System, es: seq<Event>): seq<nat>
    requires LegalRun(s, es)
    decreases |es|
  {
    if es == [] then []
    else
      var rest := Positions(Step(s, es[0]), es[1..]);
      if es[0].Pop? && CanPop(s, es[0].id) then [Match(s, es[0].id)] + rest else rest
  }

  /** A guarded pop takes exactly the completion it matched, which was not taken before. */
  lemma PopTakes(s: System, id: u16)
    requires s.Shape() && UsedOk(s) && CanPop(s, id) && Match(s, id) !in s.hist.read
    ensures var m, t := Match(s, id), PopStep(s, id);
      && m < |s.hist.used| && s.hist.used[m] == UsedElem(id, PopLen(s, id))
      && !Taken(s.hist, m) && t.hist.used == s.hist.used
      && forall k: nat :: Taken(t.hist, k) <==> Taken(s.hist, k) || k == m
  {
    MatchOk(s, id);
    AdvancePosOk(s.hist.cursor, s.hist.read + {Match(s, id)});
  }

  /** What one event of a guarded run does to the log and to what was popped. */
  ghost predicate Takes(s: System, e: Event, u: System) {
    && s.hist.used <= u.hist.used
    && if e.Pop? && CanPop(s, e.id) then
         var m := Match(s, e.id);
         && m < |s.hist.used| && s.hist.used[m] == UsedElem(e.id, PopLen(s, e.id)) && !Taken(s.hist, m)
         && forall k: nat :: Taken(u.hist, k) <==> Taken(s.hist, k) || k == m
       else
         forall k: nat :: Taken(u.hist, k) <==> Taken(s.hist, k)
  }

  lemma StepTakes(s: System, e: Event)
    requires s.Shape() && UsedOk(s) && Legal(s, e) && Guarded(s, e)
    ensures Takes(s, e, Step(s, e))
  {
    if e.Pop? && CanPop(s, e.id) {
      PopTakes(s, e.id);
    }
  }

  /** Between `s` and `t` exactly the completions at positions `ps` were popped, each once, and they are `rs`. */
  ghost predicate PoppedExactly(s: System, t: System, ps: seq<nat>, rs: seq<UsedElem>) {
    && s.hist.used <= t.hist.used
    && NoDup(ps) && |rs| == |ps|
    && (forall i :: 0 <= i < |ps| ==> ps[i] < |t.hist.used| && rs[i] == t.hist.used[ps[i]] && !Taken(s.hist, ps[i]))
    && (forall k: nat :: Taken(t.hist, k) <==> Taken(s.hist, k) || k in ps)
  }

  lemma PoppedCons(s: System, u: System, t: System, e: Event, ps: seq<nat>, rs: seq<UsedElem>)
    requires Takes(s, e, u) && PoppedExactly(u, t, ps, rs)
    ensures if e.Pop? && CanPop(s, e.id) then
        PoppedExactly(s, t, [Match(s, e.id)] + ps, [UsedElem(e.id, PopLen(s, e.id))] + rs)
      else
        PoppedExactly(s, t, ps, rs)
  {
    if e.Pop? && CanPop(s, e.id) {
      PoppedFirst(s, u, t, Match(s, e.id), UsedElem(e.id, PopLen(s, e.id)), ps, rs);
    }
  }

  lemma PoppedFirst(s: System, u: System, t: System, m: nat, r: UsedElem, ps: seq<nat>, rs: seq<UsedElem>)
    requires s.hist.used <= u.hist.used && m < |s.hist.used| && s.hist.used[m] == r && !Taken(s.hist, m)
    requires forall k: nat :: Taken(u.hist, k) <==> Taken(s.hist, k) || k == m
    requires PoppedExactly(u, t, ps, rs)
    ensures PoppedExactly(s, t, [m] + ps, [r] + rs)
  {
    assert Taken(u.hist, m) && m !in ps;
    NoDupCons(m, ps);
    forall k: nat
      ensures k in [m] + ps <==> k == m || k in ps
    {
    }
  }

  /** Over any guarded run, in whatever order the driver pops: what it obtained is exactly what it popped,
      each completion at most once and with its own length. */
  lemma {:induction false} GuardedRunPopsOnce(s: System, es: seq<Event>)
    requires Inv(s) && LegalRun(s, es) && GuardedRun(s, es)
    ensures PoppedExactly(s, Run(s, es), Positions(s, es), Results(s, es))
    decreases |es|
  {
    if es != [] {
      var u := Step(s, es[0]);
      StepKeeps(s, es[0]);
      StepTakes(s, es[0]);
      GuardedRunPopsOnce(u, es[1..]);
      PoppedCons(s, u, Run(s, es), es[0], Positions(u, es[1..]), Results(u, es[1..]));
    }
  }
}
