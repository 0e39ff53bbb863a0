/** Runs on a queue of two descriptors that show why out-of-order users need their two conditions. */
module Counterexamples {
  import opened Wrap
  import opened Sequences
  import opened QueueModel
  import opened QueueProofs
  import opened QueueRuns
  import opened QueueTheorems

  const BUF := Descriptor(0x1000, 64, WRITE, 0)
  const ZERO := Descriptor(0, 0, 0, 0)

  lemma OneMore(s: System, es: seq<Event>, e: Event)
    requires LegalRun(s, es) && Legal(Run(s, es), e)
    ensures LegalRun(s, es + [e]) && Run(s, es + [e]) == Step(Run(s, es), e)
    decreases |es|
  {
    if es == [] {
      assert es + [e] == [e];
    } else {
      assert (es + [e])[1..] == es[1..] + [e];
      OneMore(Step(s, es[0]), es[1..], e);
    }
  }

  /** The run `es` from a new queue of two descriptors is legal and ends in `s`. */
  ghost predicate Reaches(es: seq<Event>, s: System) {
    LegalRun(Fresh(2), es) && Run(Fresh(2), es) == s
  }

  /** The same, and the run is guarded. */
  ghost predicate Safely(es: seq<Event>, s: System) {
    Reaches(es, s) && GuardedRun(Fresh(2), es)
  }

  lemma {:induction false} OneMoreGuarded(s: System, es: seq<Event>, e: Event)
    requires LegalRun(s, es) && GuardedRun(s, es) && Legal(Run(s, es), e) && Guarded(Run(s, es), e)
    ensures LegalRun(s, es + [e]) && GuardedRun(s, es + [e])
    decreases |es|
  {
    OneMore(s, es, e);
    if es == [] {
      assert es + [e] == [e];
    } else {
      assert (es + [e])[1..] == es[1..] + [e];
      OneMoreGuarded(Step(s, es[0]), es[1..], e);
    }
  }

  lemma SafeStep(es: seq<Event>, s: System, e: Event)
    requires Safely(es, s) && Legal(s, e) && Guarded(s, e)
    ensures Safely(es + [e], Step(s, e))
  {
    OneMore(Fresh(2), es, e);
    OneMoreGuarded(Fresh(2), es, e);
  }

  lemma SafelyInv(es: seq<Event>, s: System)
    requires Safely(es, s)
    ensures Inv(s)
  {
    assert IsPowerOfTwo(1) && IsPowerOfTwo(2);
    FreshInv(2);
    GuardedRunKeeps(Fresh(2), es);
  }

  /** The driver's view of a queue of two descriptors. */
  ghost predicate Looks(s: System, availIdx: u16, free: seq<u16>, usedIdx: u16, usedRing: seq<UsedElem>, last: u16,
                        popped: set<u16>)
  {
    && s.desc == [BUF, BUF] && |s.availRing| == 2
    && s.availIdx == availIdx && s.free == free
    && s.usedIdx == usedIdx && s.usedRing == usedRing && s.last == last && s.popped == popped
  }

  lemma AddBuf(s: System, id: u16, rest: seq<u16>)
    requires |s.desc| == 2 && |s.availRing| == 2 && s.free == [id] + rest && Below(s.free, 2)
    ensures WellFlagged([BUF]) && CanAdd(s, [BUF])
    ensures var t := AddStep(s, [BUF]);
      && t.desc == s.desc[id := BUF] && t.free == rest && t.availRing == s.availRing[s.availIdx % 2 := id]
      && t.hist.stage == s.hist.stage[id := Queued(|s.hist.heads|)]
  {
    assert NewIds(s.free, 1) == [id];
    PlaceAt(s.desc, [id], [BUF]);
  }

  /** Two single-descriptor chains are added, fetched and completed in order. */
  lemma BothDone() returns (es: seq<Event>, s: System)
    ensures Safely(es, s)
    ensures Looks(s, 2, [], 2, [UsedElem(0, 7), UsedElem(1, 9)], 0, {})
    ensures s.hist.cursor == 0 && s.hist.read == {} && s.hist.used == [UsedElem(0, 7), UsedElem(1, 9)]
    ensures |s.dev.fetched| == 2 && s.dev.held == {} && |s.hist.heads| == 2 && s.availRing == [0, 1]
  {
    var s0 := Fresh(2);
    assert s0.desc == [ZERO, ZERO] && s0.availRing == [0, 0] && s0.free == [0] + [1];
    assert LegalRun(s0, []) && Run(s0, []) == s0 && GuardedRun(s0, []);
    AddBuf(s0, 0, [1]);
    SafeStep([], s0, Add([BUF]));
    var s1, e1 := AddStep(s0, [BUF]), [] + [Add([BUF])];
    assert s1.free == [1] + [];
    AddBuf(s1, 1, []);
    SafeStep(e1, s1, Add([BUF]));
    var s2, e2 := AddStep(s1, [BUF]), e1 + [Add([BUF])];
    assert s2.availRing == [0, 1] && s2.desc == [BUF, BUF];
    es, s := FinishBoth(e2, s2);
  }

  lemma FinishBoth(e2: seq<Event>, s2: System) returns (es: seq<Event>, s: System)
    requires Safely(e2, s2)
    requires s2.desc == [BUF, BUF] && s2.availIdx == 2 && s2.availRing == [0, 1] && s2.free == []
    requires s2.usedIdx == 0 && |s2.usedRing| == 2 && s2.last == 0 && s2.popped == {}
    requires s2.dev == Device([], {}) && s2.hist.cursor == 0
    requires s2.hist.read == {} && s2.hist.used == [] && |s2.hist.heads| == 2
    ensures Safely(es, s)
    ensures Looks(s, 2, [], 2, [UsedElem(0, 7), UsedElem(1, 9)], 0, {})
    ensures s.hist.cursor == 0 && s.hist.read == {} && s.hist.used == [UsedElem(0, 7), UsedElem(1, 9)]
    ensures |s.dev.fetched| == 2 && s.dev.held == {} && |s.hist.heads| == 2 && s.availRing == [0, 1]
  {
    SafeStep(e2, s2, Dev(Take));
    var s3, e3 := DeviceStep(s2, Take), e2 + [Dev(Take)];
    assert s3.dev.held == {0};
    SafeStep(e3, s3, Dev(Take));
    var s4, e4 := DeviceStep(s3, Take), e3 + [Dev(Take)];
    assert s4.dev.held == {0, 1};
    SafeStep(e4, s4, Dev(Complete(0, 7)));
    var s5, e5 := DeviceStep(s4, Complete(0, 7)), e4 + [Dev(Complete(0, 7))];
    assert s5.dev.held == {1};
    SafeStep(e5, s5, Dev(Complete(1, 9)));
    s, es := DeviceStep(s5, Complete(1, 9)), e5 + [Dev(Complete(1, 9))];
    assert s.usedRing == [UsedElem(0, 7), UsedElem(1, 9)];
  }

  /** The second chain is popped first and its descriptor is used for a third chain. */
  lemma PoppedAheadAndReused() returns (es: seq<Event>, s: System)
    ensures Safely(es, s)
    ensures Looks(s, 3, [], 2, [UsedElem(0, 7), UsedElem(1, 9)], 0, {1})
    ensures s.hist.cursor == 0 && s.hist.read == {1} && s.hist.used == [UsedElem(0, 7), UsedElem(1, 9)]
    ensures |s.dev.fetched| == 2 && s.dev.held == {} && AtStage(s, 1, Queued(2)) && s.availRing == [1, 1]
  {
    var e6, s6 := BothDone();
    ScanSecond(s6);
    SafeStep(e6, s6, Pop(1));
    var s7, e7 := PopStep(s6, 1), e6 + [Pop(1)];
    assert Walk(s6.desc, 1, 2) == [1];
    assert s7.free == [1] + [];
    AddBuf(s7, 1, []);
    SafeStep(e7, s7, Add([BUF]));
    s, es := AddStep(s7, [BUF]), e7 + [Add([BUF])];
  }

  lemma ScanSecond(s: System)
    requires s.usedIdx == 2 && s.last == 0 && s.usedRing == [UsedElem(0, 7), UsedElem(1, 9)]
    ensures CanPop(s, 1) && Scan(s.usedRing, 0, 2, 1) == 1 && Header(s, 1) == 1 && PopLen(s, 1) == 9
    ensures Advance(0, {1}) == (0, {1}) && AdvancePos(0, {1}) == (0, {1})
  {
    assert Scan(s.usedRing, 1, 1, 1) == 0;
  }

  /** An out-of-order pop leaves its entry visible: after the head is reused, `can_pop` reports a chain
      the device has not even fetched, and `pop_used` hands its descriptor out while it is published. */
  lemma StaleEntryIsPopped() returns (es: seq<Event>, s: System)
    ensures Safely(es, s)
    ensures AtStage(s, 1, Queued(2)) && |s.dev.fetched| == 2 && |s.availRing| == 2 && s.availRing[0] == 1
    ensures CanPop(s, 1) && PopLen(s, 1) == 9 && Header(s, 1) in s.popped
    ensures PopStep(s, 1).free == [1]
    ensures Inv(s) && !Inv(PopStep(s, 1))
  {
    es, s := PoppedAheadAndReused();
    StalePop(s, []);
    ScanSecond(s);
    SafelyInv(es, s);
    PopSafeIff(s, 1);
  }

  /** When the device then completes the third chain, the window is full and the first chain's unread
      completion is overwritten. */
  lemma CompletionIsLost() returns (es: seq<Event>, s: System)
    ensures Reaches(es, s)
    ensures Unread(s, 0) && s.hist.used[0] == UsedElem(0, 7)
    ensures !CanPop(s, 0)
    ensures s.desc == [BUF, BUF] && s.free == [] && s.availRing == [1, 1] && s.dev.held == {}
    ensures s.usedRing == [UsedElem(1, 5), UsedElem(1, 9)]
  {
    var e8, s8 := PoppedAheadAndReused();
    OneMore(Fresh(2), e8, Dev(Take));
    var s9, e9 := DeviceStep(s8, Take), e8 + [Dev(Take)];
    assert s9.dev.held == {1};
    OneMore(Fresh(2), e9, Dev(Complete(1, 5)));
    s, es := DeviceStep(s9, Complete(1, 5)), e9 + [Dev(Complete(1, 5))];
    assert s.usedRing == [UsedElem(1, 5), UsedElem(1, 9)];
    assert Scan(s.usedRing, 2, 1, 0) == 1;
    assert Scan(s.usedRing, 1, 2, 0) == 2;
    assert Scan(s.usedRing, 0, 3, 0) == 3;
  }

  /** A chain whose first descriptor lacks NEXT is only partly returned: its tail is leaked. */
  lemma MissingNextLeaks(desc: seq<Descriptor>, ids: seq<u16>, data: seq<Descriptor>, fuel: nat)
    requires 1 < |data| == |ids| && Below(ids, |desc|) && NoDup(ids) && 0 < fuel
    requires !data[0].HasNext()
    ensures Walk(Place(desc, ids, data, 0), ids[0], fuel) == [ids[0]]
  {
    PlaceAt(desc, ids, data);
    assert Place(desc, ids, data, 0)[ids[0]] == Link(data, ids, 0);
  }

  lemma WalkStarts(desc: seq<Descriptor>, now: nat, fuel: nat)
    requires 0 < fuel && now < |desc| <= 0x1_0000
    ensures 0 < |Walk(desc, now, fuel)| && Walk(desc, now, fuel)[0] == now
  {
  }

  /** Following `next` from the head gives exactly `ids` if and only if `ids` is linked. */
  lemma {:induction false} WalkIffLinked(desc: seq<Descriptor>, ids: seq<u16>, fuel: nat)
    requires 0 < |ids| < fuel && Below(ids, |desc|) && |desc| <= 0x1_0000
    requires desc[ids[|ids| - 1]].next < |desc|
    ensures Walk(desc, ids[0], fuel) == ids <==> Linked(desc, ids)
    decreases fuel
  {
    if Linked(desc, ids) {
      WalkOfLinked(desc, ids, fuel);
    }
    var d := desc[ids[0]];
    if |ids| == 1 {
      if d.HasNext() {
        WalkStarts(desc, d.next, fuel - 1);
      }
    } else if Walk(desc, ids[0], fuel) == ids {
      var rest := ids[1..];
      var tail := Walk(desc, d.next, fuel - 1);
      assert Walk(desc, ids[0], fuel) == [ids[0]] + tail;
      assert rest == tail && tail[0] == d.next;
      WalkIffLinked(desc, rest, fuel - 1);
      forall j | 0 <= j < |ids| - 1
        ensures desc[ids[j]].HasNext() && desc[ids[j]].next == ids[j + 1]
      {
        if j > 0 {
          assert ids[j] == rest[j - 1] && ids[j + 1] == rest[j];
        }
      }
      assert ids[|ids| - 1] == rest[|rest| - 1];
    }
  }

  /** Popping a chain returns exactly the descriptors that adding it took if and only if the caller set NEXT
      on every descriptor but the last. */
  lemma ReturnedIffWellFlagged(desc: seq<Descriptor>, ids: seq<u16>, data: seq<Descriptor>, fuel: nat)
    requires 0 < |data| == |ids| < fuel && Below(ids, |desc|) && NoDup(ids) && |desc| <= 0x1_0000
    requires data[|data| - 1].next < |desc|
    ensures Walk(Place(desc, ids, data, 0), ids[0], fuel) == ids <==> WellFlagged(data)
  {
    PlaceAt(desc, ids, data);
    ChainRoundTrip(desc, ids, data);
    assert Place(desc, ids, data, 0)[ids[|ids| - 1]] == Link(data, ids, |ids| - 1);
    WalkIffLinked(Place(desc, ids, data, 0), ids, fuel);
  }

  lemma {:induction false} SelfLoop(desc: seq<Descriptor>, x: nat, fuel: nat)
    requires x < |desc| && x < 0x1_0000 && desc[x].HasNext() && desc[x].next == x
    ensures |Walk(desc, x, fuel)| == fuel
    decreases fuel
  {
    if fuel > 0 {
      SelfLoop(desc, x, fuel - 1);
    }
  }

  const FIRST := Descriptor(0x1000, 64, NEXT, 0)

  lemma StalePop(s: System, free: seq<u16>)
    requires Looks(s, 3, free, 2, [UsedElem(0, 7), UsedElem(1, 9)], 0, {1})
    ensures CanPop(s, 1) && Looks(PopStep(s, 1), 3, free + [1], 2, [UsedElem(0, 7), UsedElem(1, 9)], 0, {1})
    ensures PopStep(s, 1).availRing == s.availRing
  {
    ScanSecond(s);
    assert Walk(s.desc, 1, 2) == [1];
    assert {1} + {1} == {1};
  }

  /** Popped twice more, the descriptor is free twice, and a chain of two can get it for both its parts: the
      descriptor is then its own successor, and the walk of `pop_used` from it never ends. */
  lemma PopNeverEnds() returns (es: seq<Event>, s: System)
    ensures Reaches(es, s) && CanPop(s, 1)
    ensures forall fuel: nat :: |Walk(s.desc, 1, fuel)| == fuel
  {
    var e8, s8 := PoppedAheadAndReused();
    StalePop(s8, []);
    OneMore(Fresh(2), e8, Pop(1));
    var s9, e9 := PopStep(s8, 1), e8 + [Pop(1)];
    StalePop(s9, [1]);
    OneMore(Fresh(2), e9, Pop(1));
    var s10, e10 := PopStep(s9, 1), e9 + [Pop(1)];
    var data := [FIRST, BUF];
    OneMore(Fresh(2), e10, Add(data));
    s, es := AddStep(s10, data), e10 + [Add(data)];
    LinkedToItself(s10);
    ScanSecond(s);
    forall fuel: nat
      ensures |Walk(s.desc, 1, fuel)| == fuel
    {
      SelfLoop(s.desc, 1, fuel);
    }
  }

  lemma LinkedToItself(s: System)
    requires s.desc == [BUF, BUF] && s.free == [1, 1] && |s.availRing| == 2
    ensures CanAdd(s, [FIRST, BUF])
    ensures var d := AddStep(s, [FIRST, BUF]).desc; |d| == 2 && d[1].HasNext() && d[1].next == 1
  {
    var data := [FIRST, BUF];
    assert NewIds(s.free, 2) == [1, 1];
    assert Place(s.desc, [1, 1], data, 2) == s.desc;
    assert Place(s.desc, [1, 1], data, 1) == s.desc[1 := BUF];
    assert Place(s.desc, [1, 1], data, 0) == s.desc[1 := BUF][1 := FIRST.(next := 1)];
  }
}
