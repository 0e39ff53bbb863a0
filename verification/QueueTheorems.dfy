/** What the invariant means for the users of the queue, and exactly when an out-of-order user may
    rely on it. */
module QueueTheorems {
  import opened Wrap
  import opened Sequences
  import opened QueueModel
  import opened QueueProofs
  import opened QueueRuns

  // ---------------------------------------------------------------- conservation

  ghost function Pick(live: map<nat, Chain>): (h: nat)
    requires live != map[]
    ensures h in live
  {
    var h :| h in live;
    h
  }

  ghost function Bag(s: seq<int>): multiset<int> {
    multiset(s)
  }

  /** All descriptor ids of all outstanding chains, with multiplicity. */
  ghost function AllIds(live: map<nat, Chain>): multiset<int>
    decreases |live|
  {
    if live == map[] then multiset{}
    else
      var h := Pick(live);
      var rest := live - {h};
      assert live == rest[h := live[h]];
      Bag(live[h].ids) + AllIds(rest)
  }

  /** Counting multiplicities, the free list and the outstanding chains hold every descriptor of the
      table exactly once: none is leaked and none is in two places. */
  lemma {:induction false} Conservation(n: nat, free: seq<u16>, live: map<nat, Chain>)
    requires Ownership(n, free, live)
    ensures Bag(free) + AllIds(live) == multiset(Upto(n))
    ensures |free| + |AllIds(live)| == n
    decreases |live|
  {
    if live == map[] {
      NoDupMultiset<int>(free);
      assert Elements<int>(free) == Upto(n);
    } else {
      var h := Pick(live);
      ReturnChain(n, free, live, h);
      assert live == (live - {h})[h := live[h]];
      Conservation(n, free + live[h].ids, live - {h});
      assert Bag(free + live[h].ids) == Bag(free) + Bag(live[h].ids);
    }
    assert |Bag(free)| == |free|;
  }

  lemma {:induction false} NoDupMultiset<T>(s: seq<T>)
    requires NoDup(s)
    ensures multiset(s) == multiset(Elements(s))
  {
    if s != [] {
      var rest, x := s[..|s| - 1], s[|s| - 1];
      NoDupMultiset(rest);
      assert s == rest + [x];
      assert Elements(s) == Elements(rest) + {x};
      assert x !in rest;
    }
  }

  // ---------------------------------------------------------------- can_pop

  /** When nothing is popped ahead of the cursor, `can_pop` answers exactly whether the chain is
      outstanding and completed. */
  lemma CanPopExact(s: System, id: nat)
    requires Inv(s) && s.hist.read == {}
    ensures CanPop(s, id) <==> id in s.hist.live && s.hist.stage[id].Done?
  {
    MatchOk(s, id);
    assert id in s.hist.live <==> id in s.hist.stage.Keys;
    if CanPop(s, id) {
      assert Unread(s, Match(s, id));
      assert AtStage(s, id, Done(Match(s, id)));
    }
    if id in s.hist.stage && s.hist.stage[id].Done? {
      assert StageOk(s, id, s.hist.stage[id]);
    }
  }

  /** The used window holds distinct outstanding heads. */
  lemma WindowDistinct(s: System, j: nat, k: nat)
    requires Inv(s) && Unread(s, j) && Unread(s, k) && s.hist.used[j].id == s.hist.used[k].id
    ensures j == k && s.hist.used[j].id in s.hist.live
  {
    assert AtStage(s, s.hist.used[j].id, Done(j)) && AtStage(s, s.hist.used[k].id, Done(k));
    assert s.hist.used[j].id in s.hist.stage.Keys;
  }

  // ---------------------------------------------------------------- when a pop is safe

  lemma PoppableBelow(s: System, id: nat)
    requires s.Shape() && UsedOk(s) && Named(s.hist.used, |s.desc|) && CanPop(s, id)
    ensures id < |s.desc|
  {
    MatchOk(s, id);
  }

  lemma HeaderPopped(s: System, id: nat)
    requires s.Shape() && UsedOk(s) && CanPop(s, id)
    ensures Header(s, id) in s.popped <==> Match(s, id) in s.hist.read
  {
    MatchOk(s, id);
    AcceptedBound(|s.desc|);
    if Header(s, id) in s.popped {
      var k :| k in s.hist.read && Low16(k) == Header(s, id);
      if k <= Match(s, id) {
        LowInjective(k, Match(s, id));
      } else {
        LowInjective(Match(s, id), k);
      }
    }
  }

  /** Even with pops ahead of the cursor: a token that `can_pop` accepts is a completed chain, with the entry
      found as its completion, if and only if the index found is not in `poped_used`. */
  lemma CanPopTruthfulIff(s: System, id: nat)
    requires Inv(s) && CanPop(s, id)
    ensures AtStage(s, id, Done(Match(s, id))) <==> Header(s, id) !in s.popped
  {
    HeaderPopped(s, id);
    if Match(s, id) !in s.hist.read {
      PopStaged(s, id);
    } else if id in s.hist.stage {
      assert StageOk(s, id, s.hist.stage[id]);
    }
  }

  /** Who else has descriptor `id` when it is on the free list: it is free twice, or belongs to a chain that
      waits for the device, is with the device, or waits to be popped. */
  ghost predicate FreedTooEarly(s: System, t: System, id: nat) {
    && id in t.free
    && ((exists i, j :: 0 <= i < j < |t.free| && t.free[i] == id && t.free[j] == id)
        || (exists h :: h in s.hist.live && id in s.hist.live[h].ids))
  }

  /** Popping an entry again puts a descriptor on the free list that is there already or belongs to an
      outstanding chain, one whose completion was not the entry found. */
  lemma StalePopFrees(s: System, id: nat)
    requires Inv(s) && CanPop(s, id) && Match(s, id) in s.hist.read
    ensures FreedTooEarly(s, PopStep(s, id), id)
    ensures id in s.hist.live ==> !AtStage(s, id, Done(Match(s, id)))
  {
    var t := PopStep(s, id);
    PoppableBelow(s, id);
    HeaderPopped(s, id);
    CanPopTruthfulIff(s, id);
    AcceptedBound(|s.desc|);
    assert Walk(s.desc, id, |s.desc|)[0] == id;
    var j := |s.free|;
    assert t.free[j] == id;
    if id in s.free {
      var i :| 0 <= i < |s.free| && s.free[i] == id;
      assert t.free[i] == id;
    }
  }

  /** Popping an entry again frees a descriptor that is not the driver's to free. */
  lemma StalePopBreaks(s: System, id: nat)
    requires Inv(s) && CanPop(s, id) && Match(s, id) in s.hist.read
    ensures !Inv(PopStep(s, id))
  {
    var t := PopStep(s, id);
    var k := Match(s, id);
    PoppableBelow(s, id);
    assert s.hist.read + {k} == s.hist.read;
    assert t.hist.cursor == s.hist.cursor && t.hist.read == s.hist.read;
    if id in s.hist.stage {
      assert StageOk(s, id, s.hist.stage[id]);
      assert id !in t.hist.stage;
      match s.hist.stage[id]
      case Queued(p) => assert !AtStage(t, t.hist.heads[p], Queued(p));
      case Held => assert !AtStage(t, id, Held);
      case Done(j) => assert Unread(t, j) && !AtStage(t, t.hist.used[j].id, Done(j));
    } else {
      assert id !in s.hist.live.Keys;
      StaleFree(s, id);
    }
  }

  lemma StaleFree(s: System, id: nat)
    requires s.Shape() && Ownership(|s.desc|, s.free, s.hist.live)
    requires CanPop(s, id) && id < |s.desc| && id !in s.hist.live
    ensures !Ownership(|s.desc|, PopStep(s, id).free, PopStep(s, id).hist.live)
  {
    var t := PopStep(s, id);
    AcceptedBound(|s.desc|);
    assert Walk(s.desc, id, |s.desc|)[0] == id;
    assert t.free[|s.free|] == id;
    if id in s.free {
      var i :| 0 <= i < |s.free| && s.free[i] == id;
      assert t.free[i] == id;
    } else {
      var h :| h in s.hist.live && id in s.hist.live[h].ids;
      assert h in t.hist.live && id in t.hist.live[h].ids && id in t.free;
    }
  }

  /** A pop keeps the queue consistent if and only if the first entry that matches the token has not
      been popped before, which the caller can read off `poped_used`. */
  lemma PopSafeIff(s: System, id: nat)
    requires Inv(s) && CanPop(s, id)
    ensures Inv(PopStep(s, id)) <==> Header(s, id) !in s.popped
  {
    HeaderPopped(s, id);
    if Match(s, id) in s.hist.read {
      StalePopBreaks(s, id);
    } else {
      PopKeeps(s, id);
    }
  }

  /** With a full window, the next completion lands in the slot of the oldest unread entry. */
  lemma FullWindowOverwrites(s: System, id: u16, written: u32)
    requires s.Shape() && UsedOk(s) && Staged(s) && id in s.dev.held && !Room(s)
    ensures Unread(s, s.hist.cursor)
    ensures DeviceStep(s, Complete(id, written)).usedRing[s.hist.cursor % |s.desc|] != s.hist.used[s.hist.cursor]
  {
    var c, n := s.hist.cursor, |s.desc|;
    AcceptedBound(n);
    assert Unread(s, c) && AtStage(s, s.hist.used[c].id, Done(c)) && AtStage(s, id, Held);
    SlotOfIndex(c + n, n);
    ModAddMultiple(1, n, c);
  }

  /** A completion leaves the entries the driver has yet to pass intact if and only if the window was
      not full. */
  lemma CompleteSafeIff(s: System, id: u16, written: u32)
    requires Inv(s) && id in s.dev.held
    ensures var t := DeviceStep(s, Complete(id, written));
      Mirrors(t.usedRing, t.hist.used, s.hist.cursor) <==> Room(s)
  {
    if Room(s) {
      CompleteUsed(s, id, written);
    } else {
      FullWindowOverwrites(s, id, written);
      var c, t := s.hist.cursor, DeviceStep(s, Complete(id, written));
      assert t.hist.used[c] == s.hist.used[c];
    }
  }

  // ---------------------------------------------------------------- the cursor out of order

  /** After any safe pop the cursor is the least position not popped, and `poped_used` holds exactly
      the popped positions above it. */
  lemma OutOfOrderCursor(s: System, id: nat)
    requires Inv(s) && CanPop(s, id) && Header(s, id) !in s.popped
    ensures var t, read := PopStep(s, id), s.hist.read + {Match(s, id)};
      && t.last == Low16(t.hist.cursor)
      && s.hist.cursor <= t.hist.cursor <= |t.hist.used|
      && t.hist.cursor !in read
      && (forall k :: s.hist.cursor <= k < t.hist.cursor ==> k in read)
      && (forall k :: k in t.hist.read <==> k in read && t.hist.cursor < k)
      && t.popped == Lows(t.hist.read)
      && (Peek(t) != -1 ==> Peek(t) == t.hist.used[t.hist.cursor].id)
  {
    var t := PopStep(s, id);
    MatchOk(s, id);
    PopUsedOk(s, id);
    AdvancePosOk(s.hist.cursor, s.hist.read + {Match(s, id)});
    PeekIsOldest(t);
  }

  // ---------------------------------------------------------------- stability under device steps

  /** Everything the driver owns, and every used entry it has not passed, survives any device run. */
  ghost predicate Later(s: System, t: System) {
    && t.desc == s.desc && t.availIdx == s.availIdx && t.availRing == s.availRing && t.usedEvent == s.usedEvent
    && t.free == s.free && t.last == s.last && t.popped == s.popped
    && t.hist.heads == s.hist.heads && t.hist.added == s.hist.added && t.hist.live == s.hist.live
    && t.hist.cursor == s.hist.cursor && t.hist.read == s.hist.read
    && s.hist.used <= t.hist.used
  }

  /** A token once poppable stays poppable, at the same index and with the same length, whatever the
      device does meanwhile. */
  lemma PoppableIsStable(s: System, t: System, id: nat)
    requires s.Shape() && UsedOk(s) && UsedOk(t) && Later(s, t) && |t.usedRing| == |s.usedRing| && CanPop(s, id)
    ensures CanPop(t, id) && Match(t, id) == Match(s, id)
    ensures Header(t, id) == Header(s, id) && PopLen(t, id) == PopLen(s, id)
  {
    MatchOk(s, id);
    MatchOk(t, id);
    var k, m := Match(s, id), Match(t, id);
    assert t.hist.used[k] == s.hist.used[k];
    forall j | t.hist.cursor <= j < k
      ensures t.hist.used[j].id != id
    {
      assert t.hist.used[j] == s.hist.used[j];
    }
  }
}
