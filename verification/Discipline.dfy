/** A discipline under which pops in any order are safe: a driver adds chains only while nothing is popped ahead
    of the cursor, and pops only chains that it has outstanding. */
module Discipline {
  import opened Wrap
  import opened Sequences
  import opened QueueModel
  import opened QueueProofs
  import opened QueueRuns

  /** What the driver can see to itself, from `poped_used` and the tokens it holds. */
  ghost predicate Careful(s: System, e: Event) {
    match e
    case Add(_) => s.popped == {}
    case Pop(id) => id in s.hist.live
    case Dev(_) => true
  }

  ghost predicate CarefulRun(s: System, es: seq<Event>)
    requires LegalRun(s, es)
    decreases |es|
  {
    es == [] || (Careful(s, es[0]) && CarefulRun(Step(s, es[0]), es[1..]))
  }

  /** No head occurs twice between the cursor and the used index, and what was popped there is not outstanding. */
  ghost predicate Tidy(h: History) {
    && (forall j, k :: h.cursor <= j < k < |h.used| ==> h.used[j].id != h.used[k].id)
    && (forall k :: k in h.read && 0 <= k < |h.used| ==> h.used[k].id as nat !in h.live)
  }

  /** A completed chain is never taken for an older one. */
  lemma TidyNotStale(s: System, id: nat)
    requires s.Shape() && UsedOk(s) && Tidy(s.hist) && CanPop(s, id) && id in s.hist.live
    ensures Match(s, id) !in s.hist.read
  {
    MatchOk(s, id);
  }

  /** The heads in the window and one that the device holds are all different. */
  lemma TidyRoom(s: System, id: u16)
    requires Ownership(|s.desc|, s.free, s.hist.live) && Logged(s) && Named(s.hist.used, |s.desc|) && Staged(s)
    requires Tidy(s.hist) && id in s.dev.held
    ensures Room(s) && forall k :: s.hist.cursor <= k < |s.hist.used| ==> s.hist.used[k].id != id
  {
    HeldBelow(s, id);
    var c, n := s.hist.cursor, |s.hist.used| - s.hist.cursor;
    assert AtStage(s, id, Held) && id as nat in s.hist.live.Keys;
    forall k: nat | c <= k < |s.hist.used|
      ensures s.hist.used[k].id != id
    {
      if k !in s.hist.read {
        assert Unread(s, k) && AtStage(s, s.hist.used[k].id, Done(k));
      }
    }
    var w: seq<nat> := seq(n, i requires 0 <= i < n => s.hist.used[c + i].id) + [id];
    assert NoDup(w) && Below(w, |s.desc|);
    Pigeonhole(w, |s.desc|);
  }

  lemma TidyPop(s: System, id: u16)
    requires s.Shape() && UsedOk(s) && Tidy(s.hist) && CanPop(s, id) && id in s.hist.live
    ensures Tidy(PopStep(s, id).hist)
  {
    MatchOk(s, id);
    AdvancePosOk(s.hist.cursor, s.hist.read + {Match(s, id)});
  }

  lemma NoneAhead(read: set<nat>)
    ensures Lows(read) == {} ==> read == {}
  {
    assert forall k :: k in read ==> Low16(k) in Lows(read);
  }

  lemma TidyStep(s: System, e: Event)
    requires Inv(s) && Tidy(s.hist) && Legal(s, e) && Careful(s, e)
    ensures Guarded(s, e) && Tidy(Step(s, e).hist)
  {
    match e
    case Add(data) =>
      if CanAdd(s, data) {
        NoneAhead(s.hist.read);
      }
    case Pop(id) =>
      if CanPop(s, id) {
        TidyNotStale(s, id);
        TidyPop(s, id);
      }
    case Dev(a) =>
      if a.Complete? {
        TidyRoom(s, a.id);
      }
  }

  /** Over any careful run, in whatever order the device completes and the driver pops: the run is guarded, so the
      invariant holds and every completion is obtained at most once. */
  lemma {:induction false} CarefulRunKeeps(s: System, es: seq<Event>)
    requires Inv(s) && Tidy(s.hist) && LegalRun(s, es) && CarefulRun(s, es)
    ensures GuardedRun(s, es) && Inv(Run(s, es)) && Tidy(Run(s, es).hist)
    ensures PoppedExactly(s, Run(s, es), Positions(s, es), Results(s, es))
    decreases |es|
  {
    if es != [] {
      TidyStep(s, es[0]);
      StepKeeps(s, es[0]);
      CarefulRunKeeps(Step(s, es[0]), es[1..]);
    }
    GuardedRunPopsOnce(s, es);
  }
}
