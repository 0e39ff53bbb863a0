/** A completion that was overwritten before it was read is lost for good. */
module Lost {
  import opened Wrap
  import opened Sequences
  import opened QueueModel
  import opened QueueRuns
  import opened Counterexamples

  /** No cell that has a successor has `x` as successor. */
  ghost predicate Unlinked(desc: seq<Descriptor>, x: nat) {
    forall i :: 0 <= i < |desc| && desc[i].HasNext() ==> desc[i].next != x
  }

  ghost predicate Without(s: seq<u16>, x: nat) {
    forall i :: 0 <= i < |s| ==> s[i] != x
  }

  /** Descriptor `x` is neither free nor part of a chain, neither waiting for the device nor with it, and no
      entry of the used ring names it. */
  ghost predicate Gone(s: System, x: nat) {
    && Unlinked(s.desc, x) && Without(s.free, x) && Without(s.availRing, x) && x !in s.dev.held
    && forall i :: 0 <= i < |s.usedRing| ==> s.usedRing[i].id != x
  }

  lemma {:induction false} ScanMisses(ring: seq<UsedElem>, at: u16, n: nat, x: nat)
    requires 0 < |ring| && forall i :: 0 <= i < |ring| ==> ring[i].id != x
    ensures Scan(ring, at, n, x) == n
    decreases n
  {
    if n > 0 {
      ScanMisses(ring, WrappingAdd(at, 1), n - 1, x);
    }
  }

  lemma GoneNotPoppable(s: System, x: nat)
    requires Gone(s, x)
    ensures !CanPop(s, x)
  {
    if 0 < |s.usedRing| {
      ScanMisses(s.usedRing, s.last, Window(s), x);
    }
  }

  lemma {:induction false} WalkMisses(desc: seq<Descriptor>, now: nat, fuel: nat, x: nat)
    requires Unlinked(desc, x) && now != x
    ensures Without(Walk(desc, now, fuel), x)
    decreases fuel
  {
    if 0 < fuel && now < |desc| && now < 0x1_0000 && desc[now].HasNext() {
      WalkMisses(desc, desc[now].next, fuel - 1, x);
    }
  }

  lemma {:induction false} PlaceMisses(desc: seq<Descriptor>, ids: seq<u16>, data: seq<Descriptor>, j: nat, x: nat)
    requires j <= |data| == |ids| && Below(ids, |desc|) && WellFlagged(data)
    requires Unlinked(desc, x) && Without(ids, x)
    ensures Unlinked(Place(desc, ids, data, j), x)
    decreases |data| - j
  {
    if j < |data| {
      PlaceMisses(desc, ids, data, j + 1, x);
    }
  }

  /** No event whatsoever brings the descriptor back. */
  lemma StepStaysGone(s: System, e: Event, x: nat)
    requires Gone(s, x) && Legal(s, e)
    ensures Gone(Step(s, e), x)
  {
    match e
    case Add(data) =>
      if CanAdd(s, data) {
        PlaceMisses(s.desc, NewIds(s.free, |data|), data, 0, x);
      }
    case Pop(id) =>
      if CanPop(s, id) {
        GoneNotPoppable(s, x);
        WalkMisses(s.desc, id, |s.desc|, x);
      }
    case Dev(a) => {}
  }

  lemma {:induction false} RunStaysGone(s: System, es: seq<Event>, x: nat)
    requires Gone(s, x) && LegalRun(s, es)
    ensures Gone(Run(s, es), x) && !CanPop(Run(s, es), x)
    decreases |es|
  {
    if es == [] {
      GoneNotPoppable(s, x);
    } else {
      StepStaysGone(s, es[0], x);
      RunStaysGone(Step(s, es[0]), es[1..], x);
    }
  }

  /** A run after which a chain is completed and not popped, and however the run goes on, its token is never
      poppable again and its descriptor never free again. */
  lemma CompletionLostForever() returns (es: seq<Event>, s: System)
    ensures Reaches(es, s) && Unread(s, 0) && s.hist.used[0] == UsedElem(0, 7)
    ensures forall more: seq<Event> :: LegalRun(s, more) ==> !CanPop(Run(s, more), 0) && 0 !in Run(s, more).free
  {
    es, s := CompletionIsLost();
    assert Gone(s, 0);
    forall more: seq<Event> | LegalRun(s, more)
      ensures !CanPop(Run(s, more), 0) && 0 !in Run(s, more).free
    {
      RunStaysGone(s, more, 0);
    }
  }
}
