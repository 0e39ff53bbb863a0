/** Every descriptor, free or not, starts a walk along `next` that ends. */
module Endings {
  import opened Wrap
  import opened Sequences
  import opened QueueModel
  import opened QueueProofs
  import opened QueueRuns

  /** The walk from `i` ends. */
  ghost predicate Ends(desc: seq<Descriptor>, i: nat) {
    var ids := Walk(desc, i, |desc|);
    Linked(desc, ids) && ids[0] == i
  }

  /** A descriptor with a successor ranks above it. */
  ghost predicate RankedBy(desc: seq<Descriptor>, rank: seq<nat>) {
    && |rank| == |desc|
    && forall i :: 0 <= i < |desc| && desc[i].HasNext() ==> desc[i].next < |desc| && rank[desc[i].next] < rank[i]
  }

  ghost predicate Ranked(desc: seq<Descriptor>) {
    exists rank :: RankedBy(desc, rank)
  }

  ghost predicate Descending(ids: seq<u16>, rank: seq<nat>) {
    Below(ids, |rank|) && forall a, b :: 0 <= a < b < |ids| ==> rank[ids[b]] < rank[ids[a]]
  }

  lemma {:induction false} RankedWalk(desc: seq<Descriptor>, rank: seq<nat>, i: nat, fuel: nat)
    requires RankedBy(desc, rank) && i < |desc| <= 0x1_0000 && rank[i] < fuel
    ensures var ids := Walk(desc, i, fuel); Linked(desc, ids) && ids[0] == i && Descending(ids, rank)
    decreases fuel
  {
    if desc[i].HasNext() {
      RankedWalk(desc, rank, desc[i].next, fuel - 1);
      var rest := Walk(desc, desc[i].next, fuel - 1);
      LinkedCons(desc, i, rest);
      DescendingCons(rank, i, rest);
    }
  }

  lemma LinkedCons(desc: seq<Descriptor>, i: u16, rest: seq<u16>)
    requires Linked(desc, rest) && i < |desc| && desc[i].HasNext() && desc[i].next == rest[0]
    ensures Linked(desc, [i] + rest)
  {
    var ids := [i] + rest;
    forall j | 0 <= j < |ids| - 1
      ensures desc[ids[j]].HasNext() && desc[ids[j]].next == ids[j + 1]
    {
      if j > 0 {
        assert ids[j] == rest[j - 1] && ids[j + 1] == rest[j];
      }
    }
    assert ids[|ids| - 1] == rest[|rest| - 1];
  }

  lemma DescendingCons(rank: seq<nat>, i: u16, rest: seq<u16>)
    requires Descending(rest, rank) && 0 < |rest| && i < |rank| && rank[rest[0]] < rank[i]
    ensures Descending([i] + rest, rank)
  {
    var ids := [i] + rest;
    forall a, b | 0 <= a < b < |ids|
      ensures rank[ids[b]] < rank[ids[a]]
    {
      assert ids[b] == rest[b - 1];
      if a == 0 {
        assert b == 1 || rank[rest[b - 1]] < rank[rest[0]];
      } else {
        assert ids[a] == rest[a - 1];
      }
    }
  }

  lemma RankedEnds(desc: seq<Descriptor>, i: nat)
    requires Ranked(desc) && i < |desc| <= 0x1_0000
    ensures Ends(desc, i)
  {
    var rank :| RankedBy(desc, rank);
    RankedWalk(desc, rank, i, rank[i] + 1);
    var ids := Walk(desc, i, rank[i] + 1);
    assert NoDup(ids);
    Pigeonhole(ids, |desc|);
    WalkOfLinked(desc, ids, |desc|);
  }

  /** Above all cells of the new chain the old ranking stays. */
  ghost function NewRank(rank: seq<nat>, ids: seq<u16>): (r: seq<nat>)
    ensures |r| == |rank|
  {
    seq(|rank|, x requires 0 <= x < |rank| => if x in ids then RankIn(ids, x) else rank[x] + |ids|)
  }

  /** How far `x` is from the end of the chain. */
  ghost function RankIn(ids: seq<u16>, x: nat): nat {
    if exists j :: 0 <= j < |ids| && ids[j] == x then
      var j :| 0 <= j < |ids| && ids[j] == x;
      |ids| - 1 - j
    else 0
  }

  lemma RankInIs(ids: seq<u16>, j: nat)
    requires NoDup(ids) && j < |ids|
    ensures RankIn(ids, ids[j]) == |ids| - 1 - j
  {
  }

  /** Storing a well-flagged chain in distinct cells keeps every walk finite, also those that run into it. */
  lemma PlaceRanked(desc: seq<Descriptor>, ids: seq<u16>, data: seq<Descriptor>)
    requires Ranked(desc) && |data| == |ids| && Below(ids, |desc|) && NoDup(ids) && WellFlagged(data)
    ensures Ranked(Place(desc, ids, data, 0))
  {
    var rank :| RankedBy(desc, rank);
    var d, r := Place(desc, ids, data, 0), NewRank(rank, ids);
    PlaceAt(desc, ids, data);
    forall i | 0 <= i < |d| && d[i].HasNext()
      ensures d[i].next < |d| && r[d[i].next] < r[i]
    {
      if i in ids {
        var j :| 0 <= j < |ids| && ids[j] == i;
        assert d[ids[j]] == Link(data, ids, j);
        assert j < |ids| - 1;
        RankInIs(ids, j);
        RankInIs(ids, j + 1);
      } else {
        var y := desc[i].next;
        if y in ids {
          var j :| 0 <= j < |ids| && ids[j] == y;
          RankInIs(ids, j);
        }
      }
    }
    assert RankedBy(d, r);
  }

  lemma StepRanked(s: System, e: Event)
    requires Inv(s) && Legal(s, e) && Ranked(s.desc)
    ensures Ranked(Step(s, e).desc)
  {
    if e.Add? && CanAdd(s, e.data) {
      NewIdsOk(s.free, |e.data|);
      PlaceRanked(s.desc, NewIds(s.free, |e.data|), e.data);
    }
  }

  lemma {:induction false} RunRanked(s: System, es: seq<Event>)
    requires Inv(s) && LegalRun(s, es) && GuardedRun(s, es) && Ranked(s.desc)
    ensures Inv(Run(s, es)) && Ranked(Run(s, es).desc)
    decreases |es|
  {
    if es != [] {
      StepKeeps(s, es[0]);
      StepRanked(s, es[0]);
      RunRanked(Step(s, es[0]), es[1..]);
    }
  }

  /** After any guarded run of a new queue, the walk that `pop_used` makes ends from whatever descriptor it
      starts, also from one that is free or belongs to another chain by now. */
  lemma AlwaysEnds(size: nat, es: seq<Event>, i: nat)
    requires Accepted(size) && LegalRun(Fresh(size), es) && GuardedRun(Fresh(size), es)
    requires i < |Run(Fresh(size), es).desc|
    ensures Ends(Run(Fresh(size), es).desc, i)
  {
    FreshInv(size);
    assert RankedBy(Fresh(size).desc, seq(size, _ => 0));
    RunRanked(Fresh(size), es);
    AcceptedBound(|Run(Fresh(size), es).desc|);
    RankedEnds(Run(Fresh(size), es).desc, i);
  }
}
