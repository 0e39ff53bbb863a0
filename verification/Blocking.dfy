/** Blocking requests: add a chain, wait until the device is done with it, pop it. */
module Blocking {
  import opened Wrap
  import opened Sequences
  import opened QueueModel
  import opened QueueProofs
  import opened QueueRuns
  import opened QueueTheorems
  import opened Interference

  /** No chain is outstanding. */
  ghost predicate Rest(s: System) {
    Inv(s) && s.hist.live == map[]
  }

  lemma RestIsFree(n: nat, free: seq<u16>, live: map<nat, Chain>)
    requires Ownership(n, free, live) && live == map[]
    ensures |free| == n && NoDup(free) && (forall x :: 0 <= x < n ==> x in free)
  {
    Conservation(n, free, live);
  }

  lemma RestIsIdle(s: System)
    requires AvailOk(s) && UsedOk(s) && Staged(s) && s.hist.live == map[]
    ensures s.hist.read == {} && s.popped == {} && s.hist.cursor == |s.hist.used| && s.last == s.usedIdx
    ensures s.dev.held == {} && |s.dev.fetched| == |s.hist.heads|
  {
    assert s.hist.stage.Keys == {};
    assert !Unread(s, s.hist.cursor);
    assert s.hist.read == {};
    assert Lows({}) == {};
    assert forall h :: h in s.dev.held ==> AtStage(s, h, Held);
    var queued := s.hist.heads[|s.dev.fetched|..];
    QueuedAreLive(s);
    if queued != [] {
      HasElements<nat>(queued);
    }
  }

  lemma QueuedAreLive(s: System)
    requires AvailOk(s) && Staged(s)
    ensures Elements<nat>(s.hist.heads[|s.dev.fetched|..]) <= s.hist.live.Keys
  {
    var queued := s.hist.heads[|s.dev.fetched|..];
    forall h: nat | h in queued
      ensures h in s.hist.live.Keys
    {
      var i :| 0 <= i < |queued| && queued[i] == h;
      assert AtStage(s, s.hist.heads[|s.dev.fetched| + i], Queued(|s.dev.fetched| + i));
    }
  }

  /** At rest every descriptor is free, nothing is popped ahead of the cursor, and the driver has seen
      everything the device has done. */
  lemma RestMeans(s: System)
    requires Rest(s)
    ensures |s.free| == |s.desc| && NoDup(s.free) && (forall x :: 0 <= x < |s.desc| ==> x in s.free)
    ensures s.hist.read == {} && s.popped == {} && s.hist.cursor == |s.hist.used| && s.last == s.usedIdx
    ensures s.dev.held == {} && |s.dev.fetched| == |s.hist.heads|
  {
    RestIsFree(|s.desc|, s.free, s.hist.live);
    RestIsIdle(s);
  }

  /** A queue at rest is never too full for a request that fits the queue at all. */
  lemma RestHasSpace(s: System, data: seq<Descriptor>)
    requires Rest(s) && 0 < |data| <= |s.desc|
    ensures CanAdd(s, data)
  {
    RestMeans(s);
    AcceptedBound(|s.desc|);
  }

  /** A request served from `s`: added, worked on by the device until `mid`, popped. */
  ghost predicate Served(s: System, data: seq<Descriptor>, mid: System, t: System) {
    && CanAdd(s, data)
    && (exists acts :: DeviceMoves(AddStep(s, data), acts, mid))
    && var token := NewIds(s.free, |data|)[0];
    CanPop(mid, token) && t == PopStep(mid, token)
  }

  /** While a lone request is with the device, its chain is the only one outstanding. */
  lemma LoneRequest(s: System, data: seq<Descriptor>, acts: seq<DeviceAct>, mid: System)
    requires Rest(s) && WellFlagged(data) && CanAdd(s, data) && DeviceMoves(AddStep(s, data), acts, mid)
    ensures Inv(mid) && Later(AddStep(s, data), mid)
    ensures mid.hist.live == map[NewIds(s.free, |data|)[0] := Chain(NewIds(s.free, |data|), data)]
    ensures mid.hist.read == {} && mid.hist.cursor == |s.hist.used| <= |mid.hist.used| && s.hist.used <= mid.hist.used
  {
    RestMeans(s);
    AddKeeps(s, data);
    MovesHaveRoom(AddStep(s, data), acts, mid);
  }

  lemma LoneUnread(mid: System, token: u16, j: nat, k: nat)
    requires Inv(mid) && mid.hist.live.Keys == {token as nat} && Unread(mid, j) && Unread(mid, k)
    ensures j == k
  {
    WindowDistinct(mid, j, j);
    WindowDistinct(mid, k, k);
    WindowDistinct(mid, j, k);
  }

  /** The only outstanding chain has the only unread completion. */
  lemma LoneCompletion(mid: System, token: u16)
    requires Inv(mid) && mid.hist.live.Keys == {token as nat} && mid.hist.read == {} && CanPop(mid, token)
    ensures |mid.hist.used| == mid.hist.cursor + 1
    ensures mid.hist.used[mid.hist.cursor] == UsedElem(token, PopLen(mid, token))
  {
    MatchOk(mid, token);
    var c, k := mid.hist.cursor, Match(mid, token);
    assert Unread(mid, c) && Unread(mid, k);
    LoneUnread(mid, token, c, k);
    var last: nat := |mid.hist.used| - 1;
    assert Unread(mid, last);
    LoneUnread(mid, token, c, last);
  }

  lemma LonePop(mid: System, token: u16)
    requires Inv(mid) && mid.hist.live.Keys == {token as nat} && mid.hist.read == {} && CanPop(mid, token)
    ensures Rest(PopStep(mid, token)) && PopStep(mid, token).free == mid.free + mid.hist.live[token].ids
  {
    PopKeeps(mid, token);
    PopOwnership(mid, token);
    assert PopStep(mid, token).hist.live == map[];
  }

  /** Serving a request takes the queue from rest to rest, and the device completed exactly that
      request meanwhile. */
  lemma ServedRests(s: System, data: seq<Descriptor>, mid: System, t: System)
    requires Rest(s) && WellFlagged(data) && Served(s, data, mid, t)
    ensures Rest(t) && |t.desc| == |s.desc|
    ensures var token := NewIds(s.free, |data|)[0];
      t.hist.used == s.hist.used + [UsedElem(token, PopLen(mid, token))]
    ensures t.free == s.free[|data|..] + NewIds(s.free, |data|)
  {
    var token := NewIds(s.free, |data|)[0];
    var acts :| DeviceMoves(AddStep(s, data), acts, mid);
    LoneRequest(s, data, acts, mid);
    LoneCompletion(mid, token);
    LonePop(mid, token);
    PrefixAndLast(s.hist.used, mid.hist.used);
  }

  lemma PrefixAndLast<T>(a: seq<T>, b: seq<T>)
    requires a <= b && |b| == |a| + 1
    ensures b == a + [b[|a|]]
  {
  }

  /** Any number of requests, one after the other: `states[i]` to `states[i + 1]` by serving request `i`. */
  ghost predicate AllServed(states: seq<System>, mids: seq<System>, requests: seq<seq<Descriptor>>) {
    && |states| == |requests| + 1 && |mids| == |requests|
    && forall i: nat :: i < |requests| ==>
         WellFlagged(requests[i]) && Served(states[i], requests[i], mids[i], states[i + 1])
  }

  lemma BlockingStep(states: seq<System>, mids: seq<System>, requests: seq<seq<Descriptor>>, i: nat)
    requires AllServed(states, mids, requests) && i < |requests| && Rest(states[i])
    ensures Rest(states[i + 1]) && |states[i + 1].desc| == |states[i].desc|
  {
    ServedRests(states[i], requests[i], mids[i], states[i + 1]);
  }

  lemma {:induction false} BlockingRest(states: seq<System>, mids: seq<System>, requests: seq<seq<Descriptor>>, i: nat)
    requires AllServed(states, mids, requests) && Rest(states[0]) && i <= |requests|
    ensures Rest(states[i]) && |states[i].desc| == |states[0].desc|
  {
    if i > 0 {
      BlockingRest(states, mids, requests, i - 1);
      BlockingStep(states, mids, requests, i - 1);
    }
  }

  /** Over any run of blocking requests the queue is at rest between requests, so no request that fits
      the queue ever finds it full. */
  lemma BlockingRuns(states: seq<System>, mids: seq<System>, requests: seq<seq<Descriptor>>, i: nat,
                     data: seq<Descriptor>)
    requires AllServed(states, mids, requests) && Rest(states[0]) && i <= |requests|
    requires 0 < |data| <= |states[0].desc|
    ensures Rest(states[i]) && |states[i].desc| == |states[0].desc| && CanAdd(states[i], data)
  {
    BlockingRest(states, mids, requests, i);
    RestHasSpace(states[i], data);
  }

  /** After an add in state `s` at point `m`, a conforming device goes on along `path`, and it has
      completed the new chain by point `bound`. */
  ghost predicate Eventually(s: System, data: seq<Descriptor>, token: u16, path: Path, sched: Schedule, m: nat,
                             bound: nat)
  {
    && CanAdd(s, data)
    && DeviceFollows(path, sched, m) && path[m] == AddStep(s, data)
    && m + 1 < bound && CanPop(path[bound], token)
  }

  /** During a blocking request that starts in state `s` at point `lo` the device conforms to the protocol:
      along `before` until the chain is published, then along `after`, where it has completed the chain by
      point `bound`. */
  ghost predicate Serving(s: System, data: seq<Descriptor>, sched: Schedule, lo: nat, before: Path, token: u16,
                          after: Path, bound: nat)
  {
    && DeviceLeads(before, sched, lo, AddEnd(lo, |data|)) && before[lo] == s
    && (0 < |data| <= |s.free| ==>
          && token == NewIds(s.free, |data|)[0]
          && Eventually(before[AddEnd(lo, |data|)], data, token, after, sched, AddEnd(lo, |data|), bound))
  }

  /** Once the device has completed the chain, every later poll finds it. */
  lemma PollSucceeds(path: Path, sched: Schedule, lo: nat, bound: nat, at: nat, id: nat)
    requires Follows(path, sched, lo) && Inv(path[lo]) && lo <= bound <= at && CanPop(path[bound], id)
    ensures CanPop(path[at], id)
  {
    PathKeeps(path, sched, lo, bound);
    PathKeeps(path, sched, lo, at);
    PathLater(path, sched, lo, bound, at);
    PoppableIsStable(path[bound], path[at], id);
  }

  /** What spinning on `can_pop` relies on. */
  ghost predicate Pollable(path: Path, sched: Schedule, lo: nat, id: nat, bound: nat) {
    && (forall at: nat :: lo <= at ==> Loads(path, sched, at, id))
    && (forall at: nat :: bound <= at ==> at in path && CanPop(path[at], id))
  }

  lemma PollableFrom(path: Path, sched: Schedule, lo: nat, id: nat, bound: nat)
    requires Follows(path, sched, lo) && Inv(path[lo]) && lo <= bound && CanPop(path[bound], id)
    ensures Pollable(path, sched, lo, id, bound)
  {
    forall at: nat | lo <= at
      ensures Loads(path, sched, at, id)
    {
      LoadsAt(path, sched, lo, at, id);
    }
    forall at: nat | bound <= at
      ensures CanPop(path[at], id)
    {
      PollSucceeds(path, sched, lo, bound, at, id);
    }
  }

  /** The queue just after a request was added, ready to wait for `token`. */
  ghost predicate Waiting(path: Path, sched: Schedule, m: nat, token: u16, bound: nat) {
    && Follows(path, sched, m) && Inv(path[m]) && !Stale(path[m], token)
    && m < bound && CanPop(path[bound], token)
  }

  /** The device completes the chain by some later point. */
  ghost predicate Awaits(path: Path, sched: Schedule, m: nat, token: u16) {
    exists bound: nat :: m + 1 < bound && Waiting(path, sched, m, token, bound)
  }

  /** A token that is not stale does not become so. */
  lemma StaysFresh(path: Path, sched: Schedule, lo: nat, at: nat, token: u16)
    requires Follows(path, sched, lo) && Inv(path[lo]) && !Stale(path[lo], token) && lo <= at
    ensures Inv(path[at]) && Later(path[lo], path[at]) && !Stale(path[at], token)
    ensures CanPop(path[at], token) ==> Match(path[at], token) !in path[at].hist.read
  {
    PathKeeps(path, sched, lo, at);
    if CanPop(path[at], token) {
      MatchUnread(path[lo], path[at], token);
      HeaderPopped(path[at], token);
    }
  }

  /** The device acts between the write of the index and the read of its flags. */
  lemma WaitingNext(path: Path, sched: Schedule, m: nat, token: u16, bound: nat)
    requires Waiting(path, sched, m, token, bound) && m + 1 < bound
    ensures DeviceMoves(path[m], At(sched, m), path[m + 1])
    ensures path[m + 1].hist.live == path[m].hist.live && path[m + 1].hist.read == path[m].hist.read
    ensures Waiting(path, sched, m + 1, token, bound)
  {
    assert Hop(path, sched, m);
    StaysFresh(path, sched, m, m + 1, token);
  }

  /** What a driver that has popped ahead of the cursor must see to: completions find room, and the head that the
      chain gets is not in an entry that was popped ahead. */
  ghost predicate Unhindered(s: System, n: nat, sched: Schedule, lo: nat, before: Path, token: u16, after: Path) {
    s.hist.read == {} || (
      && Leads(before, sched, lo, AddEnd(lo, n)) && Follows(after, sched, AddEnd(lo, n))
      && !Stale(after[AddEnd(lo, n)], token))
  }

  lemma WaitingFrom(before: Path, data: seq<Descriptor>, token: u16, path: Path, sched: Schedule, lo: nat, bound: nat)
    requires lo in before && Inv(before[lo]) && WellFlagged(data) && |data| <= |before[lo].free|
    requires Serving(before[lo], data, sched, lo, before, token, path, bound)
    requires Unhindered(before[lo], |data|, sched, lo, before, token, path)
    ensures Waiting(path, sched, AddEnd(lo, |data|), token, bound) && AddEnd(lo, |data|) + 1 < bound
    ensures before[lo].hist.live == map[] ==> path[AddEnd(lo, |data|)].hist.live.Keys == {token as nat}
    ensures path[AddEnd(lo, |data|)].hist.read == before[lo].hist.read
  {
    var m := AddEnd(lo, |data|);
    if before[lo].hist.read == {} {
      PathKeepsInOrder(before, sched, lo, m, m);
      AddKeeps(before[m], data);
      RoomAlways(path, sched, m);
      NeverStaleInOrder(path[m], token);
    } else {
      LeadsKeep(before, sched, lo, m, m);
      AddKeeps(before[m], data);
    }
  }

  /** The moment a request is popped. */
  lemma PopPoint(path: Path, sched: Schedule, lo: nat, at: nat, token: u16)
    requires Follows(path, sched, lo) && Inv(path[lo]) && !Stale(path[lo], token) && lo <= at && CanPop(path[at], token)
    ensures Inv(PopStep(path[at], token))
    ensures path[lo].hist.live.Keys == {token as nat} && path[lo].hist.read == {} ==> Rest(PopStep(path[at], token))
  {
    StaysFresh(path, sched, lo, at, token);
    PopKeeps(path[at], token);
    if path[lo].hist.live.Keys == {token as nat} && path[lo].hist.read == {} {
      LonePop(path[at], token);
    }
  }

  /** Popping starts at point `at` once a poll at point `seen` found the chain. */
  lemma PoppingAt(path: Path, sched: Schedule, lo: nat, seen: nat, at: nat, token: u16)
    requires Follows(path, sched, lo) && Inv(path[lo]) && !Stale(path[lo], token)
    requires lo <= seen <= at && CanPop(path[seen], token)
    ensures Popping(path, sched, at, token) && !Stale(path[at], token)
  {
    StaysFresh(path, sched, lo, at, token);
    PollSucceeds(path, sched, lo, seen, at + 1, token);
  }

  // ---------------------------------------------------------------- what was exchanged

  /** Completions of the given heads with the given lengths. */
  function Completions(heads: seq<u16>, lens: seq<u32>): (e: seq<UsedElem>)
    requires |heads| == |lens|
    ensures |e| == |lens|
  {
    seq(|lens|, i requires 0 <= i < |lens| => UsedElem(heads[i], lens[i]))
  }

  /** Between two states at rest exactly the given chains were submitted and completed, in order, with the given
      lengths. */
  ghost predicate Exchanged(s: System, chains: seq<seq<Descriptor>>, lens: seq<u32>, t: System) {
    && Rest(t) && |t.desc| == |s.desc| && |lens| == |chains|
    && s.hist.heads <= t.hist.heads && |t.hist.heads| == |s.hist.heads| + |lens|
    && t.hist.added == s.hist.added + chains
    && t.hist.used == s.hist.used + Completions(t.hist.heads[|s.hist.heads|..], lens)
  }

  lemma ExchangedAppend(s: System, chains: seq<seq<Descriptor>>, lens: seq<u32>, t: System,
                        data: seq<Descriptor>, len: u32, u: System)
    requires Exchanged(s, chains, lens, t) && Exchanged(t, [data], [len], u)
    ensures Exchanged(s, chains + [data], lens + [len], u)
  {
    var n := |s.hist.heads|;
    assert u.hist.heads[n..] == t.hist.heads[n..] + u.hist.heads[|t.hist.heads|..];
    assert Completions(u.hist.heads[n..], lens + [len]) ==
      Completions(t.hist.heads[n..], lens) + Completions(u.hist.heads[|t.hist.heads|..], [len]);
    assert s.hist.added + chains + [data] == s.hist.added + (chains + [data]);
  }

  /** A blocking request from rest exchanges its own chain and nothing else, whatever the device does. */
  lemma RequestExchanges(before: Path, data: seq<Descriptor>, token: u16, after: Path, sched: Schedule, lo: nat,
                         bound: nat, hi: nat)
    requires lo in before && Rest(before[lo]) && WellFlagged(data) && |data| <= |before[lo].free|
    requires Serving(before[lo], data, sched, lo, before, token, after, bound)
    requires AddEnd(lo, |data|) <= hi && CanPop(after[hi], token)
    ensures Exchanged(before[lo], [data], [PopLen(after[hi], token)], PopStep(after[hi], token))
  {
    var s, m := before[lo], AddEnd(lo, |data|);
    RestMeans(s);
    PathKeepsInOrder(before, sched, lo, m, m);
    RestMeans(before[m]);
    assert before[m].hist.used == s.hist.used;
    WaitingFrom(before, data, token, after, sched, lo, bound);
    PathKeeps(after, sched, m, hi);
    LoneCompletion(after[hi], token);
    LonePop(after[hi], token);
    PrefixAndLast(s.hist.used, after[hi].hist.used);
    PopLogs(s, data, after[hi], token);
  }

  lemma PopLogs(s: System, data: seq<Descriptor>, mid: System, token: u16)
    requires CanPop(mid, token) && Rest(PopStep(mid, token)) && |mid.desc| == |s.desc|
    requires mid.hist.heads == s.hist.heads + [token] && mid.hist.added == s.hist.added + [data]
    requires mid.hist.used == s.hist.used + [UsedElem(token, PopLen(mid, token))]
    ensures Exchanged(s, [data], [PopLen(mid, token)], PopStep(mid, token))
  {
    var t := PopStep(mid, token);
    assert t.hist.heads[|s.hist.heads|..] == [token];
  }

  /** The length that the device reported for a request that was served. */
  function Reported(s: System, data: seq<Descriptor>, mid: System): u32 {
    if 0 < |data| <= |s.free| && CanPop(mid, NewIds(s.free, |data|)[0]) then PopLen(mid, NewIds(s.free, |data|)[0])
    else 0
  }

  lemma ServedExchanges(s: System, data: seq<Descriptor>, mid: System, t: System)
    requires Rest(s) && WellFlagged(data) && Served(s, data, mid, t)
    ensures Exchanged(s, [data], [Reported(s, data, mid)], t)
  {
    var token := NewIds(s.free, |data|)[0];
    var acts :| DeviceMoves(AddStep(s, data), acts, mid);
    LoneRequest(s, data, acts, mid);
    LoneCompletion(mid, token);
    LonePop(mid, token);
    PrefixAndLast(s.hist.used, mid.hist.used);
    PopLogs(s, data, mid, token);
  }

  lemma ExchangeNothing(s: System)
    requires Rest(s)
    ensures Exchanged(s, [], [], s)
  {
  }

  lemma RunStep(states: seq<System>, mids: seq<System>, chains: seq<seq<Descriptor>>, i: nat, lens: seq<u32>)
    requires AllServed(states, mids, chains) && i < |chains| && Exchanged(states[0], chains[..i], lens, states[i])
    ensures Exchanged(states[0], chains[..i + 1], lens + [Reported(states[i], chains[i], mids[i])], states[i + 1])
  {
    ServedExchanges(states[i], chains[i], mids[i], states[i + 1]);
    ExchangedAppend(states[0], chains[..i], lens, states[i], chains[i], Reported(states[i], chains[i], mids[i]),
                    states[i + 1]);
    assert chains[..i + 1] == chains[..i] + [chains[i]];
  }

  /** Over any run of requests exactly their chains are exchanged, with the lengths that the device reported. */
  lemma {:induction false} RunExchanges(states: seq<System>, mids: seq<System>, chains: seq<seq<Descriptor>>, i: nat)
    returns (lens: seq<u32>)
    requires AllServed(states, mids, chains) && Rest(states[0]) && i <= |chains|
    ensures Exchanged(states[0], chains[..i], lens, states[i])
    ensures |lens| == i && forall j :: 0 <= j < i ==> lens[j] == Reported(states[j], chains[j], mids[j])
  {
    if i == 0 {
      ExchangeNothing(states[0]);
      lens := [];
    } else {
      lens := RunExchanges(states, mids, chains, i - 1);
      RunStep(states, mids, chains, i - 1, lens);
      lens := lens + [Reported(states[i - 1], chains[i - 1], mids[i - 1])];
    }
  }

  // ---------------------------------------------------------------- a device that serves

  lemma FreshRests(size: nat)
    requires Accepted(size)
    ensures Rest(Fresh(size))
  {
    FreshInv(size);
  }

  /** Idle until point `m`, then the device takes the next chain and completes it at once. */
  function Delayed(m: nat, token: u16, written: u32): (sched: Schedule)
    ensures forall at: nat :: At(sched, at) == if at == m then [Take, Complete(token, written)] else []
  {
    seq(m, _ => []) + [[Take, Complete(token, written)]]
  }

  ghost function Either(a: System, t: System, m: nat, at: nat): System {
    if at <= m then a else t
  }

  /** In state `a` up to point `m`, in state `t` afterwards. */
  ghost function Switch(a: System, t: System, m: nat): (path: Path)
    ensures forall at: nat :: at in path && path[at] == Either(a, t, m, at)
  {
    imap at: nat | 0 <= at :: Either(a, t, m, at)
  }

  /** A chain that was just added to a queue at rest is the next that the device takes. */
  lemma NextTaken(s: System, data: seq<Descriptor>)
    requires Rest(s) && WellFlagged(data) && CanAdd(s, data)
    ensures var token, a := NewIds(s.free, |data|)[0], AddStep(s, data);
      && DeviceMay(a, Take)
      && a.availRing[Low16(|a.dev.fetched|) % |a.availRing|] == token
  {
    RestMeans(s);
    AddKeeps(s, data);
    LowNext(|s.hist.heads|);
    TakeReads(AddStep(s, data));
  }

  lemma TwoMoves(a: System, x: DeviceAct, y: DeviceAct)
    requires DeviceMay(a, x) && DeviceMay(DeviceStep(a, x), y)
    ensures DeviceMoves(a, [x, y], DeviceStep(DeviceStep(a, x), y))
  {
    var tr, acts := [a, DeviceStep(a, x), DeviceStep(DeviceStep(a, x), y)], [x, y];
    assert DeviceTurn(tr, acts, 0) && DeviceTurn(tr, acts, 1);
    assert DeviceTrace(tr, acts);
  }

  /** The device takes the chain that was just added to a queue at rest, and completes it. */
  lemma TakeAndComplete(s: System, data: seq<Descriptor>, written: u32) returns (t: System)
    requires Rest(s) && WellFlagged(data) && CanAdd(s, data)
    ensures var token, a := NewIds(s.free, |data|)[0], AddStep(s, data);
      && DeviceMoves(a, [Take, Complete(token, written)], t)
      && t.hist.used == s.hist.used + [UsedElem(token, written)] && t.usedFlags == s.usedFlags
      && AtStage(t, token, Done(|s.hist.used|))
  {
    NextTaken(s, data);
    var token, a := NewIds(s.free, |data|)[0], AddStep(s, data);
    t := DeviceStep(DeviceStep(a, Take), Complete(token, written));
    TwoMoves(a, Take, Complete(token, written));
  }

  /** Whatever request is made of a queue at rest, a device can serve it after any delay. */
  lemma DelayedServes(s: System, data: seq<Descriptor>, written: u32, lo: nat, delay: nat)
    returns (before: Path, after: Path)
    requires Rest(s) && WellFlagged(data) && |data| <= |s.desc|
    ensures CanAdd(s, data)
    ensures var token, m := NewIds(s.free, |data|)[0], AddEnd(lo, |data|) + delay;
      && Serving(s, data, Delayed(m, token, written), lo, before, token, after, m + 2)
      && forall at: nat ::
           after[at].usedFlags == s.usedFlags && (CanPop(after[at], token) ==> PopLen(after[at], token) == written)
  {
    RestHasSpace(s, data);
    var t := TakeAndComplete(s, data, written);
    var token, a, start := NewIds(s.free, |data|)[0], AddStep(s, data), AddEnd(lo, |data|);
    var m := start + delay;
    var sched := Delayed(m, token, written);
    before, after := Switch(s, s, 0), Switch(a, t, m);
    TriesMoves(s, []);
    TriesMoves(a, []);
    TriesMoves(t, []);
    assert DeviceLeads(before, sched, lo, start) by {
      assert forall at: nat :: lo <= at < start ==> DeviceHop(before, sched, at);
    }
    assert DeviceFollows(after, sched, start) by {
      assert forall at: nat :: start <= at ==> DeviceHop(after, sched, at);
    }
    CompletedPops(s, data, t, token, written);
    AddedWaits(s, data, token);
  }

  /** The completion makes the chain poppable, with the length the device wrote. */
  lemma CompletedPops(s: System, data: seq<Descriptor>, t: System, token: u16, written: u32)
    requires Rest(s) && WellFlagged(data) && CanAdd(s, data) && token == NewIds(s.free, |data|)[0]
    requires DeviceMoves(AddStep(s, data), [Take, Complete(token, written)], t)
    requires t.hist.used == s.hist.used + [UsedElem(token, written)] && AtStage(t, token, Done(|s.hist.used|))
    ensures CanPop(t, token) && PopLen(t, token) == written
  {
    LoneRequest(s, data, [Take, Complete(token, written)], t);
    DonePops(t, token);
  }

  /** The only outstanding chain, once completed, pops with the length of the last completion. */
  lemma DonePops(t: System, token: u16)
    requires Inv(t) && t.hist.live.Keys == {token as nat} && t.hist.read == {}
    requires token in t.hist.stage && t.hist.stage[token].Done?
    ensures CanPop(t, token) && |t.hist.used| == t.hist.cursor + 1 && PopLen(t, token) == t.hist.used[t.hist.cursor].len
  {
    CanPopExact(t, token);
    LoneCompletion(t, token);
  }

  /** Nothing can be popped before. */
  lemma AddedWaits(s: System, data: seq<Descriptor>, id: nat)
    requires Rest(s) && CanAdd(s, data)
    ensures !CanPop(AddStep(s, data), id)
  {
    RestMeans(s);
    MatchOk(s, id);
  }
}
