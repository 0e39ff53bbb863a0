/** The drivers that make one blocking request at a time: block, GPU, and the sending side of the network. */
module Clients {
  import opened Wrap
  import opened QueueModel
  import opened QueueRuns
  import opened Interference
  import opened Blocking
  import opened Queue
  import opened NetHeader
  import opened Records
  import opened Transfers
  import Mmio

  const BLK_REQ_SIZE: u32 := 16
  const BLK_RESP_SIZE: u32 := 1

  // ---------------------------------------------------------------- the chains

  function BlkRead(request: u64, data: u64, len: u32, resp: u64): seq<Descriptor> {
    [Descriptor(request, BLK_REQ_SIZE, NEXT, 0), Descriptor(data, len, NEXT + WRITE, 0),
     Descriptor(resp, BLK_RESP_SIZE, WRITE, 0)]
  }

  function BlkWrite(request: u64, data: u64, len: u32, resp: u64): seq<Descriptor> {
    [Descriptor(request, BLK_REQ_SIZE, NEXT, 0), Descriptor(data, len, NEXT, 0),
     Descriptor(resp, BLK_RESP_SIZE, WRITE, 0)]
  }

  function BlkCommand(request: u64, resp: u64): seq<Descriptor> {
    [Descriptor(request, BLK_REQ_SIZE, NEXT, 0), Descriptor(resp, BLK_RESP_SIZE, WRITE, 0)]
  }

  function GpuCommand(request: u64, reqLen: u32, resp: u64, respLen: u32): seq<Descriptor> {
    [Descriptor(request, reqLen, NEXT, 0), Descriptor(resp, respLen, WRITE, 0)]
  }

  function GpuCursor(request: u64, len: u32): seq<Descriptor> {
    [Descriptor(request, len, 0, 0)]
  }

  /** An empty packet is its header alone. */
  function NetPacket(header: u64, data: u64, len: u32): seq<Descriptor> {
    if len == 0 then [Descriptor(header, NET_HDR_SIZE, 0, 0)]
    else [Descriptor(header, NET_HDR_SIZE, NEXT, 0), Descriptor(data, len, 0, 0)]
  }

  /** A chain that some driver builds for a queue of `size` descriptors. */
  datatype Request =
    | Read(request: u64, data: u64, len: u32, resp: u64)
    | Write(request: u64, data: u64, len: u32, resp: u64)
    | Command(request: u64, resp: u64)
    | Gpu(request: u64, reqLen: u32, resp: u64, respLen: u32)
    | Cursor(request: u64, reqLen: u32)
    | Packet(header: u64, data: u64, len: u32)
  {
    function Chain(): (c: seq<Descriptor>)
      ensures 0 < |c| <= 3
    {
      match this
      case Read(request, data, len, resp) => BlkRead(request, data, len, resp)
      case Write(request, data, len, resp) => BlkWrite(request, data, len, resp)
      case Command(request, resp) => BlkCommand(request, resp)
      case Gpu(request, reqLen, resp, respLen) => GpuCommand(request, reqLen, resp, respLen)
      case Cursor(request, reqLen) => GpuCursor(request, reqLen)
      case Packet(header, data, len) => NetPacket(header, data, len)
    }
  }

  lemma ChainsWellFlagged(r: Request)
    ensures WellFlagged(r.Chain())
  {
  }

  /** What the device is to read of a request: for the block device 16 bytes of header and then the data of a
      write, for the network device 10 bytes of header and then the packet. */
  function Sent(m: Memory, r: Request): seq<u8> {
    match r
    case Read(request, _, _, _) => Bytes(m, request, 16)
    case Write(request, data, len, _) => Bytes(m, request, 16) + Bytes(m, data, len)
    case Command(request, _) => Bytes(m, request, 16)
    case Gpu(request, reqLen, _, _) => Bytes(m, request, reqLen)
    case Cursor(request, reqLen) => Bytes(m, request, reqLen)
    case Packet(header, data, len) => Bytes(m, header, 10) + Bytes(m, data, len)
  }

  /** Where it is to put its answer: the data of a read, and a response behind it, which for the block device is a
      single byte. */
  function Answer(r: Request): seq<nat> {
    match r
    case Read(_, data, len, resp) => Span(data, len) + [resp]
    case Write(_, _, _, resp) => [resp]
    case Command(_, resp) => [resp]
    case Gpu(_, _, resp, respLen) => Span(resp, respLen)
    case Cursor(_, _) => []
    case Packet(_, _, _) => []
  }

  /** A device that follows the chain `c` reads the request, whatever the memory holds, and can write its answer and
      nothing else. */
  ghost predicate Conveys(c: seq<Descriptor>, r: Request) {
    (forall m: Memory :: Input(m, c) == Sent(m, r)) && Output(c) == Answer(r)
  }

  lemma ChainTransfers(m: Memory, r: Request)
    ensures Input(m, r.Chain()) == Sent(m, r) && Output(r.Chain()) == Answer(r)
  {
    var c := r.Chain();
    match r
    case Read(_, _, _, _) => Transfers.Query(m, c[0], c[1], c[2]);
    case Write(_, _, _, _) => Transfers.Order(m, c[0], c[1], c[2]);
    case Command(_, _) => Transfers.Command(m, c[0], c[1]);
    case Gpu(_, _, _, _) => Transfers.Command(m, c[0], c[1]);
    case Cursor(_, _) => Transfers.LastRead(m, c[0]);
    case Packet(_, _, len) =>
      if len == 0 {
        Transfers.LastRead(m, c[0]);
      } else {
        Transfers.Message(m, c[0], c[1]);
      }
  }

  /** Every chain conveys its request, and so does every copy of it with other links. */
  lemma ChainConveys(r: Request, c: seq<Descriptor>)
    requires SameBuffers(c, r.Chain())
    ensures Conveys(c, r)
  {
    forall m: Memory
      ensures Input(m, c) == Sent(m, r) && Output(c) == Answer(r)
    {
      SameTransfer(m, c, r.Chain());
      ChainTransfers(m, r);
    }
    var zero: Memory := _ => 0;
    assert Input(zero, c) == Sent(zero, r);
  }

  /** The buffers that the device may write come after all that it is to read, as section 2.6.4.2 of VIRTIO 1.1
      demands. */
  lemma WritableLast(r: Request)
    ensures forall i, j :: 0 <= i < j < |r.Chain()| && Writable(r.Chain()[i]) ==> Writable(r.Chain()[j])
  {
  }

  /** The sizes are those of the records `BlkReq` and `BlkRespStatus`. */
  lemma RequestSizes()
    ensures BLK_REQ_SIZE == SizeOf([U32, U32, U64]) && BLK_RESP_SIZE == SizeOf([U8])
  {
    EndNext([], U32);
    EndNext([U32], U32);
    EndNext([U32, U32], U64);
    EndNext([], U8);
    assert [] + [U32] == [U32] && [U32] + [U32] == [U32, U32] && [U32, U32] + [U64] == [U32, U32, U64];
    assert [] + [U8] == [U8];
  }

  function Chains(requests: seq<Request>): (c: seq<seq<Descriptor>>)
    ensures |c| == |requests|
  {
    seq(|requests|, i requires 0 <= i < |requests| => requests[i].Chain())
  }

  /** During a request that is served from rest the device takes exactly one chain, and reads from it exactly
      the buffers of the request. */
  lemma DeviceSawChain(s: System, data: seq<Descriptor>, mid: System, t: System)
    requires Rest(s) && WellFlagged(data) && Served(s, data, mid, t)
    ensures Rest(t) && |t.desc| == |s.desc| && |t.dev.fetched| == |s.dev.fetched| + 1
    ensures t.hist.added == s.hist.added + [data]
    ensures t.dev.fetched[|s.dev.fetched|].head == NewIds(s.free, |data|)[0]
    ensures SameBuffers(t.dev.fetched[|s.dev.fetched|].buffers, data)
  {
    var acts :| DeviceMoves(AddStep(s, data), acts, mid);
    LoneRequest(s, data, acts, mid);
    ServedRests(s, data, mid, t);
    RestMeans(s);
    RestMeans(t);
  }

  lemma RestLogs(s: System)
    requires Rest(s)
    ensures |s.hist.added| == |s.dev.fetched| == |s.hist.heads|
  {
    RestMeans(s);
  }

  /** Since state `s` the device has taken exactly one chain for each of the requests, which conveys it, and has
      completed exactly these chains, in order and with the given lengths. */
  ghost predicate Answered(s: System, requests: seq<Request>, lens: seq<u32>, t: System) {
    && |lens| == |requests|
    && |t.dev.fetched| == |s.dev.fetched| + |requests|
    && |t.hist.used| == |s.hist.used| + |requests| && s.hist.used <= t.hist.used
    && forall i: nat :: i < |requests| ==>
         AnsweredBy(t.dev.fetched[|s.dev.fetched| + i], requests[i], t.hist.used[|s.hist.used| + i], lens[i])
  }

  /** The chain conveys the request, and the completion is that of the chain. */
  ghost predicate AnsweredBy(f: Fetch, r: Request, e: UsedElem, len: u32) {
    Conveys(f.buffers, r) && e == UsedElem(f.head, len)
  }

  lemma ExchangedAnswers(s: System, requests: seq<Request>, lens: seq<u32>, t: System)
    requires Rest(s) && Exchanged(s, Chains(requests), lens, t)
    ensures Answered(s, requests, lens, t)
  {
    RestLogs(s);
    RestLogs(t);
    AllAnswered(s, requests, lens, t);
  }

  lemma AllAnswered(s: System, requests: seq<Request>, lens: seq<u32>, t: System)
    requires |s.hist.added| == |s.dev.fetched| == |s.hist.heads| && s.hist.heads <= t.hist.heads
    requires |t.dev.fetched| == |t.hist.heads| == |s.hist.heads| + |lens| && |lens| == |requests|
    requires Faithful(t) && t.hist.added == s.hist.added + Chains(requests)
    requires t.hist.used == s.hist.used + Completions(t.hist.heads[|s.hist.heads|..], lens)
    ensures Answered(s, requests, lens, t)
  {
    forall i: nat | i < |requests|
      ensures AnsweredBy(t.dev.fetched[|s.dev.fetched| + i], requests[i], t.hist.used[|s.hist.used| + i], lens[i])
    {
      var f := t.dev.fetched[|s.dev.fetched| + i];
      assert t.hist.added[|s.hist.added| + i] == requests[i].Chain();
      ChainConveys(requests[i], f.buffers);
      assert t.hist.used[|s.hist.used| + i] == Completions(t.hist.heads[|s.hist.heads|..], lens)[i];
    }
  }

  /** Over any run of requests of a driver the queue is at rest between requests, has room for every request
      that fits it at all, and the device was conveyed exactly these requests, in order, and has completed exactly
      them, with the lengths that it reported. */
  lemma ClientRuns(states: seq<System>, mids: seq<System>, requests: seq<Request>, i: nat, r: Request)
    returns (lens: seq<u32>)
    requires AllServed(states, mids, Chains(requests)) && Rest(states[0]) && i <= |requests|
    requires |r.Chain()| <= |states[0].desc|
    ensures Rest(states[i]) && CanAdd(states[i], r.Chain())
    ensures Answered(states[0], requests[..i], lens, states[i])
    ensures |lens| == i && forall j :: 0 <= j < i ==> lens[j] == Reported(states[j], Chains(requests)[j], mids[j])
  {
    lens := RunExchanges(states, mids, Chains(requests), i);
    assert Chains(requests[..i]) == Chains(requests)[..i];
    ExchangedAnswers(states[0], requests[..i], lens, states[i]);
    RestHasSpace(states[i], r.Chain());
  }

  lemma NextExchanged(s: System, requests: seq<Request>, lens: seq<u32>, t: System, i: nat, u: System)
    requires |lens| == |requests| && i < |requests|
    requires Exchanged(s, Chains(requests[..i]), lens[..i], t) && Exchanged(t, [requests[i].Chain()], [lens[i]], u)
    ensures Exchanged(s, Chains(requests[..i + 1]), lens[..i + 1], u)
  {
    ExchangedAppend(s, Chains(requests[..i]), lens[..i], t, requests[i].Chain(), lens[i], u);
    assert lens[..i + 1] == lens[..i] + [lens[i]];
    assert Chains(requests[..i + 1]) == Chains(requests[..i]) + [requests[i].Chain()];
  }

  /** A driver over one queue. */
  class Client {
    const queue: VirtIoQueue
    const transport: Mmio.MmioTransport

    /** No request is outstanding. */
    ghost predicate Valid()
      reads queue, queue.desc, queue.availRing, queue.usedRing
    {
      Rest(queue.View())
    }

    constructor (queue: VirtIoQueue, transport: Mmio.MmioTransport)
      requires Rest(queue.View())
      ensures Valid() && this.queue == queue && this.transport == transport
    {
      this.queue, this.transport := queue, transport;
    }

    /** Makes a request and waits for its end.  The queue is never full, and at rest again afterwards; the device
        was conveyed the request, and what is returned is what it reported for it. */
    method Perform(request: Request, notifyOk: bool, sched: Schedule, lo: nat,
                   ghost before: Path, ghost token: u16, ghost after: Path, ghost bound: nat)
      returns (r: Result<u32>, hi: nat)
      requires Valid() && |request.Chain()| <= queue.desc.Length
      requires Serving(queue.View(), request.Chain(), sched, lo, before, token, after, bound)
      modifies transport, queue, queue.desc, queue.availRing, queue.usedRing
      ensures hi in after && AddEnd(lo, |request.Chain()|) + 1 in after
      ensures var s := after[AddEnd(lo, |request.Chain()|) + 1];
        && transport.Told(Bell(s.usedFlags, notifyOk, queue.index))
        && (r.Err? <==> Unheard(s, notifyOk))
      ensures r.Err? ==> r.error == IoError
      ensures r.Ok? ==> PoppedIn(after[hi], token, r, queue.View())
      ensures r.Ok? ==> Exchanged(old(queue.View()), [request.Chain()], [r.value], queue.View())
      ensures r.Ok? ==> Valid() && Answered(old(queue.View()), [request], [r.value], queue.View())
    {
      var data := request.Chain();
      ChainsWellFlagged(request);
      RestMeans(queue.View());
      ghost var s := queue.View();
      ghost var at;
      r, hi, at := queue.AddNotifyWaitPop(transport, data, notifyOk, sched, lo, before, token, after, bound);
      if r.Ok? {
        RequestExchanges(before, data, token, after, sched, lo, bound, hi);
        assert Chains([request]) == [data];
        ExchangedAnswers(s, [request], [r.value], queue.View());
      }
    }

    /** Any number of requests, one after the other, to a device that completes each after some delay: the device is
        conveyed each of them, and each returns the length that the device reported for it. */
    method PerformAll(requests: seq<Request>, lens: seq<u32>, delays: seq<nat>) returns (rs: seq<Result<u32>>)
      requires Valid() && |lens| == |requests| && |delays| == |requests|
      requires forall i :: 0 <= i < |requests| ==> |requests[i].Chain()| <= queue.desc.Length
      modifies transport, queue, queue.desc, queue.availRing, queue.usedRing
      ensures Valid() && |rs| == |requests| && forall i :: 0 <= i < |requests| ==> rs[i] == Ok(lens[i])
      ensures Answered(old(queue.View()), requests, lens, queue.View())
      ensures transport.Told(Bells(old(queue.usedFlags), queue.index, |requests|))
    {
      ghost var s, seen, bank := queue.View(), transport.seen, transport.bank;
      rs := [];
      Nothing(s, seen, bank, requests, lens);
      for i := 0 to |requests|
        invariant |rs| == i && forall j :: 0 <= j < i ==> rs[j] == Ok(lens[j])
        invariant Progress(s, seen, bank, requests, lens, i)
      {
        var r := PerformNext(requests, lens, delays[i], i, s, seen, bank);
        rs := rs + [r];
      }
      assert requests[..|requests|] == requests && lens[..|lens|] == lens;
      ExchangedAnswers(s, requests, lens, queue.View());
    }

    /** The first `i` requests are done. */
    ghost predicate Progress(s: System, seen: seq<Mmio.Bank>, bank: Mmio.Bank, requests: seq<Request>, lens: seq<u32>,
                             i: nat)
      requires i <= |requests| == |lens|
      reads transport, queue, queue.desc, queue.availRing, queue.usedRing
    {
      && Exchanged(s, Chains(requests[..i]), lens[..i], queue.View()) && queue.usedFlags == s.usedFlags
      && Mmio.Rung(seen, bank, transport.seen, transport.bank, Bells(s.usedFlags, queue.index, i))
    }

    lemma Nothing(s: System, seen: seq<Mmio.Bank>, bank: Mmio.Bank, requests: seq<Request>, lens: seq<u32>)
      requires Valid() && |requests| == |lens| && s == queue.View() && seen == transport.seen && bank == transport.bank
      ensures Progress(s, seen, bank, requests, lens, 0)
    {
      ExchangeNothing(s);
      assert bank.notified + [] == bank.notified;
      assert Bells(s.usedFlags, queue.index, 0) == [] && Chains(requests[..0]) == [] && lens[..0] == [];
    }

    method PerformNext(requests: seq<Request>, lens: seq<u32>, delay: nat, i: nat,
                       ghost s: System, ghost seen: seq<Mmio.Bank>, ghost bank: Mmio.Bank)
      returns (r: Result<u32>)
      requires i < |requests| == |lens| && |requests[i].Chain()| <= |s.desc|
      requires Progress(s, seen, bank, requests, lens, i)
      modifies transport, queue, queue.desc, queue.availRing, queue.usedRing
      ensures r == Ok(lens[i]) && Progress(s, seen, bank, requests, lens, i + 1)
    {
      ghost var t, mid, b := queue.View(), transport.seen, transport.bank;
      r := PerformOne(requests[i], lens[i], delay);
      ghost var calls, call := Bells(s.usedFlags, queue.index, i), Bell(s.usedFlags, true, queue.index);
      Mmio.RungTwice(seen, bank, mid, b, transport.seen, transport.bank, calls, call);
      assert Bells(s.usedFlags, queue.index, i + 1) == calls + call;
      NextExchanged(s, requests, lens, t, i, queue.View());
    }

    method PerformOne(request: Request, len: u32, delay: nat) returns (r: Result<u32>)
      requires Valid() && |request.Chain()| <= queue.desc.Length
      modifies transport, queue, queue.desc, queue.availRing, queue.usedRing
      ensures r == Ok(len) && Exchanged(old(queue.View()), [request.Chain()], [len], queue.View())
      ensures transport.Told(Bell(old(queue.usedFlags), true, queue.index)) && queue.usedFlags == old(queue.usedFlags)
    {
      var n := |request.Chain()|;
      ChainsWellFlagged(request);
      RestHasSpace(queue.View(), request.Chain());
      var token := queue.availDescIndex[n - 1];
      ghost var before, after := DelayedServes(queue.View(), request.Chain(), len, 0, delay);
      var sched, hi := Delayed(AddEnd(0, n) + delay, token, len), 0;
      r, hi := Perform(request, true, sched, 0, before, token, after, AddEnd(0, n) + delay + 2);
    }
  }

  /** The same on a new queue. */
  method ServeFresh(t: Mmio.MmioTransport, size: nat, index: u16, base: u64,
                    requests: seq<Request>, lens: seq<u32>, delays: seq<nat>)
    returns (rs: seq<Result<u32>>, ghost last: System)
    requires Accepted(size) && |lens| == |requests| && |delays| == |requests|
    requires forall i :: 0 <= i < |requests| ==> |requests[i].Chain()| <= size
    modifies t
    ensures |rs| == |requests| && forall i :: 0 <= i < |requests| ==> rs[i] == Ok(lens[i])
    ensures Rest(last) && Answered(Fresh(size), requests, lens, last)
    ensures t.Told(seq(|requests|, _ => index))
  {
    var queue := new VirtIoQueue(size, index, base);
    FreshRests(size);
    var client := new Client(queue, t);
    assert queue.desc.Length == |queue.View().desc|;
    rs := client.PerformAll(requests, lens, delays);
    last := queue.View();
  }
}
