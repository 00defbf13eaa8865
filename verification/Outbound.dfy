/** Outbound buffering of a connection (server/client.go): open, uncompressed, not a websocket.

Data is queued in pooled buffers of fixed capacity while a flush, which gives up the lock for the
write itself, works on its own list.  The phases of a flush and the calls that queue data interleave
freely; a write may stop anywhere.
 */
module Outbound {
  import opened Basics

  type Byte = b: int | 0 <= b < 256

  /** A pooled buffer: its frame in memory, its capacity, and the bytes it holds.  Cutting it off the front leaves the
      rest of the frame.
   */
  datatype Buf = Buf(frame: nat, cap: int, data: seq<Byte>)

  const SMALL: nat := 512
  const MEDIUM: nat := 4096
  const LARGE: nat := 65536
  const MAX_VECTOR: nat := 1024

  /** Capacity of the pooled buffer handed out for `sz` bytes. */
  function PoolCap(sz: nat): (cap: nat)
    ensures cap == SMALL || cap == MEDIUM || cap == LARGE
    ensures cap < sz ==> cap == LARGE
  {
    if sz <= SMALL then SMALL else if sz <= MEDIUM then MEDIUM else LARGE
  }

  function Min(a: nat, b: nat): nat { if a < b then a else b }

  /** The bytes of a buffer list, in order. */
  function Flat(bs: seq<Buf>): seq<Byte> {
    if bs == [] then [] else bs[0].data + Flat(bs[1..])
  }

  lemma SplitAt<T>(q: seq<T>, k: nat)
    requires k <= |q|
    ensures q == q[..k] + q[k..]
  {
  }

  lemma {:induction false} FlatConcat(a: seq<Buf>, b: seq<Buf>)
    ensures Flat(a + b) == Flat(a) + Flat(b)
  {
    if a == [] {
      assert a + b == b;
    } else {
      FlatConcat(a[1..], b);
      assert (a + b)[1..] == a[1..] + b;
      Assoc(a[0].data, Flat(a[1..]), Flat(b));
    }
  }

  // Queueing.

  /** Fills up the last buffer of a list; returns the list and how much went in. */
  function TopUp(nb: seq<Buf>, data: seq<Byte>): (seq<Buf>, nat)
    ensures TopUp(nb, data).1 <= |data|
  {
    if nb == [] then (nb, 0)
    else
      var last := nb[|nb| - 1];
      if last.cap <= |last.data| then (nb, 0)
      else
        var k := Min(last.cap - |last.data|, |data|);
        (nb[..|nb| - 1] + [last.(data := last.data + data[..k])], k)
  }

  /** Data cut into pooled buffers; `frames` supplies them. */
  function Chunks(data: seq<Byte>, frames: seq<nat>): (bs: seq<Buf>)
    decreases |data|
  {
    if data == [] || frames == [] then []
    else
      var cap := PoolCap(|data|);
      var k := Min(cap, |data|);
      [Buf(frames[0], cap, data[..k])] + Chunks(data[k..], frames[1..])
  }

  function ChunkCount(sz: nat): nat {
    if sz == 0 then 0 else 1 + ChunkCount(sz - Min(PoolCap(sz), sz))
  }

  lemma FlatOne(b: Buf)
    ensures Flat([b]) == b.data
  {
  }

  lemma FlatTopUpNone(nb: seq<Buf>, data: seq<Byte>)
    requires TopUp(nb, data).1 == 0
    ensures TopUp(nb, data).0 == nb
  {
    if nb != [] {
      var last := nb[|nb| - 1];
      assert nb == nb[..|nb| - 1] + [last];
      assert last.data + data[..0] == last.data;
    }
  }

  lemma TopUpFlat(nb: seq<Buf>, data: seq<Byte>)
    ensures var (r, k) := TopUp(nb, data); Flat(r) == Flat(nb) + data[..k]
  {
    var (r, k) := TopUp(nb, data);
    if k > 0 {
      var init, last := nb[..|nb| - 1], nb[|nb| - 1];
      var more := last.(data := last.data + data[..k]);
      SplitAt(nb, |nb| - 1);
      assert nb == init + [last] && r == init + [more];
      FlatConcat(init, [last]);
      FlatConcat(init, [more]);
      FlatOne(last);
      FlatOne(more);
      Assoc(Flat(init), last.data, data[..k]);
    } else {
      FlatTopUpNone(nb, data);
    }
  }

  lemma {:induction false} ChunksFlat(data: seq<Byte>, frames: seq<nat>)
    requires |frames| >= ChunkCount(|data|)
    ensures Flat(Chunks(data, frames)) == data
    decreases |data|
  {
    if data != [] {
      var k := Min(PoolCap(|data|), |data|);
      ChunksFlat(data[k..], frames[1..]);
      SplitAt(data, k);
    }
  }

  // Writing.

  /** What is left of a list after `k` of its bytes are written: used-up buffers go, a partly written one is cut. */
  function Consume(bs: seq<Buf>, k: nat): seq<Buf> {
    if bs == [] then []
    else if |bs[0].data| > k then [bs[0].(cap := bs[0].cap - k, data := bs[0].data[k..])] + bs[1..]
    else Consume(bs[1..], k - |bs[0].data|)
  }

  lemma {:induction false} ConsumeFlat(bs: seq<Buf>, k: nat)
    requires k <= |Flat(bs)|
    ensures Flat(Consume(bs, k)) == Flat(bs)[k..]
  {
    if bs != [] {
      if |bs[0].data| > k {
        var cut := bs[0].(cap := bs[0].cap - k, data := bs[0].data[k..]);
        assert ([cut] + bs[1..])[1..] == bs[1..];
      } else {
        ConsumeFlat(bs[1..], k - |bs[0].data|);
      }
    }
  }

  function Frames(bs: seq<Buf>): seq<nat> { seq(|bs|, i requires 0 <= i < |bs| => bs[i].frame) }

  /** `a` lies within `b`: on the same frame, with no more room. */
  predicate Within(a: Buf, b: Buf) { a.frame == b.frame && |a.data| <= a.cap <= b.cap }

  ghost predicate AllWithin(a: seq<Buf>, b: seq<Buf>) {
    |a| <= |b| && forall i :: 0 <= i < |a| ==> Within(a[i], b[|b| - |a| + i])
  }

  ghost predicate Fit(bs: seq<Buf>) { forall i :: 0 <= i < |bs| ==> |bs[i].data| <= bs[i].cap }

  lemma TailWithin(a: seq<Buf>, bs: seq<Buf>)
    requires bs != [] && AllWithin(a, bs[1..])
    ensures AllWithin(a, bs)
  {
    forall i | 0 <= i < |a|
      ensures Within(a[i], bs[|bs| - |a| + i])
    {
      assert bs[1..][|bs[1..]| - |a| + i] == bs[|bs| - |a| + i];
    }
  }

  lemma CutWithin(bs: seq<Buf>, k: nat)
    requires Fit(bs) && bs != [] && |bs[0].data| > k
    ensures AllWithin([bs[0].(cap := bs[0].cap - k, data := bs[0].data[k..])] + bs[1..], bs)
  {
  }

  /** Writing keeps what is left within its frames: they are a tail of what there was. */
  lemma {:induction false} ConsumeWithin(bs: seq<Buf>, k: nat)
    requires Fit(bs)
    ensures AllWithin(Consume(bs, k), bs)
  {
    if bs != [] {
      if |bs[0].data| > k {
        CutWithin(bs, k);
      } else {
        ConsumeWithin(bs[1..], k - |bs[0].data|);
        TailWithin(Consume(bs, k), bs);
      }
    }
  }

  // The connection.

  /** Where a flush stands.  `orig` remembers the list the writes started from, `n` the bytes written so far. */
  datatype Phase = Quiet | Collected(coll: seq<Buf>) | Writing(orig: seq<Buf>, n: nat)

  /** `nb`: buffers queued.  `wnb`: buffers being written.  `pb`: bytes pending.  `maxPending`: the limit of a
      client, if any.  `free`: the frames in the pools, each with the size of the pool it is in.
      `used`: all frames ever made, each with its size in memory.
   */
  datatype Out = Out(
    nb: seq<Buf>, wnb: seq<Buf>, pb: int, phase: Phase, closed: bool, maxPending: int, limited: bool,
    free: map<nat, int>, used: map<nat, int>)

  /** The sizes of all frames, with those that buffers are the first to use. */
  function Grown(used: map<nat, int>, bs: seq<Buf>): map<nat, int>
    decreases |bs|
  {
    if bs == [] then used
    else Grown(if bs[0].frame in used then used else used[bs[0].frame := bs[0].cap], bs[1..])
  }

  /** With data put into buffers: the last one topped up, the rest on new frames. */
  function Added(o: Out, data: seq<Byte>, frames: seq<nat>): Out {
    var (nb, k) := TopUp(o.nb, data);
    var chunks := Chunks(data[k..], frames);
    o.(nb := nb + chunks, pb := o.pb + |data|, free := o.free - (set f | f in Frames(chunks)), used := Grown(o.used, chunks))
  }

  function Queue(o: Out, data: seq<Byte>, frames: seq<nat>): Out {
    if o.closed then o
    else
      var o1 := Added(o, data, frames);
      if o.limited && o1.pb > o.maxPending then o1.(pb := o.pb, closed := true) else o1
  }

  /** Under the lock: the flush takes the queued buffers. */
  function Collect(o: Out): Out {
    if o.phase.Quiet? && !o.closed && o.pb != 0 then o.(nb := [], phase := Collected(o.nb)) else o
  }

  /** Without the lock: they are appended to what an earlier write left. */
  function Gather(o: Out): Out {
    match o.phase
    case Collected(coll) => o.(wnb := o.wnb + coll, phase := Writing(o.wnb + coll, 0))
    case _ => o
  }

  /** Without the lock: one vectored write, which accepts `k` bytes. */
  function Write(o: Out, k: nat): Out {
    match o.phase
    case Writing(orig, n) =>
      var m := Min(MAX_VECTOR, |o.wnb|);
      if k <= |Flat(o.wnb[..m])|
      then o.(wnb := Consume(o.wnb[..m], k) + o.wnb[m..], phase := Writing(orig, n + k))
      else o
    case _ => o
  }

  predicate Pooled(cap: int) { cap == SMALL || cap == MEDIUM || cap == LARGE }

  /** Returns buffers to the pools: each goes to the pool of its capacity, and one that fits none is dropped. */
  function Returned(free: map<nat, int>, bs: seq<Buf>): map<nat, int>
    decreases |bs|
  {
    if bs == [] then free
    else Returned(if Pooled(bs[0].cap) then free[bs[0].frame := bs[0].cap] else free, bs[1..])
  }

  /** Under the lock again: used-up buffers go back to the pools. */
  function Finish(o: Out): Out {
    match o.phase
    case Writing(orig, n) =>
      if |o.wnb| > |orig| then o
      else o.(pb := o.pb - n, phase := Quiet, free := Returned(o.free, orig[..|orig| - |o.wnb|]))
    case _ => o
  }

  // Runs.

  /** The connection with everything ever queued on it and everything the socket has accepted. */
  datatype World = World(o: Out, queued: seq<Byte>, written: seq<Byte>)

  datatype Event =
    | QueueData(data: seq<Byte>, frames: seq<nat>)
    | CollectNow
    | GatherNow
    | WriteSome(k: nat)
    | FinishNow

  function Sent(o: Out, k: nat): seq<Byte> {
    var batch := Flat(o.wnb[..Min(MAX_VECTOR, |o.wnb|)]);
    if o.phase.Writing? && k <= |batch| then batch[..k] else []
  }

  function Step(w: World, e: Event): World {
    match e
    case QueueData(data, frames) =>
      w.(o := Queue(w.o, data, frames), queued := if w.o.closed then w.queued else w.queued + data)
    case CollectNow => w.(o := Collect(w.o))
    case GatherNow => w.(o := Gather(w.o))
    case WriteSome(k) => w.(o := Write(w.o, k), written := w.written + Sent(w.o, k))
    case FinishNow => w.(o := Finish(w.o))
  }

  ghost predicate FromPools(o: Out, frames: seq<nat>, bs: seq<Buf>) {
    && (forall i :: 0 <= i < |frames| ==> frames[i] in o.free || frames[i] !in o.used)
    && (forall i :: 0 <= i < |bs| && bs[i].frame in o.free ==> o.free[bs[i].frame] == bs[i].cap)
  }

  /** The pools hand out enough frames, each once, either new ones or free ones of the size asked for. */
  ghost predicate Enabled(w: World, e: Event) {
    match e
    case QueueData(data, frames) =>
      && |frames| >= ChunkCount(|data| - TopUp(w.o.nb, data).1)
      && Distinct(frames)
      && FromPools(w.o, frames, Chunks(data[TopUp(w.o.nb, data).1..], frames))
    case _ => true
  }

  function Run(w: World, es: seq<Event>): World
    decreases |es|
  {
    if es == [] then w else Run(Step(w, es[0]), es[1..])
  }

  ghost predicate Possible(w: World, es: seq<Event>)
    decreases |es|
  {
    es == [] || (Enabled(w, es[0]) && Possible(Step(w, es[0]), es[1..]))
  }

  function Start(maxPending: int, limited: bool): World {
    World(Out([], [], 0, Quiet, false, maxPending, limited, map[], map[]), [], [])
  }

  function InFlight(p: Phase): seq<Buf> { if p.Collected? then p.coll else [] }

  function Unbooked(p: Phase): nat { if p.Writing? then p.n else 0 }

  /** Nothing is lost, repeated or reordered, and the pending count is right up to the writes of a running flush. */
  ghost predicate Stream(w: World) {
    && w.written + Flat(w.o.wnb) + Flat(InFlight(w.o.phase)) + Flat(w.o.nb) == w.queued
    && w.o.pb == |Flat(w.o.wnb)| + |Flat(InFlight(w.o.phase))| + |Flat(w.o.nb)| + Unbooked(w.o.phase)
  }

  lemma AppendFlat(nb: seq<Buf>, top: seq<Buf>, chunks: seq<Buf>, data: seq<Byte>, k: nat)
    requires k <= |data| && Flat(top) == Flat(nb) + data[..k] && Flat(chunks) == data[k..]
    ensures Flat(top + chunks) == Flat(nb) + data
  {
    FlatConcat(top, chunks);
    Assoc(Flat(nb), data[..k], data[k..]);
    SplitAt(data, k);
  }

  /** The buffers queued after data is added hold what they held, then the data. */
  lemma QueueFlat(nb: seq<Buf>, data: seq<Byte>, frames: seq<nat>)
    requires |frames| >= ChunkCount(|data| - TopUp(nb, data).1)
    ensures var (top, k) := TopUp(nb, data); Flat(top + Chunks(data[k..], frames)) == Flat(nb) + data
  {
    var (top, k) := TopUp(nb, data);
    TopUpFlat(nb, data);
    ChunksFlat(data[k..], frames);
    AppendFlat(nb, top, Chunks(data[k..], frames), data, k);
  }

  lemma QueueStream(w: World, data: seq<Byte>, frames: seq<nat>)
    requires Stream(w) && Enabled(w, QueueData(data, frames)) && !w.o.closed
    ensures var r := Step(w, QueueData(data, frames)); !r.o.closed ==> Stream(r)
  {
    QueueFlat(w.o.nb, data, frames);
    Assoc(w.written + Flat(w.o.wnb) + Flat(InFlight(w.o.phase)), Flat(w.o.nb), data);
  }

  /** A write takes its bytes off the front. */
  lemma WriteFlat(wnb: seq<Buf>, m: nat, k: nat)
    requires m <= |wnb| && k <= |Flat(wnb[..m])|
    ensures Flat(wnb) == Flat(wnb[..m])[..k] + Flat(Consume(wnb[..m], k) + wnb[m..])
  {
    var batch, rest := wnb[..m], wnb[m..];
    SplitAt(wnb, m);
    FlatConcat(batch, rest);
    ConsumeFlat(batch, k);
    FlatConcat(Consume(batch, k), rest);
    SplitAt(Flat(batch), k);
    Assoc(Flat(batch)[..k], Flat(batch)[k..], Flat(rest));
  }

  lemma WriteStream(w: World, k: nat)
    requires Stream(w)
    ensures Stream(Step(w, WriteSome(k)))
  {
    var m := Min(MAX_VECTOR, |w.o.wnb|);
    if w.o.phase.Writing? && k <= |Flat(w.o.wnb[..m])| {
      WriteFlat(w.o.wnb, m, k);
      Assoc(w.written, Sent(w.o, k), Flat(Write(w.o, k).wnb));
    } else {
      assert w.written + [] == w.written;
    }
  }

  lemma StepStream(w: World, e: Event)
    requires !w.o.closed ==> Stream(w)
    requires Enabled(w, e)
    ensures var r := Step(w, e); !r.o.closed ==> Stream(r)
  {
    if !w.o.closed {
      match e {
        case QueueData(data, frames) => QueueStream(w, data, frames);
        case CollectNow =>
        case GatherNow =>
          if w.o.phase.Collected? {
            FlatConcat(w.o.wnb, w.o.phase.coll);
            Assoc(w.written, Flat(w.o.wnb), Flat(w.o.phase.coll));
          }
        case WriteSome(k) => WriteStream(w, k);
        case FinishNow =>
      }
    }
  }

  lemma {:induction false} RunPending(w: World, es: seq<Event>)
    requires (!w.o.closed ==> Stream(w)) && Possible(w, es)
    ensures !Run(w, es).o.closed ==> Stream(Run(w, es))
    decreases |es|
  {
    if es != [] {
      StepStream(w, es[0]);
      RunPending(Step(w, es[0]), es[1..]);
    }
  }

  /** For every interleaving and all partial writes, while the connection is open: the bytes accepted by the
      socket, then those being written, then those queued are exactly what was queued, in order; and when no
      flush is running the pending count is the bytes held.
   */
  lemma RunStream(w: World, es: seq<Event>)
    requires (!w.o.closed ==> Stream(w)) && Possible(w, es)
    ensures var r := Run(w, es);
            !r.o.closed ==>
              && r.written + Flat(r.o.wnb) + Flat(InFlight(r.o.phase)) + Flat(r.o.nb) == r.queued
              && (r.o.phase.Quiet? ==> r.o.pb == |Flat(r.o.wnb)| + |Flat(r.o.nb)|)
  {
    RunPending(w, es);
  }

  // The limit.

  /** An open connection with a limit has no more pending than that, and one without is not closed for it. */
  ghost predicate Limited(w: World) {
    if w.o.limited then w.o.closed || w.o.pb <= w.o.maxPending else !w.o.closed
  }

  lemma {:induction false} RunLimited(w: World, es: seq<Event>)
    requires Limited(w)
    ensures Limited(Run(w, es)) && Run(w, es).o.maxPending == w.o.maxPending && Run(w, es).o.limited == w.o.limited
    decreases |es|
  {
    if es != [] {
      RunLimited(Step(w, es[0]), es[1..]);
    }
  }

  /** After any run, queueing closes an open connection if and only if it has a limit and what was queued, with the new data,
      exceeds by more than that what was written by flushes that have ended.
   */
  lemma ClosesExactly(maxPending: nat, limited: bool, es: seq<Event>, data: seq<Byte>, frames: seq<nat>)
    requires Possible(Start(maxPending, limited), es) && !Run(Start(maxPending, limited), es).o.closed
    ensures var r := Run(Start(maxPending, limited), es);
            Queue(r.o, data, frames).closed <==>
            limited && |r.queued| + |data| > maxPending + |r.written| - Unbooked(r.o.phase)
  {
    var w := Start(maxPending, limited);
    RunLimited(w, es);
    RunPending(w, es);
  }

  // A flush that is not held up.

  lemma {:induction false} ConsumeAll(bs: seq<Buf>)
    ensures Consume(bs, |Flat(bs)|) == []
  {
    if bs != [] {
      ConsumeAll(bs[1..]);
    }
  }

  lemma RunCons(w: World, e: Event, es: seq<Event>)
    requires Enabled(w, e) && Possible(Step(w, e), es)
    ensures Possible(w, [e] + es) && Run(w, [e] + es) == Run(Step(w, e), es)
  {
    assert ([e] + es)[1..] == es;
  }

  /** Writing in progress, with nothing else to be collected. */
  ghost predicate Draining(w: World, queued: seq<Byte>) {
    !w.o.closed && Stream(w) && w.o.phase.Writing? && w.o.nb == [] && w.queued == queued && |w.o.wnb| <= |w.o.phase.orig|
  }

  lemma WriteBatch(w: World, queued: seq<Byte>)
    requires Draining(w, queued) && w.o.wnb != []
    ensures var k := |Flat(w.o.wnb[..Min(MAX_VECTOR, |w.o.wnb|)])|;
            Draining(Step(w, WriteSome(k)), queued) && |Step(w, WriteSome(k)).o.wnb| < |w.o.wnb|
  {
    var m := Min(MAX_VECTOR, |w.o.wnb|);
    ConsumeAll(w.o.wnb[..m]);
    assert [] + w.o.wnb[m..] == w.o.wnb[m..];
    WriteStream(w, |Flat(w.o.wnb[..m])|);
  }

  /** Everything was sent, and nothing is pending. */
  predicate AllSent(w: World, queued: seq<Byte>) {
    w.written == queued && w.o.phase.Quiet? && w.o.pb == 0 && w.o.nb == [] && w.o.wnb == []
  }

  lemma FinishDrained(w: World, queued: seq<Byte>)
    requires Draining(w, queued) && w.o.wnb == []
    ensures Possible(w, [FinishNow]) && AllSent(Run(w, [FinishNow]), queued)
  {
    RunCons(w, FinishNow, []);
    assert [FinishNow] + [] == [FinishNow];
  }

  lemma {:induction false} Drain(w: World, queued: seq<Byte>) returns (es: seq<Event>)
    requires Draining(w, queued)
    ensures Possible(w, es) && AllSent(Run(w, es), queued)
    decreases |w.o.wnb|
  {
    if w.o.wnb == [] {
      FinishDrained(w, queued);
      es := [FinishNow];
    } else {
      var e := WriteSome(|Flat(w.o.wnb[..Min(MAX_VECTOR, |w.o.wnb|)])|);
      WriteBatch(w, queued);
      var more := Drain(Step(w, e), queued);
      RunCons(w, e, more);
      es := [e] + more;
    }
  }

  lemma Begin(w: World)
    requires !w.o.closed && Stream(w) && w.o.phase.Quiet? && w.o.pb != 0
    ensures Draining(Step(Step(w, CollectNow), GatherNow), w.queued)
  {
    StepStream(w, CollectNow);
    StepStream(Step(w, CollectNow), GatherNow);
  }

  /** From any open state between flushes with something pending, a flush whose writes are accepted in full sends everything
      that was ever queued, and leaves nothing pending.
   */
  lemma FlushSendsAll(w: World) returns (es: seq<Event>)
    requires !w.o.closed && Stream(w) && w.o.phase.Quiet? && w.o.pb != 0
    ensures Possible(w, es) && AllSent(Run(w, es), w.queued)
  {
    var w1 := Step(w, CollectNow);
    Begin(w);
    var more := Drain(Step(w1, GatherNow), w.queued);
    RunCons(w1, GatherNow, more);
    RunCons(w, CollectNow, [GatherNow] + more);
    es := [CollectNow] + ([GatherNow] + more);
  }

  // Frames.

  /** The buffers that a flush has taken over, or an earlier one left. */
  function Flushing(o: Out): seq<Buf> {
    match o.phase
    case Quiet => o.wnb
    case Collected(coll) => o.wnb + coll
    case Writing(orig, _) => orig
  }

  /** The buffers whose frames are out of the pool. */
  function Held(o: Out): seq<Buf> { Flushing(o) + o.nb }

  /** The buffer lies in its frame, which is not in a pool. */
  ghost predicate InFrame(b: Buf, o: Out) {
    b.frame in o.used && b.frame !in o.free && |b.data| <= b.cap <= o.used[b.frame]
  }

  ghost predicate AllInFrame(bs: seq<Buf>, o: Out) { forall i :: 0 <= i < |bs| ==> InFrame(bs[i], o) }

  ghost predicate PoolsFit(free: map<nat, int>, used: map<nat, int>) {
    forall f :: f in free ==> f in used && free[f] <= used[f]
  }

  /** No frame backs two buffers, none that backs a buffer is in a pool, and neither a buffer nor what is in a pool is
      larger than its frame.
   */
  ghost predicate Apart(o: Out) {
    && Distinct(Frames(Held(o)))
    && PoolsFit(o.free, o.used)
    && AllInFrame(Held(o), o)
    && (o.phase.Writing? ==> AllWithin(o.wnb, o.phase.orig))
  }

  lemma FramesConcat(a: seq<Buf>, b: seq<Buf>)
    ensures Frames(a + b) == Frames(a) + Frames(b)
  {
  }

  lemma {:induction false} ChunksFrames(data: seq<Byte>, frames: seq<nat>)
    ensures |Chunks(data, frames)| <= |frames| && Frames(Chunks(data, frames)) == frames[..|Chunks(data, frames)|]
    decreases |data|
  {
    if data != [] && frames != [] {
      var k := Min(PoolCap(|data|), |data|);
      ChunksFrames(data[k..], frames[1..]);
    }
  }

  lemma TopUpFrames(nb: seq<Buf>, data: seq<Byte>)
    ensures Frames(TopUp(nb, data).0) == Frames(nb)
  {
  }

  lemma DistinctConcat(a: seq<nat>, b: seq<nat>)
    requires Distinct(a) && Distinct(b) && forall f :: f in b ==> f !in a
    ensures Distinct(a + b)
  {
    var q := a + b;
    forall i, j | 0 <= i < j < |q|
      ensures q[i] != q[j]
    {
      if i < |a| <= j {
        assert q[i] in a && q[j] in b;
      }
    }
  }

  lemma HeldSplit(o: Out, nb: seq<Buf>)
    ensures Frames(Held(o.(nb := nb))) == Frames(Flushing(o)) + Frames(nb)
  {
    FramesConcat(Flushing(o), nb);
    assert Held(o.(nb := nb)) == Flushing(o) + nb;
  }

  /** Queueing adds the frames of the new buffers behind those held. */
  lemma QueueFrames(o: Out, data: seq<Byte>, frames: seq<nat>)
    requires !o.closed
    ensures var r, chunks := Queue(o, data, frames), Chunks(data[TopUp(o.nb, data).1..], frames);
            Frames(Held(r)) == Frames(Held(o)) + Frames(chunks)
  {
    var (nb, k) := TopUp(o.nb, data);
    var chunks := Chunks(data[k..], frames);
    TopUpFrames(o.nb, data);
    FramesConcat(nb, chunks);
    HeldSplit(o, o.nb);
    HeldSplit(o, nb + chunks);
    Assoc(Frames(Flushing(o)), Frames(nb), Frames(chunks));
    var r := Queue(o, data, frames);
    assert Held(r) == Held(o.(nb := nb + chunks));
  }

  lemma {:induction false} GrownFits(used: map<nat, int>, bs: seq<Buf>)
    requires Distinct(Frames(bs))
    ensures var r := Grown(used, bs);
            && (forall f :: f in used ==> f in r && r[f] == used[f])
            && (forall i :: 0 <= i < |bs| ==> bs[i].frame in r && (bs[i].frame !in used ==> r[bs[i].frame] == bs[i].cap))
    decreases |bs|
  {
    if bs != [] {
      assert Frames(bs[1..]) == Frames(bs)[1..];
      var more := if bs[0].frame in used then used else used[bs[0].frame := bs[0].cap];
      GrownFits(more, bs[1..]);
      forall i | 0 < i < |bs|
        ensures bs[i].frame in Grown(more, bs[1..]) && bs[i].frame != bs[0].frame && bs[1..][i - 1] == bs[i]
      {
        assert Frames(bs)[0] != Frames(bs)[i];
      }
    }
  }

  lemma {:induction false} ChunksFit(data: seq<Byte>, frames: seq<nat>)
    ensures Fit(Chunks(data, frames))
    decreases |data|
  {
    if data != [] && frames != [] {
      ChunksFit(data[Min(PoolCap(|data|), |data|)..], frames[1..]);
    }
  }

  /** What was held, with the last buffer filled up. */
  lemma TopUpHeld(o: Out, data: seq<Byte>)
    requires AllInFrame(Held(o), o)
    ensures AllInFrame(Held(o.(nb := TopUp(o.nb, data).0)), o)
  {
    var held, nb := Flushing(o), TopUp(o.nb, data).0;
    assert Held(o) == held + o.nb && Held(o.(nb := nb)) == held + nb;
    forall i | 0 <= i < |nb|
      ensures InFrame(nb[i], o)
    {
      assert InFrame((held + o.nb)[|held| + i], o);
    }
    forall i | 0 <= i < |held|
      ensures InFrame(held[i], o)
    {
      assert InFrame((held + o.nb)[i], o);
    }
  }

  /** Taking frames for buffers keeps the pools and what is held in their frames. */
  lemma TakenKeeps(o: Out, r: Out, held: seq<Buf>, chunks: seq<Buf>)
    requires PoolsFit(o.free, o.used) && AllInFrame(held, o) && Distinct(Frames(chunks))
    requires r.free == o.free - (set f | f in Frames(chunks)) && r.used == Grown(o.used, chunks)
    ensures PoolsFit(r.free, r.used) && AllInFrame(held, r)
  {
    GrownFits(o.used, chunks);
    forall i | 0 <= i < |held|
      ensures InFrame(held[i], r)
    {
      assert InFrame(held[i], o);
    }
  }

  /** The new buffers lie in the frames they were given. */
  lemma TakenInFrame(o: Out, r: Out, frames: seq<nat>, chunks: seq<Buf>)
    requires PoolsFit(o.free, o.used) && Distinct(Frames(chunks)) && Fit(chunks) && FromPools(o, frames, chunks)
    requires Frames(chunks) <= frames
    requires r.free == o.free - (set f | f in Frames(chunks)) && r.used == Grown(o.used, chunks)
    ensures AllInFrame(chunks, r)
  {
    GrownFits(o.used, chunks);
    forall i | 0 <= i < |chunks|
      ensures InFrame(chunks[i], r)
    {
      assert chunks[i].frame == Frames(chunks)[i] == frames[i];
    }
  }

  lemma ChunksReady(data: seq<Byte>, frames: seq<nat>)
    requires Distinct(frames)
    ensures var chunks := Chunks(data, frames); Fit(chunks) && Frames(chunks) <= frames && Distinct(Frames(chunks))
  {
    ChunksFrames(data, frames);
    ChunksFit(data, frames);
    DistinctPrefix(frames, |Chunks(data, frames)|);
  }

  lemma QueueInFrame(o: Out, data: seq<Byte>, frames: seq<nat>)
    requires Apart(o) && !o.closed && Enabled(World(o, [], []), QueueData(data, frames))
    ensures var r := Queue(o, data, frames); PoolsFit(r.free, r.used) && AllInFrame(Held(r), r)
  {
    var (nb, k) := TopUp(o.nb, data);
    var chunks := Chunks(data[k..], frames);
    var held, r := Held(o.(nb := nb)), Queue(o, data, frames);
    ChunksReady(data[k..], frames);
    TopUpHeld(o, data);
    assert r.free == o.free - (set f | f in Frames(chunks)) && r.used == Grown(o.used, chunks);
    TakenKeeps(o, r, held, chunks);
    TakenInFrame(o, r, frames, chunks);
    BothInFrame(held, chunks, r);
    Assoc(Flushing(o), nb, chunks);
  }

  lemma DistinctPrefix(q: seq<nat>, n: nat)
    requires n <= |q| && Distinct(q)
    ensures Distinct(q[..n])
  {
  }

  lemma BothInFrame(a: seq<Buf>, b: seq<Buf>, o: Out)
    requires AllInFrame(a, o) && AllInFrame(b, o)
    ensures AllInFrame(a + b, o)
  {
  }

  lemma HeldTaken(o: Out)
    requires AllInFrame(Held(o), o)
    ensures forall f :: f in Frames(Held(o)) ==> f in o.used && f !in o.free
  {
    forall i | 0 <= i < |Held(o)|
      ensures Frames(Held(o))[i] in o.used && Frames(Held(o))[i] !in o.free
    {
      assert InFrame(Held(o)[i], o);
    }
  }

  lemma QueueApart(o: Out, data: seq<Byte>, frames: seq<nat>)
    requires Apart(o) && Enabled(World(o, [], []), QueueData(data, frames))
    ensures Apart(Queue(o, data, frames))
  {
    if !o.closed {
      QueueFrames(o, data, frames);
      ChunksFrames(data[TopUp(o.nb, data).1..], frames);
      QueueInFrame(o, data, frames);
      var held, fs := Held(o), Frames(Chunks(data[TopUp(o.nb, data).1..], frames));
      HeldTaken(o);
      assert forall f :: f in fs ==> f in frames;
      DistinctConcat(Frames(held), fs);
    }
  }

  lemma WriteWithin(wnb: seq<Buf>, m: nat, k: nat)
    requires m <= |wnb| && Fit(wnb)
    ensures AllWithin(Consume(wnb[..m], k) + wnb[m..], wnb)
  {
    var batch, rest := wnb[..m], wnb[m..];
    ConsumeWithin(batch, k);
    var r := Consume(batch, k) + rest;
    forall i | 0 <= i < |r|
      ensures Within(r[i], wnb[|wnb| - |r| + i])
    {
      if i >= |Consume(batch, k)| {
        assert r[i] == wnb[|wnb| - |r| + i];
      }
    }
  }

  lemma WithinAgain(a: seq<Buf>, b: seq<Buf>, c: seq<Buf>)
    requires AllWithin(a, b) && AllWithin(b, c)
    ensures AllWithin(a, c)
  {
    forall i | 0 <= i < |a|
      ensures Within(a[i], c[|c| - |a| + i])
    {
      assert Within(b[|b| - |a| + i], c[|c| - |b| + (|b| - |a| + i)]);
    }
  }

  lemma GatherApart(o: Out)
    requires Apart(o)
    ensures Apart(Gather(o))
  {
    if o.phase.Collected? {
      var r := Gather(o);
      assert Held(r) == Held(o);
      forall i | 0 <= i < |r.wnb|
        ensures Within(r.wnb[i], r.phase.orig[i])
      {
        assert r.wnb[i] == Held(o)[i] && InFrame(Held(o)[i], o);
      }
    }
  }

  lemma WriteApart(o: Out, k: nat)
    requires Apart(o)
    ensures Apart(Write(o, k))
  {
    var m := Min(MAX_VECTOR, |o.wnb|);
    if o.phase.Writing? && k <= |Flat(o.wnb[..m])| {
      WriteWithin(o.wnb, m, k);
      WithinAgain(Write(o, k).wnb, o.wnb, o.phase.orig);
      assert Held(Write(o, k)) == Held(o);
    }
  }

  predicate GoesBack(b: Buf, f: nat) { b.frame == f && Pooled(b.cap) }

  /** Returning buffers puts the frames of those whose capacity is that of a pool, and no others, into the pools, with no
      more than they had.
   */
  lemma {:induction false} ReturnedFits(free: map<nat, int>, bs: seq<Buf>, o: Out)
    requires PoolsFit(free, o.used) && AllInFrame(bs, o)
    ensures var r := Returned(free, bs);
            PoolsFit(r, o.used) && forall f :: f in r <==> f in free || exists i :: 0 <= i < |bs| && GoesBack(bs[i], f)
    decreases |bs|
  {
    if bs != [] {
      var more := if Pooled(bs[0].cap) then free[bs[0].frame := bs[0].cap] else free;
      assert InFrame(bs[0], o) && forall i :: 0 <= i < |bs| - 1 ==> bs[1..][i] == bs[i + 1];
      ReturnedFits(more, bs[1..], o);
      forall f
        ensures (exists i :: 0 <= i < |bs| && GoesBack(bs[i], f)) <==>
                GoesBack(bs[0], f) || exists i :: 0 <= i < |bs| - 1 && GoesBack(bs[1..][i], f)
      {
        BackSplit(bs, f);
      }
    }
  }

  lemma BackSplit(bs: seq<Buf>, f: nat)
    requires bs != []
    ensures (exists i :: 0 <= i < |bs| && GoesBack(bs[i], f)) <==>
            GoesBack(bs[0], f) || exists i :: 0 <= i < |bs[1..]| && GoesBack(bs[1..][i], f)
  {
    if i :| 0 <= i < |bs| && GoesBack(bs[i], f) {
      assert i == 0 || bs[1..][i - 1] == bs[i];
    }
  }

  /** What is held after a flush lies within what was held after its used-up buffers. */
  lemma FinishHeld(o: Out)
    requires Apart(o) && o.phase.Writing?
    ensures var d := |o.phase.orig| - |o.wnb|;
            |Held(o)| == d + |Held(Finish(o))| &&
            forall i :: 0 <= i < |Held(Finish(o))| ==> Within(Held(Finish(o))[i], Held(o)[d + i])
  {
    var d, r := |o.phase.orig| - |o.wnb|, Finish(o);
    forall i | 0 <= i < |Held(r)|
      ensures Within(Held(r)[i], Held(o)[d + i])
    {
      assert InFrame(Held(o)[d + i], o);
    }
  }

  lemma FinishApart(o: Out)
    requires Apart(o)
    ensures Apart(Finish(o))
  {
    if o.phase.Writing? {
      var d, r := |o.phase.orig| - |o.wnb|, Finish(o);
      FinishHeld(o);
      FinishPools(o);
      forall i | 0 <= i < |Held(r)|
        ensures InFrame(Held(r)[i], r)
      {
        assert InFrame(Held(o)[d + i], o) && Within(Held(r)[i], Held(o)[d + i]);
        assert Held(r)[i].frame == Frames(Held(o))[d + i];
      }
      assert Frames(Held(r)) == Frames(Held(o))[d..];
    }
  }

  /** The pools get nothing that is still held after the flush. */
  lemma FinishPools(o: Out)
    requires Apart(o) && o.phase.Writing?
    ensures var d, r, all := |o.phase.orig| - |o.wnb|, Finish(o), Frames(Held(o));
            PoolsFit(r.free, r.used) && forall i :: d <= i < |all| ==> all[i] in o.free || all[i] !in r.free
  {
    var orig, d, all := o.phase.orig, |o.phase.orig| - |o.wnb|, Frames(Held(o));
    assert forall i :: 0 <= i < d ==> orig[..d][i] == Held(o)[i] && orig[..d][i].frame == all[i];
    ReturnedFits(o.free, orig[..d], o);
  }

  /** No pool ever holds a frame that still backs a buffer, so no buffer is overwritten while in use; and neither a buffer
      nor what a pool holds is larger than its frame, though a buffer that a write cut goes to the pool of what is left.
   */
  lemma {:induction false} RunApart(w: World, es: seq<Event>)
    requires Apart(w.o) && Possible(w, es)
    ensures Apart(Run(w, es).o)
    decreases |es|
  {
    if es != [] {
      match es[0] {
        case QueueData(data, frames) => QueueApart(w.o, data, frames);
        case CollectNow => assert w.o.wnb + w.o.nb + [] == w.o.wnb + w.o.nb;
        case GatherNow => GatherApart(w.o);
        case WriteSome(k) => WriteApart(w.o, k);
        case FinishNow => FinishApart(w.o);
      }
      RunApart(Step(w, es[0]), es[1..]);
    }
  }
}
