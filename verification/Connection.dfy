/** The outbound side of a connection as an object. */
module ConnectionObject {
  import opened Basics
  import opened Outbound

  class Connection {
    var nb: seq<Buf>
    var wnb: seq<Buf>
    var pb: int
    var phase: Phase
    var closed: bool
    const maxPending: int
    const limited: bool
    var free: map<nat, int>
    var top: nat
    ghost var used: map<nat, int>

    ghost function Contents(): Out
      reads this
    {
      Out(nb, wnb, pb, phase, closed, maxPending, limited, free, used)
    }

    /** Every frame ever taken has a number below `top`. */
    ghost predicate Valid()
      reads this
    {
      Apart(Contents()) && forall f :: f in used ==> f < top
    }

    constructor (maxPending: int, limited: bool)
      ensures Valid() && Contents() == Start(maxPending, limited).o
    {
      this.maxPending, this.limited := maxPending, limited;
      nb, wnb, pb, phase, closed := [], [], 0, Quiet, false;
      free, top, used := map[], 0, map[];
    }

    /** A frame from the pool of that size, or a new one when the pool is empty. */
    method TakeFrame(cap: int) returns (f: nat)
      requires free.Keys <= used.Keys && forall f :: f in used ==> f < top
      modifies this`free, this`top, this`used
      ensures f in old(free) ==> old(free)[f] == cap && used == old(used)
      ensures f !in old(free) ==> f !in old(used) && used == old(used)[f := cap]
      ensures free == old(free) - {f} && free.Keys <= used.Keys && forall f :: f in used ==> f < top
    {
      if exists f :: f in free && free[f] == cap {
        f :| f in free && free[f] == cap;
        free := free - {f};
      } else {
        f := top;
        top := top + 1;
        used := used[f := cap];
      }
    }

    /** Queues data, topping up the last buffer first; a client over its limit is closed. */
    method QueueOutbound(data: seq<Byte>) returns (ghost frames: seq<nat>)
      requires Valid()
      modifies this
      ensures Valid() && Contents() == Queue(old(Contents()), data, frames)
      ensures Enabled(World(old(Contents()), [], []), QueueData(data, frames)) || old(closed)
    {
      frames := [];
      if closed {
        return;
      }
      frames := BufferAll(data);
      if limited && pb > maxPending {
        pb := pb - |data|;
        closed := true;
      }
      SuppliedQueues(old(Contents()), data, frames);
    }

    /** Fills the last buffer and pushes the rest into buffers from the pools. */
    method BufferAll(data: seq<Byte>) returns (ghost frames: seq<nat>)
      requires free.Keys <= used.Keys && forall f :: f in used ==> f < top
      modifies this`pb, this`nb, this`free, this`top, this`used
      ensures Contents() == Added(old(Contents()), data, frames) && forall f :: f in used ==> f < top
      ensures var rest := data[TopUp(old(nb), data).1..];
              |frames| == ChunkCount(|rest|) && Supplied(old(free), old(used), frames, Chunks(rest, frames))
    {
      pb := pb + |data|;
      var k := TopUpLast(data);
      frames := BufferRest(data[k..]);
    }

    /** Fills the last buffer as far as it goes; returns how much went in. */
    method TopUpLast(data: seq<Byte>) returns (k: nat)
      modifies this`nb
      ensures (nb, k) == TopUp(old(nb), data)
    {
      k := 0;
      if |nb| > 0 {
        var last := nb[|nb| - 1];
        var room := last.cap - |last.data|;
        if room > 0 {
          if |data| < room {
            room := |data|;
          }
          nb := nb[..|nb| - 1] + [last.(data := last.data + data[..room])];
          k := room;
        }
      }
    }

    /** Pushes data into buffers from the pools. */
    method BufferRest(data: seq<Byte>) returns (ghost frames: seq<nat>)
      requires free.Keys <= used.Keys && forall f :: f in used ==> f < top
      modifies this`nb, this`free, this`top, this`used
      ensures free.Keys <= used.Keys && forall f :: f in used ==> f < top
      ensures nb == old(nb) + Chunks(data, frames) && |frames| == ChunkCount(|data|)
      ensures Supplied(old(free), old(used), frames, Chunks(data, frames))
      ensures free == old(free) - (set f | f in frames) && used == Grown(old(used), Chunks(data, frames))
    {
      var toBuffer := data;
      frames := [];
      while |toBuffer| > 0
        invariant free.Keys <= used.Keys && forall f :: f in used ==> f < top
        invariant nb == old(nb) + Chunks(data, frames) && Supplied(old(free), old(used), frames, Chunks(data, frames))
        invariant toBuffer == Rest(data, |frames|) && ChunkCount(|data|) == |frames| + ChunkCount(|toBuffer|)
        invariant free == old(free) - (set f | f in frames) && used == Grown(old(used), Chunks(data, frames))
        decreases |toBuffer|
      {
        GrownKeys(old(used), Chunks(data, frames));
        var cap := PoolCap(|toBuffer|);
        var f := TakeFrame(cap);
        var k := Min(cap, |toBuffer|);
        ghost var b := Buf(f, cap, toBuffer[..k]);
        ChunksSnoc(data, frames, f);
        SuppliedMore(old(free), old(used), frames, Chunks(data, frames), b);
        nb := nb + [Buf(f, cap, toBuffer[..k])];
        toBuffer := toBuffer[k..];
        frames := frames + [f];
      }
    }

    /** Under the lock: a flush begins, unless one is running or there is nothing to do. */
    method BeginFlush()
      requires Valid()
      modifies this`nb, this`phase
      ensures Valid() && Contents() == Collect(old(Contents()))
    {
      if phase.Quiet? && !closed && pb != 0 {
        phase := Collected(nb);
        nb := [];
        assert Held(Contents()) == Held(old(Contents()));
      }
    }

    /** Without the lock: the flush appends what it took to what an earlier one left. */
    method AppendCollected()
      requires Valid() && phase.Collected?
      modifies this`wnb, this`phase
      ensures Valid() && Contents() == Gather(old(Contents()))
    {
      GatherApart(Contents());
      wnb := wnb + phase.coll;
      phase := Writing(wnb, 0);
    }

    /** Without the lock: the flush writes in batches; `accepts` is what the socket takes of each batch,
        and an empty rest of it stands for a write error that stops the flush.
     */
    method WriteBatches(accepts: seq<nat>) returns (out: seq<Byte>)
      requires Valid() && phase.Writing?
      modifies this`wnb, this`phase
      ensures Valid() && phase.Writing? && phase.orig == old(phase.orig)
      ensures out + Flat(wnb) == old(Flat(wnb)) && phase.n == old(phase.n) + |out|
    {
      out := [];
      var i := 0;
      while |wnb| > 0 && i < |accepts|
        invariant Valid() && phase.Writing? && phase.orig == old(phase.orig) && i <= |accepts|
        invariant out + Flat(wnb) == old(Flat(wnb)) && phase.n == old(phase.n) + |out|
        decreases |accepts| - i
      {
        var m := Min(MAX_VECTOR, |wnb|);
        var batch := wnb[..m];
        var k := Min(accepts[i], |Flat(batch)|);
        WriteFlat(wnb, m, k);
        WriteApart(Contents(), k);
        Assoc(out, Flat(batch)[..k], Flat(Consume(batch, k) + wnb[m..]));
        out := out + Flat(batch)[..k];
        wnb := Consume(batch, k) + wnb[m..];
        phase := phase.(n := phase.n + k);
        i := i + 1;
      }
    }

    /** Under the lock again: used-up buffers go to the pool and the bytes written off the books. */
    method EndFlush()
      requires Valid() && phase.Writing?
      modifies this`pb, this`phase, this`free
      ensures Valid() && Contents() == Finish(old(Contents()))
    {
      FinishApart(Contents());
      ghost var gone := phase.orig[..|phase.orig| - |wnb|];
      var orig := phase.orig;
      var i := 0;
      while i < |orig| - |wnb|
        invariant phase == old(phase) && pb == old(pb)
        invariant 0 <= i <= |orig| - |wnb| && Returned(free, gone[i..]) == Returned(old(free), gone)
      {
        assert gone[i..][0] == orig[i] && gone[i..][1..] == gone[i + 1..];
        if Pooled(orig[i].cap) {
          free := free[orig[i].frame := orig[i].cap];
        }
        i := i + 1;
      }
      pb := pb - phase.n;
      phase := Quiet;
    }
  }

  /** The buffers are on frames of their own, in order, each from the pool of its size or new. */
  ghost predicate Supplied(free: map<nat, int>, used: map<nat, int>, frames: seq<nat>, bs: seq<Buf>) {
    && Distinct(frames) && Frames(bs) == frames
    && (forall i :: 0 <= i < |frames| ==> frames[i] in free || frames[i] !in used)
    && (forall i :: 0 <= i < |bs| && bs[i].frame in free ==> free[bs[i].frame] == bs[i].cap)
  }

  lemma SuppliedQueues(o: Out, data: seq<Byte>, frames: seq<nat>)
    requires Apart(o)
    requires var rest := data[TopUp(o.nb, data).1..];
             |frames| == ChunkCount(|rest|) && Supplied(o.free, o.used, frames, Chunks(rest, frames))
    ensures Enabled(World(o, [], []), QueueData(data, frames)) && Apart(Queue(o, data, frames))
  {
    assert Enabled(World(o, [], []), QueueData(data, frames));
    QueueApart(o, data, frames);
  }

  lemma SuppliedMore(free: map<nat, int>, used: map<nat, int>, frames: seq<nat>, bs: seq<Buf>, b: Buf)
    requires Supplied(free, used, frames, bs) && b.frame !in frames && free.Keys <= used.Keys
    requires if b.frame in free then free[b.frame] == b.cap else b.frame !in used
    ensures Supplied(free, used, frames + [b.frame], bs + [b])
    ensures var was := Grown(used, bs); Grown(used, bs + [b]) == if b.frame in free then was else was[b.frame := b.cap]
  {
    FramesConcat(bs, [b]);
    assert Frames([b]) == [b.frame];
    GrownSnoc(used, bs, b);
    GrownKeys(used, bs);
  }

  lemma {:induction false} GrownSnoc(used: map<nat, int>, bs: seq<Buf>, b: Buf)
    ensures var was := Grown(used, bs);
            Grown(used, bs + [b]) == if b.frame in was then was else was[b.frame := b.cap]
    decreases |bs|
  {
    if bs == [] {
      assert [b][1..] == [] && [] + [b] == [b];
    } else {
      assert (bs + [b])[1..] == bs[1..] + [b];
      GrownSnoc(if bs[0].frame in used then used else used[bs[0].frame := bs[0].cap], bs[1..], b);
    }
  }

  lemma {:induction false} GrownKeys(used: map<nat, int>, bs: seq<Buf>)
    ensures forall f :: f in Grown(used, bs) <==> f in used || f in Frames(bs)
    decreases |bs|
  {
    if bs != [] {
      GrownKeys(if bs[0].frame in used then used else used[bs[0].frame := bs[0].cap], bs[1..]);
      assert Frames(bs) == [bs[0].frame] + Frames(bs[1..]);
    }
  }

  /** What is left of `data` after `c` buffers. */
  function Rest(data: seq<Byte>, c: nat): seq<Byte>
    decreases c
  {
    if c == 0 || data == [] then data else Rest(data[Min(PoolCap(|data|), |data|)..], c - 1)
  }

  lemma {:induction false} ChunksSnoc(data: seq<Byte>, frames: seq<nat>, f: nat)
    requires |Chunks(data, frames)| == |frames| && Rest(data, |frames|) != []
    ensures var rest := Rest(data, |frames|);
            var k := Min(PoolCap(|rest|), |rest|);
            && Chunks(data, frames + [f]) == Chunks(data, frames) + [Buf(f, PoolCap(|rest|), rest[..k])]
            && Rest(data, |frames| + 1) == rest[k..]
    decreases |frames|
  {
    if frames != [] {
      assert (frames + [f])[1..] == frames[1..] + [f];
      var k := Min(PoolCap(|data|), |data|);
      ChunksSnoc(data[k..], frames[1..], f);
    }
  }
}
