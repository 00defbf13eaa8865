/** Flow control of push consumers (server/consumer.go): a window of unanswered bytes.

`pbytes` counts the bytes sent and not yet answered for.  When they pass half the window a flow
control request with a fresh id goes out, covering `fcsz` of them; the answer gives those back and
may double the window.  Sending stops while `pbytes` exceeds the window.
 */
module FlowControl {

  datatype Window = Window(pblimit: int, maxpb: int, pbytes: int, fcsz: int, fcid: string)

  /** `limit` bytes at most, starting with a sixteenth of it. */
  function SetMaxPendingBytes(limit: nat): Window {
    Window(limit, if limit / 16 == 0 then 1 else limit / 16, 0, 0, "")
  }

  /** The gate of the delivery loop. */
  predicate CanSend(w: Window) { !(w.maxpb > 0 && w.pbytes > w.maxpb) }

  function SendFlowControl(w: Window, id: string): Window { w.(fcsz := w.pbytes, fcid := id) }

  /** A message of `sz` bytes goes out.  `full` says that acks ride on flow control and too much is pending;
      `id` is the id used if a request is sent.
   */
  function Send(w: Window, sz: nat, full: bool, id: string): Window {
    if w.maxpb <= 0 then w
    else
      var w1 := w.(pbytes := w.pbytes + sz);
      if w1.fcid == "" && (w1.pbytes > w1.maxpb / 2 || full) then SendFlowControl(w1, id)
      else if w1.fcid != "" && w1.pbytes - w1.fcsz >= w1.maxpb then w1.(fcsz := w1.fcsz + sz)
      else w1
  }

  /** The answer to a flow control request arrives on `subject`. */
  function Answer(w: Window, subject: string): Window {
    if subject != w.fcid then w
    else
      var maxpb := if w.maxpb < w.pblimit then (if w.maxpb * 2 > w.pblimit then w.pblimit else w.maxpb * 2) else w.maxpb;
      var pbytes := if w.pbytes - w.fcsz < 0 then 0 else w.pbytes - w.fcsz;
      w.(maxpb := maxpb, pbytes := pbytes, fcid := "", fcsz := 0)
  }

  /** An idle heartbeat may send the request early when acks ride on flow control. */
  function Beat(w: Window, id: string): Window { if w.fcid == "" then SendFlowControl(w, id) else w }

  ghost predicate Inv(w: Window) {
    && 1 <= w.maxpb <= w.pblimit
    && 0 <= w.fcsz <= w.pbytes
    && (if w.fcid == "" then w.fcsz == 0 && w.pbytes <= w.maxpb else w.pbytes - w.fcsz < w.maxpb)
  }

  datatype Event =
    | Sent(sz: nat, full: bool, id: string)
    | Answered(subject: string)
    | Idle(id: string)

  function Step(w: Window, e: Event): Window {
    match e
    case Sent(sz, full, id) => Send(w, sz, full, id)
    case Answered(subject) => Answer(w, subject)
    case Idle(id) => Beat(w, id)
  }

  /** The loop sends only through the gate, and ids are not empty. */
  predicate Enabled(w: Window, e: Event) {
    match e
    case Sent(_, _, id) => CanSend(w) && id != ""
    case Answered(subject) => subject != ""
    case Idle(id) => id != ""
  }

  function Run(w: Window, es: seq<Event>): Window
    decreases |es|
  {
    if es == [] then w else Run(Step(w, es[0]), es[1..])
  }

  predicate Possible(w: Window, es: seq<Event>)
    decreases |es|
  {
    es == [] || (Enabled(w, es[0]) && Possible(Step(w, es[0]), es[1..]))
  }

  lemma {:induction false} RunKeeps(w: Window, es: seq<Event>)
    requires Inv(w) && Possible(w, es)
    ensures Inv(Run(w, es))
    decreases |es|
  {
    if es != [] {
      RunKeeps(Step(w, es[0]), es[1..]);
    }
  }

  /** Flow control never wedges: in every run the window stays within its limit; whenever the gate is closed
      a request is outstanding, and its answer, which never takes back more than was sent, opens the gate.
   */
  lemma NeverWedges(limit: nat, es: seq<Event>)
    requires limit >= 1 && Possible(SetMaxPendingBytes(limit), es)
    ensures var w := Run(SetMaxPendingBytes(limit), es);
            && 1 <= w.maxpb <= w.pblimit == limit && 0 <= w.fcsz <= w.pbytes
            && (!CanSend(w) ==> w.fcid != "")
            && (w.fcid != "" ==> CanSend(Answer(w, w.fcid)) && Answer(w, w.fcid).pbytes == w.pbytes - w.fcsz)
  {
    RunKeeps(SetMaxPendingBytes(limit), es);
    RunLimit(SetMaxPendingBytes(limit), es);
  }

  lemma {:induction false} RunLimit(w: Window, es: seq<Event>)
    ensures Run(w, es).pblimit == w.pblimit
    decreases |es|
  {
    if es != [] {
      RunLimit(Step(w, es[0]), es[1..]);
    }
  }

  // The books balance.

  function BytesSent(es: seq<Event>): nat {
    if es == [] then 0 else BytesSent(es[..|es| - 1]) + (if es[|es| - 1].Sent? then es[|es| - 1].sz else 0)
  }

  /** Bytes given back by the answers of a run. */
  function BytesAnswered(w: Window, es: seq<Event>): int
    decreases |es|
  {
    if es == [] then 0
    else (if es[0].Answered? && es[0].subject == w.fcid then w.fcsz else 0) + BytesAnswered(Step(w, es[0]), es[1..])
  }

  lemma {:induction false} BytesSentHead(es: seq<Event>)
    requires es != []
    ensures BytesSent(es) == (if es[0].Sent? then es[0].sz else 0) + BytesSent(es[1..])
  {
    var init := es[..|es| - 1];
    if |es| > 1 {
      BytesSentHead(init);
      assert init[1..] == es[1..][..|es| - 2];
    }
  }

  /** In every run, what is outstanding is what was sent less what was answered. */
  lemma {:induction false} Balance(w: Window, es: seq<Event>)
    requires Inv(w) && Possible(w, es)
    ensures Run(w, es).pbytes == w.pbytes + BytesSent(es) - BytesAnswered(w, es)
    decreases |es|
  {
    if es != [] {
      BytesSentHead(es);
      Balance(Step(w, es[0]), es[1..]);
    }
  }

  // The window grows.

  /** The answers of a run that were to the request outstanding. */
  function Answers(w: Window, es: seq<Event>): nat
    decreases |es|
  {
    if es == [] then 0
    else (if es[0].Answered? && es[0].subject == w.fcid then 1 else 0) + Answers(Step(w, es[0]), es[1..])
  }

  function Doubled(x: nat, n: nat): nat
    decreases n
  {
    if n == 0 then x else Doubled(2 * x, n - 1)
  }

  function AtMost(limit: int, x: int): int { if x > limit then limit else x }

  lemma {:induction false} DoubledGrows(x: nat, n: nat)
    ensures Doubled(x, n) >= x
    decreases n
  {
    if n > 0 {
      DoubledGrows(2 * x, n - 1);
    }
  }

  lemma {:induction false} DoubledCut(limit: nat, x: nat, n: nat)
    requires x >= limit
    ensures AtMost(limit, Doubled(x, n)) == limit
  {
    DoubledGrows(x, n);
  }

  /** In every run the window is the one it started with, doubled once for each answer, up to its limit. */
  lemma {:induction false} Doubles(w: Window, es: seq<Event>)
    requires Inv(w) && Possible(w, es)
    ensures Run(w, es).maxpb == AtMost(w.pblimit, Doubled(w.maxpb, Answers(w, es)))
    decreases |es|
  {
    if es != [] {
      var m, n := Step(w, es[0]), Answers(Step(w, es[0]), es[1..]);
      Doubles(m, es[1..]);
      if es[0].Answered? && es[0].subject == w.fcid {
        if 2 * w.maxpb >= w.pblimit {
          DoubledCut(w.pblimit, 2 * w.maxpb, n);
          DoubledCut(w.pblimit, m.maxpb, n);
        }
      }
    }
  }

  lemma FiveTimes(x: nat, n: nat)
    requires n >= 5
    ensures Doubled(x, n) >= 32 * x
  {
    assert Doubled(x, n) == Doubled(2 * x, n - 1) == Doubled(4 * x, n - 2) == Doubled(8 * x, n - 3);
    assert Doubled(8 * x, n - 3) == Doubled(16 * x, n - 4) == Doubled(32 * x, n - 5);
    DoubledGrows(32 * x, n - 5);
  }

  /** Five answers are enough for the whole window, whatever the limit; four are if the limit is a multiple of sixteen. */
  lemma FullyGrown(limit: nat, es: seq<Event>)
    requires limit >= 1 && Possible(SetMaxPendingBytes(limit), es)
    ensures var w := SetMaxPendingBytes(limit);
            && (Answers(w, es) >= 5 ==> Run(w, es).maxpb == limit)
            && (Answers(w, es) == 4 && limit >= 16 ==> (Run(w, es).maxpb == limit <==> limit % 16 == 0))
  {
    var w := SetMaxPendingBytes(limit);
    Doubles(w, es);
    if Answers(w, es) >= 5 {
      FiveTimes(w.maxpb, Answers(w, es));
    } else if Answers(w, es) == 4 {
      var x := w.maxpb;
      assert Doubled(x, 4) == Doubled(2 * x, 3) == Doubled(4 * x, 2) == Doubled(8 * x, 1) == Doubled(16 * x, 0) == 16 * x;
    }
  }

  /** The flow-control fields of the consumer object. */
  class Controller {
    var pblimit: int
    var maxpb: int
    var pbytes: int
    var fcsz: int
    var fcid: string

    ghost function Contents(): Window
      reads this
    {
      Window(pblimit, maxpb, pbytes, fcsz, fcid)
    }

    constructor (limit: nat)
      ensures Contents() == SetMaxPendingBytes(limit)
      ensures limit >= 1 ==> Inv(Contents())
    {
      pblimit, maxpb := limit, if limit / 16 == 0 then 1 else limit / 16;
      pbytes, fcsz, fcid := 0, 0, "";
    }

    /** Whether a request must go out; else the outstanding one may have to cover this message too. */
    method NeedFlowControl(sz: nat, full: bool) returns (need: bool)
      modifies this`fcsz
      ensures need <==> maxpb != 0 && fcid == "" && (pbytes > maxpb / 2 || full)
      ensures fcsz == if maxpb != 0 && fcid != "" && pbytes - old(fcsz) >= maxpb then old(fcsz) + sz else old(fcsz)
    {
      if maxpb == 0 {
        return false;
      }
      if fcid == "" && pbytes > maxpb / 2 {
        return true;
      }
      if fcid == "" && full {
        return true;
      }
      if fcid != "" && pbytes - fcsz >= maxpb {
        fcsz := fcsz + sz;
      }
      return false;
    }

    method DeliverMsg(sz: nat, full: bool, id: string)
      requires CanSend(Contents()) && id != ""
      modifies this
      ensures Contents() == Send(old(Contents()), sz, full, id)
      ensures old(Inv(Contents())) ==> Inv(Contents())
    {
      if maxpb > 0 {
        pbytes := pbytes + sz;
        var need := NeedFlowControl(sz, full);
        if need {
          fcsz, fcid := pbytes, id;
        }
      }
    }

    method ProcessFlowControl(subject: string)
      modifies this
      ensures Contents() == Answer(old(Contents()), subject)
      ensures old(Inv(Contents())) ==> Inv(Contents())
    {
      if subject != fcid {
        return;
      }
      if maxpb < pblimit {
        maxpb := maxpb * 2;
        if maxpb > pblimit {
          maxpb := pblimit;
        }
      }
      pbytes := pbytes - fcsz;
      if pbytes < 0 {
        pbytes := 0;
      }
      fcid, fcsz := "", 0;
    }
  }
}
