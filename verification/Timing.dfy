/** Jobs with an ETA: in a run they wait in the sorted set, leave it once, and only then start their handler. */
module Timing {
  import opened Jobs
  import opened Protocol
  import opened Invariant
  import opened Preservation
  import opened Lifecycle

  /** The message of job id is in the sorted set. */
  predicate WaitsForMove(w: World, id: Id)
    requires id in w.rows
  {
    var p := w.rows[id].h.at;
    p.InBox? && p.k in w.box && w.box[p.k].scheduled
  }

  predicate MovesJob(w: World, s: Step, id: Id) {
    s.Move? && s.stop.NoStop? && s.k in w.box && w.box[s.k].msg.meta.id == id
  }

  /** How often the broker moved a message of job id to its queue. */
  ghost function Moves(w: World, tr: seq<Step>, id: Id): nat
    requires IsPossible(w, tr)
  {
    if tr == [] then 0
    else
      var before := tr[..|tr| - 1];
      Moves(w, before, id) + if MovesJob(After(w, before), tr[|tr| - 1], id) then 1 else 0
  }

  /** After n moves: jobs with an ETA are moved once after their push, others never, and none runs before. */
  predicate MovedAsDue(h: History, waits: bool, n: nat) {
    && n == (if h.pushes == 1 && h.job.opts.eta != 0 && !waits then 1 else 0)
    && (waits ==> h.pushes == 1 && h.job.opts.eta != 0)
    && (h.runs > 0 ==> h.pushes == 1 && !waits)
  }

  predicate TimedOk(w: World, id: Id, n: nat)
    requires id in w.rows
  {
    MovedAsDue(w.rows[id].h, WaitsForMove(w, id), n)
  }

  lemma MoveTimes(w: World, k: nat, stop: Stop, id: Id, n: nat)
    requires Inv(w) && CanMove(w, k) && id in w.rows && TimedOk(w, id, n) && !stop.AfterPush?
    ensures TimedOk(DoMove(w, k, stop), id, n + if MovesJob(w, Move(k, stop), id) then 1 else 0)
  {
    assert BoxOk(w, k) && RowOk(w, id);
  }

  /** A row the step leaves alone, and whose broker entry it leaves alone, stays so. */
  lemma SameTimes(w: World, w': World, id: Id, n: nat)
    requires id in w.rows && id in w'.rows && TimedOk(w, id, n)
    requires w'.rows[id].h == w.rows[id].h
    requires forall k | k in w.box && w.rows[id].h.at == InBox(k) ::
               k in w'.box && w'.box[k].scheduled == w.box[k].scheduled
    requires PlaceOk(w, id, w.rows[id].h.at)
    ensures TimedOk(w', id, n)
  {
  }

  lemma PushedTimes(w: World, t: nat, f: Fault, n: nat)
    requires CanPush(w, t) && PcOk(w, t, w.threads[t]) && TimedOk(w, w.threads[t].c.meta.id, n)
    ensures TimedOk(DoPush(w, t, f), w.threads[t].c.meta.id, n)
  {
  }

  lemma ParentTimes(w: World, t: nat, f: Fault, n: nat)
    requires CanPush(w, t) && PcOk(w, t, w.threads[t]) && w.threads[t].ctx.Parent?
    requires TimedOk(w, w.threads[t].ctx.m.meta.id, n)
    ensures TimedOk(DoPush(w, t, f), w.threads[t].ctx.m.meta.id, n)
  {
  }

  lemma PushTimes(w: World, t: nat, f: Fault, id: Id, n: nat)
    requires Inv(w) && CanPush(w, t) && id in w.rows && TimedOk(w, id, n)
    ensures id in DoPush(w, t, f).rows && TimedOk(DoPush(w, t, f), id, n)
  {
    assert PcOk(w, t, w.threads[t]) && RowOk(w, id);
    NextIsNew(w);
    var pc := w.threads[t];
    if id == pc.c.meta.id {
      PushedTimes(w, t, f, n);
    } else if pc.ctx.Parent? && id == pc.ctx.m.meta.id {
      ParentTimes(w, t, f, n);
    } else {
      SameTimes(w, DoPush(w, t, f), id, n);
    }
  }

  lemma ReceiveTimes(w: World, t: nat, k: nat, f: Fault, id: Id, n: nat)
    requires Inv(w) && CanReceive(w, t, k) && id in w.rows && TimedOk(w, id, n)
    ensures id in DoReceive(w, t, k, f).rows && TimedOk(DoReceive(w, t, k, f), id, n)
  {
    assert RowOk(w, id) && BoxOk(w, k);
    if id != w.box[k].msg.meta.id {
      SameTimes(w, DoReceive(w, t, k, f), id, n);
    }
  }

  lemma HandoffTimes(w: World, c: nat, t: nat, id: Id, n: nat)
    requires Inv(w) && CanHandoff(w, c, t) && id in w.rows && TimedOk(w, id, n)
    ensures id in DoHandoff(w, c, t).rows && TimedOk(DoHandoff(w, c, t), id, n)
  {
    assert RowOk(w, id) && PcOk(w, c, w.threads[c]);
    if id != w.threads[c].m.meta.id {
      SameTimes(w, DoHandoff(w, c, t), id, n);
    }
  }

  lemma RequeueTimes(w: World, t: nat, f: Fault, id: Id, n: nat)
    requires Inv(w) && CanRequeue(w, t) && id in w.rows && TimedOk(w, id, n)
    ensures id in DoRequeue(w, t, f).rows && TimedOk(DoRequeue(w, t, f), id, n)
  {
    assert RowOk(w, id) && PcOk(w, t, w.threads[t]);
    NextIsNew(w);
    if id != w.threads[t].m.meta.id {
      SameTimes(w, DoRequeue(w, t, f), id, n);
    }
  }

  lemma ActTimes(r: Row, m: Msg, st: Stage, a: Act, t: nat, n: nat)
    requires CanAct(m, st, a) && StageOk(r, m, st, t) && MovedAsDue(r.h, false, n)
    ensures var r' := ActOn(r, m, st, a).0; !r'.h.at.InBox? && MovedAsDue(r'.h, false, n)
  {
  }

  lemma WorkTimes(w: World, t: nat, a: Act, id: Id, n: nat)
    requires Inv(w) && CanWork(w, t, a) && id in w.rows && TimedOk(w, id, n)
    ensures id in DoWork(w, t, a).rows && TimedOk(DoWork(w, t, a), id, n)
  {
    assert PcOk(w, t, w.threads[t]) && RowOk(w, id);
    var Busy(m, st) := w.threads[t];
    hide ActOn;
    if id == m.meta.id {
      ActTimes(w.rows[id], m, st, a, t, n);
    } else {
      SameTimes(w, DoWork(w, t, a), id, n);
    }
  }

  lemma WriteTimes(w: World, t: nat, f: Fault, id: Id, n: nat)
    requires Inv(w) && CanWrite(w, t) && id in w.rows && TimedOk(w, id, n)
    ensures id in DoWrite(w, t, f).rows && TimedOk(DoWrite(w, t, f), id, n)
  {
    assert PcOk(w, t, w.threads[t]) && RowOk(w, id);
  }

  lemma NewTimes(w: World, s: Step, id: Id)
    requires Inv(w) && Enabled(w, s) && id !in w.rows
    ensures !MovesJob(w, s, id)
    ensures id in Apply(w, s).rows ==> TimedOk(Apply(w, s), id, 0)
  {
    if s.Move? { assert BoxOk(w, s.k); }
  }

  lemma StepTimes(w: World, s: Step, id: Id, n: nat)
    requires Inv(w) && Enabled(w, s) && (if id in w.rows then TimedOk(w, id, n) else n == 0)
    ensures var n' := n + if MovesJob(w, s, id) then 1 else 0;
            if id in Apply(w, s).rows then TimedOk(Apply(w, s), id, n') else n' == 0
  {
    hide Inv, RowOk;
    if id !in w.rows {
      NewTimes(w, s, id);
    } else {
      match s
      case Move(k, stop) => MoveTimes(w, k, stop, id, n);
      case Push(t, f) => PushTimes(w, t, f, id, n);
      case Work(t, a) => WorkTimes(w, t, a, id, n);
      case Receive(t, k, f) => ReceiveTimes(w, t, k, f, id, n);
      case Handoff(c, t) => HandoffTimes(w, c, t, id, n);
      case Requeue(t, f) => RequeueTimes(w, t, f, id, n);
      case Write(t, f) => WriteTimes(w, t, f, id, n);
      case KidBegin(t, c, cron) =>
      case _ =>
    }
  }

  lemma {:induction false} RunTimes(w0: World, tr: seq<Step>, w: World, id: Id)
    requires Reachable(w0, tr, w)
    ensures if id in w.rows then TimedOk(w, id, Moves(w0, tr, id)) else Moves(w0, tr, id) == 0
  {
    if tr != [] {
      var before := tr[..|tr| - 1];
      RunTimes(w0, before, After(w0, before), id);
      ReachableInv(w0, before, After(w0, before));
      StepTimes(After(w0, before), tr[|tr| - 1], id, Moves(w0, before, id));
    }
  }

  /** No job with an ETA runs before the broker has moved it out of the sorted set, which happens once:
      retries go straight to the queue. A job without an ETA never enters the sorted set. */
  lemma RunsOnlyOnceDue(w0: World, tr: seq<Step>, w: World, id: Id)
    requires Reachable(w0, tr, w) && id in w.rows
    ensures Moves(w0, tr, id) <= 1
    ensures Count(w0, tr, HandlerRun, id) > 0 ==>
              Moves(w0, tr, id) == (if w.rows[id].h.job.opts.eta != 0 then 1 else 0) && !WaitsForMove(w, id)
    ensures w.rows[id].h.job.opts.eta == 0 ==> Moves(w0, tr, id) == 0 && !WaitsForMove(w, id)
    ensures WaitsForMove(w, id) ==> Moves(w0, tr, id) == 0
  {
    RunTimes(w0, tr, w, id);
    CountersCount(w0, tr, w, HandlerRun, id);
  }
}
