/** Every step keeps the invariant: for each step, what it touches is repaired and the rest framed. */
module Preservation {
  import opened Jobs
  import opened Protocol
  import opened Invariant

  lemma InitHolds(w: World)
    requires Init(w)
    ensures Inv(w)
  {
  }

  /** The IDs a thread holds. */
  function Held(pc: Pc): set<Id> {
    match pc
    case Idle => {}
    case Busy(m, _) => {m.meta.id}
    case Enqueueing(ctx, c, _) => if ctx.Parent? then {c.meta.id, ctx.m.meta.id} else {c.meta.id}
  }

  /** A thread's rows are its own, so a step of that thread covers them (and rows that are new). */
  lemma HeldCovers(w: World, t: nat, D: set<Id>)
    requires t in w.threads && PcOk(w, t, w.threads[t])
    requires Held(w.threads[t]) <= D && forall id | id in D && id in w.rows :: id in Held(w.threads[t])
    ensures Covers(w, {t}, {}, D)
  {
    forall id | id in D && id in w.rows
      ensures w.rows[id].h.at == At(t)
    {
    }
  }

  /** Frame for a step of one thread that may add a broker entry. */
  lemma FrameThread(w: World, w': World, t: nat, D: set<Id>)
    requires Inv(w) && Grow(w, w') && Alike(w, w', {t}, {}, D) && Covers(w, {t}, {}, D)
    requires t in w.threads && PcOk(w', t, w'.threads[t])
    requires w'.box.Keys <= w.box.Keys + {w.next} && (w.next in w'.box && w.next !in w.box ==> BoxOk(w', w.next))
    requires w'.rows.Keys <= w.rows.Keys + D && forall id | id in D :: id in w'.rows && RowOk(w', id)
    ensures Inv(w')
  {
    Frame(w, w', {t}, {}, D);
  }

  // ---------------------------------------------------------------- a worker and its own message

  /** The row after an act, by itself and next to the worker's next stage. */
  predicate Acted(r: Row, m: Msg, st: Stage, a: Act, t: nat)
    requires CanAct(m, st, a)
  {
    var (r', pc) := ActOn(r, m, st, a);
    && RowLocal(r', m.meta.id) && RowGrow(r, r') && r'.h.kids == r.h.kids
    && !r'.h.at.InBox? && (r'.h.at.At? ==> r'.h.at.t == t && pc.Busy?)
    && !pc.Enqueueing? && (pc.Busy? ==> pc.m.meta.id == m.meta.id && StageOk(r', pc.m, pc.st, t))
  }

  lemma ProcessActs(r: Row, m: Msg, st: Stage, a: Act, t: nat)
    requires CanAct(m, st, a) && StageOk(r, m, st, t) && RowLocal(r, m.meta.id)
    requires a.Process?
    ensures Acted(r, m, st, a, t)
  {
  }

  lemma RetryActs(r: Row, m: Msg, st: Stage, a: Act, t: nat)
    requires CanAct(m, st, a) && StageOk(r, m, st, t) && RowLocal(r, m.meta.id)
    requires a.Retry?
    ensures Acted(r, m, st, a, t)
  {
  }

  lemma ReturnActs(r: Row, m: Msg, st: Stage, o: Outcome, t: nat)
    requires CanAct(m, st, Finish(o)) && StageOk(r, m, st, t) && RowLocal(r, m.meta.id) && ErrorOf(o).None?
    ensures Acted(r, m, st, Finish(o), t)
  {
  }

  lemma RetryableActs(r: Row, m: Msg, st: Stage, o: Outcome, t: nat)
    requires CanAct(m, st, Finish(o)) && StageOk(r, m, st, t) && RowLocal(r, m.meta.id) && ErrorOf(o).Some?
    requires m.meta.retried != m.meta.maxRetry
    ensures Acted(r, m, st, Finish(o), t)
  {
  }

  lemma LastErrorActs(r: Row, m: Msg, st: Stage, o: Outcome, t: nat)
    requires CanAct(m, st, Finish(o)) && StageOk(r, m, st, t) && RowLocal(r, m.meta.id) && ErrorOf(o).Some?
    requires m.meta.retried == m.meta.maxRetry
    ensures Acted(r, m, st, Finish(o), t)
  {
  }

  lemma IndexActs(r: Row, m: Msg, st: Stage, a: Act, t: nat)
    requires CanAct(m, st, a) && StageOk(r, m, st, t) && RowLocal(r, m.meta.id)
    requires a.Index?
    ensures Acted(r, m, st, a, t)
  {
  }

  lemma CloseActs(r: Row, m: Msg, st: Stage, a: Act, t: nat)
    requires CanAct(m, st, a) && StageOk(r, m, st, t) && RowLocal(r, m.meta.id)
    requires a.Close?
    ensures Acted(r, m, st, a, t)
  {
  }

  /** Acting on a row keeps what is true of the row by itself, and the row fits the worker's next stage. */
  lemma ActKeepsRow(r: Row, m: Msg, st: Stage, a: Act, t: nat)
    requires CanAct(m, st, a) && StageOk(r, m, st, t) && RowLocal(r, m.meta.id)
    ensures Acted(r, m, st, a, t)
  {
    if a.Process? { ProcessActs(r, m, st, a, t); }
    else if a.Retry? { RetryActs(r, m, st, a, t); }
    else if a.Finish? {
      if ErrorOf(a.o).None? { ReturnActs(r, m, st, a.o, t); }
      else if m.meta.retried != m.meta.maxRetry { RetryableActs(r, m, st, a.o, t); }
      else { LastErrorActs(r, m, st, a.o, t); }
    }
    else if a.Index? { IndexActs(r, m, st, a, t); }
    else if a.Close? { CloseActs(r, m, st, a, t); }
  }

  lemma WorkRestores(w: World, t: nat, a: Act, id: Id)
    requires CanWork(w, t, a) && PcOk(w, t, w.threads[t]) && id == w.threads[t].m.meta.id && RowOk(w, id)
    requires Acted(w.rows[id], w.threads[t].m, w.threads[t].st, a, t)
    ensures Grow(w, DoWork(w, t, a)) && RowOk(DoWork(w, t, a), id)
    ensures PcOk(DoWork(w, t, a), t, DoWork(w, t, a).threads[t])
  {
    var w' := DoWork(w, t, a);
    KeepRow(w, w', id);
    KeepPushed(w, w', id, |w.rows[id].h.kids|);
  }

  lemma WorkKeeps(w: World, t: nat, a: Act)
    requires Inv(w) && CanWork(w, t, a)
    ensures Inv(DoWork(w, t, a)) && Grow(w, DoWork(w, t, a))
  {
    var id := w.threads[t].m.meta.id;
    assert PcOk(w, t, w.threads[t]) && RowOk(w, id);
    ActKeepsRow(w.rows[id], w.threads[t].m, w.threads[t].st, a, t);
    WorkRestores(w, t, a, id);
    HeldCovers(w, t, {id});
    FrameThread(w, DoWork(w, t, a), t, {id});
  }

  lemma RequeueGrows(w: World, t: nat, f: Fault)
    requires CanRequeue(w, t) && PcOk(w, t, w.threads[t])
    ensures Grow(w, DoRequeue(w, t, f))
    ensures !f.FailedBefore? ==> BoxOk(DoRequeue(w, t, f), w.next)
  {
  }

  lemma RequeueRestores(w: World, t: nat, f: Fault, id: Id)
    requires CanRequeue(w, t) && PcOk(w, t, w.threads[t]) && id == w.threads[t].m.meta.id && RowOk(w, id)
    requires Grow(w, DoRequeue(w, t, f))
    ensures RowOk(DoRequeue(w, t, f), id)
  {
    KeepRow(w, DoRequeue(w, t, f), id);
  }

  lemma RequeueAlike(w: World, t: nat, f: Fault)
    requires CanRequeue(w, t) && w.next !in w.box
    ensures Alike(w, DoRequeue(w, t, f), {t}, {}, {w.threads[t].m.meta.id})
    ensures DoRequeue(w, t, f).rows.Keys == w.rows.Keys && DoRequeue(w, t, f).threads[t] == Idle
    ensures DoRequeue(w, t, f).box.Keys <= w.box.Keys + {w.next}
  {
  }

  lemma RequeueKeeps(w: World, t: nat, f: Fault)
    requires Inv(w) && CanRequeue(w, t)
    ensures Inv(DoRequeue(w, t, f)) && Grow(w, DoRequeue(w, t, f))
  {
    var w' := DoRequeue(w, t, f);
    var id := w.threads[t].m.meta.id;
    assert PcOk(w, t, w.threads[t]) && RowOk(w, id);
    NextIsNew(w);
    RequeueGrows(w, t, f);
    RequeueRestores(w, t, f, id);
    RequeueAlike(w, t, f);
    HeldCovers(w, t, {id});
    FrameThread(w, w', t, {id});
  }

  lemma NextIsNew(w: World)
    requires Inv(w)
    ensures w.next !in w.box
  {
    forall k | k in w.box
      ensures k < w.next
    {
      assert BoxOk(w, k);
    }
  }

  // ---------------------------------------------------------------- consumers

  lemma ReceiveRestores(w: World, t: nat, k: nat, f: Fault, id: Id)
    requires CanReceive(w, t, k) && BoxOk(w, k) && id == w.box[k].msg.meta.id && RowOk(w, id) && !f.FailedBefore?
    ensures Grow(w, DoReceive(w, t, k, f)) && RowOk(DoReceive(w, t, k, f), id)
    ensures PcOk(DoReceive(w, t, k, f), t, DoReceive(w, t, k, f).threads[t])
  {
    KeepRow(w, DoReceive(w, t, k, f), id);
  }

  lemma ReceiveTouches(w: World, t: nat, k: nat, f: Fault)
    requires CanReceive(w, t, k) && BoxOk(w, k) && Grow(w, DoReceive(w, t, k, f)) && !f.FailedBefore?
    ensures Touches(w, DoReceive(w, t, k, f), {t}, {k}, {w.box[k].msg.meta.id})
  {
  }

  lemma ReceiveKeeps(w: World, t: nat, k: nat, f: Fault)
    requires Inv(w) && CanReceive(w, t, k)
    ensures Inv(DoReceive(w, t, k, f)) && Grow(w, DoReceive(w, t, k, f))
  {
    var id := w.box[k].msg.meta.id;
    assert BoxOk(w, k) && RowOk(w, id);
    if !f.FailedBefore? {
      ReceiveRestores(w, t, k, f, id);
      ReceiveTouches(w, t, k, f);
      Frame(w, DoReceive(w, t, k, f), {t}, {k}, {id});
    }
  }

  lemma HandoffRestores(w: World, c: nat, t: nat, id: Id)
    requires CanHandoff(w, c, t) && PcOk(w, c, w.threads[c]) && id == w.threads[c].m.meta.id && RowOk(w, id)
    ensures Grow(w, DoHandoff(w, c, t)) && RowOk(DoHandoff(w, c, t), id)
    ensures PcOk(DoHandoff(w, c, t), t, DoHandoff(w, c, t).threads[t])
  {
    KeepRow(w, DoHandoff(w, c, t), id);
  }

  lemma HandoffTouches(w: World, c: nat, t: nat)
    requires CanHandoff(w, c, t) && PcOk(w, c, w.threads[c]) && Grow(w, DoHandoff(w, c, t))
    ensures Touches(w, DoHandoff(w, c, t), {c, t}, {}, {w.threads[c].m.meta.id})
  {
  }

  lemma HandoffKeeps(w: World, c: nat, t: nat)
    requires Inv(w) && CanHandoff(w, c, t)
    ensures Inv(DoHandoff(w, c, t)) && Grow(w, DoHandoff(w, c, t))
  {
    var id := w.threads[c].m.meta.id;
    assert PcOk(w, c, w.threads[c]) && RowOk(w, id);
    HandoffRestores(w, c, t, id);
    HandoffTouches(w, c, t);
    Frame(w, DoHandoff(w, c, t), {c, t}, {}, {id});
  }

  lemma MoveKeeps(w: World, k: nat, stop: Stop)
    requires Inv(w) && CanMove(w, k) && !stop.AfterPush?
    ensures Inv(DoMove(w, k, stop)) && Grow(w, DoMove(w, k, stop))
  {
    if stop.NoStop? {
      var w' := DoMove(w, k, stop);
      var id := w.box[k].msg.meta.id;
      assert BoxOk(w, k) && RowOk(w, id);
      KeepRow(w, w', id);
      Frame(w, w', {}, {k}, {id});
    }
  }

  // ---------------------------------------------------------------- enqueueing

  lemma ClientBeginKeeps(w: World, t: nat, job: Job, id: Id, cron: Cron)
    requires Inv(w) && CanClientBegin(w, t, job, id, cron) && id !in w.rows
    ensures Inv(DoClientBegin(w, t, job, id, cron)) && Grow(w, DoClientBegin(w, t, job, id, cron))
  {
    var w' := DoClientBegin(w, t, job, id, cron);
    assert RowOk(w', id);
    Frame(w, w', {t}, {}, {id});
  }

  /** The parent of the job that thread t enqueues: untouched, or dropped because the call failed. */
  lemma ParentRestored(w: World, w': World, t: nat, p: Id)
    requires t in w.threads && w.threads[t].Enqueueing? && PcOk(w, t, w.threads[t])
    requires w.threads[t].ctx.Parent? && p == w.threads[t].ctx.m.meta.id
    requires RowOk(w, p) && Grow(w, w') && t in w'.threads
    requires if w'.threads[t].Idle? then w'.rows[p] == Moved(w.rows[p], Lost)
             else w'.rows[p] == w.rows[p] && Holds(w'.threads[t], p)
    ensures RowOk(w', p)
  {
    KeepRow(w, w', p);
  }

  /** The rows after a call of enqueueWithMeta: the new job's, and its parent's if the call failed. */
  predicate EnqueueRows(w: World, w': World, t: nat, c: Id)
    requires t in w.threads && w.threads[t].Enqueueing? && t in w'.threads
  {
    && c == w.threads[t].c.meta.id && c in w.rows && w'.rows.Keys == w.rows.Keys
    && RowGrow(w.rows[c], w'.rows[c]) && RowLocal(w'.rows[c], c) && w'.rows[c].h.kids == []
    && PlaceOk(w', c, w'.rows[c].h.at) && !w'.rows[c].h.at.Ended?
    && (w.threads[t].ctx.Parent? ==>
          var p := w.threads[t].ctx.m.meta.id;
          && p in w.rows && p != c
          && if w'.threads[t].Idle? then w'.rows[p] == Moved(w.rows[p], Lost)
             else w'.rows[p] == w.rows[p] && Holds(w'.threads[t], p))
  }

  lemma WriteRows(w: World, t: nat, f: Fault, c: Id)
    requires CanWrite(w, t) && PcOk(w, t, w.threads[t]) && c == w.threads[t].c.meta.id && RowLocal(w.rows[c], c)
    ensures EnqueueRows(w, DoWrite(w, t, f), t, c)
  {
  }

  /** A call of enqueueWithMeta takes nothing back, since it changes no other rows. */
  lemma EnqueueGrows(w: World, w': World, t: nat, c: Id)
    requires t in w.threads && w.threads[t].Enqueueing? && t in w'.threads && PcOk(w, t, w.threads[t])
    requires EnqueueRows(w, w', t, c) && w.clock <= w'.clock && w.next <= w'.next
    requires Alike(w, w', {t}, {}, Held(w.threads[t]))
    ensures Grow(w, w')
  {
    var pc := w.threads[t];
    forall id | id in w.rows
      ensures id in w'.rows && RowGrow(w.rows[id], w'.rows[id])
    {
      if id in Held(pc) && id != c { assert w.rows[id].h.at == At(t); }
    }
  }

  lemma WriteAlike(w: World, t: nat, f: Fault)
    requires CanWrite(w, t)
    ensures Alike(w, DoWrite(w, t, f), {t}, {}, Held(w.threads[t]))
    ensures DoWrite(w, t, f).rows.Keys == w.rows.Keys && DoWrite(w, t, f).box == w.box
  {
  }

  lemma WriteResumes(w: World, t: nat, f: Fault)
    requires CanWrite(w, t) && PcOk(w, t, w.threads[t]) && Grow(w, DoWrite(w, t, f))
    ensures PcOk(DoWrite(w, t, f), t, DoWrite(w, t, f).threads[t])
  {
    var ctx := w.threads[t].ctx;
    if ctx.Parent? {
      KeepPushed(w, DoWrite(w, t, f), ctx.m.meta.id, ctx.k);
    }
  }

  /** Both rows of an enqueue are in order after its call. */
  lemma EnqueueRestores(w: World, w': World, t: nat, c: Id)
    requires t in w.threads && w.threads[t].Enqueueing? && t in w'.threads && PcOk(w, t, w.threads[t])
    requires EnqueueRows(w, w', t, c) && Grow(w, w') && RowOk(w, c)
    requires w.threads[t].ctx.Parent? ==> RowOk(w, w.threads[t].ctx.m.meta.id)
    ensures forall id | id in Held(w.threads[t]) :: id in w'.rows && RowOk(w', id)
  {
    KeepRow(w, w', c);
    if w.threads[t].ctx.Parent? {
      ParentRestored(w, w', t, w.threads[t].ctx.m.meta.id);
    }
  }

  lemma WriteKeeps(w: World, t: nat, f: Fault)
    requires Inv(w) && CanWrite(w, t)
    ensures Inv(DoWrite(w, t, f)) && Grow(w, DoWrite(w, t, f))
  {
    var pc := w.threads[t];
    var c := pc.c.meta.id;
    assert PcOk(w, t, pc) && RowOk(w, c);
    assert pc.ctx.Parent? ==> RowOk(w, pc.ctx.m.meta.id);
    WriteRows(w, t, f, c);
    WriteAlike(w, t, f);
    EnqueueGrows(w, DoWrite(w, t, f), t, c);
    HeldCovers(w, t, Held(pc));
    WriteResumes(w, t, f);
    EnqueueRestores(w, DoWrite(w, t, f), t, c);
    FrameThread(w, DoWrite(w, t, f), t, Held(pc));
  }

  lemma PushRows(w: World, t: nat, f: Fault, c: Id)
    requires CanPush(w, t) && PcOk(w, t, w.threads[t]) && c == w.threads[t].c.meta.id && RowLocal(w.rows[c], c)
    ensures EnqueueRows(w, DoPush(w, t, f), t, c)
  {
  }

  lemma PushBoxes(w: World, t: nat, f: Fault)
    requires CanPush(w, t) && PcOk(w, t, w.threads[t])
    ensures !f.FailedBefore? ==> BoxOk(DoPush(w, t, f), w.next) && Pushed(DoPush(w, t, f), w.threads[t].c.meta.id)
  {
  }

  lemma PushAlike(w: World, t: nat, f: Fault)
    requires CanPush(w, t) && w.next !in w.box
    ensures Alike(w, DoPush(w, t, f), {t}, {}, Held(w.threads[t]))
  {
  }

  lemma PushResumes(w: World, t: nat, f: Fault)
    requires CanPush(w, t) && PcOk(w, t, w.threads[t]) && Grow(w, DoPush(w, t, f))
    requires f.Fine? ==> Pushed(DoPush(w, t, f), w.threads[t].c.meta.id)
    ensures PcOk(DoPush(w, t, f), t, DoPush(w, t, f).threads[t])
  {
    var ctx := w.threads[t].ctx;
    if ctx.Parent? {
      KeepPushed(w, DoPush(w, t, f), ctx.m.meta.id, ctx.k);
    }
  }

  lemma PushKeeps(w: World, t: nat, f: Fault)
    requires Inv(w) && CanPush(w, t)
    ensures Inv(DoPush(w, t, f)) && Grow(w, DoPush(w, t, f))
  {
    var pc := w.threads[t];
    var c := pc.c.meta.id;
    assert PcOk(w, t, pc) && RowOk(w, c);
    assert pc.ctx.Parent? ==> RowOk(w, pc.ctx.m.meta.id);
    NextIsNew(w);
    PushRows(w, t, f, c);
    PushBoxes(w, t, f);
    PushAlike(w, t, f);
    EnqueueGrows(w, DoPush(w, t, f), t, c);
    HeldCovers(w, t, Held(pc));
    PushResumes(w, t, f);
    EnqueueRestores(w, DoPush(w, t, f), t, c);
    FrameThread(w, DoPush(w, t, f), t, Held(pc));
  }

  lemma KidBeginGrows(w: World, t: nat, id: Id, cron: Cron)
    requires CanKidBegin(w, t, id, cron) && id !in w.rows && PcOk(w, t, w.threads[t])
    ensures Grow(w, DoKidBegin(w, t, id, cron))
  {
  }

  lemma KidBeginRows(w: World, t: nat, id: Id, cron: Cron, p: Id)
    requires CanKidBegin(w, t, id, cron) && id !in w.rows && p == w.threads[t].m.meta.id
    requires PcOk(w, t, w.threads[t]) && RowLocal(w.rows[p], p)
    ensures var w' := DoKidBegin(w, t, id, cron);
            RowLocal(w'.rows[p], p) && RowLocal(w'.rows[id], id) && PlaceOk(w', p, w'.rows[p].h.at)
  {
  }

  lemma KidBeginLinks(w: World, t: nat, id: Id, cron: Cron, p: Id)
    requires CanKidBegin(w, t, id, cron) && id !in w.rows && p == w.threads[t].m.meta.id
    requires PcOk(w, t, w.threads[t]) && RowOk(w, p) && Grow(w, DoKidBegin(w, t, id, cron))
    ensures KidsLinked(DoKidBegin(w, t, id, cron), p) && ParentOk(DoKidBegin(w, t, id, cron), id)
  {
    var w' := DoKidBegin(w, t, id, cron);
    var Busy(m, Kids(ok, k)) := w.threads[t];
    PrepareIsPreparedFrom(Followers(m.job, ok)[k], cron);
    forall j | 0 <= j < k + 1
      ensures KidLink(w', p, w'.rows[p].h.kids[j], j)
    {
      if j < k { assert KidLink(w, p, w.rows[p].h.kids[j], j); }
    }
  }

  lemma KidBeginAlike(w: World, t: nat, id: Id, cron: Cron, D: set<Id>)
    requires CanKidBegin(w, t, id, cron) && id !in w.rows && D == {w.threads[t].m.meta.id, id}
    requires PcOk(w, t, w.threads[t])
    ensures Alike(w, DoKidBegin(w, t, id, cron), {t}, {}, D) && Covers(w, {t}, {}, D)
    ensures DoKidBegin(w, t, id, cron).rows.Keys == w.rows.Keys + {id} && DoKidBegin(w, t, id, cron).box == w.box
  {
    HeldCovers(w, t, D);
  }

  lemma KidBeginResumes(w: World, t: nat, id: Id, cron: Cron)
    requires CanKidBegin(w, t, id, cron) && id !in w.rows
    requires PcOk(w, t, w.threads[t]) && Grow(w, DoKidBegin(w, t, id, cron))
    ensures PcOk(DoKidBegin(w, t, id, cron), t, DoKidBegin(w, t, id, cron).threads[t])
  {
    KeepPushed(w, DoKidBegin(w, t, id, cron), w.threads[t].m.meta.id, w.threads[t].st.k);
  }

  lemma KidBeginRestores(w: World, t: nat, id: Id, cron: Cron, D: set<Id>)
    requires CanKidBegin(w, t, id, cron) && id !in w.rows && D == {w.threads[t].m.meta.id, id}
    requires PcOk(w, t, w.threads[t]) && RowOk(w, w.threads[t].m.meta.id)
    ensures Grow(w, DoKidBegin(w, t, id, cron))
    ensures forall x | x in D :: x in DoKidBegin(w, t, id, cron).rows && RowOk(DoKidBegin(w, t, id, cron), x)
  {
    var p := w.threads[t].m.meta.id;
    KidBeginGrows(w, t, id, cron);
    KidBeginRows(w, t, id, cron, p);
    KidBeginLinks(w, t, id, cron, p);
    KeepParent(w, DoKidBegin(w, t, id, cron), p);
  }

  lemma KidBeginKeeps(w: World, t: nat, id: Id, cron: Cron)
    requires Inv(w) && CanKidBegin(w, t, id, cron) && id !in w.rows
    ensures Inv(DoKidBegin(w, t, id, cron)) && Grow(w, DoKidBegin(w, t, id, cron))
  {
    var D := {w.threads[t].m.meta.id, id};
    assert PcOk(w, t, w.threads[t]) && RowOk(w, w.threads[t].m.meta.id);
    KidBeginRestores(w, t, id, cron, D);
    KidBeginAlike(w, t, id, cron, D);
    KidBeginResumes(w, t, id, cron);
    FrameThread(w, DoKidBegin(w, t, id, cron), t, D);
  }

  // ---------------------------------------------------------------- saved results

  /** A row's saved result and index entries, and its mark that they were changed late. */
  predicate SameButSaved(r: Row, r': Row) {
    && r'.rec == r.rec && r'.h == r.h.(touched := r'.h.touched, deleted := r'.h.deleted)
    && r'.h.touched == (r.h.touched || r.h.verdict.Some?) && (r.h.deleted ==> r'.h.deleted)
    && (if !r'.h.deleted && r.h.verdict.Some? then r'.inSuccess == r.inSuccess && r'.inFailed == r.inFailed
        else (r'.inSuccess ==> r.inSuccess) && (r'.inFailed ==> r.inFailed))
  }

  lemma SavedPc(w: World, w': World, t: nat, pc: Pc, id: Id)
    requires PcOk(w, t, pc) && Grow(w, w') && id in w.rows && SameButSaved(w.rows[id], w'.rows[id])
    requires forall x | x in w.rows && x != id :: w'.rows[x] == w.rows[x]
    ensures PcOk(w', t, pc)
  {
    if pc.Busy? {
      SavedStage(w.rows[pc.m.meta.id], w'.rows[pc.m.meta.id], pc.m, pc.st, t);
      KeepPushed(w, w', pc.m.meta.id, |w.rows[pc.m.meta.id].h.kids|);
    } else if pc.Enqueueing? && pc.ctx.Parent? {
      KeepPushed(w, w', pc.ctx.m.meta.id, pc.ctx.k);
    }
  }

  lemma SavedStage(r: Row, r': Row, m: Msg, st: Stage, t: nat)
    requires StageOk(r, m, st, t) && (r' == r || SameButSaved(r, r'))
    ensures StageOk(r', m, st, t)
  {
  }

  lemma SavedRow(w: World, w': World, x: Id, id: Id)
    requires x in w.rows && RowOk(w, x) && Grow(w, w') && id in w.rows && SameButSaved(w.rows[id], w'.rows[id])
    requires x != id ==> w'.rows[x] == w.rows[x]
    requires w'.threads == w.threads && w'.box == w.box
    ensures RowOk(w', x)
  {
    KeepRow(w, w', x);
  }

  lemma SavedThreads(w: World, w': World, id: Id)
    requires ThreadsOk(w) && Grow(w, w') && id in w.rows && SameButSaved(w.rows[id], w'.rows[id])
    requires forall x | x in w.rows && x != id :: w'.rows[x] == w.rows[x]
    requires w'.threads == w.threads
    ensures ThreadsOk(w')
  {
    forall t | t in w'.threads
      ensures PcOk(w', t, w'.threads[t])
    {
      SavedPc(w, w', t, w.threads[t], id);
    }
  }

  lemma SavedRows(w: World, w': World, id: Id)
    requires RowsOk(w) && Grow(w, w') && id in w.rows && SameButSaved(w.rows[id], w'.rows[id])
    requires forall x | x in w.rows && x != id :: w'.rows[x] == w.rows[x]
    requires w'.threads == w.threads && w'.box == w.box && w'.rows.Keys == w.rows.Keys
    ensures RowsOk(w')
  {
    forall x | x in w'.rows
      ensures RowOk(w', x)
    {
      SavedRow(w, w', x, id);
    }
  }

  /** Save and DeleteJob change nothing else. */
  lemma SavedKeeps(w: World, id: Id, r': Row)
    requires Inv(w) && id in w.rows && SameButSaved(w.rows[id], r')
    ensures Inv(w.(rows := w.rows[id := r'])) && Grow(w, w.(rows := w.rows[id := r']))
  {
    var w' := w.(rows := w.rows[id := r']);
    SavedThreads(w, w', id);
    SavedRows(w, w', id);
    forall k | k in w'.box
      ensures BoxOk(w', k)
    {
      assert BoxOk(w, k);
    }
  }

  // ---------------------------------------------------------------- all steps, all runs

  lemma StepKeeps(w: World, s: Step)
    requires Inv(w) && Enabled(w, s)
    ensures Inv(Apply(w, s)) && Grow(w, Apply(w, s))
  {
    match s
    case ClientBegin(t, job, id, cron) => ClientBeginKeeps(w, t, job, id, cron);
    case Write(t, f) => WriteKeeps(w, t, f);
    case Push(t, f) => PushKeeps(w, t, f);
    case Receive(t, k, f) => ReceiveKeeps(w, t, k, f);
    case Handoff(c, t) => HandoffKeeps(w, c, t);
    case Work(t, a) => WorkKeeps(w, t, a);
    case Requeue(t, f) => RequeueKeeps(w, t, f);
    case KidBegin(t, id, cron) => KidBeginKeeps(w, t, id, cron);
    case Move(k, stop) => MoveKeeps(w, k, stop);
    case Save(id, _) => SavedKeeps(w, id, Apply(w, s).rows[id]);
    case Delete(id) => SavedKeeps(w, id, Apply(w, s).rows[id]);
  }

  lemma {:induction false} PrefixIsRun(w: World, tr: seq<Step>, n: nat)
    requires IsRun(w, tr) && n <= |tr|
    ensures IsRun(w, tr[..n])
    decreases |tr|
  {
    if n < |tr| {
      PrefixIsRun(w, tr[..|tr| - 1], n);
      assert tr[..|tr| - 1][..n] == tr[..n];
    } else {
      assert tr[..n] == tr;
    }
  }

  lemma {:induction false} RunKeeps(w: World, tr: seq<Step>)
    requires Inv(w) && IsRun(w, tr)
    ensures Inv(After(w, tr)) && Grow(w, After(w, tr))
  {
    if tr != [] {
      var before := tr[..|tr| - 1];
      RunKeeps(w, before);
      StepKeeps(After(w, before), tr[|tr| - 1]);
    }
  }
}
