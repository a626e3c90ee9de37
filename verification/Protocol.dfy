/** The job lifecycle as a step system: a results store, a broker, and any number of threads
    (clients, queue consumers and workers) that interleave one store or broker call at a time. */
module Protocol {
  import opened Jobs

  /** Where the live copy of a job is; `Lost` once an error made its thread drop it. */
  datatype Place = At(t: nat) | InBox(k: nat) | Ended | Lost

  /** What happened to an ID so far: the job and its parent, where the live copy is, how many handler
      runs, erred runs and first pushes it had, the errors of the erred runs, which way its last run went
      (`verdict`), the children it enqueued, and whether its saved result or index entry was changed after
      that verdict (`touched`, `deleted`). No step is guarded by any of this, except that a handler can only save a
      result for a job that some handler was started for. */
  datatype History = History(
    job: Job, parent: Option<Id>, slot: nat, root: Id, born: nat, prev: Option<string>,
    at: Place, runs: nat, errs: nat, errors: seq<string>, pushes: nat, verdict: Option<bool>, kids: seq<Id>,
    touched: bool, deleted: bool)

  /** Everything the results store holds about one ID: the record under "job:msg:"+id, the bytes a
      handler saved under id, and membership of the success and failed sets. */
  datatype Row = Row(rec: Option<Msg>, saved: Option<string>, inSuccess: bool, inFailed: bool, h: History)

  /** A message in the broker: on its queue, or, if `scheduled`, in the sorted set. Entries are numbered as
      they are pushed. */
  datatype Entry = Entry(msg: Msg, scheduled: bool)

  datatype Ctx = Client | Parent(m: Msg, ok: bool, k: nat)

  /** What a thread with a message in hand does next. */
  datatype Stage =
    | Handing                       // consumer: blocked on the work channel
    | Got                           // worker: before statusProcessing
    | Running                       // worker: the handler runs
    | RetryWriting                  // worker: before statusRetrying
    | RetryPushing                  // worker: before the push that follows it
    | Kids(ok: bool, k: nat)        // worker: the first k followers are enqueued
    | Closing(ok: bool)             // worker: index written, before the final record

  /** A thread is idle, has a message in hand, or is inside enqueueWithMeta before (`written` is false)
      or after the record of the new message c is written. */
  datatype Pc = Idle | Busy(m: Msg, st: Stage) | Enqueueing(ctx: Ctx, c: Msg, written: bool)

  datatype World = World(
    rows: map<Id, Row>, box: map<nat, Entry>, next: nat, threads: map<nat, Pc>, clock: nat)

  /** How a store or broker call ends; a call that reports an error may still have taken effect. */
  datatype Fault = Fine | FailedBefore | FailedAfter

  /** Where a poll that moves a due message from the sorted set to its queue stops: nowhere, at the push,
      or after it, when the removal fails, the process stops, or another poller gets there first. A push
      that reports an error but took effect is of the last kind too. */
  datatype Stop = NoStop | AtPush | AfterPush

  /** How execJob sees the handler end. */
  datatype Outcome = Returned | Errored(err: string) | ReturnedCanceled | Deadline | ContextCanceled

  /** What a worker does with the message in its hand when no other message or queue is involved. */
  datatype Act =
    | Drop                    // cannot be decoded, or its task has no handler
    | Process(f: Fault)       // statusProcessing, after which the handler starts
    | Finish(o: Outcome)      // the handler ends: retry, or go on to the followers
    | Retry(f: Fault)         // statusRetrying
    | KidFail                 // GetResult fails (nothing saved, or a store error), or a bad schedule
    | Index(f: Fault)         // SetSuccess or SetFailed, once every follower is enqueued
    | Close(f: Fault)         // the final record

  datatype Step =
    | ClientBegin(t: nat, job: Job, id: Id, cron: Cron)
    | Write(t: nat, f: Fault)
    | Push(t: nat, f: Fault)
    | Receive(t: nat, k: nat, f: Fault)
    | Handoff(c: nat, t: nat)
    | Work(t: nat, a: Act)
    | Requeue(t: nat, f: Fault)
    | KidBegin(t: nat, id: Id, cron: Cron)
    | Move(k: nat, stop: Stop)
    | Save(id: Id, bytes: string)
    | Delete(id: Id)

  /** execJob's err: cancellation counts as success. */
  function ErrorOf(o: Outcome): Option<string> {
    match o
    case Errored(e) => Some(e)
    case Deadline => Some("context deadline exceeded")
    case Returned => None
    case ReturnedCanceled => None
    case ContextCanceled => None
  }

  /** The ID a thread works on, and the ID it is enqueueing. */
  predicate Holds(pc: Pc, id: Id) {
    || (pc.Busy? && pc.m.meta.id == id)
    || (pc.Enqueueing? && pc.c.meta.id == id)
    || (pc.Enqueueing? && pc.ctx.Parent? && pc.ctx.m.meta.id == id)
  }

  predicate ChosenId(o: Opts, id: Id) {
    o.id.Some? ==> id == o.id.value
  }

  function Moved(r: Row, p: Place): Row {
    r.(h := r.h.(at := p))
  }

  function Put(r: Row, m: Msg, st: Status): Row {
    r.(rec := Some(Stamp(m, st)))
  }

  function Lose(rows: map<Id, Row>, ctx: Ctx): map<Id, Row>
    requires ctx.Parent? ==> ctx.m.meta.id in rows
  {
    if ctx.Client? then rows
    else rows[ctx.m.meta.id := Moved(rows[ctx.m.meta.id], Lost)]
  }

  /** After a success the message collects the IDs of its followers. */
  function AddId(m: Msg, id: Id): Msg {
    m.(meta := m.meta.(onSuccessIDs := m.meta.onSuccessIDs + [id]))
  }

  function Resume(ctx: Ctx, c: Msg): Pc {
    match ctx
    case Client => Idle
    case Parent(m, ok, k) =>
      Busy(if ok then AddId(m, c.meta.id) else m, Kids(ok, k + 1))
  }

  /** A message that is about to be written and pushed for the first time. */
  function FirstMsg(job: Job, id: Id, prev: Option<string>): Msg {
    Msg(DefaultMeta(job.opts, id).(prevJobResult := prev), job)
  }

  function FirstRow(job: Job, id: Id, parent: Option<Id>, slot: nat, root: Id, born: nat, prev: Option<string>,
                    t: nat): Row
  {
    Row(None, None, false, false,
        History(job, parent, slot, root, born, prev, At(t), 0, 0, [], 0, None, [], false, false))
  }

  /** The message the follower k of a finished job becomes. */
  function KidMsg(w: World, m: Msg, ok: bool, k: nat, id: Id, cron: Cron): Msg
    requires k < |Followers(m.job, ok)| && Prepare(Followers(m.job, ok)[k], cron).Some?
    requires m.meta.id in w.rows
  {
    FirstMsg(Prepare(Followers(m.job, ok)[k], cron).value, id, if ok then w.rows[m.meta.id].saved else None)
  }

  function Errs(m: Msg, e: string): Msg {
    m.(meta := m.meta.(prevErr := e))
  }

  function Again(m: Msg): Msg {
    m.(meta := m.meta.(retried := (m.meta.retried + 1) % TWO_TO_32))
  }

  /** Which acts a stage allows. */
  predicate CanAct(m: Msg, st: Stage, a: Act) {
    match a
    case Drop => st.Got?
    case Process(_) => st.Got?
    case Finish(_) => st.Running?
    case Retry(_) => st.RetryWriting?
    case KidFail => st.Kids? && st.k < |Followers(m.job, st.ok)|
    case Index(_) => st.Kids? && st.k >= |Followers(m.job, st.ok)|
    case Close(_) => st.Closing?
  }

  /** The call changed the row to `done` if it took effect; the worker goes on to `next`, or drops its
      message if the call reported an error. */
  function Call(r: Row, done: Row, next: Pc, f: Fault): (Row, Pc) {
    match f
    case Fine => (done, next)
    case FailedBefore => (Moved(r, Lost), Idle)
    case FailedAfter => (Moved(done, Lost), Idle)
  }

  /** The row of a worker's own message, and what the worker does next. */
  function ActOn(r: Row, m: Msg, st: Stage, a: Act): (Row, Pc)
    requires CanAct(m, st, a)
  {
    match a
    case Drop => (Moved(r, Lost), Idle)
    case Process(f) =>
      var done := Put(r, m, Processing);
      if f.Fine? then (done.(h := done.h.(runs := done.h.runs + 1)), Busy(m, Running)) else Call(r, done, Idle, f)
    case Finish(o) =>
      (match ErrorOf(o)
       case None => (r.(h := r.h.(verdict := Some(true))), Busy(m, Kids(true, 0)))
       case Some(e) =>
         if m.meta.maxRetry != m.meta.retried then
           (r.(h := r.h.(errs := r.h.errs + 1, errors := r.h.errors + [e])), Busy(Again(Errs(m, e)), RetryWriting))
         else
           (r.(h := r.h.(errs := r.h.errs + 1, errors := r.h.errors + [e], verdict := Some(false))),
            Busy(Errs(m, e), Kids(false, 0))))
    case Retry(f) => Call(r, Put(r, m, Retrying), Busy(m, RetryPushing), f)
    case KidFail => (Moved(r, Lost), Idle)
    case Index(f) =>
      Call(r, if st.ok then r.(inSuccess := true) else r.(inFailed := true), Busy(m, Closing(st.ok)), f)
    case Close(f) =>
      if f.FailedBefore? then (Moved(r, Lost), Idle)
      else (Moved(Put(r, m, if st.ok then Successful else Failed), Ended), Idle)
  }

  predicate IdleAt(w: World, t: nat) {
    t in w.threads && w.threads[t].Idle?
  }

  predicate BusyAt(w: World, t: nat) {
    t in w.threads && w.threads[t].Busy? && w.threads[t].m.meta.id in w.rows
  }

  predicate EnqueueingAt(w: World, t: nat, written: bool) {
    && t in w.threads && w.threads[t].Enqueueing? && w.threads[t].written == written
    && w.threads[t].c.meta.id in w.rows
    && (w.threads[t].ctx.Parent? ==> w.threads[t].ctx.m.meta.id in w.rows)
  }

  // ---------------------------------------------------------------- the steps

  /** Enqueue up to the first store call: DefaultMeta and the schedule branch. */
  predicate CanClientBegin(w: World, t: nat, job: Job, id: Id, cron: Cron) {
    IdleAt(w, t) && ChosenId(job.opts, id) && Prepare(job, cron).Some?
  }

  function DoClientBegin(w: World, t: nat, job: Job, id: Id, cron: Cron): World
    requires CanClientBegin(w, t, job, id, cron)
  {
    var j := Prepare(job, cron).value;
    w.(rows := w.rows[id := FirstRow(j, id, None, 0, id, w.clock, None, t)],
       threads := w.threads[t := Enqueueing(Client, FirstMsg(j, id, None), false)],
       clock := w.clock + 1)
  }

  /** statusStarted of the message being enqueued. */
  predicate CanWrite(w: World, t: nat) {
    EnqueueingAt(w, t, false)
  }

  function DoWrite(w: World, t: nat, f: Fault): World
    requires CanWrite(w, t)
  {
    var Enqueueing(ctx, c, _) := w.threads[t];
    var r := w.rows[c.meta.id];
    var r1 := if f.FailedBefore? then r else Put(r, c, Queued);
    if f.Fine? then
      w.(rows := w.rows[c.meta.id := r1], threads := w.threads[t := Enqueueing(ctx, c, true)])
    else
      w.(rows := Lose(w.rows[c.meta.id := Moved(r1, Lost)], ctx), threads := w.threads[t := Idle])
  }

  /** The push that follows it: onto the queue, or into the sorted set if there is an ETA. */
  predicate CanPush(w: World, t: nat) {
    EnqueueingAt(w, t, true)
  }

  function DoPush(w: World, t: nat, f: Fault): World
    requires CanPush(w, t)
  {
    var Enqueueing(ctx, c, _) := w.threads[t];
    var r := w.rows[c.meta.id];
    var rows :=
      if f.FailedBefore? then w.rows[c.meta.id := Moved(r, Lost)]
      else w.rows[c.meta.id := r.(h := r.h.(at := InBox(w.next), pushes := r.h.pushes + 1))];
    w.(rows := if f.Fine? then rows else Lose(rows, ctx),
       threads := w.threads[t := if f.Fine? then Resume(ctx, c) else Idle],
       box := if f.FailedBefore? then w.box else w.box[w.next := Entry(c, c.job.opts.eta != 0)],
       next := if f.FailedBefore? then w.next else w.next + 1)
  }

  /** A consumer takes a message off its queue (from either end: brokers differ). If the answer of the call
      that took it gets lost, so does the message. */
  predicate CanReceive(w: World, t: nat, k: nat) {
    IdleAt(w, t) && k in w.box && !w.box[k].scheduled && w.box[k].msg.meta.id in w.rows
  }

  function DoReceive(w: World, t: nat, k: nat, f: Fault): World
    requires CanReceive(w, t, k)
  {
    var m := w.box[k].msg;
    match f
    case Fine =>
      w.(box := w.box - {k}, threads := w.threads[t := Busy(m, Handing)],
         rows := w.rows[m.meta.id := Moved(w.rows[m.meta.id], At(t))])
    case FailedBefore => w
    case FailedAfter =>
      w.(box := w.box - {k}, rows := w.rows[m.meta.id := Moved(w.rows[m.meta.id], Lost)])
  }

  /** The consumer hands its message to a waiting worker over the unbuffered work channel. */
  predicate CanHandoff(w: World, c: nat, t: nat) {
    c != t && IdleAt(w, t) && BusyAt(w, c) && w.threads[c].st.Handing?
  }

  function DoHandoff(w: World, c: nat, t: nat): World
    requires CanHandoff(w, c, t)
  {
    var m := w.threads[c].m;
    w.(threads := w.threads[c := Idle][t := Busy(m, Got)],
       rows := w.rows[m.meta.id := Moved(w.rows[m.meta.id], At(t))])
  }

  /** A worker acts on its own message. */
  predicate CanWork(w: World, t: nat, a: Act) {
    BusyAt(w, t) && CanAct(w.threads[t].m, w.threads[t].st, a)
  }

  function DoWork(w: World, t: nat, a: Act): World
    requires CanWork(w, t, a)
  {
    var Busy(m, st) := w.threads[t];
    var (r, pc) := ActOn(w.rows[m.meta.id], m, st, a);
    w.(rows := w.rows[m.meta.id := r], threads := w.threads[t := pc])
  }

  /** retryJob's push: always straight onto the queue. */
  predicate CanRequeue(w: World, t: nat) {
    BusyAt(w, t) && w.threads[t].st.RetryPushing?
  }

  function DoRequeue(w: World, t: nat, f: Fault): World
    requires CanRequeue(w, t)
  {
    var m := w.threads[t].m;
    var r := w.rows[m.meta.id];
    if f.FailedBefore? then
      w.(rows := w.rows[m.meta.id := Moved(r, Lost)], threads := w.threads[t := Idle])
    else
      w.(rows := w.rows[m.meta.id := Moved(r, InBox(w.next))], threads := w.threads[t := Idle],
         box := w.box[w.next := Entry(m, false)], next := w.next + 1)
  }

  /** The next follower up to its first store call; after a success this reads the saved result. */
  predicate CanKidBegin(w: World, t: nat, id: Id, cron: Cron) {
    && BusyAt(w, t) && w.threads[t].st.Kids?
    && var Busy(m, Kids(ok, k)) := w.threads[t];
    && k < |Followers(m.job, ok)|
    && ChosenId(Followers(m.job, ok)[k].opts, id)
    && (ok ==> w.rows[m.meta.id].saved.Some?)
    && Prepare(Followers(m.job, ok)[k], cron).Some?
  }

  function DoKidBegin(w: World, t: nat, id: Id, cron: Cron): World
    requires CanKidBegin(w, t, id, cron)
  {
    var Busy(m, Kids(ok, k)) := w.threads[t];
    var c := KidMsg(w, m, ok, k, id, cron);
    var p := w.rows[m.meta.id];
    w.(rows := w.rows[m.meta.id := p.(h := p.h.(kids := p.h.kids + [id]))]
         [id := FirstRow(c.job, id, Some(m.meta.id), k, p.h.root, w.clock, c.meta.prevJobResult, t)],
       threads := w.threads[t := Enqueueing(Parent(m, ok, k), c, false)],
       clock := w.clock + 1)
  }

  /** A poll of the broker for a due message: a push onto the queue, then the removal from the sorted set. */
  predicate CanMove(w: World, k: nat) {
    k in w.box && w.box[k].scheduled
  }

  function DoMove(w: World, k: nat, stop: Stop): World
    requires CanMove(w, k)
  {
    match stop
    case NoStop => w.(box := w.box[k := w.box[k].(scheduled := false)])
    case AtPush => w
    case AfterPush => w.(box := w.box[w.next := Entry(w.box[k].msg, false)], next := w.next + 1)
  }

  /** JobCtx.Save, by a handler that runs or that outlived its deadline. */
  predicate CanSave(w: World, id: Id) {
    id in w.rows && w.rows[id].h.runs > 0
  }

  function DoSave(w: World, id: Id, bytes: string): World
    requires CanSave(w, id)
  {
    var r := w.rows[id];
    w.(rows := w.rows[id := r.(saved := Some(bytes), h := r.h.(touched := r.h.touched || r.h.verdict.Some?))])
  }

  /** DeleteJob: drops the saved result and the index entries; the record stays. */
  function DoDelete(w: World, id: Id): World
    requires id in w.rows
  {
    var r := w.rows[id];
    w.(rows := w.rows[id := r.(saved := None, inSuccess := false, inFailed := false,
                               h := r.h.(touched := r.h.touched || r.h.verdict.Some?,
                                         deleted := r.h.deleted || r.h.verdict.Some?))])
  }

  // ---------------------------------------------------------------- runs

  predicate Ready(w: World, s: Step) {
    match s
    case ClientBegin(t, job, id, cron) => CanClientBegin(w, t, job, id, cron)
    case Write(t, _) => CanWrite(w, t)
    case Push(t, _) => CanPush(w, t)
    case Receive(t, k, _) => CanReceive(w, t, k)
    case Handoff(c, t) => CanHandoff(w, c, t)
    case Work(t, a) => CanWork(w, t, a)
    case Requeue(t, _) => CanRequeue(w, t)
    case KidBegin(t, id, cron) => CanKidBegin(w, t, id, cron)
    case Move(k, _) => CanMove(w, k)
    case Save(id, _) => CanSave(w, id)
    case Delete(id) => id in w.rows
  }

  function Apply(w: World, s: Step): World
    requires Ready(w, s)
  {
    match s
    case ClientBegin(t, job, id, cron) => DoClientBegin(w, t, job, id, cron)
    case Write(t, f) => DoWrite(w, t, f)
    case Push(t, f) => DoPush(w, t, f)
    case Receive(t, k, f) => DoReceive(w, t, k, f)
    case Handoff(c, t) => DoHandoff(w, c, t)
    case Work(t, a) => DoWork(w, t, a)
    case Requeue(t, f) => DoRequeue(w, t, f)
    case KidBegin(t, id, cron) => DoKidBegin(w, t, id, cron)
    case Move(k, stop) => DoMove(w, k, stop)
    case Save(id, bytes) => DoSave(w, id, bytes)
    case Delete(id) => DoDelete(w, id)
  }

  /** The assumption on IDs: no two enqueues settle on the same one. */
  predicate Fresh(w: World, s: Step) {
    match s
    case ClientBegin(_, _, id, _) => id !in w.rows
    case KidBegin(_, id, _) => id !in w.rows
    case _ => true
  }

  /** The assumption on the sorted set: what a poll has pushed it also removes. */
  predicate MovesOnce(s: Step) {
    !(s.Move? && s.stop.AfterPush?)
  }

  predicate Enabled(w: World, s: Step) {
    Ready(w, s) && Fresh(w, s) && MovesOnce(s)
  }

  /** Nothing enqueued yet; any number of idle threads. */
  ghost predicate Init(w: World) {
    w.rows == map[] && w.box == map[] && forall t | t in w.threads :: w.threads[t] == Idle
  }

  /** Every step of the sequence was possible when it was taken. */
  ghost predicate IsPossible(w: World, tr: seq<Step>)
    decreases |tr|, 0
  {
    if tr == [] then true
    else
      var before := tr[..|tr| - 1];
      IsPossible(w, before) && Ready(After(w, before), tr[|tr| - 1])
  }

  ghost function After(w: World, tr: seq<Step>): World
    requires IsPossible(w, tr)
    decreases |tr|, 1
  {
    if tr == [] then w else Apply(After(w, tr[..|tr| - 1]), tr[|tr| - 1])
  }

  /** A run: possible, and within the two assumptions. */
  ghost predicate IsRun(w: World, tr: seq<Step>)
    ensures IsRun(w, tr) ==> IsPossible(w, tr)
  {
    if tr == [] then true
    else
      var before := tr[..|tr| - 1];
      IsRun(w, before) && Enabled(After(w, before), tr[|tr| - 1])
  }
}
