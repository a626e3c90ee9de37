/** What every step of the lifecycle keeps. */
module Invariant {
  import opened Jobs
  import opened Protocol

  /** The job as stored and pushed is the job that was asked for, timed and extended by its next run. */
  predicate PreparedFrom(j': Job, j: Job) {
    if j.opts.schedule == "" then j' == j
    else
      && j'.task == j.task && j'.payload == j.payload && j'.onError == j.onError
      && j'.opts == j.opts.(eta := j'.opts.eta)
      && (j.opts.eta != 0 ==> j'.opts.eta == j.opts.eta)
      && |j'.onSuccess| == |j.onSuccess| + 1
      && j'.onSuccess[..|j.onSuccess|] == j.onSuccess
      && j'.onSuccess[|j.onSuccess|] == NextRun(j', j'.onSuccess[|j.onSuccess|].opts.eta)
  }

  lemma PrepareIsPreparedFrom(j: Job, cron: Cron)
    requires Prepare(j, cron).Some?
    ensures PreparedFrom(Prepare(j, cron).value, j)
  {
  }

  /** The queue a job goes to. */
  function QueueOf(queue: string): string {
    if queue == "" then "tasqueue:tasks" else queue
  }

  /** Enqueueing refuses exactly a schedule that does not parse. A schedule gives the job an ETA, if it has
      none, and one more OnSuccess job: the same work on the same queue at the activation after that. */
  lemma PrepareMeans(j: Job, cron: Cron)
    ensures Prepare(j, cron).None? <==> j.opts.schedule != "" && cron.Unparsed?
    ensures j.opts.schedule == "" ==> Prepare(j, cron) == Some(j)
    ensures j.opts.schedule != "" && cron.Times? ==>
              var eta := if j.opts.eta == 0 then cron.afterNow else j.opts.eta;
              var next := Opts(j.opts.id, cron.afterEta, QueueOf(j.opts.queue), j.opts.maxRetries, j.opts.schedule);
              Prepare(j, cron)
              == Some(Job(j.task, j.payload, j.opts.(eta := eta),
                          j.onSuccess + [Job(j.task, j.payload, next, [], [])], j.onError))
  {
  }

  /** A message of the job that this history is about. */
  predicate BornAs(m: Msg, id: Id, h: History) {
    && m.meta.id == id && m.job == h.job && m.meta.prevJobResult == h.prev
    && m.meta.maxRetry == h.job.opts.maxRetries && m.meta.retried <= m.meta.maxRetry
    && m.meta.queue == h.job.opts.queue && m.meta.schedule == h.job.opts.schedule
  }

  /** The message carries the error of the run before its next one, if there was one. */
  predicate CarriesError(m: Msg, h: History) {
    && m.meta.retried <= |h.errors|
    && m.meta.prevErr == if m.meta.retried == 0 then "" else h.errors[m.meta.retried - 1]
  }

  /** The message m, alone at place p, waits for a worker, and its record says so. */
  predicate Waiting(r: Row, m: Msg, p: Place) {
    && BornAs(m, m.meta.id, r.h) && m.meta.onSuccessIDs == []
    && r.rec == Some(Stamp(m, if m.meta.retried == 0 then Queued else Retrying))
    && r.h.at == p && r.h.pushes == 1 && Undecided(r)
    && r.h.runs == m.meta.retried && r.h.errs == m.meta.retried == |r.h.errors|
    && m.meta.status == Queued && CarriesError(m, r.h)
  }

  /** No run of this job was its last yet. */
  predicate Undecided(r: Row) {
    !r.inSuccess && !r.inFailed && r.h.verdict == None && r.h.kids == []
  }

  /** The message m is with a worker that has written its "processing" record. */
  predicate InWork(r: Row, m: Msg, t: nat) {
    && BornAs(m, m.meta.id, r.h)
    && r.rec.Some? && r.rec.value.meta.status == Processing
    && r.h.at == At(t) && r.h.pushes == 1 && |r.h.errors| == r.h.errs && m.meta.status == Queued
  }

  /** InWork, and the run is decided: no retry will follow. */
  predicate Decided(r: Row, m: Msg, ok: bool, t: nat) {
    && InWork(r, m, t)
    && r.h.verdict == Some(ok) && r.h.runs == m.meta.retried + 1 && r.rec.value.meta.retried == m.meta.retried
    && (ok ==> r.h.errs == m.meta.retried && CarriesError(m, r.h))
    && (!ok ==> m.meta.retried == m.meta.maxRetry && r.h.errs == m.meta.retried + 1 && m.meta.onSuccessIDs == []
                && m.meta.prevErr == r.h.errors[m.meta.retried])
  }

  /** The row of the message a thread works on. */
  predicate StageOk(r: Row, m: Msg, st: Stage, t: nat) {
    match st
    case Handing => Waiting(r, m, At(t))
    case Got => Waiting(r, m, At(t))
    case RetryPushing => Waiting(r, m, At(t)) && m.meta.retried > 0
    case Running =>
      && InWork(r, m, t) && m.meta.onSuccessIDs == [] && Undecided(r) && CarriesError(m, r.h)
      && r.rec == Some(Stamp(m, Processing))
      && r.h.runs == m.meta.retried + 1 && r.h.errs == m.meta.retried
    case RetryWriting =>
      && InWork(r, m, t) && m.meta.onSuccessIDs == [] && Undecided(r) && m.meta.retried > 0 && CarriesError(m, r.h)
      && r.rec.value.meta.retried + 1 == m.meta.retried
      && r.h.runs == m.meta.retried && r.h.errs == m.meta.retried
    case Kids(ok, k) =>
      && Decided(r, m, ok, t) && !r.inSuccess && !r.inFailed
      && |r.h.kids| == k <= |Followers(m.job, ok)| && (ok ==> m.meta.onSuccessIDs == r.h.kids)
    case Closing(ok) =>
      && Decided(r, m, ok, t)
      && |r.h.kids| == |Followers(m.job, ok)| && (ok ==> m.meta.onSuccessIDs == r.h.kids)
      && (!r.h.deleted ==> r.inSuccess == ok && r.inFailed == !ok)
  }

  /** The row of a new job before its first push. */
  predicate Newborn(r: Row, c: Msg, t: nat, written: bool) {
    && BornAs(c, c.meta.id, r.h) && c.meta.onSuccessIDs == [] && c.meta.retried == 0
    && r.rec == (if written then Some(Stamp(c, Queued)) else None)
    && r.h.at == At(t) && r.h.pushes == 0 && Undecided(r) && r.h.runs == 0 && r.h.errs == 0 && r.h.errors == []
    && c.meta.status == Queued && c.meta.prevErr == ""
  }

  /** The row of the job whose follower k, c, is being enqueued. */
  predicate Spawning(r: Row, m: Msg, ok: bool, k: nat, c: Id, t: nat) {
    && Decided(r, m, ok, t) && !r.inSuccess && !r.inFailed
    && |r.h.kids| == k + 1 <= |Followers(m.job, ok)| && r.h.kids[k] == c
    && (ok ==> m.meta.onSuccessIDs == r.h.kids[..k])
  }

  /** The row of a job whose final record is written. */
  predicate EndOk(r: Row) {
    && r.rec.Some? && r.h.verdict.Some?
    && var ok := r.h.verdict.value;
    && r.rec.value.meta.status == (if ok then Successful else Failed)
    && |r.h.kids| == |Followers(r.h.job, ok)|
    && (ok ==> r.rec.value.meta.onSuccessIDs == r.h.kids)
    && (!r.h.deleted ==> r.inSuccess == ok && r.inFailed == !ok)
  }

  /** How a record's status, retries, OnSuccess IDs and error fit the errors so far. */
  predicate RecordOk(meta: Meta, h: History) {
    && (meta.status != Successful ==> meta.onSuccessIDs == [])
    && match meta.status
       case Queued => meta.retried == 0 == |h.errors| && meta.prevErr == ""
       case Retrying => 0 < meta.retried == |h.errors| && meta.prevErr == h.errors[meta.retried - 1]
       case Processing =>
         && meta.retried <= |h.errors| <= meta.retried + 1
         && meta.prevErr == if meta.retried == 0 then "" else h.errors[meta.retried - 1]
       case Successful =>
         && meta.retried == |h.errors|
         && meta.prevErr == if meta.retried == 0 then "" else h.errors[meta.retried - 1]
       case Failed =>
         && meta.retried == meta.maxRetry && |h.errors| == meta.retried + 1
         && meta.prevErr == h.errors[meta.retried]
  }

  /** What is true of every row by itself. */
  predicate RowLocal(r: Row, id: Id) {
    && r.h.pushes <= 1 && |r.h.errors| == r.h.errs
    && (r.rec.Some? ==> BornAs(r.rec.value, id, r.h) && RecordOk(r.rec.value.meta, r.h))
    && (r.rec.None? ==> r.h.pushes == 0)
    && (r.h.at.Ended? ==> EndOk(r))
    && (!r.h.at.Ended? && r.rec.Some? ==> !IsFinal(r.rec.value.meta.status))
    && (if r.h.verdict == Some(false) then r.h.errs == r.h.job.opts.maxRetries + 1
        else r.h.errs <= r.h.job.opts.maxRetries)
    && (r.h.verdict.Some? ==> r.h.runs == r.h.errs + if r.h.verdict.value then 1 else 0)
    && (r.inSuccess ==> r.h.verdict == Some(true))
    && (r.inFailed ==> r.h.verdict == Some(false))
    && (r.h.verdict.None? ==> r.h.kids == [])
  }

  /** Child c is follower j of job p. */
  ghost predicate KidLink(w: World, p: Id, c: Id, j: nat)
    requires p in w.rows && w.rows[p].h.verdict.Some?
  {
    && c in w.rows
    && var ph := w.rows[p].h; var ch := w.rows[c].h; var ok := ph.verdict.value;
    && ch.parent == Some(p) && ch.slot == j && ch.root == ph.root && ph.born < ch.born
    && j < |Followers(ph.job, ok)|
    && PreparedFrom(ch.job, Followers(ph.job, ok)[j])
    && (ok && !ph.touched ==> w.rows[p].saved.Some? && ch.prev == w.rows[p].saved)
    && (!ok ==> ch.prev == None)
  }

  /** The children of p, in order. */
  ghost predicate KidsLinked(w: World, p: Id)
    requires p in w.rows
  {
    w.rows[p].h.verdict.Some? ==>
      forall j {:trigger w.rows[p].h.kids[j]} | 0 <= j < |w.rows[p].h.kids| :: KidLink(w, p, w.rows[p].h.kids[j], j)
  }

  predicate Pushed(w: World, c: Id) {
    c in w.rows && w.rows[c].rec.Some? && w.rows[c].h.pushes == 1
  }

  /** The first n followers of p have a record and were pushed once. */
  ghost predicate FirstPushed(w: World, p: Id, n: nat)
    requires p in w.rows
  {
    && n <= |w.rows[p].h.kids|
    && forall j {:trigger Pushed(w, w.rows[p].h.kids[j])} | 0 <= j < n :: Pushed(w, w.rows[p].h.kids[j])
  }

  ghost predicate CtxOk(w: World, t: nat, ctx: Ctx, c: Id) {
    match ctx
    case Client => c in w.rows && w.rows[c].h.parent == None
    case Parent(m, ok, k) =>
      && m.meta.id != c && m.meta.id in w.rows
      && Spawning(w.rows[m.meta.id], m, ok, k, c, t) && FirstPushed(w, m.meta.id, k)
  }

  ghost predicate PcOk(w: World, t: nat, pc: Pc) {
    match pc
    case Idle => true
    case Busy(m, st) =>
      && m.meta.id in w.rows && StageOk(w.rows[m.meta.id], m, st, t)
      && FirstPushed(w, m.meta.id, |w.rows[m.meta.id].h.kids|)
    case Enqueueing(ctx, c, written) =>
      && c.meta.id in w.rows && Newborn(w.rows[c.meta.id], c, t, written) && CtxOk(w, t, ctx, c.meta.id)
  }

  ghost predicate ParentOk(w: World, id: Id)
    requires id in w.rows
  {
    var h := w.rows[id].h;
    match h.parent
    case None => h.root == id
    case Some(p) =>
      && p in w.rows && w.rows[p].h.verdict.Some?
      && h.slot < |w.rows[p].h.kids| && w.rows[p].h.kids[h.slot] == id
  }

  /** The place a row names does hold its message. */
  predicate PlaceOk(w: World, id: Id, p: Place) {
    && (p.At? ==> p.t in w.threads && Holds(w.threads[p.t], id))
    && (p.InBox? ==> p.k in w.box && w.box[p.k].msg.meta.id == id)
  }

  ghost predicate RowOk(w: World, id: Id)
    requires id in w.rows
  {
    var r := w.rows[id];
    && RowLocal(r, id) && r.h.born < w.clock && PlaceOk(w, id, r.h.at)
    && KidsLinked(w, id) && ParentOk(w, id)
    && (r.h.at.Ended? ==> FirstPushed(w, id, |r.h.kids|))
  }

  ghost predicate BoxOk(w: World, k: nat)
    requires k in w.box
  {
    && k < w.next && w.box[k].msg.meta.id in w.rows
    && Waiting(w.rows[w.box[k].msg.meta.id], w.box[k].msg, InBox(k))
    && (w.box[k].scheduled ==> w.box[k].msg.meta.retried == 0)
  }

  ghost predicate ThreadsOk(w: World) {
    forall t {:trigger PcOk(w, t, w.threads[t])} | t in w.threads :: PcOk(w, t, w.threads[t])
  }

  ghost predicate BoxesOk(w: World) {
    forall k {:trigger BoxOk(w, k)} | k in w.box :: BoxOk(w, k)
  }

  ghost predicate RowsOk(w: World) {
    forall id {:trigger RowOk(w, id)} | id in w.rows :: RowOk(w, id)
  }

  ghost predicate Inv(w: World) {
    ThreadsOk(w) && BoxesOk(w) && RowsOk(w)
  }

  // ---------------------------------------------------------------- framing

  /** What no step takes back. */
  ghost predicate Grow(w: World, w': World) {
    && w.clock <= w'.clock && w.next <= w'.next
    && forall id | id in w.rows :: id in w'.rows && RowGrow(w.rows[id], w'.rows[id])
  }

  predicate RowGrow(r: Row, r': Row) {
    && r'.h.job == r.h.job && r'.h.parent == r.h.parent && r'.h.slot == r.h.slot && r'.h.root == r.h.root
    && r'.h.born == r.h.born && r'.h.prev == r.h.prev
    && (r.rec.Some? ==> r'.rec.Some?)
    && (r.h.pushes == 1 ==> r'.h.pushes == 1)
    && r.h.kids <= r'.h.kids
    && (r.h.verdict.Some? ==> r'.h.verdict == r.h.verdict)
    && (r.h.touched ==> r'.h.touched)
    && (r.h.verdict.Some? && !r'.h.touched ==> r'.saved == r.saved)
    && (r.h.at.Ended? || r.h.at.Lost? ==> r'.rec == r.rec && r'.h.at == r.h.at)
  }

  lemma KeepPushed(w: World, w': World, p: Id, n: nat)
    requires p in w.rows && FirstPushed(w, p, n) && Grow(w, w')
    ensures p in w'.rows && FirstPushed(w', p, n)
  {
    forall j | 0 <= j < n
      ensures Pushed(w', w'.rows[p].h.kids[j])
    {
      assert Pushed(w, w.rows[p].h.kids[j]);
    }
  }

  lemma KeepParent(w: World, w': World, id: Id)
    requires id in w.rows && ParentOk(w, id) && Grow(w, w')
    ensures ParentOk(w', id)
  {
  }

  lemma KeepPc(w: World, w': World, t: nat, pc: Pc)
    requires PcOk(w, t, pc) && Grow(w, w')
    requires forall id | id in w.rows && Holds(pc, id) :: id in w'.rows && w'.rows[id] == w.rows[id]
    ensures PcOk(w', t, pc)
  {
    if pc.Busy? {
      assert Holds(pc, pc.m.meta.id);
      KeepPushed(w, w', pc.m.meta.id, |w.rows[pc.m.meta.id].h.kids|);
    } else if pc.Enqueueing? {
      assert Holds(pc, pc.c.meta.id);
      if pc.ctx.Parent? {
        assert Holds(pc, pc.ctx.m.meta.id);
        KeepPushed(w, w', pc.ctx.m.meta.id, pc.ctx.k);
      }
    }
  }

  /** A row is in order again once it is by itself, its place holds it and its children are the old ones. */
  lemma KeepRow(w: World, w': World, id: Id)
    requires id in w.rows && RowOk(w, id) && Grow(w, w')
    requires RowLocal(w'.rows[id], id) && PlaceOk(w', id, w'.rows[id].h.at)
    requires w'.rows[id].h.kids == w.rows[id].h.kids
    requires w'.rows[id].h.at.Ended? ==> FirstPushed(w, id, |w.rows[id].h.kids|)
    ensures RowOk(w', id)
  {
    KeepParent(w, w', id);
    if w'.rows[id].h.at.Ended? {
      KeepPushed(w, w', id, |w.rows[id].h.kids|);
    }
  }

  /** The step from w to w' touches only the threads T, the broker entries K and the rows D. */
  ghost predicate Alike(w: World, w': World, T: set<nat>, K: set<nat>, D: set<Id>) {
    && w'.threads.Keys == w.threads.Keys
    && (forall t | t in w.threads && t !in T :: w'.threads[t] == w.threads[t])
    && (forall k | k in w.box && k !in K :: k in w'.box && w'.box[k] == w.box[k])
    && (forall id | id in w.rows && id !in D :: id in w'.rows && w'.rows[id] == w.rows[id])
  }

  /** The rows D are exactly those of what is in T and K. */
  ghost predicate Covers(w: World, T: set<nat>, K: set<nat>, D: set<Id>) {
    && (forall t, id | t in T && t in w.threads && Holds(w.threads[t], id) :: id in D)
    && (forall k | k in K && k in w.box :: w.box[k].msg.meta.id in D)
    && (forall id | id in D && id in w.rows :: Within(w.rows[id].h.at, T, K))
  }

  ghost predicate Touches(w: World, w': World, T: set<nat>, K: set<nat>, D: set<Id>) {
    Grow(w, w') && Alike(w, w', T, K, D) && Covers(w, T, K, D)
  }

  predicate Within(p: Place, T: set<nat>, K: set<nat>) {
    (p.At? && p.t in T) || (p.InBox? && p.k in K)
  }

  /** What w' touches is in order there. */
  ghost predicate Restored(w: World, w': World, T: set<nat>, K: set<nat>, D: set<Id>)
    requires w'.threads.Keys == w.threads.Keys
  {
    && (forall t | t in T && t in w.threads :: PcOk(w', t, w'.threads[t]))
    && (forall k | k in w'.box && (k !in w.box || k in K) :: BoxOk(w', k))
    && (forall id | id in w'.rows && (id !in w.rows || id in D) :: RowOk(w', id))
  }

  lemma FramePc(w: World, w': World, T: set<nat>, K: set<nat>, D: set<Id>, t: nat)
    requires Touches(w, w', T, K, D) && t in w.threads && t !in T && PcOk(w, t, w.threads[t])
    ensures PcOk(w', t, w'.threads[t])
  {
    forall id | id in w.rows && Holds(w.threads[t], id)
      ensures w'.rows[id] == w.rows[id]
    {
    }
    KeepPc(w, w', t, w.threads[t]);
  }

  lemma FrameBox(w: World, w': World, T: set<nat>, K: set<nat>, D: set<Id>, k: nat)
    requires Touches(w, w', T, K, D) && k in w.box && k !in K && BoxOk(w, k)
    ensures BoxOk(w', k)
  {
  }

  lemma FrameRow(w: World, w': World, T: set<nat>, K: set<nat>, D: set<Id>, id: Id)
    requires Touches(w, w', T, K, D) && id in w.rows && id !in D && RowOk(w, id)
    ensures RowOk(w', id)
  {
    KeepRow(w, w', id);
  }

  /** Everything a step does not touch stays in order, so Inv only has to be shown for what it touches. */
  lemma Frame(w: World, w': World, T: set<nat>, K: set<nat>, D: set<Id>)
    requires Inv(w) && Touches(w, w', T, K, D) && Restored(w, w', T, K, D)
    ensures Inv(w')
  {
    forall t | t in w'.threads
      ensures PcOk(w', t, w'.threads[t])
    {
      if t !in T { FramePc(w, w', T, K, D, t); }
    }
    forall k | k in w'.box
      ensures BoxOk(w', k)
    {
      if k in w.box && k !in K { FrameBox(w, w', T, K, D, k); }
    }
    forall id | id in w'.rows
      ensures RowOk(w', id)
    {
      if id in w.rows && id !in D { FrameRow(w, w', T, K, D, id); }
    }
  }
}
