/** What holds in every run of the job lifecycle, whatever the interleaving and whichever calls fail. A run is
    within two assumptions: IDs are fresh, and a poll of the sorted set removes what it pushed. */
module Lifecycle {
  import opened Jobs
  import opened Protocol
  import opened Invariant
  import opened Preservation

  /** A state some run leads to. */
  ghost predicate Reachable(w0: World, tr: seq<Step>, w: World) {
    Init(w0) && IsRun(w0, tr) && After(w0, tr) == w
  }

  lemma ReachableInv(w0: World, tr: seq<Step>, w: World)
    requires Reachable(w0, tr, w)
    ensures Inv(w)
  {
    InitHolds(w0);
    RunKeeps(w0, tr);
  }

  // ---------------------------------------------------------------- one live copy, and it matches

  /** A message of `id` is at place p: on a queue or in the sorted set, or held by a thread. */
  predicate LiveAt(w: World, p: Place, id: Id) {
    || (p.At? && p.t in w.threads && Holds(w.threads[p.t], id))
    || (p.InBox? && p.k in w.box && w.box[p.k].msg.meta.id == id)
  }

  lemma OneLiveCopy(w0: World, tr: seq<Step>, w: World, p: Place, q: Place, id: Id)
    requires Reachable(w0, tr, w) && LiveAt(w, p, id) && LiveAt(w, q, id)
    ensures p == q
  {
    ReachableInv(w0, tr, w);
    LiveIsPlace(w, p, id);
    LiveIsPlace(w, q, id);
  }

  lemma LiveIsPlace(w: World, p: Place, id: Id)
    requires Inv(w) && LiveAt(w, p, id)
    ensures id in w.rows && w.rows[id].h.at == p
  {
    if p.At? {
      assert PcOk(w, p.t, w.threads[p.t]);
    } else {
      assert BoxOk(w, p.k);
    }
  }

  /** The status a record has while a thread works on its message. */
  function StatusAt(st: Stage, retried: nat): Status {
    match st
    case Running => Processing
    case RetryWriting => Processing
    case Kids(_, _) => Processing
    case Closing(_) => Processing
    case _ => if retried == 0 then Queued else Retrying
  }

  /** The record of a message that thread t holds or enqueues. */
  ghost predicate ThreadMatches(w: World, t: nat)
    requires t in w.threads
  {
    match w.threads[t]
    case Idle => true
    case Busy(m, st) =>
      m.meta.id in w.rows && w.rows[m.meta.id].rec.Some?
      && w.rows[m.meta.id].rec.value.meta.status == StatusAt(st, m.meta.retried)
    case Enqueueing(ctx, c, written) =>
      && c.meta.id in w.rows
      && w.rows[c.meta.id].rec == (if written then Some(Stamp(c, Queued)) else None)
      && (ctx.Parent? ==> ctx.m.meta.id in w.rows && w.rows[ctx.m.meta.id].rec.Some?
                          && w.rows[ctx.m.meta.id].rec.value.meta.status == Processing)
  }

  lemma HeldMatches(w: World, t: nat)
    requires Inv(w) && t in w.threads
    ensures ThreadMatches(w, t)
  {
    assert PcOk(w, t, w.threads[t]);
  }

  /** The stored record of a live message says where that message is, and has no final status. */
  lemma LiveMatchesRecord(w0: World, tr: seq<Step>, w: World)
    requires Reachable(w0, tr, w)
    ensures forall k | k in w.box ::
              var m := w.box[k].msg;
              m.meta.id in w.rows && w.rows[m.meta.id].rec == Some(Stamp(m, StatusAt(Handing, m.meta.retried)))
    ensures forall t | t in w.threads :: ThreadMatches(w, t)
  {
    ReachableInv(w0, tr, w);
    forall k | k in w.box
      ensures var m := w.box[k].msg;
              m.meta.id in w.rows && w.rows[m.meta.id].rec == Some(Stamp(m, StatusAt(Handing, m.meta.retried)))
    {
      assert BoxOk(w, k);
    }
    forall t | t in w.threads
      ensures ThreadMatches(w, t)
    {
      HeldMatches(w, t);
    }
  }

  // ---------------------------------------------------------------- final statuses are absorbing

  predicate HasFinal(w: World, id: Id) {
    id in w.rows && w.rows[id].rec.Some? && w.rows[id].rec.value.meta.status in {Failed, Successful}
  }

  /** Once a record says successful or failed, no later step of any thread changes it. */
  lemma FinalIsForever(w: World, tr: seq<Step>, id: Id)
    requires Inv(w) && IsRun(w, tr) && HasFinal(w, id)
    ensures id in After(w, tr).rows && After(w, tr).rows[id].rec == w.rows[id].rec
  {
    assert RowOk(w, id);
    RunKeeps(w, tr);
  }

  /** A job whose thread dropped it keeps its last record forever. */
  lemma LostIsForever(w: World, tr: seq<Step>, id: Id)
    requires Inv(w) && IsRun(w, tr) && id in w.rows && w.rows[id].h.at == Lost
    ensures id in After(w, tr).rows && After(w, tr).rows[id].rec == w.rows[id].rec
    ensures forall p :: !LiveAt(After(w, tr), p, id)
  {
    RunKeeps(w, tr);
    forall p
      ensures !LiveAt(After(w, tr), p, id)
    {
      if LiveAt(After(w, tr), p, id) {
        LiveIsPlace(After(w, tr), p, id);
      }
    }
  }

  /** The promise that a job without a saved result passes nil to its OnSuccess jobs is not kept: the
      only thing its worker can do next is give up, and then the job stays "processing" forever. */
  lemma MissingResultSticks(w: World, t: nat, s: Step, tr: seq<Step>)
    requires Inv(w) && BusyAt(w, t) && w.threads[t].st.Kids? && w.threads[t].st.ok
    requires w.threads[t].st.k < |w.threads[t].m.job.onSuccess| && w.rows[w.threads[t].m.meta.id].saved.None?
    requires Enabled(w, s) && (s.Write? || s.Push? || s.Work? || s.Requeue? || s.KidBegin?) && s.t == t
    requires IsRun(Apply(w, s), tr)
    ensures s == Work(t, KidFail)
    ensures var id := w.threads[t].m.meta.id; var w' := After(Apply(w, s), tr);
            id in w'.rows && w'.rows[id].rec.Some? && w'.rows[id].rec.value.meta.status == Processing
  {
    assert PcOk(w, t, w.threads[t]);
    StepKeeps(w, s);
    LostIsForever(Apply(w, s), tr, w.threads[t].m.meta.id);
  }

  /** All of this rests on distinct IDs: a client that reuses the ID of a finished job takes its record
      back to "queued". */
  lemma ReusedIdIsNotForever(w: World, t: nat, job: Job, id: Id)
    requires HasFinal(w, id) && IdleAt(w, t) && job.opts.id == Some(id) && job.opts.schedule == ""
    ensures Ready(w, ClientBegin(t, job, id, Unparsed))
    ensures var w1 := Apply(w, ClientBegin(t, job, id, Unparsed));
            && Ready(w1, Write(t, Fine))
            && Apply(w1, Write(t, Fine)).rows[id].rec.Some?
            && Apply(w1, Write(t, Fine)).rows[id].rec.value.meta.status == Queued
  {
  }

  // ---------------------------------------------------------------- retry accounting

  datatype Event = HandlerRun | HandlerError | FirstPush

  /** Step s, taken in w, is such an event for job id. */
  predicate Happens(w: World, s: Step, e: Event, id: Id) {
    match e
    case HandlerRun => s.Work? && s.a.Process? && s.a.f.Fine? && BusyAt(w, s.t) && w.threads[s.t].m.meta.id == id
    case HandlerError =>
      s.Work? && s.a.Finish? && (s.a.o.Errored? || s.a.o.Deadline?) && BusyAt(w, s.t) && w.threads[s.t].m.meta.id == id
    case FirstPush => s.Push? && !s.f.FailedBefore? && EnqueueingAt(w, s.t, true) && w.threads[s.t].c.meta.id == id
  }

  ghost function Count(w: World, tr: seq<Step>, e: Event, id: Id): nat
    requires IsPossible(w, tr)
  {
    if tr == [] then 0
    else
      var before := tr[..|tr| - 1];
      Count(w, before, e, id) + if Happens(After(w, before), tr[|tr| - 1], e, id) then 1 else 0
  }

  function Counted(h: History, e: Event): nat {
    match e
    case HandlerRun => h.runs
    case HandlerError => h.errs
    case FirstPush => h.pushes
  }

  lemma WorkCounts(w: World, t: nat, a: Act, e: Event, id: Id)
    requires CanWork(w, t, a) && id in w.rows
    ensures id in DoWork(w, t, a).rows
    ensures Counted(DoWork(w, t, a).rows[id].h, e)
            == Counted(w.rows[id].h, e) + if Happens(w, Work(t, a), e, id) then 1 else 0
  {
  }

  lemma EnqueueCounts(w: World, s: Step, e: Event, id: Id)
    requires Inv(w) && Enabled(w, s) && id in w.rows && (s.Write? || s.Push?)
    ensures id in Apply(w, s).rows
    ensures Counted(Apply(w, s).rows[id].h, e)
            == Counted(w.rows[id].h, e) + if Happens(w, s, e, id) then 1 else 0
  {
    assert PcOk(w, s.t, w.threads[s.t]);
  }

  lemma StepCounts(w: World, s: Step, e: Event, id: Id)
    requires Inv(w) && Enabled(w, s)
    ensures id in w.rows ==> id in Apply(w, s).rows
    ensures id in Apply(w, s).rows ==>
              Counted(Apply(w, s).rows[id].h, e)
              == (if id in w.rows then Counted(w.rows[id].h, e) else 0) + if Happens(w, s, e, id) then 1 else 0
    ensures Happens(w, s, e, id) ==> id in w.rows
  {
    if s.Work? && id in w.rows {
      WorkCounts(w, s.t, s.a, e, id);
    } else if (s.Write? || s.Push?) && id in w.rows {
      EnqueueCounts(w, s, e, id);
    }
  }

  /** The counters in a row are counts of steps of the run. */
  lemma {:induction false} CountersCount(w0: World, tr: seq<Step>, w: World, e: Event, id: Id)
    requires Reachable(w0, tr, w)
    ensures Count(w0, tr, e, id) == if id in w.rows then Counted(w.rows[id].h, e) else 0
  {
    if tr != [] {
      var before := tr[..|tr| - 1];
      CountersCount(w0, before, After(w0, before), e, id);
      ReachableInv(w0, before, After(w0, before));
      StepCounts(After(w0, before), tr[|tr| - 1], e, id);
    }
  }

  /** Retried never exceeds MaxRetry in any queued or held message, so the increment never wraps; and a
      job whose handler runs is on its (Retried+1)-th run. */
  lemma RetriesAreCounted(w0: World, tr: seq<Step>, w: World)
    requires Reachable(w0, tr, w)
    ensures forall k | k in w.box ::
              var m := w.box[k].msg.meta; m.retried <= m.maxRetry && Count(w0, tr, HandlerRun, m.id) == m.retried
    ensures forall t | t in w.threads && w.threads[t].Busy? ::
              w.threads[t].m.meta.retried <= w.threads[t].m.meta.maxRetry
    ensures forall t | t in w.threads && w.threads[t].Busy? && w.threads[t].st.Running? ::
              Count(w0, tr, HandlerRun, w.threads[t].m.meta.id) == w.threads[t].m.meta.retried + 1
  {
    ReachableInv(w0, tr, w);
    forall k | k in w.box
      ensures var m := w.box[k].msg.meta; m.retried <= m.maxRetry && Count(w0, tr, HandlerRun, m.id) == m.retried
    {
      assert BoxOk(w, k);
      CountersCount(w0, tr, w, HandlerRun, w.box[k].msg.meta.id);
    }
    forall t | t in w.threads && w.threads[t].Busy?
      ensures w.threads[t].m.meta.retried <= w.threads[t].m.meta.maxRetry
      ensures w.threads[t].st.Running? ==>
                Count(w0, tr, HandlerRun, w.threads[t].m.meta.id) == w.threads[t].m.meta.retried + 1
    {
      assert PcOk(w, t, w.threads[t]);
      CountersCount(w0, tr, w, HandlerRun, w.threads[t].m.meta.id);
    }
  }

  // ---------------------------------------------------------------- errors and what records say

  /** The error of the last erred run of job id, or "" if none erred. */
  ghost function LastError(w: World, tr: seq<Step>, id: Id): string
    requires IsPossible(w, tr)
  {
    if tr == [] then ""
    else
      var before, s := tr[..|tr| - 1], tr[|tr| - 1];
      if !Happens(After(w, before), s, HandlerError, id) then LastError(w, before, id)
      else if s.a.o.Errored? then s.a.o.err
      else "context deadline exceeded"
  }

  function Last(errors: seq<string>): string {
    if errors == [] then "" else errors[|errors| - 1]
  }

  lemma OthersErr(w: World, s: Step, id: Id)
    requires Inv(w) && Enabled(w, s) && !s.Work?
    ensures id in w.rows ==> id in Apply(w, s).rows && Apply(w, s).rows[id].h.errors == w.rows[id].h.errors
    ensures id !in w.rows && id in Apply(w, s).rows ==> Apply(w, s).rows[id].h.errors == []
  {
    if s.Push? || s.Write? { assert PcOk(w, s.t, w.threads[s.t]); }
  }

  lemma StepErrs(w: World, s: Step, id: Id)
    requires Inv(w) && Enabled(w, s)
    ensures id in w.rows ==> id in Apply(w, s).rows
    ensures id in Apply(w, s).rows ==>
              Last(Apply(w, s).rows[id].h.errors)
              == if Happens(w, s, HandlerError, id)
                 then if s.a.o.Errored? then s.a.o.err else "context deadline exceeded"
                 else if id in w.rows then Last(w.rows[id].h.errors) else ""
    ensures Happens(w, s, HandlerError, id) ==> id in w.rows
  {
    hide Inv;
    if !s.Work? { OthersErr(w, s, id); }
  }

  lemma {:induction false} LastErrorIsLast(w0: World, tr: seq<Step>, w: World, id: Id)
    requires Reachable(w0, tr, w)
    ensures LastError(w0, tr, id) == if id in w.rows then Last(w.rows[id].h.errors) else ""
  {
    if tr != [] {
      var before := tr[..|tr| - 1];
      LastErrorIsLast(w0, before, After(w0, before), id);
      ReachableInv(w0, before, After(w0, before));
      StepErrs(After(w0, before), tr[|tr| - 1], id);
    }
  }

  /** A record is the job's own, with the client's options; PrevErr is the error of its last erred run,
      except that while a worker has the job it may lag behind by the run that has just erred; Retried
      is 0 before the first run and counts the erred runs after that, but for the last one of a failed job. */
  lemma RecordIsExact(w0: World, tr: seq<Step>, w: World, id: Id)
    requires Reachable(w0, tr, w) && id in w.rows && w.rows[id].rec.Some?
    ensures var h := w.rows[id].h; var rec := w.rows[id].rec.value; var meta := rec.meta;
            var erred := Count(w0, tr, HandlerError, id);
            && rec == Msg(Meta(id, meta.onSuccessIDs, meta.status, h.job.opts.queue, h.job.opts.schedule,
                               h.job.opts.maxRetries, meta.retried, meta.prevErr, h.prev), h.job)
            && (meta.status != Successful ==> meta.onSuccessIDs == [])
            && (meta.status != Processing ==> meta.prevErr == LastError(w0, tr, id))
            && (meta.status == Queued ==> meta.retried == erred == 0)
            && (meta.status == Retrying ==> meta.retried == erred > 0)
            && (meta.status == Processing ==> meta.retried <= erred <= meta.retried + 1
                                              && (meta.retried == erred ==> meta.prevErr == LastError(w0, tr, id)))
            && (meta.status == Successful ==> meta.retried == erred)
            && (meta.status == Failed ==> meta.retried == meta.maxRetry && meta.retried + 1 == erred)
  {
    ReachableInv(w0, tr, w);
    assert RowOk(w, id);
    LastErrorIsLast(w0, tr, w, id);
    CountersCount(w0, tr, w, HandlerError, id);
    hide Inv, Reachable, LastError, Count, KidsLinked, ParentOk, FirstPushed;
  }

  /** A message on a queue or in the sorted set is exactly what its job was enqueued as, with the erred
      runs so far counted and the last error; its status is never written back. */
  lemma QueuedMessageIsExact(w0: World, tr: seq<Step>, w: World, k: nat)
    requires Reachable(w0, tr, w) && k in w.box
    ensures w.box[k].msg.meta.id in w.rows
    ensures var id := w.box[k].msg.meta.id; var h := w.rows[id].h;
            w.box[k].msg == Msg(Meta(id, [], Queued, h.job.opts.queue, h.job.opts.schedule, h.job.opts.maxRetries,
                                     w.box[k].msg.meta.retried, LastError(w0, tr, id), h.prev), h.job)
    ensures w.box[k].msg.meta.retried == Count(w0, tr, HandlerError, w.box[k].msg.meta.id)
  {
    ReachableInv(w0, tr, w);
    assert BoxOk(w, k);
    LastErrorIsLast(w0, tr, w, w.box[k].msg.meta.id);
    CountersCount(w0, tr, w, HandlerError, w.box[k].msg.meta.id);
  }

  /** So does a message that a consumer or worker holds carry the last error, from the end of the handler on. */
  lemma HeldMessageCarriesLastError(w0: World, tr: seq<Step>, w: World, t: nat)
    requires Reachable(w0, tr, w) && t in w.threads && w.threads[t].Busy?
    ensures w.threads[t].m.meta.prevErr == LastError(w0, tr, w.threads[t].m.meta.id)
  {
    ReachableInv(w0, tr, w);
    assert PcOk(w, t, w.threads[t]);
    LastErrorIsLast(w0, tr, w, w.threads[t].m.meta.id);
  }

  /** Each status call writes its own status, if it goes well. */
  lemma StatusCallsWrite(w: World, t: nat)
    requires t in w.threads
    ensures CanWrite(w, t) ==>
              var r := DoWrite(w, t, Fine).rows[w.threads[t].c.meta.id].rec; r.Some? && r.value.meta.status == Queued
    ensures CanWork(w, t, Act.Process(Fine)) ==>
              var r := DoWork(w, t, Act.Process(Fine)).rows[w.threads[t].m.meta.id].rec;
              r.Some? && r.value.meta.status == Processing
    ensures CanWork(w, t, Retry(Fine)) ==>
              var r := DoWork(w, t, Retry(Fine)).rows[w.threads[t].m.meta.id].rec;
              r.Some? && r.value.meta.status == Retrying
    ensures CanWork(w, t, Close(Fine)) ==>
              var r := DoWork(w, t, Close(Fine)).rows[w.threads[t].m.meta.id].rec;
              r.Some? && r.value.meta.status == if w.threads[t].st == Closing(true) then Successful else Failed
  {
  }

  /** DeleteJob leaves neither a saved result nor an index entry, and the record as it is. */
  lemma DeleteClears(w: World, id: Id)
    requires id in w.rows
    ensures DoDelete(w, id).rows.Keys == w.rows.Keys
    ensures var r := DoDelete(w, id).rows[id];
            r.saved == None && !r.inSuccess && !r.inFailed && r.rec == w.rows[id].rec
    ensures forall x | x in w.rows && x != id :: DoDelete(w, id).rows[x] == w.rows[x]
  {
  }

  /** A handler that ends with an error or runs into its deadline is retried as long as that is allowed, with
      one more retry counted; one that returns, or is cancelled, has succeeded. */
  lemma CancellationIsSuccess(w: World, t: nat, o: Outcome)
    requires Inv(w) && CanWork(w, t, Finish(o))
    ensures var m := w.threads[t].m; var pc := DoWork(w, t, Finish(o)).threads[t];
            && pc.Busy?
            && (pc.st == Kids(true, 0) <==> o.Returned? || o.ReturnedCanceled? || o.ContextCanceled?)
            && (pc.st == RetryWriting <==> (o.Errored? || o.Deadline?) && m.meta.retried < m.meta.maxRetry)
            && (pc.st == Kids(false, 0) <==> (o.Errored? || o.Deadline?) && m.meta.retried == m.meta.maxRetry)
            && pc.m.meta.retried == m.meta.retried + if pc.st == RetryWriting then 1 else 0
  {
    assert PcOk(w, t, w.threads[t]);
  }

  /** The thread has nothing left to do for job id but enqueue its OnError jobs and record the failure. */
  predicate IsFailing(pc: Pc, id: Id) {
    || (pc.Busy? && pc.m.meta.id == id && (pc.st == Closing(false) || (pc.st.Kids? && !pc.st.ok)))
    || (pc.Enqueueing? && pc.ctx.Parent? && pc.ctx.m.meta.id == id && !pc.ctx.ok)
  }

  /** Job id is recorded as failed, or some thread is about to do that. */
  ghost predicate FailedOrFailing(w: World, id: Id)
    requires id in w.rows
  {
    || (w.rows[id].rec.Some? && w.rows[id].rec.value.meta.status == Failed)
    || exists t | t in w.threads :: IsFailing(w.threads[t], id)
  }

  lemma FailingDecided(w: World, id: Id, t: nat)
    requires Inv(w) && t in w.threads && IsFailing(w.threads[t], id)
    ensures id in w.rows && w.rows[id].h.verdict == Some(false)
  {
    assert PcOk(w, t, w.threads[t]);
  }

  lemma DecidedFailing(w: World, id: Id)
    requires Inv(w) && id in w.rows && w.rows[id].h.verdict == Some(false) && w.rows[id].h.at.At?
    ensures w.rows[id].h.at.t in w.threads && IsFailing(w.threads[w.rows[id].h.at.t], id)
  {
    assert RowOk(w, id);
    var t := w.rows[id].h.at.t;
    assert PcOk(w, t, w.threads[t]);
  }

  lemma FailedIsVerdict(w: World, id: Id)
    requires Inv(w) && id in w.rows && w.rows[id].h.at != Lost
    ensures FailedOrFailing(w, id) <==> w.rows[id].h.verdict == Some(false)
  {
    assert RowOk(w, id);
    if t :| t in w.threads && IsFailing(w.threads[t], id) {
      FailingDecided(w, id, t);
    }
    if w.rows[id].h.verdict == Some(false) && w.rows[id].h.at.At? {
      DecidedFailing(w, id);
    }
    if w.rows[id].h.at.InBox? {
      assert BoxOk(w, w.rows[id].h.at.k);
    }
  }

  /** Unless an error made its thread drop it, a job is failed, or about to be recorded as failed, if and
      only if MaxRetry+1 of its handler runs erred; and no job errs more often than that. */
  lemma FailedIffAllRunsErred(w0: World, tr: seq<Step>, w: World, id: Id)
    requires Reachable(w0, tr, w) && id in w.rows
    ensures Count(w0, tr, HandlerError, id) <= w.rows[id].h.job.opts.maxRetries + 1
    ensures w.rows[id].h.at != Lost ==>
              (FailedOrFailing(w, id) <==> Count(w0, tr, HandlerError, id) == w.rows[id].h.job.opts.maxRetries + 1)
  {
    ReachableInv(w0, tr, w);
    CountersCount(w0, tr, w, HandlerError, id);
    assert RowOk(w, id);
    if w.rows[id].h.at != Lost {
      FailedIsVerdict(w, id);
    }
  }

  // ---------------------------------------------------------------- success and failed indexes

  /** The worker of job id is between the index write and the record write. */
  predicate IsClosing(w: World, id: Id, ok: bool) {
    exists t | t in w.threads :: w.threads[t].Busy? && w.threads[t].m.meta.id == id && w.threads[t].st == Closing(ok)
  }

  lemma IndexRow(w: World, id: Id, ok: bool)
    requires Inv(w) && id in w.rows && w.rows[id].h.at != Lost && !w.rows[id].h.deleted
    ensures (if ok then w.rows[id].inSuccess else w.rows[id].inFailed)
            <==> ((w.rows[id].rec.Some? && w.rows[id].rec.value.meta.status == (if ok then Successful else Failed))
                  || IsClosing(w, id, ok))
  {
    assert RowOk(w, id);
    var p := w.rows[id].h.at;
    if t :| t in w.threads && w.threads[t].Busy? && w.threads[t].m.meta.id == id && w.threads[t].st == Closing(ok) {
      assert PcOk(w, t, w.threads[t]);
    }
    if p.At? {
      assert PcOk(w, p.t, w.threads[p.t]);
    } else if p.InBox? {
      assert BoxOk(w, p.k);
    }
  }

  /** The two indexes are disjoint in every run; and each is exactly the jobs with that final status, plus
      those between the two writes, save for jobs that an error dropped or DeleteJob was called on. */
  lemma IndexesAgree(w0: World, tr: seq<Step>, w: World, id: Id)
    requires Reachable(w0, tr, w) && id in w.rows
    ensures !(w.rows[id].inSuccess && w.rows[id].inFailed)
    ensures w.rows[id].h.at != Lost && !w.rows[id].h.deleted ==>
              && (w.rows[id].inSuccess <==>
                  (w.rows[id].rec.Some? && w.rows[id].rec.value.meta.status == Successful) || IsClosing(w, id, true))
              && (w.rows[id].inFailed <==>
                  (w.rows[id].rec.Some? && w.rows[id].rec.value.meta.status == Failed) || IsClosing(w, id, false))
  {
    ReachableInv(w0, tr, w);
    assert RowOk(w, id);
    if w.rows[id].h.at != Lost && !w.rows[id].h.deleted {
      IndexRow(w, id, true);
      IndexRow(w, id, false);
    }
  }

  // ---------------------------------------------------------------- fault-free runs

  /** No store or broker call fails, every task has a handler, every schedule parses and every job with
      OnSuccess jobs has saved a result. */
  predicate Clean(s: Step) {
    match s
    case Write(_, f) => f.Fine?
    case Push(_, f) => f.Fine?
    case Receive(_, _, f) => f.Fine?
    case Requeue(_, f) => f.Fine?
    case Work(_, Drop) => false
    case Work(_, Process(f)) => f.Fine?
    case Work(_, Retry(f)) => f.Fine?
    case Work(_, KidFail) => false
    case Work(_, Index(f)) => f.Fine?
    case Work(_, Close(f)) => f.Fine?
    case _ => true
  }

  ghost predicate NothingLost(w: World) {
    forall id | id in w.rows :: w.rows[id].h.at != Lost
  }

  /** Without such errors no job is ever lost: each is in exactly one place until its final record. */
  lemma {:induction false} CleanRunsLoseNothing(w0: World, tr: seq<Step>, w: World)
    requires Reachable(w0, tr, w) && forall i | 0 <= i < |tr| :: Clean(tr[i])
    ensures NothingLost(w)
    ensures forall id | id in w.rows :: HasFinal(w, id) || exists p :: LiveAt(w, p, id)
  {
    if tr != [] {
      var before := tr[..|tr| - 1];
      CleanRunsLoseNothing(w0, before, After(w0, before));
      ReachableInv(w0, before, After(w0, before));
      CleanStepLosesNothing(After(w0, before), tr[|tr| - 1]);
    }
    ReachableInv(w0, tr, w);
    forall id | id in w.rows
      ensures HasFinal(w, id) || exists p :: LiveAt(w, p, id)
    {
      assert RowOk(w, id);
      assert w.rows[id].h.at.Ended? || LiveAt(w, w.rows[id].h.at, id);
    }
  }

  lemma CleanStepLosesNothing(w: World, s: Step)
    requires NothingLost(w) && Enabled(w, s) && Clean(s)
    ensures NothingLost(Apply(w, s))
  {
  }

  // ---------------------------------------------------------------- followers

  /** Job c is follower j of job p after a success (ok) or a permanent failure: it has a record, and it was
      pushed exactly once. */
  ghost predicate IsFollower(w0: World, tr: seq<Step>, w: World, p: Id, ok: bool, j: nat, c: Id)
    requires Reachable(w0, tr, w) && p in w.rows && j < |Followers(w.rows[p].h.job, ok)|
  {
    && c in w.rows && w.rows[c].rec.Some?
    && w.rows[c].h.parent == Some(p) && w.rows[c].h.slot == j && w.rows[p].h.born < w.rows[c].h.born
    && w.rows[c].rec.value.job == w.rows[c].h.job
    && PreparedFrom(w.rows[c].rec.value.job, Followers(w.rows[p].h.job, ok)[j])
    && Count(w0, tr, FirstPush, c) == 1
  }

  ghost predicate HasFollower(w0: World, tr: seq<Step>, w: World, p: Id, ok: bool, j: nat)
    requires Reachable(w0, tr, w) && p in w.rows && j < |Followers(w.rows[p].h.job, ok)|
  {
    exists c :: IsFollower(w0, tr, w, p, ok, j, c)
  }

  /** Whichever calls failed on the way: a successful record lists, in order and without leftovers, one ID
      for every OnSuccess job, and each of those was recorded and pushed once. */
  lemma SuccessMeansChildrenPushed(w0: World, tr: seq<Step>, w: World, p: Id)
    requires Reachable(w0, tr, w) && p in w.rows
    requires w.rows[p].rec.Some? && w.rows[p].rec.value.meta.status == Successful
    ensures w.rows[p].rec.value.job == w.rows[p].h.job
    ensures var ids := w.rows[p].rec.value.meta.onSuccessIDs;
            && |ids| == |w.rows[p].h.job.onSuccess|
            && (forall j | 0 <= j < |ids| :: IsFollower(w0, tr, w, p, true, j, ids[j]))
            && (forall i, j | 0 <= i < j < |ids| :: ids[i] != ids[j])
  {
    ReachableInv(w0, tr, w);
    assert RowOk(w, p);
    var ids := w.rows[p].h.kids;
    forall j | 0 <= j < |ids|
      ensures IsFollower(w0, tr, w, p, true, j, ids[j])
    {
      EndedFollower(w0, tr, w, p, j);
    }
  }

  /** A failed record implies the same of the OnError jobs, whose IDs only the history keeps. */
  lemma FailureMeansChildrenPushed(w0: World, tr: seq<Step>, w: World, p: Id)
    requires Reachable(w0, tr, w) && p in w.rows
    requires w.rows[p].rec.Some? && w.rows[p].rec.value.meta.status == Failed
    ensures w.rows[p].rec.value.job == w.rows[p].h.job
    ensures forall j | 0 <= j < |w.rows[p].h.job.onError| :: HasFollower(w0, tr, w, p, false, j)
  {
    ReachableInv(w0, tr, w);
    assert RowOk(w, p);
    forall j | 0 <= j < |w.rows[p].h.job.onError|
      ensures HasFollower(w0, tr, w, p, false, j)
    {
      EndedFollower(w0, tr, w, p, j);
      assert IsFollower(w0, tr, w, p, false, j, w.rows[p].h.kids[j]);
    }
  }

  lemma EndedFollower(w0: World, tr: seq<Step>, w: World, p: Id, j: nat)
    requires Reachable(w0, tr, w) && Inv(w) && p in w.rows && RowOk(w, p)
    requires w.rows[p].h.at.Ended? && j < |w.rows[p].h.kids|
    ensures w.rows[p].h.verdict.Some? && |w.rows[p].h.kids| == |Followers(w.rows[p].h.job, w.rows[p].h.verdict.value)|
    ensures IsFollower(w0, tr, w, p, w.rows[p].h.verdict.value, j, w.rows[p].h.kids[j])
  {
    var c := w.rows[p].h.kids[j];
    assert Pushed(w, c) && KidLink(w, p, c, j);
    assert RowOk(w, c);
    CountersCount(w0, tr, w, FirstPush, c);
  }

  /** Each follower is created at most once. */
  lemma FollowerCreatedOnce(w0: World, tr: seq<Step>, w: World, p: Id, c: Id, d: Id)
    requires Reachable(w0, tr, w) && c in w.rows && d in w.rows
    requires w.rows[c].h.parent == Some(p) && w.rows[d].h.parent == Some(p) && w.rows[c].h.slot == w.rows[d].h.slot
    ensures c == d
  {
    ReachableInv(w0, tr, w);
    assert RowOk(w, c) && RowOk(w, d);
  }

  /** And only once its parent's last run is over: the one run without an error for an OnSuccess job,
      MaxRetry+1 erred runs for an OnError job. */
  lemma FollowerComesAfter(w0: World, tr: seq<Step>, w: World, c: Id)
    requires Reachable(w0, tr, w) && c in w.rows && w.rows[c].h.parent.Some?
    ensures var p := w.rows[c].h.parent.value;
            && p in w.rows && w.rows[p].h.verdict.Some?
            && var ok := w.rows[p].h.verdict.value;
            && w.rows[c].h.slot < |Followers(w.rows[p].h.job, ok)|
            && PreparedFrom(w.rows[c].h.job, Followers(w.rows[p].h.job, ok)[w.rows[c].h.slot])
            && Count(w0, tr, HandlerRun, p) == Count(w0, tr, HandlerError, p) + (if ok then 1 else 0)
            && (!ok ==> Count(w0, tr, HandlerError, p) == w.rows[p].h.job.opts.maxRetries + 1)
  {
    ReachableInv(w0, tr, w);
    assert RowOk(w, c);
    var p := w.rows[c].h.parent.value;
    assert RowOk(w, p);
    assert KidLink(w, p, w.rows[p].h.kids[w.rows[c].h.slot], w.rows[c].h.slot);
    CountersCount(w0, tr, w, HandlerRun, p);
    CountersCount(w0, tr, w, HandlerError, p);
  }

  /** What the last save under id left, after the steps tr, and no deletion removed since. */
  function LastSaved(tr: seq<Step>, id: Id): Option<string> {
    if tr == [] then None
    else
      var s := tr[|tr| - 1];
      if s.Save? && s.id == id then Some(s.bytes)
      else if s.Delete? && s.id == id then None
      else LastSaved(tr[..|tr| - 1], id)
  }

  lemma StepSaves(w: World, s: Step, id: Id)
    requires Inv(w) && Enabled(w, s)
    ensures id !in Apply(w, s).rows ==> id !in w.rows && !(s.Save? && s.id == id)
    ensures id in Apply(w, s).rows ==>
              Apply(w, s).rows[id].saved
              == if s.Save? && s.id == id then Some(s.bytes) else if s.Delete? && s.id == id then None
                 else if id in w.rows then w.rows[id].saved else None
  {
    if s.Push? || s.Write? { assert PcOk(w, s.t, w.threads[s.t]); }
  }

  lemma {:induction false} SavedIsLastSaved(w0: World, tr: seq<Step>, w: World, id: Id)
    requires Reachable(w0, tr, w)
    ensures LastSaved(tr, id) == if id in w.rows then w.rows[id].saved else None
  {
    if tr != [] {
      var before := tr[..|tr| - 1];
      SavedIsLastSaved(w0, before, After(w0, before), id);
      ReachableInv(w0, before, After(w0, before));
      StepSaves(After(w0, before), tr[|tr| - 1], id);
    }
  }

  /** Step i of the run started to enqueue c as a follower of p. */
  ghost predicate EnqueuedAt(w0: World, tr: seq<Step>, i: nat, p: Id, c: Id)
    requires IsPossible(w0, tr)
  {
    && i < |tr| && tr[i].KidBegin? && tr[i].id == c
    && IsPossible(w0, tr[..i]) && BusyAt(After(w0, tr[..i]), tr[i].t)
    && After(w0, tr[..i]).threads[tr[i].t].m.meta.id == p
  }

  /** A follower that KidBegin has just created. */
  lemma PrevOfNewFollower(w0: World, before: seq<Step>, w: World, s: Step, c: Id)
    requires Reachable(w0, before, w) && Enabled(w, s) && c !in w.rows && c in Apply(w, s).rows
    requires Apply(w, s).rows[c].h.parent.Some?
    ensures s.KidBegin? && s.id == c && Apply(w, s).rows[c].h.parent == Some(w.threads[s.t].m.meta.id)
    ensures var p := w.threads[s.t].m.meta.id;
            && p in w.rows && w.rows[p].h.verdict.Some?
            && (w.rows[p].h.verdict.value ==>
                  Apply(w, s).rows[c].h.prev.Some? && Apply(w, s).rows[c].h.prev == LastSaved(before, p))
  {
    ReachableInv(w0, before, w);
    assert s.KidBegin?;
    assert PcOk(w, s.t, w.threads[s.t]);
    SavedIsLastSaved(w0, before, w, w.threads[s.t].m.meta.id);
  }

  /** What a step leaves of a follower that was there before. */
  lemma OldFollower(v: World, w: World, p: Id, c: Id)
    requires Inv(v) && Grow(v, w) && c in v.rows && w.rows[c].h.parent == Some(p)
    requires p in w.rows && w.rows[p].h.verdict == Some(true)
    ensures v.rows[c].h.parent == Some(p) && v.rows[c].h.prev == w.rows[c].h.prev
    ensures p in v.rows && v.rows[p].h.verdict == Some(true)
  {
    assert RowGrow(v.rows[c], w.rows[c]) && RowOk(v, c);
    assert RowGrow(v.rows[p], w.rows[p]);
  }

  lemma {:induction false} PrevWhenEnqueued(w0: World, tr: seq<Step>, w: World, p: Id, c: Id) returns (i: nat)
    requires Reachable(w0, tr, w) && c in w.rows && w.rows[c].h.parent == Some(p)
    requires p in w.rows && w.rows[p].h.verdict == Some(true)
    ensures EnqueuedAt(w0, tr, i, p, c)
    ensures w.rows[c].h.prev.Some? && w.rows[c].h.prev == LastSaved(tr[..i], p)
  {
    assert tr != [];
    var before, s := tr[..|tr| - 1], tr[|tr| - 1];
    var v := After(w0, before);
    ReachableInv(w0, before, v);
    StepKeeps(v, s);
    hide Inv, RowOk, BoxOk, PcOk;
    if c in v.rows {
      OldFollower(v, w, p, c);
      i := PrevWhenEnqueued(w0, before, v, p, c);
      assert before[..i] == tr[..i];
    } else {
      PrevOfNewFollower(w0, before, v, s, c);
      assert RowGrow(v.rows[p], w.rows[p]);
      i := |tr| - 1;
    }
  }

  /** The result passed to an OnSuccess job is what was saved last under its parent's ID when the job was
      enqueued. OnError jobs get none. */
  lemma PrevResultIsParents(w0: World, tr: seq<Step>, w: World, c: Id) returns (i: nat)
    requires Reachable(w0, tr, w) && c in w.rows && w.rows[c].rec.Some? && w.rows[c].h.parent.Some?
    ensures var p := w.rows[c].h.parent.value; var got := w.rows[c].rec.value.meta.prevJobResult;
            && p in w.rows && w.rows[p].h.verdict.Some?
            && (w.rows[p].h.verdict.value ==>
                  EnqueuedAt(w0, tr, i, p, c) && got.Some? && got == LastSaved(tr[..i], p))
            && (!w.rows[p].h.verdict.value ==> got == None)
  {
    ReachableInv(w0, tr, w);
    assert RowOk(w, c);
    var p := w.rows[c].h.parent.value;
    assert RowOk(w, p);
    assert KidLink(w, p, w.rows[p].h.kids[w.rows[c].h.slot], w.rows[c].h.slot);
    i := 0;
    if w.rows[p].h.verdict.value {
      i := PrevWhenEnqueued(w0, tr, w, p, c);
    }
  }

  /** And unless a handler that outlived its run, or DeleteJob, changed that afterwards, it is what is saved
      there now. */
  lemma PrevResultIsStillSaved(w0: World, tr: seq<Step>, w: World, c: Id)
    requires Reachable(w0, tr, w) && c in w.rows && w.rows[c].rec.Some? && w.rows[c].h.parent.Some?
    ensures var p := w.rows[c].h.parent.value; var got := w.rows[c].rec.value.meta.prevJobResult;
            && p in w.rows && w.rows[p].h.verdict.Some?
            && (w.rows[p].h.verdict.value && !w.rows[p].h.touched ==> got.Some? && got == w.rows[p].saved)
            && (!w.rows[p].h.verdict.value ==> got == None)
  {
    ReachableInv(w0, tr, w);
    assert RowOk(w, c);
    var p := w.rows[c].h.parent.value;
    assert RowOk(w, p);
    assert KidLink(w, p, w.rows[p].h.kids[w.rows[c].h.slot], w.rows[c].h.slot);
  }
}
