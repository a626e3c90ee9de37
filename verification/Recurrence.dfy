/** Jobs with a cron schedule: each success enqueues exactly one next run, one activation later. */
module Recurrence {
  import opened Jobs
  import opened Protocol
  import opened Invariant
  import opened Preservation
  import opened Lifecycle

  /** Activation times: the first activation of a schedule after a time. */
  type Next = (string, int) -> int

  /** Every activation is a real time (not the zero time) and later than the time asked about. */
  ghost predicate IsNext(next: Next) {
    forall s, t :: next(s, t) != 0 && next(s, t) > t
  }

  /** What the cron library answers for a job when it follows `next`. */
  predicate Answers(job: Job, cron: Cron, next: Next) {
    job.opts.schedule != "" && cron.Times? ==>
      && cron.afterNow != 0
      && cron.afterEta == next(job.opts.schedule, if job.opts.eta == 0 then cron.afterNow else job.opts.eta)
  }

  predicate StepAnswers(w: World, s: Step, next: Next)
    requires Ready(w, s)
  {
    match s
    case ClientBegin(_, job, _, cron) => Answers(job, cron, next)
    case KidBegin(t, _, cron) =>
      var Busy(m, Kids(ok, k)) := w.threads[t];
      Answers(Followers(m.job, ok)[k], cron, next)
    case _ => true
  }

  ghost predicate RunAnswers(w: World, tr: seq<Step>, next: Next)
    requires IsPossible(w, tr)
  {
    tr == [] ||
    (RunAnswers(w, tr[..|tr| - 1], next) && StepAnswers(After(w, tr[..|tr| - 1]), tr[|tr| - 1], next))
  }

  /** A job with a schedule, as stored: it has an ETA, and its last OnSuccess job is itself, one
      activation later and without followers of its own. */
  predicate Timed(j: Job, next: Next) {
    j.opts.schedule != "" ==>
      && j.opts.eta != 0 && |j.onSuccess| > 0
      && j.onSuccess[|j.onSuccess| - 1] == NextRun(j, next(j.opts.schedule, j.opts.eta))
  }

  ghost predicate AllTimed(w: World, next: Next) {
    forall id | id in w.rows :: Timed(w.rows[id].h.job, next)
  }

  lemma PreparedIsTimed(j: Job, cron: Cron, next: Next)
    requires Prepare(j, cron).Some? && Answers(j, cron, next)
    ensures Timed(Prepare(j, cron).value, next)
  {
  }

  lemma StepKeepsTimed(w: World, s: Step, next: Next)
    requires Inv(w) && Enabled(w, s) && AllTimed(w, next) && StepAnswers(w, s, next)
    ensures AllTimed(Apply(w, s), next)
  {
    StepKeeps(w, s);
    forall id | id in Apply(w, s).rows
      ensures Timed(Apply(w, s).rows[id].h.job, next)
    {
      if id !in w.rows {
        if s.ClientBegin? {
          PreparedIsTimed(s.job, s.cron, next);
        } else if s.KidBegin? {
          var Busy(m, Kids(ok, k)) := w.threads[s.t];
          PreparedIsTimed(Followers(m.job, ok)[k], s.cron, next);
        }
      } else {
        assert RowGrow(w.rows[id], Apply(w, s).rows[id]);
      }
    }
  }

  lemma {:induction false} RunKeepsTimed(w0: World, tr: seq<Step>, w: World, next: Next)
    requires Reachable(w0, tr, w) && RunAnswers(w0, tr, next)
    ensures AllTimed(w, next)
  {
    if tr != [] {
      var before := tr[..|tr| - 1];
      RunKeepsTimed(w0, before, After(w0, before), next);
      ReachableInv(w0, before, After(w0, before));
      StepKeepsTimed(After(w0, before), tr[|tr| - 1], next);
    }
  }

  /** Job c is the next run of scheduled job p: the last of the jobs that follow p's success. */
  predicate IsNextRun(w: World, p: Id, c: Id) {
    && p in w.rows && c in w.rows && w.rows[p].h.job.opts.schedule != ""
    && w.rows[c].h.parent == Some(p) && w.rows[p].h.verdict == Some(true)
    && w.rows[c].h.slot + 1 == |w.rows[p].h.job.onSuccess|
  }

  /** The next run is the same task on the same payload under the same options, at the activation after
      the run before it; what else followed p does not follow it. */
  lemma NextRunIsNext(w0: World, tr: seq<Step>, w: World, next: Next, p: Id, c: Id)
    requires Reachable(w0, tr, w) && RunAnswers(w0, tr, next) && IsNext(next) && IsNextRun(w, p, c)
    ensures var pj := w.rows[p].h.job; var cj := w.rows[c].h.job;
            && cj.task == pj.task && cj.payload == pj.payload
            && cj.opts == pj.opts.(eta := next(pj.opts.schedule, pj.opts.eta),
                                   queue := if pj.opts.queue == "" then "tasqueue:tasks" else pj.opts.queue)
            && cj.opts.eta > pj.opts.eta
            && |cj.onSuccess| == 1 && cj.onError == []
  {
    ReachableInv(w0, tr, w);
    RunKeepsTimed(w0, tr, w, next);
    FollowerComesAfter(w0, tr, w, c);
    assert Timed(w.rows[p].h.job, next);
  }

  /** A successful run has exactly one next run, recorded and pushed once, and it is listed last. */
  lemma SuccessHasOneNextRun(w0: World, tr: seq<Step>, w: World, next: Next, p: Id)
    requires Reachable(w0, tr, w) && RunAnswers(w0, tr, next)
    requires p in w.rows && w.rows[p].h.job.opts.schedule != ""
    requires w.rows[p].rec.Some? && w.rows[p].rec.value.meta.status == Successful
    ensures var ids := w.rows[p].rec.value.meta.onSuccessIDs;
            && |ids| > 0 && IsNextRun(w, p, ids[|ids| - 1])
            && Count(w0, tr, FirstPush, ids[|ids| - 1]) == 1
            && (forall c | IsNextRun(w, p, c) :: c == ids[|ids| - 1])
  {
    ReachableInv(w0, tr, w);
    RunKeepsTimed(w0, tr, w, next);
    assert Timed(w.rows[p].h.job, next);
    SuccessMeansChildrenPushed(w0, tr, w, p);
    var ids := w.rows[p].rec.value.meta.onSuccessIDs;
    var last := ids[|ids| - 1];
    assert IsFollower(w0, tr, w, p, true, |ids| - 1, last);
    assert RowOk(w, p);
    forall c | IsNextRun(w, p, c)
      ensures c == last
    {
      FollowerCreatedOnce(w0, tr, w, p, c, last);
    }
  }

  /** No next run exists before the job has succeeded: a follower on the same schedule, unless the client
      gave the job an OnError job on that schedule, follows a run without error. Retries create none, and a
      permanent failure ends the series for good. */
  lemma NoNextRunWithoutSuccess(w0: World, tr: seq<Step>, w: World, p: Id, c: Id)
    requires Reachable(w0, tr, w) && p in w.rows && c in w.rows && w.rows[c].h.parent == Some(p)
    requires w.rows[c].h.job.opts.schedule == w.rows[p].h.job.opts.schedule
    requires forall i | 0 <= i < |w.rows[p].h.job.onError| ::
               w.rows[p].h.job.onError[i].opts.schedule != w.rows[p].h.job.opts.schedule
    ensures Count(w0, tr, HandlerRun, p) == Count(w0, tr, HandlerError, p) + 1
    ensures w.rows[p].rec.Some? ==> w.rows[p].rec.value.meta.status != Failed
  {
    ReachableInv(w0, tr, w);
    FollowerComesAfter(w0, tr, w, c);
    assert RowOk(w, p);
    if w.rows[p].h.at.Ended? {
      assert EndOk(w.rows[p]);
    }
  }

  /** Applying next k times. */
  function Activation(next: Next, schedule: string, eta: int, k: nat): int {
    if k == 0 then eta else next(schedule, Activation(next, schedule, eta, k - 1))
  }

  /** c is the k-th run after job `first`. */
  ghost predicate IsRunAfter(w: World, first: Id, k: nat, c: Id) {
    if k == 0 then c == first && first in w.rows && w.rows[first].h.job.opts.schedule != ""
    else exists p :: IsRunAfter(w, first, k - 1, p) && IsNextRun(w, p, c)
  }

  /** Run k of a schedule is the same work, due at the k-th activation after the first ETA, and on the queue
      of the first run: in its options, its record and the message pushed. */
  lemma {:induction false} RunIsDueAtActivation(w0: World, tr: seq<Step>, w: World, next: Next,
                                                first: Id, k: nat, c: Id)
    requires Reachable(w0, tr, w) && RunAnswers(w0, tr, next) && IsNext(next)
    requires IsRunAfter(w, first, k, c) && first in w.rows
    ensures c in w.rows
    ensures var fo := w.rows[first].h.job.opts; var co := w.rows[c].h.job.opts;
            co.eta == Activation(next, fo.schedule, fo.eta, k) && co.schedule == fo.schedule
            && co.maxRetries == fo.maxRetries && co.id == fo.id
            && w.rows[c].h.job.task == w.rows[first].h.job.task
            && w.rows[c].h.job.payload == w.rows[first].h.job.payload
            && co.queue == if k > 0 && fo.queue == "" then "tasqueue:tasks" else fo.queue
    ensures w.rows[c].rec.Some? ==> w.rows[c].rec.value.meta.queue == w.rows[c].h.job.opts.queue
    ensures forall b | b in w.box && w.box[b].msg.meta.id == c :: w.box[b].msg.meta.queue == w.rows[c].h.job.opts.queue
  {
    ReachableInv(w0, tr, w);
    assert c in w.rows ==> RowOk(w, c);
    forall b | b in w.box && w.box[b].msg.meta.id == c
      ensures c in w.rows && w.box[b].msg.meta.queue == w.rows[c].h.job.opts.queue
    {
      assert BoxOk(w, b);
    }
    if k > 0 {
      var p :| IsRunAfter(w, first, k - 1, p) && IsNextRun(w, p, c);
      RunIsDueAtActivation(w0, tr, w, next, first, k - 1, p);
      NextRunIsNext(w0, tr, w, next, p, c);
    }
  }

  /** A worker about to enqueue the last follower of a scheduled job whose ID the client chose. */
  predicate EnqueuesOwnNextRun(w: World, t: nat) {
    && BusyAt(w, t) && w.threads[t].st.Kids? && w.threads[t].st.ok
    && var m := w.threads[t].m;
    && m.job.opts.schedule != "" && m.job.opts.id == Some(m.meta.id)
    && w.threads[t].st.k + 1 == |m.job.onSuccess|
  }

  lemma OwnNextRunHasOwnId(w0: World, tr: seq<Step>, w: World, next: Next, t: nat)
    requires Reachable(w0, tr, w) && RunAnswers(w0, tr, next) && EnqueuesOwnNextRun(w, t)
    ensures var m := w.threads[t].m;
            && m.job.onSuccess[w.threads[t].st.k].opts.id == Some(m.meta.id)
            && w.rows[m.meta.id].rec.Some? && w.rows[m.meta.id].rec.value.meta.status == Processing
  {
    ReachableInv(w0, tr, w);
    RunKeepsTimed(w0, tr, w, next);
    assert PcOk(w, t, w.threads[t]);
    assert Timed(w.rows[w.threads[t].m.meta.id].h.job, next);
  }

  /** A schedule with an ID chosen by the client recurs under that same ID: the next run can take no other,
      and its first write takes the record of the job still in hand back to "queued". */
  lemma ExplicitIdOverwritesItself(w0: World, tr: seq<Step>, w: World, next: Next, t: nat, cron: Cron)
    requires Reachable(w0, tr, w) && RunAnswers(w0, tr, next) && cron.Times?
    requires EnqueuesOwnNextRun(w, t) && w.rows[w.threads[t].m.meta.id].saved.Some?
    ensures forall id :: CanKidBegin(w, t, id, cron) <==> id == w.threads[t].m.meta.id
    ensures var own := w.threads[t].m.meta.id; var w1 := DoKidBegin(w, t, own, cron);
            && w.rows[own].rec.Some? && w.rows[own].rec.value.meta.status == Processing
            && CanWrite(w1, t) && own in DoWrite(w1, t, Fine).rows && DoWrite(w1, t, Fine).rows[own].rec.Some?
            && DoWrite(w1, t, Fine).rows[own].rec.value.meta.status == Queued
  {
    OwnNextRunHasOwnId(w0, tr, w, next, t);
    hide Reachable, RunAnswers;
    hide DoKidBegin, DoWrite;
  }
}
