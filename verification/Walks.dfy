/** Chains that GetChain can walk over for ever: those whose line of first OnSuccess jobs ends in a job with
    a schedule, since each success adds a job to that line. */
module Walks {
  import opened Jobs
  import opened Protocol
  import opened Invariant
  import opened Preservation
  import opened Lifecycle
  import opened Polling
  import opened Recurrence
  import opened Runs

  /** A run in which the cron library answers as `next` says. */
  ghost predicate Follows(w0: World, tr: seq<Step>, w: World, next: Next) {
    Reachable(w0, tr, w) && RunAnswers(w0, tr, next)
  }

  lemma Take(w0: World, tr: seq<Step>, w: World, next: Next, s: Step) returns (tr': seq<Step>, w': World)
    requires Follows(w0, tr, w, next) && Enabled(w, s) && StepAnswers(w, s, next)
    ensures Follows(w0, tr', w', next) && w' == Apply(w, s) && Inv(w') && Grow(w, w')
  {
    tr', w' := tr + [s], Apply(w, s);
    assert tr'[..|tr|] == tr;
    ReachableInv(w0, tr, w);
    StepKeeps(w, s);
  }

  function CronFor(next: Next, j: Job): Cron {
    var now := next(j.opts.schedule, 0);
    Times(now, next(j.opts.schedule, if j.opts.eta == 0 then now else j.opts.eta))
  }

  /** No job on the line of first OnSuccess jobs, nor any that is enqueued with one, asks for an ID. */
  predicate Unnamed(j: Job) {
    && j.opts.id.None?
    && (forall i | 0 <= i < |j.onSuccess| :: j.onSuccess[i].opts.id.None?)
    && (j.onSuccess != [] ==> Unnamed(j.onSuccess[0]))
  }

  /** Such a line never ends: what is stored of its first job has an OnSuccess job, and so on. */
  lemma PreparedGoesOn(j': Job, j: Job, next: Next)
    requires PreparedFrom(j', j) && Unnamed(j) && !EndsUnscheduled(j) && Timed(j', next)
    ensures Unnamed(j') && !EndsUnscheduled(j') && j'.onSuccess != []
    ensures Unnamed(j'.onSuccess[0]) && !EndsUnscheduled(j'.onSuccess[0])
  {
    if j.opts.schedule != "" {
      forall i | 0 <= i < |j.onSuccess| ensures j'.onSuccess[i] == j.onSuccess[i] {
        assert j'.onSuccess[i] == j'.onSuccess[..|j.onSuccess|][i];
      }
    }
  }

  // ---------------------------------------------------------------- one run of a job, with success

  /** The message of job id waits, on its queue or in the sorted set, and two threads are idle. */
  predicate Waits(w: World, id: Id, c: nat, t: nat) {
    id in w.rows && w.rows[id].h.at.InBox? && IdleAt(w, c) && IdleAt(w, t) && c != t
  }

  /** Thread t has the message of job id in hand, k of its followers are enqueued, and a result is saved. */
  predicate Spawns(w: World, id: Id, c: nat, t: nat, k: nat) {
    && BusyAt(w, t) && w.threads[t].st == Kids(true, k) && w.threads[t].m.meta.id == id
    && w.threads[t].m.job == w.rows[id].h.job && w.rows[id].saved.Some? && IdleAt(w, c) && c != t
  }

  /** The first follower of job id was pushed and not taken yet. */
  predicate FirstWaits(w: World, id: Id) {
    && id in w.rows && w.rows[id].h.kids != []
    && w.rows[id].h.kids[0] in w.rows && w.rows[w.rows[id].h.kids[0]].h.at.InBox?
  }

  /** The message of job id is entry k of a queue. */
  predicate Queues(w: World, id: Id, k: nat, c: nat, t: nat) {
    && k in w.box && !w.box[k].scheduled && w.box[k].msg.meta.id == id && id in w.rows
    && IdleAt(w, c) && IdleAt(w, t) && c != t
  }

  lemma Due(w0: World, tr: seq<Step>, w: World, next: Next, id: Id, c: nat, t: nat)
    returns (tr': seq<Step>, w': World, k: nat)
    requires Follows(w0, tr, w, next) && Inv(w) && Waits(w, id, c, t)
    ensures Follows(w0, tr', w', next) && Inv(w') && Grow(w, w') && Queues(w', id, k, c, t)
  {
    k := w.rows[id].h.at.k;
    assert RowOk(w, id) && BoxOk(w, k);
    tr', w' := tr, w;
    if w.box[k].scheduled {
      hide Inv, Grow, Follows, RowOk, BoxOk;
      tr', w' := Take(w0, tr, w, next, Move(k, NoStop));
    }
  }

  lemma Fetch(w0: World, tr: seq<Step>, w: World, next: Next, id: Id, k: nat, c: nat, t: nat)
    returns (tr': seq<Step>, w': World)
    requires Follows(w0, tr, w, next) && Inv(w) && Queues(w, id, k, c, t)
    ensures Follows(w0, tr', w', next) && Inv(w') && Grow(w, w')
    ensures BusyAt(w', t) && w'.threads[t].st == Got && w'.threads[t].m.meta.id == id && IdleAt(w', c)
  {
    hide Inv, Grow, Follows;
    tr', w' := Take(w0, tr, w, next, Receive(c, k, Fine));
    var v := w';
    assert BusyAt(v, c) && v.threads[c].st == Handing && v.threads[c].m.meta.id == id && IdleAt(v, t);
    tr', w' := Take(w0, tr', w', next, Handoff(c, t));
    GrowIsTransitive(w, v, w');
  }

  /** Thread t runs the handler of job id. */
  predicate IsRunning(w: World, id: Id, c: nat, t: nat) {
    && BusyAt(w, t) && w.threads[t].st == Running && w.threads[t].m.meta.id == id
    && w.threads[t].m.job == w.rows[id].h.job && w.rows[id].h.runs > 0 && IdleAt(w, c) && c != t
  }

  lemma Start(w0: World, tr: seq<Step>, w: World, next: Next, id: Id, c: nat, t: nat)
    returns (tr': seq<Step>, w': World)
    requires Follows(w0, tr, w, next) && Inv(w) && IdleAt(w, c) && c != t
    requires BusyAt(w, t) && w.threads[t].st == Got && w.threads[t].m.meta.id == id
    ensures Follows(w0, tr', w', next) && Inv(w') && Grow(w, w') && IsRunning(w', id, c, t)
  {
    assert PcOk(w, t, w.threads[t]);
    hide Inv, Grow, Follows, PcOk;
    tr', w' := Take(w0, tr, w, next, Work(t, Process(Fine)));
  }

  lemma SaveAndReturn(w0: World, tr: seq<Step>, w: World, next: Next, id: Id, c: nat, t: nat)
    returns (tr': seq<Step>, w': World)
    requires Follows(w0, tr, w, next) && Inv(w) && IsRunning(w, id, c, t)
    ensures Follows(w0, tr', w', next) && Inv(w') && Grow(w, w') && Spawns(w', id, c, t, 0)
  {
    hide Inv, Grow, Follows;
    tr', w' := Take(w0, tr, w, next, Save(id, ""));
    var v := w';
    assert IsRunning(v, id, c, t) && v.rows[id].saved.Some?;
    tr', w' := Take(w0, tr', w', next, Work(t, Finish(Returned)));
    GrowIsTransitive(w, v, w');
  }

  /** Thread t is about to call the store (or, once `written`, the broker) for follower k of job id. */
  predicate Enqueues(w: World, id: Id, c: nat, t: nat, k: nat, written: bool) {
    && EnqueueingAt(w, t, written) && w.threads[t].ctx.Parent? && w.threads[t].ctx.ok && w.threads[t].ctx.k == k
    && w.threads[t].ctx.m.meta.id == id && w.threads[t].ctx.m.job == w.rows[id].h.job
    && w.threads[t].c.meta.id != id && w.rows[id].saved.Some? && IdleAt(w, c) && c != t
    && w.rows[id].h.kids != []
    && (if k == 0 then w.rows[id].h.kids[0] == w.threads[t].c.meta.id
        else FirstWaits(w, id) && w.rows[id].h.kids[0] != w.threads[t].c.meta.id)
  }

  lemma KidIsBegun(w: World, id: Id, c: nat, t: nat, k: nat, kid: Id, cron: Cron)
    requires Spawns(w, id, c, t, k) && CanKidBegin(w, t, kid, cron) && kid !in w.rows
    requires if k > 0 then FirstWaits(w, id) else w.rows[id].h.kids == []
    ensures Enqueues(DoKidBegin(w, t, kid, cron), id, c, t, k, false)
  {
  }

  lemma BeginKid(w0: World, tr: seq<Step>, w: World, next: Next, id: Id, c: nat, t: nat, k: nat)
    returns (tr': seq<Step>, w': World)
    requires Follows(w0, tr, w, next) && Inv(w) && IsNext(next) && Spawns(w, id, c, t, k)
    requires k < |w.rows[id].h.job.onSuccess| && w.rows[id].h.job.onSuccess[k].opts.id.None?
    requires if k > 0 then FirstWaits(w, id) else w.rows[id].h.kids == []
    ensures Follows(w0, tr', w', next) && Inv(w') && Grow(w, w') && Enqueues(w', id, c, t, k, false)
  {
    SomeIdIsFree(w.rows.Keys);
    var kid: Id :| kid !in w.rows;
    hide Inv, Grow, Follows, StepAnswers, CanKidBegin, DoKidBegin, FirstWaits, Enqueues, CronFor;
    var cron := CronFor(next, w.rows[id].h.job.onSuccess[k]);
    KidIsBegun(w, id, c, t, k, kid, cron);
    tr', w' := Take(w0, tr, w, next, KidBegin(t, kid, cron));
  }

  lemma WriteKid(w0: World, tr: seq<Step>, w: World, next: Next, id: Id, c: nat, t: nat, k: nat)
    returns (tr': seq<Step>, w': World)
    requires Follows(w0, tr, w, next) && Inv(w) && Enqueues(w, id, c, t, k, false)
    ensures Follows(w0, tr', w', next) && Inv(w') && Grow(w, w') && Enqueues(w', id, c, t, k, true)
  {
    hide Inv, Grow, Follows;
    tr', w' := Take(w0, tr, w, next, Write(t, Fine));
  }

  lemma PushKid(w0: World, tr: seq<Step>, w: World, next: Next, id: Id, c: nat, t: nat, k: nat)
    returns (tr': seq<Step>, w': World)
    requires Follows(w0, tr, w, next) && Inv(w) && Enqueues(w, id, c, t, k, true)
    ensures Follows(w0, tr', w', next) && Inv(w') && Grow(w, w')
    ensures Spawns(w', id, c, t, k + 1) && FirstWaits(w', id)
  {
    hide Inv, Grow, Follows;
    tr', w' := Take(w0, tr, w, next, Push(t, Fine));
  }

  lemma SpawnOne(w0: World, tr: seq<Step>, w: World, next: Next, id: Id, c: nat, t: nat, k: nat)
    returns (tr': seq<Step>, w': World)
    requires Follows(w0, tr, w, next) && Inv(w) && IsNext(next) && Spawns(w, id, c, t, k)
    requires k < |w.rows[id].h.job.onSuccess| && w.rows[id].h.job.onSuccess[k].opts.id.None?
    requires if k > 0 then FirstWaits(w, id) else w.rows[id].h.kids == []
    ensures Follows(w0, tr', w', next) && Inv(w') && Grow(w, w') && Spawns(w', id, c, t, k + 1) && FirstWaits(w', id)
  {
    hide Inv, Grow, Follows;
    var tr1, w1 := BeginKid(w0, tr, w, next, id, c, t, k);
    var tr2, w2 := WriteKid(w0, tr1, w1, next, id, c, t, k);
    GrowIsTransitive(w, w1, w2);
    tr', w' := PushKid(w0, tr2, w2, next, id, c, t, k);
    GrowIsTransitive(w, w2, w');
  }

  lemma SpawnAll(w0: World, tr: seq<Step>, w: World, next: Next, id: Id, c: nat, t: nat)
    returns (tr': seq<Step>, w': World)
    requires Follows(w0, tr, w, next) && Inv(w) && IsNext(next) && Spawns(w, id, c, t, 0)
    requires w.rows[id].h.job.onSuccess != [] && Unnamed(w.rows[id].h.job)
    ensures Follows(w0, tr', w', next) && Inv(w') && Grow(w, w') && FirstWaits(w', id)
    ensures Spawns(w', id, c, t, |w'.rows[id].h.job.onSuccess|)
  {
    tr', w' := tr, w;
    var n := |w.rows[id].h.job.onSuccess|;
    assert PcOk(w, t, w.threads[t]);
    hide Inv, Follows;
    for k := 0 to n
      invariant Follows(w0, tr', w', next) && Inv(w') && Grow(w, w') && Spawns(w', id, c, t, k)
      invariant if k > 0 then FirstWaits(w', id) else w'.rows[id].h.kids == []
    {
      assert RowGrow(w.rows[id], w'.rows[id]);
      var v := w';
      tr', w' := SpawnOne(w0, tr', w', next, id, c, t, k);
      GrowIsTransitive(w, v, w');
    }
    assert RowGrow(w.rows[id], w'.rows[id]);
  }

  /** The index entry, before the final record. */
  predicate Closes(w: World, id: Id, c: nat, t: nat) {
    && BusyAt(w, t) && w.threads[t].st == Closing(true) && w.threads[t].m.meta.id == id && IdleAt(w, c)
    && FirstWaits(w, id) && w.rows[id].h.kids[0] != id && w.rows[id].h.verdict == Some(true)
  }

  lemma IndexWrites(w: World, id: Id, c: nat, t: nat)
    requires FirstWaits(w, id) && Spawns(w, id, c, t, |w.rows[id].h.job.onSuccess|) && PcOk(w, t, w.threads[t])
    ensures CanWork(w, t, Index(Fine)) && Closes(DoWork(w, t, Index(Fine)), id, c, t)
  {
  }

  lemma IndexSuccess(w0: World, tr: seq<Step>, w: World, next: Next, id: Id, c: nat, t: nat)
    returns (tr': seq<Step>, w': World)
    requires Follows(w0, tr, w, next) && Inv(w) && FirstWaits(w, id)
    requires Spawns(w, id, c, t, |w.rows[id].h.job.onSuccess|)
    ensures Follows(w0, tr', w', next) && Inv(w') && Grow(w, w') && Closes(w', id, c, t)
  {
    assert PcOk(w, t, w.threads[t]);
    IndexWrites(w, id, c, t);
    hide Inv, Grow, Follows, PcOk, Closes, DoWork, ActOn, CanWork, FirstWaits;
    tr', w' := Take(w0, tr, w, next, Work(t, Index(Fine)));
  }

  lemma RecordSuccess(w0: World, tr: seq<Step>, w: World, next: Next, id: Id, c: nat, t: nat)
    returns (tr': seq<Step>, w': World)
    requires Follows(w0, tr, w, next) && Inv(w) && Closes(w, id, c, t)
    ensures Follows(w0, tr', w', next) && Inv(w') && Grow(w, w') && IdleAt(w', c) && IdleAt(w', t)
    ensures FirstWaits(w', id) && w'.rows[id].h.at == Ended && w'.rows[id].h.verdict == Some(true)
  {
    hide Inv, Grow, Follows;
    tr', w' := Take(w0, tr, w, next, Work(t, Close(Fine)));
  }

  /** From a waiting job to its first follower, waiting, with a link between the two. */
  lemma Succeed(w0: World, tr: seq<Step>, w: World, next: Next, id: Id, c: nat, t: nat)
    returns (tr': seq<Step>, w': World)
    requires Follows(w0, tr, w, next) && Inv(w) && IsNext(next) && Waits(w, id, c, t)
    requires w.rows[id].h.job.onSuccess != [] && Unnamed(w.rows[id].h.job)
    ensures Follows(w0, tr', w', next) && Inv(w') && Grow(w, w')
    ensures HasLink(w', id) && Waits(w', Link(w', id), c, t)
  {
    var tr1, w1, k := Due(w0, tr, w, next, id, c, t);
    var tr2, w2 := Fetch(w0, tr1, w1, next, id, k, c, t);
    GrowIsTransitive(w, w1, w2);
    var tr3, w3 := Start(w0, tr2, w2, next, id, c, t);
    GrowIsTransitive(w, w2, w3);
    var tr4, w4 := SaveAndReturn(w0, tr3, w3, next, id, c, t);
    GrowIsTransitive(w, w3, w4);
    assert RowGrow(w.rows[id], w4.rows[id]);
    tr', w' := SucceedFrom(w0, tr4, w4, next, id, c, t);
    GrowIsTransitive(w, w4, w');
  }

  lemma SucceedFrom(w0: World, tr: seq<Step>, w: World, next: Next, id: Id, c: nat, t: nat)
    returns (tr': seq<Step>, w': World)
    requires Follows(w0, tr, w, next) && Inv(w) && IsNext(next) && Spawns(w, id, c, t, 0)
    requires w.rows[id].h.job.onSuccess != [] && Unnamed(w.rows[id].h.job)
    ensures Follows(w0, tr', w', next) && Inv(w') && Grow(w, w')
    ensures HasLink(w', id) && Waits(w', Link(w', id), c, t)
  {
    var tr1, w1 := SpawnAll(w0, tr, w, next, id, c, t);
    var tr2, w2 := IndexSuccess(w0, tr1, w1, next, id, c, t);
    GrowIsTransitive(w, w1, w2);
    tr', w' := RecordSuccess(w0, tr2, w2, next, id, c, t);
    GrowIsTransitive(w, w2, w');
    assert RowOk(w', id);
  }

  // ---------------------------------------------------------------- walks of any length

  /** Client c is about to call the store (or, once `written`, the broker) for a job it enqueues. */
  predicate Submits(w: World, id: Id, c: nat, t: nat, written: bool) {
    && EnqueueingAt(w, c, written) && w.threads[c].ctx.Client? && w.threads[c].c.meta.id == id
    && IdleAt(w, t) && c != t && (written ==> Known(w, id))
  }

  lemma ClientIsReady(w0: World, next: Next, c: nat, t: nat, job: Job, id: Id)
    requires Init(w0) && c in w0.threads && t in w0.threads && c != t && job.opts.id.None? && IsNext(next)
    ensures var s := ClientBegin(c, job, id, CronFor(next, job));
            && Enabled(w0, s) && StepAnswers(w0, s, next) && Submits(Apply(w0, s), id, c, t, false)
            && PreparedFrom(Apply(w0, s).rows[id].h.job, job)
  {
    PrepareIsPreparedFrom(job, CronFor(next, job));
  }

  lemma ClientWrites(w: World, id: Id, c: nat, t: nat)
    requires Submits(w, id, c, t, false)
    ensures CanWrite(w, c) && Submits(DoWrite(w, c, Fine), id, c, t, true)
    ensures DoWrite(w, c, Fine).rows[id].h.job == w.rows[id].h.job
  {
  }

  lemma ClientPushes(w: World, id: Id, c: nat, t: nat)
    requires Submits(w, id, c, t, true)
    ensures CanPush(w, c) && Waits(DoPush(w, c, Fine), id, c, t) && Known(DoPush(w, c, Fine), id)
    ensures DoPush(w, c, Fine).rows[id].h.job == w.rows[id].h.job
  {
  }

  lemma Submit(w0: World, next: Next, c: nat, t: nat, job: Job, id: Id) returns (tr: seq<Step>, w: World)
    requires Init(w0) && c in w0.threads && t in w0.threads && c != t && job.opts.id.None? && IsNext(next)
    ensures Follows(w0, tr, w, next) && Inv(w) && Waits(w, id, c, t) && Known(w, id)
    ensures PreparedFrom(w.rows[id].h.job, job)
  {
    assert Follows(w0, [], w0, next);
    InitHolds(w0);
    ClientIsReady(w0, next, c, t, job, id);
    hide Inv, Grow, Follows, PreparedFrom, Submits, Waits, CanWrite, DoWrite, CanPush, DoPush;
    tr, w := Take(w0, [], w0, next, ClientBegin(c, job, id, CronFor(next, job)));
    ClientWrites(w, id, c, t);
    tr, w := Take(w0, tr, w, next, Write(c, Fine));
    ClientPushes(w, id, c, t);
    tr, w := Take(w0, tr, w, next, Push(c, Fine));
  }

  /** If the line of first OnSuccess jobs ends in a job with a schedule, and no job asks for an ID, a run can
      make the walk from the first job as long as you like. So no number of lookups is enough. */
  lemma WalksOfAnyLength(w0: World, next: Next, c: nat, t: nat, job: Job, id: Id, n: nat)
    returns (tr: seq<Step>, w: World, done: seq<Id>, at: Id)
    requires Init(w0) && c in w0.threads && t in w0.threads && c != t && IsNext(next)
    requires Unnamed(job) && !EndsUnscheduled(job)
    ensures Follows(w0, tr, w, next) && Known(w, id) && PreparedFrom(w.rows[id].h.job, job)
    ensures Path(w, id, done, at) && |done| == n
  {
    tr, w := Submit(w0, next, c, t, job, id);
    done, at := [], id;
    RunKeepsTimed(w0, tr, w, next);
    PreparedGoesOn(w.rows[id].h.job, job, next);
    for i := 0 to n
      invariant Follows(w0, tr, w, next) && Inv(w) && Known(w, id) && PreparedFrom(w.rows[id].h.job, job)
      invariant Path(w, id, done, at) && |done| == i && Waits(w, at, c, t)
      invariant w.rows[at].h.job.onSuccess != [] && Unnamed(w.rows[at].h.job)
      invariant Unnamed(w.rows[at].h.job.onSuccess[0]) && !EndsUnscheduled(w.rows[at].h.job.onSuccess[0])
    {
      tr, w, done, at := WalkOneOn(w0, tr, w, next, id, done, at, c, t);
    }
  }

  lemma WalkOneOn(w0: World, tr: seq<Step>, w: World, next: Next, id: Id, done: seq<Id>, at: Id, c: nat, t: nat)
    returns (tr': seq<Step>, w': World, done': seq<Id>, at': Id)
    requires Follows(w0, tr, w, next) && Inv(w) && Known(w, id) && IsNext(next)
    requires Path(w, id, done, at) && Waits(w, at, c, t)
    requires w.rows[at].h.job.onSuccess != [] && Unnamed(w.rows[at].h.job)
    requires Unnamed(w.rows[at].h.job.onSuccess[0]) && !EndsUnscheduled(w.rows[at].h.job.onSuccess[0])
    ensures Follows(w0, tr', w', next) && Inv(w') && Known(w', id) && w'.rows[id].h.job == w.rows[id].h.job
    ensures Path(w', id, done', at') && |done'| == |done| + 1 && Waits(w', at', c, t)
    ensures w'.rows[at'].h.job.onSuccess != [] && Unnamed(w'.rows[at'].h.job)
    ensures Unnamed(w'.rows[at'].h.job.onSuccess[0]) && !EndsUnscheduled(w'.rows[at'].h.job.onSuccess[0])
  {
    tr', w' := Succeed(w0, tr, w, next, at, c, t);
    GrowKeepsFinal(w, w', id);
    assert RowGrow(w.rows[id], w'.rows[id]) && RowGrow(w.rows[at], w'.rows[at]);
    PathStays(w, w', id, done, at);
    PathExtends(w', id, done, at);
    LinkLeadsOn(w', at);
    done', at' := done + [at], Link(w', at);
    RunKeepsTimed(w0, tr', w', next);
    PreparedGoesOn(w'.rows[at'].h.job, w'.rows[at].h.job.onSuccess[0], next);
  }

  /** No walk from job id, enqueued as `job`, passes b jobs in any state of any run. */
  ghost predicate WalksWithin(w0: World, next: Next, job: Job, id: Id, b: nat) {
    forall tr, w, done, at ::
      Follows(w0, tr, w, next) && Known(w, id) && PreparedFrom(w.rows[id].h.job, job) && Path(w, id, done, at) ==>
        |done| < b
  }

  /** So there is a bound on GetChain's lookups if and only if that line ends in a job without a schedule. */
  lemma BoundedIffEndsUnscheduled(w0: World, next: Next, c: nat, t: nat, job: Job, id: Id)
    requires Init(w0) && c in w0.threads && t in w0.threads && c != t && IsNext(next) && Unnamed(job)
    ensures (exists b: nat :: WalksWithin(w0, next, job, id, b)) <==> EndsUnscheduled(job)
  {
    if EndsUnscheduled(job) {
      forall tr, w, done, at | Follows(w0, tr, w, next) && Known(w, id) && PreparedFrom(w.rows[id].h.job, job)
                               && Path(w, id, done, at)
        ensures |done| < Depth(job)
      {
        ReachableInv(w0, tr, w);
        PreparedEndsAlike(w.rows[id].h.job, job);
        WalkIsShort(w, id, done, at);
      }
      assert WalksWithin(w0, next, job, id, Depth(job));
    } else if b: nat :| WalksWithin(w0, next, job, id, b) {
      var tr, w, done, at := WalksOfAnyLength(w0, next, c, t, job, id, b);
    }
  }
}
