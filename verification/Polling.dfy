/** What GetGroup and GetChain should answer at one moment, and how that moment's answer can change. */
module Polling {
  import opened Jobs
  import opened Protocol
  import opened Invariant
  import opened Preservation
  import opened Lifecycle

  /** Job id has a record: it was accepted. */
  predicate Known(w: World, id: Id) {
    id in w.rows && w.rows[id].rec.Some?
  }

  function StatusNow(w: World, id: Id): Status
    requires Known(w, id)
  {
    w.rows[id].rec.value.meta.status
  }

  /** A step of the system only ever moves a job towards its final status, and there it stays. */
  lemma GrowKeepsFinal(w: World, w': World, id: Id)
    requires Inv(w) && Grow(w, w') && Known(w, id)
    ensures Known(w', id)
    ensures IsFinal(StatusNow(w, id)) ==> w'.rows[id].rec == w.rows[id].rec
  {
    assert RowOk(w, id);
    assert RowGrow(w.rows[id], w'.rows[id]);
  }

  lemma GrowIsTransitive(w: World, v: World, u: World)
    requires Grow(w, v) && Grow(v, u)
    ensures Grow(w, u)
  {
    forall id | id in w.rows
      ensures id in u.rows && RowGrow(w.rows[id], u.rows[id])
    {
      assert RowGrow(w.rows[id], v.rows[id]) && RowGrow(v.rows[id], u.rows[id]);
    }
  }

  // ---------------------------------------------------------------- groups

  datatype GroupMsg = GroupMsg(id: Id, status: Status, jobStatus: map<Id, Status>)

  /** Failed if any job failed, successful if all are, else processing. */
  function Summary(js: map<Id, Status>): (s: Status)
    ensures s == Failed <==> exists id :: id in js && js[id] == Failed
    ensures s == Successful <==> forall id | id in js :: js[id] == Successful
    ensures s in {Failed, Successful, Processing}
  {
    if exists id | id in js :: js[id] == Failed then Failed
    else if forall id | id in js :: js[id] == Successful then Successful
    else Processing
  }

  /** The status of every job, looked up now. */
  function StatusesNow(w: World, ids: set<Id>): map<Id, Status>
    requires forall id | id in ids :: Known(w, id)
  {
    map id | id in ids :: StatusNow(w, id)
  }

  /** The group status recomputed from scratch. */
  function NaiveGroup(w: World, ids: set<Id>): Status
    requires forall id | id in ids :: Known(w, id)
  {
    Summary(StatusesNow(w, ids))
  }

  /** What that means for the jobs' records. */
  lemma NaiveGroupMeans(w: World, ids: set<Id>)
    requires forall id | id in ids :: Known(w, id)
    ensures NaiveGroup(w, ids) == Failed <==> exists id | id in ids :: StatusNow(w, id) == Failed
    ensures NaiveGroup(w, ids) == Successful <==> forall id | id in ids :: StatusNow(w, id) == Successful
    ensures NaiveGroup(w, ids) in {Failed, Successful, Processing}
  {
    var js := StatusesNow(w, ids);
    if id :| id in ids && StatusNow(w, id) == Failed { assert js[id] == Failed; }
    if forall id | id in js :: js[id] == Successful {
      forall id | id in ids ensures StatusNow(w, id) == Successful { assert id in js; }
    }
  }

  /** Cached statuses: the jobs exist, and those with a final status have it. */
  predicate CachedOk(w: World, js: map<Id, Status>) {
    forall id | id in js :: Known(w, id) && (IsFinal(js[id]) ==> StatusNow(w, id) == js[id])
  }

  lemma CachedStays(w: World, w': World, js: map<Id, Status>)
    requires Inv(w) && Grow(w, w') && CachedOk(w, js)
    ensures CachedOk(w', js)
  {
    forall id | id in js
      ensures Known(w', id) && (IsFinal(js[id]) ==> StatusNow(w', id) == js[id])
    {
      GrowKeepsFinal(w, w', id);
    }
  }

  /** A stored group message: its jobs exist, and whatever it says is final is so. */
  predicate Credible(w: World, g: GroupMsg) {
    CachedOk(w, g.jobStatus)
    && (IsFinal(g.status) ==> NaiveGroup(w, g.jobStatus.Keys) == g.status)
  }

  /** Final statuses of the first map are kept by the second. */
  predicate Refines(a: map<Id, Status>, b: map<Id, Status>) {
    a.Keys == b.Keys && forall id | id in a && IsFinal(a[id]) :: b[id] == a[id]
  }

  /** The summary of looked-up statuses lies between the naive answers before and after the lookups, if
      each status lies between the job's statuses then. */
  lemma SummaryBetween(w: World, w': World, ids: set<Id>, js: map<Id, Status>)
    requires js.Keys == ids && forall id | id in ids :: Known(w, id) && Known(w', id)
    requires forall id | id in ids && IsFinal(js[id]) :: StatusNow(w', id) == js[id]
    requires forall id | id in ids && IsFinal(StatusNow(w, id)) :: js[id] == StatusNow(w, id)
    ensures IsFinal(NaiveGroup(w, ids)) ==> Summary(js) == NaiveGroup(w, ids)
    ensures IsFinal(Summary(js)) ==> NaiveGroup(w', ids) == Summary(js)
  {
    assert StatusesNow(w, ids).Keys == ids == StatusesNow(w', ids).Keys;
    assert Refines(StatusesNow(w, ids), js);
    assert Refines(js, StatusesNow(w', ids));
  }

  /** A final group status is final: it is never contradicted later. */
  lemma NaiveGroupStays(w: World, w': World, ids: set<Id>)
    requires Inv(w) && Grow(w, w') && forall id | id in ids :: Known(w, id)
    ensures forall id | id in ids :: Known(w', id)
    ensures IsFinal(NaiveGroup(w, ids)) ==> NaiveGroup(w', ids) == NaiveGroup(w, ids)
  {
    forall id | id in ids
      ensures Known(w', id) && (IsFinal(StatusNow(w, id)) ==> StatusNow(w', id) == StatusNow(w, id))
    {
      GrowKeepsFinal(w, w', id);
    }
    SummaryBetween(w, w', ids, StatusesNow(w, ids));
  }

  lemma CredibleStays(w: World, w': World, g: GroupMsg)
    requires Inv(w) && Grow(w, w') && Credible(w, g)
    ensures Credible(w', g)
  {
    CachedStays(w, w', g.jobStatus);
    NaiveGroupStays(w, w', g.jobStatus.Keys);
  }

  // ---------------------------------------------------------------- chains

  datatype ChainMsg = ChainMsg(id: Id, status: Status, jobID: Id, prevJobs: seq<Id>)

  /** The link a chain walk follows: from a successful job to the first of its OnSuccess jobs. */
  predicate HasLink(w: World, id: Id) {
    Known(w, id) && StatusNow(w, id) == Successful && w.rows[id].rec.value.meta.onSuccessIDs != []
  }

  function Link(w: World, id: Id): Id
    requires HasLink(w, id)
  {
    w.rows[id].rec.value.meta.onSuccessIDs[0]
  }

  /** Every link leads to a job that has a record, was created later, and is the first OnSuccess job. */
  lemma LinkLeadsOn(w: World, id: Id)
    requires Inv(w) && HasLink(w, id)
    ensures Known(w, Link(w, id)) && w.rows[id].h.born < w.rows[Link(w, id)].h.born < w.clock
    ensures w.rows[Link(w, id)].h.parent == Some(id) && w.rows[Link(w, id)].h.slot == 0
    ensures w.rows[id].h.job.onSuccess != []
    ensures PreparedFrom(w.rows[Link(w, id)].h.job, w.rows[id].h.job.onSuccess[0])
  {
    assert RowOk(w, id);
    assert w.rows[id].h.at.Ended?;
    assert w.rows[id].h.kids[0] == Link(w, id);
    assert Pushed(w, w.rows[id].h.kids[0]);
    assert KidLink(w, id, w.rows[id].h.kids[0], 0);
    assert RowOk(w, Link(w, id));
  }

  datatype Answer = Answer(status: Status, done: seq<Id>)

  /** The chain status and the finished jobs, recomputed from the first job: the jobs done so far in
      order, with the one that failed, if any, as the last. */
  function NaiveChain(w: World, id: Id): (a: Answer)
    requires Inv(w) && Known(w, id)
    ensures a.status in {Failed, Successful, Processing}
    decreases w.clock - w.rows[id].h.born
  {
    assert RowOk(w, id);
    if StatusNow(w, id) == Failed then Answer(Failed, [id])
    else if StatusNow(w, id) != Successful then Answer(Processing, [])
    else if !HasLink(w, id) then Answer(Successful, [id])
    else
      LinkLeadsOn(w, id);
      var rest := NaiveChain(w, Link(w, id));
      Answer(rest.status, [id] + rest.done)
  }

  /** The done jobs of a chain only grow, and a final answer never changes. */
  lemma {:induction false} NaiveChainGrows(w: World, w': World, id: Id)
    requires Inv(w) && Inv(w') && Grow(w, w') && Known(w, id)
    ensures Known(w', id) && NaiveChain(w, id).done <= NaiveChain(w', id).done
    ensures IsFinal(NaiveChain(w, id).status) ==> NaiveChain(w', id) == NaiveChain(w, id)
    decreases w.clock - w.rows[id].h.born
  {
    assert RowOk(w, id);
    GrowKeepsFinal(w, w', id);
    if HasLink(w, id) {
      LinkLeadsOn(w, id);
      NaiveChainGrows(w, w', Link(w, id));
    }
  }

  /** The walk from `first` has passed the jobs `done`, all successful, and stands at `at`. */
  ghost predicate Path(w: World, first: Id, done: seq<Id>, at: Id)
    decreases |done|
  {
    if done == [] then first == at
    else done[0] == first && HasLink(w, first) && Path(w, Link(w, first), done[1..], at)
  }

  lemma {:induction false} PathIsWalked(w: World, first: Id, done: seq<Id>, at: Id)
    requires Inv(w) && Known(w, first) && Path(w, first, done, at)
    ensures Known(w, at)
    ensures NaiveChain(w, first) == Answer(NaiveChain(w, at).status, done + NaiveChain(w, at).done)
    decreases |done|
  {
    if done == [] {
      assert done + NaiveChain(w, at).done == NaiveChain(w, at).done;
    } else {
      LinkLeadsOn(w, first);
      PathIsWalked(w, Link(w, first), done[1..], at);
      assert [first] + (done[1..] + NaiveChain(w, at).done) == done + NaiveChain(w, at).done;
    }
  }

  lemma OneBefore(id: Id, rest: seq<Id>)
    ensures ([id] + rest)[0] == id && ([id] + rest)[1..] == rest
    ensures rest != [] ==> ([id] + rest)[..|[id] + rest| - 1] == [id] + rest[..|rest| - 1]
                           && ([id] + rest[..|rest| - 1])[1..] == rest[..|rest| - 1]
                           && ([id] + rest)[|[id] + rest| - 1] == rest[|rest| - 1]
  {
  }

  /** Where the answer comes from: from the first job, over successful jobs only, each the first OnSuccess
      job of the one before, to a job that failed, that was the last, or that has no final status yet. */
  lemma {:induction false} NaiveChainStandsAt(w: World, id: Id) returns (at: Id)
    requires Inv(w) && Known(w, id)
    ensures Known(w, at)
    ensures var a := NaiveChain(w, id);
            match StatusNow(w, at)
            case Failed => a.status == Failed && a.done != [] && a.done[|a.done| - 1] == at
                           && Path(w, id, a.done[..|a.done| - 1], at)
            case Successful => a.status == Successful && a.done != [] && a.done[|a.done| - 1] == at
                               && Path(w, id, a.done[..|a.done| - 1], at)
                               && w.rows[at].rec.value.meta.onSuccessIDs == []
            case _ => a.status == Processing && Path(w, id, a.done, at)
    decreases w.clock - w.rows[id].h.born
  {
    assert RowOk(w, id);
    if HasLink(w, id) {
      LinkLeadsOn(w, id);
      at := NaiveChainStandsAt(w, Link(w, id));
      var rest := NaiveChain(w, Link(w, id)).done;
      assert NaiveChain(w, id).done == [id] + rest && StatusNow(w, id) == Successful;
      hide Inv, NaiveChain, RowOk;
      OneBefore(id, rest);
    } else {
      at := id;
      assert [id][..0] == [];
    }
  }

  lemma {:induction false} PathStays(w: World, w': World, first: Id, done: seq<Id>, at: Id)
    requires Inv(w) && Grow(w, w') && Known(w, first) && Path(w, first, done, at)
    ensures Path(w', first, done, at)
    decreases |done|
  {
    if done != [] {
      LinkLeadsOn(w, first);
      GrowKeepsFinal(w, w', first);
      PathStays(w, w', Link(w, first), done[1..], at);
    }
  }

  lemma {:induction false} PathExtends(w: World, first: Id, done: seq<Id>, at: Id)
    requires Inv(w) && Known(w, first) && Path(w, first, done, at) && HasLink(w, at)
    ensures Path(w, first, done + [at], Link(w, at))
    decreases |done|
  {
    if done != [] {
      LinkLeadsOn(w, first);
      PathExtends(w, Link(w, first), done[1..], at);
      assert (done + [at])[1..] == done[1..] + [at];
    }
  }

  /** The jobs on a walk along first OnSuccess jobs, as long as none is added. */
  function Depth(j: Job): (d: nat)
    ensures d > 0
  {
    if j.onSuccess == [] then 1 else 1 + Depth(j.onSuccess[0])
  }

  /** The last of them has no schedule, so that none is added. */
  predicate EndsUnscheduled(j: Job) {
    if j.onSuccess == [] then j.opts.schedule == "" else EndsUnscheduled(j.onSuccess[0])
  }

  lemma PreparedEndsAlike(j': Job, j: Job)
    requires PreparedFrom(j', j) && EndsUnscheduled(j)
    ensures EndsUnscheduled(j') && Depth(j') == Depth(j)
  {
    if j.opts.schedule != "" {
      assert j'.onSuccess[0] == j'.onSuccess[..|j.onSuccess|][0];
    }
  }

  /** Then no walk is longer, in any state. */
  lemma {:induction false} WalkIsShort(w: World, first: Id, done: seq<Id>, at: Id)
    requires Inv(w) && Known(w, first) && Path(w, first, done, at) && EndsUnscheduled(w.rows[first].h.job)
    ensures |done| < Depth(w.rows[first].h.job)
    decreases |done|
  {
    if done != [] {
      LinkLeadsOn(w, first);
      PreparedEndsAlike(w.rows[Link(w, first)].h.job, w.rows[first].h.job.onSuccess[0]);
      WalkIsShort(w, Link(w, first), done[1..], at);
    }
  }

  /** A stored chain message: its first job exists, and a final status is right. */
  predicate ChainOk(w: World, c: ChainMsg)
    requires Inv(w)
  {
    && Known(w, c.jobID)
    && (IsFinal(c.status) ==> NaiveChain(w, c.jobID).status == c.status)
  }

  lemma ChainStays(w: World, w': World, c: ChainMsg)
    requires Inv(w) && Inv(w') && Grow(w, w') && ChainOk(w, c)
    ensures ChainOk(w', c)
  {
    NaiveChainGrows(w, w', c.jobID);
    assert RowGrow(w.rows[c.jobID], w'.rows[c.jobID]);
  }

  // ---------------------------------------------------------------- what a chain's answer means

  /** The first job of a chain as NewChain links it: each job's OnSuccess list ends with the next. */
  function Chained(js: seq<Job>): Job
    requires js != []
  {
    if |js| == 1 then js[0] else js[0].(onSuccess := js[0].onSuccess + [Chained(js[1..])])
  }

  /** Jobs fit for a chain carry neither OnSuccess jobs nor a schedule. */
  predicate ChainInputs(js: seq<Job>) {
    forall i | 0 <= i < |js| :: js[i].onSuccess == [] && js[i].opts.schedule == ""
  }

  /** Only then does the link that GetChain follows lead to the next job of the chain: from a job that had
      OnSuccess jobs of its own it leads to the first of those. */
  lemma LinkFollowsChain(w: World, id: Id, js: seq<Job>)
    requires Inv(w) && HasLink(w, id) && |js| >= 2 && w.rows[id].h.job == Chained(js)
    ensures Known(w, Link(w, id))
    ensures PreparedFrom(w.rows[Link(w, id)].h.job,
                         if js[0].onSuccess == [] then Chained(js[1..]) else js[0].onSuccess[0])
  {
    LinkLeadsOn(w, id);
  }

  /** The answer a about a chain of jobs js whose first job is id: the done jobs are the first of js in
      order, all successful but for a last one that failed. */
  ghost predicate DoneArePrefix(w: World, js: seq<Job>, a: Answer) {
    && |a.done| <= |js|
    && (forall i | 0 <= i < |a.done| :: Known(w, a.done[i]) && w.rows[a.done[i]].h.job == Chained(js[i..]))
    && (forall i | 0 <= i < |a.done| ::
          StatusNow(w, a.done[i]) == if a.status == Failed && i == |a.done| - 1 then Failed else Successful)
    && (a.status == Successful ==> |a.done| == |js|)
    && (a.status == Failed ==> |a.done| > 0)
  }

  /** The next job of the chain exists and has no final status yet. */
  ghost predicate NextIsPending(w: World, id: Id, js: seq<Job>, a: Answer) {
    |a.done| < |js| &&
    exists next :: Path(w, id, a.done, next) && Known(w, next)
                   && w.rows[next].h.job == Chained(js[|a.done|..]) && !IsFinal(StatusNow(w, next))
  }

  lemma DoneExtends(w: World, id: Id, js: seq<Job>, rest: Answer)
    requires |js| > 1 && DoneArePrefix(w, js[1..], rest)
    requires Known(w, id) && w.rows[id].h.job == Chained(js) && StatusNow(w, id) == Successful
    ensures DoneArePrefix(w, js, Answer(rest.status, [id] + rest.done))
  {
    assert js[0..] == js;
    forall i | 0 <= i < |rest.done|
      ensures js[1..][i..] == js[i + 1..]
    {
    }
  }

  /** Successful means all n jobs are; failed means a prefix is and the next job failed; processing means a
      prefix is and the next job, which exists, has no final status yet. */
  lemma {:induction false} NaiveChainMeans(w: World, id: Id, js: seq<Job>)
    requires Inv(w) && Known(w, id) && js != [] && ChainInputs(js) && w.rows[id].h.job == Chained(js)
    ensures DoneArePrefix(w, js, NaiveChain(w, id))
    ensures !IsFinal(NaiveChain(w, id).status) ==> NextIsPending(w, id, js, NaiveChain(w, id))
    decreases |js|
  {
    assert RowOk(w, id);
    assert js[0..] == js;
    if !IsFinal(StatusNow(w, id)) {
      assert Path(w, id, [], id);
    } else if HasLink(w, id) {
      LinkLeadsOn(w, id);
      var next := Link(w, id);
      NaiveChainMeans(w, next, js[1..]);
      DoneExtends(w, id, js, NaiveChain(w, next));
      if !IsFinal(NaiveChain(w, next).status) {
      }
    } else if StatusNow(w, id) == Successful {
      assert w.rows[id].h.at.Ended?;
      assert |w.rows[id].h.kids| == |w.rows[id].h.job.onSuccess|;
    }
  }

  // ---------------------------------------------------------------- succession

  /** Job c is number i of the chain that starts with job `first`. */
  ghost predicate IsNumber(w: World, first: Id, i: nat, c: Id) {
    if i == 0 then c == first && first in w.rows
    else exists p :: IsNumber(w, first, i - 1, p) && IsSuccessor(w, p, c)
  }

  predicate IsSuccessor(w: World, p: Id, c: Id) {
    && p in w.rows && c in w.rows && w.rows[c].h.parent == Some(p) && w.rows[c].h.slot == 0
    && w.rows[p].h.verdict == Some(true)
  }

  /** In any run, number i of a chain is the i-th job of its list. */
  lemma {:induction false} NumberIsJob(w0: World, tr: seq<Step>, w: World, first: Id, js: seq<Job>, i: nat, c: Id)
    requires Reachable(w0, tr, w) && js != [] && ChainInputs(js)
    requires first in w.rows && w.rows[first].h.job == Chained(js) && IsNumber(w, first, i, c)
    ensures i < |js| && c in w.rows && w.rows[c].h.job == Chained(js[i..])
  {
    assert js[0..] == js;
    if i > 0 {
      var p :| IsNumber(w, first, i - 1, p) && IsSuccessor(w, p, c);
      NumberIsJob(w0, tr, w, first, js, i - 1, p);
      FollowerComesAfter(w0, tr, w, c);
      assert js[i - 1..][1..] == js[i..];
    }
  }

  /** At most one job is created for each number. */
  lemma {:induction false} NumberIsUnique(w0: World, tr: seq<Step>, w: World, first: Id, i: nat, c: Id, d: Id)
    requires Reachable(w0, tr, w) && IsNumber(w, first, i, c) && IsNumber(w, first, i, d)
    ensures c == d
  {
    if i > 0 {
      var p :| IsNumber(w, first, i - 1, p) && IsSuccessor(w, p, c);
      var q :| IsNumber(w, first, i - 1, q) && IsSuccessor(w, q, d);
      NumberIsUnique(w0, tr, w, first, i - 1, p, q);
      FollowerCreatedOnce(w0, tr, w, p, c, d);
    }
  }

  /** It is created only after its predecessor's run succeeded, with the bytes last saved under the
      predecessor's ID at that moment as its PrevJobResult. */
  lemma SuccessorGetsResult(w0: World, tr: seq<Step>, w: World, p: Id, c: Id) returns (i: nat)
    requires Reachable(w0, tr, w) && IsSuccessor(w, p, c)
    ensures Count(w0, tr, HandlerRun, p) == Count(w0, tr, HandlerError, p) + 1
    ensures w.rows[p].h.born < w.rows[c].h.born
    ensures EnqueuedAt(w0, tr, i, p, c) && LastSaved(tr[..i], p).Some?
    ensures w.rows[c].rec.Some? ==> w.rows[c].rec.value.meta.prevJobResult == LastSaved(tr[..i], p)
  {
    ReachableInv(w0, tr, w);
    FollowerComesAfter(w0, tr, w, c);
    assert RowOk(w, c) && RowOk(w, p);
    assert KidLink(w, p, w.rows[p].h.kids[0], 0);
    i := PrevWhenEnqueued(w0, tr, w, p, c);
  }

  /** Every OnSuccess descendant of the first job is some number of the chain, so the accepted jobs are a
      prefix of it. */
  lemma AcceptedArePrefix(w0: World, tr: seq<Step>, w: World, first: Id, js: seq<Job>, i: nat, p: Id, c: Id)
    requires Reachable(w0, tr, w) && js != [] && ChainInputs(js)
    requires first in w.rows && w.rows[first].h.job == Chained(js) && IsNumber(w, first, i, p)
    requires c in w.rows && w.rows[c].h.parent == Some(p) && p in w.rows && w.rows[p].h.verdict == Some(true)
    ensures i + 1 < |js| && IsNumber(w, first, i + 1, c)
  {
    NumberIsJob(w0, tr, w, first, js, i, p);
    FollowerComesAfter(w0, tr, w, c);
    assert IsSuccessor(w, p, c);
  }
}
