/** The server's own code over the shared store and broker. Between any two of its store or broker calls
    every other client, consumer, worker and poller may run. */
module Server {
  import opened Jobs
  import opened Protocol
  import opened Invariant
  import opened Preservation
  import opened Lifecycle
  import opened Polling
  import opened Runs

  /** Clash means that a client reused an ID, which is outside what the server is written for. */
  datatype Res<+T> = Ok(value: T) | Err | Clash

  /** Step s is taken by thread t. */
  predicate By(s: Step, t: nat) {
    match s
    case ClientBegin(u, _, _, _) => u == t
    case Write(u, _) => u == t
    case Push(u, _) => u == t
    case Receive(u, _, _) => u == t
    case Handoff(c, u) => c == t || u == t
    case Work(u, _) => u == t
    case Requeue(u, _) => u == t
    case KidBegin(u, _, _) => u == t
    case _ => false
  }

  lemma OthersLeaveMe(w: World, s: Step, t: nat)
    requires Ready(w, s) && !By(s, t) && t in w.threads
    ensures t in Apply(w, s).threads && Apply(w, s).threads[t] == w.threads[t]
  {
  }

  lemma ThreadIsOk(w: World, t: nat)
    requires Inv(w) && t in w.threads
    ensures PcOk(w, t, w.threads[t])
  {
  }

  /** A longer run from the same start takes nothing back. */
  lemma {:induction false} RunGrows(w: World, before: seq<Step>, tr: seq<Step>)
    requires Inv(w) && IsRun(w, tr) && before <= tr
    ensures IsRun(w, before) && Grow(After(w, before), After(w, tr))
    decreases |tr|
  {
    if before != tr {
      var init := tr[..|tr| - 1];
      RunGrows(w, before, init);
      RunKeeps(w, init);
      StepKeeps(After(w, init), tr[|tr| - 1]);
      GrowIsTransitive(After(w, before), After(w, init), After(w, tr));
    }
  }

  /** Step s is in the log at position `from` or later. */
  predicate Took(log: seq<Step>, from: nat, s: Step) {
    exists k | from <= k < |log| :: log[k] == s
  }

  lemma TookStays(log: seq<Step>, log': seq<Step>, from: nat, from': nat, s: Step)
    requires Took(log, from, s) && log <= log' && from' <= from
    ensures Took(log', from', s)
  {
    var k :| from <= k < |log| && log[k] == s;
    assert log'[k] == s;
  }

  /** GetChain calls the store once per job it walks over. Walking means that it has not answered after a
      given number of calls; Walks shows for which chains no number is enough. */
  datatype Walked<+T> = Answered(value: T) | Failing | Walking

  /** Each status lies between the job's status in w and in w'. */
  predicate Between(w: World, w': World, js: map<Id, Status>) {
    forall id | id in js ::
      && Known(w, id) && Known(w', id)
      && (IsFinal(js[id]) ==> StatusNow(w', id) == js[id])
      && (IsFinal(StatusNow(w, id)) ==> js[id] == StatusNow(w, id))
  }

  /** The world was v after step `from` of the log or a later one. */
  ghost predicate WasOnce(start: World, log: seq<Step>, from: nat, v: World) {
    exists i {:trigger log[..i]} | from <= i <= |log| :: IsRun(start, log[..i]) && After(start, log[..i]) == v
  }

  lemma WasOnceStays(start: World, log: seq<Step>, log': seq<Step>, from: nat, from': nat, v: World)
    requires WasOnce(start, log, from, v) && log <= log' && from' <= from
    ensures WasOnce(start, log', from', v)
  {
    var i :| from <= i <= |log| && IsRun(start, log[..i]) && After(start, log[..i]) == v;
    assert log'[..i] == log[..i];
  }

  lemma NowIsOnce(start: World, log: seq<Step>, from: nat)
    requires IsRun(start, log) && from <= |log|
    ensures WasOnce(start, log, from, After(start, log))
  {
    assert log[..|log|] == log;
  }

  /** Such a world lies between the worlds then and now. */
  lemma OnceIsBetween(start: World, log: seq<Step>, from: nat, v: World)
    requires Inv(start) && IsRun(start, log) && from <= |log| && WasOnce(start, log, from, v)
    ensures IsRun(start, log[..from]) && Inv(v) && Grow(After(start, log[..from]), v) && Grow(v, After(start, log))
  {
    var i :| from <= i <= |log| && IsRun(start, log[..i]) && After(start, log[..i]) == v;
    RunGrows(start, log[..i], log);
    assert log[..from] <= log[..i];
    RunGrows(start, log[..from], log[..i]);
    RunKeeps(start, log[..i]);
  }

  /** Job id had that status at some moment since. */
  ghost predicate SeenAs(start: World, log: seq<Step>, from: nat, id: Id, status: Status) {
    exists v :: WasOnce(start, log, from, v) && Known(v, id) && StatusNow(v, id) == status
  }

  ghost predicate AllSeen(start: World, log: seq<Step>, from: nat, js: map<Id, Status>) {
    forall id | id in js :: SeenAs(start, log, from, id, js[id])
  }

  lemma SeenStays(start: World, log: seq<Step>, log': seq<Step>, from: nat, from': nat, id: Id, status: Status)
    requires SeenAs(start, log, from, id, status) && log <= log' && from' <= from
    ensures SeenAs(start, log', from', id, status)
  {
    var v :| WasOnce(start, log, from, v) && Known(v, id) && StatusNow(v, id) == status;
    WasOnceStays(start, log, log', from, from', v);
  }

  lemma AllSeenStay(start: World, log: seq<Step>, log': seq<Step>, from: nat, js: map<Id, Status>)
    requires AllSeen(start, log, from, js) && log <= log'
    ensures AllSeen(start, log', from, js)
  {
    forall id | id in js
      ensures SeenAs(start, log', from, id, js[id])
    {
      SeenStays(start, log, log', from, from, id, js[id]);
    }
  }

  /** So each status that was seen lies between the job's statuses then and now. */
  lemma SeenIsBetween(start: World, log: seq<Step>, from: nat, js: map<Id, Status>)
    requires Inv(start) && IsRun(start, log) && from <= |log| && IsRun(start, log[..from])
    requires AllSeen(start, log, from, js)
    requires Inv(After(start, log[..from])) && forall id | id in js :: Known(After(start, log[..from]), id)
    ensures Between(After(start, log[..from]), After(start, log), js)
  {
    forall id | id in js
      ensures Known(After(start, log), id)
      ensures IsFinal(js[id]) ==> StatusNow(After(start, log), id) == js[id]
      ensures IsFinal(StatusNow(After(start, log[..from]), id)) ==> js[id] == StatusNow(After(start, log[..from]), id)
    {
      var v :| WasOnce(start, log, from, v) && Known(v, id) && StatusNow(v, id) == js[id];
      OnceIsBetween(start, log, from, v);
      GrowKeepsFinal(v, After(start, log), id);
      GrowKeepsFinal(After(start, log[..from]), v, id);
    }
  }

  /** At some moment since, a was the answer about the chain whose first job is `first`. */
  ghost predicate AnsweredAt(start: World, log: seq<Step>, from: nat, first: Id, a: Answer) {
    exists v :: WasOnce(start, log, from, v) && Inv(v) && Known(v, first) && NaiveChain(v, first) == a
  }

  lemma AnsweredStays(start: World, log: seq<Step>, log': seq<Step>, from: nat, from': nat, first: Id, a: Answer)
    requires AnsweredAt(start, log, from, first, a) && log <= log' && from' <= from
    ensures AnsweredAt(start, log', from', first, a)
  {
    var v :| WasOnce(start, log, from, v) && Inv(v) && Known(v, first) && NaiveChain(v, first) == a;
    WasOnceStays(start, log, log', from, from', v);
  }

  lemma AnsweredNow(start: World, log: seq<Step>, from: nat, first: Id)
    requires IsRun(start, log) && from <= |log| && Inv(After(start, log)) && Known(After(start, log), first)
    ensures AnsweredAt(start, log, from, first, NaiveChain(After(start, log), first))
  {
    NowIsOnce(start, log, from);
  }

  lemma Shift(seen: set<Id>, todo: set<Id>, id: Id)
    requires id in todo
    ensures seen + {id} + (todo - {id}) == seen + todo
  {
  }

  /** The message a poll that looked up the statuses js writes. */
  lemma BetweenSummary(w: World, w': World, gid: Id, js: map<Id, Status>)
    requires Between(w, w', js)
    ensures IsFinal(NaiveGroup(w, js.Keys)) ==> Summary(js) == NaiveGroup(w, js.Keys)
    ensures IsFinal(Summary(js)) ==> NaiveGroup(w', js.Keys) == Summary(js)
    ensures Credible(w', GroupMsg(gid, Summary(js), js))
  {
    SummaryBetween(w, w', js.Keys, js);
  }

  /** Where a poll ends: what its answer says about the worlds when it started and when it ends. */
  lemma PollEnds(start: World, before: seq<Step>, log: seq<Step>, w: World, w': World, gid: Id,
                 cached: map<Id, Status>, js: map<Id, Status>, status: Status)
    requires Inv(start) && IsRun(start, log) && before <= log && IsRun(start, before)
    requires After(start, before) == w && Inv(w) && After(start, log) == w' && status == Summary(js)
    requires CachedOk(w, cached) && js.Keys == cached.Keys && AllSeen(start, log, |before|, js)
    ensures Credible(w', GroupMsg(gid, status, js))
    ensures forall id | id in js :: Known(w, id) && Known(w', id)
    ensures status == Failed ==> exists id | id in js.Keys :: StatusNow(w', id) == Failed
    ensures status == Successful ==> forall id | id in js.Keys :: StatusNow(w', id) == Successful
    ensures (exists id | id in js.Keys :: StatusNow(w, id) == Failed) ==> status == Failed
    ensures (forall id | id in js.Keys :: StatusNow(w, id) == Successful) ==> status == Successful
  {
    SeenBetween(start, before, log, w, w', cached, js);
    hide IsRun, After, Inv, AllSeen, CachedOk, Credible, Between;
    BetweenMeans(w, w', gid, js, status);
  }

  lemma SeenBetween(start: World, before: seq<Step>, log: seq<Step>, w: World, w': World,
                    cached: map<Id, Status>, js: map<Id, Status>)
    requires Inv(start) && IsRun(start, log) && before <= log && IsRun(start, before)
    requires After(start, before) == w && Inv(w) && After(start, log) == w'
    requires CachedOk(w, cached) && js.Keys == cached.Keys && AllSeen(start, log, |before|, js)
    ensures Between(w, w', js)
  {
    CachedAreKnown(w, cached, js);
    hide Inv, AllSeen, CachedOk;
    assert log[..|before|] == before;
    SeenIsBetween(start, log, |before|, js);
  }

  lemma CachedAreKnown(w: World, cached: map<Id, Status>, js: map<Id, Status>)
    requires CachedOk(w, cached) && js.Keys == cached.Keys
    ensures forall id | id in js :: Known(w, id)
  {
    forall id | id in js ensures Known(w, id) { assert id in cached.Keys; }
  }

  lemma BetweenMeans(w: World, w': World, gid: Id, js: map<Id, Status>, status: Status)
    requires Between(w, w', js) && status == Summary(js)
    ensures Credible(w', GroupMsg(gid, status, js))
    ensures forall id | id in js :: Known(w, id) && Known(w', id)
    ensures status == Failed ==> exists id | id in js.Keys :: StatusNow(w', id) == Failed
    ensures status == Successful ==> forall id | id in js.Keys :: StatusNow(w', id) == Successful
    ensures (exists id | id in js.Keys :: StatusNow(w, id) == Failed) ==> status == Failed
    ensures (forall id | id in js.Keys :: StatusNow(w, id) == Successful) ==> status == Successful
  {
    BetweenSummary(w, w', gid, js);
    NaiveGroupMeans(w, js.Keys);
    NaiveGroupMeans(w', js.Keys);
  }

  /** The answer a of a walk lies between what was right when it started and what is right when it ends. */
  predicate WalkedBetween(before: Answer, a: Answer, after: Answer) {
    && before.done <= a.done <= after.done
    && (IsFinal(before.status) ==> a == before)
    && (IsFinal(a.status) ==> after == a)
  }

  /** The job needs neither a chosen ID nor the cron library. */
  predicate IsSimple(j: Job) {
    j.opts.id.None? && j.opts.schedule == ""
  }

  predicate AllSimple(js: seq<Job>) {
    forall i | 0 <= i < |js| :: IsSimple(js[i])
  }

  /** After the steps tr, thread me was about to push the message m again. */
  ghost predicate HeldAt(start: World, tr: seq<Step>, me: nat, m: Msg) {
    IsRun(start, tr) && me in After(start, tr).threads && After(start, tr).threads[me] == Busy(m, RetryPushing)
  }

  /** At position `from` of the log or later, thread me did push it. */
  ghost predicate PushedAs(start: World, log: seq<Step>, from: nat, me: nat, m: Msg) {
    exists j | from <= j < |log| :: log[j] == Requeue(me, Fine) && HeldAt(start, log[..j], me, m)
  }

  /** And before that it wrote the "retrying" record. */
  ghost predicate RetriedAs(start: World, log: seq<Step>, from: nat, me: nat, m: Msg) {
    exists i, j | from <= i < j < |log| ::
      log[i] == Work(me, Retry(Fine)) && log[j] == Requeue(me, Fine) && HeldAt(start, log[..j], me, m)
  }

  lemma PushedStays(start: World, log: seq<Step>, log': seq<Step>, from: nat, me: nat, m: Msg)
    requires PushedAs(start, log, from, me, m) && log <= log'
    ensures PushedAs(start, log', from, me, m)
  {
    var j :| from <= j < |log| && log[j] == Requeue(me, Fine) && HeldAt(start, log[..j], me, m);
    assert log'[j] == log[j] && log'[..j] == log[..j];
  }

  lemma RetriedStays(start: World, log: seq<Step>, log': seq<Step>, from: nat, from': nat, me: nat, m: Msg)
    requires RetriedAs(start, log, from, me, m) && log <= log' && from' <= from
    ensures RetriedAs(start, log', from', me, m)
  {
    var i, j :| from <= i < j < |log| && log[i] == Work(me, Retry(Fine)) && log[j] == Requeue(me, Fine)
                && HeldAt(start, log[..j], me, m);
    assert log'[i] == log[i] && log'[j] == log[j] && log'[..j] == log[..j];
  }

  /** The success and failed indexes say how job id ended, unless DeleteJob was called since. */
  predicate Indexed(w: World, id: Id, ok: bool) {
    id in w.rows && (!w.rows[id].h.deleted ==> w.rows[id].inSuccess == ok && w.rows[id].inFailed == !ok)
  }

  /** Every follower of message m's job was recorded and pushed; after a success m lists them. */
  ghost predicate FollowersPushed(w: World, m: Msg, ok: bool) {
    && m.meta.id in w.rows && |w.rows[m.meta.id].h.kids| == |Followers(m.job, ok)|
    && FirstPushed(w, m.meta.id, |Followers(m.job, ok)|) && KidsLinked(w, m.meta.id)
    && (ok ==> m.meta.onSuccessIDs == w.rows[m.meta.id].h.kids)
  }

  /** Once its thread has recorded a final status, the indexes agree with it. */
  lemma EndedIsIndexed(w: World, id: Id, ok: bool)
    requires Inv(w) && id in w.rows && w.rows[id].h.at == Ended
    requires w.rows[id].rec.Some? && w.rows[id].rec.value.meta.status == (if ok then Successful else Failed)
    ensures Indexed(w, id, ok)
  {
    assert RowOk(w, id);
  }

  lemma KidsArePushed(w: World, t: nat, m: Msg, ok: bool)
    requires Inv(w) && BusyAt(w, t) && w.threads[t] == Busy(m, Kids(ok, |Followers(m.job, ok)|))
    ensures FollowersPushed(w, m, ok)
  {
    assert PcOk(w, t, w.threads[t]) && RowOk(w, m.meta.id);
  }

  /** The message as its final record has it, except for the OnSuccess IDs. */
  predicate IsRecordOf(rec: Option<Msg>, m: Msg, status: Status) {
    rec.Some?
    && rec.value == Msg(m.meta.(status := status, onSuccessIDs := rec.value.meta.onSuccessIDs), m.job)
  }

  /** What execJob has done for message m once its handler ended with outcome o. */
  ghost predicate Executed(start: World, w: World, log: seq<Step>, from: nat, me: nat, m: Msg, o: Outcome) {
    if o.Returned? || o.ReturnedCanceled? || o.ContextCanceled? then
      m.meta.id in w.rows && IsRecordOf(w.rows[m.meta.id].rec, m, Successful)
      && |w.rows[m.meta.id].rec.value.meta.onSuccessIDs| == |m.job.onSuccess| && Indexed(w, m.meta.id, true)
    else
      var err := if o.Errored? then o.err else "context deadline exceeded";
      if m.meta.retried == m.meta.maxRetry then
        m.meta.id in w.rows
        && w.rows[m.meta.id].rec == Some(Msg(m.meta.(status := Failed, prevErr := err), m.job))
        && Indexed(w, m.meta.id, false)
      else
        m.meta.retried < m.meta.maxRetry
        && RetriedAs(start, log, from, me, Msg(m.meta.(retried := m.meta.retried + 1, prevErr := err), m.job))
  }

  lemma ExecutedStays(start: World, w: World, log: seq<Step>, from: nat, from': nat, me: nat, m: Msg, o: Outcome)
    requires Executed(start, w, log, from, me, m, o) && from' <= from
    ensures Executed(start, w, log, from', me, m, o)
  {
    var err := if o.Errored? then o.err else "context deadline exceeded";
    if (o.Errored? || o.Deadline?) && m.meta.retried != m.meta.maxRetry {
      var again := Msg(m.meta.(retried := m.meta.retried + 1, prevErr := err), m.job);
      RetriedStays(start, log, log, from, from', me, again);
    }
  }

  /** Job number i has the record and the first push of ids[i]. */
  ghost predicate Accepted(w: World, ids: seq<Id>, jobs: seq<Job>) {
    && |ids| == |jobs|
    && (forall i | 0 <= i < |ids| :: Pushed(w, ids[i]))
    && (forall i | 0 <= i < |ids| :: PreparedFrom(w.rows[ids[i]].h.job, jobs[i]))
    && (forall i, j | 0 <= i < j < |ids| :: ids[i] != ids[j])
  }

  /** The statuses a new group starts with. */
  function AllQueued(ids: seq<Id>): map<Id, Status> {
    map id | id in ids :: Queued
  }

  lemma AcceptedAdds(w: World, w': World, ids: seq<Id>, jobs: seq<Job>, id: Id, job: Job, cron: Cron)
    requires Accepted(w, ids, jobs) && Grow(w, w') && id !in w.rows && Pushed(w', id)
    requires Some(w'.rows[id].h.job) == Prepare(job, cron)
    ensures Accepted(w', ids + [id], jobs + [job])
    ensures AllQueued(ids + [id]) == AllQueued(ids)[id := Queued]
  {
    forall i | 0 <= i < |ids| ensures ids[i] != id { assert Pushed(w, ids[i]); }
    PrepareIsPreparedFrom(job, cron);
  }

  /** Where a walk ends, the answer it has is right about the present. */
  lemma WalkEnds(w0: World, w: World, first: Id, done: seq<Id>, curr: Id)
    requires Inv(w0) && Inv(w) && Grow(w0, w) && Known(w0, first)
    requires Known(w, first) && Path(w, first, done, curr) && Known(w, curr) && !HasLink(w, curr)
    ensures NaiveChain(w, first) ==
            if StatusNow(w, curr) == Failed then Answer(Failed, done + [curr])
            else if StatusNow(w, curr) != Successful then Answer(Processing, done)
            else Answer(Successful, done + [curr])
    ensures WalkedBetween(NaiveChain(w0, first), NaiveChain(w, first), NaiveChain(w, first))
  {
    NaiveChainGrows(w0, w, first);
    PathIsWalked(w, first, done, curr);
    assert done + [] == done;
  }

  lemma WalkLeadsOn(w: World, first: Id, done: seq<Id>, curr: Id)
    requires Inv(w) && Known(w, first) && Path(w, first, done, curr) && HasLink(w, curr)
    ensures var next := Link(w, curr);
            && Known(w, next) && Path(w, first, done + [curr], next)
            && (EndsUnscheduled(w.rows[curr].h.job) ==>
                  EndsUnscheduled(w.rows[next].h.job) && Depth(w.rows[curr].h.job) == Depth(w.rows[next].h.job) + 1)
  {
    LinkLeadsOn(w, curr);
    PathExtends(w, first, done, curr);
    if EndsUnscheduled(w.rows[curr].h.job) {
      PreparedEndsAlike(w.rows[Link(w, curr)].h.job, w.rows[curr].h.job.onSuccess[0]);
    }
  }

  lemma WalkStays(v: World, w: World, first: Id, done: seq<Id>, curr: Id)
    requires Inv(v) && Grow(v, w) && Known(v, first) && Known(v, curr) && Path(v, first, done, curr)
    ensures Known(w, first) && Known(w, curr) && Path(w, first, done, curr)
    ensures w.rows[curr].h.job == v.rows[curr].h.job
  {
    PathStays(v, w, first, done, curr);
    GrowKeepsFinal(v, w, first);
    GrowKeepsFinal(v, w, curr);
    assert RowGrow(v.rows[curr], w.rows[curr]);
  }

  /** What a worker goes on with when the handler ended with outcome o. */
  function NextPc(m: Msg, o: Outcome): Pc
    requires m.meta.retried <= m.meta.maxRetry
  {
    if o.Returned? || o.ReturnedCanceled? || o.ContextCanceled? then Busy(m, Kids(true, 0))
    else
      var err := if o.Errored? then o.err else "context deadline exceeded";
      if m.meta.retried == m.meta.maxRetry then Busy(Msg(m.meta.(prevErr := err), m.job), Kids(false, 0))
      else Busy(Msg(m.meta.(retried := m.meta.retried + 1, prevErr := err), m.job), RetryWriting)
  }

  lemma RunEnds(w: World, t: nat, m: Msg, o: Outcome)
    requires Inv(w) && BusyAt(w, t) && w.threads[t] == Busy(m, Running)
    ensures CanWork(w, t, Finish(o)) && m.meta.retried <= m.meta.maxRetry
    ensures BusyAt(DoWork(w, t, Finish(o)), t) && DoWork(w, t, Finish(o)).threads[t] == NextPc(m, o)
  {
    ThreadIsOk(w, t);
    hide Inv;
  }

  class Server {
    const reliable: bool              // whether every store and broker call made here succeeds
    var w: World                      // the results store, the broker and every thread
    var groups: map<Id, GroupMsg>     // the store's group messages
    var chains: map<Id, ChainMsg>     // the store's chain messages
    ghost var start: World            // where this run started
    ghost var log: seq<Step>          // and the steps it took since

    /** The present world is the outcome of a run of the lifecycle, and the stored group and chain messages are right
        about it. */
    ghost predicate Valid()
      reads this
    {
      && Reachable(start, log, w) && Inv(start) && Inv(w)
      && (forall gid | gid in groups :: groups[gid].id == gid && Credible(w, groups[gid]))
      && (forall cid | cid in chains :: chains[cid].id == cid && ChainOk(w, chains[cid]))
    }

    constructor (w0: World, reliable: bool)
      requires Init(w0)
      ensures Valid() && w == w0 && groups == map[] && chains == map[] && this.reliable == reliable
    {
      this.reliable := reliable;
      w, groups, chains := w0, map[], map[];
      start, log := w0, [];
      InitHolds(w0);
    }

    /** How a store or broker call ends. */
    method AnyFault() returns (f: Fault)
      ensures reliable ==> f.Fine?
    {
      f := *;
      if reliable { f := Fine; }
    }

    method AnyError() returns (fails: bool)
      ensures reliable ==> !fails
    {
      fails := *;
      if reliable { fails := false; }
    }

    /** The run goes on from where it was. */
    twostate predicate GoesOn()
      reads this
    {
      && start == old(start) && old(log) <= log
    }

    /** One store or broker call. */
    method Call(s: Step)
      requires Valid() && Enabled(w, s)
      modifies this`w, this`log
      ensures Valid() && GoesOn()
      ensures w == Apply(old(w), s) && log == old(log) + [s] && Grow(old(w), w)
    {
      StepKeeps(w, s);
      assert (log + [s])[..|log|] == log;
      forall gid | gid in groups
        ensures Credible(Apply(w, s), groups[gid])
      {
        CredibleStays(w, Apply(w, s), groups[gid]);
      }
      forall cid | cid in chains
        ensures ChainOk(Apply(w, s), chains[cid])
      {
        ChainStays(w, Apply(w, s), chains[cid]);
      }
      w := Apply(w, s);
      log := log + [s];
    }

    /** A step of another thread, or a write by another poller or client: of any group or chain message that
        is right about the present store. */
    method InterfereOnce(me: Option<nat>)
      requires Valid() && (me.Some? ==> me.value in w.threads)
      modifies this
      ensures Valid() && GoesOn()
      ensures me.Some? ==> me.value in w.threads && w.threads[me.value] == old(w).threads[me.value]
    {
      var s: Step := *;
      var g: GroupMsg := *;
      var c: ChainMsg := *;
      if Enabled(w, s) && (me.Some? ==> !By(s, me.value)) {
        if me.Some? { OthersLeaveMe(w, s, me.value); }
        Call(s);
      } else if Credible(w, g) {
        SetGroupMessage(g);
      } else if ChainOk(w, c) {
        SetChainMessage(c);
      }
    }

    method Interfere(me: Option<nat>)
      requires Valid() && (me.Some? ==> me.value in w.threads)
      modifies this
      ensures Valid() && GoesOn() && Grow(old(w), w)
      ensures me.Some? ==> me.value in w.threads && w.threads[me.value] == old(w).threads[me.value]
    {
      var n: int := *;
      while n > 0
        invariant Valid() && GoesOn()
        invariant me.Some? ==> me.value in w.threads && w.threads[me.value] == old(w).threads[me.value]
      {
        InterfereOnce(me);
        n := n - 1;
      }
      RunGrows(start, old(log), log);
    }

    /** A write of a group message that is right about the store. */
    method SetGroupMessage(g: GroupMsg)
      requires Valid() && Credible(w, g)
      modifies this`groups
      ensures Valid() && GoesOn() && groups == old(groups)[g.id := g]
    {
      groups := groups[g.id := g];
    }

    method SetChainMessage(c: ChainMsg)
      requires Valid() && ChainOk(w, c)
      modifies this`chains
      ensures Valid() && GoesOn() && chains == old(chains)[c.id := c]
    {
      chains := chains[c.id := c];
    }

    // ---------------------------------------------------------------- enqueueing

    /** statusStarted of the message that thread me is enqueueing. */
    method StatusStarted(me: nat) returns (err: bool)
      requires Valid() && EnqueueingAt(w, me, false)
      modifies this
      ensures Valid() && GoesOn() && Grow(old(w), w) && me in w.threads
      ensures if err then !reliable && w.threads[me].Idle?
              else w.threads[me] == old(w).threads[me].(written := true) && EnqueueingAt(w, me, true)
    {
      hide Inv, Credible, ChainOk, IsRun, After;
      var f := AnyFault();
      Call(Write(me, f));
      Interfere(Some(me));
      err := !f.Fine?;
      RunGrows(start, old(log), log);
      ThreadIsOk(w, me);
    }

    /** enqueueMessage or enqueueScheduled: the push. */
    method EnqueueMessage(me: nat) returns (err: bool)
      requires Valid() && EnqueueingAt(w, me, true)
      modifies this
      ensures Valid() && GoesOn() && Grow(old(w), w) && me in w.threads
      ensures var Enqueueing(ctx, c, _) := old(w).threads[me];
              if err then !reliable && w.threads[me].Idle?
              else w.threads[me] == Resume(ctx, c) && Pushed(w, c.meta.id)
    {
      hide Inv, Credible, ChainOk, IsRun, After;
      ThreadIsOk(w, me);
      var f := AnyFault();
      Call(Push(me, f));
      Interfere(Some(me));
      err := !f.Fine?;
      RunGrows(start, old(log), log);
    }

    /** The two calls of enqueueWithMeta, in this order. */
    method Submit(me: nat) returns (err: bool)
      requires Valid() && EnqueueingAt(w, me, false)
      modifies this
      ensures Valid() && GoesOn() && Grow(old(w), w) && me in w.threads
      ensures var Enqueueing(ctx, c, _) := old(w).threads[me];
              if err then !reliable && w.threads[me].Idle?
              else w.threads[me] == Resume(ctx, c) && Pushed(w, c.meta.id) && (ctx.Parent? ==> BusyAt(w, me))
    {
      hide Inv, Credible, ChainOk, IsRun, After;
      err := StatusStarted(me);
      if !err { err := EnqueueMessage(me); }
      RunGrows(start, old(log), log);
    }

    /** uuid.NewString: an ID nobody uses. */
    method NewUuid() returns (id: Id)
      ensures id !in w.rows
    {
      SomeIdIsFree(w.rows.Keys);
      id :| id !in w.rows;
    }

    method IdFor(opts: Opts) returns (id: Id)
      ensures ChosenId(opts, id) && (opts.id.None? ==> id !in w.rows)
    {
      if opts.id.Some? { id := opts.id.value; } else { id := NewUuid(); }
    }

    /** Enqueue: an accepted job has a record and was pushed, under an ID that was not in use. `cron` is the
        cron library's answer. */
    method Enqueue(me: nat, job: Job, cron: Cron) returns (r: Res<Id>)
      requires Valid() && IdleAt(w, me)
      modifies this
      ensures Valid() && GoesOn() && Grow(old(w), w)
      ensures IdleAt(w, me)
      ensures r.Ok? ==> && r.value !in old(w).rows && Pushed(w, r.value) && ChosenId(job.opts, r.value)
                        && Some(w.rows[r.value].h.job) == Prepare(job, cron) && w.rows[r.value].h.parent == None
      ensures r.Clash? ==> job.opts.id.Some? && job.opts.id.value in old(w).rows
      ensures reliable && r.Err? ==> Prepare(job, cron).None?
    {
      var id := IdFor(job.opts);
      if Prepare(job, cron).None? { return Err; }
      if id in w.rows { return Clash; }
      Call(ClientBegin(me, job, id, cron));
      ghost var begun := w;
      var err := Submit(me);
      assert RowGrow(begun.rows[id], w.rows[id]);
      RunGrows(start, old(log), log);
      r := if err then Err else Ok(id);
    }

    // ---------------------------------------------------------------- executing a job

    /** A call by the worker of a message about that message. */
    method WorkerCall(me: nat, a: Act)
      requires Valid() && CanWork(w, me, a)
      modifies this
      ensures Valid() && GoesOn() && Grow(old(w), w) && me in w.threads
      ensures var Busy(m, st) := old(w).threads[me]; var (row, pc) := ActOn(old(w).rows[m.meta.id], m, st, a);
              m.meta.id in w.rows && w.threads[me] == pc && RowGrow(row, w.rows[m.meta.id])
      ensures Took(log, |old(log)|, Work(me, a))
    {
      var id := w.threads[me].m.meta.id;
      Call(Work(me, a));
      ghost var row, done := w.rows[id], log;
      assert done[|old(log)|] == Work(me, a);
      Interfere(Some(me));
      TookStays(done, log, |old(log)|, |old(log)|, Work(me, a));
      assert RowGrow(row, w.rows[id]);
      RunGrows(start, old(log), log);
    }

    /** One follower of the job in hand: GetResult after a success, then enqueueWithMeta. */
    method EnqueueFollower(me: nat, m: Msg, ok: bool, k: nat, ghost from: nat) returns (r: Res<Id>)
      requires Valid() && BusyAt(w, me) && w.threads[me] == Busy(m, Kids(ok, k)) && k < |Followers(m.job, ok)|
      requires from <= |log|
      modifies this
      ensures Valid() && GoesOn() && Grow(old(w), w) && me in w.threads
      ensures r.Ok? ==> BusyAt(w, me) && w.threads[me] == Busy(if ok then AddId(m, r.value) else m, Kids(ok, k + 1))
      ensures r.Ok? ==> Pushed(w, r.value)
      ensures r.Clash? ==> Followers(m.job, ok)[k].opts.id.Some?
      ensures ok && old(w).rows[m.meta.id].saved.None? ==> r.Err?
      ensures r.Err? ==> w.threads[me].Idle?
      ensures reliable && r.Err? ==> Took(log, from, Work(me, KidFail))
      ensures reliable && r.Err? ==>
                Followers(m.job, ok)[k].opts.schedule != "" || (ok && old(w).rows[m.meta.id].saved.None?)
    {
      var j := Followers(m.job, ok)[k];
      var id := IdFor(j.opts);
      var cron: Cron := *;
      var readFails := AnyError();
      if (ok && (readFails || w.rows[m.meta.id].saved.None?)) || Prepare(j, cron).None? {
        WorkerCall(me, KidFail);
        TookStays(log, log, |old(log)|, from, Work(me, KidFail));
        return Err;
      }
      if id in w.rows { return Clash; }
      var err := SubmitFollower(me, m, ok, k, id, cron);
      r := if err then Err else Ok(id);
    }

    method SubmitFollower(me: nat, m: Msg, ok: bool, k: nat, id: Id, cron: Cron) returns (err: bool)
      requires Valid() && CanKidBegin(w, me, id, cron) && id !in w.rows && w.threads[me] == Busy(m, Kids(ok, k))
      modifies this
      ensures Valid() && GoesOn() && Grow(old(w), w) && me in w.threads
      ensures if err then !reliable && w.threads[me].Idle?
              else Pushed(w, id) && BusyAt(w, me)
                   && w.threads[me] == Busy(if ok then AddId(m, id) else m, Kids(ok, k + 1))
    {
      hide Inv, Credible, ChainOk, IsRun, After;
      BeginFollower(me, m, ok, k, id, cron);
      ghost var begun := w;
      err := Submit(me);
      GrowIsTransitive(old(w), begun, w);
    }

    method BeginFollower(me: nat, m: Msg, ok: bool, k: nat, id: Id, cron: Cron)
      requires Valid() && CanKidBegin(w, me, id, cron) && id !in w.rows && w.threads[me] == Busy(m, Kids(ok, k))
      modifies this
      ensures Valid() && GoesOn() && Grow(old(w), w) && EnqueueingAt(w, me, false)
      ensures w.threads[me].ctx == Parent(m, ok, k) && w.threads[me].c.meta.id == id
    {
      hide Inv, Credible, ChainOk, IsRun, After;
      Call(KidBegin(me, id, cron));
      Interfere(Some(me));
      ThreadIsOk(w, me);
      RunGrows(start, old(log), log);
    }

    /** All followers in order. After a success the message collects their IDs. */
    method EnqueueFollowers(me: nat, m: Msg, ok: bool) returns (r: Res<Msg>)
      requires Valid() && BusyAt(w, me) && w.threads[me] == Busy(m, Kids(ok, 0))
      modifies this
      ensures Valid() && GoesOn() && Grow(old(w), w) && me in w.threads
      ensures r.Err? ==> w.threads[me].Idle?
      ensures r.Ok? ==>
                && BusyAt(w, me) && w.threads[me] == Busy(r.value, Kids(ok, |Followers(m.job, ok)|))
                && r.value.meta == m.meta.(onSuccessIDs := r.value.meta.onSuccessIDs) && r.value.job == m.job
                && (!ok ==> r.value == m) && FollowersPushed(w, r.value, ok)
      ensures AllSimple(Followers(m.job, ok)) ==> !r.Clash?
      ensures reliable && AllSimple(Followers(m.job, ok)) && r.Err? ==> ok && Took(log, |old(log)|, Work(me, KidFail))
    {
      hide Inv, Credible, ChainOk, IsRun, After;
      var msg := m;
      var i := 0;
      while i < |Followers(m.job, ok)|
        invariant 0 <= i <= |Followers(m.job, ok)|
        invariant Valid() && GoesOn()
        invariant BusyAt(w, me) && w.threads[me] == Busy(msg, Kids(ok, i))
        invariant msg.meta == m.meta.(onSuccessIDs := msg.meta.onSuccessIDs) && msg.job == m.job
        invariant !ok ==> msg == m
      {
        assert AllSimple(Followers(m.job, ok)) ==> IsSimple(Followers(m.job, ok)[i]);
        var f := EnqueueFollower(me, msg, ok, i, |old(log)|);
        if !f.Ok? {
          RunGrows(start, old(log), log);
          return if f.Err? then Err else Clash;
        }
        if ok { msg := AddId(msg, f.value); }
        i := i + 1;
      }
      RunGrows(start, old(log), log);
      KidsArePushed(w, me, msg, ok);
      r := Ok(msg);
    }

    /** SetSuccess or SetFailed. */
    method SetIndex(me: nat, m: Msg, ok: bool) returns (err: bool)
      requires Valid() && BusyAt(w, me) && w.threads[me] == Busy(m, Kids(ok, |Followers(m.job, ok)|))
      modifies this
      ensures Valid() && GoesOn() && Grow(old(w), w) && me in w.threads
      ensures if err then !reliable && w.threads[me].Idle? else BusyAt(w, me) && w.threads[me] == Busy(m, Closing(ok))
    {
      hide Inv, Credible, ChainOk, IsRun, After, Grow;
      var f := AnyFault();
      WorkerCall(me, Index(f));
      err := !f.Fine?;
    }

    method SetFinalRecord(me: nat, m: Msg, ok: bool) returns (err: bool)
      requires Valid() && BusyAt(w, me) && w.threads[me] == Busy(m, Closing(ok))
      modifies this
      ensures Valid() && GoesOn() && Grow(old(w), w) && IdleAt(w, me)
      ensures reliable ==> !err
      ensures !err ==> m.meta.id in w.rows && w.rows[m.meta.id].rec
                       == Some(Msg(m.meta.(status := if ok then Successful else Failed), m.job))
      ensures !err ==> Indexed(w, m.meta.id, ok)
    {
      hide Inv, Credible, ChainOk, IsRun, After, Grow;
      var f := AnyFault();
      WorkerCall(me, Close(f));
      err := !f.Fine?;
      if !err { EndedIsIndexed(w, m.meta.id, ok); }
    }

    /** statusDone and statusFailed: the index, then the record. */
    method StatusFinal(me: nat, m: Msg, ok: bool) returns (err: bool)
      requires Valid() && BusyAt(w, me) && w.threads[me] == Busy(m, Kids(ok, |Followers(m.job, ok)|))
      modifies this
      ensures Valid() && GoesOn() && Grow(old(w), w) && IdleAt(w, me)
      ensures reliable ==> !err
      ensures !err ==> m.meta.id in w.rows && w.rows[m.meta.id].rec
                       == Some(Msg(m.meta.(status := if ok then Successful else Failed), m.job))
      ensures !err ==> Indexed(w, m.meta.id, ok)
    {
      hide Inv, Credible, ChainOk, IsRun, After, Grow;
      err := SetIndex(me, m, ok);
      if !err {
        err := SetFinalRecord(me, m, ok);
        RunGrows(start, old(log), log);
      }
    }

    /** retryJob's push of the message, which thereby counts one more retry. */
    method PushAgain(me: nat) returns (err: bool)
      requires Valid() && CanRequeue(w, me)
      modifies this
      ensures Valid() && GoesOn() && Grow(old(w), w) && IdleAt(w, me)
      ensures reliable ==> !err
      ensures !err ==> PushedAs(start, log, |old(log)|, me, old(w).threads[me].m)
    {
      var f := AnyFault();
      Call(Requeue(me, f));
      ghost var pushed := log;
      assert pushed[|old(log)|] == Requeue(me, f) && pushed[..|old(log)|] == old(log);
      assert f.Fine? ==> HeldAt(start, pushed[..|old(log)|], me, old(w).threads[me].m);
      Interfere(Some(me));
      err := !f.Fine?;
      RunGrows(start, old(log), log);
      if !err { PushedStays(start, pushed, log, |old(log)|, me, old(w).threads[me].m); }
    }

    /** retryJob: the "retrying" record, then the push. */
    method RetryJob(me: nat, m: Msg) returns (err: bool)
      requires Valid() && BusyAt(w, me) && w.threads[me] == Busy(m, RetryWriting)
      modifies this
      ensures Valid() && GoesOn() && Grow(old(w), w) && IdleAt(w, me)
      ensures reliable ==> !err
      ensures !err ==> RetriedAs(start, log, |old(log)|, me, m)
    {
      hide Inv, Grow, Credible, ChainOk, IsRun, After, Took;
      var f := AnyFault();
      WorkerCall(me, Retry(f));
      if !f.Fine? { return true; }
      err := PushAgain(me);
      RunGrows(start, old(log), log);
    }

    /** The handler ends with outcome o: with one more retry counted, or on to the followers. */
    method FinishRun(me: nat, m: Msg, o: Outcome)
      requires Valid() && BusyAt(w, me) && w.threads[me] == Busy(m, Running)
      modifies this`w, this`log
      ensures Valid() && GoesOn() && Grow(old(w), w) && BusyAt(w, me) && m.meta.retried <= m.meta.maxRetry
      ensures w.threads[me] == NextPc(m, o)
    {
      RunEnds(w, me, m, o);
      hide Inv, Grow, Credible, ChainOk, IsRun, After, ActOn, CanWork, DoWork;
      Call(Work(me, Finish(o)));
    }

    /** execJob, once the handler has ended with outcome o. After a success the record is "successful" with
        one ID per OnSuccess job; after the last permitted error it is "failed"; after any other error the
        job is pushed again with one more retry. With a store and broker that work, and followers without a
        schedule or a chosen ID, only a missing result can prevent that. */
    method ExecJob(me: nat, m: Msg, o: Outcome) returns (r: Res<()>)
      requires Valid() && BusyAt(w, me) && w.threads[me] == Busy(m, Running)
      modifies this
      ensures Valid() && GoesOn() && Grow(old(w), w) && me in w.threads
      ensures !r.Clash? ==> w.threads[me].Idle?
      ensures r.Ok? ==> Executed(start, w, log, |old(log)|, me, m, o)
      ensures AllSimple(Followers(m.job, ErrorOf(o).None?)) ==> !r.Clash?
      ensures reliable && AllSimple(Followers(m.job, ErrorOf(o).None?)) && r.Err? ==>
                ErrorOf(o).None? && Took(log, |old(log)|, Work(me, KidFail))
    {
      hide Inv, Grow, Credible, ChainOk, IsRun, After, Took, RetriedAs, HeldAt, PcOk, Indexed, IsRecordOf;
      FinishRun(me, m, o);
      ghost var decided, msg := log, w.threads[me].m;
      if ErrorOf(o).Some? && m.meta.maxRetry != m.meta.retried {
        var err := RetryJob(me, w.threads[me].m);
        RunGrows(start, old(log), log);
        if !err { RetriedStays(start, log, log, |decided|, |old(log)|, me, msg); }
        r := if err then Err else Ok(());
      } else {
        r := Conclude(me, w.threads[me].m, ErrorOf(o).None?);
        RunGrows(start, old(log), log);
        if Took(log, |decided|, Work(me, KidFail)) { TookStays(log, log, |decided|, |old(log)|, Work(me, KidFail)); }
      }
    }

    /** The followers and the final record of a message whose last run is over. */
    method Conclude(me: nat, m: Msg, ok: bool) returns (r: Res<()>)
      requires Valid() && BusyAt(w, me) && w.threads[me] == Busy(m, Kids(ok, 0))
      modifies this
      ensures Valid() && GoesOn() && Grow(old(w), w) && me in w.threads
      ensures !r.Clash? ==> w.threads[me].Idle?
      ensures r.Ok? ==> m.meta.id in w.rows && Indexed(w, m.meta.id, ok)
      ensures r.Ok? && ok ==> IsRecordOf(w.rows[m.meta.id].rec, m, Successful)
                              && |w.rows[m.meta.id].rec.value.meta.onSuccessIDs| == |m.job.onSuccess|
      ensures r.Ok? && !ok ==> w.rows[m.meta.id].rec == Some(Msg(m.meta.(status := Failed), m.job))
      ensures AllSimple(Followers(m.job, ok)) ==> !r.Clash?
      ensures reliable && AllSimple(Followers(m.job, ok)) && r.Err? ==> ok && Took(log, |old(log)|, Work(me, KidFail))
    {
      hide Inv, Credible, ChainOk, IsRun, After;
      var f := EnqueueFollowers(me, m, ok);
      if f.Err? { return Err; }
      if f.Clash? { return Clash; }
      ThreadIsOk(w, me);
      var err := StatusFinal(me, f.value, ok);
      RunGrows(start, old(log), log);
      r := if err then Err else Ok(());
    }

    /** statusProcessing; then the handler runs. */
    method StatusProcessing(me: nat, m: Msg) returns (err: bool)
      requires Valid() && BusyAt(w, me) && w.threads[me] == Busy(m, Got)
      modifies this
      ensures Valid() && GoesOn() && Grow(old(w), w) && me in w.threads
      ensures if err then !reliable && w.threads[me].Idle?
              else BusyAt(w, me) && w.threads[me] == Busy(m, Running)
                   && Known(w, m.meta.id) && StatusNow(w, m.meta.id) == Processing
    {
      hide Credible, ChainOk, IsRun, After;
      var f := AnyFault();
      WorkerCall(me, Act.Process(f));
      err := !f.Fine?;
      ThreadIsOk(w, me);
    }

    /** A message that cannot be decoded, or whose task has no handler, is dropped; its record stays. */
    method DropMessage(me: nat, m: Msg)
      requires Valid() && BusyAt(w, me) && w.threads[me] == Busy(m, Got)
      modifies this
      ensures Valid() && GoesOn() && Grow(old(w), w) && me in w.threads && w.threads[me].Idle?
      ensures m.meta.id in w.rows && w.rows[m.meta.id].h.at == Lost
              && w.rows[m.meta.id].rec == old(w).rows[m.meta.id].rec
    {
      WorkerCall(me, Drop);
    }

    /** One turn of a worker's loop, for a message it received; `known` says whether it can be decoded and its
        task has a handler, and o how that handler ends. */
    method Process(me: nat, m: Msg, known: bool, o: Outcome) returns (r: Res<()>)
      requires Valid() && BusyAt(w, me) && w.threads[me] == Busy(m, Got)
      modifies this
      ensures Valid() && GoesOn() && Grow(old(w), w) && me in w.threads
      ensures !r.Clash? ==> w.threads[me].Idle?
      ensures !known ==> r.Err? && m.meta.id in w.rows && w.rows[m.meta.id].h.at == Lost
                         && w.rows[m.meta.id].rec == old(w).rows[m.meta.id].rec
      ensures r.Ok? ==> Executed(start, w, log, |old(log)|, me, m, o)
      ensures known && AllSimple(Followers(m.job, ErrorOf(o).None?)) ==> !r.Clash?
      ensures known && reliable && AllSimple(Followers(m.job, ErrorOf(o).None?)) && r.Err? ==>
                ErrorOf(o).None? && Took(log, |old(log)|, Work(me, KidFail))
    {
      hide Inv, Grow, Credible, ChainOk, IsRun, After, Took, RetriedAs;
      if !known {
        DropMessage(me, m);
        return Err;
      }
      var err := StatusProcessing(me, m);
      if err { return Err; }
      ghost var started := log;
      r := ExecJob(me, m, o);
      RunGrows(start, old(log), log);
      if Took(log, |started|, Work(me, KidFail)) { TookStays(log, log, |started|, |old(log)|, Work(me, KidFail)); }
      if r.Ok? { ExecutedStays(start, w, log, |started|, |old(log)|, me, m, o); }
    }

    // ---------------------------------------------------------------- groups

    /** getGroupStatus: one failed job fails the group, whatever the order of the map. */
    method GetGroupStatus(js: map<Id, Status>) returns (status: Status)
      ensures status == Failed <==> exists id :: id in js && js[id] == Failed
      ensures status == Successful <==> forall id | id in js :: js[id] == Successful
      ensures status in {Failed, Successful, Processing}
    {
      status := Successful;
      var todo := js.Keys;
      while todo != {}
        invariant todo <= js.Keys
        invariant status
                  == if forall id | id in js && id !in todo :: js[id] == Successful then Successful else Processing
        invariant forall id | id in js && id !in todo :: js[id] != Failed
        decreases todo
      {
        var id :| id in todo;
        todo := todo - {id};
        if js[id] == Failed { return Failed; }
        if js[id] != Successful {
          status := Processing;
        }
      }
    }

    /** The jobs of a group, one after the other. */
    method EnqueueAll(me: nat, jobs: seq<Job>) returns (r: Res<map<Id, Status>>, ghost ids: seq<Id>)
      requires Valid() && IdleAt(w, me)
      modifies this
      ensures Valid() && GoesOn() && Grow(old(w), w) && IdleAt(w, me)
      ensures r.Ok? ==> Accepted(w, ids, jobs) && r.value == AllQueued(ids)
      ensures AllSimple(jobs) ==> !r.Clash? && (reliable ==> r.Ok?)
    {
      hide Inv, Credible, ChainOk, IsRun, After;
      ids := [];
      var js: map<Id, Status> := map[];
      var i := 0;
      while i < |jobs|
        invariant 0 <= i <= |jobs|
        invariant Valid() && GoesOn() && Grow(old(w), w) && IdleAt(w, me)
        invariant Accepted(w, ids, jobs[..i]) && js == AllQueued(ids)
      {
        var e;
        e, ids := EnqueueOne(me, jobs[i], ids, jobs[..i], old(w));
        assert AllSimple(jobs) ==> IsSimple(jobs[i]);
        if !e.Ok? { return if e.Err? then Err else Clash, ids; }
        assert jobs[..i + 1] == jobs[..i] + [jobs[i]];
        js := js[e.value := Queued];
        i := i + 1;
      }
      assert jobs[..|jobs|] == jobs;
      r := Ok(js);
    }

    method EnqueueOne(me: nat, job: Job, ghost ids: seq<Id>, ghost jobs: seq<Job>, ghost w0: World)
      returns (r: Res<Id>, ghost ids': seq<Id>)
      requires Valid() && IdleAt(w, me) && Accepted(w, ids, jobs) && Grow(w0, w)
      modifies this
      ensures Valid() && GoesOn() && Grow(w0, w) && IdleAt(w, me)
      ensures r.Ok? ==> ids' == ids + [r.value] && Accepted(w, ids', jobs + [job])
                        && AllQueued(ids') == AllQueued(ids)[r.value := Queued]
      ensures IsSimple(job) ==> !r.Clash? && (reliable ==> r.Ok?)
    {
      hide Inv, Grow, Credible, ChainOk, IsRun, After, Accepted, AllQueued;
      var cron: Cron := *;
      ghost var before := w;
      r := Enqueue(me, job, cron);
      GrowIsTransitive(w0, before, w);
      ids' := ids;
      if r.Ok? {
        ids' := ids + [r.value];
        AcceptedAdds(before, w, ids, jobs, r.value, job, cron);
      }
    }

    /** EnqueueGroup: the stored message lists the accepted jobs of the group, one for each, as queued. */
    method EnqueueGroup(me: nat, jobs: seq<Job>, gid: Id) returns (r: Res<Id>, ghost ids: seq<Id>)
      requires Valid() && IdleAt(w, me)
      modifies this
      ensures Valid() && GoesOn()
      ensures r.Ok? ==> && r.value == gid && Accepted(w, ids, jobs)
                        && gid in groups && groups[gid].id == gid && groups[gid].status == Processing
                        && groups[gid].jobStatus == map id | id in ids :: Queued
      ensures AllSimple(jobs) ==> !r.Clash? && (reliable ==> r.Ok?)
    {
      var js;
      js, ids := EnqueueAll(me, jobs);
      if !js.Ok? { return if js.Err? then Err else Clash, ids; }
      var fails := AnyError();
      if fails { return Err, ids; }
      assert forall i | 0 <= i < |ids| :: Pushed(w, ids[i]);
      SetGroupMessage(GroupMsg(gid, Processing, js.value));
      r := Ok(gid);
    }

    /** The status of one job of a group: looked up, unless the stored message has a final one. */
    method LookUp(id: Id, cached: Status, ghost from: nat) returns (r: Res<Status>)
      requires Valid() && Known(w, id) && (IsFinal(cached) ==> StatusNow(w, id) == cached) && from <= |log|
      modifies this
      ensures Valid() && GoesOn() && Grow(old(w), w) && Known(w, id)
      ensures reliable ==> r.Ok?
      ensures r.Ok? ==> SeenAs(start, log, from, id, r.value)
      ensures r.Ok? && cached in {Failed, Successful} ==> r.value == cached
      ensures r.Ok? && r.value in {Failed, Successful} ==> StatusNow(w, id) == r.value
      ensures r.Ok? && StatusNow(old(w), id) in {Failed, Successful} ==> r.value == StatusNow(old(w), id)
    {
      NowIsOnce(start, log, from);
      if IsFinal(cached) { return Ok(cached); }
      var fails := AnyError();
      if fails { return Err; }
      var status := StatusNow(w, id);
      ghost var seen := log;
      assert SeenAs(start, seen, from, id, status);
      Interfere(None);
      SeenStays(start, seen, log, from, from, id, status);
      GrowKeepsFinal(old(w), w, id);
      r := Ok(status);
    }

    /** One more status for a poll that started at step `from`. */
    method LookUpNext(cached: map<Id, Status>, js: map<Id, Status>, id: Id, ghost from: nat)
      returns (r: Res<map<Id, Status>>)
      requires Valid() && CachedOk(w, cached) && id in cached && from <= |log| && AllSeen(start, log, from, js)
      modifies this
      ensures Valid() && GoesOn() && CachedOk(w, cached)
      ensures reliable ==> r.Ok?
      ensures r.Ok? ==> r.value.Keys == js.Keys + {id} && AllSeen(start, log, from, r.value)
    {
      hide Inv, Credible, ChainOk, IsRun, After, SeenAs;
      ghost var before := log;
      var status := LookUp(id, cached[id], from);
      CachedStays(old(w), w, cached);
      if !status.Ok? { return Err; }
      AllSeenStay(start, before, log, from, js);
      r := Ok(js[id := status.value]);
    }

    /** The statuses of all jobs of a stored group message, looked up one after the other. */
    method LookUpAll(cached: map<Id, Status>) returns (r: Res<map<Id, Status>>)
      requires Valid() && CachedOk(w, cached)
      modifies this
      ensures Valid() && GoesOn()
      ensures reliable ==> r.Ok?
      ensures r.Ok? ==> r.value.Keys == cached.Keys && AllSeen(start, log, |old(log)|, r.value)
    {
      Interfere(None);
      CachedStays(old(w), w, cached);
      r := LookUpEach(cached, |old(log)|);
    }

    method LookUpEach(cached: map<Id, Status>, ghost from: nat) returns (r: Res<map<Id, Status>>)
      requires Valid() && CachedOk(w, cached) && from <= |log|
      modifies this
      ensures Valid() && GoesOn()
      ensures reliable ==> r.Ok?
      ensures r.Ok? ==> r.value.Keys == cached.Keys && AllSeen(start, log, from, r.value)
    {
      var js: map<Id, Status> := map[];
      var todo := cached.Keys;
      assert AllSeen(start, log, from, js);
      hide Inv, Grow, Credible, ChainOk, IsRun, After, CachedOk, AllSeen;
      while todo != {}
        invariant js.Keys + todo == cached.Keys
        invariant Valid() && GoesOn()
        invariant CachedOk(w, cached) && AllSeen(start, log, from, js)
        decreases todo
      {
        var id :| id in todo;
        var next := LookUpNext(cached, js, id, from);
        if !next.Ok? { return Err; }
        Shift(js.Keys, todo, id);
        todo, js := todo - {id}, next.value;
      }
      r := Ok(js);
    }

    /** GetGroup: every status in the answer was the job's own at some moment of the poll, and the group's
        status lies between the status recomputed when the poll starts and when it ends, so a final answer
        agrees with every later one. */
    method GetGroup(gid: Id) returns (r: Res<GroupMsg>)
      requires Valid()
      modifies this
      ensures Valid() && GoesOn()
      ensures gid !in old(groups) ==> r.Err?
      ensures reliable && gid in old(groups) ==> r.Ok?
      ensures r.Ok? ==> gid in groups && groups[gid] == r.value
      ensures r.Ok? && old(groups)[gid].status in {Failed, Successful} ==> r.value == old(groups)[gid]
      ensures r.Ok? && old(groups)[gid].status !in {Failed, Successful} ==>
                && AllSeen(start, log, |old(log)|, r.value.jobStatus)
                && (r.value.status == Failed <==>
                    exists id :: id in r.value.jobStatus && r.value.jobStatus[id] == Failed)
                && (r.value.status == Successful <==>
                    forall id | id in r.value.jobStatus :: r.value.jobStatus[id] == Successful)
      ensures r.Ok? ==>
                var ids := old(groups)[gid].jobStatus.Keys;
                && r.value.id == gid && r.value.jobStatus.Keys == ids
                && r.value.status in {Failed, Successful, Processing}
                && (forall id | id in ids :: Known(old(w), id) && Known(w, id))
                && (r.value.status == Failed ==> exists id | id in ids :: StatusNow(w, id) == Failed)
                && (r.value.status == Successful ==> forall id | id in ids :: StatusNow(w, id) == Successful)
                && ((exists id | id in ids :: StatusNow(old(w), id) == Failed) ==> r.value.status == Failed)
                && ((forall id | id in ids :: StatusNow(old(w), id) == Successful) ==> r.value.status == Successful)
    {
      hide Inv, IsRun, After, ChainOk, AllSeen, Summary, NaiveGroup, Grow;
      if gid !in groups { return Err; }
      var g := groups[gid];
      assert Credible(w, g);
      NaiveGroupMeans(w, g.jobStatus.Keys);
      if g.status == Successful || g.status == Failed { return Ok(g); }
      var js := LookUpAll(g.jobStatus);
      if !js.Ok? { return Err; }
      var status := GetGroupStatus(js.value);
      assert status == Summary(js.value);
      PollEnds(start, old(log), log, old(w), w, gid, g.jobStatus, js.value, status);
      var g' := GroupMsg(gid, status, js.value);
      var fails := AnyError();
      if fails { return Err; }
      SetGroupMessage(g');
      r := Ok(g');
    }

    // ---------------------------------------------------------------- chains

    /** EnqueueChain: only the first job is enqueued; the rest hangs off it. */
    method EnqueueChain(me: nat, js: seq<Job>, cid: Id, cron: Cron) returns (r: Res<Id>)
      requires Valid() && IdleAt(w, me) && js != []
      modifies this
      ensures Valid() && GoesOn()
      ensures r.Ok? ==> && r.value == cid && cid in chains
                        && chains[cid] == ChainMsg(cid, Processing, chains[cid].jobID, [])
                        && Pushed(w, chains[cid].jobID)
                        && Some(w.rows[chains[cid].jobID].h.job) == Prepare(Chained(js), cron)
      ensures js[0].opts.id.None? ==> !r.Clash?
      ensures reliable && r.Err? ==> Prepare(Chained(js), cron).None?
    {
      var e := Enqueue(me, Chained(js), cron);
      if !e.Ok? { return if e.Err? then Err else Clash; }
      var fails := AnyError();
      if fails { return Err; }
      SetChainMessage(ChainMsg(cid, Processing, e.value, []));
      r := Ok(cid);
    }

    /** GetChain's walk from the first job of the chain, for up to `calls` lookups. */
    method Walk(first: Id, calls: nat) returns (r: Walked<Answer>)
      requires Valid() && Known(w, first)
      modifies this
      ensures Valid() && GoesOn() && Grow(old(w), w) && Known(w, first)
      ensures reliable ==> !r.Failing?
      ensures EndsUnscheduled(old(w).rows[first].h.job) && Depth(old(w).rows[first].h.job) <= calls ==> !r.Walking?
      ensures r.Answered? ==> WalkedBetween(NaiveChain(old(w), first), r.value, NaiveChain(w, first))
      ensures r.Answered? ==> AnsweredAt(start, log, |old(log)|, first, r.value)
    {
      Interfere(None);
      ghost var before := log;
      GrowKeepsFinal(old(w), w, first);
      assert RowGrow(old(w).rows[first], w.rows[first]);
      r := WalkOn(first, calls, old(w));
      if r.Answered? { AnsweredStays(start, log, log, |before|, |old(log)|, first, r.value); }
    }

    /** On to the first OnSuccess job of a successful one. */
    method Follow(first: Id, done: seq<Id>, curr: Id, ghost w0: World) returns (next: Id)
      requires Valid() && Grow(w0, w) && Known(w, first) && Path(w, first, done, curr) && HasLink(w, curr)
      modifies this
      ensures Valid() && GoesOn() && Grow(w0, w) && Known(w, first)
      ensures Known(w, next) && Path(w, first, done + [curr], next)
      ensures EndsUnscheduled(old(w).rows[curr].h.job) ==>
                EndsUnscheduled(w.rows[next].h.job) && Depth(old(w).rows[curr].h.job) == Depth(w.rows[next].h.job) + 1
    {
      hide Inv, Grow, Credible, ChainOk, IsRun, After, Path, EndsUnscheduled, Depth;
      WalkLeadsOn(w, first, done, curr);
      next := w.rows[curr].rec.value.meta.onSuccessIDs[0];
      Interfere(None);
      GrowIsTransitive(w0, old(w), w);
      WalkStays(old(w), w, first, done + [curr], next);
    }

    /** The loop; `done` are the successful jobs passed so far. */
    method WalkOn(first: Id, calls: nat, ghost w0: World) returns (r: Walked<Answer>)
      requires Valid() && Inv(w0) && Grow(w0, w) && Known(w0, first) && Known(w, first)
      modifies this
      ensures Valid() && GoesOn() && Grow(w0, w) && Known(w, first)
      ensures reliable ==> !r.Failing?
      ensures EndsUnscheduled(old(w).rows[first].h.job) && Depth(old(w).rows[first].h.job) <= calls ==> !r.Walking?
      ensures r.Answered? ==> WalkedBetween(NaiveChain(w0, first), r.value, NaiveChain(w, first))
      ensures r.Answered? ==> AnsweredAt(start, log, |old(log)|, first, r.value)
    {
      assert Path(w, first, [], first);
      hide Inv, Grow, Credible, ChainOk, IsRun, After, Path, EndsUnscheduled, Depth, NaiveChain;
      var done: seq<Id> := [];
      var curr, left := first, calls;
      ghost var bounded := EndsUnscheduled(w.rows[first].h.job) && Depth(w.rows[first].h.job) <= calls;
      while left > 0
        invariant Valid() && GoesOn() && Grow(w0, w) && Known(w, first)
        invariant Known(w, curr) && Path(w, first, done, curr)
        invariant bounded ==> EndsUnscheduled(w.rows[curr].h.job) && Depth(w.rows[curr].h.job) <= left
      {
        var fails := AnyError();
        if fails { return Failing; }
        var rec := w.rows[curr].rec.value;
        left := left - 1;
        if !(rec.meta.status == Successful && rec.meta.onSuccessIDs != []) {
          WalkEnds(w0, w, first, done, curr);
          AnsweredNow(start, log, |old(log)|, first);
          if rec.meta.status == Failed {
            return Answered(Answer(Failed, done + [curr]));
          } else if rec.meta.status != Successful {
            return Answered(Answer(Processing, done));
          }
          return Answered(Answer(Successful, done + [curr]));
        }
        var next := Follow(first, done, curr, w0);
        done := done + [curr];
        curr := next;
      }
      r := Walking;
    }

    /** GetChain, for up to `calls` lookups: one poll appends exactly the jobs done so far, in chain order, with
        a failed one last; its status is the one recomputed at some moment of the poll. It answers within as
        many lookups as the walk has jobs, if the last of them has no schedule. */
    method GetChain(cid: Id, calls: nat) returns (r: Walked<ChainMsg>)
      requires Valid()
      modifies this
      ensures Valid() && GoesOn()
      ensures cid !in old(chains) ==> r.Failing?
      ensures reliable && cid in old(chains) ==> !r.Failing?
      ensures cid in old(chains) ==>
                var c := old(chains)[cid];
                && Known(old(w), c.jobID)
                && (EndsUnscheduled(old(w).rows[c.jobID].h.job) && Depth(old(w).rows[c.jobID].h.job) <= calls ==>
                      !r.Walking?)
      ensures r.Answered? ==> cid in chains && chains[cid] == r.value
      ensures r.Answered? ==> r.value.id == cid && r.value.jobID == old(chains)[cid].jobID
      ensures r.Answered? && old(chains)[cid].status in {Failed, Successful} ==> r.value == old(chains)[cid]
      ensures r.Answered? && old(chains)[cid].status !in {Failed, Successful} ==>
                var c := old(chains)[cid];
                && Known(old(w), c.jobID) && Known(w, c.jobID)
                && c.prevJobs <= r.value.prevJobs
                && WalkedBetween(NaiveChain(old(w), c.jobID),
                                 Answer(r.value.status, r.value.prevJobs[|c.prevJobs|..]),
                                 NaiveChain(w, c.jobID))
                && AnsweredAt(start, log, |old(log)|, c.jobID,
                              Answer(r.value.status, r.value.prevJobs[|c.prevJobs|..]))
      ensures r.Answered? ==> r.value.status in {Failed, Successful, Processing}
    {
      if cid !in chains { return Failing; }
      var c := chains[cid];
      assert ChainOk(w, c);
      if IsFinal(c.status) { return Answered(c); }
      var a := Walk(c.jobID, calls);
      if !a.Answered? { return if a.Failing? then Failing else Walking; }
      var c' := ChainMsg(cid, a.value.status, c.jobID, c.prevJobs + a.value.done);
      assert c'.prevJobs[|c.prevJobs|..] == a.value.done;
      var fails := AnyError();
      if fails { return Failing; }
      RunGrows(start, old(log), log);
      SetChainMessage(c');
      r := Answered(c');
    }
  }
}
