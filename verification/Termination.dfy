/** Work is finite: in a run, without schedules, every job tree causes a bounded number of handler runs, and
    the system takes a bounded number of steps for it. */
module Termination {
  import opened Jobs
  import opened Protocol
  import opened Invariant
  import opened Preservation
  import opened Lifecycle

  // ---------------------------------------------------------------- sums over maps

  ghost function Sum(m: map<nat, nat>): nat {
    if m == map[] then 0 else var k :| k in m; m[k] + Sum(m - {k})
  }

  function Get(m: map<nat, nat>, k: nat): nat {
    if k in m then m[k] else 0
  }

  lemma {:induction false} SumRemove(m: map<nat, nat>, k: nat)
    requires k in m
    ensures Sum(m) == m[k] + Sum(m - {k})
    decreases |m|
  {
    var j :| j in m && Sum(m) == m[j] + Sum(m - {j});
    if j != k {
      SumRemove(m - {j}, k);
      SumRemove(m - {k}, j);
      assert m - {j} - {k} == m - {k} - {j};
    }
  }

  /** Changing one entry of a map changes its sum by as much. */
  lemma SumChange(m: map<nat, nat>, m': map<nat, nat>, k: nat)
    requires m' - {k} == m - {k}
    ensures Sum(m') + Get(m, k) == Sum(m) + Get(m', k)
  {
    if k in m { SumRemove(m, k); } else { assert m - {k} == m; }
    if k in m' { SumRemove(m', k); } else { assert m' - {k} == m'; }
  }

  lemma SumMoves(m: map<nat, nat>, m': map<nat, nat>, c: nat, t: nat)
    requires c in m && t in m && c in m' && t in m' && c != t && m' - {c, t} == m - {c, t}
    ensures Sum(m') + m[c] + m[t] == Sum(m) + m'[c] + m'[t]
  {
    assert m' - {c} - {t} == m' - {c, t} && m - {c} - {t} == m - {c, t};
    SumChange(m - {c}, m' - {c}, t);
    SumRemove(m, c);
    SumRemove(m', c);
  }

  lemma NothingRemoved(m: map<nat, nat>, m': map<nat, nat>)
    requires m' - {} == m - {}
    ensures m' == m
  {
    assert m' - {} == m' && m - {} == m;
  }

  // ---------------------------------------------------------------- what a job may cost

  /** What is counted: all steps, or only the starts of handlers. */
  datatype Mode = AllSteps | HandlerRuns

  /** n steps that are not handler starts. */
  function Plain(mode: Mode, n: nat): nat {
    if mode.AllSteps? then n else 0
  }

  /** A queued message with `left` retries left, up to its last handler run. */
  function Attempts(mode: Mode, left: nat): nat {
    if mode.AllSteps? then 6 * left + 4 else left + 1
  }

  function Max(a: nat, b: nat): nat {
    if a < b then b else a
  }

  /** Everything that enqueueing job j can cause. */
  function Cost(mode: Mode, j: Job): nat
    decreases j, 1
  {
    Plain(mode, 3) + Attempts(mode, j.opts.maxRetries) + Tail(mode, j)
  }

  /** What follows the last handler run. */
  function Tail(mode: Mode, j: Job): nat
    decreases j, 0
  {
    Plain(mode, 2) + Max(CostAll(mode, j.onSuccess), CostAll(mode, j.onError))
  }

  function CostAll(mode: Mode, js: seq<Job>): nat
    decreases js, 0
  {
    if js == [] then 0 else Plain(mode, 1) + Cost(mode, js[0]) + CostAll(mode, js[1..])
  }

  /** The bound on handler runs: MaxRetries + 1 for the job itself, then the larger of the sums over its
      OnSuccess and over its OnError jobs. */
  function RunBound(j: Job): nat
    decreases j, 0
  {
    j.opts.maxRetries + 1 + Max(RunBounds(j.onSuccess), RunBounds(j.onError))
  }

  function RunBounds(js: seq<Job>): nat
    decreases js, 0
  {
    if js == [] then 0 else RunBound(js[0]) + RunBounds(js[1..])
  }

  lemma {:induction false} CostIsRunBound(j: Job)
    ensures Cost(HandlerRuns, j) == RunBound(j)
    decreases j, 0
  {
    CostsAreRunBounds(j.onSuccess);
    CostsAreRunBounds(j.onError);
  }

  lemma {:induction false} CostsAreRunBounds(js: seq<Job>)
    ensures CostAll(HandlerRuns, js) == RunBounds(js)
    decreases js, 0
  {
    if js != [] {
      CostIsRunBound(js[0]);
      CostsAreRunBounds(js[1..]);
    }
  }

  predicate Unscheduled(j: Job) {
    && j.opts.schedule == ""
    && (forall i | 0 <= i < |j.onSuccess| :: Unscheduled(j.onSuccess[i]))
    && (forall i | 0 <= i < |j.onError| :: Unscheduled(j.onError[i]))
  }

  // ---------------------------------------------------------------- the potential of a world

  /** What a message with left retries still costs at a stage. */
  function StageCost(mode: Mode, m: Msg, st: Stage): nat {
    var left := if m.meta.retried <= m.meta.maxRetry then m.meta.maxRetry - m.meta.retried else 0;
    match st
    case Handing => Attempts(mode, left) - Plain(mode, 1) + Tail(mode, m.job)
    case Got => Attempts(mode, left) - Plain(mode, 2) + Tail(mode, m.job)
    case Running => Attempts(mode, left) - (if mode.AllSteps? then 3 else 1) + Tail(mode, m.job)
    case RetryWriting => Plain(mode, 2) + Attempts(mode, left) + Tail(mode, m.job)
    case RetryPushing => Plain(mode, 1) + Attempts(mode, left) + Tail(mode, m.job)
    case Kids(ok, k) => Plain(mode, 2) + CostAll(mode, Rest(Followers(m.job, ok), k))
    case Closing(_) => Plain(mode, 1)
  }

  function Rest(js: seq<Job>, k: nat): seq<Job> {
    if k <= |js| then js[k..] else []
  }

  function PcCost(mode: Mode, pc: Pc): nat {
    match pc
    case Idle => 0
    case Busy(m, st) => StageCost(mode, m, st)
    case Enqueueing(ctx, c, written) =>
      Cost(mode, c.job) - Plain(mode, if written then 1 else 0)
      + (if ctx.Parent? then Plain(mode, 2) + CostAll(mode, Rest(Followers(ctx.m.job, ctx.ok), ctx.k + 1)) else 0)
  }

  function BoxCost(mode: Mode, e: Entry): nat {
    var m := e.msg;
    Plain(mode, if e.scheduled then 1 else 0)
    + Attempts(mode, if m.meta.retried <= m.meta.maxRetry then m.meta.maxRetry - m.meta.retried else 0)
    + Tail(mode, m.job)
  }

  /** Which jobs count: all, or those of one tree, named by its root. */
  type Filter = Option<Id>

  predicate Counts(w: World, who: Filter, id: Id) {
    who.None? || (id in w.rows && w.rows[id].h.root == who.value)
  }

  function PcId(pc: Pc): Id
    requires !pc.Idle?
  {
    if pc.Busy? then pc.m.meta.id else pc.c.meta.id
  }

  function PcShare(w: World, mode: Mode, who: Filter, pc: Pc): nat {
    if pc.Idle? || !Counts(w, who, PcId(pc)) then 0 else PcCost(mode, pc)
  }

  function BoxShare(w: World, mode: Mode, who: Filter, e: Entry): nat {
    if Counts(w, who, e.msg.meta.id) then BoxCost(mode, e) else 0
  }

  function PcShares(w: World, mode: Mode, who: Filter): map<nat, nat> {
    map t | t in w.threads :: PcShare(w, mode, who, w.threads[t])
  }

  function BoxShares(w: World, mode: Mode, who: Filter): map<nat, nat> {
    map k | k in w.box :: BoxShare(w, mode, who, w.box[k])
  }

  ghost function Potential(w: World, mode: Mode, who: Filter): nat {
    Sum(PcShares(w, mode, who)) + Sum(BoxShares(w, mode, who))
  }

  // ---------------------------------------------------------------- what a step pays

  /** The job a step works on. */
  function StepId(w: World, s: Step): Option<Id>
    requires Ready(w, s)
  {
    match s
    case Write(t, _) => Some(w.threads[t].c.meta.id)
    case Push(t, _) => Some(w.threads[t].c.meta.id)
    case Receive(_, k, f) => if f.FailedBefore? then None else Some(w.box[k].msg.meta.id)
    case Handoff(c, _) => Some(w.threads[c].m.meta.id)
    case Work(t, _) => Some(w.threads[t].m.meta.id)
    case Requeue(t, _) => Some(w.threads[t].m.meta.id)
    case KidBegin(t, _, _) => Some(w.threads[t].m.meta.id)
    case Move(k, stop) => if stop.AtPush? then None else Some(w.box[k].msg.meta.id)
    case _ => None
  }

  /** 1 for a counted step. Client enqueues, saves, deletions and polls that fail before they change
      anything are the environment's. */
  function Pays(w: World, s: Step, mode: Mode, who: Filter): nat
    requires Ready(w, s)
  {
    var id := StepId(w, s);
    if id.Some? && Counts(w, who, id.value)
       && (mode.AllSteps? || (s.Work? && s.a.Process? && s.a.f.Fine?)) then 1 else 0
  }

  /** What a client enqueue adds to the potential. */
  function Grants(s: Step, mode: Mode, who: Filter): nat {
    if s.ClientBegin? && (who.None? || who.value == s.id) then Cost(mode, s.job) else 0
  }

  /** Every stored job that counts is an unscheduled tree, and so is every follower of one. */
  ghost predicate AllUnscheduled(w: World, who: Filter) {
    forall id | id in w.rows && Counts(w, who, id) :: Unscheduled(w.rows[id].h.job)
  }

  /** What a client enqueues is, if it counts. */
  predicate ClientUnscheduled(s: Step, who: Filter) {
    s.ClientBegin? && (who.None? || who.value == s.id) ==> Unscheduled(s.job)
  }

  lemma FollowerIsUnscheduled(w: World, t: nat, id: Id, cron: Cron)
    requires CanKidBegin(w, t, id, cron) && Unscheduled(w.threads[t].m.job)
    ensures Unscheduled(DoKidBegin(w, t, id, cron).rows[id].h.job)
  {
    var Busy(m, Kids(ok, k)) := w.threads[t];
    assert Unscheduled(Followers(m.job, ok)[k]);
  }

  lemma StepKeepsUnscheduled(w: World, s: Step, who: Filter)
    requires Inv(w) && Enabled(w, s) && AllUnscheduled(w, who) && ClientUnscheduled(s, who)
    ensures AllUnscheduled(Apply(w, s), who)
  {
    StepKeeps(w, s);
    hide Unscheduled;
    var w' := Apply(w, s);
    forall id | id in w'.rows && Counts(w', who, id)
      ensures Unscheduled(w'.rows[id].h.job)
    {
      if id in w.rows {
        assert RowGrow(w.rows[id], w'.rows[id]);
        assert Counts(w, who, id);
      } else {
        NewRow(w, s, who, id);
      }
    }
  }

  lemma NewRow(w: World, s: Step, who: Filter, id: Id)
    requires Inv(w) && Enabled(w, s) && AllUnscheduled(w, who) && ClientUnscheduled(s, who)
    requires id !in w.rows && id in Apply(w, s).rows && Counts(Apply(w, s), who, id)
    ensures Unscheduled(Apply(w, s).rows[id].h.job)
  {
    if s.KidBegin? {
      var p := w.threads[s.t].m.meta.id;
      assert PcOk(w, s.t, w.threads[s.t]);
      assert Counts(w, who, p);
      FollowerIsUnscheduled(w, s.t, s.id, s.cron);
    } else {
      hide Unscheduled;
    }
  }

  // ---------------------------------------------------------------- shares of what a step leaves alone

  lemma OtherThreads(w: World, w': World, mode: Mode, who: Filter, T: set<nat>)
    requires Inv(w) && Grow(w, w') && w'.threads.Keys == w.threads.Keys
    requires forall t | t in w.threads && t !in T :: w'.threads[t] == w.threads[t]
    ensures PcShares(w', mode, who) - T == PcShares(w, mode, who) - T
  {
    hide PcCost, RowOk, BoxOk;
    forall t | t in w.threads && t !in T
      ensures PcShare(w', mode, who, w'.threads[t]) == PcShare(w, mode, who, w.threads[t])
    {
      assert PcOk(w, t, w.threads[t]);
      if !w.threads[t].Idle? {
        assert Holds(w.threads[t], PcId(w.threads[t]));
      }
    }
  }

  lemma OtherBoxes(w: World, w': World, mode: Mode, who: Filter, K: set<nat>)
    requires Inv(w) && Grow(w, w') && SameBoxes(w, w', K)
    ensures BoxShares(w', mode, who) - K == BoxShares(w, mode, who) - K
  {
    forall k | k in w.box && k !in K
      ensures BoxShare(w', mode, who, w'.box[k]) == BoxShare(w, mode, who, w.box[k])
    {
      assert BoxOk(w, k);
    }
  }

  /** The broker entries outside K are the same. */
  predicate SameBoxes(w: World, w': World, K: set<nat>) {
    && (forall k | k in w.box && k !in K :: k in w'.box && w'.box[k] == w.box[k])
    && (forall k | k in w'.box && k !in K :: k in w.box)
  }

  /** The potential after a step that touches no thread and no broker entry. */
  lemma PotentialStays(w: World, w': World, mode: Mode, who: Filter)
    requires Inv(w) && Grow(w, w') && w'.threads == w.threads && w'.box == w.box
    ensures Potential(w', mode, who) == Potential(w, mode, who)
  {
    OtherThreads(w, w', mode, who, {});
    OtherBoxes(w, w', mode, who, {});
    NothingRemoved(PcShares(w, mode, who), PcShares(w', mode, who));
    NothingRemoved(BoxShares(w, mode, who), BoxShares(w', mode, who));
  }

  /** The potential after a step that touches two threads. */
  lemma PotentialMoves(w: World, w': World, mode: Mode, who: Filter, c: nat, t: nat)
    requires Inv(w) && Grow(w, w') && w'.threads.Keys == w.threads.Keys && c in w.threads && t in w.threads && c != t
    requires forall u | u in w.threads && u !in {c, t} :: w'.threads[u] == w.threads[u]
    requires w'.box == w.box
    ensures Potential(w', mode, who)
            + PcShare(w, mode, who, w.threads[c]) + PcShare(w, mode, who, w.threads[t])
            == Potential(w, mode, who)
               + PcShare(w', mode, who, w'.threads[c]) + PcShare(w', mode, who, w'.threads[t])
  {
    OtherThreads(w, w', mode, who, {c, t});
    OtherBoxes(w, w', mode, who, {});
    NothingRemoved(BoxShares(w, mode, who), BoxShares(w', mode, who));
    SumMoves(PcShares(w, mode, who), PcShares(w', mode, who), c, t);
  }

  function BoxAt(w: World, mode: Mode, who: Filter, k: nat): nat {
    if k in w.box then BoxShare(w, mode, who, w.box[k]) else 0
  }

  /** The step touches only thread t and broker entry k. */
  predicate OnlyAt(w: World, w': World, t: nat, k: nat) {
    && t in w.threads && w'.threads.Keys == w.threads.Keys
    && (forall u | u in w.threads && u != t :: w'.threads[u] == w.threads[u])
    && SameBoxes(w, w', {k})
  }

  /** The potential after a step that touches one thread and one broker entry. */
  lemma PotentialChange(w: World, w': World, mode: Mode, who: Filter, t: nat, k: nat)
    requires Inv(w) && Grow(w, w') && OnlyAt(w, w', t, k)
    ensures Potential(w', mode, who)
            + PcShare(w, mode, who, w.threads[t]) + BoxAt(w, mode, who, k)
            == Potential(w, mode, who)
               + PcShare(w', mode, who, w'.threads[t]) + BoxAt(w', mode, who, k)
  {
    OtherThreads(w, w', mode, who, {t});
    OtherBoxes(w, w', mode, who, {k});
    SumChange(PcShares(w, mode, who), PcShares(w', mode, who), t);
    SumChange(BoxShares(w, mode, who), BoxShares(w', mode, who), k);
  }

  // ---------------------------------------------------------------- every step pays

  lemma WorkLocal(w: World, t: nat, a: Act, mode: Mode)
    requires CanWork(w, t, a) && PcOk(w, t, w.threads[t])
    ensures var Busy(m, st) := w.threads[t]; var pc := ActOn(w.rows[m.meta.id], m, st, a).1;
            PcCost(mode, pc) + (if mode.AllSteps? || (a.Process? && a.f.Fine?) then 1 else 0)
            <= PcCost(mode, w.threads[t])
  {
  }

  lemma WorkOnlyAt(w: World, t: nat, a: Act)
    requires CanWork(w, t, a) && PcOk(w, t, w.threads[t])
    ensures var w' := DoWork(w, t, a);
            OnlyAt(w, w', t, w.next) && w'.box == w.box && !w'.threads[t].Enqueueing?
            && (w'.threads[t].Busy? ==> PcId(w'.threads[t]) == PcId(w.threads[t]))
  {
  }

  lemma WorkShare(w: World, t: nat, a: Act, mode: Mode, who: Filter)
    requires CanWork(w, t, a) && PcOk(w, t, w.threads[t]) && Grow(w, DoWork(w, t, a))
    ensures var w' := DoWork(w, t, a);
            && OnlyAt(w, w', t, w.next) && w'.box == w.box
            && PcShare(w', mode, who, w'.threads[t]) + Pays(w, Work(t, a), mode, who)
               <= PcShare(w, mode, who, w.threads[t])
  {
    hide PcCost, ActOn, PcOk, CanAct;
    WorkOnlyAt(w, t, a);
    WorkLocal(w, t, a, mode);
    var id := w.threads[t].m.meta.id;
    assert Counts(DoWork(w, t, a), who, id) == Counts(w, who, id);
  }

  lemma WorkPays(w: World, t: nat, a: Act, mode: Mode, who: Filter)
    requires Inv(w) && CanWork(w, t, a)
    ensures Potential(DoWork(w, t, a), mode, who) + Pays(w, Work(t, a), mode, who) <= Potential(w, mode, who)
  {
    var w' := DoWork(w, t, a);
    assert PcOk(w, t, w.threads[t]);
    WorkKeeps(w, t, a);
    WorkShare(w, t, a, mode, who);
    NextIsNew(w);
    PotentialChange(w, w', mode, who, t, w.next);
  }

  lemma RequeueLocal(w: World, t: nat, f: Fault, mode: Mode)
    requires CanRequeue(w, t) && PcOk(w, t, w.threads[t])
    ensures OnlyAt(w, DoRequeue(w, t, f), t, w.next) && DoRequeue(w, t, f).threads[t].Idle?
    ensures if f.FailedBefore? then DoRequeue(w, t, f).box == w.box
            else && w.next in DoRequeue(w, t, f).box
                 && DoRequeue(w, t, f).box[w.next].msg.meta.id == w.threads[t].m.meta.id
                 && BoxCost(mode, DoRequeue(w, t, f).box[w.next]) + Plain(mode, 1) <= PcCost(mode, w.threads[t])
  {
  }

  lemma RequeuePays(w: World, t: nat, f: Fault, mode: Mode, who: Filter)
    requires Inv(w) && CanRequeue(w, t)
    ensures Potential(DoRequeue(w, t, f), mode, who) + Pays(w, Requeue(t, f), mode, who) <= Potential(w, mode, who)
  {
    assert PcOk(w, t, w.threads[t]);
    RequeueKeeps(w, t, f);
    RequeueLocal(w, t, f, mode);
    NextIsNew(w);
    PotentialChange(w, DoRequeue(w, t, f), mode, who, t, w.next);
  }

  lemma ReceivePays(w: World, t: nat, k: nat, f: Fault, mode: Mode, who: Filter)
    requires Inv(w) && CanReceive(w, t, k)
    ensures Potential(DoReceive(w, t, k, f), mode, who) + Pays(w, Receive(t, k, f), mode, who)
            <= Potential(w, mode, who)
  {
    assert BoxOk(w, k);
    ReceiveKeeps(w, t, k, f);
    PotentialChange(w, DoReceive(w, t, k, f), mode, who, t, k);
  }

  /** The potential after a step that touches one broker entry only. */
  lemma PotentialAt(w: World, w': World, mode: Mode, who: Filter, k: nat)
    requires Inv(w) && Grow(w, w') && w'.threads == w.threads && SameBoxes(w, w', {k})
    ensures Potential(w', mode, who) + BoxAt(w, mode, who, k) == Potential(w, mode, who) + BoxAt(w', mode, who, k)
  {
    OtherThreads(w, w', mode, who, {});
    NothingRemoved(PcShares(w, mode, who), PcShares(w', mode, who));
    OtherBoxes(w, w', mode, who, {k});
    SumChange(BoxShares(w, mode, who), BoxShares(w', mode, who), k);
  }

  lemma MoveLocal(w: World, k: nat, stop: Stop, mode: Mode, who: Filter)
    requires CanMove(w, k) && !stop.AfterPush?
    ensures BoxAt(DoMove(w, k, stop), mode, who, k) + Pays(w, Move(k, stop), mode, who) <= BoxAt(w, mode, who, k)
    ensures SameBoxes(w, DoMove(w, k, stop), {k})
  {
  }

  lemma MovePays(w: World, k: nat, stop: Stop, mode: Mode, who: Filter)
    requires Inv(w) && CanMove(w, k) && !stop.AfterPush?
    ensures Potential(DoMove(w, k, stop), mode, who) + Pays(w, Move(k, stop), mode, who) <= Potential(w, mode, who)
  {
    MoveKeeps(w, k, stop);
    MoveLocal(w, k, stop, mode, who);
    hide Inv, Potential, BoxAt, Pays;
    PotentialAt(w, DoMove(w, k, stop), mode, who, k);
  }

  lemma HandoffPays(w: World, c: nat, t: nat, mode: Mode, who: Filter)
    requires Inv(w) && CanHandoff(w, c, t)
    ensures Potential(DoHandoff(w, c, t), mode, who) + Pays(w, Handoff(c, t), mode, who) <= Potential(w, mode, who)
  {
    assert PcOk(w, c, w.threads[c]);
    HandoffKeeps(w, c, t);
    PotentialMoves(w, DoHandoff(w, c, t), mode, who, c, t);
  }

  lemma WriteLocal(w: World, t: nat, f: Fault, mode: Mode)
    requires CanWrite(w, t)
    ensures PcCost(mode, DoWrite(w, t, f).threads[t]) + Plain(mode, 1) <= PcCost(mode, w.threads[t])
    ensures !DoWrite(w, t, f).threads[t].Idle? ==> PcId(DoWrite(w, t, f).threads[t]) == PcId(w.threads[t])
  {
  }

  lemma WriteShare(w: World, t: nat, f: Fault, mode: Mode, who: Filter)
    requires CanWrite(w, t) && Grow(w, DoWrite(w, t, f))
    ensures var w' := DoWrite(w, t, f);
            && OnlyAt(w, w', t, w.next) && w'.box == w.box
            && PcShare(w', mode, who, w'.threads[t]) + Pays(w, Write(t, f), mode, who)
               <= PcShare(w, mode, who, w.threads[t])
  {
    WriteLocal(w, t, f, mode);
  }

  lemma WritePays(w: World, t: nat, f: Fault, mode: Mode, who: Filter)
    requires Inv(w) && CanWrite(w, t)
    ensures Potential(DoWrite(w, t, f), mode, who) + Pays(w, Write(t, f), mode, who) <= Potential(w, mode, who)
  {
    assert PcOk(w, t, w.threads[t]);
    WriteKeeps(w, t, f);
    WriteShare(w, t, f, mode, who);
    NextIsNew(w);
    PotentialChange(w, DoWrite(w, t, f), mode, who, t, w.next);
  }

  /** A child belongs to its parent's tree. */
  lemma SameRoot(w: World, t: nat)
    requires Inv(w) && t in w.threads && w.threads[t].Enqueueing? && w.threads[t].ctx.Parent?
    ensures var p := w.threads[t].ctx.m.meta.id; var c := w.threads[t].c.meta.id;
            p in w.rows && c in w.rows && w.rows[c].h.root == w.rows[p].h.root
  {
    assert PcOk(w, t, w.threads[t]);
    var p := w.threads[t].ctx.m.meta.id;
    assert RowOk(w, p);
    assert KidLink(w, p, w.rows[p].h.kids[w.threads[t].ctx.k], w.threads[t].ctx.k);
  }

  lemma PushLocal(w: World, t: nat, f: Fault, mode: Mode)
    requires CanPush(w, t) && PcOk(w, t, w.threads[t])
    ensures var w' := DoPush(w, t, f);
            PcCost(mode, w'.threads[t]) + (if f.FailedBefore? then 0 else BoxCost(mode, w'.box[w.next]))
            + Plain(mode, 1)
            <= PcCost(mode, w.threads[t])
    ensures OnlyAt(w, DoPush(w, t, f), t, w.next)
    ensures if f.FailedBefore? then DoPush(w, t, f).box == w.box
            else w.next in DoPush(w, t, f).box && DoPush(w, t, f).box[w.next].msg.meta.id == w.threads[t].c.meta.id
    ensures !DoPush(w, t, f).threads[t].Idle? ==>
              w.threads[t].ctx.Parent? && PcId(DoPush(w, t, f).threads[t]) == w.threads[t].ctx.m.meta.id
  {
    var ctx := w.threads[t].ctx;
    if ctx.Parent? {
      assert Rest(Followers(ctx.m.job, ctx.ok), ctx.k + 1) == Followers(ctx.m.job, ctx.ok)[ctx.k + 1..];
    }
  }

  lemma PushShare(w: World, t: nat, f: Fault, mode: Mode, who: Filter)
    requires CanPush(w, t) && PcOk(w, t, w.threads[t]) && Grow(w, DoPush(w, t, f)) && w.next !in w.box
    requires w.threads[t].ctx.Parent? ==>
               w.rows[w.threads[t].c.meta.id].h.root == w.rows[w.threads[t].ctx.m.meta.id].h.root
    ensures var w' := DoPush(w, t, f);
            && OnlyAt(w, w', t, w.next)
            && PcShare(w', mode, who, w'.threads[t]) + BoxAt(w', mode, who, w.next) + Pays(w, Push(t, f), mode, who)
               <= PcShare(w, mode, who, w.threads[t])
  {
    PushLocal(w, t, f, mode);
  }

  lemma PushPays(w: World, t: nat, f: Fault, mode: Mode, who: Filter)
    requires Inv(w) && CanPush(w, t)
    ensures Potential(DoPush(w, t, f), mode, who) + Pays(w, Push(t, f), mode, who) <= Potential(w, mode, who)
  {
    assert PcOk(w, t, w.threads[t]);
    PushKeeps(w, t, f);
    NextIsNew(w);
    if w.threads[t].ctx.Parent? {
      SameRoot(w, t);
    }
    PushShare(w, t, f, mode, who);
    PotentialChange(w, DoPush(w, t, f), mode, who, t, w.next);
  }

  lemma KidBeginLocal(w: World, t: nat, id: Id, cron: Cron, mode: Mode)
    requires CanKidBegin(w, t, id, cron)
    ensures OnlyAt(w, DoKidBegin(w, t, id, cron), t, w.next) && DoKidBegin(w, t, id, cron).box == w.box
    ensures Unscheduled(w.threads[t].m.job) ==>
              PcCost(mode, DoKidBegin(w, t, id, cron).threads[t]) + Plain(mode, 1) <= PcCost(mode, w.threads[t])
    ensures DoKidBegin(w, t, id, cron).threads[t].Enqueueing? && DoKidBegin(w, t, id, cron).threads[t].c.meta.id == id
    ensures id in DoKidBegin(w, t, id, cron).rows
            && DoKidBegin(w, t, id, cron).rows[id].h.root == w.rows[w.threads[t].m.meta.id].h.root
  {
    var Busy(m, Kids(ok, k)) := w.threads[t];
    var js := Followers(m.job, ok);
    assert Rest(js, k) == js[k..] && js[k..][0] == js[k] && js[k..][1..] == js[k + 1..];
    assert Unscheduled(m.job) ==> Unscheduled(js[k]);
  }

  lemma KidBeginShare(w: World, t: nat, id: Id, cron: Cron, mode: Mode, who: Filter)
    requires CanKidBegin(w, t, id, cron) && id !in w.rows && Grow(w, DoKidBegin(w, t, id, cron))
    requires Counts(w, who, w.threads[t].m.meta.id) ==> Unscheduled(w.threads[t].m.job)
    ensures var w' := DoKidBegin(w, t, id, cron);
            && OnlyAt(w, w', t, w.next) && w'.box == w.box
            && PcShare(w', mode, who, w'.threads[t]) + Pays(w, KidBegin(t, id, cron), mode, who)
               <= PcShare(w, mode, who, w.threads[t])
  {
    KidBeginLocal(w, t, id, cron, mode);
  }

  lemma KidBeginPays(w: World, t: nat, id: Id, cron: Cron, mode: Mode, who: Filter)
    requires Inv(w) && CanKidBegin(w, t, id, cron) && id !in w.rows && AllUnscheduled(w, who)
    ensures Potential(DoKidBegin(w, t, id, cron), mode, who) + Pays(w, KidBegin(t, id, cron), mode, who)
            <= Potential(w, mode, who)
  {
    assert PcOk(w, t, w.threads[t]);
    KidBeginKeeps(w, t, id, cron);
    assert w.rows[w.threads[t].m.meta.id].h.job == w.threads[t].m.job;
    KidBeginShare(w, t, id, cron, mode, who);
    NextIsNew(w);
    PotentialChange(w, DoKidBegin(w, t, id, cron), mode, who, t, w.next);
  }

  lemma ClientBeginPays(w: World, t: nat, job: Job, id: Id, cron: Cron, mode: Mode, who: Filter)
    requires Inv(w) && CanClientBegin(w, t, job, id, cron) && id !in w.rows
    requires ClientUnscheduled(ClientBegin(t, job, id, cron), who)
    ensures Potential(DoClientBegin(w, t, job, id, cron), mode, who)
            <= Potential(w, mode, who) + Grants(ClientBegin(t, job, id, cron), mode, who)
  {
    ClientBeginKeeps(w, t, job, id, cron);
    NextIsNew(w);
    PotentialChange(w, DoClientBegin(w, t, job, id, cron), mode, who, t, w.next);
  }

  lemma SavedPays(w: World, s: Step, mode: Mode, who: Filter)
    requires Inv(w) && Enabled(w, s) && (s.Save? || s.Delete?)
    ensures Potential(Apply(w, s), mode, who) <= Potential(w, mode, who)
  {
    StepKeeps(w, s);
    PotentialStays(w, Apply(w, s), mode, who);
  }

  lemma ThreadStepPays(w: World, s: Step, mode: Mode, who: Filter)
    requires Inv(w) && Enabled(w, s) && AllUnscheduled(w, who)
    requires s.Write? || s.Push? || s.Work? || s.Requeue? || s.KidBegin?
    ensures Potential(Apply(w, s), mode, who) + Pays(w, s, mode, who) <= Potential(w, mode, who)
  {
    if s.Write? { WritePays(w, s.t, s.f, mode, who); }
    else if s.Push? { PushPays(w, s.t, s.f, mode, who); }
    else if s.Work? { WorkPays(w, s.t, s.a, mode, who); }
    else if s.Requeue? { RequeuePays(w, s.t, s.f, mode, who); }
    else { KidBeginPays(w, s.t, s.id, s.cron, mode, who); }
  }

  /** The potential falls at every step on a job that counts, unless it is the environment's. Only jobs that
      count have to be unscheduled. */
  lemma StepPays(w: World, s: Step, mode: Mode, who: Filter)
    requires Inv(w) && Enabled(w, s) && AllUnscheduled(w, who) && ClientUnscheduled(s, who)
    ensures Potential(Apply(w, s), mode, who) + Pays(w, s, mode, who) <= Potential(w, mode, who) + Grants(s, mode, who)
  {
    match s
    case ClientBegin(t, job, id, cron) => ClientBeginPays(w, t, job, id, cron, mode, who);
    case Receive(t, k, f) => ReceivePays(w, t, k, f, mode, who);
    case Handoff(c, t) => HandoffPays(w, c, t, mode, who);
    case Move(k, stop) => MovePays(w, k, stop, mode, who);
    case Save(id, _) => SavedPays(w, s, mode, who);
    case Delete(id) => SavedPays(w, s, mode, who);
    case _ => ThreadStepPays(w, s, mode, who);
  }

  // ---------------------------------------------------------------- whole runs

  ghost function Paid(w: World, tr: seq<Step>, mode: Mode, who: Filter): nat
    requires IsPossible(w, tr)
  {
    if tr == [] then 0
    else
      var before := tr[..|tr| - 1];
      Paid(w, before, mode, who) + Pays(After(w, before), tr[|tr| - 1], mode, who)
  }

  function Granted(tr: seq<Step>, mode: Mode, who: Filter): nat {
    if tr == [] then 0 else Granted(tr[..|tr| - 1], mode, who) + Grants(tr[|tr| - 1], mode, who)
  }

  /** In every run, what was paid is at most what the clients' enqueues granted. */
  lemma {:induction false} RunIsPaidFor(w0: World, tr: seq<Step>, w: World, mode: Mode, who: Filter)
    requires Reachable(w0, tr, w) && forall i | 0 <= i < |tr| :: ClientUnscheduled(tr[i], who)
    ensures AllUnscheduled(w, who)
    ensures Paid(w0, tr, mode, who) + Potential(w, mode, who) <= Granted(tr, mode, who)
  {
    if tr == [] {
      assert forall t | t in w.threads :: PcShare(w, mode, who, w.threads[t]) == 0;
      AllZero(PcShares(w, mode, who));
    } else {
      var before := tr[..|tr| - 1];
      RunIsPaidFor(w0, before, After(w0, before), mode, who);
      ReachableInv(w0, before, After(w0, before));
      StepPays(After(w0, before), tr[|tr| - 1], mode, who);
      StepKeepsUnscheduled(After(w0, before), tr[|tr| - 1], who);
    }
  }

  lemma {:induction false} AllZero(m: map<nat, nat>)
    requires forall k | k in m :: m[k] == 0
    ensures Sum(m) == 0
    decreases |m|
  {
    if m != map[] {
      var k :| k in m;
      SumRemove(m, k);
      AllZero(m - {k});
    }
  }

  /** Client enqueues, saves and deletions, and polls that fail before they change anything. */
  predicate IsEnvironment(s: Step) {
    || s.ClientBegin? || s.Save? || s.Delete?
    || (s.Receive? && s.f.FailedBefore?) || (s.Move? && s.stop.AtPush?)
  }

  /** Steps on jobs that count, other than the environment's. */
  ghost function StepsOn(w: World, tr: seq<Step>, who: Filter): nat
    requires IsPossible(w, tr)
  {
    if tr == [] then 0
    else
      var before, s := tr[..|tr| - 1], tr[|tr| - 1];
      var id := StepId(After(w, before), s);
      StepsOn(w, before, who)
      + if !IsEnvironment(s) && id.Some? && Counts(After(w, before), who, id.value) then 1 else 0
  }

  /** Termination: with who None, of all jobs, a run has at most as many steps, other than the environment's,
      as its enqueues grant; and so has one unscheduled tree of jobs, whatever else is enqueued. */
  lemma StepsAreBounded(w0: World, tr: seq<Step>, w: World, who: Filter)
    requires Reachable(w0, tr, w) && forall i | 0 <= i < |tr| :: ClientUnscheduled(tr[i], who)
    ensures StepsOn(w0, tr, who) <= Granted(tr, AllSteps, who)
    ensures who.None? ==> Internal(tr) <= Granted(tr, AllSteps, who)
    ensures who.Some? ==>
              StepsOn(w0, tr, who) <= if who.value in w.rows then Cost(AllSteps, w.rows[who.value].h.job) else 0
  {
    RunIsPaidFor(w0, tr, w, AllSteps, who);
    StepsArePaid(w0, tr, who);
    if who.Some? { GrantedOnce(w0, tr, w, AllSteps, who.value); }
  }

  function Internal(tr: seq<Step>): nat {
    if tr == [] then 0
    else
      Internal(tr[..|tr| - 1]) + if IsEnvironment(tr[|tr| - 1]) then 0 else 1
  }

  lemma {:induction false} StepsArePaid(w0: World, tr: seq<Step>, who: Filter)
    requires IsRun(w0, tr)
    ensures StepsOn(w0, tr, who) == Paid(w0, tr, AllSteps, who)
    ensures who.None? ==> StepsOn(w0, tr, who) == Internal(tr)
  {
    if tr != [] {
      StepsArePaid(w0, tr[..|tr| - 1], who);
    }
  }

  /** Handler starts in the tree of jobs that grew from the client's job `root`. */
  ghost function RunsInTree(w: World, tr: seq<Step>, root: Id): nat
    requires IsPossible(w, tr)
  {
    if tr == [] then 0
    else
      var before := tr[..|tr| - 1]; var s := tr[|tr| - 1]; var v := After(w, before);
      RunsInTree(w, before, root)
      + if s.Work? && Happens(v, s, HandlerRun, v.threads[s.t].m.meta.id)
           && v.rows[v.threads[s.t].m.meta.id].h.root == root then 1 else 0
  }

  /** A client's job tree without schedules causes at most RunBound(job) handler runs, whatever errors occur
      and whatever else is enqueued. */
  lemma RunsInTreeAreBounded(w0: World, tr: seq<Step>, w: World, root: Id)
    requires Reachable(w0, tr, w) && forall i | 0 <= i < |tr| :: ClientUnscheduled(tr[i], Some(root))
    ensures RunsInTree(w0, tr, root) <= (if root in w.rows then RunBound(w.rows[root].h.job) else 0)
  {
    RunIsPaidFor(w0, tr, w, HandlerRuns, Some(root));
    RunsArePaid(w0, tr, root);
    GrantedOnce(w0, tr, w, HandlerRuns, root);
    if root in w.rows { CostIsRunBound(w.rows[root].h.job); }
  }

  lemma {:induction false} RunsArePaid(w0: World, tr: seq<Step>, root: Id)
    requires IsRun(w0, tr)
    ensures RunsInTree(w0, tr, root) == Paid(w0, tr, HandlerRuns, Some(root))
  {
    if tr != [] {
      RunsArePaid(w0, tr[..|tr| - 1], root);
    }
  }

  lemma {:induction false} GrantedOnce(w0: World, tr: seq<Step>, w: World, mode: Mode, root: Id)
    requires Reachable(w0, tr, w) && forall i | 0 <= i < |tr| :: ClientUnscheduled(tr[i], Some(root))
    ensures Granted(tr, mode, Some(root)) <= (if root in w.rows then Cost(mode, w.rows[root].h.job) else 0)
    ensures root !in w.rows ==> Granted(tr, mode, Some(root)) == 0
  {
    if tr != [] {
      var before := tr[..|tr| - 1];
      var v := After(w0, before);
      GrantedOnce(w0, before, v, mode, root);
      ReachableInv(w0, before, v);
      StepKeeps(v, tr[|tr| - 1]);
    }
  }
}
