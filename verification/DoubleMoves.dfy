/** What the assumption that a poll removes what it pushed is worth: exactly where it fails a message has two
    live copies, and with them final records, run bounds and the series of next runs are lost. */
module DoubleMoves {
  import opened Jobs
  import opened Protocol
  import opened Invariant
  import opened Preservation
  import opened Lifecycle
  import opened Recurrence
  import opened Runs

  // ---------------------------------------------------------------- two live copies

  ghost predicate OneCopyEach(w: World) {
    forall p, q, id | LiveAt(w, p, id) && LiveAt(w, q, id) :: p == q
  }

  /** From any state of a run, one step leaves each ID with one live copy if and only if it is not a poll
      that stops after its push. */
  lemma StepKeepsOneCopy(w0: World, tr: seq<Step>, w: World, s: Step)
    requires Reachable(w0, tr, w) && Ready(w, s) && Fresh(w, s)
    ensures OneCopyEach(Apply(w, s)) <==> MovesOnce(s)
  {
    ReachableInv(w0, tr, w);
    var w' := Apply(w, s);
    if MovesOnce(s) {
      StepKeeps(w, s);
      forall p, q, id | LiveAt(w', p, id) && LiveAt(w', q, id)
        ensures p == q
      {
        LiveIsPlace(w', p, id);
        LiveIsPlace(w', q, id);
      }
    } else {
      NextIsNew(w);
      var id := w.box[s.k].msg.meta.id;
      assert LiveAt(w', InBox(s.k), id) && LiveAt(w', InBox(w.next), id);
    }
  }

  /** In every state on the way. */
  ghost predicate AlwaysOneCopy(w: World, tr: seq<Step>)
    requires IsPossible(w, tr)
  {
    (tr == [] || AlwaysOneCopy(w, tr[..|tr| - 1])) && OneCopyEach(After(w, tr))
  }

  /** So with fresh IDs, every ID has one live copy all the way through if and only if every poll moves its
      message once. */
  lemma {:induction false} OneCopyIffMovedOnce(w0: World, tr: seq<Step>)
    requires Init(w0) && HasFreshIds(w0, tr)
    ensures AllMoveOnce(tr) <==> AlwaysOneCopy(w0, tr)
  {
    if tr == [] {
    } else {
      var before, s := tr[..|tr| - 1], tr[|tr| - 1];
      OneCopyIffMovedOnce(w0, before);
      RunsMoveOnce(w0, before);
      if AllMoveOnce(before) {
        StepKeepsOneCopy(w0, before, After(w0, before), s);
      }
    }
  }

  // ---------------------------------------------------------------- what two copies do

  /** Only the row of id is another one. */
  predicate OnlyRow(w: World, w': World, id: Id) {
    id in w'.rows && w'.rows == w.rows[id := w'.rows[id]]
  }

  /** Only the rows of id and of the new kid are. */
  predicate OnlyRows(w: World, w': World, id: Id, kid: Id) {
    id in w'.rows && kid in w'.rows && w'.rows == w.rows[id := w'.rows[id]][kid := w'.rows[kid]]
  }

  /** Entry k of the sorted set is the message m of a recorded job; threads c and t are idle. */
  predicate Loaded(w: World, k: nat, c: nat, t: nat, m: Msg) {
    && k in w.box && w.box[k] == Entry(m, true) && k < w.next && m.meta.id in w.rows
    && IdleAt(w, c) && IdleAt(w, t) && c != t
  }

  lemma FetchCopy(w0: World, tr: seq<Step>, w: World, k: nat, c: nat, m: Msg) returns (tr': seq<Step>, w': World)
    requires HasFreshIds(w0, tr) && After(w0, tr) == w && IdleAt(w, c)
    requires k in w.box && w.box[k] == Entry(m, true) && k < w.next && m.meta.id in w.rows
    ensures HasFreshIds(w0, tr') && After(w0, tr') == w' && tr + [Move(k, AfterPush)] <= tr'
    ensures k in w'.box && w'.box[k] == w.box[k] && w'.next == w.next + 1
    ensures w'.threads == w.threads[c := Busy(m, Handing)]
    ensures w'.rows == w.rows[m.meta.id := Protocol.Moved(w.rows[m.meta.id], At(c))]
    ensures Count(w0, tr', HandlerRun, m.meta.id) == Count(w0, tr, HandlerRun, m.meta.id)
  {
    hide HasFreshIds, After, Count, IsPossible;
    tr', w' := Then(w0, tr, w, Move(k, AfterPush));
    tr', w' := Then(w0, tr', w', Receive(c, w.next, Fine));
  }

  /** A poll that stops after its push, and then the pushed copy up to the start of its handler. */
  lemma StartCopy(w0: World, tr: seq<Step>, w: World, k: nat, c: nat, t: nat, m: Msg)
    returns (tr': seq<Step>, w': World)
    requires HasFreshIds(w0, tr) && After(w0, tr) == w && Loaded(w, k, c, t, m)
    ensures HasFreshIds(w0, tr') && After(w0, tr') == w' && tr + [Move(k, AfterPush)] <= tr'
    ensures Loaded(w'.(threads := w.threads), k, c, t, m)
    ensures w'.threads == w.threads[t := Busy(m, Running)]
    ensures OnlyRow(w, w', m.meta.id)
    ensures w'.rows[m.meta.id].rec == Some(Stamp(m, Processing)) && w'.rows[m.meta.id].saved == w.rows[m.meta.id].saved
    ensures w'.rows[m.meta.id].h.job == w.rows[m.meta.id].h.job && w'.rows[m.meta.id].h.runs > 0
    ensures Count(w0, tr', HandlerRun, m.meta.id) == Count(w0, tr, HandlerRun, m.meta.id) + 1
  {
    hide HasFreshIds, After, Count, IsPossible;
    tr', w' := FetchCopy(w0, tr, w, k, c, m);
    tr', w' := Then(w0, tr', w', Handoff(c, t));
    tr', w' := Then(w0, tr', w', Work(t, Process(Fine)));
    assert w'.threads == w.threads[t := Busy(m, Running)];
  }

  /** The final record of a job without followers, by a worker whose handler runs. */
  lemma EndCopy(w0: World, tr: seq<Step>, w: World, t: nat, m: Msg) returns (tr': seq<Step>, w': World)
    requires HasFreshIds(w0, tr) && After(w0, tr) == w
    requires BusyAt(w, t) && w.threads[t] == Busy(m, Running) && m.job.onSuccess == []
    ensures HasFreshIds(w0, tr') && After(w0, tr') == w' && tr <= tr'
    ensures w'.box == w.box && w'.next == w.next && w'.threads == w.threads[t := Idle]
    ensures w'.rows.Keys == w.rows.Keys && w'.rows[m.meta.id].rec == Some(Stamp(m, Successful))
    ensures Count(w0, tr', HandlerRun, m.meta.id) == Count(w0, tr, HandlerRun, m.meta.id)
  {
    hide HasFreshIds, After, Count, IsPossible;
    var tr1, w1 := Then(w0, tr, w, Work(t, Finish(Returned)));
    tr', w' := RecordSuccess(w0, tr1, w1, t);
  }

  /** In any state of a run, an entry of the sorted set with two idle threads is loaded. */
  lemma ScheduledIsLoaded(w0: World, tr: seq<Step>, w: World, k: nat, c: nat, t: nat)
    requires Reachable(w0, tr, w) && CanMove(w, k) && IdleAt(w, c) && IdleAt(w, t) && c != t
    ensures HasFreshIds(w0, tr) && Loaded(w, k, c, t, w.box[k].msg)
    ensures w.rows[w.box[k].msg.meta.id].h.job == w.box[k].msg.job
  {
    ReachableInv(w0, tr, w);
    RunsMoveOnce(w0, tr);
    assert BoxOk(w, k);
  }

  lemma RunAgain(w0: World, tr: seq<Step>, w: World, k: nat, c: nat, t: nat, m: Msg, n: nat)
    returns (tr': seq<Step>)
    requires HasFreshIds(w0, tr) && After(w0, tr) == w && Loaded(w, k, c, t, m) && m.job.onSuccess == []
    ensures HasFreshIds(w0, tr') && tr <= tr'
    ensures Count(w0, tr', HandlerRun, m.meta.id) == Count(w0, tr, HandlerRun, m.meta.id) + n
  {
    hide HasFreshIds, After, Count, IsPossible;
    tr' := tr;
    var v := w;
    for i := 0 to n
      invariant HasFreshIds(w0, tr') && After(w0, tr') == v && Loaded(v, k, c, t, m) && tr <= tr'
      invariant Count(w0, tr', HandlerRun, m.meta.id) == Count(w0, tr, HandlerRun, m.meta.id) + i
    {
      tr', v := StartCopy(w0, tr', v, k, c, t, m);
      tr', v := EndCopy(w0, tr', v, t, m);
    }
  }

  /** The bound on handler runs is lost: from any state of a run with a message without OnSuccess jobs in the
      sorted set, that job can run any number of times more, however few retries it has. */
  lemma RunsWithoutBound(w0: World, tr: seq<Step>, w: World, k: nat, c: nat, t: nat, n: nat) returns (tr': seq<Step>)
    requires Reachable(w0, tr, w) && CanMove(w, k) && IdleAt(w, c) && IdleAt(w, t) && c != t
    requires w.box[k].msg.job.onSuccess == []
    ensures HasFreshIds(w0, tr') && tr <= tr'
    ensures var id := w.box[k].msg.meta.id;
            Count(w0, tr', HandlerRun, id) == Count(w0, tr, HandlerRun, id) + n
  {
    ScheduledIsLoaded(w0, tr, w, k, c, t);
    tr' := RunAgain(w0, tr, w, k, c, t, w.box[k].msg, n);
  }

  lemma Overwrite(w0: World, tr: seq<Step>, w: World, k: nat, c: nat, t: nat, m: Msg)
    returns (final: seq<Step>, tr': seq<Step>)
    requires HasFreshIds(w0, tr) && After(w0, tr) == w && Loaded(w, k, c, t, m) && m.job.onSuccess == []
    ensures HasFreshIds(w0, final) && HasFreshIds(w0, tr') && tr + [Move(k, AfterPush)] <= final <= tr'
    ensures HasFinal(After(w0, final), m.meta.id)
    ensures m.meta.id in After(w0, tr').rows && After(w0, tr').rows[m.meta.id].rec == Some(Stamp(m, Processing))
  {
    hide HasFreshIds, After, Count, IsPossible;
    var v;
    final, v := StartCopy(w0, tr, w, k, c, t, m);
    final, v := EndCopy(w0, final, v, t, m);
    tr', v := StartCopy(w0, final, v, k, c, t, m);
  }

  /** A final record is overwritten: from any such state a double move can be continued until the record says
      successful, after `final`, and then processing again, after tr'. */
  lemma FinalIsOverwritten(w0: World, tr: seq<Step>, w: World, k: nat, c: nat, t: nat)
    returns (final: seq<Step>, tr': seq<Step>)
    requires Reachable(w0, tr, w) && CanMove(w, k) && IdleAt(w, c) && IdleAt(w, t) && c != t
    requires w.box[k].msg.job.onSuccess == []
    ensures HasFreshIds(w0, final) && HasFreshIds(w0, tr') && tr + [Move(k, AfterPush)] <= final <= tr'
    ensures var m := w.box[k].msg;
            && HasFinal(After(w0, final), m.meta.id) && m.meta.id in After(w0, tr').rows
            && After(w0, tr').rows[m.meta.id].rec == Some(Stamp(m, Processing))
  {
    ScheduledIsLoaded(w0, tr, w, k, c, t);
    final, tr' := Overwrite(w0, tr, w, k, c, t, w.box[k].msg);
  }

  /** A worker after its handler, with a result saved, enqueues the job's one follower under the ID kid. */
  lemma EnqueueKid(w0: World, tr: seq<Step>, w: World, t: nat, m: Msg, kid: Id, cron: Cron)
    returns (tr': seq<Step>, w': World)
    requires HasFreshIds(w0, tr) && After(w0, tr) == w
    requires BusyAt(w, t) && w.threads[t] == Busy(m, Running) && |m.job.onSuccess| == 1
    requires w.rows[m.meta.id].h.runs > 0 && kid !in w.rows
    requires m.job.onSuccess[0].opts.id.None? && Prepare(m.job.onSuccess[0], cron).Some?
    ensures HasFreshIds(w0, tr') && After(w0, tr') == w' && tr <= tr'
    ensures w'.box == w.box && w'.next == w.next
    ensures EnqueueingAt(w', t, false) && w'.threads == w.threads[t := w'.threads[t]]
    ensures w'.threads[t].ctx == Parent(m, true, 0) && w'.threads[t].c.meta.id == kid
    ensures OnlyRows(w, w', m.meta.id, kid)
    ensures w'.rows[kid].h.parent == Some(m.meta.id) && w'.rows[kid].h.slot == 0
    ensures w'.rows[m.meta.id].h.verdict == Some(true) && w'.rows[m.meta.id].h.job == w.rows[m.meta.id].h.job
  {
    hide HasFreshIds, After, Count, IsPossible;
    tr', w' := Then(w0, tr, w, Save(m.meta.id, ""));
    tr', w' := Then(w0, tr', w', Work(t, Finish(Returned)));
    tr', w' := Then(w0, tr', w', KidBegin(t, kid, cron));
  }

  lemma PushKid(w0: World, tr: seq<Step>, w: World, t: nat, m: Msg, kid: Id) returns (tr': seq<Step>, w': World)
    requires HasFreshIds(w0, tr) && After(w0, tr) == w && EnqueueingAt(w, t, false) && |m.job.onSuccess| == 1
    requires w.threads[t].ctx == Parent(m, true, 0) && w.threads[t].c.meta.id == kid && kid != m.meta.id
    ensures HasFreshIds(w0, tr') && After(w0, tr') == w' && tr <= tr'
    ensures w'.box == w.box[w.next := Entry(w.threads[t].c, w.threads[t].c.job.opts.eta != 0)] && w'.next == w.next + 1
    ensures BusyAt(w', t) && w'.threads == w.threads[t := Busy(AddId(m, kid), Kids(true, 1))]
    ensures OnlyRow(w, w', kid)
    ensures w'.rows[kid].h.parent == w.rows[kid].h.parent && w'.rows[kid].h.slot == w.rows[kid].h.slot
  {
    hide HasFreshIds, After, Count, IsPossible;
    tr', w' := Then(w0, tr, w, Write(t, Fine));
    tr', w' := Then(w0, tr', w', Push(t, Fine));
  }

  lemma RecordSuccess(w0: World, tr: seq<Step>, w: World, t: nat) returns (tr': seq<Step>, w': World)
    requires HasFreshIds(w0, tr) && After(w0, tr) == w && BusyAt(w, t)
    requires w.threads[t].st == Kids(true, |w.threads[t].m.job.onSuccess|)
    ensures HasFreshIds(w0, tr') && After(w0, tr') == w' && tr <= tr'
    ensures w'.box == w.box && w'.next == w.next && w'.threads == w.threads[t := Idle]
    ensures var m := w.threads[t].m;
            && OnlyRow(w, w', m.meta.id)
            && w'.rows[m.meta.id].rec == Some(Stamp(m, Successful))
            && w'.rows[m.meta.id].h.verdict == w.rows[m.meta.id].h.verdict
            && w'.rows[m.meta.id].h.job == w.rows[m.meta.id].h.job
            && Count(w0, tr', HandlerRun, m.meta.id) == Count(w0, tr, HandlerRun, m.meta.id)
  {
    hide HasFreshIds, After, Count, IsPossible;
    tr', w' := Then(w0, tr, w, Work(t, Index(Fine)));
    tr', w' := Then(w0, tr', w', Work(t, Close(Fine)));
  }

  /** A scheduled job's run up to its final record, with its next run enqueued under the ID kid. */
  lemma EndScheduled(w0: World, tr: seq<Step>, w: World, t: nat, m: Msg, kid: Id, cron: Cron)
    returns (tr': seq<Step>, w': World)
    requires HasFreshIds(w0, tr) && After(w0, tr) == w
    requires BusyAt(w, t) && w.threads[t] == Busy(m, Running) && |m.job.onSuccess| == 1
    requires w.rows[m.meta.id].h.runs > 0 && kid !in w.rows
    requires m.job.onSuccess[0].opts.id.None? && Prepare(m.job.onSuccess[0], cron).Some?
    ensures HasFreshIds(w0, tr') && After(w0, tr') == w' && tr <= tr'
    ensures forall k | k in w.box && k < w.next :: k in w'.box && w'.box[k] == w.box[k]
    ensures w'.next > w.next && w'.threads == w.threads[t := Idle]
    ensures OnlyRows(w, w', m.meta.id, kid)
    ensures w'.rows[kid].h.parent == Some(m.meta.id) && w'.rows[kid].h.slot == 0
    ensures w'.rows[m.meta.id].h.verdict == Some(true) && w'.rows[m.meta.id].h.job == w.rows[m.meta.id].h.job
  {
    hide HasFreshIds, After, Count, IsPossible;
    var tr1, w1 := EnqueueKid(w0, tr, w, t, m, kid, cron);
    var tr2, w2 := PushKid(w0, tr1, w1, t, m, kid);
    tr', w' := RecordSuccess(w0, tr2, w2, t);
  }

  /** A scheduled job gets two next runs, so the series forks: from any state of a run with a scheduled job,
      whose only OnSuccess job is its next run, in the sorted set. */
  lemma NextRunTwice(w0: World, tr: seq<Step>, w: World, k: nat, c: nat, t: nat, kid: Id, kid': Id, cron: Cron)
    returns (tr': seq<Step>)
    requires Reachable(w0, tr, w) && CanMove(w, k) && IdleAt(w, c) && IdleAt(w, t) && c != t
    requires kid !in w.rows && kid' !in w.rows && kid != kid' && cron.Times?
    requires var j := w.box[k].msg.job; j.opts.schedule != "" && |j.onSuccess| == 1 && j.onSuccess[0].opts.id.None?
    ensures HasFreshIds(w0, tr') && tr <= tr'
    ensures var id := w.box[k].msg.meta.id;
            IsNextRun(After(w0, tr'), id, kid) && IsNextRun(After(w0, tr'), id, kid')
  {
    ScheduledIsLoaded(w0, tr, w, k, c, t);
    tr' := Fork(w0, tr, w, k, c, t, w.box[k].msg, kid, kid', cron);
  }

  lemma Fork(w0: World, tr: seq<Step>, w: World, k: nat, c: nat, t: nat, m: Msg, kid: Id, kid': Id, cron: Cron)
    returns (tr': seq<Step>)
    requires HasFreshIds(w0, tr) && After(w0, tr) == w && Loaded(w, k, c, t, m) && w.rows[m.meta.id].h.job == m.job
    requires kid !in w.rows && kid' !in w.rows && kid != kid' && cron.Times?
    requires m.job.opts.schedule != "" && |m.job.onSuccess| == 1 && m.job.onSuccess[0].opts.id.None?
    ensures HasFreshIds(w0, tr') && tr <= tr'
    ensures IsNextRun(After(w0, tr'), m.meta.id, kid) && IsNextRun(After(w0, tr'), m.meta.id, kid')
  {
    hide HasFreshIds, After, Count, IsPossible;
    var v;
    tr', v := StartCopy(w0, tr, w, k, c, t, m);
    tr', v := EndScheduled(w0, tr', v, t, m, kid, cron);
    tr', v := StartCopy(w0, tr', v, k, c, t, m);
    tr', v := EndScheduled(w0, tr', v, t, m, kid', cron);
  }

  /** Such a state is reached by every job with an ETA, or a schedule, and no chosen ID. */
  lemma TimedJobIsLoaded(w0: World, c: nat, t: nat, job: Job, id: Id, cron: Cron) returns (tr: seq<Step>, w: World)
    requires Init(w0) && c in w0.threads && t in w0.threads && c != t
    requires job.opts.id.None? && Prepare(job, cron).Some? && Prepare(job, cron).value.opts.eta != 0
    ensures Reachable(w0, tr, w) && CanMove(w, w0.next) && IdleAt(w, c) && IdleAt(w, t)
    ensures w.box[w0.next].msg == FirstMsg(Prepare(job, cron).value, id, None)
  {
    var m;
    tr, w, m := Submit(w0, c, job, id, cron);
    RunsMoveOnce(w0, tr);
  }
}
