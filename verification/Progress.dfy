/** When nothing is left to do, every job is final, unless its worker waits for a result that was never saved. */
module Progress {
  import opened Jobs
  import opened Protocol
  import opened Invariant
  import opened Preservation
  import opened Lifecycle
  import opened Runs
  import opened Termination

  /** The worker's job succeeded, has OnSuccess jobs left to enqueue, and nothing is saved for them. */
  predicate MissesResult(w: World, t: nat) {
    && BusyAt(w, t) && w.threads[t].st.Kids? && w.threads[t].st.ok
    && w.threads[t].st.k < |w.threads[t].m.job.onSuccess| && w.rows[w.threads[t].m.meta.id].saved.None?
  }

  /** That does happen: to every job with OnSuccess jobs whose handler returns without saving. */
  lemma MissingResultHappens(w0: World, c: nat, t: nat, job: Job, id: Id) returns (tr: seq<Step>, w: World)
    requires Init(w0) && c in w0.threads && t in w0.threads && c != t
    requires job.opts.id.None? && job.opts.schedule == "" && job.opts.eta == 0 && job.onSuccess != []
    ensures Reachable(w0, tr, w) && MissesResult(w, t) && w.threads[t].m.meta.id == id && w.threads[t].m.job == job
    ensures Enabled(w, Work(t, KidFail))
  {
    hide HasFreshIds, After, Count, IsPossible;
    var m;
    tr, w, m := Submit(w0, c, job, id, Unparsed);
    tr, w := Then(w0, tr, w, Receive(c, w0.next, Fine));
    tr, w := Then(w0, tr, w, Handoff(c, t));
    tr, w := Then(w0, tr, w, Work(t, Process(Fine)));
    tr, w := Then(w0, tr, w, Work(t, Finish(Returned)));
    RunsMoveOnce(w0, tr);
  }

  /** No step is left that goes well, other than the environment's. */
  ghost predicate Quiet(w: World) {
    forall s | Enabled(w, s) && Clean(s) :: IsEnvironment(s)
  }

  /** No follower of a stored job asks for an ID of its own. */
  predicate FollowersUnnamed(w: World) {
    forall id | id in w.rows ::
      && (forall i | 0 <= i < |w.rows[id].h.job.onSuccess| :: w.rows[id].h.job.onSuccess[i].opts.id.None?)
      && (forall i | 0 <= i < |w.rows[id].h.job.onError| :: w.rows[id].h.job.onError[i].opts.id.None?)
  }

  /** The step that thread t, or an idle thread u for it, can take next. */
  function NextStep(w: World, t: nat, u: nat, id: Id): Step
    requires t in w.threads && !w.threads[t].Idle?
  {
    match w.threads[t]
    case Enqueueing(_, _, written) => if written then Push(t, Fine) else Write(t, Fine)
    case Busy(m, st) =>
      match st
      case Handing => Handoff(t, u)
      case Got => Work(t, Process(Fine))
      case Running => Work(t, Finish(Returned))
      case RetryWriting => Work(t, Retry(Fine))
      case RetryPushing => Requeue(t, Fine)
      case Kids(ok, k) =>
        if k < |Followers(m.job, ok)| then KidBegin(t, id, Times(1, 1)) else Work(t, Index(Fine))
      case Closing(_) => Work(t, Close(Fine))
  }

  lemma NextStepIsEnabled(w: World, t: nat, u: nat, id: Id)
    requires Inv(w) && t in w.threads && !w.threads[t].Idle? && IdleAt(w, u)
    requires FollowersUnnamed(w) && id !in w.rows && !MissesResult(w, t)
    ensures Enabled(w, NextStep(w, t, u, id)) && Clean(NextStep(w, t, u, id)) && !IsEnvironment(NextStep(w, t, u, id))
  {
    assert PcOk(w, t, w.threads[t]);
    if w.threads[t].Busy? {
      assert w.rows[w.threads[t].m.meta.id].h.job == w.threads[t].m.job;
    }
  }

  /** The thread or the broker entry that a step works on had the live copy of job id. */
  predicate WorksOn(w: World, s: Step, id: Id) {
    match s
    case Write(t, _) => t in w.threads && Holds(w.threads[t], id)
    case Push(t, _) => t in w.threads && Holds(w.threads[t], id)
    case Requeue(t, _) => t in w.threads && Holds(w.threads[t], id)
    case Work(t, _) => t in w.threads && Holds(w.threads[t], id)
    case Receive(_, k, _) => k in w.box && w.box[k].msg.meta.id == id
    case _ => false
  }

  /** A job is only ever dropped by a step on its own live copy, or its parent's, that does not go well. */
  lemma LosingStepIsItsOwn(w: World, s: Step, id: Id)
    requires Inv(w) && Enabled(w, s) && id in w.rows && id in Apply(w, s).rows
    requires w.rows[id].h.at != Lost && Apply(w, s).rows[id].h.at == Lost
    ensures !Clean(s) && WorksOn(w, s, id)
  {
  }

  lemma QuietThread(w: World, t: nat, u: nat)
    requires Inv(w) && Quiet(w) && IdleAt(w, u) && FollowersUnnamed(w) && t in w.threads
    ensures w.threads[t].Idle? || MissesResult(w, t)
  {
    SomeIdIsFree(w.rows.Keys);
    var spare: Id :| spare !in w.rows;
    if !w.threads[t].Idle? && !MissesResult(w, t) {
      NextStepIsEnabled(w, t, u, spare);
    }
  }

  lemma QuietBroker(w: World, u: nat)
    requires Inv(w) && Quiet(w) && IdleAt(w, u)
    ensures w.box == map[]
  {
    forall k | k in w.box
      ensures false
    {
      assert BoxOk(w, k);
      assert if w.box[k].scheduled then Enabled(w, Move(k, NoStop)) else Enabled(w, Receive(u, k, Fine));
    }
  }

  /** So if one thread is idle, all others are, or miss a result; the broker is empty; and every job is
      final, but for those whose threads dropped them and those that miss a result. */
  lemma QuietMeansDone(w0: World, tr: seq<Step>, w: World, u: nat)
    requires Reachable(w0, tr, w) && Quiet(w) && IdleAt(w, u) && FollowersUnnamed(w)
    ensures w.box == map[] && forall t | t in w.threads :: w.threads[t].Idle? || MissesResult(w, t)
    ensures forall id | id in w.rows ::
              HasFinal(w, id) || w.rows[id].h.at == Lost
              || exists t :: MissesResult(w, t) && w.threads[t].m.meta.id == id
  {
    ReachableInv(w0, tr, w);
    QuietBroker(w, u);
    forall t | t in w.threads
      ensures w.threads[t].Idle? || MissesResult(w, t)
    {
      QuietThread(w, t, u);
    }
    hide Quiet, FollowersUnnamed, Reachable;
    forall id | id in w.rows && !HasFinal(w, id) && w.rows[id].h.at != Lost
      ensures exists t :: MissesResult(w, t) && w.threads[t].m.meta.id == id
    {
      assert RowOk(w, id);
      var p := w.rows[id].h.at;
      assert p.At? && MissesResult(w, p.t) && w.threads[p.t].m.meta.id == id;
    }
  }
}
