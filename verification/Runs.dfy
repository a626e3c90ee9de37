/** Runs built step by step, and what separates them from the sequences of steps that are merely possible. */
module Runs {
  import opened Jobs
  import opened Protocol
  import opened Preservation
  import opened Lifecycle

  /** Possible, and no two enqueues settle on the same ID. */
  ghost predicate HasFreshIds(w: World, tr: seq<Step>)
    ensures HasFreshIds(w, tr) ==> IsPossible(w, tr)
  {
    if tr == [] then true
    else
      var before := tr[..|tr| - 1];
      HasFreshIds(w, before) && Ready(After(w, before), tr[|tr| - 1]) && Fresh(After(w, before), tr[|tr| - 1])
  }

  predicate AllMoveOnce(tr: seq<Step>) {
    forall i | 0 <= i < |tr| :: MovesOnce(tr[i])
  }

  lemma {:induction false} RunsMoveOnce(w: World, tr: seq<Step>)
    ensures IsRun(w, tr) <==> HasFreshIds(w, tr) && AllMoveOnce(tr)
  {
    if tr != [] {
      RunsMoveOnce(w, tr[..|tr| - 1]);
    }
  }

  lemma Then(w0: World, tr: seq<Step>, w: World, s: Step) returns (tr': seq<Step>, w': World)
    requires HasFreshIds(w0, tr) && After(w0, tr) == w && Ready(w, s) && Fresh(w, s)
    ensures tr' == tr + [s] && HasFreshIds(w0, tr') && After(w0, tr') == w' == Apply(w, s)
    ensures forall e, id :: Count(w0, tr', e, id) == Count(w0, tr, e, id) + if Happens(w, s, e, id) then 1 else 0
  {
    tr', w' := tr + [s], Apply(w, s);
    assert tr'[..|tr|] == tr;
  }

  lemma NoSteps(w0: World)
    ensures HasFreshIds(w0, []) && After(w0, []) == w0 && forall e, id :: Count(w0, [], e, id) == 0
  {
  }

  /** The first job of a run, up to its push. */
  lemma Submit(w0: World, c: nat, job: Job, id: Id, cron: Cron) returns (tr: seq<Step>, w: World, m: Msg)
    requires Init(w0) && c in w0.threads && job.opts.id.None? && Prepare(job, cron).Some?
    ensures HasFreshIds(w0, tr) && After(w0, tr) == w && m == FirstMsg(Prepare(job, cron).value, id, None)
    ensures w.threads == w0.threads && w.next == w0.next + 1
    ensures w.box == map[w0.next := Entry(m, m.job.opts.eta != 0)]
    ensures w.rows.Keys == {id} && w.rows[id].h.job == m.job && w.rows[id].saved == None
    ensures AllMoveOnce(tr) && Count(w0, tr, HandlerRun, id) == 0
  {
    NoSteps(w0);
    hide HasFreshIds, After, Count, IsPossible;
    m := FirstMsg(Prepare(job, cron).value, id, None);
    tr, w := Then(w0, [], w0, ClientBegin(c, job, id, cron));
    tr, w := Then(w0, tr, w, Write(c, Fine));
    tr, w := Then(w0, tr, w, Push(c, Fine));
    assert w.threads == w0.threads;
  }

  lemma {:induction false} SomeIdIsFree(ids: set<Id>)
    ensures exists id: Id :: id !in ids
  {
    var n := LargerThanAll(ids);
    assert n !in ids;
  }

  lemma {:induction false} LargerThanAll(ids: set<Id>) returns (n: nat)
    ensures forall id | id in ids :: id < n
  {
    if ids == {} { return 0; }
    var x :| x in ids;
    var m := LargerThanAll(ids - {x});
    n := if x < m then m else x + 1;
    forall id | id in ids
      ensures id < n
    {
      if id != x { assert id in ids - {x}; }
    }
  }
}
