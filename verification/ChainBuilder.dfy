/** NewChain links jobs in place, through references. */
module ChainBuilder {
  import opened Jobs
  import opened Polling

  /** A job with its OnSuccess references; `job` holds its other fields. */
  class JobRef {
    const job: Job
    var onSuccess: seq<JobRef>

    constructor (job: Job)
      requires job.onSuccess == []
      ensures this.job == job && onSuccess == []
    {
      this.job := job;
      onSuccess := [];
    }
  }

  /** The job as it is serialised: references followed to a depth. */
  ghost function Tree(nodes: set<JobRef>, n: JobRef, depth: nat): Job
    requires n in nodes
    reads nodes
    decreases depth, 0
  {
    if depth == 0 || exists c | c in n.onSuccess :: c !in nodes then n.job
    else n.job.(onSuccess := Trees(nodes, n.onSuccess, depth - 1))
  }

  ghost function Trees(nodes: set<JobRef>, ns: seq<JobRef>, depth: nat): seq<Job>
    requires forall c | c in ns :: c in nodes
    reads nodes
    decreases depth, |ns| + 1
  {
    if ns == [] then [] else [Tree(nodes, ns[0], depth)] + Trees(nodes, ns[1..], depth)
  }

  function Values(j: seq<JobRef>): seq<Job> {
    if j == [] then [] else [j[0].job] + Values(j[1..])
  }

  /** Each job points to the next one only. */
  ghost predicate Linked(j: seq<JobRef>)
    reads j
  {
    && (forall i | 0 <= i < |j| - 1 :: j[i].onSuccess == [j[i + 1]])
    && (j != [] ==> j[|j| - 1].onSuccess == [])
  }

  /** The first of them unrolls to the nested form in which a chain is sent. */
  lemma {:induction false} ChainUnrolls(nodes: set<JobRef>, j: seq<JobRef>)
    requires j != [] && Linked(j)
    requires forall i | 0 <= i < |j| :: j[i] in nodes && j[i].job.onSuccess == []
    ensures |Values(j)| == |j|
    ensures Tree(nodes, j[0], |j|) == Chained(Values(j))
    decreases |j|
  {
    if |j| == 1 {
      assert Values(j) == [j[0].job];
    } else {
      var rest := j[1..];
      forall i | 0 <= i < |rest| - 1
        ensures rest[i].onSuccess == [rest[i + 1]]
      {
        assert rest[i] == j[i + 1] && j[i + 1].onSuccess == [j[i + 2]];
      }
      ChainUnrolls(nodes, rest);
      assert Trees(nodes, j[0].onSuccess, |j| - 1) == [Tree(nodes, rest[0], |j| - 1)] by {
        assert j[0].onSuccess == [rest[0]] && [rest[0]][1..] == [];
      }
      assert Values(j)[1..] == Values(rest);
    }
  }

  /** NewChain: each job's OnSuccess list gets the next job at its end; fewer than two jobs are refused.
      If the jobs had no OnSuccess jobs of their own, the first one now unrolls to the jobs in order. */
  method NewChain(j: seq<JobRef>) returns (ok: bool)
    requires forall a, b | 0 <= a < b < |j| :: j[a] != j[b]
    modifies set n | n in j
    ensures ok <==> |j| >= 2
    ensures !ok ==> forall i | 0 <= i < |j| :: j[i].onSuccess == old(j[i].onSuccess)
    ensures ok ==> forall i | 0 <= i < |j| ::
              j[i].onSuccess == if i < |j| - 1 then old(j[i].onSuccess) + [j[i + 1]] else old(j[i].onSuccess)
    ensures ok && (forall i | 0 <= i < |j| :: old(j[i].onSuccess) == [] && j[i].job.onSuccess == []) ==>
              |Values(j)| == |j| && Tree((set n | n in j), j[0], |j|) == Chained(Values(j))
  {
    if |j| < 2 { return false; }
    for i := 0 to |j| - 1
      invariant forall k | 0 <= k < i :: j[k].onSuccess == old(j[k].onSuccess) + [j[k + 1]]
      invariant forall k | i <= k < |j| :: j[k].onSuccess == old(j[k].onSuccess)
    {
      j[i].onSuccess := j[i].onSuccess + [j[i + 1]];
    }
    if forall i | 0 <= i < |j| :: old(j[i].onSuccess) == [] && j[i].job.onSuccess == [] {
      ChainUnrolls((set n | n in j), j);
    }
    return true;
  }
}
