/** Jobs, their options and metadata, and the values jobs.go builds from them. */
module Jobs {
  datatype Option<+T> = None | Some(value: T)

  /** Job, group and chain identifiers: only their distinctness matters. */
  type Id = nat

  const TWO_TO_32 := 0x1_0000_0000
  type uint32 = x: int | 0 <= x < 0x1_0000_0000

  const DEFAULT_QUEUE := "tasqueue:tasks"

  datatype Status = Queued | Processing | Failed | Successful | Retrying

  predicate IsFinal(s: Status): (final: bool)
    ensures final <==> s !in {Queued, Processing, Retrying}
  {
    s == Failed || s == Successful
  }

  /** `id` is None for the empty ID and `eta` is 0 for the zero time. */
  datatype Opts = Opts(id: Option<Id>, eta: int, queue: string, maxRetries: uint32, schedule: string)

  /** A job is a finite tree: messages are serialised whole. */
  datatype Job = Job(task: string, payload: string, opts: Opts, onSuccess: seq<Job>, onError: seq<Job>)

  datatype Meta = Meta(
    id: Id, onSuccessIDs: seq<Id>, status: Status, queue: string, schedule: string,
    maxRetry: uint32, retried: uint32, prevErr: string, prevJobResult: Option<string>)

  datatype Msg = Msg(meta: Meta, job: Job)

  /** The jobs that follow a run: OnSuccess after a success, OnError after a permanent failure. */
  function Followers(j: Job, ok: bool): seq<Job> {
    if ok then j.onSuccess else j.onError
  }

  function NewJob(task: string, payload: string, opts: Opts): Job {
    Job(task, payload, if opts.queue == "" then opts.(queue := DEFAULT_QUEUE) else opts, [], [])
  }

  /** DefaultMeta with the ID it settles on: the client's own or a generated one. */
  function DefaultMeta(opts: Opts, id: Id): Meta {
    Meta(id, [], Queued, opts.queue, opts.schedule, opts.maxRetries, 0, "", None)
  }

  /** What the cron library answers when a job with a schedule is enqueued: a parse error, or the
      activation after the current time and the activation after the job's ETA. */
  datatype Cron = Unparsed | Times(afterNow: int, afterEta: int)

  /** The next run of a scheduled job, appended to its OnSuccess list. */
  function NextRun(j: Job, eta: int): Job {
    NewJob(j.task, j.payload, j.opts).(opts := NewJob(j.task, j.payload, j.opts).opts.(eta := eta))
  }

  /** The schedule branch of enqueueWithMeta: the job as it is stored and pushed. */
  function Prepare(j: Job, cron: Cron): Option<Job> {
    if j.opts.schedule == "" then Some(j)
    else if cron.Unparsed? then None
    else
      var timed := j.(opts := j.opts.(eta := if j.opts.eta == 0 then cron.afterNow else j.opts.eta));
      Some(timed.(onSuccess := timed.onSuccess + [NextRun(timed, cron.afterEta)]))
  }

  function Stamp(m: Msg, st: Status): Msg {
    m.(meta := m.meta.(status := st))
  }
}
