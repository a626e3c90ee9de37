/** One queue of the in-memory broker, with its consumer and workers, as Server.Start lays them out: a
    bounded channel, a pending list mirrored beside it, an unbuffered hand-off, and close on shutdown.
    The queue's channel already exists. */
module MemoryBroker {

  type M = nat

  const CAPACITY := 100

  /** A worker or client. Sending: it has appended to the pending list and is at the channel send. */
  datatype Agent = Free | Busy(m: M) | Sending(m: M) | Gone

  /** Popping: received from the channel, before the head of the pending list is removed. */
  datatype Consumer = Selecting | Popping(d: M) | Handing(d: M) | Closed

  /** `sent` and `taken` are histories: what was sent into the channel, and which worker took what. */
  datatype Queue = Queue(
    chan: seq<M>, pending: seq<M>, consumer: Consumer, workers: seq<Agent>, clients: seq<Agent>,
    stopped: bool, crashed: bool, sent: seq<M>, taken: seq<(nat, M)>)

  datatype Step =
    | ClientAppend(a: nat, m: M)
    | ClientSend(a: nat)
    | RetryAppend(w: nat)
    | RetrySend(w: nat)
    | Receive
    | Pop
    | Hand(w: nat)
    | Finish(w: nat)
    | Cancel
    | Shutdown
    | Exit(w: nat)

  predicate Enabled(q: Queue, s: Step) {
    match s
    case ClientAppend(a, _) => a < |q.clients| && q.clients[a].Free?
    case ClientSend(a) => a < |q.clients| && q.clients[a].Sending? && |q.chan| < CAPACITY
    case RetryAppend(w) => w < |q.workers| && q.workers[w].Busy?
    case RetrySend(w) => w < |q.workers| && q.workers[w].Sending? && |q.chan| < CAPACITY
    case Receive => q.consumer.Selecting? && q.chan != []
    case Pop => q.consumer.Popping?
    case Hand(w) => w < |q.workers| && q.workers[w].Free? && q.consumer.Handing?
    case Finish(w) => w < |q.workers| && q.workers[w].Busy?
    case Cancel => true
    case Shutdown => q.consumer.Selecting? && q.stopped
    case Exit(w) => w < |q.workers| && q.workers[w].Free? && q.consumer.Closed?
  }

  function Apply(q: Queue, s: Step): Queue
    requires Enabled(q, s)
  {
    match s
    case ClientAppend(a, m) => q.(clients := q.clients[a := Sending(m)], pending := q.pending + [m])
    case ClientSend(a) =>
      var m := q.clients[a].m;
      q.(clients := q.clients[a := Free], chan := q.chan + [m], sent := q.sent + [m])
    case RetryAppend(w) =>
      var m := q.workers[w].m;
      q.(workers := q.workers[w := Sending(m)], pending := q.pending + [m])
    case RetrySend(w) =>
      var m := q.workers[w].m;
      q.(workers := q.workers[w := Free], chan := q.chan + [m], sent := q.sent + [m])
    case Receive => q.(consumer := Popping(q.chan[0]), chan := q.chan[1..])
    case Pop =>
      q.(consumer := Handing(q.consumer.d), crashed := q.crashed || q.pending == [],
         pending := if q.pending == [] then [] else q.pending[1..])
    case Hand(w) =>
      var d := q.consumer.d;
      q.(consumer := Selecting, workers := q.workers[w := Busy(d)], taken := q.taken + [(w, d)])
    case Finish(w) => q.(workers := q.workers[w := Free])
    case Cancel => q.(stopped := true)
    case Shutdown => q.(consumer := Closed)
    case Exit(w) => q.(workers := q.workers[w := Gone])
  }

  function Frees(n: nat): seq<Agent> {
    seq(n, _ => Free)
  }

  function Init(workers: nat, clients: nat): Queue {
    Queue([], [], Selecting, Frees(workers), Frees(clients), false, false, [], [])
  }

  ghost predicate IsRun(q: Queue, tr: seq<Step>)
    decreases |tr|, 0
  {
    tr == [] || (IsRun(q, tr[..|tr| - 1]) && Enabled(After(q, tr[..|tr| - 1]), tr[|tr| - 1]))
  }

  ghost function After(q: Queue, tr: seq<Step>): Queue
    requires IsRun(q, tr)
    decreases |tr|, 1
  {
    if tr == [] then q else Apply(After(q, tr[..|tr| - 1]), tr[|tr| - 1])
  }

  ghost predicate Reachable(workers: nat, clients: nat, tr: seq<Step>, q: Queue) {
    IsRun(Init(workers, clients), tr) && After(Init(workers, clients), tr) == q
  }

  // ---------------------------------------------------------------- the invariant

  function CountSending(s: seq<Agent>): nat {
    if s == [] then 0 else CountSending(s[..|s| - 1]) + if s[|s| - 1].Sending? then 1 else 0
  }

  function CountBusy(s: seq<Agent>): nat {
    if s == [] then 0 else CountBusy(s[..|s| - 1]) + if s[|s| - 1].Busy? then 1 else 0
  }

  function One(b: bool): nat {
    if b then 1 else 0
  }

  lemma {:induction false} CountUpdate(s: seq<Agent>, i: nat, a: Agent)
    requires i < |s|
    ensures CountSending(s[i := a]) + One(s[i].Sending?) == CountSending(s) + One(a.Sending?)
    ensures CountBusy(s[i := a]) + One(s[i].Busy?) == CountBusy(s) + One(a.Busy?)
  {
    if i == |s| - 1 {
      assert s[i := a][..|s| - 1] == s[..|s| - 1];
    } else {
      assert s[i := a][..|s| - 1] == s[..|s| - 1][i := a];
      CountUpdate(s[..|s| - 1], i, a);
    }
  }

  function Msgs(taken: seq<(nat, M)>): seq<M> {
    if taken == [] then [] else Msgs(taken[..|taken| - 1]) + [taken[|taken| - 1].1]
  }

  /** What the consumer holds. */
  function InHand(c: Consumer): seq<M> {
    if c.Popping? || c.Handing? then [c.d] else []
  }

  predicate Mirrored(q: Queue) {
    && |q.chan| <= CAPACITY
    && !q.crashed
    && |q.pending| == |q.chan| + CountSending(q.clients) + CountSending(q.workers) + One(q.consumer.Popping?)
  }

  predicate Flows(q: Queue) {
    && q.sent == Msgs(q.taken) + (InHand(q.consumer) + q.chan)
    && forall i | 0 <= i < |q.taken| :: q.taken[i].0 < |q.workers|
  }

  predicate Roles(q: Queue) {
    && (forall w | 0 <= w < |q.workers| && q.workers[w].Gone? :: q.consumer.Closed?)
    && (forall a | 0 <= a < |q.clients| :: q.clients[a].Free? || q.clients[a].Sending?)
  }

  predicate Inv(q: Queue) {
    Mirrored(q) && Flows(q) && Roles(q)
  }

  lemma StaysMirrored(q: Queue, s: Step)
    requires Mirrored(q) && Enabled(q, s)
    ensures Mirrored(Apply(q, s))
  {
    match s
    case ClientAppend(a, m) => CountUpdate(q.clients, a, Sending(m));
    case ClientSend(a) => CountUpdate(q.clients, a, Free);
    case RetryAppend(w) => CountUpdate(q.workers, w, Sending(q.workers[w].m));
    case RetrySend(w) => CountUpdate(q.workers, w, Free);
    case Hand(w) => CountUpdate(q.workers, w, Busy(q.consumer.d));
    case Finish(w) => CountUpdate(q.workers, w, Free);
    case Exit(w) => CountUpdate(q.workers, w, Gone);
    case _ =>
  }

  lemma KeepsFlowing(q: Queue, s: Step)
    requires Flows(q) && Enabled(q, s)
    ensures Flows(Apply(q, s))
  {
    var held := Msgs(q.taken);
    match s
    case ClientSend(a) =>
      assert held + (InHand(q.consumer) + q.chan) + [q.clients[a].m]
          == held + (InHand(q.consumer) + (q.chan + [q.clients[a].m]));
    case RetrySend(w) =>
      assert held + (InHand(q.consumer) + q.chan) + [q.workers[w].m]
          == held + (InHand(q.consumer) + (q.chan + [q.workers[w].m]));
    case Receive => assert [] + q.chan == [q.chan[0]] + q.chan[1..];
    case Hand(w) =>
      var d := q.consumer.d;
      assert (q.taken + [(w, d)])[..|q.taken|] == q.taken;
      assert held + ([d] + q.chan) == held + [d] + ([] + q.chan);
    case _ =>
  }

  lemma StepKeeps(q: Queue, s: Step)
    requires Inv(q) && Enabled(q, s)
    ensures Inv(Apply(q, s)) && |Apply(q, s).workers| == |q.workers| && |Apply(q, s).clients| == |q.clients|
  {
    StaysMirrored(q, s);
    KeepsFlowing(q, s);
  }

  lemma {:induction false} InitHolds(n: nat)
    ensures CountSending(Frees(n)) == 0 && CountBusy(Frees(n)) == 0
  {
    if n > 0 {
      assert Frees(n)[..n - 1] == Frees(n - 1);
      InitHolds(n - 1);
    }
  }

  lemma {:induction false} RunKeeps(workers: nat, clients: nat, tr: seq<Step>, q: Queue)
    requires Reachable(workers, clients, tr, q)
    ensures Inv(q) && |q.workers| == workers && |q.clients| == clients
  {
    if tr == [] {
      InitHolds(workers);
      InitHolds(clients);
    } else {
      var before := tr[..|tr| - 1];
      RunKeeps(workers, clients, before, After(Init(workers, clients), before));
      StepKeeps(After(Init(workers, clients), before), tr[|tr| - 1]);
    }
  }

  // ---------------------------------------------------------------- the pending mirror

  /** With any number of producers, the pending list is as long as the channel, plus the producers between
      append and send, plus one while the consumer is between receive and pop. So the pop never fails, and
      the list is empty when nothing is under way. */
  lemma PendingMirrors(workers: nat, clients: nat, tr: seq<Step>, q: Queue)
    requires Reachable(workers, clients, tr, q)
    ensures !q.crashed
    ensures |q.pending| == |q.chan| + CountSending(q.clients) + CountSending(q.workers) + One(q.consumer.Popping?)
    ensures q.consumer.Popping? ==> q.pending != []
    ensures q.chan == [] && !q.consumer.Popping? && CountSending(q.clients) == 0 && CountSending(q.workers) == 0 ==>
              q.pending == []
  {
    RunKeeps(workers, clients, tr, q);
  }

  /** The messages of agents at the channel send. */
  function SendingOf(s: seq<Agent>): seq<M> {
    if s == [] then [] else SendingOf(s[..|s| - 1]) + if s[|s| - 1].Sending? then [s[|s| - 1].m] else []
  }

  lemma {:induction false} SendingLength(s: seq<Agent>)
    ensures |SendingOf(s)| == CountSending(s)
  {
    if s != [] { SendingLength(s[..|s| - 1]); }
  }

  lemma {:induction false} SendingStays(s: seq<Agent>, i: nat, a: Agent)
    requires i < |s| && !s[i].Sending? && !a.Sending?
    ensures SendingOf(s[i := a]) == SendingOf(s)
  {
    if i == |s| - 1 {
      assert s[i := a][..|s| - 1] == s[..|s| - 1];
    } else {
      assert s[i := a][..|s| - 1] == s[..|s| - 1][i := a];
      SendingStays(s[..|s| - 1], i, a);
    }
  }

  lemma {:induction false} SendingStarts(s: seq<Agent>, i: nat, m: M)
    requires i < |s| && CountSending(s) == 0
    ensures SendingOf(s) == [] && SendingOf(s[i := Sending(m)]) == [m]
  {
    SendingLength(s);
    if i == |s| - 1 {
      assert s[i := Sending(m)][..|s| - 1] == s[..|s| - 1];
    } else {
      assert s[i := Sending(m)][..|s| - 1] == s[..|s| - 1][i := Sending(m)];
      SendingStarts(s[..|s| - 1], i, m);
    }
  }

  lemma SendingEnds(s: seq<Agent>, i: nat)
    requires i < |s| && CountSending(s) <= 1 && s[i].Sending?
    ensures SendingOf(s) == [s[i].m] && SendingOf(s[i := Free]) == []
  {
    CountUpdate(s, i, Free);
    SendingStarts(s[i := Free], i, s[i].m);
    assert s[i := Free][i := Sending(s[i].m)] == s;
  }

  /** What was received but not yet popped. */
  function Unpopped(q: Queue): seq<M> {
    if q.consumer.Popping? then [q.consumer.d] else []
  }

  /** The pending list names what was received but not popped, then the channel, in order. */
  predicate Follows(q: Queue) {
    Unpopped(q) + q.chan <= q.pending
  }

  /** And then what is about to be sent. */
  predicate ExactMirror(q: Queue) {
    q.pending == Unpopped(q) + q.chan + (SendingOf(q.clients) + SendingOf(q.workers))
  }

  /** At most one producer is between append and send. */
  predicate NoOverlap(q: Queue) {
    CountSending(q.clients) + CountSending(q.workers) <= 1
  }

  lemma Shift(u: seq<M>, chan: seq<M>, m: M)
    ensures u + chan + ([] + []) + [m] == u + chan + ([m] + []) == u + chan + ([] + [m])
    ensures u + chan + ([m] + []) == u + (chan + [m]) + ([] + [])
  {
  }

  lemma ClientAppendStaysExact(q: Queue, a: nat, m: M)
    requires ExactMirror(q) && Enabled(q, ClientAppend(a, m)) && NoOverlap(Apply(q, ClientAppend(a, m)))
    ensures ExactMirror(Apply(q, ClientAppend(a, m)))
  {
    CountUpdate(q.clients, a, Sending(m));
    SendingStarts(q.clients, a, m);
    SendingLength(q.workers);
    Shift(Unpopped(q), q.chan, m);
  }

  lemma RetryAppendStaysExact(q: Queue, w: nat)
    requires ExactMirror(q) && Enabled(q, RetryAppend(w)) && NoOverlap(Apply(q, RetryAppend(w)))
    ensures ExactMirror(Apply(q, RetryAppend(w)))
  {
    var m := q.workers[w].m;
    CountUpdate(q.workers, w, Sending(m));
    SendingStarts(q.workers, w, m);
    SendingLength(q.clients);
    Shift(Unpopped(q), q.chan, m);
  }

  lemma ClientSendStaysExact(q: Queue, a: nat)
    requires ExactMirror(q) && NoOverlap(q) && Enabled(q, ClientSend(a))
    ensures ExactMirror(Apply(q, ClientSend(a)))
  {
    CountUpdate(q.clients, a, Free);
    SendingEnds(q.clients, a);
    SendingLength(q.workers);
    Shift(Unpopped(q), q.chan, q.clients[a].m);
  }

  lemma RetrySendStaysExact(q: Queue, w: nat)
    requires ExactMirror(q) && NoOverlap(q) && Enabled(q, RetrySend(w))
    ensures ExactMirror(Apply(q, RetrySend(w)))
  {
    CountUpdate(q.workers, w, Free);
    SendingEnds(q.workers, w);
    SendingLength(q.clients);
    Shift(Unpopped(q), q.chan, q.workers[w].m);
  }

  lemma HeadLeaves(m: M, chan: seq<M>, sending: seq<M>)
    ensures ([m] + chan + sending)[1..] == [] + chan + sending
    ensures chan != [] ==> [] + chan + sending == [chan[0]] + chan[1..] + sending
  {
  }

  lemma ConsumerStaysExact(q: Queue, s: Step)
    requires ExactMirror(q) && Enabled(q, s) && (s.Receive? || s.Pop?)
    ensures ExactMirror(Apply(q, s))
  {
    HeadLeaves(if s.Pop? then q.consumer.d else 0, q.chan, SendingOf(q.clients) + SendingOf(q.workers));
  }

  lemma StaysExact(q: Queue, s: Step)
    requires ExactMirror(q) && NoOverlap(q) && Enabled(q, s) && NoOverlap(Apply(q, s))
    ensures ExactMirror(Apply(q, s))
  {
    match s
    case ClientAppend(a, m) => ClientAppendStaysExact(q, a, m);
    case RetryAppend(w) => RetryAppendStaysExact(q, w);
    case ClientSend(a) => ClientSendStaysExact(q, a);
    case RetrySend(w) => RetrySendStaysExact(q, w);
    case Receive => ConsumerStaysExact(q, s);
    case Pop => ConsumerStaysExact(q, s);
    case Hand(w) => SendingStays(q.workers, w, Busy(q.consumer.d));
    case Finish(w) => SendingStays(q.workers, w, Free);
    case Exit(w) => SendingStays(q.workers, w, Gone);
    case Cancel =>
    case Shutdown =>
  }

  /** In no state of the run are two producers between append and send. */
  ghost predicate NeverOverlaps(q: Queue, tr: seq<Step>)
    requires IsRun(q, tr)
  {
    (tr == [] || NeverOverlaps(q, tr[..|tr| - 1])) && NoOverlap(After(q, tr))
  }

  /** As long as their calls do not overlap, any number of clients and retrying workers leave contents and
      order of the mirror exact. */
  lemma {:induction false} MirrorIsExactWithoutOverlap(workers: nat, clients: nat, tr: seq<Step>, q: Queue)
    requires Reachable(workers, clients, tr, q) && NeverOverlaps(Init(workers, clients), tr)
    ensures ExactMirror(q) && Follows(q)
  {
    if tr == [] {
      InitHolds(workers);
      InitHolds(clients);
      SendingLength(q.clients);
      SendingLength(q.workers);
    } else {
      var before := tr[..|tr| - 1];
      MirrorIsExactWithoutOverlap(workers, clients, before, After(Init(workers, clients), before));
      StaysExact(After(Init(workers, clients), before), tr[|tr| - 1]);
    }
  }

  datatype Producer = Client(a: nat) | Worker(w: nat)

  predicate IsSending(q: Queue, p: Producer, m: M) {
    match p
    case Client(a) => a < |q.clients| && q.clients[a] == Sending(m)
    case Worker(w) => w < |q.workers| && q.workers[w] == Sending(m)
  }

  function Send(p: Producer): Step {
    match p
    case Client(a) => ClientSend(a)
    case Worker(w) => RetrySend(w)
  }

  lemma SendOne(q: Queue, p: Producer, m: M)
    requires IsSending(q, p, m) && |q.chan| < CAPACITY
    ensures Enabled(q, Send(p))
    ensures var q' := Apply(q, Send(p));
            && q'.chan == q.chan + [m] && q'.pending == q.pending && q'.consumer == q.consumer
            && forall o, n | o != p && IsSending(q, o, n) :: IsSending(q', o, n)
  {
  }

  /** As soon as two calls with different messages do overlap, and there is room for both, one order of
      their sends leaves a list that names the channel in another order. */
  lemma OverlapCanMisorder(q: Queue, p: Producer, m: M, o: Producer, n: M)
    requires IsSending(q, p, m) && IsSending(q, o, n) && m != n && |q.chan| + 2 <= CAPACITY
    ensures Enabled(q, Send(p)) && Enabled(Apply(q, Send(p)), Send(o))
    ensures Enabled(q, Send(o)) && Enabled(Apply(q, Send(o)), Send(p))
    ensures !Follows(Apply(Apply(q, Send(p)), Send(o))) || !Follows(Apply(Apply(q, Send(o)), Send(p)))
  {
    SendOne(q, p, m);
    SendOne(Apply(q, Send(p)), o, n);
    SendOne(q, o, n);
    SendOne(Apply(q, Send(o)), p, m);
    var at := |Unpopped(q)| + |q.chan|;
    assert (Unpopped(q) + (q.chan + [m] + [n]))[at] == m;
    assert (Unpopped(q) + (q.chan + [n] + [m]))[at] == n;
  }

  lemma Extend(q0: Queue, tr: seq<Step>, q: Queue, s: Step) returns (tr': seq<Step>, q': Queue)
    requires IsRun(q0, tr) && After(q0, tr) == q && Enabled(q, s)
    ensures IsRun(q0, tr') && After(q0, tr') == q' && q' == Apply(q, s) && tr' == tr + [s]
  {
    tr' := tr + [s];
    assert tr'[..|tr'| - 1] == tr;
    q' := Apply(q, s);
  }

  // ---------------------------------------------------------------- whose message it is

  /** The last message that worker w was handed is m. */
  ghost predicate LastTaken(taken: seq<(nat, M)>, w: nat, m: M) {
    exists i | 0 <= i < |taken| :: taken[i] == (w, m) && forall j | i < j < |taken| :: taken[j].0 != w
  }

  /** The last message that client a submitted is m. */
  ghost predicate LastSubmitted(tr: seq<Step>, a: nat, m: M) {
    exists i | 0 <= i < |tr| ::
      tr[i] == ClientAppend(a, m) && forall j | i < j < |tr| :: !(tr[j].ClientAppend? && tr[j].a == a)
  }

  ghost predicate HoldTheirs(q: Queue, tr: seq<Step>) {
    && (forall w | 0 <= w < |q.workers| && (q.workers[w].Busy? || q.workers[w].Sending?) ::
          LastTaken(q.taken, w, q.workers[w].m))
    && (forall a | 0 <= a < |q.clients| && q.clients[a].Sending? :: LastSubmitted(tr, a, q.clients[a].m))
  }

  lemma TakenGrows(taken: seq<(nat, M)>, v: nat, d: M, w: nat, m: M)
    requires LastTaken(taken, w, m) && v != w
    ensures LastTaken(taken + [(v, d)], w, m)
  {
    var i :| 0 <= i < |taken| && taken[i] == (w, m) && forall j | i < j < |taken| :: taken[j].0 != w;
    assert (taken + [(v, d)])[i] == (w, m);
  }

  lemma TakenNow(taken: seq<(nat, M)>, w: nat, m: M)
    ensures LastTaken(taken + [(w, m)], w, m)
  {
    assert (taken + [(w, m)])[|taken|] == (w, m);
  }

  lemma SubmittedGrows(tr: seq<Step>, s: Step, a: nat, m: M)
    requires if s.ClientAppend? && s.a == a then s.m == m else LastSubmitted(tr, a, m)
    ensures LastSubmitted(tr + [s], a, m)
  {
    if s.ClientAppend? && s.a == a {
      assert (tr + [s])[|tr|] == ClientAppend(a, m);
    } else {
      var i :| 0 <= i < |tr| && tr[i] == ClientAppend(a, m)
               && forall j | i < j < |tr| :: !(tr[j].ClientAppend? && tr[j].a == a);
      assert (tr + [s])[i] == ClientAppend(a, m);
    }
  }

  lemma StepHoldsTheirs(q: Queue, tr: seq<Step>, s: Step)
    requires HoldTheirs(q, tr) && Enabled(q, s)
    ensures HoldTheirs(Apply(q, s), tr + [s])
  {
    var q' := Apply(q, s);
    forall w | 0 <= w < |q'.workers| && (q'.workers[w].Busy? || q'.workers[w].Sending?)
      ensures LastTaken(q'.taken, w, q'.workers[w].m)
    {
      if s == Hand(w) {
        TakenNow(q.taken, w, q.consumer.d);
      } else {
        assert LastTaken(q.taken, w, q.workers[w].m);
        if s.Hand? { TakenGrows(q.taken, s.w, q.consumer.d, w, q.workers[w].m); }
      }
    }
    forall a | 0 <= a < |q'.clients| && q'.clients[a].Sending?
      ensures LastSubmitted(tr + [s], a, q'.clients[a].m)
    {
      SubmittedGrows(tr, s, a, q'.clients[a].m);
    }
  }

  /** Throughout every run, a worker that works or retries holds the message it was handed last, and a client
      that is sending holds the one it submitted last. So these are the messages they send. */
  lemma {:induction false} EachHoldsItsOwn(workers: nat, clients: nat, tr: seq<Step>, q: Queue)
    requires Reachable(workers, clients, tr, q)
    ensures forall w | 0 <= w < |q.workers| && (q.workers[w].Busy? || q.workers[w].Sending?) ::
              LastTaken(q.taken, w, q.workers[w].m)
    ensures forall a | 0 <= a < |q.clients| && q.clients[a].Sending? :: LastSubmitted(tr, a, q.clients[a].m)
    ensures HoldTheirs(q, tr)
  {
    if tr != [] {
      var before := tr[..|tr| - 1];
      var v := After(Init(workers, clients), before);
      EachHoldsItsOwn(workers, clients, before, v);
      StepHoldsTheirs(v, before, tr[|tr| - 1]);
      assert before + [tr[|tr| - 1]] == tr;
    }
  }

  /** What each send puts into the channel, and each hand-over gives the worker. */
  lemma SendsItsOwn(workers: nat, clients: nat, tr: seq<Step>, q: Queue, s: Step)
    requires Reachable(workers, clients, tr, q) && Enabled(q, s)
    ensures s.RetrySend? ==> exists m :: LastTaken(q.taken, s.w, m) && Apply(q, s).chan == q.chan + [m]
    ensures s.ClientSend? ==> exists m :: LastSubmitted(tr, s.a, m) && Apply(q, s).chan == q.chan + [m]
    ensures s.Hand? ==> |q.taken| < |q.sent| && LastTaken(Apply(q, s).taken, s.w, q.sent[|q.taken|])
                        && Apply(q, s).workers[s.w] == Busy(q.sent[|q.taken|])
  {
    EachHoldsItsOwn(workers, clients, tr, q);
    if s.Hand? {
      RunKeeps(workers, clients, tr, q);
      MsgsLength(q.taken);
      TakenNow(q.taken, s.w, q.consumer.d);
    }
  }

  // ---------------------------------------------------------------- conservation

  /** How often clients submitted message x. */
  function Submits(tr: seq<Step>, x: M): nat {
    if tr == [] then 0
    else Submits(tr[..|tr| - 1], x) + One(tr[|tr| - 1].ClientAppend? && tr[|tr| - 1].m == x)
  }

  /** How often workers were done with it. */
  ghost function Finishes(q: Queue, tr: seq<Step>, x: M): nat
    requires IsRun(q, tr)
  {
    if tr == [] then 0
    else Finishes(q, tr[..|tr| - 1], x) + One(IsFinish(After(q, tr[..|tr| - 1]), tr[|tr| - 1], x))
  }

  predicate IsFinish(q: Queue, s: Step, x: M)
    requires Enabled(q, s)
  {
    s.Finish? && q.workers[s.w].m == x
  }

  predicate Holds(a: Agent, x: M) {
    (a.Busy? || a.Sending?) && a.m == x
  }

  /** How many agents hold it. */
  function Holders(s: seq<Agent>, x: M): nat {
    if s == [] then 0 else Holders(s[..|s| - 1], x) + One(Holds(s[|s| - 1], x))
  }

  lemma {:induction false} HoldersUpdate(s: seq<Agent>, i: nat, a: Agent, x: M)
    requires i < |s|
    ensures Holders(s[i := a], x) + One(Holds(s[i], x)) == Holders(s, x) + One(Holds(a, x))
  {
    if i == |s| - 1 {
      assert s[i := a][..|s| - 1] == s[..|s| - 1];
    } else {
      assert s[i := a][..|s| - 1] == s[..|s| - 1][i := a];
      HoldersUpdate(s[..|s| - 1], i, a, x);
    }
  }

  lemma {:induction false} SomeHolder(s: seq<Agent>, i: nat, x: M)
    requires i < |s| && Holds(s[i], x)
    ensures Holders(s, x) > 0
  {
    if i < |s| - 1 { SomeHolder(s[..|s| - 1], i, x); }
  }

  lemma {:induction false} FreesHoldNothing(n: nat, x: M)
    ensures Holders(Frees(n), x) == 0
  {
    if n > 0 {
      assert Frees(n)[..n - 1] == Frees(n - 1);
      FreesHoldNothing(n - 1, x);
    }
  }

  /** The copies in a list. */
  function Copies(s: seq<M>, x: M): nat {
    multiset(s)[x]
  }

  /** How many copies there are that are not finished. */
  function Present(q: Queue, x: M): nat {
    Copies(q.chan, x) + Copies(InHand(q.consumer), x) + Holders(q.workers, x) + Holders(q.clients, x)
  }

  lemma CopiesAdd(s: seq<M>, t: seq<M>, x: M)
    ensures Copies(s + t, x) == Copies(s, x) + Copies(t, x)
    ensures |t| == 1 ==> Copies(t, x) == One(t[0] == x)
  {
    if |t| == 1 { assert t == [t[0]]; }
  }

  lemma AppendConserves(q: Queue, s: Step, x: M)
    requires Enabled(q, s) && (s.ClientAppend? || s.RetryAppend? || s.Finish? || s.Exit?)
    ensures Present(Apply(q, s), x) + One(IsFinish(q, s, x)) == Present(q, x) + One(s.ClientAppend? && s.m == x)
  {
    match s
    case ClientAppend(a, m) => HoldersUpdate(q.clients, a, Sending(m), x);
    case RetryAppend(w) => HoldersUpdate(q.workers, w, Sending(q.workers[w].m), x);
    case Finish(w) => HoldersUpdate(q.workers, w, Free, x);
    case Exit(w) => HoldersUpdate(q.workers, w, Gone, x);
  }

  lemma SendConserves(q: Queue, s: Step, x: M)
    requires Enabled(q, s) && (s.ClientSend? || s.RetrySend?)
    ensures Present(Apply(q, s), x) == Present(q, x)
  {
    hide Copies;
    var m := if s.ClientSend? then q.clients[s.a].m else q.workers[s.w].m;
    CopiesAdd(q.chan, [m], x);
    match s
    case ClientSend(a) => HoldersUpdate(q.clients, a, Free, x);
    case RetrySend(w) => HoldersUpdate(q.workers, w, Free, x);
  }

  lemma ConsumerConserves(q: Queue, s: Step, x: M)
    requires Enabled(q, s) && (s.Receive? || s.Pop? || s.Hand?)
    ensures Present(Apply(q, s), x) == Present(q, x)
  {
    hide Copies;
    if s.Receive? {
      CopiesAdd([q.chan[0]], q.chan[1..], x);
      CopiesAdd([], [q.chan[0]], x);
      assert q.chan == [q.chan[0]] + q.chan[1..] && [q.chan[0]] == [] + [q.chan[0]];
    }
    if s.Hand? {
      CopiesAdd([], [q.consumer.d], x);
      assert [q.consumer.d] == [] + [q.consumer.d];
      HoldersUpdate(q.workers, s.w, Busy(q.consumer.d), x);
    }
  }

  lemma StepConserves(q: Queue, s: Step, x: M)
    requires Enabled(q, s)
    ensures Present(Apply(q, s), x) + One(IsFinish(q, s, x)) == Present(q, x) + One(s.ClientAppend? && s.m == x)
  {
    hide Present;
    if s.ClientAppend? || s.RetryAppend? || s.Finish? || s.Exit? {
      AppendConserves(q, s, x);
    } else if s.ClientSend? || s.RetrySend? {
      SendConserves(q, s, x);
    } else if s.Receive? || s.Pop? || s.Hand? {
      ConsumerConserves(q, s, x);
    } else {
      OthersConserve(q, s, x);
    }
  }

  lemma OthersConserve(q: Queue, s: Step, x: M)
    requires Enabled(q, s) && (s.Cancel? || s.Shutdown?)
    ensures Present(Apply(q, s), x) == Present(q, x)
  {
  }

  /** Messages are conserved: over every run, each was submitted as often as it is in the channel, with the
      consumer, with a worker or with a client, or finished. */
  lemma {:induction false} MessagesAreConserved(workers: nat, clients: nat, tr: seq<Step>, q: Queue, x: M)
    requires Reachable(workers, clients, tr, q)
    ensures Submits(tr, x) == multiset(q.chan)[x] + multiset(InHand(q.consumer))[x] + Holders(q.workers, x)
                              + Holders(q.clients, x) + Finishes(Init(workers, clients), tr, x)
  {
    if tr == [] {
      FreesHoldNothing(workers, x);
      FreesHoldNothing(clients, x);
    } else {
      var before := tr[..|tr| - 1];
      var v := After(Init(workers, clients), before);
      MessagesAreConserved(workers, clients, before, v, x);
      StepConserves(v, tr[|tr| - 1], x);
    }
  }

  /** So nothing is sent, received or handed over that no client submitted. */
  lemma {:induction false} NothingIsMadeUp(workers: nat, clients: nat, tr: seq<Step>, q: Queue, m: M)
    requires Reachable(workers, clients, tr, q)
    requires m in q.sent || m in Msgs(q.taken) || m in q.chan || m in InHand(q.consumer)
    ensures exists i | 0 <= i < |tr| :: tr[i].ClientAppend? && tr[i].m == m
  {
    RunKeeps(workers, clients, tr, q);
    assert m in q.sent;
    SentWasSubmitted(workers, clients, tr, q, m);
    WasSubmitted(tr, m);
  }

  lemma {:induction false} SentWasSubmitted(workers: nat, clients: nat, tr: seq<Step>, q: Queue, m: M)
    requires Reachable(workers, clients, tr, q) && m in q.sent
    ensures Submits(tr, m) > 0
  {
    var before, s := tr[..|tr| - 1], tr[|tr| - 1];
    var v := After(Init(workers, clients), before);
    if m in v.sent {
      SentWasSubmitted(workers, clients, before, v, m);
    } else {
      MessagesAreConserved(workers, clients, before, v, m);
      if s.ClientSend? { SomeHolder(v.clients, s.a, m); } else { SomeHolder(v.workers, s.w, m); }
    }
  }

  lemma {:induction false} WasSubmitted(tr: seq<Step>, m: M)
    requires Submits(tr, m) > 0
    ensures exists i | 0 <= i < |tr| :: tr[i].ClientAppend? && tr[i].m == m
  {
    var before, s := tr[..|tr| - 1], tr[|tr| - 1];
    if Submits(before, m) > 0 {
      WasSubmitted(before, m);
      var i :| 0 <= i < |before| && before[i].ClientAppend? && before[i].m == m;
      assert tr[i].m == m;
    } else {
      assert s.m == m;
    }
  }

  /** What was appended to the pending list, in order. */
  ghost function Appended(q: Queue, tr: seq<Step>): seq<M>
    requires IsRun(q, tr)
  {
    if tr == [] then [] else
    var v, s := After(q, tr[..|tr| - 1]), tr[|tr| - 1];
    Appended(q, tr[..|tr| - 1])
    + if s.ClientAppend? then [s.m] else if s.RetryAppend? then [v.workers[s.w].m] else []
  }

  function Pops(tr: seq<Step>): nat {
    if tr == [] then 0 else Pops(tr[..|tr| - 1]) + One(tr[|tr| - 1].Pop?)
  }

  /** Overlapping or not, the pending list is what was appended, without as many of the first as were
      received and popped. */
  lemma {:induction false} PendingIsRest(workers: nat, clients: nat, tr: seq<Step>, q: Queue)
    requires Reachable(workers, clients, tr, q)
    ensures Pops(tr) <= |Appended(Init(workers, clients), tr)|
    ensures q.pending == Appended(Init(workers, clients), tr)[Pops(tr)..]
  {
    if tr != [] {
      var before := tr[..|tr| - 1];
      PendingIsRest(workers, clients, before, After(Init(workers, clients), before));
      RunKeeps(workers, clients, before, After(Init(workers, clients), before));
    }
  }

  // ---------------------------------------------------------------- shutdown

  /** The consumer stops only if the server was asked to. */
  lemma {:induction false} ClosesOnlyIfCancelled(workers: nat, clients: nat, tr: seq<Step>, q: Queue)
    requires Reachable(workers, clients, tr, q)
    ensures q.stopped <==> Cancel in tr
    ensures q.consumer.Closed? ==> Cancel in tr
  {
    if tr != [] {
      var before := tr[..|tr| - 1];
      ClosesOnlyIfCancelled(workers, clients, before, After(Init(workers, clients), before));
      assert tr == before + [tr[|tr| - 1]];
    }
  }

  /** Workers take messages in the order they were sent, each once, and none is lost on the way: what was
      sent is what was taken, then what the consumer holds, then the channel. */
  lemma HandedAreAPrefix(workers: nat, clients: nat, tr: seq<Step>, q: Queue)
    requires Reachable(workers, clients, tr, q)
    ensures q.sent == Msgs(q.taken) + (InHand(q.consumer) + q.chan) && Msgs(q.taken) <= q.sent
    ensures forall i | 0 <= i < |q.taken| :: q.taken[i].0 < workers
    ensures forall w | 0 <= w < |q.workers| && (q.workers[w].Busy? || q.workers[w].Sending?) ::
              LastTaken(q.taken, w, q.workers[w].m)
  {
    RunKeeps(workers, clients, tr, q);
    EachHoldsItsOwn(workers, clients, tr, q);
  }

  /** Nothing is handed over once the work channel is closed. */
  lemma {:induction false} NothingAfterClose(q: Queue, tr: seq<Step>)
    requires IsRun(q, tr) && q.consumer.Closed?
    ensures After(q, tr).consumer.Closed? && After(q, tr).taken == q.taken
  {
    if tr != [] {
      NothingAfterClose(q, tr[..|tr| - 1]);
    }
  }

  /** Start returns when the consumer and all workers have. Then every received message was taken by a
      worker, and the rest are still in the channel, in order. And each message was finished as often as
      clients submitted it, but for copies in the channel or with a client that is sending. */
  lemma ReturnLosesNothing(workers: nat, clients: nat, tr: seq<Step>, q: Queue)
    requires Reachable(workers, clients, tr, q)
    requires q.consumer.Closed? && forall w | 0 <= w < |q.workers| :: q.workers[w].Gone?
    ensures q.sent == Msgs(q.taken) + q.chan && |q.taken| + |q.chan| == |q.sent|
    ensures forall x :: Submits(tr, x) == Finishes(Init(workers, clients), tr, x) + multiset(q.chan)[x]
                                          + Holders(q.clients, x)
  {
    RunKeeps(workers, clients, tr, q);
    MsgsLength(q.taken);
    forall x
      ensures Submits(tr, x) == Finishes(Init(workers, clients), tr, x) + multiset(q.chan)[x] + Holders(q.clients, x)
    {
      MessagesAreConserved(workers, clients, tr, q, x);
      GoneHoldNothing(q.workers, x);
    }
  }

  lemma {:induction false} GoneHoldNothing(s: seq<Agent>, x: M)
    requires forall w | 0 <= w < |s| :: s[w].Gone?
    ensures Holders(s, x) == 0
  {
    if s != [] { GoneHoldNothing(s[..|s| - 1], x); }
  }

  lemma {:induction false} MsgsLength(taken: seq<(nat, M)>)
    ensures |Msgs(taken)| == |taken|
  {
    if taken != [] { MsgsLength(taken[..|taken| - 1]); }
  }

  // ---------------------------------------------------------------- deadlock

  /** Messages that are not finished: in the channel, with the consumer, a worker or a client. */
  function Live(q: Queue): nat {
    |q.chan| + |InHand(q.consumer)| + CountBusy(q.workers) + CountSending(q.workers) + CountSending(q.clients)
  }

  /** Steps that work on messages already there. */
  predicate Internal(s: Step) {
    !s.ClientAppend? && !s.Cancel?
  }

  /** There is work, and none of it can move. */
  ghost predicate Deadlocked(q: Queue) {
    Live(q) > 0 && forall s | Internal(s) :: !Enabled(q, s)
  }

  predicate Jammed(q: Queue) {
    q.consumer.Handing? && |q.chan| == CAPACITY && forall w | 0 <= w < |q.workers| :: q.workers[w].Sending?
  }

  lemma StuckIsJammed(q: Queue)
    requires Inv(q) && q.workers != [] && !q.consumer.Closed? && Deadlocked(q)
    ensures Jammed(q)
  {
    assert !Enabled(q, Receive) && !Enabled(q, Pop);
    forall w | 0 <= w < |q.workers|
      ensures !q.workers[w].Busy? && !q.workers[w].Gone?
      ensures q.workers[w].Sending? ==> |q.chan| == CAPACITY
      ensures q.consumer.Handing? ==> q.workers[w].Sending?
    {
      assert !Enabled(q, Finish(w)) && !Enabled(q, Hand(w)) && !Enabled(q, RetrySend(w));
    }
    forall a | 0 <= a < |q.clients|
      ensures q.clients[a].Sending? ==> |q.chan| == CAPACITY
    {
      assert !Enabled(q, ClientSend(a));
    }
    if q.consumer.Handing? {
      assert q.workers[0].Sending?;
    } else {
      NoneCount(q.clients);
      NoneCount(q.workers);
      assert false;
    }
  }

  /** Exactly when a queue that is not shut down is stuck: the consumer is blocked on the hand-off while
      every worker is blocked on the full channel. */
  lemma DeadlockIsJam(workers: nat, clients: nat, tr: seq<Step>, q: Queue)
    requires Reachable(workers, clients, tr, q) && !q.consumer.Closed? && workers > 0
    ensures Deadlocked(q) <==>
              q.consumer.Handing? && |q.chan| == 100 && forall w | 0 <= w < |q.workers| :: q.workers[w].Sending?
  {
    RunKeeps(workers, clients, tr, q);
    if Deadlocked(q) {
      StuckIsJammed(q);
    }
  }

  /** A stuck queue stays stuck, whatever clients do and even when it is asked to stop: no worker ever gets
      another message, so Start never returns. */
  lemma {:induction false} JamIsForever(q: Queue, tr: seq<Step>)
    requires IsRun(q, tr) && Jammed(q) && q.workers != []
    ensures Jammed(After(q, tr)) && After(q, tr).workers == q.workers && After(q, tr).taken == q.taken
  {
    if tr != [] {
      var v := After(q, tr[..|tr| - 1]);
      JamIsForever(q, tr[..|tr| - 1]);
      assert v.workers[0].Sending?;
    }
  }

  /** The bound: with at most 100 + W live jobs, a queue with W workers that is not shut down is never stuck. */
  lemma NoDeadlockUpToBound(workers: nat, clients: nat, tr: seq<Step>, q: Queue)
    requires Reachable(workers, clients, tr, q) && !q.consumer.Closed? && workers > 0
    requires Live(q) <= 100 + workers
    ensures !Deadlocked(q)
  {
    RunKeeps(workers, clients, tr, q);
    DeadlockIsJam(workers, clients, tr, q);
    if Deadlocked(q) {
      AllSendingCount(q.workers);
    }
  }

  lemma Submit(q0: Queue, tr: seq<Step>, q: Queue, m: M) returns (tr': seq<Step>, q': Queue)
    requires IsRun(q0, tr) && After(q0, tr) == q && |q.chan| < CAPACITY && q.clients == [Free]
    ensures IsRun(q0, tr') && After(q0, tr') == q' && q'.chan == q.chan + [m]
    ensures q'.clients == q.clients && q'.consumer == q.consumer && q'.workers == q.workers
  {
    tr', q' := Extend(q0, tr, q, ClientAppend(0, m));
    tr', q' := Extend(q0, tr', q', ClientSend(0));
  }

  lemma SubmitAndFetch(q0: Queue, tr: seq<Step>, q: Queue, m: M) returns (tr': seq<Step>, q': Queue)
    requires IsRun(q0, tr) && After(q0, tr) == q && q.chan == [] && q.consumer.Selecting? && q.clients == [Free]
    ensures IsRun(q0, tr') && After(q0, tr') == q' && q'.chan == [] && q'.consumer == Handing(m)
    ensures q'.clients == q.clients && q'.workers == q.workers
  {
    tr', q' := Submit(q0, tr, q, m);
    tr', q' := Extend(q0, tr', q', Receive);
    tr', q' := Extend(q0, tr', q', Pop);
  }

  /** The bound is sharp: for any number of workers, one more live job can jam the queue. */
  lemma JamIsReachable(workers: nat) returns (tr: seq<Step>, q: Queue)
    requires workers > 0
    ensures Reachable(workers, 1, tr, q) && Live(q) == 101 + workers && Deadlocked(q)
  {
    var q0 := Init(workers, 1);
    tr, q := [], q0;
    for w := 0 to workers
      invariant IsRun(q0, tr) && After(q0, tr) == q
      invariant q.chan == [] && q.consumer.Selecting? && q.clients == [Free] && |q.workers| == workers
      invariant forall k | 0 <= k < workers :: if k < w then q.workers[k].Busy? else q.workers[k].Free?
    {
      tr, q := SubmitAndFetch(q0, tr, q, w);
      tr, q := Extend(q0, tr, q, Hand(w));
    }
    tr, q := SubmitAndFetch(q0, tr, q, workers);
    for n := 0 to CAPACITY
      invariant IsRun(q0, tr) && After(q0, tr) == q
      invariant |q.chan| == n && q.consumer.Handing? && q.clients == [Free] && |q.workers| == workers
      invariant forall k | 0 <= k < workers :: q.workers[k].Busy?
    {
      tr, q := Submit(q0, tr, q, workers + 1 + n);
    }
    for w := 0 to workers
      invariant IsRun(q0, tr) && After(q0, tr) == q
      invariant |q.chan| == CAPACITY && q.consumer.Handing? && q.clients == [Free] && |q.workers| == workers
      invariant forall k | 0 <= k < workers :: if k < w then q.workers[k].Sending? else q.workers[k].Busy?
    {
      tr, q := Extend(q0, tr, q, RetryAppend(w));
    }
    AllSendingCount(q.workers);
    NoneCount(q.clients);
  }

  // ---------------------------------------------------------------- after the close

  predicate StepOfWorker(s: Step, w: nat) {
    match s
    case RetryAppend(v) => v == w
    case RetrySend(v) => v == w
    case Hand(v) => v == w
    case Finish(v) => v == w
    case Exit(v) => v == w
    case _ => false
  }

  /** Worker w has not returned and cannot take any step. */
  ghost predicate IsStuck(q: Queue, w: nat) {
    w < |q.workers| && !q.workers[w].Gone? && forall s | StepOfWorker(s, w) :: !Enabled(q, s)
  }

  /** Once the consumer has closed the work channel, a worker is stuck if and only if it has a retry to send
      and the channel is full. */
  lemma StuckAfterClose(q: Queue, w: nat)
    requires q.consumer.Closed? && |q.chan| <= 100 && w < |q.workers|
    ensures IsStuck(q, w) <==> q.workers[w].Sending? && |q.chan| == 100
  {
    if IsStuck(q, w) {
      assert !Enabled(q, RetrySend(w)) && !Enabled(q, Finish(w)) && !Enabled(q, Exit(w));
    }
  }

  /** And then for good: nothing is received any more. */
  lemma {:induction false} StuckIsForever(q: Queue, tr: seq<Step>, w: nat)
    requires IsRun(q, tr) && q.consumer.Closed? && w < |q.workers| && q.workers[w].Sending? && |q.chan| == 100
    ensures After(q, tr).consumer.Closed? && After(q, tr).chan == q.chan
    ensures w < |After(q, tr).workers| && After(q, tr).workers[w] == q.workers[w]
  {
    if tr != [] { StuckIsForever(q, tr[..|tr| - 1], w); }
  }

  predicate AllGone(q: Queue) {
    forall w | 0 <= w < |q.workers| :: q.workers[w].Gone?
  }

  /** No worker is stuck after the close with at most 100 live jobs. */
  lemma NoneStuckUpToBound(workers: nat, clients: nat, tr: seq<Step>, q: Queue, w: nat)
    requires Reachable(workers, clients, tr, q) && q.consumer.Closed? && w < workers && Live(q) <= 100
    ensures !IsStuck(q, w)
  {
    RunKeeps(workers, clients, tr, q);
    StuckAfterClose(q, w);
    if q.workers[w].Sending? { CountPositive(q.workers, w); }
  }

  /** With one more, one can be, for any number of workers. */
  lemma StuckIsReachable(workers: nat) returns (tr: seq<Step>, q: Queue)
    requires workers > 0
    ensures Reachable(workers, 1, tr, q) && q.consumer.Closed? && IsStuck(q, 0) && Live(q) == 101
  {
    var q0 := Init(workers, 1);
    tr, q := SubmitAndFetch(q0, [], q0, 0);
    tr, q := Extend(q0, tr, q, Hand(0));
    tr, q := Extend(q0, tr, q, Cancel);
    tr, q := Extend(q0, tr, q, Shutdown);
    for n := 0 to CAPACITY
      invariant IsRun(q0, tr) && After(q0, tr) == q && q.consumer.Closed? && q.clients == [Free] && |q.chan| == n
      invariant q.workers == q0.workers[0 := Busy(0)]
    {
      tr, q := Submit(q0, tr, q, n + 1);
    }
    tr, q := Extend(q0, tr, q, RetryAppend(0));
    StuckAfterClose(q, 0);
    InitHolds(workers);
    CountUpdate(q0.workers, 0, Sending(0));
    assert q.workers == q0.workers[0 := Sending(0)];
    NoneCount(q.clients);
  }

  /** The continuation ends with all workers returned, as Start waits for. */
  ghost predicate Returns(q: Queue, ext: seq<Step>) {
    IsRun(q, ext) && AllGone(After(q, ext))
  }

  /** Start can still return if and only if the channel has room for every retry under way. */
  lemma ReturnsIfRoom(workers: nat, clients: nat, tr: seq<Step>, q: Queue)
    requires Reachable(workers, clients, tr, q) && q.consumer.Closed?
    ensures |q.chan| + CountSending(q.workers) <= 100 <==> exists ext :: Returns(q, ext)
  {
    RunKeeps(workers, clients, tr, q);
    if |q.chan| + CountSending(q.workers) <= CAPACITY {
      var ext := Return(q);
      assert Returns(q, ext);
    } else {
      forall ext | IsRun(q, ext)
        ensures !Returns(q, ext)
      {
        RoomNeverGrows(q, ext);
        if AllGone(After(q, ext)) { NoneCount(After(q, ext).workers); }
      }
    }
  }

  lemma Retire(q: Queue, ext: seq<Step>, v: Queue, w: nat) returns (ext': seq<Step>, v': Queue)
    requires IsRun(q, ext) && After(q, ext) == v && v.consumer.Closed? && w < |v.workers|
    requires |v.chan| + CountSending(v.workers) <= CAPACITY
    ensures IsRun(q, ext') && After(q, ext') == v' && v'.consumer.Closed?
    ensures |v'.chan| + CountSending(v'.workers) <= CAPACITY
    ensures v'.workers == v.workers[w := Gone]
  {
    hide After, IsRun;
    ext', v' := ext, v;
    if v.workers[w].Sending? {
      CountPositive(v.workers, w);
      ext', v' := Extend(q, ext, v, RetrySend(w));
    } else if v.workers[w].Busy? {
      ext', v' := Extend(q, ext, v, Finish(w));
    }
    if v'.workers[w].Free? {
      ext', v' := Extend(q, ext', v', Exit(w));
    }
    CountUpdate(v.workers, w, Gone);
    assert v'.workers == v.workers[w := Gone];
  }

  lemma Return(q: Queue) returns (ext: seq<Step>)
    requires q.consumer.Closed? && |q.chan| + CountSending(q.workers) <= CAPACITY
    ensures IsRun(q, ext) && AllGone(After(q, ext))
  {
    ext := [];
    var v := q;
    for w := 0 to |q.workers|
      invariant IsRun(q, ext) && After(q, ext) == v && v.consumer.Closed? && |v.workers| == |q.workers|
      invariant |v.chan| + CountSending(v.workers) <= CAPACITY
      invariant forall u | 0 <= u < w :: v.workers[u].Gone?
    {
      ext, v := Retire(q, ext, v, w);
    }
  }

  lemma {:induction false} RoomNeverGrows(q: Queue, tr: seq<Step>)
    requires IsRun(q, tr) && q.consumer.Closed? && |q.chan| <= CAPACITY
    ensures After(q, tr).consumer.Closed? && |After(q, tr).chan| <= CAPACITY
    ensures |After(q, tr).chan| + CountSending(After(q, tr).workers) >= |q.chan| + CountSending(q.workers)
  {
    if tr != [] {
      var v, s := After(q, tr[..|tr| - 1]), tr[|tr| - 1];
      RoomNeverGrows(q, tr[..|tr| - 1]);
      match s
      case RetryAppend(w) => CountUpdate(v.workers, w, Sending(v.workers[w].m));
      case RetrySend(w) => CountUpdate(v.workers, w, Free);
      case Finish(w) => CountUpdate(v.workers, w, Free);
      case Exit(w) => CountUpdate(v.workers, w, Gone);
      case _ =>
    }
  }

  lemma {:induction false} CountPositive(s: seq<Agent>, i: nat)
    requires i < |s| && s[i].Sending?
    ensures CountSending(s) > 0
  {
    if i < |s| - 1 { CountPositive(s[..|s| - 1], i); }
  }

  lemma {:induction false} AllSendingCount(s: seq<Agent>)
    requires forall i | 0 <= i < |s| :: s[i].Sending?
    ensures CountSending(s) == |s| && CountBusy(s) == 0
  {
    if s != [] { AllSendingCount(s[..|s| - 1]); }
  }

  lemma {:induction false} NoneCount(s: seq<Agent>)
    requires forall i | 0 <= i < |s| :: !s[i].Sending? && !s[i].Busy?
    ensures CountSending(s) == 0 && CountBusy(s) == 0
  {
    if s != [] { NoneCount(s[..|s| - 1]); }
  }
}
