/** The Redis broker keeps scheduled jobs in a sorted set, scored by their time as a float64, and a single
    consumer moves what is due to the head of the queue's list, one job per poll. */
module ScheduledMover {

  // ---------------------------------------------------------------- scores: times as float64

  const MANTISSA := 0x20_0000_0000_0000 // 2 to the 53

  /** The gap between neighbouring float64 values around t. */
  function Ulp(t: nat): (u: nat)
    ensures u >= 1
  {
    if t < MANTISSA then 1 else 2 * Ulp(t / 2)
  }

  /** Section 4.3.1 of IEEE 754-2008: to the nearest value, ties to the one with an even significand. */
  function Nearest(q: nat, r: nat, u: nat): nat {
    q * u + if 2 * r > u || (2 * r == u && q % 2 == 1) then u else 0
  }

  function Round(t: nat): nat {
    Nearest(t / Ulp(t), t % Ulp(t), Ulp(t))
  }

  /** Significand and remainder of a time. */
  lemma Parts(t: nat) returns (q: nat, r: nat)
    ensures t == q * Ulp(t) + r && r < Ulp(t) && Round(t) == Nearest(q, r, Ulp(t))
  {
    q, r := t / Ulp(t), t % Ulp(t);
  }

  lemma {:induction false} OneMore(q: nat, p: nat, u: nat)
    requires q < p
    ensures q * u + u <= p * u
  {
    assert p * u == (p - 1) * u + u;
    if q < p - 1 { OneMore(q, p - 1, u); }
  }

  /** The significand has 53 bits. */
  lemma {:induction false} UlpFits(t: nat)
    ensures t < MANTISSA * Ulp(t)
    ensures t >= MANTISSA ==> MANTISSA * Ulp(t) <= 2 * t
  {
    if t >= MANTISSA { UlpFits(t / 2); }
  }

  lemma {:induction false} UlpGrows(s: nat, t: nat)
    requires s <= t
    ensures Ulp(s) == Ulp(t) || 2 * Ulp(s) <= Ulp(t)
    decreases t
  {
    if t >= MANTISSA {
      if s >= MANTISSA { UlpGrows(s / 2, t / 2); }
    }
  }

  /** Rounding is off by half a gap at most. */
  lemma RoundIsNear(t: nat)
    ensures 2 * t - Ulp(t) <= 2 * Round(t) <= 2 * t + Ulp(t)
  {
    var q, r := Parts(t);
  }

  function Pow2(e: nat): nat {
    if e == 0 then 1 else 2 * Pow2(e - 1)
  }

  lemma {:induction false} UlpIsPower(t: nat) returns (e: nat)
    ensures Ulp(t) == Pow2(e) && (t < 0x20_0000_0000_0000 <==> e == 0)
  {
    e := 0;
    if t >= MANTISSA {
      e := UlpIsPower(t / 2);
      e := e + 1;
    }
  }

  /** A score is what float64 holds for the time: a significand of at most 53 bits times a power of two that
      leaves no bit of it unused, the nearest such number to the time, and of two the even one. Times below 2
      to the 53 stay as they are. */
  lemma RoundIsNearestFloat(t: nat) returns (q: nat, e: nat)
    ensures Round(t) == q * Pow2(e) && q <= 0x20_0000_0000_0000
    ensures e == 0 <==> t < 0x20_0000_0000_0000
    ensures e > 0 ==> 0x10_0000_0000_0000 <= q && 0x10_0000_0000_0000 * Pow2(e) <= t
    ensures e == 0 ==> Round(t) == t
    ensures 2 * t - Pow2(e) <= 2 * Round(t) <= 2 * t + Pow2(e)
    ensures 2 * Round(t) == 2 * t - Pow2(e) || 2 * Round(t) == 2 * t + Pow2(e) ==> q % 2 == 0
  {
    e := UlpIsPower(t);
    UlpFits(t);
    var r: nat;
    q, r := Parts(t);
    hide Ulp, Round, Pow2;
    SignificandFits(q, r, Ulp(t), t);
    q := NearestIsMultiple(q, r, Ulp(t));
    PowZero(e);
  }

  lemma PowZero(e: nat)
    ensures e == 0 ==> Pow2(e) == 1
  {
  }

  lemma NearestIsMultiple(q: nat, r: nat, u: nat) returns (p: nat)
    requires r < u
    ensures Nearest(q, r, u) == p * u && q <= p <= q + 1
    ensures 2 * (q * u + r) - u <= 2 * (p * u) <= 2 * (q * u + r) + u
    ensures 2 * (p * u) == 2 * (q * u + r) - u || 2 * (p * u) == 2 * (q * u + r) + u ==> p % 2 == 0
    ensures u == 1 ==> p * u == q * u + r
  {
    p := if 2 * r > u || (2 * r == u && q % 2 == 1) then q + 1 else q;
    assert (q + 1) * u == q * u + u;
  }

  lemma SignificandFits(q: nat, r: nat, u: nat, t: nat)
    requires u >= 1 && r < u && t == q * u + r && t < MANTISSA * u
    ensures q < MANTISSA
    ensures MANTISSA * u <= 2 * t ==> MANTISSA <= 2 * q
  {
    if 2 * q < MANTISSA { OneMore(q, MANTISSA / 2, u); }
  }

  lemma SameGap(q: nat, r: nat, p: nat, e: nat, u: nat)
    requires q * u + r <= p * u + e && r < u && e < u
    ensures Nearest(q, r, u) <= Nearest(p, e, u)
  {
    if q > p { OneMore(p, q, u); }
    if q < p { OneMore(q, p, u); }
  }

  lemma Below(q: nat, m: nat, u: nat, s: nat)
    requires u >= 1 && q * u <= s < m * u
    ensures q * u + u <= m * u
  {
    if q < m { OneMore(q, m, u); }
  }

  lemma AtLeast(q: nat, v: nat, t: nat)
    requires v >= 1 && t < q * v + v && MANTISSA * v <= 2 * t
    ensures MANTISSA * v <= 2 * (q * v)
  {
    var half := MANTISSA / 2;
    if q < half { OneMore(q, half, v); }
  }

  lemma OtherGap(q: nat, r: nat, u: nat, p: nat, e: nat, v: nat)
    requires q * u + r < MANTISSA * u && r < u
    requires e < v && MANTISSA * v <= 2 * (p * v + e) && 2 * u <= v
    ensures Nearest(q, r, u) <= Nearest(p, e, v)
  {
    Below(q, MANTISSA, u, q * u + r);
    AtLeast(p, v, p * v + e);
  }

  /** It never swaps two times. */
  lemma RoundIsMonotone(s: nat, t: nat)
    requires s <= t
    ensures Round(s) <= Round(t)
  {
    var q, r := Parts(s);
    var p, e := Parts(t);
    UlpGrows(s, t);
    if Ulp(s) == Ulp(t) {
      SameGap(q, r, p, e, Ulp(s));
    } else {
      UlpFits(s);
      UlpFits(t);
      OtherGap(q, r, Ulp(s), p, e, Ulp(t));
    }
  }

  /** A job is due once its rounded time is not after the rounded present. */
  predicate IsDue(ts: nat, now: nat) {
    Round(ts) <= Round(now)
  }

  /** So it is never late, and early by less than the gap between its time's neighbours. */
  lemma DueInTime(ts: nat, now: nat)
    ensures ts <= now ==> IsDue(ts, now)
    ensures IsDue(ts, now) ==> ts <= now + Ulp(ts)
  {
    if ts <= now {
      RoundIsMonotone(ts, now);
    } else {
      RoundIsNear(ts);
      RoundIsNear(now);
      UlpGrows(now, ts);
    }
  }

  const TWO_TO_60 := 0x1000_0000_0000_0000

  /** For the times of 2006 to 2043, in nanoseconds, the gap is 256. */
  lemma GapOfOurTimes(t: nat)
    requires TWO_TO_60 <= t < 2 * TWO_TO_60
    ensures Ulp(t) == 256
  {
    assert Ulp(t) == 2 * Ulp(t / 2);
    assert Ulp(t / 2) == 2 * Ulp(t / 2 / 2) && t / 2 / 2 == t / 4;
    assert Ulp(t / 4) == 2 * Ulp(t / 4 / 2) && t / 4 / 2 == t / 8;
    assert Ulp(t / 8) == 2 * Ulp(t / 8 / 2) && t / 8 / 2 == t / 16;
    assert Ulp(t / 16) == 2 * Ulp(t / 16 / 2) && t / 16 / 2 == t / 32;
    assert Ulp(t / 32) == 2 * Ulp(t / 32 / 2) && t / 32 / 2 == t / 64;
    assert Ulp(t / 64) == 2 * Ulp(t / 64 / 2) && t / 64 / 2 == t / 128;
    assert Ulp(t / 128) == 2 * Ulp(t / 128 / 2) && t / 128 / 2 == t / 256;
  }

  /** No job of that time is released more than 256 nanoseconds early, and one can be exactly that early. */
  lemma EarlyBy256AtMost(ts: nat, now: nat)
    requires TWO_TO_60 <= ts < 2 * TWO_TO_60 && IsDue(ts, now)
    ensures ts <= now + 256
  {
    DueInTime(ts, now);
    GapOfOurTimes(ts);
  }

  lemma EarlyBy256() returns (ts: nat, now: nat)
    ensures TWO_TO_60 <= ts < 2 * TWO_TO_60 && IsDue(ts, now) && ts == now + 256
  {
    var b := TWO_TO_60 + 512;
    ts, now := b + 128, b - 128;
    GapOfOurTimes(ts);
    GapOfOurTimes(now);
  }

  // ---------------------------------------------------------------- the mover

  /** Messages, numbered in the order of their bytes. */
  type Msg = nat

  /** Where a poll can stop: at the push, or after it (a failed removal, or the process stopped). */
  datatype Fault = NoFault | AtPush | AfterPush

  /** `list` is the queue's list, head first, before anything is taken from it. */
  datatype Store = Store(scheduled: map<Msg, nat>, list: seq<Msg>)

  datatype Event = Schedule(m: Msg, ts: nat) | Poll(now: nat, fault: Fault)

  predicate DueAt(z: map<Msg, nat>, now: nat, m: Msg) {
    m in z && z[m] <= Round(now)
  }

  /** The order of ZREVRANGEBYSCORE: by score, then by bytes, both descending. */
  predicate Before(z: map<Msg, nat>, a: Msg, b: Msg)
    requires a in z && b in z
  {
    z[a] > z[b] || (z[a] == z[b] && a > b)
  }

  predicate IsTop(z: map<Msg, nat>, now: nat, m: Msg) {
    DueAt(z, now, m) && forall o | o in z && DueAt(z, now, o) :: o == m || Before(z, m, o)
  }

  predicate NoneDue(z: map<Msg, nat>, now: nat) {
    forall m | m in z :: !DueAt(z, now, m)
  }

  lemma {:induction false} TopOf(z: map<Msg, nat>, now: nat, s: set<Msg>) returns (top: Msg)
    requires s != {} && s <= z.Keys && forall m | m in s :: DueAt(z, now, m)
    ensures top in s && forall o | o in s :: o == top || Before(z, top, o)
  {
    var m :| m in s;
    top := m;
    if s != {m} {
      var t := TopOf(z, now, s - {m});
      if Before(z, t, m) { top := t; }
      forall o | o in s ensures o == top || Before(z, top, o) {
        assert o == m || o in s - {m};
      }
    }
  }

  lemma TopExists(z: map<Msg, nat>, now: nat)
    ensures NoneDue(z, now) || exists m :: IsTop(z, now, m)
  {
    if !NoneDue(z, now) {
      var s := set m | m in z && DueAt(z, now, m);
      var m :| m in z && DueAt(z, now, m);
      assert m in s;
      var top := TopOf(z, now, s);
      assert IsTop(z, now, top);
    }
  }

  ghost function Top(z: map<Msg, nat>, now: nat): (m: Msg)
    requires !NoneDue(z, now)
    ensures IsTop(z, now, m)
  {
    TopExists(z, now);
    var m :| IsTop(z, now, m);
    m
  }

  ghost function Moved(s: Store, now: nat, fault: Fault): Store {
    if NoneDue(s.scheduled, now) || fault == AtPush then s else
      var m := Top(s.scheduled, now);
      Store(if fault == AfterPush then s.scheduled else s.scheduled - {m}, [m] + s.list)
  }

  ghost function Happen(s: Store, e: Event): Store {
    match e
    case Schedule(m, ts) => s.(scheduled := s.scheduled[m := Round(ts)])
    case Poll(now, fault) => Moved(s, now, fault)
  }

  ghost function After(es: seq<Event>): Store {
    if es == [] then Store(map[], []) else Happen(After(es[..|es| - 1]), es[|es| - 1])
  }

  predicate Scheduled(es: seq<Event>, m: Msg) {
    exists i | 0 <= i < |es| :: es[i].Schedule? && es[i].m == m
  }

  /** Nothing is lost, wherever polls stop: exactly the messages that were scheduled are in the sorted set
      or have been pushed. */
  lemma {:induction false} NeverLost(es: seq<Event>, m: Msg)
    ensures m in After(es).scheduled || m in After(es).list <==> Scheduled(es, m)
  {
    if es != [] {
      var before, e := es[..|es| - 1], es[|es| - 1];
      NeverLost(before, m);
      assert Scheduled(es, m) <==> Scheduled(before, m) || (e.Schedule? && e.m == m) by {
        if Scheduled(before, m) {
          var i :| 0 <= i < |before| && before[i].Schedule? && before[i].m == m;
          assert es[i].Schedule? && es[i].m == m;
        }
        if Scheduled(es, m) && !(e.Schedule? && e.m == m) {
          var i :| 0 <= i < |es| && es[i].Schedule? && es[i].m == m;
          assert before[i].Schedule? && before[i].m == m;
        }
      }
    }
  }

  /** How often m was pushed: by the polls that found it on top and did not stop before the push. */
  ghost function Pushes(es: seq<Event>, m: Msg): nat {
    if es == [] then 0
    else
      var z, e := After(es[..|es| - 1]).scheduled, es[|es| - 1];
      Pushes(es[..|es| - 1], m)
      + if e.Poll? && e.fault != AtPush && !NoneDue(z, e.now) && Top(z, e.now) == m then 1 else 0
  }

  lemma {:induction false} ListCountsPushes(es: seq<Event>, m: Msg)
    ensures multiset(After(es).list)[m] == Pushes(es, m)
  {
    if es != [] {
      ListCountsPushes(es[..|es| - 1], m);
    }
  }

  /** No two events schedule the same message. */
  predicate ScheduledOnce(es: seq<Event>) {
    forall i, j | 0 <= i < j < |es| && es[i].Schedule? && es[j].Schedule? :: es[i].m != es[j].m
  }

  /** Some poll with something due stopped after its push. */
  ghost predicate Doubled(es: seq<Event>) {
    es != [] &&
    var before, e := es[..|es| - 1], es[|es| - 1];
    Doubled(before) || (e.Poll? && e.fault == AfterPush && !NoneDue(After(before).scheduled, e.now))
  }

  predicate NoRepeats(l: seq<Msg>) {
    forall i, j | 0 <= i < j < |l| :: l[i] != l[j]
  }

  /** If none did, each message is pushed at most once, and left the sorted set when it was. Polls that stop
      before their push do no harm. */
  lemma {:induction false} PushedOnce(es: seq<Event>)
    requires ScheduledOnce(es) && !Doubled(es)
    ensures NoRepeats(After(es).list)
    ensures forall m | m in After(es).list :: m !in After(es).scheduled
  {
    if es != [] {
      var before, e := es[..|es| - 1], es[|es| - 1];
      PushedOnce(before);
      if e.Schedule? {
        NeverLost(before, e.m);
      }
    }
  }

  /** If one did, its message was pushed again already, or will be: it is both pushed and scheduled. */
  lemma {:induction false} DoubledStays(es: seq<Event>)
    requires Doubled(es)
    ensures !NoRepeats(After(es).list) || exists m :: m in After(es).list && m in After(es).scheduled
  {
    var before, e := es[..|es| - 1], es[|es| - 1];
    var s, s' := After(before), After(es);
    if Doubled(before) {
      DoubledStays(before);
      DoubledGoesOn(s, e);
    } else {
      assert s'.list[0] == Top(s.scheduled, e.now);
    }
  }

  lemma DoubledGoesOn(s: Store, e: Event)
    requires !NoRepeats(s.list) || exists m :: m in s.list && m in s.scheduled
    ensures !NoRepeats(Happen(s, e).list) || exists m :: m in Happen(s, e).list && m in Happen(s, e).scheduled
  {
    var s' := Happen(s, e);
    if !NoRepeats(s.list) {
      var i, j :| 0 <= i < j < |s.list| && s.list[i] == s.list[j];
      if s'.list != s.list { assert s'.list[i + 1] == s'.list[j + 1]; }
    } else {
      var m :| m in s.list && m in s.scheduled;
      if s'.list != s.list {
        var j :| 0 <= j < |s.list| && s.list[j] == m;
        assert s'.list[j + 1] == m;
        if m !in s'.scheduled { assert s'.list[0] == s'.list[j + 1]; }
      }
    }
  }

  /** A poll that stops after the push does push its message twice. */
  lemma StoppedPollPushesTwice(m: Msg, ts: nat)
    ensures After([Schedule(m, ts), Poll(ts, AfterPush), Poll(ts, NoFault)]) == Store(map[], [m, m])
  {
    var a, b, c := Schedule(m, ts), Poll(ts, AfterPush), Poll(ts, NoFault);
    assert [a, b, c][..2] == [a, b] && [a, b][..1] == [a] && [a][..0] == [];
    assert After([a]) == Store(map[m := Round(ts)], []);
    assert DueAt(map[m := Round(ts)], ts, m);
    assert After([a, b]) == Store(map[m := Round(ts)], [m] + []);
    assert map[m := Round(ts)] - {m} == map[];
    assert [m] + [m] == [m, m];
  }

  // ---------------------------------------------------------------- draining

  ghost function Drained(s: Store, nows: seq<nat>): Store
    decreases |nows|
  {
    if nows == [] then s else Drained(Moved(s, nows[0], NoFault), nows[1..])
  }

  /** The list l starts with n messages of z, the last moved first, and goes on with `old`. */
  predicate MovedInOrder(z: map<Msg, nat>, n: nat, l: seq<Msg>, tail: seq<Msg>) {
    && |l| == n + |tail| && l[n..] == tail
    && (forall i | 0 <= i < n :: l[i] in z)
    && (forall m | m in z :: m in l[..n])
    && forall i, j | 0 <= i < j < n :: z[l[i]] < z[l[j]] || (z[l[i]] == z[l[j]] && l[i] < l[j])
  }

  lemma OneMoreMoved(z: map<Msg, nat>, now: nat, m: Msg, n: nat, l: seq<Msg>, tail: seq<Msg>)
    requires IsTop(z, now, m) && forall o | o in z :: z[o] <= Round(now)
    requires MovedInOrder(z - {m}, n, l, [m] + tail)
    ensures MovedInOrder(z, n + 1, l, tail)
  {
    assert l[n..][1..] == l[n + 1..] && l[n] == l[n..][0] == m;
    forall o | o in z ensures o in l[..n + 1] {
      assert l[..n + 1] == l[..n] + [m];
      if o != m { assert o in z - {m}; }
    }
    forall i, j | 0 <= i < j < n + 1
      ensures z[l[i]] < z[l[j]] || (z[l[i]] == z[l[j]] && l[i] < l[j])
    {
      MovedBelow(z, now, m, n, l, i, j);
    }
  }

  lemma MovedBelow(z: map<Msg, nat>, now: nat, m: Msg, n: nat, l: seq<Msg>, i: nat, j: nat)
    requires IsTop(z, now, m) && forall o | o in z :: z[o] <= Round(now)
    requires n < |l| && l[n] == m && MovedInOrder(z - {m}, n, l, l[n..]) && i < j <= n
    ensures l[i] in z && l[j] in z
    ensures z[l[i]] < z[l[j]] || (z[l[i]] == z[l[j]] && l[i] < l[j])
  {
    assert l[i] in z - {m};
    if j < n {
      assert l[j] in z - {m};
    } else {
      assert DueAt(z, now, l[i]);
    }
  }

  /** n due messages and no new ones: n polls move them all, in descending order of score, so that the
      last one moved, at the head of the list, has the lowest. What was in the list before stays behind them. */
  lemma {:induction false} PollsDrain(s: Store, nows: seq<nat>)
    requires |nows| == |s.scheduled|
    requires forall m, i | m in s.scheduled && 0 <= i < |nows| :: s.scheduled[m] <= Round(nows[i])
    ensures Drained(s, nows).scheduled == map[]
    ensures MovedInOrder(s.scheduled, |nows|, Drained(s, nows).list, s.list)
    decreases |nows|
  {
    if nows == [] {
      assert s.scheduled == map[];
    } else {
      PollsDrain(Moved(s, nows[0], NoFault), nows[1..]);
      OneMoreMoved(s.scheduled, nows[0], Top(s.scheduled, nows[0]), |nows| - 1, Drained(s, nows).list, s.list);
    }
  }

  // ---------------------------------------------------------------- exactly when a message is pushed twice

  function Polls(nows: seq<nat>): seq<Event> {
    seq(|nows|, i requires 0 <= i < |nows| => Poll(nows[i], NoFault))
  }

  lemma {:induction false} PollsAreDraining(es: seq<Event>, nows: seq<nat>)
    ensures After(es + Polls(nows)) == Drained(After(es), nows)
    decreases |nows|
  {
    if nows == [] {
      assert es + Polls(nows) == es;
    } else {
      var e := Poll(nows[0], NoFault);
      assert es + Polls(nows) == es + [e] + Polls(nows[1..]);
      assert (es + [e])[..|es|] == es;
      PollsAreDraining(es + [e], nows[1..]);
    }
  }

  lemma LastPoll(es: seq<Event>, nows: seq<nat>)
    requires nows != []
    ensures es + Polls(nows) == es + Polls(nows[..|nows| - 1]) + [Poll(nows[|nows| - 1], NoFault)]
  {
    assert Polls(nows) == Polls(nows[..|nows| - 1]) + [Poll(nows[|nows| - 1], NoFault)];
  }

  lemma {:induction false} PollsDoNotDouble(es: seq<Event>, nows: seq<nat>)
    requires ScheduledOnce(es) && !Doubled(es)
    ensures ScheduledOnce(es + Polls(nows)) && !Doubled(es + Polls(nows))
    decreases |nows|
  {
    if nows == [] {
      assert es + Polls(nows) == es;
    } else {
      LastPoll(es, nows);
      hide Doubled, ScheduledOnce, Polls;
      PollsDoNotDouble(es, nows[..|nows| - 1]);
    }
  }

  /** There is a time at which everything scheduled is due. */
  lemma {:induction false} AllDueSometime(z: map<Msg, nat>) returns (now: nat)
    ensures forall m | m in z :: z[m] <= Round(now)
    decreases |z|
  {
    now := 0;
    if z != map[] {
      assert z.Keys != {};
      var m :| m in z;
      var rest := z - {m};
      assert rest.Keys == z.Keys - {m};
      var t := AllDueSometime(rest);
      now := if t < 2 * z[m] then 2 * z[m] else t;
      RoundIsMonotone(t, now);
      RoundIsMonotone(2 * z[m], now);
      RoundReaches(z[m]);
      forall o | o in z ensures z[o] <= Round(now) {
        if o != m { assert o in rest; }
      }
    }
  }

  lemma RoundReaches(t: nat)
    ensures t <= Round(2 * t)
  {
    RoundIsNear(2 * t);
    UlpFits(2 * t);
  }

  /** For messages scheduled once: polls that do not stop can go on to push one twice if and only if some
      poll before them stopped after its push with something due. */
  lemma RepeatsIffDoubled(es: seq<Event>)
    requires ScheduledOnce(es)
    ensures Doubled(es) <==> exists nows: seq<nat> :: !NoRepeats(After(es + Polls(nows)).list)
  {
    if Doubled(es) {
      var s := After(es);
      var now := AllDueSometime(s.scheduled);
      var nows := seq(|s.scheduled|, _ => now);
      PollsAreDraining(es, nows);
      PollsDrain(s, nows);
      DoubledStays(es);
      DrainRepeats(s, Drained(s, nows).list, |nows|);
    } else {
      forall nows: seq<nat> ensures NoRepeats(After(es + Polls(nows)).list) {
        PollsDoNotDouble(es, nows);
        PushedOnce(es + Polls(nows));
      }
    }
  }

  lemma DrainRepeats(s: Store, l: seq<Msg>, n: nat)
    requires MovedInOrder(s.scheduled, n, l, s.list)
    requires !NoRepeats(s.list) || exists m :: m in s.list && m in s.scheduled
    ensures !NoRepeats(l)
  {
    assert l == l[..n] + s.list;
    if !NoRepeats(s.list) {
      hide MovedInOrder;
      RepeatsStay(l[..n], s.list);
    } else {
      var m :| m in s.list && m in s.scheduled;
      assert m in l[..n];
      hide MovedInOrder, NoRepeats;
      SharedRepeats(l[..n], s.list, m);
    }
  }

  lemma RepeatsStay(a: seq<Msg>, b: seq<Msg>)
    requires !NoRepeats(b)
    ensures !NoRepeats(a + b)
  {
    var i, j :| 0 <= i < j < |b| && b[i] == b[j];
    assert (a + b)[|a| + i] == (a + b)[|a| + j];
  }

  lemma SharedRepeats(a: seq<Msg>, b: seq<Msg>, m: Msg)
    requires m in a && m in b
    ensures !NoRepeats(a + b)
  {
    var i :| 0 <= i < |a| && a[i] == m;
    var j :| 0 <= j < |b| && b[j] == m;
    assert (a + b)[i] == (a + b)[|a| + j];
  }

  // ---------------------------------------------------------------- the broker's methods

  /** What ZREVRANGEBYSCORE with a count of one answers: nothing if no score is that low, and else the member
      with the highest, the last by bytes if there are several. */
  predicate IsHighest(z: map<Msg, nat>, max: nat, tasks: seq<Msg>) {
    if forall m | m in z :: z[m] > max then tasks == []
    else
      && |tasks| == 1 && tasks[0] in z && z[tasks[0]] <= max
      && forall o | o in z && z[o] <= max ::
           z[o] < z[tasks[0]] || (z[o] == z[tasks[0]] && o <= tasks[0])
  }

  class ScheduledQueue {
    var scheduled: map<Msg, nat>
    var list: seq<Msg>

    ghost function Contents(): Store
      reads this
    {
      Store(scheduled, list)
    }

    constructor ()
      ensures Contents() == After([])
    {
      scheduled, list := map[], [];
    }

    method EnqueueScheduled(m: Msg, ts: nat)
      modifies this
      ensures scheduled == old(scheduled)[m := Round(ts)] && list == old(list)
      ensures Contents() == Happen(old(Contents()), Schedule(m, ts))
    {
      scheduled := scheduled[m := Round(ts)];
    }

    /** The one with the highest score of those up to max, and of these the last by bytes. */
    method ZRevRangeByScore(max: nat, now: nat) returns (tasks: seq<Msg>)
      requires max == Round(now)
      ensures IsHighest(scheduled, max, tasks)
      ensures tasks == if NoneDue(scheduled, now) then [] else [Top(scheduled, now)]
    {
      tasks := [];
      var rest := scheduled.Keys;
      while rest != {}
        invariant rest <= scheduled.Keys && |tasks| <= 1
        invariant tasks == [] ==> forall o | o in scheduled && o !in rest :: !DueAt(scheduled, now, o)
        invariant tasks != [] ==> DueAt(scheduled, now, tasks[0])
        invariant tasks != [] ==> forall o | o in scheduled && o !in rest && DueAt(scheduled, now, o) ::
                    o == tasks[0] || Before(scheduled, tasks[0], o)
        decreases rest
      {
        var m :| m in rest;
        rest := rest - {m};
        if scheduled[m] <= max && (tasks == [] || Before(scheduled, m, tasks[0])) {
          tasks := [m];
        }
      }
    }

    method PollScheduled(now: nat, fault: Fault)
      modifies this
      ensures exists tasks | IsHighest(old(scheduled), Round(now), tasks) ::
                if tasks == [] || fault == AtPush then scheduled == old(scheduled) && list == old(list)
                else list == tasks + old(list)
                     && scheduled == if fault == AfterPush then old(scheduled) else old(scheduled) - {tasks[0]}
      ensures Contents() == Happen(old(Contents()), Poll(now, fault))
    {
      var tasks := ZRevRangeByScore(Round(now), now);
      for i := 0 to |tasks|
        invariant scheduled == old(scheduled) && (fault == AtPush ==> i == 0)
        invariant list == if i == 0 then old(list) else [tasks[0]] + old(list)
      {
        if fault == AtPush { return; }
        list := [tasks[i]] + list;
      }
      if fault == AfterPush && tasks != [] { return; }
      scheduled := scheduled - set m | m in tasks;
    }
  }
}
