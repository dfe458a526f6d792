/** The idempotency lock as a lease: two workers are never inside the retry loop for one event id
    exactly when the longest possible time from the lock being set to the end of the loop is shorter than
    the lock's lifetime. */
module MutualExclusion {
  import opened Common
  import opened Backoff
  import opened Processor
  import opened Pipeline
  import opened Passes
  import opened Appends
  import opened Results
  import opened Guarantees

  /** Limits in nanoseconds: on one handler call, on the time from the lock being set to its reply being
      seen, and on how late a pause ends. */
  datatype Delays = Delays(call: nat, reply: nat, wake: nat)
  {
    /** The first call starts when the reply to SET NX has arrived. */
    function CallTime(attempt: nat): nat { if attempt <= 1 then reply + call else call }
  }

  /** Time does not pass a limit. */
  ghost predicate Prompt(d: Delays, s: Sys, e: Event) {
    e.EvTick? ==>
      forall w :: w in s.workers ==>
        && (s.workers[w].pc.Call? ==> s.store.now + e.dt <= s.workers[w].pc.since + d.CallTime(s.workers[w].pc.attempt))
        && (s.workers[w].pc.Sleep? ==> s.store.now + e.dt <= s.workers[w].pc.until + d.wake)
  }

  ghost predicate TimedRun(c: Cfg, d: Delays, s0: Sys, es: seq<Event>)
    requires IsRun(c, s0, es)
  {
    es == [] || (TimedRun(c, d, s0, es[..|es| - 1]) && Prompt(d, After(c, s0, es[..|es| - 1]), es[|es| - 1]))
  }

  /** The latest start of the call after n failed attempts, counted from the lock being set. */
  function Budget(c: Cfg, d: Delays, n: nat): nat {
    if n == 0 then d.reply else Budget(c, d, n - 1) + d.call + SleepNs(c.baseMs, n) + d.wake
  }

  /** The longest time from the lock being set to the end of the retry loop. */
  function MaxStay(c: Cfg, d: Delays): nat {
    if c.maxRetries <= 0 then 0 else Budget(c, d, c.maxRetries - 1) + d.call
  }

  lemma {:induction false} BudgetMono(c: Cfg, d: Delays, a: nat, b: nat)
    requires a <= b
    ensures Budget(c, d, a) <= Budget(c, d, b)
    decreases b
  {
    if a < b {
      BudgetMono(c, d, a, b - 1);
    }
  }

  lemma {:induction false} BudgetSplits(c: Cfg, d: Delays, n: nat)
    ensures Budget(c, d, n) == d.reply + n * (d.call + d.wake) + TotalSleepNs(c.baseMs, n)
  {
    if n > 0 {
      BudgetSplits(c, d, n - 1);
      OneMore(n - 1, d.call + d.wake);
    }
  }

  /** The stay in closed form: the reply to SET NX, max calls, max - 1 late wake-ups, and
      base * (2^(max-1) - 1) ms of backoff. */
  lemma MaxStayClosedForm(c: Cfg, d: Delays)
    requires c.maxRetries >= 1 && c.baseMs >= 0
    requires c.maxRetries >= 2 ==> c.baseMs * Pow2(c.maxRetries - 2) * NS_PER_MS < TWO63
    ensures MaxStay(c, d) == d.reply + c.maxRetries * d.call + (c.maxRetries - 1) * d.wake
                             + c.baseMs * (Pow2(c.maxRetries - 1) - 1) * NS_PER_MS
  {
    var n := c.maxRetries - 1;
    BudgetSplits(c, d, n);
    TotalSleepClosedForm(c.baseMs, n);
    OneMore(n, d.call);
    Distributes(n, d.call, d.wake);
  }

  lemma Distributes(n: int, a: int, b: int)
    ensures n * (a + b) == n * a + n * b
  {
  }

  lemma OneMore(n: int, a: int)
    ensures n * a + a == (n + 1) * a
  {
  }

  ghost predicate OnSchedule(c: Cfg, d: Delays, s: Sys, pc: PC) {
    match pc
    case Call(_, pass, attempt, since) =>
      && pass < |s.passes| && attempt >= 1
      && since <= s.passes[pass].at + (if attempt == 1 then 0 else Budget(c, d, attempt - 1))
      && s.store.now <= since + d.CallTime(attempt)
    case Sleep(_, pass, attempt, _, until) =>
      && pass < |s.passes| && attempt >= 1
      && until + d.wake <= s.passes[pass].at + Budget(c, d, attempt) && s.store.now <= until + d.wake
    case _ => true
  }

  ghost predicate TimedInv(c: Cfg, d: Delays, s: Sys) {
    forall w :: w in s.workers ==> OnSchedule(c, d, s, s.workers[w].pc)
  }

  /** Steps that start no call and no pause. */
  lemma TimedKept(c: Cfg, d: Delays, s: Sys, s': Sys)
    requires TimedInv(c, d, s) && s'.store.now == s.store.now
    requires |s.passes| <= |s'.passes| && forall k :: 0 <= k < |s.passes| ==> s'.passes[k].at == s.passes[k].at
    requires forall w :: w in s'.workers ==>
               (w in s.workers && s'.workers[w].pc == s.workers[w].pc) || OnSchedule(c, d, s', s'.workers[w].pc)
    ensures TimedInv(c, d, s')
  {
    forall w | w in s'.workers ensures OnSchedule(c, d, s', s'.workers[w].pc) {
      if w in s.workers {
        assert OnSchedule(c, d, s, s.workers[w].pc);
      }
    }
  }

  lemma TimedStepHandler(c: Cfg, d: Delays, s: Sys, w: nat, reply: Reply)
    requires Enabled(c, s, EvHandler(w, reply)) && WorkerOk(c, s, s.workers[w]) && OnSchedule(c, d, s, s.workers[w].pc)
    ensures var s' := Next(c, s, EvHandler(w, reply)); OnSchedule(c, d, s', s'.workers[w].pc)
  {
  }

  lemma TimedStepWake(c: Cfg, d: Delays, s: Sys, w: nat)
    requires Enabled(c, s, EvWake(w)) && WorkerOk(c, s, s.workers[w]) && OnSchedule(c, d, s, s.workers[w].pc)
    ensures var s' := Next(c, s, EvWake(w)); OnSchedule(c, d, s', s'.workers[w].pc)
  {
  }

  lemma TimedStepProcess(c: Cfg, d: Delays, s: Sys, e: Event)
    requires PassInv(c, s) && TimedInv(c, d, s) && Enabled(c, s, e) && Processes(e)
    ensures TimedInv(c, d, Next(c, s, e))
  {
    var s' := Next(c, s, e);
    ProcessFrame(c, s, e);
    assert WorkerOk(c, s, s.workers[e.w]);
    assert OnSchedule(c, d, s, s.workers[e.w].pc);
    if e.EvHandler? {
      TimedStepHandler(c, d, s, e.w, e.reply);
    } else if e.EvWake? {
      TimedStepWake(c, d, s, e.w);
    }
    TimesKept(c, s, e);
    TimedKept(c, d, s, s');
  }

  lemma TimesKept(c: Cfg, s: Sys, e: Event)
    requires Enabled(c, s, e) && Processes(e)
    ensures var s' := Next(c, s, e);
            && s'.store.now == s.store.now && |s.passes| <= |s'.passes|
            && forall k :: 0 <= k < |s.passes| ==> s'.passes[k].at == s.passes[k].at
  {
  }

  lemma TimedStep(c: Cfg, d: Delays, s: Sys, e: Event)
    requires Inv(c, s) && TimedInv(c, d, s) && Enabled(c, s, e) && Prompt(d, s, e)
    ensures TimedInv(c, d, Next(c, s, e))
  {
    var s' := Next(c, s, e);
    if Processes(e) {
      TimedStepProcess(c, d, s, e);
    } else if e.EvTick? {
      forall w | w in s'.workers ensures OnSchedule(c, d, s', s'.workers[w].pc) {
        assert OnSchedule(c, d, s, s.workers[w].pc);
      }
    } else {
      TimedKept(c, d, s, s');
    }
  }

  lemma {:induction false} TimedReachable(c: Cfg, d: Delays, s0: Sys, es: seq<Event>)
    requires IsRun(c, s0, es) && TimedRun(c, d, s0, es)
    ensures TimedInv(c, d, After(c, s0, es))
  {
    if es != [] {
      var before := es[..|es| - 1];
      TimedReachable(c, d, s0, before);
      Reachable(c, s0, before);
      TimedStep(c, d, After(c, s0, before), es[|es| - 1]);
    }
  }

  /** Two workers are inside the retry loop for the same event id. */
  ghost predicate Overlap(s: Sys, w1: nat, w2: nat) {
    && w1 != w2 && w1 in s.workers && w2 in s.workers
    && s.workers[w1].pc.InLoop() && s.workers[w2].pc.InLoop()
    && s.workers[w1].pc.env.eventID == s.workers[w2].pc.env.eventID
  }

  ghost predicate Exclusive(c: Cfg, d: Delays) {
    forall s0, es, w1: nat, w2: nat ::
      IsRun(c, s0, es) && TimedRun(c, d, s0, es) ==> !Overlap(After(c, s0, es), w1, w2)
  }

  lemma InLoopPassage(c: Cfg, s: Sys, w: nat)
    requires Inv(c, s) && w in s.workers && s.workers[w].pc.InLoop()
    ensures var pc := s.workers[w].pc;
            && pc.pass < |s.passes| && s.passes[pc.pass].eventID == pc.env.eventID
            && s.passes[pc.pass].at <= s.store.now
            && 1 <= pc.attempt <= c.maxRetries && (pc.Sleep? ==> pc.attempt < c.maxRetries)
  {
    assert WorkerOk(c, s, s.workers[w]);
    assert PassOk(c, s, s.workers[w].pc.pass) && LockOk(c, s, s.workers[w].pc.pass);
  }

  /** A schedule that is kept ends within the bound. */
  lemma ScheduleBounded(c: Cfg, d: Delays, s: Sys, pc: PC)
    requires pc.InLoop() && pc.pass < |s.passes| && OnSchedule(c, d, s, pc)
    requires 1 <= pc.attempt <= c.maxRetries && (pc.Sleep? ==> pc.attempt < c.maxRetries)
    ensures s.store.now <= s.passes[pc.pass].at + MaxStay(c, d)
  {
    BudgetMono(c, d, if pc.Call? then pc.attempt - 1 else pc.attempt, c.maxRetries - 1);
  }

  /** Whoever is in the loop passed the gate less than one stay ago. */
  lemma StayBounded(c: Cfg, d: Delays, s: Sys, w: nat)
    requires Inv(c, s) && TimedInv(c, d, s) && w in s.workers && s.workers[w].pc.InLoop()
    ensures s.workers[w].pc.pass < |s.passes| && s.passes[s.workers[w].pc.pass].eventID == s.workers[w].pc.env.eventID
    ensures s.passes[s.workers[w].pc.pass].at <= s.store.now <= s.passes[s.workers[w].pc.pass].at + MaxStay(c, d)
  {
    InLoopPassage(c, s, w);
    assert OnSchedule(c, d, s, s.workers[w].pc);
    ScheduleBounded(c, d, s, s.workers[w].pc);
  }

  lemma NoOverlap(c: Cfg, d: Delays, s: Sys, w1: nat, w2: nat)
    requires Inv(c, s) && TimedInv(c, d, s)
    requires c.ttl > 0 ==> MaxStay(c, d) < c.ttl * NS_PER_S
    ensures !Overlap(s, w1, w2)
  {
    if Overlap(s, w1, w2) {
      StayBounded(c, d, s, w1);
      StayBounded(c, d, s, w2);
      var p1, p2 := s.workers[w1].pc.pass, s.workers[w2].pc.pass;
      if p1 == p2 {
        assert OwnedBy(s, w1, p1) && OwnedBy(s, w2, p1);
        SoleOwner(c, s, w1, w2, p1);
      }
    }
  }

  // ---- the bound is the best possible ----

  lemma Extend(c: Cfg, d: Delays, s0: Sys, es: seq<Event>, e: Event)
    requires IsRun(c, s0, es) && TimedRun(c, d, s0, es)
    requires Enabled(c, After(c, s0, es), e) && Prompt(d, After(c, s0, es), e)
    ensures IsRun(c, s0, es + [e]) && TimedRun(c, d, s0, es + [e])
    ensures After(c, s0, es + [e]) == Next(c, After(c, s0, es), e)
  {
    ExecSnoc(c, s0, es, e);
    assert (es + [e])[..|es + [e]| - 1] == es;
  }

  /** How long a worker that has just been granted the lock, or starts a later call, can still stay. */
  function Remaining(c: Cfg, d: Delays, a: nat): nat
    requires a >= 1
    decreases c.maxRetries - a
  {
    if a >= c.maxRetries then d.CallTime(a)
    else d.CallTime(a) + SleepNs(c.baseMs, a) + d.wake + Remaining(c, d, a + 1)
  }

  lemma {:induction false} RemainingIsRest(c: Cfg, d: Delays, a: nat)
    requires 1 <= a <= c.maxRetries
    ensures (if a == 1 then 0 else Budget(c, d, a - 1)) + Remaining(c, d, a) == MaxStay(c, d)
    decreases c.maxRetries - a
  {
    if a < c.maxRetries {
      RemainingIsRest(c, d, a + 1);
    }
  }

  /** Worker 0 is starting a call and worker 1 is about to try the gate. */
  ghost predicate Poised(s: Sys, env: Envelope, a: nat) {
    && s.workers.Keys == {0, 1}
    && s.workers[0].pc.Call? && s.workers[0].pc.env == env && s.workers[0].pc.attempt == a
    && s.workers[0].pc.since == s.store.now
    && s.workers[1].pc == Gate(env)
  }

  /** What a stretch of t ns in the loop leaves in place. */
  ghost predicate Stayed(s: Sys, s': Sys, env: Envelope, t: nat) {
    && s.workers.Keys == s'.workers.Keys == {0, 1} && s'.workers[1] == s.workers[1]
    && s'.workers[0].pc.InLoop() && s'.workers[0].pc.env == env
    && s'.store.locks == s.store.locks && s'.store.now == s.store.now + t
  }

  lemma StayInCall(c: Cfg, d: Delays, s0: Sys, es: seq<Event>, env: Envelope, a: nat, t: nat)
    requires IsRun(c, s0, es) && TimedRun(c, d, s0, es) && Poised(After(c, s0, es), env, a)
    requires t <= d.CallTime(a)
    ensures IsRun(c, s0, es + [EvTick(t)]) && TimedRun(c, d, s0, es + [EvTick(t)])
    ensures var s := After(c, s0, es); After(c, s0, es + [EvTick(t)]) == s.(store := Later(s.store, t))
    ensures Stayed(After(c, s0, es), After(c, s0, es + [EvTick(t)]), env, t)
  {
    Extend(c, d, s0, es, EvTick(t));
  }

  /** A full-length call that fails, and then t ns of the pause after it. */
  lemma StayInPause(c: Cfg, d: Delays, s0: Sys, es: seq<Event>, env: Envelope, a: nat, t: nat) returns (es': seq<Event>)
    requires IsRun(c, s0, es) && TimedRun(c, d, s0, es) && Poised(After(c, s0, es), env, a)
    requires 1 <= a < c.maxRetries && t <= SleepNs(c.baseMs, a) + d.wake
    ensures IsRun(c, s0, es') && TimedRun(c, d, s0, es')
    ensures var s, s' := After(c, s0, es), After(c, s0, es');
            && Stayed(s, s', env, d.CallTime(a) + t)
            && s'.workers[0].pc.Sleep? && s'.workers[0].pc.attempt == a
            && s'.workers[0].pc.until == s.store.now + d.CallTime(a) + SleepNs(c.baseMs, a)
  {
    StayInCall(c, d, s0, es, env, a, d.CallTime(a));
    es' := es + [EvTick(d.CallTime(a))];
    var s1 := After(c, s0, es');
    Extend(c, d, s0, es', EvHandler(0, Failed([])));
    es' := es' + [EvHandler(0, Failed([]))];
    var s2 := After(c, s0, es');
    assert s2.workers == s1.workers[0 := s1.workers[0].(pc := s2.workers[0].pc)];
    assert s2.workers[0].pc.Sleep? && s2.workers[0].pc.until == s1.store.now + SleepNs(c.baseMs, a);
    Extend(c, d, s0, es', EvTick(t));
    es' := es' + [EvTick(t)];
  }

  /** A full-length call that fails, the whole pause after it, and the start of the next call. */
  lemma StayToNextCall(c: Cfg, d: Delays, s0: Sys, es: seq<Event>, env: Envelope, a: nat) returns (es': seq<Event>)
    requires IsRun(c, s0, es) && TimedRun(c, d, s0, es) && Poised(After(c, s0, es), env, a)
    requires 1 <= a < c.maxRetries
    ensures IsRun(c, s0, es') && TimedRun(c, d, s0, es')
    ensures Stayed(After(c, s0, es), After(c, s0, es'), env, d.CallTime(a) + SleepNs(c.baseMs, a) + d.wake)
    ensures Poised(After(c, s0, es'), env, a + 1)
  {
    es' := StayInPause(c, d, s0, es, env, a, SleepNs(c.baseMs, a) + d.wake);
    var s := After(c, s0, es');
    Extend(c, d, s0, es', EvWake(0));
    es' := es' + [EvWake(0)];
    var s' := After(c, s0, es');
    assert s'.workers == s.workers[0 := s.workers[0].(pc := s'.workers[0].pc)];
  }

  lemma StayedTwice(s: Sys, s': Sys, s'': Sys, env: Envelope, t: nat, t': nat)
    requires Stayed(s, s', env, t) && Stayed(s', s'', env, t')
    ensures Stayed(s, s'', env, t + t')
  {
  }

  /** Remaining for each attempt, as data, so that Stay's proof does not unfold the backoff arithmetic. */
  ghost predicate Rooms(c: Cfg, d: Delays, room: seq<nat>) {
    |room| == c.maxRetries + 1 && forall a {:trigger Remaining(c, d, a)} :: 1 <= a < |room| ==>
        room[a] == Remaining(c, d, a)
  }

  /** One call and the pause after it, or the part of them that lasts t; rest is what is left of t. */
  lemma StayOnce(c: Cfg, d: Delays, room: seq<nat>, s0: Sys, es: seq<Event>, env: Envelope, a: nat, t: nat)
    returns (es': seq<Event>, rest: nat)
    requires IsRun(c, s0, es) && TimedRun(c, d, s0, es) && Poised(After(c, s0, es), env, a)
    requires Rooms(c, d, room) && 1 <= a <= c.maxRetries && t <= room[a]
    ensures IsRun(c, s0, es') && TimedRun(c, d, s0, es')
    ensures rest <= t && Stayed(After(c, s0, es), After(c, s0, es'), env, t - rest)
    ensures rest > 0 ==> a < c.maxRetries && Poised(After(c, s0, es'), env, a + 1) && rest <= room[a + 1]
  {
    rest := 0;
    var call := d.CallTime(a);
    var pause := SleepNs(c.baseMs, a) + d.wake;
    assert room[a] == Remaining(c, d, a);
    if t <= call {
      StayInCall(c, d, s0, es, env, a, t);
      es' := es + [EvTick(t)];
    } else if t <= call + pause {
      es' := StayInPause(c, d, s0, es, env, a, t - call);
    } else {
      es' := StayToNextCall(c, d, s0, es, env, a);
      rest := t - call - pause;
      assert room[a + 1] == Remaining(c, d, a + 1);
    }
  }

  ghost predicate Timely(c: Cfg, d: Delays, s0: Sys, s: Sys) {
    exists es :: IsRun(c, s0, es) && TimedRun(c, d, s0, es) && After(c, s0, es) == s
  }

  /** The states of timed runs, as data: Stay's recursion then speaks of membership only and its proof does
      not unfold the runs. */
  ghost predicate AllTimely(c: Cfg, d: Delays, s0: Sys, all: iset<Sys>) {
    forall s {:trigger Timely(c, d, s0, s)} :: s in all <==> Timely(c, d, s0, s)
  }

  lemma StayOnceIn(c: Cfg, d: Delays, room: seq<nat>, s0: Sys, all: iset<Sys>, s: Sys, env: Envelope, a: nat, t: nat)
    returns (s': Sys, rest: nat)
    requires Rooms(c, d, room) && AllTimely(c, d, s0, all)
    requires s in all && Poised(s, env, a) && 1 <= a <= c.maxRetries && t <= room[a]
    ensures s' in all && rest <= t && Stayed(s, s', env, t - rest)
    ensures rest > 0 ==> a < c.maxRetries && Poised(s', env, a + 1) && rest <= room[a + 1]
  {
    assert Timely(c, d, s0, s);
    var es :| IsRun(c, s0, es) && TimedRun(c, d, s0, es) && After(c, s0, es) == s;
    es, rest := StayOnce(c, d, room, s0, es, env, a, t);
    s' := After(c, s0, es);
    assert Timely(c, d, s0, s');
  }

  /** With slow, failing calls worker 0 stays in the loop for any time t up to the bound. */
  lemma {:induction false} Stay(c: Cfg, d: Delays, room: seq<nat>, s0: Sys, all: iset<Sys>, s: Sys, env: Envelope,
    a: nat, t: nat)
    returns (s': Sys)
    requires Rooms(c, d, room) && AllTimely(c, d, s0, all)
    requires s in all && Poised(s, env, a) && 1 <= a <= c.maxRetries && t <= room[a]
    ensures s' in all && Stayed(s, s', env, t)
    decreases c.maxRetries - a
  {
    var s1, rest := StayOnceIn(c, d, room, s0, all, s, env, a, t);
    s' := s1;
    if rest > 0 {
      s' := Stay(c, d, room, s0, all, s1, env, a + 1, rest);
      StayedTwice(s, s1, s', env, t - rest, rest);
    }
  }

  /** Two copies of one event, each in a worker's hands. */
  lemma TwoHandedOver(c: Cfg, env: Envelope) returns (es: seq<Event>)
    ensures IsRun(c, Fresh(), es) && forall n :: 0 <= n < |es| ==> !es[n].EvTick?
    ensures var s := After(c, Fresh(), es);
            && s.workers == map[0 := Worker(0, 1, Fetch), 1 := Worker(1, 2, Fetch)]
            && EnvAt(s.q, 0) == Ok(env) && EnvAt(s.q, 1) == Ok(env)
            && s.store == Fresh().store && s.passes == []
  {
    EnvelopeRoundTrip(env, None);
    var one := Handover(c, Fresh(), [], env, 0);
    es := Handover(c, Fresh(), one, env, 1);
  }

  /** Worker 0 in its first call, worker 1 at the gate with a copy of the same event. */
  lemma TwoCopies(c: Cfg, d: Delays, env: Envelope) returns (es: seq<Event>)
    requires c.maxRetries >= 1 && c.ttl > 0
    ensures IsRun(c, Fresh(), es) && TimedRun(c, d, Fresh(), es)
    ensures var s := After(c, Fresh(), es);
            Poised(s, env, 1) && s.store.now == 0 && s.store.locks == map[env.eventID := At(c.ttl * NS_PER_S)]
  {
    es := TwoHandedOver(c, env);
    BeginAt(c, Fresh(), es, env, 0);
    BeginAt(c, Fresh(), es + [EvBegin(0)], env, 1);
    es := es + [EvBegin(0)] + [EvBegin(1)];
    assert Exec(c, Fresh(), es).value.workers == map[0 := Worker(0, 1, Gate(env)), 1 := Worker(1, 2, Gate(env))];
    ExecSnoc(c, Fresh(), es, EvGate(0, Direct(Done)));
    es := es + [EvGate(0, Direct(Done))];
    UntickedIsTimed(c, d, Fresh(), es);
  }

  lemma {:induction false} UntickedIsTimed(c: Cfg, d: Delays, s0: Sys, es: seq<Event>)
    requires IsRun(c, s0, es) && forall n :: 0 <= n < |es| ==> !es[n].EvTick?
    ensures TimedRun(c, d, s0, es)
  {
    if es != [] {
      UntickedIsTimed(c, d, s0, es[..|es| - 1]);
    }
  }

  lemma StayFor(c: Cfg, d: Delays, s0: Sys, s: Sys, env: Envelope, t: nat) returns (s': Sys)
    requires Timely(c, d, s0, s) && Poised(s, env, 1) && c.maxRetries >= 1 && t <= MaxStay(c, d)
    ensures Timely(c, d, s0, s') && Stayed(s, s', env, t)
  {
    RemainingIsRest(c, d, 1);
    var room: seq<nat> :=
      seq(c.maxRetries + 1, a requires 0 <= a <= c.maxRetries => if a == 0 then 0 else Remaining(c, d, a));
    var all := iset s | Timely(c, d, s0, s);
    s' := Stay(c, d, room, s0, all, s, env, 1, t);
  }

  /** The other worker passes the gate once the lock has expired. */
  lemma SecondPasses(c: Cfg, s: Sys, env: Envelope)
    requires c.maxRetries >= 1 && s.workers.Keys == {0, 1} && s.workers[1].pc == Gate(env)
    requires s.workers[0].pc.InLoop() && s.workers[0].pc.env == env
    requires c.ttl > 0 && !Locked(s.store, env.eventID)
    ensures Enabled(c, s, EvGate(1, Direct(Done))) && Overlap(Next(c, s, EvGate(1, Direct(Done))), 0, 1)
  {
  }

  lemma {:induction false} OverlapRun(c: Cfg, d: Delays, env: Envelope) returns (es: seq<Event>)
    requires c.maxRetries >= 1 && c.ttl > 0 && MaxStay(c, d) >= c.ttl * NS_PER_S
    ensures IsRun(c, Fresh(), es) && TimedRun(c, d, Fresh(), es) && Overlap(After(c, Fresh(), es), 0, 1)
  {
    es := TwoCopies(c, d, env);
    var s := After(c, Fresh(), es);
    assert Timely(c, d, Fresh(), s);
    var s' := StayFor(c, d, Fresh(), s, env, c.ttl * NS_PER_S);
    es :| IsRun(c, Fresh(), es) && TimedRun(c, d, Fresh(), es) && After(c, Fresh(), es) == s';
    SecondPasses(c, s', env);
    Extend(c, d, Fresh(), es, EvGate(1, Direct(Done)));
    es := es + [EvGate(1, Direct(Done))];
  }

  /** The condition is exact. */
  lemma ExclusiveIff(c: Cfg, d: Delays)
    ensures Exclusive(c, d) <==> (c.ttl > 0 ==> MaxStay(c, d) < c.ttl * NS_PER_S)
  {
    if c.ttl > 0 ==> MaxStay(c, d) < c.ttl * NS_PER_S {
      forall s0, es, w1: nat, w2: nat | IsRun(c, s0, es) && TimedRun(c, d, s0, es)
        ensures !Overlap(After(c, s0, es), w1, w2)
      {
        Reachable(c, s0, es);
        TimedReachable(c, d, s0, es);
        NoOverlap(c, d, After(c, s0, es), w1, w2);
      }
    } else {
      var es := OverlapRun(c, d, Envelope([], [], []));
      assert Overlap(After(c, Fresh(), es), 0, 1);
    }
  }
}
