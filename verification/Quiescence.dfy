/** Quiescence can be reached: from every state of a fault-free run with a worker, a fault-free continuation
    finishes everything, so that what is promised at quiescence is promised of something. */
module Quiescence {
  import opened Common
  import opened Queue
  import opened Processor
  import opened Pipeline
  import opened Passes
  import opened Appends
  import opened Results
  import opened Guarantees
  import opened ExactlyOnce

  // ---- states from which the workers can be driven ----

  /** Time may pass: no lock ever expires. */
  ghost predicate Timeless(c: Cfg, s: Sys) {
    c.ttl == 0 && forall id :: id in s.store.locks ==> s.store.locks[id].Never?
  }

  /** No time needs to pass: no pause is still to end, and no handler call has to fail. */
  ghost predicate Swift(c: Cfg, s: Sys) {
    && (forall w :: w in s.workers && s.workers[w].pc.Sleep? ==> s.workers[w].pc.until <= s.store.now)
    && AllParse(c, s)
  }

  ghost predicate AllParse(c: Cfg, s: Sys) {
    forall p :: s.q.base <= p < |s.q.log| && EnvAt(s.q, p).Ok? ==> c.parse(EnvAt(s.q, p).value.tenantID).Some?
  }

  ghost predicate NoneStopped(s: Sys) { forall w :: w in s.workers ==> !s.workers[w].pc.Stopped? }

  ghost predicate AllLocked(s: Sys) { forall id :: id in s.store.locks ==> Locked(s.store, id) }

  ghost predicate Ready(c: Cfg, s: Sys) {
    && Inv(c, s) && CleanInv(s) && c.ttl >= 0
    && NoneStopped(s) && AllLocked(s) && (Timeless(c, s) || Swift(c, s))
  }

  // ---- one event at a time ----

  /** The events that finish work, each answered as well as can be. */
  predicate Finishes(c: Cfg, s: Sys, e: Event) {
    match e
    case EvRead(_, lostReply) => !lostReply
    case EvBegin(_) => true
    case EvGate(_, answer) => answer == Direct(Done)
    case EvHandler(_, reply) => reply == Done
    case EvWake(_) => true
    case EvDead(_, reply) => reply == Done
    case EvAck(_, reply) => reply == Done
    case EvTick(_) => c.ttl == 0
    case _ => false
  }

  lemma FinishesClean(c: Cfg, s: Sys, e: Event)
    requires Ready(c, s) && Enabled(c, s, e) && Finishes(c, s, e)
    ensures Clean(c, s, e)
  {
  }

  lemma GateLocks(c: Cfg, s: Sys, w: nat)
    requires AllLocked(s) && c.ttl >= 0 && Enabled(c, s, EvGate(w, Direct(Done)))
    ensures var s' := Next(c, s, EvGate(w, Direct(Done)));
            AllLocked(s') && (Timeless(c, s) ==> Timeless(c, s'))
  {
  }

  /** Other events leave the locks and, but for a tick, the time alone. */
  lemma LocksKept(c: Cfg, s: Sys, e: Event)
    requires Enabled(c, s, e) && Finishes(c, s, e) && !e.EvGate?
    ensures var s' := Next(c, s, e);
            s'.store.locks == s.store.locks && (!e.EvTick? ==> s'.store.now == s.store.now)
  {
  }

  lemma LocksReady(c: Cfg, s: Sys, e: Event)
    requires AllLocked(s) && c.ttl >= 0 && Enabled(c, s, e) && Finishes(c, s, e) && (e.EvTick? ==> Timeless(c, s))
    ensures AllLocked(Next(c, s, e)) && (Timeless(c, s) ==> Timeless(c, Next(c, s, e)))
  {
    if e.EvGate? {
      GateLocks(c, s, e.w);
    } else {
      LocksKept(c, s, e);
    }
  }

  /** A handler call for a tenant that parses succeeds. */
  lemma SwiftHandler(c: Cfg, s: Sys, w: nat)
    requires Ready(c, s) && Swift(c, s) && Enabled(c, s, EvHandler(w, Done))
    ensures Next(c, s, EvHandler(w, Done)).workers[w].pc == Finish(Delivered)
  {
    var wk := s.workers[w];
    assert WorkerOk(c, s, wk) && Shaped(wk) && Holder(s, w, wk.cur);
    assert s.q.Classified(wk.cur);
    assert EnvAt(s.q, wk.cur) == Ok(wk.pc.env);
  }

  /** Only a failed call begins a pause. */
  lemma NoPause(c: Cfg, s: Sys, e: Event)
    requires Enabled(c, s, e) && Finishes(c, s, e) && Processes(e) && !e.EvHandler?
    ensures e.w in Next(c, s, e).workers && !Next(c, s, e).workers[e.w].pc.Sleep?
  {
  }

  lemma SwiftProcess(c: Cfg, s: Sys, e: Event)
    requires Ready(c, s) && Swift(c, s) && Enabled(c, s, e) && Finishes(c, s, e) && Processes(e)
    ensures Swift(c, Next(c, s, e))
  {
    ProcessFrame(c, s, e);
    if e.EvHandler? {
      SwiftHandler(c, s, e.w);
    } else {
      NoPause(c, s, e);
    }
    if !e.EvGate? {
      LocksKept(c, s, e);
    }
  }

  lemma SwiftKept(c: Cfg, s: Sys, e: Event)
    requires Ready(c, s) && Swift(c, s) && Enabled(c, s, e) && Finishes(c, s, e) && !e.EvTick?
    ensures Swift(c, Next(c, s, e))
  {
    if Processes(e) {
      SwiftProcess(c, s, e);
    } else {
      var s' := Next(c, s, e);
      assert s'.q.log == s.q.log && s'.q.base == s.q.base && s'.store == s.store;
      forall p | s.q.base <= p < |s.q.log| ensures EnvAt(s'.q, p) == EnvAt(s.q, p) {}
    }
  }

  lemma ReadyStep(c: Cfg, s: Sys, e: Event)
    requires Ready(c, s) && Enabled(c, s, e) && Finishes(c, s, e) && (e.EvTick? ==> Timeless(c, s))
    ensures Clean(c, s, e) && Ready(c, Next(c, s, e))
  {
    FinishesClean(c, s, e);
    InvStep(c, s, e);
    CleanStep(c, s, e);
    NotStopped(c, s, e);
    LocksReady(c, s, e);
    if !Timeless(c, s) {
      SwiftKept(c, s, e);
    }
  }

  // ---- runs, as data ----

  /** Some fault-free continuation of the run leads to s. */
  ghost predicate Continues(c: Cfg, s0: Sys, es: seq<Event>, s: Sys) {
    exists es' :: es <= es' && IsRun(c, s0, es') && CleanRun(c, s0, es') && After(c, s0, es') == s
  }

  /** The states they lead to, as data: the recursions below then speak of membership only and their proofs do
      not unfold the runs. */
  ghost predicate AllContinued(c: Cfg, s0: Sys, es: seq<Event>, all: iset<Sys>) {
    forall s {:trigger Continues(c, s0, es, s)} :: s in all <==> Continues(c, s0, es, s)
  }

  lemma CleanExtend(c: Cfg, s0: Sys, es: seq<Event>, e: Event)
    requires IsRun(c, s0, es) && CleanRun(c, s0, es)
    requires Enabled(c, After(c, s0, es), e) && Clean(c, After(c, s0, es), e)
    ensures IsRun(c, s0, es + [e]) && CleanRun(c, s0, es + [e])
    ensures After(c, s0, es + [e]) == Next(c, After(c, s0, es), e)
  {
    ExecSnoc(c, s0, es, e);
    assert (es + [e])[..|es + [e]| - 1] == es;
  }

  lemma Go(c: Cfg, s0: Sys, es: seq<Event>, all: iset<Sys>, s: Sys, e: Event)
    requires AllContinued(c, s0, es, all) && s in all
    requires Ready(c, s) && Enabled(c, s, e) && Finishes(c, s, e) && (e.EvTick? ==> Timeless(c, s))
    ensures Next(c, s, e) in all && Ready(c, Next(c, s, e))
  {
    ReadyStep(c, s, e);
    assert Continues(c, s0, es, s);
    ContinuesOne(c, s0, es, s, e);
    assert Continues(c, s0, es, Next(c, s, e));
  }

  lemma ContinuesOne(c: Cfg, s0: Sys, es: seq<Event>, s: Sys, e: Event)
    requires Continues(c, s0, es, s) && Enabled(c, s, e) && Clean(c, s, e)
    ensures Continues(c, s0, es, Next(c, s, e))
  {
    var es' :| es <= es' && IsRun(c, s0, es') && CleanRun(c, s0, es') && After(c, s0, es') == s;
    CleanExtend(c, s0, es', e);
    assert es <= es' + [e];
  }

  // ---- one worker ----

  /** How many more steps the entry in hand can take. */
  function Rank(c: Cfg, pc: PC): nat {
    var m := Max(0, c.maxRetries);
    match pc
    case Fetch => 2 * m + 6
    case Gate(_) => 2 * m + 5
    case Call(_, _, attempt, _) => if attempt <= m then 2 * (m - attempt) + 4 else 4
    case Sleep(_, _, attempt, _, _) => if attempt <= m then 2 * (m - attempt) + 3 else 3
    case Dead(_, _, _) => 2
    case Finish(_) => 1
    case Stopped => 0
  }

  predicate Idle(wk: Worker) { wk.pc.Fetch? && wk.cur >= wk.end }

  /** Only worker w has moved, and nothing new was delivered. */
  ghost predicate Alone(s: Sys, s': Sys, w: nat) {
    && w in s.workers && w in s'.workers && s'.workers == s.workers[w := s'.workers[w]]
    && s'.q.log == s.q.log && s'.q.Head() == s.q.Head()
  }

  /** The worker is closer to the end of its batch. */
  ghost predicate Closer(c: Cfg, wk: Worker, wk': Worker) {
    && wk'.end == wk.end
    && ((wk.cur < wk.end && wk'.cur == wk.cur + 1) || (wk'.cur == wk.cur && Rank(c, wk'.pc) < Rank(c, wk.pc)))
  }

  /** The next event of a worker that has work and is not asleep. */
  function NextEvent(w: nat, pc: PC): Event
    requires !pc.Stopped?
  {
    match pc
    case Fetch => EvBegin(w)
    case Gate(_) => EvGate(w, Direct(Done))
    case Call(_, _, _, _) => EvHandler(w, Done)
    case Sleep(_, _, _, _, _) => EvWake(w)
    case Dead(_, _, _) => EvDead(w, Done)
    case Finish(_) => EvAck(w, Done)
  }

  /** The event is enabled, finishes work, and moves only this worker, closer to its end. */
  ghost predicate Advances(c: Cfg, s: Sys, w: nat, e: Event) {
    && w in s.workers && Enabled(c, s, e) && Finishes(c, s, e)
    && Alone(s, Next(c, s, e), w) && Closer(c, s.workers[w], Next(c, s, e).workers[w])
  }

  lemma AdvanceBegin(c: Cfg, s: Sys, w: nat)
    requires Ready(c, s) && Enabled(c, s, EvBegin(w))
    ensures Advances(c, s, w, EvBegin(w))
  {
    BeginsWell(c, s, w);
  }

  lemma AdvanceGate(c: Cfg, s: Sys, w: nat)
    requires Enabled(c, s, EvGate(w, Direct(Done)))
    ensures Advances(c, s, w, EvGate(w, Direct(Done)))
  {
    GateShape(c, s, w, Direct(Done));
  }

  lemma AdvanceCall(c: Cfg, s: Sys, w: nat)
    requires Enabled(c, s, EvHandler(w, Done)) && WorkerOk(c, s, s.workers[w])
    ensures Advances(c, s, w, EvHandler(w, Done))
  {
    FrameAppend(c, s, EvHandler(w, Done));
  }

  lemma AdvanceWake(c: Cfg, s: Sys, w: nat)
    requires Enabled(c, s, EvWake(w)) && WorkerOk(c, s, s.workers[w])
    ensures Advances(c, s, w, EvWake(w))
  {
  }

  lemma AdvanceDead(c: Cfg, s: Sys, w: nat)
    requires Enabled(c, s, EvDead(w, Done))
    ensures Advances(c, s, w, EvDead(w, Done))
  {
    FrameAppend(c, s, EvDead(w, Done));
  }

  lemma AdvanceProcess(c: Cfg, s: Sys, w: nat)
    requires Ready(c, s) && w in s.workers && !Idle(s.workers[w]) && !s.workers[w].pc.Finish?
    requires s.workers[w].pc.Sleep? ==> s.workers[w].pc.until <= s.store.now
    ensures Advances(c, s, w, NextEvent(w, s.workers[w].pc))
  {
    var pc := s.workers[w].pc;
    assert WorkerOk(c, s, s.workers[w]);
    if pc.Fetch? {
      AdvanceBegin(c, s, w);
    } else if pc.Gate? {
      AdvanceGate(c, s, w);
    } else if pc.Call? {
      AdvanceCall(c, s, w);
    } else if pc.Sleep? {
      AdvanceWake(c, s, w);
    } else {
      AdvanceDead(c, s, w);
    }
  }

  lemma AdvanceAck(c: Cfg, s: Sys, w: nat)
    requires Ready(c, s) && w in s.workers && s.workers[w].pc.Finish?
    ensures Advances(c, s, w, EvAck(w, Done))
  {
    assert Shaped(s.workers[w]);
  }

  lemma AdvanceOne(c: Cfg, s: Sys, w: nat)
    requires Ready(c, s) && w in s.workers && !Idle(s.workers[w])
    requires s.workers[w].pc.Sleep? ==> s.workers[w].pc.until <= s.store.now
    ensures Advances(c, s, w, NextEvent(w, s.workers[w].pc)) && !NextEvent(w, s.workers[w].pc).EvTick?
  {
    if s.workers[w].pc.Finish? {
      AdvanceAck(c, s, w);
    } else {
      AdvanceProcess(c, s, w);
    }
  }

  /** A sleeping worker is waited for. */
  lemma Awaken(c: Cfg, s0: Sys, es: seq<Event>, all: iset<Sys>, s: Sys, w: nat)
    returns (s': Sys)
    requires AllContinued(c, s0, es, all) && s in all && Ready(c, s) && w in s.workers
    ensures s' in all && Ready(c, s') && s'.workers == s.workers && s'.q == s.q
    ensures s.workers[w].pc.Sleep? ==> s.workers[w].pc.until <= s'.store.now
  {
    s' := s;
    if s.workers[w].pc.Sleep? && s.workers[w].pc.until > s.store.now {
      var e := EvTick(s.workers[w].pc.until - s.store.now);
      assert Timeless(c, s);
      Go(c, s0, es, all, s, e);
      s' := Next(c, s, e);
    }
  }

  lemma Advance(c: Cfg, s0: Sys, es: seq<Event>, all: iset<Sys>, s: Sys, w: nat)
    returns (s': Sys)
    requires AllContinued(c, s0, es, all) && s in all && Ready(c, s) && w in s.workers && !Idle(s.workers[w])
    ensures s' in all && Ready(c, s') && Alone(s, s', w) && Closer(c, s.workers[w], s'.workers[w])
  {
    var s1 := Awaken(c, s0, es, all, s, w);
    AdvanceOne(c, s1, w);
    var e := NextEvent(w, s1.workers[w].pc);
    Go(c, s0, es, all, s1, e);
    s' := Next(c, s1, e);
  }

  lemma AloneTwice(s: Sys, s': Sys, s'': Sys, w: nat)
    requires Alone(s, s', w) && Alone(s', s'', w)
    ensures Alone(s, s'', w)
  {
  }

  /** Drive one worker to the end of its batch. */
  lemma {:induction false} FinishWorker(c: Cfg, s0: Sys, es: seq<Event>, all: iset<Sys>, s: Sys, w: nat)
    returns (s': Sys)
    requires AllContinued(c, s0, es, all) && s in all && Ready(c, s) && w in s.workers
    ensures s' in all && Ready(c, s') && Alone(s, s', w) && Idle(s'.workers[w])
    decreases Max(0, s.workers[w].end - s.workers[w].cur), Rank(c, s.workers[w].pc)
  {
    s' := s;
    if !Idle(s.workers[w]) {
      var s1 := Advance(c, s0, es, all, s, w);
      s' := FinishWorker(c, s0, es, all, s1, w);
      AloneTwice(s, s1, s', w);
    }
  }

  // ---- all workers, and then the rest of the stream ----

  ghost function Busy(s: Sys): set<nat> { set w | w in s.workers && !Idle(s.workers[w]) }

  lemma OneLessBusy(s: Sys, s': Sys, w: nat)
    requires Alone(s, s', w) && w in Busy(s) && Idle(s'.workers[w])
    ensures Busy(s') == Busy(s) - {w} && |Busy(s')| < |Busy(s)|
  {
  }

  lemma {:induction false} FinishAll(c: Cfg, s0: Sys, es: seq<Event>, all: iset<Sys>, s: Sys) returns (s': Sys)
    requires AllContinued(c, s0, es, all) && s in all && Ready(c, s)
    ensures s' in all && Ready(c, s') && Busy(s') == {}
    ensures s'.workers.Keys == s.workers.Keys && s'.q.log == s.q.log && s'.q.Head() == s.q.Head()
    decreases |Busy(s)|
  {
    s' := s;
    if w :| w in Busy(s) {
      var s1 := FinishWorker(c, s0, es, all, s, w);
      OneLessBusy(s, s1, w);
      s' := FinishAll(c, s0, es, all, s1);
    }
  }

  /** A read moves the head when something is waiting. */
  lemma ReadAdvances(c: Cfg, s: Sys, w: nat)
    requires Ready(c, s) && Busy(s) == {} && w in s.workers && s.q.Lag() > 0
    ensures var e := EvRead(w, false);
            && Enabled(c, s, e) && Finishes(c, s, e)
            && var s' := Next(c, s, e);
               s'.q.log == s.q.log && s'.q.Head() > s.q.Head() && s'.workers.Keys == s.workers.Keys
  {
    assert w !in Busy(s);
  }

  lemma {:induction false} FinishStream(c: Cfg, s0: Sys, es: seq<Event>, all: iset<Sys>, s: Sys, w: nat)
    returns (s': Sys)
    requires AllContinued(c, s0, es, all) && s in all && Ready(c, s) && w in s.workers
    ensures s' in all && Quiescent(s') && s'.q.log == s.q.log
    decreases |s.q.log| - s.q.Head()
  {
    s' := FinishAll(c, s0, es, all, s);
    if s'.q.Lag() > 0 {
      ReadAdvances(c, s', w);
      Go(c, s0, es, all, s', EvRead(w, false));
      s' := FinishStream(c, s0, es, all, Next(c, s', EvRead(w, false)), w);
    } else {
      assert forall v :: v in s'.workers ==> v !in Busy(s');
    }
  }

  // ---- the theorem ----

  lemma {:induction false} CleanNeverStops(c: Cfg, s0: Sys, es: seq<Event>)
    requires IsRun(c, s0, es) && CleanRun(c, s0, es)
    ensures NoneStopped(After(c, s0, es))
  {
    if es != [] {
      var before, e := es[..|es| - 1], es[|es| - 1];
      CleanNeverStops(c, s0, before);
      NotStopped(c, After(c, s0, before), e);
    }
  }

  lemma NotStopped(c: Cfg, s: Sys, e: Event)
    requires NoneStopped(s) && Enabled(c, s, e) && !e.EvCrash?
    ensures NoneStopped(Next(c, s, e))
  {
    if Processes(e) {
      ProcessFrame(c, s, e);
    }
  }

  lemma {:induction false} LocksNeverExpire(c: Cfg, s0: Sys, es: seq<Event>)
    requires IsRun(c, s0, es) && c.ttl == 0
    ensures Timeless(c, After(c, s0, es))
  {
    if es != [] {
      LocksNeverExpire(c, s0, es[..|es| - 1]);
      StaysTimeless(c, After(c, s0, es[..|es| - 1]), es[|es| - 1]);
    }
  }

  lemma StaysTimeless(c: Cfg, s: Sys, e: Event)
    requires Timeless(c, s) && Enabled(c, s, e)
    ensures Timeless(c, Next(c, s, e))
  {
  }

  /** The run can be finished without waiting past an expiry: its locks never expire, or every tenant parses
      and no lock has expired by the time the last sleeping worker may wake. */
  ghost predicate CanFinish(c: Cfg, s: Sys, until: int) {
    && c.ttl >= 0
    && (c.ttl > 0 ==>
          && s.store.now <= until
          && (forall w :: w in s.workers && s.workers[w].pc.Sleep? ==> s.workers[w].pc.until <= until)
          && (forall id :: id in s.store.locks ==> s.store.locks[id].Never? || until < s.store.locks[id].t)
          && AllParse(c, s))
  }

  /** Waiting once for the last sleeping worker makes the state ready. */
  lemma WaitedIsReady(c: Cfg, s: Sys, s': Sys, until: int)
    requires CanFinish(c, s, until) && NoneStopped(s') && Inv(c, s') && CleanInv(s')
    requires s' == if c.ttl == 0 then s else s.(store := s.store.(now := until))
    requires c.ttl == 0 ==> Timeless(c, s')
    ensures Ready(c, s')
  {
    if c.ttl > 0 {
      assert Swift(c, s') by {
        forall p | s'.q.base <= p < |s'.q.log| && EnvAt(s'.q, p).Ok?
          ensures c.parse(EnvAt(s'.q, p).value.tenantID).Some?
        {
          assert EnvAt(s'.q, p) == EnvAt(s.q, p);
        }
      }
    }
  }

  lemma WaitOnce(c: Cfg, s0: Sys, es: seq<Event>, until: int) returns (es': seq<Event>)
    requires IsRun(c, s0, es) && CleanRun(c, s0, es) && CanFinish(c, After(c, s0, es), until)
    ensures es <= es' && IsRun(c, s0, es') && CleanRun(c, s0, es')
    ensures var s := After(c, s0, es);
            After(c, s0, es') == if c.ttl == 0 then s else s.(store := s.store.(now := until))
  {
    es' := es;
    if c.ttl > 0 {
      var e := EvTick(until - After(c, s0, es).store.now);
      CleanExtend(c, s0, es, e);
      es' := es + [e];
    }
  }

  lemma ReadyAfter(c: Cfg, s0: Sys, es: seq<Event>, s: Sys, until: int)
    requires IsRun(c, s0, es) && CleanRun(c, s0, es) && CanFinish(c, s, until)
    requires After(c, s0, es) == if c.ttl == 0 then s else s.(store := s.store.(now := until))
    ensures Ready(c, After(c, s0, es))
  {
    Reachable(c, s0, es);
    CleanReachable(c, s0, es);
    CleanNeverStops(c, s0, es);
    if c.ttl == 0 {
      LocksNeverExpire(c, s0, es);
    }
    WaitedIsReady(c, s, After(c, s0, es), until);
  }

  /** Every fault-free run with a worker can be continued, without a fault and without publishing more, until
      nothing waits in the stream and every worker is back at its read. */
  lemma CleanRunCanFinish(c: Cfg, s0: Sys, es: seq<Event>, w: nat, until: int) returns (es': seq<Event>)
    requires IsRun(c, s0, es) && CleanRun(c, s0, es) && w in After(c, s0, es).workers
    requires CanFinish(c, After(c, s0, es), until)
    ensures es <= es' && IsRun(c, s0, es') && CleanRun(c, s0, es') && Quiescent(After(c, s0, es'))
    ensures After(c, s0, es').q.log == After(c, s0, es).q.log
  {
    var es1 := WaitOnce(c, s0, es, until);
    ReadyAfter(c, s0, es1, After(c, s0, es), until);
    var s1 := After(c, s0, es1);
    assert Continues(c, s0, es1, s1);
    var all := iset s | Continues(c, s0, es1, s);
    var s' := FinishStream(c, s0, es1, all, s1, w);
    assert Continues(c, s0, es1, s');
    es' :| es1 <= es' && IsRun(c, s0, es') && CleanRun(c, s0, es') && After(c, s0, es') == s';
  }
}
