/** The whole pipeline as one state machine: any number of API requests and workers over one Redis,
    one event for every atomic step.  Steps use the functions that the component methods are proved
    against, and every Redis call may fail, or fail after taking effect. */
module Pipeline {
  import opened Common
  import opened Backoff
  import opened Queue
  import opened Processor

  /** Where a worker is; a message in hand is the one at its batch's cur. */
  datatype PC =
    | Fetch
    | Gate(env: Envelope)
    | Call(env: Envelope, pass: nat, attempt: nat, since: int)
    | Sleep(env: Envelope, pass: nat, attempt: nat, err: GoString, until: int)
    | Dead(env: Envelope, pass: nat, lastErr: Option<GoString>)
    | Finish(ret: Ret)
    | Stopped
  {
    /** Between the gate and the end of the retry loop. */
    predicate InLoop() { Call? || Sleep? }

    /** Has passed the gate and not yet returned. */
    predicate Owns() { Call? || Sleep? || Dead? }
  }

  /** A worker with the unfinished entries [cur, end) of its batch. */
  datatype Worker = Worker(cur: nat, end: nat, pc: PC)
  {
    predicate Holds(p: nat) { cur <= p < end }
  }

  /** History: one passage of the idempotency gate, with the calls and dead-letter attempts it caused and how
      often one of their append commands was sent again. */
  datatype Pass = Pass(eventID: GoString, pos: nat, at: int, calls: nat, deadTries: nat, again: nat)

  /** History: which passage made an append, and whether its caller was told so. */
  datatype Tag = Tag(pass: nat, sure: bool)

  /** tags runs parallel to store.appends; stray holds ids whose lock was set by a call that did
      not report it; done records what ProcessMessage returned for each finished entry. */
  datatype Sys = Sys(
    q: Queue, store: Store, workers: map<nat, Worker>,
    passes: seq<Pass>, tags: seq<Tag>, stray: set<GoString>, done: map<nat, Ret>)

  datatype Event =
    | EvPublish(tenantID: GoString, eventID: GoString, body: GoString, trimmedTo: nat, reply: Reply)
    | EvInject(values: Values, trimmedTo: nat, reply: Reply)  // a client other than the API
    | EvTrim(trimmedTo: nat)
    | EvTick(dt: nat)
    | EvStart(w: nat)
    | EvCrash(w: nat)
    | EvRead(w: nat, lostReply: bool)
    | EvBegin(w: nat)
    | EvGate(w: nat, answer: Answer)
    | EvHandler(w: nat, reply: Reply)
    | EvResend(w: nat)  // an append took effect, its reply was lost, and the client library will send it again
    | EvWake(w: nat)
    | EvCancel(w: nat)
    | EvDead(w: nat, reply: Reply)
    | EvAck(w: nat, reply: Reply)

  predicate Initial(s: Sys) {
    && s.q.first <= |s.q.log|
    && s.q == Created(s.q.log, s.q.first)
    && s.store.locks == map[] && s.store.appends == []
    && s.workers == map[] && s.passes == [] && s.tags == [] && s.stray == {} && s.done == map[]
  }

  function EntryAt(q: Queue, p: nat): Values { if p < |q.log| then q.log[p] else map[] }

  function EnvAt(q: Queue, p: nat): Result<Envelope, ExtractError> { ExtractEnvelope(EntryAt(q, p)) }

  predicate Enabled(c: Cfg, s: Sys, e: Event) {
    match e
    case EvPublish(t, id, body, f, _) => MayTrim(Appended(s.q, PublishValues(t, id, body)), c.inCap, f)
    case EvInject(v, f, _) => MayTrim(Appended(s.q, v), c.inCap, f)
    case EvTrim(f) => MayTrim(s.q, c.inCap, f)
    case EvTick(_) => true
    case EvStart(w) => w !in s.workers
    case EvCrash(w) => w in s.workers
    case EvRead(w, _) => w in s.workers && s.workers[w].pc.Fetch? && s.workers[w].cur >= s.workers[w].end
        && s.q.Head() <= |s.q.log|
    case EvBegin(w) => w in s.workers && s.workers[w].pc.Fetch? && s.workers[w].cur < s.workers[w].end
    case EvGate(w, _) => w in s.workers && s.workers[w].pc.Gate?
    case EvHandler(w, _) => w in s.workers && s.workers[w].pc.Call?
    case EvResend(w) => w in s.workers && (s.workers[w].pc.Call? || s.workers[w].pc.Dead?)
    case EvWake(w) => w in s.workers && s.workers[w].pc.Sleep? && s.workers[w].pc.until <= s.store.now
    case EvCancel(w) => w in s.workers && s.workers[w].pc.Sleep?
    case EvDead(w, _) => w in s.workers && s.workers[w].pc.Dead?
    case EvAck(w, _) => w in s.workers && s.workers[w].pc.Finish?
  }

  function MovedTo(s: Sys, w: nat, pc: PC): Sys
    requires w in s.workers
  {
    s.(workers := s.workers[w := s.workers[w].(pc := pc)])
  }

  function Tagged(s: Sys, pass: nat, reply: Reply): Sys {
    if reply.Applied() then s.(tags := s.tags + [Tag(pass, reply.Done?)]) else s
  }

  function Count(s: Sys, pass: nat, calls: nat, tries: nat): Sys {
    if pass < |s.passes| then
      var p := s.passes[pass];
      s.(passes := s.passes[pass := p.(calls := p.calls + calls, deadTries := p.deadTries + tries)])
    else s
  }

  function AfterRead(c: Cfg, s: Sys, w: nat, lostReply: bool): Sys
    requires w in s.workers && s.q.Head() <= |s.q.log|
  {
    var n := EffectiveCount(c.count);
    var head := s.q.Head();
    var k := if lostReply then 0 else BatchSize(s.q, n);
    s.(q := HandedOut(s.q, n), workers := s.workers[w := Worker(head, head + k, Fetch)])
  }

  function AfterGate(c: Cfg, s: Sys, w: nat, answer: Answer): Sys
    requires w in s.workers && s.workers[w].pc.Gate?
  {
    var env := s.workers[w].pc.env;
    var g := GateReply(c, answer);
    var unknown := g.Applied() && !Locked(s.store, env.eventID) && !Acquires(c, s.store, env.eventID, answer);
    var s' := s.(store := SetNX(c, s.store, env.eventID, answer),
                 stray := if unknown then s.stray + {env.eventID} else s.stray);
    if !g.Done? then MovedTo(s', w, Finish(GateFailed))
    else if !Acquires(c, s.store, env.eventID, answer) then MovedTo(s', w, Finish(Duplicate))
    else
      var pass := |s.passes|;
      var first := if 1 <= c.maxRetries then 1 else 0;
      var pc := if 1 <= c.maxRetries then Call(env, pass, 1, s.store.now) else Dead(env, pass, None);
      MovedTo(s'.(passes := s.passes + [Pass(env.eventID, s.workers[w].cur, s.store.now, first, 0, 0)]), w, pc)
  }

  function AfterHandler(c: Cfg, s: Sys, w: nat, reply: Reply): Sys
    requires w in s.workers && s.workers[w].pc.Call?
  {
    var pc := s.workers[w].pc;
    var r := HandlerReply(c, pc.env, reply);
    var s' := Tagged(s.(store := Handled(c, s.store, pc.env, reply)), pc.pass, r);
    var pc' := if r.Done? then Finish(Delivered)
               else if pc.attempt < c.maxRetries then
                 Sleep(pc.env, pc.pass, pc.attempt, r.error,
                       s.store.now + if pc.attempt >= 1 then SleepNs(c.baseMs, pc.attempt) else 0)
               else Dead(pc.env, pc.pass, Some(r.error));
    MovedTo(s', w, pc')
  }

  const LOST: Reply := Ambiguous([])

  /** The worker stays where it is, waiting for the reply to what is sent again. */
  function AfterResend(c: Cfg, s: Sys, w: nat): Sys
    requires w in s.workers && (s.workers[w].pc.Call? || s.workers[w].pc.Dead?)
  {
    var pc := s.workers[w].pc;
    var r := if pc.Call? then HandlerReply(c, pc.env, LOST) else LOST;
    var a := if pc.Call? then TenantAppend(c, pc.env) else DlqAppend(pc.env, pc.lastErr);
    var s' := Tagged(s.(store := Add(s.store, a, r)), pc.pass, r);
    if pc.pass < |s'.passes| then
      s'.(passes := s'.passes[pc.pass := s'.passes[pc.pass].(again := s'.passes[pc.pass].again + 1)])
    else s'
  }

  function AfterDead(c: Cfg, s: Sys, w: nat, reply: Reply): Sys
    requires w in s.workers && s.workers[w].pc.Dead?
  {
    var pc := s.workers[w].pc;
    var s' := Tagged(s.(store := Add(s.store, DlqAppend(pc.env, pc.lastErr), reply)), pc.pass, reply);
    MovedTo(Count(s', pc.pass, 0, 1), w, Finish(if reply.Done? then DeadLettered else DlqFailed))
  }

  function AfterAck(s: Sys, w: nat, reply: Reply): Sys
    requires w in s.workers && s.workers[w].pc.Finish?
  {
    var wk := s.workers[w];
    s.(q := Acked(s.q, {wk.cur}, reply),
       done := s.done[wk.cur := wk.pc.ret],
       workers := s.workers[w := Worker(wk.cur + 1, wk.end, Fetch)])
  }

  function Next(c: Cfg, s: Sys, e: Event): Sys
    requires Enabled(c, s, e)
  {
    match e
    case EvPublish(t, id, body, f, reply) => s.(q := Published(s.q, PublishValues(t, id, body), f, reply))
    case EvInject(v, f, reply) => s.(q := Published(s.q, v, f, reply))
    case EvTrim(f) => s.(q := TrimTo(s.q, f))
    case EvTick(dt) => s.(store := Later(s.store, dt))
    case EvStart(w) => s.(workers := s.workers[w := Worker(0, 0, Fetch)])
    case EvCrash(w) => s.(workers := s.workers[w := Worker(0, 0, Stopped)])
    case EvRead(w, lostReply) => AfterRead(c, s, w, lostReply)
    case EvBegin(w) =>
      MovedTo(s, w, match EnvAt(s.q, s.workers[w].cur) case Err(_) => Finish(Malformed) case Ok(env) => Gate(env))
    case EvGate(w, answer) => AfterGate(c, s, w, answer)
    case EvHandler(w, reply) => AfterHandler(c, s, w, reply)
    case EvResend(w) => AfterResend(c, s, w)
    case EvWake(w) =>
      var pc := s.workers[w].pc;
      MovedTo(Count(s, pc.pass, 1, 0), w, Call(pc.env, pc.pass, pc.attempt + 1, s.store.now))
    case EvCancel(w) => MovedTo(s, w, Finish(Cancelled))
    case EvDead(w, reply) => AfterDead(c, s, w, reply)
    case EvAck(w, reply) => AfterAck(s, w, reply)
  }

  /** The state a sequence of events leads to; None if some event is not enabled when its turn comes. */
  function Exec(c: Cfg, s0: Sys, es: seq<Event>): Option<Sys> {
    if es == [] then Some(s0)
    else
      var n := |es| - 1;
      match Exec(c, s0, es[..n])
      case None => None
      case Some(s) => if Enabled(c, s, es[n]) then Some(Next(c, s, es[n])) else None
  }

  ghost predicate IsRun(c: Cfg, s0: Sys, es: seq<Event>) {
    Initial(s0) && Exec(c, s0, es).Some?
  }

  /** The state after a run. */
  ghost function After(c: Cfg, s0: Sys, es: seq<Event>): Sys
    requires IsRun(c, s0, es)
  {
    Exec(c, s0, es).value
  }

  /** One more enabled event. */
  lemma ExecSnoc(c: Cfg, s0: Sys, es: seq<Event>, e: Event)
    requires Exec(c, s0, es).Some? && Enabled(c, Exec(c, s0, es).value, e)
    ensures Exec(c, s0, es + [e]) == Some(Next(c, Exec(c, s0, es).value, e))
  {
    assert (es + [e])[..|es|] == es;
  }

  // ---- invariants ----

  ghost predicate Holder(s: Sys, w: nat, p: nat) { w in s.workers && s.workers[w].Holds(p) }

  ghost predicate Shaped(wk: Worker) {
    if wk.pc.Fetch? then true
    else if wk.pc.Stopped? then wk.cur >= wk.end
    else wk.cur < wk.end
  }

  /** Entries in a live worker's batch are pending and unfinished, and no two workers share one. */
  ghost predicate BatchInv(s: Sys) {
    && s.q.Valid()
    && (forall w, p: nat :: Holder(s, w, p) ==> p in s.q.pel && p !in s.done)
    && (forall w1, w2, p: nat :: Holder(s, w1, p) && Holder(s, w2, p) ==> w1 == w2)
    && (forall w :: w in s.workers ==> Shaped(s.workers[w]))
    && (forall p :: p in s.q.acked ==> p in s.done)
    && (forall p :: p in s.done ==> p < s.q.Head())
  }

  // ---- what each kind of event leaves alone ----

  /** Events of producers: only the queue changes, and nothing is delivered or acked. */
  predicate Feeds(e: Event) { e.EvPublish? || e.EvInject? || e.EvTrim? }

  lemma FeedFrame(c: Cfg, s: Sys, e: Event)
    requires s.q.Valid() && Enabled(c, s, e) && Feeds(e)
    ensures var q' := Next(c, s, e).q;
            && Next(c, s, e) == s.(q := q')
            && q'.Valid() && s.q.log <= q'.log && s.q.Head() <= q'.Head()
            && q'.base == s.q.base && q'.pel == s.q.pel && q'.acked == s.q.acked
  {
    match e
    case EvPublish(t, id, body, f, reply) => PublishKeepsValid(s.q, PublishValues(t, id, body), c.inCap, f, reply);
    case EvInject(v, f, reply) => PublishKeepsValid(s.q, v, c.inCap, f, reply);
    case EvTrim(f) => TrimKeepsValid(s.q, f);
  }

  /** Events inside ProcessMessage: the queue is not touched and the worker keeps its batch. */
  predicate Processes(e: Event) {
    e.EvBegin? || e.EvGate? || e.EvHandler? || e.EvResend? || e.EvWake? || e.EvCancel? || e.EvDead?
  }

  /** What a processing step leaves alone. */
  ghost predicate OnlyMoves(s: Sys, s': Sys, w: nat) {
    && s'.q == s.q && s'.done == s.done
    && w in s.workers && w in s'.workers
    && s'.workers == s.workers[w := s.workers[w].(pc := s'.workers[w].pc)]
  }

  lemma FrameGate(c: Cfg, s: Sys, w: nat, answer: Answer)
    requires Enabled(c, s, EvGate(w, answer))
    ensures var s' := Next(c, s, EvGate(w, answer));
            OnlyMoves(s, s', w) && !s'.workers[w].pc.Fetch? && !s'.workers[w].pc.Stopped?
  {
  }

  lemma FrameAppend(c: Cfg, s: Sys, e: Event)
    requires Enabled(c, s, e) && (e.EvHandler? || e.EvDead?)
    ensures var s' := Next(c, s, e);
            OnlyMoves(s, s', e.w) && !s'.workers[e.w].pc.Fetch? && !s'.workers[e.w].pc.Stopped?
  {
  }

  lemma FrameResend(c: Cfg, s: Sys, w: nat)
    requires Enabled(c, s, EvResend(w))
    ensures var s' := Next(c, s, EvResend(w)); OnlyMoves(s, s', w) && s'.workers == s.workers
  {
    assert s.workers[w] == s.workers[w].(pc := s.workers[w].pc);
  }

  lemma ProcessFrame(c: Cfg, s: Sys, e: Event)
    requires Enabled(c, s, e) && Processes(e)
    ensures var s' := Next(c, s, e);
            && s'.q == s.q && s'.done == s.done
            && e.w in s'.workers
            && s'.workers == s.workers[e.w := s.workers[e.w].(pc := s'.workers[e.w].pc)]
            && !s'.workers[e.w].pc.Fetch? && !s'.workers[e.w].pc.Stopped?
            && !s.workers[e.w].pc.Stopped? && (s.workers[e.w].pc.Fetch? <==> e.EvBegin?)
  {
    if e.EvGate? {
      FrameGate(c, s, e.w, e.answer);
    } else if e.EvHandler? || e.EvDead? {
      FrameAppend(c, s, e);
    } else if e.EvResend? {
      FrameResend(c, s, e.w);
    }
  }

  /** A step that neither delivers nor finishes an entry. */
  lemma BatchKept(s: Sys, s': Sys)
    requires BatchInv(s) && s'.q.Valid()
    requires s'.done == s.done && s'.q.pel == s.q.pel && s'.q.acked == s.q.acked && s.q.Head() <= s'.q.Head()
    requires forall w, p: nat :: Holder(s', w, p) ==> Holder(s, w, p)
    requires forall w :: w in s'.workers ==> Shaped(s'.workers[w])
    ensures BatchInv(s')
  {
  }

  lemma BatchStepRead(c: Cfg, s: Sys, w: nat, lostReply: bool)
    requires BatchInv(s) && Enabled(c, s, EvRead(w, lostReply))
    ensures BatchInv(Next(c, s, EvRead(w, lostReply)))
  {
    var s' := Next(c, s, EvRead(w, lostReply));
    DeliverKeepsValid(s.q, EffectiveCount(c.count));
    forall p | p in s.q.pel ensures p < s.q.Head() { assert s.q.Classified(p); }
    forall v, p: nat | Holder(s', v, p)
      ensures p in s'.q.pel && p !in s'.done
      ensures v != w ==> Holder(s, v, p) && p < s.q.Head()
      ensures v == w ==> p >= s.q.Head()
    {
      if v != w {
        assert Holder(s, v, p);
      }
    }
  }

  lemma BatchStepAck(c: Cfg, s: Sys, w: nat, reply: Reply)
    requires BatchInv(s) && Enabled(c, s, EvAck(w, reply))
    ensures BatchInv(Next(c, s, EvAck(w, reply)))
  {
    var s' := Next(c, s, EvAck(w, reply));
    var cur := s.workers[w].cur;
    AckKeepsValid(s.q, {cur}, reply);
    assert Holder(s, w, cur);
    assert s.q.Classified(cur);
    forall v, p: nat | Holder(s', v, p)
      ensures Holder(s, v, p) && p != cur
    {
      assert Holder(s, v, p);
    }
  }

  lemma BatchStep(c: Cfg, s: Sys, e: Event)
    requires BatchInv(s) && Enabled(c, s, e)
    ensures BatchInv(Next(c, s, e))
  {
    if Feeds(e) {
      FeedFrame(c, s, e);
      BatchKept(s, Next(c, s, e));
    } else if Processes(e) {
      ProcessFrame(c, s, e);
      BatchKept(s, Next(c, s, e));
    } else if e.EvRead? {
      BatchStepRead(c, s, e.w, e.lostReply);
    } else if e.EvAck? {
      BatchStepAck(c, s, e.w, e.reply);
    } else {
      BatchKept(s, Next(c, s, e));
    }
  }
}
