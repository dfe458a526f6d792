/** Invariants of the gate passages: who owns one, what it may still do, and what it has appended. */
module Passes {
  import opened Common
  import opened Queue
  import opened Processor
  import opened Pipeline

  /** Some passage of the gate was made for the entry at p. */
  ghost predicate MadeAt(s: Sys, p: nat) { exists k :: 0 <= k < |s.passes| && s.passes[k].pos == p }

  ghost predicate PassOk(c: Cfg, s: Sys, k: nat)
    requires k < |s.passes|
  {
    var p := s.passes[k];
    && p.pos < s.q.Head()
    && EnvAt(s.q, p.pos).Ok? && EnvAt(s.q, p.pos).value.eventID == p.eventID
    && p.calls <= Max(0, c.maxRetries) && p.deadTries <= 1
  }

  /** The worker is entitled to its program counter. */
  ghost predicate WorkerOk(c: Cfg, s: Sys, wk: Worker) {
    match wk.pc
    case Gate(env) => EnvAt(s.q, wk.cur) == Ok(env)
    case Call(env, pass, attempt, _) =>
      Owner(s, wk, env, pass) && 1 <= attempt <= c.maxRetries && s.passes[pass].calls == attempt
    case Sleep(env, pass, attempt, _, _) =>
      Owner(s, wk, env, pass) && 1 <= attempt < c.maxRetries && s.passes[pass].calls == attempt
    case Dead(env, pass, lastErr) =>
      Owner(s, wk, env, pass) && (lastErr.Some? <==> c.maxRetries >= 1) && s.passes[pass].calls == Max(0, c.maxRetries)
    case _ => true
  }

  ghost predicate Owner(s: Sys, wk: Worker, env: Envelope, pass: nat) {
    && pass < |s.passes| && s.passes[pass].pos == wk.cur && s.passes[pass].deadTries == 0
    && EnvAt(s.q, wk.cur) == Ok(env)
  }

  predicate PastGate(ret: Ret) { ret.Delivered? || ret.DeadLettered? || ret.Cancelled? || ret.DlqFailed? }

  /** The entry p in this batch may already have a passage. */
  predicate MayBeMade(wk: Worker, p: nat) {
    p == wk.cur && (wk.pc.Owns() || (wk.pc.Finish? && PastGate(wk.pc.ret)))
  }

  ghost predicate PassInv(c: Cfg, s: Sys) {
    && (forall k :: 0 <= k < |s.passes| ==> PassOk(c, s, k))
    && (forall j, k :: 0 <= j < k < |s.passes| ==> s.passes[j].pos != s.passes[k].pos)
    && (forall w :: w in s.workers ==> WorkerOk(c, s, s.workers[w]))
    && (forall w, p: nat :: Holder(s, w, p) && !MayBeMade(s.workers[w], p) ==> !MadeAt(s, p))
  }

  lemma EnvStable(q: Queue, q': Queue, p: nat)
    requires q.log <= q'.log && p < |q.log|
    ensures EnvAt(q', p) == EnvAt(q, p)
  {
  }

  /** Steps that make or change no passage. */
  lemma PassKept(c: Cfg, s: Sys, s': Sys)
    requires BatchInv(s) && PassInv(c, s)
    requires s.q.log <= s'.q.log && s.q.Head() <= s'.q.Head()
    requires s'.passes == s.passes
    requires forall w :: w in s'.workers ==>
                           (w in s.workers && s'.workers[w] == s.workers[w]) ||
                           (WorkerOk(c, s', s'.workers[w]))
    requires forall w, p: nat :: Holder(s', w, p) && !MayBeMade(s'.workers[w], p) ==>
                                   p >= s.q.Head() || (Holder(s, w, p) && !MayBeMade(s.workers[w], p))
    ensures PassInv(c, s')
  {
    forall k | 0 <= k < |s'.passes| ensures PassOk(c, s', k) {
      assert PassOk(c, s, k);
      EnvStable(s.q, s'.q, s.passes[k].pos);
    }
    forall w | w in s'.workers ensures WorkerOk(c, s', s'.workers[w]) {
      if w in s.workers && s'.workers[w] == s.workers[w] {
        var wk := s.workers[w];
        assert WorkerOk(c, s, wk) && Shaped(wk);
        if !wk.pc.Fetch? && !wk.pc.Stopped? {
          assert Holder(s, w, wk.cur);
          assert s.q.Classified(wk.cur);
          EnvStable(s.q, s'.q, wk.cur);
        }
      }
    }
    forall w, p: nat | Holder(s', w, p) && !MayBeMade(s'.workers[w], p) ensures !MadeAt(s', p) {
      if p >= s.q.Head() {
        forall k | 0 <= k < |s.passes| ensures s.passes[k].pos != p { assert PassOk(c, s, k); }
      } else {
        assert !MadeAt(s, p);
      }
    }
  }

  /** A new passage, made for the entry its worker has in hand. */
  lemma PassGained(c: Cfg, s: Sys, s': Sys, w: nat)
    requires BatchInv(s) && PassInv(c, s) && w in s.workers && w in s'.workers
    requires s'.q == s.q && |s'.passes| == |s.passes| + 1 && s.passes <= s'.passes
    requires s'.workers == s.workers[w := s.workers[w].(pc := s'.workers[w].pc)]
    requires s.workers[w].cur < s.workers[w].end && !MayBeMade(s.workers[w], s.workers[w].cur)
    requires s'.workers[w].pc.Owns() && WorkerOk(c, s', s'.workers[w])
    requires s'.passes[|s.passes|].pos == s.workers[w].cur && PassOk(c, s', |s.passes|)
    ensures PassInv(c, s')
  {
    var cur := s.workers[w].cur;
    assert Holder(s, w, cur) && !MadeAt(s, cur);
    forall k | 0 <= k < |s'.passes| ensures PassOk(c, s', k) {
      if k < |s.passes| { assert PassOk(c, s, k); }
    }
    forall v | v in s'.workers ensures WorkerOk(c, s', s'.workers[v]) {
      if v != w { assert WorkerOk(c, s, s.workers[v]); }
    }
    forall v, p: nat | Holder(s', v, p) && !MayBeMade(s'.workers[v], p) ensures !MadeAt(s', p) {
      assert Holder(s, v, p) && !MadeAt(s, p);
    }
  }

  function NewPass(c: Cfg, s: Sys, w: nat): Pass
    requires w in s.workers && s.workers[w].pc.Gate?
  {
    Pass(s.workers[w].pc.env.eventID, s.workers[w].cur, s.store.now, if 1 <= c.maxRetries then 1 else 0, 0, 0)
  }

  /** The worker that passes the gate gains a passage; otherwise only its program counter moves. */
  lemma GateShape(c: Cfg, s: Sys, w: nat, answer: Answer)
    requires Enabled(c, s, EvGate(w, answer))
    ensures var s' := Next(c, s, EvGate(w, answer));
            var env, cur := s.workers[w].pc.env, s.workers[w].cur;
            && s'.q == s.q && w in s'.workers
            && s'.workers == s.workers[w := s.workers[w].(pc := s'.workers[w].pc)]
            && if s'.workers[w].pc.Finish? then s'.passes == s.passes && !PastGate(s'.workers[w].pc.ret)
               else
                 && s'.passes == s.passes + [NewPass(c, s, w)]
                 && s'.workers[w].pc == if 1 <= c.maxRetries then Call(env, |s.passes|, 1, s.store.now)
                     else Dead(env, |s.passes|, None)
  {
  }

  lemma PassStepGate(c: Cfg, s: Sys, w: nat, answer: Answer)
    requires BatchInv(s) && PassInv(c, s) && Enabled(c, s, EvGate(w, answer))
    ensures PassInv(c, Next(c, s, EvGate(w, answer)))
  {
    var s' := Next(c, s, EvGate(w, answer));
    GateShape(c, s, w, answer);
    GateKeeps(c, s, s', w);
  }

  lemma GateKeeps(c: Cfg, s: Sys, s': Sys, w: nat)
    requires BatchInv(s) && PassInv(c, s) && w in s.workers && s.workers[w].pc.Gate?
    requires s'.q == s.q && w in s'.workers && s'.workers == s.workers[w := s.workers[w].(pc := s'.workers[w].pc)]
    requires if s'.workers[w].pc.Finish? then s'.passes == s.passes && !PastGate(s'.workers[w].pc.ret)
             else
               var env, cur := s.workers[w].pc.env, s.workers[w].cur;
               && s'.passes == s.passes + [NewPass(c, s, w)]
               && s'.workers[w].pc == if 1 <= c.maxRetries then Call(env, |s.passes|, 1, s.store.now)
                   else Dead(env, |s.passes|, None)
    ensures PassInv(c, s')
  {
    var wk := s.workers[w];
    assert WorkerOk(c, s, wk) && Shaped(wk) && Holder(s, w, wk.cur);
    assert s.q.Classified(wk.cur);
    if s'.workers[w].pc.Finish? {
      PassKept(c, s, s');
    } else {
      assert PassOk(c, s', |s.passes|);
      PassGained(c, s, s', w);
    }
  }

  /** Counting a call, a dead-letter attempt or a repeated command against the passage a worker owns. */
  lemma PassCounted(c: Cfg, s: Sys, s': Sys, w: nat, pass: nat)
    requires BatchInv(s) && PassInv(c, s)
    requires Counted(c, s, s', w, pass) && s.workers[w].pc.Owns() && s.workers[w].pc.pass == pass
    ensures PassInv(c, s')
  {
    var wk := s.workers[w];
    assert WorkerOk(c, s, wk) && Shaped(wk) && Holder(s, w, wk.cur);
    forall k | 0 <= k < |s'.passes| ensures PassOk(c, s', k) {
      assert PassOk(c, s, k);
    }
    forall v | v in s'.workers ensures WorkerOk(c, s', s'.workers[v]) {
      if v != w {
        assert WorkerOk(c, s, s.workers[v]) && Shaped(s.workers[v]);
        if s.workers[v].pc.Owns() && s.workers[v].pc.pass == pass {
          assert Holder(s, v, wk.cur);
        }
      }
    }
    forall v, p: nat | Holder(s', v, p) && !MayBeMade(s'.workers[v], p) ensures !MadeAt(s', p) {
      assert Holder(s, v, p) && !MayBeMade(s.workers[v], p);
      assert !MadeAt(s, p);
    }
  }

  /** The shape of a step that counts against the passage of its worker. */
  ghost predicate Counted(c: Cfg, s: Sys, s': Sys, w: nat, pass: nat) {
    && s'.q == s.q && pass < |s.passes| && |s'.passes| == |s.passes|
    && s'.passes == s.passes[pass := s'.passes[pass]] && s'.passes[pass].pos == s.passes[pass].pos
    && w in s.workers && w in s'.workers
    && s'.workers == s.workers[w := s'.workers[w]]
    && s'.workers[w] == s.workers[w].(pc := s'.workers[w].pc)
    && PassOk(c, s', pass) && WorkerOk(c, s', s'.workers[w]) && MayBeMade(s'.workers[w], s.workers[w].cur)
  }

  lemma CountedWake(c: Cfg, s: Sys, w: nat)
    requires Enabled(c, s, EvWake(w)) && WorkerOk(c, s, s.workers[w]) && PassOk(c, s, s.workers[w].pc.pass)
    ensures Counted(c, s, Next(c, s, EvWake(w)), w, s.workers[w].pc.pass)
  {
  }

  lemma CountedDead(c: Cfg, s: Sys, w: nat, reply: Reply)
    requires Enabled(c, s, EvDead(w, reply)) && WorkerOk(c, s, s.workers[w]) && PassOk(c, s, s.workers[w].pc.pass)
    ensures Counted(c, s, Next(c, s, EvDead(w, reply)), w, s.workers[w].pc.pass)
  {
  }

  lemma CountedResend(c: Cfg, s: Sys, w: nat)
    requires Enabled(c, s, EvResend(w)) && WorkerOk(c, s, s.workers[w]) && PassOk(c, s, s.workers[w].pc.pass)
    ensures Counted(c, s, Next(c, s, EvResend(w)), w, s.workers[w].pc.pass)
  {
    FrameResend(c, s, w);
  }

  lemma PassStepCount(c: Cfg, s: Sys, e: Event)
    requires BatchInv(s) && PassInv(c, s) && Enabled(c, s, e)
    requires e.EvWake? || e.EvDead? || e.EvResend?
    ensures PassInv(c, Next(c, s, e))
  {
    var wk := s.workers[e.w];
    assert WorkerOk(c, s, wk) && Shaped(wk);
    assert PassOk(c, s, wk.pc.pass);
    if e.EvWake? {
      CountedWake(c, s, e.w);
    } else if e.EvDead? {
      CountedDead(c, s, e.w, e.reply);
    } else {
      CountedResend(c, s, e.w);
    }
    PassCounted(c, s, Next(c, s, e), e.w, wk.pc.pass);
  }

  /** Begin, a handler call and a cancellation move only the worker's program counter. */
  lemma PassStepMove(c: Cfg, s: Sys, e: Event)
    requires BatchInv(s) && PassInv(c, s) && Enabled(c, s, e) && (e.EvBegin? || e.EvHandler? || e.EvCancel?)
    ensures PassInv(c, Next(c, s, e))
  {
    ProcessFrame(c, s, e);
    var s' := Next(c, s, e);
    var wk := s.workers[e.w];
    assert WorkerOk(c, s, wk) && Shaped(wk);
    assert s'.passes == s.passes && WorkerOk(c, s', s'.workers[e.w]);
    PassKept(c, s, s');
  }

  lemma PassStepBatch(c: Cfg, s: Sys, e: Event)
    requires BatchInv(s) && PassInv(c, s) && Enabled(c, s, e) && (e.EvRead? || e.EvAck?)
    ensures PassInv(c, Next(c, s, e))
  {
    var s' := Next(c, s, e);
    assert s'.passes == s.passes && s'.q.log == s.q.log && s.q.Head() <= s'.q.Head();
    assert s'.workers[e.w].pc.Fetch?;
    PassKept(c, s, s');
  }

  lemma PassStep(c: Cfg, s: Sys, e: Event)
    requires BatchInv(s) && PassInv(c, s) && Enabled(c, s, e)
    ensures PassInv(c, Next(c, s, e))
  {
    if Feeds(e) {
      FeedFrame(c, s, e);
      PassKept(c, s, Next(c, s, e));
    } else if e.EvGate? {
      PassStepGate(c, s, e.w, e.answer);
    } else if e.EvWake? || e.EvDead? || e.EvResend? {
      PassStepCount(c, s, e);
    } else if Processes(e) {
      PassStepMove(c, s, e);
    } else if e.EvRead? || e.EvAck? {
      PassStepBatch(c, s, e);
    } else {
      PassKept(c, s, Next(c, s, e));
    }
  }
}
