/** What ProcessMessage's return value says about Redis, kept for every finished entry. */
module Results {
  import opened Common
  import opened Queue
  import opened Processor
  import opened Pipeline
  import opened Passes
  import opened Appends

  /** The i-th append was made while processing the entry at p. */
  ghost predicate MadeFor(s: Sys, i: nat, p: nat) {
    i < |s.tags| && s.tags[i].pass < |s.passes| && s.passes[s.tags[i].pass].pos == p
  }

  /** An append for the entry at p whose caller was told that it succeeded. */
  ghost predicate SureFor(s: Sys, i: nat, p: nat, dlq: bool) {
    MadeFor(s, i, p) && s.tags[i].sure && i < |s.store.appends| && s.store.appends[i].target.Dlq? == dlq
  }

  ghost predicate NoneSure(s: Sys, p: nat) { forall i :: 0 <= i < |s.tags| && MadeFor(s, i, p) ==> !s.tags[i].sure }

  ghost predicate RetOk(s: Sys, p: nat, ret: Ret) {
    match ret
    case Delivered => exists i: nat :: SureFor(s, i, p, false)
    case DeadLettered => exists i: nat :: SureFor(s, i, p, true)
    case Duplicate => !MadeAt(s, p) && EnvAt(s.q, p).Ok? && EnvAt(s.q, p).value.eventID in s.store.locks
    case Malformed => !MadeAt(s, p) && EnvAt(s.q, p).Err?
    case GateFailed => !MadeAt(s, p)
    case _ => MadeAt(s, p) && NoneSure(s, p)
  }

  ghost predicate ResultInv(s: Sys) {
    && (forall p :: p in s.done ==> RetOk(s, p, s.done[p]))
    && (forall w :: w in s.workers && s.workers[w].pc.Finish? ==> RetOk(s, s.workers[w].cur, s.workers[w].pc.ret))
  }

  /** The entry at p is not the one a step is working on. */
  lemma RetKept(s: Sys, s': Sys, p: nat, ret: Ret)
    requires RetOk(s, p, ret) && p < |s.q.log|
    requires s.q.log <= s'.q.log && s.store.locks.Keys <= s'.store.locks.Keys
    requires s.tags <= s'.tags && s.store.appends <= s'.store.appends && |s.passes| <= |s'.passes|
    requires forall k :: 0 <= k < |s.passes| ==> s'.passes[k].pos == s.passes[k].pos
    requires forall k :: |s.passes| <= k < |s'.passes| ==> s'.passes[k].pos != p
    requires forall i :: 0 <= i < |s.tags| ==> s.tags[i].pass < |s.passes|
    requires forall i: nat :: |s.tags| <= i < |s'.tags| ==> !MadeFor(s', i, p)
    ensures RetOk(s', p, ret)
  {
    EnvStable(s.q, s'.q, p);
    if MadeAt(s', p) {
      var k :| 0 <= k < |s'.passes| && s'.passes[k].pos == p;
      assert s.passes[k].pos == p;
    }
    if MadeAt(s, p) {
      var k :| 0 <= k < |s.passes| && s.passes[k].pos == p;
      assert s'.passes[k].pos == p;
    }
    forall i | 0 <= i < |s'.tags| && MadeFor(s', i, p) ensures MadeFor(s, i, p) && s'.tags[i] == s.tags[i] {
    }
    if ret.Delivered? || ret.DeadLettered? {
      var i: nat :| SureFor(s, i, p, ret.DeadLettered?);
      assert SureFor(s', i, p, ret.DeadLettered?);
    }
  }

  /** Nothing recorded is taken back, and what is new was made while processing a busy entry. */
  ghost predicate Grows(s: Sys, s': Sys, busy: set<nat>) {
    && s.q.log <= s'.q.log && s.store.locks.Keys <= s'.store.locks.Keys
    && s.tags <= s'.tags && s.store.appends <= s'.store.appends && |s.passes| <= |s'.passes|
    && (forall k :: 0 <= k < |s.passes| ==> s'.passes[k].pos == s.passes[k].pos)
    && (forall k :: |s.passes| <= k < |s'.passes| ==> s'.passes[k].pos in busy)
    && (forall i, p: nat :: |s.tags| <= i < |s'.tags| && MadeFor(s', i, p) ==> p in busy)
  }

  /** Every entry a step is not working on keeps its result. */
  lemma ResultsKept(c: Cfg, s: Sys, s': Sys, busy: set<nat>)
    requires BatchInv(s) && AppendInv(c, s) && ResultInv(s) && Grows(s, s', busy)
    ensures forall p :: p in s.done && p !in busy ==> RetOk(s', p, s.done[p])
    ensures forall w :: w in s.workers && s.workers[w].pc.Finish? && s.workers[w].cur !in busy ==>
                          RetOk(s', s.workers[w].cur, s.workers[w].pc.ret)
  {
    forall i | 0 <= i < |s.tags| ensures s.tags[i].pass < |s.passes| { assert AppendOk(c, s, i); }
    forall p | p in s.done && p !in busy ensures RetOk(s', p, s.done[p]) {
      RetKept(s, s', p, s.done[p]);
    }
    forall w | w in s.workers && s.workers[w].pc.Finish? && s.workers[w].cur !in busy
      ensures RetOk(s', s.workers[w].cur, s.workers[w].pc.ret)
    {
      assert Shaped(s.workers[w]) && Holder(s, w, s.workers[w].cur);
      assert s.q.Classified(s.workers[w].cur);
      RetKept(s, s', s.workers[w].cur, s.workers[w].pc.ret);
    }
  }

  ghost predicate Inv(c: Cfg, s: Sys) {
    BatchInv(s) && PassInv(c, s) && AppendInv(c, s) && LockInv(c, s) && ResultInv(s)
  }

  /** So far, a passage in progress has only appends its worker was not told about. */
  lemma OwnedNoneSure(c: Cfg, s: Sys, w: nat)
    requires Inv(c, s) && w in s.workers && s.workers[w].pc.Owns()
    ensures MadeAt(s, s.workers[w].cur) && NoneSure(s, s.workers[w].cur)
  {
    var wk := s.workers[w];
    assert WorkerOk(c, s, wk);
    assert s.passes[wk.pc.pass].pos == wk.cur;
    forall i | 0 <= i < |s.tags| && MadeFor(s, i, wk.cur) ensures !s.tags[i].sure {
      assert OwnedBy(s, w, s.tags[i].pass);
      assert MayFollow(s, i, w);
    }
  }

  lemma ReturnedFromDead(c: Cfg, s: Sys, w: nat, reply: Reply)
    requires Inv(c, s) && Enabled(c, s, EvDead(w, reply))
    ensures var s' := Next(c, s, EvDead(w, reply));
            RetOk(s', s.workers[w].cur, s'.workers[w].pc.ret)
  {
    var s' := Next(c, s, EvDead(w, reply));
    var cur := s.workers[w].cur;
    assert WorkerOk(c, s, s.workers[w]);
    OwnedNoneSure(c, s, w);
    if reply.Done? {
      assert SureFor(s', |s.tags|, cur, true);
    } else {
      assert s'.passes[s.workers[w].pc.pass].pos == cur;
      forall i | 0 <= i < |s'.tags| && MadeFor(s', i, cur) ensures !s'.tags[i].sure {
        if i < |s.tags| { assert MadeFor(s, i, cur); }
      }
    }
  }

  lemma ReturnedFromHandler(c: Cfg, s: Sys, w: nat, reply: Reply)
    requires Inv(c, s) && Enabled(c, s, EvHandler(w, reply))
    requires Next(c, s, EvHandler(w, reply)).workers[w].pc.Finish?
    ensures var s' := Next(c, s, EvHandler(w, reply));
            RetOk(s', s.workers[w].cur, s'.workers[w].pc.ret)
  {
    var s' := Next(c, s, EvHandler(w, reply));
    assert WorkerOk(c, s, s.workers[w]);
    assert SureFor(s', |s.tags|, s.workers[w].cur, false);
  }

  lemma ReturnedFromCancel(c: Cfg, s: Sys, w: nat)
    requires Inv(c, s) && Enabled(c, s, EvCancel(w))
    ensures RetOk(Next(c, s, EvCancel(w)), s.workers[w].cur, Cancelled)
  {
    var s' := Next(c, s, EvCancel(w));
    OwnedNoneSure(c, s, w);
    assert s'.passes == s.passes && s'.tags == s.tags;
    forall i | 0 <= i < |s'.tags| && MadeFor(s', i, s.workers[w].cur) ensures MadeFor(s, i, s.workers[w].cur) {}
    var k :| 0 <= k < |s.passes| && s.passes[k].pos == s.workers[w].cur;
    assert s'.passes[k].pos == s.workers[w].cur;
  }

  /** Returns from before the retry loop leave no passage behind. */
  lemma ReturnedFromBegin(c: Cfg, s: Sys, w: nat)
    requires Inv(c, s) && Enabled(c, s, EvBegin(w)) && Next(c, s, EvBegin(w)).workers[w].pc.Finish?
    ensures RetOk(Next(c, s, EvBegin(w)), s.workers[w].cur, Next(c, s, EvBegin(w)).workers[w].pc.ret)
  {
    NotMadeYet(c, s, w);
  }

  lemma ReturnedFromGate(c: Cfg, s: Sys, w: nat, answer: Answer)
    requires Inv(c, s) && Enabled(c, s, EvGate(w, answer)) && Next(c, s, EvGate(w, answer)).workers[w].pc.Finish?
    ensures RetOk(Next(c, s, EvGate(w, answer)), s.workers[w].cur, Next(c, s, EvGate(w, answer)).workers[w].pc.ret)
  {
    NotMadeYet(c, s, w);
    assert WorkerOk(c, s, s.workers[w]);
    GateShape(c, s, w, answer);
  }

  lemma NotMadeYet(c: Cfg, s: Sys, w: nat)
    requires BatchInv(s) && PassInv(c, s) && w in s.workers && s.workers[w].cur < s.workers[w].end
    requires s.workers[w].pc.Fetch? || s.workers[w].pc.Gate?
    ensures !MadeAt(s, s.workers[w].cur)
  {
    assert Holder(s, w, s.workers[w].cur);
  }

  /** The worker's own entry, when a processing step returns from ProcessMessage. */
  lemma ReturnedOk(c: Cfg, s: Sys, e: Event)
    requires Inv(c, s) && Enabled(c, s, e) && Processes(e)
    requires Next(c, s, e).workers[e.w].pc.Finish?
    ensures RetOk(Next(c, s, e), s.workers[e.w].cur, Next(c, s, e).workers[e.w].pc.ret)
  {
    if e.EvDead? {
      ReturnedFromDead(c, s, e.w, e.reply);
    } else if e.EvHandler? {
      ReturnedFromHandler(c, s, e.w, e.reply);
    } else if e.EvCancel? {
      ReturnedFromCancel(c, s, e.w);
    } else if e.EvBegin? {
      ReturnedFromBegin(c, s, e.w);
    } else if e.EvGate? {
      ReturnedFromGate(c, s, e.w, e.answer);
    }
  }

  lemma GrowsGate(c: Cfg, s: Sys, w: nat, answer: Answer)
    requires Enabled(c, s, EvGate(w, answer)) && AppendInv(c, s)
    ensures Grows(s, Next(c, s, EvGate(w, answer)), {s.workers[w].cur})
  {
  }

  lemma GrowsHandler(c: Cfg, s: Sys, w: nat, reply: Reply)
    requires Enabled(c, s, EvHandler(w, reply)) && WorkerOk(c, s, s.workers[w]) && AppendInv(c, s)
    ensures Grows(s, Next(c, s, EvHandler(w, reply)), {s.workers[w].cur})
  {
  }

  lemma GrowsDead(c: Cfg, s: Sys, w: nat, reply: Reply)
    requires Enabled(c, s, EvDead(w, reply)) && WorkerOk(c, s, s.workers[w]) && AppendInv(c, s)
    ensures Grows(s, Next(c, s, EvDead(w, reply)), {s.workers[w].cur})
  {
  }

  lemma GrowsResend(c: Cfg, s: Sys, w: nat)
    requires Enabled(c, s, EvResend(w)) && WorkerOk(c, s, s.workers[w]) && AppendInv(c, s)
    ensures Grows(s, Next(c, s, EvResend(w)), {s.workers[w].cur})
  {
  }

  lemma GrowsProcess(c: Cfg, s: Sys, e: Event)
    requires Enabled(c, s, e) && Processes(e) && WorkerOk(c, s, s.workers[e.w]) && AppendInv(c, s)
    ensures Grows(s, Next(c, s, e), {s.workers[e.w].cur})
  {
    if e.EvGate? {
      GrowsGate(c, s, e.w, e.answer);
    } else if e.EvHandler? {
      GrowsHandler(c, s, e.w, e.reply);
    } else if e.EvDead? {
      GrowsDead(c, s, e.w, e.reply);
    } else if e.EvResend? {
      GrowsResend(c, s, e.w);
    }
  }

  lemma ResultStepProcess(c: Cfg, s: Sys, e: Event)
    requires Inv(c, s) && Enabled(c, s, e) && Processes(e)
    ensures ResultInv(Next(c, s, e))
  {
    var s' := Next(c, s, e);
    var cur := s.workers[e.w].cur;
    ProcessFrame(c, s, e);
    GrowsProcess(c, s, e);
    ResultsKept(c, s, s', {cur});
    if s'.workers[e.w].pc.Finish? {
      ReturnedOk(c, s, e);
    }
    ResultsJoined(s, s', e.w);
  }

  /** The worker's own result and everybody else's. */
  lemma ResultsJoined(s: Sys, s': Sys, w: nat)
    requires BatchInv(s) && w in s.workers && w in s'.workers && s'.done == s.done
    requires s'.workers == s.workers[w := s.workers[w].(pc := s'.workers[w].pc)] && s.workers[w].cur < s.workers[w].end
    requires forall p :: p in s.done && p != s.workers[w].cur ==> RetOk(s', p, s.done[p])
    requires forall v :: v in s.workers && s.workers[v].pc.Finish? && s.workers[v].cur != s.workers[w].cur ==>
                           RetOk(s', s.workers[v].cur, s.workers[v].pc.ret)
    requires s'.workers[w].pc.Finish? ==> RetOk(s', s.workers[w].cur, s'.workers[w].pc.ret)
    ensures ResultInv(s')
  {
    assert Holder(s, w, s.workers[w].cur);
    forall v | v in s'.workers && s'.workers[v].pc.Finish? ensures RetOk(s', s'.workers[v].cur, s'.workers[v].pc.ret) {
      if v != w {
        assert Shaped(s.workers[v]) && Holder(s, v, s.workers[v].cur);
      }
    }
  }

  lemma ResultStep(c: Cfg, s: Sys, e: Event)
    requires Inv(c, s) && Enabled(c, s, e)
    ensures ResultInv(Next(c, s, e))
  {
    var s' := Next(c, s, e);
    if Processes(e) {
      ResultStepProcess(c, s, e);
    } else if Feeds(e) {
      FeedFrame(c, s, e);
      ResultsKept(c, s, s', {});
    } else if e.EvAck? {
      assert s'.passes == s.passes && s'.q.log == s.q.log;
      ResultsKept(c, s, s', {});
    } else {
      assert s'.passes == s.passes && s'.q.log == s.q.log && s'.done == s.done;
      ResultsKept(c, s, s', {});
    }
  }

  lemma InvStep(c: Cfg, s: Sys, e: Event)
    requires Inv(c, s) && Enabled(c, s, e)
    ensures Inv(c, Next(c, s, e))
  {
    BatchStep(c, s, e);
    PassStep(c, s, e);
    AppendStep(c, s, e);
    LockStep(c, s, e);
    ResultStep(c, s, e);
  }

  /** Every invariant holds in every reachable state. */
  lemma {:induction false} Reachable(c: Cfg, s0: Sys, es: seq<Event>)
    requires IsRun(c, s0, es)
    ensures Inv(c, After(c, s0, es))
  {
    if es != [] {
      var n := |es| - 1;
      Reachable(c, s0, es[..n]);
      InvStep(c, After(c, s0, es[..n]), es[n]);
    }
  }
}
