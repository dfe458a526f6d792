/** Invariants of the append log and of the locks: what each append carries, which passage may still
    append, and how far apart in time two passages of one event id are. */
module Appends {
  import opened Common
  import opened Queue
  import opened Processor
  import opened Pipeline
  import opened Passes

  function OriginalError(values: Values): Option<GoString> {
    if ORIGINAL_ERROR in values && values[ORIGINAL_ERROR].Str? then Some(values[ORIGINAL_ERROR].s) else None
  }

  /** A dead letter gives back the error it was written with. */
  lemma OriginalErrorRoundTrip(tenantID: GoString, eventID: GoString, payload: GoString, err: Option<GoString>)
    ensures OriginalError(DlqValues(tenantID, eventID, payload, err)) == err
  {
  }

  /** The i-th append carries the envelope of the entry its passage was made for. */
  ghost predicate AppendOk(c: Cfg, s: Sys, i: nat)
    requires i < |s.tags| == |s.store.appends|
  {
    var a := s.store.appends[i];
    var k := s.tags[i].pass;
    && k < |s.passes|
    && EnvAt(s.q, s.passes[k].pos).Ok?
    && var env := EnvAt(s.q, s.passes[k].pos).value;
       if a.target.Tenant? then c.parse(env.tenantID).Some? && a == TenantAppend(c, env)
       else
         && a == DlqAppend(env, OriginalError(a.values))
         && (OriginalError(a.values).Some? <==> c.maxRetries >= 1)
  }

  ghost predicate OwnedBy(s: Sys, w: nat, pass: nat) {
    w in s.workers && s.workers[w].pc.Owns() && s.workers[w].pc.pass == pass
  }

  /** Only an append that its worker was not told about is followed by another one of its passage, and
      after a dead letter only the same one follows. */
  ghost predicate MayPrecede(s: Sys, i: nat, j: nat)
    requires i < |s.tags| == |s.store.appends| && j < |s.tags|
  {
    !s.tags[i].sure && (s.store.appends[i].target.Dlq? ==> s.store.appends[j].target.Dlq?)
  }

  /** The worker may still append for the passage of the i-th append. */
  ghost predicate MayFollow(s: Sys, i: nat, w: nat)
    requires i < |s.tags| == |s.store.appends| && w in s.workers
  {
    !s.tags[i].sure && (s.store.appends[i].target.Dlq? ==> s.workers[w].pc.Dead?)
  }

  ghost predicate AppendInv(c: Cfg, s: Sys) {
    && |s.tags| == |s.store.appends|
    && (forall i :: 0 <= i < |s.tags| ==> AppendOk(c, s, i))
    && (forall i, j :: 0 <= i < j < |s.tags| && s.tags[i].pass == s.tags[j].pass ==> MayPrecede(s, i, j))
    && (forall w, i :: 0 <= i < |s.tags| && OwnedBy(s, w, s.tags[i].pass) ==> MayFollow(s, i, w))
  }

  /** Steps that append nothing. */
  lemma AppendKept(c: Cfg, s: Sys, s': Sys)
    requires BatchInv(s) && PassInv(c, s) && AppendInv(c, s)
    requires s.q.log <= s'.q.log
    requires s'.tags == s.tags && s'.store.appends == s.store.appends
    requires |s.passes| <= |s'.passes|
    requires forall k :: 0 <= k < |s.passes| ==> s'.passes[k].pos == s.passes[k].pos
    requires forall w, k: nat :: OwnedBy(s', w, k) ==>
               k >= |s.passes| || (OwnedBy(s, w, k) && (s.workers[w].pc.Dead? ==> s'.workers[w].pc.Dead?))
    ensures AppendInv(c, s')
  {
    forall i | 0 <= i < |s'.tags| ensures AppendOk(c, s', i) {
      assert AppendOk(c, s, i);
      assert PassOk(c, s, s.tags[i].pass);
      EnvStable(s.q, s'.q, s.passes[s.tags[i].pass].pos);
    }
    forall i, j | 0 <= i < j < |s'.tags| && s'.tags[i].pass == s'.tags[j].pass ensures MayPrecede(s', i, j) {
      assert MayPrecede(s, i, j);
    }
    forall w, i | 0 <= i < |s'.tags| && OwnedBy(s', w, s'.tags[i].pass) ensures MayFollow(s', i, w) {
      assert AppendOk(c, s, i);
      assert OwnedBy(s, w, s.tags[i].pass) && MayFollow(s, i, w);
    }
  }

  /** Nobody else owns the passage that a worker owns. */
  lemma SoleOwner(c: Cfg, s: Sys, w: nat, v: nat, pass: nat)
    requires BatchInv(s) && PassInv(c, s) && OwnedBy(s, w, pass) && OwnedBy(s, v, pass)
    ensures v == w
  {
    assert WorkerOk(c, s, s.workers[w]) && WorkerOk(c, s, s.workers[v]);
    assert Shaped(s.workers[w]) && Shaped(s.workers[v]);
    assert Holder(s, w, s.workers[w].cur) && Holder(s, v, s.workers[w].cur);
  }

  /** One more append, made by the worker that owns its passage: it still owns it only if it was not told
      of the append, and a worker that makes a dead letter is and stays in the dead-letter dispatch. */
  ghost predicate Appending(c: Cfg, s: Sys, s': Sys, w: nat) {
    && w in s.workers && s.workers[w].pc.Owns() && w in s'.workers && s'.q == s.q
    && s'.workers == s.workers[w := s.workers[w].(pc := s'.workers[w].pc)]
    && (s'.workers[w].pc.Owns() ==> s'.workers[w].pc.pass == s.workers[w].pc.pass)
    && (s.workers[w].pc.Dead? && s'.workers[w].pc.Owns() ==> s'.workers[w].pc.Dead?)
    && |s'.passes| == |s.passes| && (forall k :: 0 <= k < |s.passes| ==> s'.passes[k].pos == s.passes[k].pos)
  }

  lemma AppendMade(c: Cfg, s: Sys, s': Sys, w: nat, a: Append, sure: bool)
    requires BatchInv(s) && PassInv(c, s) && AppendInv(c, s) && Appending(c, s, s', w)
    requires s'.tags == s.tags + [Tag(s.workers[w].pc.pass, sure)] && s'.store.appends == s.store.appends + [a]
    requires AppendOk(c, s', |s.tags|)
    requires a.target.Dlq? <==> s.workers[w].pc.Dead?
    requires s'.workers[w].pc.Owns() ==> !sure
    ensures AppendInv(c, s')
  {
    var pass := s.workers[w].pc.pass;
    assert OwnedBy(s, w, pass);
    forall i | 0 <= i < |s'.tags| ensures AppendOk(c, s', i) {
      if i < |s.tags| { assert AppendOk(c, s, i); }
    }
    forall i, j | 0 <= i < j < |s'.tags| && s'.tags[i].pass == s'.tags[j].pass ensures MayPrecede(s', i, j) {
      if j == |s.tags| {
        assert OwnedBy(s, w, s.tags[i].pass) && MayFollow(s, i, w);
      } else {
        assert MayPrecede(s, i, j);
      }
    }
    forall v, i | 0 <= i < |s'.tags| && OwnedBy(s', v, s'.tags[i].pass) ensures MayFollow(s', i, v) {
      assert OwnedBy(s, v, s'.tags[i].pass);
      if i < |s.tags| { assert MayFollow(s, i, v); } else { SoleOwner(c, s, w, v, pass); }
    }
  }

  lemma AppendMissed(c: Cfg, s: Sys, s': Sys, w: nat)
    requires BatchInv(s) && PassInv(c, s) && AppendInv(c, s) && Appending(c, s, s', w)
    requires s'.tags == s.tags && s'.store.appends == s.store.appends
    ensures AppendInv(c, s')
  {
    AppendKept(c, s, s');
  }

  lemma AppendStepHandler(c: Cfg, s: Sys, w: nat, reply: Reply)
    requires BatchInv(s) && PassInv(c, s) && AppendInv(c, s) && Enabled(c, s, EvHandler(w, reply))
    ensures AppendInv(c, Next(c, s, EvHandler(w, reply)))
  {
    var s' := Next(c, s, EvHandler(w, reply));
    var env := s.workers[w].pc.env;
    var r := HandlerReply(c, env, reply);
    assert WorkerOk(c, s, s.workers[w]);
    if r.Applied() {
      AppendMade(c, s, s', w, TenantAppend(c, env), r.Done?);
    } else {
      AppendMissed(c, s, s', w);
    }
  }

  lemma AppendStepDead(c: Cfg, s: Sys, w: nat, reply: Reply)
    requires BatchInv(s) && PassInv(c, s) && AppendInv(c, s) && Enabled(c, s, EvDead(w, reply))
    ensures AppendInv(c, Next(c, s, EvDead(w, reply)))
  {
    var s' := Next(c, s, EvDead(w, reply));
    var pc := s.workers[w].pc;
    assert WorkerOk(c, s, s.workers[w]);
    if reply.Applied() {
      AppendMade(c, s, s', w, DlqAppend(pc.env, pc.lastErr), reply.Done?);
    } else {
      AppendMissed(c, s, s', w);
    }
  }

  lemma AppendStepResend(c: Cfg, s: Sys, w: nat)
    requires BatchInv(s) && PassInv(c, s) && AppendInv(c, s) && Enabled(c, s, EvResend(w))
    ensures AppendInv(c, Next(c, s, EvResend(w)))
  {
    var s' := Next(c, s, EvResend(w));
    var pc := s.workers[w].pc;
    assert WorkerOk(c, s, s.workers[w]);
    assert s'.workers == s.workers[w := s.workers[w].(pc := s'.workers[w].pc)];
    if pc.Dead? {
      AppendMade(c, s, s', w, DlqAppend(pc.env, pc.lastErr), false);
    } else if HandlerReply(c, pc.env, LOST).Applied() {
      AppendMade(c, s, s', w, TenantAppend(c, pc.env), false);
    } else {
      AppendMissed(c, s, s', w);
    }
  }

  /** The steps of ProcessMessage that append nothing. */
  lemma AppendStepQuiet(c: Cfg, s: Sys, e: Event)
    requires BatchInv(s) && PassInv(c, s) && AppendInv(c, s) && Enabled(c, s, e)
    requires e.EvBegin? || e.EvGate? || e.EvWake? || e.EvCancel?
    ensures AppendInv(c, Next(c, s, e))
  {
    var s' := Next(c, s, e);
    ProcessFrame(c, s, e);
    forall v, k: nat | OwnedBy(s', v, k)
      ensures k >= |s.passes| || (OwnedBy(s, v, k) && (s.workers[v].pc.Dead? ==> s'.workers[v].pc.Dead?))
    {
    }
    AppendKept(c, s, s');
  }

  lemma AppendStep(c: Cfg, s: Sys, e: Event)
    requires BatchInv(s) && PassInv(c, s) && AppendInv(c, s) && Enabled(c, s, e)
    ensures AppendInv(c, Next(c, s, e))
  {
    var s' := Next(c, s, e);
    if e.EvHandler? {
      AppendStepHandler(c, s, e.w, e.reply);
    } else if e.EvDead? {
      AppendStepDead(c, s, e.w, e.reply);
    } else if e.EvResend? {
      AppendStepResend(c, s, e.w);
    } else if Feeds(e) {
      FeedFrame(c, s, e);
      AppendKept(c, s, s');
    } else if Processes(e) {
      AppendStepQuiet(c, s, e);
    } else {
      assert s'.passes == s.passes;
      AppendKept(c, s, s');
    }
  }

  // ---- locks ----

  /** The lock outlives the passage made at that time by the whole TTL. */
  predicate Covers(c: Cfg, lock: Expiry, at: int) {
    if c.ttl == 0 then lock.Never? else c.ttl > 0 && lock.At? && lock.t >= at + c.ttl * NS_PER_S
  }

  ghost predicate LockOk(c: Cfg, s: Sys, k: nat)
    requires k < |s.passes|
  {
    var p := s.passes[k];
    p.at <= s.store.now && p.eventID in s.store.locks && Covers(c, s.store.locks[p.eventID], p.at)
  }

  /** A later passage of the same event id waited for the earlier one's lock to expire. */
  predicate Apart(c: Cfg, p: Pass, r: Pass) { c.ttl > 0 && p.at + c.ttl * NS_PER_S <= r.at }

  ghost predicate HasPass(s: Sys, id: GoString) { exists k :: 0 <= k < |s.passes| && s.passes[k].eventID == id }

  ghost predicate LockInv(c: Cfg, s: Sys) {
    && (forall k :: 0 <= k < |s.passes| ==> LockOk(c, s, k))
    && (forall j, k :: 0 <= j < k < |s.passes| && s.passes[j].eventID == s.passes[k].eventID ==>
                                 Apart(c, s.passes[j], s.passes[k]))
    && (forall id :: id in s.store.locks ==> id in s.stray || HasPass(s, id))
  }

  lemma LockKept(c: Cfg, s: Sys, s': Sys)
    requires LockInv(c, s)
    requires s'.store.locks == s.store.locks && s.store.now <= s'.store.now && s'.stray == s.stray
    requires |s'.passes| == |s.passes|
    requires forall k :: 0 <= k < |s.passes| ==>
               s'.passes[k].eventID == s.passes[k].eventID && s'.passes[k].at == s.passes[k].at
    ensures LockInv(c, s')
  {
    forall k | 0 <= k < |s'.passes| ensures LockOk(c, s', k) { assert LockOk(c, s, k); }
    forall id | id in s'.store.locks && id !in s'.stray ensures HasPass(s', id) {
      var k :| 0 <= k < |s.passes| && s.passes[k].eventID == id;
      assert s'.passes[k].eventID == id;
    }
  }

  lemma LockStepGate(c: Cfg, s: Sys, w: nat, answer: Answer)
    requires LockInv(c, s) && Enabled(c, s, EvGate(w, answer))
    ensures LockInv(c, Next(c, s, EvGate(w, answer)))
  {
    var s' := Next(c, s, EvGate(w, answer));
    var env := s.workers[w].pc.env;
    var n := |s.passes|;
    forall k | 0 <= k < |s'.passes| ensures LockOk(c, s', k) {
      if k < n { assert LockOk(c, s, k) && s'.passes[k] == s.passes[k]; }
    }
    forall j, k | 0 <= j < k < |s'.passes| && s'.passes[j].eventID == s'.passes[k].eventID
      ensures Apart(c, s'.passes[j], s'.passes[k])
    {
      assert LockOk(c, s, j) && s'.passes[j] == s.passes[j];
      if k < n { assert s'.passes[k] == s.passes[k]; }
    }
    forall id | id in s'.store.locks && id !in s'.stray ensures HasPass(s', id) {
      if id in s.store.locks {
        var k :| 0 <= k < n && s.passes[k].eventID == id;
        assert s'.passes[k].eventID == id;
      } else {
        assert s'.passes[n].eventID == id;
      }
    }
  }

  lemma LockStep(c: Cfg, s: Sys, e: Event)
    requires LockInv(c, s) && Enabled(c, s, e)
    ensures LockInv(c, Next(c, s, e))
  {
    if e.EvGate? {
      LockStepGate(c, s, e.w, e.answer);
    } else {
      LockKept(c, s, Next(c, s, e));
    }
  }
}
