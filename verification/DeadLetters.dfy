/** The error a dead letter carries, over whole runs: that of the last handler call of its passage. */
module DeadLetters {
  import opened Common
  import opened Queue
  import opened Processor
  import opened Pipeline
  import opened Passes
  import opened Appends
  import opened Results

  /** The event ends a handler call of passage k. */
  predicate Calls(s: Sys, e: Event, k: nat) {
    e.EvHandler? && e.w in s.workers && s.workers[e.w].pc.Call? && s.workers[e.w].pc.pass == k
  }

  /** The error of the passage's last handler call, after one more event. */
  function ErrorAfter(c: Cfg, s: Sys, e: Event, k: nat, before: Option<GoString>): Option<GoString> {
    if Calls(s, e, k) then CallError(c, s.workers[e.w].pc.env, e.reply) else before
  }

  /** The error of the last handler call that the events made for passage k. */
  function LastError(c: Cfg, s0: Sys, es: seq<Event>, k: nat): Option<GoString> {
    if es == [] then None
    else
      var n := |es| - 1;
      match Exec(c, s0, es[..n])
      case None => None
      case Some(s) => ErrorAfter(c, s, es[n], k, LastError(c, s0, es[..n], k))
  }

  /** The worker remembers the last error of the passage it owns. */
  predicate Remembers(pc: PC, last: nat -> Option<GoString>) {
    match pc
    case Sleep(_, pass, _, err, _) => last(pass) == Some(err)
    case Dead(_, pass, lastErr) => last(pass) == lastErr
    case _ => true
  }

  ghost predicate ErrorInv(s: Sys, last: nat -> Option<GoString>) {
    && |s.tags| == |s.store.appends|
    && (forall w :: w in s.workers ==> Remembers(s.workers[w].pc, last))
    && (forall i :: 0 <= i < |s.tags| && s.store.appends[i].target.Dlq? ==>
          OriginalError(s.store.appends[i].values) == last(s.tags[i].pass))
    && (forall k: nat :: k >= |s.passes| ==> last(k) == None)
  }

  ghost predicate Follows(c: Cfg, s: Sys, e: Event, last: nat -> Option<GoString>, last': nat -> Option<GoString>) {
    forall k: nat :: last'(k) == ErrorAfter(c, s, e, k, last(k))
  }

  /** Steps that end no call and append nothing. */
  lemma ErrorsKept(s: Sys, s': Sys, last: nat -> Option<GoString>, last': nat -> Option<GoString>)
    requires ErrorInv(s, last) && forall k: nat :: last'(k) == last(k)
    requires s'.tags == s.tags && s'.store.appends == s.store.appends && |s.passes| <= |s'.passes|
    requires forall w :: w in s'.workers ==>
               (w in s.workers && s'.workers[w].pc == s.workers[w].pc) || Remembers(s'.workers[w].pc, last')
    ensures ErrorInv(s', last')
  {
    forall w | w in s'.workers ensures Remembers(s'.workers[w].pc, last') {
      if w in s.workers && s'.workers[w].pc == s.workers[w].pc {
        assert Remembers(s.workers[w].pc, last);
      }
    }
  }

  /** A handler call changes the last error of its passage only, which nobody else remembers and no dead letter
      has carried yet. */
  lemma ErrorsHandler(c: Cfg, s: Sys, w: nat, reply: Reply, last: nat -> Option<GoString>,
    last': nat -> Option<GoString>)
    requires Inv(c, s) && ErrorInv(s, last) && Enabled(c, s, EvHandler(w, reply))
    requires Follows(c, s, EvHandler(w, reply), last, last')
    ensures ErrorInv(Next(c, s, EvHandler(w, reply)), last')
  {
    var s' := Next(c, s, EvHandler(w, reply));
    var pc := s.workers[w].pc;
    assert WorkerOk(c, s, s.workers[w]) && OwnedBy(s, w, pc.pass);
    FrameAppend(c, s, EvHandler(w, reply));
    HandlerRemembers(c, s, w, reply, last');
    forall v | v in s'.workers ensures Remembers(s'.workers[v].pc, last') {
      if v != w {
        assert Remembers(s.workers[v].pc, last);
        OthersPass(c, s, w, v);
      }
    }
    forall i | 0 <= i < |s'.tags| && s'.store.appends[i].target.Dlq?
      ensures OriginalError(s'.store.appends[i].values) == last'(s'.tags[i].pass)
    {
      assert i < |s.tags|;
      assert OwnedBy(s, w, s.tags[i].pass) ==> MayFollow(s, i, w);
    }
  }

  lemma HandlerRemembers(c: Cfg, s: Sys, w: nat, reply: Reply, last': nat -> Option<GoString>)
    requires Enabled(c, s, EvHandler(w, reply))
    requires last'(s.workers[w].pc.pass) == CallError(c, s.workers[w].pc.env, reply)
    ensures Remembers(Next(c, s, EvHandler(w, reply)).workers[w].pc, last')
  {
  }

  lemma OthersPass(c: Cfg, s: Sys, w: nat, v: nat)
    requires Inv(c, s) && w != v && w in s.workers && v in s.workers && s.workers[w].pc.Owns()
    ensures s.workers[v].pc.Owns() ==> s.workers[v].pc.pass != s.workers[w].pc.pass
  {
    if s.workers[v].pc.Owns() && s.workers[v].pc.pass == s.workers[w].pc.pass {
      assert OwnedBy(s, w, s.workers[w].pc.pass) && OwnedBy(s, v, s.workers[w].pc.pass);
      SoleOwner(c, s, w, v, s.workers[w].pc.pass);
    }
  }

  lemma ErrorsDead(c: Cfg, s: Sys, w: nat, reply: Reply, last: nat -> Option<GoString>, last': nat -> Option<GoString>)
    requires ErrorInv(s, last) && Enabled(c, s, EvDead(w, reply)) && forall k: nat :: last'(k) == last(k)
    ensures ErrorInv(Next(c, s, EvDead(w, reply)), last')
  {
    var pc := s.workers[w].pc;
    assert Remembers(pc, last);
    OriginalErrorRoundTrip(pc.env.tenantID, pc.env.eventID, pc.env.payload, pc.lastErr);
    FrameAppend(c, s, EvDead(w, reply));
    var s' := Next(c, s, EvDead(w, reply));
    forall v | v in s'.workers ensures Remembers(s'.workers[v].pc, last') {
      if v != w { assert Remembers(s.workers[v].pc, last); }
    }
  }

  lemma ErrorsResend(c: Cfg, s: Sys, w: nat, last: nat -> Option<GoString>, last': nat -> Option<GoString>)
    requires ErrorInv(s, last) && Enabled(c, s, EvResend(w)) && forall k: nat :: last'(k) == last(k)
    ensures ErrorInv(Next(c, s, EvResend(w)), last')
  {
    var pc := s.workers[w].pc;
    assert Remembers(pc, last);
    if pc.Dead? {
      OriginalErrorRoundTrip(pc.env.tenantID, pc.env.eventID, pc.env.payload, pc.lastErr);
    }
    FrameResend(c, s, w);
    var s' := Next(c, s, EvResend(w));
    forall v | v in s'.workers ensures Remembers(s'.workers[v].pc, last') {
      assert Remembers(s.workers[v].pc, last);
    }
  }

  lemma ErrorsQuiet(c: Cfg, s: Sys, e: Event, last: nat -> Option<GoString>, last': nat -> Option<GoString>)
    requires ErrorInv(s, last) && Enabled(c, s, e) && forall k: nat :: last'(k) == last(k)
    requires e.EvBegin? || e.EvGate? || e.EvWake? || e.EvCancel?
    ensures ErrorInv(Next(c, s, e), last')
  {
    var s' := Next(c, s, e);
    ProcessFrame(c, s, e);
    if e.EvGate? {
      GateShape(c, s, e.w, e.answer);
    }
    assert s'.tags == s.tags && s'.store.appends == s.store.appends;
    ErrorsKept(s, s', last, last');
  }

  lemma ErrorStep(c: Cfg, s: Sys, e: Event, last: nat -> Option<GoString>, last': nat -> Option<GoString>)
    requires Inv(c, s) && ErrorInv(s, last) && Enabled(c, s, e) && Follows(c, s, e, last, last')
    ensures ErrorInv(Next(c, s, e), last')
  {
    if e.EvHandler? {
      ErrorsHandler(c, s, e.w, e.reply, last, last');
    } else if e.EvDead? {
      ErrorsDead(c, s, e.w, e.reply, last, last');
    } else if e.EvResend? {
      ErrorsResend(c, s, e.w, last, last');
    } else if Processes(e) {
      ErrorsQuiet(c, s, e, last, last');
    } else {
      assert Next(c, s, e).tags == s.tags && Next(c, s, e).passes == s.passes;
      ErrorsKept(s, Next(c, s, e), last, last');
    }
  }

  lemma {:induction false} ErrorsReachable(c: Cfg, s0: Sys, es: seq<Event>)
    requires IsRun(c, s0, es)
    ensures ErrorInv(After(c, s0, es), (k: nat) => LastError(c, s0, es, k))
  {
    if es != [] {
      var before := es[..|es| - 1];
      ErrorsReachable(c, s0, before);
      Reachable(c, s0, before);
      ErrorStep(c, After(c, s0, before), es[|es| - 1],
                (k: nat) => LastError(c, s0, before, k), (k: nat) => LastError(c, s0, es, k));
    }
  }

  /** Every dead letter of every run is, field by field, the envelope of an entry with the error of the last
      handler call that was made for it; without any call it has no error field. */
  lemma DeadLettersExact(c: Cfg, s0: Sys, es: seq<Event>, i: nat)
    requires IsRun(c, s0, es) && i < |After(c, s0, es).store.appends|
    requires After(c, s0, es).store.appends[i].target == Dlq
    ensures var s := After(c, s0, es);
            && i < |s.tags| && s.tags[i].pass < |s.passes|
            && var k := s.tags[i].pass;
               && EnvAt(s.q, s.passes[k].pos).Ok?
               && var env, err := EnvAt(s.q, s.passes[k].pos).value, LastError(c, s0, es, k);
                  s.store.appends[i].values == DeadLetter(env, err) && (err.Some? <==> c.maxRetries >= 1)
  {
    Reachable(c, s0, es);
    ErrorsReachable(c, s0, es);
    assert AppendOk(c, After(c, s0, es), i);
  }
}
