/** Events that are acknowledged and lost, for every configuration: runs of the machine in which an entry
    is acked although nothing, or nothing for its tenant, was appended. */
module Losses {
  import opened Common
  import opened Queue
  import opened Processor
  import opened Pipeline
  import opened Guarantees
  import opened SoloRun
  import Results

  function EntryOf(env: Envelope): Values { PublishValues(env.tenantID, env.eventID, env.payload) }

  /** Everything published has been delivered and acked. */
  ghost predicate Settled(s: Sys) { s.q.first == 0 && s.q.next == |s.q.log| && s.q.pel == {} }

  /** s with one more entry, published, processed and acked by a new worker. */
  ghost predicate Passed(s: Sys, s': Sys, env: Envelope, r: Processed) {
    var n := |s.q.log|;
    && Settled(s') && s'.q.log == s.q.log + [EntryOf(env)] && s'.q.acked == s.q.acked + {n}
    && s'.store == r.store && s'.done == s.done[n := r.ret]
  }

  lemma HandleNext(c: Cfg, es: seq<Event>, env: Envelope, w: nat, sc: Script) returns (es': seq<Event>)
    requires IsRun(c, Fresh(), es) && Settled(After(c, Fresh(), es)) && w !in After(c, Fresh(), es).workers
    ensures IsRun(c, Fresh(), es')
    ensures var s, s' := After(c, Fresh(), es), After(c, Fresh(), es');
            && Passed(s, s', env, Process(c, s.store, EntryOf(env), sc)) && s'.workers.Keys == s.workers.Keys + {w}
  {
    var s := After(c, Fresh(), es);
    es' := Handover(c, Fresh(), es, env, w);
    var s1 := HandedOver(s, env, w);
    es' := SoloProcess(c, Fresh(), es', w, sc);
    var s2 := After(c, Fresh(), es');
    FinishAcked(c, s, s1, s2, env, w);
    StepTo(c, Fresh(), es', s2, EvAck(w, Done), Next(c, s2, EvAck(w, Done)));
    es' := es' + [EvAck(w, Done)];
  }

  lemma FinishAcked(c: Cfg, s: Sys, s1: Sys, s2: Sys, env: Envelope, w: nat)
    requires Settled(s) && w !in s.workers && s1 == HandedOver(s, env, w)
    requires OnlyWorker(s1, s2, w) && s2.workers[w].pc.Finish?
    ensures Enabled(c, s2, EvAck(w, Done))
    ensures var s' := Next(c, s2, EvAck(w, Done));
            && Passed(s, s', env, Processed(s2.store, s2.workers[w].pc.ret, 0, 0))
            && s'.workers.Keys == s.workers.Keys + {w}
  {
    var n := |s.q.log|;
    assert {n} * (s.q.pel + {n}) == {n} && s.q.pel + {n} - {n} == {};
  }

  // ---- every attempt and the dead-letter append fail ----

  function AllFail(err: GoString): Script {
    Script(Direct(Done), (i: nat) => Failed(err), (i: nat) => 0, (i: nat) => false, Failed(err))
  }

  lemma {:induction false} NothingApplied(c: Cfg, env: Envelope, err: GoString, from: nat, to: nat)
    ensures CallAppends(c, env, AllFail(err), from, to) == []
    decreases if from < to then to - from else 0
  {
    if from < to {
      NothingApplied(c, env, err, from + 1, to);
    }
  }

  lemma AllFailLeavesNothing(c: Cfg, st: Store, env: Envelope, err: GoString)
    requires !Locked(st, env.eventID) && st.appends == []
    ensures var r := Process(c, st, EntryOf(env), AllFail(err));
            r.store.appends == [] && r.ret == if c.ttl < 0 then GateFailed else DlqFailed
  {
    EnvelopeRoundTrip(env, None);
    if c.ttl >= 0 {
      var st' := SetNX(c, st, env.eventID, Direct(Done));
      RetryOutcome(c, st', env, 1, None, AllFail(err));
      RetryAppends(c, st', env, 1, None, AllFail(err));
      NothingApplied(c, env, err, 1, 1 + Retry(c, st', env, 1, None, AllFail(err)).calls);
    }
  }

  /** The worker acks even when ProcessMessage returned an error: whatever the configuration, there is a run
      that acks an entry which left nothing behind, because every call and the dead-letter append failed. */
  lemma AckedButLost(c: Cfg, env: Envelope, err: GoString) returns (es: seq<Event>)
    ensures IsRun(c, Fresh(), es)
    ensures var s := After(c, Fresh(), es);
            && s.q.acked == {0} && s.q.log == [EntryOf(env)] && s.store.appends == []
            && s.done == map[0 := if c.ttl < 0 then GateFailed else DlqFailed]
  {
    AllFailLeavesNothing(c, Fresh().store, env, err);
    es := HandleNext(c, [], env, 0, AllFail(err));
  }

  // ---- a nil return that did nothing ----

  function ReplyLost(): Script {
    Script(Resent, (i: nat) => Done, (i: nat) => 0, (i: nat) => false, Done)
  }

  /** When the reply to SET NX is lost and the command is sent again, the worker takes its own lock for
      another's: the entry is acked after a nil return although no handler was ever called for its id. */
  lemma ResentGateLoses(c: Cfg, env: Envelope) returns (es: seq<Event>)
    requires c.ttl >= 0
    ensures IsRun(c, Fresh(), es)
    ensures var s := After(c, Fresh(), es);
            && s.q.acked == {0} && s.q.log == [EntryOf(env)] && s.store.appends == []
            && s.done == map[0 := Duplicate] && s.done[0].IsNil()
  {
    EnvelopeRoundTrip(env, None);
    es := HandleNext(c, [], env, 0, ReplyLost());
  }

  function ReplyUnknown(err: GoString): Script {
    Script(Direct(Ambiguous(err)), (i: nat) => Done, (i: nat) => 0, (i: nat) => false, Done)
  }

  /** When SET NX takes effect but reports an error, the entry is acked after that error, and every further
      copy of the event is acked after a nil return: nothing is ever appended for it. */
  lemma AmbiguousGateLoses(c: Cfg, env: Envelope, err: GoString) returns (es: seq<Event>)
    requires c.ttl >= 0
    ensures IsRun(c, Fresh(), es)
    ensures var s := After(c, Fresh(), es);
            && s.q.acked == {0, 1} && s.q.log == [EntryOf(env), EntryOf(env)] && s.store.appends == []
            && s.done == map[0 := GateFailed, 1 := Duplicate]
  {
    EnvelopeRoundTrip(env, None);
    es := HandleNext(c, [], env, 0, ReplyUnknown(err));
    var s := After(c, Fresh(), es);
    assert Locked(s.store, env.eventID);
    SecondDuplicate(c, s.store, env);
    es := HandleNext(c, es, env, 1, AllWell());
    assert [EntryOf(env)] + [EntryOf(env)] == [EntryOf(env), EntryOf(env)];
  }

  // ---- one tenant's event id hides another's ----

  function AllWell(): Script {
    Script(Direct(Done), (i: nat) => Done, (i: nat) => 0, (i: nat) => false, Done)
  }

  lemma FirstDelivered(c: Cfg, st: Store, env: Envelope)
    requires c.ttl >= 0 && c.maxRetries >= 1 && c.parse(env.tenantID).Some? && !Locked(st, env.eventID)
    ensures var r := Process(c, st, EntryOf(env), AllWell());
            && r.ret == Delivered && r.store.appends == st.appends + [TenantAppend(c, env)]
            && Locked(r.store, env.eventID)
  {
    EnvelopeRoundTrip(env, None);
  }

  lemma SecondDuplicate(c: Cfg, st: Store, env: Envelope)
    requires c.ttl >= 0 && Locked(st, env.eventID)
    ensures Process(c, st, EntryOf(env), AllWell()) == Processed(st, Duplicate, 0, 0)
  {
    EnvelopeRoundTrip(env, None);
  }

  /** With nothing failing at all, the second of two tenants that use one event id gets nothing: its entry
      is acked after a nil return, and the only append is the first tenant's. */
  lemma OtherTenantsEventDropped(c: Cfg, a: Envelope, b: Envelope) returns (es: seq<Event>)
    requires c.ttl >= 0 && c.maxRetries >= 1 && c.parse(a.tenantID).Some? && a.eventID == b.eventID
    ensures IsRun(c, Fresh(), es)
    ensures var s := After(c, Fresh(), es);
            && s.q.log == [EntryOf(a), EntryOf(b)] && s.q.acked == {0, 1}
            && s.done == map[0 := Delivered, 1 := Duplicate] && s.store.appends == [TenantAppend(c, a)]
  {
    FirstDelivered(c, Fresh().store, a);
    es := HandleNext(c, [], a, 0, AllWell());
    var s := After(c, Fresh(), es);
    SecondDuplicate(c, s.store, b);
    es := HandleNext(c, es, b, 1, AllWell());
    assert [EntryOf(a)] + [EntryOf(b)] == [EntryOf(a), EntryOf(b)];
  }

  // ---- pending entries are never reclaimed ----

  /** The entry is pending and no worker has it in its batch: its worker crashed or its read's reply was lost. */
  ghost predicate Orphan(s: Sys, p: nat) {
    p in s.q.pel && forall w: nat :: !Holder(s, w, p)
  }

  /** A crash orphans every entry the worker had left, and the worker does nothing more. */
  lemma CrashOrphans(c: Cfg, s: Sys, w: nat, p: nat)
    requires BatchInv(s) && Enabled(c, s, EvCrash(w)) && Holder(s, w, p)
    ensures var s' := Next(c, s, EvCrash(w));
            && Orphan(s', p) && p !in s'.done
            && w in s'.workers && s'.workers[w].pc == Stopped
            && forall v :: v in s.workers && v != w ==> v in s'.workers && s'.workers[v] == s.workers[v]
  {
    var s' := Next(c, s, EvCrash(w));
    forall v: nat | Holder(s', v, p) ensures Holder(s, v, p) && v != w {
    }
  }

  /** A read whose reply is lost orphans its whole batch. */
  lemma LostReplyOrphans(c: Cfg, s: Sys, w: nat, p: nat)
    requires BatchInv(s) && Enabled(c, s, EvRead(w, true))
    requires s.q.Head() <= p < s.q.Head() + BatchSize(s.q, EffectiveCount(c.count))
    ensures Orphan(Next(c, s, EvRead(w, true)), p)
  {
    var s' := Next(c, s, EvRead(w, true));
    assert s.q.Classified(p);
    forall v: nat ensures !Holder(s', v, p) {
      assert Holder(s', v, p) && v != w ==> Holder(s, v, p);
    }
  }

  lemma OrphanStep(c: Cfg, s: Sys, e: Event, p: nat)
    requires BatchInv(s) && Orphan(s, p) && Enabled(c, s, e)
    ensures Orphan(Next(c, s, e), p)
  {
    var s' := Next(c, s, e);
    assert s.q.Classified(p);
    if Feeds(e) {
      FeedFrame(c, s, e);
    } else if Processes(e) {
      ProcessFrame(c, s, e);
    } else if e.EvAck? {
      assert Shaped(s.workers[e.w]) && Holder(s, e.w, s.workers[e.w].cur);
    }
    forall w: nat | Holder(s', w, p) ensures Holder(s, w, p) {
    }
  }

  /** Only new entries are read, so an orphan stays pending in every continuation and is never acked. */
  lemma {:induction false} OrphanStaysPending(c: Cfg, s0: Sys, es: seq<Event>, n: nat, p: nat)
    requires IsRun(c, s0, es) && n <= |es|
    requires IsRun(c, s0, es[..n]) && Orphan(After(c, s0, es[..n]), p)
    ensures Orphan(After(c, s0, es), p) && p !in After(c, s0, es).q.acked
    decreases |es|
  {
    Results.Reachable(c, s0, es);
    if n < |es| {
      var before := es[..|es| - 1];
      assert before[..n] == es[..n];
      OrphanStaysPending(c, s0, before, n, p);
      Results.Reachable(c, s0, before);
      OrphanStep(c, After(c, s0, before), es[|es| - 1], p);
    } else {
      assert es[..n] == es;
    }
    assert After(c, s0, es).q.Classified(p);
  }
}
