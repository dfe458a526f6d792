/** Processed once per event id: in runs without crashes, cancellations, gate and dead-letter errors,
    malformed entries, lost reads, lock expiries, ambiguous handler appends and trims of undelivered
    entries, every published event id ends with exactly one terminal append. */
module ExactlyOnce {
  import opened Common
  import opened Queue
  import opened Processor
  import opened Pipeline
  import opened Passes
  import opened Appends
  import opened Results
  import opened Guarantees

  /** Handler calls may fail and publishes and acks may fail in any way; the rest must go well. */
  ghost predicate Clean(c: Cfg, s: Sys, e: Event) {
    match e
    case EvPublish(_, _, _, f, _) => f <= s.q.Head()
    case EvInject(v, f, _) => f <= s.q.Head() && ExtractEnvelope(v).Ok?
    case EvTrim(f) => f <= s.q.Head()
    case EvCrash(_) => false
    case EvCancel(_) => false
    case EvRead(_, lostReply) => !lostReply
    case EvGate(w, answer) =>
      GateReply(c, answer).Done? && answer.Direct? &&
      (w in s.workers && s.workers[w].pc.Gate? && s.workers[w].pc.env.eventID in s.store.locks ==>
          Locked(s.store, s.workers[w].pc.env.eventID))
    case EvHandler(_, reply) => !reply.Ambiguous?
    case EvDead(_, reply) => reply.Done?
    case EvResend(_) => false
    case _ => true
  }

  ghost predicate CleanRun(c: Cfg, s0: Sys, es: seq<Event>)
    requires IsRun(c, s0, es)
  {
    es == [] || (CleanRun(c, s0, es[..|es| - 1]) && Clean(c, After(c, s0, es[..|es| - 1]), es[|es| - 1]))
  }

  /** An append was made by passage k. */
  ghost predicate Landed(s: Sys, k: nat) { exists i :: 0 <= i < |s.tags| && s.tags[i].pass == k }

  ghost predicate Owned(s: Sys, k: nat) { exists w :: OwnedBy(s, w, k) }

  ghost predicate Held(s: Sys, p: nat) { exists w :: Holder(s, w, p) }

  ghost predicate CleanInv(s: Sys) {
    && s.q.lost == {} && s.stray == {}
    && (forall p :: s.q.base <= p < s.q.Head() ==> p in s.done || Held(s, p))
    && (forall p :: s.q.base <= p < |s.q.log| ==> EnvAt(s.q, p).Ok?)
    && (forall p :: p in s.done ==> s.done[p].IsNil())
    && (forall w :: w in s.workers && s.workers[w].pc.Finish? ==> s.workers[w].pc.ret.IsNil())
    && (forall j, k :: 0 <= j < k < |s.passes| ==> s.passes[j].eventID != s.passes[k].eventID)
    && (forall k :: 0 <= k < |s.passes| ==> Owned(s, k) || Landed(s, k))
    && (forall i :: 0 <= i < |s.tags| ==> s.tags[i].sure)
  }

  /** Every delivered entry stays with the worker that holds it until it is finished. */
  lemma HeldKept(s: Sys, s': Sys, from: nat)
    requires CleanInv(s)
    requires s'.q.base == s.q.base && s.done.Keys <= s'.done.Keys
    requires forall p :: from <= p < s'.q.Head() ==> Held(s', p)
    requires from == s.q.Head()
    requires forall w, p: nat :: Holder(s, w, p) ==> Holder(s', w, p) || p in s'.done
    ensures forall p :: s'.q.base <= p < s'.q.Head() ==> p in s'.done || Held(s', p)
  {
    forall p | s'.q.base <= p < s'.q.Head() ensures p in s'.done || Held(s', p) {
      if p < from && p !in s.done {
        var w :| Holder(s, w, p);
        assert Holder(s', w, p) || p in s'.done;
      }
    }
  }

  lemma HeldStepRead(c: Cfg, s: Sys, w: nat)
    requires CleanInv(s) && s.q.Valid() && Enabled(c, s, EvRead(w, false))
    ensures var s' := Next(c, s, EvRead(w, false));
            && (forall p :: s'.q.base <= p < s'.q.Head() ==> p in s'.done || Held(s', p))
            && s'.q.lost == {} && s'.q.base == s.q.base
  {
    var s' := Next(c, s, EvRead(w, false));
    forall p | s.q.Head() <= p < s'.q.Head() ensures Held(s', p) {
      assert Holder(s', w, p);
    }
    HeldKept(s, s', s.q.Head());
  }

  /** Producers, clocks, new workers and acks deliver nothing. */
  lemma HeldStepOther(c: Cfg, s: Sys, e: Event)
    requires Inv(c, s) && CleanInv(s) && Enabled(c, s, e) && Clean(c, s, e) && !e.EvRead? && !Processes(e)
    ensures var q' := Next(c, s, e).q;
            q'.Head() == s.q.Head() && q'.lost == {} && q'.base == s.q.base
    ensures forall w, p: nat :: Holder(s, w, p) ==> Holder(Next(c, s, e), w, p) || p in Next(c, s, e).done
    ensures s.done.Keys <= Next(c, s, e).done.Keys
  {
  }

  lemma HeldStep(c: Cfg, s: Sys, e: Event)
    requires Inv(c, s) && CleanInv(s) && Enabled(c, s, e) && Clean(c, s, e)
    ensures var s' := Next(c, s, e);
            && (forall p :: s'.q.base <= p < s'.q.Head() ==> p in s'.done || Held(s', p))
            && s'.q.lost == {} && s'.q.base == s.q.base
  {
    var s' := Next(c, s, e);
    if e.EvRead? {
      HeldStepRead(c, s, e.w);
    } else if Processes(e) {
      ProcessFrame(c, s, e);
      HeldKept(s, s', s.q.Head());
    } else {
      HeldStepOther(c, s, e);
      HeldKept(s, s', s.q.Head());
    }
  }

  lemma WellFormedStep(c: Cfg, s: Sys, e: Event)
    requires s.q.Valid() && CleanInv(s) && Enabled(c, s, e) && Clean(c, s, e)
    ensures var q' := Next(c, s, e).q;
            forall p :: q'.base <= p < |q'.log| ==> EnvAt(q', p).Ok?
  {
    LogGrows(c, s, e);
    var q' := Next(c, s, e).q;
    forall p | q'.base <= p < |q'.log| ensures EnvAt(q', p).Ok? {
      if p < |s.q.log| {
        EnvStable(s.q, q', p);
      } else if e.EvPublish? {
        EnvelopeRoundTrip(Envelope(e.eventID, e.tenantID, e.body), None);
      }
    }
  }

  /** A well-formed entry does not stop a worker that begins it. */
  lemma BeginsWell(c: Cfg, s: Sys, w: nat)
    requires Inv(c, s) && CleanInv(s) && Enabled(c, s, EvBegin(w))
    ensures Next(c, s, EvBegin(w)).workers[w].pc.Gate?
  {
    var wk := s.workers[w];
    assert Holder(s, w, wk.cur);
    assert s.q.Classified(wk.cur);
    assert EnvAt(s.q, wk.cur).Ok?;
  }

  /** Nobody returns an error. */
  lemma NilStepProcess(c: Cfg, s: Sys, e: Event)
    requires Inv(c, s) && CleanInv(s) && Enabled(c, s, e) && Clean(c, s, e) && Processes(e)
    ensures Next(c, s, e).workers[e.w].pc.Finish? ==> Next(c, s, e).workers[e.w].pc.ret.IsNil()
  {
    if e.EvBegin? {
      BeginsWell(c, s, e.w);
    }
  }

  lemma NilStep(c: Cfg, s: Sys, e: Event)
    requires Inv(c, s) && CleanInv(s) && Enabled(c, s, e) && Clean(c, s, e)
    ensures var s' := Next(c, s, e);
            && (forall p :: p in s'.done ==> s'.done[p].IsNil())
            && (forall w :: w in s'.workers && s'.workers[w].pc.Finish? ==> s'.workers[w].pc.ret.IsNil())
  {
    if Processes(e) {
      ProcessFrame(c, s, e);
      NilStepProcess(c, s, e);
    }
  }

  /** A passage is in progress or has landed. */
  lemma LandedKept(s: Sys, s': Sys)
    requires CleanInv(s)
    requires |s'.passes| == |s.passes| && s'.tags == s.tags
    requires forall w, k: nat :: OwnedBy(s, w, k) ==> OwnedBy(s', w, k)
    ensures forall k :: 0 <= k < |s'.passes| ==> Owned(s', k) || Landed(s', k)
  {
    forall k | 0 <= k < |s'.passes| ensures Owned(s', k) || Landed(s', k) {
      if Owned(s, k) {
        var w :| OwnedBy(s, w, k);
        assert OwnedBy(s', w, k);
      } else {
        var i :| 0 <= i < |s.tags| && s.tags[i].pass == k;
        assert s'.tags[i].pass == k;
      }
    }
  }

  /** A passage that its worker stops owning has landed, and a new one is owned. */
  lemma LandedMoved(s: Sys, s': Sys, w: nat)
    requires CleanInv(s) && w in s.workers && w in s'.workers
    requires s'.workers == s.workers[w := s'.workers[w]]
    requires |s.passes| <= |s'.passes| && s.tags <= s'.tags
    requires forall k :: |s.passes| <= k < |s'.passes| ==> OwnedBy(s', w, k)
    requires s.workers[w].pc.Owns() ==> Landed(s', s.workers[w].pc.pass) || OwnedBy(s', w, s.workers[w].pc.pass)
    ensures forall k :: 0 <= k < |s'.passes| ==> Owned(s', k) || Landed(s', k)
  {
    forall k | 0 <= k < |s'.passes| ensures Owned(s', k) || Landed(s', k) {
      if k >= |s.passes| {
        assert OwnedBy(s', w, k);
      } else if Landed(s, k) {
        var i :| 0 <= i < |s.tags| && s.tags[i].pass == k;
        assert s'.tags[i].pass == k;
      } else {
        var v :| OwnedBy(s, v, k);
        if v != w {
          assert OwnedBy(s', v, k);
        }
      }
    }
  }

  lemma LandedStepProcess(c: Cfg, s: Sys, e: Event)
    requires Inv(c, s) && CleanInv(s) && Enabled(c, s, e) && Clean(c, s, e)
    requires e.EvGate? || e.EvHandler? || e.EvDead?
    ensures var s' := Next(c, s, e);
            forall k :: 0 <= k < |s'.passes| ==> Owned(s', k) || Landed(s', k)
  {
    var s' := Next(c, s, e);
    ProcessFrame(c, s, e);
    if e.EvHandler? || e.EvDead? {
      var pass := s.workers[e.w].pc.pass;
      assert OwnedBy(s', e.w, pass) || s'.tags[|s.tags|].pass == pass;
    }
    LandedMoved(s, s', e.w);
  }

  lemma LandedStep(c: Cfg, s: Sys, e: Event)
    requires Inv(c, s) && CleanInv(s) && Enabled(c, s, e) && Clean(c, s, e)
    ensures var s' := Next(c, s, e);
            forall k :: 0 <= k < |s'.passes| ==> Owned(s', k) || Landed(s', k)
  {
    if e.EvGate? || e.EvHandler? || e.EvDead? {
      LandedStepProcess(c, s, e);
    } else {
      LandedKept(s, Next(c, s, e));
    }
  }

  lemma SureStep(c: Cfg, s: Sys, e: Event)
    requires Inv(c, s) && CleanInv(s) && Enabled(c, s, e) && Clean(c, s, e)
    ensures var s' := Next(c, s, e);
            && s'.stray == {}
            && (forall i :: 0 <= i < |s'.tags| ==> s'.tags[i].sure)
            && (forall j, k :: 0 <= j < k < |s'.passes| ==> s'.passes[j].eventID != s'.passes[k].eventID)
  {
    var s' := Next(c, s, e);
    forall j, k | 0 <= j < k < |s'.passes| ensures s'.passes[j].eventID != s'.passes[k].eventID {
      assert s'.passes[j].eventID == s.passes[j].eventID;
      assert LockOk(c, s, j);
    }
  }

  lemma CleanStep(c: Cfg, s: Sys, e: Event)
    requires Inv(c, s) && CleanInv(s) && Enabled(c, s, e) && Clean(c, s, e)
    ensures CleanInv(Next(c, s, e))
  {
    HeldStep(c, s, e);
    WellFormedStep(c, s, e);
    NilStep(c, s, e);
    LandedStep(c, s, e);
    SureStep(c, s, e);
  }

  lemma {:induction false} CleanReachable(c: Cfg, s0: Sys, es: seq<Event>)
    requires IsRun(c, s0, es) && CleanRun(c, s0, es)
    ensures CleanInv(After(c, s0, es))
  {
    if es != [] {
      var before := es[..|es| - 1];
      CleanReachable(c, s0, before);
      Reachable(c, s0, before);
      CleanStep(c, After(c, s0, before), es[|es| - 1]);
    }
  }

  /** Nothing waits in the stream and every worker is back at its read. */
  ghost predicate Quiescent(s: Sys) {
    && s.q.Lag() == 0
    && forall w :: w in s.workers ==> s.workers[w].pc.Fetch? && s.workers[w].cur >= s.workers[w].end
  }

  /** The terminal appends, to any tenant stream or to the dead-letter stream, made for an event id. */
  ghost function TerminalsOf(s: Sys, id: GoString): set<nat> {
    set i: nat | i < |s.tags| && s.tags[i].pass < |s.passes| && s.passes[s.tags[i].pass].eventID == id
  }

  /** Before quiescence already, no event id ever has two terminal appends. */
  lemma AtMostOneTerminal(c: Cfg, s0: Sys, es: seq<Event>, id: GoString)
    requires IsRun(c, s0, es) && CleanRun(c, s0, es)
    ensures |TerminalsOf(After(c, s0, es), id)| <= 1
  {
    Reachable(c, s0, es);
    CleanReachable(c, s0, es);
    var s := After(c, s0, es);
    var t := TerminalsOf(s, id);
    if t != {} {
      var i :| i in t;
      forall j | j in t ensures j == i {
        SameTerminal(c, s, i, j);
      }
      assert t == {i};
    }
  }

  lemma SameTerminal(c: Cfg, s: Sys, i: nat, j: nat)
    requires Inv(c, s) && CleanInv(s)
    requires i < |s.tags| && j < |s.tags|
    requires s.tags[i].pass < |s.passes| && s.tags[j].pass < |s.passes|
    requires s.passes[s.tags[i].pass].eventID == s.passes[s.tags[j].pass].eventID
    ensures i == j
  {
    assert s.tags[i].pass == s.tags[j].pass;
  }

  /** Exactly once: at quiescence a published event id has exactly one terminal append, and it carries
      the tenant and payload of an entry published under that id. */
  lemma {:induction false} ExactlyOneTerminal(c: Cfg, s0: Sys, es: seq<Event>, p: nat) returns (i: nat, from: nat)
    requires IsRun(c, s0, es) && CleanRun(c, s0, es) && Quiescent(After(c, s0, es))
    requires |s0.q.log| <= p < |After(c, s0, es).q.log|
    ensures var s := After(c, s0, es);
            && EnvAt(s.q, p).Ok? && i < |s.store.appends|
            && TerminalsOf(s, EnvAt(s.q, p).value.eventID) == {i}
            && |s0.q.log| <= from < |s.q.log| && EnvAt(s.q, from).Ok?
            && var env := EnvAt(s.q, from).value;
               && env.eventID == EnvAt(s.q, p).value.eventID
               && (|| s.store.appends[i] == TenantAppend(c, env)
                   || exists err :: s.store.appends[i] == DlqAppend(env, err))
  {
    Reachable(c, s0, es);
    CleanReachable(c, s0, es);
    BaseFixed(c, s0, es);
    var s := After(c, s0, es);
    var id := EnvAt(s.q, p).value.eventID;
    var k := FinishedHasPass(c, s, p);
    assert Landed(s, k);
    i :| 0 <= i < |s.tags| && s.tags[i].pass == k;
    AtMostOneTerminal(c, s0, es, id);
    forall j | j in TerminalsOf(s, id) ensures j == i { SameTerminal(c, s, i, j); }
    assert i in TerminalsOf(s, id);
    assert TerminalsOf(s, id) == {i};
    assert AppendOk(c, s, i);
    assert PassOk(c, s, k);
    from := s.passes[k].pos;
    PassesAfterBase(c, s0, es, k);
  }

  /** At quiescence every delivered entry's event id has passed the gate. */
  lemma FinishedHasPass(c: Cfg, s: Sys, p: nat) returns (k: nat)
    requires Inv(c, s) && CleanInv(s) && Quiescent(s) && s.q.base <= p < |s.q.log|
    ensures EnvAt(s.q, p).Ok? && k < |s.passes| && s.passes[k].eventID == EnvAt(s.q, p).value.eventID
    ensures !Owned(s, k)
  {
    assert EnvAt(s.q, p).Ok?;
    assert !Held(s, p);
    assert p in s.done && RetOk(s, p, s.done[p]);
    var id := EnvAt(s.q, p).value.eventID;
    if s.done[p].Duplicate? {
      assert id in s.store.locks;
      k :| 0 <= k < |s.passes| && s.passes[k].eventID == id;
    } else {
      var j: nat :| SureFor(s, j, p, s.done[p].DeadLettered?);
      k := s.tags[j].pass;
      assert PassOk(c, s, k);
    }
  }

  /** Some append was made while processing this very entry. */
  ghost predicate HasOwn(s: Sys, p: nat) { exists i: nat :: MadeFor(s, i, p) }

  /** The lock is keyed by the event id alone, so of the entries published under one id, by whatever
      tenants, exactly one gets an append of its own at quiescence: the one whose worker found the id
      unlocked, that is the one whose ProcessMessage did not return as a duplicate. */
  lemma OwnTerminalIff(c: Cfg, s0: Sys, es: seq<Event>, p: nat)
    requires IsRun(c, s0, es) && CleanRun(c, s0, es) && Quiescent(After(c, s0, es))
    requires |s0.q.log| <= p < |After(c, s0, es).q.log|
    ensures var s := After(c, s0, es);
            && EnvAt(s.q, p).Ok? && p in s.done
            && (HasOwn(s, p) <==> s.done[p] != Duplicate)
            && exists k :: 0 <= k < |s.passes| && OnlyPassOf(s, k, EnvAt(s.q, p).value.eventID)
                           && (HasOwn(s, p) <==> s.passes[k].pos == p)
  {
    Reachable(c, s0, es);
    CleanReachable(c, s0, es);
    BaseFixed(c, s0, es);
    var s := After(c, s0, es);
    var k := FinishedHasPass(c, s, p);
    assert OnlyPassOf(s, k, EnvAt(s.q, p).value.eventID);
    OwnIffNotDuplicate(c, s, p);
    if s.passes[k].pos == p {
      assert MadeAt(s, p);
    } else if HasOwn(s, p) {
      var i: nat :| MadeFor(s, i, p);
      assert PassOk(c, s, s.tags[i].pass);
    }
  }

  ghost predicate OnlyPassOf(s: Sys, k: nat, id: GoString) {
    && k < |s.passes| && s.passes[k].eventID == id
    && forall j :: 0 <= j < |s.passes| && s.passes[j].eventID == id ==> j == k
  }

  lemma OwnIffNotDuplicate(c: Cfg, s: Sys, p: nat)
    requires Inv(c, s) && CleanInv(s) && Quiescent(s) && s.q.base <= p < |s.q.log|
    ensures p in s.done && (HasOwn(s, p) <==> s.done[p] != Duplicate) && (MadeAt(s, p) <==> HasOwn(s, p))
  {
    assert !Held(s, p);
    assert p in s.done && RetOk(s, p, s.done[p]) && s.done[p].IsNil();
    if s.done[p].Duplicate? {
      assert !MadeAt(s, p);
    } else {
      var j: nat :| SureFor(s, j, p, s.done[p].DeadLettered?);
      assert MadeFor(s, j, p);
    }
    OwnIsMade(s, p);
  }

  lemma OwnIsMade(s: Sys, p: nat)
    ensures HasOwn(s, p) ==> MadeAt(s, p)
  {
    if i: nat :| MadeFor(s, i, p) {
      assert s.passes[s.tags[i].pass].pos == p;
    }
  }
}
