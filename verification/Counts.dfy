/** How much one lock lifetime can append: every append of a gate passage is paid for by one of its handler
    calls, by its dead-letter attempt, or by a command that the client library sent again. */
module Counts {
  import opened Common
  import opened Processor
  import opened Pipeline
  import opened Passes
  import opened Appends
  import opened Results

  /** The appends made by passage k. */
  function Made(tags: seq<Tag>, k: nat): nat {
    if tags == [] then 0
    else Made(tags[..|tags| - 1], k) + if tags[|tags| - 1].pass == k then 1 else 0
  }

  /** The dead letters among them. */
  function DeadMade(tags: seq<Tag>, appends: seq<Append>, k: nat): nat
    requires |tags| == |appends|
  {
    if tags == [] then 0
    else
      var n := |tags| - 1;
      DeadMade(tags[..n], appends[..n], k) + if tags[n].pass == k && appends[n].target.Dlq? then 1 else 0
  }

  lemma MadeSnoc(tags: seq<Tag>, appends: seq<Append>, t: Tag, a: Append, k: nat)
    requires |tags| == |appends|
    ensures Made(tags + [t], k) == Made(tags, k) + if t.pass == k then 1 else 0
    ensures DeadMade(tags + [t], appends + [a], k) ==
            DeadMade(tags, appends, k) + if t.pass == k && a.target.Dlq? then 1 else 0
  {
    assert (tags + [t])[..|tags|] == tags && (appends + [a])[..|appends|] == appends;
  }

  lemma {:induction false} MadeNone(tags: seq<Tag>, appends: seq<Append>, k: nat)
    requires |tags| == |appends| && forall i :: 0 <= i < |tags| ==> tags[i].pass != k
    ensures Made(tags, k) == 0 && DeadMade(tags, appends, k) == 0
  {
    if tags != [] {
      MadeNone(tags[..|tags| - 1], appends[..|tags| - 1], k);
    }
  }

  lemma {:induction false} DeadAmongMade(tags: seq<Tag>, appends: seq<Append>, k: nat, i: nat, j: nat)
    requires |tags| == |appends| && i < j < |tags| && tags[i].pass == tags[j].pass == k
    requires appends[i].target.Dlq? && appends[j].target.Dlq?
    ensures DeadMade(tags, appends, k) >= 2
  {
    var n := |tags| - 1;
    if j < n {
      DeadAmongMade(tags[..n], appends[..n], k, i, j);
    } else {
      OneDeadMade(tags[..n], appends[..n], k, i);
    }
  }

  lemma {:induction false} OneDeadMade(tags: seq<Tag>, appends: seq<Append>, k: nat, i: nat)
    requires |tags| == |appends| && i < |tags| && tags[i].pass == k && appends[i].target.Dlq?
    ensures DeadMade(tags, appends, k) >= 1
  {
    var n := |tags| - 1;
    if i < n {
      OneDeadMade(tags[..n], appends[..n], k, i);
    }
  }

  /** A call of the passage is under way and has not appended for itself yet. */
  ghost predicate Calling(s: Sys, k: nat) {
    exists w :: w in s.workers && s.workers[w].pc.Call? && s.workers[w].pc.pass == k
  }

  ghost predicate CountOk(s: Sys, k: nat)
    requires k < |s.passes| && |s.tags| == |s.store.appends|
  {
    var p := s.passes[k];
    && Made(s.tags, k) + (if Calling(s, k) then 1 else 0) <= p.calls + p.deadTries + p.again
    && DeadMade(s.tags, s.store.appends, k) <= p.deadTries + p.again
  }

  ghost predicate CountInv(s: Sys) {
    |s.tags| == |s.store.appends| && forall k :: 0 <= k < |s.passes| ==> CountOk(s, k)
  }

  /** A passage that the step does not touch. */
  lemma CountKept(s: Sys, s': Sys, k: nat)
    requires k < |s.passes| <= |s'.passes| && |s.tags| == |s.store.appends| && CountOk(s, k)
    requires s'.tags == s.tags && s'.store.appends == s.store.appends
    requires s'.passes[k] == s.passes[k] && (Calling(s', k) ==> Calling(s, k))
    ensures CountOk(s', k)
  {
  }

  /** The passage that a worker owns is called by nobody else. */
  lemma CalledBy(c: Cfg, s: Sys, w: nat, pass: nat)
    requires BatchInv(s) && PassInv(c, s) && OwnedBy(s, w, pass)
    ensures Calling(s, pass) <==> s.workers[w].pc.Call?
  {
    if Calling(s, pass) {
      var v :| v in s.workers && s.workers[v].pc.Call? && s.workers[v].pc.pass == pass;
      SoleOwner(c, s, w, v, pass);
    }
  }

  /** Only worker w has moved, out of or within the passage it owns. */
  ghost predicate Moved(s: Sys, s': Sys, w: nat) {
    && w in s.workers && s.workers[w].pc.Owns() && w in s'.workers
    && s'.workers == s.workers[w := s.workers[w].(pc := s'.workers[w].pc)]
    && (s'.workers[w].pc.Owns() ==> s'.workers[w].pc.pass == s.workers[w].pc.pass)
    && s.workers[w].pc.pass < |s.passes| == |s'.passes|
    && s'.passes == s.passes[s.workers[w].pc.pass := s'.passes[s.workers[w].pc.pass]]
  }

  lemma CallingMoved(c: Cfg, s: Sys, s': Sys, w: nat, k: nat)
    requires BatchInv(s) && PassInv(c, s) && Moved(s, s', w)
    ensures Calling(s', k) <==> if k == s.workers[w].pc.pass then s'.workers[w].pc.Call? else Calling(s, k)
  {
    var pass := s.workers[w].pc.pass;
    assert OwnedBy(s, w, pass);
    if v :| v in s'.workers && s'.workers[v].pc.Call? && s'.workers[v].pc.pass == k {
      if v != w {
        assert s.workers[v].pc.Call? && s.workers[v].pc.pass == k;
        if k == pass { SoleOwner(c, s, w, v, pass); }
      }
    }
    if v :| k != pass && v in s.workers && s.workers[v].pc.Call? && s.workers[v].pc.pass == k {
      assert v != w && s'.workers[v] == s.workers[v];
    }
  }

  /** The passage pays for what its worker did: at most one append more for one count more, or for a call
      that is over. */
  lemma CountMoved(c: Cfg, s: Sys, s': Sys, w: nat, added: bool, a: Append, sure: bool)
    requires BatchInv(s) && PassInv(c, s) && CountInv(s) && Moved(s, s', w)
    requires s'.tags == s.tags + if added then [Tag(s.workers[w].pc.pass, sure)] else []
    requires s'.store.appends == s.store.appends + if added then [a] else []
    requires var p, p' := s.passes[s.workers[w].pc.pass], s'.passes[s.workers[w].pc.pass];
             && p.deadTries + p.again <= p'.deadTries + p'.again && p.calls <= p'.calls
             && (added && a.target.Dlq? ==> p.deadTries + p.again < p'.deadTries + p'.again)
             && p.calls + p.deadTries + p.again + (if added then 1 else 0)
                + (if s'.workers[w].pc.Call? then 1 else 0)
                <= p'.calls + p'.deadTries + p'.again + (if s.workers[w].pc.Call? then 1 else 0)
    ensures CountInv(s')
  {
    var pass := s.workers[w].pc.pass;
    assert OwnedBy(s, w, pass);
    CalledBy(c, s, w, pass);
    assert s.tags + [] == s.tags && s.store.appends + [] == s.store.appends;
    forall k | 0 <= k < |s'.passes| ensures CountOk(s', k) {
      assert CountOk(s, k);
      CallingMoved(c, s, s', w, k);
      MadeSnoc(s.tags, s.store.appends, Tag(pass, sure), a, k);
    }
  }

  lemma CountGate(c: Cfg, s: Sys, w: nat, answer: Answer)
    requires PassInv(c, s) && AppendInv(c, s) && CountInv(s) && Enabled(c, s, EvGate(w, answer))
    ensures CountInv(Next(c, s, EvGate(w, answer)))
  {
    var s' := Next(c, s, EvGate(w, answer));
    GateShape(c, s, w, answer);
    assert s'.tags == s.tags && s'.store.appends == s.store.appends;
    forall k | 0 <= k < |s'.passes| ensures CountOk(s', k) {
      if k < |s.passes| {
        assert CountOk(s, k);
        if v :| v in s'.workers && s'.workers[v].pc.Call? && s'.workers[v].pc.pass == k {
          assert s.workers[v].pc.Call? && s.workers[v].pc.pass == k;
        }
        CountKept(s, s', k);
      } else {
        forall i | 0 <= i < |s.tags| ensures s.tags[i].pass != k { assert AppendOk(c, s, i); }
        MadeNone(s.tags, s.store.appends, k);
        if v :| v in s'.workers && s'.workers[v].pc.Call? && s'.workers[v].pc.pass == k {
          assert v in s.workers && WorkerOk(c, s, s.workers[v]);
        }
      }
    }
  }

  lemma CountHandler(c: Cfg, s: Sys, w: nat, reply: Reply)
    requires BatchInv(s) && PassInv(c, s) && CountInv(s) && Enabled(c, s, EvHandler(w, reply))
    ensures CountInv(Next(c, s, EvHandler(w, reply)))
  {
    var s' := Next(c, s, EvHandler(w, reply));
    var env := s.workers[w].pc.env;
    var r := HandlerReply(c, env, reply);
    assert WorkerOk(c, s, s.workers[w]);
    CountMoved(c, s, s', w, r.Applied(), TenantAppend(c, env), r.Done?);
  }

  lemma CountDead(c: Cfg, s: Sys, w: nat, reply: Reply)
    requires BatchInv(s) && PassInv(c, s) && CountInv(s) && Enabled(c, s, EvDead(w, reply))
    ensures CountInv(Next(c, s, EvDead(w, reply)))
  {
    var s' := Next(c, s, EvDead(w, reply));
    var pc := s.workers[w].pc;
    assert WorkerOk(c, s, s.workers[w]);
    CountMoved(c, s, s', w, reply.Applied(), DlqAppend(pc.env, pc.lastErr), reply.Done?);
  }

  lemma CountResend(c: Cfg, s: Sys, w: nat)
    requires BatchInv(s) && PassInv(c, s) && CountInv(s) && Enabled(c, s, EvResend(w))
    ensures CountInv(Next(c, s, EvResend(w)))
  {
    var s' := Next(c, s, EvResend(w));
    var pc := s.workers[w].pc;
    assert WorkerOk(c, s, s.workers[w]);
    assert s'.workers == s.workers[w := s.workers[w].(pc := s'.workers[w].pc)];
    if pc.Dead? {
      CountMoved(c, s, s', w, true, DlqAppend(pc.env, pc.lastErr), false);
    } else {
      CountMoved(c, s, s', w, HandlerReply(c, pc.env, LOST).Applied(), TenantAppend(c, pc.env), false);
    }
  }

  lemma CountMove(c: Cfg, s: Sys, e: Event)
    requires BatchInv(s) && PassInv(c, s) && CountInv(s) && Enabled(c, s, e) && (e.EvWake? || e.EvCancel?)
    ensures CountInv(Next(c, s, e))
  {
    var s' := Next(c, s, e);
    assert WorkerOk(c, s, s.workers[e.w]);
    CountMoved(c, s, s', e.w, false, TenantAppend(c, s.workers[e.w].pc.env), false);
  }

  /** The other steps start no call and append nothing. */
  lemma CountOther(c: Cfg, s: Sys, e: Event)
    requires CountInv(s) && Enabled(c, s, e) && (!Processes(e) || e.EvBegin?)
    ensures CountInv(Next(c, s, e))
  {
    var s' := Next(c, s, e);
    assert s'.tags == s.tags && s'.store.appends == s.store.appends && s'.passes == s.passes;
    forall k | 0 <= k < |s'.passes| ensures CountOk(s', k) {
      assert CountOk(s, k);
      if v :| v in s'.workers && s'.workers[v].pc.Call? && s'.workers[v].pc.pass == k {
        assert v in s.workers && s.workers[v].pc.Call? && s.workers[v].pc.pass == k;
      }
      CountKept(s, s', k);
    }
  }

  lemma CountStep(c: Cfg, s: Sys, e: Event)
    requires Inv(c, s) && CountInv(s) && Enabled(c, s, e)
    ensures CountInv(Next(c, s, e))
  {
    if e.EvGate? {
      CountGate(c, s, e.w, e.answer);
    } else if e.EvHandler? {
      CountHandler(c, s, e.w, e.reply);
    } else if e.EvDead? {
      CountDead(c, s, e.w, e.reply);
    } else if e.EvResend? {
      CountResend(c, s, e.w);
    } else if e.EvWake? || e.EvCancel? {
      CountMove(c, s, e);
    } else {
      CountOther(c, s, e);
    }
  }

  lemma {:induction false} CountReachable(c: Cfg, s0: Sys, es: seq<Event>)
    requires IsRun(c, s0, es)
    ensures CountInv(After(c, s0, es))
  {
    if es != [] {
      var before := es[..|es| - 1];
      CountReachable(c, s0, before);
      Reachable(c, s0, before);
      CountStep(c, After(c, s0, before), es[|es| - 1]);
    }
  }
}
