/** The sequential method and the state machine agree: a worker that runs undisturbed in the machine does
    to Redis, step by step, exactly what ProcessMessage is proved to do. */
module SoloRun {
  import opened Common
  import opened Backoff
  import opened Processor
  import opened Pipeline

  ghost predicate CanRun(c: Cfg, s0: Sys, es: seq<Event>, w: nat) {
    Exec(c, s0, es).Some? && w in Exec(c, s0, es).value.workers
  }

  /** Worker w has moved, and nothing else but the store and the history. */
  ghost predicate OnlyWorker(s: Sys, s': Sys, w: nat) {
    && w in s.workers && w in s'.workers && s'.q == s.q && s'.done == s.done
    && s'.workers == s.workers[w := s.workers[w].(pc := s'.workers[w].pc)]
  }

  lemma OnlyWorkerTwice(s: Sys, s': Sys, s'': Sys, w: nat)
    requires OnlyWorker(s, s', w) && OnlyWorker(s', s'', w)
    ensures OnlyWorker(s, s'', w)
  {
  }

  /** After the events, which started at s for worker w, it has returned r's value with r's store. */
  ghost predicate Returned(c: Cfg, s0: Sys, es: seq<Event>, s: Sys, w: nat, r: Processed) {
    && Exec(c, s0, es).Some? && OnlyWorker(s, Exec(c, s0, es).value, w)
    && Ended(Exec(c, s0, es).value, w, r)
  }

  ghost predicate Ended(s: Sys, w: nat, r: Processed) {
    w in s.workers && s.store == r.store && s.workers[w].pc == Finish(r.ret)
  }

  lemma SoloDispatch(c: Cfg, s0: Sys, es: seq<Event>, w: nat, attempt: nat, sc: Script) returns (es': seq<Event>)
    requires CanRun(c, s0, es, w) && Exec(c, s0, es).value.workers[w].pc.Dead?
    requires attempt > c.maxRetries && attempt >= 1
    ensures var s := Exec(c, s0, es).value;
            Returned(c, s0, es', s, w, Retry(c, s.store, s.workers[w].pc.env, attempt, s.workers[w].pc.lastErr, sc))
  {
    ExecSnoc(c, s0, es, EvDead(w, sc.dlq));
    es' := es + [EvDead(w, sc.dlq)];
  }

  /** One handler call of the given duration. */
  lemma SoloCall(c: Cfg, s0: Sys, es: seq<Event>, w: nat, sc: Script) returns (es': seq<Event>)
    requires CanRun(c, s0, es, w) && Exec(c, s0, es).value.workers[w].pc.Call?
    ensures CanRun(c, s0, es', w)
    ensures var s, s' := Exec(c, s0, es).value, Exec(c, s0, es').value;
            var pc := s.workers[w].pc;
            var reply := HandlerReply(c, pc.env, sc.calls(pc.attempt));
            && OnlyWorker(s, s', w)
            && s'.store == Handled(c, Later(s.store, sc.took(pc.attempt)), pc.env, sc.calls(pc.attempt))
            && s'.workers[w].pc ==
               if reply.Done? then Finish(Delivered)
               else if pc.attempt < c.maxRetries then
                 Sleep(pc.env, pc.pass, pc.attempt, reply.error,
                       s'.store.now + if pc.attempt >= 1 then SleepNs(c.baseMs, pc.attempt) else 0)
               else Dead(pc.env, pc.pass, Some(reply.error))
  {
    var attempt := Exec(c, s0, es).value.workers[w].pc.attempt;
    ExecSnoc(c, s0, es, EvTick(sc.took(attempt)));
    es' := es + [EvTick(sc.took(attempt))];
    ExecSnoc(c, s0, es', EvHandler(w, sc.calls(attempt)));
    es' := es' + [EvHandler(w, sc.calls(attempt))];
  }

  /** The pause after a failed attempt and the start of the next call. */
  lemma SoloPause(c: Cfg, s0: Sys, es: seq<Event>, w: nat, pause: nat) returns (es': seq<Event>)
    requires CanRun(c, s0, es, w) && Exec(c, s0, es).value.workers[w].pc.Sleep?
    requires Exec(c, s0, es).value.workers[w].pc.until == Exec(c, s0, es).value.store.now + pause
    ensures CanRun(c, s0, es', w)
    ensures var s, s' := Exec(c, s0, es).value, Exec(c, s0, es').value;
            var pc := s.workers[w].pc;
            && OnlyWorker(s, s', w)
            && s'.store == Later(s.store, pause)
            && s'.workers[w].pc == Call(pc.env, pc.pass, pc.attempt + 1, s'.store.now)
  {
    ExecSnoc(c, s0, es, EvTick(pause));
    es' := es + [EvTick(pause)];
    ExecSnoc(c, s0, es', EvWake(w));
    es' := es' + [EvWake(w)];
  }

  /** The attempt fails and is followed by another one. */
  predicate Again(c: Cfg, env: Envelope, attempt: nat, sc: Script) {
    !HandlerReply(c, env, sc.calls(attempt)).Done? && attempt < c.maxRetries && !sc.cancelled(attempt)
  }

  /** The store when the next attempt starts. */
  function NextStore(c: Cfg, st: Store, env: Envelope, attempt: nat, sc: Script): Store
    requires attempt >= 1
  {
    Later(Handled(c, Later(st, sc.took(attempt)), env, sc.calls(attempt)), SleepNs(c.baseMs, attempt))
  }

  lemma RetryAgain(c: Cfg, st: Store, env: Envelope, attempt: nat, lastErr: Option<GoString>, sc: Script)
    requires attempt >= 1 && Again(c, env, attempt, sc)
    ensures var r := Retry(c, st, env, attempt, lastErr, sc);
            var err := Some(HandlerReply(c, env, sc.calls(attempt)).error);
            var r' := Retry(c, NextStore(c, st, env, attempt, sc), env, attempt + 1, err, sc);
            r.store == r'.store && r.ret == r'.ret
  {
  }

  lemma SoloAgain(c: Cfg, s0: Sys, es: seq<Event>, w: nat, attempt: nat, sc: Script) returns (es': seq<Event>)
    requires CanRun(c, s0, es, w) && Exec(c, s0, es).value.workers[w].pc.Call?
    requires Exec(c, s0, es).value.workers[w].pc.attempt == attempt >= 1
    requires Again(c, Exec(c, s0, es).value.workers[w].pc.env, attempt, sc)
    ensures CanRun(c, s0, es', w)
    ensures var s, s' := Exec(c, s0, es).value, Exec(c, s0, es').value;
            var pc, pc' := s.workers[w].pc, s'.workers[w].pc;
            && OnlyWorker(s, s', w)
            && pc'.Call? && pc'.env == pc.env && pc'.attempt == attempt + 1
            && s'.store == NextStore(c, s.store, pc.env, attempt, sc)
  {
    var es1 := SoloCall(c, s0, es, w, sc);
    es' := SoloPause(c, s0, es1, w, SleepNs(c.baseMs, attempt));
    OnlyWorkerTwice(Exec(c, s0, es).value, Exec(c, s0, es1).value, Exec(c, s0, es').value, w);
  }

  /** The last attempt: it succeeds, or it is cancelled in its pause, or the dead-letter append follows. */
  lemma SoloLast(c: Cfg, s0: Sys, es: seq<Event>, w: nat, attempt: nat, lastErr: Option<GoString>, sc: Script)
    returns (es': seq<Event>)
    requires CanRun(c, s0, es, w) && Exec(c, s0, es).value.workers[w].pc.Call?
    requires Exec(c, s0, es).value.workers[w].pc.attempt == attempt && 1 <= attempt <= c.maxRetries
    requires !Again(c, Exec(c, s0, es).value.workers[w].pc.env, attempt, sc)
    ensures var s := Exec(c, s0, es).value;
            Returned(c, s0, es', s, w, Retry(c, s.store, s.workers[w].pc.env, attempt, lastErr, sc))
  {
    var env := Exec(c, s0, es).value.workers[w].pc.env;
    var es1 := SoloCall(c, s0, es, w, sc);
    es' := es1;
    if !HandlerReply(c, env, sc.calls(attempt)).Done? {
      if attempt == c.maxRetries {
        es' := SoloDispatch(c, s0, es1, w, attempt + 1, sc);
      } else {
        ExecSnoc(c, s0, es1, EvCancel(w));
        es' := es1 + [EvCancel(w)];
      }
      OnlyWorkerTwice(Exec(c, s0, es).value, Exec(c, s0, es1).value, Exec(c, s0, es').value, w);
    }
  }

  ghost predicate Gets(c: Cfg, s0: Sys, s: Sys) { exists es :: Exec(c, s0, es) == Some(s) }

  /** The states that events lead to, as data: the recursion over attempts then speaks of membership only and
      its proof does not unfold the events. */
  ghost predicate AllGot(c: Cfg, s0: Sys, all: iset<Sys>) {
    forall s {:trigger Gets(c, s0, s)} :: s in all <==> Gets(c, s0, s)
  }

  ghost predicate InCall(s: Sys, w: nat, env: Envelope, attempt: nat) {
    w in s.workers && s.workers[w].pc.Call? && s.workers[w].pc.env == env && s.workers[w].pc.attempt == attempt
  }

  lemma SoloAttempt(c: Cfg, s0: Sys, all: iset<Sys>, s: Sys, w: nat, env: Envelope, attempt: nat,
    lastErr: Option<GoString>, sc: Script)
    returns (s': Sys)
    requires AllGot(c, s0, all) && s in all && InCall(s, w, env, attempt) && 1 <= attempt <= c.maxRetries
    ensures s' in all && OnlyWorker(s, s', w)
    ensures if Again(c, env, attempt, sc)
            then InCall(s', w, env, attempt + 1) && s'.store == NextStore(c, s.store, env, attempt, sc)
            else Ended(s', w, Retry(c, s.store, env, attempt, lastErr, sc))
  {
    assert Gets(c, s0, s);
    var es :| Exec(c, s0, es) == Some(s);
    if Again(c, env, attempt, sc) {
      es := SoloAgain(c, s0, es, w, attempt, sc);
    } else {
      es := SoloLast(c, s0, es, w, attempt, lastErr, sc);
    }
    s' := Exec(c, s0, es).value;
    assert Gets(c, s0, s');
  }

  lemma {:induction false} SoloAttempts(c: Cfg, s0: Sys, all: iset<Sys>, s: Sys, w: nat, env: Envelope, attempt: nat,
    lastErr: Option<GoString>, sc: Script)
    returns (s': Sys)
    requires AllGot(c, s0, all) && s in all && InCall(s, w, env, attempt) && 1 <= attempt <= c.maxRetries
    ensures s' in all && OnlyWorker(s, s', w) && Ended(s', w, Retry(c, s.store, env, attempt, lastErr, sc))
    decreases c.maxRetries - attempt
  {
    var s1 := SoloAttempt(c, s0, all, s, w, env, attempt, lastErr, sc);
    s' := s1;
    if Again(c, env, attempt, sc) {
      RetryAgain(c, s.store, env, attempt, lastErr, sc);
      s' := SoloAttempts(c, s0, all, s1, w, env, attempt + 1, Some(HandlerReply(c, env, sc.calls(attempt)).error), sc);
      OnlyWorkerTwice(s, s1, s', w);
    }
  }

  lemma SoloRetry(c: Cfg, s0: Sys, es: seq<Event>, w: nat, attempt: nat, lastErr: Option<GoString>, sc: Script)
    returns (es': seq<Event>)
    requires CanRun(c, s0, es, w) && Exec(c, s0, es).value.workers[w].pc.Call?
    requires Exec(c, s0, es).value.workers[w].pc.attempt == attempt && 1 <= attempt <= c.maxRetries
    ensures var s := Exec(c, s0, es).value;
            Returned(c, s0, es', s, w, Retry(c, s.store, s.workers[w].pc.env, attempt, lastErr, sc))
  {
    var all := iset s | Gets(c, s0, s);
    var s := Exec(c, s0, es).value;
    assert Gets(c, s0, s);
    var s' := SoloAttempts(c, s0, all, s, w, s.workers[w].pc.env, attempt, lastErr, sc);
    es' :| Exec(c, s0, es') == Some(s');
  }

  /** From the entry in hand to the return value. */
  lemma {:induction false} SoloProcess(c: Cfg, s0: Sys, es: seq<Event>, w: nat, sc: Script) returns (es': seq<Event>)
    requires CanRun(c, s0, es, w) && Enabled(c, Exec(c, s0, es).value, EvBegin(w))
    ensures var s := Exec(c, s0, es).value;
            Returned(c, s0, es', s, w, Process(c, s.store, EntryAt(s.q, s.workers[w].cur), sc))
  {
    var s := Exec(c, s0, es).value;
    ExecSnoc(c, s0, es, EvBegin(w));
    es' := es + [EvBegin(w)];
    var s1 := Exec(c, s0, es').value;
    assert OnlyWorker(s, s1, w);
    if EnvAt(s.q, s.workers[w].cur).Ok? {
      es' := SoloGate(c, s0, es', w, sc);
      OnlyWorkerTwice(s, s1, Exec(c, s0, es').value, w);
    }
  }

  lemma SoloGate(c: Cfg, s0: Sys, es: seq<Event>, w: nat, sc: Script) returns (es': seq<Event>)
    requires CanRun(c, s0, es, w) && Exec(c, s0, es).value.workers[w].pc.Gate?
    ensures var s := Exec(c, s0, es).value;
            var env := s.workers[w].pc.env;
            var st := SetNX(c, s.store, env.eventID, sc.gate);
            Returned(c, s0, es', s, w,
                     if !GateReply(c, sc.gate).Done? then Processed(st, GateFailed, 0, 0)
                     else if !Acquires(c, s.store, env.eventID, sc.gate) then Processed(st, Duplicate, 0, 0)
                     else Retry(c, st, env, 1, None, sc))
  {
    var s := Exec(c, s0, es).value;
    ExecSnoc(c, s0, es, EvGate(w, sc.gate));
    es' := es + [EvGate(w, sc.gate)];
    var s1 := Exec(c, s0, es').value;
    assert OnlyWorker(s, s1, w);
    if GateReply(c, sc.gate).Done? && Acquires(c, s.store, s.workers[w].pc.env.eventID, sc.gate) {
      if c.maxRetries >= 1 {
        es' := SoloRetry(c, s0, es', w, 1, None, sc);
      } else {
        es' := SoloDispatch(c, s0, es', w, 1, sc);
      }
      OnlyWorkerTwice(s, s1, Exec(c, s0, es').value, w);
    }
  }
}
