/** What the history of gate passages says about the run: which answers of SET NX were given, and to whom. */
module Gates {
  import opened Common
  import opened Processor
  import opened Pipeline
  import opened Passes
  import opened Appends
  import opened Results

  /** The event is a SET NX for the id. */
  predicate AsksFor(s: Sys, e: Event, id: GoString) {
    e.EvGate? && e.w in s.workers && s.workers[e.w].pc.Gate? && s.workers[e.w].pc.env.eventID == id
  }

  /** It sets the id's lock, and its caller is told so. */
  predicate Grants(c: Cfg, s: Sys, e: Event, id: GoString) {
    AsksFor(s, e, id) && Acquires(c, s.store, id, e.answer)
  }

  /** It sets the id's lock, but its caller is not told: it sees an error, or, having sent the command
      again, a lock that is taken. */
  predicate Strands(c: Cfg, s: Sys, e: Event, id: GoString) {
    AsksFor(s, e, id) && GateReply(c, e.answer).Applied() && !Locked(s.store, id) && !Acquires(c, s.store, id, e.answer)
  }

  /** Some event of the run granted the id's lock. */
  ghost predicate GrantedIn(c: Cfg, s0: Sys, es: seq<Event>, id: GoString)
    requires IsRun(c, s0, es)
  {
    es != [] &&
    (GrantedIn(c, s0, es[..|es| - 1], id) || Grants(c, After(c, s0, es[..|es| - 1]), es[|es| - 1], id))
  }

  /** Some event of the run stranded it. */
  ghost predicate StrandedIn(c: Cfg, s0: Sys, es: seq<Event>, id: GoString)
    requires IsRun(c, s0, es)
  {
    es != [] &&
    (StrandedIn(c, s0, es[..|es| - 1], id) || Strands(c, After(c, s0, es[..|es| - 1]), es[|es| - 1], id))
  }

  lemma GateHistory(c: Cfg, s: Sys, w: nat, answer: Answer, id: GoString)
    requires Enabled(c, s, EvGate(w, answer))
    ensures var e := EvGate(w, answer);
            && (HasPass(Next(c, s, e), id) <==> HasPass(s, id) || Grants(c, s, e, id))
            && (id in Next(c, s, e).stray <==> id in s.stray || Strands(c, s, e, id))
  {
    var s' := Next(c, s, EvGate(w, answer));
    GateShape(c, s, w, answer);
    if HasPass(s, id) {
      var k :| 0 <= k < |s.passes| && s.passes[k].eventID == id;
      assert s'.passes[k].eventID == id;
    }
    if Grants(c, s, EvGate(w, answer), id) {
      assert s'.passes[|s.passes|].eventID == id;
    }
  }

  /** Other events neither make a passage nor rename one. */
  lemma OtherHistory(c: Cfg, s: Sys, e: Event, id: GoString)
    requires Enabled(c, s, e) && !e.EvGate?
    ensures HasPass(Next(c, s, e), id) <==> HasPass(s, id)
    ensures Next(c, s, e).stray == s.stray
  {
    var s' := Next(c, s, e);
    assert |s'.passes| == |s.passes|;
    assert forall k :: 0 <= k < |s.passes| ==> s'.passes[k].eventID == s.passes[k].eventID;
    if HasPass(s, id) {
      var k :| 0 <= k < |s.passes| && s.passes[k].eventID == id;
      assert s'.passes[k].eventID == id;
    }
  }

  /** An event id has a passage exactly when some SET NX of the run set its lock and told its caller, and is
      stray exactly when some SET NX set its lock and did not. */
  lemma {:induction false} GateHistoryIff(c: Cfg, s0: Sys, es: seq<Event>, id: GoString)
    requires IsRun(c, s0, es)
    ensures HasPass(After(c, s0, es), id) <==> GrantedIn(c, s0, es, id)
    ensures id in After(c, s0, es).stray <==> StrandedIn(c, s0, es, id)
  {
    if es != [] {
      var before, e := es[..|es| - 1], es[|es| - 1];
      var s := After(c, s0, before);
      GateHistoryIff(c, s0, before, id);
      if e.EvGate? {
        GateHistory(c, s, e.w, e.answer, id);
      } else {
        OtherHistory(c, s, e, id);
      }
    }
  }

  /** Every answer of SET NX in the run came directly, as a success or as a failure. */
  predicate PlainGates(es: seq<Event>) {
    forall n :: 0 <= n < |es| && es[n].EvGate? ==> es[n].answer.Direct? && !es[n].answer.reply.Ambiguous?
  }

  lemma {:induction false} PlainGatesStrandNothing(c: Cfg, s0: Sys, es: seq<Event>, id: GoString)
    requires IsRun(c, s0, es) && PlainGates(es)
    ensures !StrandedIn(c, s0, es, id)
  {
    if es != [] {
      var before := es[..|es| - 1];
      assert PlainGates(before) by {
        forall n | 0 <= n < |before| && before[n].EvGate?
          ensures before[n].answer.Direct? && !before[n].answer.reply.Ambiguous?
        {
          assert before[n] == es[n];
        }
      }
      PlainGatesStrandNothing(c, s0, before, id);
    }
  }

  // ---- the first handler call ----

  /** A passage starts with a call, unless no attempt is configured. */
  ghost predicate CallsStarted(c: Cfg, s: Sys) {
    c.maxRetries >= 1 ==> forall k :: 0 <= k < |s.passes| ==> s.passes[k].calls >= 1
  }

  lemma {:induction false} CallsReachable(c: Cfg, s0: Sys, es: seq<Event>)
    requires IsRun(c, s0, es)
    ensures CallsStarted(c, After(c, s0, es))
  {
    if es != [] {
      var before, e := es[..|es| - 1], es[|es| - 1];
      var s := After(c, s0, before);
      CallsReachable(c, s0, before);
      if e.EvGate? {
        GateShape(c, s, e.w, e.answer);
      } else {
        CallsKept(c, s, e);
      }
    }
  }

  lemma CallsKept(c: Cfg, s: Sys, e: Event)
    requires Enabled(c, s, e) && !e.EvGate? && CallsStarted(c, s)
    ensures CallsStarted(c, Next(c, s, e))
  {
  }

  /** A handler call was started for the event id. */
  ghost predicate Started(s: Sys, id: GoString) {
    exists k :: 0 <= k < |s.passes| && s.passes[k].eventID == id && s.passes[k].calls >= 1
  }

  lemma StartedIffGranted(c: Cfg, s0: Sys, es: seq<Event>, id: GoString)
    requires IsRun(c, s0, es)
    ensures Started(After(c, s0, es), id) <==> GrantedIn(c, s0, es, id) && c.maxRetries >= 1
  {
    GateHistoryIff(c, s0, es, id);
    CallsReachable(c, s0, es);
    Reachable(c, s0, es);
    var s := After(c, s0, es);
    if HasPass(s, id) && c.maxRetries >= 1 {
      var k :| 0 <= k < |s.passes| && s.passes[k].eventID == id;
      assert s.passes[k].calls >= 1;
    }
    if Started(s, id) {
      var k :| 0 <= k < |s.passes| && s.passes[k].eventID == id && s.passes[k].calls >= 1;
      assert HasPass(s, id) && PassOk(c, s, k);
    }
  }
}
