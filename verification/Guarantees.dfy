/** Safety of every run, whatever crashes, errors, expiries and interleavings it contains. */
module Guarantees {
  import opened Common
  import opened Queue
  import opened Processor
  import opened Pipeline
  import opened Passes
  import opened Appends
  import opened Results
  import opened Counts
  import opened Gates

  /** Entry conservation over whole runs: an entry published since the group exists is in exactly one
      of undelivered, pending, acked and lost-by-trimming, and the shedder's backlog counts the first two. */
  lemma RunConservesEntries(c: Cfg, s0: Sys, es: seq<Event>, p: nat)
    requires IsRun(c, s0, es)
    requires |s0.q.log| <= p < |After(c, s0, es).q.log|
    ensures var q := After(c, s0, es).q;
            && multiset{q.Undelivered(p), p in q.pel, p in q.acked, p in q.lost}[true] == 1
            && q.Backlog() == |q.log| - |s0.q.log| - |q.acked| - |q.lost|
  {
    Reachable(c, s0, es);
    BaseFixed(c, s0, es);
    EntryConservation(After(c, s0, es).q, p);
    BacklogAccounting(After(c, s0, es).q);
  }

  /** What an event appends to the ingestion stream when its write takes effect. */
  function Contribution(e: Event): Option<Values> {
    match e
    case EvPublish(t, id, body, _, reply) => if reply.Applied() then Some(PublishValues(t, id, body)) else None
    case EvInject(v, _, reply) => if reply.Applied() then Some(v) else None
    case _ => None
  }

  lemma {:induction false} BaseFixed(c: Cfg, s0: Sys, es: seq<Event>)
    requires IsRun(c, s0, es)
    ensures After(c, s0, es).q.base == |s0.q.log| && s0.q.log <= After(c, s0, es).q.log
  {
    if es != [] {
      var n := |es| - 1;
      BaseFixed(c, s0, es[..n]);
      Reachable(c, s0, es[..n]);
      LogGrows(c, After(c, s0, es[..n]), es[n]);
    }
  }

  /** The log only grows, by what the event wrote. */
  lemma LogGrows(c: Cfg, s: Sys, e: Event)
    requires s.q.Valid() && Enabled(c, s, e)
    ensures Next(c, s, e).q.base == s.q.base
    ensures Next(c, s, e).q.log == s.q.log + (match Contribution(e) case Some(v) => [v] case None => [])
  {
    if Processes(e) {
      ProcessFrame(c, s, e);
    }
  }

  /** Every acked entry was finished, and the return value decides what exists for it: an append its
      worker knows of, with the entry's envelope, exists exactly after Delivered or DeadLettered, and a
      nil return means that or an event id whose lock some SET NX of the run had set, whether or not its
      caller was told. */
  lemma AckedEntriesAccounted(c: Cfg, s0: Sys, es: seq<Event>, p: nat)
    requires IsRun(c, s0, es) && p in After(c, s0, es).q.acked
    ensures var s := After(c, s0, es);
            && p in s.done
            && ((exists i: nat :: SureFor(s, i, p, false)) <==> s.done[p] == Delivered)
            && ((exists i: nat :: SureFor(s, i, p, true)) <==> s.done[p] == DeadLettered)
            && (forall i: nat, dlq :: SureFor(s, i, p, dlq) ==> CarriesEntry(c, s, i, p, dlq))
            && (s.done[p].IsNil() ==>
                  EnvAt(s.q, p).Ok? &&
                  var id := EnvAt(s.q, p).value.eventID;
                  if s.done[p] == Duplicate then GrantedIn(c, s0, es, id) || StrandedIn(c, s0, es, id)
                  else GrantedIn(c, s0, es, id))
  {
    Reachable(c, s0, es);
    var s := After(c, s0, es);
    assert RetOk(s, p, s.done[p]);
    forall i: nat, dlq | SureFor(s, i, p, dlq)
      ensures s.done[p] == (if dlq then DeadLettered else Delivered) && CarriesEntry(c, s, i, p, dlq)
    {
      assert AppendOk(c, s, i) && s.passes[s.tags[i].pass].pos == p;
      if s.done[p].Delivered? || s.done[p].DeadLettered? {
        var j: nat :| SureFor(s, j, p, s.done[p].DeadLettered?);
        OneSurePerEntry(c, s, i, j, p);
      }
    }
    if s.done[p].IsNil() {
      NilReturnHistory(c, s, p);
      GateHistoryIff(c, s0, es, EnvAt(s.q, p).value.eventID);
    }
  }

  lemma NilReturnHistory(c: Cfg, s: Sys, p: nat)
    requires Inv(c, s) && p in s.done && s.done[p].IsNil()
    ensures EnvAt(s.q, p).Ok?
    ensures HasPass(s, EnvAt(s.q, p).value.eventID) ||
            (s.done[p] == Duplicate && EnvAt(s.q, p).value.eventID in s.stray)
  {
    assert RetOk(s, p, s.done[p]);
    if s.done[p] != Duplicate {
      var j: nat :| SureFor(s, j, p, s.done[p].DeadLettered?);
      assert PassOk(c, s, s.tags[j].pass);
    }
  }

  /** Exactly when a nil return did nothing: a handler call was started for the entry's event id if and only
      if some SET NX of the run for that id was granted to its caller and an attempt is configured.  Without
      such a grant the entry returned as a duplicate of an id whose lock was set by callers that were never
      told, and nothing was appended for the id. */
  lemma NilReturnIff(c: Cfg, s0: Sys, es: seq<Event>, p: nat)
    requires IsRun(c, s0, es)
    requires p in After(c, s0, es).q.acked && p in After(c, s0, es).done && After(c, s0, es).done[p].IsNil()
    ensures var s := After(c, s0, es);
            && EnvAt(s.q, p).Ok?
            && var id := EnvAt(s.q, p).value.eventID;
               && (Started(s, id) <==> GrantedIn(c, s0, es, id) && c.maxRetries >= 1)
               && (!GrantedIn(c, s0, es, id) ==> s.done[p] == Duplicate && StrandedIn(c, s0, es, id)
                                                 && forall i: nat :: i < |s.tags| ==> !ForId(s, i, id))
  {
    AckedEntriesAccounted(c, s0, es, p);
    Reachable(c, s0, es);
    var s := After(c, s0, es);
    var id := EnvAt(s.q, p).value.eventID;
    StartedIffGranted(c, s0, es, id);
    GateHistoryIff(c, s0, es, id);
  }

  /** The i-th append was made by a passage of the event id. */
  ghost predicate ForId(s: Sys, i: nat, id: GoString) {
    i < |s.tags| && s.tags[i].pass < |s.passes| && s.passes[s.tags[i].pass].eventID == id
  }

  /** When every SET NX is answered directly and without ambiguity, each nil return means that a handler
      call was started for the event id. */
  lemma PlainGatesMakeNilTrue(c: Cfg, s0: Sys, es: seq<Event>, p: nat)
    requires IsRun(c, s0, es) && PlainGates(es)
    requires p in After(c, s0, es).q.acked && p in After(c, s0, es).done && After(c, s0, es).done[p].IsNil()
    ensures var s := After(c, s0, es);
            && EnvAt(s.q, p).Ok? && HasPass(s, EnvAt(s.q, p).value.eventID)
            && (c.maxRetries >= 1 ==> Started(s, EnvAt(s.q, p).value.eventID))
  {
    AckedEntriesAccounted(c, s0, es, p);
    var id := EnvAt(After(c, s0, es).q, p).value.eventID;
    PlainGatesStrandNothing(c, s0, es, id);
    GateHistoryIff(c, s0, es, id);
    StartedIffGranted(c, s0, es, id);
  }

  /** The i-th append is the dead letter, or the tenant entry, of the entry at p. */
  ghost predicate CarriesEntry(c: Cfg, s: Sys, i: nat, p: nat, dlq: bool) {
    && i < |s.store.appends| && EnvAt(s.q, p).Ok?
    && var env, a := EnvAt(s.q, p).value, s.store.appends[i];
       if dlq then a == DlqAppend(env, OriginalError(a.values))
       else c.parse(env.tenantID).Some? && a == TenantAppend(c, env)
  }

  /** At most one append made for an entry was reported to its worker as done. */
  lemma OneSurePerEntry(c: Cfg, s: Sys, i: nat, j: nat, p: nat)
    requires Inv(c, s) && MadeFor(s, i, p) && MadeFor(s, j, p) && s.tags[i].sure && s.tags[j].sure
    ensures i == j
  {
    assert s.tags[i].pass == s.tags[j].pass;
    assert i < j ==> MayPrecede(s, i, j);
    assert j < i ==> MayPrecede(s, j, i);
  }

  /** Two passages of the gate for one event id are at least one lock lifetime apart, and without an
      expiry there is only one. */
  lemma GatePassagesApart(c: Cfg, s0: Sys, es: seq<Event>, j: nat, k: nat)
    requires IsRun(c, s0, es) && j < k < |After(c, s0, es).passes|
    requires After(c, s0, es).passes[j].eventID == After(c, s0, es).passes[k].eventID
    ensures c.ttl > 0
    ensures After(c, s0, es).passes[j].at + c.ttl * NS_PER_S <= After(c, s0, es).passes[k].at
  {
    Reachable(c, s0, es);
  }

  /** What one passage, and so one lock lifetime, can have caused: at most maxRetries handler calls and one
      dead-letter attempt, and appends that are each paid for by one of these or by a command sent again. */
  ghost predicate PassageBounded(c: Cfg, s: Sys, k: nat) {
    && k < |s.passes| && |s.tags| == |s.store.appends|
    && var p := s.passes[k];
       && p.calls <= Max(0, c.maxRetries) && p.deadTries <= 1
       && Made(s.tags, k) <= p.calls + p.deadTries + p.again
  }

  /** Of two appends of the passage the earlier was not confirmed, and after a dead letter comes only the same
      one, sent again. */
  ghost predicate InOrder(s: Sys, k: nat, i: nat, j: nat)
    requires k < |s.passes| && |s.tags| == |s.store.appends|
  {
    i < j < |s.tags| && s.tags[i].pass == s.tags[j].pass == k ==>
      && !s.tags[i].sure
      && (s.store.appends[i].target.Dlq? ==> s.store.appends[j].target.Dlq? && s.passes[k].again > 0)
  }

  lemma OrderedAppends(c: Cfg, s: Sys, k: nat, i: nat, j: nat)
    requires Inv(c, s) && CountInv(s) && k < |s.passes|
    ensures InOrder(s, k, i, j)
  {
    if i < j < |s.tags| && s.tags[i].pass == s.tags[j].pass == k {
      assert MayPrecede(s, i, j);
      if s.store.appends[i].target.Dlq? {
        DeadAmongMade(s.tags, s.store.appends, k, i, j);
        assert CountOk(s, k) && PassOk(c, s, k);
      }
    }
  }

  /** Every passage of every run is bounded and its appends are in order.  A run with neither ambiguous nor
      repeated appends gives the passage at most one append in all. */
  lemma PassageIsBounded(c: Cfg, s0: Sys, es: seq<Event>, k: nat)
    requires IsRun(c, s0, es) && k < |After(c, s0, es).passes|
    ensures var s := After(c, s0, es);
            && PassageBounded(c, s, k)
            && (forall i: nat, j: nat :: InOrder(s, k, i, j))
            && ((forall i :: 0 <= i < |s.tags| ==> s.tags[i].sure) ==>
                  forall i, j :: 0 <= i < j < |s.tags| ==> s.tags[i].pass != k || s.tags[j].pass != k)
  {
    Reachable(c, s0, es);
    CountReachable(c, s0, es);
    var s := After(c, s0, es);
    assert PassOk(c, s, k) && CountOk(s, k);
    forall i: nat, j: nat ensures InOrder(s, k, i, j) {
      OrderedAppends(c, s, k, i, j);
    }
  }

  // ---- payload integrity and tenant isolation ----

  /** Every entry published since the group exists is what some event of the run wrote. */
  lemma {:induction false} EntryHasWriter(c: Cfg, s0: Sys, es: seq<Event>, p: nat) returns (n: nat)
    requires IsRun(c, s0, es) && |s0.q.log| <= p < |After(c, s0, es).q.log|
    ensures n < |es| && Contribution(es[n]) == Some(After(c, s0, es).q.log[p])
  {
    n := |es| - 1;
    var s := After(c, s0, es[..n]);
    Reachable(c, s0, es[..n]);
    LogGrows(c, s, es[n]);
    if p < |s.q.log| {
      n := EntryHasWriter(c, s0, es[..n], p);
    }
  }

  lemma {:induction false} PassesAfterBase(c: Cfg, s0: Sys, es: seq<Event>, k: nat)
    requires IsRun(c, s0, es) && k < |After(c, s0, es).passes|
    ensures After(c, s0, es).passes[k].pos >= |s0.q.log|
  {
    var n := |es| - 1;
    var s := After(c, s0, es[..n]);
    Reachable(c, s0, es[..n]);
    BaseFixed(c, s0, es[..n]);
    NewPassIsPending(c, s, es[n], k);
    if k < |s.passes| {
      PassesAfterBase(c, s0, es[..n], k);
    }
  }

  lemma NewPassIsPending(c: Cfg, s: Sys, e: Event, k: nat)
    requires BatchInv(s) && Enabled(c, s, e) && k < |Next(c, s, e).passes|
    ensures var pos := Next(c, s, e).passes[k].pos;
            if k < |s.passes| then pos == s.passes[k].pos else pos >= s.q.base
  {
    if e.EvGate? {
      var wk := s.workers[e.w];
      assert Shaped(wk) && Holder(s, e.w, wk.cur);
      assert s.q.Classified(wk.cur);
    }
  }

  /** Every entry of tenant T's stream is byte for byte the body of a publish made for T in this run,
      when nobody but the API writes to the ingestion stream. */
  lemma TenantStreamsHoldAcceptedBodies(c: Cfg, s0: Sys, es: seq<Event>, i: nat, tenantID: GoString) returns (n: nat)
    requires IsRun(c, s0, es) && i < |After(c, s0, es).store.appends|
    requires forall m :: 0 <= m < |es| ==> !es[m].EvInject?
    requires After(c, s0, es).store.appends[i].target == Tenant(TenantStreamKey(tenantID, c.prefix))
    ensures n < |es| && es[n].EvPublish? && es[n].reply.Applied() && c.parse(es[n].tenantID) == Some(tenantID)
    ensures c.parse(es[n].tenantID) == Some(es[n].tenantID) ==> es[n].tenantID == tenantID
    ensures After(c, s0, es).store.appends[i].values == map[PAYLOAD := Str(es[n].body)]
  {
    var env;
    n, env := AppendHasWriter(c, s0, es, i);
    TenantStreamKeyInjective(tenantID, Canonical(c, env), c.prefix);
    EnvelopeRoundTrip(Envelope(es[n].eventID, es[n].tenantID, es[n].body), None);
  }

  /** Every dead letter re-extracts to the envelope of a publish of this run. */
  lemma DeadLettersReExtract(c: Cfg, s0: Sys, es: seq<Event>, i: nat) returns (n: nat)
    requires IsRun(c, s0, es) && i < |After(c, s0, es).store.appends|
    requires forall m :: 0 <= m < |es| ==> !es[m].EvInject?
    requires After(c, s0, es).store.appends[i].target == Dlq
    ensures n < |es| && es[n].EvPublish? && es[n].reply.Applied()
    ensures ExtractEnvelope(After(c, s0, es).store.appends[i].values)
        == Ok(Envelope(es[n].eventID, es[n].tenantID, es[n].body))
    ensures OriginalError(After(c, s0, es).store.appends[i].values).Some? <==> c.maxRetries >= 1
  {
    var env;
    n, env := AppendHasWriter(c, s0, es, i);
    EnvelopeRoundTrip(Envelope(es[n].eventID, es[n].tenantID, es[n].body), None);
    EnvelopeRoundTrip(env, OriginalError(After(c, s0, es).store.appends[i].values));
  }

  /** Whoever wrote the entry, each append carries that entry's envelope. */
  lemma AppendHasWriter(c: Cfg, s0: Sys, es: seq<Event>, i: nat) returns (n: nat, env: Envelope)
    requires IsRun(c, s0, es) && i < |After(c, s0, es).store.appends|
    ensures n < |es| && Contribution(es[n]).Some? && ExtractEnvelope(Contribution(es[n]).value) == Ok(env)
    ensures var a := After(c, s0, es).store.appends[i];
            && ((a == TenantAppend(c, env) && c.parse(env.tenantID).Some?) ||
                a == DlqAppend(env, OriginalError(a.values)))
            && (a.target == Dlq ==> (OriginalError(a.values).Some? <==> c.maxRetries >= 1))
  {
    Reachable(c, s0, es);
    var s := After(c, s0, es);
    assert AppendOk(c, s, i);
    var pos := s.passes[s.tags[i].pass].pos;
    assert PassOk(c, s, s.tags[i].pass);
    PassesAfterBase(c, s0, es, s.tags[i].pass);
    env := EnvAt(s.q, pos).value;
    n := EntryHasWriter(c, s0, es, pos);
  }

  // ---- building runs ----

  function Fresh(): Sys { Sys(Created([], 0), Store(0, map[], []), map[], [], [], {}, map[]) }

  lemma StepTo(c: Cfg, s0: Sys, es: seq<Event>, s: Sys, e: Event, s': Sys)
    requires Exec(c, s0, es) == Some(s) && Enabled(c, s, e) && Next(c, s, e) == s'
    ensures Exec(c, s0, es + [e]) == Some(s')
  {
    ExecSnoc(c, s0, es, e);
  }

  function HandedOver(s: Sys, env: Envelope, w: nat): Sys {
    var n := |s.q.log|;
    s.(q := s.q.(log := s.q.log + [PublishValues(env.tenantID, env.eventID, env.payload)], next := n + 1,
        pel := s.q.pel + {n}),
       workers := s.workers[w := Worker(n, n + 1, Fetch)])
  }

  /** With nothing waiting, one more publish can be handed to a new worker. */
  lemma Handover(c: Cfg, s0: Sys, es: seq<Event>, env: Envelope, w: nat) returns (es': seq<Event>)
    requires Exec(c, s0, es).Some?
    requires var s := Exec(c, s0, es).value; w !in s.workers && s.q.first <= s.q.next == |s.q.log|
    ensures es' == es + [EvPublish(env.tenantID, env.eventID, env.payload, Exec(c, s0, es).value.q.first, Done),
        EvStart(w), EvRead(w, false)]
    ensures Exec(c, s0, es') == Some(HandedOver(Exec(c, s0, es).value, env, w))
  {
    var s := Exec(c, s0, es).value;
    var publish := EvPublish(env.tenantID, env.eventID, env.payload, s.q.first, Done);
    var s1 := HandPublish(c, s, env);
    StepTo(c, s0, es, s, publish, s1);
    var s2 := s1.(workers := s1.workers[w := Worker(0, 0, Fetch)]);
    StepTo(c, s0, es + [publish], s1, EvStart(w), s2);
    HandRead(c, s, s2, env, w);
    StepTo(c, s0, es + [publish] + [EvStart(w)], s2, EvRead(w, false), HandedOver(s, env, w));
    es' := es + [publish, EvStart(w), EvRead(w, false)];
    assert es' == es + [publish] + [EvStart(w)] + [EvRead(w, false)];
  }

  lemma HandPublish(c: Cfg, s: Sys, env: Envelope) returns (s': Sys)
    requires s.q.first <= s.q.next == |s.q.log|
    ensures var e := EvPublish(env.tenantID, env.eventID, env.payload, s.q.first, Done);
            Enabled(c, s, e) && Next(c, s, e) == s'
    ensures s' == s.(q := s.q.(log := s.q.log + [PublishValues(env.tenantID, env.eventID, env.payload)]))
  {
    var entry := PublishValues(env.tenantID, env.eventID, env.payload);
    var q' := s.q.(log := s.q.log + [entry]);
    assert Published(s.q, entry, s.q.first, Done) == q' by {
      assert Span(q'.Head(), s.q.first) == {};
    }
    s' := s.(q := q');
  }

  lemma HandRead(c: Cfg, s: Sys, s2: Sys, env: Envelope, w: nat)
    requires s.q.first <= s.q.next == |s.q.log| && w !in s.workers
    requires s2 == s.(q := s.q.(log := s.q.log + [PublishValues(env.tenantID, env.eventID, env.payload)]),
                      workers := s.workers[w := Worker(0, 0, Fetch)])
    ensures Enabled(c, s2, EvRead(w, false)) && Next(c, s2, EvRead(w, false)) == HandedOver(s, env, w)
  {
    var n := |s.q.log|;
    assert Span(n, n + 1) == {n};
  }

  /** A worker with an unread well-formed entry in hand extracts its envelope. */
  lemma BeginAt(c: Cfg, s0: Sys, es: seq<Event>, env: Envelope, w: nat)
    requires Exec(c, s0, es).Some?
    requires var s := Exec(c, s0, es).value;
             && w in s.workers && s.workers[w].pc.Fetch? && s.workers[w].cur < s.workers[w].end
             && EnvAt(s.q, s.workers[w].cur) == Ok(env)
    ensures Exec(c, s0, es + [EvBegin(w)]) == Some(MovedTo(Exec(c, s0, es).value, w, Gate(env)))
  {
    ExecSnoc(c, s0, es, EvBegin(w));
  }
}
