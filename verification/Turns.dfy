/** The consume loop and the state machine agree: a worker that runs undisturbed from its read to its last ack
    does, step by step, exactly what ConsumeOnce is proved to do. */
module Turns {
  import opened Common
  import opened Queue
  import opened Processor
  import opened Pipeline
  import opened SoloRun
  import W = Worker

  /** Since s, worker w has read, and handled the first n of k entries from head on, as in b. */
  ghost predicate Turned(s: Sys, s': Sys, w: nat, head: nat, k: nat, n: nat, b: W.Batch) {
    && s'.q == b.q && s'.store == b.store && |b.rets| == n <= k
    && s'.workers == s.workers[w := Worker(head + n, head + k, Fetch)]
    && (forall p :: p in s'.done <==> p in s.done || head <= p < head + n)
    && (forall p :: p in s.done && !(head <= p < head + n) ==> s'.done[p] == s.done[p])
    && (forall j :: 0 <= j < n ==> head + j in s'.done && s'.done[head + j] == b.rets[j])
  }

  lemma Lead(c: Cfg, s0: Sys, all: iset<Sys>, s: Sys, e: Event)
    requires AllGot(c, s0, all) && s in all && Enabled(c, s, e)
    ensures Next(c, s, e) in all
  {
    assert Gets(c, s0, s);
    GetsOne(c, s0, s, e);
    assert Gets(c, s0, Next(c, s, e));
  }

  lemma GetsOne(c: Cfg, s0: Sys, s: Sys, e: Event)
    requires Gets(c, s0, s) && Enabled(c, s, e)
    ensures Gets(c, s0, Next(c, s, e))
  {
    var es :| Exec(c, s0, es) == Some(s);
    ExecSnoc(c, s0, es, e);
  }

  /** One call of ProcessMessage, from the entry in hand. */
  lemma ProcessOne(c: Cfg, s0: Sys, all: iset<Sys>, s: Sys, w: nat, sc: Script) returns (s': Sys)
    requires AllGot(c, s0, all) && s in all && Enabled(c, s, EvBegin(w))
    ensures s' in all && OnlyWorker(s, s', w)
    ensures Ended(s', w, Process(c, s.store, EntryAt(s.q, s.workers[w].cur), sc))
  {
    assert Gets(c, s0, s);
    s' := ProcessGets(c, s0, s, w, sc);
    assert Gets(c, s0, s');
  }

  lemma ProcessGets(c: Cfg, s0: Sys, s: Sys, w: nat, sc: Script) returns (s': Sys)
    requires Gets(c, s0, s) && Enabled(c, s, EvBegin(w))
    ensures Gets(c, s0, s') && OnlyWorker(s, s', w)
    ensures Ended(s', w, Process(c, s.store, EntryAt(s.q, s.workers[w].cur), sc))
  {
    var es :| Exec(c, s0, es) == Some(s);
    var es' := SoloProcess(c, s0, es, w, sc);
    s' := Exec(c, s0, es').value;
  }

  /** What the ack after it leaves. */
  lemma AckOne(c: Cfg, s: Sys, w: nat, reply: Reply)
    requires Enabled(c, s, EvAck(w, reply))
    ensures var s', wk := Next(c, s, EvAck(w, reply)), s.workers[w];
            && s'.q == Acked(s.q, {wk.cur}, reply) && s'.store == s.store
            && s'.done == s.done[wk.cur := wk.pc.ret]
            && s'.workers == s.workers[w := Worker(wk.cur + 1, wk.end, Fetch)]
  {
  }

  lemma EntryOne(c: Cfg, s0: Sys, all: iset<Sys>, s: Sys, w: nat, sc: Script, ack: Reply) returns (s': Sys)
    requires AllGot(c, s0, all) && s in all && Enabled(c, s, EvBegin(w))
    ensures s' in all
    ensures var wk, r := s.workers[w], Process(c, s.store, EntryAt(s.q, s.workers[w].cur), sc);
            && s'.q == Acked(s.q, {wk.cur}, ack) && s'.store == r.store && s'.done == s.done[wk.cur := r.ret]
            && s'.workers == s.workers[w := Worker(wk.cur + 1, wk.end, Fetch)]
  {
    var s1 := ProcessOne(c, s0, all, s, w, sc);
    AckOne(c, s1, w, ack);
    Lead(c, s0, all, s1, EvAck(w, ack));
    s' := Next(c, s1, EvAck(w, ack));
  }

  /** One more entry of the turn. */
  lemma TurnedMore(c: Cfg, s: Sys, s1: Sys, s2: Sys, q: Queue, st: Store, w: nat, head: nat, k: nat, n: nat, t: W.Turn)
    requires head + n < head + k <= |q.log|
    requires Turned(s, s1, w, head, k, n, W.AfterEntries(c, q, st, head, n, t))
    requires var r := Process(c, s1.store, q.log[head + n], t.scripts(n));
             && s2.q == Acked(s1.q, {head + n}, t.acks(n)) && s2.store == r.store
             && s2.done == s1.done[head + n := r.ret]
             && s2.workers == s1.workers[w := Worker(head + n + 1, head + k, Fetch)]
    ensures Turned(s, s2, w, head, k, n + 1, W.AfterEntries(c, q, st, head, n + 1, t))
  {
    var b := W.AfterEntries(c, q, st, head, n, t);
    var r := Process(c, s1.store, q.log[head + n], t.scripts(n));
    var b' := W.Batch(s2.q, s2.store, b.rets + [r.ret]);
    W.OneMoreEntry(c, q, st, head, n, t, b, b');
    DoneMore(s.done, s1.done, s2.done, head, n, b.rets, r.ret);
  }

  lemma DoneMore(d: map<nat, Ret>, d1: map<nat, Ret>, d2: map<nat, Ret>, head: nat, n: nat, rets: seq<Ret>, ret: Ret)
    requires |rets| == n && d2 == d1[head + n := ret]
    requires forall p :: p in d1 <==> p in d || head <= p < head + n
    requires forall p :: p in d && !(head <= p < head + n) ==> d1[p] == d[p]
    requires forall j :: 0 <= j < n ==> head + j in d1 && d1[head + j] == rets[j]
    ensures forall p :: p in d2 <==> p in d || head <= p < head + n + 1
    ensures forall p :: p in d && !(head <= p < head + n + 1) ==> d2[p] == d[p]
    ensures forall j :: 0 <= j < n + 1 ==> head + j in d2 && d2[head + j] == (rets + [ret])[j]
  {
  }

  lemma {:induction false} SoloEntries(c: Cfg, s0: Sys, all: iset<Sys>, s: Sys, s1: Sys, q: Queue, w: nat,
    head: nat, k: nat, n: nat, t: W.Turn) returns (s': Sys)
    requires AllGot(c, s0, all) && s1 in all && head + k <= |q.log| && n <= k
    requires Turned(s, s1, w, head, k, 0, W.Batch(q, s.store, []))
    ensures s' in all && Turned(s, s', w, head, k, n, W.AfterEntries(c, q, s.store, head, n, t))
    decreases n
  {
    s' := s1;
    if n > 0 {
      var s2 := SoloEntries(c, s0, all, s, s1, q, w, head, k, n - 1, t);
      assert EntryAt(s2.q, head + n - 1) == q.log[head + n - 1];
      s' := EntryOne(c, s0, all, s2, w, t.scripts(n - 1), t.acks(n - 1));
      TurnedMore(c, s, s2, s', q, s.store, w, head, k, n - 1, t);
    }
  }

  /** The read that starts the turn. */
  lemma TurnStarts(c: Cfg, s: Sys, w: nat, t: W.Turn)
    requires s.q.Valid() && Enabled(c, s, EvRead(w, t.lostReply))
    ensures var s1, n := Next(c, s, EvRead(w, t.lostReply)), EffectiveCount(c.count);
            var k := if t.lostReply then 0 else BatchSize(s.q, n);
            Turned(s, s1, w, s.q.Head(), k, 0, W.Batch(HandedOut(s.q, n), s.store, []))
  {
  }

  /** From its read to its last ack, an undisturbed worker takes the stream and Redis exactly where the
      sequential turn does, leaves each entry's return value in done, and touches nothing else. */
  lemma SoloTurn(c: Cfg, s0: Sys, es: seq<Event>, w: nat, t: W.Turn) returns (es': seq<Event>)
    requires Exec(c, s0, es).Some? && Exec(c, s0, es).value.q.Valid()
    requires Enabled(c, Exec(c, s0, es).value, EvRead(w, t.lostReply))
    ensures Exec(c, s0, es').Some?
    ensures var s, s' := Exec(c, s0, es).value, Exec(c, s0, es').value;
            var b := W.AfterTurn(c, s.q, s.store, t);
            Turned(s, s', w, s.q.Head(), |b.rets|, |b.rets|, b)
  {
    var s := Exec(c, s0, es).value;
    assert Gets(c, s0, s);
    var all := iset x | Gets(c, s0, x);
    var k := if t.lostReply then 0 else BatchSize(s.q, EffectiveCount(c.count));
    TurnStarts(c, s, w, t);
    Lead(c, s0, all, s, EvRead(w, t.lostReply));
    var s1 := Next(c, s, EvRead(w, t.lostReply));
    var s' := SoloEntries(c, s0, all, s, s1, HandedOut(s.q, EffectiveCount(c.count)), w, s.q.Head(), k, k, t);
    es' :| Exec(c, s0, es') == Some(s');
  }

  // ---- a turn in which nothing fails ----

  /** Every reply of the turn is a success at the first try. */
  ghost predicate AllDone(t: W.Turn) {
    && !t.lostReply
    && forall i: nat :: t.scripts(i).gate == Direct(Done) && t.scripts(i).calls(1) == Done && t.acks(i) == Done
  }

  /** The entry is well-formed, for a tenant that parses. */
  predicate Deliverable(c: Cfg, m: Values) { WellFormed(m) && c.parse(m["tenant_id"].s).Some? }

  function IdOf(m: Values): GoString { if WellFormed(m) then m["event_id"].s else [] }

  /** Deliverable entries with distinct ids, none of which is locked. */
  ghost predicate FreshEntries(c: Cfg, st: Store, msgs: seq<Values>) {
    && (forall j :: 0 <= j < |msgs| ==> Deliverable(c, msgs[j]) && !Locked(st, IdOf(msgs[j])))
    && (forall i, j :: 0 <= i < j < |msgs| ==> IdOf(msgs[i]) != IdOf(msgs[j]))
  }

  /** What the handler appends for an entry. */
  function AppendFor(c: Cfg, m: Values): Append
    requires Deliverable(c, m)
  {
    Append(Tenant(c.prefix + c.parse(m["tenant_id"].s).value), map["payload" := Str(EnvelopeIn(m).payload)])
  }

  lemma OneDelivered(c: Cfg, st: Store, m: Values, sc: Script)
    requires c.ttl >= 0 && c.maxRetries >= 1 && Deliverable(c, m)
    requires sc.gate == Direct(Done) && sc.calls(1) == Done && !Locked(st, IdOf(m))
    ensures var r := Process(c, st, m, sc);
            && r.ret == Delivered && r.store.appends == st.appends + [AppendFor(c, m)]
            && r.store.now >= st.now && r.store.locks.Keys == st.locks.Keys + {IdOf(m)}
            && forall id :: id in st.locks && id != IdOf(m) ==> r.store.locks[id] == st.locks[id]
  {
    ProcessStarts(c, st, m, sc);
  }

  /** A lock of now is a lock of then or that of one of the entries. */
  ghost predicate LocksFrom(st: Store, st': Store, msgs: seq<Values>) {
    && st'.now >= st.now
    && forall id :: id in st'.locks && !(id in st.locks && st'.locks[id] == st.locks[id]) ==>
         exists j :: 0 <= j < |msgs| && id == IdOf(msgs[j])
  }

  lemma StillFree(c: Cfg, st: Store, st': Store, msgs: seq<Values>, m: Values)
    requires FreshEntries(c, st, msgs + [m]) && LocksFrom(st, st', msgs)
    ensures FreshEntries(c, st, msgs) && Deliverable(c, m) && !Locked(st', IdOf(m))
  {
    var all := msgs + [m];
    assert all[|msgs|] == m;
    forall j | 0 <= j < |msgs| ensures msgs[j] == all[j] {}
    forall j | 0 <= j < |msgs| ensures IdOf(msgs[j]) != IdOf(m) {
      assert IdOf(all[j]) != IdOf(all[|msgs|]);
    }
  }

  lemma LocksMore(st: Store, st': Store, st'': Store, msgs: seq<Values>, m: Values)
    requires LocksFrom(st, st', msgs) && st''.now >= st'.now && st''.locks.Keys == st'.locks.Keys + {IdOf(m)}
    requires forall id :: id in st'.locks && id != IdOf(m) ==> st''.locks[id] == st'.locks[id]
    ensures LocksFrom(st, st'', msgs + [m])
  {
    var all := msgs + [m];
    forall id | id in st''.locks && !(id in st.locks && st''.locks[id] == st.locks[id])
      ensures exists j :: 0 <= j < |all| && id == IdOf(all[j])
    {
      if id == IdOf(m) {
        assert id == IdOf(all[|msgs|]);
      } else {
        var j :| 0 <= j < |msgs| && id == IdOf(msgs[j]);
        assert id == IdOf(all[j]);
      }
    }
  }

  /** One entry of the tenant's stream for each message, in order. */
  ghost predicate DeliveredEach(c: Cfg, st: Store, b: W.Batch, msgs: seq<Values>) {
    && |b.store.appends| == |st.appends| + |msgs| && b.store.appends[..|st.appends|] == st.appends && |b.rets| == |msgs|
    && forall j :: 0 <= j < |msgs| ==>
         && Deliverable(c, msgs[j]) && b.store.appends[|st.appends| + j] == AppendFor(c, msgs[j])
         && b.rets[j] == Delivered
  }

  lemma DeliveredMore(c: Cfg, st: Store, b: W.Batch, b': W.Batch, msgs: seq<Values>, m: Values)
    requires DeliveredEach(c, st, b, msgs) && Deliverable(c, m)
    requires b'.store.appends == b.store.appends + [AppendFor(c, m)] && b'.rets == b.rets + [Delivered]
    ensures DeliveredEach(c, st, b', msgs + [m])
  {
  }

  /** What one more entry adds. */
  lemma DeliverMore(c: Cfg, q: Queue, st: Store, head: nat, k: nat, t: W.Turn, msgs: seq<Values>)
    requires c.ttl >= 0 && c.maxRetries >= 1 && head + k < |q.log| && AllDone(t)
    requires FreshEntries(c, st, msgs + [q.log[head + k]])
    requires var b := W.AfterEntries(c, q, st, head, k, t);
             DeliveredEach(c, st, b, msgs) && LocksFrom(st, b.store, msgs)
    ensures var b := W.AfterEntries(c, q, st, head, k + 1, t);
            DeliveredEach(c, st, b, msgs + [q.log[head + k]]) && LocksFrom(st, b.store, msgs + [q.log[head + k]])
  {
    var m := q.log[head + k];
    var b, b' := W.AfterEntries(c, q, st, head, k, t), W.AfterEntries(c, q, st, head, k + 1, t);
    StillFree(c, st, b.store, msgs, m);
    OneDelivered(c, b.store, m, t.scripts(k));
    LocksMore(st, b.store, b'.store, msgs, m);
    DeliveredMore(c, st, b, b', msgs, m);
  }

  lemma {:induction false} AllDelivered(c: Cfg, q: Queue, st: Store, head: nat, k: nat, t: W.Turn, msgs: seq<Values>)
    requires c.ttl >= 0 && c.maxRetries >= 1 && head + k <= |q.log| && AllDone(t)
    requires msgs == q.log[head..head + k] && FreshEntries(c, st, msgs)
    ensures var b := W.AfterEntries(c, q, st, head, k, t);
            DeliveredEach(c, st, b, msgs) && LocksFrom(st, b.store, msgs)
  {
    if k > 0 {
      var before, m := q.log[head..head + k - 1], q.log[head + k - 1];
      assert msgs == before + [m];
      FreshPrefix(c, st, before, m);
      AllDelivered(c, q, st, head, k - 1, t, before);
      DeliverMore(c, q, st, head, k - 1, t, before);
    }
  }

  lemma FreshPrefix(c: Cfg, st: Store, msgs: seq<Values>, m: Values)
    requires FreshEntries(c, st, msgs + [m])
    ensures FreshEntries(c, st, msgs)
  {
    var all := msgs + [m];
    forall j | 0 <= j < |msgs| ensures msgs[j] == all[j] {}
  }

  /** With every reply a success, a turn over fresh entries appends one tenant entry for each, in order, and
      returns Delivered for each. */
  lemma TurnDelivers(c: Cfg, q: Queue, st: Store, t: W.Turn, k: nat, msgs: seq<Values>)
    requires q.Valid() && c.ttl >= 0 && c.maxRetries >= 1 && AllDone(t)
    requires k == BatchSize(q, EffectiveCount(c.count)) && msgs == q.log[q.Head()..q.Head() + k]
    requires FreshEntries(c, st, msgs)
    ensures DeliveredEach(c, st, W.AfterTurn(c, q, st, t), msgs)
  {
    var d := HandedOut(q, EffectiveCount(c.count));
    assert d.log == q.log;
    AllDelivered(c, d, st, q.Head(), k, t, msgs);
  }
}
