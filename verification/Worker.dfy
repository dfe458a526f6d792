/** One turn of the consume loop of go-api/cmd/worker/main.go: read a batch, process each entry and ack
    it, whatever ProcessMessage returned. */
module Worker {
  import opened Common
  import opened Queue
  import opened Processor

  /** The replies of one turn, by position in the batch. */
  datatype Turn = Turn(lostReply: bool, scripts: nat -> Script, acks: nat -> Reply)

  datatype Batch = Batch(q: Queue, store: Store, rets: seq<Ret>)

  /** After the first k entries from head on. */
  function AfterEntries(c: Cfg, q: Queue, st: Store, head: nat, k: nat, t: Turn): (b: Batch)
    requires head + k <= |q.log|
    ensures b.q.log == q.log && |b.rets| == k
  {
    if k == 0 then Batch(q, st, [])
    else
      var b := AfterEntries(c, q, st, head, k - 1, t);
      var r := Process(c, b.store, q.log[head + k - 1], t.scripts(k - 1));
      Batch(Acked(b.q, {head + k - 1}, t.acks(k - 1)), r.store, b.rets + [r.ret])
  }

  function AfterTurn(c: Cfg, q: Queue, st: Store, t: Turn): Batch
    requires q.Head() <= |q.log|
  {
    var k := if t.lostReply then 0 else BatchSize(q, EffectiveCount(c.count));
    AfterEntries(c, HandedOut(q, EffectiveCount(c.count)), st, q.Head(), k, t)
  }

  method ConsumeOnce(stream: IngestStream, redis: Redis, c: Cfg, t: Turn) returns (rets: seq<Ret>)
    requires stream.View().Valid() && stream.grouped
    modifies stream, redis
    ensures stream.View().Valid() && stream.grouped
    ensures Batch(stream.View(), redis.View(), rets) == AfterTurn(c, old(stream.View()), old(redis.View()), t)
  {
    ghost var head := stream.View().Head();
    var msgs := stream.Read(c.count, t.lostReply);
    if msgs.Err? {
      return [];
    }
    rets := ConsumeBatch(stream, redis, c, head, msgs.value, t);
  }

  method ConsumeBatch(stream: IngestStream, redis: Redis, c: Cfg, ghost head: nat, msgs: seq<(nat, Values)>, t: Turn)
    returns (rets: seq<Ret>)
    requires stream.View().Valid() && stream.grouped
    requires head + |msgs| <= |stream.log| && msgs == Entries(stream.log, head, |msgs|)
    modifies stream, redis
    ensures stream.View().Valid() && stream.grouped
    ensures var q, st := old(stream.View()), old(redis.View());
            Batch(stream.View(), redis.View(), rets) == AfterEntries(c, q, st, head, |msgs|, t)
  {
    rets := [];
    ghost var q, st := stream.View(), redis.View();
    var i := 0;
    while i < |msgs|
      invariant 0 <= i <= |msgs|
      invariant stream.View().Valid() && stream.grouped
      invariant Batch(stream.View(), redis.View(), rets) == AfterEntries(c, q, st, head, i, t)
    {
      ghost var b := Batch(stream.View(), redis.View(), rets);
      var ret := ProcessAndAck(stream, redis, c, msgs[i].0, msgs[i].1, t.scripts(i), t.acks(i));
      OneMoreEntry(c, q, st, head, i, t, b, Batch(stream.View(), redis.View(), rets + [ret]));
      rets := rets + [ret];
      i := i + 1;
    }
  }

  lemma OneMoreEntry(c: Cfg, q: Queue, st: Store, head: nat, i: nat, t: Turn, b: Batch, b': Batch)
    requires head + i < |q.log| && b == AfterEntries(c, q, st, head, i, t)
    requires b'.q == Acked(b.q, {head + i}, t.acks(i))
    requires var r := Process(c, b.store, q.log[head + i], t.scripts(i));
             b'.store == r.store && b'.rets == b.rets + [r.ret]
    ensures b' == AfterEntries(c, q, st, head, i + 1, t)
  {
  }

  /** One entry; an error from ProcessMessage or from Ack is only logged. */
  method ProcessAndAck(stream: IngestStream, redis: Redis, c: Cfg, id: nat, values: Values, sc: Script, ack: Reply)
    returns (ret: Ret)
    requires stream.View().Valid() && stream.grouped
    modifies stream, redis
    ensures stream.View().Valid() && stream.grouped && stream.View() == Acked(old(stream.View()), {id}, ack)
    ensures var r := Process(c, old(redis.View()), values, sc); redis.View() == r.store && ret == r.ret
  {
    var calls, slept;
    ret, calls, slept := redis.ProcessMessage(c, values, sc);
    var acked := stream.Ack({id}, ack);
  }

  lemma {:induction false} EntriesAcked(c: Cfg, q: Queue, st: Store, head: nat, k: nat, t: Turn)
    requires head + k <= |q.log| && Span(head, head + k) <= q.pel
    requires forall i: nat :: i < k ==> t.acks(i).Applied()
    ensures var b := AfterEntries(c, q, st, head, k, t);
            b.q == q.(pel := q.pel - Span(head, head + k), acked := q.acked + Span(head, head + k))
  {
    if k == 0 {
      assert Span(head, head) == {};
    } else {
      var n := head + k - 1;
      assert Span(head, head + k) == Span(head, n) + {n};
      EntriesAcked(c, q, st, head, k - 1, t);
      assert {n} * (q.pel - Span(head, n)) == {n};
    }
  }

  /** What a read hands out is the batch it returns. */
  lemma BatchIsPending(q: Queue, count: nat)
    requires q.Valid()
    ensures var k := BatchSize(q, count);
            var batch := Span(q.Head(), q.Head() + k);
            && q.pel !! batch && HandedOut(q, count).pel == q.pel + batch && HandedOut(q, count).acked == q.acked
  {
    var k := BatchSize(q, count);
    forall p | p in q.pel ensures p !in Span(q.Head(), q.Head() + k) { assert q.Classified(p); }
    assert k == 0 ==> Span(q.Head(), q.Head() + k) == {};
  }

  lemma BatchSettled(d: Queue, pel: set<nat>, head: nat, k: nat)
    requires pel !! Span(head, head + k) && d.pel == pel + Span(head, head + k)
    ensures d.pel - Span(head, head + k) == pel && |d.pel| == |pel| + k
  {
    SpanSize(head, head + k);
  }

  /** Acking exactly what was handed out. */
  lemma SettledBacklog(q: Queue, d: Queue, d': Queue, k: nat)
    requires var batch := Span(q.Head(), q.Head() + k);
             && q.pel !! batch && d.pel == q.pel + batch && d.acked == q.acked
             && d' == d.(pel := d.pel - batch, acked := d.acked + batch)
    requires d.Backlog() == q.Backlog()
    ensures d'.pel == q.pel && d'.acked == q.acked + Span(q.Head(), q.Head() + k) && d'.Backlog() == q.Backlog() - k
  {
    BatchSettled(d, q.pel, q.Head(), k);
  }

  lemma BatchAcked(q: Queue, n: nat, q': Queue)
    requires q.Valid()
    requires var batch := Span(q.Head(), q.Head() + BatchSize(q, n));
             var d := HandedOut(q, n);
             q' == d.(pel := d.pel - batch, acked := d.acked + batch)
    ensures var k := BatchSize(q, n);
            q'.pel == q.pel && q'.acked == q.acked + Span(q.Head(), q.Head() + k) && q'.Backlog() == q.Backlog() - k
  {
    BatchIsPending(q, n);
    DeliveryKeepsBacklog(q, n);
    SettledBacklog(q, HandedOut(q, n), q', BatchSize(q, n));
  }

  lemma TurnQueue(c: Cfg, q: Queue, st: Store, t: Turn)
    requires q.Valid() && !t.lostReply && forall i: nat :: t.acks(i).Applied()
    ensures var n := EffectiveCount(c.count);
            var batch := Span(q.Head(), q.Head() + BatchSize(q, n));
            var d := HandedOut(q, n);
            AfterTurn(c, q, st, t).q == d.(pel := d.pel - batch, acked := d.acked + batch)
  {
    var n := EffectiveCount(c.count);
    BatchIsPending(q, n);
    EntriesAcked(c, HandedOut(q, n), st, q.Head(), BatchSize(q, n), t);
  }

  /** The code acks a whole batch even when every ProcessMessage in it failed: nothing read stays pending
      if the acks arrive, so the backlog shrinks by the batch and no entry is left for a retry. */
  lemma TurnAcksWhateverReturned(c: Cfg, q: Queue, st: Store, t: Turn)
    requires q.Valid() && !t.lostReply && forall i: nat :: t.acks(i).Applied()
    ensures var k := BatchSize(q, EffectiveCount(c.count));
            var b := AfterTurn(c, q, st, t);
            && b.q.pel == q.pel && b.q.acked == q.acked + Span(q.Head(), q.Head() + k)
            && b.q.Backlog() == q.Backlog() - k
  {
    var q' := AfterTurn(c, q, st, t).q;
    TurnQueue(c, q, st, t);
    BatchAcked(q, EffectiveCount(c.count), q');
  }

  /** A reply that is lost after the server handed the batch out leaves all of it pending, with no worker. */
  lemma LostReplyStrandsBatch(c: Cfg, q: Queue, st: Store, t: Turn)
    requires q.Valid() && t.lostReply
    ensures var k := BatchSize(q, EffectiveCount(c.count));
            var b := AfterTurn(c, q, st, t);
            && b.q.pel == q.pel + Span(q.Head(), q.Head() + k) && b.store == st && b.rets == []
            && b.q.Backlog() == q.Backlog()
  {
    BatchIsPending(q, EffectiveCount(c.count));
    DeliveryKeepsBacklog(q, EffectiveCount(c.count));
  }
}
