/** The work queue of go-api/internal/streams/queue.go: a Redis stream with one consumer group.
    Positions count the entries ever appended, so a position is a stream id. */
module Queue {
  import opened Common

  /** A field of a stream entry as the client hands it over. */
  datatype Value = Str(s: GoString) | Raw(b: GoString) | Other

  type Values = map<string, Value>

  const TENANT_ID := "tenant_id"
  const EVENT_ID := "event_id"
  const PAYLOAD := "payload"
  const ORIGINAL_ERROR := "x_original_error"

  function PublishValues(tenantID: GoString, eventID: GoString, payload: GoString): Values {
    map[TENANT_ID := Str(tenantID), EVENT_ID := Str(eventID), PAYLOAD := Str(payload)]
  }

  function DlqValues(tenantID: GoString, eventID: GoString, payload: GoString, err: Option<GoString>): Values {
    var v := PublishValues(tenantID, eventID, payload);
    match err case None => v case Some(e) => v[ORIGINAL_ERROR := Str(e)]
  }

  /** The stream and its group.  Entries below first have been trimmed; the group was created at
      base and has been handed everything below next; pel holds the pending entries.  acked and
      lost (trimmed before delivery) are history. */
  datatype Queue = Queue(
    log: seq<Values>, base: nat, first: nat, next: nat,
    pel: set<nat>, acked: set<nat>, lost: set<nat>)
  {
    /** The first position a read with ">" would return. */
    function Head(): nat { if first < next then next else first }

    function Lag(): int { |log| - Head() }

    /** What the load shedder samples. */
    function Backlog(): int { Lag() + |pel| }

    /** Every entry handed out or trimmed since the group exists is in exactly one of pending, acked, lost. */
    ghost predicate Valid() {
      && base <= next <= |log| && first <= |log|
      && forall p :: Classified(p)
    }

    ghost predicate Classified(p: nat) {
      if base <= p < Head() then
        (p in pel && p !in acked && p !in lost) ||
        (p !in pel && p in acked && p !in lost) ||
        (p !in pel && p !in acked && p in lost)
      else
        p !in pel && p !in acked && p !in lost
    }

    ghost predicate Undelivered(p: nat) { Head() <= p < |log| }
  }

  function Created(log: seq<Values>, first: nat): Queue {
    Queue(log, |log|, first, |log|, {}, {}, {})
  }

  /** What XADD/XTRIM with MAXLEN ~ cap may do: drop an oldest prefix, but keep at least cap entries. */
  predicate MayTrim(q: Queue, cap: int, first: nat) {
    && q.first <= first <= |q.log|
    && (first == q.first || (cap > 0 && |q.log| - first >= cap))
  }

  function TrimTo(q: Queue, first: nat): Queue {
    q.(first := first, lost := q.lost + Span(q.Head(), first))
  }

  function Appended(q: Queue, m: Values): Queue { q.(log := q.log + [m]) }

  function Published(q: Queue, m: Values, first: nat, reply: Reply): Queue {
    if reply.Applied() then TrimTo(Appended(q, m), first) else q
  }

  function BatchSize(q: Queue, count: nat): nat
    requires q.Head() <= |q.log|
  {
    Min(count, q.Lag())
  }

  /** The k entries from a position on, with their positions. */
  function Entries(log: seq<Values>, a: nat, k: nat): (r: seq<(nat, Values)>)
    requires a + k <= |log|
    ensures |r| == k && forall i :: 0 <= i < k ==> r[i] == (a + i, log[a + i])
  {
    seq(k, i requires 0 <= i < k => (a + i, log[a + i]))
  }

  function HandedOut(q: Queue, count: nat): Queue
    requires q.Head() <= |q.log|
  {
    var k := BatchSize(q, count);
    if k == 0 then q else q.(next := q.Head() + k, pel := q.pel + Span(q.Head(), q.Head() + k))
  }

  function Acked(q: Queue, ids: set<nat>, reply: Reply): Queue {
    if reply.Applied() then q.(pel := q.pel - ids, acked := q.acked + (ids * q.pel)) else q
  }

  /** What a group sees of a queue: without a group, what one created later will see. */
  function Seen(q: Queue, grouped: bool): Queue { if grouped then q else Created(q.log, q.first) }

  class IngestStream {
    var log: seq<Values>
    var grouped: bool  // the consumer group exists
    var base: nat
    var first: nat
    var next: nat
    var pel: set<nat>
    ghost var acked: set<nat>
    ghost var lost: set<nat>

    /** Until the group exists nothing is owed to it, so the view is that of a group created later. */
    ghost function View(): Queue
      reads this
    {
      Seen(Queue(log, base, first, next, pel, acked, lost), grouped)
    }

    constructor (existing: seq<Values>, first: nat)
      requires first <= |existing|
      ensures View() == Created(existing, first) && View().Valid() && !grouped
    {
      log, grouped, base, this.first, next := existing, false, 0, first, 0;
      pel, acked, lost := {}, {}, {};
    }

    /** XGROUP CREATE ... MKSTREAM with id "$": entries already in the stream are never delivered.  A group
        that exists is left alone: Redis answers BUSYGROUP, which counts as success. */
    method EnsureGroup(reply: Reply) returns (r: Result<(), GoString>)
      requires View().Valid()
      modifies this
      ensures View() == old(View()) && View().Valid()
      ensures grouped == (old(grouped) || !reply.Failed?) && log == old(log) && first == old(first)
      ensures if grouped && !old(grouped) then base == next == |log| && pel == {}
              else base == old(base) && next == old(next) && pel == old(pel)
      ensures r == if reply.Done? then Ok(()) else Err(reply.error)
    {
      if reply.Applied() && !grouped {
        grouped, base, next, pel := true, |log|, |log|, {};
        acked, lost := {}, {};
      }
      return if reply.Done? then Ok(()) else Err(reply.error);
    }

    /** XADD; trimmedTo is where Redis chooses to trim and reply is what reaches the caller. */
    method Publish(tenantID: GoString, eventID: GoString, payload: GoString, maxLen: int,
                   trimmedTo: nat, reply: Reply) returns (r: Result<nat, GoString>)
      requires View().Valid()
      requires MayTrim(Appended(View(), PublishValues(tenantID, eventID, payload)), maxLen, trimmedTo)
      modifies this
      ensures var entry := PublishValues(tenantID, eventID, payload);
              View() == Seen(Published(old(View()), entry, trimmedTo, reply), grouped)
      ensures View().Valid() && grouped == old(grouped)
      ensures r == if reply.Done? then Ok(|old(log)|) else Err(reply.error)
      ensures var entry := map["tenant_id" := Str(tenantID), "event_id" := Str(eventID), "payload" := Str(payload)];
              if reply.Failed? then log == old(log) && first == old(first)
              else log == old(log) + [entry] && first == trimmedTo
      ensures base == old(base) && next == old(next) && pel == old(pel)
    {
      var id := |log|;
      PublishKeepsValid(View(), PublishValues(tenantID, eventID, payload), maxLen, trimmedTo, reply);
      if reply.Applied() {
        log := log + [PublishValues(tenantID, eventID, payload)];
        lost := lost + Span(View().Head(), trimmedTo);
        first := trimmedTo;
      }
      if !reply.Done? {
        return Err(reply.error);
      }
      return Ok(id);
    }

    method TrimMaxLenApprox(maxLen: int, trimmedTo: nat, reply: Reply) returns (r: Result<int, GoString>)
      requires View().Valid()
      requires MayTrim(View(), maxLen, trimmedTo)
      modifies this
      ensures var q := old(View());
              View() == Seen(if maxLen > 0 && reply.Applied() then TrimTo(q, trimmedTo) else q, grouped)
      ensures View().Valid() && grouped == old(grouped)
      ensures r == if maxLen <= 0 then Ok(0) else if reply.Done? then Ok(trimmedTo - old(first)) else Err(reply.error)
      ensures first == (if maxLen > 0 && !reply.Failed? then trimmedTo else old(first)) && log == old(log)
      ensures base == old(base) && next == old(next) && pel == old(pel)
    {
      if maxLen <= 0 {
        return Ok(0);
      }
      var before := first;
      TrimKeepsValid(View(), trimmedTo);
      if reply.Applied() {
        lost := lost + Span(View().Head(), trimmedTo);
        first := trimmedTo;
      }
      if !reply.Done? {
        return Err(reply.error);
      }
      return Ok(trimmedTo - before);
    }

    /** XREADGROUP with ">", which fails without a group; lostReply says that the server served the read but
        the reply never arrived. */
    method Read(count: int, lostReply: bool) returns (r: Result<seq<(nat, Values)>, ()>)
      requires View().Valid()
      modifies this
      ensures View() == if grouped then HandedOut(old(View()), EffectiveCount(count)) else old(View())
      ensures View().Valid() && grouped == old(grouped)
      ensures var q := old(View());
              r == if lostReply || !grouped then Err(())
                   else Ok(Entries(q.log, q.Head(), BatchSize(q, EffectiveCount(count))))
      ensures log == old(log) && first == old(first) && base == old(base)
      ensures var head := if first < old(next) then old(next) else first;
              var limit := if count <= 0 then 32 else count;
              var k := if !grouped then 0 else if limit < |log| - head then limit else |log| - head;
              && next == (if k > 0 then head + k else old(next))
              && (forall p :: p in pel <==> p in old(pel) || head <= p < head + k)
              && (r.Ok? ==> |r.value| == k && forall i :: 0 <= i < k ==> r.value[i] == (head + i, log[head + i]))
    {
      if !grouped {
        return Err(());
      }
      var n := EffectiveCount(count);
      ghost var was := View();
      DeliverKeepsValid(was, n);
      var head := if first < next then next else first;
      var k := Min(n, |log| - head);
      assert head == was.Head() && k == BatchSize(was, n);
      var msgs := Entries(log, head, k);
      if k > 0 {
        next := head + k;
        pel := pel + Span(head, head + k);
      }
      assert View() == HandedOut(was, n);
      if lostReply {
        return Err(());
      }
      return Ok(msgs);
    }

    method Ack(ids: set<nat>, reply: Reply) returns (r: Result<(), GoString>)
      requires View().Valid()
      modifies this
      ensures View() == Acked(old(View()), ids, if ids == {} then Done else reply)
      ensures View().Valid() && grouped == old(grouped)
      ensures r == if ids == {} || reply.Done? then Ok(()) else Err(reply.error)
      ensures pel == if grouped && (ids == {} || !reply.Failed?) then old(pel) - ids else old(pel)
      ensures log == old(log) && first == old(first) && next == old(next) && base == old(base)
    {
      AckKeepsValid(View(), ids, reply);
      if ids == {} {
        return Ok(());
      }
      if reply.Applied() && grouped {
        acked := acked + (ids * pel);
        pel := pel - ids;
      }
      if !reply.Done? {
        return Err(reply.error);
      }
      return Ok(());
    }
  }

  /** NewReader replaces a batch size that is not positive by 32. */
  function EffectiveCount(count: int): nat { if count <= 0 then 32 else count }

  // ---- every operation keeps the partition ----

  lemma TrimKeepsValid(q: Queue, first: nat)
    requires q.Valid() && q.first <= first <= |q.log|
    ensures TrimTo(q, first).Valid()
  {
    var t := TrimTo(q, first);
    forall p ensures t.Classified(p) { assert q.Classified(p); }
  }

  lemma PublishKeepsValid(q: Queue, m: Values, cap: int, first: nat, reply: Reply)
    requires q.Valid() && MayTrim(Appended(q, m), cap, first)
    ensures Published(q, m, first, reply).Valid()
  {
    AppendKeepsValid(q, m);
    TrimKeepsValid(Appended(q, m), first);
  }

  lemma AppendKeepsValid(q: Queue, m: Values)
    requires q.Valid()
    ensures Appended(q, m).Valid()
  {
    var a := Appended(q, m);
    forall p ensures a.Classified(p) { assert q.Classified(p); }
  }

  lemma DeliverKeepsValid(q: Queue, count: nat)
    requires q.Valid()
    ensures HandedOut(q, count).Valid()
  {
    var d := HandedOut(q, count);
    forall p ensures d.Classified(p) { assert q.Classified(p); }
  }

  lemma AckKeepsValid(q: Queue, ids: set<nat>, reply: Reply)
    requires q.Valid()
    ensures Acked(q, ids, reply).Valid()
  {
    var a := Acked(q, ids, reply);
    forall p ensures a.Classified(p) { assert q.Classified(p); }
  }

  // ---- accounting ----

  /** Entry conservation: each position published since the group exists is in exactly one class. */
  lemma EntryConservation(q: Queue, p: nat)
    requires q.Valid() && q.base <= p < |q.log|
    ensures multiset{q.Undelivered(p), p in q.pel, p in q.acked, p in q.lost}[true] == 1
  {
    assert q.Classified(p);
  }

  lemma ClassesCoverSpan(q: Queue)
    requires q.Valid()
    ensures q.pel !! q.acked && (q.pel + q.acked) !! q.lost
    ensures q.pel + q.acked + q.lost == Span(q.base, q.Head())
    ensures |q.pel| + |q.acked| + |q.lost| == q.Head() - q.base
  {
    forall p | p in q.pel ensures p !in q.acked && p !in q.lost { assert q.Classified(p); }
    forall p | p in q.acked ensures p !in q.lost { assert q.Classified(p); }
    var all := q.pel + q.acked + q.lost;
    forall p: nat ensures p in all <==> p in Span(q.base, q.Head()) { assert q.Classified(p); }
    assert all == Span(q.base, q.Head());
    SpanSize(q.base, q.Head());
    assert |q.pel + q.acked| == |q.pel| + |q.acked|;
    assert |all| == |q.pel + q.acked| + |q.lost|;
  }

  /** The shedder's signal counts exactly what is still owed, whatever the stream's length. */
  lemma BacklogAccounting(q: Queue)
    requires q.Valid()
    ensures q.Backlog() == |q.log| - q.base - |q.acked| - |q.lost|
    ensures q.Backlog() == 0 <==> q.acked + q.lost == Span(q.base, |q.log|)
  {
    ClassesCoverSpan(q);
    assert |q.acked + q.lost| == |q.acked| + |q.lost|;
    SpanSize(q.base, |q.log|);
    if q.Backlog() == 0 {
      assert q.pel == {};
      assert q.acked + q.lost == q.pel + q.acked + q.lost;
    }
  }

  lemma DeliveryKeepsBacklog(q: Queue, count: nat)
    requires q.Valid()
    ensures HandedOut(q, count).Backlog() == q.Backlog()
  {
    var k := BatchSize(q, count);
    var batch := Span(q.Head(), q.Head() + k);
    assert q.pel !! batch by { ClassesCoverSpan(q); }
    SpanSize(q.Head(), q.Head() + k);
    assert |q.pel + batch| == |q.pel| + |batch|;
  }

  /** A publish adds one, less whatever undelivered entries its trim takes away. */
  lemma PublishAddsOne(q: Queue, m: Values, cap: int, first: nat)
    requires q.Valid() && MayTrim(Appended(q, m), cap, first)
    ensures Published(q, m, first, Done).Backlog() == q.Backlog() + 1 - Max(0, first - q.Head())
  {
  }

  /** An ack takes off exactly the ids that were still pending. */
  lemma AckSubtractsPending(q: Queue, ids: set<nat>)
    requires q.Valid()
    ensures Acked(q, ids, Done).Backlog() == q.Backlog() - |ids * q.pel|
  {
    assert q.pel == (q.pel - ids) + (ids * q.pel);
    assert |q.pel| == |q.pel - ids| + |ids * q.pel|;
  }

  /** A publish or trim loses nothing undelivered exactly when it stops at the head. */
  lemma TrimLosesNothingIff(q: Queue, first: nat)
    requires q.Valid() && q.first <= first <= |q.log|
    ensures TrimTo(q, first).lost == q.lost <==> first <= q.Head()
  {
    if first > q.Head() {
      assert q.Head() in Span(q.Head(), first);
      assert q.Classified(q.Head());
    } else {
      assert Span(q.Head(), first) == {};
    }
  }
}
