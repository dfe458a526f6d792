/** Fan-out of go-api/internal/service/fanout.go as atomic steps: subscribers come and go, clients take
    from their channels, and each reader goroutine runs fanOut in its two phases, sending under the
    read lock and removing full subscribers under the write lock. */
module Fanout {
  import opened Common

  datatype StreamEvent = StreamEvent(id: int, payload: GoString)

  /** A sent event with the reader that sent it. */
  datatype Tagged = Tagged(reader: nat, ev: StreamEvent)

  /** A buffered channel.  sent is everything ever put in it and taken how much the client has received,
      so the buffer is sent[taken..].  joined records how many events each reader had fanned out when
      the subscriber joined, and missed the index of the event of a reader that found the buffer full. */
  datatype Chan = Chan(cap: nat, sent: seq<Tagged>, taken: nat, open: bool, joined: seq<nat>, missed: map<nat, nat>)
  {
    predicate Full() { |sent| - taken >= cap }

    function JoinedAt(r: nat): nat { if r < |joined| then joined[r] else 0 }
  }

  datatype PC = Waiting | Sending(todo: set<nat>, dead: set<nat>) | Removing(dead: set<nat>) | Exited

  /** events is everything the reader has fanned out, the current one last. */
  datatype Reader = Reader(cancelled: bool, events: seq<StreamEvent>, pc: PC)

  /** subs holds the ids in the subscriber map; the channel of id is chans[id] and stays with its client
      after the id is removed.  cancel is the reader whose cancel function is stored.  emptied counts
      the removals by fanOut that left no subscriber. */
  datatype Fan = Fan(subs: set<nat>, chans: seq<Chan>, cancel: Option<nat>, readers: seq<Reader>, panicked: bool,
    emptied: nat)

  const FALLBACK_BUFFER: nat := 100

  function BufSize(configured: int): nat { if configured <= 0 then FALLBACK_BUFFER else configured }

  datatype Event =
    | EvSubscribe(bufSize: int)
    | EvUnsub(id: nat)
    | EvReceive(id: nat)
    | EvFanOut(r: nat, ev: StreamEvent)
    | EvSend(r: nat, id: nat)
    | EvUnlock(r: nat)
    | EvRemove(r: nat)
    | EvExit(r: nat)

  const EMPTY: Fan := Fan({}, [], None, [], false, 0)

  /** No fanOut holds the read lock. */
  predicate WriteLockFree(f: Fan) { forall r :: 0 <= r < |f.readers| ==> !f.readers[r].pc.Sending? }

  predicate Enabled(f: Fan, e: Event) {
    !f.panicked &&
    match e
    case EvSubscribe(_) => WriteLockFree(f)
    case EvUnsub(id) => id < |f.chans| && WriteLockFree(f)
    case EvReceive(id) => id < |f.chans| && f.chans[id].taken < |f.chans[id].sent|
    case EvFanOut(r, _) => r < |f.readers| && f.readers[r].pc.Waiting?
    case EvSend(r, id) => r < |f.readers| && f.readers[r].pc.Sending? && id in f.readers[r].pc.todo
    case EvUnlock(r) => r < |f.readers| && f.readers[r].pc.Sending? && f.readers[r].pc.todo == {}
    case EvRemove(r) => r < |f.readers| && f.readers[r].pc.Removing? && WriteLockFree(f)
    case EvExit(r) => r < |f.readers| && f.readers[r].pc.Waiting? && f.readers[r].cancelled
  }

  /** How many events each reader has fanned out. */
  function EventCounts(readers: seq<Reader>): seq<nat> {
    seq(|readers|, r requires 0 <= r < |readers| => |readers[r].events|)
  }

  function Subscribed(f: Fan, bufSize: int): Fan {
    var id := |f.chans|;
    var subs := f.subs + {id};
    var f' := f.(subs := subs, chans := f.chans + [Chan(BufSize(bufSize), [], 0, true, EventCounts(f.readers), map[])]);
    if |subs| == 1 then
      f'.(cancel := Some(|f.readers|), readers := f.readers + [Reader(false, [], Waiting)])
    else f'
  }

  function Closed(f: Fan, id: nat): Fan {
    if id < |f.chans| && f.chans[id].open then f.(chans := f.chans[id := f.chans[id].(open := false)])
    else f.(panicked := true)
  }

  function Unsubscribed(f: Fan, id: nat): Fan {
    var f' := Closed(f.(subs := f.subs - {id}), id);
    if !f'.panicked && f'.subs == {} && f.cancel.Some? && f.cancel.value < |f.readers| then
      f'.(cancel := None, readers := f.readers[f.cancel.value := f.readers[f.cancel.value].(cancelled := true)])
    else f'
  }

  /** The non-blocking send to one channel. */
  function Offered(ch: Chan, r: nat, ev: StreamEvent, index: nat): Chan {
    if ch.Full() then ch.(missed := ch.missed[r := index]) else ch.(sent := ch.sent + [Tagged(r, ev)])
  }

  function Sent(f: Fan, r: nat, id: nat): Fan
    requires r < |f.readers| && f.readers[r].pc.Sending?
  {
    var rd := f.readers[r];
    if id >= |f.chans| || !f.chans[id].open || rd.events == [] then f.(panicked := true)
    else
      var n := |rd.events| - 1;
      var dead := if f.chans[id].Full() then rd.pc.dead + {id} else rd.pc.dead;
      f.(chans := f.chans[id := Offered(f.chans[id], r, rd.events[n], n)],
         readers := f.readers[r := rd.(pc := Sending(rd.pc.todo - {id}, dead))])
  }

  /** Closing the channels of a set of ids. */
  function AllClosed(chans: seq<Chan>, ids: set<nat>): (r: seq<Chan>)
    ensures |r| == |chans|
    ensures forall id :: 0 <= id < |chans| ==> r[id] == if id in ids then chans[id].(open := false) else chans[id]
  {
    seq(|chans|, id requires 0 <= id < |chans| => if id in ids then chans[id].(open := false) else chans[id])
  }

  function Removed(f: Fan, r: nat): Fan
    requires r < |f.readers| && f.readers[r].pc.Removing?
  {
    var gone := f.readers[r].pc.dead * f.subs;
    if exists id :: id in gone && (id >= |f.chans| || !f.chans[id].open) then f.(panicked := true)
    else
      f.(subs := f.subs - gone, chans := AllClosed(f.chans, gone),
         readers := f.readers[r := f.readers[r].(pc := Waiting)],
         emptied := f.emptied + if gone != {} && f.subs - gone == {} then 1 else 0)
  }

  function Next(f: Fan, e: Event): Fan
    requires Enabled(f, e)
  {
    match e
    case EvSubscribe(b) => Subscribed(f, b)
    case EvUnsub(id) => Unsubscribed(f, id)
    case EvReceive(id) => f.(chans := f.chans[id := f.chans[id].(taken := f.chans[id].taken + 1)])
    case EvFanOut(r, ev) =>
      f.(readers := f.readers[r := f.readers[r].(events := f.readers[r].events + [ev], pc := Sending(f.subs, {}))])
    case EvSend(r, id) => Sent(f, r, id)
    case EvUnlock(r) =>
      var dead := f.readers[r].pc.dead;
      f.(readers := f.readers[r := f.readers[r].(pc := if dead == {} then Waiting else Removing(dead))])
    case EvRemove(r) => Removed(f, r)
    case EvExit(r) => f.(readers := f.readers[r := f.readers[r].(pc := Exited)])
  }

  function Exec(es: seq<Event>): Option<Fan> {
    if es == [] then Some(EMPTY)
    else
      var n := |es| - 1;
      match Exec(es[..n])
      case None => None
      case Some(f) => if Enabled(f, es[n]) then Some(Next(f, es[n])) else None
  }

  // ---- lifecycle: channels, locks and readers ----

  ghost predicate ChanOk(f: Fan, id: nat)
    requires id < |f.chans|
  {
    var ch := f.chans[id];
    (id in f.subs <==> ch.open) && ch.taken <= |ch.sent| <= ch.taken + ch.cap && |ch.joined| <= |f.readers|
  }

  ghost predicate PCOk(f: Fan, rd: Reader) {
    match rd.pc
    case Sending(todo, dead) => todo <= f.subs && dead <= f.subs && todo !! dead && rd.events != []
    case Removing(dead) => rd.events != [] && forall id :: id in dead ==> id < |f.chans|
    case Exited => rd.cancelled
    case Waiting => true
  }

  ghost function Uncancelled(readers: seq<Reader>): set<nat> { set r: nat | r < |readers| && !readers[r].cancelled }

  ghost predicate Lifecycle(f: Fan) {
    && !f.panicked
    && (forall id :: id in f.subs ==> id < |f.chans|)
    && (forall id :: 0 <= id < |f.chans| ==> ChanOk(f, id))
    && (forall r :: 0 <= r < |f.readers| ==> PCOk(f, f.readers[r]))
    && (f.cancel.Some? ==> f.cancel.value < |f.readers| && !f.readers[f.cancel.value].cancelled)
    && (f.subs != {} ==> f.cancel.Some?)
    && |Uncancelled(f.readers)| == (if f.subs != {} then 1 else 0) + f.emptied
  }

  lemma SameUncancelled(a: seq<Reader>, b: seq<Reader>)
    requires |a| == |b| && forall r :: 0 <= r < |a| ==> a[r].cancelled == b[r].cancelled
    ensures Uncancelled(a) == Uncancelled(b)
  {
  }

  lemma LifecycleSubscribe(f: Fan, b: int)
    requires Lifecycle(f) && Enabled(f, EvSubscribe(b))
    ensures Lifecycle(Subscribed(f, b))
  {
    var f' := Subscribed(f, b);
    var id := |f.chans|;
    forall i | 0 <= i < |f'.chans| ensures ChanOk(f', i) {
      if i < id { assert ChanOk(f, i); }
    }
    forall r | 0 <= r < |f'.readers| ensures PCOk(f', f'.readers[r]) {
      if r < |f.readers| { assert PCOk(f, f.readers[r]); }
    }
    assert |f.subs + {id}| == |f.subs| + 1;
    if f.subs == {} {
      assert Uncancelled(f'.readers) == Uncancelled(f.readers) + {|f.readers|};
    } else {
      assert |f.subs| > 0;
    }
  }

  lemma LifecycleUnsub(f: Fan, id: nat)
    requires Lifecycle(f) && Enabled(f, EvUnsub(id)) && id in f.subs
    ensures Lifecycle(Unsubscribed(f, id))
  {
    var f' := Unsubscribed(f, id);
    assert ChanOk(f, id);
    forall i | 0 <= i < |f'.chans| ensures ChanOk(f', i) {
      assert ChanOk(f, i);
    }
    forall r | 0 <= r < |f'.readers| ensures PCOk(f', f'.readers[r]) {
      assert PCOk(f, f.readers[r]);
    }
    if f.subs - {id} == {} {
      assert Uncancelled(f'.readers) == Uncancelled(f.readers) - {f.cancel.value};
    }
  }

  /** The removal closes open channels only. */
  lemma RemovedShape(f: Fan, r: nat)
    requires Lifecycle(f) && Enabled(f, EvRemove(r))
    ensures var gone := f.readers[r].pc.dead * f.subs;
            Removed(f, r) ==
              f.(subs := f.subs - gone, chans := AllClosed(f.chans, gone),
                 readers := f.readers[r := f.readers[r].(pc := Waiting)],
                 emptied := f.emptied + if gone != {} && f.subs - gone == {} then 1 else 0)
  {
    forall id | id in f.readers[r].pc.dead * f.subs ensures id < |f.chans| && f.chans[id].open {
      assert ChanOk(f, id);
    }
  }

  lemma LifecycleRemove(f: Fan, r: nat)
    requires Lifecycle(f) && Enabled(f, EvRemove(r))
    ensures Lifecycle(Removed(f, r))
  {
    RemovedShape(f, r);
    var f' := Removed(f, r);
    assert PCOk(f, f.readers[r]);
    forall i | 0 <= i < |f'.chans| ensures ChanOk(f', i) {
      assert ChanOk(f, i);
    }
    forall x | 0 <= x < |f'.readers| ensures PCOk(f', f'.readers[x]) {
      assert PCOk(f, f.readers[x]);
    }
    SameUncancelled(f.readers, f'.readers);
  }

  lemma LifecycleSend(f: Fan, r: nat, id: nat)
    requires Lifecycle(f) && Enabled(f, EvSend(r, id))
    ensures Lifecycle(Sent(f, r, id))
  {
    var f' := Sent(f, r, id);
    assert PCOk(f, f.readers[r]) && ChanOk(f, id);
    forall i | 0 <= i < |f'.chans| ensures ChanOk(f', i) {
      assert ChanOk(f, i);
    }
    forall x | 0 <= x < |f'.readers| ensures PCOk(f', f'.readers[x]) {
      assert PCOk(f, f.readers[x]);
    }
    SameUncancelled(f.readers, f'.readers);
  }

  lemma LifecycleReader(f: Fan, e: Event)
    requires Lifecycle(f) && Enabled(f, e) && (e.EvReceive? || e.EvFanOut? || e.EvUnlock? || e.EvExit?)
    ensures Lifecycle(Next(f, e))
  {
    var f' := Next(f, e);
    forall i | 0 <= i < |f'.chans| ensures ChanOk(f', i) {
      assert ChanOk(f, i);
    }
    forall x | 0 <= x < |f'.readers| ensures PCOk(f', f'.readers[x]) {
      assert PCOk(f, f.readers[x]);
    }
    SameUncancelled(f.readers, f'.readers);
  }

  /** No step breaks the lifecycle, and the only step that can panic is an unsub of an id that is no
      longer in the map, which closes a closed channel. */
  lemma LifecycleStep(f: Fan, e: Event)
    requires Lifecycle(f) && Enabled(f, e)
    ensures Next(f, e).panicked <==> e.EvUnsub? && e.id !in f.subs
    ensures !Next(f, e).panicked ==> Lifecycle(Next(f, e))
  {
    if e.EvSubscribe? {
      LifecycleSubscribe(f, e.bufSize);
    } else if e.EvUnsub? {
      assert ChanOk(f, e.id);
      if e.id in f.subs { LifecycleUnsub(f, e.id); }
    } else if e.EvRemove? {
      LifecycleRemove(f, e.r);
    } else if e.EvSend? {
      LifecycleSend(f, e.r, e.id);
    } else {
      LifecycleReader(f, e);
    }
  }

  lemma {:induction false} Reachable(es: seq<Event>)
    requires Exec(es).Some? && !Exec(es).value.panicked
    ensures Lifecycle(Exec(es).value)
  {
    if es != [] {
      var before := es[..|es| - 1];
      Reachable(before);
      LifecycleStep(Exec(before).value, es[|es| - 1]);
    } else {
      assert Uncancelled([]) == {};
    }
  }

  /** In every run: each subscriber in the map has an open channel and everyone else's is closed, a
      non-empty map has a stored cancel handle whose reader is live, and the live readers are one for a
      non-empty map plus one for every time fanOut dropped the last subscriber. */
  lemma {:induction false} ReaderAccounting(es: seq<Event>)
    requires Exec(es).Some? && !Exec(es).value.panicked
    ensures var f := Exec(es).value;
            && (forall id :: 0 <= id < |f.chans| ==> (id in f.subs <==> f.chans[id].open))
            && (f.subs != {} ==> f.cancel.Some? && f.cancel.value < |f.readers| && !f.readers[f.cancel.value].cancelled)
            && |Uncancelled(f.readers)| == (if f.subs != {} then 1 else 0) + f.emptied
  {
    Reachable(es);
    var f := Exec(es).value;
    forall id | 0 <= id < |f.chans| ensures id in f.subs <==> f.chans[id].open { assert ChanOk(f, id); }
  }

  // ---- double close ----

  /** Some removal phase of a fanOut took the id out of the map. */
  ghost predicate DroppedIn(es: seq<Event>, id: nat)
    requires Exec(es).Some?
  {
    es != [] &&
    (DroppedIn(es[..|es| - 1], id) ||
     (es[|es| - 1].EvRemove? && id in Exec(es[..|es| - 1]).value.subs && id !in Exec(es).value.subs))
  }

  /** Once subscribed, an id is out of the map exactly when its unsub ran or fanOut dropped it; fanOut drops
      only ids that have missed an event. */
  ghost predicate WhyGone(es: seq<Event>, id: nat)
    requires Exec(es).Some?
  {
    var f := Exec(es).value;
    && (id < |f.chans| && id !in f.subs ==> EvUnsub(id) in es || DroppedIn(es, id))
    && (EvUnsub(id) in es || DroppedIn(es, id) ==> id < |f.chans| && id !in f.subs)
    && (DroppedIn(es, id) ==> Missed(f, id))
  }

  ghost predicate Missed(f: Fan, id: nat) { id < |f.chans| && f.chans[id].missed != map[] }

  ghost predicate InDead(f: Fan, r: nat, id: nat) {
    r < |f.readers| && (f.readers[r].pc.Sending? || f.readers[r].pc.Removing?) && id in f.readers[r].pc.dead
  }

  ghost predicate DeadMissed(f: Fan) { forall r: nat, id: nat :: InDead(f, r, id) ==> Missed(f, id) }

  lemma MissedStays(f: Fan, e: Event)
    requires Enabled(f, e) && !Next(f, e).panicked
    ensures forall id: nat :: Missed(f, id) ==> Missed(Next(f, e), id)
  {
    if e.EvSend? {
      var n := |f.readers[e.r].events| - 1;
      assert e.r in f.chans[e.id].missed[e.r := n];
    }
  }

  /** Only a send marks a subscriber as dead. */
  lemma DeadBefore(f: Fan, e: Event, r: nat, id: nat)
    requires Enabled(f, e) && !Next(f, e).panicked && InDead(Next(f, e), r, id)
    ensures InDead(f, r, id) || (e == EvSend(r, id) && Missed(Next(f, e), id))
  {
    if e.EvSend? && e.id == id && e.r == r && !InDead(f, r, id) {
      var n := |f.readers[r].events| - 1;
      assert Next(f, e).chans[id].missed == f.chans[id].missed[r := n];
      assert r in Next(f, e).chans[id].missed;
    }
  }

  lemma DeadMissedStep(f: Fan, e: Event)
    requires Enabled(f, e) && !Next(f, e).panicked && DeadMissed(f)
    ensures DeadMissed(Next(f, e))
  {
    MissedStays(f, e);
    forall r: nat, id: nat | InDead(Next(f, e), r, id) ensures Missed(Next(f, e), id) {
      DeadBefore(f, e, r, id);
    }
  }

  /** An id leaves the map by its unsub, or in the removal phase of a reader that had it as dead. */
  lemma LeftHow(f: Fan, e: Event, id: nat)
    requires Lifecycle(f) && Enabled(f, e) && !Next(f, e).panicked && id in f.subs && id !in Next(f, e).subs
    ensures e == EvUnsub(id) || (e.EvRemove? && InDead(f, e.r, id))
  {
    if e.EvRemove? {
      RemovedShape(f, e.r);
    }
  }

  /** Only Subscribe adds an id, and a fresh one. */
  lemma StaysOut(f: Fan, e: Event, id: nat)
    requires Enabled(f, e) && !Next(f, e).panicked
    ensures |f.chans| <= |Next(f, e).chans|
    ensures id < |f.chans| && id !in f.subs ==> id !in Next(f, e).subs
    ensures |f.chans| <= id < |Next(f, e).chans| ==> id in Next(f, e).subs
    ensures e == EvUnsub(id) ==> id < |f.chans| && id !in Next(f, e).subs
  {
  }

  lemma DroppedMore(es: seq<Event>, id: nat)
    requires es != [] && Exec(es).Some?
    ensures var before, e := es[..|es| - 1], es[|es| - 1];
            && (DroppedIn(es, id) <==>
                  DroppedIn(before, id) ||
                  (e.EvRemove? && id in Exec(before).value.subs && id !in Exec(es).value.subs))
            && (EvUnsub(id) in es <==> EvUnsub(id) in before || e == EvUnsub(id))
  {
    assert es == es[..|es| - 1] + [es[|es| - 1]];
  }

  /** How one step changes who is out of the map. */
  lemma GoneOne(f: Fan, e: Event, id: nat)
    requires Lifecycle(f) && Enabled(f, e) && !Next(f, e).panicked && DeadMissed(f)
    ensures var f' := Next(f, e);
            && |f.chans| <= |f'.chans| && (id in f.subs ==> id < |f.chans|)
            && (id < |f.chans| && id !in f.subs ==> id !in f'.subs)
            && (|f.chans| <= id < |f'.chans| ==> id in f'.subs)
            && (e == EvUnsub(id) ==> id < |f.chans| && id !in f'.subs)
            && (id in f.subs && id !in f'.subs ==> e == EvUnsub(id) || (e.EvRemove? && Missed(f', id)))
            && (Missed(f, id) ==> Missed(f', id))
  {
    StaysOut(f, e, id);
    MissedStays(f, e);
    if id in f.subs && id !in Next(f, e).subs {
      LeftHow(f, e, id);
    }
  }

  lemma GoneStep(es: seq<Event>, id: nat)
    requires es != [] && Exec(es).Some? && !Exec(es).value.panicked
    requires var f := Exec(es[..|es| - 1]).value;
             Lifecycle(f) && WhyGone(es[..|es| - 1], id) && DeadMissed(f)
    ensures WhyGone(es, id)
  {
    DroppedMore(es, id);
    GoneOne(Exec(es[..|es| - 1]).value, es[|es| - 1], id);
  }

  lemma {:induction false} DeadMissedReachable(es: seq<Event>)
    requires Exec(es).Some? && !Exec(es).value.panicked
    ensures DeadMissed(Exec(es).value)
  {
    if es != [] {
      var before := es[..|es| - 1];
      DeadMissedReachable(before);
      DeadMissedStep(Exec(before).value, es[|es| - 1]);
    }
  }

  lemma {:induction false} GoneReachable(es: seq<Event>, id: nat)
    requires Exec(es).Some? && !Exec(es).value.panicked
    ensures WhyGone(es, id)
  {
    if es != [] {
      var before := es[..|es| - 1];
      GoneReachable(before, id);
      DeadMissedReachable(before);
      Reachable(before);
      GoneStep(es, id);
    }
  }

  /** A client that takes an event gets the oldest one in the buffer and makes room for another. */
  lemma ReceiveMakesRoom(f: Fan, id: nat)
    requires Lifecycle(f) && Enabled(f, EvReceive(id))
    ensures var f', ch := Next(f, EvReceive(id)), f.chans[id];
            && ch.taken < |ch.sent| && |f'.chans| == |f.chans|
            && f'.chans[id] == ch.(taken := ch.taken + 1) && |ch.sent| - f'.chans[id].taken < ch.cap
            && f' == f.(chans := f'.chans) && forall i :: 0 <= i < |f.chans| && i != id ==> f'.chans[i] == f.chans[i]
  {
    assert ChanOk(f, id);
  }

  /** Some send of reader r to the subscriber met a buffer that was full to its capacity. */
  ghost predicate FoundFull(es: seq<Event>, id: nat, r: nat)
    requires Exec(es).Some?
  {
    es != [] &&
    (FoundFull(es[..|es| - 1], id, r) ||
     (es[|es| - 1] == EvSend(r, id) && AtCapacity(Exec(es[..|es| - 1]).value, id)))
  }

  ghost predicate AtCapacity(f: Fan, id: nat) {
    id < |f.chans| && |f.chans[id].sent| - f.chans[id].taken == f.chans[id].cap
  }

  ghost predicate MissedFrom(f: Fan, id: nat, r: nat) { id < |f.chans| && r in f.chans[id].missed }

  lemma SendMisses(f: Fan, r: nat, id: nat, id': nat, r': nat)
    requires Lifecycle(f) && Enabled(f, EvSend(r, id))
    ensures MissedFrom(Sent(f, r, id), id', r') <==>
            MissedFrom(f, id', r') || (r == r' && id == id' && AtCapacity(f, id))
  {
    assert PCOk(f, f.readers[r]) && ChanOk(f, id);
  }

  lemma RemoveMissesNothing(f: Fan, x: nat, id: nat, r: nat)
    requires Lifecycle(f) && Enabled(f, EvRemove(x))
    ensures MissedFrom(Removed(f, x), id, r) <==> MissedFrom(f, id, r)
  {
    RemovedShape(f, x);
  }

  /** Other steps record no miss and take none back. */
  lemma OthersMissNothing(f: Fan, e: Event, id: nat, r: nat)
    requires Enabled(f, e) && !Next(f, e).panicked && !e.EvSend? && !e.EvRemove?
    ensures MissedFrom(Next(f, e), id, r) <==> MissedFrom(f, id, r)
  {
  }

  lemma MissStep(f: Fan, e: Event, id: nat, r: nat)
    requires Lifecycle(f) && Enabled(f, e) && !Next(f, e).panicked
    ensures MissedFrom(Next(f, e), id, r) <==> MissedFrom(f, id, r) || (e == EvSend(r, id) && AtCapacity(f, id))
  {
    if e.EvSend? {
      SendMisses(f, e.r, e.id, id, r);
    } else if e.EvRemove? {
      RemoveMissesNothing(f, e.r, id, r);
    } else {
      OthersMissNothing(f, e, id, r);
    }
  }

  /** A miss is recorded exactly when a send met a full buffer. */
  lemma {:induction false} MissedIffFoundFull(es: seq<Event>, id: nat, r: nat)
    requires Exec(es).Some? && !Exec(es).value.panicked
    ensures MissedFrom(Exec(es).value, id, r) <==> FoundFull(es, id, r)
  {
    if es != [] {
      var before := es[..|es| - 1];
      MissedIffFoundFull(before, id, r);
      Reachable(before);
      MissStep(Exec(before).value, es[|es| - 1], id, r);
    }
  }

  /** fanOut drops only a subscriber whose buffer some send has met full. */
  lemma DroppedFoundFull(es: seq<Event>, id: nat) returns (r: nat)
    requires Exec(es).Some? && !Exec(es).value.panicked && DroppedIn(es, id)
    ensures FoundFull(es, id, r)
  {
    GoneReachable(es, id);
    r :| r in Exec(es).value.chans[id].missed;
    MissedIffFoundFull(es, id, r);
  }

  /** The process panics exactly at an unsub that is not its subscriber's first or whose subscriber fanOut
      has dropped, which it does only for a full buffer. */
  lemma PanicIffDroppedThenUnsub(es: seq<Event>)
    requires es != [] && Exec(es).Some?
    ensures var before, e := es[..|es| - 1], es[|es| - 1];
            && Exec(before).Some? && !Exec(before).value.panicked
            && (Exec(es).value.panicked <==> e.EvUnsub? && (e in before || DroppedIn(before, e.id)))
            && (e.EvUnsub? && DroppedIn(before, e.id) ==> exists r: nat :: FoundFull(before, e.id, r))
  {
    var before, e := es[..|es| - 1], es[|es| - 1];
    Reachable(before);
    LifecycleStep(Exec(before).value, e);
    if e.EvUnsub? {
      GoneReachable(before, e.id);
      if DroppedIn(before, e.id) {
        var r := DroppedFoundFull(before, e.id);
      }
    }
  }

  /** Every unsub so far found its id in the map. */
  ghost predicate UnsubsPresent(es: seq<Event>)
    requires Exec(es).Some?
  {
    es == [] ||
    (UnsubsPresent(es[..|es| - 1]) && (es[|es| - 1].EvUnsub? ==> es[|es| - 1].id in Exec(es[..|es| - 1]).value.subs))
  }

  /** Over whole runs: the process survives exactly when each unsub is called for an id still in the map. */
  lemma {:induction false} NoPanicIffUnsubsPresent(es: seq<Event>)
    requires Exec(es).Some?
    ensures !Exec(es).value.panicked <==> UnsubsPresent(es)
  {
    if es != [] {
      var before := es[..|es| - 1];
      NoPanicIffUnsubsPresent(before);
      Reachable(before);
      LifecycleStep(Exec(before).value, es[|es| - 1]);
    }
  }

  lemma StepTo(es: seq<Event>, f: Fan, e: Event, f': Fan)
    requires Exec(es) == Some(f) && Enabled(f, e) && Next(f, e) == f'
    ensures Exec(es + [e]) == Some(f')
  {
    assert (es + [e])[..|es|] == es;
  }

  /** One subscriber, with a buffer of one, who got the first event and missed the second. */
  function FullChan(ev: StreamEvent, open: bool): Chan { Chan(1, [Tagged(0, ev)], 0, open, [], map[0 := 1]) }

  function OneSubscriber(ch: Chan, events: seq<StreamEvent>, pc: PC): Fan {
    Fan({0}, [ch], Some(0), [Reader(false, events, pc)], false, 0)
  }

  function Dropped(ev: StreamEvent): Fan {
    Fan({}, [FullChan(ev, false)], Some(0), [Reader(false, [ev, ev], Waiting)], false, 1)
  }

  lemma FirstSubscribe()
    ensures Exec([EvSubscribe(1)]) == Some(OneSubscriber(Chan(1, [], 0, true, [], map[]), [], Waiting))
  {
    assert EMPTY.subs + {0} == {0} && |{0}| == 1;
    assert EventCounts(EMPTY.readers) == [];
    StepTo([], EMPTY, EvSubscribe(1), OneSubscriber(Chan(1, [], 0, true, [], map[]), [], Waiting));
    assert [] + [EvSubscribe(1)] == [EvSubscribe(1)];
  }

  lemma TwoFanOuts(ev: StreamEvent) returns (es: seq<Event>)
    ensures forall id :: EvUnsub(id) !in es
    ensures Exec(es) == Some(OneSubscriber(FullChan(ev, true), [ev, ev], Removing({0})))
  {
    FirstSubscribe();
    var ch := Chan(1, [], 0, true, [], map[]);
    var got := Chan(1, [Tagged(0, ev)], 0, true, [], map[]);
    assert Offered(ch, 0, ev, 0) == got;
    assert [] + [ev] == [ev] && [ev] + [ev] == [ev, ev];
    es := OneFanOut([EvSubscribe(1)], OneSubscriber(ch, [], Waiting), ev, OneSubscriber(got, [ev], Waiting));
    assert Offered(got, 0, ev, 1) == FullChan(ev, true);
    var f' := OneSubscriber(FullChan(ev, true), [ev, ev], Removing({0}));
    es := OneFanOut(es, OneSubscriber(got, [ev], Waiting), ev, f');
  }

  lemma DropTheOnlyOne(ev: StreamEvent) returns (es: seq<Event>)
    ensures forall id :: EvUnsub(id) !in es
    ensures Exec(es) == Some(Dropped(ev))
  {
    es := TwoFanOuts(ev);
    var f := OneSubscriber(FullChan(ev, true), [ev, ev], Removing({0}));
    RemoveTheOnlyOne(f, ev);
    StepTo(es, f, EvRemove(0), Dropped(ev));
    es := es + [EvRemove(0)];
  }

  lemma RemoveTheOnlyOne(f: Fan, ev: StreamEvent)
    requires f == OneSubscriber(FullChan(ev, true), [ev, ev], Removing({0}))
    ensures Enabled(f, EvRemove(0)) && Removed(f, 0) == Dropped(ev)
  {
    assert AllClosed(f.chans, {0}) == [FullChan(ev, false)];
    assert f.readers[0].pc.dead * f.subs == {0} && f.subs - {0} == {};
  }

  /** The send phase of one fanOut with a single subscriber. */
  lemma OneFanOut(es: seq<Event>, f: Fan, ev: StreamEvent, f': Fan) returns (es': seq<Event>)
    requires Exec(es) == Some(f) && !f.panicked && f.subs == {0} && |f.chans| == 1 && |f.readers| == 1
    requires f.chans[0].open && f.readers[0].pc.Waiting?
    requires var events := f.readers[0].events + [ev];
             var ch := f.chans[0];
             f' == f.(chans := [Offered(ch, 0, ev, |events| - 1)],
                      readers := [f.readers[0].(events := events, pc := if ch.Full() then Removing({0}) else Waiting)])
    ensures es' == es + [EvFanOut(0, ev), EvSend(0, 0), EvUnlock(0)] && Exec(es') == Some(f')
  {
    var events := f.readers[0].events + [ev];
    var rd := f.readers[0].(events := events);
    var f1 := f.(readers := [rd.(pc := Sending({0}, {}))]);
    StepTo(es, f, EvFanOut(0, ev), f1);
    var dead := if f.chans[0].Full() then {0} else {};
    var f2 := f'.(readers := [rd.(pc := Sending({}, dead))]);
    assert {} + {0} == {0};
    StepTo(es + [EvFanOut(0, ev)], f1, EvSend(0, 0), f2);
    StepTo(es + [EvFanOut(0, ev)] + [EvSend(0, 0)], f2, EvUnlock(0), f');
    es' := es + [EvFanOut(0, ev), EvSend(0, 0), EvUnlock(0)];
    assert es' == es + [EvFanOut(0, ev)] + [EvSend(0, 0)] + [EvUnlock(0)];
  }

  /** The double close happens: a dropped subscriber's one and only unsub panics. */
  lemma DroppedUnsubPanics(ev: StreamEvent) returns (es: seq<Event>)
    ensures Exec(es + [EvUnsub(0)]).Some? && Exec(es + [EvUnsub(0)]).value.panicked && EvUnsub(0) !in es
  {
    es := DropTheOnlyOne(ev);
    StepTo(es, Dropped(ev), EvUnsub(0), Unsubscribed(Dropped(ev), 0));
  }

  lemma SubscribeAgain(ev: StreamEvent)
    ensures var f := Dropped(ev);
            var f' := Subscribed(f, 1);
            && Enabled(f, EvSubscribe(1)) && f'.subs == {1}
            && f'.readers == [Reader(false, [ev, ev], Waiting), Reader(false, [], Waiting)]
  {
    var f := Dropped(ev);
    assert f.subs + {1} == {1} && |{1}| == 1;
    assert |f.chans| == 1 && f.readers + [Reader(false, [], Waiting)]
        == [Reader(false, [ev, ev], Waiting), Reader(false, [], Waiting)];
  }

  /** A drop that empties the map leaves its reader running, so the next Subscribe makes it two. */
  lemma DroppedLastLeavesReader(ev: StreamEvent) returns (es: seq<Event>)
    ensures Exec(es).Some? && |Exec(es).value.subs| == 1 && Uncancelled(Exec(es).value.readers) == {0, 1}
  {
    es := DropTheOnlyOne(ev);
    SubscribeAgain(ev);
    StepTo(es, Dropped(ev), EvSubscribe(1), Subscribed(Dropped(ev), 1));
    es := es + [EvSubscribe(1)];
  }
}
