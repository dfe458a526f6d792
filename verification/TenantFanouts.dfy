/** The objects of go-api/internal/service/fanout.go.  Each method is one critical section; the state
    machine of Fanout interleaves them. */
module TenantFanouts {
  import opened Common
  import opened Fanout

  /** The whole send phase at once: every subscriber is offered the current event. */
  function AllSent(f: Fan, r: nat): Fan
    requires r < |f.readers| && f.readers[r].pc.Sending? && f.readers[r].events != []
  {
    var rd := f.readers[r];
    f.(chans := OfferedTo(f, r, rd), readers := f.readers[r := rd.(pc := Sending({}, DeadAfter(f, rd)))])
  }

  function AllOffered(chans: seq<Chan>, ids: set<nat>, r: nat, ev: StreamEvent, n: nat): (res: seq<Chan>)
    ensures |res| == |chans|
    ensures forall id :: 0 <= id < |chans| ==> res[id] == if id in ids then Offered(chans[id], r, ev, n) else chans[id]
  {
    seq(|chans|, id requires 0 <= id < |chans| => if id in ids then Offered(chans[id], r, ev, n) else chans[id])
  }

  function FullOnes(chans: seq<Chan>, ids: set<nat>): set<nat> {
    set id | id in ids && id < |chans| && chans[id].Full()
  }

  lemma OfferOneFirst(chans: seq<Chan>, ids: set<nat>, id: nat, r: nat, ev: StreamEvent, n: nat)
    requires id in ids && id < |chans|
    ensures AllOffered(chans[id := Offered(chans[id], r, ev, n)], ids - {id}, r, ev, n)
        == AllOffered(chans, ids, r, ev, n)
  {
  }

  lemma FullOneFirst(chans: seq<Chan>, ids: set<nat>, id: nat, ch: Chan)
    requires id in ids && id < |chans|
    ensures FullOnes(chans, ids) == FullOnes(chans[id := ch], ids - {id}) + if chans[id].Full() then {id} else {}
  {
  }

  /** f' is f after reader r has offered its current event to one pending subscriber. */
  ghost predicate OneSent(f: Fan, f': Fan, r: nat, id: nat) {
    && r < |f.readers| && f.readers[r].pc.Sending? && f.readers[r].events != []
    && id in f.readers[r].pc.todo && id < |f.chans|
    && var rd := f.readers[r];
       var n := |rd.events| - 1;
       var dead := rd.pc.dead + if f.chans[id].Full() then {id} else {};
       f' == f.(chans := f.chans[id := Offered(f.chans[id], r, rd.events[n], n)],
                readers := f.readers[r := rd.(pc := Sending(rd.pc.todo - {id}, dead))])
  }

  lemma SentIsOne(f: Fan, r: nat, id: nat)
    requires Enabled(f, EvSend(r, id)) && id < |f.chans| && f.chans[id].open && f.readers[r].events != []
    ensures OneSent(f, Sent(f, r, id), r, id)
  {
    var dead := f.readers[r].pc.dead;
    assert dead + {} == dead;
  }

  /** The channels after the whole phase. */
  function OfferedTo(f: Fan, r: nat, rd: Reader): seq<Chan>
    requires rd.pc.Sending? && rd.events != []
  {
    AllOffered(f.chans, rd.pc.todo, r, rd.events[|rd.events| - 1], |rd.events| - 1)
  }

  /** The subscribers that are dead after it. */
  function DeadAfter(f: Fan, rd: Reader): set<nat>
    requires rd.pc.Sending?
  {
    rd.pc.dead + FullOnes(f.chans, rd.pc.todo)
  }

  lemma OneSentChans(f: Fan, f': Fan, r: nat, id: nat)
    requires OneSent(f, f', r, id)
    ensures var rd, rd' := f.readers[r], f'.readers[r];
            rd'.events == rd.events && rd'.pc.Sending? && OfferedTo(f', r, rd') == OfferedTo(f, r, rd)
  {
    var rd := f.readers[r];
    OfferOneFirst(f.chans, rd.pc.todo, id, r, rd.events[|rd.events| - 1], |rd.events| - 1);
  }

  lemma OneSentDead(f: Fan, f': Fan, r: nat, id: nat)
    requires OneSent(f, f', r, id)
    ensures var rd, rd' := f.readers[r], f'.readers[r]; rd'.pc.Sending? && DeadAfter(f', rd') == DeadAfter(f, rd)
  {
    var rd, rd' := f.readers[r], f'.readers[r];
    FullOneFirst(f.chans, rd.pc.todo, id, f'.chans[id]);
    SameUnion(rd.pc.dead, FullOnes(f'.chans, rd'.pc.todo), if f.chans[id].Full() then {id} else {}, rd'.pc.dead,
              DeadAfter(f, rd));
  }

  lemma OneSentSameOutcome(f: Fan, f': Fan, r: nat, id: nat)
    requires OneSent(f, f', r, id)
    ensures r < |f'.readers| && f'.readers[r].pc.Sending? && f'.readers[r].events != []
    ensures AllSent(f', r) == AllSent(f, r)
  {
    var rd := f.readers[r];
    OneSentChans(f, f', r, id);
    OneSentDead(f, f', r, id);
    SameOverwrite(f, f', r, OfferedTo(f, r, rd), rd.(pc := Sending({}, DeadAfter(f, rd))), f'.readers[r]);
  }

  /** What two states that differ only in the channels and one reader become when these are overwritten. */
  lemma SameOverwrite(f: Fan, f': Fan, r: nat, chans: seq<Chan>, d: Reader, x: Reader)
    requires r < |f.readers| && f' == f.(chans := f'.chans, readers := f.readers[r := x])
    ensures f'.(chans := chans, readers := f'.readers[r := d]) == f.(chans := chans, readers := f.readers[r := d])
  {
    OverwrittenReader(f.readers, r, x, d);
  }

  lemma SameUnion(d: set<nat>, rest: set<nat>, x: set<nat>, d': set<nat>, all: set<nat>)
    requires d' == d + x && all == d + (rest + x)
    ensures d' + rest == all
  {
  }

  lemma OverwrittenReader(readers: seq<Reader>, r: nat, x: Reader, y: Reader)
    requires r < |readers|
    ensures readers[r := x][r := y] == readers[r := y]
  {
  }

  /** Sending to one more subscriber leaves the outcome of the phase unchanged, so the order in which
      the map is ranged over does not matter. */
  lemma SendOrderIrrelevant(f: Fan, r: nat, id: nat)
    requires Enabled(f, EvSend(r, id)) && id < |f.chans| && f.chans[id].open && f.readers[r].events != []
    ensures var f' := Sent(f, r, id);
            && r < |f'.readers| && f'.readers[r].pc.Sending? && f'.readers[r].events != []
            && AllSent(f', r) == AllSent(f, r)
  {
    SentIsOne(f, r, id);
    OneSentSameOutcome(f, Sent(f, r, id), r, id);
  }

  lemma NothingLeftToSend(f: Fan, r: nat)
    requires r < |f.readers| && f.readers[r].pc.Sending? && f.readers[r].pc.todo == {} && f.readers[r].events != []
    ensures AllSent(f, r) == f
  {
    var rd := f.readers[r];
    var n := |rd.events| - 1;
    assert AllOffered(f.chans, {}, r, rd.events[n], n) == f.chans;
    assert FullOnes(f.chans, rd.pc.todo) == {};
    assert rd.pc.dead + {} == rd.pc.dead;
    assert rd.(pc := Sending({}, rd.pc.dead)) == rd;
    assert f.readers[r := rd] == f.readers;
  }

  predicate NoRoom(f: Fan, id: nat) { id < |f.chans| && |f.chans[id].sent| - f.chans[id].taken >= f.chans[id].cap }

  /** The send phase of one event, by what each buffer has room for: a subscriber with room has the event
      appended, one without is recorded as having missed it and becomes dead. */
  ghost predicate SendPhase(f: Fan, f': Fan, r: nat, ev: StreamEvent) {
    && r < |f.readers| && f'.subs == f.subs && f'.cancel == f.cancel && |f'.chans| == |f.chans|
    && var rd := f.readers[r];
       && (forall id :: 0 <= id < |f.chans| ==>
             var ch := f.chans[id];
             f'.chans[id] == if id !in f.subs then ch
                             else if |ch.sent| - ch.taken < ch.cap then ch.(sent := ch.sent + [Tagged(r, ev)])
                             else ch.(missed := ch.missed[r := |rd.events|]))
       && var full := set id | id in f.subs && NoRoom(f, id);
          var pc := if full == {} then Waiting else Removing(full);
          f'.readers == f.readers[r := rd.(events := rd.events + [ev], pc := pc)]
  }

  lemma FullIsNoRoom(f: Fan)
    ensures FullOnes(f.chans, f.subs) == set id | id in f.subs && NoRoom(f, id)
  {
  }

  /** AllSent and the unlock, from the moment the read lock is taken. */
  lemma PhaseShape(f: Fan, r: nat, ev: StreamEvent)
    requires Enabled(f, EvFanOut(r, ev))
    ensures var begun := Next(f, EvFanOut(r, ev));
            && r < |begun.readers| && begun.readers[r].pc.Sending? && begun.readers[r].events != []
            && Enabled(AllSent(begun, r), EvUnlock(r))
            && var rd, n, full := f.readers[r], |f.readers[r].events|, FullOnes(f.chans, f.subs);
               Next(AllSent(begun, r), EvUnlock(r)) ==
               f.(chans := AllOffered(f.chans, f.subs, r, ev, n),
                  readers := f.readers[r := rd.(events := rd.events + [ev],
                                                pc := if full == {} then Waiting else Removing(full))])
  {
    var full := FullOnes(f.chans, f.subs);
    assert {} + full == full;
    var rd := f.readers[r];
    var pc := if full == {} then Waiting else Removing(full);
    var begun := Next(f, EvFanOut(r, ev));
    var all := AllSent(begun, r);
    assert all.readers[r] == rd.(events := rd.events + [ev], pc := Sending({}, full));
    assert all.readers == f.readers[r := all.readers[r]];
    assert all.readers[r := all.readers[r].(pc := pc)] == f.readers[r := rd.(events := rd.events + [ev], pc := pc)];
  }

  lemma SendPhaseExact(f: Fan, r: nat, ev: StreamEvent)
    requires Lifecycle(f) && Enabled(f, EvFanOut(r, ev))
    ensures var begun := Next(f, EvFanOut(r, ev));
            && r < |begun.readers| && begun.readers[r].pc.Sending? && begun.readers[r].events != []
            && Enabled(AllSent(begun, r), EvUnlock(r))
            && SendPhase(f, Next(AllSent(begun, r), EvUnlock(r)), r, ev)
  {
    PhaseShape(f, r, ev);
    FullIsNoRoom(f);
  }

  class TenantFanout {
    const tenantID: GoString
    var subs: set<nat>
    var chans: seq<Chan>
    var nextSubID: nat
    var cancel: Option<nat>
    var readers: seq<Reader>
    ghost var emptied: nat

    ghost predicate Valid()
      reads this
    {
      nextSubID == |chans| && Lifecycle(View())
    }

    ghost function View(): Fan
      reads this
    {
      Fan(subs, chans, cancel, readers, false, emptied)
    }

    constructor (tenantID: GoString)
      ensures Valid() && View() == EMPTY && this.tenantID == tenantID
    {
      this.tenantID := tenantID;
      subs, chans, nextSubID, cancel, readers, emptied := {}, [], 0, None, [], 0;
      new;
      Reachable([]);
    }

    method Subscribe(bufSize: int) returns (subID: nat)
      requires Valid() && WriteLockFree(View())
      modifies this
      ensures Valid() && View() == Subscribed(old(View()), bufSize) && subID == old(nextSubID)
      ensures subs == old(subs) + {subID} && |chans| == |old(chans)| + 1 && chans[..|old(chans)|] == old(chans)
      ensures subID == |old(chans)| && var ch := chans[subID];
              && ch.cap == (if bufSize <= 0 then 100 else bufSize) && ch.open && ch.sent == [] && ch.taken == 0
              && ch.missed == map[] && |ch.joined| == |old(readers)|
              && forall r :: 0 <= r < |old(readers)| ==> ch.joined[r] == |old(readers)[r].events|
      ensures if old(subs) == {} then
                cancel == Some(|old(readers)|) && readers == old(readers) + [Reader(false, [], Waiting)]
              else cancel == old(cancel) && readers == old(readers)
    {
      LifecycleSubscribe(View(), bufSize);
      ghost var was := View();
      subID := nextSubID;
      nextSubID := nextSubID + 1;
      assert |subs + {subID}| == |subs| + 1;
      assert subs != {} ==> |subs| >= 1;
      var size := if bufSize <= 0 then FALLBACK_BUFFER else bufSize;
      chans := chans + [Chan(size, [], 0, true, EventCounts(readers), map[])];
      subs := subs + {subID};
      if |subs| == 1 {
        cancel := Some(|readers|);
        readers := readers + [Reader(false, [], Waiting)];
      }
      assert View() == Subscribed(was, bufSize);
    }

    /** The function Subscribe returns.  Called for an id that has left the map, it closes a closed channel,
        which panics. */
    method Unsub(subID: nat) returns (panics: bool)
      requires Valid() && WriteLockFree(View()) && subID < nextSubID
      modifies this
      ensures panics == Unsubscribed(old(View()), subID).panicked
      ensures panics <==> subID !in old(subs)
      ensures Valid() && View() == if panics then old(View()) else Unsubscribed(old(View()), subID)
      ensures !panics ==>
                && subs == old(subs) - {subID} && subID < |old(chans)|
                && chans == old(chans)[subID := old(chans)[subID].(open := false)]
                && if subs != {} then cancel == old(cancel) && readers == old(readers)
                   else
                     && cancel == None && old(cancel).Some? && old(cancel).value < |old(readers)|
                     && var reader := old(cancel).value;
                        readers == old(readers)[reader := old(readers)[reader].(cancelled := true)]
    {
      assert ChanOk(View(), subID);
      if subID !in subs {
        assert !chans[subID].open;
        return true;
      }
      LifecycleUnsub(View(), subID);
      subs := subs - {subID};
      chans := chans[subID := chans[subID].(open := false)];
      if subs == {} && cancel.Some? {
        readers := readers[cancel.value := readers[cancel.value].(cancelled := true)];
        cancel := None;
      }
      return false;
    }

    /** The non-blocking send of fanOut's loop. */
    method SendTo(r: nat, id: nat)
      requires Valid() && Enabled(View(), EvSend(r, id))
      modifies this`chans, this`readers
      ensures Valid() && View() == Sent(old(View()), r, id)
      ensures id < |old(chans)| && r < |old(readers)| && old(readers)[r].pc.Sending? && old(readers)[r].events != []
      ensures var ch, rd := old(chans)[id], old(readers)[r];
              var n := |rd.events| - 1;
              if |ch.sent| - ch.taken < ch.cap then
                && chans == old(chans)[id := ch.(sent := ch.sent + [Tagged(r, rd.events[n])])]
                && readers == old(readers)[r := rd.(pc := Sending(rd.pc.todo - {id}, rd.pc.dead))]
              else
                && chans == old(chans)[id := ch.(missed := ch.missed[r := n])]
                && readers == old(readers)[r := rd.(pc := Sending(rd.pc.todo - {id}, rd.pc.dead + {id}))]
    {
      ghost var was := View();
      LifecycleSend(was, r, id);
      assert ChanOk(was, id) && PCOk(was, readers[r]);
      var rd := readers[r];
      var n := |rd.events| - 1;
      var dead := rd.pc.dead;
      if |chans[id].sent| - chans[id].taken < chans[id].cap {
        chans := chans[id := chans[id].(sent := chans[id].sent + [Tagged(r, rd.events[n])])];
      } else {
        dead := dead + {id};
        chans := chans[id := chans[id].(missed := chans[id].missed[r := n])];
      }
      readers := readers[r := rd.(pc := Sending(rd.pc.todo - {id}, dead))];
    }

    /** fanOut up to its RUnlock: one non-blocking send to every subscriber, in any order. */
    method FanOutSend(r: nat, ev: StreamEvent)
      requires Valid() && Enabled(View(), EvFanOut(r, ev))
      modifies this
      ensures Valid() && r < |readers|
      ensures var begun := Next(old(View()), EvFanOut(r, ev));
              Enabled(AllSent(begun, r), EvUnlock(r)) && View() == Next(AllSent(begun, r), EvUnlock(r))
      ensures SendPhase(old(View()), View(), r, ev)
    {
      LifecycleReader(View(), EvFanOut(r, ev));
      ghost var begun := Next(View(), EvFanOut(r, ev));
      readers := readers[r := readers[r].(events := readers[r].events + [ev], pc := Sending(subs, {}))];
      assert View() == begun;
      while readers[r].pc.todo != {}
        invariant Valid() && r < |readers| && readers[r].pc.Sending? && readers[r].events != []
        invariant AllSent(View(), r) == AllSent(begun, r)
        decreases readers[r].pc.todo
      {
        var id :| id in readers[r].pc.todo;
        assert PCOk(View(), readers[r]) && ChanOk(View(), id);
        SendOrderIrrelevant(View(), r, id);
        SendTo(r, id);
      }
      NothingLeftToSend(View(), r);
      LifecycleReader(View(), EvUnlock(r));
      SendPhaseExact(old(View()), r, ev);
      var dead := readers[r].pc.dead;
      readers := readers[r := readers[r].(pc := if dead == {} then Waiting else Removing(dead))];
    }

    /** The loop of fanOut's second phase, under the write lock. */
    method CloseDead(dead: set<nat>)
      requires forall id :: id in dead ==> id < |chans|
      modifies this`subs, this`chans
      ensures subs == old(subs) - dead && chans == AllClosed(old(chans), dead * old(subs))
    {
      ghost var before := subs;
      ghost var was := chans;
      var todo := dead;
      while todo != {}
        invariant todo <= dead && |chans| == |was|
        invariant forall id :: id in subs <==> id in before && (id in dead ==> id in todo)
        invariant forall i :: 0 <= i < |chans| ==>
                    chans[i] == if i in dead && i in before && i !in todo then was[i].(open := false) else was[i]
        decreases todo
      {
        var id :| id in todo;
        if id in subs {
          chans := chans[id := chans[id].(open := false)];
          subs := subs - {id};
        }
        todo := todo - {id};
      }
      assert chans == AllClosed(was, dead * before);
    }

    /** fanOut from its Lock to its Unlock: close and delete the full subscribers that are still there. */
    method FanOutRemove(r: nat)
      requires Valid() && Enabled(View(), EvRemove(r))
      modifies this
      ensures Valid() && View() == Removed(old(View()), r)
      ensures r < |old(readers)| && old(readers)[r].pc.Removing?
      ensures var dead := old(readers)[r].pc.dead;
              && subs == old(subs) - dead && |chans| == |old(chans)| && cancel == old(cancel)
              && (forall id :: 0 <= id < |chans| ==>
                    chans[id] == if id in dead && id in old(subs) then old(chans)[id].(open := false)
                                 else old(chans)[id])
              && readers == old(readers)[r := old(readers)[r].(pc := Waiting)]
    {
      ghost var was := View();
      LifecycleRemove(was, r);
      assert PCOk(was, readers[r]);
      var dead := readers[r].pc.dead;
      CloseDead(dead);
      readers := readers[r := readers[r].(pc := Waiting)];
      ghost var gone := dead * was.subs;
      emptied := emptied + if gone != {} && subs == {} then 1 else 0;
      assert subs == was.subs - gone;
      assert View() == Removed(was, r);
    }
  }

  /** One TenantFanout per tenant, for ever. */
  class FanoutManager {
    var fanouts: map<GoString, TenantFanout>

    ghost predicate Valid()
      reads this, fanouts.Values
    {
      forall t :: t in fanouts ==> fanouts[t].tenantID == t
    }

    constructor ()
      ensures Valid() && fanouts == map[]
    {
      fanouts := map[];
    }

    /** Repeated calls give the same object, and different tenants never share one. */
    method GetFanout(tenantID: GoString) returns (f: TenantFanout)
      requires Valid()
      modifies this
      ensures Valid()
      ensures tenantID in old(fanouts) ==> f == old(fanouts)[tenantID] && fanouts == old(fanouts)
      ensures tenantID !in old(fanouts) ==>
                fresh(f) && f.Valid() && f.View() == EMPTY && fanouts == old(fanouts)[tenantID := f]
      ensures forall t :: t in fanouts && t != tenantID ==> fanouts[t] != f
    {
      if tenantID in fanouts {
        return fanouts[tenantID];
      }
      f := new TenantFanout(tenantID);
      fanouts := fanouts[tenantID := f];
    }
  }
}
