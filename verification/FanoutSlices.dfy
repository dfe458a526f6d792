/** What a subscriber gets, under every interleaving and with any number of readers: from each reader a
    contiguous slice of its events, from the subscription up to the first one that found the buffer full. */
module FanoutSlices {
  import opened Common
  import opened Fanout

  /** The events of one reader among those sent, in order. */
  function From(r: nat, sent: seq<Tagged>): seq<StreamEvent> {
    if sent == [] then []
    else
      var n := |sent| - 1;
      From(r, sent[..n]) + if sent[n].reader == r then [sent[n].ev] else []
  }

  lemma FromSnoc(r: nat, sent: seq<Tagged>, x: Tagged)
    ensures From(r, sent + [x]) == From(r, sent) + if x.reader == r then [x.ev] else []
  {
    assert (sent + [x])[..|sent|] == sent;
  }

  lemma {:induction false} FromNobody(r: nat, sent: seq<Tagged>)
    requires forall i :: 0 <= i < |sent| ==> sent[i].reader != r
    ensures From(r, sent) == []
  {
    if sent != [] {
      FromNobody(r, sent[..|sent| - 1]);
    }
  }

  lemma {:induction false} FromEverybody(r: nat, sent: seq<Tagged>)
    requires forall i :: 0 <= i < |sent| ==> sent[i].reader == r
    ensures |From(r, sent)| == |sent| && forall i :: 0 <= i < |sent| ==> From(r, sent)[i] == sent[i].ev
  {
    if sent != [] {
      FromEverybody(r, sent[..|sent| - 1]);
    }
  }

  /** The reader is in its send phase and has not come to this subscriber yet. */
  predicate Awaits(rd: Reader, id: nat) { rd.pc.Sending? && id in rd.pc.todo }

  /** Index of the reader's first event that the subscriber does not have. */
  function Reached(ch: Chan, r: nat): nat { ch.JoinedAt(r) + |From(r, ch.sent)| }

  ghost predicate SliceOk(f: Fan, id: nat, r: nat)
    requires id < |f.chans| && r < |f.readers|
  {
    var ch, evs := f.chans[id], f.readers[r].events;
    var n := Reached(ch, r);
    && n <= |evs| && From(r, ch.sent) == evs[ch.JoinedAt(r)..n]
    && (r in ch.missed ==> ch.missed[r] == n < |evs|)
    && (id in f.subs ==>
          if r in ch.missed then InDead(f, r, id) && n == |evs| - 1
          else n == |evs| - if Awaits(f.readers[r], id) then 1 else 0)
  }

  /** Only existing readers have sent to a channel or missed it. */
  ghost predicate TagsOk(f: Fan, id: nat)
    requires id < |f.chans|
  {
    && (forall i :: 0 <= i < |f.chans[id].sent| ==> f.chans[id].sent[i].reader < |f.readers|)
    && (forall r :: r in f.chans[id].missed ==> r < |f.readers|)
  }

  ghost predicate Slices(f: Fan) {
    && (forall id :: 0 <= id < |f.chans| ==> TagsOk(f, id))
    && (forall id, r :: 0 <= id < |f.chans| && 0 <= r < |f.readers| ==> SliceOk(f, id, r))
  }

  lemma SlicesSubscribe(f: Fan, b: int)
    requires Lifecycle(f) && Slices(f) && Enabled(f, EvSubscribe(b))
    ensures Slices(Subscribed(f, b))
  {
    var f' := Subscribed(f, b);
    forall id | 0 <= id < |f'.chans| ensures TagsOk(f', id) {
      if id < |f.chans| { assert TagsOk(f, id); }
    }
    assert f.subs != {} ==> |f.subs + {|f.chans|}| > 1 by {
      if f.subs != {} { assert |f.subs| > 0; }
    }
    forall id, r | 0 <= id < |f'.chans| && 0 <= r < |f'.readers| ensures SliceOk(f', id, r) {
      if id < |f.chans| {
        assert ChanOk(f, id) && TagsOk(f, id);
        if r < |f.readers| {
          assert SliceOk(f, id, r);
        } else {
          FromNobody(r, f.chans[id].sent);
        }
      }
    }
  }

  lemma SlicesFanOut(f: Fan, r: nat, ev: StreamEvent)
    requires Lifecycle(f) && Slices(f) && Enabled(f, EvFanOut(r, ev))
    ensures Slices(Next(f, EvFanOut(r, ev)))
  {
    var f' := Next(f, EvFanOut(r, ev));
    forall id | 0 <= id < |f'.chans| ensures TagsOk(f', id) { assert TagsOk(f, id); }
    forall id, x | 0 <= id < |f'.chans| && 0 <= x < |f'.readers| ensures SliceOk(f', id, x) {
      assert SliceOk(f, id, x);
    }
  }

  /** Before its send to a subscriber, the reader has missed none of its events there. */
  lemma BeforeSend(f: Fan, r: nat, id: nat)
    requires Lifecycle(f) && Slices(f) && Enabled(f, EvSend(r, id))
    ensures id < |f.chans| && id in f.subs && f.chans[id].open && f.readers[r].events != []
    ensures r !in f.chans[id].missed && Reached(f.chans[id], r) == |f.readers[r].events| - 1
  {
    assert PCOk(f, f.readers[r]) && ChanOk(f, id) && SliceOk(f, id, r);
  }

  lemma SliceMissed(f: Fan, r: nat, id: nat, x: nat)
    requires Lifecycle(f) && Slices(f) && Enabled(f, EvSend(r, id)) && x < |f.readers|
    requires id < |f.chans| && f.chans[id].Full()
    ensures var f' := Sent(f, r, id); |f'.readers| == |f.readers| && |f'.chans| == |f.chans| && SliceOk(f', id, x)
  {
    BeforeSend(f, r, id);
    var f' := Sent(f, r, id);
    assert SliceOk(f, id, x);
    var ch := f.chans[id];
    var n := |f.readers[r].events| - 1;
    assert f'.chans[id] == ch.(missed := ch.missed[r := n]);
    assert InDead(f', r, id);
    assert Reached(f'.chans[id], x) == Reached(ch, x);
  }

  /** The step's shape when the buffer has room. */
  lemma GrownShape(f: Fan, r: nat, id: nat)
    requires Enabled(f, EvSend(r, id)) && id < |f.chans| && f.chans[id].open && f.readers[r].events != []
    requires !f.chans[id].Full()
    ensures var ch, rd := f.chans[id], f.readers[r];
            Sent(f, r, id) ==
            f.(chans := f.chans[id := ch.(sent := ch.sent + [Tagged(r, rd.events[|rd.events| - 1])])],
               readers := f.readers[r := rd.(pc := Sending(rd.pc.todo - {id}, rd.pc.dead))])
  {
  }

  /** One more event of reader r in the channel. */
  lemma ReachedMore(ch: Chan, r: nat, evs: seq<StreamEvent>, x: nat)
    requires evs != []
    requires x == r ==>
               ch.JoinedAt(r) + |From(r, ch.sent)| == |evs| - 1 && From(r, ch.sent) == evs[ch.JoinedAt(r)..|evs| - 1]
    ensures var n := |evs| - 1;
            var grown := ch.(sent := ch.sent + [Tagged(r, evs[n])]);
            && grown.JoinedAt(x) == ch.JoinedAt(x)
            && Reached(grown, x) == Reached(ch, x) + (if x == r then 1 else 0)
            && From(x, grown.sent) == if x == r then evs[ch.JoinedAt(r)..n + 1] else From(x, ch.sent)
  {
    var n := |evs| - 1;
    FromSnoc(x, ch.sent, Tagged(r, evs[n]));
    if x == r {
      SliceSnoc(evs, ch.JoinedAt(r), n);
    } else {
      assert From(x, ch.sent) + [] == From(x, ch.sent);
    }
  }

  lemma SliceGrown(f: Fan, r: nat, id: nat, x: nat)
    requires Lifecycle(f) && Slices(f) && Enabled(f, EvSend(r, id)) && x < |f.readers|
    requires id < |f.chans| && !f.chans[id].Full()
    ensures var f' := Sent(f, r, id); |f'.readers| == |f.readers| && |f'.chans| == |f.chans| && SliceOk(f', id, x)
  {
    BeforeSend(f, r, id);
    GrownShape(f, r, id);
    assert SliceOk(f, id, r) && SliceOk(f, id, x);
    ReachedMore(f.chans[id], r, f.readers[r].events, x);
    var f' := Sent(f, r, id);
    assert f'.readers[x].events == f.readers[x].events && f'.subs == f.subs;
    assert Awaits(f'.readers[x], id) <==> x != r && Awaits(f.readers[x], id);
    assert x != r && InDead(f, x, id) ==> InDead(f', x, id);
  }

  lemma SliceSnoc(evs: seq<StreamEvent>, a: nat, n: nat)
    requires a <= n < |evs|
    ensures evs[a..n] + [evs[n]] == evs[a..n + 1]
  {
  }

  lemma SlicesSend(f: Fan, r: nat, id: nat)
    requires Lifecycle(f) && Slices(f) && Enabled(f, EvSend(r, id))
    ensures Slices(Sent(f, r, id))
  {
    var f' := Sent(f, r, id);
    assert PCOk(f, f.readers[r]) && ChanOk(f, id);
    forall i | 0 <= i < |f'.chans| ensures TagsOk(f', i) { assert TagsOk(f, i); }
    forall i, x | 0 <= i < |f'.chans| && 0 <= x < |f'.readers| ensures SliceOk(f', i, x) {
      if i == id {
        if f.chans[id].Full() {
          SliceMissed(f, r, id, x);
        } else {
          SliceGrown(f, r, id, x);
        }
      } else {
        assert SliceOk(f, i, x);
      }
    }
  }

  /** Steps that send nothing. */
  lemma SlicesKept(f: Fan, f': Fan)
    requires Slices(f) && |f'.chans| == |f.chans| && |f'.readers| == |f.readers| && f'.subs <= f.subs
    requires forall id :: 0 <= id < |f.chans| ==>
               f'.chans[id].sent == f.chans[id].sent && f'.chans[id].joined == f.chans[id].joined
                   && f'.chans[id].missed == f.chans[id].missed
    requires forall r :: 0 <= r < |f.readers| ==> f'.readers[r].events == f.readers[r].events
    requires forall r, id: nat :: 0 <= r < |f.readers| && id in f'.subs ==>
               Awaits(f'.readers[r], id) == Awaits(f.readers[r], id) && (InDead(f, r, id) ==> InDead(f', r, id))
    ensures Slices(f')
  {
    forall id | 0 <= id < |f'.chans| ensures TagsOk(f', id) { assert TagsOk(f, id); }
    forall id, x | 0 <= id < |f'.chans| && 0 <= x < |f'.readers| ensures SliceOk(f', id, x) {
      assert SliceOk(f, id, x);
    }
  }

  lemma SlicesRemoved(f: Fan, r: nat, f': Fan, gone: set<nat>)
    requires Slices(f) && r < |f.readers| && f.readers[r].pc.Removing? && gone == f.readers[r].pc.dead * f.subs
    requires f'.subs == f.subs - gone && f'.chans == AllClosed(f.chans, gone)
    requires f'.readers == f.readers[r := f.readers[r].(pc := Waiting)]
    ensures Slices(f')
  {
    forall x, id: nat | 0 <= x < |f.readers| && id in f'.subs
      ensures Awaits(f'.readers[x], id) == Awaits(f.readers[x], id) && (InDead(f, x, id) ==> InDead(f', x, id))
    {
      if x == r {
        assert id !in f.readers[r].pc.dead;
      }
    }
    SlicesKept(f, f');
  }

  lemma SlicesRemove(f: Fan, r: nat)
    requires Lifecycle(f) && Slices(f) && Enabled(f, EvRemove(r))
    ensures Slices(Removed(f, r))
  {
    RemovedShape(f, r);
    SlicesRemoved(f, r, Removed(f, r), f.readers[r].pc.dead * f.subs);
  }

  lemma SlicesOther(f: Fan, e: Event)
    requires Lifecycle(f) && Slices(f) && Enabled(f, e) && !Next(f, e).panicked
    requires e.EvUnsub? || e.EvReceive? || e.EvUnlock? || e.EvExit?
    ensures Slices(Next(f, e))
  {
    SlicesKept(f, Next(f, e));
  }

  lemma SlicesStep(f: Fan, e: Event)
    requires Lifecycle(f) && Slices(f) && Enabled(f, e) && !Next(f, e).panicked
    ensures Slices(Next(f, e))
  {
    if e.EvSubscribe? {
      SlicesSubscribe(f, e.bufSize);
    } else if e.EvFanOut? {
      SlicesFanOut(f, e.r, e.ev);
    } else if e.EvSend? {
      SlicesSend(f, e.r, e.id);
    } else if e.EvRemove? {
      SlicesRemove(f, e.r);
    } else {
      SlicesOther(f, e);
    }
  }

  lemma {:induction false} SlicesReachable(es: seq<Event>)
    requires Exec(es).Some? && !Exec(es).value.panicked
    ensures Slices(Exec(es).value)
  {
    if es != [] {
      var before := es[..|es| - 1];
      SlicesReachable(before);
      Reachable(before);
      SlicesStep(Exec(before).value, es[|es| - 1]);
    }
  }

  /** Gap-free and duplicate-free delivery: of each reader's events, what the subscriber received and
      what its buffer holds together are a contiguous slice starting at its subscription.  The slice
      ends at the first event that found the buffer full; before that, and while subscribed, it lacks
      at most the event being fanned out. */
  lemma DeliveryIsContiguous(es: seq<Event>, id: nat, r: nat)
    requires Exec(es).Some? && !Exec(es).value.panicked
    requires id < |Exec(es).value.chans| && r < |Exec(es).value.readers|
    ensures var f := Exec(es).value;
            var ch, evs := f.chans[id], f.readers[r].events;
            var n := Reached(ch, r);
            && ch.taken <= |ch.sent| <= ch.taken + ch.cap
            && ch.JoinedAt(r) <= n <= |evs|
            && From(r, ch.sent[..ch.taken] + ch.sent[ch.taken..]) == evs[ch.JoinedAt(r)..n]
            && (r in ch.missed ==> n == ch.missed[r])
            && (r in ch.missed <==> FoundFull(es, id, r))
            && (id in f.subs && r !in ch.missed ==> n == |evs| - if Awaits(f.readers[r], id) then 1 else 0)
  {
    SlicesReachable(es);
    Reachable(es);
    MissedIffFoundFull(es, id, r);
    var f := Exec(es).value;
    assert SliceOk(f, id, r) && ChanOk(f, id);
    assert f.chans[id].sent[..f.chans[id].taken] + f.chans[id].sent[f.chans[id].taken..] == f.chans[id].sent;
  }

  /** With one reader doing the fanning out, the channel's content itself is that slice. */
  lemma {:induction false} SingleReaderDelivery(es: seq<Event>, id: nat, r: nat)
    requires Exec(es).Some? && !Exec(es).value.panicked
    requires id < |Exec(es).value.chans| && r < |Exec(es).value.readers|
    requires forall i :: 0 <= i < |Exec(es).value.chans[id].sent| ==> Exec(es).value.chans[id].sent[i].reader == r
    ensures var f := Exec(es).value;
            var ch, evs := f.chans[id], f.readers[r].events;
            && ch.JoinedAt(r) + |ch.sent| <= |evs|
            && forall i :: 0 <= i < |ch.sent| ==> ch.sent[i].ev == evs[ch.JoinedAt(r) + i]
  {
    SlicesReachable(es);
    var f := Exec(es).value;
    var ch, evs := f.chans[id], f.readers[r].events;
    assert SliceOk(f, id, r);
    FromEverybody(r, ch.sent);
    forall i | 0 <= i < |ch.sent| ensures ch.sent[i].ev == evs[ch.JoinedAt(r) + i] {
      assert From(r, ch.sent)[i] == ch.sent[i].ev;
    }
  }
}
