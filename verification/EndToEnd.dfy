/** From the webhook to the subscriber: the pipeline writes the tenant's stream and the readers fan it out. */
module EndToEnd {
  import opened Common
  import opened Queue
  import opened Processor
  import P = Pipeline
  import Guarantees
  import F = Fanout
  import FanoutSlices
  import T = TenantStream
  import L = LiveFeed

  /** The entry carries the values of some append that the pipeline made to the tenant's stream. */
  ghost predicate WrittenBy(c: Cfg, s: P.Sys, tenantID: GoString, e: T.Entry) {
    exists j :: 0 <= j < |s.store.appends| && Wrote(c, s, tenantID, j, e)
  }

  ghost predicate Wrote(c: Cfg, s: P.Sys, tenantID: GoString, j: nat, e: T.Entry)
    requires j < |s.store.appends|
  {
    var a := s.store.appends[j];
    && a.target == Tenant(TenantStreamKey(tenantID, c.prefix))
    && e.payload == if PAYLOAD in a.values then Some(a.values[PAYLOAD]) else None
  }

  /** Every entry appended to the tenant's stream since position from was written by the pipeline. */
  ghost predicate Fed(c: Cfg, s: P.Sys, tenantID: GoString, log: seq<T.Entry>, from: nat) {
    forall k :: from <= k < |log| ==> WrittenBy(c, s, tenantID, log[k])
  }

  lemma {:induction false} SentIsFrom(sent: seq<F.Tagged>, i: nat)
    requires i < |sent|
    ensures sent[i].ev in FanoutSlices.From(sent[i].reader, sent)
  {
    var n := |sent| - 1;
    if i < n {
      SentIsFrom(sent[..n], i);
    }
  }

  /** The entry that an event in a channel came from. */
  lemma SentHasEntry(s0: L.Live, es: seq<L.LiveEvent>, none: int, id: nat, i: nat) returns (k: nat)
    requires L.Initial(s0, none) && L.Exec(s0, es, none).Some? && L.Smooth(s0, es, none)
    requires var s := L.Exec(s0, es, none).value; id < |s.fan.chans| && i < |s.fan.chans[id].sent|
    ensures var s := L.Exec(s0, es, none).value;
            |s0.log| <= k < |s.log| && T.Writes(s.log[k], s.fan.chans[id].sent[i].ev)
  {
    L.Reachable(s0, es, none);
    var s := L.Exec(s0, es, none).value;
    var ch := s.fan.chans[id];
    var r, ev := ch.sent[i].reader, ch.sent[i].ev;
    assert FanoutSlices.TagsOk(s.fan, id);
    SentIsFrom(ch.sent, i);
    var n, m := L.LiveDelivery(s0, es, none, id, r);
    var sent := L.SentAt(s0, es, none, r, n);
    var due := T.Between(s.log, sent, |s.log|);
    L.FeedFollows(s0, es, none, r);
    assert ev in due;
    T.EventsCarried(s.log, sent, |s.log|, ev);
    k :| sent <= k < |s.log| && T.Writes(s.log[k], ev);
  }

  /** Every event that was ever put in a subscriber's channel is byte for byte the body of a publish that the
      API made for that tenant, through the work queue, the workers, the tenant's stream and the fan-out. */
  lemma SubscribersGetAcceptedBodies(
    c: Cfg, p0: P.Sys, ps: seq<P.Event>, tenantID: GoString,
    s0: L.Live, es: seq<L.LiveEvent>, none: int, id: nat, i: nat) returns (n: nat)
    requires P.IsRun(c, p0, ps) && forall m :: 0 <= m < |ps| ==> !ps[m].EvInject?
    requires L.Initial(s0, none) && L.Exec(s0, es, none).Some? && L.Smooth(s0, es, none)
    requires Fed(c, P.After(c, p0, ps), tenantID, L.Exec(s0, es, none).value.log, |s0.log|)
    requires var s := L.Exec(s0, es, none).value; id < |s.fan.chans| && i < |s.fan.chans[id].sent|
    ensures n < |ps| && ps[n].EvPublish? && ps[n].reply.Applied() && c.parse(ps[n].tenantID) == Some(tenantID)
    ensures L.Exec(s0, es, none).value.fan.chans[id].sent[i].ev.payload == ps[n].body
  {
    var s := L.Exec(s0, es, none).value;
    var k := SentHasEntry(s0, es, none, id, i);
    assert WrittenBy(c, P.After(c, p0, ps), tenantID, s.log[k]);
    var j :| 0 <= j < |P.After(c, p0, ps).store.appends| && Wrote(c, P.After(c, p0, ps), tenantID, j, s.log[k]);
    n := Guarantees.TenantStreamsHoldAcceptedBodies(c, p0, ps, j, tenantID);
    PayloadIs(s.log[k], ps[n].body, s.fan.chans[id].sent[i].ev);
  }

  lemma PayloadIs(e: T.Entry, body: GoString, ev: F.StreamEvent)
    requires e.payload == Some(Str(body)) && T.Writes(e, ev)
    ensures ev.payload == body
  {
  }
}
