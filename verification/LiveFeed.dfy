/** Fan-out fed by the tenant's stream: each reader goroutine follows the growing stream with a cursor of its
    own, started at "$", and fans out what its cursor emits.  The two machines run side by side. */
module LiveFeed {
  import opened Common
  import F = Fanout
  import FanoutSlices
  import T = TenantStream
  import DollarStart

  /** feeds[r] is the cursor of reader r, and started[r] the length of the log when that reader started. */
  datatype Live = Live(fan: F.Fan, feeds: seq<T.Stream>, started: seq<nat>, log: seq<T.Entry>, first: nat)

  datatype LiveEvent =
    | OnFan(e: F.Event)
    | OnFeed(r: nat, step: T.StreamStep)
    | OnAppend(entry: T.Entry)
    | OnTrim(to: nat)

  /** A reader fans out the next event of its cursor's channel. */
  predicate NextOfFeed(s: Live, e: F.Event) {
    e.EvFanOut? ==>
      && e.r < |s.feeds| && e.r < |s.fan.readers|
      && |s.fan.readers[e.r].events| < |s.feeds[e.r].emitted|
      && e.ev == s.feeds[e.r].emitted[|s.fan.readers[e.r].events|]
  }

  predicate Enabled(s: Live, e: LiveEvent, none: int) {
    match e
    case OnFan(f) => F.Enabled(s.fan, f) && NextOfFeed(s, f)
    case OnFeed(r, step) => r < |s.feeds| && !step.Append? && !step.Trim? && T.StepOk(s.feeds[r], step)
    case OnAppend(x) => none < x.id && (s.log == [] || s.log[|s.log| - 1].id < x.id)
    case OnTrim(to) => s.first <= to <= |s.log|
  }

  function Fresh(s: Live): T.Stream { T.Stream(s.log, s.first, T.Dollar, T.Idle, [], 0) }

  function WithLog(feeds: seq<T.Stream>, log: seq<T.Entry>, first: nat): seq<T.Stream> {
    seq(|feeds|, r requires 0 <= r < |feeds| => feeds[r].(log := log, first := first))
  }

  function Next(s: Live, e: LiveEvent, none: int): Live
    requires Enabled(s, e, none)
  {
    match e
    case OnFan(f) =>
      var fan' := F.Next(s.fan, f);
      if |fan'.readers| > |s.fan.readers| then
        s.(fan := fan', feeds := s.feeds + [Fresh(s)], started := s.started + [|s.log|])
      else s.(fan := fan')
    case OnFeed(r, step) => s.(feeds := s.feeds[r := T.Step(s.feeds[r], step, none)])
    case OnAppend(x) => s.(log := s.log + [x], feeds := WithLog(s.feeds, s.log + [x], s.first))
    case OnTrim(to) => s.(first := to, feeds := WithLog(s.feeds, s.log, to))
  }

  function Exec(s0: Live, es: seq<LiveEvent>, none: int): Option<Live> {
    if es == [] then Some(s0)
    else
      var n := |es| - 1;
      match Exec(s0, es[..n], none)
      case None => None
      case Some(s) => if Enabled(s, es[n], none) then Some(Next(s, es[n], none)) else None
  }

  /** A manager that has just been created, for a tenant with some stream. */
  ghost predicate Initial(s: Live, none: int) {
    && s.fan == F.EMPTY && s.feeds == [] && s.started == []
    && T.Sorted(s.log) && DollarStart.AboveNone(s.log, none) && s.first <= |s.log|
  }

  /** No blocked read had its entries trimmed away, and no unsub of a dropped subscriber panicked. */
  ghost predicate Smooth(s0: Live, es: seq<LiveEvent>, none: int)
    requires Exec(s0, es, none).Some?
  {
    es == [] ||
    var before, e := es[..|es| - 1], es[|es| - 1];
    && Smooth(s0, before, none) && !Exec(s0, es, none).value.fan.panicked
    && (e.OnFeed? ==> !T.Overrun(Exec(s0, before, none).value.feeds[e.r], e.step))
  }

  // ---- invariant ----

  ghost predicate FeedOk(s: Live, r: nat)
    requires r < |s.feeds| == |s.fan.readers|
  {
    s.feeds[r].log == s.log && s.feeds[r].first == s.first && s.fan.readers[r].events <= s.feeds[r].emitted
  }

  ghost predicate LiveInv(s: Live, none: int) {
    && F.Lifecycle(s.fan) && FanoutSlices.Slices(s.fan)
    && T.Sorted(s.log) && DollarStart.AboveNone(s.log, none) && s.first <= |s.log|
    && |s.feeds| == |s.fan.readers| == |s.started|
    && forall r :: 0 <= r < |s.feeds| ==> FeedOk(s, r)
  }

  /** What a reader has fanned out grows only by its own EvFanOut, and readers are only added. */
  lemma EventsGrow(f: F.Fan, e: F.Event, r: nat)
    requires F.Lifecycle(f) && F.Enabled(f, e) && !F.Next(f, e).panicked && r < |f.readers|
    ensures |f.readers| <= |F.Next(f, e).readers| <= |f.readers| + 1
    ensures F.Next(f, e).readers[r].events ==
            if e.EvFanOut? && e.r == r then f.readers[r].events + [e.ev] else f.readers[r].events
  {
    if e.EvRemove? {
      F.RemovedShape(f, e.r);
    }
  }

  lemma ReadersGrow(f: F.Fan, e: F.Event)
    requires F.Lifecycle(f) && F.Enabled(f, e) && !F.Next(f, e).panicked
    ensures |f.readers| <= |F.Next(f, e).readers| <= |f.readers| + 1
    ensures |F.Next(f, e).readers| > |f.readers| ==> F.Next(f, e).readers[|f.readers|].events == []
  {
    if e.EvRemove? {
      F.RemovedShape(f, e.r);
    }
  }

  lemma FanKeepsFeed(s: Live, e: F.Event, none: int, r: nat)
    requires F.Lifecycle(s.fan) && |s.feeds| == |s.fan.readers| == |s.started|
    requires Enabled(s, OnFan(e), none) && !F.Next(s.fan, e).panicked && r < |s.feeds| && FeedOk(s, r)
    ensures var s' := Next(s, OnFan(e), none);
            |s'.feeds| == |s'.fan.readers| == |s'.started| && r < |s'.feeds| && FeedOk(s', r)
  {
    ReadersGrow(s.fan, e);
    EventsGrow(s.fan, e, r);
  }

  lemma NewFeedOk(s: Live, e: F.Event, none: int)
    requires F.Lifecycle(s.fan) && |s.feeds| == |s.fan.readers| == |s.started|
    requires Enabled(s, OnFan(e), none) && !F.Next(s.fan, e).panicked
    ensures var s' := Next(s, OnFan(e), none);
            && |s'.feeds| == |s'.fan.readers| == |s'.started| && |s.feeds| <= |s'.feeds| <= |s.feeds| + 1
            && (|s'.feeds| > |s.feeds| ==> FeedOk(s', |s.feeds|))
  {
    ReadersGrow(s.fan, e);
  }

  lemma FanStep(s: Live, e: F.Event, none: int)
    requires LiveInv(s, none) && Enabled(s, OnFan(e), none) && !F.Next(s.fan, e).panicked
    ensures LiveInv(Next(s, OnFan(e), none), none)
  {
    var s' := Next(s, OnFan(e), none);
    F.LifecycleStep(s.fan, e);
    FanoutSlices.SlicesStep(s.fan, e);
    NewFeedOk(s, e, none);
    forall r | 0 <= r < |s'.feeds| ensures FeedOk(s', r) {
      if r < |s.feeds| {
        FanKeepsFeed(s, e, none, r);
      }
    }
  }

  lemma AppendStep(s: Live, x: T.Entry, none: int)
    requires LiveInv(s, none) && Enabled(s, OnAppend(x), none)
    ensures LiveInv(Next(s, OnAppend(x), none), none)
  {
    var s' := Next(s, OnAppend(x), none);
    T.SortedSnoc(s.log, x);
    forall r | 0 <= r < |s'.feeds| ensures FeedOk(s', r) {
      assert FeedOk(s, r);
    }
  }

  lemma TrimStep(s: Live, to: nat, none: int)
    requires LiveInv(s, none) && Enabled(s, OnTrim(to), none)
    ensures LiveInv(Next(s, OnTrim(to), none), none)
  {
    var s' := Next(s, OnTrim(to), none);
    forall r | 0 <= r < |s'.feeds| ensures FeedOk(s', r) {
      assert FeedOk(s, r);
    }
  }

  lemma EmittedGrows(f: T.Stream, step: T.StreamStep, none: int)
    requires T.StepOk(f, step) && !step.Append? && !step.Trim?
    ensures var f' := T.Step(f, step, none);
            f.emitted <= f'.emitted && f'.log == f.log && f'.first == f.first
  {
  }

  lemma FeedStep(s: Live, r: nat, step: T.StreamStep, none: int)
    requires LiveInv(s, none) && Enabled(s, OnFeed(r, step), none)
    ensures LiveInv(Next(s, OnFeed(r, step), none), none)
  {
    var s' := Next(s, OnFeed(r, step), none);
    EmittedGrows(s.feeds[r], step, none);
    forall x | 0 <= x < |s'.feeds| ensures FeedOk(s', x) {
      assert FeedOk(s, x);
    }
  }

  lemma {:induction false} Reachable(s0: Live, es: seq<LiveEvent>, none: int)
    requires Initial(s0, none) && Exec(s0, es, none).Some? && Smooth(s0, es, none)
    ensures LiveInv(Exec(s0, es, none).value, none)
  {
    if es == [] {
      F.Reachable([]);
    } else {
      var n := |es| - 1;
      Reachable(s0, es[..n], none);
      var s := Exec(s0, es[..n], none).value;
      match es[n]
      case OnFan(e) => FanStep(s, e, none);
      case OnFeed(r, step) => FeedStep(s, r, step, none);
      case OnAppend(x) => AppendStep(s, x, none);
      case OnTrim(to) => TrimStep(s, to, none);
    }
  }

  // ---- each reader's cursor has a run of its own ----

  /** What an event is to the cursor of reader r. */
  function StepsOf(e: LiveEvent, r: nat): seq<T.StreamStep> {
    match e
    case OnFan(_) => []
    case OnFeed(x, step) => if x == r then [step] else []
    case OnAppend(x) => [T.Append(x)]
    case OnTrim(to) => [T.Trim(to)]
  }

  /** The steps of that cursor since its reader started. */
  function FeedSteps(s0: Live, es: seq<LiveEvent>, none: int, r: nat): seq<T.StreamStep>
    requires Exec(s0, es, none).Some?
  {
    if es == [] then []
    else
      var before, e := es[..|es| - 1], es[|es| - 1];
      FeedSteps(s0, before, none, r) +
      if r < |Exec(s0, before, none).value.feeds| then StepsOf(e, r) else []
  }

  /** The cursor as it was then. */
  function FeedStart(s0: Live, es: seq<LiveEvent>, none: int, r: nat): T.Stream
    requires Exec(s0, es, none).Some?
  {
    if es == [] then Fresh(s0)
    else
      var before := es[..|es| - 1];
      var s := Exec(s0, before, none).value;
      if r < |s.feeds| then FeedStart(s0, before, none, r) else Fresh(s)
  }

  ghost predicate Follows(f0: T.Stream, fs: seq<T.StreamStep>, none: int, f: T.Stream, start: nat) {
    && T.Starts(f0, T.Dollar) && |f0.log| == start
    && T.Exec(f0, fs, none) == Some(f) && T.Kept(f0, fs, none)
  }

  lemma FollowsOne(f0: T.Stream, fs: seq<T.StreamStep>, none: int, f: T.Stream, start: nat, step: T.StreamStep)
    requires Follows(f0, fs, none, f, start) && T.StepOk(f, step) && !T.Overrun(f, step)
    ensures Follows(f0, fs + [step], none, T.Step(f, step, none), start)
  {
    T.ExecSnoc(f0, fs, step, none);
    assert (fs + [step])[..|fs + [step]| - 1] == fs;
  }

  lemma FollowsLog(s: Live, e: LiveEvent, none: int, r: nat, f0: T.Stream, fs: seq<T.StreamStep>, start: nat)
    requires LiveInv(s, none) && Enabled(s, e, none) && (e.OnAppend? || e.OnTrim?) && r < |s.feeds|
    requires Follows(f0, fs, none, s.feeds[r], start)
    ensures Follows(f0, fs + StepsOf(e, r), none, Next(s, e, none).feeds[r], start)
  {
    assert FeedOk(s, r);
    var step := StepsOf(e, r)[0];
    FollowsOne(f0, fs, none, s.feeds[r], start, step);
    assert Next(s, e, none).feeds[r] == T.Step(s.feeds[r], step, none);
  }

  lemma FollowsFeed(s: Live, e: LiveEvent, none: int, r: nat, f0: T.Stream, fs: seq<T.StreamStep>, start: nat)
    requires Enabled(s, e, none) && e.OnFeed? && r < |s.feeds| && !T.Overrun(s.feeds[e.r], e.step)
    requires Follows(f0, fs, none, s.feeds[r], start)
    ensures Follows(f0, fs + StepsOf(e, r), none, Next(s, e, none).feeds[r], start)
  {
    if e.r == r {
      FollowsOne(f0, fs, none, s.feeds[r], start, e.step);
    } else {
      assert fs + [] == fs;
    }
  }

  lemma FreshFollows(s: Live, none: int)
    requires LiveInv(s, none)
    ensures Follows(Fresh(s), [], none, Fresh(s), |s.log|)
  {
  }

  /** Reader r's cursor in the product is a run of the cursor machine from "$". */
  lemma {:induction false} FeedFollows(s0: Live, es: seq<LiveEvent>, none: int, r: nat)
    requires Initial(s0, none) && Exec(s0, es, none).Some? && Smooth(s0, es, none)
    requires r < |Exec(s0, es, none).value.feeds|
    ensures var s := Exec(s0, es, none).value;
            && r < |s.started| && |s0.log| <= s.started[r]
            && Follows(FeedStart(s0, es, none, r), FeedSteps(s0, es, none, r), none, s.feeds[r], s.started[r])
  {
    var before, e := es[..|es| - 1], es[|es| - 1];
    var s := Exec(s0, before, none).value;
    Reachable(s0, before, none);
    LogOnlyGrows(s0, before, none);
    if r < |s.feeds| {
      FeedFollows(s0, before, none, r);
      var f0, fs := FeedStart(s0, before, none, r), FeedSteps(s0, before, none, r);
      if e.OnFan? {
        assert fs + [] == fs;
      } else if e.OnFeed? {
        FollowsFeed(s, e, none, r, f0, fs, s.started[r]);
      } else {
        FollowsLog(s, e, none, r, f0, fs, s.started[r]);
      }
    } else {
      ReadersGrow(s.fan, e.e);
      FeedStepsBefore(s0, before, none, r);
      FreshFollows(s, none);
    }
  }

  lemma {:induction false} FeedStepsBefore(s0: Live, es: seq<LiveEvent>, none: int, r: nat)
    requires Initial(s0, none) && Exec(s0, es, none).Some? && r >= |Exec(s0, es, none).value.feeds|
    ensures FeedSteps(s0, es, none, r) == []
  {
    if es != [] {
      FeedStepsBefore(s0, es[..|es| - 1], none, r);
    }
  }

  lemma {:induction false} LogOnlyGrows(s0: Live, es: seq<LiveEvent>, none: int)
    requires Exec(s0, es, none).Some?
    ensures |s0.log| <= |Exec(s0, es, none).value.log|
  {
    if es != [] {
      LogOnlyGrows(s0, es[..|es| - 1], none);
    }
  }

  // ---- end to end ----

  /** Of what reader r sent it, what the subscriber received and what its buffer holds are a contiguous slice
      of the events of the log from position sent on. */
  ghost predicate Delivers(s: Live, id: nat, r: nat, sent: nat)
    requires id < |s.fan.chans|
  {
    var ch := s.fan.chans[id];
    var due := T.Between(s.log, sent, |s.log|);
    var n := FanoutSlices.Reached(ch, r);
    ch.JoinedAt(r) <= n <= |due| && FanoutSlices.From(r, ch.sent) == due[ch.JoinedAt(r)..n]
  }

  lemma EmittedDelivers(s: Live, none: int, id: nat, r: nat, sent: nat)
    requires LiveInv(s, none) && id < |s.fan.chans| && r < |s.feeds|
    requires sent <= |s.log| && s.feeds[r].emitted <= T.Between(s.log, sent, |s.log|)
    ensures Delivers(s, id, r, sent)
  {
    assert FeedOk(s, r) && FanoutSlices.SliceOk(s.fan, id, r);
    var ch := s.fan.chans[id];
    var evs, due := s.fan.readers[r].events, T.Between(s.log, sent, |s.log|);
    SliceOfPrefix(evs, due, ch.JoinedAt(r), FanoutSlices.Reached(ch, r));
  }

  lemma SliceOfPrefix(a: seq<F.StreamEvent>, b: seq<F.StreamEvent>, i: nat, j: nat)
    requires a <= b && i <= j <= |a|
    ensures a[i..j] == b[i..j]
  {
  }

  /** The events at n and m of reader r's cursor are its productive read and the end of its first emission,
      and what it has emitted is the log from that read on, up to the cursor. */
  ghost predicate Productive(s0: Live, es: seq<LiveEvent>, none: int, r: nat, n: nat, m: nat)
    requires Exec(s0, es, none).Some? && r < |Exec(s0, es, none).value.feeds|
  {
    var s := Exec(s0, es, none).value;
    var f0, fs := FeedStart(s0, es, none, r), FeedSteps(s0, es, none, r);
    && DollarStart.FirstProductive(f0, fs, none, n, m)
    && var sent := |DollarStart.LogAt(f0, fs, none, n)|;
       && r < |s.started| && s.started[r] <= sent && s.feeds[r].cursor.After?
       && sent <= T.Rank(s.log, s.feeds[r].cursor.id) <= |s.log|
       && s.feeds[r].emitted == T.Between(s.log, sent, T.Rank(s.log, s.feeds[r].cursor.id))
  }

  /** The length of the log when reader r's productive read was sent. */
  ghost function SentAt(s0: Live, es: seq<LiveEvent>, none: int, r: nat, n: nat): nat
    requires Exec(s0, es, none).Some? && n <= |FeedSteps(s0, es, none, r)|
    requires T.Exec(FeedStart(s0, es, none, r), FeedSteps(s0, es, none, r)[..n], none).Some?
  {
    |DollarStart.LogAt(FeedStart(s0, es, none, r), FeedSteps(s0, es, none, r), none, n)|
  }

  lemma ProductiveExists(s0: Live, es: seq<LiveEvent>, none: int, r: nat) returns (n: nat, m: nat)
    requires Initial(s0, none) && Exec(s0, es, none).Some? && Smooth(s0, es, none)
    requires r < |Exec(s0, es, none).value.feeds| && Exec(s0, es, none).value.feeds[r].emitted != []
    ensures Productive(s0, es, none, r, n, m)
  {
    Reachable(s0, es, none);
    FeedFollows(s0, es, none, r);
    assert FeedOk(Exec(s0, es, none).value, r);
    var f0, fs := FeedStart(s0, es, none, r), FeedSteps(s0, es, none, r);
    n, m := DollarStart.FirstProductiveExists(f0, fs, none);
    DollarStart.DollarMissesIff(f0, fs, none, n, m);
  }

  /** From the tenant's stream to the subscriber, in every run.  A reader whose cursor has emitted nothing has
      sent nothing; otherwise what it sent is a contiguous slice of the well-formed entries from the moment
      its productive read was sent, which is not before the reader started. */
  lemma LiveDelivery(s0: Live, es: seq<LiveEvent>, none: int, id: nat, r: nat) returns (n: nat, m: nat)
    requires Initial(s0, none) && Exec(s0, es, none).Some? && Smooth(s0, es, none)
    requires var s := Exec(s0, es, none).value; id < |s.fan.chans| && r < |s.feeds|
    ensures var s := Exec(s0, es, none).value;
            if s.feeds[r].emitted == [] then FanoutSlices.From(r, s.fan.chans[id].sent) == []
            else
              && Productive(s0, es, none, r, n, m)
              && Delivers(s, id, r, SentAt(s0, es, none, r, n))
  {
    n, m := 0, 0;
    Reachable(s0, es, none);
    var s := Exec(s0, es, none).value;
    if s.feeds[r].emitted == [] {
      assert FeedOk(s, r) && FanoutSlices.SliceOk(s.fan, id, r);
    } else {
      n, m := ProductiveExists(s0, es, none, r);
      var sent := SentAt(s0, es, none, r, n);
      T.BetweenJoins(s.log, sent, T.Rank(s.log, s.feeds[r].cursor.id), |s.log|);
      EmittedDelivers(s, none, id, r, sent);
    }
  }

  /** Nothing is left out for a subscriber that keeps up: if it has missed no event of a reader that has
      fanned out all its cursor emitted, it has everything from its subscription up to the cursor. */
  lemma LiveComplete(s0: Live, es: seq<LiveEvent>, none: int, id: nat, r: nat) returns (n: nat, m: nat)
    requires Initial(s0, none) && Exec(s0, es, none).Some? && Smooth(s0, es, none)
    requires var s := Exec(s0, es, none).value;
             && id in s.fan.subs && id < |s.fan.chans| && r < |s.feeds| && r < |s.fan.readers|
             && s.feeds[r].emitted != [] && s.fan.readers[r].events == s.feeds[r].emitted
             && r !in s.fan.chans[id].missed && !FanoutSlices.Awaits(s.fan.readers[r], id)
    ensures Productive(s0, es, none, r, n, m)
    ensures var s := Exec(s0, es, none).value;
            var ch := s.fan.chans[id];
            var all := T.Between(s.log, SentAt(s0, es, none, r, n), T.Rank(s.log, s.feeds[r].cursor.id));
            ch.JoinedAt(r) <= |all| && FanoutSlices.From(r, ch.sent) == all[ch.JoinedAt(r)..]
  {
    Reachable(s0, es, none);
    var s := Exec(s0, es, none).value;
    n, m := ProductiveExists(s0, es, none, r);
    assert FanoutSlices.SliceOk(s.fan, id, r);
  }

  /** With one reader sending, the channel's content itself is the slice. */
  lemma OneSender(s: Live, id: nat, r: nat, sent: nat)
    requires id < |s.fan.chans| && Delivers(s, id, r, sent)
    requires forall i :: 0 <= i < |s.fan.chans[id].sent| ==> s.fan.chans[id].sent[i].reader == r
    ensures var ch := s.fan.chans[id];
            var due := T.Between(s.log, sent, |s.log|);
            && ch.JoinedAt(r) + |ch.sent| <= |due|
            && forall i :: 0 <= i < |ch.sent| ==> ch.sent[i].ev == due[ch.JoinedAt(r) + i]
  {
    var ch := s.fan.chans[id];
    FanoutSlices.FromEverybody(r, ch.sent);
    forall i | 0 <= i < |ch.sent| ensures ch.sent[i].ev == T.Between(s.log, sent, |s.log|)[ch.JoinedAt(r) + i] {
      assert FanoutSlices.From(r, ch.sent)[i] == ch.sent[i].ev;
    }
  }

  lemma SingleLiveDelivery(s0: Live, es: seq<LiveEvent>, none: int, id: nat, r: nat) returns (n: nat, m: nat)
    requires Initial(s0, none) && Exec(s0, es, none).Some? && Smooth(s0, es, none)
    requires var s := Exec(s0, es, none).value;
             && id < |s.fan.chans| && r < |s.feeds| && s.fan.chans[id].sent != []
             && forall i :: 0 <= i < |s.fan.chans[id].sent| ==> s.fan.chans[id].sent[i].reader == r
    ensures Productive(s0, es, none, r, n, m)
    ensures var s := Exec(s0, es, none).value;
            var ch := s.fan.chans[id];
            var due := T.Between(s.log, SentAt(s0, es, none, r, n), |s.log|);
            && ch.JoinedAt(r) + |ch.sent| <= |due|
            && forall i :: 0 <= i < |ch.sent| ==> ch.sent[i].ev == due[ch.JoinedAt(r) + i]
  {
    n, m := LiveDelivery(s0, es, none, id, r);
    var s := Exec(s0, es, none).value;
    FanoutSlices.FromEverybody(r, s.fan.chans[id].sent);
    OneSender(s, id, r, SentAt(s0, es, none, r, n));
  }

  // ---- it happens ----

  lemma StepTo(s0: Live, es: seq<LiveEvent>, none: int, s: Live, e: LiveEvent, s': Live)
    requires Exec(s0, es, none) == Some(s) && Smooth(s0, es, none)
    requires Enabled(s, e, none) && Next(s, e, none) == s' && !s'.fan.panicked
    requires e.OnFeed? ==> !T.Overrun(s.feeds[e.r], e.step)
    ensures Exec(s0, es + [e], none) == Some(s') && Smooth(s0, es + [e], none)
  {
    assert (es + [e])[..|es + [e]| - 1] == es;
  }

  /** One subscriber, one reader, and an entry on its way: the cursor's state, the reader's and the channel's. */
  function OneOf(log: seq<T.Entry>, f: T.Stream, events: seq<F.StreamEvent>, pc: F.PC, sent: seq<F.Tagged>): Live {
    Live(F.OneSubscriber(F.Chan(1, sent, 0, true, [], map[]), events, pc), [f], [0], log, 0)
  }

  lemma FirstSubscriber(none: int)
    ensures var s0 := Live(F.EMPTY, [], [], [], 0);
            var s1 := OneOf([], Fresh(s0), [], F.Waiting, []);
            Enabled(s0, OnFan(F.EvSubscribe(1)), none) && Next(s0, OnFan(F.EvSubscribe(1)), none) == s1
  {
    assert F.EMPTY.subs + {0} == {0} && |{0}| == 1;
    assert F.EventCounts(F.EMPTY.readers) == [];
  }

  /** An entry appended while the reader's first read is out reaches the subscriber's channel. */
  lemma LiveDeliveryHappens(x: T.Entry, none: int) returns (es: seq<LiveEvent>)
    requires T.IsEvent(x) && none < x.id
    ensures var s0 := Live(F.EMPTY, [], [], [], 0);
            && Initial(s0, none) && Exec(s0, es, none).Some? && Smooth(s0, es, none)
            && var s := Exec(s0, es, none).value;
               && |s.fan.chans| == 1 && |s.fan.chans[0].sent| == 1 && s.fan.chans[0].sent[0].reader == 0
               && T.Writes(x, s.fan.chans[0].sent[0].ev)
  {
    var s0 := Live(F.EMPTY, [], [], [], 0);
    var first := Quiet(Fresh(s0));
    FirstSubscriber(none);
    StepTo(s0, [], none, s0, OnFan(F.EvSubscribe(1)), first);
    es := CursorTakes(s0, [] + [OnFan(F.EvSubscribe(1))], x, none);
    es := EventSent(s0, es, x, none);
  }

  /** The cursor once it has emitted the entry. */
  function Emitted(x: T.Entry, none: int): T.Stream {
    T.Stream([x], 0, T.After(x.id), T.Draining(none, 1, 1), T.EventsOf(x), none)
  }

  /** Its read is out. */
  function Waits(log: seq<T.Entry>, none: int): T.Stream {
    T.Stream(log, 0, T.Dollar, T.Blocked(none), [], 0)
  }

  /** Its read has been served with the entry. */
  function Served(x: T.Entry, none: int): T.Stream {
    T.Stream([x], 0, T.Dollar, T.Draining(none, 0, 1), [], 0)
  }

  function Quiet(f: T.Stream): Live { OneOf(f.log, f, [], F.Waiting, []) }

  lemma CursorReads(none: int)
    ensures var s := Quiet(T.Stream([], 0, T.Dollar, T.Idle, [], 0));
            Enabled(s, OnFeed(0, T.Read), none) && Next(s, OnFeed(0, T.Read), none) == Quiet(Waits([], none))
  {
  }

  lemma EntryComes(x: T.Entry, none: int)
    requires none < x.id
    ensures var s := Quiet(Waits([], none));
            Enabled(s, OnAppend(x), none) && Next(s, OnAppend(x), none) == Quiet(Waits([x], none))
  {
    assert [] + [x] == [x];
    assert WithLog([Waits([], none)], [x], 0) == [Waits([x], none)];
  }

  lemma ReadServed(x: T.Entry, none: int)
    requires none < x.id
    ensures var s := Quiet(Waits([x], none));
            && Enabled(s, OnFeed(0, T.Serve), none) && Next(s, OnFeed(0, T.Serve), none) == Quiet(Served(x, none))
            && !T.Overrun(s.feeds[0], T.Serve)
  {
    T.RankSplits([x], none);
    assert [x][0].id > none;
  }

  lemma EntryTaken(x: T.Entry, none: int)
    requires T.IsEvent(x)
    ensures var s := Quiet(Served(x, none));
            Enabled(s, OnFeed(0, T.Take), none) && Next(s, OnFeed(0, T.Take), none) == Quiet(Emitted(x, none))
  {
    T.EventsOfExact(x, F.StreamEvent(0, []));
    assert [] + T.EventsOf(x) == T.EventsOf(x);
  }

  lemma CursorTakes(s0: Live, es: seq<LiveEvent>, x: T.Entry, none: int) returns (es': seq<LiveEvent>)
    requires s0 == Live(F.EMPTY, [], [], [], 0) && T.IsEvent(x) && none < x.id
    requires Exec(s0, es, none) == Some(Quiet(T.Stream([], 0, T.Dollar, T.Idle, [], 0))) && Smooth(s0, es, none)
    ensures Exec(s0, es', none) == Some(Quiet(Emitted(x, none))) && Smooth(s0, es', none)
  {
    CursorReads(none);
    StepTo(s0, es, none, Quiet(T.Stream([], 0, T.Dollar, T.Idle, [], 0)), OnFeed(0, T.Read), Quiet(Waits([], none)));
    var es1 := es + [OnFeed(0, T.Read)];
    EntryComes(x, none);
    StepTo(s0, es1, none, Quiet(Waits([], none)), OnAppend(x), Quiet(Waits([x], none)));
    es' := EntryEmitted(s0, es1 + [OnAppend(x)], x, none);
  }

  lemma EntryEmitted(s0: Live, es: seq<LiveEvent>, x: T.Entry, none: int) returns (es': seq<LiveEvent>)
    requires T.IsEvent(x) && none < x.id
    requires Exec(s0, es, none) == Some(Quiet(Waits([x], none))) && Smooth(s0, es, none)
    ensures Exec(s0, es', none) == Some(Quiet(Emitted(x, none))) && Smooth(s0, es', none)
  {
    ReadServed(x, none);
    StepTo(s0, es, none, Quiet(Waits([x], none)), OnFeed(0, T.Serve), Quiet(Served(x, none)));
    var es1 := es + [OnFeed(0, T.Serve)];
    EntryTaken(x, none);
    StepTo(s0, es1, none, Quiet(Served(x, none)), OnFeed(0, T.Take), Quiet(Emitted(x, none)));
    es' := es1 + [OnFeed(0, T.Take)];
  }

  lemma FansOut(x: T.Entry, none: int)
    requires T.IsEvent(x)
    ensures var f, ev := Emitted(x, none), F.StreamEvent(x.id, T.EventsOf(x)[0].payload);
            var s, s1 := Quiet(f), OneOf([x], f, [ev], F.Sending({0}, {}), []);
            && T.Writes(x, ev)
            && Enabled(s, OnFan(F.EvFanOut(0, ev)), none) && Next(s, OnFan(F.EvFanOut(0, ev)), none) == s1
  {
    T.EventsOfExact(x, F.StreamEvent(0, []));
    var ev := T.EventsOf(x)[0];
    assert [] + [ev] == [ev];
  }

  lemma Sends(x: T.Entry, ev: F.StreamEvent, none: int)
    ensures var f := Emitted(x, none);
            var s := OneOf([x], f, [ev], F.Sending({0}, {}), []);
            && Enabled(s, OnFan(F.EvSend(0, 0)), none)
            && Next(s, OnFan(F.EvSend(0, 0)), none) == OneOf([x], f, [ev], F.Sending({}, {}), [F.Tagged(0, ev)])
  {
    assert {0} - {0} == {} && [] + [F.Tagged(0, ev)] == [F.Tagged(0, ev)];
  }

  lemma EventSent(s0: Live, es: seq<LiveEvent>, x: T.Entry, none: int) returns (es': seq<LiveEvent>)
    requires T.IsEvent(x)
    requires Exec(s0, es, none) == Some(Quiet(Emitted(x, none))) && Smooth(s0, es, none)
    ensures Exec(s0, es', none).Some? && Smooth(s0, es', none)
    ensures var s := Exec(s0, es', none).value;
            && |s.fan.chans| == 1 && |s.fan.chans[0].sent| == 1 && s.fan.chans[0].sent[0].reader == 0
            && T.Writes(x, s.fan.chans[0].sent[0].ev)
  {
    var f, ev := Emitted(x, none), F.StreamEvent(x.id, T.EventsOf(x)[0].payload);
    FansOut(x, none);
    var s1 := OneOf([x], f, [ev], F.Sending({0}, {}), []);
    StepTo(s0, es, none, Quiet(f), OnFan(F.EvFanOut(0, ev)), s1);
    Sends(x, ev, none);
    var s2 := OneOf([x], f, [ev], F.Sending({}, {}), [F.Tagged(0, ev)]);
    StepTo(s0, es + [OnFan(F.EvFanOut(0, ev))], none, s1, OnFan(F.EvSend(0, 0)), s2);
    es' := es + [OnFan(F.EvFanOut(0, ev))] + [OnFan(F.EvSend(0, 0))];
  }
}
