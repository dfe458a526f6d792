/** Admission control and the stream cap together: requests pass the shed check, wait, and publish
    with a MAXLEN trim, while polls sample the backlog and workers read and ack.  A poll is two steps:
    Redis answers XINFO, and later Update is called with the answer. */
module Admission {
  import opened Common
  import opened Queue
  import opened Monitor

  /** high and low are the shedder's watermarks and cap the stream's MAXLEN.  burst bounds the
      requests that pass the check between two calls of Update, window those that pass while an
      answer of XINFO is on its way to Update, and waiting those that have passed the check but not
      yet published. */
  datatype Limits = Limits(t: Thresholds, cap: int, burst: nat, window: nat, waiting: nat)
  {
    /** The window is part of the time between two updates. */
    function Late(): nat { if window < burst then window else burst }

    /** No request can ever pass. */
    predicate Shut() { burst == 0 || waiting == 0 }
  }

  /** samples is what the monitor has been updated with, and passed counts since the last update.
      answer is the backlog in an answer on its way, and late counts the passes since it was sampled.
      carried is what late was at the last update. */
  datatype Api = Api(
    q: Queue, samples: seq<int>, inFlight: nat, passed: nat, answer: Option<int>, late: nat, carried: nat)

  datatype Event =
    | EvPass                                            // a request finds ShouldShed() false
    | EvReject                                          // it then fails before it publishes
    | EvWrite(m: Values, trimmedTo: nat, reply: Reply)  // it publishes
    | EvSample                                          // Redis answers the XINFO of a poll that will reach Update
    | EvUpdate                                          // and Update is called
    | EvTrim(trimmedTo: nat)                            // the trim at boot
    | EvDeliver(count: nat)
    | EvAck(ids: set<nat>, reply: Reply)

  predicate ShouldShed(l: Limits, s: Api) { l.t.high > 0 && FlagAfter(l.t, s.samples) }

  predicate Enabled(l: Limits, s: Api, e: Event) {
    match e
    case EvPass =>
      && !ShouldShed(l, s) && s.passed < l.burst && s.inFlight < l.waiting
      && (s.answer.Some? ==> s.late < l.window)
    case EvReject => s.inFlight > 0
    case EvWrite(m, f, _) => s.inFlight > 0 && MayTrim(Appended(s.q, m), l.cap, f)
    case EvSample => s.answer.None?
    case EvUpdate => s.answer.Some?
    case EvTrim(f) => MayTrim(s.q, l.cap, f)
    case EvDeliver(_) => s.q.Head() <= |s.q.log|
    case EvAck(_, _) => true
  }

  function Next(l: Limits, s: Api, e: Event): Api
    requires Enabled(l, s, e)
  {
    match e
    case EvPass =>
      s.(inFlight := s.inFlight + 1, passed := s.passed + 1, late := if s.answer.Some? then s.late + 1 else 0)
    case EvReject => s.(inFlight := s.inFlight - 1)
    case EvWrite(m, f, reply) => s.(q := Published(s.q, m, f, reply), inFlight := s.inFlight - 1)
    case EvSample => s.(answer := Some(s.q.Backlog()), late := 0)
    case EvUpdate =>
      s.(samples := s.samples + [s.answer.value], passed := 0, answer := None, late := 0, carried := s.late)
    case EvTrim(f) => s.(q := TrimTo(s.q, f))
    case EvDeliver(count) => s.(q := HandedOut(s.q, count))
    case EvAck(ids, reply) => s.(q := Acked(s.q, ids, reply))
  }

  function Exec(l: Limits, s0: Api, es: seq<Event>): Option<Api> {
    if es == [] then Some(s0)
    else
      var n := |es| - 1;
      match Exec(l, s0, es[..n])
      case None => None
      case Some(s) => if Enabled(l, s, es[n]) then Some(Next(l, s, es[n])) else None
  }

  /** An API that has just started on a stream whose backlog is below the high watermark. */
  ghost predicate Initial(l: Limits, s: Api) {
    && s.q.Valid() && s.q.lost == {} && s.q.Backlog() < l.t.high
    && s.samples == [] && s.inFlight == 0 && s.passed == 0
    && s.answer == None && s.late == 0 && s.carried == 0
  }

  ghost predicate IsRun(l: Limits, s0: Api, es: seq<Event>) { Initial(l, s0) && Exec(l, s0, es).Some? }

  ghost function After(l: Limits, s0: Api, es: seq<Event>): Api
    requires IsRun(l, s0, es)
  {
    Exec(l, s0, es).value
  }

  /** The most that backlog and in-flight requests can ever add up to. */
  function Peak(l: Limits): int { l.t.high - 1 + if l.Shut() then 0 else l.burst + l.Late() + l.waiting }

  function Load(s: Api): int { s.q.Backlog() + s.inFlight }

  /** The answer on its way is old by at most the passes since it was sampled, which happened while the
      switch was released; the last answer below high bounds the load in the same way. */
  ghost predicate Bounded(l: Limits, s: Api) {
    && s.q.Valid() && s.inFlight <= l.waiting && (l.Shut() ==> s.inFlight == 0)
    && s.late <= s.passed <= l.burst && s.late <= l.Late() && s.carried <= l.Late()
    && Load(s) <= Peak(l)
    && (!ShouldShed(l, s) ==> Load(s) <= l.t.high - 1 + l.waiting + s.carried + s.passed)
    && (s.answer.Some? ==> Load(s) <= s.answer.value + l.waiting + s.late)
  }

  /** What XINFO GROUPS reports of a queue's group. */
  function Reported(q: Queue, name: GoString): GroupInfo { GroupInfo(name, q.Lag(), |q.pel|) }

  /** A poll that finds the group samples exactly the backlog, whichever groups are listed before or after it. */
  lemma PollSamplesBacklog(q: Queue, name: GoString, before: seq<GroupInfo>, after: seq<GroupInfo>)
    requires q.Valid() && forall i :: 0 <= i < |before| ==> before[i].name != name
    ensures Sample(before + [Reported(q, name)] + after, name) == Some(q.Backlog())
  {
    var groups := before + [Reported(q, name)] + after;
    assert groups[|before|] == Reported(q, name);
    assert FirstNamed(groups, name, |before|);
    SampleExact(groups, name, q.Backlog());
  }

  lemma FlagSnoc(t: Thresholds, samples: seq<int>, b: int)
    ensures FlagAfter(t, samples + [b]) == Flip(t, FlagAfter(t, samples), b)
  {
    assert (samples + [b])[..|samples|] == samples;
  }

  lemma BoundedStep(l: Limits, s: Api, e: Event)
    requires 0 <= l.t.low < l.t.high
    requires Bounded(l, s) && Enabled(l, s, e)
    ensures Bounded(l, Next(l, s, e))
  {
    match e
    case EvPass =>
    case EvReject =>
    case EvWrite(m, f, reply) =>
      PublishKeepsValid(s.q, m, l.cap, f, reply);
      PublishAddsOne(s.q, m, l.cap, f);
    case EvSample =>
    case EvUpdate => FlagSnoc(l.t, s.samples, s.answer.value);
    case EvTrim(f) => TrimKeepsValid(s.q, f);
    case EvDeliver(count) =>
      DeliverKeepsValid(s.q, count);
      DeliveryKeepsBacklog(s.q, count);
    case EvAck(ids, reply) =>
      AckKeepsValid(s.q, ids, reply);
      AckSubtractsPending(s.q, ids);
  }

  /** The shedder bounds the queue: backlog plus in-flight never exceeds high - 1 + burst + waiting, plus
      what passes while an answer is on its way. */
  lemma {:induction false} BacklogBounded(l: Limits, s0: Api, es: seq<Event>)
    requires 0 <= l.t.low < l.t.high
    requires IsRun(l, s0, es)
    ensures Bounded(l, After(l, s0, es))
    ensures Load(After(l, s0, es)) <= Peak(l)
  {
    if es != [] {
      var before := es[..|es| - 1];
      BacklogBounded(l, s0, before);
      BoundedStep(l, After(l, s0, before), es[|es| - 1]);
    }
  }

  /** No run ever trims an entry that no worker has been handed. */
  ghost predicate NeverLoses(l: Limits) {
    forall s0, es :: IsRun(l, s0, es) ==> After(l, s0, es).q.lost == {}
  }

  lemma LosesNothingStep(l: Limits, s: Api, e: Event)
    requires Bounded(l, s) && s.q.lost == {} && Enabled(l, s, e)
    requires l.cap <= 0 || Peak(l) <= l.cap
    ensures Next(l, s, e).q.lost == {}
  {
    match e
    case EvWrite(m, f, reply) =>
      var q := Appended(s.q, m);
      AppendKeepsValid(s.q, m);
      TrimLosesNothingIff(q, f);
    case EvTrim(f) => TrimLosesNothingIff(s.q, f);
    case EvPass =>
    case EvReject =>
    case EvSample =>
    case EvUpdate =>
    case EvDeliver(_) =>
    case EvAck(_, _) =>
  }

  lemma {:induction false} CapSparesUndelivered(l: Limits, s0: Api, es: seq<Event>)
    requires 0 <= l.t.low < l.t.high && (l.cap <= 0 || Peak(l) <= l.cap)
    requires IsRun(l, s0, es)
    ensures After(l, s0, es).q.lost == {}
  {
    if es != [] {
      var before := es[..|es| - 1];
      CapSparesUndelivered(l, s0, before);
      BacklogBounded(l, s0, before);
      LosesNothingStep(l, After(l, s0, before), es[|es| - 1]);
    }
  }

  // ---- the bound is reached ----

  function Fill(m: Values, n: nat): seq<Values> {
    if n == 0 then [] else Fill(m, n - 1) + [m]
  }

  /** n undelivered copies of one entry, i requests in flight, k passed since the last update, not
      shedding, and no answer on its way. */
  ghost predicate Filled(l: Limits, s: Api, m: Values, n: nat, i: nat, k: nat) {
    && s.q == Queue(Fill(m, n), 0, 0, 0, {}, {}, {})
    && s.inFlight == i && s.passed == k && !ShouldShed(l, s)
    && s.answer == None
  }

  /** The same with an answer below high on its way, and nothing passed before it since the last update. */
  ghost predicate Answered(l: Limits, s: Api, m: Values, n: nat, i: nat, k: nat) {
    && s.q == Queue(Fill(m, n), 0, 0, 0, {}, {}, {})
    && s.inFlight == i && s.passed == k == s.late && !ShouldShed(l, s)
    && s.answer.Some? && s.answer.value < l.t.high
  }

  lemma {:induction false} FillSize(m: Values, n: nat)
    ensures |Fill(m, n)| == n
  {
    if n > 0 {
      FillSize(m, n - 1);
    }
  }

  lemma Extend(l: Limits, s0: Api, es: seq<Event>, e: Event)
    requires IsRun(l, s0, es) && Enabled(l, After(l, s0, es), e)
    ensures IsRun(l, s0, es + [e]) && After(l, s0, es + [e]) == Next(l, After(l, s0, es), e)
  {
    assert (es + [e])[..|es|] == es;
  }

  lemma DoPass(l: Limits, s0: Api, es: seq<Event>, m: Values, n: nat, i: nat, k: nat) returns (es': seq<Event>)
    requires IsRun(l, s0, es) && Filled(l, After(l, s0, es), m, n, i, k) && k < l.burst && i < l.waiting
    ensures IsRun(l, s0, es') && Filled(l, After(l, s0, es'), m, n, i + 1, k + 1)
  {
    Extend(l, s0, es, EvPass);
    es' := es + [EvPass];
  }

  lemma DoSample(l: Limits, s0: Api, es: seq<Event>, m: Values, n: nat, i: nat, k: nat) returns (es': seq<Event>)
    requires IsRun(l, s0, es) && Filled(l, After(l, s0, es), m, n, i, k) && n < l.t.high
    ensures IsRun(l, s0, es') && After(l, s0, es') == After(l, s0, es).(answer := Some(n), late := 0)
  {
    Extend(l, s0, es, EvSample);
    FillSize(m, n);
    es' := es + [EvSample];
  }

  lemma DoUpdate(l: Limits, s0: Api, es: seq<Event>, m: Values, n: nat, i: nat) returns (es': seq<Event>)
    requires IsRun(l, s0, es)
    requires var s := After(l, s0, es);
             && s.q == Queue(Fill(m, n), 0, 0, 0, {}, {}, {}) && s.inFlight == i && !ShouldShed(l, s)
             && s.answer.Some? && s.answer.value < l.t.high
    ensures IsRun(l, s0, es') && Filled(l, After(l, s0, es'), m, n, i, 0)
  {
    var s := After(l, s0, es);
    Extend(l, s0, es, EvUpdate);
    FlagSnoc(l.t, s.samples, s.answer.value);
    es' := es + [EvUpdate];
  }

  lemma DoPoll(l: Limits, s0: Api, es: seq<Event>, m: Values, n: nat, i: nat, k: nat) returns (es': seq<Event>)
    requires IsRun(l, s0, es) && Filled(l, After(l, s0, es), m, n, i, k) && n < l.t.high
    ensures IsRun(l, s0, es') && Filled(l, After(l, s0, es'), m, n, i, 0)
  {
    es' := DoSample(l, s0, es, m, n, i, k);
    es' := DoUpdate(l, s0, es', m, n, i);
  }

  lemma DoWrite(l: Limits, s0: Api, es: seq<Event>, m: Values, n: nat, i: nat, k: nat) returns (es': seq<Event>)
    requires IsRun(l, s0, es) && Filled(l, After(l, s0, es), m, n, i, k) && i > 0
    ensures IsRun(l, s0, es') && Filled(l, After(l, s0, es'), m, n + 1, i - 1, k)
  {
    Extend(l, s0, es, EvWrite(m, 0, Done));
    WriteFills(m, n);
    es' := es + [EvWrite(m, 0, Done)];
  }

  /** One request at a time, each followed by a poll, up to n entries. */
  lemma {:induction false} FillTo(l: Limits, s0: Api, m: Values, n: nat) returns (es: seq<Event>)
    requires l.burst >= 1 && l.waiting >= 1 && n < l.t.high
    requires Initial(l, s0) && Filled(l, s0, m, 0, 0, 0)
    ensures IsRun(l, s0, es) && Filled(l, After(l, s0, es), m, n, 0, 0)
  {
    es := [];
    if n > 0 {
      es := FillTo(l, s0, m, n - 1);
      es := DoPass(l, s0, es, m, n - 1, 0, 0);
      es := DoWrite(l, s0, es, m, n - 1, 1, 1);
      es := DoPoll(l, s0, es, m, n, 0, 1);
    }
  }

  /** Requests pile up in flight over several poll intervals. */
  lemma {:induction false} PileUp(l: Limits, s0: Api, es: seq<Event>, m: Values, n: nat, i: nat)
    returns (es': seq<Event>)
    requires l.burst >= 1 && n < l.t.high && i <= l.waiting
    requires IsRun(l, s0, es) && Filled(l, After(l, s0, es), m, n, 0, 0)
    ensures IsRun(l, s0, es') && Filled(l, After(l, s0, es'), m, n, i, 0)
  {
    es' := es;
    if i > 0 {
      es' := PileUp(l, s0, es, m, n, i - 1);
      es' := DoPass(l, s0, es', m, n, i - 1, 0);
      es' := DoPoll(l, s0, es', m, n, i, 1);
    }
  }

  /** A burst with no poll in between: each write makes room for one more pass. */
  lemma {:induction false} Burst(l: Limits, s0: Api, es: seq<Event>, m: Values, n: nat, k: nat)
    returns (es': seq<Event>)
    requires l.waiting >= 1 && k <= l.burst
    requires IsRun(l, s0, es) && Filled(l, After(l, s0, es), m, n, l.waiting, 0)
    ensures IsRun(l, s0, es') && Filled(l, After(l, s0, es'), m, n + k, l.waiting, k)
  {
    es' := es;
    if k > 0 {
      es' := Burst(l, s0, es, m, n, k - 1);
      es' := DoWrite(l, s0, es', m, n + k - 1, l.waiting, k - 1);
      es' := DoPass(l, s0, es', m, n + k, l.waiting - 1, k - 1);
    }
  }

  /** The same while an answer is on its way. */
  lemma {:induction false} LateBurst(l: Limits, s0: Api, es: seq<Event>, m: Values, n: nat, k: nat)
    returns (es': seq<Event>)
    requires l.waiting >= 1 && k <= l.Late()
    requires IsRun(l, s0, es) && Answered(l, After(l, s0, es), m, n, l.waiting, 0)
    ensures IsRun(l, s0, es') && Answered(l, After(l, s0, es'), m, n + k, l.waiting, k)
  {
    es' := es;
    if k > 0 {
      es' := LateBurst(l, s0, es, m, n, k - 1);
      es' := LateWrite(l, s0, es', m, n + k - 1, l.waiting, k - 1);
      es' := LatePass(l, s0, es', m, n + k, l.waiting - 1, k - 1);
    }
  }

  lemma LatePass(l: Limits, s0: Api, es: seq<Event>, m: Values, n: nat, i: nat, k: nat) returns (es': seq<Event>)
    requires IsRun(l, s0, es) && Answered(l, After(l, s0, es), m, n, i, k) && k < l.Late() && i < l.waiting
    ensures IsRun(l, s0, es') && Answered(l, After(l, s0, es'), m, n, i + 1, k + 1)
  {
    Extend(l, s0, es, EvPass);
    es' := es + [EvPass];
  }

  lemma LateWrite(l: Limits, s0: Api, es: seq<Event>, m: Values, n: nat, i: nat, k: nat) returns (es': seq<Event>)
    requires IsRun(l, s0, es) && Answered(l, After(l, s0, es), m, n, i, k) && i > 0
    ensures IsRun(l, s0, es') && Answered(l, After(l, s0, es'), m, n + 1, i - 1, k)
  {
    Extend(l, s0, es, EvWrite(m, 0, Done));
    WriteFills(m, n);
    es' := es + [EvWrite(m, 0, Done)];
  }

  lemma WriteFills(m: Values, n: nat)
    ensures var q := Queue(Fill(m, n), 0, 0, 0, {}, {}, {});
            Published(q, m, 0, Done) == q.(log := Fill(m, n + 1))
  {
    assert Span(0, 0) == {};
    assert Fill(m, n + 1) == Fill(m, n) + [m];
  }

  lemma {:induction false} Drain(l: Limits, s0: Api, es: seq<Event>, m: Values, n: nat, i: nat, k: nat, d: nat)
    returns (es': seq<Event>)
    requires d <= i && IsRun(l, s0, es) && Filled(l, After(l, s0, es), m, n, i, k)
    ensures IsRun(l, s0, es') && Filled(l, After(l, s0, es'), m, n + d, i - d, k)
  {
    es' := es;
    if d > 0 {
      es' := Drain(l, s0, es, m, n, i, k, d - 1);
      es' := DoWrite(l, s0, es', m, n + d - 1, i - (d - 1), k);
    }
  }

  /** With no passes since the last update, a window's worth of passes behind an answer below high. */
  lemma LateRound(l: Limits, s0: Api, es: seq<Event>, m: Values, n: nat) returns (es': seq<Event>)
    requires l.waiting >= 1 && n < l.t.high
    requires IsRun(l, s0, es) && Filled(l, After(l, s0, es), m, n, l.waiting, 0)
    ensures IsRun(l, s0, es') && Filled(l, After(l, s0, es'), m, n + l.Late(), l.waiting, 0)
  {
    es' := DoSample(l, s0, es, m, n, l.waiting, 0);
    es' := LateBurst(l, s0, es', m, n, l.Late());
    es' := DoUpdate(l, s0, es', m, n + l.Late(), l.waiting);
  }

  lemma FullPipe(l: Limits, s0: Api, m: Values, n: nat) returns (es: seq<Event>)
    requires l.burst >= 1 && l.waiting >= 1 && n < l.t.high
    requires Initial(l, s0) && Filled(l, s0, m, 0, 0, 0)
    ensures IsRun(l, s0, es) && Filled(l, After(l, s0, es), m, n, l.waiting, 0)
  {
    es := FillTo(l, s0, m, n);
    es := PileUp(l, s0, es, m, n, l.waiting);
  }

  lemma FinalBurst(l: Limits, s0: Api, es: seq<Event>, m: Values, n: nat) returns (es': seq<Event>)
    requires l.waiting >= 1
    requires IsRun(l, s0, es) && Filled(l, After(l, s0, es), m, n, l.waiting, 0)
    ensures IsRun(l, s0, es') && Filled(l, After(l, s0, es'), m, n + l.burst + l.waiting - 1, 1, l.burst)
  {
    es' := Burst(l, s0, es, m, n, l.burst);
    es' := Drain(l, s0, es', m, n + l.burst, l.waiting, l.burst, l.waiting - 1);
  }

  /** The bound is attained, with all of it undelivered and one last request still to publish. */
  lemma PeakReached(l: Limits, s0: Api, m: Values) returns (es: seq<Event>)
    requires 0 <= l.t.low < l.t.high && l.burst >= 1 && l.waiting >= 1
    requires Initial(l, s0) && Filled(l, s0, m, 0, 0, 0)
    ensures IsRun(l, s0, es) && Filled(l, After(l, s0, es), m, Peak(l) - 1, 1, l.burst)
  {
    es := FullPipe(l, s0, m, l.t.high - 1);
    es := LateRound(l, s0, es, m, l.t.high - 1);
    es := FinalBurst(l, s0, es, m, l.t.high - 1 + l.Late());
  }

  /** A publish at the peak trims past the head. */
  lemma LossRun(l: Limits, s0: Api, m: Values) returns (es: seq<Event>)
    requires 0 <= l.t.low < l.t.high && l.burst >= 1 && l.waiting >= 1 && 0 < l.cap < Peak(l)
    requires Initial(l, s0) && Filled(l, s0, m, 0, 0, 0)
    ensures IsRun(l, s0, es) && After(l, s0, es).q.lost != {}
  {
    es := PeakReached(l, s0, m);
    var f := Peak(l) - l.cap;
    FillSize(m, Peak(l) - 1);
    Extend(l, s0, es, EvWrite(m, f, Done));
    es := es + [EvWrite(m, f, Done)];
    assert 0 in Span(0, f);
  }

  /** With admission shut, the trim at boot can still reach the entries that were there. */
  lemma BootLossRun(l: Limits, s0: Api, m: Values) returns (es: seq<Event>)
    requires 0 < l.cap < l.t.high - 1
    requires Initial(l, s0) && s0.q == Queue(Fill(m, l.t.high - 1), 0, 0, 0, {}, {}, {})
    ensures IsRun(l, s0, es) && After(l, s0, es).q.lost != {}
  {
    var f := l.t.high - 1 - l.cap;
    FillSize(m, l.t.high - 1);
    Extend(l, s0, [], EvTrim(f));
    es := [] + [EvTrim(f)];
    assert 0 in Span(0, f);
  }

  /** An API with n undelivered entries and nothing in flight. */
  function Booted(m: Values, n: nat): Api { Api(Queue(Fill(m, n), 0, 0, 0, {}, {}, {}), [], 0, 0, None, 0, 0) }

  lemma BootedInitial(l: Limits, m: Values, n: nat)
    requires n < l.t.high
    ensures Initial(l, Booted(m, n))
  {
    FillSize(m, n);
    assert forall p: nat :: Booted(m, n).q.Classified(p);
  }

  lemma LosesBelowPeak(l: Limits) returns (s0: Api, es: seq<Event>)
    requires 0 <= l.t.low < l.t.high && 0 < l.cap < Peak(l)
    ensures IsRun(l, s0, es) && After(l, s0, es).q.lost != {}
  {
    if l.Shut() {
      s0 := Booted(map[], l.t.high - 1);
      BootedInitial(l, map[], l.t.high - 1);
      es := BootLossRun(l, s0, map[]);
    } else {
      s0 := Booted(map[], 0);
      BootedInitial(l, map[], 0);
      es := LossRun(l, s0, map[]);
    }
  }

  /** The cap protects undelivered entries exactly when it is off or at least the peak; with the derived cap
      of twice the high watermark and admission open, exactly when burst + window + waiting <= high + 1.  A
      window of zero is a poll that updates at once, and one of burst or more is a poll that may take as
      long as the time between two updates. */
  lemma NeverLosesIff(l: Limits)
    requires 0 <= l.t.low < l.t.high
    ensures NeverLoses(l) <==> l.cap <= 0 || Peak(l) <= l.cap
    ensures l.cap == 2 * l.t.high ==>
              (NeverLoses(l) <==> l.Shut() || l.burst + Min(l.window, l.burst) + l.waiting <= l.t.high + 1)
  {
    if l.cap <= 0 || Peak(l) <= l.cap {
      forall s0, es | IsRun(l, s0, es) ensures After(l, s0, es).q.lost == {} {
        CapSparesUndelivered(l, s0, es);
      }
    } else {
      var s0, es := LosesBelowPeak(l);
      assert After(l, s0, es).q.lost != {};
    }
  }
}
