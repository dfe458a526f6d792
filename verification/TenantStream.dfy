/** Reading a tenant's stream, as in go-api/internal/service/streams.go: the newest entries for the
    history, and the cursor that follows the growing stream. */
module TenantStream {
  import opened Common
  import opened Queue
  import opened Fanout

  /** An entry's id and its payload field, if it has one. */
  datatype Entry = Entry(id: int, payload: Option<Value>)

  /** A Redis stream: ids strictly increase. */
  ghost predicate Sorted(log: seq<Entry>) { forall i, j :: 0 <= i < j < |log| ==> log[i].id < log[j].id }

  /** The event of an entry; an entry without a string or byte payload is skipped. */
  function EventsOf(e: Entry): seq<StreamEvent> {
    if e.payload.None? then []
    else match e.payload.value
         case Str(s) => [StreamEvent(e.id, s)]
         case Raw(b) => [StreamEvent(e.id, b)]
         case Other => []
  }

  /** The events of the entries in positions [a, b). */
  function Between(log: seq<Entry>, a: nat, b: nat): seq<StreamEvent>
    requires b <= |log|
    decreases b
  {
    if b <= a then [] else Between(log, a, b - 1) + EventsOf(log[b - 1])
  }

  function Events(log: seq<Entry>): seq<StreamEvent> { Between(log, 0, |log|) }

  /** Later entries do not matter. */
  lemma {:induction false} BetweenPrefix(log: seq<Entry>, a: nat, b: nat, log': seq<Entry>)
    requires log <= log' && b <= |log|
    ensures Between(log, a, b) == Between(log', a, b)
    decreases b
  {
    if a < b {
      assert log[b - 1] == log'[b - 1];
      BetweenPrefix(log, a, b - 1, log');
    }
  }

  lemma {:induction false} BetweenPart(part: seq<Entry>, log: seq<Entry>, a: nat, b: nat, n: nat)
    requires a <= b <= |log| && part == log[a..b] && n <= |part|
    ensures Between(part, 0, n) == Between(log, a, a + n)
  {
    if n > 0 {
      assert part[n - 1] == log[a + n - 1];
      BetweenPart(part, log, a, b, n - 1);
    }
  }

  lemma EventsOfPart(part: seq<Entry>, log: seq<Entry>, a: nat, b: nat)
    requires a <= b <= |log| && part == log[a..b]
    ensures Events(part) == Between(log, a, b)
  {
    BetweenPart(part, log, a, b, |part|);
  }

  lemma EventsOfSlice(log: seq<Entry>, a: nat, b: nat)
    requires a <= b <= |log|
    ensures Events(log[a..b]) == Between(log, a, b)
  {
    EventsOfPart(log[a..b], log, a, b);
  }

  lemma EventsSnoc(log: seq<Entry>, e: Entry)
    ensures Events(log + [e]) == Events(log) + EventsOf(e)
  {
    BetweenPrefix(log, 0, |log|, log + [e]);
  }

  lemma {:induction false} BetweenJoins(log: seq<Entry>, a: nat, b: nat, c: nat)
    requires a <= b <= c <= |log|
    ensures Between(log, a, c) == Between(log, a, b) + Between(log, b, c)
    decreases c
  {
    if b < c {
      BetweenJoins(log, a, b, c - 1);
      var x, y, last := Between(log, a, b), Between(log, b, c - 1), EventsOf(log[c - 1]);
      assert Between(log, b, c) == y + last;
      assert (x + y) + last == x + (y + last);
    } else {
      assert Between(log, a, b) + [] == Between(log, a, b);
    }
  }

  /** The entry has a string or byte payload; entries that have not are malformed. */
  predicate IsEvent(e: Entry) { e.payload.Some? && (e.payload.value.Str? || e.payload.value.Raw?) }

  /** The event has the entry's id and its payload, byte for byte. */
  predicate Writes(e: Entry, ev: StreamEvent) {
    e.id == ev.id && (e.payload == Some(Str(ev.payload)) || e.payload == Some(Raw(ev.payload)))
  }

  lemma EventsOfExact(e: Entry, ev: StreamEvent)
    ensures EventsOf(e) == [ev] <==> Writes(e, ev)
    ensures EventsOf(e) == [] <==> !IsEvent(e)
    ensures IsEvent(e) ==> |EventsOf(e)| == 1 && Writes(e, EventsOf(e)[0])
  {
  }

  /** The positions in [a, b) of the well-formed entries. */
  function EventsAt(log: seq<Entry>, a: nat, b: nat): seq<nat>
    requires b <= |log|
    decreases b
  {
    if b <= a then [] else EventsAt(log, a, b - 1) + if IsEvent(log[b - 1]) then [b - 1] else []
  }

  /** The positions ascend, and are those of all the well-formed entries and of nothing else. */
  ghost predicate Picks(log: seq<Entry>, a: nat, b: nat, ks: seq<nat>)
    requires b <= |log|
  {
    && (forall i, j :: 0 <= i < j < |ks| ==> ks[i] < ks[j])
    && (forall i :: 0 <= i < |ks| ==> a <= ks[i] < b && IsEvent(log[ks[i]]))
    && (forall k :: a <= k < b && IsEvent(log[k]) ==> k in ks)
  }

  lemma PicksOne(log: seq<Entry>, a: nat, b: nat, ks: seq<nat>)
    requires a < b <= |log| && Picks(log, a, b - 1, ks) && IsEvent(log[b - 1])
    ensures Picks(log, a, b, ks + [b - 1])
  {
    var all := ks + [b - 1];
    assert all[|ks|] == b - 1;
    forall k | a <= k < b && IsEvent(log[k]) ensures k in all {
      if k < b - 1 { assert k in ks; }
    }
  }

  lemma PicksNone(log: seq<Entry>, a: nat, b: nat, ks: seq<nat>)
    requires a < b <= |log| && Picks(log, a, b - 1, ks) && !IsEvent(log[b - 1])
    ensures Picks(log, a, b, ks)
  {
  }

  lemma {:induction false} EventsAtExact(log: seq<Entry>, a: nat, b: nat)
    requires b <= |log|
    ensures Picks(log, a, b, EventsAt(log, a, b))
    decreases b
  {
    if a < b {
      EventsAtExact(log, a, b - 1);
      var before := EventsAt(log, a, b - 1);
      if IsEvent(log[b - 1]) {
        PicksOne(log, a, b, before);
      } else {
        PicksNone(log, a, b, before);
        assert before + [] == before;
      }
    }
  }

  /** The events are those of the well-formed entries in positions [a, b), one each, in order. */
  ghost predicate Lists(log: seq<Entry>, a: nat, b: nat, evs: seq<StreamEvent>)
    requires b <= |log|
  {
    var ks := EventsAt(log, a, b);
    |ks| == |evs| && forall i :: 0 <= i < |ks| ==> ks[i] < |log| && Writes(log[ks[i]], evs[i])
  }

  lemma {:induction false} BetweenLists(log: seq<Entry>, a: nat, b: nat)
    requires b <= |log|
    ensures Lists(log, a, b, Between(log, a, b))
    decreases b
  {
    if a < b {
      BetweenLists(log, a, b - 1);
      ListsMore(log, a, b, Between(log, a, b - 1));
    }
  }

  lemma ListsMore(log: seq<Entry>, a: nat, b: nat, evs: seq<StreamEvent>)
    requires a < b <= |log| && Lists(log, a, b - 1, evs)
    ensures Lists(log, a, b, evs + EventsOf(log[b - 1]))
  {
    EventsOfExact(log[b - 1], StreamEvent(0, []));
    var before := EventsAt(log, a, b - 1);
    assert EventsAt(log, a, b) == before + if IsEvent(log[b - 1]) then [b - 1] else [];
  }

  /** No events in a range means no well-formed entry. */
  lemma NothingBetween(log: seq<Entry>, a: nat, b: nat)
    requires b <= |log|
    ensures Between(log, a, b) == [] <==> forall k :: a <= k < b ==> !IsEvent(log[k])
  {
    BetweenLists(log, a, b);
    EventsAtExact(log, a, b);
    var ks := EventsAt(log, a, b);
    if ks != [] {
      assert IsEvent(log[ks[0]]);
    }
  }

  // ---- history ----

  /** What XREVRANGE + - COUNT returns, back in stream order; a count that is not positive gives nothing. */
  function Newest(log: seq<Entry>, count: int): seq<Entry> {
    if count <= 0 then [] else if count >= |log| then log else log[|log| - count..]
  }

  function Reverse(log: seq<Entry>): (r: seq<Entry>)
    ensures |r| == |log| && forall i :: 0 <= i < |log| ==> r[i] == log[|log| - 1 - i]
  {
    seq(|log|, i requires 0 <= i < |log| => log[|log| - 1 - i])
  }

  /** Where the newest count entries begin. */
  function From(log: seq<Entry>, count: int): nat {
    if count <= 0 then |log| else if count >= |log| then 0 else |log| - count
  }

  method ReadTenantHistory(log: seq<Entry>, count: int) returns (events: seq<StreamEvent>)
    ensures events == Events(Newest(log, count))
    ensures Lists(log, From(log, count), |log|, events)
  {
    ghost var newest := Newest(log, count);
    var results := Reverse(Newest(log, count));  // newest first, as Redis answers
    events := [];
    var i := |results| - 1;
    while i >= 0
      invariant -1 <= i < |results| == |newest|
      invariant events == Events(newest[..|results| - 1 - i])
    {
      var msg := results[i];
      ghost var k := |results| - 1 - i;
      assert msg == newest[k] && newest[..k + 1] == newest[..k] + [newest[k]];
      EventsSnoc(newest[..k], newest[k]);
      if msg.payload.Some? {
        match msg.payload.value {
          case Str(s) => events := events + [StreamEvent(msg.id, s)];
          case Raw(b) => events := events + [StreamEvent(msg.id, b)];
          case Other =>
        }
      }
      i := i - 1;
    }
    assert newest[..|newest|] == newest;
    HistoryLists(log, count);
  }

  lemma HistoryLists(log: seq<Entry>, count: int)
    ensures Lists(log, From(log, count), |log|, Events(Newest(log, count)))
  {
    NewestIsSlice(log, count);
    BetweenLists(log, From(log, count), |log|);
  }

  lemma NewestIsSlice(log: seq<Entry>, count: int)
    ensures Events(Newest(log, count)) == Between(log, From(log, count), |log|)
  {
    assert Newest(log, count) == log[From(log, count)..|log|];
    EventsOfSlice(log, From(log, count), |log|);
  }

  /** Some entry in positions [a, b) has this event's id and payload. */
  ghost predicate Carries(log: seq<Entry>, a: nat, b: nat, ev: StreamEvent)
    requires b <= |log|
  {
    exists k :: a <= k < b && Writes(log[k], ev)
  }

  /** The events of a range are exactly those of its well-formed entries. */
  lemma {:induction false} EventsCarried(log: seq<Entry>, a: nat, b: nat, ev: StreamEvent)
    requires b <= |log|
    ensures ev in Between(log, a, b) <==> Carries(log, a, b, ev)
    decreases b
  {
    if a < b {
      EventsCarried(log, a, b - 1, ev);
      EventsOfExact(log[b - 1], ev);
      if ev in EventsOf(log[b - 1]) {
        assert EventsOf(log[b - 1]) == [ev];
      }
    }
  }

  ghost predicate Increasing(evs: seq<StreamEvent>) { forall i, j :: 0 <= i < j < |evs| ==> evs[i].id < evs[j].id }

  lemma IncreasingSnoc(evs: seq<StreamEvent>, e: Entry)
    requires Increasing(evs) && forall i :: 0 <= i < |evs| ==> evs[i].id < e.id
    ensures Increasing(evs + EventsOf(e))
  {
  }

  /** Their ids strictly increase. */
  lemma {:induction false} EventsIncrease(log: seq<Entry>, a: nat, b: nat)
    requires Sorted(log) && b <= |log|
    ensures Increasing(Between(log, a, b))
    decreases b
  {
    if a < b {
      var evs := Between(log, a, b - 1);
      EventsIncrease(log, a, b - 1);
      forall i | 0 <= i < |evs| ensures evs[i].id < log[b - 1].id {
        CarriedBefore(log, a, b - 1, evs[i]);
      }
      IncreasingSnoc(evs, log[b - 1]);
    }
  }

  lemma CarriedBefore(log: seq<Entry>, a: nat, b: nat, ev: StreamEvent)
    requires Sorted(log) && b < |log| && ev in Between(log, a, b)
    ensures ev.id < log[b].id
  {
    EventsCarried(log, a, b, ev);
    var k :| a <= k < b && Writes(log[k], ev);
  }

  /** The history is the well-formed entries among the newest count, oldest first, with increasing ids; an
      event is in it exactly when one of those entries has its id and payload. */
  lemma HistoryExact(log: seq<Entry>, count: int)
    requires Sorted(log)
    ensures var h, from := Events(Newest(log, count)), From(log, count);
            && Increasing(h) && Lists(log, from, |log|, h)
            && forall ev :: ev in h <==> Carries(log, from, |log|, ev)
  {
    var from := From(log, count);
    NewestIsSlice(log, count);
    EventsIncrease(log, from, |log|);
    BetweenLists(log, from, |log|);
    forall ev ensures ev in Between(log, from, |log|) <==> Carries(log, from, |log|, ev) {
      EventsCarried(log, from, |log|, ev);
    }
  }

  // ---- the cursor ----

  /** Where the next XREAD starts: "$", or after a concrete id. */
  datatype Cursor = Dollar | After(id: int)

  datatype Reading =
    | Idle
    | Blocked(after: int)                                        // XREAD sent; "$" was resolved when it was
    | Draining(after: int, next: nat, end: nat)                  // looping over the batch; log[next..end] is left
    | Stopped

  /** log is every entry ever appended and first the oldest one not trimmed.  origin is the id after which
      the read that produced the first emission was looking. */
  datatype Stream = Stream(log: seq<Entry>, first: nat, cursor: Cursor, reading: Reading, emitted: seq<StreamEvent>,
    origin: int)

  datatype StreamStep =
    | Append(e: Entry)
    | Trim(first: nat)
    | Read
    | Timeout
    | Serve
    | Take
    | Finish
    | Cancel

  /** How many of the first n entries have an id up to the given one. */
  function RankTo(log: seq<Entry>, n: nat, id: int): nat
    requires n <= |log|
  {
    if n == 0 then 0 else if log[n - 1].id <= id then n else RankTo(log, n - 1, id)
  }

  function Rank(log: seq<Entry>, id: int): nat { RankTo(log, |log|, id) }

  lemma {:induction false} RankToSplits(log: seq<Entry>, n: nat, id: int)
    requires Sorted(log) && n <= |log|
    ensures RankTo(log, n, id) <= n
    ensures forall k :: 0 <= k < n ==> (log[k].id <= id <==> k < RankTo(log, n, id))
  {
    if n > 0 && log[n - 1].id > id {
      RankToSplits(log, n - 1, id);
    }
  }

  lemma RankSplits(log: seq<Entry>, id: int)
    requires Sorted(log)
    ensures Rank(log, id) <= |log|
    ensures forall k :: 0 <= k < |log| ==> (log[k].id <= id <==> k < Rank(log, id))
  {
    RankToSplits(log, |log|, id);
  }

  lemma RankOfEntry(log: seq<Entry>, k: nat)
    requires Sorted(log) && k < |log|
    ensures Rank(log, log[k].id) == k + 1
  {
    var r := Rank(log, log[k].id);
    RankSplits(log, log[k].id);
    assert k < r;
    if k + 1 < |log| {
      assert log[k].id < log[k + 1].id;
    }
  }

  function LastId(log: seq<Entry>, none: int): int { if log == [] then none else log[|log| - 1].id }

  /** One turn of the inner loop. */
  function Took(cursor: Cursor, e: Entry): Cursor { if EventsOf(e) == [] then cursor else After(e.id) }

  predicate StepOk(s: Stream, e: StreamStep) {
    match e
    case Append(x) => s.log == [] || s.log[|s.log| - 1].id < x.id
    case Trim(f) => s.first <= f <= |s.log|
    case Read => s.reading.Idle?
    case Timeout => s.reading.Blocked?
    case Serve => s.reading.Blocked? && Max(s.first, Rank(s.log, s.reading.after)) < |s.log|
    case Take => s.reading.Draining? && s.reading.next < s.reading.end <= |s.log|
    case Finish => s.reading.Draining? && s.reading.next >= s.reading.end
    case Cancel => true
  }

  /** none is the id "$" stands for on an empty stream; every entry's id is above it. */
  function Step(s: Stream, e: StreamStep, none: int): Stream
    requires StepOk(s, e)
  {
    match e
    case Append(x) => s.(log := s.log + [x])
    case Trim(f) => s.(first := f)
    case Read => s.(reading := Blocked(if s.cursor.Dollar? then LastId(s.log, none) else s.cursor.id))
    case Timeout => s.(reading := Idle)
    case Serve =>
      var from := Max(s.first, Rank(s.log, s.reading.after));
      s.(reading := Draining(s.reading.after, from, |s.log|))
    case Take =>
      var x := s.log[s.reading.next];
      s.(reading := Draining(s.reading.after, s.reading.next + 1, s.reading.end),
         cursor := Took(s.cursor, x), emitted := s.emitted + EventsOf(x),
         origin := if s.cursor.Dollar? && EventsOf(x) != [] then s.reading.after else s.origin)
    case Finish => s.(reading := Idle)
    case Cancel => s.(reading := Stopped)
  }

  /** The one way the cursor can lose entries: a read is served after entries it wanted were trimmed. */
  predicate Overrun(s: Stream, e: StreamStep) {
    e.Serve? && s.reading.Blocked? && s.first > Rank(s.log, s.reading.after)
  }

  function Exec(s0: Stream, es: seq<StreamStep>, none: int): Option<Stream> {
    if es == [] then Some(s0)
    else
      var n := |es| - 1;
      match Exec(s0, es[..n], none)
      case None => None
      case Some(s) => if StepOk(s, es[n]) then Some(Step(s, es[n], none)) else None
  }

  /** Entries are never trimmed from under a blocked read. */
  ghost predicate Kept(s0: Stream, es: seq<StreamStep>, none: int)
    requires Exec(s0, es, none).Some?
  {
    es == [] || (Kept(s0, es[..|es| - 1], none) && !Overrun(Exec(s0, es[..|es| - 1], none).value, es[|es| - 1]))
  }

  ghost predicate Starts(s: Stream, start: Cursor) {
    && Sorted(s.log) && s.first <= |s.log| && s.cursor == start && s.reading == Idle && s.emitted == []
    && (start.After? ==> s.origin == start.id)
  }

  /** The cursor is still at the origin, or at an entry of the stream. */
  ghost predicate Anchored(log: seq<Entry>, origin: int, id: int) {
    id == origin || (origin < id && exists k :: 0 <= k < |log| && log[k].id == id)
  }

  /** Everything after the origin up to the cursor has been emitted. */
  ghost predicate Covered(s: Stream) {
    match s.cursor
    case Dollar => s.emitted == []
    case After(id) =>
      && Anchored(s.log, s.origin, id)
      && Rank(s.log, s.origin) <= Rank(s.log, id) <= |s.log|
      && s.emitted == Between(s.log, Rank(s.log, s.origin), Rank(s.log, id))
  }

  /** Where the batch being drained was read from, as far as it has been emitted. */
  function DrainBase(s: Stream): int
    requires s.reading.Draining?
  {
    if s.cursor.After? then s.cursor.id else s.reading.after
  }

  /** The rest of the batch follows in the stream, after entries that were all malformed. */
  ghost predicate BatchOk(s: Stream)
    requires s.reading.Draining?
  {
    var r := s.reading;
    var from := Rank(s.log, DrainBase(s));
    && from <= r.next <= r.end <= |s.log|
    && Between(s.log, from, r.next) == []
    && s.log != [] && DrainBase(s) <= s.log[|s.log| - 1].id
  }

  ghost predicate CursorInv(s: Stream) {
    && Sorted(s.log) && s.first <= |s.log|
    && Covered(s)
    && (s.reading.Blocked? && s.cursor.After? ==> s.reading.after == s.cursor.id)
    && (s.reading.Draining? ==> BatchOk(s))
  }

  /** Appending moves no rank below the new id. */
  lemma RankStable(log: seq<Entry>, e: Entry, id: int)
    requires id < e.id
    ensures Rank(log + [e], id) == Rank(log, id)
  {
    RankToSame(log, log + [e], |log|, id);
  }

  lemma {:induction false} RankToSame(log: seq<Entry>, log': seq<Entry>, n: nat, id: int)
    requires log <= log' && n <= |log|
    ensures RankTo(log, n, id) == RankTo(log', n, id)
  {
    if n > 0 {
      RankToSame(log, log', n - 1, id);
    }
  }

  lemma SortedSnoc(log: seq<Entry>, e: Entry)
    requires Sorted(log) && (log == [] || log[|log| - 1].id < e.id)
    ensures Sorted(log + [e])
  {
  }

  lemma RankMono(log: seq<Entry>, a: int, b: int)
    requires Sorted(log) && a <= b
    ensures Rank(log, a) <= Rank(log, b) <= |log|
  {
    RankSplits(log, a);
    RankSplits(log, b);
    assert Rank(log, b) < |log| ==> log[Rank(log, b)].id > b;
  }

  lemma CoveredAppend(s: Stream, e: Entry)
    requires Sorted(s.log) && Covered(s) && StepOk(s, Append(e))
    ensures Covered(s.(log := s.log + [e]))
  {
    if s.cursor.After? {
      var id := s.cursor.id;
      SortedSnoc(s.log, e);
      if id == s.origin {
        RankMono(s.log + [e], id, id);
      } else {
        var k :| 0 <= k < |s.log| && s.log[k].id == id;
        AppendStable(s.log, e, id, Rank(s.log, id));
        AppendStable(s.log, e, s.origin, Rank(s.log, id));
        assert (s.log + [e])[k].id == id;
      }
    }
  }

  /** Appending changes no rank below the new id and no event of the old positions. */
  lemma AppendStable(log: seq<Entry>, e: Entry, id: int, b: nat)
    requires id < e.id && b <= |log|
    ensures Rank(log + [e], id) == Rank(log, id)
    ensures Between(log + [e], Rank(log, id), b) == Between(log, Rank(log, id), b)
  {
    RankStable(log, e, id);
    BetweenPrefix(log, Rank(log, id), b, log + [e]);
  }

  lemma CursorStepAppend(s: Stream, e: Entry)
    requires CursorInv(s) && StepOk(s, Append(e))
    ensures CursorInv(s.(log := s.log + [e]))
  {
    CoveredAppend(s, e);
    SortedSnoc(s.log, e);
    if s.reading.Draining? {
      AppendStable(s.log, e, DrainBase(s), s.reading.next);
    }
  }

  lemma CursorStepServe(s: Stream)
    requires CursorInv(s) && StepOk(s, Serve) && !Overrun(s, Serve)
    ensures CursorInv(Step(s, Serve, 0))
  {
    RankSplits(s.log, s.reading.after);
    assert s.log[|s.log| - 1].id > s.reading.after;
  }

  /** The next entry of a batch lies just after what its read started from, but for malformed entries. */
  ghost predicate NextOk(s: Stream)
    requires s.reading.Draining? && s.reading.next < |s.log|
  {
    var from, next := Rank(s.log, DrainBase(s)), s.reading.next;
    && from <= next
    && DrainBase(s) < s.log[next].id <= s.log[|s.log| - 1].id
    && Rank(s.log, s.log[next].id) == next + 1
    && Between(s.log, from, next + 1) == EventsOf(s.log[next])
  }

  lemma BatchNext(s: Stream)
    requires CursorInv(s) && StepOk(s, Take)
    ensures NextOk(s)
  {
    var from, next := Rank(s.log, DrainBase(s)), s.reading.next;
    RankOfEntry(s.log, next);
    RankSplits(s.log, DrainBase(s));
    assert Between(s.log, from, next + 1) == Between(s.log, from, next) + EventsOf(s.log[next]);
  }

  /** The first emission from "$" starts the covered range at the id its read was resolved to. */
  lemma FirstTakeCovers(s: Stream)
    requires StepOk(s, Take) && Covered(s) && NextOk(s) && EventsOf(s.log[s.reading.next]) != [] && s.cursor.Dollar?
    ensures Covered(Step(s, Take, 0))
  {
    assert s.emitted + EventsOf(s.log[s.reading.next]) == EventsOf(s.log[s.reading.next]);
  }

  /** Emitting the next entry of the batch extends what has been emitted, up to the new cursor. */
  lemma LaterTakeCovers(s: Stream)
    requires StepOk(s, Take) && Covered(s) && NextOk(s) && EventsOf(s.log[s.reading.next]) != [] && s.cursor.After?
    ensures Covered(Step(s, Take, 0))
  {
    var o, from, next := Rank(s.log, s.origin), Rank(s.log, s.cursor.id), s.reading.next;
    BetweenJoins(s.log, o, from, next + 1);
    assert s.emitted + EventsOf(s.log[next]) == Between(s.log, o, next + 1);
  }

  /** After it the rest of the batch follows the new cursor. */
  lemma TakeLeavesBatch(s: Stream)
    requires StepOk(s, Take) && NextOk(s) && EventsOf(s.log[s.reading.next]) != []
    ensures BatchOk(Step(s, Take, 0))
  {
    assert DrainBase(Step(s, Take, 0)) == s.log[s.reading.next].id;
  }

  lemma SkipMoves(s: Stream, none: int)
    requires StepOk(s, Take) && EventsOf(s.log[s.reading.next]) == []
    ensures Step(s, Take, none) == s.(reading := Draining(s.reading.after, s.reading.next + 1, s.reading.end))
  {
    assert s.emitted + [] == s.emitted;
  }

  /** A malformed entry only moves the batch along. */
  lemma CursorStepSkip(s: Stream)
    requires CursorInv(s) && StepOk(s, Take) && EventsOf(s.log[s.reading.next]) == []
    ensures CursorInv(Step(s, Take, 0))
  {
    SkipMoves(s, 0);
    SkipKeepsBatch(s, s.(reading := Draining(s.reading.after, s.reading.next + 1, s.reading.end)));
  }

  lemma SkipKeepsBatch(s: Stream, s': Stream)
    requires s.reading.Draining? && BatchOk(s) && s.reading.next < s.reading.end <= |s.log|
    requires EventsOf(s.log[s.reading.next]) == []
    requires s' == s.(reading := Draining(s.reading.after, s.reading.next + 1, s.reading.end))
    ensures BatchOk(s')
  {
    assert DrainBase(s') == DrainBase(s);
    var from := Rank(s.log, DrainBase(s));
    assert Between(s.log, from, s.reading.next + 1) == Between(s.log, from, s.reading.next) + [];
  }

  lemma CursorStepTake(s: Stream)
    requires CursorInv(s) && StepOk(s, Take)
    ensures CursorInv(Step(s, Take, 0))
  {
    if EventsOf(s.log[s.reading.next]) == [] {
      CursorStepSkip(s);
    } else {
      BatchNext(s);
      TakeLeavesBatch(s);
      if s.cursor.Dollar? {
        FirstTakeCovers(s);
      } else {
        LaterTakeCovers(s);
      }
    }
  }

  lemma CursorStep(s: Stream, e: StreamStep, none: int)
    requires CursorInv(s) && StepOk(s, e) && !Overrun(s, e)
    ensures CursorInv(Step(s, e, none))
  {
    match e
    case Append(x) => CursorStepAppend(s, x);
    case Serve => CursorStepServe(s);
    case Take => CursorStepTake(s);
    case Trim(_) =>
    case Read =>
    case Timeout =>
    case Finish =>
    case Cancel =>
  }

  lemma {:induction false} CursorReachable(s0: Stream, start: Cursor, es: seq<StreamStep>, none: int)
    requires Starts(s0, start) && Exec(s0, es, none).Some? && Kept(s0, es, none)
    ensures CursorInv(Exec(s0, es, none).value)
  {
    if es == [] {
      if start.After? {
        RankSplits(s0.log, start.id);
      }
    } else {
      var before := es[..|es| - 1];
      CursorReachable(s0, start, before, none);
      CursorStep(Exec(s0, before, none).value, es[|es| - 1], none);
    }
  }

  lemma {:induction false} OriginFixed(s0: Stream, id: int, es: seq<StreamStep>, none: int)
    requires Starts(s0, After(id)) && Exec(s0, es, none).Some?
    ensures Exec(s0, es, none).value.origin == id && Exec(s0, es, none).value.cursor.After?
  {
    if es != [] {
      OriginFixed(s0, id, es[..|es| - 1], none);
    }
  }

  lemma PrefixOfRest(log: seq<Entry>, a: nat, b: nat)
    requires a <= b <= |log|
    ensures Between(log, a, b) <= Events(log[a..]) && Between(log, a, b) == Events(log[a..b])
  {
    EventsOfSlice(log, a, b);
    EventsOfSlice(log, a, |log|);
    BetweenJoins(log, a, b, |log|);
    assert log[a..|log|] == log[a..];
  }

  /** From a concrete id, what has been emitted is always a prefix of the well-formed entries after that
      id, up to the cursor: in order, with no gap and no repeat, even though malformed entries at the end
      of a batch are read again. */
  lemma CursorRefinesStream(s0: Stream, id: int, es: seq<StreamStep>, none: int)
    requires Starts(s0, After(id)) && Exec(s0, es, none).Some? && Kept(s0, es, none)
    ensures var s := Exec(s0, es, none).value;
            && s.cursor.After? && Rank(s.log, id) <= Rank(s.log, s.cursor.id) <= |s.log|
            && s.emitted <= Events(s.log[Rank(s.log, id)..])
            && s.emitted == Events(s.log[Rank(s.log, id)..Rank(s.log, s.cursor.id)])
            && Increasing(s.emitted) && Lists(s.log, Rank(s.log, id), Rank(s.log, s.cursor.id), s.emitted)
  {
    CursorReachable(s0, After(id), es, none);
    OriginFixed(s0, id, es, none);
    var s := Exec(s0, es, none).value;
    PrefixOfRest(s.log, Rank(s.log, id), Rank(s.log, s.cursor.id));
    EventsIncrease(s.log, Rank(s.log, id), Rank(s.log, s.cursor.id));
    EventsOfSlice(s.log, Rank(s.log, id), Rank(s.log, s.cursor.id));
    BetweenLists(s.log, Rank(s.log, id), Rank(s.log, s.cursor.id));
  }

  // ---- the loop over one batch ----

  class TenantReader {
    var currentID: Cursor
    var out: seq<StreamEvent>

    constructor (startID: Cursor)
      ensures currentID == startID && out == []
    {
      currentID, out := startID, [];
    }

    /** The inner loop of StreamTenantEvents: skip malformed entries, advance and emit on the others. */
    method Drain(batch: seq<Entry>)
      modifies this
      ensures out == old(out) + Events(batch)
      ensures |out| >= |old(out)| && Lists(batch, 0, |batch|, out[|old(out)|..])
      ensures currentID == if |out| == |old(out)| then old(currentID) else After(out[|out| - 1].id)
      ensures currentID == if Events(batch) == [] then old(currentID) else After(Events(batch)[|Events(batch)| - 1].id)
    {
      var i := 0;
      while i < |batch|
        invariant 0 <= i <= |batch|
        invariant out == old(out) + Events(batch[..i])
        invariant currentID == if Events(batch[..i]) == [] then old(currentID)
            else After(Events(batch[..i])[|Events(batch[..i])| - 1].id)
      {
        var msg := batch[i];
        assert batch[..i + 1] == batch[..i] + [msg];
        EventsSnoc(batch[..i], msg);
        if msg.payload.Some? {
          match msg.payload.value {
            case Str(s) =>
              currentID := After(msg.id);
              out := out + [StreamEvent(msg.id, s)];
            case Raw(b) =>
              currentID := After(msg.id);
              out := out + [StreamEvent(msg.id, b)];
            case Other =>
          }
        }
        i := i + 1;
      }
      assert batch[..|batch|] == batch;
      BetweenLists(batch, 0, |batch|);
      assert out[|old(out)|..] == Events(batch);
    }
  }

  /** The machine after the first n entries of a batch. */
  function Drained(s: Stream, n: nat): Stream
    requires s.reading.Draining? && s.reading.next + n <= |s.log|
  {
    var done := Between(s.log, s.reading.next, s.reading.next + n);
    s.(reading := Draining(s.reading.after, s.reading.next + n, s.reading.end),
       emitted := s.emitted + done,
       cursor := if done == [] then s.cursor else After(done[|done| - 1].id),
       origin := if s.cursor.Dollar? && done != [] then s.reading.after else s.origin)
  }

  lemma DoneOneMore(s: Stream, n: nat)
    requires s.reading.Draining? && s.reading.next + n < |s.log|
    ensures var next := s.reading.next;
            && Between(s.log, next, next + n + 1) == Between(s.log, next, next + n) + EventsOf(s.log[next + n])
            && s.emitted + Between(s.log, next, next + n + 1)
               == s.emitted + Between(s.log, next, next + n) + EventsOf(s.log[next + n])
  {
  }

  lemma DrainedSame(s: Stream, n: nat)
    requires s.reading.Draining? && s.reading.next + n < |s.log| && EventsOf(s.log[s.reading.next + n]) == []
    ensures Drained(s, n + 1) ==
            Drained(s, n).(reading := Draining(s.reading.after, s.reading.next + n + 1, s.reading.end))
  {
    var next := s.reading.next;
    assert Between(s.log, next, next + n + 1) == Between(s.log, next, next + n) + [];
  }

  lemma DrainedSkip(s: Stream, n: nat, none: int)
    requires s.reading.Draining? && s.reading.next + n < s.reading.end <= |s.log|
    requires EventsOf(s.log[s.reading.next + n]) == []
    ensures Step(Drained(s, n), Take, none) == Drained(s, n + 1)
  {
    DrainedSame(s, n);
    SkipMoves(Drained(s, n), none);
  }

  lemma DrainedEmit(s: Stream, n: nat, none: int)
    requires s.reading.Draining? && s.reading.next + n < s.reading.end <= |s.log|
    requires EventsOf(s.log[s.reading.next + n]) != []
    ensures Step(Drained(s, n), Take, none) == Drained(s, n + 1)
  {
    DoneOneMore(s, n);
    var x := s.log[s.reading.next + n];
    var a, b := Step(Drained(s, n), Take, none), Drained(s, n + 1);
    EventsOfExact(x, StreamEvent(0, []));
    assert a.emitted == b.emitted;
    assert a.cursor == After(x.id) == b.cursor && a.origin == b.origin;
  }

  lemma DrainedOneMore(s: Stream, n: nat, none: int)
    requires s.reading.Draining? && s.reading.next + n < s.reading.end <= |s.log|
    ensures Step(Drained(s, n), Take, none) == Drained(s, n + 1)
  {
    if EventsOf(s.log[s.reading.next + n]) == [] {
      DrainedSkip(s, n, none);
    } else {
      DrainedEmit(s, n, none);
    }
  }

  lemma DrainedNone(s: Stream)
    requires s.reading.Draining? && s.reading.next <= |s.log|
    ensures Drained(s, 0) == s
  {
    assert Between(s.log, s.reading.next, s.reading.next) == [];
    assert s.emitted + [] == s.emitted;
  }

  /** Taking the entries of a batch one at a time in the cursor machine is draining them in one go: the
      emitted events and the cursor move as in the method Drain. */
  lemma {:induction false} DrainIsTakes(s: Stream, es: seq<StreamStep>, none: int)
    requires s.reading.Draining? && s.reading.next + |es| <= s.reading.end <= |s.log|
    requires forall i :: 0 <= i < |es| ==> es[i].Take?
    ensures Exec(s, es, none) == Some(Drained(s, |es|))
  {
    if es == [] {
      DrainedNone(s);
    } else {
      var n := |es| - 1;
      DrainIsTakes(s, es[..n], none);
      DrainedOneMore(s, n, none);
      assert es[n] == Take;
    }
  }

  lemma ExecSnoc(s0: Stream, es: seq<StreamStep>, e: StreamStep, none: int)
    requires Exec(s0, es, none).Some? && StepOk(Exec(s0, es, none).value, e)
    ensures Exec(s0, es + [e], none) == Some(Step(Exec(s0, es, none).value, e, none))
  {
    var all := es + [e];
    assert all[..|all| - 1] == es && all[|all| - 1] == e;
  }

  lemma {:induction false} ExecOnto(s0: Stream, pre: seq<StreamStep>, post: seq<StreamStep>, s: Stream, none: int)
    requires Exec(s0, pre, none) == Some(s)
    ensures Exec(s0, pre + post, none) == Exec(s, post, none)
    decreases |post|
  {
    if post == [] {
      assert pre + post == pre;
    } else {
      var n := |post| - 1;
      assert (pre + post)[..|pre + post| - 1] == pre + post[..n];
      ExecOnto(s0, pre, post[..n], s, none);
    }
  }

  function Takes(n: nat): seq<StreamStep> { seq(n, _ => Take) }

  lemma ReadAndServe(s: Stream, none: int)
    requires Sorted(s.log) && s.reading.Idle? && s.cursor.After?
    requires s.first <= Rank(s.log, s.cursor.id) < |s.log|
    ensures Exec(s, [Read, Serve], none) ==
            Some(s.(reading := Draining(s.cursor.id, Rank(s.log, s.cursor.id), |s.log|)))
  {
    var s1 := s.(reading := Blocked(s.cursor.id));
    ExecSnoc(s, [], Read, none);
    assert [] + [Read] == [Read];
    ExecSnoc(s, [Read], Serve, none);
    assert [Read] + [Serve] == [Read, Serve];
  }

  /** A cursor that reads while something is waiting catches up: one read, drained to its end, emits every
      well-formed entry after the cursor, and the cursor is ready for its next read. */
  lemma CatchUp(s: Stream, none: int) returns (es: seq<StreamStep>)
    requires Sorted(s.log) && s.reading.Idle? && s.cursor.After?
    requires s.first <= Rank(s.log, s.cursor.id) < |s.log|
    ensures Exec(s, es, none).Some?
    ensures var s', from := Exec(s, es, none).value, Rank(s.log, s.cursor.id);
            s'.reading.Idle? && s'.log == s.log && s'.emitted == s.emitted + Between(s.log, from, |s.log|)
  {
    var served := s.(reading := Draining(s.cursor.id, Rank(s.log, s.cursor.id), |s.log|));
    ReadAndServe(s, none);
    es := DrainAll(s, served, none);
    DrainedEmits(served);
  }

  /** What a batch drained to its end leaves. */
  function AllDrained(served: Stream): Stream
    requires served.reading.Draining? && served.reading.next <= served.reading.end == |served.log|
  {
    Drained(served, |served.log| - served.reading.next).(reading := Idle)
  }

  lemma DrainedEmits(served: Stream)
    requires served.reading.Draining? && served.reading.next <= served.reading.end == |served.log|
    ensures var s := AllDrained(served);
            && s.reading.Idle? && s.log == served.log
            && s.emitted == served.emitted + Between(served.log, served.reading.next, |served.log|)
  {
  }

  lemma DrainAll(s: Stream, served: Stream, none: int) returns (es: seq<StreamStep>)
    requires Exec(s, [Read, Serve], none) == Some(served)
    requires served.reading.Draining? && served.reading.next <= served.reading.end == |served.log|
    ensures Exec(s, es, none) == Some(AllDrained(served))
  {
    var n := |served.log| - served.reading.next;
    ServedAndDrained(s, served, none);
    FinishAfter(s, [Read, Serve] + Takes(n), Drained(served, n), none);
    es := [Read, Serve] + Takes(n) + [Finish];
  }

  lemma ServedAndDrained(s: Stream, served: Stream, none: int)
    requires Exec(s, [Read, Serve], none) == Some(served)
    requires served.reading.Draining? && served.reading.next <= served.reading.end == |served.log|
    ensures var n := |served.log| - served.reading.next;
            Exec(s, [Read, Serve] + Takes(n), none) == Some(Drained(served, n))
  {
    var n := |served.log| - served.reading.next;
    DrainIsTakes(served, Takes(n), none);
    ExecOnto(s, [Read, Serve], Takes(n), served, none);
  }

  lemma FinishAfter(s0: Stream, es: seq<StreamStep>, s: Stream, none: int)
    requires Exec(s0, es, none) == Some(s) && s.reading.Draining? && s.reading.next >= s.reading.end
    ensures Exec(s0, es + [Finish], none) == Some(s.(reading := Idle))
  {
    ExecSnoc(s0, es, Finish, none);
  }
}
