/** The cursor started at "$", which is how both readers of go-api/internal/service start it.  Each read
    that times out resolves "$" again, so what is emitted depends on which read was the productive one. */
module DollarStart {
  import opened Common
  import Fanout
  import opened TenantStream

  /** "$" on an empty stream stands for an id below every entry's. */
  ghost predicate AboveNone(log: seq<Entry>, none: int) { forall k :: 0 <= k < |log| ==> none < log[k].id }

  /** The event at n is the read whose batch gave the first emission, which is the event before m. */
  ghost predicate FirstProductive(s0: Stream, es: seq<StreamStep>, none: int, n: nat, m: nat) {
    && n < m <= |es| && es[n].Read? && (forall k :: n < k < m ==> !es[k].Read?)
    && Exec(s0, es[..n], none).Some?
    && Exec(s0, es[..m - 1], none).Some? && Exec(s0, es[..m - 1], none).value.emitted == []
    && Exec(s0, es[..m], none).Some? && Exec(s0, es[..m], none).value.emitted != []
  }

  /** The log when that read was sent. */
  ghost function LogAt(s0: Stream, es: seq<StreamStep>, none: int, n: nat): seq<Entry>
    requires n <= |es| && Exec(s0, es[..n], none).Some?
  {
    Exec(s0, es[..n], none).value.log
  }

  lemma {:induction false} PrefixRuns(s0: Stream, es: seq<StreamStep>, none: int, n: nat)
    requires Exec(s0, es, none).Some? && n <= |es|
    ensures Exec(s0, es[..n], none).Some?
    ensures Exec(s0, es[..n], none).value.log <= Exec(s0, es, none).value.log
    decreases |es|
  {
    if n < |es| {
      var before := es[..|es| - 1];
      PrefixRuns(s0, before, none, n);
      assert before[..n] == es[..n];
    } else {
      assert es[..n] == es;
    }
  }

  /** Until the first emission the cursor is still "$", and never again after it. */
  lemma {:induction false} DollarUntilEmission(s0: Stream, es: seq<StreamStep>, none: int)
    requires Starts(s0, Dollar) && Exec(s0, es, none).Some?
    ensures var s := Exec(s0, es, none).value; s.cursor.Dollar? <==> s.emitted == []
  {
    if es != [] {
      DollarUntilEmission(s0, es[..|es| - 1], none);
    }
  }

  /** An outstanding read from "$" was resolved against the log of its own moment. */
  ghost predicate SentAt(s0: Stream, es: seq<StreamStep>, none: int, n: nat)
    requires Exec(s0, es, none).Some?
  {
    && n < |es| && es[n].Read? && (forall k :: n < k < |es| ==> !es[k].Read?)
    && Exec(s0, es[..n], none).Some?
    && var s := Exec(s0, es, none).value;
       (s.reading.Blocked? || s.reading.Draining?) && s.reading.after == LastId(LogAt(s0, es, none, n), none)
  }

  lemma {:induction false} LastRead(s0: Stream, es: seq<StreamStep>, none: int) returns (n: nat)
    requires Starts(s0, Dollar) && Exec(s0, es, none).Some? && Exec(s0, es, none).value.cursor.Dollar?
    requires Exec(s0, es, none).value.reading.Blocked? || Exec(s0, es, none).value.reading.Draining?
    ensures SentAt(s0, es, none, n)
  {
    var last := |es| - 1;
    if es[last].Read? {
      n := last;
    } else {
      n := LastRead(s0, es[..last], none);
      assert es[..last][..n] == es[..n];
    }
  }

  /** Only taking an entry of a batch emits, and the first time it sets the origin. */
  lemma EmissionStep(s: Stream, e: StreamStep, none: int)
    requires StepOk(s, e) && s.cursor.Dollar? && s.emitted == [] && Step(s, e, none).emitted != []
    ensures e.Take? && s.reading.Draining? && Step(s, e, none).origin == s.reading.after
  {
  }

  lemma FirstEmission(s0: Stream, es: seq<StreamStep>, none: int)
    requires Starts(s0, Dollar) && es != [] && Exec(s0, es, none).Some? && Exec(s0, es, none).value.emitted != []
    requires Exec(s0, es[..|es| - 1], none).value.emitted == []
    ensures es[|es| - 1].Take?
    ensures var s := Exec(s0, es[..|es| - 1], none).value;
            s.cursor.Dollar? && s.reading.Draining? && Exec(s0, es, none).value.origin == s.reading.after
  {
    DollarUntilEmission(s0, es[..|es| - 1], none);
    EmissionStep(Exec(s0, es[..|es| - 1], none).value, es[|es| - 1], none);
  }

  lemma {:induction false} FirstProductiveExists(s0: Stream, es: seq<StreamStep>, none: int) returns (n: nat, m: nat)
    requires Starts(s0, Dollar) && Exec(s0, es, none).Some? && Exec(s0, es, none).value.emitted != []
    ensures FirstProductive(s0, es, none, n, m)
  {
    var before := es[..|es| - 1];
    if Exec(s0, before, none).value.emitted != [] {
      n, m := FirstProductiveExists(s0, before, none);
      ProductiveLater(s0, before, es, none, n, m);
    } else {
      FirstEmission(s0, es, none);
      n := LastRead(s0, before, none);
      m := |es|;
      SentBefore(s0, es, none, n);
      assert es[..m] == es;
    }
  }

  lemma ProductiveLater(s0: Stream, before: seq<StreamStep>, es: seq<StreamStep>, none: int, n: nat, m: nat)
    requires before <= es && FirstProductive(s0, before, none, n, m)
    ensures FirstProductive(s0, es, none, n, m)
  {
    assert before[..n] == es[..n] && before[..m - 1] == es[..m - 1] && before[..m] == es[..m];
    forall k | n < k < m ensures !es[k].Read? { assert es[k] == before[k]; }
  }

  /** The last read of all but the last event, if that is no read. */
  lemma SentBefore(s0: Stream, es: seq<StreamStep>, none: int, n: nat)
    requires es != [] && !es[|es| - 1].Read?
    requires Exec(s0, es[..|es| - 1], none).Some? && SentAt(s0, es[..|es| - 1], none, n)
    ensures es[n].Read? && (forall k :: n < k < |es| ==> !es[k].Read?)
    ensures Exec(s0, es[..n], none).Some? && LogAt(s0, es, none, n) == LogAt(s0, es[..|es| - 1], none, n)
  {
    var before := es[..|es| - 1];
    assert before[..n] == es[..n];
    forall k | n < k < |es| ensures !es[k].Read? {
      if k < |es| - 1 { assert es[k] == before[k]; }
    }
  }

  /** The first emission fixes the origin for good. */
  lemma {:induction false} OriginKept(s0: Stream, es: seq<StreamStep>, none: int, m: nat)
    requires Starts(s0, Dollar) && Exec(s0, es, none).Some? && m <= |es|
    requires Exec(s0, es[..m], none).Some? && Exec(s0, es[..m], none).value.emitted != []
    ensures Exec(s0, es, none).value.emitted != []
    ensures Exec(s0, es, none).value.origin == Exec(s0, es[..m], none).value.origin
    decreases |es|
  {
    if m < |es| {
      var before := es[..|es| - 1];
      assert before[..m] == es[..m];
      OriginKept(s0, before, none, m);
      DollarUntilEmission(s0, before, none);
    } else {
      assert es[..m] == es;
    }
  }

  lemma OriginOfRead(s0: Stream, es: seq<StreamStep>, none: int, n: nat, m: nat)
    requires Starts(s0, Dollar) && Exec(s0, es, none).Some? && FirstProductive(s0, es, none, n, m)
    ensures Exec(s0, es, none).value.origin == LastId(LogAt(s0, es, none, n), none)
  {
    OriginKept(s0, es, none, m);
    var upTo := es[..m];
    assert upTo[..m - 1] == es[..m - 1] && upTo[..n] == es[..n];
    OriginAtEmission(s0, upTo, none, n);
  }

  lemma OriginAtEmission(s0: Stream, es: seq<StreamStep>, none: int, n: nat)
    requires Starts(s0, Dollar) && n < |es| && es[n].Read? && forall k :: n < k < |es| ==> !es[k].Read?
    requires Exec(s0, es, none).Some? && Exec(s0, es, none).value.emitted != []
    requires Exec(s0, es[..|es| - 1], none).value.emitted == []
    ensures Exec(s0, es[..n], none).Some?
    ensures Exec(s0, es, none).value.origin == LastId(LogAt(s0, es, none, n), none)
  {
    FirstEmission(s0, es, none);
    var n' := LastRead(s0, es[..|es| - 1], none);
    SentBefore(s0, es, none, n');
  }

  /** The last id of an earlier log splits the log of now where the earlier one ended. */
  lemma RankOfLast(log: seq<Entry>, log': seq<Entry>, none: int)
    requires log <= log' && Sorted(log') && AboveNone(log', none)
    ensures Rank(log', LastId(log, none)) == |log|
  {
    if log == [] {
      RankSplits(log', none);
      assert log' != [] ==> none < log'[0].id;
    } else {
      assert log[|log| - 1] == log'[|log| - 1];
      RankOfEntry(log', |log| - 1);
    }
  }

  /** Exactly what a cursor started at "$" emits: the well-formed entries from the moment the productive
      read was sent.  These are all the well-formed entries since the start if and only if none was
      appended between the start and that read. */
  lemma DollarMissesIff(s0: Stream, es: seq<StreamStep>, none: int, n: nat, m: nat)
    requires Starts(s0, Dollar) && Exec(s0, es, none).Some? && Kept(s0, es, none)
    requires AboveNone(Exec(s0, es, none).value.log, none) && FirstProductive(s0, es, none, n, m)
    ensures var s := Exec(s0, es, none).value;
            var start, sent := |s0.log|, |LogAt(s0, es, none, n)|;
            && s.cursor.After? && start <= sent <= Rank(s.log, s.cursor.id) <= |s.log|
            && s.emitted == Between(s.log, sent, Rank(s.log, s.cursor.id))
            && Lists(s.log, sent, Rank(s.log, s.cursor.id), s.emitted)
            && (Between(s.log, start, sent) == [] <==> forall k :: start <= k < sent ==> !IsEvent(s.log[k]))
            && (s.emitted == Between(s.log, start, Rank(s.log, s.cursor.id)) <==> Between(s.log, start, sent) == [])
  {
    var s := Exec(s0, es, none).value;
    var seen := LogAt(s0, es, none, n);
    CursorReachable(s0, Dollar, es, none);
    OriginOfRead(s0, es, none, n, m);
    OriginKept(s0, es, none, m);
    DollarUntilEmission(s0, es, none);
    PrefixRuns(s0, es, none, n);
    PrefixRuns(s0, es[..n], none, 0);
    assert es[..n][..0] == [];
    RankOfLast(seen, s.log, none);
    NothingBetween(s.log, |s0.log|, |seen|);
    BetweenLists(s.log, |seen|, Rank(s.log, s.cursor.id));
    JoinedEqualsIff(s.log, |s0.log|, |seen|, Rank(s.log, s.cursor.id));
  }

  lemma JoinedEqualsIff(log: seq<Entry>, a: nat, b: nat, c: nat)
    requires a <= b <= c <= |log|
    ensures Between(log, b, c) == Between(log, a, c) <==> Between(log, a, b) == []
  {
    BetweenJoins(log, a, b, c);
    var p, q := Between(log, a, b), Between(log, b, c);
    if p == [] {
      assert p + q == q;
    } else {
      assert |p + q| > |q|;
    }
  }

  // ---- a missed entry stays missed ----

  lemma {:induction false} ExecJoins(s0: Stream, pre: seq<StreamStep>, post: seq<StreamStep>, none: int)
    requires Exec(s0, pre + post, none).Some?
    ensures Exec(s0, pre, none).Some?
    ensures Exec(s0, pre + post, none) == Exec(Exec(s0, pre, none).value, post, none)
    decreases |post|
  {
    if post == [] {
      assert pre + post == pre;
    } else {
      var n := |post| - 1;
      assert (pre + post)[..|pre + post| - 1] == pre + post[..n];
      ExecJoins(s0, pre, post[..n], none);
    }
  }

  lemma {:induction false} KeptJoins(s0: Stream, pre: seq<StreamStep>, post: seq<StreamStep>, none: int)
    requires Exec(s0, pre + post, none).Some? && Kept(s0, pre + post, none)
    ensures Exec(s0, pre, none).Some?
    ensures Exec(Exec(s0, pre, none).value, post, none).Some? && Kept(Exec(s0, pre, none).value, post, none)
    decreases |post|
  {
    ExecJoins(s0, pre, post, none);
    if post != [] {
      var n := |post| - 1;
      assert (pre + post)[..|pre + post| - 1] == pre + post[..n];
      KeptJoins(s0, pre, post[..n], none);
      ExecJoins(s0, pre, post[..n], none);
    }
  }

  /** An entry that is in the stream while the cursor is "$" and no read is out is never emitted, whatever
      happens afterwards. */
  lemma DollarNeverEmitsEarlier(s0: Stream, pre: seq<StreamStep>, post: seq<StreamStep>, none: int, k: nat)
    requires Starts(s0, Dollar) && Exec(s0, pre + post, none).Some? && Kept(s0, pre + post, none)
    requires AboveNone(Exec(s0, pre + post, none).value.log, none)
    requires Exec(s0, pre, none).Some?
    requires var s1 := Exec(s0, pre, none).value;
             s1.cursor.Dollar? && s1.reading.Idle? && k < |s1.log|
    ensures var x, s := Exec(s0, pre, none).value.log[k], Exec(s0, pre + post, none).value;
            && k < |s.log| && s.log[k] == x
            && forall i :: 0 <= i < |s.emitted| ==> s.emitted[i].id > x.id
  {
    var s1 := Exec(s0, pre, none).value;
    var s := Exec(s0, pre + post, none).value;
    ExecJoins(s0, pre, post, none);
    KeptJoins(s0, pre, post, none);
    PrefixRuns(s1, post, none, 0);
    StartsAgain(s0, pre, none);
    if s.emitted != [] {
      var n, m := FirstProductiveExists(s1, post, none);
      DollarMissesIff(s1, post, none, n, m);
      CursorReachable(s1, Dollar, post, none);
      forall i | 0 <= i < |s.emitted| ensures s.emitted[i].id > s.log[k].id {
        EmittedAfter(s.log, |LogAt(s1, post, none, n)|, Rank(s.log, s.cursor.id), k, s.emitted[i]);
      }
    }
  }

  lemma StartsAgain(s0: Stream, pre: seq<StreamStep>, none: int)
    requires Starts(s0, Dollar) && Exec(s0, pre, none).Some?
    requires Exec(s0, pre, none).value.cursor.Dollar? && Exec(s0, pre, none).value.reading.Idle?
    ensures Starts(Exec(s0, pre, none).value, Dollar)
  {
    DollarUntilEmission(s0, pre, none);
    LogStaysSorted(s0, pre, none);
  }

  lemma {:induction false} LogStaysSorted(s0: Stream, es: seq<StreamStep>, none: int)
    requires Sorted(s0.log) && s0.first <= |s0.log| && Exec(s0, es, none).Some?
    ensures var s := Exec(s0, es, none).value; Sorted(s.log) && s.first <= |s.log|
  {
    if es != [] {
      var n := |es| - 1;
      LogStaysSorted(s0, es[..n], none);
      if es[n].Append? {
        SortedSnoc(Exec(s0, es[..n], none).value.log, es[n].e);
      }
    }
  }

  lemma EmittedAfter(log: seq<Entry>, a: nat, b: nat, k: nat, ev: Fanout.StreamEvent)
    requires Sorted(log) && k < a && b <= |log| && ev in Between(log, a, b)
    ensures ev.id > log[k].id
  {
    EventsCarried(log, a, b, ev);
    var i :| a <= i < b && Writes(log[i], ev);
  }

  /** The failing input: a well-formed entry appended after the start, once a first read has timed out, is
      never emitted in any continuation. */
  lemma DollarCanMiss(s0: Stream, x: Entry, es: seq<StreamStep>, none: int)
    requires s0 == Stream([], 0, Dollar, Idle, [], 0) && EventsOf(x) != []
    requires |es| >= 3 && es[..3] == [Read, Timeout, Append(x)]
    requires Exec(s0, es, none).Some? && Kept(s0, es, none) && AboveNone(Exec(s0, es, none).value.log, none)
    ensures Starts(s0, Dollar)
    ensures var s := Exec(s0, es, none).value; s.log != [] && s.log[0] == x && EventsOf(x)[0] !in s.emitted
  {
    assert es[..3] + es[3..] == es;
    AppendedAfterTimeout(s0, x, none);
    DollarNeverEmitsEarlier(s0, es[..3], es[3..], none, 0);
    assert EventsOf(x)[0].id == x.id;
  }

  lemma AppendedAfterTimeout(s0: Stream, x: Entry, none: int)
    requires s0 == Stream([], 0, Dollar, Idle, [], 0)
    ensures Exec(s0, [Read, Timeout, Append(x)], none) == Some(s0.(log := [x]))
  {
    ExecSnoc(s0, [], Read, none);
    assert [] + [Read] == [Read];
    ExecSnoc(s0, [Read], Timeout, none);
    assert [Read] + [Timeout] == [Read, Timeout];
    ExecSnoc(s0, [Read, Timeout], Append(x), none);
    assert [Read, Timeout] + [Append(x)] == [Read, Timeout, Append(x)];
    assert s0.log + [x] == [x];
  }
}
