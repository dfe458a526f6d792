/** The load shedder of go-api/internal/streams/monitor.go: a two-threshold switch
    driven by samples of the consumer group's backlog. */
module Monitor {
  import opened Common

  datatype Thresholds = Thresholds(high: int, low: int)

  /** One group as XINFO GROUPS reports it; lag is negative when Redis cannot compute it. */
  datatype GroupInfo = GroupInfo(name: GoString, lag: int, pending: int)

  function LowWater(high: int, pct: int): int {
    var clamped := if pct < 0 then 0 else if pct > 100 then 100 else pct;
    var low := TruncDiv(Wrap64(high * clamped), 100);
    if low > high then high else low
  }

  /** The switch after one more sample. */
  function Flip(t: Thresholds, shedding: bool, sample: int): bool {
    if t.high <= 0 then shedding
    else if !shedding && sample >= t.high then true
    else if shedding && sample <= t.low then false
    else shedding
  }

  /** The switch after a whole history of samples; it starts released. */
  function FlagAfter(t: Thresholds, samples: seq<int>): bool {
    if samples == [] then false
    else Flip(t, FlagAfter(t, samples[..|samples| - 1]), samples[|samples| - 1])
  }

  /** What poll hands to Update: the backlog of the first group of that name, unless its lag is unknown. */
  function Sample(groups: seq<GroupInfo>, group: GoString): Option<int> {
    if groups == [] then None
    else if groups[0].name == group then
      if groups[0].lag < 0 then None else Some(groups[0].lag + groups[0].pending)
    else Sample(groups[1..], group)
  }

  class QueueDepthMonitor {
    const group: GoString
    const highWater: int
    const lowWater: int
    var backlog: int
    var shedding: bool
    ghost var samples: seq<int>  // every backlog applied so far

    ghost predicate Valid()
      reads this
    {
      && shedding == FlagAfter(Thresholds(highWater, lowWater), samples)
      && backlog == if samples == [] then 0 else samples[|samples| - 1]
    }

    constructor (group: GoString, highWater: int, lowWaterPct: int)
      ensures Valid() && samples == []
      ensures this.group == group && this.highWater == highWater
      ensures this.lowWater == LowWater(highWater, lowWaterPct)
    {
      var pct := lowWaterPct;
      if pct < 0 {
        pct := 0;
      }
      if pct > 100 {
        pct := 100;
      }
      var low := TruncDiv(Wrap64(highWater * pct), 100);
      if low > highWater {
        low := highWater;
      }
      this.group := group;
      this.highWater := highWater;
      this.lowWater := low;
      backlog, shedding, samples := 0, false, [];
    }

    method ShouldShed() returns (r: bool)
      requires Valid()
      ensures r == (highWater > 0 && FlagAfter(Thresholds(highWater, lowWater), samples))
    {
      if highWater <= 0 {
        return false;
      }
      return shedding;
    }

    method Update(b: int)
      requires Valid()
      modifies this
      ensures Valid() && samples == old(samples) + [b]
    {
      backlog := b;
      samples := samples + [b];
      if highWater <= 0 {
        return;
      }
      if !shedding && b >= highWater {
        shedding := true;
        return;
      }
      if shedding && b <= lowWater {
        shedding := false;
      }
    }

    /** One tick of Run; an XINFO error, a missing group or an unknown lag keeps the state. */
    method Poll(reply: Result<seq<GroupInfo>, GoString>)
      requires Valid()
      modifies this
      ensures Valid()
      ensures samples == old(samples) +
                         (if reply.Err? then []
                          else match Sample(reply.value, group) case None => [] case Some(b) => [b])
    {
      if reply.Err? {
        return;
      }
      var groups := reply.value;
      var i := 0;
      while i < |groups|
        invariant 0 <= i <= |groups|
        invariant Valid() && samples == old(samples)
        invariant Sample(groups, group) == Sample(groups[i..], group)
      {
        if groups[i].name == group {
          if groups[i].lag < 0 {
            return;
          }
          Update(groups[i].lag + groups[i].pending);
          return;
        }
        i := i + 1;
      }
    }
  }

  // ---- the sample ----

  ghost predicate FirstNamed(groups: seq<GroupInfo>, group: GoString, i: nat) {
    i < |groups| && groups[i].name == group && forall j :: 0 <= j < i ==> groups[j].name != group
  }

  /** A poll updates the monitor exactly when some group has the name and the first one of that name has a
      known lag, and then with that group's lag plus pending. */
  lemma {:induction false} SampleExact(groups: seq<GroupInfo>, group: GoString, b: int)
    ensures Sample(groups, group) == Some(b) <==>
            exists i: nat :: FirstNamed(groups, group, i) && groups[i].lag >= 0
                && b == groups[i].lag + groups[i].pending
  {
    if groups != [] && groups[0].name != group {
      SampleExact(groups[1..], group, b);
      if i: nat :| FirstNamed(groups[1..], group, i) {
        assert FirstNamed(groups, group, i + 1);
      }
      forall i: nat | FirstNamed(groups, group, i) ensures i > 0 && FirstNamed(groups[1..], group, i - 1) {
        forall j | 0 <= j < i - 1 ensures groups[1..][j].name != group { assert groups[1..][j] == groups[j + 1]; }
      }
    } else if groups != [] {
      assert FirstNamed(groups, group, 0);
      assert forall i: nat :: FirstNamed(groups, group, i) ==> i == 0;
    }
  }

  // ---- the clamp ----

  /** The low watermark is the clamped percentage of the high one, rounded down, never above it,
      and strictly below it exactly when the percentage is. */
  lemma LowWaterIsPercentage(high: int, pct: int)
    requires 0 <= high && FitsInt64(high * 100)
    ensures 0 <= LowWater(high, pct) <= high
    ensures LowWater(high, pct) < high <==> high > 0 && pct < 100
    ensures var p := Max(0, Min(100, pct)); 100 * LowWater(high, pct) <= high * p < 100 * LowWater(high, pct) + 100
  {
    var p := Max(0, Min(100, pct));
    MulMono(high, p, 100);
    assert Wrap64(high * p) == high * p;
    if high > 0 && pct < 100 {
      MulMono(high, p, 99);
    }
  }

  lemma MulMono(a: int, b: int, c: int)
    requires 0 <= a && 0 <= b <= c
    ensures 0 <= a * b <= a * c
  {
  }

  // ---- hysteresis ----

  /** Some sample reached the high watermark and every later one stayed above the low watermark. */
  ghost predicate HeldSinceHigh(t: Thresholds, samples: seq<int>) {
    exists i :: 0 <= i < |samples| && samples[i] >= t.high && forall j :: i <= j < |samples| ==> samples[j] > t.low
  }

  lemma HeldSnoc(t: Thresholds, before: seq<int>, b: int)
    requires t.low < t.high
    ensures HeldSinceHigh(t, before + [b]) <==> b >= t.high || (HeldSinceHigh(t, before) && b > t.low)
  {
    var samples := before + [b];
    var n := |before|;
    if HeldSinceHigh(t, before) && b > t.low {
      var i :| 0 <= i < n && before[i] >= t.high && forall j :: i <= j < n ==> before[j] > t.low;
      assert samples[i] >= t.high && forall j :: i <= j < |samples| ==> samples[j] > t.low;
    }
    if b >= t.high {
      assert samples[n] >= t.high;
    }
    if HeldSinceHigh(t, samples) {
      var i :| 0 <= i < |samples| && samples[i] >= t.high && forall j :: i <= j < |samples| ==> samples[j] > t.low;
      if i < n {
        assert before[i] >= t.high;
        assert forall j :: i <= j < n ==> before[j] == samples[j];
        assert samples[n] > t.low;
      }
    }
  }

  /** Closed form of the switch over any history. */
  lemma {:induction false} FlagIsHeldSinceHigh(t: Thresholds, samples: seq<int>)
    requires 0 <= t.low < t.high
    ensures FlagAfter(t, samples) <==> HeldSinceHigh(t, samples)
  {
    if samples != [] {
      var n := |samples| - 1;
      FlagIsHeldSinceHigh(t, samples[..n]);
      HeldSnoc(t, samples[..n], samples[n]);
      assert samples[..n] + [samples[n]] == samples;
    }
  }

  /** A high watermark of zero or less never sheds. */
  lemma {:induction false} DisabledNeverSheds(t: Thresholds, samples: seq<int>)
    requires t.high <= 0
    ensures !FlagAfter(t, samples)
  {
    if samples != [] {
      DisabledNeverSheds(t, samples[..|samples| - 1]);
    }
  }

  /** With equal watermarks, a backlog sitting on them toggles the switch at every sample. */
  lemma {:induction false} EqualWatermarksToggle(h: int, samples: seq<int>)
    requires h > 0
    requires forall i :: 0 <= i < |samples| ==> samples[i] == h
    ensures FlagAfter(Thresholds(h, h), samples) == (|samples| % 2 == 1)
  {
    if samples != [] {
      EqualWatermarksToggle(h, samples[..|samples| - 1]);
    }
  }

  // ---- flapping costs movement ----

  /** How often the switch changed over a history. */
  function Changes(t: Thresholds, samples: seq<int>): nat {
    if samples == [] then 0
    else
      var before := samples[..|samples| - 1];
      Changes(t, before) + if FlagAfter(t, samples) != FlagAfter(t, before) then 1 else 0
  }

  function TotalVariation(samples: seq<int>): nat {
    if |samples| < 2 then 0
    else TotalVariation(samples[..|samples| - 1]) + Abs(samples[|samples| - 1] - samples[|samples| - 2])
  }

  /** The variation already spent, plus what the next change still has to travel. */
  lemma {:induction false} VariationPaysForChanges(t: Thresholds, samples: seq<int>)
    requires 0 < t.high && t.low < t.high
    requires Changes(t, samples) >= 1
    ensures samples != []
    ensures var spent := (Changes(t, samples) - 1) * (t.high - t.low);
            var last := samples[|samples| - 1];
            && TotalVariation(samples) >= spent
            && TotalVariation(samples) >= spent + (if FlagAfter(t, samples) then t.high - last else last - t.low)
  {
    var before := samples[..|samples| - 1];
    if Changes(t, before) >= 1 {
      VariationPaysForChanges(t, before);
      var d := t.high - t.low;
      var k := Changes(t, before);
      assert samples[|samples| - 2] == before[|before| - 1];
      if Changes(t, samples) != k {
        assert (k + 1 - 1) * d == (k - 1) * d + d;
      }
    } else {
      NoChangeMeansReleased(t, before);
    }
  }

  lemma {:induction false} NoChangeMeansReleased(t: Thresholds, samples: seq<int>)
    requires Changes(t, samples) == 0
    ensures !FlagAfter(t, samples)
  {
    if samples != [] {
      NoChangeMeansReleased(t, samples[..|samples| - 1]);
    }
  }

  /** Anti-flapping: k changes need the samples to travel at least k-1 times the band. */
  lemma FlappingNeedsTravel(t: Thresholds, samples: seq<int>)
    requires 0 < t.high && t.low < t.high
    requires Changes(t, samples) >= 1
    ensures TotalVariation(samples) >= (Changes(t, samples) - 1) * (t.high - t.low)
  {
    VariationPaysForChanges(t, samples);
  }
}
