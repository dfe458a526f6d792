/** Profile defaults of go-api/internal/config/config.go, on the fields they touch. */
module Config {
  import opened Common
  import Monitor

  datatype Profile = Small | Medium | Large | Custom | Unknown(name: string)

  datatype Tier = Tier(memLimit: int, streamMaxLen: int, poolSize: int, bufferSize: int, queueDepth: int)

  const MIB: int := 1024 * 1024

  /** profilesTable, for the profiles it lists. */
  function TierOf(p: Profile): Tier
    requires p.Small? || p.Medium? || p.Large?
  {
    match p
    case Small => Tier(200 * MIB, 1000, 50, 100, 5000)
    case Medium => Tier(450 * MIB, 5000, 100, 256, 25000)
    case Large => Tier(900 * MIB, 10000, 200, 512, 50000)
  }

  datatype ConfigError = InvalidProfile | InvalidLowWaterPct

  /** The values of the settings at one moment. */
  datatype Settings = Settings(
    profile: Profile, memLimit: int, streamMaxLen: int, poolSize: int, bufferSize: int,
    queueDepth: int, ingestMaxLen: int, lowWaterPct: int)

  function OrDefault(v: int, d: int): int { if v == 0 then d else v }

  /** The settings after applyProfileDefaults. */
  function WithDefaults(s: Settings): Settings {
    match s.profile
    case Unknown(_) => s
    case Custom =>
      s.(ingestMaxLen := if s.ingestMaxLen == 0 && s.queueDepth > 0 then Wrap64(s.queueDepth * 2) else s.ingestMaxLen)
    case _ =>
      var t := TierOf(s.profile);
      var depth := OrDefault(s.queueDepth, t.queueDepth);
      s.(memLimit := OrDefault(s.memLimit, t.memLimit),
         streamMaxLen := OrDefault(s.streamMaxLen, t.streamMaxLen),
         poolSize := OrDefault(s.poolSize, t.poolSize),
         bufferSize := OrDefault(s.bufferSize, t.bufferSize),
         queueDepth := depth,
         ingestMaxLen := OrDefault(s.ingestMaxLen, Wrap64(depth * 2)))
  }

  /** A setting after loading: kept unless zero, and then the value for its named profile. */
  predicate Filled(before: int, after: int, p: Profile, small: int, medium: int, large: int) {
    && (before != 0 ==> after == before)
    && (before == 0 && p.Small? ==> after == small)
    && (before == 0 && p.Medium? ==> after == medium)
    && (before == 0 && p.Large? ==> after == large)
  }

  class Config {
    var profile: Profile
    var memLimit: int
    var streamMaxLen: int
    var poolSize: int
    var bufferSize: int
    var queueDepth: int
    var ingestMaxLen: int
    var lowWaterPct: int

    ghost function View(): Settings
      reads this
    {
      Settings(profile, memLimit, streamMaxLen, poolSize, bufferSize, queueDepth, ingestMaxLen, lowWaterPct)
    }

    method ApplyProfileDefaults() returns (r: Result<(), ConfigError>)
      modifies this
      ensures View() == WithDefaults(old(View()))
      ensures r == if old(profile).Unknown? then Err(InvalidProfile)
                   else if 0 <= old(lowWaterPct) <= 100 then Ok(()) else Err(InvalidLowWaterPct)
      ensures ingestMaxLen == if old(ingestMaxLen) != 0 || old(profile).Unknown? then old(ingestMaxLen)
                              else if old(profile).Custom? && queueDepth <= 0 then 0
                              else Wrap64(2 * queueDepth)
      ensures profile == old(profile) && lowWaterPct == old(lowWaterPct)
      ensures old(profile).Unknown? || old(profile).Custom? ==>
                && memLimit == old(memLimit) && streamMaxLen == old(streamMaxLen) && poolSize == old(poolSize)
                && bufferSize == old(bufferSize) && queueDepth == old(queueDepth)
      ensures Filled(old(memLimit), memLimit, old(profile), 200 * 1_048_576, 450 * 1_048_576, 900 * 1_048_576)
      ensures Filled(old(streamMaxLen), streamMaxLen, old(profile), 1000, 5000, 10000)
      ensures Filled(old(poolSize), poolSize, old(profile), 50, 100, 200)
      ensures Filled(old(bufferSize), bufferSize, old(profile), 100, 256, 512)
      ensures Filled(old(queueDepth), queueDepth, old(profile), 5000, 25000, 50000)
    {
      match profile {
        case Unknown(_) =>
          return Err(InvalidProfile);
        case Custom =>
          if ingestMaxLen == 0 && queueDepth > 0 {
            ingestMaxLen := Wrap64(queueDepth * 2);
          }
        case _ =>
          var t := TierOf(profile);
          memLimit := OrDefault(memLimit, t.memLimit);
          streamMaxLen := OrDefault(streamMaxLen, t.streamMaxLen);
          poolSize := OrDefault(poolSize, t.poolSize);
          bufferSize := OrDefault(bufferSize, t.bufferSize);
          queueDepth := OrDefault(queueDepth, t.queueDepth);
          ingestMaxLen := OrDefault(ingestMaxLen, Wrap64(queueDepth * 2));
      }
      if lowWaterPct < 0 || lowWaterPct > 100 {
        return Err(InvalidLowWaterPct);
      }
      return Ok(());
    }
  }

  /** Loading twice changes nothing more, a value the operator set is never replaced, and a named
      profile leaves none of the five at zero. */
  lemma DefaultsFillOnlyZeros(s: Settings)
    requires FitsInt64(s.queueDepth)
    ensures WithDefaults(WithDefaults(s)) == WithDefaults(s)
    ensures var d := WithDefaults(s);
            && (s.memLimit != 0 ==> d.memLimit == s.memLimit)
            && (s.streamMaxLen != 0 ==> d.streamMaxLen == s.streamMaxLen)
            && (s.poolSize != 0 ==> d.poolSize == s.poolSize)
            && (s.bufferSize != 0 ==> d.bufferSize == s.bufferSize)
            && (s.queueDepth != 0 ==> d.queueDepth == s.queueDepth)
            && (s.ingestMaxLen != 0 ==> d.ingestMaxLen == s.ingestMaxLen)
            && (s.profile.Small? || s.profile.Medium? || s.profile.Large? ==>
                  d.memLimit != 0 && d.streamMaxLen != 0 && d.poolSize != 0 && d.bufferSize != 0 && d.queueDepth != 0)
  {
  }

  /** When shedding is on and the operator left the stream cap unset, the cap is twice the high
      watermark and the monitor's band is a real one unless the percentage is 100. */
  lemma DerivedCapIsTwiceHigh(s: Settings)
    requires !s.profile.Unknown? && 0 <= s.lowWaterPct <= 100
    requires s.ingestMaxLen == 0
    requires var d := WithDefaults(s); d.queueDepth > 0 && FitsInt64(d.queueDepth * 100)
    ensures var d := WithDefaults(s);
            && d.ingestMaxLen == 2 * d.queueDepth
            && 0 <= Monitor.LowWater(d.queueDepth, d.lowWaterPct) <= d.queueDepth
            && (Monitor.LowWater(d.queueDepth, d.lowWaterPct) < d.queueDepth <==> d.lowWaterPct < 100)
  {
    var d := WithDefaults(s);
    Monitor.LowWaterIsPercentage(d.queueDepth, d.lowWaterPct);
  }
}
