/** Ingestion of go-api/internal/handler/webhooks.go: the guards of IngestWebhook, in order, and the publish. */
module Webhooks {
  import opened Common
  import opened Queue
  import opened Monitor
  import opened Processor

  /** The UTF-8 text of one white-space rune: the ASCII ones, U+0085, U+00A0, U+1680, U+2000 to U+200A,
      U+2028, U+2029, U+202F, U+205F and U+3000. */
  predicate IsSpace(t: GoString) {
    if |t| == 1 then t[0] == 32 || 9 <= t[0] <= 13
    else if |t| == 2 then t[0] == 0xC2 && (t[1] == 0x85 || t[1] == 0xA0)
    else if |t| == 3 then
      || (t[0] == 0xE1 && t[1] == 0x9A && t[2] == 0x80)
      || (t[0] == 0xE2 && t[1] == 0x80 && (0x80 <= t[2] <= 0x8A || t[2] == 0xA8 || t[2] == 0xA9 || t[2] == 0xAF))
      || (t[0] == 0xE2 && t[1] == 0x81 && t[2] == 0x9F)
      || (t[0] == 0xE3 && t[1] == 0x80 && t[2] == 0x80)
    else false
  }

  /** The code points that Unicode calls white space. */
  predicate WhiteSpace(cp: int) {
    || 0x09 <= cp <= 0x0D || cp == 0x20 || cp == 0x85 || cp == 0xA0 || cp == 0x1680 || 0x2000 <= cp <= 0x200A
    || cp == 0x2028 || cp == 0x2029 || cp == 0x202F || cp == 0x205F || cp == 0x3000
  }

  /** UTF-8 of a code point below 0x10000. */
  function Utf8(cp: int): GoString
    requires 0 <= cp < 0x10000
  {
    if cp < 0x80 then [cp as byte]
    else if cp < 0x800 then [(0xC0 + cp / 64) as byte, (0x80 + cp % 64) as byte]
    else [(0xE0 + cp / 4096) as byte, (0x80 + cp / 64 % 64) as byte, (0x80 + cp % 64) as byte]
  }

  /** The code point that a text of one to three bytes would stand for. */
  function CodePoint(t: GoString): int {
    if |t| == 1 then t[0] as int
    else if |t| == 2 then (t[0] as int - 0xC0) * 64 + (t[1] as int - 0x80)
    else if |t| == 3 then (t[0] as int - 0xE0) * 4096 + (t[1] as int - 0x80) * 64 + (t[2] as int - 0x80)
    else -1
  }

  lemma IsSpaceIsUtf8(t: GoString)
    ensures IsSpace(t) <==> exists cp :: 0 <= cp < 0x10000 && WhiteSpace(cp) && t == Utf8(cp)
  {
    if IsSpace(t) {
      var cp := CodePoint(t);
      assert WhiteSpace(cp) && t == Utf8(cp);
    }
    if cp :| 0 <= cp < 0x10000 && WhiteSpace(cp) && t == Utf8(cp) {
      SpaceEncoded(cp);
    }
  }

  lemma SpaceEncoded(cp: int)
    requires 0 <= cp < 0x10000 && WhiteSpace(cp)
    ensures IsSpace(Utf8(cp))
  {
  }

  /** The size of the white-space rune at the front of the text, or zero. */
  function FrontSpace(s: GoString): (n: nat)
    ensures n <= |s| && (n > 0 ==> IsSpace(s[..n]))
  {
    if |s| >= 1 && IsSpace(s[..1]) then 1
    else if |s| >= 2 && IsSpace(s[..2]) then 2
    else if |s| >= 3 && IsSpace(s[..3]) then 3
    else 0
  }

  /** The same at the back. */
  function BackSpace(s: GoString): (n: nat)
    ensures n <= |s| && (n > 0 ==> IsSpace(s[|s| - n..]))
  {
    if |s| >= 1 && IsSpace(s[|s| - 1..]) then 1
    else if |s| >= 2 && IsSpace(s[|s| - 2..]) then 2
    else if |s| >= 3 && IsSpace(s[|s| - 3..]) then 3
    else 0
  }

  /** strings.TrimSpace. */
  function TrimSpace(s: GoString): GoString
    decreases |s|
  {
    if FrontSpace(s) > 0 then TrimSpace(s[FrontSpace(s)..])
    else if BackSpace(s) > 0 then TrimSpace(s[..|s| - BackSpace(s)])
    else s
  }

  /** White-space runes, one after the other. */
  predicate AllSpace(s: GoString)
    decreases |s|
  {
    s == [] || (FrontSpace(s) > 0 && AllSpace(s[FrontSpace(s)..]))
  }

  /** What a text starts with does not depend on what follows it. */
  lemma FrontOfSum(a: GoString, b: GoString)
    requires FrontSpace(a) > 0
    ensures FrontSpace(a + b) == FrontSpace(a)
  {
    assert forall n :: 0 <= n <= |a| ==> (a + b)[..n] == a[..n];
  }

  lemma FrontOfPrefix(s: GoString, n: nat)
    requires n <= |s| && FrontSpace(s) == 0
    ensures FrontSpace(s[..n]) == 0
  {
    assert s[..n] + s[n..] == s;
    if FrontSpace(s[..n]) > 0 {
      FrontOfSum(s[..n], s[n..]);
    }
  }

  lemma MoreSpace(s: GoString, n: nat)
    requires n <= |s| && FrontSpace(s) == n > 0 && AllSpace(s[n..])
    ensures AllSpace(s)
  {
  }

  lemma {:induction false} AllSpaceSnoc(a: GoString, t: GoString)
    requires AllSpace(a) && IsSpace(t)
    ensures AllSpace(a + t)
    decreases |a|
  {
    if a == [] {
      assert a + t == t;
      OneSpace(t);
    } else {
      var n := FrontSpace(a);
      AllSpaceSnoc(a[n..], t);
      FrontOfSum(a, t);
      assert (a + t)[n..] == a[n..] + t;
      MoreSpace(a + t, n);
    }
  }

  lemma OneSpace(t: GoString)
    requires IsSpace(t)
    ensures FrontSpace(t) == |t| && AllSpace(t)
  {
    assert t[..|t|] == t && t[|t|..] == [];
    if |t| == 2 {
      assert t[..1][0] == t[0];
    } else if |t| == 3 {
      assert t[..1][0] == t[0] && t[..2][0] == t[0] && t[..2][1] == t[1];
    }
  }

  lemma AllSpaceCons(t: GoString, a: GoString)
    requires IsSpace(t) && AllSpace(a)
    ensures AllSpace(t + a)
  {
    OneSpace(t);
    FrontOfSum(t, a);
    assert (t + a)[|t|..] == a;
  }

  /** Trimming takes white space off both ends and nothing else. */
  lemma {:induction false} TrimSpaceTakesSpace(s: GoString) returns (left: GoString, right: GoString)
    ensures s == left + TrimSpace(s) + right && AllSpace(left) && AllSpace(right)
    decreases |s|
  {
    left, right := [], [];
    var n, m := FrontSpace(s), BackSpace(s);
    if n > 0 {
      var l;
      l, right := TrimSpaceTakesSpace(s[n..]);
      AllSpaceCons(s[..n], l);
      left := s[..n] + l;
      FrontRejoins(s, n, l, TrimSpace(s[n..]), right);
    } else if m > 0 {
      var k, r := |s| - m, right;
      left, r := TrimSpaceTakesSpace(s[..k]);
      AllSpaceSnoc(r, s[k..]);
      right := r + s[k..];
      BackRejoins(s, k, left, TrimSpace(s[..k]), r);
    }
  }

  lemma FrontRejoins(s: GoString, n: nat, left: GoString, mid: GoString, right: GoString)
    requires n <= |s| && s[n..] == left + mid + right
    ensures s == s[..n] + left + mid + right
  {
    assert s == s[..n] + s[n..];
  }

  lemma BackRejoins(s: GoString, k: nat, left: GoString, mid: GoString, right: GoString)
    requires k <= |s| && s[..k] == left + mid + right
    ensures s == left + mid + (right + s[k..])
  {
    assert s == s[..k] + s[k..];
  }

  lemma TrimFront(s: GoString)
    requires FrontSpace(s) > 0
    ensures TrimSpace(s) == TrimSpace(s[FrontSpace(s)..])
    ensures AllSpace(s) <==> AllSpace(s[FrontSpace(s)..])
  {
  }

  lemma TrimBack(s: GoString)
    requires FrontSpace(s) == 0 && BackSpace(s) > 0
    ensures var rest := s[..|s| - BackSpace(s)];
            TrimSpace(s) == TrimSpace(rest) && !AllSpace(s) && !AllSpace(rest)
  {
    var n := |s| - BackSpace(s);
    FrontOfPrefix(s, n);
    if n == 0 {
      assert s[n..] == s;
      OneSpace(s);
    }
  }

  /** None is left at either end, and only white space trims to nothing. */
  lemma {:induction false} TrimSpaceTakesAll(s: GoString)
    ensures FrontSpace(TrimSpace(s)) == 0 && BackSpace(TrimSpace(s)) == 0
    ensures TrimSpace(s) == [] <==> AllSpace(s)
    decreases |s|
  {
    if FrontSpace(s) > 0 {
      TrimFront(s);
      TrimSpaceTakesAll(s[FrontSpace(s)..]);
    } else if BackSpace(s) > 0 {
      TrimBack(s);
      TrimSpaceTakesAll(s[..|s| - BackSpace(s)]);
    }
  }

  /** A request as the middleware hands it over: no tenant if unauthenticated, no body if unreadable. */
  datatype Request = Request(tenant: Option<GoString>, eventHeader: GoString, body: Option<GoString>)

  datatype Status = Unauthenticated401 | TooManyRequests429 | BadRequest400 | InternalError500 | Accepted202

  function EnvelopeOf(r: Request): Envelope
    requires r.tenant.Some? && r.body.Some?
  {
    Envelope(TrimSpace(r.eventHeader), r.tenant.value, r.body.value)
  }

  /** The guards before the publish, in order: authentication, load shedding, the event id, the body. */
  method Guards(shedder: QueueDepthMonitor?, r: Request) returns (refusal: Option<Status>)
    requires shedder != null ==> shedder.Valid()
    ensures var shed := shedder != null && shedder.highWater > 0 &&
                        FlagAfter(Thresholds(shedder.highWater, shedder.lowWater), shedder.samples);
            refusal ==
            if r.tenant.None? then Some(Unauthenticated401)
            else if shed then Some(TooManyRequests429)
            else if AllSpace(r.eventHeader) || r.body.None? then Some(BadRequest400)
            else None
  {
    if r.tenant.None? {
      return Some(Unauthenticated401);
    }
    if shedder != null {
      var shed := shedder.ShouldShed();
      if shed {
        return Some(TooManyRequests429);
      }
    }
    TrimSpaceTakesAll(r.eventHeader);
    if TrimSpace(r.eventHeader) == [] || r.body.None? {
      return Some(BadRequest400);
    }
    return None;
  }

  /** An authenticated request is shed before anything else is looked at; only requests that pass every guard
      reach the stream, and what they add has the tenant, the trimmed event id and the exact body. */
  method IngestWebhook(stream: IngestStream, shedder: QueueDepthMonitor?, r: Request, maxLen: int, trimmedTo: nat,
    reply: Reply)
    returns (status: Status)
    requires stream.View().Valid() && (shedder != null ==> shedder.Valid())
    requires r.tenant.Some? && r.body.Some? ==>
               var env := EnvelopeOf(r);
               var entry := PublishValues(env.tenantID, env.eventID, env.payload);
               MayTrim(Appended(stream.View(), entry), maxLen, trimmedTo)
    modifies stream
    ensures stream.View().Valid()
    ensures var shed := shedder != null && shedder.highWater > 0 &&
                        FlagAfter(Thresholds(shedder.highWater, shedder.lowWater), shedder.samples);
            status ==
            if r.tenant.None? then Unauthenticated401
            else if shed then TooManyRequests429
            else if AllSpace(r.eventHeader) || r.body.None? then BadRequest400
            else if reply.Done? then Accepted202 else InternalError500
    ensures if (status != Accepted202 && status != InternalError500) || reply.Failed? then
              stream.View() == old(stream.View())
            else
              && r.tenant.Some? && r.body.Some?
              && var entry := map["tenant_id" := Str(r.tenant.value), "event_id" := Str(TrimSpace(r.eventHeader)),
                                  "payload" := Str(r.body.value)];
                 && stream.log == old(stream.log) + [entry] && ExtractEnvelope(entry) == Ok(EnvelopeOf(r))
                 && stream.View() == Seen(TrimTo(Appended(old(stream.View()), entry), trimmedTo), stream.grouped)
  {
    var refusal := Guards(shedder, r);
    if refusal.Some? {
      return refusal.value;
    }
    EnvelopeRoundTrip(EnvelopeOf(r), None);
    var id := stream.Publish(r.tenant.value, TrimSpace(r.eventHeader), r.body.value, maxLen, trimmedTo, reply);
    return if id.Ok? then Accepted202 else InternalError500;
  }
}
