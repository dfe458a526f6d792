/** Message processing of go-api/internal/service/processor.go: envelope extraction, the
    idempotency gate, the retry loop and the dead-letter dispatch. */
module Processor {
  import opened Common
  import opened Backoff
  import opened Queue

  datatype Envelope = Envelope(eventID: GoString, tenantID: GoString, payload: GoString)

  datatype ExtractError = Missing(field: string) | BadType(field: string)

  function StringField(values: Values, key: string): Result<GoString, ExtractError> {
    if key !in values then Err(Missing(key))
    else match values[key] case Str(s) => Ok(s) case _ => Err(BadType(key))
  }

  function PayloadBytes(values: Values, key: string): Result<GoString, ExtractError> {
    if key !in values then Err(Missing(key))
    else match values[key] case Str(s) => Ok(s) case Raw(b) => Ok(b) case Other => Err(BadType(key))
  }

  function ExtractEnvelope(values: Values): Result<Envelope, ExtractError> {
    match StringField(values, TENANT_ID)
    case Err(e) => Err(e)
    case Ok(tenantID) =>
      match StringField(values, EVENT_ID)
      case Err(e) => Err(e)
      case Ok(eventID) =>
        match PayloadBytes(values, PAYLOAD)
        case Err(e) => Err(e)
        case Ok(payload) => Ok(Envelope(eventID, tenantID, payload))
  }

  /** What Publish writes, and what the dead-letter queue stores, extract back to the same envelope. */
  lemma EnvelopeRoundTrip(env: Envelope, err: Option<GoString>)
    ensures ExtractEnvelope(PublishValues(env.tenantID, env.eventID, env.payload)) == Ok(env)
    ensures ExtractEnvelope(DlqValues(env.tenantID, env.eventID, env.payload, err)) == Ok(env)
  {
  }

  /** Extraction succeeds exactly on entries whose ids are strings and whose payload is a string or
      bytes, and then any change to a field changes the envelope. */
  lemma ExtractEnvelopeExact(values: Values, env: Envelope)
    ensures ExtractEnvelope(values) == Ok(env) <==>
            && TENANT_ID in values && values[TENANT_ID] == Str(env.tenantID)
            && EVENT_ID in values && values[EVENT_ID] == Str(env.eventID)
            && PAYLOAD in values && (values[PAYLOAD] == Str(env.payload) || values[PAYLOAD] == Raw(env.payload))
  {
  }

  function TenantStreamKey(tenantID: GoString, prefix: GoString): GoString { prefix + tenantID }

  lemma TenantStreamKeyInjective(a: GoString, b: GoString, prefix: GoString)
    requires TenantStreamKey(a, prefix) == TenantStreamKey(b, prefix)
    ensures a == b
  {
    assert a == TenantStreamKey(a, prefix)[|prefix|..];
    assert b == TenantStreamKey(b, prefix)[|prefix|..];
  }

  // ---- the part of Redis that processing touches ----

  datatype Expiry = Never | At(t: int)

  datatype Target = Tenant(key: GoString) | Dlq

  /** One entry appended to a tenant stream or to the dead-letter stream. */
  datatype Append = Append(target: Target, values: Values)

  /** now is in nanoseconds; locks is keyed by event id (the Redis key is a constant prefix and that
      id); appends lists every append to a tenant or dead-letter stream, oldest first. */
  datatype Store = Store(now: int, locks: map<GoString, Expiry>, appends: seq<Append>)

  /** ttl is in seconds and zero means that the lock never expires.  parse is what uuid.Parse makes of a
      text: the canonical text of the id, if it is one. */
  datatype Cfg = Cfg(
    ttl: int, maxRetries: int, baseMs: int, count: int, inCap: int, prefix: GoString,
    parse: GoString -> Option<GoString>)

  const NS_PER_S: int := 1_000_000_000

  function Later(st: Store, dt: nat): Store { st.(now := st.now + dt) }

  predicate Locked(st: Store, id: GoString) {
    id in st.locks && (st.locks[id].Never? || st.now < st.locks[id].t)
  }

  function ExpiryFrom(c: Cfg, now: int): Expiry { if c.ttl == 0 then Never else At(now + c.ttl * NS_PER_S) }

  /** How SET NX is answered: directly, or after the reply of a call that took effect was lost and the
      client library sent the command again, which then finds the lock taken. */
  datatype Answer = Direct(reply: Reply) | Resent

  /** Redis refuses a negative expiry. */
  function GateReply(c: Cfg, a: Answer): Reply {
    var reply := if a.Direct? then a.reply else Done;
    if c.ttl < 0 then Failed(if reply.Done? then Ascii("invalid expire time") else reply.error) else reply
  }

  /** SET NX with the expiry. */
  function SetNX(c: Cfg, st: Store, id: GoString, a: Answer): Store {
    if GateReply(c, a).Applied() && !Locked(st, id)
    then st.(locks := st.locks[id := ExpiryFrom(c, st.now)])
    else st
  }

  /** The caller is told that it has the lock. */
  predicate Acquires(c: Cfg, st: Store, id: GoString, a: Answer) {
    GateReply(c, a).Done? && a.Direct? && !Locked(st, id)
  }

  const PARSE_ERROR: GoString := Ascii("parse tenant_id")

  /** The handler fails before any Redis call when the tenant id does not parse. */
  function HandlerReply(c: Cfg, env: Envelope, reply: Reply): Reply {
    if c.parse(env.tenantID).Some? then reply else Failed(PARSE_ERROR)
  }

  function Canonical(c: Cfg, env: Envelope): GoString {
    match c.parse(env.tenantID) case Some(t) => t case None => env.tenantID
  }

  function TenantAppend(c: Cfg, env: Envelope): Append {
    Append(Tenant(TenantStreamKey(Canonical(c, env), c.prefix)), map[PAYLOAD := Str(env.payload)])
  }

  function DlqAppend(env: Envelope, err: Option<GoString>): Append {
    Append(Dlq, DlqValues(env.tenantID, env.eventID, env.payload, err))
  }

  function Add(st: Store, a: Append, reply: Reply): Store {
    if reply.Applied() then st.(appends := st.appends + [a]) else st
  }

  function Handled(c: Cfg, st: Store, env: Envelope, reply: Reply): Store {
    Add(st, TenantAppend(c, env), HandlerReply(c, env, reply))
  }

  /** How ProcessMessage returned.  The first three are its nil returns. */
  datatype Ret = Delivered | DeadLettered | Duplicate | Malformed | GateFailed | Cancelled | DlqFailed
  {
    predicate IsNil() { Delivered? || DeadLettered? || Duplicate? }
  }

  /** The replies of one call of ProcessMessage: the gate, each handler call with its duration,
      whether the context is cancelled in the sleep after an attempt, and the dead-letter append. */
  datatype Script = Script(
    gate: Answer, calls: nat -> Reply, took: nat -> nat, cancelled: nat -> bool, dlq: Reply)

  datatype Processed = Processed(store: Store, ret: Ret, calls: nat, slept: nat)

  function Dispatch(st: Store, env: Envelope, err: Option<GoString>, sc: Script): Processed {
    Processed(Add(st, DlqAppend(env, err), sc.dlq), if sc.dlq.Done? then DeadLettered else DlqFailed, 0, 0)
  }

  /** The loop from one attempt on. */
  function Retry(c: Cfg, st: Store, env: Envelope, attempt: nat, lastErr: Option<GoString>, sc: Script): Processed
    requires attempt >= 1
    decreases Max(0, c.maxRetries + 1 - attempt)
  {
    if attempt > c.maxRetries then Dispatch(st, env, lastErr, sc)
    else
      var reply := HandlerReply(c, env, sc.calls(attempt));
      var st' := Handled(c, Later(st, sc.took(attempt)), env, sc.calls(attempt));
      if reply.Done? then Processed(st', Delivered, 1, 0)
      else if attempt == c.maxRetries then
        var r := Retry(c, st', env, attempt + 1, Some(reply.error), sc);
        r.(calls := r.calls + 1)
      else if sc.cancelled(attempt) then Processed(st', Cancelled, 1, 0)
      else
        var pause := SleepNs(c.baseMs, attempt);
        var r := Retry(c, Later(st', pause), env, attempt + 1, Some(reply.error), sc);
        r.(calls := r.calls + 1, slept := r.slept + pause)
  }

  function Plus(r: Processed, calls: nat, slept: nat): Processed {
    r.(calls := r.calls + calls, slept := r.slept + slept)
  }

  function Process(c: Cfg, st: Store, msg: Values, sc: Script): Processed {
    match ExtractEnvelope(msg)
    case Err(_) => Processed(st, Malformed, 0, 0)
    case Ok(env) =>
      var st' := SetNX(c, st, env.eventID, sc.gate);
      if !GateReply(c, sc.gate).Done? then Processed(st', GateFailed, 0, 0)
      else if !Acquires(c, st, env.eventID, sc.gate) then Processed(st', Duplicate, 0, 0)
      else Retry(c, st', env, 1, None, sc)
  }

  class Redis {
    var now: int
    var locks: map<GoString, Expiry>
    var appends: seq<Append>

    ghost function View(): Store
      reads this
    {
      Store(now, locks, appends)
    }

    constructor ()
      ensures View() == Store(0, map[], [])
    {
      now, locks, appends := 0, map[], [];
    }

    method Wait(dt: nat)
      modifies this
      ensures View() == Later(old(View()), dt)
    {
      now := now + dt;
    }

    method XAdd(a: Append, reply: Reply) returns (r: Result<(), GoString>)
      modifies this
      ensures View() == Add(old(View()), a, reply)
      ensures r == if reply.Done? then Ok(()) else Err(reply.error)
    {
      if !reply.Failed? {
        appends := appends + [a];
      }
      return if reply.Done? then Ok(()) else Err(reply.error);
    }

    method AcquireIdempotencyLock(c: Cfg, eventID: GoString, a: Answer) returns (r: Result<bool, GoString>)
      modifies this
      ensures View() == SetNX(c, old(View()), eventID, a)
      ensures var g := GateReply(c, a);
              r == if g.Done? then Ok(Acquires(c, old(View()), eventID, a)) else Err(g.error)
      ensures now == old(now) && appends == old(appends)
      ensures var free := !(eventID in old(locks) && (old(locks)[eventID].Never? || old(now) < old(locks)[eventID].t));
              var expiry := if c.ttl == 0 then Never else At(old(now) + c.ttl * 1_000_000_000);
              && (r == Ok(true) <==> c.ttl >= 0 && a == Direct(Done) && free)
              && (r == Ok(false) <==> c.ttl >= 0 && (a == Resent || (a == Direct(Done) && !free)))
              && (a.Direct? && !a.reply.Done? ==> r == Err(a.reply.error))
              && locks == if c.ttl >= 0 && free && !(a.Direct? && a.reply.Failed?)
                          then old(locks)[eventID := expiry] else old(locks)
    {
      var g := GateReply(c, a);
      var held := eventID in locks && (locks[eventID].Never? || now < locks[eventID].t);
      if !g.Failed? && !held {
        locks := locks[eventID := ExpiryFrom(c, now)];
      }
      return if g.Done? then Ok(!held && a.Direct?) else Err(g.error);
    }

    /** The handler that MakeRedisStreamsHandler builds. */
    method Handler(c: Cfg, env: Envelope, reply: Reply) returns (r: Result<(), GoString>)
      modifies this
      ensures View() == Handled(c, old(View()), env, reply)
      ensures var h := HandlerReply(c, env, reply);
              r == if h.Done? then Ok(()) else Err(h.error)
      ensures now == old(now) && locks == old(locks)
      ensures match c.parse(env.tenantID)
              case None => r == Err(PARSE_ERROR) && appends == old(appends)
              case Some(t) =>
                && r == (if reply.Done? then Ok(()) else Err(reply.error))
                && appends == if reply.Failed? then old(appends)
                              else old(appends) + [Append(Tenant(c.prefix + t), map["payload" := Str(env.payload)])]
    {
      if c.parse(env.tenantID).None? {
        return Err(PARSE_ERROR);
      }
      r := XAdd(TenantAppend(c, env), reply);
    }

    /** One handler call, which takes its time. */
    method Attempt(c: Cfg, env: Envelope, sc: Script, attempt: nat) returns (r: Result<(), GoString>)
      modifies this
      ensures View() == Handled(c, Later(old(View()), sc.took(attempt)), env, sc.calls(attempt))
      ensures var h := HandlerReply(c, env, sc.calls(attempt));
              r == if h.Done? then Ok(()) else Err(h.error)
    {
      Wait(sc.took(attempt));
      r := Handler(c, env, sc.calls(attempt));
    }

    method ProcessMessage(c: Cfg, msg: Values, sc: Script) returns (ret: Ret, calls: nat, slept: nat)
      modifies this
      ensures Processed(View(), ret, calls, slept) == Process(c, old(View()), msg, sc)
    {
      calls, slept := 0, 0;
      var extracted := ExtractEnvelope(msg);
      if extracted.Err? {
        return Malformed, calls, slept;
      }
      var env := extracted.value;
      var acquired := AcquireIdempotencyLock(c, env.eventID, sc.gate);
      if acquired.Err? {
        return GateFailed, calls, slept;
      }
      if !acquired.value {
        return Duplicate, calls, slept;
      }
      ret, calls, slept := RetryOrDeadLetter(c, env, sc);
    }

    /** The loop of ProcessMessage and the dispatch after it. */
    method RetryOrDeadLetter(c: Cfg, env: Envelope, sc: Script) returns (ret: Ret, calls: nat, slept: nat)
      modifies this
      ensures Processed(View(), ret, calls, slept) == Retry(c, old(View()), env, 1, None, sc)
    {
      calls, slept := 0, 0;
      ghost var result := Retry(c, View(), env, 1, None, sc);
      var lastErr: Option<GoString> := None;
      var attempt: nat := 1;
      while attempt <= c.maxRetries
        invariant 1 <= attempt && attempt <= Max(0, c.maxRetries) + 1
        invariant Plus(Retry(c, View(), env, attempt, lastErr, sc), calls, slept) == result
      {
        var handled := Attempt(c, env, sc, attempt);
        calls := calls + 1;
        if handled.Ok? {
          return Delivered, calls, slept;
        }
        lastErr := Some(handled.error);
        if attempt < c.maxRetries {
          if sc.cancelled(attempt) {
            return Cancelled, calls, slept;
          }
          var pause := SleepNs(c.baseMs, attempt);
          Wait(pause);
          slept := slept + pause;
        }
        attempt := attempt + 1;
      }
      var sent := XAdd(DlqAppend(env, lastErr), sc.dlq);
      return if sent.Ok? then DeadLettered else DlqFailed, calls, slept;
    }
  }

  // ---- what the gate decides ----

  /** The entry has two string ids and a string or byte payload. */
  predicate WellFormed(msg: Values) {
    && "tenant_id" in msg && msg["tenant_id"].Str? && "event_id" in msg && msg["event_id"].Str?
    && "payload" in msg && !msg["payload"].Other?
  }

  function EnvelopeIn(msg: Values): Envelope
    requires WellFormed(msg)
  {
    var payload := msg["payload"];
    Envelope(msg["event_id"].s, msg["tenant_id"].s, if payload.Str? then payload.s else payload.b)
  }

  /** How ProcessMessage starts, by the entry, the lock it meets and the answer of SET NX.  A malformed entry
      and a refused SET NX change nothing; an entry is handled exactly when its id was free and SET NX was
      answered with success at the first try. */
  lemma ProcessStarts(c: Cfg, st: Store, msg: Values, sc: Script)
    ensures var r := Process(c, st, msg, sc);
            if !WellFormed(msg) then r == Processed(st, Malformed, 0, 0)
            else
              var env := EnvelopeIn(msg);
              var id := env.eventID;
              var free := !(id in st.locks && (st.locks[id].Never? || st.now < st.locks[id].t));
              var expiry := if c.ttl == 0 then Never else At(st.now + c.ttl * 1_000_000_000);
              var taken := st.(locks := st.locks[id := expiry]);
              if c.ttl < 0 || (sc.gate.Direct? && sc.gate.reply.Failed?) then r == Processed(st, GateFailed, 0, 0)
              else if sc.gate.Direct? && sc.gate.reply.Ambiguous? then
                r == Processed(if free then taken else st, GateFailed, 0, 0)
              else if !free then r == Processed(st, Duplicate, 0, 0)
              else if sc.gate == Resent then r == Processed(taken, Duplicate, 0, 0)
              else r == Retry(c, taken, env, 1, None, sc)
  {
  }

  // ---- what the retry loop promises ----

  /** The reply of the i-th handler call. */
  function CallReply(c: Cfg, env: Envelope, sc: Script, i: nat): Reply { HandlerReply(c, env, sc.calls(i)) }

  /** The loop stops at its first success, at a cancelled pause, or after exactly maxRetries failures;
      it sleeps after every failed attempt but the last. */
  lemma {:induction false} RetryOutcome(c: Cfg, st: Store, env: Envelope, attempt: nat, lastErr: Option<GoString>,
    sc: Script)
    requires 1 <= attempt <= Max(0, c.maxRetries) + 1
    ensures var r := Retry(c, st, env, attempt, lastErr, sc);
            var last := attempt - 1 + r.calls;
            && last <= Max(0, c.maxRetries)
            && (forall i :: attempt <= i < last ==> !CallReply(c, env, sc, i).Done? && !sc.cancelled(i))
            && (r.ret == Delivered <==> r.calls >= 1 && CallReply(c, env, sc, last).Done?)
            && (r.ret == Cancelled <==>
                  attempt <= last < c.maxRetries && !CallReply(c, env, sc, last).Done? && sc.cancelled(last))
            && (r.ret == DeadLettered || r.ret == DlqFailed || r.ret == Delivered || r.ret == Cancelled)
            && (r.ret == DeadLettered || r.ret == DlqFailed ==>
                last == Max(0, c.maxRetries) && (r.ret == DeadLettered <==> sc.dlq.Done?))
    decreases Max(0, c.maxRetries + 1 - attempt)
  {
    if attempt <= c.maxRetries {
      var reply := HandlerReply(c, env, sc.calls(attempt));
      var st' := Handled(c, Later(st, sc.took(attempt)), env, sc.calls(attempt));
      if !reply.Done? && attempt == c.maxRetries {
        RetryOutcome(c, st', env, attempt + 1, Some(reply.error), sc);
      } else if !reply.Done? && !sc.cancelled(attempt) {
        RetryOutcome(c, Later(st', SleepNs(c.baseMs, attempt)), env, attempt + 1, Some(reply.error), sc);
      }
    }
  }

  /** The pauses after n failed attempts in a row, the first of them numbered attempt. */
  function Pauses(baseMs: int, attempt: nat, n: nat): nat
    requires attempt >= 1
    decreases n
  {
    if n == 0 then 0 else SleepNs(baseMs, attempt) + Pauses(baseMs, attempt + 1, n - 1)
  }

  lemma {:induction false} PausesAreTotal(baseMs: int, attempt: nat, n: nat)
    requires attempt >= 1
    ensures TotalSleepNs(baseMs, attempt - 1) + Pauses(baseMs, attempt, n) == TotalSleepNs(baseMs, attempt - 1 + n)
    decreases n
  {
    if n > 0 {
      PausesAreTotal(baseMs, attempt + 1, n - 1);
    }
  }

  /** There is a pause between calls, and none after the last one. */
  lemma {:induction false} RetrySleeps(c: Cfg, st: Store, env: Envelope, attempt: nat, lastErr: Option<GoString>,
    sc: Script)
    requires 1 <= attempt
    ensures var r := Retry(c, st, env, attempt, lastErr, sc);
            && (r.calls == 0 <==> attempt > c.maxRetries)
            && r.slept == Pauses(c.baseMs, attempt, Max(0, r.calls - 1))
    decreases Max(0, c.maxRetries + 1 - attempt)
  {
    if attempt <= c.maxRetries {
      var reply := HandlerReply(c, env, sc.calls(attempt));
      var st' := Handled(c, Later(st, sc.took(attempt)), env, sc.calls(attempt));
      if !reply.Done? && attempt == c.maxRetries {
        RetrySleeps(c, st', env, attempt + 1, Some(reply.error), sc);
      } else if !reply.Done? && !sc.cancelled(attempt) {
        RetrySleeps(c, Later(st', SleepNs(c.baseMs, attempt)), env, attempt + 1, Some(reply.error), sc);
      }
    }
  }

  lemma PausesClosedForm(baseMs: int, n: nat)
    requires baseMs >= 0
    requires n >= 1 ==> baseMs * Pow2(n - 1) * NS_PER_MS < TWO63
    ensures Pauses(baseMs, 1, n) == baseMs * (Pow2(n) - 1) * NS_PER_MS
  {
    PausesAreTotal(baseMs, 1, n);
    TotalSleepClosedForm(baseMs, n);
  }

  /** A dead-lettered event slept base * (2^(max-1) - 1) ms in all, and after max attempts. */
  lemma DeadLetterSleep(c: Cfg, st: Store, env: Envelope, sc: Script)
    requires c.baseMs >= 0
    requires c.maxRetries >= 2 ==> c.baseMs * Pow2(c.maxRetries - 2) * NS_PER_MS < TWO63
    ensures var r := Retry(c, st, env, 1, None, sc);
            r.ret == DeadLettered || r.ret == DlqFailed ==>
              && r.calls == Max(0, c.maxRetries)
              && r.slept == if c.maxRetries <= 1 then 0 else c.baseMs * (Pow2(c.maxRetries - 1) - 1) * NS_PER_MS
  {
    RetryOutcome(c, st, env, 1, None, sc);
    RetrySleeps(c, st, env, 1, None, sc);
    if c.maxRetries >= 2 {
      PausesClosedForm(c.baseMs, c.maxRetries - 1);
    }
  }

  /** The appends of the calls from one attempt up to another, in order: one tenant entry for each
      call whose append took effect. */
  function CallAppends(c: Cfg, env: Envelope, sc: Script, from: nat, to: nat): seq<Append>
    decreases to - from
  {
    if from >= to then []
    else
      (if CallReply(c, env, sc, from).Applied() then [TenantAppend(c, env)] else []) +
      CallAppends(c, env, sc, from + 1, to)
  }

  /** The error the dead letter carries: that of the last attempt. */
  function FinalError(c: Cfg, env: Envelope, sc: Script, attempt: nat, lastErr: Option<GoString>): Option<GoString> {
    if attempt > c.maxRetries then lastErr
    else match CallReply(c, env, sc, c.maxRetries)
         case Done => None
         case Failed(e) => Some(e)
         case Ambiguous(e) => Some(e)
  }

  /** Everything one loop appends: its calls' entries, and then the dead letter if it got that far. */
  lemma {:induction false} RetryAppends(c: Cfg, st: Store, env: Envelope, attempt: nat, lastErr: Option<GoString>,
    sc: Script)
    requires 1 <= attempt <= Max(0, c.maxRetries) + 1
    ensures var r := Retry(c, st, env, attempt, lastErr, sc);
            r.store.appends == st.appends + CallAppends(c, env, sc, attempt, attempt + r.calls) +
              (if (r.ret == DeadLettered || r.ret == DlqFailed) && sc.dlq.Applied()
               then [DlqAppend(env, FinalError(c, env, sc, attempt, lastErr))] else [])
    decreases Max(0, c.maxRetries + 1 - attempt)
  {
    if attempt <= c.maxRetries {
      var reply := HandlerReply(c, env, sc.calls(attempt));
      var st' := Handled(c, Later(st, sc.took(attempt)), env, sc.calls(attempt));
      var one := if reply.Applied() then [TenantAppend(c, env)] else [];
      assert st'.appends == st.appends + one;
      var r := Retry(c, st, env, attempt, lastErr, sc);
      var rest := CallAppends(c, env, sc, attempt + 1, attempt + r.calls);
      assert CallAppends(c, env, sc, attempt, attempt + r.calls) == one + rest;
      assert st'.appends + rest == st.appends + (one + rest);
      if !(reply.Done? || (attempt < c.maxRetries && sc.cancelled(attempt))) {
        var next := if attempt == c.maxRetries then st' else Later(st', SleepNs(c.baseMs, attempt));
        RetryAppends(c, next, env, attempt + 1, Some(reply.error), sc);
      }
    }
  }

  /** The fields of a dead letter. */
  function DeadLetter(env: Envelope, err: Option<GoString>): Values {
    var v := map["tenant_id" := Str(env.tenantID), "event_id" := Str(env.eventID), "payload" := Str(env.payload)];
    if err.None? then v else v["x_original_error" := Str(err.value)]
  }

  /** Why a handler call fails: the tenant id does not parse, or what the append reports. */
  function CallError(c: Cfg, env: Envelope, reply: Reply): Option<GoString> {
    if c.parse(env.tenantID).None? then Some(PARSE_ERROR)
    else match reply
         case Done => None
         case Failed(e) => Some(e)
         case Ambiguous(e) => Some(e)
  }

  /** A loop that reaches the dead-letter append adds, last of all, the entry's envelope with the error of the
      last call, which failed; without calls there is no error field. */
  lemma {:induction false} RetryDeadLetter(c: Cfg, st: Store, env: Envelope, attempt: nat, lastErr: Option<GoString>,
    sc: Script)
    requires 1 <= attempt <= Max(0, c.maxRetries) + 1
    requires attempt > 1 ==> lastErr == CallError(c, env, sc.calls(attempt - 1)) && lastErr.Some?
    requires attempt == 1 ==> lastErr == None
    ensures var r := Retry(c, st, env, attempt, lastErr, sc);
            (r.ret == DeadLettered || r.ret == DlqFailed) && !sc.dlq.Failed? ==>
              var err := if c.maxRetries >= 1 then CallError(c, env, sc.calls(c.maxRetries)) else None;
              && r.store.appends != [] && (c.maxRetries >= 1 ==> err.Some?)
              && r.store.appends[|r.store.appends| - 1] == Append(Dlq, DeadLetter(env, err))
    decreases Max(0, c.maxRetries + 1 - attempt)
  {
    if attempt <= c.maxRetries {
      var reply := HandlerReply(c, env, sc.calls(attempt));
      if !(reply.Done? || (attempt < c.maxRetries && sc.cancelled(attempt))) {
        var st' := Handled(c, Later(st, sc.took(attempt)), env, sc.calls(attempt));
        var next := if attempt == c.maxRetries then st' else Later(st', SleepNs(c.baseMs, attempt));
        RetryDeadLetter(c, next, env, attempt + 1, Some(reply.error), sc);
      }
    }
  }
}
