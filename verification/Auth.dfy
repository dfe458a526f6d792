/** Bearer authentication of go-api/internal/middleware/auth.go: a session cache in front of the bcrypt
    check, with the cryptography left as uninterpreted functions. */
module Auth {
  import opened Common

  /** verify is the bcrypt comparison and short the truncated SHA-256 of a secret. */
  datatype Crypto = Crypto(verify: (GoString, GoString) -> bool, short: GoString -> GoString)

  /** Stored hashes by tenant, and the live session keys: a tenant and a short hash each. */
  datatype Keys = Keys(hashes: map<GoString, GoString>, sessions: set<(GoString, GoString)>)

  /** Whether EXISTS, GET and SET on this request reach Redis. */
  datatype Io = Io(existsOk: bool, getOk: bool, set_: Reply)

  datatype Verdict = Accepted | UnknownTenant | InternalError | InvalidCredentials

  function Uncached(k: Crypto, s: Keys, tenant: GoString, secret: GoString): Verdict {
    if tenant !in s.hashes then UnknownTenant
    else if k.verify(secret, s.hashes[tenant]) then Accepted else InvalidCredentials
  }

  function SessionHit(k: Crypto, s: Keys, tenant: GoString, secret: GoString, io: Io): bool {
    io.existsOk && (tenant, k.short(secret)) in s.sessions
  }

  function Bearer(k: Crypto, s: Keys, tenant: GoString, secret: GoString, io: Io): Verdict {
    if SessionHit(k, s, tenant, secret, io) then Accepted
    else if !io.getOk then InternalError
    else Uncached(k, s, tenant, secret)
  }

  function AfterBearer(k: Crypto, s: Keys, tenant: GoString, secret: GoString, io: Io): Keys {
    if !SessionHit(k, s, tenant, secret, io) && Bearer(k, s, tenant, secret, io).Accepted? && io.set_.Applied()
    then s.(sessions := s.sessions + {(tenant, k.short(secret))})
    else s
  }

  class CredentialStore {
    var hashes: map<GoString, GoString>
    var sessions: set<(GoString, GoString)>

    ghost function View(): Keys
      reads this
    {
      Keys(hashes, sessions)
    }

    constructor ()
      ensures View() == Keys(map[], {})
    {
      hashes, sessions := map[], {};
    }

    method AuthenticateViaBearer(k: Crypto, tenant: GoString, secret: GoString, io: Io) returns (v: Verdict)
      modifies this`sessions
      ensures v == Bearer(k, old(View()), tenant, secret, io)
      ensures View() == AfterBearer(k, old(View()), tenant, secret, io)
      ensures var key := (tenant, k.short(secret));
              var hit := io.existsOk && key in old(sessions);
              var verified := tenant in hashes && k.verify(secret, hashes[tenant]);
              && (hit ==> v == Accepted)
              && (!hit && !io.getOk ==> v == InternalError)
              && (!hit && io.getOk ==>
                    && (v == Accepted <==> verified)
                    && (v == UnknownTenant <==> tenant !in hashes)
                    && (v == InvalidCredentials <==> tenant in hashes && !verified))
              && sessions == if !hit && io.getOk && verified && !io.set_.Failed? then old(sessions) + {key}
                             else old(sessions)
    {
      var key := (tenant, k.short(secret));
      if io.existsOk && key in sessions {
        return Accepted;
      }
      if io.getOk && tenant !in hashes {
        return UnknownTenant;
      }
      if !io.getOk {
        return InternalError;
      }
      if !k.verify(secret, hashes[tenant]) {
        return InvalidCredentials;
      }
      if !io.set_.Failed? {
        sessions := sessions + {key};
      }
      return Accepted;
    }
  }

  /** What the uncached check answers. */
  lemma UncachedExact(k: Crypto, s: Keys, tenant: GoString, secret: GoString)
    ensures var v := Uncached(k, s, tenant, secret);
            && (v == Accepted <==> tenant in s.hashes && k.verify(secret, s.hashes[tenant]))
            && (v == UnknownTenant <==> tenant !in s.hashes)
            && (v == InvalidCredentials <==> tenant in s.hashes && !k.verify(secret, s.hashes[tenant]))
  {
  }

  datatype Event =
    | EvCreate(tenant: GoString, hash: GoString)
    | EvRequest(tenant: GoString, secret: GoString, io: Io)
    | EvExpire(key: (GoString, GoString))

  /** A tenant's hash is written once, under a fresh id, and never changed. */
  predicate Enabled(s: Keys, e: Event) { e.EvCreate? ==> e.tenant !in s.hashes }

  function Next(k: Crypto, s: Keys, e: Event): Keys
    requires Enabled(s, e)
  {
    match e
    case EvCreate(t, h) => s.(hashes := s.hashes[t := h])
    case EvRequest(t, secret, io) => AfterBearer(k, s, t, secret, io)
    case EvExpire(key) => s.(sessions := s.sessions - {key})
  }

  function Exec(k: Crypto, es: seq<Event>): Option<Keys> {
    if es == [] then Some(Keys(map[], {}))
    else
      var n := |es| - 1;
      match Exec(k, es[..n])
      case None => None
      case Some(s) => if Enabled(s, es[n]) then Some(Next(k, s, es[n])) else None
  }

  /** A live session was opened by an earlier request whose secret verified and has that short hash. */
  lemma {:induction false} SessionHasOpener(k: Crypto, es: seq<Event>, tenant: GoString, h: GoString) returns (n: nat)
    requires Exec(k, es).Some? && (tenant, h) in Exec(k, es).value.sessions
    ensures n < |es| && es[n].EvRequest? && es[n].tenant == tenant && k.short(es[n].secret) == h
    ensures tenant in Exec(k, es).value.hashes && k.verify(es[n].secret, Exec(k, es).value.hashes[tenant])
  {
    n := |es| - 1;
    var before := Exec(k, es[..n]).value;
    if (tenant, h) in before.sessions {
      n := SessionHasOpener(k, es[..n], tenant, h);
    }
  }

  /** The cache never turns away a secret the bcrypt check accepts; what it accepts beyond that shares its
      short hash with a secret that did verify; and with no collision among the tenant's presented
      secrets, while GET answers, its verdict is the bcrypt check's. */
  lemma {:induction false} CacheAgrees(k: Crypto, es: seq<Event>, tenant: GoString, secret: GoString, io: Io)
    requires Exec(k, es).Some?
    ensures var s := Exec(k, es).value;
            && (io.getOk && Uncached(k, s, tenant, secret).Accepted? ==> Bearer(k, s, tenant, secret, io).Accepted?)
            && (Bearer(k, s, tenant, secret, io).Accepted? ==>
                  Uncached(k, s, tenant, secret).Accepted? ||
                  exists n :: 0 <= n < |es| && es[n].EvRequest? && es[n].tenant == tenant
                              && k.short(es[n].secret) == k.short(secret)
                                  && Uncached(k, s, tenant, es[n].secret).Accepted?)
            && (io.getOk && NoCollision(k, es, tenant, secret) ==>
                  Bearer(k, s, tenant, secret, io) == Uncached(k, s, tenant, secret))
  {
    if SessionHit(k, Exec(k, es).value, tenant, secret, io) {
      var n := SessionHasOpener(k, es, tenant, k.short(secret));
    }
  }

  /** No other secret presented for the tenant has the short hash of this one. */
  ghost predicate NoCollision(k: Crypto, es: seq<Event>, tenant: GoString, secret: GoString) {
    forall n :: 0 <= n < |es| && es[n].EvRequest? && es[n].tenant == tenant ==>
                  k.short(es[n].secret) == k.short(secret) ==> es[n].secret == secret
  }
}
