/**
 * The per-tenant signing keys (backend/iam/registry.go, token.go) and the admin check of handlers.go, with ideal
 * signatures: a token carries the key it claims to be signed with, and verifies under a key only if it was signed with
 * it. Every method is one lookup or request by itself; between them any operation of the stores may run.
 */
module TokenRegistry {
  import opened Wrappers
  import opened Schema
  import opened StoreOps
  import opened TokenFrames

  /** `service` stands for the type claim of CreateServiceToken; a claim that is None is absent. */
  datatype Claims = Claims(sub: Id, iss: string, aud: string, issuedAt: Time, expiresAt: Time, email: Option<string>,
                           name: Option<string>, role: Option<string>, tid: Id, nonce: Option<string>, service: bool)

  datatype Token = Token(key: Id, claims: Claims)

  datatype TokenService = TokenService(key: Id, issuer: string)

  /** Whom a token was minted for; the user as it was at that moment. */
  datatype Subject = ForUser(id: Id, user: User) | ForClient(id: Id)

  const TOKEN_TTL := 3600

  function UserClaims(ts: TokenService, id: Id, user: User, audience: string, tid: Id, nonce: string,
                      now: Time): Claims {
    Claims(id, ts.issuer, audience, now, now + TOKEN_TTL, Some(user.email), Some(user.name), Some(user.role), tid,
           if nonce != "" then Some(nonce) else None, false)
  }

  function ServiceClaims(ts: TokenService, clientId: Id, tid: Id, now: Time): Claims {
    Claims(clientId, ts.issuer, clientId, now, now + TOKEN_TTL, None, None, None, tid, None, true)
  }

  predicate MintedFor(t: Token, s: Subject) {
    match s
    case ForUser(id, user) =>
      && t.claims.sub == id && t.claims.role == Some(user.role) && user.tenantId == t.claims.tid && !t.claims.service
      && t.claims.email == Some(user.email) && t.claims.name == Some(user.name)
    case ForClient(id) =>
      && t.claims.sub == id && t.claims.role == None && t.claims.service && t.claims.email == None
      && t.claims.name == None
  }

  /** The tenant whose key the admin check uses, from the claims it has not verified yet. */
  function Claimed(t: Token, requestTid: Id): Id {
    if t.claims.tid == "" then requestTid else t.claims.tid
  }

  predicate InReach(tid: Id, requestTid: Id, platformTid: Id) {
    tid == requestTid || (platformTid != "" && tid == platformTid)
  }

  function PrivateKeys(keys: map<Id, SigningKey>): set<Id> {
    set k | k in keys :: keys[k].privateKey
  }

  ghost predicate KeysApart(keys: map<Id, SigningKey>) {
    forall a, b :: a in keys && b in keys && keys[a].privateKey == keys[b].privateKey ==>
      keys[a].tenantId == keys[b].tenantId
  }

  ghost function KeyOwner(keys: map<Id, SigningKey>, key: Id): Id
    requires key in PrivateKeys(keys)
  {
    var k :| k in keys && keys[k].privateKey == key;
    keys[k].tenantId
  }

  class Registry {
    const db: Database
    const baseIssuer: string
    const freshKey: nat -> Id
    var nextKey: nat
    var cache: map<Id, TokenService>
    var signed: set<Token>
    ghost var owner: map<Id, Id>
    ghost var minted: map<Token, Subject>

    /**
     * Every key ever made belongs to one tenant: in the table, in the cache and on every token signed with it, whose
     * tid is that tenant.
     */
    ghost predicate Valid()
      reads this, db
    {
      && Supply(freshKey, nextKey, owner.Keys)
      && (forall k :: k in db.tables.keys ==>
            db.tables.keys[k].privateKey in owner && owner[db.tables.keys[k].privateKey] == db.tables.keys[k].tenantId)
      && (forall t :: t in cache ==> cache[t].key in owner && owner[cache[t].key] == t)
      && signed == minted.Keys
      && (forall t :: t in minted ==> t.key in owner && owner[t.key] == t.claims.tid && MintedFor(t, minted[t]))
    }

    /** A start on any tables in which no two tenants share a key, with nothing signed yet. */
    constructor (db: Database, baseIssuer: string, freshKey: nat -> Id)
      requires KeysApart(db.tables.keys) && Supply(freshKey, 0, PrivateKeys(db.tables.keys))
      ensures Valid() && cache == map[] && signed == {} && this.db == db && this.baseIssuer == baseIssuer
      ensures this.freshKey == freshKey
    {
      this.db, this.baseIssuer, this.freshKey := db, baseIssuer, freshKey;
      nextKey, cache, signed := 0, map[], {};
      owner, minted := map x | x in PrivateKeys(db.tables.keys) :: KeyOwner(db.tables.keys, x), map[];
    }

    /** A row of the tenant, whichever the query returns first, or a new key. */
    method LoadOrCreateRSAKey(tid: Id, id: Id, now: Time) returns (key: Id)
      requires Valid() && id !in db.tables.keys
      modifies this`nextKey, this`owner, db
      ensures Valid() && key in owner && owner[key] == tid
      ensures forall k :: k in old(owner) ==> k in owner && owner[k] == old(owner)[k]
      ensures db.tables == old(db.tables).(keys := db.tables.keys)
      ensures (exists k :: k in old(db.tables).keys && old(db.tables).keys[k].tenantId == tid) ==>
        db.tables == old(db.tables)
    {
      hide After, Supply, MintedFor;
      if k :| k in db.tables.keys && db.tables.keys[k].tenantId == tid {
        return db.tables.keys[k].privateKey;
      }
      key := freshKey(nextKey);
      NextKey(freshKey, nextKey, owner, tid);
      KeyCreated(db.tables, id, SigningKey(tid, key, now));
      db.tables := After(db.tables, CreateKey(id, SigningKey(tid, key, now)));
      nextKey, owner := nextKey + 1, owner[key := tid];
    }

    /** A cached service is returned whatever slug is given; a new one gets its issuer from the slug. */
    method ForTenant(tid: Id, slug: string, id: Id, now: Time) returns (ts: TokenService)
      requires Valid() && id !in db.tables.keys
      modifies this`nextKey, this`owner, this`cache, db
      ensures Valid() && tid in cache && ts == cache[tid] && owner[ts.key] == tid
      ensures cache == old(cache)[tid := ts]
      ensures (tid in old(cache) ==> ts == old(cache)[tid] && db.tables == old(db.tables))
      ensures tid !in old(cache) ==> ts.issuer == if slug != "" then baseIssuer + "/t/" + slug else baseIssuer
      ensures db.tables == old(db.tables).(keys := db.tables.keys)
    {
      if tid in cache {
        return cache[tid];
      }
      var key := LoadOrCreateRSAKey(tid, id, now);
      ts := TokenService(key, if slug != "" then baseIssuer + "/t/" + slug else baseIssuer);
      cache := cache[tid := ts];
    }

    /**
     * Access tokens, which have no nonce, and ID tokens, for a user of the request's tenant: Login and the code and
     * refresh grants.
     */
    method MintForUser(tid: Id, slug: string, userId: Id, audience: string, nonce: string, id: Id, now: Time)
      returns (t: Token)
      requires Valid() && userId in Scoped(db.tables.users, tid) && id !in db.tables.keys
      modifies this, db
      ensures Valid() && tid in cache && signed == old(signed) + {t} && t.claims.tid == tid
      ensures MintedFor(t, ForUser(userId, old(db.tables).users[userId])) && t.key in owner && owner[t.key] == tid
      ensures t.key == cache[tid].key
      ensures
        var user := old(db.tables).users[userId];
        t.claims == Claims(userId, cache[tid].issuer, audience, now, now + 3600, Some(user.email), Some(user.name),
                           Some(user.role), tid, if nonce != "" then Some(nonce) else None, false)
      ensures db.tables == old(db.tables).(keys := db.tables.keys)
    {
      var user := db.tables.users[userId];
      var ts := ForTenant(tid, slug, id, now);
      t := Token(ts.key, UserClaims(ts, userId, user, audience, tid, nonce, now));
      signed, minted := signed + {t}, minted[t := ForUser(userId, user)];
    }

    /** tokenClientCredentials, once the client's secret is checked. */
    method MintForClient(tid: Id, slug: string, clientId: Id, id: Id, now: Time) returns (t: Token)
      requires Valid() && id !in db.tables.keys
      modifies this, db
      ensures Valid() && tid in cache && signed == old(signed) + {t} && t.claims.tid == tid
      ensures MintedFor(t, ForClient(clientId))
      ensures t.key == cache[tid].key && t.key in owner && owner[t.key] == tid
      ensures t.claims == Claims(clientId, cache[tid].issuer, clientId, now, now + 3600, None, None, None, tid, None,
                                 true)
      ensures db.tables == old(db.tables).(keys := db.tables.keys)
    {
      var ts := ForTenant(tid, slug, id, now);
      t := Token(ts.key, ServiceClaims(ts, clientId, tid, now));
      signed, minted := signed + {t}, minted[t := ForClient(clientId)];
    }

    /** Any other operation of any store; only LoadOrCreateRSAKey makes keys. */
    method Handle(op: Op)
      requires Valid() && !op.CreateKey?
      modifies db
      ensures Valid() && db.tables == After(old(db.tables), op)
    {
      hide After;
      forall k | k in After(db.tables, op).keys
        ensures k in db.tables.keys && After(db.tables, op).keys[k] == db.tables.keys[k]
      {
        KeysFramed(db.tables, op, k);
      }
      db.tables := After(db.tables, op);
    }

    /** A new process starts with an empty cache; keys and tokens live on. */
    method Restart()
      requires Valid()
      modifies this`cache
      ensures Valid() && cache == map[]
    {
      cache := map[];
    }

    /** ValidateAccessToken: signature, issuer and expiry. */
    predicate Verifies(ts: TokenService, t: Token, now: Time)
      reads this
    {
      t in signed && t.key == ts.key && t.claims.iss == ts.issuer && now < t.claims.expiresAt
    }

    /**
     * CheckAdmin. It picks the key by a tid it has not verified, yet whatever it accepts was minted for the request's
     * tenant or the platform's: for a user who was an admin then and still exists there, or for a client.
     */
    method CheckAdmin(t: Token, requestTid: Id, platformTid: Id, id: Id, now: Time) returns (ok: bool, user: Option<Id>)
      requires Valid() && id !in db.tables.keys
      modifies this`nextKey, this`owner, this`cache, db
      ensures Valid()
      ensures
        var tid := if t.claims.tid == "" then requestTid else t.claims.tid;
        && tid in cache
        && (ok <==>
              && t in signed && t.key == cache[tid].key && t.claims.iss == cache[tid].issuer && now < t.claims.expiresAt
              && (tid == requestTid || (platformTid != "" && tid == platformTid))
              && (t.claims.service
                  || (t.claims.role == Some("admin") && t.claims.sub in db.tables.users
                      && db.tables.users[t.claims.sub].tenantId == tid)))
      ensures ok ==>
        && t in minted && (t.claims.tid != "" || requestTid == "")
        && (t.claims.tid == requestTid || (platformTid != "" && t.claims.tid == platformTid))
        && match minted[t]
           case ForUser(u, row) =>
             && user == Some(u) && t.claims.sub == u && row.role == "admin" && row.tenantId == t.claims.tid
             && u in db.tables.users && db.tables.users[u].tenantId == t.claims.tid
           case ForClient(c) => user == None && t.claims.sub == c
    {
      var tid := Claimed(t, requestTid);
      var ts := ForTenant(tid, "", id, now);
      if !Verifies(ts, t, now) {
        return false, None;
      }
      if t.claims.service {
        return InReach(tid, requestTid, platformTid), None;
      }
      if t.claims.role != Some("admin") {
        return false, None;
      }
      if !InReach(tid, requestTid, platformTid) {
        return false, None;
      }
      if t.claims.sub !in Scoped(db.tables.users, tid) {
        return false, None;
      }
      return true, Some(t.claims.sub);
    }

    /** CheckAdminCrossTenant: no client gets through, and with a platform tenant only its admins do. */
    method CheckAdminCrossTenant(t: Token, platformTid: Id, id: Id, now: Time) returns (ok: bool)
      requires Valid() && id !in db.tables.keys
      modifies this`nextKey, this`owner, this`cache, db
      ensures Valid()
      ensures ok ==>
        && t in minted && minted[t].ForUser? && minted[t].user.role == "admin"
        && minted[t].user.tenantId == t.claims.tid && minted[t].id in db.tables.users
        && db.tables.users[minted[t].id].tenantId == t.claims.tid && now < t.claims.expiresAt
        && (platformTid != "" ==> t.claims.tid == platformTid)
      ensures t.claims.tid != "" ==> t.claims.tid in cache
      ensures ok <==>
        && t.claims.tid != "" && t in signed && t.key == cache[t.claims.tid].key
        && t.claims.iss == cache[t.claims.tid].issuer && now < t.claims.expiresAt && t.claims.role == Some("admin")
        && (platformTid == "" || t.claims.tid == platformTid)
        && t.claims.sub in db.tables.users && db.tables.users[t.claims.sub].tenantId == t.claims.tid
    {
      if t.claims.tid == "" {
        return false;
      }
      var ts := ForTenant(t.claims.tid, "", id, now);
      if !Verifies(ts, t, now) || t.claims.role != Some("admin") {
        return false;
      }
      if platformTid != "" && t.claims.tid != platformTid {
        return false;
      }
      return t.claims.sub in Scoped(db.tables.users, t.claims.tid);
    }
  }

  lemma KeyCreated(db: Tables, id: Id, row: SigningKey)
    requires id !in db.keys
    ensures After(db, CreateKey(id, row)) == db.(keys := db.keys[id := row])
  {
  }

  lemma NextKey(freshKey: nat -> Id, next: nat, owner: map<Id, Id>, tid: Id)
    requires Supply(freshKey, next, owner.Keys)
    ensures freshKey(next) !in owner && Supply(freshKey, next + 1, owner[freshKey(next) := tid].Keys)
  {
  }
}
