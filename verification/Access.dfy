/** `hasAccess` as one caller runs it; AccessCache proves what holds when callers race. */
module Access {
  import opened Options
  import opened Redis
  import opened OrgSettings
  import opened AccessCache

  function RowAt(db: Db, key: RowKey): Option<Sub> {
    if key in db then Some(db[key]) else None
  }

  /** What one organisation's two rows say: that account's if it has one, else the one for all its accounts. */
  function ForOrganisation(db: Db, org: Id, waba: Id): Option<Sub> {
    match RowAt(db, RowKey(org, Some(waba)))
    case Some(sub) => Some(sub)
    case None => RowAt(db, RowKey(org, None))
  }

  /** The payer's answer; an organisation that is its own payer has no second answer. */
  function FromPayer(db: Db, rows: Rows, org: Id, waba: Id): Option<Sub> {
    var payer := BillingOrgFor(rows, org);
    if payer == org then None else ForOrganisation(db, payer, waba)
  }

  class SubscriptionAccessService {
    const redis: RedisService
    const settings: OrganisationSettings
    var db: Db

    constructor (redis: RedisService, settings: OrganisationSettings)
      ensures this.redis == redis && this.settings == settings && db == map[]
    {
      this.redis := redis;
      this.settings := settings;
      db := map[];
    }

    /**
     * A live answer under the payer's version comes back unchanged.  Without one
     * the first of the four rows decides, and that is readable for a minute.
     */
    method HasAccess(org: Id, waba: Id, now: int) returns (allowed: bool)
      modifies redis
      ensures var scope := Scope(org, waba, CacheVersionFor(settings.rows, org));
              match old(AccessAt(redis.entries, scope, now))
              case Some(cached) => allowed == cached && redis.entries == old(redis.entries)
              case None =>
                && allowed == Grants(Lookup(db, RowsConsulted(settings.rows, org, waba)), now)
                && redis.entries == SetEx(old(redis.entries), SubscriptionAccess(scope), Allowed(allowed), ACCESS_TTL, now)
    {
      var version := CacheVersionFor(settings.rows, org);
      var key := Scope(org, waba, version);
      var cached := redis.GetSubscriptionAccess(key, now);
      if cached.Some? {
        return cached.value;
      }
      var sub := ForOrganisation(db, org, waba);
      if sub.None? {
        sub := FromPayer(db, settings.rows, org, waba);
      }
      FirstOfFour(db, settings.rows, org, waba);
      allowed := Grants(sub, now);
      redis.SetSubscriptionAccess(key, allowed, now);
    }

    /** Changes the cache key of exactly the organisations whose payer this is. */
    method InvalidatePayer(org: Id)
      modifies settings
      ensures settings.rows == Bump(old(settings.rows), org)
      ensures forall o: Id, waba: Id ::
                Scope(o, waba, CacheVersionFor(settings.rows, o)) == old(Scope(o, waba, CacheVersionFor(settings.rows, o)))
                <==> BillingOrgFor(settings.rows, o) != org
    {
      ghost var before := settings.rows;
      settings.BumpPayerVersion(org);
      forall o: Id, waba: Id
        ensures Scope(o, waba, CacheVersionFor(settings.rows, o)) == Scope(o, waba, CacheVersionFor(before, o))
                <==> BillingOrgFor(settings.rows, o) != org
      {
        if Scope(o, waba, CacheVersionFor(settings.rows, o)) == Scope(o, waba, CacheVersionFor(before, o)) {
          ScopeInjective(o, waba, CacheVersionFor(settings.rows, o), o, waba, CacheVersionFor(before, o));
        }
      }
    }
  }

  /** Looking the four rows up in order is the organisation's own answer, then its payer's. */
  lemma FirstOfFour(db: Db, rows: Rows, org: Id, waba: Id)
    ensures Lookup(db, RowsConsulted(rows, org, waba))
            == match ForOrganisation(db, org, waba)
               case Some(sub) => Some(sub)
               case None => FromPayer(db, rows, org, waba)
    ensures var paid := org in rows && rows[org].agencyOrgId.Some?;
            Lookup(db, RowsConsulted(rows, org, waba))
            == if RowKey(org, Some(waba)) in db then Some(db[RowKey(org, Some(waba))])
               else if RowKey(org, None) in db then Some(db[RowKey(org, None)])
               else if paid && RowKey(rows[org].agencyOrgId.value, Some(waba)) in db
               then Some(db[RowKey(rows[org].agencyOrgId.value, Some(waba))])
               else if paid && RowKey(rows[org].agencyOrgId.value, None) in db
               then Some(db[RowKey(rows[org].agencyOrgId.value, None)])
               else None
  {
    var keys := RowsConsulted(rows, org, waba);
    assert Lookup(db, keys[2..]) == FromPayer(db, rows, org, waba) by {
      if |keys| == 4 {
        assert Lookup(db, keys[2..][1..]) == RowAt(db, keys[3]) by { assert Lookup(db, keys[4..]) == None; }
      }
    }
    assert keys[1..][1..] == keys[2..];
    assert Lookup(db, keys[1..]) == if keys[1] in db then Some(db[keys[1]]) else Lookup(db, keys[2..]);
  }

  /** The paywall's rule as one formula: never for a superseded row, else by status or by an end still to come. */
  lemma PaidMonthWins(s: Sub, now: int)
    ensures Grants(Some(s), now) <==>
            && !s.status.Superseded?
            && (s.status.Active? || s.status.Authenticated? || (s.currentEnd.Some? && now < s.currentEnd.value))
  {
  }
}
