/** Who pays for an organisation, and which version its cached answers carry. */
module OrgSettings {
  import opened Options

  /** An SSO or account identifier: never empty, and without the key separator. */
  type Id = s: string | s != "" && ':' !in s witness "o"

  datatype Settings = Settings(
    agencyOrgId: Option<Id>,
    isAgency: bool,
    clientName: Option<string>,
    payerVersion: nat)

  type Rows = map<Id, Settings>

  const DEFAULTS := Settings(None, false, None, 0)

  /** Every organisation has settings: those of its row, else the defaults. */
  function Get(rows: Rows, org: Id): Settings {
    if org in rows then rows[org] else DEFAULTS
  }

  function BillingOrgFor(rows: Rows, org: Id): Id {
    match Get(rows, org).agencyOrgId
    case Some(agency) => agency
    case None => org
  }

  function CacheVersionFor(rows: Rows, org: Id): nat {
    match Get(rows, org).agencyOrgId
    case Some(agency) => Get(rows, agency).payerVersion
    case None => Get(rows, org).payerVersion
  }

  function ClientsOf(rows: Rows, agency: Id): set<Id> {
    set o | o in rows && rows[o].agencyOrgId == Some(agency)
  }

  /** A payer together with all who have it as payer. */
  function BillingScope(rows: Rows, org: Id): set<Id> {
    var payer := BillingOrgFor(rows, org);
    {payer} + ClientsOf(rows, payer)
  }

  function Bump(rows: Rows, org: Id): Rows {
    rows[org := if org in rows then rows[org].(payerVersion := rows[org].payerVersion + 1)
                else DEFAULTS.(payerVersion := 1)]
  }

  /** An organisation taken on by a payer, or let go: its row is made, or updated with its version moved on. */
  function Move(rows: Rows, org: Id, payer: Option<Id>): Rows {
    if org in rows then rows[org := rows[org].(agencyOrgId := payer, payerVersion := rows[org].payerVersion + 1)]
    else rows[org := DEFAULTS.(agencyOrgId := payer)]
  }

  function VersionOf(rows: Rows, org: Id): nat {
    Get(rows, org).payerVersion
  }

  /** Each of these organisations bumped once. */
  function BumpAll(rows: Rows, orgs: set<Id>): Rows {
    map o | o in rows.Keys + orgs ::
      if o in orgs then Get(rows, o).(payerVersion := Get(rows, o).payerVersion + 1) else rows[o]
  }

  lemma BumpAllOneMore(rows: Rows, orgs: set<Id>, org: Id)
    requires org !in orgs
    ensures BumpAll(rows, orgs + {org}) == Bump(BumpAll(rows, orgs), org)
  {
  }

  /** No organisation is both agency and client, and every client's payer is an agency. */
  ghost predicate OneLevel(rows: Rows) {
    forall o | o in rows && rows[o].agencyOrgId.Some? ::
      !rows[o].isAgency && Get(rows, rows[o].agencyOrgId.value).isAgency
  }

  /** Asking who pays for a payer changes nothing. */
  lemma PayerPaysForItself(rows: Rows, org: Id)
    requires OneLevel(rows)
    ensures BillingOrgFor(rows, BillingOrgFor(rows, org)) == BillingOrgFor(rows, org)
  {
    var p := BillingOrgFor(rows, org);
    assert p == org || Get(rows, p).isAgency;
  }

  /** Every organisation is in its own scope, and two scopes are the same or disjoint. */
  lemma ScopesPartition(rows: Rows, a: Id, b: Id)
    requires OneLevel(rows)
    ensures a in BillingScope(rows, a)
    ensures b in BillingScope(rows, a) <==> BillingOrgFor(rows, b) == BillingOrgFor(rows, a)
    ensures BillingScope(rows, a) == BillingScope(rows, b) || BillingScope(rows, a) !! BillingScope(rows, b)
  {
    InScopeIff(rows, a, a);
    InScopeIff(rows, a, b);
    forall o | o in BillingScope(rows, a) && o in BillingScope(rows, b)
      ensures BillingOrgFor(rows, a) == BillingOrgFor(rows, b)
    {
      InScopeIff(rows, a, o);
      InScopeIff(rows, b, o);
    }
  }

  lemma InScopeIff(rows: Rows, a: Id, o: Id)
    requires OneLevel(rows)
    ensures o in BillingScope(rows, a) <==> BillingOrgFor(rows, o) == BillingOrgFor(rows, a)
  {
    PayerPaysForItself(rows, a);
    PayerPaysForItself(rows, o);
  }

  /** A bump moves the key of exactly the organisations the bumped one pays for. */
  lemma BumpMovesKeyIff(rows: Rows, bumped: Id, org: Id)
    ensures CacheVersionFor(Bump(rows, bumped), org)
            == CacheVersionFor(rows, org) + if bumped == BillingOrgFor(rows, org) then 1 else 0
    ensures BillingOrgFor(Bump(rows, bumped), org) == BillingOrgFor(rows, org)
  {
  }

  class OrganisationSettings {
    var rows: Rows

    constructor ()
      ensures rows == map[]
    {
      rows := map[];
    }

    /** Orphans every cached answer of the organisations this one pays for, and no others. */
    method BumpPayerVersion(org: Id)
      modifies this
      ensures rows == Bump(old(rows), org)
      ensures forall o: Id :: BillingOrgFor(rows, o) == old(BillingOrgFor(rows, o))
      ensures forall o: Id ::
                CacheVersionFor(rows, o) != old(CacheVersionFor(rows, o)) <==> BillingOrgFor(rows, o) == org
    {
      ghost var before := rows;
      var row := Get(rows, org);
      rows := rows[org := row.(payerVersion := row.payerVersion + 1)];
      forall o: Id
        ensures BillingOrgFor(rows, o) == BillingOrgFor(before, o)
        ensures CacheVersionFor(rows, o) != CacheVersionFor(before, o) <==> BillingOrgFor(rows, o) == org
      {
        BumpMovesKeyIff(before, org, o);
      }
    }
  }
}
