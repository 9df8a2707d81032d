/** Who may take on whom, and why a payer never has a payer. */
module Agency {
  import opened Options
  import opened Sets
  import opened OrgSettings

  datatype Refusal =
    | ClientOfAnAgency | StillHasClients | OwnClient | NotAnAgency | AgencyAsClient
    | BelongsElsewhere | RosterFull | SsoRefused | NotItsClient | NotSubscribed

  /**
   * One operator's call.  `limit` is how many clients the agency's plan
   * includes, `created` the organisation the SSO made, if it made one.
   * `subscribed` and `released` are whether AgencyBilling's part of the call went
   * through to the version it moves at its end.
   */
  datatype Op =
    | Convert(org: Id, isAgency: bool)
    | Attach(agency: Id, org: Id, name: Option<string>, limit: Option<nat>)
    | Create(agency: Id, created: Option<Id>, clientName: string, limit: Option<nat>, subscribed: bool)
    | Detach(agency: Id, org: Id, released: bool)

  predicate Within(limit: Option<nat>, held: nat) {
    limit.Some? ==> held < limit.value
  }

  /** Why the call is turned away, if it is. */
  function Refuses(rows: Rows, op: Op): Option<Refusal> {
    match op
    case Convert(org, isAgency) =>
      if isAgency && Get(rows, org).agencyOrgId.Some? then Some(ClientOfAnAgency)
      else if !isAgency && ClientsOf(rows, org) != {} then Some(StillHasClients)
      else None
    case Attach(agency, org, _, limit) =>
      var client := Get(rows, org);
      if agency == org then Some(OwnClient)
      else if !Get(rows, agency).isAgency then Some(NotAnAgency)
      else if client.isAgency then Some(AgencyAsClient)
      else if client.agencyOrgId.Some? && client.agencyOrgId.value != agency then Some(BelongsElsewhere)
      else if client.agencyOrgId != Some(agency) && !Within(limit, |ClientsOf(rows, agency)|) then Some(RosterFull)
      else None
    case Create(agency, created, _, limit, _) =>
      if !Get(rows, agency).isAgency then Some(NotAnAgency)
      else if !Within(limit, |ClientsOf(rows, agency)|) then Some(RosterFull)
      else if created.None? then Some(SsoRefused)
      else None
    case Detach(agency, org, _) =>
      if Get(rows, org).agencyOrgId != Some(agency) then Some(NotItsClient) else None
  }

  /** What the caller is told: a new client that could not be put on a plan is kept all the same. */
  function Answer(rows: Rows, op: Op): Option<Refusal> {
    if Refuses(rows, op).None? && op.Create? && !op.subscribed then Some(NotSubscribed) else Refuses(rows, op)
  }

  /** `create` when there is no row, otherwise the update with its version moved on. */
  function Upsert(rows: Rows, org: Id, update: Settings -> Settings): Rows {
    if org in rows
    then rows[org := update(rows[org]).(payerVersion := rows[org].payerVersion + 1)]
    else rows[org := update(DEFAULTS)]
  }

  function Next(rows: Rows, op: Op): Rows {
    if Refuses(rows, op).Some? then rows
    else match op
      case Convert(org, isAgency) => Upsert(rows, org, (s: Settings) => s.(isAgency := isAgency))
      case Attach(agency, org, name, _) =>
        Upsert(rows, org, (s: Settings) => s.(agencyOrgId := Some(agency),
                                               clientName := if name.Some? then name else s.clientName))
      case Create(agency, created, name, _, subscribed) =>
        var taken := Upsert(rows, created.value, (s: Settings) => s.(agencyOrgId := Some(agency), clientName := Some(name)));
        if subscribed then Bump(taken, created.value) else taken
      case Detach(_, org, released) =>
        Upsert(if released then Bump(rows, org) else rows, org, (s: Settings) => s.(agencyOrgId := None))
  }

  /** Main result on refusals: what each call asks for; refused, it changes nothing, and it is told a reason that holds. */
  lemma GoesAheadIff(rows: Rows, op: Op)
    ensures Refuses(rows, op).None? <==>
            match op
            case Convert(org, isAgency) => if isAgency then Get(rows, org).agencyOrgId.None? else ClientsOf(rows, org) == {}
            case Attach(agency, org, _, limit) =>
              && agency != org && Get(rows, agency).isAgency && !Get(rows, org).isAgency
              && (org in ClientsOf(rows, agency)
                  || (Get(rows, org).agencyOrgId.None? && (limit.Some? ==> |ClientsOf(rows, agency)| < limit.value)))
            case Create(agency, created, _, limit, _) =>
              Get(rows, agency).isAgency && created.Some? && (limit.Some? ==> |ClientsOf(rows, agency)| < limit.value)
            case Detach(agency, org, _) => org in ClientsOf(rows, agency)
    ensures Refuses(rows, op).Some? ==> Next(rows, op) == rows
    ensures Refuses(rows, op).Some? ==>
              match Refuses(rows, op).value
              case ClientOfAnAgency => op.Convert? && op.isAgency
              case StillHasClients => op.Convert? && !op.isAgency
              case OwnClient => op.Attach? && op.agency == op.org
              case NotAnAgency => (op.Attach? || op.Create?) && !Get(rows, op.agency).isAgency
              case AgencyAsClient => op.Attach? && Get(rows, op.org).isAgency
              case BelongsElsewhere =>
                op.Attach? && Get(rows, op.org).agencyOrgId.Some? && op.org !in ClientsOf(rows, op.agency)
              case RosterFull => (op.Attach? || op.Create?) && op.limit.Some? && op.limit.value <= |ClientsOf(rows, op.agency)|
              case SsoRefused => op.Create? && op.created.None?
              case NotItsClient => op.Detach? && op.org !in ClientsOf(rows, op.agency)
              case NotSubscribed => false
    ensures Refuses(rows, op) == Some(OwnClient) <==> op.Attach? && op.agency == op.org
    // A client the SSO made is told of as not on a plan exactly if it could not be put on one.
    ensures Answer(rows, op).None? <==> Refuses(rows, op).None? && (op.Create? ==> op.subscribed)
    ensures Answer(rows, op) == Some(NotSubscribed) <==> Refuses(rows, op).None? && op.Create? && !op.subscribed
    ensures Refuses(rows, op).Some? ==> Answer(rows, op) == Refuses(rows, op)
  {
  }

  /** Whose row a call writes. */
  function Written(op: Op): Option<Id> {
    match op
    case Create(_, created, _, _, _) => created
    case _ => Some(op.org)
  }

  /** What a call writes besides versions, and that it writes nothing of anybody else's. */
  lemma WritesOneRow(rows: Rows, op: Op)
    requires Refuses(rows, op).None?
    ensures Written(op).Some? && Next(rows, op).Keys == rows.Keys + {Written(op).value}
    ensures forall other | other in rows && other != Written(op).value :: Next(rows, op)[other] == rows[other]
    ensures var before, after := Get(rows, Written(op).value), Get(Next(rows, op), Written(op).value);
            && (op.Convert? ==> after.isAgency == op.isAgency && after.agencyOrgId == before.agencyOrgId)
            && (!op.Convert? ==> after.isAgency == before.isAgency)
            && (op.Attach? || op.Create? ==> after.agencyOrgId == Some(op.agency))
            && (op.Detach? ==> after.agencyOrgId.None?)
            && after.clientName == (if op.Create? then Some(op.clientName)
                                    else if op.Attach? && op.name.Some? then op.name else before.clientName)
  {
  }

  /** Two settings tables that agree on who pays and on every version. */
  ghost predicate PayAlike(a: Rows, b: Rows) {
    forall o: Id :: Get(a, o).agencyOrgId == Get(b, o).agencyOrgId && VersionOf(a, o) == VersionOf(b, o)
  }

  /** As far as payers and versions go, a call is a move and a bump in the order its writes come. */
  lemma NextIsMoves(rows: Rows, op: Op)
    requires Refuses(rows, op).None?
    ensures op.Attach? ==> PayAlike(Next(rows, op), Move(rows, op.org, Some(op.agency)))
    ensures op.Create? ==>
              var moved := Move(rows, op.created.value, Some(op.agency));
              PayAlike(Next(rows, op), if op.subscribed then Bump(moved, op.created.value) else moved)
    ensures op.Detach? ==>
              PayAlike(Next(rows, op), Move(if op.released then Bump(rows, op.org) else rows, op.org, None))
    ensures op.Convert? ==> PayAlike(Next(rows, op), if op.org in rows then Bump(rows, op.org) else rows)
  {
  }

  function RunOps(rows: Rows, ops: seq<Op>): Rows
    decreases |ops|
  {
    if ops == [] then rows else RunOps(Next(rows, ops[0]), ops[1..])
  }

  /** The SSO really made a new organisation: it is not one already managing clients. */
  predicate Fresh(rows: Rows, op: Op) {
    op.Create? && op.created.Some? ==> !Get(rows, op.created.value).isAgency
  }

  predicate AllFresh(rows: Rows, ops: seq<Op>)
    decreases |ops|
  {
    ops != [] ==> Fresh(rows, ops[0]) && AllFresh(Next(rows, ops[0]), ops[1..])
  }

  /** A call keeps the relation one level deep exactly when the organisation it creates is new. */
  lemma OneLevelIffFresh(rows: Rows, op: Op)
    requires OneLevel(rows)
    ensures OneLevel(Next(rows, op)) <==> Fresh(rows, op) || Refuses(rows, op).Some?
  {
    var after := Next(rows, op);
    if Refuses(rows, op).None? {
      if Fresh(rows, op) {
        assert op.Convert? && !op.isAgency ==> forall o | o in rows :: o !in ClientsOf(rows, op.org);
        forall o | o in after && after[o].agencyOrgId.Some?
          ensures !after[o].isAgency && Get(after, after[o].agencyOrgId.value).isAgency
        {
          if op.Convert? && o != op.org { assert rows[o] == after[o]; }
        }
      } else {
        assert after[op.created.value].agencyOrgId.Some? && after[op.created.value].isAgency;
      }
    }
  }

  /** Main result: from any one-level start, so from no agencies at all, every run stays one level deep. */
  lemma {:induction false} EveryRunIsOneLevel(rows: Rows, ops: seq<Op>)
    requires OneLevel(rows) && AllFresh(rows, ops)
    ensures OneLevel(RunOps(rows, ops))
    decreases |ops|
  {
    if ops != [] {
      OneLevelIffFresh(rows, ops[0]);
      EveryRunIsOneLevel(Next(rows, ops[0]), ops[1..]);
    }
  }

  /** So after any run, scopes partition the organisations and payers pay for themselves. */
  lemma ScopesStayDisjoint(ops: seq<Op>, a: Id, b: Id)
    requires AllFresh(map[], ops)
    ensures var rows := RunOps(map[], ops);
            && BillingOrgFor(rows, BillingOrgFor(rows, a)) == BillingOrgFor(rows, a)
            && (BillingScope(rows, a) == BillingScope(rows, b) || BillingScope(rows, a) !! BillingScope(rows, b))
  {
    EveryRunIsOneLevel(map[], ops);
    PayerPaysForItself(RunOps(map[], ops), a);
    ScopesPartition(RunOps(map[], ops), a, b);
  }

  /** The calls about this agency all carry the same number of clients its plan includes. */
  predicate Includes(op: Op, agency: Id, most: nat) {
    && (op.Attach? && op.agency == agency ==> op.limit == Some(most))
    && (op.Create? && op.agency == agency ==> op.limit == Some(most))
  }

  /** One call takes an agency on its plan to no more clients than that, however the client comes. */
  lemma RosterStaysWithin(rows: Rows, op: Op, agency: Id, most: nat)
    requires |ClientsOf(rows, agency)| <= most && Includes(op, agency, most)
    ensures |ClientsOf(Next(rows, op), agency)| <= most
  {
    var held, taken := ClientsOf(rows, agency), TakenOn(rows, op, agency);
    RosterAfter(rows, op, agency);
    SubsetSize(ClientsOf(Next(rows, op), agency), held + taken);
    if taken <= held { assert held + taken == held; }
  }

  /** Whom a call makes an agency's client. */
  function TakenOn(rows: Rows, op: Op, agency: Id): set<Id> {
    if Refuses(rows, op).Some? then {}
    else if op.Attach? && op.agency == agency then {op.org}
    else if op.Create? && op.agency == agency then {op.created.value}
    else {}
  }

  lemma RosterAfter(rows: Rows, op: Op, agency: Id)
    ensures ClientsOf(Next(rows, op), agency) <= ClientsOf(rows, agency) + TakenOn(rows, op, agency)
  {
    var after := Next(rows, op);
    forall o | o in after && after[o].agencyOrgId == Some(agency)
      ensures o in ClientsOf(rows, agency) + TakenOn(rows, op, agency)
    {
      if Refuses(rows, op).None? && o != Written(op).value { WritesOneRow(rows, op); }
    }
  }

  /** Main result on the roster: no run of calls takes an agency past what its plan includes. */
  lemma {:induction false} RosterNeverExceeds(rows: Rows, ops: seq<Op>, agency: Id, most: nat)
    requires |ClientsOf(rows, agency)| <= most && forall i | 0 <= i < |ops| :: Includes(ops[i], agency, most)
    ensures |ClientsOf(RunOps(rows, ops), agency)| <= most
    decreases |ops|
  {
    if ops != [] {
      RosterStaysWithin(rows, ops[0], agency, most);
      RosterNeverExceeds(Next(rows, ops[0]), ops[1..], agency, most);
    }
  }

  /** Taking a client on uses one place and never more than the plan includes; a rename uses none. */
  lemma RosterGrowsByOne(rows: Rows, op: Op)
    requires op.Attach? && Refuses(rows, op).None?
    ensures var held, now := ClientsOf(rows, op.agency), ClientsOf(Next(rows, op), op.agency);
            && now == held + {op.org}
            && (op.org in held ==> |now| == |held|)
            && (op.org !in held ==> |now| == |held| + 1 && (op.limit.Some? ==> |now| <= op.limit.value))
  {
    var held, now := ClientsOf(rows, op.agency), ClientsOf(Next(rows, op), op.agency);
    forall o ensures o in now <==> o in held + {op.org} { }
    assert now == held + {op.org};
    if op.org in held { assert now == held; }
  }

  /** Detaching gives the place back and touches no other client of any agency. */
  lemma DetachUndoesAttach(rows: Rows, op: Op, released: bool)
    requires op.Attach? && Refuses(rows, op).None? && op.org !in ClientsOf(rows, op.agency)
    ensures var after := Next(Next(rows, op), Detach(op.agency, op.org, released));
            && (forall a: Id :: ClientsOf(after, a) == ClientsOf(rows, a))
            && (forall o: Id :: BillingOrgFor(after, o) == BillingOrgFor(rows, o))
  {
    var mid := Next(rows, op);
    var after := Next(mid, Detach(op.agency, op.org, released));
    forall a: Id
      ensures ClientsOf(after, a) == ClientsOf(rows, a)
    {
      forall o ensures o in ClientsOf(after, a) <==> o in ClientsOf(rows, a) { }
    }
  }

  /**
   * Attaching leaves the key the organisation was just using in use exactly when
   * the agency's version equals its own.  AccessHistory says when any older
   * answer is in reach.
   */
  lemma AttachReusesKeyIff(rows: Rows, op: Op)
    requires op.Attach? && Refuses(rows, op).None? && Get(rows, op.org).agencyOrgId.None?
    ensures CacheVersionFor(Next(rows, op), op.org) == CacheVersionFor(rows, op.org)
            <==> Get(rows, op.agency).payerVersion == Get(rows, op.org).payerVersion
  {
  }

  /** The same on the way out: the client's version moves once, and once more if the release went through. */
  lemma DetachReusesKeyIff(rows: Rows, op: Op)
    requires op.Detach? && Refuses(rows, op).None? && op.agency != op.org
    ensures CacheVersionFor(Next(rows, op), op.org) == CacheVersionFor(rows, op.org)
            <==> Get(rows, op.org).payerVersion + (if op.released then 2 else 1) == Get(rows, op.agency).payerVersion
  {
  }

  class AgencyService {
    const settings: OrganisationSettings

    constructor (settings: OrganisationSettings)
      ensures this.settings == settings
    {
      this.settings := settings;
    }

    method Convert(org: Id, isAgency: bool) returns (refused: Option<Refusal>)
      modifies settings
      ensures refused == old(Refuses(settings.rows, Op.Convert(org, isAgency)))
      ensures settings.rows == old(Next(settings.rows, Op.Convert(org, isAgency)))
      ensures old(OneLevel(settings.rows)) ==> OneLevel(settings.rows)
    {
      OneLevelHere(settings.rows, Op.Convert(org, isAgency));
      var current := Get(settings.rows, org);
      if isAgency && current.agencyOrgId.Some? {
        return Some(ClientOfAnAgency);
      }
      if !isAgency {
        var clients := ClientsOf(settings.rows, org);
        if clients != {} {
          return Some(StillHasClients);
        }
      }
      if org in settings.rows {
        settings.rows := settings.rows[org := current.(isAgency := isAgency, payerVersion := current.payerVersion + 1)];
      } else {
        settings.rows := settings.rows[org := DEFAULTS.(isAgency := isAgency)];
      }
      return None;
    }

    method AttachClient(agency: Id, org: Id, name: Option<string>, limit: Option<nat>) returns (refused: Option<Refusal>)
      modifies settings
      ensures refused == old(Refuses(settings.rows, Attach(agency, org, name, limit)))
      ensures settings.rows == old(Next(settings.rows, Attach(agency, org, name, limit)))
      ensures old(OneLevel(settings.rows)) ==> OneLevel(settings.rows)
    {
      OneLevelHere(settings.rows, Attach(agency, org, name, limit));
      if agency == org {
        return Some(OwnClient);
      }
      if !Get(settings.rows, agency).isAgency {
        return Some(NotAnAgency);
      }
      var client := Get(settings.rows, org);
      if client.isAgency {
        return Some(AgencyAsClient);
      }
      if client.agencyOrgId.Some? && client.agencyOrgId.value != agency {
        return Some(BelongsElsewhere);
      }
      if client.agencyOrgId != Some(agency) {
        var held := |ClientsOf(settings.rows, agency)|;
        if limit.Some? && limit.value <= held {
          return Some(RosterFull);
        }
      }
      var shown := if name.Some? then name else client.clientName;
      if org in settings.rows {
        settings.rows := settings.rows[org := client.(agencyOrgId := Some(agency), clientName := shown,
                                                      payerVersion := client.payerVersion + 1)];
      } else {
        settings.rows := settings.rows[org := DEFAULTS.(agencyOrgId := Some(agency), clientName := name)];
      }
      return None;
    }

    /** `created` is what the SSO answers; `subscribed` whether the client could then be put on a plan. */
    method CreateClient(agency: Id, created: Option<Id>, name: string, limit: Option<nat>, subscribed: bool)
      returns (refused: Option<Refusal>)
      modifies settings
      ensures refused == old(Answer(settings.rows, Create(agency, created, name, limit, subscribed)))
      ensures settings.rows == old(Next(settings.rows, Create(agency, created, name, limit, subscribed)))
      ensures old(OneLevel(settings.rows) && Fresh(settings.rows, Create(agency, created, name, limit, subscribed))) ==>
                OneLevel(settings.rows)
    {
      OneLevelHere(settings.rows, Create(agency, created, name, limit, subscribed));
      if !Get(settings.rows, agency).isAgency {
        return Some(NotAnAgency);
      }
      var held := |ClientsOf(settings.rows, agency)|;
      if limit.Some? && limit.value <= held {
        return Some(RosterFull);
      }
      if created.None? {
        return Some(SsoRefused);
      }
      var org := created.value;
      if org in settings.rows {
        var row := settings.rows[org];
        settings.rows := settings.rows[org := row.(agencyOrgId := Some(agency), clientName := Some(name),
                                                   payerVersion := row.payerVersion + 1)];
      } else {
        settings.rows := settings.rows[org := DEFAULTS.(agencyOrgId := Some(agency), clientName := Some(name))];
      }
      if !subscribed {
        return Some(NotSubscribed);
      }
      settings.BumpPayerVersion(org);
      return None;
    }

    /** A release that fails is logged and the client is let go all the same. */
    method DetachClient(agency: Id, org: Id, released: bool) returns (refused: Option<Refusal>)
      modifies settings
      ensures refused == old(Refuses(settings.rows, Detach(agency, org, released)))
      ensures settings.rows == old(Next(settings.rows, Detach(agency, org, released)))
      ensures old(OneLevel(settings.rows)) ==> OneLevel(settings.rows)
    {
      OneLevelHere(settings.rows, Detach(agency, org, released));
      var client := Get(settings.rows, org);
      if client.agencyOrgId != Some(agency) {
        return Some(NotItsClient);
      }
      if released {
        settings.BumpPayerVersion(org);
      }
      var row := settings.rows[org];
      settings.rows := settings.rows[org := row.(agencyOrgId := None, payerVersion := row.payerVersion + 1)];
      return None;
    }
  }

  lemma OneLevelHere(rows: Rows, op: Op)
    ensures OneLevel(rows) && Fresh(rows, op) ==> OneLevel(Next(rows, op))
  {
    if OneLevel(rows) { OneLevelIffFresh(rows, op); }
  }
}
