/**
 * Quantities and riders: a mandate for each plan an agency sells from, and the
 * client rows that ride it.  An organisation has at most one organisation-level row, as
 * the table's unique index has it.
 */
module AgencyBilling {
  import opened Options
  import opened OrgSettings
  import S = Subscription
  import AC = AccessCache

  type Status = AC.Status

  /** An agency's group for one plan. */
  datatype GroupKey = GroupKey(agency: Id, plan: nat)

  datatype Group = Group(
    mandate: string, quantity: int, status: Status,
    currentStart: Option<int>, currentEnd: Option<int>, cancelAtCycleEnd: bool)

  datatype Client = Client(
    payer: Option<Id>, group: Option<GroupKey>, status: Status,
    currentStart: Option<int>, currentEnd: Option<int>, cancelAtCycleEnd: bool)

  /** What the provider has agreed to do. */
  datatype Command =
    | CreateMandate(mandate: string, quantity: int)
    | SetQuantity(mandate: string, quantity: int, atCycleEnd: bool)
    | CancelMandate(mandate: string, atCycleEnd: bool)

  datatype State = State(groups: map<GroupKey, Group>, clients: map<Id, Client>, sent: seq<Command>, settings: Rows)

  /** A mandate as the provider creates it. */
  datatype Created = Created(mandate: string, status: Status, currentStart: Option<int>, currentEnd: Option<int>)

  datatype Op =
    // `agrees` is the provider's answer to a larger quantity, `created` the mandate it makes, if it makes one.
    | Subscribe(key: GroupKey, org: Id, onOffer: bool, agrees: bool, created: Option<Created>)
    // `agrees` is its answer to a smaller quantity or to a cancellation.
    | Release(agency: Id, org: Id, agrees: bool)
    | ApplyToGroup(mandate: string, status: Status, currentStart: Option<int>, currentEnd: Option<int>)
    // An organisation that pays for itself registers, over the row it has if that is finished.
    | RegisterItself(org: Id, viaAgency: bool, own: Created)

  datatype Refusal =
    | NotOnOffer | AlreadySubscribed | MandateEnding | MandateNotLive | ProviderRefused | RowExists | NotItsClient
    | BilledThroughAgency

  predicate Live(s: State, key: GroupKey) {
    key in s.groups && !S.IsFinished(s.groups[key].status)
  }

  predicate Updatable(status: Status) {
    status.Active? || status.Authenticated?
  }

  /** A new mandate has to be made: there is none alive, or the one there is has not been authorised. */
  predicate NeedsMandate(s: State, key: GroupKey) {
    !Live(s, key) || s.groups[key].status.Created?
  }

  /** Why the agency's mandate cannot take another client, if it cannot. */
  function GroupRefuses(s: State, op: Op): Option<Refusal>
    requires op.Subscribe?
  {
    if Live(s, op.key) && s.groups[op.key].cancelAtCycleEnd then Some(MandateEnding)
    else if NeedsMandate(s, op.key) then if op.created.None? then Some(ProviderRefused) else None
    else if !Updatable(s.groups[op.key].status) then Some(MandateNotLive)
    else if !op.agrees then Some(ProviderRefused)
    else None
  }

  /** Refusals made before anything is changed. */
  function Refuses(s: State, op: Op): Option<Refusal> {
    match op
    case Subscribe(_, org, onOffer, _, _) =>
      if !onOffer then Some(NotOnOffer)
      else if org in s.clients && !S.IsFinished(s.clients[org].status) then Some(AlreadySubscribed)
      else GroupRefuses(s, op)
    case Release(agency, org, _) =>
      if org in s.clients && s.clients[org].payer == Some(agency) then None else Some(NotItsClient)
    case ApplyToGroup(_, _, _, _) => None
    case RegisterItself(org, viaAgency, _) =>
      if viaAgency then Some(BilledThroughAgency)
      else if org in s.clients && !S.IsFinished(s.clients[org].status) then Some(AlreadySubscribed)
      else None
  }

  /** The group after one more client: grown, swapped for an unauthorised one that is larger, or started. */
  function Grown(s: State, op: Op): Group
    requires op.Subscribe? && GroupRefuses(s, op).None?
  {
    if !Live(s, op.key) then Started(op.created.value, 1)
    else
      var g := s.groups[op.key];
      if g.status.Created? then Started(op.created.value, g.quantity + 1) else g.(quantity := g.quantity + 1)
  }

  function Started(c: Created, quantity: int): Group {
    Group(c.mandate, quantity, c.status, c.currentStart, c.currentEnd, false)
  }

  function GrowCommands(s: State, op: Op): seq<Command>
    requires op.Subscribe? && GroupRefuses(s, op).None?
  {
    if !Live(s, op.key) then [CreateMandate(op.created.value.mandate, 1)]
    else
      var g := s.groups[op.key];
      if g.status.Created? then
        [CreateMandate(op.created.value.mandate, g.quantity + 1), CancelMandate(g.mandate, false)]
      else [SetQuantity(g.mandate, g.quantity + 1, false)]
  }

  function RowFor(key: GroupKey, g: Group): Client {
    Client(Some(key.agency), Some(key), g.status, g.currentStart, g.currentEnd, false)
  }

  /**
   * The group is grown first; the client's row is refused if the organisation
   * has any row already, and then its version is not moved either.
   */
  function AfterSubscribe(s: State, op: Op): State
    requires op.Subscribe? && GroupRefuses(s, op).None?
  {
    var g := Grown(s, op);
    var grown := s.(groups := s.groups[op.key := g], sent := s.sent + GrowCommands(s, op));
    if op.org in s.clients then grown
    else grown.(clients := s.clients[op.org := RowFor(op.key, g)], settings := Bump(s.settings, op.org))
  }

  /** The mandate an organisation is still riding, where that mandate is still on record. */
  predicate RidesOut(s: State, org: Id)
    requires org in s.clients
  {
    var row := s.clients[org];
    !row.cancelAtCycleEnd && row.group.Some? && row.group.value in s.groups
  }

  /** The provider will not cancel: the call ends there, with the client marked and nothing else done. */
  predicate ReleaseFails(s: State, op: Op)
    requires op.Release? && op.org in s.clients
  {
    RidesOut(s, op.org) && s.groups[s.clients[op.org].group.value].quantity <= 1 && !op.agrees
  }

  /** A smaller quantity the provider refuses is written here all the same. */
  function AfterRelease(s: State, op: Op): State
    requires op.Release? && op.org in s.clients
  {
    var row := s.clients[op.org];
    var marked := s.clients[op.org := row.(cancelAtCycleEnd := true)];
    if row.cancelAtCycleEnd then s
    else if ReleaseFails(s, op) then s.(clients := marked)
    else
      var settings := Bump(s.settings, op.org);
      if !RidesOut(s, op.org) then s.(clients := marked, settings := settings)
      else
        var key := row.group.value;
        var g := s.groups[key];
        var remaining := if g.quantity - 1 < 0 then 0 else g.quantity - 1;
        if remaining == 0
        then State(s.groups[key := g.(quantity := 0, cancelAtCycleEnd := true)], marked,
                   s.sent + [CancelMandate(g.mandate, true)], settings)
        else State(s.groups[key := g.(quantity := remaining)], marked,
                   s.sent + if op.agrees then [SetQuantity(g.mandate, remaining, true)] else [], settings)
  }

  /** Or: what the report says, where it says anything. */
  function Told(report: Option<int>, held: Option<int>): Option<int> {
    if report.Some? then report else held
  }

  function ReportedGroups(groups: map<GroupKey, Group>, mandate: string, status: Status,
                          start: Option<int>, end: Option<int>): map<GroupKey, Group> {
    map key | key in groups ::
      if groups[key].mandate == mandate
      then groups[key].(status := status, currentStart := Told(start, groups[key].currentStart),
                        currentEnd := Told(end, groups[key].currentEnd))
      else groups[key]
  }

  predicate RidesMandate(groups: map<GroupKey, Group>, c: Client, mandate: string) {
    c.group.Some? && c.group.value in groups && groups[c.group.value].mandate == mandate
  }

  function ReportedClients(groups: map<GroupKey, Group>, clients: map<Id, Client>, mandate: string, status: Status,
                           start: Option<int>, end: Option<int>): map<Id, Client> {
    map org | org in clients ::
      if RidesMandate(groups, clients[org], mandate)
      then clients[org].(status := status, currentStart := Told(start, clients[org].currentStart),
                         currentEnd := Told(end, clients[org].currentEnd))
      else clients[org]
  }

  function OnMandate(groups: map<GroupKey, Group>, clients: map<Id, Client>, mandate: string): set<Id> {
    set org | org in clients && RidesMandate(groups, clients[org], mandate)
  }

  function AgenciesOf(groups: map<GroupKey, Group>, mandate: string): set<Id> {
    set key | key in groups && groups[key].mandate == mandate :: key.agency
  }

  /** A report moves the group and every client on it, released or not, and then every one of their versions. */
  function AfterReport(s: State, op: Op): State
    requires op.ApplyToGroup?
  {
    s.(groups := ReportedGroups(s.groups, op.mandate, op.status, op.currentStart, op.currentEnd),
       clients := ReportedClients(s.groups, s.clients, op.mandate, op.status, op.currentStart, op.currentEnd),
       settings := BumpAll(BumpAll(s.settings, OnMandate(s.groups, s.clients, op.mandate)),
                           AgenciesOf(s.groups, op.mandate)))
  }

  /** The new mandate is the organisation's own; what an earlier agency left on the row stays there. */
  function AfterOwn(s: State, op: Op): State
    requires op.RegisterItself?
  {
    var row := if op.org in s.clients then s.clients[op.org] else Client(None, None, AC.Created, None, None, false);
    s.(clients := s.clients[op.org := row.(status := op.own.status, currentStart := op.own.currentStart,
                                           currentEnd := op.own.currentEnd, cancelAtCycleEnd := false)],
       settings := Bump(s.settings, op.org))
  }

  function Step(s: State, op: Op): State {
    if Refuses(s, op).Some? then s
    else match op
      case Subscribe(_, _, _, _, _) => AfterSubscribe(s, op)
      case Release(_, _, _) => AfterRelease(s, op)
      case ApplyToGroup(_, _, _, _) => AfterReport(s, op)
      case RegisterItself(_, _, _) => AfterOwn(s, op)
  }

  function Run(s: State, ops: seq<Op>): State
    decreases |ops|
  {
    if ops == [] then s else Run(Step(s, ops[0]), ops[1..])
  }

  // ---------------------------------------------------------------------------
  // Conservation
  // ---------------------------------------------------------------------------

  /** The clients a group is still paid for. */
  function Riding(s: State, key: GroupKey): set<Id> {
    set org | org in s.clients && s.clients[org].group == Some(key) && !s.clients[org].cancelAtCycleEnd
  }

  /** Each mandate is charged for exactly the clients riding it, and no client rides a mandate there is not. */
  ghost predicate Conserved(s: State) {
    && (forall key | key in s.groups :: s.groups[key].quantity == |Riding(s, key)|)
    && (forall org | org in s.clients && s.clients[org].group.Some? :: s.clients[org].group.value in s.groups)
  }

  /** A mandate that finished is being started over, at a quantity of one. */
  predicate Restarts(s: State, op: Op) {
    op.Subscribe? && op.key in s.groups && !Live(s, op.key)
  }

  /**
   * What a call that goes ahead needs.  Subscribing: the organisation has no row
   * at all, and a mandate started over has nobody left on it.  With a row
   * already there the call fails after the mandate has grown, and the numbers
   * then only agree if the restart put the quantity back where one left-over
   * client is.  Releasing: the provider cancels where it is asked to.  An
   * organisation registering for itself: no agency left its row marked to end.
   */
  predicate Clean(s: State, op: Op) {
    Refuses(s, op).None? ==>
      match op
      case Subscribe(key, org, _, _, _) =>
        if org in s.clients then Restarts(s, op) && s.groups[key].quantity == 1
        else Restarts(s, op) ==> s.groups[key].quantity == 0
      case Release(_, _, _) => !ReleaseFails(s, op)
      case ApplyToGroup(_, _, _, _) => true
      case RegisterItself(org, _, _) =>
        org in s.clients && s.clients[org].group.Some? ==> !s.clients[org].cancelAtCycleEnd
  }

  predicate AllClean(s: State, ops: seq<Op>)
    decreases |ops|
  {
    ops != [] ==> Clean(s, ops[0]) && AllClean(Step(s, ops[0]), ops[1..])
  }

  /** Who rides what after a subscription. */
  lemma RidersAfterSubscribe(s: State, op: Op, key: GroupKey)
    requires op.Subscribe? && Refuses(s, op).None?
    ensures Riding(Step(s, op), key)
            == Riding(s, key) + if op.org !in s.clients && key == op.key then {op.org} else {}
    ensures op.org !in s.clients ==> op.org !in Riding(s, key)
  {
    var t := Step(s, op);
    forall org
      ensures org in Riding(t, key) <==> org in Riding(s, key) || (org == op.org && op.org !in s.clients && key == op.key)
    {
    }
  }

  lemma NobodyRidesNothing(s: State, key: GroupKey)
    requires Conserved(s) && key !in s.groups
    ensures Riding(s, key) == {}
  {
    assert forall org | org in s.clients :: s.clients[org].group != Some(key);
  }

  /** The mandate subscribed to comes out right exactly when the call is clean. */
  lemma GrownIsRightIff(s: State, op: Op)
    requires Conserved(s) && op.Subscribe? && Refuses(s, op).None?
    ensures op.key in Step(s, op).groups
    ensures Step(s, op).groups[op.key].quantity == |Riding(Step(s, op), op.key)| <==> Clean(s, op)
  {
    RidersAfterSubscribe(s, op, op.key);
    if op.key !in s.groups { NobodyRidesNothing(s, op.key); }
    var before := |Riding(s, op.key)|;
    assert |Riding(Step(s, op), op.key)| == before + if op.org !in s.clients then 1 else 0;
    assert op.key in s.groups ==> s.groups[op.key].quantity == before;
  }

  /** Every other mandate, and every row's place, is as it was. */
  lemma OthersStayRight(s: State, op: Op)
    requires Conserved(s) && op.Subscribe? && Refuses(s, op).None?
    ensures var t := Step(s, op);
            && (forall key | key in t.groups && key != op.key :: t.groups[key].quantity == |Riding(t, key)|)
            && (forall org | org in t.clients && t.clients[org].group.Some? :: t.clients[org].group.value in t.groups)
  {
    var t := Step(s, op);
    forall key | key in t.groups && key != op.key
      ensures t.groups[key].quantity == |Riding(t, key)|
    {
      RidersAfterSubscribe(s, op, key);
    }
  }

  /** A subscription keeps every mandate's quantity right exactly when it is clean. */
  lemma SubscribeConservesIff(s: State, op: Op)
    requires Conserved(s) && op.Subscribe? && Refuses(s, op).None?
    ensures Conserved(Step(s, op)) <==> Clean(s, op)
  {
    GrownIsRightIff(s, op);
    OthersStayRight(s, op);
  }

  /** The organisation released is the only one to stop riding, and only the group it rode. */
  predicate LeavesBy(s: State, op: Op, key: GroupKey)
    requires op.Release? && op.org in s.clients
  {
    !s.clients[op.org].cancelAtCycleEnd && s.clients[op.org].group == Some(key)
  }

  lemma RidersAfterRelease(s: State, op: Op, key: GroupKey)
    requires op.Release? && op.org in s.clients
    ensures Riding(AfterRelease(s, op), key) == Riding(s, key) - if LeavesBy(s, op, key) then {op.org} else {}
    ensures LeavesBy(s, op, key) ==> op.org in Riding(s, key)
  {
    var t := AfterRelease(s, op);
    forall org
      ensures org in Riding(t, key) <==> org in Riding(s, key) && !(org == op.org && LeavesBy(s, op, key))
    {
    }
  }

  lemma ReleaseConserves(s: State, op: Op)
    requires Conserved(s) && op.Release? && Refuses(s, op).None? && !ReleaseFails(s, op)
    ensures Conserved(AfterRelease(s, op))
  {
    var t := AfterRelease(s, op);
    forall key | key in t.groups
      ensures t.groups[key].quantity == |Riding(t, key)|
    {
      RidersAfterRelease(s, op, key);
    }
  }

  lemma FailedReleaseLosesCount(s: State, op: Op)
    requires Conserved(s) && op.Release? && Refuses(s, op).None? && ReleaseFails(s, op)
    ensures !Conserved(AfterRelease(s, op))
  {
    var key := s.clients[op.org].group.value;
    RidersAfterRelease(s, op, key);
    assert AfterRelease(s, op).groups[key].quantity != |Riding(AfterRelease(s, op), key)|;
  }

  /** A release keeps the numbers right exactly when the provider does not fail it. */
  lemma ReleaseConservesIff(s: State, op: Op)
    requires Conserved(s) && op.Release? && Refuses(s, op).None?
    ensures Conserved(Step(s, op)) <==> !ReleaseFails(s, op)
  {
    if ReleaseFails(s, op) { FailedReleaseLosesCount(s, op); } else { ReleaseConserves(s, op); }
  }

  lemma RidersAfterOwn(s: State, op: Op, key: GroupKey)
    requires op.RegisterItself?
    ensures var back := op.org in s.clients && s.clients[op.org].group == Some(key);
            Riding(AfterOwn(s, op), key) == Riding(s, key) + if back then {op.org} else {}
  {
    var t := AfterOwn(s, op);
    forall org
      ensures org in Riding(t, key)
              <==> org in Riding(s, key) || (org == op.org && org in s.clients && s.clients[org].group == Some(key))
    {
    }
  }

  lemma CleanOwnKeepsRiders(s: State, op: Op, key: GroupKey)
    requires op.RegisterItself? && Refuses(s, op).None? && Clean(s, op)
    ensures Riding(AfterOwn(s, op), key) == Riding(s, key)
  {
    RidersAfterOwn(s, op, key);
    if op.org in s.clients && s.clients[op.org].group == Some(key) { assert op.org in Riding(s, key); }
  }

  lemma MarkedOwnAddsRider(s: State, op: Op)
    requires op.RegisterItself? && Refuses(s, op).None? && !Clean(s, op)
    ensures op.org in s.clients && s.clients[op.org].group.Some?
    ensures |Riding(AfterOwn(s, op), s.clients[op.org].group.value)| == |Riding(s, s.clients[op.org].group.value)| + 1
  {
    var key := s.clients[op.org].group.value;
    RidersAfterOwn(s, op, key);
    assert op.org !in Riding(s, key);
  }

  /**
   * An organisation that buys for itself keeps the numbers right exactly when no
   * agency had left its row marked to end: clearing the mark puts it back among
   * the riders of a mandate that was reduced for it.
   */
  lemma OwnRegistrationConservesIff(s: State, op: Op)
    requires Conserved(s) && op.RegisterItself? && Refuses(s, op).None?
    ensures Conserved(Step(s, op)) <==> Clean(s, op)
  {
    if Clean(s, op) {
      forall key | key in s.groups
        ensures s.groups[key].quantity == |Riding(AfterOwn(s, op), key)|
      {
        CleanOwnKeepsRiders(s, op, key);
      }
    } else {
      MarkedOwnAddsRider(s, op);
    }
  }

  lemma ReportConserves(s: State, op: Op)
    requires Conserved(s) && op.ApplyToGroup?
    ensures Conserved(Step(s, op))
  {
    var t := Step(s, op);
    forall key | key in t.groups
      ensures t.groups[key].quantity == |Riding(t, key)|
    {
      assert Riding(t, key) == Riding(s, key);
    }
  }

  /** What a report says of a period, over what was known of it. */
  predicate Reported(said: Option<int>, before: Option<int>, after: Option<int>) {
    (said.Some? ==> after == said) && (said.None? ==> after == before)
  }

  /**
   * Main result on reports.  The mandate's group and every client riding it,
   * released or not, have the status reported and the period reported, each
   * end of it their own where none is; and are otherwise as they were.  Nothing
   * off the mandate changes.
   */
  lemma ReportMovesExactlyTheMandate(s: State, op: Op)
    requires op.ApplyToGroup?
    ensures var t := Step(s, op);
            && t.groups.Keys == s.groups.Keys && t.clients.Keys == s.clients.Keys && t.sent == s.sent
            && (forall key | key in s.groups ::
                  if s.groups[key].mandate != op.mandate then t.groups[key] == s.groups[key]
                  else
                    var before, after := s.groups[key], t.groups[key];
                    && after.status == op.status
                    && Reported(op.currentStart, before.currentStart, after.currentStart)
                    && Reported(op.currentEnd, before.currentEnd, after.currentEnd)
                    && after.mandate == before.mandate && after.quantity == before.quantity
                    && after.cancelAtCycleEnd == before.cancelAtCycleEnd)
            && (forall org | org in s.clients ::
                  if !RidesMandate(s.groups, s.clients[org], op.mandate) then t.clients[org] == s.clients[org]
                  else
                    var before, after := s.clients[org], t.clients[org];
                    && after.status == op.status
                    && Reported(op.currentStart, before.currentStart, after.currentStart)
                    && Reported(op.currentEnd, before.currentEnd, after.currentEnd)
                    && after.payer == before.payer && after.group == before.group
                    && after.cancelAtCycleEnd == before.cancelAtCycleEnd)
  {
  }

  /** Main result: through any run of subscriptions, releases and reports, quantity is clients riding. */
  lemma {:induction false} EveryRunConserves(s: State, ops: seq<Op>)
    requires Conserved(s) && AllClean(s, ops)
    ensures Conserved(Run(s, ops))
    decreases |ops|
  {
    if ops != [] {
      var op := ops[0];
      if Refuses(s, op).None? {
        match op {
          case Subscribe(_, _, _, _, _) => SubscribeConservesIff(s, op);
          case Release(_, _, _) => ReleaseConservesIff(s, op);
          case ApplyToGroup(_, _, _, _) => ReportConserves(s, op);
          case RegisterItself(_, _, _) => OwnRegistrationConservesIff(s, op);
        }
      }
      EveryRunConserves(Step(s, op), ops[1..]);
    }
  }

  /** So the clamp at zero never acts, and the mandate is cancelled exactly with its last rider. */
  lemma CancelledWithTheLast(s: State, op: Op)
    requires Conserved(s) && op.Release? && Refuses(s, op).None? && op.agrees
    requires !s.clients[op.org].cancelAtCycleEnd && s.clients[op.org].group.Some?
    ensures var key := s.clients[op.org].group.value;
            var g := s.groups[key];
            && g.quantity >= 1
            && (Step(s, op).sent == s.sent + [CancelMandate(g.mandate, true)] <==> Riding(s, key) == {op.org})
            && (Riding(s, key) != {op.org} ==> Step(s, op).sent == s.sent + [SetQuantity(g.mandate, g.quantity - 1, true)])
  {
    var key := s.clients[op.org].group.value;
    assert op.org in Riding(s, key);
    if s.groups[key].quantity == 1 { SingleRider(Riding(s, key), op.org); }
    var sent := Step(s, op).sent;
    assert sent[|s.sent|] == if s.groups[key].quantity == 1 then CancelMandate(s.groups[key].mandate, true)
                             else SetQuantity(s.groups[key].mandate, s.groups[key].quantity - 1, true);
  }

  /** A reduction the provider refuses is made here and nowhere else: it goes on charging for the one released. */
  lemma RefusedReductionIsIgnored(s: State, op: Op)
    requires Conserved(s) && op.Release? && Refuses(s, op).None? && !op.agrees && RidesOut(s, op.org)
    ensures var key, t := s.clients[op.org].group.value, Step(s, op);
            && t.sent == s.sent
            && (t.groups[key].quantity == s.groups[key].quantity - 1 <==> Riding(s, key) != {op.org})
  {
    var key := s.clients[op.org].group.value;
    assert op.org in Riding(s, key);
    if s.groups[key].quantity == 1 { SingleRider(Riding(s, key), op.org); }
  }

  lemma SingleRider(riders: set<Id>, org: Id)
    requires org in riders && |riders| == 1
    ensures riders == {org}
  {
    assert |riders - {org}| == 0;
  }

  /** Releasing twice is releasing once. */
  lemma ReleaseIsIdempotent(s: State, op: Op)
    requires op.Release?
    ensures Step(Step(s, op), op) == Step(s, op)
  {
  }

  /** A released client keeps what was bought: its row's status and paid month are untouched. */
  lemma ReleaseKeepsThePaidMonth(s: State, op: Op, org: Id)
    requires op.Release? && org in s.clients
    ensures var before, after := s.clients[org], Step(s, op).clients[org];
            before.status == after.status && before.currentEnd == after.currentEnd && before.group == after.group
  {
  }

  // ---------------------------------------------------------------------------
  // What each call asks for, and what it leaves
  // ---------------------------------------------------------------------------

  /** The row's fields as a group's or an own mandate's status and period. */
  predicate HasTerms(c: Client, status: Status, start: Option<int>, end: Option<int>) {
    c.status == status && c.currentStart == start && c.currentEnd == end && !c.cancelAtCycleEnd
  }

  /** The statuses in which a mandate or a row can still be charged. */
  predicate MayCharge(status: Status) {
    status.Created? || status.Authenticated? || status.Active? || status.Pending? || status.Halted?
  }

  /**
   * Main result on taking a client on.  The plan is on offer, the organisation
   * has nothing that can still be charged, and the agency's mandate for the plan
   * takes one more: authorised, not ending, and with the provider's agreement;
   * or it has none alive, or one nobody authorised, and the provider makes one.
   * Otherwise nothing changes.  The client's row is the mandate's own terms.
   */
  lemma SubscribeIff(s: State, op: Op)
    requires op.Subscribe?
    ensures var key, org, t := op.key, op.org, Step(s, op);
            var alive := key in s.groups && MayCharge(s.groups[key].status);
            var grows := alive && (s.groups[key].status.Active? || s.groups[key].status.Authenticated?);
            var starts := !alive || s.groups[key].status.Created?;
            var may := && op.onOffer && (org in s.clients ==> !MayCharge(s.clients[org].status))
                       && (alive ==> !s.groups[key].cancelAtCycleEnd)
                       && ((grows && op.agrees) || (starts && op.created.Some?));
            && (Refuses(s, op).None? <==> may)
            && (!may ==> t == s)
            && (may ==>
                  && key in t.groups
                  && t.groups[key].quantity == (if alive then s.groups[key].quantity + 1 else 1)
                  && (grows ==> t.groups[key] == s.groups[key].(quantity := t.groups[key].quantity))
                  && (starts ==>
                        var g, made := t.groups[key], op.created.value;
                        && g.mandate == made.mandate && g.status == made.status && !g.cancelAtCycleEnd
                        && g.currentStart == made.currentStart && g.currentEnd == made.currentEnd)
                  && t.groups.Keys == s.groups.Keys + {key}
                  && (forall other | other in s.groups && other != key :: t.groups[other] == s.groups[other])
                  && (org in s.clients ==> t.clients == s.clients && t.settings == s.settings)
                  && (org !in s.clients ==>
                        && t.clients.Keys == s.clients.Keys + {org}
                        && t.clients[org].payer == Some(key.agency) && t.clients[org].group == Some(key)
                        && HasTerms(t.clients[org], t.groups[key].status, t.groups[key].currentStart, t.groups[key].currentEnd)
                        && t.settings == Bump(s.settings, org)
                        && forall other | other in s.clients :: t.clients[other] == s.clients[other]))
  {
  }

  /**
   * Main result on letting a client go.  Only the one paying for it may, and it
   * is marked to end and otherwise as it was.  Of the mandate it rode only the
   * quantity moves, by one and not below nothing, and it ends with its last rider
   * if the provider cancels it; if the provider will not, the mark is all there is.
   */
  lemma ReleaseIff(s: State, op: Op)
    requires op.Release?
    ensures var org, t := op.org, Step(s, op);
            var may := org in s.clients && s.clients[org].payer == Some(op.agency) && !s.clients[org].cancelAtCycleEnd;
            && (!may ==> t == s)
            && (may ==>
                  var before := s.clients[org];
                  var rode := before.group.Some? && before.group.value in s.groups;
                  && t.clients == s.clients[org := before.(cancelAtCycleEnd := true)]
                  && t.groups.Keys == s.groups.Keys
                  && (forall key | key in s.groups && before.group != Some(key) :: t.groups[key] == s.groups[key])
                  && (rode ==>
                        var g, after := s.groups[before.group.value], t.groups[before.group.value];
                        var last := g.quantity <= 1;
                        && after.mandate == g.mandate && after.status == g.status
                        && after.currentStart == g.currentStart && after.currentEnd == g.currentEnd
                        && (last && op.agrees ==> after.quantity == 0 && after.cancelAtCycleEnd)
                        && (last && !op.agrees ==> after == g)
                        && (!last ==> after.quantity == g.quantity - 1 && after.cancelAtCycleEnd == g.cancelAtCycleEnd))
                  && t.settings == if rode && s.groups[before.group.value].quantity <= 1 && !op.agrees
                                   then s.settings else Bump(s.settings, org))
  {
  }

  /** One more is charged for at once; one fewer, or nobody, when the month already paid for ends. */
  lemma GrowsAtOnceShrinksAtTheEnd(s: State, op: Op)
    ensures var before, after := s.sent, Step(s, op).sent;
            && |before| <= |after| && after[..|before|] == before
            && (after != before ==> op.Subscribe? || op.Release?)
            && forall i | |before| <= i < |after| ::
                 after[i].CreateMandate? || (after[i].atCycleEnd <==> op.Release?)
  {
  }

  /** An organisation registers for itself unless somebody pays for it or it has what can still be charged. */
  lemma RegisterItselfIff(s: State, op: Op)
    requires op.RegisterItself?
    ensures var org, t := op.org, Step(s, op);
            var may := !op.viaAgency && (org in s.clients ==> !MayCharge(s.clients[org].status));
            && (!may ==> t == s)
            && (may ==>
                  && t.groups == s.groups && t.sent == s.sent && t.settings == Bump(s.settings, org)
                  && t.clients.Keys == s.clients.Keys + {org}
                  && HasTerms(t.clients[org], op.own.status, op.own.currentStart, op.own.currentEnd)
                  && t.clients[org].payer == (if org in s.clients then s.clients[org].payer else None)
                  && t.clients[org].group == (if org in s.clients then s.clients[org].group else None)
                  && forall other | other in s.clients && other != org :: t.clients[other] == s.clients[other])
  {
  }

  // ---------------------------------------------------------------------------
  // What the provider charges for
  // ---------------------------------------------------------------------------

  /** How many a mandate is charged for, by what the provider has agreed to. */
  function Charged(sent: seq<Command>, mandate: string): int {
    if sent == [] then 0
    else
      var last := sent[|sent| - 1];
      if last.mandate != mandate then Charged(sent[..|sent| - 1], mandate)
      else if last.CancelMandate? then 0
      else last.quantity
  }

  /** No two groups share a mandate, and the provider charges each for the quantity recorded. */
  ghost predicate Agreed(s: State) {
    && (forall a, b | a in s.groups && b in s.groups && s.groups[a].mandate == s.groups[b].mandate :: a == b)
    && forall key | key in s.groups :: Charged(s.sent, s.groups[key].mandate) == s.groups[key].quantity
  }

  /** The provider names a mandate it makes as it has named no other. */
  predicate NamesAnew(s: State, op: Op) {
    op.Subscribe? && op.created.Some? ==> forall key | key in s.groups :: s.groups[key].mandate != op.created.value.mandate
  }

  /** A smaller quantity the provider will not have. */
  predicate ReductionRefused(s: State, op: Op) {
    && op.Release? && !op.agrees && op.org in s.clients && s.clients[op.org].payer == Some(op.agency)
    && RidesOut(s, op.org) && s.groups[s.clients[op.org].group.value].quantity > 1
  }

  lemma ChargedAfter(sent: seq<Command>, c: Command, mandate: string)
    ensures Charged(sent + [c], mandate)
            == if c.mandate != mandate then Charged(sent, mandate) else if c.CancelMandate? then 0 else c.quantity
  {
    assert (sent + [c])[..|sent|] == sent;
  }

  lemma ChargedAfterSwap(sent: seq<Command>, made: Command, dropped: Command, mandate: string)
    requires made.CreateMandate? && dropped.CancelMandate? && made.mandate != dropped.mandate
    ensures Charged(sent + [made, dropped], mandate)
            == if mandate == dropped.mandate then 0
               else if mandate == made.mandate then made.quantity else Charged(sent, mandate)
  {
    assert sent + [made, dropped] == (sent + [made]) + [dropped];
    ChargedAfter(sent, made, mandate);
    ChargedAfter(sent + [made], dropped, mandate);
  }

  lemma ChargedGrown(s: State, op: Op, mandate: string)
    requires NamesAnew(s, op) && op.Subscribe? && Refuses(s, op).None?
    ensures Charged(s.sent + GrowCommands(s, op), mandate)
            == if mandate == Grown(s, op).mandate then Grown(s, op).quantity
               else if Live(s, op.key) && mandate == s.groups[op.key].mandate then 0
               else Charged(s.sent, mandate)
  {
    if !Live(s, op.key) {
      ChargedAfter(s.sent, CreateMandate(op.created.value.mandate, 1), mandate);
    } else {
      var g := s.groups[op.key];
      if g.status.Created? {
        ChargedAfterSwap(s.sent, CreateMandate(op.created.value.mandate, g.quantity + 1), CancelMandate(g.mandate, false), mandate);
      } else {
        ChargedAfter(s.sent, SetQuantity(g.mandate, g.quantity + 1, false), mandate);
      }
    }
  }

  lemma GrowingAgrees(s: State, op: Op)
    requires Agreed(s) && NamesAnew(s, op) && op.Subscribe? && Refuses(s, op).None?
    ensures Agreed(Step(s, op))
  {
    var t, key := Step(s, op), op.key;
    assert t.groups == s.groups[key := Grown(s, op)] && t.sent == s.sent + GrowCommands(s, op);
    forall k | k in t.groups
      ensures Charged(t.sent, t.groups[k].mandate) == t.groups[k].quantity
    {
      ChargedGrown(s, op, t.groups[k].mandate);
    }
  }

  lemma ShrinkingAgreesIff(s: State, op: Op)
    requires Agreed(s) && op.Release? && Refuses(s, op).None?
    requires forall key | key in s.groups :: s.groups[key].quantity >= 0
    ensures Agreed(Step(s, op)) <==> !ReductionRefused(s, op)
  {
    var t := Step(s, op);
    assert s.sent + [] == s.sent;
    forall k | k in t.groups
      ensures Charged(t.sent, t.groups[k].mandate) == t.groups[k].quantity
              <==> !(ReductionRefused(s, op) && s.clients[op.org].group == Some(k))
    {
      if RidesOut(s, op.org) && op.agrees {
        var g := s.groups[s.clients[op.org].group.value];
        ChargedAfter(s.sent, CancelMandate(g.mandate, true), t.groups[k].mandate);
        ChargedAfter(s.sent, SetQuantity(g.mandate, g.quantity - 1, true), t.groups[k].mandate);
      }
    }
  }

  /** A call leaves the provider charging for the quantities recorded exactly unless it would not have a smaller one. */
  lemma StepAgreesIff(s: State, op: Op)
    requires Agreed(s) && NamesAnew(s, op)
    requires forall key | key in s.groups :: s.groups[key].quantity >= 0
    ensures Agreed(Step(s, op)) <==> !ReductionRefused(s, op)
  {
    if Refuses(s, op).None? {
      if op.Subscribe? { GrowingAgrees(s, op); }
      if op.Release? { ShrinkingAgreesIff(s, op); }
    }
  }

  ghost predicate ChargesForRiders(s: State) {
    forall key | key in s.groups :: Charged(s.sent, s.groups[key].mandate) == |Riding(s, key)|
  }

  predicate AllAgreed(s: State, ops: seq<Op>)
    decreases |ops|
  {
    ops != [] ==> Clean(s, ops[0]) && NamesAnew(s, ops[0]) && !ReductionRefused(s, ops[0]) && AllAgreed(Step(s, ops[0]), ops[1..])
  }

  /**
   * Main result on money: through any run of clean calls in which the provider
   * refuses no reduction, it charges each mandate for exactly the clients riding it.
   */
  lemma {:induction false} ProviderChargesForRiders(s: State, ops: seq<Op>)
    requires Conserved(s) && Agreed(s) && AllAgreed(s, ops)
    ensures ChargesForRiders(Run(s, ops))
    decreases |ops|
  {
    if ops != [] {
      StepConserves(s, ops[0]);
      StepAgreesIff(s, ops[0]);
      ProviderChargesForRiders(Step(s, ops[0]), ops[1..]);
    }
  }

  // ---------------------------------------------------------------------------
  // Whose cached answers a call moves
  // ---------------------------------------------------------------------------

  /** Taking a client on, or releasing it, moves its cache key exactly if it is its own payer. */
  lemma OwnBumpMovesKeyIff(s: State, op: Op)
    requires (op.Subscribe? && Refuses(s, op).None? && op.org !in s.clients)
             || (op.Release? && Refuses(s, op).None? && !s.clients[op.org].cancelAtCycleEnd && !ReleaseFails(s, op))
    ensures CacheVersionFor(Step(s, op).settings, op.org) != CacheVersionFor(s.settings, op.org)
            <==> BillingOrgFor(s.settings, op.org) == op.org
  {
    BumpMovesKeyIff(s.settings, op.org, op.org);
  }

  lemma BumpAllMovesKeyIff(rows: Rows, orgs: set<Id>, org: Id)
    ensures BillingOrgFor(BumpAll(rows, orgs), org) == BillingOrgFor(rows, org)
    ensures CacheVersionFor(BumpAll(rows, orgs), org)
            == CacheVersionFor(rows, org) + if BillingOrgFor(rows, org) in orgs then 1 else 0
  {
  }

  /** A report reaches everyone on the mandate, whether the agency still pays for them or they do. */
  lemma ReportMovesEveryKey(s: State, op: Op, org: Id)
    requires op.ApplyToGroup? && org in s.clients && RidesMandate(s.groups, s.clients[org], op.mandate)
    requires BillingOrgFor(s.settings, org) in {org, s.clients[org].group.value.agency}
    ensures CacheVersionFor(s.settings, org) < CacheVersionFor(Step(s, op).settings, org)
  {
    var riders, agencies := OnMandate(s.groups, s.clients, op.mandate), AgenciesOf(s.groups, op.mandate);
    BumpAllMovesKeyIff(s.settings, riders, org);
    BumpAllMovesKeyIff(BumpAll(s.settings, riders), agencies, org);
    assert org in riders && s.clients[org].group.value.agency in agencies;
  }

  // ---------------------------------------------------------------------------
  // From nothing to a mandate that charges for nobody
  // ---------------------------------------------------------------------------

  const NOTHING := State(map[], map[], [], map[])

  function TakesOn(plan: nat, org: Id, mandate: string): Op {
    Subscribe(GroupKey("agency", plan), org, true, true, Some(Created(mandate, AC.Active, None, None)))
  }

  const FIRST := GroupKey("agency", 1)
  const SECOND := GroupKey("agency", 2)
  const FIRST_ENDS := Op.ApplyToGroup("m1", AC.Cancelled, None, None)

  lemma RunFour(s: State, a: Op, b: Op, c: Op, d: Op)
    ensures Run(s, [a, b, c, d]) == Step(Step(Step(Step(s, a), b), c), d)
  {
    var ops := [a, b, c, d];
    var s1 := Step(s, a);
    var s2 := Step(s1, b);
    var s3 := Step(s2, c);
    assert Run(Step(s3, d), ops[4..]) == Step(s3, d);
    assert Run(s3, ops[3..]) == Step(s3, d);
    assert Run(s2, ops[2..]) == Step(s3, d);
    assert Run(s1, ops[1..]) == Step(s3, d);
  }

  function Rider(key: GroupKey, status: Status): Client {
    Client(Some(key.agency), Some(key), status, None, None, false)
  }

  /** One client on each of two plans, the first plan's mandate as given. */
  ghost predicate TwoPlans(s: State, first: Status) {
    && s.groups == map[FIRST := Group("m1", 1, first, None, None, false),
                       SECOND := Group("m2", 1, AC.Active, None, None, false)]
    && s.clients == map["a" := Rider(FIRST, first), "b" := Rider(SECOND, AC.Active)]
  }

  lemma BothTakenOn()
    ensures TwoPlans(Step(Step(NOTHING, TakesOn(1, "a", "m1")), TakesOn(2, "b", "m2")), AC.Active)
  {
  }

  lemma FirstGroupEnds(s: State)
    requires TwoPlans(s, AC.Active)
    ensures ReportedGroups(s.groups, "m1", AC.Cancelled, None, None)
            == map[FIRST := Group("m1", 1, AC.Cancelled, None, None, false),
                   SECOND := Group("m2", 1, AC.Active, None, None, false)]
  {
    assert s.groups[FIRST].mandate == "m1" && s.groups[SECOND].mandate != "m1";
  }

  lemma FirstClientEnds(s: State)
    requires TwoPlans(s, AC.Active)
    ensures ReportedClients(s.groups, s.clients, "m1", AC.Cancelled, None, None)
            == map["a" := Rider(FIRST, AC.Cancelled), "b" := Rider(SECOND, AC.Active)]
  {
    assert RidesMandate(s.groups, s.clients["a"], "m1") && !RidesMandate(s.groups, s.clients["b"], "m1");
  }

  lemma FirstEnds(s: State)
    requires TwoPlans(s, AC.Active)
    ensures TwoPlans(Step(s, FIRST_ENDS), AC.Cancelled)
  {
    FirstGroupEnds(s);
    FirstClientEnds(s);
  }

  lemma GrownInVain(s: State)
    requires TwoPlans(s, AC.Cancelled)
    ensures var t := Step(s, TakesOn(2, "a", "m3"));
            SECOND in t.groups && t.groups[SECOND].quantity == 2 && Riding(t, SECOND) == {"b"}
  {
    var t := Step(s, TakesOn(2, "a", "m3"));
    assert t.clients == s.clients;
    assert Riding(t, SECOND) == {"b"};
  }

  /**
   * Two clients on two plans; the first one's mandate ends; the agency then puts
   * it on the second plan.  That mandate goes to two and the call fails, with
   * one client riding it.
   */
  lemma QuantityCanExceedRiders()
    ensures var t := Run(NOTHING, [TakesOn(1, "a", "m1"), TakesOn(2, "b", "m2"), FIRST_ENDS, TakesOn(2, "a", "m3")]);
            SECOND in t.groups && t.groups[SECOND].quantity == 2 && Riding(t, SECOND) == {"b"}
  {
    RunFour(NOTHING, TakesOn(1, "a", "m1"), TakesOn(2, "b", "m2"), FIRST_ENDS, TakesOn(2, "a", "m3"));
    var s2 := Step(Step(NOTHING, TakesOn(1, "a", "m1")), TakesOn(2, "b", "m2"));
    BothTakenOn();
    FirstEnds(s2);
    GrownInVain(Step(s2, FIRST_ENDS));
  }

  /** One client, released, on a mandate with this status. */
  ghost predicate Released(s: State, status: Status) {
    && s.groups == map[FIRST := Group("m1", 0, status, None, None, true)]
    && s.clients == map["a" := Rider(FIRST, status).(cancelAtCycleEnd := true)]
  }

  lemma TakenOnAndReleased()
    ensures Released(Step(Step(NOTHING, TakesOn(1, "a", "m1")), Release("agency", "a", true)), AC.Active)
  {
  }

  lemma ReleasedEnds(s: State)
    requires Released(s, AC.Active)
    ensures Released(Step(s, FIRST_ENDS), AC.Cancelled)
  {
    assert RidesMandate(s.groups, s.clients["a"], "m1");
  }

  lemma RidesAgain(s: State, own: Created)
    requires Released(s, AC.Cancelled)
    ensures var t := Step(s, RegisterItself("a", false, own));
            FIRST in t.groups && t.groups[FIRST].quantity == 0 && Riding(t, FIRST) == {"a"}
  {
    var t := Step(s, RegisterItself("a", false, own));
    assert t.clients["a"].group == Some(FIRST) && !t.clients["a"].cancelAtCycleEnd;
    assert Riding(t, FIRST) == {"a"};
  }

  /** Released, ended, and then registered for itself: the client counts again on a mandate reduced to none. */
  lemma RidersCanExceedQuantity(own: Created)
    ensures var t := Run(NOTHING, [TakesOn(1, "a", "m1"), Release("agency", "a", true), FIRST_ENDS,
                                   RegisterItself("a", false, own)]);
            FIRST in t.groups && t.groups[FIRST].quantity == 0 && Riding(t, FIRST) == {"a"}
  {
    RunFour(NOTHING, TakesOn(1, "a", "m1"), Release("agency", "a", true), FIRST_ENDS, RegisterItself("a", false, own));
    var s2 := Step(Step(NOTHING, TakesOn(1, "a", "m1")), Release("agency", "a", true));
    TakenOnAndReleased();
    ReleasedEnds(s2);
    RidesAgain(Step(s2, FIRST_ENDS), own);
  }

  /** Released while the provider will not cancel: the mandate charges for one and nobody rides it. */
  lemma FailedReleaseStillCharges()
    ensures var t := Run(NOTHING, [TakesOn(1, "a", "m1"), Release("agency", "a", false)]);
            FIRST in t.groups && t.groups[FIRST].quantity == 1 && Riding(t, FIRST) == {}
  {
    var ops := [TakesOn(1, "a", "m1"), Release("agency", "a", false)];
    var s1 := Step(NOTHING, ops[0]);
    var t := Step(s1, ops[1]);
    assert Run(t, ops[2..]) == t;
    assert Run(s1, ops[1..]) == t;
    assert t.clients == map["a" := Rider(FIRST, AC.Active).(cancelAtCycleEnd := true)];
    assert Riding(t, FIRST) == {};
  }

  // ---------------------------------------------------------------------------
  // The service
  // ---------------------------------------------------------------------------

  class AgencyBillingService {
    var groups: map<GroupKey, Group>
    var clients: map<Id, Client>
    var sent: seq<Command>
    const settings: OrganisationSettings

    constructor (settings: OrganisationSettings)
      ensures this.settings == settings && Now() == State(map[], map[], [], settings.rows)
    {
      this.settings := settings;
      groups, clients, sent := map[], map[], [];
    }

    function Now(): State
      reads this, settings
    {
      State(groups, clients, sent, settings.rows)
    }

    method SubscribeClient(key: GroupKey, org: Id, onOffer: bool, agrees: bool, created: Option<Created>)
      returns (refused: Option<Refusal>)
      modifies this, settings
      ensures Now() == old(Step(Now(), Subscribe(key, org, onOffer, agrees, created)))
      ensures old(Conserved(Now()) && Clean(Now(), Subscribe(key, org, onOffer, agrees, created))) ==> Conserved(Now())
      ensures refused == if old(Refuses(Now(), Subscribe(key, org, onOffer, agrees, created))).Some?
                         then old(Refuses(Now(), Subscribe(key, org, onOffer, agrees, created)))
                         else if old(org in clients) then Some(RowExists) else None
    {
      StepConserves(Now(), Subscribe(key, org, onOffer, agrees, created));
      if !onOffer {
        return Some(NotOnOffer);
      }
      if org in clients && !S.IsFinished(clients[org].status) {
        return Some(AlreadySubscribed);
      }
      refused := GroupFor(key, org, agrees, created);
      if refused.Some? {
        return;
      }
      if org in clients {
        return Some(RowExists);
      }
      clients := clients[org := RowFor(key, groups[key])];
      settings.BumpPayerVersion(org);
      return None;
    }

    /** The group after one more client, or untouched with the reason why not. */
    method GroupFor(key: GroupKey, org: Id, agrees: bool, created: Option<Created>) returns (refused: Option<Refusal>)
      modifies this`groups, this`sent
      ensures var op := Subscribe(key, org, true, agrees, created);
              && refused == old(GroupRefuses(Now(), op))
              && (refused.Some? ==> groups == old(groups) && sent == old(sent))
              && (refused.None? ==> groups == old(groups)[key := old(Grown(Now(), op))]
                                    && sent == old(sent) + old(GrowCommands(Now(), op)))
    {
      if key in groups && !S.IsFinished(groups[key].status) {
        var existing := groups[key];
        if existing.cancelAtCycleEnd {
          return Some(MandateEnding);
        }
        if existing.status.Created? {
          refused := ReplaceUnauthorised(key, created);
          return;
        }
        if !existing.status.Active? && !existing.status.Authenticated? {
          return Some(MandateNotLive);
        }
        var quantity := existing.quantity + 1;
        if !agrees {
          return Some(ProviderRefused);
        }
        sent := sent + [SetQuantity(existing.mandate, quantity, false)];
        groups := groups[key := existing.(quantity := quantity)];
        return None;
      }
      if created.None? {
        return Some(ProviderRefused);
      }
      sent := sent + [CreateMandate(created.value.mandate, 1)];
      groups := groups[key := Started(created.value, 1)];
      return None;
    }

    /** The larger mandate is created before the unauthorised one is cancelled; if it cannot be, nothing is. */
    method ReplaceUnauthorised(key: GroupKey, created: Option<Created>) returns (refused: Option<Refusal>)
      requires key in groups && !groups[key].cancelAtCycleEnd
      modifies this`groups, this`sent
      ensures refused == if created.None? then Some(ProviderRefused) else None
      ensures created.None? ==> groups == old(groups) && sent == old(sent)
      ensures created.Some? ==>
                && groups == old(groups)[key := Started(created.value, old(groups[key]).quantity + 1)]
                && sent == old(sent) + [CreateMandate(created.value.mandate, old(groups[key]).quantity + 1),
                                        CancelMandate(old(groups[key]).mandate, false)]
    {
      var existing := groups[key];
      var quantity := existing.quantity + 1;
      if created.None? {
        return Some(ProviderRefused);
      }
      sent := sent + [CreateMandate(created.value.mandate, quantity)];
      sent := sent + [CancelMandate(existing.mandate, false)];
      groups := groups[key := existing.(mandate := created.value.mandate, quantity := quantity,
                                        status := created.value.status,
                                        currentStart := created.value.currentStart,
                                        currentEnd := created.value.currentEnd)];
      return None;
    }

    /** `agrees` is whether the provider does as it is asked; a refused cancellation ends the call half done. */
    method ReleaseClient(agency: Id, org: Id, agrees: bool) returns (refused: Option<Refusal>)
      modifies this, settings
      ensures Now() == old(Step(Now(), Release(agency, org, agrees)))
      ensures refused == if old(Refuses(Now(), Release(agency, org, agrees))).Some? then Some(NotItsClient)
                         else if old(ReleaseFails(Now(), Release(agency, org, agrees))) then Some(ProviderRefused)
                         else None
      ensures old(Conserved(Now())) && refused != Some(ProviderRefused) ==> Conserved(Now())
    {
      StepConserves(Now(), Release(agency, org, agrees));
      if org !in clients || clients[org].payer != Some(agency) {
        return Some(NotItsClient);
      }
      var sub := clients[org];
      if sub.cancelAtCycleEnd {
        return None;
      }
      clients := clients[org := sub.(cancelAtCycleEnd := true)];
      if sub.group.Some? && sub.group.value in groups {
        var group := groups[sub.group.value];
        var remaining := if group.quantity - 1 > 0 then group.quantity - 1 else 0;
        if remaining == 0 {
          if !agrees {
            return Some(ProviderRefused);
          }
          sent := sent + [CancelMandate(group.mandate, true)];
          groups := groups[sub.group.value := group.(quantity := 0, cancelAtCycleEnd := true)];
        } else {
          if agrees {
            sent := sent + [SetQuantity(group.mandate, remaining, true)];
          }
          groups := groups[sub.group.value := group.(quantity := remaining)];
        }
      }
      settings.BumpPayerVersion(org);
      return None;
    }

    /** One report moves the group and everyone on it together; it never changes who is paid for. */
    method ApplyToGroup(mandate: string, status: Status, currentStart: Option<int>, currentEnd: Option<int>)
      returns (applied: bool)
      modifies this, settings
      ensures Now() == old(Step(Now(), Op.ApplyToGroup(mandate, status, currentStart, currentEnd)))
      ensures applied <==> exists key :: key in old(groups) && old(groups)[key].mandate == mandate
      ensures old(Conserved(Now())) ==> Conserved(Now())
    {
      StepConserves(Now(), Op.ApplyToGroup(mandate, status, currentStart, currentEnd));
      var known := groups;
      var riders, agencies := OnMandate(known, clients, mandate), AgenciesOf(known, mandate);
      applied := exists key | key in known :: known[key].mandate == mandate;
      groups := ReportedGroups(known, mandate, status, currentStart, currentEnd);
      clients := ReportedClients(known, clients, mandate, status, currentStart, currentEnd);
      InvalidateEach(riders);
      InvalidateEach(agencies);
    }

    method InvalidateEach(orgs: set<Id>)
      modifies settings
      ensures settings.rows == BumpAll(old(settings.rows), orgs)
    {
      var todo := orgs;
      assert BumpAll(settings.rows, {}) == settings.rows;
      while todo != {}
        invariant todo <= orgs
        invariant settings.rows == BumpAll(old(settings.rows), orgs - todo)
        decreases |todo|
      {
        var org :| org in todo;
        LeavesOneFewer(old(settings.rows), orgs, todo, org);
        settings.BumpPayerVersion(org);
        todo := todo - {org};
      }
      assert orgs - todo == orgs;
    }
  }

  lemma LeavesOneFewer(rows: Rows, orgs: set<Id>, todo: set<Id>, org: Id)
    requires org in todo && todo <= orgs
    ensures BumpAll(rows, orgs - (todo - {org})) == Bump(BumpAll(rows, orgs - todo), org)
  {
    BumpAllOneMore(rows, orgs - todo, org);
    assert orgs - (todo - {org}) == orgs - todo + {org};
  }

  lemma StepConserves(s: State, op: Op)
    ensures Conserved(s) && Clean(s, op) ==> Conserved(Step(s, op))
  {
    if Conserved(s) && Clean(s, op) {
      assert Run(Step(s, op), []) == Step(s, op);
      assert [op][1..] == [];
      EveryRunConserves(s, [op]);
    }
  }
}
