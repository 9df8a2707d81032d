/**
 * Histories of the paywall's cache: which bump makes a new subscription visible,
 * and when moving an organisation between payers brings an old answer back.
 */
module AccessHistory {
  import opened Options
  import opened Redis
  import opened OrgSettings
  import opened AccessCache
  import opened AccessPromises
  import Agency

  lemma RunStep(w: World, e: Event, v: World, es: seq<Event>)
    requires Enabled(w, e) && Apply(w, e) == v
    ensures RunFrom(w, [e] + es) == RunFrom(v, es)
  {
    assert ([e] + es)[1..] == es;
  }

  lemma RunNone(w: World)
    ensures RunFrom(w, []) == Some(w)
  {
  }

  // ---------------------------------------------------------------------------
  // The first step of a question
  // ---------------------------------------------------------------------------

  /** Reader `c` asks about an organisation, as far as the cache's reply. */
  function Question(c: nat, org: Id, waba: Id): seq<Event> {
    [Start(c, org, waba), AskVersion(c), AskCache(c)]
  }

  /** Some live answer stands under this version. */
  predicate Cached(w: World, org: Id, waba: Id, n: nat) {
    AccessAt(w.store, Scope(org, waba, n), w.now).Some?
  }

  /** A question is answered from the cache exactly when its payer's version has a live answer, and with that answer. */
  lemma QuestionHitsIff(w: World, c: nat, org: Id, waba: Id)
    requires w.dbs != [] && c !in w.readers
    ensures var r := RunFrom(w, Question(c, org, waba));
            var n := CacheVersionFor(w.rows, org);
            && r.Some? && c in r.value.readers
            && (r.value.readers[c].pc.Finished? <==> Cached(w, org, waba, n))
            && (Cached(w, org, waba, n) ==>
                  r.value.readers[c].pc.allowed == AccessAt(w.store, Scope(org, waba, n), w.now).value)
  {
    var p := BillingOrgFor(w.rows, org);
    var n := VersionOf(w.rows, p);
    var started := Set(w, c, Reader(org, waba, p, 0, 0, AskingVersion));
    var versioned := Set(w, c, Reader(org, waba, p, n, Covered(w, p, n), AskingCache));
    var asked := Apply(versioned, AskCache(c));
    assert started.readers[c := versioned.readers[c]] == versioned.readers;
    RunNone(asked);
    RunStep(versioned, AskCache(c), asked, []);
    RunStep(started, AskVersion(c), versioned, [AskCache(c)]);
    RunStep(w, Start(c, org, waba), started, [AskVersion(c), AskCache(c)]);
    assert [AskCache(c)] + [] == [AskCache(c)];
    assert [AskVersion(c)] + [AskCache(c)] == [AskVersion(c), AskCache(c)];
    assert [Start(c, org, waba)] + [AskVersion(c), AskCache(c)] == Question(c, org, waba);
  }

  // ---------------------------------------------------------------------------
  // Moving an organisation
  // ---------------------------------------------------------------------------

  /** The writes of a call that moves an organisation, in their order. */
  function MoveEvents(op: Agency.Op): seq<Event>
    requires op.Attach? || op.Detach?
  {
    if op.Attach? then [MoveOrg(op.org, Some(op.agency))]
    else (if op.released then [BumpVersion(op.org)] else []) + [MoveOrg(op.org, None)]
  }

  /** The version an organisation's questions carry once it has been moved. */
  function VersionAfter(rows: Rows, op: Agency.Op): nat
    requires op.Attach? || op.Detach?
  {
    if op.Attach? then VersionOf(rows, op.agency) else VersionOf(rows, op.org) + if op.released then 2 else 1
  }

  lemma MovesSettings(w: World, op: Agency.Op)
    requires w.dbs != [] && (op.Attach? || op.Detach?) && Agency.Refuses(w.rows, op).None?
    ensures var r := RunFrom(w, MoveEvents(op));
            && r.Some? && r.value.dbs != [] && r.value.store == w.store && r.value.now == w.now
            && r.value.readers == w.readers && Agency.PayAlike(r.value.rows, Agency.Next(w.rows, op))
            && CacheVersionFor(r.value.rows, op.org) == VersionAfter(w.rows, op)
  {
    Agency.NextIsMoves(w.rows, op);
    if op.Attach? {
      var moved := Apply(w, MoveOrg(op.org, Some(op.agency)));
      RunNone(moved);
      RunStep(w, MoveOrg(op.org, Some(op.agency)), moved, []);
      assert [MoveOrg(op.org, Some(op.agency))] + [] == MoveEvents(op);
    } else {
      var bumped := if op.released then Apply(w, BumpVersion(op.org)) else w;
      var moved := Apply(bumped, MoveOrg(op.org, None));
      RunNone(moved);
      RunStep(bumped, MoveOrg(op.org, None), moved, []);
      assert [MoveOrg(op.org, None)] + [] == [MoveOrg(op.org, None)];
      if op.released { RunStep(w, BumpVersion(op.org), bumped, [MoveOrg(op.org, None)]); }
      assert MoveEvents(op) == if op.released then [BumpVersion(op.org)] + [MoveOrg(op.org, None)] else [MoveOrg(op.org, None)];
    }
  }

  /**
   * Main result on moving.  Once an organisation has been attached or detached,
   * its next question is answered with something from before the move exactly
   * when a live answer stands under the version it has been moved to: the
   * agency's on the way in; its own moved once on the way out, or twice if the
   * release went through.
   */
  lemma MoveExposesIff(w: World, op: Agency.Op, c: nat, waba: Id)
    requires w.dbs != [] && c !in w.readers
    requires (op.Attach? || op.Detach?) && Agency.Refuses(w.rows, op).None?
    ensures var r := RunFrom(w, MoveEvents(op) + Question(c, op.org, waba));
            && r.Some? && c in r.value.readers
            && (r.value.readers[c].pc.Finished? <==> Cached(w, op.org, waba, VersionAfter(w.rows, op)))
  {
    MovesSettings(w, op);
    var moved := RunFrom(w, MoveEvents(op)).value;
    QuestionHitsIff(moved, c, op.org, waba);
    RunAppend(w, MoveEvents(op), Question(c, op.org, waba));
  }

  /** In any history, what a move can bring back was worked out under a minute before. */
  lemma ExposedIsRecent(now: int, rows: Rows, db: Db, es: seq<Event>, org: Id, waba: Id, n: nat)
    ensures var r := RunFrom(Init(now, rows, db), es);
            r.Some? && Cached(r.value, org, waba, n) ==>
              && Scope(org, waba, n) in r.value.filled
              && var ev := r.value.filled[Scope(org, waba, n)];
              && ev.at <= r.value.now < ev.at + 60000
              && EvidenceOk(r.value, org, waba, AccessAt(r.value.store, Scope(org, waba, n), r.value.now).value, ev, 0)
  {
    InvHoldsAlong(Init(now, rows, db), es);
    var r := RunFrom(Init(now, rows, db), es);
    if r.Some? { assert EntryOk(r.value, org, waba, n); }
  }

  /** After any history, a minute on no answer given before is given again: whoever asks then is read the tables. */
  lemma AMinuteForgets(now: int, rows: Rows, db: Db, es: seq<Event>, to: int, c: nat, org: Id, waba: Id)
    requires RunFrom(Init(now, rows, db), es).Some?
    requires var v := RunFrom(Init(now, rows, db), es).value; v.now + 60000 <= to && c !in v.readers
    ensures var r := RunFrom(RunFrom(Init(now, rows, db), es).value, [Tick(to)] + Question(c, org, waba));
            r.Some? && c in r.value.readers && !r.value.readers[c].pc.Finished?
  {
    InvHoldsAlong(Init(now, rows, db), es);
    var v := RunFrom(Init(now, rows, db), es).value;
    var later := Apply(v, Tick(to));
    assert EntryOk(v, org, waba, CacheVersionFor(v.rows, org));
    RunStep(v, Tick(to), later, Question(c, org, waba));
    QuestionHitsIff(later, c, org, waba);
  }

  // ---------------------------------------------------------------------------
  // A first question, about an organisation that holds nothing
  // ---------------------------------------------------------------------------

  /** Reader 0 asks, finds nothing of the organisation's or of its payer's, and fills the cache. */
  function FirstAsk(rows: Rows, org: Id, waba: Id): seq<Event> {
    Question(0, org, waba) + ([ReadRow(0), ReadRow(0), FindPayer(0)] + (PayerRows(rows, org) + [Fill(0)]))
  }

  function PayerRows(rows: Rows, org: Id): seq<Event> {
    if BillingOrgFor(rows, org) == org then [] else [ReadRow(0), ReadRow(0)]
  }

  /** Nothing written, nothing cached, reader 0 so far on. */
  function Asking(now: int, rows: Rows, org: Id, waba: Id, pc: Pc): World {
    var p := BillingOrgFor(rows, org);
    World(now, rows, [map[]], map[], map[], map[], map[0 := Reader(org, waba, p, VersionOf(rows, p), 0, pc)])
  }

  function NothingFound(now: int, rows: Rows, org: Id, waba: Id): Evidence {
    var p := BillingOrgFor(rows, org);
    Evidence(p, Some(p), seq(|RowsConsulted(rows, org, waba)|, _ => 0), now)
  }

  /** A refusal cached just now for an organisation that held nothing. */
  function Refused(now: int, rows: Rows, org: Id, waba: Id): World {
    var key := Scope(org, waba, CacheVersionFor(rows, org));
    var ev := NothingFound(now, rows, org, waba);
    Asking(now, rows, org, waba, Finished(false, ev, now)).(
      store := map[SubscriptionAccess(key) := Entry(Allowed(false), Some(now + 1000 * ACCESS_TTL))],
      filled := map[key := ev])
  }

  lemma EmptyHasNoRow(keys: seq<RowKey>, at: seq<nat>)
    requires |at| <= |keys| && forall i | 0 <= i < |at| :: at[i] == 0
    ensures FirstRow([map[]], keys, at).None?
  {
    if at != [] { EmptyHasNoRow(keys[1..], at[1..]); }
  }

  lemma AsksCache(now: int, rows: Rows, org: Id, waba: Id, es: seq<Event>)
    ensures RunFrom(Init(now, rows, map[]), Question(0, org, waba) + es)
            == RunFrom(Asking(now, rows, org, waba, Reading(None, [])), es)
  {
    var w0 := Init(now, rows, map[]);
    var p := BillingOrgFor(rows, org);
    var w1 := Set(w0, 0, Reader(org, waba, p, 0, 0, AskingVersion));
    RunStep(w0, Start(0, org, waba), w1, [AskVersion(0), AskCache(0)] + es);
    RunStep(w1, AskVersion(0), Asking(now, rows, org, waba, AskingCache), [AskCache(0)] + es);
    RunStep(Asking(now, rows, org, waba, AskingCache), AskCache(0), Asking(now, rows, org, waba, Reading(None, [])), es);
    assert [AskVersion(0)] + ([AskCache(0)] + es) == [AskVersion(0), AskCache(0)] + es;
    assert [Start(0, org, waba)] + ([AskVersion(0), AskCache(0)] + es) == Question(0, org, waba) + es;
  }

  lemma ReadsOne(now: int, rows: Rows, org: Id, waba: Id, via: Option<Id>, epochs: seq<nat>, es: seq<Event>)
    requires |epochs| < |RowsVia(org, waba, via)| && forall i | 0 <= i < |epochs| :: epochs[i] == 0
    ensures RunFrom(Asking(now, rows, org, waba, Reading(via, epochs)), [ReadRow(0)] + es)
            == RunFrom(Asking(now, rows, org, waba, Reading(via, epochs + [0])), es)
  {
    EmptyHasNoRow(RowsVia(org, waba, via), epochs);
    RunStep(Asking(now, rows, org, waba, Reading(via, epochs)), ReadRow(0),
            Asking(now, rows, org, waba, Reading(via, epochs + [0])), es);
  }

  lemma ReadsTwo(now: int, rows: Rows, org: Id, waba: Id, es: seq<Event>)
    ensures RunFrom(Asking(now, rows, org, waba, Reading(None, [])), [ReadRow(0)] + ([ReadRow(0)] + es))
            == RunFrom(Asking(now, rows, org, waba, Reading(None, [0, 0])), es)
  {
    ReadsOne(now, rows, org, waba, None, [], [ReadRow(0)] + es);
    ReadsOne(now, rows, org, waba, None, [0], es);
    assert [] + [0] == [0] && [0] + [0] == [0, 0];
  }

  lemma FindsPayer(now: int, rows: Rows, org: Id, waba: Id, es: seq<Event>)
    ensures RunFrom(Asking(now, rows, org, waba, Reading(None, [0, 0])), [FindPayer(0)] + es)
            == RunFrom(Asking(now, rows, org, waba, Reading(Some(BillingOrgFor(rows, org)), [0, 0])), es)
  {
    EmptyHasNoRow(OwnRows(org, waba), [0, 0]);
    RunStep(Asking(now, rows, org, waba, Reading(None, [0, 0])), FindPayer(0),
            Asking(now, rows, org, waba, Reading(Some(BillingOrgFor(rows, org)), [0, 0])), es);
  }

  lemma ReadsOwn(now: int, rows: Rows, org: Id, waba: Id, es: seq<Event>)
    ensures RunFrom(Asking(now, rows, org, waba, Reading(None, [])), [ReadRow(0), ReadRow(0), FindPayer(0)] + es)
            == RunFrom(Asking(now, rows, org, waba, Reading(Some(BillingOrgFor(rows, org)), [0, 0])), es)
  {
    ReadsTwo(now, rows, org, waba, [FindPayer(0)] + es);
    FindsPayer(now, rows, org, waba, es);
    assert [ReadRow(0)] + ([ReadRow(0)] + ([FindPayer(0)] + es)) == [ReadRow(0), ReadRow(0), FindPayer(0)] + es;
  }

  lemma ReadsPayers(now: int, rows: Rows, org: Id, waba: Id, es: seq<Event>)
    ensures var via := Some(BillingOrgFor(rows, org));
            RunFrom(Asking(now, rows, org, waba, Reading(via, [0, 0])), PayerRows(rows, org) + es)
            == RunFrom(Asking(now, rows, org, waba, Reading(via, seq(|RowsConsulted(rows, org, waba)|, _ => 0))), es)
  {
    var via := Some(BillingOrgFor(rows, org));
    var zeros: seq<nat> := seq(|RowsConsulted(rows, org, waba)|, _ => 0);
    if via.value == org {
      assert PayerRows(rows, org) + es == es && zeros == [0, 0];
    } else {
      ReadsOne(now, rows, org, waba, via, [0, 0], [ReadRow(0)] + es);
      ReadsOne(now, rows, org, waba, via, [0, 0, 0], es);
      assert [ReadRow(0)] + ([ReadRow(0)] + es) == PayerRows(rows, org) + es;
      assert [0, 0] + [0] == [0, 0, 0] && [0, 0, 0] + [0] == zeros;
    }
  }

  lemma FillsRefusal(now: int, rows: Rows, org: Id, waba: Id)
    ensures var zeros: seq<nat> := seq(|RowsConsulted(rows, org, waba)|, _ => 0);
            RunFrom(Asking(now, rows, org, waba, Reading(Some(BillingOrgFor(rows, org)), zeros)), [Fill(0)])
            == Some(Refused(now, rows, org, waba))
  {
    var zeros: seq<nat> := seq(|RowsConsulted(rows, org, waba)|, _ => 0);
    EmptyHasNoRow(RowsConsulted(rows, org, waba), zeros);
    RunNone(Refused(now, rows, org, waba));
    RunStep(Asking(now, rows, org, waba, Reading(Some(BillingOrgFor(rows, org)), zeros)), Fill(0),
            Refused(now, rows, org, waba), []);
    assert [Fill(0)] + [] == [Fill(0)];
  }

  /** So the refusal is reached, whoever pays for the organisation. */
  lemma FirstAskIsRefused(now: int, rows: Rows, org: Id, waba: Id)
    ensures RunFrom(Init(now, rows, map[]), FirstAsk(rows, org, waba)) == Some(Refused(now, rows, org, waba))
  {
    AsksCache(now, rows, org, waba, [ReadRow(0), ReadRow(0), FindPayer(0)] + (PayerRows(rows, org) + [Fill(0)]));
    ReadsOwn(now, rows, org, waba, PayerRows(rows, org) + [Fill(0)]);
    ReadsPayers(now, rows, org, waba, [Fill(0)]);
    FillsRefusal(now, rows, org, waba);
  }

  // ---------------------------------------------------------------------------
  // Whose version has to be bumped
  // ---------------------------------------------------------------------------

  /** The organisation gets a subscription, and somebody is bumped. */
  function Subscribed(org: Id, bumped: Id): seq<Event> {
    [Write(RowKey(org, None), Some(Sub(Active, None))), BumpVersion(bumped)]
  }

  lemma SubscribedRuns(w: World, org: Id, bumped: Id)
    requires w.dbs != []
    ensures var r := RunFrom(w, Subscribed(org, bumped));
            && r.Some? && r.value.dbs != [] && r.value.store == w.store && r.value.now == w.now
            && r.value.readers == w.readers && r.value.rows == Bump(w.rows, bumped)
  {
    var w1 := Apply(w, Write(RowKey(org, None), Some(Sub(Active, None))));
    var w2 := Apply(w1, BumpVersion(bumped));
    RunNone(w2);
    RunStep(w1, BumpVersion(bumped), w2, []);
    RunStep(w, Write(RowKey(org, None), Some(Sub(Active, None))), w1, [BumpVersion(bumped)]);
    assert [BumpVersion(bumped)] + [] == [BumpVersion(bumped)];
    assert [Write(RowKey(org, None), Some(Sub(Active, None)))] + [BumpVersion(bumped)] == Subscribed(org, bumped);
  }

  /** The refusal stands under the version it was cached under and under no other. */
  lemma OnlyTheRefusal(now: int, rows: Rows, org: Id, waba: Id, n: nat)
    ensures Cached(Refused(now, rows, org, waba), org, waba, n) <==> n == CacheVersionFor(rows, org)
    ensures n == CacheVersionFor(rows, org) ==>
              AccessAt(Refused(now, rows, org, waba).store, Scope(org, waba, n), now) == Some(false)
  {
    var v := CacheVersionFor(rows, org);
    if Scope(org, waba, n) == Scope(org, waba, v) { ScopeInjective(org, waba, n, org, waba, v); }
  }

  /**
   * From an empty table: an organisation is refused, gets a subscription,
   * somebody is bumped, and it asks again.  It is answered from the table
   * exactly when the one bumped is its payer: bumping an attached client's own
   * row, as putting it on a plan and releasing it do, leaves the refusal
   * standing until it expires.
   */
  lemma StaleUnlessPayerBumped(now: int, rows: Rows, org: Id, waba: Id, bumped: Id)
    ensures var r := RunFrom(Init(now, rows, map[]),
                             FirstAsk(rows, org, waba) + (Subscribed(org, bumped) + Question(1, org, waba)));
            && r.Some? && 1 in r.value.readers
            && (r.value.readers[1].pc.Finished? <==> bumped != BillingOrgFor(rows, org))
            && (r.value.readers[1].pc.Finished? ==> !r.value.readers[1].pc.allowed)
  {
    var refused := Refused(now, rows, org, waba);
    FirstAskIsRefused(now, rows, org, waba);
    RunAppend(Init(now, rows, map[]), FirstAsk(rows, org, waba), Subscribed(org, bumped) + Question(1, org, waba));
    SubscribedRuns(refused, org, bumped);
    RunAppend(refused, Subscribed(org, bumped), Question(1, org, waba));
    var bumpedWorld := RunFrom(refused, Subscribed(org, bumped)).value;
    QuestionHitsIff(bumpedWorld, 1, org, waba);
    BumpMovesKeyIff(rows, bumped, org);
    OnlyTheRefusal(now, rows, org, waba, CacheVersionFor(bumpedWorld.rows, org));
  }

  /**
   * From an empty table: an organisation paying for itself is refused, its
   * agency gets a subscription, its own version is bumped, and it
   * is attached.  It is then answered with its own old refusal exactly when the
   * agency's version is the one it was refused under, however far it has moved.
   */
  lemma AttachBringsBackIff(now: int, rows: Rows, op: Agency.Op, waba: Id)
    requires op.Attach? && OrgSettings.Get(rows, op.org).agencyOrgId.None? && Agency.Refuses(Bump(rows, op.org), op).None?
    ensures var r := RunFrom(Init(now, rows, map[]),
                             FirstAsk(rows, op.org, waba)
                             + (Subscribed(op.agency, op.org) + (MoveEvents(op) + Question(1, op.org, waba))));
            && r.Some? && 1 in r.value.readers
            && (r.value.readers[1].pc.Finished? <==> VersionOf(rows, op.agency) == VersionOf(rows, op.org))
  {
    var refused := Refused(now, rows, op.org, waba);
    var rest := MoveEvents(op) + Question(1, op.org, waba);
    FirstAskIsRefused(now, rows, op.org, waba);
    RunAppend(Init(now, rows, map[]), FirstAsk(rows, op.org, waba), Subscribed(op.agency, op.org) + rest);
    SubscribedRuns(refused, op.agency, op.org);
    RunAppend(refused, Subscribed(op.agency, op.org), rest);
    var w := RunFrom(refused, Subscribed(op.agency, op.org)).value;
    MoveExposesIff(w, op, 1, waba);
    OnlyTheRefusal(now, rows, op.org, waba, VersionOf(rows, op.agency));
  }
}
