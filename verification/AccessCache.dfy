/**
 * The paywall's versioned cache: "may this organisation act on this account?"
 *
 * A reader's `hasAccess` is several steps — find the payer, read its version,
 * ask the cache, read the organisation's own rows, find the payer again, read
 * its rows, fill the cache — between which subscriptions are written, versions
 * bumped, organisations attached and detached, and time passes.  An organisation
 * that pays for itself has its payer and version in one read, which is those two
 * steps with nothing between them.  Every state the subscription table has been
 * in is kept, so an answer can be traced to the states it was computed from.
 */
module AccessCache {
  import opened Options
  import opened Redis
  import opened OrgSettings
  import opened Decimal

  datatype Status =
    | Created | Authenticated | Active | Pending | Halted
    | Cancelled | Completed | Expired | Superseded

  datatype Sub = Sub(status: Status, currentEnd: Option<int>)

  /** A subscription row's place: one account's, or the organisation's own. */
  datatype RowKey = RowKey(org: Id, waba: Option<Id>)

  type Db = map<RowKey, Sub>

  /** Whether a subscription entitles its holder at an instant. */
  function Grants(sub: Option<Sub>, now: int): bool {
    match sub
    case None => false
    case Some(s) =>
      if s.status.Superseded? then false
      else if s.currentEnd.Some? && now < s.currentEnd.value then true
      else s.status.Active? || s.status.Authenticated?
  }

  function Scope(org: Id, waba: Id, version: nat): string {
    org + ":" + waba + ":v" + Dec(version)
  }

  lemma SplitAtColon(a: string, b: string, x: string, y: string)
    requires ':' !in a && ':' !in b
    requires a + ":" + x == b + ":" + y
    ensures a == b && x == y
  {
    var s := a + ":" + x;
    var t := b + ":" + y;
    assert s[|a|] == ':' && t[|b|] == ':';
    assert a == s[..|a|] && b == t[..|b|];
    assert x == s[|a| + 1..] && y == t[|b| + 1..];
  }

  /** Equal keys come from equal organisations, accounts and versions. */
  lemma ScopeInjective(o1: Id, w1: Id, v1: nat, o2: Id, w2: Id, v2: nat)
    requires Scope(o1, w1, v1) == Scope(o2, w2, v2)
    ensures o1 == o2 && w1 == w2 && v1 == v2
  {
    var x1, x2 := w1 + ":" + ("v" + Dec(v1)), w2 + ":" + ("v" + Dec(v2));
    assert Scope(o1, w1, v1) == o1 + ":" + x1 && Scope(o2, w2, v2) == o2 + ":" + x2;
    SplitAtColon(o1, o2, x1, x2);
    SplitAtColon(w1, w2, "v" + Dec(v1), "v" + Dec(v2));
    assert Dec(v1) == ("v" + Dec(v1))[1..] && Dec(v2) == ("v" + Dec(v2))[1..];
    DecInjective(v1, v2);
  }

  function OwnRows(org: Id, waba: Id): seq<RowKey> {
    [RowKey(org, Some(waba)), RowKey(org, None)]
  }

  /** The rows consulted, first match winning: the organisation's own, then those of the payer found, if any. */
  function RowsVia(org: Id, waba: Id, via: Option<Id>): seq<RowKey> {
    if via.None? || via.value == org then OwnRows(org, waba) else OwnRows(org, waba) + OwnRows(via.value, waba)
  }

  function RowsConsulted(rows: Rows, org: Id, waba: Id): seq<RowKey> {
    RowsVia(org, waba, Some(BillingOrgFor(rows, org)))
  }

  /** The first row present, reading key i in the table as it stood at epoch `at[i]`. */
  function FirstRow(dbs: seq<Db>, keys: seq<RowKey>, at: seq<nat>): Option<Sub>
    requires |at| <= |keys|
    requires forall i | 0 <= i < |at| :: at[i] < |dbs|
  {
    if at == [] then None
    else if keys[0] in dbs[at[0]] then Some(dbs[at[0]][keys[0]])
    else FirstRow(dbs, keys[1..], at[1..])
  }

  /** The answer one quiescent table gives. */
  function Lookup(db: Db, keys: seq<RowKey>): Option<Sub> {
    if keys == [] then None
    else if keys[0] in db then Some(db[keys[0]])
    else Lookup(db, keys[1..])
  }

  /**
   * What an answer was computed from: whose version it was cached under, the
   * payer asked after the organisation's own rows (none while they suffice), the
   * epoch of each row read, and when.
   */
  datatype Evidence = Evidence(payer: Id, via: Option<Id>, epochs: seq<nat>, at: int)

  datatype Pc =
    | AskingVersion
    | AskingCache
    | Reading(via: Option<Id>, epochs: seq<nat>)
    | Finished(allowed: bool, evidence: Evidence, at: int)

  /** `mustSee`: the writes that had completed when the version it read began. */
  datatype Reader = Reader(org: Id, waba: Id, payer: Id, version: nat, mustSee: nat, pc: Pc)

  datatype World = World(
    now: int,
    rows: Rows,
    dbs: seq<Db>,
    store: Store,
    filled: map<string, Evidence>,
    covered: map<(Id, nat), nat>,
    readers: map<nat, Reader>)

  datatype Event =
    | Tick(to: int)
    | Write(key: RowKey, sub: Option<Sub>)
    | BumpVersion(org: Id)
    | MoveOrg(org: Id, payer: Option<Id>)
    | Start(c: nat, org: Id, waba: Id)
    | AskVersion(c: nat)
    | AskCache(c: nat)
    | ReadRow(c: nat)
    | FindPayer(c: nat)
    | Fill(c: nat)

  function Init(now: int, rows: Rows, db: Db): World {
    World(now, rows, [db], map[], map[], map[], map[])
  }

  function Epoch(w: World): nat
    requires w.dbs != []
  {
    |w.dbs| - 1
  }

  /** How many writes had completed when this organisation's version became `v`. */
  function Covered(w: World, payer: Id, v: nat): nat {
    if (payer, v) in w.covered then w.covered[(payer, v)] else 0
  }

  predicate ReadsValid(w: World, keys: seq<RowKey>, epochs: seq<nat>) {
    && |epochs| <= |keys|
    && forall i | 0 <= i < |epochs| :: epochs[i] < |w.dbs|
  }

  /** A row has been found, or there is nobody left to ask. */
  predicate Settled(w: World, org: Id, waba: Id, via: Option<Id>, epochs: seq<nat>)
    requires ReadsValid(w, RowsVia(org, waba, via), epochs)
  {
    || FirstRow(w.dbs, RowsVia(org, waba, via), epochs).Some?
    || (via.Some? && |epochs| == |RowsVia(org, waba, via)|)
  }

  predicate IsReading(w: World, c: nat) {
    && c in w.readers && w.readers[c].pc.Reading?
    && ReadsValid(w, RowsVia(w.readers[c].org, w.readers[c].waba, w.readers[c].pc.via), w.readers[c].pc.epochs)
  }

  predicate FoundNothing(w: World, c: nat)
    requires IsReading(w, c)
  {
    var r := w.readers[c];
    FirstRow(w.dbs, RowsVia(r.org, r.waba, r.pc.via), r.pc.epochs).None?
  }

  predicate Enabled(w: World, e: Event) {
    && w.dbs != []
    && match e
       case Tick(to) => w.now <= to
       case Write(_, _) => true
       case BumpVersion(_) => true
       case MoveOrg(_, _) => true
       case Start(c, _, _) => c !in w.readers
       case AskVersion(c) => c in w.readers && w.readers[c].pc.AskingVersion?
       case AskCache(c) => c in w.readers && w.readers[c].pc.AskingCache?
       case ReadRow(c) =>
         && IsReading(w, c) && FoundNothing(w, c)
         && |w.readers[c].pc.epochs| < |RowsVia(w.readers[c].org, w.readers[c].waba, w.readers[c].pc.via)|
       case FindPayer(c) =>
         IsReading(w, c) && FoundNothing(w, c) && w.readers[c].pc.via.None? && |w.readers[c].pc.epochs| == 2
       case Fill(c) =>
         IsReading(w, c) && Settled(w, w.readers[c].org, w.readers[c].waba, w.readers[c].pc.via, w.readers[c].pc.epochs)
  }

  function Set(w: World, c: nat, r: Reader): World {
    w.(readers := w.readers[c := r])
  }

  /** New settings, noting what had been written if this organisation's version has moved. */
  function Resettle(w: World, rows: Rows, org: Id): World
    requires w.dbs != []
  {
    w.(rows := rows,
       covered := if VersionOf(rows, org) == VersionOf(w.rows, org) then w.covered
                  else w.covered[(org, VersionOf(rows, org)) := Epoch(w)])
  }

  function KeyOf(r: Reader): string {
    Scope(r.org, r.waba, r.version)
  }

  /** Where a hit's answer came from; only entries this code filled are ever in the store. */
  function FilledBy(w: World, r: Reader): Evidence {
    if KeyOf(r) in w.filled then w.filled[KeyOf(r)] else Evidence(r.payer, None, [], w.now)
  }

  function Apply(w: World, e: Event): World
    requires Enabled(w, e)
  {
    match e
    case Tick(to) => w.(now := to)
    case Write(key, sub) =>
      var db := w.dbs[Epoch(w)];
      w.(dbs := w.dbs + [if sub.Some? then db[key := sub.value] else db - {key}])
    case BumpVersion(org) => Resettle(w, Bump(w.rows, org), org)
    case MoveOrg(org, payer) => Resettle(w, Move(w.rows, org, payer), org)
    case Start(c, org, waba) => Set(w, c, Reader(org, waba, BillingOrgFor(w.rows, org), 0, 0, AskingVersion))
    case AskVersion(c) =>
      var r := w.readers[c];
      var v := VersionOf(w.rows, r.payer);
      Set(w, c, r.(version := v, mustSee := Covered(w, r.payer, v), pc := AskingCache))
    case AskCache(c) =>
      var r := w.readers[c];
      (match AccessAt(w.store, KeyOf(r), w.now)
       case Some(allowed) => Set(w, c, r.(pc := Finished(allowed, FilledBy(w, r), w.now)))
       case None => Set(w, c, r.(pc := Reading(None, []))))
    case ReadRow(c) =>
      var r := w.readers[c];
      Set(w, c, r.(pc := Reading(r.pc.via, r.pc.epochs + [Epoch(w)])))
    case FindPayer(c) =>
      var r := w.readers[c];
      Set(w, c, r.(pc := Reading(Some(BillingOrgFor(w.rows, r.org)), r.pc.epochs)))
    case Fill(c) =>
      var r := w.readers[c];
      var allowed := Grants(FirstRow(w.dbs, RowsVia(r.org, r.waba, r.pc.via), r.pc.epochs), w.now);
      var evidence := Evidence(r.payer, r.pc.via, r.pc.epochs, w.now);
      Set(w, c, r.(pc := Finished(allowed, evidence, w.now))).(
        store := SetEx(w.store, SubscriptionAccess(KeyOf(r)), Allowed(allowed), ACCESS_TTL, w.now),
        filled := w.filled[KeyOf(r) := evidence])
  }

  function RunFrom(w: World, es: seq<Event>): Option<World>
    decreases |es|
  {
    if es == [] then Some(w)
    else if Enabled(w, es[0]) then RunFrom(Apply(w, es[0]), es[1..])
    else None
  }

  // ---------------------------------------------------------------------------
  // What is promised
  // ---------------------------------------------------------------------------

  /** The answer is the one these rows give, every one of them read at epoch `from` or later. */
  ghost predicate Backed(w: World, keys: seq<RowKey>, allowed: bool, ev: Evidence, from: nat) {
    && ReadsValid(w, keys, ev.epochs)
    && (FirstRow(w.dbs, keys, ev.epochs).Some? || |ev.epochs| == |keys|)
    && (forall i | 0 <= i < |ev.epochs| :: from <= ev.epochs[i])
    && allowed == Grants(FirstRow(w.dbs, keys, ev.epochs), ev.at)
  }

  ghost predicate EvidenceOk(w: World, org: Id, waba: Id, allowed: bool, ev: Evidence, from: nat) {
    var keys := RowsVia(org, waba, ev.via);
    Backed(w, keys, allowed, ev, from) && (ev.via.None? ==> FirstRow(w.dbs, keys, ev.epochs).Some?)
  }

  /** What a reader can be held to: nothing, if its answer was cached under another payer's version. */
  function Owed(r: Reader, ev: Evidence): nat {
    if ev.payer == r.payer then r.mustSee else 0
  }

  /**
   * Every answer is the rule applied to rows really read for that organisation
   * and account, under a minute before it was given; and no row is older than
   * the version the reader holds, unless the answer was cached while somebody
   * else paid.
   */
  ghost predicate Fresh(w: World) {
    forall c | c in w.readers && w.readers[c].pc.Finished? ::
      var r := w.readers[c];
      && EvidenceOk(w, r.org, r.waba, r.pc.allowed, r.pc.evidence, Owed(r, r.pc.evidence))
      && r.pc.evidence.at <= r.pc.at < r.pc.evidence.at + 1000 * ACCESS_TTL
  }

  // ---------------------------------------------------------------------------
  // The invariant
  // ---------------------------------------------------------------------------

  ghost predicate CoveredInv(w: World) {
    && w.dbs != []
    && forall p: Id, v: nat :: Covered(w, p, v) <= Epoch(w)
  }

  /** A live entry carries the answer it says it does, read no earlier than its version began. */
  ghost predicate EntryOk(w: World, org: Id, waba: Id, v: nat) {
    var k := SubscriptionAccess(Scope(org, waba, v));
    k in w.store ==>
      && Scope(org, waba, v) in w.filled
      && var ev := w.filled[Scope(org, waba, v)];
      && w.store[k].value.Allowed?
      && w.store[k].expires == Some(ev.at + 1000 * ACCESS_TTL)
      && ev.at <= w.now && v <= VersionOf(w.rows, ev.payer)
      && EvidenceOk(w, org, waba, w.store[k].value.yes, ev, Covered(w, ev.payer, v))
  }

  ghost predicate EntriesInv(w: World) {
    forall org: Id, waba: Id, v: nat :: EntryOk(w, org, waba, v)
  }

  predicate Versioned(w: World, r: Reader) {
    r.version <= VersionOf(w.rows, r.payer) && r.mustSee == Covered(w, r.payer, r.version)
  }

  ghost predicate ReaderOk(w: World, r: Reader) {
    match r.pc
    case AskingVersion => true
    case AskingCache => Versioned(w, r)
    case Reading(via, epochs) =>
      && Versioned(w, r)
      && ReadsValid(w, RowsVia(r.org, r.waba, via), epochs)
      && forall i | 0 <= i < |epochs| :: r.mustSee <= epochs[i]
    case Finished(allowed, ev, at) =>
      && Versioned(w, r)
      && EvidenceOk(w, r.org, r.waba, allowed, ev, Owed(r, ev))
      && ev.at <= at < ev.at + 1000 * ACCESS_TTL
  }

  ghost predicate ReadersInv(w: World) {
    forall c | c in w.readers :: ReaderOk(w, w.readers[c])
  }

  ghost predicate Inv(w: World) {
    CoveredInv(w) && EntriesInv(w) && ReadersInv(w)
  }

  lemma {:induction false} FirstRowKept(dbs: seq<Db>, db: Db, keys: seq<RowKey>, at: seq<nat>)
    requires |at| <= |keys|
    requires forall i | 0 <= i < |at| :: at[i] < |dbs|
    ensures FirstRow(dbs + [db], keys, at) == FirstRow(dbs, keys, at)
  {
    if at != [] { FirstRowKept(dbs, db, keys[1..], at[1..]); }
  }

  lemma EvidenceKept(w: World, db: Db, org: Id, waba: Id, allowed: bool, ev: Evidence, from: nat)
    requires EvidenceOk(w, org, waba, allowed, ev, from)
    ensures EvidenceOk(w.(dbs := w.dbs + [db]), org, waba, allowed, ev, from)
  {
    FirstRowKept(w.dbs, db, RowsVia(org, waba, ev.via), ev.epochs);
  }

  lemma CoveredKept(w: World, e: Event)
    requires CoveredInv(w) && Enabled(w, e)
    ensures CoveredInv(Apply(w, e))
  {
    var v := Apply(w, e);
    forall p: Id, n: nat
      ensures Covered(v, p, n) <= Epoch(v)
    {
      assert Covered(w, p, n) <= Epoch(w);
    }
  }

  /** The tables an answer is judged by are the same in both worlds. */
  predicate SameTables(w: World, v: World) {
    w.rows == v.rows && w.dbs == v.dbs && w.covered == v.covered && w.now <= v.now
  }

  lemma EntryFrame(w: World, v: World, org: Id, waba: Id, n: nat)
    requires SameTables(w, v) && EntryOk(w, org, waba, n)
    requires var k := SubscriptionAccess(Scope(org, waba, n)); k in v.store ==> k in w.store && w.store[k] == v.store[k]
    requires var k := Scope(org, waba, n); k in w.filled ==> k in v.filled && w.filled[k] == v.filled[k]
    ensures EntryOk(v, org, waba, n)
  {
  }

  lemma ReaderFrame(w: World, v: World, r: Reader)
    requires SameTables(w, v)
    ensures ReaderOk(w, r) == ReaderOk(v, r)
  {
  }

  lemma WriteKeeps(w: World, e: Event)
    requires Inv(w) && Enabled(w, e) && e.Write?
    ensures Inv(Apply(w, e))
  {
    var v := Apply(w, e);
    var db := v.dbs[|w.dbs|];
    CoveredKept(w, e);
    forall org: Id, waba: Id, n: nat
      ensures EntryOk(v, org, waba, n)
    {
      assert EntryOk(w, org, waba, n);
      var k := SubscriptionAccess(Scope(org, waba, n));
      if k in w.store {
        var ev := w.filled[Scope(org, waba, n)];
        EvidenceKept(w, db, org, waba, w.store[k].value.yes, ev, Covered(w, ev.payer, n));
      }
    }
    forall c | c in w.readers
      ensures ReaderOk(v, w.readers[c])
    {
      var r := w.readers[c];
      assert ReaderOk(w, r);
      if r.pc.Finished? { EvidenceKept(w, db, r.org, r.waba, r.pc.allowed, r.pc.evidence, Owed(r, r.pc.evidence)); }
    }
  }

  /** Settings only ever gain versions, and what a version covered is never rewritten. */
  lemma SettingsGrow(w: World, e: Event, p: Id, n: nat)
    requires Enabled(w, e) && (e.BumpVersion? || e.MoveOrg?)
    ensures VersionOf(w.rows, p) <= VersionOf(Apply(w, e).rows, p)
    ensures n <= VersionOf(w.rows, p) ==> Covered(Apply(w, e), p, n) == Covered(w, p, n)
    ensures VersionOf(w.rows, p) < n <= VersionOf(Apply(w, e).rows, p) ==> Covered(Apply(w, e), p, n) == Epoch(w)
  {
  }

  lemma SettingsKeep(w: World, e: Event)
    requires Inv(w) && Enabled(w, e) && (e.BumpVersion? || e.MoveOrg?)
    ensures Inv(Apply(w, e))
  {
    var v := Apply(w, e);
    CoveredKept(w, e);
    forall org: Id, waba: Id, n: nat
      ensures EntryOk(v, org, waba, n)
    {
      assert EntryOk(w, org, waba, n);
      if Scope(org, waba, n) in w.filled { SettingsGrow(w, e, w.filled[Scope(org, waba, n)].payer, n); }
    }
    forall c | c in w.readers
      ensures ReaderOk(v, w.readers[c])
    {
      assert ReaderOk(w, w.readers[c]);
      SettingsGrow(w, e, w.readers[c].payer, w.readers[c].version);
    }
  }

  lemma FilledReaderOk(w: World, e: Event)
    requires Inv(w) && Enabled(w, e) && e.Fill?
    ensures ReaderOk(Apply(w, e), Apply(w, e).readers[e.c])
  {
    assert ReaderOk(w, w.readers[e.c]);
  }

  /** The filler began after its version did, so what it read is recent enough for that version. */
  lemma FilledEntryOk(w: World, e: Event)
    requires Inv(w) && Enabled(w, e) && e.Fill?
    ensures var r := w.readers[e.c]; EntryOk(Apply(w, e), r.org, r.waba, r.version)
  {
    assert ReaderOk(w, w.readers[e.c]);
    FilledReaderOk(w, e);
  }

  lemma FillKeepsEntries(w: World, e: Event)
    requires Inv(w) && Enabled(w, e) && e.Fill?
    ensures EntriesInv(Apply(w, e))
  {
    var v := Apply(w, e);
    var r := w.readers[e.c];
    forall org: Id, waba: Id, n: nat
      ensures EntryOk(v, org, waba, n)
    {
      assert EntryOk(w, org, waba, n);
      if Scope(org, waba, n) == KeyOf(r) {
        ScopeInjective(org, waba, n, r.org, r.waba, r.version);
        FilledEntryOk(w, e);
      } else {
        EntryFrame(w, v, org, waba, n);
      }
    }
  }

  lemma FillKeeps(w: World, e: Event)
    requires Inv(w) && Enabled(w, e) && e.Fill?
    ensures Inv(Apply(w, e))
  {
    var v := Apply(w, e);
    CoveredKept(w, e);
    FillKeepsEntries(w, e);
    FilledReaderOk(w, e);
    forall c | c in v.readers && c != e.c
      ensures ReaderOk(v, v.readers[c])
    {
      ReaderFrame(w, v, w.readers[c]);
    }
  }

  /** A step of one reader that fills nothing. */
  predicate IsReaderStep(e: Event) {
    e.Start? || e.AskVersion? || e.AskCache? || e.ReadRow? || e.FindPayer?
  }

  lemma StepReaderOk(w: World, e: Event)
    requires Inv(w) && Enabled(w, e) && IsReaderStep(e)
    ensures ReaderOk(w, Apply(w, e).readers[e.c])
  {
    if !e.Start? {
      var r := w.readers[e.c];
      assert ReaderOk(w, r);
      if e.AskCache? && AccessAt(w.store, KeyOf(r), w.now).Some? {
        assert EntryOk(w, r.org, r.waba, r.version);
      }
    }
  }

  lemma OthersUntouched(w: World, e: Event, c: nat)
    requires Enabled(w, e) && (e.Tick? || IsReaderStep(e)) && c in Apply(w, e).readers
    ensures SameTables(w, Apply(w, e))
    ensures e.Tick? || c != e.c ==> c in w.readers && Apply(w, e).readers[c] == w.readers[c]
  {
  }

  lemma ReaderWasOk(w: World, e: Event, c: nat)
    requires Inv(w) && Enabled(w, e) && (e.Tick? || IsReaderStep(e)) && c in Apply(w, e).readers
    ensures ReaderOk(w, Apply(w, e).readers[c])
  {
    if !e.Tick? && c == e.c {
      StepReaderOk(w, e);
    } else {
      OthersUntouched(w, e, c);
      assert ReaderOk(w, w.readers[c]);
    }
  }

  lemma ReaderStepKeepsReaders(w: World, e: Event)
    requires Inv(w) && Enabled(w, e) && (e.Tick? || IsReaderStep(e))
    ensures ReadersInv(Apply(w, e))
  {
    forall c | c in Apply(w, e).readers
      ensures ReaderOk(Apply(w, e), Apply(w, e).readers[c])
    {
      ReaderWasOk(w, e, c);
      OthersUntouched(w, e, c);
      ReaderFrame(w, Apply(w, e), Apply(w, e).readers[c]);
    }
  }

  lemma ReaderStepKeeps(w: World, e: Event)
    requires Inv(w) && Enabled(w, e) && (e.Tick? || IsReaderStep(e))
    ensures Inv(Apply(w, e))
  {
    var v := Apply(w, e);
    CoveredKept(w, e);
    ReaderStepKeepsReaders(w, e);
    forall org: Id, waba: Id, n: nat
      ensures EntryOk(v, org, waba, n)
    {
      EntryFrame(w, v, org, waba, n);
    }
  }

  lemma InvKept(w: World, e: Event)
    requires Inv(w) && Enabled(w, e)
    ensures Inv(Apply(w, e))
  {
    match e {
      case Write(_, _) => WriteKeeps(w, e);
      case BumpVersion(_) => SettingsKeep(w, e);
      case MoveOrg(_, _) => SettingsKeep(w, e);
      case Fill(_) => FillKeeps(w, e);
      case _ => ReaderStepKeeps(w, e);
    }
  }

  lemma {:induction false} InvHoldsAlong(w: World, es: seq<Event>)
    requires Inv(w)
    ensures var r := RunFrom(w, es); r.Some? ==> Inv(r.value)
    decreases |es|
  {
    if es != [] && Enabled(w, es[0]) {
      InvKept(w, es[0]);
      InvHoldsAlong(Apply(w, es[0]), es[1..]);
    }
  }
}
