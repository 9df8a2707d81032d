/**
 * What callers of `hasAccess` are promised: by any answer at all, and by one to a
 * question asked after a write and a bump of the payer's version.
 */
module AccessPromises {
  import opened Options
  import opened Redis
  import opened OrgSettings
  import opened AccessCache

  /** Main result: whatever was racing and whoever was moved, no answer is older than it may be. */
  lemma AnswersAreFresh(now: int, rows: Rows, db: Db, es: seq<Event>)
    ensures var r := RunFrom(Init(now, rows, db), es); r.Some? ==> Fresh(r.value)
  {
    InvHoldsAlong(Init(now, rows, db), es);
  }

  /** Nobody takes this organisation on or lets it go. */
  predicate Stays(org: Id, es: seq<Event>) {
    forall i | 0 <= i < |es| :: !(es[i].MoveOrg? && es[i].org == org)
  }

  predicate ViaIs(via: Option<Id>, p: Id) {
    via.None? || via.value == p
  }

  /** What this reader holds was found with `p` as the payer. */
  predicate HeldUnder(r: Reader, p: Id) {
    && r.payer == p
    && match r.pc
       case Reading(via, _) => ViaIs(via, p)
       case Finished(_, ev, _) => ev.payer == p && ViaIs(ev.via, p)
       case _ => true
  }

  /** A live cached answer of this organisation's was found with `p` as the payer. */
  predicate CachedUnder(w: World, org: Id, waba: Id, n: nat, p: Id) {
    Live(w.store, SubscriptionAccess(Scope(org, waba, n)), w.now) && Scope(org, waba, n) in w.filled ==>
      w.filled[Scope(org, waba, n)].payer == p && ViaIs(w.filled[Scope(org, waba, n)].via, p)
  }

  /**
   * `p` pays for this organisation, and nothing found under another payer can
   * reach a question about it: no live cached answer, and no reader other than
   * those in `before`.
   */
  ghost predicate OnlyUnder(w: World, org: Id, p: Id, before: set<nat>) {
    && BillingOrgFor(w.rows, org) == p
    && (forall waba: Id, n: nat :: CachedUnder(w, org, waba, n, p))
    && (forall c | c in w.readers && c !in before && w.readers[c].org == org :: HeldUnder(w.readers[c], p))
  }

  lemma PayerStays(w: World, e: Event, org: Id)
    requires Enabled(w, e) && !(e.MoveOrg? && e.org == org)
    ensures BillingOrgFor(Apply(w, e).rows, org) == BillingOrgFor(w.rows, org)
  {
  }

  lemma CachedStaysUnder(w: World, e: Event, org: Id, waba: Id, n: nat, p: Id, before: set<nat>)
    requires Enabled(w, e) && CachedUnder(w, org, waba, n, p)
    requires forall c | c in w.readers && c !in before && w.readers[c].org == org :: HeldUnder(w.readers[c], p)
    requires e.Fill? ==> e.c !in before
    ensures CachedUnder(Apply(w, e), org, waba, n, p)
  {
    if e.Fill? && Scope(org, waba, n) == KeyOf(w.readers[e.c]) {
      var r := w.readers[e.c];
      ScopeInjective(org, waba, n, r.org, r.waba, r.version);
      assert HeldUnder(r, p);
    }
  }

  lemma ReaderStaysUnder(w: World, e: Event, org: Id, p: Id, before: set<nat>, c: nat)
    requires EntriesInv(w) && OnlyUnder(w, org, p, before) && Enabled(w, e) && !(e.MoveOrg? && e.org == org)
    requires c in Apply(w, e).readers && c !in before && Apply(w, e).readers[c].org == org
    ensures HeldUnder(Apply(w, e).readers[c], p)
  {
    if c in w.readers && w.readers[c].org == org {
      var r := w.readers[c];
      assert HeldUnder(r, p);
      if e.AskCache? && e.c == c && AccessAt(w.store, KeyOf(r), w.now).Some? {
        assert EntryOk(w, org, r.waba, r.version);
        assert CachedUnder(w, org, r.waba, r.version, p);
      }
    }
  }

  lemma OnlyUnderKept(w: World, e: Event, org: Id, p: Id, before: set<nat>)
    requires EntriesInv(w) && OnlyUnder(w, org, p, before) && Enabled(w, e) && !(e.MoveOrg? && e.org == org)
    requires e.Fill? ==> e.c !in before
    ensures OnlyUnder(Apply(w, e), org, p, before)
  {
    var v := Apply(w, e);
    PayerStays(w, e, org);
    forall waba: Id, n: nat
      ensures CachedUnder(v, org, waba, n, p)
    {
      assert CachedUnder(w, org, waba, n, p);
      CachedStaysUnder(w, e, org, waba, n, p, before);
    }
    forall c | c in v.readers && c !in before && v.readers[c].org == org
      ensures HeldUnder(v.readers[c], p)
    {
      ReaderStaysUnder(w, e, org, p, before, c);
    }
  }

  /** A bump of `p` that covered `epoch` writes: everyone new to `p`'s versions must see those writes. */
  ghost predicate VersionsProtected(w: World, p: Id, epoch: nat, version: nat) {
    && epoch < |w.dbs|
    && version <= VersionOf(w.rows, p)
    && forall n: nat | version <= n <= VersionOf(w.rows, p) :: epoch <= Covered(w, p, n)
  }

  predicate SeesFrom(r: Reader, epoch: nat) {
    r.pc.AskingVersion? || epoch <= r.mustSee
  }

  ghost predicate ReadersProtected(w: World, org: Id, epoch: nat, before: set<nat>) {
    forall c | c in w.readers && c !in before && w.readers[c].org == org :: SeesFrom(w.readers[c], epoch)
  }

  /** Readers that had their answer when the bump came; they take no further step. */
  predicate AllDone(w: World, done: set<nat>) {
    forall c | c in done :: c in w.readers && w.readers[c].pc.Finished?
  }

  ghost predicate Protected(w: World, org: Id, p: Id, epoch: nat, version: nat, done: set<nat>, before: set<nat>) {
    && done <= before && AllDone(w, done)
    && OnlyUnder(w, org, p, done)
    && VersionsProtected(w, p, epoch, version)
    && ReadersProtected(w, org, epoch, before)
  }

  lemma VersionsProtectedStep(w: World, e: Event, p: Id, epoch: nat, version: nat)
    requires VersionsProtected(w, p, epoch, version) && Enabled(w, e)
    ensures VersionsProtected(Apply(w, e), p, epoch, version)
  {
    var v := Apply(w, e);
    if e.BumpVersion? || e.MoveOrg? {
      forall n: nat | version <= n <= VersionOf(v.rows, p)
        ensures epoch <= Covered(v, p, n)
      {
        SettingsGrow(w, e, p, n);
        if n <= VersionOf(w.rows, p) { assert epoch <= Covered(w, p, n); }
      }
      SettingsGrow(w, e, p, version);
    } else {
      forall n: nat | version <= n <= VersionOf(v.rows, p)
        ensures epoch <= Covered(v, p, n)
      {
        assert epoch <= Covered(w, p, n);
      }
    }
  }

  lemma ReaderProtectedStep(w: World, e: Event, org: Id, p: Id, epoch: nat, version: nat, before: set<nat>, c: nat)
    requires VersionsProtected(w, p, epoch, version) && ReadersProtected(w, org, epoch, before) && Enabled(w, e)
    requires c in w.readers && c !in before && w.readers[c].org == org ==> w.readers[c].payer == p
    requires c in Apply(w, e).readers && c !in before && Apply(w, e).readers[c].org == org
    ensures SeesFrom(Apply(w, e).readers[c], epoch)
  {
    if c in w.readers && w.readers[c].org == org {
      assert SeesFrom(w.readers[c], epoch);
      if e.AskVersion? && e.c == c { assert epoch <= Covered(w, p, VersionOf(w.rows, p)); }
    }
  }

  lemma ProtectedStep(w: World, e: Event, org: Id, p: Id, epoch: nat, version: nat, done: set<nat>, before: set<nat>)
    requires Inv(w) && Protected(w, org, p, epoch, version, done, before)
    requires Enabled(w, e) && !(e.MoveOrg? && e.org == org)
    ensures Protected(Apply(w, e), org, p, epoch, version, done, before)
  {
    var v := Apply(w, e);
    OnlyUnderKept(w, e, org, p, done);
    VersionsProtectedStep(w, e, p, epoch, version);
    forall c | c in v.readers && c !in before && v.readers[c].org == org
      ensures SeesFrom(v.readers[c], epoch)
    {
      ReaderProtectedStep(w, e, org, p, epoch, version, before, c);
    }
  }

  lemma {:induction false} ProtectedAlong(
      w: World, es: seq<Event>, org: Id, p: Id, epoch: nat, version: nat, done: set<nat>, before: set<nat>)
    requires Inv(w) && Protected(w, org, p, epoch, version, done, before) && Stays(org, es)
    ensures var r := RunFrom(w, es);
            r.Some? ==> Inv(r.value) && Protected(r.value, org, p, epoch, version, done, before)
    decreases |es|
  {
    if es != [] && Enabled(w, es[0]) {
      InvKept(w, es[0]);
      ProtectedStep(w, es[0], org, p, epoch, version, done, before);
      ProtectedAlong(Apply(w, es[0]), es[1..], org, p, epoch, version, done, before);
    }
  }

  lemma {:induction false} RunAppend(w: World, xs: seq<Event>, ys: seq<Event>)
    ensures RunFrom(w, xs + ys) == match RunFrom(w, xs) case Some(v) => RunFrom(v, ys) case None => None
    decreases |xs|
  {
    if xs == [] {
      assert xs + ys == ys;
    } else {
      assert (xs + ys)[0] == xs[0] && (xs + ys)[1..] == xs[1..] + ys;
      if Enabled(w, xs[0]) { RunAppend(Apply(w, xs[0]), xs[1..], ys); }
    }
  }

  function DoneBy(w: World): set<nat> {
    set c | c in w.readers && w.readers[c].pc.Finished?
  }

  lemma {:induction false} FirstRowPrefix(dbs: seq<Db>, keys: seq<RowKey>, more: seq<RowKey>, at: seq<nat>)
    requires |at| <= |keys|
    requires forall i | 0 <= i < |at| :: at[i] < |dbs|
    ensures FirstRow(dbs, keys + more, at) == FirstRow(dbs, keys, at)
  {
    if at != [] {
      assert (keys + more)[1..] == keys[1..] + more;
      FirstRowPrefix(dbs, keys[1..], more, at[1..]);
    }
  }

  /** Evidence found with `p` as payer is the paywall's own rule with `p` as payer. */
  lemma EvidenceIsTheRule(w: World, org: Id, waba: Id, allowed: bool, ev: Evidence, from: nat, p: Id)
    requires EvidenceOk(w, org, waba, allowed, ev, from) && ViaIs(ev.via, p)
    ensures Backed(w, RowsVia(org, waba, Some(p)), allowed, ev, from)
  {
    if ev.via.None? && p != org { FirstRowPrefix(w.dbs, OwnRows(org, waba), OwnRows(p, waba), ev.epochs); }
  }

  /** What a reader with its answer is promised, given the writes it must see. */
  lemma FinishedIsBacked(w: World, org: Id, p: Id, epoch: nat, done: set<nat>, c: nat)
    requires Inv(w) && OnlyUnder(w, org, p, done) && c !in done
    requires c in w.readers && w.readers[c].org == org && w.readers[c].pc.Finished? && epoch <= w.readers[c].mustSee
    ensures var r := w.readers[c];
            && Backed(w, RowsConsulted(w.rows, org, r.waba), r.pc.allowed, r.pc.evidence, epoch)
            && r.pc.at < r.pc.evidence.at + 1000 * ACCESS_TTL
  {
    var r := w.readers[c];
    assert ReaderOk(w, r) && HeldUnder(r, p);
    EvidenceIsTheRule(w, org, r.waba, r.pc.allowed, r.pc.evidence, r.mustSee, p);
  }

  lemma BumpProtects(w: World, org: Id, p: Id)
    requires Inv(w) && OnlyUnder(w, org, p, DoneBy(w))
    ensures var v := Apply(w, BumpVersion(p));
            && Inv(v) && v.dbs == w.dbs && v.readers == w.readers
            && Protected(v, org, p, Epoch(v), VersionOf(v.rows, p), DoneBy(w), w.readers.Keys)
  {
    InvKept(w, BumpVersion(p));
    OnlyUnderKept(w, BumpVersion(p), org, p, DoneBy(w));
  }

  /** Reader `c` came to organisation `org` after this world, and has its answer. */
  predicate AnswersLater(w: World, r: Option<World>, org: Id, c: nat) {
    r.Some? && c in r.value.readers && c !in w.readers && r.value.readers[c].org == org && r.value.readers[c].pc.Finished?
  }

  /**
   * Main result, end to end.  After any history, let `p` be the payer of `org`
   * with nothing found under another payer still about.  Then everything written
   * before `p` is bumped is seen by every `hasAccess` about `org` that starts
   * afterwards, whatever else goes on while `org` is not moved, and a cached
   * answer is under a minute old.
   */
  lemma BumpReachesEveryInheritor(
      now: int, rows: Rows, db: Db, history: seq<Event>, org: Id, p: Id, later: seq<Event>, c: nat)
    requires RunFrom(Init(now, rows, db), history).Some? && Stays(org, later)
    requires var w := RunFrom(Init(now, rows, db), history).value; OnlyUnder(w, org, p, DoneBy(w))
    ensures var w := RunFrom(Init(now, rows, db), history).value;
            w.dbs != []
            && var r := RunFrom(w, [BumpVersion(p)] + later);
            AnswersLater(w, r, org, c) ==>
              var reader := r.value.readers[c];
              && Backed(r.value, RowsConsulted(r.value.rows, org, reader.waba), reader.pc.allowed, reader.pc.evidence,
                        Epoch(w))
              && reader.pc.at < reader.pc.evidence.at + 1000 * ACCESS_TTL
  {
    InvHoldsAlong(Init(now, rows, db), history);
    var w := RunFrom(Init(now, rows, db), history).value;
    var v := Apply(w, BumpVersion(p));
    var r := RunFrom(w, [BumpVersion(p)] + later);
    BumpProtects(w, org, p);
    assert ([BumpVersion(p)] + later)[1..] == later;
    assert r == RunFrom(v, later);
    ProtectedAlong(v, later, org, p, Epoch(v), VersionOf(v.rows, p), DoneBy(w), w.readers.Keys);
    if AnswersLater(w, r, org, c) {
      assert SeesFrom(r.value.readers[c], Epoch(v));
      FinishedIsBacked(r.value, org, p, Epoch(v), DoneBy(w), c);
    }
  }

  /** The condition holds of itself while the organisation has always had the payer it has. */
  lemma {:induction false} OnlyUnderAlong(w: World, es: seq<Event>, org: Id, p: Id)
    requires Inv(w) && OnlyUnder(w, org, p, {}) && Stays(org, es)
    ensures var r := RunFrom(w, es); r.Some? ==> OnlyUnder(r.value, org, p, {})
    decreases |es|
  {
    if es != [] && Enabled(w, es[0]) {
      InvKept(w, es[0]);
      OnlyUnderKept(w, es[0], org, p, {});
      OnlyUnderAlong(Apply(w, es[0]), es[1..], org, p);
    }
  }

  lemma UnmovedIsOnlyUnder(now: int, rows: Rows, db: Db, history: seq<Event>, org: Id)
    requires Stays(org, history)
    ensures var r := RunFrom(Init(now, rows, db), history);
            r.Some? ==> OnlyUnder(r.value, org, BillingOrgFor(rows, org), DoneBy(r.value))
  {
    OnlyUnderAlong(Init(now, rows, db), history, org, BillingOrgFor(rows, org));
  }

  lemma {:induction false} FirstRowIsLookup(dbs: seq<Db>, keys: seq<RowKey>, at: seq<nat>, epoch: nat)
    requires |at| <= |keys| && epoch < |dbs|
    requires forall i | 0 <= i < |at| :: at[i] == epoch
    requires FirstRow(dbs, keys, at).Some? || |at| == |keys|
    ensures FirstRow(dbs, keys, at) == Lookup(dbs[epoch], keys)
  {
    if at != [] && keys[0] !in dbs[epoch] { FirstRowIsLookup(dbs, keys[1..], at[1..], epoch); }
  }

  /** With no write since the covered ones, a fresh answer is the paywall's rule applied to the table as it stands. */
  lemma QuietAnswerIsCurrent(w: World, keys: seq<RowKey>, allowed: bool, ev: Evidence)
    requires w.dbs != [] && Backed(w, keys, allowed, ev, Epoch(w))
    ensures allowed == Grants(Lookup(w.dbs[Epoch(w)], keys), ev.at)
  {
    FirstRowIsLookup(w.dbs, keys, ev.epochs, Epoch(w));
  }
}
