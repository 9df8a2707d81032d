/** A conversation's messages, merged from two tables and paged by timestamp. */
module Thread {
  import opened Options

  datatype Side = Outbound | Inbound

  datatype Message = Message(side: Side, id: nat, at: int)

  const THREAD_PAGE := 50

  /** What is asked for, brought within 1 and 100, and a page of the usual size when nothing is. */
  function Limit(asked: Option<int>): (limit: nat)
    ensures 1 <= limit <= 100
    ensures asked.Some? && 1 <= asked.value <= 100 ==> limit == asked.value
    ensures asked.Some? && asked.value < 1 ==> limit == 1
    ensures asked.Some? && asked.value > 100 ==> limit == 100
    ensures asked.None? ==> limit == 50
  {
    var n := if asked.Some? then asked.value else THREAD_PAGE;
    if n < 1 then 1 else if n > 100 then 100 else n
  }

  predicate Older(m: Message, before: Option<int>) {
    before.Some? ==> m.at < before.value
  }

  function OlderIn(table: set<Message>, before: Option<int>): set<Message> {
    set m | m in table && Older(m, before)
  }

  function Elements(ms: seq<Message>): set<Message> {
    set m | m in ms
  }

  predicate NoRepeats(ms: seq<Message>) {
    forall i, j | 0 <= i < j < |ms| :: ms[i] != ms[j]
  }

  predicate NewestFirst(ms: seq<Message>) {
    forall i, j | 0 <= i <= j < |ms| :: ms[j].at <= ms[i].at
  }

  function Min(a: nat, b: nat): nat {
    if a < b then a else b
  }

  /**
   * A list of the newest `limit` messages of a table older than `before`,
   * newest first.  Which of several with one timestamp make the cut is the
   * database's choice.
   */
  ghost predicate IsNewest(ms: seq<Message>, table: set<Message>, before: Option<int>, limit: nat) {
    && NoRepeats(ms) && NewestFirst(ms)
    && Elements(ms) <= OlderIn(table, before)
    && |ms| == Min(limit, |OlderIn(table, before)|)
    && forall m, p | m in OlderIn(table, before) && m !in ms && p in ms :: m.at <= p.at
  }

  // ---------------------------------------------------------------------------
  // One page
  // ---------------------------------------------------------------------------

  function Insert(m: Message, ms: seq<Message>): seq<Message>
    decreases |ms|
  {
    if ms == [] || m.at >= ms[0].at then [m] + ms else [ms[0]] + Insert(m, ms[1..])
  }

  /** Newest first, keeping the order of those with one timestamp. */
  function Sort(ms: seq<Message>): seq<Message>
    decreases |ms|
  {
    if ms == [] then [] else Insert(ms[0], Sort(ms[1..]))
  }

  function Reverse(ms: seq<Message>): (r: seq<Message>)
    ensures |r| == |ms| && forall i | 0 <= i < |ms| :: r[i] == ms[|ms| - 1 - i]
  {
    if ms == [] then [] else Reverse(ms[1..]) + [ms[0]]
  }

  datatype View = View(messages: seq<Message>, nextCursor: Option<int>)

  function Merged(outbound: seq<Message>, inbound: seq<Message>): seq<Message> {
    Sort(outbound + inbound)
  }

  function Page(outbound: seq<Message>, inbound: seq<Message>, limit: nat): seq<Message> {
    var merged := Merged(outbound, inbound);
    merged[..Min(limit, |merged|)]
  }

  /** What the caller gets: the page oldest first, and where the next one starts if there may be one. */
  function ThreadView(outbound: seq<Message>, inbound: seq<Message>, limit: nat): View {
    var merged := Merged(outbound, inbound);
    var page := Page(outbound, inbound, limit);
    var more := |merged| > limit || |page| == limit;
    View(Reverse(page), if more && page != [] then Some(page[|page| - 1].at) else None)
  }

  lemma {:induction false} InsertKeepsAll(m: Message, ms: seq<Message>)
    ensures multiset(Insert(m, ms)) == multiset(ms) + multiset{m} && |Insert(m, ms)| == |ms| + 1
    decreases |ms|
  {
    if ms != [] && m.at < ms[0].at {
      InsertKeepsAll(m, ms[1..]);
      assert ms == [ms[0]] + ms[1..];
    }
  }

  lemma ConsNewestFirst(first: Message, ms: seq<Message>)
    requires NewestFirst(ms) && (ms != [] ==> ms[0].at <= first.at)
    ensures NewestFirst([first] + ms)
  {
  }

  lemma {:induction false} InsertSorts(m: Message, ms: seq<Message>)
    requires NewestFirst(ms)
    ensures NewestFirst(Insert(m, ms))
    ensures Insert(m, ms) != [] && (Insert(m, ms)[0] == m || (ms != [] && Insert(m, ms)[0] == ms[0]))
    decreases |ms|
  {
    if ms == [] || m.at >= ms[0].at {
      ConsNewestFirst(m, ms);
    } else {
      InsertSorts(m, ms[1..]);
      assert |ms| > 1 ==> ms[1].at <= ms[0].at;
      ConsNewestFirst(ms[0], Insert(m, ms[1..]));
    }
  }

  lemma {:induction false} SortSorts(ms: seq<Message>)
    ensures NewestFirst(Sort(ms)) && multiset(Sort(ms)) == multiset(ms) && |Sort(ms)| == |ms|
    decreases |ms|
  {
    if ms != [] {
      SortSorts(ms[1..]);
      InsertSorts(ms[0], Sort(ms[1..]));
      InsertKeepsAll(ms[0], Sort(ms[1..]));
      assert ms == [ms[0]] + ms[1..];
    }
  }

  /** No repeats is the same as no element counted twice. */
  lemma {:induction false} NoRepeatsIff(ms: seq<Message>)
    ensures NoRepeats(ms) <==> forall m :: multiset(ms)[m] <= 1
    decreases |ms|
  {
    if ms != [] {
      var front, last := ms[..|ms| - 1], ms[|ms| - 1];
      assert ms == front + [last];
      NoRepeatsIff(front);
      if NoRepeats(ms) {
        assert NoRepeats(front);
        assert last !in front;
        assert multiset(front)[last] == 0;
      } else if NoRepeats(front) {
        var i, j :| 0 <= i < j < |ms| && ms[i] == ms[j];
        assert j == |front| && last in front;
        assert multiset(front)[last] >= 1;
        assert multiset(ms)[last] >= 2;
      } else {
        var m :| multiset(front)[m] > 1;
        assert multiset(ms)[m] > 1;
      }
    }
  }

  lemma {:induction false} SizeOfElements(ms: seq<Message>)
    requires NoRepeats(ms)
    ensures |Elements(ms)| == |ms|
    decreases |ms|
  {
    if ms == [] {
      assert Elements(ms) == {};
    } else {
      var front, last := ms[..|ms| - 1], ms[|ms| - 1];
      SizeOfElements(front);
      assert Elements(ms) == Elements(front) + {last};
    }
  }

  lemma {:induction false} SubsetSize(a: set<Message>, b: set<Message>)
    requires a <= b
    ensures |a| <= |b|
    ensures |a| == |b| ==> a == b
    decreases a
  {
    if a == {} {
      assert |b| == 0 ==> b == {};
    } else {
      var x :| x in a;
      SubsetSize(a - {x}, b - {x});
      assert |a - {x}| == |b - {x}| ==> a == b;
    }
  }

  lemma MergedFacts(outbound: seq<Message>, inbound: seq<Message>)
    requires NoRepeats(outbound) && NoRepeats(inbound) && Elements(outbound) !! Elements(inbound)
    ensures var merged := Merged(outbound, inbound);
            && NoRepeats(merged) && NewestFirst(merged) && |merged| == |outbound| + |inbound|
            && Elements(merged) == Elements(outbound) + Elements(inbound)
  {
    var both, merged := outbound + inbound, Merged(outbound, inbound);
    SortSorts(both);
    forall i, j | 0 <= i < j < |both|
      ensures both[i] != both[j]
    {
      if i < |outbound| <= j { assert both[i] in Elements(outbound) && both[j] in Elements(inbound); }
    }
    NoRepeatsIff(both);
    NoRepeatsIff(merged);
    forall m
      ensures m in merged <==> m in both
    {
      assert m in merged <==> m in multiset(merged);
      assert m in both <==> m in multiset(both);
    }
  }

  /** A row its own query left out is no newer than anything on the page: the query filled up before it. */
  lemma LeftOutByQuery(fetched: seq<Message>, table: set<Message>, before: Option<int>, limit: nat,
                       merged: seq<Message>, m: Message, k: nat)
    requires IsNewest(fetched, table, before, limit) && m in OlderIn(table, before) && m !in fetched
    requires NewestFirst(merged) && NoRepeats(merged) && Elements(fetched) <= Elements(merged)
    requires k < limit && k < |merged|
    ensures m.at <= merged[k].at
  {
    SizeOfElements(fetched);
    SubsetSize(Elements(fetched), OlderIn(table, before));
    assert |fetched| == limit;
    if merged[k].at < m.at {
      forall p | p in Elements(fetched)
        ensures p in Elements(merged[..k])
      {
        assert p in Elements(merged) && m.at <= p.at;
        var i :| 0 <= i < |merged| && merged[i] == p;
        assert i < k;
        assert merged[..k][i] == p;
      }
      SubsetSize(Elements(fetched), Elements(merged[..k]));
      SizeOfElements(merged[..k]);
      assert false;
    }
  }

  lemma OlderSplits(outTable: set<Message>, inTable: set<Message>, before: Option<int>)
    requires outTable !! inTable
    ensures OlderIn(outTable + inTable, before) == OlderIn(outTable, before) + OlderIn(inTable, before)
    ensures OlderIn(outTable, before) !! OlderIn(inTable, before)
    ensures |OlderIn(outTable + inTable, before)| == |OlderIn(outTable, before)| + |OlderIn(inTable, before)|
  {
    assert OlderIn(outTable + inTable, before) == OlderIn(outTable, before) + OlderIn(inTable, before);
  }

  /** Whatever the page leaves out is no newer than anything on it. */
  lemma PageLeavesOutOlder(outTable: set<Message>, inTable: set<Message>, outbound: seq<Message>, inbound: seq<Message>,
                           before: Option<int>, limit: nat, m: Message, k: nat)
    requires outTable !! inTable
    requires IsNewest(outbound, outTable, before, limit) && IsNewest(inbound, inTable, before, limit)
    requires m in OlderIn(outTable, before) || m in OlderIn(inTable, before)
    requires m !in Page(outbound, inbound, limit) && k < |Page(outbound, inbound, limit)|
    ensures m.at <= Page(outbound, inbound, limit)[k].at
  {
    var merged, page := Merged(outbound, inbound), Page(outbound, inbound, limit);
    MergedFacts(outbound, inbound);
    if m in merged {
      var i :| 0 <= i < |merged| && merged[i] == m;
      assert forall j | 0 <= j < |page| :: page[j] == merged[j];
    } else {
      assert m !in Elements(merged);
      assert m !in Elements(outbound) && m !in Elements(inbound);
      if m in OlderIn(outTable, before) {
        LeftOutByQuery(outbound, outTable, before, limit, merged, m, k);
      } else {
        LeftOutByQuery(inbound, inTable, before, limit, merged, m, k);
      }
    }
  }

  lemma PageIsAPage(outTable: set<Message>, inTable: set<Message>, outbound: seq<Message>, inbound: seq<Message>,
                    before: Option<int>, limit: nat)
    requires outTable !! inTable
    requires IsNewest(outbound, outTable, before, limit) && IsNewest(inbound, inTable, before, limit)
    ensures var page := Page(outbound, inbound, limit);
            && NoRepeats(page) && NewestFirst(page)
            && Elements(page) <= OlderIn(outTable + inTable, before)
            && |page| == Min(limit, |OlderIn(outTable + inTable, before)|)
  {
    var merged, page := Merged(outbound, inbound), Page(outbound, inbound, limit);
    OlderSplits(outTable, inTable, before);
    MergedFacts(outbound, inbound);
    forall p | p in page
      ensures p in Elements(merged)
    {
    }
  }

  /** Main result: `limit` rows from each table are enough for the newest `limit` of both. */
  lemma PageIsNewest(outTable: set<Message>, inTable: set<Message>, outbound: seq<Message>, inbound: seq<Message>,
                     before: Option<int>, limit: nat)
    requires outTable !! inTable
    requires IsNewest(outbound, outTable, before, limit) && IsNewest(inbound, inTable, before, limit)
    ensures IsNewest(Page(outbound, inbound, limit), outTable + inTable, before, limit)
  {
    var page := Page(outbound, inbound, limit);
    PageIsAPage(outTable, inTable, outbound, inbound, before, limit);
    OlderSplits(outTable, inTable, before);
    forall m, p | m in OlderIn(outTable + inTable, before) && m !in page && p in page
      ensures m.at <= p.at
    {
      var k :| 0 <= k < |page| && page[k] == p;
      PageLeavesOutOlder(outTable, inTable, outbound, inbound, before, limit, m, k);
    }
  }

  predicate OldestFirst(ms: seq<Message>) {
    forall i, j | 0 <= i <= j < |ms| :: ms[i].at <= ms[j].at
  }

  /**
   * Main result on what the caller gets: a newest `limit` of both tables older
   * than the cursor, each once, the oldest of them first.
   */
  lemma ViewIsNewestOldestFirst(outTable: set<Message>, inTable: set<Message>, outbound: seq<Message>,
                                inbound: seq<Message>, before: Option<int>, limit: nat)
    requires outTable !! inTable
    requires IsNewest(outbound, outTable, before, limit) && IsNewest(inbound, inTable, before, limit)
    ensures var shown, older := ThreadView(outbound, inbound, limit).messages, OlderIn(outTable + inTable, before);
            && OldestFirst(shown) && NoRepeats(shown)
            && (forall m | m in shown :: m in older)
            && |shown| == (if limit < |older| then limit else |older|)
            && forall m, p | m in older && m !in shown && p in shown :: m.at <= p.at
  {
    var page, shown := Page(outbound, inbound, limit), ThreadView(outbound, inbound, limit).messages;
    PageIsNewest(outTable, inTable, outbound, inbound, before, limit);
    ReverseIsOldestFirst(page);
    forall m | m in page
      ensures m in OlderIn(outTable + inTable, before)
    {
      assert m in Elements(page);
    }
  }

  lemma ReverseIsOldestFirst(ms: seq<Message>)
    requires NewestFirst(ms) && NoRepeats(ms)
    ensures OldestFirst(Reverse(ms)) && NoRepeats(Reverse(ms))
    ensures forall m :: m in Reverse(ms) <==> m in ms
  {
    var r := Reverse(ms);
    forall m
      ensures m in r <==> m in ms
    {
      if m in ms {
        var i :| 0 <= i < |ms| && ms[i] == m;
        assert r[|ms| - 1 - i] == m;
      }
    }
    forall i, j | 0 <= i <= j < |r|
      ensures r[i].at <= r[j].at
    {
      assert r[i] == ms[|ms| - 1 - i] && r[j] == ms[|ms| - 1 - j];
    }
  }

  /** There is a cursor exactly when as many are shown as were asked for, and it is the oldest of them. */
  lemma CursorIffFull(outbound: seq<Message>, inbound: seq<Message>, limit: nat)
    requires limit > 0
    ensures var view := ThreadView(outbound, inbound, limit);
            && (view.nextCursor.Some? <==> |view.messages| == limit)
            && (view.nextCursor.Some? ==> view.messages != [] && view.nextCursor.value == view.messages[0].at)
  {
  }

  // ---------------------------------------------------------------------------
  // Following the cursor
  // ---------------------------------------------------------------------------

  function OldestOf(page: seq<Message>): int
    requires page != []
  {
    page[|page| - 1].at
  }

  /** The cursor page i is asked for with: none for the first, then the oldest of the one before. */
  function BeforePage(pages: seq<seq<Message>>, i: nat): Option<int>
    requires i <= |pages|
    requires i > 0 ==> pages[i - 1] != []
  {
    if i == 0 then None else Some(OldestOf(pages[i - 1]))
  }

  /** Every page but the last was full, so each was followed by its cursor; messages may arrive meanwhile. */
  ghost predicate Followed(pages: seq<seq<Message>>, tables: seq<set<Message>>, limit: nat) {
    && limit > 0 && |pages| == |tables| > 0
    && (forall i | 0 <= i < |pages| - 1 :: |pages[i]| == limit && tables[i] <= tables[i + 1])
    && forall i | 0 <= i < |pages| :: IsNewest(pages[i], tables[i], BeforePage(pages, i), limit)
  }

  /** A message on page i is no older than that page's cursor and strictly older than the one before. */
  predicate InBounds(pages: seq<seq<Message>>, i: nat, m: Message)
    requires i < |pages| && pages[i] != [] && (i > 0 ==> pages[i - 1] != [])
  {
    OldestOf(pages[i]) <= m.at && (i > 0 ==> m.at < OldestOf(pages[i - 1]))
  }

  ghost predicate Bounded(pages: seq<seq<Message>>) {
    && (forall i | 0 <= i < |pages| - 1 :: pages[i] != [])
    && forall i, m | 0 <= i < |pages| && m in pages[i] :: InBounds(pages, i, m)
  }

  lemma FollowedIsBounded(pages: seq<seq<Message>>, tables: seq<set<Message>>, limit: nat)
    requires Followed(pages, tables, limit)
    ensures Bounded(pages)
  {
    forall i, m | 0 <= i < |pages| && m in pages[i]
      ensures InBounds(pages, i, m)
    {
      assert IsNewest(pages[i], tables[i], BeforePage(pages, i), limit);
      assert m in Elements(pages[i]);
    }
  }

  lemma {:induction false} LaterIsOlder(pages: seq<seq<Message>>, i: nat, j: nat, m: Message)
    requires Bounded(pages) && i < j < |pages| && m in pages[j]
    ensures m.at < OldestOf(pages[i])
    decreases j
  {
    assert InBounds(pages, j, m);
    if j > i + 1 {
      LaterIsOlder(pages, i, j - 1, pages[j - 1][|pages[j - 1]| - 1]);
    }
  }

  lemma PagesDisjoint(pages: seq<seq<Message>>, i: nat, j: nat)
    requires Bounded(pages) && i < j < |pages|
    ensures Elements(pages[i]) !! Elements(pages[j])
  {
    forall m | m in pages[i] && m in pages[j]
      ensures false
    {
      assert InBounds(pages, i, m);
      LaterIsOlder(pages, i, j, m);
    }
  }

  /** No message is ever shown twice. */
  lemma NeverRepeats(pages: seq<seq<Message>>, tables: seq<set<Message>>, limit: nat, i: nat, j: nat)
    requires Followed(pages, tables, limit) && i < j < |pages|
    ensures Elements(pages[i]) !! Elements(pages[j])
  {
    FollowedIsBounded(pages, tables, limit);
    PagesDisjoint(pages, i, j);
  }

  function Shown(pages: seq<seq<Message>>): set<Message> {
    set i, m | 0 <= i < |pages| && m in pages[i] :: m
  }

  lemma {:induction false} TablesGrow(tables: seq<set<Message>>, i: nat, j: nat)
    requires i <= j < |tables|
    requires forall k | 0 <= k < |tables| - 1 :: tables[k] <= tables[k + 1]
    ensures tables[i] <= tables[j]
    decreases j - i
  {
    if i < j { TablesGrow(tables, i + 1, j); }
  }

  lemma ShownOneMore(pages: seq<seq<Message>>, n: nat)
    requires 0 < n <= |pages|
    ensures Shown(pages[..n]) == Shown(pages[..n - 1]) + Elements(pages[n - 1])
  {
    forall m | m in Shown(pages[..n - 1])
      ensures m in Shown(pages[..n])
    {
      var i :| 0 <= i < n - 1 && m in pages[..n - 1][i];
      assert m in pages[..n][i];
    }
    assert pages[..n][n - 1] == pages[n - 1];
    forall m | m in Shown(pages[..n])
      ensures m in Shown(pages[..n - 1]) + Elements(pages[n - 1])
    {
      var i :| 0 <= i < n && m in pages[..n][i];
      if i < n - 1 { assert m in pages[..n - 1][i]; }
    }
  }

  lemma LastIsNew(pages: seq<seq<Message>>, n: nat)
    requires Bounded(pages) && 0 < n <= |pages|
    ensures Shown(pages[..n - 1]) !! Elements(pages[n - 1])
  {
    var before := Shown(pages[..n - 1]);
    forall m | m in before
      ensures m !in Elements(pages[n - 1])
    {
      var i :| 0 <= i < n - 1 && m in pages[..n - 1][i];
      PagesDisjoint(pages, i, n - 1);
      assert m in Elements(pages[i]);
    }
  }

  lemma FullPageFacts(pages: seq<seq<Message>>, tables: seq<set<Message>>, limit: nat, n: nat)
    requires Followed(pages, tables, limit) && n < |pages| - 1
    ensures |Elements(pages[n])| == limit && Elements(pages[n]) <= tables[n] <= tables[n + 1]
  {
    assert IsNewest(pages[n], tables[n], BeforePage(pages, n), limit);
    SizeOfElements(pages[n]);
  }

  lemma ShownGrows(pages: seq<seq<Message>>, n: nat, limit: nat, table: set<Message>)
    requires Bounded(pages) && 0 < n <= |pages|
    requires |Shown(pages[..n - 1])| == (n - 1) * limit && |Elements(pages[n - 1])| == limit
    requires Shown(pages[..n - 1]) <= table && Elements(pages[n - 1]) <= table
    ensures |Shown(pages[..n])| == n * limit && Shown(pages[..n]) <= table
  {
    ShownOneMore(pages, n);
    LastIsNew(pages, n);
    assert n * limit == (n - 1) * limit + limit;
  }

  ghost predicate FullPages(pages: seq<seq<Message>>, tables: seq<set<Message>>, limit: nat) {
    && |pages| == |tables|
    && forall i | 0 <= i < |pages| - 1 ::
         |Elements(pages[i])| == limit && Elements(pages[i]) <= tables[i] && tables[i] <= tables[i + 1]
  }

  /** What the first n pages showed: n times `limit` different messages. */
  lemma {:induction false} ShownSoFar(pages: seq<seq<Message>>, tables: seq<set<Message>>, limit: nat, n: nat)
    requires Bounded(pages) && FullPages(pages, tables, limit) && n < |pages|
    ensures |Shown(pages[..n])| == n * limit && Shown(pages[..n]) <= tables[n]
  {
    if n == 0 {
      assert Shown(pages[..0]) == {};
    } else {
      ShownSoFar(pages, tables, limit, n - 1);
      ShownGrows(pages, n, limit, tables[n]);
    }
  }

  /** Each full page uses up `limit` messages, so following the cursor comes to an end. */
  lemma FollowingEnds(pages: seq<seq<Message>>, tables: seq<set<Message>>, limit: nat)
    requires Followed(pages, tables, limit)
    ensures (|pages| - 1) * limit <= |tables[|pages| - 1]|
  {
    var n := |pages| - 1;
    FollowedIsBounded(pages, tables, limit);
    forall i | 0 <= i < n
      ensures |Elements(pages[i])| == limit && Elements(pages[i]) <= tables[i] && tables[i] <= tables[i + 1]
    {
      FullPageFacts(pages, tables, limit, i);
    }
    ShownSoFar(pages, tables, limit, n);
    SubsetSize(Shown(pages[..n]), tables[n]);
  }

  /** A message left off a full page though it is as old as the oldest on it: a tie across the boundary. */
  predicate TieCut(pages: seq<seq<Message>>, m: Message, i: nat)
    requires i < |pages| && pages[i] != []
  {
    m !in pages[i] && m.at == OldestOf(pages[i])
  }

  /** Until it is shown or cut off by a tie, a message stays ahead of the cursor. */
  lemma {:induction false} StillAhead(pages: seq<seq<Message>>, tables: seq<set<Message>>, limit: nat, m: Message, n: nat)
    requires Followed(pages, tables, limit) && n < |pages| && m in tables[0]
    requires forall i | 0 <= i < n :: m !in pages[i] && !TieCut(pages, m, i)
    ensures m in OlderIn(tables[n], BeforePage(pages, n))
  {
    if n > 0 {
      StillAhead(pages, tables, limit, m, n - 1);
      TablesGrow(tables, 0, n);
      assert IsNewest(pages[n - 1], tables[n - 1], BeforePage(pages, n - 1), limit);
      var oldest := pages[n - 1][|pages[n - 1]| - 1];
      assert oldest in pages[n - 1];
      assert !TieCut(pages, m, n - 1);
    }
  }

  /**
   * Main result: following the cursor to a page that is not full shows every
   * message there was at the start, except exactly those a tie in timestamp cut
   * off at a page boundary.
   */
  lemma MissedIffTieCut(pages: seq<seq<Message>>, tables: seq<set<Message>>, limit: nat, m: Message)
    requires Followed(pages, tables, limit) && m in tables[0]
    ensures |pages[|pages| - 1]| < limit ==>
              (m !in Shown(pages) <==> exists i :: 0 <= i < |pages| - 1 && TieCut(pages, m, i))
  {
    var n := |pages| - 1;
    if |pages[n]| == limit {
      return;
    }
    if exists i :: 0 <= i < n && TieCut(pages, m, i) {
      var i :| 0 <= i < n && TieCut(pages, m, i);
      FollowedIsBounded(pages, tables, limit);
      forall j | 0 <= j < |pages|
        ensures m !in pages[j]
      {
        TieIsNowhere(pages, m, i, j);
      }
    } else if m !in Shown(pages) {
      assert forall i | 0 <= i < |pages| :: m in pages[i] ==> m in Shown(pages);
      StillAhead(pages, tables, limit, m, n);
      LastPageHasTheRest(pages, tables, limit);
    }
  }

  lemma TieIsNowhere(pages: seq<seq<Message>>, m: Message, i: nat, j: nat)
    requires Bounded(pages) && i < |pages| - 1 && j < |pages| && TieCut(pages, m, i)
    ensures m !in pages[j]
  {
    if m in pages[j] {
      assert InBounds(pages, j, m);
      if j > i { LaterIsOlder(pages, i, j, m); }
      if j < i { LaterIsOlder(pages, j, i, pages[i][|pages[i]| - 1]); }
    }
  }

  /** A page that is not full holds everything older than its cursor. */
  lemma LastPageHasTheRest(pages: seq<seq<Message>>, tables: seq<set<Message>>, limit: nat)
    requires Followed(pages, tables, limit) && |pages[|pages| - 1]| < limit
    ensures var n := |pages| - 1; Elements(pages[n]) == OlderIn(tables[n], BeforePage(pages, n))
  {
    var n := |pages| - 1;
    assert IsNewest(pages[n], tables[n], BeforePage(pages, n), limit);
    SizeOfElements(pages[n]);
    SubsetSize(Elements(pages[n]), OlderIn(tables[n], BeforePage(pages, n)));
  }
}
