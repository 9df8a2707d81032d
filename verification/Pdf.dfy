/**
 * The file around the pages: objects, the cross-reference table that says where
 * each starts, and the trailer that says where the table starts.
 *
 * Text is latin1, so a character is a byte.
 */
module Pdf {
  import opened Decimal
  import opened Options

  const HEADER := "%PDF-1.4\n"
  const CATALOG := "<< /Type /Catalog /Pages 2 0 R >>"
  const REGULAR := "<< /Type /Font /Subtype /Type1 /BaseFont /Helvetica /Encoding /WinAnsiEncoding >>"
  const BOLD := "<< /Type /Font /Subtype /Type1 /BaseFont /Helvetica-Bold /Encoding /WinAnsiEncoding >>"
  const PAGE_HEAD := "<< /Type /Page /Parent 2 0 R"
  const FREE_ENTRY := "0000000000 65535 f \n"
  const ENTRY_TAIL := " 00000 n \n"
  const STARTXREF := "startxref\n"
  const EOF_MARK := "\n%%EOF\n"

  // ---------------------------------------------------------------------------
  // The objects, numbered from 1
  // ---------------------------------------------------------------------------

  /** `id 0 R`. */
  function Ref(id: nat): string {
    Dec(id) + " 0 R"
  }

  function PageId(i: nat): nat { 3 + i }

  function ContentId(count: nat, i: nat): nat { 3 + count + i }

  function RegularId(count: nat): nat { 3 + 2 * count }

  function BoldId(count: nat): nat { 4 + 2 * count }

  /** References to pages i and after, separated by spaces. */
  function Kids(count: nat, i: nat): string
    requires i <= count
    decreases count - i
  {
    if i == count then "" else if i == count - 1 then Ref(PageId(i)) else Ref(PageId(i)) + " " + Kids(count, i + 1)
  }

  function PageTree(count: nat): string {
    "<< /Type /Pages /Kids [" + Kids(count, 0) + "] /Count " + Dec(count) + " >>"
  }

  function PageObject(content: nat, regular: nat, bold: nat): string {
    PAGE_HEAD + (" /MediaBox [0 0 595.28 841.89] " +
    "/Resources << /Font << /F1 " + Ref(regular) + " /F2 " + Ref(bold) + " >> >> " +
    "/Contents " + Ref(content) + " >>")
  }

  function ContentObject(stream: string): string {
    "<< /Length " + Dec(|stream|) + " >>\nstream\n" + stream + "\nendstream"
  }

  function Objects(streams: seq<string>): (objects: seq<string>)
    ensures |objects| == BoldId(|streams|)
  {
    var n := |streams|;
    [CATALOG, PageTree(n)]
    + seq(n, i requires 0 <= i < n => PageObject(ContentId(n, i), RegularId(n), BoldId(n)))
    + seq(n, i requires 0 <= i < n => ContentObject(streams[i]))
    + [REGULAR, BOLD]
  }

  /** The object a reference names. */
  function Named(streams: seq<string>, id: nat): string
    requires 1 <= id <= BoldId(|streams|)
  {
    Objects(streams)[id - 1]
  }

  /** Main result on structure: page i shows stream i, in the two fonts, and its length is the stream's. */
  lemma ReferencesResolve(streams: seq<string>, i: nat)
    requires i < |streams|
    ensures var n := |streams|;
            && Named(streams, 1) == CATALOG && Named(streams, 2) == PageTree(n)
            && Named(streams, PageId(i)) == PageObject(ContentId(n, i), RegularId(n), BoldId(n))
            && Named(streams, ContentId(n, i)) == ContentObject(streams[i])
            && Named(streams, RegularId(n)) == REGULAR
            && Named(streams, BoldId(n)) == BOLD
            && Read(Dec(|streams[i]|)) == |streams[i]|
  {
    ReadDec(|streams[i]|);
  }

  // ---------------------------------------------------------------------------
  // The bytes
  // ---------------------------------------------------------------------------

  function Wrapped(id: nat, content: string): string {
    Dec(id) + " 0 obj\n" + content + "\nendobj\n"
  }

  /** Everything before object k + 1. */
  function Body(objects: seq<string>, k: nat): string
    requires k <= |objects|
  {
    if k == 0 then HEADER else Body(objects, k - 1) + Wrapped(k, objects[k - 1])
  }

  function Offset(objects: seq<string>, k: nat): nat
    requires k <= |objects|
  {
    |Body(objects, k)|
  }

  function Entry(offset: nat): string {
    PadStart(Dec(offset), 10) + ENTRY_TAIL
  }

  function TableHead(size: nat): string {
    "xref\n" + ("0 " + Dec(size + 1) + "\n")
  }

  /** The entries of the first k objects, after the free-list head. */
  function Entries(objects: seq<string>, k: nat): string
    requires k <= |objects|
  {
    if k == 0 then FREE_ENTRY else Entries(objects, k - 1) + Entry(Offset(objects, k - 1))
  }

  function Table(objects: seq<string>): string {
    TableHead(|objects|) + Entries(objects, |objects|)
  }

  function TrailerHead(size: nat): string {
    "trailer\n<< /Size " + Dec(size + 1) + " /Root 1 0 R >>\n"
  }

  function Trailer(size: nat, start: nat): string {
    TrailerHead(size) + (STARTXREF + Dec(start) + EOF_MARK)
  }

  function File(objects: seq<string>): string {
    var n := |objects|;
    Body(objects, n) + Table(objects) + Trailer(n, Offset(objects, n))
  }

  /** `s` stands in `file` at byte `at`. */
  predicate StandsAt(file: string, at: nat, s: string) {
    at + |s| <= |file| && file[at..at + |s|] == s
  }

  lemma StandsInside(a: string, s: string, b: string)
    ensures StandsAt(a + s + b, |a|, s)
  {
  }

  lemma StandsWithin(file: string, at: nat, outer: string, off: nat, s: string)
    requires StandsAt(file, at, outer) && StandsAt(outer, off, s)
    ensures StandsAt(file, at + off, s)
  {
    forall i | 0 <= i < |s|
      ensures file[at + off + i] == s[i]
    {
      assert outer[off..off + |s|][i] == s[i];
      assert file[at..at + |outer|][off + i] == outer[off + i];
    }
  }

  ghost predicate Says(s: string, what: string) {
    exists at: nat :: StandsAt(s, at, what)
  }

  lemma SaysInside(a: string, s: string, b: string)
    ensures Says(a + s + b, s)
  {
    StandsInside(a, s, b);
  }

  /** The trailer names the catalog, and counts one more than there are objects. */
  lemma TrailerNamesTheRoot(size: nat)
    ensures Says(TrailerHead(size), "/Root " + Ref(1)) && Says(TrailerHead(size), "/Size " + Dec(size + 1))
  {
    var front, count := "trailer\n<< ", "/Size " + Dec(size + 1);
    RootIsSaid(front + count + " ");
    assert TrailerHead(size) == front + count + " " + "/Root 1 0 R" + " >>\n";
    SaysInside(front, count, " /Root 1 0 R >>\n");
    assert TrailerHead(size) == front + count + " /Root 1 0 R >>\n";
  }

  lemma RootIsSaid(front: string)
    ensures Says(front + "/Root 1 0 R" + " >>\n", "/Root " + Ref(1))
  {
    assert Ref(1) == "1 0 R" && "/Root " + Ref(1) == "/Root 1 0 R";
    SaysInside(front, "/Root 1 0 R", " >>\n");
  }

  lemma PageNamesTheTree(content: nat, regular: nat, bold: nat)
    ensures Says(PageObject(content, regular, bold), "/Parent " + Ref(2))
  {
    var front, parent := "<< /Type /Page ", "/Parent " + Ref(2);
    StandsInside(front, parent, "");
    assert Ref(2) == "2 0 R" && PAGE_HEAD == front + parent + "";
    HeadStands(PageObject(content, regular, bold), PAGE_HEAD, |front|, parent);
  }

  lemma HeadStands(s: string, head: string, off: nat, what: string)
    requires head <= s && StandsAt(head, off, what)
    ensures StandsAt(s, off, what)
  {
    StandsWithin(s, 0, head, off, what);
  }

  /** The catalog names the page tree, and so does a page. */
  lemma PagesNameTheTree(content: nat, regular: nat, bold: nat)
    ensures Says(CATALOG, "/Pages " + Ref(2)) && Says(PageObject(content, regular, bold), "/Parent " + Ref(2))
  {
    assert Ref(2) == "2 0 R";
    SaysInside("<< /Type /Catalog ", "/Pages " + Ref(2), " >>");
    assert CATALOG == "<< /Type /Catalog " + ("/Pages " + Ref(2)) + " >>";
    PageNamesTheTree(content, regular, bold);
  }

  /** An object begins with the number it is referred to by. */
  lemma ObjectBeginsWithItsNumber(id: nat, content: string)
    ensures StandsAt(Wrapped(id, content), 0, Dec(id) + " 0 obj\n")
  {
    StandsInside("", Dec(id) + " 0 obj\n", content + "\nendobj\n");
    assert Wrapped(id, content) == "" + (Dec(id) + " 0 obj\n") + (content + "\nendobj\n");
  }

  function LeadingDigits(s: string): (d: string)
    ensures |d| <= |s| && AllDigits(d) && s[..|d|] == d
  {
    if s == "" || !IsDigit(s[0]) then "" else [s[0]] + LeadingDigits(s[1..])
  }

  /** An array of references as a reader of the file takes it apart: numbers, each followed by `0 R`, spaced. */
  function ReadRefs(s: string): Option<seq<nat>>
    decreases |s|
  {
    var d := LeadingDigits(s);
    if s == "" then Some([])
    else if d == "" || |s| < |d| + 4 || s[|d|..|d| + 4] != " 0 R" then None
    else
      var rest := s[|d| + 4..];
      if rest == "" then Some([Read(d)])
      else if rest[0] != ' ' then None
      else match ReadRefs(rest[1..]) case Some(more) => Some([Read(d)] + more) case None => None
  }

  lemma {:induction false} DigitsThen(d: string, t: string)
    requires AllDigits(d) && (t == "" || !IsDigit(t[0]))
    ensures LeadingDigits(d + t) == d
    decreases |d|
  {
    if d == "" {
      assert d + t == t;
    } else {
      assert (d + t)[1..] == d[1..] + t;
      DigitsThen(d[1..], t);
    }
  }

  lemma ReadRefThen(id: nat, rest: string)
    requires rest == "" || rest[0] == ' '
    ensures ReadRefs(Ref(id) + rest)
            == if rest == "" then Some([id])
               else match ReadRefs(rest[1..]) case Some(more) => Some([id] + more) case None => None
  {
    var s := Ref(id) + rest;
    assert s == Dec(id) + (" 0 R" + rest);
    DigitsThen(Dec(id), " 0 R" + rest);
    assert s[|Dec(id)|..|Dec(id)| + 4] == " 0 R";
    assert s[|Dec(id)| + 4..] == rest;
    ReadDec(id);
  }

  /** The pages from the k-th, in order. */
  function PagesFrom(count: nat, k: nat): (ids: seq<nat>)
    requires k <= count
    ensures |ids| == count - k && forall i | 0 <= i < |ids| :: ids[i] == PageId(k + i)
    decreases count - k
  {
    if k == count then [] else [PageId(k)] + PagesFrom(count, k + 1)
  }

  /** Read back, the page tree's array is exactly the pages, each once and in order. */
  lemma {:induction false} KidsListPages(count: nat, k: nat)
    requires k <= count
    ensures ReadRefs(Kids(count, k)) == Some(PagesFrom(count, k))
    decreases count - k
  {
    if k + 1 == count {
      ReadRefThen(PageId(k), "");
      assert Kids(count, k) == Ref(PageId(k)) + "";
      assert PagesFrom(count, k) == [PageId(k)];
    } else if k < count {
      KidsListPages(count, k + 1);
      var rest := " " + Kids(count, k + 1);
      ReadRefThen(PageId(k), rest);
      assert rest[1..] == Kids(count, k + 1);
      assert Ref(PageId(k)) + rest == Kids(count, k);
    }
  }

  lemma {:induction false} BodyHolds(objects: seq<string>, k: nat, n: nat)
    requires k < n <= |objects|
    ensures StandsAt(Body(objects, n), Offset(objects, k), Wrapped(k + 1, objects[k]))
    decreases n
  {
    if k == n - 1 {
      StandsInside(Body(objects, k), Wrapped(k + 1, objects[k]), "");
      assert Body(objects, n) == Body(objects, k) + Wrapped(k + 1, objects[k]) + "";
    } else {
      BodyHolds(objects, k, n - 1);
      StandsInside("", Body(objects, n - 1), Wrapped(n, objects[n - 1]));
      assert Body(objects, n) == "" + Body(objects, n - 1) + Wrapped(n, objects[n - 1]);
      StandsWithin(Body(objects, n), 0, Body(objects, n - 1), Offset(objects, k), Wrapped(k + 1, objects[k]));
    }
  }

  /** Every object stands at the position recorded for it. */
  lemma ObjectStandsAtOffset(objects: seq<string>, k: nat)
    requires k < |objects|
    ensures StandsAt(File(objects), Offset(objects, k), Wrapped(k + 1, objects[k]))
  {
    var n := |objects|;
    var rest := Table(objects) + Trailer(n, Offset(objects, n));
    BodyHolds(objects, k, n);
    StandsInside("", Body(objects, n), rest);
    assert File(objects) == "" + Body(objects, n) + rest;
    StandsWithin(File(objects), 0, Body(objects, n), Offset(objects, k), Wrapped(k + 1, objects[k]));
  }

  /** An entry is twenty bytes, the first ten of them its offset, exactly while the offset has ten digits. */
  lemma EntryIsTwentyIff(offset: nat)
    ensures |Entry(offset)| == 20 <==> offset < Pow10(10)
    ensures |Entry(offset)| == 20 ==> AllDigits(Entry(offset)[..10]) && Read(Entry(offset)[..10]) == offset
  {
    DecLength(offset, 10);
    ReadPadded(offset, 10);
    assert |ENTRY_TAIL| == 10;
    if |Entry(offset)| == 20 { assert Entry(offset)[..10] == PadStart(Dec(offset), 10); }
  }

  lemma {:induction false} OffsetsGrow(objects: seq<string>, k: nat, n: nat)
    requires k <= n <= |objects|
    ensures Offset(objects, k) <= Offset(objects, n)
    decreases n
  {
    if k < n { OffsetsGrow(objects, k, n - 1); }
  }

  lemma {:induction false} EntriesHold(objects: seq<string>, k: nat, n: nat)
    requires k < n <= |objects| && Offset(objects, n) < Pow10(10)
    ensures |Entries(objects, n)| == 20 * (n + 1)
    ensures StandsAt(Entries(objects, n), 20 * (k + 1), Entry(Offset(objects, k)))
    decreases n
  {
    OffsetsGrow(objects, n - 1, n);
    EntryIsTwentyIff(Offset(objects, n - 1));
    var before, last := Entries(objects, n - 1), Entry(Offset(objects, n - 1));
    if k < n - 1 {
      EntriesHold(objects, k, n - 1);
      HeadStands(Entries(objects, n), before, 20 * (k + 1), Entry(Offset(objects, k)));
    } else {
      assert |before| == 20 * n by { if n > 1 { EntriesHold(objects, n - 2, n - 1); } }
      StandsInside(before, last, "");
      assert Entries(objects, n) == before + last + "";
    }
  }

  /** Where the table's entry for an object stands; the free-list head has the place before the first. */
  function EntryAt(objects: seq<string>, id: nat): nat {
    Offset(objects, |objects|) + |TableHead(|objects|)| + 20 * id
  }

  /** A reader's view: the ten digits at `at` are the position of `target`. */
  predicate LeadsTo(file: string, at: nat, target: string) {
    && at + 10 <= |file| && AllDigits(file[at..at + 10])
    && StandsAt(file, Read(file[at..at + 10]), target)
  }

  lemma EntryLeads(file: string, at: nat, offset: nat, target: string)
    requires offset < Pow10(10) && StandsAt(file, at, Entry(offset)) && StandsAt(file, offset, target)
    ensures LeadsTo(file, at, target)
  {
    EntryIsTwentyIff(offset);
    assert file[at..at + 10] == file[at..at + |Entry(offset)|][..10];
  }

  lemma TableStands(objects: seq<string>)
    ensures StandsAt(File(objects), Offset(objects, |objects|), Table(objects))
  {
    var n := |objects|;
    StandsInside(Body(objects, n), Table(objects), Trailer(n, Offset(objects, n)));
  }

  lemma EntryInTable(objects: seq<string>, k: nat)
    requires k < |objects| && Offset(objects, |objects|) < Pow10(10)
    ensures StandsAt(Table(objects), |TableHead(|objects|)| + 20 * (k + 1), Entry(Offset(objects, k)))
  {
    var head, entries := TableHead(|objects|), Entries(objects, |objects|);
    EntriesHold(objects, k, |objects|);
    StandsInside(head, entries, "");
    assert Table(objects) == head + entries + "";
    StandsWithin(Table(objects), |head|, entries, 20 * (k + 1), Entry(Offset(objects, k)));
  }

  lemma EntryStands(objects: seq<string>, k: nat)
    requires k < |objects| && Offset(objects, |objects|) < Pow10(10)
    ensures StandsAt(File(objects), EntryAt(objects, k + 1), Entry(Offset(objects, k)))
  {
    var n := |objects|;
    TableStands(objects);
    EntryInTable(objects, k);
    StandsWithin(File(objects), Offset(objects, n), Table(objects), |TableHead(n)| + 20 * (k + 1), Entry(Offset(objects, k)));
  }

  /** Looking `id` up through the table of the file leads to an object with this content. */
  predicate FoundById(objects: seq<string>, id: nat, content: string) {
    1 <= id <= |objects| && LeadsTo(File(objects), EntryAt(objects, id), Wrapped(id, content))
  }

  /** Main result: looking an object up through the table lands on that object. */
  lemma TableLeadsToObjects(objects: seq<string>, k: nat)
    requires k < |objects| && Offset(objects, |objects|) < Pow10(10)
    ensures FoundById(objects, k + 1, objects[k])
  {
    EntryStands(objects, k);
    ObjectStandsAtOffset(objects, k);
    OffsetsGrow(objects, k, |objects|);
    EntryLeads(File(objects), EntryAt(objects, k + 1), Offset(objects, k), Wrapped(k + 1, objects[k]));
  }

  lemma Reassociate(a: string, b: string, c: string)
    ensures a + (b + c) == (a + b) + c
  {
  }

  /** The file ends with the table's own position, at which the table begins. */
  lemma StartxrefLeadsToTable(objects: seq<string>)
    ensures var start := Offset(objects, |objects|);
            && (exists front :: File(objects) == front + (STARTXREF + Dec(start) + EOF_MARK))
            && Read(Dec(start)) == start
            && StandsAt(File(objects), start, "xref\n")
  {
    var n := |objects|;
    var start := Offset(objects, n);
    var last := STARTXREF + Dec(start) + EOF_MARK;
    var upToTable := Body(objects, n) + Table(objects);
    Reassociate(upToTable, TrailerHead(n), last);
    assert File(objects) == (upToTable + TrailerHead(n)) + last;
    ReadDec(start);
    TableStartsWithXref(objects);
    TableStands(objects);
    StandsWithin(File(objects), start, Table(objects), 0, "xref\n");
  }

  lemma TableStartsWithXref(objects: seq<string>)
    ensures StandsAt(Table(objects), 0, "xref\n")
  {
    var rest := "0 " + Dec(|objects| + 1) + "\n";
    Reassociate("xref\n", rest, Entries(objects, |objects|));
    assert Table(objects) == "xref\n" + (rest + Entries(objects, |objects|));
  }

  // ---------------------------------------------------------------------------
  // How the file is built
  // ---------------------------------------------------------------------------

  /** The body, its offsets as it grows, the table from the offsets, the trailer. */
  method AssembleObjects(objects: seq<string>) returns (file: string)
    ensures file == File(objects)
  {
    var body := HEADER;
    var offsets: seq<nat> := [];
    for index := 0 to |objects|
      invariant body == Body(objects, index)
      invariant |offsets| == index
      invariant forall k | 0 <= k < index :: offsets[k] == Offset(objects, k)
    {
      offsets := offsets + [|body|];
      body := body + Wrapped(index + 1, objects[index]);
    }
    var xrefOffset := |body|;
    var entries := WriteEntries(objects, offsets);
    var xref := TableHead(|objects|) + entries;
    file := body + xref + Trailer(|objects|, xrefOffset);
  }

  method WriteEntries(ghost objects: seq<string>, offsets: seq<nat>) returns (entries: string)
    requires |offsets| == |objects| && forall k | 0 <= k < |objects| :: offsets[k] == Offset(objects, k)
    ensures entries == Entries(objects, |objects|)
  {
    entries := FREE_ENTRY;
    for k := 0 to |offsets|
      invariant entries == Entries(objects, k)
    {
      entries := entries + Entry(offsets[k]);
    }
  }

  method Assemble(streams: seq<string>) returns (file: string)
    ensures file == File(Objects(streams))
  {
    file := AssembleObjects(Objects(streams));
  }

  lemma SheetIsAnObject(streams: seq<string>, i: nat)
    requires i < |streams|
    ensures var id := ContentId(|streams|, i);
            1 <= id <= |Objects(streams)| && Objects(streams)[id - 1] == ContentObject(streams[i])
  {
    ReferencesResolve(streams, i);
  }

  /** The whole promise in the caller's terms: any sheet's content is found through the table. */
  lemma EverySheetIsFound(streams: seq<string>, i: nat)
    requires i < |streams| && Offset(Objects(streams), |Objects(streams)|) < Pow10(10)
    ensures FoundById(Objects(streams), ContentId(|streams|, i), ContentObject(streams[i]))
  {
    SheetIsAnObject(streams, i);
    TableLeadsToObjects(Objects(streams), ContentId(|streams|, i) - 1);
  }
}
