/**
 The completion document as a byte string, one character per byte: numbered objects,
 their offset table, and a reader that finds an object the way sections 7.5.4 and
 7.5.5 of ISO 32000-1 prescribe, from the end of the file.
 */
module PdfDocument {
  import opened Common
  import opened PdfText

  const PAGE_LINES := 42

  const HEADER := "%PDF-1.4\n%" + ['\U{00E2}', '\U{00E3}', '\U{00CF}', '\U{00D3}', '\n']
  const CATALOG := "<< /Type /Catalog /Pages 2 0 R >>"
  const FONT := "<< /Type /Font /Subtype /Type0 /BaseFont /HYSMyeongJo-Medium /Encoding /UniKS-UCS2-H /DescendantFonts [4 0 R] >>"
  const CID_FONT :=
    "<< /Type /Font /Subtype /CIDFontType0 /BaseFont /HYSMyeongJo-Medium /CIDSystemInfo << /Registry (Adobe) /Ordering (Korea1) /Supplement 2 >> >>"

  // ------------------------------------------------------------------- pages

  function Min(x: nat, y: nat): nat {
    if x < y then x else y
  }

  /** The body in pages of 42 lines from one line on; an empty body still has one page. */
  function PagesFrom(lines: seq<string>, start: nat): seq<seq<string>>
    decreases Max(1, |lines|) - start
  {
    if start >= Max(1, |lines|) then []
    else [lines[start..Min(start + PAGE_LINES, |lines|)]] + PagesFrom(lines, start + PAGE_LINES)
  }

  function Pages(lines: seq<string>): seq<seq<string>> {
    PagesFrom(lines, 0)
  }

  function Flatten(pages: seq<seq<string>>): seq<string>
    decreases |pages|
  {
    if pages == [] then [] else pages[0] + Flatten(pages[1..])
  }

  lemma {:induction false} PagesCover(lines: seq<string>, start: nat)
    requires start <= |lines|
    ensures Flatten(PagesFrom(lines, start)) == lines[start..]
    ensures forall k :: 0 <= k < |PagesFrom(lines, start)| ==> |PagesFrom(lines, start)[k]| <= PAGE_LINES
    ensures forall k :: 0 <= k < |PagesFrom(lines, start)| - 1 ==> |PagesFrom(lines, start)[k]| == PAGE_LINES
    decreases Max(1, |lines|) - start
  {
    if start < |lines| {
      var stop := Min(start + PAGE_LINES, |lines|);
      var rest := PagesFrom(lines, start + PAGE_LINES);
      assert PagesFrom(lines, start)[1..] == rest;
      if start + PAGE_LINES <= |lines| {
        PagesCover(lines, start + PAGE_LINES);
        assert lines[start..] == lines[start..stop] + lines[stop..];
      } else {
        assert rest == [];
      }
    } else if start < Max(1, |lines|) {
      assert PagesFrom(lines, PAGE_LINES) == [];
      assert PagesFrom(lines, 0)[1..] == [];
    }
  }

  /** The pages are the body lines in order, at least one page, every page but the last full. */
  lemma PagesAreTheBody(lines: seq<string>)
    ensures Flatten(Pages(lines)) == lines
    ensures |Pages(lines)| >= 1
    ensures forall k :: 0 <= k < |Pages(lines)| ==> |Pages(lines)[k]| <= PAGE_LINES
    ensures forall k :: 0 <= k < |Pages(lines)| - 1 ==> |Pages(lines)[k]| == PAGE_LINES
  {
    PagesCover(lines, 0);
    assert lines[0..] == lines;
  }

  // ----------------------------------------------------------------- objects

  function Commands(title: string, lines: seq<string>): string {
    "BT\n/F1 16 Tf\n50 790 Td\n<" + HexText(title) + "> Tj\n/F1 10 Tf\n0 -26 Td\n" + LineCommands(lines) + "ET"
  }

  function LineCommands(lines: seq<string>): string
    decreases |lines|
  {
    if lines == [] then ""
    else LineCommands(lines[..|lines| - 1]) + "<" + HexText(lines[|lines| - 1]) + "> Tj\n0 -15 Td\n"
  }

  function ContentObject(stream: string): string {
    "<< /Length " + Decimal(|stream|) + " >>\nstream\n" + stream + "\nendstream"
  }

  function PageObject(contentNumber: nat): string {
    "<< /Type /Page /Parent 2 0 R /MediaBox [0 0 595 842] /Resources << /Font << /F1 3 0 R >> >> /Contents "
    + Decimal(contentNumber) + " 0 R >>"
  }

  function PageNumber(k: nat): nat {
    5 + 2 * k
  }

  function KidsUpTo(n: nat): string {
    if n == 0 then "" else KidsUpTo(n - 1) + (if n == 1 then "" else " ") + Decimal(PageNumber(n - 1)) + " 0 R"
  }

  function PagesObject(count: nat): string {
    "<< /Type /Pages /Count " + Decimal(count) + " /Kids [" + KidsUpTo(count) + "] >>"
  }

  function PageObjects(title: string, pages: seq<seq<string>>, n: nat): seq<string>
    requires n <= |pages|
  {
    if n == 0 then []
    else PageObjects(title, pages, n - 1)
         + [PageObject(PageNumber(n - 1) + 1), ContentObject(Commands(title, pages[n - 1]))]
  }

  /** The catalog, the page tree and the two fonts. */
  function Preamble(count: nat): (objects: seq<string>)
    ensures |objects| == 4
  {
    [CATALOG, PagesObject(count), FONT, CID_FONT]
  }

  /** The fixed objects, then two objects for each page. */
  function Objects(preamble: seq<string>, title: string, pages: seq<seq<string>>): seq<string> {
    preamble + PageObjects(title, pages, |pages|)
  }

  // ------------------------------------------------------------------ layout

  function ObjectText(number: nat, value: string): string {
    Decimal(number) + " 0 obj\n" + value + "\nendobj\n"
  }

  /** The file up to the end of its first n objects. */
  function Emitted(objects: seq<string>, n: nat): string
    requires n <= |objects|
  {
    if n == 0 then HEADER else Emitted(objects, n - 1) + ObjectText(n, objects[n - 1])
  }

  function Offset(objects: seq<string>, n: nat): nat
    requires 1 <= n <= |objects|
  {
    |Emitted(objects, n - 1)|
  }

  function Entry(offset: nat): string {
    Padded(offset) + " 00000 n \n"
  }

  function Entries(objects: seq<string>, n: nat): string
    requires n <= |objects|
  {
    if n == 0 then "0000000000 65535 f \n" else Entries(objects, n - 1) + Entry(Offset(objects, n))
  }

  function XrefHead(count: nat): string {
    "xref\n0 " + Decimal(count) + "\n"
  }

  function TrailerHead(count: nat): string {
    "trailer\n<< /Size " + Decimal(count) + " /Root 1 0 R >>\n"
  }

  function Trailer(count: nat, xref: nat): string {
    TrailerHead(count) + "startxref\n" + Decimal(xref) + "\n%%EOF\n"
  }

  function File(objects: seq<string>): string {
    var n := |objects|;
    Emitted(objects, n) + XrefHead(n + 1) + Entries(objects, n) + Trailer(n + 1, |Emitted(objects, n)|)
  }

  // ------------------------------------------------------------------ writer

  method LayOut(body: seq<string>) returns (pages: seq<seq<string>>)
    ensures pages == Pages(body)
  {
    pages := [];
    var index := 0;
    while index < Max(1, |body|)
      invariant pages + PagesFrom(body, index) == Pages(body)
    {
      pages := pages + [body[index..Min(index + PAGE_LINES, |body|)]];
      index := index + PAGE_LINES;
    }
  }

  method MakeObjects(preamble: seq<string>, title: string, pages: seq<seq<string>>) returns (objects: seq<string>)
    ensures objects == Objects(preamble, title, pages)
  {
    hide PageObject, ContentObject, Commands;
    objects := preamble;
    for k := 0 to |pages|
      invariant objects == preamble + PageObjects(title, pages, k)
    {
      objects := objects + [PageObject(PageNumber(k) + 1), ContentObject(Commands(title, pages[k]))];
    }
  }

  /** Lays the pages out, makes their objects, and writes the file. */
  method Write(title: string, lines: seq<string>) returns (file: string)
    ensures var pages := Pages(Wrapped(lines)); file == File(Objects(Preamble(|pages|), title, pages))
  {
    hide *;
    var body := Wrap(lines);
    var pages := LayOut(body);
    var objects := MakeObjects(Preamble(|pages|), title, pages);
    file := Assemble(objects);
  }

  /** Writes the objects while noting where each begins, and then the offset table. */
  method Assemble(objects: seq<string>) returns (file: string)
    ensures file == File(objects)
  {
    file := HEADER;
    var offsets: seq<nat> := [0];
    hide ObjectText, XrefHead, Trailer, Entry;
    for i := 0 to |objects|
      invariant file == Emitted(objects, i)
      invariant |offsets| == i + 1 && forall k :: 1 <= k <= i ==> offsets[k] == Offset(objects, k)
    {
      offsets := offsets + [|file|];
      file := file + ObjectText(i + 1, objects[i]);
    }
    var xref := |file|;
    var table := "0000000000 65535 f \n";
    for i := 0 to |objects|
      invariant table == Entries(objects, i)
    {
      table := table + Entry(offsets[i + 1]);
    }
    file := file + XrefHead(|objects| + 1) + table + Trailer(|objects| + 1, xref);
  }

  // ------------------------------------------------------------------ reader

  /** The digits that end a text. */
  function DigitsAtEnd(s: string): (digits: string)
    ensures AllDigits(digits) && |digits| <= |s| && digits == s[|s| - |digits|..]
    decreases |s|
  {
    if s == "" || !IsDigit(s[|s| - 1]) then "" else DigitsAtEnd(s[..|s| - 1]) + [s[|s| - 1]]
  }

  predicate EndsWith(s: string, end: string) {
    |end| <= |s| && s[|s| - |end|..] == end
  }

  predicate HasAt(s: string, at: nat, text: string) {
    at + |text| <= |s| && s[at..at + |text|] == text
  }

  /** The number between startxref and the end of the file. */
  function StartXref(file: string): Option<nat> {
    if !EndsWith(file, "\n%%EOF\n") then None
    else
      var front := file[..|file| - 7];
      var digits := DigitsAtEnd(front);
      if digits == "" || !EndsWith(front[..|front| - |digits|], "startxref\n") then None else Some(Number(digits))
  }

  function FirstNewline(s: string, from: nat): (at: nat)
    requires from <= |s|
    ensures from <= at <= |s|
    ensures at < |s| ==> s[at] == '\n'
    ensures forall i :: from <= i < at ==> s[i] != '\n'
    decreases |s| - from
  {
    if from == |s| || s[from] == '\n' then from else FirstNewline(s, from + 1)
  }

  /** The offset the table gives for an object: entries are twenty bytes, ten of them the offset. */
  function TableOffset(file: string, n: nat): Option<nat> {
    match StartXref(file)
    case None => None
    case Some(xref) =>
      if !HasAt(file, xref, "xref\n0 ") then None
      else
        var entry := FirstNewline(file, xref + 7) + 1 + 20 * n;
        if entry + 20 > |file| || !AllDigits(file[entry..entry + 10]) || !HasAt(file, entry + 10, " 00000 n \n") then None
        else Some(Number(file[entry..entry + 10]))
  }

  // ---------------------------------------------------------- reading it back

  lemma HasMiddle(front: string, text: string, back: string)
    ensures HasAt(front + text + back, |front|, text)
  {
  }

  lemma {:induction false} EmittedPrefix(objects: seq<string>, n: nat, m: nat)
    requires n <= m <= |objects|
    ensures Emitted(objects, n) <= Emitted(objects, m)
    decreases m - n
  {
    if n < m {
      EmittedPrefix(objects, n, m - 1);
    }
  }

  /** Every object stands whole at its noted offset. */
  lemma ObjectAtOffset(objects: seq<string>, n: nat)
    requires 1 <= n <= |objects|
    ensures HasAt(File(objects), Offset(objects, n), ObjectText(n, objects[n - 1]))
    ensures Offset(objects, n) + |ObjectText(n, objects[n - 1])| <= |Emitted(objects, |objects|)|
  {
    EmittedPrefix(objects, n, |objects|);
    var all := Emitted(objects, |objects|);
    var upTo := Emitted(objects, n);
    assert upTo == Emitted(objects, n - 1) + ObjectText(n, objects[n - 1]);
    assert upTo <= File(objects) by {
      hide Emitted;
      assert all <= File(objects);
    }
    hide Emitted, File;
    var file := File(objects);
    assert file[..|upTo|] == upTo;
    assert file[|Emitted(objects, n - 1)|..|upTo|] == upTo[|Emitted(objects, n - 1)|..];
  }

  lemma {:induction false} DigitsAfter(front: string, digits: string)
    requires AllDigits(digits) && (front == "" || !IsDigit(front[|front| - 1]))
    ensures DigitsAtEnd(front + digits) == digits
    decreases |digits|
  {
    if digits == "" {
      assert front + digits == front;
    } else {
      var n := |digits| - 1;
      assert (front + digits)[..|front + digits| - 1] == front + digits[..n];
      DigitsAfter(front, digits[..n]);
    }
  }

  lemma StartXrefOf(front: string, xref: nat)
    ensures StartXref(front + "startxref\n" + Decimal(xref) + "\n%%EOF\n") == Some(xref)
  {
    var start := front + "startxref\n";
    var file := start + Decimal(xref) + "\n%%EOF\n";
    DecimalReadsBack(xref);
    assert start[|start| - 1] == '\n';
    DigitsAfter(start, Decimal(xref));
    assert file[..|file| - 7] == start + Decimal(xref);
    assert (start + Decimal(xref))[..|start|] == start;
  }

  lemma RegroupEnd(a: string, b: string, c: string, d: string, e: string)
    ensures a + (b + c + d + e) == (a + b) + c + d + e
  {
  }

  /** The file ends by saying where its table begins. */
  lemma StartXrefIsTheTable(objects: seq<string>)
    ensures StartXref(File(objects)) == Some(|Emitted(objects, |objects|)|)
  {
    hide Emitted, Entries, Decimal, StartXref, XrefHead, TrailerHead;
    var n := |objects|;
    var xref := |Emitted(objects, n)|;
    var front := Emitted(objects, n) + XrefHead(n + 1) + Entries(objects, n);
    RegroupEnd(front, TrailerHead(n + 1), "startxref\n", Decimal(xref), "\n%%EOF\n");
    StartXrefOf(front + TrailerHead(n + 1), xref);
  }

  /** A table entry has its twenty bytes exactly for an offset below ten to the tenth. */
  lemma EntryIsTwentyBytesIff(offset: nat)
    ensures |Entry(offset)| == 20 <==> offset < Power10(10)
  {
    PaddedReadsBack(offset);
  }

  lemma {:induction false} EntriesLength(objects: seq<string>, n: nat)
    requires n <= |objects| && forall k :: 1 <= k <= n ==> Offset(objects, k) < Power10(10)
    ensures |Entries(objects, n)| == 20 * (n + 1)
  {
    hide Offset, Power10, Entry;
    if n > 0 {
      EntriesLength(objects, n - 1);
      EntryIsTwentyBytesIff(Offset(objects, n));
    }
  }

  lemma {:induction false} EntriesPrefix(objects: seq<string>, n: nat, m: nat)
    requires n <= m <= |objects|
    ensures Entries(objects, n) <= Entries(objects, m)
    decreases m - n
  {
    hide Entry, Offset;
    if n < m {
      EntriesPrefix(objects, n, m - 1);
    }
  }

  lemma {:induction false} NewlineAfterDigits(s: string, from: nat, digits: nat)
    requires from + digits < |s| && AllDigits(s[from..from + digits]) && s[from + digits] == '\n'
    ensures FirstNewline(s, from) == from + digits
    decreases digits
  {
    if digits > 0 {
      assert IsDigit(s[from..from + digits][0]);
      assert s[from + 1..from + digits] == s[from..from + digits][1..];
      NewlineAfterDigits(s, from + 1, digits - 1);
    }
  }

  lemma XrefHeadParts(count: nat)
    ensures XrefHead(count) == "xref\n0 " + Decimal(count) + "\n" && |XrefHead(count)| == 8 + |Decimal(count)|
    ensures AllDigits(Decimal(count))
  {
    DecimalReadsBack(count);
  }

  lemma HasTag(front: string, tag: string, digits: string, back: string)
    ensures HasAt(front + (tag + digits + "\n") + back, |front|, tag)
  {
    assert front + (tag + digits + "\n") + back == front + tag + (digits + "\n" + back);
    HasMiddle(front, tag, digits + "\n" + back);
  }

  lemma HasDigits(front: string, tag: string, digits: string, back: string)
    ensures HasAt(front + (tag + digits + "\n") + back, |front| + |tag|, digits)
  {
    assert front + (tag + digits + "\n") + back == (front + tag) + digits + ("\n" + back);
    HasMiddle(front + tag, digits, "\n" + back);
  }

  lemma HasNewline(front: string, tag: string, digits: string, back: string)
    ensures HasAt(front + (tag + digits + "\n") + back, |front| + |tag| + |digits|, "\n")
  {
    assert front + (tag + digits + "\n") + back == (front + tag + digits) + "\n" + back;
    HasMiddle(front + tag + digits, "\n", back);
  }

  lemma LineEndsAt(s: string, at: nat, digits: string)
    requires AllDigits(digits) && HasAt(s, at, digits) && HasAt(s, at + |digits|, "\n")
    ensures FirstNewline(s, at) == at + |digits|
  {
    assert s[at + |digits|] == s[at + |digits|..at + |digits| + 1][0];
    NewlineAfterDigits(s, at, |digits|);
  }

  /** A tag of seven characters, digits, and the newline that ends the line. */
  lemma LineEnds(front: string, tag: string, digits: string, back: string)
    requires |tag| == 7 && AllDigits(digits)
    ensures var s := front + (tag + digits + "\n") + back;
            HasAt(s, |front|, tag) && |front| + 7 <= |s| && FirstNewline(s, |front| + 7) == |front| + 7 + |digits|
  {
    HasTag(front, tag, digits, back);
    HasDigits(front, tag, digits, back);
    HasNewline(front, tag, digits, back);
    LineEndsAt(front + (tag + digits + "\n") + back, |front| + 7, digits);
  }

  lemma FirstLineOfTable(front: string, count: nat, back: string)
    ensures var s := front + XrefHead(count) + back;
            && HasAt(s, |front|, "xref\n0 ")
            && FirstNewline(s, |front| + 7) + 1 == |front| + |XrefHead(count)|
  {
    XrefHeadParts(count);
    hide XrefHead, Decimal, FirstNewline, HasAt;
    LineEnds(front, "xref\n0 ", Decimal(count), back);
  }

  lemma EntryReadsBack(front: string, offset: nat, back: string)
    requires offset < Power10(10)
    ensures var s := front + Entry(offset) + back;
            && |front| + 20 <= |s|
            && AllDigits(s[|front|..|front| + 10]) && Number(s[|front|..|front| + 10]) == offset
            && HasAt(s, |front| + 10, " 00000 n \n")
  {
    PaddedReadsBack(offset);
    var s := front + Entry(offset) + back;
    assert s[|front|..|front| + 10] == Padded(offset);
    assert s[|front| + 10..|front| + 20] == " 00000 n \n";
  }

  lemma Regroup(a: string, b: string, c: string, d: string, e: string)
    ensures a + b + (c + d + e) == (a + b + c) + d + e
  {
  }

  lemma Rest(table: string, before: string, entry: string, trailer: string)
    requires before + entry <= table
    ensures table + trailer == before + entry + (table[|before + entry|..] + trailer)
  {
  }

  /** The file around its n-th table entry. */
  lemma FileAroundEntry(objects: seq<string>, n: nat) returns (before: string, after: string)
    requires 1 <= n <= |objects| && forall k :: 1 <= k < n ==> Offset(objects, k) < Power10(10)
    ensures |before| == 20 * n
    ensures var all := Emitted(objects, |objects|);
            File(objects) == all + XrefHead(|objects| + 1) + (before + Entry(Offset(objects, n)) + after)
  {
    hide Emitted, XrefHead, Trailer, Entry, Offset, Power10;
    var size := |objects|;
    EntriesLength(objects, n - 1);
    EntriesPrefix(objects, n, size);
    before := Entries(objects, n - 1);
    var entry, table := Entry(Offset(objects, n)), Entries(objects, size);
    var trailer := Trailer(size + 1, |Emitted(objects, size)|);
    after := table[|before + entry|..] + trailer;
    Rest(table, before, entry, trailer);
    FileParts(objects);
  }

  lemma FileParts(objects: seq<string>)
    ensures var n := |objects|;
            File(objects) == Emitted(objects, n) + XrefHead(n + 1) + (Entries(objects, n) + Trailer(n + 1, |Emitted(objects, n)|))
  {
    hide Emitted, XrefHead, Entries, Trailer;
  }

  lemma TableOffsetIs(objects: seq<string>, n: nat)
    requires 1 <= n <= |objects| && forall k :: 1 <= k <= n ==> Offset(objects, k) < Power10(10)
    ensures TableOffset(File(objects), n) == Some(Offset(objects, n))
  {
    hide Emitted, XrefHead, File, Entry, Offset, StartXref, FirstNewline, Power10, HasAt, Number;
    var before, after := FileAroundEntry(objects, n);
    StartXrefIsTheTable(objects);
    var all, head, file := Emitted(objects, |objects|), XrefHead(|objects| + 1), File(objects);
    var entry := Entry(Offset(objects, n));
    FirstLineOfTable(all, |objects| + 1, before + entry + after);
    Regroup(all, head, before, entry, after);
    EntryReadsBack(all + head + before, Offset(objects, n), after);
  }

  /** The table leads to an object with this number and value. */
  predicate Finds(file: string, n: nat, value: string) {
    TableOffset(file, n).Some? && HasAt(file, TableOffset(file, n).value, ObjectText(n, value))
  }

  /** Every object begins below ten to the tenth, so every table entry has its twenty bytes. */
  ghost predicate OffsetsFit(objects: seq<string>) {
    forall k :: 1 <= k <= |objects| ==> Offset(objects, k) < Power10(10)
  }

  /**
   Reading the file from its end finds an object: startxref leads to the table, and the table's entry
   for n leads to the text "n 0 obj" with exactly the object's value.
   */
  lemma EveryObjectIsFound(objects: seq<string>, n: nat)
    requires 1 <= n <= |objects| && OffsetsFit(objects)
    ensures Finds(File(objects), n, objects[n - 1])
  {
    hide TableOffset, Power10, ObjectText;
    TableOffsetIs(objects, n);
    ObjectAtOffset(objects, n);
  }

  lemma LongEntry(front: string, offset: nat, back: string)
    requires offset >= Power10(10)
    ensures !HasAt(front + Entry(offset) + back, |front| + 10, " 00000 n \n")
  {
    PaddedReadsBack(offset);
    DecimalLength(offset, 10);
    var s := front + Entry(offset) + back;
    assert s[|front| + 10] == Padded(offset)[10];
    assert IsDigit(Padded(offset)[10]);
    assert " 00000 n \n"[0] == ' ';
  }

  /** The first entry that is too long is not read at all. */
  lemma LongEntryIsNotRead(objects: seq<string>, n: nat)
    requires 1 <= n <= |objects| && forall k :: 1 <= k < n ==> Offset(objects, k) < Power10(10)
    requires Offset(objects, n) >= Power10(10)
    ensures TableOffset(File(objects), n).None?
  {
    hide Emitted, XrefHead, File, Entry, Offset, StartXref, FirstNewline, Power10, HasAt, Number;
    var before, after := FileAroundEntry(objects, n);
    StartXrefIsTheTable(objects);
    var all, head := Emitted(objects, |objects|), XrefHead(|objects| + 1);
    FirstLineOfTable(all, |objects| + 1, before + Entry(Offset(objects, n)) + after);
    Regroup(all, head, before, Entry(Offset(objects, n)), after);
    LongEntry(all + head + before, Offset(objects, n), after);
  }

  lemma {:induction false} FirstLongOffset(objects: seq<string>, n: nat) returns (first: nat)
    requires 1 <= n <= |objects| && Offset(objects, n) >= Power10(10)
    ensures 1 <= first <= n && Offset(objects, first) >= Power10(10)
    ensures forall k :: 1 <= k < first ==> Offset(objects, k) < Power10(10)
    decreases n
  {
    hide Offset, Power10;
    if k :| 1 <= k < n && Offset(objects, k) >= Power10(10) {
      first := FirstLongOffset(objects, k);
    } else {
      first := n;
    }
  }

  predicate ObjectFound(objects: seq<string>, n: nat)
    requires 1 <= n <= |objects|
  {
    Finds(File(objects), n, objects[n - 1])
  }

  /** A reader finds every object exactly when every object begins below ten to the tenth. */
  lemma EveryObjectIsFoundIff(objects: seq<string>)
    ensures (forall n :: 1 <= n <= |objects| ==> ObjectFound(objects, n)) <==> OffsetsFit(objects)
  {
    hide File, Finds, Offset, Power10;
    if OffsetsFit(objects) {
      forall n | 1 <= n <= |objects| ensures ObjectFound(objects, n) {
        EveryObjectIsFound(objects, n);
      }
    } else {
      var long :| 1 <= long <= |objects| && Offset(objects, long) >= Power10(10);
      var first := FirstLongOffset(objects, long);
      LongEntryIsNotRead(objects, first);
      NotFound(File(objects), first, objects[first - 1]);
      assert !ObjectFound(objects, first);
    }
  }

  lemma NotFound(file: string, n: nat, value: string)
    requires TableOffset(file, n).None?
    ensures !Finds(file, n, value)
  {
  }

  // --------------------------------------------------------------- the pages

  lemma {:induction false} PageObjectsAt(title: string, pages: seq<seq<string>>, n: nat, k: nat)
    requires k < n <= |pages|
    ensures |PageObjects(title, pages, n)| == 2 * n
    ensures PageObjects(title, pages, n)[2 * k] == PageObject(PageNumber(k) + 1)
    ensures PageObjects(title, pages, n)[2 * k + 1] == ContentObject(Commands(title, pages[k]))
    decreases n
  {
    hide PageObject, ContentObject, Commands;
    if k < n - 1 {
      PageObjectsAt(title, pages, n - 1, k);
    } else if n > 1 {
      PageObjectsAt(title, pages, n - 1, 0);
    }
  }

  /** A content object states exactly the length of its stream. */
  lemma LengthIsExact(stream: string)
    ensures var text := ContentObject(stream);
            var digits := Decimal(|stream|);
            && HasAt(text, 0, "<< /Length ")
            && HasAt(text, 11, digits) && AllDigits(digits) && Number(digits) == |stream|
            && HasAt(text, 11 + |digits|, " >>\nstream\n" + stream + "\nendstream")
            && |text| == 11 + |digits| + 11 + |stream| + 10
  {
    DecimalReadsBack(|stream|);
    var digits := Decimal(|stream|);
    HasMiddle("", "<< /Length ", digits + " >>\nstream\n" + stream + "\nendstream");
    hide Decimal;
    assert ContentObject(stream) == "<< /Length " + digits + (" >>\nstream\n" + stream + "\nendstream");
    assert |" >>\nstream\n"| == 11 && |"\nendstream"| == 10;
  }

  lemma ObjectNumbers(preamble: seq<string>, title: string, pages: seq<seq<string>>, k: nat)
    requires |preamble| == 4 && k < |pages|
    ensures |Objects(preamble, title, pages)| == 4 + 2 * |pages|
    ensures Objects(preamble, title, pages)[PageNumber(k) - 1] == PageObject(PageNumber(k) + 1)
    ensures Objects(preamble, title, pages)[PageNumber(k)] == ContentObject(Commands(title, pages[k]))
  {
    hide PageObjects, PageObject, ContentObject, Commands;
    PageObjectsAt(title, pages, |pages|, k);
  }

  /**
   Page k of the document is object 5 + 2k; its contents are the next object, whose stream draws exactly the
   k-th group of wrapped lines. Both are found through the table, whatever the four fixed objects are.
   */
  lemma PagesAreLinked(preamble: seq<string>, title: string, lines: seq<string>, k: nat)
    requires |preamble| == 4 && k < |Pages(Wrapped(lines))|
    requires OffsetsFit(Objects(preamble, title, Pages(Wrapped(lines))))
    ensures var pages := Pages(Wrapped(lines));
            var file := File(Objects(preamble, title, pages));
            && Finds(file, PageNumber(k), PageObject(PageNumber(k) + 1))
            && Finds(file, PageNumber(k) + 1, ContentObject(Commands(title, pages[k])))
  {
    hide Objects, Pages, Wrapped, File, Finds, PageObject, ContentObject, Commands, OffsetsFit;
    var pages := Pages(Wrapped(lines));
    var objects := Objects(preamble, title, pages);
    ObjectNumbers(preamble, title, pages, k);
    EveryObjectIsFound(objects, PageNumber(k));
    EveryObjectIsFound(objects, PageNumber(k) + 1);
  }

  /** The Kids array lists exactly the page objects, in order, and Count is their number. */
  function ReadKids(s: string): seq<nat>
    decreases |s|
  {
    if s == "" then []
    else if !EndsWith(s, " 0 R") then []
    else
      var front := s[..|s| - 4];
      var digits := DigitsAtEnd(front);
      var rest := front[..|front| - |digits|];
      ReadKids(if rest == "" then "" else rest[..|rest| - 1]) + [Number(digits)]
  }

  lemma KidEnds(front: string, digits: string, end: string)
    ensures var s := front + digits + end;
            && EndsWith(s, end) && s[..|s| - |end|] == front + digits
            && (front + digits)[..|front + digits| - |digits|] == front
  {
  }

  lemma ReadKidsStep(s: string, front: string, digits: string)
    requires EndsWith(s, " 0 R") && s[..|s| - 4] == front + digits && DigitsAtEnd(front + digits) == digits
    requires (front + digits)[..|front + digits| - |digits|] == front && AllDigits(digits)
    ensures ReadKids(s) == ReadKids(if front == "" then "" else front[..|front| - 1]) + [Number(digits)]
  {
    hide DigitsAtEnd, Number;
  }

  lemma ReadOneKid(front: string, number: nat)
    requires front == "" || !IsDigit(front[|front| - 1])
    ensures ReadKids(front + Decimal(number) + " 0 R")
            == ReadKids(if front == "" then "" else front[..|front| - 1]) + [number]
  {
    hide DigitsAtEnd, Decimal, Number, EndsWith, ReadKids;
    DecimalReadsBack(number);
    DigitsAfter(front, Decimal(number));
    KidEnds(front, Decimal(number), " 0 R");
    ReadKidsStep(front + Decimal(number) + " 0 R", front, Decimal(number));
  }

  function PageNumbers(n: nat): seq<nat> {
    if n == 0 then [] else PageNumbers(n - 1) + [PageNumber(n - 1)]
  }

  lemma {:induction false} KidsReadBack(n: nat)
    ensures ReadKids(KidsUpTo(n)) == PageNumbers(n)
    ensures n > 0 ==> KidsUpTo(n) != ""
  {
    hide ReadKids, Decimal;
    if n == 1 {
      ReadOneKid("", PageNumber(0));
      assert KidsUpTo(0) + "" == "";
      ReadNoKids();
    } else if n > 1 {
      KidsReadBack(n - 1);
      var front := KidsUpTo(n - 1) + " ";
      ReadOneKid(front, PageNumber(n - 1));
      assert front[..|front| - 1] == KidsUpTo(n - 1);
    } else {
      ReadNoKids();
    }
  }

  lemma ReadNoKids()
    ensures ReadKids("") == []
  {
  }
}
