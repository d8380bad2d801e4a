/**
 A reader of the completion document that knows nothing but the file: it goes from
 startxref and the trailer to the catalog, the page tree, every page's contents, and
 decodes what they draw. What it reads is what was written.
 */
module PdfReader {
  import opened Common
  import opened PdfText
  import opened PdfDocument

  // ------------------------------------------------------- reading a text

  /** What follows the given text. */
  function Skip(s: string, text: string): Option<string> {
    if text <= s then Some(s[|text|..]) else None
  }

  function DigitCount(s: string): (n: nat)
    ensures n <= |s| && AllDigits(s[..n])
    ensures n < |s| ==> !IsDigit(s[n])
    decreases |s|
  {
    if s == "" || !IsDigit(s[0]) then 0
    else
      assert forall i :: 0 <= i < DigitCount(s[1..]) ==> s[i + 1] == s[1..][..DigitCount(s[1..])][i];
      1 + DigitCount(s[1..])
  }

  /** A number and what follows it. */
  function TakeNumber(s: string): Option<(nat, string)> {
    var n := DigitCount(s);
    if n == 0 then None else Some((Number(s[..n]), s[n..]))
  }

  function IndexOf(s: string, c: char): (at: nat)
    ensures at <= |s| && (at < |s| ==> s[at] == c)
    ensures forall i :: 0 <= i < at ==> s[i] != c
    decreases |s|
  {
    if s == "" || s[0] == c then 0 else 1 + IndexOf(s[1..], c)
  }

  /** The text before a character, and what follows that character. */
  function TakeUntil(s: string, c: char): Option<(string, string)> {
    var at := IndexOf(s, c);
    if at == |s| then None else Some((s[..at], s[at + 1..]))
  }

  /** A number between two texts. */
  function TakeBetween(s: string, front: string, back: string): Option<(nat, string)> {
    match Skip(s, front)
    case None => None
    case Some(rest) =>
      match TakeNumber(rest)
      case None => None
      case Some((n, more)) =>
        match Skip(more, back)
        case None => None
        case Some(end) => Some((n, end))
  }

  // ------------------------------------------------------ reading the file

  const PAGE_FRONT :=
    "<< /Type /Page /Parent 2 0 R /MediaBox [0 0 595 842] /Resources << /Font << /F1 3 0 R >> >> /Contents "

  /** The object the trailer names as the root. */
  function RootOf(file: string): Option<nat> {
    if !EndsWith(file, "\n%%EOF\n") then None
    else
      var front := file[..|file| - 7];
      var before := front[..|front| - |DigitsAtEnd(front)|];
      if !EndsWith(before, " 0 R >>\nstartxref\n") then None
      else
        var inner := before[..|before| - 18];
        var digits := DigitsAtEnd(inner);
        if digits == "" || !EndsWith(inner[..|inner| - |digits|], " /Root ") then None else Some(Number(digits))
  }

  /** What follows "n 0 obj" at the place the table gives for n. */
  function Body(file: string, n: nat): Option<string> {
    match TableOffset(file, n)
    case None => None
    case Some(at) => if at > |file| then None else Skip(file[at..], Decimal(n) + " 0 obj\n")
  }

  function ReadReference(file: string, n: nat, front: string): Option<nat> {
    match Body(file, n)
    case None => None
    case Some(body) =>
      match TakeBetween(body, front, " 0 R >>")
      case None => None
      case Some((number, _)) => Some(number)
  }

  /** The pages of the page tree; their number must be the stated one. */
  function ReadPageTree(file: string, n: nat): Option<seq<nat>> {
    match Body(file, n)
    case None => None
    case Some(body) =>
      match TakeBetween(body, "<< /Type /Pages /Count ", " /Kids [")
      case None => None
      case Some((count, rest)) =>
        match TakeUntil(rest, ']')
        case None => None
        case Some((kids, _)) => if |ReadKids(kids)| == count then Some(ReadKids(kids)) else None
  }

  /** As many bytes as the object's Length says, and then endstream. */
  function ReadStream(file: string, n: nat): Option<string> {
    match Body(file, n)
    case None => None
    case Some(body) =>
      match TakeBetween(body, "<< /Length ", " >>\nstream\n")
      case None => None
      case Some((length, rest)) =>
        if length > |rest| || Skip(rest[length..], "\nendstream").None? then None else Some(rest[..length])
  }

  datatype Drawn = Drawn(title: string, lines: seq<string>)

  function ReadLines(s: string): Option<seq<string>>
    decreases |s|
  {
    if s == "ET" then Some([])
    else
      match Skip(s, "<")
      case None => None
      case Some(rest) =>
        match TakeUntil(rest, '>')
        case None => None
        case Some((hex, more)) =>
          match Skip(more, " Tj\n0 -15 Td\n")
          case None => None
          case Some(next) =>
            match ReadLines(next)
            case None => None
            case Some(lines) => Some([ReadHex(hex)] + lines)
  }

  /** What a content stream draws. */
  function ReadCommands(s: string): Option<Drawn> {
    match Skip(s, "BT\n/F1 16 Tf\n50 790 Td\n<")
    case None => None
    case Some(rest) =>
      match TakeUntil(rest, '>')
      case None => None
      case Some((hex, more)) =>
        match Skip(more, " Tj\n/F1 10 Tf\n0 -26 Td\n")
        case None => None
        case Some(next) =>
          match ReadLines(next)
          case None => None
          case Some(lines) => Some(Drawn(ReadHex(hex), lines))
  }

  function ReadPage(file: string, n: nat): Option<Drawn> {
    match ReadReference(file, n, PAGE_FRONT)
    case None => None
    case Some(content) =>
      match ReadStream(file, content)
      case None => None
      case Some(stream) => ReadCommands(stream)
  }

  function ReadPages(file: string, numbers: seq<nat>): Option<seq<Drawn>>
    decreases |numbers|
  {
    if numbers == [] then Some([])
    else
      var n := |numbers| - 1;
      match ReadPages(file, numbers[..n])
      case None => None
      case Some(before) =>
        match ReadPage(file, numbers[n])
        case None => None
        case Some(page) => Some(before + [page])
  }

  /** The whole document, from the end of the file. */
  function ReadDocument(file: string): Option<seq<Drawn>> {
    match RootOf(file)
    case None => None
    case Some(root) =>
      match ReadReference(file, root, "<< /Type /Catalog /Pages ")
      case None => None
      case Some(tree) =>
        match ReadPageTree(file, tree)
        case None => None
        case Some(kids) => ReadPages(file, kids)
  }

  // --------------------------------------------------- what the parts read

  lemma SkipText(text: string, rest: string)
    ensures Skip(text + rest, text) == Some(rest)
  {
  }

  lemma {:induction false} DigitsCounted(digits: string, rest: string)
    requires AllDigits(digits) && (rest == "" || !IsDigit(rest[0]))
    ensures DigitCount(digits + rest) == |digits|
    decreases |digits|
  {
    if digits == "" {
      assert digits + rest == rest;
    } else {
      assert (digits + rest)[1..] == digits[1..] + rest;
      DigitsCounted(digits[1..], rest);
    }
  }

  lemma NumberTaken(n: nat, rest: string)
    requires rest == "" || !IsDigit(rest[0])
    ensures TakeNumber(Decimal(n) + rest) == Some((n, rest))
  {
    DecimalReadsBack(n);
    DigitsCounted(Decimal(n), rest);
    assert (Decimal(n) + rest)[..|Decimal(n)|] == Decimal(n);
  }

  lemma {:induction false} IndexFound(text: string, c: char, rest: string)
    requires forall i :: 0 <= i < |text| ==> text[i] != c
    ensures IndexOf(text + [c] + rest, c) == |text|
    decreases |text|
  {
    if text != "" {
      assert (text + [c] + rest)[1..] == text[1..] + [c] + rest;
      IndexFound(text[1..], c, rest);
    }
  }

  lemma TakenUntil(text: string, c: char, rest: string)
    requires forall i :: 0 <= i < |text| ==> text[i] != c
    ensures TakeUntil(text + [c] + rest, c) == Some((text, rest))
  {
    IndexFound(text, c, rest);
    var s := text + [c] + rest;
    assert s[..|text|] == text && s[|text| + 1..] == rest;
  }

  lemma TakenBetween(front: string, n: nat, back: string, rest: string)
    requires back != "" && !IsDigit(back[0])
    ensures TakeBetween(front + Decimal(n) + back + rest, front, back) == Some((n, rest))
  {
    hide Decimal, TakeNumber, Skip;
    assert front + Decimal(n) + back + rest == front + (Decimal(n) + (back + rest));
    SkipText(front, Decimal(n) + (back + rest));
    NumberTaken(n, back + rest);
    SkipText(back, rest);
  }

  // ------------------------------------------------------------- the objects

  /** The body of an object the table leads to. */
  lemma BodyOf(file: string, n: nat, value: string) returns (rest: string)
    requires Finds(file, n, value)
    ensures Body(file, n) == Some(value + rest)
  {
    hide TableOffset, Decimal;
    var at := TableOffset(file, n).value;
    var text := ObjectText(n, value);
    var after := file[at + |text|..];
    assert file[at..] == text + after;
    rest := "\nendobj\n" + after;
    assert text + after == (Decimal(n) + " 0 obj\n") + (value + rest);
    SkipText(Decimal(n) + " 0 obj\n", value + rest);
  }

  lemma ReferenceRead(file: string, n: nat, front: string, number: nat)
    requires Finds(file, n, front + Decimal(number) + " 0 R >>")
    ensures ReadReference(file, n, front) == Some(number)
  {
    hide Finds, Decimal, Body, TakeBetween;
    var rest := BodyOf(file, n, front + Decimal(number) + " 0 R >>");
    TakenBetween(front, number, " 0 R >>", rest);
  }

  lemma {:induction false} KidsHaveNoBracket(n: nat)
    ensures forall i :: 0 <= i < |KidsUpTo(n)| ==> KidsUpTo(n)[i] != ']'
  {
    if n > 0 {
      KidsHaveNoBracket(n - 1);
      DecimalReadsBack(PageNumber(n - 1));
    }
  }

  lemma {:induction false} PageNumbersAre(n: nat)
    ensures |PageNumbers(n)| == n && forall k :: 0 <= k < n ==> PageNumbers(n)[k] == PageNumber(k)
  {
    if n > 0 { PageNumbersAre(n - 1); }
  }

  lemma PageTreeRead(file: string, n: nat, count: nat)
    requires Finds(file, n, PagesObject(count))
    ensures ReadPageTree(file, n) == Some(PageNumbers(count))
  {
    hide Finds, Decimal, Body, TakeBetween, TakeUntil, ReadKids, KidsUpTo;
    var rest := BodyOf(file, n, PagesObject(count));
    var kids := KidsUpTo(count);
    assert PagesObject(count) + rest
           == "<< /Type /Pages /Count " + Decimal(count) + " /Kids [" + (kids + [']'] + (" >>" + rest));
    TakenBetween("<< /Type /Pages /Count ", count, " /Kids [", kids + [']'] + (" >>" + rest));
    KidsHaveNoBracket(count);
    TakenUntil(kids, ']', " >>" + rest);
    KidsReadBack(count);
    PageNumbersAre(count);
  }

  lemma StreamRead(file: string, n: nat, stream: string)
    requires Finds(file, n, ContentObject(stream))
    ensures ReadStream(file, n) == Some(stream)
  {
    hide Finds, Decimal, Body, TakeBetween;
    var rest := BodyOf(file, n, ContentObject(stream));
    assert ContentObject(stream) + rest
           == "<< /Length " + Decimal(|stream|) + " >>\nstream\n" + (stream + ("\nendstream" + rest));
    TakenBetween("<< /Length ", |stream|, " >>\nstream\n", stream + ("\nendstream" + rest));
    var more := stream + ("\nendstream" + rest);
    assert more[..|stream|] == stream && more[|stream|..] == "\nendstream" + rest;
    SkipText("\nendstream", rest);
  }

  // ------------------------------------------------------------ the commands

  lemma HexDigitIsNoBracket(d: nat)
    requires d < 16
    ensures HexDigit(d) != '>'
  {
  }

  lemma Hex4HasNoBracket(unit: nat)
    requires unit < 0x10000
    ensures forall i :: 0 <= i < 4 ==> Hex4(unit)[i] != '>'
  {
    hide HexDigit;
    var third := unit / 16;
    var second := third / 16;
    HexDigitIsNoBracket(second / 16);
    HexDigitIsNoBracket(second % 16);
    HexDigitIsNoBracket(third % 16);
    HexDigitIsNoBracket(unit % 16);
  }

  lemma {:induction false} HexHasNoBracket(value: string)
    ensures forall i :: 0 <= i < |HexText(value)| ==> HexText(value)[i] != '>'
    decreases |value|
  {
    if value != "" {
      HexHasNoBracket(value[1..]);
      var code := value[0] as int;
      if code < 0x10000 {
        Hex4HasNoBracket(code);
      } else {
        Hex4HasNoBracket(High(code));
        Hex4HasNoBracket(Low(code));
      }
      hide Hex4, High, Low;
    }
  }

  function LineCommand(line: string): string {
    "<" + HexText(line) + "> Tj\n0 -15 Td\n"
  }

  lemma {:induction false} FirstLineCommand(lines: seq<string>)
    requires lines != []
    ensures LineCommands(lines) == LineCommand(lines[0]) + LineCommands(lines[1..])
    decreases |lines|
  {
    hide HexText;
    var n := |lines| - 1;
    if n == 0 {
      assert lines[..0] == [] && lines[1..] == [];
    } else {
      FirstLineCommand(lines[..n]);
      assert lines[..n][1..] == lines[1..][..n - 1];
    }
  }

  lemma ReadOneLine(line: string, rest: string)
    ensures ReadLines(LineCommand(line) + rest)
            == match ReadLines(rest) { case None => None case Some(lines) => Some([line] + lines) }
  {
    hide HexText, ReadHex, Skip, TakeUntil;
    var s := LineCommand(line) + rest;
    assert s[0] == '<';
    var end := " Tj\n0 -15 Td\n";
    assert s == "<" + (HexText(line) + ['>'] + (end + rest));
    SkipText("<", HexText(line) + ['>'] + (end + rest));
    HexHasNoBracket(line);
    TakenUntil(HexText(line), '>', end + rest);
    SkipText(end, rest);
    HexTextReadsBack(line);
  }

  lemma {:induction false} LinesRead(lines: seq<string>)
    ensures ReadLines(LineCommands(lines) + "ET") == Some(lines)
    decreases |lines|
  {
    hide LineCommand, ReadLines;
    if lines == [] {
      NoLinesRead();
      assert LineCommands(lines) + "ET" == "ET";
    } else {
      FirstLineCommand(lines);
      LinesRead(lines[1..]);
      assert LineCommands(lines) + "ET" == LineCommand(lines[0]) + (LineCommands(lines[1..]) + "ET");
      ReadOneLine(lines[0], LineCommands(lines[1..]) + "ET");
      assert [lines[0]] + lines[1..] == lines;
    }
  }

  lemma NoLinesRead()
    ensures ReadLines("ET") == Some([])
  {
  }

  lemma CommandsRead(title: string, lines: seq<string>)
    ensures ReadCommands(Commands(title, lines)) == Some(Drawn(title, lines))
  {
    hide HexText, ReadHex, Skip, TakeUntil, ReadLines, LineCommands;
    var start, middle := "BT\n/F1 16 Tf\n50 790 Td\n<", " Tj\n/F1 10 Tf\n0 -26 Td\n";
    var end := LineCommands(lines) + "ET";
    CommandsParts(title, lines);
    SkipText(start, HexText(title) + ['>'] + (middle + end));
    HexHasNoBracket(title);
    TakenUntil(HexText(title), '>', middle + end);
    SkipText(middle, end);
    LinesRead(lines);
    HexTextReadsBack(title);
  }

  lemma CommandsParts(title: string, lines: seq<string>)
    ensures Commands(title, lines)
            == "BT\n/F1 16 Tf\n50 790 Td\n<" + (HexText(title) + ['>'] + (" Tj\n/F1 10 Tf\n0 -26 Td\n" + (LineCommands(lines) + "ET")))
  {
    hide HexText, LineCommands;
  }

  // ------------------------------------------------------------ the document

  lemma PageRead(file: string, n: nat, title: string, lines: seq<string>)
    requires Finds(file, n, PageObject(n + 1)) && Finds(file, n + 1, ContentObject(Commands(title, lines)))
    ensures ReadPage(file, n) == Some(Drawn(title, lines))
  {
    hide Finds, ContentObject, Commands, ReadReference, ReadStream, ReadCommands, Decimal;
    assert PageObject(n + 1) == PAGE_FRONT + Decimal(n + 1) + " 0 R >>";
    ReferenceRead(file, n, PAGE_FRONT, n + 1);
    StreamRead(file, n + 1, Commands(title, lines));
    CommandsRead(title, lines);
  }

  function DrawnPages(title: string, pages: seq<seq<string>>): (drawn: seq<Drawn>)
    ensures |drawn| == |pages| && forall k :: 0 <= k < |pages| ==> drawn[k] == Drawn(title, pages[k])
  {
    seq(|pages|, k requires 0 <= k < |pages| => Drawn(title, pages[k]))
  }

  ghost predicate PagesFound(file: string, title: string, pages: seq<seq<string>>) {
    forall k :: 0 <= k < |pages| ==> PageFound(file, title, k, pages[k])
  }

  predicate PageFound(file: string, title: string, k: nat, lines: seq<string>) {
    && Finds(file, PageNumber(k), PageObject(PageNumber(k) + 1))
    && Finds(file, PageNumber(k) + 1, ContentObject(Commands(title, lines)))
  }

  lemma {:induction false} PagesRead(file: string, title: string, pages: seq<seq<string>>, n: nat)
    requires n <= |pages| && PagesFound(file, title, pages)
    ensures ReadPages(file, PageNumbers(n)) == Some(DrawnPages(title, pages[..n]))
    decreases n
  {
    hide ReadPage, PageFound;
    if n > 0 {
      PagesRead(file, title, pages, n - 1);
      assert PageFound(file, title, n - 1, pages[n - 1]);
      FoundPageRead(file, title, n - 1, pages[n - 1]);
      assert PageNumbers(n)[..n - 1] == PageNumbers(n - 1) by { PageNumbersAre(n - 1); }
      PageNumbersAre(n);
      assert pages[..n][..n - 1] == pages[..n - 1];
      assert DrawnPages(title, pages[..n]) == DrawnPages(title, pages[..n - 1]) + [Drawn(title, pages[n - 1])];
    }
  }

  lemma FoundPageRead(file: string, title: string, k: nat, lines: seq<string>)
    requires PageFound(file, title, k, lines)
    ensures ReadPage(file, PageNumber(k)) == Some(Drawn(title, lines))
  {
    hide ReadPage, Finds;
    PageRead(file, PageNumber(k), title, lines);
  }

  /** The trailer names object 1. */
  lemma RootIsFirst(objects: seq<string>)
    ensures RootOf(File(objects)) == Some(1)
  {
    hide Emitted, Entries, Decimal, XrefHead, RootOf;
    var n := |objects|;
    var xref := |Emitted(objects, n)|;
    var front := Emitted(objects, n) + XrefHead(n + 1) + Entries(objects, n) + ("trailer\n<< /Size " + Decimal(n + 1));
    RootParts(Emitted(objects, n) + XrefHead(n + 1) + Entries(objects, n), Decimal(n + 1), Decimal(xref));
    RootRead(front, xref);
  }

  lemma RootParts(body: string, size: string, xref: string)
    ensures body + ("trailer\n<< /Size " + size + " /Root 1 0 R >>\n" + "startxref\n" + xref + "\n%%EOF\n")
            == body + ("trailer\n<< /Size " + size) + " /Root " + "1" + " 0 R >>\nstartxref\n" + xref + "\n%%EOF\n"
  {
  }

  lemma RootRead(front: string, xref: nat)
    ensures RootOf(front + " /Root " + "1" + " 0 R >>\nstartxref\n" + Decimal(xref) + "\n%%EOF\n") == Some(1)
  {
    var root := front + " /Root ";
    var before := root + "1" + " 0 R >>\nstartxref\n";
    DecimalReadsBack(xref);
    EndsInSpace(front);
    EndsInNewline(root + "1");
    hide DigitsAtEnd, Decimal, EndsWith, Number;
    KidEnds(before, Decimal(xref), "\n%%EOF\n");
    DigitsAfter(before, Decimal(xref));
    KidEnds(root, "1", " 0 R >>\nstartxref\n");
    DigitsAfter(root, "1");
    KidEnds(front, "", " /Root ");
    assert front + "" + " /Root " == root;
    NumberOne();
  }

  lemma EndsInSpace(front: string)
    ensures var s := front + " /Root "; s != "" && !IsDigit(s[|s| - 1])
  {
  }

  lemma EndsInNewline(front: string)
    ensures var s := front + " 0 R >>\nstartxref\n"; s != "" && !IsDigit(s[|s| - 1])
  {
  }

  lemma NumberOne()
    ensures AllDigits("1") && Number("1") == 1
  {
    assert "1"[..0] == "";
  }

  lemma CatalogParts()
    ensures CATALOG == "<< /Type /Catalog /Pages " + Decimal(2) + " 0 R >>"
  {
    assert Decimal(2) == "2";
  }

  lemma LinkedPages(preamble: seq<string>, title: string, lines: seq<string>)
    requires |preamble| == 4 && OffsetsFit(Objects(preamble, title, Pages(Wrapped(lines))))
    ensures var pages := Pages(Wrapped(lines)); PagesFound(File(Objects(preamble, title, pages)), title, pages)
  {
    hide Objects, Pages, Wrapped, File, Finds, OffsetsFit, PageObject, ContentObject, Commands;
    var pages := Pages(Wrapped(lines));
    forall k | 0 <= k < |pages| ensures PageFound(File(Objects(preamble, title, pages)), title, k, pages[k]) {
      PagesAreLinked(preamble, title, lines, k);
    }
  }

  /** The lines of the read pages, in order. */
  function LinesOf(drawn: seq<Drawn>): seq<string>
    decreases |drawn|
  {
    if drawn == [] then [] else drawn[0].lines + LinesOf(drawn[1..])
  }

  lemma {:induction false} LinesOfDrawn(title: string, pages: seq<seq<string>>)
    ensures LinesOf(DrawnPages(title, pages)) == Flatten(pages)
    decreases |pages|
  {
    if pages != [] {
      LinesOfDrawn(title, pages[1..]);
      assert DrawnPages(title, pages)[1..] == DrawnPages(title, pages[1..]);
    }
  }

  /**
   What is written is read back: the reader finds every page, with the title and at most 42 lines of at
   most 72 characters each, and all lines together are the stripped text in order.
   */
  lemma DocumentReadsBack(title: string, lines: seq<string>)
    requires var pages := Pages(Wrapped(lines)); OffsetsFit(Objects(Preamble(|pages|), title, pages))
    ensures var pages := Pages(Wrapped(lines));
            var read := ReadDocument(File(Objects(Preamble(|pages|), title, pages)));
            && read.Some? && |read.value| >= 1
            && (forall k :: 0 <= k < |read.value| ==>
                  && read.value[k].title == title && |read.value[k].lines| <= PAGE_LINES
                  && forall i :: 0 <= i < |read.value[k].lines| ==> |read.value[k].lines[i]| <= LINE_WIDTH)
            && LinesOf(read.value) == Wrapped(lines)
            && Concat(LinesOf(read.value)) == Stripped(lines)
  {
    hide OffsetsFit, Wrapped, Pages, File, Objects, PagesObject, RootOf, ReadReference, ReadPageTree, ReadPages, Stripped;
    hide Concat, LinesOf, Flatten;
    var pages := Pages(Wrapped(lines));
    FileRead(title, lines);
    PagesAreTheBody(Wrapped(lines));
    LinesOfDrawn(title, pages);
    WrappedIsTheText(lines);
    WrappedFits(lines);
    forall k, i | 0 <= k < |pages| && 0 <= i < |pages[k]| ensures |pages[k][i]| <= LINE_WIDTH {
      LineOfPage(pages, k, i);
    }
  }

  lemma {:induction false} LineOfPage(pages: seq<seq<string>>, k: nat, i: nat)
    requires k < |pages| && i < |pages[k]|
    ensures pages[k][i] in Flatten(pages)
    decreases |pages|
  {
    if k == 0 {
      assert Flatten(pages)[i] == pages[0][i];
    } else {
      LineOfPage(pages[1..], k - 1, i);
      assert pages[1..][k - 1] == pages[k];
    }
  }

  /** Each part leads to the next one. */
  lemma ChainRead(file: string, title: string, pages: seq<seq<string>>)
    requires RootOf(file) == Some(1) && Finds(file, 1, CATALOG) && Finds(file, 2, PagesObject(|pages|))
    requires PagesFound(file, title, pages)
    ensures ReadDocument(file) == Some(DrawnPages(title, pages))
  {
    hide PagesObject, RootOf, ReadReference, ReadPageTree, ReadPages, Finds, PagesFound, PageNumbers, Decimal;
    CatalogParts();
    ReferenceRead(file, 1, "<< /Type /Catalog /Pages ", 2);
    PageTreeRead(file, 2, |pages|);
    PagesRead(file, title, pages, |pages|);
    assert pages[..|pages|] == pages;
  }

  lemma FirstObjects(preamble: seq<string>, title: string, pages: seq<seq<string>>)
    requires |preamble| == 4
    ensures var objects := Objects(preamble, title, pages);
            |objects| >= 4 && objects[0] == preamble[0] && objects[1] == preamble[1]
  {
    hide PageObjects;
  }

  lemma FileRead(title: string, lines: seq<string>)
    requires var pages := Pages(Wrapped(lines)); OffsetsFit(Objects(Preamble(|pages|), title, pages))
    ensures var pages := Pages(Wrapped(lines));
            ReadDocument(File(Objects(Preamble(|pages|), title, pages))) == Some(DrawnPages(title, pages))
  {
    hide OffsetsFit, Wrapped, Pages, File, Objects, PagesObject, RootOf, ReadDocument, Finds, PagesFound;
    var pages := Pages(Wrapped(lines));
    var preamble := Preamble(|pages|);
    var objects := Objects(preamble, title, pages);
    RootIsFirst(objects);
    FirstObjects(preamble, title, pages);
    EveryObjectIsFound(objects, 1);
    EveryObjectIsFound(objects, 2);
    LinkedPages(preamble, title, lines);
    ChainRead(File(objects), title, pages);
  }
}
