/** The Markdown block parser of the assistant's replies, and the inline renderer. */
module Markdown {
  import opened Options
  import opened Sequences
  import opened Text

  datatype Block =
    | Paragraph(text: string)
    | Heading(level: nat, text: string)
    | List(ordered: bool, items: seq<string>)
    | Quote(text: string)
    | Code(language: string, body: seq<string>)

  // ---------------------------------------------------------------- line patterns

  /** What a dot of a pattern matches throughout: anything but line terminators. */
  predicate OneLine(s: string) {
    forall c | c in s :: c != '\n' && c != '\r' && c != '\U{2028}' && c != '\U{2029}'
  }

  /** Some blanks, then the rest of the line. */
  function AfterBlanks(s: string): Option<string> {
    if s != [] && IsSpace(s[0]) && OneLine(TrimStart(s)) then Some(TrimStart(s)) else None
  }

  predicate IsLanguageChar(c: char) {
    'A' <= c <= 'Z' || 'a' <= c <= 'z' || '0' <= c <= '9' || c in "+#._-"
  }

  function FenceOf(line: string): Option<string> {
    var t := Trim(line);
    if StartsWith(t, "```") && forall c | c in t[3..] :: IsLanguageChar(c) then Some(t[3..]) else None
  }

  predicate IsFence(line: string) {
    FenceOf(line).Some?
  }

  function Leading(s: string, low: char, high: char): (n: nat)
    ensures n <= |s| && (forall i | 0 <= i < n :: low <= s[i] <= high) && (n < |s| ==> !(low <= s[n] <= high))
  {
    if s != [] && low <= s[0] <= high then 1 + Leading(s[1..], low, high) else 0
  }

  function HeadingOf(line: string): Option<(nat, string)> {
    var level := Leading(line, '#', '#');
    var rest := AfterBlanks(line[level..]);
    if 1 <= level <= 6 && rest.Some? then Some((level, Trim(rest.value))) else None
  }

  function QuoteOf(line: string): Option<string> {
    if line == [] || line[0] != '>' then None
    else
      var rest := if |line| > 1 && IsSpace(line[1]) then line[2..] else line[1..];
      if OneLine(rest) then Some(rest) else None
  }

  function BulletOf(line: string): Option<string> {
    if line != [] && line[0] in "-*+" then AfterBlanks(line[1..]) else None
  }

  function OrderedOf(line: string): Option<string> {
    var digits := Leading(line, '0', '9');
    if 1 <= digits <= 3 && digits < |line| && line[digits] in ".)" then AfterBlanks(line[digits + 1..]) else None
  }

  function ItemOf(line: string, ordered: bool): Option<string> {
    if ordered then OrderedOf(line) else BulletOf(line)
  }

  // ------------------------------------------------------------ the blocks of a text

  /** The lines before the next fence. */
  function CodeBody(lines: seq<string>): (r: seq<string>)
    ensures |r| <= |lines| && r == lines[..|r|]
  {
    if lines == [] || IsFence(lines[0]) then [] else [lines[0]] + CodeBody(lines[1..])
  }

  /** The texts of the quote lines in front. */
  function QuoteBody(lines: seq<string>): (r: seq<string>)
    ensures |r| <= |lines|
  {
    if lines == [] || QuoteOf(lines[0]).None? then [] else [QuoteOf(lines[0]).value] + QuoteBody(lines[1..])
  }

  /** The texts of the list lines of one kind in front. */
  function ItemBody(lines: seq<string>, ordered: bool): (r: seq<string>)
    ensures |r| <= |lines|
  {
    if lines == [] || ItemOf(lines[0], ordered).None? then []
    else [ItemOf(lines[0], ordered).value] + ItemBody(lines[1..], ordered)
  }

  function TrimmedLines(lines: seq<string>): seq<string> {
    if lines == [] then [] else TrimmedLines(lines[..|lines| - 1]) + [Trim(lines[|lines| - 1])]
  }

  /** What the first line starts: a block over the first `size` lines, nothing, or a paragraph line. */
  datatype Start = Started(block: Block, size: nat) | BlankLine | PlainLine

  /** A fence takes its body and the closing fence; an unclosed block runs to the end. */
  function CodeAt(lines: seq<string>, language: string): (r: Start)
    requires lines != []
    ensures r.Started? && 1 <= r.size <= |lines|
  {
    var body := CodeBody(lines[1..]);
    Started(Code(language, body), if |body| + 2 <= |lines| then |body| + 2 else |body| + 1)
  }

  function QuoteAt(lines: seq<string>): (r: Start)
    requires lines != [] && QuoteOf(lines[0]).Some?
    ensures r.Started? && 1 <= r.size <= |lines|
  {
    Started(Quote(Join(QuoteBody(lines), " ")), |QuoteBody(lines)|)
  }

  function ListAt(lines: seq<string>, ordered: bool): (r: Start)
    requires lines != [] && ItemOf(lines[0], ordered).Some?
    ensures r.Started? && 1 <= r.size <= |lines|
  {
    Started(List(ordered, ItemBody(lines, ordered)), |ItemBody(lines, ordered)|)
  }

  /** The first line's kind, and how far the block it starts goes. */
  function StartOf(lines: seq<string>): (r: Start)
    requires lines != []
    ensures r.Started? ==> 1 <= r.size <= |lines|
  {
    var line := lines[0];
    if IsFence(line) then CodeAt(lines, FenceOf(line).value)
    else if HeadingOf(line).Some? then Started(Heading(HeadingOf(line).value.0, HeadingOf(line).value.1), 1)
    else if QuoteOf(line).Some? then QuoteAt(lines)
    else if OrderedOf(line).Some? then ListAt(lines, true)
    else if BulletOf(line).Some? then ListAt(lines, false)
    else if Trim(line) == [] then BlankLine
    else PlainLine
  }

  /** `paragraph` holds the plain lines just before, not trimmed yet. */
  function Flush(paragraph: seq<string>): seq<Block> {
    if paragraph == [] then [] else [Paragraph(Join(TrimmedLines(paragraph), " "))]
  }

  function Blocks(lines: seq<string>, paragraph: seq<string>): seq<Block>
    decreases |lines|
  {
    if lines == [] then Flush(paragraph)
    else
      match StartOf(lines)
      case Started(block, size) => Flush(paragraph) + ([block] + Blocks(lines[size..], []))
      case BlankLine => Flush(paragraph) + Blocks(lines[1..], [])
      case PlainLine => Blocks(lines[1..], paragraph + [lines[0]])
  }

  /** Line endings as one character. */
  function Normalize(s: string): string {
    if s == [] then []
    else if s[0] == '\r' then ['\n'] + Normalize(if |s| > 1 && s[1] == '\n' then s[2..] else s[1..])
    else [s[0]] + Normalize(s[1..])
  }

  function Lines(source: string): seq<string> {
    Split(Normalize(source), '\n')
  }

  function Parsed(source: string): seq<Block> {
    Blocks(Lines(source), [])
  }

  // -------------------------------------------------------------------- the parser

  /** Reading past one line. */
  lemma Advance(lines: seq<string>, index: nat)
    requires index < |lines|
    ensures lines[index..] != [] && lines[index..][0] == lines[index] && lines[index..][1..] == lines[index + 1..]
  {
  }

  lemma AdvanceBy(lines: seq<string>, index: nat, size: nat)
    requires index + size <= |lines|
    ensures lines[index..][size..] == lines[index + size..]
  {
  }

  lemma CodeBodyStep(lines: seq<string>)
    ensures CodeBody(lines) == if lines == [] || IsFence(lines[0]) then [] else [lines[0]] + CodeBody(lines[1..])
  {
  }

  /** The body of a fenced block: from the line after the fence to the next fence or the end. */
  method ReadCode(lines: seq<string>, start: nat) returns (body: seq<string>, index: nat)
    requires start <= |lines|
    ensures body == CodeBody(lines[start..]) && index == start + |body|
  {
    hide IsFence, CodeBody;
    body, index := [], start;
    while index < |lines| && !IsFence(lines[index])
      invariant index == start + |body| <= |lines|
      invariant body + CodeBody(lines[index..]) == CodeBody(lines[start..])
    {
      Advance(lines, index);
      CodeBodyStep(lines[index..]);
      Assoc(body, [lines[index]], CodeBody(lines[index + 1..]));
      body := body + [lines[index]];
      index := index + 1;
    }
    CodeBodyStep(lines[index..]);
    assert body + [] == body;
  }

  method ReadQuote(lines: seq<string>, start: nat) returns (body: seq<string>, index: nat)
    requires start < |lines| && QuoteOf(lines[start]).Some?
    ensures body == QuoteBody(lines[start..]) && index == start + |body|
  {
    hide QuoteOf;
    body, index := [QuoteOf(lines[start]).value], start + 1;
    Advance(lines, start);
    while index < |lines| && QuoteOf(lines[index]).Some?
      invariant index == start + |body| <= |lines|
      invariant body + QuoteBody(lines[index..]) == QuoteBody(lines[start..])
    {
      Advance(lines, index);
      Assoc(body, [QuoteOf(lines[index]).value], QuoteBody(lines[index + 1..]));
      body := body + [QuoteOf(lines[index]).value];
      index := index + 1;
    }
    assert body + [] == body;
  }

  method ReadList(lines: seq<string>, start: nat, ordered: bool) returns (items: seq<string>, index: nat)
    requires start < |lines| && ItemOf(lines[start], ordered).Some?
    ensures items == ItemBody(lines[start..], ordered) && index == start + |items|
  {
    hide ItemOf;
    items, index := [ItemOf(lines[start], ordered).value], start + 1;
    Advance(lines, start);
    while index < |lines|
      invariant index == start + |items| <= |lines|
      invariant items + ItemBody(lines[index..], ordered) == ItemBody(lines[start..], ordered)
    {
      var next := ItemOf(lines[index], ordered);
      if next.None? {
        break;
      }
      Advance(lines, index);
      Assoc(items, [next.value], ItemBody(lines[index + 1..], ordered));
      items := items + [next.value];
      index := index + 1;
    }
    assert items + [] == items;
  }

  method FlushParagraph(buffer: seq<string>, blocks: seq<Block>, ghost raw: seq<string>) returns (flushed: seq<Block>)
    requires buffer == TrimmedLines(raw)
    ensures flushed == blocks + Flush(raw)
  {
    flushed := blocks;
    if buffer != [] {
      flushed := blocks + [Paragraph(Join(buffer, " "))];
    }
  }

  /** The block that starts at `index`, or none, read with the loops above. */
  method ReadBlock(lines: seq<string>, index: nat) returns (block: Option<Block>, end: nat)
    requires index < |lines|
    ensures var start := StartOf(lines[index..]);
      if start.Started? then block == Some(start.block) && end == index + start.size else block == None && end == index
  {
    hide FenceOf, HeadingOf, QuoteOf, BulletOf, OrderedOf, Trim;
    var line := lines[index];
    Advance(lines, index);
    block, end := None, index;
    if IsFence(line) {
      var body;
      body, end := ReadCode(lines, index + 1);
      end := if end < |lines| then end + 1 else end;
      block := Some(Code(FenceOf(line).value, body));
    } else if HeadingOf(line).Some? {
      var (level, text) := HeadingOf(line).value;
      block, end := Some(Heading(level, text)), index + 1;
    } else if QuoteOf(line).Some? {
      var body;
      body, end := ReadQuote(lines, index);
      block := Some(Quote(Join(body, " ")));
    } else {
      var bullet, ordered := BulletOf(line), OrderedOf(line);
      if bullet.Some? || ordered.Some? {
        var items;
        items, end := ReadList(lines, index, ordered.Some?);
        block := Some(List(ordered.Some?, items));
      }
    }
  }

  lemma BlocksUnfold(lines: seq<string>, paragraph: seq<string>)
    ensures Blocks(lines, paragraph) ==
      if lines == [] then Flush(paragraph)
      else
        var start := StartOf(lines);
        if start.Started? then Flush(paragraph) + ([start.block] + Blocks(lines[start.size..], []))
        else if start.BlankLine? then Flush(paragraph) + Blocks(lines[1..], [])
        else Blocks(lines[1..], paragraph + [lines[0]])
  {
  }

  lemma NotStarted(lines: seq<string>)
    requires lines != [] && !StartOf(lines).Started?
    ensures StartOf(lines).BlankLine? <==> Trim(lines[0]) == []
  {
    hide IsFence, HeadingOf, QuoteOf, BulletOf, OrderedOf, Trim, CodeBody, QuoteBody, ItemBody, Join;
  }

  lemma OneMoreTrimmed(raw: seq<string>, line: string)
    ensures TrimmedLines(raw + [line]) == TrimmedLines(raw) + [Trim(line)]
  {
    assert (raw + [line])[..|raw|] == raw;
  }

  /** Parse a reply into blocks. */
  method ParseMarkdown(source: string) returns (blocks: seq<Block>)
    ensures blocks == Parsed(source)
  {
    hide *;
    var lines := Lines(source);
    var index, paragraph := 0, [];
    ghost var raw: seq<string> := [];
    blocks := [];
    ParsedUnfolds(source);
    assert lines[0..] == lines && [] + Blocks(lines, []) == Blocks(lines, []);
    while index < |lines|
      invariant index <= |lines| && paragraph == TrimmedLines(raw)
      invariant blocks + Blocks(lines[index..], raw) == Parsed(source)
      decreases |lines| - index
    {
      Advance(lines, index);
      BlocksUnfold(lines[index..], raw);
      ghost var before := blocks;
      var block, end := ReadBlock(lines, index);
      if block.Some? {
        blocks := FlushParagraph(paragraph, blocks, raw);
        AdvanceBy(lines, index, end - index);
        Assoc(before, Flush(raw), [block.value] + Blocks(lines[end..], []));
        Assoc(blocks, [block.value], Blocks(lines[end..], []));
        blocks := blocks + [block.value];
        paragraph, raw, index := [], [], end;
      } else {
        NotStarted(lines[index..]);
        if Trim(lines[index]) == [] {
          blocks := FlushParagraph(paragraph, blocks, raw);
          Assoc(before, Flush(raw), Blocks(lines[index + 1..], []));
          paragraph, raw, index := [], [], index + 1;
        } else {
          OneMoreTrimmed(raw, lines[index]);
          paragraph, raw := paragraph + [Trim(lines[index])], raw + [lines[index]];
          index := index + 1;
        }
      }
    }
    BlocksUnfold(lines[index..], raw);
    blocks := FlushParagraph(paragraph, blocks, raw);
  }

  lemma ParsedUnfolds(source: string)
    ensures Parsed(source) == Blocks(Lines(source), []) && TrimmedLines([]) == []
  {
  }

  // -------------------------------------------------------------------- coverage

  /** A stretch of the source: a blank line, or the lines one block was made from. */
  datatype Piece = Gap(line: string) | Made(block: Block, lines: seq<string>)

  predicate IsPlain(line: string) {
    && !IsFence(line) && HeadingOf(line).None? && QuoteOf(line).None? && BulletOf(line).None? && OrderedOf(line).None?
    && Trim(line) != []
  }

  /** The block says exactly what its own lines say. */
  predicate Shows(block: Block, lines: seq<string>) {
    lines != [] &&
    match block
    case Paragraph(text) => text == Join(TrimmedLines(lines), " ") && forall i | 0 <= i < |lines| :: IsPlain(lines[i])
    case Heading(level, text) => |lines| == 1 && HeadingOf(lines[0]) == Some((level, text))
    case Quote(text) => text == Join(QuoteBody(lines), " ") && |QuoteBody(lines)| == |lines|
    case List(ordered, items) => items == ItemBody(lines, ordered) && |items| == |lines|
    case Code(language, body) =>
      && FenceOf(lines[0]) == Some(language) && (forall i | 0 <= i < |body| :: !IsFence(body[i]))
      && (lines[1..] == body || (|lines| == |body| + 2 && lines[1..|lines| - 1] == body && IsFence(lines[|lines| - 1])))
  }

  predicate Sound(piece: Piece) {
    match piece
    case Gap(line) => Trim(line) == []
    case Made(block, lines) => Shows(block, lines)
  }

  function FlushPiece(paragraph: seq<string>): seq<Piece> {
    if paragraph == [] then [] else [Made(Paragraph(Join(TrimmedLines(paragraph), " ")), paragraph)]
  }

  function Pieces(lines: seq<string>, paragraph: seq<string>): seq<Piece>
    decreases |lines|
  {
    if lines == [] then FlushPiece(paragraph)
    else
      match StartOf(lines)
      case Started(block, size) => FlushPiece(paragraph) + ([Made(block, lines[..size])] + Pieces(lines[size..], []))
      case BlankLine => FlushPiece(paragraph) + ([Gap(lines[0])] + Pieces(lines[1..], []))
      case PlainLine => Pieces(lines[1..], paragraph + [lines[0]])
  }

  function LinesOf(pieces: seq<Piece>): seq<string> {
    if pieces == [] then []
    else (match pieces[0] case Gap(line) => [line] case Made(_, lines) => lines) + LinesOf(pieces[1..])
  }

  function BlocksOf(pieces: seq<Piece>): seq<Block> {
    if pieces == [] then []
    else (match pieces[0] case Gap(_) => [] case Made(block, _) => [block]) + BlocksOf(pieces[1..])
  }

  lemma {:induction false} PiecesAppend(a: seq<Piece>, b: seq<Piece>)
    ensures LinesOf(a + b) == LinesOf(a) + LinesOf(b) && BlocksOf(a + b) == BlocksOf(a) + BlocksOf(b)
  {
    if a == [] {
      assert a + b == b;
    } else {
      Uncons(a, b);
      PiecesAppend(a[1..], b);
      var lines := match a[0] case Gap(line) => [line] case Made(_, lines) => lines;
      var blocks := match a[0] case Gap(_) => [] case Made(block, _) => [block];
      Assoc(lines, LinesOf(a[1..]), LinesOf(b));
      Assoc(blocks, BlocksOf(a[1..]), BlocksOf(b));
    }
  }

  lemma {:induction false} CodeBodyShape(lines: seq<string>)
    ensures var body := CodeBody(lines);
      (forall i | 0 <= i < |body| :: !IsFence(body[i])) && (|body| < |lines| ==> IsFence(lines[|body|]))
  {
    hide IsFence;
    if lines != [] && !IsFence(lines[0]) {
      CodeBodyShape(lines[1..]);
      assert CodeBody(lines) == [lines[0]] + CodeBody(lines[1..]);
    }
  }

  lemma {:induction false} QuoteBodyShape(lines: seq<string>)
    ensures QuoteBody(lines[..|QuoteBody(lines)|]) == QuoteBody(lines)
  {
    hide QuoteOf;
    var n := |QuoteBody(lines)|;
    if n > 0 {
      QuoteBodyShape(lines[1..]);
      assert lines[..n][1..] == lines[1..][..n - 1] && lines[..n][0] == lines[0];
    }
  }

  lemma {:induction false} ItemBodyShape(lines: seq<string>, ordered: bool)
    ensures ItemBody(lines[..|ItemBody(lines, ordered)|], ordered) == ItemBody(lines, ordered)
  {
    hide ItemOf;
    var n := |ItemBody(lines, ordered)|;
    if n > 0 {
      ItemBodyShape(lines[1..], ordered);
      assert lines[..n][1..] == lines[1..][..n - 1] && lines[..n][0] == lines[0];
    }
  }

  lemma StartedShows(lines: seq<string>)
    requires lines != [] && StartOf(lines).Started?
    ensures Sound(Made(StartOf(lines).block, lines[..StartOf(lines).size]))
  {
    hide FenceOf, HeadingOf, QuoteOf, BulletOf, OrderedOf, Trim;
    if IsFence(lines[0]) {
      CodeBodyShape(lines[1..]);
    } else if HeadingOf(lines[0]).None? {
      if QuoteOf(lines[0]).Some? {
        QuoteBodyShape(lines);
      } else {
        ItemBodyShape(lines, OrderedOf(lines[0]).Some?);
      }
    }
  }

  lemma FlushPieceShape(paragraph: seq<string>)
    ensures LinesOf(FlushPiece(paragraph)) == paragraph && BlocksOf(FlushPiece(paragraph)) == Flush(paragraph)
    ensures (forall i | 0 <= i < |paragraph| :: IsPlain(paragraph[i])) ==>
      forall piece | piece in FlushPiece(paragraph) :: Sound(piece)
  {
    hide IsPlain, Join, TrimmedLines;
    if paragraph != [] {
      assert FlushPiece(paragraph)[1..] == [];
    }
  }

  lemma OnePiece(piece: Piece, rest: seq<Piece>)
    ensures LinesOf([piece] + rest) == (if piece.Gap? then [piece.line] else piece.lines) + LinesOf(rest)
    ensures BlocksOf([piece] + rest) == (if piece.Gap? then [] else [piece.block]) + BlocksOf(rest)
  {
    Uncons([piece], rest);
    assert [] + rest == rest;
  }

  lemma PlainStart(lines: seq<string>)
    requires lines != []
    ensures StartOf(lines).PlainLine? ==> IsPlain(lines[0])
    ensures StartOf(lines).BlankLine? ==> Sound(Gap(lines[0]))
  {
    hide IsFence, HeadingOf, QuoteOf, BulletOf, OrderedOf, Trim, CodeBody, QuoteBody, ItemBody, Join;
  }

  lemma PiecesUnfold(lines: seq<string>, paragraph: seq<string>)
    requires lines != []
    ensures Pieces(lines, paragraph) ==
      var start := StartOf(lines);
      if start.Started? then
        FlushPiece(paragraph) + ([Made(start.block, lines[..start.size])] + Pieces(lines[start.size..], []))
      else if start.BlankLine? then FlushPiece(paragraph) + ([Gap(lines[0])] + Pieces(lines[1..], []))
      else Pieces(lines[1..], paragraph + [lines[0]])
  {
  }

  /** Flushing, one piece, and the rest. */
  lemma PieceStep(paragraph: seq<string>, piece: Piece, rest: seq<Piece>)
    requires Sound(piece) && (forall p | p in rest :: Sound(p)) && forall i | 0 <= i < |paragraph| :: IsPlain(paragraph[i])
    ensures var all := FlushPiece(paragraph) + ([piece] + rest);
      && LinesOf(all) == paragraph + ((if piece.Gap? then [piece.line] else piece.lines) + LinesOf(rest))
      && BlocksOf(all) == Flush(paragraph) + ((if piece.Gap? then [] else [piece.block]) + BlocksOf(rest))
      && forall p | p in all :: Sound(p)
  {
    hide Sound, IsPlain, FlushPiece, Flush, LinesOf, BlocksOf;
    FlushPieceShape(paragraph);
    OnePiece(piece, rest);
    PiecesAppend(FlushPiece(paragraph), [piece] + rest);
  }

  /**
   * The source lines, in order, are exactly the pieces' lines: no line is lost or used twice, what no
   * block was made from is blank, and each block says what its own lines say.
   */
  lemma {:induction false} PiecesCoverTheSource(lines: seq<string>, paragraph: seq<string>)
    requires forall i | 0 <= i < |paragraph| :: IsPlain(paragraph[i])
    ensures LinesOf(Pieces(lines, paragraph)) == paragraph + lines
    ensures BlocksOf(Pieces(lines, paragraph)) == Blocks(lines, paragraph)
    ensures forall piece | piece in Pieces(lines, paragraph) :: Sound(piece)
    decreases |lines|
  {
    hide IsPlain, Sound, FlushPiece, Flush, LinesOf, BlocksOf, Pieces, Blocks, StartOf, Trim;
    BlocksUnfold(lines, paragraph);
    if lines == [] {
      FlushPieceShape(paragraph);
      assert Pieces(lines, paragraph) == FlushPiece(paragraph) by { NoPieces(paragraph); }
      assert paragraph + lines == paragraph;
    } else {
      PiecesUnfold(lines, paragraph);
      PlainStart(lines);
      var start := StartOf(lines);
      if start.Started? {
        PiecesCoverTheSource(lines[start.size..], []);
        StartedShows(lines);
        PieceStep(paragraph, Made(start.block, lines[..start.size]), Pieces(lines[start.size..], []));
        assert lines[..start.size] + ([] + lines[start.size..]) == lines;
      } else if start.BlankLine? {
        PiecesCoverTheSource(lines[1..], []);
        PieceStep(paragraph, Gap(lines[0]), Pieces(lines[1..], []));
        assert [lines[0]] + ([] + lines[1..]) == lines;
        assert [] + Blocks(lines[1..], []) == Blocks(lines[1..], []);
      } else {
        PiecesCoverTheSource(lines[1..], paragraph + [lines[0]]);
        assert paragraph + [lines[0]] + lines[1..] == paragraph + lines;
      }
    }
  }

  lemma NoPieces(paragraph: seq<string>)
    ensures Pieces([], paragraph) == FlushPiece(paragraph)
  {
  }

  // --------------------------------------------------------------- compositionality

  function FenceCount(lines: seq<string>): nat {
    if lines == [] then 0 else (if IsFence(lines[0]) then 1 else 0) + FenceCount(lines[1..])
  }

  /** Every second fence closes; an odd number of them leaves one open. */
  predicate LeavesFenceOpen(lines: seq<string>) {
    FenceCount(lines) % 2 == 1
  }

  lemma {:induction false} FenceCountSkip(lines: seq<string>, n: nat)
    requires n <= |lines| && forall i | 0 <= i < n :: !IsFence(lines[i])
    ensures FenceCount(lines) == FenceCount(lines[n..])
  {
    if n > 0 {
      FenceCountSkip(lines[1..], n - 1);
      assert lines[1..][n - 1..] == lines[n..];
    }
  }

  lemma MarkedLines(line: string)
    requires QuoteOf(line).Some? || BulletOf(line).Some? || OrderedOf(line).Some? || HeadingOf(line).Some?
    ensures line != [] && line[0] in "#>-*+0123456789"
  {
    hide AfterBlanks, OneLine, Trim;
  }

  lemma NoFenceStart(line: string)
    requires line != [] && !IsSpace(line[0]) && line[0] != '`'
    ensures !IsFence(line)
  {
    assert TrimStart(line) == line;
    TrimEndShape(line);
    assert Trim(line) != [] ==> Trim(line)[0] == line[0];
  }

  /** Quotes, list items and headings begin with characters that no fence begins with. */
  lemma MarkedLinesAreNoFences(line: string)
    requires QuoteOf(line).Some? || BulletOf(line).Some? || OrderedOf(line).Some? || HeadingOf(line).Some?
    ensures !IsFence(line)
  {
    hide IsFence, QuoteOf, BulletOf, OrderedOf, HeadingOf;
    MarkedLines(line);
    NoFenceStart(line);
  }

  lemma BlankLineIsNothing(line: string)
    requires Trim(line) == []
    ensures !IsFence(line) && HeadingOf(line).None? && QuoteOf(line).None? && BulletOf(line).None? && OrderedOf(line).None?
  {
    TrimEmptyIffBlank(line);
    assert line != [] ==> IsSpace(line[0]);
  }

  lemma {:induction false} QuoteBodyAppend(a: seq<string>, z: string, b: seq<string>)
    requires QuoteOf(z).None?
    ensures QuoteBody(a + ([z] + b)) == QuoteBody(a)
    ensures forall i | 0 <= i < |QuoteBody(a)| :: !IsFence(a[i])
  {
    hide QuoteOf, IsFence;
    var all := a + ([z] + b);
    if a == [] {
      assert all == [z] + b;
    } else {
      assert all[0] == a[0] && all[1..] == a[1..] + ([z] + b);
      QuoteBodyAppend(a[1..], z, b);
      if QuoteOf(a[0]).Some? {
        MarkedLinesAreNoFences(a[0]);
      }
    }
  }

  lemma {:induction false} ItemBodyAppend(a: seq<string>, z: string, b: seq<string>, ordered: bool)
    requires ItemOf(z, ordered).None?
    ensures ItemBody(a + ([z] + b), ordered) == ItemBody(a, ordered)
    ensures forall i | 0 <= i < |ItemBody(a, ordered)| :: !IsFence(a[i])
  {
    hide BulletOf, OrderedOf, IsFence;
    var all := a + ([z] + b);
    if a == [] {
      assert all == [z] + b;
    } else {
      assert all[0] == a[0] && all[1..] == a[1..] + ([z] + b);
      ItemBodyAppend(a[1..], z, b, ordered);
      if ItemOf(a[0], ordered).Some? {
        MarkedLinesAreNoFences(a[0]);
      }
    }
  }

  lemma {:induction false} CodeBodyAppend(a: seq<string>, b: seq<string>)
    ensures CodeBody(a + b) == if |CodeBody(a)| < |a| then CodeBody(a) else a + CodeBody(b)
  {
    hide IsFence, CodeBody;
    CodeBodyStep(a);
    CodeBodyStep(a + b);
    if a == [] {
      assert a + b == b && [] + CodeBody(b) == CodeBody(b);
    } else {
      Uncons(a, b);
      CodeBodyAppend(a[1..], b);
      if !IsFence(a[0]) && |CodeBody(a[1..])| == |a| - 1 {
        Assoc([a[0]], a[1..], CodeBody(b));
        assert [a[0]] + a[1..] == a;
      }
    }
  }

  lemma FenceBeforeBlank(a: seq<string>, z: string, b: seq<string>)
    requires a != [] && IsFence(a[0]) && |CodeBody(a[1..])| < |a| - 1
    ensures StartOf(a + ([z] + b)) == StartOf(a) && FenceCount(a) == 2 + FenceCount(a[StartOf(a).size..])
  {
    hide IsFence, CodeBody;
    var n := |CodeBody(a[1..])|;
    Uncons(a, [z] + b);
    CodeBodyAppend(a[1..], [z] + b);
    CodeBodyShape(a[1..]);
    FenceCountSkip(a[1..], n);
    assert a[1..][n..][1..] == a[n + 2..];
    assert FenceCount(a[1..][n..]) == 1 + FenceCount(a[n + 2..]);
  }

  /** The first line starts the same when a blank line and more follow `a`. */
  lemma MarkBeforeBlank(a: seq<string>, z: string, b: seq<string>)
    requires a != [] && Trim(z) == [] && !IsFence(a[0])
    ensures StartOf(a + ([z] + b)) == StartOf(a)
    ensures StartOf(a).Started? ==> FenceCount(a[StartOf(a).size..]) == FenceCount(a)
  {
    hide IsFence, HeadingOf, QuoteOf, BulletOf, OrderedOf, Trim, Join, QuoteBody, ItemBody, FenceCount, CodeBody;
    Uncons(a, [z] + b);
    BlankLineIsNothing(z);
    if HeadingOf(a[0]).Some? {
      FenceCountSkip(a, 1);
    } else if QuoteOf(a[0]).Some? {
      QuoteBodyAppend(a, z, b);
      FenceCountSkip(a, |QuoteBody(a)|);
    } else if BulletOf(a[0]).Some? || OrderedOf(a[0]).Some? {
      ItemBodyAppend(a, z, b, OrderedOf(a[0]).Some?);
      FenceCountSkip(a, |ItemBody(a, OrderedOf(a[0]).Some?)|);
    }
  }

  /** A blank line after `a` ends whatever `a` began, except an open code block. */
  lemma StartBeforeBlank(a: seq<string>, z: string, b: seq<string>)
    requires a != [] && Trim(z) == []
    requires IsFence(a[0]) ==> |CodeBody(a[1..])| < |a| - 1
    ensures StartOf(a + ([z] + b)) == StartOf(a)
    ensures StartOf(a).Started? ==> FenceCount(a[StartOf(a).size..]) % 2 == FenceCount(a) % 2
    ensures !StartOf(a).Started? ==> FenceCount(a[1..]) == FenceCount(a)
  {
    hide StartOf, IsFence, Trim, CodeBody, FenceCount;
    if IsFence(a[0]) {
      FenceStarts(a);
      FenceBeforeBlank(a, z, b);
    } else {
      MarkBeforeBlank(a, z, b);
      FenceCountSkip(a, 1);
    }
  }

  lemma FenceStarts(a: seq<string>)
    requires a != [] && IsFence(a[0])
    ensures StartOf(a).Started?
  {
  }

  /** An open fence at the first line of an odd count: some fence follows, or none does. */
  lemma OpenOrClosed(a: seq<string>)
    requires a != [] && IsFence(a[0]) && |CodeBody(a[1..])| == |a| - 1
    ensures FenceCount(a) == 1
  {
    hide IsFence, CodeBody;
    CodeBodyShape(a[1..]);
    FenceCountSkip(a[1..], |a| - 1);
    assert a[1..][|a| - 1..] == [];
  }

  /** Text after a blank line is parsed on its own. */
  lemma {:induction false} BlankLineSeparates(a: seq<string>, z: string, b: seq<string>, paragraph: seq<string>)
    requires Trim(z) == [] && !LeavesFenceOpen(a)
    ensures Blocks(a + ([z] + b), paragraph) == Blocks(a, paragraph) + Blocks(b, [])
    decreases |a|
  {
    hide Blocks, StartOf, Flush, Trim, IsFence, FenceCount;
    var all := a + ([z] + b);
    BlocksUnfold(all, paragraph);
    BlocksUnfold(a, paragraph);
    if a == [] {
      assert all == [z] + b && ([z] + b)[1..] == b;
      BlankStart([z] + b);
    } else {
      if IsFence(a[0]) && |CodeBody(a[1..])| == |a| - 1 {
        OpenOrClosed(a);
      }
      StartBeforeBlank(a, z, b);
      var start := StartOf(a);
      if start.Started? {
        assert all[start.size..] == a[start.size..] + ([z] + b);
        BlankLineSeparates(a[start.size..], z, b, []);
        Assoc([start.block], Blocks(a[start.size..], []), Blocks(b, []));
        Assoc(Flush(paragraph), [start.block] + Blocks(a[start.size..], []), Blocks(b, []));
      } else {
        assert all[1..] == a[1..] + ([z] + b) && all[0] == a[0];
        if start.BlankLine? {
          BlankLineSeparates(a[1..], z, b, []);
          Assoc(Flush(paragraph), Blocks(a[1..], []), Blocks(b, []));
        } else {
          BlankLineSeparates(a[1..], z, b, paragraph + [a[0]]);
        }
      }
    }
  }

  lemma BlankStart(lines: seq<string>)
    requires lines != [] && Trim(lines[0]) == []
    ensures StartOf(lines) == BlankLine
  {
    BlankLineIsNothing(lines[0]);
  }

  /** When a fence is left open, the last block takes in what follows. */
  lemma {:induction false} OpenFenceTakesMore(a: seq<string>, z: string, b: seq<string>, paragraph: seq<string>)
    returns (before: seq<Block>, language: string, body: seq<string>)
    requires Trim(z) == [] && LeavesFenceOpen(a)
    ensures Blocks(a, paragraph) == before + [Code(language, body)]
    ensures exists rest :: Blocks(a + ([z] + b), paragraph) == before + ([Code(language, body + CodeBody([z] + b))] + rest)
    decreases |a|
  {
    hide Blocks, StartOf, Flush, Trim, FenceOf, FenceCount, CodeBody;
    var all := a + ([z] + b);
    assert a != [] by { NoFences(); }
    BlocksUnfold(all, paragraph);
    BlocksUnfold(a, paragraph);
    assert all[0] == a[0] && all[1..] == a[1..] + ([z] + b);
    if IsFence(a[0]) && |CodeBody(a[1..])| == |a| - 1 {
      OpenFence(a);
      OpenFenceExtends(a, [z] + b);
      CodeBodyAppend(a[1..], [z] + b);
      before, language, body := Flush(paragraph), FenceOf(a[0]).value, a[1..];
      BlocksUnfold([], []);
      assert Flush([]) == [] by { NothingToFlush(); }
      assert [Code(language, body)] + [] == [Code(language, body)];
    } else {
      StartBeforeBlank(a, z, b);
      var start := StartOf(a);
      if start.Started? {
        assert all[start.size..] == a[start.size..] + ([z] + b);
        var inner;
        inner, language, body := OpenFenceTakesMore(a[start.size..], z, b, []);
        before := Flush(paragraph) + ([start.block] + inner);
        Regroup(Flush(paragraph), start.block, inner, Code(language, body));
        var rest :| Blocks(a[start.size..] + ([z] + b), []) == inner + ([Code(language, body + CodeBody([z] + b))] + rest);
        Regroup2(Flush(paragraph), start.block, inner, [Code(language, body + CodeBody([z] + b))] + rest);
      } else if start.BlankLine? {
        var inner;
        inner, language, body := OpenFenceTakesMore(a[1..], z, b, []);
        before := Flush(paragraph) + inner;
        Assoc(Flush(paragraph), inner, [Code(language, body)]);
        var rest :| Blocks(a[1..] + ([z] + b), []) == inner + ([Code(language, body + CodeBody([z] + b))] + rest);
        Assoc(Flush(paragraph), inner, [Code(language, body + CodeBody([z] + b))] + rest);
      } else {
        before, language, body := OpenFenceTakesMore(a[1..], z, b, paragraph + [a[0]]);
      }
    }
  }

  lemma Regroup(x: seq<Block>, y: Block, inner: seq<Block>, last: Block)
    ensures x + ([y] + (inner + [last])) == x + ([y] + inner) + [last]
  {
  }

  lemma Regroup2(x: seq<Block>, y: Block, inner: seq<Block>, rest: seq<Block>)
    ensures x + ([y] + (inner + rest)) == x + ([y] + inner) + rest
  {
  }

  lemma NoFences()
    ensures FenceCount([]) == 0
  {
  }

  lemma NothingToFlush()
    ensures Flush([]) == []
  {
  }

  lemma OpenFence(a: seq<string>)
    requires a != [] && IsFence(a[0]) && |CodeBody(a[1..])| == |a| - 1
    ensures StartOf(a) == Started(Code(FenceOf(a[0]).value, a[1..]), |a|) && a[|a|..] == []
  {
    hide FenceOf, CodeBody;
    assert CodeBody(a[1..]) == a[1..];
  }

  lemma OpenFenceExtends(a: seq<string>, more: seq<string>)
    requires a != [] && IsFence(a[0])
    ensures var start := StartOf(a + more);
      start.Started? && start.block == Code(FenceOf(a[0]).value, CodeBody(a[1..] + more))
  {
    assert (a + more)[0] == a[0] && (a + more)[1..] == a[1..] + more;
  }

  /**
   * Parsing A, a blank line, then B gives what parsing A and parsing B give, exactly when A leaves no
   * fence open, which its fence lines tell by their number.
   */
  lemma ParsingIsCompositional(a: seq<string>, z: string, b: seq<string>)
    requires Trim(z) == []
    ensures Blocks(a + ([z] + b), []) == Blocks(a, []) + Blocks(b, []) <==> !LeavesFenceOpen(a)
  {
    hide Blocks, Trim, LeavesFenceOpen, IsFence;
    if LeavesFenceOpen(a) {
      var before, language, body := OpenFenceTakesMore(a, z, b, []);
      var taken := CodeBody([z] + b);
      var rest :| Blocks(a + ([z] + b), []) == before + ([Code(language, body + taken)] + rest);
      BlankLineIsNothing(z);
      assert |taken| > 0;
      assert Blocks(a + ([z] + b), [])[|before|] == Code(language, body + taken);
      assert (Blocks(a, []) + Blocks(b, []))[|before|] == Code(language, body);
    } else {
      BlankLineSeparates(a, z, b, []);
    }
  }

  // ------------------------------------------------------------- on the source text

  /** The end of `a` and the start of `b` make one line ending. */
  predicate Glued(a: string, b: string) {
    a != [] && a[|a| - 1] == '\r' && b != [] && b[0] == '\n'
  }

  lemma {:induction false} NormalizeAppend(a: string, b: string)
    requires !Glued(a, b)
    ensures Normalize(a + b) == Normalize(a) + Normalize(b)
    decreases |a|
  {
    if a == [] {
      assert a + b == b;
    } else if a[0] == '\r' && |a| > 1 && a[1] == '\n' {
      assert (a + b)[2..] == a[2..] + b && (a + b)[0] == a[0] && (a + b)[1] == a[1];
      NormalizeAppend(a[2..], b);
      Assoc(['\n'], Normalize(a[2..]), Normalize(b));
    } else {
      Uncons(a, b);
      assert |a| > 1 ==> (a + b)[1] == a[1];
      assert |a| == 1 && b != [] ==> (a + b)[1] == b[0];
      NormalizeAppend(a[1..], b);
      Assoc([if a[0] == '\r' then '\n' else a[0]], Normalize(a[1..]), Normalize(b));
    }
  }

  lemma LinesOfTwo(a: string, gap: string, b: string)
    requires Normalize(gap) == "\n\n" && !Glued(a, gap) && !Glued(gap, b)
    ensures Lines(a + (gap + b)) == Lines(a) + ([""] + Lines(b))
  {
    assert gap != [];
    hide Split, Normalize;
    Uncons(gap, b);
    NormalizeAppend(a, gap + b);
    NormalizeAppend(gap, b);
    var n := Normalize(b);
    assert Normalize(a) + ("\n\n" + n) == Normalize(a) + ['\n'] + ("\n" + n);
    assert "\n" + n == [] + ['\n'] + n;
    SplitAppend(Normalize(a), "\n" + n, '\n');
    SplitAppend([], n, '\n');
    SplitNone([], '\n');
  }

  /** Two line endings of any style, the same or mixed. */
  lemma EmptyLineGaps()
    ensures Normalize("\n\n") == Normalize("\r\n\r\n") == Normalize("\r\r") == Normalize("\n\r\n") == "\n\n"
  {
    TwoNewlines();
    assert Normalize("\r\n") == "\n" && Normalize("\r") == "\n";
    assert "\r\n\r\n"[2..] == "\r\n" && "\r\r"[1..] == "\r" && "\n\r\n"[1..] == "\r\n";
  }

  lemma TwoNewlines()
    ensures Normalize("\n\n") == "\n\n"
  {
    assert Normalize("\n") == "\n";
    assert "\n\n"[1..] == "\n";
  }

  /** A carriage return at the end joins the newline after it. */
  lemma LinesOfReturn(c: string, b: string)
    ensures Lines(c + "\r") == Lines(c) + ([""] + [])
    ensures Lines(c + "\r" + ("\n\n" + b)) == Lines(c) + ([""] + Lines(b))
  {
    hide Split;
    var n := Normalize(b);
    NormalizeAppend(c, "\r");
    assert Normalize("\r") == "\n";
    NormalizeAppend(c, "\r" + ("\n\n" + b));
    assert c + "\r" + ("\n\n" + b) == c + ("\r" + ("\n\n" + b));
    assert Normalize("\r" + ("\n\n" + b)) == "\n" + ("\n" + n) by { ReturnNewlines(b); }
    assert Normalize(c) + ("\n" + ("\n" + n)) == Normalize(c) + ['\n'] + ("\n" + n);
    assert "\n" + n == [] + ['\n'] + n && Normalize(c) + "\n" == Normalize(c) + ['\n'] + [];
    SplitAppend(Normalize(c), "\n" + n, '\n');
    SplitAppend([], n, '\n');
    SplitAppend(Normalize(c), [], '\n');
    SplitNone([], '\n');
  }

  lemma ReturnNewlines(b: string)
    ensures Normalize("\r" + ("\n\n" + b)) == "\n" + ("\n" + Normalize(b))
  {
    var s := "\r" + ("\n\n" + b);
    assert s[2..] == "\n" + b && s[0] == '\r' && s[1] == '\n';
    Uncons("\n", b);
    assert [] + b == b;
    assert Normalize("\n" + b) == ['\n'] + Normalize(b);
  }

  lemma {:induction false} FenceCountAppend(a: seq<string>, b: seq<string>)
    ensures FenceCount(a + b) == FenceCount(a) + FenceCount(b)
  {
    if a == [] {
      assert a + b == b;
    } else {
      Uncons(a, b);
      FenceCountAppend(a[1..], b);
    }
  }

  /**
   * Two texts with an empty line between them, in any line-ending style: the parse is both parses one
   * after the other exactly when the first text leaves no fence open.
   */
  lemma TextsAreParsedApartExactlyWhen(a: string, gap: string, b: string)
    requires Normalize(gap) == "\n\n" && !Glued(a, gap) && !Glued(gap, b)
    ensures Parsed(a + (gap + b)) == Parsed(a) + Parsed(b) <==> !LeavesFenceOpen(Lines(a))
  {
    hide Lines, Blocks, LeavesFenceOpen;
    LinesOfTwo(a, gap, b);
    assert Trim("") == "";
    ParsingIsCompositional(Lines(a), "", Lines(b));
  }

  /** So it is for an empty line written in any one of the three line-ending styles. */
  lemma AnyEmptyLineParsesApart(a: string, gap: string, b: string)
    requires gap == "\n\n" || gap == "\r\n\r\n" || gap == "\r\r"
    requires !Glued(a, gap) && !Glued(gap, b)
    ensures Parsed(a + (gap + b)) == Parsed(a) + Parsed(b) <==> !LeavesFenceOpen(Lines(a))
  {
    hide Parsed, LeavesFenceOpen, Lines;
    EmptyLineGaps();
    TextsAreParsedApartExactlyWhen(a, gap, b);
  }

  /** With plain newlines between them, even when the first text ends in a carriage return. */
  lemma TextsAreParsedApart(a: string, b: string)
    requires !LeavesFenceOpen(Lines(a))
    ensures Parsed(a + ("\n\n" + b)) == Parsed(a) + Parsed(b)
  {
    hide Lines, Blocks, IsFence;
    assert Trim("") == "";
    if a == [] || a[|a| - 1] != '\r' {
      TwoNewlines();
      LinesOfTwo(a, "\n\n", b);
      BlankLineSeparates(Lines(a), "", Lines(b), []);
    } else {
      var c := a[..|a| - 1];
      assert a == c + "\r";
      LinesOfReturn(c, b);
      BlankLineIsNothing("");
      FenceCountAppend(Lines(c), [""] + []);
      assert ([""] + [])[1..] == [];
      BlankLineSeparates(Lines(c), "", [], []);
      BlankLineSeparates(Lines(c), "", Lines(b), []);
      BlocksUnfold([], []);
      NothingToFlush();
      assert Blocks(Lines(c), []) + [] == Blocks(Lines(c), []);
    }
  }

  // ------------------------------------------------------------------ inline code

  /** A node the renderer appends: a text node or a code element. */
  datatype Inline = Literal(text: string) | Span(code: string)

  function NodesFrom(parts: seq<string>, position: nat): seq<Inline>
    decreases |parts| - position
  {
    if position >= |parts| then []
    else NodeAt(parts, position) + NodesFrom(parts, position + 1)
  }

  function NodeAt(parts: seq<string>, position: nat): (r: seq<Inline>)
    requires position < |parts|
    ensures |r| <= 1
  {
    if position % 2 == 1 && position < |parts| - 1 then [Span(parts[position])]
    else
      var literal := if position % 2 == 1 then "`" + parts[position] else parts[position];
      if literal == [] then [] else [Literal(literal)]
  }

  /** What a reader would have to type to get the nodes. */
  function Restored(nodes: seq<Inline>): string {
    if nodes == [] then []
    else (match nodes[0] case Literal(text) => text case Span(code) => "`" + code + "`") + Restored(nodes[1..])
  }

  method AppendInline(text: string) returns (nodes: seq<Inline>)
    ensures nodes == NodesFrom(Split(text, '`'), 0)
  {
    nodes := [];
    var parts := Split(text, '`');
    for position := 0 to |parts|
      invariant nodes + NodesFrom(parts, position) == NodesFrom(parts, 0)
    {
      Assoc(nodes, NodeAt(parts, position), NodesFrom(parts, position + 1));
      var part := parts[position];
      if position % 2 == 1 && position < |parts| - 1 {
        nodes := nodes + [Span(part)];
        continue;
      }
      var literal := if position % 2 == 1 then "`" + part else part;
      if literal != [] {
        nodes := nodes + [Literal(literal)];
      }
    }
  }

  lemma RestoredOne(node: seq<Inline>, rest: seq<Inline>)
    requires |node| <= 1
    ensures Restored(node + rest) == Restored(node) + Restored(rest)
  {
    if node == [] {
      assert node + rest == rest;
    } else {
      Uncons(node, rest);
      assert node[1..] == [] && [] + rest == rest;
      assert Restored(node) == (match node[0] case Literal(text) => text case Span(code) => "`" + code + "`");
    }
  }

  /** From an odd position the tick that opens the part is still to come; from an even one it is not. */
  lemma {:induction false} NodesRestoreTheParts(parts: seq<string>, position: nat)
    requires position < |parts|
    ensures Restored(NodesFrom(parts, position)) ==
      if position % 2 == 1 then "`" + Join(parts[position..], "`") else Join(parts[position..], "`")
    decreases |parts| - position
  {
    hide Restored, NodeAt;
    var rest, part := NodesFrom(parts, position + 1), parts[position];
    RestoredOne(NodeAt(parts, position), rest);
    assert parts[position..][0] == part && parts[position..][1..] == parts[position + 1..];
    assert Restored(NodeAt(parts, position)) ==
      if position % 2 == 0 then part else if position < |parts| - 1 then "`" + part + "`" else "`" + part by {
      RestoredNode(parts, position);
    }
    if position < |parts| - 1 {
      NodesRestoreTheParts(parts, position + 1);
      var later := Join(parts[position + 1..], "`");
      Assoc(part, "`", later);
      Assoc("`", part + "`", later);
      Assoc("`" + part, "`", later);
      Assoc("`", part, "`");
    } else {
      assert rest == [] && Restored(rest) == [] by { RestoredNothing(); }
      assert part + [] == part && "`" + part + [] == "`" + part;
    }
  }

  lemma RestoredNothing()
    ensures Restored([]) == []
  {
  }

  lemma RestoredNode(parts: seq<string>, position: nat)
    requires position < |parts|
    ensures Restored(NodeAt(parts, position)) ==
      if position % 2 == 0 then parts[position]
      else if position < |parts| - 1 then "`" + parts[position] + "`" else "`" + parts[position]
  {
    var nodes := NodeAt(parts, position);
    if nodes != [] {
      assert nodes[1..] == [];
      assert Restored(nodes) == (match nodes[0] case Literal(text) => text case Span(code) => "`" + code + "`") + [];
    }
  }

  /** Nothing typed is lost: with the ticks put back the nodes spell the text, unmatched tick included. */
  lemma InlineNodesRestoreTheText(text: string)
    ensures Restored(NodesFrom(Split(text, '`'), 0)) == text
  {
    JoinSplit(text, '`');
    NodesRestoreTheParts(Split(text, '`'), 0);
    assert Split(text, '`')[0..] == Split(text, '`');
  }

  /** The nodes of a text. */
  function Nodes(text: string): seq<Inline> {
    NodesFrom(Split(text, '`'), 0)
  }

  function Literally(text: string): seq<Inline> {
    if text == [] then [] else [Literal(text)]
  }

  lemma NodeTwoOn(x: string, y: string, parts: seq<string>, position: nat)
    requires position < |parts|
    ensures NodeAt([x, y] + parts, position + 2) == NodeAt(parts, position)
  {
    assert ([x, y] + parts)[position + 2] == parts[position];
  }

  lemma {:induction false} NodesTwoOn(x: string, y: string, parts: seq<string>, position: nat)
    ensures NodesFrom([x, y] + parts, position + 2) == NodesFrom(parts, position)
    decreases |parts| - position
  {
    hide NodeAt;
    if position < |parts| {
      NodeTwoOn(x, y, parts, position);
      NodesTwoOn(x, y, parts, position + 1);
    }
  }

  lemma NodesAfterSpan(before: string, code: string, parts: seq<string>)
    requires parts != []
    ensures NodesFrom([before, code] + parts, 0) == Literally(before) + ([Span(code)] + NodesFrom(parts, 0))
  {
    var all := [before, code] + parts;
    assert NodeAt(all, 0) == Literally(before) && NodeAt(all, 1) == [Span(code)];
    hide NodeAt, Literally;
    NodesTwoOn(before, code, parts, 0);
    assert NodesFrom(all, 1) == NodeAt(all, 1) + NodesFrom(all, 2);
  }

  /** What stands between the first two ticks becomes a code element, and what follows is rendered like a new text. */
  lemma SpanIsRendered(before: string, code: string, rest: string)
    requires '`' !in before && '`' !in code
    ensures Nodes(before + "`" + code + "`" + rest) == Literally(before) + [Span(code)] + Nodes(rest)
  {
    var text, parts := before + "`" + code + "`" + rest, Split(rest, '`');
    assert text == before + ['`'] + (code + ['`'] + rest);
    SplitAppend(before, code + ['`'] + rest, '`');
    SplitAppend(code, rest, '`');
    SplitNone(before, '`');
    SplitNone(code, '`');
    hide Split, NodesFrom;
    assert [before] + ([code] + parts) == [before, code] + parts;
    NodesAfterSpan(before, code, parts);
    Assoc(Literally(before), [Span(code)], NodesFrom(parts, 0));
  }

  /** A text with no tick is itself; with a single one, the tick stays in the text. */
  lemma LonelyTickIsText(before: string, rest: string)
    requires '`' !in before && '`' !in rest
    ensures Nodes(before) == Literally(before)
    ensures Nodes(before + "`" + rest) == Literally(before) + [Literal("`" + rest)]
  {
    SplitNone(before, '`');
    SplitNone(rest, '`');
    SplitAppend(before, rest, '`');
    var one, two := [before], [before] + [rest];
    assert NodesFrom(one, 1) == [] && NodesFrom(one, 0) == Literally(before) + NodesFrom(one, 1);
    assert NodesFrom(two, 2) == [] && NodesFrom(two, 1) == [Literal("`" + rest)] + NodesFrom(two, 2);
    assert NodesFrom(two, 0) == Literally(before) + NodesFrom(two, 1);
  }

  /** A code element never holds a tick, so rendering it again would not nest. */
  lemma {:induction false} SpansHoldNoTick(text: string, position: nat)
    ensures forall n | n in NodesFrom(Split(text, '`'), position) && n.Span? :: '`' !in n.code
    decreases |Split(text, '`')| - position
  {
    JoinSplit(text, '`');
    if position < |Split(text, '`')| {
      SpansHoldNoTick(text, position + 1);
    }
  }
}
