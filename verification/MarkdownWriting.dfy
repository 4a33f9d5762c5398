/** Writing blocks as Markdown: what is written is read back, block by block and in any sequence. */
module MarkdownWriting {
  import opened Options
  import opened Sequences
  import opened Text
  import opened Markdown

  function Marks(c: char, n: nat): string {
    if n == 0 then "" else [c] + Marks(c, n - 1)
  }

  /** A block in the plainest notation. */
  function Written(block: Block): seq<string> {
    match block
    case Paragraph(text) => [text]
    case Heading(level, text) => [Marks('#', level) + " " + text]
    case Quote(text) => ["> " + text]
    case List(ordered, items) => ItemLines(if ordered then "1. " else "- ", items)
    case Code(language, body) => ["```" + language] + body + ["```"]
  }

  function ItemLines(mark: string, items: seq<string>): (r: seq<string>)
    ensures |r| == |items| && forall i | 0 <= i < |r| :: r[i] == mark + items[i]
  {
    if items == [] then [] else [mark + items[0]] + ItemLines(mark, items[1..])
  }

  /** Text that no mark of the notation starts. */
  predicate IsProse(text: string) {
    && text != [] && Trimmed(text)
    && text[0] !in "#>-*+`" && !('0' <= text[0] <= '9')
  }

  /** The blocks the notation can say: one-line texts, language names, code without fence lines. */
  predicate Writable(block: Block) {
    match block
    case Paragraph(text) => IsProse(text)
    case Heading(level, text) => 1 <= level <= 6 && text != [] && Trimmed(text) && OneLine(text)
    case Quote(text) => OneLine(text)
    case List(_, items) =>
      items != [] && forall i | 0 <= i < |items| :: OneLine(items[i]) && (items[i] == [] || !IsSpace(items[i][0]))
    case Code(language, body) =>
      (forall c | c in language :: IsLanguageChar(c)) && forall i | 0 <= i < |body| :: !IsFence(body[i])
  }

  // --------------------------------------------------------------------- lines alone

  lemma NoFence(line: string)
    requires line != [] && !IsSpace(line[0]) && line[0] != '`'
    ensures !IsFence(line)
  {
    TrimKeepsFirst(line);
    assert Trim(line)[0] != '`';
  }

  lemma TrimKeepsFirst(line: string)
    requires line != [] && !IsSpace(line[0])
    ensures Trim(line) != [] && Trim(line)[0] == line[0]
  {
    TrimEndShape(line);
    assert TrimStart(line) == line;
  }

  lemma LeadingOne(s: string, c: char)
    ensures Leading(s, c, c) == if s != [] && s[0] == c then 1 + Leading(s[1..], c, c) else 0
  {
  }

  lemma {:induction false} LeadingMarks(c: char, n: nat, rest: string)
    requires rest == [] || rest[0] != c
    ensures Leading(Marks(c, n) + rest, c, c) == n
  {
    hide Leading;
    var s := Marks(c, n) + rest;
    LeadingOne(s, c);
    if n == 0 {
      assert s == rest;
    } else {
      assert s[0] == c && s[1..] == Marks(c, n - 1) + rest;
      LeadingMarks(c, n - 1, rest);
    }
  }

  lemma {:induction false} MarksLength(c: char, n: nat)
    ensures |Marks(c, n)| == n
  {
    if n > 0 {
      MarksLength(c, n - 1);
    }
  }

  lemma BlankThen(text: string)
    requires OneLine(text) && (text == [] || !IsSpace(text[0]))
    ensures AfterBlanks(" " + text) == Some(text)
  {
    assert (" " + text)[1..] == text && (" " + text)[0] == ' ';
    assert TrimStart(text) == text;
  }

  lemma HeadingIsRead(level: nat, text: string)
    requires Writable(Heading(level, text))
    ensures var line := Marks('#', level) + " " + text;
      HeadingOf(line) == Some((level, text)) && !IsFence(line)
  {
    hide Leading, AfterBlanks, OneLine, IsFence, Trim, Trimmed;
    var line := Marks('#', level) + " " + text;
    assert line == Marks('#', level) + (" " + text);
    LeadingMarks('#', level, " " + text);
    MarksLength('#', level);
    assert line[level..] == " " + text;
    NotBlankInFront(text);
    BlankThen(text);
    TrimFixesTrimmed(text);
    assert Marks('#', level)[0] == '#' && line[0] == '#';
    NoFence(line);
  }

  lemma NotBlankInFront(text: string)
    requires text != [] && Trimmed(text)
    ensures !IsSpace(text[0])
  {
  }

  lemma QuoteIsRead(text: string)
    requires OneLine(text)
    ensures var line := "> " + text;
      QuoteOf(line) == Some(text) && !IsFence(line) && HeadingOf(line).None?
  {
    var line := "> " + text;
    assert line[0] == '>' && line[1] == ' ' && line[2..] == text;
    NoFence(line);
  }

  lemma ItemIsRead(ordered: bool, item: string)
    requires OneLine(item) && (item == [] || !IsSpace(item[0]))
    ensures var line := (if ordered then "1. " else "- ") + item;
      && ItemOf(line, ordered) == Some(item) && (!ordered ==> OrderedOf(line).None?)
      && !IsFence(line) && HeadingOf(line).None? && QuoteOf(line).None?
  {
    var line := (if ordered then "1. " else "- ") + item;
    BlankThen(item);
    if ordered {
      assert line[0] == '1' && line[1] == '.' && line[2..] == " " + item;
      assert line[1..][0] == '.' && Leading(line[1..], '0', '9') == 0;
    } else {
      assert line[0] == '-' && line[1..] == " " + item;
    }
    NoFence(line);
  }

  lemma FenceIsRead(language: string)
    requires forall c | c in language :: IsLanguageChar(c)
    ensures FenceOf("```" + language) == Some(language)
  {
    var line := "```" + language;
    assert line[..3] == "```" && line[3..] == language;
    if language != [] {
      assert language[|language| - 1] in language && line[|line| - 1] == language[|language| - 1];
    }
    TrimFixesTrimmed(line);
  }

  lemma ProseIsPlain(text: string)
    requires IsProse(text)
    ensures StartOf([text]) == PlainLine && !IsFence(text)
  {
    NoFence(text);
    TrimFixesTrimmed(text);
  }

  // -------------------------------------------------------------------- one block

  lemma {:induction false} ItemsAreRead(ordered: bool, items: seq<string>)
    requires forall i | 0 <= i < |items| :: OneLine(items[i]) && (items[i] == [] || !IsSpace(items[i][0]))
    ensures ItemBody(ItemLines(if ordered then "1. " else "- ", items), ordered) == items
  {
    hide ItemOf, OneLine;
    if items != [] {
      ItemIsRead(ordered, items[0]);
      ItemsAreRead(ordered, items[1..]);
      var mark := if ordered then "1. " else "- ";
      var rest := ItemLines(mark, items[1..]);
      assert ItemLines(mark, items) == [mark + items[0]] + rest;
      FirstItemIsRead(mark + items[0], rest, ordered, items[0]);
      assert [items[0]] + items[1..] == items;
    }
  }

  lemma FirstItemIsRead(line: string, rest: seq<string>, ordered: bool, item: string)
    requires ItemOf(line, ordered) == Some(item)
    ensures ItemBody([line] + rest, ordered) == [item] + ItemBody(rest, ordered)
  {
    hide ItemOf;
    assert ([line] + rest)[0] == line && ([line] + rest)[1..] == rest;
  }

  lemma {:induction false} BodyIsRead(body: seq<string>, fence: string)
    requires IsFence(fence) && forall i | 0 <= i < |body| :: !IsFence(body[i])
    ensures CodeBody(body + [fence]) == body
  {
    hide IsFence;
    if body == [] {
      assert body + [fence] == [fence];
    } else {
      assert (body + [fence])[0] == body[0] && (body + [fence])[1..] == body[1..] + [fence];
      BodyIsRead(body[1..], fence);
    }
  }

  /** The lines of a written block start that block and nothing else. */
  lemma WrittenStarts(block: Block)
    requires Writable(block) && !block.Paragraph?
    ensures Written(block) != [] && StartOf(Written(block)) == Started(block, |Written(block)|)
  {
    var lines := Written(block);
    match block
    case Heading(level, text) => HeadingIsRead(level, text);
    case Quote(text) =>
      QuoteIsRead(text);
      assert QuoteBody(lines[1..]) == [] && QuoteBody(lines) == [text];
    case List(ordered, items) =>
      ItemIsRead(ordered, items[0]);
      ItemsAreRead(ordered, items);
    case Code(language, body) =>
      FenceIsRead(language);
      assert "```" + "" == "```";
      FenceIsRead("");
      BodyIsRead(body, "```");
      assert lines[0] == "```" + language && lines[1..] == body + ["```"];
  }

  lemma WrittenIsRead(block: Block)
    requires Writable(block)
    ensures Blocks(Written(block), []) == [block]
  {
    hide StartOf, Writable;
    var lines := Written(block);
    BlocksUnfold(lines, []);
    NothingToFlush();
    BlocksUnfold([], []);
    if block.Paragraph? {
      assert IsProse(block.text) by { ProseOf(block); }
      ProseIsPlain(block.text);
      TrimFixesTrimmed(block.text);
      assert lines[1..] == [] && [] + [lines[0]] == [block.text];
      BlocksUnfold([], [block.text]);
      OneMoreTrimmed([], block.text);
      assert [] + [block.text] == [block.text] && TrimmedLines([]) == [];
    } else {
      WrittenStarts(block);
      assert lines[|lines|..] == [] && [block] + [] == [block];
    }
  }

  lemma ProseOf(block: Block)
    requires Writable(block) && block.Paragraph?
    ensures IsProse(block.text)
  {
  }

  // ----------------------------------------------------------------- many blocks

  /** Blocks one after the other, with an empty line in between. */
  function WrittenAll(blocks: seq<Block>): seq<string> {
    if blocks == [] then []
    else if |blocks| == 1 then Written(blocks[0])
    else Written(blocks[0]) + ([""] + WrittenAll(blocks[1..]))
  }

  lemma {:induction false} NoFencesAtAll(lines: seq<string>)
    requires forall i | 0 <= i < |lines| :: !IsFence(lines[i])
    ensures FenceCount(lines) == 0
  {
    hide IsFence;
    if lines != [] {
      NoFencesAtAll(lines[1..]);
    }
  }

  /** A written block leaves no fence open. */
  lemma WrittenIsClosed(block: Block)
    requires Writable(block)
    ensures !LeavesFenceOpen(Written(block))
  {
    var lines := Written(block);
    if block.Code? {
      FenceIsRead(block.language);
      FenceIsRead("");
      assert "```" + "" == "```";
      NoFencesAtAll(block.body);
      hide IsFence;
      FenceCountAppend(["```" + block.language] + block.body, ["```"]);
      FenceCountAppend(["```" + block.language], block.body);
      OneFence("```" + block.language);
      OneFence("```");
    } else {
      forall i | 0 <= i < |lines|
        ensures !IsFence(lines[i])
      {
        match block
        case Paragraph(text) => ProseIsPlain(text);
        case Heading(level, text) => HeadingIsRead(level, text);
        case Quote(text) => QuoteIsRead(text);
        case List(ordered, items) => ItemIsRead(ordered, items[i]);
      }
      NoFencesAtAll(lines);
    }
  }

  lemma OneFence(line: string)
    requires IsFence(line)
    ensures FenceCount([line]) == 1
  {
    assert [line][1..] == [];
  }

  /** Any sequence of blocks, written with empty lines in between, is read back as it was. */
  lemma {:induction false} WrittenAllIsRead(blocks: seq<Block>)
    requires forall i | 0 <= i < |blocks| :: Writable(blocks[i])
    ensures Blocks(WrittenAll(blocks), []) == blocks
  {
    hide Written, Writable, Blocks, LeavesFenceOpen;
    if blocks == [] {
      BlocksUnfold([], []);
      NothingToFlush();
    } else if |blocks| == 1 {
      WrittenIsRead(blocks[0]);
    } else {
      WrittenIsRead(blocks[0]);
      WrittenIsClosed(blocks[0]);
      WrittenAllIsRead(blocks[1..]);
      assert Trim("") == "";
      BlankLineSeparates(Written(blocks[0]), "", WrittenAll(blocks[1..]), []);
    }
  }

  // ---------------------------------------------------------------------- as text

  predicate NoLineEnd(s: string) {
    '\n' !in s && '\r' !in s
  }

  lemma {:induction false} NormalizeKeeps(s: string)
    requires '\r' !in s
    ensures Normalize(s) == s
  {
    if s != [] {
      NormalizeKeeps(s[1..]);
    }
  }

  lemma {:induction false} JoinHoldsNoReturn(lines: seq<string>)
    requires forall i | 0 <= i < |lines| :: NoLineEnd(lines[i])
    ensures '\r' !in Join(lines, "\n")
  {
    if |lines| > 1 {
      JoinHoldsNoReturn(lines[1..]);
    }
  }

  /** The same on text: parsing what was written gives the blocks back. */
  lemma WritingThenParsing(blocks: seq<Block>)
    requires blocks != [] && forall i | 0 <= i < |blocks| :: Writable(blocks[i])
    requires forall i | 0 <= i < |WrittenAll(blocks)| :: NoLineEnd(WrittenAll(blocks)[i])
    ensures Parsed(Join(WrittenAll(blocks), "\n")) == blocks
  {
    hide Writable, Blocks, WrittenAll, Normalize;
    var lines := WrittenAll(blocks);
    WrittenAllIsRead(blocks);
    JoinHoldsNoReturn(lines);
    NormalizeKeeps(Join(lines, "\n"));
    assert lines != [] by { SomethingWritten(blocks); }
    SplitJoin(lines, '\n');
  }

  lemma SomethingWritten(blocks: seq<Block>)
    requires blocks != [] && forall i | 0 <= i < |blocks| :: Writable(blocks[i])
    ensures WrittenAll(blocks) != []
  {
    assert Writable(blocks[0]);
    assert Written(blocks[0]) != [];
  }
}
