/** Trees of markdown content, the levelled token lists a parser makes of them, and the
    theorem that the walkers of Adf invert that flattening. */
module AdfRoundTrip {
  import opened Common
  import opened Adf

  datatype Wrapper = Bold | Italic | Struck | Linked(href: string)

  /** Inline content: wrappers over text, code and breaks. Other stands for a token the walker
      has no branch for. */
  datatype Phrase =
    | Words(text: string)
    | Snippet(text: string)
    | SoftLine
    | HardLine
    | Other(name: string)
    | Wrapped(wrapper: Wrapper, inner: seq<Phrase>)

  datatype Cell = Cell(header: bool, content: seq<Phrase>)

  /** A head or body of a table; its own markers mean nothing to the walker. */
  datatype Section = Section(name: string, rows: seq<seq<Cell>>)

  /** What may stand around a language, a language without blank ends, and code without a newline at
      its end. */
  type Blanks = s: string | Blank(s, PySpace) witness ""
  type Language = s: string | s == "" || (!PySpace(s[0]) && !PySpace(s[|s| - 1])) witness ""
  type Code = s: string | s == "" || s[|s| - 1] != '\n' witness ""

  datatype Block =
    | Para(content: seq<Phrase>)
    | Title(tag: Tag, content: seq<Phrase>)
    | Bullets(inner: seq<Block>)
    | Numbers(inner: seq<Block>)
    | Item(inner: seq<Block>)
    | Quote(inner: seq<Block>)
    | Fenced(before: Blanks, language: Language, after: Blanks, text: Code, newlines: nat)
    | Indented(text: Code, newlines: nat)
    | Line
    | Grid(sections: seq<Section>)
    | Html(name: string)

  // ---------- flattening ----------

  function Plain(kind: TokenType, level: int): Token {
    Token(kind, level, OtherTag, "", "", "", [])
  }

  function ConstructOf(w: Wrapper): Construct {
    match w
    case Bold => InStrong
    case Italic => InEm
    case Struck => InStrike
    case Linked(_) => InLink
  }

  function Opening(w: Wrapper, level: int): Token {
    Plain(Open(ConstructOf(w)), level).(href := if w.Linked? then w.href else "")
  }

  /** An open marker, what is inside one level deeper, and the matching close marker. */
  function Enclosed(open: Token, inner: seq<Token>, what: Construct): (r: seq<Token>)
    ensures |r| == |inner| + 2
  {
    [open] + inner + [Plain(Close(what), open.level)]
  }

  function FlatPhrase(p: Phrase, level: int): (r: seq<Token>)
    ensures r != []
    decreases p
  {
    match p
    case Words(text) => [Plain(TextToken, level).(content := text)]
    case Snippet(text) => [Plain(CodeInline, level).(content := text)]
    case SoftLine => [Plain(SoftBreak, level)]
    case HardLine => [Plain(HardBreakToken, level)]
    case Other(name) => [Plain(Unrecognized(name), level)]
    case Wrapped(w, inner) =>
      Enclosed(Opening(w, level), FlatPhrases(inner, level + 1), ConstructOf(w))
  }

  function FlatPhrases(ps: seq<Phrase>, level: int): seq<Token>
    decreases ps
  {
    if ps == [] then [] else FlatPhrase(ps[0], level) + FlatPhrases(ps[1..], level)
  }

  function InlineOf(content: seq<Phrase>, level: int): Token {
    Plain(InlineToken, level).(children := FlatPhrases(content, 0))
  }

  function FlatCell(c: Cell, level: int): seq<Token> {
    var what := if c.header then InHeaderCell else InDataCell;
    Enclosed(Plain(Open(what), level), [InlineOf(c.content, level + 1)], what)
  }

  function FlatCells(cells: seq<Cell>, level: int): seq<Token> {
    if cells == [] then [] else FlatCell(cells[0], level) + FlatCells(cells[1..], level)
  }

  function FlatRow(row: seq<Cell>, level: int): seq<Token> {
    Enclosed(Plain(Open(InRow), level), FlatCells(row, level + 1), InRow)
  }

  function FlatRows(rows: seq<seq<Cell>>, level: int): seq<Token> {
    if rows == [] then [] else FlatRow(rows[0], level) + FlatRows(rows[1..], level)
  }

  function Marker(section: Section, suffix: string, level: int): Token {
    Plain(Unrecognized(section.name + suffix), level)
  }

  function FlatSection(section: Section, level: int): seq<Token> {
    [Marker(section, "_open", level)] + FlatRows(section.rows, level + 1) + [Marker(section, "_close", level)]
  }

  function FlatSections(sections: seq<Section>, level: int): seq<Token> {
    if sections == [] then [] else FlatSection(sections[0], level) + FlatSections(sections[1..], level)
  }

  function Newlines(n: nat): string {
    seq(n, _ => '\n')
  }

  function FlatBlock(b: Block, level: int): (r: seq<Token>)
    ensures r != []
    decreases b
  {
    match b
    case Para(content) =>
      Enclosed(Plain(Open(InParagraph), level), [InlineOf(content, level + 1)], InParagraph)
    case Title(tag, content) =>
      Enclosed(Plain(Open(InHeading), level).(tag := tag), [InlineOf(content, level + 1)], InHeading)
    case Bullets(inner) => Enclosed(Plain(Open(InBulletList), level), FlatBlocks(inner, level + 1), InBulletList)
    case Numbers(inner) => Enclosed(Plain(Open(InOrderedList), level), FlatBlocks(inner, level + 1), InOrderedList)
    case Item(inner) => Enclosed(Plain(Open(InListItem), level), FlatBlocks(inner, level + 1), InListItem)
    case Quote(inner) => Enclosed(Plain(Open(InBlockquote), level), FlatBlocks(inner, level + 1), InBlockquote)
    case Fenced(before, language, after, text, newlines) =>
      [Plain(Fence, level).(info := before + language + after, content := text + Newlines(newlines))]
    case Indented(text, newlines) => [Plain(CodeBlockToken, level).(content := text + Newlines(newlines))]
    case Line => [Plain(Hr, level)]
    case Grid(sections) => Enclosed(Plain(Open(InTable), level), FlatSections(sections, level + 1), InTable)
    case Html(name) => [Plain(Unrecognized(name), level)]
  }

  function FlatBlocks(bs: seq<Block>, level: int): seq<Token>
    decreases bs
  {
    if bs == [] then [] else FlatBlock(bs[0], level) + FlatBlocks(bs[1..], level)
  }

  // ---------- what the trees mean ----------

  /** A leaf with the wrappers it lies in, outermost first. */
  datatype Placed = Placed(path: seq<Wrapper>, leaf: Phrase)

  function Under(w: Wrapper, leaves: seq<Placed>): seq<Placed> {
    if leaves == [] then []
    else [Placed([w] + leaves[0].path, leaves[0].leaf)] + Under(w, leaves[1..])
  }

  function LeavesOf(p: Phrase): seq<Placed>
    decreases p
  {
    match p
    case Wrapped(w, inner) => Under(w, Leaves(inner))
    case _ => [Placed([], p)]
  }

  function Leaves(ps: seq<Phrase>): seq<Placed>
    decreases ps
  {
    if ps == [] then [] else LeavesOf(ps[0]) + Leaves(ps[1..])
  }

  function MarkFor(w: Wrapper): Mark {
    match w
    case Bold => Strong
    case Italic => Em
    case Struck => Strike
    case Linked(href) => Link(href)
  }

  function Marks(path: seq<Wrapper>): seq<Mark> {
    if path == [] then [] else [MarkFor(path[0])] + Marks(path[1..])
  }

  /** Text with the marks of its wrappers, code with one more; a soft break is an unmarked space. */
  function LeafNode(leaf: Phrase, marks: seq<Mark>): seq<Node> {
    match leaf
    case Words(text) => if text == "" then [] else [Text(text, marks)]
    case Snippet(text) => if text == "" then [] else [Text(text, marks + [Code])]
    case SoftLine => [Text(" ", [])]
    case HardLine => [HardBreak]
    case _ => []
  }

  function LeafNodes(leaves: seq<Placed>, outer: seq<Mark>): seq<Node> {
    if leaves == [] then []
    else LeafNode(leaves[0].leaf, outer + Marks(leaves[0].path)) + LeafNodes(leaves[1..], outer)
  }

  function CellAdf(c: Cell): Node {
    var content := [Paragraph(LeafNodes(Leaves(c.content), []))];
    if c.header then TableHeader(content) else TableCell(content)
  }

  function CellsAdf(cells: seq<Cell>): seq<Node> {
    if cells == [] then [] else [CellAdf(cells[0])] + CellsAdf(cells[1..])
  }

  function RowAdf(row: seq<Cell>): Node {
    TableRow(CellsAdf(row))
  }

  function RowsAdf(rows: seq<seq<Cell>>): seq<Node> {
    if rows == [] then [] else [RowAdf(rows[0])] + RowsAdf(rows[1..])
  }

  function SectionsAdf(sections: seq<Section>): seq<Node> {
    if sections == [] then [] else RowsAdf(sections[0].rows) + SectionsAdf(sections[1..])
  }

  function BlockAdf(b: Block): seq<Node>
    decreases b
  {
    match b
    case Para(content) => [Paragraph(LeafNodes(Leaves(content), []))]
    case Title(tag, content) => [Heading(if tag.HeadingTag? then tag.n else 1, LeafNodes(Leaves(content), []))]
    case Bullets(inner) => [BulletList(BlocksAdf(inner))]
    case Numbers(inner) => [OrderedList(BlocksAdf(inner))]
    case Item(inner) => [ListItem(if BlocksAdf(inner) == [] then [Paragraph([])] else BlocksAdf(inner))]
    case Quote(inner) => [Blockquote(BlocksAdf(inner))]
    case Fenced(_, language, _, text, _) => [CodeBlock(language, text)]
    case Indented(text, _) => [CodeBlock("", text)]
    case Line => [Rule]
    case Grid(sections) => [Table(SectionsAdf(sections))]
    case Html(_) => []
  }

  function BlocksAdf(bs: seq<Block>): seq<Node>
    decreases bs
  {
    if bs == [] then [] else BlockAdf(bs[0]) + BlocksAdf(bs[1..])
  }

  // ---------- inline round trip ----------

  /** `part` stands in `tokens` from index i on. */
  ghost predicate At(tokens: seq<Token>, i: nat, part: seq<Token>) {
    && i + |part| <= |tokens|
    && forall k {:trigger part[k]} :: 0 <= k < |part| ==> tokens[i + k] == part[k]
  }

  lemma AtConcat(tokens: seq<Token>, i: nat, a: seq<Token>, b: seq<Token>)
    requires At(tokens, i, a + b)
    ensures At(tokens, i, a) && At(tokens, i + |a|, b)
  {
    forall k | 0 <= k < |a| ensures tokens[i + k] == a[k] {
      assert (a + b)[k] == a[k];
    }
    forall k | 0 <= k < |b| ensures tokens[i + |a| + k] == b[k] {
      assert (a + b)[|a| + k] == b[k];
    }
  }

  /** The parts of an enclosed stretch, each where it stands. */
  lemma AtEnclosed(tokens: seq<Token>, i: nat, open: Token, inner: seq<Token>, what: Construct)
    requires At(tokens, i, Enclosed(open, inner, what))
    ensures At(tokens, i + 1, inner) && i + 1 + |inner| < |tokens|
    ensures tokens[i] == open && tokens[i + 1 + |inner|] == Plain(Close(what), open.level)
  {
    var close := [Plain(Close(what), open.level)];
    AtConcat(tokens, i, [open] + inner, close);
    AtConcat(tokens, i, [open], inner);
    assert [open][0] == open && close[0] == Plain(Close(what), open.level);
  }

  lemma PhrasesParts(tokens: seq<Token>, i: nat, ps: seq<Phrase>, level: int)
    requires ps != [] && At(tokens, i, FlatPhrases(ps, level))
    ensures |FlatPhrases(ps, level)| == |FlatPhrase(ps[0], level)| + |FlatPhrases(ps[1..], level)|
    ensures At(tokens, i, FlatPhrase(ps[0], level))
    ensures At(tokens, i + |FlatPhrase(ps[0], level)|, FlatPhrases(ps[1..], level))
  {
    AtConcat(tokens, i, FlatPhrase(ps[0], level), FlatPhrases(ps[1..], level));
  }

  /** Counting depth across a balanced stretch changes nothing. */
  lemma {:induction false} DepthBalances(tokens: seq<Token>, i: nat, ps: seq<Phrase>, level: int, depth: nat,
                                         what: Construct)
    requires depth > 0 && At(tokens, i, FlatPhrases(ps, level))
    ensures InlineClose(tokens, i, depth, what)
            == InlineClose(tokens, i + |FlatPhrases(ps, level)|, depth, what)
    decreases ps, 0
  {
    if ps == [] {
      assert FlatPhrases(ps, level) == [];
    } else {
      PhrasesParts(tokens, i, ps, level);
      PhraseBalances(tokens, i, ps[0], level, depth, what);
      DepthBalances(tokens, i + |FlatPhrase(ps[0], level)|, ps[1..], level, depth, what);
    }
  }

  lemma {:induction false} PhraseBalances(tokens: seq<Token>, i: nat, p: Phrase, level: int, depth: nat,
                                          what: Construct)
    requires depth > 0 && At(tokens, i, FlatPhrase(p, level))
    ensures InlineClose(tokens, i, depth, what) == InlineClose(tokens, i + |FlatPhrase(p, level)|, depth, what)
    decreases p
  {
    match p {
      case Wrapped(w, inner) => WrapperBalances(tokens, i, w, inner, level, depth, what);
      case _ => assert tokens[i] == FlatPhrase(p, level)[0];
    }
  }

  /** Passing an open token, and a close token that is not the one looked for. */
  lemma PassOpen(tokens: seq<Token>, i: nat, depth: nat, construct: Construct, what: Construct)
    requires depth > 0 && i < |tokens| && tokens[i].kind == Open(construct)
    ensures InlineClose(tokens, i, depth, what)
            == InlineClose(tokens, i + 1, if construct == what then depth + 1 else depth, what)
  {
  }

  lemma PassClose(tokens: seq<Token>, i: nat, depth: nat, construct: Construct, what: Construct)
    requires depth > 0 && i < |tokens| && tokens[i].kind == Close(construct)
    ensures InlineClose(tokens, i, if construct == what then depth + 1 else depth, what)
            == InlineClose(tokens, i + 1, depth, what)
  {
  }

  lemma {:induction false} WrapperBalances(tokens: seq<Token>, i: nat, w: Wrapper, inner: seq<Phrase>, level: int,
                                           depth: nat, what: Construct)
    requires depth > 0
    requires At(tokens, i, Enclosed(Opening(w, level), FlatPhrases(inner, level + 1), ConstructOf(w)))
    ensures InlineClose(tokens, i, depth, what)
            == InlineClose(tokens, i + |FlatPhrases(inner, level + 1)| + 2, depth, what)
    decreases inner, 1
  {
    var flat, construct := FlatPhrases(inner, level + 1), ConstructOf(w);
    var within := if construct == what then depth + 1 else depth;
    AtEnclosed(tokens, i, Opening(w, level), flat, construct);
    PassOpen(tokens, i, depth, construct, what);
    DepthBalances(tokens, i + 1, inner, level + 1, within, what);
    PassClose(tokens, i + 1 + |flat|, depth, construct, what);
  }

  lemma {:induction false} LeafNodesUnder(w: Wrapper, leaves: seq<Placed>, outer: seq<Mark>)
    ensures LeafNodes(Under(w, leaves), outer) == LeafNodes(leaves, outer + [MarkFor(w)])
  {
    if leaves != [] {
      LeafNodesUnder(w, leaves[1..], outer);
      var path := [w] + leaves[0].path;
      assert path[1..] == leaves[0].path;
      assert outer + Marks(path) == outer + [MarkFor(w)] + Marks(leaves[0].path);
      assert Under(w, leaves)[1..] == Under(w, leaves[1..]);
    }
  }

  lemma {:induction false} LeafNodesConcat(a: seq<Placed>, b: seq<Placed>, outer: seq<Mark>)
    ensures LeafNodes(a + b, outer) == LeafNodes(a, outer) + LeafNodes(b, outer)
  {
    if a == [] {
      assert a + b == b;
    } else {
      assert (a + b)[1..] == a[1..] + b && (a + b)[0] == a[0];
      LeafNodesConcat(a[1..], b, outer);
    }
  }

  /** Round trip of inline content: what the walker makes of a flattened list is its leaves in
      order, each with the marks of the wrappers around it, outermost first. */
  lemma {:induction false} InlineRoundTrip(tokens: seq<Token>, i: nat, ps: seq<Phrase>, level: int, marks: seq<Mark>)
    requires At(tokens, i, FlatPhrases(ps, level)) && i + |FlatPhrases(ps, level)| == |tokens|
    ensures Inline(tokens, i, marks) == LeafNodes(Leaves(ps), marks)
    decreases ps, 0
  {
    if ps == [] {
      NoPhrases(tokens, i, ps, level, marks);
    } else {
      var next := i + |FlatPhrase(ps[0], level)|;
      PhrasesParts(tokens, i, ps, level);
      PhraseRoundTrip(tokens, i, ps[0], level, marks);
      InlineRoundTrip(tokens, next, ps[1..], level, marks);
      InlineStep(tokens, i, next, marks);
      LeavesStep(ps, marks);
    }
  }

  lemma NoPhrases(tokens: seq<Token>, i: nat, ps: seq<Phrase>, level: int, marks: seq<Mark>)
    requires ps == [] && i <= |tokens|
    ensures FlatPhrases(ps, level) == [] && LeafNodes(Leaves(ps), marks) == []
    ensures i == |tokens| ==> Inline(tokens, i, marks) == []
  {
  }

  lemma LeavesStep(ps: seq<Phrase>, marks: seq<Mark>)
    requires ps != []
    ensures LeafNodes(Leaves(ps), marks) == LeafNodes(LeavesOf(ps[0]), marks) + LeafNodes(Leaves(ps[1..]), marks)
  {
    LeafNodesConcat(LeavesOf(ps[0]), Leaves(ps[1..]), marks);
  }

  lemma InlineStep(tokens: seq<Token>, i: nat, next: nat, marks: seq<Mark>)
    requires i < |tokens| && next == InlineNext(tokens, i)
    ensures Inline(tokens, i, marks) == InlineChunk(tokens, i, marks) + Inline(tokens, next, marks)
  {
  }

  lemma {:induction false} PhraseRoundTrip(tokens: seq<Token>, i: nat, p: Phrase, level: int, marks: seq<Mark>)
    requires At(tokens, i, FlatPhrase(p, level))
    ensures i < |tokens| && InlineNext(tokens, i) == i + |FlatPhrase(p, level)|
    ensures InlineChunk(tokens, i, marks) == LeafNodes(LeavesOf(p), marks)
    decreases p
  {
    match p {
      case Wrapped(w, inner) => WrapperRoundTrip(tokens, i, w, inner, level, marks);
      case _ => LeafRoundTrip(tokens, i, p, level, marks);
    }
  }

  lemma {:induction false} WrapperRoundTrip(tokens: seq<Token>, i: nat, w: Wrapper, inner: seq<Phrase>, level: int,
                                            marks: seq<Mark>)
    requires At(tokens, i, Enclosed(Opening(w, level), FlatPhrases(inner, level + 1), ConstructOf(w)))
    ensures i < |tokens| && InlineNext(tokens, i) == i + |FlatPhrases(inner, level + 1)| + 2
    ensures InlineChunk(tokens, i, marks) == LeafNodes(Under(w, Leaves(inner)), marks)
    decreases inner, 1
  {
    var flat := FlatPhrases(inner, level + 1);
    var close := i + 1 + |flat|;
    AtEnclosed(tokens, i, Opening(w, level), flat, ConstructOf(w));
    DepthBalances(tokens, i + 1, inner, level + 1, 1, ConstructOf(w));
    assert MarkOf(tokens[i]) == Some(MarkFor(w));
    assert InlineClose(tokens, i + 1, 1, ConstructOf(w)) == close;
    InlineRoundTrip(tokens[i + 1..close], 0, inner, level + 1, marks + [MarkFor(w)]);
    LeafNodesUnder(w, Leaves(inner), marks);
  }

  lemma LeafRoundTrip(tokens: seq<Token>, i: nat, p: Phrase, level: int, marks: seq<Mark>)
    requires At(tokens, i, FlatPhrase(p, level)) && !p.Wrapped?
    ensures |FlatPhrase(p, level)| == 1
    ensures InlineNext(tokens, i) == i + 1
    ensures InlineChunk(tokens, i, marks) == LeafNodes(LeavesOf(p), marks)
  {
    assert tokens[i] == FlatPhrase(p, level)[0];
    var leaves := LeavesOf(p);
    assert leaves == [Placed([], p)];
    assert marks + Marks([]) == marks;
    assert LeafNodes(leaves, marks) == LeafNode(p, marks) + LeafNodes(leaves[1..], marks);
  }

  // ---------- block round trip ----------

  ghost predicate AtLeast(part: seq<Token>, level: int) {
    forall k :: 0 <= k < |part| ==> part[k].level >= level
  }

  lemma AtLeastConcat(a: seq<Token>, b: seq<Token>, level: int)
    requires AtLeast(a, level) && AtLeast(b, level)
    ensures AtLeast(a + b, level)
  {
  }

  lemma AtLeastEnclosed(open: Token, inner: seq<Token>, what: Construct)
    requires AtLeast(inner, open.level + 1)
    ensures AtLeast(Enclosed(open, inner, what), open.level)
  {
  }

  lemma {:induction false} CellLevels(cells: seq<Cell>, level: int)
    ensures AtLeast(FlatCells(cells, level), level)
  {
    if cells != [] {
      CellLevels(cells[1..], level);
      AtLeastConcat(FlatCell(cells[0], level), FlatCells(cells[1..], level), level);
    }
  }

  lemma {:induction false} RowLevels(rows: seq<seq<Cell>>, level: int)
    ensures AtLeast(FlatRows(rows, level), level)
  {
    if rows != [] {
      CellLevels(rows[0], level + 1);
      AtLeastEnclosed(Plain(Open(InRow), level), FlatCells(rows[0], level + 1), InRow);
      RowLevels(rows[1..], level);
      AtLeastConcat(FlatRow(rows[0], level), FlatRows(rows[1..], level), level);
    }
  }

  lemma {:induction false} SectionLevels(sections: seq<Section>, level: int)
    ensures AtLeast(FlatSections(sections, level), level)
  {
    if sections != [] {
      RowLevels(sections[0].rows, level + 1);
      SectionLevels(sections[1..], level);
    }
  }

  lemma {:induction false} BlockLevels(b: Block, level: int)
    ensures AtLeast(FlatBlock(b, level), level)
    decreases b
  {
    if IsContainer(b) {
      var open := Plain(Open(ContainerOf(b)), level);
      BlocksLevels(Contained(b), level + 1);
      AtLeastEnclosed(open, FlatBlocks(Contained(b), level + 1), ContainerOf(b));
      ContainerFlat(b, level);
    } else {
      OtherBlockLevels(b, level);
    }
  }

  lemma OtherBlockLevels(b: Block, level: int)
    requires !IsContainer(b)
    ensures AtLeast(FlatBlock(b, level), level)
  {
    if b.Grid? {
      SectionLevels(b.sections, level + 1);
    }
  }

  lemma {:induction false} BlocksLevels(bs: seq<Block>, level: int)
    ensures AtLeast(FlatBlocks(bs, level), level)
    decreases bs
  {
    if bs != [] {
      BlockLevels(bs[0], level);
      BlocksLevels(bs[1..], level);
      AtLeastConcat(FlatBlock(bs[0], level), FlatBlocks(bs[1..], level), level);
    }
  }

  /** The block walker always finds the matching close: everything inside lies deeper. */
  lemma MatchingClose(tokens: seq<Token>, i: nat, open: Token, inner: seq<Token>, what: Construct)
    requires At(tokens, i, Enclosed(open, inner, what)) && AtLeast(inner, open.level + 1)
    ensures i + 1 <= |tokens| && BlockClose(tokens, i + 1, what, open.level) == i + 1 + |inner|
    ensures tokens[i] == open && At(tokens, i + 1, inner) && i + 1 + |inner| < |tokens|
  {
    AtEnclosed(tokens, i, open, inner, what);
    DeeperSkipped(tokens, i + 1, inner, what, open.level);
  }

  lemma DeeperSkipped(tokens: seq<Token>, i: nat, inner: seq<Token>, what: Construct, level: int)
    requires At(tokens, i, inner) && AtLeast(inner, level + 1)
    ensures BlockClose(tokens, i, what, level) == BlockClose(tokens, i + |inner|, what, level)
    decreases inner
  {
    if inner != [] {
      assert inner == inner[..1] + inner[1..];
      AtConcat(tokens, i, inner[..1], inner[1..]);
      assert tokens[i] == inner[0];
      DeeperSkipped(tokens, i + 1, inner[1..], what, level);
    }
  }

  /** A construct around one inline token yields the leaves of its content. */
  lemma InlineInside(tokens: seq<Token>, i: nat, open: Token, content: seq<Phrase>, what: Construct)
    requires At(tokens, i, Enclosed(open, [InlineOf(content, open.level + 1)], what))
    ensures i + 2 < |tokens| && tokens[i] == open
    ensures BlockClose(tokens, i + 1, what, open.level) == i + 2
    ensures InlineAfter(tokens, i, i + 2) == LeafNodes(Leaves(content), [])
  {
    var inner := [InlineOf(content, open.level + 1)];
    MatchingClose(tokens, i, open, inner, what);
    assert tokens[i + 1] == inner[0];
    InlineRoundTrip(inner[0].children, 0, content, 0, []);
  }

  lemma CellsParts(tokens: seq<Token>, i: nat, cells: seq<Cell>, level: int)
    requires cells != [] && At(tokens, i, FlatCells(cells, level))
    ensures |FlatCells(cells, level)| == 3 + |FlatCells(cells[1..], level)|
    ensures At(tokens, i, FlatCell(cells[0], level)) && At(tokens, i + 3, FlatCells(cells[1..], level))
  {
    AtConcat(tokens, i, FlatCell(cells[0], level), FlatCells(cells[1..], level));
  }

  lemma CellsStep(tokens: seq<Token>, i: nat, cell: Cell, level: int, end: nat)
    requires At(tokens, i, FlatCell(cell, level)) && i + 3 <= end <= |tokens|
    ensures Cells(tokens, i, end) == [CellAdf(cell)] + Cells(tokens, i + 3, end)
  {
    var what := if cell.header then InHeaderCell else InDataCell;
    InlineInside(tokens, i, Plain(Open(what), level), cell.content, what);
  }

  lemma NoCells(tokens: seq<Token>, i: nat, cells: seq<Cell>, level: int)
    requires cells == [] && i <= |tokens|
    ensures FlatCells(cells, level) == [] && Cells(tokens, i, i) == CellsAdf(cells)
  {
  }

  lemma {:induction false} CellsRoundTrip(tokens: seq<Token>, i: nat, cells: seq<Cell>, level: int, end: nat)
    requires At(tokens, i, FlatCells(cells, level)) && i + |FlatCells(cells, level)| == end
    ensures Cells(tokens, i, end) == CellsAdf(cells)
    decreases cells
  {
    if cells == [] {
      NoCells(tokens, i, cells, level);
    } else {
      CellsParts(tokens, i, cells, level);
      CellsStep(tokens, i, cells[0], level, end);
      CellsRoundTrip(tokens, i + 3, cells[1..], level, end);
    }
  }

  lemma RowsStep(tokens: seq<Token>, i: nat, row: seq<Cell>, level: int, end: nat)
    requires At(tokens, i, FlatRow(row, level)) && i < end <= |tokens|
    ensures Rows(tokens, i, end) == [RowAdf(row)] + Rows(tokens, i + |FlatRow(row, level)|, end)
  {
    var open, inner := Plain(Open(InRow), level), FlatCells(row, level + 1);
    CellLevels(row, level + 1);
    MatchingClose(tokens, i, open, inner, InRow);
    CellsRoundTrip(tokens, i + 1, row, level + 1, i + 1 + |inner|);
  }

  lemma RowsParts(tokens: seq<Token>, i: nat, rows: seq<seq<Cell>>, level: int)
    requires rows != [] && At(tokens, i, FlatRows(rows, level))
    ensures |FlatRows(rows, level)| == |FlatRow(rows[0], level)| + |FlatRows(rows[1..], level)|
    ensures At(tokens, i, FlatRow(rows[0], level))
    ensures At(tokens, i + |FlatRow(rows[0], level)|, FlatRows(rows[1..], level))
  {
    AtConcat(tokens, i, FlatRow(rows[0], level), FlatRows(rows[1..], level));
  }

  lemma NoRows(rows: seq<seq<Cell>>, level: int, after: seq<Node>)
    requires rows == []
    ensures |FlatRows(rows, level)| == 0 && RowsAdf(rows) + after == after
  {
    assert RowsAdf(rows) == [];
  }

  lemma RowsJoin(rows: seq<seq<Cell>>, all: seq<Node>, rest: seq<Node>, after: seq<Node>)
    requires rows != [] && all == [RowAdf(rows[0])] + rest && rest == RowsAdf(rows[1..]) + after
    ensures all == RowsAdf(rows) + after
  {
  }

  lemma {:induction false} RowsRoundTrip(tokens: seq<Token>, i: nat, rows: seq<seq<Cell>>, level: int, end: nat)
    requires At(tokens, i, FlatRows(rows, level)) && i + |FlatRows(rows, level)| <= end <= |tokens|
    ensures Rows(tokens, i, end) == RowsAdf(rows) + Rows(tokens, i + |FlatRows(rows, level)|, end)
    decreases rows
  {
    if rows == [] {
      NoRows(rows, level, Rows(tokens, i, end));
    } else {
      var next, stop := i + |FlatRow(rows[0], level)|, i + |FlatRows(rows, level)|;
      RowsParts(tokens, i, rows, level);
      RowsStep(tokens, i, rows[0], level, end);
      RowsRoundTrip(tokens, next, rows[1..], level, end);
      assert stop == next + |FlatRows(rows[1..], level)|;
      RowsJoin(rows, Rows(tokens, i, end), Rows(tokens, next, end), Rows(tokens, stop, end));
    }
  }

  lemma MarkerSkipped(tokens: seq<Token>, i: nat, marker: Token, end: nat)
    requires At(tokens, i, [marker]) && marker.kind.Unrecognized? && i < end <= |tokens|
    ensures Rows(tokens, i, end) == Rows(tokens, i + 1, end)
  {
    assert tokens[i] == [marker][0];
  }

  lemma SectionStep(tokens: seq<Token>, i: nat, section: Section, level: int, end: nat)
    requires At(tokens, i, FlatSection(section, level)) && i + |FlatSection(section, level)| <= end <= |tokens|
    ensures Rows(tokens, i, end) == RowsAdf(section.rows) + Rows(tokens, i + |FlatSection(section, level)|, end)
  {
    var open, close := Marker(section, "_open", level), Marker(section, "_close", level);
    var rows := FlatRows(section.rows, level + 1);
    AtConcat(tokens, i, [open] + rows, [close]);
    AtConcat(tokens, i, [open], rows);
    MarkerSkipped(tokens, i, open, end);
    RowsRoundTrip(tokens, i + 1, section.rows, level + 1, end);
    MarkerSkipped(tokens, i + 1 + |rows|, close, end);
  }

  lemma SectionsParts(tokens: seq<Token>, i: nat, sections: seq<Section>, level: int)
    requires sections != [] && At(tokens, i, FlatSections(sections, level))
    ensures |FlatSections(sections, level)|
            == |FlatSection(sections[0], level)| + |FlatSections(sections[1..], level)|
    ensures At(tokens, i, FlatSection(sections[0], level))
    ensures At(tokens, i + |FlatSection(sections[0], level)|, FlatSections(sections[1..], level))
  {
    AtConcat(tokens, i, FlatSection(sections[0], level), FlatSections(sections[1..], level));
  }

  lemma {:induction false} SectionsRoundTrip(tokens: seq<Token>, i: nat, sections: seq<Section>, level: int, end: nat)
    requires At(tokens, i, FlatSections(sections, level)) && i + |FlatSections(sections, level)| == end
    ensures Rows(tokens, i, end) == SectionsAdf(sections)
    decreases sections
  {
    if sections == [] {
    } else {
      var next := i + |FlatSection(sections[0], level)|;
      SectionsParts(tokens, i, sections, level);
      SectionStep(tokens, i, sections[0], level, end);
      SectionsRoundTrip(tokens, next, sections[1..], level, end);
      SectionsJoin(sections, Rows(tokens, i, end), Rows(tokens, next, end));
    }
  }

  lemma SectionsJoin(sections: seq<Section>, rows: seq<Node>, rest: seq<Node>)
    requires sections != [] && rows == RowsAdf(sections[0].rows) + rest && rest == SectionsAdf(sections[1..])
    ensures rows == SectionsAdf(sections)
  {
  }

  lemma TableRoundTrip(tokens: seq<Token>, i: nat, sections: seq<Section>, level: int)
    requires At(tokens, i, Enclosed(Plain(Open(InTable), level), FlatSections(sections, level + 1), InTable))
    ensures i < |tokens| && BlockNext(tokens, i) == i + |FlatSections(sections, level + 1)| + 2
    ensures BlockChunk(tokens, i) == [Table(SectionsAdf(sections))]
  {
    var inner := FlatSections(sections, level + 1);
    TableCloses(tokens, i, sections, level);
    SectionsRoundTrip(tokens, i + 1, sections, level + 1, i + 1 + |inner|);
    TableChunk(tokens, i, i + 1 + |inner|);
  }

  lemma TableCloses(tokens: seq<Token>, i: nat, sections: seq<Section>, level: int)
    requires At(tokens, i, Enclosed(Plain(Open(InTable), level), FlatSections(sections, level + 1), InTable))
    ensures var close := i + 1 + |FlatSections(sections, level + 1)|;
      && close < |tokens| && tokens[i].kind == Open(InTable)
      && BlockClose(tokens, i + 1, InTable, tokens[i].level) == close
      && At(tokens, i + 1, FlatSections(sections, level + 1))
  {
    SectionLevels(sections, level + 1);
    MatchingClose(tokens, i, Plain(Open(InTable), level), FlatSections(sections, level + 1), InTable);
  }

  lemma TableChunk(tokens: seq<Token>, i: nat, close: nat)
    requires i < |tokens| && tokens[i].kind == Open(InTable)
    requires BlockClose(tokens, i + 1, InTable, tokens[i].level) == close
    ensures BlockNext(tokens, i) == close + 1 && BlockChunk(tokens, i) == [Table(Rows(tokens, i + 1, close))]
  {
  }

  predicate IsContainer(b: Block) {
    b.Bullets? || b.Numbers? || b.Item? || b.Quote?
  }

  function ContainerOf(b: Block): Construct
    requires IsContainer(b)
  {
    match b
    case Bullets(_) => InBulletList
    case Numbers(_) => InOrderedList
    case Item(_) => InListItem
    case _ => InBlockquote
  }

  function Contained(b: Block): (inner: seq<Block>)
    requires IsContainer(b)
    ensures b == Bullets(inner) || b == Numbers(inner) || b == Item(inner) || b == Quote(inner)
  {
    match b
    case Bullets(inner) => inner
    case Numbers(inner) => inner
    case Item(inner) => inner
    case Quote(inner) => inner
  }

  lemma ContainerFlat(b: Block, level: int)
    requires IsContainer(b)
    ensures FlatBlock(b, level)
            == Enclosed(Plain(Open(ContainerOf(b)), level), FlatBlocks(Contained(b), level + 1), ContainerOf(b))
    ensures BlockAdf(b) == [NestedAdf(ContainerOf(b), BlocksAdf(Contained(b)))]
  {
  }

  lemma {:induction false} ContainerRoundTrip(tokens: seq<Token>, i: nat, b: Block, level: int)
    requires IsContainer(b) && At(tokens, i, FlatBlock(b, level))
    ensures i < |tokens| && BlockNext(tokens, i) == i + |FlatBlock(b, level)|
    ensures BlockChunk(tokens, i) == BlockAdf(b)
    decreases b, 0
  {
    ContainerFlat(b, level);
    NestedRoundTrip(tokens, i, Plain(Open(ContainerOf(b)), level), Contained(b), ContainerOf(b));
  }

  /** Round trip of one block: the walker emits its document nodes and goes on right after it. */
  lemma {:induction false} BlockRoundTrip(tokens: seq<Token>, i: nat, b: Block, level: int)
    requires At(tokens, i, FlatBlock(b, level))
    ensures i < |tokens| && BlockNext(tokens, i) == i + |FlatBlock(b, level)|
    ensures BlockChunk(tokens, i) == BlockAdf(b)
    decreases b, 1
  {
    if b.Para? || b.Title? {
      TextBlockRoundTrip(tokens, i, b, level);
    } else if IsContainer(b) {
      ContainerRoundTrip(tokens, i, b, level);
    } else if b.Grid? {
      TableRoundTrip(tokens, i, b.sections, level);
    } else {
      LeafBlockRoundTrip(tokens, i, b, level);
    }
  }

  lemma TextBlockRoundTrip(tokens: seq<Token>, i: nat, b: Block, level: int)
    requires (b.Para? || b.Title?) && At(tokens, i, FlatBlock(b, level))
    ensures i < |tokens| && BlockNext(tokens, i) == i + |FlatBlock(b, level)|
    ensures BlockChunk(tokens, i) == BlockAdf(b)
  {
    match b
    case Para(content) => InlineBlockRoundTrip(tokens, i, Plain(Open(InParagraph), level), content, InParagraph);
    case Title(tag, content) =>
      var open := Plain(Open(InHeading), level).(tag := tag);
      InlineBlockRoundTrip(tokens, i, open, content, InHeading);
  }

  lemma InlineBlockRoundTrip(tokens: seq<Token>, i: nat, open: Token, content: seq<Phrase>, what: Construct)
    requires what in {InParagraph, InHeading} && open.kind == Open(what)
    requires At(tokens, i, Enclosed(open, [InlineOf(content, open.level + 1)], what))
    ensures i < |tokens| && BlockNext(tokens, i) == i + 3
    ensures BlockChunk(tokens, i)
            == [if what == InParagraph then Paragraph(LeafNodes(Leaves(content), []))
                else Heading(HeadingLevel(open.tag), LeafNodes(Leaves(content), []))]
  {
    InlineInside(tokens, i, open, content, what);
  }

  lemma LeafBlockRoundTrip(tokens: seq<Token>, i: nat, b: Block, level: int)
    requires b.Fenced? || b.Indented? || b.Line? || b.Html?
    requires At(tokens, i, FlatBlock(b, level))
    ensures |FlatBlock(b, level)| == 1
    ensures i < |tokens| && BlockNext(tokens, i) == i + 1
    ensures BlockChunk(tokens, i) == BlockAdf(b)
  {
    assert tokens[i] == FlatBlock(b, level)[0];
    match b
    case Fenced(before, language, after, text, newlines) =>
      TrimUnique(before, language, after, PySpace);
      NewlinesUnique(text, newlines);
    case Indented(text, newlines) => NewlinesUnique(text, newlines);
    case _ =>
  }

  lemma {:induction false} NewlinesUnique(text: Code, n: nat)
    ensures DropTrailingNewlines(text + Newlines(n)) == text
  {
    var s := text + Newlines(n);
    if n == 0 {
      assert s == text;
    } else {
      assert s[..|s| - 1] == text + Newlines(n - 1);
      NewlinesUnique(text, n - 1);
    }
  }

  /** Every fence and every code block, whatever its info and content, flattens from such a tree. */
  lemma EveryFence(info: string, content: string, level: int) returns (b: Block)
    ensures b.Fenced? && FlatBlock(b, level) == [Plain(Fence, level).(info := info, content := content)]
  {
    var before, after := TrimCuts(info, PySpace);
    var newlines := NewlinesDropped(content);
    assert newlines == Newlines(|newlines|);
    b := Fenced(before, Strip(info), after, DropTrailingNewlines(content), |newlines|);
  }

  lemma EveryCodeBlock(content: string, level: int) returns (b: Block)
    ensures b.Indented? && FlatBlock(b, level) == [Plain(CodeBlockToken, level).(content := content)]
  {
    var newlines := NewlinesDropped(content);
    assert newlines == Newlines(|newlines|);
    b := Indented(DropTrailingNewlines(content), |newlines|);
  }

  function NestedAdf(what: Construct, content: seq<Node>): Node {
    match what
    case InBulletList => BulletList(content)
    case InOrderedList => OrderedList(content)
    case InListItem => ListItem(if content == [] then [Paragraph([])] else content)
    case _ => Blockquote(content)
  }

  lemma {:induction false} NestedRoundTrip(tokens: seq<Token>, i: nat, open: Token, inner: seq<Block>, what: Construct)
    requires what in {InBulletList, InOrderedList, InListItem, InBlockquote} && open.kind == Open(what)
    requires At(tokens, i, Enclosed(open, FlatBlocks(inner, open.level + 1), what))
    ensures i < |tokens| && BlockNext(tokens, i) == i + |FlatBlocks(inner, open.level + 1)| + 2
    ensures BlockChunk(tokens, i) == [NestedAdf(what, BlocksAdf(inner))]
    decreases inner, 1
  {
    var flat := FlatBlocks(inner, open.level + 1);
    BlocksLevels(inner, open.level + 1);
    MatchingClose(tokens, i, open, flat, what);
    BlocksRoundTrip(tokens, i + 1, inner, open.level + 1, i + 1 + |flat|);
  }

  lemma BlocksJoin(tokens: seq<Token>, i: nat, bs: seq<Block>, end: nat)
    requires bs != [] && i < end <= |tokens|
    requires BlockChunk(tokens, i) == BlockAdf(bs[0])
    requires Blocks(tokens, BlockNext(tokens, i), end) == BlocksAdf(bs[1..])
    ensures Blocks(tokens, i, end) == BlocksAdf(bs)
  {
  }

  lemma BlocksParts(tokens: seq<Token>, i: nat, bs: seq<Block>, level: int)
    requires bs != [] && At(tokens, i, FlatBlocks(bs, level))
    ensures |FlatBlocks(bs, level)| == |FlatBlock(bs[0], level)| + |FlatBlocks(bs[1..], level)|
    ensures At(tokens, i, FlatBlock(bs[0], level))
    ensures At(tokens, i + |FlatBlock(bs[0], level)|, FlatBlocks(bs[1..], level))
  {
    AtConcat(tokens, i, FlatBlock(bs[0], level), FlatBlocks(bs[1..], level));
  }

  /** Round trip of blocks, wherever they stand in a token list. */
  lemma {:induction false} BlocksRoundTrip(tokens: seq<Token>, i: nat, bs: seq<Block>, level: int, end: nat)
    requires At(tokens, i, FlatBlocks(bs, level)) && i + |FlatBlocks(bs, level)| == end
    ensures Blocks(tokens, i, end) == BlocksAdf(bs)
    decreases bs, 0
  {
    if bs == [] {
      assert FlatBlocks(bs, level) == [] && end == i;
    } else {
      BlocksParts(tokens, i, bs, level);
      BlockRoundTrip(tokens, i, bs[0], level);
      BlocksRoundTrip(tokens, i + |FlatBlock(bs[0], level)|, bs[1..], level, end);
      BlocksJoin(tokens, i, bs, end);
    }
  }

  /** A flattened document comes back as its document tree, at whatever level it was written. */
  lemma DocumentRoundTrip(bs: seq<Block>, level: int)
    ensures Document(FlatBlocks(bs, level)) == if BlocksAdf(bs) == [] then [Paragraph([])] else BlocksAdf(bs)
  {
    var tokens := FlatBlocks(bs, level);
    BlocksRoundTrip(tokens, 0, bs, level, |tokens|);
  }

  // ---------- lists that are not flattened trees ----------

  predicate Nests(what: Construct) {
    what == InBulletList || what == InOrderedList || what == InListItem || what == InBlockquote
  }

  predicate IsLeaf(t: Token) {
    t.kind == Fence || t.kind == CodeBlockToken || t.kind == Hr
  }

  function NodeOfLeaf(t: Token): Node {
    if t.kind == Hr then Rule else CodeNode(t)
  }

  /** The code blocks and rules of document nodes, in order. */
  function LeafBlocks(nodes: seq<Node>): seq<Node>
    decreases nodes
  {
    if nodes == [] then [] else LeafNodesOf(nodes[0]) + LeafBlocks(nodes[1..])
  }

  function LeafNodesOf(node: Node): seq<Node>
    decreases node
  {
    match node
    case BulletList(content) => LeafBlocks(content)
    case OrderedList(content) => LeafBlocks(content)
    case ListItem(content) => LeafBlocks(content)
    case Blockquote(content) => LeafBlocks(content)
    case CodeBlock(_, _) => [node]
    case Rule => [node]
    case _ => []
  }

  function Closing(tokens: seq<Token>, i: nat): (k: nat)
    requires i < |tokens| && OpensBlock(tokens[i])
    ensures i < k <= |tokens|
  {
    BlockClose(tokens, i + 1, tokens[i].kind.what, tokens[i].level)
  }

  /** The indices of the leaf tokens that a walk turns into nodes, in the order of the nodes. */
  function Visited(tokens: seq<Token>, i: nat, end: nat): seq<nat>
    requires end <= |tokens|
    decreases |tokens| - i, 1
  {
    if i >= end then [] else VisitedAt(tokens, i) + Visited(tokens, BlockNext(tokens, i), end)
  }

  function VisitedAt(tokens: seq<Token>, i: nat): seq<nat>
    requires i < |tokens|
    decreases |tokens| - i, 0
  {
    if OpensBlock(tokens[i]) then
      if Nests(tokens[i].kind.what) then Visited(tokens, i + 1, Closing(tokens, i)) else []
    else if IsLeaf(tokens[i]) then [i] else []
  }

  ghost predicate Within(indices: seq<nat>, from: nat, end: nat) {
    forall k :: 0 <= k < |indices| ==> from <= indices[k] < end
  }

  ghost function NodesFor(tokens: seq<Token>, indices: seq<nat>): seq<Node>
    requires Within(indices, 0, |tokens|)
  {
    seq(|indices|, k requires 0 <= k < |indices| => NodeOfLeaf(tokens[indices[k]]))
  }

  lemma {:induction false} LeafBlocksConcat(a: seq<Node>, b: seq<Node>)
    ensures LeafBlocks(a + b) == LeafBlocks(a) + LeafBlocks(b)
  {
    if a == [] {
      assert a + b == b;
    } else {
      LeafBlocksConcat(a[1..], b);
      assert (a + b)[1..] == a[1..] + b;
      Associate(LeafNodesOf(a[0]), LeafBlocks(a[1..]), LeafBlocks(b));
    }
  }

  lemma NodesForConcat(tokens: seq<Token>, a: seq<nat>, b: seq<nat>)
    requires Within(a, 0, |tokens|) && Within(b, 0, |tokens|)
    ensures Within(a + b, 0, |tokens|)
    ensures NodesFor(tokens, a + b) == NodesFor(tokens, a) + NodesFor(tokens, b)
  {
  }

  ghost predicate Visits(tokens: seq<Token>, nodes: seq<Node>, indices: seq<nat>, from: nat) {
    Within(indices, from, |tokens|) && LeafBlocks(nodes) == NodesFor(tokens, indices)
  }

  lemma VisitsConcat(tokens: seq<Token>, a: seq<Node>, b: seq<Node>, m: seq<nat>, n: seq<nat>, i: nat, next: nat)
    requires Visits(tokens, a, m, i) && Visits(tokens, b, n, next) && i <= next
    ensures Visits(tokens, a + b, m + n, i)
  {
    LeafBlocksConcat(a, b);
    NodesForConcat(tokens, m, n);
  }

  /** The leaf nodes of any walk, over any token list, are those of the tokens it visits. */
  lemma {:induction false} LeavesAreVisited(tokens: seq<Token>, i: nat, end: nat)
    requires end <= |tokens|
    ensures Visits(tokens, Blocks(tokens, i, end), Visited(tokens, i, end), i)
    decreases |tokens| - i, 1
  {
    if i < end {
      var next := BlockNext(tokens, i);
      ChunkLeaves(tokens, i);
      LeavesAreVisited(tokens, next, end);
      VisitsConcat(tokens, BlockChunk(tokens, i), Blocks(tokens, next, end),
                   VisitedAt(tokens, i), Visited(tokens, next, end), i, next);
    }
  }

  lemma {:induction false} ChunkLeaves(tokens: seq<Token>, i: nat)
    requires i < |tokens|
    ensures Visits(tokens, BlockChunk(tokens, i), VisitedAt(tokens, i), i)
    decreases |tokens| - i, 0
  {
    if OpensBlock(tokens[i]) {
      var what, close := tokens[i].kind.what, Closing(tokens, i);
      if Nests(what) {
        LeavesAreVisited(tokens, i + 1, close);
        NestedLeaves(what, Blocks(tokens, i + 1, close));
        assert BlockChunk(tokens, i) == [NestedAdf(what, Blocks(tokens, i + 1, close))];
      } else {
        assert BlockChunk(tokens, i)[1..] == [];
      }
    } else if IsLeaf(tokens[i]) {
      assert BlockChunk(tokens, i) == [NodeOfLeaf(tokens[i])];
      assert [NodeOfLeaf(tokens[i])][1..] == [];
    }
  }

  lemma NestedLeaves(what: Construct, content: seq<Node>)
    requires Nests(what)
    ensures LeafBlocks([NestedAdf(what, content)]) == LeafBlocks(content)
  {
    assert [NestedAdf(what, content)][1..] == [];
    assert [Paragraph([])][1..] == [];
  }

  ghost predicate Surrounds(info: string, before: string, language: string, after: string) {
    && info == before + language + after && Blank(before, PySpace) && Blank(after, PySpace)
    && (language == "" || (!PySpace(language[0]) && !PySpace(language[|language| - 1])))
  }

  ghost predicate EndsIn(content: string, text: string, newlines: nat) {
    content == text + Newlines(newlines) && (text == "" || text[|text| - 1] != '\n')
  }

  /** A code block holds the token's content without its final newlines; a fence also the info
      without blank ends as its language, other code none. */
  ghost predicate LeafMeans(t: Token, node: Node) {
    if t.kind == Hr then node == Rule
    else
      && node.CodeBlock? && (exists n :: EndsIn(t.content, node.text, n))
      && if t.kind == Fence then exists before, after :: Surrounds(t.info, before, node.language, after)
         else node.language == ""
  }

  lemma NodeOfLeafMeans(t: Token)
    ensures LeafMeans(t, NodeOfLeaf(t))
  {
    if t.kind != Hr {
      var newlines := NewlinesDropped(t.content);
      assert newlines == Newlines(|newlines|);
      assert EndsIn(t.content, NodeOfLeaf(t).text, |newlines|);
      var before, after := TrimCuts(t.info, PySpace);
      assert t.kind == Fence ==> Surrounds(t.info, before, NodeOfLeaf(t).language, after);
    }
  }

  /** So every code block and rule of any walk, over any token list, shows its own token. */
  lemma LeavesMean(tokens: seq<Token>, i: nat, end: nat)
    requires end <= |tokens|
    ensures var nodes, indices := LeafBlocks(Blocks(tokens, i, end)), Visited(tokens, i, end);
      && |nodes| == |indices|
      && forall k :: 0 <= k < |nodes| ==> i <= indices[k] < |tokens| && LeafMeans(tokens[indices[k]], nodes[k])
  {
    LeavesAreVisited(tokens, i, end);
    var indices := Visited(tokens, i, end);
    forall k | 0 <= k < |indices| ensures LeafMeans(tokens[indices[k]], NodesFor(tokens, indices)[k]) {
      NodeOfLeafMeans(tokens[indices[k]]);
    }
  }

  /** A paragraph or heading whose first token is not inline content, or has none before its close,
      comes out empty. */
  lemma WithoutInline(tokens: seq<Token>, i: nat)
    requires i < |tokens| && tokens[i].kind in {Open(InParagraph), Open(InHeading)}
    requires i + 1 >= Closing(tokens, i) || tokens[i + 1].kind != InlineToken
    ensures tokens[i].kind == Open(InParagraph) ==> BlockChunk(tokens, i) == [Paragraph([])]
    ensures tokens[i].kind == Open(InHeading) ==>
              BlockChunk(tokens, i) == [Heading(if tokens[i].tag.HeadingTag? then tokens[i].tag.n else 1, [])]
  {
  }

  /** A token that a walker has no branch for, whatever it contains, is passed over by itself. */
  lemma OthersPassedOver(tokens: seq<Token>, i: nat, end: nat, marks: seq<Mark>)
    requires i < end <= |tokens|
    ensures tokens[i].kind !in {Open(InParagraph), Open(InHeading), Open(InBulletList), Open(InOrderedList),
                                Open(InListItem), Open(InBlockquote), Open(InTable), Fence, CodeBlockToken, Hr} ==>
              BlockChunk(tokens, i) == [] && BlockNext(tokens, i) == i + 1
    ensures tokens[i].kind !in {Open(InStrong), Open(InEm), Open(InStrike), Open(InLink), TextToken, SoftBreak,
                                HardBreakToken, CodeInline} ==>
              InlineChunk(tokens, i, marks) == [] && InlineNext(tokens, i) == i + 1
    ensures tokens[i].kind != Open(InRow) ==> Rows(tokens, i, end) == Rows(tokens, i + 1, end)
    ensures tokens[i].kind !in {Open(InHeaderCell), Open(InDataCell)} ==>
              Cells(tokens, i, end) == Cells(tokens, i + 1, end)
  {
  }

  /** Every close that the walk finds lies within the walk. */
  predicate ClosesInside(tokens: seq<Token>, i: nat, end: nat)
    requires end <= |tokens|
    decreases |tokens| - i
  {
    i >= end
    || (BlockNext(tokens, i) <= end
        && (OpensBlock(tokens[i]) && Nests(tokens[i].kind.what) ==> ClosesInside(tokens, i + 1, Closing(tokens, i)))
        && ClosesInside(tokens, BlockNext(tokens, i), end))
  }

  ghost predicate Increasing(s: seq<nat>, from: nat, end: nat) {
    && (forall k :: 0 <= k < |s| ==> from <= s[k] < end)
    && (forall j, k :: 0 <= j < k < |s| ==> s[j] < s[k])
  }

  lemma IncreasingConcat(a: seq<nat>, b: seq<nat>, from: nat, middle: nat, end: nat)
    requires Increasing(a, from, middle) && Increasing(b, middle, end) && from <= middle <= end
    ensures Increasing(a + b, from, end)
  {
  }

  /** When every close lies within its walk, well-formed or not, each leaf token becomes at most one
      node, and in the order of the tokens. */
  lemma {:induction false} LeavesOnceInOrder(tokens: seq<Token>, i: nat, end: nat)
    requires end <= |tokens| && ClosesInside(tokens, i, end)
    ensures Increasing(Visited(tokens, i, end), i, end)
    decreases |tokens| - i
  {
    if i < end {
      var next := BlockNext(tokens, i);
      LeavesOnceInOrder(tokens, next, end);
      if OpensBlock(tokens[i]) && Nests(tokens[i].kind.what) {
        LeavesOnceInOrder(tokens, i + 1, Closing(tokens, i));
      }
      IncreasingConcat(VisitedAt(tokens, i), Visited(tokens, next, end), i, next, end);
    }
  }
}
