/** The markdown-token walkers of the Jira tool (local-infra/mcp-servers/jira/cloud.py): a flat
    list of tokens with open and close markers becomes an Atlassian document tree. */
module Adf {
  import opened Common

  /** Constructs that tokens open and close: "paragraph_open" and "paragraph_close", say. */
  datatype Construct =
    | InParagraph | InHeading | InBulletList | InOrderedList | InListItem | InBlockquote
    | InTable | InRow | InHeaderCell | InDataCell
    | InStrong | InEm | InStrike | InLink

  /** The token types the walkers look at; any other type is Unrecognized. */
  datatype TokenType =
    | Open(what: Construct)
    | Close(what: Construct)
    | Fence | CodeBlockToken | Hr | InlineToken
    | TextToken | SoftBreak | HardBreakToken | CodeInline
    | Unrecognized(name: string)

  /** A heading tag "hN", or any other tag. */
  datatype Tag = HeadingTag(n: int) | OtherTag

  datatype Token = Token(
    kind: TokenType, level: int, tag: Tag, info: string, content: string, href: string, children: seq<Token>)

  datatype Mark = Strong | Em | Strike | Code | Link(href: string)

  /** Document nodes; an empty mark list is a node without "marks", an empty language one
      without "attrs". */
  datatype Node =
    | Paragraph(content: seq<Node>)
    | Heading(level: int, content: seq<Node>)
    | BulletList(content: seq<Node>)
    | OrderedList(content: seq<Node>)
    | ListItem(content: seq<Node>)
    | Blockquote(content: seq<Node>)
    | CodeBlock(language: string, text: string)
    | Rule
    | Table(content: seq<Node>)
    | TableRow(content: seq<Node>)
    | TableHeader(content: seq<Node>)
    | TableCell(content: seq<Node>)
    | Text(text: string, marks: seq<Mark>)
    | HardBreak

  // ---------- what the walkers compute, as functions ----------

  /** The first token after `from` that closes the construct at the given level, or the end. */
  function BlockClose(tokens: seq<Token>, from: nat, what: Construct, level: int): (k: nat)
    requires from <= |tokens|
    ensures from <= k <= |tokens|
    ensures k < |tokens| ==> tokens[k].kind == Close(what) && tokens[k].level == level
    ensures forall j :: from <= j < k ==> !(tokens[j].kind == Close(what) && tokens[j].level == level)
    decreases |tokens| - from
  {
    if from == |tokens| || (tokens[from].kind == Close(what) && tokens[from].level == level) then from
    else BlockClose(tokens, from + 1, what, level)
  }

  /** The token that closes `depth` open markers of the construct, or the end. */
  function InlineClose(tokens: seq<Token>, from: nat, depth: nat, what: Construct): (k: nat)
    requires from <= |tokens| && depth > 0
    ensures from <= k <= |tokens|
    decreases |tokens| - from
  {
    if from == |tokens| then from
    else if tokens[from].kind == Open(what) then InlineClose(tokens, from + 1, depth + 1, what)
    else if tokens[from].kind == Close(what) then
      if depth == 1 then from else InlineClose(tokens, from + 1, depth - 1, what)
    else InlineClose(tokens, from + 1, depth, what)
  }

  /** The mark an inline open marker stands for. */
  function MarkOf(t: Token): Option<Mark> {
    match t.kind
    case Open(InStrong) => Some(Strong)
    case Open(InEm) => Some(Em)
    case Open(InStrike) => Some(Strike)
    case Open(InLink) => Some(Link(t.href))
    case _ => None
  }

  function InlineLeaf(t: Token, marks: seq<Mark>): seq<Node> {
    match t.kind
    case TextToken => if t.content == "" then [] else [Text(t.content, marks)]
    case SoftBreak => [Text(" ", [])]
    case HardBreakToken => [HardBreak]
    case CodeInline => if t.content == "" then [] else [Text(t.content, marks + [Code])]
    case _ => []
  }

  /** Where the inline walker goes after token i: past the matching close, or one on. */
  function InlineNext(tokens: seq<Token>, i: nat): (k: nat)
    requires i < |tokens|
    ensures k > i
  {
    match MarkOf(tokens[i])
    case Some(_) => InlineClose(tokens, i + 1, 1, tokens[i].kind.what) + 1
    case None => i + 1
  }

  /** What the inline walker emits for token i: a leaf, or everything up to the matching close
      with one more mark. */
  function InlineChunk(tokens: seq<Token>, i: nat, marks: seq<Mark>): seq<Node>
    requires i < |tokens|
    decreases |tokens|, |tokens| - i, 0
  {
    match MarkOf(tokens[i])
    case Some(mark) =>
      Inline(tokens[i + 1..InlineClose(tokens, i + 1, 1, tokens[i].kind.what)], 0, marks + [mark])
    case None => InlineLeaf(tokens[i], marks)
  }

  function Inline(tokens: seq<Token>, i: nat, marks: seq<Mark>): seq<Node>
    decreases |tokens|, |tokens| - i, 1
  {
    if i >= |tokens| then []
    else InlineChunk(tokens, i, marks) + Inline(tokens, InlineNext(tokens, i), marks)
  }

  /** The document nodes of the inline token after an opening token, if there is one. */
  function InlineAfter(tokens: seq<Token>, i: nat, close: nat): seq<Node>
    requires close <= |tokens|
  {
    if i + 1 < close && tokens[i + 1].kind == InlineToken then Inline(tokens[i + 1].children, 0, []) else []
  }

  function HeadingLevel(tag: Tag): int {
    if tag.HeadingTag? then tag.n else 1
  }

  function CodeNode(t: Token): Node {
    CodeBlock(if t.kind == Fence then Strip(t.info) else "", DropTrailingNewlines(t.content))
  }

  /** The constructs _walk_blocks enters. */
  predicate IsBlock(what: Construct) {
    match what
    case InParagraph | InHeading | InBulletList | InOrderedList | InListItem | InBlockquote | InTable => true
    case _ => false
  }

  predicate OpensBlock(t: Token) {
    t.kind.Open? && IsBlock(t.kind.what)
  }

  function ItemContent(content: seq<Node>): seq<Node> {
    if content == [] then [Paragraph([])] else content
  }

  function BlockNext(tokens: seq<Token>, i: nat): (k: nat)
    requires i < |tokens|
    ensures k > i
  {
    if OpensBlock(tokens[i]) then BlockClose(tokens, i + 1, tokens[i].kind.what, tokens[i].level) + 1 else i + 1
  }

  /** What the block walker emits for token i. */
  function BlockChunk(tokens: seq<Token>, i: nat): seq<Node>
    requires i < |tokens|
    decreases |tokens| - i, 0
  {
    if OpensBlock(tokens[i]) then
      var close := BlockClose(tokens, i + 1, tokens[i].kind.what, tokens[i].level);
      match tokens[i].kind.what
      case InParagraph => [Paragraph(InlineAfter(tokens, i, close))]
      case InHeading => [Heading(HeadingLevel(tokens[i].tag), InlineAfter(tokens, i, close))]
      case InBulletList => [BulletList(Blocks(tokens, i + 1, close))]
      case InOrderedList => [OrderedList(Blocks(tokens, i + 1, close))]
      case InListItem => [ListItem(ItemContent(Blocks(tokens, i + 1, close)))]
      case InBlockquote => [Blockquote(Blocks(tokens, i + 1, close))]
      case _ => [Table(Rows(tokens, i + 1, close))]
    else
      match tokens[i].kind
      case Fence => [CodeNode(tokens[i])]
      case CodeBlockToken => [CodeNode(tokens[i])]
      case Hr => [Rule]
      case _ => []
  }

  function Blocks(tokens: seq<Token>, i: nat, end: nat): seq<Node>
    requires end <= |tokens|
    decreases |tokens| - i, 1
  {
    if i >= end then [] else BlockChunk(tokens, i) + Blocks(tokens, BlockNext(tokens, i), end)
  }

  function Rows(tokens: seq<Token>, i: nat, end: nat): seq<Node>
    requires end <= |tokens|
    decreases |tokens| - i
  {
    if i >= end then []
    else if tokens[i].kind == Open(InRow) then
      var close := BlockClose(tokens, i + 1, InRow, tokens[i].level);
      [TableRow(Cells(tokens, i + 1, close))] + Rows(tokens, close + 1, end)
    else Rows(tokens, i + 1, end)
  }

  function Cells(tokens: seq<Token>, i: nat, end: nat): seq<Node>
    requires end <= |tokens|
    decreases |tokens| - i
  {
    if i >= end then []
    else if IsCell(tokens[i]) then
      var close := BlockClose(tokens, i + 1, tokens[i].kind.what, tokens[i].level);
      [CellNode(tokens[i].kind.what, InlineAfter(tokens, i, close))] + Cells(tokens, close + 1, end)
    else Cells(tokens, i + 1, end)
  }

  predicate IsCell(t: Token) {
    t.kind == Open(InHeaderCell) || t.kind == Open(InDataCell)
  }

  function CellNode(what: Construct, content: seq<Node>): Node {
    if what == InHeaderCell then TableHeader([Paragraph(content)]) else TableCell([Paragraph(content)])
  }

  /** The whole document; one without any node gets an empty paragraph. */
  function Document(tokens: seq<Token>): seq<Node> {
    ItemContent(Blocks(tokens, 0, |tokens|))
  }

  // ---------- the walkers, as the source writes them ----------

  method FindBlockClose(tokens: seq<Token>, openIdx: nat, what: Construct) returns (k: nat)
    requires openIdx < |tokens|
    ensures k == BlockClose(tokens, openIdx + 1, what, tokens[openIdx].level)
  {
    var level := tokens[openIdx].level;
    ghost var matching := BlockClose(tokens, openIdx + 1, what, level);
    for j := openIdx + 1 to |tokens|
      invariant matching == BlockClose(tokens, j, what, level)
    {
      if tokens[j].kind == Close(what) && tokens[j].level == level {
        return j;
      }
    }
    return |tokens|;
  }

  method FindInlineClose(children: seq<Token>, openIdx: nat, what: Construct) returns (k: nat)
    requires openIdx < |children|
    ensures k == InlineClose(children, openIdx + 1, 1, what)
  {
    var depth := 1;
    ghost var matching := InlineClose(children, openIdx + 1, 1, what);
    for j := openIdx + 1 to |children|
      invariant depth > 0
      invariant matching == InlineClose(children, j, depth, what)
    {
      if children[j].kind == Open(what) {
        depth := depth + 1;
      } else if children[j].kind == Close(what) {
        depth := depth - 1;
        if depth == 0 {
          return j;
        }
      }
    }
    return |children|;
  }

  /** The loop of _walk_inline. */
  method WalkInline(children: seq<Token>, marks: seq<Mark>) returns (out: seq<Node>)
    ensures out == Inline(children, 0, marks)
    decreases |children|, 1
  {
    out := [];
    var i := 0;
    ghost var whole := Inline(children, 0, marks);
    while i < |children|
      invariant out + Inline(children, i, marks) == whole
      decreases |children| - i
    {
      var chunk, next := WalkInlineToken(children, i, marks);
      Associate(out, chunk, Inline(children, next, marks));
      out, i := out + chunk, next;
    }
  }

  /** One turn of that loop: what the token adds, and the index to go on from. */
  method WalkInlineToken(children: seq<Token>, i: nat, marks: seq<Mark>) returns (out: seq<Node>, next: nat)
    requires i < |children|
    ensures out == InlineChunk(children, i, marks) && next == InlineNext(children, i)
    decreases |children|, 0
  {
    var tok := children[i];
    out, next := [], i + 1;
    match tok.kind {
      case TextToken =>
        if tok.content != "" {
          out := [Text(tok.content, marks)];
        }
      case SoftBreak =>
        out := [Text(" ", [])];
      case HardBreakToken =>
        out := [HardBreak];
      case CodeInline =>
        if tok.content != "" {
          out := [Text(tok.content, marks + [Code])];
        }
      case Open(InStrong) =>
        var close := FindInlineClose(children, i, InStrong);
        out := WalkInline(children[i + 1..close], marks + [Strong]);
        next := close + 1;
      case Open(InEm) =>
        var close := FindInlineClose(children, i, InEm);
        out := WalkInline(children[i + 1..close], marks + [Em]);
        next := close + 1;
      case Open(InStrike) =>
        var close := FindInlineClose(children, i, InStrike);
        out := WalkInline(children[i + 1..close], marks + [Strike]);
        next := close + 1;
      case Open(InLink) =>
        var close := FindInlineClose(children, i, InLink);
        out := WalkInline(children[i + 1..close], marks + [Link(tok.href)]);
        next := close + 1;
      case _ =>
    }
  }

  method InlineChildren(tokens: seq<Token>, i: nat, close: nat) returns (content: seq<Node>)
    requires close <= |tokens|
    ensures content == InlineAfter(tokens, i, close)
  {
    if i + 1 < close && tokens[i + 1].kind == InlineToken {
      content := WalkInline(tokens[i + 1].children, []);
    } else {
      content := WalkInline([], []);
    }
  }

  /** The loop of _walk_blocks. A close may lie past `end`, so `end - start` need not shrink in
      the recursion; the number of tokens after `start` does. */
  method WalkBlocks(tokens: seq<Token>, start: nat, end: nat) returns (out: seq<Node>)
    requires end <= |tokens|
    ensures out == Blocks(tokens, start, end)
    decreases |tokens| - start, 1
  {
    out := [];
    var i := start;
    ghost var whole := Blocks(tokens, start, end);
    while i < end
      invariant start <= i
      invariant out + Blocks(tokens, i, end) == whole
      decreases |tokens| - i
    {
      var chunk, next := WalkBlockToken(tokens, i);
      Associate(out, chunk, Blocks(tokens, next, end));
      out, i := out + chunk, next;
    }
  }

  /** One turn of that loop. */
  method WalkBlockToken(tokens: seq<Token>, i: nat) returns (out: seq<Node>, next: nat)
    requires i < |tokens|
    ensures out == BlockChunk(tokens, i) && next == BlockNext(tokens, i)
    decreases |tokens| - i, 0
  {
    var tok := tokens[i];
    match tok.kind {
      case Open(InParagraph) =>
        var close := FindBlockClose(tokens, i, InParagraph);
        var content := InlineChildren(tokens, i, close);
        out, next := [Paragraph(content)], close + 1;
      case Open(InHeading) =>
        var close := FindBlockClose(tokens, i, InHeading);
        var level := if tok.tag.HeadingTag? then tok.tag.n else 1;
        var content := InlineChildren(tokens, i, close);
        out, next := [Heading(level, content)], close + 1;
      case Open(InBulletList) =>
        var close := FindBlockClose(tokens, i, InBulletList);
        var content := WalkBlocks(tokens, i + 1, close);
        out, next := [BulletList(content)], close + 1;
      case Open(InOrderedList) =>
        var close := FindBlockClose(tokens, i, InOrderedList);
        var content := WalkBlocks(tokens, i + 1, close);
        out, next := [OrderedList(content)], close + 1;
      case Open(InListItem) =>
        var close := FindBlockClose(tokens, i, InListItem);
        var content := WalkBlocks(tokens, i + 1, close);
        if content == [] {
          content := [Paragraph([])];
        }
        out, next := [ListItem(content)], close + 1;
      case Open(InBlockquote) =>
        var close := FindBlockClose(tokens, i, InBlockquote);
        var content := WalkBlocks(tokens, i + 1, close);
        out, next := [Blockquote(content)], close + 1;
      case Fence =>
        out, next := [CodeBlock(Strip(tok.info), DropTrailingNewlines(tok.content))], i + 1;
      case CodeBlockToken =>
        out, next := [CodeBlock("", DropTrailingNewlines(tok.content))], i + 1;
      case Hr =>
        out, next := [Rule], i + 1;
      case Open(InTable) =>
        var close := FindBlockClose(tokens, i, InTable);
        var content := WalkTable(tokens, i + 1, close);
        out, next := [Table(content)], close + 1;
      case _ =>
        out, next := [], i + 1;
    }
  }

  method WalkTable(tokens: seq<Token>, start: nat, end: nat) returns (rows: seq<Node>)
    requires end <= |tokens|
    ensures rows == Rows(tokens, start, end)
  {
    rows := [];
    var i := start;
    ghost var whole := Rows(tokens, start, end);
    while i < end
      invariant rows + Rows(tokens, i, end) == whole
      decreases |tokens| - i
    {
      if tokens[i].kind == Open(InRow) {
        var close := FindBlockClose(tokens, i, InRow);
        var cells := WalkTableRow(tokens, i + 1, close);
        rows := rows + [TableRow(cells)];
        i := close + 1;
      } else {
        i := i + 1;
      }
    }
  }

  method WalkTableRow(tokens: seq<Token>, start: nat, end: nat) returns (cells: seq<Node>)
    requires end <= |tokens|
    ensures cells == Cells(tokens, start, end)
  {
    cells := [];
    var i := start;
    ghost var whole := Cells(tokens, start, end);
    while i < end
      invariant cells + Cells(tokens, i, end) == whole
      decreases |tokens| - i
    {
      var tok := tokens[i];
      if tok.kind == Open(InHeaderCell) || tok.kind == Open(InDataCell) {
        var close := FindBlockClose(tokens, i, tok.kind.what);
        var content := InlineChildren(tokens, i, close);
        CellStep(tokens, i, end, close);
        Associate(cells, [CellNode(tok.kind.what, content)], Cells(tokens, close + 1, end));
        cells := cells + [CellNode(tok.kind.what, content)];
        i := close + 1;
      } else {
        i := i + 1;
      }
    }
  }

  lemma CellStep(tokens: seq<Token>, i: nat, end: nat, close: nat)
    requires i < end <= |tokens| && IsCell(tokens[i])
    requires close == BlockClose(tokens, i + 1, tokens[i].kind.what, tokens[i].level)
    ensures Cells(tokens, i, end)
            == [CellNode(tokens[i].kind.what, InlineAfter(tokens, i, close))] + Cells(tokens, close + 1, end)
  {
  }

  /** _md_to_adf on the parsed tokens of a nonempty text; `parsed` is None for an empty one. */
  method MdToAdf(parsed: Option<seq<Token>>) returns (content: seq<Node>)
    ensures content == match parsed case None => [] case Some(tokens) => Document(tokens)
  {
    match parsed
    case None => content := [];
    case Some(tokens) =>
      content := WalkBlocks(tokens, 0, |tokens|);
      if content == [] {
        content := [Paragraph([])];
      }
  }
}
