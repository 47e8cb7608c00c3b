/** The block builder of the write-to-entry function: an append request's title, block type,
    body lines and divider flag become the ordered list of Notion blocks appended to the page. */
module Blocks {
  import opened Wrappers

  /** A Notion link object, `{type: "url", url}` as the news function builds it. */
  datatype Link = Link(kind: string, url: string)

  /** One body line: a bare string, or an object `{content, link}` whose link may be absent. */
  datatype Line = Plain(text: string) | Rich(content: string, link: Option<Link>)

  /** The body of an append request: an array of lines, or that array stringified
      (the form a caller that cannot build arrays sends). */
  datatype Body = Decoded(lines: seq<Line>) | Serialized(json: string)

  /** One rich-text segment, `{type: "text", text: {content, link}}`. */
  datatype RichText = RichText(content: string, link: Option<Link>)

  /** A block in Notion's schema. A text-carrying block of type `kind` holds a single rich-text
      segment; `colored` records whether it also carries `color: "default"`. A bookmark carries
      whatever value it was given as its url. */
  datatype Block =
    | Text(kind: string, text: RichText, colored: bool)
    | Bookmark(url: Line)
    | Divider

  /** Failure to decode a stringified body. */
  datatype BlockError = MalformedBody(json: string)

  const BookmarkKind: string := "bookmark"

  /** The `type` field of a block. */
  function Tag(b: Block): string {
    match b
    case Text(k, _, _) => k
    case Bookmark(_) => BookmarkKind
    case Divider => "divider"
  }

  /** The title block that opens every list. */
  function Heading(title: string): Block {
    Text("heading_1", RichText(title, None), true)
  }

  /** The empty paragraph pushed before the divider; it has no color field. */
  const Spacer: Block := Text("paragraph", RichText("", None), false)

  /** The text of a line: the string itself, or the object's content. */
  function LineText(line: Line): string {
    match line
    case Plain(s) => s
    case Rich(c, _) => c
  }

  /** The link of a line: the object's link when present, otherwise null (a bare string has none). */
  function LineLink(line: Line): Option<Link> {
    match line
    case Plain(_) => None
    case Rich(_, l) => l
  }

  /** The block one body line becomes under block type `kind`. */
  function LineBlock(kind: string, line: Line): Block {
    if kind == BookmarkKind then Bookmark(line)
    else Text(kind, RichText(LineText(line), LineLink(line)), true)
  }

  /** One block per body line, in order. */
  function BodyBlocks(kind: string, lines: seq<Line>): (r: seq<Block>)
    ensures |r| == |lines|
    ensures forall i :: 0 <= i < |lines| ==> r[i] == LineBlock(kind, lines[i])
  {
    if |lines| == 0 then []
    else [LineBlock(kind, lines[0])] + BodyBlocks(kind, lines[1..])
  }

  /** Pushing one more line pushes one more block. */
  lemma BodyBlocksSnoc(kind: string, lines: seq<Line>, line: Line)
    ensures BodyBlocks(kind, lines + [line]) == BodyBlocks(kind, lines) + [LineBlock(kind, line)]
  {
  }

  /** The blocks that close the list when a divider is requested. */
  function Trailer(divider: bool): seq<Block> {
    if divider then [Spacer, Divider] else []
  }

  /** The whole block list for an already decoded body. */
  function BuildBlocks(title: string, kind: string, lines: seq<Line>, divider: bool): (r: seq<Block>)
    ensures |r| == 1 + |lines| + (if divider then 2 else 0)
    ensures r[0] == Heading(title)
    ensures forall i :: 0 <= i < |lines| ==> r[i + 1] == LineBlock(kind, lines[i])
    ensures divider ==> r[|r| - 2] == Spacer && r[|r| - 1] == Divider
    ensures !divider ==> r[|r| - 1] == (if |lines| == 0 then Heading(title) else LineBlock(kind, lines[|lines| - 1]))
  {
    [Heading(title)] + BodyBlocks(kind, lines) + Trailer(divider)
  }

  /** The body lines, decoding a stringified body with the given JSON decoder. */
  function DecodeBody(body: Body, parse: string -> Option<seq<Line>>): (r: Result<seq<Line>, BlockError>)
    ensures body.Decoded? ==> r == Success(body.lines)
    ensures body.Serialized? && parse(body.json).None? ==> r == Failure(MalformedBody(body.json))
    ensures body.Serialized? && parse(body.json).Some? ==> r == Success(parse(body.json).value)
  {
    match body
    case Decoded(lines) => Success(lines)
    case Serialized(json) =>
      match parse(json)
      case Some(lines) => Success(lines)
      case None => Failure(MalformedBody(json))
  }

  /** The block builder as the source writes it: decode the body if it is a string, start from
      the heading, push one block per line, then the spacer and divider when asked. */
  method TransformDataToBlocks(title: string, kind: string, body: Body, divider: bool,
                               parse: string -> Option<seq<Line>>)
    returns (r: Result<seq<Block>, BlockError>)
    ensures r.Failure? <==> DecodeBody(body, parse).Failure?
    ensures r.Failure? ==> r.error == MalformedBody(body.json)
    ensures r.Success? ==> r.value == BuildBlocks(title, kind, DecodeBody(body, parse).value, divider)
  {
    var lines :- DecodeBody(body, parse);
    var blocks := [Heading(title)];
    var i := 0;
    while i < |lines|
      invariant 0 <= i <= |lines|
      invariant blocks == [Heading(title)] + BodyBlocks(kind, lines[..i])
    {
      BodyBlocksSnoc(kind, lines[..i], lines[i]);
      assert lines[..i + 1] == lines[..i] + [lines[i]];
      blocks := blocks + [LineBlock(kind, lines[i])];
      i := i + 1;
    }
    assert lines[..i] == lines;
    if divider {
      blocks := blocks + [Spacer, Divider];
    }
    return Success(blocks);
  }

  // ---------------------------------------------------------------------------
  // Reading a block list back: the inverse of the builder

  /** The title and body lines a block list displays. */
  datatype Entry = Entry(title: string, lines: seq<Line>)

  /** The line a body block displays. Notion keeps no difference between a bare string and an
      object without a link, so a text block reads back as an object. */
  function ReadLine(b: Block): Option<Line> {
    match b
    case Text(_, t, _) => Some(Rich(t.content, t.link))
    case Bookmark(u) => Some(u)
    case Divider => None
  }

  /** The line as a block of type `kind` preserves it: a bookmark keeps the raw value, a text
      block keeps the text and the link. */
  function Canonical(kind: string, line: Line): Line {
    if kind == BookmarkKind then line else Rich(LineText(line), LineLink(line))
  }

  function CanonicalLines(kind: string, lines: seq<Line>): (r: seq<Line>)
    ensures |r| == |lines|
    ensures forall i :: 0 <= i < |lines| ==> r[i] == Canonical(kind, lines[i])
  {
    if |lines| == 0 then [] else [Canonical(kind, lines[0])] + CanonicalLines(kind, lines[1..])
  }

  /** The lines displayed by a run of body blocks, or None if one of them is a divider. */
  function ReadLines(bs: seq<Block>): (r: Option<seq<Line>>)
    ensures r.Some? ==> |r.value| == |bs|
  {
    if |bs| == 0 then Some([])
    else
      match (ReadLine(bs[0]), ReadLines(bs[1..]))
      case (Some(l), Some(ls)) => Some([l] + ls)
      case _ => None
  }

  /** The entry a block list shows, given whether it was closed by a divider: a heading first,
      then the body, then the trailer. */
  function ReadEntry(blocks: seq<Block>, divider: bool): Option<Entry> {
    var t := |Trailer(divider)|;
    if |blocks| < 1 + t then None
    else if !(blocks[0].Text? && blocks[0].kind == "heading_1") then None
    else if blocks[|blocks| - t..] != Trailer(divider) then None
    else
      match ReadLines(blocks[1..|blocks| - t])
      case Some(lines) => Some(Entry(blocks[0].text.content, lines))
      case None => None
  }

  /** Every body block carries the request's block type. */
  lemma BodyBlockTagged(kind: string, line: Line)
    ensures Tag(LineBlock(kind, line)) == kind
  {
  }

  /** Reading one body block back gives its line: the raw value for a bookmark, and for other
      types the line's text with its link, which is null for a bare string. */
  lemma ReadLineBlock(kind: string, line: Line)
    ensures ReadLine(LineBlock(kind, line)) == Some(Canonical(kind, line))
    ensures kind != BookmarkKind && line.Plain? ==> ReadLine(LineBlock(kind, line)) == Some(Rich(line.text, None))
  {
  }

  lemma {:induction false} ReadBodyBlocks(kind: string, lines: seq<Line>)
    ensures ReadLines(BodyBlocks(kind, lines)) == Some(CanonicalLines(kind, lines))
  {
    if |lines| > 0 {
      var bs := BodyBlocks(kind, lines);
      assert bs[1..] == BodyBlocks(kind, lines[1..]);
      ReadBodyBlocks(kind, lines[1..]);
    }
  }

  /** Round trip: the block list shows exactly the title and the body lines, in order,
      with nothing dropped, duplicated or reordered. */
  lemma BuildThenRead(title: string, kind: string, lines: seq<Line>, divider: bool)
    ensures ReadEntry(BuildBlocks(title, kind, lines, divider), divider)
            == Some(Entry(title, CanonicalLines(kind, lines)))
  {
    var blocks := BuildBlocks(title, kind, lines, divider);
    var t := |Trailer(divider)|;
    assert blocks[1..|blocks| - t] == BodyBlocks(kind, lines);
    assert blocks[|blocks| - t..] == Trailer(divider);
    ReadBodyBlocks(kind, lines);
  }

  /** The list ends with the divider block exactly when a divider was asked for. The last
      block's `type` is "divider" in one more case: the request's type is copied unchecked, so
      a non-empty body of type "divider" without the flag also ends with a block of that type. */
  lemma LastBlock(title: string, kind: string, lines: seq<Line>, divider: bool)
    ensures var r := BuildBlocks(title, kind, lines, divider);
            && (r[|r| - 1].Divider? <==> divider)
            && (Tag(r[|r| - 1]) == "divider" <==> divider || (|lines| > 0 && kind == "divider"))
  {
  }
}
