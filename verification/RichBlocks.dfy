/** Page blocks: when a block renders a JSON value, and that rendering keeps what the value says. */
module RichBlocks {
  import opened Basics
  import opened RichTree
  import ListLabels

  datatype BlockKind =
    | AsParagraph | AsFooter | AsThinking | AsPre | AsDivider | AsMath | AsAnchor
    | AsList | AsBlockquote | AsPullquote | AsCollage | AsSlideshow | AsTable | AsDetails | AsMap
    | AsPhoto | AsVideo | AsAnimation | AsAudio
    | NotSupported

  /** The types that need a newer protocol layer are not supported either. */
  function BlockKindNamed(blockType: string): BlockKind {
    match blockType
    case "paragraph" => AsParagraph
    case "footer" => AsFooter
    case "thinking" => AsThinking
    case "pre" => AsPre
    case "divider" => AsDivider
    case "mathematical_expression" => AsMath
    case "anchor" => AsAnchor
    case "list" => AsList
    case "blockquote" => AsBlockquote
    case "pullquote" => AsPullquote
    case "collage" => AsCollage
    case "slideshow" => AsSlideshow
    case "table" => AsTable
    case "details" => AsDetails
    case "map" => AsMap
    case "photo" => AsPhoto
    case "video" => AsVideo
    case "animation" => AsAnimation
    case "audio" | "voice_note" => AsAudio
    case _ => NotSupported
  }

  function BlockKindOf(v: Json): BlockKind
    requires v.Obj?
  {
    BlockKindNamed(JsonString(v, "type"))
  }

  predicate IsMedia(kind: BlockKind) { kind.AsPhoto? || kind.AsVideo? || kind.AsAnimation? || kind.AsAudio? }

  predicate RendersText(v: Json, key: string, t: RichText)
    requires v.Obj?
  {
    TextOf(Field(v, key)) == Ok(t)
  }

  predicate RendersCaption(v: Json, c: Caption) {
    if v.Null? then c == Caption(TextEmpty, TextEmpty)
    else v.Obj? && RendersText(v, "text", c.text) && RendersText(v, "credit", c.credit)
  }

  function Positive(n: int): Option<int> { if n > 0 then Some(n) else None }

  function AlignOf(align: string, header: bool): Option<Align> {
    if align == "left" || (align == "" && !header) then Some(Left)
    else if align == "center" || (align == "" && header) then Some(Center)
    else if align == "right" then Some(Right)
    else None
  }

  function VerticalAlignOf(valign: string): Option<VerticalAlign> {
    match valign
    case "top" => Some(Top)
    case "middle" | "" => Some(Middle)
    case "bottom" => Some(Bottom)
    case _ => None
  }

  predicate RendersCell(v: Json, c: Cell) {
    && v.Obj? && RendersText(v, "text", c.text)
    && c.header == JsonBool(v, "is_header")
    && c.colspan == Positive(JsonInt(v, "colspan")) && c.rowspan == Positive(JsonInt(v, "rowspan"))
    && AlignOf(JsonString(v, "align"), c.header) == Some(c.align)
    && VerticalAlignOf(JsonString(v, "valign")) == Some(c.valign)
  }

  predicate RendersRow(v: Json, r: Row) {
    v.Arr? && |r.cells| == |v.items| && forall i | 0 <= i < |v.items| :: RendersCell(v.items[i], r.cells[i])
  }

  predicate RendersRows(v: Json, rows: seq<Row>) {
    v.Arr? && |rows| == |v.items| && forall i | 0 <= i < |v.items| :: RendersRow(v.items[i], rows[i])
  }

  predicate RendersMap(v: Json, b: PageBlock)
    requires v.Obj?
  {
    var location := Field(v, "location");
    && b.Map? && location.Obj?
    && JsonFloat(location, "latitude") == Some(b.latitude) && JsonFloat(location, "longitude") == Some(b.longitude)
    && b.accuracy == AccuracyOf(location)
    && b.zoom == JsonInt(v, "zoom") && b.width == JsonInt(v, "width") && b.height == JsonInt(v, "height")
    && RendersCaption(Field(v, "caption"), b.caption)
  }

  function AccuracyOf(location: Json): Option<int>
    requires location.Obj?
  {
    match JsonFloat(location, "horizontal_accuracy")
    case Some(a) => if a > 0.0 then Some(a.Floor) else None
    case None => None
  }

  /** A media block; which photo or document it is comes from the upload. */
  predicate RendersMedia(v: Json, b: PageBlock)
    requires v.Obj?
  {
    var blockType := JsonString(v, "type");
    var media := Field(v, blockType);
    && media.Obj? && JsonString(media, "type") == blockType
    && match BlockKindOf(v) {
         case AsPhoto => b.Photo? && b.spoiler == JsonBool(media, "has_spoiler") && RendersCaption(Field(v, "caption"), b.caption)
         case AsVideo => b.Video? && !b.looped && b.spoiler == JsonBool(media, "has_spoiler") && RendersCaption(Field(v, "caption"), b.caption)
         case AsAnimation => b.Video? && b.looped && b.spoiler == JsonBool(media, "has_spoiler") && RendersCaption(Field(v, "caption"), b.caption)
         case AsAudio => b.Audio? && RendersCaption(Field(v, "caption"), b.caption)
         case _ => false
       }
  }

  predicate IsListType(t: string) { t in {"a", "A", "i", "I", "1"} }

  predicate RendersItem(v: Json, item: ListItem)
    decreases if v.Null? then 0 else 1, v, 2
  {
    && v.Obj? && RendersBlocks(Field(v, "blocks"), item.blocks)
    && item.checkbox == JsonBool(v, "has_checkbox") && item.checked == (item.checkbox && JsonBool(v, "is_checked"))
    && item.listType == JsonString(v, "type")
    && if item.listType == "" then item.number == 0 && item.numeral == ""
       else IsListType(item.listType) && item.number == JsonInt(v, "value") && item.numeral == ListLabels.Label(item.number, item.listType)
  }

  /** A list has items, and all of them are of its own kind. */
  predicate IsList(b: PageBlock) {
    && (b.BulletList? || b.OrderedList?) && b.items != []
    && forall i | 0 <= i < |b.items| :: b.items[i].listType == "" <==> b.BulletList?
  }

  predicate RendersItems(v: Json, items: seq<ListItem>)
    decreases if v.Null? then 0 else 1, v, 3
  {
    v.Arr? && |items| == |v.items| && forall i | 0 <= i < |v.items| :: RendersItem(v.items[i], items[i])
  }

  predicate RendersBlocks(v: Json, bs: seq<PageBlock>)
    decreases if v.Null? then 0 else 1, v, 3
  {
    if v.Null? then bs == []
    else v.Arr? && |bs| == |v.items| && forall i | 0 <= i < |v.items| :: RendersBlock(v.items[i], bs[i])
  }

  /** The block b is what the value v is sent as. */
  predicate RendersBlock(v: Json, b: PageBlock)
    decreases if v.Null? then 0 else 1, v, 2
  {
    && v.Obj?
    && match BlockKindOf(v) {
         case AsParagraph => b.Paragraph? && RendersText(v, "text", b.text)
         case AsFooter => b.Footer? && RendersText(v, "text", b.text)
         case AsThinking => b.Thinking? && RendersText(v, "text", b.text)
         case AsPre => b.Preformatted? && RendersText(v, "text", b.text) && b.language == JsonString(v, "language")
         case AsDivider => b.Divider?
         case AsMath => b.Math? && b.source == JsonString(v, "expression")
         case AsAnchor => b.Anchor? && b.name == JsonString(v, "name")
         case AsList => IsList(b) && RendersItems(Field(v, "items"), b.items)
         case AsBlockquote => b.Blockquote? && RendersBlocks(Field(v, "blocks"), b.blocks) && RendersText(v, "credit", b.credit)
         case AsPullquote => b.Pullquote? && RendersText(v, "text", b.text) && RendersText(v, "credit", b.credit)
         case AsCollage => b.Collage? && RendersBlocks(Field(v, "blocks"), b.blocks) && RendersCaption(Field(v, "caption"), b.caption)
         case AsSlideshow => b.Slideshow? && RendersBlocks(Field(v, "blocks"), b.blocks) && RendersCaption(Field(v, "caption"), b.caption)
         case AsTable =>
           && b.Table? && b.bordered == JsonBool(v, "is_bordered") && b.striped == JsonBool(v, "is_striped")
           && RendersText(v, "caption", b.title) && RendersRows(Field(v, "cells"), b.rows)
         case AsDetails =>
           && b.Details? && b.open == JsonBool(v, "is_open")
           && RendersText(v, "summary", b.title) && RendersBlocks(Field(v, "blocks"), b.blocks)
         case AsMap => RendersMap(v, b)
         case AsPhoto | AsVideo | AsAnimation | AsAudio => RendersMedia(v, b)
         case NotSupported => false
       }
  }

  // ---- Media ----

  datatype Medium = PhotoRef(id: int) | DocumentRef(id: int)

  /** The media of a block, in the order of the tree. */
  function MediaOf(b: PageBlock): seq<Medium> {
    match b
    case Photo(_, id, _) => [PhotoRef(id)]
    case Video(_, _, id, _) => [DocumentRef(id)]
    case Audio(id, _) => [DocumentRef(id)]
    case BulletList(items) => MediaOfItems(items)
    case OrderedList(items) => MediaOfItems(items)
    case Blockquote(blocks, _) => MediaOfAll(blocks)
    case Collage(blocks, _) => MediaOfAll(blocks)
    case Slideshow(blocks, _) => MediaOfAll(blocks)
    case Details(_, _, blocks) => MediaOfAll(blocks)
    case _ => []
  }

  function MediaOfAll(bs: seq<PageBlock>): seq<Medium> {
    if bs == [] then [] else MediaOfAll(bs[..|bs| - 1]) + MediaOf(bs[|bs| - 1])
  }

  function MediaOfItems(items: seq<ListItem>): seq<Medium> {
    if items == [] then [] else MediaOfItems(items[..|items| - 1]) + MediaOfAll(items[|items| - 1].blocks)
  }

  // ---- Text ----

  function PiecesOfCaption(c: Caption): seq<Piece> { Pieces(c.text) + Pieces(c.credit) }

  function PiecesOfCells(cells: seq<Cell>): seq<Piece> {
    if cells == [] then [] else PiecesOfCells(cells[..|cells| - 1]) + Pieces(cells[|cells| - 1].text)
  }

  function PiecesOfRows(rows: seq<Row>): seq<Piece> {
    if rows == [] then [] else PiecesOfRows(rows[..|rows| - 1]) + PiecesOfCells(rows[|rows| - 1].cells)
  }

  /** The text pieces of a block: a table's title and a quote's credit come last, as they are written. */
  function PiecesOfBlock(b: PageBlock): seq<Piece> {
    match b
    case Paragraph(t) => Pieces(t)
    case Footer(t) => Pieces(t)
    case Thinking(t) => Pieces(t)
    case Preformatted(t, _) => Pieces(t)
    case BulletList(items) => PiecesOfItems(items)
    case OrderedList(items) => PiecesOfItems(items)
    case Blockquote(blocks, credit) => PiecesOfBlocks(blocks) + Pieces(credit)
    case Pullquote(t, credit) => Pieces(t) + Pieces(credit)
    case Collage(blocks, caption) => PiecesOfBlocks(blocks) + PiecesOfCaption(caption)
    case Slideshow(blocks, caption) => PiecesOfBlocks(blocks) + PiecesOfCaption(caption)
    case Table(_, _, title, rows) => PiecesOfRows(rows) + Pieces(title)
    case Details(_, title, blocks) => Pieces(title) + PiecesOfBlocks(blocks)
    case Map(_, _, _, _, _, _, caption) => PiecesOfCaption(caption)
    case Photo(_, _, caption) => PiecesOfCaption(caption)
    case Video(_, _, _, caption) => PiecesOfCaption(caption)
    case Audio(_, caption) => PiecesOfCaption(caption)
    case _ => []
  }

  function PiecesOfBlocks(bs: seq<PageBlock>): seq<Piece> {
    if bs == [] then [] else PiecesOfBlocks(bs[..|bs| - 1]) + PiecesOfBlock(bs[|bs| - 1])
  }

  function PiecesOfItems(items: seq<ListItem>): seq<Piece> {
    if items == [] then [] else PiecesOfItems(items[..|items| - 1]) + PiecesOfBlocks(items[|items| - 1].blocks)
  }

  // ---- What the source of a block says, in the order it is read ----

  function MetField(v: Json, key: string): seq<Met>
    requires v.Obj?
  {
    MetText(Field(v, key))
  }

  function MetCaption(v: Json): seq<Met> {
    if v.Obj? then MetField(v, "text") + MetField(v, "credit") else []
  }

  function MetCells(cells: seq<Json>): seq<Met> {
    if cells == [] then []
    else
      var last := cells[|cells| - 1];
      MetCells(cells[..|cells| - 1]) + (if last.Obj? then MetField(last, "text") else [])
  }

  function MetRows(rows: seq<Json>): seq<Met> {
    if rows == [] then []
    else
      var last := rows[|rows| - 1];
      MetRows(rows[..|rows| - 1]) + (if last.Arr? then MetCells(last.items) else [])
  }

  function MetItems(items: seq<Json>): seq<Met>
    decreases 1, items, 1
  {
    if items == [] then []
    else
      var last := items[|items| - 1];
      MetItems(items[..|items| - 1]) + (if last.Obj? then MetBlocks(Field(last, "blocks")) else [])
  }

  function MetEach(items: seq<Json>): seq<Met>
    decreases 1, items, 1
  {
    if items == [] then [] else MetEach(items[..|items| - 1]) + MetBlock(items[|items| - 1])
  }

  function MetBlocks(v: Json): seq<Met>
    decreases if v.Null? then 0 else 1, v, 2
  {
    if v.Arr? then MetEach(v.items) else []
  }

  function MetBlock(v: Json): seq<Met>
    decreases if v.Null? then 0 else 1, v, 0
  {
    if !v.Obj? then []
    else match BlockKindOf(v)
      case AsParagraph | AsFooter | AsThinking | AsPre => MetField(v, "text")
      case AsList => if Field(v, "items").Arr? then MetItems(Field(v, "items").items) else []
      case AsBlockquote => MetBlocks(Field(v, "blocks")) + MetField(v, "credit")
      case AsPullquote => MetField(v, "text") + MetField(v, "credit")
      case AsCollage | AsSlideshow => MetBlocks(Field(v, "blocks")) + MetCaption(Field(v, "caption"))
      case AsTable => (if Field(v, "cells").Arr? then MetRows(Field(v, "cells").items) else []) + MetField(v, "caption")
      case AsDetails => MetField(v, "summary") + MetBlocks(Field(v, "blocks"))
      case AsMap | AsPhoto | AsVideo | AsAnimation | AsAudio => MetCaption(Field(v, "caption"))
      case _ => []
  }

  lemma FieldKeepsPieces(v: Json, key: string, t: RichText)
    requires v.Obj? && RendersText(v, key, t)
    ensures Pieces(t) == Kept(MetField(v, key))
  {
    TextKeepsPieces(Field(v, key));
  }

  lemma CaptionKeepsPieces(v: Json, c: Caption)
    requires RendersCaption(v, c)
    ensures PiecesOfCaption(c) == Kept(MetCaption(v))
  {
    if v.Obj? {
      FieldKeepsPieces(v, "text", c.text);
      FieldKeepsPieces(v, "credit", c.credit);
      KeptConcat(MetField(v, "text"), MetField(v, "credit"));
    }
  }

  lemma {:induction false} CellsKeepPieces(vs: seq<Json>, cells: seq<Cell>)
    requires |cells| == |vs| && forall i | 0 <= i < |vs| :: RendersCell(vs[i], cells[i])
    ensures PiecesOfCells(cells) == Kept(MetCells(vs))
  {
    hide TextOf, MetText;
    if vs != [] {
      var n := |vs| - 1;
      CellsKeepPieces(vs[..n], cells[..n]);
      FieldKeepsPieces(vs[n], "text", cells[n].text);
      KeptConcat(MetCells(vs[..n]), MetField(vs[n], "text"));
    }
  }

  lemma {:induction false} RowsKeepPieces(vs: seq<Json>, rows: seq<Row>)
    requires |rows| == |vs| && forall i | 0 <= i < |vs| :: RendersRow(vs[i], rows[i])
    ensures PiecesOfRows(rows) == Kept(MetRows(vs))
  {
    hide RendersCell;
    if vs != [] {
      var n := |vs| - 1;
      RowsKeepPieces(vs[..n], rows[..n]);
      CellsKeepPieces(vs[n].items, rows[n].cells);
      KeptConcat(MetRows(vs[..n]), MetCells(vs[n].items));
    }
  }

  lemma {:induction false} ItemsKeepPieces(vs: seq<Json>, items: seq<ListItem>)
    requires |items| == |vs| && forall i | 0 <= i < |vs| :: RendersItem(vs[i], items[i])
    ensures PiecesOfItems(items) == Kept(MetItems(vs))
    decreases 1, vs, 3
  {
    hide RendersBlocks, MetBlocks;
    if vs != [] {
      var n := |vs| - 1;
      ItemsKeepPieces(vs[..n], items[..n]);
      BlocksKeepPieces(Field(vs[n], "blocks"), items[n].blocks);
      KeptConcat(MetItems(vs[..n]), MetBlocks(Field(vs[n], "blocks")));
    }
  }

  lemma {:induction false} EachKeepsPieces(vs: seq<Json>, bs: seq<PageBlock>)
    requires |bs| == |vs| && forall i | 0 <= i < |vs| :: RendersBlock(vs[i], bs[i])
    ensures PiecesOfBlocks(bs) == Kept(MetEach(vs))
    decreases 1, vs, 3
  {
    hide RendersBlock, MetBlock;
    if vs != [] {
      var n := |vs| - 1;
      EachKeepsPieces(vs[..n], bs[..n]);
      BlockKeepsPieces(vs[n], bs[n]);
      KeptConcat(MetEach(vs[..n]), MetBlock(vs[n]));
    }
  }

  lemma {:induction false} BlocksKeepPieces(v: Json, bs: seq<PageBlock>)
    requires RendersBlocks(v, bs)
    ensures PiecesOfBlocks(bs) == Kept(MetBlocks(v))
    decreases if v.Null? then 0 else 1, v, 4
  {
    hide RendersBlock;
    if v.Arr? { EachKeepsPieces(v.items, bs); }
  }

  lemma NothingMet()
    ensures Kept([]) == []
  {
  }

  /** The blocks that hold blocks and a text of their own. */
  lemma {:induction false} NestedKeepsPieces(v: Json, b: PageBlock)
    requires RendersBlock(v, b) && BlockKindOf(v) in {AsBlockquote, AsCollage, AsSlideshow, AsDetails}
    ensures PiecesOfBlock(b) == Kept(MetBlock(v))
    decreases if v.Null? then 0 else 1, v, 1
  {
    hide BlockKindOf, RendersText, RendersCaption, RendersBlocks, RendersItem, RendersRow, MetField, MetCaption, MetBlocks, MetItems, MetRows, Pieces, PiecesOfItems, PiecesOfBlocks, PiecesOfCaption, PiecesOfRows, Kept;
    match BlockKindOf(v)
    case AsBlockquote =>
      BlocksKeepPieces(Field(v, "blocks"), b.blocks);
      FieldKeepsPieces(v, "credit", b.credit);
      KeptConcat(MetBlocks(Field(v, "blocks")), MetField(v, "credit"));
    case AsCollage =>
      BlocksKeepPieces(Field(v, "blocks"), b.blocks);
      CaptionKeepsPieces(Field(v, "caption"), b.caption);
      KeptConcat(MetBlocks(Field(v, "blocks")), MetCaption(Field(v, "caption")));
    case AsSlideshow =>
      BlocksKeepPieces(Field(v, "blocks"), b.blocks);
      CaptionKeepsPieces(Field(v, "caption"), b.caption);
      KeptConcat(MetBlocks(Field(v, "blocks")), MetCaption(Field(v, "caption")));
    case AsDetails =>
      FieldKeepsPieces(v, "summary", b.title);
      BlocksKeepPieces(Field(v, "blocks"), b.blocks);
      KeptConcat(MetField(v, "summary"), MetBlocks(Field(v, "blocks")));
  }

  /** A block that is sent says what its source says, piece by piece, except for what is discarded. */
  lemma {:induction false} BlockKeepsPieces(v: Json, b: PageBlock)
    requires RendersBlock(v, b)
    ensures PiecesOfBlock(b) == Kept(MetBlock(v))
    decreases if v.Null? then 0 else 1, v, 2
  {
    hide BlockKindOf, RendersText, RendersCaption, RendersBlocks, RendersItem, RendersRow, MetField, MetCaption, MetBlocks, MetItems, MetRows, Pieces, PiecesOfItems, PiecesOfBlocks, PiecesOfCaption, PiecesOfRows, Kept;
    match BlockKindOf(v)
    case AsParagraph => FieldKeepsPieces(v, "text", b.text);
    case AsFooter => FieldKeepsPieces(v, "text", b.text);
    case AsThinking => FieldKeepsPieces(v, "text", b.text);
    case AsPre => FieldKeepsPieces(v, "text", b.text);
    case AsList => ItemsKeepPieces(Field(v, "items").items, b.items);
    case AsPullquote =>
      FieldKeepsPieces(v, "text", b.text);
      FieldKeepsPieces(v, "credit", b.credit);
      KeptConcat(MetField(v, "text"), MetField(v, "credit"));
    case AsTable =>
      RowsKeepPieces(Field(v, "cells").items, b.rows);
      FieldKeepsPieces(v, "caption", b.title);
      KeptConcat(MetRows(Field(v, "cells").items), MetField(v, "caption"));
    case AsBlockquote => NestedKeepsPieces(v, b);
    case AsCollage => NestedKeepsPieces(v, b);
    case AsSlideshow => NestedKeepsPieces(v, b);
    case AsDetails => NestedKeepsPieces(v, b);
    case AsMap => CaptionKeepsPieces(Field(v, "caption"), b.caption);
    case AsPhoto => CaptionKeepsPieces(Field(v, "caption"), b.caption);
    case AsVideo => CaptionKeepsPieces(Field(v, "caption"), b.caption);
    case AsAnimation => CaptionKeepsPieces(Field(v, "caption"), b.caption);
    case AsAudio => CaptionKeepsPieces(Field(v, "caption"), b.caption);
    case _ => NothingMet();
  }
}
