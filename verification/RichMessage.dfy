/** The builder of rich messages: it turns JSON into page blocks and fills the side tables of photos,
    documents and users that must go with them. */
module RichMessage {
  import opened Basics
  import opened RichTree
  import opened RichBlocks
  import ListLabels

  function PhotoIds(media: seq<Medium>): seq<int> {
    if media == [] then []
    else PhotoIds(media[..|media| - 1]) + (if media[|media| - 1].PhotoRef? then [media[|media| - 1].id] else [])
  }

  function DocumentIds(media: seq<Medium>): seq<int> {
    if media == [] then []
    else DocumentIds(media[..|media| - 1]) + (if media[|media| - 1].DocumentRef? then [media[|media| - 1].id] else [])
  }

  /** Each user mentioned, once, in the order of the first mentions. */
  function UsersMet(met: seq<Met>): seq<int> {
    if met == [] then []
    else
      var users := UsersMet(met[..|met| - 1]);
      var last := met[|met| - 1].piece;
      if last.Mention? && last.userId !in users then users + [last.userId] else users
  }

  lemma OneMoreMedium(media: seq<Medium>, m: Medium)
    ensures PhotoIds(media + [m]) == PhotoIds(media) + (if m.PhotoRef? then [m.id] else [])
    ensures DocumentIds(media + [m]) == DocumentIds(media) + (if m.DocumentRef? then [m.id] else [])
  {
    assert (media + [m])[..|media|] == media;
  }

  lemma OneMoreMet(met: seq<Met>, m: Met)
    ensures UsersMet(met + [m]) ==
      if m.piece.Mention? && m.piece.userId !in UsersMet(met) then UsersMet(met) + [m.piece.userId] else UsersMet(met)
  {
    assert (met + [m])[..|met|] == met;
  }

  datatype Message = Message(rtl: bool, noautolink: bool, blocks: seq<PageBlock>, photos: seq<int>, documents: seq<int>, users: seq<int>)

  /** A message given as Markdown or HTML is passed on as text. */
  datatype Outcome = Built(message: Message) | Markup | Failed

  predicate NoRepeats(users: seq<int>) { forall i, j | 0 <= i < j < |users| :: users[i] != users[j] }

  /** The photos and the documents of the tree, in its order, and everyone the tree mentions, once. */
  ghost predicate TablesMatch(m: Message) {
    && m.photos == PhotoIds(MediaOfAll(m.blocks))
    && m.documents == DocumentIds(MediaOfAll(m.blocks))
    && NoRepeats(m.users)
    && forall id | Mention(id) in PiecesOfBlocks(m.blocks) :: id in m.users
  }

  /** What resolving a medium of the wanted type gave. */
  datatype Upload = Upload(wanted: string, result: Option<Medium>)

  /** A photo is wanted for a photo block, a document for any other. */
  predicate Fits(u: Upload) { u.result.Some? && (u.result.value.PhotoRef? <==> u.wanted == "photo") }

  /** An upload failed, or gave a medium of the wrong kind. */
  ghost predicate Refused(uploads: seq<Upload>) { exists k :: 0 <= k < |uploads| && !Fits(uploads[k]) }

  function Given(uploads: seq<Upload>): seq<Medium> {
    if uploads == [] then []
    else
      var u := uploads[|uploads| - 1];
      Given(uploads[..|uploads| - 1]) + (if u.result.Some? then [u.result.value] else [])
  }

  lemma OneMoreUpload(uploads: seq<Upload>, u: Upload)
    ensures Refused(uploads + [u]) <==> Refused(uploads) || !Fits(u)
    ensures u.result.Some? ==> Given(uploads + [u]) == Given(uploads) + [u.result.value]
  {
    var all := uploads + [u];
    assert all[..|uploads|] == uploads && all[|uploads|] == u;
    if Refused(uploads) {
      var k :| 0 <= k < |uploads| && !Fits(uploads[k]);
      assert !Fits(all[k]);
    }
  }

  class RichBuilder {
    var photos: seq<int>
    var documents: seq<int>
    var users: seq<int>
    var userSeen: set<int>
    ghost var media: seq<Medium>   // the media blocks made so far
    ghost var met: seq<Met>        // the text pieces read so far
    ghost var uploads: seq<Upload> // what the uploads gave; only Resolve adds to it

    /** The tables list exactly the media of the blocks made and the users met, each user once. */
    ghost predicate Valid()
      reads this
    {
      && photos == PhotoIds(media)
      && documents == DocumentIds(media)
      && users == UsersMet(met)
      && (forall id :: id in userSeen <==> id in users)
    }

    /** Every upload gave what it should, and the media blocks are made of exactly that, in order. */
    ghost predicate Attached()
      reads `media, `uploads
    {
      !Refused(uploads) && media == Given(uploads)
    }

    constructor ()
      ensures Valid() && Attached() && media == [] && met == [] && uploads == []
    {
      photos, documents, users, userSeen := [], [], [], {};
      media, met, uploads := [], [], [];
    }

    ghost method Read(words: string)
      requires Valid()
      modifies `met
      ensures Valid() && met == old(met) + [Met(Words(words), true)]
    {
      hide PhotoIds, DocumentIds, UsersMet;
      OneMoreMet(met, Met(Words(words), true));
      met := met + [Met(Words(words), true)];
    }

    method AddUser(id: int)
      requires Valid()
      modifies `users, `userSeen, `met
      ensures Valid() && met == old(met) + [Met(Mention(id), true)]
    {
      hide PhotoIds, DocumentIds, UsersMet;
      OneMoreMet(met, Met(Mention(id), true));
      if id !in userSeen {
        userSeen := userSeen + {id};
        users := users + [id];
      }
      met := met + [Met(Mention(id), true)];
    }

    /** What was met since the first `from` pieces is not sent. */
    ghost method Discard(from: nat)
      requires Valid() && from <= |met|
      modifies `met
      ensures Valid() && met == old(met[..from]) + Dropped(old(met[from..]))
    {
      DroppedUsers(met[..from], met[from..]);
      assert met == met[..from] + met[from..];
      met := met[..from] + Dropped(met[from..]);
    }

    method Text(value: Json) returns (r: Result<RichText>)
      requires Valid()
      modifies `users, `userSeen, `met
      ensures Valid()
      ensures r == TextOf(value)
      ensures r.Ok? ==> met == old(met) + MetText(value)
      decreases if value.Null? then 0 else 1, value, 1
    {
      match value
      case Null => return Ok(TextEmpty);
      case Str(s, _) =>
        if s == "" { return Ok(TextEmpty); }
        Read(s);
        return Ok(TextPlain(s));
      case Arr(items) =>
        if |items| == 0 { return Ok(TextEmpty); }
        r := Texts(value);
      case Obj(_) =>
        r := TypedText(value);
      case _ => return Err;
    }

    /** The elements of a text array, one after another. */
    method Texts(value: Json) returns (r: Result<RichText>)
      requires Valid() && value.Arr? && value.items != []
      modifies `users, `userSeen, `met
      ensures Valid()
      ensures r == TextOf(value)
      ensures r.Ok? ==> met == old(met) + MetTexts(value.items)
      decreases 1, value, 0
    {
      hide *;
      var items, texts: seq<RichText> := value.items, [];
      NoTextYet(items);
      for i := 0 to |items|
        invariant Valid() && TextsGiven(items, i, texts)
        invariant met == old(met) + MetTexts(items[..i])
      {
        var t := Text(items[i]);
        if t.Err? {
          OneTextFails(value, i);
          return Err;
        }
        OneMoreText(items, i, texts, t.value);
        texts := texts + [t.value];
      }
      assert items[..|items|] == items;
      AllTextsGiven(value, texts);
      return Ok(TextConcat(texts));
    }

    method TypedText(o: Json) returns (r: Result<RichText>)
      requires Valid() && o.Obj?
      modifies `users, `userSeen, `met
      ensures Valid()
      ensures r == TextOf(o)
      ensures r.Ok? ==> met == old(met) + MetText(o)
      decreases 1, o, 0
    {
      hide Valid, Typed, TextKindOf, Dropped;
      if JsonString(o, "type") == "" { return Err; }
      var inner := Text(Field(o, "text"));
      if inner.Err? { return Err; }
      if KindOf(o).TextMention? && MentionedUser(o).Some? {
        AddUser(MentionedUser(o).value);
      } else if Discards(KindOf(o)) {
        Discard(|old(met)|);
      }
      return Typed(o, inner.value);
    }

    method CaptionOf(value: Json) returns (r: Result<Caption>)
      requires Valid()
      modifies `users, `userSeen, `met
      ensures Valid()
      ensures r.Ok? ==> RendersCaption(value, r.value) && met == old(met) + MetCaption(value)
      ensures r.Err? ==> forall c :: !RendersCaption(value, c)
    {
      hide TextOf, MetText, Valid;
      if value.Null? { return Ok(Caption(TextEmpty, TextEmpty)); }
      if !value.Obj? { return Err; }
      var text := Text(Field(value, "text"));
      if text.Err? { return Err; }
      var credit := Text(Field(value, "credit"));
      if credit.Err? { return Err; }
      return Ok(Caption(text.value, credit.value));
    }

    method CellOf(value: Json) returns (r: Result<Cell>)
      requires Valid()
      modifies `users, `userSeen, `met
      ensures Valid()
      ensures r.Ok? ==> RendersCell(value, r.value) && met == old(met) + MetField(value, "text")
      ensures r.Err? ==> forall c :: !RendersCell(value, c)
    {
      hide TextOf, Valid;
      if !value.Obj? { return Err; }
      var text := Text(Field(value, "text"));
      if text.Err? { return Err; }
      var header := JsonBool(value, "is_header");
      var align := AlignOf(JsonString(value, "align"), header);
      if align.None? { return Err; }
      var valign := VerticalAlignOf(JsonString(value, "valign"));
      if valign.None? { return Err; }
      return Ok(Cell(header, text.value, Positive(JsonInt(value, "colspan")), Positive(JsonInt(value, "rowspan")),
                     align.value, valign.value));
    }

    method RowOf(value: Json) returns (r: Result<Row>)
      requires Valid()
      modifies `users, `userSeen, `met
      ensures Valid()
      ensures r.Ok? ==> RendersRow(value, r.value) && met == old(met) + MetCells(value.items)
      ensures r.Err? ==> forall row :: !RendersRow(value, row)
    {
      hide Valid, RendersCell, MetField;
      if !value.Arr? { return Err; }
      var items, cells: seq<Cell> := value.items, [];
      for i := 0 to |items|
        invariant Valid() && |cells| == i
        invariant forall j | 0 <= j < i :: RendersCell(items[j], cells[j])
        invariant met == old(met) + MetCells(items[..i])
      {
        var cell := CellOf(items[i]);
        if cell.Err? { return Err; }
        CellRead(items[i], cell.value);
        cells := cells + [cell.value];
        assert items[..i + 1][..i] == items[..i];
      }
      assert items[..|items|] == items;
      return Ok(Row(cells));
    }

    method RowsOf(value: Json) returns (r: Result<seq<Row>>)
      requires Valid()
      modifies `users, `userSeen, `met
      ensures Valid()
      ensures r.Ok? ==> RendersRows(value, r.value) && met == old(met) + MetRows(value.items)
      ensures r.Err? ==> forall rows :: !RendersRows(value, rows)
    {
      hide Valid, RendersRow, MetCells;
      if !value.Arr? { return Err; }
      var items, rows: seq<Row> := value.items, [];
      for i := 0 to |items|
        invariant Valid() && |rows| == i
        invariant forall j | 0 <= j < i :: RendersRow(items[j], rows[j])
        invariant met == old(met) + MetRows(items[..i])
      {
        var row := RowOf(items[i]);
        if row.Err? { return Err; }
        RowRead(items[i], row.value);
        rows := rows + [row.value];
        assert items[..i + 1][..i] == items[..i];
      }
      assert items[..|items|] == items;
      return Ok(rows);
    }

    method ItemOf(value: Json) returns (r: Result<ListItem>)
      requires Valid() && Attached()
      modifies this
      ensures Valid() && (r.Ok? ==> Attached())
      ensures r.Ok? ==> RendersItem(value, r.value) && met == old(met) + MetBlocks(Field(value, "blocks"))
      ensures r.Ok? ==> media == old(media) + MediaOfAll(r.value.blocks)
      ensures r.Err? && !Refused(uploads) ==> forall item :: !RendersItem(value, item)
      decreases if value.Null? then 0 else 1, value, 1
    {
      hide Valid, RendersBlocks, MetBlocks, MediaOfAll;
      if !value.Obj? { return Err; }
      var blocks := Blocks(Field(value, "blocks"));
      if blocks.Err? { return Err; }
      var hasCheckbox := JsonBool(value, "has_checkbox");
      var checked := hasCheckbox && JsonBool(value, "is_checked");
      var itemType := JsonString(value, "type");
      if itemType == "" { return Ok(ListItem(hasCheckbox, checked, blocks.value, "", 0, "")); }
      if !IsListType(itemType) { return Err; }
      var number := JsonInt(value, "value");
      var numeral := ListLabels.OrderedListLabel(number, itemType);
      return Ok(ListItem(hasCheckbox, checked, blocks.value, itemType, number, numeral));
    }

    method ListOf(value: Json) returns (r: Result<PageBlock>)
      requires Valid() && Attached()
      modifies this
      ensures Valid() && (r.Ok? ==> Attached())
      ensures r.Ok? ==> IsList(r.value) && RendersItems(value, r.value.items)
      ensures r.Ok? ==> met == old(met) + MetItems(value.items) && media == old(media) + MediaOfItems(r.value.items)
      ensures r.Err? && !Refused(uploads) ==> forall b :: IsList(b) ==> !RendersItems(value, b.items)
      decreases if value.Null? then 0 else 1, value, 2
    {
      hide *;
      if !value.Arr? || |value.items| == 0 {
        NoItemsNoList(value);
        return Err;
      }
      NoneRendered(value.items);
      var items := value.items;
      var unordered: seq<ListItem>, ordered: seq<ListItem> := [], [];
      ghost var plain, typed := 0, 0;
      for i := 0 to |items|
        invariant Valid() && Attached()
        invariant unordered == [] ==> AllRendered(items, i, ordered, false) && media == old(media) + MediaOfItems(ordered)
        invariant ordered == [] ==> AllRendered(items, i, unordered, true) && media == old(media) + MediaOfItems(unordered)
        invariant unordered != [] ==> plain < i && items[plain].Obj? && JsonString(items[plain], "type") == ""
        invariant ordered != [] ==> typed < i && items[typed].Obj? && JsonString(items[typed], "type") != ""
        invariant met == old(met) + MetItems(items[..i])
      {
        var item := ItemOf(items[i]);
        if item.Err? {
          if !Refused(uploads) { OneItemFails(value, i); }
          return Err;
        }
        ItemRead(items, i, item.value);
        if item.value.listType == "" {
          if ordered == [] { OneMoreRendered(items, i, unordered, item.value, true); }
          unordered, plain := unordered + [item.value], i;
        } else {
          if unordered == [] { OneMoreRendered(items, i, ordered, item.value, false); }
          ordered, typed := ordered + [item.value], i;
        }
      }
      assert items[..|items|] == items;
      if |unordered| != 0 && |ordered| != 0 {
        MixedIsNoList(value, plain, typed);
        return Err;
      }
      if |ordered| != 0 {
        ListRendered(value, OrderedList(ordered));
        return Ok(OrderedList(ordered));
      }
      ListRendered(value, BulletList(unordered));
      return Ok(BulletList(unordered));
    }

    method Blocks(value: Json) returns (r: Result<seq<PageBlock>>)
      requires Valid() && Attached()
      modifies this
      ensures Valid() && (r.Ok? ==> Attached())
      ensures r.Ok? ==> RendersBlocks(value, r.value)
      ensures r.Ok? ==> met == old(met) + MetBlocks(value) && media == old(media) + MediaOfAll(r.value)
      ensures r.Err? && !Refused(uploads) ==> forall bs :: !RendersBlocks(value, bs)
      decreases if value.Null? then 0 else 1, value, 3
    {
      hide *;
      if !value.Arr? {
        NoArray(value);
        return if value.Null? then Ok([]) else Err;
      }
      var items, blocks: seq<PageBlock> := value.items, [];
      NoneYet(items);
      for i := 0 to |items|
        invariant Valid() && Attached() && EachRendered(items, i, blocks)
        invariant met == old(met) + MetEach(items[..i])
        invariant media == old(media) + MediaOfAll(blocks)
      {
        var block := Block(items[i]);
        if block.Err? {
          if !Refused(uploads) { OneBlockFails(value, i); }
          return Err;
        }
        OneMoreBlock(items, i, blocks, block.value);
        blocks := blocks + [block.value];
      }
      AllBlocks(value, blocks);
      return Ok(blocks);
    }

    method TextBlock(value: Json) returns (r: Result<PageBlock>)
      requires Valid() && value.Obj? && BlockKindOf(value) in {AsParagraph, AsFooter, AsThinking, AsPre}
      modifies `users, `userSeen, `met
      ensures Valid()
      ensures r.Ok? ==> RendersBlock(value, r.value)
      ensures r.Ok? ==> met == old(met) + MetBlock(value) && MediaOf(r.value) == []
      ensures r.Err? ==> forall b :: !RendersBlock(value, b)
      decreases if value.Null? then 0 else 1, value, 0
    {
      hide Valid, BlockKindOf, TextOf, MetText, RendersBlocks, MetBlocks, MediaOfAll, RendersCaption, MetCaption;
      var t := Text(Field(value, "text"));
      if t.Err? { return Err; }
      var kind := BlockKindOf(value);
      if kind.AsPre? { return Ok(Preformatted(t.value, JsonString(value, "language"))); }
      return Ok(if kind.AsParagraph? then Paragraph(t.value) else if kind.AsFooter? then Footer(t.value) else Thinking(t.value));
    }

    method QuoteBlock(value: Json) returns (r: Result<PageBlock>)
      requires Valid() && Attached() && value.Obj? && BlockKindOf(value) in {AsBlockquote, AsPullquote}
      modifies this
      ensures Valid() && (r.Ok? ==> Attached())
      ensures r.Ok? ==> RendersBlock(value, r.value)
      ensures r.Ok? ==> met == old(met) + MetBlock(value) && media == old(media) + MediaOf(r.value)
      ensures r.Err? && !Refused(uploads) ==> forall b :: !RendersBlock(value, b)
      decreases if value.Null? then 0 else 1, value, 0
    {
      hide Valid, BlockKindOf, TextOf, MetText, RendersBlocks, MetBlocks, MediaOfAll, RendersCaption, MetCaption;
      if BlockKindOf(value).AsBlockquote? {
        var blocks := Blocks(Field(value, "blocks"));
        if blocks.Err? { return Err; }
        var credit := Text(Field(value, "credit"));
        if credit.Err? { return Err; }
        return Ok(Blockquote(blocks.value, credit.value));
      }
      var t := Text(Field(value, "text"));
      if t.Err? { return Err; }
      var credit := Text(Field(value, "credit"));
      if credit.Err? { return Err; }
      return Ok(Pullquote(t.value, credit.value));
    }

    method GalleryBlock(value: Json) returns (r: Result<PageBlock>)
      requires Valid() && Attached() && value.Obj? && BlockKindOf(value) in {AsCollage, AsSlideshow}
      modifies this
      ensures Valid() && (r.Ok? ==> Attached())
      ensures r.Ok? ==> RendersBlock(value, r.value)
      ensures r.Ok? ==> met == old(met) + MetBlock(value) && media == old(media) + MediaOf(r.value)
      ensures r.Err? && !Refused(uploads) ==> forall b :: !RendersBlock(value, b)
      decreases if value.Null? then 0 else 1, value, 0
    {
      hide Valid, BlockKindOf, TextOf, MetText, RendersBlocks, MetBlocks, MediaOfAll, RendersCaption, MetCaption;
      var blocks := Blocks(Field(value, "blocks"));
      if blocks.Err? { return Err; }
      var caption := CaptionOf(Field(value, "caption"));
      if caption.Err? { return Err; }
      return Ok(if BlockKindOf(value).AsCollage? then Collage(blocks.value, caption.value) else Slideshow(blocks.value, caption.value));
    }

    method DetailsBlock(value: Json) returns (r: Result<PageBlock>)
      requires Valid() && Attached() && value.Obj? && BlockKindOf(value).AsDetails?
      modifies this
      ensures Valid() && (r.Ok? ==> Attached())
      ensures r.Ok? ==> RendersBlock(value, r.value)
      ensures r.Ok? ==> met == old(met) + MetBlock(value) && media == old(media) + MediaOf(r.value)
      ensures r.Err? && !Refused(uploads) ==> forall b :: !RendersBlock(value, b)
      decreases if value.Null? then 0 else 1, value, 0
    {
      hide Valid, BlockKindOf, TextOf, MetText, RendersBlocks, MetBlocks, MediaOfAll, RendersCaption, MetCaption;
      var summary := Text(Field(value, "summary"));
      if summary.Err? { return Err; }
      var blocks := Blocks(Field(value, "blocks"));
      if blocks.Err? { return Err; }
      return Ok(Details(JsonBool(value, "is_open"), summary.value, blocks.value));
    }

    method ListBlock(value: Json) returns (r: Result<PageBlock>)
      requires Valid() && Attached() && value.Obj? && BlockKindOf(value).AsList?
      modifies this
      ensures Valid() && (r.Ok? ==> Attached())
      ensures r.Ok? ==> RendersBlock(value, r.value)
      ensures r.Ok? ==> met == old(met) + MetBlock(value) && media == old(media) + MediaOf(r.value)
      ensures r.Err? && !Refused(uploads) ==> forall b :: !RendersBlock(value, b)
      decreases if value.Null? then 0 else 1, value, 0
    {
      hide Valid, BlockKindOf, RendersItems, MetItems, MediaOfItems;
      r := ListOf(Field(value, "items"));
      if r.Ok? { ItemsRead(Field(value, "items"), r.value.items); }
    }

    method TableBlock(value: Json) returns (r: Result<PageBlock>)
      requires Valid() && value.Obj? && BlockKindOf(value).AsTable?
      modifies `users, `userSeen, `met
      ensures Valid()
      ensures r.Ok? ==> RendersBlock(value, r.value)
      ensures r.Ok? ==> met == old(met) + MetBlock(value) && MediaOf(r.value) == []
      ensures r.Err? ==> forall b :: !RendersBlock(value, b)
      decreases if value.Null? then 0 else 1, value, 0
    {
      hide Valid, BlockKindOf, TextOf, MetText, RendersBlocks, MetBlocks, MediaOfAll, RendersCaption, MetCaption, RendersRows, MetRows;
      var rows := RowsOf(Field(value, "cells"));
      if rows.Err? { return Err; }
      var title := Text(Field(value, "caption"));
      if title.Err? { return Err; }
      RowsRead(Field(value, "cells"), rows.value);
      return Ok(Table(JsonBool(value, "is_bordered"), JsonBool(value, "is_striped"), title.value, rows.value));
    }

    method MapBlock(value: Json) returns (r: Result<PageBlock>)
      requires Valid() && value.Obj? && BlockKindOf(value).AsMap?
      modifies `users, `userSeen, `met
      ensures Valid()
      ensures r.Ok? ==> RendersBlock(value, r.value)
      ensures r.Ok? ==> met == old(met) + MetBlock(value) && MediaOf(r.value) == []
      ensures r.Err? ==> forall b :: !RendersBlock(value, b)
      decreases if value.Null? then 0 else 1, value, 0
    {
      hide Valid, BlockKindOf, TextOf, MetText, RendersBlocks, MetBlocks, MediaOfAll, RendersCaption, MetCaption;
      var location := Field(value, "location");
      if !location.Obj? { return Err; }
      var latitude, longitude := JsonFloat(location, "latitude"), JsonFloat(location, "longitude");
      if latitude.None? || longitude.None? { return Err; }
      var caption := CaptionOf(Field(value, "caption"));
      if caption.Err? { return Err; }
      return Ok(Map(latitude.value, longitude.value, AccuracyOf(location), JsonInt(value, "zoom"), JsonInt(value, "width"),
                    JsonInt(value, "height"), caption.value));
    }

    /** The photo or document an InputMedia resolves to, once its type is the expected one. */
    method Resolve(input: Json, expectedType: string) returns (r: Option<Medium>)
      requires Valid() && input.Obj?
      modifies `uploads
      ensures Valid()
      ensures JsonString(input, "type") == expectedType ==> uploads == old(uploads) + [Upload(expectedType, r)]
      ensures JsonString(input, "type") != expectedType ==> r.None? && uploads == old(uploads)
    {
      if JsonString(input, "type") != expectedType { return None; }
      r := *;
      uploads := uploads + [Upload(expectedType, r)];
    }

    method MediaBlock(value: Json) returns (r: Result<PageBlock>)
      requires Valid() && Attached() && value.Obj? && IsMedia(BlockKindOf(value))
      modifies this
      ensures Valid() && (r.Ok? ==> Attached())
      ensures r.Ok? ==> RendersBlock(value, r.value)
      ensures r.Ok? ==> met == old(met) + MetBlock(value) && media == old(media) + MediaOf(r.value)
      ensures r.Err? && !Refused(uploads) ==> forall b :: !RendersBlock(value, b)
      decreases if value.Null? then 0 else 1, value, 0
    {
      hide Valid, BlockKindOf, RendersCaption, MetCaption, RendersBlock, MetBlock, MediaOf;
      var kind, blockType := BlockKindOf(value), JsonString(value, "type");
      var input := Field(value, blockType);
      if !input.Obj? {
        NoMedia(value);
        return Err;
      }
      ghost var before := uploads;
      var medium := Resolve(input, blockType);
      OneMoreUpload(before, Upload(blockType, medium));
      if medium.None? {
        if uploads == before { NoMedia(value); }
        return Err;
      }
      var caption := CaptionOf(Field(value, "caption"));
      if caption.Err? {
        NoCaption(value);
        return Err;
      }
      PhotosArePhotos(value);
      if kind.AsPhoto? != medium.value.PhotoRef? { return Err; }
      Attach(medium.value);
      r := Ok(MediaBlockOf(kind, JsonBool(input, "has_spoiler"), medium.value.id, caption.value));
      MediaRendered(value, medium.value.id, caption.value);
    }

    method Attach(medium: Medium)
      requires Valid()
      modifies `photos, `documents, `media
      ensures Valid() && media == old(media) + [medium]
    {
      hide PhotoIds, DocumentIds, UsersMet;
      OneMoreMedium(media, medium);
      if medium.PhotoRef? { photos := photos + [medium.id]; } else { documents := documents + [medium.id]; }
      media := media + [medium];
    }

    method Block(value: Json) returns (r: Result<PageBlock>)
      requires Valid() && Attached()
      modifies this
      ensures Valid() && (r.Ok? ==> Attached())
      ensures r.Ok? ==> RendersBlock(value, r.value)
      ensures r.Ok? ==> met == old(met) + MetBlock(value) && media == old(media) + MediaOf(r.value)
      ensures r.Err? && !Refused(uploads) ==> forall b :: !RendersBlock(value, b)
      decreases if value.Null? then 0 else 1, value, 1
    {
      hide Valid, BlockKindOf, RendersItems, MetItems, MediaOfItems, IsList;
      if !value.Obj? { return Err; }
      match BlockKindOf(value)
      case AsParagraph | AsFooter | AsThinking | AsPre => r := TextBlock(value);
      case AsDivider => return Ok(Divider);
      case AsMath => return Ok(Math(JsonString(value, "expression")));
      case AsAnchor => return Ok(Anchor(JsonString(value, "name")));
      case AsList => r := ListBlock(value);
      case AsBlockquote | AsPullquote => r := QuoteBlock(value);
      case AsCollage | AsSlideshow => r := GalleryBlock(value);
      case AsTable => r := TableBlock(value);
      case AsDetails => r := DetailsBlock(value);
      case AsMap => r := MapBlock(value);
      case AsPhoto | AsVideo | AsAnimation | AsAudio => r := MediaBlock(value);
      case NotSupported => return Err;
    }

    /** buildRichMessage on a message given as blocks, with a new builder. */
    method BuildRichMessage(value: Json) returns (r: Outcome)
      requires Valid() && Attached() && media == [] && met == [] && uploads == []
      modifies this
      ensures r.Built? ==> value.Obj? && "blocks" in value.fields && TablesMatch(r.message)
      ensures r.Built? ==> RendersBlocks(Field(value, "blocks"), r.message.blocks)
      ensures r.Built? ==> r.message.users == UsersMet(MetBlocks(Field(value, "blocks")))
      ensures r.Built? ==> r.message.rtl == JsonBool(value, "is_rtl") && r.message.noautolink == JsonBool(value, "skip_entity_detection")
      ensures r.Markup? <==> value.Obj? && "blocks" !in value.fields
      ensures r.Built? ==> Attached() && media == MediaOfAll(r.message.blocks)
      ensures r.Failed? && value.Obj? && !Refused(uploads) ==> forall bs :: !RendersBlocks(Field(value, "blocks"), bs)
    {
      hide RendersBlocks, MetBlocks, MediaOfAll, PhotoIds, DocumentIds, UsersMet;
      if !value.Obj? { return Failed; }
      if "blocks" !in value.fields { return Markup; }
      var blocks := Blocks(Field(value, "blocks"));
      if blocks.Err? { return Failed; }
      assert met == MetBlocks(Field(value, "blocks")) && media == MediaOfAll(blocks.value);
      TablesClosed(Field(value, "blocks"), blocks.value);
      return Built(Message(JsonBool(value, "is_rtl"), JsonBool(value, "skip_entity_detection"), blocks.value, photos, documents, users));
    }
  }

  function MediaBlockOf(kind: BlockKind, spoiler: bool, id: int, caption: Caption): PageBlock {
    match kind
    case AsPhoto => Photo(spoiler, id, caption)
    case AsVideo => Video(false, spoiler, id, caption)
    case AsAnimation => Video(true, spoiler, id, caption)
    case _ => Audio(id, caption)
  }

  lemma MediaRendered(v: Json, id: int, caption: Caption)
    requires v.Obj? && IsMedia(BlockKindOf(v)) && RendersCaption(Field(v, "caption"), caption)
    requires var input := Field(v, JsonString(v, "type")); input.Obj? && JsonString(input, "type") == JsonString(v, "type")
    ensures var b := MediaBlockOf(BlockKindOf(v), JsonBool(Field(v, JsonString(v, "type")), "has_spoiler"), id, caption);
      RendersBlock(v, b) && MediaOf(b) == [if BlockKindOf(v).AsPhoto? then PhotoRef(id) else DocumentRef(id)]
    ensures MetBlock(v) == MetCaption(Field(v, "caption"))
  {
    hide BlockKindOf, RendersCaption, MetCaption;
  }

  lemma PhotosArePhotos(v: Json)
    requires v.Obj? && IsMedia(BlockKindOf(v))
    ensures BlockKindOf(v).AsPhoto? <==> JsonString(v, "type") == "photo"
  {
  }

  lemma NoMedia(v: Json)
    requires v.Obj? && IsMedia(BlockKindOf(v))
    requires var input := Field(v, JsonString(v, "type")); !input.Obj? || JsonString(input, "type") != JsonString(v, "type")
    ensures forall b :: !RendersBlock(v, b)
  {
    hide BlockKindOf, RendersCaption;
  }

  lemma NoCaption(v: Json)
    requires v.Obj? && IsMedia(BlockKindOf(v)) && forall c :: !RendersCaption(Field(v, "caption"), c)
    ensures forall b :: !RendersBlock(v, b)
  {
    hide BlockKindOf, RendersCaption;
  }

  ghost predicate EachRendered(vs: seq<Json>, n: nat, bs: seq<PageBlock>) {
    |bs| == n <= |vs| && forall i | 0 <= i < n :: RendersBlock(vs[i], bs[i])
  }

  lemma NoArray(v: Json)
    requires !v.Arr?
    ensures if v.Null? then RendersBlocks(v, []) && MetBlocks(v) == [] && MediaOfAll([]) == []
            else forall bs :: !RendersBlocks(v, bs)
  {
  }

  lemma NoneYet(vs: seq<Json>)
    ensures EachRendered(vs, 0, []) && MetEach(vs[..0]) == [] && MediaOfAll([]) == []
  {
  }

  lemma OneBlockFails(v: Json, i: nat)
    requires v.Arr? && i < |v.items| && forall b :: !RendersBlock(v.items[i], b)
    ensures forall bs :: !RendersBlocks(v, bs)
  {
    hide RendersBlock;
    forall bs ensures !RendersBlocks(v, bs) {
      if i < |bs| { assert !RendersBlock(v.items[i], bs[i]); }
    }
  }

  lemma OneMoreBlock(vs: seq<Json>, n: nat, bs: seq<PageBlock>, b: PageBlock)
    requires n < |vs| && EachRendered(vs, n, bs) && RendersBlock(vs[n], b)
    ensures EachRendered(vs, n + 1, bs + [b])
    ensures MetEach(vs[..n + 1]) == MetEach(vs[..n]) + MetBlock(vs[n])
    ensures MediaOfAll(bs + [b]) == MediaOfAll(bs) + MediaOf(b)
  {
    hide RendersBlock, MetBlock, MediaOf;
    assert vs[..n + 1][..n] == vs[..n];
    assert (bs + [b])[..|bs|] == bs;
  }

  lemma AllBlocks(v: Json, bs: seq<PageBlock>)
    requires v.Arr? && EachRendered(v.items, |v.items|, bs)
    ensures RendersBlocks(v, bs) && MetBlocks(v) == MetEach(v.items[..|v.items|])
  {
    hide RendersBlock, MetBlock;
    assert v.items[..|v.items|] == v.items;
  }

  lemma RowsRead(v: Json, rows: seq<Row>)
    requires RendersRows(v, rows)
    ensures v.Arr?
  {
  }

  lemma ItemsRead(v: Json, items: seq<ListItem>)
    requires RendersItems(v, items)
    ensures v.Arr?
  {
  }

  ghost predicate AllRendered(vs: seq<Json>, n: nat, items: seq<ListItem>, plain: bool) {
    && |items| == n <= |vs|
    && forall i | 0 <= i < n :: RendersItem(vs[i], items[i]) && (items[i].listType == "" <==> plain)
  }

  lemma NoneRendered(vs: seq<Json>)
    ensures AllRendered(vs, 0, [], true) && AllRendered(vs, 0, [], false)
    ensures MetItems(vs[..0]) == [] && MediaOfItems([]) == []
  {
  }

  lemma ItemRead(vs: seq<Json>, i: nat, item: ListItem)
    requires i < |vs| && RendersItem(vs[i], item)
    ensures vs[i].Obj? && item.listType == JsonString(vs[i], "type")
    ensures MetItems(vs[..i + 1]) == MetItems(vs[..i]) + MetBlocks(Field(vs[i], "blocks"))
  {
    assert vs[..i + 1][..i] == vs[..i];
  }

  lemma OneMoreRendered(vs: seq<Json>, n: nat, items: seq<ListItem>, item: ListItem, plain: bool)
    requires n < |vs| && AllRendered(vs, n, items, plain)
    requires RendersItem(vs[n], item) && (item.listType == "" <==> plain)
    ensures AllRendered(vs, n + 1, items + [item], plain)
    ensures MediaOfItems(items + [item]) == MediaOfItems(items) + MediaOfAll(item.blocks)
  {
    assert (items + [item])[..|items|] == items;
  }

  lemma ListRendered(v: Json, b: PageBlock)
    requires v.Arr? && v.items != [] && (b.BulletList? || b.OrderedList?)
    requires AllRendered(v.items, |v.items|, b.items, b.BulletList?)
    ensures IsList(b) && RendersItems(v, b.items)
  {
    hide RendersItem;
  }

  lemma NoItemsNoList(v: Json)
    requires !v.Arr? || v.items == []
    ensures forall b :: IsList(b) ==> !RendersItems(v, b.items)
  {
    hide RendersItem;
  }

  lemma OneItemFails(v: Json, i: nat)
    requires v.Arr? && i < |v.items| && forall item :: !RendersItem(v.items[i], item)
    ensures forall b :: IsList(b) ==> !RendersItems(v, b.items)
  {
    hide RendersItem;
    forall b | IsList(b) ensures !RendersItems(v, b.items) {
      if i < |b.items| { assert !RendersItem(v.items[i], b.items[i]); }
    }
  }

  lemma KindOfItem(v: Json, b: PageBlock, i: nat)
    requires v.Arr? && i < |v.items| && IsList(b) && RendersItems(v, b.items)
    ensures v.items[i].Obj? && (JsonString(v.items[i], "type") == "" <==> b.BulletList?)
  {
    assert RendersItem(v.items[i], b.items[i]);
  }

  lemma MixedIsNoList(v: Json, plain: nat, typed: nat)
    requires v.Arr? && plain < |v.items| && typed < |v.items|
    requires v.items[plain].Obj? && v.items[typed].Obj?
    requires JsonString(v.items[plain], "type") == "" && JsonString(v.items[typed], "type") != ""
    ensures forall b :: IsList(b) ==> !RendersItems(v, b.items)
  {
    hide RendersItems, RendersItem;
    forall b | IsList(b) ensures !RendersItems(v, b.items) {
      if RendersItems(v, b.items) {
        KindOfItem(v, b, plain);
        KindOfItem(v, b, typed);
      }
    }
  }

  lemma CellRead(v: Json, c: Cell)
    requires RendersCell(v, c)
    ensures v.Obj?
  {
  }

  lemma RowRead(v: Json, row: Row)
    requires RendersRow(v, row)
    ensures v.Arr?
  {
  }

  lemma OneTextFails(v: Json, i: nat)
    requires v.Arr? && i < |v.items| && TextOf(v.items[i]).Err?
    ensures TextOf(v).Err?
  {
  }

  ghost predicate TextsGiven(vs: seq<Json>, n: nat, texts: seq<RichText>) {
    |texts| == n <= |vs| && forall i | 0 <= i < n :: TextOf(vs[i]) == Ok(texts[i])
  }

  lemma NoTextYet(vs: seq<Json>)
    ensures TextsGiven(vs, 0, []) && MetTexts(vs[..0]) == []
  {
  }

  lemma OneMoreText(vs: seq<Json>, n: nat, texts: seq<RichText>, t: RichText)
    requires n < |vs| && TextsGiven(vs, n, texts) && TextOf(vs[n]) == Ok(t)
    ensures TextsGiven(vs, n + 1, texts + [t])
    ensures MetTexts(vs[..n + 1]) == MetTexts(vs[..n]) + MetText(vs[n])
  {
    hide TextOf, MetText;
    assert vs[..n + 1][..n] == vs[..n];
  }

  lemma AllTextsGiven(v: Json, texts: seq<RichText>)
    requires v.Arr? && v.items != [] && TextsGiven(v.items, |v.items|, texts)
    ensures TextOf(v) == Ok(TextConcat(texts))
  {
    assert TextOf(v).value.texts == texts;
  }

  lemma {:induction false} DroppedUsers(a: seq<Met>, b: seq<Met>)
    ensures UsersMet(a + Dropped(b)) == UsersMet(a + b)
  {
    if b == [] {
      assert Dropped(b) == b;
    } else {
      var n := |b| - 1;
      DroppedUsers(a, b[..n]);
      assert (a + b)[..|a + b| - 1] == a + b[..n];
      assert (a + Dropped(b))[..|a + b| - 1] == a + Dropped(b[..n]);
    }
  }

  ghost predicate IsMet(met: seq<Met>, m: Met) { exists i | 0 <= i < |met| :: met[i] == m }

  lemma {:induction false} UsersMetAreThose(met: seq<Met>, id: int)
    ensures id in UsersMet(met) <==> IsMet(met, Met(Mention(id), true)) || IsMet(met, Met(Mention(id), false))
  {
    if met != [] {
      var n := |met| - 1;
      UsersMetAreThose(met[..n], id);
      assert forall m :: IsMet(met[..n], m) ==> IsMet(met, m);
      assert forall m :: IsMet(met, m) ==> m == met[n] || IsMet(met[..n], m);
      assert IsMet(met, met[n]);
    }
  }

  lemma {:induction false} UsersMetOnce(met: seq<Met>)
    ensures NoRepeats(UsersMet(met))
  {
    if met != [] { UsersMetOnce(met[..|met| - 1]); }
  }

  lemma {:induction false} KeptAreThose(met: seq<Met>, p: Piece)
    ensures p in Kept(met) <==> IsMet(met, Met(p, true))
  {
    if met != [] {
      var n := |met| - 1;
      KeptAreThose(met[..n], p);
      assert IsMet(met[..n], Met(p, true)) ==> IsMet(met, Met(p, true));
      assert IsMet(met, Met(p, true)) ==> met[n] == Met(p, true) || IsMet(met[..n], Met(p, true));
      assert IsMet(met, met[n]);
    }
  }

  /** Everyone the tree mentions is in the users table, and nobody is there twice. */
  lemma TablesClosed(v: Json, bs: seq<PageBlock>)
    requires RendersBlocks(v, bs)
    ensures NoRepeats(UsersMet(MetBlocks(v)))
    ensures forall id | Mention(id) in PiecesOfBlocks(bs) :: id in UsersMet(MetBlocks(v))
  {
    hide RendersBlocks, MetBlocks, UsersMet;
    var met := MetBlocks(v);
    BlocksKeepPieces(v, bs);
    UsersMetOnce(met);
    forall id | Mention(id) in PiecesOfBlocks(bs) ensures id in UsersMet(met) {
      KeptAreThose(met, Mention(id));
      UsersMetAreThose(met, id);
    }
  }

  /** Whether someone who is mentioned only in discarded text is on the way into the users table. */
  ghost predicate OnlyDiscarded(met: seq<Met>, id: int) {
    IsMet(met, Met(Mention(id), false)) && !IsMet(met, Met(Mention(id), true))
  }

  /** The users table lists exactly the users the tree mentions if and only if nobody is mentioned in
      discarded text alone. */
  lemma UsersAreTheMentioned(v: Json, bs: seq<PageBlock>)
    requires RendersBlocks(v, bs)
    ensures (forall id :: id in UsersMet(MetBlocks(v)) <==> Mention(id) in PiecesOfBlocks(bs))
      <==> (forall id :: !OnlyDiscarded(MetBlocks(v), id))
  {
    hide RendersBlocks, MetBlocks, UsersMet, Kept;
    var met := MetBlocks(v);
    BlocksKeepPieces(v, bs);
    forall id: int
      ensures (id in UsersMet(met) <==> Mention(id) in PiecesOfBlocks(bs)) <==> !OnlyDiscarded(met, id)
    {
      KeptAreThose(met, Mention(id));
      UsersMetAreThose(met, id);
    }
  }

  /** A text mention of user 7 without text. */
  lemma BareMention() returns (mention: Json)
    ensures TextOf(mention) == Ok(TextMentionName(TextEmpty, 7)) && MetText(mention) == [Met(Mention(7), true)]
  {
    mention := Obj(map["type" := Str("text_mention", None), "user" := Obj(map["id" := Num(Some(7), Some(7.0))])]);
    assert MentionedUser(mention) == Some(7);
    assert Field(mention, "text") == Null;
  }

  /** A custom emoji with such a mention inside. */
  lemma EmojiOverMention() returns (emoji: Json)
    ensures TextOf(emoji) == Ok(TextCustomEmoji(5, "")) && MetText(emoji) == [Met(Mention(7), false)]
  {
    var mention := BareMention();
    emoji := Obj(map["type" := Str("custom_emoji", None), "custom_emoji_id" := Num(Some(5), Some(5.0)), "text" := mention]);
    assert MetText(emoji) == Dropped(MetText(mention));
    assert MetText(mention)[..0] == [];
  }

  /** That can happen: a custom emoji with a text mention inside puts the mentioned user into the table
      of a message that mentions nobody. */
  lemma MentionInsideEmoji() returns (v: Json, b: PageBlock)
    ensures RendersBlock(v, b)
    ensures UsersMet(MetBlock(v)) == [7] && PiecesOfBlock(b) == []
  {
    hide TextOf, MetText;
    var emoji := EmojiOverMention();
    v := Obj(map["type" := Str("paragraph", None), "text" := emoji]);
    b := Paragraph(TextCustomEmoji(5, ""));
    assert MetBlock(v) == [Met(Mention(7), false)];
    assert MetBlock(v)[..0] == [];
  }
}
